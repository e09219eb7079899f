/**
 * The per-request closure `TraceWithConfig` returns, as a function from everything the request
 * observes to the span events it causes and how it exits.
 */
module Middleware {
  import opened Wrappers
  import opened Bytes
  import opened Limit
  import opened Token
  import opened Errors
  import opened Span
  import opened Config

  const MethodKey := "http.method"
  const UrlKey := "http.url"
  const ComponentKey := "component"
  const ClientIPKey := "client_ip"
  const RequestIDKey := "request_id"
  const StatusKey := "http.status_code"
  const RequestBodyKey := "http.req.body"
  const ResponseBodyKey := "http.resp.body"
  const ErrorMessageKey := "error.message"
  const ErrorKey := "error"

  /** The tags that describe the request as issued. */
  const RequestKeys := {MethodKey, UrlKey, ComponentKey, ClientIPKey, RequestIDKey}

  /** How `next(c)` ended: it returned (an error or nil), or it panicked. */
  datatype HandlerResult = Completed(err: Option<Error>) | Panicked

  /** How the middleware itself ended: it returned (an error or nil), or a panic went through it. */
  datatype Exit = Returned(err: Option<Error>) | Panic

  /** What the request observes besides its configuration and the request itself. */
  datatype World = World(
    extracted: Option<SpanContext>,  // Tracer.Extract: None when it reported an error
    random: seq<byte>,               // what crypto/rand fills in for generateToken
    handler: HandlerResult,          // what next(c) does
    status: int,                     // c.Response().Status once the handler and c.Error are done
    response: seq<byte>,             // the bytes the response dumper captured
    multipartForm: bool)             // whether the request carries a parsed multipart form at the end

  datatype Outcome = Outcome(events: seq<Event>, exit: Exit)

  /** The parent a non-skipped request's span gets from the extraction result. */
  function ParentOf(extracted: Option<SpanContext>): (p: Parent)
    ensures p.Root? <==> extracted.None?
    ensures extracted.Some? ==> p.ctx == extracted.value
  {
    match extracted
    case None => Root
    case Some(ctx) => ServerChildOf(ctx)
  }

  /** `ext.HTTPStatusCode.Set(sp, uint16(status))`: Go keeps the low 16 bits of the status. */
  function Uint16(n: int): (u: int)
    ensures 0 <= u < 65536
    ensures 0 <= n < 65536 ==> u == n
    ensures (n - u) % 65536 == 0
  {
    n % 65536
  }

  /** What the middleware logs for a body: truncated iff `LimitHTTPBody`; `None` is a panic. */
  function Dump(s: Settings, body: seq<byte>): (r: Option<seq<byte>>)
    ensures !s.limitHTTPBody ==> r == Some(body)
    ensures r.None? <==> s.limitHTTPBody && s.limitSize <= -2
  {
    if s.limitHTTPBody then LimitString(body, s.limitSize) else Some(body)
  }

  /** `logError`: the classified message, then the `error = true` tag. */
  function LogError(e: Error): seq<Event> {
    [LogKV(ErrorMessageKey, Text(ErrorMessage(e))), SetTag(ErrorKey, Flag(true))]
  }

  /** `logError` logs the message of the first `HTTPError` `errors.As` finds, and otherwise `Error()`. */
  lemma LogErrorClassifies(e: Error)
    ensures |LogError(e)| == 2 && LogError(e)[1] == SetTag(ErrorKey, Flag(true))
    ensures e.HTTPError? ==> LogError(e)[0] == LogKV(ErrorMessageKey, Text(e.message))
    ensures e.Plain? ==> LogError(e)[0] == LogKV(ErrorMessageKey, Text(e.text))
    ensures e.Wrapped? && e.cause.HTTPError? ==> LogError(e)[0] == LogKV(ErrorMessageKey, Text(e.cause.message))
    ensures !HasHTTPError(e) ==> !e.HTTPError? && LogError(e)[0] == LogKV(ErrorMessageKey, Text(e.text))
    ensures HasHTTPError(e) ==> exists i, m :: FirstHTTPErrorAt(e, i, m) && LogError(e)[0] == LogKV(ErrorMessageKey, Text(m))
  {
    AsHTTPErrorFindsFirst(e);
  }

  /** The five tags set right after the span starts. */
  function RequestTags(s: Settings, req: Request, requestID: string): seq<Event> {
    [ SetTag(MethodKey, Text(req.httpMethod)),
      SetTag(UrlKey, Text(req.url)),
      SetTag(ComponentKey, Text(s.componentName)),
      SetTag(ClientIPKey, Text(req.realIP)),
      SetTag(RequestIDKey, Text(requestID)) ]
  }

  /** True when the request-body dump panics, before the handler is reached. */
  predicate RequestDumpPanics(s: Settings, req: Request) {
    s.isBodyDump && req.body.Some? && Dump(s, req.body.value).None?
  }

  /** The request-body log entry, if any. */
  function RequestLog(s: Settings, req: Request): seq<Event>
    requires !RequestDumpPanics(s, req)
  {
    if s.isBodyDump && req.body.Some? then [LogKV(RequestBodyKey, Body(Dump(s, req.body.value).value))]
    else []
  }

  /** The body the handler reads: with body dump on, a fresh reader over the bytes read (empty for nil). */
  function SeenBody(s: Settings, req: Request): Option<seq<byte>> {
    if !s.isBodyDump then req.body
    else if req.body.Some? then req.body
    else Some([])
  }

  /** `c.Error`, the status tag and `logError`: what follows a handler that returned. */
  function AfterHandler(err: Option<Error>, status: int): seq<Event> {
    (if err.Some? then [ReportError(err.value)] else [])
      + [SetTag(StatusKey, Code(Uint16(status)))]
      + (if err.Some? then LogError(err.value) else [])
  }

  /** The deferred multipart cleanup, which runs before the deferred `Finish` (Go runs defers last-in-first-out). */
  function Cleanup(w: World): seq<Event> {
    if w.multipartForm then [RemoveMultipart] else []
  }

  /** The exit of a skipped request: whatever the handler did. */
  function PassThrough(h: HandlerResult): Exit {
    if h.Panicked? then Panic else Returned(h.err)
  }

  /** The id a traced request is tagged with. */
  function RequestID(req: Request, w: World): string
    requires |w.random| == TokenBytes
  {
    GetRequestID(req.requestIDHeader, w.random)
  }

  /**
   * One request through the middleware. A skipped request goes straight to the handler, whose
   * result is returned unchanged; otherwise the middleware returns nil unless a panic goes
   * through it, which only a panicking handler or a negative body limit below -1 causes.
   * The span is started before and finished (deferred) after everything `InSpan` does.
   */
  function Intercept(s: Settings, req: Request, w: World): (r: Outcome)
    requires |w.random| == TokenBytes
    ensures s.skipper(req) ==> r.events == [CallNext(req.body)] && r.exit == PassThrough(w.handler)
    ensures !s.skipper(req) ==> r.exit == Returned(None) || r.exit == Panic
    ensures !s.skipper(req) && r.exit == Panic ==>
      w.handler.Panicked? || (s.isBodyDump && s.limitHTTPBody && s.limitSize <= -2)
  {
    if s.skipper(req) then
      Outcome([CallNext(req.body)], PassThrough(w.handler))
    else
      var inner := InSpan(s, req, RequestID(req, w), w);
      Outcome([Start(s.operationName(req), ParentOf(w.extracted))] + inner.events + [Finish], inner.exit)
  }

  /** What a traced request does between starting its span and the deferred `Finish`. */
  function InSpan(s: Settings, req: Request, requestID: string, w: World): (r: Outcome)
    ensures r.exit == Returned(None) || r.exit == Panic
    ensures r.exit == Panic ==> w.handler.Panicked? || (s.isBodyDump && s.limitHTTPBody && s.limitSize <= -2)
  {
    var tags := RequestTags(s, req, requestID);
    if RequestDumpPanics(s, req) then
      Outcome(tags, Panic)
    else
      var after := AfterNext(s, w);
      Outcome(tags + RequestLog(s, req) + [CallNext(SeenBody(s, req))] + after.events, after.exit)
  }

  /** What happens inside the span once `next(c)` has returned or panicked. */
  function AfterNext(s: Settings, w: World): (r: Outcome)
    ensures r.exit == Returned(None) || r.exit == Panic
    ensures r.exit == Panic ==> w.handler.Panicked? || (s.isBodyDump && s.limitHTTPBody && s.limitSize <= -2)
  {
    match w.handler
    case Panicked => Outcome(Cleanup(w), Panic)
    case Completed(err) =>
      var handled := AfterHandler(err, w.status);
      if s.isBodyDump && Dump(s, w.response).None? then
        Outcome(handled + Cleanup(w), Panic)
      else
        Outcome(handled + ResponseLog(s, w) + Cleanup(w), Returned(None))
  }

  /** The response-body log entry, if any. */
  function ResponseLog(s: Settings, w: World): seq<Event>
    requires !(s.isBodyDump && Dump(s, w.response).None?)
  {
    if s.isBodyDump then [LogKV(ResponseBodyKey, Body(Dump(s, w.response).value))] else []
  }

  /** None of the events between the span's start and its finish is a start or a finish. */
  predicate Interior(a: seq<Event>) {
    Never(a, AnyStart) && Never(a, AnyFinish)
  }

  lemma InteriorAppend(a: seq<Event>, b: seq<Event>)
    requires Interior(a) && Interior(b)
    ensures Interior(a + b)
  {
    NeverAppend(a, b, AnyStart);
    NeverAppend(a, b, AnyFinish);
  }

  /** Nothing after the handler starts or finishes a span, or calls the handler again. */
  lemma {:induction false} AfterNextIsInterior(s: Settings, w: World)
    ensures Interior(AfterNext(s, w).events)
    ensures Never(AfterNext(s, w).events, AnyNext)
  {
    match w.handler
    case Panicked =>
    case Completed(err) =>
      var after := AfterHandler(err, w.status);
      assert Interior(after) && Never(after, AnyNext);
      if s.isBodyDump && Dump(s, w.response).None? {
        InteriorAppend(after, Cleanup(w));
        NeverAppend(after, Cleanup(w), AnyNext);
      } else {
        InteriorAppend(after, ResponseLog(s, w));
        InteriorAppend(after + ResponseLog(s, w), Cleanup(w));
        NeverAppend(after, ResponseLog(s, w), AnyNext);
        NeverAppend(after + ResponseLog(s, w), Cleanup(w), AnyNext);
      }
  }

  /** Nothing inside the span starts or finishes a span. */
  lemma {:induction false} InSpanIsInterior(s: Settings, req: Request, requestID: string, w: World)
    ensures Interior(InSpan(s, req, requestID, w).events)
  {
    var tags := RequestTags(s, req, requestID);
    assert Interior(tags);
    if !RequestDumpPanics(s, req) {
      InteriorAppend(tags, RequestLog(s, req));
      InteriorAppend(tags + RequestLog(s, req), [CallNext(SeenBody(s, req))]);
      AfterNextIsInterior(s, w);
      InteriorAppend(tags + RequestLog(s, req) + [CallNext(SeenBody(s, req))], AfterNext(s, w).events);
    }
  }

  /**
   * A traced request's span: it is started first, as a root span exactly when extraction failed
   * and as a server child of the extracted context otherwise, and is never started again; it is
   * finished exactly once, as the very last event, on every path including panics.
   */
  lemma SpanLifecycle(s: Settings, req: Request, w: World)
    requires |w.random| == TokenBytes && !s.skipper(req)
    ensures var t := Intercept(s, req, w).events;
      && t[0] == Start(s.operationName(req), ParentOf(w.extracted))
      && (t[0].parent.Root? <==> w.extracted.None?)
      && OnlyAt(t, AnyStart, 0)
      && FinishedOnceLast(t)
  {
    var start := [Start(s.operationName(req), ParentOf(w.extracted))];
    var body := InSpan(s, req, RequestID(req, w), w).events;
    InSpanIsInterior(s, req, RequestID(req, w), w);
    assert OnlyAt(start, AnyStart, 0);
    NeverAppend(body, [Finish], AnyStart);
    OnlyAtExtends(start, body + [Finish], AnyStart, 0);
    assert start + (body + [Finish]) == start + body + [Finish];
    NeverAppend(start, body, AnyFinish);
    AppendedIsOnly(start + body, Finish, AnyFinish);
  }

  /** The events of a traced request before its handler is called. */
  function BeforeNext(s: Settings, req: Request, w: World): seq<Event>
    requires |w.random| == TokenBytes && !RequestDumpPanics(s, req)
  {
    [Start(s.operationName(req), ParentOf(w.extracted))] + RequestTags(s, req, RequestID(req, w)) + RequestLog(s, req)
  }

  /** The events of a traced request from the handler call on. */
  function FromNext(s: Settings, req: Request, w: World): seq<Event> {
    [CallNext(SeenBody(s, req))] + AfterNext(s, w).events + [Finish]
  }

  /** A traced request that gets past the request-body dump splits around its handler call. */
  lemma SplitAtNext(s: Settings, req: Request, w: World)
    requires |w.random| == TokenBytes && !s.skipper(req) && !RequestDumpPanics(s, req)
    ensures Intercept(s, req, w).events == BeforeNext(s, req, w) + FromNext(s, req, w)
    ensures Intercept(s, req, w).exit == AfterNext(s, w).exit
  {
    var start := [Start(s.operationName(req), ParentOf(w.extracted))];
    var tags := RequestTags(s, req, RequestID(req, w));
    var log := RequestLog(s, req);
    var next := [CallNext(SeenBody(s, req))];
    var after := AfterNext(s, w).events;
    assert InSpan(s, req, RequestID(req, w), w).events == tags + log + next + after;
    assert Intercept(s, req, w).events == start + (tags + log + next + after) + [Finish];
    RegroupAtNext(start, tags, log, next, after, [Finish]);
  }

  /** Regrouping the concatenation of a traced request's parts around the handler call. */
  lemma RegroupAtNext(a: seq<Event>, b: seq<Event>, c: seq<Event>, d: seq<Event>, e: seq<Event>, f: seq<Event>)
    ensures a + (b + c + d + e) + f == (a + b + c) + (d + e + f)
  {
  }

  /** A request whose body dump panics gets its span started, tagged and finished, and nothing else. */
  lemma EarlyPanic(s: Settings, req: Request, w: World)
    requires |w.random| == TokenBytes && !s.skipper(req) && RequestDumpPanics(s, req)
    ensures var t := Intercept(s, req, w).events;
      && Never(t, AnyNext) && Never(t, AnyCleanup) && Quiet(t)
      && Never(t, LogOf(RequestBodyKey)) && Never(t, LogOf(ResponseBodyKey))
      && t == [Start(s.operationName(req), ParentOf(w.extracted))] + RequestTags(s, req, RequestID(req, w)) + [Finish]
  {
    var t := Intercept(s, req, w).events;
    assert t == [Start(s.operationName(req), ParentOf(w.extracted))] + RequestTags(s, req, RequestID(req, w)) + [Finish];
  }

  /** The five request tags directly follow the span start. */
  lemma RequestTagsFollowStart(s: Settings, req: Request, w: World)
    requires |w.random| == TokenBytes && !s.skipper(req)
    ensures var t := Intercept(s, req, w).events;
      |t| >= 7 && t[1..6] == RequestTags(s, req, RequestID(req, w))
  {
    var inner := InSpan(s, req, RequestID(req, w), w).events;
    InSpanStartsWithTags(s, req, RequestID(req, w), w);
    var t := Intercept(s, req, w).events;
    assert t == [t[0]] + inner + [Finish];
    assert t[1..6] == inner[..5];
  }

  lemma InSpanStartsWithTags(s: Settings, req: Request, requestID: string, w: World)
    ensures var inner := InSpan(s, req, requestID, w).events;
      |inner| >= 5 && inner[..5] == RequestTags(s, req, requestID)
  {
    var tags := RequestTags(s, req, requestID);
    if !RequestDumpPanics(s, req) {
      var rest := RequestLog(s, req) + [CallNext(SeenBody(s, req))] + AfterNext(s, w).events;
      assert InSpan(s, req, requestID, w).events == tags + RequestLog(s, req) + [CallNext(SeenBody(s, req))] + AfterNext(s, w).events;
      assert tags + RequestLog(s, req) + [CallNext(SeenBody(s, req))] + AfterNext(s, w).events == tags + rest;
      assert (tags + rest)[..5] == tags;
    }
  }

  /**
   * The request is described before the handler runs: each of the five request tags precedes
   * the handler call (vacuously when the handler is never reached).
   */
  lemma RequestTaggedBeforeHandler(s: Settings, req: Request, w: World)
    requires |w.random| == TokenBytes && !s.skipper(req)
    ensures forall key | key in RequestKeys :: Before(Intercept(s, req, w).events, TagOf(key), AnyNext)
  {
    var t := Intercept(s, req, w).events;
    if RequestDumpPanics(s, req) {
      EarlyPanic(s, req, w);
    } else {
      SplitAtNext(s, req, w);
      var a := BeforeNext(s, req, w);
      var after := AfterNext(s, w).events;
      AfterNextTags(s, w);
      assert Never(a, AnyNext);
      forall key | key in RequestKeys
        ensures Before(t, TagOf(key), AnyNext)
      {
        NeverAppend([CallNext(SeenBody(s, req))], after, TagOf(key));
        NeverAppend([CallNext(SeenBody(s, req))] + after, [Finish], TagOf(key));
        BeforeAcross(a, FromNext(s, req, w), TagOf(key), AnyNext);
      }
    }
  }

  /**
   * The handler is called exactly once, reading the body as the dump left it, unless the
   * request-body dump panicked first, in which case it is never called.
   */
  lemma HandlerCalledOnce(s: Settings, req: Request, w: World)
    requires |w.random| == TokenBytes && !s.skipper(req)
    ensures var t := Intercept(s, req, w).events;
      && (RequestDumpPanics(s, req) ==> Never(t, AnyNext))
      && (!RequestDumpPanics(s, req) ==> exists k :: OnlyAt(t, AnyNext, k) && t[k] == CallNext(SeenBody(s, req)))
  {
    var t := Intercept(s, req, w).events;
    if RequestDumpPanics(s, req) {
      EarlyPanic(s, req, w);
    } else {
      SplitAtNext(s, req, w);
      var a := BeforeNext(s, req, w);
      var b := FromNext(s, req, w);
      var after := AfterNext(s, w).events;
      AfterNextIsInterior(s, w);
      assert Never(a, AnyNext);
      NeverAppend(after, [Finish], AnyNext);
      PrependedIsOnly(CallNext(SeenBody(s, req)), after + [Finish], AnyNext);
      assert b == [CallNext(SeenBody(s, req))] + (after + [Finish]);
      OnlyAtShifts(a, b, AnyNext, 0);
      assert t[|a|] == CallNext(SeenBody(s, req));
    }
  }

  /** After the handler, only the status and error tags are set. */
  lemma AfterNextTags(s: Settings, w: World)
    ensures forall key | key != StatusKey && key != ErrorKey :: Never(AfterNext(s, w).events, TagOf(key))
  {
    forall key | key != StatusKey && key != ErrorKey
      ensures Never(AfterNext(s, w).events, TagOf(key))
    {
      AfterNextTagsOf(s, w, TagOf(key));
    }
  }

  /** Whatever `AfterHandler` and the response log never contain, `AfterNext` never contains either. */
  lemma AfterNextTagsOf(s: Settings, w: World, p: Pattern)
    requires p.TagOf? && p.key != StatusKey && p.key != ErrorKey
    ensures Never(AfterNext(s, w).events, p)
  {
    match w.handler
    case Panicked =>
    case Completed(err) =>
      var after := AfterHandler(err, w.status);
      AfterHandlerTags(err, w.status, p);
      if ResponseDumpPanics(s, w) {
        assert AfterNext(s, w).events == after + Cleanup(w);
        NeverAppend(after, Cleanup(w), p);
      } else {
        assert AfterNext(s, w).events == after + ResponseLog(s, w) + Cleanup(w);
        NeverAppend(after, ResponseLog(s, w), p);
        NeverAppend(after + ResponseLog(s, w), Cleanup(w), p);
      }
  }

  lemma AfterHandlerTags(err: Option<Error>, status: int, p: Pattern)
    requires p.TagOf? && p.key != StatusKey && p.key != ErrorKey
    ensures Never(AfterHandler(err, status), p)
  {
  }

  /** True when the handler is reached and returns (with or without an error). */
  predicate HandlerReturned(s: Settings, req: Request, w: World) {
    !RequestDumpPanics(s, req) && w.handler.Completed?
  }

  /** True when the response-body dump panics. */
  predicate ResponseDumpPanics(s: Settings, w: World) {
    s.isBodyDump && Dump(s, w.response).None?
  }

  /** The events of a returned handler's request that follow `AfterHandler`. */
  function Postlude(s: Settings, w: World): seq<Event> {
    (if ResponseDumpPanics(s, w) then [] else ResponseLog(s, w)) + Cleanup(w) + [Finish]
  }

  /** A request whose handler returned: everything before the handler's outcome, the outcome, the rest. */
  lemma SplitAtOutcome(s: Settings, req: Request, w: World)
    requires |w.random| == TokenBytes && !s.skipper(req) && HandlerReturned(s, req, w)
    ensures Intercept(s, req, w).events
      == BeforeNext(s, req, w) + [CallNext(SeenBody(s, req))] + AfterHandler(w.handler.err, w.status) + Postlude(s, w)
  {
    SplitAtNext(s, req, w);
    var n := [CallNext(SeenBody(s, req))];
    var m := AfterHandler(w.handler.err, w.status);
    var x := if ResponseDumpPanics(s, w) then [] else ResponseLog(s, w);
    assert AfterNext(s, w).events == m + x + Cleanup(w);
    assert Postlude(s, w) == x + Cleanup(w) + [Finish];
    RegroupAtOutcome(BeforeNext(s, req, w), n, m, x, Cleanup(w), [Finish]);
  }

  /** Regrouping the concatenation of a returned handler's request around its outcome. */
  lemma RegroupAtOutcome(a: seq<Event>, n: seq<Event>, m: seq<Event>, x: seq<Event>, c: seq<Event>, f: seq<Event>)
    ensures a + (n + (m + x + c) + f) == a + n + m + (x + c + f)
  {
  }

  /** Neither the handler's error nor its status appears outside `AfterHandler`. */
  predicate Quiet(t: seq<Event>) {
    && Never(t, AnyReport)
    && Never(t, TagOf(StatusKey))
    && Never(t, LogOf(ErrorMessageKey))
    && Never(t, TagOf(ErrorKey))
  }

  lemma OutsideOutcomeIsQuiet(s: Settings, req: Request, w: World)
    requires |w.random| == TokenBytes && !RequestDumpPanics(s, req)
    ensures Quiet(BeforeNext(s, req, w) + [CallNext(SeenBody(s, req))])
    ensures Quiet(Postlude(s, w))
  {
    var a := BeforeNext(s, req, w);
    assert Quiet(a);
    NeverAppend(a, [CallNext(SeenBody(s, req))], AnyReport);
    NeverAppend(a, [CallNext(SeenBody(s, req))], TagOf(StatusKey));
    NeverAppend(a, [CallNext(SeenBody(s, req))], LogOf(ErrorMessageKey));
    NeverAppend(a, [CallNext(SeenBody(s, req))], TagOf(ErrorKey));
  }

  /**
   * What a traced request returns: nil exactly when no panic goes through it, that is when the
   * handler did not panic and the body limit is not a negative number below -1 with body dump on.
   * The handler's own error is never returned; it went to `c.Error` instead.
   */
  lemma ReturnValue(s: Settings, req: Request, w: World)
    requires |w.random| == TokenBytes && !s.skipper(req)
    ensures var r := Intercept(s, req, w);
      && (r.exit == Returned(None) <==> w.handler.Completed? && !(s.isBodyDump && s.limitHTTPBody && s.limitSize <= -2))
      && (r.exit != Returned(None) ==> r.exit == Panic)
  {
    if !RequestDumpPanics(s, req) {
      SplitAtNext(s, req, w);
    }
  }

  /**
   * A handler error goes to `c.Error` exactly once, after the handler call and before the status
   * tag is read; when the handler returned nil, panicked or was never reached, `c.Error` is not
   * called.
   */
  lemma HandlerErrorReported(s: Settings, req: Request, w: World)
    requires |w.random| == TokenBytes && !s.skipper(req)
    ensures var t := Intercept(s, req, w).events;
      && (Never(t, AnyReport) <==> !(HandlerReturned(s, req, w) && w.handler.err.Some?))
      && (HandlerReturned(s, req, w) && w.handler.err.Some? ==>
            exists k :: OnlyAt(t, AnyReport, k) && t[k] == ReportError(w.handler.err.value))
      && Before(t, AnyNext, AnyReport)
      && Before(t, AnyReport, TagOf(StatusKey))
  {
    var t := Intercept(s, req, w).events;
    if !HandlerReturned(s, req, w) {
      NoOutcomeWithoutReturn(s, req, w);
    } else {
      SplitAtOutcome(s, req, w);
      OutsideOutcomeIsQuiet(s, req, w);
      AfterNextIsInterior(s, w);
      var a := BeforeNext(s, req, w) + [CallNext(SeenBody(s, req))];
      ReportWithinOutcome(a, w.handler.err, w.status, Postlude(s, w));
    }
  }

  /** A request whose handler did not return has no `c.Error`, status tag or error log at all. */
  lemma NoOutcomeWithoutReturn(s: Settings, req: Request, w: World)
    requires |w.random| == TokenBytes && !s.skipper(req) && !HandlerReturned(s, req, w)
    ensures Quiet(Intercept(s, req, w).events)
  {
    var t := Intercept(s, req, w).events;
    if RequestDumpPanics(s, req) {
      EarlyPanic(s, req, w);
    } else {
      SplitAtNext(s, req, w);
      var a := BeforeNext(s, req, w);
      var b := FromNext(s, req, w);
      assert Quiet(a) && Quiet(b);
      NeverAppend(a, b, AnyReport);
      NeverAppend(a, b, TagOf(StatusKey));
      NeverAppend(a, b, LogOf(ErrorMessageKey));
      NeverAppend(a, b, TagOf(ErrorKey));
    }
  }

  /** `c.Error` inside `AfterHandler`, placed between a quiet prefix ending in the handler call and a quiet rest. */
  lemma ReportWithinOutcome(a: seq<Event>, err: Option<Error>, status: int, c: seq<Event>)
    requires Quiet(a) && Quiet(c) && Never(c, AnyNext)
    ensures var m := AfterHandler(err, status); var t := a + m + c;
      && (Never(t, AnyReport) <==> err.None?)
      && (err.Some? ==> OnlyAt(t, AnyReport, |a|) && t[|a|] == ReportError(err.value))
      && Before(t, AnyNext, AnyReport)
      && Before(t, AnyReport, TagOf(StatusKey))
  {
    var m := AfterHandler(err, status);
    OnlyAtEmbeds(a, m, c, AnyReport);
    assert Before(m, AnyReport, TagOf(StatusKey));
    BeforeEmbeds(a, m, c, AnyReport, TagOf(StatusKey));
    if err.Some? {
      assert OnlyAt(m, AnyReport, 0);
    }
    assert Never(m, AnyNext);
    NeverAppend(m, c, AnyNext);
    BeforeAcross(a, m + c, AnyNext, AnyReport);
    assert a + (m + c) == a + m + c;
  }

  /**
   * The response status is tagged exactly once, after the handler call, with Go's `uint16`
   * conversion of the final status, when the handler returned; otherwise it is never tagged.
   */
  lemma StatusTaggedAfterHandler(s: Settings, req: Request, w: World)
    requires |w.random| == TokenBytes && !s.skipper(req)
    ensures var t := Intercept(s, req, w).events;
      && (Never(t, TagOf(StatusKey)) <==> !HandlerReturned(s, req, w))
      && (HandlerReturned(s, req, w) ==>
            exists k :: OnlyAt(t, TagOf(StatusKey), k) && t[k] == SetTag(StatusKey, Code(Uint16(w.status))))
      && Before(t, AnyNext, TagOf(StatusKey))
  {
    if !HandlerReturned(s, req, w) {
      NoOutcomeWithoutReturn(s, req, w);
    } else {
      SplitAtOutcome(s, req, w);
      OutsideOutcomeIsQuiet(s, req, w);
      var a := BeforeNext(s, req, w) + [CallNext(SeenBody(s, req))];
      StatusWithinOutcome(a, w.handler.err, w.status, Postlude(s, w));
    }
  }

  lemma StatusWithinOutcome(a: seq<Event>, err: Option<Error>, status: int, c: seq<Event>)
    requires Quiet(a) && Quiet(c) && Never(c, AnyNext)
    ensures var m := AfterHandler(err, status); var t := a + m + c;
      && !Never(t, TagOf(StatusKey))
      && (exists k :: OnlyAt(t, TagOf(StatusKey), k) && t[k] == SetTag(StatusKey, Code(Uint16(status))))
      && Before(t, AnyNext, TagOf(StatusKey))
  {
    var m := AfterHandler(err, status);
    var k := if err.Some? then 1 else 0;
    assert OnlyAt(m, TagOf(StatusKey), k) && m[k] == SetTag(StatusKey, Code(Uint16(status)));
    OnlyAtEmbeds(a, m, c, TagOf(StatusKey));
    assert (a + m + c)[|a| + k] == m[k];
    assert Never(m, AnyNext);
    NeverAppend(m, c, AnyNext);
    BeforeAcross(a, m + c, AnyNext, TagOf(StatusKey));
    assert a + (m + c) == a + m + c;
  }

  /**
   * `logError` runs exactly when the handler returned an error: after the status tag, the
   * classified `error.message` is logged and then `error = true` is tagged, once each. When the
   * handler returned nil, panicked or was never reached, neither appears.
   */
  lemma HandlerErrorLogged(s: Settings, req: Request, w: World)
    requires |w.random| == TokenBytes && !s.skipper(req)
    ensures var t := Intercept(s, req, w).events;
      && (Never(t, TagOf(ErrorKey)) <==> !(HandlerReturned(s, req, w) && w.handler.err.Some?))
      && (Never(t, LogOf(ErrorMessageKey)) <==> !(HandlerReturned(s, req, w) && w.handler.err.Some?))
      && (HandlerReturned(s, req, w) && w.handler.err.Some? ==>
            && (exists k :: OnlyAt(t, LogOf(ErrorMessageKey), k)
                  && t[k] == LogKV(ErrorMessageKey, Text(ErrorMessage(w.handler.err.value))))
            && (exists k :: OnlyAt(t, TagOf(ErrorKey), k) && t[k] == SetTag(ErrorKey, Flag(true))))
      && Before(t, TagOf(StatusKey), LogOf(ErrorMessageKey))
      && Before(t, LogOf(ErrorMessageKey), TagOf(ErrorKey))
  {
    if !HandlerReturned(s, req, w) {
      NoOutcomeWithoutReturn(s, req, w);
    } else {
      SplitAtOutcome(s, req, w);
      OutsideOutcomeIsQuiet(s, req, w);
      var a := BeforeNext(s, req, w) + [CallNext(SeenBody(s, req))];
      ErrorLogWithinOutcome(a, w.handler.err, w.status, Postlude(s, w));
    }
  }

  lemma ErrorLogWithinOutcome(a: seq<Event>, err: Option<Error>, status: int, c: seq<Event>)
    requires Quiet(a) && Quiet(c)
    ensures var m := AfterHandler(err, status); var t := a + m + c;
      && (Never(t, TagOf(ErrorKey)) <==> err.None?)
      && (Never(t, LogOf(ErrorMessageKey)) <==> err.None?)
      && (err.Some? ==>
            && OnlyAt(t, LogOf(ErrorMessageKey), |a| + 2)
            && t[|a| + 2] == LogKV(ErrorMessageKey, Text(ErrorMessage(err.value)))
            && OnlyAt(t, TagOf(ErrorKey), |a| + 3)
            && t[|a| + 3] == SetTag(ErrorKey, Flag(true)))
      && Before(t, TagOf(StatusKey), LogOf(ErrorMessageKey))
      && Before(t, LogOf(ErrorMessageKey), TagOf(ErrorKey))
  {
    var m := AfterHandler(err, status);
    OnlyAtEmbeds(a, m, c, TagOf(ErrorKey));
    OnlyAtEmbeds(a, m, c, LogOf(ErrorMessageKey));
    assert Before(m, TagOf(StatusKey), LogOf(ErrorMessageKey));
    assert Before(m, LogOf(ErrorMessageKey), TagOf(ErrorKey));
    BeforeEmbeds(a, m, c, TagOf(StatusKey), LogOf(ErrorMessageKey));
    BeforeEmbeds(a, m, c, LogOf(ErrorMessageKey), TagOf(ErrorKey));
    if err.Some? {
      assert OnlyAt(m, LogOf(ErrorMessageKey), 2) && OnlyAt(m, TagOf(ErrorKey), 3);
      assert (a + m + c)[|a| + 2] == m[2] && (a + m + c)[|a| + 3] == m[3];
    }
  }

  /** After the handler, only the error message and the response body are logged. */
  lemma AfterNextLogs(s: Settings, w: World)
    ensures forall key | key != ErrorMessageKey && key != ResponseBodyKey :: Never(AfterNext(s, w).events, LogOf(key))
  {
    forall key | key != ErrorMessageKey && key != ResponseBodyKey
      ensures Never(AfterNext(s, w).events, LogOf(key))
    {
      AfterNextLogsOf(s, w, LogOf(key));
    }
  }

  lemma AfterNextLogsOf(s: Settings, w: World, p: Pattern)
    requires p.LogOf? && p.key != ErrorMessageKey && p.key != ResponseBodyKey
    ensures Never(AfterNext(s, w).events, p)
  {
    match w.handler
    case Panicked =>
    case Completed(err) =>
      var after := AfterHandler(err, w.status);
      AfterHandlerLogs(err, w.status, p);
      if ResponseDumpPanics(s, w) {
        assert AfterNext(s, w).events == after + Cleanup(w);
        NeverAppend(after, Cleanup(w), p);
      } else {
        assert AfterNext(s, w).events == after + ResponseLog(s, w) + Cleanup(w);
        NeverAppend(after, ResponseLog(s, w), p);
        NeverAppend(after + ResponseLog(s, w), Cleanup(w), p);
      }
  }

  lemma AfterHandlerLogs(err: Option<Error>, status: int, p: Pattern)
    requires p.LogOf? && p.key != ErrorMessageKey
    ensures Never(AfterHandler(err, status), p)
  {
  }


  /**
   * `http.req.body` is logged exactly when body dump is on, the body is non-nil and its dump does
   * not panic. Then it is logged once, right before the handler call, truncated iff
   * `LimitHTTPBody`, and the handler reads exactly the original bytes. With dump on and a nil
   * body nothing is logged and the handler reads an empty body.
   */
  lemma RequestBodyDumped(s: Settings, req: Request, w: World)
    requires |w.random| == TokenBytes && !s.skipper(req)
    ensures var t := Intercept(s, req, w).events;
      && (!Never(t, LogOf(RequestBodyKey)) <==> s.isBodyDump && req.body.Some? && !RequestDumpPanics(s, req))
      && (s.isBodyDump && !RequestDumpPanics(s, req) ==>
            && (req.body.Some? ==>
                  && !(s.limitHTTPBody && s.limitSize <= -2)
                  && OnlyAt(t, LogOf(RequestBodyKey), 6)
                  && t[6] == LogKV(RequestBodyKey, Body(Dump(s, req.body.value).value))
                  && t[7] == CallNext(req.body))
            && (req.body.None? ==> t[6] == CallNext(Some([]))))
      && Before(t, LogOf(RequestBodyKey), AnyNext)
  {
    if RequestDumpPanics(s, req) {
      EarlyPanic(s, req, w);
    } else if !s.isBodyDump {
      NoDumpNoBodyLogs(s, req, w);
    } else {
      RequestBodyLogged(s, req, w);
    }
  }

  lemma RequestBodyLogged(s: Settings, req: Request, w: World)
    requires |w.random| == TokenBytes && !s.skipper(req) && s.isBodyDump && !RequestDumpPanics(s, req)
    ensures var t := Intercept(s, req, w).events;
      && (req.body.Some? ==>
            && !(s.limitHTTPBody && s.limitSize <= -2)
            && OnlyAt(t, LogOf(RequestBodyKey), 6)
            && t[6] == LogKV(RequestBodyKey, Body(Dump(s, req.body.value).value))
            && t[7] == CallNext(req.body))
      && (req.body.None? ==> Never(t, LogOf(RequestBodyKey)) && t[6] == CallNext(Some([])))
      && Before(t, LogOf(RequestBodyKey), AnyNext)
  {
    SplitAtNext(s, req, w);
    var a := [Start(s.operationName(req), ParentOf(w.extracted))] + RequestTags(s, req, RequestID(req, w));
    var m := RequestLog(s, req);
    var c := FromNext(s, req, w);
    AfterNextLogs(s, w);
    NeverAppend([CallNext(SeenBody(s, req))], AfterNext(s, w).events, LogOf(RequestBodyKey));
    NeverAppend([CallNext(SeenBody(s, req))] + AfterNext(s, w).events, [Finish], LogOf(RequestBodyKey));
    assert Never(a, LogOf(RequestBodyKey)) && Never(c, LogOf(RequestBodyKey));
    OnlyAtEmbeds(a, m, c, LogOf(RequestBodyKey));
    if req.body.Some? {
      assert OnlyAt(m, LogOf(RequestBodyKey), 0);
    }
    assert (a + m + c)[|a| + |m|] == c[0];
    NeverAppend(a, m, AnyNext);
    BeforeAcross(a + m, c, LogOf(RequestBodyKey), AnyNext);
  }

  /** With body dump off, neither body is logged and the handler reads the request body untouched. */
  lemma NoDumpNoBodyLogs(s: Settings, req: Request, w: World)
    requires |w.random| == TokenBytes && !s.skipper(req) && !s.isBodyDump
    ensures var t := Intercept(s, req, w).events;
      && Never(t, LogOf(RequestBodyKey))
      && Never(t, LogOf(ResponseBodyKey))
      && t[6] == CallNext(req.body)
  {
    SplitAtNext(s, req, w);
    var a := BeforeNext(s, req, w);
    assert a == [a[0]] + RequestTags(s, req, RequestID(req, w));
    NoDumpAfterNext(s, w);
    FromNextNever(s, req, w, LogOf(RequestBodyKey));
    FromNextNever(s, req, w, LogOf(ResponseBodyKey));
    NeverAppend(a, FromNext(s, req, w), LogOf(RequestBodyKey));
    NeverAppend(a, FromNext(s, req, w), LogOf(ResponseBodyKey));
  }

  lemma NoDumpAfterNext(s: Settings, w: World)
    requires !s.isBodyDump
    ensures Never(AfterNext(s, w).events, LogOf(RequestBodyKey))
    ensures Never(AfterNext(s, w).events, LogOf(ResponseBodyKey))
  {
    AfterNextLogs(s, w);
    match w.handler
    case Panicked =>
    case Completed(err) =>
      NeverAppend(AfterHandler(err, w.status), Cleanup(w), LogOf(ResponseBodyKey));
  }

  lemma FromNextNever(s: Settings, req: Request, w: World, p: Pattern)
    requires Never(AfterNext(s, w).events, p) && !p.AnyNext? && !p.AnyFinish?
    ensures Never(FromNext(s, req, w), p)
  {
    NeverAppend([CallNext(SeenBody(s, req))], AfterNext(s, w).events, p);
    NeverAppend([CallNext(SeenBody(s, req))] + AfterNext(s, w).events, [Finish], p);
  }

  /**
   * `http.resp.body` is logged exactly when body dump is on, the handler returned and the
   * response dump does not panic. Then the captured response bytes are logged once, truncated
   * iff `LimitHTTPBody`, after the status tag.
   */
  lemma ResponseBodyDumped(s: Settings, req: Request, w: World)
    requires |w.random| == TokenBytes && !s.skipper(req)
    ensures var t := Intercept(s, req, w).events;
      && (!Never(t, LogOf(ResponseBodyKey)) <==> s.isBodyDump && HandlerReturned(s, req, w) && !ResponseDumpPanics(s, w))
      && (s.isBodyDump && HandlerReturned(s, req, w) && !ResponseDumpPanics(s, w) ==>
            && !(s.limitHTTPBody && s.limitSize <= -2)
            && (exists k :: OnlyAt(t, LogOf(ResponseBodyKey), k) && t[k] == LogKV(ResponseBodyKey, Body(Dump(s, w.response).value)))
            && Before(t, TagOf(StatusKey), LogOf(ResponseBodyKey)))
  {
    if RequestDumpPanics(s, req) {
      EarlyPanic(s, req, w);
    } else if !s.isBodyDump {
      NoDumpNoBodyLogs(s, req, w);
    } else if w.handler.Panicked? {
      SplitAtNext(s, req, w);
      assert Never(BeforeNext(s, req, w), LogOf(ResponseBodyKey));
      assert Never(AfterNext(s, w).events, LogOf(ResponseBodyKey));
      FromNextNever(s, req, w, LogOf(ResponseBodyKey));
      NeverAppend(BeforeNext(s, req, w), FromNext(s, req, w), LogOf(ResponseBodyKey));
    } else if ResponseDumpPanics(s, w) {
      ResponseDumpPanicLogsNothing(s, req, w);
    } else {
      ResponseBodyLogged(s, req, w);
    }
  }

  /** A response dump that panics leaves no `http.resp.body`. */
  lemma ResponseDumpPanicLogsNothing(s: Settings, req: Request, w: World)
    requires |w.random| == TokenBytes && !s.skipper(req) && HandlerReturned(s, req, w) && ResponseDumpPanics(s, w)
    ensures Never(Intercept(s, req, w).events, LogOf(ResponseBodyKey))
  {
    SplitAtOutcome(s, req, w);
    var a := BeforeNext(s, req, w) + [CallNext(SeenBody(s, req))];
    var m := AfterHandler(w.handler.err, w.status);
    assert Never(BeforeNext(s, req, w), LogOf(ResponseBodyKey));
    NeverAppend(BeforeNext(s, req, w), [CallNext(SeenBody(s, req))], LogOf(ResponseBodyKey));
    NeverAppend(a, m, LogOf(ResponseBodyKey));
    assert Never(Postlude(s, w), LogOf(ResponseBodyKey));
    NeverAppend(a + m, Postlude(s, w), LogOf(ResponseBodyKey));
  }

  lemma ResponseBodyLogged(s: Settings, req: Request, w: World)
    requires |w.random| == TokenBytes && !s.skipper(req) && s.isBodyDump && HandlerReturned(s, req, w)
    requires !(s.limitHTTPBody && s.limitSize <= -2)
    ensures var t := Intercept(s, req, w).events;
      && (exists k :: OnlyAt(t, LogOf(ResponseBodyKey), k) && t[k] == LogKV(ResponseBodyKey, Body(Dump(s, w.response).value)))
      && Before(t, TagOf(StatusKey), LogOf(ResponseBodyKey))
  {
    SplitAtOutcome(s, req, w);
    var a := BeforeNext(s, req, w) + [CallNext(SeenBody(s, req))] + AfterHandler(w.handler.err, w.status);
    var c := Postlude(s, w);
    assert Never(BeforeNext(s, req, w), LogOf(ResponseBodyKey));
    NeverAppend(BeforeNext(s, req, w), [CallNext(SeenBody(s, req))], LogOf(ResponseBodyKey));
    NeverAppend(BeforeNext(s, req, w) + [CallNext(SeenBody(s, req))], AfterHandler(w.handler.err, w.status), LogOf(ResponseBodyKey));
    var log := LogKV(ResponseBodyKey, Body(Dump(s, w.response).value));
    assert c == [log] + (Cleanup(w) + [Finish]);
    PrependedIsOnly(log, Cleanup(w) + [Finish], LogOf(ResponseBodyKey));
    OnlyAtShifts(a, c, LogOf(ResponseBodyKey), 0);
    OutsideOutcomeIsQuiet(s, req, w);
    NeverAppend(BeforeNext(s, req, w) + [CallNext(SeenBody(s, req))], AfterHandler(w.handler.err, w.status), TagOf(StatusKey));
    BeforeAcross(a, c, TagOf(StatusKey), LogOf(ResponseBodyKey));
  }

  /** What happens after the handler up to the deferred cleanup. */
  function BeforeCleanup(s: Settings, w: World): seq<Event> {
    match w.handler
    case Panicked => []
    case Completed(err) =>
      AfterHandler(err, w.status) + (if ResponseDumpPanics(s, w) then [] else ResponseLog(s, w))
  }

  lemma AfterNextEndsInCleanup(s: Settings, w: World)
    ensures AfterNext(s, w).events == BeforeCleanup(s, w) + Cleanup(w)
    ensures Never(BeforeCleanup(s, w), AnyCleanup)
  {
    match w.handler
    case Panicked =>
    case Completed(err) =>
      NeverAppend(AfterHandler(err, w.status), if ResponseDumpPanics(s, w) then [] else ResponseLog(s, w), AnyCleanup);
  }

  /**
   * The multipart cleanup runs once, directly before `Finish`, when the request has a multipart
   * form and the handler was reached (also when the handler or the response dump panicked); the
   * cleanup is not yet registered when the request-body dump panics.
   */
  lemma CleanupJustBeforeFinish(s: Settings, req: Request, w: World)
    requires |w.random| == TokenBytes && !s.skipper(req)
    ensures var t := Intercept(s, req, w).events;
      && (Never(t, AnyCleanup) <==> !(w.multipartForm && !RequestDumpPanics(s, req)))
      && (w.multipartForm && !RequestDumpPanics(s, req) ==> |t| >= 2 && OnlyAt(t, AnyCleanup, |t| - 2))
  {
    if RequestDumpPanics(s, req) {
      EarlyPanic(s, req, w);
    } else {
      SplitAtCleanup(s, req, w);
      var a := BeforeNext(s, req, w) + [CallNext(SeenBody(s, req))] + BeforeCleanup(s, w);
      CleanupLast(a, w);
    }
  }

  lemma SplitAtCleanup(s: Settings, req: Request, w: World)
    requires |w.random| == TokenBytes && !s.skipper(req) && !RequestDumpPanics(s, req)
    ensures Intercept(s, req, w).events
      == BeforeNext(s, req, w) + [CallNext(SeenBody(s, req))] + BeforeCleanup(s, w) + Cleanup(w) + [Finish]
    ensures Never(BeforeNext(s, req, w) + [CallNext(SeenBody(s, req))] + BeforeCleanup(s, w), AnyCleanup)
  {
    var a := BeforeNext(s, req, w);
    var n := [CallNext(SeenBody(s, req))];
    var b := BeforeCleanup(s, w);
    var c := Cleanup(w);
    SplitAtNext(s, req, w);
    AfterNextEndsInCleanup(s, w);
    assert FromNext(s, req, w) == n + (b + c) + [Finish];
    Regroup(a, n, b, c, [Finish]);
    assert Never(a, AnyCleanup);
    NeverAppend(a, n, AnyCleanup);
    NeverAppend(a + n, b, AnyCleanup);
  }

  /** Regrouping a five-part concatenation. */
  lemma Regroup(a: seq<Event>, n: seq<Event>, b: seq<Event>, c: seq<Event>, f: seq<Event>)
    ensures a + (n + (b + c) + f) == a + n + b + c + f
  {
  }

  lemma CleanupLast(a: seq<Event>, w: World)
    requires Never(a, AnyCleanup)
    ensures var t := a + Cleanup(w) + [Finish];
      && (Never(t, AnyCleanup) <==> !w.multipartForm)
      && (w.multipartForm ==> OnlyAt(t, AnyCleanup, |t| - 2))
  {
    OnlyAtEmbeds(a, Cleanup(w), [Finish], AnyCleanup);
    if w.multipartForm {
      assert OnlyAt(Cleanup(w), AnyCleanup, 0);
    }
  }

  /**
   * With body dump and limiting on, a limit below -1 makes the Go slice in `limitString` panic
   * on every traced request: on the request body when there is one, else on the response body,
   * else the handler panicked anyway. The span is still finished last, exactly once.
   */
  lemma NegativeLimitPanics(s: Settings, req: Request, w: World)
    requires |w.random| == TokenBytes && !s.skipper(req)
    requires s.isBodyDump && s.limitHTTPBody && s.limitSize <= -2
    ensures Intercept(s, req, w).exit == Panic
    ensures FinishedOnceLast(Intercept(s, req, w).events)
  {
    ReturnValue(s, req, w);
    SpanLifecycle(s, req, w);
  }

  /**
   * A hand-built configuration that turns on limiting but leaves `LimitSize` at Go's zero value
   * logs every non-empty request body as the bare marker.
   */
  lemma ZeroLimitLogsOnlyMarker(s: Settings, req: Request, w: World)
    requires |w.random| == TokenBytes && !s.skipper(req)
    requires s.isBodyDump && s.limitHTTPBody && s.limitSize == 0
    requires req.body.Some? && |req.body.value| > 0
    ensures Intercept(s, req, w).events[6] == LogKV(RequestBodyKey, Body(Marker))
  {
    RequestBodyDumped(s, req, w);
    var r := LimitString(req.body.value, 0).value;
    assert GoHalf(0) == 0;
    assert r == r[0..|Marker|] == Marker;
    assert Dump(s, req.body.value).value == Marker;
  }
}
