/** The middleware's configuration and its defaulting in `TraceWithConfig`. */
module Config {
  import opened Wrappers
  import opened Bytes

  /** What the middleware reads from the inbound request through `echo.Context`. */
  datatype Request = Request(
    httpMethod: string,
    url: string,              // req.URL.String()
    route: string,            // c.Path(): the registered route pattern
    realIP: string,           // c.RealIP()
    requestIDHeader: string,  // Header.Get("X-Request-ID"): "" when absent
    body: Option<seq<byte>>)  // None is a nil body

  /** The tracer handed in by the caller, opaque here. */
  type TracerRef = nat

  /** `TraceConfig` as a caller writes it; `None` is a nil field. */
  datatype TraceConfig = TraceConfig(
    skipper: Option<Request -> bool>,
    tracer: Option<TracerRef>,
    componentName: string,
    isBodyDump: bool,
    limitHTTPBody: bool,
    limitSize: int,
    operationNameFunc: Option<Request -> string>)

  /** The configuration the per-request closure runs with: no nil functions left. */
  datatype Settings = Settings(
    skipper: Request -> bool,
    tracer: TracerRef,
    componentName: string,
    isBodyDump: bool,
    limitHTTPBody: bool,
    limitSize: int,
    operationName: Request -> string)

  const DefaultComponentName := "echo/v4"

  /** The limit `DefaultTraceConfig` uses; Jaeger refuses `LogKV` values above 60000 bytes. */
  const DefaultLimitSize := 60000

  /** `middleware.DefaultSkipper`: traces every request. */
  function DefaultSkipper(r: Request): bool {
    false
  }

  /** `defaultOperationName`: "HTTP <method> URL: <route>". */
  function DefaultOperationName(r: Request): string {
    "HTTP " + r.httpMethod + " URL: " + r.route
  }

  /** Index of the first space in `s`, or `|s|` when there is none. */
  function SpaceIndex(s: string): (i: nat)
    ensures i <= |s|
    ensures i < |s| ==> s[i] == ' '
    ensures forall k :: 0 <= k < i ==> s[k] != ' '
  {
    if |s| == 0 || s[0] == ' ' then 0 else 1 + SpaceIndex(s[1..])
  }

  /** Reads the method and route back out of a default operation name. */
  function ParseOperationName(name: string): Option<(string, string)> {
    if |name| < 5 || name[..5] != "HTTP " then None
    else
      var rest := name[5..];
      var i := SpaceIndex(rest);
      if |rest| - i < 6 || rest[i..i + 6] != " URL: " then None
      else Some((rest[..i], rest[i + 6..]))
  }

  /** An HTTP method is a token (section 3.2.6 of RFC 7230): it contains no space. */
  predicate IsToken(s: string) {
    forall k :: 0 <= k < |s| ==> s[k] != ' '
  }

  /**
   * The default operation name determines the request's method and route: parsing it back
   * gives both, so two requests share a name only if they share method and route.
   */
  lemma {:induction false} OperationNameRoundTrip(r: Request)
    requires IsToken(r.httpMethod)
    ensures ParseOperationName(DefaultOperationName(r)) == Some((r.httpMethod, r.route))
  {
    var name := DefaultOperationName(r);
    var rest := name[5..];
    assert rest == r.httpMethod + " URL: " + r.route;
    assert rest[|r.httpMethod|] == ' ';
    assert SpaceIndex(rest) == |r.httpMethod|;
    assert rest[|r.httpMethod|..|r.httpMethod| + 6] == " URL: ";
    assert rest[..|r.httpMethod|] == r.httpMethod;
    assert rest[|r.httpMethod| + 6..] == r.route;
  }

  /**
   * The defaulting at the top of `TraceWithConfig`: a nil tracer is refused (Go panics), a nil
   * skipper or operation-name function and an empty component name are replaced by their
   * defaults, and every other field, including `LimitSize`, is kept as given.
   */
  function WithDefaults(c: TraceConfig): (r: Result<Settings, string>)
    ensures r.Failure? <==> c.tracer.None?
    ensures r.Success? ==>
      && r.value.tracer == c.tracer.value
      && r.value.isBodyDump == c.isBodyDump
      && r.value.limitHTTPBody == c.limitHTTPBody
      && r.value.limitSize == c.limitSize
    ensures r.Success? ==>
      && r.value.componentName != ""
      && (c.componentName != "" ==> r.value.componentName == c.componentName)
      && (c.componentName == "" ==> r.value.componentName == DefaultComponentName)
    ensures r.Success? ==>
      && (c.skipper.Some? ==> r.value.skipper == c.skipper.value)
      && (c.skipper.None? ==> forall q :: !r.value.skipper(q))
      && (c.operationNameFunc.Some? ==> r.value.operationName == c.operationNameFunc.value)
      && (c.operationNameFunc.None? ==> r.value.operationName == DefaultOperationName)
  {
    if c.tracer.None? then
      Failure("echo: trace middleware requires opentracing tracer")
    else
      Success(Settings(
        if c.skipper.Some? then c.skipper.value else DefaultSkipper,
        c.tracer.value,
        if c.componentName == "" then DefaultComponentName else c.componentName,
        c.isBodyDump,
        c.limitHTTPBody,
        c.limitSize,
        if c.operationNameFunc.Some? then c.operationNameFunc.value else DefaultOperationName))
  }

  /** Settings written back as a fully filled-in `TraceConfig`. */
  function AsConfig(s: Settings): TraceConfig {
    TraceConfig(Some(s.skipper), Some(s.tracer), s.componentName, s.isBodyDump,
                s.limitHTTPBody, s.limitSize, Some(s.operationName))
  }

  /** Defaulting is idempotent: a defaulted configuration passes through unchanged. */
  lemma WithDefaultsIdempotent(c: TraceConfig)
    requires WithDefaults(c).Success?
    ensures WithDefaults(AsConfig(WithDefaults(c).value)) == WithDefaults(c)
  {
  }

  /** `DefaultTraceConfig` with the given tracer, as `Trace` builds it. */
  function DefaultTraceConfig(tracer: TracerRef): TraceConfig {
    TraceConfig(Some(DefaultSkipper), Some(tracer), DefaultComponentName, false, true,
                DefaultLimitSize, Some(DefaultOperationName))
  }

  /**
   * `Trace(tracer)` limits logged bodies to 60000 bytes, whereas a configuration built by hand
   * with only the tracer and skipper (as `New` does) keeps Go's zero values: no body dump, no
   * limiting, limit 0.
   */
  lemma TraceDefaultsVersusHandBuilt(tracer: TracerRef, skipper: Option<Request -> bool>)
    ensures WithDefaults(DefaultTraceConfig(tracer)).Success?
    ensures var s := WithDefaults(DefaultTraceConfig(tracer)).value;
      s.limitHTTPBody && s.limitSize == DefaultLimitSize && !s.isBodyDump
      && s.componentName == DefaultComponentName
    ensures var s := WithDefaults(TraceConfig(skipper, Some(tracer), "", false, false, 0, None)).value;
      !s.limitHTTPBody && s.limitSize == 0 && !s.isBodyDump
      && s.componentName == DefaultComponentName
  {
  }
}
