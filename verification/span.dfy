/**
 * The tracer and the span seen from outside: an append-only log of what the middleware asks
 * of them, with the calls it makes into the rest of the handler chain interleaved.
 */
module Span {
  import opened Wrappers
  import opened Bytes
  import opened Errors

  /** An extracted propagation context, opaque to the middleware. */
  type SpanContext = nat

  /** How a span is started: a new trace, or `ext.RPCServerOption(ctx)` (child of `ctx`, server role). */
  datatype Parent = Root | ServerChildOf(ctx: SpanContext)

  /** The value of a tag or log field. */
  datatype Value =
    | Text(s: string)
    | Body(b: seq<byte>)
    | Flag(f: bool)
    | Code(n: int)

  datatype Event =
    | Start(operation: string, parent: Parent)   // Tracer.StartSpan
    | SetTag(key: string, value: Value)           // Span.SetTag
    | LogKV(key: string, value: Value)            // Span.LogKV
    | CallNext(body: Option<seq<byte>>)           // next(c); `body` is what the handler can read
    | ReportError(err: Error)                     // c.Error(err)
    | RemoveMultipart                             // MultipartForm.RemoveAll()
    | Finish                                      // Span.Finish

  /** A class of events, used to speak of where events of that class occur. */
  datatype Pattern =
    | AnyStart
    | TagOf(key: string)
    | LogOf(key: string)
    | AnyNext
    | AnyReport
    | AnyCleanup
    | AnyFinish

  predicate Matches(e: Event, p: Pattern) {
    match p
    case AnyStart => e.Start?
    case TagOf(k) => e.SetTag? && e.key == k
    case LogOf(k) => e.LogKV? && e.key == k
    case AnyNext => e.CallNext?
    case AnyReport => e.ReportError?
    case AnyCleanup => e.RemoveMultipart?
    case AnyFinish => e.Finish?
  }

  /** No event of class `p` occurs in `t`. */
  predicate Never(t: seq<Event>, p: Pattern) {
    forall i :: 0 <= i < |t| ==> !Matches(t[i], p)
  }

  /** Index `k` holds the one and only event of class `p` in `t`. */
  predicate OnlyAt(t: seq<Event>, p: Pattern, k: int) {
    && 0 <= k < |t|
    && Matches(t[k], p)
    && forall i :: 0 <= i < |t| && i != k ==> !Matches(t[i], p)
  }

  /** Every event of class `p` comes before every event of class `q`. */
  predicate Before(t: seq<Event>, p: Pattern, q: Pattern) {
    forall i, j :: 0 <= i < |t| && 0 <= j < |t| && Matches(t[i], p) && Matches(t[j], q) ==> i < j
  }

  /** The span's lifetime closes properly: `Finish` is the last event and there is no other. */
  predicate FinishedOnceLast(t: seq<Event>) {
    |t| > 0 && OnlyAt(t, AnyFinish, |t| - 1)
  }

  /** When all `p` events lie in `a` and all `q` events in `b`, every `p` precedes every `q`. */
  lemma BeforeAcross(a: seq<Event>, b: seq<Event>, p: Pattern, q: Pattern)
    requires Never(b, p) && Never(a, q)
    ensures Before(a + b, p, q)
  {
  }

  lemma NeverAppend(a: seq<Event>, b: seq<Event>, p: Pattern)
    ensures Never(a + b, p) <==> Never(a, p) && Never(b, p)
  {
    var t := a + b;
    if Never(a, p) && Never(b, p) {
      forall i | 0 <= i < |t|
        ensures !Matches(t[i], p)
      {
        if i >= |a| {
          assert t[i] == b[i - |a|];
        }
      }
    }
    if Never(t, p) {
      forall i | 0 <= i < |a|
        ensures !Matches(a[i], p)
      {
        assert a[i] == t[i];
      }
      forall i | 0 <= i < |b|
        ensures !Matches(b[i], p)
      {
        assert b[i] == t[|a| + i];
      }
    }
  }

  /** An event of class `p` appended to a log free of them is the only one, and the last. */
  lemma AppendedIsOnly(a: seq<Event>, e: Event, p: Pattern)
    requires Never(a, p) && Matches(e, p)
    ensures OnlyAt(a + [e], p, |a|)
  {
    var t := a + [e];
    forall i | 0 <= i < |t| && i != |a|
      ensures !Matches(t[i], p)
    {
      assert t[i] == a[i];
    }
  }

  /** An event of class `p` put in front of a log free of them is the only one, and the first. */
  lemma PrependedIsOnly(e: Event, a: seq<Event>, p: Pattern)
    requires Never(a, p) && Matches(e, p)
    ensures OnlyAt([e] + a, p, 0)
  {
    var t := [e] + a;
    forall i | 0 < i < |t|
      ensures !Matches(t[i], p)
    {
      assert t[i] == a[i - 1];
    }
  }

  /** Appending a log free of class `p` keeps the only event of that class the only one. */
  lemma OnlyAtExtends(a: seq<Event>, b: seq<Event>, p: Pattern, k: int)
    requires OnlyAt(a, p, k) && Never(b, p)
    ensures OnlyAt(a + b, p, k)
  {
    var t := a + b;
    forall i | 0 <= i < |t| && i != k
      ensures !Matches(t[i], p)
    {
      if i >= |a| {
        assert t[i] == b[i - |a|];
      } else {
        assert t[i] == a[i];
      }
    }
  }

  /** Prepending a log free of class `p` shifts the only event of that class. */
  lemma OnlyAtShifts(a: seq<Event>, b: seq<Event>, p: Pattern, k: int)
    requires Never(a, p) && OnlyAt(b, p, k)
    ensures OnlyAt(a + b, p, |a| + k)
  {
    var t := a + b;
    forall i | 0 <= i < |t| && i != |a| + k
      ensures !Matches(t[i], p)
    {
      if i >= |a| {
        assert t[i] == b[i - |a|];
      } else {
        assert t[i] == a[i];
      }
    }
  }

  /** Surrounding a log with events of neither class keeps its ordering of the two classes. */
  lemma BeforeEmbeds(a: seq<Event>, m: seq<Event>, c: seq<Event>, p: Pattern, q: Pattern)
    requires Never(a, p) && Never(a, q) && Never(c, p) && Never(c, q) && Before(m, p, q)
    ensures Before(a + m + c, p, q)
  {
    var t := a + m + c;
    forall i, j | 0 <= i < |t| && 0 <= j < |t| && Matches(t[i], p) && Matches(t[j], q)
      ensures i < j
    {
      assert t[i] == m[i - |a|] && t[j] == m[j - |a|];
    }
  }

  /** Surrounding a log with events not of class `p` keeps where, and whether, `p` occurs in it. */
  lemma OnlyAtEmbeds(a: seq<Event>, m: seq<Event>, c: seq<Event>, p: Pattern)
    requires Never(a, p) && Never(c, p)
    ensures Never(a + m + c, p) <==> Never(m, p)
    ensures forall k | OnlyAt(m, p, k) :: OnlyAt(a + m + c, p, |a| + k)
  {
    NeverAppend(a, m, p);
    NeverAppend(a + m, c, p);
    forall k | OnlyAt(m, p, k)
      ensures OnlyAt(a + m + c, p, |a| + k)
    {
      OnlyAtShifts(a, m, p, k);
      OnlyAtExtends(a + m, c, p, |a| + k);
    }
  }
}
