/** The errors a downstream handler returns, and how `logError` reads them. */
module Errors {
  import opened Wrappers

  /**
   * An error value. `HTTPError` is echo's `*echo.HTTPError` (only its `Message` matters here);
   * `Plain` is any other error, known by its `Error()` text; `Wrapped` is an error whose
   * `Unwrap() error` yields `cause` (as `fmt.Errorf("...%w", cause)` builds); `Joined` is an
   * error whose `Unwrap() []error` yields `causes` (as `errors.Join` or `fmt.Errorf` with several
   * `%w` build).
   */
  datatype Error =
    | HTTPError(message: string)
    | Plain(text: string)
    | Wrapped(text: string, cause: Error)
    | Joined(text: string, causes: seq<Error>)

  /**
   * The error tree in the order `errors.As` visits it: the error itself, then, depth first, what
   * it unwraps to, the causes of a joined error from left to right.
   */
  function Chain(e: Error): (c: seq<Error>)
    decreases e, 1
    ensures |c| >= 1 && c[0] == e
  {
    match e
    case Wrapped(_, inner) => [e] + Chain(inner)
    case Joined(_, causes) => [e] + Chains(causes)
    case _ => [e]
  }

  /** The visiting orders of several errors, one after the other. */
  function Chains(cs: seq<Error>): seq<Error>
    decreases cs, 0
  {
    if cs == [] then [] else Chain(cs[0]) + Chains(cs[1..])
  }

  /** `errors.As(err, &httpError)`: the message of the first `HTTPError` the depth-first search meets. */
  function AsHTTPError(e: Error): (m: Option<string>)
    decreases e, 1
    ensures e.HTTPError? ==> m == Some(e.message)
    ensures e.Plain? ==> m.None?
  {
    match e
    case HTTPError(msg) => Some(msg)
    case Plain(_) => None
    case Wrapped(_, inner) => AsHTTPError(inner)
    case Joined(_, causes) => AsHTTPErrorAmong(causes)
  }

  /** The search through a joined error's causes: the first cause in which `errors.As` succeeds. */
  function AsHTTPErrorAmong(cs: seq<Error>): Option<string>
    decreases cs, 0
  {
    if cs == [] then None
    else if AsHTTPError(cs[0]).Some? then AsHTTPError(cs[0])
    else AsHTTPErrorAmong(cs[1..])
  }

  /** Some error the search visits is an `HTTPError`. */
  predicate HasHTTPError(e: Error) {
    exists i :: 0 <= i < |Chain(e)| && Chain(e)[i].HTTPError?
  }

  /** Visit `i` of the search is `HTTPError(m)` and no earlier visit is an `HTTPError`. */
  predicate FirstHTTPErrorAt(e: Error, i: int, m: string) {
    FirstIn(Chain(e), i, m)
  }

  predicate FirstIn(c: seq<Error>, i: int, m: string) {
    && 0 <= i < |c|
    && c[i] == HTTPError(m)
    && forall j :: 0 <= j < i ==> !c[j].HTTPError?
  }

  /** A plain left-to-right scan of a visiting order for its first `HTTPError`. */
  function FirstMessage(c: seq<Error>): Option<string> {
    if c == [] then None
    else if c[0].HTTPError? then Some(c[0].message)
    else FirstMessage(c[1..])
  }

  lemma {:induction false} FirstMessageAppend(a: seq<Error>, b: seq<Error>)
    ensures FirstMessage(a + b) == if FirstMessage(a).Some? then FirstMessage(a) else FirstMessage(b)
  {
    if a != [] {
      assert (a + b)[1..] == a[1..] + b;
      FirstMessageAppend(a[1..], b);
    } else {
      assert a + b == b;
    }
  }

  /** The scan finds something iff some entry is an `HTTPError`, and then the first one. */
  lemma {:induction false} FirstMessageFindsFirst(c: seq<Error>)
    ensures FirstMessage(c).Some? <==> exists i :: 0 <= i < |c| && c[i].HTTPError?
    ensures FirstMessage(c).Some? ==> exists i :: FirstIn(c, i, FirstMessage(c).value)
  {
    if c != [] && !c[0].HTTPError? {
      FirstMessageFindsFirst(c[1..]);
      if FirstMessage(c).Some? {
        var i :| FirstIn(c[1..], i, FirstMessage(c).value);
        assert FirstIn(c, i + 1, FirstMessage(c).value);
      } else {
        forall i | 0 <= i < |c|
          ensures !c[i].HTTPError?
        {
          if i > 0 {
            assert c[i] == c[1..][i - 1];
          }
        }
      }
    } else if c != [] {
      assert FirstIn(c, 0, FirstMessage(c).value);
    }
  }

  /** The recursive search agrees with scanning the visiting order. */
  lemma {:induction false} AsHTTPErrorScansChain(e: Error)
    decreases e, 1
    ensures AsHTTPError(e) == FirstMessage(Chain(e))
  {
    match e
    case HTTPError(_) =>
    case Plain(_) =>
    case Wrapped(_, inner) =>
      AsHTTPErrorScansChain(inner);
      FirstMessageAppend([e], Chain(inner));
    case Joined(_, causes) =>
      AsHTTPErrorAmongScansChains(causes);
      FirstMessageAppend([e], Chains(causes));
  }

  lemma {:induction false} AsHTTPErrorAmongScansChains(cs: seq<Error>)
    decreases cs, 0
    ensures AsHTTPErrorAmong(cs) == FirstMessage(Chains(cs))
  {
    if cs != [] {
      AsHTTPErrorScansChain(cs[0]);
      AsHTTPErrorAmongScansChains(cs[1..]);
      FirstMessageAppend(Chain(cs[0]), Chains(cs[1..]));
    }
  }

  /**
   * `AsHTTPError` finds something exactly when the search visits an `HTTPError`, and what it
   * finds is the message of the first one visited.
   */
  lemma AsHTTPErrorFindsFirst(e: Error)
    ensures AsHTTPError(e).Some? <==> HasHTTPError(e)
    ensures AsHTTPError(e).Some? ==> exists i :: FirstHTTPErrorAt(e, i, AsHTTPError(e).value)
  {
    AsHTTPErrorScansChain(e);
    FirstMessageFindsFirst(Chain(e));
    if AsHTTPError(e).Some? {
      var i :| FirstIn(Chain(e), i, AsHTTPError(e).value);
      assert FirstHTTPErrorAt(e, i, AsHTTPError(e).value);
    }
  }

  /** `errors.Join(plain, httpErr)`: the search passes the plain error and finds the `HTTPError`. */
  lemma JoinedFindsLaterCause(t: string, p: string, m: string)
    ensures AsHTTPError(Joined(t, [Plain(p), HTTPError(m)])) == Some(m)
  {
    var cs := [Plain(p), HTTPError(m)];
    assert cs[1..] == [HTTPError(m)];
    assert AsHTTPErrorAmong(cs[1..]) == Some(m);
    assert AsHTTPErrorAmong(cs) == AsHTTPErrorAmong(cs[1..]);
  }

  /**
   * The `error.message` that `logError` logs: the `HTTPError` message when `errors.As` finds
   * one, otherwise the error's `Error()` text.
   */
  function ErrorMessage(e: Error): (m: string)
    ensures AsHTTPError(e).Some? ==> m == AsHTTPError(e).value
    ensures AsHTTPError(e).None? ==> m == e.text
  {
    match AsHTTPError(e)
    case Some(msg) => msg
    case None =>
      match e
      case Plain(t) => t
      case Wrapped(t, _) => t
      case Joined(t, _) => t
  }
}
