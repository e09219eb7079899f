# Jaeger tracing middleware for Echo, modelled in Dafny

This project models the core of the `jaegertracing` package of echo-contrib: the Echo middleware
that wraps every inbound HTTP request in an OpenTracing span. It covers these parts:

- the helpers `limitString` (head/tail truncation of logged bodies), `getRequestID`,
  `generateToken`, `defaultOperationName` and `logError`;
- the defaulting of a `TraceConfig` at the top of `TraceWithConfig`;
- the per-request closure `TraceWithConfig` returns.

The tracer and the span are abstract. The model records what the middleware asks of them as an
append-only log of span events: `Start(operation, Root | ServerChildOf(ctx))`, `SetTag`,
`LogKV` and `Finish`. The same log also holds three of its calls into the rest of the Echo
chain: `CallNext(body)` for `next(c)`, `ReportError(err)` for `c.Error(err)`, and
`RemoveMultipart` for the deferred `MultipartForm.RemoveAll()`. Replacing the request on the
context (`c.SetRequest`) is not an event; see "Left out".

`Middleware.Intercept` maps a normalised configuration, a request and a `World` to that event
log and to how the closure exits. The `World` holds everything else the request observes:

- the extraction result;
- the random bytes;
- what the handler does;
- the final status;
- the captured response bytes;
- whether a multipart form exists at the end.

Files (one module each):

| file | module | models |
|---|---|---|
| wrappers.dfy | Wrappers | `Option`, `Result` |
| bytes.dfy | Bytes | Go bytes, ASCII literals as bytes |
| limit.dfy | Limit | `limitString` |
| token.dfy | Token | `generateToken`, `getRequestID`, and a hex decoder as their partner |
| errors.dfy | Errors | error values, `errors.As` on `*echo.HTTPError`, the message `logError` logs |
| span.dfy | Span | span events and the predicates `Never`, `OnlyAt`, `Before`, `FinishedOnceLast` over event logs |
| config.dfy | Config | `TraceConfig`, its defaulting, `DefaultTraceConfig`, `defaultOperationName` |
| middleware.dfy | Middleware | `logError` and the per-request closure |

Modelling choices that follow the Go code:

- Go's `len` and slicing count bytes, so bodies and `limitString` work on `seq<byte>`. Keys,
  methods, URLs and header values are `string`.
- `limitString` is total over `int`. Go's `size/2` truncates toward zero, so a limit of -1 keeps
  nothing but the marker. A limit of -2 or below makes the slice panic, which the model returns as
  `None`. With body dump and limiting on, the closure then panics. If that happens on the request
  body, the cleanup `defer` is not registered yet, so only `Finish` runs.
- Deferred calls run last-in-first-out: the multipart cleanup first, then `Finish`. They also run
  when the handler panics, and the panic then goes through the middleware.
- The status tag is `uint16(status)`, modelled as `status % 65536` (Go keeps the low 16 bits).
- `errors.As` searches the error tree depth first: the error itself, then what `Unwrap() error`
  yields, or the errors `Unwrap() []error` yields, left to right. Errors are modelled as
  `HTTPError(message) | Plain(text) | Wrapped(text, cause) | Joined(text, causes)`.
- With body dump on and a nil request body, nothing is logged. The request body is still replaced
  by an empty reader, so the handler reads `Some([])`.

Three facts about the Go code that are easy to miss:

- `TraceWithConfig` does not default `LimitHTTPBody` or `LimitSize`. Only `DefaultTraceConfig`,
  which `Trace` uses, sets them to true and 60000. `TraceWithConfig` defaults only the skipper,
  the component name and the operation-name function, so a hand-built config keeps
  `LimitHTTPBody = false` and `LimitSize = 0` (`Config.TraceDefaultsVersusHandBuilt`).
- A truncated body is `2*(size/2) + 19` bytes, and that can be longer than the input
  (`Limit.TruncationMayGrow`).
- Only a non-nil request body is logged.

## Model

| member | source | states |
|---|---|---|
| Limit.LimitString | jaegertracing/jaegertracing.go:243-249 | an input no longer than the limit comes back unchanged; a longer one keeps its first and last `size/2` bytes (Go truncating division) around the 19-byte marker; the call panics exactly when `size <= -2` |
| Limit.TruncationKeepsHeadAndTail | jaegertracing/jaegertracing.go:244-245 | for `0 <= size < len`, the result is `s[..size/2] + marker + s[len-size/2..]`, of length `2*(size/2) + 19` |
| Limit.OddLimitDropsOneByte | jaegertracing/jaegertracing.go:245 | an odd limit keeps `size - 1` bytes of the input |
| Limit.TruncationMayGrow | jaegertracing/jaegertracing.go:245 | a truncated result is longer than its input exactly when the input is shorter than `2*(size/2) + 19` bytes |
| Limit.UnchangedIff | jaegertracing/jaegertracing.go:243-249 | `limitString` returns its input unchanged iff the input fits the limit, or already has the truncated shape (length `2*(size/2)+19`, marker at `size/2`) |
| Limit.SixteenBytesAtLimitTen | jaegertracing/jaegertracing.go:243-249 | limit 10 on the 16 bytes "0123456789ABCDEF" keeps the head "01234", then the 19-byte marker, then the tail "BCDEF" |
| Token.Hex | jaegertracing/jaegertracing.go:272 | `%x` output has two lowercase hex digits per byte, high nibble first, in byte order |
| Token.UnhexHex | jaegertracing/jaegertracing.go:269-273 | decoding the hex text of any byte string gives back exactly those bytes |
| Token.HexUnhex | jaegertracing/jaegertracing.go:269-273 | every text the decoder accepts is exactly the hex printing of what it decodes to |
| Token.UnhexAcceptsEvenHex | jaegertracing/jaegertracing.go:269-273 | the decoder accepts a string iff it is even-length lowercase hex; with `HexUnhex` and `UnhexHex` this makes `%x` a bijection from byte strings onto even-length lowercase hex |
| Token.GenerateToken | jaegertracing/jaegertracing.go:269-273 | a token from 16 bytes is 32 lowercase hex characters and decodes back to those 16 bytes |
| Token.GetRequestID | jaegertracing/jaegertracing.go:261-267 | a non-empty X-Request-ID header is returned verbatim; otherwise the id is a 32-character lowercase hex token encoding the random bytes |
| Token.RequestIDEchoesHeaderIff | jaegertracing/jaegertracing.go:262-266 | the id equals the header iff the header is non-empty, and the id is never empty |
| Token.GeneratedIdsDifferWithBytes | jaegertracing/jaegertracing.go:263-272 | two requests without the header get equal ids iff they drew equal random bytes |
| Errors.AsHTTPError | jaegertracing/jaegertracing.go:252-253 | an `HTTPError` yields its own message and a plain error yields none |
| Errors.AsHTTPErrorFindsFirst | jaegertracing/jaegertracing.go:252-253 | `errors.As` succeeds iff the depth-first search over wrapped and joined errors visits an `HTTPError`, and yields the message of the first one visited |
| Errors.JoinedFindsLaterCause | jaegertracing/jaegertracing.go:252-253 | for `errors.Join(plain, httpErr)` the search passes the plain error and yields the `HTTPError` message |
| Errors.ErrorMessage | jaegertracing/jaegertracing.go:253-257 | the logged message is the found `HTTPError` message, and otherwise the error's own text |
| Middleware.LogErrorClassifies | jaegertracing/jaegertracing.go:251-259 | `logError` logs `error.message` first, then tags `error = true`; the message is that of the first `HTTPError` the search visits, through wrappers and joins, or else the error text |
| Config.OperationNameRoundTrip | jaegertracing/jaegertracing.go:275-278 | for a method without spaces, the method and route can be read back from the default operation name |
| Config.WithDefaults | jaegertracing/jaegertracing.go:133-145 | a nil tracer is refused; a nil skipper becomes "skip nothing"; an empty component name becomes "echo/v4"; a nil name function becomes the default; every other field, `LimitSize` included, is kept |
| Config.WithDefaultsIdempotent | jaegertracing/jaegertracing.go:133-145 | defaulting an already-defaulted configuration changes nothing |
| Config.TraceDefaultsVersusHandBuilt | jaegertracing/jaegertracing.go:79-87 | `DefaultTraceConfig` limits bodies to 60000 bytes with limiting on; a config holding only the tracer and skipper (as `New` builds it at jaegertracing.go lines 115-118) has no dump, no limiting and limit 0 |
| Middleware.ParentOf | jaegertracing/jaegertracing.go:166-170 | the span is a root span iff extraction failed, and otherwise a child of the extracted context |
| Middleware.Uint16 | jaegertracing/jaegertracing.go:223 | the status tag is within 0..65535, equals the status when that fits, and is congruent to it modulo 65536 |
| Middleware.Intercept | jaegertracing/jaegertracing.go:148-239 | a skipped request only calls the handler, with its body untouched, and returns the handler's result; a traced request returns nil or panics, and panics only if the handler did or the limit is below -1 with dump and limiting on |
| Middleware.SpanLifecycle | jaegertracing/jaegertracing.go:161-171 | a traced request starts one span, as its first event (root iff extraction failed, otherwise a server child of the extracted context), and finishes it exactly once as the last event on every path |
| Middleware.RequestTagsFollowStart | jaegertracing/jaegertracing.go:173-177 | `http.method`, `http.url`, `component`, `client_ip` and `request_id` are the five events right after the start |
| Middleware.RequestTaggedBeforeHandler | jaegertracing/jaegertracing.go:173-217 | each of the five request tags comes before the handler call |
| Middleware.HandlerCalledOnce | jaegertracing/jaegertracing.go:181-217 | the handler is called exactly once, reading the body as the dump left it, unless the request-body dump panicked, in which case it is never called |
| Middleware.ReturnValue | jaegertracing/jaegertracing.go:217-238 | a traced request returns nil iff the handler did not panic and the limit is not below -1 with dump and limiting on; it never returns the handler's error |
| Middleware.HandlerErrorReported | jaegertracing/jaegertracing.go:217-222 | `c.Error` is called iff the handler returned an error, exactly once with that error, after the handler call and before the status tag |
| Middleware.StatusTaggedAfterHandler | jaegertracing/jaegertracing.go:222-223 | `http.status_code` is tagged iff the handler returned, exactly once, with `uint16(status)`, after the handler call |
| Middleware.HandlerErrorLogged | jaegertracing/jaegertracing.go:225-227 | `error.message` and `error = true` occur iff the handler returned an error, once each, the message classified by `logError`, after the status tag and in that order |
| Middleware.RequestBodyDumped | jaegertracing/jaegertracing.go:181-194 | `http.req.body` is logged iff body dump is on, the body is non-nil and its dump does not panic (limit -2 or below with limiting on); then it is logged once right before the handler call, truncated iff `LimitHTTPBody`, and the handler reads the original bytes; with dump on and a nil body the handler reads an empty body |
| Middleware.NoDumpNoBodyLogs | jaegertracing/jaegertracing.go:181-236 | with dump off, neither body is logged and the handler reads the request body untouched |
| Middleware.ResponseBodyDumped | jaegertracing/jaegertracing.go:229-236 | `http.resp.body` is logged iff body dump is on, the handler returned and the response dump does not panic; then the captured response is logged once, truncated iff `LimitHTTPBody`, after the status tag |
| Middleware.CleanupJustBeforeFinish | jaegertracing/jaegertracing.go:204-214 | the multipart cleanup runs iff a form exists and the handler was reached, exactly once, directly before `Finish` |
| Middleware.EarlyPanic | jaegertracing/jaegertracing.go:181-214 | when the request-body dump panics, the log is exactly the start, the five request tags and `Finish`, and nothing else happens: no handler call, no cleanup, no `c.Error`, no status or error tag, and neither `http.req.body` nor `http.resp.body` is logged |
| Middleware.NegativeLimitPanics | jaegertracing/jaegertracing.go:187-188 | with dump and limiting on and a limit of -2 or less, every traced request panics, and its span is still finished last and exactly once |
| Middleware.ZeroLimitLogsOnlyMarker | jaegertracing/jaegertracing.go:187-188 | with limiting on and `LimitSize` left at 0, every non-empty request body is logged as the bare marker |

## Left out

- `New` (environment parsing, Jaeger client construction, global tracer registration): configuration of a foreign library. Only its config literal appears, in `Config.TraceDefaultsVersusHandBuilt`.
- `TraceFunction`: it relies on reflection, `runtime.FuncForPC` and dynamic calls. In Go, an argument-count mismatch makes it panic.
- `CreateChildSpan`: it resolves the caller frame with `runtime.Callers`. With no span in the context, the nil parent is dereferenced.
- `NewTracedRequest`: it wraps `http.NewRequest` and header injection. In Go, it panics on a construction error instead of returning the error.
- The request context: a traced request's handler gets a copy of the request whose context carries the span (`req.WithContext(opentracing.ContextWithSpan(...))` and `c.SetRequest` at jaegertracing.go lines 201-203). This is `echo.Context` plumbing that only `CreateChildSpan` and `TraceFunction` read; `CallNext` records only the body the handler reads.
- `responseDumper`, `newResponseDumper` and `GetResponse` are not part of this model. The captured response bytes are an input.
- Tracer internals are opaque: sampling, span ids, the wire format, and how `Extract` reads headers. The extraction result is an `Option` input. The `span.kind = server` tag that `ext.RPCServerOption` adds is folded into `ServerChildOf`.
- `crypto/rand`: the 16 random bytes are an input. A read error is ignored in Go and is not modelled.
- `io.ReadAll` errors are ignored in Go. The model reads the whole body.
- `MultipartForm.RemoveAll` is filesystem I/O. Only its place in the event order is modelled.
- `c.RealIP()`, `c.Path()`, `req.URL.String()` and `Header.Get` are request fields supplied as inputs.
- The skipper and the operation-name function are total functions of the request. Panics inside them, inside `c.Error` or inside tracer calls are not modelled.
- Errors.AsHTTPError: an error's own `As(any) bool` method, which `errors.As` also consults, is not modelled, because the errors a handler returns are data here and not code; nil entries in a joined list are not modelled either, because `errors.Join` drops them.
- `echo.HTTPError.Message` is an `interface{}` in Go. It is modelled as a string.
- Concurrency: the tracer is shared across requests, and each request's state is its own. The model covers one request.
