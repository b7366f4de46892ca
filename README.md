# Web-service template: decision rules of the gateway, in Dafny

This project models the logic of a Rust web-service template built on actix-web
and prometheus-client. The template has a domain reply rule ("hello" gets "world",
"ping" gets "pong") and an HTTP gateway around it. The gateway has:

- JSON error constructors;
- a case-insensitive environment-name parser;
- a deadline middleware;
- a request-metrics middleware that updates two shared metric families in place;
- a trace-level rule;
- an error handler that forces a JSON content type;
- the registration of the two metric families;
- the two listeners' route tables and the combiner of the two servers' results.

Timers, sockets, the clock and the inner service are inputs to the model:

- the race between the handler and the deadline is a `Race` value;
- the elapsed milliseconds are a `nat`;
- the inner service's result is a parameter.

Pure code is modelled as datatypes, functions and lemmas. The shared metric
families and the registry, which the source updates in place, are classes
(`MetricFamilies`, `MetricsLayer`, `ApiMetrics`). Their methods state the new
state through specification functions. The error handler changes only the
response it owns, so `ErrorHeader` models it as a function from the old
response to the new one.

Modules follow the source files:

- `Messages`: application/src/messages.rs
- `ReplyRoute`: gateways/api/src/routes/reply.rs
- `Responses`: gateways/api/src/response.rs
- `Settings`: gateways/api/src/settings.rs
- `TimeoutLayer`: gateways/api/src/middlewares/timeout.rs
- `MetricsLayer`: gateways/api/src/middlewares/metrics.rs
- `ApiMetrics`: gateways/api/src/metrics.rs
- `TracingLayer`: gateways/api/src/middlewares/tracing.rs
- `ErrorHeader`: gateways/api/src/middlewares/error_header.rs
- `Server`: gateways/api/src/server.rs

Two supporting modules:

- `Http` holds the shared value types.
- `MetricFamilies` stands in for prometheus-client. A family is a table keyed by
  label sequences, with default-on-miss `get_or_create`. `inc` adds one. `observe`
  appends one value. The registry is an ordered list of (name, help, metric) entries.

Behaviour of the code worth knowing:

- The deadline response is 400 with the body "deadline". `Timeout::new` accepts any
  duration, zero included; nothing fails fast.
- The metric label sequence is `[(method, path)]`. It uses the raw request path, and
  the status is not part of it. Only calls whose inner service returned a response
  are recorded. So the number of series grows with the distinct (method, path) pairs
  requested, unrouted paths included (`MetricsLayer.ReplayKeys`).
- `/v1/healthcheck` sits inside the timeout scope and the app-level metrics wrap. It
  answers `{}` with a JSON content type, not an empty body.
- Only the trace level is chosen by path. Error flagging at request end belongs to
  the tracing library.

The files also disagree with each other, and each file is modelled as written.
gateways/api/src/server.rs:67 calls `Metrics::new` with the registry, while
gateways/api/src/middlewares/metrics.rs:20-23 takes the two families. `Metrics` here
takes the two families. gateways/api/src/server.rs:76 calls `Tracing::middleware()`,
which gateways/api/src/middlewares/tracing.rs does not define.

## Model

| member | source | states |
|---|---|---|
| `Messages.Reply` | application/src/messages.rs:8-14 | Ok exactly for "hello" and "ping", answered "world" and "pong"; any other input is `UnknownMessage` carrying the input verbatim |
| `Messages.Display` | application/src/messages.rs:3 | the error text is `Unknown message "`, the input, then `"` |
| `Messages.DisplayRoundTrip` | application/src/messages.rs:3 | the input can be read back out of the error text |
| `Messages.DisplayInjective` | application/src/messages.rs:3 | different inputs give different error texts |
| `Messages.ReplyIsExact` | application/src/messages.rs:9-12 | matching is exact and case-sensitive ("Hello", "PING", " ping", "hello " are errors) |
| `Messages.ReplyAnswersDistinct` | application/src/messages.rs:10-11 | the two accepted messages get different answers |
| `ReplyRoute.Reply` | gateways/api/src/routes/reply.rs:15-26 | 200 exactly when the domain rule succeeds, otherwise 422; no other status; JSON content type; body has the one key "message", holding the answer or the error's text |
| `ReplyRoute.KnownMessagesAnswered` | gateways/api/src/routes/reply.rs:16-19 | "hello" gives 200 {"message":"world"}, "ping" gives 200 {"message":"pong"} |
| `ReplyRoute.RejectedInputRecoverable` | gateways/api/src/routes/reply.rs:20-23 | a 422 body's message text gives back the rejected input |
| `ReplyRoute.ResponseDeterminesMessage` | gateways/api/src/routes/reply.rs:16-25 | different request messages never get the same response |
| `Responses.InternalServerError` | gateways/api/src/response.rs:7-11 | status 500; body has only "message", equal to the error's text |
| `Responses.NotFound` | gateways/api/src/response.rs:13-17 | status 404; body has only "message", equal to the error's text |
| `Responses.BadRequest` | gateways/api/src/response.rs:19-28 | status 400; body has exactly "message" (the error's text) and "details" (the caller's sequence, same length and order) |
| `Responses.ConstructorsDistinguishable` | gateways/api/src/response.rs:7-28 | the three constructors never build the same error, and each is injective in its arguments |
| `Responses.OnlyBadRequestHasDetails` | gateways/api/src/response.rs:8-16 | the 500 and 404 bodies carry no "details" |
| `Settings.AsStr` | gateways/api/src/settings.rs:59-66 | Development prints "development", Production "production", equal to the serde rename strings; both are lower case |
| `Settings.SerdeDeserialize` | gateways/api/src/settings.rs:51-57 | the derived deserializer accepts exactly the rename strings, case-sensitively |
| `Settings.AsStrInjective` | gateways/api/src/settings.rs:60-65 | `as_str` is injective |
| `Settings.ToLower` | gateways/api/src/settings.rs:72 | the lower-cased input has the same length and folds each ASCII letter on its own |
| `Settings.UnsupportedMessage` | gateways/api/src/settings.rs:75-78 | the rejection message starts with the lower-cased input |
| `Settings.TryFrom` | gateways/api/src/settings.rs:68-81 | Ok(e) exactly when the lower-cased input is `as_str(e)`; otherwise Err with the lower-cased input and the fixed advice |
| `Settings.RoundTrip` | gateways/api/src/settings.rs:60-74 | `try_from(as_str(e)) == Ok(e)` for both variants |
| `Settings.ParseIgnoresCase` | gateways/api/src/settings.rs:72-74 | a string parses to e exactly when it spells `as_str(e)` in some casing |
| `Settings.SerdeStricterThanTryFrom` | gateways/api/src/settings.rs:51-57 | whatever serde accepts, `try_from` accepts as the same variant; "Production" is accepted only by `try_from` |
| `Settings.RejectionEchoesLowerInput` | gateways/api/src/settings.rs:72-77 | a rejection message starts with the input in lower case |
| `Settings.AsWrittenSuggestsRejectedName` | gateways/api/src/settings.rs:75-77 | the message suggests `local`, and "local" is rejected |
| `Settings.TryFromCorrected` | gateways/api/src/settings.rs:71-79 | same acceptance as `try_from`, with advice naming the accepted names |
| `Settings.CorrectedSuggestsOnlyAcceptedNames` | gateways/api/src/settings.rs:75-77 | every name the corrected advice suggests is accepted |
| `Settings.CorrectionKeepsAcceptance` | gateways/api/src/settings.rs:71-79 | the correction accepts the same inputs as the same variants |
| `TimeoutLayer.New` | gateways/api/src/middlewares/timeout.rs:19-23 | keeps the duration; no precondition, so zero is accepted |
| `TimeoutLayer.NewTransform` | gateways/api/src/middlewares/timeout.rs:37-42 | always Ok; wraps the given service with the same duration |
| `TimeoutLayer.Call` | gateways/api/src/middlewares/timeout.rs:62-83 | handler in time with a response: that response, same request, status and headers, left body; handler error: that error; deadline: Ok, 400, body "deadline", for the request cloned before the call; Err only when the handler failed |
| `TimeoutLayer.HandlerResponseRoundTrip` | gateways/api/src/middlewares/timeout.rs:70-73 | unwrapping the left body gives the handler's response back exactly |
| `TimeoutLayer.DeadlineDistinguishable` | gateways/api/src/middlewares/timeout.rs:69-79 | the only right-bodied response is the deadline one |
| `TimeoutLayer.DurationPreserved` | gateways/api/src/middlewares/timeout.rs:20-41 | `new` then `new_transform` keeps the configured duration |
| `MetricFamilies.Incremented` | gateways/api/src/middlewares/metrics.rs:89 | the key's count goes up by one, starting at 0 when absent; other keys are unchanged |
| `MetricFamilies.Observed` | gateways/api/src/middlewares/metrics.rs:85-87 | one value is appended to the key's series; a new series starts empty with the family's bounds; other keys are unchanged |
| `MetricFamilies.CounterFamily.constructor` | gateways/api/src/metrics.rs:14 | the counter family starts empty |
| `MetricFamilies.CounterFamily.Inc` | gateways/api/src/middlewares/metrics.rs:89 | the table becomes `Incremented` of the old one |
| `MetricFamilies.HistogramFamily.NewWithConstructor` | gateways/api/src/metrics.rs:15-22 | an empty family whose every series uses the given bounds |
| `MetricFamilies.HistogramFamily.Observe` | gateways/api/src/middlewares/metrics.rs:85-87 | the table becomes `Observed` of the old one; all series keep the family's bounds |
| `MetricFamilies.Registry.Register` | gateways/api/src/metrics.rs:24-34 | the registration is appended after the earlier ones |
| `MetricsLayer.Key` | gateways/api/src/middlewares/metrics.rs:72-73 | the label sequence is the single pair (method, path) |
| `MetricsLayer.Record` | gateways/api/src/middlewares/metrics.rs:80-92 | on success the key's count goes up by 1 and the elapsed milliseconds are appended to its series, a new series taking the family's bounds; on failure nothing changes; other keys are unchanged |
| `MetricsLayer.RecordKeepsInSync` | gateways/api/src/middlewares/metrics.rs:85-89 | a completed call keeps the two families in step (same keys, count = number of observations); this holds at call boundaries, not between the two updates |
| `MetricsLayer.ReplayContents` | gateways/api/src/middlewares/metrics.rs:83-89 | after any sequence of calls, a key's series is the elapsed times of the successful calls with that key, in order, and its count is their number |
| `MetricsLayer.ReplayInSync` | gateways/api/src/middlewares/metrics.rs:85-89 | from empty families, after any sequence of completed calls, the families are in step and every series uses the family's bounds; this holds at call boundaries only |
| `MetricsLayer.BetweenUpdatesOutOfStep` | gateways/api/src/middlewares/metrics.rs:85-89 | after the observation and before the increment of a successful call, the families are out of step, so a concurrent scrape can see the histogram one ahead of the counter |
| `MetricsLayer.ReplayKeys` | gateways/api/src/middlewares/metrics.rs:86-89 | series exist exactly for the (method, path) pairs of successful calls |
| `MetricsLayer.FailuresLeaveNoTrace` | gateways/api/src/middlewares/metrics.rs:81 | a failed call changes neither family |
| `MetricsLayer.Metrics.constructor` | gateways/api/src/middlewares/metrics.rs:20-28 | stores exactly the two families it is given |
| `MetricsLayer.Metrics.NewTransform` | gateways/api/src/middlewares/metrics.rs:43-49 | always Ok; the middleware shares the same two families |
| `MetricsLayer.MetricsMiddleware.Call` | gateways/api/src/middlewares/metrics.rs:70-93 | returns the inner result unchanged; the families' new contents are `Record` of the old ones |
| `ApiMetrics.BucketsWellFormed` | gateways/api/src/metrics.rs:17-20 | fifteen bounds, 1.0 first and 2000.0 last, strictly increasing |
| `ApiMetrics.New` | gateways/api/src/metrics.rs:13-40 | two fresh families (an empty counter family; an empty histogram family built with the fixed bounds), registered as "request_count" / "Number of requests received" then "request_duration_ms" / "Request duration", and returned |
| `TracingLayer.OnRequestStart` | gateways/api/src/middlewares/tracing.rs:9-15 | DEBUG exactly for "/health_check" and "/metrics", INFO otherwise |
| `TracingLayer.ExactMatchOnly` | gateways/api/src/middlewares/tracing.rs:10-13 | a trailing slash, an extension, a different case or another path gives INFO |
| `TracingLayer.HealthRouteTracedAtInfo` | gateways/api/src/middlewares/tracing.rs:10-13 | the real health route "/v1/healthcheck" is traced at INFO |
| `TracingLayer.OnRequestStartCorrected` | gateways/api/src/middlewares/tracing.rs:10-13 | DEBUG exactly for "/v1/healthcheck" and "/metrics" |
| `TracingLayer.CorrectedQuietsHealthRoute` | gateways/api/src/middlewares/tracing.rs:10-13 | the corrected rule quiets the health route and keeps every other path's level |
| `ErrorHeader.InsertHeader` | gateways/api/src/middlewares/error_header.rs:4-7 | the header has the single new value; every other header is unchanged |
| `ErrorHeader.InsertIdempotent` | gateways/api/src/middlewares/error_header.rs:4-7 | inserting twice equals inserting once |
| `ErrorHeader.AddErrorHeader` | gateways/api/src/middlewares/error_header.rs:3-10 | always Ok; Content-Type becomes exactly "application/json"; request, status, body and other headers unchanged; body moved to the left |
| `ErrorHeader.AddErrorHeaderTwice` | gateways/api/src/middlewares/error_header.rs:3-10 | headers after two passes equal headers after one, and Content-Type holds exactly "application/json" |
| `Server.Healthcheck` | gateways/api/src/server.rs:16-18 | 200, JSON content type, body `{}` |
| `Server.MetricsHandler` | gateways/api/src/server.rs:20-27 | 200, the one content type "application/openmetrics-text; version=1.0.0; charset=utf-8", the encoded registry as body |
| `Server.AppRoutes` | gateways/api/src/server.rs:74-84 | the app listener answers exactly GET /v1/healthcheck and POST /v1/reply, each with the app wraps in registration order (tracing, metrics, error headers), then the scope's timeout |
| `Server.MetricsRoutes` | gateways/api/src/server.rs:96-100 | the metrics listener answers exactly GET /metrics, with no wraps |
| `Server.AppEndpointsTimeoutWrapped` | gateways/api/src/server.rs:79-83 | every app route has the timeout as its innermost wrap; the scrape handler is not reachable there |
| `Server.ScrapeUnwrapped` | gateways/api/src/server.rs:96-100 | the scrape route has no tracing, metrics or timeout wrap |
| `Server.AppRoutesTracedAtInfo` | gateways/api/src/server.rs:79-83 | every app route is traced at INFO by the level rule as written |
| `Server.RoutedStatuses` | gateways/api/src/server.rs:79-99 | routed scrape requests get 200; routed app requests get 200 or 422 from their handler |
| `Server.Run` | gateways/api/src/server.rs:124-132 | Ok only when both servers are Ok; a single failure is returned unchanged; a double failure is one Other error with the metrics server's text, a line break, then the app server's text |
| `Server.BothFailuresRecoverable` | gateways/api/src/server.rs:128 | when the metrics server's text is one line, both texts can be split back out of the combined one |
| `Server.RunOrder` | gateways/api/src/server.rs:127-131 | success and single failures do not depend on which server is which |

## Findings

| source | as written | input that shows it | evidently intended | confidence | as-written member | corrected member |
|---|---|---|---|---|---|---|
| gateways/api/src/settings.rs:75-77 | the rejection message advises "Use either `local` or `production`" | "local": `try_from` rejects it, and the message it prints suggests it | advise the accepted names, `development` or `production` | high; not executed | `Settings.AsWrittenSuggestsRejectedName` | `Settings.CorrectedSuggestsOnlyAcceptedNames` |
| gateways/api/src/middlewares/tracing.rs:11 | the quiet paths are "/health_check" and "/metrics" | GET /v1/healthcheck, the health route server.rs registers, is traced at INFO | the registered health route is traced at DEBUG | medium; not executed | `TracingLayer.HealthRouteTracedAtInfo` | `TracingLayer.CorrectedQuietsHealthRoute` |

## Left out

- infrastructure/src/telemetry.rs: global subscriber and exporter set-up and shutdown. These are process-wide side effects made through library calls.
- `Server::setup` and `Server::port` (gateways/api/src/server.rs:57-122): socket binding, `HttpServer` construction, logging and a field getter. Only the resulting route tables are modelled.
- The concurrent `join!` in `Server::run`: only the combiner over the two finished results is modelled.
- The runtime order of the app-level wraps: actix's rule for which registered wrap runs first is library behaviour. `Endpoint.wraps` lists the wraps in registration order, app-level before scope-level.
- `tokio::time::timeout`: the race is the input `TimeoutLayer.Race`. `Instant::now` and elapsed time: the elapsed milliseconds are a parameter.
- The inner services: their result is a parameter of `TimeoutLayer.Call` and `MetricsLayer.MetricsMiddleware.Call`.
- prometheus-client internals: histogram bucket counts, sums, the text encoding `encode`, and how `Registry` stores names and help texts. Registrations record the arguments as passed. `Server.MetricsHandler` takes the encoded text as a parameter.
- The Mutex around the registry and the `unwrap`s in `metrics_handler` (gateways/api/src/server.rs:21-23).
- serde and serde_json (de)serialisation and the `web::Json` extractor. Bodies are abstract JSON values, and JSON numbers are integers.
- How actix renders an `Error` as a response, and which responses the `ErrorHandlers` default handler fires on. `Http.Error` keeps only the status and the JSON value.
- `ErrorHandlerResponse::Future`: `add_error_header` never builds it.
- `get_config` (gateways/api/src/settings.rs:27-49): configuration loading through a library.
- `on_request_end` and `Tracing::new` (gateways/api/src/middlewares/tracing.rs:17-28): both delegate to the tracing library. The root span itself is reduced to its level.
- gateways/api/src/main.rs and gateways/api/tests/healthcheck.rs: bootstrap and an integration test.
- `Settings.ToLower`: folds only ASCII letters, while `str::to_lowercase` folds all of Unicode. Acceptance is the same, because no non-ASCII character lower-cases into a letter of "development" or "production". But the echoed input in a rejection message differs for non-ASCII capitals.
- `MetricsLayer.MetricsMiddleware.Call`: one call is modelled as one atomic step. In the source, `observe` and `inc` (gateways/api/src/middlewares/metrics.rs:85-89) are two separate updates on families that every worker and the scrape share, so other requests' updates can fall between them. `InSync` is proved only between completed calls; `MetricsLayer.BetweenUpdatesOutOfStep` shows it fails halfway. Interleavings of concurrent calls are not modelled, because the model has no threads.
- `MetricsLayer.MetricsMiddleware.Call`: records the elapsed time as whole milliseconds (`nat`). It does not model the `as f64` conversion, which is exact only below 2^53 ms.
- `MetricFamilies.CounterFamily.Inc`: counts are unbounded naturals. The 64-bit wrap-around of the library's counter is not modelled, because 2^64 requests are out of reach.
- `TimeoutLayer.Call`: says nothing about the deadline response's headers. The middleware sets none; headers actix adds when it writes the response are not modelled.
- `Responses.InternalServerError`, `Responses.NotFound`, `Responses.BadRequest`: the `err` argument (any Display type) is represented by its Display text.
