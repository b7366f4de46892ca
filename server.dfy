/** The composition facts of gateways/api/src/server.rs: the two handlers it
    defines, the static route tables of the application listener and of the
    metrics listener, and how `Server::run` combines the results of the two
    servers once both have stopped. Binding sockets and running the servers
    are not part of this model. */
module Server {
  import opened Http
  import ReplyRoute
  import TracingLayer

  // ---- handlers ----

  const OPENMETRICS_CONTENT_TYPE: string := "application/openmetrics-text; version=1.0.0; charset=utf-8"

  /** healthcheck: 200 with the empty JSON object. */
  function Healthcheck(): (res: Response<Body>)
    ensures res.status == OK
    ensures res.body == Json(map[]) && res.headers == map[CONTENT_TYPE := [APPLICATION_JSON]]
  {
    JsonResponse(OK, map[])
  }

  /** metrics_handler, given the registry's text encoding: 200 with the OpenMetrics content type. */
  function MetricsHandler(encoded: string): (res: Response<Body>)
    ensures res.status == OK
    ensures res.headers.Keys == {CONTENT_TYPE} && res.headers[CONTENT_TYPE] == [OPENMETRICS_CONTENT_TYPE]
    ensures res.body == Text(encoded)
  {
    Response(OK, map[CONTENT_TYPE := [OPENMETRICS_CONTENT_TYPE]], Text(encoded))
  }

  // ---- route tables ----

  datatype Handler = HealthcheckHandler | ReplyHandler | MetricsScrapeHandler

  /** The middlewares a listener or scope wraps its routes in. */
  datatype Wrap = TracingLogger | MetricsRecorder | ErrorHeaderHandlers | TimeoutGuard

  datatype Route = Route(httpMethod: string, path: string, handler: Handler)

  datatype Scope = Scope(prefix: string, wraps: seq<Wrap>, routes: seq<Route>)

  /** A registered service: a route on the app itself or a scope of routes. */
  datatype Service = RouteService(route: Route) | ScopeService(scope: Scope)

  /** An App: its wraps in registration order and its services in registration order. */
  datatype App = App(wraps: seq<Wrap>, services: seq<Service>)

  /** What a request reaches: the handler, and the wraps around it: the app's in registration
      order, then the scope's. */
  datatype Endpoint = Endpoint(handler: Handler, wraps: seq<Wrap>)

  /** The application listener: the app wraps, registered as tracing, metrics, error headers,
      around the /v1 scope, whose two routes are wrapped in the timeout. */
  const APP: App := App(
    [TracingLogger, MetricsRecorder, ErrorHeaderHandlers],
    [ScopeService(Scope("/v1", [TimeoutGuard],
      [Route("GET", "/healthcheck", HealthcheckHandler), Route("POST", "/reply", ReplyHandler)]))])

  /** The metrics listener: one unwrapped route. */
  const METRICS_APP: App := App([], [RouteService(Route("GET", "/metrics", MetricsScrapeHandler))])

  /** The first route, in order, with this method whose prefixed path is the request path. */
  function FindRoute(routes: seq<Route>, prefix: string, m: string, p: string): (h: Option<Handler>)
    ensures h.Some? <==> exists i | 0 <= i < |routes| :: routes[i].httpMethod == m && prefix + routes[i].path == p
    ensures h.Some? ==> exists i | 0 <= i < |routes| :: routes[i].handler == h.value
  {
    if routes == [] then None
    else if routes[0].httpMethod == m && prefix + routes[0].path == p then Some(routes[0].handler)
    else
      var rest := FindRoute(routes[1..], prefix, m, p);
      assert rest.Some? ==> exists i | 1 <= i < |routes| :: routes[i].httpMethod == m && prefix + routes[i].path == p
        by { if rest.Some? { var i :| 0 <= i < |routes[1..]| && routes[1..][i].httpMethod == m && prefix + routes[1..][i].path == p; assert routes[i + 1] == routes[1..][i]; } }
      assert rest.Some? ==> exists i | 0 <= i < |routes| :: routes[i].handler == rest.value
        by { if rest.Some? { var i :| 0 <= i < |routes[1..]| && routes[1..][i].handler == rest.value; assert routes[i + 1] == routes[1..][i]; } }
      rest
  }

  /** The first service, in registration order, that answers the request. */
  function FindService(services: seq<Service>, appWraps: seq<Wrap>, m: string, p: string): Option<Endpoint>
  {
    if services == [] then None
    else
      var found := match services[0]
        case RouteService(r) =>
          if r.httpMethod == m && r.path == p then Some(Endpoint(r.handler, appWraps)) else None
        case ScopeService(s) =>
          match FindRoute(s.routes, s.prefix, m, p)
          case Some(h) => Some(Endpoint(h, appWraps + s.wraps))
          case None => None;
      if found.Some? then found else FindService(services[1..], appWraps, m, p)
  }

  function Resolve(app: App, m: string, p: string): Option<Endpoint>
  {
    FindService(app.services, app.wraps, m, p)
  }

  /** The application listener answers exactly GET /v1/healthcheck and POST /v1/reply,
      both with the app's wraps in registration order, then the scope's timeout. */
  lemma AppRoutes(m: string, p: string)
    ensures Resolve(APP, m, p) ==
      if m == "GET" && p == "/v1/healthcheck" then
        Some(Endpoint(HealthcheckHandler, [TracingLogger, MetricsRecorder, ErrorHeaderHandlers, TimeoutGuard]))
      else if m == "POST" && p == "/v1/reply" then
        Some(Endpoint(ReplyHandler, [TracingLogger, MetricsRecorder, ErrorHeaderHandlers, TimeoutGuard]))
      else None
  {
    var routes := [Route("GET", "/healthcheck", HealthcheckHandler), Route("POST", "/reply", ReplyHandler)];
    var scope := Scope("/v1", [TimeoutGuard], routes);
    assert APP.services == [ScopeService(scope)];
    assert "/v1" + "/healthcheck" == "/v1/healthcheck";
    assert "/v1" + "/reply" == "/v1/reply";
    assert routes[1..][1..] == [];
    assert FindRoute(routes[1..], "/v1", m, p) ==
      if m == "POST" && p == "/v1/reply" then Some(ReplyHandler) else None;
    assert FindRoute(routes, "/v1", m, p) ==
      if m == "GET" && p == "/v1/healthcheck" then Some(HealthcheckHandler)
      else if m == "POST" && p == "/v1/reply" then Some(ReplyHandler)
      else None;
    assert APP.services[1..] == [];
    assert APP.wraps + scope.wraps == [TracingLogger, MetricsRecorder, ErrorHeaderHandlers, TimeoutGuard];
    assert FindService(APP.services[1..], APP.wraps, m, p) == None;
    assert Resolve(APP, m, p) == FindService(APP.services, APP.wraps, m, p);
  }

  /** The metrics listener answers only GET /metrics, with nothing wrapped around it. */
  lemma MetricsRoutes(m: string, p: string)
    ensures Resolve(METRICS_APP, m, p) ==
      if m == "GET" && p == "/metrics" then Some(Endpoint(MetricsScrapeHandler, [])) else None
  {
    assert METRICS_APP.services == [RouteService(Route("GET", "/metrics", MetricsScrapeHandler))];
    assert METRICS_APP.services[1..] == [];
    assert FindService(METRICS_APP.services[1..], [], m, p) == None;
  }

  /** On the application listener, the timeout is the innermost wrap of every route,
      and the scrape handler is not reachable. */
  lemma AppEndpointsTimeoutWrapped(m: string, p: string)
    requires Resolve(APP, m, p).Some?
    ensures Resolve(APP, m, p).value.wraps == APP.wraps + [TimeoutGuard]
    ensures Resolve(APP, m, p).value.handler != MetricsScrapeHandler
  {
    AppRoutes(m, p);
  }

  /** The scrape endpoint is neither measured nor traced nor bounded by the deadline. */
  lemma ScrapeUnwrapped(m: string, p: string)
    requires Resolve(METRICS_APP, m, p).Some?
    ensures Resolve(METRICS_APP, m, p).value.wraps == []
  {
    MetricsRoutes(m, p);
  }

  /** Every route of the application listener is traced at INFO: none is a quiet path. */
  lemma AppRoutesTracedAtInfo(m: string, p: string, payload: string)
    requires Resolve(APP, m, p).Some?
    ensures TracingLayer.OnRequestStart(ServiceRequest(HttpRequest(m, p), payload)) == TracingLayer.INFO
  {
    AppRoutes(m, p);
  }

  /** The response a routed handler gives, before any middleware: the reply handler reads the
      request's message, the scrape handler is given the encoded registry. */
  function Dispatch(h: Handler, message: string, encoded: string): Response<Body>
  {
    match h
    case HealthcheckHandler => Healthcheck()
    case ReplyHandler => ReplyRoute.Reply(ReplyRoute.ReplyRequest(message))
    case MetricsScrapeHandler => MetricsHandler(encoded)
  }

  /** Every request the metrics listener routes is answered 200; every request the application
      listener routes is answered 200 or 422 by its handler. */
  lemma RoutedStatuses(m: string, p: string, message: string, encoded: string)
    ensures Resolve(METRICS_APP, m, p).Some? ==>
      Dispatch(Resolve(METRICS_APP, m, p).value.handler, message, encoded).status == OK
    ensures Resolve(APP, m, p).Some? ==>
      Dispatch(Resolve(APP, m, p).value.handler, message, encoded).status in {OK, UNPROCESSABLE_CONTENT}
  {
    MetricsRoutes(m, p);
    AppRoutes(m, p);
  }

  // ---- Server::run ----

  datatype IoErrorKind = Other | AddrInUse | PermissionDenied | ConnectionReset | Uncategorized

  /** std::io::Error: its kind and its Display text. */
  datatype IoError = IoError(kind: IoErrorKind, text: string)

  /** The combiner of Server::run over the metrics server's result, then the app server's. */
  function Run(metricsResult: Result<(), IoError>, appResult: Result<(), IoError>): (r: Result<(), IoError>)
    ensures r.Ok? <==> metricsResult.Ok? && appResult.Ok?
    ensures metricsResult.Ok? && appResult.Err? ==> r == appResult
    ensures metricsResult.Err? && appResult.Ok? ==> r == metricsResult
    ensures metricsResult.Err? && appResult.Err? ==>
      r.Err? && r.error.kind == Other
      && r.error.text == metricsResult.error.text + "\n" + appResult.error.text
  {
    match (metricsResult, appResult)
    case (Err(e1), Err(e2)) => Err(IoError(Other, e1.text + "\n" + e2.text))
    case (Ok(_), Err(err)) => Err(err)
    case (Err(err), Ok(_)) => Err(err)
    case _ => Ok(())
  }

  /** The text before the first line break, and the text after it; None when there is none. */
  function SplitAtNewline(s: string): (r: Option<(string, string)>)
    ensures r.Some? ==> s == r.value.0 + "\n" + r.value.1 && '\n' !in r.value.0
    ensures r.None? ==> '\n' !in s
  {
    if s == [] then None
    else if s[0] == '\n' then Some(([], s[1..]))
    else
      match SplitAtNewline(s[1..])
      case None => None
      case Some((before, after)) => Some(([s[0]] + before, after))
  }

  lemma {:induction false} SplitAtNewlineOfJoin(a: string, b: string)
    requires '\n' !in a
    ensures SplitAtNewline(a + "\n" + b) == Some((a, b))
  {
    if a != [] {
      var s := a + "\n" + b;
      assert s[0] == a[0] && s[1..] == a[1..] + "\n" + b;
      assert '\n' !in a[1..];
      SplitAtNewlineOfJoin(a[1..], b);
      assert [a[0]] + a[1..] == a;
    } else {
      assert a + "\n" + b == ['\n'] + b;
    }
  }

  /** When both servers fail, the two messages can be told apart again, the metrics server's
      first, provided it is a single line. */
  lemma {:induction false} BothFailuresRecoverable(e1: IoError, e2: IoError)
    requires '\n' !in e1.text
    ensures SplitAtNewline(Run(Err(e1), Err(e2)).error.text) == Some((e1.text, e2.text))
  {
    SplitAtNewlineOfJoin(e1.text, e2.text);
  }

  /** Success and single failures do not depend on which server is which; a double failure does. */
  lemma RunOrder(a: Result<(), IoError>, b: Result<(), IoError>)
    ensures Run(a, b).Ok? == Run(b, a).Ok?
    ensures !(a.Err? && b.Err?) ==> Run(a, b) == Run(b, a)
  {
  }
}
