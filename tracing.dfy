/** The root-span level rule of gateways/api/src/middlewares/tracing.rs:
    exactly "/health_check" and "/metrics" are traced at DEBUG, every other
    path at INFO. */
module TracingLayer {
  import opened Http

  datatype Level = DEBUG | INFO

  /** The paths traced quietly, as written. */
  const QUIET_PATHS: set<string> := {"/health_check", "/metrics"}

  /** LevelRootSpanBuilder::on_request_start: the level of the request's root span. */
  function OnRequestStart(req: ServiceRequest): (level: Level)
    ensures level == DEBUG <==> req.request.path in QUIET_PATHS
  {
    match req.request.path
    case "/health_check" | "/metrics" => DEBUG
    case _ => INFO
  }

  /** Matching is exact: a trailing slash, a longer path, another case or an extension is INFO. */
  lemma ExactMatchOnly(m: string, payload: string)
    ensures OnRequestStart(ServiceRequest(HttpRequest(m, "/health_check/"), payload)) == INFO
    ensures OnRequestStart(ServiceRequest(HttpRequest(m, "/metrics/"), payload)) == INFO
    ensures OnRequestStart(ServiceRequest(HttpRequest(m, "/metrics.txt"), payload)) == INFO
    ensures OnRequestStart(ServiceRequest(HttpRequest(m, "/Metrics"), payload)) == INFO
    ensures OnRequestStart(ServiceRequest(HttpRequest(m, "/health"), payload)) == INFO
  {
  }

  /** The gateway's health route is "/v1/healthcheck"; as written it is traced at INFO. */
  lemma HealthRouteTracedAtInfo(m: string, payload: string)
    ensures OnRequestStart(ServiceRequest(HttpRequest(m, "/v1/healthcheck"), payload)) == INFO
  {
  }

  /** The evidently intended quiet paths: the health route the server registers, and the scrape path. */
  const QUIET_PATHS_CORRECTED: set<string> := {"/v1/healthcheck", "/metrics"}

  function OnRequestStartCorrected(req: ServiceRequest): (level: Level)
    ensures level == DEBUG <==> req.request.path in QUIET_PATHS_CORRECTED
  {
    match req.request.path
    case "/v1/healthcheck" | "/metrics" => DEBUG
    case _ => INFO
  }

  /** With the correction the health route is quiet, and every other path keeps its level. */
  lemma CorrectedQuietsHealthRoute(req: ServiceRequest)
    ensures req.request.path == "/v1/healthcheck" ==> OnRequestStartCorrected(req) == DEBUG
    ensures req.request.path !in {"/v1/healthcheck", "/health_check"} ==>
      OnRequestStartCorrected(req) == OnRequestStart(req)
  {
  }
}
