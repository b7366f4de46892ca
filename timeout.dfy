/** The request deadline middleware of gateways/api/src/middlewares/timeout.rs.
    The race between the wrapped handler and the deadline timer is an input
    (`Race`): either the handler's result arrived first or the deadline lapsed.
    The deadline is a duration in nanoseconds, kept exactly as configured. */
module TimeoutLayer {
  import opened Http

  /** The Transform: holds the configured duration. */
  datatype Timeout = Timeout(duration: nat)

  /** The Service built around an inner service `S`. */
  datatype TimeoutMiddleware<S> = TimeoutMiddleware(service: S, duration: nat)

  /** The outcome of racing the handler against the deadline. */
  datatype Race<T> = Finished(result: T) | Elapsed

  /** The body type of the middleware's responses: the handler's body, or the boxed "deadline" text. */
  type TimeoutBody<B> = Either<B, string>

  const DEADLINE_TEXT: string := "deadline"

  /** Timeout::new: any duration is accepted, zero included. */
  function New(duration: nat): (t: Timeout)
    ensures t.duration == duration
  {
    Timeout(duration)
  }

  /** Transform::new_transform: always succeeds, wrapping the service with the same duration. */
  function NewTransform<S>(t: Timeout, service: S): (r: Result<TimeoutMiddleware<S>, ()>)
    ensures r.Ok? && r.value.service == service && r.value.duration == t.duration
  {
    Ok(TimeoutMiddleware(service, t.duration))
  }

  /** The response built when the deadline lapses: 400 with the literal body "deadline",
      answering the request cloned before the handler ran. */
  function DeadlineResponse<B>(request: HttpRequest): ServiceResponse<TimeoutBody<B>>
  {
    ServiceResponse(request, Response(BAD_REQUEST, map[], Right(DEADLINE_TEXT)))
  }

  /** TimeoutMiddleware::call, once the race is decided. */
  function Call<S, B>(mw: TimeoutMiddleware<S>, req: ServiceRequest, race: Race<Result<ServiceResponse<B>, Error>>)
    : (r: Result<ServiceResponse<TimeoutBody<B>>, Error>)
    ensures race.Finished? && race.result.Ok? ==>
      r.Ok? && r.value.request == race.result.value.request
      && r.value.response.status == race.result.value.response.status
      && r.value.response.headers == race.result.value.response.headers
      && r.value.response.body == Left(race.result.value.response.body)
    ensures race.Finished? && race.result.Err? ==> r == Err(race.result.error)
    ensures race.Elapsed? ==>
      r.Ok? && r.value.request == req.request
      && r.value.response.status == BAD_REQUEST
      && r.value.response.body == Right(DEADLINE_TEXT)
    ensures r.Err? <==> race.Finished? && race.result.Err?
  {
    var request := req.request;
    match race
    case Finished(res) =>
      (match res
       case Ok(sr) => Ok(MapIntoLeftBody(sr))
       case Err(e) => Err(e))
    case Elapsed => Ok(DeadlineResponse(request))
  }

  /** Undoes map_into_left_body on a handler's response; None for the synthetic one. */
  function HandlerResponse<B>(sr: ServiceResponse<TimeoutBody<B>>): Option<ServiceResponse<B>>
  {
    match sr.response.body
    case Left(b) => Some(ServiceResponse(sr.request, Response(sr.response.status, sr.response.headers, b)))
    case Right(_) => None
  }

  /** A handler's response passes through untouched: unwrapping the left body gives it back exactly. */
  lemma HandlerResponseRoundTrip<S, B>(mw: TimeoutMiddleware<S>, req: ServiceRequest, sr: ServiceResponse<B>)
    ensures Call(mw, req, Finished(Ok(sr))).Ok?
    ensures HandlerResponse(Call(mw, req, Finished(Ok(sr))).value) == Some(sr)
  {
  }

  /** The deadline response is never mistaken for a handler's: it is the only right-bodied one. */
  lemma DeadlineDistinguishable<S, B>(mw: TimeoutMiddleware<S>, req: ServiceRequest, race: Race<Result<ServiceResponse<B>, Error>>)
    requires Call(mw, req, race).Ok?
    ensures HandlerResponse(Call(mw, req, race).value).None? <==> race.Elapsed?
  {
  }

  /** Building the middleware from Timeout::new keeps the configured duration, zero included. */
  lemma DurationPreserved<S>(duration: nat, service: S)
    ensures NewTransform(New(duration), service).value.duration == duration
  {
  }
}
