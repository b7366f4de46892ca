/** Value types shared by the gateway's handlers and middlewares: JSON values,
    response bodies, header maps, requests, responses and actix's error type,
    together with the two wrapper datatypes the Rust code uses (Result, Either). */
module Http {

  datatype Option<+T> = None | Some(value: T)

  datatype Result<+T, +E> = Ok(value: T) | Err(error: E)

  /** actix's EitherBody: the left body is the inner service's, the right one a boxed replacement. */
  datatype Either<+L, +R> = Left(left: L) | Right(right: R)

  /** A serde_json value, abstracted to the shapes the gateway builds. */
  datatype JsonVal =
    | JNull
    | JBool(b: bool)
    | JNumber(n: int)
    | JString(s: string)
    | JArray(items: seq<JsonVal>)
    | JObject(fields: map<string, JsonVal>)

  type JsonObject = map<string, JsonVal>

  /** A response body: a serialised JSON object or literal text. */
  datatype Body = Json(doc: JsonObject) | Text(text: string)

  /** Header names are kept in lower case, as actix's HeaderName normalises them;
      each name maps to its values in order. */
  type HeaderMap = map<string, seq<string>>

  const CONTENT_TYPE: string := "content-type"
  const APPLICATION_JSON: string := "application/json"

  // Status codes (RFC 9110, sections 15.3.1, 15.5.1, 15.5.5, 15.5.21 and 15.6.1).
  const OK: nat := 200
  const BAD_REQUEST: nat := 400
  const NOT_FOUND: nat := 404
  const UNPROCESSABLE_CONTENT: nat := 422
  const INTERNAL_SERVER_ERROR: nat := 500

  datatype Response<+B> = Response(status: nat, headers: HeaderMap, body: B)

  /** The request line the gateway looks at: method name and path. */
  datatype HttpRequest = HttpRequest(httpMethod: string, path: string)

  /** A request as a middleware receives it: the request head and its payload. */
  datatype ServiceRequest = ServiceRequest(request: HttpRequest, payload: string)

  /** A response together with the request it answers. */
  datatype ServiceResponse<+B> = ServiceResponse(request: HttpRequest, response: Response<B>)

  /** actix_web::Error, abstracted to the status it renders and the value it carries. */
  datatype Error = Error(status: nat, cause: JsonVal)

  /** HttpResponseBuilder::json: the given status, a JSON content type and the document as body. */
  function JsonResponse(status: nat, doc: JsonObject): (res: Response<Body>)
    ensures res.status == status && res.body == Json(doc)
    ensures res.headers.Keys == {CONTENT_TYPE} && res.headers[CONTENT_TYPE] == [APPLICATION_JSON]
  {
    Response(status, map[CONTENT_TYPE := [APPLICATION_JSON]], Json(doc))
  }

  /** ServiceResponse::map_into_left_body: same request, status and headers; the body becomes the left one. */
  function MapIntoLeftBody<B, R>(sr: ServiceResponse<B>): (r: ServiceResponse<Either<B, R>>)
    ensures r.request == sr.request
    ensures r.response.status == sr.response.status && r.response.headers == sr.response.headers
    ensures r.response.body == Left(sr.response.body)
  {
    ServiceResponse(sr.request, Response(sr.response.status, sr.response.headers, Left(sr.response.body)))
  }
}
