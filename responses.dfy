/** The error constructors of gateways/api/src/response.rs. Each wraps a JSON
    document in an actix error with a fixed status: 500 Internal Server Error,
    404 Not Found (sections 15.6.1 and 15.5.5 of RFC 9110) or 400 Bad Request
    (section 15.5.1). The `err` argument, of any Display type, is modelled by
    its Display text. */
module Responses {
  import opened Http

  function InternalServerError(errText: string): (e: Error)
    ensures e.status == INTERNAL_SERVER_ERROR
    ensures e.cause.JObject? && e.cause.fields.Keys == {"message"}
    ensures MessageOf(e) == Some(errText)
  {
    Error(INTERNAL_SERVER_ERROR, JObject(map["message" := JString(errText)]))
  }

  function NotFound(errText: string): (e: Error)
    ensures e.status == NOT_FOUND
    ensures e.cause.JObject? && e.cause.fields.Keys == {"message"}
    ensures MessageOf(e) == Some(errText)
  {
    Error(NOT_FOUND, JObject(map["message" := JString(errText)]))
  }

  /** A 400 error whose body also lists the serialised details, in the caller's order. */
  function BadRequest(errText: string, details: seq<JsonVal>): (e: Error)
    ensures e.status == BAD_REQUEST
    ensures e.cause.JObject? && e.cause.fields.Keys == {"message", "details"}
    ensures MessageOf(e) == Some(errText)
    ensures DetailsOf(e) == Some(details)
  {
    Error(BAD_REQUEST, JObject(map["message" := JString(errText), "details" := JArray(details)]))
  }

  /** What a client reads from an error body's "message" field. */
  function MessageOf(e: Error): Option<string>
  {
    if e.cause.JObject? && "message" in e.cause.fields && e.cause.fields["message"].JString?
    then Some(e.cause.fields["message"].s)
    else None
  }

  /** What a client reads from an error body's "details" field. */
  function DetailsOf(e: Error): Option<seq<JsonVal>>
  {
    if e.cause.JObject? && "details" in e.cause.fields && e.cause.fields["details"].JArray?
    then Some(e.cause.fields["details"].items)
    else None
  }

  /** The three constructors never produce the same error, and each is injective in its arguments. */
  lemma ConstructorsDistinguishable(a: string, b: string, d: seq<JsonVal>, d': seq<JsonVal>)
    ensures InternalServerError(a) != NotFound(b)
    ensures InternalServerError(a) != BadRequest(b, d)
    ensures NotFound(a) != BadRequest(b, d)
    ensures InternalServerError(a) == InternalServerError(b) ==> a == b
    ensures NotFound(a) == NotFound(b) ==> a == b
    ensures BadRequest(a, d) == BadRequest(b, d') ==> a == b && d == d'
  {
    if BadRequest(a, d) == BadRequest(b, d') {
      assert MessageOf(BadRequest(a, d)) == Some(a) && DetailsOf(BadRequest(a, d)) == Some(d);
    }
  }

  /** The 500 and 404 bodies have no "details" field; only the 400 body does. */
  lemma OnlyBadRequestHasDetails(text: string)
    ensures DetailsOf(InternalServerError(text)) == None
    ensures DetailsOf(NotFound(text)) == None
  {
  }
}
