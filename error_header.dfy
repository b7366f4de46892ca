/** The error handler of gateways/api/src/middlewares/error_header.rs: it sets
    the response's Content-Type (section 8.3 of RFC 9110) to application/json,
    replacing whatever values the header had, and hands the response back as
    a ready error-handler response with its body on the left. */
module ErrorHeader {
  import opened Http

  /** ErrorHandlerResponse, reduced to the ready-response variant the handler produces. */
  datatype ErrorHandlerResponse<B> = HandlerResponse(res: ServiceResponse<B>)

  /** HeaderMap::insert: the name now has exactly the one value; every other name is untouched. */
  function InsertHeader(h: HeaderMap, name: string, value: string): (r: HeaderMap)
    ensures r.Keys == h.Keys + {name}
    ensures r[name] == [value]
    ensures forall n | n in h && n != name :: r[n] == h[n]
  {
    h[name := [value]]
  }

  /** Inserting the same header twice is inserting it once. */
  lemma InsertIdempotent(h: HeaderMap, name: string, value: string)
    ensures InsertHeader(InsertHeader(h, name, value), name, value) == InsertHeader(h, name, value)
  {
  }

  /** add_error_header: the response's header map gets the JSON content type, and the
      response comes back ready, its body on the left. */
  function AddErrorHeader<B>(res: ServiceResponse<B>): (r: Result<ErrorHandlerResponse<Either<B, string>>, Error>)
    ensures r.Ok?
    ensures r.value.res.request == res.request
    ensures r.value.res.response.status == res.response.status
    ensures r.value.res.response.body == Left(res.response.body)
    ensures r.value.res.response.headers == InsertHeader(res.response.headers, CONTENT_TYPE, APPLICATION_JSON)
  {
    var headers := res.response.headers[CONTENT_TYPE := [APPLICATION_JSON]];
    Ok(HandlerResponse(MapIntoLeftBody(res.(response := res.response.(headers := headers)))))
  }

  /** A response that goes through the handler twice has the same headers as after once,
      with exactly the JSON content type. */
  lemma AddErrorHeaderTwice<B>(res: ServiceResponse<B>)
    ensures AddErrorHeader(AddErrorHeader(res).value.res).value.res.response.headers
      == AddErrorHeader(res).value.res.response.headers
    ensures AddErrorHeader(res).value.res.response.headers[CONTENT_TYPE] == [APPLICATION_JSON]
  {
    InsertIdempotent(res.response.headers, CONTENT_TYPE, APPLICATION_JSON);
  }
}
