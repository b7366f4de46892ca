/** The POST /v1/reply handler of gateways/api/src/routes/reply.rs: it runs the
    domain reply rule and maps its result to 200 OK (section 15.3.1 of RFC 9110)
    or 422 Unprocessable Content (section 15.5.21 of RFC 9110), always with a
    one-key JSON body {"message": ...}. */
module ReplyRoute {
  import opened Http
  import Messages

  /** The JSON request body; only its "message" field is read. */
  datatype ReplyRequest = ReplyRequest(message: string)

  function MessageBody(text: string): JsonObject
  {
    map["message" := JString(text)]
  }

  /** The handler: success becomes 200 with the answer, the unknown-message error 422 with its text. */
  function Reply(request: ReplyRequest): (res: Response<Body>)
    ensures res.status == OK <==> Messages.Reply(request.message).Ok?
    ensures res.status == OK || res.status == UNPROCESSABLE_CONTENT
    ensures res.headers == map[CONTENT_TYPE := [APPLICATION_JSON]]
    ensures res.body.Json? && res.body.doc.Keys == {"message"}
    ensures res.status == OK ==>
      res.body.doc["message"] == JString(Messages.Reply(request.message).value)
    ensures res.status == UNPROCESSABLE_CONTENT ==>
      res.body.doc["message"] == JString(Messages.Display(Messages.UnknownMessage(request.message)))
  {
    match Messages.Reply(request.message)
    case Ok(message) => JsonResponse(OK, MessageBody(message))
    case Err(err) =>
      match err
      case UnknownMessage(_) => JsonResponse(UNPROCESSABLE_CONTENT, MessageBody(Messages.Display(err)))
  }

  /** End to end: the two known messages are answered with 200 and their fixed replies. */
  lemma KnownMessagesAnswered()
    ensures Reply(ReplyRequest("hello")) == JsonResponse(OK, map["message" := JString("world")])
    ensures Reply(ReplyRequest("ping")) == JsonResponse(OK, map["message" := JString("pong")])
  {
  }

  /** A 422 body names the rejected input: a client can read it back from the message text. */
  lemma RejectedInputRecoverable(request: ReplyRequest)
    requires Reply(request).status == UNPROCESSABLE_CONTENT
    ensures Reply(request).body.doc["message"].JString?
    ensures Messages.QuotedInput(Reply(request).body.doc["message"].s) == Some(request.message)
  {
    Messages.DisplayRoundTrip(Messages.UnknownMessage(request.message));
  }

  /** The response determines the request: different messages never get the same response. */
  lemma ResponseDeterminesMessage(a: ReplyRequest, b: ReplyRequest)
    requires Reply(a) == Reply(b)
    ensures a == b
  {
    if Reply(a).status == UNPROCESSABLE_CONTENT {
      Messages.DisplayInjective(Messages.UnknownMessage(a.message), Messages.UnknownMessage(b.message));
    } else {
      Messages.ReplyAnswersDistinct(a.message, b.message);
    }
  }
}
