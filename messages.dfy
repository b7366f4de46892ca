/** The domain reply rule of application/src/messages.rs: two fixed
    message/answer pairs, every other input an UnknownMessage error. */
module Messages {
  import opened Http

  datatype ReplyError = UnknownMessage(message: string)

  const UNKNOWN_PREFIX: string := "Unknown message \""
  const UNKNOWN_SUFFIX: string := "\""

  /** The error's Display text: the input between double quotes after "Unknown message ". */
  function Display(e: ReplyError): (text: string)
    ensures |text| == |UNKNOWN_PREFIX| + |e.message| + |UNKNOWN_SUFFIX|
    ensures text[..|UNKNOWN_PREFIX|] == UNKNOWN_PREFIX
    ensures text[|UNKNOWN_PREFIX|..|text| - |UNKNOWN_SUFFIX|] == e.message
    ensures text[|text| - |UNKNOWN_SUFFIX|..] == UNKNOWN_SUFFIX
  {
    UNKNOWN_PREFIX + e.message + UNKNOWN_SUFFIX
  }

  /** Reads the input back out of a Display text; None when the text does not have that shape. */
  function QuotedInput(text: string): (m: Option<string>)
    ensures m.Some? ==> Display(UnknownMessage(m.value)) == text
  {
    if |text| >= |UNKNOWN_PREFIX| + |UNKNOWN_SUFFIX|
       && text[..|UNKNOWN_PREFIX|] == UNKNOWN_PREFIX
       && text[|text| - |UNKNOWN_SUFFIX|..] == UNKNOWN_SUFFIX
    then
      var inner := text[|UNKNOWN_PREFIX|..|text| - |UNKNOWN_SUFFIX|];
      assert text == UNKNOWN_PREFIX + inner + UNKNOWN_SUFFIX;
      Some(inner)
    else None
  }

  /** The input can always be recovered from the error's text. */
  lemma DisplayRoundTrip(e: ReplyError)
    ensures QuotedInput(Display(e)) == Some(e.message)
  {
  }

  /** Two errors with the same text carry the same input. */
  lemma DisplayInjective(a: ReplyError, b: ReplyError)
    requires Display(a) == Display(b)
    ensures a == b
  {
    DisplayRoundTrip(a);
    DisplayRoundTrip(b);
  }

  /** The reply rule: "hello" answers "world", "ping" answers "pong", anything else is rejected verbatim. */
  function Reply(message: string): (r: Result<string, ReplyError>)
    ensures r.Ok? <==> message in {"hello", "ping"}
    ensures message == "hello" ==> r == Ok("world")
    ensures message == "ping" ==> r == Ok("pong")
    ensures r.Err? ==> r.error == UnknownMessage(message)
  {
    match message
    case "hello" => Ok("world")
    case "ping" => Ok("pong")
    case _ => Err(UnknownMessage(message))
  }

  /** Matching is exact: a different case or surrounding blanks is an unknown message. */
  lemma ReplyIsExact()
    ensures Reply("Hello") == Err(UnknownMessage("Hello"))
    ensures Reply("PING") == Err(UnknownMessage("PING"))
    ensures Reply(" ping") == Err(UnknownMessage(" ping"))
    ensures Reply("hello ") == Err(UnknownMessage("hello "))
  {
  }

  /** Only the two known messages are answered, and their answers differ. */
  lemma ReplyAnswersDistinct(a: string, b: string)
    requires Reply(a).Ok? && Reply(b).Ok?
    ensures Reply(a) == Reply(b) <==> a == b
  {
  }
}
