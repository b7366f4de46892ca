/** The deployment environment of gateways/api/src/settings.rs: a two-variant
    enum, its printer `as_str`, the case-insensitive parser `TryFrom<String>`,
    and the exact names its serde derive accepts. */
module Settings {
  import opened Http

  datatype Environment = Development | Production

  /** Environment::as_str. */
  function AsStr(e: Environment): (name: string)
    ensures name == SerdeName(e)
    ensures IsLower(name)
  {
    match e
    case Development => "development"
    case Production => "production"
  }

  /** The names given by the #[serde(rename = ...)] attributes on the variants. */
  function SerdeName(e: Environment): string
  {
    match e
    case Development => "development"
    case Production => "production"
  }

  /** What the derived Deserialize accepts: the rename strings, matched exactly. */
  function SerdeDeserialize(s: string): (r: Option<Environment>)
    ensures r.Some? ==> SerdeName(r.value) == s
    ensures forall e :: SerdeName(e) == s ==> r == Some(e)
  {
    if s == "development" then Some(Development)
    else if s == "production" then Some(Production)
    else None
  }

  lemma AsStrInjective(a: Environment, b: Environment)
    ensures AsStr(a) == AsStr(b) <==> a == b
  {
  }

  // ---- case folding ----

  function LowerChar(c: char): (d: char)
    ensures 'A' <= c <= 'Z' ==> d as int == c as int + 32
    ensures !('A' <= c <= 'Z') ==> d == c
  {
    if 'A' <= c <= 'Z' then (c as int + 32) as char else c
  }

  /** No character of s is an upper-case ASCII letter. */
  predicate IsLower(s: string)
  {
    forall i | 0 <= i < |s| :: !('A' <= s[i] <= 'Z')
  }

  /** str::to_lowercase on ASCII letters: every character folded on its own. */
  function ToLower(s: string): (r: string)
    ensures |r| == |s|
    ensures forall i | 0 <= i < |s| :: r[i] == LowerChar(s[i])
  {
    if s == [] then [] else [LowerChar(s[0])] + ToLower(s[1..])
  }

  /** s and t spell the same word up to the case of ASCII letters. */
  predicate SameIgnoringCase(s: string, t: string)
  {
    |s| == |t| && forall i | 0 <= i < |s| :: LowerChar(s[i]) == LowerChar(t[i])
  }

  lemma {:induction false} ToLowerOfLower(s: string)
    requires IsLower(s)
    ensures ToLower(s) == s
  {
    if s != [] {
      ToLowerOfLower(s[1..]);
    }
  }

  /** ToLower(s) is t exactly when s spells the lower-case word t in any casing. */
  lemma ToLowerMatches(s: string, t: string)
    requires IsLower(t)
    ensures ToLower(s) == t <==> SameIgnoringCase(s, t)
  {
    if SameIgnoringCase(s, t) {
      ToLowerOfLower(t);
      assert forall i | 0 <= i < |t| :: LowerChar(t[i]) == t[i];
    }
  }

  // ---- parsing ----

  const UNSUPPORTED_TEXT: string := " is not a supported environment. Use either `"
  const OR_TEXT: string := "` or `"
  const END_TEXT: string := "`."

  /** The names the rejection message tells the user to pick from, as written in the source. */
  const SUGGESTED_AS_WRITTEN: seq<string> := ["local", "production"]

  /** The rejection message: the lower-cased input, then the fixed advice naming two suggestions. */
  function UnsupportedMessage(lower: string, suggested: seq<string>): (msg: string)
    requires |suggested| == 2
    ensures |msg| >= |lower| && msg[..|lower|] == lower
  {
    lower + UNSUPPORTED_TEXT + suggested[0] + OR_TEXT + suggested[1] + END_TEXT
  }

  /** TryFrom<String> for Environment, as written: case-insensitive, the rejection suggests `local`. */
  function TryFrom(s: string): (r: Result<Environment, string>)
    ensures forall e :: r == Ok(e) <==> ToLower(s) == AsStr(e)
    ensures r.Err? ==> r.error == UnsupportedMessage(ToLower(s), SUGGESTED_AS_WRITTEN)
  {
    match ToLower(s)
    case "development" => Ok(Development)
    case "production" => Ok(Production)
    case other => Err(UnsupportedMessage(other, SUGGESTED_AS_WRITTEN))
  }

  /** Printing then parsing gives the variant back. */
  lemma {:induction false} RoundTrip(e: Environment)
    ensures TryFrom(AsStr(e)) == Ok(e)
  {
    ToLowerOfLower(AsStr(e));
  }

  /** Parsing accepts exactly the spellings of a variant's name that differ only in case. */
  lemma {:induction false} ParseIgnoresCase(s: string, e: Environment)
    ensures TryFrom(s) == Ok(e) <==> SameIgnoringCase(s, AsStr(e))
  {
    ToLowerMatches(s, AsStr(e));
  }

  /** Whatever the derived Deserialize accepts, TryFrom accepts as the same variant; not the converse. */
  lemma {:induction false} SerdeStricterThanTryFrom(s: string)
    ensures SerdeDeserialize(s).Some? ==> TryFrom(s) == Ok(SerdeDeserialize(s).value)
    ensures TryFrom("Production") == Ok(Production) && SerdeDeserialize("Production") == None
  {
    if SerdeDeserialize(s).Some? {
      RoundTrip(SerdeDeserialize(s).value);
    }
    assert ToLower("Production") == "production";
  }

  /** A rejected input's message starts with the input in lower case. */
  lemma RejectionEchoesLowerInput(s: string)
    requires TryFrom(s).Err?
    ensures TryFrom(s).error[..|s|] == ToLower(s)
  {
  }

  // ---- the message's advice ----

  /** The message as written suggests `local`, which TryFrom itself rejects. */
  lemma {:induction false} AsWrittenSuggestsRejectedName()
    ensures "local" in SUGGESTED_AS_WRITTEN
    ensures TryFrom("local").Err?
    ensures TryFrom("local").error == UnsupportedMessage("local", SUGGESTED_AS_WRITTEN)
  {
    ToLowerOfLower("local");
  }

  /** The evidently intended advice: the names as_str prints. */
  const SUGGESTED_CORRECTED: seq<string> := [AsStr(Development), AsStr(Production)]

  /** TryFrom with the advice naming the accepted environments. */
  function TryFromCorrected(s: string): (r: Result<Environment, string>)
    ensures forall e :: r == Ok(e) <==> ToLower(s) == AsStr(e)
    ensures r.Err? ==> r.error == UnsupportedMessage(ToLower(s), SUGGESTED_CORRECTED)
  {
    match ToLower(s)
    case "development" => Ok(Development)
    case "production" => Ok(Production)
    case other => Err(UnsupportedMessage(other, SUGGESTED_CORRECTED))
  }

  /** With the corrected advice, every suggested name is accepted. */
  lemma {:induction false} CorrectedSuggestsOnlyAcceptedNames()
    ensures |SUGGESTED_CORRECTED| == 2
    ensures TryFromCorrected(SUGGESTED_CORRECTED[0]) == Ok(Development)
    ensures TryFromCorrected(SUGGESTED_CORRECTED[1]) == Ok(Production)
  {
    ToLowerOfLower(AsStr(Development));
    ToLowerOfLower(AsStr(Production));
  }

  /** The correction changes only the advice: both parsers accept the same inputs as the same variants. */
  lemma CorrectionKeepsAcceptance(s: string, e: Environment)
    ensures TryFromCorrected(s) == Ok(e) <==> TryFrom(s) == Ok(e)
  {
  }
}
