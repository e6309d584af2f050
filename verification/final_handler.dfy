/**
 * The handler of the agent's `/final` action hook: on a failed completion it
 * speaks an apology (quoting the retry delay when the failure is a rate limit)
 * and hangs up; in every case it answers the hook with `reply`.
 */
module FinalHandler {
  import opened Wrappers
  import opened Directives
  import opened RetryDelay

  /** The `error` object of a completion event. */
  datatype AgentError = AgentError(code: Option<string>, message: Option<string>)

  /** The payload of the `/final` hook. */
  datatype CompletionEvent = CompletionEvent(reason: Option<string>, error: Option<AgentError>)

  const FailureReasons: seq<string> := ["server failure", "server error"]
  const RateLimitCode: string := "rate_limit_exceeded"
  const RateLimitPrefix: string := "Sorry, you have exceeded your open AI rate limits. "
  const GenericErrorText: string := "Sorry, there was an error processing your request."

  predicate IsFailure(evt: CompletionEvent) {
    evt.reason.Some? && evt.reason.value in FailureReasons
  }

  /** The handler reads `evt.error.code` on the failure branch, which throws
      when the event carries no error object. */
  predicate Handleable(evt: CompletionEvent) {
    IsFailure(evt) ==> evt.error.Some?
  }

  /** The text a regular expression searches when given `message`: an absent
      message is converted to the string "undefined". */
  function MessageText(message: Option<string>): string {
    message.GetOr("undefined")
  }

  /** The sentence that quotes a retry delay of `d` seconds. */
  function RetrySentence(d: string): string {
    "Please try again in " + d + " seconds."
  }

  /** Neither the apology nor the apology followed by "Please " holds or ends
      in the start of "try again in". */
  lemma RateLimitPrefixIsClean()
    ensures NoTr(RateLimitPrefix + "Please ")
    ensures NoTr(RateLimitPrefix)
  {
    var w1, w2, w3 := "Sorry, you ", "have exceeded ", "your open AI ";
    var w4, w5 := "rate limits. ", "Please ";
    assert RateLimitPrefix == w1 + w2 + w3 + w4;
    NoTrAppend(w1, w2);
    NoTrAppend(w1 + w2, w3);
    NoTrAppend(w1 + w2 + w3, w4);
    NoTrAppend(RateLimitPrefix, w5);
  }

  /** The rate-limit apology: it always opens with RateLimitPrefix, and the delay
      it quotes is exactly the delay the message announces (none when the
      message announces none). */
  function RateLimitText(message: Option<string>): (text: string)
    ensures |RateLimitPrefix| <= |text| && text[..|RateLimitPrefix|] == RateLimitPrefix
    ensures Delay(text) == Delay(MessageText(message))
  {
    match Exec(MessageText(message))
    case None =>
      RateLimitPrefixIsClean();
      NoTrNoMatch(RateLimitPrefix);
      RateLimitPrefix
    case Some(c) =>
      var lead := RateLimitPrefix + "Please ";
      var text := RateLimitPrefix + RetrySentence(c.digits);
      assert text == lead + Marker + c.digits + " seconds.";
      RateLimitPrefixIsClean();
      ExecFindsDelayAfter(lead, c.digits, " seconds.");
      text
  }

  /** What is said before hanging up on a failed completion. */
  function SpeechFor(err: AgentError): string {
    if err.code == Some(RateLimitCode) then RateLimitText(err.message) else GenericErrorText
  }

  /** The directives issued for one `/final` notification. */
  function OnFinal(evt: CompletionEvent): (ds: seq<Directive>)
    requires Handleable(evt)
    ensures 0 < |ds| && ds[|ds| - 1] == Reply
    ensures multiset(ds)[Reply] == 1
    ensures Hangup in ds <==> IsFailure(evt)
    ensures IsFailure(evt) ==> |ds| == 3 && ds[0].Say? && ds[1] == Hangup
    ensures !IsFailure(evt) ==> ds == [Reply]
    ensures forall k :: 0 <= k < |ds| ==> !ds[k].SendToolOutput? && !ds[k].Llm?
  {
    if IsFailure(evt) then [Say(SpeechFor(evt.error.value)), Hangup, Reply] else [Reply]
  }

  /** A special case of RateLimitSpeech for a message built from its parts:
      a prefix with no "tr" that does not end in "t", the marker, the digits and
      a rest that does not start with a digit. It is the step from which
      RateLimitExample follows. */
  lemma RateLimitQuotesDelay(evt: CompletionEvent, p: string, d: string, rest: string)
    requires IsFailure(evt) && evt.error.Some?
    requires evt.error.value.code == Some(RateLimitCode)
    requires evt.error.value.message == Some(p + Marker + d + rest)
    requires NoTr(p) && (|p| == 0 || p[|p| - 1] != 't')
    requires 0 < |d| && AllDigits(d)
    requires |rest| == 0 || !IsDigit(rest[0])
    ensures OnFinal(evt) == [Say(RateLimitPrefix + RetrySentence(d)), Hangup, Reply]
  {
    ExecFindsDelayAfter(p, d, rest);
  }

  /** Whatever text precedes it, the leftmost "try again in <digits>" of a
      rate-limit message is quoted, digits verbatim, before hanging up. */
  lemma RateLimitSpeech(evt: CompletionEvent, i: int, d: string)
    requires IsFailure(evt) && evt.error.Some?
    requires evt.error.value.code == Some(RateLimitCode)
    requires IsCapture(MessageText(evt.error.value.message), i, d)
    ensures OnFinal(evt) == [Say(RateLimitPrefix + RetrySentence(d)), Hangup, Reply]
  {
    var s := MessageText(evt.error.value.message);
    var c := Exec(s).value;
    CaptureUnique(s, c.at, c.digits, i, d);
  }

  /** The concrete case: a rate-limit failure saying "try again in 42 seconds"
      is answered with a quote of 42 seconds. */
  lemma RateLimitExample(evt: CompletionEvent)
    requires evt.reason == Some("server error")
    requires evt.error == Some(AgentError(Some(RateLimitCode), Some("try again in 42 seconds")))
    ensures OnFinal(evt)
      == [Say("Sorry, you have exceeded your open AI rate limits. Please try again in 42 seconds."), Hangup, Reply]
  {
    assert evt.error.value.message.value == "" + Marker + "42" + " seconds";
    assert AllDigits("42");
    RateLimitQuotesDelay(evt, "", "42", " seconds");
    ApologyFor42();
  }

  lemma ApologyFor42()
    ensures RateLimitPrefix + RetrySentence("42")
      == "Sorry, you have exceeded your open AI rate limits. Please try again in 42 seconds."
  {
  }

  /** A rate-limit failure whose message announces no delay gets the bare apology,
      trailing space included. */
  lemma RateLimitWithoutDelay(evt: CompletionEvent)
    requires IsFailure(evt) && evt.error.Some?
    requires evt.error.value.code == Some(RateLimitCode)
    requires forall i :: !MatchesAt(MessageText(evt.error.value.message), i)
    ensures OnFinal(evt) == [Say(RateLimitPrefix), Hangup, Reply]
  {
  }

  /** Any other failure code, or none, gets the generic apology. */
  lemma OtherFailureSpeech(evt: CompletionEvent)
    requires IsFailure(evt) && evt.error.Some?
    requires evt.error.value.code != Some(RateLimitCode)
    ensures OnFinal(evt) == [Say(GenericErrorText), Hangup, Reply]
  {
  }
}
