/** The onboarding chat form: a non-streaming exchange in which each
    accepted submit appends the user's line and then one agent line. */
module AgenticForm {
  import opened JsText
  import opened Types
  import opened GeminiService

  const Greeting: string :=
    "SYSTEM: INITIALIZING_ONBOARDING_AGENT... Hello. I'm the qualifying bot for Nexus AI. What technical project are you looking to architect?"
  /** The form's own fallback for an empty reply. */
  const ContinueFallback: string := "Understood. Please continue."
  const NetworkError: string := "NETWORK_ERROR. Please retry or contact hello@nexus.ai directly."

  /** What the agentic step request does: the model answers with an
      optional response text (the raw text, before the service's
      fallback), or the call throws. */
  datatype StepOutcome = Responded(text: Option<string>) | Threw

  /** The agent line appended after a submit. */
  function ReplyText(outcome: StepOutcome): (content: string)
    ensures content != ""
    ensures outcome.Threw? ==> content == NetworkError
    ensures outcome.Responded? ==> content == AgenticStepReply(outcome.text)
  {
    match outcome
    case Threw => NetworkError
    case Responded(text) =>
      var response := AgenticStepReply(text);
      if response == "" then ContinueFallback else response
  }

  /** The form's fallback never shows: an empty or absent response has
      already become the service's idle reply. */
  lemma EmptyResponseShowsIdleReply(text: Option<string>)
    requires text.None? || text.value == ""
    ensures ReplyText(Responded(text)) == IdleReply
    ensures ReplyText(Responded(text)) != ContinueFallback
  {
  }

  /** The transcript alternates, starting and ending with the agent. */
  predicate Alternates(messages: seq<ChatMessage>) {
    && |messages| % 2 == 1
    && forall i :: 0 <= i < |messages| ==> messages[i].role == (if i % 2 == 0 then Agent else User)
  }

  /** A submit keeps the transcript alternating. */
  lemma ExchangeAlternates(messages: seq<ChatMessage>, question: string, answer: string)
    requires Alternates(messages)
    ensures Alternates(messages + [ChatMessage(User, question), ChatMessage(Agent, answer)])
  {
    var ms := messages + [ChatMessage(User, question), ChatMessage(Agent, answer)];
    forall i | 0 <= i < |ms| ensures ms[i].role == (if i % 2 == 0 then Agent else User) {
      if i < |messages| {
        assert ms[i] == messages[i];
      }
    }
  }

  class OnboardingForm {
    var messages: seq<ChatMessage>
    var input: string
    var isTyping: bool

    ghost predicate Valid()
      reads this
    {
      Alternates(messages) && messages[0] == ChatMessage(Agent, Greeting)
    }

    constructor ()
      ensures Valid()
      ensures messages == [ChatMessage(Agent, Greeting)] && input == "" && !isTyping
    {
      messages := [ChatMessage(Agent, Greeting)];
      input := "";
      isTyping := false;
    }

    /** Typing into the input box. */
    method SetInput(value: string)
      modifies this
      ensures input == value && messages == old(messages) && isTyping == old(isTyping)
    {
      input := value;
    }

    /** A submit. With a blank input or a reply pending it changes nothing
        and sends nothing. Otherwise it clears the input, sends the earlier
        transcript followed by the user's raw line (the request is
        returned) and appends that line and exactly one agent line; no
        reply is pending afterwards. */
    method HandleSubmit(outcome: StepOutcome) returns (request: Option<Request>)
      requires Valid()
      modifies this
      ensures Valid()
      ensures Trim(old(input)) == "" || old(isTyping) ==>
        && request.None?
        && messages == old(messages) && input == old(input) && isTyping == old(isTyping)
      ensures !(Trim(old(input)) == "" || old(isTyping)) ==>
        && request == Some(AgenticStepRequest(old(messages) + [ChatMessage(User, old(input))]))
        && messages == old(messages) + [ChatMessage(User, old(input)), ChatMessage(Agent, ReplyText(outcome))]
        && input == "" && !isTyping
    {
      if Trim(input) == "" || isTyping {
        return None;
      }
      var userMsg := input;
      input := "";
      var history := messages + [ChatMessage(User, userMsg)];
      messages := messages + [ChatMessage(User, userMsg)];
      isTyping := true;
      request := Some(AgenticStepRequest(history));
      match outcome {
        case Responded(text) =>
          var response := AgenticStepReply(text);
          messages := messages + [ChatMessage(Agent, if response == "" then ContinueFallback else response)];
        case Threw =>
          messages := messages + [ChatMessage(Agent, NetworkError)];
      }
      isTyping := false;
      ExchangeAlternates(old(messages), userMsg, ReplyText(outcome));
      assert messages == old(messages) + [ChatMessage(User, userMsg), ChatMessage(Agent, ReplyText(outcome))];
    }
  }

  /** The request of an accepted submit carries the whole transcript in
      order, the agent's lines as model turns. */
  lemma SubmittedHistoryRecoverable(messages: seq<ChatMessage>, line: string)
    ensures var r := AgenticStepRequest(messages + [ChatMessage(User, line)]);
      && r.contents.Turns?
      && |r.contents.turns| == |messages| + 1
      && r.contents.turns[|messages|] == Content(UserTurn, [TextPart(line)])
  {
    var history := messages + [ChatMessage(User, line)];
    var r := AgenticStepRequest(history);
    assert FromContents(r.contents.turns) == history;
  }
}
