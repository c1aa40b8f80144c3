/** The proof-of-concept playground: one query box, two modes, and an
    execute action that shows either the insights returned or a failure
    message. */
module PocPlayground {
  import opened JsText
  import opened Types
  import opened GeminiService

  /** Lead automation takes a target URL; the competitor audit a company. */
  datatype Mode = Lead | Competitor

  /** What the insight request does: it answers with an optional text, or
      the SDK call throws. */
  datatype InsightOutcome = Answered(text: Option<string>) | Threw

  const ExecutionFailed: string := "EXECUTION_FAILED: System handshake interrupted. Please retry."

  /** The request each mode sends for a query. */
  function InsightRequest(m: Mode, query: string): (r: Request)
    ensures r.config.responseSchema == Some(InsightSchema)
    ensures GoogleSearch in r.config.tools <==> m == Competitor
    ensures m == Lead ==> r.contents == PromptText(LeadIntel(query))
    ensures m == Competitor ==> r.contents == PromptText(CompetitiveAudit(query))
  {
    match m
    case Lead => LeadInsightsRequest(query)
    case Competitor => CompetitorAnalysisRequest(query)
  }

  class Playground {
    var query: string
    var mode: Mode
    var loading: bool
    var results: Option<seq<Insight>>
    var error: Option<string>

    /** Between handlers nothing is loading, and results and an error are
        never shown together. */
    ghost predicate Valid()
      reads this
    {
      !loading && !(results.Some? && error.Some?)
    }

    constructor ()
      ensures Valid()
      ensures query == "" && mode == Competitor && !loading && results.None? && error.None?
    {
      query := "";
      mode := Competitor;
      loading := false;
      results := None;
      error := None;
    }

    /** Typing into the query box. */
    method SetQuery(value: string)
      requires Valid()
      modifies this
      ensures Valid()
      ensures query == value
      ensures mode == old(mode) && results == old(results) && error == old(error)
    {
      query := value;
    }

    /** A mode button: the mode is set, the results and the query cleared;
        an error on screen stays. */
    method SwitchMode(m: Mode)
      requires Valid()
      modifies this
      ensures Valid()
      ensures mode == m && results.None? && query == "" && error == old(error)
    {
      mode := m;
      results := None;
      query := "";
    }

    /** The try block and its catch: the request the mode selects goes
        out, then the parsed insights or the failure message is set. */
    method Dispatch(outcome: InsightOutcome, parse: string -> Option<seq<Insight>>)
      returns (request: Option<Request>)
      requires results.None? && error.None?
      modifies this
      ensures query == old(query) && mode == old(mode) && loading == old(loading)
      ensures request == Some(InsightRequest(mode, query))
      ensures outcome.Answered? ==> results == Some(ParseInsights(outcome.text, parse)) && error.None?
      ensures outcome.Threw? ==> results.None? && error == Some(ExecutionFailed)
    {
      var data: seq<Insight> := [];
      if mode == Lead {
        request := Some(LeadInsightsRequest(query));
        assert request == Some(InsightRequest(mode, query));
      } else {
        request := Some(CompetitorAnalysisRequest(query));
        assert request == Some(InsightRequest(mode, query));
      }
      match outcome {
        case Answered(text) =>
          data := ParseInsights(text, parse);
          results := Some(data);
        case Threw =>
          error := Some(ExecutionFailed);
      }
    }

    /** Execute. An empty query does nothing (a blank one is sent as it
        is). Otherwise exactly one request goes out, chosen by the mode
        (returned), the results and the error are cleared first, and
        afterwards either the parsed insights or the failure message is
        shown, never both. */
    method HandleExecute(outcome: InsightOutcome, parse: string -> Option<seq<Insight>>)
      returns (request: Option<Request>)
      requires Valid()
      modifies this
      ensures Valid()
      ensures query == old(query) && mode == old(mode)
      ensures old(query) == "" ==> request.None? && results == old(results) && error == old(error)
      ensures old(query) != "" ==>
        && request == Some(InsightRequest(mode, query))
        && (outcome.Answered? ==> results == Some(ParseInsights(outcome.text, parse)) && error.None?)
        && (outcome.Threw? ==> results.None? && error == Some(ExecutionFailed))
    {
      if query == "" {
        return None;
      }
      loading := true;
      error := None;
      results := None;

      request := Dispatch(outcome, parse);
      loading := false;
    }
  }
}
