/** The command palette: opened by Ctrl/Cmd+K or the launcher, closed by
    Escape, the backdrop or the end of a submit's feedback; a submit emits
    the lower-cased input through its intent callback. The page never
    mounts the palette, so that callback reaches no router; the lemmas at
    the end say how the page's router would classify each tag if it did. */
module CommandBar {
  import opened JsText
  import App

  /** The quick-pick tags under the input. */
  const Tags: seq<string> := ["Services", "Leads", "Cases", "Tech", "Contact", "Logic"]

  /** The prefix of the confirmation shown after a submit. */
  const FeedbackPrefix: string := "System re-ordered for: \""

  /** A key press: the key name and the two modifier flags. */
  datatype KeyEvent = KeyEvent(key: string, metaKey: bool, ctrlKey: bool)

  /** The confirmation shown after a submit: it quotes the input as typed,
      case and all. */
  function Feedback(input: string): (text: string)
    ensures |text| == |FeedbackPrefix| + |input| + 1
    ensures text[..|FeedbackPrefix|] == FeedbackPrefix
    ensures text[|FeedbackPrefix|..|FeedbackPrefix| + |input|] == input
    ensures text[|text| - 1] == '"'
  {
    var text := FeedbackPrefix + (input + "\"");
    assert text[|FeedbackPrefix|..][..|input|] == input;
    text
  }

  class Palette {
    var isOpen: bool
    var input: string
    var feedback: string

    constructor ()
      ensures !isOpen && input == "" && feedback == ""
    {
      isOpen := false;
      input := "";
      feedback := "";
    }

    /** The window key listener: Ctrl/Cmd+K toggles the palette, Escape
        closes it, any other key leaves it alone. */
    method KeyDown(e: KeyEvent)
      modifies this
      ensures (e.metaKey || e.ctrlKey) && e.key == "k" ==> isOpen == !old(isOpen)
      ensures e.key == "Escape" ==> !isOpen
      ensures !((e.metaKey || e.ctrlKey) && e.key == "k") && e.key != "Escape" ==> isOpen == old(isOpen)
      ensures input == old(input) && feedback == old(feedback)
    {
      if (e.metaKey || e.ctrlKey) && e.key == "k" {
        isOpen := !isOpen;
      }
      if e.key == "Escape" {
        isOpen := false;
      }
    }

    /** The launcher button opens the palette. */
    method OpenLauncher()
      modifies this
      ensures isOpen && input == old(input) && feedback == old(feedback)
    {
      isOpen := true;
    }

    /** A click on the backdrop closes it. */
    method ClickBackdrop()
      modifies this
      ensures !isOpen && input == old(input) && feedback == old(feedback)
    {
      isOpen := false;
    }

    /** Typing into the input. */
    method SetInput(value: string)
      modifies this
      ensures input == value && isOpen == old(isOpen) && feedback == old(feedback)
    {
      input := value;
    }

    /** A tag button puts exactly its text into the input. */
    method SelectTag(k: nat)
      requires k < |Tags|
      modifies this
      ensures input == Tags[k] && isOpen == old(isOpen) && feedback == old(feedback)
    {
      input := Tags[k];
    }

    /** The accepted part of a submit: the intent to emit, the quoting
        feedback and the cleared input. */
    method Emit() returns (lowered: string)
      modifies this
      ensures lowered == ToLower(old(input))
      ensures feedback == Feedback(old(input)) && input == "" && isOpen == old(isOpen)
    {
      lowered := ToLower(input);
      feedback := Feedback(input);
      input := "";
    }

    /** A submit. A blank input changes nothing and emits no intent.
        Otherwise the lower-cased input is emitted once (returned), the
        feedback quotes the input as typed and the input is cleared. */
    method HandleSubmit() returns (intent: Option<string>)
      modifies this
      ensures Trim(old(input)) == "" ==>
        intent.None? && input == old(input) && feedback == old(feedback) && isOpen == old(isOpen)
      ensures Trim(old(input)) != "" ==>
        && intent == Some(ToLower(old(input)))
        && feedback == Feedback(old(input))
        && input == "" && isOpen == old(isOpen)
    {
      if Trim(input) == "" {
        return None;
      }
      var lowered := Emit();
      intent := Some(lowered);
    }

    /** The delayed callback after a submit: the feedback clears and the
        palette closes. */
    method FeedbackTimeout()
      modifies this
      ensures feedback == "" && !isOpen && input == old(input)
    {
      feedback := "";
      isOpen := false;
    }
  }

  /** Were the palette wired to the page, the "Services" tag would bring
      the services forward. */
  lemma ServicesTagMovesServices()
    ensures App.Classify(ToLower(Tags[0])) == App.MoveToFront(App.Services)
  {
    App.LowerLiteral("Services", "services");
    ServicesTagClassifies();
  }

  /** Were the palette wired to the page, the "Leads" tag would bring
      lead generation forward. */
  lemma LeadsTagMovesLeadGen()
    ensures App.Classify(ToLower(Tags[1])) == App.MoveToFront(App.LeadGen)
  {
    App.LowerLiteral("Leads", "leads");
    assert OccursAt("leads", "lead", 0);
  }

  /** Were the palette wired to the page, the "Contact" tag would bring
      the contact section forward. */
  lemma ContactTagMovesContact()
    ensures App.Classify(ToLower(Tags[4])) == App.MoveToFront(App.Contact)
  {
    App.LowerLiteral("Contact", "contact");
    App.ContactMentionsOnlyContact();
  }

  lemma ServicesTagClassifies()
    ensures App.Classify("services") == App.MoveToFront(App.Services)
  {
    MissingCharNotContained("services", "lead", 0);
    MissingCharNotContained("services", "gen", 0);
    MissingCharNotContained("services", "poc", 0);
    assert OccursAt("services", "service", 0);
  }

  /** "Cases", "Tech" and "Logic" hold no keyword: the page's router would
      leave the section order as it is for them. */
  lemma InertTagsKeepOrder()
    ensures App.Classify(ToLower(Tags[2])) == App.Keep
    ensures App.Classify(ToLower(Tags[3])) == App.Keep
    ensures App.Classify(ToLower(Tags[5])) == App.Keep
  {
    App.LowerLiteral("Cases", "cases");
    CasesIsSilent();
    App.LowerLiteral("Tech", "tech");
    TechIsSilent();
    App.LowerLiteral("Logic", "logic");
    LogicIsSilent();
  }

  lemma CasesIsSilent()
    ensures !App.MentionsAny("cases") && !Contains("cases", "reset")
  {
    var s := "cases";
    MissingCharNotContained(s, "lead", 0);
    MissingCharNotContained(s, "gen", 0);
    MissingCharNotContained(s, "poc", 0);
    MissingCharNotContained(s, "service", 2);
    MissingCharNotContained(s, "work", 0);
    MissingCharNotContained(s, "capabilities", 2);
    MissingCharNotContained(s, "rag", 0);
    MissingCharNotContained(s, "visualizer", 0);
    MissingCharNotContained(s, "roadmap", 0);
    MissingCharNotContained(s, "process", 0);
    MissingCharNotContained(s, "contact", 1);
    MissingCharNotContained(s, "hire", 0);
    MissingCharNotContained(s, "reset", 0);
  }

  lemma TechIsSilent()
    ensures !App.MentionsAny("tech") && !Contains("tech", "reset")
  {
    var s := "tech";
    MissingCharNotContained(s, "lead", 0);
    MissingCharNotContained(s, "gen", 0);
    MissingCharNotContained(s, "poc", 0);
    MissingCharNotContained(s, "service", 0);
    MissingCharNotContained(s, "work", 0);
    MissingCharNotContained(s, "capabilities", 2);
    MissingCharNotContained(s, "rag", 0);
    MissingCharNotContained(s, "visualizer", 0);
    MissingCharNotContained(s, "roadmap", 0);
    MissingCharNotContained(s, "process", 0);
    MissingCharNotContained(s, "contact", 1);
    MissingCharNotContained(s, "hire", 1);
    MissingCharNotContained(s, "reset", 0);
  }

  lemma LogicIsSilent()
    ensures !App.MentionsAny("logic") && !Contains("logic", "reset")
  {
    var s := "logic";
    MissingCharNotContained(s, "lead", 1);
    MissingCharNotContained(s, "gen", 1);
    MissingCharNotContained(s, "poc", 0);
    MissingCharNotContained(s, "service", 0);
    MissingCharNotContained(s, "work", 0);
    MissingCharNotContained(s, "capabilities", 2);
    MissingCharNotContained(s, "rag", 0);
    MissingCharNotContained(s, "visualizer", 0);
    MissingCharNotContained(s, "roadmap", 0);
    MissingCharNotContained(s, "process", 0);
    MissingCharNotContained(s, "contact", 3);
    MissingCharNotContained(s, "hire", 0);
    MissingCharNotContained(s, "reset", 0);
  }
}
