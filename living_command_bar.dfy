/** The fixed header: the scramble-reveal effect of its nav labels, the
    scroll threshold that shrinks it, and the intents its buttons emit. */
module LivingCommandBar {

  /** The alphabet scrambled positions are drawn from. */
  const Chars: string := "0123456789ABCDEF!@#$%^&*"

  /** The nav buttons, each emitting its own label as the intent. */
  const NavItems: seq<string> := ["Capabilities", "Protocols", "Launch"]

  /** The intent the call-to-action button emits. */
  const CtaIntent: string := "contact"

  /** The scroll offset beyond which the header counts as scrolled. */
  const ScrollThreshold: real := 50.0

  /** The label a nav button scrambles: its item behind a slash. */
  function NavLabel(item: string): (caption: string)
    ensures |caption| == |item| + 1 && caption[0] == '/' && caption[1..] == item
  {
    "/" + item
  }

  /** One frame of the scramble: position `i` shows `text[i]` once
      `i < iteration`, and otherwise the character of `Chars` that the
      random pick `picks[i]` selects. */
  function Frame(text: string, iteration: real, picks: seq<nat>): (frame: string)
    requires |picks| == |text|
    requires forall i :: 0 <= i < |picks| ==> picks[i] < |Chars|
    ensures |frame| == |text|
    ensures forall i :: 0 <= i < |text| && (i as real) < iteration ==> frame[i] == text[i]
    ensures forall i :: 0 <= i < |text| && !((i as real) < iteration) ==> frame[i] in Chars
    ensures (|text| as real) <= iteration ==> frame == text
  {
    seq(|text|, i requires 0 <= i < |text| => if (i as real) < iteration then text[i] else Chars[picks[i]])
  }

  /** The label of one nav button and its scramble interval. */
  class ScrambleText {
    const text: string
    var displayText: string
    /** How far the reveal has got; grows by one half per tick. */
    var iteration: real
    /** Whether the interval is registered. */
    var running: bool

    ghost predicate Valid()
      reads this
    {
      0.0 <= iteration && |displayText| == |text|
    }

    constructor (text: string)
      ensures Valid() && this.text == text && displayText == text && !running && iteration == 0.0
    {
      this.text := text;
      displayText := text;
      iteration := 0.0;
      running := false;
    }

    /** `startScramble` (mouse enter): any running interval is cleared and a
        fresh one starts from iteration 0. */
    method StartScramble()
      requires Valid()
      modifies this
      ensures Valid() && running && iteration == 0.0 && displayText == old(displayText)
    {
      iteration := 0.0;
      running := true;
    }

    /** One interval callback: shows the frame for the current iteration,
        clears the interval once the iteration has reached the length (that
        frame being the text itself), and advances by one half. */
    method Tick(picks: seq<nat>)
      requires Valid() && running
      requires |picks| == |text|
      requires forall i :: 0 <= i < |picks| ==> picks[i] < |Chars|
      modifies this
      ensures Valid()
      ensures displayText == Frame(text, old(iteration), picks)
      ensures running <==> old(iteration) < |text| as real
      ensures !running ==> displayText == text
      ensures iteration == old(iteration) + 0.5
    {
      displayText := Frame(text, iteration, picks);
      if iteration >= |text| as real {
        running := false;
      }
      iteration := iteration + 0.5;
    }
  }

  /** The header state that depends on scrolling. */
  class Header {
    var scrolled: bool

    constructor ()
      ensures !scrolled
    {
      scrolled := false;
    }

    /** The scroll listener; the offset is a fractional pixel count. */
    method OnScroll(scrollY: real)
      modifies this
      ensures scrolled <==> scrollY > ScrollThreshold
    {
      scrolled := scrollY > ScrollThreshold;
    }
  }
}
