/** The hero terminal: a rolling window of system log lines, one added
    per interval tick, and the typewriter that reveals each line. */
module TerminalHero {
  import opened JsText

  /** The alphabet of the transient character the typewriter shows. */
  const ScrambleChars: string := "0123456789ABCDEF!@#$%^&*<>[]"

  /** The log lines, cycled through one per tick. */
  const SystemMessages: seq<string> := [
    "[SYSTEM] BOOTING_CORE_CAPT_v5.0.4...",
    "[NETWORK] ESTABLISHING SECURE TUNNEL...",
    "[AGENT] DEPLOYING SCRAPER #402...",
    "[RAG] INDEXING KNOWLEDGE GRAPHS...",
    "[SYSTEM] STATUS: OPTIMIZED | 14ms",
    "[AI] LLM_ORCHESTRATOR: READY"
  ]

  /** How many earlier entries a tick keeps. */
  const Kept: nat := 6

  datatype LogEntry = LogEntry(id: nat, text: string)

  /** `prev.slice(-6)`: the last six entries, or all of them when there are
      fewer. */
  function LastSix(prev: seq<LogEntry>): (r: seq<LogEntry>)
    ensures |r| == if |prev| < Kept then |prev| else Kept
    ensures r == prev[|prev| - |r|..]
  {
    if |prev| <= Kept then prev else prev[|prev| - Kept..]
  }

  /** The entry the tick numbered `k` (from 0) adds, cycling through
      `messages`. */
  function EntryOf(messages: seq<string>, k: nat): LogEntry
    requires |messages| > 0
  {
    LogEntry(k, messages[k % |messages|])
  }

  /** The log after `n` ticks from the empty log: the entries of the last
      `min(n, 7)` ticks, oldest first. */
  function Window(messages: seq<string>, n: nat): (w: seq<LogEntry>)
    requires |messages| > 0
    ensures |w| == if n <= Kept then n else Kept + 1
    ensures forall k :: 0 <= k < |w| ==> w[k] == EntryOf(messages, n - |w| + k)
  {
    var len := if n <= Kept then n else Kept + 1;
    seq(len, k requires 0 <= k < len => EntryOf(messages, n - len + k))
  }

  /** A tick maps the window after `n` ticks to the window after `n + 1`:
      dropping all but the last six entries and appending the entry of
      tick `n` is the same as the closed form. */
  lemma WindowStep(messages: seq<string>, n: nat)
    requires |messages| > 0
    ensures LastSix(Window(messages, n)) + [EntryOf(messages, n)] == Window(messages, n + 1)
  {
    var prev := Window(messages, n);
    var kept := LastSix(prev);
    var w := kept + [EntryOf(messages, n)];
    var next := Window(messages, n + 1);
    assert |w| == |next|;
    assert |next| == |kept| + 1;
    forall k | 0 <= k < |w| ensures w[k] == next[k] {
      var tick := n - |kept| + k;
      assert next[k] == EntryOf(messages, tick);
      if k < |kept| {
        var p := |prev| - |kept| + k;
        assert w[k] == prev[p];
        assert prev[p] == EntryOf(messages, tick);
      }
    }
  }

  /** Ids in the window strictly increase from oldest to newest. */
  lemma IdsIncrease(messages: seq<string>, n: nat)
    requires |messages| > 0
    ensures forall a, b :: 0 <= a < b < |Window(messages, n)| ==>
      Window(messages, n)[a].id < Window(messages, n)[b].id
  {
  }

  /** The rolling log of the hero. */
  class HeroLog {
    var logs: seq<LogEntry>
    /** The id counter. */
    var nextId: nat
    /** The tick counter that picks the message. */
    var i: nat

    ghost predicate Valid()
      reads this
    {
      nextId == i && logs == Window(SystemMessages, i)
    }

    constructor ()
      ensures Valid() && logs == [] && i == 0
    {
      logs := [];
      nextId := 0;
      i := 0;
    }

    /** One interval tick: the last six entries are kept in order and one
        new entry, with the next id and the next message, goes last. */
    method Tick()
      requires Valid()
      modifies this
      ensures Valid()
      ensures logs == LastSix(old(logs)) + [LogEntry(old(nextId), SystemMessages[old(i) % |SystemMessages|])]
      ensures |logs| <= Kept + 1
      ensures nextId == old(nextId) + 1 && i == old(i) + 1
    {
      WindowStep(SystemMessages, i);
      logs := LastSix(logs) + [LogEntry(nextId, SystemMessages[i % |SystemMessages|])];
      nextId := nextId + 1;
      i := i + 1;
    }
  }

  /** The typewriter of one log line. Between steps the display is the
      revealed prefix of the text. */
  class DecryptingLog {
    const text: string
    var displayText: string
    var isComplete: bool
    var index: nat

    ghost predicate Valid()
      reads this
    {
      && index <= |text|
      && displayText == text[..index]
      && (isComplete ==> index == |text|)
    }

    constructor (text: string)
      ensures Valid() && this.text == text && displayText == "" && !isComplete && index == 0
    {
      this.text := text;
      displayText := "";
      isComplete := false;
      index := 0;
    }

    /** One `typeNextChar` with the settle that follows it. While text
        remains, the display first shows the revealed prefix and the
        random character `ScrambleChars[pick]` (returned), then settles on
        a prefix one longer. Once the whole text is shown, the line is
        complete. */
    method Step(pick: nat) returns (transient: Option<string>)
      requires Valid()
      requires pick < |ScrambleChars|
      modifies this
      ensures Valid()
      ensures old(index) < |text| ==>
        && transient == Some(text[..old(index)] + [ScrambleChars[pick]])
        && index == old(index) + 1 && isComplete == old(isComplete)
      ensures old(index) == |text| ==>
        transient.None? && isComplete && index == old(index) && displayText == old(displayText)
      ensures isComplete ==> displayText == text
    {
      if index < |text| {
        var randomChar := ScrambleChars[pick];
        displayText := text[..index] + [randomChar];
        transient := Some(displayText);
        displayText := text[..index + 1];
        index := index + 1;
      } else {
        transient := None;
        isComplete := true;
      }
    }
  }
}
