/** The retrieval pipeline animation: a stage marker cycling through the
    four stages while the simulation runs, and the counters shown beside
    it. Each random draw is an integer parameter in the range its floor
    produces. */
module RagVisualizer {

  /** The stage shown when the simulation is off. */
  const Stopped: int := -1
  /** The index of the last stage (LLM). */
  const LastStage: int := 3
  const InitialVectors: nat := 1240582

  datatype Stats = Stats(vectors: nat, latency: nat, tokens: nat, throughput: nat)

  const InitialStats: Stats := Stats(InitialVectors, 0, 0, 0)

  /** The stage after `s`: the next one, wrapping after the last. */
  function NextStage(s: int): (next: int)
    ensures s < LastStage ==> next == s + 1
    ensures s >= LastStage ==> next == 0
  {
    if s < LastStage then s + 1 else 0
  }

  /** From any stage or the stopped marker, the next stage is a real stage;
      and four ticks bring every stage back to itself. */
  lemma StageCycle(s: int)
    requires Stopped <= s <= LastStage
    ensures 0 <= NextStage(s) <= LastStage
    ensures 0 <= s ==> NextStage(NextStage(NextStage(NextStage(s)))) == s
  {
  }

  /** No stage other than itself comes back sooner than four ticks. */
  lemma CycleIsFour(s: int)
    requires 0 <= s <= LastStage
    ensures NextStage(s) != s
    ensures NextStage(NextStage(s)) != s
    ensures NextStage(NextStage(NextStage(s))) != s
  {
  }

  /** Where the flow marker sits, in percent of the bar. */
  function MarkerPercent(stage: int): (pct: nat)
    ensures stage == 0 ==> pct == 5
    ensures stage == 1 ==> pct == 30
    ensures stage == 2 ==> pct == 55
    ensures !(0 <= stage <= 2) ==> pct == 80
  {
    if stage == 0 then 5 else if stage == 1 then 30 else if stage == 2 then 55 else 80
  }

  /** The marker moves forward along the bar through the stages. */
  lemma MarkerAdvances(s: int)
    requires 0 <= s < LastStage
    ensures MarkerPercent(s) < MarkerPercent(NextStage(s))
  {
  }

  /** The counters a tick sets: the vector count grows by the draw in
      0..4, latency is 12 plus a draw in 0..44, the token count grows by 50
      plus a draw in 0..149, throughput is 85 plus a draw in 0..14. */
  function TickStats(prev: Stats, dVectors: nat, dLatency: nat, dTokens: nat, dThroughput: nat): (next: Stats)
    requires dVectors < 5 && dLatency < 45 && dTokens < 150 && dThroughput < 15
    ensures prev.vectors <= next.vectors <= prev.vectors + 4
    ensures 12 <= next.latency <= 56
    ensures prev.tokens + 50 <= next.tokens <= prev.tokens + 199
    ensures 85 <= next.throughput <= 99
  {
    Stats(prev.vectors + dVectors, 12 + dLatency, prev.tokens + (dTokens + 50), 85 + dThroughput)
  }

  /** The counters between ticks: the vector count never below its start,
      latency and throughput either cleared or in the range a tick sets. */
  predicate StatsInRange(s: Stats) {
    && s.vectors >= InitialVectors
    && (s.latency == 0 || 12 <= s.latency <= 56)
    && (s.throughput == 0 || 85 <= s.throughput <= 99)
  }

  class Visualizer {
    var activeStage: int
    var isSimulating: bool
    var stats: Stats

    ghost predicate Valid()
      reads this
    {
      Stopped <= activeStage <= LastStage && StatsInRange(stats)
    }

    /** The initial state, followed by the effect's first run on mount:
        with the simulation off that is the stop branch, so no stage is
        shown. */
    constructor ()
      ensures Valid() && activeStage == Stopped && !isSimulating
      ensures stats == InitialStats
    {
      activeStage := 0;
      isSimulating := false;
      stats := InitialStats;
      new;
      // the mount run of the effect
      Stop();
    }

    /** The effect's branch with the simulation off (also run on mount):
        the stage marker is hidden and latency and throughput are cleared;
        the vector and token counts stay. */
    method Stop()
      requires Valid()
      modifies this
      ensures Valid()
      ensures activeStage == Stopped
      ensures stats == old(stats).(latency := 0, throughput := 0)
      ensures isSimulating == old(isSimulating)
    {
      activeStage := Stopped;
      stats := stats.(latency := 0, throughput := 0);
    }

    /** The toggle button; switching off runs the stop branch at once,
        switching on leaves everything to the ticks. */
    method Toggle()
      requires Valid()
      modifies this
      ensures Valid()
      ensures isSimulating == !old(isSimulating)
      ensures isSimulating ==> activeStage == old(activeStage) && stats == old(stats)
      ensures !isSimulating ==> activeStage == Stopped && stats == old(stats).(latency := 0, throughput := 0)
    {
      isSimulating := !isSimulating;
      if !isSimulating {
        Stop();
      }
    }

    /** One interval tick while simulating: the next stage and fresh
        counters from the four draws. */
    method Tick(dVectors: nat, dLatency: nat, dTokens: nat, dThroughput: nat)
      requires Valid() && isSimulating
      requires dVectors < 5 && dLatency < 45 && dTokens < 150 && dThroughput < 15
      modifies this
      ensures Valid()
      ensures activeStage == NextStage(old(activeStage)) && 0 <= activeStage
      ensures stats == TickStats(old(stats), dVectors, dLatency, dTokens, dThroughput)
      ensures stats.tokens > old(stats.tokens) && stats.vectors >= old(stats.vectors)
      ensures isSimulating
    {
      activeStage := if activeStage < LastStage then activeStage + 1 else 0;
      stats := Stats(stats.vectors + dVectors, 12 + dLatency, stats.tokens + (dTokens + 50), 85 + dThroughput);
    }
  }
}
