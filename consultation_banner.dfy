/** The consultation banner: a countdown of open slots that wraps around,
    and the mail-compose link of its booking button. */
module ConsultationBanner {

  /** The value the countdown starts from and wraps back to. */
  const Top: nat := 124
  const Email: string := "divyanshd666@gmail.com"
  /** The compose link up to the subject parameter. */
  const ComposePrefix: string := "https://mail.google.com/mail/?view=cm&fs=1&to=" + Email + "&su="

  /** One tick of the countdown: down by one, wrapping from 1 to the top. */
  function NextTime(t: int): (next: int)
    ensures t > 1 ==> next == t - 1
    ensures t <= 1 ==> next == Top
  {
    if t > 1 then t - 1 else Top
  }

  /** The countdown after `n` ticks from `t`. */
  function Ticks(t: int, n: nat): int {
    if n == 0 then t else NextTime(Ticks(t, n - 1))
  }

  /** Ticks keep the countdown within 1..124. */
  lemma {:induction false} TicksStayInRange(t: int, n: nat)
    requires 1 <= t <= Top
    ensures 1 <= Ticks(t, n) <= Top
  {
    if n > 0 {
      TicksStayInRange(t, n - 1);
    }
  }

  /** From the top the countdown falls by one per tick. */
  lemma {:induction false} CountdownFromTop(n: nat)
    requires n < Top
    ensures Ticks(Top, n) == Top - n
  {
    if n > 0 {
      CountdownFromTop(n - 1);
    }
  }

  /** The countdown has period exactly 124: it is back at the top after
      124 ticks and not before. */
  lemma PeriodIsTop()
    ensures Ticks(Top, Top) == Top
    ensures forall n :: 0 < n < Top ==> Ticks(Top, n) != Top
  {
    CountdownFromTop(Top - 1);
    forall n | 0 < n < Top ensures Ticks(Top, n) != Top {
      CountdownFromTop(n);
    }
  }

  /** The open-slot count shown: the countdown divided by ten, rounded
      down. */
  function Slots(t: nat): (slots: nat)
    ensures slots * 10 <= t < slots * 10 + 10
  {
    t / 10
  }

  /** Within the countdown's range the count is 0..12, and 12 at the top. */
  lemma SlotsBounded(t: nat)
    requires 1 <= t <= Top
    ensures 0 <= Slots(t) <= 12
    ensures Slots(Top) == 12
  {
  }

  /** The compose link for an already-encoded subject: it addresses the
      fixed mailbox and carries the subject unchanged at its end. */
  function BookingUrl(encodedSubject: string): (url: string)
    ensures |url| == |ComposePrefix| + |encodedSubject|
    ensures url[..|ComposePrefix|] == ComposePrefix
    ensures url[|ComposePrefix|..] == encodedSubject
  {
    ComposePrefix + encodedSubject
  }

  class Banner {
    var timeLeft: nat
    /** The number of ticks so far. */
    ghost var elapsed: nat

    ghost predicate Valid()
      reads this
    {
      timeLeft == Ticks(Top, elapsed) && 1 <= timeLeft <= Top
    }

    constructor ()
      ensures Valid() && timeLeft == Top && elapsed == 0 && Slots(timeLeft) == 12
    {
      timeLeft := Top;
      elapsed := 0;
    }

    /** One interval tick of the countdown. */
    method Tick()
      requires Valid()
      modifies this
      ensures Valid()
      ensures timeLeft == NextTime(old(timeLeft)) && elapsed == old(elapsed) + 1
      ensures 0 <= Slots(timeLeft) <= 12
    {
      timeLeft := if timeLeft > 1 then timeLeft - 1 else Top;
      elapsed := elapsed + 1;
    }
  }
}
