/**
 * The counter policies the detectors use, isolated as pure steps so that
 * their long-run behaviour can be stated once. Each step takes the stored
 * count and returns the new count together with whether flag() is called.
 *
 *  - Accumulate: add one, flag when the new count reaches the threshold,
 *    then reset to 0 (AutoAnchor, AutoCrystal, CrystalAura, Simulation,
 *    AutoTotem).
 *  - Sticky: on a suspicious sample flag if the count BEFORE the increment
 *    is at the limit, then add one; on a clean sample subtract one, floored
 *    at 0; never reset (Speed, Reach, Fly, KillAura, TriggerBot).
 *  - Streak: on a suspicious sample add one and flag if the new count is at
 *    the threshold; a clean sample resets to 0 (AdvancedTriggerBot).
 */
module Suspicion {
  import opened Util

  datatype Step = Step(count: nat, flagged: bool)

  function Accumulate(count: nat, threshold: int): (r: Step)
    ensures r.flagged <==> count + 1 >= threshold
    ensures r.flagged ==> r.count == 0
    ensures !r.flagged ==> r.count == count + 1
    ensures threshold >= 1 ==> r.count < threshold
  {
    if count + 1 >= threshold then Step(0, true) else Step(count + 1, false)
  }

  function Sticky(count: nat, suspicious: bool, limit: int): (r: Step)
    ensures suspicious ==> r.count == count + 1 && (r.flagged <==> count >= limit)
    ensures !suspicious ==> !r.flagged && r.count == Max(0, count - 1)
  {
    if suspicious then Step(count + 1, count >= limit)
    else Step(if count == 0 then 0 else count - 1, false)
  }

  function Streak(count: nat, suspicious: bool, threshold: int): (r: Step)
    ensures suspicious ==> r.count == count + 1 && (r.flagged <==> count + 1 >= threshold)
    ensures !suspicious ==> r == Step(0, false)
  {
    if suspicious then Step(count + 1, count + 1 >= threshold) else Step(0, false)
  }

  /** Outcome of a run of steps: final count and number of flag() calls. */
  datatype Run = Run(count: nat, flags: nat)

  /** k suspicious samples in a row under the Accumulate policy. */
  function AccumulateRun(count: nat, threshold: int, k: nat): Run
    decreases k
  {
    if k == 0 then Run(count, 0)
    else
      var s := Accumulate(count, threshold);
      var rest := AccumulateRun(s.count, threshold, k - 1);
      Run(rest.count, rest.flags + (if s.flagged then 1 else 0))
  }

  /**
   * Starting from a count below the threshold t, k suspicious samples flag
   * q times and leave the count at r, where c + k = q * t + r and r < t:
   * that is, q = (c + k) div t and r = (c + k) mod t.
   */
  lemma {:induction false} AccumulateRunClosedForm(c: nat, t: nat, k: nat)
    requires 1 <= t && c < t
    ensures c + k == AccumulateRun(c, t, k).flags * t + AccumulateRun(c, t, k).count
    ensures AccumulateRun(c, t, k).count < t
    decreases k
  {
    if k > 0 {
      var s := Accumulate(c, t);
      AccumulateRunClosedForm(s.count, t, k - 1);
      var rest := AccumulateRun(s.count, t, k - 1);
      if c + 1 >= t {
        assert (rest.flags + 1) * t == rest.flags * t + t;
      }
    }
  }

  /** The threshold-3 accumulator: a flag on every third suspicious sample. */
  lemma AccumulateEveryThird()
    ensures AccumulateRun(0, 3, 3) == Run(0, 1)
    ensures AccumulateRun(0, 3, 2) == Run(2, 0)
    ensures AccumulateRun(0, 3, 7) == Run(1, 2)
  {
    AccumulateRunClosedForm(0, 3, 3);
    AccumulateRunClosedForm(0, 3, 2);
    AccumulateRunClosedForm(0, 3, 7);
  }

  /** k suspicious samples in a row under the Sticky policy. */
  function StickyRun(count: nat, limit: nat, k: nat): Run
    decreases k
  {
    if k == 0 then Run(count, 0)
    else
      var s := Sticky(count, true, limit);
      var rest := StickyRun(s.count, limit, k - 1);
      Run(rest.count, rest.flags + (if s.flagged then 1 else 0))
  }

  /**
   * Sticky never resets: k suspicious samples from count c end at c + k and
   * flag once for every sample whose prior count was already at the limit.
   */
  lemma {:induction false} StickyRunClosedForm(c: nat, limit: nat, k: nat)
    ensures StickyRun(c, limit, k).count == c + k
    ensures StickyRun(c, limit, k).flags == Max(0, c + k - Max(c, limit))
    decreases k
  {
    if k > 0 {
      StickyRunClosedForm(c + 1, limit, k - 1);
    }
  }

  /** Once at the limit, every further suspicious sample flags. */
  lemma StickyOnceOverAlwaysFlags(c: nat, limit: nat, k: nat)
    requires c >= limit
    ensures StickyRun(c, limit, k).flags == k
  {
    StickyRunClosedForm(c, limit, k);
  }

  /** The Sticky counter stays within one of its prior value and is never negative. */
  lemma StickyMovesByOne(c: nat, suspicious: bool, limit: int)
    ensures Sticky(c, suspicious, limit).count == c + 1 || Sticky(c, suspicious, limit).count + 1 == c
         || (c == 0 && Sticky(c, suspicious, limit).count == 0)
  {
  }

  /** After n suspicious samples and one clean one, a Sticky count started at 0 stands at n - 1. */
  lemma StickyDecaysAfterRun(n: nat, limit: nat)
    requires n >= 1
    ensures Sticky(StickyRun(0, limit, n).count, false, limit).count == n - 1
  {
    StickyRunClosedForm(0, limit, n);
  }

  /** k suspicious samples in a row under the Streak policy. */
  function StreakRun(count: nat, threshold: int, k: nat): Run
    decreases k
  {
    if k == 0 then Run(count, 0)
    else
      var s := Streak(count, true, threshold);
      var rest := StreakRun(s.count, threshold, k - 1);
      Run(rest.count, rest.flags + (if s.flagged then 1 else 0))
  }

  /**
   * Streak counters are not reset by flagging: k suspicious samples from c
   * end at c + k and flag once for each new count at or above the threshold.
   */
  lemma {:induction false} StreakRunClosedForm(c: nat, t: nat, k: nat)
    requires t >= 1
    ensures StreakRun(c, t, k).count == c + k
    ensures StreakRun(c, t, k).flags == Max(0, c + k - Max(c, t - 1))
    decreases k
  {
    if k > 0 {
      StreakRunClosedForm(c + 1, t, k - 1);
    }
  }

  /** The per-player counter map of a detector and the flag() calls made so far in one event. */
  datatype Tally = Tally(counts: map<Uuid, nat>, flags: nat)

  /** incrementSuspiciousActions when the sample is suspicious, nothing otherwise. */
  function Bump(t: Tally, u: Uuid, suspicious: bool, threshold: int): (r: Tally)
    ensures !suspicious ==> r == t
    ensures suspicious ==> u in r.counts && r.counts == t.counts[u := r.counts[u]]
    ensures r.flags == t.flags || r.flags == t.flags + 1
  {
    if !suspicious then t
    else
      var s := Accumulate(Count(t.counts, u), threshold);
      Tally(t.counts[u := s.count], t.flags + (if s.flagged then 1 else 0))
  }

  /** A Sticky-policy update of u's counter; clean samples write too. */
  function Nudge(t: Tally, u: Uuid, suspicious: bool, limit: int): (r: Tally)
    ensures u in r.counts && r.counts == t.counts[u := r.counts[u]]
    ensures r.flags == t.flags || r.flags == t.flags + 1
  {
    var s := Sticky(Count(t.counts, u), suspicious, limit);
    Tally(t.counts[u := s.count], t.flags + (if s.flagged then 1 else 0))
  }

  /** Every stored accumulator count is below the threshold. */
  predicate AllBelow(counts: map<Uuid, nat>, threshold: int)
  {
    forall u :: u in counts ==> counts[u] < threshold
  }

  /** With a threshold of at least 1, accumulating keeps every count below it. */
  lemma BumpKeepsBelow(t: Tally, u: Uuid, suspicious: bool, threshold: int)
    ensures threshold >= 1 && AllBelow(t.counts, threshold) ==>
      AllBelow(Bump(t, u, suspicious, threshold).counts, threshold)
  {
  }

  /** A bump flags exactly when u's count was one short of the threshold, and then clears it. */
  lemma BumpFlagsAtThreshold(t: Tally, u: Uuid, threshold: int)
    ensures var r := Bump(t, u, true, threshold);
      (r.flags == t.flags + 1 <==> Count(t.counts, u) + 1 >= threshold)
      && (r.flags == t.flags + 1 ==> r.counts[u] == 0)
  {
  }
}
