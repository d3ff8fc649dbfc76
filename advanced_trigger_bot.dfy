/**
 * AdvancedTriggerBotCheck: one record per attacker keeps the time of the
 * last attack, the last reaction time (the gap between two attacks), a
 * ten-slot ring buffer of recent reaction times and four sub-check
 * counters. Every player-versus-player hit updates the record and runs
 * the reaction, aim, rhythm and distance tests in that order; each may
 * flag. The first three counters reset on a clean sample and keep counting
 * after a flag; the distance counter only grows.
 */
module AdvancedTriggerBot {
  import opened Util
  import opened Config
  import opened Suspicion
  import opened Checks

  /** The length of recentAttacks. */
  const BufferSize: nat := 10

  // ---------------------------------------------------------------------
  // calculateVariance
  // ---------------------------------------------------------------------

  /** Java's long division, which truncates toward zero. */
  function JavaDiv(a: int, b: int): int
    requires b > 0
  {
    if a >= 0 then a / b else -((-a) / b)
  }

  function Sum(s: seq<int>): int
  {
    if |s| == 0 then 0 else Sum(s[..|s| - 1]) + s[|s| - 1]
  }

  function SquaredDeviations(s: seq<int>, mean: int): int
  {
    if |s| == 0 then 0 else SquaredDeviations(s[..|s| - 1], mean) + (s[|s| - 1] - mean) * (s[|s| - 1] - mean)
  }

  /**
   * The integer variance of calculateVariance: integer mean, integer sum of
   * squares, integer quotient. It is never negative, and 0 for fewer than two samples.
   */
  function Variance(s: seq<int>): (v: int)
    ensures v >= 0
    ensures |s| < 2 ==> v == 0
  {
    if |s| < 2 then 0
    else
      SquaredDeviationsNonNegative(s, JavaDiv(Sum(s), |s|));
      JavaDiv(SquaredDeviations(s, JavaDiv(Sum(s), |s|)), |s|)
  }

  /** calculateVariance, with its two accumulator loops. */
  method CalculateVariance(attacks: array<int>) returns (variance: int)
    ensures variance == Variance(attacks[..])
  {
    if attacks.Length < 2 {
      return 0;
    }
    var sum := 0;
    var i := 0;
    while i < attacks.Length
      invariant 0 <= i <= attacks.Length
      invariant sum == Sum(attacks[..i])
    {
      assert attacks[..i + 1][..i] == attacks[..i];
      sum := sum + attacks[i];
      i := i + 1;
    }
    assert attacks[..attacks.Length] == attacks[..];
    var mean := JavaDiv(sum, attacks.Length);
    variance := 0;
    i := 0;
    while i < attacks.Length
      invariant 0 <= i <= attacks.Length
      invariant variance == SquaredDeviations(attacks[..i], mean)
    {
      assert attacks[..i + 1][..i] == attacks[..i];
      variance := variance + (attacks[i] - mean) * (attacks[i] - mean);
      i := i + 1;
    }
    assert attacks[..attacks.Length] == attacks[..];
    variance := JavaDiv(variance, attacks.Length);
  }

  lemma SquareNonNegative(d: int)
    ensures d * d >= 0
  {
    if d < 0 {
      assert d * d == (-d) * (-d);
    }
  }

  lemma {:induction false} SquaredDeviationsNonNegative(s: seq<int>, mean: int)
    ensures SquaredDeviations(s, mean) >= 0
    decreases |s|
  {
    if |s| > 0 {
      SquaredDeviationsNonNegative(s[..|s| - 1], mean);
      SquareNonNegative(s[|s| - 1] - mean);
    }
  }

  lemma {:induction false} SumConstant(s: seq<int>, c: int)
    requires forall k :: 0 <= k < |s| ==> s[k] == c
    ensures Sum(s) == |s| * c
    decreases |s|
  {
    if |s| > 0 {
      SumConstant(s[..|s| - 1], c);
      assert (|s| - 1) * c + c == |s| * c;
    }
  }

  lemma {:induction false} SquaredDeviationsConstant(s: seq<int>, c: int)
    requires forall k :: 0 <= k < |s| ==> s[k] == c
    ensures SquaredDeviations(s, c) == 0
    decreases |s|
  {
    if |s| > 0 {
      SquaredDeviationsConstant(s[..|s| - 1], c);
    }
  }

  /** n * c divided by n, truncating, is c. */
  lemma JavaDivMultiple(n: nat, c: int)
    requires n > 0
    ensures JavaDiv(n * c, n) == c
  {
    if c >= 0 {
      DivMultiple(n, c);
    } else {
      assert n * c == -(n * (-c));
      DivMultiple(n, -c);
    }
  }

  lemma DivMultiple(n: nat, c: nat)
    requires n > 0
    ensures (n * c) / n == c
  {
    var q, r := (n * c) / n, (n * c) % n;
    assert n * (c - q) == r;
    MulSign(n, c - q);
  }

  lemma MulSign(n: nat, k: int)
    requires n > 0
    ensures k >= 1 ==> n * k >= n
    ensures k <= -1 ==> n * k <= -(n as int)
  {
    assert n * k - n == n * (k - 1);
    assert n * k + n == n * (k + 1);
  }

  /** Attacks at a perfectly even rhythm have variance 0. */
  lemma ConstantRhythmHasNoVariance(s: seq<int>, c: int)
    requires forall k :: 0 <= k < |s| ==> s[k] == c
    ensures Variance(s) == 0
  {
    if |s| >= 2 {
      SumConstant(s, c);
      JavaDivMultiple(|s|, c);
      SquaredDeviationsConstant(s, c);
    }
  }

  // ---------------------------------------------------------------------
  // The per-attacker record, as a value
  // ---------------------------------------------------------------------

  /** The fields of TriggerBotData, with the buffer's contents. */
  datatype Record = Record(lastAttackTime: int, lastReactionTime: int, suspiciousReactions: nat,
                           perfectAims: nat, consistentPatterns: nat, optimalDistanceAttacks: nat,
                           totalAttacks: nat, recentAttacks: seq<int>, attackIndex: nat)

  /** The shape a record always has: ten slots, an index inside them, and no more optimal attacks than attacks. */
  predicate WellFormed(r: Record)
  {
    |r.recentAttacks| == BufferSize && r.attackIndex < BufferSize && r.optimalDistanceAttacks <= r.totalAttacks
  }

  /** A new TriggerBotData: every field zero. */
  function Initial(): (r: Record)
    ensures WellFormed(r)
  {
    Record(0, 0, 0, 0, 0, 0, 0, seq(BufferSize, _ => 0), 0)
  }

  /**
   * updateAttack: the reaction time is the gap since the last attack, kept
   * from before when there was none; it goes into the current slot and the
   * index moves on by one modulo ten.
   */
  function Updated(r: Record, now: int): (u: Record)
    requires WellFormed(r)
    ensures WellFormed(u)
    ensures u.lastAttackTime == now && u.totalAttacks == r.totalAttacks + 1
    ensures u.suspiciousReactions == r.suspiciousReactions && u.perfectAims == r.perfectAims
    ensures u.consistentPatterns == r.consistentPatterns && u.optimalDistanceAttacks == r.optimalDistanceAttacks
  {
    var reaction := if r.lastAttackTime > 0 then now - r.lastAttackTime else r.lastReactionTime;
    r.(lastReactionTime := reaction, lastAttackTime := now, totalAttacks := r.totalAttacks + 1,
       recentAttacks := r.recentAttacks[r.attackIndex := reaction],
       attackIndex := (r.attackIndex + 1) % BufferSize)
  }

  /** A record after one sub-check, with the number of flag() calls it made. */
  datatype Outcome = Outcome(record: Record, flags: nat)

  function Flags(b: bool): nat
  {
    if b then 1 else 0
  }

  /** checkReactionTime: a reaction under 50 ms is suspicious; the third in a row flags. */
  function ReactionStep(r: Record): Outcome
  {
    var s := Streak(r.suspiciousReactions, r.lastReactionTime < 50, 3);
    Outcome(r.(suspiciousReactions := s.count), Flags(s.flagged))
  }

  /** checkAimPrecision: an aim under 1 degree off the target's centre is suspicious; the fifth in a row flags. */
  function AimStep(r: Record, angle: real): Outcome
  {
    var s := Streak(r.perfectAims, angle < 1.0, 5);
    Outcome(r.(perfectAims := s.count), Flags(s.flagged))
  }

  /** checkAttackPattern: a buffer variance under 1000 is suspicious; the third in a row flags. */
  function PatternStep(r: Record): Outcome
  {
    if |r.recentAttacks| >= 3 then
      var s := Streak(r.consistentPatterns, Variance(r.recentAttacks) < 1000, 3);
      Outcome(r.(consistentPatterns := s.count), Flags(s.flagged))
    else Outcome(r, 0)
  }

  /** Feet-to-feet distance between 2.5 and 3.5 blocks, compared squared. */
  predicate OptimalDistance(distanceSquared: real)
  {
    Square(2.5) <= distanceSquared <= Square(3.5)
  }

  /** (double) optimal / total > 0.8. */
  predicate MostlyOptimal(optimal: nat, total: nat)
  {
    total > 0 && optimal as real / total as real > 0.8
  }

  /**
   * checkTargetTracking: an attack at the optimal distance is counted, and
   * flags once ten are counted and they are more than 80% of all attacks.
   */
  function TrackStep(r: Record, distanceSquared: real): Outcome
  {
    if OptimalDistance(distanceSquared) then
      var optimal := r.optimalDistanceAttacks + 1;
      Outcome(r.(optimalDistanceAttacks := optimal), Flags(optimal >= 10 && MostlyOptimal(optimal, r.totalAttacks)))
    else Outcome(r, 0)
  }

  /** checkTriggerBot after the lookup: update, then the four sub-checks in order. */
  function Attack(r: Record, now: int, angle: real, distanceSquared: real): (o: Outcome)
    requires WellFormed(r)
    ensures WellFormed(o.record)
    ensures o.record.totalAttacks == r.totalAttacks + 1 && o.record.lastAttackTime == now
    ensures o.flags <= 4
  {
    var u := Updated(r, now);
    var a := ReactionStep(u);
    var b := AimStep(a.record, angle);
    var c := PatternStep(b.record);
    var d := TrackStep(c.record, distanceSquared);
    Outcome(d.record, a.flags + b.flags + c.flags + d.flags)
  }

  // ---------------------------------------------------------------------
  // The imperative record and detector
  // ---------------------------------------------------------------------

  class TriggerBotData {
    var lastAttackTime: int
    var lastReactionTime: int
    var suspiciousReactions: nat
    var perfectAims: nat
    var consistentPatterns: nat
    var optimalDistanceAttacks: nat
    var totalAttacks: nat
    const recentAttacks: array<int>
    var attackIndex: nat

    function State(): Record
      reads this, recentAttacks
    {
      Record(lastAttackTime, lastReactionTime, suspiciousReactions, perfectAims, consistentPatterns,
             optimalDistanceAttacks, totalAttacks, recentAttacks[..], attackIndex)
    }

    ghost predicate Valid()
      reads this, recentAttacks
    {
      WellFormed(State())
    }

    constructor ()
      ensures Valid() && State() == Initial()
      ensures fresh(recentAttacks)
    {
      lastAttackTime, lastReactionTime := 0, 0;
      suspiciousReactions, perfectAims, consistentPatterns := 0, 0, 0;
      optimalDistanceAttacks, totalAttacks := 0, 0;
      recentAttacks := new int[BufferSize](_ => 0);
      attackIndex := 0;
    }

    /** updateAttack; only slot attackIndex of the buffer is written. */
    method UpdateAttack(now: int)
      requires Valid()
      modifies this, recentAttacks
      ensures Valid() && State() == Updated(old(State()), now)
    {
      if lastAttackTime > 0 {
        lastReactionTime := now - lastAttackTime;
      }
      lastAttackTime := now;
      totalAttacks := totalAttacks + 1;
      recentAttacks[attackIndex] := lastReactionTime;
      attackIndex := (attackIndex + 1) % recentAttacks.Length;
    }
  }

  class AdvancedTriggerBotCheck {
    const check: Check
    var playerData: map<Uuid, TriggerBotData>

    constructor (categoryConfig: Option<CheckConfig>)
      ensures fresh(check) && check.name == "AdvancedTriggerBot" && check.checkType == "combat"
      ensures playerData == map[] && Valid()
    {
      check := new Check("AdvancedTriggerBot", "combat", categoryConfig);
      playerData := map[];
    }

    /** Every record is well formed, and no two players share a record or a buffer. */
    ghost predicate Valid()
      reads this, playerData.Values, set d | d in playerData.Values :: d.recentAttacks
    {
      (forall u :: u in playerData ==> playerData[u].Valid())
      && (forall u, v :: u in playerData && v in playerData && u != v ==>
            playerData[u] != playerData[v] && playerData[u].recentAttacks != playerData[v].recentAttacks)
    }

    /** The objects an attack by u may change. */
    function Footprint(u: Uuid): set<object>
      reads this
    {
      if u in playerData then {playerData[u], playerData[u].recentAttacks} else {}
    }

    predicate Skips(p: Actor, targetIsPlayer: bool)
      reads check
    {
      !check.enabled || p.bypass || !targetIsPlayer
    }

    method CheckReactionTime(d: TriggerBotData) returns (flags: nat)
      modifies d`suspiciousReactions
      ensures Outcome(d.State(), flags) == ReactionStep(old(d.State()))
    {
      var reactionTime := d.lastReactionTime;
      flags := 0;
      if reactionTime < 50 {
        d.suspiciousReactions := d.suspiciousReactions + 1;
        if d.suspiciousReactions >= 3 {
          flags := 1;
        }
      } else {
        d.suspiciousReactions := 0;
      }
    }

    /** angle is the angle in degrees between the look direction and the target's centre. */
    method CheckAimPrecision(d: TriggerBotData, angle: real) returns (flags: nat)
      modifies d`perfectAims
      ensures Outcome(d.State(), flags) == AimStep(old(d.State()), angle)
    {
      flags := 0;
      if angle < 1.0 {
        d.perfectAims := d.perfectAims + 1;
        if d.perfectAims >= 5 {
          flags := 1;
        }
      } else {
        d.perfectAims := 0;
      }
    }

    method CheckAttackPattern(d: TriggerBotData) returns (flags: nat)
      modifies d`consistentPatterns
      ensures Outcome(d.State(), flags) == PatternStep(old(d.State()))
    {
      flags := 0;
      if d.recentAttacks.Length >= 3 {
        var variance := CalculateVariance(d.recentAttacks);
        if variance < 1000 {
          d.consistentPatterns := d.consistentPatterns + 1;
          if d.consistentPatterns >= 3 {
            flags := 1;
          }
        } else {
          d.consistentPatterns := 0;
        }
      }
    }

    method CheckTargetTracking(d: TriggerBotData, distanceSquared: real) returns (flags: nat)
      modifies d`optimalDistanceAttacks
      ensures Outcome(d.State(), flags) == TrackStep(old(d.State()), distanceSquared)
    {
      flags := 0;
      if OptimalDistance(distanceSquared) {
        d.optimalDistanceAttacks := d.optimalDistanceAttacks + 1;
        if d.optimalDistanceAttacks >= 10 {
          if MostlyOptimal(d.optimalDistanceAttacks, d.totalAttacks) {
            flags := 1;
          }
        }
      }
    }

    /** The record of u before an attack: the stored one, or a new one. */
    ghost function Prior(u: Uuid): Record
      reads this, playerData.Values, set d | d in playerData.Values :: d.recentAttacks
    {
      if u in playerData then playerData[u].State() else Initial()
    }

    /**
     * checkTriggerBot. targetLocation is the target's feet location; the
     * distance test measures from the attacker's feet.
     */
    method CheckTriggerBot(p: Actor, targetIsPlayer: bool, angle: real, targetLocation: Location, now: int)
      returns (flags: nat)
      requires Valid()
      modifies this, Footprint(p.id)
      ensures Valid()
      ensures Skips(p, targetIsPlayer) ==> playerData == old(playerData) && flags == 0
      ensures !Skips(p, targetIsPlayer) ==>
        p.id in playerData && playerData == old(playerData)[p.id := playerData[p.id]]
        && (p.id in old(playerData) ==> playerData[p.id] == old(playerData)[p.id])
      ensures !Skips(p, targetIsPlayer) ==>
        var o := Attack(old(Prior(p.id)), now, angle, DistanceSquared(p.location, targetLocation));
        playerData[p.id].State() == o.record && flags == o.flags
    {
      flags := 0;
      if Skips(p, targetIsPlayer) {
        return;
      }
      var data: TriggerBotData;
      if p.id in playerData {
        data := playerData[p.id];
      } else {
        data := new TriggerBotData();
        playerData := playerData[p.id := data];
      }
      ghost var prior := data.State();
      assert WellFormed(prior);
      data.UpdateAttack(now);
      var f1 := CheckReactionTime(data);
      var f2 := CheckAimPrecision(data, angle);
      var f3 := CheckAttackPattern(data);
      var f4 := CheckTargetTracking(data, DistanceSquared(p.location, targetLocation));
      flags := f1 + f2 + f3 + f4;
      assert data.Valid();
    }
  }

  // ---------------------------------------------------------------------
  // Properties
  // ---------------------------------------------------------------------

  /** The reaction time changes only when there was an earlier attack. */
  lemma ReactionTimeRule(r: Record, now: int)
    requires WellFormed(r)
    ensures r.lastAttackTime > 0 ==> Updated(r, now).lastReactionTime == now - r.lastAttackTime
    ensures r.lastAttackTime <= 0 ==> Updated(r, now).lastReactionTime == r.lastReactionTime
    ensures Updated(r, now).lastAttackTime == now
  {
  }

  /** The slot last written for index j by a history of reaction times, 0 when none was. */
  function RingSlot(h: seq<int>, j: nat): int
  {
    if |h| == 0 then 0
    else if (|h| - 1) % BufferSize == j then h[|h| - 1]
    else RingSlot(h[..|h| - 1], j)
  }

  /** The buffer after recording the history h into a zeroed one. */
  function Ring(h: seq<int>): seq<int>
  {
    seq(BufferSize, j requires 0 <= j => RingSlot(h, j))
  }

  /** r holds the history h of reaction times: its buffer is Ring(h) and its index |h| mod 10. */
  predicate Holds(r: Record, h: seq<int>)
  {
    r.recentAttacks == Ring(h) && r.attackIndex == |h| % BufferSize
  }

  /** A new record holds the empty history. */
  lemma InitialHoldsNothing()
    ensures Holds(Initial(), [])
  {
    assert Initial().recentAttacks == Ring([]);
  }

  /** updateAttack records exactly the new reaction time into the ring: the invariant is kept. */
  lemma {:induction false} UpdatedRecords(r: Record, h: seq<int>, now: int)
    requires WellFormed(r) && Holds(r, h)
    ensures Holds(Updated(r, now), h + [Updated(r, now).lastReactionTime])
  {
    var x := Updated(r, now).lastReactionTime;
    var h' := h + [x];
    assert h'[..|h'| - 1] == h;
    forall j | 0 <= j < BufferSize
      ensures Updated(r, now).recentAttacks[j] == Ring(h')[j]
    {
      assert Ring(h')[j] == RingSlot(h', j);
      assert Ring(h)[j] == RingSlot(h, j);
    }
  }

  lemma DistinctResidues(a: nat, b: nat)
    requires b < a < b + BufferSize
    ensures a % BufferSize != b % BufferSize
  {
  }

  /** Each of the last ten recorded reaction times sits in its slot. */
  lemma {:induction false} RingSlotRecent(h: seq<int>, i: nat)
    requires i < |h| < i + 1 + BufferSize
    ensures RingSlot(h, i % BufferSize) == h[i]
    decreases |h|
  {
    if i < |h| - 1 {
      DistinctResidues(|h| - 1, i);
      RingSlotRecent(h[..|h| - 1], i);
    }
  }

  /** A record holding history h keeps its last ten reaction times, each at index i mod 10. */
  lemma BufferHoldsLastTen(r: Record, h: seq<int>)
    requires Holds(r, h)
    ensures forall i :: 0 <= i < |h| && |h| <= i + BufferSize ==> r.recentAttacks[i % BufferSize] == h[i]
  {
    forall i | 0 <= i < |h| && |h| <= i + BufferSize
      ensures r.recentAttacks[i % BufferSize] == h[i]
    {
      RingSlotRecent(h, i);
    }
  }

  /**
   * The first attack on a new record is taken as a 0 ms reaction, and the
   * all-zero buffer as a perfectly even rhythm: both counters start at 1.
   */
  lemma FirstAttackLooksRobotic(now: int, angle: real, distanceSquared: real)
    ensures Attack(Initial(), now, angle, distanceSquared).record.suspiciousReactions == 1
    ensures Attack(Initial(), now, angle, distanceSquared).record.consistentPatterns == 1
  {
    var u := Updated(Initial(), now);
    ConstantRhythmHasNoVariance(u.recentAttacks, 0);
  }

  /** A buffer of equal reaction times always counts as a consistent pattern. */
  lemma EvenRhythmIsSuspicious(r: Record, c: int)
    requires |r.recentAttacks| >= 3 && forall k :: 0 <= k < |r.recentAttacks| ==> r.recentAttacks[k] == c
    ensures PatternStep(r).record.consistentPatterns == r.consistentPatterns + 1
    ensures PatternStep(r).flags == Flags(r.consistentPatterns + 1 >= 3)
  {
    ConstantRhythmHasNoVariance(r.recentAttacks, c);
  }

  /** The ratio test without division: more than 80% means 5 * optimal > 4 * total. */
  lemma MostlyOptimalByCounts(optimal: nat, total: nat)
    requires total > 0
    ensures MostlyOptimal(optimal, total) <==> 5 * optimal > 4 * total
  {
    var o, t := optimal as real, total as real;
    var q := o / t;
    assert q * t == o;
    assert MostlyOptimal(optimal, total) <==> q - 0.8 > 0.0;
    assert (q - 0.8) * t == o - 0.8 * t;
    PositiveFactor(q - 0.8, t);
    assert q - 0.8 > 0.0 <==> o - 0.8 * t > 0.0;
    assert o - 0.8 * t > 0.0 <==> 5.0 * o > 4.0 * t;
    assert (5 * optimal) as real == 5.0 * o && (4 * total) as real == 4.0 * t;
  }

  lemma PositiveFactor(x: real, t: real)
    requires t > 0.0
    ensures x * t > 0.0 <==> x > 0.0
  {
    if x > 0.0 {
      assert x * t > 0.0;
    } else {
      assert x * t == -((-x) * t);
      assert (-x) * t >= 0.0;
    }
  }

  /** The distance test flags only from the tenth optimal attack on, and only above a 4 : 1 ratio. */
  lemma TrackingNeedsTen(r: Record, distanceSquared: real)
    requires WellFormed(r) && r.totalAttacks > 0
    ensures TrackStep(r, distanceSquared).flags == 1 ==>
      r.optimalDistanceAttacks + 1 >= 10 && 5 * (r.optimalDistanceAttacks + 1) > 4 * r.totalAttacks
  {
    MostlyOptimalByCounts(r.optimalDistanceAttacks + 1, r.totalAttacks);
  }
}
