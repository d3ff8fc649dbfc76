/**
 * KillAuraCheck: on every player-versus-player hit, an attack less than
 * 50 ms after the previous one and an attack on a target more than 60
 * degrees off the look direction each add one to a single counter; a
 * normal-paced or on-target attack takes one off. The counter never resets
 * on a flag. The frequency test flags once the prior count is 5, the aim
 * test once it is 3, so one hit can flag twice.
 */
module KillAura {
  import opened Util
  import opened Config
  import opened Suspicion
  import opened Checks

  /** isLookingAtTarget: the angle, in degrees, between the look direction and the target's centre is at most 60. */
  predicate IsLookingAtTarget(angle: real)
  {
    angle <= 60.0
  }

  class KillAuraCheck {
    const check: Check
    var attackViolations: map<Uuid, nat>
    var lastAttackTime: map<Uuid, int>

    constructor (categoryConfig: Option<CheckConfig>)
      ensures fresh(check) && check.name == "KillAura" && check.checkType == "combat"
      ensures attackViolations == map[] && lastAttackTime == map[]
    {
      check := new Check("KillAura", "combat", categoryConfig);
      attackViolations, lastAttackTime := map[], map[];
    }

    predicate Skips(p: Actor, targetIsPlayer: bool)
      reads check
    {
      !check.enabled || p.bypass || !targetIsPlayer
    }

    /**
     * checkKillAura. angle is the angle between the attacker's look direction
     * and the vector from their eyes to the target's centre.
     */
    method CheckKillAura(p: Actor, targetIsPlayer: bool, angle: real, now: int) returns (flags: nat)
      modifies this`attackViolations, this`lastAttackTime
      ensures Skips(p, targetIsPlayer) ==> unchanged(this) && flags == 0
      ensures !Skips(p, targetIsPlayer) ==> lastAttackTime == old(lastAttackTime)[p.id := now]
      ensures !Skips(p, targetIsPlayer) ==>
        var t0 := Tally(old(attackViolations), 0);
        var t1 := if p.id in old(lastAttackTime) then Nudge(t0, p.id, now - old(lastAttackTime)[p.id] < 50, 5) else t0;
        var t := Nudge(t1, p.id, !IsLookingAtTarget(angle), 3);
        attackViolations == t.counts && flags == t.flags
    {
      flags := 0;
      if Skips(p, targetIsPlayer) {
        return;
      }
      if p.id in lastAttackTime {
        var timeSinceLastAttack := now - lastAttackTime[p.id];
        var currentViolations := Count(attackViolations, p.id);
        if timeSinceLastAttack < 50 {
          attackViolations := attackViolations[p.id := currentViolations + 1];
          if currentViolations >= 5 {
            flags := flags + 1;
          }
        } else {
          attackViolations := attackViolations[p.id := Max(0, currentViolations as int - 1)];
        }
      }
      lastAttackTime := lastAttackTime[p.id := now];
      var currentViolations := Count(attackViolations, p.id);
      if !IsLookingAtTarget(angle) {
        attackViolations := attackViolations[p.id := currentViolations + 1];
        if currentViolations >= 3 {
          flags := flags + 1;
        }
      } else {
        attackViolations := attackViolations[p.id := Max(0, currentViolations as int - 1)];
      }
    }
  }

  /**
   * One KillAura hit on the counter alone: the frequency step (when there
   * was a previous attack) and then the aim step.
   */
  function Hit(count: nat, hadPrevious: bool, rapid: bool, looking: bool): Run
  {
    var s1 := if hadPrevious then Sticky(count, rapid, 5) else Step(count, false);
    var s2 := Sticky(s1.count, !looking, 3);
    Run(s2.count, (if s1.flagged then 1 else 0) + (if s2.flagged then 1 else 0))
  }

  /** The two Nudge steps of checkKillAura move u's counter and the flag count exactly as Hit does. */
  lemma HitMatchesCheck(t0: Tally, u: Uuid, hadPrevious: bool, rapid: bool, looking: bool)
    ensures var t1 := if hadPrevious then Nudge(t0, u, rapid, 5) else t0;
      var t := Nudge(t1, u, !looking, 3);
      var h := Hit(Count(t0.counts, u), hadPrevious, rapid, looking);
      t.counts == t0.counts[u := h.count] && t.flags == t0.flags + h.flags
  {
  }

  /** n hits that are each rapid and off-target, after a first one. */
  function BlindRapidHits(count: nat, n: nat): Run
    decreases n
  {
    if n == 0 then Run(count, 0)
    else
      var h := Hit(count, true, true, false);
      var rest := BlindRapidHits(h.count, n - 1);
      Run(rest.count, rest.flags + h.flags)
  }

  /** A normal-paced, on-target hit takes the counter down by two (floored at 0) and never flags. */
  lemma CleanHitDecays(count: nat)
    ensures Hit(count, true, false, true) == Run(Max(0, count - 2), 0)
  {
  }

  /** A rapid, off-target hit raises the counter by two. */
  lemma BlindRapidHitRaisesByTwo(count: nat)
    ensures Hit(count, true, true, false).count == count + 2
    ensures Hit(count, true, true, false).flags == (if count >= 5 then 1 else 0) + (if count + 1 >= 3 then 1 else 0)
  {
  }

  /** Above the frequency limit, n rapid off-target hits raise the counter by 2n and flag twice each. */
  lemma {:induction false} BlindRapidHitsClosedForm(c: nat, n: nat)
    ensures BlindRapidHits(c, n).count == c + 2 * n
    ensures c >= 5 ==> BlindRapidHits(c, n).flags == 2 * n
    decreases n
  {
    if n > 0 {
      BlindRapidHitsClosedForm(c + 2, n - 1);
    }
  }

  /**
   * From a clear counter, n >= 3 rapid off-target hits end at 2n: the
   * first flags nothing, the second and third flag the aim test only, and
   * every later one flags both tests, 2n - 4 flags in all.
   */
  lemma BlindRapidHitsFromZero(n: nat)
    requires n >= 3
    ensures BlindRapidHits(0, n) == Run(2 * n, 2 * n - 4)
  {
    BlindRapidHitsClosedForm(6, n - 3);
    assert Hit(0, true, true, false) == Run(2, 0);
    assert Hit(2, true, true, false) == Run(4, 1);
    assert Hit(4, true, true, false) == Run(6, 1);
    var tail := BlindRapidHits(6, n - 3);
    assert BlindRapidHits(4, n - 2) == Run(tail.count, tail.flags + 1);
    assert BlindRapidHits(2, n - 1) == Run(tail.count, tail.flags + 2);
  }
}
