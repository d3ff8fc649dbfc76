/**
 * TriggerBotCheck: a trigger bot hits the moment the crosshair is on a
 * player. A hit with the target within 2 degrees of the look direction, less
 * than 50 ms after the previous such hit, adds one to the player's counter
 * and flags once the prior count is 5; a hit not aimed that precisely
 * takes one off. Only precisely aimed hits update the last-hit time.
 */
module TriggerBot {
  import opened Util
  import opened Config
  import opened Suspicion
  import opened Checks

  /** isLookingAtTarget here means aimed within 2 degrees of the target's centre. */
  predicate IsLookingAtTarget(angle: real)
  {
    angle < 2.0
  }

  class TriggerBotCheck {
    const check: Check
    var suspiciousHits: map<Uuid, nat>
    var lastHitTime: map<Uuid, int>

    constructor (categoryConfig: Option<CheckConfig>)
      ensures fresh(check) && check.name == "TriggerBot" && check.checkType == "combat"
      ensures suspiciousHits == map[] && lastHitTime == map[]
    {
      check := new Check("TriggerBot", "combat", categoryConfig);
      suspiciousHits, lastHitTime := map[], map[];
    }

    predicate Skips(p: Actor, targetIsPlayer: bool)
      reads check
    {
      !check.enabled || p.bypass || !targetIsPlayer
    }

    /** checkTriggerBot. angle is the angle between the look direction and the target's centre. */
    method CheckTriggerBot(p: Actor, targetIsPlayer: bool, angle: real, now: int) returns (flags: nat)
      modifies this`suspiciousHits, this`lastHitTime
      ensures Skips(p, targetIsPlayer) ==> unchanged(this) && flags == 0
      ensures !Skips(p, targetIsPlayer) && !IsLookingAtTarget(angle) ==>
        var t := Nudge(Tally(old(suspiciousHits), 0), p.id, false, 5);
        lastHitTime == old(lastHitTime) && suspiciousHits == t.counts && flags == 0
      ensures !Skips(p, targetIsPlayer) && IsLookingAtTarget(angle) ==>
        lastHitTime == old(lastHitTime)[p.id := now]
        && (if p.id in old(lastHitTime) && now - old(lastHitTime)[p.id] < 50
            then var t := Nudge(Tally(old(suspiciousHits), 0), p.id, true, 5);
                 suspiciousHits == t.counts && flags == t.flags
            else suspiciousHits == old(suspiciousHits) && flags == 0)
    {
      flags := 0;
      if Skips(p, targetIsPlayer) {
        return;
      }
      if IsLookingAtTarget(angle) {
        if p.id in lastHitTime {
          var timeSinceLastHit := now - lastHitTime[p.id];
          if timeSinceLastHit < 50 {
            var currentSuspicious := Count(suspiciousHits, p.id);
            suspiciousHits := suspiciousHits[p.id := currentSuspicious + 1];
            if currentSuspicious >= 5 {
              flags := 1;
            }
          }
        }
        lastHitTime := lastHitTime[p.id := now];
      } else {
        suspiciousHits := suspiciousHits[p.id := Max(0, Count(suspiciousHits, p.id) as int - 1)];
      }
    }
  }

  /**
   * A run of n precise hits each under 50 ms after the previous one, from a
   * clear counter, flags n - 5 times once n > 5: the first five only arm
   * the counter.
   */
  lemma RapidPreciseHits(n: nat)
    ensures StickyRun(0, 5, n).count == n
    ensures StickyRun(0, 5, n).flags == Max(0, n - 5)
  {
    StickyRunClosedForm(0, 5, n);
  }

  /** A miss-aimed hit never flags and leaves the counter one lower, floored at 0. */
  lemma ImpreciseHitDecays(t: Tally, u: Uuid)
    ensures Nudge(t, u, false, 5).flags == t.flags
    ensures Nudge(t, u, false, 5).counts[u] == Max(0, Count(t.counts, u) - 1)
  {
  }
}
