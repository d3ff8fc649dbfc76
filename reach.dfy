/**
 * ReachCheck: on a player-versus-player hit, the distance from the
 * attacker's eyes to the centre of the target must not exceed 4.5 blocks
 * plus a ping allowance of min(ping / 100, 1) blocks. A hit beyond it adds
 * one to the attacker's counter and flags once the prior count is 3; a hit
 * within it takes one off. Distances are compared squared.
 */
module Reach {
  import opened Util
  import opened Config
  import opened Latency
  import opened Suspicion
  import opened Checks
  import opened PlayerState

  /** The target's location raised by half its height. */
  function TargetCentre(targetLocation: Location, targetHeight: real): (c: Location)
    ensures c.world == targetLocation.world && c.x == targetLocation.x && c.z == targetLocation.z
    ensures c.y - targetLocation.y == targetHeight / 2.0
  {
    targetLocation.(y := targetLocation.y + targetHeight / 2.0)
  }

  /** 4.5 blocks, plus min(ping / 100, 1). */
  function MaxReach(ping: nat): (r: real)
    ensures 4.5 <= r <= 5.5
    ensures ping == 0 ==> r == 4.5
    ensures ping >= 100 ==> r == 5.5
  {
    4.5 + RealCompensation(ping, 100.0, 1.0)
  }

  /** distance > maxReach, squared: both sides are non-negative. */
  predicate TooFar(eye: Location, centre: Location, ping: nat)
  {
    DistanceSquared(eye, centre) > Square(MaxReach(ping))
  }

  class ReachCheck {
    const check: Check
    var reachViolations: map<Uuid, nat>

    constructor (categoryConfig: Option<CheckConfig>)
      ensures fresh(check) && check.name == "Reach" && check.checkType == "combat"
      ensures reachViolations == map[]
    {
      check := new Check("Reach", "combat", categoryConfig);
      reachViolations := map[];
    }

    predicate Skips(p: Actor, targetIsPlayer: bool)
      reads check
    {
      !check.enabled || p.bypass || !targetIsPlayer
    }

    /** checkReach; eye is the attacker's eye location. */
    method CheckReach(p: Actor, data: PlayerData, targetIsPlayer: bool, eye: Location,
                      targetLocation: Location, targetHeight: real)
      returns (flags: nat)
      modifies this`reachViolations
      ensures Skips(p, targetIsPlayer) ==> unchanged(this) && flags == 0
      ensures !Skips(p, targetIsPlayer) ==>
        var t := Nudge(Tally(old(reachViolations), 0), p.id,
                       TooFar(eye, TargetCentre(targetLocation, targetHeight), data.ping), 3);
        reachViolations == t.counts && flags == t.flags
    {
      flags := 0;
      if Skips(p, targetIsPlayer) {
        return;
      }
      var targetLoc := TargetCentre(targetLocation, targetHeight);
      var distanceSquared := DistanceSquared(eye, targetLoc);
      var maxReach := 4.5;
      var pingCompensation := RealCompensation(data.ping, 100.0, 1.0);
      maxReach := maxReach + pingCompensation;
      if distanceSquared > Square(maxReach) {
        var currentViolations := Count(reachViolations, p.id);
        reachViolations := reachViolations[p.id := currentViolations + 1];
        if currentViolations >= 3 {
          flags := 1;
        }
      } else {
        reachViolations := reachViolations[p.id := Max(0, Count(reachViolations, p.id) as int - 1)];
      }
    }
  }

  /** More ping never shortens the reach allowance. */
  lemma MaxReachMonotone(p1: nat, p2: nat)
    requires p1 <= p2
    ensures MaxReach(p1) <= MaxReach(p2)
  {
    RealCompensationMonotone(p1, p2, 100.0, 1.0);
  }

  /** Ping only forgives: a hit too far for a laggy attacker is too far for one with less ping. */
  lemma ReachLagOnlyForgives(eye: Location, centre: Location, p1: nat, p2: nat)
    requires p1 <= p2 && TooFar(eye, centre, p2)
    ensures TooFar(eye, centre, p1)
  {
    MaxReachMonotone(p1, p2);
    SquareMonotone(MaxReach(p1), MaxReach(p2));
  }

  /** Whatever the ping, a hit at more than 5.5 blocks is too far and one within 4.5 is not. */
  lemma ReachBounds(eye: Location, centre: Location, ping: nat)
    ensures DistanceSquared(eye, centre) > 30.25 ==> TooFar(eye, centre, ping)
    ensures DistanceSquared(eye, centre) <= 20.25 ==> !TooFar(eye, centre, ping)
  {
    SquareMonotone(4.5, MaxReach(ping));
    SquareMonotone(MaxReach(ping), 5.5);
  }

  /** Four hits too far in a row from a clear counter: the fourth is the first to flag. */
  lemma FourthFarHitFlags(n: nat)
    ensures StickyRun(0, 3, n).flags == Max(0, n - 3)
  {
    StickyRunClosedForm(0, 3, n);
  }
}
