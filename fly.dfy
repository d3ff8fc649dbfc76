/**
 * FlyCheck: at most once a second per player, a move is tested for a jump
 * higher than the jump-boost allowance and for hovering: more than 60
 * ticks off the ground without falling. Both tests share one counter that
 * never resets on a flag; the jump test flags once the prior count is 3,
 * the hover test once it is 5, and a move that is not hovering takes one
 * off.
 */
module Fly {
  import opened Util
  import opened Config
  import opened Suspicion
  import opened Checks
  import opened PlayerState

  datatype GameMode = Survival | Creative | Adventure | Spectator

  /**
   * What the server says about the mover: may they fly, their game mode,
   * the block at their feet, whether they ride something, and their Jump
   * Boost level (amplifier + 1, 0 without the effect).
   */
  datatype FlightContext = FlightContext(allowFlight: bool, gameMode: GameMode, blockAtFeet: Material,
                                         insideVehicle: bool, jumpBoostLevel: nat)

  /** Players allowed to fly, and creative and spectator players, are never tested. */
  predicate MayFly(ctx: FlightContext)
  {
    ctx.allowFlight || ctx.gameMode == Creative || ctx.gameMode == Spectator
  }

  /** In water, on a ladder or vine, or in a vehicle: the sample is skipped after the rate limit. */
  predicate Supported(ctx: FlightContext)
  {
    ctx.blockAtFeet == "WATER" || ctx.blockAtFeet == "LADDER" || ctx.blockAtFeet == "VINE" || ctx.insideVehicle
  }

  /** The highest legal upward step: 0.6, plus 0.15 per Jump Boost level, plus a 0.2 lag buffer. */
  function MaxJumpHeight(jumpBoostLevel: nat): (h: real)
    ensures h >= 0.8
    ensures jumpBoostLevel == 0 ==> h == 0.8
  {
    var h := 0.6;
    var boosted := if jumpBoostLevel > 0 then h + jumpBoostLevel as real * 0.15 else h;
    boosted + 0.2
  }

  /** The jump test: leaving the ground with an upward step above 0.6 and above the allowance. */
  predicate JumpedTooHigh(onGround: bool, wasOnGround: bool, deltaY: real, jumpBoostLevel: nat)
  {
    !onGround && wasOnGround && deltaY > 0.6 && deltaY > MaxJumpHeight(jumpBoostLevel)
  }

  /** The hover test: off the ground for more than 60 ticks and not falling. */
  predicate Hovering(onGround: bool, airTicks: nat, deltaY: real)
  {
    !onGround && airTicks > 60 && deltaY >= 0.0
  }

  /** The 0.6 pre-test never decides: the allowance always exceeds it. */
  lemma JumpTestIsTheAllowance(onGround: bool, wasOnGround: bool, deltaY: real, level: nat)
    ensures JumpedTooHigh(onGround, wasOnGround, deltaY, level) <==>
      !onGround && wasOnGround && deltaY > MaxJumpHeight(level)
  {
  }

  /** A stronger Jump Boost never makes a jump suspicious that a weaker one allowed. */
  lemma JumpBoostOnlyForgives(onGround: bool, wasOnGround: bool, deltaY: real, l1: nat, l2: nat)
    requires l1 <= l2
    ensures JumpedTooHigh(onGround, wasOnGround, deltaY, l2) ==> JumpedTooHigh(onGround, wasOnGround, deltaY, l1)
  {
    assert MaxJumpHeight(l1) <= MaxJumpHeight(l2);
  }

  class FlyCheck {
    const check: Check
    var airViolations: map<Uuid, nat>
    var lastCheckTime: map<Uuid, int>

    constructor (categoryConfig: Option<CheckConfig>)
      ensures fresh(check) && check.name == "Fly" && check.checkType == "movement"
      ensures airViolations == map[] && lastCheckTime == map[]
    {
      check := new Check("Fly", "movement", categoryConfig);
      airViolations, lastCheckTime := map[], map[];
    }

    predicate Skips(p: Actor, ctx: FlightContext)
      reads check
    {
      !check.enabled || p.bypass || MayFly(ctx)
    }

    /** Tested less than a second ago. */
    predicate RateLimited(u: Uuid, now: int)
      reads this
    {
      u in lastCheckTime && now - lastCheckTime[u] < 1000
    }

    /**
     * checkFlight: the rate limit is recorded before the water, climbing and
     * vehicle exemption, so an exempt sample still uses up the second.
     */
    method CheckFlight(p: Actor, data: PlayerData, ctx: FlightContext, now: int) returns (flags: nat)
      modifies this`airViolations, this`lastCheckTime
      ensures Skips(p, ctx) || old(RateLimited(p.id, now)) ==> unchanged(this) && flags == 0
      ensures !Skips(p, ctx) && !old(RateLimited(p.id, now)) ==> lastCheckTime == old(lastCheckTime)[p.id := now]
      ensures !Skips(p, ctx) && !old(RateLimited(p.id, now)) && Supported(ctx) ==>
        airViolations == old(airViolations) && flags == 0
      ensures !Skips(p, ctx) && !old(RateLimited(p.id, now)) && !Supported(ctx) ==>
        var t0 := Tally(old(airViolations), 0);
        var t1 := if JumpedTooHigh(data.onGround, data.wasOnGround, data.lastDeltaY, ctx.jumpBoostLevel)
                  then Nudge(t0, p.id, true, 3) else t0;
        var t := Nudge(t1, p.id, Hovering(data.onGround, data.airTicks, data.lastDeltaY), 5);
        airViolations == t.counts && flags == t.flags
    {
      flags := 0;
      if Skips(p, ctx) {
        return;
      }
      if RateLimited(p.id, now) {
        return;
      }
      lastCheckTime := lastCheckTime[p.id := now];
      if Supported(ctx) {
        return;
      }
      if !data.onGround && data.wasOnGround && data.lastDeltaY > 0.6 {
        var maxJumpHeight := MaxJumpHeight(ctx.jumpBoostLevel);
        if data.lastDeltaY > maxJumpHeight {
          var currentViolations := Count(airViolations, p.id);
          airViolations := airViolations[p.id := currentViolations + 1];
          if currentViolations >= 3 {
            flags := flags + 1;
          }
        }
      }
      var currentViolations := Count(airViolations, p.id);
      if Hovering(data.onGround, data.airTicks, data.lastDeltaY) {
        airViolations := airViolations[p.id := currentViolations + 1];
        if currentViolations >= 5 {
          flags := flags + 1;
        }
      } else {
        airViolations := airViolations[p.id := Max(0, currentViolations as int - 1)];
      }
    }
  }

  /**
   * One tested move on the counter alone: the jump step, then the hover
   * step, with the number of flag() calls.
   */
  function Sample(count: nat, jumped: bool, hovering: bool): Run
  {
    var s1 := if jumped then Sticky(count, true, 3) else Step(count, false);
    var s2 := Sticky(s1.count, hovering, 5);
    Run(s2.count, (if s1.flagged then 1 else 0) + (if s2.flagged then 1 else 0))
  }

  /** The two Nudge steps of checkFlight move u's counter exactly as Sample does. */
  lemma SampleMatchesCheck(t0: Tally, u: Uuid, jumped: bool, hovering: bool)
    ensures var t1 := if jumped then Nudge(t0, u, true, 3) else t0;
      var t := Nudge(t1, u, hovering, 5);
      var s := Sample(Count(t0.counts, u), jumped, hovering);
      t.counts == t0.counts[u := s.count] && t.flags == t0.flags + s.flags
  {
  }

  /** A too-high jump that is not hovering adds one and then takes it off again. */
  lemma HighJumpAloneCancels(count: nat)
    ensures Sample(count, true, false).count == count
    ensures Sample(count, true, false).flags == (if count >= 3 then 1 else 0)
  {
  }

  /** n hovering samples in a row. */
  function HoverRun(count: nat, n: nat): Run
    decreases n
  {
    if n == 0 then Run(count, 0)
    else
      var s := Sample(count, false, true);
      var rest := HoverRun(s.count, n - 1);
      Run(rest.count, rest.flags + s.flags)
  }

  /** Hovering samples follow the Sticky policy with limit 5, so from a clear counter the sixth is the first to flag. */
  lemma {:induction false} HoverRunClosedForm(c: nat, n: nat)
    ensures HoverRun(c, n) == StickyRun(c, 5, n)
    decreases n
  {
    if n > 0 {
      HoverRunClosedForm(c + 1, n - 1);
    }
  }

  /** From a clear counter, n hovering samples end at n and flag n - 5 times once n > 5. */
  lemma HoverFlagsFromZero(n: nat)
    ensures HoverRun(0, n).count == n
    ensures HoverRun(0, n).flags == Max(0, n - 5)
  {
    HoverRunClosedForm(0, n);
    StickyRunClosedForm(0, 5, n);
  }
}
