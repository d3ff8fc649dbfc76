/**
 * SpeedCheck: at most every 500 ms per player, the horizontal step of a
 * move is compared with the fastest legal step for the player's sprinting
 * state and Speed and Slowness effects, loosened by ping. Distances stay
 * squared, as in the source, so no square root is needed. A step that is
 * too long adds one to the player's counter and flags once the prior
 * count is 3; a normal step takes one off.
 */
module Speed {
  import opened Util
  import opened Config
  import opened Latency
  import opened Suspicion
  import opened Checks
  import opened PlayerState

  /**
   * What the server says about the mover: riding, allowed to fly, flying,
   * sprinting, and the Speed and Slowness levels (amplifier + 1, 0 when the
   * effect is absent).
   */
  datatype Motion = Motion(insideVehicle: bool, allowFlight: bool, flying: bool, sprinting: bool,
                           speedLevel: nat, slowLevel: nat)

  /** The squared horizontal length of the step from one location to the next. */
  function HorizontalDistanceSquared(from: Location, to: Location): (r: real)
    ensures r >= 0.0
  {
    Square(to.x - from.x) + Square(to.z - from.z)
  }

  /** 0.35 blocks per move walking, 0.45 sprinting. */
  function BaseSpeed(sprinting: bool): (r: real)
    ensures 0.35 <= r <= 0.45
  {
    if sprinting then 0.45 else 0.35
  }

  /** Each Speed level adds 30%. */
  function SpeedFactor(speedLevel: nat): (r: real)
    ensures r >= 1.0
    ensures speedLevel == 0 ==> r == 1.0
  {
    if speedLevel > 0 then 1.0 + speedLevel as real * 0.3 else 1.0
  }

  /** Each Slowness level takes 10% off, as written: from level 11 on the factor is negative. */
  function SlowFactorAsWritten(slowLevel: nat): (r: real)
    ensures slowLevel <= 10 ==> 0.0 <= r <= 1.0
    ensures slowLevel > 10 ==> r < 0.0
  {
    if slowLevel > 0 then 1.0 - slowLevel as real * 0.1 else 1.0
  }

  /** Each Slowness level takes 10% off, never below nothing. */
  function SlowFactor(slowLevel: nat): (r: real)
    ensures 0.0 <= r <= 1.0
    ensures slowLevel <= 10 ==> r == SlowFactorAsWritten(slowLevel)
  {
    var f := SlowFactorAsWritten(slowLevel);
    if f < 0.0 then 0.0 else f
  }

  /** The fastest legal step for a base speed and the two effect factors; the 1.2 is the lag buffer. */
  function Limit(base: real, speed: real, slow: real): real
  {
    base * speed * slow * 1.2
  }

  /** getMaxAllowedSpeed as written: negative from Slowness 11 on. */
  function MaxAllowedSpeedAsWritten(m: Motion): (r: real)
    ensures m.slowLevel <= 10 ==> r >= 0.0
    ensures m.slowLevel > 10 ==> r < 0.0
  {
    LimitSign(BaseSpeed(m.sprinting), SpeedFactor(m.speedLevel), SlowFactorAsWritten(m.slowLevel));
    Limit(BaseSpeed(m.sprinting), SpeedFactor(m.speedLevel), SlowFactorAsWritten(m.slowLevel))
  }

  /** getMaxAllowedSpeed with the Slowness factor kept non-negative. */
  function MaxAllowedSpeed(m: Motion): (r: real)
    ensures r >= 0.0
    ensures m.slowLevel <= 10 ==> r == MaxAllowedSpeedAsWritten(m)
  {
    LimitNonNegative(BaseSpeed(m.sprinting), SpeedFactor(m.speedLevel), SlowFactor(m.slowLevel));
    Limit(BaseSpeed(m.sprinting), SpeedFactor(m.speedLevel), SlowFactor(m.slowLevel))
  }

  lemma NonNegativeProduct(a: real, b: real)
    requires a >= 0.0 && b >= 0.0
    ensures a * b >= 0.0
  {
  }

  lemma ProductMonotone(k: real, a: real, b: real)
    requires k >= 0.0 && a <= b
    ensures k * a <= k * b && a * k <= b * k
  {
    assert k * b - k * a == k * (b - a);
    assert b * k - a * k == (b - a) * k;
  }

  lemma LimitNonNegative(base: real, speed: real, slow: real)
    requires base >= 0.0 && speed >= 0.0 && slow >= 0.0
    ensures Limit(base, speed, slow) >= 0.0
  {
    NonNegativeProduct(base, speed);
    NonNegativeProduct(base * speed, slow);
  }

  /** With a positive base and Speed factor, the limit has the sign of the Slowness factor. */
  lemma LimitSign(base: real, speed: real, slow: real)
    requires base > 0.0 && speed > 0.0
    ensures slow >= 0.0 ==> Limit(base, speed, slow) >= 0.0
    ensures slow < 0.0 ==> Limit(base, speed, slow) < 0.0
  {
    var k := base * speed;
    assert k > 0.0;
    if slow >= 0.0 {
      NonNegativeProduct(k, slow);
    } else {
      assert k * -slow > 0.0;
      assert k * slow == -(k * -slow);
    }
  }

  /** A larger Speed factor gives a larger limit. */
  lemma LimitSpeedOrder(base: real, s1: real, s2: real, slow: real)
    requires base >= 0.0 && s1 <= s2 && slow >= 0.0
    ensures Limit(base, s1, slow) <= Limit(base, s2, slow)
  {
    ProductMonotone(base, s1, s2);
    ProductMonotone(slow, base * s1, base * s2);
  }

  /** A smaller Slowness factor gives a smaller limit. */
  lemma LimitSlowOrder(base: real, speed: real, w1: real, w2: real)
    requires base >= 0.0 && speed >= 0.0 && w1 <= w2
    ensures Limit(base, speed, w1) <= Limit(base, speed, w2)
  {
    NonNegativeProduct(base, speed);
    ProductMonotone(base * speed, w1, w2);
  }

  /** Flipping the sign of the Slowness factor flips the sign of the limit. */
  lemma LimitNegate(base: real, speed: real, slow: real)
    ensures Limit(base, speed, -slow) == -Limit(base, speed, slow)
  {
    assert base * speed * -slow == -(base * speed * slow);
  }

  /**
   * Whatever the sign of the Slowness factor, a larger Speed factor gives a
   * squared limit at least as large.
   */
  lemma LimitSpeedOrderSquared(base: real, s1: real, s2: real, slow: real)
    requires base >= 0.0 && 0.0 <= s1 <= s2
    ensures Square(Limit(base, s1, slow)) <= Square(Limit(base, s2, slow))
  {
    var w := if slow >= 0.0 then slow else -slow;
    LimitSpeedOrder(base, s1, s2, w);
    LimitNonNegative(base, s1, w);
    SquareMonotone(Limit(base, s1, w), Limit(base, s2, w));
    if slow < 0.0 {
      LimitNegate(base, s1, w);
      LimitNegate(base, s2, w);
      assert w == -slow;
      assert Limit(base, s1, slow) == -Limit(base, s1, w);
      assert Limit(base, s2, slow) == -Limit(base, s2, w);
      assert Square(-Limit(base, s1, w)) == Square(Limit(base, s1, w));
      assert Square(-Limit(base, s2, w)) == Square(Limit(base, s2, w));
    }
  }

  /**
   * The squared limit of checkSpeed: the square of getMaxAllowedSpeed as
   * written plus the squared ping allowance, min(ping / 200, 0.5).
   */
  function SpeedLimitSquared(m: Motion, ping: nat): (r: real)
    ensures r >= Square(MaxAllowedSpeedAsWritten(m))
    ensures r <= Square(MaxAllowedSpeedAsWritten(m)) + 0.25
    ensures m.slowLevel <= 10 ==> r >= Square(MaxAllowedSpeed(m))
  {
    var comp := RealCompensation(ping, 200.0, 0.5);
    SquareMonotone(comp, 0.5);
    Square(MaxAllowedSpeedAsWritten(m)) + Square(comp)
  }

  /** A step is too long when its squared length exceeds the squared limit. */
  predicate TooFast(from: Location, to: Location, m: Motion, ping: nat)
  {
    HorizontalDistanceSquared(from, to) > SpeedLimitSquared(m, ping)
  }

  /** Riding, allowed to fly or flying: never tested. */
  predicate Exempt(m: Motion)
  {
    m.insideVehicle || m.allowFlight || m.flying
  }

  class SpeedCheck {
    const check: Check
    var violations: map<Uuid, nat>
    var lastCheckTime: map<Uuid, int>

    constructor (categoryConfig: Option<CheckConfig>)
      ensures fresh(check) && check.name == "Speed" && check.checkType == "movement"
      ensures violations == map[] && lastCheckTime == map[]
    {
      check := new Check("Speed", "movement", categoryConfig);
      violations, lastCheckTime := map[], map[];
    }

    predicate Skips(p: Actor, m: Motion)
      reads check
    {
      !check.enabled || p.bypass || Exempt(m)
    }

    /** Tested less than 500 ms ago. */
    predicate RateLimited(u: Uuid, now: int)
      reads this
    {
      u in lastCheckTime && now - lastCheckTime[u] < 500
    }

    /**
     * checkSpeed: the test time is recorded before the standing-still test,
     * and a step shorter than 0.1 blocks leaves the counter alone.
     */
    method CheckSpeed(p: Actor, data: PlayerData, m: Motion, from: Location, to: Location, now: int)
      returns (flags: nat)
      modifies this`violations, this`lastCheckTime
      ensures Skips(p, m) || old(RateLimited(p.id, now)) ==> unchanged(this) && flags == 0
      ensures !Skips(p, m) && !old(RateLimited(p.id, now)) ==> lastCheckTime == old(lastCheckTime)[p.id := now]
      ensures !Skips(p, m) && !old(RateLimited(p.id, now)) && HorizontalDistanceSquared(from, to) < 0.01 ==>
        violations == old(violations) && flags == 0
      ensures !Skips(p, m) && !old(RateLimited(p.id, now)) && HorizontalDistanceSquared(from, to) >= 0.01 ==>
        var t := Nudge(Tally(old(violations), 0), p.id, TooFast(from, to, m, data.ping), 3);
        violations == t.counts && flags == t.flags
    {
      flags := 0;
      if Skips(p, m) {
        return;
      }
      if RateLimited(p.id, now) {
        return;
      }
      lastCheckTime := lastCheckTime[p.id := now];
      var distanceSquared := HorizontalDistanceSquared(from, to);
      if distanceSquared < 0.01 {
        return;
      }
      var maxSpeed := MaxAllowedSpeedAsWritten(m);
      var maxSpeedSquared := Square(maxSpeed);
      var pingCompensation := RealCompensation(data.ping, 200.0, 0.5);
      maxSpeedSquared := maxSpeedSquared + Square(pingCompensation);
      if distanceSquared > maxSpeedSquared {
        var currentViolations := Count(violations, p.id);
        violations := violations[p.id := currentViolations + 1];
        if currentViolations >= 3 {
          flags := 1;
        }
      } else {
        violations := violations[p.id := Max(0, Count(violations, p.id) as int - 1)];
      }
    }
  }

  /** Walking with no effects and no ping, the limit is 0.42 blocks a move; sprinting, 0.54. */
  lemma DefaultLimits(m: Motion)
    requires m.speedLevel == 0 && m.slowLevel == 0
    ensures !m.sprinting ==> MaxAllowedSpeedAsWritten(m) == 0.42 && SpeedLimitSquared(m, 0) == 0.1764
    ensures m.sprinting ==> MaxAllowedSpeedAsWritten(m) == 0.54 && SpeedLimitSquared(m, 0) == 0.2916
  {
  }

  /** The 10%-per-level Slowness factor never makes the squared limit larger. */
  lemma {:induction false} SlownessNeverLoosens(m: Motion, more: nat)
    requires m.slowLevel <= more
    ensures Square(MaxAllowedSpeed(m.(slowLevel := more))) <= Square(MaxAllowedSpeed(m))
  {
    var m2 := m.(slowLevel := more);
    assert m2.sprinting == m.sprinting && m2.speedLevel == m.speedLevel && m2.slowLevel == more;
    assert SlowFactor(more) <= SlowFactor(m.slowLevel);
    LimitSlowOrder(BaseSpeed(m.sprinting), SpeedFactor(m.speedLevel), SlowFactor(more), SlowFactor(m.slowLevel));
    SquareMonotone(MaxAllowedSpeed(m2), MaxAllowedSpeed(m));
  }

  /** As written, Slowness 20 while sprinting gives -0.54, whose square is the limit with no Slowness at all. */
  lemma SlownessTwentyAsWritten()
    ensures var sprint := Motion(false, false, false, true, 0, 0);
      MaxAllowedSpeedAsWritten(sprint.(slowLevel := 20)) == -0.54
      && Square(MaxAllowedSpeedAsWritten(sprint.(slowLevel := 20))) == Square(MaxAllowedSpeedAsWritten(sprint))
      && Square(MaxAllowedSpeedAsWritten(sprint.(slowLevel := 10))) == 0.0
  {
  }

  /**
   * So checkSpeed accepts a 0.3-block sprinting step under Slowness 20 with
   * no ping, although the clamped limit of 0 would count it as too fast.
   */
  lemma SlownessTwentyStepAccepted()
    ensures var m := Motion(false, false, false, true, 0, 20);
      var from, to := Location(0, 0.0, 64.0, 0.0), Location(0, 0.3, 64.0, 0.0);
      !TooFast(from, to, m, 0) && HorizontalDistanceSquared(from, to) > Square(MaxAllowedSpeed(m))
  {
    SlownessTwentyAsWritten();
    assert MaxAllowedSpeed(Motion(false, false, false, true, 0, 20)) == 0.0;
  }

  /** A faster Speed effect only loosens the limit checkSpeed uses, Slowness 11 and over included. */
  lemma {:induction false} SpeedEffectOnlyLoosens(m: Motion, more: nat)
    requires m.speedLevel <= more
    ensures Square(MaxAllowedSpeedAsWritten(m)) <= Square(MaxAllowedSpeedAsWritten(m.(speedLevel := more)))
    ensures Square(MaxAllowedSpeed(m)) <= Square(MaxAllowedSpeed(m.(speedLevel := more)))
  {
    var m2 := m.(speedLevel := more);
    assert m2.sprinting == m.sprinting && m2.slowLevel == m.slowLevel && m2.speedLevel == more;
    assert SpeedFactor(m.speedLevel) <= SpeedFactor(more);
    LimitSpeedOrderSquared(BaseSpeed(m.sprinting), SpeedFactor(m.speedLevel), SpeedFactor(more), SlowFactorAsWritten(m.slowLevel));
    LimitSpeedOrderSquared(BaseSpeed(m.sprinting), SpeedFactor(m.speedLevel), SpeedFactor(more), SlowFactor(m.slowLevel));
  }

  /** A faster Speed effect never turns a clean step into a suspicious one. */
  lemma SpeedEffectNeverFlagsMore(from: Location, to: Location, m: Motion, more: nat, ping: nat)
    requires m.speedLevel <= more && TooFast(from, to, m.(speedLevel := more), ping)
    ensures TooFast(from, to, m, ping)
  {
    SpeedEffectOnlyLoosens(m, more);
  }

  /** Up to Slowness 10 the check's limit is the clamped one, so more Slowness never loosens it there. */
  lemma SlownessUpToTenNeverLoosens(m: Motion, more: nat)
    requires m.slowLevel <= more <= 10
    ensures Square(MaxAllowedSpeedAsWritten(m.(slowLevel := more))) <= Square(MaxAllowedSpeedAsWritten(m))
  {
    SlownessNeverLoosens(m, more);
  }

  /** Ping only forgives: a step too long for a laggy player is too long for one with less ping. */
  lemma {:induction false} SpeedLagOnlyForgives(from: Location, to: Location, m: Motion, p1: nat, p2: nat)
    requires p1 <= p2 && TooFast(from, to, m, p2)
    ensures TooFast(from, to, m, p1)
  {
    RealCompensationMonotone(p1, p2, 200.0, 0.5);
    SquareMonotone(RealCompensation(p1, 200.0, 0.5), RealCompensation(p2, 200.0, 0.5));
  }
}
