/**
 * Ping compensation. Every timing detector loosens its threshold by a
 * bounded share of the player's latency, of the form min(ping / k, cap),
 * and treats an event as suspicious when the interval since the previous
 * one is below the loosened minimum.
 */
module Latency {
  import opened Util

  /** min(ping / divisor, cap) in milliseconds, with Java's integer division (ping is non-negative). */
  function Compensation(ping: nat, divisor: nat, cap: nat): (c: nat)
    requires divisor >= 1
    ensures c <= cap && c <= ping / divisor && c <= ping
    ensures c == cap || c == ping / divisor
  {
    Min(ping / divisor, cap)
  }

  /** min(ping / 2, cap): AutoAnchor, AutoCrystal, CrystalAura, FastPlace, Simulation. */
  function HalfPing(ping: nat, cap: nat): (c: nat)
    ensures c <= cap && c <= ping / 2 && 2 * c <= ping
    ensures c == cap || c == ping / 2
  {
    Compensation(ping, 2, cap)
  }

  /** min(ping, cap): FastBreak, AutoTotem. */
  function FullPing(ping: nat, cap: nat): (c: nat)
    ensures c <= cap && c <= ping
    ensures c == cap || c == ping
  {
    Compensation(ping, 1, cap)
  }

  /** min(ping / divisor, cap) on doubles: Reach, Hitbox, Speed. */
  function RealCompensation(ping: nat, divisor: real, cap: real): (c: real)
    requires divisor > 0.0 && cap >= 0.0
    ensures 0.0 <= c <= cap && c <= ping as real / divisor
    ensures c == cap || c == ping as real / divisor
  {
    MinReal(ping as real / divisor, cap)
  }

  /** The event came sooner than the minimum interval allows after compensation. */
  predicate TooSoon(interval: int, minimum: int, compensation: int)
  {
    interval < minimum - compensation
  }

  /** More ping never yields less compensation. */
  lemma CompensationMonotone(p1: nat, p2: nat, divisor: nat, cap: nat)
    requires divisor >= 1 && p1 <= p2
    ensures Compensation(p1, divisor, cap) <= Compensation(p2, divisor, cap)
  {
    DivMonotone(p1, p2, divisor);
  }

  lemma DivMonotone(a: nat, b: nat, d: nat)
    requires d >= 1 && a <= b
    ensures a / d <= b / d
  {
    var qa, qb := a / d, b / d;
    assert qa * d <= a && b < qb * d + d;
    assert qa * d < (qb + 1) * d;
    MulCancel(qa, qb + 1, d);
  }

  lemma MulCancel(x: int, y: int, d: nat)
    requires d >= 1 && x * d < y * d
    ensures x < y
  {
  }

  /** At or beyond divisor * cap the compensation is saturated at the cap. */
  lemma CompensationSaturates(ping: nat, divisor: nat, cap: nat)
    requires divisor >= 1 && ping >= divisor * cap
    ensures Compensation(ping, divisor, cap) == cap
  {
    assert (divisor * cap) / divisor == cap;
    DivMonotone(divisor * cap, ping, divisor);
  }

  lemma RealCompensationMonotone(p1: nat, p2: nat, divisor: real, cap: real)
    requires divisor > 0.0 && cap >= 0.0 && p1 <= p2
    ensures RealCompensation(p1, divisor, cap) <= RealCompensation(p2, divisor, cap)
  {
    assert p1 as real / divisor <= p2 as real / divisor;
  }

  /**
   * Compensation only ever forgives: an event suspicious for a laggy player
   * is suspicious for a player with less ping, and in particular with none.
   */
  lemma LagOnlyForgives(interval: int, minimum: int, p1: nat, p2: nat, divisor: nat, cap: nat)
    requires divisor >= 1 && p1 <= p2
    requires TooSoon(interval, minimum, Compensation(p2, divisor, cap))
    ensures TooSoon(interval, minimum, Compensation(p1, divisor, cap))
    ensures TooSoon(interval, minimum, 0)
  {
    CompensationMonotone(p1, p2, divisor, cap);
  }
}
