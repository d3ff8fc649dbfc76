/**
 * Shared vocabulary of the model: optional values, player identities,
 * locations, and the numeric conversions Java performs implicitly.
 */
module Util {

  datatype Option<T> = None | Some(value: T)

  /** A player's UUID; only equality matters. */
  type Uuid = nat

  /** A material, written as the name of its Bukkit enum constant. */
  type Material = string

  /** A world position with double coordinates (org.bukkit.Location). */
  datatype Location = Location(world: nat, x: real, y: real, z: real)

  /** The integer position of a block (Block.getLocation()). */
  datatype BlockPos = BlockPos(world: nat, blockX: int, blockY: int, blockZ: int)

  /**
   * The player an event is about, as answered by the server at that moment:
   * identity, name, whether they hold redoxguard.bypass, and their position.
   */
  datatype Actor = Actor(id: Uuid, name: string, bypass: bool, location: Location, onGround: bool)

  function Min(a: int, b: int): (r: int)
    ensures r <= a && r <= b && (r == a || r == b)
  {
    if a <= b then a else b
  }

  function Max(a: int, b: int): (r: int)
    ensures r >= a && r >= b && (r == a || r == b)
  {
    if a >= b then a else b
  }

  function MinReal(a: real, b: real): (r: real)
    ensures r <= a && r <= b && (r == a || r == b)
  {
    if a <= b then a else b
  }

  /** Java's `(long) d` for a double d: truncation toward zero. */
  function Trunc(d: real): (r: int)
    ensures d >= 0.0 ==> r as real <= d < r as real + 1.0
    ensures d < 0.0 ==> r as real - 1.0 < d <= r as real
  {
    if d >= 0.0 then d.Floor else -((-d).Floor)
  }

  /** Java's `d * d` written out. */
  function Square(d: real): real
  {
    d * d
  }

  lemma SquareMonotone(a: real, b: real)
    requires 0.0 <= a <= b
    ensures Square(a) <= Square(b)
  {
    assert a * a <= a * b;
    assert a * b <= b * b;
  }

  /** The squared Euclidean distance of two locations (Location.distanceSquared). */
  function DistanceSquared(a: Location, b: Location): (r: real)
    ensures r >= 0.0
  {
    Square(a.x - b.x) + Square(a.y - b.y) + Square(a.z - b.z)
  }

  /** Location.distance(b) < limit, stated without the square root. */
  predicate CloserThan(a: Location, b: Location, limit: real)
  {
    limit > 0.0 && DistanceSquared(a, b) < Square(limit)
  }

  /** HashMap.getOrDefault(key, 0) on a map of counters. */
  function Count(m: map<Uuid, nat>, u: Uuid): nat
  {
    if u in m then m[u] else 0
  }

  /** HashMap.getOrDefault(key, 0L) on a map of timestamps. */
  function TimeOrZero(m: map<Uuid, int>, u: Uuid): int
  {
    if u in m then m[u] else 0
  }

  /** HashMap.get, with null as None. */
  function Lookup<V>(m: map<Uuid, V>, u: Uuid): Option<V>
  {
    if u in m then Some(m[u]) else None
  }
}
