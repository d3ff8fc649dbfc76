/**
 * HitboxCheck: on a hit, the point max-distance blocks (4.5 by default)
 * along the attacker's look direction must lie in the target's bounding
 * box grown by expansion-amount (0.3 by default) on every side; when it
 * does not, the box is grown by a further min(ping / 100, 0.5) and tested
 * again, and a second miss flags. The detector keeps no state.
 */
module Hitbox {
  import opened Util
  import opened Config
  import opened Latency
  import opened Checks
  import opened PlayerState

  /** An axis-aligned box (org.bukkit.util.BoundingBox). */
  datatype Box = Box(minX: real, minY: real, minZ: real, maxX: real, maxY: real, maxZ: real)

  /** A direction; the look direction after normalize(), so of length 1. */
  datatype Vec = Vec(x: real, y: real, z: real)

  /** BoundingBox.expand(e, e, e): every face moved out by e. */
  function Expand(b: Box, e: real): (r: Box)
    ensures r.minX == b.minX - e && r.maxX == b.maxX + e
    ensures r.minY == b.minY - e && r.maxY == b.maxY + e
    ensures r.minZ == b.minZ - e && r.maxZ == b.maxZ + e
  {
    Box(b.minX - e, b.minY - e, b.minZ - e, b.maxX + e, b.maxY + e, b.maxZ + e)
  }

  /** BoundingBox.contains(x, y, z): closed at the minimum faces, open at the maximum faces. */
  predicate Contains(b: Box, x: real, y: real, z: real)
  {
    b.minX <= x < b.maxX && b.minY <= y < b.maxY && b.minZ <= z < b.maxZ
  }

  /** The eye location moved distance blocks along the unit direction. */
  function EndPoint(eye: Location, direction: Vec, distance: real): (r: Location)
    ensures r.world == eye.world
    ensures r.x - eye.x == direction.x * distance && r.y - eye.y == direction.y * distance
    ensures r.z - eye.z == direction.z * distance
  {
    Location(eye.world, eye.x + direction.x * distance, eye.y + direction.y * distance, eye.z + direction.z * distance)
  }

  function ExpansionAmount(cfg: CheckConfig): real
  {
    GetDouble(cfg, "hitbox.expansion-amount", 0.3)
  }

  function MaxDistance(cfg: CheckConfig): real
  {
    GetDouble(cfg, "hitbox.max-distance", 4.5)
  }

  /** The ping allowance, min(ping / 100, 0.5) blocks. */
  function PingAllowance(ping: nat): (r: real)
    ensures 0.0 <= r <= 0.5
  {
    RealCompensation(ping, 100.0, 0.5)
  }

  /** The end point lies in the target's box grown by e. */
  predicate Hits(b: Box, e: real, eye: Location, direction: Vec, distance: real)
  {
    var end := EndPoint(eye, direction, distance);
    Contains(Expand(b, e), end.x, end.y, end.z)
  }

  class HitboxCheck {
    const check: Check

    constructor (categoryConfig: Option<CheckConfig>)
      ensures fresh(check) && check.name == "Hitbox" && check.checkType == "combat"
    {
      check := new Check("Hitbox", "combat", categoryConfig);
    }

    predicate Skips(p: Actor)
      reads check
    {
      !check.enabled || p.bypass
    }

    /**
     * checkHitbox: whether flag() is called. The two tests together are one
     * test against the box grown by the configured expansion plus the ping
     * allowance.
     */
    method CheckHitbox(p: Actor, data: PlayerData, cfg: CheckConfig, targetBox: Box, eye: Location, direction: Vec)
      returns (flagged: bool)
      ensures flagged <==>
        !Skips(p) && !Hits(targetBox, ExpansionAmount(cfg) + PingAllowance(data.ping), eye, direction, MaxDistance(cfg))
    {
      flagged := false;
      if Skips(p) {
        return;
      }
      var expansionAmount := GetDouble(cfg, "hitbox.expansion-amount", 0.3);
      var expandedBox := Expand(targetBox, expansionAmount);
      var maxDistance := GetDouble(cfg, "hitbox.max-distance", 4.5);
      var endLocation := EndPoint(eye, direction, maxDistance);
      var hit := Contains(expandedBox, endLocation.x, endLocation.y, endLocation.z);
      if !hit {
        var pingCompensation := PingAllowance(data.ping);
        var pingCompensatedBox := Expand(expandedBox, pingCompensation);
        ExpandTwice(targetBox, expansionAmount, pingCompensation);
        var endLocationPing := EndPoint(eye, direction, maxDistance);
        hit := Contains(pingCompensatedBox, endLocationPing.x, endLocationPing.y, endLocationPing.z);
        flagged := !hit;
      } else {
        ExpandTwice(targetBox, expansionAmount, PingAllowance(data.ping));
        ExpandKeeps(expandedBox, PingAllowance(data.ping), endLocation.x, endLocation.y, endLocation.z);
      }
    }
  }

  /** Growing by e1 and then by e2 is growing by e1 + e2. */
  lemma ExpandTwice(b: Box, e1: real, e2: real)
    ensures Expand(Expand(b, e1), e2) == Expand(b, e1 + e2)
  {
  }

  /** Growing a box by a non-negative amount keeps every point it contains. */
  lemma ExpandKeeps(b: Box, e: real, x: real, y: real, z: real)
    requires e >= 0.0 && Contains(b, x, y, z)
    ensures Contains(Expand(b, e), x, y, z)
  {
  }

  /** A larger margin can only turn a miss into a hit. */
  lemma HitsWidens(b: Box, e1: real, e2: real, eye: Location, direction: Vec, distance: real)
    requires e1 <= e2 && Hits(b, e1, eye, direction, distance)
    ensures Hits(b, e2, eye, direction, distance)
  {
    ExpandTwice(b, e1, e2 - e1);
    var end := EndPoint(eye, direction, distance);
    ExpandKeeps(Expand(b, e1), e2 - e1, end.x, end.y, end.z);
  }

  /** Ping only forgives: a hit flagged for a laggy attacker is flagged for one with less ping. */
  lemma HitboxLagOnlyForgives(b: Box, e: real, p1: nat, p2: nat, eye: Location, direction: Vec, distance: real)
    requires p1 <= p2 && !Hits(b, e + PingAllowance(p2), eye, direction, distance)
    ensures !Hits(b, e + PingAllowance(p1), eye, direction, distance)
  {
    RealCompensationMonotone(p1, p2, 100.0, 0.5);
    if Hits(b, e + PingAllowance(p1), eye, direction, distance) {
      HitsWidens(b, e + PingAllowance(p1), e + PingAllowance(p2), eye, direction, distance);
    }
  }
}
