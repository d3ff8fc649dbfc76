/**
 * The per-player record (PlayerData): violation levels per check name with
 * the time of the last violation, the movement counters fed by every move
 * event, the one-second attack window and the latest ping sample.
 */
module PlayerState {
  import opened Util

  class PlayerData {
    var violations: map<string, nat>
    var lastViolationTime: map<string, int>

    var lastLocation: Location
    var lastGroundLocation: Location
    var lastMovementTime: int
    var onGround: bool
    var wasOnGround: bool
    var lastDeltaY: real
    var airTicks: nat
    var groundTicks: nat

    var lastAttackTime: int
    var attackCount: nat
    var attackCountResetTime: int

    var ping: nat
    var lastPingUpdate: int

    /** At most one of the air and ground tick counters is running. */
    predicate Valid()
      reads this
    {
      airTicks == 0 || groundTicks == 0
    }

    /** The state of a record created at time now for a player standing at loc. */
    predicate IsFresh(loc: Location, standing: bool, now: int)
      reads this
    {
      && violations == map[] && lastViolationTime == map[]
      && lastLocation == loc && lastGroundLocation == loc
      && lastMovementTime == now
      && onGround == standing && wasOnGround == standing
      && lastDeltaY == 0.0 && airTicks == 0 && groundTicks == 0
      && lastAttackTime == 0 && attackCount == 0 && attackCountResetTime == 0
      && ping == 0 && lastPingUpdate == 0
    }

    constructor (loc: Location, standing: bool, now: int)
      ensures IsFresh(loc, standing, now)
      ensures Valid()
    {
      violations := map[];
      lastViolationTime := map[];
      lastLocation := loc;
      lastGroundLocation := loc;
      lastMovementTime := now;
      onGround := standing;
      wasOnGround := standing;
      lastDeltaY := 0.0;
      airTicks := 0;
      groundTicks := 0;
      lastAttackTime := 0;
      attackCount := 0;
      attackCountResetTime := 0;
      ping := 0;
      lastPingUpdate := 0;
    }

    /** getViolationLevel: the stored level, 0 for a check never seen. */
    function Level(check: string): (r: nat)
      reads this
      ensures check !in violations ==> r == 0
      ensures check in violations ==> r == violations[check]
    {
      if check in violations then violations[check] else 0
    }

    /** getLastViolationTime: the stored time, 0 for a check never seen. */
    function LastViolationTime(check: string): (r: int)
      reads this
      ensures check !in lastViolationTime ==> r == 0
      ensures check in lastViolationTime ==> r == lastViolationTime[check]
    {
      if check in lastViolationTime then lastViolationTime[check] else 0
    }

    /** addViolation: one more violation of check at time now; returns the new level. */
    method AddViolation(check: string, now: int) returns (vl: nat)
      modifies this`violations, this`lastViolationTime
      ensures vl == old(Level(check)) + 1
      ensures violations == old(violations)[check := vl]
      ensures lastViolationTime == old(lastViolationTime)[check := now]
      ensures forall c :: c != check ==> Level(c) == old(Level(c))
    {
      vl := Level(check) + 1;
      violations := violations[check := vl];
      lastViolationTime := lastViolationTime[check := now];
    }

    /** resetViolations: the level of check drops to 0; its timestamp stays. */
    method ResetViolations(check: string)
      modifies this`violations
      ensures violations == old(violations)[check := 0]
      ensures Level(check) == 0
      ensures forall c :: c != check ==> Level(c) == old(Level(c))
    {
      violations := violations[check := 0];
    }

    /** updateMovement: a move to loc, with the server's current on-ground answer. */
    method UpdateMovement(loc: Location, standing: bool, now: int)
      requires Valid()
      modifies this`wasOnGround, this`onGround, this`lastDeltaY, this`lastLocation,
               this`lastMovementTime, this`groundTicks, this`airTicks, this`lastGroundLocation
      ensures Valid()
      ensures wasOnGround == old(onGround) && onGround == standing
      ensures lastDeltaY == loc.y - old(lastLocation).y
      ensures lastLocation == loc && lastMovementTime == now
      ensures standing ==> groundTicks == old(groundTicks) + 1 && airTicks == 0 && lastGroundLocation == loc
      ensures !standing ==>
        airTicks == old(airTicks) + 1 && groundTicks == 0 && lastGroundLocation == old(lastGroundLocation)
    {
      wasOnGround := onGround;
      onGround := standing;
      lastDeltaY := loc.y - lastLocation.y;
      lastLocation := loc;
      lastMovementTime := now;
      if onGround {
        groundTicks := groundTicks + 1;
        airTicks := 0;
        lastGroundLocation := loc;
      } else {
        airTicks := airTicks + 1;
        groundTicks := 0;
      }
    }

    /** updateCombat: an attack at time now, counted in a one-second window. */
    method UpdateCombat(now: int)
      modifies this`lastAttackTime, this`attackCount, this`attackCountResetTime
      ensures lastAttackTime == now
      ensures now > old(attackCountResetTime) ==> attackCount == 1 && attackCountResetTime == now + 1000
      ensures now <= old(attackCountResetTime) ==>
        attackCount == old(attackCount) + 1 && attackCountResetTime == old(attackCountResetTime)
      ensures attackCount >= 1
    {
      lastAttackTime := now;
      if now > attackCountResetTime {
        attackCount := 1;
        attackCountResetTime := now + 1000;
      } else {
        attackCount := attackCount + 1;
      }
    }

    /** updatePing: the sample replaces the stored ping; nothing is averaged. */
    method UpdatePing(sample: nat, now: int)
      modifies this`ping, this`lastPingUpdate
      ensures ping == sample && lastPingUpdate == now
    {
      ping := sample;
      lastPingUpdate := now;
    }
  }

  /**
   * Two violations of one check followed by a reset: the levels reported are
   * 1 and 2, the level ends at 0, other checks are untouched and the
   * timestamp of the second violation survives the reset.
   */
  method ViolationsThenReset(d: PlayerData, check: string, other: string, t1: int, t2: int)
    returns (first: nat, second: nat)
    requires check != other && d.Level(check) == 0
    modifies d
    ensures first == 1 && second == 2
    ensures d.Level(check) == 0 && d.Level(other) == old(d.Level(other))
    ensures d.LastViolationTime(check) == t2
  {
    first := d.AddViolation(check, t1);
    second := d.AddViolation(check, t2);
    d.ResetViolations(check);
  }
}
