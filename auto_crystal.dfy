/**
 * AutoCrystalCheck: end-crystal bots place and break crystals, and switch
 * to a sword, faster than a person can, and break crystals they are not
 * looking at. Each too-fast or off-aim event is one suspicion; by default
 * the third flags and clears the counter.
 */
module AutoCrystal {
  import opened Util
  import opened Config
  import opened Latency
  import opened Suspicion
  import opened Checks
  import opened PlayerState
  import opened Materials

  /** autocrystal.threshold, default 3. */
  function Threshold(cfg: CheckConfig): int
  {
    GetInt(cfg, "autocrystal.threshold", 3)
  }

  /** The crystal and sword items whose selection is timed. */
  predicate CrystalRelated(item: Material)
  {
    item == EndCrystal || IsWatchedSword(item)
  }

  class AutoCrystalCheck {
    const check: Check
    var lastPlaceTime: map<Uuid, int>
    var lastBreakTime: map<Uuid, int>
    var lastPlaceLocation: map<Uuid, Location>
    var suspiciousActions: map<Uuid, nat>

    constructor (categoryConfig: Option<CheckConfig>)
      ensures fresh(check) && check.name == "AutoCrystal" && check.checkType == "combat"
      ensures lastPlaceTime == map[] && lastBreakTime == map[]
      ensures lastPlaceLocation == map[] && suspiciousActions == map[]
    {
      check := new Check("AutoCrystal", "combat", categoryConfig);
      lastPlaceTime, lastBreakTime := map[], map[];
      lastPlaceLocation, suspiciousActions := map[], map[];
    }

    predicate Skips(p: Actor)
      reads check
    {
      !check.enabled || p.bypass
    }

    /** incrementSuspiciousActions: returns whether it called flag(). */
    method IncrementSuspiciousActions(u: Uuid, cfg: CheckConfig) returns (flagged: bool)
      modifies this`suspiciousActions
      ensures var t := Bump(Tally(old(suspiciousActions), 0), u, true, Threshold(cfg));
        suspiciousActions == t.counts && (flagged <==> t.flags == 1)
    {
      var count := Count(suspiciousActions, u) + 1;
      suspiciousActions := suspiciousActions[u := count];
      flagged := count >= Threshold(cfg);
      if flagged {
        suspiciousActions := suspiciousActions[u := 0];
      }
    }

    /** checkCrystalPlace; distance is the distance to the previous crystal when in the same world. */
    method CheckCrystalPlace(p: Actor, data: PlayerData, cfg: CheckConfig, loc: Location, distance: real, now: int)
      returns (flags: nat)
      modifies this`lastPlaceTime, this`lastPlaceLocation, this`suspiciousActions
      ensures Skips(p) ==> unchanged(this) && flags == 0
      ensures !Skips(p) ==>
        lastPlaceTime == old(lastPlaceTime)[p.id := now] && lastPlaceLocation == old(lastPlaceLocation)[p.id := loc]
      ensures !Skips(p) && p.id !in old(lastPlaceTime) ==> suspiciousActions == old(suspiciousActions) && flags == 0
      ensures !Skips(p) && p.id in old(lastPlaceTime) ==>
        var rapid := TooSoon(now - old(lastPlaceTime)[p.id], GetLong(cfg, "autocrystal.min-place-time", 100), HalfPing(data.ping, 100));
        var t := Bump(Tally(old(suspiciousActions), 0), p.id, rapid, Threshold(cfg));
        suspiciousActions == t.counts && flags == t.flags
      ensures Threshold(cfg) >= 1 && AllBelow(old(suspiciousActions), Threshold(cfg)) ==>
        AllBelow(suspiciousActions, Threshold(cfg))
    {
      flags := 0;
      if Skips(p) {
        return;
      }
      if p.id !in lastPlaceTime {
        lastPlaceTime := lastPlaceTime[p.id := now];
        lastPlaceLocation := lastPlaceLocation[p.id := loc];
        return;
      }
      var lastTime := lastPlaceTime[p.id];
      var previous := Lookup(lastPlaceLocation, p.id);
      lastPlaceTime := lastPlaceTime[p.id := now];
      lastPlaceLocation := lastPlaceLocation[p.id := loc];
      var minPlaceTime := GetLong(cfg, "autocrystal.min-place-time", 100);
      var compensation := HalfPing(data.ping, 100);
      if TooSoon(now - lastTime, minPlaceTime, compensation) {
        BumpKeepsBelow(Tally(suspiciousActions, 0), p.id, true, Threshold(cfg));
        var flagged;
        if previous.Some? && loc.world == previous.value.world
           && distance > GetDouble(cfg, "autocrystal.max-distance", 10.0) {
          // placed too quickly at distant locations
          flagged := IncrementSuspiciousActions(p.id, cfg);
        } else {
          // placed too quickly
          flagged := IncrementSuspiciousActions(p.id, cfg);
        }
        flags := if flagged then 1 else 0;
      }
    }

    /** checkCrystalBreak; isCrystal says whether the entity is an END_CRYSTAL. */
    method CheckCrystalBreak(p: Actor, data: PlayerData, cfg: CheckConfig, isCrystal: bool, now: int)
      returns (flags: nat)
      modifies this`lastBreakTime, this`suspiciousActions
      ensures Skips(p) || !isCrystal ==> unchanged(this) && flags == 0
      ensures !Skips(p) && isCrystal ==> lastBreakTime == old(lastBreakTime)[p.id := now]
      ensures !Skips(p) && isCrystal && p.id !in old(lastBreakTime) ==>
        suspiciousActions == old(suspiciousActions) && flags == 0
      ensures !Skips(p) && isCrystal && p.id in old(lastBreakTime) ==>
        var rapid := TooSoon(now - old(lastBreakTime)[p.id], GetLong(cfg, "autocrystal.min-break-time", 100), HalfPing(data.ping, 100));
        var t := Bump(Tally(old(suspiciousActions), 0), p.id, rapid, Threshold(cfg));
        suspiciousActions == t.counts && flags == t.flags
      ensures Threshold(cfg) >= 1 && AllBelow(old(suspiciousActions), Threshold(cfg)) ==>
        AllBelow(suspiciousActions, Threshold(cfg))
    {
      flags := 0;
      if Skips(p) || !isCrystal {
        return;
      }
      if p.id !in lastBreakTime {
        lastBreakTime := lastBreakTime[p.id := now];
        return;
      }
      var lastTime := lastBreakTime[p.id];
      lastBreakTime := lastBreakTime[p.id := now];
      var minBreakTime := GetLong(cfg, "autocrystal.min-break-time", 100);
      var compensation := HalfPing(data.ping, 100);
      if TooSoon(now - lastTime, minBreakTime, compensation) {
        BumpKeepsBelow(Tally(suspiciousActions, 0), p.id, true, Threshold(cfg));
        var flagged := IncrementSuspiciousActions(p.id, cfg);
        flags := if flagged then 1 else 0;
      }
    }

    /** checkItemSwitch: a switch to a crystal or sword soon after a place or break; records nothing. */
    method CheckItemSwitch(p: Actor, data: PlayerData, cfg: CheckConfig, item: Option<Material>, now: int)
      returns (flags: nat)
      modifies this`suspiciousActions
      ensures var lastAction := Max(TimeOrZero(lastPlaceTime, p.id), TimeOrZero(lastBreakTime, p.id));
        var suspicious := !Skips(p) && item.Some? && CrystalRelated(item.value) && lastAction > 0
          && TooSoon(now - lastAction, GetLong(cfg, "autocrystal.min-switch-time", 150), HalfPing(data.ping, 100));
        var t := Bump(Tally(old(suspiciousActions), 0), p.id, suspicious, Threshold(cfg));
        suspiciousActions == t.counts && flags == t.flags
      ensures Threshold(cfg) >= 1 && AllBelow(old(suspiciousActions), Threshold(cfg)) ==>
        AllBelow(suspiciousActions, Threshold(cfg))
    {
      flags := 0;
      if Skips(p) {
        return;
      }
      if item.None? {
        return;
      }
      if !CrystalRelated(item.value) {
        return;
      }
      var lastAction := Max(TimeOrZero(lastPlaceTime, p.id), TimeOrZero(lastBreakTime, p.id));
      var timeSinceAction := now - lastAction;
      var minSwitchTime := GetLong(cfg, "autocrystal.min-switch-time", 150);
      var compensation := HalfPing(data.ping, 100);
      if lastAction > 0 && TooSoon(timeSinceAction, minSwitchTime, compensation) {
        BumpKeepsBelow(Tally(suspiciousActions, 0), p.id, true, Threshold(cfg));
        var flagged := IncrementSuspiciousActions(p.id, cfg);
        flags := if flagged then 1 else 0;
      }
    }

    /** checkCrystalAngle; angle is the angle in degrees between the look direction and the crystal. */
    method CheckCrystalAngle(p: Actor, cfg: CheckConfig, isCrystal: bool, angle: real)
      returns (flags: nat)
      modifies this`suspiciousActions
      ensures var suspicious := !Skips(p) && isCrystal && angle > GetDouble(cfg, "autocrystal.max-angle", 45.0);
        var t := Bump(Tally(old(suspiciousActions), 0), p.id, suspicious, Threshold(cfg));
        suspiciousActions == t.counts && flags == t.flags
      ensures Threshold(cfg) >= 1 && AllBelow(old(suspiciousActions), Threshold(cfg)) ==>
        AllBelow(suspiciousActions, Threshold(cfg))
    {
      flags := 0;
      if Skips(p) || !isCrystal {
        return;
      }
      var maxAngle := GetDouble(cfg, "autocrystal.max-angle", 45.0);
      if angle > maxAngle {
        BumpKeepsBelow(Tally(suspiciousActions, 0), p.id, true, Threshold(cfg));
        var flagged := IncrementSuspiciousActions(p.id, cfg);
        flags := if flagged then 1 else 0;
      }
    }
  }
}
