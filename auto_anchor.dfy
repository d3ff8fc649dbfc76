/**
 * AutoAnchorCheck: respawn-anchor PvP bots place, charge and detonate
 * anchors (and switch to glowstone or a sword) faster than a person can.
 * Each kind of event remembers its last time per player; a too-short
 * interval, after half the ping (at most 100 ms) is forgiven, is one
 * suspicion, and the third suspicion (by default) flags and clears the
 * counter.
 */
module AutoAnchor {
  import opened Util
  import opened Config
  import opened Latency
  import opened Suspicion
  import opened Checks
  import opened PlayerState
  import opened Materials

  /** autoanchor.threshold, default 3. */
  function Threshold(cfg: CheckConfig): int
  {
    GetInt(cfg, "autoanchor.threshold", 3)
  }

  /** The anchor, glowstone and sword items whose selection is timed. */
  predicate AnchorRelated(item: Material, hasRespawnAnchor: bool)
  {
    (hasRespawnAnchor && item == RespawnAnchor) || item == Glowstone || IsWatchedSword(item)
  }

  /** The most recent place, charge or detonate time, 0 when there is none. */
  function LastAnchorAction(place: map<Uuid, int>, charge: map<Uuid, int>, detonate: map<Uuid, int>, u: Uuid): (r: int)
    ensures r >= TimeOrZero(place, u) && r >= TimeOrZero(charge, u) && r >= TimeOrZero(detonate, u)
    ensures r == TimeOrZero(place, u) || r == TimeOrZero(charge, u) || r == TimeOrZero(detonate, u)
  {
    Max(Max(TimeOrZero(place, u), TimeOrZero(charge, u)), TimeOrZero(detonate, u))
  }

  class AutoAnchorCheck {
    const check: Check
    var lastPlaceTime: map<Uuid, int>
    var lastChargeTime: map<Uuid, int>
    var lastDetonateTime: map<Uuid, int>
    var lastLocation: map<Uuid, Location>
    var suspiciousActions: map<Uuid, nat>

    constructor (categoryConfig: Option<CheckConfig>)
      ensures fresh(check) && check.name == "AutoAnchor" && check.checkType == "combat"
      ensures lastPlaceTime == map[] && lastChargeTime == map[] && lastDetonateTime == map[]
      ensures lastLocation == map[] && suspiciousActions == map[]
    {
      check := new Check("AutoAnchor", "combat", categoryConfig);
      lastPlaceTime, lastChargeTime, lastDetonateTime := map[], map[], map[];
      lastLocation, suspiciousActions := map[], map[];
    }

    /** The guard of the three block events. */
    predicate SkipsBlock(p: Actor, hasRespawnAnchor: bool, block: Material)
      reads check
    {
      !check.enabled || p.bypass || !hasRespawnAnchor || block != RespawnAnchor
    }

    /** incrementSuspiciousActions: returns whether it called flag(). */
    method IncrementSuspiciousActions(u: Uuid, cfg: CheckConfig) returns (flagged: bool)
      modifies this`suspiciousActions
      ensures var t := Bump(Tally(old(suspiciousActions), 0), u, true, Threshold(cfg));
        suspiciousActions == t.counts && (flagged <==> t.flags == 1)
    {
      var count := Count(suspiciousActions, u) + 1;
      suspiciousActions := suspiciousActions[u := count];
      flagged := count >= Threshold(cfg);
      if flagged {
        suspiciousActions := suspiciousActions[u := 0];
      }
    }

    /** checkAnchorPlace; flags is the number of flag() calls. */
    method CheckAnchorPlace(p: Actor, data: PlayerData, cfg: CheckConfig, hasRespawnAnchor: bool,
                            block: Material, loc: Location, distance: real, now: int)
      returns (flags: nat)
      modifies this`lastPlaceTime, this`lastLocation, this`suspiciousActions
      ensures SkipsBlock(p, hasRespawnAnchor, block) ==> unchanged(this) && flags == 0
      ensures !SkipsBlock(p, hasRespawnAnchor, block) ==>
        lastPlaceTime == old(lastPlaceTime)[p.id := now] && lastLocation == old(lastLocation)[p.id := loc]
      ensures !SkipsBlock(p, hasRespawnAnchor, block) && p.id !in old(lastPlaceTime) ==>
        suspiciousActions == old(suspiciousActions) && flags == 0
      ensures !SkipsBlock(p, hasRespawnAnchor, block) && p.id in old(lastPlaceTime) ==>
        var rapid := TooSoon(now - old(lastPlaceTime)[p.id], GetLong(cfg, "autoanchor.min-place-time", 200), HalfPing(data.ping, 100));
        var t := Bump(Tally(old(suspiciousActions), 0), p.id, rapid, Threshold(cfg));
        suspiciousActions == t.counts && flags == t.flags
      ensures Threshold(cfg) >= 1 && AllBelow(old(suspiciousActions), Threshold(cfg)) ==>
        AllBelow(suspiciousActions, Threshold(cfg))
    {
      flags := 0;
      if SkipsBlock(p, hasRespawnAnchor, block) {
        return;
      }
      if p.id !in lastPlaceTime {
        lastPlaceTime := lastPlaceTime[p.id := now];
        lastLocation := lastLocation[p.id := loc];
        return;
      }
      var lastTime := lastPlaceTime[p.id];
      var previous := Lookup(lastLocation, p.id);
      lastPlaceTime := lastPlaceTime[p.id := now];
      lastLocation := lastLocation[p.id := loc];
      var minPlaceTime := GetLong(cfg, "autoanchor.min-place-time", 200);
      var compensation := HalfPing(data.ping, 100);
      if TooSoon(now - lastTime, minPlaceTime, compensation) {
        BumpKeepsBelow(Tally(suspiciousActions, 0), p.id, true, Threshold(cfg));
        var flagged;
        if previous.Some? && loc.world == previous.value.world
           && distance > GetDouble(cfg, "autoanchor.max-distance", 10.0) {
          // placed too quickly at distant locations
          flagged := IncrementSuspiciousActions(p.id, cfg);
        } else {
          // placed too quickly
          flagged := IncrementSuspiciousActions(p.id, cfg);
        }
        flags := if flagged then 1 else 0;
      }
    }

    /** checkAnchorCharge: its own interval, then the place-to-charge gap. */
    method CheckAnchorCharge(p: Actor, data: PlayerData, cfg: CheckConfig, hasRespawnAnchor: bool,
                             block: Material, now: int)
      returns (flags: nat)
      modifies this`lastChargeTime, this`suspiciousActions
      ensures SkipsBlock(p, hasRespawnAnchor, block) ==> unchanged(this) && flags == 0
      ensures !SkipsBlock(p, hasRespawnAnchor, block) ==> lastChargeTime == old(lastChargeTime)[p.id := now]
      ensures !SkipsBlock(p, hasRespawnAnchor, block) && p.id !in old(lastChargeTime) ==>
        suspiciousActions == old(suspiciousActions) && flags == 0
      ensures !SkipsBlock(p, hasRespawnAnchor, block) && p.id in old(lastChargeTime) ==>
        var comp := HalfPing(data.ping, 100);
        var rapid := TooSoon(now - old(lastChargeTime)[p.id], GetLong(cfg, "autoanchor.min-charge-time", 150), comp);
        var afterPlace := p.id in lastPlaceTime
          && TooSoon(now - lastPlaceTime[p.id], GetLong(cfg, "autoanchor.min-place-charge-time", 100), comp);
        var t := Bump(Bump(Tally(old(suspiciousActions), 0), p.id, rapid, Threshold(cfg)), p.id, afterPlace, Threshold(cfg));
        suspiciousActions == t.counts && flags == t.flags
      ensures Threshold(cfg) >= 1 && AllBelow(old(suspiciousActions), Threshold(cfg)) ==>
        AllBelow(suspiciousActions, Threshold(cfg))
    {
      flags := 0;
      if SkipsBlock(p, hasRespawnAnchor, block) {
        return;
      }
      if p.id !in lastChargeTime {
        lastChargeTime := lastChargeTime[p.id := now];
        return;
      }
      var lastTime := lastChargeTime[p.id];
      lastChargeTime := lastChargeTime[p.id := now];
      var compensation := HalfPing(data.ping, 100);
      ghost var t0 := Tally(suspiciousActions, 0);
      var rapid := TooSoon(now - lastTime, GetLong(cfg, "autoanchor.min-charge-time", 150), compensation);
      BumpKeepsBelow(t0, p.id, rapid, Threshold(cfg));
      if rapid {
        var flagged := IncrementSuspiciousActions(p.id, cfg);
        flags := if flagged then 1 else 0;
      }
      ghost var t1 := Bump(t0, p.id, rapid, Threshold(cfg));
      assert suspiciousActions == t1.counts && flags == t1.flags;
      if p.id in lastPlaceTime {
        var timeSincePlacement := now - lastPlaceTime[p.id];
        if TooSoon(timeSincePlacement, GetLong(cfg, "autoanchor.min-place-charge-time", 100), compensation) {
          BumpKeepsBelow(t1, p.id, true, Threshold(cfg));
          var flagged := IncrementSuspiciousActions(p.id, cfg);
          flags := flags + if flagged then 1 else 0;
        }
      }
    }

    /** checkAnchorDetonate: its own interval, then the charge-to-detonate gap. */
    method CheckAnchorDetonate(p: Actor, data: PlayerData, cfg: CheckConfig, hasRespawnAnchor: bool,
                               block: Material, now: int)
      returns (flags: nat)
      modifies this`lastDetonateTime, this`suspiciousActions
      ensures SkipsBlock(p, hasRespawnAnchor, block) ==> unchanged(this) && flags == 0
      ensures !SkipsBlock(p, hasRespawnAnchor, block) ==> lastDetonateTime == old(lastDetonateTime)[p.id := now]
      ensures !SkipsBlock(p, hasRespawnAnchor, block) && p.id !in old(lastDetonateTime) ==>
        suspiciousActions == old(suspiciousActions) && flags == 0
      ensures !SkipsBlock(p, hasRespawnAnchor, block) && p.id in old(lastDetonateTime) ==>
        var comp := HalfPing(data.ping, 100);
        var rapid := TooSoon(now - old(lastDetonateTime)[p.id], GetLong(cfg, "autoanchor.min-detonate-time", 300), comp);
        var afterCharge := p.id in lastChargeTime
          && TooSoon(now - lastChargeTime[p.id], GetLong(cfg, "autoanchor.min-charge-detonate-time", 150), comp);
        var t := Bump(Bump(Tally(old(suspiciousActions), 0), p.id, rapid, Threshold(cfg)), p.id, afterCharge, Threshold(cfg));
        suspiciousActions == t.counts && flags == t.flags
      ensures Threshold(cfg) >= 1 && AllBelow(old(suspiciousActions), Threshold(cfg)) ==>
        AllBelow(suspiciousActions, Threshold(cfg))
    {
      flags := 0;
      if SkipsBlock(p, hasRespawnAnchor, block) {
        return;
      }
      if p.id !in lastDetonateTime {
        lastDetonateTime := lastDetonateTime[p.id := now];
        return;
      }
      var lastTime := lastDetonateTime[p.id];
      lastDetonateTime := lastDetonateTime[p.id := now];
      var compensation := HalfPing(data.ping, 100);
      ghost var t0 := Tally(suspiciousActions, 0);
      var rapid := TooSoon(now - lastTime, GetLong(cfg, "autoanchor.min-detonate-time", 300), compensation);
      BumpKeepsBelow(t0, p.id, rapid, Threshold(cfg));
      if rapid {
        var flagged := IncrementSuspiciousActions(p.id, cfg);
        flags := if flagged then 1 else 0;
      }
      ghost var t1 := Bump(t0, p.id, rapid, Threshold(cfg));
      assert suspiciousActions == t1.counts && flags == t1.flags;
      if p.id in lastChargeTime {
        var timeSinceCharge := now - lastChargeTime[p.id];
        if TooSoon(timeSinceCharge, GetLong(cfg, "autoanchor.min-charge-detonate-time", 150), compensation) {
          BumpKeepsBelow(t1, p.id, true, Threshold(cfg));
          var flagged := IncrementSuspiciousActions(p.id, cfg);
          flags := flags + if flagged then 1 else 0;
        }
      }
    }

    /** checkItemSwitch: times a switch to a watched item against the latest anchor event; records nothing. */
    method CheckItemSwitch(p: Actor, data: PlayerData, cfg: CheckConfig, hasRespawnAnchor: bool,
                           item: Option<Material>, now: int)
      returns (flags: nat)
      modifies this`suspiciousActions
      ensures var lastAction := LastAnchorAction(lastPlaceTime, lastChargeTime, lastDetonateTime, p.id);
        var suspicious := check.enabled && !p.bypass && item.Some? && AnchorRelated(item.value, hasRespawnAnchor)
          && lastAction > 0
          && TooSoon(now - lastAction, GetLong(cfg, "autoanchor.min-switch-time", 150), HalfPing(data.ping, 100));
        var t := Bump(Tally(old(suspiciousActions), 0), p.id, suspicious, Threshold(cfg));
        suspiciousActions == t.counts && flags == t.flags
      ensures Threshold(cfg) >= 1 && AllBelow(old(suspiciousActions), Threshold(cfg)) ==>
        AllBelow(suspiciousActions, Threshold(cfg))
    {
      flags := 0;
      if !check.enabled || p.bypass {
        return;
      }
      if item.None? {
        return;
      }
      if !AnchorRelated(item.value, hasRespawnAnchor) {
        return;
      }
      var lastAction := LastAnchorAction(lastPlaceTime, lastChargeTime, lastDetonateTime, p.id);
      var timeSinceAction := now - lastAction;
      var minSwitchTime := GetLong(cfg, "autoanchor.min-switch-time", 150);
      var compensation := HalfPing(data.ping, 100);
      if lastAction > 0 && TooSoon(timeSinceAction, minSwitchTime, compensation) {
        BumpKeepsBelow(Tally(suspiciousActions, 0), p.id, true, Threshold(cfg));
        var flagged := IncrementSuspiciousActions(p.id, cfg);
        flags := if flagged then 1 else 0;
      }
    }
  }
}
