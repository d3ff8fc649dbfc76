/**
 * CrystalAuraCheck: crystal-aura clients place crystals rapidly, break
 * them almost as soon as they are placed, and aim at neither. Too-fast
 * intervals and wide aim angles are suspicions; rapid place-to-break gaps
 * first feed a sequence counter, and only a full sequence (3 by default)
 * becomes one suspicion. By default the fifth suspicion flags and clears
 * the counter.
 */
module CrystalAura {
  import opened Util
  import opened Config
  import opened Latency
  import opened Suspicion
  import opened Checks
  import opened PlayerState

  /** crystalaura.threshold, default 5. */
  function Threshold(cfg: CheckConfig): int
  {
    GetInt(cfg, "crystalaura.threshold", 5)
  }

  /** crystalaura.sequence-threshold, default 3. */
  function SequenceThreshold(cfg: CheckConfig): int
  {
    GetInt(cfg, "crystalaura.sequence-threshold", 3)
  }

  class CrystalAuraCheck {
    const check: Check
    var lastPlaceTime: map<Uuid, int>
    var lastBreakTime: map<Uuid, int>
    var lastPlaceLocation: map<Uuid, Location>
    var suspiciousActions: map<Uuid, nat>
    var crystalSequenceCount: map<Uuid, nat>

    constructor (categoryConfig: Option<CheckConfig>)
      ensures fresh(check) && check.name == "CrystalAura" && check.checkType == "combat"
      ensures lastPlaceTime == map[] && lastBreakTime == map[] && lastPlaceLocation == map[]
      ensures suspiciousActions == map[] && crystalSequenceCount == map[]
    {
      check := new Check("CrystalAura", "combat", categoryConfig);
      lastPlaceTime, lastBreakTime, lastPlaceLocation := map[], map[], map[];
      suspiciousActions, crystalSequenceCount := map[], map[];
    }

    predicate Skips(p: Actor)
      reads check
    {
      !check.enabled || p.bypass
    }

    /** The previous placement was in the same world and more than max-distance away. */
    predicate FarFromPrevious(previous: Option<Location>, loc: Location, distance: real, cfg: CheckConfig)
    {
      previous.Some? && loc.world == previous.value.world
      && distance > GetDouble(cfg, "crystalaura.max-distance", 10.0)
    }

    /** incrementSuspiciousActions: returns whether it called flag(). */
    method IncrementSuspiciousActions(u: Uuid, cfg: CheckConfig) returns (flagged: bool)
      modifies this`suspiciousActions
      ensures var t := Bump(Tally(old(suspiciousActions), 0), u, true, Threshold(cfg));
        suspiciousActions == t.counts && (flagged <==> t.flags == 1)
    {
      var count := Count(suspiciousActions, u) + 1;
      suspiciousActions := suspiciousActions[u := count];
      flagged := count >= Threshold(cfg);
      if flagged {
        suspiciousActions := suspiciousActions[u := 0];
      }
    }

    /** checkPlacementAngle: an angle wider than max-place-angle (30 by default) is one suspicion. */
    method CheckPlacementAngle(u: Uuid, cfg: CheckConfig, angle: real) returns (flags: nat)
      modifies this`suspiciousActions
      ensures var t := Bump(Tally(old(suspiciousActions), 0), u, angle > GetDouble(cfg, "crystalaura.max-place-angle", 30.0), Threshold(cfg));
        suspiciousActions == t.counts && flags == t.flags
    {
      flags := 0;
      var maxAngle := GetDouble(cfg, "crystalaura.max-place-angle", 30.0);
      if angle > maxAngle {
        var flagged := IncrementSuspiciousActions(u, cfg);
        flags := if flagged then 1 else 0;
      }
    }

    /** checkBreakAngle: an angle wider than max-break-angle (45 by default) is one suspicion. */
    method CheckBreakAngle(u: Uuid, cfg: CheckConfig, angle: real) returns (flags: nat)
      modifies this`suspiciousActions
      ensures var t := Bump(Tally(old(suspiciousActions), 0), u, angle > GetDouble(cfg, "crystalaura.max-break-angle", 45.0), Threshold(cfg));
        suspiciousActions == t.counts && flags == t.flags
    {
      flags := 0;
      var maxAngle := GetDouble(cfg, "crystalaura.max-break-angle", 45.0);
      if angle > maxAngle {
        var flagged := IncrementSuspiciousActions(u, cfg);
        flags := if flagged then 1 else 0;
      }
    }

    /**
     * checkCrystalPlace. A rapid placement far from the previous one is one
     * suspicion and ends the event; otherwise the placement angle is tested too.
     */
    method CheckCrystalPlace(p: Actor, data: PlayerData, cfg: CheckConfig, loc: Location, distance: real,
                             angle: real, now: int)
      returns (flags: nat)
      modifies this`lastPlaceTime, this`lastPlaceLocation, this`suspiciousActions
      ensures Skips(p) ==> unchanged(this) && flags == 0
      ensures !Skips(p) ==>
        lastPlaceTime == old(lastPlaceTime)[p.id := now] && lastPlaceLocation == old(lastPlaceLocation)[p.id := loc]
      ensures !Skips(p) && p.id !in old(lastPlaceTime) ==> suspiciousActions == old(suspiciousActions) && flags == 0
      ensures !Skips(p) && p.id in old(lastPlaceTime) ==>
        var rapid := TooSoon(now - old(lastPlaceTime)[p.id], GetLong(cfg, "crystalaura.min-place-time", 150), HalfPing(data.ping, 100));
        var far := FarFromPrevious(Lookup(old(lastPlaceLocation), p.id), loc, distance, cfg);
        var t1 := Bump(Tally(old(suspiciousActions), 0), p.id, rapid, Threshold(cfg));
        var t := if rapid && far then t1
                 else Bump(t1, p.id, angle > GetDouble(cfg, "crystalaura.max-place-angle", 30.0), Threshold(cfg));
        suspiciousActions == t.counts && flags == t.flags
    {
      flags := 0;
      if Skips(p) {
        return;
      }
      if p.id !in lastPlaceTime {
        lastPlaceTime := lastPlaceTime[p.id := now];
        lastPlaceLocation := lastPlaceLocation[p.id := loc];
        return;
      }
      var lastTime := lastPlaceTime[p.id];
      var previous := Lookup(lastPlaceLocation, p.id);
      lastPlaceTime := lastPlaceTime[p.id := now];
      lastPlaceLocation := lastPlaceLocation[p.id := loc];
      var minPlaceTime := GetLong(cfg, "crystalaura.min-place-time", 150);
      var compensation := HalfPing(data.ping, 100);
      if TooSoon(now - lastTime, minPlaceTime, compensation) {
        if FarFromPrevious(previous, loc, distance, cfg) {
          var flagged := IncrementSuspiciousActions(p.id, cfg);
          flags := if flagged then 1 else 0;
          return;
        }
        var flagged := IncrementSuspiciousActions(p.id, cfg);
        flags := if flagged then 1 else 0;
      }
      var more := CheckPlacementAngle(p.id, cfg, angle);
      flags := flags + more;
    }

    /**
     * The sequence part of checkCrystalBreak: a break soon after the last
     * placement advances the sequence counter, and a full sequence is one
     * suspicion and clears it; a normal gap clears it; with no placement on
     * record nothing happens.
     */
    method TrackSequence(u: Uuid, cfg: CheckConfig, compensation: int, now: int) returns (flags: nat)
      modifies this`suspiciousActions, this`crystalSequenceCount
      ensures var sequenced := u in lastPlaceTime
          && TooSoon(now - lastPlaceTime[u], GetLong(cfg, "crystalaura.min-place-break-time", 50), compensation);
        var step := Accumulate(Count(old(crystalSequenceCount), u), SequenceThreshold(cfg));
        var t := Bump(Tally(old(suspiciousActions), 0), u, sequenced && step.flagged, Threshold(cfg));
        && crystalSequenceCount == (if u !in lastPlaceTime then old(crystalSequenceCount)
                                    else old(crystalSequenceCount)[u := if sequenced then step.count else 0])
        && suspiciousActions == t.counts && flags == t.flags
    {
      flags := 0;
      if u in lastPlaceTime {
        var timeSincePlacement := now - lastPlaceTime[u];
        var minPlaceBreakTime := GetLong(cfg, "crystalaura.min-place-break-time", 50);
        if TooSoon(timeSincePlacement, minPlaceBreakTime, compensation) {
          var sequenceCount := Count(crystalSequenceCount, u) + 1;
          crystalSequenceCount := crystalSequenceCount[u := sequenceCount];
          if sequenceCount >= SequenceThreshold(cfg) {
            var flagged := IncrementSuspiciousActions(u, cfg);
            flags := if flagged then 1 else 0;
            crystalSequenceCount := crystalSequenceCount[u := 0];
          }
        } else {
          crystalSequenceCount := crystalSequenceCount[u := 0];
        }
      }
    }

    /**
     * checkCrystalBreak: the sequence step, then the first break only records
     * its time; later breaks test their own interval and the break angle.
     */
    method CheckCrystalBreak(p: Actor, data: PlayerData, cfg: CheckConfig, isCrystal: bool, angle: real, now: int)
      returns (flags: nat)
      modifies this`lastBreakTime, this`suspiciousActions, this`crystalSequenceCount
      ensures Skips(p) || !isCrystal ==> unchanged(this) && flags == 0
      ensures !Skips(p) && isCrystal ==> lastBreakTime == old(lastBreakTime)[p.id := now]
      ensures !Skips(p) && isCrystal ==>
        var comp := HalfPing(data.ping, 100);
        var sequenced := p.id in lastPlaceTime
          && TooSoon(now - lastPlaceTime[p.id], GetLong(cfg, "crystalaura.min-place-break-time", 50), comp);
        var step := Accumulate(Count(old(crystalSequenceCount), p.id), SequenceThreshold(cfg));
        crystalSequenceCount == (if p.id !in lastPlaceTime then old(crystalSequenceCount)
                                 else old(crystalSequenceCount)[p.id := if sequenced then step.count else 0])
      ensures !Skips(p) && isCrystal ==>
        var comp := HalfPing(data.ping, 100);
        var sequenced := p.id in lastPlaceTime
          && TooSoon(now - lastPlaceTime[p.id], GetLong(cfg, "crystalaura.min-place-break-time", 50), comp);
        var step := Accumulate(Count(old(crystalSequenceCount), p.id), SequenceThreshold(cfg));
        var t1 := Bump(Tally(old(suspiciousActions), 0), p.id, sequenced && step.flagged, Threshold(cfg));
        var rapid := p.id in old(lastBreakTime)
          && TooSoon(now - old(lastBreakTime)[p.id], GetLong(cfg, "crystalaura.min-break-time", 150), comp);
        var t := if p.id !in old(lastBreakTime) then t1
                 else Bump(Bump(t1, p.id, rapid, Threshold(cfg)), p.id,
                           angle > GetDouble(cfg, "crystalaura.max-break-angle", 45.0), Threshold(cfg));
        suspiciousActions == t.counts && flags == t.flags
    {
      flags := 0;
      if Skips(p) || !isCrystal {
        return;
      }
      var compensation := HalfPing(data.ping, 100);
      flags := TrackSequence(p.id, cfg, compensation, now);
      ghost var afterSequence := suspiciousActions;
      ghost var t1 := Tally(afterSequence, flags);
      if p.id !in lastBreakTime {
        lastBreakTime := lastBreakTime[p.id := now];
        return;
      }
      var lastTime := lastBreakTime[p.id];
      lastBreakTime := lastBreakTime[p.id := now];
      var minBreakTime := GetLong(cfg, "crystalaura.min-break-time", 150);
      var rapid := TooSoon(now - lastTime, minBreakTime, compensation);
      if rapid {
        var flagged := IncrementSuspiciousActions(p.id, cfg);
        flags := flags + if flagged then 1 else 0;
      }
      assert Tally(suspiciousActions, flags) == Bump(t1, p.id, rapid, Threshold(cfg));
      var more := CheckBreakAngle(p.id, cfg, angle);
      flags := flags + more;
    }

    /** checkObsidianCrystalSequence: a placeholder that records and flags nothing. */
    method CheckObsidianCrystalSequence(p: Actor, block: Material) returns (flags: nat)
      ensures flags == 0
    {
      flags := 0;
    }
  }
}
