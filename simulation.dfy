/**
 * SimulationCheck: clients that simulate the server answer its events
 * (damage, knockback, velocity, teleport) faster than a round trip allows,
 * and end up exactly where a disrupted prediction would have put them.
 * Each such sample is one suspicion; by default the fifth flags and clears
 * the counter. All event kinds share one last-action timestamp.
 */
module Simulation {
  import opened Util
  import opened Config
  import opened Latency
  import opened Suspicion
  import opened Checks
  import opened PlayerState

  /** simulation.threshold, default 5. */
  function Threshold(cfg: CheckConfig): int
  {
    GetInt(cfg, "simulation.threshold", 5)
  }

  /** The minimum response time for an event kind; any other kind uses simulation.min-response-time. */
  function MinResponseTime(cfg: CheckConfig, eventType: string): (r: int)
    ensures eventType !in {"knockback", "velocity", "teleport"} ==> r == GetLong(cfg, "simulation.min-response-time", 100)
    ensures cfg == map[] ==> r == (if eventType == "velocity" then 80 else if eventType == "teleport" then 150 else 100)
  {
    match eventType
    case "knockback" => GetLong(cfg, "simulation.min-knockback-response-time", 100)
    case "velocity" => GetLong(cfg, "simulation.min-velocity-response-time", 80)
    case "teleport" => GetLong(cfg, "simulation.min-teleport-response-time", 150)
    case _ => GetLong(cfg, "simulation.min-response-time", 100)
  }

  class SimulationCheck {
    const check: Check
    var lastActionTime: map<Uuid, int>
    var suspiciousActions: map<Uuid, nat>
    var predictedLocations: map<Uuid, Location>

    constructor (categoryConfig: Option<CheckConfig>)
      ensures fresh(check) && check.name == "Simulation" && check.checkType == "player"
      ensures lastActionTime == map[] && suspiciousActions == map[] && predictedLocations == map[]
    {
      check := new Check("Simulation", "player", categoryConfig);
      lastActionTime, suspiciousActions, predictedLocations := map[], map[], map[];
    }

    predicate Skips(p: Actor)
      reads check
    {
      !check.enabled || p.bypass
    }

    /** incrementSuspiciousActions: returns the number of flag() calls, 0 or 1. */
    method IncrementSuspiciousActions(u: Uuid, cfg: CheckConfig) returns (flags: nat)
      modifies this`suspiciousActions
      ensures var t := Bump(Tally(old(suspiciousActions), 0), u, true, Threshold(cfg));
        suspiciousActions == t.counts && flags == t.flags
    {
      var count := Count(suspiciousActions, u) + 1;
      suspiciousActions := suspiciousActions[u := count];
      flags := 0;
      if count >= Threshold(cfg) {
        flags := 1;
        suspiciousActions := suspiciousActions[u := 0];
      }
    }

    /** checkResponseTime: records the action; one sooner than the event's minimum after the previous action is a suspicion. */
    method CheckResponseTime(p: Actor, data: PlayerData, cfg: CheckConfig, eventType: string, now: int)
      returns (flags: nat)
      modifies this`lastActionTime, this`suspiciousActions
      ensures Skips(p) ==> unchanged(this) && flags == 0
      ensures !Skips(p) ==> lastActionTime == old(lastActionTime)[p.id := now]
      ensures !Skips(p) ==>
        var suspicious := p.id in old(lastActionTime)
          && TooSoon(now - old(lastActionTime)[p.id], MinResponseTime(cfg, eventType), HalfPing(data.ping, 100));
        var t := Bump(Tally(old(suspiciousActions), 0), p.id, suspicious, Threshold(cfg));
        suspiciousActions == t.counts && flags == t.flags
      ensures Threshold(cfg) >= 1 && AllBelow(old(suspiciousActions), Threshold(cfg)) ==>
        AllBelow(suspiciousActions, Threshold(cfg))
    {
      flags := 0;
      if Skips(p) {
        return;
      }
      if p.id !in lastActionTime {
        lastActionTime := lastActionTime[p.id := now];
        return;
      }
      var lastTime := lastActionTime[p.id];
      lastActionTime := lastActionTime[p.id := now];
      var minResponseTime := MinResponseTime(cfg, eventType);
      var compensation := HalfPing(data.ping, 100);
      if TooSoon(now - lastTime, minResponseTime, compensation) {
        BumpKeepsBelow(Tally(suspiciousActions, 0), p.id, true, Threshold(cfg));
        flags := IncrementSuspiciousActions(p.id, cfg);
      }
    }

    /**
     * checkMovementPrediction: outside an event the location is stored as
     * the prediction; after an event a stored prediction in the same world
     * closer than max-prediction-distance (0.5 by default) is a suspicion,
     * and the prediction is dropped either way.
     */
    method CheckMovementPrediction(p: Actor, cfg: CheckConfig, location: Location, isPredictionCheck: bool)
      returns (flags: nat)
      modifies this`suspiciousActions, this`predictedLocations
      ensures Skips(p) ==> unchanged(this) && flags == 0
      ensures !Skips(p) && !isPredictionCheck ==>
        predictedLocations == old(predictedLocations)[p.id := location]
        && suspiciousActions == old(suspiciousActions) && flags == 0
      ensures !Skips(p) && isPredictionCheck ==>
        predictedLocations == old(predictedLocations) - {p.id}
      ensures !Skips(p) && isPredictionCheck ==>
        var suspicious := p.id in old(predictedLocations)
          && old(predictedLocations)[p.id].world == location.world
          && CloserThan(old(predictedLocations)[p.id], location, GetDouble(cfg, "simulation.max-prediction-distance", 0.5));
        var t := Bump(Tally(old(suspiciousActions), 0), p.id, suspicious, Threshold(cfg));
        suspiciousActions == t.counts && flags == t.flags
    {
      flags := 0;
      if Skips(p) {
        return;
      }
      if isPredictionCheck {
        if p.id in predictedLocations {
          var predicted := predictedLocations[p.id];
          if predicted.world == location.world {
            var maxDistance := GetDouble(cfg, "simulation.max-prediction-distance", 0.5);
            if CloserThan(predicted, location, maxDistance) {
              flags := IncrementSuspiciousActions(p.id, cfg);
            }
          }
          predictedLocations := predictedLocations - {p.id};
        }
      } else {
        predictedLocations := predictedLocations[p.id := location];
      }
    }

    /** checkDamageResponse: a response with the default minimum. */
    method CheckDamageResponse(p: Actor, data: PlayerData, cfg: CheckConfig, now: int) returns (flags: nat)
      modifies this`lastActionTime, this`suspiciousActions
      ensures Skips(p) ==> unchanged(this) && flags == 0
      ensures !Skips(p) ==>
        var suspicious := p.id in old(lastActionTime)
          && TooSoon(now - old(lastActionTime)[p.id], GetLong(cfg, "simulation.min-response-time", 100), HalfPing(data.ping, 100));
        var t := Bump(Tally(old(suspiciousActions), 0), p.id, suspicious, Threshold(cfg));
        lastActionTime == old(lastActionTime)[p.id := now] && suspiciousActions == t.counts && flags == t.flags
    {
      flags := CheckResponseTime(p, data, cfg, "damage", now);
    }

    /** checkKnockbackResponse. */
    method CheckKnockbackResponse(p: Actor, data: PlayerData, cfg: CheckConfig, now: int) returns (flags: nat)
      modifies this`lastActionTime, this`suspiciousActions
      ensures Skips(p) ==> unchanged(this) && flags == 0
      ensures !Skips(p) ==>
        var suspicious := p.id in old(lastActionTime)
          && TooSoon(now - old(lastActionTime)[p.id], GetLong(cfg, "simulation.min-knockback-response-time", 100), HalfPing(data.ping, 100));
        var t := Bump(Tally(old(suspiciousActions), 0), p.id, suspicious, Threshold(cfg));
        lastActionTime == old(lastActionTime)[p.id := now] && suspiciousActions == t.counts && flags == t.flags
    {
      flags := CheckResponseTime(p, data, cfg, "knockback", now);
    }

    /** checkVelocityResponse. */
    method CheckVelocityResponse(p: Actor, data: PlayerData, cfg: CheckConfig, now: int) returns (flags: nat)
      modifies this`lastActionTime, this`suspiciousActions
      ensures Skips(p) ==> unchanged(this) && flags == 0
      ensures !Skips(p) ==>
        var suspicious := p.id in old(lastActionTime)
          && TooSoon(now - old(lastActionTime)[p.id], GetLong(cfg, "simulation.min-velocity-response-time", 80), HalfPing(data.ping, 100));
        var t := Bump(Tally(old(suspiciousActions), 0), p.id, suspicious, Threshold(cfg));
        lastActionTime == old(lastActionTime)[p.id := now] && suspiciousActions == t.counts && flags == t.flags
    {
      flags := CheckResponseTime(p, data, cfg, "velocity", now);
    }

    /** checkTeleportResponse. */
    method CheckTeleportResponse(p: Actor, data: PlayerData, cfg: CheckConfig, now: int) returns (flags: nat)
      modifies this`lastActionTime, this`suspiciousActions
      ensures Skips(p) ==> unchanged(this) && flags == 0
      ensures !Skips(p) ==>
        var suspicious := p.id in old(lastActionTime)
          && TooSoon(now - old(lastActionTime)[p.id], GetLong(cfg, "simulation.min-teleport-response-time", 150), HalfPing(data.ping, 100));
        var t := Bump(Tally(old(suspiciousActions), 0), p.id, suspicious, Threshold(cfg));
        lastActionTime == old(lastActionTime)[p.id := now] && suspiciousActions == t.counts && flags == t.flags
    {
      flags := CheckResponseTime(p, data, cfg, "teleport", now);
    }
  }

  /** A larger max-prediction-distance can only catch more samples. */
  lemma CloserThanWidens(a: Location, b: Location, l1: real, l2: real)
    requires l1 <= l2
    ensures CloserThan(a, b, l1) ==> CloserThan(a, b, l2)
  {
    if l1 > 0.0 {
      SquareMonotone(l1, l2);
    }
  }
}
