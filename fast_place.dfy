/**
 * FastPlaceCheck: a block placed sooner after the previous one than the
 * minimum interval (less half the ping, at most 100 ms) is flagged. Eyes
 * into end portal frames and end crystals, as this or the previous
 * placement, get their own minimum; the crystal one wins.
 */
module FastPlace {
  import opened Util
  import opened Config
  import opened Latency
  import opened Checks
  import opened PlayerState
  import opened Materials

  /** The minimum interval for a placement of blockType after one of lastType. */
  function MinPlaceTime(cfg: CheckConfig, blockType: Material, lastType: Material): (r: int)
    ensures blockType == EndCrystal || lastType == EndCrystal ==> r == GetLong(cfg, "fastplace.min-crystal-time", 100)
    ensures blockType != EndCrystal && lastType != EndCrystal && (blockType == EndPortalFrame || lastType == EndPortalFrame) ==>
      r == GetLong(cfg, "fastplace.min-special-time", 100)
    ensures blockType !in {EndCrystal, EndPortalFrame} && lastType !in {EndCrystal, EndPortalFrame} ==>
      r == GetLong(cfg, "fastplace.min-place-time", 50)
  {
    var normal := GetLong(cfg, "fastplace.min-place-time", 50);
    var special := if blockType == EndPortalFrame || lastType == EndPortalFrame
                   then GetLong(cfg, "fastplace.min-special-time", 100) else normal;
    if blockType == EndCrystal || lastType == EndCrystal then GetLong(cfg, "fastplace.min-crystal-time", 100) else special
  }

  /** The placement is flagged: sooner than the minimum after half the ping, capped at 100 ms. */
  predicate TooFastPlace(interval: int, minimum: int, ping: nat)
  {
    TooSoon(interval, minimum, HalfPing(ping, 100))
  }

  /** With the default configuration, 60 ms between stone blocks passes, between crystals it flags, and 200 ms of ping forgives it. */
  lemma DefaultIntervals()
    ensures !TooFastPlace(60, MinPlaceTime(map[], "STONE", "STONE"), 0)
    ensures TooFastPlace(60, MinPlaceTime(map[], EndCrystal, "STONE"), 0)
    ensures TooFastPlace(60, MinPlaceTime(map[], "STONE", EndPortalFrame), 0)
    ensures !TooFastPlace(60, MinPlaceTime(map[], EndCrystal, "STONE"), 200)
  {
  }

  /** The minimum depends on the pair of placements, not on which came first. */
  lemma MinPlaceTimeSymmetric(cfg: CheckConfig, a: Material, b: Material)
    ensures MinPlaceTime(cfg, a, b) == MinPlaceTime(cfg, b, a)
  {
  }

  /** A placement too fast for a laggy player is too fast for one with less ping, or with none. */
  lemma {:induction false} PlaceLagOnlyForgives(interval: int, minimum: int, p1: nat, p2: nat)
    requires p1 <= p2 && TooFastPlace(interval, minimum, p2)
    ensures TooFastPlace(interval, minimum, p1)
    ensures TooSoon(interval, minimum, 0)
  {
    LagOnlyForgives(interval, minimum, p1, p2, 2, 100);
  }

  class FastPlaceCheck {
    const check: Check
    var lastPlaceTime: map<Uuid, int>
    var lastPlacedType: map<Uuid, Material>

    /** Both maps are written together, so they always have the same players. */
    predicate Valid()
      reads this
    {
      lastPlaceTime.Keys == lastPlacedType.Keys
    }

    constructor (categoryConfig: Option<CheckConfig>)
      ensures fresh(check) && check.name == "FastPlace" && check.checkType == "player"
      ensures lastPlaceTime == map[] && lastPlacedType == map[] && Valid()
    {
      check := new Check("FastPlace", "player", categoryConfig);
      lastPlaceTime, lastPlacedType := map[], map[];
    }

    predicate Skips(p: Actor)
      reads check
    {
      !check.enabled || p.bypass
    }

    /** checkBlockPlace: records this placement, then flags it when it came too soon after the last one. */
    method CheckBlockPlace(p: Actor, data: PlayerData, cfg: CheckConfig, mainCfg: CheckConfig, creative: bool,
                           blockType: Material, now: int)
      returns (flags: nat)
      requires Valid()
      modifies this`lastPlaceTime, this`lastPlacedType
      ensures Valid()
      ensures var exempt := Skips(p) || (creative && GetBoolean(mainCfg, "exemptions.creative-mode", false));
        && (exempt ==> unchanged(this) && flags == 0)
        && (!exempt ==> lastPlaceTime == old(lastPlaceTime)[p.id := now] && lastPlacedType == old(lastPlacedType)[p.id := blockType])
        && flags <= 1
        && (flags == 1 <==>
              !exempt && p.id in old(lastPlaceTime)
              && TooFastPlace(now - old(lastPlaceTime)[p.id], MinPlaceTime(cfg, blockType, old(lastPlacedType)[p.id]), data.ping))
    {
      flags := 0;
      if Skips(p) {
        return;
      }
      if creative && GetBoolean(mainCfg, "exemptions.creative-mode", false) {
        return;
      }
      if p.id !in lastPlaceTime {
        lastPlaceTime := lastPlaceTime[p.id := now];
        lastPlacedType := lastPlacedType[p.id := blockType];
        return;
      }
      var lastTime := lastPlaceTime[p.id];
      var lastType := lastPlacedType[p.id];
      lastPlaceTime := lastPlaceTime[p.id := now];
      lastPlacedType := lastPlacedType[p.id := blockType];
      var minPlaceTime := MinPlaceTime(cfg, blockType, lastType);
      if TooFastPlace(now - lastTime, minPlaceTime, data.ping) {
        flags := 1;
      }
    }

    /**
     * checkCrystalPlace: the same bookkeeping with the crystal minimum and no
     * creative exemption; it records END_CRYSTAL as the last placed type.
     */
    method CheckCrystalPlace(p: Actor, data: PlayerData, cfg: CheckConfig, now: int)
      returns (flags: nat)
      requires Valid()
      modifies this`lastPlaceTime, this`lastPlacedType
      ensures Valid()
      ensures Skips(p) ==> unchanged(this) && flags == 0
      ensures !Skips(p) ==> lastPlaceTime == old(lastPlaceTime)[p.id := now] && lastPlacedType == old(lastPlacedType)[p.id := EndCrystal]
      ensures flags <= 1
      ensures flags == 1 <==>
        !Skips(p) && p.id in old(lastPlaceTime)
        && TooFastPlace(now - old(lastPlaceTime)[p.id], GetLong(cfg, "fastplace.min-crystal-time", 100), data.ping)
      // the threshold is the one checkBlockPlace applies to an END_CRYSTAL block
      ensures p.id in old(lastPlaceTime) ==>
        MinPlaceTime(cfg, EndCrystal, old(lastPlacedType)[p.id]) == GetLong(cfg, "fastplace.min-crystal-time", 100)
    {
      flags := 0;
      if Skips(p) {
        return;
      }
      if p.id !in lastPlaceTime {
        lastPlaceTime := lastPlaceTime[p.id := now];
        lastPlacedType := lastPlacedType[p.id := EndCrystal];
        return;
      }
      var lastTime := lastPlaceTime[p.id];
      lastPlaceTime := lastPlaceTime[p.id := now];
      lastPlacedType := lastPlacedType[p.id := EndCrystal];
      var minCrystalTime := GetLong(cfg, "fastplace.min-crystal-time", 100);
      if TooFastPlace(now - lastTime, minCrystalTime, data.ping) {
        flags := 1;
      }
    }
  }
}
