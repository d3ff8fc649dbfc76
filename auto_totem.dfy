/**
 * AutoTotemCheck: auto-totem clients move a Totem of Undying into the
 * off hand faster than a person reacts. A totem equipped soon after damage,
 * or a totem moved in the inventory soon after an attack, is one
 * suspicion (the third flags, by default); a totem back in the off hand
 * almost at once after a pop flags directly.
 */
module AutoTotem {
  import opened Util
  import opened Config
  import opened Latency
  import opened Suspicion
  import opened Checks
  import opened PlayerState
  import opened Materials

  /** autototem.threshold, default 3. */
  function Threshold(cfg: CheckConfig): int
  {
    GetInt(cfg, "autototem.threshold", 3)
  }

  /** A cursor or clicked item (None for null) that is a totem. */
  predicate IsTotemAction(cursorItem: Option<Material>, clickedItem: Option<Material>)
  {
    (cursorItem.Some? && cursorItem.value == TotemOfUndying) || (clickedItem.Some? && clickedItem.value == TotemOfUndying)
  }

  class AutoTotemCheck {
    const check: Check
    var lastTotemEquipTime: map<Uuid, int>
    var lastDamageTime: map<Uuid, int>
    var suspiciousTotemEquips: map<Uuid, nat>

    constructor (categoryConfig: Option<CheckConfig>)
      ensures fresh(check) && check.name == "AutoTotem" && check.checkType == "player"
      ensures lastTotemEquipTime == map[] && lastDamageTime == map[] && suspiciousTotemEquips == map[]
    {
      check := new Check("AutoTotem", "player", categoryConfig);
      lastTotemEquipTime, lastDamageTime, suspiciousTotemEquips := map[], map[], map[];
    }

    predicate Skips(p: Actor)
      reads check
    {
      !check.enabled || p.bypass
    }

    /** The shared counter step of checkTotemEquip and checkInventoryTotemAction. */
    method IncrementSuspicious(u: Uuid, cfg: CheckConfig) returns (flags: nat)
      modifies this`suspiciousTotemEquips
      ensures var t := Bump(Tally(old(suspiciousTotemEquips), 0), u, true, Threshold(cfg));
        suspiciousTotemEquips == t.counts && flags == t.flags
    {
      var suspiciousCount := Count(suspiciousTotemEquips, u) + 1;
      suspiciousTotemEquips := suspiciousTotemEquips[u := suspiciousCount];
      flags := 0;
      if suspiciousCount >= Threshold(cfg) {
        flags := 1;
        suspiciousTotemEquips := suspiciousTotemEquips[u := 0];
      }
    }

    /** checkTotemEquip: always records the equip; one soon after damage is a suspicion. */
    method CheckTotemEquip(p: Actor, data: PlayerData, cfg: CheckConfig, now: int) returns (flags: nat)
      modifies this`lastTotemEquipTime, this`suspiciousTotemEquips
      ensures Skips(p) ==> unchanged(this) && flags == 0
      ensures !Skips(p) ==> lastTotemEquipTime == old(lastTotemEquipTime)[p.id := now]
      ensures !Skips(p) ==>
        var suspicious := p.id in lastDamageTime
          && TooSoon(now - lastDamageTime[p.id], GetLong(cfg, "autototem.min-reaction-time", 150), FullPing(data.ping, 200));
        var t := Bump(Tally(old(suspiciousTotemEquips), 0), p.id, suspicious, Threshold(cfg));
        suspiciousTotemEquips == t.counts && flags == t.flags
      ensures Threshold(cfg) >= 1 && AllBelow(old(suspiciousTotemEquips), Threshold(cfg)) ==>
        AllBelow(suspiciousTotemEquips, Threshold(cfg))
    {
      flags := 0;
      if Skips(p) {
        return;
      }
      lastTotemEquipTime := lastTotemEquipTime[p.id := now];
      if p.id in lastDamageTime {
        var timeSinceDamage := now - lastDamageTime[p.id];
        var minReactionTime := GetLong(cfg, "autototem.min-reaction-time", 150);
        var compensation := FullPing(data.ping, 200);
        if TooSoon(timeSinceDamage, minReactionTime, compensation) {
          BumpKeepsBelow(Tally(suspiciousTotemEquips, 0), p.id, true, Threshold(cfg));
          flags := IncrementSuspicious(p.id, cfg);
        }
      }
    }

    /** recordDamage: unconditional, even for bypassing players and with the check off. */
    method RecordDamage(p: Actor, now: int)
      modifies this`lastDamageTime
      ensures lastDamageTime == old(lastDamageTime)[p.id := now]
    {
      lastDamageTime := lastDamageTime[p.id := now];
    }

    /**
     * checkTotemPop: with a totem already in the off hand, flag when it came
     * too soon after the last equip, then record this as the last equip.
     */
    method CheckTotemPop(p: Actor, data: PlayerData, cfg: CheckConfig, offhand: Material, now: int) returns (flags: nat)
      modifies this`lastTotemEquipTime
      ensures Skips(p) || offhand != TotemOfUndying ==> unchanged(this) && flags == 0
      ensures !Skips(p) && offhand == TotemOfUndying ==> lastTotemEquipTime == old(lastTotemEquipTime)[p.id := now]
      ensures flags <= 1
      ensures flags == 1 <==>
        !Skips(p) && offhand == TotemOfUndying && p.id in old(lastTotemEquipTime)
        && TooSoon(now - old(lastTotemEquipTime)[p.id], GetLong(cfg, "autototem.min-pop-time", 50), FullPing(data.ping, 100))
    {
      flags := 0;
      if Skips(p) {
        return;
      }
      if offhand == TotemOfUndying {
        var minPopTime := GetLong(cfg, "autototem.min-pop-time", 50);
        var compensation := FullPing(data.ping, 100);
        if p.id in lastTotemEquipTime {
          var timeSinceEquip := now - lastTotemEquipTime[p.id];
          if TooSoon(timeSinceEquip, minPopTime, compensation) {
            flags := 1;
          }
        }
        lastTotemEquipTime := lastTotemEquipTime[p.id := now];
      }
    }

    /**
     * checkInventoryTotemAction: a totem on the cursor or in the clicked slot
     * sooner than min-inventory-action-time (500 ms, no ping allowance) after
     * the player's last attack is a suspicion on the same counter as equips.
     */
    method CheckInventoryTotemAction(p: Actor, data: PlayerData, cfg: CheckConfig, slotClicked: int,
                                     cursorItem: Option<Material>, clickedItem: Option<Material>, now: int)
      returns (flags: nat)
      modifies this`suspiciousTotemEquips
      ensures var suspicious := !Skips(p) && IsTotemAction(cursorItem, clickedItem)
          && now - data.lastAttackTime < GetLong(cfg, "autototem.min-inventory-action-time", 500);
        var t := Bump(Tally(old(suspiciousTotemEquips), 0), p.id, suspicious, Threshold(cfg));
        suspiciousTotemEquips == t.counts && flags == t.flags
      ensures Threshold(cfg) >= 1 && AllBelow(old(suspiciousTotemEquips), Threshold(cfg)) ==>
        AllBelow(suspiciousTotemEquips, Threshold(cfg))
    {
      flags := 0;
      if Skips(p) {
        return;
      }
      if IsTotemAction(cursorItem, clickedItem) {
        var timeSinceAttack := now - data.lastAttackTime;
        var minActionTime := GetLong(cfg, "autototem.min-inventory-action-time", 500);
        if timeSinceAttack < minActionTime {
          BumpKeepsBelow(Tally(suspiciousTotemEquips, 0), p.id, true, Threshold(cfg));
          flags := IncrementSuspicious(p.id, cfg);
        }
      }
    }
  }

  /**
   * A pop after an equip: the pop compares against the equip it follows, so
   * with no ping a pop 30 ms after an equip flags and one 80 ms after does not.
   */
  lemma PopTimingDefaults()
    ensures TooSoon(30, GetLong(map[], "autototem.min-pop-time", 50), FullPing(0, 100))
    ensures !TooSoon(80, GetLong(map[], "autototem.min-pop-time", 50), FullPing(0, 100))
    ensures !TooSoon(30, GetLong(map[], "autototem.min-pop-time", 50), FullPing(100, 100))
  {
  }

  /** A totem back too soon after a pop for a laggy player is too soon for one with less ping, or with none. */
  lemma {:induction false} TotemLagOnlyForgives(interval: int, minimum: int, p1: nat, p2: nat)
    requires p1 <= p2 && TooSoon(interval, minimum, FullPing(p2, 100))
    ensures TooSoon(interval, minimum, FullPing(p1, 100))
    ensures TooSoon(interval, minimum, 0)
  {
    LagOnlyForgives(interval, minimum, p1, p2, 1, 100);
  }

  /** An equip too soon after damage for a laggy player is too soon for one with less ping, or with none. */
  lemma {:induction false} EquipLagOnlyForgives(interval: int, minimum: int, p1: nat, p2: nat)
    requires p1 <= p2 && TooSoon(interval, minimum, FullPing(p2, 200))
    ensures TooSoon(interval, minimum, FullPing(p1, 200))
    ensures TooSoon(interval, minimum, 0)
  {
    LagOnlyForgives(interval, minimum, p1, p2, 1, 200);
  }
}
