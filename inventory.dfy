/**
 * InventoryCheck: a player moving while a container other than their own
 * crafting inventory is open, or clicking in an inventory within 100 ms of
 * their last attack, is flagged at once. The detector keeps no state.
 */
module Inventory {
  import opened Util
  import opened Config
  import opened Checks
  import opened PlayerState

  /** The inventory type of the player's own inventory view, which is always open. */
  const Crafting: string := "CRAFTING"

  /** The squared length of the player's velocity. */
  function VelocityLengthSquared(vx: real, vy: real, vz: real): (r: real)
    ensures r >= 0.0
  {
    Square(vx) + Square(vy) + Square(vz)
  }

  /** The click test: moving faster than 0.1 blocks per tick with a view other than the player's own open. */
  predicate MovingInInventory(vx: real, vy: real, vz: real, inventoryType: string)
  {
    VelocityLengthSquared(vx, vy, vz) > 0.01 && inventoryType != Crafting
  }

  /** The speed test: a click within 100 ms of a recorded attack. */
  predicate ClickTooSoon(lastAttackTime: int, clickTime: int)
  {
    lastAttackTime > 0 && clickTime - lastAttackTime < 100
  }

  class InventoryCheck {
    const check: Check

    constructor (categoryConfig: Option<CheckConfig>)
      ensures fresh(check) && check.name == "Inventory" && check.checkType == "player"
    {
      check := new Check("Inventory", "player", categoryConfig);
    }

    predicate Skips(p: Actor)
      reads check
    {
      !check.enabled || p.bypass
    }

    /** checkInventoryClick: whether flag() is called. */
    method CheckInventoryClick(p: Actor, vx: real, vy: real, vz: real, inventoryType: string)
      returns (flagged: bool)
      ensures flagged <==> !Skips(p) && MovingInInventory(vx, vy, vz, inventoryType)
    {
      flagged := false;
      if Skips(p) {
        return;
      }
      if VelocityLengthSquared(vx, vy, vz) > 0.01 && inventoryType != Crafting {
        flagged := true;
      }
    }

    /** checkInventorySpeed: whether flag() is called; 0 as the last attack time means none yet. */
    method CheckInventorySpeed(p: Actor, data: PlayerData, clickTime: int) returns (flagged: bool)
      ensures flagged <==> !Skips(p) && ClickTooSoon(data.lastAttackTime, clickTime)
    {
      flagged := false;
      if Skips(p) {
        return;
      }
      var lastAttack := data.lastAttackTime;
      if lastAttack > 0 && clickTime - lastAttack < 100 {
        flagged := true;
      }
    }
  }

  function Abs(x: real): (r: real)
    ensures r >= 0.0 && Square(r) == Square(x)
  {
    if x < 0.0 then -x else x
  }

  /** Drift of at most 0.05 blocks per tick on every axis is not movement: its squared length is at most 0.0075. */
  lemma SlowDriftIsStill(vx: real, vy: real, vz: real)
    requires Abs(vx) <= 0.05 && Abs(vy) <= 0.05 && Abs(vz) <= 0.05
    ensures VelocityLengthSquared(vx, vy, vz) <= 0.0075
  {
    SquareMonotone(Abs(vx), 0.05);
    SquareMonotone(Abs(vy), 0.05);
    SquareMonotone(Abs(vz), 0.05);
  }

  /** The player's own view never flags, however fast they move. */
  lemma CraftingNeverFlags(vx: real, vy: real, vz: real)
    ensures !MovingInInventory(vx, vy, vz, Crafting)
  {
  }

  /** Moving faster never clears a flagged click: a flagged velocity stays flagged when no axis gets slower. */
  lemma {:induction false} FasterStillFlags(vx: real, vy: real, vz: real, wx: real, wy: real, wz: real, inventoryType: string)
    requires Abs(vx) <= Abs(wx) && Abs(vy) <= Abs(wy) && Abs(vz) <= Abs(wz)
    requires MovingInInventory(vx, vy, vz, inventoryType)
    ensures MovingInInventory(wx, wy, wz, inventoryType)
  {
    SquareMonotone(Abs(vx), Abs(wx));
    SquareMonotone(Abs(vy), Abs(wy));
    SquareMonotone(Abs(vz), Abs(wz));
  }

  /** A click flagged as too soon is flagged at any earlier time after the same attack, and none is flagged before any attack. */
  lemma EarlierClickStillTooSoon(lastAttackTime: int, t1: int, t2: int)
    requires t1 <= t2 && ClickTooSoon(lastAttackTime, t2)
    ensures ClickTooSoon(lastAttackTime, t1)
    ensures !ClickTooSoon(0, t1)
  {
  }
}
