/**
 * CheckManager: the registry of detectors and the escalation step. Detectors
 * are registered once, in a fixed order, into a list that lookups scan by
 * name or category ignoring case. Each violation raises the player's level
 * for the check by one and is logged; once the level reaches the configured
 * maximum, a player without the bypass permission is sent the configured
 * punishment command and the level goes back to 0.
 */
module Manager {
  import opened Util
  import opened Strings
  import opened Config
  import opened Checks
  import opened PlayerState
  import opened PlayerStore
  import Speed
  import Fly
  import Reach
  import KillAura
  import Hitbox
  import AutoCrystal
  import AutoAnchor
  import CrystalAura
  import TriggerBot
  import Inventory
  import FastBreak
  import FastPlace
  import AutoTotem
  import Simulation

  /** A registered detector as the registry sees it: name and category. */
  datatype Entry = Entry(name: string, checkType: string)

  /** The movement detectors, in registration order. */
  const MovementEntries: seq<Entry> := [Entry("Speed", "movement"), Entry("Fly", "movement")]

  /** The combat detectors registered before the version-specific one. */
  const CombatEntries: seq<Entry> :=
    [Entry("Reach", "combat"), Entry("KillAura", "combat"), Entry("Hitbox", "combat"), Entry("AutoCrystal", "combat")]

  /** AutoAnchor is registered only when the respawn anchor material exists. */
  function AnchorEntries(hasRespawnAnchor: bool): seq<Entry>
  {
    if hasRespawnAnchor then [Entry("AutoAnchor", "combat")] else []
  }

  /** The combat detectors registered after it. */
  const LateCombatEntries: seq<Entry> := [Entry("CrystalAura", "combat"), Entry("TriggerBot", "combat")]

  lemma AppendFive<T>(a: seq<T>, u: seq<T>, v: seq<T>, w: seq<T>, x: seq<T>, y: seq<T>)
    ensures a + u + v + w + x + y == a + (u + v + w + x + y)
  {
  }

  /** The player-behaviour detectors, in registration order. */
  const PlayerEntries: seq<Entry> :=
    [Entry("Inventory", "player"), Entry("FastBreak", "player"), Entry("FastPlace", "player"),
     Entry("AutoTotem", "player"), Entry("Simulation", "player")]

  /** The registration order of registerChecks. */
  function Registered(hasRespawnAnchor: bool): (r: seq<Entry>)
    ensures |r| == if hasRespawnAnchor then 14 else 13
    ensures Entry("AutoAnchor", "combat") in r <==> hasRespawnAnchor
    ensures forall i :: 0 <= i < |r| ==> r[i].name != "AdvancedTriggerBot"
  {
    [Entry("Speed", "movement"), Entry("Fly", "movement"),
     Entry("Reach", "combat"), Entry("KillAura", "combat"), Entry("Hitbox", "combat"),
     Entry("AutoCrystal", "combat")]
    + (if hasRespawnAnchor then [Entry("AutoAnchor", "combat")] else [])
    + [Entry("CrystalAura", "combat"), Entry("TriggerBot", "combat"),
       Entry("Inventory", "player"), Entry("FastBreak", "player"), Entry("FastPlace", "player"),
       Entry("AutoTotem", "player"), Entry("Simulation", "player")]
  }

  /** The list is the movement, combat and player groups in turn. */
  lemma RegisteredGroups(hasRespawnAnchor: bool)
    ensures Registered(hasRespawnAnchor)
      == MovementEntries + CombatEntries + AnchorEntries(hasRespawnAnchor) + LateCombatEntries + PlayerEntries
  {
  }

  /** The entries of a list of checks. */
  function Entries(cs: seq<Check>): (r: seq<Entry>)
    ensures |r| == |cs|
    ensures forall i :: 0 <= i < |cs| ==> r[i] == Entry(cs[i].name, cs[i].checkType)
  {
    if cs == [] then [] else Entries(cs[..|cs| - 1]) + [Entry(cs[|cs| - 1].name, cs[|cs| - 1].checkType)]
  }

  /** The checks of cs whose category equals t ignoring case, in their order. */
  function OfType(cs: seq<Check>, t: string): (r: seq<Check>)
    ensures |r| <= |cs|
    ensures forall i :: 0 <= i < |r| ==> EqualsIgnoreCase(r[i].checkType, t)
  {
    if cs == [] then []
    else OfType(cs[..|cs| - 1], t) + (if EqualsIgnoreCase(cs[|cs| - 1].checkType, t) then [cs[|cs| - 1]] else [])
  }

  /** The filtered list holds exactly the checks of the matching category, and no more of them than there are. */
  lemma {:induction false} OfTypeMembers(cs: seq<Check>, t: string)
    ensures |OfType(cs, t)| <= |cs|
    ensures forall c :: c in OfType(cs, t) <==> c in cs && EqualsIgnoreCase(c.checkType, t)
    decreases |cs|
  {
    if cs != [] {
      var init := cs[..|cs| - 1];
      OfTypeMembers(init, t);
      assert cs == init + [cs[|cs| - 1]];
    }
  }

  /** The index of the first check of cs named n ignoring case. */
  function FirstNamed(cs: seq<Check>, n: string): (r: Option<nat>)
    ensures r.Some? ==> r.value < |cs| && EqualsIgnoreCase(cs[r.value].name, n)
    ensures r.Some? ==> forall j :: 0 <= j < r.value ==> !EqualsIgnoreCase(cs[j].name, n)
    ensures r.None? <==> forall j :: 0 <= j < |cs| ==> !EqualsIgnoreCase(cs[j].name, n)
    decreases |cs|
  {
    if cs == [] then None
    else if EqualsIgnoreCase(cs[0].name, n) then Some(0)
    else match FirstNamed(cs[1..], n) {
      case None => None
      case Some(k) => Some(k + 1)
    }
  }

  /** What handleViolation does to one level: the new level it stores and whether it punishes. */
  datatype Escalation = Escalation(stored: nat, punished: bool)

  /**
   * One violation: the level becomes level + 1; a player without bypass at
   * or above maxVl is punished and the level is reset to 0.
   */
  function Escalate(level: nat, maxVl: int, bypass: bool): (r: Escalation)
    ensures r.punished <==> level + 1 >= maxVl && !bypass
    ensures r.punished ==> r.stored == 0
    ensures !r.punished ==> r.stored == level + 1
  {
    if level + 1 >= maxVl && !bypass then Escalation(0, true) else Escalation(level + 1, false)
  }

  /** A level below the maximum stays below it for a player without bypass. */
  lemma StoredBelowMax(level: nat, maxVl: int)
    requires maxVl >= 1 && level < maxVl
    ensures Escalate(level, maxVl, false).stored < maxVl
  {
  }

  /** The level and the number of punishments after k violations. */
  datatype Tally = Tally(level: nat, punishments: nat)

  function EscalateRun(level: nat, maxVl: int, bypass: bool, k: nat): Tally
    decreases k
  {
    if k == 0 then Tally(level, 0)
    else
      var before := EscalateRun(level, maxVl, bypass, k - 1);
      var e := Escalate(before.level, maxVl, bypass);
      Tally(e.stored, before.punishments + if e.punished then 1 else 0)
  }

  /**
   * From level 0 a player without bypass is punished on every maxVl-th
   * violation: after k violations the level is k mod maxVl and the count
   * of punishments k div maxVl.
   */
  lemma {:induction false} EscalateRunClosedForm(maxVl: nat, k: nat)
    requires maxVl >= 1
    ensures EscalateRun(0, maxVl, false, k).level < maxVl
    ensures k == EscalateRun(0, maxVl, false, k).punishments * maxVl + EscalateRun(0, maxVl, false, k).level
    decreases k
  {
    if k > 0 {
      EscalateRunClosedForm(maxVl, k - 1);
      var before := EscalateRun(0, maxVl, false, k - 1);
      if before.level + 1 >= maxVl {
        assert k == (before.punishments + 1) * maxVl;
      }
    }
  }

  /** A player with bypass is never punished: the level only climbs. */
  lemma {:induction false} BypassNeverPunished(level: nat, maxVl: int, k: nat)
    ensures EscalateRun(level, maxVl, true, k) == Tally(level + k, 0)
    decreases k
  {
    if k > 0 {
      BypassNeverPunished(level, maxVl, k - 1);
    }
  }

  /** With a maximum of 3, successive violations store 1, 2, 0 (punished), then 1. */
  lemma EscalationWithMaxThree()
    ensures Escalate(0, 3, false) == Escalation(1, false)
    ensures Escalate(1, 3, false) == Escalation(2, false)
    ensures Escalate(2, 3, false) == Escalation(0, true)
    ensures EscalateRun(0, 3, false, 4) == Tally(1, 1)
  {
  }

  /** The punishment command with every %player% replaced by the player's name; a command without % runs as configured. */
  function PunishmentCommand(cfg: CheckConfig, checkName: string, playerName: string): (r: string)
    ensures (forall k :: 0 <= k < |GetPunishmentCommand(cfg, Lower(checkName))| ==> GetPunishmentCommand(cfg, Lower(checkName))[k] != '%')
      ==> r == GetPunishmentCommand(cfg, Lower(checkName))
  {
    var command := GetPunishmentCommand(cfg, Lower(checkName));
    var r := Replace(command, "%player%", playerName);
    assert (forall k :: 0 <= k < |command| ==> command[k] != '%') ==> r == command by {
      if forall k :: 0 <= k < |command| ==> command[k] != '%' {
        ReplaceNoStartChar(command, "%player%", playerName);
      }
    }
    r
  }

  /** One occurrence of the target between two stretches without its first character is replaced once. */
  lemma ReplaceSingle(a: string, rest: string, pat: string, rep: string)
    requires |pat| > 0
    requires forall k :: 0 <= k < |a| ==> a[k] != pat[0]
    requires forall k :: 0 <= k < |rest| ==> rest[k] != pat[0]
    ensures Replace(a + (pat + rest), pat, rep) == a + (rep + rest)
  {
    ReplaceSkipsPrefix(a, pat + rest, pat, rep);
    ReplaceAtFront(rest, pat, rep);
    ReplaceNoStartChar(rest, pat, rep);
  }

  /** The default command kicks the player by name. */
  lemma DefaultPunishmentKicks(checkName: string, playerName: string)
    ensures PunishmentCommand(map[], checkName, playerName) == "kick " + (playerName + " [RedoxGuard] Unfair advantage")
  {
    DefaultPunishmentIsDefault(checkName);
    ReplaceSingle("kick ", " [RedoxGuard] Unfair advantage", "%player%", playerName);
  }

  lemma DefaultPunishmentIsDefault(checkName: string)
    ensures GetPunishmentCommand(map[], Lower(checkName)) == "kick " + ("%player%" + " [RedoxGuard] Unfair advantage")
  {
  }

  /** A violation as handed to the violation log (LogUtil.logViolation). */
  datatype Violation = Violation(playerName: string, checkName: string, details: string, vl: nat)

  class CheckManager {
    const players: PlayerDataManager
    /** ConfigManager.getCheckConfig: the configuration of each category that has one. */
    const configs: map<string, CheckConfig>
    var checks: seq<Check>
    /** The violations logged, oldest first. */
    var log: seq<Violation>
    /** The commands handed to the scheduler for the console, oldest first. */
    var outbox: seq<string>

    function CategoryConfig(t: string): (r: Option<CheckConfig>)
      ensures r.Some? <==> t in configs
      ensures r.Some? ==> r.value == configs[t]
    {
      if t in configs then Some(configs[t]) else None
    }

    /** registerCheck: the check goes to the end of the list. */
    method RegisterCheck(c: Check)
      modifies this`checks
      ensures checks == old(checks) + [c]
      ensures Entries(checks) == Entries(old(checks)) + [Entry(c.name, c.checkType)]
    {
      checks := checks + [c];
      assert checks[..|checks| - 1] == old(checks);
    }

    /** The constructor runs registerChecks: one new detector per entry of the fixed list. */
    constructor (players: PlayerDataManager, configs: map<string, CheckConfig>, hasRespawnAnchor: bool)
      ensures this.players == players && this.configs == configs
      ensures Entries(checks) == Registered(hasRespawnAnchor)
      ensures log == [] && outbox == []
    {
      this.players := players;
      this.configs := configs;
      checks, log, outbox := [], [], [];
      new;
      RegisterMovementChecks();
      RegisterCombatChecks();
      RegisterAnchorCheck(hasRespawnAnchor);
      RegisterLateCombatChecks();
      RegisterPlayerChecks();
      RegisteredGroups(hasRespawnAnchor);
      AppendFive(Entries([]), MovementEntries, CombatEntries, AnchorEntries(hasRespawnAnchor), LateCombatEntries, PlayerEntries);
      assert Entries([]) == [];
    }

    method RegisterMovementChecks()
      modifies this`checks
      ensures Entries(checks) == Entries(old(checks)) + MovementEntries
    {
      var movement := CategoryConfig("movement");
      var speed := new Speed.SpeedCheck(movement);
      RegisterCheck(speed.check);
      var fly := new Fly.FlyCheck(movement);
      RegisterCheck(fly.check);
    }

    method RegisterCombatChecks()
      modifies this`checks
      ensures Entries(checks) == Entries(old(checks)) + CombatEntries
    {
      var combat := CategoryConfig("combat");
      var reach := new Reach.ReachCheck(combat);
      RegisterCheck(reach.check);
      var killAura := new KillAura.KillAuraCheck(combat);
      RegisterCheck(killAura.check);
      var hitbox := new Hitbox.HitboxCheck(combat);
      RegisterCheck(hitbox.check);
      var autoCrystal := new AutoCrystal.AutoCrystalCheck(combat);
      RegisterCheck(autoCrystal.check);
    }

    /** The version-specific detector. */
    method RegisterAnchorCheck(hasRespawnAnchor: bool)
      modifies this`checks
      ensures Entries(checks) == Entries(old(checks)) + AnchorEntries(hasRespawnAnchor)
    {
      if hasRespawnAnchor {
        var autoAnchor := new AutoAnchor.AutoAnchorCheck(CategoryConfig("combat"));
        RegisterCheck(autoAnchor.check);
      } else {
        assert Entries(checks) + [] == Entries(checks);
      }
    }

    method RegisterLateCombatChecks()
      modifies this`checks
      ensures Entries(checks) == Entries(old(checks)) + LateCombatEntries
    {
      var combat := CategoryConfig("combat");
      var crystalAura := new CrystalAura.CrystalAuraCheck(combat);
      RegisterCheck(crystalAura.check);
      var triggerBot := new TriggerBot.TriggerBotCheck(combat);
      RegisterCheck(triggerBot.check);
    }

    method RegisterPlayerChecks()
      modifies this`checks
      ensures Entries(checks) == Entries(old(checks)) + PlayerEntries
    {
      var player := CategoryConfig("player");
      var inventory := new Inventory.InventoryCheck(player);
      RegisterCheck(inventory.check);
      var fastBreak := new FastBreak.FastBreakCheck(player);
      RegisterCheck(fastBreak.check);
      var fastPlace := new FastPlace.FastPlaceCheck(player);
      RegisterCheck(fastPlace.check);
      var autoTotem := new AutoTotem.AutoTotemCheck(player);
      RegisterCheck(autoTotem.check);
      var simulation := new Simulation.SimulationCheck(player);
      RegisterCheck(simulation.check);
    }

    /** getChecksOfType: a new list of the checks whose category matches, in registration order. */
    method GetChecksOfType(t: string) returns (result: seq<Check>)
      ensures result == OfType(checks, t)
    {
      result := [];
      var i := 0;
      while i < |checks|
        invariant 0 <= i <= |checks|
        invariant result == OfType(checks[..i], t)
      {
        assert checks[..i + 1][..i] == checks[..i];
        if EqualsIgnoreCase(checks[i].GetType(), t) {
          result := result + [checks[i]];
        }
        i := i + 1;
      }
      assert checks[..i] == checks;
    }

    /** getCheckByName: the first check whose name matches, or null. */
    method GetCheckByName(n: string) returns (found: Check?)
      ensures found == null <==> FirstNamed(checks, n).None?
      ensures found != null ==> found == checks[FirstNamed(checks, n).value]
    {
      var i := 0;
      while i < |checks|
        invariant 0 <= i <= |checks|
        invariant forall j :: 0 <= j < i ==> !EqualsIgnoreCase(checks[j].name, n)
      {
        if EqualsIgnoreCase(checks[i].GetName(), n) {
          FirstNamedIsFirst(checks, n, i);
          return checks[i];
        }
        i := i + 1;
      }
      return null;
    }

    /** The objects a violation by u may change. */
    function Footprint(u: Uuid): set<object>
      reads this, players
    {
      {players} + players.RecordFor(u)
    }

    /**
     * handleViolation: the level for c's name goes up by one and the
     * violation is logged; when it reaches the category's max-violations
     * for the lower-cased name and p lacks bypass, the punishment command is
     * queued once and the level reset. The category configuration is looked
     * up without a null test, so c's category must have one.
     */
    method HandleViolation(p: Actor, c: Check, details: string, now: int)
      requires players.Valid() && c.checkType in configs
      modifies Footprint(p.id), this`log, this`outbox
      ensures players.Valid() && p.id in players.records
      ensures players.records == old(players.records)[p.id := players.records[p.id]]
      ensures p.id in old(players.records) ==> players.records[p.id] == old(players.records[p.id])
      ensures var e := Escalate(old(players.LevelOf(p.id, c.name)), GetMaxViolations(configs[c.checkType], Lower(c.name)), p.bypass);
        && players.records[p.id].Level(c.name) == e.stored
        && log == old(log) + [Violation(p.name, c.name, details, old(players.LevelOf(p.id, c.name)) + 1)]
        && outbox == old(outbox) + (if e.punished then [PunishmentCommand(configs[c.checkType], c.name, p.name)] else [])
      ensures forall n :: n != c.name ==> players.records[p.id].Level(n) == old(players.LevelOf(p.id, n))
      ensures checks == old(checks)
    {
      var data := players.GetOrCreate(p, now);
      ghost var before := old(players.LevelOf(p.id, c.name));
      assert data.Level(c.name) == before by {
        if p.id !in old(players.records) {
          assert data.violations == map[];
        }
      }
      var maxVl := GetMaxViolations(configs[c.GetType()], Lower(c.GetName()));
      var vl, punished := RecordViolation(data, c.GetName(), maxVl, p.bypass, now);
      log := log + [Violation(p.name, c.GetName(), details, vl)];
      if punished {
        var command := Replace(GetPunishmentCommand(configs[c.GetType()], Lower(c.GetName())), "%player%", p.name);
        outbox := outbox + [command];
      }
    }

    /**
     * Check.flag: nothing happens when c is disabled or p has bypass;
     * otherwise the violation is handled once, and so never with bypass.
     */
    method Flag(c: Check, p: Actor, details: string, now: int)
      requires players.Valid() && c.checkType in configs
      modifies Footprint(p.id), this`log, this`outbox
      ensures players.Valid()
      ensures !old(c.Forwards(p)) ==> unchanged(this, players)
      ensures old(c.Forwards(p)) ==>
        var e := Escalate(old(players.LevelOf(p.id, c.name)), GetMaxViolations(configs[c.checkType], Lower(c.name)), false);
        && p.id in players.records
        && players.records == old(players.records)[p.id := players.records[p.id]]
        && (p.id in old(players.records) ==> players.records[p.id] == old(players.records[p.id]))
        && players.records[p.id].Level(c.name) == e.stored
        && log == old(log) + [Violation(p.name, c.name, details, old(players.LevelOf(p.id, c.name)) + 1)]
        && outbox == old(outbox) + (if e.punished then [PunishmentCommand(configs[c.checkType], c.name, p.name)] else [])
      ensures old(c.Forwards(p)) ==>
        forall n :: n != c.name ==> players.records[p.id].Level(n) == old(players.LevelOf(p.id, n))
      ensures checks == old(checks)
    {
      if !c.IsEnabled() || p.bypass {
        return;
      }
      HandleViolation(p, c, details, now);
    }
  }

  /**
   * The record's side of handleViolation: addViolation, then
   * resetViolations when the new level reaches maxVl without bypass.
   */
  method RecordViolation(data: PlayerData, check: string, maxVl: int, bypass: bool, now: int)
    returns (vl: nat, punished: bool)
    modifies data`violations, data`lastViolationTime
    ensures vl == old(data.Level(check)) + 1
    ensures var e := Escalate(old(data.Level(check)), maxVl, bypass);
      punished == e.punished && data.Level(check) == e.stored
    ensures forall n :: n != check ==> data.Level(n) == old(data.Level(n))
    ensures old(data.Valid()) ==> data.Valid()
  {
    vl := data.AddViolation(check, now);
    punished := vl >= maxVl && !bypass;
    if punished {
      data.ResetViolations(check);
    }
  }

  /** A matching name at i with none before it is what FirstNamed finds. */
  lemma {:induction false} FirstNamedIsFirst(cs: seq<Check>, n: string, i: nat)
    requires i < |cs| && EqualsIgnoreCase(cs[i].name, n)
    requires forall j :: 0 <= j < i ==> !EqualsIgnoreCase(cs[j].name, n)
    ensures FirstNamed(cs, n) == Some(i)
    decreases i
  {
    if i > 0 {
      FirstNamedIsFirst(cs[1..], n, i - 1);
    }
  }
}
