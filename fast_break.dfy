/**
 * FastBreakCheck: a block broken sooner after the previous one than its
 * estimated break time allows (less up to 300 ms of ping) is flagged,
 * unless it is the same block again (a client-server desync). The break
 * time is estimated from the block's hardness, lowered by Efficiency when
 * the held tool suits the block, and never below the configured base.
 */
module FastBreak {
  import opened Util
  import opened Strings
  import opened Config
  import opened Latency
  import opened Checks
  import opened PlayerState

  /** The block being broken: where it is, its material and its hardness. */
  datatype Dig = Dig(pos: BlockPos, material: Material, hardness: real)

  /** The item in the main hand (AIR when empty) and its Efficiency level. */
  datatype Tool = Tool(material: Material, efficiency: nat)

  /** Which of the flowers added after 1.13 this server version has. */
  datatype Versions = Versions(hasCornflower: bool, hasLilyOfTheValley: bool, hasWitherRose: bool)

  const BasicInstant: set<Material> := {
    "TORCH", "REDSTONE_TORCH", "REDSTONE_WALL_TORCH", "WALL_TORCH", "GRASS_BLOCK", "TALL_GRASS",
    "SEAGRASS", "TALL_SEAGRASS", "FERN", "LARGE_FERN", "DEAD_BUSH", "DANDELION", "POPPY",
    "BLUE_ORCHID", "ALLIUM", "AZURE_BLUET", "RED_TULIP", "ORANGE_TULIP", "WHITE_TULIP",
    "PINK_TULIP", "OXEYE_DAISY", "SUNFLOWER", "LILAC", "ROSE_BUSH", "PEONY"}

  /** isInstantBreak: the torches, grasses and flowers, the newer flowers only where the version has them. */
  predicate IsInstantBreak(m: Material, v: Versions)
    ensures m in BasicInstant ==> IsInstantBreak(m, v)
    ensures IsInstantBreak(m, v) ==> m in BasicInstant || m in {"CORNFLOWER", "LILY_OF_THE_VALLEY", "WITHER_ROSE"}
    ensures m == "CORNFLOWER" ==> (IsInstantBreak(m, v) <==> v.hasCornflower)
    ensures m == "LILY_OF_THE_VALLEY" ==> (IsInstantBreak(m, v) <==> v.hasLilyOfTheValley)
    ensures m == "WITHER_ROSE" ==> (IsInstantBreak(m, v) <==> v.hasWitherRose)
  {
    (v.hasCornflower && m == "CORNFLOWER")
    || (v.hasLilyOfTheValley && m == "LILY_OF_THE_VALLEY")
    || (v.hasWitherRose && m == "WITHER_ROSE")
    || m in BasicInstant
  }

  predicate StoneLike(b: Material)
  {
    Contains(b, "STONE") || Contains(b, "COBBLESTONE") || Contains(b, "BRICK")
    || b == "NETHERRACK" || b == "BLACKSTONE"
  }

  predicate DirtLike(b: Material)
  {
    b in {"DIRT", "GRASS_BLOCK", "PODZOL", "MYCELIUM", "FARMLAND", "SOUL_SAND", "SOUL_SOIL", "CLAY", "GRAVEL"}
  }

  predicate WoodLike(b: Material)
  {
    Contains(b, "WOOD") || Contains(b, "LOG") || Contains(b, "PLANKS") || Contains(b, "FENCE")
    || b in {"BOOKSHELF", "CHEST", "TRAPPED_CHEST", "BARREL", "CRAFTING_TABLE"}
  }

  /**
   * The rule chain of isCorrectToolForBlock, with the test for "an axe"
   * left as a parameter: the first group the block belongs to decides.
   */
  predicate CorrectToolBy(tool: Material, b: Material, isAxe: bool)
  {
    if StoneLike(b) then Contains(tool, "PICKAXE")
    else if DirtLike(b) then Contains(tool, "SHOVEL")
    else if WoodLike(b) then isAxe
    else if Contains(b, "LEAVES") then Contains(tool, "SHEARS") || Contains(tool, "HOE")
    else if Contains(b, "WOOL") || b == "COBWEB" then Contains(tool, "SHEARS") || Contains(tool, "SWORD")
    else false
  }

  /** isCorrectToolForBlock as written: an axe is any tool whose name contains "AXE", pickaxes included. */
  predicate IsCorrectToolAsWritten(tool: Material, b: Material)
    ensures Contains(tool, "PICKAXE") && WoodLike(b) && !StoneLike(b) && !DirtLike(b) ==> IsCorrectToolAsWritten(tool, b)
  {
    PickaxeContainsAxe(tool);
    CorrectToolBy(tool, b, Contains(tool, "AXE"))
  }

  /** "AXE" sits inside "PICKAXE". */
  lemma PickaxeContainsAxe(tool: Material)
    ensures Contains(tool, "PICKAXE") ==> Contains(tool, "AXE")
  {
    if Contains(tool, "PICKAXE") {
      var i :| 0 <= i <= |tool| - 7 && OccursAt(tool, "PICKAXE", i);
      assert tool[i + 4..i + 7] == tool[i..i + 7][4..7];
      assert OccursAt(tool, "AXE", i + 4);
    }
  }

  /** An axe is a tool whose name ends in "_AXE" (WOODEN_AXE ... NETHERITE_AXE). */
  predicate IsAxe(tool: Material)
  {
    EndsWith(tool, "_AXE")
  }

  /** isCorrectToolForBlock as intended: only an axe suits the wood group. */
  predicate IsCorrectTool(tool: Material, b: Material)
  {
    CorrectToolBy(tool, b, IsAxe(tool))
  }

  /** The break-time estimate, given whether the tool suits the block. */
  function EstimateBreakTime(base: int, instant: bool, hardness: real, efficiency: nat, suited: bool): (r: int)
    ensures r >= base
    ensures instant || hardness <= 0.0 ==> r == base
    ensures !instant && hardness > 0.0 && (efficiency == 0 || !suited) ==> r == Max(Trunc(hardness * 1500.0), base)
    ensures !instant && hardness > 0.0 ==> r <= Max(Trunc(hardness * 1500.0), base)
  {
    if instant || hardness <= 0.0 then base
    else
      var breakTime := Trunc(hardness * 1500.0);
      var reduced := if efficiency > 0 && suited then Trunc(breakTime as real / (1.0 + efficiency as real * 0.25)) else breakTime;
      EfficiencyNeverSlows(breakTime, efficiency);
      Max(reduced, base)
  }

  /** Dividing a non-negative break time by 1 + 0.25 * efficiency never lengthens it. */
  lemma EfficiencyNeverSlows(breakTime: int, efficiency: nat)
    requires breakTime >= 0
    ensures Trunc(breakTime as real / (1.0 + efficiency as real * 0.25)) <= breakTime
  {
    var d := 1.0 + efficiency as real * 0.25;
    var q := breakTime as real / d;
    assert q * d == breakTime as real;
    assert q >= 0.0;
    assert q <= q * d;
  }

  /** calculateMinBreakTime, with fastbreak.base-min-time (default 150) from the category configuration. */
  function MinBreakTime(cfg: CheckConfig, dig: Dig, tool: Tool, v: Versions): int
  {
    EstimateBreakTime(GetLong(cfg, "fastbreak.base-min-time", 150), IsInstantBreak(dig.material, v),
                      dig.hardness, tool.efficiency, IsCorrectTool(tool.material, dig.material))
  }

  /**
   * calculateMinBreakTime as written, with the pickaxe counted as an axe:
   * the looser tool rule only ever lowers the minimum.
   */
  function MinBreakTimeAsWritten(cfg: CheckConfig, dig: Dig, tool: Tool, v: Versions): (r: int)
    ensures r <= MinBreakTime(cfg, dig, tool, v)
  {
    CorrectedRuleIsNarrower(tool.material, dig.material);
    EstimateBreakTime(GetLong(cfg, "fastbreak.base-min-time", 150), IsInstantBreak(dig.material, v),
                      dig.hardness, tool.efficiency, IsCorrectToolAsWritten(tool.material, dig.material))
  }

  /** The break is flagged: too soon for the estimate after up to 300 ms of ping, and not the same block. */
  predicate TooFastBreak(interval: int, minBreakTime: int, ping: nat, sameBlock: bool)
  {
    TooSoon(interval, minBreakTime, FullPing(ping, 300)) && !sameBlock
  }

  /**
   * Under either tool rule the minimum is never below the base, it is the
   * base for instant blocks, and Efficiency never raises it.
   */
  lemma MinBreakTimeBounds(cfg: CheckConfig, dig: Dig, tool: Tool, v: Versions)
    ensures MinBreakTimeAsWritten(cfg, dig, tool, v) >= GetLong(cfg, "fastbreak.base-min-time", 150)
    ensures IsInstantBreak(dig.material, v) ==> MinBreakTimeAsWritten(cfg, dig, tool, v) == GetLong(cfg, "fastbreak.base-min-time", 150)
    ensures MinBreakTimeAsWritten(cfg, dig, tool, v) <= MinBreakTimeAsWritten(cfg, dig, Tool(tool.material, 0), v)
    ensures MinBreakTime(cfg, dig, tool, v) >= GetLong(cfg, "fastbreak.base-min-time", 150)
    ensures IsInstantBreak(dig.material, v) ==> MinBreakTime(cfg, dig, tool, v) == GetLong(cfg, "fastbreak.base-min-time", 150)
    ensures MinBreakTime(cfg, dig, tool, v) <= MinBreakTime(cfg, dig, Tool(tool.material, 0), v)
  {
  }

  /** The two tool rules differ only on the wood group, and the corrected one never suits more. */
  lemma CorrectedRuleIsNarrower(tool: Material, b: Material)
    ensures IsCorrectTool(tool, b) ==> IsCorrectToolAsWritten(tool, b)
    ensures !(WoodLike(b) && !StoneLike(b) && !DirtLike(b)) ==> (IsCorrectTool(tool, b) <==> IsCorrectToolAsWritten(tool, b))
  {
    if IsAxe(tool) {
      var n := |tool|;
      assert tool[n - 4..] == "_AXE";
      assert tool[n - 3..n] == "AXE";
      assert OccursAt(tool, "AXE", n - 3);
    }
  }

  /** No pickaxe is an axe, so under the corrected rule a pickaxe never suits a wood-only block. */
  lemma PickaxeIsNoAxe(tool: Material, b: Material)
    requires EndsWith(tool, "_PICKAXE")
    requires WoodLike(b) && !StoneLike(b) && !DirtLike(b)
    ensures !IsCorrectTool(tool, b)
  {
    var n := |tool|;
    assert tool[n - 8..] == "_PICKAXE";
    assert tool[n - 4] == tool[n - 8..][4] == 'K';
    assert tool[n - 4..][0] == tool[n - 4];
    assert !IsAxe(tool);
  }

  /** An oak log is wood and neither stone nor dirt. */
  lemma OakLogIsWood()
    ensures WoodLike("OAK_LOG") && !StoneLike("OAK_LOG") && !DirtLike("OAK_LOG")
  {
    MissingFirstCharNotContains("OAK_LOG", "STONE");
    MissingFirstCharNotContains("OAK_LOG", "COBBLESTONE");
    MissingFirstCharNotContains("OAK_LOG", "BRICK");
    assert OccursAt("OAK_LOG", "LOG", 4);
  }

  /**
   * The as-written rule lets a diamond pickaxe with Efficiency V cut an oak
   * log's minimum from 3000 ms to 1333 ms; the corrected rule keeps 3000 ms.
   */
  lemma PickaxeOnLogAsWritten()
    ensures IsCorrectToolAsWritten("DIAMOND_PICKAXE", "OAK_LOG")
    ensures !IsCorrectTool("DIAMOND_PICKAXE", "OAK_LOG")
    ensures MinBreakTimeAsWritten(map[], Dig(BlockPos(0, 0, 64, 0), "OAK_LOG", 2.0), Tool("DIAMOND_PICKAXE", 5), Versions(true, true, true)) == 1333
    ensures MinBreakTime(map[], Dig(BlockPos(0, 0, 64, 0), "OAK_LOG", 2.0), Tool("DIAMOND_PICKAXE", 5), Versions(true, true, true)) == 3000
  {
    OakLogIsWood();
    assert OccursAt("DIAMOND_PICKAXE", "AXE", 12);
    PickaxeIsNoAxe("DIAMOND_PICKAXE", "OAK_LOG");
    assert !IsInstantBreak("OAK_LOG", Versions(true, true, true));
    assert Trunc(2.0 * 1500.0) == 3000;
    assert Trunc(3000.0 / (1.0 + 5.0 * 0.25)) == 1333;
  }

  /** With no ping, a second block broken 50 ms after the first is flagged when the minimum is the 150 ms base. */
  lemma QuickSecondBlockFlags()
    ensures TooFastBreak(50, 150, 0, false)
    ensures !TooFastBreak(50, 150, 0, true)
    ensures !TooFastBreak(50, 150, 300, false)
  {
  }

  class FastBreakCheck {
    const check: Check
    var lastBreakTime: map<Uuid, int>
    var lastBrokenBlock: map<Uuid, BlockPos>

    /** Both maps are written together, so they always have the same players. */
    predicate Valid()
      reads this
    {
      lastBreakTime.Keys == lastBrokenBlock.Keys
    }

    constructor (categoryConfig: Option<CheckConfig>)
      ensures fresh(check) && check.name == "FastBreak" && check.checkType == "player"
      ensures lastBreakTime == map[] && lastBrokenBlock == map[] && Valid()
    {
      check := new Check("FastBreak", "player", categoryConfig);
      lastBreakTime, lastBrokenBlock := map[], map[];
    }

    /** The check is off, the player may bypass, or creative players are exempt (exemptions.creative-mode, default false). */
    predicate Skips(p: Actor, mainCfg: CheckConfig, creative: bool)
      reads check
    {
      !check.enabled || p.bypass || (creative && GetBoolean(mainCfg, "exemptions.creative-mode", false))
    }

    /** checkBlockBreak: records this break, then flags a different block broken too soon after the last one. */
    method CheckBlockBreak(p: Actor, data: PlayerData, cfg: CheckConfig, mainCfg: CheckConfig, creative: bool,
                           dig: Dig, tool: Tool, v: Versions, now: int)
      returns (flags: nat)
      requires Valid()
      modifies this`lastBreakTime, this`lastBrokenBlock
      ensures Valid()
      ensures Skips(p, mainCfg, creative) ==> unchanged(this) && flags == 0
      ensures !Skips(p, mainCfg, creative) ==>
        lastBreakTime == old(lastBreakTime)[p.id := now] && lastBrokenBlock == old(lastBrokenBlock)[p.id := dig.pos]
      ensures flags <= 1
      ensures flags == 1 <==>
        !Skips(p, mainCfg, creative) && p.id in old(lastBreakTime)
        && TooFastBreak(now - old(lastBreakTime)[p.id], MinBreakTimeAsWritten(cfg, dig, tool, v), data.ping,
                        dig.pos == old(lastBrokenBlock)[p.id])
    {
      flags := 0;
      if Skips(p, mainCfg, creative) {
        return;
      }
      if p.id !in lastBreakTime {
        lastBreakTime := lastBreakTime[p.id := now];
        lastBrokenBlock := lastBrokenBlock[p.id := dig.pos];
        return;
      }
      var lastTime := lastBreakTime[p.id];
      var lastBlock := lastBrokenBlock[p.id];
      lastBreakTime := lastBreakTime[p.id := now];
      lastBrokenBlock := lastBrokenBlock[p.id := dig.pos];
      var minBreakTime := MinBreakTimeAsWritten(cfg, dig, tool, v);
      var compensation := FullPing(data.ping, 300);
      if TooSoon(now - lastTime, minBreakTime, compensation) {
        if dig.pos == lastBlock {
          // the same block again: a client-server desync
          return;
        }
        flags := 1;
      }
    }
  }
}
