/**
 * The per-category configuration (checks/<category>.yml) and its
 * lookup-with-default getters. A configuration is a map from dotted paths
 * to stored values; Bukkit's getters return the supplied default when the
 * path is absent or, for the boolean and number getters, holds a value of
 * another kind.
 */
module Config {
  import opened Util
  import opened Strings

  datatype Value = BoolVal(b: bool) | IntVal(i: int) | RealVal(r: real) | StrVal(s: string)

  type CheckConfig = map<string, Value>

  const DefaultMaxViolations: int := 5
  const DefaultPunishment: string := "kick %player% [RedoxGuard] Unfair advantage"

  /** ConfigurationSection.getBoolean(path, def). */
  function GetBoolean(cfg: CheckConfig, path: string, def: bool): (r: bool)
    ensures path !in cfg ==> r == def
    ensures path in cfg && cfg[path].BoolVal? ==> r == cfg[path].b
  {
    if path in cfg && cfg[path].BoolVal? then cfg[path].b else def
  }

  /** ConfigurationSection.getInt / getLong(path, def): a stored double is truncated. */
  function GetInt(cfg: CheckConfig, path: string, def: int): (r: int)
    ensures path !in cfg ==> r == def
    ensures path in cfg && cfg[path].IntVal? ==> r == cfg[path].i
    ensures path in cfg && cfg[path].RealVal? ==> r == Trunc(cfg[path].r)
    ensures path in cfg && (cfg[path].BoolVal? || cfg[path].StrVal?) ==> r == def
  {
    if path !in cfg then def
    else match cfg[path]
      case IntVal(i) => i
      case RealVal(d) => Trunc(d)
      case _ => def
  }

  /** ConfigurationSection.getDouble(path, def): a stored integer is widened. */
  function GetDouble(cfg: CheckConfig, path: string, def: real): (r: real)
    ensures path !in cfg ==> r == def
    ensures path in cfg && cfg[path].RealVal? ==> r == cfg[path].r
    ensures path in cfg && cfg[path].IntVal? ==> r == cfg[path].i as real
    ensures path in cfg && (cfg[path].BoolVal? || cfg[path].StrVal?) ==> r == def
  {
    if path !in cfg then def
    else match cfg[path]
      case IntVal(i) => i as real
      case RealVal(d) => d
      case _ => def
  }

  /**
   * ConfigurationSection.getString(path, def): any stored value is rendered
   * with toString, so a stored number or boolean is its decimal or
   * true/false text. A stored double falls back to the default here.
   */
  function GetString(cfg: CheckConfig, path: string, def: string): (r: string)
    ensures path !in cfg ==> r == def
    ensures path in cfg && cfg[path].StrVal? ==> r == cfg[path].s
    ensures path in cfg && cfg[path].IntVal? ==> r == IntToString(cfg[path].i)
    ensures path in cfg && cfg[path].BoolVal? ==> r == (if cfg[path].b then "true" else "false")
    ensures path in cfg && cfg[path].RealVal? ==> r == def
  {
    if path !in cfg then def
    else match cfg[path]
      case StrVal(t) => t
      case IntVal(i) => IntToString(i)
      case BoolVal(b) => if b then "true" else "false"
      case RealVal(_) => def
  }

  /** A stored integer read back as text parses to the same integer. */
  lemma GetStringOfIntParsesBack(cfg: CheckConfig, path: string, def: string)
    requires path in cfg && cfg[path].IntVal?
    ensures ParseInt(GetString(cfg, path, def)) == cfg[path].i
  {
    IntToStringRoundTrip(cfg[path].i);
  }

  /** CheckConfig.getValue(path): the raw stored value, if any. */
  function GetValue(cfg: CheckConfig, path: string): (r: Option<Value>)
    ensures r.Some? <==> path in cfg
    ensures r.Some? ==> r.value == cfg[path]
  {
    if path in cfg then Some(cfg[path]) else None
  }

  /** CheckConfig.isCheckEnabled(check): "<check>.enabled", default true. */
  function IsCheckEnabled(cfg: CheckConfig, check: string): (r: bool)
    ensures (check + ".enabled") !in cfg ==> r
    ensures (check + ".enabled") in cfg && cfg[check + ".enabled"].BoolVal? ==> r == cfg[check + ".enabled"].b
  {
    GetBoolean(cfg, check + ".enabled", true)
  }

  /** CheckConfig.getMaxViolations(check): "<check>.max-violations", default 5. */
  function GetMaxViolations(cfg: CheckConfig, check: string): (r: int)
    ensures (check + ".max-violations") !in cfg ==> r == DefaultMaxViolations
    ensures (check + ".max-violations") in cfg && cfg[check + ".max-violations"].IntVal? ==>
      r == cfg[check + ".max-violations"].i
  {
    GetInt(cfg, check + ".max-violations", DefaultMaxViolations)
  }

  /** CheckConfig.getPunishmentCommand(check): "<check>.punishment", default a kick. */
  function GetPunishmentCommand(cfg: CheckConfig, check: string): (r: string)
    ensures (check + ".punishment") !in cfg ==> r == DefaultPunishment
    ensures (check + ".punishment") in cfg && cfg[check + ".punishment"].StrVal? ==>
      r == cfg[check + ".punishment"].s
  {
    GetString(cfg, check + ".punishment", DefaultPunishment)
  }

  /** CheckConfig.getDoubleValue / getDouble(path, def) of the detectors. */
  function GetDoubleValue(cfg: CheckConfig, path: string, def: real): (r: real)
    ensures path !in cfg ==> r == def
  {
    GetDouble(cfg, path, def)
  }

  /** CheckConfig.getLong(path, def) of the detectors. */
  function GetLong(cfg: CheckConfig, path: string, def: int): (r: int)
    ensures path !in cfg ==> r == def
  {
    GetInt(cfg, path, def)
  }

  /** An empty configuration makes every getter fall back to its default. */
  lemma EmptyConfigDefaults(check: string, path: string, dInt: int, dReal: real)
    ensures IsCheckEnabled(map[], check)
    ensures GetMaxViolations(map[], check) == 5
    ensures GetPunishmentCommand(map[], check) == "kick %player% [RedoxGuard] Unfair advantage"
    ensures GetLong(map[], path, dInt) == dInt && GetInt(map[], path, dInt) == dInt
    ensures GetDouble(map[], path, dReal) == dReal
  {
  }

  /** A lookup only depends on the path it names: storing another path changes nothing. */
  lemma LookupIgnoresOtherPaths(cfg: CheckConfig, path: string, other: string, v: Value, dInt: int, dReal: real, dBool: bool)
    requires other != path
    ensures GetInt(cfg[other := v], path, dInt) == GetInt(cfg, path, dInt)
    ensures GetDouble(cfg[other := v], path, dReal) == GetDouble(cfg, path, dReal)
    ensures GetBoolean(cfg[other := v], path, dBool) == GetBoolean(cfg, path, dBool)
  {
  }
}
