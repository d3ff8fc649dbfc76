/**
 * The check abstraction (Check): a fixed name and category, and an enabled
 * flag that starts from the category configuration and can be toggled at
 * run time. flag() forwards a violation to the manager only when the check
 * is enabled and the player lacks the bypass permission.
 */
module Checks {
  import opened Util
  import opened Strings
  import opened Config

  class Check {
    const name: string
    const checkType: string
    var enabled: bool

    /**
     * Enabled by default; when the category configuration exists, its
     * "<lower-case name>.enabled" entry decides.
     */
    constructor (name: string, checkType: string, categoryConfig: Option<CheckConfig>)
      ensures this.name == name && this.checkType == checkType
      ensures categoryConfig.None? ==> enabled
      ensures categoryConfig.Some? ==> enabled == IsCheckEnabled(categoryConfig.value, Lower(name))
    {
      this.name := name;
      this.checkType := checkType;
      match categoryConfig {
        case None => enabled := true;
        case Some(cfg) => enabled := IsCheckEnabled(cfg, Lower(name));
      }
    }

    function GetName(): (r: string)
      ensures r == name
    {
      name
    }

    function GetType(): (r: string)
      ensures r == checkType
    {
      checkType
    }

    function IsEnabled(): (r: bool)
      reads this
      ensures r == enabled
    {
      enabled
    }

    method SetEnabled(b: bool)
      modifies this
      ensures enabled == b
    {
      enabled := b;
    }

    /** The guard of flag(): the violation reaches the manager exactly when this holds. */
    predicate Forwards(p: Actor)
      reads this
    {
      enabled && !p.bypass
    }

    /** debug: the line handed to the debug log; no state changes. */
    method Debug(message: string) returns (line: string)
      ensures line == "[" + name + "] " + message
    {
      line := "[" + GetName() + "] " + message;
    }
  }

  /** Toggling twice restores the flag; nothing but the check object may change. */
  method ToggleTwice(c: Check)
    modifies c
    ensures c.enabled == old(c.enabled)
  {
    var was := c.IsEnabled();
    c.SetEnabled(!was);
    assert c.IsEnabled() == !was;
    c.SetEnabled(was);
  }
}
