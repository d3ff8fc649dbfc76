/**
 * The Bukkit Material constants the detectors compare against, by name.
 */
module Materials {
  import opened Util

  const RespawnAnchor: Material := "RESPAWN_ANCHOR"
  const Glowstone: Material := "GLOWSTONE"
  const DiamondSword: Material := "DIAMOND_SWORD"
  const NetheriteSword: Material := "NETHERITE_SWORD"
  const IronSword: Material := "IRON_SWORD"
  const EndCrystal: Material := "END_CRYSTAL"
  const EndPortalFrame: Material := "END_PORTAL_FRAME"
  const TotemOfUndying: Material := "TOTEM_OF_UNDYING"

  /** A sword the crystal and anchor detectors watch for on item switches. */
  predicate IsWatchedSword(m: Material)
  {
    m == DiamondSword || m == NetheriteSword || m == IronSword
  }
}
