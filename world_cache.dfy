/**
 * WorldCache: a per-player replica of the blocks the player interacts
 * with. Each player's cache maps getBlockKey's 64-bit key, as written, to
 * a material and to the time it was stored; both maps always have the same
 * keys. A miss reads the real world and stores its answer, and cleanup
 * drops entries older than five minutes. BlockKey is the corrected key.
 */
module WorldCache {
  import opened Util

  /** A Java int widened to a long: a 64-bit word whose top 33 bits are all equal. */
  type JInt = v: bv64 | v < 0x8000_0000 || 0xFFFF_FFFF_8000_0000 <= v

  /** The block coordinates of a location (getBlockX/Y/Z), as Java ints. */
  datatype Coords = Coords(x: JInt, y: JInt, z: JInt)

  /**
   * getBlockKey as written: (x << 32) | (y << 16) | z, with every operand
   * sign-extended to a long, so a negative z sets all of the top 32 bits,
   * where x was meant to go.
   */
  function BlockKeyAsWritten(c: Coords): (k: bv64)
    ensures 0xFFFF_FFFF_8000_0000 <= c.z ==> k & 0xFFFF_FFFF_0000_0000 == 0xFFFF_FFFF_0000_0000
  {
    (c.x << 32) | (c.y << 16) | c.z
  }

  /** Inside the world border: -2^25 <= v < 2^25. */
  predicate InBorder(v: JInt)
  {
    v + 0x200_0000 < 0x400_0000
  }

  /** Inside the build height: -2^11 <= v < 2^11. */
  predicate InHeight(v: JInt)
  {
    v + 0x800 < 0x1000
  }

  /** The 26-bit x, 26-bit z and 12-bit y fields, each masked before it is shifted. */
  function BlockKey(c: Coords): bv64
  {
    ((c.x & 0x3FF_FFFF) << 38) | ((c.z & 0x3FF_FFFF) << 12) | (c.y & 0xFFF)
  }

  /** As written, the blocks (0, 0, -1) and (1, 64, -1) share a key: every bit is set. */
  lemma BlockKeyAsWrittenCollides()
    ensures BlockKeyAsWritten(Coords(0, 0, 0xFFFF_FFFF_FFFF_FFFF)) == 0xFFFF_FFFF_FFFF_FFFF
    ensures BlockKeyAsWritten(Coords(1, 64, 0xFFFF_FFFF_FFFF_FFFF)) == 0xFFFF_FFFF_FFFF_FFFF
  {
  }

  /** As written, the key only separates blocks whose y and z are both in [0, 2^16). */
  lemma BlockKeyAsWrittenInjectiveOnSmall(a: Coords, b: Coords)
    requires a.y < 0x1_0000 && a.z < 0x1_0000 && b.y < 0x1_0000 && b.z < 0x1_0000
    requires BlockKeyAsWritten(a) == BlockKeyAsWritten(b)
    ensures a == b
  {
  }

  /** Inside the world border and build height, distinct blocks have distinct keys. */
  lemma BlockKeyInjective(a: Coords, b: Coords)
    requires InBorder(a.x) && InBorder(a.z) && InHeight(a.y)
    requires InBorder(b.x) && InBorder(b.z) && InHeight(b.y)
    requires BlockKey(a) == BlockKey(b)
    ensures a == b
  {
  }

  /** The blocks the finding names are told apart by the corrected key. */
  lemma BlockKeySeparatesCollision()
    ensures BlockKey(Coords(0, 0, 0xFFFF_FFFF_FFFF_FFFF)) != BlockKey(Coords(1, 64, 0xFFFF_FFFF_FFFF_FFFF))
  {
  }

  /** A cache key. The 64-bit word is wrapped so that the maps are keyed by a datatype value. */
  datatype Key = Key(bits: bv64)

  /** Five minutes in milliseconds. */
  const MaxAge: int := 300000

  class PlayerWorldCache {
    const player: Uuid
    var blockCache: map<Key, Material>
    var blockTimestamps: map<Key, int>

    /** Every cached block has a timestamp and every timestamp a block. */
    predicate Valid()
      reads this
    {
      blockCache.Keys == blockTimestamps.Keys
    }

    constructor (player: Uuid)
      ensures this.player == player && blockCache == map[] && blockTimestamps == map[] && Valid()
    {
      this.player := player;
      blockCache, blockTimestamps := map[], map[];
    }

    /** updateBlock: the material and the time are stored together. */
    method UpdateBlock(c: Coords, material: Material, now: int)
      modifies this
      ensures blockCache == old(blockCache)[Key(BlockKeyAsWritten(c)) := material]
      ensures blockTimestamps == old(blockTimestamps)[Key(BlockKeyAsWritten(c)) := now]
      ensures old(Valid()) ==> Valid()
    {
      var key := Key(BlockKeyAsWritten(c));
      blockCache := blockCache[key := material];
      blockTimestamps := blockTimestamps[key := now];
    }

    /**
     * getBlock: a cached material is returned as is; otherwise worldMaterial,
     * the type of the real block there, is stored with the time and returned.
     */
    method GetBlock(c: Coords, worldMaterial: Material, now: int) returns (material: Material)
      modifies this
      ensures Key(BlockKeyAsWritten(c)) in old(blockCache) ==> material == old(blockCache)[Key(BlockKeyAsWritten(c))] && unchanged(this)
      ensures Key(BlockKeyAsWritten(c)) !in old(blockCache) ==>
        material == worldMaterial
        && blockCache == old(blockCache)[Key(BlockKeyAsWritten(c)) := worldMaterial]
        && blockTimestamps == old(blockTimestamps)[Key(BlockKeyAsWritten(c)) := now]
      ensures old(Valid()) ==> Valid()
      ensures Key(BlockKeyAsWritten(c)) in blockCache && blockCache[Key(BlockKeyAsWritten(c))] == material
    {
      var key := Key(BlockKeyAsWritten(c));
      if key in blockCache {
        return blockCache[key];
      }
      material := worldMaterial;
      blockCache := blockCache[key := material];
      blockTimestamps := blockTimestamps[key := now];
    }

    /**
     * cleanup: the timestamps older than five minutes are removed, then
     * every block left without a timestamp.
     */
    method Cleanup(now: int)
      modifies this
      ensures blockTimestamps == map k | k in old(blockTimestamps) && now - old(blockTimestamps)[k] <= MaxAge
                                   :: old(blockTimestamps)[k]
      ensures blockCache == map k | k in old(blockCache) && k in blockTimestamps :: old(blockCache)[k]
      ensures blockCache.Keys <= blockTimestamps.Keys
      ensures old(Valid()) ==> Valid()
    {
      blockTimestamps := map k | k in blockTimestamps && now - blockTimestamps[k] <= MaxAge :: blockTimestamps[k];
      blockCache := map k | k in blockCache && k in blockTimestamps :: blockCache[k];
    }
  }

  /** getBlock right after updateBlock at the same block answers the stored material, not the world's. */
  method ReadAfterWrite(cache: PlayerWorldCache, c: Coords, material: Material, worldMaterial: Material, now: int)
    returns (read: Material)
    modifies cache
    ensures read == material
  {
    cache.UpdateBlock(c, material, now);
    read := cache.GetBlock(c, worldMaterial, now);
  }

  /**
   * With y and z in [0, 2^16), where getBlockKey tells blocks apart,
   * updating one block leaves the cached answer for every other block alone.
   */
  method WriteLeavesOthers(cache: PlayerWorldCache, a: Coords, b: Coords, material: Material,
                           worldMaterial: Material, now: int)
    returns (read: Material)
    requires a != b
    requires a.y < 0x1_0000 && a.z < 0x1_0000 && b.y < 0x1_0000 && b.z < 0x1_0000
    modifies cache
    ensures Key(BlockKeyAsWritten(b)) in old(cache.blockCache) ==> read == old(cache.blockCache)[Key(BlockKeyAsWritten(b))]
    ensures Key(BlockKeyAsWritten(b)) !in old(cache.blockCache) ==> read == worldMaterial
  {
    if BlockKeyAsWritten(a) == BlockKeyAsWritten(b) {
      BlockKeyAsWrittenInjectiveOnSmall(a, b);
    }
    cache.UpdateBlock(a, material, now);
    read := cache.GetBlock(b, worldMaterial, now);
  }

  /**
   * Because the key collides, a block stored at (0, 0, -1) is the cached
   * answer for (1, 64, -1): the real world's block there is never read.
   */
  method StaleReadAcrossCollision(cache: PlayerWorldCache, material: Material, worldMaterial: Material, now: int)
    returns (read: Material)
    modifies cache
    ensures read == material
  {
    var a := Coords(0, 0, 0xFFFF_FFFF_FFFF_FFFF);
    var b := Coords(1, 64, 0xFFFF_FFFF_FFFF_FFFF);
    BlockKeyAsWrittenCollides();
    cache.UpdateBlock(a, material, now);
    read := cache.GetBlock(b, worldMaterial, now);
  }

  class WorldCache {
    var playerCaches: map<Uuid, PlayerWorldCache>

    predicate Valid()
      reads this, playerCaches.Values
    {
      forall u :: u in playerCaches ==> playerCaches[u].player == u && playerCaches[u].Valid()
    }

    constructor ()
      ensures playerCaches == map[] && Valid()
    {
      playerCaches := map[];
    }

    /** getPlayerCache: the stored cache, or a new empty one stored for the player. */
    method GetPlayerCache(p: Actor) returns (cache: PlayerWorldCache)
      requires Valid()
      modifies this
      ensures Valid()
      ensures p.id in old(playerCaches) ==> cache == old(playerCaches)[p.id] && playerCaches == old(playerCaches)
      ensures p.id !in old(playerCaches) ==>
        fresh(cache) && cache.blockCache == map[] && cache.blockTimestamps == map[] && playerCaches == old(playerCaches)[p.id := cache]
      ensures cache.player == p.id && cache.Valid()
    {
      if p.id in playerCaches {
        return playerCaches[p.id];
      }
      cache := new PlayerWorldCache(p.id);
      playerCaches := playerCaches[p.id := cache];
    }

    /** The cache object p's calls may change. */
    function Footprint(u: Uuid): set<object>
      reads this
    {
      if u in playerCaches then {playerCaches[u]} else {}
    }

    /** updateBlock on p's cache. */
    method UpdateBlock(p: Actor, c: Coords, material: Material, now: int)
      requires Valid()
      modifies this, Footprint(p.id)
      ensures Valid()
      ensures p.id in playerCaches && playerCaches == old(playerCaches)[p.id := playerCaches[p.id]]
      ensures p.id in old(playerCaches) ==> playerCaches[p.id] == old(playerCaches)[p.id]
      ensures playerCaches[p.id].blockCache == old(if p.id in playerCaches then playerCaches[p.id].blockCache else map[])[Key(BlockKeyAsWritten(c)) := material]
      ensures playerCaches[p.id].blockTimestamps == old(if p.id in playerCaches then playerCaches[p.id].blockTimestamps else map[])[Key(BlockKeyAsWritten(c)) := now]
    {
      var cache := GetPlayerCache(p);
      cache.UpdateBlock(c, material, now);
    }

    /** getBlock on p's cache. */
    method GetBlock(p: Actor, c: Coords, worldMaterial: Material, now: int) returns (material: Material)
      requires Valid()
      modifies this, Footprint(p.id)
      ensures Valid()
      ensures p.id in playerCaches && playerCaches == old(playerCaches)[p.id := playerCaches[p.id]]
      ensures p.id in old(playerCaches) ==> playerCaches[p.id] == old(playerCaches)[p.id]
      ensures var before := old(if p.id in playerCaches then playerCaches[p.id].blockCache else map[]);
        var beforeTimes := old(if p.id in playerCaches then playerCaches[p.id].blockTimestamps else map[]);
        var key := Key(BlockKeyAsWritten(c));
        if key in before then
          material == before[key]
          && playerCaches[p.id].blockCache == before && playerCaches[p.id].blockTimestamps == beforeTimes
        else
          material == worldMaterial
          && playerCaches[p.id].blockCache == before[key := worldMaterial]
          && playerCaches[p.id].blockTimestamps == beforeTimes[key := now]
    {
      var cache := GetPlayerCache(p);
      material := cache.GetBlock(c, worldMaterial, now);
    }

    /** removePlayerCache. */
    method RemovePlayerCache(p: Actor)
      requires Valid()
      modifies this
      ensures Valid() && playerCaches == old(playerCaches) - {p.id}
    {
      playerCaches := playerCaches - {p.id};
    }
  }

  /** getPlayerCache answers the same object until the player's cache is removed; then a new one. */
  method SameCacheUntilRemoved(w: WorldCache, p: Actor) returns (first: PlayerWorldCache, second: PlayerWorldCache, third: PlayerWorldCache)
    requires w.Valid()
    modifies w
    ensures first == second && fresh(third) && third != first
  {
    first := w.GetPlayerCache(p);
    second := w.GetPlayerCache(p);
    w.RemovePlayerCache(p);
    third := w.GetPlayerCache(p);
  }
}
