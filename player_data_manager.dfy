/**
 * PlayerDataManager: the UUID -> PlayerData map, kept while a player is
 * online. Records are created on join (or lazily on first use) and dropped
 * on quit.
 */
module PlayerStore {
  import opened Util
  import opened PlayerState

  class PlayerDataManager {
    var records: map<Uuid, PlayerData>

    /** Every player has a record of their own, and every record keeps its tick invariant. */
    predicate Valid()
      reads this, records.Values
    {
      && (forall u, v :: u in records && v in records && u != v ==> records[u] != records[v])
      && (forall u :: u in records ==> records[u].Valid())
    }

    /** The objects a change to u's record may touch. */
    function RecordFor(u: Uuid): (r: set<PlayerData>)
      reads this
      ensures u in records ==> r == {records[u]}
      ensures u !in records ==> r == {}
    {
      if u in records then {records[u]} else {}
    }

    /** u's level for check, 0 when u has no record yet. */
    function LevelOf(u: Uuid, check: string): nat
      reads this, records.Values
    {
      if u in records then records[u].Level(check) else 0
    }

    constructor ()
      ensures records == map[] && Valid()
    {
      records := map[];
    }

    /** createData: a fresh record under p's UUID, replacing any earlier one. */
    method CreateData(p: Actor, now: int) returns (d: PlayerData)
      requires Valid()
      modifies this
      ensures Valid()
      ensures fresh(d) && d.IsFresh(p.location, p.onGround, now)
      ensures records == old(records)[p.id := d]
      ensures |records| == |old(records)| + (if p.id in old(records) then 0 else 1)
    {
      d := new PlayerData(p.location, p.onGround, now);
      records := records[p.id := d];
    }

    /** getPlayerData: the record for u, or null when there is none. */
    function GetPlayerData(u: Uuid): (r: PlayerData?)
      reads this
      ensures r == null <==> u !in records
      ensures r != null ==> r == records[u]
    {
      if u in records then records[u] else null
    }

    /** getOrCreatePlayerData: the existing record untouched, or exactly one new one; never null. */
    method GetOrCreate(p: Actor, now: int) returns (d: PlayerData)
      requires Valid()
      modifies this
      ensures Valid()
      ensures p.id in records && d == records[p.id]
      ensures p.id in old(records) ==> records == old(records) && d == old(records[p.id])
      ensures p.id !in old(records) ==>
        fresh(d) && d.IsFresh(p.location, p.onGround, now) && records == old(records)[p.id := d]
    {
      var existing := GetPlayerData(p.id);
      if existing == null {
        d := CreateData(p, now);
      } else {
        d := existing;
      }
    }

    /** removeData: u's record is dropped; every other player's record stays where it was. */
    method RemoveData(u: Uuid)
      requires Valid()
      modifies this
      ensures Valid()
      ensures records == old(records) - {u}
      ensures GetPlayerData(u) == null
      ensures forall v :: v != u ==> GetPlayerData(v) == old(GetPlayerData(v))
    {
      records := records - {u};
    }

    /** getPlayerCount: how many distinct players have a record. */
    function GetPlayerCount(): (n: nat)
      reads this
      ensures n == |records.Keys|
    {
      |records|
    }

    /** saveAllData: reports the number of records it would persist and changes nothing. */
    method SaveAllData() returns (count: nat)
      ensures count == |records.Keys|
    {
      count := GetPlayerCount();
    }
  }

  /** A join, a lookup and a quit: the record exists in between and is gone afterwards. */
  method JoinThenQuit(m: PlayerDataManager, p: Actor, now: int)
    requires m.Valid() && p.id !in m.records
    modifies m
    ensures m.Valid() && m.records == old(m.records)
  {
    var d := m.GetOrCreate(p, now);
    assert m.GetPlayerData(p.id) == d;
    var again := m.GetOrCreate(p, now + 50);
    assert again == d;
    m.RemoveData(p.id);
    assert m.records == old(m.records);
  }
}
