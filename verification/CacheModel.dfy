/** The item cache of items.c, with the store and arithmetic commands of memcached.c: items with
    reference counts and CAS ids, the hash table as a map, the 256 LRU lists, the bump buffers.

    One step is one call made under the locks the code takes for it.  Items are rows of maps
    indexed by an item identity; freeing an item removes its row. */
module CacheModel {
  import opened Sums

  const LISTS := 256
  const HOT := 0
  const WARM := 64
  const COLD := 128
  const TEMP := 192
  const UPDATE_INTERVAL := 60
  const TWO32 := 0x1_0000_0000
  const TWO64 := 0x1_0000_0000_0000_0000

  type Key = string

  /** An LRU list holds items and at most one crawler marker. */
  datatype Elem = Entry(id: nat) | Crawler
  datatype Head = Head(key: Key, ntotal: nat)
  datatype Place = Place(linked: bool, list: nat)
  datatype Use = Use(active: bool, fetched: bool, exptime: nat, time: nat)
  datatype Version = Version(key: Key, value: string)
  datatype Settings = Settings(
    useCas: bool, segmented: bool, evictToFree: bool, hotPercent: nat, warmPercent: nat)

  datatype Cache = Cache(
    settings: Settings,
    now: nat,
    oldestLive: nat,
    oldestCas: nat,
    // one row per allocated item
    heads: map<nat, Head>,
    data: map<nat, string>,
    cas: map<nat, nat>,
    places: map<nat, Place>,
    refs: map<nat, int>,
    uses: map<nat, Use>,
    // the indexes over linked items and their counters
    table: map<Key, nat>,
    lists: seq<seq<Elem>>,
    sizes: seq<int>,
    bytes: seq<int>,
    currItems: int,
    currBytes: int,
    casId: nat,
    // item locks held, references held by clients, references parked in each bump buffer
    locks: set<nat>,
    held: multiset<nat>,
    bumps: seq<seq<nat>>,
    // history: identities given out, the value each CAS id was issued for, items ever linked
    nextId: nat,
    versions: map<nat, Version>,
    published: set<nat>,
    sound: bool)   // no assert has failed and no freed item has been touched

  // ---------------------------------------------------------------- shape

  ghost predicate Rows(c: Cache) {
    && c.data.Keys == c.heads.Keys
    && c.cas.Keys == c.heads.Keys
    && c.places.Keys == c.heads.Keys
    && c.refs.Keys == c.heads.Keys
    && c.uses.Keys == c.heads.Keys
  }

  ghost predicate InRange(places: map<nat, Place>) {
    forall id :: id in places ==> places[id].list < LISTS
  }

  ghost predicate Shape(c: Cache) {
    && Rows(c)
    && InRange(c.places)
    && |c.lists| == LISTS && |c.sizes| == LISTS && |c.bytes| == LISTS
  }

  /** A failed assert, or a use of an item that has been freed. */
  function Fault(c: Cache): (r: Cache)
    requires Shape(c)
    ensures Shape(r)
  {
    c.(sound := false)
  }

  // ---------------------------------------------------------------- LRU list membership

  function ListOf(c: Cache, id: nat): nat
    requires id in c.places
  {
    c.places[id].list
  }

  function ClassOf(list: nat): nat { list % 64 }

  function LruOf(list: nat): nat { list - list % 64 }

  /** Put an item at the head of the list it is marked for. */
  function LinkQ(c: Cache, id: nat): (r: Cache)
    requires Shape(c) && id in c.heads
    ensures Shape(r)
  {
    var l := ListOf(c, id);
    c.(lists := c.lists[l := [Entry(id)] + c.lists[l]],
       sizes := c.sizes[l := c.sizes[l] + 1],
       bytes := c.bytes[l := c.bytes[l] + c.heads[id].ntotal])
  }

  function UnlinkQ(c: Cache, id: nat): (r: Cache)
    requires Shape(c) && id in c.heads
    ensures Shape(r)
  {
    var l := ListOf(c, id);
    c.(lists := c.lists[l := Without(c.lists[l], Entry(id))],
       sizes := c.sizes[l := c.sizes[l] - 1],
       bytes := c.bytes[l := c.bytes[l] - c.heads[id].ntotal])
  }

  /** Take an item off its list and put it at the head of another. */
  function Move(c: Cache, id: nat, list: nat): (r: Cache)
    requires Shape(c) && list < LISTS
    ensures Shape(r)
  {
    if id !in c.heads then Fault(c) else
    var off := UnlinkQ(c, id);
    LinkQ(off.(places := off.places[id := off.places[id].(list := list)]), id)
  }

  // ---------------------------------------------------------------- references

  function Free(c: Cache, id: nat): (r: Cache)
    requires Shape(c)
    ensures Shape(r)
  {
    c.(heads := c.heads - {id}, data := c.data - {id}, cas := c.cas - {id},
       places := c.places - {id}, refs := c.refs - {id}, uses := c.uses - {id})
  }

  /** Drop one reference; the last one frees the item. */
  function DropRef(c: Cache, id: nat): (r: Cache)
    requires Shape(c)
    ensures Shape(r)
  {
    if id !in c.heads || c.refs[id] <= 0 then Fault(c)
    else if c.refs[id] - 1 == 0 then Free(c, id) else c.(refs := c.refs[id := c.refs[id] - 1])
  }

  /** A client takes a reference. */
  function Hold(c: Cache, id: nat): (r: Cache)
    requires Shape(c)
    ensures Shape(r)
  {
    if id !in c.heads then Fault(c) else
    c.(refs := c.refs[id := c.refs[id] + 1], held := c.held + multiset{id})
  }

  /** A client gives one back. */
  function Release(c: Cache, id: nat): (r: Cache)
    requires Shape(c)
    ensures Shape(r)
  {
    DropRef(c.(held := c.held - multiset{id}), id)
  }

  // ---------------------------------------------------------------- CAS ids

  function NextCas(c: Cache): nat { if c.settings.useCas then c.casId + 1 else 0 }

  /** Give an item a fresh CAS id, which from now on names its present value. */
  function Stamp(c: Cache, id: nat): (r: Cache)
    requires Shape(c) && id in c.heads
    ensures Shape(r)
  {
    if c.settings.useCas then
      c.(casId := c.casId + 1, cas := c.cas[id := c.casId + 1],
         versions := c.versions[c.casId + 1 := Version(c.heads[id].key, c.data[id])])
    else
      c.(cas := c.cas[id := 0])
  }

  /** Overwrite a value in place and give the item a fresh CAS id. */
  function Rewrite(c: Cache, id: nat, value: string): (r: Cache)
    requires Shape(c)
    ensures Shape(r)
  {
    if id !in c.heads then Fault(c) else Stamp(c.(data := c.data[id := value]), id)
  }

  // ---------------------------------------------------------------- link, unlink, replace, update

  /** Enter an item in the table and at the head of its list. */
  function Publish(c: Cache, id: nat): (r: Cache)
    requires Shape(c) && id in c.heads
    ensures Shape(r)
  {
    LinkQ(c.(places := c.places[id := c.places[id].(linked := true)],
             uses := c.uses[id := c.uses[id].(time := c.now)],
             refs := c.refs[id := c.refs[id] + 1],
             currItems := c.currItems + 1,
             currBytes := c.currBytes + c.heads[id].ntotal,
             table := c.table[c.heads[id].key := id],
             published := c.published + {id}), id)
  }

  function Link(c: Cache, id: nat): (r: Cache)
    requires Shape(c)
    ensures Shape(r)
  {
    if id !in c.heads || c.places[id].linked then Fault(c) else
    Publish(Stamp(c, id), id)
  }

  /** Take an item out of the table and off its list, keeping the reference the link held. */
  function Retract(c: Cache, id: nat): (r: Cache)
    requires Shape(c) && id in c.heads
    ensures Shape(r)
  {
    UnlinkQ(c.(places := c.places[id := c.places[id].(linked := false)],
               currItems := c.currItems - 1,
               currBytes := c.currBytes - c.heads[id].ntotal,
               table := c.table - {c.heads[id].key}), id)
  }

  function Unlink(c: Cache, id: nat): (r: Cache)
    requires Shape(c)
    ensures Shape(r)
  {
    if id !in c.heads then Fault(c)
    else if c.places[id].linked then DropRef(Retract(c, id), id) else c
  }

  function Touch(c: Cache, id: nat, u: Use): (r: Cache)
    requires Shape(c)
    ensures Shape(r)
  {
    if id !in c.heads then Fault(c) else
    c.(uses := c.uses[id := u])
  }

  /** The access-time bump: promotion from COLD to WARM, or a relink at the head in flat mode. */
  function Update(c: Cache, id: nat): (r: Cache)
    requires Shape(c)
    ensures Shape(r)
  {
    if id !in c.heads then Fault(c) else
    var u := c.uses[id];
    if !c.places[id].linked then
      c
    else if c.settings.segmented then
      if LruOf(ListOf(c, id)) == COLD && u.active then
        Move(Touch(c, id, u.(time := c.now, active := false)), id, ClassOf(ListOf(c, id)) + WARM)
      else
        Touch(c, id, u.(time := c.now))
    else if u.time < (c.now - UPDATE_INTERVAL) % TWO32 then
      Move(Touch(c, id, u.(time := c.now)), id, ListOf(c, id))
    else
      c
  }

  // ---------------------------------------------------------------- bump buffers

  /** Ask for a promotion later: park a reference in a bump buffer. */
  function BumpAsync(c: Cache, id: nat, w: nat): (r: Cache)
    requires Shape(c) && w < |c.bumps|
    ensures Shape(r)
  {
    if id !in c.heads then Fault(c) else
    c.(refs := c.refs[id := c.refs[id] + 1], bumps := c.bumps[w := c.bumps[w] + [id]])
  }

  /** Take the oldest entry out of a bump buffer and give back its reference. */
  function Unpark(c: Cache, w: nat): (r: Cache)
    requires Shape(c) && w < |c.bumps| && c.bumps[w] != []
    ensures Shape(r)
  {
    DropRef(c.(bumps := c.bumps[w := c.bumps[w][1..]]), c.bumps[w][0])
  }

  // ---------------------------------------------------------------- allocation

  /** A fresh item: referenced by its creator only, not linked, its CAS field the caller's token. */
  function Alloc(c: Cache, key: Key, value: string, list: nat, exptime: nat, ntotal: nat, token: nat): (r: Cache)
    requires Shape(c) && list < LISTS
    ensures Shape(r) && c.nextId in r.heads
  {
    var id := c.nextId;
    c.(heads := c.heads[id := Head(key, ntotal)],
       data := c.data[id := value],
       cas := c.cas[id := token],
       places := c.places[id := Place(false, list)],
       refs := c.refs[id := 1],
       uses := c.uses[id := Use(false, false, exptime, 0)],
       held := c.held + multiset{id},
       nextId := id + 1)
  }
}
