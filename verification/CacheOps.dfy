/** The cache operations built from the primitives: lookup, hit marking, bump draining, the store
    commands, incr and decr, and the crawler's reclaim. */
module CacheOps {
  import opened Sums
  import opened CacheModel
  import Decimal

  // ---------------------------------------------------------------- lookup

  predicate Flushed(c: Cache, id: nat)
    requires id in c.uses && id in c.cas
  {
    && c.oldestLive != 0 && c.oldestLive <= c.now
    && (c.uses[id].time <= c.oldestLive
        || (c.oldestCas != 0 && c.cas[id] != 0 && c.cas[id] < c.oldestCas))
  }

  /** A lookup treats an item as dead from its expiry second on. */
  predicate Dead(c: Cache, id: nat)
    requires id in c.uses && id in c.cas
  {
    Flushed(c, id) || (c.uses[id].exptime != 0 && c.uses[id].exptime <= c.now)
  }

  /** The background scans wait until that second is over. */
  predicate Stale(c: Cache, id: nat)
    requires id in c.uses && id in c.cas
  {
    Flushed(c, id) || (c.uses[id].exptime != 0 && c.uses[id].exptime < c.now)
  }

  /** Find a key and take a reference to its item; a dead item is unlinked instead. */
  function Get(c: Cache, key: Key): (r: (Cache, Option<nat>))
    requires Shape(c)
    ensures Shape(r.0) && (r.1.Some? ==> r.1.value in r.0.heads)
  {
    if key !in c.table then
      (c, None)
    else
      var id := c.table[key];
      var c1 := Hold(c, id);
      if id !in c1.heads then (c1, None)
      else if Dead(c1, id) then (Release(Unlink(c1, id), id), None)
      else (c1, Some(id))
  }

  /** The hit markers: FETCHED on the first hit, ACTIVE on the second. */
  function Bump(c: Cache, id: nat, w: nat, room: bool): (r: Cache)
    requires Shape(c) && w < |c.bumps|
    ensures Shape(r)
  {
    if id !in c.heads then Fault(c) else
    var u := c.uses[id];
    if !c.settings.segmented then
      Update(Touch(c, id, u.(fetched := true)), id)
    else if u.active then
      c
    else if !u.fetched then
      Touch(c, id, u.(fetched := true))
    else if LruOf(ListOf(c, id)) != COLD then
      Touch(c, id, u.(active := true, time := c.now))
    else if room then
      BumpAsync(Touch(c, id, u.(active := true)), id, w)
    else
      c
  }

  /** The maintainer serves the oldest entry of a bump buffer. */
  function DrainOne(c: Cache, w: nat): (r: Cache)
    requires Shape(c) && w < |c.bumps| && c.bumps[w] != []
    ensures Shape(r)
  {
    var c1 := Update(c, c.bumps[w][0]);
    if w < |c1.bumps| && c1.bumps[w] != [] then Unpark(c1, w) else Fault(c1)
  }

  /** The crawler looks at an item nobody holds and reclaims it when it is stale. */
  function Crawl(c: Cache, id: nat): (r: Cache)
    requires Shape(c)
    ensures Shape(r)
  {
    var c1 := Hold(c, id);
    if id !in c1.heads then c1
    else if c1.refs[id] == 2 && Stale(c1, id) then Release(Unlink(c1, id), id)
    else Release(c1, id)
  }

  // ---------------------------------------------------------------- store

  datatype Command = AddCmd | SetCmd | ReplaceCmd | AppendCmd | PrependCmd | CasCmd
  datatype Outcome = Stored | NotStored | Exists | NotFound
  datatype CasTest = NoCas | Match | BadValue | StaleCas

  /** Where an allocation the command needs would go. */
  datatype Room = Room(list: nat, ntotal: nat)

  ghost predicate RoomOk(room: Option<Room>) { room.Some? ==> room.value.list < LISTS }

  function TestCas(token: nat, current: nat, staleOk: bool): CasTest {
    if token == 0 then NoCas
    else if token == current then Match
    else if staleOk && token < current then StaleCas
    else BadValue
  }

  /** Replace the found item by another and give back the reference to the found one. */
  function Swap(c: Cache, was: nat, id: nat): (r: Cache)
    requires Shape(c)
    ensures Shape(r)
  {
    Release(Link(Unlink(c, was), id), was)
  }

  function Combined(comm: Command, present: string, added: string): string {
    if comm == AppendCmd then present + added else added + present
  }

  /** Store item `id` (held by the caller, its CAS field the token it brought) under its key;
      `room` is where append and prepend may allocate, None when memory runs out. */
  function Store(c: Cache, id: nat, comm: Command, staleOk: bool, room: Option<Room>): (r: (Cache, Outcome))
    requires Shape(c) && RoomOk(room)
    ensures Shape(r.0)
  {
    if id !in c.heads then (Fault(c), NotStored) else
    var (c1, found) := Get(c, c.heads[id].key);
    if id !in c1.heads then
      (Fault(c1), NotStored)
    else if found.Some? then
      StoreOver(c1, id, found.value, comm, staleOk, room)
    else if comm == AddCmd || comm == SetCmd then
      (Link(c1, id), Stored)
    else
      (c1, if comm == CasCmd then NotFound else NotStored)
  }

  function StoreOver(c: Cache, id: nat, was: nat, comm: Command, staleOk: bool, room: Option<Room>): (r: (Cache,
      Outcome))
    requires Shape(c) && id in c.heads && was in c.heads && RoomOk(room)
    ensures Shape(r.0)
  {
    var test := TestCas(c.cas[id], c.cas[was], staleOk);
    match comm
    case AddCmd => (Release(Update(c, was), was), NotStored)
    case CasCmd =>
      if test == Match then (Swap(c, was, id), Stored)
      else if test == StaleCas then
        (Swap(Touch(c, id, c.uses[id].(exptime := c.uses[was].exptime)), was, id), Stored)
      else (Release(c, was), Exists)
    case SetCmd => (Swap(c, was, id), Stored)
    case ReplaceCmd => (Swap(c, was, id), Stored)
    case AppendCmd => StoreJoined(c, id, was, comm, test, room)
    case PrependCmd => StoreJoined(c, id, was, comm, test, room)
  }

  /** Append and prepend store a third item holding both values. */
  function StoreJoined(c: Cache, id: nat, was: nat, comm: Command, test: CasTest, room: Option<Room>): (r: (Cache,
      Outcome))
    requires Shape(c) && id in c.heads && was in c.heads && RoomOk(room)
    ensures Shape(r.0)
  {
    if test == BadValue || test == StaleCas then
      (Release(c, was), Exists)
    else if room.None? then
      (Release(c, was), NotStored)
    else
      var value := Combined(comm, c.data[was], c.data[id]);
      var c1 := Alloc(c, c.heads[id].key, value, room.value.list, c.uses[was].exptime, room.value.ntotal, 0);
      (Release(Swap(c1, was, c.nextId), c.nextId), Stored)
  }

  // ---------------------------------------------------------------- incr and decr

  datatype DeltaResult = DeltaOk(value: string, cas: nat) | NonNumeric | DeltaNotFound | CasMismatch | OutOfMemory

  /** Unsigned 64-bit: increment wraps round, decrement stops at zero. */
  function Shifted(value: nat, incr: bool, delta: nat): nat {
    if incr then (value + delta) % TWO64 else if delta > value then 0 else value - delta
  }

  function Padded(digits: string, width: nat): (r: string)
    requires |digits| <= width
    ensures |r| == width && digits <= r
  {
    digits + seq(width - |digits|, i => ' ')
  }

  /** `parsed` is what the number parser makes of the value; token 0 asks for no CAS check. */
  function AddDelta(c: Cache, key: Key, incr: bool, delta: nat, token: nat, parsed: Option<nat>, room: Option<Room>)
    : (r: (Cache, DeltaResult))
    requires Shape(c) && RoomOk(room)
    ensures Shape(r.0)
  {
    var (c1, found) := Get(c, key);
    if found.None? then
      (c1, DeltaNotFound)
    else
      var id := found.value;
      if |c1.data[id]| == 0 then (Release(c1, id), NonNumeric)
      else if token != 0 && c1.cas[id] != token then (Release(c1, id), CasMismatch)
      else if parsed.None? then (Release(c1, id), NonNumeric)
      else ApplyDelta(c1, id, Decimal.Numeral(Shifted(parsed.value, incr, delta)), room)
  }

  /** In place when the number fits and only this command and the link refer to the item. */
  function ApplyDelta(c: Cache, id: nat, digits: string, room: Option<Room>): (r: (Cache, DeltaResult))
    requires Shape(c) && id in c.heads && RoomOk(room)
    ensures Shape(r.0)
  {
    if |digits| <= |c.data[id]| && c.refs[id] == 2 then
      (Release(Update(Rewrite(c, id, Padded(digits, |c.data[id]|)), id), id), DeltaOk(digits, NextCas(c)))
    else if c.refs[id] <= 1 then
      (Release(c, id), DeltaNotFound)
    else if room.None? then
      (Release(c, id), OutOfMemory)
    else
      (Release(EditByCopy(c, id, digits, room.value), id), DeltaOk(digits, NextCas(c)))
  }

  /** Store the new number in a new item, then copy its CAS id back into the item it replaced. */
  function EditByCopy(c: Cache, id: nat, digits: string, room: Room): (r: Cache)
    requires Shape(c) && id in c.heads && room.list < LISTS
    ensures Shape(r)
  {
    var c1 := Alloc(c, c.heads[id].key, digits, room.list, c.uses[id].exptime, room.ntotal, 0);
    var c2 := Link(Unlink(c1, id), c.nextId);
    if id !in c2.heads || c.nextId !in c2.heads then Fault(c2) else
    Release(c2.(cas := c2.cas[id := c2.cas[c.nextId]]), c.nextId)
  }
}
