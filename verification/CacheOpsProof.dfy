/** The composed operations keep the invariant, balance their references, and act on the keys and
    values a client sees as operations on a map. */
module CacheOpsProof {
  import opened Sums
  import opened CacheModel
  import opened CacheInvariant
  import opened CacheProof
  import opened CacheOps

  /** The keys and values a client can see. */
  ghost function View(c: Cache): map<Key, string> {
    map k | k in c.table && c.table[k] in c.data :: c.data[c.table[k]]
  }

  /** Nothing but the listed components differs. */
  ghost predicate SameBooks(c: Cache, r: Cache, held: multiset<nat>) {
    r.held == held && r.locks == c.locks && r.bumps == c.bumps && r.now == c.now
    && r.oldestLive == c.oldestLive && r.oldestCas == c.oldestCas
  }

  lemma InvRows(c: Cache)
    requires Inv(c)
    ensures Shape(c)
    ensures forall k :: k in c.table ==>
      && c.table[k] in c.heads && c.heads[c.table[k]].key == k && c.places[c.table[k]].linked
    ensures forall id :: id in c.heads && c.places[id].linked ==>
      c.heads[id].key in c.table && c.table[c.heads[id].key] == id
    ensures forall id :: id in c.held ==> id in c.heads
  {
    hide ListsInv, SizesInv, BytesInv, TotalInv, CountInv, LinkedLabelled, PublishedInv, IssuedInv, IdsInv, Due;
  }

  // ---------------------------------------------------------------- what the primitives do

  /** Unlinking an item somebody holds takes it out of the indexes and frees nothing. */
  lemma UnlinkFrame(c: Cache, id: nat)
    requires Inv(c) && id in c.held && c.places[id].linked
    ensures id in c.heads
    ensures var r := Unlink(c, id);
      && r.heads == c.heads && r.data == c.data && r.cas == c.cas && r.uses == c.uses
      && r.table == c.table - {c.heads[id].key} && r.refs == c.refs[id := c.refs[id] - 1]
      && r.places == c.places[id := c.places[id].(linked := false)]
      && r.settings == c.settings && r.casId == c.casId && r.nextId == c.nextId
      && SameBooks(c, r, c.held)
  {
    hide Core, Retract, Due;
    assert Shape(c) by { InvShape(c); }
    LinkedHeld(c, id);
    RetractFrame(c, id);
  }

  lemma LinkFrame(c: Cache, id: nat)
    requires Shape(c) && id in c.heads && !c.places[id].linked
    ensures var r := Link(c, id);
      && r.heads == c.heads && r.data == c.data && r.cas == c.cas[id := NextCas(c)]
      && r.table == c.table[c.heads[id].key := id] && r.refs == c.refs[id := c.refs[id] + 1]
      && r.places == c.places[id := c.places[id].(linked := true)]
      && SameBooks(c, r, c.held)
  {
    hide Publish, Stamp, InRange;
    StampFrame(c, id);
    PublishFrame(Stamp(c, id), id);
  }

  lemma StampFrame(c: Cache, id: nat)
    requires Shape(c) && id in c.heads
    ensures var r := Stamp(c, id);
      r == c.(cas := c.cas[id := NextCas(c)], casId := r.casId, versions := r.versions)
  {
  }

  lemma ReleaseFrame(c: Cache, id: nat)
    requires Shape(c) && id in c.heads && c.refs[id] > 0
    ensures var r := Release(c, id);
      && r.table == c.table && SameBooks(c, r, c.held - multiset{id})
      && r.nextId == c.nextId && r.settings == c.settings && r.casId == c.casId
  {
    hide InRange;
  }

  lemma ReleaseRows(c: Cache, id: nat, x: nat)
    requires Shape(c) && id in c.heads && c.refs[id] > 0
    requires x in c.heads && (x != id || c.refs[id] > 1)
    ensures var r := Release(c, id);
      && x in r.heads && r.heads[x] == c.heads[x] && r.places[x] == c.places[x] && r.cas[x] == c.cas[x]
      && r.data[x] == c.data[x] && r.refs[x] == (if x == id then c.refs[x] - 1 else c.refs[x])
      && r.versions == c.versions && r.published == c.published && r.settings == c.settings
  {
    hide InRange;
  }

  lemma ReleaseLast(c: Cache, id: nat)
    requires Shape(c) && id in c.heads && c.refs[id] == 1
    ensures id !in Release(c, id).heads
  {
  }

  // ---------------------------------------------------------------- the client's view

  lemma ViewKeys(c: Cache)
    requires Inv(c)
    ensures View(c).Keys == c.table.Keys
    ensures forall k :: k in c.table ==> c.table[k] in c.data && View(c)[k] == c.data[c.table[k]]
  {
    hide Core, RefsInv;
    InvRows(c);
  }

  /** Entries that stay keep their value. */
  lemma ViewRemoved(c: Cache, r: Cache, keys: set<Key>)
    requires Inv(c) && Good(c, r) && r.table == c.table - keys
    ensures View(r) == View(c) - keys
  {
    hide Core, RefsInv, Evolves, LabelsKept, View;
    ViewKeys(c);
    ViewKeys(r);
    assert View(r).Keys == (View(c) - keys).Keys;
    assert forall k :: k in View(r) ==> View(r)[k] == (View(c) - keys)[k];
  }

  lemma ViewSame(c: Cache, r: Cache)
    requires Inv(c) && Good(c, r) && r.table == c.table
    ensures View(r) == View(c)
  {
    hide Inv, Good, View;
    assert c.table - {} == c.table;
    ViewRemoved(c, r, {});
    assert View(c) - {} == View(c);
  }

  lemma ViewAdded(c: Cache, r: Cache, key: Key, id: nat)
    requires Inv(c) && Good(c, r) && r.table == c.table[key := id] && id in r.data
    ensures View(r) == View(c)[key := r.data[id]]
  {
    hide Core, RefsInv, Evolves, LabelsKept, View;
    ViewKeys(c);
    ViewKeys(r);
    assert View(r).Keys == (View(c)[key := r.data[id]]).Keys;
    assert forall k :: k in View(r) ==> View(r)[k] == (View(c)[key := r.data[id]])[k];
  }

  // ---------------------------------------------------------------- lookup

  ghost predicate Live(c: Cache, key: Key) {
    && key in c.table && c.table[key] in c.uses && c.table[key] in c.cas
    && !Dead(c, c.table[key])
  }

  /** Rows of held items that are not linked are left alone. */
  ghost predicate GuestsKept(c: Cache, r: Cache) {
    forall x :: x in c.held && x in c.heads && x in c.places && x in c.cas && !c.places[x].linked ==>
      && x in r.heads && x in r.places && x in r.cas
      && r.places[x] == c.places[x] && r.cas[x] == c.cas[x]
  }

  /** Unlink an item one holds and let go of it. */
  lemma DiscardKeeps(c: Cache, id: nat)
    requires Inv(c) && id in c.held && id in c.heads && c.places[id].linked
    ensures var r := Release(Unlink(c, id), id);
      && Good(c, r) && r.table == c.table - {c.heads[id].key}
      && SameBooks(c, r, c.held - multiset{id}) && GuestsKept(c, r)
  {
    hide Core, RefsInv, Follows, Unlink, Release;
    assert Shape(c) by { InvShape(c); }
    UnlinkKeeps(c, id);
    UnlinkFrame(c, id);
    var m := Unlink(c, id);
    RefPositive(m, id);
    ReleaseKeeps(m, id);
    ReleaseFrame(m, id);
    GoodThen(c, m, Release(m, id));
    forall x | x in c.held && x in c.heads && !c.places[x].linked
      ensures x in Release(m, id).heads && Release(m, id).places[x] == c.places[x] && Release(m, id).cas[x] == c.cas[x]
    {
      ReleaseRows(m, id, x);
    }
  }

  lemma RefPositive(c: Cache, id: nat)
    requires Inv(c) && id in c.heads
    ensures c.refs[id] > 0
  {
    hide Core, Due;
    assert Shape(c) by { InvShape(c); }
  }

  /** Take a linked item, unlink it and let go again. */
  lemma BuryKeeps(c: Cache, id: nat)
    requires Inv(c) && id in c.heads && c.places[id].linked
    ensures var r := Release(Unlink(Hold(c, id), id), id);
      && Good(c, r) && r.table == c.table - {c.heads[id].key} && SameBooks(c, r, c.held) && GuestsKept(c, r)
  {
    hide Core, RefsInv, Follows, Unlink, Release;
    assert Shape(c) by { InvShape(c); }
    HoldKeeps(c, id);
    var m := Hold(c, id);
    DiscardKeeps(m, id);
    GoodThen(c, m, Release(Unlink(m, id), id));
    assert c.held + multiset{id} - multiset{id} == c.held;
  }

  lemma GuestsHeld(c: Cache, id: nat)
    requires Shape(c) && id in c.heads
    ensures GuestsKept(c, Hold(c, id)) && GuestsKept(c, c)
    ensures id in Hold(c, id).heads && Dead(Hold(c, id), id) == Dead(c, id)
  {
  }

  /** A lookup finds exactly the live items, and buries a dead one. */
  lemma GetKeeps(c: Cache, key: Key)
    requires Inv(c)
    ensures var (r, found) := Get(c, key);
      && Good(c, r) && GuestsKept(c, r)
      && (found.Some? <==> Live(c, key))
      && (found.Some? ==> found.value == c.table[key] && r == Hold(c, found.value))
      && (found.None? ==> r.table == c.table - {key} && SameBooks(c, r, c.held))
  {
    hide Inv, Good, Unlink, Release, Hold, Dead;
    InvRows(c);
    GoodSelf(c);
    if key in c.table {
      var id := c.table[key];
      GuestsHeld(c, id);
      HoldKeeps(c, id);
      BuryKeeps(c, id);
    } else {
      assert c.table - {key} == c.table;
    }
  }

  // ---------------------------------------------------------------- bumps and the crawler

  lemma BumpKeeps(c: Cache, id: nat, w: nat, room: bool)
    requires Inv(c) && id in c.heads && w < |c.bumps|
    ensures var r := Bump(c, id, w, room);
      Good(c, r) && r.table == c.table && r.held == c.held && r.locks == c.locks
  {
    hide Core, RefsInv, Follows, Update;
    assert Shape(c) by { InvShape(c); }
    GoodSelf(c);
    var u := c.uses[id];
    TouchKeeps(c, id, u.(fetched := true));
    TouchKeeps(c, id, u.(active := true, time := c.now));
    TouchKeeps(c, id, u.(active := true));
    var f := Touch(c, id, u.(fetched := true));
    UpdateKeeps(f, id);
    GoodThen(c, f, Update(f, id));
    var t := Touch(c, id, u.(active := true));
    BumpAsyncKeeps(t, id, w);
    GoodThen(c, t, BumpAsync(t, id, w));
  }

  lemma ParkedAlive(c: Cache, w: nat)
    requires Inv(c) && w < |c.bumps| && c.bumps[w] != []
    ensures c.bumps[w][0] in c.heads && c.refs[c.bumps[w][0]] > 0
  {
    hide Core, Due;
    assert Shape(c) by { InvShape(c); }
    assert c.bumps[w][0] in c.bumps[w];
  }

  /** Draining serves entries in order and gives back exactly the references they parked. */
  lemma DrainKeeps(c: Cache, w: nat)
    requires Inv(c) && w < |c.bumps| && c.bumps[w] != []
    ensures var r := DrainOne(c, w);
      && Good(c, r) && r.table == c.table && r.held == c.held && r.locks == c.locks
      && r.bumps == c.bumps[w := c.bumps[w][1..]]
  {
    hide Core, RefsInv, Follows, Update;
    assert Shape(c) by { InvShape(c); }
    ParkedAlive(c, w);
    UpdateKeeps(c, c.bumps[w][0]);
    var m := Update(c, c.bumps[w][0]);
    ParkedAlive(m, w);
    UnparkKeeps(m, w);
    GoodThen(c, m, Unpark(m, w));
  }

  /** Giving back a reference changes no key and no other reference. */
  lemma GiveBackKeeps(c: Cache, id: nat)
    requires Inv(c) && id in c.held
    ensures var r := Release(c, id);
      && Good(c, r) && r.table == c.table && SameBooks(c, r, c.held - multiset{id})
      && r.nextId == c.nextId && r.settings == c.settings && r.casId == c.casId
  {
    hide Core, RefsInv, Follows, Release;
    assert Shape(c) && id in c.heads by { InvRows(c); }
    RefPositive(c, id);
    ReleaseKeeps(c, id);
    ReleaseFrame(c, id);
  }

  /** Taking a reference and giving it back is no change to anything a client sees. */
  lemma PeekKeeps(c: Cache, id: nat)
    requires Inv(c) && id in c.heads
    ensures var r := Release(Hold(c, id), id); Good(c, r) && r.table == c.table && SameBooks(c, r, c.held)
  {
    hide Core, RefsInv, Follows, Release;
    assert Shape(c) by { InvShape(c); }
    HoldKeeps(c, id);
    GiveBackKeeps(Hold(c, id), id);
    GoodThen(c, Hold(c, id), Release(Hold(c, id), id));
    assert c.held + multiset{id} - multiset{id} == c.held;
  }

  /** The crawler takes out an item only when it is stale and nobody refers to it. */
  lemma CrawlKeeps(c: Cache, id: nat)
    requires Inv(c) && id in c.heads && c.places[id].linked
    ensures var r := Crawl(c, id);
      && Good(c, r) && SameBooks(c, r, c.held)
      && r.table == if c.refs[id] == 1 && Stale(c, id) then c.table - {c.heads[id].key} else c.table
  {
    hide Core, RefsInv, Follows, Unlink, Release, Good;
    assert Shape(c) by { InvShape(c); }
    BuryKeeps(c, id);
    PeekKeeps(c, id);
  }

  // ---------------------------------------------------------------- store

  lemma ReplaceGood(c: Cache, was: nat, id: nat)
    requires Inv(c) && was in c.held && id in c.held && was in c.heads && id in c.heads
    requires c.places[was].linked && !c.places[id].linked && c.heads[was].key == c.heads[id].key
    ensures Shape(c) && Good(c, Link(Unlink(c, was), id))
  {
    hide Core, RefsInv, Follows, Unlink, Link, SameBooks;
    assert Shape(c) by { InvShape(c); }
    UnlinkKeeps(c, was);
    UnlinkFrame(c, was);
    var m := Unlink(c, was);
    LinkKeeps(m, id);
    GoodThen(c, m, Link(m, id));
  }

  /** The unlink and link of a replacement. */
  lemma ReplaceKeeps(c: Cache, was: nat, id: nat)
    requires Inv(c) && was in c.held && id in c.held && was in c.heads && id in c.heads
    requires c.places[was].linked && !c.places[id].linked && c.heads[was].key == c.heads[id].key
    ensures var r := Link(Unlink(c, was), id);
      && Good(c, r) && r.table == c.table[c.heads[id].key := id] && SameBooks(c, r, c.held)
      && r.heads == c.heads && r.data == c.data && r.cas == c.cas[id := NextCas(c)]
      && id in r.places && r.places[id].linked
      && was in r.places && !r.places[was].linked && was in r.refs && r.refs[was] == c.refs[was] - 1
  {
    hide Inv, Good, Unlink, Link, InRange;
    ReplaceGood(c, was, id);
    UnlinkFrame(c, was);
    var m := Unlink(c, was);
    LinkFrame(m, id);
    TableSwap(c.table, c.heads[id].key, id);
  }

  lemma TableSwap(table: map<Key, nat>, key: Key, id: nat)
    ensures (table - {key})[key := id] == table[key := id]
  {
  }

  /** Replacing keeps the key mapped, now to the new item, which carries a fresh CAS id. */
  lemma SwapKeeps(c: Cache, was: nat, id: nat)
    requires Inv(c) && was in c.held && id in c.held && was in c.heads && id in c.heads
    requires c.places[was].linked && !c.places[id].linked && c.heads[was].key == c.heads[id].key
    ensures var r := Swap(c, was, id);
      && Good(c, r) && r.table == c.table[c.heads[id].key := id] && SameBooks(c, r, c.held - multiset{was})
      && id in r.data && r.data[id] == c.data[id] && id in r.cas && r.cas[id] == NextCas(c)
  {
    hide Core, RefsInv, Follows, Unlink, Release, Link;
    assert Shape(c) by { InvShape(c); }
    ReplaceKeeps(c, was, id);
    var n := Link(Unlink(c, was), id);
    assert Shape(n) by { InvShape(n); }
    GiveBackKeeps(n, was);
    RefPositive(n, was);
    ReleaseRows(n, was, id);
    GoodThen(c, n, Release(n, was));
  }

  /** An item a client has prepared and holds, and the linked item found under the same key. */
  ghost predicate Paired(c: Cache, id: nat, was: nat) {
    && Inv(c) && was in c.held && id in c.held && was in c.heads && id in c.heads
    && was in c.places && id in c.places && c.places[was].linked && !c.places[id].linked
    && c.heads[was].key == c.heads[id].key
    && c.heads[id].key in c.table && c.table[c.heads[id].key] == was
  }

  /** A step from c to r that leaves the client the view `view` and the references `held`. */
  ghost predicate Yields(c: Cache, r: Cache, held: multiset<nat>, view: map<Key, string>) {
    Good(c, r) && SameBooks(c, r, held) && View(r) == view
  }

  lemma YieldsThen(c: Cache, m: Cache, r: Cache, held: multiset<nat>, view: map<Key, string>)
    requires Inv(c) && Good(c, m) && SameBooks(c, m, m.held) && Yields(m, r, held, view)
    ensures Yields(c, r, held, view)
  {
    hide Core, RefsInv, Follows, View;
    GoodThen(c, m, r);
  }

  lemma GiveBackView(c: Cache, id: nat)
    requires Inv(c) && id in c.held
    ensures Shape(c) && Yields(c, Release(c, id), c.held - multiset{id}, View(c))
  {
    hide Core, RefsInv, Follows, Release, View;
    assert Shape(c) by { InvShape(c); }
    GiveBackKeeps(c, id);
    ViewSame(c, Release(c, id));
  }

  lemma LinkView(c: Cache, id: nat)
    requires Inv(c) && id in c.heads && id in c.places && !c.places[id].linked && c.heads[id].key !in c.table
    ensures Shape(c) && Yields(c, Link(c, id), c.held, View(c)[c.heads[id].key := c.data[id]])
  {
    hide Core, RefsInv, Follows, View, Link;
    assert Shape(c) by { InvShape(c); }
    LinkKeeps(c, id);
    LinkFrame(c, id);
    ViewAdded(c, Link(c, id), c.heads[id].key, id);
  }

  lemma SwapView(c: Cache, was: nat, id: nat)
    requires Paired(c, id, was)
    ensures Shape(c) && Yields(c, Swap(c, was, id), c.held - multiset{was}, View(c)[c.heads[id].key := c.data[id]])
  {
    hide Core, RefsInv, Follows, Swap, View;
    assert Shape(c) by { InvShape(c); }
    SwapKeeps(c, was, id);
    ViewAdded(c, Swap(c, was, id), c.heads[id].key, id);
  }

  lemma AllocPaired(c: Cache, id: nat, was: nat, value: string, list: nat, exptime: nat, ntotal: nat)
    requires Paired(c, id, was) && list < LISTS
    ensures Shape(c)
    ensures var a, f := Alloc(c, c.heads[id].key, value, list, exptime, ntotal, 0), c.nextId;
      && Good(c, a) && Paired(a, f, was) && SameBooks(c, a, c.held + multiset{f}) && a.table == c.table
      && a.heads[f].key == c.heads[id].key && f in a.data && a.data[f] == value
  {
    hide Core, RefsInv, Follows;
    assert Shape(c) by { InvShape(c); }
    AllocKeeps(c, c.heads[id].key, value, list, exptime, ntotal, 0);
  }

  /** Appending stores a third item, and every reference taken on the way is given back. */
  lemma JoinView(c: Cache, id: nat, was: nat, value: string, list: nat, exptime: nat, ntotal: nat)
    requires Paired(c, id, was) && list < LISTS
    ensures Shape(c)
    ensures Yields(c, Release(Swap(Alloc(c, c.heads[id].key, value, list, exptime, ntotal, 0), was, c.nextId),
      c.nextId),
                   c.held - multiset{was}, View(c)[c.heads[id].key := value])
  {
    hide Core, RefsInv, Follows, Swap, Release, View, Alloc;
    AllocPaired(c, id, was, value, list, exptime, ntotal);
    var a, f := Alloc(c, c.heads[id].key, value, list, exptime, ntotal, 0), c.nextId;
    ViewSame(c, a);
    SwapView(a, was, f);
    var b := Swap(a, was, f);
    assert f in b.held;
    GiveBackView(b, f);
    YieldsThen(a, b, Release(b, f), b.held - multiset{f}, View(b));
    YieldsThen(c, a, Release(b, f), b.held - multiset{f}, View(b));
    assert c.held + multiset{f} - multiset{was} - multiset{f} == c.held - multiset{was};
  }

  /** A store over a newer version keeps that version's expiry time. */
  lemma StaleView(c: Cache, id: nat, was: nat)
    requires Paired(c, id, was) && Shape(c)
    ensures Yields(c, Swap(Touch(c, id, c.uses[id].(exptime := c.uses[was].exptime)), was, id),
                   c.held - multiset{was}, View(c)[c.heads[id].key := c.data[id]])
  {
    hide Core, RefsInv, Follows, Swap, View;
    var u := c.uses[id].(exptime := c.uses[was].exptime);
    TouchKeeps(c, id, u);
    var t := Touch(c, id, u);
    ViewSame(c, t);
    SwapView(t, was, id);
    GoodThen(c, t, Swap(t, was, id));
  }

  /** A refused add counts as an access to the item found. */
  lemma RefusedView(c: Cache, was: nat)
    requires Inv(c) && was in c.held
    ensures Shape(c) && Yields(c, Release(Update(c, was), was), c.held - multiset{was}, View(c))
  {
    hide Core, RefsInv, Follows, Update, Release, View;
    InvRows(c);
    UpdateKeeps(c, was);
    ViewSame(c, Update(c, was));
    GiveBackView(Update(c, was), was);
    GoodThen(c, Update(c, was), Release(Update(c, was), was));
  }

  /** The answer each command owes its client. */
  ghost function Verdict(live: bool, test: CasTest, comm: Command, room: bool): Outcome {
    match comm
    case SetCmd => Stored
    case AddCmd => if live then NotStored else Stored
    case ReplaceCmd => if live then Stored else NotStored
    case CasCmd => if !live then NotFound else if test == Match || test == StaleCas then Stored else Exists
    case AppendCmd => if !live then NotStored else if test != NoCas && test != Match then Exists
                      else if room then Stored else NotStored
    case PrependCmd => if !live then NotStored else if test != NoCas && test != Match then Exists
                       else if room then Stored else NotStored
  }

  /** The value a successful command leaves under the key. */
  ghost function Written(view: map<Key, string>, key: Key, comm: Command, value: string): string {
    if key !in view then value
    else if comm == AppendCmd then view[key] + value
    else if comm == PrependCmd then value + view[key]
    else value
  }

  lemma StoreOverView(c: Cache, id: nat, was: nat, comm: Command, staleOk: bool, room: Option<Room>)
    requires Paired(c, id, was) && RoomOk(room) && Shape(c)
    ensures var (r, out) := StoreOver(c, id, was, comm, staleOk, room);
      && out == Verdict(true, TestCas(c.cas[id], c.cas[was], staleOk), comm, room.Some?)
      && Yields(c, r, c.held - multiset{was},
                if out == Stored then View(c)[c.heads[id].key := Written(View(c), c.heads[id].key, comm, c.data[id])]
                else View(c))
  {
    hide Inv, Yields, Swap, Release, View, Update, Alloc, Touch;
    ViewKeys(c);
    GiveBackView(c, was);
    match comm
    case AddCmd => RefusedView(c, was);
    case CasCmd =>
      StaleView(c, id, was);
      SwapView(c, was, id);
    case SetCmd => SwapView(c, was, id);
    case ReplaceCmd => SwapView(c, was, id);
    case AppendCmd => JoinedView(c, id, was, comm, room);
    case PrependCmd => JoinedView(c, id, was, comm, room);
  }

  lemma JoinedView(c: Cache, id: nat, was: nat, comm: Command, room: Option<Room>)
    requires Paired(c, id, was) && RoomOk(room) && Shape(c)
    ensures room.Some? ==>
      var value := Combined(comm, c.data[was], c.data[id]);
      Yields(c, Release(Swap(Alloc(c, c.heads[id].key, value, room.value.list, c.uses[was].exptime, room.value.ntotal,
        0),
                             was, c.nextId), c.nextId),
             c.held - multiset{was}, View(c)[c.heads[id].key := value])
  {
    hide Inv, Yields, Swap, Release, View, Alloc;
    if room.Some? {
      JoinView(c, id, was, Combined(comm, c.data[was], c.data[id]), room.value.list, c.uses[was].exptime,
        room.value.ntotal);
    }
  }

  /** What a store starts from: the client's view with a dead key already gone. */
  ghost function Before(c: Cache, key: Key): map<Key, string> {
    if Live(c, key) then View(c) else View(c) - {key}
  }

  ghost function TestOf(c: Cache, id: nat, staleOk: bool): CasTest
    requires Shape(c) && id in c.heads
  {
    var key := c.heads[id].key;
    if Live(c, key) then TestCas(c.cas[id], c.cas[c.table[key]], staleOk) else NoCas
  }

  /** The outcome is the one the command owes, and the view changes by exactly the value written. */
  ghost predicate StoreMeets(c: Cache, id: nat, comm: Command, staleOk: bool, room: Option<Room>, r: Cache,
      out: Outcome)
    requires Shape(c) && id in c.heads
  {
    var key, before := c.heads[id].key, Before(c, c.heads[id].key);
    && out == Verdict(Live(c, key), TestOf(c, id, staleOk), comm, room.Some?)
    && Yields(c, r, c.held, if out == Stored then before[key := Written(before, key, comm, c.data[id])] else before)
  }

  lemma FoundView(c: Cache, id: nat, comm: Command, staleOk: bool, room: Option<Room>)
    requires Inv(c) && RoomOk(room) && id in c.held && id in c.heads && id in c.places && !c.places[id].linked
    requires Live(c, c.heads[id].key)
    ensures Shape(c)
    ensures var was := c.table[c.heads[id].key];
      var m := Hold(c, was);
      && was in m.heads && id in m.heads
      && var (r, out) := StoreOver(m, id, was, comm, staleOk, room);
         StoreMeets(c, id, comm, staleOk, room, r, out)
  {
    hide Core, RefsInv, Follows, View, StoreOver, Dead, Yields, Written, Verdict;
    InvRows(c);
    var key, was := c.heads[id].key, c.table[c.heads[id].key];
    HoldKeeps(c, was);
    var m := Hold(c, was);
    ViewSame(c, m);
    StoreOverView(m, id, was, comm, staleOk, room);
    var (r, out) := StoreOver(m, id, was, comm, staleOk, room);
    YieldsThen(c, m, r, m.held - multiset{was},
               if out == Stored then View(c)[key := Written(View(c), key, comm, c.data[id])] else View(c));
    assert c.held + multiset{was} - multiset{was} == c.held;
  }

  lemma MissedView(c: Cache, id: nat)
    requires Inv(c) && id in c.held && id in c.heads && id in c.places && !c.places[id].linked
    requires !Live(c, c.heads[id].key)
    ensures Shape(c)
    ensures var key := c.heads[id].key;
      var m := Get(c, key).0;
      && id in m.heads && Yields(c, m, c.held, Before(c, key))
      && Yields(c, Link(m, id), c.held, Before(c, key)[key := c.data[id]])
  {
    hide Core, RefsInv, View, Link, Get, Dead, Evolves, LabelsKept;
    InvRows(c);
    var key := c.heads[id].key;
    GetKeeps(c, key);
    var m := Get(c, key).0;
    ViewRemoved(c, m, {key});
    InvRows(m);
    assert m.heads[id] == c.heads[id] by { SameHead(c, m, id); }
    LinkView(m, id);
    YieldsThen(c, m, Link(m, id), c.held, (View(c) - {key})[key := c.data[id]]);
  }

  lemma MissedMeets(c: Cache, id: nat, comm: Command, staleOk: bool, room: Option<Room>)
    requires Inv(c) && id in c.held && id in c.heads && id in c.places && !c.places[id].linked && Shape(c)
    requires !Live(c, c.heads[id].key)
    ensures var m := Get(c, c.heads[id].key).0;
      && id in m.heads
      && (if comm == AddCmd || comm == SetCmd then StoreMeets(c, id, comm, staleOk, room, Link(m, id), Stored)
          else StoreMeets(c, id, comm, staleOk, room, m, if comm == CasCmd then NotFound else NotStored))
  {
    hide Inv, Live, Yields, View, Link, Get, TestCas, InRange;
    MissedView(c, id);
    assert c.heads[id].key !in Before(c, c.heads[id].key);
  }

  /** The store commands act on the client's view as on a map in which dead keys are absent. */
  lemma StoreView(c: Cache, id: nat, comm: Command, staleOk: bool, room: Option<Room>)
    requires Inv(c) && RoomOk(room) && id in c.held && id in c.places && !c.places[id].linked
    ensures id in c.heads && Shape(c)
    ensures var (r, out) := Store(c, id, comm, staleOk, room);
      StoreMeets(c, id, comm, staleOk, room, r, out)
  {
    hide Inv, Good, View, StoreOver, Link, Get, Hold, Live, StoreMeets, GuestsKept, SameBooks;
    InvRows(c);
    var key := c.heads[id].key;
    GetKeeps(c, key);
    if Live(c, key) {
      FoundView(c, id, comm, staleOk, room);
    } else {
      MissedMeets(c, id, comm, staleOk, room);
    }
  }

  lemma SameHead(c: Cache, r: Cache, id: nat)
    requires Inv(c) && Good(c, r) && id in c.heads && id in r.heads
    ensures r.heads[id] == c.heads[id]
  {
    hide TableInv, ListsInv, SizesInv, BytesInv, TotalInv, CountInv, RefsInv, PublishedInv, LinkedLabelled, IssuedInv;
  }
}
