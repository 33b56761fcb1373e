/** incr and decr: edits in place are invisible to every other holder; the copying edit reuses the
    new item's CAS id on the old one, and when that shows. */
module CacheDelta {
  import opened Sums
  import opened CacheModel
  import opened CacheInvariant
  import opened CacheProof
  import opened CacheOps
  import opened CacheOpsProof
  import Decimal

  /** No value changes under anybody who held a reference before the step. */
  ghost predicate HeldDataKept(c: Cache, r: Cache) {
    forall x :: x in c.held && x in c.data && x in r.data ==> r.data[x] == c.data[x]
  }

  ghost predicate LabelsKeptBut(c: Cache, r: Cache, id: nat) {
    forall x :: x != id && Mislabelled(r, x) ==> Mislabelled(c, x)
  }

  // ---------------------------------------------------------------- in place

  lemma OnlyMine(c: Cache, id: nat)
    requires Inv(c) && id in c.held && id in c.places && c.places[id].linked
    ensures id in c.refs
    ensures c.refs[id] == 2 ==> c.held[id] == 1
  {
    hide Core;
    ParkedZero(c.bumps, id);
  }

  lemma RewriteView(c: Cache, id: nat, value: string)
    requires Inv(c) && id in c.heads && id in c.places && c.places[id].linked
    ensures Shape(c)
    ensures var r := Rewrite(c, id, value);
      && Inv(r) && Evolves(c, r) && LabelsKept(c, r) && SameDataBut(c, r, id)
      && SameBooks(c, r, c.held) && View(r) == View(c)[c.heads[id].key := value]
      && r.heads == c.heads && r.places == c.places && r.refs == c.refs && id in r.data && r.data[id] == value
  {
    hide Core, RefsInv, Evolves, LabelsKept, View, Rewrite;
    InvRows(c);
    RewriteKeeps(c, id, value);
    RewriteFrame(c, id, value);
    var r := Rewrite(c, id, value);
    ViewKeys(c);
    ViewKeys(r);
    var view := View(c)[c.heads[id].key := value];
    assert View(r).Keys == view.Keys;
    assert forall k :: k in View(r) ==> View(r)[k] == view[k];
  }

  /** What an edit leaves: the invariant, history, the references and the new value under the key. */
  ghost predicate Edits(c: Cache, r: Cache, id: nat, held: multiset<nat>, view: map<Key, string>) {
    && Inv(r) && Evolves(c, r) && SameDataBut(c, r, id) && LabelsKeptBut(c, r, id)
    && SameBooks(c, r, held) && View(r) == view
  }

  lemma EditsThen(c: Cache, m: Cache, r: Cache, id: nat, held: multiset<nat>, view: map<Key, string>)
    requires Inv(c) && Edits(c, m, id, m.held, View(m)) && Yields(m, r, held, view)
    ensures Edits(c, r, id, held, view)
    ensures LabelsKept(c, m) ==> LabelsKept(c, r)
  {
    hide TableInv, ListsInv, SizesInv, BytesInv, TotalInv, CountInv, RefsInv, PublishedInv, LinkedLabelled, IssuedInv,
      View, Mislabelled;
    EvolvesThen(c, m, r);
    forall x | x != id && x in c.data && x in r.data
      ensures r.data[x] == c.data[x]
    {
      assert x in m.heads;
    }
  }

  lemma InPlaceView(c: Cache, id: nat, value: string)
    requires Inv(c) && id in c.held && id in c.heads && id in c.places && c.places[id].linked
    ensures Shape(c)
    ensures var r := Release(Update(Rewrite(c, id, value), id), id);
      && Edits(c, r, id, c.held - multiset{id}, View(c)[c.heads[id].key := value]) && LabelsKept(c, r)
  {
    hide Core, RefsInv, Evolves, LabelsKept, View, Rewrite, Update, Release, Mislabelled;
    RewriteView(c, id, value);
    var m := Rewrite(c, id, value);
    assert LabelsKeptBut(c, m, id) by { LabelsWeaken(c, m, id); }
    RefusedView(m, id);
    EditsThen(c, m, Release(Update(m, id), id), id, c.held - multiset{id}, View(c)[c.heads[id].key := value]);
  }

  lemma LabelsWeaken(c: Cache, r: Cache, id: nat)
    requires LabelsKept(c, r)
    ensures LabelsKeptBut(c, r, id)
  {
  }

  // ---------------------------------------------------------------- by copy

  /** Overwriting the CAS id of an item that is no longer linked touches nothing but its label. */
  lemma RelabelKeeps(c: Cache, id: nat, cas: nat)
    requires Inv(c) && id in c.heads && id in c.places && !c.places[id].linked
    ensures var r := c.(cas := c.cas[id := cas]);
      Edits(c, r, id, c.held, View(c)) && SameData(c, r)
  {
    hide TableInv, ListsInv, SizesInv, BytesInv, TotalInv, CountInv, RefsInv, PublishedInv, IssuedInv, IdsInv;
    var r := c.(cas := c.cas[id := cas]);
    assert View(r) == View(c);
    assert r.cas.Keys == c.cas.Keys;
    forall x | x != id
      ensures Labelled(r.heads, r.data, r.cas, r.versions, x) == Labelled(c.heads, c.data, c.cas, c.versions, x)
    {
    }
  }

  /** The state in which the new item has replaced the old one, which this command still holds. */
  ghost function Replaced(c: Cache, id: nat, digits: string, room: Room): Cache
    requires Shape(c) && id in c.heads && room.list < LISTS
  {
    Link(Unlink(Alloc(c, c.heads[id].key, digits, room.list, c.uses[id].exptime, room.ntotal, 0), id), c.nextId)
  }

  lemma ReplacedView(c: Cache, id: nat, digits: string, room: Room)
    requires Inv(c) && id in c.held && id in c.heads && id in c.places && c.places[id].linked && room.list < LISTS
    ensures Shape(c)
    ensures var r, f := Replaced(c, id, digits, room), c.nextId;
      && Good(c, r) && SameBooks(c, r, c.held + multiset{f}) && View(r) == View(c)[c.heads[id].key := digits]
      && id != f && id in r.heads && id in r.places && !r.places[id].linked
      && id in r.refs && r.refs[id] == c.refs[id] - 1
      && f in r.heads && f in r.places && r.places[f].linked && f in r.data && r.data[f] == digits
      && r.heads[f].key == c.heads[id].key && f in r.cas && r.cas[f] == NextCas(c)
  {
    hide Core, RefsInv, Follows, Link, Unlink, View;
    assert Shape(c) by { InvShape(c); }
    var f := c.nextId;
    AllocKeeps(c, c.heads[id].key, digits, room.list, c.uses[id].exptime, room.ntotal, 0);
    var a := Alloc(c, c.heads[id].key, digits, room.list, c.uses[id].exptime, room.ntotal, 0);
    ViewSame(c, a);
    ReplaceKeeps(a, id, f);
    var r := Link(Unlink(a, id), f);
    GoodThen(c, a, r);
    ViewAdded(a, r, c.heads[id].key, f);
  }

  /** The old item takes over the new item's CAS id. */
  ghost function Relabelled(c: Cache, id: nat, digits: string, room: Room): Cache
    requires Shape(c) && id in c.heads && room.list < LISTS
  {
    var m := Replaced(c, id, digits, room);
    if c.nextId in m.cas then m.(cas := m.cas[id := m.cas[c.nextId]]) else m
  }

  lemma RelabelledView(c: Cache, id: nat, digits: string, room: Room)
    requires Inv(c) && id in c.held && id in c.heads && id in c.places && c.places[id].linked && room.list < LISTS
    ensures Shape(c)
    ensures var n, f := Relabelled(c, id, digits, room), c.nextId;
      && Edits(c, n, id, c.held + multiset{f}, View(c)[c.heads[id].key := digits]) && SameData(c, n)
      && id != f && Shape(n) && EditByCopy(c, id, digits, room) == Release(n, f)
  {
    hide Core, RefsInv, Follows, View, Release, Mislabelled, Link, Unlink, Alloc;
    ReplacedView(c, id, digits, room);
    var f, m := c.nextId, Replaced(c, id, digits, room);
    assert Shape(m) by { InvShape(m); }
    RelabelKeeps(m, id, m.cas[f]);
    var n := Relabelled(c, id, digits, room);
    assert n == m.(cas := m.cas[id := m.cas[f]]);
    RelabelThen(c, m, n, id);
  }

  lemma TwoBack(c: Cache, a: nat, b: nat)
    requires Inv(c) && a in c.held && b in c.held && a != b
    ensures Shape(c)
    ensures Yields(c, Release(Release(c, a), b), c.held - multiset{a} - multiset{b}, View(c))
  {
    hide Core, RefsInv, Follows, View, Release;
    GiveBackView(c, a);
    GiveBackView(Release(c, a), b);
    YieldsThen(c, Release(c, a), Release(Release(c, a), b), c.held - multiset{a} - multiset{b}, View(c));
  }

  lemma CopyView(c: Cache, id: nat, digits: string, room: Room)
    requires Inv(c) && id in c.held && id in c.heads && id in c.places && c.places[id].linked && room.list < LISTS
    ensures Shape(c)
    ensures var r := Release(EditByCopy(c, id, digits, room), id);
      Edits(c, r, id, c.held - multiset{id}, View(c)[c.heads[id].key := digits]) && SameData(c, r)
  {
    hide Core, RefsInv, View, Relabelled, Release, EditByCopy, Evolves, SameData, SameDataBut, LabelsKeptBut, Yields;
    RelabelledView(c, id, digits, room);
    var f, n := c.nextId, Relabelled(c, id, digits, room);
    TwoBack(n, f, id);
    var held := c.held + multiset{f} - multiset{f} - multiset{id};
    assert held == c.held - multiset{id};
    EditsThen(c, n, Release(Release(n, f), id), id, held, View(n));
    SameDataAfter(c, n, Release(Release(n, f), id), held, View(n));
  }

  lemma RelabelThen(c: Cache, m: Cache, n: Cache, id: nat)
    requires Inv(c) && Good(c, m) && n == m.(cas := n.cas) && Edits(m, n, id, m.held, View(m))
    requires SameBooks(c, m, m.held)
    ensures Edits(c, n, id, n.held, View(n)) && SameData(c, n)
  {
    hide TableInv, ListsInv, SizesInv, BytesInv, TotalInv, CountInv, RefsInv, PublishedInv, LinkedLabelled, IssuedInv,
      View, Mislabelled;
    EvolvesThen(c, m, n);
  }

  lemma SameDataAfter(c: Cache, m: Cache, r: Cache, held: multiset<nat>, view: map<Key, string>)
    requires Inv(c) && Inv(m) && Evolves(c, m) && SameData(c, m) && Yields(m, r, held, view)
    ensures SameData(c, r)
  {
    hide TableInv, ListsInv, SizesInv, BytesInv, TotalInv, CountInv, RefsInv, PublishedInv, LinkedLabelled, IssuedInv,
      View, LabelsKept;
    SameDataThen(c, m, r);
  }

  /** After the copying edit the old item is mislabelled exactly when it outlives the command, that
      is when somebody besides the link and this command refers to it, and the value changed. */
  lemma CopyLabel(c: Cache, id: nat, digits: string, room: Room)
    requires Inv(c) && id in c.held && id in c.heads && id in c.places && c.places[id].linked && room.list < LISTS
    ensures Shape(c)
    ensures Mislabelled(Release(EditByCopy(c, id, digits, room), id), id)
      <==> c.settings.useCas && c.refs[id] > 2 && digits != c.data[id]
  {
    hide Core, RefsInv, View, Relabelled, Release, EditByCopy, Evolves, SameData, SameDataBut, LabelsKeptBut;
    RelabelledView(c, id, digits, room);
    RelabelledRow(c, id, digits, room);
    LinkedHeld(c, id);
    var f, n := c.nextId, Relabelled(c, id, digits, room);
    RefPositive(n, f);
    ReleaseRows(n, f, id);
    var o := Release(n, f);
    if o.refs[id] > 1 {
      ReleaseRows(o, id, id);
    } else {
      ReleaseLast(o, id);
    }
  }

  lemma RelabelledRow(c: Cache, id: nat, digits: string, room: Room)
    requires Inv(c) && id in c.held && id in c.heads && id in c.places && c.places[id].linked && room.list < LISTS
    ensures Shape(c)
    ensures var n := Relabelled(c, id, digits, room);
      && Inv(n) && id in n.heads && id in n.data && id in n.cas && id in n.refs && id in n.published
      && n.heads[id] == c.heads[id] && n.data[id] == c.data[id] && n.refs[id] == c.refs[id] - 1
      && n.settings == c.settings && c.nextId in n.heads
      && (c.settings.useCas ==> n.cas[id] in n.versions && n.versions[n.cas[id]] == Version(c.heads[id].key, digits))
  {
    hide Core, RefsInv, View, Mislabelled, Link, Unlink, Alloc, Replaced;
    ReplacedView(c, id, digits, room);
    var f, m := c.nextId, Replaced(c, id, digits, room);
    assert Shape(m) by { InvShape(m); }
    RelabelKeeps(m, id, m.cas[f]);
    assert id in m.published by { WasPublished(c, id); PublishedStays(c, id, digits, room); }
    assert m.heads[id] == c.heads[id] by { SameHead(c, m, id); }
    if c.settings.useCas {
      LinkedName(m, f);
    }
  }

  lemma RelabelledFresh(c: Cache, id: nat, digits: string, room: Room)
    requires Inv(c) && id in c.held && id in c.heads && id in c.places && c.places[id].linked && room.list < LISTS
    ensures Shape(c)
    ensures var n, f := Relabelled(c, id, digits, room), c.nextId;
      && Inv(n) && Shape(n) && id != f && id in n.cas && f in n.cas && n.cas[id] == n.cas[f] == NextCas(c)
      && f in n.heads && n.heads[f].key == c.heads[id].key && n.places[f].linked && n.data[f] == digits
      && f in n.held && n.refs[f] >= 2
  {
    hide Core, RefsInv, View, Mislabelled, Link, Unlink, Alloc, Replaced;
    ReplacedView(c, id, digits, room);
    var f, m := c.nextId, Replaced(c, id, digits, room);
    assert Shape(m) by { InvShape(m); }
    RelabelKeeps(m, id, m.cas[f]);
    InvRows(m);
    LinkedHeld(m, f);
  }

  /** While it outlives the command, the old item shares its CAS id with the item now under the key. */
  lemma CopyShares(c: Cache, id: nat, digits: string, room: Room)
    requires Inv(c) && id in c.held && id in c.heads && id in c.places && c.places[id].linked && room.list < LISTS
    requires id in c.refs && c.refs[id] > 2
    ensures Shape(c)
    ensures var r, key := Release(EditByCopy(c, id, digits, room), id), c.heads[id].key;
      && key in r.table && id in r.heads && r.table[key] in r.heads && id in r.cas && r.table[key] in r.cas
      && r.cas[id] == r.cas[r.table[key]] == NextCas(c) && id in r.data && r.data[id] == c.data[id]
  {
    hide Core, RefsInv, View, Relabelled, Release, EditByCopy, Evolves, SameData, SameDataBut, LabelsKeptBut, Yields;
    RelabelledView(c, id, digits, room);
    RelabelledRow(c, id, digits, room);
    RelabelledFresh(c, id, digits, room);
    CopyView(c, id, digits, room);
    var f, n := c.nextId, Relabelled(c, id, digits, room);
    ReleaseRows(n, f, id);
    ReleaseRows(n, f, f);
    var o := Release(n, f);
    ReleaseRows(o, id, id);
    ReleaseRows(o, id, f);
    LinkedTable(Release(o, id), f);
  }

  lemma LinkedTable(c: Cache, id: nat)
    requires Inv(c) && id in c.places && c.places[id].linked
    ensures id in c.heads && c.heads[id].key in c.table && c.table[c.heads[id].key] == id
  {
    hide ListsInv, SizesInv, BytesInv, TotalInv, CountInv, RefsInv, PublishedInv, LinkedLabelled, IssuedInv, IdsInv;
  }

  lemma WasPublished(c: Cache, id: nat)
    requires Inv(c) && id in c.places && c.places[id].linked
    ensures id in c.published
  {
    hide TableInv, ListsInv, SizesInv, BytesInv, TotalInv, CountInv, RefsInv, LinkedLabelled, IssuedInv, IdsInv;
  }

  lemma LinkedName(c: Cache, id: nat)
    requires Inv(c) && id in c.places && c.places[id].linked && c.settings.useCas
    ensures Labelled(c.heads, c.data, c.cas, c.versions, id)
  {
    hide TableInv, ListsInv, SizesInv, BytesInv, TotalInv, CountInv, RefsInv, PublishedInv, IssuedInv, IdsInv;
  }

  lemma PublishedStays(c: Cache, id: nat, digits: string, room: Room)
    requires Shape(c) && id in c.heads && room.list < LISTS
    ensures c.published <= Replaced(c, id, digits, room).published
  {
    var a := Alloc(c, c.heads[id].key, digits, room.list, c.uses[id].exptime, room.ntotal, 0);
    UnlinkPublished(a, id);
    LinkPublished(Unlink(a, id), c.nextId);
  }

  lemma UnlinkPublished(c: Cache, id: nat)
    requires Shape(c)
    ensures Unlink(c, id).published == c.published
  {
    hide Retract, InRange;
    if id in c.heads {
      RetractFrame(c, id);
    }
  }

  lemma LinkPublished(c: Cache, id: nat)
    requires Shape(c)
    ensures c.published <= Link(c, id).published
  {
  }

  // ---------------------------------------------------------------- the command

  /** Whether the number can be edited where it is: it fits and nobody but the link refers to it. */
  ghost predicate EditsInPlace(c: Cache, id: nat, digits: string)
    requires Shape(c) && id in c.heads
  {
    |digits| <= |c.data[id]| && c.refs[id] == 1
  }

  /** The answer the command owes its client. */
  ghost function DeltaVerdict(c: Cache, key: Key, digits: string, token: nat, parsed: bool, room: bool): DeltaResult
    requires Inv(c) && Shape(c)
  {
    if !Live(c, key) then DeltaNotFound
    else
      var id := c.table[key];
      if c.data[id] == "" then NonNumeric
      else if token != 0 && c.cas[id] != token then CasMismatch
      else if !parsed then NonNumeric
      else if EditsInPlace(c, id, digits) || room then DeltaOk(digits, NextCas(c))
      else OutOfMemory
  }

  /** The condition under which the command leaves a holder with a CAS id that names another value. */
  ghost predicate ShowsNewCas(c: Cache, key: Key, digits: string)
    requires Shape(c) && Live(c, key)
  {
    c.settings.useCas && c.refs[c.table[key]] > 1 && digits != c.data[c.table[key]]
  }

  ghost predicate DeltaMeets(c: Cache, key: Key, digits: string, token: nat, parsed: bool, room: bool, r: Cache,
      out: DeltaResult)
    requires Inv(c) && Shape(c)
  {
    && out == DeltaVerdict(c, key, digits, token, parsed, room)
    && Inv(r) && Evolves(c, r) && HeldDataKept(c, r) && SameBooks(c, r, c.held)
    && (out.DeltaOk? ==> Live(c, key))
    && View(r) == (if !out.DeltaOk? then Before(c, key)
                   else if EditsInPlace(c, c.table[key], digits) then View(c)[key := Padded(digits,
                     |c.data[c.table[key]]|)]
                   else View(c)[key := digits])
    && (LabelsKept(c, r) <==> !(out.DeltaOk? && ShowsNewCas(c, key, digits)))
  }

  /** A refused command changes nothing but the reference it took. */
  lemma RefusedDelta(c: Cache, key: Key, digits: string, token: nat, parsed: bool, room: bool, out: DeltaResult)
    requires Inv(c) && Live(c, key) && Shape(c) && out == DeltaVerdict(c, key, digits, token, parsed, room) &&
      !out.DeltaOk?
    ensures var id := c.table[key]; DeltaMeets(c, key, digits, token, parsed, room, Release(Hold(c, id), id), out)
  {
    hide Core, RefsInv, Dead, View, Hold, Release, Evolves, LabelsKept;
    InvRows(c);
    var id := c.table[key];
    PeekKeeps(c, id);
    ViewSame(c, Release(Hold(c, id), id));
  }

  lemma InPlaceDelta(c: Cache, key: Key, digits: string, token: nat, parsed: bool, room: bool, out: DeltaResult)
    requires Inv(c) && Live(c, key) && Shape(c) && out == DeltaVerdict(c, key, digits, token, parsed, room) &&
      out.DeltaOk?
    requires EditsInPlace(c, c.table[key], digits)
    ensures var id := c.table[key];
      && var m := Hold(c, id);
         var r := Release(Update(Rewrite(m, id, Padded(digits, |c.data[id]|)), id), id);
         DeltaMeets(c, key, digits, token, parsed, room, r, out)
  {
    hide Core, RefsInv, Dead, View, Update, Release, Rewrite, Evolves, LabelsKept, LabelsKeptBut, Padded;
    InvRows(c);
    var id := c.table[key];
    HoldKeeps(c, id);
    var m := Hold(c, id);
    ViewSame(c, m);
    var value := Padded(digits, |c.data[id]|);
    OnlyMine(m, id);
    InPlaceView(m, id, value);
    var r := Release(Update(Rewrite(m, id, value), id), id);
    assert Evolves(c, r) && LabelsKept(c, r) by { SameHistory(c, m, r); }
    assert c.held + multiset{id} - multiset{id} == c.held;
  }

  /** A held reference more or less is invisible to history. */
  lemma SameHistory(c: Cache, m: Cache, r: Cache)
    requires m == c.(refs := m.refs, held := m.held)
    ensures Evolves(m, r) == Evolves(c, r) && LabelsKept(m, r) == LabelsKept(c, r) && SameData(m, r) == SameData(c, r)
    ensures forall id :: LabelsKeptBut(m, r, id) == LabelsKeptBut(c, r, id)
  {
    hide Labelled;
    assert forall id :: Mislabelled(m, id) == Mislabelled(c, id);
  }

  lemma CopyDelta(c: Cache, key: Key, digits: string, token: nat, parsed: bool, room: Room, out: DeltaResult)
    requires Inv(c) && Live(c, key) && Shape(c) && out == DeltaVerdict(c, key, digits, token, parsed, true) &&
      out.DeltaOk?
    requires !EditsInPlace(c, c.table[key], digits) && room.list < LISTS
    ensures var id := c.table[key];
      && var m := Hold(c, id);
         && id in m.heads
         && var r := Release(EditByCopy(m, id, digits, room), id);
            DeltaMeets(c, key, digits, token, parsed, true, r, out)
  {
    hide Core, RefsInv, Dead, View, Release, EditByCopy, Evolves, LabelsKept, LabelsKeptBut, Mislabelled;
    InvRows(c);
    var id := c.table[key];
    HoldKeeps(c, id);
    var m := Hold(c, id);
    ViewSame(c, m);
    CopyView(m, id, digits, room);
    CopyLabel(m, id, digits, room);
    var r := Release(EditByCopy(m, id, digits, room), id);
    SameHistory(c, m, r);
    NotMislabelled(c, id);
    LabelsSplit(c, r, id);
    assert c.held + multiset{id} - multiset{id} == c.held;
  }

  lemma LabelsSplit(c: Cache, r: Cache, id: nat)
    requires LabelsKeptBut(c, r, id) && !Mislabelled(c, id)
    ensures LabelsKept(c, r) <==> !Mislabelled(r, id)
  {
  }

  lemma NotMislabelled(c: Cache, id: nat)
    requires Inv(c) && id in c.places && c.places[id].linked
    ensures !Mislabelled(c, id)
  {
    hide Inv;
    if c.settings.useCas {
      LinkedName(c, id);
    }
  }

  lemma MissedDelta(c: Cache, key: Key, digits: string, token: nat, parsed: bool, room: bool)
    requires Inv(c) && !Live(c, key) && Shape(c)
    ensures DeltaMeets(c, key, digits, token, parsed, room, Get(c, key).0, DeltaNotFound)
  {
    hide Core, RefsInv, Dead, View, Get, Evolves, LabelsKept;
    GetKeeps(c, key);
    ViewRemoved(c, Get(c, key).0, {key});
  }

  lemma AppliedDelta(c: Cache, key: Key, digits: string, token: nat, room: Option<Room>)
    requires Inv(c) && Live(c, key) && Shape(c) && RoomOk(room)
    requires c.data[c.table[key]] != "" && (token == 0 || c.cas[c.table[key]] == token)
    ensures var id := c.table[key];
      && id in Hold(c, id).heads
      && var (r, out) := ApplyDelta(Hold(c, id), id, digits, room);
         DeltaMeets(c, key, digits, token, true, room.Some?, r, out)
  {
    hide Inv, Live, View, Release, EditByCopy, Update, Rewrite, DeltaMeets, Padded;
    assert Live(c, key) && c.table[key] in c.heads && c.refs[c.table[key]] > 0 by { LiveRow(c, key); }
    var id := c.table[key];
    var out := DeltaVerdict(c, key, digits, token, true, room.Some?);
    if EditsInPlace(c, id, digits) {
      InPlaceDelta(c, key, digits, token, true, room.Some?, out);
    } else if room.Some? {
      CopyDelta(c, key, digits, token, true, room.value, out);
    } else {
      RefusedDelta(c, key, digits, token, true, false, out);
    }
  }

  lemma LiveRow(c: Cache, key: Key)
    requires Inv(c) && Live(c, key) && Shape(c)
    ensures key in c.table && c.table[key] in c.heads && c.refs[c.table[key]] > 0
  {
    hide Inv, Dead;
    InvRows(c);
    RefPositive(c, c.table[key]);
  }

  /** incr and decr answer as they should, show every other holder the value it had, and mislabel
      an item exactly when ShowsNewCas says so before the call. */
  lemma AddDeltaView(c: Cache, key: Key, incr: bool, delta: nat, token: nat, parsed: Option<nat>, room: Option<Room>)
    requires Inv(c) && RoomOk(room)
    ensures Shape(c)
    ensures var (r, out) := AddDelta(c, key, incr, delta, token, parsed, room);
      var digits := if parsed.Some? then Decimal.Numeral(Shifted(parsed.value, incr, delta)) else "";
      DeltaMeets(c, key, digits, token, parsed.Some?, room.Some?, r, out)
  {
    hide Inv, Live, Good, GuestsKept, SameBooks, Get, Release, ApplyDelta, DeltaMeets;
    assert Shape(c) by { InvShape(c); }
    GetKeeps(c, key);
    var digits := if parsed.Some? then Decimal.Numeral(Shifted(parsed.value, incr, delta)) else "";
    if !Live(c, key) {
      MissedDelta(c, key, digits, token, parsed.Some?, room.Some?);
    } else {
      LiveRow(c, key);
      var id := c.table[key];
      if c.data[id] == "" || (token != 0 && c.cas[id] != token) || parsed.None? {
        RefusedDelta(c, key, digits, token, parsed.Some?, room.Some?,
                     DeltaVerdict(c, key, digits, token, parsed.Some?, room.Some?));
      } else {
        AppliedDelta(c, key, digits, token, room);
      }
    }
  }

  // ---------------------------------------------------------------- what the numbers are

  ghost function Blanks(n: nat): string { seq(n, i => ' ') }

  /** n is value plus delta in unsigned 64-bit arithmetic. */
  ghost predicate WrapsTo(value: nat, delta: nat, n: nat, laps: nat) {
    n < 0x1_0000_0000_0000_0000 && value + delta == n + laps * 0x1_0000_0000_0000_0000
  }

  lemma ShiftedIs(value: nat, incr: bool, delta: nat)
    ensures var n := Shifted(value, incr, delta);
      && (incr ==> exists laps: nat :: WrapsTo(value, delta, n, laps))
      && (!incr ==> if delta <= value then n + delta == value else n == 0)
  {
    if incr {
      var laps := (value + delta) / TWO64;
      assert WrapsTo(value, delta, Shifted(value, incr, delta), laps);
    }
  }

  /** The CAS id a key's item carries. */
  ghost predicate Carries(r: Cache, key: Key, cas: nat) {
    key in r.table && r.table[key] in r.cas && r.cas[r.table[key]] == cas
  }

  lemma InPlaceCarries(c: Cache, id: nat, value: string)
    requires Inv(c) && id in c.held && id in c.heads && id in c.places && c.places[id].linked
    ensures Shape(c)
    ensures Carries(Release(Update(Rewrite(c, id, value), id), id), c.heads[id].key, NextCas(c))
  {
    hide Core, RefsInv, Follows, Evolves, LabelsKept, View, Rewrite, Update, Release;
    RewriteView(c, id, value);
    RewriteFrame(c, id, value);
    var m := Rewrite(c, id, value);
    InvRows(m);
    UpdateKeeps(m, id);
    var n := Update(m, id);
    InvRows(n);
    LinkedHeld(n, id);
    ReleaseRows(n, id, id);
    ReleaseKeeps(n, id);
    LinkedTable(Release(n, id), id);
  }

  lemma CopyCarries(c: Cache, id: nat, digits: string, room: Room)
    requires Inv(c) && id in c.held && id in c.heads && id in c.places && c.places[id].linked && room.list < LISTS
    ensures Shape(c)
    ensures Carries(Release(EditByCopy(c, id, digits, room), id), c.heads[id].key, NextCas(c))
  {
    hide Core, RefsInv, View, Relabelled, Release, EditByCopy, Evolves, SameData, SameDataBut, LabelsKeptBut, Yields;
    RelabelledView(c, id, digits, room);
    RelabelledRow(c, id, digits, room);
    RelabelledFresh(c, id, digits, room);
    CopyView(c, id, digits, room);
    var f, n := c.nextId, Relabelled(c, id, digits, room);
    LinkedHeld(c, id);
    ReleaseRows(n, f, id);
    ReleaseRows(n, f, f);
    var o := Release(n, f);
    ReleaseRows(o, id, f);
    LinkedTable(Release(o, id), f);
  }

  lemma AppliedCarries(c: Cache, key: Key, digits: string, room: Option<Room>)
    requires Inv(c) && Live(c, key) && Shape(c) && RoomOk(room)
    ensures var id := c.table[key];
      && id in Hold(c, id).heads
      && var (r, out) := ApplyDelta(Hold(c, id), id, digits, room); out.DeltaOk? ==> Carries(r, key, out.cas)
  {
    hide Core, RefsInv, Dead, View, Release, EditByCopy, Update, Rewrite, Carries, Padded;
    InvRows(c);
    var id := c.table[key];
    HoldKeeps(c, id);
    var m := Hold(c, id);
    if |digits| <= |m.data[id]| {
      InPlaceCarries(m, id, Padded(digits, |m.data[id]|));
    }
    if room.Some? {
      CopyCarries(m, id, digits, room.value);
    }
  }

  lemma DeltaCarries(c: Cache, key: Key, incr: bool, delta: nat, token: nat, parsed: Option<nat>, room: Option<Room>)
    requires Inv(c) && RoomOk(room)
    ensures Shape(c)
    ensures var (r, out) := AddDelta(c, key, incr, delta, token, parsed, room);
      out.DeltaOk? ==> Carries(r, key, out.cas)
  {
    hide Inv, Live, Release, ApplyDelta, Get, Carries, Shifted;
    assert Shape(c) by { InvShape(c); }
    GetKeeps(c, key);
    if Live(c, key) && parsed.Some? {
      LiveRow(c, key);
      AppliedCarries(c, key, Decimal.Numeral(Shifted(parsed.value, incr, delta)), room);
    }
  }

  /** A successful command answers the numeral of a number n: the sum modulo 2^64 for incr, and for decr
      the difference, or zero when it would be negative.  That numeral, followed by nothing but blanks,
      is what the key now holds, under the CAS id answered. */
  lemma DeltaAnswers(c: Cache, key: Key, incr: bool, delta: nat, token: nat, parsed: Option<nat>, room: Option<Room>)
    requires Inv(c) && RoomOk(room)
    ensures Shape(c)
    ensures var (r, out) := AddDelta(c, key, incr, delta, token, parsed, room);
      out.DeltaOk? ==>
        && parsed.Some? && Decimal.Value(out.value) >= 0 && out.value == Decimal.Numeral(Decimal.Value(out.value))
        && (var n: nat := Decimal.Value(out.value);
            && (incr ==> exists laps: nat :: WrapsTo(parsed.value, delta, n, laps))
            && (!incr ==> if delta <= parsed.value then n + delta == parsed.value else n == 0))
        && key in View(r) && (exists blanks: nat :: View(r)[key] == out.value + Blanks(blanks))
        && Carries(r, key, out.cas)
  {
    hide Inv, Live, View, AddDelta, Evolves, HeldDataKept, LabelsKept, SameBooks, Shifted, Decimal.Numeral,
      Decimal.Value, WrapsTo, Carries;
    DeltaCarries(c, key, incr, delta, token, parsed, room);
    AddDeltaView(c, key, incr, delta, token, parsed, room);
    var (r, out) := AddDelta(c, key, incr, delta, token, parsed, room);
    if out.DeltaOk? {
      var n := Shifted(parsed.value, incr, delta);
      ShiftedIs(parsed.value, incr, delta);
      Decimal.NumeralExact(n);
      var value := View(r)[key];
      assert value == out.value + Blanks(|value| - |out.value|);
    }
  }
}
