/** Every primitive of the item cache keeps the invariant and respects history. */
module CacheProof {
  import opened Sums
  import opened CacheModel
  import opened CacheInvariant

  // ---------------------------------------------------------------- lists and their counters

  lemma ListAdd(places: map<nat, Place>, lists: seq<seq<Elem>>, id: nat, l: nat)
    requires ListsInv(places, lists) && l < |lists|
    requires id in places ==> !places[id].linked
    ensures ListsInv(places[id := Place(true, l)], lists[l := [Entry(id)] + lists[l]])
  {
    assert ListInv(places, lists[l], l);
    NoDupCons(Entry(id), lists[l]);
    var lists' := lists[l := [Entry(id)] + lists[l]];
    forall k | 0 <= k < |lists|
      ensures ListInv(places[id := Place(true, l)], lists'[k], k)
    {
      assert ListInv(places, lists[k], k);
    }
  }

  lemma ListRemove(places: map<nat, Place>, lists: seq<seq<Elem>>, id: nat, l: nat)
    requires ListsInv(places, lists) && l < |lists|
    requires id in places && places[id] == Place(true, l)
    ensures Entry(id) in lists[l]
    ensures ListsInv(places[id := Place(false, l)], lists[l := Without(lists[l], Entry(id))])
  {
    assert ListInv(places, lists[l], l);
    WithoutFacts(lists[l], Entry(id));
    var lists' := lists[l := Without(lists[l], Entry(id))];
    forall k | 0 <= k < |lists|
      ensures ListInv(places[id := Place(false, l)], lists'[k], k)
    {
      assert ListInv(places, lists[k], k);
    }
  }

  lemma CountersAdd(c: Cache, l: nat, id: nat)
    requires Shape(c) && l < LISTS && id in c.heads
    requires SizesInv(c.lists, c.sizes) && BytesInv(c.heads, c.lists, c.bytes)
    ensures var lists := c.lists[l := [Entry(id)] + c.lists[l]];
      && SizesInv(lists, c.sizes[l := c.sizes[l] + 1])
      && BytesInv(c.heads, lists, c.bytes[l := c.bytes[l] + c.heads[id].ntotal])
  {
    SumCons(Entry(id), c.lists[l], One());
    SumCons(Entry(id), c.lists[l], Weight(c.heads));
  }

  lemma CountersRemove(c: Cache, l: nat, id: nat)
    requires Shape(c) && l < LISTS && id in c.heads && Entry(id) in c.lists[l]
    requires SizesInv(c.lists, c.sizes) && BytesInv(c.heads, c.lists, c.bytes)
    ensures var lists := c.lists[l := Without(c.lists[l], Entry(id))];
      && SizesInv(lists, c.sizes[l := c.sizes[l] - 1])
      && BytesInv(c.heads, lists, c.bytes[l := c.bytes[l] - c.heads[id].ntotal])
  {
    SumWithout(c.lists[l], Entry(id), One());
    SumWithout(c.lists[l], Entry(id), Weight(c.heads));
  }

  lemma TotalChange(counts: seq<int>, total: int, l: nat, change: int)
    requires TotalInv(counts, total) && l < |counts|
    ensures TotalInv(counts[l := counts[l] + change], total + change)
  {
    SumUpdate(counts, l, counts[l] + change, Itself());
  }

  /** The byte counters depend only on the sizes of listed items. */
  lemma BytesFrame(heads: map<nat, Head>, heads': map<nat, Head>, lists: seq<seq<Elem>>, bytes: seq<int>)
    requires BytesInv(heads, lists, bytes)
    requires forall l, e :: 0 <= l < |lists| && e in lists[l] ==> Weight(heads)(e) == Weight(heads')(e)
    ensures BytesInv(heads', lists, bytes)
  {
    forall l | 0 <= l < |lists|
      ensures bytes[l] == Sum(lists[l], Weight(heads'))
    {
      SumSame(lists[l], Weight(heads), Weight(heads'));
    }
  }

  // ---------------------------------------------------------------- history

  /** Changes that touch neither values nor CAS ids leave history as it is. */
  lemma FrameFollows(c: Cache, r: Cache)
    requires r.settings == c.settings && r.heads == c.heads && r.data == c.data && r.cas == c.cas
    requires r.versions == c.versions && r.casId == c.casId && r.nextId == c.nextId
    requires forall x :: x in r.published ==> x in c.published || !Mislabelled(r, x)
    ensures Follows(c, r)
  {
    hide Labelled;
  }

  // ---------------------------------------------------------------- references

  lemma RefsHold(places: map<nat, Place>, refs: map<nat, int>, held: multiset<nat>, bumps: seq<seq<nat>>, id: nat)
    requires RefsInv(places, refs, held, bumps) && id in refs
    ensures RefsInv(places, refs[id := refs[id] + 1], held + multiset{id}, bumps)
  {
    forall x | x in refs
      ensures Due(places[x], held + multiset{id}, bumps, x) == Due(places[x], held, bumps, x) + if x == id then 1 else 0
    {
    }
  }

  lemma HoldKeeps(c: Cache, id: nat)
    requires Inv(c) && id in c.heads
    ensures Good(c, Hold(c, id))
  {
    hide TableInv, ListsInv, SizesInv, BytesInv, TotalInv, CountInv, RefsInv, PublishedInv, LinkedLabelled, IssuedInv,
      Labelled, Follows;
    FrameFollows(c, Hold(c, id));
    RefsHold(c.places, c.refs, c.held, c.bumps, id);
  }

  /** One reference to the item is counted that nothing accounts for any more. */
  ghost predicate RefsOwed(places: map<nat, Place>, refs: map<nat, int>, held: multiset<nat>, bumps: seq<seq<nat>>,
      id: nat) {
    && refs.Keys == places.Keys && id in refs
    && refs[id] == Due(places[id], held, bumps, id) + 1
    && (forall x :: x in refs && x != id ==> refs[x] == Due(places[x], held, bumps, x) && refs[x] > 0)
    && (forall x :: x in held ==> x in refs)
    && (forall w, x :: 0 <= w < |bumps| && x in bumps[w] ==> x in refs)
  }

  lemma ParkedZero(bumps: seq<seq<nat>>, id: nat)
    ensures Sum(bumps, Parked(id)) >= 0
    ensures Sum(bumps, Parked(id)) == 0 ==> forall w :: 0 <= w < |bumps| ==> id !in bumps[w]
  {
    SumNonNegative(bumps, Parked(id));
    forall w | 0 <= w < |bumps|
      ensures Sum(bumps, Parked(id)) == 0 ==> id !in bumps[w]
    {
      SumAtLeast(bumps, w, Parked(id));
      assert id in bumps[w] ==> id in multiset(bumps[w]);
    }
  }

  lemma RefsDrop(places: map<nat, Place>, refs: map<nat, int>, held: multiset<nat>, bumps: seq<seq<nat>>, id: nat)
    requires RefsOwed(places, refs, held, bumps, id)
    ensures if refs[id] - 1 == 0 then
        !places[id].linked && RefsInv(places - {id}, refs - {id}, held, bumps)
      else
        RefsInv(places, refs[id := refs[id] - 1], held, bumps)
  {
    ParkedZero(bumps, id);
  }

  lemma RefsRelease(places: map<nat, Place>, refs: map<nat, int>, held: multiset<nat>, bumps: seq<seq<nat>>, id: nat)
    requires RefsInv(places, refs, held, bumps) && id in held
    ensures RefsOwed(places, refs, held - multiset{id}, bumps, id)
  {
    forall x | x in refs
      ensures Due(places[x], held - multiset{id}, bumps, x) == Due(places[x], held, bumps, x) - if x == id then 1 else 0
    {
    }
    assert forall x :: x in held - multiset{id} ==> x in held;
  }

  lemma FreeLists(heads: map<nat, Head>, places: map<nat, Place>, lists: seq<seq<Elem>>, bytes: seq<int>, id: nat)
    requires ListsInv(places, lists) && BytesInv(heads, lists, bytes)
    requires id in places && !places[id].linked
    ensures ListsInv(places - {id}, lists) && BytesInv(heads - {id}, lists, bytes)
  {
    hide BytesInv;
    forall l | 0 <= l < |lists|
      ensures ListInv(places - {id}, lists[l], l)
    {
      assert ListInv(places, lists[l], l);
    }
    forall l, e | 0 <= l < |lists| && e in lists[l]
      ensures Weight(heads)(e) == Weight(heads - {id})(e)
    {
      assert ListInv(places, lists[l], l);
    }
    BytesFrame(heads, heads - {id}, lists, bytes);
  }

  lemma FreeIndexes(c: Cache, id: nat)
    requires Core(c) && id in c.heads && !c.places[id].linked
    ensures var r := Free(c, id);
      && TableInv(r.heads, r.places, r.table)
      && IdsInv(r.heads, r.nextId) && PublishedInv(r.places, r.published, r.nextId)
  {
    hide ListsInv, SizesInv, BytesInv, TotalInv, CountInv, LinkedLabelled, IssuedInv;
  }

  lemma FreeLabels(c: Cache, id: nat)
    requires Shape(c) && LinkedLabelled(c.heads, c.data, c.cas, c.versions, c.places)
    ensures var r := Free(c, id); LinkedLabelled(r.heads, r.data, r.cas, r.versions, r.places)
  {
  }

  lemma FreeCore(c: Cache, id: nat)
    requires Core(c) && id in c.heads && !c.places[id].linked
    ensures Core(Free(c, id))
  {
    hide TableInv, ListsInv, SizesInv, BytesInv, TotalInv, CountInv, IdsInv, PublishedInv, LinkedLabelled, IssuedInv;
    FreeLists(c.heads, c.places, c.lists, c.bytes, id);
    FreeIndexes(c, id);
    if c.settings.useCas {
      FreeLabels(c, id);
    }
  }

  lemma FreeEvolves(c: Cache, id: nat)
    requires Shape(c)
    ensures Follows(c, Free(c, id))
  {
  }

  lemma DropKeeps(c: Cache, id: nat)
    requires Core(c) && RefsOwed(c.places, c.refs, c.held, c.bumps, id)
    ensures Good(c, DropRef(c, id))
    ensures id in DropRef(c, id).heads <==> c.refs[id] > 1
  {
    hide TableInv, ListsInv, SizesInv, BytesInv, TotalInv, CountInv, RefsInv, PublishedInv, LinkedLabelled, IssuedInv,
      Labelled, Due;
    RefsDrop(c.places, c.refs, c.held, c.bumps, id);
    assert c.refs[id] >= 1 by { OwedPositive(c.places, c.refs, c.held, c.bumps, id); }
    if c.refs[id] - 1 == 0 {
      FreeCore(c, id);
      FreeEvolves(c, id);
    }
  }

  lemma OwedPositive(places: map<nat, Place>, refs: map<nat, int>, held: multiset<nat>, bumps: seq<seq<nat>>, id: nat)
    requires RefsOwed(places, refs, held, bumps, id)
    ensures refs[id] >= 1
  {
    ParkedZero(bumps, id);
  }

  lemma ReleaseKeeps(c: Cache, id: nat)
    requires Inv(c) && id in c.held
    ensures id in c.heads && Good(c, Release(c, id))
    ensures id in Release(c, id).heads <==> c.refs[id] > 1
  {
    hide TableInv, ListsInv, SizesInv, BytesInv, TotalInv, CountInv, PublishedInv, LinkedLabelled, IssuedInv,
      Labelled, RefsOwed, DropRef, Follows, Due;
    RefsRelease(c.places, c.refs, c.held, c.bumps, id);
    var m := c.(held := c.held - multiset{id});
    DropKeeps(m, id);
    var r := DropRef(m, id);
    HeldOnly(c, m, r);
  }

  /** Reference bookkeeping is invisible to history. */
  lemma HeldOnly(c: Cache, m: Cache, r: Cache)
    requires m == c.(held := m.held, bumps := m.bumps, locks := m.locks)
    requires Follows(m, r)
    ensures Follows(c, r)
  {
    hide Labelled;
    assert forall id :: Mislabelled(m, id) == Mislabelled(c, id);
  }

  // ---------------------------------------------------------------- unlinking

  lemma TableRemove(heads: map<nat, Head>, places: map<nat, Place>, table: map<Key, nat>, id: nat)
    requires TableInv(heads, places, table) && id in places && places[id].linked
    ensures id in heads
    ensures TableInv(heads, places[id := places[id].(linked := false)], table - {heads[id].key})
    ensures forall n :: CountInv(table, n) ==> CountInv(table - {heads[id].key}, n - 1)
  {
    var key := heads[id].key;
    assert table == (table - {key})[key := id];
  }

  lemma RefsUnlinked(places: map<nat, Place>, refs: map<nat, int>, held: multiset<nat>, bumps: seq<seq<nat>>, id: nat)
    requires RefsInv(places, refs, held, bumps) && id in places && places[id].linked
    ensures RefsOwed(places[id := places[id].(linked := false)], refs, held, bumps, id)
  {
  }

  lemma RetractFrame(c: Cache, id: nat)
    requires Shape(c) && id in c.heads
    ensures var r := Retract(c, id);
      && r == c.(places := c.places[id := c.places[id].(linked := false)], table := c.table - {c.heads[id].key},
                 lists := r.lists, sizes := r.sizes, bytes := r.bytes, currItems := r.currItems,
                   currBytes := r.currBytes)
  {
  }

  lemma RetractFollows(c: Cache, id: nat)
    requires Core(c) && id in c.heads
    ensures var r := Retract(c, id);
      && Follows(c, r) && PublishedInv(r.places, r.published, r.nextId)
      && (c.settings.useCas ==> LinkedLabelled(r.heads, r.data, r.cas, r.versions, r.places))
  {
    hide TableInv, ListsInv, SizesInv, BytesInv, TotalInv, CountInv, Labelled, IssuedInv, IdsInv, Retract, Follows;
    RetractFrame(c, id);
    FrameFollows(c, Retract(c, id));
  }

  lemma RetractKeeps(c: Cache, id: nat)
    requires Inv(c) && id in c.heads && c.places[id].linked
    ensures var r := Retract(c, id);
      Core(r) && RefsOwed(r.places, r.refs, r.held, r.bumps, id) && Follows(c, r)
  {
    hide TableInv, ListsInv, SizesInv, BytesInv, TotalInv, CountInv, RefsInv, RefsOwed, LinkedLabelled, PublishedInv,
      IssuedInv, IdsInv, Follows;
    var l := c.places[id].list;
    var p := c.places[id].(linked := false);
    assert p == Place(false, l);
    RetractFollows(c, id);
    TableRemove(c.heads, c.places, c.table, id);
    RefsUnlinked(c.places, c.refs, c.held, c.bumps, id);
    ListRemove(c.places, c.lists, id, l);
    CountersRemove(c, l, id);
    TotalChange(c.sizes, c.currItems, l, -1);
    TotalChange(c.bytes, c.currBytes, l, 0 - c.heads[id].ntotal);
  }

  lemma UnlinkKeeps(c: Cache, id: nat)
    requires Inv(c) && id in c.heads
    ensures Good(c, Unlink(c, id))
    ensures id in c.held ==> id in Unlink(c, id).heads && !Unlink(c, id).places[id].linked
  {
    hide TableInv, ListsInv, SizesInv, BytesInv, TotalInv, CountInv, IdsInv, PublishedInv, LinkedLabelled, IssuedInv,
      Follows, Retract, RefsOwed;
    if c.places[id].linked {
      RetractKeeps(c, id);
      RetractFrame(c, id);
      var m := Retract(c, id);
      DropKeeps(m, id);
      FollowsThen(c, m, DropRef(m, id));
      if id in c.held {
        LinkedHeld(c, id);
      }
    } else {
      GoodSelf(c);
    }
  }

  /** A linked item somebody holds has at least two references. */
  lemma LinkedHeld(c: Cache, id: nat)
    requires RefsInv(c.places, c.refs, c.held, c.bumps) && id in c.held && id in c.places && c.places[id].linked
    ensures c.refs[id] >= 2
  {
    ParkedZero(c.bumps, id);
  }

  // ---------------------------------------------------------------- fresh CAS ids

  /** A fresh CAS id is new, and names the value it is given for. */
  lemma StampLabels(heads: map<nat, Head>, data: map<nat, string>, data': map<nat, string>, cas: map<nat, nat>,
                    versions: map<nat, Version>, casId: nat, id: nat, x: nat)
    requires IssuedInv(versions, casId) && id in heads && id in data'
    requires x == id || (Labelled(heads, data, cas, versions, x) && x in data' && data'[x] == data[x])
    ensures Labelled(heads, data', cas[id := casId + 1],
                     versions[casId + 1 := Version(heads[id].key, data'[id])], x)
  {
  }

  ghost predicate SameDataBut(c: Cache, r: Cache, id: nat) {
    forall x :: x != id && x in c.data && x in r.data ==> r.data[x] == c.data[x]
  }

  lemma RewriteFrame(c: Cache, id: nat, value: string)
    requires Shape(c) && id in c.heads
    ensures var r := Rewrite(c, id, value);
      && r == c.(data := c.data[id := value], cas := c.cas[id := NextCas(c)], casId := r.casId, versions := r.versions)
      && (if c.settings.useCas then
            r.casId == c.casId + 1 && r.versions == c.versions[c.casId + 1 := Version(c.heads[id].key, value)]
          else r.casId == c.casId && r.versions == c.versions)
  {
  }

  lemma RewriteEvolves(c: Cache, id: nat, value: string)
    requires Shape(c) && IssuedInv(c.versions, c.casId) && id in c.heads
    ensures var r := Rewrite(c, id, value);
      Evolves(c, r) && SameDataBut(c, r, id) && IssuedInv(r.versions, r.casId)
  {
    hide Rewrite, Shape;
    RewriteFrame(c, id, value);
  }

  lemma RewriteLabels(c: Cache, id: nat, value: string)
    requires Core(c) && id in c.heads
    ensures var r := Rewrite(c, id, value);
      && LabelsKept(c, r)
      && (c.settings.useCas ==> Labelled(r.heads, r.data, r.cas, r.versions, id))
      && (c.settings.useCas ==> LinkedLabelled(r.heads, r.data, r.cas, r.versions, r.places))
  {
    hide TableInv, ListsInv, SizesInv, BytesInv, TotalInv, CountInv, PublishedInv, Labelled, IssuedInv;
    var r := Rewrite(c, id, value);
    if c.settings.useCas {
      forall x | x == id || Labelled(c.heads, c.data, c.cas, c.versions, x)
        ensures Labelled(r.heads, r.data, r.cas, r.versions, x)
      {
        assert x != id ==> x in c.data by { LabelledRow(c.heads, c.data, c.cas, c.versions, x, id); }
        StampLabels(c.heads, c.data, r.data, c.cas, c.versions, c.casId, id, x);
      }
    }
  }

  lemma LabelledRow(heads: map<nat, Head>, data: map<nat, string>, cas: map<nat, nat>,
                    versions: map<nat, Version>, x: nat, id: nat)
    requires x == id || Labelled(heads, data, cas, versions, x)
    ensures x != id ==> x in data
  {
  }

  lemma RewriteKeeps(c: Cache, id: nat, value: string)
    requires Inv(c) && id in c.heads
    ensures var r := Rewrite(c, id, value);
      && Inv(r) && Evolves(c, r) && LabelsKept(c, r) && SameDataBut(c, r, id)
      && (c.settings.useCas ==> Labelled(r.heads, r.data, r.cas, r.versions, id))
  {
    hide TableInv, ListsInv, SizesInv, BytesInv, TotalInv, CountInv, PublishedInv, LinkedLabelled, Labelled,
      IssuedInv, RefsInv, IdsInv,
      Stamp, Evolves, LabelsKept, SameDataBut;
    RewriteFrame(c, id, value);
    RewriteEvolves(c, id, value);
    RewriteLabels(c, id, value);
  }

  lemma StampKeeps(c: Cache, id: nat)
    requires Inv(c) && id in c.heads
    ensures Good(c, Stamp(c, id))
    ensures var r := Stamp(c, id); c.settings.useCas ==> Labelled(r.heads, r.data, r.cas, r.versions, id)
    ensures var r := Stamp(c, id); r == c.(cas := r.cas, casId := r.casId, versions := r.versions)
  {
    hide TableInv, ListsInv, SizesInv, BytesInv, TotalInv, CountInv, PublishedInv, LinkedLabelled, Labelled,
      IssuedInv, RefsInv, IdsInv,
      Evolves, LabelsKept;
    assert c.(data := c.data[id := c.data[id]]) == c by { assert c.data[id := c.data[id]] == c.data; }
    RewriteKeeps(c, id, c.data[id]);
  }

  // ---------------------------------------------------------------- linking

  lemma TableAdd(heads: map<nat, Head>, places: map<nat, Place>, table: map<Key, nat>, id: nat)
    requires TableInv(heads, places, table) && id in heads && id in places && heads[id].key !in table
    ensures TableInv(heads, places[id := places[id].(linked := true)], table[heads[id].key := id])
    ensures forall n :: CountInv(table, n) ==> CountInv(table[heads[id].key := id], n + 1)
  {
  }

  lemma RefsLinked(places: map<nat, Place>, refs: map<nat, int>, held: multiset<nat>, bumps: seq<seq<nat>>, id: nat)
    requires RefsInv(places, refs, held, bumps) && id in places && !places[id].linked
    ensures RefsInv(places[id := places[id].(linked := true)], refs[id := refs[id] + 1], held, bumps)
  {
  }

  lemma PublishFrame(c: Cache, id: nat)
    requires Shape(c) && id in c.heads
    ensures var r := Publish(c, id);
      && r == c.(places := c.places[id := c.places[id].(linked := true)], table := c.table[c.heads[id].key := id],
                 uses := r.uses, refs := c.refs[id := c.refs[id] + 1], published := c.published + {id},
                 lists := r.lists, sizes := r.sizes, bytes := r.bytes, currItems := r.currItems,
                   currBytes := r.currBytes)
  {
  }

  lemma PublishFollows(c: Cache, id: nat)
    requires Core(c) && id in c.heads
    requires c.settings.useCas ==> Labelled(c.heads, c.data, c.cas, c.versions, id)
    ensures var r := Publish(c, id);
      && Follows(c, r) && PublishedInv(r.places, r.published, r.nextId)
      && (c.settings.useCas ==> LinkedLabelled(r.heads, r.data, r.cas, r.versions, r.places))
  {
    hide TableInv, ListsInv, SizesInv, BytesInv, TotalInv, CountInv, Labelled, IssuedInv, Publish, Follows;
    PublishFrame(c, id);
    FrameFollows(c, Publish(c, id));
  }

  lemma PublishLists(c: Cache, id: nat)
    requires Core(c) && id in c.heads && !c.places[id].linked
    ensures var r := Publish(c, id);
      && ListsInv(c.places[id := Place(true, c.places[id].list)], r.lists) && SizesInv(r.lists, r.sizes)
      && BytesInv(c.heads, r.lists, r.bytes) && TotalInv(r.sizes, r.currItems) && TotalInv(r.bytes, r.currBytes)
      && r.currItems == c.currItems + 1
  {
    hide TableInv, ListsInv, SizesInv, BytesInv, TotalInv, CountInv, LinkedLabelled, PublishedInv, IssuedInv, IdsInv;
    var l := c.places[id].list;
    ListAdd(c.places, c.lists, id, l);
    CountersAdd(c, l, id);
    TotalChange(c.sizes, c.currItems, l, 1);
    TotalChange(c.bytes, c.currBytes, l, c.heads[id].ntotal);
  }

  lemma PublishKeeps(c: Cache, id: nat)
    requires Inv(c) && id in c.heads && !c.places[id].linked && c.heads[id].key !in c.table
    requires c.settings.useCas ==> Labelled(c.heads, c.data, c.cas, c.versions, id)
    ensures Good(c, Publish(c, id))
  {
    hide TableInv, ListsInv, SizesInv, BytesInv, TotalInv, CountInv, RefsInv, LinkedLabelled, PublishedInv, IssuedInv,
      IdsInv, Follows, Labelled, Publish;
    assert c.places[id].(linked := true) == Place(true, c.places[id].list);
    PublishFrame(c, id);
    PublishFollows(c, id);
    PublishLists(c, id);
    TableAdd(c.heads, c.places, c.table, id);
    RefsLinked(c.places, c.refs, c.held, c.bumps, id);
  }

  lemma LinkKeeps(c: Cache, id: nat)
    requires Inv(c) && id in c.heads && !c.places[id].linked && c.heads[id].key !in c.table
    ensures Good(c, Link(c, id))
  {
    hide TableInv, ListsInv, SizesInv, BytesInv, TotalInv, CountInv, RefsInv, LinkedLabelled, PublishedInv, IssuedInv,
      IdsInv, Follows, Labelled,
      Stamp, Publish;
    StampKeeps(c, id);
    PublishKeeps(Stamp(c, id), id);
    GoodThen(c, Stamp(c, id), Link(c, id));
  }

  // ---------------------------------------------------------------- moving between lists

  /** Only the list mark of a linked item changes. */
  lemma PlaceMoved(c: Cache, id: nat, list: nat)
    requires Inv(c) && id in c.heads && c.places[id].linked && list < LISTS
    ensures var places := c.places[id := Place(true, list)];
      && InRange(places) && places.Keys == c.places.Keys
      && TableInv(c.heads, places, c.table) && PublishedInv(places, c.published, c.nextId)
      && RefsInv(places, c.refs, c.held, c.bumps)
      && (c.settings.useCas ==> LinkedLabelled(c.heads, c.data, c.cas, c.versions, places))
  {
    hide ListsInv, SizesInv, BytesInv, TotalInv, CountInv, Labelled, IssuedInv, IdsInv;
  }

  lemma OffAndOn(c: Cache, id: nat, list: nat)
    requires Core(c) && id in c.heads && c.places[id].linked && list < LISTS
    ensures var r := Move(c, id, list);
      && ListsInv(c.places[id := Place(true, list)], r.lists) && SizesInv(r.lists, r.sizes)
      && BytesInv(c.heads, r.lists, r.bytes) && TotalInv(r.sizes, c.currItems) && TotalInv(r.bytes, c.currBytes)
  {
    hide TableInv, ListsInv, SizesInv, BytesInv, TotalInv, CountInv, PublishedInv, LinkedLabelled, IssuedInv, IdsInv;
    var l := c.places[id].list;
    ListRemove(c.places, c.lists, id, l);
    CountersRemove(c, l, id);
    TotalChange(c.sizes, c.currItems, l, -1);
    TotalChange(c.bytes, c.currBytes, l, 0 - c.heads[id].ntotal);
    var m := UnlinkQ(c, id);
    ListAdd(c.places[id := Place(false, l)], m.lists, id, list);
    assert c.places[id := Place(false, l)][id := Place(true, list)] == c.places[id := Place(true, list)];
    CountersAdd(m, list, id);
    TotalChange(m.sizes, c.currItems - 1, list, 1);
    TotalChange(m.bytes, c.currBytes - c.heads[id].ntotal, list, c.heads[id].ntotal);
  }

  lemma MoveFrame(c: Cache, id: nat, list: nat)
    requires Shape(c) && id in c.heads && list < LISTS
    ensures var r := Move(c, id, list);
      r == c.(places := c.places[id := c.places[id].(list := list)], lists := r.lists, sizes := r.sizes,
        bytes := r.bytes)
  {
  }

  lemma PlaceInRange(places: map<nat, Place>, id: nat)
    requires InRange(places) && id in places
    ensures places[id].list < LISTS
  {
  }

  lemma MoveLists(c: Cache, id: nat, to: nat)
    requires Shape(c) && id in c.heads && to < LISTS
    ensures ListOf(c, id) < LISTS
    ensures var r, l := Move(c, id, to), ListOf(c, id);
      var off := c.lists[l := Without(c.lists[l], Entry(id))];
      && r.lists == off[to := [Entry(id)] + off[to]]
      && var less := c.bytes[l := c.bytes[l] - c.heads[id].ntotal];
         r.bytes == less[to := less[to] + c.heads[id].ntotal]
  {
    assert ListOf(c, id) < LISTS by { PlaceInRange(c.places, id); }
    hide InRange;
  }

  lemma MoveKeeps(c: Cache, id: nat, list: nat)
    requires Inv(c) && id in c.heads && c.places[id].linked && list < LISTS
    ensures Good(c, Move(c, id, list))
  {
    hide TableInv, ListsInv, SizesInv, BytesInv, TotalInv, CountInv, RefsInv, LinkedLabelled, PublishedInv, IssuedInv,
      IdsInv, Follows, Move;
    MoveFrame(c, id, list);
    assert c.places[id].(list := list) == Place(true, list);
    PlaceMoved(c, id, list);
    OffAndOn(c, id, list);
    FrameFollows(c, Move(c, id, list));
  }

  lemma TouchKeeps(c: Cache, id: nat, u: Use)
    requires Inv(c) && id in c.heads
    ensures Good(c, Touch(c, id, u))
  {
    hide TableInv, ListsInv, SizesInv, BytesInv, TotalInv, CountInv, RefsInv, LinkedLabelled, PublishedInv, IssuedInv,
      IdsInv, Follows;
    FrameFollows(c, Touch(c, id, u));
  }

  /** Only positions in the lists and access marks differ. */
  ghost predicate Reordered(c: Cache, r: Cache) {
    r == c.(places := r.places, uses := r.uses, lists := r.lists, sizes := r.sizes, bytes := r.bytes)
  }

  /** A change of access marks followed by a move. */
  lemma TouchMoveKeeps(c: Cache, id: nat, u: Use, list: nat)
    requires Inv(c) && id in c.heads && c.places[id].linked && list < LISTS
    ensures Good(c, Touch(c, id, u)) && Reordered(c, Touch(c, id, u))
    ensures Good(c, Move(Touch(c, id, u), id, list)) && Reordered(c, Move(Touch(c, id, u), id, list))
  {
    hide Core, RefsInv, Follows, Move;
    assert Shape(c) by { CoreShape(c); }
    TouchKeeps(c, id, u);
    var t := Touch(c, id, u);
    MoveKeeps(t, id, list);
    MoveFrame(t, id, list);
    GoodThen(c, t, Move(t, id, list));
  }

  lemma UpdateKeeps(c: Cache, id: nat)
    requires Inv(c) && id in c.heads
    ensures Good(c, Update(c, id)) && Reordered(c, Update(c, id))
  {
    hide Core, RefsInv, Follows, Move, Touch, Inv, Reordered, Good;
    assert Shape(c) && c.places[id].list < LISTS by { InvShape(c); }
    var u := c.uses[id];
    GoodSelf(c);
    assert Reordered(c, c) by { ReorderedSelf(c); }
    if c.places[id].linked {
      TouchMoveKeeps(c, id, u.(time := c.now, active := false), ClassOf(ListOf(c, id)) + WARM);
      TouchMoveKeeps(c, id, u.(time := c.now), ListOf(c, id));
    }
  }

  lemma ReorderedSelf(c: Cache)
    ensures Reordered(c, c)
  {
  }

  lemma InvShape(c: Cache)
    requires Inv(c)
    ensures Shape(c) && c.sound && forall id :: id in c.places ==> c.places[id].list < LISTS
  {
    hide TableInv, ListsInv, SizesInv, BytesInv, TotalInv, CountInv, LinkedLabelled, PublishedInv, IssuedInv, IdsInv,
      RefsInv;
  }

  lemma CoreShape(c: Cache)
    requires Core(c)
    ensures Shape(c) && forall id :: id in c.places ==> c.places[id].list < LISTS
  {
    hide TableInv, ListsInv, SizesInv, BytesInv, TotalInv, CountInv, LinkedLabelled, PublishedInv, IssuedInv, IdsInv;
  }

  // ---------------------------------------------------------------- bump buffers

  lemma RefsBump(places: map<nat, Place>, refs: map<nat, int>, held: multiset<nat>, bumps: seq<seq<nat>>, w: nat,
      id: nat)
    requires RefsInv(places, refs, held, bumps) && id in refs && w < |bumps|
    ensures RefsInv(places, refs[id := refs[id] + 1], held, bumps[w := bumps[w] + [id]])
  {
    var bumps' := bumps[w := bumps[w] + [id]];
    forall x | x in refs
      ensures Due(places[x], held, bumps', x) == Due(places[x], held, bumps, x) + if x == id then 1 else 0
    {
      SumUpdate(bumps, w, bumps[w] + [id], Parked(x));
    }
  }

  lemma RefsPop(places: map<nat, Place>, refs: map<nat, int>, held: multiset<nat>, bumps: seq<seq<nat>>, w: nat)
    requires RefsInv(places, refs, held, bumps) && w < |bumps| && bumps[w] != []
    ensures RefsOwed(places, refs, held, bumps[w := bumps[w][1..]], bumps[w][0])
  {
    var id, bumps' := bumps[w][0], bumps[w := bumps[w][1..]];
    forall x | x in refs
      ensures Due(places[x], held, bumps', x) == Due(places[x], held, bumps, x) - if x == id then 1 else 0
    {
      SumUpdate(bumps, w, bumps[w][1..], Parked(x));
      assert bumps[w] == [id] + bumps[w][1..];
    }
    forall v, x | 0 <= v < |bumps'| && x in bumps'[v]
      ensures x in refs
    {
      assert x in bumps[v];
    }
  }

  lemma BumpAsyncKeeps(c: Cache, id: nat, w: nat)
    requires Inv(c) && id in c.heads && w < |c.bumps|
    ensures Good(c, BumpAsync(c, id, w))
  {
    hide TableInv, ListsInv, SizesInv, BytesInv, TotalInv, CountInv, RefsInv, LinkedLabelled, PublishedInv, IssuedInv,
      IdsInv, Follows;
    FrameFollows(c, BumpAsync(c, id, w));
    RefsBump(c.places, c.refs, c.held, c.bumps, w, id);
  }

  /** Serving the oldest entry of a bump buffer gives back the reference it parked. */
  lemma UnparkKeeps(c: Cache, w: nat)
    requires Inv(c) && w < |c.bumps| && c.bumps[w] != []
    ensures c.bumps[w][0] in c.heads
    ensures Good(c, Unpark(c, w))
  {
    hide TableInv, ListsInv, SizesInv, BytesInv, TotalInv, CountInv, LinkedLabelled, PublishedInv, IssuedInv, IdsInv,
      Follows, DropRef, RefsOwed, Due;
    RefsPop(c.places, c.refs, c.held, c.bumps, w);
    var m := c.(bumps := c.bumps[w := c.bumps[w][1..]]);
    DropKeeps(m, c.bumps[w][0]);
    HeldOnly(c, m, DropRef(m, c.bumps[w][0]));
  }

  // ---------------------------------------------------------------- allocation

  lemma AllocTable(heads: map<nat, Head>, places: map<nat, Place>, table: map<Key, nat>, id: nat, h: Head, l: nat)
    requires TableInv(heads, places, table) && id !in heads && id !in places
    ensures TableInv(heads[id := h], places[id := Place(false, l)], table)
  {
  }

  lemma AllocRefs(places: map<nat, Place>, refs: map<nat, int>, held: multiset<nat>, bumps: seq<seq<nat>>, id: nat,
      l: nat)
    requires RefsInv(places, refs, held, bumps) && id !in refs
    ensures RefsInv(places[id := Place(false, l)], refs[id := 1], held + multiset{id}, bumps)
  {
    ParkedNone(bumps, id);
  }

  lemma ParkedNone(bumps: seq<seq<nat>>, id: nat)
    requires forall w :: 0 <= w < |bumps| ==> id !in bumps[w]
    ensures Sum(bumps, Parked(id)) == 0
  {
    SumZero(bumps, Parked(id));
  }

  lemma AllocLists(places: map<nat, Place>, lists: seq<seq<Elem>>, id: nat, l: nat)
    requires ListsInv(places, lists) && id !in places
    ensures ListsInv(places[id := Place(false, l)], lists)
  {
    forall k | 0 <= k < |lists|
      ensures ListInv(places[id := Place(false, l)], lists[k], k)
    {
      assert ListInv(places, lists[k], k);
    }
  }

  lemma AllocBytes(c: Cache, id: nat, h: Head)
    requires ListsInv(c.places, c.lists) && BytesInv(c.heads, c.lists, c.bytes) && id !in c.places
    ensures BytesInv(c.heads[id := h], c.lists, c.bytes)
  {
    hide BytesInv;
    forall l, e | 0 <= l < |c.lists| && e in c.lists[l]
      ensures Weight(c.heads)(e) == Weight(c.heads[id := h])(e)
    {
      assert ListInv(c.places, c.lists[l], l);
    }
    BytesFrame(c.heads, c.heads[id := h], c.lists, c.bytes);
  }

  lemma AllocFollows(c: Cache, key: Key, value: string, list: nat, exptime: nat, ntotal: nat, token: nat)
    requires Core(c) && list < LISTS
    ensures var r := Alloc(c, key, value, list, exptime, ntotal, token);
      && Follows(c, r) && PublishedInv(r.places, r.published, r.nextId)
      && (c.settings.useCas ==> LinkedLabelled(r.heads, r.data, r.cas, r.versions, r.places))
  {
    hide ListsInv, SizesInv, BytesInv, TotalInv, CountInv, IssuedInv, TableInv;
    assert c.nextId !in c.heads;
  }

  lemma AllocKeeps(c: Cache, key: Key, value: string, list: nat, exptime: nat, ntotal: nat, token: nat)
    requires Inv(c) && list < LISTS
    ensures c.nextId !in c.heads && Good(c, Alloc(c, key, value, list, exptime, ntotal, token))
  {
    hide TableInv, ListsInv, SizesInv, BytesInv, TotalInv, CountInv, RefsInv, LinkedLabelled, PublishedInv, IssuedInv,
      Follows;
    assert c.nextId !in c.heads;
    AllocTable(c.heads, c.places, c.table, c.nextId, Head(key, ntotal), list);
    AllocRefs(c.places, c.refs, c.held, c.bumps, c.nextId, list);
    AllocLists(c.places, c.lists, c.nextId, list);
    AllocBytes(c, c.nextId, Head(key, ntotal));
    AllocFollows(c, key, value, list, exptime, ntotal, token);
  }
}
