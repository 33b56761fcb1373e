/** Every pull of a tail keeps the invariant, removes only what it may, and balances the locks and
    references it takes, apart from the pair it hands over. */
module CachePullProof {
  import opened Sums
  import opened CacheModel
  import opened CacheInvariant
  import opened CacheProof
  import opened CacheOps
  import opened CacheOpsProof
  import opened CachePull

  /** Expiry times, access times and CAS ids of surviving items do not move. */
  ghost predicate SameAges(c: Cache, r: Cache) {
    forall x :: x in c.heads && x in r.heads && x in c.uses && x in r.uses && x in c.cas && x in r.cas ==>
      r.uses[x].exptime == c.uses[x].exptime && r.uses[x].time == c.uses[x].time && r.cas[x] == c.cas[x]
  }

  ghost predicate Calm(c: Cache, r: Cache) {
    && Good(c, r) && SameAges(c, r) && r.bumps == c.bumps && r.now == c.now
    && r.oldestLive == c.oldestLive && r.oldestCas == c.oldestCas
  }

  lemma CalmThen(c: Cache, m: Cache, r: Cache)
    requires Core(c) && Calm(c, m) && Calm(m, r)
    ensures Calm(c, r)
  {
    hide TableInv, ListsInv, SizesInv, BytesInv, TotalInv, CountInv, PublishedInv, LinkedLabelled, IssuedInv, RefsInv,
      LabelsKept, SameData;
    GoodThen(c, m, r);
    forall x | x in c.heads && x in r.heads
      ensures x in m.heads
    {
    }
  }

  /** The locks are no part of the invariant or of history. */
  lemma LocksOnly(c: Cache, r: Cache, locks: set<nat>)
    requires Good(c, r)
    ensures Good(c, r.(locks := locks))
  {
    hide TableInv, ListsInv, SizesInv, BytesInv, TotalInv, CountInv, PublishedInv, LinkedLabelled, IssuedInv, IdsInv,
      RefsInv, Labelled;
    assert forall x :: Mislabelled(r.(locks := locks), x) == Mislabelled(r, x);
  }

  // ---------------------------------------------------------------- the moves a visit makes

  lemma CalmGrab(c: Cache, id: nat)
    requires Inv(c) && id in c.heads
    ensures Shape(c) && Calm(c, Grab(c, id))
  {
    hide Core, RefsInv, Follows;
    assert Shape(c) by { InvShape(c); }
    HoldKeeps(c, id);
    LocksOnly(c, Hold(c, id), c.locks + {id});
  }

  lemma CalmLetGo(c: Cache, id: nat)
    requires Inv(c) && id in c.held
    ensures Shape(c)
    ensures var r := LetGo(c, id);
      && Calm(c, r) && r.held == c.held - multiset{id} && r.locks == c.locks - {id} && r.table == c.table
      && r.lists == c.lists
  {
    hide Core, RefsInv, Follows, Release;
    InvRows(c);
    RefPositive(c, id);
    GiveBackKeeps(c, id);
    ReleaseAges(c, id);
    LocksOnly(c, Release(c, id), c.locks - {id});
  }

  lemma ReleaseAges(c: Cache, id: nat)
    requires Shape(c) && id in c.heads && c.refs[id] > 0
    ensures SameAges(c, Release(c, id)) && Release(c, id).lists == c.lists
  {
    hide InRange;
  }

  lemma CalmUnlink(c: Cache, id: nat)
    requires Inv(c) && id in c.held && id in c.places && c.places[id].linked
    ensures Shape(c) && id in c.heads
    ensures var r := Unlink(c, id);
      && Calm(c, r) && r.held == c.held && r.locks == c.locks && r.table == c.table - {c.heads[id].key}
      && r.lists == c.lists[ListOf(c, id) := Without(c.lists[ListOf(c, id)], Entry(id))]
  {
    hide Core, RefsInv, Follows, Unlink;
    InvRows(c);
    UnlinkKeeps(c, id);
    UnlinkFrame(c, id);
    UnlinkLists(c, id);
  }

  lemma UnlinkLists(c: Cache, id: nat)
    requires Shape(c) && id in c.heads && c.places[id].linked
    ensures Unlink(c, id).lists == c.lists[ListOf(c, id) := Without(c.lists[ListOf(c, id)], Entry(id))]
  {
    hide InRange;
  }

  /** Clearing the ACTIVE mark and moving, or only moving. */
  lemma CalmMove(c: Cache, id: nat, u: Use, list: nat)
    requires Inv(c) && id in c.heads && id in c.uses && id in c.places && c.places[id].linked && list < LISTS
    requires u.exptime == c.uses[id].exptime && u.time == c.uses[id].time
    ensures Shape(c)
    ensures var r := Move(Touch(c, id, u), id, list);
      Calm(c, r) && r.held == c.held && r.locks == c.locks && r.table == c.table
  {
    hide Core, RefsInv, Follows, Move;
    assert Shape(c) by { InvShape(c); }
    TouchMoveKeeps(c, id, u, list);
    MoveFrame(Touch(c, id, u), id, list);
  }

  lemma TouchSelf(c: Cache, id: nat)
    requires Shape(c) && id in c.heads
    ensures Touch(c, id, c.uses[id]) == c
  {
    assert c.uses[id := c.uses[id]] == c.uses;
  }

  // ---------------------------------------------------------------- one visit

  /** A linked item of the pulled list which the walk has locked and referenced. */
  ghost predicate Visiting(c: Cache, id: nat, a: PullArgs) {
    && Inv(c) && Shape(c) && PullOk(a) && id in c.held && id in c.heads && id in c.locks
    && c.places[id] == Place(true, PullList(a))
  }

  /** Which visits take the item out of the cache. */
  ghost predicate Takes(c: Cache, id: nat, a: PullArgs)
    requires id in c.uses && id in c.cas
  {
    Stale(c, id) || (a.lru == COLD && a.evict && c.settings.evictToFree)
  }

  ghost predicate GoesOn(c: Cache, id: nat, a: PullArgs)
    requires id in c.uses && id in c.cas
  {
    Stale(c, id) || (a.lru == WARM && c.uses[id].active)
  }

  /** The step is calm, keeps or gives back the lock and the reference, and takes out the key or not. */
  ghost predicate Leaves(c: Cache, id: nat, r: Cache, keep: bool, take: bool)
    requires Shape(c) && id in c.heads
  {
    && Calm(c, r)
    && r.held == (if keep then c.held else c.held - multiset{id})
    && r.locks == (if keep then c.locks else c.locks - {id})
    && r.table == (if take then c.table - {c.heads[id].key} else c.table)
  }

  lemma PartLeaves(c: Cache, m: Cache, id: nat, a: PullArgs, take: bool)
    requires Visiting(c, id, a) && Leaves(c, id, m, true, take)
    ensures Shape(m) && Leaves(c, id, Part(m, id, a), a.returnItem, take)
    ensures Leaves(c, id, LetGo(m, id), false, take) && LetGo(m, id).lists == m.lists
  {
    hide Core, RefsInv, Good, LetGo, SameAges;
    assert Inv(m) by { CalmInv(c, m); }
    CalmLetGo(m, id);
    CalmThen(c, m, LetGo(m, id));
  }

  lemma CalmInv(c: Cache, r: Cache)
    requires Calm(c, r)
    ensures Inv(r)
  {
    hide Core, RefsInv;
  }

  lemma StayLeaves(c: Cache, id: nat, a: PullArgs)
    requires Visiting(c, id, a)
    ensures Leaves(c, id, c, true, false)
  {
    hide Core, RefsInv, Follows;
    GoodSelf(c);
  }

  lemma UnlinkLeaves(c: Cache, id: nat, a: PullArgs)
    requires Visiting(c, id, a)
    ensures Leaves(c, id, Unlink(c, id), true, true)
    ensures forall e :: e != Entry(id) ==> (e in Unlink(c, id).lists[PullList(a)] <==> e in c.lists[PullList(a)])
  {
    hide Core, RefsInv, Good, Unlink, SameAges;
    CalmUnlink(c, id);
    ListNoDup(c, PullList(a));
    WithoutFacts(c.lists[PullList(a)], Entry(id));
  }

  lemma ListNoDup(c: Cache, l: nat)
    requires Inv(c) && l < LISTS
    ensures l < |c.lists| && ListInv(c.places, c.lists[l], l)
  {
    hide TableInv, SizesInv, BytesInv, TotalInv, CountInv, PublishedInv, LinkedLabelled, IssuedInv, IdsInv, RefsInv;
  }

  lemma MoveLeaves(c: Cache, id: nat, a: PullArgs, u: Use, list: nat)
    requires Visiting(c, id, a) && list < LISTS
    requires u.exptime == c.uses[id].exptime && u.time == c.uses[id].time
    ensures Leaves(c, id, Move(Touch(c, id, u), id, list), true, false)
  {
    hide Core, RefsInv, Good, Move, Touch, SameAges;
    CalmMove(c, id, u, list);
  }

  lemma RelinkList(c: Cache, id: nat, a: PullArgs, u: Use)
    requires Visiting(c, id, a)
    ensures var r := Move(Touch(c, id, u), id, PullList(a));
      forall e :: e != Entry(id) ==> (e in r.lists[PullList(a)] <==> e in c.lists[PullList(a)])
  {
    hide Core, RefsInv;
    var l := PullList(a);
    ListNoDup(c, l);
    WithoutFacts(c.lists[l], Entry(id));
    assert Move(Touch(c, id, u), id, l).lists[l] == [Entry(id)] + Without(c.lists[l], Entry(id));
  }

  ghost predicate VisitMeets(c: Cache, id: nat, a: PullArgs, v: Visit)
    requires Shape(c) && id in c.heads && PullOk(a)
  {
    && Shape(v.c) && v.stop == !GoesOn(c, id, a)
    && Leaves(c, id, v.c, v.stop && a.returnItem, Takes(c, id, a))
    && v.ret == (if v.stop && a.returnItem && a.lru == COLD && !a.evict then Some(id) else None)
    && (!v.stop ==> forall e :: e != Entry(id) ==> (e in v.c.lists[PullList(a)] <==> e in c.lists[PullList(a)]))
  }

  lemma VisitColdMeets(c: Cache, id: nat, a: PullArgs)
    requires Visiting(c, id, a) && a.lru == COLD && !Stale(c, id)
    ensures VisitMeets(c, id, a, VisitCold(c, id, a))
  {
    hide Inv, Calm, Leaves, Part, Unlink, Move, Touch, Stale;
    StayLeaves(c, id, a);
    PartLeaves(c, c, id, a, false);
    UnlinkLeaves(c, id, a);
    PartLeaves(c, Unlink(c, id), id, a, true);
    var u := c.uses[id].(active := false);
    MoveLeaves(c, id, a, u, SubList(c, id, WARM));
    PartLeaves(c, Move(Touch(c, id, u), id, SubList(c, id, WARM)), id, a, false);
  }

  lemma VisitHeldMeets(c: Cache, id: nat, a: PullArgs)
    requires Visiting(c, id, a)
    ensures VisitMeets(c, id, a, VisitHeld(c, id, a))
  {
    hide Inv, Calm, Leaves, Part, LetGo, Unlink, Move, Touch, Stale, VisitCold, Limit, Age;
    var u := c.uses[id];
    if Stale(c, id) {
      UnlinkLeaves(c, id, a);
      PartLeaves(c, Unlink(c, id), id, a, true);
    } else if a.lru == COLD {
      VisitColdMeets(c, id, a);
    } else {
      StayLeaves(c, id, a);
      PartLeaves(c, c, id, a, false);
      VisitMoveMeets(c, id, a);
    }
  }

  /** The moves of the HOT and WARM lists. */
  lemma VisitMoveMeets(c: Cache, id: nat, a: PullArgs)
    requires Visiting(c, id, a)
    ensures var u := c.uses[id].(active := false);
      && (var r := LetGo(Move(Touch(c, id, u), id, ListOf(c, id)), id);
          && Leaves(c, id, r, false, false)
          && forall e :: e != Entry(id) ==> (e in r.lists[PullList(a)] <==> e in c.lists[PullList(a)]))
      && Leaves(c, id, Part(Move(Touch(c, id, u), id, SubList(c, id, WARM)), id, a), a.returnItem, false)
    ensures Leaves(c, id, Part(Move(c, id, SubList(c, id, COLD)), id, a), a.returnItem, false)
  {
    hide Inv, Calm, Leaves, Part, LetGo, Move, Touch;
    var u := c.uses[id].(active := false);
    MoveLeaves(c, id, a, u, ListOf(c, id));
    RelinkList(c, id, a, u);
    PartLeaves(c, Move(Touch(c, id, u), id, ListOf(c, id)), id, a, false);
    MoveLeaves(c, id, a, u, SubList(c, id, WARM));
    PartLeaves(c, Move(Touch(c, id, u), id, SubList(c, id, WARM)), id, a, false);
    TouchSelf(c, id);
    MoveLeaves(c, id, a, c.uses[id], SubList(c, id, COLD));
    PartLeaves(c, Move(c, id, SubList(c, id, COLD)), id, a, false);
  }

  // ---------------------------------------------------------------- the whole pull

  /** From c to r the cache lost only keys of items that were stale, and possibly one evicted item. */
  ghost predicate LosesOnly(c: Cache, r: Cache, a: PullArgs, stopped: Option<nat>) {
    && (forall k :: k in r.table ==> k in c.table && r.table[k] == c.table[k])
    && (forall k :: k in c.table && k !in r.table && c.table[k] in c.uses && c.table[k] in c.cas ==>
          || Stale(c, c.table[k])
          || (a.lru == COLD && a.evict && c.settings.evictToFree && stopped == Some(c.table[k])))
  }

  /** The reference, if any, the call keeps, and the lock with it. */
  ghost function KeptRef(a: PullArgs, stopped: Option<nat>): multiset<nat> {
    if a.returnItem && stopped.Some? then multiset{stopped.value} else multiset{}
  }

  ghost function Kept(a: PullArgs, stopped: Option<nat>): set<nat> {
    if a.returnItem && stopped.Some? then {stopped.value} else {}
  }

  ghost predicate PullMeets(c: Cache, a: PullArgs, p: Pulled, tries: nat) {
    && Calm(c, p.c) && LosesOnly(c, p.c, a, p.stopped)
    && |c.table.Keys - p.c.table.Keys| <= tries
    && p.c.held == c.held + KeptRef(a, p.stopped)
    && p.c.locks == c.locks + Kept(a, p.stopped)
    && p.ret == (if a.returnItem && a.lru == COLD && !a.evict then p.stopped else None)
    && (p.stopped.Some? ==> p.stopped.value !in c.locks)
  }

  lemma GrabVisiting(c: Cache, id: nat, a: PullArgs)
    requires Inv(c) && PullOk(a) && PullList(a) < |c.lists| && Entry(id) in c.lists[PullList(a)]
    ensures Shape(c) && id in c.heads && c.heads[id].key in c.table && c.table[c.heads[id].key] == id
    ensures var g := Grab(c, id);
      && Visiting(g, id, a) && Calm(c, g) && GoesOn(g, id, a) == GoesOn(c, id, a) && Takes(g, id, a) == Takes(c, id, a)
      && g == c.(refs := g.refs, held := c.held + multiset{id}, locks := c.locks + {id})
  {
    hide Core, RefsInv, Good, SameAges;
    InvRows(c);
    assert PullList(a) < LISTS;
    ListNoDup(c, PullList(a));
    CalmGrab(c, id);
    CalmInv(c, Grab(c, id));
  }

  /** One visit of the walk, the lock and the reference included. */
  ghost predicate ItemMeets(c: Cache, id: nat, a: PullArgs, v: Visit)
    requires Shape(c) && id in c.heads && PullOk(a)
  {
    && Shape(v.c) && Calm(c, v.c) && v.stop == !GoesOn(c, id, a)
    && v.c.table == (if Takes(c, id, a) then c.table - {c.heads[id].key} else c.table)
    && v.c.held == (if v.stop && a.returnItem then c.held + multiset{id} else c.held)
    && v.c.locks == (if v.stop && a.returnItem then c.locks + {id} else c.locks)
    && v.ret == (if v.stop && a.returnItem && a.lru == COLD && !a.evict then Some(id) else None)
    && (!v.stop ==> forall e :: e != Entry(id) ==> (e in v.c.lists[PullList(a)] <==> e in c.lists[PullList(a)]))
  }

  lemma VisitItemMeets(c: Cache, id: nat, a: PullArgs)
    requires Inv(c) && PullOk(a) && PullList(a) < |c.lists| && Entry(id) in c.lists[PullList(a)] && id !in c.locks
    ensures Shape(c) && id in c.heads && c.heads[id].key in c.table && c.table[c.heads[id].key] == id
    ensures ItemMeets(c, id, a, VisitItem(c, id, a))
  {
    hide Core, RefsInv, Good, VisitHeld, SameAges, Grab, GoesOn, Takes, Visiting, Stale;
    GrabVisiting(c, id, a);
    var g := Grab(c, id);
    VisitHeldMeets(g, id, a);
    var v := VisitHeld(g, id, a);
    CalmThen(c, g, v.c);
    assert c.held + multiset{id} - multiset{id} == c.held;
    assert c.locks + {id} - {id} == c.locks;
  }

  lemma NoVisit(c: Cache, a: PullArgs, removed: nat, tries: nat)
    requires Inv(c)
    ensures PullMeets(c, a, Pulled(c, removed, None, None), tries)
  {
    hide Core, RefsInv, Follows;
    GoodSelf(c);
    assert c.table.Keys - c.table.Keys == {};
  }

  lemma StopLoses(c: Cache, id: nat, a: PullArgs, v: Visit)
    requires Shape(c) && PullOk(a) && id in c.heads && v.stop && ItemMeets(c, id, a, v)
    requires c.heads[id].key in c.table && c.table[c.heads[id].key] == id
    ensures LosesOnly(c, v.c, a, Some(id))
  {
    hide Calm, Stale, InRange;
    assert forall k :: k in c.table && k !in v.c.table ==> k == c.heads[id].key;
  }

  lemma StopKeeps(c: Cache, id: nat, a: PullArgs, v: Visit)
    requires Shape(c) && PullOk(a) && id in c.heads && v.stop && ItemMeets(c, id, a, v)
    ensures v.c.held == c.held + KeptRef(a, Some(id)) && v.c.locks == c.locks + Kept(a, Some(id))
    ensures v.c.table == c.table - {c.heads[id].key} || v.c.table == c.table
  {
    hide Calm, GoesOn, Takes, InRange;
  }

  lemma StopVisit(c: Cache, id: nat, a: PullArgs, v: Visit, removed: nat, tries: nat)
    requires Shape(c) && PullOk(a) && id in c.heads && id !in c.locks && tries > 0 && v.stop && ItemMeets(c, id, a, v)
    requires c.heads[id].key in c.table && c.table[c.heads[id].key] == id
    ensures PullMeets(c, a, Pulled(v.c, removed, v.ret, Some(id)), tries)
  {
    hide Calm, GoesOn, Takes, LosesOnly, InRange, Kept, KeptRef;
    StopLoses(c, id, a, v);
    StopKeeps(c, id, a, v);
    LostOne(c.table, v.c.table, c.heads[id].key);
  }

  lemma LostOne(before: map<Key, nat>, after: map<Key, nat>, key: Key)
    ensures after == before - {key} || after == before ==> |before.Keys - after.Keys| <= 1
  {
    assert before.Keys - (before - {key}).Keys <= {key};
    if after == before - {key} {
      SubsetSize(before.Keys - after.Keys, {key});
    } else if after == before {
      assert before.Keys - after.Keys == {};
    }
  }

  lemma {:induction false} SubsetSize<T>(a: set<T>, b: set<T>)
    requires a <= b
    ensures |a| <= |b|
  {
    if a != {} {
      var x :| x in a;
      SubsetSize(a - {x}, b - {x});
    }
  }

  /** A visit that goes on, followed by a pull of the rest. */
  lemma VisitThenPull(c: Cache, id: nat, a: PullArgs, v: Visit, p: Pulled, tries: nat)
    requires Inv(c) && Shape(c) && PullOk(a) && id in c.heads && tries > 0 && !v.stop && ItemMeets(c, id, a, v)
    requires c.heads[id].key in c.table && c.table[c.heads[id].key] == id
    requires PullMeets(v.c, a, p, tries - 1)
    ensures PullMeets(c, a, p, tries)
  {
    hide Inv, Calm, LosesOnly, Shape;
    CalmCore(c);
    CalmThen(c, v.c, p.c);
    LostOne(c.table, v.c.table, c.heads[id].key);
    LostBoth(c.table.Keys, v.c.table.Keys, p.c.table.Keys);
    LosesThen(c, id, a, v, p);
  }

  lemma CalmCore(c: Cache)
    requires Inv(c)
    ensures Core(c)
  {
    hide Core, RefsInv;
  }

  lemma CalmSettings(c: Cache, r: Cache)
    requires Calm(c, r)
    ensures r.settings == c.settings
  {
    hide Inv;
  }

  lemma LosesThen(c: Cache, id: nat, a: PullArgs, v: Visit, p: Pulled)
    requires Inv(c) && Shape(c) && PullOk(a) && id in c.heads && !v.stop && ItemMeets(c, id, a, v)
    requires c.heads[id].key in c.table && c.table[c.heads[id].key] == id
    requires LosesOnly(v.c, p.c, a, p.stopped)
    ensures LosesOnly(c, p.c, a, p.stopped)
  {
    hide Core, RefsInv, Good, Stale, SameAges;
    InvRows(c);
    CalmInv(c, v.c);
    InvRows(v.c);
    assert v.c.settings == c.settings by { CalmSettings(c, v.c); }
    forall k | k in c.table && k in v.c.table
      ensures v.c.table[k] == c.table[k] && Stale(v.c, c.table[k]) == Stale(c, c.table[k])
    {
      SameStale(c, v.c, c.table[k]);
    }
  }

  lemma SameStale(c: Cache, r: Cache, x: nat)
    requires Calm(c, r) && Shape(c) && Shape(r) && x in c.heads && x in r.heads
    ensures Stale(r, x) == Stale(c, x)
  {
    hide Good;
  }

  lemma LostBoth(a: set<Key>, b: set<Key>, d: set<Key>)
    ensures |a - d| <= |a - b| + |b - d|
  {
    SubsetSize(a - d, (a - b) + (b - d));
    assert |(a - b) + (b - d)| == |a - b| + |b - d| - |(a - b) * (b - d)|;
  }

  lemma AboveInList(list: seq<Elem>, e: Elem)
    ensures Above(list, e).Some? ==> Above(list, e).value in list && (NoDup(list) ==> Above(list, e).value != e)
  {
  }

  /** After a visit that goes on, the element above is still in the list. */
  lemma WalkGoesOn(c: Cache, id: nat, a: PullArgs, v: Visit)
    requires Inv(c) && Shape(c) && PullOk(a) && id in c.heads && !v.stop && ItemMeets(c, id, a, v)
    ensures Inv(v.c) && Shape(v.c)
    ensures var next := Above(c.lists[PullList(a)], Entry(id));
      next.Some? ==> next.value in v.c.lists[PullList(a)]
  {
    hide Inv, Calm, GoesOn, Takes;
    CalmInv(c, v.c);
    ListNoDup(c, PullList(a));
    AboveInList(c.lists[PullList(a)], Entry(id));
  }

  lemma {:induction false} PullLoopKeeps(c: Cache, a: PullArgs, search: Option<Elem>, tries: nat, removed: nat)
    requires Inv(c) && Shape(c) && PullOk(a)
    requires search.Some? ==> search.value in c.lists[PullList(a)]
    ensures PullMeets(c, a, PullLoop(c, a, search, tries, removed), tries)
    decreases tries, Rank(c.lists[PullList(a)], search)
  {
    hide Inv, PullMeets, VisitItem, ItemMeets, Above, Rank, InRange;
    var l := PullList(a);
    if tries == 0 || search.None? {
      NoVisit(c, a, removed, tries);
    } else {
      var next := Above(c.lists[l], search.value);
      AboveInList(c.lists[l], search.value);
      AboveIsCloser(c.lists[l], search.value);
      match search.value
      case Crawler =>
        NoVisit(c, a, 0, tries);
        if !a.crawlBlocks {
          PullLoopKeeps(c, a, next, tries, removed);
        }
      case Entry(id) =>
        if id in a.busy || id in c.locks {
          PullLoopKeeps(c, a, next, tries - 1, removed);
          FewerTries(c, a, PullLoop(c, a, next, tries - 1, removed), tries - 1);
        } else {
          var v := VisitItem(c, id, a);
          VisitItemMeets(c, id, a);
          if v.stop {
            StopVisit(c, id, a, v, removed + v.removed, tries);
          } else {
            WalkGoesOn(c, id, a, v);
            PullLoopKeeps(v.c, a, next, tries - 1, removed + v.removed);
            VisitThenPull(c, id, a, v, PullLoop(v.c, a, next, tries - 1, removed + v.removed), tries);
          }
        }
    }
  }

  lemma FewerTries(c: Cache, a: PullArgs, p: Pulled, tries: nat)
    requires PullMeets(c, a, p, tries)
    ensures PullMeets(c, a, p, tries + 1)
  {
    hide Calm;
  }

  /** Every call of the tail pull, on any list of any reachable cache, with any flags. */
  lemma PullTailKeeps(c: Cache, a: PullArgs)
    requires Inv(c) && PullOk(a)
    ensures Shape(c) && PullMeets(c, a, PullTail(c, a), TRIES)
  {
    hide Inv, PullMeets, PullLoop;
    assert Shape(c) by { InvShape(c); }
    NoVisit(c, a, 0, TRIES);
    PullLoopKeeps(c, a, Tail(c.lists[PullList(a)]), TRIES, 0);
  }
}
