/** What whole runs of the item cache promise. */
module CacheTheorems {
  import opened Sums
  import opened CacheModel
  import opened CacheInvariant
  import opened CacheProof
  import opened CacheOps
  import opened CacheOpsProof
  import opened CacheDelta
  import opened CachePull
  import opened CachePullProof
  import opened CachePullWalk
  import opened CacheRuns
  import Decimal

  // ---------------------------------------------------------------- one set of items, three views of it

  /** In every state of every run an item is in the table exactly when it is on a list, and then on
      one list, once; the item counts agree with both. */
  lemma TableAndListsAgree(states: seq<Cache>, steps: seq<Step>, i: nat, id: nat)
    requires IsRun(states, steps) && i < |states|
    ensures var c := states[i];
      && ((exists k :: k in c.table && c.table[k] == id)
          <==> (exists l :: 0 <= l < LISTS && l < |c.lists| && Entry(id) in c.lists[l]))
      && (forall l, m :: 0 <= l < |c.lists| && 0 <= m < |c.lists| ==>
            Entry(id) in c.lists[l] && Entry(id) in c.lists[m] ==> l == m)
      && (forall l :: 0 <= l < |c.lists| ==> NoDup(c.lists[l]))
      && c.currItems == |c.table| && c.currItems == Sum(c.sizes, Itself())
  {
    hide IsRun, SizesInv, BytesInv, PublishedInv, LinkedLabelled, IssuedInv, IdsInv, RefsInv, NoDup;
    RunIsGood(states, steps, i);
    var c := states[i];
    forall l | 0 <= l < |c.lists|
      ensures ListInv(c.places, c.lists[l], l)
    {
    }
    if id in c.places && c.places[id].linked {
      assert c.table[c.heads[id].key] == id;
      assert Entry(id) in c.lists[c.places[id].list];
    }
  }

  /** Nothing refers to an item that is not there: not the table, no list, no holder, no bump buffer. */
  lemma NothingDangles(states: seq<Cache>, steps: seq<Step>, i: nat, id: nat)
    requires IsRun(states, steps) && i < |states| && id !in states[i].heads
    ensures var c := states[i];
      && c.sound && id !in c.held && (forall k :: k in c.table ==> c.table[k] != id)
      && (forall l :: 0 <= l < |c.lists| ==> Entry(id) !in c.lists[l])
      && (forall w :: 0 <= w < |c.bumps| ==> id !in c.bumps[w])
  {
    hide IsRun, SizesInv, BytesInv, TotalInv, CountInv, PublishedInv, LinkedLabelled, IssuedInv, IdsInv, Due;
    RunIsGood(states, steps, i);
    var c := states[i];
    forall l | 0 <= l < |c.lists|
      ensures Entry(id) !in c.lists[l]
    {
      assert ListInv(c.places, c.lists[l], l);
    }
  }

  // ---------------------------------------------------------------- CAS ids

  /** With CAS on, no two linked items share a CAS id. */
  lemma CasIdsUnique(states: seq<Cache>, steps: seq<Step>, i: nat, a: nat, b: nat)
    requires IsRun(states, steps) && i < |states| && states[i].settings.useCas
    requires a in states[i].places && b in states[i].places && a in states[i].cas && b in states[i].cas
    requires states[i].places[a].linked && states[i].places[b].linked && states[i].cas[a] == states[i].cas[b]
    ensures a == b
  {
    hide IsRun, ListsInv, SizesInv, BytesInv, TotalInv, CountInv, PublishedInv, IssuedInv, IdsInv, RefsInv;
    RunIsGood(states, steps, i);
    LinkedName(states[i], a);
    LinkedName(states[i], b);
  }

  /** What the CAS id of a key's item was issued for, and that it is never zero. */
  lemma TokenNames(c: Cache, key: Key)
    requires Inv(c) && c.settings.useCas && key in c.table
    ensures c.table[key] in c.cas && c.cas[c.table[key]] in c.versions && c.cas[c.table[key]] != 0
    ensures key in View(c) && c.versions[c.cas[c.table[key]]] == Version(key, View(c)[key])
  {
    hide ListsInv, SizesInv, BytesInv, TotalInv, CountInv, PublishedInv, IdsInv, RefsInv, View;
    InvRows(c);
    LinkedName(c, c.table[key]);
    ViewKeys(c);
  }

  /** A cas store succeeds exactly when the key's item is live and carries the CAS id the client
      brought, or a later one where the client takes an older id to be good enough. */
  lemma CasStoreExact(c: Cache, id: nat, staleOk: bool, room: Option<Room>)
    requires Inv(c) && RoomOk(room) && id in c.held && id in c.places && !c.places[id].linked
    ensures id in c.heads && Shape(c)
    ensures var key := c.heads[id].key;
      Store(c, id, CasCmd, staleOk, room).1 ==
      if !Live(c, key) then NotFound
      else if c.cas[id] != 0
        && (c.cas[c.table[key]] == c.cas[id] || (staleOk && c.cas[id] < c.cas[c.table[key]])) then Stored
      else Exists
  {
    hide Inv, Store, Yields, View;
    StoreView(c, id, CasCmd, staleOk, room);
  }

  /** No lost updates: a client reads a key's value and CAS id in one state of a run, and later stores
      with that CAS id.  If the store is accepted, the value it replaces is the very value the client read. */
  lemma NoLostUpdate(states: seq<Cache>, steps: seq<Step>, i: nat, j: nat, key: Key)
    requires IsRun(states, steps) && i <= j < |steps| && states[i].settings.useCas && key in states[i].table
    requires steps[j].StoreItem? && steps[j].comm == CasCmd && !steps[j].staleOk
    requires steps[j].id in states[j].heads && states[j].heads[steps[j].id].key == key
    requires states[i].table[key] in states[i].cas && steps[j].id in states[j].cas
    requires states[j].cas[steps[j].id] == states[i].cas[states[i].table[key]]
    requires Shape(states[j]) && RoomOk(steps[j].room)
    requires Store(states[j], steps[j].id, CasCmd, false, steps[j].room).1 == Stored
    ensures key in View(states[i]) && key in View(states[j]) && View(states[j])[key] == View(states[i])[key]
  {
    hide Inv, Store, View, Apply, InRange, Dead;
    RunIsGood(states, steps, i);
    RunIsGood(states, steps, j);
    RunEvolves(states, steps, i, j);
    assert Enabled(states[j], steps[j]);
    assert Shape(states[j]) && steps[j].id in states[j].places by { InvRows(states[j]); }
    CasStoreExact(states[j], steps[j].id, false, steps[j].room);
    TokenNames(states[i], key);
    TokenNames(states[j], key);
  }

  // ---------------------------------------------------------------- what holders see

  lemma HeldRow(c: Cache, id: nat)
    requires Inv(c) && id in c.held
    ensures id in c.data
  {
    hide Inv;
    InvRows(c);
  }

  /** The value of an item never changes while somebody holds a reference to it. */
  lemma {:induction false} HeldValuesStay(states: seq<Cache>, steps: seq<Step>, i: nat, j: nat, id: nat)
    requires IsRun(states, steps) && i <= j < |states|
    requires forall k :: i <= k <= j ==> id in states[k].held
    ensures id in states[i].data && id in states[j].data && states[j].data[id] == states[i].data[id]
    decreases j - i
  {
    hide Inv, Apply, Enabled, Shape, LabelsKept, Evolves, Mislabels;
    RunIsGood(states, steps, i);
    RunIsGood(states, steps, j);
    HeldRow(states[i], id);
    HeldRow(states[j], id);
    if i < j {
      HeldValuesStay(states, steps, i, j - 1, id);
      RunIsGood(states, steps, j - 1);
      StepKeeps(states[j - 1], steps[j - 1]);
    }
  }

  /** None of the first n steps mislabels an item. */
  ghost predicate NoneMislabels(states: seq<Cache>, steps: seq<Step>, n: nat)
    requires IsRun(states, steps) && n <= |steps|
  {
    forall k :: 0 <= k < n ==> (RunIsGood(states, steps, k); !Mislabels(states[k], steps[k]))
  }

  /** In a run without the one mislabelling step, every item that was ever linked, held or not,
      carries a CAS id that names its own value. */
  lemma {:induction false} LabelsHold(states: seq<Cache>, steps: seq<Step>, i: nat, id: nat)
    requires IsRun(states, steps) && i < |states| && NoneMislabels(states, steps, i)
    ensures !Mislabelled(states[i], id)
  {
    hide Inv, Apply, Enabled, Evolves, HeldDataKept, Mislabels, Shape;
    if i == 0 {
      assert states[0].heads == map[];
    } else {
      LabelsHold(states, steps, i - 1, id);
      RunIsGood(states, steps, i - 1);
      StepKeeps(states[i - 1], steps[i - 1]);
    }
  }

  /** A client that reads value and CAS id off an item it holds, which may long have left the table,
      loses no update either, as long as no step before its read mislabels: a later cas store with
      that CAS id, if accepted, replaces the very value the client read. */
  lemma HeldNoLostUpdate(states: seq<Cache>, steps: seq<Step>, i: nat, j: nat, id: nat)
    requires IsRun(states, steps) && i <= j < |steps| && states[i].settings.useCas && NoneMislabels(states, steps, i)
    requires id in states[i].held && id in states[i].published && id in states[i].heads
    requires steps[j].StoreItem? && steps[j].comm == CasCmd && !steps[j].staleOk
    requires steps[j].id in states[j].heads && states[j].heads[steps[j].id].key == states[i].heads[id].key
    requires id in states[i].cas && steps[j].id in states[j].cas && id in states[i].data
    requires states[j].cas[steps[j].id] == states[i].cas[id]
    requires Shape(states[j]) && RoomOk(steps[j].room)
    requires Store(states[j], steps[j].id, CasCmd, false, steps[j].room).1 == Stored
    ensures var key := states[i].heads[id].key;
      key in View(states[j]) && View(states[j])[key] == states[i].data[id]
  {
    hide Inv, Store, View, Apply, InRange, Dead;
    RunIsGood(states, steps, i);
    RunIsGood(states, steps, j);
    RunEvolves(states, steps, i, j);
    LabelsHold(states, steps, i, id);
    assert Enabled(states[j], steps[j]);
    assert Shape(states[j]) && steps[j].id in states[j].places by { InvRows(states[j]); }
    CasStoreExact(states[j], steps[j].id, false, steps[j].room);
    TokenNames(states[j], states[i].heads[id].key);
  }

  // ---------------------------------------------------------------- the mislabelling step does occur

  const ROOM := Room(COLD + 1, 60)
  const EXAMPLE := Settings(true, true, true, 20, 40)

  /** A client allocates "9" under a key, sets it, and keeps its reference. */
  ghost function Prepared(): (c: Cache)
    ensures Shape(c)
  {
    Alloc(Start(EXAMPLE, 1), "k", "9", COLD + 1, 0, 60, 0)
  }

  lemma PreparedSet()
    ensures Inv(Prepared())
    ensures var r := Store(Prepared(), 0, SetCmd, false, None).0;
      && r == Link(Prepared(), 0) && r.table == map["k" := 0] && 0 in r.refs && r.refs[0] == 2
      && 0 in r.data && r.data[0] == "9" && Live(r, "k") && Inv(r) && Shape(r) && r.settings == EXAMPLE && r.locks == {}
  {
    hide Inv, Publish, InRange;
    StartGood(EXAMPLE, 1);
    AllocKeeps(Start(EXAMPLE, 1), "k", "9", COLD + 1, 0, 60, 0);
    var p := Prepared();
    LinkKeeps(p, 0);
    LinkFrame(p, 0);
    PublishedUse(p);
    assert map["k" := 0] == p.table["k" := 0];
  }

  lemma PublishedUse(c: Cache)
    requires Shape(c) && 0 in c.heads && !c.places[0].linked
    ensures var r := Link(c, 0);
      r.uses[0].exptime == c.uses[0].exptime && r.oldestLive == c.oldestLive && r.settings == c.settings
  {
    hide InRange;
  }

  ghost function Increment(): Step { Delta("k", true, 1, 0, Some(9), Some(ROOM)) }

  lemma NineAndOne()
    ensures Shifted(9, true, 1) == 10 && Decimal.Numeral(10) == "10"
  {
    assert Decimal.Numeral(1) == "1";
  }

  lemma IncrementMislabels(c: Cache)
    requires Inv(c) && Shape(c) && c.settings == EXAMPLE && c.locks == {} && Live(c, "k")
    requires c.table == map["k" := 0] && 0 in c.refs && c.refs[0] == 2 && 0 in c.data && c.data[0] == "9"
    ensures Enabled(c, Increment()) && Mislabels(c, Increment()) && !LabelsKept(c, Apply(c, Increment()))
  {
    hide Inv, AddDelta, LabelsKept, Evolves, HeldDataKept, InRange, Dead, Decimal.Numeral, Shifted;
    NineAndOne();
    StepKeeps(c, Increment());
  }

  /** A run goes on with any step that is enabled at its end. */
  lemma RunThen(s: seq<Cache>, st: seq<Step>, step: Step, c: Cache)
    requires IsRun(s, st) && Enabled(s[|st|], step) && c == Apply(s[|st|], step) && Shape(c)
    ensures IsRun(s + [c], st + [step])
  {
    hide Apply, Enabled, Shape, Start;
    var s', st' := s + [c], st + [step];
    assert s'[0] == s[0];
    forall i | 0 <= i < |s'|
      ensures Shape(s'[i])
    {
      assert i < |s| ==> s'[i] == s[i];
    }
    forall i | 0 <= i < |st'|
      ensures Enabled(s'[i], st'[i]) && s'[i + 1] == Apply(s'[i], st'[i])
    {
      assert i < |st| ==> st'[i] == st[i] && s'[i] == s[i] && s'[i + 1] == s[i + 1];
    }
  }

  ghost function AllocNine(): Step { NewItem("k", "9", COLD + 1, 0, 60, 0) }

  ghost function SetNine(): Step { StoreItem(0, SetCmd, false, None) }

  /** Allocate and set. */
  lemma PreparedRun() returns (s: seq<Cache>, st: seq<Step>)
    ensures IsRun(s, st) && |st| == 2 && s[2] == Store(Prepared(), 0, SetCmd, false, None).0
  {
    hide Inv, Store, InRange, Live, Link;
    PreparedSet();
    s, st := [Start(EXAMPLE, 1)], [];
    assert IsRun(s, st);
    RunThen(s, st, AllocNine(), Prepared());
    s, st := s + [Prepared()], st + [AllocNine()];
    var c := Store(Prepared(), 0, SetCmd, false, None).0;
    RunThen(s, st, SetNine(), c);
    s, st := s + [c], st + [SetNine()];
  }

  lemma ApplyShape(c: Cache, st: Step)
    requires Shape(c) && Enabled(c, st) && st.Delta?
    ensures Shape(Apply(c, st))
  {
    hide AddDelta, InRange;
  }

  /** Three steps suffice: allocate, set, and increment while the setter still holds its item. */
  lemma MislabellingHappens() returns (s: seq<Cache>, st: seq<Step>)
    ensures IsRun(s, st) && |st| == 3 && st[2] == Increment() && !LabelsKept(s[2], s[3])
    ensures s[2] == Store(Prepared(), 0, SetCmd, false, None).0
  {
    hide Inv, Store, LabelsKept, AddDelta, InRange, Live, Link;
    PreparedSet();
    s, st := PreparedRun();
    IncrementMislabels(s[2]);
    ApplyShape(s[2], Increment());
    RunThen(s, st, Increment(), Apply(s[2], Increment()));
    s, st := s + [Apply(s[2], Increment())], st + [Increment()];
  }

  /** The setter still holds "9", now under the CAS id of the "10" that replaced it. */
  lemma IncrementShares(c: Cache)
    requires Inv(c) && Shape(c) && c.settings == EXAMPLE && Live(c, "k") && 0 in c.heads && c.heads[0].key == "k"
    requires c.table == map["k" := 0] && 0 in c.refs && c.refs[0] == 2 && 0 in c.data && c.data[0] == "9"
    ensures var r := AddDelta(c, "k", true, 1, 0, Some(9), Some(ROOM)).0;
      && "k" in r.table && r.table["k"] in r.cas && 0 in r.cas && r.cas[0] == r.cas[r.table["k"]] == c.casId + 1
      && 0 in r.data && r.data[0] == "9" && "k" in View(r) && View(r)["k"] == "10"
      && Inv(r) && SameBooks(c, r, c.held)
  {
    hide Inv, EditByCopy, Release, InRange, Dead, Decimal.Numeral, Shifted, View, Evolves, LabelsKept;
    NineAndOne();
    AddDeltaView(c, "k", true, 1, 0, Some(9), Some(ROOM));
    HoldKeeps(c, 0);
    InvRows(Hold(c, 0));
    LiveLinked(c, "k");
    CopyShares(Hold(c, 0), 0, "10", ROOM);
  }

  lemma LiveLinked(c: Cache, key: Key)
    requires Inv(c) && key in c.table
    ensures c.table[key] in c.places && c.places[c.table[key]].linked
  {
    hide ListsInv, SizesInv, BytesInv, TotalInv, CountInv, RefsInv, PublishedInv, LinkedLabelled, IssuedInv, IdsInv;
  }

  /** At the start of time nothing has expired and nothing has been flushed. */
  lemma NothingDead(c: Cache, key: Key)
    requires Inv(c) && key in c.table && c.now == 0 && c.oldestLive == 0
    ensures Live(c, key)
  {
    hide Inv;
    InvRows(c);
  }

  ghost function StoreEight(token: nat): Step { NewItem("k", "8", COLD + 1, 0, 60, token) }

  ghost function CasEight(id: nat): Step { StoreItem(id, CasCmd, false, None) }

  /** With the id in hand the store over the "10" its client never saw is accepted. */
  lemma EightAccepted(c: Cache)
    requires Inv(c) && Shape(c) && c.now == 0 && c.oldestLive == 0 && c.locks == {}
    requires "k" in c.table && c.table["k"] in c.cas && 0 in c.cas && c.cas[0] == c.cas[c.table["k"]] != 0
    ensures var r := Alloc(c, "k", "8", COLD + 1, 0, 60, c.cas[0]);
      && Inv(r) && View(r) == View(c) && Enabled(r, CasEight(c.nextId))
      && Store(r, c.nextId, CasCmd, false, None).1 == Stored && Shape(Apply(r, CasEight(c.nextId)))
  {
    hide Inv, Store, View, Dead, InRange, Alloc;
    AllocKeeps(c, "k", "8", COLD + 1, 0, 60, c.cas[0]);
    var r := Alloc(c, "k", "8", COLD + 1, 0, 60, c.cas[0]);
    EightAllocated(c);
    ViewSame(c, r);
    NothingDead(r, "k");
    CasStoreExact(r, c.nextId, false, None);
  }

  lemma EightAllocated(c: Cache)
    requires Inv(c) && Shape(c) && "k" in c.table && 0 in c.cas
    ensures var r, id := Alloc(c, "k", "8", COLD + 1, 0, 60, c.cas[0]), c.nextId;
      && id in r.held && id in r.heads && r.heads[id].key == "k" && !r.places[id].linked && r.cas[id] == c.cas[0]
      && r.table == c.table && c.table["k"] in c.cas && r.cas[r.table["k"]] == c.cas[c.table["k"]]
      && r.now == c.now && r.oldestLive == c.oldestLive && r.locks == c.locks
      && c.table["k"] in r.data && r.data[r.table["k"]] == c.data[c.table["k"]]
  {
    hide Inv, InRange;
    InvRows(c);
    FreshId(c);
  }

  lemma FreshId(c: Cache)
    requires Inv(c)
    ensures c.nextId !in c.heads
  {
    hide ListsInv, SizesInv, BytesInv, TotalInv, CountInv, RefsInv, PublishedInv, LinkedLabelled, IssuedInv, TableInv;
  }

  /** The mislabelling run goes on to a lost update: the setter, which has seen only its "9", stores
      with the CAS id it reads off the item it holds, and the increment's "10" is replaced. */
  lemma LostUpdateHappens() returns (s: seq<Cache>, st: seq<Step>)
    ensures IsRun(s, st) && |st| == 5 && st[2] == Increment()
    ensures 0 in s[3].held && 0 in s[3].data && s[3].data[0] == "9" && 0 in s[3].cas
    ensures st[3] == StoreEight(s[3].cas[0]) && st[4] == CasEight(s[3].nextId)
    ensures "k" in View(s[4]) && View(s[4])["k"] == "10"
    ensures Shape(s[4]) && Store(s[4], s[3].nextId, CasCmd, false, None).1 == Stored
  {
    hide Inv, Store, LabelsKept, AddDelta, InRange, Live, Link, View, Alloc;
    PreparedSet();
    PreparedBooks();
    s, st := MislabellingHappens();
    IncrementShares(s[2]);
    EightAccepted(s[3]);
    var c := Alloc(s[3], "k", "8", COLD + 1, 0, 60, s[3].cas[0]);
    var step, id := StoreEight(s[3].cas[0]), s[3].nextId;
    RunThen(s, st, step, c);
    s, st := s + [c], st + [step];
    RunThen(s, st, CasEight(id), Apply(c, CasEight(id)));
    s, st := s + [Apply(c, CasEight(id))], st + [CasEight(id)];
  }

  lemma PreparedBooks()
    ensures var r := Link(Prepared(), 0);
      0 in r.held && r.now == 0 && r.oldestLive == 0 && 0 in r.heads && r.heads[0].key == "k"
  {
    hide InRange, Link;
    LinkFrame(Prepared(), 0);
  }

  // ---------------------------------------------------------------- a pull that keeps what it took

  /** Evict from the COLD list of class 1, asking for an item too. */
  ghost function EvictAndReturn(): PullArgs { PullArgs(1, COLD, 0, true, true, false, 0, {}) }

  lemma PreparedStops(c: Cache)
    requires Shape(c) && c == Link(Prepared(), 0)
    ensures Stops(c, EvictAndReturn())
  {
    var list := c.lists[PullList(EvictAndReturn())];
    assert list == [Entry(0)];
    assert Halts(c, EvictAndReturn(), list[0]);
    assert list[0..1][..0] == [];
    assert WithinReach(list, 0, 1, TRIES, false);
  }

  lemma EvictLeaks(c: Cache)
    requires Inv(c) && Shape(c) && c == Link(Prepared(), 0)
    ensures var p := PullTail(c, EvictAndReturn());
      p.ret.None? && p.c.locks != c.locks && p.c.held != c.held
  {
    hide Inv, InRange, Link, PullTail, Stops, PullMeets;
    PreparedStops(c);
    StopsExactly(c, EvictAndReturn());
    PullTailKeeps(c, EvictAndReturn());
    KeptShows(c, EvictAndReturn(), PullTail(c, EvictAndReturn()));
  }

  /** Allocate, set, and evict with an item asked for: nothing is handed out, and the lock and the
      reference taken for the evicted item stay taken. */
  lemma LeakHappens() returns (s: seq<Cache>, st: seq<Step>)
    ensures IsRun(s, st) && |st| == 3 && st[2] == Pull(EvictAndReturn())
    ensures Shape(s[2]) && PullTail(s[2], EvictAndReturn()).ret.None?
    ensures s[3].locks != s[2].locks && s[3].held != s[2].held
  {
    hide Inv, Store, InRange, Live, Link, PullTail;
    PreparedSet();
    s, st := PreparedRun();
    EvictLeaks(s[2]);
    var step := Pull(EvictAndReturn());
    RunThen(s, st, step, Apply(s[2], step));
    s, st := s + [Apply(s[2], step)], st + [step];
  }

  lemma KeptShows(c: Cache, a: PullArgs, p: Pulled)
    requires PullMeets(c, a, p, TRIES) && a.returnItem && a.evict && p.stopped.Some?
    ensures p.ret.None? && p.c.locks != c.locks && p.c.held != c.held
  {
    hide Calm, LosesOnly;
    assert p.stopped.value in p.c.locks;
    assert p.c.held[p.stopped.value] == c.held[p.stopped.value] + 1;
  }
}
