/** Whole runs of the item cache: every interleaving of client commands, background scans and time. */
module CacheRuns {
  import opened Sums
  import opened CacheModel
  import opened CacheInvariant
  import opened CacheProof
  import opened CacheOps
  import opened CacheOpsProof
  import opened CacheDelta
  import opened CachePull
  import opened CachePullProof
  import Decimal

  datatype Step =
    | NewItem(key: Key, value: string, list: nat, exptime: nat, ntotal: nat, token: nat)
    | GetItem(key: Key, bump: bool, buffer: nat, space: bool)
    | GiveBack(id: nat)
    | DeleteItem(id: nat)
    | StoreItem(id: nat, comm: Command, staleOk: bool, room: Option<Room>)
    | Delta(key: Key, incr: bool, delta: nat, token: nat, parsed: Option<nat>, room: Option<Room>)
    | Pull(args: PullArgs)
    | FinishPull(id: nat)
    | Drain(buffer: nat)
    | Crawled(id: nat)
    | MoveMarker(list: nat, order: seq<Elem>)
    | Tick(seconds: nat)
    | FlushAll(live: nat, cas: nat)

  /** Nobody holds the lock of the item under this key. */
  ghost predicate Unlocked(c: Cache, key: Key) {
    key in c.table ==> c.table[key] !in c.locks
  }

  /** When a thread may take a step: it holds what it works on, and the item lock is free. */
  ghost predicate Enabled(c: Cache, st: Step)
    requires Shape(c)
  {
    match st
    case NewItem(_, _, list, _, _, _) => list < LISTS
    case GetItem(key, _, buffer, _) => Unlocked(c, key) && buffer < |c.bumps|
    case GiveBack(id) => id in c.held && id !in c.locks
    case DeleteItem(id) => id in c.held && id in c.heads && id !in c.locks
    case StoreItem(id, _, _, room) =>
      RoomOk(room) && id in c.held && id in c.heads && !c.places[id].linked && Unlocked(c, c.heads[id].key)
    case Delta(key, _, _, _, _, room) => RoomOk(room) && Unlocked(c, key)
    case Pull(args) => PullOk(args)
    case FinishPull(id) => id in c.held && id in c.locks
    case Drain(buffer) => buffer < |c.bumps| && c.bumps[buffer] != [] && c.bumps[buffer][0] !in c.locks
    case Crawled(id) => id in c.heads && c.places[id].linked && id !in c.locks
    case MoveMarker(list, order) =>
      list < LISTS && NoDup(order) && Without(order, Crawler) == Without(c.lists[list], Crawler)
    case Tick(_) => true
    case FlushAll(_, _) => true
  }

  ghost function Apply(c: Cache, st: Step): (r: Cache)
    requires Shape(c) && Enabled(c, st)
  {
    match st
    case NewItem(key, value, list, exptime, ntotal, token) => Alloc(c, key, value, list, exptime, ntotal, token)
    case GetItem(key, bump, buffer, space) =>
      var (r, found) := Get(c, key);
      if bump && found.Some? && buffer < |r.bumps| then Bump(r, found.value, buffer, space) else r
    case GiveBack(id) => Release(c, id)
    case DeleteItem(id) => Unlink(c, id)
    case StoreItem(id, comm, staleOk, room) => Store(c, id, comm, staleOk, room).0
    case Delta(key, incr, delta, token, parsed, room) => AddDelta(c, key, incr, delta, token, parsed, room).0
    case Pull(args) => PullTail(c, args).c
    case FinishPull(id) => LetGo(c, id)
    case Drain(buffer) => DrainOne(c, buffer)
    case Crawled(id) => Crawl(c, id)
    case MoveMarker(list, order) => c.(lists := c.lists[list := order])
    case Tick(seconds) => c.(now := c.now + seconds)
    case FlushAll(live, cas) => c.(oldestLive := live, oldestCas := cas)
  }

  /** The one step that can leave a holder with a CAS id naming another value. */
  ghost predicate Mislabels(c: Cache, st: Step)
    requires Inv(c) && Shape(c)
  {
    && st.Delta? && st.parsed.Some?
    && var digits := Decimal.Numeral(Shifted(st.parsed.value, st.incr, st.delta));
       && DeltaVerdict(c, st.key, digits, st.token, true, st.room.Some?).DeltaOk?
       && ShowsNewCas(c, st.key, digits)
  }

  ghost predicate StepMeets(c: Cache, st: Step, r: Cache)
    requires Inv(c) && Shape(c)
  {
    Inv(r) && Evolves(c, r) && HeldDataKept(c, r) && (LabelsKept(c, r) <==> !Mislabels(c, st))
  }

  // ---------------------------------------------------------------- every step

  lemma GoodMeets(c: Cache, st: Step, r: Cache)
    requires Inv(c) && Shape(c) && Good(c, r) && !st.Delta?
    ensures StepMeets(c, st, r)
  {
    hide Core, RefsInv, Evolves, LabelsKept;
  }

  lemma GetBumpKeeps(c: Cache, key: Key, buffer: nat, space: bool)
    requires Inv(c) && Shape(c) && buffer < |c.bumps|
    ensures var (r, found) := Get(c, key);
      && Good(c, r)
      && (found.Some? ==> buffer < |r.bumps| && Good(c, Bump(r, found.value, buffer, space)))
  {
    hide Core, RefsInv, Follows, Get, Bump;
    GetKeeps(c, key);
    var (r, found) := Get(c, key);
    if found.Some? {
      BumpKeeps(r, found.value, buffer, space);
      GoodThen(c, r, Bump(r, found.value, buffer, space));
    }
  }

  lemma MarkerSum(list: seq<Elem>, order: seq<Elem>, f: Elem -> int)
    requires f(Crawler) == 0 && Without(order, Crawler) == Without(list, Crawler)
    ensures Sum(order, f) == Sum(list, f)
  {
    if Crawler in list { SumWithout(list, Crawler, f); } else { WithoutAbsent(list, Crawler); }
    if Crawler in order { SumWithout(order, Crawler, f); } else { WithoutAbsent(order, Crawler); }
  }

  lemma MarkerList(places: map<nat, Place>, list: seq<Elem>, l: nat, order: seq<Elem>)
    requires ListInv(places, list, l) && NoDup(order) && Without(order, Crawler) == Without(list, Crawler)
    ensures ListInv(places, order, l)
  {
    WithoutFacts(order, Crawler);
    WithoutFacts(list, Crawler);
    assert forall id :: Entry(id) in order <==> Entry(id) in Without(order, Crawler);
  }

  lemma MarkerLists(c: Cache, l: nat, order: seq<Elem>)
    requires ListsInv(c.places, c.lists) && SizesInv(c.lists, c.sizes) && BytesInv(c.heads, c.lists, c.bytes)
    requires l < |c.lists| && NoDup(order) && Without(order, Crawler) == Without(c.lists[l], Crawler)
    ensures var lists := c.lists[l := order];
      && ListsInv(c.places, lists) && SizesInv(lists, c.sizes) && BytesInv(c.heads, lists, c.bytes)
  {
    hide ListInv, NoDup, Sum, Without;
    MarkerList(c.places, c.lists[l], l, order);
    MarkerSum(c.lists[l], order, One());
    MarkerSum(c.lists[l], order, Weight(c.heads));
  }

  lemma MarkerKeeps(c: Cache, l: nat, order: seq<Elem>)
    requires Inv(c) && l < |c.lists| && NoDup(order) && Without(order, Crawler) == Without(c.lists[l], Crawler)
    ensures Good(c, c.(lists := c.lists[l := order]))
  {
    hide TableInv, ListsInv, SizesInv, BytesInv, TotalInv, CountInv, PublishedInv, LinkedLabelled, IssuedInv, IdsInv,
      RefsInv, Follows;
    MarkerLists(c, l, order);
    FrameFollows(c, c.(lists := c.lists[l := order]));
  }

  lemma ClockKeeps(c: Cache, now: nat, live: nat, cas: nat)
    requires Inv(c)
    ensures Good(c, c.(now := now)) && Good(c, c.(oldestLive := live, oldestCas := cas))
  {
    hide TableInv, ListsInv, SizesInv, BytesInv, TotalInv, CountInv, PublishedInv, LinkedLabelled, IssuedInv, IdsInv,
      RefsInv, Follows;
    FrameFollows(c, c.(now := now));
    FrameFollows(c, c.(oldestLive := live, oldestCas := cas));
  }

  lemma StoreGood(c: Cache, id: nat, comm: Command, staleOk: bool, room: Option<Room>)
    requires Inv(c) && Shape(c) && Enabled(c, StoreItem(id, comm, staleOk, room))
    ensures Good(c, Store(c, id, comm, staleOk, room).0)
  {
    hide Inv, Good, Store, View;
    StoreView(c, id, comm, staleOk, room);
  }

  lemma PullGood(c: Cache, a: PullArgs)
    requires Inv(c) && Shape(c) && PullOk(a)
    ensures Good(c, PullTail(c, a).c)
  {
    hide Inv, Good, PullTail;
    PullTailKeeps(c, a);
  }

  lemma LetGoGood(c: Cache, id: nat)
    requires Inv(c) && Shape(c) && id in c.held
    ensures Good(c, LetGo(c, id))
  {
    hide Inv, Good, LetGo;
    CalmLetGo(c, id);
  }

  lemma DeltaStep(c: Cache, st: Step)
    requires Inv(c) && Shape(c) && st.Delta? && Enabled(c, st)
    ensures StepMeets(c, st, Apply(c, st))
  {
    hide Inv, Evolves, LabelsKept, HeldDataKept, AddDelta, View, Live;
    AddDeltaView(c, st.key, st.incr, st.delta, st.token, st.parsed, st.room);
  }

  /** Every step keeps the invariant, loses no history, changes no value somebody else holds, and
      mislabels an item exactly in the case named. */
  lemma StepKeeps(c: Cache, st: Step)
    requires Inv(c) && Shape(c) && Enabled(c, st)
    ensures StepMeets(c, st, Apply(c, st))
  {
    hide Inv, Good, StepMeets, Get, Bump, Release, Unlink, Store, AddDelta, PullTail, LetGo, DrainOne, Crawl;
    var r := Apply(c, st);
    match st {
      case NewItem(key, value, list, exptime, ntotal, token) => AllocKeeps(c, key, value, list, exptime, ntotal, token);
      case GetItem(key, bump, buffer, space) => GetBumpKeeps(c, key, buffer, space);
      case GiveBack(id) => GiveBackKeeps(c, id);
      case DeleteItem(id) => UnlinkKeeps(c, id);
      case StoreItem(id, comm, staleOk, room) => StoreGood(c, id, comm, staleOk, room);
      case Delta(key, incr, delta, token, parsed, room) => DeltaStep(c, st);
      case Pull(args) => PullGood(c, args);
      case FinishPull(id) => LetGoGood(c, id);
      case Drain(buffer) => DrainKeeps(c, buffer);
      case Crawled(id) => CrawlKeeps(c, id);
      case MoveMarker(list, order) => MarkerKeeps(c, list, order);
      case Tick(seconds) => ClockKeeps(c, c.now + seconds, 0, 0);
      case FlushAll(live, cas) => ClockKeeps(c, 0, live, cas);
    }
    if !st.Delta? {
      GoodMeets(c, st, r);
    }
  }

  // ---------------------------------------------------------------- runs

  function Start(settings: Settings, buffers: nat): (c: Cache)
    ensures Shape(c)
  {
    Cache(settings, 0, 0, 0, map[], map[], map[], map[], map[], map[], map[],
          seq(LISTS, i => []), seq(LISTS, i => 0), seq(LISTS, i => 0), 0, 0, 0,
          {}, multiset{}, seq(buffers, i => []), 0, map[], {}, true)
  }

  lemma StartGood(settings: Settings, buffers: nat)
    ensures Inv(Start(settings, buffers))
  {
    var c := Start(settings, buffers);
    SumZero(c.sizes, Itself());
    SumZero(c.bytes, Itself());
  }

  ghost predicate IsRun(states: seq<Cache>, steps: seq<Step>) {
    && |states| == |steps| + 1
    && (exists settings, buffers :: states[0] == Start(settings, buffers))
    && (forall i :: 0 <= i < |states| ==> Shape(states[i]))
    && (forall i :: 0 <= i < |steps| ==> Enabled(states[i], steps[i]) && states[i + 1] == Apply(states[i], steps[i]))
  }

  /** Every state of every run satisfies the invariant: table and lists hold the same items, the
      counters equal the list contents, references equal link plus holders, no fault occurred. */
  lemma {:induction false} RunIsGood(states: seq<Cache>, steps: seq<Step>, i: nat)
    requires IsRun(states, steps) && i < |states|
    ensures Inv(states[i])
  {
    hide Inv, Apply, Enabled, Shape;
    if i == 0 {
      var settings, buffers :| states[0] == Start(settings, buffers);
      StartGood(settings, buffers);
    } else {
      RunIsGood(states, steps, i - 1);
      StepKeeps(states[i - 1], steps[i - 1]);
      MeetsInv(states[i - 1], steps[i - 1], states[i]);
    }
  }

  lemma MeetsInv(c: Cache, st: Step, r: Cache)
    requires Inv(c) && Shape(c) && StepMeets(c, st, r)
    ensures Inv(r)
  {
    hide Inv;
  }

  /** History only grows along a run. */
  lemma {:induction false} RunEvolves(states: seq<Cache>, steps: seq<Step>, i: nat, j: nat)
    requires IsRun(states, steps) && i <= j < |states|
    ensures Evolves(states[i], states[j])
    decreases j - i
  {
    hide Inv, Apply, Enabled, Shape, LabelsKept, HeldDataKept, Mislabels;
    if i < j {
      RunEvolves(states, steps, i, j - 1);
      RunIsGood(states, steps, j - 1);
      StepKeeps(states[j - 1], steps[j - 1]);
      EvolvesThen(states[i], states[j - 1], states[j]);
    }
  }
}
