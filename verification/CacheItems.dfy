/** The item cache as an object: the store command, and the loops that drain a bump buffer and pull a tail. */
module CacheItems {
  import opened Sums
  import opened CacheModel
  import opened CacheInvariant
  import opened CacheProof
  import opened CacheOps
  import opened CacheOpsProof
  import opened CachePull
  import opened CachePullProof
  import opened CachePullPlaces
  import opened CachePullFate
  import R = CacheRuns

  /** What is left to do once the walk has stopped: put the item on its new list, and part with it. */
  function Finish(c: Cache, id: nat, target: nat, a: PullArgs): (r: Cache)
    requires Shape(c) && id in c.heads && target <= TEMP
    ensures Shape(r)
  {
    if target == 0 then Part(c, id, a)
    else Part(LinkQ(c.(places := c.places[id := c.places[id].(list := SubList(c, id, target))]), id), id, a)
  }

  lemma Touched(c: Cache, id: nat, u: Use)
    requires Shape(c) && id in c.heads
    ensures Touch(c, id, u).heads == c.heads && Touch(c, id, u).places == c.places
  {
  }

  lemma Listed(c: Cache, id: nat)
    requires Shape(c) && id in c.heads
    ensures ListOf(c, id) < LISTS
    ensures UnlinkQ(c, id).heads == c.heads && UnlinkQ(c, id).places == c.places && UnlinkQ(c, id).refs == c.refs
  {
  }

  class ItemCache {
    var c: Cache

    constructor (settings: Settings, buffers: nat)
      ensures c == R.Start(settings, buffers) && Inv(c)
    {
      R.StartGood(settings, buffers);
      c := R.Start(settings, buffers);
    }

    // ------------------------------------------------------------ store

    /** The store commands. */
    method StoreItem(id: nat, comm: Command, staleOk: bool, room: Option<Room>) returns (out: Outcome)
      requires Inv(c) && id in c.held && id in c.places && !c.places[id].linked && RoomOk(room)
      modifies this
      ensures Shape(old(c)) && id in old(c.heads) && (c, out) == Store(old(c), id, comm, staleOk, room)
      ensures StoreMeets(old(c), id, comm, staleOk, room, c, out)
    {
      hide Core, RefsInv, Follows, Unlink, Link, Release, Get, Update, Swap, StoreMeets, Touch, Dead;
      InvRows(c);
      StoreView(c, id, comm, staleOk, room);
      var key := c.heads[id].key;
      StoreReady(c, id);
      var (m, found) := Get(c, key);
      c := m;
      if found.Some? {
        out := StoreFound(id, found.value, comm, staleOk, room);
      } else if comm == AddCmd || comm == SetCmd {
        c := Link(c, id);
        out := Stored;
      } else {
        out := if comm == CasCmd then NotFound else NotStored;
      }
    }

    method StoreFound(id: nat, was: nat, comm: Command, staleOk: bool, room: Option<Room>) returns (out: Outcome)
      requires Paired(c, id, was) && Shape(c) && RoomOk(room)
      modifies this
      ensures (c, out) == StoreOver(old(c), id, was, comm, staleOk, room)
    {
      hide Core, RefsInv, Follows, Release, Update, Swap, StoreJoined;
      out := Stored;
      match comm {
        case AddCmd =>
          c := Update(c, was);
          c := Release(c, was);
          out := NotStored;
        case CasCmd =>
          var test := TestCas(c.cas[id], c.cas[was], staleOk);
          if test == Match {
            c := Swap(c, was, id);
          } else if test == StaleCas {
            c := Touch(c, id, c.uses[id].(exptime := c.uses[was].exptime));
            c := Swap(c, was, id);
          } else {
            c := Release(c, was);
            out := Exists;
          }
        case SetCmd => c := Swap(c, was, id);
        case ReplaceCmd => c := Swap(c, was, id);
        case AppendCmd => out := StoreBoth(id, was, comm, TestCas(c.cas[id], c.cas[was], staleOk), room);
        case PrependCmd => out := StoreBoth(id, was, comm, TestCas(c.cas[id], c.cas[was], staleOk), room);
      }
    }

    /** Append and prepend: both values go into a third item. */
    method StoreBoth(id: nat, was: nat, comm: Command, test: CasTest, room: Option<Room>) returns (out: Outcome)
      requires Paired(c, id, was) && Shape(c) && RoomOk(room)
      modifies this
      ensures (c, out) == StoreJoined(old(c), id, was, comm, test, room)
    {
      hide Core, RefsInv, Follows, Release, Swap, Alloc;
      if test == BadValue || test == StaleCas {
        c := Release(c, was);
        return Exists;
      }
      if room.None? {
        c := Release(c, was);
        return NotStored;
      }
      var value := Combined(comm, c.data[was], c.data[id]);
      var joined := c.nextId;
      c := Alloc(c, c.heads[id].key, value, room.value.list, c.uses[was].exptime, room.value.ntotal, 0);
      c := Swap(c, was, joined);
      c := Release(c, joined);
      return Stored;
    }

    // ------------------------------------------------------------ the bump buffers

    /** Serve every entry a buffer holds when the call starts. */
    method DrainBuffer(w: nat) returns (bumped: bool)
      requires Inv(c) && w < |c.bumps|
      modifies this
      ensures Inv(c) && Evolves(old(c), c) && c.table == old(c.table) && c.held == old(c.held) &&
        c.locks == old(c.locks)
      ensures c.bumps == old(c.bumps)[w := []] && bumped == (old(c.bumps)[w] != [])
    {
      hide Core, RefsInv, Evolves, LabelsKept, SameData, DrainOne;
      ghost var first := c;
      assert Evolves(first, first) by { GoodSelf(first); }
      var todo := |c.bumps[w]|;
      bumped := todo > 0;
      while todo > 0
        invariant Inv(c) && Evolves(first, c)
        invariant c.table == first.table && c.held == first.held && c.locks == first.locks
        invariant |c.bumps| == |first.bumps| && todo == |c.bumps[w]| && c.bumps == first.bumps[w := c.bumps[w]]
        decreases todo
      {
        assert Shape(c) by { InvShape(c); }
        DrainKeeps(c, w);
        ghost var m := c;
        c := DrainOne(c, w);
        EvolvesThen(first, m, c);
        todo := todo - 1;
      }
    }

    // ------------------------------------------------------------ pulling a tail

    /** Decide what to do with an item the walk has locked: everything the code does to it while it
        holds the list lock. */
    method Examine(id: nat, a: PullArgs) returns (stop: bool, target: nat, removed: nat, ret: Option<nat>)
      requires Shape(c) && id in c.heads && PullOk(a) && id in Unlink(c, id).heads
      modifies this
      ensures Shape(c) && target <= TEMP && (stop ==> id in c.heads)
      ensures var v := VisitHeld(old(c), id, a);
        && v.stop == stop && v.removed == removed && v.ret == ret
        && v.c == if stop then Finish(c, id, target, a) else c
      ensures Visiting(old(c), id, a) ==>
        Fared(old(c), if stop then Finish(c, id, target, a) else c, a, id, CourseOf(old(c), id, a))
    {
      hide Unlink, LetGo, Part, Stale, LinkQ, UnlinkQ, InRange, Move, Touch, VisitCold, VisitWarm, Finish, Fared,
        CourseOf, Visiting;
      if Visiting(c, id, a) {
        HeldFares(c, id, a);
      }
      if Stale(c, id) {
        c := LetGo(Unlink(c, id), id);
        stop, target, removed, ret := false, 0, 1, None;
      } else if a.lru == HOT || a.lru == WARM {
        stop, target, removed := ExamineWarm(id, a);
        ret := None;
      } else if a.lru == COLD {
        target, removed, ret := ExamineCold(id, a);
        stop := true;
      } else {
        stop, target, removed, ret := true, 0, 0, None;
        assert Finish(c, id, 0, a) == Part(c, id, a) by { FinishHere(c, id, a); }
      }
    }

    method ExamineWarm(id: nat, a: PullArgs) returns (stop: bool, target: nat, removed: nat)
      requires Shape(c) && id in c.heads && PullOk(a)
      modifies this
      ensures Shape(c) && target <= TEMP && (stop ==> id in c.heads)
      ensures VisitWarm(old(c), id, a) == Visit(if stop then Finish(c, id, target, a) else c, stop, removed, None)
    {
      hide LetGo, Part, LinkQ, UnlinkQ, InRange, Move, Finish, Touch, Limit, Age;
      Listed(c, id);
      if c.uses[id].active {
        Touched(c, id, c.uses[id].(active := false));
        c := Touch(c, id, c.uses[id].(active := false));
        removed := 1;
        if a.lru == WARM {
          c := LetGo(Move(c, id, ListOf(c, id)), id);
          stop, target := false, 0;
        } else {
          FinishMoved(c, id, WARM, a);
          stop, target := true, WARM;
          c := UnlinkQ(c, id);
        }
      } else if c.bytes[PullList(a)] > Limit(c.settings, a) || Age(c.now, c.uses[id].time) > a.maxAge {
        FinishMoved(c, id, COLD, a);
        stop, target, removed := true, COLD, 1;
        c := UnlinkQ(c, id);
      } else {
        FinishHere(c, id, a);
        stop, target, removed := true, 0, 0;
      }
    }

    method ExamineCold(id: nat, a: PullArgs) returns (target: nat, removed: nat, ret: Option<nat>)
      requires Shape(c) && id in c.heads && id in Unlink(c, id).heads
      modifies this
      ensures Shape(c) && target <= TEMP && id in c.heads
      ensures VisitCold(old(c), id, a) == Visit(Finish(c, id, target, a), true, removed, ret)
    {
      hide Unlink, LetGo, Part, LinkQ, UnlinkQ, InRange, Move, Finish;
      target, removed, ret := 0, 0, None;
      FinishHere(c, id, a);
      FinishHere(Unlink(c, id), id, a);
      if a.evict {
        if c.settings.evictToFree {
          c := Unlink(c, id);
          removed := 1;
        }
      } else if a.returnItem {
        ret := Some(id);
      } else if c.uses[id].active && c.settings.segmented {
        c := Touch(c, id, c.uses[id].(active := false));
        FinishMoved(c, id, WARM, a);
        target, removed := WARM, 1;
        c := UnlinkQ(c, id);
      }
    }

    /** The loop of the tail pull. */
    method PullTheTail(a: PullArgs) returns (removed: nat, ret: Option<nat>)
      requires Inv(c) && Shape(c) && PullOk(a)
      modifies this
      ensures Inv(c) && var p := PullTail(old(c), a); p.c == c && p.removed == removed && p.ret == ret
      ensures var f := Foretold(old(c), a); Told(old(c), a, Pulled(c, removed, ret, f.stopped), f)
    {
      hide Inv, VisitHeld, VisitItem, Above, Rank, Grab, Finish, InRange, PullMeets, ItemMeets, PullLoop, Foretold,
        Told;
      ghost var first := c;
      ghost var all := PullTail(c, a);
      assert Inv(all.c) by { PullTailKeeps(first, a); PulledInv(first, a, all); }
      ghost var f := Foretold(c, a);
      assert Told(first, a, all, f) && all.stopped == f.stopped by {
        PullPlaces(first, a);
        ToldStops(first, a, all, f);
      }
      removed, ret := 0, None;
      if a.cls == 0 {
        return;
      }
      var l := PullList(a);
      var search := Tail(c.lists[l]);
      var tries: nat := TRIES;
      while tries > 0 && search.Some?
        invariant Inv(c) && Shape(c) && ret == None
        invariant search.Some? ==> search.value in c.lists[l]
        invariant all == PullLoop(c, a, search, tries, removed)
        decreases tries, Rank(c.lists[l], search)
      {
        // the item may be relinked below, so what stands above it is read now
        var next := Above(c.lists[l], search.value);
        AboveInList(c.lists[l], search.value);
        AboveIsCloser(c.lists[l], search.value);
        LoopOnce(c, a, search.value, tries, removed);
        if search.value.Crawler? {
          if a.crawlBlocks {
            removed := 0;
            return;
          }
        } else {
          var id := search.value.id;
          if id !in a.busy && id !in c.locks {
            VisitReady(c, id, a);
            ghost var here := c;
            c := Grab(c, id);
            var stop, target, count, out := Examine(id, a);
            removed := removed + count;
            if stop {
              ret := out;
              c := Finish(c, id, target, a);
              return;
            }
            WalkGoesOn(here, id, a, VisitItem(here, id, a));
          }
          tries := tries - 1;
        }
        search := next;
      }
      LoopEnd(c, a, search, tries, removed);
    }
  }

  lemma LoopEnd(c: Cache, a: PullArgs, search: Option<Elem>, tries: nat, removed: nat)
    requires Shape(c) && PullOk(a) && (tries == 0 || search.None?)
    ensures PullLoop(c, a, search, tries, removed) == Pulled(c, removed, None, None)
  {
  }

  /** One turn of the loop. */
  lemma LoopOnce(c: Cache, a: PullArgs, e: Elem, tries: nat, removed: nat)
    requires Shape(c) && PullOk(a) && tries > 0
    ensures var next := Above(c.lists[PullList(a)], e);
      PullLoop(c, a, Some(e), tries, removed) ==
        if e.Crawler? then
          if a.crawlBlocks then Pulled(c, 0, None, None) else PullLoop(c, a, next, tries, removed)
        else if e.id in a.busy || e.id in c.locks then
          PullLoop(c, a, next, tries - 1, removed)
        else
          var v := VisitItem(c, e.id, a);
          if v.stop then Pulled(v.c, removed + v.removed, v.ret, Some(e.id))
          else PullLoop(v.c, a, next, tries - 1, removed + v.removed)
  {
    hide VisitItem, Above;
  }

  /** After the lookup a store has its item and the one found, or a free key. */
  lemma StoreReady(c: Cache, id: nat)
    requires Inv(c) && id in c.held && id in c.places && !c.places[id].linked
    ensures Shape(c) && id in c.heads
    ensures var (m, found) := Get(c, c.heads[id].key);
      && Shape(m) && id in m.heads && !m.places[id].linked
      && (found.Some? ==> Paired(m, id, found.value))
  {
    hide Core, RefsInv, Follows, Dead, Get;
    InvRows(c);
    GetKeeps(c, c.heads[id].key);
    var (m, found) := Get(c, c.heads[id].key);
    InvRows(m);
  }

  lemma FinishHere(c: Cache, id: nat, a: PullArgs)
    requires Shape(c) && id in c.heads
    ensures Finish(c, id, 0, a) == Part(c, id, a)
  {
  }

  /** Taking an item off its list now and putting it on another later is a move. */
  lemma FinishMoved(c: Cache, id: nat, target: nat, a: PullArgs)
    requires Shape(c) && id in c.heads && 0 < target <= TEMP
    ensures UnlinkQ(c, id).heads == c.heads
    ensures Finish(UnlinkQ(c, id), id, target, a) == Part(Move(c, id, SubList(c, id, target)), id, a)
  {
    hide Part, LinkQ;
  }

  lemma PulledInv(c: Cache, a: PullArgs, p: Pulled)
    requires PullMeets(c, a, p, TRIES)
    ensures Inv(p.c)
  {
    hide Inv;
  }

  /** An item of the list the walk can lock is alive, and stays so through its visit. */
  lemma VisitReady(c: Cache, id: nat, a: PullArgs)
    requires Inv(c) && Shape(c) && PullOk(a) && Entry(id) in c.lists[PullList(a)] && id !in c.locks
    ensures id in c.heads && id in Grab(c, id).heads && id in Unlink(Grab(c, id), id).heads
    ensures ItemMeets(c, id, a, VisitItem(c, id, a)) && VisitItem(c, id, a) == VisitHeld(Grab(c, id), id, a)
  {
    hide Inv, Calm, Unlink, VisitHeld;
    VisitItemMeets(c, id, a);
    GrabVisiting(c, id, a);
    UnlinkKeeps(Grab(c, id), id);
  }
}
