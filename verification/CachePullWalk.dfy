/** Which tail pulls stop on an item: a condition on the cache and the arguments alone. */
module CachePullWalk {
  import opened Sums
  import opened CacheModel
  import opened CacheInvariant
  import opened CacheProof
  import opened CacheOps
  import opened CacheOpsProof
  import opened CachePull
  import opened CachePullProof

  /** The walk can lock the item. */
  ghost predicate Lockable(c: Cache, a: PullArgs, e: Elem) {
    e.Entry? && e.id !in a.busy && e.id !in c.locks && e.id in c.uses && e.id in c.cas
  }

  /** A visit of the item ends the walk. */
  ghost predicate Halts(c: Cache, a: PullArgs, e: Elem) {
    Lockable(c, a, e) && !GoesOn(c, e.id, a)
  }

  /** A visit puts the item back at the head of the list it came from, its mark cleared. */
  ghost predicate Relinks(c: Cache, a: PullArgs, e: Elem) {
    Lockable(c, a, e) && !Stale(c, e.id) && a.lru == WARM && c.uses[e.id].active
  }

  /** The items from position k up to p are at most `tries`, and no blocking marker is among them. */
  ghost predicate WithinReach(list: seq<Elem>, k: nat, p: nat, tries: nat, blocks: bool)
    requires k <= p <= |list|
  {
    Sum(list[k..p], One()) <= tries && (blocks ==> Crawler !in list[k..p])
  }

  /** A walk up from p ends on an item within reach. */
  ghost predicate MeetsHalt(c: Cache, a: PullArgs, list: seq<Elem>, p: nat, tries: nat)
    requires p <= |list|
  {
    exists k :: 0 <= k < p && Halts(c, a, list[k]) && WithinReach(list, k, p, tries, a.crawlBlocks)
  }

  /** A walk up from p passes the head with a try to spare. */
  ghost predicate PassesHead(a: PullArgs, list: seq<Elem>, p: nat, tries: nat)
    requires p <= |list|
  {
    0 < tries && WithinReach(list, 0, p, tries - 1, a.crawlBlocks)
  }

  /** An item is put back before the walk reads what stands above the head. */
  ghost predicate PutsBack(c: Cache, a: PullArgs, list: seq<Elem>, p: nat)
    requires p <= |list|
  {
    exists k :: 0 < k < p && Relinks(c, a, list[k])
  }

  /** The pull will stop on an item: one within reach of the tail, or, beyond the head, one it has
      put back itself. */
  ghost predicate Stops(c: Cache, a: PullArgs)
    requires PullList(a) < |c.lists|
  {
    var list := c.lists[PullList(a)];
    a.cls != 0
    && (MeetsHalt(c, a, list, |list|, TRIES) || (PassesHead(a, list, |list|, TRIES) && PutsBack(c, a, list, |list|)))
  }

  // ---------------------------------------------------------------- the walk on the list as it was

  /** The walk, having come up to position p with some tries left, ends on an item; again says that
      an item put back will be met beyond the head. */
  ghost predicate Ends(c: Cache, a: PullArgs, list: seq<Elem>, p: nat, tries: nat, again: bool)
    requires p <= |list|
  {
    && tries > 0
    && if p == 0 then again
       else if list[p - 1].Crawler? then !a.crawlBlocks && Ends(c, a, list, p - 1, tries, again)
       else || Halts(c, a, list[p - 1])
            || Ends(c, a, list, p - 1, tries - 1, again || (p > 1 && Relinks(c, a, list[p - 1])))
  }

  lemma ReachUp(list: seq<Elem>, k: nat, p: nat, tries: nat, blocks: bool)
    requires k < p <= |list|
    ensures WithinReach(list, k, p, tries, blocks) <==>
      if list[p - 1].Crawler? then !blocks && WithinReach(list, k, p - 1, tries, blocks)
      else tries > 0 && WithinReach(list, k, p - 1, tries - 1, blocks)
  {
    var above := list[k..p - 1];
    assert list[k..p] == above + [list[p - 1]] && (above + [list[p - 1]])[..|above|] == above;
    SumNonNegative(above, One());
  }

  lemma ReachHere(list: seq<Elem>, p: nat, tries: nat, blocks: bool)
    requires p <= |list|
    ensures WithinReach(list, p, p, tries, blocks)
  {
    assert list[p..p] == [];
  }

  lemma HaltUp(c: Cache, a: PullArgs, list: seq<Elem>, p: nat, tries: nat)
    requires 0 < p <= |list|
    ensures MeetsHalt(c, a, list, p, tries) <==>
      if list[p - 1].Crawler? then !a.crawlBlocks && MeetsHalt(c, a, list, p - 1, tries)
      else tries > 0 && (Halts(c, a, list[p - 1]) || MeetsHalt(c, a, list, p - 1, tries - 1))
  {
    hide GoesOn, WithinReach;
    forall k | 0 <= k < p
      ensures WithinReach(list, k, p, tries, a.crawlBlocks) <==>
        if list[p - 1].Crawler? then !a.crawlBlocks && WithinReach(list, k, p - 1, tries, a.crawlBlocks)
        else tries > 0 && WithinReach(list, k, p - 1, tries - 1, a.crawlBlocks)
    {
      ReachUp(list, k, p, tries, a.crawlBlocks);
    }
    if tries > 0 {
      ReachHere(list, p - 1, tries - 1, a.crawlBlocks);
    }
  }

  lemma HeadUp(a: PullArgs, list: seq<Elem>, p: nat, tries: nat)
    requires 0 < p <= |list| && tries > 0
    ensures PassesHead(a, list, p, tries) <==>
      if list[p - 1].Crawler? then !a.crawlBlocks && PassesHead(a, list, p - 1, tries)
      else PassesHead(a, list, p - 1, tries - 1)
  {
    hide WithinReach;
    ReachUp(list, 0, p, tries - 1, a.crawlBlocks);
  }

  lemma PutUp(c: Cache, a: PullArgs, list: seq<Elem>, p: nat)
    requires 0 < p <= |list|
    ensures PutsBack(c, a, list, p) <==> (p > 1 && Relinks(c, a, list[p - 1])) || PutsBack(c, a, list, p - 1)
  {
  }

  lemma {:induction false} EndsIff(c: Cache, a: PullArgs, list: seq<Elem>, p: nat, tries: nat, again: bool)
    requires p <= |list|
    ensures Ends(c, a, list, p, tries, again) <==>
      || MeetsHalt(c, a, list, p, tries)
      || (PassesHead(a, list, p, tries) && (again || PutsBack(c, a, list, p)))
  {
    hide WithinReach, MeetsHalt, PassesHead, PutsBack, GoesOn, Stale;
    if p == 0 {
      EndsAtHead(c, a, list, tries);
    } else {
      HaltUp(c, a, list, p, tries);
      if tries == 0 {
        NoTries(c, a, list, p);
      } else {
        HeadUp(a, list, p, tries);
        PutUp(c, a, list, p);
        if list[p - 1].Crawler? {
          EndsIff(c, a, list, p - 1, tries, again);
        } else {
          EndsIff(c, a, list, p - 1, tries - 1, again || (p > 1 && Relinks(c, a, list[p - 1])));
        }
      }
    }
  }

  lemma EndsAtHead(c: Cache, a: PullArgs, list: seq<Elem>, tries: nat)
    ensures !MeetsHalt(c, a, list, 0, tries) && !PutsBack(c, a, list, 0) && PassesHead(a, list, 0, tries) == (tries > 0)
  {
    if tries > 0 {
      ReachHere(list, 0, tries - 1, a.crawlBlocks);
    }
  }

  lemma {:induction false} NoTries(c: Cache, a: PullArgs, list: seq<Elem>, p: nat)
    requires p <= |list|
    ensures !MeetsHalt(c, a, list, p, 0) && !PassesHead(a, list, p, 0)
  {
    if p > 0 {
      NoTries(c, a, list, p - 1);
      HaltUp(c, a, list, p, 0);
    }
  }

  // ---------------------------------------------------------------- the list changes under the walk

  /** c1 is a state of the pull that began in c: the first p elements of the list stand behind q items
      that have been put back, and nothing the walk looks at has changed for them. */
  ghost predicate OnWalk(c: Cache, c1: Cache, a: PullArgs, q: nat, p: nat, again: bool)
    requires PullList(a) < |c.lists| && PullList(a) < |c1.lists|
  {
    var list, cur := c.lists[PullList(a)], c1.lists[PullList(a)];
    && p <= |list| && q + p <= |cur|
    && (again ==> q > 0) && (p > 0 && q > 0 ==> again)
    && (forall k :: 0 <= k < q ==> Halts(c1, a, cur[k]))
    && (forall k :: 0 <= k < p ==>
          && cur[q + k] == list[k] && Halts(c1, a, list[k]) == Halts(c, a, list[k])
          && Relinks(c1, a, list[k]) == Relinks(c, a, list[k]))
  }

  /** The element the walk looks at next. */
  ghost function Upcoming(cur: seq<Elem>, q: nat, p: nat, again: bool): Option<Elem>
    requires q + p <= |cur| && (again ==> q > 0)
  {
    if p > 0 then Some(cur[q + p - 1]) else if again then Some(cur[q - 1]) else None
  }

  lemma PositionAt(list: seq<Elem>, k: nat)
    requires NoDup(list) && k < |list|
    ensures Position(list, list[k]) == k
    ensures Above(list, list[k]) == if k > 0 then Some(list[k - 1]) else None
  {
  }

  /** Dropping references and leaving the list say nothing about other items. */
  ghost predicate OthersStay(c: Cache, r: Cache, id: nat) {
    && (forall x :: x in c.heads && x != id ==> x in r.heads)
    && (forall x :: x in c.uses && x in r.uses && x != id ==> r.uses[x] == c.uses[x])
  }

  lemma DropOthers(c: Cache, id: nat)
    requires Shape(c)
    ensures OthersStay(c, DropRef(c, id), id)
    ensures id in c.uses && id in DropRef(c, id).uses ==> DropRef(c, id).uses[id] == c.uses[id]
  {
    hide InRange;
  }

  lemma UnlinkOthers(c: Cache, id: nat)
    requires Shape(c)
    ensures OthersStay(c, Unlink(c, id), id)
  {
    hide InRange, DropRef, UnlinkQ;
    if id in c.heads && c.places[id].linked {
      RetractFrame(c, id);
      DropOthers(Retract(c, id), id);
    }
  }

  lemma LetGoOthers(c: Cache, id: nat)
    requires Shape(c)
    ensures OthersStay(c, LetGo(c, id), id)
    ensures id in c.uses && id in LetGo(c, id).uses ==> LetGo(c, id).uses[id] == c.uses[id]
  {
    hide InRange, DropRef;
    DropOthers(c.(held := c.held - multiset{id}), id);
  }

  lemma RelinkOthers(c: Cache, id: nat, u: Use)
    requires Shape(c) && id in c.heads
    ensures var r, l := Move(Touch(c, id, u), id, ListOf(c, id)), ListOf(c, id);
      && OthersStay(c, r, id) && id in r.uses && r.uses[id] == u && l < LISTS
      && r.lists[l] == [Entry(id)] + Without(c.lists[l], Entry(id))
  {
    hide InRange;
    assert ListOf(c, id) < LISTS by { PlaceInRange(c.places, id); }
  }

  lemma OthersThen(c: Cache, m: Cache, r: Cache, id: nat)
    requires Rows(c) && Rows(m) && Rows(r) && OthersStay(c, m, id) && OthersStay(m, r, id)
    ensures OthersStay(c, r, id)
  {
  }

  ghost predicate ListAfter(c: Cache, id: nat, a: PullArgs, r: Cache)
    requires Shape(c) && Shape(r) && PullOk(a) && id in c.heads
  {
    && OthersStay(c, r, id)
    && r.lists[PullList(a)]
       == (if Stale(c, id) then [] else [Entry(id)]) + Without(c.lists[PullList(a)], Entry(id))
    && (!Stale(c, id) && id in r.heads ==> !r.uses[id].active)
  }

  lemma ExpireList(c: Cache, id: nat, a: PullArgs)
    requires Visiting(c, id, a) && Stale(c, id)
    ensures ListAfter(c, id, a, LetGo(Unlink(c, id), id))
  {
    hide Inv, InRange, Unlink, LetGo, Stale, Calm, Leaves;
    UnlinkOthers(c, id);
    UnlinkLists(c, id);
    UnlinkLeaves(c, id, a);
    PartLeaves(c, Unlink(c, id), id, a, true);
    LetGoOthers(Unlink(c, id), id);
    OthersThen(c, Unlink(c, id), LetGo(Unlink(c, id), id), id);
    assert [] + Without(c.lists[PullList(a)], Entry(id)) == Without(c.lists[PullList(a)], Entry(id));
  }

  lemma RelinkAfter(c: Cache, id: nat, a: PullArgs)
    requires Visiting(c, id, a) && !Stale(c, id)
    ensures var m := Move(Touch(c, id, c.uses[id].(active := false)), id, ListOf(c, id));
      ListAfter(c, id, a, LetGo(m, id))
  {
    hide Inv, InRange, Move, Touch, LetGo, Stale, Calm, Leaves;
    var u := c.uses[id].(active := false);
    RelinkOthers(c, id, u);
    MoveLeaves(c, id, a, u, ListOf(c, id));
    var m := Move(Touch(c, id, u), id, ListOf(c, id));
    PartLeaves(c, m, id, a, false);
    LetGoOthers(m, id);
    OthersThen(c, m, LetGo(m, id), id);
  }

  /** What a visit that goes on does to the list and to the other items. */
  lemma VisitList(c: Cache, id: nat, a: PullArgs)
    requires Inv(c) && Shape(c) && PullOk(a) && Entry(id) in c.lists[PullList(a)] && id !in c.locks
    requires id in c.heads && GoesOn(c, id, a)
    ensures ListAfter(c, id, a, VisitItem(c, id, a).c)
  {
    hide Inv, InRange, Unlink, Move, Touch, LetGo, Stale, Calm, Grab, ListAfter, Leaves;
    GrabVisiting(c, id, a);
    var g := Grab(c, id);
    assert Stale(g, id) == Stale(c, id) by { SameStale(c, g, id); }
    if Stale(c, id) {
      ExpireList(g, id, a);
    } else {
      RelinkAfter(g, id, a);
    }
    GrabAfter(c, id, a, VisitItem(c, id, a).c);
  }

  lemma GrabAfter(c: Cache, id: nat, a: PullArgs, r: Cache)
    requires Shape(c) && Shape(r) && PullOk(a) && id in c.heads
    requires ListAfter(Grab(c, id), id, a, r)
    ensures ListAfter(c, id, a, r)
  {
    hide InRange;
  }

  // ---------------------------------------------------------------- the walk as it is

  lemma SameVerdict(c: Cache, r: Cache, a: PullArgs, e: Elem, id: nat)
    requires Shape(c) && Shape(r) && Calm(c, r) && OthersStay(c, r, id) && r.locks == c.locks && e != Entry(id)
    requires e.Entry? ==> e.id in c.heads
    ensures Halts(r, a, e) == Halts(c, a, e) && Relinks(r, a, e) == Relinks(c, a, e)
  {
    hide Calm, Stale, InRange;
    if e.Entry? {
      SameStale(c, r, e.id);
    }
  }

  lemma NowHalts(c: Cache, r: Cache, a: PullArgs, id: nat)
    requires Shape(c) && Shape(r) && PullOk(a) && id in c.heads && id in r.heads && Calm(c, r) && r.locks == c.locks
    requires Relinks(c, a, Entry(id)) && ListAfter(c, id, a, r)
    ensures Halts(r, a, Entry(id))
  {
    hide Calm, Stale, InRange;
    SameStale(c, r, id);
  }

  /** r is what a visit of an item that goes on leaves. */
  ghost predicate GoneOn(c: Cache, a: PullArgs, id: nat, r: Cache)
    requires Shape(c) && Shape(r) && PullOk(a) && id in c.heads
  {
    Inv(c) && Inv(r) && Calm(c, r) && r.locks == c.locks && ListAfter(c, id, a, r)
  }

  lemma KnownEntry(c: Cache, l: nat, e: Elem)
    requires Inv(c) && l < LISTS
    ensures l < |c.lists| && NoDup(c.lists[l])
    ensures e in c.lists[l] && e.Entry? ==> e.id in c.heads
  {
    hide Inv;
    ListNoDup(c, l);
    InvRows(c);
  }

  /** The list after the visit: what stood above the item still does, behind the item if it was put back. */
  lemma ListMoved(c: Cache, a: PullArgs, id: nat, r: Cache, pos: nat)
    requires Shape(c) && Shape(r) && PullOk(a) && id in c.heads && GoneOn(c, a, id, r)
    requires pos < |c.lists[PullList(a)]| && c.lists[PullList(a)][pos] == Entry(id)
    requires Lockable(c, a, Entry(id)) && !Halts(c, a, Entry(id))
    ensures var cur, next := c.lists[PullList(a)], r.lists[PullList(a)];
      var d := if Relinks(c, a, Entry(id)) then 1 else 0;
      && |next| == |cur| - 1 + d && Above(cur, Entry(id)) == (if pos > 0 then Some(cur[pos - 1]) else None)
      && (forall k :: 0 <= k < pos ==>
            && next[k + d] == cur[k] && cur[k] != Entry(id)
            && Halts(r, a, cur[k]) == Halts(c, a, cur[k]) && Relinks(r, a, cur[k]) == Relinks(c, a, cur[k]))
      && (d == 1 ==> Halts(r, a, next[0]))
  {
    hide Inv, Calm, Stale, InRange, OthersStay, Halts, Relinks, Above;
    var l := PullList(a);
    var cur, next := c.lists[l], r.lists[l];
    KnownEntry(c, l, Entry(id));
    WithoutAt(cur, pos);
    PositionAt(cur, pos);
    assert Relinks(c, a, Entry(id)) == !Stale(c, id) by { OnOrGone(c, a, id); }
    if Relinks(c, a, Entry(id)) {
      assert next[0] == Entry(id);
      KnownEntry(r, l, Entry(id));
      NowHalts(c, r, a, id);
    }
    forall k | 0 <= k < pos
      ensures cur[k] != Entry(id)
      ensures Halts(r, a, cur[k]) == Halts(c, a, cur[k]) && Relinks(r, a, cur[k]) == Relinks(c, a, cur[k])
    {
      KnownEntry(c, l, cur[k]);
      SameVerdict(c, r, a, cur[k], id);
    }
  }

  lemma OnOrGone(c: Cache, a: PullArgs, id: nat)
    requires Lockable(c, a, Entry(id)) && !Halts(c, a, Entry(id))
    ensures Relinks(c, a, Entry(id)) == !Stale(c, id)
  {
    hide Stale;
  }

  /** After a visit that goes on the walk is one position further up. */
  lemma WalkOn(c: Cache, c1: Cache, c2: Cache, a: PullArgs, q: nat, p: nat, again: bool, id: nat)
    requires Shape(c) && Shape(c1) && Shape(c2) && PullOk(a) && OnWalk(c, c1, a, q, p, again) && 0 < p
    requires id in c1.heads && GoneOn(c1, a, id, c2) && c.lists[PullList(a)][p - 1] == Entry(id)
    requires Lockable(c1, a, Entry(id)) && !Halts(c1, a, Entry(id))
    ensures var on := Relinks(c, a, Entry(id));
      var q', again' := if on then q + 1 else q, again || (p > 1 && on);
      && OnWalk(c, c2, a, q', p - 1, again')
      && Above(c1.lists[PullList(a)], Entry(id)) == Upcoming(c2.lists[PullList(a)], q', p - 1, again')
  {
    hide Inv, GoneOn, InRange, Halts, Relinks, Above, Lockable;
    var cur, next := c1.lists[PullList(a)], c2.lists[PullList(a)];
    var pos := q + p - 1;
    assert cur[q + (p - 1)] == Entry(id);
    ListMoved(c1, a, id, c2, pos);
    var d := if Relinks(c, a, Entry(id)) then 1 else 0;
    forall k | 0 <= k < q + d
      ensures Halts(c2, a, next[k])
    {
      if k >= d {
        assert next[(k - d) + d] == cur[k - d];
      }
    }
    forall k | 0 <= k < p - 1
      ensures next[q + d + k] == c.lists[PullList(a)][k]
    {
      assert next[(q + k) + d] == cur[q + k];
    }
  }

  lemma VisitGoesOn(c: Cache, a: PullArgs, id: nat)
    requires Inv(c) && Shape(c) && PullOk(a) && Entry(id) in c.lists[PullList(a)] && Lockable(c, a, Entry(id))
    ensures id in c.heads
    ensures var v := VisitItem(c, id, a);
      v.stop == Halts(c, a, Entry(id)) && (!v.stop ==> GoneOn(c, a, id, v.c) && Inv(v.c))
  {
    hide Inv, Calm, Stale, InRange, VisitItem, ListAfter;
    VisitItemMeets(c, id, a);
    CalmInv(c, VisitItem(c, id, a).c);
    if GoesOn(c, id, a) {
      VisitList(c, id, a);
    }
  }

  /** The walk through a list that changes under it ends as the list at the call foretells. */
  lemma {:induction false} WalkEnds(
    c: Cache, c1: Cache, a: PullArgs, q: nat, p: nat, again: bool, tries: nat, removed: nat)
    requires Inv(c1) && Shape(c) && Shape(c1) && PullOk(a) && OnWalk(c, c1, a, q, p, again)
    ensures PullLoop(c1, a, Upcoming(c1.lists[PullList(a)], q, p, again), tries, removed).stopped.Some?
      <==> Ends(c, a, c.lists[PullList(a)], p, tries, again)
    decreases p
  {
    hide Inv, InRange, VisitItem, GoneOn, Above, Halts, Relinks, OnWalk, Rank;
    var list, cur := c.lists[PullList(a)], c1.lists[PullList(a)];
    OnWalkFacts(c, c1, a, q, p, again);
    var search := Upcoming(cur, q, p, again);
    if tries > 0 && search.Some? {
      AboveIsCloser(cur, search.value);
      if p == 0 {
        VisitGoesOn(c1, a, search.value.id);
      } else if list[p - 1].Crawler? {
        if !a.crawlBlocks {
          WalkSkips(c, c1, a, q, p, again);
          WalkEnds(c, c1, a, q, p - 1, again, tries, removed);
        }
      } else {
        var id := list[p - 1].id;
        if id in a.busy || id in c1.locks {
          WalkSkips(c, c1, a, q, p, again);
          WalkEnds(c, c1, a, q, p - 1, again, tries - 1, removed);
        } else {
          VisitGoesOn(c1, a, id);
          var v := VisitItem(c1, id, a);
          if !v.stop {
            WalkOn(c, c1, v.c, a, q, p, again, id);
            var on := Relinks(c, a, list[p - 1]);
            WalkEnds(c, v.c, a, if on then q + 1 else q, p - 1, again || (p > 1 && on), tries - 1, removed + v.removed);
          }
        }
      }
    }
  }

  lemma OnWalkFacts(c: Cache, c1: Cache, a: PullArgs, q: nat, p: nat, again: bool)
    requires Inv(c1) && Shape(c) && Shape(c1) && PullOk(a) && OnWalk(c, c1, a, q, p, again)
    ensures var list, cur := c.lists[PullList(a)], c1.lists[PullList(a)];
      && p <= |list| && q + p <= |cur| && (again ==> q > 0)
      && (p == 0 && again ==> Halts(c1, a, cur[q - 1]) && Lockable(c1, a, cur[q - 1]))
      && (p > 0 ==>
            && cur[q + p - 1] == list[p - 1] && Halts(c1, a, list[p - 1]) == Halts(c, a, list[p - 1])
            && (list[p - 1].Entry? ==> list[p - 1].id in c1.heads)
            && (list[p - 1].Entry? && list[p - 1].id !in a.busy && list[p - 1].id !in c1.locks ==>
                  Lockable(c1, a, list[p - 1])))
  {
    hide Inv, GoesOn, Stale, InRange;
    var l := PullList(a);
    if p > 0 {
      assert c1.lists[l][q + (p - 1)] == c.lists[l][p - 1];
      KnownEntry(c1, l, c.lists[l][p - 1]);
    }
  }

  /** The walk passes an element without touching it. */
  lemma WalkSkips(c: Cache, c1: Cache, a: PullArgs, q: nat, p: nat, again: bool)
    requires Inv(c1) && Shape(c) && Shape(c1) && PullOk(a) && OnWalk(c, c1, a, q, p, again) && 0 < p
    requires !Lockable(c1, a, c.lists[PullList(a)][p - 1])
    ensures OnWalk(c, c1, a, q, p - 1, again)
    ensures var e := c.lists[PullList(a)][p - 1]; !Halts(c, a, e) && !Relinks(c, a, e)
    ensures Above(c1.lists[PullList(a)], c.lists[PullList(a)][p - 1])
      == Upcoming(c1.lists[PullList(a)], q, p - 1, again)
  {
    hide Inv, GoesOn, Stale, InRange, Lockable, Above;
    var cur := c1.lists[PullList(a)];
    assert cur[q + (p - 1)] == c.lists[PullList(a)][p - 1];
    KnownEntry(c1, PullList(a), Crawler);
    PositionAt(cur, q + p - 1);
  }

  /** A pull stops on an item exactly when the cache and the arguments say so beforehand. */
  lemma StopsExactly(c: Cache, a: PullArgs)
    requires Inv(c) && PullOk(a)
    ensures Shape(c)
    ensures PullTail(c, a).stopped.Some? <==> Stops(c, a)
  {
    hide Inv, PullLoop, Ends, Halts, Relinks, MeetsHalt, PassesHead, PutsBack;
    assert Shape(c) by { InvShape(c); }
    var list := c.lists[PullList(a)];
    WalkEnds(c, c, a, 0, |list|, false, TRIES, 0);
    EndsIff(c, a, list, |list|, TRIES, false);
  }

  /** The call balances its locks and references, up to the pair it hands over, exactly unless it is
      asked to return an item while it evicts or works on a list other than COLD, and will stop on one. */
  lemma PullBalance(c: Cache, a: PullArgs)
    requires Inv(c) && PullOk(a)
    ensures Shape(c)
    ensures var p := PullTail(c, a);
      (if p.ret.Some? then p.c.held == c.held + multiset{p.ret.value} && p.c.locks == c.locks + {p.ret.value}
       else p.c.held == c.held && p.c.locks == c.locks)
        <==> !(a.returnItem && (a.evict || a.lru != COLD) && Stops(c, a))
  {
    hide Inv, Calm, PullTail, LosesOnly, Stops;
    PullTailKeeps(c, a);
    StopsExactly(c, a);
    var p := PullTail(c, a);
    if a.returnItem && p.stopped.Some? && (a.evict || a.lru != COLD) {
      assert p.stopped.value in p.c.locks;
    }
  }
}
