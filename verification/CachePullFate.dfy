/** What a whole tail pull does to the cache, read off the list as it stands at the call. */
module CachePullFate {
  import opened Sums
  import opened CacheModel
  import opened CacheInvariant
  import opened CacheProof
  import opened CacheOps
  import opened CachePull
  import opened CachePullProof
  import opened CachePullWalk
  import opened CachePullPlaces

  // ---------------------------------------------------------------- foretelling the walk

  /** The items that expire, those that go back to the head, the one the walk ends on, and whether a
      crawler's marker turns it away. */
  datatype Fate = Fate(gone: seq<nat>, back: seq<nat>, stopped: Option<nat>, blocked: bool)

  /** The walk up the list from position p: again says that an item put back waits beyond the head. */
  ghost function Fated(
    c: Cache, a: PullArgs, list: seq<Elem>, p: nat, tries: nat, again: bool, gone: seq<nat>, back: seq<nat>): Fate
    requires p <= |list| && (again ==> back != [])
    decreases p
  {
    if tries == 0 then Fate(gone, back, None, false)
    else if p == 0 then Fate(gone, back, if again then Some(back[0]) else None, false)
    else if list[p - 1].Crawler? then
      if a.crawlBlocks then Fate(gone, back, None, true) else Fated(c, a, list, p - 1, tries, again, gone, back)
    else
      var id := list[p - 1].id;
      if !Lockable(c, a, list[p - 1]) then Fated(c, a, list, p - 1, tries - 1, again, gone, back)
      else if Stale(c, id) then Fated(c, a, list, p - 1, tries - 1, again, gone + [id], back)
      else if a.lru == WARM && c.uses[id].active then
        Fated(c, a, list, p - 1, tries - 1, again || p > 1, gone, back + [id])
      else Fate(gone, back, Some(id), false)
  }

  ghost function Foretold(c: Cache, a: PullArgs): Fate
    requires PullList(a) < |c.lists|
  {
    var list := c.lists[PullList(a)];
    if a.cls == 0 then Fate([], [], None, false) else Fated(c, a, list, |list|, 5, false, [], [])
  }

  // ---------------------------------------------------------------- what the walk has done so far

  ghost function Ids(s: seq<nat>): set<nat> { set x | x in s }

  /** Items put back one after the other, the last one foremost. */
  ghost function Foremost(back: seq<nat>): (s: seq<Elem>)
    ensures |s| == |back| && forall k :: 0 <= k < |s| ==> s[k] == Entry(back[|back| - 1 - k])
  {
    if back == [] then [] else [Entry(back[|back| - 1])] + Foremost(back[..|back| - 1])
  }

  /** The list without some of its items, the others in the order they had. */
  ghost function Rest(list: seq<Elem>, out: set<nat>): seq<Elem> {
    if list == [] then []
    else (if list[0].Entry? && list[0].id in out then [] else [list[0]]) + Rest(list[1..], out)
  }

  ghost function Taken(heads: map<nat, Head>, gone: seq<nat>): int {
    if gone == [] then 0
    else
      var id := gone[|gone| - 1];
      Taken(heads, gone[..|gone| - 1]) + if id in heads then heads[id].ntotal else 0
  }

  ghost function ListLeft(list: seq<Elem>, gone: seq<nat>, back: seq<nat>): seq<Elem> {
    Foremost(back) + Rest(list, Ids(gone) + Ids(back))
  }

  ghost predicate UsesLeft(was: map<nat, Use>, now: map<nat, Use>, cleared: set<nat>) {
    forall x :: x in was && x in now ==> now[x] == if x in cleared then was[x].(active := false) else was[x]
  }

  ghost predicate PlacesLeft(was: map<nat, Place>, now: map<nat, Place>, gone: set<nat>) {
    forall x :: x in was && x in now ==> now[x] == if x in gone then was[x].(linked := false) else was[x]
  }

  ghost predicate Walked(c: Cache, r: Cache, a: PullArgs, gone: seq<nat>, back: seq<nat>)
    requires |c.lists| == LISTS && |c.bytes| == LISTS && |r.bytes| == LISTS && PullOk(a)
  {
    && r.lists == c.lists[PullList(a) := ListLeft(c.lists[PullList(a)], gone, back)]
    && UsesLeft(c.uses, r.uses, Ids(back)) && PlacesLeft(c.places, r.places, Ids(gone))
    && r.bytes[PullList(a)] == c.bytes[PullList(a)] - Taken(c.heads, gone)
  }

  lemma {:induction false} WithoutBehind(s: seq<Elem>, t: seq<Elem>, e: Elem)
    requires e !in s
    ensures Without(s + t, e) == s + Without(t, e)
  {
    if s == [] {
      assert s + t == t && s + Without(t, e) == Without(t, e);
    } else {
      assert (s + t)[1..] == s[1..] + t;
      WithoutBehind(s[1..], t, e);
      assert [s[0]] + (s[1..] + Without(t, e)) == s + Without(t, e);
    }
  }

  lemma {:induction false} RestMember(list: seq<Elem>, out: set<nat>, e: Elem)
    ensures e in Rest(list, out) <==> e in list && !(e.Entry? && e.id in out)
  {
    if list != [] {
      RestMember(list[1..], out, e);
    }
  }

  lemma {:induction false} WithoutRest(list: seq<Elem>, out: set<nat>, id: nat)
    requires NoDup(list)
    ensures Without(Rest(list, out), Entry(id)) == Rest(list, out + {id})
  {
    if list != [] {
      WithoutRest(list[1..], out, id);
      var rest := Rest(list[1..], out);
      if list[0] == Entry(id) {
        RestMember(list[1..], out, Entry(id));
        WithoutAbsent(rest, Entry(id));
        assert [] + rest == rest && ([Entry(id)] + rest)[1..] == rest;
      } else if !(list[0].Entry? && list[0].id in out) {
        assert ([list[0]] + rest)[1..] == rest;
      } else {
        assert [] + rest == rest;
      }
    }
  }

  lemma {:induction false} RestAll(list: seq<Elem>)
    ensures Rest(list, {}) == list
  {
    if list != [] {
      RestAll(list[1..]);
    }
  }

  lemma ForemostFirst(back: seq<nat>, id: nat)
    ensures Foremost(back + [id]) == [Entry(id)] + Foremost(back)
  {
    assert (back + [id])[..|back|] == back;
  }

  lemma TakenLast(heads: map<nat, Head>, gone: seq<nat>, id: nat)
    requires id in heads
    ensures Taken(heads, gone + [id]) == Taken(heads, gone) + heads[id].ntotal
  {
    assert (gone + [id])[..|gone|] == gone;
  }

  lemma ListLeftWithout(list: seq<Elem>, gone: seq<nat>, back: seq<nat>, id: nat)
    requires NoDup(list) && id !in back
    ensures Without(ListLeft(list, gone, back), Entry(id)) == ListLeft(list, gone + [id], back)
    ensures [Entry(id)] + Without(ListLeft(list, gone, back), Entry(id)) == ListLeft(list, gone, back + [id])
  {
    var out := Ids(gone) + Ids(back);
    WithoutBehind(Foremost(back), Rest(list, out), Entry(id));
    WithoutRest(list, out, id);
    ForemostFirst(back, id);
    assert Ids(gone + [id]) + Ids(back) == out + {id};
    assert Ids(gone) + Ids(back + [id]) == out + {id};
    var rest := Rest(list, out + {id});
    assert [Entry(id)] + (Foremost(back) + rest) == [Entry(id)] + Foremost(back) + rest;
  }

  // ---------------------------------------------------------------- one more visit of the walk

  /** A state the walk has come to: nobody else has touched the cache. */
  ghost predicate Amid(c: Cache, r: Cache, a: PullArgs, gone: seq<nat>, back: seq<nat>) {
    && Inv(c) && Inv(r) && Shape(c) && Shape(r) && PullOk(a) && Calm(c, r) && r.locks == c.locks
    && Walked(c, r, a, gone, back) && forall x :: x in back ==> x in c.heads
  }

  lemma Survives(c: Cache, r: Cache, x: nat)
    requires Inv(c) && Calm(c, r) && x in c.heads && x in r.heads
    ensures r.heads[x] == c.heads[x] && r.settings == c.settings && r.now == c.now
  {
    hide TableInv, ListsInv, SizesInv, BytesInv, TotalInv, CountInv, PublishedInv, LinkedLabelled, IssuedInv, RefsInv;
  }

  /** Nothing comes back once it is gone. */
  lemma Throughout(c: Cache, m: Cache, r: Cache)
    requires Inv(c) && Calm(c, m) && Calm(m, r)
    ensures forall x :: x in c.heads && x in r.heads ==> x in m.heads
  {
    hide TableInv, ListsInv, SizesInv, BytesInv, TotalInv, CountInv, PublishedInv, LinkedLabelled, IssuedInv, RefsInv;
  }

  ghost predicate Between<A, B, C>(c: map<nat, A>, m: map<nat, B>, r: map<nat, C>) {
    forall x :: x in c && x in r ==> x in m
  }

  lemma UsesThen(c: map<nat, Use>, m: map<nat, Use>, r: map<nat, Use>, back: seq<nat>, id: nat, clears: bool)
    requires Between(c, m, r) && UsesLeft(c, m, Ids(back)) && UsesMoved(m, r, id, clears)
    ensures UsesLeft(c, r, if clears then Ids(back) + {id} else Ids(back))
  {
  }

  lemma PlacesThen(
    c: map<nat, Place>, m: map<nat, Place>, r: map<nat, Place>, a: PullArgs, gone: seq<nat>, id: nat, course: Course)
    requires Between(c, m, r) && PlacesLeft(c, m, Ids(gone)) && PlacesMoved(m, r, id, a, course)
    requires course.Leaves? || course.Returns?
    ensures PlacesLeft(c, r, if course.Leaves? then Ids(gone) + {id} else Ids(gone))
  {
  }

  /** An expired item is gone; an active one of the WARM list stands at its head. */
  lemma WalkedOn(c: Cache, m: Cache, r: Cache, a: PullArgs, gone: seq<nat>, back: seq<nat>, id: nat, course: Course)
    requires Amid(c, m, a, gone, back) && Inv(r) && Shape(r) && Calm(m, r) && r.locks == m.locks
    requires id in c.heads && id in m.heads && id !in back && (course.Leaves? || course.Returns?)
    requires Fared(m, r, a, id, course) && Lightens(m, r, a, id, course)
    ensures course.Leaves? ==> Amid(c, r, a, gone + [id], back)
    ensures course.Returns? ==> Amid(c, r, a, gone, back + [id])
  {
    hide Inv, InRange, Calm, ListLeft, UsesLeft, PlacesLeft, UsesMoved, PlacesMoved, Without, Ids, Taken;
    var list := c.lists[PullList(a)];
    assert Calm(c, r) by { CalmCore(c); CalmThen(c, m, r); }
    Throughout(c, m, r);
    Survives(c, m, id);
    assert NoDup(list) by { KnownEntry(c, PullList(a), Entry(id)); }
    ListLeftWithout(list, gone, back, id);
    TakenLast(c.heads, gone, id);
    UsesThen(c.uses, m.uses, r.uses, back, id, Clears(course));
    PlacesThen(c.places, m.places, r.places, a, gone, id, course);
    IdsLast(gone, id);
    IdsLast(back, id);
  }

  lemma IdsLast(s: seq<nat>, id: nat)
    ensures Ids(s + [id]) == Ids(s) + {id}
  {
  }

  // ---------------------------------------------------------------- the item the walk ends on

  /** What becomes of it: an item the walk has put back itself has lost its mark, and what has expired
      no longer weighs on the list. */
  ghost function LastCourse(c: Cache, a: PullArgs, f: Fate): Course
    requires |c.bytes| == LISTS && PullOk(a)
  {
    if f.stopped.Some? && f.stopped.value in c.uses then
      var u := c.uses[f.stopped.value];
      Fares(c, a, u.active && f.stopped.value !in f.back, u.time, c.bytes[PullList(a)] - Taken(c.heads, f.gone))
    else Stays
  }

  ghost predicate PlacesSettled(was: map<nat, Place>, now: map<nat, Place>, a: PullArgs, f: Fate, course: Course) {
    forall x :: x in was && x in now ==>
      now[x] == if x in f.gone then was[x].(linked := false)
                else if f.stopped == Some(x) then PlaceAfter(was[x], a, course) else was[x]
  }

  ghost predicate Settled(c: Cache, r: Cache, a: PullArgs, f: Fate, course: Course)
    requires |c.lists| == LISTS && PullOk(a)
  {
    var left := c.lists[PullList(a) := ListLeft(c.lists[PullList(a)], f.gone, f.back)];
    && r.lists == (if f.stopped.Some? then ListsAfter(left, a, f.stopped.value, course) else left)
    && UsesLeft(c.uses, r.uses, Ids(f.back) + if f.stopped.Some? && Clears(course) then {f.stopped.value} else {})
    && PlacesSettled(c.places, r.places, a, f, course)
  }

  ghost predicate Told(c: Cache, a: PullArgs, p: Pulled, f: Fate)
    requires |c.lists| == LISTS && |c.bytes| == LISTS && PullOk(a)
  {
    var course := LastCourse(c, a, f);
    && p.stopped == f.stopped && Settled(c, p.c, a, f, course)
    && p.removed == (if f.blocked then 0 else |f.gone| + |f.back| + if course.Stays? then 0 else 1)
    && (f.stopped.Some? ==>
          var id := f.stopped.value;
          id in c.uses && id in c.places && id !in f.gone && c.places[id] == Place(true, PullList(a)))
  }

  lemma ToldStops(c: Cache, a: PullArgs, p: Pulled, f: Fate)
    requires |c.lists| == LISTS && |c.bytes| == LISTS && PullOk(a) && Told(c, a, p, f)
    ensures p.stopped == f.stopped
  {
  }

  /** The walk ends without an item. */
  lemma NoneTold(c: Cache, r: Cache, a: PullArgs, gone: seq<nat>, back: seq<nat>, blocked: bool)
    requires Amid(c, r, a, gone, back)
    ensures Told(c, a, Pulled(r, if blocked then 0 else |gone| + |back|, None, None), Fate(gone, back, None, blocked))
  {
    hide Inv, InRange, Calm, ListLeft, Ids;
    assert forall x :: x in Ids(gone) <==> x in gone by { IdsIs(gone); }
    assert Ids(back) + {} == Ids(back);
  }

  lemma IdsIs(s: seq<nat>)
    ensures forall x :: x in Ids(s) <==> x in s
  {
  }

  lemma PlacesLast(
    c: map<nat, Place>, m: map<nat, Place>, r: map<nat, Place>, a: PullArgs, f: Fate, id: nat, course: Course)
    requires Between(c, m, r) && PlacesLeft(c, m, Ids(f.gone)) && PlacesMoved(m, r, id, a, course)
    requires f.stopped == Some(id) && id !in f.gone
    ensures PlacesSettled(c, r, a, f, course)
  {
    hide PlaceAfter;
  }

  lemma SameCourse(c: Cache, m: Cache, a: PullArgs, gone: seq<nat>, back: seq<nat>, id: nat)
    requires Amid(c, m, a, gone, back) && id in c.heads && id in m.heads && !Stale(m, id)
    ensures CourseOf(m, id, a) == LastCourse(c, a, Fate(gone, back, Some(id), false))
  {
    hide Inv, InRange, Stale, Fares, ListLeft, PlacesLeft;
    assert m.now == c.now && m.settings == c.settings by { hide Calm; Survives(c, m, id); }
    assert m.uses[id].time == c.uses[id].time && m.uses[id].active == (c.uses[id].active && id !in back);
    FaresSame(c, m, a, m.uses[id].active, m.uses[id].time, m.bytes[PullList(a)]);
  }

  lemma FaresSame(c: Cache, m: Cache, a: PullArgs, active: bool, time: nat, left: int)
    requires m.now == c.now && m.settings == c.settings
    ensures Fares(m, a, active, time, left) == Fares(c, a, active, time, left)
  {
  }

  lemma LastTold(c: Cache, m: Cache, v: Visit, a: PullArgs, gone: seq<nat>, back: seq<nat>, id: nat)
    requires Amid(c, m, a, gone, back) && Shape(v.c) && Calm(m, v.c)
    requires id in c.heads && id in m.heads && id !in gone && !Stale(m, id) && c.places[id] == Place(true, PullList(a))
    requires var course := CourseOf(m, id, a);
      Fared(m, v.c, a, id, course) && Lightens(m, v.c, a, id, course) && v.removed == if course.Stays? then 0 else 1
    ensures Told(c, a, Pulled(v.c, |gone| + |back| + v.removed, v.ret, Some(id)), Fate(gone, back, Some(id), false))
  {
    hide Inv, InRange, Calm, ListLeft, ListsAfter, UsesLeft, PlacesLeft, UsesMoved, PlacesMoved, Ids, Taken, Stale,
      CourseOf, LastCourse, PlacesSettled;
    var f := Fate(gone, back, Some(id), false);
    var course := CourseOf(m, id, a);
    SameCourse(c, m, a, gone, back, id);
    Throughout(c, m, v.c);
    UsesThen(c.uses, m.uses, v.c.uses, back, id, Clears(course));
    PlacesLast(c.places, m.places, v.c.places, a, f, id, course);
    assert Ids(back) + {} == Ids(back);
  }

  // ---------------------------------------------------------------- the whole walk

  /** What the walk finds at position p of the list as it was. */
  lemma Finds(c: Cache, m: Cache, a: PullArgs, gone: seq<nat>, back: seq<nat>, p: nat, again: bool, id: nat)
    requires Amid(c, m, a, gone, back) && OnWalk(c, m, a, |back|, p, again) && 0 < p
    requires c.lists[PullList(a)][p - 1] == Entry(id)
    ensures id in c.heads && id in m.heads && id !in back && id !in gone && Entry(id) in m.lists[PullList(a)]
    ensures m.uses[id] == c.uses[id] && Stale(m, id) == Stale(c, id)
    ensures Lockable(m, a, Entry(id)) == Lockable(c, a, Entry(id)) == (id !in a.busy && id !in m.locks)
  {
    hide Inv, InRange, Calm, Stale, Halts, Relinks, Rest, Taken, PlacesLeft;
    var l := PullList(a);
    var cur := m.lists[l];
    assert cur[|back| + (p - 1)] == c.lists[l][p - 1];
    KnownEntry(c, l, Entry(id));
    KnownEntry(m, l, Entry(id));
    forall k | 0 <= k < |back|
      ensures back[k] != id
    {
      assert cur[|back| - 1 - k] == Entry(back[k]);
    }
    SameStale(c, m, id);
    StillLinked(c, m, a, gone, back, id);
  }

  lemma StillLinked(c: Cache, m: Cache, a: PullArgs, gone: seq<nat>, back: seq<nat>, id: nat)
    requires Amid(c, m, a, gone, back) && Entry(id) in m.lists[PullList(a)] && id in c.heads && id in m.heads
    ensures id !in gone && c.places[id] == Place(true, PullList(a))
  {
    hide Inv, InRange, Calm, ListLeft, UsesLeft, Taken;
    ListNoDup(m, PullList(a));
  }

  /** Beyond the head it finds the first item it put back. */
  lemma FindsBack(c: Cache, m: Cache, a: PullArgs, gone: seq<nat>, back: seq<nat>)
    requires Amid(c, m, a, gone, back) && OnWalk(c, m, a, |back|, 0, true)
    ensures back != [] && m.lists[PullList(a)][|back| - 1] == Entry(back[0])
    ensures var id := back[0]; id in c.heads && id in m.heads && id !in gone && Entry(id) in m.lists[PullList(a)]
    ensures back[0] !in a.busy && back[0] !in m.locks && Halts(m, a, Entry(back[0])) && !Stale(m, back[0])
  {
    hide Inv, InRange, Calm, Stale, Relinks, Rest, Taken, PlacesLeft;
    var l, id := PullList(a), back[0];
    assert Halts(m, a, m.lists[l][|back| - 1]);
    KnownEntry(m, l, Entry(id));
    StillLinked(c, m, a, gone, back, id);
  }

  lemma Begin(c: Cache, a: PullArgs)
    requires Inv(c) && Shape(c) && PullOk(a)
    ensures Amid(c, c, a, [], [])
  {
    hide Core, RefsInv, Follows, InRange;
    GoodSelf(c);
    var list := c.lists[PullList(a)];
    RestAll(list);
    assert Ids([]) + Ids([]) == {} && [] + list == list;
    assert c.lists[PullList(a) := list] == c.lists;
  }

  lemma Start(c: Cache, a: PullArgs)
    requires PullList(a) < |c.lists|
    ensures OnWalk(c, c, a, 0, |c.lists[PullList(a)]|, false)
  {
  }

  lemma VisitEnds(c: Cache, m: Cache, a: PullArgs, gone: seq<nat>, back: seq<nat>, id: nat)
    requires Amid(c, m, a, gone, back) && id in c.heads && id in m.heads && id !in gone
    requires Entry(id) in m.lists[PullList(a)] && Halts(m, a, Entry(id)) && !Stale(m, id)
    ensures var v := VisitItem(m, id, a);
      v.stop && Told(c, a, Pulled(v.c, |gone| + |back| + v.removed, v.ret, Some(id)), Fate(gone, back, Some(id), false))
  {
    hide Inv, InRange, Calm, VisitItem, Walked, Told, Stale, GoesOn, CourseOf, Fared, Lightens, Takes;
    StillLinked(c, m, a, gone, back, id);
    VisitItemMeets(m, id, a);
    VisitFares(m, id, a);
    LastTold(c, m, VisitItem(m, id, a), a, gone, back, id);
  }

  /** A visit after which the walk goes on. */
  lemma VisitOn(c: Cache, m: Cache, a: PullArgs, gone: seq<nat>, back: seq<nat>, id: nat)
    requires Amid(c, m, a, gone, back) && id in c.heads && id in m.heads && id !in back
    requires Entry(id) in m.lists[PullList(a)] && Lockable(m, a, Entry(id)) && GoesOn(m, id, a)
    ensures var v := VisitItem(m, id, a);
      && !v.stop && v.removed == 1 && GoneOn(m, a, id, v.c)
      && if Stale(m, id) then Amid(c, v.c, a, gone + [id], back) else Amid(c, v.c, a, gone, back + [id])
  {
    hide Inv, InRange, Calm, VisitItem, Walked, Stale, Fared, Lightens, ListAfter, Crowded;
    VisitGoesOn(m, a, id);
    VisitFares(m, id, a);
    WalkedOn(c, m, VisitItem(m, id, a).c, a, gone, back, id, CourseOf(m, id, a));
  }

  /** It then stands one position further up. */
  ghost predicate Further(
    c: Cache, m: Cache, v: Visit, a: PullArgs, p: nat, again: bool, gone: seq<nat>, back: seq<nat>, id: nat)
    requires PullList(a) < |c.lists| && PullList(a) < |m.lists| && PullList(a) < |v.c.lists|
  {
    && !v.stop && v.removed == 1 && Amid(c, v.c, a, gone, back) && OnWalk(c, v.c, a, |back|, p, again)
    && Above(m.lists[PullList(a)], Entry(id)) == Upcoming(v.c.lists[PullList(a)], |back|, p, again)
  }

  lemma WalkStep(c: Cache, m: Cache, a: PullArgs, p: nat, again: bool, gone: seq<nat>, back: seq<nat>, id: nat)
    requires Amid(c, m, a, gone, back) && OnWalk(c, m, a, |back|, p, again) && 0 < p
    requires c.lists[PullList(a)][p - 1] == Entry(id) && Lockable(c, a, Entry(id)) && GoesOn(c, id, a)
    ensures id in m.heads && id !in m.locks && id !in a.busy
    ensures var v := VisitItem(m, id, a);
      if Stale(c, id) then Further(c, m, v, a, p - 1, again, gone + [id], back, id)
      else Further(c, m, v, a, p - 1, again || p > 1, gone, back + [id], id)
  {
    hide Inv, InRange, Calm, VisitItem, Above, OnWalk, Walked, Stale, GoneOn;
    Finds(c, m, a, gone, back, p, again, id);
    VisitOn(c, m, a, gone, back, id);
    WalkOn(c, m, VisitItem(m, id, a).c, a, |back|, p, again, id);
  }

  /** The walk at an item. */
  lemma WalkItem(
    c: Cache, m: Cache, a: PullArgs, p: nat, again: bool, tries: nat, gone: seq<nat>, back: seq<nat>, id: nat)
    requires Amid(c, m, a, gone, back) && OnWalk(c, m, a, |back|, p, again)
    requires 0 < p && 0 < tries && c.lists[PullList(a)][p - 1] == Entry(id)
    ensures Told(
      c, a, PullLoop(m, a, Upcoming(m.lists[PullList(a)], |back|, p, again), tries, |gone| + |back|),
      Fated(c, a, c.lists[PullList(a)], p, tries, again, gone, back))
    decreases p, 0
  {
    hide Inv, InRange, Calm, VisitItem, Above, Halts, OnWalk, Rank, Walked, Told, Stale, GoneOn, Lockable, Relinks;
    var list, cur := c.lists[PullList(a)], m.lists[PullList(a)];
    OnWalkFacts(c, m, a, |back|, p, again);
    Finds(c, m, a, gone, back, p, again, id);
    AboveIsCloser(cur, Entry(id));
    if id in a.busy || id in m.locks {
      WalkSkips(c, m, a, |back|, p, again);
      WalkFate(c, m, a, p - 1, again, tries - 1, gone, back);
    } else if GoesOn(c, id, a) {
      WalkStep(c, m, a, p, again, gone, back, id);
      var v := VisitItem(m, id, a);
      if Stale(c, id) {
        WalkFate(c, v.c, a, p - 1, again, tries - 1, gone + [id], back);
      } else {
        WalkFate(c, v.c, a, p - 1, again || p > 1, tries - 1, gone, back + [id]);
      }
    } else {
      assert Halts(m, a, Entry(id)) by { HaltsHere(m, a, id); }
      VisitEnds(c, m, a, gone, back, id);
    }
  }

  lemma HaltsHere(m: Cache, a: PullArgs, id: nat)
    requires Lockable(m, a, Entry(id))
    ensures Halts(m, a, Entry(id)) == !GoesOn(m, id, a)
  {
  }

  lemma {:induction false} WalkFate(
    c: Cache, m: Cache, a: PullArgs, p: nat, again: bool, tries: nat, gone: seq<nat>, back: seq<nat>)
    requires Amid(c, m, a, gone, back) && OnWalk(c, m, a, |back|, p, again)
    ensures Told(
      c, a, PullLoop(m, a, Upcoming(m.lists[PullList(a)], |back|, p, again), tries, |gone| + |back|),
      Fated(c, a, c.lists[PullList(a)], p, tries, again, gone, back))
    decreases p, 1
  {
    hide Inv, InRange, Calm, VisitItem, Above, Halts, Relinks, OnWalk, Rank, Walked, Told, Stale, GoneOn;
    var list, cur := c.lists[PullList(a)], m.lists[PullList(a)];
    OnWalkFacts(c, m, a, |back|, p, again);
    var search := Upcoming(cur, |back|, p, again);
    if tries == 0 || search.None? {
      NoneTold(c, m, a, gone, back, false);
    } else if p == 0 {
      AboveIsCloser(cur, search.value);
      FindsBack(c, m, a, gone, back);
      VisitEnds(c, m, a, gone, back, back[0]);
    } else if list[p - 1].Crawler? {
      AboveIsCloser(cur, search.value);
      if a.crawlBlocks {
        NoneTold(c, m, a, gone, back, true);
      } else {
        WalkSkips(c, m, a, |back|, p, again);
        WalkFate(c, m, a, p - 1, again, tries, gone, back);
      }
    } else {
      WalkItem(c, m, a, p, again, tries, gone, back, list[p - 1].id);
    }
  }

  /** Where a tail pull leaves every item, and what it answers, on the states before and after. */
  lemma PullPlaces(c: Cache, a: PullArgs)
    requires Inv(c) && PullOk(a)
    ensures Shape(c) && Told(c, a, PullTail(c, a), Foretold(c, a))
  {
    hide Inv, InRange, Calm, PullLoop, Fated, Told, OnWalk, Halts, Relinks;
    assert Shape(c) by { InvShape(c); }
    Begin(c, a);
    NoneTold(c, c, a, [], [], false);
    var list := c.lists[PullList(a)];
    assert OnWalk(c, c, a, 0, |list|, false) by { Start(c, a); }
    WalkFate(c, c, a, |list|, false, TRIES, [], []);
  }

  /** The item a pull stops on, if it is still there, is then found at the head of COLD when it was idle
      on HOT or WARM and the list was over its share or the item too old; at the head of WARM when it was
      active on HOT, or on COLD with nothing evicted or asked for; else where it was.  Every other item
      that is left is on the list it was on. */
  ghost predicate Placed(c: Cache, a: PullArgs, p: Pulled, f: Fate)
    requires |c.bytes| == LISTS && |p.c.lists| == LISTS && PullOk(a)
  {
    && (forall x :: x in c.places && x in p.c.places && p.stopped != Some(x) ==> p.c.places[x].list == c.places[x].list)
    && (p.stopped.Some? ==>
          var x := p.stopped.value;
          && x in c.places && x in c.uses && c.places[x].list == PullList(a)
          && (x in p.c.places ==>
                var active := c.uses[x].active && x !in f.back;
                var left := c.bytes[PullList(a)] - Taken(c.heads, f.gone);
                var full := if a.lru == HOT && a.totalBytes * c.settings.hotPercent >= 100
                  then 100 * left > a.totalBytes * c.settings.hotPercent
                  else 100 * left > a.totalBytes * c.settings.warmPercent;
                var aged := (c.now - c.uses[x].time) % 0x1_0000_0000 > a.maxAge;
                if (a.lru == HOT || a.lru == WARM) && !active && (full || aged) then
                  p.c.places[x].list == a.cls + COLD && [Entry(x)] <= p.c.lists[a.cls + COLD]
                else if active
                  && (a.lru == HOT || (a.lru == COLD && !a.evict && !a.returnItem && c.settings.segmented)) then
                  p.c.places[x].list == a.cls + WARM && [Entry(x)] <= p.c.lists[a.cls + WARM]
                else p.c.places[x].list == c.places[x].list))
  }

  lemma StoppedPlace(c: Cache, a: PullArgs)
    requires Inv(c) && PullOk(a)
    ensures Shape(c) && Placed(c, a, PullTail(c, a), Foretold(c, a))
  {
    hide Inv, InRange, PullTail, Foretold, Told, Placed;
    PullPlaces(c, a);
    ToldPlaced(c, a, PullTail(c, a), Foretold(c, a));
  }

  lemma ToldPlaced(c: Cache, a: PullArgs, p: Pulled, f: Fate)
    requires |c.lists| == LISTS && |c.bytes| == LISTS && |p.c.lists| == LISTS && PullOk(a) && Told(c, a, p, f)
    ensures Placed(c, a, p, f)
  {
    hide ListLeft, UsesLeft, Taken, Without, Ids;
  }
}
