/** Where a tail pull leaves the items: which expire, which go back to the head of WARM, and on which
    list the one it stops on ends up. */
module CachePullPlaces {
  import opened Sums
  import opened CacheModel
  import opened CacheInvariant
  import opened CacheProof
  import opened CacheOps
  import opened CacheOpsProof
  import opened CacheHits
  import opened CachePull
  import opened CachePullProof
  import opened CachePullWalk

  // ---------------------------------------------------------------- what happens to one item

  /** It stays where it is, leaves the cache, sinks to COLD, rises to WARM with its mark cleared, or goes
      back to the head of its own list with its mark cleared. */
  datatype Course = Stays | Leaves | Sinks | Rises | Returns

  /** The list holds more than its share of all bytes: the configured percentage, and the WARM one for a
      HOT list whose own comes to nothing. */
  ghost predicate Crowded(s: Settings, a: PullArgs, left: int) {
    if a.lru == HOT && a.totalBytes * s.hotPercent >= 100 then 100 * left > a.totalBytes * s.hotPercent
    else 100 * left > a.totalBytes * s.warmPercent
  }

  /** What a visit does to an item that is not stale: active tells whether its mark is set, left what
      the list holds. */
  ghost function Fares(c: Cache, a: PullArgs, active: bool, time: nat, left: int): Course {
    if a.lru == COLD then
      if a.evict then if c.settings.evictToFree then Leaves else Stays
      else if active && !a.returnItem && c.settings.segmented then Rises
      else Stays
    else if a.lru == TEMP then Stays
    else if active then if a.lru == HOT then Rises else Returns
    else if Crowded(c.settings, a, left) || (c.now - time) % 0x1_0000_0000 > a.maxAge then Sinks
    else Stays
  }

  ghost function CourseOf(c: Cache, id: nat, a: PullArgs): Course
    requires Shape(c) && id in c.heads && PullOk(a)
  {
    if Stale(c, id) then Leaves else Fares(c, a, c.uses[id].active, c.uses[id].time, c.bytes[PullList(a)])
  }

  ghost function ListsAfter(lists: seq<seq<Elem>>, a: PullArgs, id: nat, course: Course): seq<seq<Elem>>
    requires |lists| == LISTS && PullOk(a)
  {
    var off := Without(lists[PullList(a)], Entry(id));
    match course
    case Stays => lists
    case Leaves => lists[PullList(a) := off]
    case Sinks => lists[PullList(a) := off][a.cls + COLD := [Entry(id)] + lists[a.cls + COLD]]
    case Rises => lists[PullList(a) := off][a.cls + WARM := [Entry(id)] + lists[a.cls + WARM]]
    case Returns => lists[PullList(a) := [Entry(id)] + off]
  }

  ghost function PlaceAfter(p: Place, a: PullArgs, course: Course): Place {
    match course
    case Stays => p
    case Leaves => p.(linked := false)
    case Sinks => p.(list := a.cls + COLD)
    case Rises => p.(list := a.cls + WARM)
    case Returns => p
  }

  ghost predicate Clears(course: Course) { course.Rises? || course.Returns? }

  ghost predicate UsesMoved(was: map<nat, Use>, now: map<nat, Use>, id: nat, clears: bool) {
    forall x :: x in was && x in now ==>
      now[x] == if x == id && clears then was[x].(active := false) else was[x]
  }

  ghost predicate PlacesMoved(was: map<nat, Place>, now: map<nat, Place>, id: nat, a: PullArgs, course: Course) {
    forall x :: x in was && x in now ==> now[x] == if x == id then PlaceAfter(was[x], a, course) else was[x]
  }

  /** From c to r item id took its course, and nothing moved besides. */
  ghost predicate Fared(c: Cache, r: Cache, a: PullArgs, id: nat, course: Course)
    requires |c.lists| == LISTS && PullOk(a)
  {
    && r.lists == ListsAfter(c.lists, a, id, course)
    && UsesMoved(c.uses, r.uses, id, Clears(course)) && PlacesMoved(c.places, r.places, id, a, course)
  }

  /** What a course takes off the bytes of the list. */
  ghost predicate Lightens(c: Cache, r: Cache, a: PullArgs, id: nat, course: Course)
    requires |c.bytes| == LISTS && |r.bytes| == LISTS && PullOk(a) && id in c.heads
  {
    r.bytes[PullList(a)]
      == c.bytes[PullList(a)] - if course.Leaves? || course.Sinks? || course.Rises? then c.heads[id].ntotal else 0
  }

  lemma LetGoQuiet(c: Cache, id: nat)
    requires Shape(c)
    ensures Quiet(c, LetGo(c, id))
  {
    hide InRange, DropRef;
    DropQuiet(c.(held := c.held - multiset{id}), id);
  }

  lemma FaredQuiet(c: Cache, m: Cache, r: Cache, a: PullArgs, id: nat, course: Course)
    requires |c.lists| == LISTS && |c.bytes| == LISTS && |m.bytes| == LISTS && PullOk(a) && id in c.heads
    requires Fared(c, m, a, id, course) && Lightens(c, m, a, id, course) && Quiet(m, r)
    ensures |r.bytes| == LISTS && Fared(c, r, a, id, course) && Lightens(c, r, a, id, course)
  {
    hide ListsAfter, PlaceAfter, Clears;
  }

  lemma UnlinkFares(c: Cache, id: nat, a: PullArgs)
    requires Visiting(c, id, a)
    ensures Fared(c, Unlink(c, id), a, id, Leaves) && Lightens(c, Unlink(c, id), a, id, Leaves)
  {
    hide Inv, InRange, Rows, DropRef, Retract;
    UnlinkLists(c, id);
    RetractFrame(c, id);
    RetractBytes(c, id);
    var m := Retract(c, id);
    assert Unlink(c, id) == DropRef(m, id);
    DropQuiet(m, id);
    FaredQuiet(c, m, DropRef(m, id), a, id, Leaves);
  }

  lemma RetractBytes(c: Cache, id: nat)
    requires Shape(c) && id in c.heads
    ensures Retract(c, id).bytes == c.bytes[ListOf(c, id) := c.bytes[ListOf(c, id)] - c.heads[id].ntotal]
  {
    hide InRange;
  }

  /** Taking the item off its list and putting it on another, or back on the same one. */
  lemma MoveFares(c: Cache, id: nat, a: PullArgs, u: Use, course: Course)
    requires Visiting(c, id, a) && (course.Sinks? || course.Rises? || course.Returns?)
    requires u == if Clears(course) then c.uses[id].(active := false) else c.uses[id]
    requires PlaceAfter(c.places[id], a, course).list != PullList(a) || course.Returns?
    ensures var r := Move(Touch(c, id, u), id, PlaceAfter(c.places[id], a, course).list);
      Fared(c, r, a, id, course) && Lightens(c, r, a, id, course)
  {
    hide Inv, InRange, Move, Fared, Lightens, PlaceAfter, Clears;
    var to := PlaceAfter(c.places[id], a, course).list;
    var m := Touch(c, id, u);
    assert to < LISTS by { ToInRange(c.places[id], a, course); }
    MoveFrame(m, id, to);
    MoveLists(m, id, to);
    MoveIs(c, Move(m, id, to), id, a, u, course);
  }

  lemma ToInRange(p: Place, a: PullArgs, course: Course)
    requires PullOk(a) && p == Place(true, PullList(a))
    ensures PlaceAfter(p, a, course).list < LISTS
  {
  }

  lemma MoveIs(c: Cache, r: Cache, id: nat, a: PullArgs, u: Use, course: Course)
    requires |c.lists| == LISTS && |c.bytes| == LISTS && PullOk(a) && id in c.heads && id in c.uses && id in c.places
    requires c.places[id] == Place(true, PullList(a)) && (course.Sinks? || course.Rises? || course.Returns?)
    requires u == if Clears(course) then c.uses[id].(active := false) else c.uses[id]
    requires PlaceAfter(c.places[id], a, course).list != PullList(a) || course.Returns?
    requires r.uses == c.uses[id := u]
    requires var l, to := PullList(a), PlaceAfter(c.places[id], a, course).list;
      var off := c.lists[l := Without(c.lists[l], Entry(id))];
      var less := c.bytes[l := c.bytes[l] - c.heads[id].ntotal];
      && to < LISTS && r.places == c.places[id := c.places[id].(list := to)]
      && r.lists == off[to := [Entry(id)] + off[to]] && r.bytes == less[to := less[to] + c.heads[id].ntotal]
    ensures Fared(c, r, a, id, course) && Lightens(c, r, a, id, course)
  {
    hide Without;
  }

  /** What the code compares says the same. */
  lemma CrowdedIs(s: Settings, a: PullArgs, left: int)
    ensures left > Limit(s, a) <==> Crowded(s, a, left)
  {
    var hot, warm := a.totalBytes * s.hotPercent, a.totalBytes * s.warmPercent;
    assert left > hot / 100 <==> 100 * left > hot;
    assert left > warm / 100 <==> 100 * left > warm;
  }

  lemma StayFares(c: Cache, id: nat, a: PullArgs)
    requires Shape(c) && PullOk(a) && id in c.heads
    ensures Fared(c, c, a, id, Stays) && Lightens(c, c, a, id, Stays)
  {
    hide Shape;
    assert |c.lists| == LISTS && |c.bytes| == LISTS by { ShapeLists(c); }
  }

  lemma ShapeLists(c: Cache)
    requires Shape(c)
    ensures |c.lists| == LISTS && |c.bytes| == LISTS
  {
    hide Rows, InRange;
  }

  /** The course is not changed by letting go. */
  lemma PartFares(c: Cache, m: Cache, id: nat, a: PullArgs, course: Course)
    requires Shape(c) && Shape(m) && PullOk(a) && id in c.heads
    requires Fared(c, m, a, id, course) && Lightens(c, m, a, id, course)
    ensures Fared(c, Part(m, id, a), a, id, course) && Lightens(c, Part(m, id, a), a, id, course)
    ensures Fared(c, LetGo(m, id), a, id, course) && Lightens(c, LetGo(m, id), a, id, course)
  {
    hide Rows, InRange, LetGo, Fared, Lightens;
    LetGoQuiet(m, id);
    FaredQuiet(c, m, LetGo(m, id), a, id, course);
  }

  lemma ColdMoves(c: Cache, id: nat, a: PullArgs)
    requires Visiting(c, id, a) && a.lru == COLD
    ensures var r := Part(Move(Touch(c, id, c.uses[id].(active := false)), id, a.cls + WARM), id, a);
      Fared(c, r, a, id, Rises) && Lightens(c, r, a, id, Rises)
  {
    hide Inv, InRange, Fared, Lightens, Move, Touch, Part;
    var u := c.uses[id].(active := false);
    MoveFares(c, id, a, u, Rises);
    PartFares(c, Move(Touch(c, id, u), id, a.cls + WARM), id, a, Rises);
  }

  lemma ColdIs(c: Cache, id: nat, a: PullArgs)
    requires Visiting(c, id, a) && a.lru == COLD && !Stale(c, id)
    ensures var v, course := VisitCold(c, id, a), CourseOf(c, id, a);
      && v.removed == (if course.Stays? then 0 else 1)
      && ((course.Stays? && v.c == Part(c, id, a)) || (course.Leaves? && v.c == Part(Unlink(c, id), id, a))
          || (course.Rises?
              && v.c == Part(Move(Touch(c, id, c.uses[id].(active := false)), id, a.cls + WARM), id, a)))
  {
    hide Inv, InRange, Unlink, Move, Touch, Part, Stale;
    assert SubList(c, id, WARM) == a.cls + WARM;
  }

  lemma ColdFares(c: Cache, id: nat, a: PullArgs)
    requires Visiting(c, id, a) && a.lru == COLD && !Stale(c, id)
    ensures var v, course := VisitCold(c, id, a), CourseOf(c, id, a);
      Fared(c, v.c, a, id, course) && Lightens(c, v.c, a, id, course) && v.removed == if course.Stays? then 0 else 1
  {
    hide Inv, InRange, Fared, Lightens, Unlink, Move, Touch, Part, Stale, VisitCold, CourseOf;
    ColdIs(c, id, a);
    var course := CourseOf(c, id, a);
    if course.Stays? {
      StayFares(c, id, a);
      PartFares(c, c, id, a, Stays);
    } else if course.Leaves? {
      UnlinkFares(c, id, a);
      PartFares(c, Unlink(c, id), id, a, Leaves);
    } else {
      ColdMoves(c, id, a);
    }
  }

  lemma WarmFares(c: Cache, id: nat, a: PullArgs)
    requires Visiting(c, id, a) && (a.lru == HOT || a.lru == WARM) && !Stale(c, id)
    ensures var v, course := VisitWarm(c, id, a), CourseOf(c, id, a);
      Fared(c, v.c, a, id, course) && Lightens(c, v.c, a, id, course) && v.removed == if course.Stays? then 0 else 1
  {
    hide Inv, InRange, Fared, Lightens, Unlink, Move, Touch, Part, LetGo, Stale, Limit, Crowded;
    CrowdedIs(c.settings, a, c.bytes[PullList(a)]);
    StayFares(c, id, a);
    PartFares(c, c, id, a, Stays);
    WarmMoves(c, id, a);
    assert SubList(c, id, WARM) == a.cls + WARM && SubList(c, id, COLD) == a.cls + COLD;
  }

  lemma WarmMoves(c: Cache, id: nat, a: PullArgs)
    requires Visiting(c, id, a) && (a.lru == HOT || a.lru == WARM)
    ensures var u := c.uses[id].(active := false);
      && (a.lru == WARM ==>
            var r := LetGo(Move(Touch(c, id, u), id, ListOf(c, id)), id);
            Fared(c, r, a, id, Returns) && Lightens(c, r, a, id, Returns))
      && (a.lru == HOT ==>
            var r := Part(Move(Touch(c, id, u), id, a.cls + WARM), id, a);
            Fared(c, r, a, id, Rises) && Lightens(c, r, a, id, Rises))
    ensures var r := Part(Move(c, id, a.cls + COLD), id, a); Fared(c, r, a, id, Sinks) && Lightens(c, r, a, id, Sinks)
  {
    hide Inv, InRange, Fared, Lightens, Move, Touch, Part, LetGo;
    var u := c.uses[id].(active := false);
    if a.lru == WARM {
      MoveFares(c, id, a, u, Returns);
      PartFares(c, Move(Touch(c, id, u), id, ListOf(c, id)), id, a, Returns);
    } else {
      MoveFares(c, id, a, u, Rises);
      PartFares(c, Move(Touch(c, id, u), id, a.cls + WARM), id, a, Rises);
    }
    TouchSelf(c, id);
    MoveFares(c, id, a, c.uses[id], Sinks);
    PartFares(c, Move(c, id, a.cls + COLD), id, a, Sinks);
  }

  lemma HeldFares(c: Cache, id: nat, a: PullArgs)
    requires Visiting(c, id, a)
    ensures var v, course := VisitHeld(c, id, a), CourseOf(c, id, a);
      Fared(c, v.c, a, id, course) && Lightens(c, v.c, a, id, course) && v.removed == if course.Stays? then 0 else 1
  {
    hide Inv, InRange, Fared, Lightens, Unlink, Part, LetGo, Stale, VisitCold, VisitWarm;
    if Stale(c, id) {
      UnlinkFares(c, id, a);
      PartFares(c, Unlink(c, id), id, a, Leaves);
    } else if a.lru == COLD {
      ColdFares(c, id, a);
    } else if a.lru == TEMP {
      StayFares(c, id, a);
      PartFares(c, c, id, a, Stays);
    } else {
      WarmFares(c, id, a);
    }
  }

  /** One visit of the walk. */
  lemma VisitFares(c: Cache, id: nat, a: PullArgs)
    requires Inv(c) && Shape(c) && PullOk(a) && Entry(id) in c.lists[PullList(a)] && id !in c.locks && id in c.heads
    ensures var v, course := VisitItem(c, id, a), CourseOf(c, id, a);
      Fared(c, v.c, a, id, course) && Lightens(c, v.c, a, id, course) && v.removed == if course.Stays? then 0 else 1
  {
    hide Inv, InRange, Fared, Lightens, VisitHeld, Grab, Calm, Stale;
    GrabVisiting(c, id, a);
    var g := Grab(c, id);
    HeldFares(g, id, a);
    assert Stale(g, id) == Stale(c, id) by { SameStale(c, g, id); }
    GrabFares(c, g, VisitItem(c, id, a).c, id, a, CourseOf(c, id, a));
  }

  lemma GrabFares(c: Cache, g: Cache, r: Cache, id: nat, a: PullArgs, course: Course)
    requires Shape(c) && Shape(r) && PullOk(a) && id in c.heads
    requires g == c.(refs := g.refs, held := g.held, locks := g.locks)
    requires Fared(g, r, a, id, course) && Lightens(g, r, a, id, course)
    ensures Fared(c, r, a, id, course) && Lightens(c, r, a, id, course)
  {
    hide Rows, InRange;
  }
}
