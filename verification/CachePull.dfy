/** Pulling the tail of an LRU list: the loop that expires, demotes, promotes, evicts or hands out. */
module CachePull {
  import opened Sums
  import opened CacheModel
  import opened CacheOps

  const TRIES := 5

  datatype PullArgs = PullArgs(
    cls: nat, lru: nat, totalBytes: nat, evict: bool, returnItem: bool, crawlBlocks: bool, maxAge: nat,
    busy: set<nat>)   // items whose lock cannot be had

  ghost predicate PullOk(a: PullArgs) {
    a.cls < 64 && a.lru in {HOT, WARM, COLD, TEMP}
  }

  function PullList(a: PullArgs): nat { a.cls + a.lru }

  function Percent(total: nat, percent: nat): nat { total * percent / 100 }

  /** The size limit; a HOT limit of zero falls through to the WARM percentage. */
  function Limit(s: Settings, a: PullArgs): nat {
    var hot := if a.lru == HOT then Percent(a.totalBytes, s.hotPercent) else 0;
    if hot == 0 then Percent(a.totalBytes, s.warmPercent) else hot
  }

  /** Seconds since the last access, in 32-bit arithmetic. */
  function Age(now: nat, time: nat): nat { (now - time) % TWO32 }

  // ---------------------------------------------------------------- the walk up the list

  function Position(list: seq<Elem>, e: Elem): (p: nat)
    ensures p <= |list| && (p < |list| ==> list[p] == e)
    ensures forall i :: 0 <= i < p ==> list[i] != e
  {
    if list == [] || list[0] == e then 0 else 1 + Position(list[1..], e)
  }

  /** The element above e, towards the head. */
  function Above(list: seq<Elem>, e: Elem): Option<Elem> {
    var p := Position(list, e);
    if 0 < p < |list| then Some(list[p - 1]) else None
  }

  function Tail(list: seq<Elem>): Option<Elem> {
    if list == [] then None else Some(list[|list| - 1])
  }

  /** How far the walk still has to go. */
  function Rank(list: seq<Elem>, search: Option<Elem>): nat {
    if search.None? then 0 else 1 + Position(list, search.value)
  }

  lemma AboveIsCloser(list: seq<Elem>, e: Elem)
    ensures Rank(list, Above(list, e)) < Rank(list, Some(e))
  {
    var p := Position(list, e);
    if 0 < p < |list| {
      var up := list[p - 1];
      assert !(p - 1 < Position(list, up));
    }
  }

  // ---------------------------------------------------------------- one visit

  function Grab(c: Cache, id: nat): (r: Cache)
    requires Shape(c)
    ensures Shape(r)
  {
    Hold(c, id).(locks := c.locks + {id})
  }

  function LetGo(c: Cache, id: nat): (r: Cache)
    requires Shape(c)
    ensures Shape(r)
  {
    Release(c, id).(locks := c.locks - {id})
  }

  /** When the loop stops on an item, its lock and reference go back unless the caller wants an item. */
  function Part(c: Cache, id: nat, a: PullArgs): (r: Cache)
    requires Shape(c)
    ensures Shape(r)
  {
    if a.returnItem then c else LetGo(c, id)
  }

  /** What one visit decides: whether to stop, how much it removed, what it hands out. */
  datatype Visit = Visit(c: Cache, stop: bool, removed: nat, ret: Option<nat>)

  function SubList(c: Cache, id: nat, lru: nat): (l: nat)
    requires id in c.places && lru <= TEMP
    ensures l < LISTS
  {
    ClassOf(ListOf(c, id)) + lru
  }

  /** Visit one item of the list, which the walk has locked and taken a reference to. */
  function VisitHeld(c: Cache, id: nat, a: PullArgs): (v: Visit)
    requires Shape(c) && id in c.heads && PullOk(a)
    ensures Shape(v.c)
  {
    if Stale(c, id) then
      Visit(LetGo(Unlink(c, id), id), false, 1, None)
    else if a.lru == COLD then
      VisitCold(c, id, a)
    else if a.lru == TEMP then
      Visit(Part(c, id, a), true, 0, None)
    else
      VisitWarm(c, id, a)
  }

  /** HOT and WARM: an active item is promoted or kept, an idle one sinks to COLD when the list is
      over its limit or the item too old. */
  function VisitWarm(c: Cache, id: nat, a: PullArgs): (v: Visit)
    requires Shape(c) && id in c.heads && PullOk(a)
    ensures Shape(v.c)
  {
    var u := c.uses[id];
    if u.active then
      var c1 := Touch(c, id, u.(active := false));
      if a.lru == WARM then
        Visit(LetGo(Move(c1, id, ListOf(c, id)), id), false, 1, None)
      else
        Visit(Part(Move(c1, id, SubList(c, id, WARM)), id, a), true, 1, None)
    else if c.bytes[PullList(a)] > Limit(c.settings, a) || Age(c.now, u.time) > a.maxAge then
      Visit(Part(Move(c, id, SubList(c, id, COLD)), id, a), true, 1, None)
    else
      Visit(Part(c, id, a), true, 0, None)
  }

  /** On the COLD list every visit stops: evict, hand out, or promote. */
  function VisitCold(c: Cache, id: nat, a: PullArgs): (v: Visit)
    requires Shape(c) && id in c.heads
    ensures Shape(v.c)
  {
    var u := c.uses[id];
    if a.evict then
      if c.settings.evictToFree then Visit(Part(Unlink(c, id), id, a), true, 1, None)
      else Visit(Part(c, id, a), true, 0, None)
    else if a.returnItem then
      Visit(Part(c, id, a), true, 0, Some(id))
    else if u.active && c.settings.segmented then
      Visit(Part(Move(Touch(c, id, u.(active := false)), id, SubList(c, id, WARM)), id, a), true, 1, None)
    else
      Visit(Part(c, id, a), true, 0, None)
  }

  function VisitItem(c: Cache, id: nat, a: PullArgs): (v: Visit)
    requires Shape(c) && PullOk(a)
    ensures Shape(v.c)
  {
    var c1 := Grab(c, id);
    if id in c1.heads then VisitHeld(c1, id, a) else Visit(c1, true, 0, None)
  }

  // ---------------------------------------------------------------- the loop

  /** The state left, the count answered, the item handed out, and the item the walk stopped on. */
  datatype Pulled = Pulled(c: Cache, removed: nat, ret: Option<nat>, stopped: Option<nat>)

  function PullLoop(c: Cache, a: PullArgs, search: Option<Elem>, tries: nat, removed: nat): (p: Pulled)
    requires Shape(c) && PullOk(a)
    ensures Shape(p.c)
    decreases tries, Rank(c.lists[PullList(a)], search)
  {
    if tries == 0 || search.None? then
      Pulled(c, removed, None, None)
    else
      var next := Above(c.lists[PullList(a)], search.value);
      match search.value
      case Crawler =>
        AboveIsCloser(c.lists[PullList(a)], search.value);
        if a.crawlBlocks then Pulled(c, 0, None, None) else PullLoop(c, a, next, tries, removed)
      case Entry(id) =>
        if id in a.busy || id in c.locks then
          PullLoop(c, a, next, tries - 1, removed)
        else
          var v := VisitItem(c, id, a);
          if v.stop then Pulled(v.c, removed + v.removed, v.ret, Some(id))
          else PullLoop(v.c, a, next, tries - 1, removed + v.removed)
  }

  function PullTail(c: Cache, a: PullArgs): (p: Pulled)
    requires Shape(c) && PullOk(a)
    ensures Shape(p.c)
  {
    if a.cls == 0 then Pulled(c, 0, None, None)
    else PullLoop(c, a, Tail(c.lists[PullList(a)]), TRIES, 0)
  }
}
