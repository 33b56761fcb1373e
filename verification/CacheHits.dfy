/** What a lookup finds and what a hit does: expiry and flush times, the marks, the promotion. */
module CacheHits {
  import opened Sums
  import opened CacheModel
  import opened CacheInvariant
  import opened CacheProof
  import opened CacheOps
  import opened CacheOpsProof
  import opened CacheDelta
  import Decimal

  // ---------------------------------------------------------------- what a lookup finds

  /** An item a flush has outdated: last used up to the flush time, which has come, or linked under a
      CAS id given out before the flush. */
  ghost predicate Outdated(c: Cache, id: nat)
    requires id in c.uses && id in c.cas
  {
    0 < c.oldestLive <= c.now && (c.uses[id].time <= c.oldestLive || 0 < c.cas[id] < c.oldestCas)
  }

  /** A lookup finds a key's item exactly until its expiry second begins, unless a flush has outdated it. */
  lemma FoundExactly(c: Cache, key: Key)
    requires Inv(c)
    ensures Shape(c) && (key in c.table ==> c.table[key] in c.uses && c.table[key] in c.cas)
    ensures Get(c, key).1 ==
      if key in c.table && !Outdated(c, c.table[key])
        && (c.uses[c.table[key]].exptime == 0 || c.now < c.uses[c.table[key]].exptime)
      then Some(c.table[key]) else None
  {
    hide Inv, Get, Good, Hold, GuestsKept, SameBooks;
    InvRows(c);
    GetKeeps(c, key);
  }

  /** The crawler takes an item out exactly when nobody but the link refers to it and its expiry second
      is over or a flush has outdated it. */
  lemma CrawledExactly(c: Cache, id: nat)
    requires Inv(c) && id in c.heads && id in c.places && c.places[id].linked
    ensures Shape(c) && c.heads[id].key in c.table
    ensures c.heads[id].key !in Crawl(c, id).table <==>
      c.refs[id] == 1 && (Outdated(c, id) || 0 < c.uses[id].exptime < c.now)
  {
    hide Inv, Crawl, Good, SameBooks;
    InvRows(c);
    CrawlKeeps(c, id);
  }

  // ---------------------------------------------------------------- what a hit does

  /** An access moves the item: with segments, an active item of COLD; without, one whose access time is
      a minute old. */
  ghost predicate Promotes(c: Cache, id: nat)
    requires id in c.places && id in c.uses
  {
    && c.places[id].linked
    && if c.settings.segmented then 128 <= c.places[id].list < 192 && c.uses[id].active
       else c.uses[id].time < (c.now - 60) % 0x1_0000_0000
  }

  /** Off its list and at the head of another. */
  ghost predicate Headed(was: seq<seq<Elem>>, now: seq<seq<Elem>>, id: nat, from: nat, to: nat) {
    && from < |was| && to < |was|
    && var off := was[from := Without(was[from], Entry(id))];
       now == off[to := [Entry(id)] + off[to]]
  }

  ghost function Target(c: Cache, id: nat): int
    requires id in c.places
  {
    if c.settings.segmented then c.places[id].list - 64 else c.places[id].list
  }

  ghost function Accessed(c: Cache, id: nat): Use
    requires id in c.uses
  {
    c.uses[id].(time := c.now, active := c.uses[id].active && !c.settings.segmented)
  }

  lemma UpdateIs(c: Cache, id: nat)
    requires Shape(c) && id in c.heads && id in c.places && id in c.uses
    ensures if Promotes(c, id) then
        0 <= Target(c, id) < LISTS && Update(c, id) == Move(Touch(c, id, Accessed(c, id)), id, Target(c, id))
      else if c.settings.segmented && c.places[id].linked then
        Update(c, id) == c.(uses := c.uses[id := c.uses[id].(time := c.now)])
      else Update(c, id) == c
  {
    hide InRange, Move, Rows;
    assert c.places[id].list < LISTS by { PlaceInRange(c.places, id); }
    assert 128 <= c.places[id].list < 192 ==> c.places[id].list % 64 + 64 == c.places[id].list - 64;
  }

  /** With segments the item goes to the head of WARM of its class and loses its mark, without them to
      the head of its own list. */
  lemma UpdateDoes(c: Cache, id: nat)
    requires Shape(c) && id in c.heads && id in c.places && id in c.uses && Promotes(c, id)
    ensures var r, to := Update(c, id), if c.settings.segmented then c.places[id].list - 64 else c.places[id].list;
      && 0 <= to && Headed(c.lists, r.lists, id, c.places[id].list, to) && r.places == c.places[id := Place(true, to)]
      && r.uses == c.uses[id := c.uses[id].(time := c.now, active := c.uses[id].active && !c.settings.segmented)]
      && r == c.(lists := r.lists, places := r.places, uses := r.uses, sizes := r.sizes, bytes := r.bytes)
  {
    hide InRange, Move, Update, Rows;
    UpdateIs(c, id);
    var m := Touch(c, id, Accessed(c, id));
    MoveFrame(m, id, Target(c, id));
    MoveLists(m, id, Target(c, id));
  }

  /** Hits with segments on: the first sets FETCHED, the second ACTIVE, and further ones do nothing.  On
      COLD the second parks the item, with a reference, if the buffer takes it, and does nothing if not;
      on the other lists it only notes the time. */
  lemma BumpDoes(c: Cache, id: nat, w: nat, space: bool)
    requires Shape(c) && id in c.heads && id in c.places && id in c.uses && w < |c.bumps| && c.settings.segmented
    ensures var r, u := Bump(c, id, w, space), c.uses[id];
      if u.active then r == c
      else if !u.fetched then r == c.(uses := c.uses[id := u.(fetched := true)])
      else if !(128 <= c.places[id].list < 192) then r == c.(uses := c.uses[id := u.(active := true, time := c.now)])
      else if !space then r == c
      else
        && id in c.refs
        && r == c.(uses := c.uses[id := u.(active := true)], refs := c.refs[id := c.refs[id] + 1],
                   bumps := c.bumps[w := c.bumps[w] + [id]])
  {
    hide InRange, Update;
    assert c.places[id].list < LISTS by { PlaceInRange(c.places, id); }
    assert LruOf(c.places[id].list) == 128 <==> 128 <= c.places[id].list < 192;
  }

  /** The bump of a COLD item is served. */
  lemma DrainPromotes(c: Cache, id: nat, w: nat)
    requires Shape(c) && id in c.heads && id in c.places && id in c.uses && id in c.refs && w < |c.bumps|
    requires c.settings.segmented && Promotes(c, id) && c.bumps[w] == [id] && c.refs[id] > 1
    ensures var r, l := DrainOne(c, w), c.places[id].list;
      && Headed(c.lists, r.lists, id, l, l - 64) && r.places == c.places[id := Place(true, l - 64)]
      && r.uses == c.uses[id := c.uses[id].(time := c.now, active := false)]
      && r.bumps == c.bumps[w := []] && r.refs == c.refs[id := c.refs[id] - 1] && r.table == c.table
  {
    hide InRange, Update, Headed;
    UpdateDoes(c, id);
    assert [id][1..] == [];
  }

  ghost predicate HitTwice(c: Cache, r: Cache, id: nat, w: nat)
    requires id in c.uses && id in c.refs && w < |c.bumps|
  {
    r == c.(uses := c.uses[id := c.uses[id].(active := true, fetched := true)],
            refs := c.refs[id := c.refs[id] + 1], bumps := c.bumps[w := [id]])
  }

  lemma TwoHits(c: Cache, id: nat, w: nat)
    requires Shape(c) && id in c.heads && id in c.places && id in c.uses && id in c.refs && w < |c.bumps|
    requires c.settings.segmented && 128 <= c.places[id].list < 192
    requires !c.uses[id].active && !c.uses[id].fetched && c.bumps[w] == []
    ensures var once := Bump(c, id, w, true);
      && once == c.(uses := c.uses[id := c.uses[id].(fetched := true)])
      && HitTwice(c, Bump(once, id, w, true), id, w)
  {
    hide InRange, Bump;
    BumpDoes(c, id, w, true);
    var once := Bump(c, id, w, true);
    BumpDoes(once, id, w, true);
    assert [] + [id] == [id];
    var u, v := c.uses[id].(fetched := true), c.uses[id].(active := true, fetched := true);
    assert c.uses[id := u][id := v] == c.uses[id := v];
  }

  /** An item of COLD that is hit twice, its bump served: it heads WARM of its class, marked as fetched
      only and as used now, and its parked reference has been given back. */
  lemma TwoHitsPromote(c: Cache, id: nat, w: nat)
    requires Inv(c) && id in c.heads && id in c.places && id in c.uses && id in c.refs && w < |c.bumps|
    requires c.settings.segmented && c.places[id].linked && 128 <= c.places[id].list < 192
    requires !c.uses[id].active && !c.uses[id].fetched && c.bumps[w] == []
    ensures Shape(c)
    ensures var l, once := c.places[id].list, Bump(c, id, w, true);
      var twice := Bump(once, id, w, true);
      && once.lists == c.lists && once.bumps == c.bumps && once.refs == c.refs && HitTwice(c, twice, id, w)
      && var r := DrainOne(twice, w);
         && Headed(c.lists, r.lists, id, l, l - 64) && r.places == c.places[id := Place(true, l - 64)]
         && r.uses == c.uses[id := c.uses[id].(fetched := true, time := c.now)]
         && r.bumps == c.bumps && r.refs == c.refs && r.table == c.table
  {
    hide InRange, Inv, Bump, DrainOne, Headed;
    assert Shape(c) by { InvShape(c); }
    assert c.refs[id] > 0 by { RefPositive(c, id); }
    TwoHits(c, id, w);
    var twice := Bump(Bump(c, id, w, true), id, w, true);
    DrainPromotes(twice, id, w);
    Back(c.refs, id, c.refs[id] + 1);
    assert c.bumps[w := [id]][w := []] == c.bumps;
  }

  lemma Back(refs: map<nat, int>, id: nat, n: int)
    requires id in refs
    ensures refs[id := n][id := refs[id]] == refs
  {
  }

  // ---------------------------------------------------------------- when a stored item expires

  lemma LinkUse(c: Cache, id: nat)
    requires Shape(c) && id in c.heads && !c.places[id].linked
    ensures var r := Link(c, id);
      r.uses == c.uses[id := c.uses[id].(time := c.now)] && r.table == c.table[c.heads[id].key := id]
  {
    hide InRange, Publish, Stamp;
    LinkFrame(c, id);
    StampFrame(c, id);
    PublishUse(Stamp(c, id), id);
  }

  lemma PublishUse(c: Cache, id: nat)
    requires Shape(c) && id in c.heads
    ensures Publish(c, id).uses == c.uses[id := c.uses[id].(time := c.now)]
  {
    hide InRange, Rows;
  }

  /** Giving back a reference moves nothing. */
  ghost predicate Quiet(c: Cache, r: Cache) {
    && r.lists == c.lists && r.bytes == c.bytes && r.table == c.table && r.now == c.now
    && (forall x :: x in r.heads ==> x in c.heads && r.heads[x] == c.heads[x])
    && (forall x :: x in c.uses && x in r.uses ==> r.uses[x] == c.uses[x])
    && (forall x :: x in c.places && x in r.places ==> r.places[x] == c.places[x])
    && (forall x :: x in r.uses ==> x in c.uses) && (forall x :: x in r.places ==> x in c.places)
  }

  lemma DropQuiet(c: Cache, id: nat)
    requires Shape(c)
    ensures Quiet(c, DropRef(c, id))
  {
    hide InRange;
    if id in c.heads && c.refs[id] - 1 == 0 {
      FreeQuiet(c, id);
    }
  }

  lemma FreeQuiet(c: Cache, id: nat)
    requires Shape(c)
    ensures Quiet(c, Free(c, id))
  {
    hide Shape;
  }

  lemma ReleaseUse(c: Cache, id: nat)
    requires Shape(c)
    ensures Release(c, id).table == c.table
    ensures forall x :: x in Release(c, id).uses ==> x in c.uses && Release(c, id).uses[x] == c.uses[x]
  {
    hide InRange, DropRef;
    DropQuiet(c.(held := c.held - multiset{id}), id);
  }

  /** Item n stands under the key, accessed now and due at the time given. */
  ghost predicate Stands(r: Cache, key: Key, n: nat, now: nat, due: nat) {
    key in r.table && r.table[key] == n && n in r.uses && r.uses[n].time == now && r.uses[n].exptime == due
  }

  lemma SwapUse(c: Cache, was: nat, id: nat)
    requires Paired(c, id, was)
    ensures Shape(c) && id in c.uses && Stands(Swap(c, was, id), c.heads[id].key, id, c.now, c.uses[id].exptime)
  {
    hide Inv, InRange, Unlink, Link, Release, Good;
    InvRows(c);
    UnlinkFrame(c, was);
    var m := Unlink(c, was);
    LinkUse(m, id);
    SwapKeeps(c, was, id);
    assert id in Swap(c, was, id).uses by { GoodRows(c, Swap(c, was, id), id); }
    ReleaseUse(Link(m, id), was);
  }

  lemma GoodRows(c: Cache, r: Cache, id: nat)
    requires Good(c, r) && id in r.data
    ensures id in r.uses && id in r.heads
  {
    hide Core, RefsInv, Follows;
    InvShape(r);
  }

  /** The time an item stored by the command is due: that of the item stored, except that an append, a
      prepend and a store over a later version keep the time of the item they replace. */
  ghost function DueTime(c: Cache, id: nat, comm: Command, was: nat): nat
    requires id in c.uses && was in c.uses && id in c.cas && was in c.cas
  {
    if comm == AppendCmd || comm == PrependCmd || (comm == CasCmd && c.cas[id] != c.cas[was]) then c.uses[was].exptime
    else c.uses[id].exptime
  }

  lemma JoinUse(c: Cache, id: nat, was: nat, value: string, room: Room, exptime: nat)
    requires Paired(c, id, was) && room.list < LISTS
    ensures Shape(c)
    ensures var a := Alloc(c, c.heads[id].key, value, room.list, exptime, room.ntotal, 0);
      Stands(Release(Swap(a, was, c.nextId), c.nextId), c.heads[id].key, c.nextId, c.now, exptime)
  {
    hide Inv, InRange, Swap, Release, Good, Alloc, View, SameBooks;
    AllocPaired(c, id, was, value, room.list, exptime, room.ntotal);
    var a, f := Alloc(c, c.heads[id].key, value, room.list, exptime, room.ntotal, 0), c.nextId;
    AllocUse(c, c.heads[id].key, value, room, exptime);
    SwapUse(a, was, f);
    var b := Swap(a, was, f);
    JoinView(c, id, was, value, room.list, exptime, room.ntotal);
    var r := Release(b, f);
    ReleaseUse(b, f);
    assert f in r.uses by { GoodInv(c, r); TableUse(r, c.heads[id].key); }
  }

  lemma AllocUse(c: Cache, key: Key, value: string, room: Room, exptime: nat)
    requires Shape(c) && room.list < LISTS
    ensures var a := Alloc(c, key, value, room.list, exptime, room.ntotal, 0);
      c.nextId in a.uses && a.uses[c.nextId].exptime == exptime && a.now == c.now
  {
    hide InRange, Rows;
  }

  lemma GoodInv(c: Cache, r: Cache)
    requires Good(c, r)
    ensures Inv(r)
  {
    hide Inv;
  }

  lemma TableUse(r: Cache, key: Key)
    requires Inv(r) && key in r.table
    ensures r.table[key] in r.uses
  {
    hide Inv;
    InvRows(r);
  }

  ghost function StoredAs(c: Cache, id: nat, comm: Command): nat {
    if comm == AppendCmd || comm == PrependCmd then c.nextId else id
  }

  lemma OverUse(c: Cache, id: nat, was: nat, comm: Command, staleOk: bool, room: Option<Room>)
    requires Paired(c, id, was) && Shape(c) && RoomOk(room)
    ensures var (r, out) := StoreOver(c, id, was, comm, staleOk, room);
      out == Stored ==> Stands(r, c.heads[id].key, StoredAs(c, id, comm), c.now, DueTime(c, id, comm, was))
  {
    hide Inv, InRange, Swap, Release, Alloc, Update, Stands, Touch;
    if comm == AppendCmd || comm == PrependCmd {
      if room.Some? {
        JoinUse(c, id, was, Combined(comm, c.data[was], c.data[id]), room.value, c.uses[was].exptime);
      }
    } else {
      SwapUse(c, was, id);
      StaleUse(c, was, id);
    }
  }

  lemma StaleUse(c: Cache, was: nat, id: nat)
    requires Paired(c, id, was) && Shape(c)
    ensures var m := Touch(c, id, c.uses[id].(exptime := c.uses[was].exptime));
      Stands(Swap(m, was, id), c.heads[id].key, id, c.now, c.uses[was].exptime)
  {
    hide Inv, InRange, Swap, Good;
    var u := c.uses[id].(exptime := c.uses[was].exptime);
    TouchKeeps(c, id, u);
    var m := Touch(c, id, u);
    GoodInv(c, m);
    SwapUse(m, was, id);
  }

  lemma FoundUse(c: Cache, id: nat, comm: Command, staleOk: bool, room: Option<Room>)
    requires Inv(c) && RoomOk(room) && id in c.held && id in c.heads && id in c.places && !c.places[id].linked
    requires Live(c, c.heads[id].key)
    ensures Shape(c)
    ensures var was := c.table[c.heads[id].key];
      var m := Hold(c, was);
      && was in c.heads && was in m.heads && id in m.heads
      && var (r, out) := StoreOver(m, id, was, comm, staleOk, room);
         out == Stored ==> Stands(r, c.heads[id].key, StoredAs(c, id, comm), c.now, DueTime(c, id, comm, was))
  {
    hide Core, RefsInv, Follows, StoreOver, Dead, Stands;
    InvRows(c);
    var was := c.table[c.heads[id].key];
    HoldKeeps(c, was);
    OverUse(Hold(c, was), id, was, comm, staleOk, room);
  }

  /** Whatever command stores under a key, the item that then stands there counts as accessed now and
      expires when the command says. */
  lemma StoredExpires(c: Cache, id: nat, comm: Command, staleOk: bool, room: Option<Room>)
    requires Inv(c) && RoomOk(room) && id in c.held && id in c.places && !c.places[id].linked
    ensures id in c.heads && id in c.uses && id in c.cas && Shape(c)
    ensures var (r, out) := Store(c, id, comm, staleOk, room);
      var key := c.heads[id].key;
      out == Stored ==>
        Stands(r, key, StoredAs(c, id, comm), c.now,
          if Live(c, key) then DueTime(c, id, comm, c.table[key]) else c.uses[id].exptime)
  {
    hide Inv, Good, StoreOver, Link, Get, Hold, GuestsKept, SameBooks, Stands, Dead, DueTime;
    InvRows(c);
    var key := c.heads[id].key;
    GetKeeps(c, key);
    if Live(c, key) {
      FoundUse(c, id, comm, staleOk, room);
    } else {
      MissedUse(c, id);
    }
  }

  lemma MissedUse(c: Cache, id: nat)
    requires Inv(c) && id in c.held && id in c.heads && id in c.places && id in c.uses && !c.places[id].linked
    requires !Live(c, c.heads[id].key)
    ensures Shape(c)
    ensures var m := Get(c, c.heads[id].key).0;
      id in m.heads ==> Stands(Link(m, id), c.heads[id].key, id, c.now, c.uses[id].exptime)
  {
    hide Inv, InRange, Good, Link, Get, SameBooks;
    InvRows(c);
    var key := c.heads[id].key;
    GetKeeps(c, key);
    var m := Get(c, key).0;
    MissUse(c, key, id);
    if id in m.heads {
      LinkUse(m, id);
    }
  }

  lemma MissUse(c: Cache, key: Key, x: nat)
    requires Shape(c) && x in c.uses && x in c.heads
    ensures var m := Get(c, key).0;
      m.now == c.now && (x in m.heads ==> m.heads[x] == c.heads[x] && m.uses[x] == c.uses[x])
  {
    hide InRange, Dead, Unlink, Release, Hold;
    if key in c.table {
      HoldUse(c, c.table[key]);
      DiscardUse(Hold(c, c.table[key]), c.table[key], x);
    }
  }

  lemma HoldUse(c: Cache, id: nat)
    requires Shape(c)
    ensures var h := Hold(c, id); h == c.(refs := h.refs, held := h.held, sound := h.sound)
  {
    hide Rows, InRange;
    var h := Hold(c, id);
    if id in c.heads {
      assert h == c.(refs := h.refs, held := h.held);
    } else {
      assert h == c.(sound := false);
    }
  }

  lemma DiscardUse(c: Cache, id: nat, x: nat)
    requires Shape(c) && x in c.uses && x in c.heads
    ensures var m := Release(Unlink(c, id), id);
      m.now == c.now && (x in m.heads ==> m.heads[x] == c.heads[x] && m.uses[x] == c.uses[x])
  {
    hide InRange, DropRef, Retract;
    if id in c.heads && c.places[id].linked {
      RetractFrame(c, id);
      DropQuiet(Retract(c, id), id);
    }
    var u := Unlink(c, id);
    DropQuiet(u.(held := u.held - multiset{id}), id);
  }

  /** The key's item is due at the time given. */
  ghost predicate DueAt(r: Cache, key: Key, due: nat) {
    key in r.table && r.table[key] in r.uses && r.uses[r.table[key]].exptime == due
  }

  lemma InPlaceDue(c: Cache, id: nat, value: string)
    requires Inv(c) && id in c.held && id in c.heads && id in c.places && id in c.uses && c.places[id].linked
    ensures Shape(c)
    ensures DueAt(Release(Update(Rewrite(c, id, value), id), id), c.heads[id].key, c.uses[id].exptime)
  {
    hide Inv, InRange, Rewrite, Update, Release;
    InvRows(c);
    InPlaceCarries(c, id, value);
    RewriteFrame(c, id, value);
    var m := Rewrite(c, id, value);
    UpdateDue(m, id);
    var n := Update(m, id);
    ReleaseUse(n, id);
  }

  lemma UpdateDue(c: Cache, id: nat)
    requires Shape(c) && id in c.heads && id in c.places && id in c.uses
    ensures var r := Update(c, id); id in r.uses && r.uses[id].exptime == c.uses[id].exptime && r.table == c.table
  {
    hide InRange, Update, Headed;
    UpdateIs(c, id);
    if Promotes(c, id) {
      UpdateDoes(c, id);
    }
  }

  lemma CopiedUse(c: Cache, id: nat, digits: string, room: Room)
    requires Shape(c) && id in c.heads && room.list < LISTS && id < c.nextId
    ensures var f, a := c.nextId, Alloc(c, c.heads[id].key, digits, room.list, c.uses[id].exptime, room.ntotal, 0);
      DueAt(Link(Unlink(a, id), f), c.heads[id].key, c.uses[id].exptime)
      && Link(Unlink(a, id), f).table[c.heads[id].key] == f
  {
    hide InRange, Unlink, Link, Alloc;
    var f, a := c.nextId, Alloc(c, c.heads[id].key, digits, room.list, c.uses[id].exptime, room.ntotal, 0);
    AllocUse(c, c.heads[id].key, digits, room, c.uses[id].exptime);
    AllocRow(c, c.heads[id].key, digits, room, c.uses[id].exptime);
    UnlinkUse(a, id, f);
    LinkUse(Unlink(a, id), f);
  }

  lemma CopyDue(c: Cache, id: nat, digits: string, room: Room)
    requires Inv(c) && id in c.held && id in c.heads && id in c.places && id in c.uses && c.places[id].linked
    requires room.list < LISTS
    ensures Shape(c)
    ensures DueAt(Release(EditByCopy(c, id, digits, room), id), c.heads[id].key, c.uses[id].exptime)
  {
    hide Inv, InRange, Unlink, Link, Release, Alloc;
    InvRows(c);
    CopyCarries(c, id, digits, room);
    Older(c, id);
    CopiedUse(c, id, digits, room);
    var f := c.nextId;
    var n := Link(Unlink(Alloc(c, c.heads[id].key, digits, room.list, c.uses[id].exptime, room.ntotal, 0), id), f);
    ReleaseUse(EditByCopy(c, id, digits, room), id);
    if id in n.heads && f in n.heads {
      ReleaseUse(n.(cas := n.cas[id := n.cas[f]]), f);
    }
  }

  lemma Older(c: Cache, id: nat)
    requires Inv(c) && id in c.heads
    ensures id < c.nextId
  {
    hide TableInv, ListsInv, SizesInv, BytesInv, TotalInv, CountInv, PublishedInv, LinkedLabelled, IssuedInv, RefsInv;
  }

  lemma AllocRow(c: Cache, key: Key, value: string, room: Room, exptime: nat)
    requires Shape(c) && room.list < LISTS
    ensures var a := Alloc(c, key, value, room.list, exptime, room.ntotal, 0);
      c.nextId in a.heads && a.heads[c.nextId].key == key && !a.places[c.nextId].linked
  {
    hide InRange, Rows;
  }

  lemma UnlinkUse(c: Cache, id: nat, x: nat)
    requires Shape(c) && x in c.heads && x != id
    ensures var u := Unlink(c, id);
      x in u.heads && u.heads[x] == c.heads[x] && u.uses[x] == c.uses[x] && u.places[x] == c.places[x]
  {
    hide InRange, DropRef, Retract;
    if id in c.heads && c.places[id].linked {
      RetractFrame(c, id);
      DropQuiet(Retract(c, id), id);
      DropOther(Retract(c, id), id, x);
    }
  }

  lemma DropOther(c: Cache, id: nat, x: nat)
    requires Shape(c) && x in c.heads && x != id
    ensures x in DropRef(c, id).heads
  {
    hide InRange, Rows, Free;
    FreeOther(c, id, x);
  }

  lemma FreeOther(c: Cache, id: nat, x: nat)
    requires Shape(c) && x in c.heads && x != id
    ensures x in Free(c, id).heads
  {
    hide Shape;
  }

  /** An incr or decr leaves the expiry time of the key alone. */
  lemma DeltaKeepsDue(c: Cache, key: Key, incr: bool, delta: nat, token: nat, parsed: Option<nat>, room: Option<Room>)
    requires Inv(c) && RoomOk(room)
    ensures Shape(c)
    ensures var (r, out) := AddDelta(c, key, incr, delta, token, parsed, room);
      out.DeltaOk? ==> Live(c, key) && DueAt(r, key, c.uses[c.table[key]].exptime)
  {
    hide Inv, Release, ApplyDelta, Get, Shifted, DueAt, Dead, Good, GuestsKept, SameBooks;
    InvRows(c);
    GetKeeps(c, key);
    if Live(c, key) && parsed.Some? {
      AppliedDue(c, key, Decimal.Numeral(Shifted(parsed.value, incr, delta)), room);
    }
  }

  lemma AppliedDue(c: Cache, key: Key, digits: string, room: Option<Room>)
    requires Inv(c) && Live(c, key) && Shape(c) && RoomOk(room)
    ensures var id := c.table[key];
      && id in Hold(c, id).heads
      && var (r, out) := ApplyDelta(Hold(c, id), id, digits, room); out.DeltaOk? ==> DueAt(r, key, c.uses[id].exptime)
  {
    hide Core, RefsInv, Dead, Release, EditByCopy, Update, Rewrite, DueAt, Padded;
    InvRows(c);
    var id := c.table[key];
    HoldKeeps(c, id);
    var m := Hold(c, id);
    if |digits| <= |m.data[id]| {
      InPlaceDue(m, id, Padded(digits, |m.data[id]|));
    }
    if room.Some? {
      CopyDue(m, id, digits, room.value);
    }
  }
}
