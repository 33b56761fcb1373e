/** The order of the LRU lists over runs: an item that nothing brings forward only sinks. */
module CacheOrder {
  import opened Sums
  import opened CacheModel
  import opened CacheInvariant
  import opened CacheProof
  import opened CacheOps
  import opened CachePull
  import opened CachePullProof
  import opened CachePullPlaces
  import opened CachePullFate
  import opened CacheHits
  import opened CacheRuns
  import Decimal

  // ---------------------------------------------------------------- order of one list

  /** The items of a list, head first, the crawler's marker left out. */
  ghost function Items(list: seq<Elem>): seq<nat> {
    if list == [] then [] else (if list[0].Entry? then [list[0].id] else []) + Items(list[1..])
  }

  /** s is t with some elements left out. */
  ghost predicate Within(s: seq<nat>, t: seq<nat>) {
    s == [] || (t != [] && if s[0] == t[0] then Within(s[1..], t[1..]) else Within(s, t[1..]))
  }

  /** Some of the items up are in front; behind them are items of the old list in their old order. */
  ghost predicate Settles(was: seq<nat>, now: seq<nat>, k: nat, up: set<nat>) {
    k <= |now| && (forall i :: 0 <= i < k ==> now[i] in up) && Within(now[k..], was)
  }

  ghost predicate Sunk(was: seq<nat>, now: seq<nat>, up: set<nat>) {
    exists k: nat :: Settles(was, now, k, up)
  }

  lemma {:induction false} WithinSelf(s: seq<nat>)
    ensures Within(s, s)
  {
    if s != [] {
      WithinSelf(s[1..]);
    }
  }

  lemma {:induction false} WithinTail(s: seq<nat>, t: seq<nat>)
    requires s != [] && Within(s, t)
    ensures Within(s[1..], t)
    decreases |s| + |t|
  {
    if s[0] == t[0] {
      WithinLonger(s[1..], t);
    } else {
      WithinTail(s, t[1..]);
      WithinLonger(s[1..], t);
    }
  }

  lemma {:induction false} WithinLonger(s: seq<nat>, t: seq<nat>)
    requires t != [] && Within(s, t[1..])
    ensures Within(s, t)
    decreases |s| + |t|
  {
    if s != [] && s[0] == t[0] {
      WithinTail(s, t[1..]);
    }
  }

  lemma {:induction false} WithinThen(s: seq<nat>, t: seq<nat>, u: seq<nat>)
    requires Within(s, t) && Within(t, u)
    ensures Within(s, u)
    decreases |u|
  {
    if s != [] {
      if t[0] != u[0] {
        WithinThen(s, t, u[1..]);
        WithinLonger(s, u);
      } else if s[0] == t[0] {
        WithinThen(s[1..], t[1..], u[1..]);
      } else {
        WithinThen(s, t[1..], u[1..]);
      }
    }
  }

  lemma {:induction false} WithinMember(s: seq<nat>, t: seq<nat>, x: nat)
    requires Within(s, t) && x in s
    ensures x in t
  {
    if s[0] == t[0] {
      if x != s[0] {
        WithinMember(s[1..], t[1..], x);
      }
    } else {
      WithinMember(s, t[1..], x);
    }
  }

  /** What lies within a sequence splits as the sequence does. */
  lemma {:induction false} WithinSplit(s: seq<nat>, t: seq<nat>, k: nat) returns (j: nat)
    requires Within(s, t) && k <= |t|
    ensures j <= |s| && Within(s[..j], t[..k]) && Within(s[j..], t[k..])
    decreases |t|
  {
    if k == 0 || s == [] {
      j := 0;
      assert t[0..] == t && s[0..] == s;
      return;
    }
    var front := t[1..][..k - 1];
    assert t[..k][1..] == front && t[1..][k - 1..] == t[k..];
    if s[0] == t[0] {
      var i := WithinSplit(s[1..], t[1..], k - 1);
      j := i + 1;
      assert s[..j][1..] == s[1..][..i] && s[j..] == s[1..][i..];
    } else {
      j := WithinSplit(s, t[1..], k - 1);
      if j > 0 {
        assert s[..j][0] == s[0];
      }
    }
  }

  lemma SunkSelf(s: seq<nat>, up: set<nat>)
    ensures Sunk(s, s, up)
  {
    WithinSelf(s);
    assert s[0..] == s;
    assert Settles(s, s, 0, up);
  }

  lemma SunkThen(s: seq<nat>, t: seq<nat>, u: seq<nat>, a: set<nat>, b: set<nat>)
    requires Sunk(s, t, a) && Sunk(t, u, b)
    ensures Sunk(s, u, a + b)
  {
    hide Within;
    var k: nat :| Settles(s, t, k, a);
    var n: nat :| Settles(t, u, n, b);
    var j := WithinSplit(u[n..], t, k);
    WithinThen(u[n..][j..], t[k..], s);
    forall i | 0 <= i < n + j
      ensures u[i] in a + b
    {
      if i >= n {
        assert u[n..][..j][i - n] == u[i];
        WithinMember(u[n..][..j], t[..k], u[i]);
      }
    }
    assert u[n + j..] == u[n..][j..];
    assert Settles(s, u, n + j, a + b);
  }

  lemma SunkMore(s: seq<nat>, t: seq<nat>, a: set<nat>, b: set<nat>)
    requires Sunk(s, t, a) && a <= b
    ensures Sunk(s, t, b)
  {
    var k: nat :| Settles(s, t, k, a);
    assert Settles(s, t, k, b);
  }

  // ---------------------------------------------------------------- taking off and putting in front

  lemma {:induction false} ItemsWithout(list: seq<Elem>, id: nat)
    ensures Within(Items(Without(list, Entry(id))), Items(list))
  {
    if list != [] {
      var rest := list[1..];
      if list[0] == Entry(id) {
        WithinSelf(Items(rest));
        assert Items(list)[1..] == Items(rest);
        WithinLonger(Items(rest), Items(list));
      } else {
        ItemsWithout(rest, id);
        var left := Without(rest, Entry(id));
        assert ([list[0]] + left)[1..] == left;
        if list[0].Entry? {
          assert ([list[0].id] + Items(left))[1..] == Items(left) && ([list[0].id] + Items(rest))[1..] == Items(rest);
        } else {
          assert [] + Items(left) == Items(left) && [] + Items(rest) == Items(rest);
        }
      }
    }
  }

  lemma OffSinks(list: seq<Elem>, id: nat)
    ensures Sunk(Items(list), Items(Without(list, Entry(id))), {})
  {
    ItemsWithout(list, id);
    var now := Items(Without(list, Entry(id)));
    assert now[0..] == now;
    assert Settles(Items(list), now, 0, {});
  }

  lemma OnSinks(list: seq<Elem>, id: nat)
    ensures Sunk(Items(list), Items([Entry(id)] + list), {id})
  {
    var now := Items([Entry(id)] + list);
    assert ([Entry(id)] + list)[1..] == list;
    assert now[1..] == Items(list);
    WithinSelf(Items(list));
    assert Settles(Items(list), now, 1, {id});
  }

  // ---------------------------------------------------------------- order of all lists

  /** On every list, whatever is not in up has sunk, if anything. */
  ghost predicate Aged(was: seq<seq<Elem>>, now: seq<seq<Elem>>, up: set<nat>) {
    |now| == |was| && forall l :: 0 <= l < |was| ==> Sunk(Items(was[l]), Items(now[l]), up)
  }

  lemma AgedSelf(s: seq<seq<Elem>>, up: set<nat>)
    ensures Aged(s, s, up)
  {
    forall l | 0 <= l < |s|
      ensures Sunk(Items(s[l]), Items(s[l]), up)
    {
      SunkSelf(Items(s[l]), up);
    }
  }

  lemma AgedThen(s: seq<seq<Elem>>, t: seq<seq<Elem>>, u: seq<seq<Elem>>, a: set<nat>, b: set<nat>)
    requires Aged(s, t, a) && Aged(t, u, b)
    ensures Aged(s, u, a + b)
  {
    hide Sunk;
    forall l | 0 <= l < |s|
      ensures Sunk(Items(s[l]), Items(u[l]), a + b)
    {
      SunkThen(Items(s[l]), Items(t[l]), Items(u[l]), a, b);
    }
  }

  lemma AgedMore(s: seq<seq<Elem>>, t: seq<seq<Elem>>, a: set<nat>, b: set<nat>)
    requires Aged(s, t, a) && a <= b
    ensures Aged(s, t, b)
  {
    hide Sunk;
    forall l | 0 <= l < |s|
      ensures Sunk(Items(s[l]), Items(t[l]), b)
    {
      SunkMore(Items(s[l]), Items(t[l]), a, b);
    }
  }

  lemma OneAged(s: seq<seq<Elem>>, l: nat, list: seq<Elem>, up: set<nat>)
    requires l < |s| && Sunk(Items(s[l]), Items(list), up)
    ensures Aged(s, s[l := list], up)
  {
    hide Sunk;
    AgedSelf(s, up);
  }

  lemma OffAges(s: seq<seq<Elem>>, l: nat, id: nat)
    requires l < |s|
    ensures Aged(s, s[l := Without(s[l], Entry(id))], {})
  {
    OffSinks(s[l], id);
    OneAged(s, l, Without(s[l], Entry(id)), {});
  }

  lemma OnAges(s: seq<seq<Elem>>, l: nat, id: nat)
    requires l < |s|
    ensures Aged(s, s[l := [Entry(id)] + s[l]], {id})
  {
    OnSinks(s[l], id);
    OneAged(s, l, [Entry(id)] + s[l], {id});
  }

  lemma HeadedAges(s: seq<seq<Elem>>, t: seq<seq<Elem>>, id: nat, from: nat, to: nat)
    requires Headed(s, t, id, from, to)
    ensures Aged(s, t, {id})
  {
    hide Aged;
    OffAges(s, from, id);
    var off := s[from := Without(s[from], Entry(id))];
    OnAges(off, to, id);
    AgedThen(s, off, t, {}, {id});
    assert {} + {id} == {id};
  }

  // ---------------------------------------------------------------- what each operation brings forward

  ghost function Bumped(c: Cache, id: nat): set<nat> {
    if id in c.places && id in c.uses && Promotes(c, id) then {id} else {}
  }

  ghost predicate Ages(c: Cache, r: Cache, up: set<nat>) {
    Aged(c.lists, r.lists, up)
  }

  lemma StillAges(c: Cache, r: Cache, up: set<nat>)
    requires r.lists == c.lists
    ensures Ages(c, r, up)
  {
    AgedSelf(c.lists, up);
  }

  lemma AgesThen(c: Cache, m: Cache, r: Cache, a: set<nat>, b: set<nat>, up: set<nat>)
    requires Ages(c, m, a) && Ages(m, r, b) && a <= up && b <= up
    ensures Ages(c, r, up)
  {
    hide Aged;
    AgedThen(c.lists, m.lists, r.lists, a, b);
    AgedMore(c.lists, r.lists, a + b, up);
  }

  lemma ReleaseSame(c: Cache, id: nat)
    requires Shape(c)
    ensures Release(c, id).lists == c.lists && DropRef(c, id).lists == c.lists
  {
    hide InRange, DropRef;
    DropQuiet(c, id);
    DropQuiet(c.(held := c.held - multiset{id}), id);
  }

  lemma UnlinkAges(c: Cache, id: nat)
    requires Shape(c)
    ensures Ages(c, Unlink(c, id), {})
  {
    hide InRange, Aged;
    if id in c.heads && c.places[id].linked {
      assert ListOf(c, id) < LISTS by { PlaceInRange(c.places, id); }
      UnlinkLists(c, id);
      OffAges(c.lists, ListOf(c, id), id);
    } else {
      StillAges(c, Unlink(c, id), {});
    }
  }

  /** A linked item stands at the head of its list. */
  lemma LinkHeads(c: Cache, id: nat)
    requires Shape(c) && id in c.heads && !c.places[id].linked
    ensures var l := c.places[id].list; l < LISTS && Link(c, id).lists == c.lists[l := [Entry(id)] + c.lists[l]]
  {
    assert ListOf(c, id) < LISTS by { PlaceInRange(c.places, id); }
    hide InRange, Rows;
  }

  lemma LinkAges(c: Cache, id: nat)
    requires Shape(c)
    ensures Ages(c, Link(c, id), {id})
  {
    hide InRange, Aged, Link;
    if id in c.heads && !c.places[id].linked {
      LinkHeads(c, id);
      OnAges(c.lists, c.places[id].list, id);
    } else {
      LinkFails(c, id);
      StillAges(c, Link(c, id), {id});
    }
  }

  lemma LinkFails(c: Cache, id: nat)
    requires Shape(c) && (id !in c.heads || c.places[id].linked)
    ensures Link(c, id).lists == c.lists
  {
    hide InRange, Publish, Stamp;
  }

  lemma UpdateAges(c: Cache, id: nat)
    requires Shape(c)
    ensures Ages(c, Update(c, id), Bumped(c, id))
  {
    hide InRange, Aged, Headed, Promotes, Update;
    if id in c.heads {
      if Promotes(c, id) {
        UpdateDoes(c, id);
        HeadedAges(c.lists, Update(c, id).lists, id, c.places[id].list, Update(c, id).places[id].list);
      } else {
        UpdateIs(c, id);
        StillAges(c, Update(c, id), {});
      }
    } else {
      UpdateFails(c, id);
      StillAges(c, Update(c, id), {});
    }
  }

  lemma UpdateFails(c: Cache, id: nat)
    requires Shape(c) && id !in c.heads
    ensures Update(c, id).lists == c.lists
  {
    hide InRange;
  }

  /** Take out an item and let go of it. */
  lemma DiscardAges(c: Cache, id: nat)
    requires Shape(c)
    ensures Ages(c, Release(Unlink(c, id), id), {})
  {
    hide InRange, Aged, Unlink, Release;
    UnlinkAges(c, id);
    ReleaseSame(Unlink(c, id), id);
  }

  lemma GetAges(c: Cache, key: Key)
    requires Shape(c)
    ensures Ages(c, Get(c, key).0, {})
    ensures var (r, found) := Get(c, key);
      found.Some? ==>
        key in c.table && found.value == c.table[key] && found.value in c.heads && r == Hold(c, found.value)
  {
    hide InRange, Aged, Unlink, Release, Dead;
    StillAges(c, c, {});
    if key in c.table {
      var h := Hold(c, c.table[key]);
      StillAges(c, h, {});
      DiscardAges(h, c.table[key]);
    }
  }

  lemma BumpAges(c: Cache, id: nat, w: nat, space: bool)
    requires Shape(c) && w < |c.bumps|
    ensures Ages(c, Bump(c, id, w, space), if c.settings.segmented then {} else Bumped(c, id))
  {
    hide InRange, Aged, Update;
    if id in c.heads && !c.settings.segmented {
      var m := Touch(c, id, c.uses[id].(fetched := true));
      UpdateAges(m, id);
      assert Bumped(m, id) == Bumped(c, id);
    } else {
      StillAges(c, Bump(c, id, w, space), {});
    }
  }

  lemma DrainAges(c: Cache, w: nat)
    requires Shape(c) && w < |c.bumps| && c.bumps[w] != []
    ensures Ages(c, DrainOne(c, w), Bumped(c, c.bumps[w][0]))
  {
    hide InRange, Aged, Update, Bumped, DropRef;
    UpdateAges(c, c.bumps[w][0]);
    var m := Update(c, c.bumps[w][0]);
    if w < |m.bumps| && m.bumps[w] != [] {
      ReleaseSame(m.(bumps := m.bumps[w := m.bumps[w][1..]]), m.bumps[w][0]);
    }
  }

  lemma CrawlAges(c: Cache, id: nat)
    requires Shape(c)
    ensures Ages(c, Crawl(c, id), {})
  {
    hide InRange, Aged, Unlink, Release, Stale;
    var h := Hold(c, id);
    StillAges(c, h, {});
    DiscardAges(h, id);
    ReleaseSame(h, id);
  }

  lemma SwapAges(c: Cache, was: nat, id: nat)
    requires Shape(c)
    ensures Ages(c, Swap(c, was, id), {id})
  {
    hide InRange, Aged, Unlink, Link, Release;
    UnlinkAges(c, was);
    var m := Unlink(c, was);
    LinkAges(m, id);
    AgesThen(c, m, Link(m, id), {}, {id}, {id});
    ReleaseSame(Link(m, id), was);
  }

  /** An append or prepend brings forward the item it makes, an add the one it is refused for, every
      other store the item stored. */
  ghost function StoreUp(c: Cache, id: nat, comm: Command): set<nat> {
    if comm == AppendCmd || comm == PrependCmd then {c.nextId}
    else {id} + if comm == AddCmd && id in c.heads && c.heads[id].key in c.table
                then Bumped(c, c.table[c.heads[id].key]) else {}
  }

  lemma JoinAges(c: Cache, id: nat, was: nat, comm: Command, test: CasTest, room: Option<Room>)
    requires Shape(c) && id in c.heads && was in c.heads && RoomOk(room)
    ensures Ages(c, StoreJoined(c, id, was, comm, test, room).0, {c.nextId})
  {
    hide InRange, Aged, Swap, Release, Alloc;
    ReleaseSame(c, was);
    StillAges(c, Release(c, was), {c.nextId});
    if room.Some? {
      var value := Combined(comm, c.data[was], c.data[id]);
      var m := Alloc(c, c.heads[id].key, value, room.value.list, c.uses[was].exptime, room.value.ntotal, 0);
      assert m.lists == c.lists by { AllocSame(c, c.heads[id].key, value, room.value, c.uses[was].exptime); }
      SwapAges(m, was, c.nextId);
      ReleaseSame(Swap(m, was, c.nextId), c.nextId);
    }
  }

  lemma AllocSame(c: Cache, key: Key, value: string, room: Room, exptime: nat)
    requires Shape(c) && room.list < LISTS
    ensures Alloc(c, key, value, room.list, exptime, room.ntotal, 0).lists == c.lists
  {
    hide InRange, Rows;
  }

  lemma OverAges(c: Cache, id: nat, was: nat, comm: Command, staleOk: bool, room: Option<Room>)
    requires Shape(c) && id in c.heads && was in c.heads && RoomOk(room)
    ensures Ages(c, StoreOver(c, id, was, comm, staleOk, room).0,
      if comm == AppendCmd || comm == PrependCmd then {c.nextId}
      else {id} + if comm == AddCmd then Bumped(c, was) else {})
  {
    hide InRange, Aged, Swap, Release, StoreJoined, Update, Bumped;
    match comm {
      case AddCmd =>
        UpdateAges(c, was);
        ReleaseSame(Update(c, was), was);
        AgedMore(c.lists, Update(c, was).lists, Bumped(c, was), {id} + Bumped(c, was));
      case AppendCmd =>
        JoinAges(c, id, was, comm, TestCas(c.cas[id], c.cas[was], staleOk), room);
      case PrependCmd =>
        JoinAges(c, id, was, comm, TestCas(c.cas[id], c.cas[was], staleOk), room);
      case _ =>
        assert {id} + {} == {id};
        SwapAges(c, was, id);
        SwapAges(Touch(c, id, c.uses[id].(exptime := c.uses[was].exptime)), was, id);
        ReleaseSame(c, was);
        StillAges(c, Release(c, was), {id});
    }
  }

  lemma FoundAges(c: Cache, id: nat, was: nat, comm: Command, staleOk: bool, room: Option<Room>)
    requires Shape(c) && RoomOk(room) && id in c.heads && was in c.heads
    requires c.heads[id].key in c.table && c.table[c.heads[id].key] == was
    ensures Ages(c, StoreOver(Hold(c, was), id, was, comm, staleOk, room).0, StoreUp(c, id, comm))
  {
    hide InRange, Aged, StoreOver, Bumped;
    OverAges(Hold(c, was), id, was, comm, staleOk, room);
    HoldBumps(c, was);
  }

  lemma MissedAges(c: Cache, m: Cache, id: nat)
    requires Shape(c) && Shape(m) && Ages(c, m, {})
    ensures Ages(c, Link(m, id), {id})
  {
    hide InRange, Aged, Link;
    LinkAges(m, id);
    AgesThen(c, m, Link(m, id), {}, {id}, {id});
  }

  lemma StoreAges(c: Cache, id: nat, comm: Command, staleOk: bool, room: Option<Room>)
    requires Shape(c) && RoomOk(room)
    ensures Ages(c, Store(c, id, comm, staleOk, room).0, StoreUp(c, id, comm))
  {
    hide InRange, Aged, Get, Link, StoreOver, Bumped, Hold, Rows;
    var up := StoreUp(c, id, comm);
    StillAges(c, Fault(c), up);
    if id in c.heads {
      var key := c.heads[id].key;
      GetAges(c, key);
      var (m, found) := Get(c, key);
      AgedMore(c.lists, m.lists, {}, up);
      if id in m.heads {
        if found.Some? {
          FoundAges(c, id, found.value, comm, staleOk, room);
        } else if comm == AddCmd || comm == SetCmd {
          MissedAges(c, m, id);
          AgedMore(c.lists, Link(m, id).lists, {id}, up);
        }
      }
    }
  }

  lemma HoldBumps(c: Cache, id: nat)
    requires Shape(c)
    ensures var h := Hold(c, id);
      && Bumped(h, id) == Bumped(c, id) && h.lists == c.lists && h.nextId == c.nextId && h.settings == c.settings
  {
    hide InRange;
  }

  lemma CopyAges(c: Cache, id: nat, digits: string, room: Room)
    requires Shape(c) && id in c.heads && room.list < LISTS
    ensures Ages(c, EditByCopy(c, id, digits, room), {c.nextId})
  {
    hide InRange, Aged, Unlink, Link, Release, Alloc;
    var m := Alloc(c, c.heads[id].key, digits, room.list, c.uses[id].exptime, room.ntotal, 0);
    assert m.lists == c.lists by { AllocSame(c, c.heads[id].key, digits, room, c.uses[id].exptime); }
    UnlinkAges(m, id);
    var u := Unlink(m, id);
    MissedAges(m, u, c.nextId);
    var n := Link(u, c.nextId);
    if id in n.heads && c.nextId in n.heads {
      ReleaseSame(n.(cas := n.cas[id := n.cas[c.nextId]]), c.nextId);
    }
  }

  lemma ApplyAges(c: Cache, id: nat, digits: string, room: Option<Room>)
    requires Shape(c) && id in c.heads && RoomOk(room)
    ensures Ages(c, ApplyDelta(c, id, digits, room).0, {c.nextId} + Bumped(c, id))
  {
    hide InRange, Aged, Update, EditByCopy, Release, Rewrite, Bumped;
    var up := {c.nextId} + Bumped(c, id);
    ReleaseSame(c, id);
    StillAges(c, Release(c, id), up);
    if |digits| <= |c.data[id]| && c.refs[id] == 2 {
      var m := Rewrite(c, id, Padded(digits, |c.data[id]|));
      RewriteBumps(c, id, Padded(digits, |c.data[id]|));
      UpdateAges(m, id);
      ReleaseSame(Update(m, id), id);
      AgedMore(m.lists, Update(m, id).lists, Bumped(c, id), up);
    } else if room.Some? {
      CopyAges(c, id, digits, room.value);
      var e := EditByCopy(c, id, digits, room.value);
      ReleaseSame(e, id);
      AgedMore(c.lists, e.lists, {c.nextId}, up);
    }
  }

  lemma RewriteBumps(c: Cache, id: nat, value: string)
    requires Shape(c) && id in c.heads
    ensures Bumped(Rewrite(c, id, value), id) == Bumped(c, id) && Rewrite(c, id, value).lists == c.lists
  {
    hide InRange, Rewrite, Rows;
    RewriteFrame(c, id, value);
  }

  ghost function KeyUp(c: Cache, key: Key): set<nat> {
    if key in c.table then Bumped(c, c.table[key]) else {}
  }

  lemma DeltaAges(
    c: Cache, key: Key, incr: bool, delta: nat, token: nat, parsed: Option<nat>, room: Option<Room>)
    requires Shape(c) && RoomOk(room)
    ensures Ages(c, AddDelta(c, key, incr, delta, token, parsed, room).0, {c.nextId} + KeyUp(c, key))
  {
    hide InRange, Aged, Get, ApplyDelta, Release, Bumped, Shifted, Hold;
    var up := {c.nextId} + KeyUp(c, key);
    GetAges(c, key);
    var (m, found) := Get(c, key);
    AgedMore(c.lists, m.lists, {}, up);
    if found.Some? {
      HoldBumps(c, found.value);
      ReleaseSame(m, found.value);
      StillAges(c, Release(m, found.value), up);
      if parsed.Some? {
        ApplyAges(m, found.value, Decimal.Numeral(Shifted(parsed.value, incr, delta)), room);
      }
    }
  }

  // ---------------------------------------------------------------- the tail pull

  lemma {:induction false} ItemsAppend(s: seq<Elem>, t: seq<Elem>)
    ensures Items(s + t) == Items(s) + Items(t)
  {
    if s == [] {
      assert s + t == t;
    } else {
      assert (s + t)[1..] == s[1..] + t;
      ItemsAppend(s[1..], t);
    }
  }

  lemma {:induction false} ItemsFore(back: seq<nat>)
    ensures |Items(Foremost(back))| == |back| && forall x :: x in Items(Foremost(back)) ==> x in back
  {
    if back != [] {
      var rest := back[..|back| - 1];
      ItemsFore(rest);
      assert Foremost(back)[1..] == Foremost(rest);
      assert forall x :: x in rest ==> x in back;
    }
  }

  lemma {:induction false} ItemsRest(list: seq<Elem>, out: set<nat>)
    ensures Within(Items(Rest(list, out)), Items(list))
  {
    if list != [] {
      ItemsRest(list[1..], out);
      var rest, all := Rest(list[1..], out), Items(list[1..]);
      if list[0].Crawler? {
        assert ([list[0]] + rest)[1..] == rest && [] + all == all && [] + Items(rest) == Items(rest);
      } else if list[0].id in out {
        assert [] + rest == rest && Items(list)[1..] == all;
        WithinLonger(Items(rest), Items(list));
      } else {
        assert ([list[0]] + rest)[1..] == rest && Items(list)[1..] == all;
        assert ([list[0].id] + Items(rest))[1..] == Items(rest);
      }
    }
  }

  lemma LeftSinks(list: seq<Elem>, gone: seq<nat>, back: seq<nat>)
    ensures Sunk(Items(list), Items(ListLeft(list, gone, back)), Ids(back))
  {
    hide Within, Items, Foremost, Rest;
    var out := Ids(gone) + Ids(back);
    ItemsAppend(Foremost(back), Rest(list, out));
    ItemsFore(back);
    ItemsRest(list, out);
    var now := Items(ListLeft(list, gone, back));
    assert now[|back|..] == Items(Rest(list, out));
    forall i | 0 <= i < |back|
      ensures now[i] in Ids(back)
    {
      assert now[i] in Items(Foremost(back));
    }
    assert Settles(Items(list), now, |back|, Ids(back));
  }

  ghost predicate Moves(course: Course) { course.Sinks? || course.Rises? || course.Returns? }

  lemma BothAged(s: seq<seq<Elem>>, l: nat, x: seq<Elem>, to: nat, y: seq<Elem>, up: set<nat>)
    requires l < |s| && to < |s| && Sunk(Items(s[l]), Items(x), up) && Sunk(Items(s[to]), Items(y), up)
    ensures Aged(s, s[l := x][to := y], up)
  {
    hide Sunk, Items;
    AgedSelf(s, up);
  }

  lemma CourseAges(s: seq<seq<Elem>>, a: PullArgs, id: nat, course: Course)
    requires |s| == LISTS && PullOk(a)
    ensures Aged(s, ListsAfter(s, a, id, course), if Moves(course) then {id} else {})
  {
    hide Sunk, Items, Without;
    var l := PullList(a);
    AgedSelf(s, {});
    OffAges(s, l, id);
    OffSinks(s[l], id);
    SunkMore(Items(s[l]), Items(Without(s[l], Entry(id))), {}, {id});
    if course.Sinks? || course.Rises? {
      var to := a.cls + if course.Sinks? then COLD else WARM;
      OnSinks(s[to], id);
      BothAged(s, l, Without(s[l], Entry(id)), to, [Entry(id)] + s[to], {id});
    } else if course.Returns? {
      OnSinks(Without(s[l], Entry(id)), id);
      SunkThen(Items(s[l]), Items(Without(s[l], Entry(id))), Items([Entry(id)] + Without(s[l], Entry(id))), {id}, {id});
      assert {id} + {id} == {id};
      OneAged(s, l, [Entry(id)] + Without(s[l], Entry(id)), {id});
    }
  }

  /** A pull brings forward the active items of WARM it passes, and the one it stops on if that moves. */
  ghost function PullUp(c: Cache, a: PullArgs): set<nat>
    requires |c.lists| == LISTS && |c.bytes| == LISTS && PullOk(a)
  {
    var f := Foretold(c, a);
    Ids(f.back) + if f.stopped.Some? && Moves(LastCourse(c, a, f)) then {f.stopped.value} else {}
  }

  lemma PullAges(c: Cache, a: PullArgs)
    requires Inv(c) && PullOk(a)
    ensures Shape(c) && Ages(c, PullTail(c, a).c, PullUp(c, a))
  {
    hide Inv, InRange, PullTail, Foretold, ListLeft, ListsAfter, LastCourse, Aged, UsesLeft, PlacesSettled, Moves, Ids;
    PullPlaces(c, a);
    var f, l := Foretold(c, a), PullList(a);
    var course, left := LastCourse(c, a, f), ListLeft(c.lists[l], f.gone, f.back);
    LeftSinks(c.lists[l], f.gone, f.back);
    OneAged(c.lists, l, left, Ids(f.back));
    var m := c.lists[l := left];
    AgedSelf(m, {});
    var up := if f.stopped.Some? && Moves(course) then {f.stopped.value} else {};
    if f.stopped.Some? {
      CourseAges(m, a, f.stopped.value, course);
    }
    AgedThen(c.lists, m, PullTail(c, a).c.lists, Ids(f.back), up);
  }

  // ---------------------------------------------------------------- every step

  /** The items a step links, relinks or moves: each is put at the head of its list. */
  ghost function Raised(c: Cache, st: Step): set<nat>
    requires Shape(c) && Enabled(c, st)
  {
    match st
    case GetItem(key, bump, _, _) => if bump && !c.settings.segmented then KeyUp(c, key) else {}
    case StoreItem(id, comm, _, _) => StoreUp(c, id, comm)
    case Delta(key, _, _, _, _, _) => {c.nextId} + KeyUp(c, key)
    case Pull(args) => PullUp(c, args)
    case Drain(buffer) => Bumped(c, c.bumps[buffer][0])
    case _ => {}
  }

  lemma {:induction false} ItemsUnmarked(list: seq<Elem>)
    ensures Items(Without(list, Crawler)) == Items(list)
  {
    if list != [] {
      ItemsUnmarked(list[1..]);
      var rest := Without(list[1..], Crawler);
      assert ([list[0]] + rest)[1..] == rest && [] + Items(list[1..]) == Items(list[1..]);
    }
  }

  lemma MarkerAges(s: seq<seq<Elem>>, l: nat, order: seq<Elem>)
    requires l < |s| && Without(order, Crawler) == Without(s[l], Crawler)
    ensures Aged(s, s[l := order], {})
  {
    hide Aged, Sunk, Items;
    ItemsUnmarked(order);
    ItemsUnmarked(s[l]);
    SunkSelf(Items(s[l]), {});
    OneAged(s, l, order, {});
  }

  lemma GetBumpAges(c: Cache, st: Step)
    requires Shape(c) && st.GetItem? && Enabled(c, st)
    ensures Ages(c, Apply(c, st), Raised(c, st))
  {
    hide InRange, Aged, Get, Bump, Bumped, Hold, Rows;
    var up := Raised(c, st);
    GetAges(c, st.key);
    var (m, found) := Get(c, st.key);
    AgedMore(c.lists, m.lists, {}, up);
    if st.bump && found.Some? && st.buffer < |m.bumps| {
      BumpAges(m, found.value, st.buffer, st.space);
      HoldBumps(c, found.value);
    }
  }

  /** Every step leaves the others of each list in order, and behind what it brings forward. */
  lemma StepAges(c: Cache, st: Step)
    requires Inv(c) && Shape(c) && Enabled(c, st)
    ensures Ages(c, Apply(c, st), Raised(c, st))
  {
    hide Inv, InRange, Rows, Aged, Get, Bump, Release, Unlink, Store, AddDelta, PullTail, LetGo, DrainOne, Crawl,
      StoreUp, KeyUp, PullUp, Bumped;
    var r := Apply(c, st);
    match st {
      case GetItem(_, _, _, _) => GetBumpAges(c, st);
      case GiveBack(id) => ReleaseSame(c, id); StillAges(c, r, {});
      case DeleteItem(id) => UnlinkAges(c, id);
      case StoreItem(id, comm, staleOk, room) => StoreAges(c, id, comm, staleOk, room);
      case Delta(key, incr, delta, token, parsed, room) => DeltaAges(c, key, incr, delta, token, parsed, room);
      case Pull(args) => PullAges(c, args);
      case FinishPull(id) => LetGoQuiet(c, id); StillAges(c, r, {});
      case Drain(buffer) => DrainAges(c, buffer);
      case Crawled(id) => CrawlAges(c, id);
      case MoveMarker(list, order) => MarkerAges(c.lists, list, order);
      case _ => StillAges(c, r, {});
    }
  }

  // ---------------------------------------------------------------- runs

  /** What the steps from i up to j bring forward. */
  ghost function RaisedIn(states: seq<Cache>, steps: seq<Step>, i: nat, j: nat): set<nat>
    requires IsRun(states, steps) && i <= j < |states|
    decreases j - i
  {
    if i == j then {} else RaisedIn(states, steps, i, j - 1) + Raised(states[j - 1], steps[j - 1])
  }

  lemma {:induction false} RunAges(states: seq<Cache>, steps: seq<Step>, i: nat, j: nat)
    requires IsRun(states, steps) && i <= j < |states|
    ensures Aged(states[i].lists, states[j].lists, RaisedIn(states, steps, i, j))
    decreases j - i
  {
    hide Inv, Shape, Apply, Enabled, Raised, Aged;
    if i == j {
      AgedSelf(states[i].lists, {});
    } else {
      RunAges(states, steps, i, j - 1);
      RunIsGood(states, steps, j - 1);
      StepAges(states[j - 1], steps[j - 1]);
      AgedThen(states[i].lists, states[j - 1].lists, states[j].lists, RaisedIn(states, steps, i, j - 1),
        Raised(states[j - 1], steps[j - 1]));
    }
  }

  /** x stands nearer the head than y. */
  ghost predicate Ahead(s: seq<nat>, x: nat, y: nat) {
    exists i, j :: 0 <= i < j < |s| && s[i] == x && s[j] == y
  }

  lemma {:induction false} WithinOrder(s: seq<nat>, t: seq<nat>, x: nat, y: nat)
    requires NoDup(t) && Within(s, t) && x in s && y in s && Ahead(t, x, y)
    ensures Ahead(s, x, y)
    decreases |t|
  {
    var i, j :| 0 <= i < j < |t| && t[i] == x && t[j] == y;
    if s[0] == t[0] && i == 0 {
      var m :| 0 <= m < |s| && s[m] == y;
      assert s[0] == x && s[m] == y && 0 < m;
    } else {
      assert y != t[0];
      if s[0] == t[0] {
        assert t[1..][i - 1] == x && t[1..][j - 1] == y;
        WithinOrder(s[1..], t[1..], x, y);
        var m, n :| 0 <= m < n < |s[1..]| && s[1..][m] == x && s[1..][n] == y;
        assert s[m + 1] == x && s[n + 1] == y;
      } else {
        WithinMember(s, t[1..], x);
        assert i > 0;
        assert t[1..][i - 1] == x && t[1..][j - 1] == y;
        WithinOrder(s, t[1..], x, y);
      }
    }
  }

  lemma SunkAhead(s: seq<nat>, t: seq<nat>, up: set<nat>, x: nat, y: nat)
    requires NoDup(s) && Sunk(s, t, up) && x in t && y in t && x != y && y !in up && (x in s ==> Ahead(s, x, y))
    ensures Ahead(t, x, y)
  {
    hide Within, NoDup;
    var k: nat :| Settles(s, t, k, up);
    var j :| 0 <= j < |t| && t[j] == y;
    var i :| 0 <= i < |t| && t[i] == x;
    assert j >= k;
    if i >= k {
      assert t[k..][i - k] == x && t[k..][j - k] == y;
      WithinMember(t[k..], s, x);
      WithinOrder(t[k..], s, x, y);
      var m, n :| 0 <= m < n < |t[k..]| && t[k..][m] == x && t[k..][n] == y;
      assert t[m + k] == x && t[n + k] == y;
    }
  }

  lemma {:induction false} ItemsMember(list: seq<Elem>, x: nat)
    ensures x in Items(list) <==> Entry(x) in list
  {
    if list != [] {
      ItemsMember(list[1..], x);
    }
  }

  lemma {:induction false} ItemsNoDup(list: seq<Elem>)
    requires NoDup(list)
    ensures NoDup(Items(list))
  {
    if list != [] {
      ItemsNoDup(list[1..]);
      if list[0].Entry? {
        ItemsMember(list[1..], list[0].id);
        NoDupCons(list[0].id, Items(list[1..]));
      }
    }
  }

  /** Over any stretch of a run, an item y that no step brings forward stays behind every item that was
      in front of it on its list, and behind every item that has come to the list since. */
  lemma OnlySinks(states: seq<Cache>, steps: seq<Step>, i: nat, j: nat, l: nat, x: nat, y: nat)
    requires IsRun(states, steps) && i <= j < |states| && l < LISTS
    requires |states[i].lists| == LISTS && |states[j].lists| == LISTS
    requires Entry(y) in states[j].lists[l] && y !in RaisedIn(states, steps, i, j)
    requires Entry(x) in states[j].lists[l] && x != y
    requires Entry(x) in states[i].lists[l] ==> Ahead(Items(states[i].lists[l]), x, y)
    ensures Ahead(Items(states[j].lists[l]), x, y)
  {
    hide IsRun, RaisedIn, Sunk, Items, Ahead, Inv;
    var was, now := states[i].lists[l], states[j].lists[l];
    RunAges(states, steps, i, j);
    assert NoDup(was) by { RunIsGood(states, steps, i); ListNoDup(states[i], l); }
    ItemsNoDup(was);
    ItemsMember(was, x);
    ItemsMember(now, x);
    ItemsMember(now, y);
    SunkAhead(Items(was), Items(now), RaisedIn(states, steps, i, j), x, y);
  }
}
