/** The allocator of response objects: bundles of slots, and the open list of bundles that still
    have a free one (memcached.c). */
module RespBundles {
  import opened Sums
  import opened LruList

  datatype Bundle = Bundle(free: seq<bool>, refcount: int, nextCheck: nat)

  datatype Alloc = Alloc(bundles: map<nat, Bundle>, prev: map<nat, nat>, next: map<nat, nat>, head: nat)

  /** A response: a bundle and a slot in it. */
  datatype Slot = Slot(bundle: nat, index: nat)

  ghost function InUse(): bool -> int { (free: bool) => if free then 0 else 1 }

  ghost function Used(b: Bundle): int { Sum(b.free, InUse()) }

  // ---------------------------------------------------------------- what every state satisfies

  ghost predicate BundleOk(b: Bundle, n: nat) {
    |b.free| == n && b.refcount == Used(b) && b.nextCheck <= n
  }

  /** The open list holds exactly the bundles with a free slot; an idle bundle can only be its last. */
  ghost predicate OpenOk(bundles: map<nat, Bundle>, s: seq<nat>, n: nat) {
    && (forall b :: b in s <==> b in bundles && bundles[b].refcount < n)
    && (forall b :: b in bundles && bundles[b].refcount == 0 ==> s != [] && b == s[|s| - 1])
  }

  ghost predicate SlotsOk(bundles: map<nat, Bundle>, n: nat) {
    forall b :: b in bundles ==> BundleOk(bundles[b], n)
  }

  ghost predicate ListOk(prev: map<nat, nat>, next: map<nat, nat>, head: nat, s: seq<nat>) {
    NoDup(s) && NULL !in s && head == At(s, 0) && PrevOk(prev, s) && NextOk(next, s)
  }

  /** Bundles off the list have null pointers, as the membership test of the code assumes. */
  ghost predicate Detached(ids: set<nat>, prev: map<nat, nat>, next: map<nat, nat>, s: seq<nat>) {
    forall b :: b in ids && b !in s ==> b in prev && b in next && prev[b] == NULL && next[b] == NULL
  }

  ghost predicate Inv(a: Alloc, s: seq<nat>, n: nat) {
    && n >= 2 && NULL !in a.bundles
    && SlotsOk(a.bundles, n) && OpenOk(a.bundles, s, n)
    && ListOk(a.prev, a.next, a.head, s) && Detached(a.bundles.Keys, a.prev, a.next, s)
  }

  /** The responses handed out and not yet given back. */
  ghost predicate Live(a: Alloc, slot: Slot) {
    && slot.bundle in a.bundles && slot.index < |a.bundles[slot.bundle].free|
    && !a.bundles[slot.bundle].free[slot.index]
  }

  /** No more than one idle bundle is kept, and a bundle off the list has no free slot. */
  lemma KeepsFewIdle(a: Alloc, s: seq<nat>, n: nat, b: nat, c: nat)
    requires Inv(a, s, n) && b in a.bundles && c in a.bundles
    ensures Used(a.bundles[b]) == 0 && Used(a.bundles[c]) == 0 ==> b == c
    ensures b !in s <==> forall x :: 0 <= x < n ==> Live(a, Slot(b, x))
  {
    assert BundleOk(a.bundles[b], n) && BundleOk(a.bundles[c], n);
    UsedBounds(a.bundles[b].free);
    if forall x :: 0 <= x < n ==> Live(a, Slot(b, x)) {
      assert forall x :: 0 <= x < n ==> Live(a, Slot(b, x)) ==> !a.bundles[b].free[x];
    }
  }

  // ---------------------------------------------------------------- counting slots

  lemma {:induction false} UsedBounds(free: seq<bool>)
    ensures 0 <= Sum(free, InUse()) <= |free|
    ensures Sum(free, InUse()) == |free| <==> forall i :: 0 <= i < |free| ==> !free[i]
    ensures Sum(free, InUse()) == 0 <==> forall i :: 0 <= i < |free| ==> free[i]
  {
    if free != [] {
      UsedBounds(free[..|free| - 1]);
    }
  }

  /** The slot looked at in turn j. */
  function Turn(j: nat, start: nat, n: nat): (x: nat)
    requires 0 < n
    ensures x < n
  {
    (j + start) % n
  }

  /** Every slot has its turn. */
  lemma Wrap(x: nat, start: nat, n: nat) returns (j: nat)
    requires x < n && start <= n
    ensures j < n && Turn(j, start, n) == x
  {
    if x >= start {
      j := x - start;
    } else {
      j := x + n - start;
      assert (x + n) % n == x;
    }
  }

  /** Look for a free slot, starting at the most likely one. */
  method FindFree(b: Bundle, n: nat) returns (x: nat)
    requires 0 < n && BundleOk(b, n)
    ensures x <= n && (x < n ==> b.free[x]) && (x == n <==> b.refcount == n)
  {
    hide Turn;
    UsedBounds(b.free);
    var i := 0;
    while i < n
      invariant 0 <= i <= n
      invariant forall j :: 0 <= j < i ==> !b.free[Turn(j, b.nextCheck, n)]
    {
      x := Turn(i, b.nextCheck, n);
      if b.free[x] {
        return;
      }
      i := i + 1;
    }
    forall y | 0 <= y < n
      ensures !b.free[y]
    {
      var j := Wrap(y, b.nextCheck, n);
    }
    x := n;
  }

  // ---------------------------------------------------------------- the effect on slots

  function Taken(b: Bundle, x: nat): Bundle
    requires x < |b.free|
  {
    b.(free := b.free[x := false], refcount := b.refcount + 1, nextCheck := x + 1)
  }

  function Given(b: Bundle, x: nat): Bundle
    requires x < |b.free|
  {
    b.(free := b.free[x := true], refcount := b.refcount - 1)
  }

  lemma TakenOk(b: Bundle, x: nat, n: nat)
    requires BundleOk(b, n) && x < n && b.free[x]
    ensures BundleOk(Taken(b, x), n) && b.refcount < n && Taken(b, x).refcount > 0
  {
    SumUpdate(b.free, x, false, InUse());
    UsedBounds(b.free);
    UsedBounds(b.free[x := false]);
  }

  lemma GivenOk(b: Bundle, x: nat, n: nat)
    requires BundleOk(b, n) && x < n && !b.free[x]
    ensures BundleOk(Given(b, x), n) && 0 < b.refcount <= n && Given(b, x).refcount < n
  {
    SumUpdate(b.free, x, true, InUse());
    UsedBounds(b.free);
    UsedBounds(b.free[x := true]);
  }

  function NewBundle(n: nat): Bundle
    requires n > 0
  {
    Bundle(seq(n, i => i != 0), 1, 1)
  }

  lemma NewBundleOk(n: nat)
    requires n >= 2
    ensures BundleOk(NewBundle(n), n) && NewBundle(n).refcount < n
  {
    var b := NewBundle(n);
    var all := seq(n, i => true);
    UsedBounds(all);
    assert b.free == all[0 := false];
    SumUpdate(all, 0, false, InUse());
  }

  // ---------------------------------------------------------------- the allocator

  class Bundles {
    const n: nat
    var a: Alloc
    ghost var s: seq<nat>

    ghost predicate Valid()
      reads this
    {
      Inv(a, s, n)
    }

    constructor (slots: nat)
      requires slots >= 2
      ensures Valid() && a.bundles == map[] && n == slots
    {
      n := slots;
      a := Alloc(map[], map[], map[], NULL);
      s := [];
    }

    /** Hand out a free slot of the first open bundle, or of a fresh bundle when none is open;
        `offered` is what the buffer cache can give, NULL for nothing. */
    method Allocate(offered: nat) returns (r: Option<Slot>)
      requires Valid() && offered !in a.bundles
      modifies this
      ensures Valid()
      ensures r.None? <==> old(a.head) == NULL && offered == NULL
      ensures r.None? ==> a == old(a)
      ensures r.Some? ==> !Live(old(a), r.value) && Live(a, r.value)
      ensures r.Some? ==> forall t :: t != r.value ==> (Live(a, t) <==> Live(old(a), t))
    {
      hide SlotsOk, OpenOk, ListOk, Detached, Live, BundleOk;
      var b := a.head;
      if b != NULL {
        HeadOpen(a, s, n);
        var x := FindFree(a.bundles[b], n);
        assert |a.bundles[b].free| == n by { SlotCount(a.bundles[b], n); }
        TakenOk(a.bundles[b], x, n);
        ghost var was := a;
        a := a.(bundles := a.bundles[b := Taken(a.bundles[b], x)]);
        if a.bundles[b].refcount == n {
          assert a.prev[b] == NULL;
          var next := a.next[b];
          a := a.(head := next);
          if next != NULL {
            a := a.(prev := a.prev[next := NULL], next := a.next[b := NULL]);
          }
          FullCloses(was, s, n, x);
          s := s[1..];
        } else {
          TakeKeeps(was, s, n, x);
        }
        LiveTaken(was, a, b, x);
        return Some(Slot(b, x));
      }
      assert a.head == NULL;
      if offered == NULL {
        return None;
      }
      FreshOpens(a, s, n, offered);
      LiveFresh(a, n, offered);
      a := Alloc(a.bundles[offered := NewBundle(n)], a.prev[offered := NULL], a.next[offered := NULL], offered);
      s := [offered];
      return Some(Slot(offered, 0));
    }

    /** Take a slot back.  The last response of a bundle returns the whole bundle, unless it is the
        only open one. */
    method Free(slot: Slot)
      requires Valid() && Live(a, slot)
      modifies this
      ensures Valid()
      ensures forall t :: Live(a, t) <==> Live(old(a), t) && t != slot
    {
      hide SlotsOk, OpenOk, ListOk, Detached, BundleOk;
      var b, x := slot.bundle, slot.index;
      OneOk(a.bundles, n, b);
      SlotCount(a.bundles[b], n);
      GivenOk(a.bundles[b], x, n);
      ghost var was, open := a, s;
      ListTests(a, s, n, b);
      a := a.(bundles := a.bundles[b := Given(a.bundles[b], x)]);
      if a.bundles[b].refcount == 0 {
        if b == a.head && a.next[b] == NULL {
          assert a.prev[b] == NULL;
          a := a.(bundles := a.bundles[b := a.bundles[b].(nextCheck := 0)]);
          LastIdle(was, s, n, b, x);
        } else {
          assert a.next[b] != NULL || a.prev[b] != NULL || b == a.head;
          var prev, next := a.prev[b], a.next[b];
          if a.head == b {
            a := a.(head := next);
          }
          assert next != b && prev != b;
          if next != NULL {
            a := a.(prev := a.prev[next := prev]);
          }
          if prev != NULL {
            a := a.(next := a.next[prev := next]);
          }
          a := a.(bundles := a.bundles - {b});
          s := IdleLeaves(was, open, n, b, x);
        }
      } else if b == a.head || a.prev[b] != NULL || a.next[b] != NULL {
        GiveKeeps(was, s, n, b, x);
      } else {
        var next := a.head;
        a := a.(prev := a.prev[b := NULL], next := a.next[b := next]);
        if next != NULL {
          a := a.(prev := a.prev[next := b]);
        }
        a := a.(head := b);
        GiveReopens(was, s, n, b, x);
        s := [b] + s;
      }
      LiveGiven(was, a, b, x, n);
    }
  }

  // ---------------------------------------------------------------- why each branch keeps the invariant

  lemma SlotsUpdate(bundles: map<nat, Bundle>, n: nat, b: nat, v: Bundle)
    requires SlotsOk(bundles, n) && BundleOk(v, n)
    ensures SlotsOk(bundles[b := v], n) && SlotsOk(bundles - {b}, n)
  {
    hide BundleOk;
  }

  /** A bundle that was and stays open. */
  lemma OpenSame(bundles: map<nat, Bundle>, s: seq<nat>, n: nat, b: nat, v: Bundle)
    requires OpenOk(bundles, s, n) && b in s && v.refcount < n
    requires v.refcount == 0 ==> b == s[|s| - 1]
    ensures OpenOk(bundles[b := v], s, n)
  {
  }

  lemma HeadOpen(a: Alloc, s: seq<nat>, n: nat)
    requires Inv(a, s, n) && a.head != NULL
    ensures s != [] && a.head == s[0] && a.head in s && a.head in a.bundles && a.bundles[a.head].refcount < n
    ensures BundleOk(a.bundles[a.head], n) && a.head in a.prev && a.head in a.next
    ensures a.prev[a.head] == NULL && a.next[a.head] == At(s, 1)
  {
    hide BundleOk, NoDup;
    assert s[0] in s;
  }

  lemma TakeKeeps(a: Alloc, s: seq<nat>, n: nat, x: nat)
    requires Inv(a, s, n) && a.head != NULL && a.head in a.bundles && x < n && x < |a.bundles[a.head].free|
    requires a.bundles[a.head].free[x] && a.bundles[a.head].refcount + 1 < n
    ensures Inv(a.(bundles := a.bundles[a.head := Taken(a.bundles[a.head], x)]), s, n)
  {
    hide BundleOk, SlotsOk, OpenOk, ListOk;
    HeadOpen(a, s, n);
    TakenOk(a.bundles[a.head], x, n);
    SlotsUpdate(a.bundles, n, a.head, Taken(a.bundles[a.head], x));
    OpenSame(a.bundles, s, n, a.head, Taken(a.bundles[a.head], x));
  }

  lemma HeadLeaves(prev: map<nat, nat>, next: map<nat, nat>, head: nat, s: seq<nat>)
    requires ListOk(prev, next, head, s) && s != []
    ensures var q := At(s, 1);
      ListOk(if q != NULL then prev[q := NULL] else prev, if q != NULL then next[s[0] := NULL] else next, q, s[1..])
    ensures forall b :: b in s[1..] <==> b in s && b != s[0]
  {
    hide PrevOk, NextOk;
    UnlinkPrev(prev, s, 0);
    UnlinkNext(next, s, 0);
    assert s[..0] + s[1..] == s[1..];
    NextElsewhere(next, s[1..], s[0], NULL);
    assert forall i :: 0 <= i < |s| ==> s[i] in s;
  }

  lemma NextElsewhere(next: map<nat, nat>, s: seq<nat>, b: nat, v: nat)
    requires NextOk(next, s) && b !in s
    ensures NextOk(next[b := v], s)
  {
  }

  lemma FullOpen(bundles: map<nat, Bundle>, s: seq<nat>, n: nat, v: Bundle)
    requires OpenOk(bundles, s, n) && s != [] && v.refcount == n && n > 0
    requires forall b :: b in s[1..] <==> b in s && b != s[0]
    ensures OpenOk(bundles[s[0] := v], s[1..], n)
  {
    var all := bundles[s[0] := v];
    forall b | b in all && all[b].refcount == 0
      ensures s[1..] != [] && b == s[1..][|s| - 2]
    {
      assert b in s && b in s[1..];
    }
  }

  lemma FullCloses(a: Alloc, s: seq<nat>, n: nat, x: nat)
    requires Inv(a, s, n) && a.head != NULL && a.head in a.bundles && x < n && x < |a.bundles[a.head].free|
    requires a.bundles[a.head].free[x] && a.bundles[a.head].refcount + 1 == n && a.head in a.next
    ensures var b, next := a.head, a.next[a.head];
      Inv(Alloc(a.bundles[b := Taken(a.bundles[b], x)],
                if next != NULL then a.prev[next := NULL] else a.prev,
                if next != NULL then a.next[b := NULL] else a.next, next), s[1..], n)
  {
    hide BundleOk, SlotsOk, OpenOk, ListOk;
    HeadOpen(a, s, n);
    TakenOk(a.bundles[a.head], x, n);
    SlotsUpdate(a.bundles, n, a.head, Taken(a.bundles[a.head], x));
    HeadLeaves(a.prev, a.next, a.head, s);
    FullOpen(a.bundles, s, n, Taken(a.bundles[a.head], x));
    assert s[1..] != [] ==> At(s, 1) in s[1..];
  }

  lemma Members(s: seq<nat>)
    ensures forall i :: 0 <= i < |s| ==> s[i] in s
  {
  }

  lemma FreshOpens(a: Alloc, s: seq<nat>, n: nat, b: nat)
    requires Inv(a, s, n) && a.head == NULL && b != NULL && b !in a.bundles
    ensures Inv(Alloc(a.bundles[b := NewBundle(n)], a.prev[b := NULL], a.next[b := NULL], b), [b], n)
    ensures s == []
  {
    hide BundleOk;
    NewBundleOk(n);
    Members(s);
  }

  /** The pointer tests of the code decide membership in the open list. */
  lemma ListTests(a: Alloc, s: seq<nat>, n: nat, b: nat)
    requires Inv(a, s, n) && b in a.bundles
    ensures b in a.prev && b in a.next && a.prev[b] != b && a.next[b] != b
    ensures b in s <==> b == a.head || a.prev[b] != NULL || a.next[b] != NULL
    ensures b == a.head ==> a.prev[b] == NULL
    ensures b == a.head && a.next[b] == NULL <==> s == [b]
    ensures b in s <==> a.bundles[b].refcount < n
  {
    hide BundleOk, SlotsOk;
    assert forall i :: 0 <= i < |s| ==> s[i] in s;
    if b in s {
      var i :| 0 <= i < |s| && s[i] == b;
    }
  }

  lemma LastIdle(a: Alloc, s: seq<nat>, n: nat, b: nat, x: nat)
    requires Inv(a, s, n) && b in a.bundles && s == [b] && x < n && x < |a.bundles[b].free| && !a.bundles[b].free[x]
    requires a.bundles[b].refcount == 1
    ensures Inv(a.(bundles := a.bundles[b := Given(a.bundles[b], x).(nextCheck := 0)]), s, n)
  {
    hide SlotsOk, OpenOk, ListOk;
    assert BundleOk(a.bundles[b], n) by { OneOk(a.bundles, n, b); }
    GivenOk(a.bundles[b], x, n);
    SlotsUpdate(a.bundles, n, b, Given(a.bundles[b], x).(nextCheck := 0));
    OpenSame(a.bundles, s, n, b, Given(a.bundles[b], x).(nextCheck := 0));
  }

  lemma OneOk(bundles: map<nat, Bundle>, n: nat, b: nat)
    requires SlotsOk(bundles, n) && b in bundles
    ensures BundleOk(bundles[b], n)
  {
  }

  lemma GiveKeeps(a: Alloc, s: seq<nat>, n: nat, b: nat, x: nat)
    requires Inv(a, s, n) && b in a.bundles && b in s && x < n && x < |a.bundles[b].free| && !a.bundles[b].free[x]
    requires a.bundles[b].refcount > 1
    ensures Inv(a.(bundles := a.bundles[b := Given(a.bundles[b], x)]), s, n)
  {
    hide BundleOk, SlotsOk, OpenOk, ListOk;
    OneOk(a.bundles, n, b);
    GivenOk(a.bundles[b], x, n);
    SlotsUpdate(a.bundles, n, b, Given(a.bundles[b], x));
    OpenSame(a.bundles, s, n, b, Given(a.bundles[b], x));
  }

  lemma OpenAdded(bundles: map<nat, Bundle>, s: seq<nat>, n: nat, b: nat, v: Bundle)
    requires OpenOk(bundles, s, n) && b !in s && 0 < v.refcount < n
    ensures OpenOk(bundles[b := v], [b] + s, n)
  {
    assert forall c :: c in [b] + s <==> c == b || c in s;
    assert s != [] ==> ([b] + s)[|s|] == s[|s| - 1];
  }

  lemma HeadJoins(prev: map<nat, nat>, next: map<nat, nat>, head: nat, s: seq<nat>, b: nat)
    requires ListOk(prev, next, head, s) && b != NULL && b !in s
    ensures var prev' := prev[b := NULL];
      ListOk(if head != NULL then prev'[head := b] else prev', next[b := head], b, [b] + s)
  {
    hide PrevOk, NextOk;
    HeadPrev(prev, s, b);
    HeadNext(next, s, b);
    NoDupCons(b, s);
    assert s != [] ==> s[0] in s;
  }

  lemma GiveReopens(a: Alloc, s: seq<nat>, n: nat, b: nat, x: nat)
    requires Inv(a, s, n) && b in a.bundles && b !in s && x < n && x < |a.bundles[b].free| && !a.bundles[b].free[x]
    requires a.bundles[b].refcount > 1
    ensures
      var prev := a.prev[b := NULL];
      Inv(Alloc(a.bundles[b := Given(a.bundles[b], x)], if a.head != NULL then prev[a.head := b] else prev,
                a.next[b := a.head], b), [b] + s, n)
  {
    hide BundleOk, SlotsOk, OpenOk, PrevOk, NextOk, NoDup;
    OneOk(a.bundles, n, b);
    GivenOk(a.bundles[b], x, n);
    SlotsUpdate(a.bundles, n, b, Given(a.bundles[b], x));
    OpenAdded(a.bundles, s, n, b, Given(a.bundles[b], x));
    HeadJoins(a.prev, a.next, a.head, s, b);
    assert a.head != NULL ==> a.head in [b] + s;
  }

  lemma MiddleLeaves(prev: map<nat, nat>, next: map<nat, nat>, head: nat, s: seq<nat>, i: nat)
    requires ListOk(prev, next, head, s) && i < |s|
    ensures var p, q, r := At(s, i - 1), At(s, i + 1), s[..i] + s[i + 1..];
      && ListOk(if q != NULL then prev[q := p] else prev, if p != NULL then next[p := q] else next,
                if head == s[i] then q else head, r)
      && (forall c :: c in r <==> c in s && c != s[i])
      && s[i] in prev && s[i] in next && prev[s[i]] == p && next[s[i]] == q
  {
    var r := s[..i] + s[i + 1..];
    assert forall j :: 0 <= j < |s| ==> s[j] in s;
    assert forall j :: 0 <= j < |r| ==> r[j] == if j < i then s[j] else s[j + 1];
    UnlinkPrev(prev, s, i);
    UnlinkNext(next, s, i);
    RestHas(s, i);
  }

  lemma RestHas(s: seq<nat>, i: nat)
    requires NoDup(s) && i < |s|
    ensures var r := s[..i] + s[i + 1..]; NoDup(r) && forall c :: c in r <==> c in s && c != s[i]
  {
    WithoutAt(s, i);
    WithoutFacts(s, s[i]);
  }

  /** Only the last of the open list can be idle, so the one that leaves empty is not missed. */
  lemma IdleOpen(bundles: map<nat, Bundle>, s: seq<nat>, n: nat, i: nat)
    requires OpenOk(bundles, s, n) && NoDup(s) && i < |s|
    requires forall c :: c in s[..i] + s[i + 1..] <==> c in s && c != s[i]
    ensures OpenOk(bundles - {s[i]}, s[..i] + s[i + 1..], n)
  {
    var r := s[..i] + s[i + 1..];
    forall b | b in bundles - {s[i]} && bundles[b].refcount == 0
      ensures r != [] && b == r[|r| - 1]
    {
      assert b == s[|s| - 1] && b in r;
    }
  }

  lemma IdleLeaves(a: Alloc, s: seq<nat>, n: nat, b: nat, x: nat) returns (r: seq<nat>)
    requires Inv(a, s, n) && b in a.bundles && x < n && x < |a.bundles[b].free| && !a.bundles[b].free[x]
    requires a.bundles[b].refcount == 1 && b in s && b in a.prev && b in a.next
    ensures var p, q := a.prev[b], a.next[b];
      Inv(Alloc(a.bundles - {b}, if q != NULL then a.prev[q := p] else a.prev,
        if p != NULL then a.next[p := q] else a.next,
                if a.head == b then q else a.head), r, n)
  {
    hide BundleOk, SlotsOk, OpenOk, PrevOk, NextOk;
    var i :| 0 <= i < |s| && s[i] == b;
    r := s[..i] + s[i + 1..];
    MiddleLeaves(a.prev, a.next, a.head, s, i);
    SlotsUpdate(a.bundles, n, b, NewBundle(n)) by { NewBundleOk(n); }
    IdleOpen(a.bundles, s, n, i);
    var p, q := At(s, i - 1), At(s, i + 1);
    assert (p != NULL ==> p in s && p != b) && (q != NULL ==> q in s && q != b);
  }

  lemma LiveTaken(a: Alloc, r: Alloc, b: nat, x: nat)
    requires b in a.bundles && x < |a.bundles[b].free| && a.bundles[b].free[x]
    requires r.bundles == a.bundles[b := Taken(a.bundles[b], x)]
    ensures !Live(a, Slot(b, x)) && Live(r, Slot(b, x))
    ensures forall t :: t != Slot(b, x) ==> (Live(r, t) <==> Live(a, t))
  {
  }

  lemma LiveFresh(a: Alloc, n: nat, b: nat)
    requires b !in a.bundles && n > 0
    ensures var bundles := a.bundles[b := NewBundle(n)];
      forall r: Alloc :: r.bundles == bundles ==>
        !Live(a, Slot(b, 0)) && Live(r, Slot(b, 0)) && forall t :: t != Slot(b, 0) ==> (Live(r, t) <==> Live(a, t))
  {
  }

  lemma SlotCount(b: Bundle, n: nat)
    requires BundleOk(b, n)
    ensures |b.free| == n
  {
  }

  lemma LiveGiven(a: Alloc, r: Alloc, b: nat, x: nat, n: nat)
    requires b in a.bundles && BundleOk(a.bundles[b], n) && x < n && !a.bundles[b].free[x]
    requires
      || (b in r.bundles && r.bundles[b].free == Given(a.bundles[b], x).free &&
        r.bundles == a.bundles[b := r.bundles[b]])
      || (r.bundles == a.bundles - {b} && a.bundles[b].refcount == 1)
    ensures forall t :: Live(r, t) <==> Live(a, t) && t != Slot(b, x)
  {
    GivenOk(a.bundles[b], x, n);
    var free := Given(a.bundles[b], x).free;
    UsedBounds(free);
    assert forall i :: 0 <= i < n && i != x ==> free[i] == a.bundles[b].free[i];
  }
}
