/** The doubly linked LRU lists of items.c at the level of their prev and next pointers, including
    the crawler's walk through them. */
module LruList {
  import opened Sums

  /** A node is an address; NULL is 0. */
  const NULL := 0

  datatype Links = Links(prev: map<nat, nat>, next: map<nat, nat>, head: nat, tail: nat)

  ghost function At(s: seq<nat>, i: int): nat {
    if 0 <= i < |s| then s[i] else NULL
  }

  ghost predicate PrevOk(prev: map<nat, nat>, s: seq<nat>) {
    forall i :: 0 <= i < |s| ==> s[i] in prev && prev[s[i]] == At(s, i - 1)
  }

  ghost predicate NextOk(next: map<nat, nat>, s: seq<nat>) {
    forall i :: 0 <= i < |s| ==> s[i] in next && next[s[i]] == At(s, i + 1)
  }

  /** The pointers spell out the sequence s from head to tail. */
  ghost predicate Spells(k: Links, s: seq<nat>) {
    && NoDup(s) && NULL !in s
    && k.head == At(s, 0) && k.tail == At(s, |s| - 1)
    && PrevOk(k.prev, s) && NextOk(k.next, s)
  }

  /** A node the crawler has taken off the head but whose own pointers still stand. */
  ghost predicate Popped(k: Links, s: seq<nat>, x: nat) {
    && x != NULL && x !in s && s != [] && x in k.prev && x in k.next
    && k.prev[x] == NULL && k.next[x] == s[0]
  }

  ghost function Swapped(s: seq<nat>, i: nat): seq<nat>
    requires 0 < i < |s|
  {
    s[i := s[i - 1]][i - 1 := s[i]]
  }

  class LinkedList {
    var k: Links
    ghost var s: seq<nat>

    ghost predicate Valid()
      reads this
    {
      Spells(k, s)
    }

    constructor ()
      ensures Valid() && s == []
    {
      k := Links(map[], map[], NULL, NULL);
      s := [];
    }

    /** The item becomes the new head. */
    method LinkHead(x: nat)
      requires Valid() && x != NULL && x !in s
      modifies this
      ensures Valid() && s == [x] + old(s)
    {
      hide PrevOk, NextOk, NoDup;
      var head := k.head;
      HeadSpells(k, s, x);
      k := k.(prev := k.prev[x := NULL], next := k.next[x := head]);
      if head != NULL {
        k := k.(prev := k.prev[head := x]);
      }
      k := k.(head := x);
      if k.tail == NULL {
        k := k.(tail := x);
      }
      s := [x] + s;
    }

    /** The crawler becomes the new tail. */
    method LinkTail(x: nat)
      requires Valid() && x != NULL && x !in s
      modifies this
      ensures Valid() && s == old(s) + [x]
    {
      hide PrevOk, NextOk, NoDup;
      var tail := k.tail;
      TailSpells(k, s, x);
      k := k.(prev := k.prev[x := tail], next := k.next[x := NULL]);
      if tail != NULL {
        k := k.(next := k.next[tail := x]);
      }
      k := k.(tail := x);
      if k.head == NULL {
        k := k.(head := x);
      }
      s := s + [x];
    }

    /** Take a node out from the head, the tail or the middle.  A node that has been popped off the
        head before is left out as it is. */
    method Unlink(x: nat)
      requires Valid() && (x in s || Popped(k, s, x))
      modifies this
      ensures Valid() && s == Without(old(s), x)
    {
      hide PrevOk, NextOk, NoDup, Without;
      ghost var i := NodeAt(k, s, x);
      ghost var was := s;
      if x in s {
        NodeAsserts(k, s, x, i);
      } else {
        PoppedAsserts(k, s, x);
      }
      var prev, next := k.prev[x], k.next[x];
      if k.head == x {
        assert prev == NULL;
        k := k.(head := next);
      }
      if k.tail == x {
        assert next == NULL;
        k := k.(tail := prev);
      }
      assert next != x && prev != x;
      if next != NULL {
        k := k.(prev := k.prev[next := prev]);
      }
      if prev != NULL {
        k := k.(next := k.next[prev := next]);
      }
      s := Without(s, x);
      if x in was {
        UnlinkSpells(old(k), was, i);
      } else {
        PoppedSpells(old(k), was, x);
      }
    }

    /** One step of the crawler towards the head: it changes places with the item before it and
        returns that item, or pops off the head and returns NULL. */
    method Crawl(x: nat) returns (item: nat, ghost i: nat)
      requires Valid() && x in s
      modifies this
      ensures Valid() && i < |old(s)| && old(s)[i] == x
      ensures i > 0 ==> item == old(s)[i - 1] && s == Swapped(old(s), i)
      ensures i == 0 ==> item == NULL && (if |old(s)| == 1 then s == old(s) else s == old(s)[1..] && Popped(k, s, x))
    {
      hide PrevOk, NextOk, NoDup;
      i := NodeAt(k, s, x);
      NodeAsserts(k, s, x, i);
      ghost var was, first := s, k;
      var prev, next := k.prev[x], k.next[x];
      if prev == NULL {
        assert k.head == x;
        if next != NULL {
          assert k.prev[next] == x;
          k := k.(head := next, prev := k.prev[next := NULL]);
          s := s[1..];
          PopSpells(first, was);
        }
        return NULL, i;
      }
      assert prev != x && next != x && k.next[prev] == x;
      if k.head == prev {
        k := k.(head := x);
      }
      if k.tail == x {
        k := k.(tail := prev);
      }
      if next != NULL {
        k := k.(next := k.next[prev := next], prev := k.prev[next := prev]);
      } else {
        k := k.(next := k.next[prev := NULL]);
      }
      CrawlSpells(first, was, i);
      k := k.(next := k.next[x := prev]);
      k := k.(prev := k.prev[x := k.prev[prev]]);
      k := k.(prev := k.prev[prev := x]);
      var above := k.prev[x];
      if above != NULL {
        k := k.(next := k.next[above := x]);
      }
      s := Swapped(was, i);
      return prev, i;
    }
  }

  /** Where a node stands, and what its neighbours are. */
  lemma NodeAt(k: Links, s: seq<nat>, x: nat) returns (i: nat)
    requires Spells(k, s) && (x in s || Popped(k, s, x))
    ensures x in k.prev && x in k.next && x != NULL
    ensures x in s ==> i < |s| && s[i] == x && k.prev[x] == At(s, i - 1) && k.next[x] == At(s, i + 1)
    ensures x in s ==> Without(s, x) == s[..i] + s[i + 1..]
    ensures x in s ==> (forall j :: 0 <= j < |s| && s[j] == x ==> j == i) && forall j :: 0 <= j < |s| ==> s[j] != NULL
    ensures x in s && i > 0 ==> s[i - 1] in k.prev && k.prev[s[i - 1]] == At(s, i - 2)
    ensures x !in s ==> Without(s, x) == s
  {
    i := 0;
    if x in s {
      i :| 0 <= i < |s| && s[i] == x;
      WithoutAt(s, i);
    } else {
      WithoutAbsent(s, x);
    }
  }

  /** The asserts the code makes about a node it is about to move. */
  lemma NodeAsserts(k: Links, s: seq<nat>, x: nat, i: nat)
    requires Spells(k, s) && i < |s| && s[i] == x
    ensures x in k.prev && x in k.next
    ensures (k.head == x ==> k.prev[x] == NULL) && (k.tail == x ==> k.next[x] == NULL)
    ensures k.next[x] != x && k.prev[x] != x
    ensures k.prev[x] == NULL ==> k.head == x
    ensures k.next[x] != NULL ==> k.next[x] in k.prev && k.prev[k.next[x]] == x
    ensures k.prev[x] != NULL ==> k.prev[x] in k.next && k.next[k.prev[x]] == x
  {
    assert forall j :: 0 <= j < |s| ==> s[j] in s;
  }

  lemma PoppedAsserts(k: Links, s: seq<nat>, x: nat)
    requires Spells(k, s) && Popped(k, s, x)
    ensures k.head != x && k.tail != x && k.next[x] != x && k.prev[x] != x
  {
    assert s[0] in s && s[|s| - 1] in s;
  }

  lemma UnlinkPrev(prev: map<nat, nat>, s: seq<nat>, i: nat)
    requires NoDup(s) && i < |s| && PrevOk(prev, s)
    ensures PrevOk(if i + 1 < |s| then prev[s[i + 1] := At(s, i - 1)] else prev, s[..i] + s[i + 1..])
  {
    var r := s[..i] + s[i + 1..];
    var prev' := if i + 1 < |s| then prev[s[i + 1] := At(s, i - 1)] else prev;
    forall j | 0 <= j < |r|
      ensures r[j] in prev' && prev'[r[j]] == At(r, j - 1)
    {
      assert r[j] == if j < i then s[j] else s[j + 1];
    }
  }

  lemma UnlinkNext(next: map<nat, nat>, s: seq<nat>, i: nat)
    requires NoDup(s) && i < |s| && NextOk(next, s)
    ensures NextOk(if i > 0 then next[s[i - 1] := At(s, i + 1)] else next, s[..i] + s[i + 1..])
  {
    var r := s[..i] + s[i + 1..];
    var next' := if i > 0 then next[s[i - 1] := At(s, i + 1)] else next;
    forall j | 0 <= j < |r|
      ensures r[j] in next' && next'[r[j]] == At(r, j + 1)
    {
      assert r[j] == if j < i then s[j] else s[j + 1];
    }
  }

  lemma UnlinkSpells(k: Links, s: seq<nat>, i: nat)
    requires Spells(k, s) && i < |s|
    ensures var p, n := At(s, i - 1), At(s, i + 1);
      Spells(Links(if n != NULL then k.prev[n := p] else k.prev, if p != NULL then k.next[p := n] else k.next,
                   if k.head == s[i] then n else k.head, if k.tail == s[i] then p else k.tail),
             s[..i] + s[i + 1..])
  {
    hide PrevOk, NextOk;
    UnlinkPrev(k.prev, s, i);
    UnlinkNext(k.next, s, i);
    var r := s[..i] + s[i + 1..];
    assert forall j :: 0 <= j < |r| ==> r[j] == if j < i then s[j] else s[j + 1];
    assert forall j :: 0 <= j < |s| ==> s[j] != NULL;
  }

  /** Unlinking a popped node writes what is already there. */
  lemma PoppedSpells(k: Links, s: seq<nat>, x: nat)
    requires Spells(k, s) && Popped(k, s, x)
    ensures k.next[x] != NULL && k.head != x && k.tail != x
    ensures Spells(k.(prev := k.prev[k.next[x] := k.prev[x]]), s)
  {
    assert k.prev[k.next[x] := k.prev[x]] == k.prev;
  }

  lemma PopSpells(k: Links, s: seq<nat>)
    requires Spells(k, s) && |s| > 1
    ensures var r := k.(head := s[1], prev := k.prev[s[1] := NULL]);
      Spells(r, s[1..]) && Popped(r, s[1..], s[0])
  {
    hide PrevOk, NextOk, NoDup;
    UnlinkSpells(k, s, 0);
    assert s[..0] + s[1..] == s[1..];
    HeadOf(k, s);
  }

  lemma HeadOf(k: Links, s: seq<nat>)
    requires Spells(k, s) && |s| > 1
    ensures s[0] in k.prev && s[0] in k.next && k.prev[s[0]] == NULL && k.next[s[0]] == s[1] && k.tail != s[0]
    ensures s[0] != NULL && s[1] != NULL && s[0] != s[1] && s[0] !in s[1..] && k.head == s[0]
  {
    assert s[0] in s && s[1] in s;
  }

  lemma HeadPrev(prev: map<nat, nat>, s: seq<nat>, x: nat)
    requires NoDup(s) && x !in s && PrevOk(prev, s)
    ensures PrevOk(if s != [] then prev[x := NULL][s[0] := x] else prev[x := NULL], [x] + s)
  {
    var r := [x] + s;
    assert forall j :: 0 < j < |r| ==> r[j] == s[j - 1];
  }

  lemma HeadNext(next: map<nat, nat>, s: seq<nat>, x: nat)
    requires x !in s && NextOk(next, s)
    ensures NextOk(next[x := At(s, 0)], [x] + s)
  {
    var r := [x] + s;
    assert forall j :: 0 < j < |r| ==> r[j] == s[j - 1];
  }

  lemma HeadSpells(k: Links, s: seq<nat>, x: nat)
    requires Spells(k, s) && x != NULL && x !in s
    ensures var prev := k.prev[x := NULL];
      Spells(Links(if k.head != NULL then prev[k.head := x] else prev, k.next[x := k.head], x,
                   if k.tail == NULL then x else k.tail), [x] + s)
  {
    hide PrevOk, NextOk;
    HeadPrev(k.prev, s, x);
    HeadNext(k.next, s, x);
    NoDupCons(x, s);
    assert s != [] ==> s[0] in s && s[|s| - 1] in s;
  }

  lemma TailPrev(prev: map<nat, nat>, s: seq<nat>, x: nat)
    requires x !in s && PrevOk(prev, s)
    ensures PrevOk(prev[x := At(s, |s| - 1)], s + [x])
  {
  }

  lemma TailNext(next: map<nat, nat>, s: seq<nat>, x: nat)
    requires NoDup(s) && x !in s && NextOk(next, s)
    ensures NextOk(if s != [] then next[x := NULL][s[|s| - 1] := x] else next[x := NULL], s + [x])
  {
  }

  lemma TailSpells(k: Links, s: seq<nat>, x: nat)
    requires Spells(k, s) && x != NULL && x !in s
    ensures var next := k.next[x := NULL];
      Spells(Links(k.prev[x := k.tail], if k.tail != NULL then next[k.tail := x] else next,
                   if k.head == NULL then x else k.head, x), s + [x])
  {
    hide PrevOk, NextOk;
    TailPrev(k.prev, s, x);
    TailNext(k.next, s, x);
    assert s != [] ==> s[0] in s && s[|s| - 1] in s;
    assert NoDup(s + [x]);
  }

  lemma SwappedAt(s: seq<nat>, i: nat)
    requires NoDup(s) && 0 < i < |s|
    ensures var r := Swapped(s, i);
      && NoDup(r)
      && forall j :: 0 <= j < |r| ==> r[j] == if j == i then s[i - 1] else if j == i - 1 then s[i] else s[j]
  {
  }

  lemma CrawlPrev(prev: map<nat, nat>, s: seq<nat>, i: nat)
    requires NoDup(s) && 0 < i < |s| && PrevOk(prev, s)
    ensures var prev' := if i + 1 < |s| then prev[s[i + 1] := s[i - 1]] else prev;
      PrevOk(prev'[s[i] := At(s, i - 2)][s[i - 1] := s[i]], Swapped(s, i))
  {
    var r := Swapped(s, i);
    SwappedAt(s, i);
    var prev': map<nat, nat> := if i + 1 < |s| then prev[s[i + 1] := s[i - 1]] else prev;
    var all: map<nat, nat> := prev'[s[i] := At(s, i - 2)][s[i - 1] := s[i]];
    forall j | 0 <= j < |r|
      ensures r[j] in all && all[r[j]] == At(r, j - 1)
    {
      assert r[j] == if j == i then s[i - 1] else if j == i - 1 then s[i] else s[j];
      assert j > 0 ==> r[j - 1] == if j - 1 == i then s[i - 1] else if j - 1 == i - 1 then s[i] else s[j - 1];
    }
  }

  lemma CrawlNext(next: map<nat, nat>, s: seq<nat>, i: nat)
    requires NoDup(s) && 0 < i < |s| && NextOk(next, s)
    ensures var next' := next[s[i - 1] := At(s, i + 1)][s[i] := s[i - 1]];
      NextOk(if i >= 2 then next'[s[i - 2] := s[i]] else next', Swapped(s, i))
  {
    var r := Swapped(s, i);
    SwappedAt(s, i);
    var next': map<nat, nat> := next[s[i - 1] := At(s, i + 1)][s[i] := s[i - 1]];
    var all: map<nat, nat> := if i >= 2 then next'[s[i - 2] := s[i]] else next';
    forall j | 0 <= j < |r|
      ensures r[j] in all && all[r[j]] == At(r, j + 1)
    {
      assert r[j] == if j == i then s[i - 1] else if j == i - 1 then s[i] else s[j];
      assert j + 1 < |r| ==> r[j + 1] == if j + 1 == i then s[i - 1] else if j + 1 == i - 1 then s[i] else s[j + 1];
    }
  }

  /** The neighbours of a node in the middle. */
  lemma Around(k: Links, s: seq<nat>, i: nat)
    requires Spells(k, s) && 0 < i < |s|
    ensures s[i - 1] in k.prev && k.prev[s[i - 1]] == At(s, i - 2)
    ensures s[i - 1] != NULL && s[i] != NULL && s[i - 1] != s[i]
    ensures i + 1 < |s| ==> s[i + 1] != NULL && s[i + 1] != s[i - 1]
    ensures i >= 2 ==> s[i - 2] != NULL
    ensures k.head == s[i - 1] <==> i == 1
    ensures k.tail == s[i] <==> i == |s| - 1
  {
    assert s[0] in s;
  }

  /** The pointers after the crawler x and the item p before it have changed places. */
  ghost function CrawledLinks(k: Links, x: nat, p: nat, n: nat, above: nat): Links {
    var prev: map<nat, nat> := if n != NULL then k.prev[n := p] else k.prev;
    var next: map<nat, nat> := k.next[p := n][x := p];
    Links(prev[x := above][p := x], if above != NULL then next[above := x] else next,
          if k.head == p then x else k.head, if k.tail == x then p else k.tail)
  }

  lemma CrawlSpells(k: Links, s: seq<nat>, i: nat)
    requires Spells(k, s) && 0 < i < |s|
    ensures Spells(CrawledLinks(k, s[i], s[i - 1], At(s, i + 1), At(s, i - 2)), Swapped(s, i))
    ensures s[i - 1] in k.prev && k.prev[s[i - 1]] == At(s, i - 2) && (At(s, i + 1) != NULL ==>
      At(s, i + 1) != s[i - 1])
  {
    hide PrevOk, NextOk, NoDup;
    Around(k, s, i);
    CrawlPrev(k.prev, s, i);
    CrawlNext(k.next, s, i);
    SwappedAt(s, i);
    var r := Swapped(s, i);
    assert NULL !in r by {
      assert forall j :: 0 <= j < |s| ==> s[j] != NULL;
    }
  }
}
