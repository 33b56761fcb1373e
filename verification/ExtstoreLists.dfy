/** The linked lists of the page engine, pointer by pointer: the queue of an IO thread and the lists
    the pages are on. */
module ExtstoreLists {
  import opened Sums
  import opened ExtstoreModel
  import opened ExtstoreInvariant
  import opened ExtstorePageProof
  import opened ExtstoreRuns
  import opened ExtstoreTheorems
  import opened L = LruList

  // ---------------------------------------------------------------- chains of next pointers

  /** The pointers lead from head through s and end. */
  ghost predicate Chained(next: map<nat, nat>, head: nat, s: seq<nat>) {
    NoDup(s) && NULL !in s && head == At(s, 0) && NextOk(next, s)
  }

  /** Hang one chain behind another. */
  lemma JoinChains(next: map<nat, nat>, a: seq<nat>, b: seq<nat>)
    requires Chained(next, At(a, 0), a) && Chained(next, At(b, 0), b) && a != [] && b != []
    requires forall x :: x in a ==> x !in b
    ensures Chained(next[a[|a| - 1] := b[0]], a[0], a + b)
  {
    var s, next' := a + b, next[a[|a| - 1] := b[0]];
    forall i | 0 <= i < |s|
      ensures s[i] in next' && next'[s[i]] == At(s, i + 1)
    {
      if i < |a| {
        assert s[i] == a[i];
      } else {
        assert s[i] == b[i - |a|] && b[i - |a|] in b;
      }
    }
    assert forall i :: 0 <= i < |b| ==> b[i] in b;
    assert forall i :: 0 <= i < |a| ==> a[i] in a;
  }

  /** Cut a chain after its first i nodes. */
  lemma CutChain(next: map<nat, nat>, s: seq<nat>, i: nat)
    requires Chained(next, At(s, 0), s) && 0 < i <= |s|
    ensures var next' := next[s[i - 1] := NULL];
      Chained(next', s[0], s[..i]) && Chained(next', At(s, i), s[i..])
  {
    assert forall j :: 0 <= j < |s| ==> s[j] in s;
    assert forall j :: 0 <= j < i ==> s[..i][j] == s[j];
    assert forall j :: 0 <= j < |s| - i ==> s[i..][j] == s[i + j];
  }

  // ---------------------------------------------------------------- the queue of an IO thread

  ghost function Ios(io: map<nat, Io>, s: seq<nat>): (r: seq<Io>)
    requires forall x :: x in s ==> x in io
    ensures |r| == |s|
  {
    seq(|s|, (k: nat) requires k < |s| => io[s[k]])
  }

  lemma IosAdd(io: map<nat, Io>, a: seq<nat>, b: seq<nat>)
    requires forall x :: x in a + b ==> x in io
    ensures (forall x :: x in a ==> x in io) && (forall x :: x in b ==> x in io)
    ensures Ios(io, a + b) == Ios(io, a) + Ios(io, b)
  {
    assert forall x :: x in a ==> x in a + b;
    assert forall x :: x in b ==> x in a + b;
  }

  /** An IO thread's queue: IOs are nodes of a heap, given by their addresses. */
  class IoQueue {
    const io: map<nat, Io>
    var next: map<nat, nat>
    var queue: nat
    var tail: nat      // means nothing while the queue is empty
    var depth: int
    ghost var nodes: seq<nat>

    /** The queue is that of thread th of the model. */
    ghost predicate Holds(th: IoThread)
      reads this
    {
      && Chained(next, queue, nodes) && (nodes != [] ==> tail == nodes[|nodes| - 1])
      && (forall x :: x in nodes ==> x in io) && Ios(io, nodes) == th.queue && depth == th.depth == |nodes|
    }

    constructor (io: map<nat, Io>, next: map<nat, nat>)
      ensures this.io == io && this.next == next && nodes == [] && Holds(IoThread([], 0, [], Start))
    {
      this.io, this.next := io, next;
      queue, tail, depth, nodes := NULL, NULL, 0, [];
    }

    /** extstore_submit: count the chain, find its end, and hang it behind the queue.  Both asserts of
        the code hold. */
    method Submit(first: nat, ghost chain: seq<nat>, ghost s: Engine, ghost t: nat)
      requires t < |s.threads| && Holds(s.threads[t])
      requires Chained(next, first, chain) && chain != [] && forall x :: x in chain ==> x in io && x !in nodes
      modifies this
      ensures nodes == old(nodes) + chain && Holds(SubmitReads(s, t, Ios(io, chain)).threads[t])
    {
      hide NoDup;
      var count, tio, last := 0, first, NULL;
      while tio != NULL
        invariant 0 <= count <= |chain| && tio == At(chain, count) && last == At(chain, count - 1)
        decreases |chain| - count
      {
        last := tio;
        count := count + 1;
        tio := next[tio];
      }
      depth := depth + count;
      if queue == NULL {
        queue := first;
      } else {
        assert next[last] == NULL;
        assert next[tail] == NULL;
        JoinChains(next, nodes, chain);
        next := next[tail := first];
      }
      tail := last;
      IosAdd(io, nodes, chain);
      assert nodes == [] ==> nodes + chain == chain;
      nodes := nodes + chain;
    }

    /** Detach a batch of at most ioDepth IOs from the front. */
    method TakeBatch(ioDepth: nat, ghost s: Engine, ghost t: nat) returns (batch: nat, ghost taken: seq<nat>)
      requires t < |s.threads| && Holds(s.threads[t]) && ioDepth == s.conf.ioDepth && s.threads[t].queue != []
      modifies this
      ensures old(nodes) == taken + nodes && Chained(next, batch, taken) && forall x :: x in taken ==> x in io
      ensures var th := ExtstoreModel.TakeBatch(s, t).threads[t]; Holds(th) && Ios(io, taken) == th.batch
    {
      hide Chained, Ios;
      ghost var was := nodes;
      HeadIs(next, queue, was);
      batch := queue;
      var end, i := queue, 1;
      while i < ioDepth
        invariant 1 <= i <= |was| && end == was[i - 1] && (i <= ioDepth || i == 1)
        invariant nodes == was && queue == was[0] && next == old(next) && depth == |was| && tail == was[|was| - 1]
        decreases ioDepth - i
      {
        NodeNext(next, queue, was, i - 1);
        if next[end] != NULL {
          end := next[end];
        } else {
          NoNull(next, queue, was);
          tail := next[end];
          break;
        }
        i := i + 1;
      }
      NodeNext(next, queue, was, i - 1);
      assert i == BatchSize(ioDepth, |was|);
      depth := depth - i;
      CutChain(next, was, i);
      queue := next[end];
      next := next[end := NULL];
      taken, nodes := was[..i], was[i..];
      assert was == taken + nodes;
      IosAdd(io, taken, nodes);
    }
  }

  // ---------------------------------------------------------------- the lists of pages

  lemma ElsewhereChained(next: map<nat, nat>, head: nat, s: seq<nat>, p: nat, to: nat)
    requires Chained(next, head, s) && p !in s
    ensures Chained(next[p := to], head, s)
  {
  }

  lemma PopChain(next: map<nat, nat>, s: seq<nat>)
    requires Chained(next, At(s, 0), s) && s != []
    ensures s[0] in next && Chained(next, next[s[0]], s[1..]) && s[0] !in s[1..] && s[0] != NULL
  {
    assert s[0] in s;
    assert forall j :: 0 <= j < |s| - 1 ==> s[1..][j] == s[j + 1];
  }

  lemma PushChain(next: map<nat, nat>, head: nat, s: seq<nat>, p: nat)
    requires Chained(next, head, s) && p !in s && p != NULL
    ensures Chained(next[p := head], p, [p] + s)
  {
    HeadNext(next, s, p);
    NoDupCons(p, s);
  }

  lemma NodeNext(next: map<nat, nat>, head: nat, s: seq<nat>, i: nat)
    requires Chained(next, head, s) && i < |s|
    ensures s[i] in next && next[s[i]] == At(s, i + 1) && s[i] != NULL
  {
    assert s[i] in s;
  }

  lemma NotThere(s: seq<nat>, i: nat)
    requires NoDup(s) && NULL !in s && i < |s|
    ensures var r := s[..i] + s[i + 1..]; NoDup(r) && NULL !in r && s[i] !in r
    ensures Without(s, s[i]) == s[..i] + s[i + 1..]
  {
    WithoutAt(s, i);
    WithoutFacts(s, s[i]);
  }

  /** Take the node at position i out of a chain, the pointer before it being found on the way. */
  lemma UnlinkChain(next: map<nat, nat>, head: nat, s: seq<nat>, i: nat)
    requires Chained(next, head, s) && i < |s|
    ensures s[i] in next && s[i] !in Without(s, s[i])
    ensures Chained(if i > 0 then next[s[i - 1] := next[s[i]]] else next, if i > 0 then head else next[s[i]],
                    Without(s, s[i]))
  {
    hide NextOk, NoDup, Without;
    NotThere(s, i);
    UnlinkNext(next, s, i);
    NodeNext(next, head, s, i);
  }

  /** The page lists: page 0 is on none of them, so its number serves as the null pointer. */
  class PageLists {
    var next: map<nat, nat>
    var buckets: seq<nat>
    var frees: seq<nat>   // [0] is page_freelist

    /** The pointers spell the lists of an engine. */
    ghost predicate Spell(lists: seq<seq<nat>>, free: seq<seq<nat>>)
      reads this
    {
      AllChained(next, buckets, lists) && AllChained(next, frees, free)
    }

    /** The loop of extstore_init: from the last page down, each page but page 0 goes on its free list. */
    constructor (homes: seq<nat>, n: nat)
      requires homes != [] && forall p :: 0 <= p < |homes| ==> homes[p] < n
      ensures Spell(seq(n, (b: nat) => []), FreeLists(homes, n))
    {
      hide Chained, FreeListFrom;
      next, buckets, frees := map[], seq(n, (b: nat) => NULL), seq(n, (f: nat) => NULL);
      new;
      NoneFree(homes, n);
      var i := |homes|;
      while i > 1
        invariant 1 <= i <= |homes| && |frees| == n && |buckets| == n
        invariant buckets == seq(n, (b: nat) => NULL)
        invariant forall f :: 0 <= f < n ==> Chained(next, frees[f], FreeListFrom(homes, f, i))
      {
        i := i - 1;
        OneFree(next, frees, homes, n, i);
        next := next[i := frees[homes[i]]];
        frees := frees[homes[i] := i];
      }
      EmptyChains(next, n);
    }

    /** _allocate_page: from the special free list first, failing that from the default one. */
    method Allocate(b: nat, fb: nat, pageFree: int, ghost s: Engine) returns (page: nat)
      requires Inv(s) && b < s.conf.pageBuckets && fb < s.conf.pageBuckets && pageFree == s.pageFree
      requires Spell(s.buckets, s.freeLists)
      modifies this
      ensures var s' := AllocatePage(s, b, fb);
        && Spell(s'.buckets, s'.freeLists)
        && s'.buckets == if page == NULL then s.buckets else s.buckets[b := [page] + s.buckets[b]]
    {
      hide Inv, Chained;
      InvShape(s);
      ListsApart(s);
      page := NULL;
      ghost var l := if fb != 0 && s.freeLists[fb] != [] then fb else 0;
      HeadIs(next, frees[fb], s.freeLists[fb]);
      HeadIs(next, frees[0], s.freeLists[0]);
      if s.freeLists[l] != [] {
        FreeApart(s, l);
        PopChain(next, s.freeLists[l]);
      }
      if fb != 0 && frees[fb] != NULL {
        assert pageFree > 0;
        page := frees[fb];
        frees := frees[fb := next[page]];
      }
      if page == NULL && frees[0] != NULL {
        page := frees[0];
        frees := frees[0 := next[page]];
      }
      if pageFree > 0 && page != NULL {
        MovedHead(next, old(frees), s.freeLists, buckets, s.buckets, l, b);
        next := next[page := buckets[b]];
        buckets := buckets[b := page];
      }
    }

    /** _free_page: walk the bucket list to the page, cut it out, and put it on its free list. */
    method Free(p: nat, b: nat, f: nat, ghost s: Engine)
      requires Inv(s) && p < s.conf.pageCount && !s.places[p].free && Spell(s.buckets, s.freeLists)
      requires b == s.places[p].bucket && f == s.places[p].freeBucket
      modifies this
      ensures var s' := FreePage(s, p); Spell(s'.buckets, s'.freeLists)
    {
      hide Inv, Chained;
      InvShape(s);
      ListsApart(s);
      ghost var list := s.buckets[b];
      ghost var at := PlaceOf(list, p);
      HeadIs(next, buckets[b], list);
      NoNull(next, buckets[b], list);
      var tmp, prev := buckets[b], NULL;
      ghost var i := 0;
      while tmp != NULL
        invariant next == old(next) && buckets == old(buckets) && frees == old(frees)
        invariant i <= at && tmp == list[i] && prev == At(list, i - 1)
        decreases at - i
      {
        NodeNext(next, buckets[b], list, i);
        PlaceFirst(next, buckets[b], list, at, i);
        if tmp == p {
          CutOut(next, buckets, s.buckets, frees, s.freeLists, b, i, f);
          if prev != NULL {
            next := next[prev := next[tmp]];
          } else {
            buckets := buckets[b := next[tmp]];
          }
          ghost var cut := next;
          next := next[tmp := NULL];
          assert next[p := frees[f]] == cut[p := frees[f]];
          break;
        }
        prev := tmp;
        tmp := next[tmp];
        i := i + 1;
      }
      next := next[p := frees[f]];
      frees := frees[f := p];
    }
  }

  lemma NoNull(next: map<nat, nat>, head: nat, s: seq<nat>)
    requires Chained(next, head, s)
    ensures forall j :: 0 <= j < |s| ==> s[j] != NULL
  {
    assert forall j :: 0 <= j < |s| ==> s[j] in s;
  }

  lemma PlaceOf(s: seq<nat>, p: nat) returns (at: nat)
    requires p in s
    ensures at < |s| && s[at] == p
  {
    at :| 0 <= at < |s| && s[at] == p;
  }

  lemma EmptyChains(next: map<nat, nat>, n: nat)
    ensures Chained(next, NULL, [])
  {
  }

  lemma NoneFree(homes: seq<nat>, n: nat)
    ensures forall f: nat :: Chained(map[], NULL, FreeListFrom(homes, f, |homes|))
  {
  }

  /** Page i in front of what the pages above it have become. */
  lemma OneFree(next: map<nat, nat>, frees: seq<nat>, homes: seq<nat>, n: nat, i: nat)
    requires 1 <= i < |homes| && |frees| == n && homes[i] < n
    requires forall f :: 0 <= f < n ==> Chained(next, frees[f], FreeListFrom(homes, f, i + 1))
    ensures var next', frees' := next[i := frees[homes[i]]], frees[homes[i] := i];
      forall f :: 0 <= f < n ==> Chained(next', frees'[f], FreeListFrom(homes, f, i))
  {
    hide Chained;
    forall f | 0 <= f < n
      ensures Chained(next[i := frees[homes[i]]], frees[homes[i] := i][f], FreeListFrom(homes, f, i))
    {
      FreeListFromFacts(homes, f, i + 1);
      if f == homes[i] {
        PushChain(next, frees[f], FreeListFrom(homes, f, i + 1), i);
      } else {
        ElsewhereChained(next, frees[f], FreeListFrom(homes, f, i + 1), i, frees[homes[i]]);
      }
    }
  }

  lemma HeadIs(next: map<nat, nat>, head: nat, s: seq<nat>)
    requires Chained(next, head, s)
    ensures head == At(s, 0) && (head == NULL <==> s == [])
  {
    assert s != [] ==> s[0] in s;
  }

  lemma FreeApart(s: Engine, l: nat)
    requires Inv(s) && l < s.conf.pageBuckets && s.freeLists[l] != []
    ensures var p := s.freeLists[l][0];
      && 0 < p < s.conf.pageCount && s.places[p].free && s.places[p].freeBucket == l && 0 < s.pageFree
  {
    hide Inv;
    ListsOf(s);
    PageAvailable(s.places, s.freeLists, s.pageFree, l);
  }

  ghost predicate AllChained(next: map<nat, nat>, heads: seq<nat>, lists: seq<seq<nat>>) {
    |heads| == |lists| && forall k :: 0 <= k < |lists| ==> Chained(next, heads[k], lists[k])
  }

  /** No node of list b of `lists` is on another list. */
  ghost predicate Apart(lists: seq<seq<nat>>, b: nat, others: seq<seq<nat>>)
    requires b < |lists|
  {
    && (forall k, x :: 0 <= k < |lists| && k != b && x in lists[b] ==> x !in lists[k])
    && (forall k, x :: 0 <= k < |others| && x in lists[b] ==> x !in others[k])
  }

  /** Chains that hold neither q nor p keep their pointers. */
  lemma Untouched(next: map<nat, nat>, head: nat, s: seq<nat>, q: nat, to: nat, p: nat, over: nat)
    requires Chained(next, head, s) && (q == NULL || q !in s) && p !in s
    ensures Chained(next[q := to], head, s) && Chained(next[p := over], head, s)
    ensures Chained(next[q := to][p := over], head, s)
  {
  }

  /** The node at the head of list l becomes the head of list b of the other lists. */
  lemma MovedHead(next: map<nat, nat>, frees: seq<nat>, free: seq<seq<nat>>, buckets: seq<nat>, lists: seq<seq<nat>>,
                  l: nat, b: nat)
    requires AllChained(next, frees, free) && AllChained(next, buckets, lists)
    requires l < |free| && b < |lists| && free[l] != [] && Apart(free, l, lists)
    ensures var p := free[l][0];
      && p in next
      && var next' := next[p := buckets[b]];
         && AllChained(next', frees[l := next[p]], free[l := free[l][1..]])
         && AllChained(next', buckets[b := p], lists[b := [p] + lists[b]])
  {
    hide Chained;
    var p := free[l][0];
    assert p in free[l];
    HeadIs(next, frees[l], free[l]);
    PopChain(next, free[l]);
    PushChain(next, buckets[b], lists[b], p);
    forall k | 0 <= k < |lists|
      ensures Chained(next[p := buckets[b]], buckets[k], lists[k])
    {
      ElsewhereChained(next, buckets[k], lists[k], p, buckets[b]);
    }
    forall k | 0 <= k < |free| && k != l
      ensures Chained(next[p := buckets[b]], frees[k], free[k])
    {
      ElsewhereChained(next, frees[k], free[k], p, buckets[b]);
    }
    ElsewhereChained(next, next[p], free[l][1..], p, buckets[b]);
  }

  /** Node p, at position i of list b, goes to the head of list f of the other lists. */
  lemma CutOut(next: map<nat, nat>, buckets: seq<nat>, lists: seq<seq<nat>>, frees: seq<nat>, free: seq<seq<nat>>,
               b: nat, i: nat, f: nat)
    requires AllChained(next, buckets, lists) && AllChained(next, frees, free)
    requires b < |lists| && i < |lists[b]| && f < |free| && Apart(lists, b, free)
    ensures var list, p := lists[b], lists[b][i];
      && p in next
      && var cut: map<nat, nat> := if i > 0 then next[list[i - 1] := next[p]] else next;
         && AllChained(cut[p := frees[f]], if i > 0 then buckets else buckets[b := next[p]], lists[b := Without(list,
           p)])
         && AllChained(cut[p := frees[f]], frees[f := p], free[f := [p] + free[f]])
  {
    hide Chained, Without;
    var list, p := lists[b], lists[b][i];
    UnlinkChain(next, buckets[b], list, i);
    var q := At(list, i - 1);
    assert p in list;
    assert q != NULL ==> q in list;
    var cut: map<nat, nat> := if i > 0 then next[list[i - 1] := next[p]] else next;
    forall k | 0 <= k < |lists| && k != b
      ensures Chained(cut[p := frees[f]], buckets[k], lists[k])
    {
      Untouched(next, buckets[k], lists[k], q, next[p], p, frees[f]);
    }
    forall k | 0 <= k < |free|
      ensures Chained(cut, frees[k], free[k]) && Chained(cut[p := frees[f]], frees[k], free[k])
    {
      Untouched(next, frees[k], free[k], q, next[p], p, frees[f]);
    }
    ElsewhereChained(cut, if i > 0 then buckets[b] else next[p], Without(list, p), p, frees[f]);
    HeadIs(next, buckets[b], list);
    NodeNext(next, buckets[b], list, i);
    PushChain(cut, frees[f], free[f], p);
  }

  lemma PlaceFirst(next: map<nat, nat>, head: nat, s: seq<nat>, at: nat, i: nat)
    requires Chained(next, head, s) && i <= at < |s|
    ensures s[i] == s[at] <==> i == at
  {
  }

  /** In a good engine the lists are apart. */
  lemma ListsApart(s: Engine)
    requires Inv(s)
    ensures |s.buckets| == |s.freeLists| == s.conf.pageBuckets
    ensures forall b :: 0 <= b < |s.buckets| ==> Apart(s.buckets, b, s.freeLists)
    ensures forall f :: 0 <= f < |s.freeLists| ==> Apart(s.freeLists, f, s.buckets)
    ensures forall p :: 0 <= p < s.conf.pageCount && !s.places[p].free ==>
      s.places[p].bucket < |s.buckets| && p in s.buckets[s.places[p].bucket]
  {
    hide VersionsInv, IoStackInv, PinsOk, ReadsInv, WritersInv, StatsInv, RefsInv, IdleInv, ResultsInv, LogsInv,
      DepthInv,
      PagesInv, FlushesInv, WritesInv, WbufInv, MaintInv, DiskShape, WbufShape, ThreadsShape, NoDup;
    forall b, x | 0 <= b < |s.buckets| && x in s.buckets[b]
      ensures x < |s.places| && !s.places[x].free && s.places[x].bucket == b
    {
      assert BucketOk(s.places, s.buckets[b], b);
    }
  }
}
