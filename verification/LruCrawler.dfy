/** A crawl of an LRU list interleaved with links at the head and unlinks anywhere (crawler.c). */
module LruCrawler {
  import opened Sums
  import opened Flatten
  import L = LruList

  /** While the crawler is in the list, the list is `ahead`, the crawler, `behind`, from head to tail.
      `limit` is the crawler's countdown, 0 for none.  `returned` are the items it has handed on,
      `stayed` those in the list ever since the crawl began. */
  datatype Crawl = Crawl(ahead: seq<nat>, behind: seq<nat>, active: bool, limit: nat,
                         returned: seq<nat>, stayed: set<nat>)

  function Items(c: Crawl): seq<nat> { c.ahead + c.behind }

  // ---------------------------------------------------------------- steps

  datatype Step = LinkHead(x: nat) | Unlink(x: nat) | Advance

  ghost predicate Enabled(c: Crawl, st: Step) {
    match st
    case LinkHead(x) => x !in Items(c)
    case Unlink(x) => x in Items(c)
    case Advance => c.active
  }

  /** `items` asks for that many items, 0 for all; the countdown starts one higher. */
  function Begin(list: seq<nat>, items: nat): Crawl {
    Crawl(list, [], true, if items == 0 then 0 else items + 1, [], set x | x in list)
  }

  function Last(s: seq<nat>): nat
    requires s != []
  {
    s[|s| - 1]
  }

  /** One turn: the crawler passes the item before it; at the head, or when the countdown runs out,
      it leaves the list instead of handing that item on. */
  function Advanced(c: Crawl): Crawl {
    if c.ahead == [] then
      c.(active := false)
    else
      var x := Last(c.ahead);
      var moved := c.(ahead := c.ahead[..|c.ahead| - 1], behind := [x] + c.behind);
      if c.limit == 1 then moved.(limit := 0, active := false)
      else moved.(limit := if c.limit > 0 then c.limit - 1 else 0, returned := c.returned + [x])
  }

  function Apply(c: Crawl, st: Step): Crawl {
    match st
    case LinkHead(x) => c.(ahead := [x] + c.ahead)
    case Unlink(x) =>
      c.(ahead := Without(c.ahead, x), behind := Without(c.behind, x), stayed := c.stayed - {x})
    case Advance => Advanced(c)
  }

  // ---------------------------------------------------------------- filtering and reversing

  function Keep(s: seq<nat>, k: set<nat>): seq<nat> {
    if s == [] then [] else (if s[0] in k then [s[0]] else []) + Keep(s[1..], k)
  }

  function Reverse(s: seq<nat>): seq<nat> {
    if s == [] then [] else Reverse(s[1..]) + [s[0]]
  }

  lemma KeepCons(x: nat, s: seq<nat>, k: set<nat>)
    ensures Keep([x] + s, k) == (if x in k then [x] else []) + Keep(s, k)
  {
    assert ([x] + s)[1..] == s;
  }

  lemma {:induction false} KeepAdd(a: seq<nat>, b: seq<nat>, k: set<nat>)
    ensures Keep(a + b, k) == Keep(a, k) + Keep(b, k)
  {
    hide Keep;
    if a == [] {
      KeepNone(k);
      assert a + b == b;
    } else {
      KeepAdd(a[1..], b, k);
      assert a == [a[0]] + a[1..] && a + b == [a[0]] + (a[1..] + b);
      KeepCons(a[0], a[1..], k);
      KeepCons(a[0], a[1..] + b, k);
      Assoc(if a[0] in k then [a[0]] else [], Keep(a[1..], k), Keep(b, k));
    }
  }

  lemma KeepNone(k: set<nat>)
    ensures Keep([], k) == []
  {
  }

  lemma {:induction false} KeepFewer(s: seq<nat>, k: set<nat>, fewer: set<nat>)
    requires fewer <= k
    ensures Keep(Keep(s, k), fewer) == Keep(s, fewer)
  {
    if s != [] {
      KeepFewer(s[1..], k, fewer);
      var first := if s[0] in k then [s[0]] else [];
      KeepAdd(first, Keep(s[1..], k), fewer);
      KeepOne(s[0], k, fewer);
    }
  }

  lemma KeepOne(x: nat, k: set<nat>, fewer: set<nat>)
    requires fewer <= k
    ensures Keep(if x in k then [x] else [], fewer) == if x in fewer then [x] else []
  {
    assert [x][1..] == [];
  }

  lemma {:induction false} ReverseAdd(a: seq<nat>, b: seq<nat>)
    ensures Reverse(a + b) == Reverse(b) + Reverse(a)
  {
    if a == [] {
      assert a + b == b;
    } else {
      assert (a + b)[1..] == a[1..] + b;
      ReverseAdd(a[1..], b);
    }
  }

  lemma {:induction false} KeepReverse(s: seq<nat>, k: set<nat>)
    ensures Keep(Reverse(s), k) == Reverse(Keep(s, k))
  {
    if s != [] {
      KeepReverse(s[1..], k);
      KeepAdd(Reverse(s[1..]), [s[0]], k);
      var first := if s[0] in k then [s[0]] else [];
      ReverseAdd(first, Keep(s[1..], k));
      assert [s[0]][1..] == [];
      assert Keep([s[0]], k) == first && Reverse(first) == first;
    }
  }

  lemma {:induction false} KeepWithout(s: seq<nat>, x: nat, k: set<nat>)
    requires x !in k
    ensures Keep(Without(s, x), k) == Keep(s, k)
  {
    if s != [] && s[0] != x {
      KeepWithout(s[1..], x, k);
      assert Without(s, x)[1..] == Without(s[1..], x);
    }
  }

  // ---------------------------------------------------------------- what every step keeps

  /** The stayers handed on so far are the stayers behind the crawler, tail first; whoever is ahead
      has not been handed on since the crawl began unless it was relinked. */
  ghost predicate Inv(c: Crawl, items: nat) {
    && NoDup(Items(c))
    && (forall x :: x in c.stayed ==> x in Items(c))
    && (c.active ==> Keep(c.returned, c.stayed) == Reverse(Keep(c.behind, c.stayed)))
    && (c.active && items > 0 ==> c.limit > 0 && |c.returned| == items + 1 - c.limit)
    && (c.active && items == 0 ==> c.limit == 0)
    && (!c.active ==> Finished(c, items))
  }

  /** A crawl that has ended: it stopped after the number asked for, or it has handed on every stayer
      in order from tail to head. */
  ghost predicate Finished(c: Crawl, items: nat) {
    && (items > 0 ==> |c.returned| <= items)
    && (Keep(c.returned, c.stayed) == Reverse(Keep(Items(c), c.stayed)) || (items > 0 && |c.returned| == items))
  }

  lemma BeginInv(list: seq<nat>, items: nat)
    requires NoDup(list)
    ensures Inv(Begin(list, items), items)
  {
    assert list + [] == list;
  }

  /** The items keep their order and their number whatever the crawler does. */
  lemma AdvanceKeepsItems(c: Crawl)
    ensures Items(Advanced(c)) == Items(c)
  {
    if c.ahead != [] {
      assert c.ahead == c.ahead[..|c.ahead| - 1] + [Last(c.ahead)];
    }
  }

  lemma AdvanceKeeps(c: Crawl, items: nat)
    requires Inv(c, items) && c.active
    ensures Inv(Advanced(c), items)
  {
    var r := Advanced(c);
    AdvanceKeepsItems(c);
    if c.ahead == [] {
      assert Items(c) == c.behind;
    } else {
      var x := Last(c.ahead);
      var one := Keep([x], c.stayed);
      assert [x][1..] == [];
      KeepAdd([x], c.behind, c.stayed);
      KeepAdd(c.returned, [x], c.stayed);
      ReverseAdd(one, Keep(c.behind, c.stayed));
      assert Reverse(one) == one;
    }
  }

  lemma UnlinkKeeps(c: Crawl, x: nat, items: nat)
    requires Inv(c, items) && x in Items(c)
    ensures Inv(Apply(c, Unlink(x)), items)
  {
    var r := Apply(c, Unlink(x));
    PartsNoDup(c);
    WithoutFacts(c.ahead, x);
    WithoutFacts(c.behind, x);
    WithoutJoin(c.ahead, c.behind, x);
    WithoutFacts(Items(c), x);
    forall y | y in r.stayed
      ensures y in Items(r)
    {
    }
    FewerStayers(c.returned, c.behind, c.stayed, r.stayed);
    FewerStayers(c.returned, Items(c), c.stayed, r.stayed);
    KeepWithout(c.behind, x, r.stayed);
    KeepWithout(Items(c), x, r.stayed);
  }

  lemma PartsNoDup(c: Crawl)
    requires NoDup(Items(c))
    ensures NoDup(c.ahead) && NoDup(c.behind) && forall x :: x in c.ahead ==> x !in c.behind
  {
    var s := Items(c);
    assert c.ahead == s[..|c.ahead|] && c.behind == s[|c.ahead|..];
  }

  lemma {:induction false} WithoutJoin(a: seq<nat>, b: seq<nat>, x: nat)
    requires x in a ==> x !in b
    ensures Without(a + b, x) == Without(a, x) + Without(b, x)
  {
    if a == [] {
      assert a + b == b;
    } else {
      assert (a + b)[1..] == a[1..] + b;
      if a[0] != x {
        WithoutJoin(a[1..], b, x);
      } else {
        WithoutAbsent(b, x);
      }
    }
  }

  /** Handed-on order survives when fewer items count as stayers. */
  lemma FewerStayers(returned: seq<nat>, list: seq<nat>, k: set<nat>, fewer: set<nat>)
    requires fewer <= k
    ensures Keep(returned, k) == Reverse(Keep(list, k)) ==> Keep(returned, fewer) == Reverse(Keep(list, fewer))
  {
    KeepFewer(returned, k, fewer);
    KeepFewer(list, k, fewer);
    KeepReverse(Keep(list, k), fewer);
  }

  lemma LinkKeeps(c: Crawl, x: nat, items: nat)
    requires Inv(c, items) && x !in Items(c)
    ensures Inv(Apply(c, LinkHead(x)), items)
  {
    var r := Apply(c, LinkHead(x));
    assert Items(r) == [x] + Items(c);
    NoDupCons(x, Items(c));
    KeepAdd([x], Items(c), c.stayed);
    assert [x][1..] == [];
    assert x !in c.stayed;
    assert Keep([x], c.stayed) == [];
    assert Keep(Items(r), c.stayed) == Keep(Items(c), c.stayed);
  }

  lemma StepKeeps(c: Crawl, st: Step, items: nat)
    requires Inv(c, items) && Enabled(c, st)
    ensures Inv(Apply(c, st), items)
  {
    hide Inv;
    match st {
      case LinkHead(x) => LinkKeeps(c, x, items);
      case Unlink(x) => UnlinkKeeps(c, x, items);
      case Advance => AdvanceKeeps(c, items);
    }
  }

  // ---------------------------------------------------------------- whole crawls

  ghost predicate IsCrawl(states: seq<Crawl>, steps: seq<Step>, list: seq<nat>, items: nat) {
    && NoDup(list) && |states| == |steps| + 1 && states[0] == Begin(list, items)
    && forall i :: 0 <= i < |steps| ==> Enabled(states[i], steps[i]) && states[i + 1] == Apply(states[i], steps[i])
  }

  lemma {:induction false} CrawlKeeps(states: seq<Crawl>, steps: seq<Step>, list: seq<nat>, items: nat, i: nat)
    requires IsCrawl(states, steps, list, items) && i < |states|
    ensures Inv(states[i], items)
  {
    hide Inv, Apply, Enabled;
    if i == 0 {
      BeginInv(list, items);
    } else {
      CrawlKeeps(states, steps, list, items, i - 1);
      StepKeeps(states[i - 1], steps[i - 1], items);
    }
  }

  lemma {:induction false} CountKept(s: seq<nat>, k: set<nat>, x: nat)
    requires x in k
    ensures multiset(Keep(s, k))[x] == multiset(s)[x]
  {
    if s != [] {
      assert s == [s[0]] + s[1..];
      CountKept(s[1..], k, x);
      var first := if s[0] in k then [s[0]] else [];
      assert Keep(s, k) == first + Keep(s[1..], k);
      assert multiset(Keep(s, k)) == multiset(first) + multiset(Keep(s[1..], k));
    }
  }

  lemma {:induction false} CountReversed(s: seq<nat>, x: nat)
    ensures multiset(Reverse(s))[x] == multiset(s)[x]
  {
    if s != [] {
      assert s == [s[0]] + s[1..];
      CountReversed(s[1..], x);
    }
  }

  lemma {:induction false} OnceIn(s: seq<nat>, x: nat)
    requires NoDup(s)
    ensures multiset(s)[x] == if x in s then 1 else 0
  {
    if s != [] {
      assert s == [s[0]] + s[1..];
      OnceIn(s[1..], x);
    }
  }

  /** A crawl that runs to the end hands on every item that stays in place throughout exactly once,
      the stayers in order from tail to head. */
  lemma StayersOnce(states: seq<Crawl>, steps: seq<Step>, list: seq<nat>, i: nat, x: nat)
    requires IsCrawl(states, steps, list, 0) && i < |states| && !states[i].active
    requires x in states[i].stayed
    ensures multiset(states[i].returned)[x] == 1
    ensures Keep(states[i].returned, states[i].stayed) == Reverse(Keep(Items(states[i]), states[i].stayed))
  {
    CrawlKeeps(states, steps, list, 0, i);
    var c := states[i];
    CountKept(c.returned, c.stayed, x);
    CountReversed(Keep(Items(c), c.stayed), x);
    CountKept(Items(c), c.stayed, x);
    OnceIn(Items(c), x);
  }

  /** Asked for n items, the crawler never hands on more, and stops short only at the head. */
  lemma StopsAfter(states: seq<Crawl>, steps: seq<Step>, list: seq<nat>, items: nat, i: nat)
    requires IsCrawl(states, steps, list, items) && items > 0 && i < |states|
    ensures |states[i].returned| <= items
    ensures !states[i].active && |states[i].returned| < items ==>
      Keep(states[i].returned, states[i].stayed) == Reverse(Keep(Items(states[i]), states[i].stayed))
  {
    CrawlKeeps(states, steps, list, items, i);
  }

  /** The items are only ever linked and unlinked by others: the crawler reorders nothing. */
  lemma CrawlerMovesNothing(states: seq<Crawl>, steps: seq<Step>, list: seq<nat>, items: nat, i: nat)
    requires IsCrawl(states, steps, list, items) && i < |steps|
    ensures Items(states[i + 1]) ==
      match steps[i] {
        case LinkHead(x) => [x] + Items(states[i])
        case Unlink(x) => Without(Items(states[i]), x)
        case Advance => Items(states[i])
      }
  {
    CrawlKeeps(states, steps, list, items, i);
    var c := states[i];
    PartsNoDup(c);
    match steps[i] {
      case LinkHead(x) => assert [x] + c.ahead + c.behind == [x] + (c.ahead + c.behind);
      case Unlink(x) => WithoutJoin(c.ahead, c.behind, x);
      case Advance => AdvanceKeepsItems(c);
    }
  }

  // ---------------------------------------------------------------- the crawler on the linked list

  /** What the linked list holds: the marker between what is ahead and what is behind. */
  ghost function Marked(c: Crawl, marker: nat): seq<nat> {
    if c.active then c.ahead + [marker] + c.behind else Items(c)
  }

  lemma MarkerAt(c: Crawl, marker: nat, s: seq<nat>, i: nat)
    requires c.active && s == Marked(c, marker) && NoDup(s) && i < |s| && s[i] == marker
    ensures i == |c.ahead| && marker !in c.ahead && marker !in c.behind
    ensures Without(s, marker) == Items(c)
  {
    assert s[|c.ahead|] == marker;
    WithoutAt(s, |c.ahead|);
    assert s[..|c.ahead|] == c.ahead && s[|c.ahead| + 1..] == c.behind;
    assert forall j :: 0 <= j < |c.ahead| ==> s[j] == c.ahead[j];
    assert forall j :: 0 <= j < |c.behind| ==> s[|c.ahead| + 1 + j] == c.behind[j];
  }

  lemma SwapMoves(c: Crawl, marker: nat, s: seq<nat>)
    requires c.active && s == Marked(c, marker) && c.ahead != []
    ensures L.Swapped(s, |c.ahead|) == c.ahead[..|c.ahead| - 1] + [marker] + ([Last(c.ahead)] + c.behind)
  {
  }

  /** One turn of the crawler thread on a list: what the pointers do is what Advanced says, and a
      crawl that ends leaves the list without the marker. */
  method Turn(list: L.LinkedList, marker: nat, limit: nat, ghost c: Crawl)
    returns (item: nat, left: nat, ghost r: Crawl)
    requires list.Valid() && c.active && list.s == Marked(c, marker) && limit == c.limit
    modifies list
    ensures list.Valid() && r == Advanced(c) && list.s == Marked(r, marker) && left == r.limit
    ensures item != L.NULL <==> r.active
    ensures r.active ==> r.returned == c.returned + [item]
  {
    hide NoDup, Without;
    r := Advanced(c);
    left := 0;
    assert list.s[|c.ahead|] == marker;
    ghost var i;
    ghost var was := list.s;
    item, i := list.Crawl(marker);
    MarkerAt(c, marker, was, i);
    if item == L.NULL {
      ListEnds(was, marker);
      list.Unlink(marker);
      left := limit;
      return;
    }
    SwapMoves(c, marker, was);
    if limit == 1 {
      ghost var moved := c.(ahead := r.ahead, behind := r.behind);
      assert list.s == Marked(moved, marker);
      assert list.s[|moved.ahead|] == marker;
      MarkerAt(moved, marker, list.s, |moved.ahead|);
      list.Unlink(marker);
      item := L.NULL;
      return;
    }
    left := if limit > 0 then limit - 1 else 0;
  }

  lemma ListEnds(s: seq<nat>, marker: nat)
    requires NoDup(s) && s != [] && s[0] == marker
    ensures Without(s, marker) == s[1..] && Without(s[1..], marker) == s[1..]
  {
    WithoutAbsent(s[1..], marker);
  }

  /** Links and unlinks by others, seen with the marker in its place. */
  lemma MarkedStep(c: Crawl, marker: nat, st: Step)
    requires NoDup(Items(c)) && marker !in Items(c) && Enabled(c, st)
    ensures st.LinkHead? ==> Marked(Apply(c, st), marker) == [st.x] + Marked(c, marker)
    ensures st.Unlink? ==> Marked(Apply(c, st), marker) == Without(Marked(c, marker), st.x)
  {
    match st {
      case LinkHead(x) =>
      case Unlink(x) =>
        PartsNoDup(c);
        WithoutJoin(c.ahead, c.behind, x);
        WithoutJoin(c.ahead + [marker], c.behind, x);
        WithoutJoin(c.ahead, [marker], x);
        WithoutAbsent([marker], x);
      case Advance =>
    }
  }

  /** Nobody but the crawler thread links the marker. */
  ghost predicate ForeignLinks(steps: seq<Step>, marker: nat) {
    forall i :: 0 <= i < |steps| && steps[i].LinkHead? ==> steps[i].x != marker && steps[i].x != L.NULL
  }

  lemma MarkerApart(c: Crawl, st: Step, marker: nat)
    requires NoDup(Items(c)) && marker !in Items(c) && Enabled(c, st) && (st.LinkHead? ==> st.x != marker)
    ensures marker !in Items(Apply(c, st))
  {
    match st {
      case LinkHead(x) =>
      case Unlink(x) =>
        WithoutSubset(c.ahead, x);
        WithoutSubset(c.behind, x);
      case Advance => AdvanceKeepsItems(c);
    }
  }

  lemma ItemsNoDup(states: seq<Crawl>, steps: seq<Step>, list: seq<nat>, items: nat, i: nat)
    requires IsCrawl(states, steps, list, items) && i < |states|
    ensures NoDup(Items(states[i]))
  {
    hide IsCrawl, NoDup;
    CrawlKeeps(states, steps, list, items, i);
  }

  /** One step of anybody on the linked list. */
  method Act(list: L.LinkedList, marker: nat, limit: nat, st: Step, ghost c: Crawl)
    returns (item: nat, left: nat)
    requires list.Valid() && Enabled(c, st) && list.s == Marked(c, marker) && limit == c.limit
    requires NoDup(Items(c)) && marker !in Items(c) && (st.LinkHead? ==> st.x != marker && st.x != L.NULL)
    modifies list
    ensures list.Valid() && list.s == Marked(Apply(c, st), marker) && left == Apply(c, st).limit
    ensures Apply(c, st).returned == if item != L.NULL then c.returned + [item] else c.returned
  {
    hide NoDup, Without;
    MarkedStep(c, marker, st);
    item, left := L.NULL, limit;
    match st {
      case LinkHead(x) =>
        list.LinkHead(x);
      case Unlink(x) =>
        list.Unlink(x);
      case Advance =>
        ghost var r;
        item, left, r := Turn(list, marker, limit, c);
    }
  }

  /** A whole crawl, with links and unlinks by others in between, on the pointers: they always spell
      what the crawl says, and the items handed on are the ones it says. */
  method CrawlList(list: L.LinkedList, marker: nat, items: nat, steps: seq<Step>, ghost states: seq<Crawl>)
    returns (handed: seq<nat>)
    requires list.Valid() && marker != L.NULL && marker !in list.s
    requires IsCrawl(states, steps, list.s, items) && ForeignLinks(steps, marker)
    modifies list
    ensures list.Valid() && list.s == Marked(states[|steps|], marker) && handed == states[|steps|].returned
  {
    hide NoDup, Without, Marked, Apply;
    ghost var was := list.s;
    list.LinkTail(marker);
    var limit := if items == 0 then 0 else items + 1;
    handed := [];
    assert Marked(Begin(was, items), marker) == was + [marker] by { FirstMarked(was, marker, items); }
    assert was + [] == was;
    for i := 0 to |steps|
      invariant list.Valid() && list.s == Marked(states[i], marker) && limit == states[i].limit
      invariant handed == states[i].returned && marker !in Items(states[i])
    {
      ItemsNoDup(states, steps, was, items, i);
      MarkerApart(states[i], steps[i], marker);
      var item;
      item, limit := Act(list, marker, limit, steps[i], states[i]);
      if item != L.NULL {
        handed := handed + [item];
      }
    }
  }

  lemma FirstMarked(list: seq<nat>, marker: nat, items: nat)
    ensures Marked(Begin(list, items), marker) == list + [marker]
  {
    assert list + [marker] + [] == list + [marker];
  }
}
