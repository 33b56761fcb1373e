/** Walking the hash table bucket by bucket while other threads insert and delete (assoc.c). */
module AssocIterator {
  import opened Sums
  import opened Assoc

  /** Who holds the maintenance lock. */
  datatype Holder = Nobody | Maintainer | Walker

  /** The table, the lock, and the iterator: the bucket it is at, whether it holds that bucket's lock,
      the entry handed out last and the one after it.  `out` is everything handed out, `stayed` the
      entries present ever since the walk began, `calls` the calls that returned true. */
  datatype Walk = Walk(
    t: Table, holder: Holder, bucket: nat, locked: bool, it: Option<Entry>, next: Option<Entry>,
    out: seq<Entry>, stayed: set<Entry>, calls: nat)

  // ---------------------------------------------------------------- following a chain

  /** The chain from an entry on. */
  function Suffix(chain: seq<Entry>, e: Entry): seq<Entry> {
    if chain == [] || chain[0] == e then chain else Suffix(chain[1..], e)
  }

  function Succ(chain: seq<Entry>, e: Entry): Option<Entry> {
    var s := Suffix(chain, e);
    if |s| > 1 then Some(s[1]) else None
  }

  /** What the iterator has yet to hand out of its bucket. */
  function Rest(chain: seq<Entry>, next: Option<Entry>): seq<Entry> {
    if next.None? then [] else Suffix(chain, next.value)
  }

  lemma {:induction false} SuffixFacts(chain: seq<Entry>, e: Entry)
    requires NoDupKeys(chain) && e in chain
    ensures Suffix(chain, e) != [] && Suffix(chain, e)[0] == e && NoDupKeys(Suffix(chain, e))
    ensures forall f :: f in Suffix(chain, e) ==> f in chain
    ensures Rest(chain, Succ(chain, e)) == Suffix(chain, e)[1..]
    ensures Succ(chain, e).Some? ==> Succ(chain, e).value in chain
  {
    assert NoDupKeys(chain[1..]);
    if chain[0] == e {
      if |chain| > 1 {
        assert Suffix(chain, chain[1]) == Suffix(chain[1..], chain[1]);
      }
    } else {
      assert forall f :: f in chain <==> f == chain[0] || f in chain[1..];
      SuffixFacts(chain[1..], e);
      var s := Suffix(chain[1..], e);
      if |s| > 1 {
        assert s[1] in chain[1..];
        assert chain[0] !in chain[1..];
      }
    }
  }

  /** Cutting out a key that stands before an entry leaves what follows that entry as it was. */
  lemma {:induction false} CutBefore(chain: seq<Entry>, e: Entry, key: Key)
    requires NoDupKeys(chain) && e in chain
    requires forall f :: f in Suffix(chain, e) ==> f.key != key
    ensures e in Cut(chain, key) && Suffix(Cut(chain, key), e) == Suffix(chain, e)
  {
    assert NoDupKeys(chain[1..]);
    if chain[0] == e {
      assert e in Suffix(chain, e);
      CutAbsent(chain, key);
    } else {
      assert forall f :: f in chain <==> f == chain[0] || f in chain[1..];
      if chain[0].key != key {
        CutBefore(chain[1..], e, key);
        assert Cut(chain, key)[1..] == Cut(chain[1..], key);
      }
    }
  }

  lemma {:induction false} CutAbsent(chain: seq<Entry>, key: Key)
    requires forall f :: f in chain ==> f.key != key
    ensures Cut(chain, key) == chain
  {
    if chain != [] {
      CutAbsent(chain[1..], key);
      assert chain == [chain[0]] + chain[1..];
    }
  }

  // ---------------------------------------------------------------- steps

  datatype Step =
    | Open
    | Iterate
    | UnlinkHanded
    | OtherInsert(e: Entry)
    | OtherDelete(key: Key)
    | BeginExpand(ok: bool)
    | MoveBucket
    | Close

  ghost predicate Contains(t: Table, h: Hash, e: Entry)
    requires Shape(t)
  {
    e in Home(t, h(e.key))
  }

  /** Another thread needs the lock of a key's bucket. */
  ghost predicate MayTouch(s: Walk, h: Hash, key: Key)
    requires Shape(s.t)
  {
    !(s.holder == Walker && s.locked && h(key) % |s.t.primary| == s.bucket)
  }

  ghost predicate Enabled(s: Walk, h: Hash, st: Step) {
    && Shape(s.t)
    && match st
       case Open => s.holder == Nobody
       case Iterate => s.holder == Walker && (s.locked ==> s.bucket < |s.t.primary|)
       case UnlinkHanded => s.holder == Walker && s.locked && s.it.Some? && Contains(s.t, h, s.it.value)
       case OtherInsert(e) => Find(s.t, h, e.key) == None && MayTouch(s, h, e.key)
       case OtherDelete(key) => Find(s.t, h, key) != None && MayTouch(s, h, key)
       case BeginExpand(_) => s.holder == Nobody && !s.t.expanding
       case MoveBucket => s.holder == Maintainer && s.t.expanding
       case Close => s.holder == Walker
  }

  /** One call of the iterator. */
  function Iterated(s: Walk): (r: Walk)
    requires Shape(s.t) && (s.locked ==> s.bucket < |s.t.primary|)
  {
    if s.locked then
      if s.next.Some? then
        s.(it := s.next, next := Succ(s.t.primary[s.bucket], s.next.value), out := s.out + [s.next.value],
           calls := s.calls + 1)
      else
        s.(bucket := s.bucket + 1, locked := false, calls := s.calls + 1)
    else if s.bucket >= |s.t.primary| then
      s
    else
      var chain := s.t.primary[s.bucket];
      if chain == [] then s.(bucket := s.bucket + 1, calls := s.calls + 1)
      else s.(locked := true, it := Some(chain[0]), next := Succ(chain, chain[0]), out := s.out + [chain[0]],
              calls := s.calls + 1)
  }

  ghost function Entries(t: Table): set<Entry>
  {
    set b, i | 0 <= b < |t.primary| && 0 <= i < |t.primary[b]| :: t.primary[b][i]
  }

  ghost function Minus(stayed: set<Entry>, key: Key): set<Entry> {
    set e | e in stayed && e.key != key
  }

  ghost function Apply(s: Walk, h: Hash, st: Step): Walk
    requires Enabled(s, h, st)
  {
    match st
    case Open => s.(holder := Walker, bucket := 0, locked := false, it := None, next := None, out := [],
                    stayed := Entries(s.t), calls := 0)
    case Iterate => Iterated(s)
    case UnlinkHanded =>
      s.(t := Deleted(s.t, h, s.it.value.key), stayed := Minus(s.stayed, s.it.value.key))
    case OtherInsert(e) => s.(t := Inserted(s.t, h, e))
    case OtherDelete(key) => s.(t := Deleted(s.t, h, key), stayed := Minus(s.stayed, key))
    case BeginExpand(ok) =>
      // a failed allocation sends the maintenance thread back to wait, which frees the lock
      s.(t := Expanded(s.t, ok), holder := if ok then Maintainer else Nobody)
    case MoveBucket =>
      var t := Migrated(s.t, h);
      s.(t := t, holder := if t.expanding then Maintainer else Nobody)
    case Close => s.(holder := Nobody, locked := false)
  }

  // ---------------------------------------------------------------- what every run keeps

  ghost predicate OutOk(s: Walk, h: Hash)
    requires Shape(s.t)
  {
    && NoDupKeys(s.out)
    && (forall e :: e in s.out ==>
          var b := h(e.key) % |s.t.primary|; b < s.bucket || (s.locked && b == s.bucket))
    && s.bucket <= |s.t.primary| && s.calls == |s.out| + s.bucket
  }

  /** In the locked bucket everything has been handed out or is still to come, never both. */
  ghost predicate BucketOk(s: Walk)
    requires Shape(s.t)
  {
    s.locked ==>
      && s.bucket < |s.t.primary| && s.it.Some? && s.it.value in s.out
      && (s.next.Some? ==> s.next.value in s.t.primary[s.bucket])
      && (forall e :: e in s.t.primary[s.bucket] ==> e in s.out || e in Rest(s.t.primary[s.bucket], s.next))
      && (forall e, f :: e in Rest(s.t.primary[s.bucket], s.next) && f in s.out ==> e.key != f.key)
  }

  ghost predicate StayedOk(s: Walk, h: Hash)
    requires Shape(s.t)
  {
    forall e :: e in s.stayed ==>
      && Contains(s.t, h, e)
      && (h(e.key) % |s.t.primary| < s.bucket ==> e in s.out)
  }

  ghost predicate Inv(s: Walk, h: Hash) {
    && Ok(s.t, h)
    && (s.t.expanding <==> s.holder == Maintainer)
    && (s.holder == Walker ==> OutOk(s, h) && BucketOk(s) && StayedOk(s, h))
  }

  lemma PrimaryHome(t: Table, h: Hash, key: Key)
    requires Shape(t) && !t.expanding
    ensures Home(t, h(key)) == t.primary[h(key) % |t.primary|]
  {
  }

  lemma IterateKeeps(s: Walk, h: Hash)
    requires Inv(s, h) && Enabled(s, h, Iterate)
    ensures Inv(Iterated(s), h)
  {
    var r := Iterated(s);
    if s.bucket < |s.t.primary| {
      var chain := s.t.primary[s.bucket];
      assert PrimaryOk(s.t, h, s.bucket);
      if s.locked && s.next.Some? {
        SuffixFacts(chain, s.next.value);
        HandOut(s, r, h, s.next.value);
      } else if !s.locked && chain != [] {
        SuffixFacts(chain, chain[0]);
        assert Suffix(chain, chain[0]) == chain;
        assert forall e :: e in s.out ==> h(e.key) % |s.t.primary| < s.bucket;
        HandOut(s, r, h, chain[0]);
      }
    }
  }

  /** Handing out the first entry of what is left of the bucket. */
  lemma HandOut(s: Walk, r: Walk, h: Hash, e: Entry)
    requires Inv(s, h) && s.holder == Walker && s.bucket < |s.t.primary| && !s.t.expanding
    requires e in s.t.primary[s.bucket] && NoDupKeys(s.t.primary[s.bucket]) && h(e.key) % |s.t.primary| == s.bucket
    requires r == s.(locked := true, it := Some(e), next := Succ(s.t.primary[s.bucket], e), out := s.out + [e],
      calls := s.calls + 1)
    requires forall f, g :: f in Suffix(s.t.primary[s.bucket], e) && g in s.out ==> f.key != g.key
    requires forall f :: f in s.t.primary[s.bucket] ==> f in s.out || f in Suffix(s.t.primary[s.bucket], e)
    ensures Inv(r, h)
  {
    var chain := s.t.primary[s.bucket];
    SuffixFacts(chain, e);
    var left := Suffix(chain, e);
    assert forall f :: f in left <==> f == e || f in left[1..];
    assert forall j :: 0 < j < |left| ==> left[j].key != e.key;
    assert forall f :: f in r.out <==> f in s.out || f == e;
  }

  lemma UnlinkKeeps(s: Walk, h: Hash)
    requires Inv(s, h) && Enabled(s, h, UnlinkHanded)
    ensures Inv(Apply(s, h, UnlinkHanded), h)
  {
    var key := s.it.value.key;
    var chain := s.t.primary[s.bucket];
    DeleteRefines(s.t, h, key, key);
    PrimaryHome(s.t, h, key);
    HomeOk(s.t, h, h(key));
    assert PrimaryOk(s.t, h, s.bucket);
    CutFacts(Home(s.t, h(key)), key, key);
    if s.next.Some? {
      if h(key) % |s.t.primary| == s.bucket {
        CutBefore(chain, s.next.value, key);
      }
    }
  }

  lemma OtherInsertKeeps(s: Walk, h: Hash, e: Entry)
    requires Inv(s, h) && Enabled(s, h, OtherInsert(e))
    ensures Inv(Apply(s, h, OtherInsert(e)), h)
  {
    InsertRefines(s.t, h, e, e.key);
  }

  lemma OtherDeleteKeeps(s: Walk, h: Hash, key: Key)
    requires Inv(s, h) && Enabled(s, h, OtherDelete(key))
    ensures Inv(Apply(s, h, OtherDelete(key)), h)
  {
    DeleteRefines(s.t, h, key, key);
    HomeOk(s.t, h, h(key));
    CutFacts(Home(s.t, h(key)), key, key);
  }

  lemma OpenKeeps(s: Walk, h: Hash)
    requires Inv(s, h) && Enabled(s, h, Open)
    ensures Inv(Apply(s, h, Open), h)
  {
    forall e | e in Entries(s.t)
      ensures Contains(s.t, h, e)
    {
      var b, i :| 0 <= b < |s.t.primary| && 0 <= i < |s.t.primary[b]| && s.t.primary[b][i] == e;
      assert PrimaryOk(s.t, h, b) && e in s.t.primary[b];
    }
  }

  lemma StepKeeps(s: Walk, h: Hash, st: Step)
    requires Inv(s, h) && Enabled(s, h, st)
    ensures Inv(Apply(s, h, st), h)
  {
    hide Ok, OutOk, BucketOk, StayedOk, Deleted, Inserted, Iterated;
    match st {
      case Open => OpenKeeps(s, h);
      case Iterate => IterateKeeps(s, h);
      case UnlinkHanded => UnlinkKeeps(s, h);
      case OtherInsert(e) => OtherInsertKeeps(s, h, e);
      case OtherDelete(key) => OtherDeleteKeeps(s, h, key);
      case BeginExpand(ok) => ExpandRefines(s.t, h, ok, "");
      case MoveBucket => MigrateOk(s.t, h);
      case Close =>
    }
  }

  // ---------------------------------------------------------------- whole walks

  ghost predicate IsRun(states: seq<Walk>, steps: seq<Step>, h: Hash) {
    && |states| == |steps| + 1
    && (exists buckets :: 0 < buckets &&
          states[0] == Walk(Fresh(buckets), Nobody, 0, false, None, None, [], {}, 0))
    && (forall i :: 0 <= i < |steps| ==>
          Enabled(states[i], h, steps[i]) && states[i + 1] == Apply(states[i], h, steps[i]))
  }

  lemma {:induction false} RunKeeps(states: seq<Walk>, steps: seq<Step>, h: Hash, i: nat)
    requires IsRun(states, steps, h) && i < |states|
    ensures Inv(states[i], h)
  {
    hide Inv, Apply, Enabled;
    if i == 0 {
      var buckets :| 0 < buckets && states[0] == Walk(Fresh(buckets), Nobody, 0, false, None, None, [], {}, 0);
      FirstInv(buckets, h);
    } else {
      RunKeeps(states, steps, h, i - 1);
      StepKeeps(states[i - 1], h, steps[i - 1]);
    }
  }

  lemma FirstInv(buckets: nat, h: Hash)
    requires 0 < buckets
    ensures Inv(Walk(Fresh(buckets), Nobody, 0, false, None, None, [], {}, 0), h)
  {
  }

  /** While an iterator exists no expansion is in progress. */
  lemma WalkerExcludesExpansion(states: seq<Walk>, steps: seq<Step>, h: Hash, i: nat)
    requires IsRun(states, steps, h) && i < |states| && states[i].holder == Walker
    ensures !states[i].t.expanding
  {
    hide IsRun;
    RunKeeps(states, steps, h, i);
  }

  /** At any point of a walk no key has been handed out twice; at its end, when the iterator is past
      the last bucket, every entry that stayed has been handed out, after one call per entry handed
      out and one per bucket. */
  lemma WalkIsComplete(states: seq<Walk>, steps: seq<Step>, h: Hash, i: nat)
    requires IsRun(states, steps, h) && i < |states| && states[i].holder == Walker
    ensures var s := states[i];
      && NoDupKeys(s.out) && s.calls == |s.out| + s.bucket
      && (s.bucket == |s.t.primary| ==> forall e :: e in s.stayed ==> e in s.out)
      && (forall e :: e in s.stayed ==> Shape(s.t) && Find(s.t, h, e.key) == Some(e.id))
  {
    hide IsRun;
    RunKeeps(states, steps, h, i);
    var s := states[i];
    forall e | e in s.stayed
      ensures Find(s.t, h, e.key) == Some(e.id)
    {
      HomeOk(s.t, h, h(e.key));
      SearchIff(Home(s.t, h(e.key)), e.key, e.id);
    }
  }

  lemma StayedStep(s: Walk, h: Hash, st: Step, e: Entry)
    requires Inv(s, h) && Enabled(s, h, st) && st != Open && e in s.stayed
    requires Shape(Apply(s, h, st).t) && Contains(Apply(s, h, st).t, h, e)
    ensures e in Apply(s, h, st).stayed
  {
    hide Inv, Deleted, Inserted, Expanded, Migrated, Contains, Find;
    if st.UnlinkHanded? {
      DeletedGone(s, h, s.it.value.key, e);
    } else if st.OtherDelete? {
      DeletedGone(s, h, st.key, e);
    }
  }

  /** An entry present in every state since the walk began is one of those that stayed. */
  lemma {:induction false} PresentStays(states: seq<Walk>, steps: seq<Step>, h: Hash, i: nat, j: nat, e: Entry)
    requires IsRun(states, steps, h) && i < j < |states| && steps[i] == Open
    requires forall k :: i < k < j ==> steps[k] != Open
    requires forall k :: i <= k <= j ==> Shape(states[k].t) && Contains(states[k].t, h, e)
    ensures e in states[j].stayed
    decreases j - i
  {
    hide Inv, Contains, Shape, Entries, Deleted, Inserted, Expanded, Migrated, Iterated, Find;
    RunKeeps(states, steps, h, j - 1);
    if j == i + 1 {
      assert states[j] == Apply(states[i], h, Open);
      EntriesHas(states[i], h, e);
    } else {
      PresentStays(states, steps, h, i, j - 1, e);
      assert states[j - 1 + 1] == Apply(states[j - 1], h, steps[j - 1]);
      assert Shape(states[j].t) && Contains(states[j].t, h, e);
      StayedStep(states[j - 1], h, steps[j - 1], e);
    }
  }

  /** A complete walk hands out every entry that is in the table from its first to its last step, and
      hands it out exactly once. */
  lemma StayersHandedOutOnce(states: seq<Walk>, steps: seq<Step>, h: Hash, i: nat, j: nat, e: Entry)
    requires IsRun(states, steps, h) && i < j < |states| && steps[i] == Open
    requires forall k :: i < k < j ==> steps[k] != Open
    requires forall k :: i <= k <= j ==> Shape(states[k].t) && Contains(states[k].t, h, e)
    requires states[j].holder == Walker && states[j].bucket == |states[j].t.primary|
    ensures multiset(states[j].out)[e] == 1
  {
    hide IsRun, Contains, Shape;
    PresentStays(states, steps, h, i, j, e);
    WalkIsComplete(states, steps, h, j);
    OnceIn(states[j].out, e);
  }

  lemma {:induction false} OnceIn(s: seq<Entry>, e: Entry)
    requires NoDupKeys(s)
    ensures multiset(s)[e] == if e in s then 1 else 0
  {
    if s != [] {
      assert s == [s[0]] + s[1..];
      assert NoDupKeys(s[1..]);
      OnceIn(s[1..], e);
      assert forall j :: 0 < j < |s| ==> s[0].key != s[j].key;
    }
  }

  lemma EntriesHas(s: Walk, h: Hash, e: Entry)
    requires Inv(s, h) && s.holder == Nobody && Shape(s.t) && Contains(s.t, h, e)
    ensures e in Entries(s.t)
  {
    PrimaryHome(s.t, h, e.key);
    var b := h(e.key) % |s.t.primary|;
    var i :| 0 <= i < |s.t.primary[b]| && s.t.primary[b][i] == e;
    assert s.t.primary[b][i] == e;
  }

  lemma DeletedGone(s: Walk, h: Hash, key: Key, e: Entry)
    requires Inv(s, h) && Shape(s.t) && Contains(Deleted(s.t, h, key), h, e)
    ensures e.key != key
  {
    if e.key == key {
      HomeOk(s.t, h, h(key));
      CutFacts(Home(s.t, h(key)), key, key);
      HomeOfOther(s.t, h(key), Cut(Home(s.t, h(key)), key), h(key));
    }
  }

  // ---------------------------------------------------------------- the iterator as an object

  class TableIterator {
    var w: Walk

    constructor (s: Walk)
      ensures w == s
    {
      w := s;
    }

    /** One call: step along the locked bucket, leave it, or lock the next one. */
    method Next() returns (more: bool, it: Option<Entry>)
      requires Shape(w.t) && (w.locked ==> w.bucket < |w.t.primary|)
      modifies this
      ensures w == Iterated(old(w))
      ensures more == (old(w.locked) || old(w.bucket) < |w.t.primary|)
      ensures w.out == if it.Some? then old(w.out) + [it.value] else old(w.out)
    {
      it := None;
      if w.locked {
        w := w.(calls := w.calls + 1);
        if w.next.Some? {
          it := w.next;
          w := w.(it := it, next := Succ(w.t.primary[w.bucket], it.value), out := w.out + [it.value]);
        } else {
          w := w.(bucket := w.bucket + 1, locked := false);
        }
        return true, it;
      }
      if w.bucket >= |w.t.primary| {
        return false, None;
      }
      w := w.(calls := w.calls + 1);
      var chain := w.t.primary[w.bucket];
      if chain != [] {
        it := Some(chain[0]);
        w := w.(locked := true, it := it, next := Succ(chain, chain[0]), out := w.out + [chain[0]]);
      } else {
        w := w.(bucket := w.bucket + 1);
      }
      return true, it;
    }
  }
}
