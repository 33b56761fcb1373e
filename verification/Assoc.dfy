/** The hash table of assoc.c: two bucket arrays with a migration cursor, refining a map from keys
    to items in every state of an expansion. */
module Assoc {
  import opened Sums

  type Key = string
  type Hash = Key -> nat

  datatype Entry = Entry(key: Key, id: nat)

  /** `spare` is the old bucket array while an expansion runs; its buckets below `cursor` have moved. */
  datatype Table = Table(primary: seq<seq<Entry>>, spare: seq<seq<Entry>>, expanding: bool, cursor: nat)

  // ---------------------------------------------------------------- shape and homes

  /** An array of 2^power chains, and while expanding one of half that size. */
  ghost predicate Shape(t: Table) {
    && |t.primary| > 0
    && (t.expanding ==> |t.primary| == 2 * |t.spare| && t.cursor < |t.spare|)
  }

  /** Whether a key with this hash still lives in the old array. */
  predicate InSpare(t: Table, hv: nat)
    requires Shape(t)
  {
    t.expanding && hv % |t.spare| >= t.cursor
  }

  function Home(t: Table, hv: nat): (chain: seq<Entry>)
    requires Shape(t)
  {
    if InSpare(t, hv) then t.spare[hv % |t.spare|] else t.primary[hv % |t.primary|]
  }

  function WithHome(t: Table, hv: nat, chain: seq<Entry>): (r: Table)
    requires Shape(t)
    ensures Shape(r) && r.expanding == t.expanding && r.cursor == t.cursor
    ensures |r.primary| == |t.primary| && |r.spare| == |t.spare|
  {
    if InSpare(t, hv) then t.(spare := t.spare[hv % |t.spare| := chain])
    else t.(primary := t.primary[hv % |t.primary| := chain])
  }

  ghost predicate NoDupKeys(chain: seq<Entry>) {
    forall i, j :: 0 <= i < j < |chain| ==> chain[i].key != chain[j].key
  }

  ghost predicate PrimaryOk(t: Table, h: Hash, b: nat)
    requires Shape(t) && b < |t.primary|
  {
    && NoDupKeys(t.primary[b])
    && forall e :: e in t.primary[b] ==> h(e.key) % |t.primary| == b && !InSpare(t, h(e.key))
  }

  ghost predicate SpareOk(t: Table, h: Hash, b: nat)
    requires Shape(t) && t.expanding && b < |t.spare|
  {
    && NoDupKeys(t.spare[b])
    && (b < t.cursor ==> t.spare[b] == [])
    && forall e :: e in t.spare[b] ==> h(e.key) % |t.spare| == b
  }

  /** Every entry stands where a lookup of its key goes, and no chain repeats a key. */
  ghost predicate Ok(t: Table, h: Hash) {
    && Shape(t)
    && (forall b :: 0 <= b < |t.primary| ==> PrimaryOk(t, h, b))
    && (t.expanding ==> forall b :: 0 <= b < |t.spare| ==> SpareOk(t, h, b))
  }

  // ---------------------------------------------------------------- the map

  function Search(chain: seq<Entry>, key: Key): Option<nat> {
    if chain == [] then None
    else if chain[0].key == key then Some(chain[0].id)
    else Search(chain[1..], key)
  }

  /** The map the table stands for. */
  ghost function Find(t: Table, h: Hash, key: Key): Option<nat>
    requires Shape(t)
  {
    Search(Home(t, h(key)), key)
  }

  lemma {:induction false} SearchIff(chain: seq<Entry>, key: Key, id: nat)
    requires NoDupKeys(chain)
    ensures Search(chain, key) == Some(id) <==> Entry(key, id) in chain
    ensures Search(chain, key) == None <==> forall e :: e in chain ==> e.key != key
  {
    if chain != [] {
      assert NoDupKeys(chain[1..]);
      SearchIff(chain[1..], key, id);
      assert forall e :: e in chain <==> e == chain[0] || e in chain[1..];
      if chain[0].key == key {
        assert forall j :: 0 < j < |chain| ==> chain[j].key != key;
      }
    }
  }

  /** The table is a map: a key is bound to an item exactly when that pair stands somewhere in it. */
  lemma FindIff(t: Table, h: Hash, key: Key, id: nat)
    requires Ok(t, h)
    ensures Find(t, h, key) == Some(id)
      <==> (exists b :: 0 <= b < |t.primary| && Entry(key, id) in t.primary[b])
           || (t.expanding && exists b :: 0 <= b < |t.spare| && Entry(key, id) in t.spare[b])
  {
    HomeOk(t, h, h(key));
    SearchIff(Home(t, h(key)), key, id);
    if b :| 0 <= b < |t.primary| && Entry(key, id) in t.primary[b] {
      assert PrimaryOk(t, h, b);
    }
    if t.expanding {
      if b :| 0 <= b < |t.spare| && Entry(key, id) in t.spare[b] {
        assert SpareOk(t, h, b);
      }
    }
  }

  lemma HomeOk(t: Table, h: Hash, hv: nat)
    requires Ok(t, h)
    ensures NoDupKeys(Home(t, hv))
    ensures forall e :: e in Home(t, hv) ==> Home(t, h(e.key)) == Home(t, hv)
  {
    if InSpare(t, hv) {
      assert SpareOk(t, h, hv % |t.spare|);
    } else {
      assert PrimaryOk(t, h, hv % |t.primary|);
    }
  }

  /** Two hashes share a home or do not touch each other's. */
  ghost predicate SameHome(t: Table, a: nat, b: nat)
    requires Shape(t)
  {
    if InSpare(t, a) then InSpare(t, b) && a % |t.spare| == b % |t.spare|
    else !InSpare(t, b) && a % |t.primary| == b % |t.primary|
  }

  lemma HomeOfOther(t: Table, hv: nat, chain: seq<Entry>, other: nat)
    requires Shape(t)
    ensures Home(WithHome(t, hv, chain), other) == if SameHome(t, hv, other) then chain else Home(t, other)
  {
  }

  /** Replacing a home chain by one whose keys all belong there keeps the table in order. */
  lemma WithHomeOk(t: Table, h: Hash, hv: nat, chain: seq<Entry>)
    requires Ok(t, h) && NoDupKeys(chain)
    requires forall e :: e in chain ==> SameHome(t, hv, h(e.key))
    ensures Ok(WithHome(t, hv, chain), h)
  {
    var r := WithHome(t, hv, chain);
    forall b | 0 <= b < |r.primary|
      ensures PrimaryOk(r, h, b)
    {
      assert PrimaryOk(t, h, b);
    }
    if r.expanding {
      forall b | 0 <= b < |r.spare|
        ensures SpareOk(r, h, b)
      {
        assert SpareOk(t, h, b);
      }
    }
  }

  lemma HomeSame(t: Table, h: Hash, hv: nat)
    requires Ok(t, h)
    ensures forall e :: e in Home(t, hv) ==> SameHome(t, hv, h(e.key))
  {
    if InSpare(t, hv) {
      assert SpareOk(t, h, hv % |t.spare|);
    } else {
      assert PrimaryOk(t, h, hv % |t.primary|);
    }
  }

  // ---------------------------------------------------------------- insert and delete

  function Inserted(t: Table, h: Hash, e: Entry): Table
    requires Shape(t)
  {
    WithHome(t, h(e.key), [e] + Home(t, h(e.key)))
  }

  lemma InsertRefines(t: Table, h: Hash, e: Entry, key: Key)
    requires Ok(t, h) && Find(t, h, e.key) == None
    ensures Ok(Inserted(t, h, e), h)
    ensures Find(Inserted(t, h, e), h, key) == if key == e.key then Some(e.id) else Find(t, h, key)
  {
    var hv := h(e.key);
    var chain := Home(t, hv);
    HomeOk(t, h, hv);
    HomeSame(t, h, hv);
    SearchIff(chain, e.key, e.id);
    WithHomeOk(t, h, hv, [e] + chain);
    HomeOfOther(t, hv, [e] + chain, h(key));
    assert ([e] + chain)[1..] == chain;
    if SameHome(t, hv, h(key)) {
      assert Home(t, h(key)) == chain;
    }
  }

  /** The chain without its first entry for the key. */
  function Cut(chain: seq<Entry>, key: Key): seq<Entry> {
    if chain == [] then [] else if chain[0].key == key then chain[1..] else [chain[0]] + Cut(chain[1..], key)
  }

  lemma {:induction false} CutMembers(chain: seq<Entry>, key: Key)
    requires NoDupKeys(chain)
    ensures NoDupKeys(Cut(chain, key))
    ensures forall e :: e in Cut(chain, key) <==> e in chain && e.key != key
  {
    if chain != [] {
      var rest := chain[1..];
      assert NoDupKeys(rest);
      assert forall e :: e in chain <==> e == chain[0] || e in rest;
      assert forall e :: e in rest ==> e.key != chain[0].key;
      if chain[0].key != key {
        CutMembers(rest, key);
        KeysCons(chain[0], Cut(rest, key));
      }
    }
  }

  lemma KeysCons(e: Entry, rest: seq<Entry>)
    requires NoDupKeys(rest) && forall f :: f in rest ==> f.key != e.key
    ensures NoDupKeys([e] + rest)
    ensures forall f :: f in [e] + rest <==> f == e || f in rest
  {
  }

  lemma {:induction false} CutSearch(chain: seq<Entry>, key: Key, other: Key)
    requires NoDupKeys(chain)
    ensures Search(Cut(chain, key), other) == if other == key then None else Search(chain, other)
  {
    if chain != [] {
      assert NoDupKeys(chain[1..]);
      if chain[0].key == key {
        assert forall e :: e in chain[1..] ==> e.key != key;
        SearchIff(chain[1..], key, 0);
      } else {
        CutSearch(chain[1..], key, other);
        assert Cut(chain, key)[1..] == Cut(chain[1..], key);
      }
    }
  }

  /** Cutting a key out of a chain removes its entry and no other. */
  lemma CutFacts(chain: seq<Entry>, key: Key, other: Key)
    requires NoDupKeys(chain)
    ensures NoDupKeys(Cut(chain, key))
    ensures forall e :: e in Cut(chain, key) <==> e in chain && e.key != key
    ensures Search(Cut(chain, key), other) == if other == key then None else Search(chain, other)
  {
    hide Cut, Search, NoDupKeys;
    CutMembers(chain, key);
    CutSearch(chain, key, other);
  }

  function Deleted(t: Table, h: Hash, key: Key): Table
    requires Shape(t)
  {
    WithHome(t, h(key), Cut(Home(t, h(key)), key))
  }

  lemma DeleteRefines(t: Table, h: Hash, gone: Key, key: Key)
    requires Ok(t, h)
    ensures Ok(Deleted(t, h, gone), h)
    ensures Find(Deleted(t, h, gone), h, key) == if key == gone then None else Find(t, h, key)
  {
    var hv := h(gone);
    var chain := Home(t, hv);
    HomeOk(t, h, hv);
    HomeSame(t, h, hv);
    CutFacts(chain, gone, key);
    WithHomeOk(t, h, hv, Cut(chain, gone));
    HomeOfOther(t, hv, Cut(chain, gone), h(key));
  }

  // ---------------------------------------------------------------- expansion

  function NoChains(n: nat): seq<seq<Entry>> { seq(n, i => []) }

  /** Start an expansion: the table becomes the old array beside a new one of twice the size; when
      the allocation fails nothing changes. */
  function Expanded(t: Table, ok: bool): Table {
    if ok then Table(NoChains(2 * |t.primary|), t.primary, true, 0) else t
  }

  lemma ExpandRefines(t: Table, h: Hash, ok: bool, key: Key)
    requires Ok(t, h) && !t.expanding
    ensures Ok(Expanded(t, ok), h)
    ensures Find(Expanded(t, ok), h, key) == Find(t, h, key)
  {
    if ok {
      var r := Expanded(t, ok);
      forall b | 0 <= b < |r.spare|
        ensures SpareOk(r, h, b)
      {
        assert PrimaryOk(t, h, b);
      }
    }
  }

  /** Push one migrating entry onto its new chain. */
  function Pushed(primary: seq<seq<Entry>>, h: Hash, e: Entry): (r: seq<seq<Entry>>)
    requires |primary| > 0
    ensures |r| == |primary|
  {
    var b := h(e.key) % |primary|;
    primary[b := [e] + primary[b]]
  }

  function PushAll(primary: seq<seq<Entry>>, h: Hash, chain: seq<Entry>): (r: seq<seq<Entry>>)
    requires |primary| > 0
    ensures |r| == |primary|
    decreases |chain|
  {
    if chain == [] then primary else PushAll(Pushed(primary, h, chain[0]), h, chain[1..])
  }

  /** Move the bucket under the cursor; the last one ends the expansion. */
  function Migrated(t: Table, h: Hash): Table
    requires Shape(t) && t.expanding
  {
    var primary := PushAll(t.primary, h, t.spare[t.cursor]);
    if t.cursor + 1 == |t.spare| then Table(primary, [], false, 0)
    else Table(primary, t.spare[t.cursor := []], true, t.cursor + 1)
  }

  /** What the moved chain adds to each new bucket: its own keys, found where they now belong. */
  lemma {:induction false} PushAllFacts(primary: seq<seq<Entry>>, h: Hash, chain: seq<Entry>, b: nat)
    requires |primary| > 0 && b < |primary| && NoDupKeys(chain) && NoDupKeys(primary[b])
    requires forall e, f :: e in chain && f in primary[b] ==> e.key != f.key
    ensures NoDupKeys(PushAll(primary, h, chain)[b])
    ensures forall e :: e in PushAll(primary, h, chain)[b] <==>
      e in primary[b] || (e in chain && h(e.key) % |primary| == b)
    decreases |chain|
  {
    if chain != [] {
      assert NoDupKeys(chain[1..]);
      assert forall e :: e in chain <==> e == chain[0] || e in chain[1..];
      assert forall j :: 0 < j < |chain| ==> chain[0].key != chain[j].key;
      PushAllFacts(Pushed(primary, h, chain[0]), h, chain[1..], b);
    }
  }

  /** The keys of the bucket under the cursor are in no new bucket yet. */
  lemma CursorIsNew(t: Table, h: Hash, b: nat)
    requires Ok(t, h) && t.expanding && b < |t.primary|
    ensures NoDupKeys(t.spare[t.cursor]) && NoDupKeys(t.primary[b])
    ensures forall e, f :: e in t.spare[t.cursor] && f in t.primary[b] ==> e.key != f.key
  {
    assert SpareOk(t, h, t.cursor) && PrimaryOk(t, h, b);
  }

  /** A migration step keeps the table in order. */
  lemma MigrateOk(t: Table, h: Hash)
    requires Ok(t, h) && t.expanding
    ensures Ok(Migrated(t, h), h)
  {
    var r := Migrated(t, h);
    forall b | 0 <= b < |r.primary|
      ensures PrimaryOk(r, h, b)
    {
      CursorIsNew(t, h, b);
      PushAllFacts(t.primary, h, t.spare[t.cursor], b);
      assert PrimaryOk(t, h, b) && SpareOk(t, h, t.cursor);
      forall e | e in r.primary[b]
        ensures h(e.key) % |r.primary| == b && !InSpare(r, h(e.key))
      {
      }
    }
    if r.expanding {
      forall b | 0 <= b < |r.spare|
        ensures SpareOk(r, h, b)
      {
        assert SpareOk(t, h, b);
      }
    }
  }

  /** A key changes arrays only in the step that moves its own old bucket. */
  lemma MigrateMoves(t: Table, h: Hash, key: Key)
    requires Shape(t) && t.expanding
    ensures Shape(Migrated(t, h))
    ensures InSpare(Migrated(t, h), h(key)) <==> InSpare(t, h(key)) && h(key) % |t.spare| != t.cursor
  {
  }

  /** A migration step changes no binding. */
  lemma MigrateRefines(t: Table, h: Hash, key: Key)
    requires Ok(t, h) && t.expanding
    ensures Ok(Migrated(t, h), h) && Find(Migrated(t, h), h, key) == Find(t, h, key)
  {
    MigrateOk(t, h);
    var r := Migrated(t, h);
    MigrateMoves(t, h, key);
    if !InSpare(r, h(key)) {
      var b := h(key) % |t.primary|;
      CursorIsNew(t, h, b);
      PushAllFacts(t.primary, h, t.spare[t.cursor], b);
      assert PrimaryOk(t, h, b) && SpareOk(t, h, t.cursor) && PrimaryOk(r, h, b);
      SameSearch(t, h, r, key, b);
    }
  }

  lemma SameSearch(t: Table, h: Hash, r: Table, key: Key, b: nat)
    requires Ok(t, h) && t.expanding && b < |t.primary| && b == h(key) % |t.primary|
    requires Shape(r) && !InSpare(r, h(key)) && |r.primary| == |t.primary| && NoDupKeys(r.primary[b])
    requires forall e :: e in r.primary[b] <==>
      e in t.primary[b] || (e in t.spare[t.cursor] && h(e.key) % |t.primary| == b)
    requires InSpare(t, h(key)) ==> h(key) % |t.spare| == t.cursor
    ensures Find(r, h, key) == Find(t, h, key)
  {
    var mine := Home(t, h(key));
    HomeOk(t, h, h(key));
    assert PrimaryOk(t, h, b) && SpareOk(t, h, t.cursor);
    assert forall id :: Entry(key, id) in r.primary[b] <==> Entry(key, id) in mine;
    forall id: nat
      ensures Search(r.primary[b], key) == Some(id) <==> Search(mine, key) == Some(id)
    {
      SearchIff(r.primary[b], key, id);
      SearchIff(mine, key, id);
    }
    OptionSame(Search(r.primary[b], key), Search(mine, key));
  }

  lemma OptionSame(a: Option<nat>, b: Option<nat>)
    requires forall id :: a == Some(id) <==> b == Some(id)
    ensures a == b
  {
    if a.Some? {
      assert a == Some(a.value);
    }
  }

  // ---------------------------------------------------------------- whole runs

  datatype Op = Insert(e: Entry) | Delete(key: Key) | StartExpand(ok: bool) | MigrateBucket

  /** The callers insert only absent keys and delete only present ones; one expansion at a time. */
  ghost predicate Enabled(t: Table, h: Hash, op: Op)
    requires Shape(t)
  {
    match op
    case Insert(e) => Find(t, h, e.key) == None
    case Delete(key) => Find(t, h, key) != None
    case StartExpand(_) => !t.expanding
    case MigrateBucket => t.expanding
  }

  ghost function Apply(t: Table, h: Hash, op: Op): Table
    requires Shape(t) && Enabled(t, h, op)
  {
    match op
    case Insert(e) => Inserted(t, h, e)
    case Delete(key) => Deleted(t, h, key)
    case StartExpand(ok) => Expanded(t, ok)
    case MigrateBucket => Migrated(t, h)
  }

  /** What one operation means to a client who had a key bound to `before`. */
  ghost function Bound(op: Op, key: Key, before: Option<nat>): Option<nat> {
    match op
    case Insert(e) => if e.key == key then Some(e.id) else before
    case Delete(k) => if k == key then None else before
    case StartExpand(_) => before
    case MigrateBucket => before
  }

  /** What a sequence of them means: the last insert of the key not yet deleted. */
  ghost function Meaning(ops: seq<Op>, key: Key): Option<nat> {
    if ops == [] then None else Bound(ops[|ops| - 1], key, Meaning(ops[..|ops| - 1], key))
  }

  function Fresh(buckets: nat): Table
    requires buckets > 0
  {
    Table(NoChains(buckets), [], false, 0)
  }

  ghost predicate IsRun(tables: seq<Table>, ops: seq<Op>, h: Hash) {
    && |tables| == |ops| + 1
    && (exists buckets :: 0 < buckets && tables[0] == Fresh(buckets))
    && (forall i :: 0 <= i < |tables| ==> Shape(tables[i]))
    && (forall i :: 0 <= i < |ops| ==> Enabled(tables[i], h, ops[i]) && tables[i + 1] == Apply(tables[i], h, ops[i]))
  }

  /** In every state of every run, in or out of an expansion, the table is the map its inserts and
      deletes describe. */
  lemma {:induction false} RunRefines(tables: seq<Table>, ops: seq<Op>, h: Hash, i: nat, key: Key)
    requires IsRun(tables, ops, h) && i <= |ops|
    ensures Ok(tables[i], h) && Find(tables[i], h, key) == Meaning(ops[..i], key)
  {
    if i > 0 {
      RunRefines(tables, ops, h, i - 1, key);
      assert ops[..i][..i - 1] == ops[..i - 1] && ops[..i][i - 1] == ops[i - 1];
      StepRefines(tables[i - 1], h, ops[i - 1], key);
    }
  }

  /** Bucket moves among the operations from i up to j. */
  ghost function Moves(ops: seq<Op>, i: nat, j: nat): nat
    requires i <= j <= |ops|
    decreases j - i
  {
    if i == j then 0 else Moves(ops, i, j - 1) + if ops[j - 1].MigrateBucket? then 1 else 0
  }

  /** An expansion doubles the table and is over exactly when every bucket it began with has been moved,
      whatever is inserted and deleted meanwhile. */
  lemma {:induction false} ExpansionEnds(tables: seq<Table>, ops: seq<Op>, h: Hash, i: nat, j: nat)
    requires IsRun(tables, ops, h) && i < j <= |ops| && ops[i] == StartExpand(true)
    requires forall k :: i < k < j ==> !ops[k].StartExpand?
    ensures var n, moved, t := |tables[i].primary|, Moves(ops, i + 1, j), tables[j];
      && |t.primary| == 2 * n && moved <= n && (t.expanding <==> moved < n)
      && (t.expanding ==> |t.spare| == n && t.cursor == moved)
    decreases j
  {
    hide Find, PushAll, Search, Cut;
    assert tables[j] == Apply(tables[j - 1], h, ops[j - 1]);
    if i + 1 < j {
      ExpansionEnds(tables, ops, h, i, j - 1);
    }
  }

  lemma StepRefines(t: Table, h: Hash, op: Op, key: Key)
    requires Ok(t, h) && Enabled(t, h, op)
    ensures Ok(Apply(t, h, op), h)
    ensures Find(Apply(t, h, op), h, key) == Bound(op, key, Find(t, h, key))
  {
    hide Ok, Find, Inserted, Deleted, Expanded, Migrated;
    match op {
      case Insert(e) => InsertRefines(t, h, e, key);
      case Delete(k) => DeleteRefines(t, h, k, key);
      case StartExpand(ok) => ExpandRefines(t, h, ok, key);
      case MigrateBucket => MigrateRefines(t, h, key);
    }
  }

  // ---------------------------------------------------------------- the table as an object

  class HashTable {
    const h: Hash
    var t: Table

    ghost predicate Valid()
      reads this
    {
      Ok(t, h)
    }

    constructor (hash: Hash, buckets: nat)
      requires buckets > 0
      ensures Valid() && h == hash && t == Fresh(buckets)
      ensures forall key :: Find(t, h, key) == None
    {
      h := hash;
      t := Fresh(buckets);
    }

    /** Walk the chain of the key's home. */
    method FindItem(key: Key) returns (found: Option<nat>)
      requires Valid()
      ensures found == Find(t, h, key)
    {
      var chain := Home(t, h(key));
      var i := 0;
      assert chain[0..] == chain;
      while i < |chain|
        invariant 0 <= i <= |chain| && Search(chain, key) == Search(chain[i..], key)
      {
        if chain[i].key == key {
          return Some(chain[i].id);
        }
        assert chain[i..][1..] == chain[i + 1..];
        i := i + 1;
      }
      return None;
    }

    method InsertItem(e: Entry)
      requires Valid() && Find(t, h, e.key) == None
      modifies this
      ensures Valid() && t == Inserted(old(t), h, e)
      ensures forall key :: Find(t, h, key) == if key == e.key then Some(e.id) else Find(old(t), h, key)
    {
      hide Ok, Find, WithHome;
      EveryKey(t, h, Insert(e));
      t := WithHome(t, h(e.key), [e] + Home(t, h(e.key)));
    }

    /** Walk to the key's entry and cut it out of the chain. */
    method DeleteItem(key: Key)
      requires Valid() && Find(t, h, key) != None
      modifies this
      ensures Valid() && t == Deleted(old(t), h, key)
      ensures forall k :: Find(t, h, k) == if k == key then None else Find(old(t), h, k)
    {
      hide Ok, Find, WithHome, Cut;
      EveryKey(t, h, Delete(key));
      CutPresent(t, h, key);
      var found, chain := CutChain(Home(t, h(key)), key);
      // the assert the code ends with: a key that is deleted was there
      assert found;
      t := WithHome(t, h(key), chain);
    }

    method Expand(ok: bool)
      requires Valid() && !t.expanding
      modifies this
      ensures Valid() && t == Expanded(old(t), ok)
      ensures forall key :: Find(t, h, key) == Find(old(t), h, key)
    {
      hide Ok, Find;
      EveryKey(t, h, StartExpand(ok));
      if ok {
        t := Table(NoChains(2 * |t.primary|), t.primary, true, 0);
      }
    }

    /** Move every entry of the bucket under the cursor, one by one. */
    method Migrate()
      requires Valid() && t.expanding
      modifies this
      ensures Valid() && t == Migrated(old(t), h)
      ensures forall key :: Find(t, h, key) == Find(old(t), h, key)
    {
      hide Ok, Find;
      EveryKey(t, h, MigrateBucket);
      var chain := t.spare[t.cursor];
      var primary := t.primary;
      var i := 0;
      assert chain[0..] == chain;
      while i < |chain|
        invariant 0 <= i <= |chain| && |primary| == |t.primary|
        invariant PushAll(t.primary, h, chain) == PushAll(primary, h, chain[i..])
      {
        assert chain[i..][1..] == chain[i + 1..];
        var b := h(chain[i].key) % |primary|;
        primary := primary[b := [chain[i]] + primary[b]];
        i := i + 1;
      }
      if t.cursor + 1 == |t.spare| {
        t := Table(primary, [], false, 0);
      } else {
        t := Table(primary, t.spare[t.cursor := []], true, t.cursor + 1);
      }
    }
  }

  /** The walk of a deletion. */
  method CutChain(chain: seq<Entry>, key: Key) returns (found: bool, rest: seq<Entry>)
    ensures rest == Cut(chain, key) && found == (rest != chain)
  {
    var i := 0;
    while i < |chain| && chain[i].key != key
      invariant 0 <= i <= |chain| && forall j :: 0 <= j < i ==> chain[j].key != key
    {
      i := i + 1;
    }
    CutAt(chain, key, i);
    found := i < |chain|;
    rest := if found then chain[..i] + chain[i + 1..] else chain;
    assert found ==> |rest| == |chain| - 1;
  }

  lemma {:induction false} CutAt(chain: seq<Entry>, key: Key, i: nat)
    requires i <= |chain| && (forall j :: 0 <= j < i ==> chain[j].key != key) && (i < |chain| ==> chain[i].key == key)
    ensures Cut(chain, key) == if i < |chain| then chain[..i] + chain[i + 1..] else chain
  {
    if i > 0 {
      CutAt(chain[1..], key, i - 1);
      assert chain == [chain[0]] + chain[1..];
      if i < |chain| {
        assert [chain[0]] + (chain[1..][..i - 1] + chain[1..][i..]) == chain[..i] + chain[i + 1..];
      }
    }
  }

  /** One operation, at every key. */
  lemma EveryKey(t: Table, h: Hash, op: Op)
    requires Ok(t, h) && Enabled(t, h, op)
    ensures Shape(t) && Ok(Apply(t, h, op), h) && Shape(Apply(t, h, op))
    ensures forall key :: Find(Apply(t, h, op), h, key) == Bound(op, key, Find(t, h, key))
  {
    hide Find, Apply, PrimaryOk, SpareOk;
    StepRefines(t, h, op, "");
    forall key
      ensures Find(Apply(t, h, op), h, key) == Bound(op, key, Find(t, h, key))
    {
      StepRefines(t, h, op, key);
    }
  }

  lemma CutPresent(t: Table, h: Hash, key: Key)
    requires Ok(t, h) && Find(t, h, key) != None
    ensures Cut(Home(t, h(key)), key) != Home(t, h(key))
  {
    var chain := Home(t, h(key));
    HomeOk(t, h, h(key));
    CutFacts(chain, key, key);
  }
}
