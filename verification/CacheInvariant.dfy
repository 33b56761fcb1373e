/** What every reachable state of the item cache satisfies, component by component, and the
    relation between an earlier and a later state that every operation respects. */
module CacheInvariant {
  import opened Sums
  import opened CacheModel

  // ---------------------------------------------------------------- table and lists

  /** The table maps exactly the keys of linked items, each to its item. */
  ghost predicate TableInv(heads: map<nat, Head>, places: map<nat, Place>, table: map<Key, nat>) {
    && (forall k :: k in table ==>
          && table[k] in heads && table[k] in places
          && places[table[k]].linked && heads[table[k]].key == k)
    && (forall id :: id in places && places[id].linked ==>
          id in heads && heads[id].key in table && table[heads[id].key] == id)
  }

  /** Each list holds exactly the linked items marked for it, once each. */
  ghost predicate ListInv(places: map<nat, Place>, list: seq<Elem>, l: nat) {
    && NoDup(list)
    && (forall id :: Entry(id) in list <==> id in places && places[id] == Place(true, l))
  }

  ghost predicate ListsInv(places: map<nat, Place>, lists: seq<seq<Elem>>) {
    forall l :: 0 <= l < |lists| ==> ListInv(places, lists[l], l)
  }

  // ---------------------------------------------------------------- counters

  ghost function One(): Elem -> int { (e: Elem) => if e.Entry? then 1 else 0 }

  ghost function Weight(heads: map<nat, Head>): Elem -> int {
    (e: Elem) => if e.Entry? && e.id in heads then heads[e.id].ntotal else 0
  }

  ghost function Itself(): int -> int { (n: int) => n }

  ghost predicate SizesInv(lists: seq<seq<Elem>>, sizes: seq<int>) {
    && |sizes| == |lists|
    && forall l :: 0 <= l < |lists| ==> sizes[l] == Sum(lists[l], One())
  }

  ghost predicate BytesInv(heads: map<nat, Head>, lists: seq<seq<Elem>>, bytes: seq<int>) {
    && |bytes| == |lists|
    && forall l :: 0 <= l < |lists| ==> bytes[l] == Sum(lists[l], Weight(heads))
  }

  ghost predicate CountInv(table: map<Key, nat>, currItems: int) {
    currItems == |table|
  }

  ghost predicate TotalInv(counts: seq<int>, total: int) {
    total == Sum(counts, Itself())
  }

  // ---------------------------------------------------------------- references

  ghost function Parked(id: nat): seq<nat> -> int { (b: seq<nat>) => multiset(b)[id] }

  /** The references an item must have: one for the link, one per holder, one per parked bump. */
  ghost function Due(p: Place, held: multiset<nat>, bumps: seq<seq<nat>>, id: nat): int {
    (if p.linked then 1 else 0) + held[id] + Sum(bumps, Parked(id))
  }

  ghost predicate RefsInv(places: map<nat, Place>, refs: map<nat, int>, held: multiset<nat>, bumps: seq<seq<nat>>) {
    && refs.Keys == places.Keys
    && (forall id :: id in refs ==> refs[id] == Due(places[id], held, bumps, id) && refs[id] > 0)
    && (forall id :: id in held ==> id in refs)
    && (forall w, id :: 0 <= w < |bumps| && id in bumps[w] ==> id in refs)
  }

  // ---------------------------------------------------------------- identities and CAS ids

  ghost predicate IdsInv(heads: map<nat, Head>, nextId: nat) {
    forall id :: id in heads ==> id < nextId
  }

  ghost predicate PublishedInv(places: map<nat, Place>, published: set<nat>, nextId: nat) {
    && (forall id :: id in places && places[id].linked ==> id in published)
    && (forall id :: id in published ==> id < nextId)
  }

  /** The CAS id of an item names its present key and value. */
  ghost predicate Labelled(heads: map<nat, Head>, data: map<nat, string>, cas: map<nat, nat>,
                           versions: map<nat, Version>, id: nat)
  {
    && id in heads && id in data && id in cas && cas[id] in versions
    && versions[cas[id]] == Version(heads[id].key, data[id])
  }

  ghost predicate LinkedLabelled(heads: map<nat, Head>, data: map<nat, string>, cas: map<nat, nat>,
                                 versions: map<nat, Version>, places: map<nat, Place>)
  {
    forall id :: id in places && places[id].linked ==> Labelled(heads, data, cas, versions, id)
  }

  /** CAS ids have been given out up to casId. */
  ghost predicate IssuedInv(versions: map<nat, Version>, casId: nat) {
    forall v :: v in versions ==> 0 < v <= casId
  }

  /** Everything but the reference counts. */
  ghost predicate Core(c: Cache) {
    && Shape(c) && c.sound
    && TableInv(c.heads, c.places, c.table)
    && ListsInv(c.places, c.lists)
    && SizesInv(c.lists, c.sizes)
    && BytesInv(c.heads, c.lists, c.bytes)
    && CountInv(c.table, c.currItems)
    && TotalInv(c.sizes, c.currItems)
    && TotalInv(c.bytes, c.currBytes)
    && IdsInv(c.heads, c.nextId)
    && PublishedInv(c.places, c.published, c.nextId)
    && IssuedInv(c.versions, c.casId)
    && (c.settings.useCas ==> LinkedLabelled(c.heads, c.data, c.cas, c.versions, c.places))
  }

  ghost predicate Inv(c: Cache) {
    Core(c) && RefsInv(c.places, c.refs, c.held, c.bumps)
  }

  // ---------------------------------------------------------------- earlier and later states

  /** An item that has been linked, still exists, and whose CAS id does not name its value. */
  ghost predicate Mislabelled(c: Cache, id: nat) {
    c.settings.useCas && id in c.heads && id in c.published 
    && !Labelled(c.heads, c.data, c.cas, c.versions, id)
  }

  /** History only grows, and no identity comes back. */
  ghost predicate Evolves(c: Cache, r: Cache) {
    && r.settings == c.settings
    && c.nextId <= r.nextId && c.casId <= r.casId
    && (forall v :: v in c.versions ==> v in r.versions && r.versions[v] == c.versions[v])
    && (forall id :: id in r.heads ==> (id in c.heads && r.heads[id] == c.heads[id]) || id >= c.nextId)
  }

  /** No label goes wrong. */
  ghost predicate LabelsKept(c: Cache, r: Cache) {
    forall id :: Mislabelled(r, id) ==> Mislabelled(c, id)
  }

  /** No value changes under anybody. */
  ghost predicate SameData(c: Cache, r: Cache) {
    forall id :: id in c.data && id in r.data ==> r.data[id] == c.data[id]
  }

  /** What any operation but an edit in place leaves behind. */
  ghost predicate Follows(c: Cache, r: Cache) {
    Evolves(c, r) && LabelsKept(c, r) && SameData(c, r)
  }

  ghost predicate Good(c: Cache, r: Cache) {
    Inv(r) && Follows(c, r)
  }

  lemma GoodSelf(c: Cache)
    requires Inv(c)
    ensures Good(c, c)
  {
    hide TableInv, ListsInv, SizesInv, BytesInv, TotalInv, CountInv, RefsInv, PublishedInv, LinkedLabelled, IssuedInv;
  }

  lemma EvolvesThen(c: Cache, m: Cache, r: Cache)
    requires Evolves(c, m) && Evolves(m, r)
    ensures Evolves(c, r)
  {
  }

  /** Since no identity comes back, an item in both end states was there in between. */
  lemma SameDataThen(c: Cache, m: Cache, r: Cache)
    requires Rows(c) && Rows(m) && Rows(r) && IdsInv(c.heads, c.nextId)
    requires Evolves(c, m) && Evolves(m, r) && SameData(c, m) && SameData(m, r)
    ensures SameData(c, r)
  {
    forall id | id in c.data && id in r.data
      ensures r.data[id] == c.data[id]
    {
      assert id in m.heads;
    }
  }

  lemma FollowsThen(c: Cache, m: Cache, r: Cache)
    requires Rows(c) && Rows(m) && Rows(r) && IdsInv(c.heads, c.nextId) && Follows(c, m) && Follows(m, r)
    ensures Follows(c, r)
  {
    hide Mislabelled, Evolves, SameData, Rows, IdsInv;
    EvolvesThen(c, m, r);
    SameDataThen(c, m, r);
  }

  lemma GoodThen(c: Cache, m: Cache, r: Cache)
    requires Core(c) && Good(c, m) && Good(m, r)
    ensures Good(c, r)
  {
    hide TableInv, ListsInv, SizesInv, BytesInv, TotalInv, CountInv, IdsInv, RefsInv, PublishedInv, LinkedLabelled,
      IssuedInv, Rows, Follows;
    FollowsThen(c, m, r);
  }
}
