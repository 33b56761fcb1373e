/** Pages move between the free lists and the bucket lists. */
module ExtstorePageProof {
  import opened Sums
  import opened ExtstoreModel
  import opened ExtstoreInvariant
  import opened ExtstoreProof
  import opened ExtstoreWriteProof

  // ---------------------------------------------------------------- _allocate_page

  /** page_free is positive whenever a free list has a page to give. */
  lemma PageAvailable(places: seq<Place>, freeLists: seq<seq<nat>>, pageFree: int, l: nat)
    requires FreeListsInv(places, freeLists, pageFree) && l < |freeLists| && freeLists[l] != []
    ensures 0 < pageFree
    ensures var p := freeLists[l][0]; 0 < p < |places| && places[p].free && places[p].freeBucket == l
  {
    SumAtLeast(freeLists, l, Length());
  }

  /** page_free is positive exactly when some free list has a page to give. */
  lemma FreeExactly(places: seq<Place>, freeLists: seq<seq<nat>>, pageFree: int)
    requires FreeListsInv(places, freeLists, pageFree)
    ensures 0 < pageFree <==> exists l :: 0 <= l < |freeLists| && freeLists[l] != []
  {
    forall l | 0 <= l < |freeLists| && freeLists[l] != []
      ensures 0 < pageFree
    {
      PageAvailable(places, freeLists, pageFree, l);
    }
    if forall l :: 0 <= l < |freeLists| ==> freeLists[l] == [] {
      SumZero(freeLists, Length());
    }
  }

  lemma TakenFreeLists(places: seq<Place>, freeLists: seq<seq<nat>>, pageFree: int, l: nat, place: Place)
    requires FreeListsInv(places, freeLists, pageFree) && l < |freeLists| && freeLists[l] != []
    requires !place.free
    ensures var p := freeLists[l][0];
      p < |places| && FreeListsInv(places[p := place], freeLists[l := freeLists[l][1..]], pageFree - 1)
  {
    var p := freeLists[l][0];
    var freeLists' := freeLists[l := freeLists[l][1..]];
    SumUpdate(freeLists, l, freeLists'[l], Length());
    assert forall x :: x in freeLists[l] <==> x == p || x in freeLists'[l];
    forall f, k | 0 <= f < |freeLists'| && 0 <= k < |freeLists'[f]|
      ensures freeLists'[f][k] != p && freeLists'[f][k] in freeLists[f]
    {
    }
  }

  lemma TakenVersions(places: seq<Place>, version: nat, p: nat, place: Place)
    requires VersionsInv(places, version) && p < |places|
    requires !place.free && place.version == version
    ensures VersionsInv(places[p := place], version + 1)
  {
  }

  lemma BucketFrame(places: seq<Place>, list: seq<nat>, b: nat, p: nat, place: Place)
    requires BucketOk(places, list, b) && p < |places| && (places[p].free || places[p].bucket != b)
    ensures BucketOk(places[p := place], list, b)
  {
  }

  /** The new head of a bucket list carries the highest version. */
  lemma TakenBucket(places: seq<Place>, list: seq<nat>, version: nat, p: nat, place: Place)
    requires BucketOk(places, list, place.bucket) && VersionsInv(places, version) && p < |places| && places[p].free
    requires !place.free && place.version == version
    ensures BucketOk(places[p := place], [p] + list, place.bucket)
  {
    var list', places' := [p] + list, places[p := place];
    BucketFrame(places, list, place.bucket, p, place);
    forall k | 0 <= k < |list|
      ensures list'[k + 1] == list[k] && places'[list[k]].version < version
    {
    }
    forall i, j | 0 <= i < j < |list'|
      ensures places'[list'[i]].version > places'[list'[j]].version
    {
      assert list'[j] == list[j - 1];
      if i > 0 {
        assert list'[i] == list[i - 1];
      }
    }
  }

  lemma TakenBuckets(places: seq<Place>, buckets: seq<seq<nat>>, version: nat, p: nat, place: Place)
    requires BucketsInv(places, buckets) && VersionsInv(places, version)
    requires p < |places| && places[p].free
    requires !place.free && place.version == version && place.bucket < |buckets|
    ensures BucketsInv(places[p := place], buckets[place.bucket := [p] + buckets[place.bucket]])
  {
    hide BucketOk, VersionsInv;
    var b := place.bucket;
    var buckets', places' := buckets[b := [p] + buckets[b]], places[p := place];
    forall c | 0 <= c < |buckets'|
      ensures BucketOk(places', buckets'[c], c)
    {
      if c == b {
        TakenBucket(places, buckets[b], version, p, place);
      } else {
        BucketFrame(places, buckets[c], c, p, place);
      }
    }
    assert buckets'[b][0] == p;
    assert forall q :: q in buckets[b] ==> q in buckets'[b];
  }

  lemma TakenPages(s: Engine, p: nat, b: nat)
    requires ConfOk(s.conf) && PagesInv(s.conf, s.places, s.fills, s.disk, s.wbufs, s.logs)
    requires VersionsInv(s.places, s.version) && p < |s.places| && s.places[p].free && |s.disk[p]| == s.conf.pageSize
    ensures PagesInv(s.conf, s.places[p := s.places[p].(free := false, version := s.version, bucket := b)],
                     s.fills[p := s.fills[p].(active := true)], s.disk, s.wbufs,
                     s.logs[s.version := Log(p, [], [])])
  {
    var places' := s.places[p := s.places[p].(free := false, version := s.version, bucket := b)];
    var fills' := s.fills[p := s.fills[p].(active := true)];
    var logs' := s.logs[s.version := Log(p, [], [])];
    forall q | 0 <= q < |s.places|
      ensures PageInv(s.conf, places'[q], q, fills'[q], s.disk[q], s.wbufs, logs')
    {
      assert PageInv(s.conf, s.places[q], q, s.fills[q], s.disk[q], s.wbufs, s.logs);
    }
  }

  lemma TakenReaders(s: Engine, p: nat, place: Place, f: Fill)
    requires PinsOk(s.threads, s.places, s.fills)
    requires p < |s.places| == |s.fills| && s.places[p].free
    ensures PinsOk(s.threads, s.places[p := place], s.fills[p := f])
  {
    forall t | 0 <= t < |s.threads|
      ensures PinOk(s.threads[t], s.places[p := place], s.fills[p := f])
    {
      assert PinOk(s.threads[t], s.places, s.fills);
    }
  }

  /** A page that changes hands takes a version no completed read asked for. */
  lemma MovedResults(results: seq<Completed>, logs: map<nat, Log>, places: seq<Place>, closed: seq<bool>,
                     p: nat, place: Place, shut: bool)
    requires ResultsInv(results, logs, places, closed) && p < |places| == |closed|
    requires place.version !in logs
    ensures ResultsInv(results, logs, places[p := place], closed[p := shut])
  {
    forall i | 0 <= i < |results|
      ensures ResultOk(results[i], logs, places[p := place], closed[p := shut])
    {
      assert ResultOk(results[i], logs, places, closed);
    }
  }

  /** Changing a page's flags leaves the buffers where they are. */
  lemma SameBuffers(s: Engine, p: nat, f: Fill)
    requires WbufInv(s.conf, s.fills, s.wbufStack) && WritesInv(s.threads, s.fills, s.wbufs)
    requires p < |s.fills| && f.wbuf == s.fills[p].wbuf
    ensures WbufInv(s.conf, s.fills[p := f], s.wbufStack) && WritesInv(s.threads, s.fills[p := f], s.wbufs)
  {
    SumUpdate(s.fills, p, f, HoldsWbuf());
    forall io: Io | io.Write?
      ensures Shipped(s.fills[p := f], s.wbufs, io) == Shipped(s.fills, s.wbufs, io)
    {
    }
  }

  lemma TakenWriters(s: Engine, b: nat, p: nat)
    requires WritersInv(s.conf, s.writers, s.buckets, s.fills) && b < |s.writers| && s.writers[b].Idle?
    requires AllFull(s.conf, s.fills, s.buckets[b])
    ensures WritersInv(s.conf, s.writers, s.buckets[b := [p] + s.buckets[b]], s.fills)
  {
    var buckets' := s.buckets[b := [p] + s.buckets[b]];
    assert buckets'[b][1..] == s.buckets[b];
    forall c | 0 <= c < |s.writers|
      ensures WriterOk(s.conf, s.writers[c], buckets'[c], s.fills)
    {
      assert WriterOk(s.conf, s.writers[c], s.buckets[c], s.fills);
    }
  }

  lemma FreshVersion(s: Engine)
    requires ConfOk(s.conf) && LogsInv(s.conf, s.logs, s.version) && 0 < s.conf.pageCount
    ensures s.version !in s.logs && 0 !in s.logs
    ensures forall p :: 0 <= p < s.conf.pageCount && 0 < s.version ==>
      LogsInv(s.conf, s.logs[s.version := Log(p, [], [])], s.version + 1)
  {
  }

  lemma TakePage(s: Engine, b: nat, l: nat)
    requires Inv(s) && b < s.conf.pageBuckets && l < s.conf.pageBuckets && s.freeLists[l] != []
    requires s.writers[b].Idle? && AllFull(s.conf, s.fills, s.buckets[b])
    ensures 0 < s.pageFree
    ensures var p := s.freeLists[l][0];
      Inv(s.(
        freeLists := s.freeLists[l := s.freeLists[l][1..]],
        buckets := s.buckets[b := [p] + s.buckets[b]],
        fills := s.fills[p := s.fills[p].(active := true)],
        places := s.places[p := s.places[p].(free := false, version := s.version, bucket := b)],
        closed := s.closed[p := false],
        version := s.version + 1,
        pageFree := s.pageFree - 1,
        logs := s.logs[s.version := Log(p, [], [])]))
  {
    hide FreeListsInv, BucketsInv, VersionsInv, LogsInv, IoStackInv, PinsOk, ReadsInv,
      RefsInv, StatsInv, WritersInv, ResultsInv, DepthInv, PagesInv, FlushesInv, WritesInv,
      WbufInv, ThreadsShape, LogOk, AllFull;
    var p := s.freeLists[l][0];
    var place, f := s.places[p].(free := false, version := s.version, bucket := b), s.fills[p].(active := true);
    PageAvailable(s.places, s.freeLists, s.pageFree, l);
    TakenFreeLists(s.places, s.freeLists, s.pageFree, l, place);
    TakenBuckets(s.places, s.buckets, s.version, p, place);
    TakenVersions(s.places, s.version, p, place);
    TakenPages(s, p, b);
    FreshVersion(s);
    SameBuffers(s, p, f);
    TakenReaders(s, p, place, f);
    ReadsGrow(s.conf, s.threads, s.logs, s.version, Log(p, [], []));
    MovedResults(s.results, s.logs, s.places, s.closed, p, place, false);
    ResultsGrow(s.results, s.logs, s.places[p := place], s.closed[p := false], s.version, Log(p, [], []));
    TakenWriters(s, b, p);
    WritersFrame(s.conf, s.writers, s.buckets[b := [p] + s.buckets[b]], s.fills, p, f);
    IssuedPositive(s);
  }

  lemma IssuedPositive(s: Engine)
    requires VersionsInv(s.places, s.version)
    ensures 0 < s.version
  {
  }

  lemma AllocatePageKeeps(s: Engine, b: nat, fb: nat)
    requires Inv(s) && b < s.conf.pageBuckets && fb < s.conf.pageBuckets
    requires s.writers[b].Idle? && AllFull(s.conf, s.fills, s.buckets[b])
    ensures Inv(AllocatePage(s, b, fb))
  {
    hide Inv;
    InvShape(s);
    var l := if fb != 0 && s.freeLists[fb] != [] then fb else 0;
    if s.freeLists[l] != [] {
      TakePage(s, b, l);
    }
  }

  lemma InvShape(s: Engine)
    requires Inv(s)
    ensures Shape(s)
  {
  }

  // ---------------------------------------------------------------- _free_page

  lemma FreedFreeLists(places: seq<Place>, freeLists: seq<seq<nat>>, pageFree: int, p: nat, place: Place)
    requires FreeListsInv(places, freeLists, pageFree) && p < |places| && !places[p].free
    requires place.free && place.freeBucket < |freeLists|
    ensures FreeListsInv(places[p := place], freeLists[place.freeBucket := [p] + freeLists[place.freeBucket]],
      pageFree + 1)
  {
    var fb := place.freeBucket;
    var list' := [p] + freeLists[fb];
    var freeLists' := freeLists[fb := list'];
    var places' := places[p := place];
    SumUpdate(freeLists, fb, list', Length());
    assert p !in freeLists[fb];
    NoDupCons(p, freeLists[fb]);
    forall f, k | 0 <= f < |freeLists'| && 0 <= k < |freeLists'[f]|
      ensures var q := freeLists'[f][k]; 0 < q < |places'| && places'[q].free && places'[q].freeBucket == f
    {
      if f == fb && k > 0 {
        assert list'[k] == freeLists[fb][k - 1];
      }
    }
    forall q | 1 <= q < |places'| && places'[q].free
      ensures places'[q].freeBucket < |freeLists'| && q in freeLists'[places'[q].freeBucket]
    {
      if q == p {
        assert list'[0] == p;
      }
    }
  }

  /** Cutting a page out of its bucket list keeps the others, in order. */
  lemma FreedBucket(places: seq<Place>, list: seq<nat>, b: nat, p: nat, place: Place)
    requires BucketOk(places, list, b) && p in list
    ensures BucketOk(places[p := place], Without<nat>(list, p), b)
    ensures forall q :: q in Without<nat>(list, p) <==> q in list && q != p
  {
    hide BucketOk, NoDup;
    BucketNoDup(places, list, b);
    WithoutFacts(list, p);
    var at :| 0 <= at < |list| && list[at] == p;
    WithoutAt(list, at);
    CutBucket(places, list, b, at);
    BucketElsewhere(places, Without<nat>(list, p), b, p, place);
  }

  lemma BucketElsewhere(places: seq<Place>, list: seq<nat>, b: nat, p: nat, place: Place)
    requires BucketOk(places, list, b) && p < |places| && p !in list
    ensures BucketOk(places[p := place], list, b)
  {
  }

  lemma CutBucket(places: seq<Place>, list: seq<nat>, b: nat, at: nat)
    requires BucketOk(places, list, b) && at < |list|
    ensures BucketOk(places, list[..at] + list[at + 1..], b) && list[at] < |places|
  {
    var rest := list[..at] + list[at + 1..];
    assert forall k :: 0 <= k < |rest| ==> rest[k] == list[if k < at then k else k + 1];
  }

  lemma BucketNoDup(places: seq<Place>, list: seq<nat>, b: nat)
    requires BucketOk(places, list, b)
    ensures NoDup(list)
  {
    assert forall i, j :: 0 <= i < j < |list| ==> places[list[i]].version != places[list[j]].version;
  }

  lemma FreedBuckets(places: seq<Place>, buckets: seq<seq<nat>>, p: nat, place: Place)
    requires BucketsInv(places, buckets) && p < |places| && !places[p].free && place.free
    requires places[p].bucket < |buckets|
    ensures BucketsInv(places[p := place], buckets[places[p].bucket := Without<nat>(buckets[places[p].bucket], p)])
  {
    hide BucketOk;
    var b := places[p].bucket;
    var buckets', places' := buckets[b := Without<nat>(buckets[b], p)], places[p := place];
    FreedBucket(places, buckets[b], b, p, place);
    forall c | 0 <= c < |buckets'|
      ensures BucketOk(places', buckets'[c], c)
    {
      if c != b {
        BucketFrame(places, buckets[c], c, p, place);
      }
    }
  }

  lemma FreedPages(s: Engine, p: nat)
    requires Inv(s) && p < s.conf.pageCount && Settled(s, p)
    ensures s.fills[p] == Fill(s.conf.pageSize, s.conf.pageSize, false, None)
    ensures PagesInv(s.conf, s.places[p := Place(true, 0, s.places[p].freeBucket, 0)],
                     s.fills[p := Fill(0, 0, false, None)], s.disk, s.wbufs, s.logs)
  {
    hide FreeListsInv, BucketsInv, VersionsInv, LogsInv, IoStackInv, PinsOk, ReadsInv,
      RefsInv, StatsInv, WritersInv, ResultsInv, DepthInv, FlushesInv, WritesInv, WbufInv, ThreadsShape, IdleInv,
      MaintInv;
    var places' := s.places[p := Place(true, 0, s.places[p].freeBucket, 0)];
    var fills' := s.fills[p := Fill(0, 0, false, None)];
    forall q | 0 <= q < |s.places|
      ensures PageInv(s.conf, places'[q], q, fills'[q], s.disk[q], s.wbufs, s.logs)
      ensures q == p ==> s.fills[p] == Fill(s.conf.pageSize, s.conf.pageSize, false, None)
    {
      assert PageInv(s.conf, s.places[q], q, s.fills[q], s.disk[q], s.wbufs, s.logs);
    }
  }

  lemma FreedReaders(s: Engine, p: nat, place: Place, f: Fill)
    requires PinsOk(s.threads, s.places, s.fills) && RefsInv(s.threads, s.refs)
    requires p < |s.places| == |s.fills| == |s.refs| && s.refs[p] == 0
    ensures PinsOk(s.threads, s.places[p := place], s.fills[p := f])
  {
    forall t | 0 <= t < |s.threads|
      ensures PinOk(s.threads[t], s.places[p := place], s.fills[p := f])
    {
      assert PinOk(s.threads[t], s.places, s.fills);
      Unpinned(s.threads, s.refs, p, t);
    }
  }

  lemma FreedWriter(c: Conf, w: Writer, list: seq<nat>, fills: seq<Fill>, p: nat, f: Fill)
    requires WriterOk(c, w, list, fills) && p < |fills| && NoDup(list)
    ensures WriterOk(c, w, Without<nat>(list, p), fills[p := f])
  {
    if list != [] {
      WithoutFacts(list, p);
      WithoutFacts(list[1..], p);
      if list[0] != p {
        assert Without<nat>(list, p)[1..] == Without<nat>(list[1..], p);
      }
      AllFullWithout(c, fills, p, f, list);
      AllFullWithout(c, fills, p, f, list[1..]);
    }
  }

  lemma AllFullWithout(c: Conf, fills: seq<Fill>, p: nat, f: Fill, list: seq<nat>)
    requires p < |fills| && NoDup(list)
    ensures AllFull(c, fills, list) ==> AllFull(c, fills[p := f], Without<nat>(list, p))
  {
    WithoutFacts(list, p);
    var list' := Without<nat>(list, p);
    if AllFull(c, fills, list) {
      forall k | 0 <= k < |list'|
        ensures list'[k] < |fills| && fills[p := f][list'[k]].reserved == c.pageSize
      {
        assert list'[k] in list;
      }
    }
  }

  lemma FreedWriters(s: Engine, p: nat, f: Fill)
    requires WritersInv(s.conf, s.writers, s.buckets, s.fills) && BucketsInv(s.places, s.buckets)
    requires p < |s.places| == |s.fills| && s.places[p].bucket < |s.buckets|
    ensures WritersInv(s.conf, s.writers,
                       s.buckets[s.places[p].bucket := Without<nat>(s.buckets[s.places[p].bucket], p)], s.fills[p := f])
  {
    hide WriterOk;
    var b := s.places[p].bucket;
    forall c | 0 <= c < |s.writers|
      ensures WriterOk(s.conf, s.writers[c], if c == b then Without<nat>(s.buckets[b], p) else s.buckets[c],
        s.fills[p := f])
    {
      assert BucketOk(s.places, s.buckets[c], c);
      BucketNoDup(s.places, s.buckets[c], c);
      FreedWriter(s.conf, s.writers[c], s.buckets[c], s.fills, p, f);
      if c != b {
        WithoutAbsent(s.buckets[c], p);
      }
    }
  }

  lemma FreedVersions(places: seq<Place>, version: nat, p: nat, place: Place)
    requires VersionsInv(places, version) && p < |places| && place.free && place.version == 0
    ensures VersionsInv(places[p := place], version)
  {
  }

  lemma FreedShape(c: Conf, buckets: seq<seq<nat>>, freeLists: seq<seq<nat>>, b: nat, fb: nat, p: nat)
    requires ListShape(c, buckets) && ListShape(c, freeLists)
    requires b < c.pageBuckets && fb < c.pageBuckets && p < c.pageCount
    ensures ListShape(c, buckets[b := Without<nat>(buckets[b], p)])
    ensures ListShape(c, freeLists[fb := [p] + freeLists[fb]])
  {
    WithoutSubset(buckets[b], p);
    var list' := Without<nat>(buckets[b], p);
    forall k | 0 <= k < |list'|
      ensures list'[k] < c.pageCount
    {
      assert list'[k] in buckets[b];
    }
  }

  lemma BucketCount(s: Engine)
    requires Shape(s)
    ensures |s.buckets| == |s.freeLists| == s.conf.pageBuckets
  {
  }

  lemma FreePageKeeps(s: Engine, p: nat)
    requires Inv(s) && p < s.conf.pageCount && Settled(s, p) && s.refs[p] == 0
    requires s.maint.Scanning? && s.maint.low.Some? ==> s.maint.low.value.page != p
    ensures Inv(FreePage(s, p))
  {
    hide FreeListsInv, BucketsInv, VersionsInv, LogsInv, IoStackInv, PinsOk, ReadsInv,
      RefsInv, WritersInv, ResultsInv, DepthInv, PagesInv, FlushesInv, WritesInv, WbufInv,
      ThreadsShape, ListShape;
    var s' := FreePage(s, p);
    FreedPages(s, p);
    BucketCount(s);
    FreedShape(s.conf, s.buckets, s.freeLists, s.places[p].bucket, s.places[p].freeBucket, p);
    FreedFreeLists(s.places, s.freeLists, s.pageFree, p, s'.places[p]);
    FreedBuckets(s.places, s.buckets, p, s'.places[p]);
    FreedVersions(s.places, s.version, p, s'.places[p]);
    SameBuffers(s, p, s'.fills[p]);
    FreedReaders(s, p, s'.places[p], s'.fills[p]);
    FreedWriters(s, p, s'.fills[p]);
    FreshVersion(s);
    MovedResults(s.results, s.logs, s.places, s.closed, p, s'.places[p], false);
    SumUpdate(s.counts, p, s'.counts[p], Objects());
    SumUpdate(s.counts, p, s'.counts[p], Bytes());
  }
}
