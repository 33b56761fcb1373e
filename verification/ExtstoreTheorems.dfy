/** What the page engine promises, over every run. */
module ExtstoreTheorems {
  import opened Octets
  import opened Sums
  import opened ExtstoreModel
  import opened ExtstoreInvariant
  import opened ExtstorePageProof
  import opened ExtstoreRuns

  // ---------------------------------------------------------------- what is stored stays stored

  ghost predicate LogsExtend(logs: map<nat, Log>, logs': map<nat, Log>) {
    forall v :: v in logs ==>
      v in logs' && logs'[v].page == logs[v].page && logs[v].bytes <= logs'[v].bytes && logs[v].objs <= logs'[v].objs
  }

  lemma AllocateExtendsLogs(s: Engine, b: nat, fb: nat)
    requires Shape(s) && b < s.conf.pageBuckets && fb < s.conf.pageBuckets && s.version !in s.logs
    ensures LogsExtend(s.logs, AllocatePage(s, b, fb).logs)
  {
    hide Shape;
  }

  lemma FillExtendsLogs(s: Engine, p: nat, data: seq<byte>, t: nat)
    requires Shape(s) && p < s.conf.pageCount && t < |s.threads| && FillDefined(s, p, |data|, t)
    ensures LogsExtend(s.logs, FillPage(s, p, data, t).logs)
  {
    hide Shape, PageFull;
    var s1 := FlushIfShort(s, p, |data|, t);
    assert LogsExtend(s.logs, s1.logs);
    var s2 := WbufIfNone(s1, p);
    assert s2.logs == s1.logs;
    assert LogsExtend(s2.logs, AppendIfRoom(s2, p, data).logs);
  }

  lemma StepExtendsLogs(s: Engine, step: Step, s': Engine)
    requires Inv(s) && Follows(s, step, s')
    ensures LogsExtend(s.logs, s'.logs)
  {
    hide Inv, RowShape, FillShape, DiskShape, WbufShape, StackShape, ListShape, ThreadsShape, MaintShape,
      AllocatePage, FillPage, FillDefined, PageFull, Readable, InWbuf, WbufReadSafe, Drained, Noted, HeadFull;
    NewVersion(s);
    match step
    case DoPick(b, fb, data) => AllocateExtendsLogs(s, b, fb);
    case DoNewPage(b) =>
      IdleKeeps(s, b);
      InvShape(s.(writers := s.writers[b := Idle]));
      AllocateExtendsLogs(s.(writers := s.writers[b := Idle]), b, s.writers[b].freeBucket);
    case DoFill(b, t) =>
      if !PageFull(s, s.writers[b].page) {
        FillExtendsLogs(s, s.writers[b].page, s.writers[b].data, t);
      }
    case _ =>
  }

  lemma NewVersion(s: Engine)
    requires Inv(s)
    ensures s.version !in s.logs
  {
    hide FreeListsInv, BucketsInv, VersionsInv, IoStackInv, PinsOk, ReadsInv, WritersInv, IdleInv, StatsInv, RefsInv,
      ResultsInv, DepthInv, PagesInv, FlushesInv, WritesInv, WbufInv, MaintInv;
  }

  lemma {:induction false} RunExtendsLogs(states: seq<Engine>, steps: seq<Step>, fbs: seq<nat>, i: nat, j: nat)
    requires IsRun(states, steps, fbs) && i <= j <= |steps|
    ensures LogsExtend(states[i].logs, states[j].logs)
  {
    hide Inv, Follows, Init;
    if i < j {
      RunExtendsLogs(states, steps, fbs, i, j - 1);
      RunIsGood(states, steps, fbs, j - 1);
      StepExtendsLogs(states[j - 1], steps[j - 1], states[j]);
    }
  }

  lemma LogOf(s: Engine, v: nat)
    requires Inv(s) && v in s.logs
    ensures ConfOk(s.conf) && LogOk(s.conf, s.logs[v])
  {
    hide FreeListsInv, BucketsInv, VersionsInv, IoStackInv, PinsOk, ReadsInv, WritersInv, IdleInv, StatsInv, RefsInv,
      ResultsInv, DepthInv, PagesInv, FlushesInv, WritesInv, WbufInv, MaintInv;
  }

  lemma ResultOf(s: Engine, r: Completed)
    requires Inv(s) && r in s.results
    ensures Shape(s) && ResultOk(r, s.logs, s.places, s.closed)
  {
    hide FreeListsInv, BucketsInv, VersionsInv, IoStackInv, PinsOk, ReadsInv, WritersInv, IdleInv, StatsInv, RefsInv,
      LogsInv, DepthInv, PagesInv, FlushesInv, WritesInv, WbufInv, MaintInv;
  }

  /** An object stored at any point of a run is what every later read of it returns; a read that
      misses does so because that page version is closed or gone. */
  lemma StoredObjectsReadBack(states: seq<Engine>, steps: seq<Step>, fbs: seq<nat>, i: nat, j: nat, v: nat, k: nat,
      r: Completed)
    requires IsRun(states, steps, fbs) && i <= j <= |steps|
    requires v in states[i].logs && k < |states[i].logs[v].objs|
    requires r in states[j].results && r.io.Read? && r.io.version == v
    ensures var o := states[i].logs[v].objs[k];
      r.io.offset == o.offset && r.io.len == |o.data| && r.Data? ==> r.data == o.data
    ensures r.Miss? ==>
      && r.io.page < |states[j].places| && r.io.page < |states[j].closed|
      && (states[j].places[r.io.page].version == v ==> states[j].closed[r.io.page])
  {
    hide Follows, Init, Inv, Shape;
    RunIsGood(states, steps, fbs, j);
    RunExtendsLogs(states, steps, fbs, i, j);
    LogOf(states[j], v);
    ResultOf(states[j], r);
    assert states[i].logs[v].objs[k] == states[j].logs[v].objs[k];
  }

  /** The objects of one version never overlap and stay inside the page. */
  lemma ObjectsDisjoint(states: seq<Engine>, steps: seq<Step>, fbs: seq<nat>, i: nat, v: nat, a: nat, b: nat)
    requires IsRun(states, steps, fbs) && i <= |steps|
    requires v in states[i].logs && a < b < |states[i].logs[v].objs|
    ensures var objs := states[i].logs[v].objs;
      objs[a].offset + |objs[a].data| <= objs[b].offset <= objs[b].offset + |objs[b].data| <= states[i].conf.pageSize
  {
    hide Follows, Init, Inv, InBlock;
    RunIsGood(states, steps, fbs, i);
    LogOf(states[i], v);
  }

  lemma AllocateMoves(s: Engine, b: nat, fb: nat, p: nat)
    requires Inv(s) && b < s.conf.pageBuckets && fb < s.conf.pageBuckets && p < s.conf.pageCount && !s.places[p].free
    ensures var s' := AllocatePage(s, b, fb); p < |s'.places| && s'.places[p] == s.places[p]
  {
    hide FreeListsInv, BucketsInv, VersionsInv, IoStackInv, PinsOk, ReadsInv, WritersInv, StatsInv, RefsInv,
      ResultsInv, LogsInv, DepthInv, PagesInv, FlushesInv, WritesInv, WbufInv, MaintInv, IdleInv;
    FreeHeads(s);
  }

  lemma ReadPageIsLive(s: Engine, p: nat)
    requires Inv(s) && p < s.conf.pageCount && 0 < s.refs[p]
    ensures Shape(s) && !s.places[p].free
  {
    hide FreeListsInv, BucketsInv, VersionsInv, IoStackInv, PinsOk, ReadsInv, WritersInv, StatsInv, RefsInv,
      ResultsInv, LogsInv, DepthInv, PagesInv, FlushesInv, WritesInv, WbufInv, MaintInv;
  }

  /** A page that is being read keeps its version: it is neither freed nor handed out. */
  lemma ReadPagesStay(s: Engine, step: Step, s': Engine, p: nat)
    requires Inv(s) && Follows(s, step, s') && p < s.conf.pageCount && 0 < s.refs[p]
    ensures p < |s'.places| && s'.places[p] == s.places[p] && !s.places[p].free
  {
    hide Inv, AllocatePage, FillPage, FillDefined, PageFull, Readable, InWbuf, WbufReadSafe, Noted, HeadFull;
    ReadPageIsLive(s, p);
    match step
    case DoPick(b, fb, data) => AllocateMoves(s, b, fb, p);
    case DoNewPage(b) =>
      IdleKeeps(s, b);
      AllocateMoves(s.(writers := s.writers[b := Idle]), b, s.writers[b].freeBucket, p);
    case DoFill(b, t) =>
      if !PageFull(s, s.writers[b].page) {
        FillConf(s, s.writers[b].page, s.writers[b].data, t);
      }
    case _ =>
  }

  lemma FreeHeads(s: Engine)
    requires Inv(s)
    ensures forall l :: 0 <= l < s.conf.pageBuckets && s.freeLists[l] != [] ==> s.places[s.freeLists[l][0]].free
  {
    hide BucketsInv, VersionsInv, IoStackInv, PinsOk, ReadsInv, WritersInv, StatsInv, RefsInv, IdleInv,
      ResultsInv, LogsInv, DepthInv, PagesInv, FlushesInv, WritesInv, WbufInv, MaintInv;
  }

  // ---------------------------------------------------------------- the page lists are a partition

  ghost function Times(p: nat): seq<nat> -> int { (l: seq<nat>) => multiset(l)[p] }

  /** Exactly one list holds p, once. */
  lemma {:induction false} OnlyList(lists: seq<seq<nat>>, at: nat, p: nat)
    requires at < |lists| && p in lists[at] && NoDup(lists[at])
    requires forall i :: 0 <= i < |lists| && i != at ==> p !in lists[i]
    ensures Sum(lists, Times(p)) == 1
  {
    NoDupOnce(lists[at], p);
    var none := lists[at := []];
    SumZero(none, Times(p));
    SumUpdate(none, at, lists[at], Times(p));
    assert none[at := lists[at]] == lists;
  }

  lemma {:induction false} NoDupOnce(l: seq<nat>, p: nat)
    requires p in l && NoDup(l)
    ensures multiset(l)[p] == 1
  {
    var k :| 0 <= k < |l| && l[k] == p;
    assert l == l[..k] + [p] + l[k + 1..];
    assert p !in l[..k] && p !in l[k + 1..];
  }

  lemma ListsOf(s: Engine)
    requires Inv(s)
    ensures Shape(s) && FreeListsInv(s.places, s.freeLists, s.pageFree) && BucketsInv(s.places, s.buckets)
  {
    hide BucketsInv, FreeListsInv, VersionsInv, IoStackInv, PinsOk, ReadsInv, WritersInv, StatsInv, RefsInv, IdleInv,
      ResultsInv, LogsInv, DepthInv, PagesInv, FlushesInv, WritesInv, WbufInv, MaintInv;
  }

  lemma FreeOnce(s: Engine, p: nat)
    requires Shape(s) && FreeListsInv(s.places, s.freeLists, s.pageFree) && p < s.conf.pageCount
    ensures Sum(s.freeLists, Times(p)) == if p != 0 && s.places[p].free then 1 else 0
  {
    if p != 0 && s.places[p].free {
      OnlyList(s.freeLists, s.places[p].freeBucket, p);
    } else {
      SumZero(s.freeLists, Times(p));
    }
  }

  lemma BucketOnce(s: Engine, p: nat)
    requires Shape(s) && BucketsInv(s.places, s.buckets) && p < s.conf.pageCount
    ensures Sum(s.buckets, Times(p)) == if s.places[p].free then 0 else 1
  {
    forall b | 0 <= b < |s.buckets|
      ensures NoDup(s.buckets[b])
      ensures p in s.buckets[b] ==> !s.places[p].free && s.places[p].bucket == b
    {
      assert BucketOk(s.places, s.buckets[b], b);
      BucketNoDup(s.places, s.buckets[b], b);
    }
    if s.places[p].free {
      SumZero(s.buckets, Times(p));
    } else {
      OnlyList(s.buckets, s.places[p].bucket, p);
    }
  }

  /** In every run each page but page 0 is on exactly one list, once, and page 0 is on none;
      page_free counts the free ones. */
  lemma EveryPageListedOnce(states: seq<Engine>, steps: seq<Step>, fbs: seq<nat>, i: nat, p: nat)
    requires IsRun(states, steps, fbs) && i <= |steps| && p < states[i].conf.pageCount
    ensures Sum(states[i].freeLists, Times(p)) + Sum(states[i].buckets, Times(p)) == if p == 0 then 0 else 1
    ensures states[i].pageFree == Sum(states[i].freeLists, Length())
  {
    hide Follows, Init, Inv, Shape, BucketsInv;
    var s := states[i];
    RunIsGood(states, steps, fbs, i);
    ListsOf(s);
    FreeOnce(s, p);
    BucketOnce(s, p);
    PageZero(s);
  }

  lemma PageZero(s: Engine)
    requires Shape(s) && FreeListsInv(s.places, s.freeLists, s.pageFree) && 0 < s.conf.pageCount
    ensures s.places[0].free
  {
  }

  // ---------------------------------------------------------------- accounting

  /** A delete of more objects than its page still counts: the page's counter stops at zero, the
      global one does not. */
  ghost predicate OverObjects(s: Engine, step: Step) {
    && step.DoDelete? && step.p < |s.closed| && step.p < |s.places| && step.p < |s.counts|
    && !s.closed[step.p] && s.places[step.p].version == step.v && s.counts[step.p].objects < step.count
  }

  /** The same for bytes. */
  ghost predicate OverBytes(s: Engine, step: Step) {
    && step.DoDelete? && step.p < |s.closed| && step.p < |s.places| && step.p < |s.counts|
    && !s.closed[step.p] && s.places[step.p].version == step.v && s.counts[step.p].bytes < step.bytes
  }

  /** The drift only accumulates, and grows in exactly the deletes that go over. */
  lemma ExcessGrows(s: Engine, step: Step, s': Engine)
    requires Follows(s, step, s')
    ensures s.excessObjects <= s'.excessObjects && s.excessBytes <= s'.excessBytes
    ensures s'.excessObjects == s.excessObjects <==> !OverObjects(s, step)
    ensures s'.excessBytes == s.excessBytes <==> !OverBytes(s, step)
  {
    hide FillPage, FillDefined, PageFull, Readable, InWbuf, WbufReadSafe, Noted, HeadFull, FreeCounted;
    if step.DoFill? && !PageFull(s, s.writers[step.b].page) {
      FillConf(s, s.writers[step.b].page, s.writers[step.b].data, step.t);
    }
  }

  lemma {:induction false} ExcessOf(states: seq<Engine>, steps: seq<Step>, fbs: seq<nat>, i: nat)
    requires IsRun(states, steps, fbs) && i <= |steps|
    ensures states[i].excessObjects >= 0 && states[i].excessBytes >= 0
    ensures states[i].excessObjects == 0 <==> forall k :: 0 <= k < i ==> !OverObjects(states[k], steps[k])
    ensures states[i].excessBytes == 0 <==> forall k :: 0 <= k < i ==> !OverBytes(states[k], steps[k])
  {
    hide Follows, OverObjects, OverBytes;
    if i > 0 {
      ExcessOf(states, steps, fbs, i - 1);
      ExcessGrows(states[i - 1], steps[i - 1], states[i]);
    }
  }

  lemma StatsOf(s: Engine)
    requires Inv(s)
    ensures StatsInv(s.counts, s.objectsUsed, s.bytesUsed, s.excessObjects, s.excessBytes)
  {
    hide FreeListsInv, BucketsInv, VersionsInv, IoStackInv, PinsOk, ReadsInv, WritersInv, IdleInv, RefsInv,
      ResultsInv, LogsInv, DepthInv, PagesInv, FlushesInv, WritesInv, WbufInv, MaintInv, Shape, StatsInv;
  }

  /** At any point of a run the global object count is the sum over the pages exactly when no delete
      so far went over what its page still counted; the same holds for bytes. */
  lemma CountsAgree(states: seq<Engine>, steps: seq<Step>, fbs: seq<nat>, i: nat)
    requires IsRun(states, steps, fbs) && i <= |steps|
    ensures states[i].objectsUsed == Sum(states[i].counts, Objects())
      <==> forall k :: 0 <= k < i ==> !OverObjects(states[k], steps[k])
    ensures states[i].bytesUsed == Sum(states[i].counts, Bytes())
      <==> forall k :: 0 <= k < i ==> !OverBytes(states[k], steps[k])
  {
    hide Follows, Init, Inv, OverObjects, OverBytes;
    RunIsGood(states, steps, fbs, i);
    StatsOf(states[i]);
    ExcessOf(states, steps, fbs, i);
  }
}
