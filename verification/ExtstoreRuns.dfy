/** Runs of the page engine: any interleaving of writers, IO threads, clients and maintenance. */
module ExtstoreRuns {
  import opened Octets
  import opened Sums
  import opened ExtstoreModel
  import opened ExtstoreInvariant
  import opened ExtstoreProof
  import opened ExtstoreWriteProof
  import opened ExtstorePageProof

  datatype Step =
    | DoPick(b: nat, fb: nat, data: seq<byte>)
    | DoFill(b: nat, t: nat)
    | DoNewPage(b: nat)
    | DoDelete(p: nat, v: nat, count: nat, bytes: nat)
    | DoClose(p: nat, v: nat)
    | DoSubmit(t: nat, ios: seq<Io>)
    | DoTakeBatch(t: nat)
    | DoReadCheck(t: nat)
    | DoPread(t: nat)
    | DoRelease(t: nat)
    | DoPwrite(t: nat)
    | DoWbufDone(t: nat)
    | DoMaintStart
    | DoMaintScan
    | DoMaintEvict

  // ---------------------------------------------------------------- the section under the page lock of a write

  ghost function FlushIfShort(s: Engine, p: nat, len: nat, t: nat): Engine
    requires Shape(s) && p < s.conf.pageCount && t < |s.threads| && s.places[p].version in s.logs
  {
    if WbufShort(s, p, len) then SubmitWbuf(s, p, t) else s
  }

  ghost function WbufIfNone(s: Engine, p: nat): Engine
    requires Shape(s) && p < s.conf.pageCount
  {
    if WantsWbuf(s, p) then AllocateWbuf(s, p) else s
  }

  ghost function AppendIfRoom(s: Engine, p: nat, data: seq<byte>): Engine
    requires Shape(s) && p < s.conf.pageCount && s.places[p].version in s.logs
  {
    if HasRoom(s, p, |data|) then Append(s, p, data) else s
  }

  /** The code's assumptions along the way: a known page, and an IO to submit the buffer with. */
  ghost predicate FillDefined(s: Engine, p: nat, len: nat, t: nat)
    requires Shape(s) && p < s.conf.pageCount && t < |s.threads|
  {
    && s.places[p].version in s.logs
    && (WbufShort(s, p, len) ==> 0 < s.ioStack)
    && var s1 := FlushIfShort(s, p, len, t);
       && Shape(s1) && s1.conf == s.conf
       && var s2 := WbufIfNone(s1, p);
          && Shape(s2) && s2.conf == s.conf && s2.places[p].version in s2.logs
  }

  ghost function FillPage(s: Engine, p: nat, data: seq<byte>, t: nat): Engine
    requires Shape(s) && p < s.conf.pageCount && t < |s.threads| && FillDefined(s, p, |data|, t)
  {
    AppendIfRoom(WbufIfNone(FlushIfShort(s, p, |data|, t), p), p, data)
  }

  // ---------------------------------------------------------------- steps

  /** When a thread can take the step. */
  ghost predicate Enabled(s: Engine, step: Step)
    requires Shape(s)
  {
    match step
    case DoPick(b, fb, _) => b < s.conf.pageBuckets && fb < s.conf.pageBuckets && s.writers[b].Idle?
    case DoFill(b, t) => b < s.conf.pageBuckets && s.writers[b].Picked? && t < |s.threads|
    case DoNewPage(b) => b < s.conf.pageBuckets && s.writers[b].NeedPage?
    case DoDelete(p, _, _, _) => p < s.conf.pageCount
    case DoClose(p, _) => p < s.conf.pageCount
    case DoSubmit(t, ios) => t < |s.threads| && forall k :: 0 <= k < |ios| ==> ReadValid(s.conf, s.logs, ios[k])
    case DoTakeBatch(t) => t < |s.threads| && s.threads[t].batch == [] && s.threads[t].queue != []
    case DoReadCheck(t) =>
      t < |s.threads| && s.threads[t].batch != [] && s.threads[t].batch[0].Read? && s.threads[t].phase.Start?
    case DoPread(t) => t < |s.threads| && s.threads[t].phase.Pinned?
    case DoRelease(t) => t < |s.threads| && s.threads[t].phase.Got?
    case DoPwrite(t) =>
      t < |s.threads| && s.threads[t].batch != [] && s.threads[t].batch[0].Write? && s.threads[t].phase.Start?
    case DoWbufDone(t) => t < |s.threads| && s.threads[t].phase.Flushed?
    case DoMaintStart => s.maint.Sleeping?
    case DoMaintScan => s.maint.Scanning? && s.maint.i < s.conf.pageCount
    case DoMaintEvict => s.maint.Scanning? && s.maint.i == s.conf.pageCount
  }

  /** The asserts of _allocate_page: the bucket's newest page is used up, and a page on a special
      free list is counted as free. */
  ghost predicate HeadFull(s: Engine, b: nat)
    requires Shape(s) && b < s.conf.pageBuckets
  {
    s.buckets[b] == [] || s.fills[s.buckets[b][0]].reserved == s.conf.pageSize
  }

  ghost predicate FreeCounted(s: Engine, fb: nat)
    requires Shape(s) && fb < s.conf.pageBuckets
  {
    fb != 0 && s.freeLists[fb] != [] ==> s.pageFree > 0
  }

  /** The asserts of the code, and what it relies on without checking, at the step. */
  ghost predicate Defined(s: Engine, step: Step)
    requires Shape(s) && Enabled(s, step)
  {
    match step
    case DoPick(b, fb, _) => s.buckets[b] == [] ==> HeadFull(s, b) && FreeCounted(s, fb)
    case DoFill(b, t) =>
      PageFull(s, s.writers[b].page) || FillDefined(s, s.writers[b].page, |s.writers[b].data|, t)
    case DoNewPage(b) => HeadFull(s, b) && FreeCounted(s, s.writers[b].freeBucket)
    case DoReadCheck(t) =>
      var io := s.threads[t].batch[0]; Readable(s, io) && InWbuf(s, io) ==> WbufReadSafe(s, io)
    case DoPread(t) => s.threads[t].batch[0].offset + s.threads[t].batch[0].len <= s.conf.pageSize
    case DoRelease(t) => 0 < s.refs[s.threads[t].batch[0].page]
    case DoWbufDone(t) =>
      var io := s.threads[t].batch[0];
      s.fills[io.page].wbuf == Some(io.wbuf) && s.fills[io.page].written == s.wbufs[io.wbuf].offset
    case _ => true
  }

  ghost function Apply(s: Engine, step: Step): Engine
    requires Shape(s) && Enabled(s, step) && Defined(s, step)
  {
    match step
    case DoPick(b, fb, data) => Pick(s, b, fb, data)
    case DoFill(b, t) =>
      var w := s.writers[b];
      if PageFull(s, w.page) then s.(writers := s.writers[b := NeedPage(w.freeBucket)])
      else FillPage(s, w.page, w.data, t).(writers := s.writers[b := Idle])
    case DoNewPage(b) => AllocatePage(s.(writers := s.writers[b := Idle]), b, s.writers[b].freeBucket)
    case DoDelete(p, v, count, bytes) => Delete(s, p, v, count, bytes)
    case DoClose(p, v) => ClosePage(s, p, v)
    case DoSubmit(t, ios) => SubmitReads(s, t, ios)
    case DoTakeBatch(t) => TakeBatch(s, t)
    case DoReadCheck(t) => ReadCheck(s, t)
    case DoPread(t) => Pread(s, t)
    case DoRelease(t) => Release(s, t)
    case DoPwrite(t) => Pwrite(s, t)
    case DoWbufDone(t) => WbufDone(s, t)
    case DoMaintStart => s.(maint := Scanning(0, MustEvict(s), None, {}))
    case DoMaintScan => MaintScan(s)
    case DoMaintEvict => MaintEvict(s)
  }

  // ---------------------------------------------------------------- writers keep the invariant

  /** Moving a writer on. */
  lemma SetWriterKeeps(s: Engine, b: nat, w: Writer)
    requires Inv(s) && b < s.conf.pageBuckets && WriterOk(s.conf, w, s.buckets[b], s.fills)
    requires (w.Picked? ==> w.page < s.conf.pageCount) && (!w.Idle? ==> w.freeBucket < s.conf.pageBuckets)
    ensures Inv(s.(writers := s.writers[b := w]))
  {
    hide FreeListsInv, BucketsInv, VersionsInv, LogsInv, IoStackInv, PinsOk, ReadsInv, WriterOk, IdleInv, StatsInv,
      RefsInv, ResultsInv, DepthInv, PagesInv, FlushesInv, WritesInv, WbufInv, MaintInv, ThreadsShape, ListShape;
  }

  lemma WriterOf(s: Engine, b: nat)
    requires Inv(s) && b < s.conf.pageBuckets
    ensures |s.writers| == |s.buckets| == s.conf.pageBuckets
    ensures WriterOk(s.conf, s.writers[b], s.buckets[b], s.fills)
    ensures s.buckets[b] != [] ==> s.buckets[b][0] < s.conf.pageCount
  {
    hide FreeListsInv, BucketsInv, VersionsInv, LogsInv, IoStackInv, PinsOk, ReadsInv, WriterOk, IdleInv, StatsInv,
      RefsInv, ResultsInv, DepthInv, PagesInv, FlushesInv, WritesInv, WbufInv, MaintInv;
  }

  lemma PickKeeps(s: Engine, b: nat, fb: nat, data: seq<byte>)
    requires Inv(s) && b < s.conf.pageBuckets && fb < s.conf.pageBuckets && s.writers[b].Idle?
    ensures Inv(Pick(s, b, fb, data))
  {
    hide Inv;
    InvShape(s);
    WriterOf(s, b);
    var s' := if s.buckets[b] == [] then AllocatePage(s, b, fb) else s;
    if s.buckets[b] == [] {
      AllocatePageKeeps(s, b, fb);
    }
    InvShape(s');
    WriterOf(s', b);
    if s'.buckets[b] != [] {
      SetWriterKeeps(s', b, Picked(s'.buckets[b][0], fb, data));
    }
  }

  lemma IdleKeeps(s: Engine, b: nat)
    requires Inv(s) && b < s.conf.pageBuckets
    ensures b < |s.writers| && Inv(s.(writers := s.writers[b := Idle]))
  {
    hide Inv;
    InvShape(s);
    WriterOf(s, b);
    SetWriterKeeps(s, b, Idle);
  }

  lemma NewPageKeeps(s: Engine, b: nat)
    requires Inv(s) && b < s.conf.pageBuckets && s.writers[b].NeedPage?
    ensures HeadFull(s, b) && FreeCounted(s, s.writers[b].freeBucket)
    ensures Inv(AllocatePage(s.(writers := s.writers[b := Idle]), b, s.writers[b].freeBucket))
  {
    hide Inv;
    InvShape(s);
    WriterOf(s, b);
    IdleKeeps(s, b);
    FreeIsCounted(s, s.writers[b].freeBucket);
    AllocatePageKeeps(s.(writers := s.writers[b := Idle]), b, s.writers[b].freeBucket);
  }

  lemma FreeIsCounted(s: Engine, fb: nat)
    requires Inv(s) && fb < s.conf.pageBuckets
    ensures FreeCounted(s, fb)
  {
    hide BucketsInv, VersionsInv, LogsInv, IoStackInv, PinsOk, ReadsInv, WritersInv, IdleInv, StatsInv,
      RefsInv, ResultsInv, DepthInv, PagesInv, FlushesInv, WritesInv, WbufInv, MaintInv, FreeListsInv;
    if s.freeLists[fb] != [] {
      PageAvailable(s.places, s.freeLists, s.pageFree, fb);
    }
  }

  /** A writer that finds its page full may take another one: no page of its bucket has room. */
  lemma FullKeeps(s: Engine, b: nat)
    requires Inv(s) && b < s.conf.pageBuckets && s.writers[b].Picked? && PageFull(s, s.writers[b].page)
    ensures Inv(s.(writers := s.writers[b := NeedPage(s.writers[b].freeBucket)]))
  {
    hide Inv;
    InvShape(s);
    WriterOf(s, b);
    var p := s.writers[b].page;
    if s.buckets[b] != [] && s.buckets[b][0] == p {
      FullPage(s, b);
      assert s.buckets[b] == [p] + s.buckets[b][1..];
    }
    SetWriterKeeps(s, b, NeedPage(s.writers[b].freeBucket));
  }

  lemma FullPage(s: Engine, b: nat)
    requires Inv(s) && b < s.conf.pageBuckets && s.buckets[b] != [] && PageFull(s, s.buckets[b][0])
    ensures s.fills[s.buckets[b][0]].reserved == s.conf.pageSize
  {
    hide FreeListsInv, VersionsInv, LogsInv, IoStackInv, PinsOk, ReadsInv, WritersInv, IdleInv, StatsInv,
      RefsInv, ResultsInv, DepthInv, FlushesInv, WritesInv, WbufInv, MaintInv, ThreadsShape;
    var p := s.buckets[b][0];
    assert BucketOk(s.places, s.buckets[b], b);
    assert PageInv(s.conf, s.places[p], p, s.fills[p], s.disk[p], s.wbufs, s.logs);
  }

  lemma FillKeeps(s: Engine, p: nat, data: seq<byte>, t: nat)
    requires Inv(s) && p < s.conf.pageCount && t < |s.threads| && !PageFull(s, p)
    ensures FillDefined(s, p, |data|, t)
    ensures Inv(FillPage(s, p, data, t)) && FillPage(s, p, data, t).writers == s.writers
  {
    hide Inv;
    InvShape(s);
    OpenPage(s, p);
    if WbufShort(s, p, |data|) {
      SubmitWbufKeeps(s, p, t);
    }
    var s1 := FlushIfShort(s, p, |data|, t);
    InvShape(s1);
    if WantsWbuf(s1, p) {
      AllocateWbufKeeps(s1, p);
    }
    var s2 := WbufIfNone(s1, p);
    InvShape(s2);
    if HasRoom(s2, p, |data|) {
      AppendKeeps(s2, p, data);
    }
  }

  lemma FillStep(s: Engine, b: nat, t: nat)
    requires Inv(s) && Enabled(s, DoFill(b, t))
    ensures Defined(s, DoFill(b, t)) && Inv(Apply(s, DoFill(b, t)))
  {
    hide Inv, FillPage, FillDefined;
    InvShape(s);
    var w := s.writers[b];
    if PageFull(s, w.page) {
      FullKeeps(s, b);
    } else {
      FillKeeps(s, w.page, w.data, t);
      var s' := FillPage(s, w.page, w.data, t);
      InvShape(s');
      FillConf(s, w.page, w.data, t);
      WriterOf(s', b);
      SetWriterKeeps(s', b, Idle);
    }
  }

  /** Writing to a page does not move pages, close them, or touch the excess counters. */
  lemma FillConf(s: Engine, p: nat, data: seq<byte>, t: nat)
    requires Shape(s) && p < s.conf.pageCount && t < |s.threads| && FillDefined(s, p, |data|, t)
    ensures var s' := FillPage(s, p, data, t);
      && s'.conf == s.conf && s'.places == s.places && s'.closed == s.closed
      && s'.excessObjects == s.excessObjects && s'.excessBytes == s.excessBytes
  {
    hide Shape;
  }

  // ---------------------------------------------------------------- maintenance keeps the invariant

  lemma SetMaintKeeps(s: Engine, m: Maint)
    requires Inv(s) && MaintShape(s.conf, m) && MaintInv(m, s.places, s.fills)
    ensures Inv(s.(maint := m))
  {
    hide FreeListsInv, BucketsInv, VersionsInv, LogsInv, IoStackInv, PinsOk, ReadsInv, WritersInv, IdleInv, StatsInv,
      RefsInv, ResultsInv, DepthInv, PagesInv, FlushesInv, WritesInv, WbufInv, MaintInv, ThreadsShape, ListShape;
  }

  lemma MaintOf(s: Engine)
    requires Inv(s)
    ensures MaintInv(s.maint, s.places, s.fills)
  {
    hide FreeListsInv, BucketsInv, VersionsInv, LogsInv, IoStackInv, PinsOk, ReadsInv, WritersInv, IdleInv, StatsInv,
      RefsInv, ResultsInv, DepthInv, PagesInv, FlushesInv, WritesInv, WbufInv, MaintInv;
  }

  lemma MaintScanKeeps(s: Engine)
    requires Inv(s) && s.maint.Scanning? && s.maint.i < s.conf.pageCount
    ensures Inv(MaintScan(s))
  {
    hide Inv;
    InvShape(s);
    MaintOf(s);
    var i := s.maint.i;
    var s' := if Drained(s, i) then FreePage(s, i) else s;
    if Drained(s, i) {
      FreePageKeeps(s, i);
    }
    SetMaintKeeps(s', Noted(s, s.maint));
  }

  lemma EvictKeeps(s: Engine, p: nat)
    requires Inv(s) && p < s.conf.pageCount && Settled(s, p) && s.maint.Sleeping?
    ensures Inv(Evict(s, p))
  {
    hide Inv;
    InvShape(s);
    if !s.closed[p] {
      CloseKeeps(s, p, s.places[p].version);
      InvShape(s.(closed := s.closed[p := true]));
      if s.refs[p] == 0 {
        FreePageKeeps(s.(closed := s.closed[p := true]), p);
      }
    }
  }

  lemma MaintEvictKeeps(s: Engine)
    requires Inv(s) && s.maint.Scanning?
    ensures Inv(MaintEvict(s))
  {
    hide Inv;
    InvShape(s);
    MaintOf(s);
    var s' := s.(maint := Sleeping);
    SetMaintKeeps(s, Sleeping);
    InvShape(s');
    if s.maint.evict && s.maint.low.Some? {
      EvictKeeps(s', s.maint.low.value.page);
    }
  }

  // ---------------------------------------------------------------- every step

  lemma ReleaseDefined(s: Engine, t: nat)
    requires Inv(s) && t < |s.threads| && s.threads[t].phase.Got?
    ensures 0 < s.refs[s.threads[t].batch[0].page]
  {
    hide FreeListsInv, BucketsInv, VersionsInv, LogsInv, IoStackInv, PinsOk, ReadsInv, WritersInv, IdleInv, StatsInv,
      ResultsInv, DepthInv, PagesInv, FlushesInv, WritesInv, WbufInv, MaintInv;
    var p := s.threads[t].batch[0].page;
    SumAtLeast(s.threads, t, Pins(p));
  }

  /** In a good state every enabled step meets the code's asserts and leads to a good state. */
  lemma StepKeeps(s: Engine, step: Step)
    requires Inv(s) && Enabled(s, step)
    ensures Defined(s, step) && Inv(Apply(s, step))
  {
    hide Inv, Pick, AllocatePage, MaintScan, MaintEvict, MaintShape;
    InvShape(s);
    match step
    case DoPick(b, fb, data) =>
      FreeIsCounted(s, fb);
      PickKeeps(s, b, fb, data);
    case DoFill(b, t) => FillStep(s, b, t);
    case DoNewPage(b) => NewPageKeeps(s, b);
    case DoDelete(p, v, count, bytes) => DeleteKeeps(s, p, v, count, bytes);
    case DoClose(p, v) => CloseKeeps(s, p, v);
    case DoSubmit(t, ios) => SubmitReadsKeeps(s, t, ios);
    case DoTakeBatch(t) => TakeBatchKeeps(s, t);
    case DoReadCheck(t) => ReadCheckKeeps(s, t);
    case DoPread(t) => PreadKeeps(s, t);
    case DoRelease(t) =>
      ReleaseDefined(s, t);
      ReleaseKeeps(s, t);
    case DoPwrite(t) => PwriteKeeps(s, t);
    case DoWbufDone(t) =>
      FlushTarget(s, t);
      WbufDoneKeeps(s, t);
    case DoMaintStart => StartKeeps(s);
    case DoMaintScan => MaintScanKeeps(s);
    case DoMaintEvict => MaintEvictKeeps(s);
  }

  lemma StartKeeps(s: Engine)
    requires Inv(s)
    ensures s.freeLists != [] && Inv(s.(maint := Scanning(0, MustEvict(s), None, {})))
  {
    hide Inv;
    InvShape(s);
    SetMaintKeeps(s, Scanning(0, MustEvict(s), None, {}));
  }

  // ---------------------------------------------------------------- initial states

  /** The free list of bucket f as extstore_init builds it: pages i, i+1, ... that return to f. */
  ghost function FreeListFrom(fbs: seq<nat>, f: nat, i: nat): seq<nat>
    requires i <= |fbs|
    decreases |fbs| - i
  {
    if i == |fbs| then []
    else if fbs[i] == f then [i] + FreeListFrom(fbs, f, i + 1)
    else FreeListFrom(fbs, f, i + 1)
  }

  lemma {:induction false} FreeListFromFacts(fbs: seq<nat>, f: nat, i: nat)
    requires i <= |fbs|
    ensures forall k :: 0 <= k < |FreeListFrom(fbs, f, i)| ==>
      i <= FreeListFrom(fbs, f, i)[k] < |fbs| && fbs[FreeListFrom(fbs, f, i)[k]] == f
    ensures forall p :: i <= p < |fbs| && fbs[p] == f ==> p in FreeListFrom(fbs, f, i)
    ensures NoDup(FreeListFrom(fbs, f, i))
    decreases |fbs| - i
  {
    if i < |fbs| {
      FreeListFromFacts(fbs, f, i + 1);
      if fbs[i] == f {
        NoDupCons(i, FreeListFrom(fbs, f, i + 1));
      }
    }
  }

  ghost function FreeLists(fbs: seq<nat>, n: nat): seq<seq<nat>>
    requires fbs != []
  {
    seq(n, (f: nat) => FreeListFrom(fbs, f, 1))
  }

  /** An engine fresh from extstore_init; fbs gives each page's free bucket.  What the files and the
      buffers contain does not matter. */
  ghost predicate Init(s: Engine, fbs: seq<nat>) {
    && ConfOk(s.conf)
    && 0 < |fbs| == s.conf.pageCount && (forall p :: 0 <= p < |fbs| ==> fbs[p] < s.conf.pageBuckets)
    && s.places == seq(|fbs|, (p: nat) requires p < |fbs| => Place(true, 0, fbs[p], 0))
    && s.fills == seq(|fbs|, (p: nat) => Fill(0, 0, false, None))
    && s.counts == seq(|fbs|, (p: nat) => Counts(0, 0))
    && s.refs == seq(|fbs|, (p: nat) => 0)
    && s.closed == seq(|fbs|, (p: nat) => false)
    && DiskShape(s.conf, s.disk)
    && WbufShape(s.conf, s.wbufs) && (forall w :: 0 <= w < |s.wbufs| ==> !s.wbufs[w].full)
    && s.wbufStack == seq(s.conf.wbufCount, (k: nat) requires k < s.conf.wbufCount => s.conf.wbufCount - 1 - k)
    && s.ioStack == s.conf.wbufCount
    && s.freeLists == FreeLists(fbs, s.conf.pageBuckets)
    && s.buckets == seq(s.conf.pageBuckets, (b: nat) => [])
    && s.pageFree == |fbs| - 1
    && s.version == 1
    && s.objectsUsed == s.bytesUsed == s.excessObjects == s.excessBytes == 0
    && (forall t :: 0 <= t < |s.threads| ==> s.threads[t] == IoThread([], 0, [], Start))
    && s.writers == seq(s.conf.pageBuckets, (b: nat) => Idle)
    && s.maint == Sleeping && s.logs == map[] && s.results == []
  }

  /** Splitting the pages 1.. by free bucket loses none of them. */
  lemma {:induction false} FreeListsTotal(fbs: seq<nat>, n: nat, i: nat)
    requires 1 <= i <= |fbs| && forall p :: 0 <= p < |fbs| ==> fbs[p] < n
    ensures Sum(seq(n, (f: nat) => FreeListFrom(fbs, f, i)), Length()) == |fbs| - i
    decreases |fbs| - i
  {
    var lists := seq(n, (f: nat) => FreeListFrom(fbs, f, i));
    if i == |fbs| {
      SumZero(lists, Length());
    } else {
      var rest := seq(n, (f: nat) => FreeListFrom(fbs, f, i + 1));
      FreeListsTotal(fbs, n, i + 1);
      SumUpdate(rest, fbs[i], [i] + rest[fbs[i]], Length());
      assert lists == rest[fbs[i] := [i] + rest[fbs[i]]];
    }
  }

  lemma InitLists(s: Engine, fbs: seq<nat>)
    requires Init(s, fbs)
    ensures ListShape(s.conf, s.freeLists) && FreeListsInv(s.places, s.freeLists, s.pageFree)
  {
    forall f | 0 <= f < |s.freeLists|
      ensures NoDup(s.freeLists[f])
      ensures forall k :: 0 <= k < |s.freeLists[f]| ==>
        0 < s.freeLists[f][k] < |fbs| && fbs[s.freeLists[f][k]] == f
      ensures forall p :: 1 <= p < |fbs| && fbs[p] == f ==> p in s.freeLists[f]
    {
      FreeListFromFacts(fbs, f, 1);
    }
    FreeListsTotal(fbs, s.conf.pageBuckets, 1);
  }

  lemma InitThreads(s: Engine, fbs: seq<nat>)
    requires Init(s, fbs)
    ensures WritesInv(s.threads, s.fills, s.wbufs) && RefsInv(s.threads, s.refs)
  {
    forall io: Io
      ensures Sum(s.threads, Occurrences(io)) == 0
    {
      SumZero(s.threads, Occurrences(io));
    }
    forall p: nat
      ensures Sum(s.threads, Pins(p)) == 0
    {
      SumZero(s.threads, Pins(p));
    }
  }

  lemma InitBooks(s: Engine, fbs: seq<nat>)
    requires Init(s, fbs)
    ensures StatsInv(s.counts, s.objectsUsed, s.bytesUsed, s.excessObjects, s.excessBytes)
    ensures WbufInv(s.conf, s.fills, s.wbufStack) && IoStackInv(s.conf, s.wbufs, s.wbufStack, s.ioStack)
  {
    SumZero(s.counts, Objects());
    SumZero(s.counts, Bytes());
    SumZero(s.fills, HoldsWbuf());
    assert Busy(s.wbufs, s.wbufStack) == {};
  }

  lemma InitGood(s: Engine, fbs: seq<nat>)
    requires Init(s, fbs)
    ensures Inv(s)
  {
    hide FreeListsInv, WritesInv, RefsInv, StatsInv, WbufInv, IoStackInv, FreeLists;
    InitLists(s, fbs);
    InitThreads(s, fbs);
    InitBooks(s, fbs);
  }

  // ---------------------------------------------------------------- runs

  /** states is a run: each state follows from the one before by an enabled step of some thread. */
  ghost predicate IsRun(states: seq<Engine>, steps: seq<Step>, fbs: seq<nat>) {
    && |states| == |steps| + 1
    && Init(states[0], fbs)
    && forall i :: 0 <= i < |steps| ==> Follows(states[i], steps[i], states[i + 1])
  }

  ghost predicate Follows(s: Engine, step: Step, s': Engine) {
    Shape(s) && Enabled(s, step) && Defined(s, step) && s' == Apply(s, step)
  }

  lemma {:induction false} RunIsGood(states: seq<Engine>, steps: seq<Step>, fbs: seq<nat>, i: nat)
    requires IsRun(states, steps, fbs) && i <= |steps|
    ensures Inv(states[i])
  {
    hide Inv, Init, Apply, Defined, Enabled, Shape;
    if i == 0 {
      InitGood(states[0], fbs);
    } else {
      RunIsGood(states, steps, fbs, i - 1);
      assert Follows(states[i - 1], steps[i - 1], states[i]);
      StepKeeps(states[i - 1], steps[i - 1]);
    }
  }

  /** No assert of the engine fails in any run, whatever step comes next. */
  lemma NoAssertFails(states: seq<Engine>, steps: seq<Step>, fbs: seq<nat>, step: Step)
    requires IsRun(states, steps, fbs) && Shape(states[|steps|]) && Enabled(states[|steps|], step)
    ensures Defined(states[|steps|], step)
  {
    RunIsGood(states, steps, fbs, |steps|);
    StepKeeps(states[|steps|], step);
  }
}
