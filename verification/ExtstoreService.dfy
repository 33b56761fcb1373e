/** How long a stored object is served: until its page is closed, evicted or emptied. */
module ExtstoreService {
  import opened Octets
  import opened Sums
  import opened ExtstoreModel
  import opened ExtstoreInvariant
  import opened ExtstoreProof
  import opened ExtstorePageProof
  import opened ExtstoreRuns
  import opened ExtstoreTheorems

  /** Page p serves version v. */
  ghost predicate Serves(s: Engine, p: nat, v: nat) {
    p < |s.places| && p < |s.closed| && !s.places[p].free && !s.closed[p] && s.places[p].version == v
  }

  /** The steps that end it: a close of that version, a scan that finds the page filled, empty and unread,
      and an eviction of the page the scan has noted. */
  ghost predicate Retires(s: Engine, step: Step, p: nat)
    requires Shape(s) && p < s.conf.pageCount
  {
    match step
    case DoClose(q, v) => q == p && s.places[p].version == v
    case DoMaintScan =>
      s.maint.Scanning? && s.maint.i == p && !s.fills[p].active && s.counts[p].objects == 0 && s.refs[p] == 0
    case DoMaintEvict => s.maint.Scanning? && s.maint.evict && s.maint.low.Some? && s.maint.low.value.page == p
    case _ => false
  }

  lemma AllocateServes(s: Engine, b: nat, fb: nat, p: nat)
    requires Inv(s) && b < s.conf.pageBuckets && fb < s.conf.pageBuckets && p < s.conf.pageCount && !s.places[p].free
    ensures var s' := AllocatePage(s, b, fb); p < |s'.places| && s'.places[p] == s.places[p]
    ensures p < |AllocatePage(s, b, fb).closed| && AllocatePage(s, b, fb).closed[p] == s.closed[p]
  {
    hide FreeListsInv, BucketsInv, VersionsInv, IoStackInv, PinsOk, ReadsInv, WritersInv, StatsInv, RefsInv,
      ResultsInv, LogsInv, DepthInv, PagesInv, FlushesInv, WritesInv, WbufInv, MaintInv, IdleInv;
    FreeHeads(s);
  }

  lemma MaintRetires(s: Engine, step: Step, p: nat)
    requires Shape(s) && Enabled(s, step) && (step.DoMaintScan? || step.DoMaintEvict?) && p < s.conf.pageCount
    requires !s.places[p].free && !s.closed[p]
    ensures var s' := Apply(s, step);
      Serves(s', p, s.places[p].version) <==> !Retires(s, step, p)
  {
    hide ConfOk, DiskShape, WbufShape, StackShape, ListShape, ThreadsShape, WritersShape, Noted;
  }

  /** Exactly these steps end the service of an open page. */
  lemma RetiredExactly(s: Engine, step: Step, s': Engine, p: nat)
    requires Inv(s) && Follows(s, step, s') && p < s.conf.pageCount && Serves(s, p, s.places[p].version)
    ensures Serves(s', p, s.places[p].version) <==> !Retires(s, step, p)
  {
    hide Inv, ConfOk, DiskShape, WbufShape, StackShape, ListShape, ThreadsShape, AllocatePage, FillPage, FillDefined,
      Readable, InWbuf, WbufReadSafe, Noted, HeadFull, FreeCounted, MaintScan, MaintEvict, PageFull;
    if step.DoPick? {
      AllocateServes(s, step.b, step.fb, p);
    } else if step.DoNewPage? {
      IdleKeeps(s, step.b);
      AllocateServes(s.(writers := s.writers[step.b := Idle]), step.b, s.writers[step.b].freeBucket, p);
    } else if step.DoFill? {
      if !PageFull(s, s.writers[step.b].page) {
        FillConf(s, s.writers[step.b].page, s.writers[step.b].data, step.t);
      }
    } else if step.DoMaintScan? || step.DoMaintEvict? {
      MaintRetires(s, step, p);
    }
  }

  // ---------------------------------------------------------------- over runs

  ghost predicate NotRetired(states: seq<Engine>, steps: seq<Step>, i: nat, j: nat, p: nat) {
    && j <= |steps| && j < |states|
    && forall m :: i <= m < j ==> Shape(states[m]) && p < states[m].conf.pageCount && !Retires(states[m], steps[m], p)
  }

  lemma {:induction false} ServesOn(
    states: seq<Engine>, steps: seq<Step>, fbs: seq<nat>, i: nat, j: nat, p: nat, v: nat)
    requires IsRun(states, steps, fbs) && i <= j <= |steps|
    requires Serves(states[i], p, v) && NotRetired(states, steps, i, j, p)
    ensures Serves(states[j], p, v)
    decreases j
  {
    hide Inv, Init, Follows, Shape, Retires;
    if i < j {
      ServesOn(states, steps, fbs, i, j - 1, p, v);
      RunIsGood(states, steps, fbs, j - 1);
      assert Follows(states[j - 1], steps[j - 1], states[j]);
      RetiredExactly(states[j - 1], steps[j - 1], states[j], p);
    }
  }

  /** A check answers a miss exactly when the page does not serve that version; else it copies from the
      buffer or has the page pinned for a read from the file. */
  lemma CheckAnswers(s: Engine, t: nat, s': Engine)
    requires Inv(s) && Follows(s, DoReadCheck(t), s')
    ensures t < |s.threads| && s.threads[t].batch != [] && s.threads[t].batch[0].Read?
    ensures var io := s.threads[t].batch[0];
      if !Serves(s, io.page, io.version) then s'.results == s.results + [Miss(io)]
      else
        || (t < |s'.threads| && s'.results == s.results && s'.threads[t] == s.threads[t].(phase := Pinned))
        || exists d :: s'.results == s.results + [Data(io, d)]
  {
    hide Inv, ConfOk, DiskShape, StackShape, ListShape, WritersShape;
    var io := s.threads[t].batch[0];
    if Readable(s, io) && InWbuf(s, io) {
      var wb := s.wbufs[s.fills[io.page].wbuf.value];
      var at := io.offset - wb.offset;
      assert s'.results == s.results + [Data(io, wb.buf[at..at + io.len])];
    }
  }

  lemma CheckPage(s: Engine, t: nat)
    requires Inv(s) && t < |s.threads| && s.threads[t].batch != [] && s.threads[t].batch[0].Read?
    ensures var io := s.threads[t].batch[0]; io.version in s.logs && s.logs[io.version].page == io.page
  {
    hide FreeListsInv, BucketsInv, VersionsInv, IoStackInv, PinsOk, WritersInv, StatsInv, RefsInv,
      ResultsInv, LogsInv, DepthInv, PagesInv, FlushesInv, WritesInv, WbufInv, MaintInv, IdleInv;
  }

  /** An object stored under a version its page serves is served as long as no step retires the page: a
      check of a read of it never answers a miss, and what it answers is the object. */
  lemma ServedUntilRetired(
    states: seq<Engine>, steps: seq<Step>, fbs: seq<nat>, i: nat, j: nat, v: nat, k: nat, t: nat)
    requires IsRun(states, steps, fbs) && i <= j < |steps| && steps[j] == DoReadCheck(t)
    requires v in states[i].logs && k < |states[i].logs[v].objs|
    requires Serves(states[i], states[i].logs[v].page, v) && NotRetired(states, steps, i, j, states[i].logs[v].page)
    requires t < |states[j].threads| && states[j].threads[t].batch != [] && states[j].threads[t].batch[0].Read?
    requires var o, io := states[i].logs[v].objs[k], states[j].threads[t].batch[0];
      io.version == v && io.offset == o.offset && io.len == |o.data|
    ensures var o, io, s, s' := states[i].logs[v].objs[k], states[j].threads[t].batch[0], states[j], states[j + 1];
      || s'.results == s.results + [Data(io, o.data)]
      || (t < |s'.threads| && s'.results == s.results && s'.threads[t] == s.threads[t].(phase := Pinned))
  {
    hide Inv, Init, Apply, Enabled, Defined, Shape, Retires, NotRetired;
    var s, s' := states[j], states[j + 1];
    assert Follows(states[j], steps[j], states[j + 1]);
    RunIsGood(states, steps, fbs, j);
    RunExtendsLogs(states, steps, fbs, i, j);
    CheckPage(s, t);
    ServesOn(states, steps, fbs, i, j, states[i].logs[v].page, v);
    CheckAnswers(s, t, s');
    var io := s.threads[t].batch[0];
    if s'.results != s.results {
      var r := s'.results[|s.results|];
      StoredObjectsReadBack(states, steps, fbs, i, j + 1, v, k, r);
    }
  }

  // ---------------------------------------------------------------- which page, how many, how much

  /** A bucket takes the first page of the free list asked for, or of the default one when that is empty,
      under a version no object has been stored under. */
  lemma AllocateTakes(s: Engine, b: nat, fb: nat)
    requires Inv(s) && b < s.conf.pageBuckets && fb < s.conf.pageBuckets
    ensures Shape(s)
    ensures var s' := AllocatePage(s, b, fb);
      if s.freeLists[fb] == [] && s.freeLists[0] == [] then s' == s
      else
        var l := if s.freeLists[fb] == [] then 0 else fb;
        var p := s.freeLists[l][0];
        && s'.freeLists == s.freeLists[l := s.freeLists[l][1..]] && s'.buckets == s.buckets[b := [p] + s.buckets[b]]
        && s'.pageFree == s.pageFree - 1 && s'.version == s.version + 1 && Serves(s', p, s.version)
        && s'.fills[p].active && s'.places[p].bucket == b && s.version !in s.logs
        && s'.logs == s.logs[s.version := Log(p, [], [])]
  {
    hide BucketsInv, VersionsInv, IoStackInv, PinsOk, ReadsInv, WritersInv, StatsInv, RefsInv, ResultsInv, LogsInv,
      DepthInv, PagesInv, FlushesInv, WritesInv, WbufInv, MaintInv, IdleInv, FreeListsInv;
    FreeExactly(s.places, s.freeLists, s.pageFree);
    NewVersion(s);
  }

  /** A delete takes its objects and bytes off a page that serves the version, down to zero at the least,
      and off the totals in full. */
  lemma DeleteTakes(s: Engine, p: nat, v: nat, count: nat, bytes: nat)
    requires Inv(s) && p < s.conf.pageCount && s.places[p].version == v && !s.closed[p]
    ensures Shape(s)
    ensures var s', c := Delete(s, p, v, count, bytes), s.counts[p];
      && p < |s'.counts| && s'.objectsUsed == s.objectsUsed - count && s'.bytesUsed == s.bytesUsed - bytes
      && s'.counts[p].objects == (if count <= c.objects then c.objects - count else 0)
      && s'.counts[p].bytes == (if bytes <= c.bytes then c.bytes - bytes else 0)
      && forall q :: 0 <= q < |s.counts| && q != p ==> q < |s'.counts| && s'.counts[q] == s.counts[q]
  {
    hide Inv;
    InvShape(s);
  }

  /** A thread takes as many IOs as the configured depth allows, one at least. */
  lemma BatchIs(s: Engine, t: nat)
    requires t < |s.threads| && s.threads[t].queue != []
    ensures var th, th' := s.threads[t], TakeBatch(s, t).threads[t];
      && th.queue == th'.batch + th'.queue && 1 <= |th'.batch| && (|th'.batch| <= s.conf.ioDepth || |th'.batch| == 1)
      && (th'.queue == [] || s.conf.ioDepth <= |th'.batch|)
  {
  }
}
