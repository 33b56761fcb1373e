/** Maintenance passes, with any steps of other threads in between. */
module ExtstoreEviction {
  import opened Octets
  import opened Sums
  import opened ExtstoreModel
  import opened ExtstoreInvariant
  import opened ExtstorePageProof
  import opened ExtstoreRuns
  import opened ExtstoreTheorems

  /** Any stretch of a run. */
  ghost predicate IsPath(states: seq<Engine>, steps: seq<Step>) {
    && |states| == |steps| + 1 && Inv(states[0])
    && forall k :: 0 <= k < |steps| ==> Follows(states[k], steps[k], states[k + 1])
  }

  lemma RunIsPath(states: seq<Engine>, steps: seq<Step>, fbs: seq<nat>)
    requires IsRun(states, steps, fbs)
    ensures IsPath(states, steps)
  {
    hide Inv, Follows, Init;
    RunIsGood(states, steps, fbs, 0);
  }

  lemma {:induction false} PathIsGood(states: seq<Engine>, steps: seq<Step>, k: nat)
    requires IsPath(states, steps) && k < |states|
    ensures Inv(states[k]) && Shape(states[k]) && states[k].conf == states[0].conf
  {
    hide Inv, Apply, Defined, Enabled, Shape;
    if k > 0 {
      PathIsGood(states, steps, k - 1);
      assert Follows(states[k - 1], steps[k - 1], states[k]);
      StepKeeps(states[k - 1], steps[k - 1]);
      StepConf(states[k - 1], steps[k - 1], states[k]);
    }
    InvShape(states[k]);
  }

  lemma StepConf(s: Engine, step: Step, s': Engine)
    requires Follows(s, step, s')
    ensures s'.conf == s.conf
    ensures !step.DoMaintStart? && !step.DoMaintScan? && !step.DoMaintEvict? ==> s'.maint == s.maint
  {
    hide RowShape, FillShape, DiskShape, WbufShape, StackShape, ListShape, ThreadsShape, MaintShape,
      FillPage, FillDefined, PageFull, Readable, InWbuf, WbufReadSafe, Noted, HeadFull;
    if step.DoFill? && !PageFull(s, s.writers[step.b].page) {
      FillMaint(s, s.writers[step.b].page, s.writers[step.b].data, step.t);
    }
  }

  lemma FillMaint(s: Engine, p: nat, data: seq<byte>, t: nat)
    requires Shape(s) && p < s.conf.pageCount && t < |s.threads| && FillDefined(s, p, |data|, t)
    ensures FillPage(s, p, data, t).conf == s.conf && FillPage(s, p, data, t).maint == s.maint
  {
    hide Shape;
  }

  // ---------------------------------------------------------------- one pass

  /** One pass of the maintenance thread: it starts with step i and evicts with step j. */
  ghost predicate IsPass(states: seq<Engine>, steps: seq<Step>, i: nat, j: nat) {
    && IsPath(states, steps) && |states| == |steps| + 1 && i < j < |steps|
    && steps[i].DoMaintStart? && steps[j].DoMaintEvict? && forall k :: i < k < j ==> !steps[k].DoMaintEvict?
  }

  /** Step k of the pass looks at page p. */
  ghost predicate Scans(states: seq<Engine>, steps: seq<Step>, i: nat, k: nat, p: nat) {
    && i < k < |steps| && k < |states| && steps[k].DoMaintScan?
    && states[k].maint.Scanning? && states[k].maint.i == p && Shape(states[k]) && p < states[k].conf.pageCount
  }

  /** It finds p filled, open, holding objects and bound for the default free list. */
  ghost predicate SawEvictable(states: seq<Engine>, steps: seq<Step>, i: nat, k: nat, p: nat) {
    && Scans(states, steps, i, k, p)
    && var s := states[k];
       && !s.fills[p].active && !s.places[p].free && !s.closed[p] && s.counts[p].objects > 0
       && s.places[p].freeBucket == 0
  }

  /** It finds p filled, without objects or closed, and nobody reading it. */
  ghost predicate SawDrained(states: seq<Engine>, steps: seq<Step>, i: nat, k: nat, p: nat) {
    && Scans(states, steps, i, k, p)
    && var s := states[k];
       !s.fills[p].active && !s.places[p].free && (s.counts[p].objects == 0 || s.closed[p]) && s.refs[p] == 0
  }

  /** The effect of a step on the maintenance thread's own variables. */
  lemma MaintMoves(states: seq<Engine>, steps: seq<Step>, i: nat, j: nat, k: nat)
    requires IsPass(states, steps, i, j) && i < k < j && states[k].maint.Scanning?
    ensures Shape(states[k]) && states[k + 1].maint.Scanning?
    ensures if steps[k].DoMaintScan? then
              && Scans(states, steps, i, k, states[k].maint.i)
              && states[k + 1].maint == Noted(states[k], states[k].maint)
            else states[k + 1].maint == states[k].maint
  {
    hide Inv, RowShape, FillShape, DiskShape, WbufShape, StackShape, ListShape, ThreadsShape, Drained, Evictable, Pick,
      AllocatePage, FillPage, Delete, ClosePage, SubmitReads, TakeBatch, ReadCheck, Pread, Release, Pwrite, WbufDone,
      FreePage, FillDefined;
    assert Follows(states[k], steps[k], states[k + 1]);
    StepConf(states[k], steps[k], states[k + 1]);
  }

  /** The pass starts knowing nothing but whether it must evict. */
  lemma PassStarts(states: seq<Engine>, steps: seq<Step>, i: nat, j: nat)
    requires IsPass(states, steps, i, j)
    ensures Shape(states[i]) && states[i + 1].maint == Scanning(0, MustEvict(states[i]), None, {})
  {
    hide Inv, Shape;
    assert Follows(states[i], steps[i], states[i + 1]);
    PathIsGood(states, steps, i);
  }

  /** Page p was looked at before state m. */
  ghost predicate Scanned(states: seq<Engine>, steps: seq<Step>, i: nat, m: nat, p: nat) {
    exists k: nat :: k < m && Scans(states, steps, i, k, p)
  }

  /** l was evictable under its version when it was looked at. */
  ghost predicate Found(states: seq<Engine>, steps: seq<Step>, i: nat, m: nat, l: Low) {
    exists k: nat :: k < m && SawEvictable(states, steps, i, k, l.page) && states[k].places[l.page].version == l.version
  }

  /** Nothing to free turned up. */
  ghost predicate NoneDrained(states: seq<Engine>, steps: seq<Step>, i: nat, m: nat) {
    forall k: nat, p: nat :: k < m ==> !SawDrained(states, steps, i, k, p)
  }

  /** What the thread has noted by state m: the pages below its cursor have been scanned, and only
      they; evict and cands record what it saw. */
  ghost predicate Knows(states: seq<Engine>, steps: seq<Step>, i: nat, m: nat)
    requires i < |states| && m < |states| && Shape(states[i])
  {
    && states[m].maint.Scanning?
    && (forall p: nat :: Scanned(states, steps, i, m, p) <==> p < states[m].maint.i)
    && (states[m].maint.evict <==> MustEvict(states[i]) && NoneDrained(states, steps, i, m))
    && (forall l :: l in states[m].maint.cands <==> Found(states, steps, i, m, l))
  }

  lemma NothingYet(states: seq<Engine>, steps: seq<Step>, i: nat, j: nat)
    requires IsPass(states, steps, i, j)
    ensures Shape(states[i]) && Knows(states, steps, i, i + 1)
  {
    hide Inv, Shape, IsPath, Evictable, Drained, MustEvict;
    PassStarts(states, steps, i, j);
  }

  /** One more step: it adds what it looked at, or nothing. */
  lemma LooksOnce(states: seq<Engine>, steps: seq<Step>, i: nat, m: nat, p: nat)
    requires i < m < |steps| && m < |states|
    ensures Scanned(states, steps, i, m + 1, p) <==> Scanned(states, steps, i, m, p) || Scans(states, steps, i, m, p)
    ensures NoneDrained(states, steps, i, m + 1) <==>
      NoneDrained(states, steps, i, m) && forall q: nat :: !SawDrained(states, steps, i, m, q)
  {
    hide Scans, SawDrained;
  }

  lemma FindsOnce(states: seq<Engine>, steps: seq<Step>, i: nat, m: nat, l: Low)
    requires i < m < |steps| && m < |states|
    ensures Found(states, steps, i, m + 1, l) <==>
      || Found(states, steps, i, m, l)
      || (SawEvictable(states, steps, i, m, l.page) && states[m].places[l.page].version == l.version)
  {
    hide Scans, Evictable;
  }

  lemma Sees(states: seq<Engine>, steps: seq<Step>, i: nat, k: nat, p: nat)
    requires k < |states|
    ensures SawEvictable(states, steps, i, k, p) <==> Scans(states, steps, i, k, p) && Evictable(states[k], p)
    ensures SawDrained(states, steps, i, k, p) <==> Scans(states, steps, i, k, p) && Drained(states[k], p)
  {
    hide ConfOk, DiskShape, WbufShape, StackShape, ListShape, ThreadsShape, WritersShape;
  }

  lemma KnowsNext(states: seq<Engine>, steps: seq<Step>, i: nat, j: nat, m: nat)
    requires IsPass(states, steps, i, j) && i < m < j && Shape(states[i]) && Knows(states, steps, i, m)
    ensures Knows(states, steps, i, m + 1)
  {
    hide Inv, Shape, IsPath, Evictable, Drained, MustEvict, Scanned, Found, NoneDrained, SawEvictable, SawDrained;
    MaintMoves(states, steps, i, j, m);
    LooksOnce(states, steps, i, m, 0);
    var n := m + 1;
    forall p: nat
      ensures Scanned(states, steps, i, n, p) <==> p < states[n].maint.i
    {
      LooksOnce(states, steps, i, m, p);
    }
    forall l
      ensures l in states[n].maint.cands <==> Found(states, steps, i, n, l)
    {
      FindsOnce(states, steps, i, m, l);
      Sees(states, steps, i, m, l.page);
    }
    forall q: nat
      ensures SawDrained(states, steps, i, m, q) <==> Scans(states, steps, i, m, q) && Drained(states[m], q)
    {
      Sees(states, steps, i, m, q);
    }
    assert steps[m].DoMaintScan? && Drained(states[m], states[m].maint.i) ==>
        SawDrained(states, steps, i, m, states[m].maint.i);
    assert NoneDrained(states, steps, i, n) <==>
        NoneDrained(states, steps, i, m) && !(steps[m].DoMaintScan? && Drained(states[m], states[m].maint.i));
  }

  lemma {:induction false} KnowsTo(states: seq<Engine>, steps: seq<Step>, i: nat, j: nat, m: nat)
    requires IsPass(states, steps, i, j) && i < m <= j
    ensures Shape(states[i]) && Knows(states, steps, i, m)
  {
    hide IsPass, Knows, Shape;
    if m == i + 1 {
      NothingYet(states, steps, i, j);
    } else {
      KnowsTo(states, steps, i, j, m - 1);
      KnowsNext(states, steps, i, j, m - 1);
    }
  }

  /** Pages are looked at in order, each once. */
  lemma ScansInOrder(states: seq<Engine>, steps: seq<Step>, i: nat, j: nat, k: nat, m: nat, p: nat, q: nat)
    requires IsPass(states, steps, i, j) && k < m < j && Scans(states, steps, i, k, p) && Scans(states, steps, i, m, q)
    ensures p < q
  {
    hide IsPath, Shape, MustEvict, Found, NoneDrained;
    KnowsTo(states, steps, i, j, m);
    assert Scanned(states, steps, i, m, p);
  }

  // ---------------------------------------------------------------- what the pass does at its end

  ghost predicate SameRow(s: Engine, s': Engine, p: nat)
    requires Shape(s) && Shape(s') && p < s.conf.pageCount == s'.conf.pageCount
  {
    && s'.places[p] == s.places[p] && s'.fills[p] == s.fills[p] && s'.counts[p] == s.counts[p]
    && s'.refs[p] == s.refs[p] && s'.closed[p] == s.closed[p]
  }

  /** v is closed, unless somebody has closed it already, and freed at once unless it is being read;
      no other page changes. */
  ghost predicate Evicted(s: Engine, s': Engine, v: nat)
    requires Shape(s) && Shape(s') && s'.conf == s.conf && v < s.conf.pageCount
  {
    && (if s.closed[v] then SameRow(s, s', v)
        else if s.refs[v] == 0 then s'.places[v].free
        else s'.closed[v] && s'.places[v] == s.places[v])
    && (forall p :: 0 <= p < s.conf.pageCount && p != v ==> SameRow(s, s', p))
  }

  /** Step k of the pass looked at p, which no page evictable when looked at in this pass is older than. */
  ghost predicate OldestSeen(states: seq<Engine>, steps: seq<Step>, i: nat, j: nat, k: nat, p: nat) {
    && k < j && SawEvictable(states, steps, i, k, p)
    && forall m: nat, q: nat :: m < j && SawEvictable(states, steps, i, m, q) ==>
         states[k].places[p].version <= states[m].places[q].version
  }

  ghost predicate SawAny(states: seq<Engine>, steps: seq<Step>, i: nat, j: nat) {
    exists k: nat, p: nat :: k < j && SawEvictable(states, steps, i, k, p)
  }

  /** What low stands for when the scan is over. */
  lemma LowIsOldest(states: seq<Engine>, steps: seq<Step>, i: nat, j: nat)
    requires IsPass(states, steps, i, j)
    ensures Shape(states[j]) && states[j].maint.Scanning?
    ensures var s := states[j];
      && (s.maint.low.Some? <==> SawAny(states, steps, i, j))
      && (s.maint.low.Some? ==>
            var l := s.maint.low.value;
            && l.page < s.conf.pageCount && s.places[l.page].version == l.version && Settled(s, l.page)
            && exists k: nat ::
                 OldestSeen(states, steps, i, j, k, l.page) && states[k].places[l.page].version == l.version)
  {
    hide Inv, DiskShape, WbufShape, StackShape, ListShape, ThreadsShape, WritersShape, MustEvict, NoneDrained, Scanned,
      IsPath;
    KnowsTo(states, steps, i, j, j);
    PathIsGood(states, steps, j);
    MaintOf(states[j]);
    var s := states[j];
    forall k: nat, p: nat | k < j && SawEvictable(states, steps, i, k, p)
      ensures Low(p, states[k].places[p].version) in s.maint.cands
    {
      assert Found(states, steps, i, j, Low(p, states[k].places[p].version));
    }
    if s.maint.low.Some? {
      var l := s.maint.low.value;
      assert Found(states, steps, i, j, l);
    }
  }

  lemma RowsAfterEvict(m: Engine)
    requires Shape(m) && m.maint.Scanning? && Shape(MaintEvict(m))
    ensures MaintEvict(m).conf == m.conf
    ensures if m.maint.evict && m.maint.low.Some? then Evicted(m, MaintEvict(m), m.maint.low.value.page)
            else forall p :: 0 <= p < m.conf.pageCount ==> SameRow(m, MaintEvict(m), p)
  {
  }

  /** Whatever other threads do meanwhile: if the default free list was exhausted when the pass began,
      no page it looked at could be freed, and one could be evicted, the pass closes the page that was
      oldest of all those it found evictable, which still has the version it was noted under.
      Otherwise it closes nothing. */
  lemma PassEvictsOldest(states: seq<Engine>, steps: seq<Step>, i: nat, j: nat)
    requires IsPass(states, steps, i, j)
    ensures Shape(states[i]) && Shape(states[j]) && Shape(states[j + 1]) && states[j + 1].conf == states[j].conf
    ensures var s, s' := states[j], states[j + 1];
      if states[i].freeLists[0] == [] && NoneDrained(states, steps, i, j) && SawAny(states, steps, i, j) then
        exists k: nat, p: nat ::
          && OldestSeen(states, steps, i, j, k, p) && p < s.conf.pageCount
          && s.places[p].version == states[k].places[p].version && Evicted(s, s', p)
      else
        forall p :: 0 <= p < s.conf.pageCount ==> SameRow(s, s', p)
  {
    hide Inv, Shape, MustEvict, NoneDrained, SawAny, OldestSeen, Evicted, SameRow, IsPath, MaintEvict, Settled,
      Scanned, Found;
    KnowsTo(states, steps, i, j, j);
    LowIsOldest(states, steps, i, j);
    PathIsGood(states, steps, j);
    PathIsGood(states, steps, j + 1);
    EvictIs(states, steps, j);
    RowsAfterEvict(states[j]);
    assert MustEvict(states[i]) <==> states[i].freeLists[0] == [] by {
      PathIsGood(states, steps, i);
      ExhaustedIs(states[i]);
    }
  }

  lemma ExhaustedIs(s: Engine)
    requires Inv(s)
    ensures Shape(s) && s.freeLists != [] && (MustEvict(s) <==> s.freeLists[0] == [])
  {
    hide BucketsInv, VersionsInv, PagesInv, LogsInv, WbufInv, IoStackInv, WritesInv, FlushesInv, PinsOk, RefsInv,
      ReadsInv, DepthInv, WritersInv, ResultsInv, MaintInv, StatsInv, IdleInv, FreeListsInv;
    FreeExactly(s.places, s.freeLists, s.pageFree);
  }

  lemma EvictIs(states: seq<Engine>, steps: seq<Step>, j: nat)
    requires IsPath(states, steps) && j < |steps| && steps[j].DoMaintEvict?
    ensures j + 1 < |states| && Shape(states[j]) && states[j].maint.Scanning? && states[j + 1] == MaintEvict(states[j])
  {
    hide Inv, Shape, MaintEvict;
    assert Follows(states[j], steps[j], states[j + 1]);
  }

  /** Every page has been looked at when the pass evicts. */
  lemma ScansAll(states: seq<Engine>, steps: seq<Step>, i: nat, j: nat, p: nat)
    requires IsPass(states, steps, i, j) && p < states[j].conf.pageCount
    ensures Scanned(states, steps, i, j, p)
  {
    hide Inv, Shape, MustEvict, NoneDrained, Found;
    KnowsTo(states, steps, i, j, j);
    assert Follows(states[j], steps[j], states[j + 1]);
  }

  /** The maintenance thread looks at page p and finds it drained, or evicts it while nobody reads it. */
  ghost predicate Frees(s: Engine, step: Step, p: nat)
    requires Shape(s) && p < s.conf.pageCount
  {
    && s.maint.Scanning?
    && if step.DoMaintScan? then
         && s.maint.i == p && !s.fills[p].active && !s.places[p].free
         && (s.counts[p].objects == 0 || s.closed[p]) && s.refs[p] == 0
       else step.DoMaintEvict? && s.maint.evict && s.maint.low.Some? && s.maint.low.value.page == p
            && !s.closed[p] && s.refs[p] == 0
  }

  lemma MaintFrees(s: Engine, step: Step, p: nat)
    requires Shape(s) && Enabled(s, step) && (step.DoMaintScan? || step.DoMaintEvict?) && p < s.conf.pageCount
    requires !s.places[p].free && Shape(Apply(s, step))
    ensures var s' := Apply(s, step); p < |s'.places| && (s'.places[p].free <==> Frees(s, step, p))
  {
    hide ConfOk, DiskShape, WbufShape, StackShape, ListShape, ThreadsShape, WritersShape, Noted;
  }

  /** No step but these two frees a page. */
  lemma FreedExactly(s: Engine, step: Step, s': Engine, p: nat)
    requires Inv(s) && Follows(s, step, s') && p < s.conf.pageCount && !s.places[p].free
    ensures p < |s'.places| && (s'.places[p].free <==> Frees(s, step, p))
  {
    hide Inv, ConfOk, DiskShape, WbufShape, StackShape, ListShape, ThreadsShape, AllocatePage, FillPage, FillDefined,
      Readable, InWbuf, WbufReadSafe, Noted, HeadFull, FreeCounted, MaintScan, MaintEvict, PageFull;
    StepKeeps(s, step);
    InvShape(s');
    if step.DoPick? {
      AllocateMoves(s, step.b, step.fb, p);
    } else if step.DoNewPage? {
      IdleKeeps(s, step.b);
      AllocateMoves(s.(writers := s.writers[step.b := Idle]), step.b, s.writers[step.b].freeBucket, p);
    } else if step.DoFill? {
      if !PageFull(s, s.writers[step.b].page) {
        FillConf(s, s.writers[step.b].page, s.writers[step.b].data, step.t);
      }
    } else if step.DoMaintScan? || step.DoMaintEvict? {
      MaintFrees(s, step, p);
    }
  }

  // ---------------------------------------------------------------- pages that fill behind the scan

  /** A flush completes page q. */
  ghost predicate Completes(s: Engine, step: Step, q: nat) {
    && step.DoWbufDone? && step.t < |s.threads| && s.threads[step.t].batch != [] && s.threads[step.t].batch[0].page == q
    && q < |s.fills| && s.fills[q].written + s.conf.wbufSize == s.conf.pageSize
  }

  /** What one step does to whether a page is settled, and to a page that stays so. */
  ghost predicate SettledMoves(s: Engine, step: Step, s': Engine, q: nat)
    requires Shape(s) && Shape(s') && q < s.conf.pageCount == s'.conf.pageCount
  {
    && (Settled(s', q) && !Settled(s, q) ==> Completes(s, step, q))
    && (Settled(s', q) && Settled(s, q) ==>
          && s'.places[q] == s.places[q] && s'.counts[q].objects <= s.counts[q].objects
          && (s.closed[q] ==> s'.closed[q]))
  }

  lemma FillMoves(s: Engine, p: nat, data: seq<byte>, t: nat, q: nat)
    requires Shape(s) && p < s.conf.pageCount && t < |s.threads| && FillDefined(s, p, |data|, t) && !PageFull(s, p)
    requires q < s.conf.pageCount
    ensures var s' := FillPage(s, p, data, t);
      && |s'.places| == |s'.fills| == |s'.counts| == |s'.closed| == s.conf.pageCount
      && s'.places[q] == s.places[q] && s'.fills[q].active == s.fills[q].active && s'.closed[q] == s.closed[q]
      && (!s.fills[q].active ==> s'.counts[q] == s.counts[q])
  {
    hide DiskShape, WbufShape, StackShape, ListShape, ThreadsShape, WritersShape, MaintShape;
  }

  lemma AllocateSettles(s: Engine, b: nat, fb: nat, q: nat)
    requires Inv(s) && b < s.conf.pageBuckets && fb < s.conf.pageBuckets && q < s.conf.pageCount
    ensures var s' := AllocatePage(s, b, fb);
      && s'.conf == s.conf && |s'.places| == |s'.fills| == |s'.counts| == |s'.closed| == s.conf.pageCount
      && (!s'.fills[q].active && !s'.places[q].free ==>
            !s.fills[q].active && s'.places[q] == s.places[q] && s'.counts[q] == s.counts[q] &&
              s'.closed[q] == s.closed[q])
  {
    hide Inv, DiskShape, WbufShape, StackShape, ThreadsShape, WritersShape, MaintShape;
    InvShape(s);
    FreeHeads(s);
  }

  lemma FlushSettles(s: Engine, t: nat, q: nat)
    requires Shape(s) && Enabled(s, DoWbufDone(t)) && Shape(WbufDone(s, t)) && q < s.conf.pageCount
    ensures SettledMoves(s, DoWbufDone(t), WbufDone(s, t), q)
  {
    hide ConfOk, DiskShape, WbufShape, StackShape, ListShape, WritersShape, MaintShape;
  }

  lemma MaintSettles(s: Engine, step: Step, q: nat)
    requires Shape(s) && Enabled(s, step) && (step.DoMaintScan? || step.DoMaintEvict?) && q < s.conf.pageCount
    requires Shape(Apply(s, step))
    ensures SettledMoves(s, step, Apply(s, step), q)
  {
    hide ConfOk, DiskShape, WbufShape, StackShape, ListShape, ThreadsShape, WritersShape, Noted;
  }

  lemma WriterSettles(s: Engine, step: Step, s': Engine, q: nat)
    requires Inv(s) && Follows(s, step, s') && Shape(s') && s'.conf == s.conf && q < s.conf.pageCount
    requires step.DoPick? || step.DoNewPage? || step.DoFill?
    ensures SettledMoves(s, step, s', q)
  {
    hide Inv, ConfOk, DiskShape, WbufShape, StackShape, ListShape, ThreadsShape, AllocatePage, FillPage, FillDefined,
      HeadFull, FreeCounted, Completes;
    match step
    case DoPick(b, fb, data) => AllocateSettles(s, b, fb, q);
    case DoNewPage(b) =>
      IdleKeeps(s, b);
      AllocateSettles(s.(writers := s.writers[b := Idle]), b, s.writers[b].freeBucket, q);
    case DoFill(b, t) =>
      if !PageFull(s, s.writers[b].page) {
        FillMoves(s, s.writers[b].page, s.writers[b].data, t, q);
      }
  }

  lemma SettledStep(s: Engine, step: Step, s': Engine, q: nat)
    requires Inv(s) && Follows(s, step, s') && q < s.conf.pageCount
    ensures Shape(s') && s'.conf == s.conf && SettledMoves(s, step, s', q)
  {
    hide Inv, ConfOk, DiskShape, WbufShape, StackShape, ListShape, ThreadsShape, Pick, AllocatePage, FillPage,
      FillDefined, Readable, InWbuf, WbufReadSafe, Noted, HeadFull, FreeCounted, Completes, WbufDone, MaintScan,
      MaintEvict, PageFull;
    StepConf(s, step, s');
    StepKeeps(s, step);
    InvShape(s');
    if step.DoPick? || step.DoNewPage? || step.DoFill? {
      WriterSettles(s, step, s', q);
    } else if step.DoWbufDone? {
      FlushSettles(s, step.t, q);
    } else if step.DoMaintScan? || step.DoMaintEvict? {
      MaintSettles(s, step, q);
    }
  }

  /** A client closes page q under its version, or deletes all it still counts. */
  ghost predicate Spoils(s: Engine, step: Step, q: nat)
    requires Shape(s) && q < s.conf.pageCount
  {
    || (step.DoClose? && step.p == q && step.v == s.places[q].version)
    || (step.DoDelete? && step.p == q && step.v == s.places[q].version && s.counts[q].objects <= step.count)
  }

  /** What an evictable page is after a step. */
  ghost predicate StaysUnless(s: Engine, step: Step, s': Engine, q: nat)
    requires Shape(s) && Shape(s') && q < s.conf.pageCount == s'.conf.pageCount
  {
    Evictable(s, q) ==> s'.places[q] == s.places[q] && (Evictable(s', q) <==> !Spoils(s, step, q))
  }

  lemma AllocateSpares(s: Engine, b: nat, fb: nat, q: nat)
    requires Inv(s) && b < s.conf.pageBuckets && fb < s.conf.pageBuckets && q < s.conf.pageCount && !s.places[q].free
    ensures var s' := AllocatePage(s, b, fb);
      && s'.conf == s.conf && |s'.places| == |s'.fills| == |s'.counts| == |s'.closed| == s.conf.pageCount
      && s'.places[q] == s.places[q] && s'.fills[q] == s.fills[q] && s'.counts[q] == s.counts[q]
      && s'.closed[q] == s.closed[q]
  {
    hide Inv, DiskShape, WbufShape, StackShape, ThreadsShape, WritersShape, MaintShape;
    InvShape(s);
    FreeHeads(s);
  }

  lemma WriterSpares(s: Engine, step: Step, s': Engine, q: nat)
    requires Inv(s) && Follows(s, step, s') && Shape(s') && s'.conf == s.conf && q < s.conf.pageCount
    requires step.DoPick? || step.DoNewPage? || step.DoFill?
    ensures StaysUnless(s, step, s', q)
  {
    hide Inv, ConfOk, DiskShape, WbufShape, StackShape, ListShape, ThreadsShape, AllocatePage, FillPage, FillDefined,
      HeadFull, FreeCounted;
    if Evictable(s, q) {
      match step
      case DoPick(b, fb, data) => AllocateSpares(s, b, fb, q);
      case DoNewPage(b) =>
        IdleKeeps(s, b);
        AllocateSpares(s.(writers := s.writers[b := Idle]), b, s.writers[b].freeBucket, q);
      case DoFill(b, t) =>
        if !PageFull(s, s.writers[b].page) {
          FillMoves(s, s.writers[b].page, s.writers[b].data, t, q);
        }
    }
  }

  lemma FlushSpares(s: Engine, t: nat, q: nat)
    requires Shape(s) && Enabled(s, DoWbufDone(t)) && Shape(WbufDone(s, t)) && q < s.conf.pageCount
    ensures StaysUnless(s, DoWbufDone(t), WbufDone(s, t), q)
  {
    hide ConfOk, DiskShape, WbufShape, StackShape, ListShape, WritersShape, MaintShape;
  }

  lemma ScanSpares(s: Engine, q: nat)
    requires Shape(s) && Enabled(s, DoMaintScan) && q < s.conf.pageCount && Shape(MaintScan(s))
    ensures StaysUnless(s, DoMaintScan, MaintScan(s), q)
  {
    hide ConfOk, DiskShape, WbufShape, StackShape, ListShape, ThreadsShape, WritersShape, Noted;
  }

  /** An evictable page stays evictable, under its version, exactly through the steps that do not spoil it. */
  lemma EvictableStep(s: Engine, step: Step, s': Engine, q: nat)
    requires Inv(s) && Follows(s, step, s') && q < s.conf.pageCount && !step.DoMaintEvict?
    ensures Shape(s) && Shape(s') && s'.conf == s.conf && StaysUnless(s, step, s', q)
  {
    hide Inv, ConfOk, DiskShape, WbufShape, StackShape, ListShape, ThreadsShape, Pick, AllocatePage, FillPage,
      FillDefined, Readable, InWbuf, WbufReadSafe, Noted, HeadFull, FreeCounted, WbufDone, MaintScan, MaintEvict,
      PageFull;
    StepConf(s, step, s');
    StepKeeps(s, step);
    InvShape(s');
    if step.DoPick? || step.DoNewPage? || step.DoFill? {
      WriterSpares(s, step, s', q);
    } else if step.DoWbufDone? {
      FlushSpares(s, step.t, q);
    } else if step.DoMaintScan? {
      ScanSpares(s, q);
    }
  }

  /** No step from m up to n spoils q. */
  ghost predicate Unspoilt(states: seq<Engine>, steps: seq<Step>, m: nat, n: nat, q: nat) {
    && n <= |steps| && n < |states|
    && forall k :: m <= k < n ==> Shape(states[k]) && q < states[k].conf.pageCount && !Spoils(states[k], steps[k], q)
  }

  /** Forwards: while nothing spoils it, an evictable page stays evictable. */
  lemma {:induction false} StaysEvictable(states: seq<Engine>, steps: seq<Step>, m: nat, n: nat, q: nat)
    requires IsPath(states, steps) && m <= n < |states| && q < states[0].conf.pageCount
    requires forall k :: m <= k < n ==> !steps[k].DoMaintEvict?
    requires Shape(states[m]) && q < states[m].conf.pageCount && Evictable(states[m], q)
    requires Unspoilt(states, steps, m, n, q)
    ensures Shape(states[n]) && q < states[n].conf.pageCount
    ensures Evictable(states[n], q) && states[n].places[q] == states[m].places[q]
    decreases n - m
  {
    hide Inv, Shape, Follows, Evictable, Spoils;
    if m < n {
      StaysEvictable(states, steps, m, n - 1, q);
      PathIsGood(states, steps, n - 1);
      EvictableStep(states[n - 1], steps[n - 1], states[n], q);
    }
  }

  /** Backwards: a page evictable at n has been so, unspoilt, since m or since a flush completed it
      with step done. */
  lemma {:induction false} EvictableSince(states: seq<Engine>, steps: seq<Step>, m: nat, n: nat, q: nat)
    returns (done: nat, since: nat)
    requires IsPath(states, steps) && m <= n < |states| && q < states[0].conf.pageCount
    requires forall k :: m <= k < n ==> !steps[k].DoMaintEvict?
    requires Shape(states[n]) && q < states[n].conf.pageCount && Evictable(states[n], q)
    ensures m <= since <= n && Shape(states[since]) && q < states[since].conf.pageCount
    ensures Evictable(states[since], q) && states[since].places[q] == states[n].places[q]
    ensures Unspoilt(states, steps, since, n, q)
    ensures since == m || (m <= done && since == done + 1 && Completes(states[done], steps[done], q))
    decreases n - m
  {
    hide Inv, Follows, Completes, ConfOk, DiskShape, WbufShape, StackShape, ListShape, ThreadsShape, WritersShape,
      MaintShape;
    done, since := m, n;
    if m < n {
      PathIsGood(states, steps, n - 1);
      SettledStep(states[n - 1], steps[n - 1], states[n], q);
      EvictableStep(states[n - 1], steps[n - 1], states[n], q);
      if Settled(states[n - 1], q) {
        done, since := EvictableSince(states, steps, m, n - 1, q);
      } else {
        done := n - 1;
      }
    }
  }

  /** Step m of the pass completes page q, which the scan has passed.  The page is then evictable and
      older than every page the pass finds evictable, and nothing spoils it before the pass evicts. */
  ghost predicate Overtakes(states: seq<Engine>, steps: seq<Step>, i: nat, j: nat, m: nat, q: nat) {
    && i < m < j < |steps| && j < |states|
    && Completes(states[m], steps[m], q) && states[m].maint.Scanning? && q < states[m].maint.i
    && Shape(states[m + 1]) && q < states[m + 1].conf.pageCount && Evictable(states[m + 1], q)
    && (forall k: nat, p: nat :: k < j && SawEvictable(states, steps, i, k, p) ==>
          states[m + 1].places[q].version < states[k].places[p].version)
    && Unspoilt(states, steps, m + 1, j, q)
  }

  /** An evictable page older than the one noted was completed behind the scan. */
  lemma OlderOvertakes(states: seq<Engine>, steps: seq<Step>, i: nat, j: nat, q: nat) returns (m: nat)
    requires IsPass(states, steps, i, j) && Shape(states[j]) && q < states[j].conf.pageCount && Evictable(states[j], q)
    requires states[j].maint.Scanning? && states[j].maint.low.Some?
    requires states[j].places[q].version < states[j].maint.low.value.version
    ensures Overtakes(states, steps, i, j, m, q)
  {
    hide Inv, DiskShape, WbufShape, StackShape, ListShape, ThreadsShape, WritersShape, IsPath, Completes, MustEvict,
      Found, Unspoilt;
    PathIsGood(states, steps, j);
    ScansAll(states, steps, i, j, q);
    var k: nat :| k < j && Scans(states, steps, i, k, q);
    LowIsOldest(states, steps, i, j);
    var since;
    m, since := EvictableSince(states, steps, k, j, q);
    assert since == k ==> SawEvictable(states, steps, i, k, q);
    ScanLeaves(states, steps, i, j, k, q);
    KnowsTo(states, steps, i, j, m);
    assert Scanned(states, steps, i, m, q);
  }

  lemma ScanLeaves(states: seq<Engine>, steps: seq<Step>, i: nat, j: nat, k: nat, q: nat)
    requires IsPass(states, steps, i, j) && k < j && Scans(states, steps, i, k, q)
    ensures !Completes(states[k], steps[k], q)
  {
    hide IsPath, Shape;
  }

  /** A page that overtakes is evictable, and older than the page noted, when the pass evicts. */
  lemma OvertakenAtEnd(states: seq<Engine>, steps: seq<Step>, i: nat, j: nat, m: nat, q: nat)
    requires IsPass(states, steps, i, j) && Overtakes(states, steps, i, j, m, q)
    requires states[j].maint.Scanning? && states[j].maint.low.Some?
    ensures Shape(states[j]) && q < states[j].conf.pageCount && Evictable(states[j], q)
    ensures states[j].places[q].version < states[j].maint.low.value.version
  {
    hide Inv, Shape, Evictable, IsPath, Completes, Unspoilt, Spoils;
    PathIsGood(states, steps, m + 1);
    StaysEvictable(states, steps, m + 1, j, q);
    LowIsOldest(states, steps, i, j);
  }

  /** The page noted is the oldest evictable one at the moment of eviction exactly unless some page
      overtakes the scan. */
  lemma OldestAtEviction(states: seq<Engine>, steps: seq<Step>, i: nat, j: nat)
    requires IsPass(states, steps, i, j) && states[j].maint.Scanning? && states[j].maint.low.Some?
    ensures Shape(states[j])
    ensures var s := states[j];
      (forall q :: 0 <= q < s.conf.pageCount && Evictable(s, q) ==> s.maint.low.value.version <= s.places[q].version)
      <==> !exists m: nat, q: nat :: Overtakes(states, steps, i, j, m, q)
  {
    hide Inv, ConfOk, FillShape, DiskShape, WbufShape, StackShape, ListShape, ThreadsShape, WritersShape, IsPass,
      Overtakes, Evictable;
    PassGood(states, steps, i, j);
    var s := states[j];
    forall q: nat | q < s.conf.pageCount && Evictable(s, q) && s.places[q].version < s.maint.low.value.version
      ensures exists m: nat :: Overtakes(states, steps, i, j, m, q)
    {
      var m := OlderOvertakes(states, steps, i, j, q);
    }
    forall m: nat, q: nat | Overtakes(states, steps, i, j, m, q)
      ensures q < s.conf.pageCount && Evictable(s, q) && s.places[q].version < s.maint.low.value.version
    {
      OvertakenAtEnd(states, steps, i, j, m, q);
    }
  }

  lemma PassGood(states: seq<Engine>, steps: seq<Step>, i: nat, j: nat)
    requires IsPass(states, steps, i, j)
    ensures j < |states| && Shape(states[j])
  {
    hide IsPath, Shape;
    PathIsGood(states, steps, j);
  }
}
