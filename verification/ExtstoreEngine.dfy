/** The page engine as an object: its initialisation, and the critical sections and thread loops that
    branch or loop, each proved to be steps of the model. */
module ExtstoreEngine {
  import opened Octets
  import opened Sums
  import opened ExtstoreModel
  import opened ExtstoreInvariant
  import opened ExtstorePageProof
  import opened ExtstoreRuns
  import opened ExtstoreEviction
  import opened ExtstoreStores

  class StoreEngine {
    /** The engine struct, its pages and its threads; an assignment to one of its fields is an
        update of that component. */
    var e: Engine

    /** extstore_init: all pages but page 0 go to the free list of their free bucket, lowest on top. */
    constructor (cf: Conf, fbs: seq<nat>, files: seq<seq<byte>>, bufs: seq<seq<byte>>, threadCount: nat)
      requires ConfOk(cf) && 0 < |fbs| == cf.pageCount && (forall p :: 0 <= p < |fbs| ==> fbs[p] < cf.pageBuckets)
      requires DiskShape(cf, files)
      requires |bufs| == cf.wbufCount && forall w :: 0 <= w < |bufs| ==> |bufs[w]| == cf.wbufSize
      ensures Init(e, fbs) && |e.threads| == threadCount && e.conf == cf
    {
      var lists := seq(cf.pageBuckets, (f: nat) => []);
      var n := |fbs|;
      while n > 1
        invariant 1 <= n <= |fbs|
        invariant lists == seq(cf.pageBuckets, (f: nat) => FreeListFrom(fbs, f, n))
      {
        n := n - 1;
        lists := lists[fbs[n] := [n] + lists[fbs[n]]];
      }
      var stack := [];
      for i := 0 to cf.wbufCount
        invariant stack == seq(i, (k: nat) requires k < i => i - 1 - k)
      {
        stack := [i] + stack;
      }
      e := Engine(
        cf,
        seq(|fbs|, (p: nat) requires p < |fbs| => Place(true, 0, fbs[p], 0)),
        seq(|fbs|, (p: nat) => Fill(0, 0, false, None)),
        seq(|fbs|, (p: nat) => Counts(0, 0)),
        seq(|fbs|, (p: nat) => 0),
        seq(|fbs|, (p: nat) => false),
        files,
        seq(cf.wbufCount, (w: nat) requires w < |bufs| => Wbuf(bufs[w], |bufs[w]|, 0, false)),
        stack,
        cf.wbufCount,
        lists,
        seq(cf.pageBuckets, (b: nat) => []),
        |fbs| - 1, 1, 0, 0,
        seq(threadCount, (t: nat) => IoThread([], 0, [], Start)),
        seq(cf.pageBuckets, (b: nat) => Idle),
        Sleeping, map[], [], 0, 0);
    }

    // ------------------------------------------------------------ writing

    /** The rest of extstore_write_request and, if it hands out a buffer, the caller's copy and
        extstore_write; ok is the return code 0. */
    method FillPicked(b: nat, t: nat) returns (ok: bool)
      requires Shape(e) && Enabled(e, DoFill(b, t)) && Defined(e, DoFill(b, t))
      modifies this
      ensures e == Apply(old(e), DoFill(b, t))
      ensures ok <==> Stores(old(e), b)
      ensures StoresExactly(old(e), b, e)
    {
      hide StoresExactly, SubmitWbuf, AllocateWbuf, Append, RowShape, DiskShape, StackShape, ListShape, ThreadsShape,
        MaintShape;
      FillStores(e, b, t, Apply(e, DoFill(b, t)));
      StoredCounts(e, b, Apply(e, DoFill(b, t)));
      ok := false;
      var w := e.writers[b];
      var p, len := w.page, |w.data|;
      var f := e.fills[p];
      if !f.active || ((f.wbuf.None? || e.wbufs[f.wbuf.value].full) && f.reserved >= e.conf.pageSize) {
        e := e.(writers := e.writers[b := NeedPage(w.freeBucket)]);
        return;
      }
      if f.wbuf.Some? && e.wbufs[f.wbuf.value].free < len && !e.wbufs[f.wbuf.value].full {
        ShipCounts(e, p, t);
        e := SubmitWbuf(e, p, t);
      }
      f := e.fills[p];
      if f.wbuf.None? && f.reserved < e.conf.pageSize {
        BufferCounts(e, p);
        e := AllocateWbuf(e, p);
      }
      f := e.fills[p];
      if f.wbuf.Some? && !e.wbufs[f.wbuf.value].full && e.wbufs[f.wbuf.value].free >= len {
        AppendCounts(e, p, w.data);
        e := Append(e, p, w.data);
        ok := true;
      }
      e := e.(writers := e.writers[b := Idle]);
    }

    // ------------------------------------------------------------ clients

    method Delete(p: nat, v: nat, count: nat, bytes: nat) returns (ok: bool)
      requires Shape(e) && p < e.conf.pageCount
      modifies this
      ensures e == ExtstoreModel.Delete(old(e), p, v, count, bytes)
      ensures ok <==> !e.closed[p] && e.places[p].version == v
    {
      hide ConfOk, FillShape, DiskShape, WbufShape, StackShape, ListShape, ThreadsShape, WritersShape, MaintShape;
      ok := !e.closed[p] && e.places[p].version == v;
      if ok {
        var was := e.counts[p];
        var c := was;
        if c.bytes >= bytes {
          c := c.(bytes := c.bytes - bytes);
        } else {
          c := c.(bytes := 0);
        }
        if c.objects >= count {
          c := c.(objects := c.objects - count);
        } else {
          c := c.(objects := 0);
        }
        e := e.(counts := e.counts[p := c]);
        e := e.(bytesUsed := e.bytesUsed - bytes);
        e := e.(objectsUsed := e.objectsUsed - count);
        e := e.(excessBytes := e.excessBytes + bytes - (was.bytes - c.bytes));
        e := e.(excessObjects := e.excessObjects + count - (was.objects - c.objects));
      }
    }

    // ------------------------------------------------------------ IO threads

    /** The section under the page lock of a read; doOp says that a pread must follow. */
    method CheckRead(t: nat) returns (doOp: bool)
      requires Shape(e) && Enabled(e, DoReadCheck(t)) && Defined(e, DoReadCheck(t))
      modifies this
      ensures e == ReadCheck(old(e), t)
      ensures doOp <==> e.threads[t].phase.Pinned?
    {
      hide ConfOk, DiskShape, StackShape, ListShape, WritersShape, MaintShape;
      var th := e.threads[t];
      var io := th.batch[0];
      var pl, f := e.places[io.page], e.fills[io.page];
      doOp := false;
      if !pl.free && !e.closed[io.page] && pl.version == io.version {
        if f.active && io.offset >= f.written {
          var wb := e.wbufs[f.wbuf.value];
          var at := io.offset - wb.offset;
          e := e.(results := e.results + [Data(io, wb.buf[at..at + io.len])]);
          e := e.(threads := e.threads[t := th.(batch := th.batch[1..], phase := Start)]);
        } else {
          e := e.(refs := e.refs[io.page := e.refs[io.page] + 1]);
          doOp := true;
          e := e.(threads := e.threads[t := th.(phase := Pinned)]);
        }
      } else {
        e := e.(results := e.results + [Miss(io)]);
        e := e.(threads := e.threads[t := th.(batch := th.batch[1..], phase := Start)]);
      }
    }

    // ------------------------------------------------------------ maintenance

    /** What the maintenance thread does with page i under its lock. */
    method ScanPage(i: nat, low: Option<Low>, evict: bool) returns (low': Option<Low>, evict': bool)
      requires Shape(e) && Enabled(e, DoMaintScan)
      requires e.maint.i == i && e.maint.low == low && e.maint.evict == evict
      modifies this
      ensures e == MaintScan(old(e)) && low' == e.maint.low && evict' == e.maint.evict
    {
      hide ConfOk, DiskShape, WbufShape, StackShape, ListShape, ThreadsShape, WritersShape, FreePage;
      var cands := e.maint.cands;
      low', evict' := low, evict;
      var f, pl, c := e.fills[i], e.places[i], e.counts[i];
      if !(f.active || pl.free) {
        if c.objects > 0 && !e.closed[i] {
          if pl.freeBucket == 0 && (low.None? || pl.version < low.value.version) {
            low' := Some(Low(i, pl.version));
          }
          if pl.freeBucket == 0 {
            cands := cands + {Low(i, pl.version)};
          }
        }
        if (c.objects == 0 || e.closed[i]) && e.refs[i] == 0 {
          e := FreePage(e, i);
          evict' := false;
        }
      }
      e := e.(maint := Scanning(i + 1, evict', low', cands));
    }

    method EvictPage(p: nat)
      requires Shape(e) && p < e.conf.pageCount
      modifies this
      ensures e == Evict(old(e), p)
    {
      hide FreePage;
      if !e.closed[p] {
        e := e.(closed := e.closed[p := true]);
        if e.refs[p] == 0 {
          e := FreePage(e, p);
        }
      }
    }

    /** The scan of the maintenance thread over all pages. */
    method ScanAll(evict: bool) returns (low: Option<Low>, evict': bool, ghost states: seq<Engine>)
      requires Inv(e) && e.maint == Scanning(0, evict, None, {})
      modifies this
      ensures Inv(e) && e.conf == old(e.conf)
      ensures e.maint.Scanning? && e.maint.i == e.conf.pageCount && e.maint.low == low && e.maint.evict == evict'
      ensures |states| == e.conf.pageCount + 1 && states[0] == old(e) && states[e.conf.pageCount] == e
      ensures forall k :: 0 <= k < e.conf.pageCount ==> Follows(states[k], DoMaintScan, states[k + 1])
    {
      hide Inv, Shape, MaintScan, Follows;
      low, evict', states := None, evict, [e];
      var i := 0;
      while i < e.conf.pageCount
        invariant i <= e.conf.pageCount && e.conf == old(e.conf) && Inv(e)
        invariant e.maint.Scanning? && e.maint.i == i && e.maint.evict == evict' && e.maint.low == low
        invariant |states| == i + 1 && states[0] == old(e) && states[i] == e
        invariant forall k :: 0 <= k < i ==> Follows(states[k], DoMaintScan, states[k + 1])
      {
        InvShape(e);
        MaintScanKeeps(e);
        ScanFollows(e);
        low, evict' := ScanPage(i, low, evict');
        states := states + [e];
        i := i + 1;
      }
    }

    /** One round of the maintenance thread without other threads in between: a pass of the model,
        and one in which the page noted is the oldest evictable page also when it is evicted. */
    method MaintPass() returns (ghost states: seq<Engine>)
      requires Inv(e) && e.maint.Sleeping?
      modifies this
      ensures Inv(e) && e.conf == old(e.conf) && |states| == e.conf.pageCount + 3
      ensures states[0] == old(e) && states[e.conf.pageCount + 2] == e
      ensures IsPass(states, PassSteps(e.conf.pageCount), 0, e.conf.pageCount + 1)
      ensures var s := states[e.conf.pageCount + 1];
        s.maint.Scanning? && s.maint.evict && s.maint.low.Some? ==>
          && Shape(s)
          && forall q :: 0 <= q < s.conf.pageCount && Evictable(s, q) ==>
            s.maint.low.value.version <= s.places[q].version
    {
      hide Inv, Shape, MaintScan, Follows, Evict, IsPass, Evictable;
      ghost var first := e;
      InvShape(first);
      StartKeeps(first);
      StartFollows(first);
      var evict := e.pageFree == 0 || e.freeLists[0] == [];
      e := e.(maint := Scanning(0, evict, None, {}));
      ghost var scans;
      var low, evict';
      low, evict', scans := ScanAll(evict);
      ghost var s := e;
      EvictFollows(s);
      e := e.(maint := Sleeping);
      if evict' && low.Some? {
        EvictPage(low.value.page);
      }
      states := [first] + scans + [e];
      PassOf(states, scans, first, e);
    }
  }

  lemma StoredCounts(s: Engine, b: nat, s': Engine)
    requires Shape(s) && b < s.conf.pageBuckets && s.writers[b].Picked? && StoresExactly(s, b, s')
    ensures s'.objectsUsed == s.objectsUsed + if Stores(s, b) then 1 else 0
  {
    hide Shape, Stores, Position;
  }

  lemma ShipCounts(s: Engine, p: nat, t: nat)
    requires Shape(s) && p < s.conf.pageCount && t < |s.threads|
    requires s.fills[p].wbuf.Some? && s.places[p].version in s.logs
    ensures var m := SubmitWbuf(s, p, t);
      m.objectsUsed == s.objectsUsed && m.conf == s.conf && m.writers == s.writers && m.fills == s.fills
  {
    hide Shape;
  }

  lemma BufferCounts(s: Engine, p: nat)
    requires Shape(s) && p < s.conf.pageCount
    ensures var m := AllocateWbuf(s, p);
      && m.objectsUsed == s.objectsUsed && m.conf == s.conf && m.writers == s.writers
      && |m.fills| == |s.fills| && (m.fills[p].wbuf.Some? ==> s.wbufStack != [] || s.fills[p].wbuf.Some?)
  {
    hide ConfOk, RowShape, DiskShape, WbufShape, ListShape, ThreadsShape, MaintShape;
  }

  lemma AppendCounts(s: Engine, p: nat, data: seq<byte>)
    requires Shape(s) && p < s.conf.pageCount && s.places[p].version in s.logs && HasRoom(s, p, |data|)
    ensures var m := Append(s, p, data);
      m.objectsUsed == s.objectsUsed + 1 && m.conf == s.conf && m.writers == s.writers
  {
    hide Shape;
  }

  ghost function PassSteps(n: nat): seq<Step> {
    [DoMaintStart] + seq(n, (k: nat) => DoMaintScan) + [DoMaintEvict]
  }

  lemma PassOf(states: seq<Engine>, scans: seq<Engine>, first: Engine, last: Engine)
    requires scans != [] && states == [first] + scans + [last] && Inv(first)
    requires var n := |scans| - 1;
      && Follows(first, DoMaintStart, scans[0]) && Follows(scans[n], DoMaintEvict, last)
      && forall k :: 0 <= k < n ==> Follows(scans[k], DoMaintScan, scans[k + 1])
    ensures var n := |scans| - 1;
      && IsPass(states, PassSteps(n), 0, n + 1)
      && var s := states[n + 1];
         s.maint.Scanning? && s.maint.evict && s.maint.low.Some? ==>
           && Shape(s)
           && forall q :: 0 <= q < s.conf.pageCount && Evictable(s, q) ==>
             s.maint.low.value.version <= s.places[q].version
  {
    hide Inv, Shape, Follows, Evictable, Overtakes;
    var n, steps := |scans| - 1, PassSteps(|scans| - 1);
    forall k | 0 <= k < |steps|
      ensures Follows(states[k], steps[k], states[k + 1])
    {
      if 0 < k <= n {
        assert states[k] == scans[k - 1] && states[k + 1] == scans[k];
        assert Follows(scans[k - 1], DoMaintScan, scans[k - 1 + 1]);
      }
    }
    var s := states[n + 1];
    if s.maint.Scanning? && s.maint.evict && s.maint.low.Some? {
      var j := n + 1;
      OldestAtEviction(states, steps, 0, j);
      forall m: nat, q: nat
        ensures !Overtakes(states, steps, 0, j, m, q)
      {
        NoFlush(states, steps, n, m, q);
      }
    }
  }

  lemma NoFlush(states: seq<Engine>, steps: seq<Step>, n: nat, m: nat, q: nat)
    requires steps == PassSteps(n)
    ensures !Overtakes(states, steps, 0, n + 1, m, q)
  {
    hide Evictable, Shape;
  }

  lemma StartFollows(s: Engine)
    requires Shape(s) && s.maint.Sleeping?
    ensures Follows(s, DoMaintStart, s.(maint := Scanning(0, MustEvict(s), None, {})))
  {
  }

  lemma ScanFollows(s: Engine)
    requires Shape(s) && Enabled(s, DoMaintScan)
    ensures Follows(s, DoMaintScan, MaintScan(s))
    ensures var s' := MaintScan(s); s'.maint.Scanning? && s'.maint.i == s.maint.i + 1 && s'.conf == s.conf
  {
  }

  lemma EvictFollows(s: Engine)
    requires Inv(s) && s.maint.Scanning? && s.maint.i == s.conf.pageCount
    ensures s.maint.low.Some? ==> s.maint.low.value.page < s.conf.pageCount
    ensures Shape(s.(maint := Sleeping))
    ensures var s' := if s.maint.evict && s.maint.low.Some? then Evict(s.(maint := Sleeping), s.maint.low.value.page)
                      else s.(maint := Sleeping);
      Inv(s') && Follows(s, DoMaintEvict, s') && s'.conf == s.conf
  {
    hide Inv;
    InvShape(s);
    MaintEvictKeeps(s);
    SetMaintKeeps(s, Sleeping);
    InvShape(s.(maint := Sleeping));
  }
}
