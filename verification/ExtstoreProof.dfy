/** Every critical section of the page engine keeps the invariant. */
module ExtstoreProof {
  import opened Octets
  import opened Sums
  import opened Arith
  import opened ExtstoreModel
  import opened ExtstoreInvariant

  // ---------------------------------------------------------------- arithmetic of buffer extents

  lemma NextMultiple(w: nat, a: nat)
    requires 0 < w && a % w == 0
    ensures (a + w) % w == 0
  {
    var q := a / w;
    assert a == w * q;
    assert a + w == w * (q + 1) + 0;
    DivModUnique(w, q + 1, 0);
  }

  /** Two multiples of w that differ, differ by at least w. */
  lemma MultipleStep(w: nat, a: nat, b: nat)
    requires 0 < w && a % w == 0 && b % w == 0 && a < b
    ensures a + w <= b
  {
    var i, j := a / w, b / w;
    assert a == w * i && b == w * j;
    if j < i {
      MulGrows(w, j, i);
    } else if i < j {
      MulGrows(w, i, j);
    }
  }

  /** A range inside one buffer extent that starts below a buffer boundary ends below it. */
  lemma BlockBelow(w: nat, mark: nat, offset: nat, len: nat)
    requires 0 < w && mark % w == 0 && offset < mark && InBlock(w, offset, len)
    ensures offset + len <= mark
  {
    var start := offset - offset % w;
    DivModUnique(w, offset / w, 0);
    MultipleStep(w, start, mark);
  }

  lemma InBlockAt(w: nat, mark: nat, pos: nat, len: nat)
    requires 0 < w && mark % w == 0 && pos + len <= w
    ensures InBlock(w, mark + pos, len)
  {
    if pos < w {
      DivModUnique(w, mark / w, pos);
    } else {
      DivModUnique(w, mark / w + 1, 0);
    }
  }

  // ---------------------------------------------------------------- counting over IO threads

  /** An IO of a thread is outstanding. */
  lemma Outstanding(threads: seq<IoThread>, fills: seq<Fill>, wbufs: seq<Wbuf>, t: nat)
    requires WritesInv(threads, fills, wbufs) && t < |threads|
    requires threads[t].batch != [] && threads[t].batch[0].Write?
    ensures Shipped(fills, wbufs, threads[t].batch[0])
  {
    var io := threads[t].batch[0];
    SumAtLeast(threads, t, Occurrences(io));
  }

  /** No two threads work on the same buffer, or on buffers of the same page. */
  lemma OneFlusher(threads: seq<IoThread>, fills: seq<Fill>, wbufs: seq<Wbuf>, t: nat, u: nat)
    requires WritesInv(threads, fills, wbufs) && t < |threads| && u < |threads| && t != u
    requires threads[t].batch != [] && threads[t].batch[0].Write?
    requires threads[u].batch != [] && threads[u].batch[0].Write?
    ensures threads[t].batch[0].page != threads[u].batch[0].page
  {
    var io := threads[t].batch[0];
    Outstanding(threads, fills, wbufs, t);
    Outstanding(threads, fills, wbufs, u);
    if io.page == threads[u].batch[0].page {
      assert io == threads[u].batch[0];
      SumAtLeastTwo(threads, if t < u then t else u, if t < u then u else t, Occurrences(io));
    }
  }

  lemma WritesFrame(threads: seq<IoThread>, fills: seq<Fill>, wbufs: seq<Wbuf>, t: nat, th: IoThread)
    requires WritesInv(threads, fills, wbufs) && t < |threads|
    requires forall io: Io :: io.Write? ==> Occurrences(io)(th) == Occurrences(io)(threads[t])
    ensures WritesInv(threads[t := th], fills, wbufs)
  {
    forall io: Io | io.Write?
      ensures Sum(threads[t := th], Occurrences(io)) == if Shipped(fills, wbufs, io) then 1 else 0
    {
      SumUpdate(threads, t, th, Occurrences(io));
    }
  }

  lemma RefsFrame(threads: seq<IoThread>, refs: seq<int>, t: nat, th: IoThread)
    requires RefsInv(threads, refs) && t < |threads|
    requires forall p :: PinsPage(th, p) <==> PinsPage(threads[t], p)
    ensures RefsInv(threads[t := th], refs)
  {
    forall p | 0 <= p < |refs|
      ensures refs[p] == Sum(threads[t := th], Pins(p))
    {
      SumUpdate(threads, t, th, Pins(p));
    }
  }

  /** Taking (d = 1) or dropping (d = -1) one reference. */
  lemma RefsShift(threads: seq<IoThread>, refs: seq<int>, t: nat, th: IoThread, p: nat, d: int)
    requires RefsInv(threads, refs) && t < |threads| && p < |refs|
    requires forall q :: Pins(q)(th) - Pins(q)(threads[t]) == if q == p then d else 0
    ensures RefsInv(threads[t := th], refs[p := refs[p] + d])
  {
    forall q | 0 <= q < |refs|
      ensures refs[p := refs[p] + d][q] == Sum(threads[t := th], Pins(q))
    {
      SumUpdate(threads, t, th, Pins(q));
    }
  }

  /** A page without references is read by no thread. */
  lemma Unpinned(threads: seq<IoThread>, refs: seq<int>, p: nat, t: nat)
    requires RefsInv(threads, refs) && p < |refs| && refs[p] == 0 && t < |threads|
    ensures !PinsPage(threads[t], p)
  {
    SumAtLeast(threads, t, Pins(p));
  }

  /** Replacing one thread: only its own conditions have to be checked. */
  lemma SwapThread(s: Engine, t: nat, th: IoThread)
    requires ConfOk(s.conf) && t < |s.threads|
    requires ThreadsShape(s.conf, s.threads) && FlushesInv(s.threads, s.disk, s.wbufs)
    requires PinsOk(s.threads, s.places, s.fills) && ReadsInv(s.conf, s.threads, s.logs) && DepthInv(s.threads)
    requires ThreadShape(s.conf, th) && FlushOk(th, s.disk, s.wbufs) && PinOk(th, s.places, s.fills)
    requires ReadsOk(s.conf, th, s.logs) && th.depth == |th.queue|
    ensures var threads := s.threads[t := th];
      && ThreadsShape(s.conf, threads) && FlushesInv(threads, s.disk, s.wbufs)
      && PinsOk(threads, s.places, s.fills) && ReadsInv(s.conf, threads, s.logs) && DepthInv(threads)
  {
    hide ThreadShape, FlushOk, PinOk, ReadsOk;
  }

  lemma BatchStep(batch: seq<Io>)
    requires batch != []
    ensures multiset(batch) == multiset{batch[0]} + multiset(batch[1..])
  {
    assert batch == [batch[0]] + batch[1..];
  }

  // ---------------------------------------------------------------- clients

  lemma DeleteKeeps(s: Engine, p: nat, v: nat, count: nat, bytes: nat)
    requires Inv(s) && p < s.conf.pageCount
    ensures Inv(Delete(s, p, v, count, bytes))
  {
    hide FreeListsInv, BucketsInv, VersionsInv, PagesInv, LogsInv, WbufInv, IoStackInv, WritesInv, FlushesInv,
      PinsOk, RefsInv, ReadsInv, DepthInv, WritersInv, ResultsInv, MaintInv;
    var s' := Delete(s, p, v, count, bytes);
    SumUpdate(s.counts, p, s'.counts[p], Objects());
    SumUpdate(s.counts, p, s'.counts[p], Bytes());
  }

  lemma CloseKeeps(s: Engine, p: nat, v: nat)
    requires Inv(s) && p < s.conf.pageCount
    ensures Inv(ClosePage(s, p, v))
  {
    hide FreeListsInv, BucketsInv, VersionsInv, PagesInv, IdleInv, LogsInv, WbufInv, IoStackInv, WritesInv,
      FlushesInv, PinsOk, RefsInv, ReadsInv, DepthInv, StatsInv, WritersInv, MaintInv;
  }

  lemma SubmittedThread(c: Conf, th: IoThread, ios: seq<Io>, logs: map<nat, Log>, version: nat)
    requires ConfOk(c) && LogsInv(c, logs, version) && ThreadShape(c, th) && ReadsOk(c, th, logs)
    requires forall k :: 0 <= k < |ios| ==> ReadValid(c, logs, ios[k])
    ensures var th' := th.(queue := th.queue + ios, depth := th.depth + |ios|);
      && ThreadShape(c, th') && ReadsOk(c, th', logs)
      && (forall io: Io :: io.Write? ==> Occurrences(io)(th') == Occurrences(io)(th))
  {
  }

  lemma SubmitReadsKeeps(s: Engine, t: nat, ios: seq<Io>)
    requires Inv(s) && t < |s.threads|
    requires forall k :: 0 <= k < |ios| ==> ReadValid(s.conf, s.logs, ios[k])
    ensures Inv(SubmitReads(s, t, ios))
  {
    hide FreeListsInv, BucketsInv, VersionsInv, PagesInv, IdleInv, LogsInv, WbufInv, IoStackInv, WritesInv,
      RefsInv, StatsInv, WritersInv, ResultsInv, MaintInv, ReadsOk, ThreadShape;
    var th' := SubmitReads(s, t, ios).threads[t];
    SubmittedThread(s.conf, s.threads[t], ios, s.logs, s.version);
    SwapThread(s, t, th');
    WritesFrame(s.threads, s.fills, s.wbufs, t, th');
    RefsFrame(s.threads, s.refs, t, th');
  }

  lemma TakeBatchKeeps(s: Engine, t: nat)
    requires Inv(s) && t < |s.threads| && s.threads[t].queue != [] && s.threads[t].batch == []
    ensures Inv(TakeBatch(s, t))
  {
    hide FreeListsInv, BucketsInv, VersionsInv, PagesInv, IdleInv, LogsInv, WbufInv, IoStackInv, WritesInv,
      RefsInv, StatsInv, WritersInv, ResultsInv, MaintInv;
    var th, th' := s.threads[t], TakeBatch(s, t).threads[t];
    assert th.queue == th'.batch + th'.queue;
    SwapThread(s, t, th');
    WritesFrame(s.threads, s.fills, s.wbufs, t, th');
    RefsFrame(s.threads, s.refs, t, th');
  }

  // ---------------------------------------------------------------- reads

  lemma NextThread(s: Engine, t: nat)
    requires Inv(s) && t < |s.threads| && s.threads[t].batch != []
    ensures var th' := Next(s.threads[t]);
      && ThreadShape(s.conf, th') && FlushOk(th', s.disk, s.wbufs) && PinOk(th', s.places, s.fills)
      && ReadsOk(s.conf, th', s.logs) && th'.depth == |th'.queue|
      && (forall io ::
            Occurrences(io)(s.threads[t]) == Occurrences(io)(th') + if io == s.threads[t].batch[0] then 1 else 0)
      && (forall p :: !PinsPage(th', p))
  {
    hide FreeListsInv, BucketsInv, VersionsInv, PagesInv, IdleInv, LogsInv, WbufInv, IoStackInv, WritesInv,
      RefsInv, StatsInv, WritersInv, ResultsInv, MaintInv;
    var th, th' := s.threads[t], Next(s.threads[t]);
    BatchStep(th.batch);
    assert ReadsOk(s.conf, th, s.logs);
    forall k | 0 <= k < |th'.batch|
      ensures th'.batch[k] == th.batch[k + 1]
    {
    }
  }

  /** What a reader gets, wherever it is sent: the bytes of its version.  The three cases of the
      section under the page lock. */
  lemma ReadSource(c: Conf, f: Fill, disk: seq<byte>, wbufs: seq<Wbuf>, logs: map<nat, Log>, io: Io)
    requires ConfOk(c) && ReadValid(c, logs, io)
    requires PageOk(c, f, disk, wbufs, logs[io.version].bytes)
    ensures f.active && io.offset >= f.written ==>
      && f.wbuf.Some?
      && var wb := wbufs[f.wbuf.value];
         && wb.offset <= io.offset < f.written + |wb.buf|
         && var at := io.offset - wb.offset;
            && at + io.len <= |wb.buf|
            && DataOf(logs, io, wb.buf[at..at + io.len])
    ensures !(f.active && io.offset >= f.written) ==> io.offset + io.len <= f.written
  {
    var log := logs[io.version].bytes;
    if f.active && io.offset >= f.written {
      var wb := wbufs[f.wbuf.value];
      var at := io.offset - wb.offset;
      assert wb.buf[at..at + io.len] == wb.buf[..|log| - f.written][at..at + io.len];
      assert log[f.written..][at..at + io.len] == log[io.offset..io.offset + io.len];
    } else if f.active {
      BlockBelow(c.wbufSize, f.written, io.offset, io.len);
    }
  }

  /** The asserts of _read_from_wbuf hold, and its copy stays inside the buffer. */
  lemma WbufReadIsSafe(s: Engine, t: nat)
    requires Inv(s) && t < |s.threads| && s.threads[t].batch != [] && s.threads[t].batch[0].Read?
    ensures var io := s.threads[t].batch[0];
      && io.page < s.conf.pageCount && ReadValid(s.conf, s.logs, io)
      && (Readable(s, io) ==>
            && PageOk(s.conf, s.fills[io.page], s.disk[io.page], s.wbufs, s.logs[io.version].bytes)
            && (InWbuf(s, io) ==> WbufReadSafe(s, io)))
  {
    hide FreeListsInv, BucketsInv, VersionsInv, IdleInv, LogsInv, WbufInv, IoStackInv, WritesInv,
      RefsInv, StatsInv, WritersInv, ResultsInv, MaintInv, FlushesInv, PinsOk, DepthInv;
    var io := s.threads[t].batch[0];
    assert ReadsOk(s.conf, s.threads[t], s.logs);
    if Readable(s, io) {
      assert PageInv(s.conf, s.places[io.page], io.page, s.fills[io.page], s.disk[io.page], s.wbufs, s.logs);
      ReadSource(s.conf, s.fills[io.page], s.disk[io.page], s.wbufs, s.logs, io);
    }
  }

  /** A read that needs no reference completes. */
  lemma ReadFinishes(s: Engine, t: nat, r: Completed)
    requires Inv(s) && t < |s.threads| && s.threads[t].batch != [] && s.threads[t].batch[0].Read?
    requires s.threads[t].phase.Start? && ResultOk(r, s.logs, s.places, s.closed)
    ensures Inv(s.(threads := s.threads[t := Next(s.threads[t])], results := s.results + [r]))
  {
    hide FreeListsInv, BucketsInv, VersionsInv, PagesInv, IdleInv, LogsInv, WbufInv, IoStackInv, WritesInv,
      RefsInv, StatsInv, WritersInv, MaintInv, PinsOk, FlushesInv, DepthInv, ReadsInv, ThreadsShape, ResultOk,
      ThreadShape, ReadsOk, PinOk, FlushOk;
    var th := s.threads[t];
    NextThread(s, t);
    SwapThread(s, t, Next(th));
    WritesFrame(s.threads, s.fills, s.wbufs, t, Next(th));
    RefsFrame(s.threads, s.refs, t, Next(th));
  }

  lemma ReadCheckKeeps(s: Engine, t: nat)
    requires Inv(s) && t < |s.threads| && s.threads[t].batch != [] && s.threads[t].batch[0].Read?
    requires s.threads[t].phase.Start?
    ensures var io := s.threads[t].batch[0]; Readable(s, io) && InWbuf(s, io) ==> WbufReadSafe(s, io)
    ensures Inv(ReadCheck(s, t))
  {
    hide Inv, PageOk;
    WbufReadIsSafe(s, t);
    var io := s.threads[t].batch[0];
    VersionsIssued(s, io.version, io.page);
    if !Readable(s, io) {
      ReadFinishes(s, t, Miss(io));
    } else {
      ReadSource(s.conf, s.fills[io.page], s.disk[io.page], s.wbufs, s.logs, io);
      if InWbuf(s, io) {
        var wb := s.wbufs[s.fills[io.page].wbuf.value];
        var at := io.offset - wb.offset;
        ReadFinishes(s, t, Data(io, wb.buf[at..at + io.len]));
      } else {
        ReadPins(s, t);
      }
    }
  }

  lemma VersionsIssued(s: Engine, v: nat, p: nat)
    requires Inv(s) && v in s.logs && p < s.conf.pageCount
    ensures Shape(s)
    ensures 0 < v < s.version && (s.places[p].free ==> s.places[p].version != v)
  {
    hide FreeListsInv, BucketsInv, PagesInv, IdleInv, WbufInv, IoStackInv, WritesInv,
      RefsInv, StatsInv, WritersInv, MaintInv, PinsOk, FlushesInv, DepthInv, ReadsInv, ResultsInv;
  }

  lemma ReadPins(s: Engine, t: nat)
    requires Inv(s) && t < |s.threads| && s.threads[t].batch != [] && s.threads[t].batch[0].Read?
    requires s.threads[t].phase.Start?
    requires var io := s.threads[t].batch[0];
      Readable(s, io) && !InWbuf(s, io) && io.offset + io.len <= s.fills[io.page].written
    ensures Inv(ReadCheck(s, t))
  {
    hide FreeListsInv, BucketsInv, VersionsInv, PagesInv, LogsInv, WbufInv, IoStackInv, WritesInv,
      RefsInv, StatsInv, WritersInv, MaintInv, ResultsInv;
    var th, io := s.threads[t], s.threads[t].batch[0];
    var th' := th.(phase := Pinned);
    assert ThreadShape(s.conf, th) && ReadsOk(s.conf, th, s.logs);
    SwapThread(s, t, th');
    WritesFrame(s.threads, s.fills, s.wbufs, t, th');
    RefsShift(s.threads, s.refs, t, th', io.page, 1);
  }

  lemma PreadKeeps(s: Engine, t: nat)
    requires Inv(s) && t < |s.threads| && s.threads[t].phase.Pinned?
    ensures s.threads[t].batch[0].offset + s.threads[t].batch[0].len <= s.conf.pageSize
    ensures Inv(Pread(s, t))
  {
    hide FreeListsInv, BucketsInv, VersionsInv, IdleInv, LogsInv, WbufInv, IoStackInv, WritesInv,
      RefsInv, StatsInv, WritersInv, MaintInv, ResultsInv;
    var th, io := s.threads[t], s.threads[t].batch[0];
    assert ThreadShape(s.conf, th) && ReadsOk(s.conf, th, s.logs) && PinOk(th, s.places, s.fills);
    var f, disk, log := s.fills[io.page], s.disk[io.page], s.logs[io.version].bytes;
    assert PageInv(s.conf, s.places[io.page], io.page, f, disk, s.wbufs, s.logs);
    assert disk[io.offset..io.offset + io.len] == disk[..f.written][io.offset..io.offset + io.len];
    assert log[io.offset..io.offset + io.len] == log[..f.written][io.offset..io.offset + io.len];
    var th' := th.(phase := Got(disk[io.offset..io.offset + io.len]));
    SwapThread(s, t, th');
    WritesFrame(s.threads, s.fills, s.wbufs, t, th');
    RefsFrame(s.threads, s.refs, t, th');
  }

  lemma GotFacts(s: Engine, t: nat)
    requires Inv(s) && t < |s.threads| && s.threads[t].phase.Got?
    ensures var io := s.threads[t].batch[0];
      && DataOf(s.logs, io, s.threads[t].phase.data)
      && !s.places[io.page].free
      && (forall p :: Pins(p)(s.threads[t]) == if p == io.page then 1 else 0)
  {
    hide FreeListsInv, BucketsInv, VersionsInv, PagesInv, IdleInv, LogsInv, WbufInv, IoStackInv, WritesInv,
      RefsInv, StatsInv, WritersInv, MaintInv, ResultsInv, FlushesInv;
  }

  lemma ReleaseKeeps(s: Engine, t: nat)
    requires Inv(s) && t < |s.threads| && s.threads[t].phase.Got?
    ensures Inv(Release(s, t))
  {
    hide FreeListsInv, BucketsInv, VersionsInv, PagesInv, LogsInv, WbufInv, IoStackInv, WritesInv,
      RefsInv, StatsInv, WritersInv, MaintInv, PinsOk, FlushesInv, DepthInv, ReadsInv, PinsPage,
      ReadsOk, PinOk, FlushOk;
    var th, io := s.threads[t], s.threads[t].batch[0];
    GotFacts(s, t);
    NextThread(s, t);
    SwapThread(s, t, Next(th));
    WritesFrame(s.threads, s.fills, s.wbufs, t, Next(th));
    RefsShift(s.threads, s.refs, t, Next(th), io.page, -1);
  }

  // ---------------------------------------------------------------- flushes

  /** The buffer an IO thread is about to write, and its page. */
  lemma FlushTarget(s: Engine, t: nat)
    requires Inv(s) && t < |s.threads| && s.threads[t].batch != [] && s.threads[t].batch[0].Write?
    ensures var io := s.threads[t].batch[0];
      && IoInRange(s.conf, io)
      && Shipped(s.fills, s.wbufs, io)
      && io.offset == s.fills[io.page].written
      && !s.places[io.page].free && s.places[io.page].version in s.logs
      && PageOk(s.conf, s.fills[io.page], s.disk[io.page], s.wbufs, s.logs[s.places[io.page].version].bytes)
  {
    hide FreeListsInv, BucketsInv, VersionsInv, IdleInv, LogsInv, WbufInv, IoStackInv, FlushesInv, PinsOk, ReadsInv,
      RefsInv, StatsInv, WritersInv, MaintInv, ResultsInv, DepthInv;
    Outstanding(s.threads, s.fills, s.wbufs, t);
    var io := s.threads[t].batch[0];
    assert ThreadShape(s.conf, s.threads[t]);
    assert PageInv(s.conf, s.places[io.page], io.page, s.fills[io.page], s.disk[io.page], s.wbufs, s.logs);
  }

  lemma PwritePages(s: Engine, t: nat)
    requires Inv(s) && t < |s.threads| && s.threads[t].batch != [] && s.threads[t].batch[0].Write?
    ensures var disk' := Pwrite(s, t).disk; PagesInv(s.conf, s.places, s.fills, disk', s.wbufs, s.logs)
  {
    hide FreeListsInv, BucketsInv, VersionsInv, IdleInv, LogsInv, WbufInv, IoStackInv, FlushesInv, PinsOk, ReadsInv,
      RefsInv, StatsInv, WritersInv, MaintInv, ResultsInv, DepthInv, WritesInv, ThreadsShape;
    FlushTarget(s, t);
    var io := s.threads[t].batch[0];
    var disk' := Pwrite(s, t).disk;
    forall p | 0 <= p < |s.places|
      ensures PageInv(s.conf, s.places[p], p, s.fills[p], disk'[p], s.wbufs, s.logs)
    {
      assert PageInv(s.conf, s.places[p], p, s.fills[p], s.disk[p], s.wbufs, s.logs);
      if p == io.page {
        assert disk'[p][..io.offset] == s.disk[p][..io.offset];
      }
    }
  }

  lemma PwriteFlushes(s: Engine, t: nat)
    requires Inv(s) && t < |s.threads| && s.threads[t].batch != [] && s.threads[t].batch[0].Write?
    ensures var s' := Pwrite(s, t); FlushesInv(s'.threads, s'.disk, s'.wbufs)
  {
    hide FreeListsInv, BucketsInv, VersionsInv, IdleInv, LogsInv, WbufInv, IoStackInv, PagesInv, PinsOk, ReadsInv,
      RefsInv, StatsInv, WritersInv, MaintInv, ResultsInv, DepthInv;
    var s' := Pwrite(s, t);
    var io := s.threads[t].batch[0];
    forall u | 0 <= u < |s.threads|
      ensures FlushOk(s'.threads[u], s'.disk, s'.wbufs)
    {
      assert FlushOk(s.threads[u], s.disk, s.wbufs);
      if u != t && s.threads[u].phase.Flushed? {
        OneFlusher(s.threads, s.fills, s.wbufs, t, u);
      }
    }
  }

  lemma PwriteKeeps(s: Engine, t: nat)
    requires Inv(s) && t < |s.threads| && s.threads[t].batch != [] && s.threads[t].batch[0].Write?
    requires s.threads[t].phase.Start?
    ensures Inv(Pwrite(s, t))
  {
    hide FreeListsInv, BucketsInv, VersionsInv, PagesInv, IdleInv, LogsInv, WbufInv, IoStackInv, WritesInv,
      RefsInv, StatsInv, WritersInv, MaintInv, ResultsInv, FlushesInv, ReadsOk;
    PwritePages(s, t);
    PwriteFlushes(s, t);
    ReadsOkFrame(s.conf, s.threads[t], s.threads[t].(phase := Flushed), s.logs);
    var th' := s.threads[t].(phase := Flushed);
    WritesFrame(s.threads, s.fills, s.wbufs, t, th');
    RefsFrame(s.threads, s.refs, t, th');
  }

  lemma ReadsOkFrame(c: Conf, th: IoThread, th': IoThread, logs: map<nat, Log>)
    requires ConfOk(c) && ReadsOk(c, th, logs) && th'.queue == th.queue && th'.batch == th.batch && !th'.phase.Got?
    ensures ReadsOk(c, th', logs)
  {
  }
}
