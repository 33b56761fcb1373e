/** The writing side: buffers are attached, filled, shipped and given back. */
module ExtstoreWriteProof {
  import opened Octets
  import opened Sums
  import opened ExtstoreModel
  import opened ExtstoreInvariant
  import opened ExtstoreProof

  // ---------------------------------------------------------------- frames

  lemma PinsFrame(threads: seq<IoThread>, places: seq<Place>, fills: seq<Fill>, p: nat, f: Fill)
    requires PinsOk(threads, places, fills) && p < |fills| && fills[p].written <= f.written
    ensures PinsOk(threads, places, fills[p := f])
  {
    forall t | 0 <= t < |threads|
      ensures PinOk(threads[t], places, fills[p := f])
    {
      assert PinOk(threads[t], places, fills);
    }
  }

  lemma WritersFrame(c: Conf, writers: seq<Writer>, buckets: seq<seq<nat>>, fills: seq<Fill>, p: nat, f: Fill)
    requires WritersInv(c, writers, buckets, fills) && p < |fills|
    requires fills[p].reserved == c.pageSize ==> f.reserved == c.pageSize
    ensures WritersInv(c, writers, buckets, fills[p := f])
  {
    forall b | 0 <= b < |writers|
      ensures WriterOk(c, writers[b], buckets[b], fills[p := f])
    {
      assert WriterOk(c, writers[b], buckets[b], fills);
      AllFullFrame(c, fills, p, f, buckets[b]);
      if buckets[b] != [] {
        AllFullFrame(c, fills, p, f, buckets[b][1..]);
      }
    }
  }

  lemma AllFullFrame(c: Conf, fills: seq<Fill>, p: nat, f: Fill, list: seq<nat>)
    requires p < |fills| && (fills[p].reserved == c.pageSize ==> f.reserved == c.pageSize)
    ensures AllFull(c, fills, list) ==> AllFull(c, fills[p := f], list)
  {
  }

  /** A page's buffer is neither on the stack nor attached to another page. */
  lemma Attached(c: Conf, fills: seq<Fill>, stack: seq<nat>, p: nat)
    requires WbufInv(c, fills, stack) && p < |fills| && fills[p].wbuf.Some?
    ensures fills[p].wbuf.value !in stack
    ensures forall q :: 0 <= q < |fills| && q != p ==> fills[q].wbuf != fills[p].wbuf
  {
  }

  // ---------------------------------------------------------------- _wbuf_cb

  lemma DonePage(c: Conf, f: Fill, disk: seq<byte>, wbufs: seq<Wbuf>, log: seq<byte>)
    requires ConfOk(c) && PageOk(c, f, disk, wbufs, log) && f.wbuf.Some?
    requires var w := f.wbuf.value;
      && wbufs[w].full && f.written + c.wbufSize <= |disk|
      && disk[f.written..f.written + c.wbufSize] == wbufs[w].buf
    ensures var f' := f.(written := f.written + c.wbufSize, wbuf := None,
                         active := f.active && f.written + c.wbufSize != c.pageSize);
      PageOk(c, f', disk, wbufs, log)
  {
    var next := f.written + c.wbufSize;
    assert disk[..next] == disk[..f.written] + disk[f.written..next];
    assert log[..next] == log[..f.written] + log[f.written..];
    assert wbufs[f.wbuf.value].buf[..c.wbufSize] == wbufs[f.wbuf.value].buf;
    NextMultiple(c.wbufSize, f.written);
  }

  lemma DonePages(s: Engine, t: nat)
    requires Inv(s) && t < |s.threads| && s.threads[t].phase.Flushed?
    ensures var s' := WbufDone(s, t); PagesInv(s'.conf, s'.places, s'.fills, s'.disk, s'.wbufs, s'.logs)
  {
    hide FreeListsInv, BucketsInv, VersionsInv, IdleInv, LogsInv, WbufInv, IoStackInv, PinsOk, ReadsInv,
      RefsInv, StatsInv, WritersInv, MaintInv, ResultsInv, DepthInv, WritesInv, PageOk;
    FlushTarget(s, t);
    var io := s.threads[t].batch[0];
    var s' := WbufDone(s, t);
    assert FlushOk(s.threads[t], s.disk, s.wbufs);
    forall p | 0 <= p < |s.places|
      ensures PageInv(s.conf, s.places[p], p, s'.fills[p], s.disk[p], s.wbufs, s.logs)
    {
      assert PageInv(s.conf, s.places[p], p, s.fills[p], s.disk[p], s.wbufs, s.logs);
      if p == io.page {
        DonePage(s.conf, s.fills[p], s.disk[p], s.wbufs, s.logs[s.places[p].version].bytes);
      }
    }
  }

  lemma DoneBuffers(c: Conf, fills: seq<Fill>, wbufs: seq<Wbuf>, stack: seq<nat>, ioStack: int, p: nat, f: Fill)
    requires WbufInv(c, fills, stack) && IoStackInv(c, wbufs, stack, ioStack)
    requires p < |fills| && fills[p].wbuf.Some? && fills[p].wbuf.value < |wbufs| && wbufs[fills[p].wbuf.value].full
    requires f.wbuf.None?
    ensures var stack' := [fills[p].wbuf.value] + stack;
      WbufInv(c, fills[p := f], stack') && IoStackInv(c, wbufs, stack', ioStack + 1)
  {
    var w := fills[p].wbuf.value;
    var stack' := [w] + stack;
    SumUpdate(fills, p, f, HoldsWbuf());
    NoDupCons(w, stack);
    assert forall x :: x in stack' <==> x == w || x in stack;
    assert Busy(wbufs, stack') == Busy(wbufs, stack) - {w};
    assert w in Busy(wbufs, stack);
    Attached(c, fills, stack, p);
  }

  lemma DoneWrites(s: Engine, t: nat)
    requires Inv(s) && t < |s.threads| && s.threads[t].phase.Flushed?
    ensures var s' := WbufDone(s, t); WritesInv(s'.threads, s'.fills, s'.wbufs)
  {
    hide FreeListsInv, BucketsInv, VersionsInv, IdleInv, LogsInv, WbufInv, IoStackInv, PinsOk, ReadsInv,
      RefsInv, StatsInv, WritersInv, MaintInv, ResultsInv, DepthInv, PageOk, PagesInv, FlushesInv;
    FlushTarget(s, t);
    NextThread(s, t);
    var s' := WbufDone(s, t);
    forall io: Io | io.Write?
      ensures Sum(s'.threads, Occurrences(io)) == if Shipped(s'.fills, s'.wbufs, io) then 1 else 0
    {
      SumUpdate(s.threads, t, s'.threads[t], Occurrences(io));
    }
  }

  lemma WbufDoneKeeps(s: Engine, t: nat)
    requires Inv(s) && t < |s.threads| && s.threads[t].phase.Flushed?
    ensures Inv(WbufDone(s, t))
  {
    hide FreeListsInv, BucketsInv, VersionsInv, IdleInv, LogsInv, WbufInv, IoStackInv, PinsOk, ReadsInv,
      RefsInv, StatsInv, WritersInv, ResultsInv, DepthInv, PageOk, PagesInv, FlushesInv, WritesInv,
      FlushOk, ReadsOk, PinOk;
    var s' := WbufDone(s, t);
    var p := s.threads[t].batch[0].page;
    FlushTarget(s, t);
    NextThread(s, t);
    SwapThread(s, t, s'.threads[t]);
    DonePages(s, t);
    DoneBuffers(s.conf, s.fills, s.wbufs, s.wbufStack, s.ioStack, p, s'.fills[p]);
    DoneWrites(s, t);
    RefsFrame(s.threads, s.refs, t, s'.threads[t]);
    PinsFrame(s'.threads, s.places, s.fills, p, s'.fills[p]);
    WritersFrame(s.conf, s.writers, s.buckets, s.fills, p, s'.fills[p]);
  }

  // ---------------------------------------------------------------- _allocate_wbuf

  lemma AttachPages(s: Engine, p: nat)
    requires Inv(s) && p < s.conf.pageCount && s.fills[p].active && WantsWbuf(s, p)
    ensures var s' := AllocateWbuf(s, p); PagesInv(s'.conf, s'.places, s'.fills, s'.disk, s'.wbufs, s'.logs)
  {
    hide FreeListsInv, BucketsInv, VersionsInv, IdleInv, LogsInv, IoStackInv, PinsOk, ReadsInv,
      RefsInv, StatsInv, WritersInv, ResultsInv, DepthInv, FlushesInv, WritesInv, MaintInv;
    var s' := AllocateWbuf(s, p);
    if s.wbufStack != [] {
      assert s.wbufStack[0] in s.wbufStack;
      forall q | 0 <= q < |s.places|
        ensures PageInv(s.conf, s.places[q], q, s'.fills[q], s.disk[q], s'.wbufs, s.logs)
      {
        assert PageInv(s.conf, s.places[q], q, s.fills[q], s.disk[q], s.wbufs, s.logs);
        if q == p {
          MultipleStep(s.conf.wbufSize, s.fills[p].written, s.conf.pageSize);
        }
      }
    }
  }

  lemma AttachBuffers(c: Conf, fills: seq<Fill>, wbufs: seq<Wbuf>, stack: seq<nat>, ioStack: int, p: nat, f: Fill,
      wb: Wbuf)
    requires WbufInv(c, fills, stack) && IoStackInv(c, wbufs, stack, ioStack)
    requires stack != [] && stack[0] < |wbufs| && p < |fills| && fills[p].wbuf.None?
    requires f.wbuf == Some(stack[0]) && !wb.full
    ensures WbufInv(c, fills[p := f], stack[1..])
    ensures IoStackInv(c, wbufs[stack[0] := wb], stack[1..], ioStack)
  {
    var w := stack[0];
    SumUpdate(fills, p, f, HoldsWbuf());
    assert forall x :: x in stack <==> x == w || x in stack[1..];
    assert Busy(wbufs[w := wb], stack[1..]) == Busy(wbufs, stack);
  }

  lemma AttachWrites(s: Engine, p: nat)
    requires Inv(s) && p < s.conf.pageCount && WantsWbuf(s, p)
    ensures var s' := AllocateWbuf(s, p); WritesInv(s'.threads, s'.fills, s'.wbufs)
  {
    hide FreeListsInv, BucketsInv, VersionsInv, IdleInv, LogsInv, IoStackInv, PinsOk, ReadsInv, PagesInv,
      RefsInv, StatsInv, WritersInv, ResultsInv, DepthInv, FlushesInv, MaintInv;
    var s' := AllocateWbuf(s, p);
    if s.wbufStack != [] {
      assert s.wbufStack[0] in s.wbufStack;
      forall io: Io | io.Write?
        ensures Shipped(s'.fills, s'.wbufs, io) == Shipped(s.fills, s.wbufs, io)
      {
      }
    }
  }

  lemma AttachFlushes(threads: seq<IoThread>, disk: seq<seq<byte>>, wbufs: seq<Wbuf>, w: nat, wb: Wbuf)
    requires FlushesInv(threads, disk, wbufs) && w < |wbufs| && wb.buf == wbufs[w].buf
    ensures FlushesInv(threads, disk, wbufs[w := wb])
  {
    forall t | 0 <= t < |threads|
      ensures FlushOk(threads[t], disk, wbufs[w := wb])
    {
      assert FlushOk(threads[t], disk, wbufs);
    }
  }

  lemma AllocateWbufKeeps(s: Engine, p: nat)
    requires Inv(s) && p < s.conf.pageCount && s.fills[p].active && WantsWbuf(s, p)
    ensures Inv(AllocateWbuf(s, p))
  {
    hide FreeListsInv, BucketsInv, VersionsInv, IdleInv, LogsInv, WbufInv, IoStackInv, PinsOk, ReadsInv,
      RefsInv, StatsInv, WritersInv, ResultsInv, DepthInv, PagesInv, FlushesInv, WritesInv;
    var s' := AllocateWbuf(s, p);
    AttachPages(s, p);
    AttachWrites(s, p);
    if s.wbufStack != [] {
      var w := s.wbufStack[0];
      AttachBuffers(s.conf, s.fills, s.wbufs, s.wbufStack, s.ioStack, p, s'.fills[p], s'.wbufs[w]);
      AttachFlushes(s.threads, s.disk, s.wbufs, w, s'.wbufs[w]);
      PinsFrame(s.threads, s.places, s.fills, p, s'.fills[p]);
      WritersFrame(s.conf, s.writers, s.buckets, s.fills, p, s'.fills[p]);
    }
  }

  // ---------------------------------------------------------------- growing a log

  /** log' appends to log. */
  ghost predicate Grows(log: Log, log': Log) {
    log'.page == log.page && log.bytes <= log'.bytes
  }

  lemma DataGrows(logs: map<nat, Log>, v: nat, log: Log, io: Io, data: seq<byte>)
    requires (v in logs ==> Grows(logs[v], log)) && DataOf(logs, io, data)
    ensures DataOf(logs[v := log], io, data)
  {
    if io.version == v {
      var was := logs[v].bytes;
      assert log.bytes[io.offset..io.offset + io.len] == log.bytes[..|was|][io.offset..io.offset + io.len];
    }
  }

  lemma ReadsGrow(c: Conf, threads: seq<IoThread>, logs: map<nat, Log>, v: nat, log: Log)
    requires ConfOk(c) && ReadsInv(c, threads, logs) && (v in logs ==> Grows(logs[v], log))
    ensures ReadsInv(c, threads, logs[v := log])
  {
    forall t | 0 <= t < |threads|
      ensures ReadsOk(c, threads[t], logs[v := log])
    {
      assert ReadsOk(c, threads[t], logs);
      if threads[t].phase.Got? {
        DataGrows(logs, v, log, threads[t].batch[0], threads[t].phase.data);
      }
    }
  }

  lemma ResultsGrow(results: seq<Completed>, logs: map<nat, Log>, places: seq<Place>, closed: seq<bool>, v: nat,
      log: Log)
    requires ResultsInv(results, logs, places, closed) && (v in logs ==> Grows(logs[v], log))
    ensures ResultsInv(results, logs[v := log], places, closed)
  {
    forall i | 0 <= i < |results|
      ensures ResultOk(results[i], logs[v := log], places, closed)
    {
      assert ResultOk(results[i], logs, places, closed);
      if results[i].Data? {
        DataGrows(logs, v, log, results[i].io, results[i].data);
      }
    }
  }

  /** A buffer that is not shipped may change: no IO thread is writing it. */
  lemma FlushesOpen(s: Engine, w: nat, wb: Wbuf)
    requires WritesInv(s.threads, s.fills, s.wbufs) && FlushesInv(s.threads, s.disk, s.wbufs)
    requires w < |s.wbufs| && !s.wbufs[w].full
    ensures FlushesInv(s.threads, s.disk, s.wbufs[w := wb])
  {
    forall t | 0 <= t < |s.threads|
      ensures FlushOk(s.threads[t], s.disk, s.wbufs[w := wb])
    {
      assert FlushOk(s.threads[t], s.disk, s.wbufs);
      if s.threads[t].phase.Flushed? {
        Outstanding(s.threads, s.fills, s.wbufs, t);
      }
    }
  }

  /** The page that holds buffer w and version v changes with them; no other page notices. */
  lemma PagesGrow(s: Engine, p: nat, wb: Wbuf, log: Log)
    requires ConfOk(s.conf) && PagesInv(s.conf, s.places, s.fills, s.disk, s.wbufs, s.logs)
    requires VersionsInv(s.places, s.version) && WbufInv(s.conf, s.fills, s.wbufStack)
    requires p < |s.places| && !s.places[p].free && s.fills[p].wbuf.Some? && s.fills[p].wbuf.value < |s.wbufs|
    requires log.page == p
    requires PageOk(s.conf, s.fills[p], s.disk[p], s.wbufs[s.fills[p].wbuf.value := wb], log.bytes)
    ensures PagesInv(s.conf, s.places, s.fills, s.disk, s.wbufs[s.fills[p].wbuf.value := wb],
                     s.logs[s.places[p].version := log])
  {
    var w, v := s.fills[p].wbuf.value, s.places[p].version;
    Attached(s.conf, s.fills, s.wbufStack, p);
    forall q | 0 <= q < |s.places|
      ensures PageInv(s.conf, s.places[q], q, s.fills[q], s.disk[q], s.wbufs[w := wb], s.logs[v := log])
    {
      assert PageInv(s.conf, s.places[q], q, s.fills[q], s.disk[q], s.wbufs, s.logs);
    }
  }

  /** The page a writer has open. */
  lemma OpenPage(s: Engine, p: nat)
    requires Inv(s) && p < s.conf.pageCount && s.fills[p].active
    ensures !s.places[p].free && s.places[p].version in s.logs
    ensures s.logs[s.places[p].version].page == p
    ensures PageOk(s.conf, s.fills[p], s.disk[p], s.wbufs, s.logs[s.places[p].version].bytes)
    ensures LogOk(s.conf, s.logs[s.places[p].version])
  {
    hide FreeListsInv, BucketsInv, VersionsInv, IdleInv, WbufInv, IoStackInv, PinsOk, ReadsInv,
      RefsInv, StatsInv, WritersInv, ResultsInv, DepthInv, FlushesInv, WritesInv, MaintInv, LogOk, PageOk;
    assert PageInv(s.conf, s.places[p], p, s.fills[p], s.disk[p], s.wbufs, s.logs);
  }

  // ---------------------------------------------------------------- extstore_write

  /** More bytes under a version leave its objects where they are. */
  lemma GrownLog(c: Conf, log: Log, more: seq<byte>)
    requires ConfOk(c) && LogOk(c, log) && |log.bytes + more| <= c.pageSize
    ensures LogOk(c, log.(bytes := log.bytes + more))
  {
    forall i | 0 <= i < |log.objs|
      ensures (log.bytes + more)[log.objs[i].offset..log.objs[i].offset + |log.objs[i].data|] == log.objs[i].data
    {
      var o := log.objs[i];
      assert (log.bytes + more)[o.offset..o.offset + |o.data|] == log.bytes[o.offset..o.offset + |o.data|];
    }
  }

  /** Where the next object of an open page starts. */
  lemma NextOffset(c: Conf, f: Fill, disk: seq<byte>, wbufs: seq<Wbuf>, bytes: seq<byte>, len: nat)
    requires ConfOk(c) && PageOk(c, f, disk, wbufs, bytes)
    requires f.wbuf.Some? && !wbufs[f.wbuf.value].full && len <= wbufs[f.wbuf.value].free
    ensures var wb := wbufs[f.wbuf.value]; |bytes| == wb.offset + |wb.buf| - wb.free
    ensures InBlock(c.wbufSize, |bytes|, len) && |bytes| + len <= c.pageSize
  {
    var wb := wbufs[f.wbuf.value];
    InBlockAt(c.wbufSize, f.written, |wb.buf| - wb.free, len);
  }

  lemma AppendedLog(c: Conf, log: Log, data: seq<byte>)
    requires ConfOk(c) && LogOk(c, log)
    requires |log.bytes| + |data| <= c.pageSize && InBlock(c.wbufSize, |log.bytes|, |data|)
    ensures LogOk(c, log.(bytes := log.bytes + data, objs := log.objs + [Obj(|log.bytes|, data)]))
  {
    hide InBlock;
    GrownLog(c, log, data);
    assert (log.bytes + data)[|log.bytes|..|log.bytes| + |data|] == data;
  }

  lemma AppendedPage(c: Conf, f: Fill, disk: seq<byte>, wbufs: seq<Wbuf>, bytes: seq<byte>, data: seq<byte>)
    requires ConfOk(c) && PageOk(c, f, disk, wbufs, bytes)
    requires f.wbuf.Some? && !wbufs[f.wbuf.value].full && |data| <= wbufs[f.wbuf.value].free
    ensures var w := f.wbuf.value; PageOk(c, f, disk, wbufs[w := Copied(wbufs[w], data)], bytes + data)
  {
    var wb := wbufs[f.wbuf.value];
    var pos := |wb.buf| - wb.free;
    assert (bytes + data)[..f.written] == bytes[..f.written];
    assert Copied(wb, data).buf[..pos + |data|] == wb.buf[..pos] + data;
    assert (bytes + data)[f.written..] == bytes[f.written..] + data;
  }

  lemma AppendKeeps(s: Engine, p: nat, data: seq<byte>)
    requires Inv(s) && p < s.conf.pageCount && s.fills[p].active && HasRoom(s, p, |data|)
    ensures s.places[p].version in s.logs
    ensures Inv(Append(s, p, data))
  {
    hide FreeListsInv, BucketsInv, VersionsInv, WbufInv, PinsOk, ReadsInv,
      RefsInv, WritersInv, ResultsInv, DepthInv, PagesInv, FlushesInv, WritesInv, MaintInv, LogOk, PageOk, Busy,
      Copied, InBlock;
    OpenPage(s, p);
    var s' := Append(s, p, data);
    var w, v := s.fills[p].wbuf.value, s.places[p].version;
    NextOffset(s.conf, s.fills[p], s.disk[p], s.wbufs, s.logs[v].bytes, |data|);
    AppendedPage(s.conf, s.fills[p], s.disk[p], s.wbufs, s.logs[v].bytes, data);
    AppendedLog(s.conf, s.logs[v], data);
    PagesGrow(s, p, s'.wbufs[w], s'.logs[v]);
    FlushesOpen(s, w, s'.wbufs[w]);
    ReadsGrow(s.conf, s.threads, s.logs, v, s'.logs[v]);
    ResultsGrow(s.results, s.logs, s.places, s.closed, v, s'.logs[v]);
    AppendBuffers(s, w, data);
    SumUpdate(s.counts, p, s'.counts[p], Objects());
    SumUpdate(s.counts, p, s'.counts[p], Bytes());
  }

  lemma AppendBuffers(s: Engine, w: nat, data: seq<byte>)
    requires WbufShape(s.conf, s.wbufs) && WritesInv(s.threads, s.fills, s.wbufs)
    requires IoStackInv(s.conf, s.wbufs, s.wbufStack, s.ioStack)
    requires w < |s.wbufs| && |data| <= s.wbufs[w].free
    ensures var wbufs' := s.wbufs[w := Copied(s.wbufs[w], data)];
      && WbufShape(s.conf, wbufs') && WritesInv(s.threads, s.fills, wbufs')
      && IoStackInv(s.conf, wbufs', s.wbufStack, s.ioStack)
  {
    var wbufs' := s.wbufs[w := Copied(s.wbufs[w], data)];
    assert Busy(wbufs', s.wbufStack) == Busy(s.wbufs, s.wbufStack);
    forall io: Io | io.Write?
      ensures Shipped(s.fills, wbufs', io) == Shipped(s.fills, s.wbufs, io)
    {
    }
  }

  // ---------------------------------------------------------------- _submit_wbuf

  lemma {:induction false} SubsetOfRange(s: set<nat>, n: nat)
    requires forall x :: x in s ==> x < n
    ensures |s| <= n
  {
    if n > 0 {
      SubsetOfRange(s - {n - 1}, n - 1);
    } else {
      assert s == {};
    }
  }

  /** The IO stack is never empty when a buffer is submitted. */
  lemma IoAvailable(c: Conf, wbufs: seq<Wbuf>, stack: seq<nat>, ioStack: int, w: nat)
    requires IoStackInv(c, wbufs, stack, ioStack) && |wbufs| == c.wbufCount
    requires w < |wbufs| && w !in stack && !wbufs[w].full
    ensures 0 < ioStack
  {
    SubsetOfRange(Busy(wbufs, stack) + {w}, c.wbufCount);
  }

  lemma PaddedPage(c: Conf, f: Fill, disk: seq<byte>, wbufs: seq<Wbuf>, bytes: seq<byte>)
    requires ConfOk(c) && PageOk(c, f, disk, wbufs, bytes)
    requires f.wbuf.Some? && !wbufs[f.wbuf.value].full
    ensures var w := f.wbuf.value; var wb := wbufs[w];
      && PageOk(c, f, disk, wbufs[w := wb.(buf := Padded(wb), full := true)], bytes + Zeros(wb.free))
      && |bytes + Zeros(wb.free)| <= c.pageSize
      && wb.offset + c.wbufSize <= c.pageSize
  {
    var wb := wbufs[f.wbuf.value];
    var pos := |wb.buf| - wb.free;
    var bytes' := bytes + Zeros(wb.free);
    assert bytes'[..f.written] == bytes[..f.written];
    assert bytes'[f.written..] == bytes[f.written..] + Zeros(wb.free);
    assert Padded(wb)[..c.wbufSize] == Padded(wb);
  }

  lemma ShipBuffers(c: Conf, fills: seq<Fill>, wbufs: seq<Wbuf>, stack: seq<nat>, ioStack: int, p: nat, wb: Wbuf)
    requires WbufInv(c, fills, stack) && IoStackInv(c, wbufs, stack, ioStack)
    requires p < |fills| && fills[p].wbuf.Some? && fills[p].wbuf.value < |wbufs|
    requires !wbufs[fills[p].wbuf.value].full && wb.full
    ensures IoStackInv(c, wbufs[fills[p].wbuf.value := wb], stack, ioStack - 1)
  {
    var w := fills[p].wbuf.value;
    assert Busy(wbufs[w := wb], stack) == Busy(wbufs, stack) + {w};
    assert w !in Busy(wbufs, stack);
  }

  lemma ShipWrites(s: Engine, p: nat, t: nat)
    requires Shape(s) && WritesInv(s.threads, s.fills, s.wbufs) && WbufInv(s.conf, s.fills, s.wbufStack)
    requires p < s.conf.pageCount && t < |s.threads| && s.places[p].version in s.logs
    requires s.fills[p].wbuf.Some? && !s.wbufs[s.fills[p].wbuf.value].full
    ensures var s' := SubmitWbuf(s, p, t); WritesInv(s'.threads, s'.fills, s'.wbufs)
  {
    hide RowShape, DiskShape, ThreadsShape, ListShape, WritersShape, MaintShape, StackShape;
    var s' := SubmitWbuf(s, p, t);
    var w := s.fills[p].wbuf.value;
    var shipped := Write(p, w, s.wbufs[w].offset);
    Attached(s.conf, s.fills, s.wbufStack, p);
    forall io: Io | io.Write?
      ensures Sum(s'.threads, Occurrences(io)) == if Shipped(s'.fills, s'.wbufs, io) then 1 else 0
    {
      SumUpdate(s.threads, t, s'.threads[t], Occurrences(io));
      assert Occurrences(io)(s'.threads[t]) == Occurrences(io)(s.threads[t]) + if io == shipped then 1 else 0;
    }
  }

  lemma ShippedThread(s: Engine, p: nat, t: nat)
    requires Inv(s) && p < s.conf.pageCount && t < |s.threads| && s.fills[p].active
    requires s.fills[p].wbuf.Some? && s.places[p].version in s.logs
    requires s.wbufs[s.fills[p].wbuf.value].offset + s.conf.wbufSize <= s.conf.pageSize
    ensures var th' := SubmitWbuf(s, p, t).threads[t];
      && ThreadShape(s.conf, th') && FlushOk(th', s.disk, s.wbufs) && PinOk(th', s.places, s.fills)
      && ReadsOk(s.conf, th', s.logs) && th'.depth == |th'.queue|
      && (forall q :: PinsPage(th', q) <==> PinsPage(s.threads[t], q))
  {
    hide FreeListsInv, BucketsInv, VersionsInv, PagesInv, IdleInv, LogsInv, WbufInv, IoStackInv, WritesInv,
      RefsInv, StatsInv, WritersInv, ResultsInv, MaintInv;
    var th, th' := s.threads[t], SubmitWbuf(s, p, t).threads[t];
    assert ThreadShape(s.conf, th) && FlushOk(th, s.disk, s.wbufs) && ReadsOk(s.conf, th, s.logs);
    assert PinOk(th, s.places, s.fills);
  }

  lemma SubmitWbufKeeps(s: Engine, p: nat, t: nat)
    requires Inv(s) && p < s.conf.pageCount && t < |s.threads| && s.fills[p].active
    requires s.fills[p].wbuf.Some? && !s.wbufs[s.fills[p].wbuf.value].full
    ensures 0 < s.ioStack
    ensures s.places[p].version in s.logs
    ensures Inv(SubmitWbuf(s, p, t))
  {
    hide FreeListsInv, BucketsInv, VersionsInv, IdleInv, LogOk, IoStackInv, PinsOk, ReadsInv,
      RefsInv, StatsInv, WritersInv, ResultsInv, DepthInv, PagesInv, FlushesInv, WritesInv, MaintInv, PageOk,
      ThreadShape, FlushOk, ReadsOk, PinOk, ThreadsShape, Padded, WbufInv, PinsPage;
    OpenPage(s, p);
    var s' := SubmitWbuf(s, p, t);
    var w, v := s.fills[p].wbuf.value, s.places[p].version;
    PaddedPage(s.conf, s.fills[p], s.disk[p], s.wbufs, s.logs[v].bytes);
    GrownLog(s.conf, s.logs[v], Zeros(s.wbufs[w].free));
    PagesGrow(s, p, s'.wbufs[w], s'.logs[v]);
    Attached(s.conf, s.fills, s.wbufStack, p);
    IoAvailable(s.conf, s.wbufs, s.wbufStack, s.ioStack, w);
    ShipBuffers(s.conf, s.fills, s.wbufs, s.wbufStack, s.ioStack, p, s'.wbufs[w]);
    ShipWrites(s, p, t);
    ShippedThread(s, p, t);
    SwapThread(s, t, s'.threads[t]);
    FlushesOpen(s, w, s'.wbufs[w]);
    ShipFlushes(s, p, t);
    RefsFrame(s.threads, s.refs, t, s'.threads[t]);
    ReadsGrow(s.conf, s'.threads, s.logs, v, s'.logs[v]);
    ResultsGrow(s.results, s.logs, s.places, s.closed, v, s'.logs[v]);
  }

  lemma ShipFlushes(s: Engine, p: nat, t: nat)
    requires Shape(s) && WritesInv(s.threads, s.fills, s.wbufs) && FlushesInv(s.threads, s.disk, s.wbufs)
    requires p < s.conf.pageCount && t < |s.threads| && s.places[p].version in s.logs
    requires s.fills[p].wbuf.Some? && !s.wbufs[s.fills[p].wbuf.value].full
    ensures var s' := SubmitWbuf(s, p, t); FlushesInv(s'.threads, s'.disk, s'.wbufs)
  {
    hide RowShape, DiskShape, ThreadsShape, ListShape, WritersShape, MaintShape, StackShape, Padded, WritesInv,
      FlushesInv;
    var s' := SubmitWbuf(s, p, t);
    var w := s.fills[p].wbuf.value;
    FlushesOpen(s, w, s'.wbufs[w]);
    SwapFlush(s'.wbufs, s.threads, s.disk, t, s'.threads[t]);
  }

  lemma SwapFlush(wbufs: seq<Wbuf>, threads: seq<IoThread>, disk: seq<seq<byte>>, t: nat, th: IoThread)
    requires FlushesInv(threads, disk, wbufs) && t < |threads|
    requires th.batch == threads[t].batch && th.phase == threads[t].phase
    ensures FlushesInv(threads[t := th], disk, wbufs)
  {
    assert FlushOk(threads[t], disk, wbufs);
  }
}
