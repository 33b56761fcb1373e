/** The extstore page engine as a step system.

    Pages are append-only and versioned.  Every step below is one critical section of the
    engine: what a writer, an IO thread or the maintenance thread does between taking and
    releasing the page (or engine) lock.  Steps of all threads interleave freely, except that
    the request/write pairs of one bucket are serialised by its writer.

    History fields (logs, results, excess...) are never read by a step; they record what was
    stored and what reads returned, so that properties of whole runs can be stated. */
module ExtstoreModel {
  import opened Octets
  import opened Sums

  datatype Conf = Conf(
    pageSize: nat, pageCount: nat, wbufSize: nat, wbufCount: nat, pageBuckets: nat, ioDepth: nat)

  /** size of the buffer is |buf|; buf_pos is buf + (size - free). */
  datatype Wbuf = Wbuf(buf: seq<byte>, free: nat, offset: nat, full: bool)

  /** A store_page is kept as parallel rows: where the page is listed, how far it is filled,
      what is stored in it; its refcount and its closed flag are rows of the engine. */
  datatype Place = Place(free: bool, bucket: nat, freeBucket: nat, version: nat)
  datatype Fill = Fill(reserved: nat, written: nat, active: bool, wbuf: Option<nat>)
  datatype Counts = Counts(objects: nat, bytes: nat)

  datatype Io =
    | Read(page: nat, version: nat, offset: nat, len: nat)
    | Write(page: nat, wbuf: nat, offset: nat)

  /** How far an IO thread is with the first IO of its batch. */
  datatype Phase =
    | Start
    | Pinned              // read passed the version check and holds a page reference
    | Got(data: seq<byte>) // pread returned, reference still held
    | Flushed             // pwrite returned, callback not yet run

  datatype IoThread = IoThread(queue: seq<Io>, depth: int, batch: seq<Io>, phase: Phase)

  /** The writer of one bucket inside extstore_write_request. */
  datatype Writer =
    | Idle
    | Picked(page: nat, freeBucket: nat, data: seq<byte>)
    | NeedPage(freeBucket: nat)

  datatype Low = Low(page: nat, version: nat)

  /** The maintenance thread; cands is history: the pages it noted as evictable in this pass. */
  datatype Maint =
    | Sleeping
    | Scanning(i: nat, evict: bool, low: Option<Low>, cands: set<Low>)

  datatype Obj = Obj(offset: nat, data: seq<byte>)

  /** Everything ever appended under one page version. */
  datatype Log = Log(page: nat, bytes: seq<byte>, objs: seq<Obj>)

  datatype Completed =
    | Data(io: Io, data: seq<byte>)
    | Miss(io: Io)

  datatype Engine = Engine(
    conf: Conf,
    places: seq<Place>,
    fills: seq<Fill>,
    counts: seq<Counts>,
    refs: seq<int>,
    closed: seq<bool>,
    disk: seq<seq<byte>>,
    wbufs: seq<Wbuf>,
    wbufStack: seq<nat>,
    ioStack: int,
    freeLists: seq<seq<nat>>, // [0] is page_freelist, [k] is free_page_buckets[k]
    buckets: seq<seq<nat>>,
    pageFree: int,
    version: nat,
    objectsUsed: int,
    bytesUsed: int,
    threads: seq<IoThread>,
    writers: seq<Writer>,
    maint: Maint,
    logs: map<nat, Log>,
    results: seq<Completed>,
    excessObjects: int,
    excessBytes: int)

  // ---------------------------------------------------------------- shape

  ghost predicate ConfOk(c: Conf) {
    && 0 < c.wbufSize && 0 < c.pageSize
    && c.pageSize % c.wbufSize == 0
    && 1 <= c.pageBuckets <= c.wbufCount
  }

  ghost predicate RowShape(c: Conf, places: seq<Place>, counts: seq<Counts>, refs: seq<int>, closed: seq<bool>) {
    && |places| == |counts| == |refs| == |closed| == c.pageCount
    && forall p :: 0 <= p < |places| ==> places[p].freeBucket < c.pageBuckets && places[p].bucket < c.pageBuckets
  }

  ghost predicate FillShape(c: Conf, fills: seq<Fill>) {
    && |fills| == c.pageCount
    && forall p :: 0 <= p < |fills| && fills[p].wbuf.Some? ==> fills[p].wbuf.value < c.wbufCount
  }

  ghost predicate DiskShape(c: Conf, disk: seq<seq<byte>>) {
    && |disk| == c.pageCount
    && forall p :: 0 <= p < |disk| ==> |disk[p]| == c.pageSize
  }

  ghost predicate WbufShape(c: Conf, wbufs: seq<Wbuf>) {
    && |wbufs| == c.wbufCount
    && forall w :: 0 <= w < |wbufs| ==> |wbufs[w].buf| == c.wbufSize && wbufs[w].free <= c.wbufSize
  }

  ghost predicate StackShape(c: Conf, stack: seq<nat>) {
    forall k :: 0 <= k < |stack| ==> stack[k] < c.wbufCount
  }

  ghost predicate ListShape(c: Conf, lists: seq<seq<nat>>) {
    && |lists| == c.pageBuckets
    && forall f, k :: 0 <= f < |lists| && 0 <= k < |lists[f]| ==> lists[f][k] < c.pageCount
  }

  ghost predicate IoInRange(c: Conf, io: Io) {
    && io.page < c.pageCount
    && (io.Write? ==> io.wbuf < c.wbufCount && io.offset + c.wbufSize <= c.pageSize)
  }

  ghost predicate ThreadShape(c: Conf, th: IoThread) {
    && (forall k :: 0 <= k < |th.queue| ==> IoInRange(c, th.queue[k]))
    && (forall k :: 0 <= k < |th.batch| ==> IoInRange(c, th.batch[k]))
    && match th.phase
       case Start => true
       case Flushed => th.batch != [] && th.batch[0].Write?
       case _ => th.batch != [] && th.batch[0].Read?
  }

  ghost predicate ThreadsShape(c: Conf, threads: seq<IoThread>) {
    forall t :: 0 <= t < |threads| ==> ThreadShape(c, threads[t])
  }

  ghost predicate WritersShape(c: Conf, writers: seq<Writer>) {
    && |writers| == c.pageBuckets
    && forall b :: 0 <= b < |writers| ==>
         && (writers[b].Picked? ==> writers[b].page < c.pageCount)
         && (!writers[b].Idle? ==> writers[b].freeBucket < c.pageBuckets)
  }

  ghost predicate MaintShape(c: Conf, m: Maint) {
    m.Scanning? ==> m.i <= c.pageCount && (m.low.Some? ==> m.low.value.page < c.pageCount)
  }

  ghost predicate Shape(s: Engine) {
    && ConfOk(s.conf)
    && RowShape(s.conf, s.places, s.counts, s.refs, s.closed)
    && FillShape(s.conf, s.fills)
    && DiskShape(s.conf, s.disk)
    && WbufShape(s.conf, s.wbufs)
    && StackShape(s.conf, s.wbufStack)
    && ListShape(s.conf, s.freeLists)
    && ListShape(s.conf, s.buckets)
    && ThreadsShape(s.conf, s.threads)
    && WritersShape(s.conf, s.writers)
    && MaintShape(s.conf, s.maint)
  }

  // ---------------------------------------------------------------- writers

  /** _allocate_page: the page taken, if any, heads the bucket list under a fresh version. */
  function AllocatePage(s: Engine, b: nat, fb: nat): Engine
    requires Shape(s) && b < s.conf.pageBuckets && fb < s.conf.pageBuckets
  {
    var l := if fb != 0 && s.freeLists[fb] != [] then fb else 0;
    if s.freeLists[l] == [] then s
    else
      var p := s.freeLists[l][0];
      var s' := s.(freeLists := s.freeLists[l := s.freeLists[l][1..]]);
      if s.pageFree <= 0 then s'
      else
        s'.(
          buckets := s.buckets[b := [p] + s.buckets[b]],
          fills := s.fills[p := s.fills[p].(active := true)],
          places := s.places[p := s.places[p].(free := false, version := s.version, bucket := b)],
          closed := s.closed[p := false],
          version := s.version + 1,
          pageFree := s.pageFree - 1,
          logs := s.logs[s.version := Log(p, [], [])])
  }

  /** First critical section of extstore_write_request. */
  ghost function Pick(s: Engine, b: nat, fb: nat, data: seq<byte>): Engine
    requires Shape(s) && b < s.conf.pageBuckets && fb < s.conf.pageBuckets
  {
    var s' := if s.buckets[b] == [] then AllocatePage(s, b, fb) else s;
    if s'.buckets[b] == [] then s'
    else s'.(writers := s.writers[b := Picked(s'.buckets[b][0], fb, data)])
  }

  function Zeros(n: nat): (z: seq<byte>)
    ensures |z| == n
  {
    seq(n, _ => 0)
  }

  /** The buffer as _submit_wbuf ships it: the unused tail zeroed. */
  function Padded(w: Wbuf): (r: seq<byte>)
    requires w.free <= |w.buf|
    ensures |r| == |w.buf|
  {
    w.buf[..|w.buf| - w.free] + Zeros(w.free)
  }

  /** _submit_wbuf and the `full = true` that follows it; t is the IO thread picked. */
  function SubmitWbuf(s: Engine, p: nat, t: nat): Engine
    requires Shape(s) && p < s.conf.pageCount && t < |s.threads|
    requires s.fills[p].wbuf.Some? && s.places[p].version in s.logs
  {
    var w := s.fills[p].wbuf.value;
    var wb := s.wbufs[w];
    var th := s.threads[t];
    var v := s.places[p].version;
    s.(
      wbufs := s.wbufs[w := wb.(buf := Padded(wb), full := true)],
      ioStack := s.ioStack - 1,
      threads := s.threads[t := th.(queue := th.queue + [Write(p, w, wb.offset)], depth := th.depth + 1)],
      logs := s.logs[v := s.logs[v].(bytes := s.logs[v].bytes + Zeros(wb.free))])
  }

  /** _allocate_wbuf */
  function AllocateWbuf(s: Engine, p: nat): Engine
    requires Shape(s) && p < s.conf.pageCount
  {
    if s.wbufStack == [] then s
    else
      var w := s.wbufStack[0];
      s.(
        wbufStack := s.wbufStack[1..],
        wbufs := s.wbufs[w := s.wbufs[w].(offset := s.fills[p].reserved, free := |s.wbufs[w].buf|, full := false)],
        fills := s.fills[p := s.fills[p].(reserved := s.fills[p].reserved + s.conf.wbufSize, wbuf := Some(w))])
  }

  /** The caller's copy into the handed-over buffer. */
  function Copied(w: Wbuf, data: seq<byte>): (w': Wbuf)
    requires |data| <= w.free <= |w.buf|
    ensures |w'.buf| == |w.buf|
  {
    var pos := |w.buf| - w.free;
    w.(buf := w.buf[..pos] + data + w.buf[pos + |data|..], free := w.free - |data|)
  }

  /** The copy, then extstore_write. */
  function Append(s: Engine, p: nat, data: seq<byte>): Engine
    requires Shape(s) && p < s.conf.pageCount && s.fills[p].wbuf.Some? && s.places[p].version in s.logs
    requires |data| <= s.wbufs[s.fills[p].wbuf.value].free
  {
    var w := s.fills[p].wbuf.value;
    var wb := s.wbufs[w];
    var v := s.places[p].version;
    s.(
      wbufs := s.wbufs[w := Copied(wb, data)],
      counts := s.counts[p := Counts(s.counts[p].objects + 1, s.counts[p].bytes + |data|)],
      objectsUsed := s.objectsUsed + 1,
      bytesUsed := s.bytesUsed + |data|,
      logs := s.logs[v := s.logs[v].(bytes := s.logs[v].bytes + data,
                                     objs := s.logs[v].objs + [Obj(wb.offset + |wb.buf| - wb.free, data)])])
  }

  /** No more can be written to the page: the bucket needs another one. */
  ghost predicate PageFull(s: Engine, p: nat)
    requires Shape(s) && p < s.conf.pageCount
  {
    var f := s.fills[p];
    !f.active || ((f.wbuf.None? || s.wbufs[f.wbuf.value].full) && f.reserved >= s.conf.pageSize)
  }

  ghost predicate WbufShort(s: Engine, p: nat, len: nat)
    requires Shape(s) && p < s.conf.pageCount
  {
    var f := s.fills[p];
    f.wbuf.Some? && s.wbufs[f.wbuf.value].free < len && !s.wbufs[f.wbuf.value].full
  }

  ghost predicate WantsWbuf(s: Engine, p: nat)
    requires Shape(s) && p < s.conf.pageCount
  {
    s.fills[p].wbuf.None? && s.fills[p].reserved < s.conf.pageSize
  }

  ghost predicate HasRoom(s: Engine, p: nat, len: nat)
    requires Shape(s) && p < s.conf.pageCount
  {
    var f := s.fills[p];
    f.wbuf.Some? && !s.wbufs[f.wbuf.value].full && s.wbufs[f.wbuf.value].free >= len
  }

  // ---------------------------------------------------------------- clients

  function SubtractClamped(x: nat, y: nat): nat {
    if x >= y then x - y else 0
  }

  /** extstore_delete clamps the page's counters but not the global ones. */
  ghost function Delete(s: Engine, p: nat, v: nat, count: nat, bytes: nat): Engine
    requires Shape(s) && p < s.conf.pageCount
  {
    var c := s.counts[p];
    if s.closed[p] || s.places[p].version != v then s
    else
      var c' := Counts(SubtractClamped(c.objects, count), SubtractClamped(c.bytes, bytes));
      s.(
        counts := s.counts[p := c'],
        objectsUsed := s.objectsUsed - count,
        bytesUsed := s.bytesUsed - bytes,
        excessObjects := s.excessObjects + count - (c.objects - c'.objects),
        excessBytes := s.excessBytes + bytes - (c.bytes - c'.bytes))
  }

  ghost function ClosePage(s: Engine, p: nat, v: nat): Engine
    requires Shape(s) && p < s.conf.pageCount
  {
    if s.closed[p] || s.places[p].version != v then s else s.(closed := s.closed[p := true])
  }

  ghost predicate InBlock(wbufSize: nat, offset: nat, len: nat)
    requires 0 < wbufSize
  {
    offset % wbufSize + len <= wbufSize
  }

  /** What a reader may ask for: a non-empty range of bytes appended under that version,
    within one write buffer's extent.
      Every stored object is such a range. */
  ghost predicate ReadValid(c: Conf, logs: map<nat, Log>, io: Io)
    requires ConfOk(c)
  {
    && io.Read?
    && io.version in logs
    && logs[io.version].page == io.page
    && 0 < io.len && io.offset + io.len <= |logs[io.version].bytes|
    && InBlock(c.wbufSize, io.offset, io.len)
  }

  /** extstore_submit of a chain of reads. */
  ghost function SubmitReads(s: Engine, t: nat, ios: seq<Io>): Engine
    requires t < |s.threads|
  {
    var th := s.threads[t];
    s.(threads := s.threads[t := th.(queue := th.queue + ios, depth := th.depth + |ios|)])
  }

  // ---------------------------------------------------------------- IO threads

  /** Number of IOs the batch loop detaches. */
  function BatchSize(ioDepth: nat, n: nat): (k: nat)
    requires n > 0
    ensures 1 <= k <= n
  {
    if ioDepth <= 1 then 1 else if ioDepth < n then ioDepth else n
  }

  ghost function TakeBatch(s: Engine, t: nat): Engine
    requires t < |s.threads| && s.threads[t].queue != []
  {
    var th := s.threads[t];
    var k := BatchSize(s.conf.ioDepth, |th.queue|);
    s.(threads := s.threads[t := IoThread(th.queue[k..], th.depth - k, th.queue[..k], Start)])
  }

  /** The thread after the callback of the first IO of its batch. */
  ghost function Next(th: IoThread): IoThread
    requires th.batch != []
  {
    th.(batch := th.batch[1..], phase := Start)
  }

  ghost predicate Readable(s: Engine, io: Io)
    requires Shape(s) && io.Read? && io.page < s.conf.pageCount
  {
    !s.places[io.page].free && !s.closed[io.page] && s.places[io.page].version == io.version
  }

  ghost predicate InWbuf(s: Engine, io: Io)
    requires Shape(s) && io.Read? && io.page < s.conf.pageCount
  {
    s.fills[io.page].active && io.offset >= s.fills[io.page].written
  }

  /** The asserts of _read_from_wbuf, and that its memcpy stays inside the buffer. */
  ghost predicate WbufReadSafe(s: Engine, io: Io)
    requires Shape(s) && io.Read? && io.page < s.conf.pageCount
  {
    var f := s.fills[io.page];
    && f.wbuf.Some?
    && var wb := s.wbufs[f.wbuf.value];
       && wb.offset <= io.offset < f.written + |wb.buf|
       && io.offset - wb.offset + io.len <= |wb.buf|
  }

  /** The section under the page lock of an OBJ_IO_READ. */
  ghost function ReadCheck(s: Engine, t: nat): Engine
    requires Shape(s) && t < |s.threads| && s.threads[t].batch != [] && s.threads[t].batch[0].Read?
    requires var io := s.threads[t].batch[0]; Readable(s, io) && InWbuf(s, io) ==> WbufReadSafe(s, io)
  {
    var th := s.threads[t];
    var io := th.batch[0];
    if !Readable(s, io) then
      s.(threads := s.threads[t := Next(th)], results := s.results + [Miss(io)])
    else if InWbuf(s, io) then
      var wb := s.wbufs[s.fills[io.page].wbuf.value];
      var at := io.offset - wb.offset;
      s.(threads := s.threads[t := Next(th)], results := s.results + [Data(io, wb.buf[at..at + io.len])])
    else
      s.(threads := s.threads[t := th.(phase := Pinned)],
         refs := s.refs[io.page := s.refs[io.page] + 1])
  }

  ghost function Pread(s: Engine, t: nat): Engine
    requires Shape(s) && t < |s.threads| && s.threads[t].phase.Pinned?
    requires s.threads[t].batch[0].offset + s.threads[t].batch[0].len <= s.conf.pageSize
  {
    var io := s.threads[t].batch[0];
    s.(threads := s.threads[t := s.threads[t].(phase := Got(s.disk[io.page][io.offset..io.offset + io.len]))])
  }

  ghost function Release(s: Engine, t: nat): Engine
    requires Shape(s) && t < |s.threads| && s.threads[t].phase.Got?
  {
    var th := s.threads[t];
    var io := th.batch[0];
    s.(threads := s.threads[t := Next(th)],
       results := s.results + [Data(io, th.phase.data)],
       refs := s.refs[io.page := s.refs[io.page] - 1])
  }

  ghost function Overwrite(d: seq<byte>, offset: nat, data: seq<byte>): (r: seq<byte>)
    requires offset + |data| <= |d|
    ensures |r| == |d|
  {
    d[..offset] + data + d[offset + |data|..]
  }

  ghost function Pwrite(s: Engine, t: nat): Engine
    requires Shape(s) && t < |s.threads| && s.threads[t].batch != [] && s.threads[t].batch[0].Write?
  {
    var io := s.threads[t].batch[0];
    s.(threads := s.threads[t := s.threads[t].(phase := Flushed)],
       disk := s.disk[io.page := Overwrite(s.disk[io.page], io.offset, s.wbufs[io.wbuf].buf)])
  }

  /** _wbuf_cb */
  ghost function WbufDone(s: Engine, t: nat): Engine
    requires Shape(s) && t < |s.threads| && s.threads[t].phase.Flushed?
  {
    var io := s.threads[t].batch[0];
    var f := s.fills[io.page];
    var written := f.written + s.conf.wbufSize;
    s.(threads := s.threads[t := Next(s.threads[t])],
       fills := s.fills[io.page := f.(written := written, wbuf := None,
                                      active := f.active && written != s.conf.pageSize)],
       wbufStack := [io.wbuf] + s.wbufStack,
       ioStack := s.ioStack + 1)
  }

  // ---------------------------------------------------------------- maintenance

  /** _free_page */
  function FreePage(s: Engine, p: nat): Engine
    requires Shape(s) && p < s.conf.pageCount
  {
    var b := s.places[p].bucket;
    var fb := s.places[p].freeBucket;
    s.(
      objectsUsed := s.objectsUsed - s.counts[p].objects,
      bytesUsed := s.bytesUsed - s.counts[p].bytes,
      buckets := s.buckets[b := Without<nat>(s.buckets[b], p)],
      places := s.places[p := Place(true, 0, fb, 0)],
      counts := s.counts[p := Counts(0, 0)],
      fills := s.fills[p := s.fills[p].(reserved := 0, written := 0, active := false)],
      closed := s.closed[p := false],
      freeLists := s.freeLists[fb := [p] + s.freeLists[fb]],
      pageFree := s.pageFree + 1)
  }

  /** The maintenance pass evicts only when the default free list is exhausted. */
  ghost predicate MustEvict(s: Engine)
    requires s.freeLists != []
  {
    s.pageFree == 0 || s.freeLists[0] == []
  }

  /** Neither being written nor free. */
  ghost predicate Settled(s: Engine, p: nat)
    requires Shape(s) && p < s.conf.pageCount
  {
    !s.fills[p].active && !s.places[p].free
  }

  /** A full page that is still open, holds objects and returns to the default free list. */
  ghost predicate Evictable(s: Engine, p: nat)
    requires Shape(s) && p < s.conf.pageCount
  {
    Settled(s, p) && s.counts[p].objects > 0 && !s.closed[p] && s.places[p].freeBucket == 0
  }

  /** A full page that nothing refers to any more. */
  ghost predicate Drained(s: Engine, p: nat)
    requires Shape(s) && p < s.conf.pageCount
  {
    Settled(s, p) && (s.counts[p].objects == 0 || s.closed[p]) && s.refs[p] == 0
  }

  ghost function Noted(s: Engine, m: Maint): Maint
    requires Shape(s) && m.Scanning? && m.i < s.conf.pageCount
  {
    var l := Low(m.i, s.places[m.i].version);
    var lower := Evictable(s, m.i) && (m.low.None? || l.version < m.low.value.version);
    Scanning(m.i + 1, m.evict && !Drained(s, m.i),
             if lower then Some(l) else m.low,
             if Evictable(s, m.i) then m.cands + {l} else m.cands)
  }

  ghost function MaintScan(s: Engine): Engine
    requires Shape(s) && s.maint.Scanning? && s.maint.i < s.conf.pageCount
  {
    (if Drained(s, s.maint.i) then FreePage(s, s.maint.i) else s).(maint := Noted(s, s.maint))
  }

  ghost function Evict(s: Engine, p: nat): Engine
    requires Shape(s) && p < s.conf.pageCount
  {
    if s.closed[p] then s
    else
      var s' := s.(closed := s.closed[p := true]);
      if s.refs[p] == 0 then FreePage(s', p) else s'
  }

  ghost function MaintEvict(s: Engine): Engine
    requires Shape(s) && s.maint.Scanning?
  {
    (if s.maint.evict && s.maint.low.Some? then Evict(s, s.maint.low.value.page) else s).(maint := Sleeping)
  }
}
