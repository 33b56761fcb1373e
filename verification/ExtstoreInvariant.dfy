/** What holds in every reachable state of the page engine, one predicate per concern.
    Each predicate takes only the rows it speaks about. */
module ExtstoreInvariant {
  import opened Octets
  import opened Sums
  import opened ExtstoreModel

  // ---------------------------------------------------------------- weights for Sum

  ghost function Length(): seq<nat> -> int { (l: seq<nat>) => |l| }

  ghost function Objects(): Counts -> int { (c: Counts) => c.objects }

  ghost function Bytes(): Counts -> int { (c: Counts) => c.bytes }

  ghost function HoldsWbuf(): Fill -> int { (f: Fill) => if f.wbuf.Some? then 1 else 0 }

  ghost predicate PinsPage(th: IoThread, p: nat) {
    (th.phase.Pinned? || th.phase.Got?) && th.batch != [] && th.batch[0].page == p
  }

  ghost function Pins(p: nat): IoThread -> int { (th: IoThread) => if PinsPage(th, p) then 1 else 0 }

  ghost function Occurrences(io: Io): IoThread -> int {
    (th: IoThread) => multiset(th.queue)[io] + multiset(th.batch)[io]
  }

  // ---------------------------------------------------------------- page lists

  /** Every free page but page 0 is on the free list of its free bucket, and on no other list. */
  ghost predicate FreeListsInv(places: seq<Place>, freeLists: seq<seq<nat>>, pageFree: int) {
    && (forall f :: 0 <= f < |freeLists| ==> NoDup(freeLists[f]))
    && (forall f, k :: 0 <= f < |freeLists| && 0 <= k < |freeLists[f]| ==>
          var p := freeLists[f][k]; 0 < p < |places| && places[p].free && places[p].freeBucket == f)
    && (forall p :: 1 <= p < |places| && places[p].free ==>
          places[p].freeBucket < |freeLists| && p in freeLists[places[p].freeBucket])
    && (places != [] ==> places[0].free)
    && pageFree == Sum(freeLists, Length())
  }

  /** The list of bucket b: its pages, by strictly decreasing version. */
  ghost predicate BucketOk(places: seq<Place>, list: seq<nat>, b: nat) {
    && (forall k :: 0 <= k < |list| ==> list[k] < |places| && !places[list[k]].free && places[list[k]].bucket == b)
    && (forall i, j :: 0 <= i < j < |list| ==> places[list[i]].version > places[list[j]].version)
  }

  /** Every other page is on the list of its bucket. */
  ghost predicate BucketsInv(places: seq<Place>, buckets: seq<seq<nat>>) {
    && (forall b :: 0 <= b < |buckets| ==> BucketOk(places, buckets[b], b))
    && (forall p :: 0 <= p < |places| && !places[p].free ==>
          places[p].bucket < |buckets| && p in buckets[places[p].bucket])
  }

  /** Version 0 marks a free page; allocated pages carry distinct versions, all already issued. */
  ghost predicate VersionsInv(places: seq<Place>, version: nat) {
    && 0 < version
    && (forall p :: 0 <= p < |places| ==>
          if places[p].free then places[p].version == 0 else 0 < places[p].version < version)
    && (forall p, q :: 0 <= p < q < |places| && !places[p].free && !places[q].free ==>
          places[p].version != places[q].version)
  }

  // ---------------------------------------------------------------- page contents

  /** An allocated page: [0, written) is on disk, the rest of its log is in its write buffer. */
  ghost predicate PageOk(c: Conf, f: Fill, disk: seq<byte>, wbufs: seq<Wbuf>, log: seq<byte>)
    requires ConfOk(c)
  {
    && f.written % c.wbufSize == 0
    && f.written <= f.reserved <= c.pageSize == |disk|
    && (f.active <==> f.written < c.pageSize)
    && f.written <= |log|
    && disk[..f.written] == log[..f.written]
    && match f.wbuf
       case None => f.reserved == f.written == |log|
       case Some(w) =>
         && w < |wbufs|
         && wbufs[w].offset == f.written
         && f.reserved == f.written + c.wbufSize
         && wbufs[w].free <= c.wbufSize == |wbufs[w].buf|
         && |log| == (if wbufs[w].full then f.reserved else f.reserved - wbufs[w].free)
         && wbufs[w].buf[..|log| - f.written] == log[f.written..]
  }

  ghost predicate PageInv(c: Conf, place: Place, p: nat, f: Fill, disk: seq<byte>, wbufs: seq<Wbuf>, logs: map<nat,
      Log>)
    requires ConfOk(c)
  {
    if place.free then f == Fill(0, 0, false, None)
    else
      && place.version in logs
      && logs[place.version].page == p
      && PageOk(c, f, disk, wbufs, logs[place.version].bytes)
  }

  ghost predicate PagesInv(c: Conf, places: seq<Place>, fills: seq<Fill>, disk: seq<seq<byte>>,
                           wbufs: seq<Wbuf>, logs: map<nat, Log>)
    requires ConfOk(c)
  {
    && |places| == |fills| == |disk|
    && forall p {:trigger places[p]} {:trigger fills[p]} {:trigger disk[p]} :: 0 <= p < |places| ==>
      PageInv(c, places[p], p, fills[p], disk[p], wbufs, logs)
  }

  /** A free page holds nothing and nobody reads it. */
  ghost predicate IdleInv(places: seq<Place>, counts: seq<Counts>, refs: seq<int>) {
    && |places| == |counts| == |refs|
    && forall p :: 0 <= p < |places| && places[p].free ==> counts[p] == Counts(0, 0) && refs[p] == 0
  }

  /** The objects of one version occupy disjoint extents, in order, each inside one buffer extent. */
  ghost predicate LogOk(c: Conf, log: Log)
    requires ConfOk(c)
  {
    && |log.bytes| <= c.pageSize
    && (forall i :: 0 <= i < |log.objs| ==>
          var o := log.objs[i];
          && o.offset + |o.data| <= |log.bytes|
          && log.bytes[o.offset..o.offset + |o.data|] == o.data
          && InBlock(c.wbufSize, o.offset, |o.data|))
    && (forall i, j :: 0 <= i < j < |log.objs| ==>
          log.objs[i].offset + |log.objs[i].data| <= log.objs[j].offset)
  }

  ghost predicate LogsInv(c: Conf, logs: map<nat, Log>, version: nat)
    requires ConfOk(c)
  {
    forall v :: v in logs ==> 0 < v < version && logs[v].page < c.pageCount && LogOk(c, logs[v])
  }

  // ---------------------------------------------------------------- buffers and IOs

  /** Buffers that are shipped but not yet given back. */
  ghost function Busy(wbufs: seq<Wbuf>, stack: seq<nat>): set<nat> {
    set w | 0 <= w < |wbufs| && w !in stack && wbufs[w].full
  }

  /** A buffer is on the stack or attached to one page. */
  ghost predicate WbufInv(c: Conf, fills: seq<Fill>, stack: seq<nat>) {
    && NoDup(stack)
    && (forall p :: 0 <= p < |fills| && fills[p].wbuf.Some? ==> fills[p].wbuf.value !in stack)
    && (forall p, q :: 0 <= p < q < |fills| && fills[p].wbuf.Some? ==> fills[p].wbuf != fills[q].wbuf)
    && |stack| + Sum(fills, HoldsWbuf()) == c.wbufCount
  }

  /** Every shipped buffer uses one IO of the stack. */
  ghost predicate IoStackInv(c: Conf, wbufs: seq<Wbuf>, stack: seq<nat>, ioStack: int) {
    ioStack + |Busy(wbufs, stack)| == c.wbufCount
  }

  ghost predicate Shipped(fills: seq<Fill>, wbufs: seq<Wbuf>, io: Io) {
    && io.Write?
    && io.page < |fills| && io.wbuf < |wbufs|
    && fills[io.page].wbuf == Some(io.wbuf)
    && wbufs[io.wbuf].full
    && wbufs[io.wbuf].offset == io.offset
  }

  /** A write IO is outstanding exactly once for each shipped buffer, and for nothing else. */
  ghost predicate WritesInv(threads: seq<IoThread>, fills: seq<Fill>, wbufs: seq<Wbuf>) {
    forall io: Io :: io.Write? ==> Sum(threads, Occurrences(io)) == if Shipped(fills, wbufs, io) then 1 else 0
  }

  ghost predicate DataOf(logs: map<nat, Log>, io: Io, data: seq<byte>) {
    && io.Read?
    && io.version in logs
    && io.offset + io.len <= |logs[io.version].bytes|
    && data == logs[io.version].bytes[io.offset..io.offset + io.len]
  }

  /** The pwrite of a thread whose callback is still to run is on the disk. */
  ghost predicate FlushOk(th: IoThread, disk: seq<seq<byte>>, wbufs: seq<Wbuf>) {
    th.phase.Flushed? ==>
      && th.batch != [] && th.batch[0].Write?
      && var io := th.batch[0];
         && io.page < |disk| && io.wbuf < |wbufs|
         && io.offset + |wbufs[io.wbuf].buf| <= |disk[io.page]|
         && disk[io.page][io.offset..io.offset + |wbufs[io.wbuf].buf|] == wbufs[io.wbuf].buf
  }

  ghost predicate FlushesInv(threads: seq<IoThread>, disk: seq<seq<byte>>, wbufs: seq<Wbuf>) {
    forall t :: 0 <= t < |threads| ==> FlushOk(threads[t], disk, wbufs)
  }

  /** A page being read keeps its version, and the range read is below its written mark. */
  ghost predicate PinOk(th: IoThread, places: seq<Place>, fills: seq<Fill>) {
    th.phase.Pinned? || th.phase.Got? ==>
      && th.batch != [] && th.batch[0].Read?
      && var io := th.batch[0];
         && io.page < |places| && io.page < |fills|
         && !places[io.page].free
         && places[io.page].version == io.version
         && io.offset + io.len <= fills[io.page].written
  }

  ghost predicate PinsOk(threads: seq<IoThread>, places: seq<Place>, fills: seq<Fill>) {
    forall t :: 0 <= t < |threads| ==> PinOk(threads[t], places, fills)
  }

  /** A page's refcount is the number of IO threads reading it from disk. */
  ghost predicate RefsInv(threads: seq<IoThread>, refs: seq<int>) {
    forall p :: 0 <= p < |refs| ==> refs[p] == Sum(threads, Pins(p))
  }

  ghost predicate ReadsOk(c: Conf, th: IoThread, logs: map<nat, Log>)
    requires ConfOk(c)
  {
    && (forall k :: 0 <= k < |th.queue| && th.queue[k].Read? ==> ReadValid(c, logs, th.queue[k]))
    && (forall k :: 0 <= k < |th.batch| && th.batch[k].Read? ==> ReadValid(c, logs, th.batch[k]))
    && (th.phase.Got? ==> th.batch != [] && DataOf(logs, th.batch[0], th.phase.data))
  }

  ghost predicate ReadsInv(c: Conf, threads: seq<IoThread>, logs: map<nat, Log>)
    requires ConfOk(c)
  {
    forall t :: 0 <= t < |threads| ==> ReadsOk(c, threads[t], logs)
  }

  ghost predicate DepthInv(threads: seq<IoThread>) {
    forall t :: 0 <= t < |threads| ==> threads[t].depth == |threads[t].queue|
  }

  // ---------------------------------------------------------------- accounting, writers, results

  ghost predicate StatsInv(counts: seq<Counts>, objectsUsed: int, bytesUsed: int, excessObjects: int,
      excessBytes: int) {
    && objectsUsed == Sum(counts, Objects()) - excessObjects
    && bytesUsed == Sum(counts, Bytes()) - excessBytes
  }

  ghost predicate AllFull(c: Conf, fills: seq<Fill>, list: seq<nat>) {
    forall k :: 0 <= k < |list| ==> list[k] < |fills| && fills[list[k]].reserved == c.pageSize
  }

  /** Only the head of a bucket list has room; the assert of _allocate_page holds when it is called. */
  ghost predicate WriterOk(c: Conf, w: Writer, list: seq<nat>, fills: seq<Fill>) {
    && (list != [] ==> AllFull(c, fills, list[1..]))
    && match w
       case Idle => true
       case NeedPage(_) => AllFull(c, fills, list)
       case Picked(p, _, _) => (list != [] && list[0] == p) || AllFull(c, fills, list)
  }

  ghost predicate WritersInv(c: Conf, writers: seq<Writer>, buckets: seq<seq<nat>>, fills: seq<Fill>) {
    && |writers| == |buckets|
    && forall b {:trigger writers[b]} {:trigger buckets[b]} :: 0 <= b < |writers| ==>
      WriterOk(c, writers[b], buckets[b], fills)
  }

  /** A completed read returned the bytes of its version, or that version is closed for good. */
  ghost predicate ResultOk(r: Completed, logs: map<nat, Log>, places: seq<Place>, closed: seq<bool>) {
    match r
    case Data(io, data) => DataOf(logs, io, data)
    case Miss(io) =>
      && io.Read? && io.version in logs
      && io.page < |places| && io.page < |closed|
      && (places[io.page].version == io.version ==> closed[io.page])
  }

  ghost predicate ResultsInv(results: seq<Completed>, logs: map<nat, Log>, places: seq<Place>, closed: seq<bool>) {
    forall i :: 0 <= i < |results| ==> ResultOk(results[i], logs, places, closed)
  }

  /** The maintenance pass keeps the least version among the pages it noted, and that page stays put. */
  ghost predicate MaintInv(m: Maint, places: seq<Place>, fills: seq<Fill>) {
    m.Scanning? ==>
      && (m.low.None? <==> m.cands == {})
      && (m.low.Some? ==>
            var l := m.low.value;
            && l in m.cands
            && (forall c :: c in m.cands ==> l.version <= c.version)
            && l.page < |places| && l.page < |fills| && l.page < m.i
            && !places[l.page].free && !fills[l.page].active
            && places[l.page].version == l.version && places[l.page].freeBucket == 0)
  }

  ghost predicate Inv(s: Engine) {
    && Shape(s)
    && FreeListsInv(s.places, s.freeLists, s.pageFree)
    && BucketsInv(s.places, s.buckets)
    && VersionsInv(s.places, s.version)
    && PagesInv(s.conf, s.places, s.fills, s.disk, s.wbufs, s.logs)
    && IdleInv(s.places, s.counts, s.refs)
    && LogsInv(s.conf, s.logs, s.version)
    && WbufInv(s.conf, s.fills, s.wbufStack)
    && IoStackInv(s.conf, s.wbufs, s.wbufStack, s.ioStack)
    && WritesInv(s.threads, s.fills, s.wbufs)
    && FlushesInv(s.threads, s.disk, s.wbufs)
    && PinsOk(s.threads, s.places, s.fills)
    && RefsInv(s.threads, s.refs)
    && ReadsInv(s.conf, s.threads, s.logs)
    && DepthInv(s.threads)
    && StatsInv(s.counts, s.objectsUsed, s.bytesUsed, s.excessObjects, s.excessBytes)
    && WritersInv(s.conf, s.writers, s.buckets, s.fills)
    && ResultsInv(s.results, s.logs, s.places, s.closed)
    && MaintInv(s.maint, s.places, s.fills)
  }
}
