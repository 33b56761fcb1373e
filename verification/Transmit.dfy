/** The response stream of a connection: what is queued, what each partial write removes, and what
    has gone out (memcached.c). */
module Transmit {
  import opened Octets
  import opened Sums
  import opened Flatten

  const IOV_MAX := 1024
  const RESP_IOVS := 4
  const LIMIT := IOV_MAX - 1

  /** A vector of a response: bytes still to send, or a chunked item of which the last `len` of the
      first `total` bytes are still to send. */
  datatype Iov = Plain(data: seq<byte>) | Chunked(chunks: seq<seq<byte>>, total: nat, len: nat)

  /** `chunkedIov` is the index of the chunked vector; 0 means none.  `item` is released with it. */
  datatype Resp = Resp(iovs: seq<Iov>, chunkedIov: nat, tosend: int, skip: bool, item: Option<nat>)

  // ---------------------------------------------------------------- meaning

  predicate IovOk(v: Iov) {
    v.Chunked? ==> v.len <= v.total <= |Flat(v.chunks)|
  }

  /** The bytes a vector still has to send. */
  function Bytes(v: Iov): (b: seq<byte>)
    requires IovOk(v)
    ensures |b| == Len(v)
  {
    match v
    case Plain(data) => data
    case Chunked(chunks, total, len) => Flat(chunks)[total - len..total]
  }

  function Len(v: Iov): nat {
    if v.Plain? then |v.data| else v.len
  }

  predicate IovsOk(vs: seq<Iov>) {
    forall i :: 0 <= i < |vs| ==> IovOk(vs[i])
  }

  function Concat(vs: seq<Iov>): seq<byte>
    requires IovsOk(vs)
  {
    if vs == [] then [] else Bytes(vs[0]) + Concat(vs[1..])
  }

  predicate RespOk(r: Resp) {
    && |r.iovs| <= RESP_IOVS && IovsOk(r.iovs)
    && (r.chunkedIov != 0 ==> r.chunkedIov < |r.iovs|)
    && (forall i :: 0 <= i < |r.iovs| ==> (r.iovs[i].Chunked? <==> r.chunkedIov != 0 && i == r.chunkedIov))
    && r.tosend == |Concat(r.iovs)|
  }

  predicate ChainOk(rs: seq<Resp>) {
    forall i :: 0 <= i < |rs| ==> RespOk(rs[i])
  }

  /** What a response still has to send; a skipped one sends nothing. */
  function Pending(r: Resp): seq<byte>
    requires RespOk(r)
  {
    if r.skip then [] else Concat(r.iovs)
  }

  /** The stream a chain of responses still has to send. */
  function Stream(rs: seq<Resp>): seq<byte>
    requires ChainOk(rs)
  {
    if rs == [] then [] else Pending(rs[0]) + Stream(rs[1..])
  }

  // ---------------------------------------------------------------- laws of concatenation

  lemma ConcatNone(vs: seq<Iov>)
    ensures vs[..0] == [] && Concat([]) == []
  {
  }

  lemma ConcatCons(v: Iov, rest: seq<Iov>)
    requires IovOk(v) && IovsOk(rest)
    ensures IovsOk([v] + rest) && Concat([v] + rest) == Bytes(v) + Concat(rest)
  {
    assert ([v] + rest)[1..] == rest;
  }

  lemma ConcatOne(v: Iov)
    requires IovOk(v)
    ensures IovsOk([v]) && Concat([v]) == Bytes(v)
  {
    assert [v][1..] == [];
  }

  lemma {:induction false} ConcatAdd(a: seq<Iov>, b: seq<Iov>)
    requires IovsOk(a) && IovsOk(b)
    ensures IovsOk(a + b) && Concat(a + b) == Concat(a) + Concat(b)
  {
    hide Concat, Bytes, IovOk;
    ConcatNone(a);
    if a == [] {
      assert a + b == b;
    } else {
      ConcatAdd(a[1..], b);
      assert a == [a[0]] + a[1..] && a + b == [a[0]] + (a[1..] + b);
      ConcatCons(a[0], a[1..]);
      ConcatCons(a[0], a[1..] + b);
      Assoc(Bytes(a[0]), Concat(a[1..]), Concat(b));
    }
  }

  lemma StreamNone(rs: seq<Resp>)
    ensures rs[..0] == [] && Stream([]) == []
  {
  }

  lemma StreamCons(r: Resp, rest: seq<Resp>)
    requires RespOk(r) && ChainOk(rest)
    ensures ChainOk([r] + rest) && Stream([r] + rest) == Pending(r) + Stream(rest)
    ensures ChainOk([r]) && Stream([r]) == Pending(r)
  {
    hide RespOk, Pending;
    assert ([r] + rest)[1..] == rest;
    assert [r][1..] == [];
  }

  lemma {:induction false} StreamAdd(a: seq<Resp>, b: seq<Resp>)
    requires ChainOk(a) && ChainOk(b)
    ensures ChainOk(a + b) && Stream(a + b) == Stream(a) + Stream(b)
  {
    hide Stream, Pending, RespOk;
    StreamNone(a);
    if a == [] {
      assert a + b == b;
    } else {
      StreamAdd(a[1..], b);
      assert a == [a[0]] + a[1..] && a + b == [a[0]] + (a[1..] + b);
      StreamCons(a[0], a[1..]);
      StreamCons(a[0], a[1..] + b);
      Assoc(Pending(a[0]), Stream(a[1..]), Stream(b));
    }
  }

  /** Position k of a list of vectors splits its bytes. */
  lemma ConcatSplit(vs: seq<Iov>, k: nat)
    requires IovsOk(vs) && k < |vs|
    ensures IovsOk(vs[..k]) && IovsOk(vs[k + 1..])
    ensures Concat(vs) == Concat(vs[..k]) + (Bytes(vs[k]) + Concat(vs[k + 1..]))
  {
    hide Concat, Bytes, IovOk;
    assert vs == vs[..k] + ([vs[k]] + vs[k + 1..]);
    ConcatCons(vs[k], vs[k + 1..]);
    ConcatAdd(vs[..k], [vs[k]] + vs[k + 1..]);
  }

  lemma Middle(a: seq<byte>, b: seq<byte>, c: seq<byte>, i: nat, n: nat)
    requires i + n <= |b|
    ensures (a + (b + c))[|a| + i..|a| + i + n] == b[i..i + n]
  {
  }

  /** The next piece of a wanted stretch. */
  lemma NextPiece(all: seq<byte>, from: nat, len: nat, got: seq<byte>, n: nat)
    requires from + len <= |all| && got <= all[from..from + len] && |got| + n <= len
    ensures got + all[from + |got|..from + |got| + n] == all[from..from + len][..|got| + n]
  {
  }

  // ---------------------------------------------------------------- building a response

  function AddIov(r: Resp, data: seq<byte>): Resp {
    r.(iovs := r.iovs + [Plain(data)], tosend := r.tosend + |data|)
  }

  function AddChunkedIov(r: Resp, chunks: seq<seq<byte>>, len: nat): Resp {
    r.(iovs := r.iovs + [Chunked(chunks, len, len)], chunkedIov := |r.iovs|, tosend := r.tosend + len)
  }

  /** Adding a vector appends its bytes to what the response will send. */
  lemma AddIovAppends(r: Resp, data: seq<byte>)
    requires RespOk(r) && |r.iovs| < RESP_IOVS
    ensures RespOk(AddIov(r, data)) && Concat(AddIov(r, data).iovs) == Concat(r.iovs) + data
  {
    ConcatOne(Plain(data));
    ConcatAdd(r.iovs, [Plain(data)]);
  }

  /** So does a chunked item, of which the first `len` bytes are sent; it cannot come first. */
  lemma AddChunkedIovAppends(r: Resp, chunks: seq<seq<byte>>, len: nat)
    requires RespOk(r) && 0 < |r.iovs| < RESP_IOVS && r.chunkedIov == 0 && len <= |Flat(chunks)|
    ensures RespOk(AddChunkedIov(r, chunks, len))
    ensures Concat(AddChunkedIov(r, chunks, len).iovs) == Concat(r.iovs) + Flat(chunks)[..len]
  {
    var v := Chunked(chunks, len, len);
    ConcatOne(v);
    ConcatAdd(r.iovs, [v]);
    assert Bytes(v) == Flat(chunks)[..len];
  }

  // ---------------------------------------------------------------- gathering vectors for a write

  /** Vectors for the unsent part of a chunked item, at most `room` of them. */
  method GatherChunks(chunks: seq<seq<byte>>, total: nat, len: nat, room: nat) returns (vs: seq<seq<byte>>)
    requires len <= total <= |Flat(chunks)|
    ensures |vs| <= room
    ensures Flat(vs) <= Flat(chunks)[total - len..total]
    ensures |vs| < room ==> Flat(vs) == Flat(chunks)[total - len..total]
    ensures vs != [] ==> Flat(vs) != []
    ensures len == 0 ==> vs == []
  {
    hide Flat;
    ghost var all := Flat(chunks);
    ghost var want := all[total - len..total];
    vs := [];
    FlatNone<byte>();
    var done: int := total - len;
    var todo: int := len;
    var i := 0;
    assert chunks[..0] == [];
    while i < |chunks| && todo > 0 && |vs| < room
      invariant 0 <= i <= |chunks| && |vs| <= room && done >= 0
      invariant todo > 0 ==> todo == len - |Flat(vs)| && |Flat(chunks[..i])| + done == total - todo
      invariant done > 0 ==> vs == []
      invariant (vs != [] ==> Flat(vs) != []) && (len == 0 ==> vs == [])
      invariant Flat(vs) <= want
      invariant todo <= 0 ==> Flat(vs) == want
    {
      ghost var pos := |Flat(chunks[..i])|;
      FlatUpTo(chunks, i);
      FlatAround(chunks, i);
      var used := |chunks[i]|;
      if done >= used {
        done := done - used;
      } else {
        var skip := done;
        done := 0;
        var n := if used - skip > todo then todo else used - skip;
        var piece := chunks[i][skip..skip + n];
        Middle(Flat(chunks[..i]), chunks[i], Flat(chunks[i + 1..]), skip, n);
        NextPiece(all, total - len, len, Flat(vs), n);
        FlatSnoc(vs, piece);
        vs := vs + [piece];
        todo := todo - (used - skip);
      }
      i := i + 1;
    }
    assert i == |chunks| ==> chunks[..i] == chunks;
  }

  /** The vectors of a response with nothing left to send: a chunked one among them takes no place. */
  function Plains(r: Resp): nat
    requires r.chunkedIov != 0 ==> r.iovs != []
  {
    if r.chunkedIov != 0 then |r.iovs| - 1 else |r.iovs|
  }

  /** Vectors for one response, at most `room` of them. */
  method GatherResp(r: Resp, room: nat) returns (vs: seq<seq<byte>>)
    requires RespOk(r) && |r.iovs| < room
    ensures |vs| <= room
    ensures Flat(vs) <= Concat(r.iovs)
    ensures |vs| < room ==> Flat(vs) == Concat(r.iovs)
    ensures Flat(vs) == [] ==> Concat(r.iovs) == [] && |vs| == Plains(r)
  {
    hide Flat, Concat, Bytes;
    vs := [];
    FlatNone<byte>();
    ConcatNone(r.iovs);
    var x := 0;
    while x < |r.iovs|
      invariant 0 <= x <= |r.iovs| && |vs| < room
      invariant r.chunkedIov == 0 ==> |vs| == x
      invariant Flat(vs) == [] ==> |vs| == if r.chunkedIov != 0 && r.chunkedIov < x then x - 1 else x
      invariant IovsOk(r.iovs[..x]) && Flat(vs) == Concat(r.iovs[..x])
    {
      var more: seq<seq<byte>>;
      if r.chunkedIov != 0 && x == r.chunkedIov {
        var v := r.iovs[x];
        more := GatherChunks(v.chunks, v.total, v.len, room - |vs|);
        BytesOfChunked(v);
      } else {
        more := [r.iovs[x].data];
        FlatOne(r.iovs[x].data);
        BytesOfPlain(r.iovs[x]);
      }
      FlatAdd(vs, more);
      ConcatSplit(r.iovs, x);
      ConcatUpTo(r.iovs, x);
      vs := vs + more;
      if |vs| >= room {
        return;
      }
      x := x + 1;
    }
    assert r.iovs[..x] == r.iovs;
  }

  lemma BytesOfPlain(v: Iov)
    requires v.Plain?
    ensures Bytes(v) == v.data
  {
  }

  lemma BytesOfChunked(v: Iov)
    requires v.Chunked? && IovOk(v)
    ensures Bytes(v) == Flat(v.chunks)[v.total - v.len..v.total]
  {
  }

  lemma ConcatUpTo(vs: seq<Iov>, k: nat)
    requires IovsOk(vs) && k < |vs|
    ensures IovsOk(vs[..k]) && IovsOk(vs[..k + 1]) && Concat(vs[..k + 1]) == Concat(vs[..k]) + Bytes(vs[k])
  {
    hide Concat, Bytes;
    assert vs[..k + 1] == vs[..k] + [vs[k]];
    ConcatOne(vs[k]);
    ConcatAdd(vs[..k], [vs[k]]);
  }

  lemma StreamSnoc(rs: seq<Resp>, k: nat)
    requires ChainOk(rs) && k < |rs|
    ensures Stream(rs[..k + 1]) == Stream(rs[..k]) + Pending(rs[k])
  {
    hide Stream, Pending, RespOk;
    assert rs[..k + 1] == rs[..k] + [rs[k]];
    StreamCons(rs[k], []);
    StreamAdd(rs[..k], [rs[k]]);
  }

  lemma StreamUpTo(rs: seq<Resp>, k: nat)
    requires ChainOk(rs) && k < |rs|
    ensures Stream(rs[..k + 1]) == Stream(rs[..k]) + Pending(rs[k])
    ensures Stream(rs) == Stream(rs[..k]) + Stream(rs[k..])
    ensures Stream(rs[k..]) == Pending(rs[k]) + Stream(rs[k + 1..])
  {
    hide Stream, Pending, RespOk;
    StreamSnoc(rs, k);
    assert rs == rs[..k] + rs[k..];
    StreamAdd(rs[..k], rs[k..]);
    assert rs[k..] == [rs[k]] + rs[k + 1..];
    StreamCons(rs[k], rs[k + 1..]);
  }

  /** A write that has `used` vectors offers bytes of the chain: it comes to a response with bytes to
      send before the vectors of responses without any have filled it. */
  predicate Offers(rs: seq<Resp>, used: nat)
    requires ChainOk(rs)
  {
    && rs != [] && used + |rs[0].iovs| < LIMIT
    && (Pending(rs[0]) != [] || Offers(rs[1..], if rs[0].skip then used else used + Plains(rs[0])))
  }

  /** Fill the vectors of one write from the front of the chain. */
  method Gather(rs: seq<Resp>, oneResp: bool) returns (vs: seq<seq<byte>>)
    requires ChainOk(rs)
    ensures |vs| <= LIMIT
    ensures Flat(vs) <= Stream(rs)
    ensures !oneResp && |vs| + RESP_IOVS < LIMIT ==> Flat(vs) == Stream(rs)
    ensures !oneResp ==> (Flat(vs) != [] <==> Offers(rs, 0))
  {
    hide Flat, Stream, RespOk, Pending, Plains, Offers, Concat, IovsOk, Fronts;
    vs := [];
    BeginsFront(rs);
    FlatNone<byte>();
    StreamNone(rs);
    var i := 0;
    while i < |rs| && |vs| + |rs[i].iovs| < LIMIT
      invariant 0 <= i <= |rs| && |vs| <= LIMIT
      invariant Flat(vs) <= Stream(rs)
      invariant |vs| < LIMIT ==> Flat(vs) == Stream(rs[..i])
      invariant Fronts(rs, i, vs)
    {
      if rs[i].skip {
        PassesSkipped(rs, i, vs);
      } else {
        WholeOk(rs[i]);
        var more := GatherResp(rs[i], LIMIT - |vs|);
        TakesIn(rs, i, vs, more);
        vs := vs + more;
        if oneResp {
          return;
        }
      }
      i := i + 1;
    }
    HowFronts(rs, i, vs);
    assert i == |rs| ==> rs[..i] == rs;
    if i < |rs| {
      assert |rs[i].iovs| <= RESP_IOVS by { IovCount(rs[i]); }
    }
  }

  /** Whether the chain is offered is decided by the vectors gathered from its first i responses, or is
      still open. */
  ghost predicate Fronts(rs: seq<Resp>, i: nat, vs: seq<seq<byte>>)
    requires ChainOk(rs) && i <= |rs|
  {
    if Flat(vs) == [] then Offers(rs, 0) <==> Offers(rs[i..], |vs|) else Offers(rs, 0)
  }

  lemma BeginsFront(rs: seq<Resp>)
    requires ChainOk(rs)
    ensures Fronts(rs, 0, [])
  {
    assert rs[0..] == rs;
  }

  lemma HowFronts(rs: seq<Resp>, i: nat, vs: seq<seq<byte>>)
    requires ChainOk(rs) && i <= |rs| && Fronts(rs, i, vs)
    requires i == |rs| || |vs| + |rs[i].iovs| >= LIMIT
    ensures Flat(vs) != [] <==> Offers(rs, 0)
  {
    hide Flat, RespOk, Pending, Plains;
  }

  lemma PassesSkipped(rs: seq<Resp>, i: nat, vs: seq<seq<byte>>)
    requires ChainOk(rs) && i < |rs| && rs[i].skip && |vs| + |rs[i].iovs| < LIMIT && Fronts(rs, i, vs)
    ensures Stream(rs[..i + 1]) == Stream(rs[..i]) && Fronts(rs, i + 1, vs)
  {
    hide Flat, Stream, RespOk, Pending, Plains, Offers;
    StreamUpTo(rs, i);
    PendingOf(rs[i]);
    OffersNext(rs, i, |vs|);
  }

  /** The vectors of response i behind those of the responses before it. */
  lemma TakesIn(rs: seq<Resp>, i: nat, vs: seq<seq<byte>>, more: seq<seq<byte>>)
    requires ChainOk(rs) && i < |rs| && !rs[i].skip && |vs| + |rs[i].iovs| < LIMIT && Fronts(rs, i, vs)
    requires IovsOk(rs[i].iovs) && Flat(vs) == Stream(rs[..i]) && Flat(more) <= Concat(rs[i].iovs)
    requires rs[i].chunkedIov != 0 ==> rs[i].iovs != []
    requires Flat(more) == [] ==> Concat(rs[i].iovs) == [] && |more| == Plains(rs[i])
    ensures Flat(vs + more) <= Stream(rs)
    ensures Flat(more) == Concat(rs[i].iovs) ==> Flat(vs + more) == Stream(rs[..i + 1])
    ensures Fronts(rs, i + 1, vs + more)
  {
    hide Flat, Stream, RespOk, Pending, Plains, Offers, Concat, IovsOk;
    StreamUpTo(rs, i);
    PendingOf(rs[i]);
    OffersNext(rs, i, |vs|);
    FlatAdd(vs, more);
  }

  lemma OffersNext(rs: seq<Resp>, i: nat, used: nat)
    requires ChainOk(rs) && i < |rs| && used + |rs[i].iovs| < LIMIT
    ensures rs[i].chunkedIov != 0 ==> rs[i].iovs != []
    ensures Offers(rs[i..], used) <==>
      Pending(rs[i]) != [] || Offers(rs[i + 1..], if rs[i].skip then used else used + Plains(rs[i]))
  {
    hide Pending, Plains;
    assert rs[i..][1..] == rs[i + 1..];
  }

  /** A head with bytes to send is always offered. */
  lemma HeadOffered(rs: seq<Resp>)
    requires ChainOk(rs) && rs != [] && Pending(rs[0]) != []
    ensures Offers(rs, 0)
  {
    hide Pending;
    IovCount(rs[0]);
  }

  lemma PendingOf(r: Resp)
    requires RespOk(r)
    ensures Pending(r) == if r.skip then [] else Concat(r.iovs)
  {
  }

  lemma IovCount(r: Resp)
    requires RespOk(r)
    ensures |r.iovs| <= RESP_IOVS
  {
  }

  // ---------------------------------------------------------------- accounting for a write

  function Advanced(v: Iov, n: nat): (w: Iov)
    requires IovOk(v) && n <= Len(v)
    ensures IovOk(w) && Len(w) == Len(v) - n && Bytes(w) == Bytes(v)[n..]
  {
    match v
    case Plain(data) => Plain(data[n..])
    case Chunked(chunks, total, len) => Chunked(chunks, total, len - n)
  }

  /** Advancing the first vector that is not empty advances the whole. */
  lemma AdvanceAt(iovs: seq<Iov>, x: nat, n: nat)
    requires IovsOk(iovs) && x < |iovs| && n <= Len(iovs[x])
    requires IovsOk(iovs[..x]) && Concat(iovs[..x]) == []
    ensures var iovs' := iovs[x := Advanced(iovs[x], n)];
      && IovsOk(iovs') && IovsOk(iovs'[..x + 1]) && n <= |Concat(iovs)| && Concat(iovs') == Concat(iovs)[n..]
      && (n == Len(iovs[x]) ==> Concat(iovs'[..x + 1]) == [])
  {
    hide Concat, Bytes, Advanced;
    var iovs' := iovs[x := Advanced(iovs[x], n)];
    assert iovs'[..x] == iovs[..x] && iovs'[x + 1..] == iovs[x + 1..] && iovs'[x] == Advanced(iovs[x], n);
    ConcatSplit(iovs, x);
    ConcatSplit(iovs', x);
    ConcatUpTo(iovs', x);
  }

  /** Take `res` sent bytes, fewer than it has, off the front of a response. */
  method AdvanceResp(r: Resp, res: nat) returns (r': Resp)
    requires RespOk(r) && res < r.tosend
    ensures RespOk(r') && Concat(r'.iovs) == Concat(r.iovs)[res..]
    ensures r' == r.(iovs := r'.iovs, tosend := r.tosend - res)
  {
    hide Concat, Bytes, IovsOk, IovOk, Advanced;
    var iovs := r.iovs;
    var left: nat := res;
    var x := 0;
    assert IovsOk(iovs) by { WholeOk(r); }
    EmptyPrefix(iovs);
    while x < |iovs|
      invariant 0 <= x <= |iovs| == |r.iovs| && left <= res && IovsOk(iovs)
      invariant forall i :: 0 <= i < |iovs| ==> (iovs[i].Chunked? <==> r.iovs[i].Chunked?)
      invariant IovsOk(iovs[..x]) && Concat(iovs[..x]) == []
      invariant res - left <= |Concat(r.iovs)| && Concat(iovs) == Concat(r.iovs)[res - left..]
      decreases |iovs| - x
    {
      assert IovOk(iovs[x]) by { OneOk(iovs, x); }
      var len := Len(iovs[x]);
      var n := if left >= len then len else left;
      AdvanceAt(iovs, x, n);
      SameKind(iovs[x], n);
      iovs := iovs[x := Advanced(iovs[x], n)];
      left := left - n;
      if n < len {
        break;
      }
      x := x + 1;
    }
    assert iovs[..|iovs|] == iovs;
    r' := r.(iovs := iovs, tosend := r.tosend - res);
  }

  lemma WholeOk(r: Resp)
    requires RespOk(r)
    ensures IovsOk(r.iovs) && (r.chunkedIov != 0 ==> r.iovs != [])
  {
  }

  lemma EmptyPrefix(iovs: seq<Iov>)
    ensures IovsOk(iovs[..0]) && Concat(iovs[..0]) == []
  {
  }

  lemma OneOk(iovs: seq<Iov>, x: nat)
    requires IovsOk(iovs) && x < |iovs|
    ensures IovOk(iovs[x])
  {
  }

  lemma SameKind(v: Iov, n: nat)
    requires IovOk(v) && n <= Len(v)
    ensures Advanced(v, n).Chunked? == v.Chunked?
  {
  }

  /** Account for `res` sent bytes: finish the responses they complete, in order, and leave the rest
      of the stream pending.  `finished` counts the responses taken off the chain. */
  method Post(rs: seq<Resp>, res: nat) returns (rest: seq<Resp>, finished: nat)
    requires ChainOk(rs) && res <= |Stream(rs)|
    ensures ChainOk(rest) && Stream(rest) == Stream(rs)[res..]
    ensures finished <= |rs| && |rest| == |rs| - finished && |Stream(rs[..finished])| <= res
    ensures rest != [] ==> rest[1..] == rs[finished + 1..] && rest[0].item == rs[finished].item
    ensures rest != [] ==> !rest[0].skip && Pending(rest[0]) != []
  {
    hide Stream, Pending, RespOk, Concat;
    var left: nat := res;
    finished := 0;
    StreamNone(rs);
    assert rs[0..] == rs;
    while finished < |rs|
      invariant 0 <= finished <= |rs| && left <= res
      invariant |Stream(rs[..finished])| == res - left
      invariant left <= |Stream(rs[finished..])| && Stream(rs[finished..]) == Stream(rs)[res - left..]
    {
      var r := rs[finished];
      StreamUpTo(rs, finished);
      PendingOf(r);
      if !r.skip {
        ToSend(r);
        if left < r.tosend {
          var r' := AdvanceResp(r, left);
          PendingOf(r');
          rest := [r'] + rs[finished + 1..];
          StreamCons(r', rs[finished + 1..]);
          DropInto(Stream(rs), res - left, Pending(r), Stream(rs[finished + 1..]), left);
          return;
        }
        DropInto(Stream(rs), res - left, Pending(r), Stream(rs[finished + 1..]), r.tosend);
        left := left - r.tosend;
      }
      finished := finished + 1;
    }
    rest := [];
    assert rs[finished..] == [];
  }

  /** Dropping n more bytes of s, when a + b is what the first k drops leave. */
  lemma DropInto(s: seq<byte>, k: nat, a: seq<byte>, b: seq<byte>, n: nat)
    requires k <= |s| && s[k..] == a + b && n <= |a|
    ensures s[k + n..] == a[n..] + b
  {
    assert s[k + n..] == s[k..][n..];
  }

  lemma ToSend(r: Resp)
    requires RespOk(r)
    ensures IovsOk(r.iovs) && r.tosend == |Concat(r.iovs)|
  {
  }

  // ---------------------------------------------------------------- a connection

  datatype Outcome = Complete | Incomplete | SoftError | HardError

  /** What the socket does with a write: takes some of the bytes, asks to wait, or fails. */
  datatype Socket = Takes(bytes: nat) | WouldBlock | Fails

  /** A chain that has been fed `history`, of whose responses the first `finished` are done, and that
      has sent `sent`: nothing lost, nothing repeated, nothing out of order. */
  ghost predicate Delivered(chain: seq<Resp>, history: seq<Resp>, finished: nat, sent: seq<byte>) {
    && ChainOk(chain) && ChainOk(history)
    && sent + Stream(chain) == Stream(history)
    && finished <= |history| && |chain| == |history| - finished
    && (chain != [] ==> chain[1..] == history[finished + 1..] && chain[0].item == history[finished].item)
    && |Stream(history[..finished])| <= |sent|
  }

  lemma QueueDelivers(chain: seq<Resp>, history: seq<Resp>, finished: nat, sent: seq<byte>, r: Resp)
    requires Delivered(chain, history, finished, sent) && RespOk(r)
    ensures Delivered(chain + [r], history + [r], finished, sent)
  {
    hide Stream, RespOk, Pending;
    StreamCons(r, []);
    StreamAdd(chain, [r]);
    StreamAdd(history, [r]);
    assert (history + [r])[..finished] == history[..finished];
    if chain != [] {
      assert (chain + [r])[1..] == chain[1..] + [r];
      assert (history + [r])[finished + 1..] == history[finished + 1..] + [r];
    }
  }

  /** Finishing k responses of the chain finishes k responses of the history, all of whose bytes
      have then been sent. */
  lemma WriteDelivers(chain: seq<Resp>, history: seq<Resp>, finished: nat, sent: seq<byte>,
                      rest: seq<Resp>, k: nat, res: nat)
    requires Delivered(chain, history, finished, sent) && ChainOk(rest)
    requires res <= |Stream(chain)| && Stream(rest) == Stream(chain)[res..]
    requires k <= |chain| && |rest| == |chain| - k && |Stream(chain[..k])| <= res
    requires rest != [] ==> rest[1..] == chain[k + 1..] && rest[0].item == chain[k].item
    ensures Delivered(rest, history, finished + k, sent + Stream(chain)[..res])
  {
    hide Stream, RespOk, Pending;
    assert sent + Stream(chain)[..res] + Stream(rest) == sent + Stream(chain);
    EndsAgree(chain, history, finished, sent, k);
    if rest != [] && k > 0 {
      assert chain[1..][k - 1] == chain[k] && chain[1..][k..] == chain[k + 1..];
      assert history[finished + 1..][k..] == history[finished + k + 1..];
    }
  }

  lemma EndsAgree(chain: seq<Resp>, history: seq<Resp>, finished: nat, sent: seq<byte>, k: nat)
    requires Delivered(chain, history, finished, sent) && k <= |chain|
    ensures k > 0 ==> |Stream(history[..finished + k])| == |sent| + |Stream(chain[..k])|
  {
    hide Stream, RespOk, Pending;
    if k > 0 {
      assert chain == chain[..k] + chain[k..];
      StreamAdd(chain[..k], chain[k..]);
      assert history == history[..finished + k] + history[finished + k..];
      StreamAdd(history[..finished + k], history[finished + k..]);
      assert chain[k..] == chain[1..][k - 1..] && history[finished + k..] == history[finished + 1..][k - 1..];
    }
  }

  class Connection {
    var chain: seq<Resp>
    ghost var history: seq<Resp>
    ghost var finished: nat
    ghost var sent: seq<byte>

    ghost predicate Valid()
      reads this
    {
      Delivered(chain, history, finished, sent)
    }

    constructor ()
      ensures Valid() && chain == [] && history == [] && sent == []
    {
      chain, history, finished, sent := [], [], 0, [];
    }

    method Queue(r: Resp)
      requires Valid() && RespOk(r)
      modifies this
      ensures Valid() && history == old(history) + [r] && sent == old(sent) && finished == old(finished)
    {
      QueueDelivers(chain, history, finished, sent, r);
      chain, history := chain + [r], history + [r];
    }

    /** One attempt to write.  What goes out is the next stretch of the queued stream, as much as the
        socket takes of what was offered; the items of finished responses are released, each after its
        last byte.  A socket that takes anything moves the connection on. */
    method Transmit(socket: Socket) returns (out: Outcome, released: seq<nat>, ghost offered: nat)
      requires Valid()
      modifies this
      ensures Valid() && history == old(history) && old(finished) <= finished && old(sent) <= sent
      ensures ChainOk(old(chain)) && offered <= |Stream(old(chain))| && (offered > 0 <==> Offers(old(chain), 0))
      ensures socket.Takes? ==> |sent| == |old(sent)| + (if socket.bytes < offered then socket.bytes else offered)
      ensures socket.Takes? ==> out == (if chain == [] then Complete else Incomplete)
      ensures socket.Takes? && chain != [] ==> ChainOk(chain) && Offers(chain, 0)
      ensures socket.Takes? && socket.bytes > 0 && old(chain) != [] ==>
        |sent| > |old(sent)| || finished > old(finished)
      ensures !socket.Takes? && out != Complete ==>
        && out == (if socket.WouldBlock? then SoftError else HardError)
        && sent == old(sent) && chain == old(chain) && finished == old(finished)
      ensures !socket.Takes? && out == Complete ==> sent == old(sent)
      ensures released == Items(old(history)[old(finished)..finished])
      ensures out == Complete ==> chain == []
      ensures chain == [] ==> sent == Stream(history)
    {
      hide Delivered, RespOk, Stream, Pending, Flat, Offers;
      ChainIsOk(chain, history, finished, sent);
      var vs := Gather(chain, false);
      offered := |Flat(vs)|;
      if vs == [] {
        FlatNone<byte>();
        released := Account(0);
        // with nothing to write the code answers complete without looking at the chain
        return Complete, released, offered;
      }
      EmptyChain(chain, history, finished, sent);
      if !socket.Takes? {
        assert history[finished..finished] == [];
        return if socket.WouldBlock? then SoftError else HardError, [], offered;
      }
      var size := |Flat(vs)|;
      released := Account(if socket.bytes < size then socket.bytes else size);
      out := if chain == [] then Complete else Incomplete;
    }

    /** Account for a write of `res` bytes. */
    method Account(res: nat) returns (released: seq<nat>)
      requires Valid() && res <= |Stream(chain)|
      modifies this
      ensures Valid() && ChainOk(chain) && history == old(history) && old(finished) <= finished
      ensures sent == old(sent) + old(Stream(chain))[..res]
      ensures released == Items(old(history)[old(finished)..finished])
      ensures chain == [] <==> res == old(|Stream(chain)|)
      ensures chain != [] ==> Offers(chain, 0)
      ensures old(chain) != [] && res == 0 && finished == old(finished) ==> Offers(old(chain), 0)
      ensures chain == [] ==> sent == Stream(history)
    {
      hide Delivered, RespOk, Stream, Pending, Offers;
      ChainIsOk(chain, history, finished, sent);
      var rest, k := Post(chain, res);
      MovesOn(chain, rest, k, res);
      released := Items(chain[..k]);
      ItemsAgree(chain, history, finished, sent, k);
      WriteDelivers(chain, history, finished, sent, rest, k, res);
      sent, chain, finished := sent + Stream(chain)[..res], rest, finished + k;
      EmptyChain(chain, history, finished, sent);
    }
  }

  /** A write of nothing finishes the head unless it has bytes to send; what is left offers bytes. */
  lemma MovesOn(chain: seq<Resp>, rest: seq<Resp>, k: nat, res: nat)
    requires ChainOk(chain) && ChainOk(rest) && res <= |Stream(chain)| && Stream(rest) == Stream(chain)[res..]
    requires k <= |chain| && |rest| == |chain| - k
    requires rest != [] ==> rest[1..] == chain[k + 1..] && Pending(rest[0]) != []
    ensures rest == [] <==> Stream(rest) == []
    ensures rest != [] ==> Offers(rest, 0)
    ensures chain != [] && res == 0 && k == 0 ==> Offers(chain, 0)
  {
    hide RespOk, Pending, Offers;
    if rest != [] {
      HeadOffered(rest);
      if res == 0 && k == 0 {
        assert |Pending(chain[0])| == |Pending(rest[0])|;
        HeadOffered(chain);
      }
    }
  }

  // ---------------------------------------------------------------- a write that offers nothing

  /** A response of empty vectors only. */
  function Hollow(): Resp { Resp([Plain([]), Plain([]), Plain([]), Plain([])], 0, 0, false, None) }

  lemma HollowPends()
    ensures RespOk(Hollow()) && Pending(Hollow()) == [] && Plains(Hollow()) == 4
  {
    var vs := Hollow().iovs;
    assert vs[1..] == [Plain([]), Plain([]), Plain([])] && vs[1..][1..] == [Plain([]), Plain([])];
    assert vs[1..][1..][1..] == [Plain([])] && [Plain([])][1..] == [];
    ConcatOne(Plain([]));
  }

  function Hollows(n: nat): seq<Resp> { seq(n, (k: nat) => Hollow()) }

  /** Enough of them in front keep a stream behind them out of the write. */
  lemma {:induction false} Clogged(n: nat, rest: seq<Resp>, used: nat)
    requires ChainOk(rest) && n > 0 && used + 4 * n >= LIMIT
    ensures ChainOk(Hollows(n) + rest) && Stream(Hollows(n) + rest) == Stream(rest)
    ensures !Offers(Hollows(n) + rest, used)
  {
    hide RespOk, Pending, Plains, Stream;
    HollowPends();
    HollowStream(n, rest);
    var rs := Hollows(n) + rest;
    assert rs[0] == Hollow() && rs[1..] == Hollows(n - 1) + rest;
    if n > 1 {
      Clogged(n - 1, rest, used + 4);
    }
  }

  lemma {:induction false} HollowStream(n: nat, rest: seq<Resp>)
    requires ChainOk(rest)
    ensures ChainOk(Hollows(n) + rest) && Stream(Hollows(n) + rest) == Stream(rest)
  {
    hide RespOk, Pending, Stream;
    if n == 0 {
      assert Hollows(0) + rest == rest;
    } else {
      HollowPends();
      HollowStream(n - 1, rest);
      assert Hollows(n) + rest == [Hollow()] + (Hollows(n - 1) + rest);
      StreamCons(Hollow(), Hollows(n - 1) + rest);
    }
  }

  /** The items the responses hold, in order. */
  function Items(rs: seq<Resp>): seq<nat> {
    if rs == [] then [] else (if rs[0].item.Some? then [rs[0].item.value] else []) + Items(rs[1..])
  }

  lemma ChainIsOk(chain: seq<Resp>, history: seq<Resp>, finished: nat, sent: seq<byte>)
    requires Delivered(chain, history, finished, sent)
    ensures ChainOk(chain) && ChainOk(history) && finished <= |history|
  {
  }

  lemma EmptyChain(chain: seq<Resp>, history: seq<Resp>, finished: nat, sent: seq<byte>)
    requires Delivered(chain, history, finished, sent)
    ensures chain == [] ==> ChainOk(history) && sent == Stream(history)
  {
    if chain == [] {
      assert Stream(chain) == [];
      assert sent + [] == sent;
    }
  }

  lemma ItemsAgree(chain: seq<Resp>, history: seq<Resp>, finished: nat, sent: seq<byte>, k: nat)
    requires Delivered(chain, history, finished, sent) && k <= |chain|
    ensures finished + k <= |history| && Items(chain[..k]) == Items(history[finished..finished + k])
  {
    hide Stream, RespOk, Pending;
    if k > 0 {
      assert chain[..k][1..] == chain[1..][..k - 1];
      assert history[finished..finished + k][1..] == history[finished + 1..][..k - 1];
    }
  }
}
