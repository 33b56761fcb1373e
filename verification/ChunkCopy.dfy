/** Append and prepend into a chunked item: filling a chain of chunks that grows as it fills
    (memcached.c, with the chunk allocation of items.c). */
module ChunkCopy {
  import opened Octets
  import opened Sums
  import opened Flatten

  datatype Chunk = Chunk(size: nat, data: seq<byte>)

  /** An item's value: in one piece, or in a chain of chunks. */
  datatype Value = Whole(bytes: seq<byte>) | Chunks(chain: seq<Chunk>)

  /** What the memory behind the next chunk allocation does: the wanted size is there, only the
      largest size is there, or nothing is. */
  datatype Luck = Fits | LargestOnly | Nothing

  ghost predicate ChunkOk(c: Chunk) { |c.data| <= c.size }

  function Full(c: Chunk): bool { |c.data| == c.size }

  /** A chain as the copy builds it: no chunk overfull, every chunk but the last one full. */
  ghost predicate ChainOk(chain: seq<Chunk>) {
    && chain != []
    && (forall i :: 0 <= i < |chain| ==> ChunkOk(chain[i]))
    && (forall i :: 0 <= i < |chain| - 1 ==> Full(chain[i]))
  }

  function Datas(chain: seq<Chunk>): (ds: seq<seq<byte>>)
    ensures |ds| == |chain| && forall i :: 0 <= i < |chain| ==> ds[i] == chain[i].data
  {
    seq(|chain|, i requires 0 <= i < |chain| => chain[i].data)
  }

  /** The bytes a chain holds. */
  function Payload(chain: seq<Chunk>): seq<byte> { Flat(Datas(chain)) }

  function Bytes(v: Value): seq<byte> {
    match v
    case Whole(bytes) => bytes
    case Chunks(chain) => Payload(chain)
  }

  function Min(a: nat, b: nat): nat { if a < b then a else b }

  // ---------------------------------------------------------------- growing a chain

  /** The capacity of a chunk allocated for `remain` more bytes, when chunks hold at most `max`. */
  function Capacity(remain: nat, max: nat, luck: Luck): Option<nat> {
    match luck
    case Fits => Some(Min(remain, max))
    case LargestOnly => Some(max)
    case Nothing => None
  }

  function Last(chain: seq<Chunk>): Chunk
    requires chain != []
  {
    chain[|chain| - 1]
  }

  /** Put more bytes into the last chunk. */
  function Poured(chain: seq<Chunk>, piece: seq<byte>): (r: seq<Chunk>)
    requires chain != []
    ensures |r| == |chain|
  {
    chain[|chain| - 1 := Last(chain).(data := Last(chain).data + piece)]
  }

  lemma PouredOk(chain: seq<Chunk>, piece: seq<byte>)
    requires ChainOk(chain) && |Last(chain).data| + |piece| <= Last(chain).size
    ensures ChainOk(Poured(chain, piece)) && Payload(Poured(chain, piece)) == Payload(chain) + piece
  {
    hide Flat;
    var r, n := Poured(chain, piece), |chain| - 1;
    FlatUpTo(Datas(chain), n);
    FlatUpTo(Datas(r), n);
    assert Datas(chain)[..n + 1] == Datas(chain) && Datas(r)[..n + 1] == Datas(r);
    assert Datas(chain)[..n] == Datas(r)[..n];
    Assoc(Flat(Datas(chain)[..n]), Last(chain).data, piece);
  }

  lemma GrownOk(chain: seq<Chunk>, size: nat)
    requires ChainOk(chain) && Full(Last(chain))
    ensures ChainOk(chain + [Chunk(size, [])]) && Payload(chain + [Chunk(size, [])]) == Payload(chain)
  {
    hide Flat;
    var r := chain + [Chunk(size, [])];
    assert Datas(r) == Datas(chain) + [[]];
    FlatSnoc(Datas(chain), []);
  }

  /** A chain being filled, and what memory will still give. */
  datatype Filling = Filling(chain: seq<Chunk>, lucks: seq<Luck>)

  /** The next allocation fails. */
  predicate Starved(lucks: seq<Luck>) { lucks == [] || lucks[0] == Nothing }

  /** When the last chunk is full, chain another one behind it. */
  method GrowIfFull(f: Filling, remain: nat, max: nat) returns (ok: bool, r: Filling)
    requires ChainOk(f.chain)
    ensures ok ==> ChainOk(r.chain) && Payload(r.chain) == Payload(f.chain)
    ensures ok && remain > 0 && max > 0 ==> !Full(Last(r.chain))
    ensures !ok ==> Full(Last(f.chain)) && Starved(f.lucks) && r == f
  {
    hide Flat;
    r := f;
    if !Full(Last(f.chain)) {
      return true, r;
    }
    var size := if f.lucks == [] then None else Capacity(remain, max, f.lucks[0]);
    if size.None? {
      return false, r;
    }
    GrownOk(f.chain, size.value);
    r := Filling(f.chain + [Chunk(size.value, [])], f.lucks[1..]);
    return true, r;
  }

  // ---------------------------------------------------------------- copying

  /** Fill the chain from a value in one piece. */
  method CopyWhole(f: Filling, bytes: seq<byte>, len: nat, max: nat) returns (ok: bool, r: Filling)
    requires ChainOk(f.chain) && len <= |bytes| && max > 0
    ensures ok ==> ChainOk(r.chain) && Payload(r.chain) == Payload(f.chain) + bytes[..len]
    ensures !ok ==> Starved(r.lucks)
  {
    hide ChainOk, Payload;
    r := f;
    LastOk(f.chain);
    var done := 0;
    assert Payload(f.chain) + bytes[..0] == Payload(f.chain);
    while done < len
      invariant 0 <= done <= len && ChainOk(r.chain) && r.chain != []
      invariant Payload(r.chain) == Payload(f.chain) + bytes[..done]
      decreases len - done, Full(Last(r.chain))
    {
      LastOk(r.chain);
      var last := Last(r.chain);
      var todo := Min(last.size - |last.data|, len - done);
      ghost var was := r.chain;
      PouredOk(r.chain, bytes[done..done + todo]);
      r := r.(chain := Poured(r.chain, bytes[done..done + todo]));
      assert bytes[..done] + bytes[done..done + todo] == bytes[..done + todo];
      Assoc(Payload(f.chain), bytes[..done], bytes[done..done + todo]);
      done := done + todo;
      ok, r := GrowIfFull(r, len - done, max);
      if !ok {
        return;
      }
      assert r.chain != [] by { LastOk(r.chain); }
    }
    return true, r;
  }

  lemma LastOk(chain: seq<Chunk>)
    requires ChainOk(chain)
    ensures chain != [] && |Last(chain).data| <= Last(chain).size
  {
  }

  lemma PayloadUpTo(chain: seq<Chunk>, k: nat)
    requires k < |chain|
    ensures Payload(chain[..k + 1]) == Payload(chain[..k]) + chain[k].data
    ensures |Payload(chain[..k])| + |chain[k].data| <= |Payload(chain)|
    ensures Payload(chain)[|Payload(chain[..k])|..|Payload(chain[..k])| + |chain[k].data|] == chain[k].data
  {
    hide Flat;
    FlatUpTo(Datas(chain), k);
    FlatAround(Datas(chain), k);
    assert Datas(chain)[..k] == Datas(chain[..k]) && Datas(chain)[..k + 1] == Datas(chain[..k + 1]);
  }

  /** Fill the chain from another chain: each step copies what both the chunk read and the chunk
      written allow. */
  method CopyChain(f: Filling, src: seq<Chunk>, len: nat, max: nat) returns (ok: bool, r: Filling)
    requires ChainOk(f.chain) && len <= |Payload(src)| && max > 0
    ensures ok ==> ChainOk(r.chain) && Payload(r.chain) == Payload(f.chain) + Payload(src)[..len]
    ensures !ok ==> Starved(r.lucks)
  {
    hide ChainOk, Payload;
    r := f;
    LastOk(f.chain);
    ghost var all := Payload(src);
    var remain, i, copied := len, 0, 0;
    PayloadNone(src);
    assert Payload(f.chain) + all[..0] == Payload(f.chain);
    while i < |src| && remain > 0
      invariant 0 <= i <= |src| && 0 <= remain <= len && ChainOk(r.chain) && r.chain != []
      invariant i < |src| ==> 0 <= copied <= |src[i].data|
      invariant i == |src| ==> copied == 0
      invariant len - remain == |Payload(src[..i])| + copied
      invariant Payload(r.chain) == Payload(f.chain) + all[..len - remain]
      decreases |src| - i, remain, Full(Last(r.chain))
    {
      LastOk(r.chain);
      PayloadUpTo(src, i);
      var last := Last(r.chain);
      ghost var pos := len - remain;
      var todo := Min(Min(last.size - |last.data|, |src[i].data| - copied), remain);
      var piece := src[i].data[copied..copied + todo];
      Inner(all, |Payload(src[..i])|, src[i].data, copied, todo);
      PouredOk(r.chain, piece);
      r := r.(chain := Poured(r.chain, piece));
      assert all[..pos] + all[pos..pos + todo] == all[..pos + todo];
      Assoc(Payload(f.chain), all[..pos], piece);
      copied := copied + todo;
      remain := remain - todo;
      ok, r := GrowIfFull(r, remain, max);
      if !ok {
        return;
      }
      assert r.chain != [] by { LastOk(r.chain); }
      if copied == |src[i].data| {
        copied := 0;
        i := i + 1;
      }
    }
    // the source holds at least len bytes, so nothing is left to copy
    PayloadAll(src, i);
    assert remain == 0;
    return true, r;
  }

  lemma Inner(all: seq<byte>, at: nat, d: seq<byte>, skip: nat, n: nat)
    requires at + |d| <= |all| && all[at..at + |d|] == d && skip + n <= |d|
    ensures all[at + skip..at + skip + n] == d[skip..skip + n]
  {
    var x, y := all[at + skip..at + skip + n], d[skip..skip + n];
    forall i | 0 <= i < n
      ensures x[i] == y[i]
    {
      assert all[at..at + |d|][skip + i] == all[at + skip + i];
    }
  }

  lemma PayloadNone(src: seq<Chunk>)
    ensures |Payload(src[..0])| == 0
  {
  }

  lemma PayloadAll(src: seq<Chunk>, i: nat)
    requires i <= |src|
    ensures i == |src| ==> Payload(src[..i]) == Payload(src)
  {
    assert src[..|src|] == src;
  }

  /** Skip the chunks that are full; the one found is the last, so none is dropped when the chain
      grows behind it. */
  method FindRoom(chain: seq<Chunk>) returns (at: nat)
    requires ChainOk(chain)
    ensures at == |chain| - 1
  {
    at := 0;
    while Full(chain[at]) && at + 1 < |chain|
      invariant 0 <= at < |chain|
    {
      at := at + 1;
    }
  }

  method CopyValue(f: Filling, v: Value, len: nat, max: nat) returns (ok: bool, r: Filling)
    requires ChainOk(f.chain) && len <= |Bytes(v)| && max > 0
    ensures ok ==> ChainOk(r.chain) && Payload(r.chain) == Payload(f.chain) + Bytes(v)[..len]
    ensures !ok ==> Starved(r.lucks)
  {
    var at := FindRoom(f.chain);
    assert f.chain[at] == Last(f.chain);
    match v {
      case Whole(bytes) => ok, r := CopyWhole(f, bytes, len, max);
      case Chunks(chain) => ok, r := CopyChain(f, chain, len, max);
    }
  }

  // ---------------------------------------------------------------- append and prepend

  /** The value a join must produce: the first one loses its line end. */
  function Joined(first: seq<byte>, second: seq<byte>): seq<byte>
    requires |first| >= 2
  {
    first[..|first| - 2] + second
  }

  /** memcpy: the bytes go to the array from position `at` on, and nowhere else. */
  method CopyBytes(a: array<byte>, at: nat, src: seq<byte>)
    requires at + |src| <= a.Length
    modifies a
    ensures a[..] == old(a[..at]) + src + old(a[at + |src|..])
  {
    for i := 0 to |src|
      invariant forall k :: 0 <= k < a.Length ==> a[k] == if at <= k < at + i then src[k - at] else old(a[k])
    {
      a[at + i] := src[i];
    }
  }

  /** Joining into one piece of the size allocated for it: the first value is copied whole, the second
      over its line end.  `added` goes behind what is present, or in front of it. */
  method JoinWhole(append: bool, present: seq<byte>, added: seq<byte>, data: array<byte>)
    requires |present| >= 2 && |added| >= 2 && data.Length == |present| + |added| - 2
    modifies data
    ensures data[..] == if append then Joined(present, added) else Joined(added, present)
  {
    if append {
      CopyBytes(data, 0, present);
      CopyBytes(data, |present| - 2, added);
    } else {
      CopyBytes(data, 0, added);
      CopyBytes(data, |added| - 2, present);
    }
  }

  /** Joining into a fresh chunked item, whose header chunk has no room of its own.  On success the
      chunks hold exactly the joined value; the only failure is a chunk allocation. */
  method JoinChunked(first: Value, second: Value, max: nat, lucks: seq<Luck>) 
    returns (ok: bool, chain: seq<Chunk>, left: seq<Luck>)
    requires |Bytes(first)| >= 2 && max > 0
    ensures ok ==> ChainOk(chain) && Payload(chain) == Joined(Bytes(first), Bytes(second))
    ensures !ok ==> Starved(left)
  {
    hide Payload, Bytes;
    var f := Filling([Chunk(0, [])], lucks);
    HeaderOnly();
    ok, f := CopyValue(f, first, |Bytes(first)| - 2, max);
    if !ok {
      return false, f.chain, f.lucks;
    }
    assert [] + Bytes(first)[..|Bytes(first)| - 2] == Bytes(first)[..|Bytes(first)| - 2];
    ok, f := CopyValue(f, second, |Bytes(second)|, max);
    assert Bytes(second)[..|Bytes(second)|] == Bytes(second);
    chain, left := f.chain, f.lucks;
  }

  lemma HeaderOnly()
    ensures ChainOk([Chunk(0, [])]) && Payload([Chunk(0, [])]) == []
  {
    assert Datas([Chunk(0, [])]) == [[]];
    FlatOne<byte>([]);
  }

  /** Where both forms apply they store the same bytes. */
  method FormsAgree(append: bool, present: seq<byte>, added: seq<byte>, max: nat, lucks: seq<Luck>)
    returns (ok: bool, chain: seq<Chunk>, v: seq<byte>)
    requires |present| >= 2 && |added| >= 2 && max > 0
    ensures |v| == |present| + |added| - 2 && (ok ==> Payload(chain) == v)
  {
    var data := new byte[|present| + |added| - 2];
    JoinWhole(append, present, added, data);
    v := data[..];
    var left;
    if append {
      ok, chain, left := JoinChunked(Whole(present), Whole(added), max, lucks);
    } else {
      ok, chain, left := JoinChunked(Whole(added), Whole(present), max, lucks);
    }
  }
}
