/** The software forms: eight table lookups per 64-bit word, in either byte order. */
module Crc32cSw {
  import opened Crc32c
  import opened Crc32cHw

  // ---------------------------------------------------------------- eight bytes at once

  /** A byte and then k zero bytes. */
  function Slice(k: nat, b: bv8): bv32 {
    Bits(8 * (k + 1), b as bv32)
  }

  /** Row k of the table is Slice(k). */
  ghost predicate IsSliceTable(t: array2<bv32>)
    reads t
  {
    && t.Length0 == 8 && t.Length1 == 256
    && forall k: nat, b: bv8 :: k < 8 ==> t[k, b as nat] == Slice(k, b)
  }

  lemma SmallByte(b: bv8)
    ensures (b as bv32) <= 0xff && ((b as bv32) << 8) <= 0xffffff && ((b as bv32) << 16) <= 0xffffff
    ensures ((b as bv32) << 8) << 8 == (b as bv32) << 16
    ensures ((b as bv32) << 16) << 8 == (b as bv32) << 24
  {
  }

  /** A byte at position k is eight bits later than the byte at position k-1. */
  lemma BitsAt(n: nat, b: bv8, k: nat)
    requires k < 4
    ensures Bits(n + 8 * k, At(b, k)) == Bits(n, b as bv32)
  {
    hide Bits;
    SmallByte(b);
    if k > 0 {
      BitsShift(n, b as bv32);
    }
    if k > 1 {
      BitsShift(n + 8, (b as bv32) << 8);
    }
    if k > 2 {
      BitsShift(n + 16, (b as bv32) << 16);
    }
  }

  lemma BitsOfLanes(n: nat, c: bv32)
    ensures Bits(n + 24, c) ==
      Xor4(Bits(n + 24, Lane(c, 0) as bv32), Bits(n + 16, Lane(c, 1) as bv32),
           Bits(n + 8, Lane(c, 2) as bv32), Bits(n, Lane(c, 3) as bv32))
  {
    hide Xor4, Bits, At, Lane;
    Lanes(c);
    BitsLinear4(n + 24, At(Lane(c, 0), 0), At(Lane(c, 1), 1), At(Lane(c, 2), 2), At(Lane(c, 3), 3));
    BitsAt(n + 24, Lane(c, 0), 0);
    BitsAt(n + 16, Lane(c, 1), 1);
    BitsAt(n + 8, Lane(c, 2), 2);
    BitsAt(n, Lane(c, 3), 3);
  }

  lemma StepFromZero(b: bv8)
    ensures Step(0, b) == Bits(8, b as bv32)
  {
    hide Bits;
    XorUnit(b as bv32);
  }

  lemma RawUnfold(c: bv32, b: bv8, data: seq<bv8>)
    ensures Raw(c, [b] + data) == Raw(Step(c, b), data)
  {
    hide Step;
    assert ([b] + data)[1..] == data;
  }

  /** The first byte of data is worth its own zeros. */
  lemma RawPeel(b: bv8, data: seq<bv8>)
    ensures Raw(0, [b] + data) == Xor(Bits(8 * |data| + 8, b as bv32), Raw(0, data))
  {
    hide Xor, Bits, Step, Raw;
    RawUnfold(0, b, data);
    StepFromZero(b);
    RawFromZero(Step(0, b), data);
    BitsAdd(8, 8 * |data|, b as bv32);
  }

  function Word32(b0: bv8, b1: bv8, b2: bv8, b3: bv8): bv32 {
    Xor4(At(b0, 0), At(b1, 1), At(b2, 2), At(b3, 3))
  }

  /** Four bytes are one 32-bit word followed by four zero bytes. */
  lemma RawWord(b0: bv8, b1: bv8, b2: bv8, b3: bv8)
    ensures Raw(0, [b0, b1, b2, b3]) == Bits(32, Word32(b0, b1, b2, b3))
  {
    hide Xor, Bits, Raw, At;
    var x3, x2, x1, x0 := Bits(8, b3 as bv32), Bits(16, b2 as bv32), Bits(24, b1 as bv32), Bits(32, b0 as bv32);
    assert [b0, b1, b2, b3] == [b0] + [b1, b2, b3] && [b1, b2, b3] == [b1] + [b2, b3];
    assert [b2, b3] == [b2] + [b3] && [b3] == [b3] + [];
    RawPeel(b0, [b1, b2, b3]);
    RawPeel(b1, [b2, b3]);
    RawPeel(b2, [b3]);
    RawPeel(b3, []);
    RawEmpty();
    XorUnit(x3);
    XorAssoc(x1, x2, x3);
    XorAssoc(x0, x1, Xor(x2, x3));
    XorAssoc(Xor(x0, x1), x2, x3);
    BitsLinear4(32, At(b0, 0), At(b1, 1), At(b2, 2), At(b3, 3));
    BitsAt(32, b0, 0);
    BitsAt(24, b1, 1);
    BitsAt(16, b2, 2);
    BitsAt(8, b3, 3);
  }

  lemma RawEmpty()
    ensures Raw(0, []) == 0
  {
  }

  /** Eight bytes: the first four meet the register, the other four follow them. */
  lemma RawEight(c: bv32, d: seq<bv8>)
    requires |d| == 8
    ensures Raw(c, d) == Xor(Bits(64, Xor(c, Word32(d[0], d[1], d[2], d[3]))),
                             Bits(32, Word32(d[4], d[5], d[6], d[7])))
  {
    hide Xor, Bits, Raw, Word32;
    var lo, hi := d[..4], d[4..];
    assert d == lo + hi && lo == [d[0], d[1], d[2], d[3]] && hi == [d[4], d[5], d[6], d[7]];
    RawConcat(c, lo, hi);
    RawFromZero(c, lo);
    RawWord(d[0], d[1], d[2], d[3]);
    RawWord(d[4], d[5], d[6], d[7]);
    RawFromZero(Raw(c, lo), hi);
    BitsLinear(32, c, Word32(d[0], d[1], d[2], d[3]));
    BitsAdd(32, 32, Xor(c, Word32(d[0], d[1], d[2], d[3])));
  }

  // ---------------------------------------------------------------- 64-bit words

  function Lane64(x: bv64, k: nat): bv8
    requires k < 8
  {
    match k
    case 0 => (x & 0xff) as bv8
    case 1 => ((x >> 8) & 0xff) as bv8
    case 2 => ((x >> 16) & 0xff) as bv8
    case 3 => ((x >> 24) & 0xff) as bv8
    case 4 => ((x >> 32) & 0xff) as bv8
    case 5 => ((x >> 40) & 0xff) as bv8
    case 6 => ((x >> 48) & 0xff) as bv8
    case 7 => (x >> 56) as bv8
  }

  /** The word a little-endian load makes of eight bytes. */
  function LoadLittle(b0: bv8, b1: bv8, b2: bv8, b3: bv8, b4: bv8, b5: bv8, b6: bv8, b7: bv8): bv64 {
    (b0 as bv64) | ((b1 as bv64) << 8) | ((b2 as bv64) << 16) | ((b3 as bv64) << 24) |
    ((b4 as bv64) << 32) | ((b5 as bv64) << 40) | ((b6 as bv64) << 48) | ((b7 as bv64) << 56)
  }

  function Meet(c: bv32, w: bv64): bv64 { (c as bv64) ^ w }

  /** The word after meeting the register: each lane of its low half. */
  lemma LowLanes(c: bv32, b0: bv8, b1: bv8, b2: bv8, b3: bv8, b4: bv8, b5: bv8, b6: bv8, b7: bv8)
    ensures var x := Meet(c, LoadLittle(b0, b1, b2, b3, b4, b5, b6, b7));
      var lo := Xor(c, Word32(b0, b1, b2, b3));
      && Lane64(x, 0) == Lane(lo, 0) && Lane64(x, 1) == Lane(lo, 1)
      && Lane64(x, 2) == Lane(lo, 2) && Lane64(x, 3) == Lane(lo, 3)
  {
  }

  /** ... and of its high half. */
  lemma HighLanes(c: bv32, b0: bv8, b1: bv8, b2: bv8, b3: bv8, b4: bv8, b5: bv8, b6: bv8, b7: bv8)
    ensures var x := Meet(c, LoadLittle(b0, b1, b2, b3, b4, b5, b6, b7));
      var hi := Word32(b4, b5, b6, b7);
      && Lane64(x, 4) == Lane(hi, 0) && Lane64(x, 5) == Lane(hi, 1)
      && Lane64(x, 6) == Lane(hi, 2) && Lane64(x, 7) == Lane(hi, 3)
  {
  }

  /** The slicing step: one lookup per lane of the word, highest row for the first byte. */
  function Sliced(t: array2<bv32>, x: bv64): bv32
    requires t.Length0 == 8 && t.Length1 == 256
    reads t
  {
    Xor(Xor(Xor(Xor(Xor4(t[7, Lane64(x, 0) as nat], t[6, Lane64(x, 1) as nat],
                         t[5, Lane64(x, 2) as nat], t[4, Lane64(x, 3) as nat]),
                    t[3, Lane64(x, 4) as nat]), t[2, Lane64(x, 5) as nat]),
            t[1, Lane64(x, 6) as nat]), t[0, Lane64(x, 7) as nat])
  }

  lemma Xor8(a: bv32, e: bv32, f: bv32, g: bv32, h: bv32)
    ensures Xor(Xor(Xor(Xor(a, e), f), g), h) == Xor(a, Xor4(e, f, g, h))
  {
    hide Xor;
    XorAssoc(a, e, f);
    XorAssoc(a, Xor(e, f), g);
    XorAssoc(a, Xor(Xor(e, f), g), h);
  }

  lemma SlicesOfWord(lo: bv32, hi: bv32)
    ensures Bits(64, lo) == Xor4(Slice(7, Lane(lo, 0)), Slice(6, Lane(lo, 1)), Slice(5, Lane(lo, 2)), Slice(4,
      Lane(lo, 3)))
    ensures Bits(32, hi) == Xor4(Slice(3, Lane(hi, 0)), Slice(2, Lane(hi, 1)), Slice(1, Lane(hi, 2)), Slice(0,
      Lane(hi, 3)))
  {
    hide Xor4, Bits, Lane;
    BitsOfLanes(40, lo);
    BitsOfLanes(8, hi);
  }

  function Word64(d: seq<bv8>): bv64
    requires |d| == 8
  {
    LoadLittle(d[0], d[1], d[2], d[3], d[4], d[5], d[6], d[7])
  }

  /** Slicing by eight is eight byte steps. */
  lemma SlicedIsRaw(t: array2<bv32>, c: bv32, d: seq<bv8>)
    requires IsSliceTable(t) && |d| == 8
    ensures Sliced(t, Meet(c, Word64(d))) == Raw(c, d)
  {
    hide Xor, Xor4, Bits, Raw, Word32, Lane, Lane64, Meet, LoadLittle, Slice;
    var lo, hi := Xor(c, Word32(d[0], d[1], d[2], d[3])), Word32(d[4], d[5], d[6], d[7]);
    RawEight(c, d);
    LowLanes(c, d[0], d[1], d[2], d[3], d[4], d[5], d[6], d[7]);
    HighLanes(c, d[0], d[1], d[2], d[3], d[4], d[5], d[6], d[7]);
    SlicesOfWord(lo, hi);
    Xor8(Bits(64, lo), Slice(3, Lane(hi, 0)), Slice(2, Lane(hi, 1)), Slice(1, Lane(hi, 2)), Slice(0, Lane(hi, 3)));
  }

  // ---------------------------------------------------------------- one byte by table

  lemma SplitLow(c: bv32)
    ensures c == Xor(Lane(c, 0) as bv32, Down(c) << 8) && Down(c) <= 0xffffff
  {
  }

  /** The byte step through a table of 256 entries. */
  lemma ByteStep(c: bv32)
    ensures Bits(8, c) == Xor(Slice(0, Lane(c, 0)), Down(c))
  {
    hide Xor, Bits, Lane, Down;
    SplitLow(c);
    BitsLinear(8, Lane(c, 0) as bv32, Down(c) << 8);
    ByteOut(Down(c));
  }

  lemma DownOfByte(c: bv32, b: bv8)
    ensures Down(Xor(c, b as bv32)) == Down(c)
  {
  }

  lemma ByteStepMeets(c: bv32, b: bv8)
    ensures Step(c, b) == Xor(Slice(0, Lane(Xor(c, b as bv32), 0)), Down(c))
  {
    hide Xor, Bits, Lane, Down, Slice;
    ByteStep(Xor(c, b as bv32));
    DownOfByte(c, b);
  }

  lemma EightBits(c: bv32)
    ensures Bit(Bit(Bit(Bit(Bit(Bit(Bit(Bit(c)))))))) == Bits(8, c)
  {
    hide Bit;
  }

  ghost predicate IsByteTable(t: array<bv32>)
    reads t
  {
    t.Length == 256 && forall b: bv8 :: t[b as nat] == Slice(0, b)
  }

  /** The first loop of the table builders. */
  method BuildBytes(t: array<bv32>)
    requires t.Length == 256
    modifies t
    ensures IsByteTable(t)
  {
    hide Bits, Bit;
    for n := 0 to 256
      invariant forall b: bv8 :: (b as nat) < n ==> t[b as nat] == Slice(0, b)
    {
      var byte := ByteOf(n);
      var crc := byte as bv32;
      EightBits(crc);
      crc := Bit(Bit(Bit(Bit(Bit(Bit(Bit(Bit(crc))))))));
      t[n] := crc;
      forall b: bv8 | (b as nat) < n + 1
        ensures t[b as nat] == Slice(0, b)
      {
        ByteIndex(b, n);
      }
    }
  }

  lemma NextSlice(k: nat, b: bv8)
    ensures Slice(k + 1, b) == Xor(Slice(0, Lane(Slice(k, b), 0)), Down(Slice(k, b)))
  {
    hide Xor, Bits, Lane, Down;
    BitsAdd(8 * (k + 1), 8, b as bv32);
    ByteStep(Slice(k, b));
  }

  // ---------------------------------------------------------------- crc32c_sw_little

  method BuildLittle(t: array2<bv32>)
    requires t.Length0 == 8 && t.Length1 == 256
    modifies t
    ensures IsSliceTable(t)
  {
    hide Slice, Lane, Xor, Down;
    var bytes := new bv32[256];
    BuildBytes(bytes);
    for n := 0 to 256
      invariant IsByteTable(bytes)
      invariant forall k: nat, b: bv8 :: k < 8 && (b as nat) < n ==> t[k, b as nat] == Slice(k, b)
    {
      var byte := ByteOf(n);
      var crc := bytes[n];
      t[0, n] := crc;
      for k := 1 to 8
        invariant IsByteTable(bytes) && crc == Slice(k - 1, byte)
        invariant forall j: nat, b: bv8 :: j < 8 && (b as nat) < n ==> t[j, b as nat] == Slice(j, b)
        invariant forall j: nat :: j < k ==> t[j, n] == Slice(j, byte)
      {
        NextSlice(k - 1, byte);
        crc := Xor(bytes[Lane(crc, 0) as nat], Down(crc));
        t[k, n] := crc;
      }
      forall j: nat, b: bv8 | j < 8 && (b as nat) < n + 1
        ensures t[j, b as nat] == Slice(j, b)
      {
        ByteIndex(b, n);
      }
    }
  }

  /** The digest of a buffer at address addr, on a little-endian machine. */
  method CrcLittle(crc: bv32, buf: seq<bv8>, addr: nat) returns (r: bv32)
    ensures r == Crc(crc, buf)
  {
    hide Raw, Step, Not, Slice, Lane, Xor, Down, Meet, LoadLittle, Sliced;
    var t := new bv32[8, 256];
    BuildLittle(t);
    ghost var c0 := Not(crc);
    var c := Not(crc);
    var next := 0;
    RawNothing(c0, buf, 0);
    while next < |buf| && (addr + next) % 8 != 0
      invariant next <= |buf| && c == Raw(c0, buf[0..next]) && IsSliceTable(t)
    {
      OneByte(c0, buf, next);
      c := Xor(t[0, Lane(Xor(c, buf[next] as bv32), 0) as nat], Down(c));
      next := next + 1;
    }
    while |buf| - next >= 8
      invariant next <= |buf| && c == Raw(c0, buf[0..next]) && IsSliceTable(t)
    {
      RawExtend(c0, buf, 0, next, next + 8);
      SlicedIsRaw(t, c, buf[next..next + 8]);
      c := Sliced(t, Meet(c, Word64(buf[next..next + 8])));
      next := next + 8;
    }
    while next < |buf|
      invariant next <= |buf| && c == Raw(c0, buf[0..next]) && IsSliceTable(t)
    {
      OneByte(c0, buf, next);
      c := Xor(t[0, Lane(Xor(c, buf[next] as bv32), 0) as nat], Down(c));
      next := next + 1;
    }
    assert buf[0..|buf|] == buf;
    r := Not(c);
  }

  lemma OneByte(c: bv32, buf: seq<bv8>, i: nat)
    requires i < |buf|
    ensures var r := Raw(c, buf[0..i]);
      Raw(c, buf[0..i + 1]) == Xor(Slice(0, Lane(Xor(r, buf[i] as bv32), 0)), Down(r))
  {
    hide Raw, Step, Slice, Lane, Xor, Down;
    RawExtend(c, buf, 0, i, i + 1);
    assert buf[i..i + 1] == [buf[i]];
    RawByte(Raw(c, buf[0..i]), buf[i]);
    ByteStepMeets(Raw(c, buf[0..i]), buf[i]);
  }

  // ---------------------------------------------------------------- crc32c_sw_big

  /** The bytes of a word reversed. */
  function Swap(x: bv64): bv64 {
    var y := ((x << 8) & 0xff00ff00ff00ff00) | ((x >> 8) & 0x00ff00ff00ff00ff);
    var z := ((y << 16) & 0xffff0000ffff0000) | ((y >> 16) & 0x0000ffff0000ffff);
    (z << 32) | (z >> 32)
  }

  function Wide(c: bv32): bv64 { c as bv64 }

  function Xor64(a: bv64, b: bv64): bv64 { a ^ b }

  function Narrow(x: bv64): bv32 { (x & 0xffff_ffff) as bv32 }

  /** The word a big-endian load makes of eight bytes. */
  function LoadBig(b0: bv8, b1: bv8, b2: bv8, b3: bv8, b4: bv8, b5: bv8, b6: bv8, b7: bv8): bv64 {
    LoadLittle(b7, b6, b5, b4, b3, b2, b1, b0)
  }

  lemma SwapDistributes(a: bv64, b: bv64)
    ensures Swap(a ^ b) == Swap(a) ^ Swap(b)
  {
  }

  lemma SwapOfXor(a: bv64, b: bv64)
    ensures Swap(Xor64(a, b)) == Xor64(Swap(a), Swap(b))
  {
    hide Swap;
    SwapDistributes(a, b);
  }

  lemma WideDistributes(a: bv32, b: bv32)
    ensures Wide(a ^ b) == Wide(a) ^ Wide(b)
  {
  }

  lemma WideOfXor(a: bv32, b: bv32)
    ensures Wide(Xor(a, b)) == Xor64(Wide(a), Wide(b))
  {
    hide Wide;
    WideDistributes(a, b);
  }

  /** Swapped registers add up like registers. */
  lemma SwapLinear(a: bv32, b: bv32)
    ensures Swapped(Xor(a, b)) == Xor64(Swapped(a), Swapped(b))
  {
    hide Swap, Wide, Xor, Xor64;
    WideOfXor(a, b);
    SwapOfXor(Wide(a), Wide(b));
  }

  /** A register in the upper half of a word, bytes reversed. */
  function Swapped(c: bv32): bv64 {
    Swap(Wide(c))
  }

  lemma SwapTwice(c: bv32)
    ensures Narrow(Swap(Swapped(c))) == c
  {
  }

  lemma SwapLanes(x: bv64)
    ensures Lane64(Swap(x), 7) == Lane64(x, 0) && Lane64(Swap(x), 6) == Lane64(x, 1)
    ensures Lane64(Swap(x), 5) == Lane64(x, 2) && Lane64(Swap(x), 4) == Lane64(x, 3)
    ensures Lane64(Swap(x), 3) == Lane64(x, 4) && Lane64(Swap(x), 2) == Lane64(x, 5)
    ensures Lane64(Swap(x), 1) == Lane64(x, 6) && Lane64(Swap(x), 0) == Lane64(x, 7)
  {
  }

  lemma BigIsSwapped(b0: bv8, b1: bv8, b2: bv8, b3: bv8, b4: bv8, b5: bv8, b6: bv8, b7: bv8)
    ensures LoadBig(b0, b1, b2, b3, b4, b5, b6, b7) == Swap(LoadLittle(b0, b1, b2, b3, b4, b5, b6, b7))
  {
  }

  lemma MeetIsXor(c: bv32, w: bv64)
    ensures Meet(c, w) == Xor64(Wide(c), w)
  {
  }

  function Word64Big(d: seq<bv8>): bv64
    requires |d| == 8
  {
    LoadBig(d[0], d[1], d[2], d[3], d[4], d[5], d[6], d[7])
  }

  /** On a big-endian machine the word meets the swapped register as the swapped little-endian word. */
  lemma BigWord(c: bv32, d: seq<bv8>)
    requires |d| == 8
    ensures Xor64(Swapped(c), Word64Big(d)) == Swap(Meet(c, Word64(d)))
  {
    hide Swap, Wide, Xor64, LoadBig, LoadLittle, Meet;
    BigIsSwapped(d[0], d[1], d[2], d[3], d[4], d[5], d[6], d[7]);
    MeetIsXor(c, Word64(d));
    SwapOfXor(Wide(c), Word64(d));
  }

  /** Row k of the big-endian table is Slice(k), swapped. */
  ghost predicate IsSwappedTable(t: array2<bv64>)
    reads t
  {
    && t.Length0 == 8 && t.Length1 == 256
    && forall k: nat, b: bv8 :: k < 8 ==> t[k, b as nat] == Swapped(Slice(k, b))
  }

  function Sum8(a: bv32, b: bv32, c: bv32, d: bv32, e: bv32, f: bv32, g: bv32, h: bv32): bv32 {
    Xor(Xor(Xor(Xor(Xor(Xor(Xor(a, b), c), d), e), f), g), h)
  }

  function Sum64(a: bv64, b: bv64, c: bv64, d: bv64, e: bv64, f: bv64, g: bv64, h: bv64): bv64 {
    Xor64(Xor64(Xor64(Xor64(Xor64(Xor64(Xor64(a, b), c), d), e), f), g), h)
  }

  lemma SwapSum(a: bv32, b: bv32, c: bv32, d: bv32, e: bv32, f: bv32, g: bv32, h: bv32)
    ensures Swapped(Sum8(a, b, c, d, e, f, g, h)) ==
      Sum64(Swapped(a), Swapped(b), Swapped(c), Swapped(d), Swapped(e), Swapped(f), Swapped(g), Swapped(h))
  {
    hide Swapped, Xor, Xor64;
    SwapLinear(a, b);
    SwapLinear(Xor(a, b), c);
    SwapLinear(Xor(Xor(a, b), c), d);
    SwapLinear(Xor(Xor(Xor(a, b), c), d), e);
    SwapLinear(Xor(Xor(Xor(Xor(a, b), c), d), e), f);
    SwapLinear(Xor(Xor(Xor(Xor(Xor(a, b), c), d), e), f), g);
    SwapLinear(Xor(Xor(Xor(Xor(Xor(Xor(a, b), c), d), e), f), g), h);
  }

  lemma Reversed4(a: bv32, b: bv32, c: bv32, d: bv32)
    ensures Xor4(a, b, c, d) == Xor4(d, c, b, a)
  {
    hide Xor;
    XorAssoc(Xor(a, b), c, d);
    XorAssoc(Xor(d, c), b, a);
    XorComm(a, b);
    XorComm(c, d);
    XorComm(Xor(a, b), Xor(c, d));
  }

  lemma SumReversed(a: bv32, b: bv32, c: bv32, d: bv32, e: bv32, f: bv32, g: bv32, h: bv32)
    ensures Sum8(a, b, c, d, e, f, g, h) == Sum8(h, g, f, e, d, c, b, a)
  {
    hide Xor;
    Xor8(Xor4(a, b, c, d), e, f, g, h);
    Xor8(Xor4(h, g, f, e), d, c, b, a);
    Reversed4(a, b, c, d);
    Reversed4(e, f, g, h);
    XorComm(Xor4(a, b, c, d), Xor4(e, f, g, h));
  }

  /** The big-endian slicing step. */
  function SlicedBig(t: array2<bv64>, x: bv64): bv64
    requires t.Length0 == 8 && t.Length1 == 256
    reads t
  {
    Sum64(t[0, Lane64(x, 0) as nat], t[1, Lane64(x, 1) as nat], t[2, Lane64(x, 2) as nat], t[3, Lane64(x, 3) as nat],
          t[4, Lane64(x, 4) as nat], t[5, Lane64(x, 5) as nat], t[6, Lane64(x, 6) as nat], t[7, Lane64(x, 7) as nat])
  }

  /** The same lookups, without a table. */
  lemma SlicesAreRaw(c: bv32, d: seq<bv8>)
    requires |d| == 8
    ensures var x := Meet(c, Word64(d));
      Raw(c, d) == Sum8(Slice(7, Lane64(x, 0)), Slice(6, Lane64(x, 1)), Slice(5, Lane64(x, 2)), Slice(4, Lane64(x, 3)),
                        Slice(3, Lane64(x, 4)), Slice(2, Lane64(x, 5)), Slice(1, Lane64(x, 6)), Slice(0, Lane64(x, 7)))
  {
    hide Xor, Bits, Raw, Word32, Lane, Lane64, Meet, LoadLittle, Slice;
    var lo, hi := Xor(c, Word32(d[0], d[1], d[2], d[3])), Word32(d[4], d[5], d[6], d[7]);
    RawEight(c, d);
    LowLanes(c, d[0], d[1], d[2], d[3], d[4], d[5], d[6], d[7]);
    HighLanes(c, d[0], d[1], d[2], d[3], d[4], d[5], d[6], d[7]);
    SlicesOfWord(lo, hi);
    Xor8(Bits(64, lo), Slice(3, Lane(hi, 0)), Slice(2, Lane(hi, 1)), Slice(1, Lane(hi, 2)), Slice(0, Lane(hi, 3)));
  }

  lemma SlicedBigIsRaw(t: array2<bv64>, c: bv32, d: seq<bv8>)
    requires IsSwappedTable(t) && |d| == 8
    ensures SlicedBig(t, Xor64(Swapped(c), Word64Big(d))) == Swapped(Raw(c, d))
  {
    hide Xor64, Raw, Lane64, Meet, Word64, Word64Big, Slice, Swap, Swapped, Sum8, Sum64;
    var x := Meet(c, Word64(d));
    BigWord(c, d);
    SwapLanes(x);
    SlicesAreRaw(c, d);
    var s0, s1, s2, s3 := Slice(7, Lane64(x, 0)), Slice(6, Lane64(x, 1)), Slice(5, Lane64(x, 2)), Slice(4, Lane64(x,
      3));
    var s4, s5, s6, s7 := Slice(3, Lane64(x, 4)), Slice(2, Lane64(x, 5)), Slice(1, Lane64(x, 6)), Slice(0, Lane64(x,
      7));
    SumReversed(s0, s1, s2, s3, s4, s5, s6, s7);
    SwapSum(s7, s6, s5, s4, s3, s2, s1, s0);
  }

  method BuildBig(bytes: array<bv32>, t: array2<bv64>)
    requires bytes.Length == 256 && t.Length0 == 8 && t.Length1 == 256
    modifies bytes, t
    ensures IsByteTable(bytes) && IsSwappedTable(t)
  {
    hide Slice, Lane, Xor, Down, Swapped;
    BuildBytes(bytes);
    for n := 0 to 256
      invariant IsByteTable(bytes)
      invariant forall k: nat, b: bv8 :: k < 8 && (b as nat) < n ==> t[k, b as nat] == Swapped(Slice(k, b))
    {
      var byte := ByteOf(n);
      var crc := bytes[n];
      t[0, n] := Swapped(crc);
      for k := 1 to 8
        invariant IsByteTable(bytes) && crc == Slice(k - 1, byte)
        invariant forall j: nat, b: bv8 :: j < 8 && (b as nat) < n ==> t[j, b as nat] == Swapped(Slice(j, b))
        invariant forall j: nat :: j < k ==> t[j, n] == Swapped(Slice(j, byte))
      {
        NextSlice(k - 1, byte);
        crc := Xor(bytes[Lane(crc, 0) as nat], Down(crc));
        t[k, n] := Swapped(crc);
      }
      forall j: nat, b: bv8 | j < 8 && (b as nat) < n + 1
        ensures t[j, b as nat] == Swapped(Slice(j, b))
      {
        ByteIndex(b, n);
      }
    }
  }

  method TrailingBytes(ghost c0: bv32, c: bv32, buf: seq<bv8>, from: nat, bytes: array<bv32>) returns (r: bv32)
    requires from <= |buf| && c == Raw(c0, buf[0..from]) && IsByteTable(bytes)
    ensures r == Raw(c0, buf[0..|buf|])
  {
    hide Raw, Step, Slice, Lane, Xor, Down;
    r := c;
    var next := from;
    while next < |buf|
      invariant next <= |buf| && r == Raw(c0, buf[0..next])
    {
      OneByte(c0, buf, next);
      r := Xor(bytes[Lane(Xor(r, buf[next] as bv32), 0) as nat], Down(r));
      next := next + 1;
    }
  }

  /** The digest of a buffer at address addr, on a big-endian machine. */
  method CrcBig(crc: bv32, buf: seq<bv8>, addr: nat) returns (r: bv32)
    ensures r == Crc(crc, buf)
  {
    hide Raw, Step, Not, Slice, Lane, Xor, Down, LoadBig, SlicedBig, Xor64, Swap, Swapped, Narrow;
    var bytes, t := new bv32[256], new bv64[8, 256];
    BuildBig(bytes, t);
    ghost var c0 := Not(crc);
    var c := Not(crc);
    var next := 0;
    RawNothing(c0, buf, 0);
    while next < |buf| && (addr + next) % 8 != 0
      invariant next <= |buf| && c == Raw(c0, buf[0..next]) && IsByteTable(bytes) && IsSwappedTable(t)
    {
      OneByte(c0, buf, next);
      c := Xor(bytes[Lane(Xor(c, buf[next] as bv32), 0) as nat], Down(c));
      next := next + 1;
    }
    if |buf| - next >= 8 {
      var w := Swapped(c);
      while |buf| - next >= 8
        invariant next <= |buf| && w == Swapped(Raw(c0, buf[0..next])) && IsByteTable(bytes) && IsSwappedTable(t)
      {
        RawExtend(c0, buf, 0, next, next + 8);
        SlicedBigIsRaw(t, Raw(c0, buf[0..next]), buf[next..next + 8]);
        w := SlicedBig(t, Xor64(w, Word64Big(buf[next..next + 8])));
        next := next + 8;
      }
      SwapTwice(Raw(c0, buf[0..next]));
      c := Narrow(Swap(w));
    }
    c := TrailingBytes(c0, c, buf, next, bytes);
    assert buf[0..|buf|] == buf;
    r := Not(c);
  }
}
