/** The x86 form: the crc instruction on three interleaved streams, recombined with tables of the
    zeros operator, which is built by squaring matrices over GF(2). */
module Crc32cHw {
  import opened Crc32c

  // ---------------------------------------------------------------- matrices over GF(2)

  function Double(v: bv32): bv32 { v << 1 }

  function Half(v: bv32): bv32 { v >> 1 }

  function Shl(v: bv32, k: nat): bv32
    decreases k
  {
    if k == 0 then v else Shl(Double(v), k - 1)
  }

  function Shr(v: bv32, k: nat): bv32
    decreases k
  {
    if k == 0 then v else Shr(Half(v), k - 1)
  }

  lemma {:induction false} ShlAdd(v: bv32, m: nat, n: nat)
    ensures Shl(v, m + n) == Shl(Shl(v, m), n)
    decreases m
  {
    hide Double;
    if m > 0 {
      ShlAdd(Double(v), m - 1, n);
    }
  }

  lemma {:induction false} ShrAdd(v: bv32, m: nat, n: nat)
    ensures Shr(v, m + n) == Shr(Shr(v, m), n)
    decreases m
  {
    hide Half;
    if m > 0 {
      ShrAdd(Half(v), m - 1, n);
    }
  }

  function Up(v: bv32): bv32 { v << 8 }

  function Down(v: bv32): bv32 { v >> 8 }

  lemma ShiftByte(v: bv32)
    ensures Shl(v, 8) == Up(v) && Shr(v, 8) == Down(v)
  {
  }

  lemma UpAndOut(v: bv32)
    ensures Up(Up(Up(Up(v)))) == 0
  {
  }

  lemma DownAndOut(v: bv32)
    ensures Down(Down(Down(Down(v)))) == 0
  {
  }

  lemma ShiftedOut(v: bv32)
    ensures Shl(v, 32) == 0 && Shr(v, 32) == 0
  {
    hide Shl, Shr, Up, Down;
    ShlAdd(v, 8, 24);
    ShlAdd(Up(v), 8, 16);
    ShlAdd(Up(Up(v)), 8, 8);
    ShrAdd(v, 8, 24);
    ShrAdd(Down(v), 8, 16);
    ShrAdd(Down(Down(v)), 8, 8);
    ShiftByte(v);
    ShiftByte(Up(v));
    ShiftByte(Up(Up(v)));
    ShiftByte(Up(Up(Up(v))));
    ShiftByte(Down(v));
    ShiftByte(Down(Down(v)));
    ShiftByte(Down(Down(Down(v))));
    UpAndOut(v);
    DownAndOut(v);
  }

  lemma DoubleDistributes(a: bv32, b: bv32)
    ensures Double(a ^ b) == Double(a) ^ Double(b)
  {
  }

  lemma DoubleLinear(a: bv32, b: bv32)
    ensures Double(Xor(a, b)) == Xor(Double(a), Double(b))
  {
    hide Double;
    DoubleDistributes(a, b);
  }

  lemma {:induction false} ShlLinear(a: bv32, b: bv32, k: nat)
    ensures Shl(Xor(a, b), k) == Xor(Shl(a, k), Shl(b, k))
    decreases k
  {
    hide Xor, Double;
    if k > 0 {
      DoubleLinear(a, b);
      ShlLinear(Double(a), Double(b), k - 1);
    }
  }

  /** The rows selected by the bits of vec, added up: gf2_matrix_times. */
  function Times(mat: seq<bv32>, vec: bv32): bv32
    decreases |mat|
  {
    if mat == [] then 0
    else Xor(if vec & 1 == 1 then mat[0] else 0, Times(mat[1..], Half(vec)))
  }

  /** mat is the operator of n zero bits: row i is what becomes of bit i. */
  ghost predicate IsZeros(mat: seq<bv32>, n: nat) {
    |mat| == 32 && forall i :: 0 <= i < 32 ==> mat[i] == Bits(n, Shl(1, i))
  }

  lemma LowBit(v: bv32)
    ensures v == Xor(v & 1, Double(Half(v)))
    ensures v & 1 == 0 || v & 1 == 1
  {
  }

  lemma {:induction false} ShlZero(k: nat)
    ensures Shl(0, k) == 0
    decreases k
  {
    if k > 0 {
      ShlZero(k - 1);
    }
  }

  lemma {:induction false} TimesFrom(mat: seq<bv32>, n: nat, v: bv32, k: nat)
    requires IsZeros(mat, n) && k <= 32
    ensures Times(mat[k..], v) == Bits(n, Shl(v, k))
    decreases 32 - k
  {
    hide Xor, Bits, Double, Half;
    if k == 32 {
      ShiftedOut(v);
      BitsZero(n);
    } else {
      assert mat[k..][1..] == mat[k + 1..];
      TimesFrom(mat, n, Half(v), k + 1);
      LowBit(v);
      ShlLinear(v & 1, Double(Half(v)), k);
      BitsLinear(n, Shl(v & 1, k), Shl(Double(Half(v)), k));
      ShlZero(k);
      BitsZero(n);
    }
  }

  /** Multiplying by the zeros matrix is feeding the zeros. */
  lemma TimesIsZeros(mat: seq<bv32>, n: nat, v: bv32)
    requires IsZeros(mat, n)
    ensures Times(mat, v) == Bits(n, v)
  {
    TimesFrom(mat, n, v, 0);
    assert mat[0..] == mat;
  }

  /** Squaring the matrix doubles the number of zeros. */
  lemma SquareIsZeros(mat: seq<bv32>, n: nat, i: nat)
    requires IsZeros(mat, n) && i < 32
    ensures Times(mat, mat[i]) == Bits(2 * n, Shl(1, i))
  {
    hide Times, Bits, Shl;
    TimesIsZeros(mat, n, mat[i]);
    BitsAdd(n, n, Shl(1, i));
  }

  method MatrixTimes(mat: array<bv32>, vec: bv32) returns (sum: bv32)
    requires mat.Length == 32
    ensures sum == Times(mat[..], vec)
  {
    hide Xor, Half;
    sum := 0;
    var v, k := vec, 0;
    ShiftedOut(vec);
    TakeAll(mat[..], vec);
    while v != 0
      invariant k <= 32 && Shr(v, 32 - k) == 0
      invariant Times(mat[..], vec) == Xor(sum, Times(mat[k..], v))
      decreases 32 - k
    {
      assert k < 32;
      XorLaws(sum, if v & 1 == 1 then mat[k] else 0, Times(mat[k + 1..], Half(v)));
      assert mat[k..][1..] == mat[k + 1..];
      if v & 1 == 1 {
        sum := Xor(sum, mat[k]);
      }
      v := Half(v);
      k := k + 1;
    }
    TimesOfZero(mat[k..]);
    XorUnit(sum);
  }

  lemma TakeAll(mat: seq<bv32>, vec: bv32)
    ensures mat[0..] == mat && Times(mat, vec) == Xor(0, Times(mat, vec))
  {
    XorUnit(Times(mat, vec));
  }

  lemma {:induction false} TimesOfZero(mat: seq<bv32>)
    ensures Times(mat, 0) == 0
    decreases |mat|
  {
    if mat != [] {
      TimesOfZero(mat[1..]);
    }
  }

  method MatrixSquare(square: array<bv32>, mat: array<bv32>, ghost n: nat)
    requires square != mat && square.Length == mat.Length == 32 && IsZeros(mat[..], n)
    modifies square
    ensures IsZeros(square[..], 2 * n)
  {
    hide Times, Bits, Shl;
    for i := 0 to 32
      invariant IsZeros(mat[..], n)
      invariant forall j :: 0 <= j < i ==> square[j] == Bits(2 * n, Shl(1, j))
    {
      var row := MatrixTimes(mat, mat[i]);
      SquareIsZeros(mat[..], n, i);
      square[i] := row;
    }
  }

  // ---------------------------------------------------------------- the zeros operator

  /** The largest power of two not above len, and 1 for 0. */
  function HighBit(len: nat): (h: nat)
    ensures h > 0
  {
    if len <= 1 then 1 else 2 * HighBit(len / 2)
  }

  lemma PolyIsBitOfOne()
    ensures POLY == Bits(1, Shl(1, 0))
  {
  }

  lemma {:induction false} UnitDouble(i: nat)
    ensures Shl(1, i + 1) == Double(Shl(1, i))
  {
    hide Double;
    ShlAdd(1, i, 1);
    assert Shl(Shl(1, i), 1) == Shl(Double(Shl(1, i)), 0);
  }

  lemma BitOfDouble(v: bv32)
    requires v <= 0x7fff_ffff
    ensures Bit(Double(v)) == v
  {
  }

  lemma {:induction false} ShrStep(v: bv32, k: nat)
    ensures Shr(v, k + 1) == Half(Shr(v, k))
  {
    hide Half;
    ShrAdd(v, k, 1);
    assert Shr(Shr(v, k), 1) == Shr(Half(Shr(v, k)), 0);
  }

  lemma HalfBounds(v: bv32, m: bv32)
    ensures v <= Half(m) ==> Double(v) <= m
    ensures Half(m) <= 0x7fff_ffff
  {
  }

  lemma AllOnesDown()
    ensures Shr(0xffff_ffff, 31) == 1
  {
    hide Down;
    ShrAdd(0xffff_ffff, 8, 23);
    ShrAdd(Down(0xffff_ffff), 8, 15);
    ShrAdd(Down(Down(0xffff_ffff)), 8, 7);
    ShiftByte(0xffff_ffff);
    ShiftByte(Down(0xffff_ffff));
    ShiftByte(Down(Down(0xffff_ffff)));
    TopByte();
  }

  lemma TopByte()
    ensures Down(Down(Down(0xffff_ffff))) == 0xff
    ensures Shr(0xff, 7) == 1
  {
  }

  lemma {:induction false} UnitBound(i: nat)
    requires i < 32
    ensures Shl(1, i) <= Shr(0xffff_ffff, 31 - i)
  {
    hide Shl, Shr, Double, Half;
    if i == 0 {
      AllOnesDown();
      UnitZero();
    } else {
      UnitBound(i - 1);
      UnitDouble(i - 1);
      ShrStep(0xffff_ffff, 31 - i);
      HalfBounds(Shl(1, i - 1), Shr(0xffff_ffff, 31 - i));
      assert Shl(1, i) == Double(Shl(1, i - 1));
    }
  }

  lemma UnitZero()
    ensures Shl(1, 0) == 1
  {
  }

  /** The operator for one zero bit: bit 0 becomes the polynomial, every other bit moves down. */
  lemma OneZeroBit(i: nat)
    requires i < 31
    ensures Bits(1, Shl(1, i + 1)) == Shl(1, i)
  {
    hide Shl, Shr, Double, Half, Bit;
    UnitBound(i);
    ShrStep(0xffff_ffff, 30 - i);
    HalfBounds(0, Shr(0xffff_ffff, 30 - i));
    UnitDouble(i);
    BitOfDouble(Shl(1, i));
    assert Bits(1, Shl(1, i + 1)) == Bits(0, Bit(Shl(1, i + 1)));
  }

  /** crc32c_zeros_op: the operator for HighBit(length) zero bytes ends up in even. */
  method ZerosOp(even: array<bv32>, length: nat)
    requires even.Length == 32
    modifies even
    ensures IsZeros(even[..], 8 * HighBit(length))
  {
    hide Bits, Shl;
    var odd := new bv32[32];
    odd[0] := POLY;
    PolyIsBitOfOne();
    UnitZero();
    var row: bv32 := 1;
    for n := 1 to 32
      invariant row == if n <= 32 then Shl(1, n - 1) else 0
      invariant forall i :: 0 <= i < n ==> odd[i] == Bits(1, Shl(1, i))
    {
      odd[n] := row;
      OneZeroBit(n - 1);
      UnitDouble(n - 1);
      row := Double(row);
    }
    MatrixSquare(even, odd, 1);
    MatrixSquare(odd, even, 2);
    var len := length;
    ghost var u: nat := 1;
    while true
      invariant IsZeros(odd[..], 4 * u) && u * HighBit(len) == HighBit(length)
      decreases len
    {
      MatrixSquare(even, odd, 4 * u);
      HalfHighBit(len, u);
      len := len / 2;
      if len == 0 {
        return;
      }
      MatrixSquare(odd, even, 8 * u);
      HalfHighBit(len, 2 * u);
      len := len / 2;
      if len == 0 {
        u := 2 * u;
        break;
      }
      u := 4 * u;
    }
    for n := 0 to 32
      invariant forall i :: 0 <= i < n ==> even[i] == odd[i]
      invariant IsZeros(odd[..], 8 * u)
    {
      even[n] := odd[n];
    }
    assert even[..] == odd[..];
  }

  lemma HalfHighBit(len: nat, u: nat)
    ensures u * HighBit(len) == if len / 2 == 0 then u else (2 * u) * HighBit(len / 2)
  {
    if len > 1 {
      Reassociate(u, HighBit(len / 2));
    }
  }

  lemma Reassociate(u: nat, h: nat)
    ensures u * (2 * h) == (2 * u) * h
  {
  }

  // ---------------------------------------------------------------- tables of the operator

  /** Row k of the table applies n zero bits to a byte at position k. */
  ghost predicate IsShiftTable(t: array2<bv32>, n: nat)
    reads t
  {
    && t.Length0 == 4 && t.Length1 == 256
    && forall k: nat, b: bv8 :: k < 4 ==> t[k, b as nat] == Bits(n, At(b, k))
  }

  lemma ByteSuccessor(b: bv8)
    requires b != 255
    ensures (b + 1) as nat == b as nat + 1
  {
  }

  lemma ByteInjective(b: bv8, c: bv8)
    requires b as nat == c as nat
    ensures b == c
  {
  }

  /** The byte with value n. */
  function ByteOf(n: nat): (b: bv8)
    requires n < 256
    ensures b as nat == n
  {
    if n == 0 then 0 else
      var b := ByteOf(n - 1);
      ByteSuccessor(b);
      b + 1
  }

  lemma ByteIndex(b: bv8, n: nat)
    requires n < 256
    ensures b as nat == n ==> b == ByteOf(n)
  {
    if b as nat == n {
      ByteInjective(b, ByteOf(n));
    }
  }

  /** crc32c_zeros */
  method Zeros(t: array2<bv32>, length: nat)
    requires t.Length0 == 4 && t.Length1 == 256
    modifies t
    ensures IsShiftTable(t, 8 * HighBit(length))
  {
    hide Bits, HighBit, Times, At, IsZeros;
    var op := new bv32[32];
    ZerosOp(op, length);
    ghost var z := 8 * HighBit(length);
    for n := 0 to 256
      invariant IsZeros(op[..], z)
      invariant forall k: nat, b: bv8 :: k < 4 && (b as nat) < n ==> t[k, b as nat] == Bits(z, At(b, k))
    {
      var byte := ByteOf(n);
      for k := 0 to 4
        invariant IsZeros(op[..], z)
        invariant forall j: nat, b: bv8 :: j < 4 && (b as nat) < n ==> t[j, b as nat] == Bits(z, At(b, j))
        invariant forall j: nat :: j < k ==> t[j, n] == Bits(z, At(byte, j))
      {
        var row := MatrixTimes(op, At(byte, k));
        TimesIsZeros(op[..], z, At(byte, k));
        t[k, n] := row;
      }
      forall j: nat, b: bv8 | j < 4 && (b as nat) < n + 1
        ensures t[j, b as nat] == Bits(z, At(b, j))
      {
        ByteIndex(b, n);
      }
    }
  }

  /** crc32c_shift */
  function Shift(t: array2<bv32>, crc: bv32): bv32
    requires t.Length0 == 4 && t.Length1 == 256
    reads t
  {
    Xor4(t[0, Lane(crc, 0) as nat], t[1, Lane(crc, 1) as nat], t[2, Lane(crc, 2) as nat], t[3, Lane(crc, 3) as nat])
  }

  /** Four lookups apply the operator to the whole register. */
  lemma ShiftIsZeros(t: array2<bv32>, n: nat, crc: bv32)
    requires IsShiftTable(t, n)
    ensures Shift(t, crc) == Bits(n, crc)
  {
    hide Xor4, Lane, At, Bits;
    Lanes(crc);
    BitsLinear4(n, At(Lane(crc, 0), 0), At(Lane(crc, 1), 1), At(Lane(crc, 2), 2), At(Lane(crc, 3), 3));
  }

  // ---------------------------------------------------------------- crc32c_hw

  const LONG := 8192
  const SHORT := 256

  /** The crc32b instruction. */
  function Crc32b(c: bv32, buf: seq<bv8>, i: nat): bv32
    requires i < |buf|
  {
    Step(c, buf[i])
  }

  /** The crc32q instruction: eight bytes at once. */
  function Crc32q(c: bv32, buf: seq<bv8>, i: nat): bv32
    requires i + 8 <= |buf|
  {
    Raw(c, buf[i..i + 8])
  }

  lemma RawExtend(c: bv32, buf: seq<bv8>, from: nat, i: nat, j: nat)
    requires from <= i <= j <= |buf|
    ensures Raw(c, buf[from..j]) == Raw(Raw(c, buf[from..i]), buf[i..j])
  {
    assert buf[from..j] == buf[from..i] + buf[i..j];
    RawConcat(c, buf[from..i], buf[i..j]);
  }

  lemma RawByte(c: bv32, b: bv8)
    ensures Raw(c, [b]) == Step(c, b)
  {
    hide Step;
    assert [b][1..] == [];
    assert Raw(Step(c, b), []) == Step(c, b);
  }

  lemma HighBitLong()
    ensures HighBit(LONG) == LONG && HighBit(SHORT) == SHORT
  {
  }

  /** Three streams of size bytes each, eight bytes at a time, then recombined. */
  method Interleaved(c: bv32, buf: seq<bv8>, start: nat, size: nat, t: array2<bv32>) returns (r: bv32)
    requires size > 0 && size % 8 == 0 && start + 3 * size <= |buf|
    requires t.Length0 == 4 && t.Length1 == 256 && IsShiftTable(t, 8 * size)
    ensures r == Raw(c, buf[start..start + 3 * size])
  {
    hide Raw, Bits, Xor, IsShiftTable, Shift;
    var crc0, crc1, crc2 := c, 0 as bv32, 0 as bv32;
    var next, end := start, start + size;
    RawNothing(c, buf, start);
    RawNothing(0, buf, start + size);
    RawNothing(0, buf, start + 2 * size);
    while next < end
      invariant start <= next <= end && (end - next) % 8 == 0
      invariant crc0 == Raw(c, buf[start..next])
      invariant crc1 == Raw(0, buf[start + size..next + size])
      invariant crc2 == Raw(0, buf[start + 2 * size..next + 2 * size])
    {
      RawExtend(c, buf, start, next, next + 8);
      RawExtend(0, buf, start + size, next + size, next + size + 8);
      RawExtend(0, buf, start + 2 * size, next + 2 * size, next + 2 * size + 8);
      crc0 := Crc32q(crc0, buf, next);
      crc1 := Crc32q(crc1, buf, next + size);
      crc2 := Crc32q(crc2, buf, next + 2 * size);
      next := next + 8;
    }
    var x, y, z := buf[start..start + size], buf[start + size..start + 2 * size],
      buf[start + 2 * size..start + 3 * size];
    assert buf[start..start + 3 * size] == x + y + z;
    ThreeWay(c, x, y, z);
    ShiftIsZeros(t, 8 * size, crc0);
    crc0 := Xor(Shift(t, crc0), crc1);
    ShiftIsZeros(t, 8 * size, crc0);
    r := Xor(Shift(t, crc0), crc2);
  }

  lemma RawNothing(c: bv32, buf: seq<bv8>, i: nat)
    requires i <= |buf|
    ensures Raw(c, buf[i..i]) == c
  {
  }

  /** Bytes one by one from i to j. */
  method Bytewise(c: bv32, buf: seq<bv8>, i: nat, j: nat) returns (r: bv32)
    requires i <= j <= |buf|
    ensures r == Raw(c, buf[i..j])
  {
    hide Raw, Step;
    r := c;
    var next := i;
    RawNothing(c, buf, i);
    while next < j
      invariant i <= next <= j
      invariant r == Raw(c, buf[i..next])
    {
      RawExtend(c, buf, i, next, next + 1);
      assert buf[next..next + 1] == [buf[next]];
      RawByte(r, buf[next]);
      r := Crc32b(r, buf, next);
      next := next + 1;
    }
  }

  /** The digest of a buffer at address addr: leading bytes up to an eight-byte boundary, LONG and
      SHORT interleaved blocks, whole words, trailing bytes. */
  method CrcHw(crc: bv32, buf: seq<bv8>, addr: nat) returns (r: bv32)
    ensures r == Crc(crc, buf)
  {
    hide Raw, Step, Not, IsShiftTable, HighBit;
    HighBitLong();
    var longs := new bv32[4, 256];
    Zeros(longs, LONG);
    var shorts := new bv32[4, 256];
    Zeros(shorts, SHORT);

    ghost var c := Not(crc);
    var crc0 := Not(crc);
    var next := 0;
    RawNothing(c, buf, 0);
    while next < |buf| && (addr + next) % 8 != 0
      invariant next <= |buf| && crc0 == Raw(c, buf[0..next])
      invariant IsShiftTable(longs, 8 * LONG) && IsShiftTable(shorts, 8 * SHORT)
    {
      RawExtend(c, buf, 0, next, next + 1);
      assert buf[next..next + 1] == [buf[next]];
      RawByte(crc0, buf[next]);
      crc0 := Crc32b(crc0, buf, next);
      next := next + 1;
    }
    while |buf| - next >= LONG * 3
      invariant next <= |buf| && crc0 == Raw(c, buf[0..next])
      invariant IsShiftTable(longs, 8 * LONG) && IsShiftTable(shorts, 8 * SHORT)
    {
      RawExtend(c, buf, 0, next, next + 3 * LONG);
      crc0 := Interleaved(crc0, buf, next, LONG, longs);
      next := next + 3 * LONG;
    }
    while |buf| - next >= SHORT * 3
      invariant next <= |buf| && crc0 == Raw(c, buf[0..next])
      invariant IsShiftTable(shorts, 8 * SHORT)
    {
      RawExtend(c, buf, 0, next, next + 3 * SHORT);
      crc0 := Interleaved(crc0, buf, next, SHORT, shorts);
      next := next + 3 * SHORT;
    }
    var end := next + (|buf| - next - (|buf| - next) % 8);
    while next < end
      invariant next <= end <= |buf| && (end - next) % 8 == 0 && crc0 == Raw(c, buf[0..next])
    {
      RawExtend(c, buf, 0, next, next + 8);
      crc0 := Crc32q(crc0, buf, next);
      next := next + 8;
    }
    RawExtend(c, buf, 0, next, |buf|);
    crc0 := Bytewise(crc0, buf, next, |buf|);
    assert buf[0..|buf|] == buf;
    r := Not(crc0);
  }
}
