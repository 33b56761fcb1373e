/** CRC-32C, one bit at a time, and the algebra that makes the fast forms possible: the bit step is
    linear over GF(2), so feeding zeros is a linear operator that can be tabulated. */
module Crc32c {
  /** The polynomial of section 12.1 of RFC 3720, in reversed bit order. */
  const POLY: bv32 := 0x82f63b78

  function Xor(a: bv32, b: bv32): bv32 { a ^ b }

  function Not(a: bv32): bv32 { !a }

  function Bit(c: bv32): bv32 {
    if c & 1 == 1 then (c >> 1) ^ POLY else c >> 1
  }

  /** The register after n zero bits. */
  function Bits(n: nat, c: bv32): bv32
    decreases n
  {
    if n == 0 then c else Bits(n - 1, Bit(c))
  }

  function Step(c: bv32, b: bv8): bv32 {
    Bits(8, Xor(c, b as bv32))
  }

  /** The register after the bytes of data. */
  function Raw(c: bv32, data: seq<bv8>): bv32
    decreases |data|
  {
    if data == [] then c else Raw(Step(c, data[0]), data[1..])
  }

  /** The digest of data continued from crc (0 to begin with): complemented before and after. */
  function Crc(crc: bv32, data: seq<bv8>): bv32 {
    Not(Raw(Not(crc), data))
  }

  // ---------------------------------------------------------------- exclusive or

  lemma XorComm(a: bv32, b: bv32)
    ensures Xor(a, b) == Xor(b, a)
  {
  }

  lemma XorAssoc(a: bv32, b: bv32, c: bv32)
    ensures Xor(Xor(a, b), c) == Xor(a, Xor(b, c))
  {
  }

  lemma XorUnit(a: bv32)
    ensures Xor(a, a) == 0 && Xor(a, 0) == a && Xor(0, a) == a
  {
  }

  lemma XorLaws(a: bv32, b: bv32, c: bv32)
    ensures Xor(a, b) == Xor(b, a)
    ensures Xor(Xor(a, b), c) == Xor(a, Xor(b, c)) == Xor(Xor(a, c), b)
    ensures Xor(a, a) == 0 && Xor(a, 0) == a && Xor(0, a) == a
  {
    hide Xor;
    XorComm(a, b);
    XorComm(b, c);
    XorAssoc(a, b, c);
    XorAssoc(a, c, b);
    XorUnit(a);
  }

  lemma NotNot(c: bv32)
    ensures Not(Not(c)) == c
  {
  }

  // ---------------------------------------------------------------- linearity

  lemma BitFacts(a: bv32, b: bv32)
    ensures (a ^ b) >> 1 == (a >> 1) ^ (b >> 1)
    ensures ((a ^ b) & 1 == 1) <==> ((a & 1 == 1) != (b & 1 == 1))
  {
  }

  lemma PolyFacts(a: bv32, b: bv32, c: bv32)
    ensures (a ^ b) ^ c == a ^ (b ^ c) == (a ^ c) ^ b
    ensures (a ^ c) ^ (b ^ c) == a ^ b
  {
  }

  lemma BitDistributes(a: bv32, b: bv32)
    ensures Bit(a ^ b) == Bit(a) ^ Bit(b)
  {
    BitFacts(a, b);
    PolyFacts(a >> 1, b >> 1, POLY);
  }

  lemma BitLinear(a: bv32, b: bv32)
    ensures Bit(Xor(a, b)) == Xor(Bit(a), Bit(b))
  {
    hide Bit;
    BitDistributes(a, b);
  }

  lemma {:induction false} BitsLinear(n: nat, a: bv32, b: bv32)
    ensures Bits(n, Xor(a, b)) == Xor(Bits(n, a), Bits(n, b))
    decreases n
  {
    hide Bit, Xor;
    if n > 0 {
      BitLinear(a, b);
      BitsLinear(n - 1, Bit(a), Bit(b));
    }
  }

  lemma {:induction false} BitsZero(n: nat)
    ensures Bits(n, 0) == 0
  {
    if n > 0 {
      BitsZero(n - 1);
    }
  }

  lemma {:induction false} BitsAdd(m: nat, n: nat, c: bv32)
    ensures Bits(m + n, c) == Bits(n, Bits(m, c))
    decreases m
  {
    hide Bit;
    if m > 0 {
      BitsAdd(m - 1, n, Bit(c));
    }
  }

  lemma {:induction false} RawConcat(c: bv32, a: seq<bv8>, b: seq<bv8>)
    ensures Raw(c, a + b) == Raw(Raw(c, a), b)
    decreases |a|
  {
    hide Step;
    if a == [] {
      assert a + b == b;
    } else {
      assert (a + b)[1..] == a[1..] + b;
      RawConcat(Step(c, a[0]), a[1..], b);
    }
  }

  lemma StepLinear(a: bv32, b: bv32, x: bv8)
    ensures Step(Xor(a, b), x) == Xor(Step(a, x), Bits(8, b))
  {
    hide Xor, Bits;
    XorLaws(a, b, x as bv32);
    BitsLinear(8, Xor(a, x as bv32), b);
  }

  /** A difference in the register goes through the data as it goes through zeros. */
  lemma {:induction false} RawLinear(a: bv32, b: bv32, data: seq<bv8>)
    ensures Raw(Xor(a, b), data) == Xor(Raw(a, data), Bits(8 * |data|, b))
    decreases |data|
  {
    hide Xor, Step, Bit;
    if data != [] {
      StepLinear(a, b, data[0]);
      RawLinear(Step(a, data[0]), Bits(8, b), data[1..]);
      BitsAdd(8, 8 * |data[1..]|, b);
    }
  }

  lemma RawFromZero(c: bv32, data: seq<bv8>)
    ensures Raw(c, data) == Xor(Bits(8 * |data|, c), Raw(0, data))
  {
    hide Xor, Raw, Bits;
    XorLaws(c, 0, 0);
    RawLinear(0, c, data);
    XorLaws(Raw(0, data), Bits(8 * |data|, c), 0);
  }

  /** Three blocks computed apart and recombined through the zeros operator. */
  lemma ThreeWay(c: bv32, x: seq<bv8>, y: seq<bv8>, z: seq<bv8>)
    ensures Raw(c, x + y + z) == Xor(Bits(8 * |z|, Xor(Bits(8 * |y|, Raw(c, x)), Raw(0, y))), Raw(0, z))
  {
    hide Xor, Raw, Bits;
    RawConcat(c, x + y, z);
    RawConcat(c, x, y);
    RawFromZero(Raw(c, x), y);
    RawFromZero(Raw(c, x + y), z);
  }

  /** Feeding chunks with the previous digest equals one pass over their concatenation. */
  lemma CrcConcat(crc: bv32, a: seq<bv8>, b: seq<bv8>)
    ensures Crc(Crc(crc, a), b) == Crc(crc, a + b)
  {
    hide Raw, Not;
    NotNot(Raw(Not(crc), a));
    RawConcat(Not(crc), a, b);
  }

  // ---------------------------------------------------------------- shifted operands

  lemma ByteOut(v: bv32)
    requires v <= 0xffffff
    ensures Bits(8, v << 8) == v
  {
  }

  /** Eight zero bits shift a register out as long as its low byte is zero. */
  lemma BitsShift(n: nat, v: bv32)
    requires v <= 0xffffff
    ensures Bits(n + 8, v << 8) == Bits(n, v)
  {
    hide Bits;
    BitsAdd(8, n, v << 8);
    ByteOut(v);
  }

  // ---------------------------------------------------------------- bytes of a register

  /** Byte k of c, lowest first. */
  function Lane(c: bv32, k: nat): bv8
    requires k < 4
  {
    match k
    case 0 => (c & 0xff) as bv8
    case 1 => ((c >> 8) & 0xff) as bv8
    case 2 => ((c >> 16) & 0xff) as bv8
    case 3 => (c >> 24) as bv8
  }

  /** Byte b at position k. */
  function At(b: bv8, k: nat): bv32
    requires k < 4
  {
    match k
    case 0 => b as bv32
    case 1 => (b as bv32) << 8
    case 2 => (b as bv32) << 16
    case 3 => (b as bv32) << 24
  }

  function Xor4(a: bv32, b: bv32, c: bv32, d: bv32): bv32 {
    Xor(Xor(Xor(a, b), c), d)
  }

  lemma LanesRaw(c: bv32)
    ensures c == At(Lane(c, 0), 0) ^ At(Lane(c, 1), 1) ^ At(Lane(c, 2), 2) ^ At(Lane(c, 3), 3)
  {
  }

  lemma Lanes(c: bv32)
    ensures c == Xor4(At(Lane(c, 0), 0), At(Lane(c, 1), 1), At(Lane(c, 2), 2), At(Lane(c, 3), 3))
  {
    hide At, Lane;
    LanesRaw(c);
  }

  lemma BitsLinear4(n: nat, a: bv32, b: bv32, c: bv32, d: bv32)
    ensures Bits(n, Xor4(a, b, c, d)) == Xor4(Bits(n, a), Bits(n, b), Bits(n, c), Bits(n, d))
  {
    hide Xor, Bits;
    BitsLinear(n, Xor(Xor(a, b), c), d);
    BitsLinear(n, Xor(a, b), c);
    BitsLinear(n, a, b);
  }
}
