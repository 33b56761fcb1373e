/** What CRC-32C computes: the remainder of the message polynomial modulo the Castagnoli polynomial
    of section 12.1 of RFC 3720, by long division over GF(2). */
module Crc32cPoly {
  import opened Crc32c

  // ---------------------------------------------------------------- polynomials over GF(2)

  /** The powers of x in the generator. */
  const POWERS: set<int> := {32, 28, 27, 26, 25, 23, 22, 20, 19, 18, 14, 13, 11, 10, 9, 8, 6, 0}

  /** A polynomial is the sequence of its coefficients, the highest power first. */
  function Generator(): (g: seq<bool>)
    ensures |g| == 33 && g[0]
  {
    seq(33, (i: nat) => 32 - i in POWERS)
  }

  /** q added to the highest powers of p. */
  function Plus(p: seq<bool>, q: seq<bool>): (r: seq<bool>)
    requires |q| <= |p|
    ensures |r| == |p|
  {
    seq(|p|, (i: nat) requires i < |p| => if i < |q| then p[i] != q[i] else p[i])
  }

  /** Long division: while the highest power is 32 or more, take it away with a multiple of the
      generator. */
  function Remainder(p: seq<bool>): (r: seq<bool>)
    requires |p| >= 32
    ensures |r| == 32
    decreases |p|
  {
    if |p| == 32 then p
    else if p[0] then Remainder(Plus(p, Generator())[1..])
    else Remainder(p[1..])
  }

  function Zeros(n: nat): (z: seq<bool>)
    ensures |z| == n
  {
    seq(n, (i: nat) => false)
  }

  // ---------------------------------------------------------------- bits of registers and messages

  predicate Odd(c: bv32) { c & 1 == 1 }

  function Half(c: bv32): bv32 { c >> 1 }

  /** The n lowest bits, the lowest first. */
  function BitsFrom(c: bv32, n: nat): (s: seq<bool>)
    ensures |s| == n
  {
    if n == 0 then [] else [Odd(c)] + BitsFrom(Half(c), n - 1)
  }

  /** The register holds the highest power in its lowest bit. */
  function Coefficients(c: bv32): (s: seq<bool>)
    ensures |s| == 32
  {
    BitsFrom(c, 32)
  }

  /** The bits of a message in the order they are sent: byte by byte, the lowest bit first. */
  function Message(data: seq<bv8>): (s: seq<bool>)
    ensures |s| == 8 * |data|
  {
    if data == [] then [] else BitsFrom(data[0] as bv32, 8) + Message(data[1..])
  }

  // ---------------------------------------------------------------- shifting

  function Down(c: bv32, n: nat): bv32 {
    if n == 0 then c else Down(Half(c), n - 1)
  }

  lemma {:induction false} DownAdd(c: bv32, m: nat, n: nat)
    ensures Down(c, m + n) == Down(Down(c, m), n)
    decreases m
  {
    hide Half;
    if m > 0 {
      DownAdd(Half(c), m - 1, n);
    }
  }

  lemma DownFour(c: bv32)
    ensures Down(c, 4) == Half(Half(Half(Half(c))))
  {
    hide Half;
    var c1 := Half(c);
    var c2 := Half(c1);
    var c3 := Half(c2);
    assert Down(c3, 1) == Half(c3);
    assert Down(c2, 2) == Down(c3, 1);
    assert Down(c1, 3) == Down(c2, 2);
  }

  lemma ShiftFour(c: bv32)
    ensures Half(Half(Half(Half(c)))) == c >> 4
  {
  }

  lemma ShiftOut(c: bv32)
    ensures c >> 4 >> 4 == c >> 8 && c >> 8 >> 8 >> 8 >> 8 == 0
  {
  }

  lemma DownByte(c: bv32)
    ensures Down(c, 8) == c >> 8
  {
    hide Down, Half;
    DownAdd(c, 4, 4);
    DownFour(c);
    ShiftFour(c);
    DownFour(c >> 4);
    ShiftFour(c >> 4);
    ShiftOut(c);
  }

  lemma DownOut(c: bv32)
    ensures Down(c, 32) == 0
  {
    hide Down;
    DownAdd(c, 8, 24);
    DownByte(c);
    DownAdd(c >> 8, 8, 16);
    DownByte(c >> 8);
    DownAdd(c >> 8 >> 8, 8, 8);
    DownByte(c >> 8 >> 8);
    DownByte(c >> 8 >> 8 >> 8);
    ShiftOut(c);
  }

  lemma {:induction false} BitsLonger(c: bv32, n: nat)
    ensures BitsFrom(c, n + 1) == BitsFrom(c, n) + [Odd(Down(c, n))]
    decreases n
  {
    hide Half, Odd;
    if n == 0 {
      assert BitsFrom(c, 0) == [] && BitsFrom(c, 1) == [Odd(c)];
    } else {
      BitsLonger(Half(c), n - 1);
    }
  }

  lemma ShiftedCoefficients(c: bv32)
    ensures Coefficients(Half(c)) == Coefficients(c)[1..] + [false]
  {
    hide Down, Half, Odd;
    BitsLonger(c, 32);
    DownOut(c);
    assert !Odd(0) by { ZeroEven(); }
    assert BitsFrom(c, 33) == [Odd(c)] + BitsFrom(Half(c), 32);
    assert BitsFrom(c, 33)[1..] == BitsFrom(Half(c), 32);
  }

  lemma ZeroEven()
    ensures !Odd(0) && Half(0) == 0
  {
  }

  lemma OddHalfXor(a: bv32, b: bv32)
    ensures Odd(Xor(a, b)) == (Odd(a) != Odd(b)) && Half(Xor(a, b)) == Xor(Half(a), Half(b))
  {
  }

  lemma {:induction false} BitsXor(a: bv32, b: bv32, n: nat)
    ensures BitsFrom(Xor(a, b), n) == Plus(BitsFrom(a, n), BitsFrom(b, n))
    decreases n
  {
    hide Odd, Half, Xor;
    if n > 0 {
      OddHalfXor(a, b);
      BitsXor(Half(a), Half(b), n - 1);
    }
  }

  // ---------------------------------------------------------------- the generator in the register

  /** The bits of a byte. */
  function Eight(c: bv32): (s: seq<bool>)
    ensures |s| == 8
  {
    [c & 1 != 0, c & 2 != 0, c & 4 != 0, c & 8 != 0, c & 16 != 0, c & 32 != 0, c & 64 != 0, c & 128 != 0]
  }

  lemma FourOdds(c: bv32)
    ensures Odd(c) == (c & 1 != 0) && Odd(Half(c)) == (c & 2 != 0)
    ensures Odd(Half(Half(c))) == (c & 4 != 0) && Odd(Half(Half(Half(c)))) == (c & 8 != 0)
    ensures (c >> 4) & 1 != 0 <==> c & 16 != 0
    ensures (c >> 4) & 2 != 0 <==> c & 32 != 0
    ensures (c >> 4) & 4 != 0 <==> c & 64 != 0
    ensures (c >> 4) & 8 != 0 <==> c & 128 != 0
  {
  }

  lemma BitsFour(c: bv32, n: nat)
    ensures BitsFrom(c, n + 4) == [c & 1 != 0, c & 2 != 0, c & 4 != 0, c & 8 != 0] + BitsFrom(c >> 4, n)
  {
    hide Half, Odd;
    FourOdds(c);
    ShiftFour(c);
    var c1 := Half(c);
    var c2 := Half(c1);
    var c3 := Half(c2);
    assert BitsFrom(c3, n + 1) == [Odd(c3)] + BitsFrom(c >> 4, n);
    assert BitsFrom(c2, n + 2) == [Odd(c2)] + BitsFrom(c3, n + 1);
    assert BitsFrom(c1, n + 3) == [Odd(c1)] + BitsFrom(c2, n + 2);
  }

  lemma BitsEight(c: bv32, n: nat)
    ensures BitsFrom(c, n + 8) == Eight(c) + BitsFrom(c >> 8, n)
  {
    hide BitsFrom;
    BitsFour(c, n + 4);
    BitsFour(c >> 4, n);
    FourOdds(c);
    ShiftOut(c);
  }

  lemma PolyBytes()
    ensures Eight(POLY) == [false, false, false, true, true, true, true, false]
    ensures Eight(POLY >> 8) == [true, true, false, true, true, true, false, false]
    ensures Eight(POLY >> 8 >> 8) == [false, true, true, false, true, true, true, true]
    ensures Eight(POLY >> 8 >> 8 >> 8) == [false, true, false, false, false, false, false, true]
  {
  }

  lemma PolyIsGenerator()
    ensures Coefficients(POLY) == Generator()[1..]
  {
    hide BitsFrom, Eight;
    PolyBytes();
    BitsEight(POLY, 24);
    BitsEight(POLY >> 8, 16);
    BitsEight(POLY >> 8 >> 8, 8);
    BitsEight(POLY >> 8 >> 8 >> 8, 0);
    assert BitsFrom(0, 0) == [];
    GeneratorBytes();
  }

  lemma GeneratorBytes()
    ensures Generator()[1..] ==
      [false, false, false, true, true, true, true, false] + ([true, true, false, true, true, true, false, false]
      + ([false, true, true, false, true, true, true, true] + [false, true, false, false, false, false, false, true]))
  {
  }

  // ---------------------------------------------------------------- one bit of division

  /** The register after one more bit of the message. */
  function Next(r: seq<bool>, bit: bool): (s: seq<bool>)
    requires |r| == 32
    ensures |s| == 32
  {
    var shifted := r[1..] + [false];
    if r[0] != bit then Plus(shifted, Generator()[1..]) else shifted
  }

  function Feed(r: seq<bool>, bits: seq<bool>): (s: seq<bool>)
    requires |r| == 32
    ensures |s| == 32
    decreases |bits|
  {
    if bits == [] then r else Feed(Next(r, bits[0]), bits[1..])
  }

  lemma {:induction false} FeedAdd(r: seq<bool>, a: seq<bool>, b: seq<bool>)
    requires |r| == 32
    ensures Feed(r, a + b) == Feed(Feed(r, a), b)
    decreases |a|
  {
    hide Next;
    if a == [] {
      assert a + b == b;
    } else {
      assert (a + b)[1..] == a[1..] + b;
      FeedAdd(Next(r, a[0]), a[1..], b);
    }
  }

  /** Dividing one step further takes one bit into the register. */
  lemma DivideStep(p: seq<bool>, r: seq<bool>)
    requires |p| > 32 && |r| == 32
    ensures Remainder(Plus(p, r)) == Remainder(Plus(p[1..], Next(r, p[0])))
  {
    hide Generator;
    var t, q := Plus(p, r), Plus(p[1..], Next(r, p[0]));
    if t[0] {
      assert Plus(t, Generator())[1..] == q;
    } else {
      assert t[1..] == q;
    }
  }

  /** Feeding bits to the register is dividing them, with 32 zeros behind, by the generator. */
  lemma {:induction false} FeedDivides(r: seq<bool>, bits: seq<bool>)
    requires |r| == 32
    ensures Feed(r, bits) == Remainder(Plus(bits + Zeros(32), r))
    decreases |bits|
  {
    hide Next;
    var p := bits + Zeros(32);
    if bits == [] {
      assert Plus(p, r) == r;
    } else {
      assert p[0] == bits[0] && p[1..] == bits[1..] + Zeros(32);
      DivideStep(p, r);
      FeedDivides(Next(r, bits[0]), bits[1..]);
    }
  }

  // ---------------------------------------------------------------- the register does that

  function Lowest(v: bv32): bv32 { v & 1 }

  function Upper(v: bv32): bv32 { v & 0xfffffffe }

  lemma SplitLowest(v: bv32)
    ensures v == Xor(Lowest(v), Upper(v)) && Bit(Upper(v)) == Half(v)
  {
  }

  lemma BitParts(c: bv32, v: bv32)
    ensures Bit(Xor(c, v)) == Xor(Bit(Xor(c, Lowest(v))), Half(v))
  {
    hide Bit, Xor, Half, Lowest, Upper;
    SplitLowest(v);
    XorAssoc(c, Lowest(v), Upper(v));
    BitLinear(Xor(c, Lowest(v)), Upper(v));
  }

  lemma BitNext(c: bv32)
    ensures Bit(c) == if Odd(c) then Xor(Half(c), POLY) else Half(c)
  {
  }

  lemma LowestIn(c: bv32, v: bv32)
    ensures Odd(Xor(c, Lowest(v))) == (Odd(c) != Odd(v)) && Half(Xor(c, Lowest(v))) == Half(c)
  {
  }

  /** One bit of the message, and the step. */
  lemma NextIs(c: bv32, v: bv32)
    ensures Coefficients(Bit(Xor(c, Lowest(v)))) == Next(Coefficients(c), Odd(v))
  {
    hide Bit, Xor, Odd, Half, Lowest, Generator;
    var d := Xor(c, Lowest(v));
    LowestIn(c, v);
    BitNext(d);
    ShiftedCoefficients(c);
    BitsXor(Half(c), POLY, 32);
    PolyIsGenerator();
    assert Coefficients(c)[0] == Odd(c);
  }

  /** The bits of v, of which there are n, fed one after the other. */
  lemma {:induction false} FeedBits(c: bv32, v: bv32, n: nat)
    requires Down(v, n) == 0
    ensures Coefficients(Bits(n, Xor(c, v))) == Feed(Coefficients(c), BitsFrom(v, n))
    decreases n
  {
    hide Bit, Xor, Odd, Half, Lowest, Next, Coefficients;
    if n == 0 {
      XorUnit(c);
    } else {
      BitParts(c, v);
      NextIs(c, v);
      FeedBits(Bit(Xor(c, Lowest(v))), Half(v), n - 1);
      assert BitsFrom(v, n)[0] == Odd(v) && BitsFrom(v, n)[1..] == BitsFrom(Half(v), n - 1);
    }
  }

  lemma ByteOut8(b: bv8)
    ensures (b as bv32) >> 8 == 0
  {
  }

  lemma StepFeeds(c: bv32, b: bv8)
    ensures Coefficients(Step(c, b)) == Feed(Coefficients(c), BitsFrom(b as bv32, 8))
  {
    hide Bits, Xor, Coefficients, Feed, BitsFrom, Down;
    DownByte(b as bv32);
    ByteOut8(b);
    FeedBits(c, b as bv32, 8);
  }

  lemma {:induction false} RawFeeds(c: bv32, data: seq<bv8>)
    ensures Coefficients(Raw(c, data)) == Feed(Coefficients(c), Message(data))
    decreases |data|
  {
    hide Step, Coefficients, BitsFrom, Next;
    if data != [] {
      StepFeeds(c, data[0]);
      RawFeeds(Step(c, data[0]), data[1..]);
      FeedAdd(Coefficients(c), BitsFrom(data[0] as bv32, 8), Message(data[1..]));
    }
  }

  /** The register law: after the bytes of data it holds the remainder of the message, with 32 zeros
      behind it and the initial register added to its highest powers. */
  lemma RawIsRemainder(c: bv32, data: seq<bv8>)
    ensures Coefficients(Raw(c, data)) == Remainder(Plus(Message(data) + Zeros(32), Coefficients(c)))
  {
    hide Coefficients, Raw, Message, Feed, Remainder, Plus;
    RawFeeds(c, data);
    FeedDivides(Coefficients(c), Message(data));
  }

  function Inverted(s: seq<bool>): (r: seq<bool>)
    ensures |r| == |s|
  {
    seq(|s|, (i: nat) requires i < |s| => !s[i])
  }

  lemma OddHalfNot(c: bv32)
    ensures Odd(Not(c)) == !Odd(c) && Not(c) == Xor(c, 0xffffffff)
  {
  }

  lemma NotInverts(c: bv32)
    ensures Coefficients(Not(c)) == Inverted(Coefficients(c))
  {
    hide Odd, Half, Xor, Not, BitsFrom;
    OddHalfNot(c);
    BitsXor(c, 0xffffffff, 32);
    OnesAre();
  }

  lemma OnesAre()
    ensures BitsFrom(0xffffffff, 32) == seq(32, (i: nat) => true)
  {
    hide BitsFrom, Eight;
    BitsEight(0xffffffff, 24);
    BitsEight(0xffffff, 16);
    BitsEight(0xffff, 8);
    BitsEight(0xff, 0);
    assert BitsFrom(0, 0) == [];
    OneBytes();
  }

  lemma OneBytes()
    ensures (0xffffffff as bv32) >> 8 == 0xffffff && (0xffffff as bv32) >> 8 == 0xffff
    ensures (0xffff as bv32) >> 8 == 0xff && (0xff as bv32) >> 8 == 0
    ensures Eight(0xffffffff) == Eight(0xffffff) == Eight(0xffff) == Eight(0xff)
    ensures Eight(0xff) == [true, true, true, true, true, true, true, true]
  {
  }

  /** The digest of data is the inverted remainder of the message whose first 32 bits, zeros behind it
      included, are inverted. */
  lemma CrcIsRemainder(data: seq<bv8>)
    ensures Coefficients(Crc(0, data)) == Inverted(Remainder(Plus(Message(data) + Zeros(32), Inverted(Zeros(32)))))
  {
    hide Coefficients, Raw, Not, Message, Remainder, Plus, Inverted;
    RawIsRemainder(Not(0), data);
    NotInverts(Raw(Not(0), data));
    NotInverts(0);
    assert Coefficients(0) == Zeros(32) by { ZeroCoefficients(); }
  }

  lemma ZeroCoefficients()
    ensures Coefficients(0) == Zeros(32)
  {
    hide BitsFrom;
    ZeroBits(32);
  }

  lemma {:induction false} ZeroBits(n: nat)
    ensures BitsFrom(0, n) == Zeros(n)
  {
    hide Odd, Half;
    if n > 0 {
      ZeroEven();
      ZeroBits(n - 1);
    }
  }

  // ---------------------------------------------------------------- known digests

  lemma StepOn(c: bv32, b: bv8)
    ensures Step(c, b) == Bit(Bit(Bit(Bit(Bit(Bit(Bit(Bit(c ^ (b as bv32)))))))))
  {
    hide Bit;
    var d := c ^ (b as bv32);
    var d4 := Bit(Bit(Bit(Bit(d))));
    assert Bits(8, d) == Bits(4, d4);
  }

  lemma StepTo(c: bv32, b: bv8, d: bv32)
    requires Bit(Bit(Bit(Bit(Bit(Bit(Bit(Bit(c ^ (b as bv32))))))))) == d
    ensures Step(c, b) == d
  {
    hide Bit;
    StepOn(c, b);
  }

  /** The digest of "123456789". */
  lemma CheckValue()
    ensures Crc(0, [0x31, 0x32, 0x33, 0x34, 0x35, 0x36, 0x37, 0x38, 0x39]) == 0xe3069283
  {
    hide Step;
    assert Not(0) == 0xffffffff;
    StepTo(0xffffffff, 0x31, 0x6f0a661c);
    StepTo(0x6f0a661c, 0x32, 0x8caa3b9f);
    StepTo(0x8caa3b9f, 0x33, 0xef84d04d);
    StepTo(0xef84d04d, 0x34, 0x09c50b11);
    StepTo(0x09c50b11, 0x35, 0xe72edcca);
    StepTo(0xe72edcca, 0x36, 0xbeca8e79);
    StepTo(0xbeca8e79, 0x37, 0xedbd6815);
    StepTo(0xedbd6815, 0x38, 0x9f787f65);
    StepTo(0x9f787f65, 0x39, 0x1cf96d7c);
  }
}
