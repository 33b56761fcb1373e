/** The hash of a key its author published: two blocks mixed, a third finished. */
module JenkinsKnown {
  import opened Octets
  import opened Jenkins
  import opened Arith

  // ---------------------------------------------------------------- exclusive or of numbers and of bytes

  function Value(p: bv8): nat { p as nat }

  function Both(p: bv8, q: bv8): bv8 { p ^ q }

  function Upper(p: bv8): bv8 { p >> 1 }

  function Lowest(p: bv8): nat { (p & 1) as nat }

  lemma Halved(p: bv8)
    ensures Value(p) == 2 * Value(Upper(p)) + Lowest(p) && Lowest(p) < 2
  {
  }

  lemma BothHalved(p: bv8, q: bv8)
    ensures BitXor(Lowest(p), Lowest(q)) == Lowest(Both(p, q)) && Upper(Both(p, q)) == Both(Upper(p), Upper(q))
  {
  }

  lemma XorBit(x: nat, y: nat, p: nat, q: nat)
    requires p < 2 && q < 2
    ensures Xor(2 * x + p, 2 * y + q) == 2 * Xor(x, y) + BitXor(p, q)
  {
    assert Low(2 * x + p) == p && High(2 * x + p) == x && Low(2 * y + q) == q && High(2 * y + q) == y;
  }

  lemma XorHalf(u: nat, v: nat, p: bv8, q: bv8)
    ensures Xor(2 * u + Value(p), 2 * v + Value(q)) - Value(Both(p, q))
      == 2 * (Xor(u + Value(Upper(p)), v + Value(Upper(q))) - Value(Both(Upper(p), Upper(q))))
  {
    hide Xor, BitXor, Value, Both, Upper, Lowest;
    Halved(p);
    Halved(q);
    Halved(Both(p, q));
    BothHalved(p, q);
    XorBit(u + Value(Upper(p)), v + Value(Upper(q)), Lowest(p), Lowest(q));
  }

  lemma AllShifted(p: bv8)
    ensures Upper(Upper(Upper(Upper(Upper(Upper(Upper(Upper(p)))))))) == 0
  {
  }

  lemma NoBits()
    ensures Value(0) == 0 && Both(0, 0) == 0 && Xor(0, 0) == 0
  {
  }

  lemma XorByte(x: nat, y: nat, p: bv8, q: bv8)
    ensures Xor(256 * x + Value(p), 256 * y + Value(q)) == 256 * Xor(x, y) + Value(Both(p, q))
  {
    hide Xor, Value, Both, Upper;
    var p1, q1 := Upper(p), Upper(q);
    var p2, q2 := Upper(p1), Upper(q1);
    var p3, q3 := Upper(p2), Upper(q2);
    var p4, q4 := Upper(p3), Upper(q3);
    var p5, q5 := Upper(p4), Upper(q4);
    var p6, q6 := Upper(p5), Upper(q5);
    var p7, q7 := Upper(p6), Upper(q6);
    XorHalf(128 * x, 128 * y, p, q);
    XorHalf(64 * x, 64 * y, p1, q1);
    XorHalf(32 * x, 32 * y, p2, q2);
    XorHalf(16 * x, 16 * y, p3, q3);
    XorHalf(8 * x, 8 * y, p4, q4);
    XorHalf(4 * x, 4 * y, p5, q5);
    XorHalf(2 * x, 2 * y, p6, q6);
    XorHalf(x, y, p7, q7);
    AllShifted(p);
    AllShifted(q);
    NoBits();
  }

  function Joined(p: nat, q: nat, r: nat, s: nat): nat {
    256 * (256 * (256 * p + q) + r) + s
  }

  /** Exclusive or of two words is that of their bytes. */
  lemma XorBytes(p: bv8, q: bv8, r: bv8, s: bv8, t: bv8, u: bv8, v: bv8, w: bv8)
    ensures Xor(Joined(Value(p), Value(q), Value(r), Value(s)), Joined(Value(t), Value(u), Value(v), Value(w)))
      == Joined(Value(Both(p, t)), Value(Both(q, u)), Value(Both(r, v)), Value(Both(s, w)))
  {
    hide Xor, Value, Both;
    var p1, t1 := Value(p), Value(t);
    var p2, t2 := 256 * p1 + Value(q), 256 * t1 + Value(u);
    NoBits();
    XorByte(0, 0, p, t);
    XorByte(p1, t1, q, u);
    XorByte(p2, t2, r, v);
    XorByte(256 * p2 + Value(r), 256 * t2 + Value(v), s, w);
  }

  // ---------------------------------------------------------------- rotation

  lemma Powers()
    ensures Pow2(4) == 0x10 && Pow2(6) == 0x40 && Pow2(7) == 0x80 && Pow2(8) == 0x100
    ensures Pow2(11) == 0x800 && Pow2(13) == 0x2000 && Pow2(14) == 0x4000 && Pow2(16) == 0x10000
    ensures Pow2(18) == 0x40000 && Pow2(19) == 0x80000 && Pow2(21) == 0x200000 && Pow2(24) == 0x1000000
    ensures Pow2(25) == 0x2000000 && Pow2(26) == 0x4000000 && Pow2(28) == 0x10000000
  {
    assert Pow2(12) == 0x1000 && Pow2(20) == 0x10_0000;
  }

  /** The k high bits of a word come in below the others. */
  lemma RotIs(x: word, k: nat, p: nat, q: nat, high: nat, low: nat)
    requires 0 < k < 32 && Pow2(k) == p && Pow2(32 - k) == q && low < q && x == q * high + low
    ensures Rot(x, k) == low * p + high
  {
    DivModUnique(q, high, low);
  }

  // ---------------------------------------------------------------- the key and its hash

  lemma FirstBlock()
    ensures Mix(Abc(0x51232e53, 0x4e11322d, 0x3fce247f)) == Abc(0xf859ad7a, 0x4bc57ae, 0x40dddd7e)
  {
    hide Xor, Pow2, Rot;
    Powers();
    RotIs(0x3fce247f, 4, 0x10, 0x10000000, 0x3, 0xfce247f);
    XorBytes(0x11, 0x55, 0x09, 0xd4, 0xfc, 0xe2, 0x47, 0xf3);
    RotIs(0xedb74e27, 6, 0x40, 0x4000000, 0x3b, 0x1b74e27);
    XorBytes(0x60, 0x59, 0xe4, 0x06, 0x6d, 0xd3, 0x89, 0xfb);
    RotIs(0xd8a6dfd, 8, 0x100, 0x1000000, 0xd, 0x8a6dfd);
    XorBytes(0x80, 0x54, 0xe8, 0xaf, 0x8a, 0x6d, 0xfd, 0x0d);
    RotIs(0xa3915a2, 16, 0x10000, 0x10000, 0xa39, 0x15a2);
    XorBytes(0x71, 0x5d, 0x8f, 0x31, 0x15, 0xa2, 0x0a, 0x39);
    RotIs(0x64ff8508, 19, 0x80000, 0x2000, 0x327fc, 0x508);
    XorBytes(0x24, 0x21, 0x8d, 0xc8, 0x28, 0x43, 0x27, 0xfc);
    RotIs(0xc62aa34, 4, 0x10, 0x10000000, 0x0, 0xc62aa34);
    XorBytes(0x86, 0xf7, 0x7e, 0x3e, 0xc6, 0x2a, 0xa3, 0x40);
  }

  lemma SecondBlock()
    ensures Mix(Abc(0x6b7a11e8, 0x7321ce13, 0xa243569e)) == Abc(0x336aded2, 0x59f2642, 0xbd02ebd5)
  {
    hide Xor, Pow2, Rot;
    Powers();
    RotIs(0xa243569e, 4, 0x10, 0x10000000, 0xa, 0x243569e);
    XorBytes(0xc9, 0x36, 0xbb, 0x4a, 0x24, 0x35, 0x69, 0xea);
    RotIs(0xed03d2a0, 6, 0x40, 0x4000000, 0x3b, 0x103d2a0);
    XorBytes(0x86, 0x1d, 0xfb, 0x73, 0x40, 0xf4, 0xa8, 0x3b);
    RotIs(0xc6e95348, 8, 0x100, 0x1000000, 0xc6, 0xe95348);
    XorBytes(0x4e, 0x7b, 0xd1, 0x69, 0xe9, 0x53, 0x48, 0xc6);
    RotIs(0xa72899af, 16, 0x10000, 0x10000, 0xa728, 0x99af);
    XorBytes(0x5b, 0x40, 0x5d, 0xa2, 0x99, 0xaf, 0xa7, 0x28);
    RotIs(0xc2effa8a, 19, 0x80000, 0x2000, 0x6177f, 0x1a8a);
    XorBytes(0x06, 0x62, 0x50, 0x0f, 0xd4, 0x56, 0x17, 0x7f);
    RotIs(0xd2344770, 4, 0x10, 0x10000000, 0xd, 0x2344770);
    XorBytes(0x9e, 0x46, 0x9c, 0xd8, 0x23, 0x44, 0x77, 0x0d);
  }

  lemma LastBlock()
    ensures Final(Abc(0x948b5244, 0x59f95a9, 0xbd02ebd5)) == Abc(0x9a837816, 0xce7226e6, 0x17770551)
  {
    hide Xor, Pow2, Rot;
    Powers();
    RotIs(0x59f95a9, 14, 0x4000, 0x40000, 0x167, 0x395a9);
    XorBytes(0xbd, 0x02, 0xeb, 0xd5, 0x05, 0x9f, 0x95, 0xa9);
    RotIs(0xd3333d15, 11, 0x800, 0x200000, 0x699, 0x133d15);
    XorBytes(0x94, 0x8b, 0x52, 0x44, 0xd3, 0x33, 0x3d, 0x15);
    RotIs(0xadcfc0b8, 25, 0x2000000, 0x80, 0x15b9f81, 0x38);
    XorBytes(0x05, 0x9f, 0x95, 0xa9, 0xad, 0xcf, 0xc0, 0xb8);
    RotIs(0x36f4b590, 16, 0x10000, 0x10000, 0x36f4, 0xb590);
    XorBytes(0xd3, 0x33, 0x3d, 0x15, 0x36, 0xf4, 0xb5, 0x90);
    RotIs(0x30375191, 4, 0x10, 0x10000000, 0x3, 0x375191);
    XorBytes(0xad, 0xcf, 0xc0, 0xb8, 0x30, 0x37, 0x51, 0x91);
    RotIs(0x9a837816, 14, 0x4000, 0x40000, 0x26a0, 0x37816);
    XorBytes(0x36, 0xf4, 0xb5, 0x90, 0x9a, 0x83, 0x78, 0x16);
    RotIs(0xce7226e6, 24, 0x1000000, 0x100, 0xce7226, 0xe6);
    XorBytes(0x30, 0x37, 0x51, 0x91, 0xce, 0x72, 0x26, 0xe6);
  }

  const TEXT := "Four score and seven years ago"

  function Bytes(s: string): (r: seq<byte>)
    requires forall i :: 0 <= i < |s| ==> s[i] < 256 as char
    ensures |r| == |s| && forall i :: 0 <= i < |s| ==> r[i] == s[i] as nat
  {
    seq(|s|, i requires 0 <= i < |s| => s[i] as nat)
  }

  lemma WordIs(key: seq<byte>, i: nat, b0: byte, b1: byte, b2: byte, b3: byte)
    requires [b0, b1, b2, b3] == [At(key, i), At(key, i + 1), At(key, i + 2), At(key, i + 3)]
    ensures WordAt(key, i) == b0 + 0x100 * b1 + 0x1_0000 * b2 + 0x100_0000 * b3
  {
    assert [b0, b1, b2, b3][0] == b0 && [b0, b1, b2, b3][1] == b1 && [b0, b1, b2, b3][2] == b2;
    assert [b0, b1, b2, b3][3] == b3;
  }

  lemma FirstWords()
    ensures |TEXT| == 30
    ensures Absorb(Start(30), Bytes(TEXT)) == Abc(0x51232e53, 0x4e11322d, 0x3fce247f)
  {
    hide Bytes, WordAt;
    var key := Bytes(TEXT);
    assert |key| == 30;
    WordIs(key, 0, 70, 111, 117, 114);
    WordIs(key, 4, 32, 115, 99, 111);
    WordIs(key, 8, 114, 101, 32, 97);
  }

  lemma SecondWords()
    ensures |TEXT| == 30
    ensures Absorb(Abc(0xf859ad7a, 0x4bc57ae, 0x40dddd7e), Bytes(TEXT)[12..]) == Abc(0x6b7a11e8, 0x7321ce13, 0xa243569e)
  {
    hide Bytes, WordAt;
    var key := Bytes(TEXT)[12..];
    assert |key| == 18;
    WordIs(key, 0, 110, 100, 32, 115);
    WordIs(key, 4, 101, 118, 101, 110);
    WordIs(key, 8, 32, 121, 101, 97);
  }

  lemma ThirdWords()
    ensures |TEXT| == 30
    ensures Absorb(Abc(0x336aded2, 0x59f2642, 0xbd02ebd5), Bytes(TEXT)[24..]) == Abc(0x948b5244, 0x59f95a9, 0xbd02ebd5)
  {
    hide Bytes, WordAt;
    var key := Bytes(TEXT)[24..];
    assert |key| == 6;
    WordIs(key, 0, 114, 115, 32, 97);
    WordIs(key, 4, 103, 111, 0, 0);
    WordIs(key, 8, 0, 0, 0, 0);
  }

  /** The published value. */
  lemma KnownHash()
    ensures Hash(Bytes(TEXT)) == 0x17770551
  {
    hide Mix, Final, Absorb, Start, Bytes;
    var key := Bytes(TEXT);
    FirstWords();
    FirstBlock();
    var t := Abc(0xf859ad7a, 0x4bc57ae, 0x40dddd7e);
    assert Rounds(Start(30), key) == Rounds(t, key[12..]);
    SecondWords();
    SecondBlock();
    assert key[12..][12..] == key[24..];
    var u := Abc(0x336aded2, 0x59f2642, 0xbd02ebd5);
    assert Rounds(t, key[12..]) == Rounds(u, key[24..]);
    ThirdWords();
    LastBlock();
  }
}
