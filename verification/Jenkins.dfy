/** The little-endian Jenkins hash of jenkins_hash.c: three ways of reading the key, one value, and
    a mixing step that loses nothing. */
module Jenkins {
  import opened Octets

  const TWO32 := 0x1_0000_0000

  /** Unsigned 32-bit words; arithmetic on them is modulo 2^32. */
  type word = x: nat | x < TWO32

  /** The three words of internal state. */
  datatype Abc = Abc(a: word, b: word, c: word)

  // ---------------------------------------------------------------- word arithmetic

  function Add(x: word, y: word): word { (x + y) % TWO32 }

  function Sub(x: word, y: word): word { (x - y) % TWO32 }

  function Low(x: nat): nat { x % 2 }

  function High(x: nat): nat { x / 2 }

  /** A number from its lowest bit and the rest. */
  function Join(bit: nat, rest: nat): nat { bit + 2 * rest }

  function BitXor(a: nat, b: nat): nat { if a == b then 0 else 1 }

  /** Bitwise exclusive or. */
  function Xor(x: nat, y: nat): nat {
    if x == 0 && y == 0 then 0 else Join(BitXor(Low(x), Low(y)), Xor(High(x), High(y)))
  }

  lemma JoinLow(bit: nat, rest: nat)
    requires bit < 2
    ensures Low(Join(bit, rest)) == bit
  {
  }

  lemma JoinHigh(bit: nat, rest: nat)
    requires bit < 2
    ensures High(Join(bit, rest)) == rest
  {
  }

  lemma JoinZero(bit: nat, rest: nat)
    ensures Join(bit, rest) == 0 <==> bit == 0 && rest == 0
  {
  }

  lemma JoinParts(bit: nat, rest: nat)
    requires bit < 2
    ensures Low(Join(bit, rest)) == bit && High(Join(bit, rest)) == rest
    ensures Join(bit, rest) == 0 <==> bit == 0 && rest == 0
  {
    hide Low, High, Join;
    JoinLow(bit, rest);
    JoinHigh(bit, rest);
    JoinZero(bit, rest);
  }

  lemma Split(x: nat)
    ensures Join(Low(x), High(x)) == x && Low(x) < 2 && High(x) <= x && (x > 0 ==> High(x) < x)
  {
  }

  lemma {:induction false} XorTwice(x: nat, y: nat)
    ensures Xor(Xor(x, y), y) == x
    decreases x, y
  {
    hide Join, Low, High;
    Split(x);
    Split(y);
    if x != 0 || y != 0 {
      XorTwice(High(x), High(y));
      var bit, rest := BitXor(Low(x), Low(y)), Xor(High(x), High(y));
      JoinParts(bit, rest);
      JoinParts(Low(x), High(x));
      assert Xor(x, y) == Join(bit, rest);
      assert BitXor(bit, Low(y)) == Low(x);
      if bit == 0 && rest == 0 && y == 0 {
        JoinParts(Low(y), High(y));
      }
    }
  }

  lemma {:induction false} XorBound(x: nat, y: nat, n: nat)
    requires x < Pow2(n) && y < Pow2(n)
    ensures Xor(x, y) < Pow2(n)
  {
    if x != 0 || y != 0 {
      XorBound(High(x), High(y), n - 1);
    }
  }

  function Pow2(n: nat): nat { if n == 0 then 1 else 2 * Pow2(n - 1) }

  lemma Pow2Is32()
    ensures Pow2(32) == TWO32
  {
    assert Pow2(8) == 256;
    assert Pow2(16) == 65536;
    assert Pow2(24) == 16777216;
  }

  function XorWord(x: word, y: word): word {
    Pow2Is32();
    XorBound(x, y, 32);
    Xor(x, y)
  }

  lemma XorWordTwice(x: word, y: word)
    ensures XorWord(XorWord(x, y), y) == x
  {
    XorTwice(x, y);
  }

  /** The part of x below q moved up by a factor p, the part above it moved down. */
  function Parts(x: nat, p: nat, q: nat): nat
    requires q > 0
  {
    var low: nat := x % q;
    low * p + x / q
  }

  /** Rotation by k bits: the low 32 - k bits move up, the high k bits come in below them. */
  function Rot(x: word, k: nat): (r: word)
    requires 0 < k < 32
  {
    RotBound(x, k);
    Parts(x, Pow2(k), Pow2(32 - k))
  }

  lemma {:induction false} Pow2Split(k: nat, n: nat)
    requires k <= n
    ensures Pow2(n) == Pow2(k) * Pow2(n - k) && Pow2(n - k) > 0
  {
    if k < n {
      Pow2Split(k, n - 1);
    } else {
      Pow2Positive(k);
    }
  }

  lemma {:induction false} Pow2Positive(k: nat)
    ensures Pow2(k) > 0
  {
    if k > 0 {
      Pow2Positive(k - 1);
    }
  }

  /** The two parts of a rotation do not overlap. */
  lemma RotBound(x: word, k: nat)
    requires 0 < k < 32
    ensures Pow2(32 - k) > 0 && Parts(x, Pow2(k), Pow2(32 - k)) < TWO32
  {
    hide Pow2, Parts;
    Pow2Is32();
    Pow2Split(k, 32);
    PartsFit(x, Pow2(k), Pow2(32 - k));
  }

  lemma PartsFit(x: nat, p: nat, q: nat)
    requires q > 0 && x < p * q
    ensures Parts(x, p, q) < p * q
  {
    var hi, lo := x / q, x % q;
    assert hi < p by { QuotientLess(x, p, q); }
    assert lo * p <= (q - 1) * p by { MulMonotone(lo, q - 1, p); }
    assert (q - 1) * p == p * q - p;
  }

  lemma MulMonotone(a: nat, b: nat, p: nat)
    requires a <= b
    ensures a * p <= b * p
  {
  }

  lemma QuotientLess(x: nat, p: nat, q: nat)
    requires q > 0 && x < p * q
    ensures x / q < p
  {
    assert (x / q) * q <= x;
    if x / q >= p {
      MulMonotone(p, x / q, q);
    }
  }

  lemma SubAfterAdd(x: word, y: word)
    ensures Sub(Add(x, y), y) == x
  {
  }

  lemma AddAfterSub(x: word, y: word)
    ensures Add(Sub(x, y), y) == x
  {
  }

  lemma AddSub(x: word, y: word)
    ensures Sub(Add(x, y), y) == x && Add(Sub(x, y), y) == x
  {
    hide Add, Sub;
    SubAfterAdd(x, y);
    AddAfterSub(x, y);
  }

  /** One line of mix: x -= z; x ^= rot(z, k); z += y. */
  function Line(x: word, y: word, z: word, k: nat): (word, word)
    requires 0 < k < 32
  {
    (XorWord(Sub(x, z), Rot(z, k)), Add(z, y))
  }

  /** The line run backwards. */
  function Unline(x: word, y: word, z: word, k: nat): (word, word)
    requires 0 < k < 32
  {
    (Add(XorWord(x, Rot(Sub(z, y), k)), Sub(z, y)), Sub(z, y))
  }

  lemma LineUndone(x: word, y: word, z: word, k: nat)
    requires 0 < k < 32
    ensures var (x', z') := Line(x, y, z, k); Unline(x', y, z', k) == (x, z)
    ensures var (x', z') := Unline(x, y, z, k); Line(x', y, z', k) == (x, z)
  {
    hide Rot, XorWord, Add, Sub;
    AddSub(z, y);
    XorWordTwice(Sub(x, z), Rot(z, k));
    AddSub(x, z);
    var z0 := Sub(z, y);
    AddSub(XorWord(x, Rot(z0, k)), z0);
    XorWordTwice(x, Rot(z0, k));
  }

  function MixA(t: Abc, k: nat): Abc
    requires 0 < k < 32
  {
    var (a, c) := Line(t.a, t.b, t.c, k); Abc(a, t.b, c)
  }

  function MixB(t: Abc, k: nat): Abc
    requires 0 < k < 32
  {
    var (b, a) := Line(t.b, t.c, t.a, k); Abc(a, b, t.c)
  }

  function MixC(t: Abc, k: nat): Abc
    requires 0 < k < 32
  {
    var (c, b) := Line(t.c, t.a, t.b, k); Abc(t.a, b, c)
  }

  function UnmixA(t: Abc, k: nat): Abc
    requires 0 < k < 32
  {
    var (a, c) := Unline(t.a, t.b, t.c, k); Abc(a, t.b, c)
  }

  function UnmixB(t: Abc, k: nat): Abc
    requires 0 < k < 32
  {
    var (b, a) := Unline(t.b, t.c, t.a, k); Abc(a, b, t.c)
  }

  function UnmixC(t: Abc, k: nat): Abc
    requires 0 < k < 32
  {
    var (c, b) := Unline(t.c, t.a, t.b, k); Abc(t.a, b, c)
  }

  function Mix(t: Abc): Abc {
    MixC(MixB(MixA(MixC(MixB(MixA(t, 4), 6), 8), 16), 19), 4)
  }

  function Unmix(t: Abc): Abc {
    UnmixA(UnmixB(UnmixC(UnmixA(UnmixB(UnmixC(t, 4), 19), 16), 8), 6), 4)
  }

  lemma StepsUndone(t: Abc, k: nat)
    requires 0 < k < 32
    ensures UnmixA(MixA(t, k), k) == t && MixA(UnmixA(t, k), k) == t
    ensures UnmixB(MixB(t, k), k) == t && MixB(UnmixB(t, k), k) == t
    ensures UnmixC(MixC(t, k), k) == t && MixC(UnmixC(t, k), k) == t
  {
    hide Line, Unline;
    LineUndone(t.a, t.b, t.c, k);
    LineUndone(t.b, t.c, t.a, k);
    LineUndone(t.c, t.a, t.b, k);
  }

  /** The mixing step is a bijection on the three words: Unmix is its two-sided inverse. */
  lemma MixBijective(t: Abc)
    ensures Unmix(Mix(t)) == t && Mix(Unmix(t)) == t
  {
    hide MixA, MixB, MixC, UnmixA, UnmixB, UnmixC;
    var m1 := MixA(t, 4);
    var m2 := MixB(m1, 6);
    var m3 := MixC(m2, 8);
    var m4 := MixA(m3, 16);
    var m5 := MixB(m4, 19);
    StepsUndone(t, 4);
    StepsUndone(m1, 6);
    StepsUndone(m2, 8);
    StepsUndone(m3, 16);
    StepsUndone(m4, 19);
    StepsUndone(m5, 4);
    var u1 := UnmixC(t, 4);
    var u2 := UnmixB(u1, 19);
    var u3 := UnmixA(u2, 16);
    var u4 := UnmixC(u3, 8);
    var u5 := UnmixB(u4, 6);
    StepsUndone(u1, 19);
    StepsUndone(u2, 16);
    StepsUndone(u3, 8);
    StepsUndone(u4, 6);
    StepsUndone(u5, 4);
  }

  /** One line of final: x ^= y; x -= rot(y, k). */
  function Tail(x: word, y: word, k: nat): word
    requires 0 < k < 32
  {
    Sub(XorWord(x, y), Rot(y, k))
  }

  function Final(t: Abc): Abc {
    var c1 := Tail(t.c, t.b, 14);
    var a1 := Tail(t.a, c1, 11);
    var b1 := Tail(t.b, a1, 25);
    var c2 := Tail(c1, b1, 16);
    var a2 := Tail(a1, c2, 4);
    var b2 := Tail(b1, a2, 14);
    Abc(a2, b2, Tail(c2, b2, 24))
  }

  function Untail(x: word, y: word, k: nat): word
    requires 0 < k < 32
  {
    XorWord(Add(x, Rot(y, k)), y)
  }

  function Unfinal(t: Abc): Abc {
    var c2 := Untail(t.c, t.b, 24);
    var b1 := Untail(t.b, t.a, 14);
    var a1 := Untail(t.a, c2, 4);
    var c1 := Untail(c2, b1, 16);
    var b := Untail(b1, a1, 25);
    var a := Untail(a1, c1, 11);
    Abc(a, b, Untail(c1, b, 14))
  }

  lemma TailUndone(x: word, y: word, k: nat)
    requires 0 < k < 32
    ensures Untail(Tail(x, y, k), y, k) == x && Tail(Untail(x, y, k), y, k) == x
  {
    hide Rot, XorWord, Add, Sub;
    AddSub(XorWord(x, y), Rot(y, k));
    XorWordTwice(x, y);
    AddSub(x, Rot(y, k));
    XorWordTwice(Add(x, Rot(y, k)), y);
  }

  /** The final mixing is a bijection too. */
  lemma FinalBijective(t: Abc)
    ensures Unfinal(Final(t)) == t && Final(Unfinal(t)) == t
  {
    FinalUndone(t);
    UnfinalUndone(t);
  }

  lemma UnfinalUndone(t: Abc)
    ensures Final(Unfinal(t)) == t
  {
    hide Tail, Untail;
    var u := Unfinal(t);
    var c2 := Untail(t.c, t.b, 24);
    var b1 := Untail(t.b, t.a, 14);
    var a1 := Untail(t.a, c2, 4);
    var c1 := Untail(c2, b1, 16);
    TailUndone(c1, u.b, 14);
    TailUndone(a1, c1, 11);
    TailUndone(b1, a1, 25);
    TailUndone(c2, b1, 16);
    TailUndone(t.a, c2, 4);
    TailUndone(t.b, t.a, 14);
    TailUndone(t.c, t.b, 24);
  }

  lemma FinalUndone(t: Abc)
    ensures Unfinal(Final(t)) == t
  {
    hide Tail, Untail;
    var c1 := Tail(t.c, t.b, 14);
    var a1 := Tail(t.a, c1, 11);
    var b1 := Tail(t.b, a1, 25);
    var c2 := Tail(c1, b1, 16);
    var a2 := Tail(a1, c2, 4);
    var b2 := Tail(b1, a2, 14);
    TailUndone(c2, b2, 24);
    TailUndone(b1, a2, 14);
    TailUndone(a1, c2, 4);
    TailUndone(c1, b1, 16);
    TailUndone(t.b, a1, 25);
    TailUndone(t.a, c1, 11);
    TailUndone(t.c, t.b, 14);
  }

  // ---------------------------------------------------------------- words of the key

  /** A byte shifted up by 8, 16 or 24 bits. */
  function Up8(b: byte): word { 0x100 * b }

  function Up16(b: byte): word { 0x1_0000 * b }

  function Up24(b: byte): word { 0x100_0000 * b }

  /** Four bytes as a little-endian machine reads them. */
  function Word(b0: byte, b1: byte, b2: byte, b3: byte): word {
    b0 + Up8(b1) + Up16(b2) + Up24(b3)
  }

  function Half(b0: byte, b1: byte): word { b0 + Up8(b1) }

  /** A byte of the key, or zero past its end. */
  function At(key: seq<byte>, i: nat): byte {
    if i < |key| then key[i] else 0
  }

  function WordAt(key: seq<byte>, i: nat): word {
    Word(At(key, i), At(key, i + 1), At(key, i + 2), At(key, i + 3))
  }

  // ---------------------------------------------------------------- the reference

  function Start(length: nat): Abc {
    var x: word := (0xdeadbeef + length) % TWO32;
    Abc(x, x, x)
  }

  /** Add the first twelve bytes of the key, zeros for those it lacks. */
  function Absorb(t: Abc, key: seq<byte>): Abc {
    Abc(Add(t.a, WordAt(key, 0)), Add(t.b, WordAt(key, 4)), Add(t.c, WordAt(key, 8)))
  }

  function Rounds(t: Abc, key: seq<byte>): Abc
    decreases |key|
  {
    if |key| > 12 then Rounds(Mix(Absorb(t, key)), key[12..]) else Final(Absorb(t, key))
  }

  /** The hash of a key, whatever its address. */
  function Hash(key: seq<byte>): word {
    if key == [] then Start(0).c else Rounds(Start(|key|), key).c
  }

  // ---------------------------------------------------------------- laws of the readers

  lemma AddTwice(x: word, y: nat, z: nat)
    requires y < TWO32 && z < TWO32 && y + z < TWO32
    ensures Add(Add(x, y), z) == Add(x, y + z)
  {
  }

  lemma AddNothing(x: word)
    ensures Add(x, 0) == x
  {
  }

  /** Adding the bytes of a word one by one, low byte first, adds the word. */
  lemma AddBytesUp(x: word, b0: byte, b1: byte, b2: byte, b3: byte)
    ensures Add(Add(Add(Add(x, b0), Up8(b1)), Up16(b2)), Up24(b3)) == Add(x, Word(b0, b1, b2, b3))
  {
    hide Add;
    AddTwice(x, b0, Up8(b1));
    AddTwice(x, b0 + Up8(b1), Up16(b2));
    AddTwice(x, b0 + Up8(b1) + Up16(b2), Up24(b3));
  }

  /** So does adding them high byte first. */
  lemma AddBytesDown(x: word, b0: byte, b1: byte, b2: byte, b3: byte)
    ensures Add(Add(Add(Add(x, Up24(b3)), Up16(b2)), Up8(b1)), b0) == Add(x, Word(b0, b1, b2, b3))
  {
    hide Add;
    AddTwice(x, Up24(b3), Up16(b2));
    AddTwice(x, Up24(b3) + Up16(b2), Up8(b1));
    AddTwice(x, Up24(b3) + Up16(b2) + Up8(b1), b0);
  }

  /** Keeping the low bits of a word that was read past the end of the key keeps the key's bytes. */
  lemma MaskWord(b0: byte, b1: byte, b2: byte, b3: byte)
    ensures Word(b0, b1, b2, b3) % 0x100_0000 == Word(b0, b1, b2, 0)
    ensures Word(b0, b1, b2, b3) % 0x1_0000 == Word(b0, b1, 0, 0)
    ensures Word(b0, b1, b2, b3) % 0x100 == Word(b0, 0, 0, 0)
  {
  }

  // ---------------------------------------------------------------- reading 32 bits at a time

  /** An aligned word of memory; the last one may hold bytes past the end of the key. */
  function MemWord(mem: seq<byte>, i: nat): word
    requires i + 4 <= |mem|
  {
    Word(mem[i], mem[i + 1], mem[i + 2], mem[i + 3])
  }

  /** How much of a last block of n bytes is read: whole words. */
  function Covered(n: nat): nat { if n <= 4 then 4 else if n <= 8 then 8 else 12 }

  /** The last block, n bytes of it in the key. */
  function Last32(t: Abc, mem: seq<byte>, i: nat, n: nat): Abc
    requires 1 <= n <= 12 && i + Covered(n) <= |mem|
  {
    var a := Add(t.a, MemWord(mem, i));
    if n == 12 then Abc(a, Add(t.b, MemWord(mem, i + 4)), Add(t.c, MemWord(mem, i + 8)))
    else if n == 11 then Abc(a, Add(t.b, MemWord(mem, i + 4)), Add(t.c, MemWord(mem, i + 8) % 0x100_0000))
    else if n == 10 then Abc(a, Add(t.b, MemWord(mem, i + 4)), Add(t.c, MemWord(mem, i + 8) % 0x1_0000))
    else if n == 9 then Abc(a, Add(t.b, MemWord(mem, i + 4)), Add(t.c, MemWord(mem, i + 8) % 0x100))
    else if n == 8 then Abc(a, Add(t.b, MemWord(mem, i + 4)), t.c)
    else if n == 7 then Abc(a, Add(t.b, MemWord(mem, i + 4) % 0x100_0000), t.c)
    else if n == 6 then Abc(a, Add(t.b, MemWord(mem, i + 4) % 0x1_0000), t.c)
    else if n == 5 then Abc(a, Add(t.b, MemWord(mem, i + 4) % 0x100), t.c)
    else if n == 4 then Abc(a, t.b, t.c)
    else if n == 3 then Abc(Add(t.a, MemWord(mem, i) % 0x100_0000), t.b, t.c)
    else if n == 2 then Abc(Add(t.a, MemWord(mem, i) % 0x1_0000), t.b, t.c)
    else Abc(Add(t.a, MemWord(mem, i) % 0x100), t.b, t.c)
  }

  /** What a masked word of memory adds is the key's word. */
  lemma MaskedWord(mem: seq<byte>, i: nat, key: seq<byte>, j: nat)
    requires i + 4 <= |mem|
    requires Agree(mem, i, key, j) && Agree(mem, i + 1, key, j + 1)
    requires Agree(mem, i + 2, key, j + 2) && Agree(mem, i + 3, key, j + 3)
    ensures j + 4 <= |key| ==> MemWord(mem, i) == WordAt(key, j)
    ensures j + 3 == |key| ==> MemWord(mem, i) % 0x100_0000 == WordAt(key, j)
    ensures j + 2 == |key| ==> MemWord(mem, i) % 0x1_0000 == WordAt(key, j)
    ensures j + 1 == |key| ==> MemWord(mem, i) % 0x100 == WordAt(key, j)
  {
    hide Word;
    MaskWord(mem[i], mem[i + 1], mem[i + 2], mem[i + 3]);
  }

  /** Memory holds this byte of the key, if the key has it. */
  predicate Agree(mem: seq<byte>, i: nat, key: seq<byte>, j: nat) {
    i < |mem| && j < |key| ==> mem[i] == key[j]
  }

  lemma NoWord(key: seq<byte>, j: nat, x: word)
    requires j >= |key|
    ensures WordAt(key, j) == 0 && Add(x, WordAt(key, j)) == x
  {
    hide Add;
    AddNothing(x);
  }

  lemma Last32Absorbs(t: Abc, mem: seq<byte>, i: nat, n: nat)
    requires 1 <= n <= 12 && i + Covered(n) <= |mem|
    ensures Last32(t, mem, i, n) == Absorb(t, mem[i..i + n])
  {
    hide Add, MemWord, WordAt;
    var key := mem[i..i + n];
    MaskedWord(mem, i, key, 0);
    if n > 4 { MaskedWord(mem, i + 4, key, 4); } else { NoWord(key, 4, t.b); }
    if n > 8 { MaskedWord(mem, i + 8, key, 8); } else { NoWord(key, 8, t.c); }
  }

  /** The key stands at the front of memory that ends on a word boundary. */
  method Hash32(mem: seq<byte>, length: nat) returns (h: word)
    requires length <= |mem| && |mem| % 4 == 0
    ensures h == Hash(mem[..length])
  {
    hide Mix, Final, Last32, MemWord, Absorb, Add, Covered;
    ghost var key := mem[..length];
    var t := Start(length);
    var i := 0;
    assert key[0..] == key;
    while length - i > 12
      invariant 0 <= i && i % 4 == 0 && (length == 0 ==> i == 0 && t == Start(0)) && (length > 0 ==> i < length)
      invariant Rounds(Start(length), key) == Rounds(t, key[i..])
      decreases length - i
    {
      AbsorbBlock(t, mem, i, key[i..]);
      t := Abc(Add(t.a, MemWord(mem, i)), Add(t.b, MemWord(mem, i + 4)), Add(t.c, MemWord(mem, i + 8)));
      t := Mix(t);
      assert key[i..][12..] == key[i + 12..];
      i := i + 12;
    }
    var n := length - i;
    if n == 0 {
      return t.c;
    }
    CoveredFits(i, n, |mem|);
    Last32Absorbs(t, mem, i, n);
    assert mem[i..i + n] == key[i..];
    t := Final(Last32(t, mem, i, n));
    return t.c;
  }

  /** Aligned words that start in the key end in its memory. */
  lemma CoveredFits(i: nat, n: nat, size: nat)
    requires i % 4 == 0 && size % 4 == 0 && 1 <= n <= 12 && i + n <= size
    ensures i + Covered(n) <= size
  {
  }

  lemma AbsorbBlock(t: Abc, mem: seq<byte>, i: nat, key: seq<byte>)
    requires i + 12 <= |mem| && 12 <= |key| && key[..12] == mem[i..i + 12]
    ensures Absorb(t, key) == Abc(Add(t.a, MemWord(mem, i)), Add(t.b, MemWord(mem, i + 4)), Add(t.c, MemWord(mem,
      i + 8)))
  {
    hide Add;
    forall m | 0 <= m < 12
      ensures key[m] == mem[i + m]
    {
      assert key[..12][m] == mem[i..i + 12][m];
    }
  }

  // ---------------------------------------------------------------- reading 16 bits at a time

  /** Two 16-bit reads make a word. */
  function Pair(k: seq<byte>, i: nat): word
    requires i + 4 <= |k|
  {
    Half(k[i], k[i + 1]) + 0x1_0000 * Half(k[i + 2], k[i + 3])
  }

  /** The last block; a case that falls through continues with the additions of the case below. */
  function Last16(t: Abc, k: seq<byte>): Abc
    requires 1 <= |k| <= 12
  {
    var n := |k|;
    if n == 12 then Abc(Add(t.a, Pair(k, 0)), Add(t.b, Pair(k, 4)), Add(t.c, Pair(k, 8)))
    else if n == 11 then
      Abc(Add(t.a, Pair(k, 0)), Add(t.b, Pair(k, 4)), Add(Add(t.c, Up16(k[10])), Half(k[8], k[9])))
    else if n == 10 then Abc(Add(t.a, Pair(k, 0)), Add(t.b, Pair(k, 4)), Add(t.c, Half(k[8], k[9])))
    else if n == 9 then Abc(Add(t.a, Pair(k, 0)), Add(t.b, Pair(k, 4)), Add(t.c, k[8]))
    else if n == 8 then Abc(Add(t.a, Pair(k, 0)), Add(t.b, Pair(k, 4)), t.c)
    else if n == 7 then Abc(Add(t.a, Pair(k, 0)), Add(Add(t.b, Up16(k[6])), Half(k[4], k[5])), t.c)
    else if n == 6 then Abc(Add(t.a, Pair(k, 0)), Add(t.b, Half(k[4], k[5])), t.c)
    else if n == 5 then Abc(Add(t.a, Pair(k, 0)), Add(t.b, k[4]), t.c)
    else if n == 4 then Abc(Add(t.a, Pair(k, 0)), t.b, t.c)
    else if n == 3 then Abc(Add(Add(t.a, Up16(k[2])), Half(k[0], k[1])), t.b, t.c)
    else if n == 2 then Abc(Add(t.a, Half(k[0], k[1])), t.b, t.c)
    else Abc(Add(t.a, k[0]), t.b, t.c)
  }

  lemma PairWord(k: seq<byte>, j: nat, x: word)
    ensures j + 4 <= |k| ==> Pair(k, j) == WordAt(k, j)
    ensures j + 3 == |k| ==> Add(Add(x, Up16(k[j + 2])), Half(k[j], k[j + 1])) == Add(x, WordAt(k, j))
    ensures j + 2 == |k| ==> Half(k[j], k[j + 1]) == WordAt(k, j)
    ensures j + 1 == |k| ==> k[j] == WordAt(k, j)
  {
    hide Add;
    if j + 3 == |k| {
      AddTwice(x, Up16(k[j + 2]), Half(k[j], k[j + 1]));
    }
  }

  lemma Last16Absorbs(t: Abc, k: seq<byte>)
    requires 1 <= |k| <= 12
    ensures Last16(t, k) == Absorb(t, k)
  {
    hide Add, Pair, WordAt, Half;
    PairWord(k, 0, t.a);
    if |k| > 4 { PairWord(k, 4, t.b); } else { NoWord(k, 4, t.b); }
    if |k| > 8 { PairWord(k, 8, t.c); } else { NoWord(k, 8, t.c); }
  }

  method Hash16(key: seq<byte>) returns (h: word)
    ensures h == Hash(key)
  {
    hide Mix, Final, Last16, Pair, Absorb, Add;
    var t, k := Start(|key|), key;
    while |k| > 12
      invariant (key == [] ==> k == key && t == Start(0)) && (key != [] ==> k != [])
      invariant Rounds(Start(|key|), key) == Rounds(t, k)
    {
      AbsorbPairs(t, k);
      t := Abc(Add(t.a, Pair(k, 0)), Add(t.b, Pair(k, 4)), Add(t.c, Pair(k, 8)));
      t := Mix(t);
      k := k[12..];
    }
    if k == [] {
      return t.c;
    }
    Last16Absorbs(t, k);
    t := Final(Last16(t, k));
    return t.c;
  }

  lemma AbsorbPairs(t: Abc, k: seq<byte>)
    requires |k| >= 12
    ensures Absorb(t, k) == Abc(Add(t.a, Pair(k, 0)), Add(t.b, Pair(k, 4)), Add(t.c, Pair(k, 8)))
  {
    hide Add, Pair, WordAt;
    PairWord(k, 0, t.a);
    PairWord(k, 4, t.b);
    PairWord(k, 8, t.c);
  }

  // ---------------------------------------------------------------- reading one byte at a time

  function AddUp(x: word, k: seq<byte>, i: nat): word
    requires i + 4 <= |k|
  {
    Add(Add(Add(Add(x, k[i]), Up8(k[i + 1])), Up16(k[i + 2])), Up24(k[i + 3]))
  }

  /** The last block: from the case of its length every addition below is made in turn. */
  function AddDown(x: word, k: seq<byte>, i: nat): word
    requires i < |k|
  {
    var x3 := if i + 3 < |k| then Add(x, Up24(k[i + 3])) else x;
    var x2 := if i + 2 < |k| then Add(x3, Up16(k[i + 2])) else x3;
    var x1 := if i + 1 < |k| then Add(x2, Up8(k[i + 1])) else x2;
    Add(x1, k[i])
  }

  lemma AddUpWord(x: word, k: seq<byte>, i: nat)
    requires i + 4 <= |k|
    ensures AddUp(x, k, i) == Add(x, WordAt(k, i))
  {
    hide Add;
    AddBytesUp(x, k[i], k[i + 1], k[i + 2], k[i + 3]);
  }

  lemma AddDownWord(x: word, k: seq<byte>, i: nat)
    requires i < |k|
    ensures AddDown(x, k, i) == Add(x, WordAt(k, i))
  {
    hide Add;
    AddBytesDown(x, At(k, i), At(k, i + 1), At(k, i + 2), At(k, i + 3));
    AddNothing(x);
  }

  method Hash8(key: seq<byte>) returns (h: word)
    ensures h == Hash(key)
  {
    hide Mix, Final, AddUp, AddDown, Absorb, Add, WordAt;
    var t, k := Start(|key|), key;
    while |k| > 12
      invariant (key == [] ==> k == key && t == Start(0)) && (key != [] ==> k != [])
      invariant Rounds(Start(|key|), key) == Rounds(t, k)
    {
      AbsorbUp(t, k);
      t := Mix(Abc(AddUp(t.a, k, 0), AddUp(t.b, k, 4), AddUp(t.c, k, 8)));
      k := k[12..];
    }
    if k == [] {
      return t.c;
    }
    AbsorbDown(t, k);
    var c := if |k| > 8 then AddDown(t.c, k, 8) else t.c;
    var b := if |k| > 4 then AddDown(t.b, k, 4) else t.b;
    t := Final(Abc(AddDown(t.a, k, 0), b, c));
    return t.c;
  }

  lemma AbsorbUp(t: Abc, k: seq<byte>)
    requires |k| >= 12
    ensures Absorb(t, k) == Abc(AddUp(t.a, k, 0), AddUp(t.b, k, 4), AddUp(t.c, k, 8))
  {
    hide Add, AddUp, WordAt;
    AddUpWord(t.a, k, 0);
    AddUpWord(t.b, k, 4);
    AddUpWord(t.c, k, 8);
  }

  lemma AbsorbDown(t: Abc, k: seq<byte>)
    requires 1 <= |k| <= 12
    ensures Absorb(t, k) == Abc(AddDown(t.a, k, 0), if |k| > 4 then AddDown(t.b, k, 4) else t.b,
                                if |k| > 8 then AddDown(t.c, k, 8) else t.c)
  {
    hide Add, AddDown, WordAt;
    AddDownWord(t.a, k, 0);
    if |k| > 4 { AddDownWord(t.b, k, 4); } else { NoWord(k, 4, t.b); }
    if |k| > 8 { AddDownWord(t.c, k, 8); } else { NoWord(k, 8, t.c); }
  }

  /** The address of the key decides which reader runs, and not what it computes. */
  method JenkinsHash(mem: seq<byte>, length: nat, address: nat) returns (h: word)
    requires length <= |mem| && (address % 4 == 0 ==> |mem| % 4 == 0)
    ensures h == Hash(mem[..length])
  {
    if address % 4 == 0 {
      h := Hash32(mem, length);
    } else if address % 2 == 0 {
      h := Hash16(mem[..length]);
    } else {
      h := Hash8(mem[..length]);
    }
  }
}
