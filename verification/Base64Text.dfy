/** The text of an encoding: the alphabet of RFC 1341, and each block as a number written in radix 64. */
module Base64Text {
  import opened Octets
  import opened Arith
  import opened Base64

  const UPPER := "ABCDEFGHIJKLMNOPQRSTUVWXYZ"
  const LOWER := "abcdefghijklmnopqrstuvwxyz"
  const DIGITS := "0123456789+/"
  const ALPHABET := UPPER + LOWER + DIGITS

  lemma Parts()
    ensures |UPPER| == 26 && |LOWER| == 26 && |DIGITS| == 12
    ensures forall i :: 0 <= i < 26 ==> UPPER[i] as nat == 65 + i && LOWER[i] as nat == 97 + i
    ensures forall i :: 0 <= i < 10 ==> DIGITS[i] as nat == 48 + i
    ensures DIGITS[10] == '+' && DIGITS[11] == '/'
  {
  }

  lemma LetterIs(v: sextet)
    ensures |ALPHABET| == 64 && Letter(v) == ALPHABET[v] as nat
  {
    Parts();
  }

  /** The character that stands for the last six bits of a number. */
  ghost function Char(n: nat): byte {
    Parts();
    LetterIs(n % 64);
    ALPHABET[n % 64] as nat
  }

  /** A byte stands for six bits exactly when it is the character of the alphabet at that place; the
      padding character counts as zero, and every other byte is passed over. */
  lemma ValueIs(c: byte)
    ensures |ALPHABET| == 64
    ensures ValueOf(c) < 64 && c != '=' as nat ==> ALPHABET[ValueOf(c)] as nat == c
    ensures ValueOf(c) == INVALID <==> c as char !in ALPHABET && c != '=' as nat
    ensures ValueOf('=' as nat) == 0
  {
    if ValueOf(c) < 64 {
      LetterIs(ValueOf(c));
      assert c != PAD ==> c as char == ALPHABET[ValueOf(c)];
    } else {
      forall v | 0 <= v < 64
        ensures |ALPHABET| == 64 && ALPHABET[v] != c as char
      {
        LetterIs(v);
      }
    }
  }

  /** Three bytes as a number of 24 bits, written with four characters. */
  ghost function Number(a: byte, b: byte, c: byte): nat {
    var high: nat, low: nat := 0x1_0000 * a, 0x100 * b + c;
    high + low
  }

  ghost function Spelled(n: nat): (r: seq<byte>)
    ensures |r| == 4
  {
    [Char(n / 0x4_0000), Char(n / 0x1000), Char(n / 64), Char(n)]
  }

  lemma Digits(a: byte, b: byte, c: byte)
    ensures var n := Number(a, b, c);
      && First(a) == n / 0x4_0000 % 64 && Second(a, b) == n / 0x1000 % 64
      && Third(b, c) == n / 64 % 64 && Fourth(c) == n % 64
  {
    var n := Number(a, b, c);
    DivModUnique(0x4_0000, a / 4, n - 0x4_0000 * (a / 4));
    DivModUnique(0x1000, 16 * a + b / 16, n - 0x1000 * (16 * a + b / 16));
    DivModUnique(64, a / 4, Second(a, b));
    DivModUnique(64, 1024 * a + 4 * b + c / 64, c % 64);
    DivModUnique(64, 16 * a + b / 16, Third(b, c));
  }

  lemma BlockSpells(a: byte, b: byte, c: byte)
    ensures Block(a, b, c) == Spelled(Number(a, b, c))
  {
    hide Letter, First, Second, Third, Fourth, Number;
    Digits(a, b, c);
    LetterIs(First(a));
    LetterIs(Second(a, b));
    LetterIs(Third(b, c));
    LetterIs(Fourth(c));
  }

  lemma {:induction false} EncodeLength(s: seq<byte>)
    ensures |Encode(s)| == (|s| + 2) / 3 * 4
  {
    if |s| >= 3 {
      EncodeLength(s[3..]);
    }
  }

  /** The encoding spells every three bytes with four characters. */
  lemma {:induction false} EncodeSpells(s: seq<byte>, k: nat)
    requires 3 * k + 3 <= |s|
    ensures |Encode(s)| == (|s| + 2) / 3 * 4
    ensures Encode(s)[4 * k..4 * k + 4] == Spelled(Number(s[3 * k], s[3 * k + 1], s[3 * k + 2]))
  {
    hide Spelled, Number, Block;
    BlockSpells(s[0], s[1], s[2]);
    EncodeLength(s);
    EncodeLength(s[3..]);
    if k > 0 {
      var t, j := s[3..], k - 1;
      EncodeSpells(t, j);
      assert Encode(s)[4 * k..4 * k + 4] == Encode(t)[4 * j..4 * j + 4];
      assert t[3 * j] == s[3 * k] && t[3 * j + 1] == s[3 * k + 1] && t[3 * j + 2] == s[3 * k + 2];
    }
  }

  /** What is left over is filled up with zero bits and spelled with two or three characters, then padded. */
  ghost function Ending(s: seq<byte>): seq<byte> {
    if |s| % 3 == 0 then []
    else if |s| % 3 == 1 then Spelled(Number(s[|s| - 1], 0, 0))[..2] + ['=' as nat, '=' as nat]
    else Spelled(Number(s[|s| - 2], s[|s| - 1], 0))[..3] + ['=' as nat]
  }

  lemma EndingRest(s: seq<byte>)
    requires |s| >= 3
    ensures Ending(s[3..]) == Ending(s) && |s[3..]| / 3 + 1 == |s| / 3
  {
    hide Spelled, Number;
  }

  lemma EncodeShort(s: seq<byte>)
    ensures |s| == 0 ==> Encode(s) == []
    ensures |s| == 1 ==> Encode(s) == [Letter(First(s[0])), Letter(Second(s[0], 0))] + ['=' as nat, '=' as nat]
    ensures |s| == 2 ==>
      Encode(s) == [Letter(First(s[0])), Letter(Second(s[0], s[1])), Letter(Third(s[1], 0))] + ['=' as nat]
  {
    hide Letter, First, Second, Third;
  }

  lemma EndingShort(s: seq<byte>)
    ensures |s| == 0 ==> Ending(s) == []
    ensures |s| == 1 ==> Ending(s) == Spelled(Number(s[0], 0, 0))[..2] + ['=' as nat, '=' as nat]
    ensures |s| == 2 ==> Ending(s) == Spelled(Number(s[0], s[1], 0))[..3] + ['=' as nat]
  {
    hide Spelled, Number;
  }

  lemma ShortEnds(s: seq<byte>)
    requires |s| < 3
    ensures Encode(s) == Ending(s)
  {
    hide Spelled, Number, Letter, First, Second, Third, Encode, Ending;
    EncodeShort(s);
    EndingShort(s);
    if |s| == 2 {
      Shorter(s[0], s[1]);
    } else if |s| == 1 {
      Shorter(s[0], 0);
    }
  }

  lemma {:induction false} EncodeEnds(s: seq<byte>)
    ensures |Encode(s)| == (|s| + 2) / 3 * 4 && Encode(s)[|s| / 3 * 4..] == Ending(s)
  {
    hide Ending, Block;
    EncodeLength(s);
    if |s| < 3 {
      ShortEnds(s);
    } else {
      var t := s[3..];
      EncodeEnds(t);
      EndingRest(s);
      assert Encode(s)[|s| / 3 * 4..] == Encode(t)[|t| / 3 * 4..] by { BlockSpells(s[0], s[1], s[2]); }
    }
  }

  lemma Shorter(a: byte, b: byte)
    ensures Spelled(Number(a, b, 0))[..3] == [Letter(First(a)), Letter(Second(a, b)), Letter(Third(b, 0))]
    ensures Spelled(Number(a, b, 0))[..2] == [Letter(First(a)), Letter(Second(a, b))]
  {
    hide Spelled, Number, Letter, First, Second, Third, Fourth;
    BlockSpells(a, b, 0);
  }

  lemma {:induction false} SiftAppend(s: seq<byte>, t: seq<byte>)
    ensures Sift(s + t) == Sift(s) + Sift(t)
  {
    hide SymOf;
    if s == [] {
      assert s + t == t && Sift(s) + Sift(t) == Sift(t);
    } else {
      SiftAppend(s[1..], t);
      SiftFirst(s);
      SiftFirst(s + t);
      assert (s + t)[1..] == s[1..] + t && (s + t)[..1] == s[..1];
      hide Sift;
      assert Sift(s[..1]) + Sift(s[1..]) + Sift(t) == Sift(s[..1]) + (Sift(s[1..]) + Sift(t));
    }
  }

  lemma SiftFirst(s: seq<byte>)
    requires s != []
    ensures Sift(s) == Sift(s[..1]) + Sift(s[1..])
  {
    hide SymOf;
    var one := s[..1];
    assert one[1..] == [] && one[0] == s[0];
  }

  /** Decoding passes over every byte that is neither in the alphabet nor the padding character. */
  lemma DecodeSkips(s: seq<byte>, c: byte, t: seq<byte>)
    requires c as char !in ALPHABET && c != '=' as nat
    ensures Decode(s + [c] + t) == Decode(s + t)
  {
    hide Quads, ValueOf;
    ValueIs(c);
    SiftAppend(s + [c], t);
    SiftAppend(s, [c]);
    SiftAppend(s, t);
    assert Sift([c]) == [] + Sift([c][1..]) && Sift([c][1..]) == [];
    assert Sift(s) + [] + Sift(t) == Sift(s) + Sift(t);
  }
}
