/** The Base64 coder of base64.c: section 5.2 of RFC 1341 without line splitting. */
module Base64 {
  import opened Octets
  import opened Sums
  import opened Arith

  type sextet = x: nat | x < 64

  const INVALID := 128
  const PAD: byte := 61

  // ---------------------------------------------------------------- the alphabet

  /** The character of a six-bit value: A-Z, a-z, 0-9, plus, slash. */
  function Letter(v: sextet): byte {
    if v < 26 then 65 + v
    else if v < 52 then 97 + (v - 26)
    else if v < 62 then 48 + (v - 52)
    else if v == 62 then 43
    else 47
  }

  /** The value of a character; the padding character counts as zero. */
  function ValueOf(c: byte): (v: nat)
    ensures v < 64 || v == INVALID
  {
    if 65 <= c <= 90 then c - 65
    else if 97 <= c <= 122 then c - 97 + 26
    else if 48 <= c <= 57 then c - 48 + 52
    else if c == 43 then 62
    else if c == 47 then 63
    else if c == PAD then 0
    else INVALID
  }

  /** A character that counts: its value, and whether it is padding. */
  datatype Sym = Sym(value: sextet, pad: bool)

  function SymOf(c: byte): (y: Option<Sym>)
    ensures y.None? <==> ValueOf(c) == INVALID
  {
    if ValueOf(c) == INVALID then None else Some(Sym(ValueOf(c), c == PAD))
  }

  lemma LetterSym(v: sextet)
    ensures SymOf(Letter(v)) == Some(Sym(v, false)) && SymOf(PAD) == Some(Sym(0, true))
  {
  }

  // ---------------------------------------------------------------- blocks

  function First(a: byte): sextet { a / 4 }

  function Second(a: byte, b: byte): sextet { (a % 4) * 16 + b / 16 }

  function Third(b: byte, c: byte): sextet { (b % 16) * 4 + c / 64 }

  function Fourth(c: byte): sextet { c % 64 }

  /** The three bytes four values make; each is cut to eight bits. */
  function Byte1(w: sextet, x: sextet): byte { w * 4 + x / 16 }

  function Byte2(x: sextet, y: sextet): byte { (x * 16) % 256 + y / 4 }

  function Byte3(y: sextet, z: sextet): byte { (y * 64) % 256 + z }

  lemma BlockBack(a: byte, b: byte, c: byte)
    ensures Byte1(First(a), Second(a, b)) == a
    ensures Byte2(Second(a, b), Third(b, c)) == b
    ensures Byte3(Third(b, c), Fourth(c)) == c
  {
    BackFirst(a, b);
    BackSecond(a, b, c);
    BackThird(b, c);
  }

  lemma BackFirst(a: byte, b: byte)
    ensures Byte1(First(a), Second(a, b)) == a
  {
  }

  lemma BackSecond(a: byte, b: byte, c: byte)
    ensures Byte2(Second(a, b), Third(b, c)) == b
  {
    var hi, lo, top := b / 16, b % 16, c / 64;
    DivModUnique(4, lo, top);
    DivModUnique(256, a % 4, 16 * hi);
    assert Second(a, b) * 16 == 256 * (a % 4) + 16 * hi;
  }

  lemma BackThird(b: byte, c: byte)
    ensures Byte3(Third(b, c), Fourth(c)) == c
  {
    var top := c / 64;
    DivModUnique(256, b % 16, 64 * top);
    assert Third(b, c) * 64 == 256 * (b % 16) + 64 * top;
  }

  // ---------------------------------------------------------------- the two maps

  function Encode(s: seq<byte>): seq<byte> {
    if |s| == 0 then []
    else if |s| == 1 then [Letter(First(s[0])), Letter(Second(s[0], 0)), PAD, PAD]
    else if |s| == 2 then [Letter(First(s[0])), Letter(Second(s[0], s[1])), Letter(Third(s[1], 0)), PAD]
    else Block(s[0], s[1], s[2]) + Encode(s[3..])
  }

  function Block(a: byte, b: byte, c: byte): seq<byte> {
    [Letter(First(a)), Letter(Second(a, b)), Letter(Third(b, c)), Letter(Fourth(c))]
  }

  /** The characters that count. */
  function Sift(s: seq<byte>): (r: seq<Sym>)
    ensures |r| <= |s|
  {
    if s == [] then [] else (if SymOf(s[0]).Some? then [SymOf(s[0]).value] else []) + Sift(s[1..])
  }

  function Pad(y: Sym): nat { if y.pad then 1 else 0 }

  function Pads(w: Sym, x: Sym, y: Sym, z: Sym): nat { Pad(w) + Pad(x) + Pad(y) + Pad(z) }

  function Three(w: Sym, x: Sym, y: Sym, z: Sym): (r: seq<byte>)
    ensures |r| == 3
  {
    [Byte1(w.value, x.value), Byte2(x.value, y.value), Byte3(y.value, z.value)]
  }

  /** Decode four symbols at a time up to the first padded block; None for more than two pads. */
  function Quads(v: seq<Sym>): Option<seq<byte>> {
    if |v| < 4 then Some([])
    else
      var pad, out := Pads(v[0], v[1], v[2], v[3]), Three(v[0], v[1], v[2], v[3]);
      if pad == 0 then
        var rest := Quads(v[4..]);
        if rest.None? then None else Some(out + rest.value)
      else if pad <= 2 then Some(out[..3 - pad])
      else None
  }

  /** Decoding: None where the code returns 0. */
  function Decode(s: seq<byte>): Option<seq<byte>> {
    var v := Sift(s);
    if |v| == 0 || |v| % 4 != 0 then None else Quads(v)
  }

  // ---------------------------------------------------------------- round trip

  /** The symbols of an encoded input. */
  function Syms(s: seq<byte>): seq<Sym> {
    if |s| == 0 then []
    else if |s| == 1 then [Sym(First(s[0]), false), Sym(Second(s[0], 0), false), Sym(0, true), Sym(0, true)]
    else if |s| == 2 then
      [Sym(First(s[0]), false), Sym(Second(s[0], s[1]), false), Sym(Third(s[1], 0), false), Sym(0, true)]
    else
      [Sym(First(s[0]), false), Sym(Second(s[0], s[1]), false), Sym(Third(s[1], s[2]), false), Sym(Fourth(s[2]), false)]
      + Syms(s[3..])
  }

  lemma SiftOne(c: byte, rest: seq<byte>)
    requires SymOf(c).Some?
    ensures Sift([c] + rest) == [SymOf(c).value] + Sift(rest)
  {
    assert ([c] + rest)[1..] == rest;
  }

  lemma SiftFour(w: byte, x: byte, y: byte, z: byte, rest: seq<byte>)
    requires SymOf(w).Some? && SymOf(x).Some? && SymOf(y).Some? && SymOf(z).Some?
    ensures Sift([w, x, y, z] + rest)
      == [SymOf(w).value, SymOf(x).value, SymOf(y).value, SymOf(z).value] + Sift(rest)
  {
    hide SymOf, Sift;
    assert [w, x, y, z] + rest == [w] + ([x] + ([y] + ([z] + rest)));
    SiftOne(w, [x] + ([y] + ([z] + rest)));
    SiftOne(x, [y] + ([z] + rest));
    SiftOne(y, [z] + rest);
    SiftOne(z, rest);
  }

  /** Every character of an encoding counts, four for each block begun. */
  lemma {:induction false} SiftEncode(s: seq<byte>)
    ensures Sift(Encode(s)) == Syms(s) && |Syms(s)| % 4 == 0 && (s != [] ==> Syms(s) != [])
  {
    hide SymOf, Letter, First, Second, Third, Fourth;
    if |s| == 1 {
      LetterSym(First(s[0]));
      LetterSym(Second(s[0], 0));
      SiftFour(Letter(First(s[0])), Letter(Second(s[0], 0)), PAD, PAD, []);
      assert Encode(s) + [] == Encode(s);
    } else if |s| == 2 {
      LetterSym(First(s[0]));
      LetterSym(Second(s[0], s[1]));
      LetterSym(Third(s[1], 0));
      SiftFour(Letter(First(s[0])), Letter(Second(s[0], s[1])), Letter(Third(s[1], 0)), PAD, []);
      assert Encode(s) + [] == Encode(s);
    } else if |s| >= 3 {
      LetterSym(First(s[0]));
      LetterSym(Second(s[0], s[1]));
      LetterSym(Third(s[1], s[2]));
      LetterSym(Fourth(s[2]));
      SiftFour(Letter(First(s[0])), Letter(Second(s[0], s[1])), Letter(Third(s[1], s[2])), Letter(Fourth(s[2])),
        Encode(s[3..]));
      SiftEncode(s[3..]);
    }
  }

  lemma QuadsOne(w: Sym, x: Sym, y: Sym, z: Sym, rest: seq<Sym>)
    ensures Quads([w, x, y, z] + rest) ==
      (if Pads(w, x, y, z) == 0 then
         (if Quads(rest).None? then None else Some(Three(w, x, y, z) + Quads(rest).value))
       else if Pads(w, x, y, z) <= 2 then Some(Three(w, x, y, z)[..3 - Pads(w, x, y, z)])
       else None)
  {
    assert ([w, x, y, z] + rest)[4..] == rest;
  }

  lemma {:induction false} QuadsBack(s: seq<byte>)
    ensures Quads(Syms(s)) == Some(s)
  {
    hide First, Second, Third, Fourth, Byte1, Byte2, Byte3, Quads;
    if |s| == 0 {
      QuadsNone();
    } else if |s| == 1 {
      BackFirst(s[0], 0);
      QuadsOne(Sym(First(s[0]), false), Sym(Second(s[0], 0), false), Sym(0, true), Sym(0, true), []);
      assert Three(Syms(s)[0], Syms(s)[1], Syms(s)[2], Syms(s)[3])[..1] == [s[0]];
      assert Syms(s) + [] == Syms(s) && s == [s[0]];
    } else if |s| == 2 {
      BackFirst(s[0], s[1]);
      BackSecond(s[0], s[1], 0);
      QuadsOne(Sym(First(s[0]), false), Sym(Second(s[0], s[1]), false), Sym(Third(s[1], 0), false), Sym(0, true), []);
      assert Three(Syms(s)[0], Syms(s)[1], Syms(s)[2], Syms(s)[3])[..2] == [s[0], s[1]];
      assert Syms(s) + [] == Syms(s) && s == [s[0], s[1]];
    } else {
      BlockBack(s[0], s[1], s[2]);
      QuadsBack(s[3..]);
      QuadsOne(Sym(First(s[0]), false), Sym(Second(s[0], s[1]), false), Sym(Third(s[1], s[2]), false),
               Sym(Fourth(s[2]), false), Syms(s[3..]));
      assert s == [s[0], s[1], s[2]] + s[3..];
    }
  }

  lemma QuadsNone()
    ensures Quads([]) == Some([])
  {
  }

  /** Decoding what was encoded gives back every non-empty input. */
  lemma RoundTrip(s: seq<byte>)
    requires s != []
    ensures Decode(Encode(s)) == Some(s)
  {
    hide Sift, Encode, Quads, Syms;
    SiftEncode(s);
    QuadsBack(s);
  }

  // ---------------------------------------------------------------- encoding into a buffer

  const SIZES := 0x1_0000_0000_0000_0000

  /** Arithmetic on size_t. */
  function Wrapped(x: nat): nat { x % SIZES }

  /** The space the encoder asks for, as it computes it: a line feed for every 72 characters and a NUL
      included. */
  function Room(len: nat): nat {
    var n := Wrapped(Wrapped(len * 4) / 3 + 4);
    Wrapped(Wrapped(n + n / 72) + 1)
  }

  /** Four thirds of a length, given four times the length, with line feeds and a NUL. */
  function Spaced(x: nat): nat {
    var n := x / 3 + 4;
    n + n / 72 + 1
  }

  /** The space without bounds on integers. */
  function Wanted(len: nat): nat { Spaced(len * 4) }

  lemma SpacedBounds(x: nat)
    ensures x / 3 + 5 <= Spaced(x) && 216 * Spaced(x) <= 73 * x + 1092
  {
    var n := x / 3 + 4;
    assert 3 * (x / 3) <= x && 72 * (n / 72) <= n;
  }

  /** Only the multiplication can wrap round. */
  lemma RoomIs(len: nat)
    ensures Room(len) == Spaced(Wrapped(len * 4))
  {
    hide Wrapped;
    var x := Wrapped(len * 4);
    SpacedBounds(x);
    var n := x / 3 + 4;
    assert x < SIZES by { Below(len * 4); }
    Fits(n);
    Fits(n + n / 72);
    Fits(n + n / 72 + 1);
  }

  lemma Below(x: nat)
    ensures Wrapped(x) < SIZES
  {
  }

  lemma Fits(x: nat)
    ensures x < SIZES ==> Wrapped(x) == x
  {
  }

  /** The test for a result below the length refuses every length whose computation wraps round, and
      no other. */
  lemma RoomGuard(len: nat)
    requires len < SIZES
    ensures Room(len) < len <==> len * 4 >= SIZES
    ensures len * 4 < SIZES ==> Room(len) == Wanted(len)
  {
    hide Room, Spaced, Wrapped;
    RoomIs(len);
    Fits(len * 4);
    SpacedBounds(Wrapped(len * 4));
    if len * 4 >= SIZES {
      WrapsFar(len);
    }
  }

  lemma WrapsFar(len: nat)
    requires SIZES <= len * 4 < 4 * SIZES
    ensures 73 * Wrapped(len * 4) + 1092 < 216 * len
  {
    var k := len * 4 / SIZES;
    assert 1 <= k < 4 && Wrapped(len * 4) == len * 4 - k * SIZES;
  }

  lemma {:induction false} EncodeLength(s: seq<byte>)
    ensures |Encode(s)| == (|s| + 2) / 3 * 4
  {
    hide Letter;
    if |s| >= 3 {
      EncodeLength(s[3..]);
    }
  }

  /** What the encoder writes, its NUL included, fits in the space it checked. */
  lemma EncodeFits(s: seq<byte>)
    ensures |Encode(s)| + 1 <= Wanted(|s|)
  {
    hide Encode;
    EncodeLength(s);
  }

  method Put(out: array<byte>, pos: nat, bytes: seq<byte>)
    requires pos + |bytes| <= out.Length
    modifies out
    ensures out[..pos + |bytes|] == old(out[..pos]) + bytes
    ensures out[pos + |bytes|..] == old(out[pos + |bytes|..])
  {
    forall i | 0 <= i < |bytes| {
      out[pos + i] := bytes[i];
    }
  }

  /** The padded block of the one or two bytes left over. */
  method LastBlock(src: array<byte>, i: nat, len: nat) returns (last: seq<byte>)
    requires i <= len <= src.Length && len - i < 3
    ensures last == Encode(src[i..len])
  {
    hide Encode, Letter, First, Second, Third;
    EncodeShort(src[i..len]);
    if len - i == 1 {
      last := [Letter(First(src[i])), Letter(Second(src[i], 0)), PAD, PAD];
    } else if len - i == 2 {
      last := [Letter(First(src[i])), Letter(Second(src[i], src[i + 1])), Letter(Third(src[i + 1], 0)), PAD];
    } else {
      last := [];
    }
  }

  /** Encode into a buffer, or return 0 when the space needed cannot be computed or is not there. */
  method EncodeInto(src: array<byte>, len: nat, out: array<byte>, outLen: nat) returns (n: nat)
    requires len <= src.Length && outLen <= out.Length && len < SIZES && src != out
    modifies out
    ensures len * 4 >= SIZES || Wanted(len) > outLen ==> n == 0 && out[..] == old(out[..])
    ensures len * 4 < SIZES && Wanted(len) <= outLen ==>
      && n == |Encode(src[..len])| && n < Wanted(len)
      && out[..n] == Encode(src[..len]) && out[n] == 0 && out[n + 1..] == old(out[n + 1..])
  {
    hide Encode, Letter, First, Second, Third, Fourth, Room, Wanted;
    RoomGuard(len);
    var olen := Room(len);
    if olen < len {
      return 0;
    }
    if olen > outLen {
      return 0;
    }
    ghost var s, all := src[..len], Encode(src[..len]);
    EncodeFits(s);
    var i, pos := 0, 0;
    assert s[0..] == s && out[..0] == [];
    while len - i >= 3
      invariant 0 <= i <= len && pos <= |all|
      invariant out[..pos] + Encode(s[i..]) == all
      invariant out[|all|..] == old(out[|all|..])
    {
      EncodeMore(s[i..]);
      assert s[i..][3..] == s[i + 3..];
      ghost var was := out[..pos];
      var block := Block(src[i], src[i + 1], src[i + 2]);
      Put(out, pos, block);
      Reassociate(was, block, Encode(s[i + 3..]), all);
      i, pos := i + 3, pos + 4;
    }
    assert src[i..len] == s[i..];
    var last := LastBlock(src, i, len);
    ghost var was := out[..];
    Put(out, pos, last + [0]);
    pos := pos + |last|;
    assert out[..pos + 1][..pos] == out[..pos];
    assert out[pos + 1..] == was[pos + 1..] == was[|all|..][1..] == old(out[pos + 1..]);
    return pos;
  }

  lemma EncodeMore(s: seq<byte>)
    requires |s| >= 3
    ensures Encode(s) == Block(s[0], s[1], s[2]) + Encode(s[3..]) && |Block(s[0], s[1], s[2])| == 4
  {
  }

  lemma EncodeShort(s: seq<byte>)
    requires |s| < 3
    ensures |s| == 0 ==> Encode(s) == []
    ensures |s| == 1 ==> Encode(s) == [Letter(First(s[0])), Letter(Second(s[0], 0)), PAD, PAD]
    ensures |s| == 2 ==> Encode(s) == [Letter(First(s[0])), Letter(Second(s[0], s[1])), Letter(Third(s[1], 0)), PAD]
  {
  }

  lemma Reassociate(a: seq<byte>, b: seq<byte>, c: seq<byte>, all: seq<byte>)
    requires a + (b + c) == all
    ensures (a + b) + c == all && |a| + |b| <= |all|
  {
    assert (a + b) + c == a + (b + c);
  }

  // ---------------------------------------------------------------- decoding, also in place

  lemma {:induction false} SiftSnoc(s: seq<byte>, i: nat)
    requires i < |s|
    ensures Sift(s[..i + 1]) == Sift(s[..i]) + (if SymOf(s[i]).Some? then [SymOf(s[i]).value] else [])
  {
    hide SymOf;
    if i == 0 {
      assert s[..1] == [s[0]] && s[..1][1..] == [] && s[..0] == [];
    } else {
      SiftSnoc(s[1..], i - 1);
      assert s[..i + 1][1..] == s[1..][..i] && s[..i][1..] == s[1..][..i - 1];
      assert s[1..][i - 1] == s[i];
    }
  }

  lemma SiftNext(s: seq<byte>, i: nat)
    requires i < |s|
    ensures Sift(s[i..]) == (if SymOf(s[i]).Some? then [SymOf(s[i]).value] else []) + Sift(s[i + 1..])
  {
    assert s[i..][1..] == s[i + 1..];
  }

  method CountSyms(src: array<byte>, len: nat) returns (count: nat)
    requires len <= src.Length
    ensures count == |Sift(src[..len])|
  {
    hide Sift, SymOf;
    ghost var s := src[..len];
    count := 0;
    assert s[..0] == [];
    SiftNone();
    for i := 0 to len
      invariant count == |Sift(s[..i])|
    {
      SiftSnoc(s, i);
      if ValueOf(src[i]) != INVALID {
        count := count + 1;
      }
    }
    assert s[..len] == s;
  }

  lemma SiftNone()
    ensures Sift([]) == []
  {
  }

  /** What is still to come of the result, when `done` is already written. */
  ghost predicate Continues(all: Option<seq<byte>>, done: seq<byte>, rest: Option<seq<byte>>) {
    all == if rest.None? then None else Some(done + rest.value)
  }

  lemma ContinueOver(all: Option<seq<byte>>, done: seq<byte>, w: Sym, x: Sym, y: Sym, z: Sym, rest: seq<Sym>)
    requires Continues(all, done, Quads([w, x, y, z] + rest))
    ensures Pads(w, x, y, z) == 0 ==> Continues(all, done + Three(w, x, y, z), Quads(rest))
    ensures 1 <= Pads(w, x, y, z) <= 2 ==> all == Some((done + Three(w, x, y, z))[..|done| + 3 - Pads(w, x, y, z)])
    ensures Pads(w, x, y, z) > 2 ==> all == None
  {
    hide Quads, Three;
    QuadsOne(w, x, y, z, rest);
    var out, pad := Three(w, x, y, z), Pads(w, x, y, z);
    if pad == 0 && Quads(rest).Some? {
      assert done + (out + Quads(rest).value) == (done + out) + Quads(rest).value;
    } else if 1 <= pad <= 2 {
      assert done + out[..3 - pad] == (done + out)[..|done| + 3 - pad];
    }
  }

  /** Write a block's bytes behind what has been read. */
  method PutBehind(src: array<byte>, out: array<byte>, pos: nat, bytes: seq<byte>, from: nat, len: nat)
    requires pos + |bytes| <= out.Length && pos + |bytes| <= from <= len <= src.Length
    modifies out
    ensures out[..pos + |bytes|] == old(out[..pos]) + bytes
    ensures out[pos + |bytes|..] == old(out[pos + |bytes|..])
    ensures src[from..len] == old(src[from..len])
  {
    Put(out, pos, bytes);
    if src == out {
      assert forall k :: from <= k < len ==> out[k] == out[pos + |bytes|..][k - (pos + |bytes|)];
    }
  }

  lemma TailOf(t: seq<byte>, u: seq<byte>, at: nat, room: nat)
    requires |t| == |u| && at <= room <= |t| && t[at..] == u[at..]
    ensures t[room..] == u[room..]
  {
    assert t[room..] == t[at..][room - at..] && u[room..] == u[at..][room - at..];
  }

  /** The second pass: read symbols, and write three bytes for every four of them. */
  method DecodeBlocks(src: array<byte>, len: nat, out: array<byte>, count: nat) returns (n: nat)
    requires len <= src.Length && count == |Sift(src[..len])| && count % 4 == 0 && count / 4 * 3 <= out.Length
    modifies out
    ensures var d := Quads(old(Sift(src[..len])));
      && (d.None? ==> n == 0)
      && (d.Some? ==> n == |d.value| <= out.Length && out[..n] == d.value)
    ensures out[count / 4 * 3..] == old(out[count / 4 * 3..])
  {
    hide Sift, SymOf, Quads, Three, Pads;
    ghost var s := src[..len];
    ghost var d, q := Quads(Sift(s)), 0;
    var room := count / 4 * 3;
    var block: seq<Sym> := [];
    var pos, i := 0, 0;
    assert s[0..] == s && block + Sift(s) == Sift(s) && out[..0] == [];
    ContinueStart(d);
    while i < len
      invariant 0 <= i <= len && |block| < 4 && pos == 3 * q && 4 * q + |block| <= i
      invariant src[i..len] == s[i..] && count == 4 * q + |block| + |Sift(s[i..])|
      invariant Continues(d, out[..pos], Quads(block + Sift(s[i..])))
      invariant out[room..] == old(out[room..])
      decreases len - i
    {
      SiftNext(s, i);
      assert src[i] == src[i..len][0] == s[i];
      assert src[i + 1..len] == src[i..len][1..] == s[i + 1..];
      var y := SymOf(src[i]);
      i := i + 1;
      ghost var rest := Sift(s[i..]);
      if y.Some? {
        assert block + ([y.value] + rest) == (block + [y.value]) + rest;
        block := block + [y.value];
      } else {
        assert block + ([] + rest) == block + rest;
      }
      if |block| == 4 {
        ghost var done, was := out[..pos], out[..];
        assert block == [block[0], block[1], block[2], block[3]];
        ContinueOver(d, done, block[0], block[1], block[2], block[3], rest);
        var pad := Pads(block[0], block[1], block[2], block[3]);
        PutBehind(src, out, pos, Three(block[0], block[1], block[2], block[3]), i, len);
        TailOf(out[..], was, pos + 3, room);
        pos, q, block := pos + 3, q + 1, [];
        if pad > 2 {
          return 0;
        }
        if pad > 0 {
          return pos - pad;
        }
        assert [] + rest == rest;
      }
    }
    assert s[len..] == [];
    SiftNone();
    assert block + [] == block;
    QuadsEnd(block, d, out[..pos]);
    return pos;
  }

  /** Decode into a buffer, which may be the source itself: every block is read before its bytes are
      written, and they are written no further on than it was read. */
  method DecodeInto(src: array<byte>, len: nat, out: array<byte>, outLen: nat) returns (n: nat)
    requires len <= src.Length && outLen <= out.Length
    modifies out
    ensures var s := old(src[..len]);
      var room := |Sift(s)| / 4 * 3;
      && (room > outLen || Decode(s).None? ==> n == 0)
      && (room <= outLen && Decode(s).Some? ==> n == |Decode(s).value| <= out.Length && out[..n] == Decode(s).value)
      && (room <= out.Length ==> out[room..] == old(out[room..]))
  {
    hide Sift, Quads;
    var count := CountSyms(src, len);
    if count == 0 || count % 4 != 0 || count / 4 * 3 > outLen {
      return 0;
    }
    n := DecodeBlocks(src, len, out, count);
  }

  lemma ContinueStart(all: Option<seq<byte>>)
    ensures Continues(all, [], all)
  {
    if all.Some? {
      assert [] + all.value == all.value;
    }
  }

  lemma QuadsEnd(block: seq<Sym>, all: Option<seq<byte>>, done: seq<byte>)
    requires |block| < 4 && Continues(all, done, Quads(block))
    ensures all == Some(done)
  {
    assert done + [] == done;
  }
}
