/** The integer printers of itoa_ljust.c: two digits at a time, the cases of the switch falling
    through, in 32-bit arithmetic. */
module Itoa {
  import opened Arith
  import opened Decimal

  const TWO31 := 0x8000_0000
  const TWO32 := 0x1_0000_0000
  const TWO63 := 0x8000_0000_0000_0000
  const TWO64 := 0x1_0000_0000_0000_0000

  type uint32 = x: nat | x < TWO32
  type uint64 = x: nat | x < TWO64
  type int32 = x: int | -TWO31 <= x < TWO31
  type int64 = x: int | -TWO63 <= x < TWO63

  // ---------------------------------------------------------------- fixed-width numerals

  function Pow10(n: nat): (p: nat)
    ensures p > 0
  {
    if n == 0 then 1 else 10 * Pow10(n - 1)
  }

  /** What stands above the n lowest digits, and those digits as a number. */
  function Top(u: nat, n: nat): nat { if n == 0 then u else Top(u / 10, n - 1) }

  function Below(u: nat, n: nat): nat { if n == 0 then 0 else 10 * Below(u / 10, n - 1) + u % 10 }

  lemma {:induction false} TopAndBelow(u: nat, n: nat)
    ensures u == Pow10(n) * Top(u, n) + Below(u, n) && Below(u, n) < Pow10(n)
  {
    if n > 0 {
      TopAndBelow(u / 10, n - 1);
      var p, t, r := Pow10(n - 1), Top(u / 10, n - 1), Below(u / 10, n - 1);
      assert 10 * (p * t + r) == (10 * p) * t + 10 * r;
    }
  }

  /** They are the quotient and the remainder. */
  lemma DivIsTop(u: nat, n: nat)
    ensures u / Pow10(n) == Top(u, n) && u % Pow10(n) == Below(u, n) && Below(u, n) < Pow10(n)
  {
    hide Top, Below, Pow10;
    TopAndBelow(u, n);
    DivModUnique(Pow10(n), Top(u, n), Below(u, n));
  }

  lemma {:induction false} TopBound(u: nat, n: nat, a: nat)
    requires u < a * Pow10(n)
    ensures Top(u, n) < a
  {
    if n > 0 {
      assert a * Pow10(n) == 10 * (a * Pow10(n - 1));
      TopBound(u / 10, n - 1, a);
    }
  }

  /** The last n decimal digits of u. */
  function Padded(u: nat, n: nat): (s: string)
    ensures |s| == n
  {
    if n == 0 then "" else Padded(u / 10, n - 1) + [Digit(u % 10)]
  }

  lemma Powers()
    ensures Pow10(0) == 1 && Pow10(1) == 10 && Pow10(2) == 100 && Pow10(3) == 1000 && Pow10(4) == 10000
    ensures Pow10(5) == 100000 && Pow10(6) == 1000000 && Pow10(7) == 10000000 && Pow10(8) == 100000000
    ensures Pow10(9) == 1000000000 && Pow10(10) == 10000000000
  {
    assert Pow10(2) == 100;
    assert Pow10(4) == 10000;
    assert Pow10(6) == 1000000;
    assert Pow10(8) == 100000000;
  }

  lemma TopStep(u: nat, n: nat)
    requires n > 0
    ensures Top(u / 10, n - 1) == Top(u, n) && Below(u, n) / 10 == Below(u / 10, n - 1) && Below(u, n) % 10 == u % 10
  {
    DivModUnique(10, Below(u / 10, n - 1), u % 10);
  }

  lemma TopZero(u: nat)
    ensures Top(u, 0) == u && Below(u, 0) == 0
  {
  }

  /** A fixed-width numeral is its upper digits followed by its lower ones. */
  lemma {:induction false} PaddedSplit(u: nat, a: nat, b: nat)
    ensures Padded(u, a + b) == Padded(Top(u, b), a) + Padded(Below(u, b), b)
  {
    hide Top, Below, Pow10;
    if b > 0 {
      PaddedSplit(u / 10, a, b - 1);
      TopStep(u, b);
    } else {
      TopZero(u);
      assert Padded(u, a) + "" == Padded(u, a);
    }
  }

  /** The numeral of a number is its digits below 10^n behind the numeral of what is above. */
  lemma {:induction false} NumeralSplit(u: nat, n: nat)
    requires u >= Pow10(n)
    ensures Numeral(u) == Numeral(Top(u, n)) + Padded(Below(u, n), n)
  {
    hide Top, Below;
    if n > 0 {
      TopStep(u, n);
      assert u / 10 >= Pow10(n - 1);
      NumeralSplit(u / 10, n - 1);
      assert u >= 10;
    } else {
      TopZero(u);
      assert Numeral(u) + "" == Numeral(u);
    }
  }

  // ---------------------------------------------------------------- the switch

  /** A pair of digits out of the lookup table. */
  function Out2(d: nat): string
    requires d < 100
  {
    [Digit(d / 10), Digit(d % 10)]
  }

  lemma Out2Is(d: nat)
    requires d < 100
    ensures Out2(d) == Padded(d, 2)
  {
    assert Padded(d / 10, 1) == Padded(d / 100, 0) + [Digit((d / 10) % 10)];
  }

  /** u -= d * k on 32 bits; the product, an int in the code, is taken modulo 2^32 too. */
  function Less(u: uint32, d: nat, k: nat): uint32 {
    (u - d * k) % TWO32
  }

  lemma TakeOff(u: uint32, d: nat, k: nat)
    requires d == Top(u, k)
    ensures Less(u, d, Pow10(k)) == Below(u, k)
  {
    hide Top, Below, Pow10;
    TopAndBelow(u, k);
    assert d * Pow10(k) == Pow10(k) * Top(u, k);
    assert u - d * Pow10(k) == Below(u, k);
  }

  /** Two digits, then what is below them. */
  lemma PairThenRest(u: nat, k: nat)
    requires u < Pow10(k + 2)
    ensures Top(u, k) < 100 && Out2(Top(u, k)) + Padded(Below(u, k), k) == Padded(u, k + 2)
  {
    hide Padded;
    assert Pow10(k + 2) == 100 * Pow10(k);
    TopBound(u, k, 100);
    Out2Is(Top(u, k));
    PaddedSplit(u, 2, k);
  }

  /** Everything from the case for m digits on is still to print. */
  ghost predicate ToGo(goal: string, s: string, u: nat, m: nat) {
    u < Pow10(m) && s + Padded(u, m) == goal
  }

  /** The two lines for the digits at k and k + 1: an even case prints them, the odd case below it
      takes them off the number. */
  method TwoCases(u0: uint32, d0: nat, s0: string, n: nat, k: nat, ghost goal: string)
    returns (u: uint32, d: nat, s: string)
    requires n >= k + 2 ==> ToGo(goal, s0, u0, k + 2)
    requires n == k + 1 ==> d0 == Top(u0, k) && s0 + Padded(Below(u0, k), k) == goal
    ensures n >= k + 1 ==> ToGo(goal, s, u, k)
    ensures n < k + 1 ==> u == u0 && d == d0 && s == s0
  {
    hide Padded, Pow10, Less, Top, Below;
    u, d, s := u0, d0, s0;
    if n >= k + 2 {
      PairThenRest(u, k);
      assert s0 + (Out2(Top(u, k)) + Padded(Below(u, k), k)) == (s0 + Out2(Top(u, k))) + Padded(Below(u, k), k);
      DivIsTop(u, k);
      d := u / Pow10(k);
      s := s + Out2(d);
    }
    if n >= k + 1 {
      TakeOff(u, d, k);
      u := Less(u, d, Pow10(k));
      DivIsTop(u0, k);
    }
  }

  /** The fall-through switch, entered at case n: for even n the n digits of u, for odd n those below
      the leading digit d that has been printed. */
  method Switch(u0: uint32, d0: nat, n: nat) returns (s: string)
    requires 1 <= n <= 10
    requires n % 2 == 0 ==> u0 < Pow10(n)
    requires n % 2 == 1 ==> d0 == Top(u0, n - 1)
    ensures s == if n % 2 == 0 then Padded(u0, n) else Padded(Below(u0, n - 1), n - 1)
  {
    hide Padded, Pow10, Top, Below;
    ghost var goal := if n % 2 == 0 then Padded(u0, n) else Padded(Below(u0, n - 1), n - 1);
    assert "" + goal == goal;
    var u, d := u0, d0;
    s := "";
    u, d, s := TwoCases(u, d, s, n, 8, goal);
    u, d, s := TwoCases(u, d, s, n, 6, goal);
    u, d, s := TwoCases(u, d, s, n, 4, goal);
    u, d, s := TwoCases(u, d, s, n, 2, goal);
    Nothing(u);
    if n >= 2 {
      PairThenRest(u, 0);
      d := u / 1;
      TopZero(u);
      Nothing(Below(u, 0));
      assert Out2(d) + "" == Out2(d);
      s := s + Out2(d);
    } else {
      Nothing(Below(u0, 0));
    }
  }

  lemma Nothing(u: nat)
    ensures Padded(u, 0) == ""
  {
  }

  // ---------------------------------------------------------------- the printers

  /** Whether the number has an odd count of digits: then print its first one alone. */
  method Digits(u: uint32, k: nat, n: nat) returns (d: nat, s: string, m: nat)
    requires 2 <= n <= 10 && n % 2 == 0 && k == Pow10(n - 2) && u < Pow10(n) && (n == 2 || u >= k)
    ensures m == if u < 10 * k then n - 1 else n
    ensures u < 10 * k ==> d == Top(u, n - 2) && d < 10 && s == [Digit(d)]
    ensures u >= 10 * k ==> s == ""
  {
    d, s, m := 0, "", n;
    if u < 10 * k {
      DivIsTop(u, n - 2);
      TopBound(u, n - 2, 10);
      d := u / k;
      s := [Digit(d)];
      m := n - 1;
    }
  }

  /** A number whose leading digit is at 10^k. */
  lemma OneThenRest(u: nat, k: nat)
    requires u < 10 * Pow10(k) && (k == 0 || u >= Pow10(k))
    ensures Top(u, k) < 10 && [Digit(Top(u, k))] + Padded(Below(u, k), k) == Numeral(u)
  {
    TopBound(u, k, 10);
    if u >= Pow10(k) {
      NumeralSplit(u, k);
    } else {
      assert [Digit(u)] + "" == [Digit(u)];
    }
  }

  /** A number with exactly k + 1 digits, in full width. */
  lemma FullWidth(u: nat, k: nat)
    requires Pow10(k) <= u < 10 * Pow10(k)
    ensures Padded(u, k + 1) == Numeral(u)
  {
    OneThenRest(u, k);
    PaddedSplit(u, 1, k);
    var d := Top(u, k);
    assert Padded(d, 1) == Padded(d / 10, 0) + [Digit(d % 10)];
  }

  method ItoaU32(u: uint32) returns (s: string)
    ensures s == Numeral(u)
  {
    hide Padded, Pow10, Numeral, Top, Below;
    Powers();
    var n := if u >= 100000000 then 10
             else if u < 100 then 2 else if u < 10000 then 4 else if u < 1000000 then 6 else 8;
    var d, first, m := Digits(u, Pow10(n - 2), n);
    var rest := Switch(u, d, m);
    if u < 10 * Pow10(n - 2) {
      OneThenRest(u, n - 2);
    } else {
      FullWidth(u, n - 1);
      assert "" + rest == rest;
    }
    s := first + rest;
  }

  lemma Negated32(i: int32)
    requires i < 0
    ensures i % TWO32 == i + TWO32 && (0 - (i + TWO32)) % TWO32 == 0 - i
  {
  }

  lemma Negated64(i: int64)
    requires i < 0
    ensures i % TWO64 == i + TWO64 && (0 - (i + TWO64)) % TWO64 == 0 - i
  {
  }

  /** The unsigned magnitude of a signed number, in 32-bit two's complement. */
  method Itoa32(i: int32) returns (s: string)
    ensures s == if i < 0 then "-" + Numeral(0 - i) else Numeral(i)
  {
    hide Numeral;
    var u: uint32 := i % TWO32;
    s := "";
    if i < 0 {
      s := "-";
      Negated32(i);
      u := (0 - u) % TWO32;
    }
    var digits := ItoaU32(u);
    assert "" + digits == digits;
    s := s + digits;
  }

  /** Above 32 bits the part above 10^9 is printed first, and the nine digits below it in full. */
  method ItoaU64(u: uint64) returns (s: string)
    ensures s == Numeral(u)
  {
    hide Padded, Pow10, Numeral, Top, Below;
    if u < TWO32 {
      s := ItoaU32(u);
      return;
    }
    Powers();
    var upper := u / 1000000000;
    s := ItoaU64(upper);
    var lower: uint32 := (u - upper * 1000000000) % TWO32;
    assert lower == u % 1000000000;
    var d := lower / 100000000;
    TopBelow(u, lower);
    var rest := Switch(lower, d, 9);
    NumeralSplit(u, 9);
    NineDigits(lower);
    assert s + ([Digit(d)] + rest) == (s + [Digit(d)]) + rest;
    s := s + [Digit(d)] + rest;
  }

  lemma TopBelow(u: nat, lower: nat)
    requires lower == u % 1000000000
    ensures lower / 100000000 == Top(lower, 8) && lower == Below(u, 9) && u / 1000000000 == Top(u, 9)
  {
    Powers();
    DivIsTop(lower, 8);
    DivIsTop(u, 9);
  }

  lemma NineDigits(u: nat)
    requires u < Pow10(9)
    ensures Top(u, 8) < 10 && Padded(u, 9) == [Digit(Top(u, 8))] + Padded(Below(u, 8), 8)
  {
    assert Pow10(9) == 10 * Pow10(8);
    TopBound(u, 8, 10);
    PaddedSplit(u, 1, 8);
    var d := Top(u, 8);
    assert Padded(d, 1) == Padded(d / 10, 0) + [Digit(d % 10)];
  }

  method Itoa64(i: int64) returns (s: string)
    ensures s == if i < 0 then "-" + Numeral(0 - i) else Numeral(i)
  {
    hide Numeral;
    var u: uint64 := i % TWO64;
    s := "";
    if i < 0 {
      s := "-";
      Negated64(i);
      u := (0 - u) % TWO64;
    }
    var digits := ItoaU64(u);
    assert "" + digits == digits;
    s := s + digits;
  }
}
