/** Concatenation of a sequence of sequences. */
module Flatten {
  function Flat<T>(vs: seq<seq<T>>): seq<T> {
    if vs == [] then [] else vs[0] + Flat(vs[1..])
  }

  lemma Assoc<T>(a: seq<T>, b: seq<T>, c: seq<T>)
    ensures a + (b + c) == (a + b) + c
  {
  }

  lemma Around<T>(s: seq<T>, k: nat)
    requires k < |s|
    ensures s == s[..k] + ([s[k]] + s[k + 1..])
  {
  }

  lemma FlatNone<T>()
    ensures Flat<T>([]) == []
  {
  }

  lemma FlatCons<T>(x: seq<T>, rest: seq<seq<T>>)
    ensures Flat([x] + rest) == x + Flat(rest)
  {
    assert ([x] + rest)[1..] == rest;
  }

  lemma FlatOne<T>(b: seq<T>)
    ensures Flat([b]) == b
  {
    assert [b][1..] == [];
  }

  lemma {:induction false} FlatAdd<T>(a: seq<seq<T>>, b: seq<seq<T>>)
    ensures Flat(a + b) == Flat(a) + Flat(b)
  {
    hide Flat;
    FlatNone<T>();
    if a == [] {
      assert a + b == b;
    } else {
      FlatAdd(a[1..], b);
      assert a == [a[0]] + a[1..] && a + b == [a[0]] + (a[1..] + b);
      FlatCons(a[0], a[1..]);
      FlatCons(a[0], a[1..] + b);
      Assoc(a[0], Flat(a[1..]), Flat(b));
    }
  }

  lemma FlatSnoc<T>(a: seq<seq<T>>, x: seq<T>)
    ensures Flat(a + [x]) == Flat(a) + x
  {
    hide Flat;
    FlatAdd(a, [x]);
    FlatOne(x);
  }

  lemma FlatUpTo<T>(cs: seq<seq<T>>, k: nat)
    requires k < |cs|
    ensures Flat(cs[..k + 1]) == Flat(cs[..k]) + cs[k]
  {
    hide Flat;
    assert cs[..k + 1] == cs[..k] + [cs[k]];
    FlatSnoc(cs[..k], cs[k]);
  }

  /** What stands before, at and after position k. */
  lemma FlatAround<T>(cs: seq<seq<T>>, k: nat)
    requires k < |cs|
    ensures Flat(cs) == Flat(cs[..k]) + (cs[k] + Flat(cs[k + 1..]))
  {
    hide Flat;
    var rest := [cs[k]] + cs[k + 1..];
    Around(cs, k);
    FlatAdd(cs[..k], rest);
    FlatCons(cs[k], cs[k + 1..]);
  }
}
