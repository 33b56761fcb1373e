/** Multiplication and division facts the solver does not find by itself. */
module Arith {
  lemma {:induction false} MulGrows(w: nat, i: nat, j: nat)
    requires i < j
    ensures w * i + w <= w * j
  {
    assert w * j == w * (j - 1) + w;
    if i < j - 1 {
      MulGrows(w, i, j - 1);
    }
  }

  lemma DivModUnique(w: nat, q: nat, r: nat)
    requires r < w
    ensures (w * q + r) / w == q && (w * q + r) % w == r
  {
    var x := w * q + r;
    var d, m := x / w, x % w;
    assert x == w * d + m;
    if q < d {
      MulGrows(w, q, d);
    } else if d < q {
      MulGrows(w, d, q);
    }
  }
}
