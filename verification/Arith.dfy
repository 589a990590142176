/** Facts about powers of two and remainders, shared by the schedule models. */
module Arith {

  /** `n` is 1, 2, 4, 8, ... */
  predicate IsPow2(n: nat)
  {
    n == 1 || (n > 1 && n % 2 == 0 && IsPow2(n / 2))
  }

  /** Of two powers of two the smaller divides the larger. */
  lemma {:induction false} Pow2Divides(p: nat, q: nat)
    requires IsPow2(p) && IsPow2(q) && p <= q
    ensures q % p == 0
  {
    if p == 1 {
    } else {
      Pow2Divides(p / 2, q / 2);
      var k := (q / 2) / (p / 2);
      assert q / 2 == k * (p / 2);
      assert q == k * p;
      MulMod(k, p);
    }
  }

  /** Powers of two are closed under products. */
  lemma {:induction false} Pow2Product(a: nat, b: nat)
    requires IsPow2(a) && IsPow2(b)
    ensures IsPow2(a * b)
  {
    if a > 1 {
      var h := a / 2;
      Pow2Product(h, b);
      assert a * b == 2 * (h * b);
      assert h * b > 0;
    }
  }

  lemma MulMod(k: nat, p: nat)
    requires p > 0
    ensures (k * p) % p == 0
  {
    DivModUnique(k * p, p, k, 0);
  }

  /** Quotient and remainder are determined by the division equation. */
  lemma DivModUnique(a: int, d: int, q: int, r: int)
    requires d > 0 && 0 <= r < d && a == q * d + r
    ensures a / d == q && a % d == r
  {
    var q' := a / d;
    var r' := a % d;
    assert a == q' * d + r';
    assert (q - q') * d == r' - r;
    if q > q' {
      MulGe(q - q', d);
    } else if q < q' {
      MulGe(q' - q, d);
    }
  }

  lemma MulGe(k: int, d: int)
    requires k >= 1 && d > 0
    ensures k * d >= d
  {
  }

  /** Reducing modulo a multiple of `p` first does not change the residue modulo `p`. */
  lemma ModNest(a: nat, p: nat, q: nat)
    requires p > 0 && q > 0 && q % p == 0
    ensures (a % q) % p == a % p
  {
    var k := q / p;
    assert q == k * p;
    var t := a / q;
    var r := a % q;
    assert a == t * q + r;
    var u := r / p;
    var v := r % p;
    assert r == u * p + v;
    assert a == (t * k + u) * p + v by {
      assert t * q == (t * k) * p;
    }
    DivModUnique(a, p, t * k + u, v);
  }

  /** Two numbers with the same residue that are less than `p` apart are equal. */
  lemma SameResidue(a: nat, b: nat, p: nat)
    requires p > 0 && a <= b < a + p && a % p == b % p
    ensures a == b
  {
    var d := b / p - a / p;
    assert b - a == d * p;
    if d >= 1 {
      MulGe(d, p);
    }
  }

  /** Stepping by `p` keeps the residue; a number strictly between two steps has another one. */
  lemma StepResidue(i: nat, p: nat, s: nat)
    requires p > 0 && i % p == s
    ensures (i + p) % p == s
    ensures forall f: nat :: i < f < i + p ==> f % p != s
  {
    DivModUnique(i + p, p, i / p + 1, s);
    forall f: nat | i < f < i + p
      ensures f % p != s
    {
      if f % p == s {
        SameResidue(i, f, p);
      }
    }
  }

  /** Below `p` a number is its own residue. */
  lemma SmallResidue(f: nat, p: nat)
    requires f < p
    ensures f % p == f
  {
    DivModUnique(f, p, 0, f);
  }

  /** The residue of `f` modulo `p`, by repeated subtraction: a definition the verifier does not
      expand into nonlinear arithmetic. */
  function Residue(f: nat, p: nat): nat
    requires p > 0
  {
    if f < p then f else Residue(f - p, p)
  }

  lemma {:induction false} ResidueIsMod(f: nat, p: nat)
    requires p > 0
    ensures Residue(f, p) == f % p
  {
    if f < p {
      SmallResidue(f, p);
    } else {
      ResidueIsMod(f - p, p);
      DivModUnique(f, p, (f - p) / p + 1, (f - p) % p);
    }
  }
}
