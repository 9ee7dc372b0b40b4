/** Remainders by a variable divisor, as the masks of power-of-two tables compute them. */
module Arithmetic {

  predicate PowerOfTwo(n: nat) {
    n == 1 || (n > 1 && n % 2 == 0 && PowerOfTwo(n / 2))
  }

  function Residue(n: nat, x: nat): (r: nat)
    requires n > 0
    ensures r < n
  {
    if x < n then x else Residue(n, x - n)
  }

  lemma {:induction false} ResidueIsRemainder(n: nat, x: nat)
    requires n > 0
    ensures Residue(n, x) == x % n
  {
    if x >= n {
      ResidueIsRemainder(n, x - n);
      var q, r := (x - n) / n, (x - n) % n;
      assert x == (q + 1) * n + r;
      DivModUnique(n, x, q + 1, r);
    } else {
      DivModUnique(n, x, 0, x);
    }
  }

  /** The bits two numbers have in common. */
  function And(a: nat, b: nat): nat {
    if a == 0 || b == 0 then 0 else 2 * And(a / 2, b / 2) + (a % 2) * (b % 2)
  }

  /** The last bit apart, twice the divisor leaves twice what the divisor leaves of the half. */
  lemma {:induction false} ResidueOfTwice(m: nat, x: nat)
    requires m > 0
    ensures Residue(2 * m, x) == 2 * Residue(m, x / 2) + x % 2
  {
    if x >= 2 * m {
      ResidueOfTwice(m, x - 2 * m);
      assert (x - 2 * m) / 2 == x / 2 - m;
    }
  }

  /** Masking with one less than a power of two leaves the remainder by it. */
  lemma {:induction false} MaskIsResidue(n: nat, x: nat)
    requires PowerOfTwo(n)
    ensures And(x, n - 1) == Residue(n, x)
  {
    if n == 1 {
      ResidueIsRemainder(1, x);
    } else {
      MaskIsResidue(n / 2, x / 2);
      ResidueOfTwice(n / 2, x);
      assert (n - 1) / 2 == n / 2 - 1 && (n - 1) % 2 == 1;
    }
  }

  lemma DivModUnique(n: nat, x: nat, q: nat, r: nat)
    requires n > 0 && r < n && x == q * n + r
    ensures x / n == q && x % n == r
  {
    Multiple(x / n - q, n);
    assert x % n - r == -((x / n - q) * n);
  }

  lemma Multiple(k: int, n: nat)
    ensures k >= 1 ==> k * n >= n
    ensures k <= 0 ==> k * n <= 0
    ensures k <= -1 ==> k * n <= -(n as int)
  {
  }

  /** Different remainders stay different when the divisor doubles. */
  lemma {:induction false} Doubling(n: nat, x: nat)
    requires n > 0
    ensures Residue(2 * n, x) == Residue(n, x) || Residue(2 * n, x) == Residue(n, x) + n
    decreases x
  {
    if x >= 2 * n {
      Doubling(n, x - 2 * n);
      assert Residue(n, x) == Residue(n, x - n) == Residue(n, x - n - n);
    }
  }

  /** Among `n` consecutive numbers every remainder occurs. */
  lemma {:induction false} Covering(n: nat, start: nat, r: nat) returns (x: nat)
    requires r < n
    ensures start <= x < start + n && Residue(n, x) == r
    decreases start
  {
    if start >= n {
      var y := Covering(n, start - n, r);
      x := y + n;
    } else {
      x := if start <= r then r else r + n;
    }
  }
}
