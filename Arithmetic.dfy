/** Facts about products, quotients and powers of two used by the reduction schedule. */
module Arithmetic {

  predicate IsPow2(n: nat)
    decreases n
  {
    n == 1 || (n >= 2 && n % 2 == 0 && IsPow2(n / 2))
  }

  lemma DivExact(a: nat, b: nat, q: nat)
    requires b > 0 && a == b * q
    ensures a / b == q && a % b == 0
  {
    var d := a / b;
    var r := a % b;
    assert a == b * d + r && 0 <= r < b;
    if q > d {
      MulMono(b, 1, q - d);
    }
  }

  /** A power of two divides every power of two at least as large, with a power of two as quotient. */
  lemma {:induction false} Pow2Divides(n: nat, h: nat) returns (q: nat)
    requires IsPow2(n) && IsPow2(h) && h <= n
    ensures n == h * q && n == q * h && IsPow2(q)
    decreases h
  {
    if h == 1 {
      q := n;
    } else {
      var q' := Pow2Divides(n / 2, h / 2);
      q := q';
    }
  }

  lemma {:induction false} MulMono(s: nat, x: nat, y: nat)
    requires x <= y
    ensures s * x <= s * y
    decreases y - x
  {
    if x < y {
      MulMono(s, x, y - 1);
      assert s * y == s * (y - 1) + s;
    }
  }

  /** A multiple of `step` below a multiple `n` of `step` leaves room for a whole group. */
  lemma GroupWithin(n: nat, step: nat, i: nat, k: nat, m: nat)
    requires i == step * k && n == step * m && i < n
    ensures i + step <= n
  {
    if k >= m {
      MulMono(step, m, k);
    }
    MulMono(step, k + 1, m);
    assert step * (k + 1) == i + step;
  }

  /** The group size of a reduction round: `n/half` for powers of two with `half < n`. */
  lemma RoundStep(n: nat, half: nat)
    requires IsPow2(n) && IsPow2(half) && 2 * half <= n
    ensures n / half >= 2 && (n / half) % 2 == 0 && n % (n / half) == 0
    ensures n == (n / half) * half
  {
    var q := Pow2Divides(n, half);
    DivExact(n, half, q);
    DivExact(n, q, half);
  }

  lemma Regroup(a: nat, b: nat)
    ensures a * (2 * b) == (2 * a) * b
  {
  }
}
