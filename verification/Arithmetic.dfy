/** The few facts about multiplication and division by a block size that the paging code rests on. */
module Arithmetic {

  lemma {:induction false} MulMonotone(a: nat, b: nat, m: nat)
    requires a <= b
    ensures a * m <= b * m
    decreases b - a
  {
    if a < b {
      MulMonotone(a, b - 1, m);
      assert b * m == (b - 1) * m + m;
    }
  }

  lemma MulStep(a: nat, m: nat)
    ensures (a + 1) * m == a * m + m
  {
  }

  lemma Division(p: nat, m: nat)
    requires m > 0
    ensures p == p / m * m + p % m && p % m < m
  {
  }

  /** Quotient and remainder are determined. */
  lemma DivisionUnique(m: nat, b: nat, s: nat, c: nat, t: nat)
    requires s < m && t < m && b * m + s == c * m + t
    ensures b == c && s == t
  {
    if b < c {
      MulMonotone(b + 1, c, m);
      MulStep(b, m);
    } else if c < b {
      MulMonotone(c + 1, b, m);
      MulStep(c, m);
    }
  }

  lemma QuotientOf(m: nat, b: nat, s: nat)
    requires s < m
    ensures (b * m + s) / m == b && (b * m + s) % m == s
  {
    var p := b * m + s;
    Division(p, m);
    DivisionUnique(m, p / m, p % m, b, s);
  }

  lemma QuotientBelow(p: nat, m: nat, b: nat)
    requires m > 0
    ensures p < b * m <==> p / m < b
  {
    Division(p, m);
    if p / m < b {
      MulMonotone(p / m + 1, b, m);
      MulStep(p / m, m);
    } else {
      MulMonotone(b, p / m, m);
    }
  }

  lemma QuotientMonotone(p: nat, q: nat, m: nat)
    requires m > 0 && p <= q
    ensures p / m <= q / m
  {
    Division(q, m);
    MulStep(q / m, m);
    QuotientBelow(p, m, q / m + 1);
  }
}
