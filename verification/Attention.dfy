/**
 Causal grouped-query attention twice over exact reals: the CPU's two passes and the GPU's single pass
 with an online softmax. Both compute the softmax-weighted mean of the value rows.
 */
module Attentions {
  import opened Arithmetic
  import opened Results
  import opened Linears

  /** All that is used of the exponential. */
  ghost predicate ExpLaws(exp: real -> real) {
    (forall x, y :: exp(x + y) == exp(x) * exp(y)) && (forall x :: exp(x) > 0.0)
  }

  lemma ExpSplit(exp: real -> real, x: real, y: real)
    requires ExpLaws(exp)
    ensures exp(x) == exp(x - y) * exp(y) && exp(x) > 0.0 && exp(y) > 0.0 && exp(x - y) > 0.0
  {
    assert (x - y) + y == x;
    assert exp((x - y) + y) == exp(x - y) * exp(y);
  }

  /** a scaled by c, plus w times x. */
  function Blend(a: real, c: real, w: real, x: real): real {
    a * c + w * x
  }

  // ---- What both compute --------------------------------------------------------------------

  function Scores(q: seq<real>, ks: seq<seq<real>>, scale: real): (s: seq<real>)
    requires forall j :: 0 <= j < |ks| ==> |ks[j]| == |q|
    ensures |s| == |ks|
  {
    seq(|ks|, j requires 0 <= j < |ks| => Times(Dot(q, ks[j]), scale))
  }

  function Column(vs: seq<seq<real>>, d: nat): (c: seq<real>)
    requires forall j :: 0 <= j < |vs| ==> d < |vs[j]|
    ensures |c| == |vs|
  {
    seq(|vs|, j requires 0 <= j < |vs| => vs[j][d])
  }

  /** Sum of exp(s_j) over the first n scores. */
  ghost function SumExp(exp: real -> real, s: seq<real>, n: nat): real
    requires n <= |s|
  {
    if n == 0 then 0.0 else SumExp(exp, s, n - 1) + exp(s[n - 1])
  }

  /** Sum of exp(s_j) * v_j over the first n scores. */
  ghost function SumExpTimes(exp: real -> real, s: seq<real>, v: seq<real>, n: nat): real
    requires n <= |s| == |v|
  {
    if n == 0 then 0.0 else SumExpTimes(exp, s, v, n - 1) + Times(exp(s[n - 1]), v[n - 1])
  }

  lemma {:induction false} SumExpPositive(exp: real -> real, s: seq<real>, n: nat)
    requires ExpLaws(exp) && n <= |s|
    ensures SumExp(exp, s, n) >= 0.0 && (n > 0 ==> SumExp(exp, s, n) > 0.0)
  {
    if n > 0 {
      SumExpPositive(exp, s, n - 1);
      ExpSplit(exp, s[n - 1], 0.0);
    }
  }

  /** Mean of v weighted by the softmax of s. */
  ghost function SoftmaxMean(exp: real -> real, s: seq<real>, v: seq<real>): real
    requires ExpLaws(exp) && s != [] && |s| == |v|
  {
    SumExpPositive(exp, s, |s|);
    SumExpTimes(exp, s, v, |s|) / SumExp(exp, s, |s|)
  }

  lemma {:induction false} SumExpTimesBounded(exp: real -> real, s: seq<real>, v: seq<real>, n: nat, lo: real, hi: real)
    requires ExpLaws(exp) && n <= |s| == |v| && forall j :: 0 <= j < n ==> lo <= v[j] <= hi
    ensures Times(SumExp(exp, s, n), lo) <= SumExpTimes(exp, s, v, n) <= Times(SumExp(exp, s, n), hi)
  {
    if n > 0 {
      SumExpTimesBounded(exp, s, v, n - 1, lo, hi);
      ExpSplit(exp, s[n - 1], 0.0);
      hide ExpLaws, Times;
      SumBounds(SumExp(exp, s, n - 1), exp(s[n - 1]), SumExpTimes(exp, s, v, n - 1), v[n - 1], lo, hi);
    }
  }

  lemma SumBounds(sum: real, w: real, total: real, x: real, lo: real, hi: real)
    requires Times(sum, lo) <= total <= Times(sum, hi) && w > 0.0 && lo <= x <= hi
    ensures Times(sum + w, lo) <= total + Times(w, x) <= Times(sum + w, hi)
  {
    assert w * lo <= w * x <= w * hi;
  }

  /** The mean lies between the smallest and the largest value, so weights are positive and add up to one. */
  lemma MeanIsBetween(exp: real -> real, s: seq<real>, v: seq<real>, lo: real, hi: real)
    requires ExpLaws(exp) && s != [] && |s| == |v| && forall j :: 0 <= j < |v| ==> lo <= v[j] <= hi
    ensures lo <= SoftmaxMean(exp, s, v) <= hi
  {
    var n := |s|;
    SumExpPositive(exp, s, n);
    SumExpTimesBounded(exp, s, v, n, lo, hi);
    hide ExpLaws, SumExp, SumExpTimes;
    DivideBetween(SumExpTimes(exp, s, v, n), SumExp(exp, s, n), lo, hi);
  }

  lemma {:induction false} OneTermLarger(exp: real -> real, s: seq<real>, v: seq<real>, w: seq<real>, j: nat, n: nat)
    requires ExpLaws(exp) && n <= |s| == |v| == |w| && j < |s| && forall r :: 0 <= r < |s| && r != j ==> w[r] == v[r]
    ensures SumExpTimes(exp, s, w, n)
            == SumExpTimes(exp, s, v, n) + if j < n then Times(exp(s[j]), w[j] - v[j]) else 0.0
  {
    hide ExpLaws;
    if n > 0 {
      OneTermLarger(exp, s, v, w, j, n - 1);
    }
  }

  /** Every score has a positive weight. */
  lemma LargerValue(exp: real -> real, s: seq<real>, v: seq<real>, w: seq<real>, j: nat)
    requires ExpLaws(exp) && s != [] && |s| == |v| == |w| && j < |s| && v[j] < w[j]
    requires forall r :: 0 <= r < |s| && r != j ==> w[r] == v[r]
    ensures SoftmaxMean(exp, s, v) < SoftmaxMean(exp, s, w)
  {
    OneTermLarger(exp, s, v, w, j, |s|);
    SumExpPositive(exp, s, |s|);
    ExpSplit(exp, s[j], 0.0);
    hide ExpLaws, SumExp, SumExpTimes;
    LargerQuotient(SumExpTimes(exp, s, v, |s|), SumExpTimes(exp, s, w, |s|), SumExp(exp, s, |s|), exp(s[j]),
                   w[j] - v[j]);
  }

  lemma LargerQuotient(a: real, b: real, t: real, e: real, x: real)
    requires t > 0.0 && e > 0.0 && x > 0.0 && b == a + Times(e, x)
    ensures a / t < b / t
  {
    assert e * x > 0.0;
    assert a / t * t == a && b / t * t == b;
  }

  lemma DivideBetween(x: real, w: real, lo: real, hi: real)
    requires w > 0.0 && Times(w, lo) <= x <= Times(w, hi)
    ensures lo <= x / w <= hi
  {
    var r := x / w;
    assert r * w == x;
    Cancel(w, lo, r);
    Cancel(w, r, hi);
  }

  lemma Cancel(w: real, a: real, b: real)
    requires w > 0.0 && w * a <= w * b
    ensures a <= b
  {
  }

  lemma PositiveFactor(w: real, e: real)
    requires e > 0.0 && w * e > 0.0
    ensures w > 0.0
  {
  }

  // ---- One query, online --------------------------------------------------------------------

  /** A sum relative to a maximum keeps its absolute value when the maximum moves. */
  lemma Rebase(exp: real -> real, sum: real, max: real, newMax: real, score: real, x: real, total: real)
    requires ExpLaws(exp) && Times(sum, exp(max)) == total
    ensures Times(Blend(sum, exp(max - newMax), exp(score - newMax), x), exp(newMax)) == total + Times(exp(score), x)
  {
    ExpSplit(exp, max, newMax);
    ExpSplit(exp, score, newMax);
    hide ExpLaws;
    RebaseAlgebra(sum, exp(max - newMax), exp(score - newMax), x, exp(newMax), exp(max), exp(score));
  }

  lemma RebaseAlgebra(sum: real, c: real, w: real, x: real, e: real, oldE: real, s: real)
    requires oldE == c * e && s == w * e
    ensures (sum * c + w * x) * e == sum * oldE + s * x
  {
  }

  /** A quotient of two sums with one base is the quotient of the absolute sums. */
  lemma SameQuotient(a: real, w: real, e: real, x: real, y: real)
    requires e > 0.0 && y > 0.0 && Times(a, e) == x && Times(w, e) == y
    ensures w > 0.0 && Times(a, 1.0 / w) == x / y
  {
    PositiveFactor(w, e);
    assert (x / y) * y == x;
    assert (x / y) * w * e == a * e;
    assert (x / y) * w == a;
    assert (1.0 / w) * w == 1.0;
    assert a * (1.0 / w) == (x / y) * (w * (1.0 / w));
  }

  /** Rows of one query: every key and value row has the head's width. */
  predicate Rows(q: seq<real>, ks: seq<seq<real>>, vs: seq<seq<real>>) {
    ks != [] && |ks| == |vs| && forall j :: 0 <= j < |ks| ==> |ks[j]| == |q| == |vs[j]|
  }

  /** What attention yields for one query and one coordinate. */
  ghost function Mean(exp: real -> real, q: seq<real>, ks: seq<seq<real>>, vs: seq<seq<real>>, scale: real,
                      d: nat): real
    requires ExpLaws(exp) && Rows(q, ks, vs) && d < |q|
  {
    SoftmaxMean(exp, Scores(q, ks, scale), Column(vs, d))
  }

  /** Of two keys each counts in proportion to the exponential of its scaled dot product with the query. */
  lemma TwoKeys(exp: real -> real, q: seq<real>, k0: seq<real>, k1: seq<real>, v0: seq<real>, v1: seq<real>,
                scale: real, d: nat)
    requires ExpLaws(exp) && |q| == |k0| == |k1| == |v0| == |v1| && d < |q|
    ensures Rows(q, [k0, k1], [v0, v1])
    ensures var e0, e1 := exp(Times(Dot(q, k0), scale)), exp(Times(Dot(q, k1), scale));
            Times(Mean(exp, q, [k0, k1], [v0, v1], scale, d), e0 + e1) == Times(e0, v0[d]) + Times(e1, v1[d])
  {
    hide ExpLaws, Times, SumExp, SumExpTimes, Dot, SoftmaxMean, Mean, Scores, Column;
    TwoRows(exp, q, k0, k1, v0, v1, scale, d);
    var s, c := [Times(Dot(q, k0), scale), Times(Dot(q, k1), scale)], [v0[d], v1[d]];
    TwoSums(exp, s, c);
    MeanTimesSum(exp, s, c);
  }

  lemma TwoRows(exp: real -> real, q: seq<real>, k0: seq<real>, k1: seq<real>, v0: seq<real>, v1: seq<real>,
                scale: real, d: nat)
    requires ExpLaws(exp) && |q| == |k0| == |k1| == |v0| == |v1| && d < |q|
    ensures Rows(q, [k0, k1], [v0, v1])
    ensures Mean(exp, q, [k0, k1], [v0, v1], scale, d)
            == SoftmaxMean(exp, [Times(Dot(q, k0), scale), Times(Dot(q, k1), scale)], [v0[d], v1[d]])
  {
    hide ExpLaws, Times, Dot, SoftmaxMean;
    assert Scores(q, [k0, k1], scale) == [Times(Dot(q, k0), scale), Times(Dot(q, k1), scale)];
    assert Column([v0, v1], d) == [v0[d], v1[d]];
  }

  lemma MeanTimesSum(exp: real -> real, s: seq<real>, v: seq<real>)
    requires ExpLaws(exp) && s != [] && |s| == |v|
    ensures Times(SoftmaxMean(exp, s, v), SumExp(exp, s, |s|)) == SumExpTimes(exp, s, v, |s|)
  {
    hide ExpLaws, SumExp, SumExpTimes, Times;
    SumExpPositive(exp, s, |s|);
    Quotients(SumExpTimes(exp, s, v, |s|), SumExp(exp, s, |s|));
  }

  lemma TwoSums(exp: real -> real, s: seq<real>, v: seq<real>)
    requires ExpLaws(exp) && |s| == |v| == 2
    ensures SumExp(exp, s, 2) == exp(s[0]) + exp(s[1]) != 0.0
    ensures SumExpTimes(exp, s, v, 2) == Times(exp(s[0]), v[0]) + Times(exp(s[1]), v[1])
  {
    hide ExpLaws, Times;
    SumExpPositive(exp, s, 2);
    assert SumExp(exp, s, 1) == exp(s[0]);
    assert SumExpTimes(exp, s, v, 1) == Times(exp(s[0]), v[0]);
  }

  lemma Quotients(x: real, y: real)
    requires y != 0.0
    ensures Times(x / y, y) == x
  {
  }

  /** acc and sum are the absolute sums over the first n keys, taken relative to max. */
  ghost predicate Accumulated(exp: real -> real, q: seq<real>, ks: seq<seq<real>>, vs: seq<seq<real>>, scale: real,
                              n: nat,
                              acc: seq<real>, sum: real, max: real)
    requires Rows(q, ks, vs) && n <= |ks| && |acc| == |q|
  {
    && Times(sum, exp(max)) == SumExp(exp, Scores(q, ks, scale), n)
    && forall d :: 0 <= d < |q| ==> Times(acc[d], exp(max)) == SumExpTimes(exp, Scores(q, ks, scale), Column(vs, d), n)
  }

  /** One thread of the single-pass kernel, from any starting maximum. */
  method OnlineThread(exp: real -> real, q: seq<real>, ks: seq<seq<real>>, vs: seq<seq<real>>, scale: real, start: real)
    returns (out: array<real>)
    requires ExpLaws(exp) && Rows(q, ks, vs)
    ensures fresh(out) && out.Length == |q| && forall d :: 0 <= d < |q| ==> out[d] == Mean(exp, q, ks, vs, scale, d)
  {
    hide ExpLaws, Dot, Times, Blend, Accumulated, Scores, Column, Mean;
    var acc := new real[|q|](d => 0.0);
    var runningMax, runningSum := start, 0.0;
    NothingAccumulated(exp, q, ks, vs, scale, acc[..], start);
    var j := 0;
    while j < |ks|
      invariant 0 <= j <= |ks| && Accumulated(exp, q, ks, vs, scale, j, acc[..], runningSum, runningMax)
    {
      var dot := DotLoop(q, ks[j]);
      dot := Times(dot, scale);
      var newMax := if dot > runningMax then dot else runningMax;
      var correction, weight := exp(runningMax - newMax), exp(dot - newMax);
      ghost var before := acc[..];
      BlendInto(acc, correction, weight, vs[j]);
      AccumulatedNext(exp, q, ks, vs, scale, j, before, acc[..], runningSum, runningMax, newMax);
      runningSum := Blend(runningSum, correction, weight, 1.0);
      runningMax := newMax;
      j := j + 1;
    }
    Normalised(exp, q, ks, vs, scale, acc[..], runningSum, runningMax);
    out := new real[|q|](d => 0.0);
    var invSum := 1.0 / runningSum;
    ghost var sums := acc[..];
    var d := 0;
    while d < |q|
      invariant 0 <= d <= |q| && acc[..] == sums
      invariant forall e :: 0 <= e < d ==> out[e] == Times(sums[e], invSum)
    {
      out[d] := Times(acc[d], invSum);
      d := d + 1;
    }
  }

  /** The inner loop over coordinates. */
  method BlendInto(acc: array<real>, c: real, w: real, x: seq<real>)
    requires |x| == acc.Length
    modifies acc
    ensures forall e :: 0 <= e < acc.Length ==> acc[e] == Blend(old(acc[e]), c, w, x[e])
  {
    hide Blend;
    var d := 0;
    while d < acc.Length
      invariant 0 <= d <= acc.Length
      invariant forall e :: 0 <= e < d ==> acc[e] == Blend(old(acc[e]), c, w, x[e])
      invariant forall e :: d <= e < acc.Length ==> acc[e] == old(acc[e])
    {
      acc[d] := Blend(acc[d], c, w, x[d]);
      d := d + 1;
    }
  }

  lemma NothingAccumulated(exp: real -> real, q: seq<real>, ks: seq<seq<real>>, vs: seq<seq<real>>, scale: real,
                           acc: seq<real>, max: real)
    requires Rows(q, ks, vs) && |acc| == |q| && forall d :: 0 <= d < |q| ==> acc[d] == 0.0
    ensures Accumulated(exp, q, ks, vs, scale, 0, acc, 0.0, max)
  {
  }

  lemma AccumulatedNext(exp: real -> real, q: seq<real>, ks: seq<seq<real>>, vs: seq<seq<real>>, scale: real, j: nat,
                        before: seq<real>, acc: seq<real>, sum: real, max: real, newMax: real)
    requires ExpLaws(exp) && Rows(q, ks, vs) && j < |ks| && |acc| == |before| == |q|
    requires Accumulated(exp, q, ks, vs, scale, j, before, sum, max)
    requires var dot := Times(Dot(q, ks[j]), scale);
             forall e :: 0 <= e < |q| ==> acc[e] == Blend(before[e], exp(max - newMax), exp(dot - newMax), vs[j][e])
    ensures var dot := Times(Dot(q, ks[j]), scale);
            Accumulated(exp, q, ks, vs, scale, j + 1, acc, Blend(sum, exp(max - newMax), exp(dot - newMax), 1.0),
                newMax)
  {
    hide ExpLaws, Dot, Blend, Times, SumExp, SumExpTimes;
    var s := Scores(q, ks, scale);
    SumMoved(exp, s, sum, max, newMax, j);
    forall d | 0 <= d < |q|
      ensures Times(acc[d], exp(newMax)) == SumExpTimes(exp, s, Column(vs, d), j + 1)
    {
      TermMoved(exp, s, Column(vs, d), before[d], max, newMax, j);
    }
  }

  lemma SumMoved(exp: real -> real, s: seq<real>, sum: real, max: real, newMax: real, j: nat)
    requires ExpLaws(exp) && j < |s| && Times(sum, exp(max)) == SumExp(exp, s, j)
    ensures Times(Blend(sum, exp(max - newMax), exp(s[j] - newMax), 1.0), exp(newMax)) == SumExp(exp, s, j + 1)
  {
    hide ExpLaws, Blend;
    Rebase(exp, sum, max, newMax, s[j], 1.0, SumExp(exp, s, j));
    assert Times(exp(s[j]), 1.0) == exp(s[j]);
  }

  lemma TermMoved(exp: real -> real, s: seq<real>, v: seq<real>, a: real, max: real, newMax: real, j: nat)
    requires ExpLaws(exp) && j < |s| == |v| && Times(a, exp(max)) == SumExpTimes(exp, s, v, j)
    ensures Times(Blend(a, exp(max - newMax), exp(s[j] - newMax), v[j]), exp(newMax)) == SumExpTimes(exp, s, v, j + 1)
  {
    hide ExpLaws, Blend, Times;
    Rebase(exp, a, max, newMax, s[j], v[j], SumExpTimes(exp, s, v, j));
  }

  /** Dividing the relative sums gives the mean. */
  lemma Normalised(exp: real -> real, q: seq<real>, ks: seq<seq<real>>, vs: seq<seq<real>>, scale: real,
                   acc: seq<real>, sum: real, max: real)
    requires ExpLaws(exp) && Rows(q, ks, vs) && |acc| == |q| && Accumulated(exp, q, ks, vs, scale, |ks|, acc, sum, max)
    ensures sum > 0.0 && forall d :: 0 <= d < |q| ==> Times(acc[d], 1.0 / sum) == Mean(exp, q, ks, vs, scale, d)
  {
    var s := Scores(q, ks, scale);
    SumExpPositive(exp, s, |s|);
    ExpSplit(exp, max, max);
    hide ExpLaws, SumExp, SumExpTimes, Scores;
    SumPositive(sum, exp(max), SumExp(exp, s, |s|));
    hide Times;
    forall d | 0 <= d < |q|
      ensures Times(acc[d], 1.0 / sum) == Mean(exp, q, ks, vs, scale, d)
    {
      SameQuotient(acc[d], sum, exp(max), SumExpTimes(exp, s, Column(vs, d), |s|), SumExp(exp, s, |s|));
    }
  }

  lemma SumPositive(sum: real, e: real, total: real)
    requires Times(sum, e) == total && total > 0.0 && e > 0.0
    ensures sum > 0.0
  {
  }

  // ---- One query, two passes ----------------------------------------------------------------

  /** First pass: the scores and their maximum. */
  method ScoreAll(q: seq<real>, ks: seq<seq<real>>, scale: real) returns (scores: array<real>, max: real)
    requires ks != [] && forall j :: 0 <= j < |ks| ==> |ks[j]| == |q|
    ensures fresh(scores) && scores[..] == Scores(q, ks, scale)
  {
    hide Dot, Times;
    scores := new real[|ks|](j => 0.0);
    var maxScore: Option<real> := None;
    var j := 0;
    while j < |ks|
      invariant 0 <= j <= |ks| && (j > 0 ==> maxScore.Some?) && forall i :: 0 <= i < j ==>
                  scores[i] == Scores(q, ks, scale)[i]
    {
      var dot := DotLoop(q, ks[j]);
      scores[j] := Times(dot, scale);
      maxScore := if maxScore.None? || scores[j] > maxScore.value then Some(scores[j]) else maxScore;
      j := j + 1;
    }
    max := maxScore.value;
  }

  /** Second pass: exponentials relative to the maximum, and their sum. */
  method ExpAll(exp: real -> real, scores: array<real>, max: real) returns (sum: real)
    requires ExpLaws(exp) && scores.Length > 0
    modifies scores
    ensures forall i :: 0 <= i < scores.Length ==> scores[i] == exp(old(scores[i]) - max)
    ensures Times(sum, exp(max)) == SumExp(exp, old(scores[..]), scores.Length) && sum > 0.0
  {
    hide ExpLaws, Times;
    ghost var s := scores[..];
    sum := 0.0;
    var j := 0;
    NoTerms(exp(max));
    while j < scores.Length
      invariant 0 <= j <= scores.Length && Times(sum, exp(max)) == SumExp(exp, s, j)
      invariant forall i :: 0 <= i < j ==> scores[i] == exp(s[i] - max)
      invariant forall i :: j <= i < scores.Length ==> scores[i] == s[i]
    {
      OneTerm(exp, sum, max, s[j]);
      scores[j] := exp(scores[j] - max);
      sum := sum + scores[j];
      j := j + 1;
    }
    SumExpPositive(exp, s, |s|);
    ExpSplit(exp, max, max);
    SumPositive(sum, exp(max), SumExp(exp, s, |s|));
  }

  lemma NoTerms(e: real)
    ensures Times(0.0, e) == 0.0
  {
  }

  lemma OneTerm(exp: real -> real, sum: real, max: real, score: real)
    requires ExpLaws(exp)
    ensures Times(sum + exp(score - max), exp(max)) == Times(sum, exp(max)) + exp(score)
  {
    ExpSplit(exp, score, max);
    hide ExpLaws;
  }

  /** Third pass: acc += p_j * v_j with p_j the normalised exponentials. */
  method WeightedValues(exp: real -> real, ghost s: seq<real>, vs: seq<seq<real>>, dim: nat, scores: array<real>,
                        sum: real, ghost max: real)
    returns (acc: array<real>)
    requires ExpLaws(exp) && scores.Length == |s| == |vs| > 0 && sum > 0.0
             && forall j :: 0 <= j < |vs| ==> |vs[j]| == dim
    requires forall i :: 0 <= i < |s| ==> scores[i] == exp(s[i] - max)
    requires Times(sum, exp(max)) == SumExp(exp, s, |s|)
    ensures fresh(acc) && acc.Length == dim && forall d :: 0 <= d < dim ==> acc[d] == SoftmaxMean(exp, s, Column(vs, d))
  {
    hide ExpLaws, SumExp, Times, Blend, SumExpTimes, Column;
    acc := new real[dim](d => 0.0);
    var invSum := 1.0 / sum;
    ghost var total := SumExp(exp, s, |s|);
    NothingWeighted(exp, s, vs, dim, total);
    var j := 0;
    while j < |vs|
      invariant 0 <= j <= |vs|
      invariant forall d :: 0 <= d < dim ==> Times(acc[d], total) == SumExpTimes(exp, s, Column(vs, d), j)
    {
      var p := Times(scores[j], invSum);
      ghost var before := acc[..];
      BlendInto(acc, 1.0, p, vs[j]);
      ExpSplit(exp, s[j], max);
      forall d | 0 <= d < dim
        ensures Times(acc[d], total) == SumExpTimes(exp, s, Column(vs, d), j + 1)
      {
        AddWeighted(before[d], scores[j], sum, exp(max), exp(s[j]), vs[j][d]);
        OneMore(exp, s, vs, dim, d, j);
      }
      j := j + 1;
    }
    SumExpPositive(exp, s, |s|);
    forall d | 0 <= d < dim
      ensures acc[d] == SoftmaxMean(exp, s, Column(vs, d))
    {
      Quotient(acc[d], total, SumExpTimes(exp, s, Column(vs, d), |s|));
    }
  }

  lemma NothingWeighted(exp: real -> real, s: seq<real>, vs: seq<seq<real>>, dim: nat, total: real)
    requires |s| == |vs| && forall j :: 0 <= j < |vs| ==> |vs[j]| == dim
    ensures forall d :: 0 <= d < dim ==> Times(0.0, total) == SumExpTimes(exp, s, Column(vs, d), 0)
  {
  }

  lemma OneMore(exp: real -> real, s: seq<real>, vs: seq<seq<real>>, dim: nat, d: nat, j: nat)
    requires j < |s| == |vs| && d < dim && forall i :: 0 <= i < |vs| ==> |vs[i]| == dim
    ensures SumExpTimes(exp, s, Column(vs, d), j + 1)
            == SumExpTimes(exp, s, Column(vs, d), j) + Times(exp(s[j]), vs[j][d])
  {
    hide Times;
  }

  lemma AddWeighted(a: real, w: real, sum: real, e: real, s: real, x: real)
    requires sum > 0.0 && s == w * e
    ensures Times(Blend(a, 1.0, Times(w, 1.0 / sum), x), Times(sum, e)) == Times(a, Times(sum, e)) + Times(s, x)
  {
    assert (1.0 / sum) * sum == 1.0;
    assert (w * (1.0 / sum) * x) * (sum * e) == ((1.0 / sum) * sum) * (w * e * x);
  }

  lemma Quotient(a: real, y: real, x: real)
    requires y > 0.0 && Times(a, y) == x
    ensures a == x / y
  {
  }

  /** The CPU's loops for one query. */
  method TwoPass(exp: real -> real, q: seq<real>, ks: seq<seq<real>>, vs: seq<seq<real>>, scale: real)
    returns (out: array<real>)
    requires ExpLaws(exp) && Rows(q, ks, vs)
    ensures fresh(out) && out.Length == |q| && forall d :: 0 <= d < |q| ==> out[d] == Mean(exp, q, ks, vs, scale, d)
  {
    hide ExpLaws, Dot, Scores, Column;
    var scores, max := ScoreAll(q, ks, scale);
    ghost var s := scores[..];
    var sum := ExpAll(exp, scores, max);
    out := WeightedValues(exp, s, vs, |q|, scores, sum, max);
  }

  // ---- All heads and queries ----------------------------------------------------------------

  /** Rows of heads of coordinates. */
  type Heads = seq<seq<seq<real>>>

  predicate Shaped(t: Heads, heads: nat, dim: nat) {
    forall i :: 0 <= i < |t| ==> |t[i]| == heads && forall h :: 0 <= h < heads ==> |t[i][h]| == dim
  }

  /** The first n rows of one head. */
  function HeadRows(t: Heads, heads: nat, dim: nat, h: nat, n: nat): (rows: seq<seq<real>>)
    requires Shaped(t, heads, dim) && h < heads && n <= |t|
    ensures |rows| == n && forall j :: 0 <= j < n ==> |rows[j]| == dim
  {
    seq(n, j requires 0 <= j < n => t[j][h])
  }

  /** Query heads share key heads in groups, and a query sees the keys up to its own position. */
  ghost predicate Fits(q: Heads, k: Heads, v: Heads, nHeads: nat, nKv: nat, dim: nat, offset: nat) {
    && Shaped(q, nHeads, dim) && Shaped(k, nKv, dim) && Shaped(v, nKv, dim) && |k| == |v|
    && nKv > 0 && nHeads % nKv == 0 && offset + |q| <= |k|
  }

  lemma GroupHead(nHeads: nat, nKv: nat, h: nat)
    requires nKv > 0 && nHeads % nKv == 0 && h < nHeads
    ensures nHeads / nKv > 0 && h / (nHeads / nKv) < nKv
  {
    var group := nHeads / nKv;
    Division(nHeads, nKv);
    assert group * nKv == nKv * group;
    QuotientBelow(h, group, nKv);
  }

  /** Causal grouped-query attention of query i, head h, coordinate d. */
  ghost function Attended(exp: real -> real, q: Heads, k: Heads, v: Heads, nHeads: nat, nKv: nat, dim: nat,
                          offset: nat, scale: real,
                          i: nat, h: nat, d: nat): real
    requires ExpLaws(exp) && Fits(q, k, v, nHeads, nKv, dim, offset) && i < |q| && h < nHeads && d < dim
  {
    GroupHead(nHeads, nKv, h);
    var kvh := h / (nHeads / nKv);
    Mean(exp, q[i][h], HeadRows(k, nKv, dim, kvh, offset + i + 1), HeadRows(v, nKv, dim, kvh, offset + i + 1), scale, d)
  }

  /** A tensor's rows seen as heads of coordinates. */
  function ByHead(t: Matrix, heads: nat, dim: nat): (rows: Heads)
    requires t.Valid() && t.cols == heads * dim
    ensures |rows| == t.rows && Shaped(rows, heads, dim)
  {
    seq(t.rows, i requires 0 <= i < t.rows =>
      seq(heads, h requires 0 <= h < heads => HeadSlice(t.data[i], heads, dim, h)))
  }

  function HeadSlice(row: seq<real>, heads: nat, dim: nat, h: nat): (slice: seq<real>)
    requires |row| == heads * dim && h < heads
    ensures |slice| == dim
  {
    MulMonotone(h + 1, heads, dim);
    MulStep(h, dim);
    row[h * dim..h * dim + dim]
  }

  /** The slices of all heads, side by side, are the row. */
  function JoinSlices(row: seq<real>, heads: nat, dim: nat, n: nat): seq<real>
    requires |row| == heads * dim && n <= heads
  {
    if n == 0 then [] else JoinSlices(row, heads, dim, n - 1) + HeadSlice(row, heads, dim, n - 1)
  }

  lemma {:induction false} SlicesJoin(row: seq<real>, heads: nat, dim: nat, n: nat)
    requires |row| == heads * dim && n <= heads
    ensures n * dim <= |row| && JoinSlices(row, heads, dim, n) == row[..n * dim]
  {
    MulMonotone(n, heads, dim);
    if n > 0 {
      SlicesJoin(row, heads, dim, n - 1);
      MulStep(n - 1, dim);
      assert row[..n * dim] == row[..(n - 1) * dim] + row[(n - 1) * dim..n * dim];
    }
  }

  /** The shapes the reference accepts. */
  predicate ShapesOk(q: Matrix, k: Matrix, v: Matrix, nHeads: nat, nKv: nat, dim: nat, offset: int) {
    && q.cols == nHeads * dim && v.rows == k.rows && k.cols == nKv * dim && v.cols == nKv * dim
    && nKv > 0 && nHeads % nKv == 0 && 0 <= offset && offset + q.rows <= k.rows
  }

  /** The reference: head by head, query by query, in two passes, unless some shape does not fit. */
  method Attention(exp: real -> real, q: Matrix, k: Matrix, v: Matrix, nHeads: nat, nKv: nat, dim: nat, offset: int,
                   scale: real)
    returns (r: Result<array3<real>>)
    requires ExpLaws(exp) && q.Valid() && k.Valid() && v.Valid()
    ensures r.Ok? <==> ShapesOk(q, k, v, nHeads, nKv, dim, offset)
    ensures r.Throws? ==> r.error == InvalidArgument
    ensures r.Ok? ==>
              var qh, kh, vh := ByHead(q, nHeads, dim), ByHead(k, nKv, dim), ByHead(v, nKv, dim);
              AllAttended(exp, qh, kh, vh, nHeads, nKv, dim, offset, scale, r.value)
  {
    hide ExpLaws, Attended, ByHead, Shaped;
    if q.cols != nHeads * dim {
      return Throws(InvalidArgument);
    }
    if v.rows != k.rows || k.cols != nKv * dim || v.cols != nKv * dim {
      return Throws(InvalidArgument);
    }
    if nKv == 0 || nHeads % nKv != 0 {
      return Throws(InvalidArgument);
    }
    if offset < 0 || offset + q.rows > k.rows {
      return Throws(InvalidArgument);
    }
    var out := AttendHeads(exp, ByHead(q, nHeads, dim), ByHead(k, nKv, dim), ByHead(v, nKv, dim), nHeads, nKv, dim,
                           offset, scale);
    return Ok(out);
  }

  /** Every entry is the causal grouped-query attention of its query, head and coordinate. */
  ghost predicate AllAttended(exp: real -> real, q: Heads, k: Heads, v: Heads, nHeads: nat, nKv: nat, dim: nat,
                              offset: nat, scale: real, out: array3<real>)
    reads out
  {
    && ExpLaws(exp) && Fits(q, k, v, nHeads, nKv, dim, offset)
    && out.Length0 == |q| && out.Length1 == nHeads && out.Length2 == dim
    && forall i, h, d :: 0 <= i < |q| && 0 <= h < nHeads && 0 <= d < dim ==>
         out[i, h, d] == Attended(exp, q, k, v, nHeads, nKv, dim, offset, scale, i, h, d)
  }

  lemma GroupOf(nHeads: nat, nKv: nat, group: nat, g: nat, m: nat)
    requires nHeads == group * nKv && g < nKv && m < group
    ensures nKv > 0 && nHeads % nKv == 0 && nHeads / nKv == group
    ensures g * group + m < nHeads && (g * group + m) / group == g
  {
    QuotientOf(nKv, group, 0);
    QuotientOf(group, g, m);
    MulMonotone(g + 1, nKv, group);
    MulStep(g, group);
  }

  /** The rows a query sees of one head are the same. */
  ghost predicate SameSeen(t: Heads, u: Heads, g: nat, n: nat) {
    n <= |t| && n <= |u| && forall j :: 0 <= j < n ==> g < |t[j]| && g < |u[j]| && t[j][g] == u[j][g]
  }

  /**
   With nHeads / nKv query heads to a key head, head m of group g reads key head g and no other, and no row
   after its own: whatever else changes, its result stays.
   */
  lemma HeadReadsItsGroup(exp: real -> real, q: Heads, k: Heads, v: Heads, q2: Heads, k2: Heads, v2: Heads, nHeads: nat,
                          nKv: nat, dim: nat, offset: nat, scale: real, out: array3<real>, out2: array3<real>,
                          group: nat, g: nat, m: nat, i: nat, d: nat)
    requires AllAttended(exp, q, k, v, nHeads, nKv, dim, offset, scale, out)
    requires AllAttended(exp, q2, k2, v2, nHeads, nKv, dim, offset, scale, out2)
    requires nHeads == group * nKv && g < nKv && m < group && i < |q| && i < |q2| && d < dim
    requires g * group + m < |q[i]| && g * group + m < |q2[i]| && q[i][g * group + m] == q2[i][g * group + m]
    requires SameSeen(k, k2, g, offset + i + 1) && SameSeen(v, v2, g, offset + i + 1)
    ensures g * group + m < nHeads && out[i, g * group + m, d] == out2[i, g * group + m, d]
  {
    hide Mean, ExpLaws;
    GroupOf(nHeads, nKv, group, g, m);
    var h, n := g * group + m, offset + i + 1;
    GroupHead(nHeads, nKv, h);
    assert HeadRows(k, nKv, dim, g, n) == HeadRows(k2, nKv, dim, g, n);
    assert HeadRows(v, nKv, dim, g, n) == HeadRows(v2, nKv, dim, g, n);
    assert out[i, h, d] == Attended(exp, q, k, v, nHeads, nKv, dim, offset, scale, i, h, d);
    assert out2[i, h, d] == Attended(exp, q2, k2, v2, nHeads, nKv, dim, offset, scale, i, h, d);
  }

  /** A query that sees one row returns its own group's value. */
  lemma OneRowIsItsValue(exp: real -> real, q: Heads, k: Heads, v: Heads, nHeads: nat, nKv: nat, dim: nat, scale: real,
                         out: array3<real>, group: nat, g: nat, m: nat, d: nat)
    requires AllAttended(exp, q, k, v, nHeads, nKv, dim, 0, scale, out) && q != []
    requires nHeads == group * nKv && g < nKv && m < group && d < dim
    ensures g * group + m < nHeads && out[0, g * group + m, d] == v[0][g][d]
  {
    GroupOf(nHeads, nKv, group, g, m);
    var h := g * group + m;
    GroupHead(nHeads, nKv, h);
    assert out[0, h, d] == Attended(exp, q, k, v, nHeads, nKv, dim, 0, scale, 0, h, d);
    var ks, vs := HeadRows(k, nKv, dim, g, 1), HeadRows(v, nKv, dim, g, 1);
    hide ExpLaws, Scores;
    OneValue(exp, Scores(q[0][h], ks, scale), Column(vs, d));
  }

  lemma OneValue(exp: real -> real, s: seq<real>, v: seq<real>)
    requires ExpLaws(exp) && |s| == |v| == 1
    ensures SoftmaxMean(exp, s, v) == v[0]
  {
    MeanIsBetween(exp, s, v, v[0], v[0]);
  }

  /** Every row up to the query's own counts: a larger value in one of them gives a larger result. */
  lemma EveryRowCounts(exp: real -> real, q: Heads, k: Heads, v: Heads, v2: Heads, nHeads: nat, nKv: nat, dim: nat,
                       offset: nat, scale: real, out: array3<real>, out2: array3<real>, group: nat, g: nat, m: nat,
                       i: nat, d: nat, j: nat)
    requires AllAttended(exp, q, k, v, nHeads, nKv, dim, offset, scale, out)
    requires AllAttended(exp, q, k, v2, nHeads, nKv, dim, offset, scale, out2)
    requires nHeads == group * nKv && g < nKv && m < group && i < |q| && d < dim && j <= offset + i
    requires v[j][g][d] < v2[j][g][d]
    requires forall r :: 0 <= r <= offset + i && r != j ==> v2[r][g] == v[r][g]
    ensures g * group + m < nHeads && out[i, g * group + m, d] < out2[i, g * group + m, d]
  {
    hide ExpLaws, Scores, SoftmaxMean;
    GroupOf(nHeads, nKv, group, g, m);
    var h, n := g * group + m, offset + i + 1;
    GroupHead(nHeads, nKv, h);
    assert out[i, h, d] == Attended(exp, q, k, v, nHeads, nKv, dim, offset, scale, i, h, d);
    assert out2[i, h, d] == Attended(exp, q, k, v2, nHeads, nKv, dim, offset, scale, i, h, d);
    var s := Scores(q[i][h], HeadRows(k, nKv, dim, g, n), scale);
    LargerValue(exp, s, Column(HeadRows(v, nKv, dim, g, n), d), Column(HeadRows(v2, nKv, dim, g, n), d), j);
  }

  method AttendHeads(exp: real -> real, q: Heads, k: Heads, v: Heads, nHeads: nat, nKv: nat, dim: nat, offset: nat,
                     scale: real)
    returns (out: array3<real>)
    requires ExpLaws(exp) && Fits(q, k, v, nHeads, nKv, dim, offset)
    ensures AllAttended(exp, q, k, v, nHeads, nKv, dim, offset, scale, out)
  {
    hide ExpLaws, Attended, Fits;
    out := new real[|q|, nHeads, dim]((i, h, d) => 0.0);
    var h := 0;
    while h < nHeads
      invariant 0 <= h <= nHeads
      invariant forall i, g, d :: 0 <= i < |q| && 0 <= g < h && 0 <= d < dim ==>
                  out[i, g, d] == Attended(exp, q, k, v, nHeads, nKv, dim, offset, scale, i, g, d)
    {
      var i := 0;
      while i < |q|
        invariant 0 <= i <= |q|
        invariant forall j, g, d :: 0 <= j < |q| && 0 <= g < nHeads && 0 <= d < dim && (g < h || (g == h && j < i)) ==>
                    out[j, g, d] == Attended(exp, q, k, v, nHeads, nKv, dim, offset, scale, j, g, d)
      {
        var row := AttendQuery(exp, q, k, v, nHeads, nKv, dim, offset, scale, i, h);
        StoreRow(out, i, h, row);
        i := i + 1;
      }
      h := h + 1;
    }
  }

  /** One head and query in two passes. */
  method AttendQuery(exp: real -> real, q: Heads, k: Heads, v: Heads, nHeads: nat, nKv: nat, dim: nat, offset: nat,
                     scale: real, i: nat, h: nat)
    returns (row: array<real>)
    requires ExpLaws(exp) && Fits(q, k, v, nHeads, nKv, dim, offset) && i < |q| && h < nHeads
    ensures fresh(row) && row.Length == dim
    ensures forall d :: 0 <= d < dim ==> row[d] == Attended(exp, q, k, v, nHeads, nKv, dim, offset, scale, i, h, d)
  {
    hide ExpLaws, Mean;
    GroupHead(nHeads, nKv, h);
    var kvh := h / (nHeads / nKv);
    var last := offset + i + 1;
    row := TwoPass(exp, q[i][h], HeadRows(k, nKv, dim, kvh, last), HeadRows(v, nKv, dim, kvh, last), scale);
  }

  /** One (head, query) result written out. */
  method StoreRow(out: array3<real>, i: nat, h: nat, row: array<real>)
    requires i < out.Length0 && h < out.Length1 && row.Length == out.Length2
    modifies out
    ensures forall j, g, d :: 0 <= j < out.Length0 && 0 <= g < out.Length1 && 0 <= d < out.Length2 ==>
              out[j, g, d] == if j == i && g == h then row[d] else old(out[j, g, d])
  {
    var d := 0;
    while d < row.Length
      invariant 0 <= d <= row.Length
      invariant forall j, g, e :: 0 <= j < out.Length0 && 0 <= g < out.Length1 && 0 <= e < out.Length2 ==>
                  out[j, g, e] == if j == i && g == h && e < d then row[e] else old(out[j, g, e])
    {
      out[i, h, d] := row[d];
      d := d + 1;
    }
  }

  /**
   The kernel: one thread per (head, query), each with the online softmax from the sentinel maximum.
   Threads write disjoint rows, so the order in which they run does not matter.
   */
  method AttentionKernel(exp: real -> real, q: Heads, k: Heads, v: Heads, out: array3<real>, nHeads: nat, nKv: nat,
                         dim: nat, offset: nat,
                         scale: real, sentinel: real)
    requires ExpLaws(exp) && Fits(q, k, v, nHeads, nKv, dim, offset)
    requires out.Length0 == |q| && out.Length1 == nHeads && out.Length2 == dim
    modifies out
    ensures forall i, h, d :: 0 <= i < |q| && 0 <= h < nHeads && 0 <= d < dim ==>
              out[i, h, d] == Attended(exp, q, k, v, nHeads, nKv, dim, offset, scale, i, h, d)
  {
    hide ExpLaws, Fits, Attended, Thread, Threads, HeadOf, QueryOf;
    var idx := 0;
    while idx < Threads(nHeads, |q|)
      invariant 0 <= idx <= Threads(nHeads, |q|)
      invariant forall i, h, d :: 0 <= i < |q| && 0 <= h < nHeads && 0 <= d < dim && Thread(|q|, h, i) < idx ==>
                  out[i, h, d] == Attended(exp, q, k, v, nHeads, nKv, dim, offset, scale, i, h, d)
    {
      ThreadOf(nHeads, |q|, idx);
      var h, i := HeadOf(|q|, idx), QueryOf(|q|, idx);
      KernelThread(exp, q, k, v, out, nHeads, nKv, dim, offset, scale, sentinel, h, i);
      forall j, g | 0 <= j < |q| && 0 <= g < nHeads && Thread(|q|, g, j) == idx
        ensures j == i && g == h
      {
        ThreadUnique(|q|, g, j, h, i);
      }
      idx := idx + 1;
    }
    forall i, h | 0 <= i < |q| && 0 <= h < nHeads
      ensures Thread(|q|, h, i) < Threads(nHeads, |q|)
    {
      ThreadBelow(nHeads, |q|, h, i);
    }
  }

  method KernelThread(exp: real -> real, q: Heads, k: Heads, v: Heads, out: array3<real>, nHeads: nat, nKv: nat,
                      dim: nat, offset: nat,
                      scale: real, sentinel: real, h: nat, i: nat)
    requires ExpLaws(exp) && Fits(q, k, v, nHeads, nKv, dim, offset) && h < nHeads && i < |q|
    requires out.Length0 == |q| && out.Length1 == nHeads && out.Length2 == dim
    modifies out
    ensures forall j, g, d :: 0 <= j < |q| && 0 <= g < nHeads && 0 <= d < dim ==>
              out[j, g, d]
              == if j == i && g == h then Attended(exp, q, k, v, nHeads, nKv, dim, offset, scale, i, h, d)
                 else old(out[j, g, d])
  {
    hide ExpLaws, Mean;
    GroupHead(nHeads, nKv, h);
    var kvh := h / (nHeads / nKv);
    var last := offset + i + 1;
    var row := OnlineThread(exp, q[i][h], HeadRows(k, nKv, dim, kvh, last), HeadRows(v, nKv, dim, kvh, last), scale,
                            sentinel);
    StoreRow(out, i, h, row);
  }

  /** One thread per (head, query). */
  function Threads(heads: nat, n: nat): nat {
    heads * n
  }

  function Thread(n: nat, h: nat, i: nat): nat {
    h * n + i
  }

  function HeadOf(n: nat, idx: nat): nat
    requires n > 0
  {
    idx / n
  }

  function QueryOf(n: nat, idx: nat): nat
    requires n > 0
  {
    idx % n
  }

  lemma ThreadOf(heads: nat, n: nat, idx: nat)
    requires idx < Threads(heads, n)
    ensures n > 0 && HeadOf(n, idx) < heads && QueryOf(n, idx) < n && Thread(n, HeadOf(n, idx), QueryOf(n, idx)) == idx
  {
    Division(idx, n);
    QuotientBelow(idx, n, heads);
  }

  lemma ThreadUnique(n: nat, g: nat, j: nat, h: nat, i: nat)
    requires j < n && i < n && Thread(n, g, j) == Thread(n, h, i)
    ensures g == h && j == i
  {
    DivisionUnique(n, g, j, h, i);
  }

  lemma ThreadBelow(heads: nat, n: nat, h: nat, i: nat)
    requires h < heads && i < n
    ensures Thread(n, h, i) < Threads(heads, n)
  {
    MulMonotone(h + 1, heads, n);
    MulStep(h, n);
  }
}
