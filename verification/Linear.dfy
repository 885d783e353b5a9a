/** Matrices of exact reals and the linear layer, y = x w^T + bias. */
module Linears {

  /** Row-major: `data` has `rows` rows of `cols` entries. */
  datatype Matrix = Matrix(rows: nat, cols: nat, data: seq<seq<real>>) {
    predicate Valid() {
      |data| == rows && forall r :: 0 <= r < rows ==> |data[r]| == cols
    }
  }

  /** A product, named so that proofs about loops need not see through it. */
  function Times(a: real, b: real): real {
    a * b
  }

  function Dot(a: seq<real>, b: seq<real>): real
    requires |a| == |b|
  {
    if a == [] then 0.0 else Dot(a[..|a| - 1], b[..|b| - 1]) + Times(a[|a| - 1], b[|b| - 1])
  }

  /** A dot product computed by a running sum. */
  method DotLoop(a: seq<real>, b: seq<real>) returns (dot: real)
    requires |a| == |b|
    ensures dot == Dot(a, b)
  {
    hide Times;
    dot := 0.0;
    var d := 0;
    while d < |a|
      invariant 0 <= d <= |a| && dot == Dot(a[..d], b[..d])
    {
      assert a[..d + 1][..d] == a[..d] && b[..d + 1][..d] == b[..d];
      dot := dot + Times(a[d], b[d]);
      d := d + 1;
    }
    assert a[..d] == a && b[..d] == b;
  }

  /** The dot product of concatenations is the sum of the dot products. */
  lemma {:induction false} DotAppend(a: seq<real>, b: seq<real>, c: seq<real>, d: seq<real>)
    requires |a| == |b| && |c| == |d|
    ensures Dot(a + c, b + d) == Dot(a, b) + Dot(c, d)
    decreases |c|
  {
    hide Times;
    if c == [] {
      assert a + c == a && b + d == b;
    } else {
      var n := |c| - 1;
      DotAppend(a, b, c[..n], d[..n]);
      assert (a + c)[..|a + c| - 1] == a + c[..n] && (b + d)[..|b + d| - 1] == b + d[..n];
    }
  }

  /** The linear layer without bias: entry (r, o) is row r of x times row o of w. */
  function Linear(x: Matrix, w: Matrix): (y: Matrix)
    requires x.Valid() && w.Valid() && x.cols == w.cols
    ensures y.Valid() && y.rows == x.rows && y.cols == w.rows
  {
    Matrix(x.rows, w.rows, seq(x.rows, r requires 0 <= r < x.rows => LinearRow(x.data[r], w)))
  }

  function LinearRow(x: seq<real>, w: Matrix): (y: seq<real>)
    requires w.Valid() && |x| == w.cols
    ensures |y| == w.rows
  {
    seq(w.rows, o requires 0 <= o < w.rows => Dot(x, w.data[o]))
  }

  // ---- What the layer computes --------------------------------------------------------------

  /** The row with a one at place i. */
  function Unit(n: nat, i: nat): (u: seq<real>)
    ensures |u| == n
  {
    seq(n, j requires 0 <= j < n => if j == i then 1.0 else 0.0)
  }

  lemma {:induction false} DotUnit(n: nat, i: nat, w: seq<real>)
    requires |w| == n
    ensures Dot(Unit(n, i), w) == if i < n then w[i] else 0.0
  {
    if n > 0 {
      assert Unit(n, i)[..n - 1] == Unit(n - 1, i);
      DotUnit(n - 1, i, w[..n - 1]);
    }
  }

  function Plus(a: seq<real>, b: seq<real>): (c: seq<real>)
    requires |a| == |b|
    ensures |c| == |a|
  {
    seq(|a|, i requires 0 <= i < |a| => a[i] + b[i])
  }

  function Scaled(t: real, a: seq<real>): (c: seq<real>)
    ensures |c| == |a|
  {
    seq(|a|, i requires 0 <= i < |a| => Times(t, a[i]))
  }

  lemma {:induction false} DotLinear(t: real, a: seq<real>, b: seq<real>, w: seq<real>)
    requires |a| == |b| == |w|
    ensures Dot(Plus(Scaled(t, a), b), w) == Times(t, Dot(a, w)) + Dot(b, w)
  {
    if a == [] {
      assert Times(t, 0.0) == 0.0;
    } else {
      hide Times;
      var n := |a| - 1;
      var c := Plus(Scaled(t, a), b);
      assert c[..n] == Plus(Scaled(t, a[..n]), b[..n]);
      DotLinear(t, a[..n], b[..n], w[..n]);
      Spread(t, Dot(a[..n], w[..n]), a[n], b[n], w[n]);
    }
  }

  lemma Spread(t: real, d: real, a: real, b: real, w: real)
    ensures Times(Times(t, a) + b, w) + Times(t, d) == Times(t, d + Times(a, w)) + Times(b, w)
  {
    assert (t * a + b) * w == t * (a * w) + b * w;
    assert t * (d + a * w) == t * d + t * (a * w);
  }

  /** A unit row picks the column of its place: output o is weight i of row o. */
  lemma LinearPicksColumns(x: Matrix, w: Matrix, r: nat, i: nat, o: nat)
    requires x.Valid() && w.Valid() && x.cols == w.cols && r < x.rows && o < w.rows && i < w.cols
    requires x.data[r] == Unit(w.cols, i)
    ensures Linear(x, w).data[r][o] == w.data[o][i]
  {
    DotUnit(w.cols, i, w.data[o]);
  }

  /** Each output is linear in its own row of the input. */
  lemma LinearIsLinear(x: Matrix, y: Matrix, z: Matrix, w: Matrix, t: real, r: nat)
    requires x.Valid() && y.Valid() && z.Valid() && w.Valid() && x.cols == y.cols == z.cols == w.cols
    requires r < x.rows && r < y.rows && r < z.rows && z.data[r] == Plus(Scaled(t, x.data[r]), y.data[r])
    ensures Linear(z, w).data[r] == Plus(Scaled(t, Linear(x, w).data[r]), Linear(y, w).data[r])
  {
    hide Dot, Times;
    forall o | 0 <= o < w.rows {
      DotLinear(t, x.data[r], y.data[r], w.data[o]);
    }
  }
}
