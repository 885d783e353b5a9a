/** Row-wise symmetric int8 quantization over exact reals, and the linear layer on quantized weights. */
module Quantization {
  import opened Results
  import opened Linears

  /** One integer code per weight and one scale per row. */
  datatype QuantizedMatrix = QuantizedMatrix(rows: nat, cols: nat, data: seq<seq<int>>, scales: seq<real>) {
    predicate Valid() {
      |data| == |scales| == rows && forall o :: 0 <= o < rows ==> |data[o]| == cols
    }
  }

  function Abs(x: real): real {
    if x < 0.0 then -x else x
  }

  /** Nearest integer, halves away from zero. */
  function Round(x: real): int {
    if x >= 0.0 then (x + 0.5).Floor else -((-x + 0.5).Floor)
  }

  function Clamp(r: int): int {
    if r > 127 then 127 else if r < -127 then -127 else r
  }

  // ---- Quantizing one row -------------------------------------------------------------------

  /** The largest magnitude of the row; 0 for an empty one. */
  function MaxAbs(row: seq<real>): (m: real)
    ensures m >= 0.0 && forall i :: 0 <= i < |row| ==> Abs(row[i]) <= m
    ensures m > 0.0 ==> exists i :: 0 <= i < |row| && Abs(row[i]) == m
  {
    if row == [] then 0.0
    else
      var m := MaxAbs(row[..|row| - 1]);
      var a := Abs(row[|row| - 1]);
      assert forall i :: 0 <= i < |row| - 1 ==> row[i] == row[..|row| - 1][i];
      if m < a then a else m
  }

  function ScaleOf(amax: real): (s: real)
    requires amax >= 0.0
    ensures s > 0.0
  {
    if amax > 0.0 then amax / 127.0 else 1.0
  }

  function Code(w: real, scale: real): int
    requires scale > 0.0
  {
    Clamp(Round(Times(w, 1.0 / scale)))
  }

  function Codes(row: seq<real>, scale: real): (c: seq<int>)
    requires scale > 0.0
    ensures |c| == |row|
  {
    seq(|row|, i requires 0 <= i < |row| => Code(row[i], scale))
  }

  /** The quantized form of a matrix. */
  function Quantized(w: Matrix): (q: QuantizedMatrix)
    requires w.Valid()
    ensures q.Valid() && q.rows == w.rows && q.cols == w.cols
  {
    QuantizedMatrix(w.rows, w.cols,
                    seq(w.rows, o requires 0 <= o < w.rows => Codes(w.data[o], ScaleOf(MaxAbs(w.data[o])))),
                    seq(w.rows, o requires 0 <= o < w.rows => ScaleOf(MaxAbs(w.data[o]))))
  }

  /** One row: the largest magnitude, the scale, then the codes. */
  method QuantizeRow(row: seq<real>) returns (codes: seq<int>, scale: real)
    ensures scale == ScaleOf(MaxAbs(row)) && codes == Codes(row, scale)
  {
    hide Round;
    var amax, i := 0.0, 0;
    while i < |row|
      invariant 0 <= i <= |row| && amax == MaxAbs(row[..i])
    {
      assert row[..i + 1][..i] == row[..i];
      amax := if amax < Abs(row[i]) then Abs(row[i]) else amax;
      i := i + 1;
    }
    assert row[..i] == row;
    scale := if amax > 0.0 then amax / 127.0 else 1.0;
    var inv := 1.0 / scale;
    codes := CodeAll(row, scale, inv);
  }

  method CodeAll(row: seq<real>, scale: real, inv: real) returns (codes: seq<int>)
    requires scale > 0.0 && inv == 1.0 / scale
    ensures codes == Codes(row, scale)
  {
    hide Round, Times;
    codes := [];
    while |codes| < |row|
      invariant |codes| <= |row| && forall i :: 0 <= i < |codes| ==> codes[i] == Code(row[i], scale)
    {
      var r := Round(Times(row[|codes|], inv));
      r := if r > 127 then 127 else if r < -127 then -127 else r;
      codes := codes + [r];
    }
  }

  method QuantizeRowwise(w: Matrix) returns (q: QuantizedMatrix)
    requires w.Valid()
    ensures q == Quantized(w)
  {
    hide Codes, ScaleOf, MaxAbs;
    var data: seq<seq<int>>, scales: seq<real> := [], [];
    while |data| < w.rows
      invariant |data| == |scales| <= w.rows
      invariant forall o :: 0 <= o < |data| ==>
                  scales[o] == ScaleOf(MaxAbs(w.data[o])) && data[o] == Codes(w.data[o], scales[o])
    {
      var codes, scale := QuantizeRow(w.data[|data|]);
      data, scales := data + [codes], scales + [scale];
    }
    q := QuantizedMatrix(w.rows, w.cols, data, scales);
    assert data == Quantized(w).data && scales == Quantized(w).scales;
  }

  // ---- What the codes mean ------------------------------------------------------------------

  lemma RoundNear(x: real)
    ensures -0.5 <= Round(x) as real - x <= 0.5
  {
  }

  lemma RoundWithin(x: real, n: int)
    requires -(n as real) <= x <= n as real
    ensures -n <= Round(x) <= n
  {
  }

  lemma RoundExact(n: int)
    ensures Round(n as real) == n
  {
  }

  /** Halves go away from zero. */
  lemma RoundTies(n: nat)
    ensures Round(n as real + 0.5) == n + 1 && Round(-(n as real + 0.5)) == -(n + 1)
  {
  }

  lemma Divides(s: real, a: real, b: real)
    requires s > 0.0 && Times(a, s) <= Times(b, s)
    ensures a <= b
  {
  }

  lemma InverseTimes(w: real, s: real)
    requires s > 0.0
    ensures Times(Times(w, 1.0 / s), s) == w
  {
    assert (1.0 / s) * s == 1.0;
    assert w * (1.0 / s) * s == w * ((1.0 / s) * s);
  }

  lemma ScaleSpans(amax: real)
    requires amax > 0.0
    ensures Times(127.0, ScaleOf(amax)) == amax && Times(-127.0, ScaleOf(amax)) == -amax
  {
  }

  /** A weight in units of the scale of its row lies in [-127, 127]. */
  lemma InUnits(w: real, amax: real)
    requires amax >= 0.0 && Abs(w) <= amax
    ensures -127.0 <= Times(w, 1.0 / ScaleOf(amax)) <= 127.0
  {
    var s := ScaleOf(amax);
    InverseTimes(w, s);
    if amax > 0.0 {
      ScaleSpans(amax);
      hide Times, ScaleOf;
      Divides(s, Times(w, 1.0 / s), 127.0);
      Divides(s, -127.0, Times(w, 1.0 / s));
    }
  }

  /** What a code stands for under its row's scale. */
  function Decode(n: int, s: real): real {
    Times(n as real, s)
  }

  /** Decoding is off by half a scale at most. */
  predicate Near(n: int, w: real, s: real) {
    Abs(Decode(n, s) - w) <= s / 2.0
  }

  /** The clamp never acts, codes lie in [-127, 127], and decoding is off by half a scale at most. */
  lemma CodeIsNear(w: real, amax: real)
    requires amax >= 0.0 && Abs(w) <= amax
    ensures var s := ScaleOf(amax);
            && Code(w, s) == Round(Times(w, 1.0 / s)) && -127 <= Code(w, s) <= 127
            && Near(Code(w, s), w, s)
  {
    var s := ScaleOf(amax);
    var x := Times(w, 1.0 / s);
    InUnits(w, amax);
    RoundWithin(x, 127);
    RoundNear(x);
    InverseTimes(w, s);
    hide Round, ScaleOf, Times;
    HalfScale(Round(x) as real, x, w, s);
  }

  lemma HalfScale(r: real, x: real, w: real, s: real)
    requires -0.5 <= r - x <= 0.5 && s > 0.0 && Times(x, s) == w
    ensures Abs(Times(r, s) - w) <= s / 2.0
  {
    Products(0.5 - (r - x), s);
    Products(r - x + 0.5, s);
  }

  lemma Products(a: real, b: real)
    requires a >= 0.0 && b >= 0.0
    ensures a * b >= 0.0
  {
  }

  // ---- Quantizing what was decoded ----------------------------------------------------------

  /** The row a quantized row stands for. */
  function DecodedRow(codes: seq<int>, scale: real): (row: seq<real>)
    ensures |row| == |codes|
  {
    seq(|codes|, i requires 0 <= i < |codes| => Decode(codes[i], scale))
  }

  function Decoded(q: QuantizedMatrix): (w: Matrix)
    requires q.Valid()
    ensures w.Valid() && w.rows == q.rows && w.cols == q.cols
  {
    Matrix(q.rows, q.cols, seq(q.rows, o requires 0 <= o < q.rows => DecodedRow(q.data[o], q.scales[o])))
  }

  lemma MaxAbsIs(row: seq<real>, m: real)
    requires m >= 0.0 && (forall i :: 0 <= i < |row| ==> Abs(row[i]) <= m)
    requires m > 0.0 ==> exists i :: 0 <= i < |row| && Abs(row[i]) == m
    ensures MaxAbs(row) == m
  {
  }

  lemma UnitsOf(n: real, s: real)
    requires s > 0.0
    ensures Times(Times(n, s), 1.0 / s) == n
  {
    assert s * (1.0 / s) == 1.0;
    assert n * s * (1.0 / s) == n * (s * (1.0 / s));
  }

  /** A decoded code is coded back. */
  lemma CodeOfDecoded(n: int, s: real)
    requires -127 <= n <= 127 && s > 0.0
    ensures Code(Decode(n, s), s) == n
  {
    UnitsOf(n as real, s);
    RoundExact(n);
    hide Round, Times;
  }

  /** The extreme weight of a row gets the code 127 or -127, and zero gets 0. */
  lemma ExtremeCode(w: real, amax: real)
    requires amax >= 0.0 && Abs(w) == amax
    ensures Abs(Decode(Code(w, ScaleOf(amax)), ScaleOf(amax))) == amax
  {
    var s := ScaleOf(amax);
    var n := if amax == 0.0 then 0 else if w < 0.0 then -127 else 127;
    if amax > 0.0 {
      ScaleSpans(amax);
    }
    assert w == Decode(n, s);
    CodeOfDecoded(n, s);
  }

  /** It gets 127 or -127, so that no scale is finer. */
  lemma ExtremeIs127(w: real, amax: real)
    requires amax > 0.0 && Abs(w) == amax
    ensures Code(w, ScaleOf(amax)) == if w < 0.0 then -127 else 127
  {
    var s := ScaleOf(amax);
    ScaleSpans(amax);
    CodeOfDecoded(if w < 0.0 then -127 else 127, s);
  }

  lemma ScaledMagnitude(n: int, s: real)
    requires -127 <= n <= 127 && s > 0.0
    ensures Abs(Decode(n, s)) <= Times(127.0, s)
  {
    Products(127.0 - n as real, s);
    Products(127.0 + n as real, s);
  }

  /** Decoding and quantizing a row again gives the same scale and the same codes. */
  lemma RowIdempotent(row: seq<real>)
    ensures var s := ScaleOf(MaxAbs(row));
            var again := DecodedRow(Codes(row, s), s);
            MaxAbs(again) == MaxAbs(row) && Codes(again, s) == Codes(row, s)
  {
    hide ScaleOf, Code, Decode;
    var amax := MaxAbs(row);
    var s := ScaleOf(amax);
    var again := DecodedRow(Codes(row, s), s);
    forall i | 0 <= i < |row|
      ensures Abs(again[i]) <= amax && Code(again[i], s) == Code(row[i], s)
      ensures Abs(row[i]) == amax ==> Abs(again[i]) == amax
    {
      DecodedAgain(row[i], amax);
    }
    if amax > 0.0 {
      var i :| 0 <= i < |row| && Abs(row[i]) == amax;
      assert Abs(again[i]) == amax;
    }
    MaxAbsIs(again, amax);
  }

  lemma DecodedAgain(w: real, amax: real)
    requires amax >= 0.0 && Abs(w) <= amax
    ensures var s := ScaleOf(amax);
            var again := Decode(Code(w, s), s);
            && Abs(again) <= amax && Code(again, s) == Code(w, s) && (Abs(w) == amax ==> Abs(again) == amax)
  {
    var s := ScaleOf(amax);
    CodeIsNear(w, amax);
    ScaledMagnitude(Code(w, s), s);
    CodeOfDecoded(Code(w, s), s);
    if Abs(w) == amax {
      ExtremeCode(w, amax);
    }
    if amax > 0.0 {
      ScaleSpans(amax);
    }
    hide Code, Decode, Times;
  }

  /** Quantization is idempotent. */
  lemma QuantizeIdempotent(w: Matrix)
    requires w.Valid()
    ensures Quantized(Decoded(Quantized(w))) == Quantized(w)
  {
    var q := Quantized(w);
    var d := Decoded(q);
    hide Codes, ScaleOf, MaxAbs, DecodedRow;
    forall o | 0 <= o < w.rows
      ensures Quantized(d).data[o] == q.data[o] && Quantized(d).scales[o] == q.scales[o]
    {
      RowIdempotent(w.data[o]);
    }
    assert Quantized(d).data == q.data && Quantized(d).scales == q.scales;
  }

  // ---- The linear layer on quantized weights ------------------------------------------------

  function AsReals(codes: seq<int>): (r: seq<real>)
    ensures |r| == |codes|
  {
    seq(|codes|, i requires 0 <= i < |codes| => codes[i] as real)
  }

  /** Entry (r, o): the dot product with the codes, scaled afterwards, plus the bias. */
  function Int8At(x: Matrix, q: QuantizedMatrix, bias: seq<real>, r: nat, o: nat): real
    requires x.Valid() && q.Valid() && x.cols == q.cols && (bias == [] || |bias| == q.rows) && r < x.rows && o < q.rows
  {
    Times(Dot(x.data[r], AsReals(q.data[o])), q.scales[o]) + (if bias == [] then 0.0 else bias[o])
  }

  method LinearInt8(x: Matrix, q: QuantizedMatrix, bias: seq<real>) returns (r: Result<Matrix>)
    requires x.Valid() && q.Valid()
    ensures r.Ok? <==> x.cols == q.cols && (bias == [] || |bias| == q.rows)
    ensures r.Throws? ==> r.error == InvalidArgument
    ensures r.Ok? ==>
              && r.value.Valid() && r.value.rows == x.rows && r.value.cols == q.rows
              && forall s, o :: 0 <= s < x.rows && 0 <= o < q.rows ==> r.value.data[s][o] == Int8At(x, q, bias, s, o)
  {
    hide Dot;
    if x.cols != q.cols || (bias != [] && |bias| != q.rows) {
      return Throws(InvalidArgument);
    }
    var data: seq<seq<real>> := [];
    while |data| < x.rows
      invariant |data| <= x.rows
      invariant forall s :: 0 <= s < |data| ==> |data[s]| == q.rows && forall o :: 0 <= o < q.rows ==>
                  data[s][o] == Int8At(x, q, bias, s, o)
    {
      var row: seq<real> := [];
      while |row| < q.rows
        invariant |row| <= q.rows && forall o :: 0 <= o < |row| ==> row[o] == Int8At(x, q, bias, |data|, o)
      {
        var o := |row|;
        var acc := DotLoop(x.data[|data|], AsReals(q.data[o]));
        var value := Times(acc, q.scales[o]);
        if bias != [] {
          value := value + bias[o];
        }
        row := row + [value];
      }
      data := data + [row];
    }
    r := Ok(Matrix(x.rows, q.rows, data));
  }

  function SumAbs(x: seq<real>): real {
    if x == [] then 0.0 else SumAbs(x[..|x| - 1]) + Abs(x[|x| - 1])
  }

  /** Half a scale per weight, weighted by the inputs. */
  lemma {:induction false} DotError(x: seq<real>, w: seq<real>, codes: seq<int>, s: real)
    requires |x| == |w| == |codes| && s > 0.0 && forall i :: 0 <= i < |w| ==> Near(codes[i], w[i], s)
    ensures Abs(Times(Dot(x, AsReals(codes)), s) - Dot(x, w)) <= Times(s / 2.0, SumAbs(x))
  {
    if x == [] {
      assert Times(0.0, s) == 0.0 == Times(s / 2.0, 0.0);
    } else {
      hide Times, Near, Abs;
      var n := |x| - 1;
      DotError(x[..n], w[..n], codes[..n], s);
      assert AsReals(codes)[..n] == AsReals(codes[..n]);
      ErrorStep(Dot(x[..n], AsReals(codes[..n])), Dot(x[..n], w[..n]), SumAbs(x[..n]), x[n], w[n], codes[n], s);
    }
  }

  lemma ErrorStep(d: real, e: real, total: real, x: real, w: real, n: int, s: real)
    requires s > 0.0 && Abs(Times(d, s) - e) <= Times(s / 2.0, total) && Near(n, w, s)
    ensures Abs(Times(d + Times(x, n as real), s) - (e + Times(x, w))) <= Times(s / 2.0, total + Abs(x))
  {
    var rest := Decode(n, s) - w;
    ProductBound(x, rest, s / 2.0);
    ErrorAlgebra(d, e, x, w, n as real, s, total, Abs(x), s / 2.0);
  }

  lemma ErrorAlgebra(d: real, e: real, x: real, w: real, c: real, s: real, total: real, ax: real, h: real)
    ensures Times(d + Times(x, c), s) - (e + Times(x, w)) == (Times(d, s) - e) + x * (Times(c, s) - w)
    ensures Times(h, total + ax) == Times(h, total) + h * ax
  {
  }

  lemma ProductBound(x: real, y: real, b: real)
    requires Abs(y) <= b
    ensures Abs(x * y) <= b * Abs(x)
  {
    if x < 0.0 {
      Products(-x, b - y);
      Products(-x, b + y);
    } else {
      Products(x, b - y);
      Products(x, b + y);
    }
  }

  /** The bias is added to the output, entry by entry, after scaling. */
  lemma BiasIsAdded(x: Matrix, q: QuantizedMatrix, bias: seq<real>, r: nat, o: nat)
    requires x.Valid() && q.Valid() && x.cols == q.cols && r < x.rows && o < q.rows && |bias| == q.rows
    ensures Int8At(x, q, bias, r, o) - Int8At(x, q, [], r, o) == bias[o]
  {
    hide Dot, Times;
  }

  /**
   With any bias, the output differs from that of the original weights by at most half a scale times the sum of
   the absolute inputs.
   */
  lemma LinearInt8Error(x: Matrix, w: Matrix, bias: seq<real>, r: nat, o: nat)
    requires x.Valid() && w.Valid() && x.cols == w.cols && r < x.rows && o < w.rows && (bias == [] || |bias| == w.rows)
    ensures var q := Quantized(w);
            var exact := Linear(x, w).data[r][o] + if bias == [] then 0.0 else bias[o];
            Abs(Int8At(x, q, bias, r, o) - exact) <= Times(q.scales[o] / 2.0, SumAbs(x.data[r]))
  {
    hide Dot, SumAbs, ScaleOf, MaxAbs, Times, Near, Code, Abs;
    var row := w.data[o];
    var s := ScaleOf(MaxAbs(row));
    forall i | 0 <= i < |row|
      ensures Near(Codes(row, s)[i], row[i], s)
    {
      CodeIsNear(row[i], MaxAbs(row));
    }
    DotError(x.data[r], row, Codes(row, s), s);
    if bias != [] {
      BiasIsAdded(x, Quantized(w), bias, r, o);
    }
  }
}
