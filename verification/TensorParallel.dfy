/** Tensor parallelism: sharding weights and activations, and putting partial results together. */
module TensorParallel {
  import opened Arithmetic
  import opened Results
  import opened Linears

  /** Where shard s of `per` rows or columns starts. */
  function Offset(s: nat, per: nat): nat {
    s * per
  }

  lemma OffsetNext(s: nat, per: nat)
    ensures Offset(s + 1, per) == Offset(s, per) + per && Offset(0, per) == 0
  {
    MulStep(s, per);
  }

  // ---- Shards -------------------------------------------------------------------------------

  /** The s-th `per` rows. */
  function RowShard(m: Matrix, per: nat, s: nat): (part: Matrix)
    requires m.Valid() && Offset(s, per) + per <= m.rows
    ensures part.Valid() && part.rows == per && part.cols == m.cols
  {
    Matrix(per, m.cols, m.data[Offset(s, per)..Offset(s, per) + per])
  }

  /** The s-th `per` columns of every row. */
  function ColumnShard(m: Matrix, per: nat, s: nat): (part: Matrix)
    requires m.Valid() && Offset(s, per) + per <= m.cols
    ensures part.Valid() && part.rows == m.rows && part.cols == per
  {
    Matrix(m.rows, per, seq(m.rows, r requires 0 <= r < m.rows => m.data[r][Offset(s, per)..Offset(s, per) + per]))
  }

  lemma ShardFits(s: nat, shards: nat, per: nat)
    requires s < shards
    ensures Offset(s, per) + per <= Offset(shards, per)
  {
    MulMonotone(s + 1, shards, per);
    MulStep(s, per);
  }

  lemma Exact(n: nat, shards: nat)
    requires shards > 0 && n % shards == 0
    ensures Offset(shards, n / shards) == n
  {
    Division(n, shards);
  }

  method SplitRows(m: Matrix, shards: int) returns (r: Result<seq<Matrix>>)
    requires m.Valid()
    ensures r.Ok? <==> shards > 0 && m.rows % shards == 0
    ensures r.Throws? ==> r.error == InvalidArgument
    ensures r.Ok? ==> IsRowSplit(m, shards, m.rows / shards, r.value)
  {
    if shards <= 0 || m.rows % shards != 0 {
      return Throws(InvalidArgument);
    }
    hide Offset;
    var per := m.rows / shards;
    Exact(m.rows, shards);
    var parts: seq<Matrix> := [];
    while |parts| < shards
      invariant |parts| <= shards
      invariant forall s :: 0 <= s < |parts| ==> Offset(s, per) + per <= m.rows && parts[s] == RowShard(m, per, s)
    {
      ShardFits(|parts|, shards, per);
      parts := parts + [RowShard(m, per, |parts|)];
    }
    r := Ok(parts);
  }

  ghost predicate IsRowSplit(m: Matrix, shards: nat, per: nat, parts: seq<Matrix>)
    requires m.Valid()
  {
    && |parts| == shards && Offset(shards, per) == m.rows
    && forall s :: 0 <= s < shards ==> Offset(s, per) + per <= m.rows && parts[s] == RowShard(m, per, s)
  }

  method SplitColumns(m: Matrix, shards: int) returns (r: Result<seq<Matrix>>)
    requires m.Valid()
    ensures r.Ok? <==> shards > 0 && m.cols % shards == 0
    ensures r.Throws? ==> r.error == InvalidArgument
    ensures r.Ok? ==> IsColumnSplit(m, shards, m.cols / shards, r.value)
  {
    if shards <= 0 || m.cols % shards != 0 {
      return Throws(InvalidArgument);
    }
    hide Offset;
    var per := m.cols / shards;
    Exact(m.cols, shards);
    var parts: seq<Matrix> := [];
    while |parts| < shards
      invariant |parts| <= shards
      invariant forall s :: 0 <= s < |parts| ==> Offset(s, per) + per <= m.cols && parts[s] == ColumnShard(m, per, s)
    {
      var s := |parts|;
      ShardFits(s, shards, per);
      var part := CopyColumns(m, per, s);
      parts := parts + [part];
    }
    r := Ok(parts);
  }

  /** One shard, row by row. */
  method CopyColumns(m: Matrix, per: nat, s: nat) returns (part: Matrix)
    requires m.Valid() && Offset(s, per) + per <= m.cols
    ensures part == ColumnShard(m, per, s)
  {
    hide Offset;
    var start := Offset(s, per);
    var rows: seq<seq<real>> := [];
    while |rows| < m.rows
      invariant |rows| <= m.rows && forall i :: 0 <= i < |rows| ==> rows[i] == m.data[i][start..start + per]
    {
      rows := rows + [m.data[|rows|][start..start + per]];
    }
    part := Matrix(m.rows, per, rows);
    assert rows == ColumnShard(m, per, s).data;
  }

  ghost predicate IsColumnSplit(m: Matrix, shards: nat, per: nat, parts: seq<Matrix>)
    requires m.Valid()
  {
    && |parts| == shards && Offset(shards, per) == m.cols
    && forall s :: 0 <= s < shards ==> Offset(s, per) + per <= m.cols && parts[s] == ColumnShard(m, per, s)
  }

  // ---- Putting parts together ---------------------------------------------------------------

  predicate SameRows(parts: seq<Matrix>, rows: nat) {
    forall s :: 0 <= s < |parts| ==> parts[s].Valid() && parts[s].rows == rows
  }

  function TotalColumns(parts: seq<Matrix>): nat {
    if parts == [] then 0 else TotalColumns(parts[..|parts| - 1]) + parts[|parts| - 1].cols
  }

  /** Row r of all parts side by side. */
  function JoinedRow(parts: seq<Matrix>, rows: nat, r: nat): (row: seq<real>)
    requires SameRows(parts, rows) && r < rows
    ensures |row| == TotalColumns(parts)
  {
    if parts == [] then [] else JoinedRow(parts[..|parts| - 1], rows, r) + parts[|parts| - 1].data[r]
  }

  method ConcatColumns(parts: seq<Matrix>) returns (r: Result<Matrix>)
    requires forall s :: 0 <= s < |parts| ==> parts[s].Valid()
    ensures r.Ok? <==> parts != [] && SameRows(parts, parts[0].rows)
    ensures r.Throws? ==> r.error == InvalidArgument
    ensures r.Ok? ==>
              && r.value.Valid() && r.value.rows == parts[0].rows && r.value.cols == TotalColumns(parts)
              && forall i :: 0 <= i < r.value.rows ==> r.value.data[i] == JoinedRow(parts, parts[0].rows, i)
  {
    if parts == [] {
      return Throws(InvalidArgument);
    }
    var rows := parts[0].rows;
    var s, cols := 0, 0;
    while s < |parts|
      invariant 0 <= s <= |parts| && SameRows(parts[..s], rows) && cols == TotalColumns(parts[..s])
    {
      if parts[s].rows != rows {
        return Throws(InvalidArgument);
      }
      assert parts[..s + 1][..s] == parts[..s];
      cols := cols + parts[s].cols;
      s := s + 1;
    }
    assert parts[..s] == parts;
    var data: seq<seq<real>> := [];
    while |data| < rows
      invariant |data| <= rows && forall i :: 0 <= i < |data| ==> data[i] == JoinedRow(parts, rows, i)
    {
      var row: seq<real> := [];
      s := 0;
      while s < |parts|
        invariant 0 <= s <= |parts| && SameRows(parts[..s], rows) && row == JoinedRow(parts[..s], rows, |data|)
      {
        assert parts[..s + 1][..s] == parts[..s];
        row := row + parts[s].data[|data|];
        s := s + 1;
      }
      assert parts[..s] == parts;
      data := data + [row];
    }
    r := Ok(Matrix(rows, cols, data));
  }

  function Elements(m: Matrix): nat {
    m.rows * m.cols
  }

  /** Entry j in row-major order. */
  function At(m: Matrix, j: nat): real
    requires m.Valid() && j < Elements(m)
  {
    Unflatten(m.rows, m.cols, j);
    m.data[j / m.cols][j % m.cols]
  }

  lemma Unflatten(rows: nat, cols: nat, j: nat)
    requires j < rows * cols
    ensures cols > 0 && j / cols < rows && j % cols < cols
  {
    Division(j, cols);
    QuotientBelow(j, cols, rows);
  }

  lemma Flattened(m: Matrix, r: nat, c: nat)
    requires m.Valid() && r < m.rows && c < m.cols
    ensures r * m.cols + c < Elements(m) && At(m, r * m.cols + c) == m.data[r][c]
  {
    MulMonotone(r + 1, m.rows, m.cols);
    MulStep(r, m.cols);
    QuotientOf(m.cols, r, c);
  }

  /** All parts have as many entries as the first; their shapes are not compared. */
  predicate SameSize(parts: seq<Matrix>) {
    parts != [] && forall s :: 0 <= s < |parts| ==> parts[s].Valid() && Elements(parts[s]) == Elements(parts[0])
  }

  /** Sum of entry j of the first n parts, all of the given size. */
  function TotalAt(parts: seq<Matrix>, size: nat, n: nat, j: nat): real
    requires n <= |parts| && j < size && forall s :: 0 <= s < n ==> parts[s].Valid() && Elements(parts[s]) == size
  {
    if n == 0 then 0.0 else TotalAt(parts, size, n - 1, j) + At(parts[n - 1], j)
  }

  /** Entries in row-major order as a matrix. */
  function Reshape(flat: seq<real>, rows: nat, cols: nat): (m: Matrix)
    requires |flat| == rows * cols
    ensures m.Valid() && m.rows == rows && m.cols == cols
  {
    Matrix(rows, cols, seq(rows, r requires 0 <= r < rows =>
      seq(cols, c requires 0 <= c < cols => RowMajor(flat, rows, cols, r, c))))
  }

  function RowMajor(flat: seq<real>, rows: nat, cols: nat, r: nat, c: nat): real
    requires |flat| == rows * cols && r < rows && c < cols
  {
    MulMonotone(r + 1, rows, cols);
    MulStep(r, cols);
    flat[r * cols + c]
  }

  lemma ReshapedAt(flat: seq<real>, rows: nat, cols: nat, j: nat)
    requires |flat| == rows * cols && j < |flat|
    ensures j < Elements(Reshape(flat, rows, cols)) && At(Reshape(flat, rows, cols), j) == flat[j]
  {
    Unflatten(rows, cols, j);
    Division(j, cols);
  }

  /** The matrix has the first part's shape and, entry by entry, the sum of all parts. */
  ghost predicate IsSum(parts: seq<Matrix>, m: Matrix)
    requires SameSize(parts)
  {
    && m.Valid() && m.rows == parts[0].rows && m.cols == parts[0].cols && Elements(m) == Elements(parts[0])
    && forall j :: 0 <= j < Elements(m) ==> At(m, j) == TotalAt(parts, Elements(parts[0]), |parts|, j)
  }

  /** Accumulates the parts into a copy of the first; one with another number of entries is refused. */
  method Sum(parts: seq<Matrix>) returns (r: Result<Matrix>)
    requires forall s :: 0 <= s < |parts| ==> parts[s].Valid()
    ensures r.Ok? <==> SameSize(parts)
    ensures r.Throws? ==> r.error == InvalidArgument
    ensures r.Ok? ==> IsSum(parts, r.value)
  {
    hide At, Elements, Reshape;
    if parts == [] {
      return Throws(InvalidArgument);
    }
    var n := Elements(parts[0]);
    var out := new real[n](j requires 0 <= j < n => At(parts[0], j));
    var s := 1;
    while s < |parts|
      invariant 1 <= s <= |parts| && forall i :: 0 <= i < s ==> Elements(parts[i]) == n
      invariant forall j :: 0 <= j < n ==> out[j] == TotalAt(parts, n, s, j)
    {
      if Elements(parts[s]) != n {
        return Throws(InvalidArgument);
      }
      ghost var before := out[..];
      var j := 0;
      while j < n
        invariant 0 <= j <= n
        invariant forall i :: 0 <= i < j ==> out[i] == before[i] + At(parts[s], i)
        invariant forall i :: j <= i < n ==> out[i] == before[i]
      {
        out[j] := out[j] + At(parts[s], j);
        j := j + 1;
      }
      s := s + 1;
    }
    SizeIs(parts[0]);
    r := Ok(Reshape(out[..], parts[0].rows, parts[0].cols));
    SizeIs(r.value);
    forall j | 0 <= j < n
      ensures At(r.value, j) == out[j]
    {
      ReshapedAt(out[..], parts[0].rows, parts[0].cols, j);
    }
  }

  lemma SizeIs(m: Matrix)
    ensures Elements(m) == m.rows * m.cols
  {
  }

  // ---- What sharding preserves --------------------------------------------------------------

  lemma JoinedMore(parts: seq<Matrix>, rows: nat, r: nat, n: nat)
    requires 0 < n <= |parts| && SameRows(parts[..n - 1], rows) && parts[n - 1].Valid() && parts[n - 1].rows == rows
             && r < rows
    ensures SameRows(parts[..n], rows)
            && JoinedRow(parts[..n], rows, r) == JoinedRow(parts[..n - 1], rows, r) + parts[n - 1].data[r]
  {
    assert parts[..n][..n - 1] == parts[..n - 1];
  }

  lemma TakeMore(row: seq<real>, a: nat, b: nat)
    requires a <= b <= |row|
    ensures row[..a] + row[a..b] == row[..b]
  {
  }

  /** Putting column shards side by side gives the matrix back, row by row. */
  lemma {:induction false} JoinInvertsSplit(m: Matrix, shards: nat, per: nat, parts: seq<Matrix>, r: nat, n: nat)
    requires m.Valid() && r < m.rows && n <= |parts| == shards && Offset(shards, per) == m.cols
    requires forall s :: 0 <= s < shards ==> Offset(s, per) + per <= m.cols && parts[s] == ColumnShard(m, per, s)
    ensures Offset(n, per) <= m.cols && SameRows(parts[..n], m.rows)
    ensures JoinedRow(parts[..n], m.rows, r) == m.data[r][..Offset(n, per)]
  {
    hide Offset;
    OffsetNext(0, per);
    if n > 0 {
      JoinInvertsSplit(m, shards, per, parts, r, n - 1);
      OffsetNext(n - 1, per);
      hide JoinedRow, SameRows;
      JoinedMore(parts, m.rows, r, n);
      TakeMore(m.data[r], Offset(n - 1, per), Offset(n, per));
    }
  }

  /** concat_columns inverts split_columns. */
  lemma ColumnsRoundTrip(m: Matrix, shards: nat, parts: seq<Matrix>, r: nat)
    requires m.Valid() && shards > 0 && IsColumnSplit(m, shards, m.cols / shards, parts) && r < m.rows
    ensures SameRows(parts, m.rows) && JoinedRow(parts, m.rows, r) == m.data[r]
  {
    JoinInvertsSplit(m, shards, m.cols / shards, parts, r, shards);
    assert parts[..shards] == parts && m.data[r][..m.cols] == m.data[r];
  }

  /** A weight shard computes its own columns of the output. */
  lemma ShardOutput(x: Matrix, w: Matrix, per: nat, s: nat, r: nat)
    requires x.Valid() && w.Valid() && x.cols == w.cols && r < x.rows && Offset(s, per) + per <= w.rows
    ensures Linear(x, RowShard(w, per, s)).data[r] == Linear(x, w).data[r][Offset(s, per)..Offset(s, per) + per]
  {
    hide Dot;
  }

  /** Column parallelism: each shard owns some output columns. */
  lemma {:induction false} ColumnParallel(x: Matrix, w: Matrix, shards: nat, per: nat, parts: seq<Matrix>, r: nat,
                                          n: nat)
    requires x.Valid() && w.Valid() && x.cols == w.cols && r < x.rows && n <= |parts| == shards
             && Offset(shards, per) == w.rows
    requires forall s :: 0 <= s < shards ==>
               Offset(s, per) + per <= w.rows && parts[s] == Linear(x, RowShard(w, per, s))
    ensures Offset(n, per) <= w.rows && SameRows(parts[..n], x.rows)
    ensures JoinedRow(parts[..n], x.rows, r) == Linear(x, w).data[r][..Offset(n, per)]
  {
    hide Linear, RowShard, Offset;
    OffsetNext(0, per);
    if n > 0 {
      ColumnParallel(x, w, shards, per, parts, r, n - 1);
      OffsetNext(n - 1, per);
      hide JoinedRow, SameRows;
      ShardOutput(x, w, per, n - 1, r);
      JoinedMore(parts, x.rows, r, n);
      TakeMore(Linear(x, w).data[r], Offset(n - 1, per), Offset(n, per));
    }
  }

  /** Side by side, the shards' outputs over split weight rows are the whole layer's output. */
  lemma ColumnParallelIsLinear(x: Matrix, w: Matrix, shards: nat, ws: seq<Matrix>, parts: seq<Matrix>, r: nat)
    requires x.Valid() && w.Valid() && x.cols == w.cols && r < x.rows
    requires shards > 0 && IsRowSplit(w, shards, w.rows / shards, ws)
    requires |parts| == shards && forall s :: 0 <= s < shards ==> parts[s] == Linear(x, ws[s])
    ensures SameRows(parts, x.rows) && JoinedRow(parts, x.rows, r) == Linear(x, w).data[r]
  {
    hide Dot, Offset;
    ColumnParallel(x, w, shards, w.rows / shards, parts, r, shards);
    assert parts[..shards] == parts && Linear(x, w).data[r][..w.rows] == Linear(x, w).data[r];
  }

  /** A shard of the inputs contributes a part of each dot product. */
  lemma ShardPart(x: Matrix, w: Matrix, per: nat, s: nat, r: nat, o: nat)
    requires x.Valid() && w.Valid() && x.cols == w.cols && r < x.rows && o < w.rows && Offset(s, per) + per <= x.cols
    ensures Linear(ColumnShard(x, per, s), ColumnShard(w, per, s)).data[r][o]
            == Dot(x.data[r][Offset(s, per)..Offset(s, per) + per], w.data[o][Offset(s, per)..Offset(s, per) + per])
  {
    hide Dot;
  }

  /** Row parallelism: each shard owns some input columns and contributes a partial sum. */
  lemma {:induction false} RowParallel(x: Matrix, w: Matrix, shards: nat, per: nat, parts: seq<Matrix>, r: nat, o: nat,
                                       n: nat)
    requires x.Valid() && w.Valid() && x.cols == w.cols && r < x.rows && o < w.rows && n <= |parts| == shards
             && Offset(shards, per) == x.cols
    requires SameSize(parts) && Elements(parts[0]) == x.rows * w.rows && r * w.rows + o < x.rows * w.rows
    requires forall s :: 0 <= s < shards ==>
               Offset(s, per) + per <= x.cols && parts[s] == Linear(ColumnShard(x, per, s), ColumnShard(w, per, s))
    ensures Offset(n, per) <= x.cols
            && TotalAt(parts, x.rows * w.rows, n, r * w.rows + o)
                == Dot(x.data[r][..Offset(n, per)], w.data[o][..Offset(n, per)])
  {
    hide Linear, ColumnShard, At, Offset;
    OffsetNext(0, per);
    if n > 0 {
      RowParallel(x, w, shards, per, parts, r, o, n - 1);
      OffsetNext(n - 1, per);
      ShardPart(x, w, per, n - 1, r, o);
      Flattened(parts[n - 1], r, o);
      SplitDot(x.data[r], w.data[o], Offset(n - 1, per), Offset(n, per));
    }
  }

  lemma SplitDot(a: seq<real>, b: seq<real>, m: nat, n: nat)
    requires |a| == |b| && m <= n <= |a|
    ensures Dot(a[..n], b[..n]) == Dot(a[..m], b[..m]) + Dot(a[m..n], b[m..n])
  {
    DotAppend(a[..m], b[..m], a[m..n], b[m..n]);
    assert a[..n] == a[..m] + a[m..n] && b[..n] == b[..m] + b[m..n];
  }

  /** Summed, the shards' outputs over split columns of both operands are the whole layer's output. */
  lemma RowParallelIsLinear(x: Matrix, w: Matrix, shards: nat, xs: seq<Matrix>, ws: seq<Matrix>, parts: seq<Matrix>)
    requires x.Valid() && w.Valid() && x.cols == w.cols && shards > 0
    requires IsColumnSplit(x, shards, x.cols / shards, xs) && IsColumnSplit(w, shards, w.cols / shards, ws)
    requires |parts| == shards && forall s :: 0 <= s < shards ==> parts[s] == Linear(xs[s], ws[s])
    ensures SameSize(parts) && Elements(parts[0]) == Elements(Linear(x, w))
    ensures forall j :: 0 <= j < Elements(parts[0]) ==>
              TotalAt(parts, Elements(parts[0]), shards, j) == At(Linear(x, w), j)
  {
    ShardSizes(x, w, shards, xs, ws, parts);
    hide Linear, At, ColumnShard, Offset;
    forall j | 0 <= j < Elements(parts[0])
      ensures TotalAt(parts, Elements(parts[0]), shards, j) == At(Linear(x, w), j)
    {
      RowParallelAt(x, w, shards, x.cols / shards, parts, j);
    }
  }

  lemma ShardSizes(x: Matrix, w: Matrix, shards: nat, xs: seq<Matrix>, ws: seq<Matrix>, parts: seq<Matrix>)
    requires x.Valid() && w.Valid() && x.cols == w.cols && shards > 0
    requires IsColumnSplit(x, shards, x.cols / shards, xs) && IsColumnSplit(w, shards, w.cols / shards, ws)
    requires |parts| == shards && forall s :: 0 <= s < shards ==> parts[s] == Linear(xs[s], ws[s])
    ensures SameSize(parts) && Elements(parts[0]) == x.rows * w.rows == Elements(Linear(x, w))
  {
    hide LinearRow;
  }

  lemma RowParallelAt(x: Matrix, w: Matrix, shards: nat, per: nat, parts: seq<Matrix>, j: nat)
    requires x.Valid() && w.Valid() && x.cols == w.cols && 0 < |parts| == shards && Offset(shards, per) == x.cols
    requires SameSize(parts) && Elements(parts[0]) == x.rows * w.rows && j < x.rows * w.rows
    requires forall s :: 0 <= s < shards ==>
               Offset(s, per) + per <= x.cols && parts[s] == Linear(ColumnShard(x, per, s), ColumnShard(w, per, s))
    ensures TotalAt(parts, x.rows * w.rows, shards, j) == At(Linear(x, w), j)
  {
    hide ColumnShard, TotalAt, Dot, Offset;
    Unflatten(x.rows, w.rows, j);
    var r, o := j / w.rows, j % w.rows;
    Division(j, w.rows);
    RowParallel(x, w, shards, per, parts, r, o, shards);
    assert x.data[r][..x.cols] == x.data[r] && w.data[o][..x.cols] == w.data[o];
  }

  /** Matrices of one shape with the same entries are the same. */
  lemma SameEntries(a: Matrix, b: Matrix)
    requires a.Valid() && b.Valid() && a.rows == b.rows && a.cols == b.cols && Elements(a) == Elements(b)
    requires forall j :: 0 <= j < Elements(a) ==> At(a, j) == At(b, j)
    ensures a == b
  {
    hide At;
    forall r | 0 <= r < a.rows
      ensures a.data[r] == b.data[r]
    {
      forall c | 0 <= c < a.cols
        ensures a.data[r][c] == b.data[r][c]
      {
        Flattened(a, r, c);
        Flattened(b, r, c);
      }
    }
  }

  /** What `Sum` returns for the shards' outputs is the whole layer's output. */
  lemma SummedIsLinear(x: Matrix, w: Matrix, shards: nat, xs: seq<Matrix>, ws: seq<Matrix>, parts: seq<Matrix>,
                       total: Matrix)
    requires x.Valid() && w.Valid() && x.cols == w.cols && shards > 0
    requires IsColumnSplit(x, shards, x.cols / shards, xs) && IsColumnSplit(w, shards, w.cols / shards, ws)
    requires |parts| == shards && forall s :: 0 <= s < shards ==> parts[s] == Linear(xs[s], ws[s])
    requires SameSize(parts) && IsSum(parts, total)
    ensures total == Linear(x, w)
  {
    hide LinearRow, At, ColumnShard, Offset, TotalAt;
    RowParallelIsLinear(x, w, shards, xs, ws, parts);
    assert parts[0] == Linear(xs[0], ws[0]);
    SameEntries(total, Linear(x, w));
  }
}
