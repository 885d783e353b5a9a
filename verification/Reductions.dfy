/**
 Block-wide reductions of the GPU kernels: strided scans by the threads of a block, then a tree over
 shared memory that halves the number of live cells each round.
 */
module Reductions {
  import opened Arithmetic
  import opened Results
  import opened Network
  import opened Linears

  /** Thread counts that halve down to one. */
  predicate IsPowerOfTwo(n: nat) {
    n == 1 || (n > 1 && n % 2 == 0 && IsPowerOfTwo(n / 2))
  }

  lemma Halves(n: nat)
    requires IsPowerOfTwo(n)
    ensures if n / 2 > 0 then 2 * (n / 2) == n && IsPowerOfTwo(n / 2) else n == 1
  {
  }

  // ---- Argmax -------------------------------------------------------------------------------

  /** What a thread puts into shared memory: a value and where it was seen. */
  datatype Candidate = Candidate(value: real, index: nat)

  /** Larger value, or the same value at a smaller index. */
  predicate Beats(a: Candidate, b: Candidate) {
    a.value > b.value || (a.value == b.value && a.index < b.index)
  }

  /** The candidate stands for the sentinel, or for an entry of the row above it. */
  predicate Genuine(row: seq<real>, sentinel: real, a: Candidate) {
    || a == Candidate(sentinel, 0)
    || (a.index < |row| && a.value == row[a.index] && a.value > sentinel)
  }

  /** Entry j does not beat the candidate. */
  predicate Covers(row: seq<real>, sentinel: real, a: Candidate, j: nat)
    requires j < |row|
  {
    row[j] > sentinel ==> !Beats(Candidate(row[j], j), a)
  }

  /** The indices a thread scans. */
  predicate Mine(j: nat, thread: nat, threads: nat) {
    threads > 0 && j % threads == thread
  }

  /**
   A thread's strided scan from its own index. It reports the sentinel or one of its own entries; a thread
   beyond the row has none.
   */
  method ThreadScan(row: seq<real>, thread: nat, threads: nat, sentinel: real) returns (best: Candidate)
    requires thread < threads
    ensures Genuine(row, sentinel, best)
    ensures best != Candidate(sentinel, 0) ==> Mine(best.index, thread, threads)
    ensures thread >= |row| ==> best == Candidate(sentinel, 0)
    ensures forall j :: 0 <= j < |row| && Mine(j, thread, threads) ==> Covers(row, sentinel, best, j)
  {
    hide Covers, Mine;
    best := Candidate(sentinel, 0);
    var j := thread;
    NoneBelow(thread, threads);
    while j < |row|
      invariant thread <= j && Mine(j, thread, threads) && Genuine(row, sentinel, best)
      invariant best != Candidate(sentinel, 0) ==> thread < |row| && Mine(best.index, thread, threads)
      invariant best.value > sentinel ==> best.index < j
      invariant forall i :: 0 <= i < j && i < |row| && Mine(i, thread, threads) ==> Covers(row, sentinel, best, i)
    {
      ScanStep(row, sentinel, best, j);
      if row[j] > best.value {
        best := Candidate(row[j], j);
      }
      NextOfThread(j, thread, threads);
      j := j + threads;
    }
  }

  lemma ScanStep(row: seq<real>, sentinel: real, best: Candidate, j: nat)
    requires j < |row| && Genuine(row, sentinel, best) && (best.value > sentinel ==> best.index < j)
    ensures var next := if row[j] > best.value then Candidate(row[j], j) else best;
            && Genuine(row, sentinel, next) && Covers(row, sentinel, next, j)
            && forall i :: 0 <= i < |row| && Covers(row, sentinel, best, i) ==> Covers(row, sentinel, next, i)
  {
  }

  lemma NoneBelow(thread: nat, threads: nat)
    requires thread < threads
    ensures Mine(thread, thread, threads) && forall i: nat :: i < thread ==> !Mine(i, thread, threads)
  {
    forall i: nat | i <= thread
      ensures i % threads == i
    {
      QuotientOf(threads, 0, i);
    }
  }

  lemma MineAs(j: nat, thread: nat, threads: nat) returns (q: nat)
    requires thread < threads && Mine(j, thread, threads)
    ensures j == q * threads + thread
  {
    Division(j, threads);
    q := j / threads;
  }

  lemma MineOf(q: nat, thread: nat, threads: nat)
    requires thread < threads
    ensures Mine(q * threads + thread, thread, threads)
  {
    QuotientOf(threads, q, thread);
  }

  /** Between two indices of a thread there is none of its own. */
  lemma NextOfThread(j: nat, thread: nat, threads: nat)
    requires thread < threads && Mine(j, thread, threads)
    ensures Mine(j + threads, thread, threads)
    ensures forall i: nat :: j < i < j + threads ==> !Mine(i, thread, threads)
  {
    hide Mine;
    var q := MineAs(j, thread, threads);
    MulStep(q, threads);
    MineOf(q + 1, thread, threads);
    forall i: nat | j < i && Mine(i, thread, threads)
      ensures i >= j + threads
    {
      var b := MineAs(i, thread, threads);
      Between(q, b, threads, thread);
    }
  }

  lemma Between(a: nat, b: nat, m: nat, s: nat)
    requires a * m + s < b * m + s
    ensures a * m + s + m <= b * m + s
  {
    if b <= a {
      MulMonotone(b, a, m);
    } else {
      MulMonotone(a + 1, b, m);
      MulStep(a, m);
    }
  }

  /** No candidate before the reduction beats what cell 0..live hold now. */
  ghost predicate Reduced(before: seq<Candidate>, cells: seq<Candidate>, live: nat) {
    && live <= |cells|
    && (forall t :: 0 <= t < live ==> cells[t] in before)
    && (forall u :: 0 <= u < |before| ==> Held(cells, live, before[u]))
  }

  ghost predicate Held(cells: seq<Candidate>, live: nat, a: Candidate) {
    exists t :: 0 <= t < live && t < |cells| && !Beats(a, cells[t])
  }

  /** One of the candidates, beaten by none. */
  ghost predicate Won(before: seq<Candidate>, a: Candidate) {
    a in before && forall u :: 0 <= u < |before| ==> !Beats(before[u], a)
  }

  /** The tree over shared memory. */
  method TreeArgMax(cells: array<Candidate>)
    requires IsPowerOfTwo(cells.Length)
    modifies cells
    ensures Won(old(cells[..]), cells[0])
  {
    ghost var before := cells[..];
    NothingReduced(before);
    hide Reduced, Won, IsPowerOfTwo;
    var stride: nat := cells.Length / 2;
    ghost var live: nat := cells.Length;
    while stride > 0
      invariant live <= cells.Length && IsPowerOfTwo(live) && stride == live / 2
      invariant Reduced(before, cells[..], live)
      decreases stride
    {
      Halves(live);
      Round(cells, stride, before);
      live := stride;
      stride := stride / 2;
    }
    Halves(live);
    OneLeft(before, cells[..]);
  }

  lemma NothingReduced(before: seq<Candidate>)
    ensures Reduced(before, before, |before|)
  {
    forall u | 0 <= u < |before|
      ensures Held(before, |before|, before[u])
    {
      assert !Beats(before[u], before[u]);
    }
  }

  lemma OneLeft(before: seq<Candidate>, cells: seq<Candidate>)
    requires cells != [] && Reduced(before, cells, 1)
    ensures Won(before, cells[0])
  {
    hide Beats;
    forall u | 0 <= u < |before|
      ensures !Beats(before[u], cells[0])
    {
      assert Held(cells, 1, before[u]);
    }
  }

  /** One round: each live thread takes the better of its own cell and the one a stride away. */
  method Round(cells: array<Candidate>, stride: nat, ghost before: seq<Candidate>)
    requires stride > 0 && 2 * stride <= cells.Length && Reduced(before, cells[..], 2 * stride)
    modifies cells
    ensures Reduced(before, cells[..], stride)
  {
    hide Reduced, Beats;
    ghost var now := cells[..];
    var t := 0;
    while t < stride
      invariant 0 <= t <= stride
      invariant forall i :: 0 <= i < t ==> cells[i] == Better(now[i], now[i + stride])
      invariant forall i :: t <= i < cells.Length ==> cells[i] == now[i]
    {
      var other := cells[t + stride];
      if Beats(other, cells[t]) {
        cells[t] := other;
      }
      t := t + 1;
    }
    RoundKeeps(before, now, cells[..], stride);
  }

  lemma RoundKeeps(before: seq<Candidate>, now: seq<Candidate>, after: seq<Candidate>, stride: nat)
    requires stride > 0 && 2 * stride <= |now| == |after| && Reduced(before, now, 2 * stride)
    requires forall i :: 0 <= i < stride ==> after[i] == Better(now[i], now[i + stride])
    ensures Reduced(before, after, stride)
  {
    hide Beats;
    forall u | 0 <= u < |before|
      ensures Held(after, stride, before[u])
    {
      assert Held(now, 2 * stride, before[u]);
      StillHeldByHalf(before[u], now, after, stride);
    }
    hide Held;
    forall t | 0 <= t < stride
      ensures after[t] in before
    {
      assert now[t] in before && now[t + stride] in before;
    }
  }

  lemma StillHeldByHalf(a: Candidate, now: seq<Candidate>, after: seq<Candidate>, stride: nat)
    requires stride > 0 && 2 * stride <= |now| == |after| && Held(now, 2 * stride, a)
    requires forall i :: 0 <= i < stride ==> after[i] == Better(now[i], now[i + stride])
    ensures Held(after, stride, a)
  {
    hide Better;
    var i :| 0 <= i < 2 * stride && !Beats(a, now[i]);
    var w := if i < stride then i else i - stride;
    BetterThanBoth(a, now[w], now[w + stride]);
    hide Beats;
    assert !Beats(a, after[w]);
  }

  lemma BetterThanBoth(a: Candidate, b: Candidate, c: Candidate)
    ensures !Beats(a, b) || !Beats(a, c) ==> !Beats(a, Better(b, c))
  {
  }

  function Better(a: Candidate, b: Candidate): Candidate {
    if Beats(b, a) then b else a
  }

  /**
   The argmax kernel for one row. It returns the CPU's argmax exactly when some entry exceeds the
   sentinel or the first maximum is entry 0 anyway; below the sentinel every thread reports entry 0.
   */
  method ArgMaxKernel(row: seq<real>, threads: nat, sentinel: real) returns (best: nat)
    requires IsPowerOfTwo(threads)
    ensures (exists j :: 0 <= j < |row| && row[j] > sentinel) ==> best == ArgMax(row)
    ensures (forall j :: 0 <= j < |row| ==> row[j] <= sentinel) ==> best == 0
  {
    var cells := new Candidate[threads](t => Candidate(sentinel, 0));
    var t := 0;
    while t < threads
      invariant 0 <= t <= threads
      invariant forall u :: 0 <= u < t ==> Genuine(row, sentinel, cells[u])
      invariant forall u, j :: 0 <= u < t && 0 <= j < |row| && Mine(j, u, threads) ==>
                  Covers(row, sentinel, cells[u], j)
    {
      var scanned := ThreadScan(row, t, threads, sentinel);
      cells[t] := scanned;
      t := t + 1;
    }
    ghost var before := cells[..];
    TreeArgMax(cells);
    best := cells[0].index;
    AllCovered(row, threads, sentinel, before, cells[0]);
    WinnerIsFirstMax(row, sentinel, cells[0]);
  }

  lemma AllCovered(row: seq<real>, threads: nat, sentinel: real, before: seq<Candidate>, winner: Candidate)
    requires threads == |before| > 0 && winner in before
    requires forall u :: 0 <= u < threads ==> Genuine(row, sentinel, before[u])
    requires forall u, j :: 0 <= u < threads && 0 <= j < |row| && Mine(j, u, threads) ==>
               Covers(row, sentinel, before[u], j)
    requires forall u :: 0 <= u < threads ==> !Beats(before[u], winner)
    ensures Genuine(row, sentinel, winner) && forall j :: 0 <= j < |row| ==> Covers(row, sentinel, winner, j)
  {
    forall j | 0 <= j < |row|
      ensures Covers(row, sentinel, winner, j)
    {
      var u := j % threads;
      assert Mine(j, u, threads);
      assert Covers(row, sentinel, before[u], j);
    }
  }

  lemma WinnerIsFirstMax(row: seq<real>, sentinel: real, a: Candidate)
    requires Genuine(row, sentinel, a) && forall j :: 0 <= j < |row| ==> Covers(row, sentinel, a, j)
    ensures (exists j :: 0 <= j < |row| && row[j] > sentinel) ==> a.index == ArgMax(row)
    ensures (forall j :: 0 <= j < |row| ==> row[j] <= sentinel) ==> a.index == 0
  {
    if exists j :: 0 <= j < |row| && row[j] > sentinel {
      var j :| 0 <= j < |row| && row[j] > sentinel;
      assert Covers(row, sentinel, a, j);
      assert a.value > sentinel && a.index < |row|;
      forall i | 0 <= i < |row|
        ensures row[i] <= row[a.index] && (i < a.index ==> row[i] < row[a.index])
      {
        assert Covers(row, sentinel, a, i);
      }
      FirstMaxUnique(row, a.index, ArgMax(row));
    }
  }

  // ---- Sum ----------------------------------------------------------------------------------

  ghost function Sum(s: seq<real>, n: nat): real
    requires n <= |s|
  {
    if n == 0 then 0.0 else Sum(s, n - 1) + s[n - 1]
  }

  /** Adding the upper half to the lower keeps the sum. */
  lemma {:induction false} FoldHalf(s: seq<real>, t: seq<real>, stride: nat, n: nat)
    requires n <= stride && 2 * stride <= |s| && |t| == |s|
    requires forall i :: 0 <= i < stride ==> t[i] == s[i] + s[i + stride]
    ensures Sum(t, n) == Sum(s, n) + (Sum(s, stride + n) - Sum(s, stride))
  {
    if n > 0 {
      FoldHalf(s, t, stride, n - 1);
    }
  }

  /** One round of the sum: each live thread adds the cell a stride away. */
  method AddUpper(cells: array<real>, stride: nat)
    requires 2 * stride <= cells.Length
    modifies cells
    ensures Sum(cells[..], stride) == Sum(old(cells[..]), 2 * stride)
  {
    ghost var now := cells[..];
    var t := 0;
    while t < stride
      invariant 0 <= t <= stride
      invariant forall i :: 0 <= i < t ==> cells[i] == now[i] + now[i + stride]
      invariant forall i :: t <= i < cells.Length ==> cells[i] == now[i]
    {
      cells[t] := cells[t] + cells[t + stride];
      t := t + 1;
    }
    FoldHalf(now, cells[..], stride, stride);
  }

  /** The sum reduction of the RMS norm kernel: cell 0 ends with the sum of all cells. */
  method TreeSum(cells: array<real>)
    requires IsPowerOfTwo(cells.Length)
    modifies cells
    ensures cells[0] == Sum(old(cells[..]), cells.Length)
  {
    hide IsPowerOfTwo, Sum;
    ghost var before := cells[..];
    var stride: nat := cells.Length / 2;
    ghost var live: nat := cells.Length;
    while stride > 0
      invariant live <= cells.Length && IsPowerOfTwo(live) && stride == live / 2
      invariant Sum(cells[..], live) == Sum(before, |before|)
      decreases stride
    {
      Halves(live);
      AddUpper(cells, stride);
      live := stride;
      stride := stride / 2;
    }
    Halves(live);
    SumOfOne(cells[..]);
  }

  lemma SumOfOne(s: seq<real>)
    requires s != []
    ensures Sum(s, 1) == s[0]
  {
    assert Sum(s, 1) == Sum(s, 0) + s[0];
  }

  // ---- RMS norm -----------------------------------------------------------------------------

  /** Sum of the squares of the first n entries. */
  function SumSquares(row: seq<real>, n: nat): real
    requires n <= |row|
  {
    if n == 0 then 0.0 else SumSquares(row, n - 1) + Times(row[n - 1], row[n - 1])
  }

  /** The same over one thread's indices. */
  ghost function Partial(row: seq<real>, thread: nat, threads: nat, n: nat): real
    requires n <= |row|
  {
    if n == 0 then 0.0
    else Partial(row, thread, threads, n - 1) + if Mine(n - 1, thread, threads) then Times(row[n - 1], row[n - 1])
                                                else 0.0
  }

  lemma {:induction false} PartialSkips(row: seq<real>, thread: nat, threads: nat, a: nat, b: nat)
    requires a <= b <= |row| && forall i: nat :: a <= i < b ==> !Mine(i, thread, threads)
    ensures Partial(row, thread, threads, b) == Partial(row, thread, threads, a)
    decreases b
  {
    hide Mine, Times;
    if a < b {
      PartialSkips(row, thread, threads, a, b - 1);
    }
  }

  /** One thread's strided sum of squares. */
  method ThreadSum(row: seq<real>, thread: nat, threads: nat) returns (partial: real)
    requires thread < threads
    ensures partial == Partial(row, thread, threads, |row|)
  {
    hide Mine, Times;
    partial := 0.0;
    var j := thread;
    NoneBelow(thread, threads);
    PartialSkips(row, thread, threads, 0, if j < |row| then j else |row|);
    while j < |row|
      invariant Mine(j, thread, threads)
      invariant partial == Partial(row, thread, threads, if j < |row| then j else |row|)
    {
      partial := partial + Times(row[j], row[j]);
      NextOfThread(j, thread, threads);
      PartialSkips(row, thread, threads, j + 1, if j + threads < |row| then j + threads else |row|);
      j := j + threads;
    }
  }

  lemma {:induction false} SumUpdate(s: seq<real>, i: nat, x: real, n: nat)
    requires i < |s| && n <= |s|
    ensures Sum(s[i := s[i] + x], n) == Sum(s, n) + if i < n then x else 0.0
  {
    if n > 0 {
      SumUpdate(s, i, x, n - 1);
    }
  }

  lemma {:induction false} SumOfZeros(s: seq<real>, n: nat)
    requires n <= |s| && forall i :: 0 <= i < n ==> s[i] == 0.0
    ensures Sum(s, n) == 0.0
  {
    if n > 0 {
      SumOfZeros(s, n - 1);
    }
  }

  ghost function Partials(row: seq<real>, threads: nat, n: nat): (s: seq<real>)
    requires n <= |row|
    ensures |s| == threads
  {
    seq(threads, t requires 0 <= t < threads => Partial(row, t, threads, n))
  }

  /** Every entry belongs to exactly one thread, so the partial sums add up to the whole. */
  lemma {:induction false} PartialsAdd(row: seq<real>, threads: nat, n: nat)
    requires threads > 0 && n <= |row|
    ensures Sum(Partials(row, threads, n), threads) == SumSquares(row, n)
  {
    if n == 0 {
      SumOfZeros(Partials(row, threads, 0), threads);
    } else {
      hide Sum, Times;
      PartialsAdd(row, threads, n - 1);
      var before := Partials(row, threads, n - 1);
      var t := (n - 1) % threads;
      SumUpdate(before, t, Times(row[n - 1], row[n - 1]), threads);
      assert Partials(row, threads, n) == before[t := before[t] + Times(row[n - 1], row[n - 1])];
    }
  }

  /** The root in the denominator; a row without entries has none. */
  ghost predicate RootOk(row: seq<real>, sqrt: real -> real, eps: real) {
    row != [] ==> sqrt(SumSquares(row, |row|) / |row| as real + eps) != 0.0
  }

  /** Entry j of the normalised row. */
  function Normed(row: seq<real>, weight: seq<real>, sqrt: real -> real, eps: real, j: nat): real
    requires j < |row| == |weight| && sqrt(SumSquares(row, |row|) / |row| as real + eps) != 0.0
  {
    Times(Times(row[j], 1.0 / sqrt(SumSquares(row, |row|) / |row| as real + eps)), weight[j])
  }

  lemma {:induction false} SumSquaresIsDot(row: seq<real>, n: nat)
    requires n <= |row|
    ensures SumSquares(row, n) == Dot(row[..n], row[..n])
  {
    hide Times;
    if n > 0 {
      SumSquaresIsDot(row, n - 1);
      assert row[..n][..n - 1] == row[..n - 1];
    }
  }

  /** Each entry times the root of the mean square, eps included, is the entry times its weight. */
  lemma NormedTimesRoot(row: seq<real>, weight: seq<real>, sqrt: real -> real, eps: real, j: nat)
    requires j < |row| == |weight| && RootOk(row, sqrt, eps)
    ensures var root := sqrt(Dot(row, row) / |row| as real + eps);
            Normed(row, weight, sqrt, eps, j) * root == row[j] * weight[j]
  {
    hide Dot;
    SumSquaresIsDot(row, |row|);
    assert row[..|row|] == row;
    hide SumSquares;
    Undone(row[j], sqrt(Dot(row, row) / |row| as real + eps), weight[j]);
  }

  lemma Undone(x: real, root: real, w: real)
    requires root != 0.0
    ensures Times(Times(x, 1.0 / root), w) * root == x * w
  {
    assert (1.0 / root) * root == 1.0;
    assert x * (1.0 / root) * w * root == x * w * ((1.0 / root) * root);
  }

  /** Without weights the result has mean square one, but for eps. */
  lemma UnitMeanSquare(row: seq<real>, weight: seq<real>, sqrt: real -> real, eps: real, out: seq<real>)
    requires row != [] && |row| == |weight| == |out| && RootOk(row, sqrt, eps)
    requires forall j :: 0 <= j < |row| ==> weight[j] == 1.0 && out[j] == Normed(row, weight, sqrt, eps, j)
    requires var m := Dot(row, row) / |row| as real + eps; sqrt(m) * sqrt(m) == m
    ensures Dot(out, out) * (Dot(row, row) / |row| as real + eps) == Dot(row, row)
  {
    hide Dot, Normed, Times;
    var m := Dot(row, row) / |row| as real + eps;
    forall j | 0 <= j < |row|
      ensures out[j] * sqrt(m) == row[j]
    {
      NormedTimesRoot(row, weight, sqrt, eps, j);
      One(row[j]);
    }
    Squared(out, row, sqrt(m), m);
  }

  lemma Squared(a: seq<real>, b: seq<real>, root: real, m: real)
    requires |a| == |b| && (forall j :: 0 <= j < |a| ==> a[j] * root == b[j]) && root * root == m
    ensures Dot(a, a) * m == Dot(b, b)
  {
    hide Dot;
    SquaresScale(a, b, root);
  }

  lemma One(x: real)
    ensures x * 1.0 == x
  {
  }

  lemma {:induction false} SquaresScale(a: seq<real>, b: seq<real>, t: real)
    requires |a| == |b| && forall j :: 0 <= j < |a| ==> a[j] * t == b[j]
    ensures Dot(a, a) * (t * t) == Dot(b, b)
  {
    if a != [] {
      var n := |a| - 1;
      SquaresScale(a[..n], b[..n], t);
      assert b[n] * b[n] == a[n] * a[n] * (t * t);
      assert (Dot(a[..n], a[..n]) + a[n] * a[n]) * (t * t) == Dot(a[..n], a[..n]) * (t * t) + a[n] * a[n] * (t * t);
    }
  }

  /** The CPU's loops for one row; a weight of another size is refused. */
  method RmsNorm(row: seq<real>, weight: seq<real>, sqrt: real -> real, eps: real) returns (r: Result<seq<real>>)
    requires RootOk(row, sqrt, eps)
    ensures r.Ok? <==> |weight| == |row|
    ensures r.Throws? ==> r.error == InvalidArgument
    ensures r.Ok? ==> |r.value| == |row|
                      && forall j :: 0 <= j < |row| ==> r.value[j] == Normed(row, weight, sqrt, eps, j)
  {
    hide Times;
    if |weight| != |row| {
      return Throws(InvalidArgument);
    }
    if row == [] {
      return Ok([]);
    }
    var sumSq, j := 0.0, 0;
    while j < |row|
      invariant 0 <= j <= |row| && sumSq == SumSquares(row, j)
    {
      sumSq := sumSq + Times(row[j], row[j]);
      j := j + 1;
    }
    var scale := 1.0 / sqrt(sumSq / |row| as real + eps);
    var out := [];
    while |out| < |row|
      invariant |out| <= |row| && forall i :: 0 <= i < |out| ==> out[i] == Normed(row, weight, sqrt, eps, i)
    {
      out := out + [Times(Times(row[|out|], scale), weight[|out|])];
    }
    return Ok(out);
  }

  /**
   The kernel for one row: strided partial sums, the tree, then strided scaling. It equals the CPU's loops.
   Nothing is launched for an empty row.
   */
  method RmsNormKernel(row: seq<real>, weight: seq<real>, sqrt: real -> real, eps: real, threads: nat)
    returns (out: array<real>)
    requires |row| == |weight| && RootOk(row, sqrt, eps)
    requires IsPowerOfTwo(threads)
    ensures out.Length == |row| && forall j :: 0 <= j < |row| ==> out[j] == Normed(row, weight, sqrt, eps, j)
  {
    hide Times, Partial, SumSquares, Sum, Mine, Normed;
    if row == [] {
      out := new real[0];
      return;
    }
    Halves(threads);
    var cells := new real[threads](t => 0.0);
    var t := 0;
    while t < threads
      invariant 0 <= t <= threads && forall u :: 0 <= u < t ==> cells[u] == Partial(row, u, threads, |row|)
    {
      var partial := ThreadSum(row, t, threads);
      cells[t] := partial;
      t := t + 1;
    }
    assert cells[..] == Partials(row, threads, |row|);
    PartialsAdd(row, threads, |row|);
    TreeSum(cells);
    var scale := 1.0 / sqrt(cells[0] / |row| as real + eps);
    out := ScaleAll(row, weight, scale, threads);
    forall j | 0 <= j < |row|
      ensures out[j] == Normed(row, weight, sqrt, eps, j)
    {
      NormedIs(row, weight, sqrt, eps, j);
    }
  }

  lemma NormedIs(row: seq<real>, weight: seq<real>, sqrt: real -> real, eps: real, j: nat)
    requires j < |row| == |weight| && sqrt(SumSquares(row, |row|) / |row| as real + eps) != 0.0
    ensures Normed(row, weight, sqrt, eps, j)
            == Times(Times(row[j], 1.0 / sqrt(SumSquares(row, |row|) / |row| as real + eps)), weight[j])
  {
  }

  /** Each thread scales its own entries. */
  method ScaleAll(row: seq<real>, weight: seq<real>, scale: real, threads: nat) returns (out: array<real>)
    requires |row| == |weight| && threads > 0
    ensures fresh(out) && out.Length == |row| && forall j :: 0 <= j < |row| ==>
              out[j] == Times(Times(row[j], scale), weight[j])
  {
    hide Times, Mine;
    out := new real[|row|](j => 0.0);
    var t := 0;
    while t < threads
      invariant 0 <= t <= threads
      invariant forall u, j :: 0 <= u < t && 0 <= j < |row| && Mine(j, u, threads) ==>
                  out[j] == Times(Times(row[j], scale), weight[j])
    {
      ScaleThread(row, weight, scale, t, threads, out);
      t := t + 1;
    }
    forall j | 0 <= j < |row|
      ensures out[j] == Times(Times(row[j], scale), weight[j])
    {
      Owner(j, threads);
      assert Mine(j, j % threads, threads);
    }
  }

  lemma Owner(j: nat, threads: nat)
    requires threads > 0
    ensures j % threads < threads && Mine(j, j % threads, threads)
  {
  }

  method ScaleThread(row: seq<real>, weight: seq<real>, scale: real, thread: nat, threads: nat, out: array<real>)
    requires |row| == |weight| == out.Length && thread < threads
    modifies out
    ensures forall j :: 0 <= j < |row| ==>
              out[j] == if Mine(j, thread, threads) then Times(Times(row[j], scale), weight[j]) else old(out[j])
  {
    hide Times, Mine;
    var j := thread;
    NoneBelow(thread, threads);
    while j < |row|
      invariant Mine(j, thread, threads)
      invariant forall i :: 0 <= i < j && i < |row| ==>
                  out[i] == if Mine(i, thread, threads) then Times(Times(row[i], scale), weight[i]) else old(out[i])
      invariant forall i :: j <= i < |row| ==> out[i] == old(out[i])
    {
      out[j] := Times(Times(row[j], scale), weight[j]);
      NextOfThread(j, thread, threads);
      j := j + threads;
    }
  }
}
