/**
 One layer of the batched forward. A lane is one item of the batch: its block table, how many rows it
 had cached, and where its new rows lie in the flat layout all items share.
 */
module Lanes {
  import opened Arithmetic
  import opened Network
  import opened ForwardCached
  import opened BlockPools
  import opened BlockManagers
  import opened RowContents

  /** What an item feeds: its new tokens, on top of the rows its table held before. */
  datatype Feed = Feed(before: Cached, past: nat, ids: seq<Token>)

  ghost predicate FeedOk(net: Net, f: Feed) {
    Filled(net, f.before, f.past)
  }

  /** Hidden rows of the new tokens entering layer l. */
  ghost function FeedHidden(net: Net, f: Feed, l: nat): (x: seq<Vec>)
    requires FeedOk(net, f) && l <= net.layers
    ensures |x| == |f.ids|
  {
    ChunkHidden(net, f.before, f.past, f.ids, l)
  }

  /** Key and value rows of layer l, old and new. */
  ghost function FeedRows(net: Net, f: Feed, l: nat): (kv: LayerRowsKV)
    requires FeedOk(net, f) && l < net.layers
    ensures |kv.k| == |kv.v| == f.past + |f.ids|
  {
    Appended(net, f.before, f.past, f.ids, l)
  }

  /** Logical row p of the table holds row p of the feed at layer l. */
  ghost predicate FeedRowIs(keys: Store, values: Store, bs: nat, net: Net, table: seq<nat>, f: Feed, l: nat, p: nat)
    reads keys, values
  {
    FeedOk(net, f) && l < net.layers && StoredRow(keys, values, bs, table, FeedRows(net, f, l), l, p)
  }

  ghost predicate FeedRowsAre(keys: Store, values: Store, bs: nat, net: Net, table: seq<nat>, f: Feed, l: nat, n: nat)
    reads keys, values
  {
    forall p: nat :: p < n ==> FeedRowIs(keys, values, bs, net, table, f, l, p)
  }

  ghost predicate FeedHolds(keys: Store, values: Store, bs: nat, net: Net, table: seq<nat>, f: Feed, n: nat)
    reads keys, values
  {
    forall l: nat :: l < net.layers ==> FeedRowsAre(keys, values, bs, net, table, f, l, n)
  }

  // ---- Rows as they are ---------------------------------------------------------------------

  /** Row p of one layer as the store has it; a row without a place is empty. */
  ghost function RowAt(store: Store, bs: nat, table: seq<nat>, l: nat, p: nat): Vec
    reads store
  {
    if bs > 0 && BlockOf(bs, p) < |table| && l < store.Length0 && Addr(bs, table, p) < store.Length1
    then store[l, Addr(bs, table, p)] else []
  }

  /** What the first n logical rows of a table hold, whatever that is. */
  ghost function Gathered(keys: Store, values: Store, bs: nat, layers: nat, table: seq<nat>, n: nat): (c: Cached)
    reads keys, values
    ensures |c| == layers && forall l :: 0 <= l < layers ==> |c[l].k| == n && |c[l].v| == n
  {
    seq(layers, l requires 0 <= l < layers reads keys, values =>
      LayerRowsKV(seq(n, p requires 0 <= p < n reads keys => RowAt(keys, bs, table, l, p)),
                  seq(n, p requires 0 <= p < n reads values => RowAt(values, bs, table, l, p))))
  }

  lemma GatheredHolds(keys: Store, values: Store, bs: nat, net: Net, table: seq<nat>, n: nat, ids: seq<Token>)
    requires bs > 0 && keys.Length0 == values.Length0 == net.layers && keys.Length1 == values.Length1
    requires InStore(bs, keys.Length1, table, 0, n)
    ensures var f := Feed(Gathered(keys, values, bs, net.layers, table, n), n, ids);
            FeedOk(net, f) && FeedHolds(keys, values, bs, net, table, f, n)
  {
    hide BlockOf, SlotOf, Slot, ChunkHidden;
    var f := Feed(Gathered(keys, values, bs, net.layers, table, n), n, ids);
    forall l: nat, p: nat | l < net.layers && p < n
      ensures FeedRowIs(keys, values, bs, net, table, f, l, p)
    {
      assert BlockOf(bs, p) < |table| && Addr(bs, table, p) < keys.Length1;
      assert f.before[l].k[p] == RowAt(keys, bs, table, l, p) && f.before[l].v[p] == RowAt(values, bs, table, l, p);
    }
  }

  // ---- Feeds over correct rows --------------------------------------------------------------

  /** Rows that hold a context are that context's cache. */
  lemma GatheredIsCache(keys: Store, values: Store, bs: nat, net: Net, table: seq<nat>, ctx: seq<Token>, n: nat)
    requires n <= |ctx| && Holds(keys, values, bs, net, table, ctx, n)
    ensures Gathered(keys, values, bs, net.layers, table, n) == CacheOf(net, ctx[..n])
  {
    hide BlockOf, SlotOf, Slot;
    HoldsPrefix(keys, values, bs, net, table, ctx[..n], ctx, n);
    var c, d := Gathered(keys, values, bs, net.layers, table, n), CacheOf(net, ctx[..n]);
    hide KeyRows, ValueRows;
    forall l: nat | l < net.layers
      ensures c[l] == d[l]
    {
      assert RowsAre(keys, values, bs, net, table, ctx[..n], l, n);
      forall p: nat | p < n
        ensures c[l].k[p] == d[l].k[p] && c[l].v[p] == d[l].v[p]
      {
        assert RowIs(keys, values, bs, net, table, ctx[..n], l, p);
      }
    }
  }

  /** The feed of the rest of a context over the cache of its beginning. */
  ghost predicate Continues(net: Net, f: Feed, ctx: seq<Token>) {
    && f.past <= |ctx| && f.before == CacheOf(net, ctx[..f.past]) && f.ids == ctx[f.past..]
  }

  lemma ContinuedRows(net: Net, f: Feed, ctx: seq<Token>, l: nat)
    requires Continues(net, f, ctx) && l < net.layers
    ensures FeedOk(net, f) && FeedRows(net, f, l) == LayerRowsKV(KeyRows(net, ctx, l), ValueRows(net, ctx, l))
  {
    assert ctx[..f.past] + f.ids == ctx;
    ChunkIsReference(net, ctx[..f.past], f.ids);
    hide ChunkHidden, Hidden;
    assert ChunkCache(net, f.before, f.past, f.ids)[l] == CacheOf(net, ctx)[l];
  }

  lemma ContinuedHolds(keys: Store, values: Store, bs: nat, net: Net, table: seq<nat>, f: Feed, ctx: seq<Token>, n: nat)
    requires Continues(net, f, ctx) && FeedHolds(keys, values, bs, net, table, f, n)
    ensures Holds(keys, values, bs, net, table, ctx, n)
  {
    hide StoredRow, FeedRows, KeyRows, ValueRows, FeedOk;
    forall l: nat, p: nat | l < net.layers && p < n
      ensures RowIs(keys, values, bs, net, table, ctx, l, p)
    {
      assert FeedRowsAre(keys, values, bs, net, table, f, l, n);
      assert FeedRowIs(keys, values, bs, net, table, f, l, p);
      ContinuedRows(net, f, ctx, l);
    }
  }

  lemma ContinuedLogits(net: Net, f: Feed, ctx: seq<Token>)
    requires Continues(net, f, ctx) && f.ids != []
    ensures FeedOk(net, f) && LastLogits(net, f) == Logits(net, ctx)[|ctx| - 1]
  {
    assert ctx[..f.past] + f.ids == ctx;
    ChunkIsReference(net, ctx[..f.past], f.ids);
    hide ChunkLogits, Logits;
  }

  /** The logits of the last new token. */
  ghost function LastLogits(net: Net, f: Feed): (row: seq<real>)
    requires FeedOk(net, f) && f.ids != []
  {
    ChunkLogits(net, f.before, f.past, f.ids)[|f.ids| - 1]
  }

  // ---- Lanes --------------------------------------------------------------------------------

  datatype Lane = Lane(table: seq<nat>, past: nat, offset: nat, len: nat)

  /** The lanes' slices of the flat layout do not overlap. */
  ghost predicate Laid(lanes: seq<Lane>, total: nat) {
    && (forall i :: 0 <= i < |lanes| ==> lanes[i].offset + lanes[i].len <= total)
    && (forall i, j :: 0 <= i < j < |lanes| ==> lanes[i].offset + lanes[i].len <= lanes[j].offset)
  }

  /** Every row has a place in the store. */
  ghost predicate Fit(bs: nat, size: nat, lanes: seq<Lane>)
    requires bs > 0
  {
    forall i :: 0 <= i < |lanes| ==> InStore(bs, size, lanes[i].table, 0, lanes[i].past + lanes[i].len)
  }

  /** A block some lane writes to is at no other place of any lane's table. */
  ghost predicate Separate(bs: nat, lanes: seq<Lane>)
    requires bs > 0
  {
    forall i, k, j, m ::
      && 0 <= i < |lanes| && BlockOf(bs, lanes[i].past) <= k < |lanes[i].table|
      && 0 <= j < |lanes| && 0 <= m < |lanes[j].table| && (i != j || k != m)
      ==> lanes[i].table[k] != lanes[j].table[m]
  }

  ghost predicate LaneTouches(bs: nat, lane: Lane, a: nat)
    requires bs > 0
  {
    Touches(bs, lane.table, lane.past, lane.len, a)
  }

  /** A lane's writes miss the rows of every other lane, and its own cached rows. */
  lemma WritesMiss(bs: nat, size: nat, lanes: seq<Lane>, i: nat, j: nat, q: nat)
    requires bs > 0 && Fit(bs, size, lanes) && Separate(bs, lanes) && i < |lanes| && j < |lanes|
    requires q < if i == j then lanes[j].past else lanes[j].past + lanes[j].len
    ensures BlockOf(bs, q) < |lanes[j].table|
    ensures !LaneTouches(bs, lanes[i], Addr(bs, lanes[j].table, q))
  {
    var t, u := lanes[i].table, lanes[j].table;
    assert InStore(bs, size, u, 0, lanes[j].past + lanes[j].len);
    if LaneTouches(bs, lanes[i], Addr(bs, u, q)) {
      var p: nat :| lanes[i].past <= p < lanes[i].past + lanes[i].len && BlockOf(bs, p) < |t|
                    && Addr(bs, t, p) == Addr(bs, u, q);
      QuotientMonotone(lanes[i].past, p, bs);
      RowSplit(bs, p);
      RowSplit(bs, q);
      AddrInjective(bs, t, p, u, q);
    }
  }

  lemma OwnRowsDistinct(bs: nat, lanes: seq<Lane>, i: nat)
    requires bs > 0 && Separate(bs, lanes) && i < |lanes|
    ensures DistinctRows(bs, lanes[i].table, lanes[i].past, lanes[i].len)
  {
    var t, past := lanes[i].table, lanes[i].past;
    forall p: nat, q: nat | past <= p < q < past + lanes[i].len && BlockOf(bs, p) < |t| && BlockOf(bs, q) < |t|
      ensures Addr(bs, t, p) != Addr(bs, t, q)
    {
      if Addr(bs, t, p) == Addr(bs, t, q) {
        QuotientMonotone(past, p, bs);
        RowSplit(bs, p);
        RowSplit(bs, q);
        AddrInjective(bs, t, p, t, q);
      }
    }
  }

  /** What attention yields for new token u. */
  ghost function AttnOf(net: Net, f: Feed, l: nat, u: nat): Vec
    requires FeedOk(net, f) && l < net.layers && u < |f.ids|
  {
    var kv := FeedRows(net, f, l);
    net.attend(net.query(l, f.past + u, FeedHidden(net, f, l)[u]), kv.k[..f.past + u + 1], kv.v[..f.past + u + 1])
  }

  lemma NextHidden(net: Net, f: Feed, l: nat, u: nat)
    requires FeedOk(net, f) && l < net.layers && u < |f.ids|
    ensures FeedHidden(net, f, l + 1)[u] == net.mix(l, FeedHidden(net, f, l)[u], AttnOf(net, f, l, u))
  {
  }

  /** The lane carries the feed. */
  ghost predicate Carries(net: Net, lane: Lane, f: Feed, total: nat) {
    FeedOk(net, f) && f.past == lane.past && |f.ids| == lane.len && lane.offset + lane.len <= total
  }

  /** The lane's slice x of the flat rows is the feed's hidden rows entering layer l. */
  ghost predicate SliceIs(net: Net, lane: Lane, f: Feed, l: nat, x: seq<Vec>) {
    && Carries(net, lane, f, |x|) && l <= net.layers
    && forall u :: lane.offset <= u < lane.offset + lane.len ==> x[u] == FeedHidden(net, f, l)[u - lane.offset]
  }

  /** The lane's slice of the attention rows. */
  ghost predicate AttnIs(net: Net, lane: Lane, f: Feed, l: nat, attn: seq<Vec>) {
    && Carries(net, lane, f, |attn|) && l < net.layers
    && forall u :: lane.offset <= u < lane.offset + lane.len ==> attn[u] == AttnOf(net, f, l, u - lane.offset)
  }

  predicate PositionsOf(lane: Lane, positions: seq<nat>) {
    && lane.offset + lane.len <= |positions|
    && forall u :: lane.offset <= u < lane.offset + lane.len ==> positions[u] == lane.past + (u - lane.offset)
  }

  // Row-wise projections of the flat rows, each at its own position.

  function FlatQueries(net: Net, l: nat, positions: seq<nat>, x: seq<Vec>): (q: seq<Vec>)
    requires |positions| == |x|
    ensures |q| == |x|
  {
    seq(|x|, t requires 0 <= t < |x| => net.query(l, positions[t], x[t]))
  }

  function FlatKeys(net: Net, l: nat, positions: seq<nat>, x: seq<Vec>): (k: seq<Vec>)
    requires |positions| == |x|
    ensures |k| == |x|
  {
    seq(|x|, t requires 0 <= t < |x| => net.key(l, positions[t], x[t]))
  }

  /** Copy a slice into a buffer at an offset. */
  function Splice(buffer: seq<Vec>, offset: nat, slice: seq<Vec>): (r: seq<Vec>)
    requires offset + |slice| <= |buffer|
    ensures |r| == |buffer|
  {
    buffer[..offset] + slice + buffer[offset + |slice|..]
  }

  /** The lane's new key and value rows are the feed's. */
  lemma ProjectionsAre(net: Net, lane: Lane, f: Feed, l: nat, positions: seq<nat>, x: seq<Vec>, t: nat)
    requires |positions| == |x| && PositionsOf(lane, positions) && SliceIs(net, lane, f, l, x) && l < net.layers
             && t < lane.len
    ensures FlatKeys(net, l, positions, x)[lane.offset + t] == FeedRows(net, f, l).k[lane.past + t]
    ensures Values(net, l, x)[lane.offset + t] == FeedRows(net, f, l).v[lane.past + t]
    ensures FlatQueries(net, l, positions, x)[lane.offset + t] == net.query(l, lane.past + t, FeedHidden(net, f, l)[t])
  {
    hide FeedHidden, ChunkHidden;
    assert x[lane.offset + t] == FeedHidden(net, f, l)[t];
    NewRows(net, f, l, t);
  }

  lemma NewRows(net: Net, f: Feed, l: nat, t: nat)
    requires FeedOk(net, f) && l < net.layers && t < |f.ids|
    ensures FeedRows(net, f, l).k[f.past + t] == net.key(l, f.past + t, FeedHidden(net, f, l)[t])
    ensures FeedRows(net, f, l).v[f.past + t] == net.value(l, FeedHidden(net, f, l)[t])
  {
    hide ChunkHidden;
  }

  /** Attention of one lane: write its new rows, gather all its rows, attend. */
  method AttendLane(net: Net, mgr: BlockManager, ghost lanes: seq<Lane>, ghost i: nat, lane: Lane, l: nat,
                    q: seq<Vec>, k: seq<Vec>, v: seq<Vec>,
                    ghost f: Feed, ghost positions: seq<nat>, ghost x: seq<Vec>)
    returns (slice: seq<Vec>)
    requires mgr.Valid() && l < net.layers == mgr.numLayers
    requires Fit(mgr.bs, mgr.keys.Length1, lanes) && Separate(mgr.bs, lanes) && i < |lanes| && lane == lanes[i]
    requires |positions| == |x| && PositionsOf(lane, positions)
    requires q == FlatQueries(net, l, positions, x) && k == FlatKeys(net, l, positions, x) && v == Values(net, l, x)
    requires SliceIs(net, lane, f, l, x) && FeedRowsAre(mgr.keys, mgr.values, mgr.bs, net, lane.table, f, l, lane.past)
    modifies mgr.keys, mgr.values
    ensures |slice| == lane.len
    ensures FeedRowsAre(mgr.keys, mgr.values, mgr.bs, net, lane.table, f, l, lane.past + lane.len)
    ensures forall t: nat :: t < lane.len ==> slice[t] == AttnOf(net, f, l, t)
    ensures forall m, a :: 0 <= m < mgr.numLayers && 0 <= a < mgr.keys.Length1
              && (m != l || !LaneTouches(mgr.bs, lane, a))
              ==> mgr.keys[m, a] == old(mgr.keys[m, a]) && mgr.values[m, a] == old(mgr.values[m, a])
  {
    hide PoolValid, BlockOf, SlotOf, Addr, FlatKeys, FlatQueries, Values, FeedHidden, FeedRows, Touches, DistinctRows;
    hide Filled;
    var total := lane.past + lane.len;
    assert InStore(mgr.bs, mgr.keys.Length1, lane.table, 0, total);
    OwnRowsDistinct(mgr.bs, lanes, i);
    var blocks := SequenceBlocks(lane.table, lane.past);
    mgr.Write(blocks, l, lane.past, k[lane.offset..lane.offset + lane.len], v[lane.offset..lane.offset + lane.len]);
    forall p: nat | p < total
      ensures FeedRowIs(mgr.keys, mgr.values, mgr.bs, net, lane.table, f, l, p)
    {
      if p < lane.past {
        assert old(FeedRowIs(mgr.keys, mgr.values, mgr.bs, net, lane.table, f, l, p));
        WritesMiss(mgr.bs, mgr.keys.Length1, lanes, i, i, p);
      } else {
        ProjectionsAre(net, lane, f, l, positions, x, p - lane.past);
      }
    }
    var kAll, vAll := GatherLane(net, mgr, lane, l, f);
    slice := Attention(net, q[lane.offset..lane.offset + lane.len], kAll, vAll, lane.past);
    forall t: nat | t < lane.len
      ensures slice[t] == AttnOf(net, f, l, t)
    {
      ProjectionsAre(net, lane, f, l, positions, x, t);
    }
  }

  /** All rows of one lane at one layer, in logical order. */
  method GatherLane(net: Net, mgr: BlockManager, lane: Lane, l: nat, ghost f: Feed)
    returns (kAll: seq<Vec>, vAll: seq<Vec>)
    requires mgr.Valid() && l < mgr.numLayers == net.layers
             && InStore(mgr.bs, mgr.keys.Length1, lane.table, 0, lane.past + lane.len)
    requires FeedOk(net, f) && f.past + |f.ids| == lane.past + lane.len
    requires FeedRowsAre(mgr.keys, mgr.values, mgr.bs, net, lane.table, f, l, lane.past + lane.len)
    ensures LayerRowsKV(kAll, vAll) == FeedRows(net, f, l)
  {
    hide PoolValid, BlockOf, SlotOf, Addr, FeedRows, Filled;
    kAll := mgr.GatherOne(mgr.keys, lane.table, l, lane.past + lane.len);
    vAll := mgr.GatherOne(mgr.values, lane.table, l, lane.past + lane.len);
    forall p: nat | p < lane.past + lane.len
      ensures kAll[p] == FeedRows(net, f, l).k[p] && vAll[p] == FeedRows(net, f, l).v[p]
    {
      assert FeedRowIs(mgr.keys, mgr.values, mgr.bs, net, lane.table, f, l, p);
    }
  }
}
