/**
 The batched forward over the shared pool: many sequences, prefill and decode mixed, one pass over the
 layers. Each item gets the logits of its own full context alone.
 */
module ForwardBatches {
  import opened Arithmetic
  import opened Results
  import opened Network
  import opened ForwardCached
  import opened PrefixCaches
  import opened BlockPools
  import opened BlockManagers
  import opened RowContents
  import opened Lanes

  /** One sequence's new tokens; `seqIndex` points at its paging state. */
  datatype BatchItem = BatchItem(seqIndex: nat, tokens: seq<Token>)

  /** What is known of a lane before a layer runs. */
  ghost predicate LaneReady(keys: Store, values: Store, bs: nat, net: Net, lane: Lane, f: Feed, l: nat,
                            x: seq<Vec>)
    reads keys, values
  {
    SliceIs(net, lane, f, l, x) && FeedRowsAre(keys, values, bs, net, lane.table, f, l, lane.past)
  }

  /** ... and after it has attended. */
  ghost predicate LaneDone(keys: Store, values: Store, bs: nat, net: Net, lane: Lane, f: Feed, l: nat,
                           attn: seq<Vec>)
    reads keys, values
  {
    AttnIs(net, lane, f, l, attn) && FeedRowsAre(keys, values, bs, net, lane.table, f, l, lane.past + lane.len)
  }

  /** The flat layout of a batch. */
  ghost predicate Layout(mgr: BlockManager, net: Net, lanes: seq<Lane>, positions: seq<nat>, feeds: seq<Feed>) {
    && mgr.bs > 0 && net.layers == mgr.numLayers
    && Laid(lanes, |positions|) && Fit(mgr.bs, mgr.keys.Length1, lanes) && Separate(mgr.bs, lanes)
    && |feeds| == |lanes|
    && forall i :: 0 <= i < |lanes| ==> PositionsOf(lanes[i], positions)
  }

  /** Splicing one lane's attention rows leaves the slices of the lanes before it alone. */
  lemma SpliceKeeps(net: Net, lanes: seq<Lane>, j: nat, i: nat, f: Feed, l: nat, attn: seq<Vec>,
                    slice: seq<Vec>)
    requires j < i < |lanes| && Laid(lanes, |attn|) && |slice| == lanes[i].len && AttnIs(net, lanes[j], f, l, attn)
    ensures AttnIs(net, lanes[j], f, l, Splice(attn, lanes[i].offset, slice))
  {
    hide AttnOf;
  }

  lemma SpliceDone(net: Net, lane: Lane, f: Feed, l: nat, attn: seq<Vec>, slice: seq<Vec>)
    requires Carries(net, lane, f, |attn|) && l < net.layers && |slice| == lane.len
    requires forall t: nat :: t < lane.len ==> slice[t] == AttnOf(net, f, l, t)
    ensures AttnIs(net, lane, f, l, Splice(attn, lane.offset, slice))
  {
    hide AttnOf;
    var r := Splice(attn, lane.offset, slice);
    forall u | lane.offset <= u < lane.offset + lane.len
      ensures r[u] == AttnOf(net, f, l, u - lane.offset)
    {
      assert r[u] == slice[u - lane.offset];
    }
  }

  /** The residual rows after a layer are the context's hidden rows entering the next. */
  lemma MixedIs(net: Net, lane: Lane, f: Feed, l: nat, x: seq<Vec>, attn: seq<Vec>)
    requires |x| == |attn| && SliceIs(net, lane, f, l, x) && AttnIs(net, lane, f, l, attn)
    ensures SliceIs(net, lane, f, l + 1, Mix(net, l, x, attn))
  {
    hide AttnOf;
    var y := Mix(net, l, x, attn);
    forall u | lane.offset <= u < lane.offset + lane.len
      ensures y[u] == FeedHidden(net, f, l + 1)[u - lane.offset]
    {
      NextHidden(net, f, l, u - lane.offset);
    }
    hide FeedHidden;
  }

  /** Physical row a belongs to none of the first n lanes' new rows. */
  ghost predicate Untouched(bs: nat, lanes: seq<Lane>, n: nat, a: nat)
    requires bs > 0
  {
    forall j :: 0 <= j < n && j < |lanes| ==> !LaneTouches(bs, lanes[j], a)
  }

  /** The first i lanes have attended, the others are still ready. */
  ghost predicate Attended(keys: Store, values: Store, bs: nat, net: Net, lanes: seq<Lane>, feeds: seq<Feed>,
                           l: nat, x: seq<Vec>, attn: seq<Vec>, i: nat)
    requires |feeds| == |lanes|
    reads keys, values
  {
    && |attn| == |x|
    && (forall j :: 0 <= j < i && j < |lanes| ==> LaneDone(keys, values, bs, net, lanes[j], feeds[j], l, attn))
    && (forall j :: i <= j < |lanes| ==> LaneReady(keys, values, bs, net, lanes[j], feeds[j], l, x))
  }

  /** One item of the inner loop: its rows are written, and its attention rows are spliced in. */
  method AttendItem(net: Net, mgr: BlockManager, lanes: seq<Lane>, l: nat, positions: seq<nat>, x: seq<Vec>,
                    q: seq<Vec>, k: seq<Vec>, v: seq<Vec>, before: seq<Vec>, i: nat,
                    ghost feeds: seq<Feed>)
    returns (attn: seq<Vec>)
    requires mgr.Valid() && l < net.layers && |x| == |positions| && Layout(mgr, net, lanes, positions, feeds)
    requires q == FlatQueries(net, l, positions, x) && k == FlatKeys(net, l, positions, x) && v == Values(net, l, x)
    requires i < |lanes| && Attended(mgr.keys, mgr.values, mgr.bs, net, lanes, feeds, l, x, before, i)
    modifies mgr.keys, mgr.values
    ensures Attended(mgr.keys, mgr.values, mgr.bs, net, lanes, feeds, l, x, attn, i + 1)
    ensures forall m, a :: 0 <= m < mgr.numLayers && 0 <= a < mgr.keys.Length1
              && (m != l || !LaneTouches(mgr.bs, lanes[i], a))
              ==> mgr.keys[m, a] == old(mgr.keys[m, a]) && mgr.values[m, a] == old(mgr.values[m, a])
  {
    hide PoolValid, FlatQueries, FlatKeys, FeedHidden, FeedRows, Filled;
    var slice := AttendLane(net, mgr, lanes, i, lanes[i], l, q, k, v, feeds[i], positions, x);
    attn := Splice(before, lanes[i].offset, slice);
    forall j, p: nat | 0 <= j < |lanes| && j != i && p < RowsOf(lanes[j], j < i)
                       && old(FeedRowIs(mgr.keys, mgr.values, mgr.bs, net, lanes[j].table, feeds[j], l, p))
      ensures FeedRowIs(mgr.keys, mgr.values, mgr.bs, net, lanes[j].table, feeds[j], l, p)
    {
      WritesMiss(mgr.bs, mgr.keys.Length1, lanes, i, j, p);
    }
    forall j | 0 <= j < |lanes|
      ensures j <= i ==> LaneDone(mgr.keys, mgr.values, mgr.bs, net, lanes[j], feeds[j], l, attn)
      ensures j > i ==> LaneReady(mgr.keys, mgr.values, mgr.bs, net, lanes[j], feeds[j], l, x)
    {
      if j < i {
        assert old(LaneDone(mgr.keys, mgr.values, mgr.bs, net, lanes[j], feeds[j], l, before));
        SpliceKeeps(net, lanes, j, i, feeds[j], l, before, slice);
      } else if j == i {
        SpliceDone(net, lanes[i], feeds[i], l, before, slice);
      } else {
        assert old(LaneReady(mgr.keys, mgr.values, mgr.bs, net, lanes[j], feeds[j], l, x));
      }
    }
  }

  /** How many rows of a lane are written, before or after its turn. */
  ghost function RowsOf(lane: Lane, attended: bool): nat {
    if attended then lane.past + lane.len else lane.past
  }

  /** One layer's attention, item by item over its own paged rows. */
  method AttendAll(net: Net, mgr: BlockManager, lanes: seq<Lane>, l: nat, positions: seq<nat>, x: seq<Vec>,
                   ghost feeds: seq<Feed>)
    returns (attn: seq<Vec>)
    requires mgr.Valid() && l < net.layers && |x| == |positions| && Layout(mgr, net, lanes, positions, feeds)
    requires forall i :: 0 <= i < |lanes| ==> LaneReady(mgr.keys, mgr.values, mgr.bs, net, lanes[i], feeds[i], l, x)
    modifies mgr.keys, mgr.values
    ensures |attn| == |x|
    ensures forall i :: 0 <= i < |lanes| ==> LaneDone(mgr.keys, mgr.values, mgr.bs, net, lanes[i], feeds[i], l, attn)
    ensures forall m, a :: 0 <= m < mgr.numLayers && 0 <= a < mgr.keys.Length1
              && (m != l || Untouched(mgr.bs, lanes, |lanes|, a))
              ==> mgr.keys[m, a] == old(mgr.keys[m, a]) && mgr.values[m, a] == old(mgr.values[m, a])
  {
    hide PoolValid, LaneTouches, FlatQueries, FlatKeys, Values, LaneDone, LaneReady, Laid, Separate, Fit, PositionsOf;
    var q := FlatQueries(net, l, positions, x);
    var k := FlatKeys(net, l, positions, x);
    var v := Values(net, l, x);
    attn := seq(|x|, t => []);
    var i := 0;
    while i < |lanes|
      invariant 0 <= i <= |lanes|
      invariant Attended(mgr.keys, mgr.values, mgr.bs, net, lanes, feeds, l, x, attn, i)
      invariant forall m, a :: 0 <= m < mgr.numLayers && 0 <= a < mgr.keys.Length1
                  && (m != l || Untouched(mgr.bs, lanes, i, a))
                  ==> mgr.keys[m, a] == old(mgr.keys[m, a]) && mgr.values[m, a] == old(mgr.values[m, a])
    {
      attn := AttendItem(net, mgr, lanes, l, positions, x, q, k, v, attn, i, feeds);
      assert forall a: nat :: Untouched(mgr.bs, lanes, i + 1, a) ==>
               Untouched(mgr.bs, lanes, i, a) && !LaneTouches(mgr.bs, lanes[i], a);
      i := i + 1;
    }
  }

  // ---- All layers ---------------------------------------------------------------------------

  /** Layer m has all the lane's rows once m < l, and only its cached ones before. */
  ghost predicate LayerAt(keys: Store, values: Store, bs: nat, net: Net, lane: Lane, f: Feed, l: nat, m: nat)
    reads keys, values
  {
    FeedRowsAre(keys, values, bs, net, lane.table, f, m, RowsOf(lane, m < l))
  }

  ghost predicate LaneAt(keys: Store, values: Store, bs: nat, net: Net, lane: Lane, f: Feed, l: nat,
                         x: seq<Vec>)
    reads keys, values
  {
    && SliceIs(net, lane, f, l, x)
    && forall m: nat :: m < net.layers ==> LayerAt(keys, values, bs, net, lane, f, l, m)
  }

  /** The lane's slice of the tokens is what the feed feeds. */
  ghost predicate IdsOf(net: Net, lane: Lane, f: Feed, ids: seq<Token>) {
    && Carries(net, lane, f, |ids|)
    && forall u :: lane.offset <= u < lane.offset + lane.len ==> ids[u] == f.ids[u - lane.offset]
  }

  /** One layer: attention, then the residual mix of every row. */
  method RunLayer(net: Net, mgr: BlockManager, lanes: seq<Lane>, l: nat, positions: seq<nat>, x: seq<Vec>,
                  ghost feeds: seq<Feed>)
    returns (y: seq<Vec>)
    requires mgr.Valid() && l < net.layers && |x| == |positions| && Layout(mgr, net, lanes, positions, feeds)
    requires forall i :: 0 <= i < |lanes| ==> LaneAt(mgr.keys, mgr.values, mgr.bs, net, lanes[i], feeds[i], l, x)
    modifies mgr.keys, mgr.values
    ensures |y| == |x|
    ensures forall i :: 0 <= i < |lanes| ==> LaneAt(mgr.keys, mgr.values, mgr.bs, net, lanes[i], feeds[i], l + 1, y)
    ensures forall m, a :: 0 <= m < mgr.numLayers && 0 <= a < mgr.keys.Length1 && Untouched(mgr.bs, lanes, |lanes|, a)
              ==> mgr.keys[m, a] == old(mgr.keys[m, a]) && mgr.values[m, a] == old(mgr.values[m, a])
  {
    hide PoolValid, Untouched, Laid, Separate, Fit, PositionsOf, SliceIs, AttnIs, Mix;
    forall i | 0 <= i < |lanes|
      ensures LaneReady(mgr.keys, mgr.values, mgr.bs, net, lanes[i], feeds[i], l, x)
    {
      assert LayerAt(mgr.keys, mgr.values, mgr.bs, net, lanes[i], feeds[i], l, l);
    }
    var attn := AttendAll(net, mgr, lanes, l, positions, x, feeds);
    y := Mix(net, l, x, attn);
    ghost var next := l + 1;
    forall i | 0 <= i < |lanes|
      ensures LaneAt(mgr.keys, mgr.values, mgr.bs, net, lanes[i], feeds[i], l + 1, y)
    {
      assert old(LaneAt(mgr.keys, mgr.values, mgr.bs, net, lanes[i], feeds[i], l, x));
      assert LaneDone(mgr.keys, mgr.values, mgr.bs, net, lanes[i], feeds[i], l, attn);
      MixedIs(net, lanes[i], feeds[i], l, x, attn);
      forall m: nat | m < net.layers
        ensures LayerAt(mgr.keys, mgr.values, mgr.bs, net, lanes[i], feeds[i], next, m)
      {
        if m != l {
          assert old(LayerAt(mgr.keys, mgr.values, mgr.bs, net, lanes[i], feeds[i], l, m));
          forall p: nat | p < RowsOf(lanes[i], m < l)
            ensures FeedRowIs(mgr.keys, mgr.values, mgr.bs, net, lanes[i].table, feeds[i], m, p)
          {
            assert old(FeedRowIs(mgr.keys, mgr.values, mgr.bs, net, lanes[i].table, feeds[i], m, p));
          }
        }
      }
    }
  }

  /** The layer loop over the flat rows of all items. */
  method RunLayers(net: Net, mgr: BlockManager, lanes: seq<Lane>, ids: seq<Token>, positions: seq<nat>,
                   ghost feeds: seq<Feed>)
    returns (x: seq<Vec>)
    requires mgr.Valid() && |ids| == |positions| && Layout(mgr, net, lanes, positions, feeds)
    requires forall i :: 0 <= i < |lanes| ==>
               IdsOf(net, lanes[i], feeds[i], ids)
                   && FeedHolds(mgr.keys, mgr.values, mgr.bs, net, lanes[i].table, feeds[i], lanes[i].past)
    modifies mgr.keys, mgr.values
    ensures |x| == |ids|
    ensures forall i :: 0 <= i < |lanes| ==>
              && SliceIs(net, lanes[i], feeds[i], net.layers, x)
              && FeedHolds(mgr.keys, mgr.values, mgr.bs, net, lanes[i].table, feeds[i], lanes[i].past + lanes[i].len)
    ensures forall m, a :: 0 <= m < mgr.numLayers && 0 <= a < mgr.keys.Length1 && Untouched(mgr.bs, lanes, |lanes|, a)
              ==> mgr.keys[m, a] == old(mgr.keys[m, a]) && mgr.values[m, a] == old(mgr.values[m, a])
  {
    hide PoolValid, Untouched, Laid, Separate, Fit, PositionsOf, FeedRowsAre;
    x := Embed(net, ids);
    forall i | 0 <= i < |lanes|
      ensures LaneAt(mgr.keys, mgr.values, mgr.bs, net, lanes[i], feeds[i], 0, x)
    {
      FirstSlice(net, lanes[i], feeds[i], ids);
    }
    var l := 0;
    while l < net.layers
      invariant 0 <= l <= net.layers && |x| == |ids|
      invariant forall i :: 0 <= i < |lanes| ==> LaneAt(mgr.keys, mgr.values, mgr.bs, net, lanes[i], feeds[i], l, x)
      invariant forall m, a :: 0 <= m < mgr.numLayers && 0 <= a < mgr.keys.Length1
                  && Untouched(mgr.bs, lanes, |lanes|, a)
                  ==> mgr.keys[m, a] == old(mgr.keys[m, a]) && mgr.values[m, a] == old(mgr.values[m, a])
    {
      x := RunLayer(net, mgr, lanes, l, positions, x, feeds);
      l := l + 1;
    }
    forall i | 0 <= i < |lanes|
      ensures FeedHolds(mgr.keys, mgr.values, mgr.bs, net, lanes[i].table, feeds[i], lanes[i].past + lanes[i].len)
    {
      assert LaneAt(mgr.keys, mgr.values, mgr.bs, net, lanes[i], feeds[i], net.layers, x);
      ghost var total := lanes[i].past + lanes[i].len;
      forall m: nat | m < net.layers
        ensures FeedRowsAre(mgr.keys, mgr.values, mgr.bs, net, lanes[i].table, feeds[i], m, total)
      {
        assert LayerAt(mgr.keys, mgr.values, mgr.bs, net, lanes[i], feeds[i], net.layers, m);
      }
    }
  }

  lemma FirstSlice(net: Net, lane: Lane, f: Feed, ids: seq<Token>)
    requires IdsOf(net, lane, f, ids)
    ensures SliceIs(net, lane, f, 0, Embed(net, ids))
  {
  }

  // ---- Reservation --------------------------------------------------------------------------

  /** Grows every item's table in turn; an item without tokens or an exhausted pool stops it. */
  ghost function ReserveItems(bs: nat, s: Pool, blocks: seq<SequenceBlocks>, items: seq<BatchItem>, i: nat)
    : (r: (Result<()>, seq<SequenceBlocks>, Pool))
    requires bs > 0 && FreeInRange(s)
    requires forall k :: 0 <= k < |items| ==> items[k].seqIndex < |blocks|
    ensures |r.1| == |blocks|
    decreases |items| - i
  {
    if i >= |items| then (Ok(()), blocks, s)
    else if items[i].tokens == [] then (Throws(EmptyInput), blocks, s)
    else
      var b := blocks[items[i].seqIndex];
      var (r, table, t) := ReserveFrom(s, b.table, BlocksFor(bs, b.length + |items[i].tokens|));
      var grown := blocks[items[i].seqIndex := b.(table := table)];
      if r.Throws? then (r, grown, t) else ReserveItems(bs, t, grown, items, i + 1)
  }

  ghost predicate DistinctItems(items: seq<BatchItem>, n: nat) {
    && (forall k :: 0 <= k < |items| ==> items[k].seqIndex < n)
    && (forall k, m :: 0 <= k < m < |items| ==> items[k].seqIndex != items[m].seqIndex)
  }

  ghost predicate NotAnItem(items: seq<BatchItem>, from: nat, j: nat) {
    forall k :: from <= k < |items| ==> items[k].seqIndex != j
  }

  /** The bookkeeping of pool and tables: references agree, and writable blocks have one holder. */
  ghost predicate Paged(bs: nat, s: Pool, blocks: seq<SequenceBlocks>) {
    bs > 0 && PoolValid(bs, s) && s.held == AllHeld(blocks) && Exclusive(bs, s.count, blocks)
  }

  /** Tables only grow, and only those of items from `from` on. */
  ghost predicate TablesGrew(blocks: seq<SequenceBlocks>, items: seq<BatchItem>, from: nat,
                             grown: seq<SequenceBlocks>) {
    && |grown| == |blocks|
    && (forall j :: 0 <= j < |blocks| ==> blocks[j].table <= grown[j].table && grown[j].length == blocks[j].length)
    && (forall j :: 0 <= j < |blocks| && NotAnItem(items, from, j) ==> grown[j] == blocks[j])
  }

  lemma ReserveOneKeeps(bs: nat, s: Pool, blocks: seq<SequenceBlocks>, j: nat, need: nat)
    requires Paged(bs, s, blocks) && FreeInRange(s) && j < |blocks|
    ensures var (r, table, t) := ReserveFrom(s, blocks[j].table, need);
            && Paged(bs, t, blocks[j := blocks[j].(table := table)])
            && blocks[j].table <= table && |t.count| == |s.count| && t.seen == s.seen
            && (r.Ok? ==> |table| == if |blocks[j].table| < need then need else |blocks[j].table|)
  {
    hide PoolValid, CacheRefs, AllHeld, HasEvictable, BlockOf, Exclusive, FreeInRange;
    ReserveKeeps(bs, s, blocks[j].table, need);
    var (r, table, t) := ReserveFrom(s, blocks[j].table, need);
    hide ReserveFrom;
    GrownIsPaged(bs, s, blocks, j, t, table);
  }

  lemma GrownIsPaged(bs: nat, s: Pool, blocks: seq<SequenceBlocks>, j: nat, t: Pool, table: seq<nat>)
    requires Paged(bs, s, blocks) && j < |blocks| && Reserved(bs, s, blocks[j].table, t, table)
    ensures Paged(bs, t, blocks[j := blocks[j].(table := table)])
  {
    hide PoolValid, CacheRefs, AllHeld, BlockOf;
    var grown := blocks[j := blocks[j].(table := table)];
    AllHeldUpdate(blocks, j, grown[j]);
    assert table == blocks[j].table + table[|blocks[j].table|..];
    assert t.held == AllHeld(grown);
    forall i, k | 0 <= i < |grown| && BlockOf(bs, grown[i].length) <= k < |grown[i].table|
      ensures grown[i].table[k] < |t.count| && t.count[grown[i].table[k]] == 1
    {
      if i != j || k < |blocks[j].table| {
        assert grown[i].table[k] == blocks[i].table[k];
        AllHeldAt(blocks, i, k);
      }
    }
  }

  /** The item's table is now as long as its context needs, or as long as it was before. */
  ghost predicate Reaches(bs: nat, blocks: seq<SequenceBlocks>, item: BatchItem, grown: seq<SequenceBlocks>)
    requires bs > 0
  {
    && item.seqIndex < |blocks| && item.seqIndex < |grown|
    && var b := blocks[item.seqIndex];
       var need := BlocksFor(bs, b.length + |item.tokens|);
       |grown[item.seqIndex].table| == if |b.table| < need then need else |b.table|
  }

  /** The outcome of reserving items from `from` on. */
  ghost predicate ItemsReserved(bs: nat, s: Pool, blocks: seq<SequenceBlocks>, items: seq<BatchItem>, from: nat,
                                r: Result<()>, grown: seq<SequenceBlocks>, t: Pool)
    requires bs > 0
  {
    && Paged(bs, t, grown) && |t.count| == |s.count| && t.seen == s.seen && TablesGrew(blocks, items, from, grown)
    && (r.Ok? ==> forall k :: from <= k < |items| ==> items[k].tokens != [] && Reaches(bs, blocks, items[k], grown))
  }

  lemma {:induction false} ReserveItemsKeeps(bs: nat, s: Pool, blocks: seq<SequenceBlocks>, items: seq<BatchItem>,
                                             i: nat)
    requires bs > 0 && Paged(bs, s, blocks) && FreeInRange(s) && DistinctItems(items, |blocks|)
    ensures var (r, grown, t) := ReserveItems(bs, s, blocks, items, i);
            ItemsReserved(bs, s, blocks, items, i, r, grown, t)
    decreases |items| - i
  {
    hide Paged, BlocksFor, ReserveFrom, ItemsReserved;
    if i < |items| && items[i].tokens != [] {
      var j := items[i].seqIndex;
      var need := BlocksFor(bs, blocks[j].length + |items[i].tokens|);
      ReserveOneKeeps(bs, s, blocks, j, need);
      var (r, table, t) := ReserveFrom(s, blocks[j].table, need);
      var grown := blocks[j := blocks[j].(table := table)];
      PagedInRange(bs, t, grown);
      if r.Ok? {
        ReserveItemsKeeps(bs, t, grown, items, i + 1);
        var (q, out, u) := ReserveItems(bs, t, grown, items, i + 1);
        ReservedOneMore(bs, s, t, blocks, grown, items, i, q, out, u);
      } else {
        ReservedNone(bs, s, t, blocks, grown, items, i, r);
      }
    } else {
      ReservedNone(bs, s, s, blocks, blocks, items, i, if i < |items| then Throws(EmptyInput) else Ok(()));
    }
  }

  lemma PagedInRange(bs: nat, s: Pool, blocks: seq<SequenceBlocks>)
    requires Paged(bs, s, blocks)
    ensures bs > 0 && FreeInRange(s) && PoolValid(bs, s)
  {
    ValidIsConsistent(bs, s);
    hide PoolValid;
  }

  lemma ReservedNone(bs: nat, s: Pool, t: Pool, blocks: seq<SequenceBlocks>, grown: seq<SequenceBlocks>,
                     items: seq<BatchItem>, i: nat, r: Result<()>)
    requires bs > 0 && Paged(bs, t, grown) && |t.count| == |s.count| && t.seen == s.seen
    requires TablesGrew(blocks, items, i, grown) || TablesGrewAt(blocks, items, i, grown)
    requires r.Ok? ==> i >= |items|
    ensures ItemsReserved(bs, s, blocks, items, i, r, grown, t)
  {
    hide Paged;
  }

  /** Only item i's table grew. */
  ghost predicate TablesGrewAt(blocks: seq<SequenceBlocks>, items: seq<BatchItem>, i: nat, grown: seq<SequenceBlocks>) {
    && i < |items| && items[i].seqIndex < |blocks|
    && |grown| == |blocks| && blocks[items[i].seqIndex].table <= grown[items[i].seqIndex].table
    && grown == blocks[items[i].seqIndex := blocks[items[i].seqIndex].(table := grown[items[i].seqIndex].table)]
  }

  lemma ReservedOneMore(bs: nat, s: Pool, t: Pool, blocks: seq<SequenceBlocks>, grown: seq<SequenceBlocks>,
                        items: seq<BatchItem>, i: nat,
                        r: Result<()>, out: seq<SequenceBlocks>, u: Pool)
    requires bs > 0 && i < |items| && items[i].tokens != [] && DistinctItems(items, |blocks|)
    requires TablesGrewAt(blocks, items, i, grown) && Reaches(bs, blocks, items[i], grown)
    requires |t.count| == |s.count| && t.seen == s.seen
    requires ItemsReserved(bs, t, grown, items, i + 1, r, out, u)
    ensures ItemsReserved(bs, s, blocks, items, i, r, out, u)
  {
    hide Paged, BlocksFor;
    var j := items[i].seqIndex;
    assert NotAnItem(items, i + 1, j);
    assert forall m: nat :: NotAnItem(items, i, m) ==> NotAnItem(items, i + 1, m) && m != j;
    hide NotAnItem;
    forall k | i < k < |items| && r.Ok?
      ensures Reaches(bs, blocks, items[k], out)
    {
      assert Reaches(bs, grown, items[k], out);
    }
  }

  // ---- Budget -------------------------------------------------------------------------------

  /** Blocks the sequence must still get to hold n more tokens. */
  function Delta(bs: nat, b: SequenceBlocks, n: nat): int
    requires bs > 0
  {
    BlocksFor(bs, b.length + n) - |b.table|
  }

  /** Blocks all items of a batch must still get. */
  ghost function SumDeltas(bs: nat, blocks: seq<SequenceBlocks>, items: seq<BatchItem>): int
    requires bs > 0 && forall k :: 0 <= k < |items| ==> items[k].seqIndex < |blocks|
  {
    if items == [] then 0
    else
      var last := items[|items| - 1];
      SumDeltas(bs, blocks, items[..|items| - 1]) + Delta(bs, blocks[last.seqIndex], |last.tokens|)
  }

  lemma {:induction false} SumDeltasSame(bs: nat, blocks: seq<SequenceBlocks>, other: seq<SequenceBlocks>,
                                         items: seq<BatchItem>)
    requires bs > 0 && forall k :: 0 <= k < |items| ==> items[k].seqIndex < |blocks| && items[k].seqIndex < |other|
    requires forall k :: 0 <= k < |items| ==> blocks[items[k].seqIndex] == other[items[k].seqIndex]
    ensures SumDeltas(bs, blocks, items) == SumDeltas(bs, other, items)
  {
    hide Delta;
    if items != [] {
      SumDeltasSame(bs, blocks, other, items[..|items| - 1]);
    }
  }

  lemma {:induction false} SumDeltasFirst(bs: nat, blocks: seq<SequenceBlocks>, items: seq<BatchItem>)
    requires bs > 0 && items != [] && forall k :: 0 <= k < |items| ==> items[k].seqIndex < |blocks|
    ensures SumDeltas(bs, blocks, items)
            == Delta(bs, blocks[items[0].seqIndex], |items[0].tokens|) + SumDeltas(bs, blocks, items[1..])
  {
    hide Delta;
    var n := |items| - 1;
    if n > 0 {
      SumDeltasFirst(bs, blocks, items[..n]);
      assert items[1..][..n - 1] == items[..n][1..];
    }
  }

  lemma {:induction false} SumDeltasNonNegative(bs: nat, blocks: seq<SequenceBlocks>, items: seq<BatchItem>)
    requires bs > 0 && forall k :: 0 <= k < |items| ==> items[k].seqIndex < |blocks|
    requires forall k :: 0 <= k < |items| ==> Delta(bs, blocks[items[k].seqIndex], |items[k].tokens|) >= 0
    ensures SumDeltas(bs, blocks, items) >= 0
  {
    hide Delta;
    if items != [] {
      SumDeltasNonNegative(bs, blocks, items[..|items| - 1]);
    }
  }

  lemma NoDeltas(bs: nat, blocks: seq<SequenceBlocks>)
    requires bs > 0
    ensures SumDeltas(bs, blocks, []) == 0
  {
  }

  /** A batch within the free list is reserved entirely from it: no throw and no eviction. */
  lemma {:induction false} ReserveItemsWithinFree(bs: nat, s: Pool, blocks: seq<SequenceBlocks>, items: seq<BatchItem>)
    requires bs > 0 && Paged(bs, s, blocks) && FreeInRange(s) && DistinctItems(items, |blocks|)
    requires forall k :: 0 <= k < |items| ==>
               items[k].tokens != [] && Delta(bs, blocks[items[k].seqIndex], |items[k].tokens|) >= 0
    requires SumDeltas(bs, blocks, items) <= |s.free|
    ensures var (r, grown, t) := ReserveItems(bs, s, blocks, items, 0);
            r.Ok? && t.prefix == s.prefix && t.tick == s.tick && |t.free| == |s.free| - SumDeltas(bs, blocks, items)
    decreases |items|
  {
    hide Paged, BlocksFor, ReserveFrom, SumDeltas, Reserved, NotAnItem;
    NoDeltas(bs, blocks);
    if items != [] {
      var j := items[0].seqIndex;
      var need := BlocksFor(bs, blocks[j].length + |items[0].tokens|);
      var rest := items[1..];
      SumDeltasFirst(bs, blocks, items);
      SumDeltasNonNegative(bs, blocks, rest);
      PagedInRange(bs, s, blocks);
      ReserveWithinFree(bs, s, blocks[j].table, need);
      ReserveOneKeeps(bs, s, blocks, j, need);
      var (r, table, t) := ReserveFrom(s, blocks[j].table, need);
      var grown := blocks[j := blocks[j].(table := table)];
      PagedInRange(bs, t, grown);
      SumDeltasSame(bs, blocks, grown, rest);
      ReserveItemsWithinFree(bs, t, grown, rest);
      ReserveItemsShift(bs, t, grown, items, 1);
    }
  }

  lemma {:induction false} ReserveItemsShift(bs: nat, s: Pool, blocks: seq<SequenceBlocks>, items: seq<BatchItem>,
                                             i: nat)
    requires bs > 0 && FreeInRange(s) && 0 < i <= |items| && forall k :: 0 <= k < |items| ==>
               items[k].seqIndex < |blocks|
    ensures ReserveItems(bs, s, blocks, items, i) == ReserveItems(bs, s, blocks, items[1..], i - 1)
    decreases |items| - i
  {
    hide BlocksFor, ReserveFrom;
    if i < |items| && items[i].tokens != [] {
      var b := blocks[items[i].seqIndex];
      var (r, table, t) := ReserveFrom(s, b.table, BlocksFor(bs, b.length + |items[i].tokens|));
      ReserveStaysInRange(s, b.table, BlocksFor(bs, b.length + |items[i].tokens|));
      ReserveItemsShift(bs, t, blocks[items[i].seqIndex := b.(table := table)], items, i + 1);
    }
  }

  lemma ReserveStaysInRange(s: Pool, table: seq<nat>, need: nat)
    requires FreeInRange(s)
    ensures FreeInRange(ReserveFrom(s, table, need).2)
  {
  }

  // ---- The batch ----------------------------------------------------------------------------

  /** Where the items live in the flat layout once their tables have grown. */
  ghost predicate LanesOf(blocks: seq<SequenceBlocks>, items: seq<BatchItem>, n: nat, lanes: seq<Lane>,
                          ids: seq<Token>, positions: seq<nat>) {
    && |lanes| == n <= |items| && Laid(lanes, |ids|) && Dense(lanes, |ids|) && |positions| == |ids|
    && forall i :: 0 <= i < n ==>
         && items[i].seqIndex < |blocks|
         && lanes[i].table == blocks[items[i].seqIndex].table && lanes[i].past == blocks[items[i].seqIndex].length
         && lanes[i].len == |items[i].tokens|
         && PositionsOf(lanes[i], positions)
         && ids[lanes[i].offset..lanes[i].offset + lanes[i].len] == items[i].tokens
  }

  /** Every flat position belongs to some lane. */
  ghost predicate Dense(lanes: seq<Lane>, total: nat) {
    forall u :: 0 <= u < total ==> Covered(lanes, u)
  }

  ghost predicate Covered(lanes: seq<Lane>, u: nat) {
    exists i :: 0 <= i < |lanes| && InLane(lanes[i], u)
  }

  predicate InLane(lane: Lane, u: nat) {
    lane.offset <= u < lane.offset + lane.len
  }

  /** Every item's tokens are in the vocabulary. */
  ghost predicate ItemsInVocab(net: Net, items: seq<BatchItem>) {
    forall i :: 0 <= i < |items| ==> AllInVocab(net, items[i].tokens)
  }

  /** First loop of the batched forward: flat tokens and positions, lanes, and reservations. */
  method LayOut(mgr: BlockManager, blocks: seq<SequenceBlocks>, items: seq<BatchItem>)
    returns (r: Result<()>, grown: seq<SequenceBlocks>, lanes: seq<Lane>, ids: seq<Token>, positions: seq<nat>)
    requires mgr.Valid() && FreeInRange(mgr.State()) && DistinctItems(items, |blocks|)
    modifies mgr`prefix, mgr`held, mgr.alloc
    ensures mgr.Valid() && FreeInRange(mgr.State())
    ensures (r, grown, mgr.State()) == ReserveItems(mgr.bs, old(mgr.State()), blocks, items, 0)
    ensures r.Ok? ==> LanesOf(grown, items, |items|, lanes, ids, positions)
  {
    hide PoolValid, ReserveFrom, BlocksFor, FreeInRange;
    r, grown, lanes, ids, positions := Ok(()), blocks, [], [], [];
    var i := 0;
    while i < |items|
      invariant 0 <= i <= |items| && |grown| == |blocks|
      invariant mgr.Valid() && FreeInRange(mgr.State()) && r == Ok(())
      invariant ReserveItems(mgr.bs, mgr.State(), grown, items, i)
                == ReserveItems(mgr.bs, old(mgr.State()), blocks, items, 0)
      invariant LanesOf(grown, items, i, lanes, ids, positions)
    {
      var tokens := items[i].tokens;
      if tokens == [] {
        r := Throws(EmptyInput);
        return;
      }
      var b := grown[items[i].seqIndex];
      ValidIsConsistent(mgr.bs, mgr.State());
      var reserved, after := mgr.Reserve(b, |tokens|);
      ValidIsConsistent(mgr.bs, mgr.State());
      ghost var before := grown;
      grown := grown[items[i].seqIndex := after];
      if reserved.Throws? {
        r := reserved;
        return;
      }
      var lane := Lane(after.table, b.length, |ids|, |tokens|);
      LaneAdded(before, grown, items, i, lanes, ids, positions, lane);
      lanes := lanes + [lane];
      ids := ids + tokens;
      positions := positions + seq(|tokens|, t => b.length + t);
      i := i + 1;
    }
  }

  lemma LaneAdded(before: seq<SequenceBlocks>, grown: seq<SequenceBlocks>, items: seq<BatchItem>, i: nat,
                  lanes: seq<Lane>, ids: seq<Token>, positions: seq<nat>, lane: Lane)
    requires i < |items| && DistinctItems(items, |before|) && |grown| == |before|
    requires LanesOf(before, items, i, lanes, ids, positions)
    requires grown == before[items[i].seqIndex := before[items[i].seqIndex].(table := lane.table)]
    requires lane == Lane(lane.table, before[items[i].seqIndex].length, |ids|, |items[i].tokens|)
    ensures LanesOf(grown, items, i + 1, lanes + [lane], ids + items[i].tokens,
                    positions + seq(|items[i].tokens|, t => before[items[i].seqIndex].length + t))
  {
    var allIds := ids + items[i].tokens;
    var allPositions := positions + seq(|items[i].tokens|, t => lane.past + t);
    forall j | 0 <= j < i
      ensures allIds[lanes[j].offset..lanes[j].offset + lanes[j].len] == items[j].tokens
      ensures PositionsOf(lanes[j], allPositions)
      ensures grown[items[j].seqIndex] == before[items[j].seqIndex]
    {
      assert allIds[lanes[j].offset..lanes[j].offset + lanes[j].len]
             == ids[lanes[j].offset..lanes[j].offset + lanes[j].len];
    }
    assert allIds[lane.offset..lane.offset + lane.len] == items[i].tokens;
    forall u: nat | u < |allIds|
      ensures Covered(lanes + [lane], u)
    {
      if u < |ids| {
        assert Covered(lanes, u);
        var j :| 0 <= j < |lanes| && InLane(lanes[j], u);
        assert InLane((lanes + [lane])[j], u);
      } else {
        assert InLane((lanes + [lane])[i], u);
      }
    }
  }

  /** A table that reaches blocks_for(n) blocks has a physical row for each of n rows. */
  lemma TableInStore(bs: nat, s: Pool, blocks: seq<SequenceBlocks>, j: nat, n: nat)
    requires Paged(bs, s, blocks) && j < |blocks| && BlocksFor(bs, n) <= |blocks[j].table|
    ensures InStore(bs, |s.count| * bs, blocks[j].table, 0, n)
  {
    hide PoolValid, AllHeld, Exclusive;
    forall p: nat | p < n
      ensures BlockOf(bs, p) < |blocks[j].table| && Addr(bs, blocks[j].table, p) < |s.count| * bs
    {
      RowInBlocks(bs, p, n);
      AllHeldAt(blocks, j, BlockOf(bs, p));
      HeldIsLive(bs, s, blocks[j].table[BlockOf(bs, p)]);
      SlotInPool(bs, |s.count|, blocks[j].table[BlockOf(bs, p)], SlotOf(bs, p));
    }
  }

  /** After the reservations the batch meets everything the layer loop relies on. */
  lemma LayoutReady(mgr: BlockManager, net: Net, s: Pool, blocks: seq<SequenceBlocks>, grown: seq<SequenceBlocks>,
                    items: seq<BatchItem>,
                    lanes: seq<Lane>, ids: seq<Token>, positions: seq<nat>, feeds: seq<Feed>)
    requires mgr.bs > 0 && net.layers == mgr.numLayers && mgr.keys.Length1 == |s.count| * mgr.bs
    requires Paged(mgr.bs, s, grown) && DistinctItems(items, |grown|) && TablesGrew(blocks, items, 0, grown)
    requires forall k :: 0 <= k < |items| ==> Reaches(mgr.bs, blocks, items[k], grown)
    requires LanesOf(grown, items, |items|, lanes, ids, positions) && |feeds| == |items|
    ensures Layout(mgr, net, lanes, positions, feeds)
  {
    hide PoolValid, AllHeld, Exclusive, BlocksFor, BlockOf, InStore, PositionsOf;
    var bs := mgr.bs;
    forall i | 0 <= i < |lanes|
      ensures InStore(bs, mgr.keys.Length1, lanes[i].table, 0, lanes[i].past + lanes[i].len)
    {
      TableInStore(bs, s, grown, items[i].seqIndex, lanes[i].past + lanes[i].len);
    }
    forall i, k, j, m | 0 <= i < |lanes| && BlockOf(bs, lanes[i].past) <= k < |lanes[i].table|
                        && 0 <= j < |lanes| && 0 <= m < |lanes[j].table| && (i != j || k != m)
      ensures lanes[i].table[k] != lanes[j].table[m]
    {
      WritableIsAlone(bs, s, grown, items[i].seqIndex, k);
      assert grown[items[j].seqIndex].table[m] == lanes[j].table[m];
    }
  }

  lemma HoldsGrown(keys: Store, values: Store, bs: nat, net: Net, table: seq<nat>, grown: seq<nat>, f: Feed,
                   n: nat)
    requires table <= grown && FeedHolds(keys, values, bs, net, table, f, n)
    ensures FeedHolds(keys, values, bs, net, grown, f, n)
  {
    hide BlockOf, SlotOf, Slot, FeedRows, Filled;
    forall l: nat, p: nat | l < net.layers && p < n
      ensures FeedRowIs(keys, values, bs, net, grown, f, l, p)
    {
      assert FeedRowsAre(keys, values, bs, net, table, f, l, n);
      assert FeedRowIs(keys, values, bs, net, table, f, l, p);
    }
  }

  /** The feed of an item: its tokens, on top of the rows its table has committed. */
  ghost predicate FeedOf(blocks: seq<SequenceBlocks>, item: BatchItem, f: Feed) {
    item.seqIndex < |blocks| && f.past == blocks[item.seqIndex].length && f.ids == item.tokens
  }

  /** Only the items' committed lengths differ. */
  ghost predicate Committed(grown: seq<SequenceBlocks>, items: seq<BatchItem>, out: seq<SequenceBlocks>) {
    && |out| == |grown|
    && (forall j :: 0 <= j < |out| && NotAnItem(items, 0, j) ==> out[j] == grown[j])
    && (forall i :: 0 <= i < |items| && items[i].seqIndex < |out| ==>
          out[items[i].seqIndex]
              == grown[items[i].seqIndex].(length := grown[items[i].seqIndex].length + |items[i].tokens|))
  }

  /** Physical row a is no new row of any item. */
  ghost predicate Spared(bs: nat, blocks: seq<SequenceBlocks>, out: seq<SequenceBlocks>, items: seq<BatchItem>, a: nat)
    requires bs > 0
  {
    forall i :: 0 <= i < |items| && items[i].seqIndex < |blocks| && items[i].seqIndex < |out| ==>
      !Touches(bs, out[items[i].seqIndex].table, blocks[items[i].seqIndex].length, |items[i].tokens|, a)
  }

  method CommitAll(grown: seq<SequenceBlocks>, items: seq<BatchItem>) returns (out: seq<SequenceBlocks>)
    requires DistinctItems(items, |grown|)
    ensures Committed(grown, items, out)
  {
    out := grown;
    var i := 0;
    while i < |items|
      invariant 0 <= i <= |items| && |out| == |grown|
      invariant forall j :: 0 <= j < |out| && NotAnItem(items, 0, j) ==> out[j] == grown[j]
      invariant forall k :: i <= k < |items| ==> out[items[k].seqIndex] == grown[items[k].seqIndex]
      invariant forall k :: 0 <= k < i ==>
                  out[items[k].seqIndex]
                      == grown[items[k].seqIndex].(length := grown[items[k].seqIndex].length + |items[k].tokens|)
    {
      var j := items[i].seqIndex;
      out := out[j := out[j].(length := out[j].length + |items[i].tokens|)];
      i := i + 1;
    }
  }

  /** What the batched forward returns and leaves in the pool's bookkeeping. */
  ghost predicate BatchOutcome(net: Net, bs: nat, s: Pool, blocks: seq<SequenceBlocks>, items: seq<BatchItem>,
                               r: Result<seq<seq<real>>>, out: seq<SequenceBlocks>, t: Pool)
    requires bs > 0 && FreeInRange(s) && DistinctItems(items, |blocks|)
  {
    if items == [] then r == Throws(EmptyBatch) && out == blocks && t == s
    else
      var (reserved, grown, u) := ReserveItems(bs, s, blocks, items, 0);
      && t == u
      && (reserved.Throws? ==> r == Throws(reserved.error) && out == grown)
      && (reserved.Ok? && !ItemsInVocab(net, items) ==> r == Throws(TokenOutOfRange) && out == grown)
      && (reserved.Ok? && ItemsInVocab(net, items) ==>
            r.Ok? && RowsPerItem(net, items, r.value) && Committed(grown, items, out))
  }

  /** One logits row of vocabulary width per item. */
  ghost predicate RowsPerItem(net: Net, items: seq<BatchItem>, logits: seq<seq<real>>) {
    |logits| == |items| && forall k :: 0 <= k < |logits| ==> |logits[k]| == net.vocab
  }

  /** The feeds say what the items' tables hold before the forward. */
  ghost predicate ItemsFed(keys: Store, values: Store, bs: nat, net: Net, blocks: seq<SequenceBlocks>,
                           items: seq<BatchItem>, feeds: seq<Feed>)
    reads keys, values
  {
    && |feeds| == |items| && DistinctItems(items, |blocks|)
    && forall i :: 0 <= i < |items| ==>
         && FeedOf(blocks, items[i], feeds[i]) && FeedOk(net, feeds[i])
         && FeedHolds(keys, values, bs, net, blocks[items[i].seqIndex].table, feeds[i], feeds[i].past)
  }

  /** Every item gets the last logits row of its own cached forward, and its table then holds that forward's cache. */
  ghost predicate ItemsForwarded(keys: Store, values: Store, bs: nat, net: Net, items: seq<BatchItem>,
                                 feeds: seq<Feed>, logits: seq<seq<real>>, out: seq<SequenceBlocks>)
    reads keys, values
  {
    && |feeds| == |items| == |logits| && DistinctItems(items, |out|)
    && forall i :: 0 <= i < |items| ==>
         && FeedOk(net, feeds[i]) && feeds[i].ids != [] && logits[i] == LastLogits(net, feeds[i])
         && FeedHolds(keys, values, bs, net, out[items[i].seqIndex].table, feeds[i], feeds[i].past + |feeds[i].ids|)
  }

  /**
   The batched forward. Whatever rows the tables hold, each item gets exactly what a cached forward of its
   tokens alone over those rows would give: the last logits row, and the extended cache. Nothing else in the
   pool is written.
   */
  method ForwardBatch(net: Net, mgr: BlockManager, blocks: seq<SequenceBlocks>, items: seq<BatchItem>,
                      ghost feeds: seq<Feed>)
    returns (r: Result<seq<seq<real>>>, out: seq<SequenceBlocks>)
    requires mgr.Valid() && net.layers == mgr.numLayers && FreeInRange(mgr.State())
    requires Paged(mgr.bs, mgr.State(), blocks)
    requires ItemsFed(mgr.keys, mgr.values, mgr.bs, net, blocks, items, feeds)
    modifies mgr`prefix, mgr`held, mgr.alloc, mgr.keys, mgr.values
    ensures mgr.Valid() && BatchOutcome(net, mgr.bs, old(mgr.State()), blocks, items, r, out, mgr.State())
    ensures forall m, a :: 0 <= m < mgr.numLayers && 0 <= a < mgr.keys.Length1
              && (r.Throws? || Spared(mgr.bs, blocks, out, items, a))
              ==> mgr.keys[m, a] == old(mgr.keys[m, a]) && mgr.values[m, a] == old(mgr.values[m, a])
    ensures r.Ok? ==> ItemsForwarded(mgr.keys, mgr.values, mgr.bs, net, items, feeds, r.value, out)
  {
    hide PoolValid, AllHeld, Exclusive, BlocksFor, Touches, PositionsOf, FeedRowsAre, ReserveItems, FreeInRange;
    if items == [] {
      return Throws(EmptyBatch), blocks;
    }
    ReserveItemsKeeps(mgr.bs, mgr.State(), blocks, items, 0);
    var reserved, grown, lanes, ids, positions := LayOut(mgr, blocks, items);
    if reserved.Throws? {
      return Throws(reserved.error), grown;
    }
    VocabByItem(net, grown, items, lanes, ids, positions);
    if !AllInVocab(net, ids) {
      return Throws(TokenOutOfRange), grown;
    }
    LayoutReady(mgr, net, mgr.State(), blocks, grown, items, lanes, ids, positions, feeds);
    var logits := RunBatch(net, mgr, blocks, grown, items, lanes, ids, positions, feeds);
    SparedIsUntouched(mgr.bs, blocks, grown, items, lanes, ids, positions);
    out := CommitAll(grown, items);
    r := Ok(logits);
  }

  /** The part after the reservations: all layers, then the last row of each item. */
  method RunBatch(net: Net, mgr: BlockManager, ghost blocks: seq<SequenceBlocks>, grown: seq<SequenceBlocks>,
                  items: seq<BatchItem>,
                  lanes: seq<Lane>, ids: seq<Token>, positions: seq<nat>, ghost feeds: seq<Feed>)
    returns (logits: seq<seq<real>>)
    requires mgr.Valid() && ItemsFed(mgr.keys, mgr.values, mgr.bs, net, blocks, items, feeds)
    requires TablesGrew(blocks, items, 0, grown) && forall i :: 0 <= i < |items| ==> items[i].tokens != []
    requires LanesOf(grown, items, |items|, lanes, ids, positions) && Layout(mgr, net, lanes, positions, feeds)
    modifies mgr.keys, mgr.values
    ensures ItemsForwarded(mgr.keys, mgr.values, mgr.bs, net, items, feeds, logits, grown)
            && RowsPerItem(net, items, logits)
    ensures forall m, a :: 0 <= m < mgr.numLayers && 0 <= a < mgr.keys.Length1 && Untouched(mgr.bs, lanes, |lanes|, a)
              ==> mgr.keys[m, a] == old(mgr.keys[m, a]) && mgr.values[m, a] == old(mgr.values[m, a])
  {
    hide PoolValid, BlocksFor, PositionsOf, FeedRowsAre, Untouched, Separate, Fit;
    forall i | 0 <= i < |items|
      ensures IdsOf(net, lanes[i], feeds[i], ids)
      ensures FeedHolds(mgr.keys, mgr.values, mgr.bs, net, lanes[i].table, feeds[i], lanes[i].past)
    {
      HoldsGrown(mgr.keys, mgr.values, mgr.bs, net, blocks[items[i].seqIndex].table, lanes[i].table, feeds[i],
          lanes[i].past);
      FeedIsIds(net, lanes[i], feeds[i], ids);
    }
    var x := RunLayers(net, mgr, lanes, ids, positions, feeds);
    logits := LastRows(net, lanes, x, feeds);
    forall i | 0 <= i < |items|
      ensures FeedHolds(mgr.keys, mgr.values, mgr.bs, net, grown[items[i].seqIndex].table, feeds[i],
                        feeds[i].past + |feeds[i].ids|)
    {
    }
  }

  lemma SparedIsUntouched(bs: nat, blocks: seq<SequenceBlocks>, grown: seq<SequenceBlocks>, items: seq<BatchItem>,
                          lanes: seq<Lane>, ids: seq<Token>, positions: seq<nat>)
    requires bs > 0 && LanesOf(grown, items, |items|, lanes, ids, positions) && TablesGrew(blocks, items, 0, grown)
    ensures forall a: nat, out :: Spared(bs, blocks, out, items, a) && Committed(grown, items, out) ==>
              Untouched(bs, lanes, |lanes|, a)
  {
    hide Touches, PositionsOf;
  }

  lemma FeedIsIds(net: Net, lane: Lane, f: Feed, ids: seq<Token>)
    requires Carries(net, lane, f, |ids|) && ids[lane.offset..lane.offset + lane.len] == f.ids
    ensures IdsOf(net, lane, f, ids)
  {
    forall u | lane.offset <= u < lane.offset + lane.len
      ensures ids[u] == f.ids[u - lane.offset]
    {
      assert f.ids[u - lane.offset] == ids[lane.offset..lane.offset + lane.len][u - lane.offset];
    }
  }

  /** Every token of the flat layout belongs to an item. */
  lemma VocabByItem(net: Net, grown: seq<SequenceBlocks>, items: seq<BatchItem>, lanes: seq<Lane>, ids: seq<Token>,
                    positions: seq<nat>)
    requires LanesOf(grown, items, |items|, lanes, ids, positions)
    ensures AllInVocab(net, ids) <==> ItemsInVocab(net, items)
  {
    hide PositionsOf;
    forall i, t | 0 <= i < |items| && 0 <= t < |items[i].tokens|
      ensures items[i].tokens[t] == ids[lanes[i].offset + t]
    {
      assert items[i].tokens[t] == ids[lanes[i].offset..lanes[i].offset + lanes[i].len][t];
    }
    if ItemsInVocab(net, items) {
      forall u | 0 <= u < |ids|
        ensures InVocab(net, ids[u])
      {
        assert Covered(lanes, u);
        var i :| 0 <= i < |lanes| && InLane(lanes[i], u);
        assert items[i].tokens[u - lanes[i].offset] == ids[u];
      }
    }
  }

  /** Only the last row of each item predicts its next token. */
  method LastRows(net: Net, lanes: seq<Lane>, x: seq<Vec>, ghost feeds: seq<Feed>)
    returns (logits: seq<seq<real>>)
    requires |feeds| == |lanes| && Laid(lanes, |x|)
    requires forall i :: 0 <= i < |lanes| ==> lanes[i].len > 0
    requires forall i :: 0 <= i < |lanes| ==> SliceIs(net, lanes[i], feeds[i], net.layers, x)
    ensures |logits| == |lanes| && forall k :: 0 <= k < |logits| ==> |logits[k]| == net.vocab
    ensures forall i :: 0 <= i < |lanes| ==>
              FeedOk(net, feeds[i]) && feeds[i].ids != [] && logits[i] == LastLogits(net, feeds[i])
  {
    hide ChunkHidden, LogitRow, Filled;
    logits := [];
    var i := 0;
    while i < |lanes|
      invariant 0 <= i <= |lanes| && |logits| == i && forall k :: 0 <= k < |logits| ==> |logits[k]| == net.vocab
      invariant forall j :: 0 <= j < i ==>
                  FeedOk(net, feeds[j]) && feeds[j].ids != [] && logits[j] == LastLogits(net, feeds[j])
    {
      assert SliceIs(net, lanes[i], feeds[i], net.layers, x);
      logits := logits + [LogitRow(net, x[lanes[i].offset + lanes[i].len - 1])];
      i := i + 1;
    }
  }

  // ---- What a batch leaves alone ------------------------------------------------------------

  /** The new rows of the items lie in blocks that nobody else and no cache entry holds. */
  lemma NewRowIsWritable(bs: nat, s: Pool, blocks: seq<SequenceBlocks>, grown: seq<SequenceBlocks>, item: BatchItem,
                         a: nat)
    returns (k: nat, slot: nat)
    requires bs > 0 && Paged(bs, s, grown) && item.seqIndex < |grown| == |blocks|
    requires grown[item.seqIndex].length == blocks[item.seqIndex].length
    requires Touches(bs, grown[item.seqIndex].table, blocks[item.seqIndex].length, |item.tokens|, a)
    ensures BlockOf(bs, blocks[item.seqIndex].length) <= k < |grown[item.seqIndex].table| && slot < bs
    ensures a == Slot(bs, grown[item.seqIndex].table[k], slot)
  {
    hide Paged;
    var b := blocks[item.seqIndex];
    var p: nat :| b.length <= p < b.length + |item.tokens| && BlockOf(bs, p) < |grown[item.seqIndex].table|
                  && Addr(bs, grown[item.seqIndex].table, p) == a;
    QuotientMonotone(b.length, p, bs);
    k, slot := BlockOf(bs, p), SlotOf(bs, p);
  }

  /** Rows of sequences outside the batch are spared. */
  lemma OtherRowsSpared(bs: nat, s: Pool, blocks: seq<SequenceBlocks>, grown: seq<SequenceBlocks>,
                        out: seq<SequenceBlocks>,
                        items: seq<BatchItem>, j: nat, p: nat)
    requires bs > 0 && Paged(bs, s, grown) && DistinctItems(items, |blocks|) && TablesGrew(blocks, items, 0, grown)
             && Committed(grown, items, out)
    requires j < |blocks| && NotAnItem(items, 0, j) && BlockOf(bs, p) < |grown[j].table|
    ensures Spared(bs, blocks, out, items, Addr(bs, grown[j].table, p))
  {
    hide PoolValid, AllHeld, BlockOf, SlotOf, Touches, Slot, Exclusive;
    var a := Addr(bs, grown[j].table, p);
    forall i | 0 <= i < |items|
      ensures !Touches(bs, out[items[i].seqIndex].table, blocks[items[i].seqIndex].length, |items[i].tokens|, a)
    {
      var id := items[i].seqIndex;
      if Touches(bs, out[id].table, blocks[id].length, |items[i].tokens|, a) {
        var k, slot := NewRowIsWritable(bs, s, blocks, grown, items[i], a);
        SlotInjective(bs, grown[id].table[k], slot, grown[j].table[BlockOf(bs, p)], SlotOf(bs, p));
        WritableIsAlone(bs, s, grown, id, k);
      }
    }
  }

  /** Rows of cached blocks are spared. */
  lemma CachedRowsSpared(bs: nat, s: Pool, blocks: seq<SequenceBlocks>, grown: seq<SequenceBlocks>,
                         out: seq<SequenceBlocks>,
                         items: seq<BatchItem>, h: Hash, e: int, t: nat)
    requires bs > 0 && Paged(bs, s, grown) && DistinctItems(items, |blocks|) && TablesGrew(blocks, items, 0, grown)
             && Committed(grown, items, out)
    requires IsEntry(s.prefix, h, e) && t < bs
    ensures Spared(bs, blocks, out, items, Slot(bs, s.prefix[h][e].block, t))
  {
    hide PoolValid, AllHeld, BlockOf, SlotOf, Touches, Slot, Exclusive;
    var a := Slot(bs, s.prefix[h][e].block, t);
    forall i | 0 <= i < |items|
      ensures !Touches(bs, out[items[i].seqIndex].table, blocks[items[i].seqIndex].length, |items[i].tokens|, a)
    {
      var id := items[i].seqIndex;
      if Touches(bs, out[id].table, blocks[id].length, |items[i].tokens|, a) {
        var k, slot := NewRowIsWritable(bs, s, blocks, grown, items[i], a);
        SlotInjective(bs, grown[id].table[k], slot, s.prefix[h][e].block, t);
        WritableIsAlone(bs, s, grown, id, k);
      }
    }
  }
}
