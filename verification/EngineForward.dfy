/** The batched forward between two scheduler states: what it reads is correct, and what it leaves is. */
module EngineForwards {
  import opened Results
  import opened Network
  import opened ForwardCached
  import opened Lanes
  import opened Sampler
  import opened PrefixCaches
  import opened BlockPools
  import opened BlockManagers
  import opened RowContents
  import opened ForwardBatches
  import opened Schedulers
  import opened SchedulerInvariants
  import opened EngineContents

  /** Row k of the logits is the last row of the item's whole context. */
  ghost predicate LastRowIs(net: Net, sequences: seq<EngineSequence>, item: BatchItem, logits: seq<seq<real>>, k: nat) {
    && item.seqIndex < |sequences| && k < |logits|
    && var ctx := sequences[item.seqIndex].Context();
       ctx != [] && logits[k] == Logits(net, ctx)[|ctx| - 1]
  }

  /** What the items of a batch feed, over whatever rows their tables hold. */
  ghost function FeedsOf(keys: Store, values: Store, bs: nat, net: Net, blocks: seq<SequenceBlocks>,
                         items: seq<BatchItem>): (feeds: seq<Feed>)
    requires forall k :: 0 <= k < |items| ==> items[k].seqIndex < |blocks|
    reads keys, values
    ensures |feeds| == |items|
  {
    seq(|items|, k requires 0 <= k < |items| && items[k].seqIndex < |blocks| reads keys, values =>
      var b := blocks[items[k].seqIndex];
      Feed(Gathered(keys, values, bs, net.layers, b.table, b.length), b.length, items[k].tokens))
  }

  /** Every row of logits comes from the rows the item's table held. */
  ghost predicate FromRows(net: Net, feeds: seq<Feed>, logits: seq<seq<real>>) {
    && |logits| == |feeds|
    && forall k :: 0 <= k < |feeds| ==>
         FeedOk(net, feeds[k]) && feeds[k].ids != [] && logits[k] == LastLogits(net, feeds[k])
  }

  lemma MidIndexed(c: Config, e: Sched, items: seq<BatchItem>, k: nat)
    requires MidStep(c, e, items, k)
    ensures c.bs > 0 && Indexed(e)
  {
    hide Paged, FreeInRange, SeqOk, Forwarded;
  }

  /**
   The batched forward keeps every row of every other sequence and of the cache, and makes the batch's rows
   correct.
   */
  method ForwardSound(net: Net, mgr: BlockManager, blocks: seq<SequenceBlocks>, items: seq<BatchItem>, ghost c: Config,
                      ghost e: Sched, ghost left: int)
    returns (r: Result<seq<seq<real>>>, out: seq<SequenceBlocks>)
    requires mgr.Valid() && net.layers == mgr.numLayers && c.bs == mgr.bs > 0 && Indexed(e) && Inv(c, e)
    requires e.pool == mgr.State() && e.blocks == blocks && items != []
    requires BatchOk(c, e, items, |e.running|, left) && Sound(mgr.keys, mgr.values, c, net, e)
    modifies mgr`prefix, mgr`held, mgr.alloc, mgr.keys, mgr.values
    ensures mgr.Valid() && DistinctItems(items, |blocks|)
    ensures var (reserved, grown, pool) := ReserveItems(c.bs, e.pool, blocks, items, 0);
            && mgr.State() == pool && |out| == |blocks|
            && (r.Ok? <==> ItemsInVocab(net, items))
            && (r.Throws? ==> r.error == TokenOutOfRange && out == grown)
            && (r.Ok? ==> RowsPerItem(net, items, r.value) && Committed(grown, items, out))
            && Sound(mgr.keys, mgr.values, c, net, e.(pool := pool, blocks := out))
            && (r.Ok? && CollisionFree(c.hash, c.bs, pool.seen) ==>
                  forall k :: 0 <= k < |items| ==> LastRowIs(net, e.sequences, items[k], r.value, k))
    ensures r.Ok? ==> FromRows(net, old(FeedsOf(mgr.keys, mgr.values, mgr.bs, net, blocks, items)), r.value)
  {
    hide PoolValid, Inv, FreeInRange, Correct, ReserveItems, BatchOk, Paged, CollisionFree, Holds, SumDeltas, Gathered;
    hide ItemsInVocab, GreedySoFar, ItemsFed, FeedsOf, FromRows, AllContinue;
    BatchReserves(c, e, items, |e.running|, left);
    InvIsPaged(c, e);
    BatchDistinct(c, e, items, left);
    ghost var free := CollisionFree(c.hash, c.bs, e.pool.seen);
    ghost var feeds := FeedsOf(mgr.keys, mgr.values, c.bs, net, blocks, items);
    BatchIsFed(mgr, c, net, e, items);
    if free {
      ItemsContinue(mgr.keys, mgr.values, c, net, e, items);
      CorrectIsGreedy(mgr.keys, mgr.values, c, net, e);
    }
    ghost var (reserved, grown, pool) := ReserveItems(c.bs, e.pool, blocks, items, 0);
    r, out := ForwardKept(net, mgr, blocks, items, c, e, feeds, free);
    hide ItemsReserved, ItemsForwarded, LastRowIs, Committed, RowsPerItem, CacheHolds, NotAnItem;
    if r.Ok? {
      ForwardedFromRows(mgr.keys, mgr.values, c.bs, net, items, feeds, r.value, out);
    }
    if free {
      if r.Ok? {
        ResultsAreLastRows(mgr.keys, mgr.values, c.bs, net, e.sequences, items, feeds, r.value, out);
        ForwardedIsCorrect(mgr.keys, mgr.values, c, net, e, items, feeds, r.value, grown, pool, out);
      } else {
        FailedIsCorrect(mgr.keys, mgr.values, c, net, e, pool, out);
      }
    }
  }

  lemma ForwardedFromRows(keys: Store, values: Store, bs: nat, net: Net, items: seq<BatchItem>, feeds: seq<Feed>,
                          logits: seq<seq<real>>, out: seq<SequenceBlocks>)
    requires ItemsForwarded(keys, values, bs, net, items, feeds, logits, out)
    ensures FromRows(net, feeds, logits)
  {
    hide FeedHolds, LastLogits, Filled;
  }

  /** Tables of a batch have a place for every row they have committed. */
  lemma BatchIsFed(mgr: BlockManager, c: Config, net: Net, e: Sched, items: seq<BatchItem>)
    requires mgr.Valid() && net.layers == mgr.numLayers && c.bs == mgr.bs > 0 && Indexed(e) && Inv(c, e)
    requires e.pool == mgr.State() && DistinctItems(items, |e.blocks|)
    requires forall k :: 0 <= k < |items| ==>
               && e.sequences[items[k].seqIndex].status == Running
               && SeqOk(c.bs, e.sequences[items[k].seqIndex], e.blocks[items[k].seqIndex])
    ensures ItemsFed(mgr.keys, mgr.values, mgr.bs, net, e.blocks, items, FeedsOf(mgr.keys, mgr.values, c.bs, net,
                                                                                 e.blocks, items))
  {
    InvIsPaged(c, e);
    hide PoolValid, Inv, Paged, FreeInRange, Gathered, FeedHolds, BlocksFor, InStore, Filled, StopsOnlyAtEnd, Stops;
    var feeds := FeedsOf(mgr.keys, mgr.values, c.bs, net, e.blocks, items);
    forall k | 0 <= k < |items|
      ensures FeedOk(net, feeds[k])
      ensures FeedHolds(mgr.keys, mgr.values, mgr.bs, net, e.blocks[items[k].seqIndex].table, feeds[k], feeds[k].past)
    {
      var b := e.blocks[items[k].seqIndex];
      TableInStore(c.bs, e.pool, e.blocks, items[k].seqIndex, b.length);
      GatheredHolds(mgr.keys, mgr.values, c.bs, net, b.table, b.length, items[k].tokens);
    }
  }

  /** Every item of the batch continues its sequence's context. */
  ghost predicate AllContinue(net: Net, sequences: seq<EngineSequence>, items: seq<BatchItem>, feeds: seq<Feed>) {
    && |feeds| == |items|
    && forall k :: 0 <= k < |items| ==>
         items[k].seqIndex < |sequences| && Continues(net, feeds[k], sequences[items[k].seqIndex].Context())
  }

  /** In a correct state every item continues its context over correct rows. */
  lemma ItemsContinue(keys: Store, values: Store, c: Config, net: Net, e: Sched, items: seq<BatchItem>)
    requires c.bs > 0 && DistinctItems(items, |e.blocks|) && Correct(keys, values, c, net, e)
    requires forall k :: 0 <= k < |items| ==>
               && e.blocks[items[k].seqIndex].length <= |e.sequences[items[k].seqIndex].Context()|
               && items[k].tokens == e.sequences[items[k].seqIndex].Context()[e.blocks[items[k].seqIndex].length..]
    ensures AllContinue(net, e.sequences, items, FeedsOf(keys, values, c.bs, net, e.blocks, items))
  {
    hide CacheHolds, Holds, IsGreedyRun, Gathered, CacheOf;
    forall k | 0 <= k < |items|
      ensures Continues(net, FeedsOf(keys, values, c.bs, net, e.blocks, items)[k],
                        e.sequences[items[k].seqIndex].Context())
    {
      var b := e.blocks[items[k].seqIndex];
      assert SeqHolds(keys, values, c.bs, net, e.sequences[items[k].seqIndex], b);
      GatheredIsCache(keys, values, c.bs, net, b.table, e.sequences[items[k].seqIndex].Context(), b.length);
    }
  }

  /** The part of correctness that no write to the pool can change. */
  ghost predicate GreedySoFar(net: Net, e: Sched) {
    && |e.blocks| == |e.sequences|
    && forall j :: 0 <= j < |e.sequences| ==>
         && e.sequences[j].request.prompt != [] && e.blocks[j].length <= |e.sequences[j].Context()|
         && (IsGreedy(e.sequences[j].request.params) ==> IsGreedyRun(net, e.sequences[j].request.prompt,
                                                                     e.sequences[j].output))
  }

  lemma CorrectIsGreedy(keys: Store, values: Store, c: Config, net: Net, e: Sched)
    requires c.bs > 0 && Correct(keys, values, c, net, e)
    ensures GreedySoFar(net, e)
  {
    hide CacheHolds, Holds, IsGreedyRun;
  }

  lemma FailedIsCorrect(keys: Store, values: Store, c: Config, net: Net, e: Sched, pool: Pool, out: seq<SequenceBlocks>)
    requires c.bs > 0 && GreedySoFar(net, e) && CacheHolds(keys, values, c, net, pool) && |out| == |e.blocks|
    requires forall j :: 0 <= j < |out| ==>
               out[j].length == e.blocks[j].length
                   && Holds(keys, values, c.bs, net, out[j].table, e.sequences[j].Context(), e.blocks[j].length)
    ensures Correct(keys, values, c, net, e.(pool := pool, blocks := out))
  {
    hide CacheHolds, Holds, IsGreedyRun;
  }

  lemma ForwardedIsCorrect(keys: Store, values: Store, c: Config, net: Net, e: Sched, items: seq<BatchItem>,
                           feeds: seq<Feed>, logits: seq<seq<real>>, grown: seq<SequenceBlocks>, pool: Pool,
                           out: seq<SequenceBlocks>)
    requires c.bs > 0 && GreedySoFar(net, e) && CacheHolds(keys, values, c, net, pool) && |grown| == |e.blocks|
    requires DistinctItems(items, |e.blocks|) && AllContinue(net, e.sequences, items, feeds)
    requires ItemsForwarded(keys, values, c.bs, net, items, feeds, logits, out) && Committed(grown, items, out)
    requires forall j :: 0 <= j < |grown| ==> grown[j].length == e.blocks[j].length
    requires forall k :: 0 <= k < |items| ==>
               e.blocks[items[k].seqIndex].length + |items[k].tokens| == |e.sequences[items[k].seqIndex].Context()|
    requires forall j :: 0 <= j < |out| && NotAnItem(items, 0, j) ==>
               Holds(keys, values, c.bs, net, out[j].table, e.sequences[j].Context(), e.blocks[j].length)
    ensures Correct(keys, values, c, net, e.(pool := pool, blocks := out))
  {
    hide CacheHolds, Holds, IsGreedyRun, Logits, FeedHolds, LastLogits, CacheOf, Filled;
    forall j | 0 <= j < |out|
      ensures SeqHolds(keys, values, c.bs, net, e.sequences[j], out[j])
    {
      if !NotAnItem(items, 0, j) {
        var k :| 0 <= k < |items| && items[k].seqIndex == j;
        var ctx := e.sequences[items[k].seqIndex].Context();
        ContinuedHolds(keys, values, c.bs, net, out[items[k].seqIndex].table, feeds[k], ctx,
                       feeds[k].past + |feeds[k].ids|);
        assert |ctx| == feeds[k].past + |feeds[k].ids|;
      }
    }
  }

  lemma ResultsAreLastRows(keys: Store, values: Store, bs: nat, net: Net, sequences: seq<EngineSequence>,
                           items: seq<BatchItem>, feeds: seq<Feed>, logits: seq<seq<real>>, out: seq<SequenceBlocks>)
    requires AllContinue(net, sequences, items, feeds)
    requires ItemsForwarded(keys, values, bs, net, items, feeds, logits, out)
    ensures forall k :: 0 <= k < |items| ==> LastRowIs(net, sequences, items[k], logits, k)
  {
    hide FeedHolds, Logits, CacheOf, LastLogits, Filled;
    forall k | 0 <= k < |items|
      ensures LastRowIs(net, sequences, items[k], logits, k)
    {
      ContinuedLogits(net, feeds[k], sequences[items[k].seqIndex].Context());
    }
  }

  /** The batched forward, with what it keeps stated sequence by sequence and entry by entry. */
  method ForwardKept(net: Net, mgr: BlockManager, blocks: seq<SequenceBlocks>, items: seq<BatchItem>, ghost c: Config,
                     ghost e: Sched, ghost feeds: seq<Feed>, ghost free: bool)
    returns (r: Result<seq<seq<real>>>, out: seq<SequenceBlocks>)
    requires mgr.Valid() && net.layers == mgr.numLayers && c.bs == mgr.bs > 0 && FreeInRange(mgr.State())
             && Paged(c.bs, mgr.State(), blocks)
    requires items != [] && ItemsFed(mgr.keys, mgr.values, c.bs, net, blocks, items, feeds)
    requires ReserveItems(c.bs, mgr.State(), blocks, items, 0).0.Ok?
             && ReserveItems(c.bs, mgr.State(), blocks, items, 0).2.prefix == mgr.prefix
    requires e.pool == mgr.State() && e.blocks == blocks && |e.sequences| == |blocks|
    requires free ==> Correct(mgr.keys, mgr.values, c, net, e)
    modifies mgr`prefix, mgr`held, mgr.alloc, mgr.keys, mgr.values
    ensures mgr.Valid() && BatchOutcome(net, c.bs, e.pool, blocks, items, r, out, mgr.State()) && |out| == |blocks|
    ensures r.Ok? ==> ItemsForwarded(mgr.keys, mgr.values, c.bs, net, items, feeds, r.value, out)
    ensures free ==> CacheHolds(mgr.keys, mgr.values, c, net, mgr.State())
    ensures free ==> forall j :: 0 <= j < |out| && (r.Throws? || NotAnItem(items, 0, j)) ==>
              Holds(mgr.keys, mgr.values, c.bs, net, out[j].table, e.sequences[j].Context(), e.blocks[j].length)
  {
    hide PoolValid, FreeInRange, ReserveItems, Paged, KeyRows, ValueRows, Slot, BlockOf, SlotOf, Spared, Exclusive;
    hide AllHeld, NotAnItem;
    hide ItemsFed, ItemsForwarded, RowsPerItem, ItemsInVocab, IsGreedyRun, Chain;
    ItemsDistinct(mgr.keys, mgr.values, c.bs, net, blocks, items, feeds);
    ghost var (reserved, grown, pool) := ReserveItems(c.bs, mgr.State(), blocks, items, 0);
    hide DistinctItems;
    ReserveItemsKeeps(c.bs, mgr.State(), blocks, items, 0);
    r, out := ForwardBatch(net, mgr, blocks, items, feeds);
    forall j | free && 0 <= j < |blocks| && (r.Throws? || NotAnItem(items, 0, j))
      ensures Holds(mgr.keys, mgr.values, c.bs, net, out[j].table, e.sequences[j].Context(), e.blocks[j].length)
    {
      ghost var ctx, n := e.sequences[j].Context(), e.blocks[j].length;
      assert old(SeqHolds(mgr.keys, mgr.values, c.bs, net, e.sequences[j], e.blocks[j]));
      assert blocks[j].table <= grown[j].table;
      forall l: nat, p: nat | l < net.layers && p < n
        ensures RowIs(mgr.keys, mgr.values, c.bs, net, out[j].table, ctx, l, p)
      {
        assert old(RowsAre(mgr.keys, mgr.values, c.bs, net, blocks[j].table, ctx, l, n));
        assert old(RowIs(mgr.keys, mgr.values, c.bs, net, blocks[j].table, ctx, l, p));
        if r.Ok? {
          OtherRowsSpared(c.bs, pool, blocks, grown, out, items, j, p);
        }
      }
    }
    forall h, i | free && IsEntry(mgr.prefix, h, i)
      ensures exists lead :: EntryFrom(mgr.keys, mgr.values, c, net, mgr.seen, mgr.prefix[h][i], lead)
    {
      ghost var entry := mgr.prefix[h][i];
      ghost var lead :| old(EntryFrom(mgr.keys, mgr.values, c, net, mgr.seen, entry, lead));
      forall l: nat, s: nat | l < net.layers && s < c.bs
        ensures SlotHolds(mgr.keys, mgr.values, c.bs, net, entry.block, lead + entry.tokens, l, s)
      {
        assert old(SlotHolds(mgr.keys, mgr.values, c.bs, net, entry.block, lead + entry.tokens, l, s));
        if r.Ok? {
          CachedRowsSpared(c.bs, pool, blocks, grown, out, items, h, i, s);
        }
      }
      assert EntryFrom(mgr.keys, mgr.values, c, net, mgr.seen, entry, lead);
    }
  }

  lemma ItemsDistinct(keys: Store, values: Store, bs: nat, net: Net, blocks: seq<SequenceBlocks>,
                      items: seq<BatchItem>, feeds: seq<Feed>)
    requires ItemsFed(keys, values, bs, net, blocks, items, feeds)
    ensures DistinctItems(items, |blocks|) && |feeds| == |items|
  {
    hide FeedHolds, Filled;
  }
}
