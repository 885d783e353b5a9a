/** What every reachable scheduler state satisfies, and why each step keeps it. */
module SchedulerInvariants {
  import opened Arithmetic
  import opened Results
  import opened Network
  import opened PrefixCaches
  import opened BlockAllocators
  import opened BlockPools
  import opened BlockManagers
  import opened RowContents
  import opened ForwardBatches
  import opened Schedulers

  /** Generation stops at the output's end and nowhere before. */
  ghost predicate StopsOnlyAtEnd(r: Request, out: seq<Token>) {
    forall k :: 0 < k < |out| ==> !Stops(r, out[..k])
  }

  /** One sequence and its paging state. */
  ghost predicate SeqOk(bs: nat, s: EngineSequence, b: SequenceBlocks)
    requires bs > 0
  {
    && s.request.prompt != []
    && StopsOnlyAtEnd(s.request, s.output)
    && (s.status == Finished <==> Stops(s.request, s.output))
    && (s.status != Running ==> b == EMPTY_BLOCKS)
    && (s.status == Waiting ==> !s.prefilled)
    && (s.status == Running ==> RunningOk(bs, s, b))
  }

  /**
   A running sequence has cached all but its last token once prefilled, whole blocks before; its table
   reaches what is cached and no further than its context needs. A step that failed on a token outside
   the vocabulary leaves the larger table behind.
   */
  ghost predicate RunningOk(bs: nat, s: EngineSequence, b: SequenceBlocks)
    requires bs > 0
  {
    && (s.prefilled ==> s.output != [] && b.length == |s.Context()| - 1)
    && (!s.prefilled ==> b.length < |s.Context()| && SlotOf(bs, b.length) == 0)
    && BlocksFor(bs, b.length) <= |b.table| <= BlocksFor(bs, |s.Context()|)
  }

  ghost predicate Queues(e: Sched) {
    && NoDuplicates(e.waiting) && NoDuplicates(e.running)
    && forall i :: 0 <= i < |e.sequences| ==>
         && (e.sequences[i].status == Waiting <==> i in e.waiting)
         && (e.sequences[i].status == Running <==> i in e.running)
  }

  ghost predicate AllSeqOk(bs: nat, e: Sched)
    requires bs > 0
  {
    && |e.blocks| == |e.sequences|
    && forall i :: 0 <= i < |e.sequences| ==> SeqOk(bs, e.sequences[i], e.blocks[i])
  }

  ghost predicate Inv(c: Config, e: Sched) {
    c.bs > 0 && Indexed(e) && Paged(c.bs, e.pool, e.blocks) && Queues(e) && AllSeqOk(c.bs, e)
  }

  /**
   Write isolation without copy on write: a block that the cache or a second table place also names lies
   among the full committed blocks of every table that holds it, where nothing is ever written again.
   */
  lemma SharedIsCommitted(c: Config, e: Sched, i: nat, k: nat)
    requires Inv(c, e) && i < |e.blocks| && k < |e.blocks[i].table|
    requires || (exists h, j :: IsEntry(e.pool.prefix, h, j) && e.pool.prefix[h][j].block == e.blocks[i].table[k])
             || (exists j, m :: 0 <= j < |e.blocks| && 0 <= m < |e.blocks[j].table| && (j != i || m != k)
                                && e.blocks[j].table[m] == e.blocks[i].table[k])
    ensures k < BlockOf(c.bs, e.blocks[i].length)
  {
    hide PoolValid, AllHeld, Queues, AllSeqOk, FreeInRange, BlockOf;
    if BlockOf(c.bs, e.blocks[i].length) <= k {
      WritableIsAlone(c.bs, e.pool, e.blocks, i, k);
      assert false;
    }
  }

  // ---- Admission ----------------------------------------------------------------------------

  lemma AdmitFirstKeeps(c: Config, e: Sched)
    requires Inv(c, e) && e.waiting != []
    ensures Inv(c, AdmitFirst(e))
  {
    hide Paged, StopsOnlyAtEnd, Stops;
    var id := e.waiting[0];
    var r := AdmitFirst(e);
    assert e.waiting == [id] + e.waiting[1..];
    assert id in e.waiting && id !in e.running && id !in e.waiting[1..];
    BlocksForMonotone(c.bs, 0, |e.sequences[id].Context()|);
    BlocksForAligned(c.bs, 0);
    hide BlocksFor;
    forall i | 0 <= i < |r.sequences|
      ensures SeqOk(c.bs, r.sequences[i], r.blocks[i])
    {
      assert SeqOk(c.bs, e.sequences[i], e.blocks[i]);
    }
    hide SeqOk;
    assert forall i: nat :: i in r.waiting <==> i in e.waiting && i != id;
    assert forall i: nat :: i in r.running <==> i in e.running || i == id;
  }

  /** What admission does: a prefix of the queue, first come first served, each one admissible. */
  ghost predicate Admitted(c: Config, e: Sched, r: Sched)
    requires c.bs > 0
  {
    exists n: nat :: AdmittedUpTo(c, e, r, n)
  }

  ghost predicate AdmittedUpTo(c: Config, e: Sched, r: Sched, n: nat)
    requires c.bs > 0
  {
    && TookFirst(e, r, n)
    && (forall k :: 0 <= k < n ==> FitsAs(c, e, k))
    && (n < |e.waiting| ==> !FitsAs(c, e, n))
  }

  /** The k-th in the queue still finds room in the batch and in the free list. */
  ghost predicate FitsAs(c: Config, e: Sched, k: nat)
    requires c.bs > 0
  {
    k < |e.waiting| && |e.running| + k < c.maxBatch && CanAdmit(c, e, e.waiting[k])
  }

  /** The first n queued sequences are running now; nothing else changed. */
  ghost predicate TookFirst(e: Sched, r: Sched, n: nat) {
    && n <= |e.waiting| && r.running == e.running + e.waiting[..n] && r.waiting == e.waiting[n..]
    && r.pool == e.pool && r.blocks == e.blocks && r.preemptions == e.preemptions && |r.sequences| == |e.sequences|
    && forall i :: 0 <= i < |e.sequences| ==>
         r.sequences[i] == if i in e.waiting[..n] then e.sequences[i].(status := Running) else e.sequences[i]
  }

  ghost predicate CanAdmit(c: Config, e: Sched, id: nat)
    requires c.bs > 0
  {
    id < |e.sequences| && id < |e.blocks| && Admissible(c.bs, e.sequences[id], e.blocks[id], |e.pool.free|)
  }

  lemma {:induction false} AdmitKeeps(c: Config, e: Sched)
    requires Inv(c, e)
    ensures Inv(c, Admit(c, e))
    decreases |e.waiting|
  {
    if e.waiting != [] {
      AdmitFirstKeeps(c, e);
      hide Inv, AdmitFirst;
      var next := AdmitFirst(e);
      if |e.running| < c.maxBatch {
        if Admissible(c.bs, e.sequences[e.waiting[0]], e.blocks[e.waiting[0]], |e.pool.free|) {
          AdmitShrinks(e);
          AdmitKeeps(c, next);
        }
      }
    }
  }

  lemma AdmitShrinks(e: Sched)
    requires Indexed(e) && e.waiting != []
    ensures |AdmitFirst(e).waiting| < |e.waiting|
  {
  }

  /** Admission is first come first served and takes exactly as many as fit one by one. */
  lemma {:induction false} AdmitIsFcfs(c: Config, e: Sched)
    requires c.bs > 0 && Indexed(e) && NoDuplicates(e.waiting)
    ensures Admitted(c, e, Admit(c, e))
    decreases |e.waiting|
  {
    hide Admissible, FreeInRange;
    if e.waiting == [] || |e.running| >= c.maxBatch || !CanAdmit(c, e, e.waiting[0]) {
      assert e.running + e.waiting[..0] == e.running && e.waiting[0..] == e.waiting;
      assert AdmittedUpTo(c, e, e, 0);
      assert Admit(c, e) == e;
    } else {
      var next := AdmitFirst(e);
      AdmitIsFcfs(c, next);
      var n: nat :| AdmittedUpTo(c, next, Admit(c, next), n);
      AdmitStep(c, e, Admit(c, next), n);
      assert AdmittedUpTo(c, e, Admit(c, e), n + 1);
    }
  }

  lemma AdmitStep(c: Config, e: Sched, r: Sched, n: nat)
    requires c.bs > 0 && Indexed(e) && e.waiting != [] && e.waiting[0] !in e.waiting[1..]
    requires |e.running| < c.maxBatch && CanAdmit(c, e, e.waiting[0])
    requires AdmittedUpTo(c, AdmitFirst(e), r, n)
    ensures AdmittedUpTo(c, e, r, n + 1)
  {
    hide FreeInRange, BlocksFor, Admissible;
    var next := AdmitFirst(e);
    TookStep(e, r, n);
    forall k: nat | k < |next.waiting|
      ensures FitsAs(c, next, k) <==> FitsAs(c, e, k + 1)
    {
      assert next.waiting[k] == e.waiting[k + 1] && e.waiting[k + 1] in e.waiting[1..];
    }
    hide CanAdmit, TookFirst;
    forall k | 0 <= k < n + 1
      ensures FitsAs(c, e, k)
    {
      if k > 0 {
        assert FitsAs(c, next, k - 1);
      }
    }
    hide FitsAs;
    if n + 1 < |e.waiting| {
      assert !FitsAs(c, next, n);
    }
  }

  lemma TookStep(e: Sched, r: Sched, n: nat)
    requires Indexed(e) && e.waiting != [] && TookFirst(AdmitFirst(e), r, n)
    ensures TookFirst(e, r, n + 1)
  {
    SplitFirst(e.waiting, n);
  }

  lemma SplitFirst(s: seq<nat>, n: nat)
    requires s != [] && n <= |s| - 1
    ensures s[..n + 1] == [s[0]] + s[1..][..n] && s[n + 1..] == s[1..][n..]
    ensures forall i: nat :: i in s[..n + 1] <==> i == s[0] || i in s[1..][..n]
  {
  }

  // ---- Sharing ------------------------------------------------------------------------------

  /** A block of the shared run is a cached block. */
  lemma RunIsCached(hash: HashBlock, bs: nat, p: Prefixes, tokens: seq<int>, grown: seq<nat>, k: nat)
    requires bs > 0 && LongestRun(hash, bs, p, tokens, 0, grown) && k < |grown|
    ensures exists h, i :: IsEntry(p, h, i) && p[h][i].block == grown[k]
              && k * bs + bs <= |tokens| && p[h][i].parent == Chain(hash, bs, Leading(tokens, bs, k))
                  && p[h][i].tokens == Span(tokens, bs, k)
  {
    hide Chain;
    assert LookupBlock(hash, bs, p, tokens, k) == Some(grown[k]);
    var parent := Chain(hash, bs, Leading(tokens, bs, k));
    var span := Span(tokens, bs, k);
    var h := hash(parent, span);
    assert IsEntry(p, h, FirstMatch(p[h], parent, span));
  }

  /** Counts of blocks outside the shared run do not change. */
  lemma SharedCounts(bs: nat, s: Pool, t: Pool, grown: seq<nat>, b: nat)
    requires PoolValid(bs, s) && Shared(bs, s, [], t, grown) && b < |s.count| && b !in grown
    ensures t.count[b] == s.count[b]
  {
    hide CacheRefs, SameButTicks;
    assert grown[0..] == grown;
    assert b !in multiset(grown);
    assert s.count[b] == s.held[b] + CacheRefs(s.prefix)[b];
    assert t.count[b] == t.held[b] + CacheRefs(t.prefix)[b];
  }

  lemma AlignedLength(bs: nat, n: nat)
    requires bs > 0
    ensures BlockOf(bs, n * bs) == n && SlotOf(bs, n * bs) == 0 && BlocksFor(bs, n * bs) == n
  {
    QuotientOf(bs, n, 0);
    BlocksForAligned(bs, n * bs);
  }

  lemma SharedIsPaged(hash: HashBlock, bs: nat, s: Pool, blocks: seq<SequenceBlocks>, id: nat, tokens: seq<int>,
                      t: Pool, b: SequenceBlocks)
    requires bs > 0 && id < |blocks| && blocks[id] == EMPTY_BLOCKS && b.length == |b.table| * bs
    requires Paged(bs, s, blocks)
    requires Shared(bs, s, [], t, b.table) && LongestRun(hash, bs, s.prefix, tokens, 0, b.table)
    ensures Paged(bs, t, blocks[id := b])
  {
    var table := b.table;
    hide PoolValid, AllHeld, Chain, SameButTicks, CacheRefs, LongestRun;
    var grown := blocks[id := b];
    AllHeldUpdate(blocks, id, b);
    assert table[0..] == table;
    assert t.held == AllHeld(grown);
    AlignedLength(bs, |table|);
    hide BlockOf;
    forall i, k | 0 <= i < |grown| && BlockOf(bs, grown[i].length) <= k < |grown[i].table|
      ensures grown[i].table[k] < |t.count| && t.count[grown[i].table[k]] == 1
    {
      assert i != id;
      WritableIsAlone(bs, s, blocks, i, k);
      var w := blocks[i].table[k];
      forall m | 0 <= m < |table|
        ensures table[m] != w
      {
        RunIsCached(hash, bs, s.prefix, tokens, table, m);
      }
      SharedCounts(bs, s, t, table, w);
    }
  }

  lemma ShareForKeeps(c: Config, e: Sched, id: nat)
    requires c.bs > 0 && Inv(c, e) && id in e.running
    ensures Inv(c, ShareFor(c, e, id))
  {
    hide Paged, SeqOk, AcquireFrom, Shared, LongestRun, FreeInRange, ShareCap;
    var s, b := e.sequences[id], e.blocks[id];
    assert SeqOk(c.bs, s, b);
    if c.prefixCache && !s.prefilled && b == EMPTY_BLOCKS && s.Context() != [] {
      var cap := ShareCap(c.bs, s.Context());
      if cap > 0 {
        var tokens := s.Context()[..cap];
        PagedIsValid(c.bs, e.pool, e.blocks);
        assert 0 * c.bs == 0;
        AcquireKeeps(c.hash, c.bs, e.pool, tokens, []);
        var (table, t) := AcquireFrom(c.hash, c.bs, e.pool, tokens, []);
        RunFits(c.hash, c.bs, e.pool.prefix, tokens, table);
        SharedIsPaged(c.hash, c.bs, e.pool, e.blocks, id, tokens, t, SequenceBlocks(table, |table| * c.bs));
        SharedSeqOk(c, s, table, cap);
        PagedIsValid(c.bs, t, e.blocks[id := SequenceBlocks(table, |table| * c.bs)]);
        ReplaceBlocks(c, e, id, SequenceBlocks(table, |table| * c.bs), t);
      }
    }
  }

  /** What a fresh sequence shares is the longest cached run of its context, one token short of all of it at most. */
  lemma ShareForShares(c: Config, e: Sched, id: nat)
    requires c.bs > 0 && Indexed(e) && Inv(c, e) && id in e.running && c.prefixCache
    requires !e.sequences[id].prefilled && e.blocks[id] == EMPTY_BLOCKS
    ensures var ctx := e.sequences[id].Context();
            var shared := ShareFor(c, e, id).blocks[id];
            && ctx != [] && LongestRun(c.hash, c.bs, e.pool.prefix, ctx[..ShareCap(c.bs, ctx)], 0, shared.table)
            && shared.length == |shared.table| * c.bs < |ctx|
  {
    hide Paged, AcquireFrom, Shared, LookupBlock, FreeInRange, ShareCap, RunningOk;
    assert SeqOk(c.bs, e.sequences[id], e.blocks[id]);
    hide SeqOk;
    var ctx := e.sequences[id].Context();
    var cap := ShareCap(c.bs, ctx);
    PagedIsValid(c.bs, e.pool, e.blocks);
    assert 0 * c.bs == 0;
    AcquireKeeps(c.hash, c.bs, e.pool, ctx[..cap], []);
  }

  lemma PagedIsValid(bs: nat, s: Pool, blocks: seq<SequenceBlocks>)
    requires Paged(bs, s, blocks)
    ensures bs > 0 && PoolValid(bs, s) && FreeInRange(s) && s.held == AllHeld(blocks)
  {
    ValidIsConsistent(bs, s);
    hide PoolValid, AllHeld, Exclusive;
  }

  lemma RunFits(hash: HashBlock, bs: nat, p: Prefixes, tokens: seq<int>, table: seq<nat>)
    requires bs > 0 && LongestRun(hash, bs, p, tokens, 0, table)
    ensures |table| * bs <= |tokens|
  {
    hide Chain, LookupBlock;
  }

  /** Replacing one sequence's paging state and the pool under it. */
  lemma ReplaceBlocks(c: Config, e: Sched, id: nat, b: SequenceBlocks, t: Pool)
    requires c.bs > 0 && Inv(c, e) && id < |e.sequences|
    requires Paged(c.bs, t, e.blocks[id := b]) && FreeInRange(t) && SeqOk(c.bs, e.sequences[id], b)
    ensures Inv(c, e.(pool := t, blocks := e.blocks[id := b]))
  {
    hide Paged, SeqOk, FreeInRange;
  }

  lemma SharedSeqOk(c: Config, s: EngineSequence, table: seq<nat>, cap: nat)
    requires c.bs > 0 && SeqOk(c.bs, s, EMPTY_BLOCKS) && s.status == Running && !s.prefilled
    requires cap == ShareCap(c.bs, s.Context()) && |table| * c.bs <= cap
    ensures SeqOk(c.bs, s, SequenceBlocks(table, |table| * c.bs))
  {
    hide StopsOnlyAtEnd, Stops;
    var bs := c.bs;
    AlignedLength(bs, |table|);
    BlocksForMonotone(bs, |table| * bs, |s.Context()|);
  }

  // ---- Batch assembly -----------------------------------------------------------------------

  /** Running sequences feed exactly the rest of their context, and it is never empty. */
  lemma StepTokensAre(bs: nat, s: EngineSequence, b: SequenceBlocks)
    requires bs > 0 && SeqOk(bs, s, b) && s.status == Running
    ensures b.length < |s.Context()| && StepTokens(s, b) == s.Context()[b.length..] && StepTokens(s, b) != []
    ensures b.length + |StepTokens(s, b)| == |s.Context()|
    ensures 0 <= Delta(bs, b, |StepTokens(s, b)|) == BlocksFor(bs, |s.Context()|) - |b.table|
  {
    hide BlocksFor, StopsOnlyAtEnd, Stops, SlotOf;
    var ctx := s.Context();
    if s.prefilled {
      assert ctx[|ctx| - 1] == s.output[|s.output| - 1];
      assert ctx[b.length..] == [ctx[|ctx| - 1]];
    }
  }

  /** The items of a batch, and what is left of the block budget after them. */
  ghost predicate BatchOk(c: Config, e: Sched, items: seq<BatchItem>, n: nat, budget: int)
    requires c.bs > 0
  {
    && |e.blocks| == |e.sequences| && n <= |e.running| && DistinctItems(items, |e.blocks|)
    && (forall k :: 0 <= k < |items| ==>
          && items[k].seqIndex in e.running[..n]
          && items[k].tokens == StepTokens(e.sequences[items[k].seqIndex], e.blocks[items[k].seqIndex]))
    && SumDeltas(c.bs, e.blocks, items) + budget == |e.pool.free|
    && 0 <= budget
  }

  lemma BatchDistinct(c: Config, e: Sched, items: seq<BatchItem>, left: int)
    requires c.bs > 0 && BatchOk(c, e, items, |e.running|, left)
    ensures DistinctItems(items, |e.blocks|) && |e.blocks| == |e.sequences|
  {
    hide StepTokens, SumDeltas;
  }

  /** Nobody considered so far and left out would still fit the budget. */
  ghost predicate NoneLeftOut(c: Config, e: Sched, items: seq<BatchItem>, n: nat, budget: int)
    requires c.bs > 0
  {
    forall j ::
      && 0 <= j < n && j < |e.running| && e.running[j] < |e.blocks| && e.running[j] < |e.sequences|
      && NotAnItem(items, 0, e.running[j]) ==>
      Delta(c.bs, e.blocks[e.running[j]], |StepTokens(e.sequences[e.running[j]], e.blocks[e.running[j]])|) > budget
  }

  /** Sharing touches the sequence itself only, and never the free list. */
  lemma ShareForFrame(c: Config, e: Sched, id: nat)
    requires c.bs > 0 && Indexed(e) && id < |e.sequences|
    ensures var r := ShareFor(c, e, id);
            && r.sequences == e.sequences && r.running == e.running && r.waiting == e.waiting
                && r.preemptions == e.preemptions
            && r.pool.free == e.pool.free && |r.blocks| == |e.blocks|
            && (forall j :: 0 <= j < |e.blocks| && j != id ==> r.blocks[j] == e.blocks[j])
            && |r.pool.count| == |e.pool.count|
            && (!c.prefixCache ==> r == e)
  {
    hide AcquireFrom, FreeInRange;
    if c.prefixCache && e.sequences[id].Context() != [] {
      var cap := ShareCap(c.bs, e.sequences[id].Context());
      AcquireFreeSame(c.hash, c.bs, e.pool, e.sequences[id].Context()[..cap], []);
    }
  }

  /** Sharing neither adds nor drops a reference of the cache. */
  lemma ShareForRefs(c: Config, e: Sched, id: nat)
    requires c.bs > 0 && Inv(c, e) && Indexed(e) && id < |e.sequences|
    ensures CacheRefs(ShareFor(c, e, id).pool.prefix) == CacheRefs(e.pool.prefix)
  {
    hide Paged, AcquireFrom, LongestRun, FreeInRange, ShareCap, CacheRefs, SameButTicks, PoolValid, Queues, AllSeqOk;
    var s, b := e.sequences[id], e.blocks[id];
    if c.prefixCache && !s.prefilled && b == EMPTY_BLOCKS && s.Context() != [] {
      var tokens := s.Context()[..ShareCap(c.bs, s.Context())];
      PagedIsValid(c.bs, e.pool, e.blocks);
      assert 0 * c.bs == 0;
      AcquireKeeps(c.hash, c.bs, e.pool, tokens, []);
    }
  }

  lemma BatchSkips(c: Config, e: Sched, r: Sched, items: seq<BatchItem>, n: nat, budget: int)
    requires c.bs > 0 && Indexed(e) && n < |e.running| && NoDuplicates(e.running)
    requires BatchOk(c, e, items, n, budget) && NoneLeftOut(c, e, items, n, budget)
    requires |r.blocks| == |e.blocks| && r.sequences == e.sequences && r.running == e.running
             && r.pool.free == e.pool.free
    requires forall j :: 0 <= j < |e.blocks| && j != e.running[n] ==> r.blocks[j] == e.blocks[j]
    ensures NotAnItem(items, 0, e.running[n])
    ensures BatchOk(c, r, items, n, budget) && NoneLeftOut(c, r, items, n, budget)
  {
    hide StepTokens, Delta, FreeInRange;
    forall k | 0 <= k < |items|
      ensures items[k].seqIndex != e.running[n]
    {
      var j :| 0 <= j < n && e.running[..n][j] == items[k].seqIndex;
      assert e.running[j] != e.running[n];
    }
    SumDeltasSame(c.bs, e.blocks, r.blocks, items);
    hide SumDeltas;
    forall j | 0 <= j < n
      ensures e.running[j] != e.running[n]
    {
    }
  }

  lemma BatchPassesOver(c: Config, e: Sched, items: seq<BatchItem>, n: nat, budget: int)
    requires c.bs > 0 && n < |e.running| && e.running[n] < |e.blocks| == |e.sequences|
    requires BatchOk(c, e, items, n, budget) && NoneLeftOut(c, e, items, n, budget)
    requires Delta(c.bs, e.blocks[e.running[n]], |StepTokens(e.sequences[e.running[n]],
             e.blocks[e.running[n]])|) > budget
    ensures BatchOk(c, e, items, n + 1, budget) && NoneLeftOut(c, e, items, n + 1, budget)
  {
    hide StepTokens, Delta, FreeInRange, SumDeltas, DistinctItems, NotAnItem;
    assert e.running[..n + 1] == e.running[..n] + [e.running[n]];
  }

  lemma BatchTakes(c: Config, e: Sched, items: seq<BatchItem>, n: nat, budget: int, item: BatchItem, delta: int)
    requires c.bs > 0 && n < |e.running| && e.running[n] < |e.blocks| == |e.sequences|
    requires BatchOk(c, e, items, n, budget) && NoneLeftOut(c, e, items, n, budget) && NotAnItem(items, 0, e.running[n])
    requires item == BatchItem(e.running[n], StepTokens(e.sequences[e.running[n]], e.blocks[e.running[n]]))
    requires 0 <= delta <= budget && delta == Delta(c.bs, e.blocks[item.seqIndex], |item.tokens|)
    ensures BatchOk(c, e, items + [item], n + 1, budget - delta)
            && NoneLeftOut(c, e, items + [item], n + 1, budget - delta)
  {
    hide StepTokens, Delta, FreeInRange, SumDeltas, NotAnItem;
    var more := items + [item];
    assert e.running[..n + 1] == e.running[..n] + [e.running[n]];
    MoreItems(items, item, |e.blocks|);
    SumDeltasMore(c.bs, e.blocks, items, item);
    hide DistinctItems;
    forall k | 0 <= k < |more|
      ensures more[k].seqIndex in e.running[..n + 1]
      ensures more[k].tokens == StepTokens(e.sequences[more[k].seqIndex], e.blocks[more[k].seqIndex])
    {
      if k < |items| {
        assert more[k] == items[k];
      }
    }
  }

  lemma SumDeltasMore(bs: nat, blocks: seq<SequenceBlocks>, items: seq<BatchItem>, item: BatchItem)
    requires bs > 0 && DistinctItems(items + [item], |blocks|) && DistinctItems(items, |blocks|)
    ensures item.seqIndex < |blocks|
    ensures SumDeltas(bs, blocks, items + [item])
            == SumDeltas(bs, blocks, items) + Delta(bs, blocks[item.seqIndex], |item.tokens|)
  {
    hide Delta;
    var more := items + [item];
    assert more[..|more| - 1] == items && more[|more| - 1] == item;
  }

  lemma MoreItems(items: seq<BatchItem>, item: BatchItem, n: nat)
    requires DistinctItems(items, n) && item.seqIndex < n && NotAnItem(items, 0, item.seqIndex)
    ensures DistinctItems(items + [item], n)
    ensures forall j: nat :: NotAnItem(items + [item], 0, j) ==> NotAnItem(items, 0, j) && j != item.seqIndex
  {
    var more := items + [item];
    assert more[|items|] == item;
    assert forall k :: 0 <= k < |items| ==> more[k] == items[k];
  }

  /** What one assembly pass does: only sharing, and a batch that leaves out nobody who would still fit. */
  ghost predicate Assembled(c: Config, e: Sched, r: Sched, batch: seq<BatchItem>)
    requires c.bs > 0
  {
    && Inv(c, r) && r.sequences == e.sequences && r.running == e.running && r.waiting == e.waiting
        && r.preemptions == e.preemptions
    && |r.blocks| == |e.blocks| && r.pool.free == e.pool.free && |r.pool.count| == |e.pool.count|
    && CacheRefs(r.pool.prefix) == CacheRefs(e.pool.prefix)
    && (!c.prefixCache ==> r == e)
    && exists left: int :: BatchOk(c, r, batch, |r.running|, left) && NoneLeftOut(c, r, batch, |r.running|, left)
  }

  lemma {:induction false} AssembleKeeps(c: Config, e: Sched, n: nat, budget: int, items: seq<BatchItem>)
    requires c.bs > 0 && Indexed(e) && Inv(c, e) && n <= |e.running|
    requires BatchOk(c, e, items, n, budget) && NoneLeftOut(c, e, items, n, budget)
    ensures Assembled(c, e, Assemble(c, e, n, budget, items).0, Assemble(c, e, n, budget, items).1)
    decreases |e.running| - n
  {
    hide Inv, BatchOk, NoneLeftOut, SeqOk, NotAnItem, StepTokens, Delta, FreeInRange, ShareFor, CacheRefs;
    if n < |e.running| {
      var id := e.running[n];
      RunningId(c, e, n);
      ShareForKeeps(c, e, id);
      ShareForFrame(c, e, id);
      ShareForRefs(c, e, id);
      var shared := ShareFor(c, e, id);
      RunningId(c, shared, n);
      BatchSkips(c, e, shared, items, n, budget);
      StepTokensAre(c.bs, shared.sequences[id], shared.blocks[id]);
      var item := BatchItem(id, StepTokens(shared.sequences[id], shared.blocks[id]));
      var delta := Delta(c.bs, shared.blocks[id], |item.tokens|);
      hide Indexed;
      if delta > budget {
        BatchPassesOver(c, shared, items, n, budget);
        AssembleKeeps(c, shared, n + 1, budget, items);
      } else {
        BatchTakes(c, shared, items, n, budget, item, delta);
        AssembleKeeps(c, shared, n + 1, budget - delta, items + [item]);
      }
    }
  }

  lemma RunningId(c: Config, e: Sched, n: nat)
    requires c.bs > 0 && Inv(c, e) && n < |e.running|
    ensures Indexed(e) && e.running[n] in e.running
    ensures e.running[n] < |e.sequences| == |e.blocks| && e.sequences[e.running[n]].status == Running
    ensures SeqOk(c.bs, e.sequences[e.running[n]], e.blocks[e.running[n]]) && NoDuplicates(e.running)
  {
    hide Paged, SeqOk, FreeInRange;
    assert e.running[n] in e.running;
  }

  // ---- Who gets into the batch --------------------------------------------------------------

  /** Item k is the running sequence at place at[k]; places increase. */
  ghost predicate InOrder(running: seq<nat>, items: seq<BatchItem>, at: seq<nat>, n: nat) {
    && |at| == |items| && n <= |running|
    && (forall k :: 0 <= k < |at| ==> at[k] < n && running[at[k]] == items[k].seqIndex)
    && (forall k, m :: 0 <= k < m < |at| ==> at[k] < at[m])
  }

  /** Place n lies after the first k items and before the others. */
  ghost predicate Between(at: seq<nat>, k: nat, n: nat) {
    k <= |at| && (k > 0 ==> at[k - 1] < n) && (k < |at| ==> n < at[k])
  }

  /** Blocks left for the next one after the first k items. */
  ghost function LeftAfter(c: Config, e: Sched, items: seq<BatchItem>, k: nat): int
    requires c.bs > 0 && k <= |items| && DistinctItems(items, |e.blocks|)
  {
    |e.pool.free| - SumDeltas(c.bs, e.blocks, items[..k])
  }

  /** Blocks the running sequence at place n needs. */
  ghost function NeedAt(c: Config, e: Sched, n: nat): int
    requires c.bs > 0 && n < |e.running| && e.running[n] < |e.blocks| && e.running[n] < |e.sequences|
  {
    Delta(c.bs, e.blocks[e.running[n]], |StepTokens(e.sequences[e.running[n]], e.blocks[e.running[n]])|)
  }

  /** In running order, each one is in the batch exactly if it needs no more than those before it have left. */
  ghost predicate FirstFit(c: Config, e: Sched, items: seq<BatchItem>, at: seq<nat>, n: nat)
    requires c.bs > 0
  {
    && DistinctItems(items, |e.blocks|) && |e.blocks| == |e.sequences| && InOrder(e.running, items, at, n)
    && (forall j :: 0 <= j < |e.running| ==> e.running[j] < |e.blocks|)
    && (forall k :: 0 <= k < |at| ==> NeedAt(c, e, at[k]) <= LeftAfter(c, e, items, k))
    && (forall j, k :: 0 <= j < n && 0 <= k && Between(at, k, j) ==> NeedAt(c, e, j) > LeftAfter(c, e, items, k))
  }

  /** Sharing for a sequence not yet considered changes nothing for those before it. */
  lemma FirstFitShares(c: Config, e: Sched, r: Sched, items: seq<BatchItem>, at: seq<nat>, n: nat)
    requires c.bs > 0 && n < |e.running| && NoDuplicates(e.running) && FirstFit(c, e, items, at, n)
    requires |r.blocks| == |e.blocks| && r.sequences == e.sequences && r.running == e.running
             && r.pool.free == e.pool.free
    requires forall j :: 0 <= j < |e.blocks| && j != e.running[n] ==> r.blocks[j] == e.blocks[j]
    ensures FirstFit(c, r, items, at, n)
  {
    hide StepTokens, Delta, SumDeltas;
    forall k: nat | k <= |items|
      ensures LeftAfter(c, r, items, k) == LeftAfter(c, e, items, k)
    {
      forall m | 0 <= m < k
        ensures items[m].seqIndex != e.running[n]
      {
        assert e.running[at[m]] == items[m].seqIndex;
      }
      SumDeltasSame(c.bs, e.blocks, r.blocks, items[..k]);
    }
    assert forall j: nat :: j < n ==> NeedAt(c, r, j) == NeedAt(c, e, j);
    hide LeftAfter, NeedAt;
  }

  lemma FirstFitSkips(c: Config, e: Sched, items: seq<BatchItem>, at: seq<nat>, n: nat)
    requires c.bs > 0 && FirstFit(c, e, items, at, n) && n < |e.running|
             && NeedAt(c, e, n) > LeftAfter(c, e, items, |items|)
    ensures FirstFit(c, e, items, at, n + 1)
  {
    hide NeedAt, LeftAfter;
    forall k | 0 <= k && Between(at, k, n)
      ensures k == |at|
    {
    }
  }

  lemma MoreInOrder(running: seq<nat>, items: seq<BatchItem>, at: seq<nat>, n: nat, item: BatchItem)
    requires InOrder(running, items, at, n) && n < |running| && item.seqIndex == running[n] && NoDuplicates(running)
    ensures InOrder(running, items + [item], at + [n], n + 1) && NotAnItem(items, 0, item.seqIndex)
    ensures forall k: nat, j: nat :: j < n && Between(at + [n], k, j) ==> Between(at, k, j)
    ensures forall k: nat :: !Between(at + [n], k, n)
  {
    forall k | 0 <= k < |items|
      ensures items[k].seqIndex != item.seqIndex
    {
      assert running[at[k]] == items[k].seqIndex;
    }
  }

  lemma LeftBefore(c: Config, e: Sched, items: seq<BatchItem>, item: BatchItem, k: nat)
    requires c.bs > 0 && k <= |items| && DistinctItems(items, |e.blocks|) && DistinctItems(items + [item], |e.blocks|)
    ensures LeftAfter(c, e, items + [item], k) == LeftAfter(c, e, items, k)
  {
    assert (items + [item])[..k] == items[..k];
  }

  lemma FirstFitTakes(c: Config, e: Sched, items: seq<BatchItem>, at: seq<nat>, n: nat, item: BatchItem)
    requires c.bs > 0 && FirstFit(c, e, items, at, n) && n < |e.running| && NoDuplicates(e.running)
    requires item.seqIndex == e.running[n] && NeedAt(c, e, n) <= LeftAfter(c, e, items, |items|)
    ensures FirstFit(c, e, items + [item], at + [n], n + 1)
  {
    hide NeedAt, LeftAfter, InOrder, Between, DistinctItems, NotAnItem;
    MoreInOrder(e.running, items, at, n, item);
    MoreItems(items, item, |e.blocks|);
    forall k: nat | k <= |items| {
      LeftBefore(c, e, items, item, k);
    }
    PlacesKnown(e.running, items, at, n);
  }

  lemma PlacesKnown(running: seq<nat>, items: seq<BatchItem>, at: seq<nat>, n: nat)
    requires InOrder(running, items, at, n)
    ensures |at| == |items| && forall k :: 0 <= k < |at| ==> at[k] < n
    ensures forall k: nat, j: nat :: Between(at, k, j) ==> k <= |items|
  {
  }

  /** The batch a pass assembles is the first fit in running order. */
  ghost predicate AssembledFirstFit(c: Config, r: Sched, items: seq<BatchItem>)
    requires c.bs > 0
  {
    exists at :: FirstFit(c, r, items, at, |r.running|)
  }

  lemma {:induction false} AssembleIsFirstFit(c: Config, e: Sched, n: nat, budget: int, items: seq<BatchItem>,
                                              at: seq<nat>)
    requires c.bs > 0 && Indexed(e) && Inv(c, e) && n <= |e.running| && FirstFit(c, e, items, at, n)
    requires budget == LeftAfter(c, e, items, |items|)
    ensures AssembledFirstFit(c, Assemble(c, e, n, budget, items).0, Assemble(c, e, n, budget, items).1)
    decreases |e.running| - n
  {
    hide Inv, SeqOk, StepTokens, Delta, FreeInRange, ShareFor, SumDeltas, Assemble, FirstFit;
    AssembleUnfold(c, e, n, budget, items);
    if n < |e.running| {
      var id := e.running[n];
      RunningId(c, e, n);
      ShareForKeeps(c, e, id);
      ShareForFrame(c, e, id);
      var shared := ShareFor(c, e, id);
      RunningId(c, shared, n);
      FirstFitShares(c, e, shared, items, at, n);
      SameLeft(c, e, shared, items, at, n);
      var item := BatchItem(id, StepTokens(shared.sequences[id], shared.blocks[id]));
      if NeedAt(c, shared, n) > budget {
        FirstFitSkips(c, shared, items, at, n);
        AssembleIsFirstFit(c, shared, n + 1, budget, items, at);
      } else {
        FirstFitTakes(c, shared, items, at, n, item);
        LeftAfterMore(c, shared, items, at, n, item);
        AssembleIsFirstFit(c, shared, n + 1, budget - NeedAt(c, shared, n), items + [item], at + [n]);
      }
    } else {
      assert FirstFit(c, e, items, at, |e.running|);
    }
  }

  lemma SameLeft(c: Config, e: Sched, r: Sched, items: seq<BatchItem>, at: seq<nat>, n: nat)
    requires c.bs > 0 && n < |e.running| && NoDuplicates(e.running) && FirstFit(c, e, items, at, n)
    requires |r.blocks| == |e.blocks| && r.pool.free == e.pool.free
    requires forall j :: 0 <= j < |e.blocks| && j != e.running[n] ==> r.blocks[j] == e.blocks[j]
    ensures DistinctItems(items, |r.blocks|) && LeftAfter(c, r, items, |items|) == LeftAfter(c, e, items, |items|)
  {
    hide StepTokens, Delta, SumDeltas, NeedAt;
    forall m | 0 <= m < |items|
      ensures items[m].seqIndex != e.running[n]
    {
      assert e.running[at[m]] == items[m].seqIndex;
    }
    assert items[..|items|] == items;
    SumDeltasSame(c.bs, e.blocks, r.blocks, items);
  }

  lemma LeftAfterMore(c: Config, e: Sched, items: seq<BatchItem>, at: seq<nat>, n: nat, item: BatchItem)
    requires c.bs > 0 && n < |e.running| && FirstFit(c, e, items, at, n)
             && FirstFit(c, e, items + [item], at + [n], n + 1)
    requires item == BatchItem(e.running[n], StepTokens(e.sequences[e.running[n]], e.blocks[e.running[n]]))
    ensures LeftAfter(c, e, items + [item], |items| + 1) == LeftAfter(c, e, items, |items|) - NeedAt(c, e, n)
  {
    hide StepTokens, Delta, SumDeltas;
    assert (items + [item])[..|items| + 1] == items + [item] && items[..|items|] == items;
    SumDeltasMore(c.bs, e.blocks, items, item);
  }

  /** So is the batch of every step: the selection ends with one pass. */
  lemma {:induction false} SelectIsFirstFit(c: Config, e: Sched)
    requires c.bs > 0 && Indexed(e) && Inv(c, e)
    ensures AssembledFirstFit(c, Select(c, e).0, Select(c, e).1)
    decreases |e.running|
  {
    hide Inv, BatchOk, NoneLeftOut, Assemble, FreeFrom, FreeInRange, FirstFit, CacheRefs;
    NobodyYet(c, e);
    AssembleIsFirstFit(c, e, 0, |e.pool.free|, [], []);
    EmptyBatchOk(c, e);
    AssembleKeeps(c, e, 0, |e.pool.free|, []);
    var (a, items) := Assemble(c, e, 0, |e.pool.free|, []);
    if items == [] && |a.running| > 1 {
      var i := YoungestHolder(a.blocks, a.running, |a.running|);
      if i < |a.running| {
        PreemptKeeps(c, a, i);
        PreemptIndexed(c, a, i);
        SelectIsFirstFit(c, PreemptAt(a, i));
      }
    }
  }

  lemma NobodyYet(c: Config, e: Sched)
    requires c.bs > 0 && Indexed(e)
    ensures FirstFit(c, e, [], [], 0) && LeftAfter(c, e, [], 0) == |e.pool.free|
  {
    hide FreeInRange;
  }

  // ---- Giving blocks back -------------------------------------------------------------------

  /** Freeing a table changes the counts of its own blocks only. */
  lemma {:induction false} FreeCounts(s: Pool, table: seq<nat>, b: nat)
    requires b < |s.count| && b !in table
    ensures |FreeFrom(s, table).count| == |s.count| && FreeFrom(s, table).count[b] == s.count[b]
    decreases |table|
  {
    if table != [] {
      FreeCounts(Release(s, table[0]), table[1..], b);
    }
  }

  lemma FreedIsPaged(bs: nat, s: Pool, blocks: seq<SequenceBlocks>, id: nat)
    requires bs > 0 && id < |blocks| && Paged(bs, s, blocks)
    ensures Paged(bs, FreeFrom(s, blocks[id].table), blocks[id := EMPTY_BLOCKS])
    ensures FreeInRange(FreeFrom(s, blocks[id].table))
  {
    hide PoolValid, AllHeld, BlockOf;
    var table := blocks[id].table;
    AllHeldUpdate(blocks, id, EMPTY_BLOCKS);
    FreeKeeps(bs, s, table);
    var t := FreeFrom(s, table);
    ValidIsConsistent(bs, t);
    hide FreeFrom;
    assert t.held == AllHeld(blocks[id := EMPTY_BLOCKS]);
    var left := blocks[id := EMPTY_BLOCKS];
    forall i, k | 0 <= i < |left| && BlockOf(bs, left[i].length) <= k < |left[i].table|
      ensures left[i].table[k] < |t.count| && t.count[left[i].table[k]] == 1
    {
      WritableIsAlone(bs, s, blocks, i, k);
      FreeCounts(s, table, blocks[i].table[k]);
    }
  }

  /**
   A preempted sequence keeps its output, gives up its blocks and its place, and is first in the queue; nobody
   else notices.
   */
  lemma PreemptQueuesFirst(c: Config, e: Sched, i: nat)
    requires c.bs > 0 && Indexed(e) && Inv(c, e) && i < |e.running|
    ensures var id, t := e.running[i], PreemptAt(e, i);
            && id < |e.sequences| == |t.sequences| && |t.blocks| == |e.blocks| == |e.sequences|
            && t.waiting == [id] + e.waiting && t.running == e.running[..i] + e.running[i + 1..]
            && t.blocks[id] == EMPTY_BLOCKS && t.preemptions == e.preemptions + 1
            && t.sequences[id] == EngineSequence(e.sequences[id].request, e.sequences[id].output, Waiting, false)
            && forall j :: 0 <= j < |e.sequences| && j != id ==>
                 t.sequences[j] == e.sequences[j] && t.blocks[j] == e.blocks[j]
  {
    hide Inv, FreeFrom, FreeInRange, SeqOk;
    RunningId(c, e, i);
  }

  /** Taking the blocks of a running sequence away and queueing it again keeps the invariant. */
  lemma PreemptKeeps(c: Config, e: Sched, i: nat)
    requires c.bs > 0 && Indexed(e) && Inv(c, e) && i < |e.running|
    ensures Inv(c, PreemptAt(e, i))
  {
    hide Paged, FreeFrom, StopsOnlyAtEnd, Stops, RunningOk;
    var id := e.running[i];
    FreedIsPaged(c.bs, e.pool, e.blocks, id);
    hide FreeInRange;
    var r := PreemptAt(e, i);
    RunningId(c, e, i);
    forall k | 0 <= k < |r.sequences|
      ensures SeqOk(c.bs, r.sequences[k], r.blocks[k])
    {
      assert SeqOk(c.bs, e.sequences[k], e.blocks[k]);
    }
    hide SeqOk;
    RemoveAt(e.running, i);
    assert id !in e.waiting;
  }

  lemma PreemptIndexed(c: Config, e: Sched, i: nat)
    requires c.bs > 0 && Indexed(e) && Inv(c, e) && i < |e.running|
    ensures Indexed(PreemptAt(e, i)) && |PreemptAt(e, i).running| < |e.running|
  {
    PreemptKeeps(c, e, i);
    hide Paged, Queues, AllSeqOk, FreeFrom, FreeInRange;
  }

  lemma RemoveAt(s: seq<nat>, i: nat)
    requires i < |s| && NoDuplicates(s)
    ensures var r := s[..i] + s[i + 1..];
            NoDuplicates(r) && forall x: nat :: x in r <==> x in s && x != s[i]
  {
    var r := s[..i] + s[i + 1..];
    forall x: nat | x in s && x != s[i]
      ensures x in r
    {
      var k :| 0 <= k < |s| && s[k] == x;
      assert r[if k < i then k else k - 1] == x;
    }
  }

  // ---- The whole selection ------------------------------------------------------------------

  /** The batch a step forwards: it keeps the budget and leaves out nobody who would still fit. */
  ghost predicate Selected(c: Config, e: Sched, r: Sched, batch: seq<BatchItem>)
    requires c.bs > 0
  {
    && Inv(c, r) && |r.sequences| == |e.sequences| && |r.pool.count| == |e.pool.count|
    && (forall j :: 0 <= j < |e.sequences| ==> SameButQueued(e.sequences[j], r.sequences[j]))
    && exists left: int :: BatchOk(c, r, batch, |r.running|, left) && NoneLeftOut(c, r, batch, |r.running|, left)
  }

  /** Selection may send a running sequence back to the queue; it never touches what was generated. */
  ghost predicate SameButQueued(s: EngineSequence, t: EngineSequence) {
    || t == s
    || (s.status == Running && t == s.(status := Waiting, prefilled := false))
  }

  lemma EmptyBatchOk(c: Config, e: Sched)
    requires c.bs > 0 && |e.blocks| == |e.sequences|
    ensures BatchOk(c, e, [], 0, |e.pool.free|) && NoneLeftOut(c, e, [], 0, |e.pool.free|)
  {
  }

  lemma {:induction false} SelectKeeps(c: Config, e: Sched)
    requires c.bs > 0 && Indexed(e) && Inv(c, e)
    ensures Selected(c, e, Select(c, e).0, Select(c, e).1)
    decreases |e.running|
  {
    hide Inv, BatchOk, NoneLeftOut, Assemble, FreeFrom, FreeInRange;
    EmptyBatchOk(c, e);
    AssembleKeeps(c, e, 0, |e.pool.free|, []);
    var (a, items) := Assemble(c, e, 0, |e.pool.free|, []);
    if items == [] && |a.running| > 1 {
      var i := YoungestHolder(a.blocks, a.running, |a.running|);
      if i < |a.running| {
        FreeStaysInRange(a.pool, a.blocks[a.running[i]].table);
        PreemptKeeps(c, a, i);
        PreemptSame(c, e, a, i);
        var p := PreemptAt(a, i);
        SelectKeeps(c, p);
        var (r, batch) := Select(c, p);
        SelectedChain(c, e, p, r, batch);
      }
    }
  }

  lemma PreemptSame(c: Config, e: Sched, a: Sched, i: nat)
    requires c.bs > 0 && Inv(c, a) && a.sequences == e.sequences && Indexed(a) && i < |a.running|
    ensures var p := PreemptAt(a, i);
            && Indexed(p) && |p.sequences| == |e.sequences| && |p.pool.count| == |a.pool.count|
            && forall j :: 0 <= j < |e.sequences| ==> SameButQueued(e.sequences[j], p.sequences[j])
  {
    hide SeqOk, Paged;
    RunningId(c, a, i);
    FreeStaysInRange(a.pool, a.blocks[a.running[i]].table);
  }

  lemma SelectedChain(c: Config, e: Sched, p: Sched, r: Sched, batch: seq<BatchItem>)
    requires c.bs > 0 && Selected(c, p, r, batch) && |p.sequences| == |e.sequences| && |p.pool.count| == |e.pool.count|
    requires forall j :: 0 <= j < |e.sequences| ==> SameButQueued(e.sequences[j], p.sequences[j])
    ensures Selected(c, e, r, batch)
  {
    hide Inv, BatchOk, NoneLeftOut;
  }

  // ---- The forward --------------------------------------------------------------------------

  /** A sequence that has just been forwarded: its whole context is cached. */
  ghost predicate Forwarded(bs: nat, s: EngineSequence, b: SequenceBlocks)
    requires bs > 0
  {
    && s.request.prompt != [] && s.status == Running && StopsOnlyAtEnd(s.request, s.output)
        && !Stops(s.request, s.output)
    && b.length == |s.Context()| && |b.table| == BlocksFor(bs, b.length)
  }

  /** Items of a batch from k on have been forwarded; everything else is as between steps. */
  ghost predicate MidStep(c: Config, e: Sched, items: seq<BatchItem>, k: nat) {
    && c.bs > 0 && Indexed(e) && Paged(c.bs, e.pool, e.blocks) && MidQueues(e) && DistinctItems(items, |e.sequences|)
    && forall i :: 0 <= i < |e.sequences| ==>
         if NotAnItem(items, k, i) then SeqOk(c.bs, e.sequences[i], e.blocks[i])
         else Forwarded(c.bs, e.sequences[i], e.blocks[i])
  }

  /** Finished sequences are still among the running ones until they are retired. */
  ghost predicate MidQueues(e: Sched) {
    && NoDuplicates(e.waiting) && NoDuplicates(e.running)
    && forall i :: 0 <= i < |e.sequences| ==>
         && (e.sequences[i].status == Waiting <==> i in e.waiting)
         && (e.sequences[i].status == Running ==> i in e.running)
         && (i in e.running ==> e.sequences[i].status != Waiting)
  }

  /** The batch's reservations come from the free list alone, succeed, and leave what is left of the budget. */
  lemma BatchReserves(c: Config, e: Sched, items: seq<BatchItem>, n: nat, left: int)
    requires c.bs > 0 && Inv(c, e) && BatchOk(c, e, items, n, left)
    ensures FreeInRange(e.pool)
    ensures var (r, grown, t) := ReserveItems(c.bs, e.pool, e.blocks, items, 0);
            && r.Ok? && t.prefix == e.pool.prefix && t.tick == e.pool.tick && |t.free| == left
            && ItemsReserved(c.bs, e.pool, e.blocks, items, 0, r, grown, t)
    ensures forall k :: 0 <= k < |items| ==>
              && items[k].tokens != [] && e.sequences[items[k].seqIndex].status == Running
              && SeqOk(c.bs, e.sequences[items[k].seqIndex], e.blocks[items[k].seqIndex])
              && |e.blocks[items[k].seqIndex].table| <= BlocksFor(c.bs, |e.sequences[items[k].seqIndex].Context()|)
              && e.blocks[items[k].seqIndex].length + |items[k].tokens| == |e.sequences[items[k].seqIndex].Context()|
              && e.blocks[items[k].seqIndex].length < |e.sequences[items[k].seqIndex].Context()|
              && items[k].tokens == e.sequences[items[k].seqIndex].Context()[e.blocks[items[k].seqIndex].length..]
  {
    hide Paged, SeqOk, FreeInRange, StepTokens, BlocksFor;
    forall k | 0 <= k < |items|
      ensures SeqOk(c.bs, e.sequences[items[k].seqIndex], e.blocks[items[k].seqIndex])
              && e.sequences[items[k].seqIndex].status == Running
    {
      assert items[k].seqIndex in e.running;
    }
    forall k | 0 <= k < |items| {
      StepTokensAre(c.bs, e.sequences[items[k].seqIndex], e.blocks[items[k].seqIndex]);
    }
    ReserveItemsKeeps(c.bs, e.pool, e.blocks, items, 0);
    ReserveItemsWithinFree(c.bs, e.pool, e.blocks, items);
  }

  /** Committing lengths keeps writable blocks exclusive: there are only fewer of them. */
  lemma CommittedIsPaged(bs: nat, s: Pool, grown: seq<SequenceBlocks>, items: seq<BatchItem>, out: seq<SequenceBlocks>)
    requires bs > 0 && Paged(bs, s, grown) && DistinctItems(items, |grown|) && Committed(grown, items, out)
    ensures Paged(bs, s, out)
  {
    hide PoolValid, BlockOf;
    forall j | 0 <= j < |out|
      ensures out[j].table == grown[j].table && out[j].length >= grown[j].length
    {
      if !NotAnItem(items, 0, j) {
        var k :| 0 <= k < |items| && items[k].seqIndex == j;
        assert out[items[k].seqIndex]
               == grown[items[k].seqIndex].(length := grown[items[k].seqIndex].length + |items[k].tokens|);
      }
    }
    hide Committed, NotAnItem;
    SameTablesSameHeld(grown, out);
    hide AllHeld;
    forall i, k | 0 <= i < |out| && BlockOf(bs, out[i].length) <= k < |out[i].table|
      ensures out[i].table[k] < |s.count| && s.count[out[i].table[k]] == 1
    {
      BlockOfMonotone(bs, grown[i].length, out[i].length);
      assert grown[i].table[k] == out[i].table[k];
    }
  }

  lemma BlockOfMonotone(bs: nat, m: nat, n: nat)
    requires bs > 0 && m <= n
    ensures BlockOf(bs, m) <= BlockOf(bs, n)
  {
    QuotientMonotone(m, n, bs);
  }

  lemma {:induction false} SameTablesSameHeld(a: seq<SequenceBlocks>, b: seq<SequenceBlocks>)
    requires |a| == |b| && forall j :: 0 <= j < |a| ==> a[j].table == b[j].table
    ensures AllHeld(a) == AllHeld(b)
  {
    if a != [] {
      SameTablesSameHeld(a[..|a| - 1], b[..|b| - 1]);
    }
  }

  /** The table of a batched sequence reaches exactly its context. */
  lemma ItemTable(c: Config, e: Sched, items: seq<BatchItem>, n: nat, left: int, t: Pool, grown: seq<SequenceBlocks>,
                  i: nat)
    requires c.bs > 0 && Inv(c, e) && BatchOk(c, e, items, n, left) && i < |e.sequences| && !NotAnItem(items, 0, i)
    requires ItemsReserved(c.bs, e.pool, e.blocks, items, 0, Ok(()), grown, t)
    ensures |grown| == |e.blocks| == |e.sequences|
    ensures SeqOk(c.bs, e.sequences[i], e.blocks[i]) && e.sequences[i].status == Running
    ensures grown[i].length == e.blocks[i].length && |grown[i].table| == BlocksFor(c.bs, |e.sequences[i].Context()|)
    ensures exists k :: 0 <= k < |items| && items[k].seqIndex == i
              && e.blocks[i].length + |items[k].tokens| == |e.sequences[i].Context()|
  {
    hide Inv, Paged, FreeInRange, StepTokens, Delta, SumDeltas, SeqOk, BlocksFor, DistinctItems;
    BatchReserves(c, e, items, n, left);
    var k :| 0 <= k < |items| && items[k].seqIndex == i;
    assert Reaches(c.bs, e.blocks, items[k], grown);
  }

  lemma GrownSeqOk(bs: nat, s: EngineSequence, b: SequenceBlocks, table: seq<nat>)
    requires bs > 0 && SeqOk(bs, s, b) && s.status == Running && |table| == BlocksFor(bs, |s.Context()|)
    ensures SeqOk(bs, s, b.(table := table))
  {
    hide StopsOnlyAtEnd, Stops, SlotOf;
    BlocksForMonotone(bs, b.length, |s.Context()|);
    hide BlocksFor;
  }

  /** A forward that failed after its reservations leaves a regular state with larger tables. */
  lemma FailedForwardKeeps(c: Config, e: Sched, items: seq<BatchItem>, n: nat, left: int, t: Pool,
                           grown: seq<SequenceBlocks>)
    requires c.bs > 0 && Inv(c, e) && BatchOk(c, e, items, n, left)
    requires ItemsReserved(c.bs, e.pool, e.blocks, items, 0, Ok(()), grown, t)
    ensures Inv(c, e.(pool := t, blocks := grown))
  {
    hide Paged, SeqOk, FreeInRange, BatchOk, BlocksFor, Reaches, NotAnItem;
    PagedInRange(c.bs, t, grown);
    forall i | 0 <= i < |e.sequences|
      ensures SeqOk(c.bs, e.sequences[i], grown[i])
    {
      if !NotAnItem(items, 0, i) {
        ItemTable(c, e, items, n, left, t, grown, i);
        GrownSeqOk(c.bs, e.sequences[i], e.blocks[i], grown[i].table);
      }
    }
  }

  lemma SeqForwarded(bs: nat, s: EngineSequence, b: SequenceBlocks, out: SequenceBlocks)
    requires bs > 0 && SeqOk(bs, s, b) && s.status == Running
    requires out.length == |s.Context()| && |out.table| == BlocksFor(bs, |s.Context()|)
    ensures Forwarded(bs, s, out)
  {
    hide StopsOnlyAtEnd, Stops, SlotOf, BlocksFor;
  }

  /** A successful forward leaves every batched sequence with its whole context cached. */
  lemma ForwardKeeps(c: Config, e: Sched, items: seq<BatchItem>, n: nat, left: int, t: Pool,
                     grown: seq<SequenceBlocks>, out: seq<SequenceBlocks>)
    requires c.bs > 0 && Inv(c, e) && BatchOk(c, e, items, n, left)
    requires ItemsReserved(c.bs, e.pool, e.blocks, items, 0, Ok(()), grown, t) && Committed(grown, items, out)
    ensures MidStep(c, e.(pool := t, blocks := out), items, 0)
  {
    hide Paged, SeqOk, FreeInRange, BlocksFor, Reaches, NotAnItem, Forwarded, StepTokens, SumDeltas;
    PagedInRange(c.bs, t, grown);
    CommittedIsPaged(c.bs, t, grown, items, out);
    forall i | 0 <= i < |e.sequences|
      ensures if NotAnItem(items, 0, i) then SeqOk(c.bs, e.sequences[i], out[i])
              else Forwarded(c.bs, e.sequences[i], out[i])
    {
      if !NotAnItem(items, 0, i) {
        ItemTable(c, e, items, n, left, t, grown, i);
        SeqForwarded(c.bs, e.sequences[i], e.blocks[i], out[i]);
      }
    }
    hide ItemsReserved, Committed, DistinctItems;
  }

  // ---- Taking the sampled tokens ------------------------------------------------------------

  lemma StopsExtends(r: Request, out: seq<Token>, token: Token)
    requires StopsOnlyAtEnd(r, out) && !Stops(r, out)
    ensures StopsOnlyAtEnd(r, out + [token])
  {
    var more := out + [token];
    forall k | 0 < k < |more|
      ensures !Stops(r, more[..k])
    {
      if k == |out| {
        assert more[..k] == out;
      } else {
        assert more[..k] == out[..k];
      }
    }
  }

  lemma TakenSeqOk(c: Config, s: EngineSequence, b: SequenceBlocks, token: Token)
    requires c.bs > 0 && Forwarded(c.bs, s, b)
    ensures var after := s.(prefilled := true, output := s.output + [token]);
            if Stops(s.request, after.output) then SeqOk(c.bs, after.(status := Finished), EMPTY_BLOCKS)
            else SeqOk(c.bs, after, b)
  {
    StopsExtends(s.request, s.output, token);
    hide Stops, StopsOnlyAtEnd;
    var after := s.(prefilled := true, output := s.output + [token]);
    assert after.Context() == s.Context() + [token];
    BlocksForMonotone(c.bs, |s.Context()|, |after.Context()|);
    hide BlocksFor;
  }

  /** Registering whole cached blocks leaves writable blocks with their one holder. */
  lemma RegisteredIsPaged(c: Config, s: Pool, blocks: seq<SequenceBlocks>, id: nat, ctx: seq<Token>)
    requires c.bs > 0 && id < |blocks| && Paged(c.bs, s, blocks) && blocks[id].length == |ctx|
    ensures Paged(c.bs, RegisterFrom(c.hash, c.bs, s, blocks[id].table, ctx, 0), blocks)
    ensures FreeInRange(RegisterFrom(c.hash, c.bs, s, blocks[id].table, ctx, 0))
  {
    hide PoolValid, AllHeld, RegisterFrom, LookupBlock, Describes;
    var table := blocks[id].table;
    forall k | 0 <= k < |table|
      ensures table[k] in s.held
    {
      AllHeldAt(blocks, id, k);
    }
    RegisterKeeps(c.hash, c.bs, s, table, ctx, 0);
    var t := RegisterFrom(c.hash, c.bs, s, table, ctx, 0);
    ValidIsConsistent(c.bs, t);
    forall i, k | 0 <= i < |blocks| && BlockOf(c.bs, blocks[i].length) <= k < |blocks[i].table|
      ensures blocks[i].table[k] < |t.count| && t.count[blocks[i].table[k]] == 1
    {
      var w := blocks[i].table[k];
      WritableIsAlone(c.bs, s, blocks, i, k);
      if t.count[w] != s.count[w] {
        var m: nat :| m < |table| && m * c.bs + c.bs <= |ctx| && table[m] == w;
        FullBlockBelow(c.bs, m, |ctx|);
      }
    }
  }

  lemma FullBlockBelow(bs: nat, m: nat, n: nat)
    requires bs > 0 && m * bs + bs <= n
    ensures m < BlockOf(bs, n)
  {
    MulStep(m, bs);
    QuotientBelow(n, bs, m + 1);
  }

  /** After item k only the later items are still forwarded. */
  lemma ItemTaken(items: seq<BatchItem>, k: nat, n: nat)
    requires DistinctItems(items, n) && k < |items|
    ensures !NotAnItem(items, k, items[k].seqIndex) && NotAnItem(items, k + 1, items[k].seqIndex)
    ensures forall i: nat :: i != items[k].seqIndex ==> (NotAnItem(items, k + 1, i) <==> NotAnItem(items, k, i))
  {
  }

  lemma TakeKeeps(c: Config, e: Sched, items: seq<BatchItem>, k: nat, token: Token)
    requires c.bs > 0 && Indexed(e) && MidStep(c, e, items, k) && k < |items|
    ensures MidStep(c, Take(c, e, items[k].seqIndex, token), items, k + 1)
  {
    hide NotAnItem, Paged, StopsOnlyAtEnd, BlocksFor, SeqOk, Stops, FreeFrom, RegisterFrom, FreeInRange;
    var id := items[k].seqIndex;
    ItemTaken(items, k, |e.sequences|);
    var s, b := e.sequences[id], e.blocks[id];
    TakeIndexed(c, e, id, token);
    TakenSeqOk(c, s, b, token);
    FreedIsPaged(c.bs, e.pool, e.blocks, id);
    RegisteredIsPaged(c, e.pool, e.blocks, id, s.Context());
    TakeQueues(c, e, id, token);
    var r := Take(c, e, id, token);
    forall i | 0 <= i < |r.sequences|
      ensures if NotAnItem(items, k + 1, i) then SeqOk(c.bs, r.sequences[i], r.blocks[i])
              else Forwarded(c.bs, r.sequences[i], r.blocks[i])
    {
      if i != id {
        assert r.sequences[i] == e.sequences[i] && r.blocks[i] == e.blocks[i];
      }
    }
    hide Forwarded;
  }

  /** With caching on, a prefill that does not finish leaves every full block of its context findable. */
  lemma TakeRegisters(c: Config, e: Sched, items: seq<BatchItem>, k: nat, token: Token, b: nat)
    requires c.bs > 0 && Indexed(e) && MidStep(c, e, items, k) && k < |items| && c.prefixCache
    requires !e.sequences[items[k].seqIndex].prefilled
    requires !Stops(e.sequences[items[k].seqIndex].request, e.sequences[items[k].seqIndex].output + [token])
    requires b * c.bs + c.bs <= |e.sequences[items[k].seqIndex].Context()|
    ensures LookupBlock(c.hash, c.bs, Take(c, e, items[k].seqIndex, token).pool.prefix,
            e.sequences[items[k].seqIndex].Context(), b).Some?
  {
    var id := items[k].seqIndex;
    var s := e.sequences[id];
    assert !NotAnItem(items, k, id) && Forwarded(c.bs, s, e.blocks[id]);
    BlocksForFits(c.bs, |s.Context()|, |e.blocks[id].table|);
    CoversBlock(c.bs, b, |s.Context()|, |e.blocks[id].table|);
    PagedIsValid(c.bs, e.pool, e.blocks);
    hide MidStep, Paged, PoolValid, FreeInRange, LookupBlock, RegisterFrom, FreeFrom, Stops, BlocksFor;
    forall m | 0 <= m < |e.blocks[id].table|
      ensures e.blocks[id].table[m] in e.pool.held
    {
      AllHeldAt(e.blocks, id, m);
    }
    hide AllHeld;
    RegisterKeeps(c.hash, c.bs, e.pool, e.blocks[id].table, s.Context(), 0);
  }

  /** A table that reaches n rows has every full block of them. */
  lemma CoversBlock(bs: nat, b: nat, n: nat, size: nat)
    requires bs > 0 && b * bs + bs <= n <= size * bs
    ensures b < size
  {
    if size <= b {
      MulMonotone(size, b, bs);
    }
  }

  lemma TakeQueues(c: Config, e: Sched, id: nat, token: Token)
    requires c.bs > 0 && Indexed(e) && MidQueues(e) && id < |e.sequences| && e.sequences[id].status == Running
    ensures MidQueues(Take(c, e, id, token))
  {
    hide FreeFrom, RegisterFrom, Stops;
  }

  lemma {:induction false} TakeAllKeeps(c: Config, e: Sched, items: seq<BatchItem>, tokens: seq<Token>)
    requires c.bs > 0 && Indexed(e) && MidStep(c, e, items, 0) && |tokens| <= |items|
    requires forall i :: 0 <= i < |items| ==> items[i].seqIndex < |e.sequences|
    ensures MidStep(c, TakeAll(c, e, items, tokens), items, |tokens|)
    decreases |tokens|
  {
    hide MidStep, Take, FreeInRange;
    if tokens != [] {
      var k := |tokens| - 1;
      TakeAllKeeps(c, e, items, tokens[..k]);
      TakeKeeps(c, TakeAll(c, e, items, tokens[..k]), items, k, tokens[k]);
    }
  }

  lemma RetireKeeps(c: Config, e: Sched, items: seq<BatchItem>)
    requires c.bs > 0 && Indexed(e) && MidStep(c, e, items, |items|)
    ensures Inv(c, Retire(e))
  {
    UnfinishedMembers(e.sequences, e.running);
    hide Paged, FreeInRange, SeqOk, Unfinished;
    assert forall i: nat :: NotAnItem(items, |items|, i);
    hide Forwarded;
  }
}
