/**
 What the pool's rows and the outputs mean in every reachable state: cached rows are the keys and
 values of their context, and greedy outputs are plain greedy decodings. All of it holds as long as
 no two prefixes that have served as parents share a chain hash.
 */
module EngineContents {
  import opened Network
  import opened Sampler
  import opened PrefixCaches
  import opened BlockPools
  import opened RowContents
  import opened ForwardBatches
  import opened Schedulers
  import opened SchedulerInvariants

  /** The entry continues the prefix `lead`, and its block holds the rows of that continuation. */
  ghost predicate EntryFrom(keys: Store, values: Store, c: Config, net: Net, seen: set<seq<int>>, e: PrefixEntry,
                            lead: seq<int>)
    requires c.bs > 0
    reads keys, values
  {
    lead in seen && Chain(c.hash, c.bs, lead) == e.parent
        && BlockHolds(keys, values, c.bs, net, e.block, lead + e.tokens)
  }

  ghost predicate CacheHolds(keys: Store, values: Store, c: Config, net: Net, s: Pool)
    requires c.bs > 0
    reads keys, values
  {
    forall h, i :: IsEntry(s.prefix, h, i) ==>
      exists lead :: EntryFrom(keys, values, c, net, s.seen, s.prefix[h][i], lead)
  }

  /** The cached rows of a sequence are those of its context, and a greedy output is a greedy run. */
  ghost predicate SeqHolds(keys: Store, values: Store, bs: nat, net: Net, s: EngineSequence, b: SequenceBlocks)
    reads keys, values
  {
    && s.request.prompt != [] && b.length <= |s.Context()|
    && Holds(keys, values, bs, net, b.table, s.Context(), b.length)
    && (IsGreedy(s.request.params) ==> IsGreedyRun(net, s.request.prompt, s.output))
  }

  ghost predicate Correct(keys: Store, values: Store, c: Config, net: Net, e: Sched)
    requires c.bs > 0
    reads keys, values
  {
    && CacheHolds(keys, values, c, net, e.pool) && |e.blocks| == |e.sequences|
    && forall i :: 0 <= i < |e.sequences| ==> SeqHolds(keys, values, c.bs, net, e.sequences[i], e.blocks[i])
  }

  /** Correct, unless two parent prefixes seen so far collide. */
  ghost predicate Sound(keys: Store, values: Store, c: Config, net: Net, e: Sched)
    requires c.bs > 0
    reads keys, values
  {
    CollisionFree(c.hash, c.bs, e.pool.seen) ==> Correct(keys, values, c, net, e)
  }

  /** Fewer prefixes collide less. */
  lemma CollisionFreeSubset(hash: HashBlock, bs: nat, a: set<seq<int>>, b: set<seq<int>>)
    requires bs > 0 && a <= b && CollisionFree(hash, bs, b)
    ensures CollisionFree(hash, bs, a)
  {
    hide Chain;
  }

  lemma EmptyTableHolds(keys: Store, values: Store, bs: nat, net: Net, s: EngineSequence)
    requires s.request.prompt != [] && (IsGreedy(s.request.params) ==> IsGreedyRun(net, s.request.prompt, s.output))
    ensures SeqHolds(keys, values, bs, net, s, EMPTY_BLOCKS)
  {
    hide IsGreedyRun;
  }

  // ---- Admission ----------------------------------------------------------------------------

  lemma {:induction false} AdmitSound(keys: Store, values: Store, c: Config, net: Net, e: Sched)
    requires c.bs > 0 && Indexed(e) && Sound(keys, values, c, net, e)
    ensures Sound(keys, values, c, net, Admit(c, e)) && Admit(c, e).pool == e.pool
    decreases |e.waiting|
  {
    hide Holds, IsGreedyRun, CacheHolds, CollisionFree, Admissible, FreeInRange;
    if e.waiting != [] {
      var next := AdmitFirst(e);
      assert Sound(keys, values, c, net, next);
      var id := e.waiting[0];
      if |e.running| < c.maxBatch && Admissible(c.bs, e.sequences[id], e.blocks[id], |e.pool.free|) {
        hide Sound;
        AdmitSound(keys, values, c, net, next);
      }
    }
  }

  // ---- Sharing ------------------------------------------------------------------------------

  /** Without collisions, a cached block found for block k of the tokens holds exactly their rows. */
  lemma FoundBlockHolds(keys: Store, values: Store, c: Config, net: Net, s: Pool, seen: set<seq<int>>,
                        tokens: seq<Token>, table: seq<nat>, k: nat)
    requires c.bs > 0 && CacheHolds(keys, values, c, net, s)
    requires s.seen <= seen && CollisionFree(c.hash, c.bs, seen)
    requires LongestRun(c.hash, c.bs, s.prefix, tokens, 0, table) && k < |table|
    requires k * c.bs + c.bs <= |tokens| ==> Leading(tokens, c.bs, k) in seen
    ensures k * c.bs + c.bs <= |tokens| && BlockHolds(keys, values, c.bs, net, table[k], tokens[..k * c.bs + c.bs])
  {
    hide Chain, LongestRun, BlockHolds;
    RunIsCached(c.hash, c.bs, s.prefix, tokens, table, k);
    var h, i :| IsEntry(s.prefix, h, i) && s.prefix[h][i].block == table[k]
                && s.prefix[h][i].parent == Chain(c.hash, c.bs, Leading(tokens, c.bs, k))
                    && s.prefix[h][i].tokens == Span(tokens, c.bs, k);
    var lead :| EntryFrom(keys, values, c, net, s.seen, s.prefix[h][i], lead);
    assert lead == Leading(tokens, c.bs, k);
    LeadingNext(tokens, c.bs, k);
    assert Leading(tokens, c.bs, k) + Span(tokens, c.bs, k) == tokens[..k * c.bs + c.bs];
  }

  /** Ticks do not matter for what entries hold; more parents only help. */
  lemma CacheHoldsRefreshed(keys: Store, values: Store, c: Config, net: Net, s: Pool, t: Pool)
    requires c.bs > 0 && CacheHolds(keys, values, c, net, s) && SameButTicks(s.prefix, t.prefix) && s.seen <= t.seen
    ensures CacheHolds(keys, values, c, net, t)
  {
    hide Chain, BlockHolds;
    forall h, i | IsEntry(t.prefix, h, i)
      ensures exists lead :: EntryFrom(keys, values, c, net, t.seen, t.prefix[h][i], lead)
    {
      assert SameBucket(s.prefix[h], t.prefix[h]);
      assert IsEntry(s.prefix, h, i);
      var lead :| EntryFrom(keys, values, c, net, s.seen, s.prefix[h][i], lead);
      assert EntryFrom(keys, values, c, net, t.seen, t.prefix[h][i], lead);
    }
  }

  /** A fresh sequence's shared blocks hold the rows of its own context. */
  lemma SharedRowsHold(keys: Store, values: Store, c: Config, net: Net, s: Pool, t: Pool, ctx: seq<Token>, cap: nat,
                       table: seq<nat>)
    requires c.bs > 0 && cap <= |ctx| && CacheHolds(keys, values, c, net, s)
    requires Shared(c.bs, s, [], t, table) && LongestRun(c.hash, c.bs, s.prefix, ctx[..cap], 0, table)
    requires CollisionFree(c.hash, c.bs, t.seen)
    requires forall k :: 0 <= k <= |table| && k * c.bs + c.bs <= cap ==> Leading(ctx[..cap], c.bs, k) in t.seen
    ensures |table| * c.bs <= cap && Holds(keys, values, c.bs, net, table, ctx, |table| * c.bs)
  {
    hide Chain, BlockHolds, CacheHolds, Holds, CacheRefs, PoolValid, SameButTicks, CollisionFree, LongestRun;
    var tokens := ctx[..cap];
    RunFits(c.hash, c.bs, s.prefix, tokens, table);
    forall k: nat | k < |table|
      ensures k * c.bs + c.bs <= |tokens| && BlockHolds(keys, values, c.bs, net, table[k], tokens[..k * c.bs + c.bs])
    {
      FoundBlockHolds(keys, values, c, net, s, t.seen, tokens, table, k);
    }
    TableOfBlocks(keys, values, c.bs, net, table, tokens);
    HoldsPrefix(keys, values, c.bs, net, table, tokens, ctx, |table| * c.bs);
  }

  lemma ShareForSound(keys: Store, values: Store, c: Config, net: Net, e: Sched, id: nat)
    requires c.bs > 0 && Indexed(e) && Inv(c, e) && id in e.running && Sound(keys, values, c, net, e)
    ensures Sound(keys, values, c, net, ShareFor(c, e, id)) && e.pool.seen <= ShareFor(c, e, id).pool.seen
  {
    hide Inv, Holds, IsGreedyRun, CacheHolds, CollisionFree, AcquireFrom, Shared, LongestRun, FreeInRange, ShareCap;
    var s, b := e.sequences[id], e.blocks[id];
    if c.prefixCache && !s.prefilled && b == EMPTY_BLOCKS && s.Context() != [] {
      var ctx := s.Context();
      var cap := ShareCap(c.bs, ctx);
      if cap > 0 {
        InvIsPaged(c, e);
        PagedIsValid(c.bs, e.pool, e.blocks);
        assert 0 * c.bs == 0;
        AcquireKeeps(c.hash, c.bs, e.pool, ctx[..cap], []);
        var (table, t) := AcquireFrom(c.hash, c.bs, e.pool, ctx[..cap], []);
        SharedSeen(c.bs, e.pool, t, table);
        if CollisionFree(c.hash, c.bs, t.seen) {
          CollisionFreeSubset(c.hash, c.bs, e.pool.seen, t.seen);
          CacheHoldsRefreshed(keys, values, c, net, e.pool, t);
          SharedRowsHold(keys, values, c, net, e.pool, t, ctx, cap, table);
        }
      }
    }
  }

  lemma InvIsPaged(c: Config, e: Sched)
    requires Inv(c, e)
    ensures c.bs > 0 && Paged(c.bs, e.pool, e.blocks) && Indexed(e)
  {
    hide Paged, Queues, AllSeqOk;
  }

  lemma SharedSeen(bs: nat, s: Pool, t: Pool, table: seq<nat>)
    requires Shared(bs, s, [], t, table)
    ensures s.seen <= t.seen && SameButTicks(s.prefix, t.prefix)
  {
    hide PoolValid, CacheRefs, SameButTicks;
  }

  lemma {:induction false} AssembleSound(keys: Store, values: Store, c: Config, net: Net, e: Sched, n: nat,
                                         budget: int, items: seq<BatchItem>)
    requires c.bs > 0 && Indexed(e) && Inv(c, e) && n <= |e.running| && Sound(keys, values, c, net, e)
    ensures Sound(keys, values, c, net, Assemble(c, e, n, budget, items).0)
    ensures e.pool.seen <= Assemble(c, e, n, budget, items).0.pool.seen
    decreases |e.running| - n
  {
    hide Inv, Sound, ShareFor, StepTokens, Delta, FreeInRange;
    if n < |e.running| {
      var id := e.running[n];
      RunningId(c, e, n);
      ShareForSound(keys, values, c, net, e, id);
      ShareForKeeps(c, e, id);
      var shared := ShareFor(c, e, id);
      var tokens := StepTokens(shared.sequences[id], shared.blocks[id]);
      var delta := Delta(c.bs, shared.blocks[id], |tokens|);
      if delta > budget {
        AssembleSound(keys, values, c, net, shared, n + 1, budget, items);
      } else {
        AssembleSound(keys, values, c, net, shared, n + 1, budget - delta, items + [BatchItem(id, tokens)]);
      }
    }
  }

  // ---- Preemption ---------------------------------------------------------------------------

  lemma PreemptSound(keys: Store, values: Store, c: Config, net: Net, e: Sched, i: nat)
    requires c.bs > 0 && Indexed(e) && Inv(c, e) && i < |e.running| && Sound(keys, values, c, net, e)
    ensures Sound(keys, values, c, net, PreemptAt(e, i)) && PreemptAt(e, i).pool.seen == e.pool.seen
  {
    hide Inv, Holds, IsGreedyRun, CollisionFree, FreeFrom, FreeInRange, EntryFrom;
    var id := e.running[i];
    InvIsPaged(c, e);
    FreedSame(c.bs, e.pool, e.blocks, id);
    if CollisionFree(c.hash, c.bs, e.pool.seen) {
      EmptyTableHolds(keys, values, c.bs, net, PreemptAt(e, i).sequences[id]);
    }
  }

  lemma FreedSame(bs: nat, s: Pool, blocks: seq<SequenceBlocks>, id: nat)
    requires bs > 0 && id < |blocks| && Paged(bs, s, blocks)
    ensures var t := FreeFrom(s, blocks[id].table); t.prefix == s.prefix && t.seen == s.seen
  {
    hide PoolValid, AllHeld, Exclusive;
    AllHeldUpdate(blocks, id, EMPTY_BLOCKS);
    FreeKeeps(bs, s, blocks[id].table);
  }

  lemma {:induction false} SelectSound(keys: Store, values: Store, c: Config, net: Net, e: Sched)
    requires c.bs > 0 && Indexed(e) && Inv(c, e) && Sound(keys, values, c, net, e)
    ensures Sound(keys, values, c, net, Select(c, e).0) && e.pool.seen <= Select(c, e).0.pool.seen
    decreases |e.running|
  {
    hide Inv, Sound, Assemble, FreeFrom, FreeInRange, BatchOk, NoneLeftOut, SameButQueued;
    EmptyBatchOk(c, e);
    AssembleKeeps(c, e, 0, |e.pool.free|, []);
    AssembleSound(keys, values, c, net, e, 0, |e.pool.free|, []);
    var (a, items) := Assemble(c, e, 0, |e.pool.free|, []);
    if items == [] && |a.running| > 1 {
      var i := YoungestHolder(a.blocks, a.running, |a.running|);
      if i < |a.running| {
        FreeStaysInRange(a.pool, a.blocks[a.running[i]].table);
        PreemptKeeps(c, a, i);
        PreemptSame(c, e, a, i);
        PreemptSound(keys, values, c, net, a, i);
        SelectSound(keys, values, c, net, PreemptAt(a, i));
      }
    }
  }

  // ---- Taking the sampled tokens ------------------------------------------------------------

  /** Registered blocks hold the rows of the prefixes they are registered under. */
  lemma RegisteredHolds(keys: Store, values: Store, c: Config, net: Net, s: Pool, t: Pool, table: seq<nat>,
                        ctx: seq<Token>)
    requires c.bs > 0 && CacheHolds(keys, values, c, net, s)
    requires Registered(c.hash, c.bs, s, table, ctx, 0, t)
    requires Holds(keys, values, c.bs, net, table, ctx, |ctx|)
    ensures CacheHolds(keys, values, c, net, t)
  {
    hide Chain, BlockHolds, Holds, CacheRefs, PoolValid, LookupBlock;
    forall h, i | IsEntry(t.prefix, h, i)
      ensures exists lead :: EntryFrom(keys, values, c, net, t.seen, t.prefix[h][i], lead)
    {
      var e := t.prefix[h][i];
      if IsEntry(s.prefix, h, i) {
        assert s.prefix[h] <= t.prefix[h];
        var lead :| EntryFrom(keys, values, c, net, s.seen, s.prefix[h][i], lead);
        assert EntryFrom(keys, values, c, net, t.seen, e, lead);
      } else {
        var k: nat :| Describes(c.hash, c.bs, t, table, ctx, h, e, k);
        BlockOfTable(keys, values, c.bs, net, table, ctx, |ctx|, k);
        LeadingNext(ctx, c.bs, k);
        assert Leading(ctx, c.bs, k) + Span(ctx, c.bs, k) == ctx[..k * c.bs + c.bs];
        assert EntryFrom(keys, values, c, net, t.seen, e, Leading(ctx, c.bs, k));
      }
    }
  }

  /** The token a batched sequence takes is the greedy one if the sequence is greedy. */
  ghost predicate TokenOk(net: Net, s: EngineSequence, token: Token) {
    IsGreedy(s.request.params) ==> s.Context() != [] && token == Next(net, s.Context())
  }

  /** A forwarded sequence that takes its token still has correct rows and a greedy output. */
  lemma TakenHolds(keys: Store, values: Store, bs: nat, net: Net, s: EngineSequence, b: SequenceBlocks, token: Token)
    requires SeqHolds(keys, values, bs, net, s, b) && TokenOk(net, s, token)
    ensures forall status ::
              SeqHolds(keys, values, bs, net, s.(prefilled := true, output := s.output + [token], status := status), b)
  {
    hide Holds, IsGreedyRun, Next;
    var ctx, more := s.Context(), s.request.prompt + (s.output + [token]);
    assert more == ctx + [token];
    HoldsPrefix(keys, values, bs, net, b.table, ctx, more, b.length);
    if IsGreedy(s.request.params) {
      GreedyRunExtends(net, s.request.prompt, s.output, token);
    }
  }

  lemma TakeSound(keys: Store, values: Store, c: Config, net: Net, e: Sched, items: seq<BatchItem>, k: nat,
                  token: Token)
    requires c.bs > 0 && Indexed(e) && MidStep(c, e, items, k) && k < |items|
    requires CollisionFree(c.hash, c.bs, e.pool.seen) ==>
               Correct(keys, values, c, net, e) && TokenOk(net, e.sequences[items[k].seqIndex], token)
    ensures Sound(keys, values, c, net, Take(c, e, items[k].seqIndex, token))
    ensures e.pool.seen <= Take(c, e, items[k].seqIndex, token).pool.seen
  {
    var id := items[k].seqIndex;
    var s, b := e.sequences[id], e.blocks[id];
    var r := Take(c, e, id, token);
    ItemForwarded(c, e, items, k);
    hide MidStep, Holds, IsGreedyRun, CollisionFree, FreeFrom, RegisterFrom, FreeInRange, Stops, Next, EntryFrom;
    hide Forwarded;
    FreedSame(c.bs, e.pool, e.blocks, id);
    TableHeld(c.bs, e.pool, e.blocks, id);
    RegisterKeeps(c.hash, c.bs, e.pool, b.table, s.Context(), 0);
    var t := RegisterFrom(c.hash, c.bs, e.pool, b.table, s.Context(), 0);
    RegisteredSeen(c, e.pool, t, b.table, s.Context());
    hide Registered;
    if CollisionFree(c.hash, c.bs, r.pool.seen) {
      CollisionFreeSubset(c.hash, c.bs, e.pool.seen, r.pool.seen);
      TakenHolds(keys, values, c.bs, net, s, b, token);
      if Stops(s.request, s.output + [token]) {
        EmptyTableHolds(keys, values, c.bs, net, r.sequences[id]);
      } else if c.prefixCache && !s.prefilled {
        RegisteredHolds(keys, values, c, net, e.pool, t, b.table, s.Context());
      }
    }
  }

  lemma ItemForwarded(c: Config, e: Sched, items: seq<BatchItem>, k: nat)
    requires c.bs > 0 && MidStep(c, e, items, k) && k < |items|
    ensures items[k].seqIndex < |e.sequences| == |e.blocks| && Paged(c.bs, e.pool, e.blocks)
    ensures PoolValid(c.bs, e.pool)
    ensures e.blocks[items[k].seqIndex].length == |e.sequences[items[k].seqIndex].Context()|
  {
    assert !NotAnItem(items, k, items[k].seqIndex);
    PagedIsValid(c.bs, e.pool, e.blocks);
    hide Paged, FreeInRange, PoolValid;
  }

  lemma TableHeld(bs: nat, s: Pool, blocks: seq<SequenceBlocks>, id: nat)
    requires Paged(bs, s, blocks) && id < |blocks|
    ensures forall m :: 0 <= m < |blocks[id].table| ==> blocks[id].table[m] in s.held
  {
    hide PoolValid, AllHeld, Exclusive;
    forall m | 0 <= m < |blocks[id].table| {
      AllHeldAt(blocks, id, m);
    }
  }

  lemma RegisteredSeen(c: Config, s: Pool, t: Pool, table: seq<nat>, ctx: seq<Token>)
    requires c.bs > 0 && Registered(c.hash, c.bs, s, table, ctx, 0, t)
    ensures s.seen <= t.seen
  {
    hide PoolValid, Grown, Describes, LookupBlock;
  }

  lemma {:induction false} TakeAllSound(keys: Store, values: Store, c: Config, net: Net, e: Sched,
                                        items: seq<BatchItem>, tokens: seq<Token>)
    requires c.bs > 0 && Indexed(e) && MidStep(c, e, items, 0) && |tokens| <= |items|
             && DistinctItems(items, |e.sequences|)
    requires Sound(keys, values, c, net, e)
    requires CollisionFree(c.hash, c.bs, e.pool.seen) ==> forall i :: 0 <= i < |tokens| ==>
               TokenOk(net, e.sequences[items[i].seqIndex], tokens[i])
    ensures Sound(keys, values, c, net, TakeAll(c, e, items, tokens))
    ensures e.pool.seen <= TakeAll(c, e, items, tokens).pool.seen
    decreases |tokens|
  {
    hide MidStep, Correct, CollisionFree, TokenOk, FreeInRange, Take;
    if tokens != [] {
      var k := |tokens| - 1;
      TakeAllSound(keys, values, c, net, e, items, tokens[..k]);
      var before := TakeAll(c, e, items, tokens[..k]);
      TakeAllKeeps(c, e, items, tokens[..k]);
      TakeAllOthers(c, e, items, tokens[..k]);
      if CollisionFree(c.hash, c.bs, before.pool.seen) {
        CollisionFreeSubset(c.hash, c.bs, e.pool.seen, before.pool.seen);
      }
      TakeSound(keys, values, c, net, before, items, k, tokens[k]);
    }
  }

  /** Sequences further down the batch are as they were. */
  lemma {:induction false} TakeAllOthers(c: Config, e: Sched, items: seq<BatchItem>, tokens: seq<Token>)
    requires c.bs > 0 && Indexed(e) && |tokens| <= |items| && DistinctItems(items, |e.sequences|)
    ensures forall i :: |tokens| <= i < |items| ==>
              TakeAll(c, e, items, tokens).sequences[items[i].seqIndex] == e.sequences[items[i].seqIndex]
    decreases |tokens|
  {
    hide Take, FreeInRange;
    if tokens != [] {
      var k := |tokens| - 1;
      TakeAllOthers(c, e, items, tokens[..k]);
      TakeOthers(c, TakeAll(c, e, items, tokens[..k]), items[k].seqIndex, tokens[k]);
    }
  }

  lemma TakeOthers(c: Config, e: Sched, id: nat, token: Token)
    requires c.bs > 0 && Indexed(e) && id < |e.sequences|
    ensures forall i :: 0 <= i < |e.sequences| && i != id ==> Take(c, e, id, token).sequences[i] == e.sequences[i]
  {
    hide FreeFrom, RegisterFrom, Stops;
  }

  lemma RetireSound(keys: Store, values: Store, c: Config, net: Net, e: Sched)
    requires c.bs > 0 && Indexed(e) && Sound(keys, values, c, net, e)
    ensures Sound(keys, values, c, net, Retire(e)) && Retire(e).pool == e.pool
  {
    hide Holds, IsGreedyRun, CollisionFree, EntryFrom;
  }

  // ---- What a client sees -------------------------------------------------------------------

  /** Length of the request's own decoding, given that it does not stop before n tokens. */
  ghost function SoloLength(net: Net, r: Request, n: nat): (m: nat)
    requires r.prompt != []
    ensures n <= m && m > 0 && Stops(r, Greedy(net, r.prompt, m))
    ensures forall k :: n <= k < m && k > 0 ==> !Stops(r, Greedy(net, r.prompt, k))
    decreases n == 0, r.maxTokens - n
  {
    hide Greedy, Next;
    if n > 0 && Stops(r, Greedy(net, r.prompt, n)) then n else SoloLength(net, r, n + 1)
  }

  /** Plain greedy decoding of one request alone, cut at its first EOS or at max(1, maxTokens). */
  ghost function Solo(net: Net, r: Request): seq<Token>
    requires r.prompt != []
  {
    Greedy(net, r.prompt, SoloLength(net, r, 0))
  }

  /** The stop rule in its own terms. */
  lemma StopsAfter(r: Request, g: seq<Token>, k: nat)
    requires 0 < k <= |g|
    ensures Stops(r, g[..k]) <==> (r.eosId >= 0 && g[k - 1] == r.eosId) || k >= r.maxTokens
  {
  }

  /** The solo decoding is the first part of a longer greedy decoding that stops. */
  lemma SoloStops(net: Net, r: Request, n: nat) returns (m: nat)
    requires r.prompt != [] && n >= 1 && n >= r.maxTokens
    ensures var g := Greedy(net, r.prompt, n);
            && 0 < m <= n && Solo(net, r) == g[..m] && Stops(r, g[..m])
            && forall k :: 0 < k < m ==> !Stops(r, g[..k])
  {
    var g := Greedy(net, r.prompt, n);
    m := SoloLength(net, r, 0);
    StopsAfter(r, g, n);
    assert g[..n] == g;
    hide Greedy, Stops;
    forall k | 0 < k <= m
      ensures k <= n ==> Greedy(net, r.prompt, k) == g[..k]
    {
      if k <= n {
        GreedyPrefix(net, r.prompt, k, n);
      }
    }
  }

  /**
   The rule itself: the decoding is the greedy one up to the first EOS, that token included, and without an
   EOS it is max(1, maxTokens) tokens long.
   */
  lemma SoloIsCut(net: Net, r: Request)
    requires r.prompt != []
    ensures var g := Greedy(net, r.prompt, if r.maxTokens < 1 then 1 else r.maxTokens);
            && (forall k :: 0 <= k < |g| && r.eosId >= 0 && g[k] == r.eosId && r.eosId !in g[..k] ==>
                  Solo(net, r) == g[..k + 1])
            && (r.eosId < 0 || r.eosId !in g ==> Solo(net, r) == g)
  {
    hide Greedy, Stops, Solo;
    var n := if r.maxTokens < 1 then 1 else r.maxTokens;
    var g := Greedy(net, r.prompt, n);
    var m := SoloStops(net, r, n);
    StopsAfter(r, g, m);
    forall k | 0 <= k < |g| && r.eosId >= 0 && g[k] == r.eosId && r.eosId !in g[..k]
      ensures m == k + 1
    {
      StopsAfter(r, g, k + 1);
      assert forall j :: 0 <= j < k ==> g[..k][j] == g[j];
    }
    assert g[m - 1] in g && g[..|g|] == g;
  }

  /** In every reachable state an output ends at its first EOS or at its limit, and has finished exactly then. */
  lemma FinishedExactlyWhen(c: Config, e: Sched, id: nat)
    requires Inv(c, e) && id < |e.sequences|
    ensures var s := e.sequences[id];
            var limit := if s.request.maxTokens < 1 then 1 else s.request.maxTokens;
            && |s.output| <= limit
            && (s.request.eosId >= 0 ==> forall k :: 0 <= k < |s.output| - 1 ==> s.output[k] != s.request.eosId)
            && (s.status == Finished <==> |s.output| == limit || (s.request.eosId >= 0 && s.request.eosId in s.output))
  {
    hide Paged, Queues, RunningOk, FreeInRange;
    var s := e.sequences[id];
    assert SeqOk(c.bs, s, e.blocks[id]);
    var n := |s.output|;
    forall k | 0 <= k < n - 1
      ensures k + 1 < s.request.maxTokens && (s.request.eosId >= 0 ==> s.output[k] != s.request.eosId)
    {
      StopsAfter(s.request, s.output, k + 1);
      assert !Stops(s.request, s.output[..k + 1]);
    }
    if n > 1 {
      StopsAfter(s.request, s.output, n - 1);
    }
    if n > 0 {
      StopsAfter(s.request, s.output, n);
      assert s.output[..n] == s.output && s.output[n - 1] in s.output;
      assert s.status == Finished <==>
               (s.request.eosId >= 0 && s.output[n - 1] == s.request.eosId) || n >= s.request.maxTokens;
    }
  }

  /**
   A greedy run that stops at its end at most is a prefix of the solo decoding, and all of it exactly when it
   stops.
   */
  lemma RunIsSolo(net: Net, r: Request, out: seq<Token>)
    requires r.prompt != [] && IsGreedyRun(net, r.prompt, out) && StopsOnlyAtEnd(r, out)
    ensures out <= Solo(net, r)
    ensures Stops(r, out) <==> out == Solo(net, r)
  {
    GreedyRunIsGreedy(net, r.prompt, out);
    var m := SoloLength(net, r, 0);
    hide Greedy, IsGreedyRun, Stops;
    if m < |out| {
      GreedyPrefix(net, r.prompt, m, |out|);
      assert false;
    }
    GreedyPrefix(net, r.prompt, |out|, m);
    if Stops(r, out) && |out| < m {
      EmptyGoesOn(r);
      assert false;
    }
  }

  lemma EmptyGoesOn(r: Request)
    ensures !Stops(r, [])
  {
  }

  /**
   In a state without colliding parents, a greedy request's output is a prefix of its own plain greedy
   decoding, and it has finished exactly when it has all of it, whatever else was scheduled.
   */
  lemma OutputIsSolo(keys: Store, values: Store, c: Config, net: Net, e: Sched, id: nat)
    requires c.bs > 0 && Inv(c, e) && Sound(keys, values, c, net, e) && CollisionFree(c.hash, c.bs, e.pool.seen)
    requires id < |e.sequences| && IsGreedy(e.sequences[id].request.params)
    ensures e.sequences[id].request.prompt != []
    ensures e.sequences[id].output <= Solo(net, e.sequences[id].request)
    ensures e.sequences[id].status == Finished <==> e.sequences[id].output == Solo(net, e.sequences[id].request)
  {
    hide Paged, Queues, RunningOk, FreeInRange, StopsOnlyAtEnd, Stops, Holds, CacheHolds, CollisionFree, IsGreedyRun;
    hide Solo;
    var s, b := e.sequences[id], e.blocks[id];
    assert SeqOk(c.bs, s, b) && SeqHolds(keys, values, c.bs, net, s, b);
    RunIsSolo(net, s.request, s.output);
  }
}
