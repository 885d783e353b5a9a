/**
 What steps achieve. Outputs only ever grow, by at most one token a step, and finished ones stay. When
 every unfinished request fits the pool beside the blocks that the prefix cache keeps, each step with work
 emits a token; without caching that condition stays true, so that everything finishes.
 */
module Progress {
  import opened Results
  import opened Network
  import opened PrefixCaches
  import opened BlockAllocators
  import opened BlockPools
  import opened BlockManagers
  import opened RowContents
  import opened ForwardBatches
  import opened Schedulers
  import opened SchedulerInvariants
  import opened StepRelations

  /** Generation emits at least one token, and at most this many. */
  function Limit(r: Request): nat {
    if r.maxTokens < 1 then 1 else r.maxTokens
  }

  /** Tokens the sequence may still take. */
  function Remaining(s: EngineSequence): nat {
    if s.status == Finished || Limit(s.request) < |s.output| then 0 else Limit(s.request) - |s.output|
  }

  function TotalRemaining(sequences: seq<EngineSequence>): nat {
    if sequences == [] then 0
    else TotalRemaining(sequences[..|sequences| - 1]) + Remaining(sequences[|sequences| - 1])
  }

  predicate Busy(e: Sched) {
    e.waiting != [] || e.running != []
  }

  /** The pool, when empty, has room for everything the request may ever need. */
  predicate FitsPool(bs: nat, r: Request, numBlocks: nat)
    requires bs > 0
  {
    r.prompt != [] && BlocksFor(bs, |r.prompt| + Limit(r) - 1) <= numBlocks
  }

  /** Prefix caching is off and every unfinished request can run alone. */
  ghost predicate CanFinish(c: Config, e: Sched) {
    && c.bs > 0 && !c.prefixCache && c.maxBatch >= 1 && e.pool.prefix == map[]
    && forall j :: 0 <= j < |e.sequences| && e.sequences[j].status != Finished ==>
         FitsPool(c.bs, e.sequences[j].request, |e.pool.count|)
  }

  /** Every unfinished request could run alone, beside the blocks that the cache keeps. */
  ghost predicate RoomForEach(c: Config, e: Sched) {
    && c.bs > 0 && c.maxBatch >= 1
    && forall j :: 0 <= j < |e.sequences| && e.sequences[j].status != Finished ==>
         BlocksFor(c.bs, |e.sequences[j].Context()|) + |CachedBlocks(e.pool.prefix)| <= |e.pool.count|
  }

  /** The cache and the prefixes that have served as parents are what they were. */
  ghost predicate SameCache(s: Pool, t: Pool) {
    t.prefix == s.prefix && t.seen == s.seen
  }

  // ---- Room for one -------------------------------------------------------------------------

  /** An unfinished sequence is below its limit, so its context fits an empty pool. */
  lemma ContextFits(c: Config, e: Sched, id: nat)
    requires Inv(c, e) && CanFinish(c, e) && id < |e.sequences| && e.sequences[id].status != Finished
    ensures |e.sequences[id].output| < Limit(e.sequences[id].request)
    ensures BlocksFor(c.bs, |e.sequences[id].Context()|) <= |e.pool.count|
  {
    hide Paged, Queues, StopsOnlyAtEnd, RunningOk, FreeInRange;
    var s := e.sequences[id];
    assert SeqOk(c.bs, s, e.blocks[id]) && FitsPool(c.bs, s.request, |e.pool.count|);
    BlocksForMonotone(c.bs, |s.Context()|, |s.request.prompt| + Limit(s.request) - 1);
    hide BlocksFor;
  }

  lemma CanFinishHasRoom(c: Config, e: Sched)
    requires Inv(c, e) && CanFinish(c, e)
    ensures RoomForEach(c, e)
  {
    hide Inv, FitsPool, BlocksFor;
    assert CachedBlocks(e.pool.prefix) == {};
    forall j | 0 <= j < |e.sequences| && e.sequences[j].status != Finished
      ensures BlocksFor(c.bs, |e.sequences[j].Context()|) <= |e.pool.count|
    {
      ContextFits(c, e, j);
    }
  }

  /** If only `id` may hold blocks, the free list, its table and the cache cover the pool. */
  lemma OnlyHolder(c: Config, e: Sched, id: nat)
    requires Inv(c, e) && id < |e.sequences|
    requires forall j :: 0 <= j < |e.blocks| && j != id ==> e.blocks[j].table == []
    ensures |e.pool.count| <= |e.pool.free| + |e.blocks[id].table| + |CachedBlocks(e.pool.prefix)|
  {
    hide Queues, AllSeqOk, FreeInRange, Exclusive;
    var rest := e.blocks[id := EMPTY_BLOCKS];
    AllHeldUpdate(e.blocks, id, EMPTY_BLOCKS);
    AllHeldEmpty(rest);
    hide AllHeld;
    assert e.pool.held == multiset(e.blocks[id].table);
    HeldOrFree(c.bs, e.pool, e.blocks[id].table);
  }

  lemma HeldOrFree(bs: nat, s: Pool, table: seq<nat>)
    requires PoolValid(bs, s) && s.held == multiset(table)
    ensures |s.count| <= |s.free| + |table| + |CachedBlocks(s.prefix)|
  {
    hide CacheRefs;
    ValidIsConsistent(bs, s);
    forall b | 0 <= b < |s.count| && s.count[b] > 0
      ensures b in table || b in CachedBlocks(s.prefix)
    {
      assert s.count[b] == s.held[b] + CacheRefs(s.prefix)[b];
    }
    FreeOrHeld(s.free, s.count, table, CachedBlocks(s.prefix));
  }

  /** A running sequence that is the only one to hold blocks can always grow. */
  lemma NotStarved(c: Config, e: Sched, n: nat)
    requires c.bs > 0 && Inv(c, e) && RoomForEach(c, e) && n < |e.running| && e.running[n] < |e.sequences| == |e.blocks|
    requires forall j :: 0 <= j < |e.blocks| && j != e.running[n] ==> e.blocks[j].table == []
    ensures Delta(c.bs, e.blocks[e.running[n]], |StepTokens(e.sequences[e.running[n]],
            e.blocks[e.running[n]])|) <= |e.pool.free|
  {
    hide Inv, StepTokens, Delta, BlocksFor, SeqOk, FreeInRange, CachedBlocks;
    RunningId(c, e, n);
    OnlyHolder(c, e, e.running[n]);
    StepTokensAre(c.bs, e.sequences[e.running[n]], e.blocks[e.running[n]]);
  }

  /** Sequences that do not run hold no blocks. */
  lemma IdleHoldNothing(c: Config, e: Sched)
    requires Inv(c, e)
    ensures |e.blocks| == |e.sequences|
    ensures forall j: nat :: j < |e.blocks| && j !in e.running ==> e.blocks[j] == EMPTY_BLOCKS
  {
    hide Paged, FreeInRange, StopsOnlyAtEnd, Stops, RunningOk;
    forall j: nat | j < |e.blocks| && j !in e.running
      ensures e.blocks[j] == EMPTY_BLOCKS
    {
      assert SeqOk(c.bs, e.sequences[j], e.blocks[j]);
    }
  }

  lemma AdmitsSomething(c: Config, e: Sched)
    requires c.bs > 0 && Indexed(e) && Inv(c, e) && RoomForEach(c, e) && Busy(e)
    ensures Admit(c, e).running != [] && Inv(c, Admit(c, e)) && RoomForEach(c, Admit(c, e))
  {
    hide FreeInRange, Paged, AllSeqOk, BlocksFor, Admissible, CachedBlocks;
    AdmitKeeps(c, e);
    AdmitIsFcfs(c, e);
    var r := Admit(c, e);
    hide Admit;
    var n: nat :| AdmittedUpTo(c, e, r, n);
    if e.running == [] {
      IdleHoldNothing(c, e);
      FirstFits(c, e);
      assert FitsAs(c, e, 0);
    }
    TookSame(e, r, n);
    hide TookFirst;
    SameRoom(c, e, r);
  }

  lemma SameRoom(c: Config, e: Sched, r: Sched)
    requires RoomForEach(c, e) && SameGoals(e, r)
    requires CacheRefs(r.pool.prefix) == CacheRefs(e.pool.prefix) && |r.pool.count| == |e.pool.count|
    ensures RoomForEach(c, r)
  {
    hide BlocksFor, CacheRefs;
    assert forall j :: 0 <= j < |e.sequences| ==> r.sequences[j].Context() == e.sequences[j].Context();
  }

  lemma TookSame(e: Sched, r: Sched, n: nat)
    requires TookFirst(e, r, n) && (forall i :: 0 <= i < |e.waiting| ==> e.waiting[i] < |e.sequences|)
    requires forall i :: 0 <= i < |e.waiting| ==> e.sequences[e.waiting[i]].status == Waiting
    ensures SameGoals(e, r) && r.running == e.running + e.waiting[..n] && r.pool == e.pool && r.blocks == e.blocks
  {
  }

  /** The same requests with the same outputs, and the same ones finished. */
  ghost predicate SameGoals(e: Sched, r: Sched) {
    && |r.sequences| == |e.sequences|
    && forall j :: 0 <= j < |e.sequences| ==>
         && r.sequences[j].request == e.sequences[j].request && r.sequences[j].output == e.sequences[j].output
         && (r.sequences[j].status == Finished <==> e.sequences[j].status == Finished)
  }

  /** With nothing running, the first in the queue fits. */
  lemma FirstFits(c: Config, e: Sched)
    requires c.bs > 0 && Indexed(e) && Inv(c, e) && RoomForEach(c, e) && e.running == [] && e.waiting != []
    ensures CanAdmit(c, e, e.waiting[0])
  {
    hide FreeInRange, Paged, SeqOk, BlocksFor, CachedBlocks;
    var id := e.waiting[0];
    assert id in e.waiting && e.sequences[id].status == Waiting;
    IdleHoldNothing(c, e);
    OnlyHolder(c, e, id);
    assert SeqOk(c.bs, e.sequences[id], e.blocks[id]);
    WaitingNeed(c.bs, e.sequences[id], e.blocks[id]);
  }

  lemma WaitingNeed(bs: nat, s: EngineSequence, b: SequenceBlocks)
    requires bs > 0 && SeqOk(bs, s, b) && s.status == Waiting
    ensures AdmissionNeed(s) == |s.Context()|
  {
    hide StopsOnlyAtEnd, Stops;
  }

  lemma PreemptKeepsRoom(c: Config, e: Sched, i: nat)
    requires c.bs > 0 && Indexed(e) && Inv(c, e) && RoomForEach(c, e) && i < |e.running|
    ensures RoomForEach(c, PreemptAt(e, i))
  {
    RunningId(c, e, i);
    FreePrefix(e.pool, e.blocks[e.running[i]].table);
    hide FreeInRange, Inv, FreeFrom, SeqOk;
    SameRoom(c, e, PreemptAt(e, i));
  }

  lemma {:induction false} FreePrefix(s: Pool, table: seq<nat>)
    ensures FreeFrom(s, table).prefix == s.prefix && FreeFrom(s, table).seen == s.seen
            && |FreeFrom(s, table).count| == |s.count|
    decreases |table|
  {
    if table != [] {
      FreePrefix(Release(s, table[0]), table[1..]);
    }
  }

  /** With room for each alone, a running sequence always gets into the batch, after preemptions if need be. */
  lemma {:induction false} SelectsSomething(c: Config, e: Sched)
    requires c.bs > 0 && Indexed(e) && Inv(c, e) && RoomForEach(c, e) && e.running != []
    ensures Select(c, e).1 != []
    decreases |e.running|
  {
    hide Inv, NoneLeftOut, Assemble, FreeFrom, FreeInRange, StepTokens, Delta, SeqOk, RoomForEach, CacheRefs;
    EmptyBatchOk(c, e);
    AssembleKeeps(c, e, 0, |e.pool.free|, []);
    var (a, items) := Assemble(c, e, 0, |e.pool.free|, []);
    SameRoom(c, e, a);
    IdleHoldNothing(c, a);
    if items == [] {
      var left: int :| BatchOk(c, a, [], |a.running|, left) && NoneLeftOut(c, a, [], |a.running|, left);
      var i := YoungestHolder(a.blocks, a.running, |a.running|);
      if |a.running| == 1 || i == |a.running| {
        FirstHoldsAlone(a);
        NotStarved(c, a, 0);
        NobodyFits(c, a, left);
      } else {
        PreemptKeeps(c, a, i);
        PreemptKeepsRoom(c, a, i);
        PreemptIndexed(c, a, i);
        SelectsSomething(c, PreemptAt(a, i));
      }
    }
  }

  lemma FirstHoldsAlone(e: Sched)
    requires e.running != [] && |e.blocks| == |e.sequences| && forall k :: 0 <= k < |e.running| ==>
               e.running[k] < |e.blocks|
    requires forall j: nat :: j < |e.blocks| && j !in e.running ==> e.blocks[j] == EMPTY_BLOCKS
    requires |e.running| == 1 || YoungestHolder(e.blocks, e.running, |e.running|) == |e.running|
    ensures forall j :: 0 <= j < |e.blocks| && j != e.running[0] ==> e.blocks[j].table == []
  {
    var i := YoungestHolder(e.blocks, e.running, |e.running|);
    hide YoungestHolder;
    forall j | 0 <= j < |e.blocks| && j != e.running[0]
      ensures e.blocks[j].table == []
    {
      if j in e.running {
        var k :| 0 <= k < |e.running| && e.running[k] == j;
      }
    }
  }

  /** An empty batch means that not even the first running sequence fits the free list. */
  lemma NobodyFits(c: Config, e: Sched, left: int)
    requires c.bs > 0 && e.running != [] && e.running[0] < |e.blocks| == |e.sequences|
    requires BatchOk(c, e, [], |e.running|, left) && NoneLeftOut(c, e, [], |e.running|, left)
    ensures Delta(c.bs, e.blocks[e.running[0]], |StepTokens(e.sequences[e.running[0]],
            e.blocks[e.running[0]])|) > |e.pool.free|
  {
    hide StepTokens, Delta;
    assert NotAnItem([], 0, e.running[0]);
  }

  // ---- Counting tokens ----------------------------------------------------------------------

  lemma {:induction false} RemainingUpdate(sequences: seq<EngineSequence>, i: nat, s: EngineSequence)
    requires i < |sequences|
    ensures TotalRemaining(sequences[i := s]) == TotalRemaining(sequences) - Remaining(sequences[i]) + Remaining(s)
    decreases |sequences|
  {
    hide Remaining;
    var n := |sequences| - 1;
    var after := sequences[i := s];
    if i == n {
      assert after[..n] == sequences[..n];
    } else {
      RemainingUpdate(sequences[..n], i, s);
      assert after[..n] == sequences[..n][i := s];
    }
  }

  lemma {:induction false} SameRemaining(a: seq<EngineSequence>, b: seq<EngineSequence>)
    requires |a| == |b| && forall j :: 0 <= j < |a| ==> Remaining(a[j]) == Remaining(b[j])
    ensures TotalRemaining(a) == TotalRemaining(b)
  {
    hide Remaining;
    if a != [] {
      SameRemaining(a[..|a| - 1], b[..|b| - 1]);
    }
  }

  /** Every taken token is one less to come. */
  lemma TakeCounts(c: Config, e: Sched, items: seq<BatchItem>, k: nat, token: Token)
    requires c.bs > 0 && Indexed(e) && MidStep(c, e, items, k) && k < |items|
    ensures TotalRemaining(Take(c, e, items[k].seqIndex, token).sequences) < TotalRemaining(e.sequences)
  {
    var id := items[k].seqIndex;
    var s := e.sequences[id];
    assert !NotAnItem(items, k, id) && Forwarded(c.bs, s, e.blocks[id]);
    hide MidStep, FreeFrom, RegisterFrom, FreeInRange;
    var r := Take(c, e, id, token);
    RemainingUpdate(e.sequences, id, r.sequences[id]);
    hide TotalRemaining;
  }

  lemma {:induction false} TakeAllCounts(c: Config, e: Sched, items: seq<BatchItem>, tokens: seq<Token>)
    requires c.bs > 0 && Indexed(e) && MidStep(c, e, items, 0) && |tokens| <= |items|
             && DistinctItems(items, |e.sequences|)
    ensures TotalRemaining(TakeAll(c, e, items, tokens).sequences) + |tokens| <= TotalRemaining(e.sequences)
    decreases |tokens|
  {
    hide MidStep, Take, FreeInRange, TotalRemaining;
    if tokens != [] {
      var k := |tokens| - 1;
      TakeAllKeeps(c, e, items, tokens[..k]);
      TakeAllCounts(c, e, items, tokens[..k]);
      TakeCounts(c, TakeAll(c, e, items, tokens[..k]), items, k, tokens[k]);
    }
  }

  // ---- What tokens do to the sequences ------------------------------------------------------

  ghost predicate SameGoal(s: EngineSequence, t: EngineSequence) {
    t.request == s.request && t.output == s.output && (t.status == Finished <==> s.status == Finished)
  }

  ghost predicate TookOne(s: EngineSequence, t: EngineSequence, token: Token) {
    && s.status != Finished && t.request == s.request && t.output == s.output + [token]
    && (t.status == Finished <==> Stops(t.request, t.output))
  }

  /** The first |tokens| items took one token each, and every other sequence is as it was. */
  ghost predicate TokensTaken(before: seq<EngineSequence>, after: seq<EngineSequence>, items: seq<BatchItem>,
                              tokens: seq<Token>) {
    && |after| == |before| && |tokens| <= |items|
    && (forall k :: 0 <= k < |tokens| && items[k].seqIndex < |before| ==>
          TookOne(before[items[k].seqIndex], after[items[k].seqIndex], tokens[k]))
    && (forall j :: 0 <= j < |before| && Untaken(items, |tokens|, j) ==> after[j] == before[j])
  }

  ghost predicate Untaken(items: seq<BatchItem>, n: nat, j: nat) {
    forall k :: 0 <= k < n && k < |items| ==> items[k].seqIndex != j
  }

  lemma TakeTakes(c: Config, e: Sched, id: nat, token: Token)
    requires c.bs > 0 && Indexed(e) && id < |e.sequences| && e.sequences[id].status == Running
    ensures TookOne(e.sequences[id], Take(c, e, id, token).sequences[id], token)
    ensures forall i :: 0 <= i < |e.sequences| && i != id ==> Take(c, e, id, token).sequences[i] == e.sequences[i]
  {
    hide FreeFrom, RegisterFrom, Stops;
  }

  lemma TakenOneMore(items: seq<BatchItem>, k: nat, n: nat)
    requires k < |items| && DistinctItems(items, n)
    ensures forall j: nat :: Untaken(items, k + 1, j) ==> Untaken(items, k, j) && j != items[k].seqIndex
    ensures forall i :: k <= i < |items| ==> Untaken(items, k, items[i].seqIndex)
  {
    forall j: nat | Untaken(items, k + 1, j)
      ensures Untaken(items, k, j) && j != items[k].seqIndex
    {
    }
  }

  /** One more item has taken its token. */
  lemma TakenStep(e: seq<EngineSequence>, mid: seq<EngineSequence>, t: seq<EngineSequence>, items: seq<BatchItem>,
                  tokens: seq<Token>)
    requires 0 < |tokens| <= |items| && DistinctItems(items, |e|) && |t| == |mid|
    requires TokensTaken(e, mid, items, tokens[..|tokens| - 1])
    requires var id := items[|tokens| - 1].seqIndex;
             && TookOne(e[id], t[id], tokens[|tokens| - 1])
             && forall i :: 0 <= i < |e| && i != id ==> t[i] == mid[i]
    ensures TokensTaken(e, t, items, tokens)
  {
    hide TookOne;
    var k := |tokens| - 1;
    TakenOneMore(items, k, |e|);
    hide Untaken;
    forall i | 0 <= i < k
      ensures TookOne(e[items[i].seqIndex], t[items[i].seqIndex], tokens[i])
    {
      assert tokens[..k][i] == tokens[i];
    }
  }

  lemma {:induction false} TakeAllTakes(c: Config, e: Sched, items: seq<BatchItem>, tokens: seq<Token>)
    requires c.bs > 0 && Indexed(e) && |tokens| <= |items| && DistinctItems(items, |e.sequences|)
    requires forall k :: 0 <= k < |items| ==> e.sequences[items[k].seqIndex].status == Running
    ensures TokensTaken(e.sequences, TakeAll(c, e, items, tokens).sequences, items, tokens)
    decreases |tokens|
  {
    hide Take, FreeInRange, TookOne, Untaken;
    if tokens != [] {
      var k := |tokens| - 1;
      var before := TakeAll(c, e, items, tokens[..k]);
      TakeAllTakes(c, e, items, tokens[..k]);
      TakenOneMore(items, k, |e.sequences|);
      TakeTakes(c, before, items[k].seqIndex, tokens[k]);
      TakenStep(e.sequences, before.sequences, TakeAll(c, e, items, tokens).sequences, items, tokens);
    }
  }

  // ---- One step -----------------------------------------------------------------------------

  /** Choosing the batch changes no request, no output and no finished sequence. */
  lemma ChosenKeeps(c: Config, e: Sched) returns (left: int)
    requires c.bs > 0 && Indexed(e) && Inv(c, e)
    ensures Inv(c, Admit(c, e))
    ensures var (sel, items) := Select(c, Admit(c, e));
            && Inv(c, sel) && BatchOk(c, sel, items, |sel.running|, left)
            && SameGoals(e, sel) && |sel.pool.count| == |e.pool.count|
  {
    hide Inv, Admit, Select, BatchOk, NoneLeftOut, FreeInRange;
    AdmitKeeps(c, e);
    var a := Admit(c, e);
    AdmitSame(c, e);
    SelectKeeps(c, a);
    var (sel, items) := Select(c, a);
    left :| BatchOk(c, sel, items, |sel.running|, left);
  }

  lemma AdmitSame(c: Config, e: Sched)
    requires c.bs > 0 && Indexed(e) && Inv(c, e)
    ensures SameGoals(e, Admit(c, e)) && Admit(c, e).pool == e.pool
  {
    hide FreeInRange, Paged, AllSeqOk, FitsAs;
    AdmitIsFcfs(c, e);
    var r := Admit(c, e);
    hide Admit;
    var n: nat :| AdmittedUpTo(c, e, r, n);
    TookSame(e, r, n);
    hide TookFirst;
  }

  /** The state a successful step's tokens are taken in. */
  lemma ForwardedState(net: Net, c: Config, sel: Sched, items: seq<BatchItem>, left: int, r: Result<()>,
                       tokens: seq<Token>, t: Sched)
    returns (mid: Sched)
    requires c.bs > 0 && Indexed(sel) && Inv(c, sel) && items != [] && BatchOk(c, sel, items, |sel.running|, left)
    requires DistinctItems(items, |sel.blocks|) && |sel.blocks| == |sel.sequences|
    requires ForwardOutcome(net, c, sel, items, r, tokens, t) && r.Ok?
    ensures MidStep(c, mid, items, 0) && Indexed(mid) && |tokens| == |items|
            && t == Retire(TakeAll(c, mid, items, tokens))
    ensures mid.sequences == sel.sequences && mid.running == sel.running && mid.waiting == sel.waiting
    ensures SameCache(sel.pool, mid.pool) && |mid.pool.count| == |sel.pool.count| && |mid.pool.free| == left
    ensures forall k :: 0 <= k < |items| ==> sel.sequences[items[k].seqIndex].status == Running
  {
    hide Inv, BatchOk, ReserveItems, FreeInRange, MidStep, TakeAll, Committed, ItemsInVocab;
    BatchReserves(c, sel, items, |sel.running|, left);
    var (reserved, grown, pool) := ReserveItems(c.bs, sel.pool, sel.blocks, items, 0);
    OkIsUnit(reserved);
    var out :| Committed(grown, items, out) && TookTokens(c, sel.(pool := pool, blocks := out), items, tokens, t);
    mid := sel.(pool := pool, blocks := out);
    ForwardKeeps(c, sel, items, |sel.running|, left, pool, grown, out);
  }

  /** The state a failed step leaves. */
  lemma FailedState(net: Net, c: Config, sel: Sched, items: seq<BatchItem>, left: int, r: Result<()>,
                    tokens: seq<Token>, t: Sched)
    requires c.bs > 0 && Indexed(sel) && Inv(c, sel) && items != [] && BatchOk(c, sel, items, |sel.running|, left)
    requires DistinctItems(items, |sel.blocks|) && |sel.blocks| == |sel.sequences|
    requires ForwardOutcome(net, c, sel, items, r, tokens, t) && r.Throws?
    ensures Inv(c, t) && t.sequences == sel.sequences && SameCache(sel.pool, t.pool)
            && |t.pool.count| == |sel.pool.count|
    ensures r == Throws(TokenOutOfRange) && !ItemsInVocab(net, items)
  {
    hide Inv, BatchOk, ReserveItems, FreeInRange, TakeAll, Committed, ItemsInVocab;
    BatchReserves(c, sel, items, |sel.running|, left);
    var (reserved, grown, pool) := ReserveItems(c.bs, sel.pool, sel.blocks, items, 0);
    OkIsUnit(reserved);
    FailedForwardKeeps(c, sel, items, |sel.running|, left, pool, grown);
  }

  /** What one step does to the requests: each batched one grows by its one token, nothing else changes. */
  ghost predicate Extended(e: seq<EngineSequence>, t: seq<EngineSequence>, r: Result<()>, batch: seq<BatchItem>,
                           tokens: seq<Token>) {
    && |t| == |e|
    && (forall j :: 0 <= j < |e| && (r.Throws? || NotAnItem(batch, 0, j)) ==> SameGoal(e[j], t[j]))
    && (r.Ok? && batch != [] ==> |tokens| == |batch|)
    && (r.Ok? && batch != [] ==> forall k :: 0 <= k < |batch| && batch[k].seqIndex < |e| ==>
          TookOne(e[batch[k].seqIndex], t[batch[k].seqIndex], tokens[k]))
  }

  lemma ExtendedBy(e: Sched, sel: Sched, after: seq<EngineSequence>, batch: seq<BatchItem>, tokens: seq<Token>)
    requires SameGoals(e, sel) && |tokens| == |batch| && DistinctItems(batch, |e.sequences|)
    requires TokensTaken(sel.sequences, after, batch, tokens)
    ensures Extended(e.sequences, after, Ok(()), batch, tokens)
  {
    hide Stops;
    assert forall j: nat :: NotAnItem(batch, 0, j) ==> Untaken(batch, |tokens|, j);
  }

  /** Every step keeps the scheduler's invariant, extends outputs, and counts its tokens off. */
  lemma StepKeeps(net: Net, c: Config, e: Sched, r: Result<()>, batch: seq<BatchItem>, tokens: seq<Token>, t: Sched)
    requires Inv(c, e) && StepOutcome(net, c, e, r, batch, tokens, t)
    ensures Inv(c, t) && |t.pool.count| == |e.pool.count|
    ensures DistinctItems(batch, |e.sequences|) && Extended(e.sequences, t.sequences, r, batch, tokens)
    ensures TotalRemaining(t.sequences) + (if r.Ok? then |batch| else 0) <= TotalRemaining(e.sequences)
    ensures !c.prefixCache ==> SameCache(e.pool, t.pool)
  {
    hide Inv, BatchOk, Admit, Select, FreeInRange, MidStep, TakeAll, ForwardOutcome, TookOne, TokensTaken, Untaken;
    var left := ChosenKeeps(c, e);
    var (sel, items) := Select(c, Admit(c, e));
    BatchDistinct(c, sel, items, left);
    SameTotals(e, sel);
    AdmitSame(c, e);
    if !c.prefixCache {
      SelectBlocks(c, Admit(c, e));
    }
    if items != [] {
      if r.Ok? {
        var mid := ForwardedState(net, c, sel, items, left, r, tokens, t);
        TakeAllKeeps(c, mid, items, tokens);
        TakeAllCounts(c, mid, items, tokens);
        TakeAllTakes(c, mid, items, tokens);
        TakeAllBlocks(c, mid, items, tokens);
        RetireKeeps(c, TakeAll(c, mid, items, tokens), items);
        OkIsUnit(r);
        ExtendedBy(e, sel, t.sequences, items, tokens);
      } else {
        FailedState(net, c, sel, items, left, r, tokens, t);
      }
    }
  }

  lemma SameTotals(e: Sched, t: Sched)
    requires SameGoals(e, t)
    ensures TotalRemaining(t.sequences) == TotalRemaining(e.sequences)
  {
    SameRemaining(e.sequences, t.sequences);
  }

  /** Taking tokens keeps the pool's size, and without caching its cache. */
  lemma {:induction false} TakeAllBlocks(c: Config, e: Sched, items: seq<BatchItem>, tokens: seq<Token>)
    requires c.bs > 0 && Indexed(e) && |tokens| <= |items| && DistinctItems(items, |e.sequences|)
    ensures |TakeAll(c, e, items, tokens).pool.count| == |e.pool.count|
    ensures !c.prefixCache ==> SameCache(e.pool, TakeAll(c, e, items, tokens).pool)
    decreases |tokens|
  {
    hide Take, FreeInRange;
    if tokens != [] {
      var k := |tokens| - 1;
      TakeAllBlocks(c, e, items, tokens[..k]);
      TakeBlocks(c, TakeAll(c, e, items, tokens[..k]), items[k].seqIndex, tokens[k]);
    }
  }

  lemma TakeBlocks(c: Config, e: Sched, id: nat, token: Token)
    requires c.bs > 0 && Indexed(e) && id < |e.sequences|
    ensures |Take(c, e, id, token).pool.count| == |e.pool.count|
    ensures !c.prefixCache ==> SameCache(e.pool, Take(c, e, id, token).pool)
  {
    FreePrefix(e.pool, e.blocks[id].table);
    RegisterFreeSame(c.hash, c.bs, e.pool, e.blocks[id].table, e.sequences[id].Context(), 0);
    hide FreeFrom, RegisterFrom, Stops, FreeInRange;
  }

  /** Only prefills are registered: a decoding sequence leaves the cache alone. */
  lemma DecodesRegisterNothing(c: Config, e: Sched, id: nat, token: Token)
    requires c.bs > 0 && Indexed(e) && id < |e.sequences| && e.sequences[id].prefilled
    ensures SameCache(e.pool, Take(c, e, id, token).pool)
  {
    FreePrefix(e.pool, e.blocks[id].table);
    hide FreeFrom, RegisterFrom, Stops, FreeInRange;
  }

  /** Without caching the cache never changes. */
  lemma {:induction false} SelectBlocks(c: Config, e: Sched)
    requires c.bs > 0 && Indexed(e) && Inv(c, e) && !c.prefixCache
    ensures SameCache(e.pool, Select(c, e).0.pool)
    decreases |e.running|
  {
    hide Inv, Assemble, FreeFrom, FreeInRange, BatchOk, NoneLeftOut;
    EmptyBatchOk(c, e);
    AssembleKeeps(c, e, 0, |e.pool.free|, []);
    if Assemble(c, e, 0, |e.pool.free|, []).1 == [] && |e.running| > 1 {
      var i := YoungestHolder(e.blocks, e.running, |e.running|);
      if i < |e.running| {
        PreemptKeeps(c, e, i);
        PreemptIndexed(c, e, i);
        FreePrefix(e.pool, e.blocks[e.running[i]].table);
        SelectBlocks(c, PreemptAt(e, i));
      }
    }
  }

  /**
   Progress, with prefix caching on or off: if there is at least one slot in the batch and every unfinished
   context fits the pool beside the blocks that the cache keeps, a step with work emits at least one token
   (or hits a token outside the vocabulary), and the tokens still to come strictly fall.
   */
  lemma StepProgresses(net: Net, c: Config, e: Sched, r: Result<()>, batch: seq<BatchItem>, tokens: seq<Token>,
                       t: Sched)
    requires Inv(c, e) && RoomForEach(c, e) && Busy(e) && StepOutcome(net, c, e, r, batch, tokens, t)
    ensures batch != []
    ensures r.Ok? ==> TotalRemaining(t.sequences) < TotalRemaining(e.sequences)
    ensures r.Throws? ==> r == Throws(TokenOutOfRange) && !ItemsInVocab(net, batch)
  {
    hide Inv, BatchOk, Admit, Select, FreeInRange, MidStep, TakeAll, ForwardOutcome, TookOne, NotAnItem, RoomForEach;
    StepKeeps(net, c, e, r, batch, tokens, t);
    AdmitsSomething(c, e);
    var a := Admit(c, e);
    SelectsSomething(c, a);
    var left := ChosenKeeps(c, e);
    var (sel, items) := Select(c, a);
    BatchDistinct(c, sel, items, left);
    if r.Throws? {
      FailedState(net, c, sel, items, left, r, tokens, t);
    }
  }

  /** With caching off the next state has room again, so that everything finishes. */
  lemma StepCanFinish(net: Net, c: Config, e: Sched, r: Result<()>, batch: seq<BatchItem>, tokens: seq<Token>,
                      t: Sched)
    requires Inv(c, e) && CanFinish(c, e) && StepOutcome(net, c, e, r, batch, tokens, t)
    ensures RoomForEach(c, e) && CanFinish(c, t)
  {
    hide Inv, StepOutcome, TookOne, FitsPool, RoomForEach, NotAnItem;
    StepKeeps(net, c, e, r, batch, tokens, t);
    CanFinishHasRoom(c, e);
    ExtendedFinishes(e.sequences, t.sequences, r, batch, tokens);
  }

  /** Requests stay what they are, and finished ones stay finished. */
  lemma ExtendedFinishes(e: seq<EngineSequence>, t: seq<EngineSequence>, r: Result<()>, batch: seq<BatchItem>,
                         tokens: seq<Token>)
    requires Extended(e, t, r, batch, tokens)
    ensures |t| == |e| && forall j :: 0 <= j < |e| ==>
              && t[j].request == e[j].request && e[j].output <= t[j].output && |t[j].output| <= |e[j].output| + 1
              && (e[j].status == Finished ==> SameGoal(e[j], t[j]))
  {
    hide Stops;
    forall j | 0 <= j < |e|
      ensures t[j].request == e[j].request && e[j].output <= t[j].output && |t[j].output| <= |e[j].output| + 1
      ensures e[j].status == Finished ==> SameGoal(e[j], t[j])
    {
      if r.Ok? && !NotAnItem(batch, 0, j) {
        var k :| 0 <= k < |batch| && batch[k].seqIndex == j;
        assert TookOne(e[batch[k].seqIndex], t[batch[k].seqIndex], tokens[k]);
      }
    }
  }

  // ---- Vocabulary ---------------------------------------------------------------------------

  /** Every context is made of tokens the embedding knows. */
  ghost predicate ContextsInVocab(net: Net, sequences: seq<EngineSequence>) {
    forall j :: 0 <= j < |sequences| ==> AllInVocab(net, sequences[j].Context())
  }

  /** A step can only throw if some prompt was outside the vocabulary to begin with. */
  lemma StepStaysInVocab(net: Net, c: Config, e: Sched, r: Result<()>, batch: seq<BatchItem>, tokens: seq<Token>,
                         t: Sched)
    requires Inv(c, e) && StepOutcome(net, c, e, r, batch, tokens, t) && ContextsInVocab(net, e.sequences)
    ensures r.Ok? && ContextsInVocab(net, t.sequences)
  {
    hide Inv, BatchOk, Admit, Select, FreeInRange, MidStep, TakeAll, TookOne, NotAnItem, ReserveItems, ItemsReserved;
    hide StepTokens, AllInVocab;
    StepKeeps(net, c, e, r, batch, tokens, t);
    var left := ChosenKeeps(c, e);
    var (sel, items) := Select(c, Admit(c, e));
    if items != [] {
      SameContexts(net, e, sel);
      BatchStaysInVocab(net, c, sel, items, left);
    }
    GrownStaysInVocab(net, e.sequences, t.sequences, r, batch, tokens);
  }

  lemma SameContexts(net: Net, e: Sched, sel: Sched)
    requires SameGoals(e, sel) && ContextsInVocab(net, e.sequences)
    ensures ContextsInVocab(net, sel.sequences)
  {
    hide AllInVocab;
    assert forall j :: 0 <= j < |e.sequences| ==> sel.sequences[j].Context() == e.sequences[j].Context();
  }

  lemma BatchStaysInVocab(net: Net, c: Config, sel: Sched, items: seq<BatchItem>, left: int)
    requires c.bs > 0 && Inv(c, sel) && BatchOk(c, sel, items, |sel.running|, left)
             && ContextsInVocab(net, sel.sequences)
    ensures ItemsInVocab(net, items)
  {
    BatchReserves(c, sel, items, |sel.running|, left);
    BatchDistinct(c, sel, items, left);
    hide Inv, BatchOk, ReserveItems, ItemsReserved, StepTokens;
    forall k | 0 <= k < |items|
      ensures AllInVocab(net, items[k].tokens)
    {
      var ctx := sel.sequences[items[k].seqIndex].Context();
      assert AllInVocab(net, ctx);
    }
  }

  lemma GrownStaysInVocab(net: Net, e: seq<EngineSequence>, t: seq<EngineSequence>, r: Result<()>,
                          batch: seq<BatchItem>, tokens: seq<Token>)
    requires Extended(e, t, r, batch, tokens) && ContextsInVocab(net, e)
    requires r.Ok? && batch != [] ==> AllInVocab(net, tokens)
    ensures ContextsInVocab(net, t)
  {
    hide Stops;
    forall j | 0 <= j < |t|
      ensures AllInVocab(net, t[j].Context())
    {
      assert AllInVocab(net, e[j].Context());
      if r.Ok? && !NotAnItem(batch, 0, j) {
        var k :| 0 <= k < |batch| && batch[k].seqIndex == j;
        assert TookOne(e[batch[k].seqIndex], t[batch[k].seqIndex], tokens[k]);
        assert t[j].Context() == e[j].Context() + [tokens[k]];
      } else {
        assert t[j].Context() == e[j].Context();
      }
    }
  }

  // ---- The engine never evicts --------------------------------------------------------------

  lemma {:induction false} SelectRefs(c: Config, e: Sched)
    requires c.bs > 0 && Indexed(e) && Inv(c, e)
    ensures CacheRefs(Select(c, e).0.pool.prefix) == CacheRefs(e.pool.prefix)
    decreases |e.running|
  {
    hide Inv, NoneLeftOut, BatchOk, Assemble, FreeFrom, FreeInRange, CacheRefs;
    EmptyBatchOk(c, e);
    AssembleKeeps(c, e, 0, |e.pool.free|, []);
    var (a, items) := Assemble(c, e, 0, |e.pool.free|, []);
    if items == [] && |a.running| > 1 {
      var i := YoungestHolder(a.blocks, a.running, |a.running|);
      if i < |a.running| {
        PreemptKeeps(c, a, i);
        PreemptIndexed(c, a, i);
        FreePrefix(a.pool, a.blocks[a.running[i]].table);
        SelectRefs(c, PreemptAt(a, i));
      }
    }
  }

  lemma {:induction false} TakeAllRefs(c: Config, e: Sched, items: seq<BatchItem>, tokens: seq<Token>)
    requires c.bs > 0 && Indexed(e) && |tokens| <= |items| && DistinctItems(items, |e.sequences|)
    ensures CacheRefs(e.pool.prefix) <= CacheRefs(TakeAll(c, e, items, tokens).pool.prefix)
    decreases |tokens|
  {
    hide Take, FreeInRange, CacheRefs;
    if tokens != [] {
      var k := |tokens| - 1;
      TakeAllRefs(c, e, items, tokens[..k]);
      TakeRefs(c, TakeAll(c, e, items, tokens[..k]), items[k].seqIndex, tokens[k]);
    }
  }

  lemma TakeRefs(c: Config, e: Sched, id: nat, token: Token)
    requires c.bs > 0 && Indexed(e) && id < |e.sequences|
    ensures CacheRefs(e.pool.prefix) <= CacheRefs(Take(c, e, id, token).pool.prefix)
  {
    hide FreeFrom, RegisterFrom, Stops, FreeInRange, CacheRefs;
    FreePrefix(e.pool, e.blocks[id].table);
    RegisterRefs(c.hash, c.bs, e.pool, e.blocks[id].table, e.sequences[id].Context(), 0);
  }

  /** No step takes a reference of the cache away, however short of blocks the requests are. */
  lemma StepNeverEvicts(net: Net, c: Config, e: Sched, r: Result<()>, batch: seq<BatchItem>, tokens: seq<Token>,
                        t: Sched)
    requires Inv(c, e) && StepOutcome(net, c, e, r, batch, tokens, t)
    ensures CacheRefs(e.pool.prefix) <= CacheRefs(t.pool.prefix)
  {
    hide Inv, BatchOk, Admit, Select, FreeInRange, MidStep, TakeAll, ForwardOutcome, CacheRefs;
    var left := ChosenKeeps(c, e);
    AdmitSame(c, e);
    SelectRefs(c, Admit(c, e));
    var (sel, items) := Select(c, Admit(c, e));
    BatchDistinct(c, sel, items, left);
    if items != [] {
      if r.Ok? {
        var mid := ForwardedState(net, c, sel, items, left, r, tokens, t);
        TakeAllRefs(c, mid, items, tokens);
      } else {
        FailedState(net, c, sel, items, left, r, tokens, t);
      }
    }
  }
}
