/**
 When a step does nothing. A step has an empty batch exactly if every running sequence lacks more blocks
 than even preemption can give it, blocks that the prefix cache keeps included; and such a step is the
 last one that changes anything, until another request comes.
 */
module Stalls {
  import opened Results
  import opened Network
  import opened PrefixCaches
  import opened BlockAllocators
  import opened BlockPools
  import opened RowContents
  import opened ForwardBatches
  import opened Schedulers
  import opened SchedulerInvariants
  import opened StepRelations
  import opened Progress

  // ---- Sharing settles ----------------------------------------------------------------------

  /** The first block of the tokens, if they fill one, has been looked up and is not cached. */
  ghost predicate Missed(hash: HashBlock, bs: nat, s: Pool, tokens: seq<Token>)
    requires bs > 0
  {
    0 * bs + bs <= |tokens| ==> [] in s.seen && LookupBlock(hash, bs, s.prefix, tokens, 0) == None
  }

  /** The tokens a fresh sequence may share. */
  function Shareable(bs: nat, s: EngineSequence): seq<Token>
    requires bs > 0
  {
    if s.Context() == [] then [] else s.Context()[..ShareCap(bs, s.Context())]
  }

  /** Sharing has nothing to give to the sequence. */
  ghost predicate Settled(c: Config, e: Sched, id: nat)
    requires c.bs > 0 && id < |e.sequences| && id < |e.blocks|
  {
    || !c.prefixCache || e.sequences[id].prefilled || e.blocks[id] != EMPTY_BLOCKS
    || Missed(c.hash, c.bs, e.pool, Shareable(c.bs, e.sequences[id]))
  }

  ghost predicate AllSettled(c: Config, e: Sched, n: nat)
    requires c.bs > 0 && Indexed(e) && n <= |e.running|
  {
    forall k :: 0 <= k < n ==> Settled(c, e, e.running[k])
  }

  lemma MissedAcquires(hash: HashBlock, bs: nat, s: Pool, tokens: seq<Token>)
    requires bs > 0 && PoolValid(bs, s) && Missed(hash, bs, s, tokens)
    ensures AcquireFrom(hash, bs, s, tokens, []) == ([], s)
  {
    hide Chain, Span, AcquireFrom, PoolValid, CacheRefs, LookupBlock, SameButTicks;
    AcquireUnfold(hash, bs, s, tokens, []);
    if 0 < FullBlocks(bs, tokens) {
      ProbeFinds(hash, bs, s, tokens, 0);
      assert Leading(tokens, bs, 0) == [];
      assert s.seen + {[]} == s.seen;
    }
  }

  lemma InvHasPool(c: Config, e: Sched)
    requires Inv(c, e)
    ensures PoolValid(c.bs, e.pool) && c.bs > 0 && Indexed(e) && |e.blocks| == |e.sequences|
  {
    hide PoolValid, AllHeld, Exclusive, Queues, SeqOk, FreeInRange;
  }

  lemma SettledShares(c: Config, e: Sched, id: nat)
    requires c.bs > 0 && Inv(c, e) && Indexed(e) && id < |e.sequences| && id < |e.blocks| && Settled(c, e, id)
    ensures ShareFor(c, e, id) == e
  {
    hide Inv, AcquireFrom, FreeInRange, ShareCap, Missed;
    InvHasPool(c, e);
    var tokens := Shareable(c.bs, e.sequences[id]);
    if Missed(c.hash, c.bs, e.pool, tokens) {
      MissedAcquires(c.hash, c.bs, e.pool, tokens);
      assert e.blocks[id].table == [] && e.blocks[id].length == 0 ==> e.blocks[id := SequenceBlocks([], 0)] == e.blocks;
    }
  }

  /** What sharing for one sequence leaves of the cache. */
  lemma ShareForCache(c: Config, e: Sched, id: nat)
    requires c.bs > 0 && Inv(c, e) && Indexed(e) && id < |e.sequences|
    ensures SameButTicks(e.pool.prefix, ShareFor(c, e, id).pool.prefix)
    ensures e.pool.seen <= ShareFor(c, e, id).pool.seen
    ensures id < |ShareFor(c, e, id).sequences| && id < |ShareFor(c, e, id).blocks|
    ensures Settled(c, ShareFor(c, e, id), id)
  {
    hide Inv, AcquireFrom, FreeInRange, ShareCap, CacheRefs, SameButTicks, PoolValid, LookupBlock;
    InvHasPool(c, e);
    SameAsItself(e.pool.prefix);
    var tokens := Shareable(c.bs, e.sequences[id]);
    assert 0 * c.bs == 0;
    AcquireKeeps(c.hash, c.bs, e.pool, tokens, []);
    var (table, t) := AcquireFrom(c.hash, c.bs, e.pool, tokens, []);
    MissedNow(c.hash, c.bs, e.pool, tokens, table, t);
  }

  /** If the first lookup of an acquisition missed, it still misses afterwards. */
  lemma MissedNow(hash: HashBlock, bs: nat, s: Pool, tokens: seq<Token>, table: seq<nat>, t: Pool)
    requires bs > 0 && LongestRun(hash, bs, s.prefix, tokens, 0, table)
    requires SameButTicks(s.prefix, t.prefix)
    requires forall k :: 0 <= k <= |table| && k * bs + bs <= |tokens| ==> Leading(tokens, bs, k) in t.seen
    ensures table == [] ==> Missed(hash, bs, t, tokens)
  {
    hide SameButTicks, Lookup;
    if 0 * bs + bs <= |tokens| {
      assert Leading(tokens, bs, 0) == [];
      var parent, span := Chain(hash, bs, Leading(tokens, bs, 0)), Span(tokens, bs, 0);
      SameLookup(s.prefix, t.prefix, hash(parent, span), parent, span);
    }
  }

  lemma MissedStays(hash: HashBlock, bs: nat, s: Pool, t: Pool, tokens: seq<Token>)
    requires bs > 0 && Missed(hash, bs, s, tokens) && SameButTicks(s.prefix, t.prefix) && s.seen <= t.seen
    ensures Missed(hash, bs, t, tokens)
  {
    hide SameButTicks, Lookup;
    if 0 * bs + bs <= |tokens| {
      var parent, span := Chain(hash, bs, Leading(tokens, bs, 0)), Span(tokens, bs, 0);
      SameLookup(s.prefix, t.prefix, hash(parent, span), parent, span);
    }
  }

  /** Sharing for others keeps a settled sequence settled. */
  lemma SettledStays(c: Config, e: Sched, f: Sched, id: nat)
    requires c.bs > 0 && id < |e.sequences| && id < |e.blocks| && Settled(c, e, id)
    requires id < |f.sequences| && id < |f.blocks|
    requires f.sequences[id] == e.sequences[id] && f.blocks[id] == e.blocks[id]
    requires SameButTicks(e.pool.prefix, f.pool.prefix) && e.pool.seen <= f.pool.seen
    ensures Settled(c, f, id)
  {
    hide SameButTicks, Missed, Shareable;
    if Missed(c.hash, c.bs, e.pool, Shareable(c.bs, e.sequences[id])) {
      MissedStays(c.hash, c.bs, e.pool, f.pool, Shareable(c.bs, e.sequences[id]));
    }
  }

  /** One turn of the assembly settles its sequence and keeps the ones before it settled. */
  lemma TurnSettles(c: Config, e: Sched, n: nat)
    requires c.bs > 0 && Indexed(e) && Inv(c, e) && n < |e.running| && AllSettled(c, e, n)
    ensures var r := ShareFor(c, e, e.running[n]);
            Indexed(r) && Inv(c, r) && r.running == e.running && AllSettled(c, r, n + 1)
  {
    hide Inv, ShareFor, FreeInRange, Settled, SameButTicks, SeqOk;
    var id := e.running[n];
    RunningId(c, e, n);
    ShareForKeeps(c, e, id);
    ShareForFrame(c, e, id);
    ShareForCache(c, e, id);
    var r := ShareFor(c, e, id);
    forall k | 0 <= k <= n
      ensures Settled(c, r, r.running[k])
    {
      if k < n {
        SettledStays(c, e, r, e.running[k]);
      }
    }
  }

  lemma {:induction false} AssembleSettles(c: Config, e: Sched, n: nat, budget: int, items: seq<BatchItem>)
    requires c.bs > 0 && Indexed(e) && Inv(c, e) && n <= |e.running| && AllSettled(c, e, n)
    ensures AllSettled(c, Assemble(c, e, n, budget, items).0, |e.running|)
    decreases |e.running| - n
  {
    hide Inv, ShareFor, StepTokens, Delta, FreeInRange, AllSettled, Assemble;
    AssembleUnfold(c, e, n, budget, items);
    if n < |e.running| {
      TurnSettles(c, e, n);
      var id := e.running[n];
      var shared := ShareFor(c, e, id);
      var tokens := StepTokens(shared.sequences[id], shared.blocks[id]);
      var delta := Delta(c.bs, shared.blocks[id], |tokens|);
      if delta > budget {
        AssembleSettles(c, shared, n + 1, budget, items);
      } else {
        AssembleSettles(c, shared, n + 1, budget - delta, items + [BatchItem(id, tokens)]);
      }
    }
  }

  /** With everybody settled, assembling a batch changes nothing. */
  lemma {:induction false} SettledAssembles(c: Config, e: Sched, n: nat, budget: int, items: seq<BatchItem>)
    requires c.bs > 0 && Indexed(e) && Inv(c, e) && n <= |e.running| && AllSettled(c, e, |e.running|)
    ensures Assemble(c, e, n, budget, items).0 == e
    decreases |e.running| - n
  {
    hide Inv, ShareFor, StepTokens, Delta, FreeInRange, Settled, Assemble;
    AssembleUnfold(c, e, n, budget, items);
    if n < |e.running| {
      RunningId(c, e, n);
      var id := e.running[n];
      SettledShares(c, e, id);
      var tokens := StepTokens(e.sequences[id], e.blocks[id]);
      var delta := Delta(c.bs, e.blocks[id], |tokens|);
      if delta > budget {
        SettledAssembles(c, e, n + 1, budget, items);
      } else {
        SettledAssembles(c, e, n + 1, budget - delta, items + [BatchItem(id, tokens)]);
      }
    }
  }

  // ---- What preemption can give -------------------------------------------------------------

  /** The blocks of the tables of the first n running sequences. */
  ghost function TableBlocks(blocks: seq<SequenceBlocks>, running: seq<nat>, n: nat): set<nat>
    requires n <= |running| && forall k :: 0 <= k < |running| ==> running[k] < |blocks|
  {
    if n == 0 then {} else TableBlocks(blocks, running, n - 1) + Elements(blocks[running[n - 1]].table)
  }

  /**
   The blocks that stay taken however many sequences are preempted for the n-th running one: those that the
   cache keeps and, if it holds blocks itself, those of its table and of the tables before it, as only younger
   holders are preempted for it. One that holds nothing is left when all holders are gone.
   */
  ghost function Kept(e: Sched, n: nat): set<nat>
    requires Indexed(e) && n < |e.running|
  {
    CachedBlocks(e.pool.prefix)
    + if e.blocks[e.running[n]].table == [] then {} else TableBlocks(e.blocks, e.running, n + 1)
  }

  /** What the n-th running sequence lacks for its step. */
  ghost function Lacks(c: Config, e: Sched, n: nat): int
    requires c.bs > 0 && Indexed(e) && n < |e.running|
  {
    var id := e.running[n];
    Delta(c.bs, e.blocks[id], |StepTokens(e.sequences[id], e.blocks[id])|)
  }

  /** Nobody can ever get what it lacks. */
  ghost predicate Starving(c: Config, e: Sched)
    requires c.bs > 0 && Indexed(e)
  {
    forall n :: 0 <= n < |e.running| ==> Lacks(c, e, n) > |e.pool.count| - |Kept(e, n)|
  }

  ghost function Used(s: Pool): set<nat> {
    CachedBlocks(s.prefix) + set b | b in s.held
  }

  /** A block is free or used. */
  lemma FreeIsRest(bs: nat, s: Pool)
    requires PoolValid(bs, s)
    ensures |s.free| == |s.count| - |Used(s)|
  {
    hide CacheRefs;
    ElementsAtMost(s.free);
    var all := AllBlocks(|s.count|);
    ElementsAtMost(all);
    forall b
      ensures b in Elements(all) <==> b in Elements(s.free) || b in Used(s)
      ensures !(b in Elements(s.free) && b in Used(s))
    {
      if 0 <= b < |s.count| {
        assert all[b] == b;
        assert s.count[b] == s.held[b] + CacheRefs(s.prefix)[b];
      }
    }
    assert Elements(all) == Elements(s.free) + Used(s) && Elements(s.free) !! Used(s);
  }

  lemma {:induction false} TableBlocksAre(blocks: seq<SequenceBlocks>, running: seq<nat>, n: nat)
    requires n <= |running| && forall k :: 0 <= k < |running| ==> running[k] < |blocks|
    ensures forall b :: b in TableBlocks(blocks, running, n) <==>
              exists k :: 0 <= k < n && b in blocks[running[k]].table
  {
    if n > 0 {
      TableBlocksAre(blocks, running, n - 1);
    }
  }

  lemma {:induction false} AllHeldAre(blocks: seq<SequenceBlocks>)
    ensures forall b :: b in AllHeld(blocks) <==> exists i :: 0 <= i < |blocks| && b in blocks[i].table
  {
    if blocks != [] {
      var n := |blocks| - 1;
      AllHeldAre(blocks[..n]);
      forall b
        ensures b in AllHeld(blocks) <==> exists i :: 0 <= i < |blocks| && b in blocks[i].table
      {
        if b in AllHeld(blocks[..n]) {
          var i :| 0 <= i < n && b in blocks[..n][i].table;
          assert b in blocks[i].table;
        }
        if exists i :: 0 <= i < |blocks| && b in blocks[i].table {
          var i :| 0 <= i < |blocks| && b in blocks[i].table;
          if i < n {
            assert b in blocks[..n][i].table;
          }
        }
      }
    }
  }

  /** The used blocks are those of the cache and of the running sequences. */
  lemma UsedByRunning(c: Config, e: Sched)
    requires c.bs > 0 && Inv(c, e) && Indexed(e)
    ensures Used(e.pool) == CachedBlocks(e.pool.prefix) + TableBlocks(e.blocks, e.running, |e.running|)
  {
    hide CacheRefs, PoolValid, AllHeld, Exclusive, Queues, SeqOk, FreeInRange, TableBlocks;
    IdleHoldNothing(c, e);
    AllHeldAre(e.blocks);
    TableBlocksAre(e.blocks, e.running, |e.running|);
    forall b
      ensures b in e.pool.held <==> b in TableBlocks(e.blocks, e.running, |e.running|)
    {
      if b in e.pool.held {
        var i :| 0 <= i < |e.blocks| && b in e.blocks[i].table;
        assert i in e.running;
        var k :| 0 <= k < |e.running| && e.running[k] == i;
        assert b in e.blocks[e.running[k]].table;
      }
    }
  }

  // ---- When nothing is selected -------------------------------------------------------------

  /** Everybody lacks more than is free. */
  ghost predicate NobodyFitsNow(c: Config, e: Sched)
    requires c.bs > 0 && Indexed(e)
  {
    forall n :: 0 <= n < |e.running| ==> Lacks(c, e, n) > |e.pool.free|
  }

  /** The first item of a batch within the budget fits the free list. */
  lemma FirstItemFits(c: Config, e: Sched, items: seq<BatchItem>, left: int)
    requires c.bs > 0 && Inv(c, e) && Indexed(e) && items != [] && BatchOk(c, e, items, |e.running|, left)
    ensures !NobodyFitsNow(c, e)
  {
    hide Inv, FreeInRange, StepTokens, Delta, SeqOk, SumDeltas;
    forall k | 0 <= k < |items|
      ensures Delta(c.bs, e.blocks[items[k].seqIndex], |items[k].tokens|) >= 0
    {
      var n :| 0 <= n < |e.running| && e.running[n] == items[k].seqIndex;
      RunningId(c, e, n);
      StepTokensAre(c.bs, e.sequences[items[k].seqIndex], e.blocks[items[k].seqIndex]);
    }
    SumDeltasFirst(c.bs, e.blocks, items);
    SumDeltasNonNegative(c.bs, e.blocks, items[1..]);
    var n :| 0 <= n < |e.running| && e.running[n] == items[0].seqIndex;
    assert Lacks(c, e, n) <= |e.pool.free|;
  }

  lemma NobodyLeftOut(c: Config, e: Sched, left: int)
    requires c.bs > 0 && Indexed(e) && |e.blocks| == |e.sequences|
    requires BatchOk(c, e, [], |e.running|, left) && NoneLeftOut(c, e, [], |e.running|, left)
    ensures NobodyFitsNow(c, e)
  {
    hide StepTokens, Delta, FreeInRange;
    forall n | 0 <= n < |e.running|
      ensures Lacks(c, e, n) > |e.pool.free|
    {
      assert NotAnItem([], 0, e.running[n]);
    }
  }

  /** One pass assembles nothing exactly if, after sharing, everybody lacks more than is free. */
  lemma AssemblesNothing(c: Config, e: Sched)
    requires c.bs > 0 && Inv(c, e) && Indexed(e)
    ensures var (s, items) := Assemble(c, e, 0, |e.pool.free|, []);
            && Inv(c, s) && Assembled(c, e, s, items) && AllSettled(c, s, |s.running|)
            && (items == [] <==> NobodyFitsNow(c, s))
  {
    hide Inv, Assemble, BatchOk, NoneLeftOut, FreeInRange, CacheRefs, Settled, NobodyFitsNow;
    EmptyBatchOk(c, e);
    AssembleKeeps(c, e, 0, |e.pool.free|, []);
    AssembleSettles(c, e, 0, |e.pool.free|, []);
    var (s, items) := Assemble(c, e, 0, |e.pool.free|, []);
    var left: int :| BatchOk(c, s, items, |s.running|, left) && NoneLeftOut(c, s, items, |s.running|, left);
    if items == [] {
      NobodyLeftOut(c, s, left);
    } else {
      FirstItemFits(c, s, items, left);
    }
  }

  lemma {:induction false} TableBlocksGrow(blocks: seq<SequenceBlocks>, running: seq<nat>, m: nat, n: nat)
    requires m <= n <= |running| && forall k :: 0 <= k < |running| ==> running[k] < |blocks|
    requires forall k :: m <= k < n ==> blocks[running[k]].table == []
    ensures TableBlocks(blocks, running, n) == TableBlocks(blocks, running, m)
    decreases n
  {
    if m < n {
      TableBlocksGrow(blocks, running, m, n - 1);
    }
  }

  /** What is kept for anybody is used now. */
  lemma KeptIsUsed(c: Config, e: Sched, n: nat)
    requires c.bs > 0 && Inv(c, e) && Indexed(e) && n < |e.running|
    ensures |Kept(e, n)| <= |e.pool.count| - |e.pool.free|
  {
    hide Inv, TableBlocks, CachedBlocks, Used, FreeInRange, PoolValid;
    InvHasPool(c, e);
    FreeIsRest(c.bs, e.pool);
    UsedByRunning(c, e);
    TableBlocksAre(e.blocks, e.running, n + 1);
    TableBlocksAre(e.blocks, e.running, |e.running|);
    assert TableBlocks(e.blocks, e.running, n + 1) <= TableBlocks(e.blocks, e.running, |e.running|);
    SubsetSize(Kept(e, n), Used(e.pool));
  }

  /** For the youngest holder, everything that is used is kept; so it is for anybody when nobody holds blocks. */
  lemma YoungestKeepsAll(c: Config, e: Sched, n: nat)
    requires c.bs > 0 && Inv(c, e) && Indexed(e) && n < |e.running|
    requires forall k :: n < k < |e.running| ==> e.blocks[e.running[k]].table == []
    requires e.blocks[e.running[n]].table == [] ==> forall k :: 0 <= k <= n ==> e.blocks[e.running[k]].table == []
    ensures |Kept(e, n)| == |e.pool.count| - |e.pool.free|
  {
    hide Inv, CachedBlocks, Used, FreeInRange, PoolValid;
    InvHasPool(c, e);
    FreeIsRest(c.bs, e.pool);
    UsedByRunning(c, e);
    if e.blocks[e.running[n]].table == [] {
      TableBlocksGrow(e.blocks, e.running, 0, |e.running|);
    } else {
      TableBlocksGrow(e.blocks, e.running, n + 1, |e.running|);
    }
    assert Kept(e, n) == Used(e.pool);
  }

  /** Who can never get what it lacks does not have it now. */
  lemma StarvingFitsNot(c: Config, e: Sched)
    requires c.bs > 0 && Inv(c, e) && Indexed(e) && Starving(c, e)
    ensures NobodyFitsNow(c, e)
  {
    hide Inv, Kept, Lacks, FreeInRange;
    forall n | 0 <= n < |e.running|
      ensures Lacks(c, e, n) > |e.pool.free|
    {
      KeptIsUsed(c, e, n);
    }
  }

  /** With one running, or none of them holding blocks, nobody can get more than is free. */
  lemma LastResort(c: Config, e: Sched)
    requires c.bs > 0 && Inv(c, e) && Indexed(e) && NobodyFitsNow(c, e)
    requires |e.running| <= 1 || forall k :: 0 <= k < |e.running| ==> e.blocks[e.running[k]].table == []
    ensures Starving(c, e)
  {
    hide Inv, Kept, Lacks, FreeInRange;
    forall n | 0 <= n < |e.running|
      ensures Lacks(c, e, n) > |e.pool.count| - |Kept(e, n)|
    {
      YoungestKeepsAll(c, e, n);
    }
  }

  // ---- Preempting the youngest holder -------------------------------------------------------

  lemma {:induction false} TableBlocksSame(a: seq<SequenceBlocks>, b: seq<SequenceBlocks>, running: seq<nat>,
                                           other: seq<nat>, n: nat)
    requires n <= |running| && n <= |other| && |a| == |b|
    requires forall k :: 0 <= k < |running| ==> running[k] < |a|
    requires forall k :: 0 <= k < |other| ==> other[k] < |b|
    requires forall k :: 0 <= k < n ==> running[k] == other[k] && a[running[k]] == b[running[k]]
    ensures TableBlocks(a, running, n) == TableBlocks(b, other, n)
  {
    if n > 0 {
      TableBlocksSame(a, b, running, other, n - 1);
    }
  }

  /** The place of running sequence n after the i-th one has gone. */
  function Moved(n: nat, i: nat): nat
    requires n != i
  {
    if n < i then n else n - 1
  }

  /** Preempting the youngest holder changes nothing for the others but their place. */
  lemma PreemptMoves(c: Config, e: Sched, i: nat, n: nat)
    requires c.bs > 0 && Inv(c, e) && Indexed(e) && i < |e.running| && n < |e.running| && n != i
    requires forall k :: i < k < |e.running| ==> e.blocks[e.running[k]].table == []
    requires Indexed(PreemptAt(e, i)) && Settled(c, e, e.running[n])
    ensures var p := PreemptAt(e, i);
            && Moved(n, i) < |p.running| && p.running[Moved(n, i)] == e.running[n]
            && Lacks(c, p, Moved(n, i)) == Lacks(c, e, n) && Kept(p, Moved(n, i)) == Kept(e, n)
            && |p.pool.count| == |e.pool.count| && Settled(c, p, e.running[n])
  {
    hide Inv, FreeFrom, FreeInRange, StepTokens, Delta, TableBlocks, Settled, SeqOk, SameButTicks;
    RunningId(c, e, n);
    FreePrefix(e.pool, e.blocks[e.running[i]].table);
    var p := PreemptAt(e, i);
    assert e.running[n] != e.running[i];
    if n < i {
      TableBlocksSame(e.blocks, p.blocks, e.running, p.running, n + 1);
    }
    SameAsItself(e.pool.prefix);
    SettledStays(c, e, p, e.running[n]);
  }

  /** So whoever starves starves afterwards, and the other way round. */
  lemma PreemptStarves(c: Config, e: Sched, i: nat)
    requires c.bs > 0 && Inv(c, e) && Indexed(e) && i < |e.running| && AllSettled(c, e, |e.running|)
    requires e.blocks[e.running[i]].table != []
    requires forall k :: i < k < |e.running| ==> e.blocks[e.running[k]].table == []
    requires NobodyFitsNow(c, e) && Indexed(PreemptAt(e, i))
    ensures Starving(c, PreemptAt(e, i)) <==> Starving(c, e)
    ensures AllSettled(c, PreemptAt(e, i), |PreemptAt(e, i).running|)
  {
    hide Inv, FreeFrom, FreeInRange, Lacks, Kept, Settled;
    var p := PreemptAt(e, i);
    YoungestKeepsAll(c, e, i);
    forall n: nat | n < |e.running| && n != i {
      PreemptMoves(c, e, i, n);
    }
    forall j | 0 <= j < |p.running|
      ensures Settled(c, p, p.running[j])
      ensures Starving(c, e) ==> Lacks(c, p, j) > |p.pool.count| - |Kept(p, j)|
    {
      var n := if j < i then j else j + 1;
      assert Moved(n, i) == j;
    }
    forall n | 0 <= n < |e.running|
      ensures Starving(c, p) ==> Lacks(c, e, n) > |e.pool.count| - |Kept(e, n)|
    {
      if n != i && Starving(c, p) {
        assert Lacks(c, p, Moved(n, i)) > |p.pool.count| - |Kept(p, Moved(n, i))|;
      }
    }
  }

  /** The state in which the first assembly pass of a step leaves the running sequences. */
  ghost function AfterSharing(c: Config, e: Sched): (s: Sched)
    requires c.bs > 0 && Indexed(e)
    ensures Indexed(s)
  {
    Assemble(c, e, 0, |e.pool.free|, []).0
  }

  /** Nothing is selected, after any number of preemptions, exactly if everybody starves. */
  lemma {:induction false} SelectsNothing(c: Config, e: Sched)
    requires c.bs > 0 && Indexed(e) && Inv(c, e)
    ensures Select(c, e).1 == [] <==> Starving(c, AfterSharing(c, e))
    decreases |e.running|
  {
    hide Inv, Assemble, FreeFrom, FreeInRange, CacheRefs, Starving, NobodyFitsNow, Settled, Assembled;
    AssemblesNothing(c, e);
    var (s, items) := Assemble(c, e, 0, |e.pool.free|, []);
    if items != [] {
      if Starving(c, s) {
        StarvingFitsNot(c, s);
      }
    } else {
      AssembledSame(c, e, s, items);
      var i := YoungestHolder(s.blocks, s.running, |s.running|);
      if |s.running| <= 1 || i == |s.running| {
        LastResort(c, s);
      } else {
        PreemptKeeps(c, s, i);
        PreemptIndexed(c, s, i);
        PreemptStarves(c, s, i);
        var p := PreemptAt(s, i);
        SettledAssembles(c, p, 0, |p.pool.free|, []);
        SelectsNothing(c, p);
      }
    }
  }

  lemma AssembledSame(c: Config, e: Sched, s: Sched, items: seq<BatchItem>)
    requires c.bs > 0 && Assembled(c, e, s, items)
    ensures Inv(c, s) && s.sequences == e.sequences && s.running == e.running && s.waiting == e.waiting
            && s.preemptions == e.preemptions && s.pool.free == e.pool.free && |s.pool.count| == |e.pool.count|
  {
    hide Inv, BatchOk, NoneLeftOut, CacheRefs;
  }

  // ---- Admission ----------------------------------------------------------------------------

  /** Nobody can be admitted: the queue is empty, the batch is full, or the first in the queue does not fit. */
  ghost predicate NobodyJoins(c: Config, e: Sched)
    requires c.bs > 0
  {
    e.waiting == [] || |e.running| >= c.maxBatch || !CanAdmit(c, e, e.waiting[0])
  }

  lemma NobodyIsAdmitted(c: Config, e: Sched)
    requires c.bs > 0 && Indexed(e) && NobodyJoins(c, e)
    ensures Admit(c, e) == e
  {
    hide FreeInRange, Admissible, Admit;
    AdmitUnfold(c, e);
  }

  /** The first in the queue is admissible exactly if its whole context fits the free list. */
  lemma HeadNeeds(c: Config, e: Sched)
    requires c.bs > 0 && Indexed(e) && Inv(c, e) && e.waiting != []
    ensures CanAdmit(c, e, e.waiting[0]) <==> BlocksFor(c.bs, |e.sequences[e.waiting[0]].Context()|) <= |e.pool.free|
    ensures e.blocks[e.waiting[0]] == EMPTY_BLOCKS && e.waiting[0] !in e.running
  {
    hide FreeInRange, Paged, SeqOk, BlocksFor;
    var id := e.waiting[0];
    assert id in e.waiting && e.sequences[id].status == Waiting;
    IdleHoldNothing(c, e);
    assert SeqOk(c.bs, e.sequences[id], e.blocks[id]);
    WaitingNeed(c.bs, e.sequences[id], e.blocks[id]);
  }

  /** Whoever has been admitted fits the batch if nobody before it does. */
  lemma AdmittedFit(c: Config, e: Sched)
    requires c.bs > 0 && Inv(c, e) && Indexed(e) && !NobodyJoins(c, e)
    ensures Select(c, Admit(c, e)).1 != []
  {
    hide Inv, FreeInRange, Admit, BlocksFor, Assemble, NobodyFitsNow, Assembled, CanAdmit, AllSettled;
    AdmitKeeps(c, e);
    HeadNeeds(c, e);
    var k, id := |e.running|, e.waiting[0];
    HeadRuns(c, e);
    var a := Admit(c, e);
    AdmitSame(c, e);
    AssemblesNothing(c, a);
    var (s, items) := Assemble(c, a, 0, |a.pool.free|, []);
    AssembledSame(c, a, s, items);
    LacksAtMost(c, s, k);
    assert !NobodyFitsNow(c, s) by { assert Lacks(c, s, k) <= |s.pool.free|; FitsOne(c, s, k); }
  }

  lemma FitsOne(c: Config, e: Sched, n: nat)
    requires c.bs > 0 && Indexed(e) && n < |e.running| && Lacks(c, e, n) <= |e.pool.free|
    ensures !NobodyFitsNow(c, e)
  {
  }

  lemma LacksAtMost(c: Config, e: Sched, n: nat)
    requires c.bs > 0 && Indexed(e) && Inv(c, e) && n < |e.running|
    ensures e.running[n] < |e.sequences|
    ensures Lacks(c, e, n) == BlocksFor(c.bs, |e.sequences[e.running[n]].Context()|) - |e.blocks[e.running[n]].table|
  {
    hide Inv, FreeInRange, StepTokens, Delta, BlocksFor, SeqOk;
    RunningId(c, e, n);
    StepTokensAre(c.bs, e.sequences[e.running[n]], e.blocks[e.running[n]]);
  }

  lemma HeadRuns(c: Config, e: Sched)
    requires c.bs > 0 && Indexed(e) && Inv(c, e) && !NobodyJoins(c, e)
    ensures |e.running| < |Admit(c, e).running| && Admit(c, e).running[|e.running|] == e.waiting[0]
  {
    hide FreeInRange, Paged, AllSeqOk, CanAdmit;
    AdmitIsFcfs(c, e);
    var r := Admit(c, e);
    hide Admit;
    var n: nat :| AdmittedUpTo(c, e, r, n);
    assert FitsAs(c, e, 0);
  }

  // ---- What an empty step leaves ------------------------------------------------------------

  lemma {:induction false} FreeAtMost(s: Pool, table: seq<nat>)
    ensures |FreeFrom(s, table).free| <= |s.free| + |table|
    decreases |table|
  {
    if table != [] {
      FreeAtMost(Release(s, table[0]), table[1..]);
    }
  }

  /** The first in the queue needs more than is free. */
  ghost predicate HeadTooLarge(c: Config, e: Sched)
    requires c.bs > 0
  {
    && e.waiting != [] && e.waiting[0] < |e.sequences|
    && BlocksFor(c.bs, |e.sequences[e.waiting[0]].Context()|) > |e.pool.free|
  }

  /** Nobody who runs fits and nobody is left to be preempted. */
  ghost predicate Exhausted(c: Config, e: Sched)
    requires c.bs > 0 && Indexed(e)
  {
    && AllSettled(c, e, |e.running|) && NobodyFitsNow(c, e)
    && (|e.running| <= 1 || YoungestHolder(e.blocks, e.running, |e.running|) == |e.running|)
  }

  lemma ExhaustedSelects(c: Config, e: Sched)
    requires c.bs > 0 && Indexed(e) && Inv(c, e) && Exhausted(c, e)
    ensures Select(c, e) == (e, [])
  {
    hide Inv, Assemble, FreeInRange, Settled, NobodyFitsNow, Assembled, FreeFrom;
    SettledAssembles(c, e, 0, |e.pool.free|, []);
    AssemblesNothing(c, e);
  }

  /** Whoever is preempted last could not be admitted again. */
  lemma PreemptedTooLarge(c: Config, e: Sched, i: nat)
    requires c.bs > 0 && Inv(c, e) && Indexed(e) && i < |e.running| && NobodyFitsNow(c, e)
    ensures HeadTooLarge(c, PreemptAt(e, i))
  {
    hide Inv, FreeFrom, FreeInRange, Lacks, BlocksFor, SeqOk;
    RunningId(c, e, i);
    LacksAtMost(c, e, i);
    FreeAtMost(e.pool, e.blocks[e.running[i]].table);
  }

  /** A selection that ends empty has exhausted preemption. */
  lemma {:induction false} EmptySelection(c: Config, e: Sched)
    requires c.bs > 0 && Indexed(e) && Inv(c, e) && Select(c, e).1 == []
    ensures var t := Select(c, e).0;
            && Inv(c, t) && Exhausted(c, t)
            && (HeadTooLarge(c, t)
                || (t.waiting == e.waiting && t.running == e.running && t.sequences == e.sequences
                    && t.pool.free == e.pool.free))
    decreases |e.running|
  {
    hide Inv, Assemble, FreeFrom, FreeInRange, CacheRefs, NobodyFitsNow, AllSettled, Assembled, BlocksFor;
    AssemblesNothing(c, e);
    var (s, items) := Assemble(c, e, 0, |e.pool.free|, []);
    AssembledSame(c, e, s, items);
    var i := YoungestHolder(s.blocks, s.running, |s.running|);
    if |s.running| > 1 && i < |s.running| {
      PreemptKeeps(c, s, i);
      PreemptIndexed(c, s, i);
      PreemptedTooLarge(c, s, i);
      EmptySelection(c, PreemptAt(s, i));
    }
  }

  // ---- Steps --------------------------------------------------------------------------------

  /**
   Exactly when a step does nothing, with prefix caching on or off, whoever runs or waits: after admission
   and sharing, every running sequence lacks more blocks than the pool has beside those that stay taken however
   many are preempted. Blocks of the cache are among those: nothing evicts them.
   */
  lemma StepStalls(net: Net, c: Config, e: Sched, r: Result<()>, batch: seq<BatchItem>, tokens: seq<Token>,
                   t: Sched)
    requires Inv(c, e) && StepOutcome(net, c, e, r, batch, tokens, t)
    ensures Indexed(Admit(c, e)) && (batch == [] <==> Starving(c, AfterSharing(c, Admit(c, e))))
  {
    hide Inv, FreeInRange, Admit, Select, Starving, AfterSharing, ForwardOutcome;
    AdmitKeeps(c, e);
    SelectsNothing(c, Admit(c, e));
  }

  /** A step that does nothing has admitted nobody, and leaves a state in which no step does anything. */
  lemma EmptyStep(net: Net, c: Config, e: Sched, r: Result<()>, batch: seq<BatchItem>, tokens: seq<Token>, t: Sched)
    requires Inv(c, e) && StepOutcome(net, c, e, r, batch, tokens, t) && batch == []
    ensures c.bs > 0 && Indexed(e) && NobodyJoins(c, e) && Admit(c, e) == e
    ensures Inv(c, t) && Indexed(t) && NobodyJoins(c, t) && Exhausted(c, t)
  {
    hide Inv, FreeInRange, Select, Admit, ForwardOutcome, Exhausted, BlocksFor, CanAdmit;
    if !NobodyJoins(c, e) {
      AdmittedFit(c, e);
    }
    NobodyIsAdmitted(c, e);
    EmptySelection(c, e);
    InvHasPool(c, t);
    if t.waiting != [] {
      HeadNeeds(c, t);
      if !HeadTooLarge(c, t) {
        HeadNeeds(c, e);
      }
    }
  }

  /** An empty step is the last step that changes anything, until another request comes. */
  lemma EmptyStepIsLast(net: Net, c: Config, e: Sched, r: Result<()>, batch: seq<BatchItem>, tokens: seq<Token>,
                        t: Sched, r2: Result<()>, batch2: seq<BatchItem>, tokens2: seq<Token>, u: Sched)
    requires Inv(c, e) && StepOutcome(net, c, e, r, batch, tokens, t) && batch == []
    requires StepOutcome(net, c, t, r2, batch2, tokens2, u)
    ensures batch2 == [] && r2 == Ok(()) && u == t
  {
    hide Inv, FreeInRange, Select, Admit, ForwardOutcome, Exhausted, NobodyJoins;
    EmptyStep(net, c, e, r, batch, tokens, t);
    NobodyIsAdmitted(c, t);
    ExhaustedSelects(c, t);
  }

  // ---- With nothing or one sequence running -------------------------------------------------

  /** With nothing running the first queued request must fit the free list; if it does not, nothing changes. */
  lemma IdleStepStalls(net: Net, c: Config, e: Sched, r: Result<()>, batch: seq<BatchItem>, tokens: seq<Token>,
                       t: Sched)
    requires Inv(c, e) && c.maxBatch >= 1 && e.running == [] && e.waiting != []
    requires StepOutcome(net, c, e, r, batch, tokens, t)
    ensures e.waiting[0] < |e.sequences|
    ensures batch == [] <==> BlocksFor(c.bs, |e.sequences[e.waiting[0]].Context()|) > |e.pool.free|
    ensures batch == [] ==> r == Ok(()) && t == e
  {
    hide Inv, FreeInRange, ForwardOutcome, BlocksFor, Admit, Select, Exhausted, CanAdmit;
    InvHasPool(c, e);
    HeadNeeds(c, e);
    if batch == [] {
      EmptyStep(net, c, e, r, batch, tokens, t);
      NothingRuns(c, e);
    } else if NobodyJoins(c, e) {
      NobodyIsAdmitted(c, e);
      NothingRuns(c, e);
    }
  }

  lemma HeadBlocks(c: Config, e: Sched)
    requires c.bs > 0 && Indexed(e) && e.waiting != [] && !CanAdmit(c, e, e.waiting[0])
    ensures Admit(c, e) == e
  {
    hide FreeInRange, Admissible;
  }

  lemma NothingRuns(c: Config, e: Sched)
    requires c.bs > 0 && Indexed(e) && e.running == []
    ensures Select(c, e) == (e, [])
  {
    hide FreeInRange;
  }

  /** Blocks the sequence still lacks, after sharing, to hold its whole context. */
  ghost function Lacking(c: Config, e: Sched, id: nat): int
    requires c.bs > 0 && Indexed(e) && id < |e.sequences|
  {
    ShareForFrame(c, e, id);
    BlocksFor(c.bs, |e.sequences[id].Context()|) - |ShareFor(c, e, id).blocks[id].table|
  }

  lemma LoneSelects(c: Config, e: Sched)
    requires c.bs > 0 && Inv(c, e) && Indexed(e) && |e.running| == 1 && e.running[0] < |e.sequences|
    ensures Select(c, e).1 == [] <==> Lacking(c, e, e.running[0]) > |e.pool.free|
    ensures Select(c, e).1 == [] ==> Select(c, e) == (ShareFor(c, e, e.running[0]), [])
  {
    hide Inv, StepTokens, Delta, FreeInRange, ShareFor, BlocksFor, SeqOk, Assemble;
    var id := e.running[0];
    RunningId(c, e, 0);
    ShareForKeeps(c, e, id);
    ShareForFrame(c, e, id);
    var shared := ShareFor(c, e, id);
    RunningId(c, shared, 0);
    StepTokensAre(c.bs, shared.sequences[id], shared.blocks[id]);
    var tokens := StepTokens(shared.sequences[id], shared.blocks[id]);
    var delta := Delta(c.bs, shared.blocks[id], |tokens|);
    var n := |e.pool.free|;
    AssembleUnfold(c, e, 0, n, []);
    AssembleUnfold(c, shared, 1, n, []);
    AssembleUnfold(c, shared, 1, n - delta, [] + [BatchItem(id, tokens)]);
  }

  /**
   With one sequence running that nobody can join, what it lacks after sharing must be free; if it is not,
   the step only shares.
   */
  lemma LoneStepStalls(net: Net, c: Config, e: Sched, r: Result<()>, batch: seq<BatchItem>, tokens: seq<Token>,
                       t: Sched)
    requires Inv(c, e) && |e.running| == 1 && c.bs > 0 && NobodyJoins(c, e)
             && StepOutcome(net, c, e, r, batch, tokens, t)
    ensures Indexed(e) && e.running[0] < |e.sequences| && e.running[0] < |e.blocks|
    ensures batch == [] <==> Lacking(c, e, e.running[0]) > |e.pool.free|
    ensures batch == [] ==> r == Ok(()) && t == ShareFor(c, e, e.running[0])
    ensures !c.prefixCache || e.sequences[e.running[0]].prefilled || e.blocks[e.running[0]] != EMPTY_BLOCKS ==>
              ShareFor(c, e, e.running[0]) == e
  {
    hide Inv, FreeInRange, ForwardOutcome, BlocksFor, Admit, Select, ShareFor, Lacking, SeqOk;
    RunningId(c, e, 0);
    NobodyIsAdmitted(c, e);
    LoneSelects(c, e);
    SharesNothing(c, e, e.running[0]);
  }

  lemma SharesNothing(c: Config, e: Sched, id: nat)
    requires c.bs > 0 && Indexed(e) && id < |e.sequences|
    ensures !c.prefixCache || e.sequences[id].prefilled || e.blocks[id] != EMPTY_BLOCKS ==> ShareFor(c, e, id) == e
  {
  }
}
