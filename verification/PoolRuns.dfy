/**
 Runs of the block manager under any client: whatever tables are grown, shared, registered, freed and
 evicted in whatever order, every reference is accounted for.
 */
module PoolRuns {
  import opened BlockAllocators
  import opened PrefixCaches
  import opened BlockPools
  import opened BlockManagers
  import opened Arithmetic
  import opened Results

  /** A pool and the block tables of all its clients. */
  datatype Paging = Paging(pool: Pool, blocks: seq<SequenceBlocks>)

  datatype PoolOp =
    | Open
    | Reserve(id: nat, n: nat)
    | Commit(id: nat, n: nat)
    | Release(id: nat)
    | Acquire(id: nat, tokens: seq<int>)
    | Register(id: nat, tokens: seq<int>)
    | ClearCache

  /** One call on the manager. Ids name open tables; an unknown one is no call. */
  ghost predicate Calls(hash: HashBlock, bs: nat, m: Paging, op: PoolOp, n: Paging)
    requires bs > 0
  {
    match op
    case Open => n == m.(blocks := m.blocks + [EMPTY_BLOCKS])
    case Reserve(id, k) =>
      && id < |m.blocks| && FreeInRange(m.pool)
      && var (r, table, t) := ReserveFrom(m.pool, m.blocks[id].table, BlocksFor(bs, m.blocks[id].length + k));
         n == Paging(t, m.blocks[id := m.blocks[id].(table := table)])
    case Commit(id, k) =>
      id < |m.blocks| && n == m.(blocks := m.blocks[id := m.blocks[id].(length := m.blocks[id].length + k)])
    case Release(id) =>
      id < |m.blocks| && n == Paging(FreeFrom(m.pool, m.blocks[id].table), m.blocks[id := EMPTY_BLOCKS])
    case Acquire(id, tokens) =>
      && id < |m.blocks|
      && if m.blocks[id] != EMPTY_BLOCKS then n == m
         else
           var (table, t) := AcquireFrom(hash, bs, m.pool, tokens, []);
           n == Paging(t, m.blocks[id := SequenceBlocks(table, |table| * bs)])
    case Register(id, tokens) =>
      id < |m.blocks| && n == m.(pool := RegisterFrom(hash, bs, m.pool, m.blocks[id].table, tokens, 0))
    case ClearCache => Cleared(bs, m.pool, n.pool) && n.blocks == m.blocks
  }

  /**
   Every count is the number of places that name the block, in tables and in the cache; the free list
   names exactly the blocks of count zero, each once; and every block a table or an entry names has a
   holder to take away, so no free or incref throws.
   */
  ghost predicate Accounted(m: Paging) {
    && NoDuplicates(m.pool.free)
    && (forall b :: 0 <= b < |m.pool.count| ==> m.pool.count[b] == AllHeld(m.blocks)[b] + CacheRefs(m.pool.prefix)[b])
    && (forall b: nat :: b in m.pool.free <==> b < |m.pool.count| && m.pool.count[b] == 0)
    && (forall i, k :: 0 <= i < |m.blocks| && 0 <= k < |m.blocks[i].table| ==> Live(m.pool, m.blocks[i].table[k]))
    && (forall h, i :: IsEntry(m.pool.prefix, h, i) ==> Live(m.pool, m.pool.prefix[h][i].block))
  }

  ghost predicate Live(s: Pool, b: nat) {
    b < |s.count| && s.count[b] > 0
  }

  ghost predicate Balanced(bs: nat, m: Paging) {
    PoolValid(bs, m.pool) && m.pool.held == AllHeld(m.blocks)
  }

  lemma BalancedIsAccounted(bs: nat, m: Paging)
    requires Balanced(bs, m)
    ensures Accounted(m)
  {
    hide CacheRefs, AllHeld;
    forall i, k | 0 <= i < |m.blocks| && 0 <= k < |m.blocks[i].table|
      ensures Live(m.pool, m.blocks[i].table[k])
    {
      AllHeldAt(m.blocks, i, k);
      HeldIsLive(bs, m.pool, m.blocks[i].table[k]);
    }
    forall h, i | IsEntry(m.pool.prefix, h, i)
      ensures Live(m.pool, m.pool.prefix[h][i].block)
    {
      CachedIsLive(bs, m.pool, h, i);
    }
  }

  lemma CallKeeps(hash: HashBlock, bs: nat, m: Paging, op: PoolOp, n: Paging)
    requires bs > 0 && Balanced(bs, m) && Calls(hash, bs, m, op, n)
    ensures Balanced(bs, n) && |n.pool.count| == |m.pool.count|
  {
    hide PoolValid, CacheRefs, ReserveFrom, FreeFrom, AcquireFrom, RegisterFrom, BlocksFor, LongestRun, LookupBlock;
    hide Leading, SameButTicks, Describes, HasEvictable, AllHeld, Grown;
    match op
    case Open =>
      OpenedHeld(m.blocks);
    case Reserve(id, k) =>
      ReserveKeeps(bs, m.pool, m.blocks[id].table, BlocksFor(bs, m.blocks[id].length + k));
      TableGrows(m.blocks, id, n.blocks[id]);
    case Commit(id, k) =>
      AllHeldUpdate(m.blocks, id, n.blocks[id]);
    case Release(id) =>
      AllHeldUpdate(m.blocks, id, EMPTY_BLOCKS);
      FreeKeeps(bs, m.pool, m.blocks[id].table);
    case Acquire(id, tokens) =>
      assert 0 * bs == 0;
      AcquireKeeps(hash, bs, m.pool, tokens, []);
      if m.blocks[id] == EMPTY_BLOCKS {
        TableGrows(m.blocks, id, n.blocks[id]);
      }
    case Register(id, tokens) =>
      TableIsHeld(m.pool, m.blocks, id);
      RegisterKeeps(hash, bs, m.pool, m.blocks[id].table, tokens, 0);
    case ClearCache =>
  }

  lemma OpenedHeld(blocks: seq<SequenceBlocks>)
    ensures AllHeld(blocks + [EMPTY_BLOCKS]) == AllHeld(blocks)
  {
    assert (blocks + [EMPTY_BLOCKS])[..|blocks|] == blocks;
  }

  lemma TableIsHeld(s: Pool, blocks: seq<SequenceBlocks>, id: nat)
    requires id < |blocks| && s.held == AllHeld(blocks)
    ensures forall k :: 0 <= k < |blocks[id].table| ==> blocks[id].table[k] in s.held
  {
    hide AllHeld;
    forall k | 0 <= k < |blocks[id].table| {
      AllHeldAt(blocks, id, k);
    }
  }

  lemma TableGrows(blocks: seq<SequenceBlocks>, id: nat, b: SequenceBlocks)
    requires id < |blocks| && blocks[id].table <= b.table
    ensures AllHeld(blocks[id := b]) == AllHeld(blocks) + multiset(b.table[|blocks[id].table|..])
  {
    hide AllHeld;
    AllHeldUpdate(blocks, id, b);
    assert b.table == blocks[id].table + b.table[|blocks[id].table|..];
  }

  /** Conservation over whole runs: from a balanced pool, every sequence of calls ends in an accounted one. */
  lemma {:induction false} RunsAreAccounted(hash: HashBlock, bs: nat, ops: seq<PoolOp>, states: seq<Paging>)
    requires bs > 0 && |states| == |ops| + 1 && Balanced(bs, states[0])
    requires forall i :: 0 <= i < |ops| ==> Calls(hash, bs, states[i], ops[i], states[i + 1])
    ensures forall i :: 0 <= i < |states| ==>
              Balanced(bs, states[i]) && Accounted(states[i]) && |states[i].pool.count| == |states[0].pool.count|
    decreases |ops|
  {
    hide Balanced, Calls, Accounted;
    BalancedIsAccounted(bs, states[0]);
    if ops != [] {
      var n := |ops| - 1;
      RunsAreAccounted(hash, bs, ops[..n], states[..n + 1]);
      assert states[..n + 1][n] == states[n];
      CallKeeps(hash, bs, states[n], ops[n], states[n + 1]);
      BalancedIsAccounted(bs, states[n + 1]);
      assert forall i :: 0 <= i <= n ==> states[..n + 1][i] == states[i];
    }
  }

  /** The table an operation works on is open. */
  predicate Known(op: PoolOp, open: nat) {
    match op
    case Open => true
    case Reserve(id, _) => id < open
    case Commit(id, _) => id < open
    case Release(id) => id < open
    case Acquire(id, _) => id < open
    case Register(id, _) => id < open
    case ClearCache => true
  }

  /** Every reference of a table is there to be given back. */
  lemma ReferencesHeld(bs: nat, m: Paging)
    requires Balanced(bs, m)
    ensures FreeInRange(m.pool) && forall id :: 0 <= id < |m.blocks| ==> multiset(m.blocks[id].table) <= m.pool.held
  {
    hide PoolValid, AllHeld;
    ValidIsConsistent(bs, m.pool);
    forall id | 0 <= id < |m.blocks| {
      AllHeldUpdate(m.blocks, id, EMPTY_BLOCKS);
    }
  }

  method CallReserve(mgr: BlockManager, blocks: seq<SequenceBlocks>, id: nat, n: nat)
    returns (out: seq<SequenceBlocks>)
    requires mgr.Valid() && FreeInRange(mgr.State()) && id < |blocks|
    modifies mgr, mgr.alloc
    ensures mgr.Valid()
    ensures Calls(mgr.hash, mgr.bs, Paging(old(mgr.State()), blocks), Reserve(id, n), Paging(mgr.State(), out))
  {
    hide PoolValid, ReserveFrom, BlocksFor, FreeInRange;
    var r, grown := mgr.Reserve(blocks[id], n);
    out := blocks[id := grown];
  }

  method CallAcquire(mgr: BlockManager, blocks: seq<SequenceBlocks>, id: nat, tokens: seq<int>)
    returns (out: seq<SequenceBlocks>)
    requires mgr.Valid() && id < |blocks|
    modifies mgr, mgr.alloc
    ensures mgr.Valid()
    ensures Calls(mgr.hash, mgr.bs, Paging(old(mgr.State()), blocks), Acquire(id, tokens), Paging(mgr.State(), out))
  {
    hide PoolValid, AcquireFrom;
    var grown, matched := mgr.AcquireSharedPrefix(blocks[id], tokens);
    assert blocks[id := blocks[id]] == blocks;
    out := blocks[id := grown];
  }

  /** One call on the block manager is one step of the relation. */
  method Call(mgr: BlockManager, blocks: seq<SequenceBlocks>, op: PoolOp) returns (out: seq<SequenceBlocks>)
    requires mgr.Valid() && Balanced(mgr.bs, Paging(mgr.State(), blocks)) && Known(op, |blocks|)
    modifies mgr, mgr.alloc
    ensures mgr.Valid() && Calls(mgr.hash, mgr.bs, Paging(old(mgr.State()), blocks), op, Paging(mgr.State(), out))
  {
    hide PoolValid, CacheRefs, ReserveFrom, FreeFrom, AcquireFrom, RegisterFrom, BlocksFor, Cleared, Balanced, AllHeld;
    hide FreeInRange;
    ReferencesHeld(mgr.bs, Paging(mgr.State(), blocks));
    match op {
      case Open =>
        out := blocks + [EMPTY_BLOCKS];
      case Reserve(id, n) =>
        out := CallReserve(mgr, blocks, id, n);
      case Commit(id, n) =>
        out := blocks[id := blocks[id].(length := blocks[id].length + n)];
      case Release(id) =>
        var cleared := mgr.Free(blocks[id]);
        out := blocks[id := cleared];
      case Acquire(id, tokens) =>
        out := CallAcquire(mgr, blocks, id, tokens);
      case Register(id, tokens) =>
        mgr.RegisterPrefix(blocks[id], tokens);
        out := blocks;
      case ClearCache =>
        mgr.ClearPrefixCache();
        out := blocks;
    }
  }

  /** Any sequence of calls on a new block manager, by any number of clients, leaves every reference accounted for. */
  method DriveManager(numLayers: nat, bs: nat, numBlocks: nat, hash: HashBlock, ops: seq<PoolOp>)
    returns (mgr: BlockManager, blocks: seq<SequenceBlocks>)
    requires numLayers > 0 && bs > 0
    ensures mgr.Valid() && mgr.bs == bs && |mgr.alloc.refCount| == numBlocks
    ensures Balanced(bs, Paging(mgr.State(), blocks)) && Accounted(Paging(mgr.State(), blocks))
  {
    hide PoolValid, Calls, Accounted, CacheRefs;
    mgr := new BlockManager(numLayers, bs, numBlocks, hash);
    blocks := [];
    var n := 0;
    while n < |ops|
      invariant fresh(mgr) && fresh(mgr.alloc) && mgr.Valid() && mgr.bs == bs && |mgr.alloc.refCount| == numBlocks
      invariant Balanced(bs, Paging(mgr.State(), blocks))
    {
      if Known(ops[n], |blocks|) {
        ghost var before := Paging(mgr.State(), blocks);
        blocks := Call(mgr, blocks, ops[n]);
        CallKeeps(mgr.hash, bs, before, ops[n], Paging(mgr.State(), blocks));
      }
      n := n + 1;
    }
    BalancedIsAccounted(bs, Paging(mgr.State(), blocks));
  }

  /** When every table has been freed and the cache cleared, the whole pool is free again. */
  lemma NothingLeaks(bs: nat, m: Paging)
    requires Balanced(bs, m) && m.pool.prefix == map[] && forall i :: 0 <= i < |m.blocks| ==> m.blocks[i].table == []
    ensures |m.pool.free| == |m.pool.count|
  {
    AllHeldEmpty(m.blocks);
    NothingHeldAllFree(bs, m.pool);
  }

  // ---- A registered block is lost -----------------------------------------------------------

  /** The one entry of a pool of one block. */
  function OnlyEntry(hash: HashBlock, tokens: seq<int>): Prefixes {
    map[hash(0, tokens) := [PrefixEntry(0, tokens, 0, 1)]]
  }

  lemma TakesOnly(bs: nat)
    requires bs > 0
    ensures BlocksFor(bs, 0 + bs) == 1 && FreeInRange(FreshPool(1))
    ensures ReserveFrom(FreshPool(1), [], 1) == (Ok(()), [0], Pool([], [1], map[], 0, multiset{0}, {}))
  {
    QuotientOf(bs, 1, bs - 1);
    hide BlocksFor;
    var s, t := FreshPool(1), Pool([], [1], map[], 0, multiset{0}, {});
    assert s.free == [0] && s.count == [0] && [0][..0] == [] && [0][0 := 1] == [1];
    assert multiset{} + multiset{0} == multiset{0};
    assert AllocateFrom(s) == (Ok(0), t);
    assert [] + [0] == [0] && ReserveFrom(t, [0], 1) == (Ok(()), [0], t);
  }

  lemma RegistersOnly(hash: HashBlock, bs: nat, tokens: seq<int>)
    requires bs > 0 && |tokens| == bs && 0 * bs + bs <= |tokens|
    ensures RegisterFrom(hash, bs, Pool([], [1], map[], 0, multiset{0}, {}), [0], tokens, 0)
            == Pool([], [2], OnlyEntry(hash, tokens), 1, multiset{0}, {[]})
    ensures LookupBlock(hash, bs, OnlyEntry(hash, tokens), tokens, 0) == Some(0)
  {
    var s := Pool([], [1], map[], 0, multiset{0}, {});
    assert Leading(tokens, bs, 0) == [] && Span(tokens, bs, 0) == tokens && Chain(hash, bs, []) == 0;
    assert [] + [PrefixEntry(0, tokens, 0, 1)] == [PrefixEntry(0, tokens, 0, 1)] && [1][0 := 2] == [2];
    assert {} + {Leading(tokens, bs, 0)} == {[]};
    assert Insert(hash, bs, s, 0, tokens, 0) == Pool([], [2], OnlyEntry(hash, tokens), 1, multiset{0}, {[]});
  }

  lemma GivesBackOnly(p: Prefixes)
    ensures FreeFrom(Pool([], [2], p, 1, multiset{0}, {[]}), [0]) == Pool([], [1], p, 1, multiset{}, {[]})
  {
    var s, t := Pool([], [2], p, 1, multiset{0}, {[]}), Pool([], [1], p, 1, multiset{}, {[]});
    assert [2][0 := 1] == [1] && multiset{0} - multiset{0} == multiset{};
    assert BlockPools.Release(s, 0) == t && [0][1..] == [] && FreeFrom(t, []) == t;
  }

  /** Nothing is free and the entry's block is held by the cache alone, so it goes. */
  lemma OnlyGoes(hash: HashBlock, tokens: seq<int>)
    ensures Evict(Pool([], [1], OnlyEntry(hash, tokens), 1, multiset{}, {[]}))
            == Pool([0], [0], map[], 1, multiset{}, {[]})
  {
    var h, s := hash(0, tokens), Pool([], [1], OnlyEntry(hash, tokens), 1, multiset{}, {[]});
    assert Evictable(s.prefix, s.count, h, 0);
    assert IsVictim(s.prefix, s.count, h, 0);
    assert Victim(s) == (h, 0);
    hide HasVictim, Victim, IsVictim;
    OnlyWithout(hash, tokens);
    assert [1][0 := 0] == [0] && [] + [0] == [0];
  }

  lemma OnlyWithout(hash: HashBlock, tokens: seq<int>)
    ensures Without(OnlyEntry(hash, tokens), hash(0, tokens), 0) == map[]
  {
    var p := OnlyEntry(hash, tokens);
    assert p[hash(0, tokens)][..0] + p[hash(0, tokens)][1..] == [];
  }

  lemma EvictsOnly(hash: HashBlock, bs: nat, tokens: seq<int>)
    requires bs > 0
    ensures var s := Pool([], [1], OnlyEntry(hash, tokens), 1, multiset{}, {[]});
            FreeInRange(s) && ReserveFrom(s, [], 1) == (Ok(()), [0], Pool([], [1], map[], 1, multiset{0}, {[]}))
  {
    hide Evict, OnlyEntry;
    OnlyGoes(hash, tokens);
    var s, t := Pool([], [1], OnlyEntry(hash, tokens), 1, multiset{}, {[]}), Pool([], [1], map[], 1, multiset{0}, {[]});
    assert [0][..0] == [] && [0][0 := 1] == [1] && multiset{} + multiset{0} == multiset{0};
    assert AllocateFrom(s) == (Ok(0), t);
    assert [] + [0] == [0] && ReserveFrom(t, [0], 1) == (Ok(()), [0], t);
  }

  /**
   A registered block is lost without anybody clearing the cache: in a pool of one block, a client fills the
   block, registers it and gives it back, and another client asks for a block.
   */
  method EvictingRun(numLayers: nat, bs: nat, hash: HashBlock, tokens: seq<int>)
    returns (mgr: BlockManager, ghost registered: Prefixes)
    requires numLayers > 0 && bs > 0 && |tokens| == bs
    ensures mgr.Valid() && mgr.bs == bs && mgr.hash == hash
    ensures 0 * bs + bs <= |tokens| && LookupBlock(hash, bs, registered, tokens, 0) == Some(0)
    ensures mgr.prefix == map[] && LookupBlock(hash, bs, mgr.prefix, tokens, 0) == None
  {
    hide PoolValid, ReserveFrom, FreeFrom, RegisterFrom, LookupBlock, BlocksFor, FreshPool, FreeInRange;
    TakesOnly(bs);
    RegistersOnly(hash, bs, tokens);
    GivesBackOnly(OnlyEntry(hash, tokens));
    EvictsOnly(hash, bs, tokens);
    mgr := new BlockManager(numLayers, bs, 1, hash);
    var r, mine := mgr.Reserve(EMPTY_BLOCKS, bs);
    mgr.RegisterPrefix(mine, tokens);
    registered := mgr.prefix;
    var cleared := mgr.Free(mine);
    var r2, other := mgr.Reserve(EMPTY_BLOCKS, bs);
    NothingFound(hash, bs, tokens);
  }

  lemma NothingFound(hash: HashBlock, bs: nat, tokens: seq<int>)
    requires bs > 0 && 0 * bs + bs <= |tokens|
    ensures LookupBlock(hash, bs, map[], tokens, 0) == None
  {
  }
}
