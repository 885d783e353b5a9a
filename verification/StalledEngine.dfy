/**
 A reachable state in which the engine has work for ever and never does any. With prefix caching on,
 blocks that only the cache holds do not count as free for admission, and nothing evicts them.
 */
module StalledEngines {
  import opened Results
  import opened Network
  import opened Sampler
  import opened PrefixCaches
  import opened BlockPools
  import opened ForwardBatches
  import opened Schedulers
  import opened SchedulerInvariants
  import opened EngineContents
  import opened StepRelations
  import opened Progress
  import opened Stalls
  import opened Engines
  import opened EngineRuns

  // A pool of two blocks of one row each, one slot in the batch, and two sampled requests.

  const FIRST: Request := Request([0], SamplingParams(1.0, 0, 1.0), 2, -1)
  const SECOND: Request := Request([0, 0], SamplingParams(1.0, 0, 1.0), 1, -1)

  function Setting(hash: HashBlock): Config {
    Config(1, hash, 1, true)
  }

  const FRESH_POOL: Pool := Pool([1, 0], [0, 0], map[], 0, multiset{}, {})

  /** The first request has been queued. */
  function Start(): Sched {
    Sched(FRESH_POOL, [EMPTY_BLOCKS], [EngineSequence(FIRST, [], Waiting, false)], [0], [], 0)
  }

  function Entry(): PrefixEntry {
    PrefixEntry(0, [0], 0, 1)
  }

  /** It has been prefilled into block 0, which is cached now, and has one token. */
  function Prefilled(hash: HashBlock, x: Token): Sched {
    Sched(Pool([1], [2, 0], map[hash(0, [0]) := [Entry()]], 1, multiset{0}, {[]}),
          [SequenceBlocks([0], 1)], [EngineSequence(FIRST, [x], Running, true)], [], [0], 0)
  }

  /** It has its second token and is gone; the cache keeps block 0. */
  function Over(hash: HashBlock, x: Token, y: Token): Sched {
    Sched(Pool([1], [1, 0], map[hash(0, [0]) := [Entry()]], 1, multiset{}, {[]}),
          [EMPTY_BLOCKS], [EngineSequence(FIRST, [x, y], Finished, true)], [], [], 0)
  }

  /** The second request, which would fit the empty pool, has been queued. */
  function Stalled(hash: HashBlock, x: Token, y: Token): Sched {
    Queued(Over(hash, x, y), SECOND)
  }

  lemma BlockCounts()
    ensures BlocksFor(1, 1) == 1 && BlocksFor(1, 2) == 2 && BlocksFor(1, 0) == 0
  {
  }

  // ---- The first step -----------------------------------------------------------------------

  lemma StartAdmits(hash: HashBlock)
    ensures Indexed(Start())
    ensures Admit(Setting(hash), Start()) == AdmitFirst(Start())
  {
    BlockCounts();
    hide BlocksFor;
    var next := AdmitFirst(Start());
    assert next.waiting == [];
    assert Admit(Setting(hash), next) == next;
  }

  lemma StartSelects(hash: HashBlock)
    ensures Indexed(AdmitFirst(Start()))
    ensures Select(Setting(hash), AdmitFirst(Start())) == (AdmitFirst(Start()), [BatchItem(0, [0])])
  {
    BlockCounts();
    hide BlocksFor;
    var a := AdmitFirst(Start());
    assert a.running == [0] && a.sequences[0].Context() == [0];
    assert ShareCap(1, [0]) == 0;
    assert ShareFor(Setting(hash), a, 0) == a;
    assert StepTokens(a.sequences[0], a.blocks[0]) == [0];
    assert Delta(1, a.blocks[0], 1) == 1;
    assert Assemble(Setting(hash), a, 1, 1, [BatchItem(0, [0])]) == (a, [BatchItem(0, [0])]);
    assert [] + [BatchItem(0, [0])] == [BatchItem(0, [0])];
    assert Assemble(Setting(hash), a, 0, 2, []) == (a, [BatchItem(0, [0])]);
  }

  /** The pool after the first reservation. */
  const ONE_RESERVED: Pool := Pool([1], [1, 0], map[], 0, multiset{0}, {})

  lemma StartReserves()
    ensures FreeInRange(FRESH_POOL)
    ensures ReserveItems(1, FRESH_POOL, [EMPTY_BLOCKS], [BatchItem(0, [0])], 0)
            == (Ok(()), [SequenceBlocks([0], 0)], ONE_RESERVED)
  {
    BlockCounts();
    hide BlocksFor;
    assert [1, 0][..1] == [1] && [0, 0][0 := 1] == [1, 0] && multiset{} + multiset{0} == multiset{0};
    assert AllocateFrom(FRESH_POOL) == (Ok(0), ONE_RESERVED);
    assert ReserveFrom(ONE_RESERVED, [0], 1) == (Ok(()), [0], ONE_RESERVED);
    assert [] + [0] == [0];
    assert ReserveFrom(FRESH_POOL, [], 1) == (Ok(()), [0], ONE_RESERVED);
    assert [EMPTY_BLOCKS][0 := SequenceBlocks([0], 0)] == [SequenceBlocks([0], 0)];
    assert ReserveItems(1, ONE_RESERVED, [SequenceBlocks([0], 0)], [BatchItem(0, [0])], 1)
           == (Ok(()), [SequenceBlocks([0], 0)], ONE_RESERVED);
  }

  lemma StartRegisters(hash: HashBlock)
    ensures RegisterFrom(hash, 1, ONE_RESERVED, [0], [0], 0) == Prefilled(hash, 0).pool
  {
    assert Leading([0], 1, 0) == [] && Span([0], 1, 0) == [0] && Chain(hash, 1, []) == 0;
    assert [] + [Entry()] == [Entry()] && [1, 0][0 := 2] == [2, 0];
    assert {} + {Leading([0], 1, 0)} == {[]};
    assert Insert(hash, 1, ONE_RESERVED, 0, [0], 0) == Prefilled(hash, 0).pool;
  }

  lemma StartTakes(hash: HashBlock, x: Token)
    ensures var mid := AdmitFirst(Start()).(pool := ONE_RESERVED, blocks := [SequenceBlocks([0], 1)]);
            Indexed(mid) && Retire(TakeAll(Setting(hash), mid, [BatchItem(0, [0])], [x])) == Prefilled(hash, x)
  {
    var mid := AdmitFirst(Start()).(pool := ONE_RESERVED, blocks := [SequenceBlocks([0], 1)]);
    StartRegisters(hash);
    hide RegisterFrom;
    assert mid.sequences[0].Context() == [0] && [] + [x] == [x];
    assert [x][..0] == [];
    assert TakeAll(Setting(hash), mid, [BatchItem(0, [0])], []) == mid;
    var t := Take(Setting(hash), mid, 0, x);
    assert t == Prefilled(hash, x);
    assert Unfinished(t.sequences, []) == [] && [0][..0] == [];
    assert Unfinished(t.sequences, [0]) == [0];
  }

  /** Whatever token it samples, the first step leaves the first request prefilled and cached. */
  lemma FirstStep(net: Net, hash: HashBlock, r: Result<()>, batch: seq<BatchItem>, tokens: seq<Token>, t: Sched)
    requires net.vocab > 0 && StepOutcome(net, Setting(hash), Start(), r, batch, tokens, t)
    ensures |tokens| == 1 && InVocab(net, tokens[0]) && t == Prefilled(hash, tokens[0])
  {
    hide Admit, Select, ReserveItems, TakeAll, Retire, AdmitFirst, FreeInRange, Committed;
    StartAdmits(hash);
    StartSelects(hash);
    StartReserves();
    AdmittedStart();
    var sel, items := AdmitFirst(Start()), [BatchItem(0, [0])];
    assert ItemsInVocab(net, items);
    var out :| Committed([SequenceBlocks([0], 0)], items, out)
               && TookTokens(Setting(hash), sel.(pool := ONE_RESERVED, blocks := out), items, tokens, t);
    OneCommitted(SequenceBlocks([0], 0), 0, out);
    assert tokens == [tokens[0]];
    StartTakes(hash, tokens[0]);
  }

  lemma OneCommitted(b: SequenceBlocks, x: Token, out: seq<SequenceBlocks>)
    requires Committed([b], [BatchItem(0, [x])], out)
    ensures out == [b.(length := b.length + 1)]
  {
    var items := [BatchItem(0, [x])];
    assert items[0].seqIndex == 0;
  }

  lemma AdmittedStart()
    ensures var sel := AdmitFirst(Start());
            sel.pool == FRESH_POOL && sel.blocks == [EMPTY_BLOCKS] && |sel.sequences| == 1
  {
  }

  // ---- The second step ----------------------------------------------------------------------

  lemma SecondSelects(hash: HashBlock, x: Token)
    ensures Indexed(Prefilled(hash, x)) && Admit(Setting(hash), Prefilled(hash, x)) == Prefilled(hash, x)
    ensures Select(Setting(hash), Prefilled(hash, x)) == (Prefilled(hash, x), [BatchItem(0, [x])])
  {
    BlockCounts();
    hide BlocksFor;
    var a := Prefilled(hash, x);
    assert StepTokens(a.sequences[0], a.blocks[0]) == [x];
    assert Delta(1, a.blocks[0], 1) == 1;
    assert Assemble(Setting(hash), a, 1, 0, [BatchItem(0, [x])]) == (a, [BatchItem(0, [x])]);
    assert [] + [BatchItem(0, [x])] == [BatchItem(0, [x])];
    assert Assemble(Setting(hash), a, 0, 1, []) == (a, [BatchItem(0, [x])]);
  }

  function TwoReserved(hash: HashBlock): Pool {
    Pool([], [2, 1], map[hash(0, [0]) := [Entry()]], 1, multiset{0, 1}, {[]})
  }

  lemma SecondReserves(hash: HashBlock, x: Token)
    ensures FreeInRange(Prefilled(hash, x).pool)
    ensures ReserveItems(1, Prefilled(hash, x).pool, [SequenceBlocks([0], 1)], [BatchItem(0, [x])], 0)
            == (Ok(()), [SequenceBlocks([0, 1], 1)], TwoReserved(hash))
  {
    BlockCounts();
    hide BlocksFor;
    var s, t := Prefilled(hash, x).pool, TwoReserved(hash);
    assert [1][..0] == [] && [2, 0][1 := 1] == [2, 1] && multiset{0} + multiset{1} == multiset{0, 1};
    assert AllocateFrom(s) == (Ok(1), t);
    assert ReserveFrom(t, [0, 1], 2) == (Ok(()), [0, 1], t);
    assert [0] + [1] == [0, 1];
    assert ReserveFrom(s, [0], 2) == (Ok(()), [0, 1], t);
    assert [SequenceBlocks([0], 1)][0 := SequenceBlocks([0, 1], 1)] == [SequenceBlocks([0, 1], 1)];
    assert ReserveItems(1, t, [SequenceBlocks([0, 1], 1)], [BatchItem(0, [x])], 1)
           == (Ok(()), [SequenceBlocks([0, 1], 1)], t);
  }

  lemma SecondFrees(hash: HashBlock)
    ensures FreeFrom(TwoReserved(hash), [0, 1]) == Over(hash, 0, 0).pool
  {
    var s := TwoReserved(hash);
    var t := Release(s, 0);
    assert t == s.(count := [1, 1], held := multiset{1});
    var u := Release(t, 1);
    assert u == Over(hash, 0, 0).pool;
    assert [0, 1][1..] == [1] && [1][1..] == [];
    assert FreeFrom(u, []) == u;
    assert FreeFrom(t, [1]) == u;
  }

  lemma SecondTakes(hash: HashBlock, x: Token, y: Token)
    ensures var mid := Prefilled(hash, x).(pool := TwoReserved(hash), blocks := [SequenceBlocks([0, 1], 2)]);
            Indexed(mid) && Retire(TakeAll(Setting(hash), mid, [BatchItem(0, [x])], [y])) == Over(hash, x, y)
  {
    hide FreeFrom, TakeAll;
    var mid := Prefilled(hash, x).(pool := TwoReserved(hash), blocks := [SequenceBlocks([0, 1], 2)]);
    SecondFrees(hash);
    assert [x] + [y] == [x, y] && [] + [y] == [y];
    TakeNone(Setting(hash), mid, [BatchItem(0, [x])]);
    TakeOneMore(Setting(hash), mid, [BatchItem(0, [x])], [], y);
    var t := Over(hash, x, y).(running := [0]);
    assert Take(Setting(hash), mid, 0, y) == t;
    assert Unfinished(t.sequences, [0][..0]) == [];
  }

  /** Whatever token it samples, the second step finishes the first request. */
  lemma SecondStep(net: Net, hash: HashBlock, x: Token, r: Result<()>, batch: seq<BatchItem>, tokens: seq<Token>,
                   t: Sched)
    requires InVocab(net, x) && StepOutcome(net, Setting(hash), Prefilled(hash, x), r, batch, tokens, t)
    ensures |tokens| == 1 && t == Over(hash, x, tokens[0])
  {
    hide Admit, Select, ReserveItems, TakeAll, Retire, FreeInRange, Committed;
    SecondSelects(hash, x);
    SecondReserves(hash, x);
    var sel, items := Prefilled(hash, x), [BatchItem(0, [x])];
    assert ItemsInVocab(net, items);
    var out :| Committed([SequenceBlocks([0, 1], 1)], items, out)
               && TookTokens(Setting(hash), sel.(pool := TwoReserved(hash), blocks := out), items, tokens, t);
    OneCommitted(SequenceBlocks([0, 1], 1), x, out);
    assert tokens == [tokens[0]];
    SecondTakes(hash, x, tokens[0]);
  }

  // ---- The stall ----------------------------------------------------------------------------

  /** Every request would fit the empty pool, there is work, and yet no step ever changes anything. */
  lemma StalledForEver(net: Net, hash: HashBlock, x: Token, y: Token, r: Result<()>, batch: seq<BatchItem>,
                       tokens: seq<Token>, t: Sched)
    requires StepOutcome(net, Setting(hash), Stalled(hash, x, y), r, batch, tokens, t)
    ensures Busy(Stalled(hash, x, y)) && FitsPool(1, SECOND, |Stalled(hash, x, y).pool.count|)
    ensures batch == [] && t == Stalled(hash, x, y)
  {
    BlockCounts();
    hide BlocksFor, ForwardOutcome, Assemble;
    var e := Stalled(hash, x, y);
    assert e.waiting == [1] && e.running == [] && e.sequences[1].Context() == [0, 0] && e.blocks[1] == EMPTY_BLOCKS;
    HeadBlocks(Setting(hash), e);
    NothingRuns(Setting(hash), e);
  }

  lemma StartIsQueued()
    ensures Start() == Queued(Sched(FreshPool(2), [], [], [], [], 0), FIRST)
  {
    assert FreshPool(2) == FRESH_POOL;
  }

  /** A new engine is given the first request and steps twice. */
  method FirstOver(net: Net, hash: HashBlock) returns (engine: Engine, ghost x: Token, ghost y: Token)
    requires net.layers > 0 && net.vocab > 0
    ensures fresh(engine) && fresh(engine.mgr) && fresh(engine.mgr.alloc)
            && fresh(engine.mgr.keys) && fresh(engine.mgr.values)
    ensures engine.Valid() && engine.net == net && engine.Cfg() == Setting(hash)
    ensures engine.State() == Over(hash, x, y)
  {
    hide Inv, Sound, FreeInRange, StepOutcome, Start, Prefilled, Over, StepFromRows, PoolValid;
    engine := new Engine(net, 1, 2, hash, 1, true);
    var first := engine.AddRequest(FIRST);
    StartIsQueued();
    ValidIsIndexed(Setting(hash), engine.State());
    var r, batch, tokens := engine.Step();
    FirstStep(net, hash, r, batch, tokens, engine.State());
    x := tokens[0];
    ValidIsIndexed(Setting(hash), engine.State());
    r, batch, tokens := engine.Step();
    SecondStep(net, hash, x, r, batch, tokens, engine.State());
    y := tokens[0];
  }

  /**
   A new engine is given the first request, steps twice and is given the second one. Whatever tokens it
   sampled, it now has work, and no number of further steps does any of it.
   */
  method StalledRun(net: Net, hash: HashBlock, moreSteps: nat) returns (engine: Engine)
    requires net.layers > 0 && net.vocab > 0
    ensures engine.Valid() && engine.net == net && engine.Cfg() == Setting(hash)
    ensures exists x, y :: engine.State() == Stalled(hash, x, y)
    ensures Busy(engine.State()) && |engine.sequences| == 2
    ensures engine.sequences[1].status == Waiting
            && FitsPool(1, engine.sequences[1].request, |engine.State().pool.count|)
  {
    hide Inv, Sound, FreeInRange, StepOutcome, Over, StepFromRows, PoolValid, FitsPool;
    ghost var x, y;
    engine, x, y := FirstOver(net, hash);
    var second := engine.AddRequest(SECOND);
    var n := 0;
    while n < moreSteps
      invariant fresh(engine) && fresh(engine.mgr) && fresh(engine.mgr.alloc)
                && fresh(engine.mgr.keys) && fresh(engine.mgr.values)
      invariant engine.Valid() && engine.net == net && engine.Cfg() == Setting(hash)
      invariant engine.State() == Stalled(hash, x, y)
    {
      ValidIsIndexed(Setting(hash), engine.State());
      var r, batch, tokens := engine.Step();
      StalledForEver(net, hash, x, y, r, batch, tokens, engine.State());
      n := n + 1;
    }
    StalledIsBusy(hash, x, y);
  }

  lemma StalledIsBusy(hash: HashBlock, x: Token, y: Token)
    ensures var e := Stalled(hash, x, y);
            && Busy(e) && |e.sequences| == 2 && e.sequences[1] == EngineSequence(SECOND, [], Waiting, false)
            && FitsPool(1, SECOND, |e.pool.count|)
  {
    BlockCounts();
    hide BlocksFor;
  }

  // ---- A running request that starves -------------------------------------------------------

  /** The first request has come back and runs; its one block and the cached one are the whole pool. */
  function Starved(hash: HashBlock, x: Token, y: Token, z: Token): Sched {
    Sched(Pool([], [1, 1], map[hash(0, [0]) := [Entry()]], 1, multiset{1}, {[]}),
          [EMPTY_BLOCKS, SequenceBlocks([1], 1)],
          [EngineSequence(FIRST, [x, y], Finished, true), EngineSequence(FIRST, [z], Running, true)], [], [1], 0)
  }

  /** The state between its admission and its first token. */
  function Back(hash: HashBlock, x: Token, y: Token): Sched {
    Over(hash, x, y).(blocks := [EMPTY_BLOCKS, EMPTY_BLOCKS], running := [1],
      sequences := [EngineSequence(FIRST, [x, y], Finished, true), EngineSequence(FIRST, [], Running, false)])
  }

  const COMES_BACK: seq<BatchItem> := [BatchItem(1, [0])]

  lemma BackAdmits(hash: HashBlock, x: Token, y: Token)
    ensures var q := Queued(Over(hash, x, y), FIRST);
            Indexed(q) && Indexed(Back(hash, x, y)) && Admit(Setting(hash), q) == Back(hash, x, y)
  {
    BlockCounts();
    hide BlocksFor;
    var q := Queued(Over(hash, x, y), FIRST);
    assert q.waiting == [1] && q.blocks == [EMPTY_BLOCKS, EMPTY_BLOCKS];
    assert AdmitFirst(q) == Back(hash, x, y);
    hide Admit, AdmitFirst;
    AdmitUnfold(Setting(hash), q);
    AdmitUnfold(Setting(hash), Back(hash, x, y));
  }

  lemma BackSelects(hash: HashBlock, x: Token, y: Token)
    ensures Indexed(Back(hash, x, y)) && Select(Setting(hash), Back(hash, x, y)) == (Back(hash, x, y), COMES_BACK)
  {
    BlockCounts();
    hide BlocksFor;
    var a := Back(hash, x, y);
    assert a.sequences[1].Context() == [0] && ShareCap(1, [0]) == 0;
    assert ShareFor(Setting(hash), a, 1) == a;
    assert StepTokens(a.sequences[1], a.blocks[1]) == [0] && Delta(1, EMPTY_BLOCKS, 1) == 1;
    assert Assemble(Setting(hash), a, 1, 0, COMES_BACK) == (a, COMES_BACK);
    assert [] + [BatchItem(1, [0])] == COMES_BACK;
    assert Assemble(Setting(hash), a, 0, 1, []) == (a, COMES_BACK);
  }

  function BackReserved(hash: HashBlock): Pool {
    Pool([], [1, 1], map[hash(0, [0]) := [Entry()]], 1, multiset{1}, {[]})
  }

  lemma BackReserves(hash: HashBlock, x: Token, y: Token)
    ensures FreeInRange(Back(hash, x, y).pool)
    ensures ReserveItems(1, Back(hash, x, y).pool, [EMPTY_BLOCKS, EMPTY_BLOCKS], COMES_BACK, 0)
            == (Ok(()), [EMPTY_BLOCKS, SequenceBlocks([1], 0)], BackReserved(hash))
  {
    BlockCounts();
    hide BlocksFor;
    var s, t := Back(hash, x, y).pool, BackReserved(hash);
    assert [1][..0] == [] && [1, 0][1 := 1] == [1, 1] && multiset{} + multiset{1} == multiset{1};
    assert AllocateFrom(s) == (Ok(1), t);
    assert [] + [1] == [1] && ReserveFrom(t, [1], 1) == (Ok(()), [1], t);
    assert ReserveFrom(s, [], 1) == (Ok(()), [1], t);
    var grown := [EMPTY_BLOCKS, SequenceBlocks([1], 0)];
    assert [EMPTY_BLOCKS, EMPTY_BLOCKS][1 := SequenceBlocks([1], 0)] == grown;
    assert ReserveItems(1, t, grown, COMES_BACK, 1) == (Ok(()), grown, t);
  }

  /** Its block is not cached: the block of the first time is found instead. */
  lemma BackRegisters(hash: HashBlock)
    ensures RegisterFrom(hash, 1, BackReserved(hash), [1], [0], 0) == BackReserved(hash)
  {
    assert Leading([0], 1, 0) == [] && Span([0], 1, 0) == [0] && Chain(hash, 1, []) == 0;
    assert {[]} + {Leading([0], 1, 0)} == {[]};
    assert Insert(hash, 1, BackReserved(hash), 1, [0], 0) == BackReserved(hash);
  }

  lemma BackTakes(hash: HashBlock, x: Token, y: Token, z: Token)
    ensures var mid := Back(hash, x, y).(pool := BackReserved(hash), blocks := [EMPTY_BLOCKS, SequenceBlocks([1], 1)]);
            Indexed(mid) && Retire(TakeAll(Setting(hash), mid, COMES_BACK, [z])) == Starved(hash, x, y, z)
  {
    hide RegisterFrom, TakeAll;
    var mid := Back(hash, x, y).(pool := BackReserved(hash), blocks := [EMPTY_BLOCKS, SequenceBlocks([1], 1)]);
    BackRegisters(hash);
    assert mid.sequences[1].Context() == [0] && [] + [z] == [z];
    TakeNone(Setting(hash), mid, COMES_BACK);
    TakeOneMore(Setting(hash), mid, COMES_BACK, [], z);
    var t := Starved(hash, x, y, z);
    assert Take(Setting(hash), mid, 1, z) == t;
    assert Unfinished(t.sequences, [1][..0]) == [] && [] + [1] == [1];
  }

  lemma BackCommitted(out: seq<SequenceBlocks>)
    requires Committed([EMPTY_BLOCKS, SequenceBlocks([1], 0)], COMES_BACK, out)
    ensures out == [EMPTY_BLOCKS, SequenceBlocks([1], 1)]
  {
    assert COMES_BACK[0].seqIndex == 1 && NotAnItem(COMES_BACK, 0, 0);
  }

  lemma ThirdStep(net: Net, hash: HashBlock, x: Token, y: Token, r: Result<()>, batch: seq<BatchItem>,
                  tokens: seq<Token>, t: Sched)
    requires net.vocab > 0 && StepOutcome(net, Setting(hash), Queued(Over(hash, x, y), FIRST), r, batch, tokens, t)
    ensures |tokens| == 1 && t == Starved(hash, x, y, tokens[0])
  {
    hide Admit, Select, ReserveItems, TakeAll, Retire, FreeInRange, Committed, Queued;
    BackAdmits(hash, x, y);
    BackSelects(hash, x, y);
    BackReserves(hash, x, y);
    var sel := Back(hash, x, y);
    assert ItemsInVocab(net, COMES_BACK);
    var out :| Committed([EMPTY_BLOCKS, SequenceBlocks([1], 0)], COMES_BACK, out)
               && TookTokens(Setting(hash), sel.(pool := BackReserved(hash), blocks := out), COMES_BACK, tokens, t);
    BackCommitted(out);
    assert tokens == [tokens[0]];
    BackTakes(hash, x, y, tokens[0]);
  }

  /** It lacks a block for its next token, none is free, and nothing evicts the cached one. */
  lemma StarvedForEver(net: Net, hash: HashBlock, x: Token, y: Token, z: Token, r: Result<()>, batch: seq<BatchItem>,
                       tokens: seq<Token>, t: Sched)
    requires StepOutcome(net, Setting(hash), Starved(hash, x, y, z), r, batch, tokens, t)
    requires Inv(Setting(hash), Starved(hash, x, y, z))
    ensures batch == [] && t == Starved(hash, x, y, z)
  {
    hide Inv, StepOutcome, Lacking;
    BlockCounts();
    var e := Starved(hash, x, y, z);
    LoneStepStalls(net, Setting(hash), e, r, batch, tokens, t);
    StarvedLacks(hash, x, y, z);
  }

  lemma StarvedLacks(hash: HashBlock, x: Token, y: Token, z: Token)
    ensures Indexed(Starved(hash, x, y, z)) && Lacking(Setting(hash), Starved(hash, x, y, z), 1) == 1
    ensures FitsPool(1, FIRST, 2)
  {
    BlockCounts();
    hide BlocksFor;
    assert Starved(hash, x, y, z).sequences[1].Context() == [0, z];
  }

  /**
   The first request comes back after it has finished: it runs, gets one token, and then, whatever tokens
   were sampled, no number of further steps gives it its second.
   */
  method StarvedRun(net: Net, hash: HashBlock, moreSteps: nat) returns (engine: Engine)
    requires net.layers > 0 && net.vocab > 0
    ensures engine.Valid() && engine.net == net && engine.Cfg() == Setting(hash)
    ensures exists x, y, z :: engine.State() == Starved(hash, x, y, z)
    ensures FitsPool(1, FIRST, 2)
  {
    hide Inv, Sound, FreeInRange, StepOutcome, Over, Starved, StepFromRows, PoolValid, Queued, FitsPool;
    ghost var x, y;
    engine, x, y := FirstOver(net, hash);
    var again := engine.AddRequest(FIRST);
    ValidIsIndexed(Setting(hash), engine.State());
    var r, batch, tokens := engine.Step();
    ThirdStep(net, hash, x, y, r, batch, tokens, engine.State());
    ghost var z := tokens[0];
    var n := 0;
    while n < moreSteps
      invariant fresh(engine) && fresh(engine.mgr) && fresh(engine.mgr.alloc)
                && fresh(engine.mgr.keys) && fresh(engine.mgr.values)
      invariant engine.Valid() && engine.net == net && engine.Cfg() == Setting(hash)
      invariant engine.State() == Starved(hash, x, y, z)
    {
      ValidIsIndexed(Setting(hash), engine.State());
      r, batch, tokens := engine.Step();
      StarvedForEver(net, hash, x, y, z, r, batch, tokens, engine.State());
      n := n + 1;
    }
    StarvedLacks(hash, x, y, z);
  }
}
