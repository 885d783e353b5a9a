/**
 What a collision of parents does to a client. For any two runs of full blocks with one chain hash, of any
 lengths, three greedy requests are run on a network that notices whose rows it reads; the third one is
 answered from rows of another client's prompt, and wrongly.
 */
module WrongOutputs {
  import opened Arithmetic
  import opened Results
  import opened Network
  import opened Sampler
  import opened PrefixCaches
  import opened BlockPools
  import opened BlockManagers
  import opened RowContents
  import opened Lanes
  import opened ForwardBatches
  import opened Schedulers
  import opened SchedulerInvariants
  import opened EngineContents
  import opened EngineForwards
  import opened StepRelations
  import opened Progress
  import opened Engines
  import opened EngineRuns
  import opened HashCollisions
  import opened Recalls

  // ---- The requests -------------------------------------------------------------------------

  /** Colliding runs a and b of m and n blocks, a block c to follow them, and one more token. */
  datatype Clash = Clash(hash: HashBlock, bs: nat, vocab: nat, a: seq<Token>, m: nat, b: seq<Token>, n: nat,
                         c: seq<Token>, x: Token)

  /** The runs are a smallest collision, and all tokens are known. */
  ghost predicate Clashing(k: Clash) {
    && k.bs > 0 && k.vocab >= 2 && Collide(k.hash, k.bs, k.vocab, k.a, k.m, k.b, k.n)
    && CollisionFree(k.hash, k.bs, Parents(k.bs, k.a, k.b))
    && |k.c| == k.bs && InRange(k.vocab, k.c) && 0 <= k.x < k.vocab
  }

  lemma ClashShape(k: Clash)
    requires Clashing(k)
    ensures k.bs > 0 && k.vocab >= 2 && |k.a| == k.m * k.bs && |k.b| == k.n * k.bs && |k.c| == k.bs && k.b != []
    ensures k.a != k.b && Chain(k.hash, k.bs, k.a) == Chain(k.hash, k.bs, k.b)
    ensures InRange(k.vocab, k.a + k.c) && InRange(k.vocab, k.b) && InRange(k.vocab, k.b + k.c + [k.x])
    ensures |k.a + k.c| == k.m * k.bs + k.bs && |k.b + k.c| == k.n * k.bs + k.bs
  {
    hide Chain, CollisionFree, Parents;
    MulMonotone(k.m, k.n, k.bs);
  }

  const GREEDY: SamplingParams := SamplingParams(0.0, 0, 1.0)

  /** Brings c below a into the cache. */
  function First(k: Clash): Request {
    Request(k.a + k.c, GREEDY, 2, -1)
  }

  /** Brings b into the cache. */
  function Second(k: Clash): Request {
    Request(k.b, GREEDY, 2, -1)
  }

  /** Asks for c below b. */
  function Victim(k: Clash): Request {
    Request(k.b + k.c + [k.x], GREEDY, 1, -1)
  }

  function Setting(k: Clash): Config {
    Config(k.bs, k.hash, 3, true)
  }

  function Recalling(k: Clash): Net {
    Recall(k.vocab, k.b + k.c)
  }

  /** Enough blocks for all three. */
  function Room(k: Clash): nat {
    |k.a + k.c| + |k.b| + |k.b + k.c| + 3
  }

  lemma VictimAlone(k: Clash)
    requires Clashing(k)
    ensures Solo(Recalling(k), Victim(k)) == [1]
  {
    hide Next, Solo, Collide, Recall;
    ClashShape(k);
    var net, r := Recalling(k), Victim(k);
    NextAfterKnown(k.vocab, k.b + k.c, k.x);
    assert r.prompt + [] == r.prompt;
    assert IsGreedyRun(net, r.prompt, [1]) by { assert [1][..0] == []; }
    RunIsSolo(net, r, [1]);
  }

  /** No context needs more blocks than it has tokens. */
  lemma FewBlocks(bs: nat, n: nat)
    requires bs > 0
    ensures BlocksFor(bs, n) <= n && BlocksFor(bs, n + 1) <= BlocksFor(bs, n) + 1
  {
    MulMonotone(1, bs, n);
    MulStep(n, bs);
    QuotientBelow(n + bs - 1, bs, n + 1);
    Division(n + bs - 1, bs);
    var q := (n + bs - 1) / bs;
    MulStep(q, bs);
    MulStep(q + 1, bs);
    QuotientBelow(n + bs, bs, q + 2);
  }

  // ---- Before the first step ----------------------------------------------------------------

  ghost predicate Start(k: Clash, e: Sched) {
    && e.sequences == [EngineSequence(First(k), [], Waiting, false), EngineSequence(Second(k), [], Waiting, false)]
    && e.blocks == [EMPTY_BLOCKS, EMPTY_BLOCKS] && e.waiting == [0, 1] && e.running == []
    && |e.pool.free| == Room(k) && e.pool.prefix == map[] && e.pool.seen == {}
  }

  /** The first request runs and the second still waits. */
  function OneAdmitted(k: Clash, e: Sched): Sched {
    e.(sequences := [EngineSequence(First(k), [], Running, false), EngineSequence(Second(k), [], Waiting, false)],
       waiting := [1], running := [0])
  }

  function BothAdmitted(k: Clash, e: Sched): Sched {
    e.(sequences := [EngineSequence(First(k), [], Running, false), EngineSequence(Second(k), [], Running, false)],
       waiting := [], running := [0, 1])
  }

  lemma AdmittedInTurn(k: Clash, e: Sched)
    requires Start(k, e) && Indexed(e)
    ensures Indexed(OneAdmitted(k, e)) && AdmitFirst(e) == OneAdmitted(k, e)
    ensures AdmitFirst(OneAdmitted(k, e)) == BothAdmitted(k, e) && Indexed(BothAdmitted(k, e))
  {
    hide FreeInRange;
  }

  lemma Admits(bs: nat, r: Request, free: nat)
    requires bs > 0 && |r.prompt| <= free
    ensures Admissible(bs, EngineSequence(r, [], Waiting, false), EMPTY_BLOCKS, free)
  {
    hide BlocksFor;
    FewBlocks(bs, |r.prompt|);
  }

  lemma StartAdmits(k: Clash, e: Sched)
    requires k.bs > 0 && Start(k, e) && Indexed(e)
    ensures Admit(Setting(k), e) == BothAdmitted(k, e)
  {
    hide FreeInRange, AdmitFirst, Admissible, Admit, Indexed;
    AdmittedInTurn(k, e);
    Admits(k.bs, First(k), Room(k));
    Admits(k.bs, Second(k), Room(k));
    AdmitUnfold(Setting(k), e);
    AdmitUnfold(Setting(k), OneAdmitted(k, e));
    AdmitUnfold(Setting(k), BothAdmitted(k, e));
  }

  /** Nothing changed but that the empty prefix may have been looked up. */
  ghost predicate OnlyLooked(e: Sched, r: Sched) {
    r == e.(pool := e.pool.(seen := r.pool.seen)) && e.pool.seen <= r.pool.seen <= e.pool.seen + {[]}
  }

  lemma NothingAcquired(hash: HashBlock, bs: nat, s: Pool, tokens: seq<Token>)
    requires bs > 0 && s.prefix == map[]
    ensures var (table, t) := AcquireFrom(hash, bs, s, tokens, []);
            table == [] && t == s.(seen := t.seen) && s.seen <= t.seen <= s.seen + {[]}
  {
    hide AcquireFrom, Chain, Span;
    AcquireUnfold(hash, bs, s, tokens, []);
    if 0 < FullBlocks(bs, tokens) {
      assert Leading(tokens, bs, 0) == [];
    }
  }

  /** The empty cache has nothing to share. */
  lemma NothingShared(c: Config, e: Sched, id: nat)
    requires c.bs > 0 && Indexed(e) && id < |e.sequences| && e.pool.prefix == map[]
    ensures OnlyLooked(e, ShareFor(c, e, id))
  {
    hide AcquireFrom, FreeInRange, ShareCap;
    var ctx := e.sequences[id].Context();
    if ctx != [] {
      NothingAcquired(c.hash, c.bs, e.pool, ctx[..ShareCap(c.bs, ctx)]);
      assert e.blocks[id] == EMPTY_BLOCKS ==> e.blocks[id := SequenceBlocks([], 0)] == e.blocks;
    }
  }

  /** A fresh sequence feeds its whole prompt. */
  lemma FreshFeeds(bs: nat, s: EngineSequence)
    requires bs > 0 && !s.prefilled && s.output == []
    ensures StepTokens(s, EMPTY_BLOCKS) == s.request.prompt
    ensures Delta(bs, EMPTY_BLOCKS, |s.request.prompt|) == BlocksFor(bs, |s.request.prompt|) <= |s.request.prompt|
  {
    hide BlocksFor;
    FewBlocks(bs, |s.request.prompt|);
    assert s.Context() == s.request.prompt;
  }

  function Prefills(k: Clash): seq<BatchItem> {
    [BatchItem(0, k.a + k.c), BatchItem(1, k.b)]
  }

  lemma StartSelects(k: Clash, e: Sched)
    requires k.bs > 0 && Start(k, e) && Indexed(e)
    ensures var a := BothAdmitted(k, e);
            && Indexed(a) && Select(Setting(k), a).1 == Prefills(k)
            && OnlyLooked(a, Select(Setting(k), a).0) && Select(Setting(k), a).0.pool.seen <= {[]}
  {
    hide FreeInRange, ShareFor, StepTokens, Delta, Assemble, BlocksFor, Indexed, AdmitFirst;
    AdmittedInTurn(k, e);
    var c, a := Setting(k), BothAdmitted(k, e);
    var n, da, db := Room(k), BlocksFor(k.bs, |k.a + k.c|), BlocksFor(k.bs, |k.b|);
    NothingSharedTwice(k, e);
    var one := ShareFor(c, a, 0);
    var two := ShareFor(c, one, 1);
    FreshFeeds(k.bs, a.sequences[0]);
    FreshFeeds(k.bs, a.sequences[1]);
    var first := [] + [BatchItem(0, k.a + k.c)];
    AssembleUnfold(c, a, 0, n, []);
    AssembleUnfold(c, one, 1, n - da, first);
    AssembleUnfold(c, two, 2, n - da - db, first + [BatchItem(1, k.b)]);
    assert first + [BatchItem(1, k.b)] == Prefills(k);
  }

  lemma NothingSharedTwice(k: Clash, e: Sched)
    requires k.bs > 0 && Start(k, e) && Indexed(BothAdmitted(k, e))
    ensures var a := BothAdmitted(k, e);
            var one := ShareFor(Setting(k), a, 0);
            && OnlyLooked(a, one) && |one.sequences| == 2 && Indexed(one)
            && var two := ShareFor(Setting(k), one, 1);
               OnlyLooked(a, two) && two.pool.seen <= {[]} && Indexed(two)
  {
    hide FreeInRange, ShareFor;
    NothingShared(Setting(k), BothAdmitted(k, e), 0);
    NothingShared(Setting(k), ShareFor(Setting(k), BothAdmitted(k, e), 0), 1);
  }

  // ---- After the first step -----------------------------------------------------------------

  /** Both requests are prefilled and have one token, and their blocks are cached. */
  ghost predicate Primed(k: Clash, e: Sched)
    requires k.bs > 0
  {
    && |e.sequences| == 2 && e.running == [0, 1] && e.waiting == []
    && (exists y: Token :: e.sequences[0] == EngineSequence(First(k), [y], Running, true))
    && (exists y: Token :: e.sequences[1] == EngineSequence(Second(k), [y], Running, true))
    && |e.pool.free| >= |k.b + k.c| + 3 && e.pool.seen <= Parents(k.bs, k.a, k.b)
    && AllFound(k.hash, k.bs, e.pool.prefix, k.a + k.c) && AllFound(k.hash, k.bs, e.pool.prefix, k.b)
  }

  /** Every full block of the tokens is cached. */
  ghost predicate AllFound(hash: HashBlock, bs: nat, p: Prefixes, tokens: seq<Token>)
    requires bs > 0
  {
    forall i: nat :: i * bs + bs <= |tokens| ==> LookupBlock(hash, bs, p, tokens, i).Some?
  }

  lemma AllStillFound(hash: HashBlock, bs: nat, p: Prefixes, q: Prefixes, tokens: seq<Token>)
    requires bs > 0 && AllFound(hash, bs, p, tokens) && Grown(p, q)
    ensures AllFound(hash, bs, q, tokens)
  {
    hide LookupBlock, Grown;
    forall i: nat | i * bs + bs <= |tokens|
      ensures LookupBlock(hash, bs, q, tokens, i).Some?
    {
      StillFound(hash, bs, p, q, tokens, i);
    }
  }

  /** Only the leading blocks of the tokens become parents. */
  lemma {:induction false} RegisterSees(hash: HashBlock, bs: nat, s: Pool, table: seq<nat>, tokens: seq<int>, b: nat)
    requires bs > 0
    ensures forall lead :: lead in RegisterFrom(hash, bs, s, table, tokens, b).seen && lead !in s.seen ==>
              exists k: nat :: k * bs + bs <= |tokens| && lead == Leading(tokens, bs, k)
    decreases |table| - b
  {
    hide Chain, Leading;
    if b < |table| && b * bs + bs <= |tokens| {
      var t := Insert(hash, bs, s, table[b], tokens, b);
      assert t.seen == s.seen + {Leading(tokens, bs, b)};
      hide Insert;
      RegisterSees(hash, bs, t, table, tokens, b + 1);
    }
  }

  /** What one of the two takes leaves. */
  lemma TakeCaches(c: Config, e: Sched, items: seq<BatchItem>, k: nat, token: Token)
    requires c.bs > 0 && Indexed(e) && MidStep(c, e, items, k) && k < |items| && c.prefixCache
    requires !e.sequences[items[k].seqIndex].prefilled
    requires !Stops(e.sequences[items[k].seqIndex].request, e.sequences[items[k].seqIndex].output + [token])
    ensures var id := items[k].seqIndex;
            var ctx := e.sequences[id].Context();
            var t := Take(c, e, id, token);
            && |t.pool.free| == |e.pool.free| && Grown(e.pool.prefix, t.pool.prefix)
            && (forall b: nat :: b * c.bs + c.bs <= |ctx| ==> LookupBlock(c.hash, c.bs, t.pool.prefix, ctx, b).Some?)
            && (forall lead :: lead in t.pool.seen && lead !in e.pool.seen ==>
                  exists b: nat :: b * c.bs + c.bs <= |ctx| && lead == Leading(ctx, c.bs, b))
            && t.sequences
                 == e.sequences[id := e.sequences[id].(prefilled := true, output := e.sequences[id].output + [token])]
  {
    var id := items[k].seqIndex;
    var ctx := e.sequences[id].Context();
    forall b: nat | b * c.bs + c.bs <= |ctx|
      ensures LookupBlock(c.hash, c.bs, Take(c, e, id, token).pool.prefix, ctx, b).Some?
    {
      TakeRegisters(c, e, items, k, token, b);
    }
    ItemForwarded(c, e, items, k);
    TableHeld(c.bs, e.pool, e.blocks, id);
    hide MidStep, PoolValid, LookupBlock, RegisterFrom, FreeFrom, Stops, FreeInRange, Describes, Grown, Leading;
    RegisterKeeps(c.hash, c.bs, e.pool, e.blocks[id].table, ctx, 0);
    RegisterSees(c.hash, c.bs, e.pool, e.blocks[id].table, ctx, 0);
  }

  /** Registering both prompts makes parents of a, of what leads to it, and of what leads to b. */
  lemma LeadsAreParents(k: Clash, i: nat)
    requires k.bs > 0 && |k.c| == k.bs
    ensures i * k.bs + k.bs <= |k.a + k.c| ==> Leading(k.a + k.c, k.bs, i) in Parents(k.bs, k.a, k.b)
    ensures i * k.bs + k.bs <= |k.b| ==> Leading(k.b, k.bs, i) in Parents(k.bs, k.a, k.b)
    ensures [] in Parents(k.bs, k.a, k.b)
  {
    MulMonotone(1, k.bs, i);
    assert 0 * k.bs == 0 && Leading(k.a, k.bs, 0) == [];
    if i * k.bs + k.bs <= |k.a + k.c| {
      assert Leading(k.a + k.c, k.bs, i) == Leading(k.a, k.bs, i);
    }
  }

  /** The first batch leaves room for the third request. */
  lemma RoomLeft(k: Clash, sel: Sched, left: int)
    requires k.bs > 0 && sel.blocks == [EMPTY_BLOCKS, EMPTY_BLOCKS] && |sel.pool.free| == Room(k)
    requires BatchOk(Setting(k), sel, Prefills(k), |sel.running|, left)
    ensures left >= |k.b + k.c| + 3
  {
    hide BlocksFor, StepTokens;
    FewBlocks(k.bs, |k.a + k.c|);
    FewBlocks(k.bs, |k.b|);
    assert Prefills(k)[..1] == [BatchItem(0, k.a + k.c)] && Prefills(k)[..1][..0] == [];
    assert SumDeltas(k.bs, sel.blocks, Prefills(k)[..1]) == BlocksFor(k.bs, |k.a + k.c|);
  }

  ghost predicate BothForwarded(k: Clash, e: Sched) {
    && e.sequences == [EngineSequence(First(k), [], Running, false), EngineSequence(Second(k), [], Running, false)]
    && e.running == [0, 1] && e.waiting == [] && |e.pool.free| >= |k.b + k.c| + 3 && e.pool.seen <= {[]}
  }

  /** The first request has its token and its blocks are cached. */
  ghost predicate FirstTook(k: Clash, e: Sched, y: Token)
    requires k.bs > 0
  {
    && e.sequences == [EngineSequence(First(k), [y], Running, true), EngineSequence(Second(k), [], Running, false)]
    && e.running == [0, 1] && e.waiting == [] && |e.pool.free| >= |k.b + k.c| + 3
    && e.pool.seen <= Parents(k.bs, k.a, k.b) && AllFound(k.hash, k.bs, e.pool.prefix, k.a + k.c)
  }

  lemma BothGoOn(k: Clash, y: Token)
    ensures !Stops(First(k), [y]) && !Stops(Second(k), [y])
  {
  }

  lemma FirstTakes(k: Clash, mid: Sched, y: Token)
    requires Clashing(k) && MidStep(Setting(k), mid, Prefills(k), 0) && Indexed(mid) && BothForwarded(k, mid)
    ensures FirstTook(k, Take(Setting(k), mid, 0, y), y)
  {
    hide MidStep, Take, Stops, FreeInRange, LookupBlock, Grown, Leading, Collide, CollisionFree, Parents;
    BothGoOn(k, y);
    assert mid.sequences[0].Context() == k.a + k.c && [] + [y] == [y];
    TakeCaches(Setting(k), mid, Prefills(k), 0, y);
    var t := Take(Setting(k), mid, 0, y);
    assert AllFound(k.hash, k.bs, t.pool.prefix, k.a + k.c);
    forall i: nat {
      LeadsAreParents(k, i);
    }
    LeadsAreParents(k, 0);
  }

  lemma SecondTakes(k: Clash, e: Sched, y: Token, z: Token)
    requires Clashing(k) && MidStep(Setting(k), e, Prefills(k), 1) && Indexed(e) && FirstTook(k, e, y)
    ensures Primed(k, Take(Setting(k), e, 1, z))
  {
    hide MidStep, Take, Stops, FreeInRange, LookupBlock, Grown, Leading, Collide, CollisionFree, Parents, AllFound;
    BothGoOn(k, z);
    assert e.sequences[1].Context() == k.b && [] + [z] == [z];
    TakeCaches(Setting(k), e, Prefills(k), 1, z);
    var t := Take(Setting(k), e, 1, z);
    AllStillFound(k.hash, k.bs, e.pool.prefix, t.pool.prefix, k.a + k.c);
    assert AllFound(k.hash, k.bs, t.pool.prefix, k.b) by { FoundByBlock(k.hash, k.bs, t.pool.prefix, k.b); }
    forall i: nat {
      LeadsAreParents(k, i);
    }
  }

  lemma FoundByBlock(hash: HashBlock, bs: nat, p: Prefixes, tokens: seq<Token>)
    requires bs > 0
    requires forall b: nat :: b * bs + bs <= |tokens| ==> LookupBlock(hash, bs, p, tokens, b).Some?
    ensures AllFound(hash, bs, p, tokens)
  {
  }

  /** Two items take their tokens one after the other. */
  lemma TakeTwo(c: Config, e: Sched, items: seq<BatchItem>, x: Token, y: Token)
    requires c.bs > 0 && Indexed(e) && MidStep(c, e, items, 0) && |items| == 2
    requires forall i :: 0 <= i < |items| ==> items[i].seqIndex < |e.sequences|
    ensures var one := Take(c, e, items[0].seqIndex, x);
            && Indexed(one) && MidStep(c, one, items, 1) && |one.sequences| == |e.sequences|
            && var two := Take(c, one, items[1].seqIndex, y);
               Indexed(two) && TakeAll(c, e, items, [x, y]) == two
  {
    hide MidStep, Take, TakeAll, FreeInRange, Indexed;
    assert [] + [x] == [x] && [x] + [y] == [x, y];
    TakeNone(c, e, items);
    TakeOneMore(c, e, items, [], x);
    TakeOneMore(c, e, items, [x], y);
    TakeIndexed(c, e, items[0].seqIndex, x);
    TakeKeeps(c, e, items, 0, x);
    TakeIndexed(c, Take(c, e, items[0].seqIndex, x), items[1].seqIndex, y);
  }

  /** Taking one token each, neither stops, so both are registered. */
  lemma BothTake(k: Clash, mid: Sched, y: Token, z: Token)
    requires Clashing(k) && MidStep(Setting(k), mid, Prefills(k), 0) && Indexed(mid) && BothForwarded(k, mid)
    ensures Indexed(TakeAll(Setting(k), mid, Prefills(k), [y, z]))
    ensures Primed(k, Retire(TakeAll(Setting(k), mid, Prefills(k), [y, z])))
  {
    hide MidStep, Take, TakeAll, FreeInRange, Indexed, FirstTook, Primed, Retire, Clashing;
    ClashShape(k);
    TakeTwo(Setting(k), mid, Prefills(k), y, z);
    FirstTakes(k, mid, y);
    hide BothForwarded;
    var one := Take(Setting(k), mid, 0, y);
    SecondTakes(k, one, y, z);
    NoneRetires(k, Take(Setting(k), one, 1, z));
  }

  lemma NoneRetires(k: Clash, e: Sched)
    requires k.bs > 0 && Indexed(e) && Primed(k, e)
    ensures Retire(e) == e
  {
    hide FreeInRange, LookupBlock;
    NobodyRetires(e.sequences, e.running);
  }

  lemma StartInVocab(k: Clash, e: Sched)
    requires Clashing(k) && Start(k, e)
    ensures ContextsInVocab(Recalling(k), e.sequences)
  {
    hide Collide, CollisionFree;
    ClashShape(k);
    forall j | 0 <= j < |e.sequences|
      ensures AllInVocab(Recalling(k), e.sequences[j].Context())
    {
      assert e.sequences[j].Context() == e.sequences[j].request.prompt;
    }
  }

  lemma FirstStep(k: Clash, e: Sched, r: Result<()>, batch: seq<BatchItem>, tokens: seq<Token>, t: Sched)
    requires Clashing(k) && Start(k, e) && Inv(Setting(k), e)
    requires StepOutcome(Recalling(k), Setting(k), e, r, batch, tokens, t)
    ensures r.Ok? && Primed(k, t)
  {
    hide Inv, BatchOk, Admit, Select, FreeInRange, MidStep, TakeAll, ForwardOutcome, Retire, Primed, StepTokens;
    hide Clashing, ContextsInVocab, Recall;
    ClashShape(k);
    var c := Setting(k);
    StartInVocab(k, e);
    StepStaysInVocab(Recalling(k), c, e, r, batch, tokens, t);
    var left := ChosenKeeps(c, e);
    StartAdmits(k, e);
    StartSelects(k, e);
    var sel := Select(c, BothAdmitted(k, e)).0;
    RoomLeft(k, sel, left);
    var mid := ForwardedState(Recalling(k), c, sel, Prefills(k), left, r, tokens, t);
    assert tokens == [tokens[0], tokens[1]];
    BothTake(k, mid, tokens[0], tokens[1]);
  }

  // ---- The second step ----------------------------------------------------------------------

  /** All three requests run; the third one holds nothing yet. */
  ghost predicate Together(k: Clash, e: Sched)
    requires k.bs > 0
  {
    && |e.sequences| == |e.blocks| == 3 && e.running == [0, 1, 2]
    && e.sequences[0].prefilled && e.sequences[1].prefilled
    && e.sequences[2] == EngineSequence(Victim(k), [], Running, false) && e.blocks[2] == EMPTY_BLOCKS
    && |e.pool.free| >= |k.b + k.c| + 3
    && AllFound(k.hash, k.bs, e.pool.prefix, k.a + k.c) && AllFound(k.hash, k.bs, e.pool.prefix, k.b)
  }

  lemma VictimJoins(k: Clash, e: Sched)
    requires k.bs > 0 && Primed(k, e) && Indexed(e)
    ensures var a := Admit(Setting(k), Queued(e, Victim(k)));
            Indexed(Queued(e, Victim(k))) && Together(k, a) && a.pool == e.pool
  {
    hide BlocksFor, FreeInRange, AllFound, Admissible, Admit;
    var q := Queued(e, Victim(k));
    Admits(k.bs, Victim(k), |e.pool.free|);
    AdmitUnfold(Setting(k), q);
    AdmitUnfold(Setting(k), AdmitFirst(q));
  }

  /** A decoding sequence needs one more block at most, and none back. */
  lemma DecodeDelta(c: Config, e: Sched, n: nat)
    requires c.bs > 0 && Inv(c, e) && n < |e.running| && Indexed(e)
             && e.running[n] < |e.sequences| && e.sequences[e.running[n]].prefilled
    ensures ShareFor(c, e, e.running[n]) == e
    ensures var b := e.blocks[e.running[n]];
            0 <= Delta(c.bs, b, |StepTokens(e.sequences[e.running[n]], b)|) <= 1
  {
    hide Inv, FreeInRange, StepTokens, StopsOnlyAtEnd, Stops, SlotOf, BlocksFor;
    RunningId(c, e, n);
    StepTokensAre(c.bs, e.sequences[e.running[n]], e.blocks[e.running[n]]);
    FewBlocks(c.bs, e.blocks[e.running[n]].length);
  }

  /** By collision the cache takes the third prompt for a continuation of the first. */
  lemma VictimFinds(k: Clash, p: Prefixes)
    requires Clashing(k) && AllFound(k.hash, k.bs, p, k.a + k.c) && AllFound(k.hash, k.bs, p, k.b)
    ensures k.m * k.bs + k.bs <= |k.a + k.c| && k.n * k.bs + k.bs <= |k.b + k.c|
    ensures LookupBlock(k.hash, k.bs, p, k.b + k.c, k.n) == LookupBlock(k.hash, k.bs, p, k.a + k.c, k.m) != None
    ensures forall i: nat :: i < k.n ==> i * k.bs + k.bs <= |k.b| && LookupBlock(k.hash, k.bs, p, k.b, i).Some?
  {
    hide Clashing, LookupBlock, Chain;
    ClashShape(k);
    BlockAfter(k.hash, k.bs, p, k.b, k.c, k.n);
    BlockAfter(k.hash, k.bs, p, k.a, k.c, k.m);
    forall i: nat | i < k.n
      ensures i * k.bs + k.bs <= |k.b|
    {
      MulMonotone(i + 1, k.n, k.bs);
      MulStep(i, k.bs);
    }
  }

  lemma VictimCap(k: Clash)
    requires Clashing(k)
    ensures var ctx := Victim(k).prompt; ctx != [] && ctx[..ShareCap(k.bs, ctx)] == k.b + k.c
    ensures |k.b + k.c| == (k.n + 1) * k.bs
  {
    hide Clashing;
    ClashShape(k);
    MulStep(k.n, k.bs);
    QuotientOf(k.bs, k.n + 1, 0);
    assert (k.b + k.c + [k.x])[..|k.b + k.c|] == k.b + k.c;
  }

  /** The table the third request is given: the last block is the one that was cached for c below a. */
  ghost predicate Misled(k: Clash, p: Prefixes, b: SequenceBlocks)
    requires k.bs > 0
  {
    && b.length == |k.b + k.c| && |b.table| == k.n + 1 && k.m * k.bs + k.bs <= |k.a + k.c|
    && LookupBlock(k.hash, k.bs, p, k.a + k.c, k.m) == Some(b.table[k.n])
  }

  lemma VictimShares(k: Clash, e: Sched)
    requires Clashing(k) && Inv(Setting(k), e) && Indexed(e) && Together(k, e)
    ensures var sel := ShareFor(Setting(k), e, 2);
            |sel.blocks| == 3 && Misled(k, e.pool.prefix, sel.blocks[2])
  {
    hide Inv, FreeInRange, LookupBlock, ShareFor, ShareCap, LongestRun, BlocksFor, Clashing, AllFound;
    ClashShape(k);
    VictimFinds(k, e.pool.prefix);
    VictimCap(k);
    assert e.sequences[2].Context() == Victim(k).prompt;
    ShareForFrame(Setting(k), e, 2);
    ShareForShares(Setting(k), e, 2);
    var b := ShareFor(Setting(k), e, 2).blocks[2];
    var block := LookupBlock(k.hash, k.bs, e.pool.prefix, k.b + k.c, k.n).value;
    RunEndsIn(k.hash, k.bs, e.pool.prefix, k.b, k.n, k.c, b.table, block);
  }

  /** What the step feeds for the third request. */
  ghost predicate VictimFeeds(k: Clash, e: Sched, sel: Sched, items: seq<BatchItem>)
    requires k.bs > 0
  {
    && sel.sequences == e.sequences && |sel.blocks| == 3 == |items| && items[2] == BatchItem(2, [k.x])
    && Misled(k, e.pool.prefix, sel.blocks[2])
  }

  lemma VictimDelta(k: Clash, e: Sched)
    requires Clashing(k) && Inv(Setting(k), e) && Indexed(e) && Together(k, e)
    ensures var sel := ShareFor(Setting(k), e, 2);
            && sel.sequences == e.sequences && |sel.blocks| == 3 && Indexed(sel) && sel.running == e.running
            && StepTokens(sel.sequences[2], sel.blocks[2]) == [k.x] && Delta(k.bs, sel.blocks[2], 1) <= |k.b + k.c| + 1
  {
    hide Inv, FreeInRange, LookupBlock, ShareFor, BlocksFor, Clashing, AllFound;
    ClashShape(k);
    VictimShares(k, e);
    ShareForFrame(Setting(k), e, 2);
    FewBlocks(k.bs, |k.b + k.c| + 1);
    assert e.sequences[2].Context() == k.b + k.c + [k.x];
  }

  lemma AllFeed(k: Clash, e: Sched)
    requires Clashing(k) && Inv(Setting(k), e) && Indexed(e) && Together(k, e)
    ensures VictimFeeds(k, e, Select(Setting(k), e).0, Select(Setting(k), e).1)
  {
    hide Inv, FreeInRange, AllFound, ShareFor, StepTokens, Delta, Assemble, Clashing, Misled;
    ClashShape(k);
    var c := Setting(k);
    DecodeDelta(c, e, 0);
    DecodeDelta(c, e, 1);
    VictimShares(k, e);
    VictimDelta(k, e);
    var sel := ShareFor(c, e, 2);
    var t0, t1 := StepTokens(e.sequences[0], e.blocks[0]), StepTokens(e.sequences[1], e.blocks[1]);
    var d0, d1 := Delta(k.bs, e.blocks[0], |t0|), Delta(k.bs, e.blocks[1], |t1|);
    var left, last := |e.pool.free| - d0 - d1, Delta(k.bs, sel.blocks[2], 1);
    AssembleUnfold(c, e, 0, |e.pool.free|, []);
    AssembleUnfold(c, e, 1, |e.pool.free| - d0, [] + [BatchItem(0, t0)]);
    var two := [] + [BatchItem(0, t0)] + [BatchItem(1, t1)];
    AssembleUnfold(c, e, 2, left, two);
    AssembleUnfold(c, sel, 3, left - last, two + [BatchItem(2, [k.x])]);
  }

  // ---- The wrong answer ---------------------------------------------------------------------

  /** Where no parents have collided yet, the block cached for c below a holds rows of a + c. */
  lemma CachedIsFirsts(keys: Store, values: Store, k: Clash, e: Sched, block: nat)
    requires Clashing(k) && Sound(keys, values, Setting(k), Recalling(k), e)
    requires e.pool.seen <= Parents(k.bs, k.a, k.b) && k.m * k.bs + k.bs <= |k.a + k.c|
    requires LookupBlock(k.hash, k.bs, e.pool.prefix, k.a + k.c, k.m) == Some(block)
    ensures BlockHolds(keys, values, k.bs, Recalling(k), block, k.a + k.c)
  {
    ClashShape(k);
    hide BlockHolds, LookupBlock, Chain, Collide, Parents;
    CollisionFreeSubset(k.hash, k.bs, e.pool.seen, Parents(k.bs, k.a, k.b));
    BlockAfter(k.hash, k.bs, e.pool.prefix, k.a, k.c, k.m);
    var found := EntryFor(k.hash, e.pool.prefix, Chain(k.hash, k.bs, k.a), k.c).value;
    assert IsEntry(e.pool.prefix, found.0, found.1);
    var lead :| EntryFrom(keys, values, Setting(k), Recalling(k), e.pool.seen, e.pool.prefix[found.0][found.1], lead);
    OwnParent(k);
    assert lead == k.a;
  }

  lemma OwnParent(k: Clash)
    requires k.bs > 0 && |k.a| == k.m * k.bs
    ensures k.a in Parents(k.bs, k.a, k.b)
  {
    MulMonotone(1, k.bs, k.m);
    assert Leading(k.a, k.bs, k.m) == k.a;
  }

  /** So the third request takes token 0. */
  lemma VictimMisled(keys: Store, values: Store, k: Clash, e: Sched, sel: Sched, items: seq<BatchItem>,
                     tokens: seq<Token>)
    requires Clashing(k) && Sound(keys, values, Setting(k), Recalling(k), e)
    requires e.pool.seen <= Parents(k.bs, k.a, k.b)
    requires VictimFeeds(k, e, sel, items) && |e.sequences| == 3
             && e.sequences[2] == EngineSequence(Victim(k), [], Running, false)
    requires GreedyFromRows(keys, values, Recalling(k), Setting(k), sel, items, tokens)
    ensures |tokens| == 3 && tokens[2] == 0
  {
    hide LookupBlock, Sound, LastLogits, FeedOk, Clashing, Parents, BlockHolds, Recall, Reals, Gathered, Chain;
    ClashShape(k);
    TwoLayers(k);
    DifferBefore(k);
    var b := sel.blocks[2];
    CachedIsFirsts(keys, values, k, e, b.table[k.n]);
    LastRowRead(keys, values, k, b);
    var f := Feed(Gathered(keys, values, k.bs, 2, b.table, b.length), b.length, [k.x]);
    assert FeedsOf(keys, values, k.bs, Recalling(k), sel.blocks, items)[2] == f;
    LastIsCached(k.vocab, k.b + k.c, f, k.a + k.c);
  }

  lemma DifferBefore(k: Clash)
    requires k.a != k.b
    ensures k.a + k.c != k.b + k.c
  {
    if |k.a| == |k.b| {
      assert (k.a + k.c)[..|k.a|] == k.a && (k.b + k.c)[..|k.b|] == k.b;
    }
  }

  lemma TwoLayers(k: Clash)
    ensures Recalling(k).layers == 2 && Recalling(k).vocab == k.vocab
  {
  }

  /** The last cached row the third request reads is the last row of the handed out block. */
  lemma LastRowRead(keys: Store, values: Store, k: Clash, b: SequenceBlocks)
    requires Clashing(k) && |b.table| == k.n + 1 && b.length == |k.b + k.c| > 0
    requires BlockHolds(keys, values, k.bs, Recalling(k), b.table[k.n], k.a + k.c)
    ensures Gathered(keys, values, k.bs, 2, b.table, b.length)[1].v[b.length - 1] == Reals(k.a + k.c)
  {
    hide Clashing, ValueRows, KeyRows, Recall, Reals;
    ClashShape(k);
    var net, p, s := Recalling(k), b.length - 1, k.bs - 1;
    QuotientOf(k.bs, k.n, s);
    TwoLayers(k);
    assert SlotHolds(keys, values, k.bs, net, b.table[k.n], k.a + k.c, 1, s);
    RowIsPrefixOf(k.vocab, k.b + k.c, k.a + k.c, |k.a + k.c| - 1);
    assert (k.a + k.c)[..|k.a + k.c|] == k.a + k.c;
  }

  /** What the next step feeds, and the token the third request must take. */
  lemma VictimTurn(keys: Store, values: Store, k: Clash, e: Sched)
    requires Clashing(k) && Indexed(e) && Primed(k, e) && Inv(Setting(k), Queued(e, Victim(k)))
    requires Indexed(Queued(e, Victim(k))) && Sound(keys, values, Setting(k), Recalling(k), Queued(e, Victim(k)))
    ensures var q := Queued(e, Victim(k));
            var batch := Select(Setting(k), Admit(Setting(k), q)).1;
            && |batch| == 3 && batch[2].seqIndex == 2
            && forall tokens :: StepFromRows(keys, values, Recalling(k), Setting(k), q, batch, tokens) ==>
                 |tokens| == 3 && tokens[2] == 0
  {
    hide Inv, Sound, FreeInRange, Admit, Select, GreedyFromRows, AllFound, Queued, Clashing, Misled, Recall;
    ClashShape(k);
    var c, q := Setting(k), Queued(e, Victim(k));
    ValidIsIndexed(c, q);
    VictimJoins(k, e);
    AdmitKeeps(c, q);
    AdmitSound(keys, values, c, Recalling(k), q);
    var a := Admit(c, q);
    AllFeed(k, a);
    var (sel, batch) := Select(c, a);
    forall tokens | StepFromRows(keys, values, Recalling(k), c, q, batch, tokens)
      ensures |tokens| == 3 && tokens[2] == 0
    {
      VictimMisled(keys, values, k, a, sel, batch, tokens);
    }
  }

  /** Two requests and a step. */
  method Prime(k: Clash) returns (engine: Engine)
    requires Clashing(k)
    ensures fresh(engine) && fresh(engine.mgr) && fresh(engine.mgr.alloc)
            && fresh(engine.mgr.keys) && fresh(engine.mgr.values)
    ensures engine.Valid() && engine.net == Recalling(k) && engine.Cfg() == Setting(k)
    ensures k.bs > 0 && Indexed(engine.State()) && Primed(k, engine.State())
    ensures ContextsInVocab(Recalling(k), engine.sequences)
  {
    hide Inv, Sound, FreeInRange, StepOutcome, StepFromRows, Primed, Select, Admit, PoolValid, ContextsInVocab;
    hide Clashing, Recall;
    ClashShape(k);
    TwoLayers(k);
    engine := new Engine(Recalling(k), k.bs, Room(k), k.hash, 3, true);
    var first := engine.AddRequest(First(k));
    var second := engine.AddRequest(Second(k));
    ghost var start := engine.State();
    ValidIsIndexed(Setting(k), start);
    StartInVocab(k, start);
    var r, batch, tokens := engine.Step();
    FirstStep(k, start, r, batch, tokens, engine.State());
    StepStaysInVocab(Recalling(k), Setting(k), start, r, batch, tokens, engine.State());
    ValidIsIndexed(Setting(k), engine.State());
  }

  /**
   For every smallest collision: the third request, whose own greedy decoding is [1], is given [0], from rows of
   the first one's prompt.
   */
  method WrongRun(k: Clash) returns (engine: Engine)
    requires Clashing(k)
    ensures engine.Valid() && engine.net == Recalling(k) && engine.Cfg() == Setting(k)
    ensures ContextsInVocab(engine.net, engine.sequences)
    ensures |engine.sequences| == 3 && engine.sequences[2].request == Victim(k) && IsGreedy(Victim(k).params)
    ensures engine.sequences[2].status == Finished && engine.sequences[2].output == [0]
    ensures Victim(k).prompt != [] && Solo(engine.net, Victim(k)) == [1]
  {
    hide Inv, Sound, FreeInRange, StepOutcome, StepFromRows, Primed, Solo, Select, Admit, PoolValid, ContextsInVocab;
    hide Queued, Indexed, Clashing, Recall;
    engine := Prime(k);
    ghost var primed := engine.State();
    var third := engine.AddRequest(Victim(k));
    ghost var ready := engine.State();
    ValidIsIndexed(Setting(k), ready);
    VictimTurn(engine.mgr.keys, engine.mgr.values, k, primed);
    var r, batch, tokens := engine.Step();
    ChosenBatch(Recalling(k), Setting(k), ready, r, batch, tokens, engine.State());
    PrimedTwo(k, primed);
    VictimTakes(k, primed, r, batch, tokens, engine.State());
    VictimAlone(k);
  }

  lemma ChosenBatch(net: Net, c: Config, e: Sched, r: Result<()>, batch: seq<BatchItem>, tokens: seq<Token>, t: Sched)
    requires c.bs > 0 && Indexed(e) && StepOutcome(net, c, e, r, batch, tokens, t)
    ensures batch == Select(c, Admit(c, e)).1
  {
    hide Select, Admit, FreeInRange, ForwardOutcome, DistinctItems;
  }

  lemma PrimedTwo(k: Clash, e: Sched)
    requires k.bs > 0 && Primed(k, e)
    ensures |e.sequences| == 2
  {
    hide AllFound;
  }

  /** The third request takes its token and is finished. */
  lemma VictimTakes(k: Clash, e: Sched, r: Result<()>, batch: seq<BatchItem>, tokens: seq<Token>, t: Sched)
    requires Clashing(k) && |e.sequences| == 2 && Inv(Setting(k), Queued(e, Victim(k)))
    requires ContextsInVocab(Recalling(k), e.sequences)
    requires StepOutcome(Recalling(k), Setting(k), Queued(e, Victim(k)), r, batch, tokens, t)
    requires |batch| == 3 && batch[2].seqIndex == 2
    requires r.Ok? ==> |tokens| == 3 && tokens[2] == 0
    ensures |t.sequences| == 3 && t.sequences[2].request == Victim(k) && t.sequences[2].status == Finished
            && t.sequences[2].output == [0] && ContextsInVocab(Recalling(k), t.sequences)
  {
    hide Inv, StepOutcome, Clashing, Recall;
    ClashShape(k);
    TwoLayers(k);
    var q := Queued(e, Victim(k));
    assert q.sequences[2].Context() == k.b + k.c + [k.x];
    assert ContextsInVocab(Recalling(k), q.sequences);
    StepStaysInVocab(Recalling(k), Setting(k), q, r, batch, tokens, t);
    StepKeeps(Recalling(k), Setting(k), q, r, batch, tokens, t);
    assert TookOne(q.sequences[2], t.sequences[2], tokens[2]);
    assert [] + [0] == [0] && Stops(Victim(k), [0]);
  }

  // ---- Every collision, every hash ----------------------------------------------------------

  /**
   Whenever two different runs of full blocks of known tokens have one chain hash, some network and some run
   give a greedy request an answer other than its own decoding.
   */
  method CollisionMisleads(hash: HashBlock, bs: nat, vocab: nat, p: seq<Token>, i: nat, q: seq<Token>, j: nat)
    returns (engine: Engine)
    requires bs > 0 && vocab >= 2 && |p| == i * bs && |q| == j * bs && p != q
    requires Chain(hash, bs, p) == Chain(hash, bs, q) && InRange(vocab, p) && InRange(vocab, q)
    ensures engine.Valid() && engine.net.vocab == vocab && engine.Cfg() == Config(bs, hash, 3, true)
    ensures ContextsInVocab(engine.net, engine.sequences) && !OutputsAreSolo(engine.net, engine.sequences)
  {
    hide Inv, Sound, Chain, InRange, Parents, Recall, Solo, ContextsInVocab, CollisionFree;
    var a, m, b, n;
    if i <= j {
      a, m, b, n := SmallestCollision(hash, bs, vocab, p, i, q, j);
    } else {
      a, m, b, n := SmallestCollision(hash, bs, vocab, q, j, p, i);
    }
    var c := seq(bs, t => 0);
    Zeros(vocab, c);
    var k := Clash(hash, bs, vocab, a, m, b, n, c, 0);
    TwoLayers(k);
    engine := WrongRun(k);
  }

  lemma Zeros(vocab: nat, c: seq<Token>)
    requires vocab > 0 && forall t :: 0 <= t < |c| ==> c[t] == 0
    ensures InRange(vocab, c)
  {
  }

  /**
   So no 64-bit hash will do: for every one of them, every block size and every vocabulary of at least two
   tokens, some network and some run of known tokens give a greedy request a wrong answer.
   */
  method EveryHashMisleads(hash: HashBlock, bs: nat, vocab: nat) returns (engine: Engine)
    requires bs > 0 && vocab >= 2 && forall parent, span :: hash(parent, span) < HASH_RANGE
    ensures engine.Valid() && engine.net.vocab == vocab && engine.Cfg() == Config(bs, hash, 3, true)
    ensures ContextsInVocab(engine.net, engine.sequences) && !OutputsAreSolo(engine.net, engine.sequences)
  {
    hide Inv, Sound, Chain, CollisionFree, OutputsAreSolo, ContextsInVocab, Power;
    EnoughPrefixes(bs, vocab);
    var p, q := CollisionsExist(hash, bs, vocab, 65);
    engine := CollisionMisleads(hash, bs, vocab, p, 65, q, 65);
  }
}
