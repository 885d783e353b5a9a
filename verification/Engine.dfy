/**
 The continuous-batching engine: requests are queued, admitted, batched over one block pool, forwarded
 together and given one token each per step. Each method computes the scheduler's function of the
 state; the class invariant carries what every reachable state means.
 */
module Engines {
  import opened Results
  import opened Network
  import opened Sampler
  import opened PrefixCaches
  import opened BlockPools
  import opened BlockManagers
  import opened RowContents
  import opened Lanes
  import opened ForwardBatches
  import opened Schedulers
  import opened SchedulerInvariants
  import opened EngineContents
  import opened EngineForwards
  import opened StepRelations
  import opened Progress

  class Engine {
    const net: Net
    const mgr: BlockManager
    const maxBatch: int
    const prefixCache: bool
    var waiting: seq<nat>
    var running: seq<nat>
    var sequences: seq<EngineSequence>
    /** Paging state by sequence id; batch items point into it. */
    var blocks: seq<SequenceBlocks>
    var preemptions: nat

    ghost function State(): Sched
      reads this, mgr, mgr.alloc
    {
      Sched(mgr.State(), blocks, sequences, waiting, running, preemptions)
    }

    ghost function Cfg(): Config {
      Config(mgr.bs, mgr.hash, maxBatch, prefixCache)
    }

    /** Bookkeeping only. */
    ghost predicate Scheduled()
      reads this, mgr, mgr.alloc
    {
      mgr.Valid() && net.layers == mgr.numLayers && Inv(Cfg(), State())
    }

    ghost predicate Valid()
      reads this, mgr, mgr.alloc, mgr.keys, mgr.values
    {
      Scheduled() && mgr.bs > 0 && Sound(mgr.keys, mgr.values, Cfg(), net, State())
    }

    constructor (net: Net, bs: nat, numBlocks: nat, hash: HashBlock, maxBatch: int, prefixCache: bool)
      requires net.layers > 0 && bs > 0
      ensures Valid() && fresh(mgr) && fresh(mgr.alloc) && fresh(mgr.keys) && fresh(mgr.values)
      ensures this.net == net && Cfg() == Config(bs, hash, maxBatch, prefixCache)
      ensures State() == Sched(FreshPool(numBlocks), [], [], [], [], 0)
    {
      this.net := net;
      this.maxBatch := maxBatch;
      this.prefixCache := prefixCache;
      mgr := new BlockManager(net.layers, bs, numBlocks, hash);
      waiting, running, sequences, blocks, preemptions := [], [], [], [], 0;
      new;
      FreshIsPaged(bs, mgr.State());
    }

    /** Queues a request and returns its id; an empty prompt is refused. */
    method AddRequest(request: Request) returns (r: Result<nat>)
      requires Valid()
      modifies this
      ensures Valid()
      ensures request.prompt == [] ==> r == Throws(EmptyPrompt) && State() == old(State())
      ensures request.prompt != [] ==>
                && r == Ok(|old(sequences)|)
                && sequences == old(sequences) + [EngineSequence(request, [], Waiting, false)]
                && blocks == old(blocks) + [EMPTY_BLOCKS] && waiting == old(waiting) + [|old(sequences)|]
                && running == old(running) && preemptions == old(preemptions) && mgr.State() == old(mgr.State())
                && State() == Queued(old(State()), request)
    {
      hide Inv, Sound, FreeInRange, Queued, PoolValid;
      if request.prompt == [] {
        return Throws(EmptyPrompt);
      }
      QueuedKeeps(mgr.keys, mgr.values, Cfg(), net, State(), request);
      ghost var before := State();
      var id := |sequences|;
      sequences := sequences + [EngineSequence(request, [], Waiting, false)];
      blocks := blocks + [EMPTY_BLOCKS];
      waiting := waiting + [id];
      QueuedIs(before, request);
      r := Ok(id);
    }

    predicate HasWork()
      reads this
    {
      waiting != [] || running != []
    }

    // ---- Admission --------------------------------------------------------------------------

    /** Admits waiting requests, first come first served, while the free list can take them. */
    method AdmitWaiting()
      requires mgr.Valid() && Indexed(State())
      modifies this`waiting, this`running, this`sequences
      ensures Indexed(State()) && State() == Admit(Cfg(), old(State()))
    {
      hide PoolValid, FreeInRange, BlocksFor, Admit;
      var blocked := false;
      while waiting != [] && |running| < maxBatch && !blocked
        invariant Indexed(State()) && Admit(Cfg(), State()) == Admit(Cfg(), old(State()))
        invariant blocked ==> State() == Admit(Cfg(), State())
        decreases |waiting|, !blocked
      {
        AdmitUnfold(Cfg(), State());
        var id := waiting[0];
        var s := sequences[id];
        if !mgr.CanAppend(blocks[id], AdmissionNeed(s)) {
          blocked := true;
        } else {
          sequences := sequences[id := s.(status := Running)];
          running := running + [id];
          waiting := waiting[1..];
        }
      }
      AdmitUnfold(Cfg(), State());
    }

    // ---- Batch assembly ---------------------------------------------------------------------

    /** Shares a cached prompt prefix with a sequence that holds no blocks yet. */
    method ShareBlocks(id: nat)
      requires mgr.Valid() && Indexed(State()) && id < |sequences|
      modifies this`blocks, mgr`prefix, mgr`tick, mgr`held, mgr`seen, mgr`prefixHits, mgr.alloc
      ensures mgr.Valid() && Indexed(State()) && State() == ShareFor(Cfg(), old(State()), id)
    {
      hide PoolValid, FreeInRange, AcquireFrom;
      var s := sequences[id];
      if prefixCache && !s.prefilled && blocks[id].table == [] {
        var ctx := s.Context();
        if ctx != [] && ShareCap(mgr.bs, ctx) > 0 {
          ghost var before := mgr.State();
          AcquireFreeSame(mgr.hash, mgr.bs, before, ctx[..ShareCap(mgr.bs, ctx)], []);
          SameFreeInRange(before, AcquireFrom(mgr.hash, mgr.bs, before, ctx[..ShareCap(mgr.bs, ctx)], []).1);
          var grown, matched := mgr.AcquireSharedPrefix(blocks[id], ctx[..ShareCap(mgr.bs, ctx)]);
          blocks := blocks[id := grown];
        }
      }
    }

    /** One pass over the running sequences under a cumulative block budget. */
    method AssembleBatch() returns (items: seq<BatchItem>)
      requires mgr.Valid() && Indexed(State())
      modifies this`blocks, mgr`prefix, mgr`tick, mgr`held, mgr`seen, mgr`prefixHits, mgr.alloc
      ensures mgr.Valid() && Indexed(State())
      ensures (State(), items) == Assemble(Cfg(), old(State()), 0, |old(mgr.alloc.freeList)|, [])
    {
      hide PoolValid, FreeInRange, ShareFor, StepTokens, BlocksFor, Assemble;
      items := [];
      var budget: int := mgr.FreeBlocks();
      var i := 0;
      while i < |running|
        invariant 0 <= i <= |running| && mgr.Valid() && Indexed(State())
        invariant Assemble(Cfg(), State(), i, budget, items)
                  == Assemble(Cfg(), old(State()), 0, |old(mgr.alloc.freeList)|, [])
        decreases |running| - i
      {
        AssembleUnfold(Cfg(), State(), i, budget, items);
        var id := running[i];
        ShareBlocks(id);
        var tokens := StepTokens(sequences[id], blocks[id]);
        var delta := BlocksFor(mgr.bs, blocks[id].length + |tokens|) - |blocks[id].table|;
        if delta <= budget {
          budget := budget - delta;
          items := items + [BatchItem(id, tokens)];
        }
        i := i + 1;
      }
      AssembleUnfold(Cfg(), State(), i, budget, items);
    }

    /** Frees the youngest running sequence that holds blocks and queues it first. */
    method PreemptYoungest() returns (found: bool)
      requires mgr.bs > 0 && Scheduled() && Indexed(State())
      modifies this, mgr`held, mgr.alloc
      ensures mgr.Valid() && found == (YoungestHolder(old(blocks), old(running), |old(running)|) < |old(running)|)
      ensures !found ==> State() == old(State())
      ensures found ==> State() == PreemptAt(old(State()), YoungestHolder(old(blocks), old(running), |old(running)|))
    {
      hide PoolValid, Inv, FreeInRange, FreeFrom;
      var n: nat := |running|;
      while n > 0 && blocks[running[n - 1]].table == []
        invariant n <= |running|
        invariant YoungestHolder(blocks, running, n) == YoungestHolder(blocks, running, |running|)
      {
        n := n - 1;
      }
      if n == 0 {
        return false;
      }
      var id := running[n - 1];
      TableIsHeld(Cfg(), State(), id);
      hide YoungestHolder, Indexed;
      var cleared := mgr.Free(blocks[id]);
      blocks := blocks[id := cleared];
      sequences := sequences[id := sequences[id].(prefilled := false, status := Waiting)];
      running := running[..n - 1] + running[n..];
      waiting := [id] + waiting;
      preemptions := preemptions + 1;
      return true;
    }

    /** Assembles a batch; while nothing fits and several run, preempts the youngest holder and retries. */
    method SelectBatch() returns (items: seq<BatchItem>)
      requires mgr.bs > 0 && Scheduled() && Indexed(State())
      modifies this, mgr`prefix, mgr`tick, mgr`held, mgr`seen, mgr`prefixHits, mgr.alloc
      ensures Scheduled() && Indexed(State()) && (State(), items) == Select(Cfg(), old(State()))
    {
      hide PoolValid, Inv, FreeInRange, Assemble, FreeFrom, BatchOk, NoneLeftOut;
      var done := false;
      items := [];
      while !done
        invariant Scheduled() && Indexed(State())
        invariant (if done then (State(), items) else Select(Cfg(), State())) == Select(Cfg(), old(State()))
        decreases !done, |running|
      {
        EmptyBatchOk(Cfg(), State());
        AssembleKeeps(Cfg(), State(), 0, |mgr.alloc.freeList|, []);
        items := AssembleBatch();
        if items != [] || |running| <= 1 {
          done := true;
        } else {
          ghost var i := YoungestHolder(blocks, running, |running|);
          if i < |running| {
            PreemptKeeps(Cfg(), State(), i);
            FreeStaysInRange(mgr.State(), blocks[running[i]].table);
            PreemptIndexed(Cfg(), State(), i);
          }
          var found := PreemptYoungest();
          done := !found;
        }
      }
    }

    /** Admission, then batch assembly. */
    method ChooseBatch() returns (items: seq<BatchItem>, ghost left: int)
      requires Valid() && Indexed(State())
      modifies this, mgr`prefix, mgr`tick, mgr`held, mgr`seen, mgr`prefixHits, mgr.alloc
      ensures Valid() && Indexed(State()) && (State(), items) == Select(Cfg(), Admit(Cfg(), old(State())))
      ensures BatchOk(Cfg(), State(), items, |running|, left)
    {
      hide PoolValid, Inv, FreeInRange, Sound, Admit, Select, BatchOk, NoneLeftOut, SameButQueued;
      ghost var before := State();
      AdmitKeeps(Cfg(), before);
      AdmitSound(mgr.keys, mgr.values, Cfg(), net, before);
      AdmitWaiting();
      SelectKeeps(Cfg(), State());
      SelectSound(mgr.keys, mgr.values, Cfg(), net, State());
      items := SelectBatch();
      left :| BatchOk(Cfg(), State(), items, |running|, left);
    }

    // ---- One step ---------------------------------------------------------------------------

    /** Forwards a batch over the pool and advances the batched sequences' paging state. */
    method ForwardItems(items: seq<BatchItem>, ghost left: int)
      returns (r: Result<seq<seq<real>>>, ghost grown: seq<SequenceBlocks>, ghost pool: Pool)
      requires Valid() && Indexed(State()) && items != [] && BatchOk(Cfg(), State(), items, |running|, left)
      modifies this`blocks, mgr`prefix, mgr`held, mgr.alloc, mgr.keys, mgr.values
      ensures mgr.Valid() && mgr.bs > 0 && Indexed(State())
              && ReserveItems(mgr.bs, old(State()).pool, old(blocks), items, 0) == (Ok(()), grown, pool)
      ensures mgr.State() == pool && (r.Ok? <==> ItemsInVocab(net, items))
      ensures r.Throws? ==> r.error == TokenOutOfRange && blocks == grown && Inv(Cfg(), State())
      ensures r.Ok? ==> RowsPerItem(net, items, r.value) && Committed(grown, items, blocks)
                        && MidStep(Cfg(), State(), items, 0)
      ensures Sound(mgr.keys, mgr.values, Cfg(), net, State()) && DistinctItems(items, |old(blocks)|)
      ensures r.Ok? ==> FromRows(net, old(FeedsOf(mgr.keys, mgr.values, mgr.bs, net, blocks, items)), r.value)
      ensures r.Ok? && CollisionFree(mgr.hash, mgr.bs, pool.seen) ==>
                forall k :: 0 <= k < |items| ==> LastRowIs(net, sequences, items[k], r.value, k)
    {
      hide PoolValid, Inv, FreeInRange, Sound, ReserveItems, BatchOk, Paged, CollisionFree, MidStep, LastRowIs;
      hide ItemsInVocab, FromRows, FeedsOf;
      ghost var before := State();
      InvIsPaged(Cfg(), before);
      BatchReserves(Cfg(), before, items, |running|, left);
      ghost var (reserved, g, p) := ReserveItems(mgr.bs, before.pool, before.blocks, items, 0);
      grown, pool := g, p;
      OkIsUnit(reserved);
      var logits, out := ForwardSound(net, mgr, blocks, items, Cfg(), before, left);
      blocks := out;
      r := logits;
      if r.Throws? {
        FailedForwardKeeps(Cfg(), before, items, |running|, left, pool, grown);
        InvIsPaged(Cfg(), State());
      } else {
        ForwardKeeps(Cfg(), before, items, |running|, left, pool, grown, out);
        MidIndexed(Cfg(), State(), items, 0);
      }
    }

    /** One sequence takes its token: it finishes and frees its blocks, or registers its prefix. */
    method TakeToken(id: nat, token: Token) returns (finished: bool)
      requires mgr.Valid() && Indexed(State()) && id < |sequences| && multiset(blocks[id].table) <= mgr.held
      modifies this`sequences, this`blocks, mgr`prefix, mgr`tick, mgr`held, mgr`seen, mgr.alloc
      ensures mgr.Valid() && State() == Take(Cfg(), old(State()), id, token)
      ensures var s := old(sequences)[id];
              && (finished <==> (s.request.eosId >= 0 && token == s.request.eosId)
                                || |s.output| + 1 >= s.request.maxTokens)
              && (finished ==> sequences[id].status == Finished && blocks[id] == EMPTY_BLOCKS)
    {
      hide PoolValid, FreeFrom, RegisterFrom, FreeInRange;
      var s := sequences[id];
      var out := s.output + [token];
      var hitEos := s.request.eosId >= 0 && token == s.request.eosId;
      var hitLen := |out| >= s.request.maxTokens;
      if hitEos || hitLen {
        var cleared := mgr.Free(blocks[id]);
        blocks := blocks[id := cleared];
        sequences := sequences[id := s.(prefilled := true, output := out, status := Finished)];
      } else {
        if prefixCache && !s.prefilled {
          mgr.RegisterPrefix(blocks[id], s.Context());
        }
        sequences := sequences[id := s.(prefilled := true, output := out)];
      }
      finished := hitEos || hitLen;
    }

    /** Every batched sequence gets a token sampled from its row, in batch order. */
    method TakeTokens(items: seq<BatchItem>, logits: seq<seq<real>>)
      returns (ghost tokens: seq<Token>, anyFinished: bool)
      requires mgr.Valid() && Indexed(State()) && MidStep(Cfg(), State(), items, 0) && StillRunning(sequences, running)
      requires RowsPerItem(net, items, logits) && net.vocab > 0 && DistinctItems(items, |sequences|)
      modifies this`sequences, this`blocks, mgr`prefix, mgr`tick, mgr`held, mgr`seen, mgr.alloc
      ensures mgr.Valid() && mgr.bs > 0 && |tokens| == |items| && AllInVocab(net, tokens)
      ensures Indexed(State()) && State() == TakeAll(Cfg(), old(State()), items, tokens)
      ensures !anyFinished ==> StillRunning(sequences, running)
      ensures forall k :: 0 <= k < |items| && IsGreedy(old(sequences)[items[k].seqIndex].request.params) ==>
                tokens[k] == ArgMax(logits[k])
    {
      hide PoolValid, FreeInRange, MidStep, Take, TakeAll, Stops, StillRunning, NotAnItem;
      ghost var before := State();
      TakeNone(Cfg(), before, items);
      tokens, anyFinished := [], false;
      var k := 0;
      while k < |items|
        invariant 0 <= k <= |items| && |tokens| == k && AllInVocab(net, tokens)
        invariant mgr.Valid() && Indexed(State()) && State() == TakeAll(Cfg(), before, items, tokens)
        invariant !anyFinished ==> StillRunning(sequences, running)
        invariant forall i :: 0 <= i < k && IsGreedy(before.sequences[items[i].seqIndex].request.params) ==>
                    tokens[i] == ArgMax(logits[i])
      {
        var id := items[k].seqIndex;
        TakeAllKeeps(Cfg(), before, items, tokens);
        TakeAllOthers(Cfg(), before, items, tokens);
        ItemTableHeld(Cfg(), State(), items, k);
        ghost var now := State();
        var sampled := Sample(logits[k], sequences[id].request.params);
        var token := sampled.value;
        var finished := TakeToken(id, token);
        TakeIndexed(Cfg(), now, id, token);
        if !anyFinished && !finished {
          TakeRunning(Cfg(), now, id, token);
        }
        TakeOneMore(Cfg(), before, items, tokens, token);
        tokens := tokens + [token];
        anyFinished := anyFinished || finished;
        k := k + 1;
      }
    }

    /** Drops finished sequences from the running ones. */
    method RetireFinished()
      requires Indexed(State())
      modifies this`running
      ensures State() == Retire(old(State()))
    {
      hide FreeInRange;
      var still: seq<nat> := [];
      var i := 0;
      while i < |running|
        invariant 0 <= i <= |running| && still == Unfinished(sequences, running[..i])
      {
        assert running[..i + 1][..i] == running[..i];
        if sequences[running[i]].status != Finished {
          still := still + [running[i]];
        }
        i := i + 1;
      }
      assert running[..i] == running;
      running := still;
    }

    /** What follows a successful forward: sampling, finishing, registering, retiring. */
    method FinishBatch(items: seq<BatchItem>, logits: seq<seq<real>>) returns (ghost tokens: seq<Token>)
      requires mgr.Valid() && net.layers == mgr.numLayers && Indexed(State()) && MidStep(Cfg(), State(), items, 0)
      requires StillRunning(sequences, running) && Sound(mgr.keys, mgr.values, Cfg(), net, State())
      requires RowsPerItem(net, items, logits) && net.vocab > 0
      requires CollisionFree(mgr.hash, mgr.bs, mgr.seen) ==> forall k :: 0 <= k < |items| ==>
                 LastRowIs(net, sequences, items[k], logits, k)
      modifies this`sequences, this`blocks, this`running, mgr`prefix, mgr`tick, mgr`held, mgr`seen, mgr.alloc
      ensures Valid() && |tokens| == |items| && AllInVocab(net, tokens)
              && TookTokens(Cfg(), old(State()), items, tokens, State())
      ensures TokensOf(old(sequences), items, logits, tokens)
    {
      hide PoolValid, FreeInRange, Sound, Take, TakeAll, Unfinished, Inv, LastRowIs;
      ghost var mid := State();
      MidDistinct(Cfg(), mid, items, 0);
      hide MidStep;
      var anyFinished;
      tokens, anyFinished := TakeTokens(items, logits);
      LastRowsAreNext(net, mid.sequences, items, logits, tokens, CollisionFree(mgr.hash, mgr.bs, mid.pool.seen));
      TakeAllKeeps(Cfg(), mid, items, tokens);
      TakeAllSound(mgr.keys, mgr.values, Cfg(), net, mid, items, tokens);
      RetireKeeps(Cfg(), State(), items);
      RetireSound(mgr.keys, mgr.values, Cfg(), net, State());
      if anyFinished {
        RetireFinished();
      } else {
        NobodyRetires(sequences, running);
      }
    }

    /** One scheduling iteration. */
    method Step() returns (r: Result<()>, ghost batch: seq<BatchItem>, ghost tokens: seq<Token>)
      requires Valid() && Indexed(State())
      modifies this, mgr`prefix, mgr`tick, mgr`held, mgr`seen, mgr`prefixHits, mgr.alloc, mgr.keys, mgr.values
      ensures Valid() && StepOutcome(net, Cfg(), old(State()), r, batch, tokens, State())
      ensures r.Ok? && batch != [] ==> old(StepFromRows(mgr.keys, mgr.values, net, Cfg(), State(), batch, tokens))
    {
      hide PoolValid, FreeInRange, Sound, Inv, Admit, Select, ReserveItems, TookTokens, LastRowIs, RowsPerItem, BatchOk;
      hide MidStep, Committed;
      tokens := [];
      var items, left := ChooseBatch();
      batch := items;
      if items == [] {
        return Ok(()), batch, tokens;
      }
      ghost var sel := State();
      BatchDistinct(Cfg(), sel, items, left);
      NobodyFinished(Cfg(), sel);
      BatchInVocab(Cfg(), net, sel, items, left);
      var logits, grown, pool := ForwardItems(items, left);
      if logits.Throws? {
        return Throws(logits.error), batch, tokens;
      }
      ghost var out := blocks;
      tokens := FinishBatch(items, logits.value);
      ghost var feeds := old(FeedsOf(mgr.keys, mgr.values, mgr.bs, net, sel.blocks, items));
      GreedyAreFromRows(net, sel.sequences, items, feeds, logits.value, tokens);
      r := Ok(());
      assert TookTokens(Cfg(), sel.(pool := pool, blocks := out), items, tokens, State());
    }

    // ---- Clients ----------------------------------------------------------------------------

    /** The tokens a request has so far; an id never issued is refused. */
    method Output(id: int) returns (r: Result<seq<Token>>)
      ensures r == if 0 <= id < |sequences| then Ok(sequences[id].output) else Throws(UnknownSequence)
    {
      r := if 0 <= id < |sequences| then Ok(sequences[id].output) else Throws(UnknownSequence);
    }

    method Status(id: int) returns (r: Result<SeqStatus>)
      ensures r == if 0 <= id < |sequences| then Ok(sequences[id].status) else Throws(UnknownSequence)
    {
      r := if 0 <= id < |sequences| then Ok(sequences[id].status) else Throws(UnknownSequence);
    }

    /** Runs the engine until one new request has finished. */
    method Generate(prompt: seq<Token>, params: SamplingParams, maxTokens: int, eosId: int)
      returns (r: Result<seq<Token>>)
      requires Valid() && CanFinish(Cfg(), State())
      requires prompt != [] ==> FitsPool(mgr.bs, Request(prompt, params, maxTokens, eosId), |State().pool.count|)
      modifies this, mgr`prefix, mgr`tick, mgr`held, mgr`seen, mgr`prefixHits, mgr.alloc, mgr.keys, mgr.values
      ensures Valid() && CanFinish(Cfg(), State())
      ensures prompt == [] ==> r == Throws(EmptyPrompt) && State() == old(State())
      ensures prompt != [] ==> r.Ok? || r == Throws(TokenOutOfRange)
      ensures prompt != [] && ContextsInVocab(net, old(sequences)) && AllInVocab(net, prompt) ==> r.Ok?
      ensures r.Ok? ==>
                && |old(sequences)| < |sequences| && sequences[|old(sequences)|].status == Finished
                && sequences[|old(sequences)|].output == r.value
                && sequences[|old(sequences)|].request == Request(prompt, params, maxTokens, eosId)
      ensures r.Ok? && IsGreedy(params) && CollisionFree(mgr.hash, mgr.bs, mgr.seen) ==>
                prompt != [] && r.value == Solo(net, Request(prompt, params, maxTokens, eosId))
    {
      hide PoolValid, FreeInRange, Sound, Inv, FitsPool, CollisionFree, ContextsInVocab, AllInVocab, CanFinish;
      hide StepOutcome, Extended, Solo;
      var request := Request(prompt, params, maxTokens, eosId);
      ghost var before := State();
      var issued := AddRequest(request);
      if issued.Throws? {
        return Throws(issued.error);
      }
      QueuedCanFinish(Cfg(), net, before, request);
      var id := issued.value;
      ghost var knowsAll := ContextsInVocab(net, State().sequences);
      while sequences[id].status != Finished
        invariant Valid() && CanFinish(Cfg(), State()) && id < |sequences| && sequences[id].request == request
        invariant knowsAll ==> ContextsInVocab(net, sequences)
        decreases TotalRemaining(sequences)
      {
        ghost var e := State();
        UnfinishedIsBusy(Cfg(), e, id);
        var stepped, batch, tokens := Step();
        StepCanFinish(net, Cfg(), e, stepped, batch, tokens, State());
        StepProgresses(net, Cfg(), e, stepped, batch, tokens, State());
        StepKeeps(net, Cfg(), e, stepped, batch, tokens, State());
        ExtendedFinishes(e.sequences, sequences, stepped, batch, tokens);
        if knowsAll {
          StepStaysInVocab(net, Cfg(), e, stepped, batch, tokens, State());
        }
        if stepped.Throws? {
          return Throws(stepped.error);
        }
      }
      if IsGreedy(params) && CollisionFree(mgr.hash, mgr.bs, mgr.seen) {
        OutputIsSolo(mgr.keys, mgr.values, Cfg(), net, State(), id);
      }
      r := Ok(sequences[id].output);
    }
  }

  /** Greedy items of a batch took the first maximum of what their rows in the store yield. */
  ghost predicate GreedyFromRows(keys: Store, values: Store, net: Net, c: Config, sel: Sched, items: seq<BatchItem>,
                                 tokens: seq<Token>)
    reads keys, values
  {
    && DistinctItems(items, |sel.blocks|) && |sel.sequences| == |sel.blocks|
    && GreedyOf(net, sel.sequences, items, FeedsOf(keys, values, c.bs, net, sel.blocks, items), tokens)
  }

  /** The same for a step from state e, which forwards over the state it has selected. */
  ghost predicate StepFromRows(keys: Store, values: Store, net: Net, c: Config, e: Sched, items: seq<BatchItem>,
                               tokens: seq<Token>)
    reads keys, values
  {
    c.bs > 0 && Indexed(e) && GreedyFromRows(keys, values, net, c, Select(c, Admit(c, e)).0, items, tokens)
  }

  /** Greedy items took the first maximum of their row. */
  ghost predicate TokensOf(sequences: seq<EngineSequence>, items: seq<BatchItem>, logits: seq<seq<real>>,
                           tokens: seq<Token>) {
    && |tokens| == |items| == |logits|
    && forall k :: 0 <= k < |items| ==>
         && items[k].seqIndex < |sequences|
         && (IsGreedy(sequences[items[k].seqIndex].request.params) ==> tokens[k] == ArgMax(logits[k]))
  }

  ghost predicate GreedyOf(net: Net, sequences: seq<EngineSequence>, items: seq<BatchItem>, feeds: seq<Feed>,
                           tokens: seq<Token>) {
    && |tokens| == |items| == |feeds|
    && forall k :: 0 <= k < |items| ==>
         && items[k].seqIndex < |sequences|
         && (IsGreedy(sequences[items[k].seqIndex].request.params) ==>
               FeedOk(net, feeds[k]) && feeds[k].ids != [] && tokens[k] == ArgMax(LastLogits(net, feeds[k])))
  }

  lemma GreedyAreFromRows(net: Net, sequences: seq<EngineSequence>, items: seq<BatchItem>, feeds: seq<Feed>,
                          logits: seq<seq<real>>, tokens: seq<Token>)
    requires |feeds| == |items| && FromRows(net, feeds, logits) && TokensOf(sequences, items, logits, tokens)
    ensures GreedyOf(net, sequences, items, feeds, tokens)
  {
    hide LastLogits;
  }

  lemma MidDistinct(c: Config, e: Sched, items: seq<BatchItem>, k: nat)
    requires MidStep(c, e, items, k)
    ensures c.bs > 0 && Indexed(e) && DistinctItems(items, |e.sequences|)
  {
    hide Paged, FreeInRange, SeqOk, Forwarded;
  }

  /** The first maximum of the last row of a sequence's context is its greedy next token. */
  lemma LastRowsAreNext(net: Net, sequences: seq<EngineSequence>, items: seq<BatchItem>, logits: seq<seq<real>>,
                        tokens: seq<Token>, free: bool)
    requires forall k :: 0 <= k < |items| ==> items[k].seqIndex < |sequences|
    requires |tokens| == |items| == |logits|
    requires free ==> forall k :: 0 <= k < |items| ==> LastRowIs(net, sequences, items[k], logits, k)
    requires forall k :: 0 <= k < |items| && IsGreedy(sequences[items[k].seqIndex].request.params) ==>
               tokens[k] == ArgMax(logits[k])
    ensures free ==> forall k :: 0 <= k < |items| ==> TokenOk(net, sequences[items[k].seqIndex], tokens[k])
  {
    hide Logits;
    if free {
      forall k | 0 <= k < |items|
        ensures TokenOk(net, sequences[items[k].seqIndex], tokens[k])
      {
        assert LastRowIs(net, sequences, items[k], logits, k);
      }
    }
  }

  lemma NobodyFinished(c: Config, e: Sched)
    requires Inv(c, e)
    ensures StillRunning(e.sequences, e.running)
  {
    hide Paged, FreeInRange, AllSeqOk;
    forall i | 0 <= i < |e.running|
      ensures e.sequences[e.running[i]].status == Running
    {
      assert e.running[i] in e.running;
    }
  }

  /** A non-empty batch inside the vocabulary shows the vocabulary is not empty. */
  lemma BatchInVocab(c: Config, net: Net, e: Sched, items: seq<BatchItem>, left: int)
    requires c.bs > 0 && Inv(c, e) && items != [] && BatchOk(c, e, items, |e.running|, left)
    ensures ItemsInVocab(net, items) ==> net.vocab > 0
  {
    BatchReserves(c, e, items, |e.running|, left);
    hide Inv, BatchOk, ReserveItems, ItemsReserved;
    assert items[0].tokens != [];
    if ItemsInVocab(net, items) {
      assert InVocab(net, items[0].tokens[0]);
    }
  }

  /** No running sequence has finished. */
  predicate StillRunning(sequences: seq<EngineSequence>, running: seq<nat>) {
    forall i :: 0 <= i < |running| ==> running[i] < |sequences| && sequences[running[i]].status != Finished
  }

  lemma {:induction false} NobodyRetires(sequences: seq<EngineSequence>, running: seq<nat>)
    requires StillRunning(sequences, running)
    ensures Unfinished(sequences, running) == running
    decreases |running|
  {
    if running != [] {
      var n := |running| - 1;
      var init := running[..n];
      assert StillRunning(sequences, init);
      NobodyRetires(sequences, init);
      hide StillRunning;
      assert running == init + [running[n]];
    }
  }

  lemma TakeRunning(c: Config, e: Sched, id: nat, token: Token)
    requires c.bs > 0 && Indexed(e) && id < |e.sequences|
    requires !(e.sequences[id].request.eosId >= 0 && token == e.sequences[id].request.eosId)
    requires |e.sequences[id].output| + 1 < e.sequences[id].request.maxTokens
    requires StillRunning(e.sequences, e.running)
    ensures StillRunning(Take(c, e, id, token).sequences, e.running)
  {
    hide FreeFrom, RegisterFrom, FreeInRange;
  }

  lemma ItemTableHeld(c: Config, e: Sched, items: seq<BatchItem>, k: nat)
    requires c.bs > 0 && MidStep(c, e, items, k) && k < |items|
    ensures items[k].seqIndex < |e.sequences| == |e.blocks|
            && multiset(e.blocks[items[k].seqIndex].table) <= e.pool.held
  {
    ItemForwarded(c, e, items, k);
    hide PoolValid, AllHeld, Exclusive, MidStep, FreeInRange;
    AllHeldUpdate(e.blocks, items[k].seqIndex, EMPTY_BLOCKS);
  }

  lemma SameFreeInRange(s: Pool, t: Pool)
    requires FreeInRange(s) && t.free == s.free && |t.count| == |s.count|
    ensures FreeInRange(t)
  {
  }

  lemma TableIsHeld(c: Config, e: Sched, id: nat)
    requires Inv(c, e) && id < |e.blocks|
    ensures multiset(e.blocks[id].table) <= e.pool.held
  {
    hide PoolValid, AllHeld, Exclusive, Queues, AllSeqOk;
    AllHeldUpdate(e.blocks, id, EMPTY_BLOCKS);
  }

  /** The state after a request has been queued. */
  function Queued(e: Sched, request: Request): Sched {
    e.(sequences := e.sequences + [EngineSequence(request, [], Waiting, false)],
       blocks := e.blocks + [EMPTY_BLOCKS],
       waiting := e.waiting + [|e.sequences|])
  }

  lemma QueuedIs(e: Sched, request: Request)
    ensures Queued(e, request)
            == Sched(e.pool, e.blocks + [EMPTY_BLOCKS], e.sequences + [EngineSequence(request, [], Waiting, false)],
                                        e.waiting + [|e.sequences|], e.running, e.preemptions)
  {
  }

  lemma FreshIsPaged(bs: nat, s: Pool)
    requires PoolValid(bs, s) && s.held == multiset{}
    ensures Paged(bs, s, []) && FreeInRange(s)
  {
    ValidIsConsistent(bs, s);
  }

  lemma AllHeldMore(blocks: seq<SequenceBlocks>)
    ensures AllHeld(blocks + [EMPTY_BLOCKS]) == AllHeld(blocks)
  {
    assert (blocks + [EMPTY_BLOCKS])[..|blocks|] == blocks;
  }

  lemma QueuedKeeps(keys: Store, values: Store, c: Config, net: Net, e: Sched, request: Request)
    requires c.bs > 0 && Inv(c, e) && Sound(keys, values, c, net, e) && request.prompt != []
    ensures Inv(c, Queued(e, request)) && Sound(keys, values, c, net, Queued(e, request))
  {
    QueuedPaged(c.bs, e.pool, e.blocks);
    QueuedQueues(e, request);
    hide Paged, FreeInRange, Queues;
    var q := Queued(e, request);
    var s := EngineSequence(request, [], Waiting, false);
    assert SeqOk(c.bs, s, EMPTY_BLOCKS);
    hide SeqOk;
    hide CollisionFree, CacheHolds;
    EmptyTableHolds(keys, values, c.bs, net, s);
    hide SeqHolds;
  }

  lemma QueuedCanFinish(c: Config, net: Net, e: Sched, request: Request)
    requires c.bs > 0 && CanFinish(c, e) && FitsPool(c.bs, request, |e.pool.count|)
    ensures CanFinish(c, Queued(e, request))
    ensures ContextsInVocab(net, e.sequences) && AllInVocab(net, request.prompt) ==>
              ContextsInVocab(net, Queued(e, request).sequences)
  {
    hide FitsPool, AllInVocab;
    assert EngineSequence(request, [], Waiting, false).Context() == request.prompt;
  }

  lemma UnfinishedIsBusy(c: Config, e: Sched, id: nat)
    requires Inv(c, e) && id < |e.sequences| && e.sequences[id].status != Finished
    ensures c.bs > 0 && Indexed(e) && Busy(e)
  {
    hide Paged, AllSeqOk, FreeInRange;
  }

  lemma QueuedPaged(bs: nat, s: Pool, blocks: seq<SequenceBlocks>)
    requires Paged(bs, s, blocks)
    ensures Paged(bs, s, blocks + [EMPTY_BLOCKS])
  {
    hide PoolValid;
    AllHeldMore(blocks);
    hide AllHeld;
  }

  lemma QueuedQueues(e: Sched, request: Request)
    requires Queues(e) && Indexed(e)
    ensures Queues(Queued(e, request)) && Indexed(Queued(e, request))
  {
    hide FreeInRange;
  }
}
