/** Whole runs of the engine: any interleaving of requests and steps. */
module EngineRuns {
  import opened Network
  import opened Sampler
  import opened Results
  import opened PrefixCaches
  import opened BlockPools
  import opened ForwardBatches
  import opened Schedulers
  import opened SchedulerInvariants
  import opened EngineContents
  import opened StepRelations
  import opened Progress
  import opened Engines

  datatype Op = Add(request: Request) | Advance

  /** The requests a run accepts, in the order of their ids. */
  function Accepted(ops: seq<Op>): seq<Request> {
    if ops == [] then []
    else
      var before, last := Accepted(ops[..|ops| - 1]), ops[|ops| - 1];
      if last.Add? && last.request.prompt != [] then before + [last.request] else before
  }

  ghost predicate RequestsAre(sequences: seq<EngineSequence>, requests: seq<Request>) {
    |sequences| == |requests| && forall id :: 0 <= id < |sequences| ==> sequences[id].request == requests[id]
  }

  /** Every greedy request has a prefix of its solo decoding, and all of it exactly when it has finished. */
  ghost predicate OutputsAreSolo(net: Net, sequences: seq<EngineSequence>) {
    forall id :: 0 <= id < |sequences| && IsGreedy(sequences[id].request.params) ==>
      && sequences[id].request.prompt != []
      && sequences[id].output <= Solo(net, sequences[id].request)
      && (sequences[id].status == Finished <==> sequences[id].output == Solo(net, sequences[id].request))
  }

  lemma ValidIsIndexed(c: Config, e: Sched)
    requires Inv(c, e)
    ensures c.bs > 0 && Indexed(e)
  {
    hide Paged, Queues, AllSeqOk, FreeInRange;
  }

  /** Nothing that has been a parent can collide while nothing has been one. */
  lemma NothingSeen(hash: HashBlock, bs: nat, seen: set<seq<Token>>)
    requires bs > 0 && seen == {}
    ensures CollisionFree(hash, bs, seen)
  {
  }

  /** One event of a run: a request arrives, or the engine advances, perhaps failing. */
  method Apply(engine: Engine, op: Op)
    requires engine.Valid()
    modifies engine, engine.mgr`prefix, engine.mgr`tick, engine.mgr`held, engine.mgr`seen, engine.mgr`prefixHits
    modifies engine.mgr.alloc, engine.mgr.keys, engine.mgr.values
    ensures engine.Valid()
    ensures forall requests :: RequestsAre(old(engine.sequences), requests) ==>
              RequestsAre(engine.sequences,
                          if op.Add? && op.request.prompt != [] then requests + [op.request] else requests)
    ensures !engine.prefixCache ==> engine.mgr.seen == old(engine.mgr.seen)
  {
    hide Inv, Sound, StepOutcome, Extended, FreeInRange;
    match op {
      case Add(request) =>
        var id := engine.AddRequest(request);
      case Advance =>
        ghost var e := engine.State();
        ValidIsIndexed(engine.Cfg(), e);
        var r, batch, tokens := engine.Step();
        StepKeeps(engine.net, engine.Cfg(), e, r, batch, tokens, engine.State());
        ExtendedFinishes(e.sequences, engine.sequences, r, batch, tokens);
    }
  }

  /**
   The main theorem, over every run: whatever requests arrive between whatever steps, with batching,
   preemption and prefix sharing, and failed steps included, each greedy request decodes exactly as it
   would alone. The one condition is that no two prefixes that ever served as parents in the prefix
   cache share a chain hash; with prefix caching off there is no condition.
   */
  method Drive(net: Net, bs: nat, numBlocks: nat, hash: HashBlock, maxBatch: int, prefixCache: bool, ops: seq<Op>)
    returns (engine: Engine)
    requires net.layers > 0 && bs > 0
    ensures engine.Valid() && engine.net == net && engine.Cfg() == Config(bs, hash, maxBatch, prefixCache)
    ensures RequestsAre(engine.sequences, Accepted(ops))
    ensures !prefixCache || CollisionFree(hash, bs, engine.mgr.seen) ==> OutputsAreSolo(net, engine.sequences)
  {
    hide Inv, Sound, CollisionFree, Solo, RequestsAre, FreeInRange, PoolValid, Accepted;
    engine := new Engine(net, bs, numBlocks, hash, maxBatch, prefixCache);
    AcceptedNone();
    NoRequests(engine.sequences);
    var n := 0;
    while n < |ops|
      invariant 0 <= n <= |ops| && fresh(engine) && fresh(engine.mgr) && fresh(engine.mgr.alloc)
                && fresh(engine.mgr.keys) && fresh(engine.mgr.values)
      invariant engine.Valid() && engine.net == net && engine.Cfg() == Config(bs, hash, maxBatch, prefixCache)
      invariant RequestsAre(engine.sequences, Accepted(ops[..n])) && (!prefixCache ==> engine.mgr.seen == {})
    {
      AcceptedNext(ops, n);
      Apply(engine, ops[n]);
      n := n + 1;
    }
    assert ops[..n] == ops;
    if !prefixCache {
      NothingSeen(hash, bs, engine.mgr.seen);
    }
    if CollisionFree(hash, bs, engine.mgr.seen) {
      forall id | 0 <= id < |engine.sequences| && IsGreedy(engine.sequences[id].request.params) {
        OutputIsSolo(engine.mgr.keys, engine.mgr.values, engine.Cfg(), net, engine.State(), id);
      }
    }
  }

  lemma AcceptedNone()
    ensures Accepted([]) == []
  {
  }

  lemma AcceptedNext(ops: seq<Op>, n: nat)
    requires n < |ops|
    ensures Accepted(ops[..n + 1])
            == if ops[n].Add? && ops[n].request.prompt != [] then Accepted(ops[..n]) + [ops[n].request]
               else Accepted(ops[..n])
  {
    assert ops[..n + 1][..n] == ops[..n];
  }

  lemma NoRequests(sequences: seq<EngineSequence>)
    requires sequences == []
    ensures RequestsAre(sequences, [])
  {
  }

  /**
   With prefix caching off and every request small enough for the empty pool, stepping finishes all
   requests, within as many steps as there are tokens still to come.
   */
  method Drain(engine: Engine) returns (r: Result<()>, steps: nat)
    requires engine.Valid() && CanFinish(engine.Cfg(), engine.State())
    modifies engine, engine.mgr`prefix, engine.mgr`tick, engine.mgr`held, engine.mgr`seen, engine.mgr`prefixHits
    modifies engine.mgr.alloc, engine.mgr.keys, engine.mgr.values
    ensures engine.Valid() && |engine.sequences| == |old(engine.sequences)|
    ensures r.Ok? ==> steps <= TotalRemaining(old(engine.sequences))
                      && forall id :: 0 <= id < |engine.sequences| ==> engine.sequences[id].status == Finished
    ensures ContextsInVocab(engine.net, old(engine.sequences)) ==> r.Ok?
    ensures forall id :: 0 <= id < |engine.sequences| ==>
              old(engine.sequences)[id].output <= engine.sequences[id].output
  {
    hide Inv, Sound, CanFinish, StepOutcome, Extended, ContextsInVocab, FreeInRange, TotalRemaining;
    ghost var start := engine.sequences;
    ghost var knowsAll := ContextsInVocab(engine.net, start);
    steps := 0;
    while engine.HasWork()
      invariant engine.Valid() && CanFinish(engine.Cfg(), engine.State()) && |engine.sequences| == |start|
      invariant steps + TotalRemaining(engine.sequences) <= TotalRemaining(start)
      invariant knowsAll ==> ContextsInVocab(engine.net, engine.sequences)
      invariant forall id :: 0 <= id < |start| ==> start[id].output <= engine.sequences[id].output
      decreases TotalRemaining(engine.sequences)
    {
      ghost var e := engine.State();
      ValidIsIndexed(engine.Cfg(), e);
      var stepped, batch, tokens := engine.Step();
      StepKeeps(engine.net, engine.Cfg(), e, stepped, batch, tokens, engine.State());
      StepCanFinish(engine.net, engine.Cfg(), e, stepped, batch, tokens, engine.State());
      StepProgresses(engine.net, engine.Cfg(), e, stepped, batch, tokens, engine.State());
      ExtendedFinishes(e.sequences, engine.sequences, stepped, batch, tokens);
      if knowsAll {
        StepStaysInVocab(engine.net, engine.Cfg(), e, stepped, batch, tokens, engine.State());
      }
      if stepped.Throws? {
        return stepped, steps;
      }
      steps := steps + 1;
    }
    IdleIsFinished(engine.Cfg(), engine.State());
    r := Ok(());
  }

  lemma IdleIsFinished(c: Config, e: Sched)
    requires Inv(c, e) && !Busy(e)
    ensures forall id :: 0 <= id < |e.sequences| ==> e.sequences[id].status == Finished
  {
    hide Paged, AllSeqOk, FreeInRange;
  }
}
