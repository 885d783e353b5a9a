/** Whole runs of the server: requests, turns of the background loop, and clients who read and leave. */
module ServiceRuns {
  import opened Network
  import opened Sampler
  import opened Results
  import opened PrefixCaches
  import opened ForwardBatches
  import opened Schedulers
  import opened SchedulerInvariants
  import opened EngineContents
  import opened StepRelations
  import opened Progress
  import opened Engines
  import opened EngineRuns
  import opened Services

  datatype ServiceOp =
    | Ask(prompt: seq<Token>, params: SamplingParams, maxTokens: int)
    | Turn
    | Read(id: nat)
    | Leave(id: nat)

  /** The requests a run accepts, in the order of their ids. */
  function Asked(ops: seq<ServiceOp>, eosId: int): seq<Request> {
    if ops == [] then []
    else
      var before, last := Asked(ops[..|ops| - 1], eosId), ops[|ops| - 1];
      if last.Ask? && last.prompt != [] then before + [Request(last.prompt, last.params, last.maxTokens, eosId)]
      else before
  }

  /** Each greedy client has been given a prefix of its solo decoding, and all of it if it was told the end. */
  ghost predicate ClientsAreServed(net: Net, sequences: seq<EngineSequence>, yielded: seq<seq<Token>>,
                                   done: seq<bool>) {
    && |yielded| == |done| == |sequences|
    && forall id :: 0 <= id < |sequences| && IsGreedy(sequences[id].request.params) ==>
         && sequences[id].request.prompt != []
         && yielded[id] <= Solo(net, sequences[id].request)
         && (done[id] ==> yielded[id] == Solo(net, sequences[id].request))
  }

  lemma AskedNext(ops: seq<ServiceOp>, eosId: int, n: nat)
    requires n < |ops|
    ensures Asked(ops[..n + 1], eosId)
            == if ops[n].Ask? && ops[n].prompt != []
               then Asked(ops[..n], eosId) + [Request(ops[n].prompt, ops[n].params, ops[n].maxTokens, eosId)]
               else Asked(ops[..n], eosId)
  {
    assert ops[..n + 1][..n] == ops[..n];
  }

  lemma StillRequests(a: seq<EngineSequence>, b: seq<EngineSequence>, requests: seq<Request>)
    requires RequestsAre(a, requests) && SameRequests(a, b)
    ensures RequestsAre(b, requests)
  {
  }

  /**
   One event. The loop turns unless a step has thrown, or it sleeps and nobody has woken it; a client reads if
   there is a message for it.
   */
  method Serve(service: EngineService, op: ServiceOp, running: bool, ghost requests: seq<Request>)
    returns (stillRunning: bool)
    requires service.Valid() && RequestsAre(service.engine.sequences, requests)
    modifies service, service.engine, service.engine.mgr`prefix, service.engine.mgr`tick, service.engine.mgr`held
    modifies service.engine.mgr`seen, service.engine.mgr`prefixHits
    modifies service.engine.mgr.alloc, service.engine.mgr.keys, service.engine.mgr.values
    ensures service.Valid() && (stillRunning ==> running)
    ensures RequestsAre(service.engine.sequences,
                        if op.Ask? && op.prompt != []
                        then requests + [Request(op.prompt, op.params, op.maxTokens, service.eosId)] else requests)
    ensures !service.engine.prefixCache ==> service.engine.mgr.seen == old(service.engine.mgr.seen)
  {
    hide Inv, Sound, Fan, RequestsAre;
    stillRunning := running;
    match op {
      case Ask(prompt, params, maxTokens) =>
        var id := service.Submit(prompt, params, maxTokens);
        if id.Ok? {
          OneMoreRequest(old(service.engine.sequences), requests,
                         EngineSequence(Request(prompt, params, maxTokens, service.eosId), [], Waiting, false));
        }
      case Turn =>
        if running && (service.asleep ==> service.wakeup) {
          var r, batch, tokens := service.RunOnce();
          stillRunning := r.Ok?;
          StillRequests(old(service.engine.sequences), service.engine.sequences, requests);
        }
      case Read(id) =>
        if id in service.queues && service.queues[id] != [] {
          var m := service.Receive(id);
        }
      case Leave(id) =>
        service.Abandon(id);
    }
  }

  lemma OneMoreRequest(sequences: seq<EngineSequence>, requests: seq<Request>, s: EngineSequence)
    requires RequestsAre(sequences, requests)
    ensures RequestsAre(sequences + [s], requests + [s.request])
  {
  }

  /**
   Over every run of the server: each greedy client has been given its request's own plain greedy decoding in
   order, as far as it has read, and the whole of it if it has been told the end. The one condition is that of
   the engine.
   */
  method DriveService(net: Net, bs: nat, numBlocks: nat, hash: HashBlock, maxBatch: int, prefixCache: bool, eosId: int,
                      ops: seq<ServiceOp>)
    returns (service: EngineService)
    requires net.layers > 0 && bs > 0
    ensures service.Valid() && service.engine.net == net
            && service.engine.Cfg() == Config(bs, hash, maxBatch, prefixCache)
    ensures RequestsAre(service.engine.sequences, Asked(ops, eosId))
    ensures !prefixCache || CollisionFree(hash, bs, service.engine.mgr.seen) ==>
              ClientsAreServed(net, service.engine.sequences, service.yielded, service.done)
  {
    hide Inv, Sound, Fan, CollisionFree, Solo, RequestsAre, Asked;
    var engine := new Engine(net, bs, numBlocks, hash, maxBatch, prefixCache);
    service := new EngineService(engine, eosId);
    NothingAsked(engine.sequences, eosId);
    var running := true;
    var n := 0;
    while n < |ops|
      invariant 0 <= n <= |ops| && fresh(service) && service.engine == engine && service.eosId == eosId
      invariant fresh(engine) && fresh(engine.mgr) && fresh(engine.mgr.alloc) && fresh(engine.mgr.keys)
                && fresh(engine.mgr.values)
      invariant service.Valid() && engine.net == net && engine.Cfg() == Config(bs, hash, maxBatch, prefixCache)
      invariant RequestsAre(engine.sequences, Asked(ops[..n], eosId)) && (!prefixCache ==> engine.mgr.seen == {})
    {
      AskedNext(ops, eosId, n);
      running := Serve(service, ops[n], running, Asked(ops[..n], eosId));
      n := n + 1;
    }
    assert ops[..n] == ops;
    if !prefixCache {
      NothingSeen(hash, bs, engine.mgr.seen);
    }
    if CollisionFree(hash, bs, engine.mgr.seen) {
      AllServed(service);
    }
  }

  lemma NothingAsked(sequences: seq<EngineSequence>, eosId: int)
    requires sequences == []
    ensures RequestsAre(sequences, Asked([], eosId))
  {
  }

  lemma AllServed(service: EngineService)
    requires service.Valid() && service.engine.mgr.bs > 0
    requires CollisionFree(service.engine.mgr.hash, service.engine.mgr.bs, service.engine.mgr.seen)
    ensures ClientsAreServed(service.engine.net, service.engine.sequences, service.yielded, service.done)
  {
    hide Inv, Sound, CollisionFree, Solo, StreamOk;
    var engine := service.engine;
    forall id | 0 <= id < |engine.sequences| && IsGreedy(engine.sequences[id].request.params) {
      StreamIsSolo(engine.mgr.keys, engine.mgr.values, engine.Cfg(), engine.net, engine.State(), service.queues,
                   service.emitted, service.yielded, service.done, id);
    }
  }

  // ---- Every client gets its whole answer ---------------------------------------------------

  lemma MessagesJoin(a: seq<Token>, b: seq<Token>)
    ensures Messages(a) + Messages(b) == Messages(a + b)
  {
  }

  /** Between turns every open stream is up to date. */
  lemma UpToDate(sequences: seq<EngineSequence>, queues: map<nat, seq<Message>>, emitted: map<nat, nat>,
                 yielded: seq<seq<Token>>, done: seq<bool>)
    requires Fan(sequences, queues, emitted, yielded, done, {})
    ensures Delivered(sequences, queues, emitted, queues, emitted)
  {
    hide Relayed, Closed;
    forall id | id in emitted
      ensures id in queues && id < |sequences| && StreamDelivered(sequences[id], id, queues, emitted, queues, emitted)
    {
      assert id in emitted.Keys;
      assert StreamOk(sequences[id], id, queues, emitted, yielded[id], done[id]);
      assert Messages(sequences[id].output[emitted[id]..]) == [];
    }
  }

  /** One stream over two stretches. */
  lemma StreamChain(s: EngineSequence, t: EngineSequence, id: nat, q0: map<nat, seq<Message>>, m0: map<nat, nat>,
                    q1: map<nat, seq<Message>>, m1: map<nat, nat>, q2: map<nat, seq<Message>>, m2: map<nat, nat>)
    requires id in q0 && id in m0 && StreamDelivered(s, id, q0, m0, q1, m1)
    requires s.output <= t.output && (s.status == Finished ==> t.status == Finished && t.output == s.output)
    requires if id in m1 then StreamDelivered(t, id, q1, m1, q2, m2) else id in q2 && q2[id] == q1[id] && id !in m2
    ensures StreamDelivered(t, id, q0, m0, q2, m2)
  {
    hide Messages;
    if id in m1 {
      var n := m0[id];
      MessagesJoin(s.output[n..], t.output[|s.output|..]);
      assert s.output[n..] + t.output[|s.output|..] == t.output[n..];
      var a, b := Messages(s.output[n..]), Messages(t.output[|s.output|..]);
      assert q0[id] + a + [] + b == q0[id] + (a + b);
    }
  }

  lemma DeliveredChain(e: seq<EngineSequence>, t: seq<EngineSequence>, q0: map<nat, seq<Message>>, m0: map<nat, nat>,
                       q1: map<nat, seq<Message>>, m1: map<nat, nat>, q2: map<nat, seq<Message>>, m2: map<nat, nat>)
    requires Delivered(e, q0, m0, q1, m1) && Delivered(t, q1, m1, q2, m2) && |t| == |e|
    requires forall id :: 0 <= id < |e| ==>
               && e[id].output <= t[id].output
               && (e[id].status == Finished ==> t[id].status == Finished && t[id].output == e[id].output)
    ensures Delivered(t, q0, m0, q2, m2)
  {
    hide StreamDelivered;
    forall id | id in m0
      ensures StreamDelivered(t[id], id, q0, m0, q2, m2)
    {
      assert StreamDelivered(e[id], id, q0, m0, q1, m1);
      StreamChain(e[id], t[id], id, q0, m0, q1, m1, q2, m2);
    }
  }

  /**
   With room for everybody alone and known tokens, at most as many turns as there are tokens still to come give
   every open stream the whole rest of its output and the end, after what it had before.
   */
  method Flush(service: EngineService) returns (turns: nat)
    requires service.Valid() && CanFinish(service.engine.Cfg(), service.engine.State())
    requires ContextsInVocab(service.engine.net, service.engine.sequences)
    modifies service, service.engine, service.engine.mgr`prefix, service.engine.mgr`tick, service.engine.mgr`held
    modifies service.engine.mgr`seen, service.engine.mgr`prefixHits
    modifies service.engine.mgr.alloc, service.engine.mgr.keys, service.engine.mgr.values
    ensures service.Valid() && !service.engine.HasWork() && turns <= TotalRemaining(old(service.engine.sequences))
    ensures forall id :: id in old(service.emitted) ==>
              && id in old(service.queues) && id in service.queues && id < |service.engine.sequences|
              && service.engine.sequences[id].status == Finished
              && old(service.emitted)[id] <= |service.engine.sequences[id].output|
              && service.queues[id]
                 == old(service.queues)[id]
                    + Messages(service.engine.sequences[id].output[old(service.emitted)[id]..]) + [Done]
  {
    hide Inv, Sound, Fan, StepOutcome, CanFinish, RoomForEach, ContextsInVocab, Delivered, TotalRemaining, Extended;
    var engine := service.engine;
    ghost var start, q0, m0 := engine.sequences, service.queues, service.emitted;
    UpToDate(engine.sequences, q0, m0, service.yielded, service.done);
    turns := 0;
    while engine.HasWork()
      invariant service.Valid() && service.engine == engine && CanFinish(engine.Cfg(), engine.State())
      invariant ContextsInVocab(engine.net, engine.sequences)
      invariant turns + TotalRemaining(engine.sequences) <= TotalRemaining(start)
      invariant Delivered(engine.sequences, q0, m0, service.queues, service.emitted)
      decreases TotalRemaining(engine.sequences)
    {
      ghost var e, q1, m1 := engine.State(), service.queues, service.emitted;
      var r, batch, tokens := service.RunOnce();
      ghost var t := engine.State();
      StepCanFinish(engine.net, engine.Cfg(), e, r, batch, tokens, t);
      StepStaysInVocab(engine.net, engine.Cfg(), e, r, batch, tokens, t);
      StepProgresses(engine.net, engine.Cfg(), e, r, batch, tokens, t);
      StepKeeps(engine.net, engine.Cfg(), e, r, batch, tokens, t);
      ExtendedFinishes(e.sequences, t.sequences, r, batch, tokens);
      DeliveredChain(e.sequences, t.sequences, q0, m0, q1, m1, service.queues, service.emitted);
      turns := turns + 1;
    }
    IdleIsFinished(engine.Cfg(), engine.State());
    WholeAnswers(engine.sequences, q0, m0, service.queues, service.emitted);
  }

  lemma WholeAnswers(sequences: seq<EngineSequence>, q0: map<nat, seq<Message>>, m0: map<nat, nat>,
                     queues: map<nat, seq<Message>>, emitted: map<nat, nat>)
    requires Delivered(sequences, q0, m0, queues, emitted)
    requires forall id :: 0 <= id < |sequences| ==> sequences[id].status == Finished
    ensures forall id :: id in m0 ==>
              && id in q0 && id in queues && id < |sequences| && m0[id] <= |sequences[id].output|
              && queues[id] == q0[id] + Messages(sequences[id].output[m0[id]..]) + [Done]
  {
    hide Messages;
    forall id | id in m0
      ensures id in q0 && id in queues && id < |sequences| && m0[id] <= |sequences[id].output|
      ensures queues[id] == q0[id] + Messages(sequences[id].output[m0[id]..]) + [Done]
    {
      assert StreamDelivered(sequences[id], id, q0, m0, queues, emitted);
    }
  }
}
