/**
 The server's token fan-out: one background loop steps the engine and puts new tokens into per-request
 queues, which clients read at their own pace. Each method is one stretch of code that runs without
 giving up control, so an execution is any sequence of calls.
 */
module Services {
  import opened Results
  import opened Network
  import opened Sampler
  import opened PrefixCaches
  import opened BlockPools
  import opened ForwardBatches
  import opened Schedulers
  import opened SchedulerInvariants
  import opened EngineContents
  import opened StepRelations
  import opened Progress
  import opened Engines
  import opened EngineRuns
  import opened RowContents

  datatype Message = Emitted(token: Token) | Done

  predicate OnlyTokens(q: seq<Message>) {
    forall i :: 0 <= i < |q| ==> q[i].Emitted?
  }

  function Tokens(q: seq<Message>): (t: seq<Token>)
    requires OnlyTokens(q)
    ensures |t| == |q|
  {
    seq(|q|, i requires 0 <= i < |q| => q[i].token)
  }

  /** Tokens followed by one done. */
  predicate Closed(q: seq<Message>) {
    q != [] && q[|q| - 1].Done? && OnlyTokens(q[..|q| - 1])
  }

  /** Everything up to token n has been yielded or waits in the queue, in order and once. */
  ghost predicate Relayed(q: seq<Message>, y: seq<Token>, output: seq<Token>, n: nat) {
    n <= |output| && OnlyTokens(q) && y + Tokens(q) == output[..n]
  }

  /** One request's stream between two stretches: y is what its client has been given, d whether it was told the end. */
  ghost predicate StreamOk(s: EngineSequence, id: nat, queues: map<nat, seq<Message>>, emitted: map<nat, nat>,
                           y: seq<Token>, d: bool) {
    if id in emitted then
      id in queues && !d && s.status != Finished && emitted[id] == |s.output|
          && Relayed(queues[id], y, s.output, |s.output|)
    else if id in queues then
      !d && s.status == Finished && Closed(queues[id])
          && Relayed(queues[id][..|queues[id]| - 1], y, s.output, |s.output|)
    else y <= s.output && (d ==> s.status == Finished && y == s.output)
  }

  /** Within the emission loop: ids still to be visited lag behind the engine's last step. */
  ghost predicate Lagging(s: EngineSequence, id: nat, queues: map<nat, seq<Message>>, emitted: map<nat, nat>,
                          y: seq<Token>, d: bool) {
    id in emitted && id in queues && !d && Relayed(queues[id], y, s.output, emitted[id])
  }

  ghost predicate Fan(sequences: seq<EngineSequence>, queues: map<nat, seq<Message>>, emitted: map<nat, nat>,
                      yielded: seq<seq<Token>>, done: seq<bool>, lagging: set<nat>) {
    && |yielded| == |done| == |sequences|
    && emitted.Keys <= queues.Keys && lagging <= emitted.Keys
    && (forall id :: id in queues ==> id < |sequences|)
    && forall id: nat :: id < |sequences| ==>
         if id in lagging then Lagging(sequences[id], id, queues, emitted, yielded[id], done[id])
         else StreamOk(sequences[id], id, queues, emitted, yielded[id], done[id])
  }

  function Messages(tokens: seq<Token>): (q: seq<Message>)
    ensures |q| == |tokens| && OnlyTokens(q) && Tokens(q) == tokens
  {
    seq(|tokens|, i requires 0 <= i < |tokens| => Emitted(tokens[i]))
  }

  // ---- What each stretch does to the streams ------------------------------------------------

  lemma FanSubmit(before: seq<EngineSequence>, after: seq<EngineSequence>, queues: map<nat, seq<Message>>,
                  emitted: map<nat, nat>,
                  yielded: seq<seq<Token>>, done: seq<bool>, s: EngineSequence)
    requires Fan(before, queues, emitted, yielded, done, {}) && after == before + [s] && s.output == []
             && s.status != Finished
    ensures |before| !in queues
    ensures Fan(after, queues[|before| := []], emitted[|before| := 0], yielded + [[]], done + [false], {})
  {
    var n := |before|;
    forall id: nat | id < |after|
      ensures StreamOk(after[id], id, queues[n := []], emitted[n := 0], (yielded + [[]])[id], (done + [false])[id])
    {
      if id < n {
        assert StreamOk(before[id], id, queues, emitted, yielded[id], done[id]);
      } else {
        assert [] + Tokens([]) == s.output[..0];
      }
    }
  }

  lemma FanReceive(sequences: seq<EngineSequence>, queues: map<nat, seq<Message>>, emitted: map<nat, nat>,
                   yielded: seq<seq<Token>>, done: seq<bool>, id: nat)
    requires Fan(sequences, queues, emitted, yielded, done, {}) && id in queues && queues[id] != []
    ensures id < |sequences| == |yielded| == |done|
    ensures queues[id][0].Emitted? ==>
              Fan(sequences, queues[id := queues[id][1..]], emitted,
                  yielded[id := yielded[id] + [queues[id][0].token]], done, {})
    ensures queues[id][0].Done? ==>
              && Fan(sequences, queues - {id}, emitted - {id}, yielded, done[id := true], {})
              && sequences[id].status == Finished && yielded[id] == sequences[id].output
  {
    var q, y := queues[id], yielded[id];
    assert StreamOk(sequences[id], id, queues, emitted, y, done[id]);
    ReceiveOne(sequences[id], id, queues, emitted, y, done[id]);
    hide Relayed, Closed;
    forall j: nat | j < |sequences| && j != id
      ensures StreamOk(sequences[j], j, queues[id := q[1..]], emitted, yielded[j], done[j])
      ensures StreamOk(sequences[j], j, queues - {id}, emitted - {id}, yielded[j], done[j])
    {
      assert StreamOk(sequences[j], j, queues, emitted, yielded[j], done[j]);
    }
  }

  lemma ReceiveOne(s: EngineSequence, id: nat, queues: map<nat, seq<Message>>, emitted: map<nat, nat>, y: seq<Token>,
                   d: bool)
    requires StreamOk(s, id, queues, emitted, y, d) && id in queues && queues[id] != []
    ensures queues[id][0].Emitted? ==>
              StreamOk(s, id, queues[id := queues[id][1..]], emitted, y + [queues[id][0].token], d)
    ensures queues[id][0].Done? ==>
              StreamOk(s, id, queues - {id}, emitted - {id}, y, true) && s.status == Finished && y == s.output
  {
    var q := queues[id];
    if id in emitted {
      NextToken(q, y, s.output);
    } else if q[0].Emitted? {
      assert q[..|q| - 1][1..] == q[1..][..|q| - 2];
      NextToken(q[..|q| - 1], y, s.output);
    } else {
      assert |q| == 1;
      assert y + Tokens([]) == y && s.output[..|s.output|] == s.output;
    }
  }

  lemma NextToken(q: seq<Message>, y: seq<Token>, output: seq<Token>)
    requires q != [] && Relayed(q, y, output, |output|)
    ensures q[0].Emitted? && Relayed(q[1..], y + [q[0].token], output, |output|)
  {
    assert Tokens(q) == [q[0].token] + Tokens(q[1..]);
    assert y + Tokens(q) == y + [q[0].token] + Tokens(q[1..]);
  }

  lemma FanAbandon(sequences: seq<EngineSequence>, queues: map<nat, seq<Message>>, emitted: map<nat, nat>,
                   yielded: seq<seq<Token>>, done: seq<bool>, id: nat)
    requires Fan(sequences, queues, emitted, yielded, done, {})
    ensures Fan(sequences, queues - {id}, emitted - {id}, yielded, done, {})
  {
    forall j: nat | j < |sequences|
      ensures StreamOk(sequences[j], j, queues - {id}, emitted - {id}, yielded[j], done[j])
    {
      assert StreamOk(sequences[j], j, queues, emitted, yielded[j], done[j]);
    }
  }

  /** A step extends outputs, so open streams may lag; finished ones have nothing more to come. */
  lemma FanLags(before: seq<EngineSequence>, after: seq<EngineSequence>, queues: map<nat, seq<Message>>,
                emitted: map<nat, nat>,
                yielded: seq<seq<Token>>, done: seq<bool>)
    requires Fan(before, queues, emitted, yielded, done, {}) && |after| == |before|
    requires forall j :: 0 <= j < |before| ==>
               before[j].output <= after[j].output && (before[j].status == Finished ==> SameGoal(before[j], after[j]))
    ensures Fan(after, queues, emitted, yielded, done, emitted.Keys)
  {
    forall id: nat | id < |after|
      ensures if id in emitted.Keys then Lagging(after[id], id, queues, emitted, yielded[id], done[id])
              else StreamOk(after[id], id, queues, emitted, yielded[id], done[id])
    {
      assert StreamOk(before[id], id, queues, emitted, yielded[id], done[id]);
      assert before[id].output == before[id].output[..|before[id].output|] == after[id].output[..|before[id].output|];
    }
  }

  /** A step that changed no output leaves the streams as they were. */
  lemma FanSame(before: seq<EngineSequence>, after: seq<EngineSequence>, queues: map<nat, seq<Message>>,
                emitted: map<nat, nat>,
                yielded: seq<seq<Token>>, done: seq<bool>)
    requires Fan(before, queues, emitted, yielded, done, {}) && |after| == |before|
    requires forall j :: 0 <= j < |before| ==> SameGoal(before[j], after[j])
    ensures Fan(after, queues, emitted, yielded, done, {})
  {
    forall id: nat | id < |after|
      ensures StreamOk(after[id], id, queues, emitted, yielded[id], done[id])
    {
      assert StreamOk(before[id], id, queues, emitted, yielded[id], done[id]);
    }
  }

  lemma ThrewNothing(e: seq<EngineSequence>, t: seq<EngineSequence>, r: Result<()>, batch: seq<BatchItem>,
                     tokens: seq<Token>)
    requires Extended(e, t, r, batch, tokens) && r.Throws?
    ensures |t| == |e| && forall j :: 0 <= j < |e| ==> SameGoal(e[j], t[j])
  {
  }

  lemma FanAt(sequences: seq<EngineSequence>, queues: map<nat, seq<Message>>, emitted: map<nat, nat>,
              yielded: seq<seq<Token>>, done: seq<bool>, left: set<nat>, id: nat)
    requires Fan(sequences, queues, emitted, yielded, done, left) && id in left
    ensures id < |sequences| && id in queues && id in emitted && emitted[id] <= |sequences[id].output|
  {
    assert id in emitted.Keys;
    assert Lagging(sequences[id], id, queues, emitted, yielded[id], done[id]);
  }

  /** Emitting one id's new tokens brings its stream up to date. */
  lemma FanEmit(sequences: seq<EngineSequence>, queues: map<nat, seq<Message>>, emitted: map<nat, nat>,
                yielded: seq<seq<Token>>, done: seq<bool>, left: set<nat>, id: nat)
    requires Fan(sequences, queues, emitted, yielded, done, left) && id in left
    requires id < |sequences| && id in queues && id in emitted && emitted[id] <= |sequences[id].output|
    ensures var s := sequences[id];
            var news := Messages(s.output[emitted[id]..]);
            if s.status == Finished then
              Fan(sequences, queues[id := queues[id] + news + [Done]], emitted - {id}, yielded, done, left - {id})
            else Fan(sequences, queues[id := queues[id] + news], emitted[id := |s.output|], yielded, done, left - {id})
  {
    var s := sequences[id];
    var news := Messages(s.output[emitted[id]..]);
    var q := queues[id] + news;
    assert Lagging(s, id, queues, emitted, yielded[id], done[id]);
    EmitOne(queues[id], yielded[id], s.output, emitted[id]);
    assert (q + [Done])[..|q|] == q;
    hide Relayed, Messages;
    forall j: nat | j < |sequences| && j != id && j !in left
      ensures StreamOk(sequences[j], j, queues[id := q + [Done]], emitted - {id}, yielded[j], done[j])
      ensures StreamOk(sequences[j], j, queues[id := q], emitted[id := |s.output|], yielded[j], done[j])
    {
      assert StreamOk(sequences[j], j, queues, emitted, yielded[j], done[j]);
    }
    forall j: nat | j < |sequences| && j != id && j in left
      ensures Lagging(sequences[j], j, queues[id := q + [Done]], emitted - {id}, yielded[j], done[j])
      ensures Lagging(sequences[j], j, queues[id := q], emitted[id := |s.output|], yielded[j], done[j])
    {
      assert Lagging(sequences[j], j, queues, emitted, yielded[j], done[j]);
    }
  }

  lemma EmitOne(q: seq<Message>, y: seq<Token>, output: seq<Token>, n: nat)
    requires n <= |output| && Relayed(q, y, output, n)
    ensures Relayed(q + Messages(output[n..]), y, output, |output|)
  {
    var news := Messages(output[n..]);
    assert Tokens(q + news) == Tokens(q) + output[n..];
    assert y + Tokens(q + news) == output[..n] + output[n..];
  }

  /**
   End to end: a greedy client that has been told the end has been given exactly its request's own
   plain greedy decoding, each token once and in order, and at any time a prefix of it.
   */
  lemma StreamIsSolo(keys: Store, values: Store, c: Config, net: Net, e: Sched, queues: map<nat, seq<Message>>,
                     emitted: map<nat, nat>,
                     yielded: seq<seq<Token>>, done: seq<bool>, id: nat)
    requires c.bs > 0 && Inv(c, e) && Sound(keys, values, c, net, e) && CollisionFree(c.hash, c.bs, e.pool.seen)
    requires Fan(e.sequences, queues, emitted, yielded, done, {}) && id < |e.sequences|
             && IsGreedy(e.sequences[id].request.params)
    ensures e.sequences[id].request.prompt != [] && yielded[id] <= Solo(net, e.sequences[id].request)
    ensures done[id] ==> yielded[id] == Solo(net, e.sequences[id].request)
  {
    hide Inv, Sound, CollisionFree, Solo;
    OutputIsSolo(keys, values, c, net, e, id);
    assert StreamOk(e.sequences[id], id, queues, emitted, yielded[id], done[id]);
    YieldedIsPrefix(e.sequences[id], id, queues, emitted, yielded[id], done[id]);
  }

  lemma YieldedIsPrefix(s: EngineSequence, id: nat, queues: map<nat, seq<Message>>, emitted: map<nat, nat>,
                        y: seq<Token>, d: bool)
    requires StreamOk(s, id, queues, emitted, y, d)
    ensures y <= s.output
  {
  }

  /** The same requests under the same ids. */
  predicate SameRequests(a: seq<EngineSequence>, b: seq<EngineSequence>) {
    |a| == |b| && forall id :: 0 <= id < |a| ==> b[id].request == a[id].request
  }

  /**
   One open stream has got exactly the tokens of the output that it had not got before, in order, and the end if
   the request has finished; it stays open if not.
   */
  ghost predicate StreamDelivered(s: EngineSequence, id: nat, before: map<nat, seq<Message>>, sent: map<nat, nat>,
                                  queues: map<nat, seq<Message>>, emitted: map<nat, nat>)
    requires id in before && id in sent
  {
    && id in queues && sent[id] <= |s.output|
    && queues[id] == before[id] + Messages(s.output[sent[id]..]) + (if s.status == Finished then [Done] else [])
    && (id in emitted <==> s.status != Finished) && (id in emitted ==> emitted[id] == |s.output|)
  }

  /** Every open stream has; closed ones are as they were. */
  ghost predicate Delivered(sequences: seq<EngineSequence>, before: map<nat, seq<Message>>, sent: map<nat, nat>,
                            queues: map<nat, seq<Message>>, emitted: map<nat, nat>) {
    DeliveredBut(sequences, before, sent, queues, emitted, {})
  }

  ghost predicate DeliveredBut(sequences: seq<EngineSequence>, before: map<nat, seq<Message>>, sent: map<nat, nat>,
                               queues: map<nat, seq<Message>>, emitted: map<nat, nat>, left: set<nat>) {
    && queues.Keys == before.Keys && sent.Keys <= before.Keys && left <= sent.Keys && emitted.Keys <= sent.Keys
    && (forall id :: id in before && (id !in sent || id in left) ==> id in queues && queues[id] == before[id])
    && (forall id :: id in left ==> id in emitted && emitted[id] == sent[id])
    && (forall id :: id in sent ==>
          id in before && id < |sequences|
          && (id !in left ==> StreamDelivered(sequences[id], id, before, sent, queues, emitted)))
  }

  lemma NothingDelivered(sequences: seq<EngineSequence>, queues: map<nat, seq<Message>>, emitted: map<nat, nat>,
                         yielded: seq<seq<Token>>, done: seq<bool>)
    requires Fan(sequences, queues, emitted, yielded, done, emitted.Keys)
    ensures DeliveredBut(sequences, queues, emitted, queues, emitted, emitted.Keys)
  {
    hide Lagging, StreamOk;
    forall id | id in emitted
      ensures id in queues && id < |sequences|
    {
      assert id in emitted.Keys;
    }
  }

  lemma SentBefore(sequences: seq<EngineSequence>, before: map<nat, seq<Message>>, sent: map<nat, nat>,
                   queues: map<nat, seq<Message>>, emitted: map<nat, nat>, left: set<nat>, id: nat)
    requires DeliveredBut(sequences, before, sent, queues, emitted, left) && id in left
    ensures id in sent && id in before && id in queues && queues[id] == before[id] && id in emitted
            && emitted[id] == sent[id]
  {
    hide StreamDelivered;
    assert id in sent.Keys;
  }

  lemma DeliveredOne(sequences: seq<EngineSequence>, before: map<nat, seq<Message>>, sent: map<nat, nat>,
                     q: map<nat, seq<Message>>, m: map<nat, nat>, queues: map<nat, seq<Message>>,
                     emitted: map<nat, nat>,
                     left: set<nat>, id: nat)
    requires DeliveredBut(sequences, before, sent, q, m, left) && id in left && id < |sequences|
    requires id in q && id in m && m[id] <= |sequences[id].output|
    requires var s := sequences[id];
             var news := Messages(s.output[m[id]..]);
             if s.status == Finished then queues == q[id := q[id] + news + [Done]] && emitted == m - {id}
             else queues == q[id := q[id] + news] && emitted == m[id := |s.output|]
    ensures DeliveredBut(sequences, before, sent, queues, emitted, left - {id})
  {
    hide Messages, StreamDelivered;
    StreamNow(sequences[id], id, before, sent, queues, emitted);
    forall j | j in sent && j !in left
      ensures StreamDelivered(sequences[j], j, before, sent, queues, emitted)
    {
      StreamStill(sequences[j], j, before, sent, q, m, queues, emitted);
    }
  }

  lemma StreamNow(s: EngineSequence, id: nat, before: map<nat, seq<Message>>, sent: map<nat, nat>,
                  queues: map<nat, seq<Message>>, emitted: map<nat, nat>)
    requires id in before && id in sent && sent[id] <= |s.output| && id in queues
    requires var news := Messages(s.output[sent[id]..]);
             if s.status == Finished then queues[id] == before[id] + news + [Done] && id !in emitted
             else queues[id] == before[id] + news && id in emitted && emitted[id] == |s.output|
    ensures StreamDelivered(s, id, before, sent, queues, emitted)
  {
    hide Messages;
    assert before[id] + Messages(s.output[sent[id]..]) + [] == before[id] + Messages(s.output[sent[id]..]);
  }

  lemma StreamStill(s: EngineSequence, id: nat, before: map<nat, seq<Message>>, sent: map<nat, nat>,
                    q: map<nat, seq<Message>>, m: map<nat, nat>, queues: map<nat, seq<Message>>, emitted: map<nat, nat>)
    requires id in before && id in sent && StreamDelivered(s, id, before, sent, q, m)
    requires id in q ==> id in queues && queues[id] == q[id]
    requires (id in emitted <==> id in m) && (id in m ==> emitted[id] == m[id])
    ensures StreamDelivered(s, id, before, sent, queues, emitted)
  {
    hide Messages;
  }

  // ---- The service --------------------------------------------------------------------------

  class EngineService {
    const engine: Engine
    const eosId: int
    var queues: map<nat, seq<Message>>
    var emitted: map<nat, nat>
    var wakeup: bool
    /** The loop is suspended on the wakeup event. */
    var asleep: bool
    ghost var yielded: seq<seq<Token>>
    ghost var done: seq<bool>

    ghost predicate Valid()
      reads this, engine, engine.mgr, engine.mgr.alloc, engine.mgr.keys, engine.mgr.values
    {
      && engine.Valid()
      && Fan(engine.sequences, queues, emitted, yielded, done, {})
      && (asleep && !wakeup ==> !engine.HasWork())
    }

    constructor (engine: Engine, eosId: int)
      requires engine.Valid() && engine.sequences == []
      ensures Valid() && this.engine == engine && this.eosId == eosId && queues == map[] && emitted == map[]
    {
      this.engine, this.eosId := engine, eosId;
      queues, emitted, wakeup, asleep := map[], map[], false, false;
      yielded, done := [], [];
    }

    /** Queues a request and wakes the loop. */
    method Submit(prompt: seq<Token>, params: SamplingParams, maxTokens: int) returns (r: Result<nat>)
      requires Valid()
      modifies this, engine
      ensures Valid() && (r.Ok? <==> prompt != [])
      ensures r.Ok? ==> r.value == |old(engine.sequences)| && r.value in queues && wakeup
      ensures engine.sequences == if r.Throws? then old(engine.sequences) else
                old(engine.sequences) + [EngineSequence(Request(prompt, params, maxTokens, eosId), [], Waiting, false)]
      ensures forall id :: id in old(queues) ==> id in queues && queues[id] == old(queues[id])
    {
      hide Inv, Sound, Fan, FreeInRange, PoolValid;
      ghost var before := engine.sequences;
      var request := Request(prompt, params, maxTokens, eosId);
      r := engine.AddRequest(request);
      if r.Throws? {
        return;
      }
      var id := r.value;
      FanSubmit(before, engine.sequences, queues, emitted, yielded, done, EngineSequence(request, [], Waiting, false));
      queues := queues[id := []];
      emitted := emitted[id := 0];
      yielded, done := yielded + [[]], done + [false];
      wakeup := true;
    }

    /** What a client does with the next message of its queue. */
    method Receive(id: nat) returns (m: Message)
      requires Valid() && id in queues && queues[id] != []
      modifies this`queues, this`emitted, this`yielded, this`done
      ensures Valid() && m == old(queues[id])[0]
      ensures id < |engine.sequences| && forall j :: 0 <= j < |engine.sequences| && j != id ==>
                yielded[j] == old(yielded)[j] && done[j] == old(done)[j]
      ensures m.Emitted? ==>
                yielded[id] == old(yielded)[id] + [m.token] && id in queues && queues[id] == old(queues[id])[1..]
      ensures m.Done? ==> id !in queues && done[id] && yielded[id] == engine.sequences[id].output
                          && engine.sequences[id].status == Finished
    {
      hide Inv, Sound, Fan;
      m := queues[id][0];
      FanReceive(engine.sequences, queues, emitted, yielded, done, id);
      if m.Emitted? {
        queues := queues[id := queues[id][1..]];
        yielded := yielded[id := yielded[id] + [m.token]];
      } else {
        queues, emitted := queues - {id}, emitted - {id};
        done := done[id := true];
      }
    }

    /** A client that goes away at any time. */
    method Abandon(id: nat)
      requires Valid()
      modifies this`queues, this`emitted
      ensures Valid() && queues == old(queues) - {id} && emitted == old(emitted) - {id}
    {
      hide Inv, Sound, Fan;
      FanAbandon(engine.sequences, queues, emitted, yielded, done, id);
      queues, emitted := queues - {id}, emitted - {id};
    }

    /**
     One turn of the background loop, which a suspended loop only takes once the event is set: sleep if
     there is no work, else step and fan the new tokens out. A step that throws ends the loop.
     */
    method RunOnce() returns (r: Result<()>, ghost batch: seq<BatchItem>, ghost tokens: seq<Token>)
      requires Valid() && (asleep ==> wakeup)
      modifies this, engine, engine.mgr`prefix, engine.mgr`tick, engine.mgr`held, engine.mgr`seen, engine.mgr`prefixHits
      modifies engine.mgr.alloc, engine.mgr.keys, engine.mgr.values
      ensures Valid() && yielded == old(yielded) && done == old(done)
      ensures old(engine.HasWork()) ==>
                && StepOutcome(engine.net, engine.Cfg(), old(engine.State()), r, batch, tokens, engine.State())
                && !asleep && wakeup == old(wakeup)
      ensures old(engine.HasWork()) && r.Ok? ==>
                Delivered(engine.sequences, old(queues), old(emitted), queues, emitted)
      ensures r.Throws? || !old(engine.HasWork()) ==> queues == old(queues) && emitted == old(emitted)
      ensures !old(engine.HasWork()) ==> r == Ok(()) && engine.State() == old(engine.State()) && asleep && !wakeup
      ensures asleep ==> !engine.HasWork() && engine.sequences == old(engine.sequences)
      ensures SameRequests(old(engine.sequences), engine.sequences)
      ensures !engine.prefixCache ==> engine.mgr.seen == old(engine.mgr.seen)
    {
      hide Fan, Inv, Sound, StepOutcome, Delivered;
      asleep := false;
      batch, tokens := [], [];
      if !engine.HasWork() {
        wakeup, asleep := false, true;
        return Ok(()), batch, tokens;
      }
      r, batch, tokens := StepEngine();
      if r.Ok? {
        EmitAll();
      }
    }

    /** The engine's step, after which open streams may lag. */
    method StepEngine() returns (r: Result<()>, ghost batch: seq<BatchItem>, ghost tokens: seq<Token>)
      requires engine.Valid() && Fan(engine.sequences, queues, emitted, yielded, done, {})
      modifies engine, engine.mgr`prefix, engine.mgr`tick, engine.mgr`held, engine.mgr`seen, engine.mgr`prefixHits
      modifies engine.mgr.alloc, engine.mgr.keys, engine.mgr.values
      ensures engine.Valid()
      ensures StepOutcome(engine.net, engine.Cfg(), old(engine.State()), r, batch, tokens, engine.State())
      ensures Fan(engine.sequences, queues, emitted, yielded, done, if r.Ok? then emitted.Keys else {})
      ensures SameRequests(old(engine.sequences), engine.sequences)
      ensures !engine.prefixCache ==> engine.mgr.seen == old(engine.mgr.seen)
    {
      hide Inv, Sound, StepOutcome, Extended, Fan, SameGoal, FreeInRange;
      ghost var e := engine.State();
      ValidIsIndexed(engine.Cfg(), e);
      r, batch, tokens := engine.Step();
      StepKeeps(engine.net, engine.Cfg(), e, r, batch, tokens, engine.State());
      ExtendedFinishes(e.sequences, engine.sequences, r, batch, tokens);
      if r.Ok? {
        FanLags(e.sequences, engine.sequences, queues, emitted, yielded, done);
      } else {
        ThrewNothing(e.sequences, engine.sequences, r, batch, tokens);
        FanSame(e.sequences, engine.sequences, queues, emitted, yielded, done);
      }
    }

    /** Puts each open request's new tokens into its queue, and the end once it has finished. */
    method EmitAll()
      requires Fan(engine.sequences, queues, emitted, yielded, done, emitted.Keys)
      modifies this`queues, this`emitted
      ensures Fan(engine.sequences, queues, emitted, yielded, done, {})
      ensures Delivered(engine.sequences, old(queues), old(emitted), queues, emitted)
    {
      hide Fan, Messages, StreamDelivered, DeliveredBut;
      NothingDelivered(engine.sequences, queues, emitted, yielded, done);
      var left := emitted.Keys;
      while left != {}
        invariant Fan(engine.sequences, queues, emitted, yielded, done, left)
        invariant DeliveredBut(engine.sequences, old(queues), old(emitted), queues, emitted, left)
        decreases |left|
      {
        var id :| id in left;
        FanAt(engine.sequences, queues, emitted, yielded, done, left, id);
        var output := engine.Output(id);
        var status := engine.Status(id);
        var news := Messages(output.value[emitted[id]..]);
        FanEmit(engine.sequences, queues, emitted, yielded, done, left, id);
        SentBefore(engine.sequences, old(queues), old(emitted), queues, emitted, left, id);
        ghost var q, m := queues, emitted;
        if status.value == Finished {
          queues := queues[id := queues[id] + news + [Done]];
          emitted := emitted - {id};
        } else {
          queues := queues[id := queues[id] + news];
          emitted := emitted[id := |output.value|];
        }
        DeliveredOne(engine.sequences, old(queues), old(emitted), q, m, queues, emitted, left, id);
        left := left - {id};
      }
    }
  }
}
