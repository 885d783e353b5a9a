/**
 The continuous-batching scheduler as a value: admission, batch assembly under a block budget,
 preemption, and what one round of sampled tokens does to the sequences. The engine's methods are
 proved to compute these functions.
 */
module Schedulers {
  import opened Arithmetic
  import opened Results
  import opened Network
  import opened Sampler
  import opened PrefixCaches
  import opened BlockAllocators
  import opened BlockPools
  import opened ForwardBatches

  /** A generation request. A negative eosId disables stopping on a token. */
  datatype Request = Request(prompt: seq<Token>, params: SamplingParams, maxTokens: int, eosId: int)

  datatype SeqStatus = Waiting | Running | Finished

  /** A request being scheduled; its paging state is kept beside it, under the same id. */
  datatype EngineSequence = EngineSequence(request: Request, output: seq<Token>, status: SeqStatus, prefilled: bool) {
    /** Prompt and everything generated so far. */
    function Context(): seq<Token> {
      request.prompt + output
    }
  }

  /** What never changes during a run. */
  datatype Config = Config(bs: nat, hash: HashBlock, maxBatch: int, prefixCache: bool)

  /** Ids are positions in `sequences` and `blocks`. */
  datatype Sched = Sched(
    pool: Pool,
    blocks: seq<SequenceBlocks>,
    sequences: seq<EngineSequence>,
    waiting: seq<nat>,
    running: seq<nat>,
    preemptions: nat)

  /** Every queued id has its sequence. */
  ghost predicate Indexed(e: Sched) {
    && |e.blocks| == |e.sequences|
    && (forall i :: 0 <= i < |e.waiting| ==> e.waiting[i] < |e.sequences|)
    && (forall i :: 0 <= i < |e.running| ==> e.running[i] < |e.sequences|)
    && FreeInRange(e.pool)
  }

  // ---- Admission ----------------------------------------------------------------------------

  function AdmissionNeed(s: EngineSequence): nat {
    if s.prefilled then 1 else |s.request.prompt| + |s.output|
  }

  /** Whether the free list alone can take the sequence in. */
  predicate Admissible(bs: nat, s: EngineSequence, b: SequenceBlocks, free: nat)
    requires bs > 0
  {
    BlocksFor(bs, b.length + AdmissionNeed(s)) - |b.table| <= free
  }

  ghost function Admit(c: Config, e: Sched): (r: Sched)
    requires c.bs > 0 && Indexed(e)
    ensures Indexed(r)
    decreases |e.waiting|
  {
    if e.waiting == [] || |e.running| >= c.maxBatch then e
    else
      var id := e.waiting[0];
      if !Admissible(c.bs, e.sequences[id], e.blocks[id], |e.pool.free|) then e
      else Admit(c, AdmitFirst(e))
  }

  ghost function AdmitFirst(e: Sched): (r: Sched)
    requires Indexed(e) && e.waiting != []
    ensures Indexed(r)
  {
    var id := e.waiting[0];
    e.(sequences := e.sequences[id := e.sequences[id].(status := Running)],
       running := e.running + [id], waiting := e.waiting[1..])
  }

  /** One turn of the admission loop, or its end. */
  lemma AdmitUnfold(c: Config, e: Sched)
    requires c.bs > 0 && Indexed(e)
    ensures e.waiting == [] || |e.running| >= c.maxBatch ==> Admit(c, e) == e
    ensures e.waiting != [] && |e.running| < c.maxBatch ==>
              var id := e.waiting[0];
              && |AdmitFirst(e).waiting| < |e.waiting|
              && Admit(c, e) == if !Admissible(c.bs, e.sequences[id], e.blocks[id], |e.pool.free|) then e
                                else Admit(c, AdmitFirst(e))
  {
    hide FreeInRange, Admissible;
  }

  // ---- One pass of batch assembly -----------------------------------------------------------

  /** Tokens to feed: the last output of a prefilled sequence, else everything not yet cached. */
  function StepTokens(s: EngineSequence, b: SequenceBlocks): seq<Token> {
    var ctx := s.Context();
    if s.prefilled then (if s.output == [] then [] else [s.output[|s.output| - 1]])
    else if b.length <= |ctx| then ctx[b.length..]
    else []
  }

  /** Leading tokens that may be shared: full blocks, leaving at least one token to forward. */
  function ShareCap(bs: nat, ctx: seq<Token>): (cap: nat)
    requires bs > 0 && ctx != []
    ensures cap < |ctx|
  {
    Division(|ctx| - 1, bs);
    (|ctx| - 1) / bs * bs
  }

  /** It is the largest whole number of blocks that leaves a token. */
  lemma ShareCapIsLargest(bs: nat, ctx: seq<Token>)
    requires bs > 0 && ctx != []
    ensures ShareCap(bs, ctx) % bs == 0 && ShareCap(bs, ctx) < |ctx| <= ShareCap(bs, ctx) + bs
  {
    var b := (|ctx| - 1) / bs;
    Division(|ctx| - 1, bs);
    QuotientOf(bs, b, 0);
  }

  /** A running sequence that holds no blocks first shares what the cache has of its context. */
  ghost function ShareFor(c: Config, e: Sched, id: nat): (r: Sched)
    requires c.bs > 0 && Indexed(e) && id < |e.sequences|
    ensures Indexed(r) && r.running == e.running
  {
    var s, b := e.sequences[id], e.blocks[id];
    if !c.prefixCache || s.prefilled || b != EMPTY_BLOCKS || s.Context() == [] then e
    else
      var cap := ShareCap(c.bs, s.Context());
      if cap == 0 then e
      else
        var (table, t) := AcquireFrom(c.hash, c.bs, e.pool, s.Context()[..cap], []);
        AcquireFreeSame(c.hash, c.bs, e.pool, s.Context()[..cap], []);
        e.(pool := t, blocks := e.blocks[id := SequenceBlocks(table, |table| * c.bs)])
  }

  lemma {:induction false} AcquireFreeSame(hash: HashBlock, bs: nat, s: Pool, tokens: seq<int>, table: seq<nat>)
    requires bs > 0
    ensures var (grown, t) := AcquireFrom(hash, bs, s, tokens, table); t.free == s.free && |t.count| == |s.count|
    decreases |tokens| - |table| * bs
  {
    hide Chain, Leading, Span;
    if |table| * bs + bs <= |tokens| {
      var (found, t) := Probe(hash, bs, s, tokens, |table|);
      MulStep(|table|, bs);
      if found.Some? {
        hide Probe;
        AcquireFreeSame(hash, bs, t, tokens, table + [found.value]);
      }
    }
  }

  /** Goes through the running sequences in order, taking each one that fits what is left of the budget. */
  ghost function Assemble(c: Config, e: Sched, i: nat, budget: int, items: seq<BatchItem>): (r: (Sched, seq<BatchItem>))
    requires c.bs > 0 && Indexed(e)
    ensures Indexed(r.0) && r.0.running == e.running
    decreases |e.running| - i
  {
    if i >= |e.running| then (e, items)
    else
      var id := e.running[i];
      var shared := ShareFor(c, e, id);
      var tokens := StepTokens(shared.sequences[id], shared.blocks[id]);
      var delta := Delta(c.bs, shared.blocks[id], |tokens|);
      if delta > budget then Assemble(c, shared, i + 1, budget, items)
      else Assemble(c, shared, i + 1, budget - delta, items + [BatchItem(id, tokens)])
  }

  /** One turn of the assembly loop, or its end. */
  lemma AssembleUnfold(c: Config, e: Sched, i: nat, budget: int, items: seq<BatchItem>)
    requires c.bs > 0 && Indexed(e)
    ensures i >= |e.running| ==> Assemble(c, e, i, budget, items) == (e, items)
    ensures i < |e.running| ==>
              var id := e.running[i];
              var shared := ShareFor(c, e, id);
              && id < |shared.sequences| && id < |shared.blocks| && Indexed(shared)
              && var tokens := StepTokens(shared.sequences[id], shared.blocks[id]);
                 var delta := Delta(c.bs, shared.blocks[id], |tokens|);
                 Assemble(c, e, i, budget, items)
                 == if delta > budget then Assemble(c, shared, i + 1, budget, items)
                    else Assemble(c, shared, i + 1, budget - delta, items + [BatchItem(id, tokens)])
  {
    hide FreeInRange, ShareFor, StepTokens, Delta;
  }

  // ---- Preemption ---------------------------------------------------------------------------

  /** Last position below n of a running sequence that holds blocks; n when there is none. */
  function YoungestHolder(blocks: seq<SequenceBlocks>, running: seq<nat>, n: nat): (i: nat)
    requires n <= |running| && forall k :: 0 <= k < |running| ==> running[k] < |blocks|
    ensures i <= |running|
    ensures i < |running| ==> i < n && blocks[running[i]].table != []
    ensures i < |running| ==> forall k :: i < k < n ==> blocks[running[k]].table == []
    ensures i == |running| ==> forall k :: 0 <= k < n ==> blocks[running[k]].table == []
  {
    if n == 0 then |running|
    else if blocks[running[n - 1]].table != [] then n - 1
    else YoungestHolder(blocks, running, n - 1)
  }

  /** The youngest running sequence that holds blocks gives them up and queues first. */
  ghost function PreemptAt(e: Sched, i: nat): (r: Sched)
    requires Indexed(e) && i < |e.running|
    ensures |r.blocks| == |r.sequences| == |e.sequences| && |r.running| < |e.running|
  {
    var id := e.running[i];
    e.(pool := FreeFrom(e.pool, e.blocks[id].table),
       blocks := e.blocks[id := EMPTY_BLOCKS],
       sequences := e.sequences[id := e.sequences[id].(prefilled := false, status := Waiting)],
       running := e.running[..i] + e.running[i + 1..],
       waiting := [id] + e.waiting,
       preemptions := e.preemptions + 1)
  }

  lemma {:induction false} FreeStaysInRange(s: Pool, table: seq<nat>)
    requires FreeInRange(s)
    ensures FreeInRange(FreeFrom(s, table)) && |FreeFrom(s, table).count| == |s.count|
    decreases |table|
  {
    if table != [] {
      FreeStaysInRange(Release(s, table[0]), table[1..]);
    }
  }

  /** Assembles a batch, preempting one sequence after another while nothing fits. */
  ghost function Select(c: Config, e: Sched): (r: (Sched, seq<BatchItem>))
    requires c.bs > 0 && Indexed(e)
    ensures Indexed(r.0)
    decreases |e.running|
  {
    var (a, items) := Assemble(c, e, 0, |e.pool.free|, []);
    if items != [] || |a.running| <= 1 then (a, items)
    else
      var i := YoungestHolder(a.blocks, a.running, |a.running|);
      if i == |a.running| then (a, items)
      else
        FreeStaysInRange(a.pool, a.blocks[a.running[i]].table);
        Select(c, PreemptAt(a, i))
  }

  // ---- After the forward --------------------------------------------------------------------

  /** Whether generation ends with the output's last token. */
  predicate Stops(r: Request, out: seq<Token>) {
    out != [] && ((r.eosId >= 0 && out[|out| - 1] == r.eosId) || |out| >= r.maxTokens)
  }

  /** One batched sequence takes its sampled token: it finishes, or has its prefix registered. */
  ghost function Take(c: Config, e: Sched, id: nat, token: Token): (r: Sched)
    requires c.bs > 0 && Indexed(e) && id < |e.sequences|
    ensures |r.blocks| == |r.sequences| == |e.sequences| && r.running == e.running && r.waiting == e.waiting
  {
    var s := e.sequences[id];
    var after := s.(prefilled := true, output := s.output + [token]);
    if Stops(s.request, after.output) then
      e.(pool := FreeFrom(e.pool, e.blocks[id].table), blocks := e.blocks[id := EMPTY_BLOCKS],
         sequences := e.sequences[id := after.(status := Finished)])
    else if c.prefixCache && !s.prefilled then
      e.(pool := RegisterFrom(c.hash, c.bs, e.pool, e.blocks[id].table, s.Context(), 0),
         sequences := e.sequences[id := after])
    else e.(sequences := e.sequences[id := after])
  }

  lemma {:induction false} RegisterFreeSame(hash: HashBlock, bs: nat, s: Pool, table: seq<nat>, tokens: seq<int>,
                                            b: nat)
    requires bs > 0
    ensures var t := RegisterFrom(hash, bs, s, table, tokens, b); t.free == s.free && |t.count| == |s.count|
    decreases |table| - b
  {
    hide Chain, Leading, Span;
    if b < |table| && b * bs + bs <= |tokens| {
      var t := Insert(hash, bs, s, table[b], tokens, b);
      assert t.free == s.free && |t.count| == |s.count|;
      hide Insert;
      RegisterFreeSame(hash, bs, t, table, tokens, b + 1);
    }
  }

  lemma TakeIndexed(c: Config, e: Sched, id: nat, token: Token)
    requires c.bs > 0 && Indexed(e) && id < |e.sequences|
    ensures Indexed(Take(c, e, id, token))
  {
    FreeStaysInRange(e.pool, e.blocks[id].table);
    RegisterFreeSame(c.hash, c.bs, e.pool, e.blocks[id].table, e.sequences[id].Context(), 0);
  }

  /** The first sequences of the batch take the tokens sampled so far, in batch order. */
  ghost function TakeAll(c: Config, e: Sched, items: seq<BatchItem>, tokens: seq<Token>): (r: Sched)
    requires c.bs > 0 && Indexed(e) && |tokens| <= |items|
    requires forall i :: 0 <= i < |items| ==> items[i].seqIndex < |e.sequences|
    ensures Indexed(r) && |r.sequences| == |e.sequences| && r.running == e.running && r.waiting == e.waiting
    decreases |tokens|
  {
    if tokens == [] then e
    else
      var k := |tokens| - 1;
      var before := TakeAll(c, e, items, tokens[..k]);
      TakeIndexed(c, before, items[k].seqIndex, tokens[k]);
      Take(c, before, items[k].seqIndex, tokens[k])
  }

  lemma TakeNone(c: Config, e: Sched, items: seq<BatchItem>)
    requires c.bs > 0 && Indexed(e) && forall i :: 0 <= i < |items| ==> items[i].seqIndex < |e.sequences|
    ensures TakeAll(c, e, items, []) == e
  {
  }

  lemma TakeOneMore(c: Config, e: Sched, items: seq<BatchItem>, tokens: seq<Token>, token: Token)
    requires c.bs > 0 && Indexed(e) && |tokens| < |items|
    requires forall i :: 0 <= i < |items| ==> items[i].seqIndex < |e.sequences|
    ensures TakeAll(c, e, items, tokens + [token])
            == Take(c, TakeAll(c, e, items, tokens), items[|tokens|].seqIndex, token)
  {
    hide Take, FreeInRange;
    assert (tokens + [token])[..|tokens|] == tokens;
  }

  /** The ids whose sequence has not finished, in order. */
  function Unfinished(sequences: seq<EngineSequence>, ids: seq<nat>): (r: seq<nat>)
    requires forall i :: 0 <= i < |ids| ==> ids[i] < |sequences|
    ensures forall i :: 0 <= i < |r| ==> r[i] < |sequences|
  {
    if ids == [] then []
    else
      var last := ids[|ids| - 1];
      var r := Unfinished(sequences, ids[..|ids| - 1]);
      if sequences[last].status == Finished then r else r + [last]
  }

  lemma {:induction false} UnfinishedMembers(sequences: seq<EngineSequence>, ids: seq<nat>)
    requires forall i :: 0 <= i < |ids| ==> ids[i] < |sequences|
    ensures forall id :: id in Unfinished(sequences, ids) <==>
              id in ids && id < |sequences| && sequences[id].status != Finished
    ensures NoDuplicates(ids) ==> NoDuplicates(Unfinished(sequences, ids))
    decreases |ids|
  {
    if ids != [] {
      var n := |ids| - 1;
      UnfinishedMembers(sequences, ids[..n]);
      assert ids == ids[..n] + [ids[n]];
    }
  }

  /** ... and their order is kept: it does not matter where the ids are cut in two. */
  lemma {:induction false} UnfinishedInOrder(sequences: seq<EngineSequence>, a: seq<nat>, b: seq<nat>)
    requires forall i :: 0 <= i < |a| ==> a[i] < |sequences|
    requires forall i :: 0 <= i < |b| ==> b[i] < |sequences|
    ensures Unfinished(sequences, a + b) == Unfinished(sequences, a) + Unfinished(sequences, b)
    decreases |b|
  {
    if b == [] {
      assert a + b == a;
    } else {
      var n := |b| - 1;
      UnfinishedInOrder(sequences, a, b[..n]);
      assert (a + b)[..|a + b| - 1] == a + b[..n];
    }
  }

  ghost function Retire(e: Sched): (r: Sched)
    requires Indexed(e)
    ensures Indexed(r)
  {
    e.(running := Unfinished(e.sequences, e.running))
  }
}
