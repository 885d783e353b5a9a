/**
 Speculative greedy decoding: a draft proposes tokens, one forward of the target verifies them all.
 The output is the target's plain greedy decoding whatever the draft proposes.
 */
module Speculative {
  import opened Results
  import opened Network
  import ForwardCached
  import opened Sampler

  /** A draft may keep state of its own: it sees how many times it has been called before. */
  type Draft = (nat, seq<Token>) -> Token

  ghost predicate StaysInVocab(net: Net, draft: Draft) {
    forall n, ctx :: InVocab(net, draft(n, ctx))
  }

  ghost predicate LeavesVocab(net: Net, draft: Draft) {
    forall n, ctx :: !InVocab(net, draft(n, ctx))
  }

  method Propose(draft: Draft, calls: nat, ids: seq<Token>, lookahead: nat) returns (proposed: seq<Token>)
    ensures |proposed| == lookahead
    ensures forall j :: 0 <= j < lookahead ==> proposed[j] == draft(calls + j, ids + proposed[..j])
  {
    proposed := [];
    var context := ids;
    var j := 0;
    while j < lookahead
      invariant 0 <= j <= lookahead && |proposed| == j
      invariant context == ids + proposed
      invariant forall i :: 0 <= i < j ==> proposed[i] == draft(calls + i, ids + proposed[..i])
    {
      var token := draft(calls + j, context);
      assert proposed[..j] == proposed;
      ghost var before := proposed;
      proposed := proposed + [token];
      assert forall i :: 0 <= i <= j ==> proposed[..i] == before[..i];
      context := context + [token];
      j := j + 1;
    }
  }

  /** While the proposals agree with what was emitted, the verified row yields the next greedy token. */
  lemma VerifiedRow(net: Net, prompt: seq<Token>, out: seq<Token>, full: seq<Token>, token: Token)
    requires prompt != [] && prompt + out <= full
    requires IsGreedyRun(net, prompt, out)
    requires token == ArgMax(Logits(net, full)[|prompt + out| - 1])
    ensures IsGreedyRun(net, prompt, out + [token])
  {
    LogitsCausal(net, prompt + out, full);
    GreedyRunExtends(net, prompt, out, token);
  }

  /**
   All emitted tokens but the last are the proposals, and the last one ends the round for a reason: it differs
   from its proposal, or it follows all of them, or it is the last one allowed.
   */
  ghost predicate AcceptsAll(start: seq<Token>, proposed: seq<Token>, maxTokens: nat, out: seq<Token>) {
    var n := |out| - |start|;
    && 0 < n <= |proposed| + 1
    && (forall j :: 0 <= j < n - 1 ==> out[|start| + j] == proposed[j])
    && (n <= |proposed| ==> |out| == maxTokens || out[|out| - 1] != proposed[n - 1])
  }

  /** So far out is start and j more tokens, the proposals, unless the last one was rejected. */
  ghost predicate Accepted(start: seq<Token>, proposed: seq<Token>, out: seq<Token>, j: nat, rejected: bool) {
    && start <= out && |out| == |start| + j && j <= |proposed|
       && (rejected ==> j > 0 && out[|out| - 1] != proposed[j - 1])
    && forall i :: 0 <= i < (if rejected then j - 1 else j) ==> out[|start| + i] == proposed[i]
  }

  lemma NoneAccepted(start: seq<Token>, proposed: seq<Token>)
    ensures Accepted(start, proposed, start, 0, false)
  {
  }

  lemma OneAccepted(start: seq<Token>, proposed: seq<Token>, out: seq<Token>, j: nat, token: Token)
    requires j < |proposed| && Accepted(start, proposed, out, j, false)
    ensures Accepted(start, proposed, out + [token], j + 1, token != proposed[j])
  {
  }

  lemma RoundEnds(start: seq<Token>, proposed: seq<Token>, maxTokens: nat, out: seq<Token>, j: nat, rejected: bool)
    requires Accepted(start, proposed, out, j, rejected) && j > 0
    requires j == |proposed| || |out| == maxTokens || rejected
    ensures start <= out && (rejected || |out| == maxTokens ==> AcceptsAll(start, proposed, maxTokens, out))
    ensures !rejected && j == |proposed| ==> forall token :: AcceptsAll(start, proposed, maxTokens, out + [token])
  {
  }

  /** One round: emits the target's own greedy tokens, as many as agree with the proposals and one more. */
  method Verify(net: Net, prompt: seq<Token>, start: seq<Token>, proposed: seq<Token>, maxTokens: nat)
    returns (r: Result<seq<Token>>)
    requires prompt != [] && |start| < maxTokens && proposed != []
    requires IsGreedyRun(net, prompt, start)
    ensures r.Ok? <==> AllInVocab(net, prompt + start + proposed)
    ensures r.Throws? ==> r.error == TokenOutOfRange
    ensures r.Ok? ==> |start| < |r.value| <= maxTokens && start <= r.value && IsGreedyRun(net, prompt, r.value)
    ensures r.Ok? ==> AcceptsAll(start, proposed, maxTokens, r.value)
  {
    hide Next, IsGreedyRun, Logits, ArgMax, Accepted, AcceptsAll;
    NoneAccepted(start, proposed);
    var ids := prompt + start;
    var full := ids + proposed;
    var forward := ForwardCached.OneShot(net, full);
    if forward.Throws? {
      return Throws(forward.error);
    }
    var logits := forward.value;
    var base := |ids|;
    var out := start;
    var rejected := false;
    var j := 0;
    while j < |proposed| && |out| < maxTokens && !rejected
      invariant 0 <= j <= |proposed|
      invariant |out| == |start| + j <= maxTokens && (rejected ==> j > 0)
      invariant ids == prompt + out && IsGreedyRun(net, prompt, out)
      invariant Accepted(start, proposed, out, j, rejected)
      invariant !rejected ==> |ids| == base + j && ids <= full
    {
      var token := ArgMaxScan(logits[base - 1 + j]);
      VerifiedRow(net, prompt, out, full, token);
      rejected := token != proposed[j];
      assert full[base + j] == proposed[j];
      OneAccepted(start, proposed, out, j, token);
      out, ids, j := out + [token], ids + [token], j + 1;
    }
    RoundEnds(start, proposed, maxTokens, out, j, rejected);
    if !rejected && |out| < maxTokens {
      var bonus := ArgMaxScan(logits[base - 1 + |proposed|]);
      VerifiedRow(net, prompt, out, full, bonus);
      out := out + [bonus];
    }
    return Ok(out);
  }

  /** The draft proposes what the target would choose. */
  ghost predicate Agrees(net: Net, draft: Draft) {
    forall n, ctx :: ctx != [] ==> draft(n, ctx) == Next(net, ctx)
  }

  /** A round over proposals that all agree ends at the limit, or accepts them all and adds one. */
  lemma FullRound(net: Net, draft: Draft, calls: nat, prompt: seq<Token>, start: seq<Token>, proposed: seq<Token>,
                  maxTokens: nat, out: seq<Token>)
    requires prompt != [] && Agrees(net, draft) && start <= out && IsGreedyRun(net, prompt, out)
    requires forall j :: 0 <= j < |proposed| ==> proposed[j] == draft(calls + j, prompt + start + proposed[..j])
    requires AcceptsAll(start, proposed, maxTokens, out)
    ensures |out| == maxTokens || |out| == |start| + |proposed| + 1
  {
    hide Next;
    var n := |out| - |start|;
    if n <= |proposed| {
      assert out[..|out| - 1] == start + proposed[..n - 1];
      assert prompt + (start + proposed[..n - 1]) == prompt + start + proposed[..n - 1];
    }
  }

  /** The draft proposes and the target verifies. */
  method Round(net: Net, draft: Draft, calls: nat, prompt: seq<Token>, start: seq<Token>, ahead: nat, maxTokens: nat)
    returns (r: Result<seq<Token>>)
    requires prompt != [] && |start| < maxTokens && ahead > 0 && IsGreedyRun(net, prompt, start)
    ensures r.Throws? ==> r.error == TokenOutOfRange
    ensures r.Ok? ==> |start| < |r.value| <= maxTokens && |r.value| <= |start| + ahead + 1
                      && IsGreedyRun(net, prompt, r.value)
    ensures r.Ok? ==> AllInVocab(net, prompt) && !LeavesVocab(net, draft)
    ensures AllInVocab(net, prompt + start) && StaysInVocab(net, draft) ==> r.Ok?
    ensures r.Ok? && Agrees(net, draft) ==> |r.value| == maxTokens || |r.value| == |start| + ahead + 1
  {
    hide Next, IsGreedyRun, Agrees;
    var proposed := Propose(draft, calls, prompt + start, ahead);
    var full := prompt + start + proposed;
    assert full[|prompt + start|] == proposed[0];
    assert forall i :: 0 <= i < |prompt| ==> full[i] == prompt[i];
    r := Verify(net, prompt, start, proposed, maxTokens);
    if r.Ok? && Agrees(net, draft) {
      FullRound(net, draft, calls, prompt, start, proposed, maxTokens, r.value);
    }
  }

  /**
   The whole decode. It can only fail on a token outside the vocabulary, which the target's
   embedding refuses: in the prompt, or among the proposals, accepted or not. Each round costs one forward
   of the target; a draft that always agrees saves all but one in lookahead + 1 of them.
   */
  method SpeculativeGreedy(net: Net, draft: Draft, prompt: seq<Token>, maxTokens: int, lookahead: int)
    returns (r: Result<seq<Token>>, ghost rounds: nat)
    ensures prompt == [] <==> r == Throws(EmptyPrompt)
    ensures r.Throws? && prompt != [] ==> r.error == TokenOutOfRange
    ensures r.Ok? ==> r.value == Greedy(net, prompt, if maxTokens > 0 then maxTokens else 0)
    ensures prompt != [] && maxTokens <= 0 ==> r.Ok?
    ensures prompt != [] && AllInVocab(net, prompt) && StaysInVocab(net, draft) ==> r.Ok?
    ensures maxTokens > 0 && !(AllInVocab(net, prompt) && !LeavesVocab(net, draft)) ==> r.Throws?
    ensures r.Ok? ==> rounds <= |r.value|
    ensures r.Ok? && Agrees(net, draft) && maxTokens > 0 ==>
              var ahead := if lookahead < 1 then 1 else lookahead;
              (rounds - 1) * (ahead + 1) < maxTokens <= rounds * (ahead + 1)
  {
    rounds := 0;
    if prompt == [] {
      return Throws(EmptyPrompt), rounds;
    }
    var ahead := if lookahead < 1 then 1 else lookahead;
    var out: seq<Token> := [];
    assert IsGreedyRun(net, prompt, out);
    hide Next, IsGreedyRun, Greedy, Agrees, AllInVocab, LeavesVocab, StaysInVocab, RoundsAre;
    var calls: nat := 0;
    NoRounds(ahead + 1, maxTokens);
    assert prompt + out == prompt;
    while |out| < maxTokens
      invariant |out| <= if maxTokens > 0 then maxTokens else 0
      invariant IsGreedyRun(net, prompt, out) && rounds <= |out| && (|out| > 0 ==> rounds > 0)
      invariant AllInVocab(net, prompt) ==> AllInVocab(net, prompt + out)
      invariant |out| > 0 ==> AllInVocab(net, prompt) && !LeavesVocab(net, draft)
      invariant Agrees(net, draft) ==> RoundsAre(|out|, rounds, ahead + 1, maxTokens)
      decreases maxTokens - |out|
    {
      var round := Round(net, draft, calls, prompt, out, ahead, maxTokens);
      if round.Throws? {
        return Throws(round.error), rounds;
      }
      if Agrees(net, draft) {
        MoreRounds(|out|, |round.value|, rounds, ahead + 1, maxTokens);
      }
      calls, rounds := calls + ahead, rounds + 1;
      out := round.value;
      GreedyInVocab(net, prompt, out);
    }
    GreedyRunIsGreedy(net, prompt, out);
    if maxTokens > 0 {
      AllRounds(|out|, rounds, ahead + 1, maxTokens);
    }
    return Ok(out), rounds;
  }

  /** Every round but the last has emitted `step` tokens. */
  ghost predicate RoundsAre(n: nat, rounds: nat, step: nat, limit: int) {
    if n < limit then n == rounds * step else rounds == 0 || (rounds - 1) * step < limit <= rounds * step
  }

  lemma NoRounds(step: nat, limit: int)
    ensures RoundsAre(0, 0, step, limit)
  {
  }

  lemma AllRounds(n: nat, rounds: nat, step: nat, limit: int)
    requires n == limit > 0
    ensures RoundsAre(n, rounds, step, limit) && rounds > 0 ==> (rounds - 1) * step < limit <= rounds * step
  {
  }

  lemma MoreRounds(n: nat, m: nat, rounds: nat, step: nat, limit: int)
    requires n < limit && n < m <= limit && m <= n + step && step > 0 && RoundsAre(n, rounds, step, limit)
    requires m == limit || m == n + step
    ensures RoundsAre(m, rounds + 1, step, limit)
  {
  }

  lemma GreedyInVocab(net: Net, prompt: seq<Token>, out: seq<Token>)
    requires prompt != [] && AllInVocab(net, prompt) && IsGreedyRun(net, prompt, out)
    ensures AllInVocab(net, prompt + out)
  {
    assert InVocab(net, prompt[0]);
  }
}
