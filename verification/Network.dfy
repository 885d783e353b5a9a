/**
 The decoder-only transformer, with its row-wise operators left abstract, and the reference
 meaning of "the forward pass of a context": full causal attention over the whole context, one
 layer after the other. Everything the engine computes incrementally is measured against it.
 */
module Network {

  type Token = int
  type Vec = seq<real>

  /**
   One model. Each field is an operator that works on one row at a time:
   `embed` looks a token up; `query`, `key` and `value` are input norm, projection and (for query
   and key) rotary position of one row of layer l; `attend` is the attention of one query over the
   key and value rows it may see; `mix` adds the output projection of an attention row to the
   residual row and then the MLP; `logit` is the final norm and one row of the output projection.
   */
  datatype Net = Net(
    layers: nat,
    vocab: nat,
    embed: Token -> Vec,
    query: (nat, nat, Vec) -> Vec,
    key: (nat, nat, Vec) -> Vec,
    value: (nat, Vec) -> Vec,
    attend: (Vec, seq<Vec>, seq<Vec>) -> Vec,
    mix: (nat, Vec, Vec) -> Vec,
    logit: (nat, Vec) -> real)

  predicate InVocab(net: Net, t: Token) {
    0 <= t < net.vocab
  }

  predicate AllInVocab(net: Net, ids: seq<Token>) {
    forall i :: 0 <= i < |ids| ==> InVocab(net, ids[i])
  }

  // ---- Reference forward --------------------------------------------------------------------

  function Embed(net: Net, ids: seq<Token>): (x: seq<Vec>)
    ensures |x| == |ids|
  {
    seq(|ids|, i requires 0 <= i < |ids| => net.embed(ids[i]))
  }

  /** Key rows of layer l for hidden rows x that start at position `start`. */
  function Keys(net: Net, l: nat, x: seq<Vec>, start: nat): (k: seq<Vec>)
    ensures |k| == |x|
  {
    seq(|x|, i requires 0 <= i < |x| => net.key(l, start + i, x[i]))
  }

  function Values(net: Net, l: nat, x: seq<Vec>): (v: seq<Vec>)
    ensures |v| == |x|
  {
    seq(|x|, i requires 0 <= i < |x| => net.value(l, x[i]))
  }

  /** Position p after one layer: attention over keys and values 0..p, mixed into its residual row x. */
  function AttendRow(net: Net, l: nat, p: nat, x: Vec, ks: seq<Vec>, vs: seq<Vec>): Vec
    requires p < |ks| == |vs|
  {
    net.mix(l, x, net.attend(net.query(l, p, x), ks[..p + 1], vs[..p + 1]))
  }

  /** One layer over rows x at positions start.., reading all key and value rows ks, vs. */
  function LayerRows(net: Net, l: nat, x: seq<Vec>, start: nat, ks: seq<Vec>, vs: seq<Vec>): (y: seq<Vec>)
    requires start + |x| <= |ks| == |vs|
    ensures |y| == |x|
  {
    seq(|x|, i requires 0 <= i < |x| => AttendRow(net, l, start + i, x[i], ks, vs))
  }

  /** Hidden rows of the whole context entering layer l. */
  function Hidden(net: Net, ctx: seq<Token>, l: nat): (x: seq<Vec>)
    ensures |x| == |ctx|
  {
    if l == 0 then Embed(net, ctx)
    else
      var x := Hidden(net, ctx, l - 1);
      LayerRows(net, l - 1, x, 0, Keys(net, l - 1, x, 0), Values(net, l - 1, x))
  }

  function KeyRows(net: Net, ctx: seq<Token>, l: nat): (k: seq<Vec>)
    ensures |k| == |ctx|
  {
    Keys(net, l, Hidden(net, ctx, l), 0)
  }

  function ValueRows(net: Net, ctx: seq<Token>, l: nat): (v: seq<Vec>)
    ensures |v| == |ctx|
  {
    Values(net, l, Hidden(net, ctx, l))
  }

  function LogitRow(net: Net, x: Vec): (r: seq<real>)
    ensures |r| == net.vocab
  {
    seq(net.vocab, j requires 0 <= j < net.vocab => net.logit(j, x))
  }

  /** Logits of the one-shot forward, one row per position. */
  function Logits(net: Net, ctx: seq<Token>): (r: seq<seq<real>>)
    ensures |r| == |ctx|
  {
    var x := Hidden(net, ctx, net.layers);
    seq(|ctx|, i requires 0 <= i < |ctx| => LogitRow(net, x[i]))
  }

  /**
   The forward, position by position: embedding, then layer after layer attention of the position's own query
   over the keys and values of all positions up to itself, each made from the row of its own position, and the
   final row read out.
   */
  lemma PositionByPosition(net: Net, ctx: seq<Token>, l: nat, p: nat)
    requires p < |ctx|
    ensures Hidden(net, ctx, 0)[p] == net.embed(ctx[p])
    ensures var x := Hidden(net, ctx, l);
            Hidden(net, ctx, l + 1)[p]
            == net.mix(l, x[p], net.attend(net.query(l, p, x[p]),
                                           seq(p + 1, j requires 0 <= j < |x| => net.key(l, j, x[j])),
                                           seq(p + 1, j requires 0 <= j < |x| => net.value(l, x[j]))))
    ensures forall j :: 0 <= j < net.vocab ==> Logits(net, ctx)[p][j] == net.logit(j, Hidden(net, ctx, net.layers)[p])
  {
    var x := Hidden(net, ctx, l);
    assert Keys(net, l, x, 0)[..p + 1] == seq(p + 1, j requires 0 <= j < |x| => net.key(l, j, x[j]));
    assert Values(net, l, x)[..p + 1] == seq(p + 1, j requires 0 <= j < |x| => net.value(l, x[j]));
  }

  lemma EmbedCausal(net: Net, a: seq<Token>, b: seq<Token>)
    requires a <= b
    ensures Embed(net, a) == Embed(net, b)[..|a|]
  {
  }

  /** Causality: the rows of a prefix do not depend on what follows it. */
  lemma {:induction false} HiddenCausal(net: Net, a: seq<Token>, b: seq<Token>, l: nat)
    requires a <= b
    ensures Hidden(net, a, l) == Hidden(net, b, l)[..|a|]
    ensures KeyRows(net, a, l) == KeyRows(net, b, l)[..|a|]
    ensures ValueRows(net, a, l) == ValueRows(net, b, l)[..|a|]
    decreases l
  {
    hide Embed;
    if l == 0 {
      EmbedCausal(net, a, b);
    } else {
      HiddenCausal(net, a, b, l - 1);
      var ka, kb := KeyRows(net, a, l - 1), KeyRows(net, b, l - 1);
      var va, vb := ValueRows(net, a, l - 1), ValueRows(net, b, l - 1);
      forall i | 0 <= i < |a|
        ensures Hidden(net, a, l)[i] == Hidden(net, b, l)[i]
      {
        assert ka[..i + 1] == kb[..i + 1];
        assert va[..i + 1] == vb[..i + 1];
      }
    }
  }

  lemma {:induction false} LogitsCausal(net: Net, a: seq<Token>, b: seq<Token>)
    requires a <= b
    ensures Logits(net, a) == Logits(net, b)[..|a|]
  {
    HiddenCausal(net, a, b, net.layers);
  }

  // ---- Greedy decoding ----------------------------------------------------------------------

  /** `best` is the first index of the largest entry of the row; 0 for an empty row. */
  predicate IsFirstMax(row: seq<real>, best: nat) {
    if row == [] then best == 0
    else
      && best < |row|
      && (forall j :: 0 <= j < |row| ==> row[j] <= row[best])
      && (forall j :: 0 <= j < best ==> row[j] < row[best])
  }

  lemma {:induction false} FirstMaxExists(row: seq<real>) returns (best: nat)
    ensures IsFirstMax(row, best)
  {
    if |row| <= 1 {
      best := 0;
    } else {
      var n := |row| - 1;
      var b := FirstMaxExists(row[..n]);
      assert forall j :: 0 <= j < n ==> row[j] == row[..n][j] && row[j] <= row[b];
      assert forall j :: 0 <= j < b ==> row[..n][j] < row[b];
      best := if row[n] > row[b] then n else b;
    }
  }

  lemma FirstMaxUnique(row: seq<real>, a: nat, b: nat)
    requires IsFirstMax(row, a) && IsFirstMax(row, b)
    ensures a == b
  {
    if row != [] {
      var x, y := row[a], row[b];
    }
  }

  ghost function ArgMax(row: seq<real>): (best: nat)
    ensures IsFirstMax(row, best)
  {
    assert exists b: nat :: IsFirstMax(row, b) by { var b := FirstMaxExists(row); }
    var b: nat :| IsFirstMax(row, b);
    b
  }

  /** The greedy next token after a context: first maximum of the last row of its logits. */
  ghost function Next(net: Net, ctx: seq<Token>): (t: Token)
    requires ctx != []
    ensures net.vocab > 0 ==> InVocab(net, t)
  {
    ArgMax(Logits(net, ctx)[|ctx| - 1])
  }

  /** Plain greedy decoding of one prompt on its own: the first n generated tokens. */
  ghost function Greedy(net: Net, prompt: seq<Token>, n: nat): (out: seq<Token>)
    requires prompt != []
    ensures |out| == n
  {
    if n == 0 then []
    else
      var out := Greedy(net, prompt, n - 1);
      out + [Next(net, prompt + out)]
  }

  /** Every token is the greedy choice after the prompt and the tokens before it. */
  ghost predicate IsGreedyRun(net: Net, prompt: seq<Token>, out: seq<Token>)
    requires prompt != []
  {
    forall i :: 0 <= i < |out| ==> out[i] == Next(net, prompt + out[..i])
  }

  lemma GreedyRunExtends(net: Net, prompt: seq<Token>, out: seq<Token>, t: Token)
    requires prompt != [] && IsGreedyRun(net, prompt, out) && t == Next(net, prompt + out)
    ensures IsGreedyRun(net, prompt, out + [t])
  {
    var more := out + [t];
    assert more[..|out|] == out;
    assert forall i :: 0 <= i < |out| ==> more[..i] == out[..i];
  }

  lemma {:induction false} GreedyIsRun(net: Net, prompt: seq<Token>, n: nat)
    requires prompt != []
    ensures IsGreedyRun(net, prompt, Greedy(net, prompt, n))
  {
    hide Next;
    if n > 0 {
      GreedyIsRun(net, prompt, n - 1);
      var out := Greedy(net, prompt, n - 1);
      GreedyRunExtends(net, prompt, out, Next(net, prompt + out));
    }
  }

  lemma {:induction false} GreedyRunsAgree(net: Net, prompt: seq<Token>, a: seq<Token>, b: seq<Token>, k: nat)
    requires prompt != [] && IsGreedyRun(net, prompt, a) && IsGreedyRun(net, prompt, b)
    requires k <= |a| && k <= |b|
    ensures a[..k] == b[..k]
  {
    hide Next;
    if k > 0 {
      GreedyRunsAgree(net, prompt, a, b, k - 1);
      assert a[k - 1] == b[k - 1];
      assert a[..k] == a[..k - 1] + [a[k - 1]] && b[..k] == b[..k - 1] + [b[k - 1]];
    }
  }

  /** A greedy run is the plain greedy decoding of its length, and the other way round. */
  lemma GreedyRunIsGreedy(net: Net, prompt: seq<Token>, out: seq<Token>)
    requires prompt != []
    ensures IsGreedyRun(net, prompt, out) <==> out == Greedy(net, prompt, |out|)
  {
    hide Next;
    var g := Greedy(net, prompt, |out|);
    GreedyIsRun(net, prompt, |out|);
    if IsGreedyRun(net, prompt, out) {
      GreedyRunsAgree(net, prompt, out, g, |out|);
      assert out[..|out|] == out && g[..|out|] == g;
    }
  }

  lemma GreedyPrefix(net: Net, prompt: seq<Token>, m: nat, n: nat)
    requires prompt != [] && m <= n
    ensures Greedy(net, prompt, m) == Greedy(net, prompt, n)[..m]
  {
    hide Next;
    var out := Greedy(net, prompt, n);
    GreedyRunIsGreedy(net, prompt, out);
    GreedyRunIsGreedy(net, prompt, out[..m]);
    assert forall i :: 0 <= i < m ==> out[..m][..i] == out[..i];
  }
}
