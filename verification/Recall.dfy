/**
 A network that notices whose rows it reads. Its first layer writes into every value row the whole prefix
 it was computed for, and its second layer looks at the row before the last: the answer is 1 if that row
 was computed for a given prefix, and 0 if not.
 */
module Recalls {
  import opened Network
  import opened ForwardCached
  import opened Lanes

  function Reals(tokens: seq<Token>): (v: Vec)
    ensures |v| == |tokens|
  {
    seq(|tokens|, i requires 0 <= i < |tokens| => tokens[i] as real)
  }

  lemma RealsDiffer(a: seq<Token>, b: seq<Token>)
    requires a != b
    ensures Reals(a) != Reals(b)
  {
    if |a| == |b| {
      var i :| 0 <= i < |a| && a[i] != b[i];
      assert Reals(a)[i] != Reals(b)[i];
    }
  }

  function Joined(rows: seq<Vec>): Vec {
    if rows == [] then [] else Joined(rows[..|rows| - 1]) + rows[|rows| - 1]
  }

  function Recall(vocab: nat, known: seq<Token>): Net {
    Net(2, vocab, t => [t as real], (l, p, x) => [l as real], (l, p, x) => [], (l, x) => x,
        (q, ks, vs) => if q == [0.0] then Joined(vs) else if |vs| < 2 then [] else vs[|vs| - 2],
        (l, x, a) => a, (j, x) => if (x == Reals(known)) == (j == 1) then 1.0 else 0.0)
  }

  lemma {:induction false} JoinedTokens(vocab: nat, known: seq<Token>, ctx: seq<Token>, n: nat)
    requires n <= |ctx|
    ensures Joined(Values(Recall(vocab, known), 0, Embed(Recall(vocab, known), ctx))[..n]) == Reals(ctx[..n])
  {
    var rows := Values(Recall(vocab, known), 0, Embed(Recall(vocab, known), ctx));
    if n > 0 {
      JoinedTokens(vocab, known, ctx, n - 1);
      assert rows[..n][..n - 1] == rows[..n - 1] && rows[..n][n - 1] == [ctx[n - 1] as real];
      assert ctx[..n] == ctx[..n - 1] + [ctx[n - 1]];
    } else {
      assert rows[..0] == [];
    }
  }

  /** The value rows of the second layer are the prefixes they were computed for. */
  lemma RowIsPrefixOf(vocab: nat, known: seq<Token>, ctx: seq<Token>, p: nat)
    requires p < |ctx|
    ensures ValueRows(Recall(vocab, known), ctx, 1)[p] == Reals(ctx[..p + 1])
  {
    hide Joined, Reals;
    var net := Recall(vocab, known);
    var x := Hidden(net, ctx, 0);
    assert Hidden(net, ctx, 1)[p] == AttendRow(net, 0, p, x[p], Keys(net, 0, x, 0), Values(net, 0, x));
    JoinedTokens(vocab, known, ctx, p + 1);
  }

  /** The answer to a final row. */
  lemma Answer(vocab: nat, known: seq<Token>, x: Vec)
    requires vocab >= 2
    ensures ArgMax(LogitRow(Recall(vocab, known), x)) == if x == Reals(known) then 1 else 0
  {
    var row := LogitRow(Recall(vocab, known), x);
    var best := if x == Reals(known) then 1 else 0;
    assert forall j :: 0 <= j < vocab ==> row[j] == if (x == Reals(known)) == (j == 1) then 1.0 else 0.0;
    FirstMaxUnique(row, best, ArgMax(row));
  }

  /** After the known prefix and one more token the next token is 1. */
  lemma NextAfterKnown(vocab: nat, known: seq<Token>, x: Token)
    requires vocab >= 2 && known != []
    ensures Next(Recall(vocab, known), known + [x]) == 1
  {
    hide Reals;
    var net, ctx, p := Recall(vocab, known), known + [x], |known|;
    RowIsPrefixOf(vocab, known, ctx, p - 1);
    assert ctx[..p] == known;
    var y := Hidden(net, ctx, 1);
    assert Hidden(net, ctx, 2)[p] == AttendRow(net, 1, p, y[p], Keys(net, 1, y, 0), Values(net, 1, y));
    assert Values(net, 1, y)[..p + 1][p - 1] == ValueRows(net, ctx, 1)[p - 1];
    Answer(vocab, known, Reals(known));
  }

  /** Over cached rows the answer is what the last of them says. */
  lemma LastIsCached(vocab: nat, known: seq<Token>, f: Feed, of: seq<Token>)
    requires vocab >= 2 && FeedOk(Recall(vocab, known), f) && f.past >= 1 && |f.ids| == 1
    requires f.before[1].v[f.past - 1] == Reals(of)
    ensures ArgMax(LastLogits(Recall(vocab, known), f)) == if of == known then 1 else 0
  {
    if of != known {
      RealsDiffer(of, known);
    }
    hide Reals, Joined;
    var net, p := Recall(vocab, known), f.past;
    var x := ChunkHidden(net, f.before, p, f.ids, 1);
    var kv := Append(net, f.before[1], 1, x, p);
    assert ChunkHidden(net, f.before, p, f.ids, 2)[0] == AttendRow(net, 1, p, x[0], kv.k, kv.v);
    assert kv.v[..p + 1][p - 1] == f.before[1].v[p - 1];
    Answer(vocab, known, Reals(of));
  }
}
