/**
 What it means for physical rows of the pool to hold the keys and values of a token context, and
 who may write which block.
 */
module RowContents {
  import opened Arithmetic
  import opened PrefixCaches
  import opened BlockPools
  import opened BlockManagers
  import opened Network
  import opened ForwardCached

  type Store = array2<Vec>

  /** Logical row p of the table holds, at layer l, row p of the given keys and values. */
  ghost predicate StoredRow(keys: Store, values: Store, bs: nat, table: seq<nat>, kv: LayerRowsKV, l: nat, p: nat)
    reads keys, values
  {
    && bs > 0 && p < |kv.k| && p < |kv.v| && BlockOf(bs, p) < |table|
    && l < keys.Length0 && l < values.Length0
    && Addr(bs, table, p) < keys.Length1 && Addr(bs, table, p) < values.Length1
    && keys[l, Addr(bs, table, p)] == kv.k[p]
    && values[l, Addr(bs, table, p)] == kv.v[p]
  }

  /** ... the key and value of position p of the context. */
  ghost predicate RowIs(keys: Store, values: Store, bs: nat, net: Net, table: seq<nat>, ctx: seq<Token>, l: nat, p: nat)
    reads keys, values
  {
    StoredRow(keys, values, bs, table, LayerRowsKV(KeyRows(net, ctx, l), ValueRows(net, ctx, l)), l, p)
  }

  /** The first n logical rows of the table hold, at layer l, the rows of the context. */
  ghost predicate RowsAre(keys: Store, values: Store, bs: nat, net: Net, table: seq<nat>, ctx: seq<Token>, l: nat,
                          n: nat)
    reads keys, values
  {
    forall p: nat :: p < n ==> RowIs(keys, values, bs, net, table, ctx, l, p)
  }

  /** ... at every layer. */
  ghost predicate Holds(keys: Store, values: Store, bs: nat, net: Net, table: seq<nat>, ctx: seq<Token>, n: nat)
    reads keys, values
  {
    forall l: nat :: l < net.layers ==> RowsAre(keys, values, bs, net, table, ctx, l, n)
  }

  /** Cached block b holds the last block of rows of the path. */
  ghost predicate BlockHolds(keys: Store, values: Store, bs: nat, net: Net, b: nat, path: seq<Token>)
    reads keys, values
  {
    && bs > 0 && bs <= |path|
    && forall l: nat, s: nat :: l < net.layers && s < bs ==> SlotHolds(keys, values, bs, net, b, path, l, s)
  }

  ghost predicate SlotHolds(keys: Store, values: Store, bs: nat, net: Net, b: nat, path: seq<Token>, l: nat, s: nat)
    requires bs <= |path| && s < bs
    reads keys, values
  {
    && l < keys.Length0 && l < values.Length0
    && Slot(bs, b, s) < keys.Length1 && Slot(bs, b, s) < values.Length1
    && keys[l, Slot(bs, b, s)] == KeyRows(net, path, l)[|path| - bs + s]
    && values[l, Slot(bs, b, s)] == ValueRows(net, path, l)[|path| - bs + s]
  }

  /** Rows of a prefix are rows of the longer context. */
  lemma RowIsPrefix(keys: Store, values: Store, bs: nat, net: Net, table: seq<nat>, a: seq<Token>, b: seq<Token>,
                    l: nat, p: nat)
    requires a <= b && p < |a|
    ensures RowIs(keys, values, bs, net, table, a, l, p) <==> RowIs(keys, values, bs, net, table, b, l, p)
  {
    HiddenCausal(net, a, b, l);
    assert KeyRows(net, a, l)[p] == KeyRows(net, b, l)[p];
    assert ValueRows(net, a, l)[p] == ValueRows(net, b, l)[p];
  }

  lemma HoldsPrefix(keys: Store, values: Store, bs: nat, net: Net, table: seq<nat>, a: seq<Token>, b: seq<Token>,
                    n: nat)
    requires a <= b && n <= |a|
    ensures Holds(keys, values, bs, net, table, a, n) <==> Holds(keys, values, bs, net, table, b, n)
  {
    hide RowIs;
    forall l: nat
      ensures RowsAre(keys, values, bs, net, table, a, l, n) <==> RowsAre(keys, values, bs, net, table, b, l, n)
    {
      forall p: nat | p < n
        ensures RowIs(keys, values, bs, net, table, a, l, p) <==> RowIs(keys, values, bs, net, table, b, l, p)
      {
        RowIsPrefix(keys, values, bs, net, table, a, b, l, p);
      }
    }
  }

  /** A full block of a correct table holds its part of the context. */
  lemma BlockOfTable(keys: Store, values: Store, bs: nat, net: Net, table: seq<nat>, ctx: seq<Token>, n: nat, k: nat)
    requires bs > 0 && Holds(keys, values, bs, net, table, ctx, n) && k * bs + bs <= n <= |ctx| && k < |table|
    ensures BlockHolds(keys, values, bs, net, table[k], ctx[..k * bs + bs])
  {
    var path := ctx[..k * bs + bs];
    forall l: nat, s: nat | l < net.layers && s < bs
      ensures SlotHolds(keys, values, bs, net, table[k], path, l, s)
    {
      var p := Slot(bs, k, s);
      RowOf(bs, k, s);
      assert RowsAre(keys, values, bs, net, table, ctx, l, n);
      assert RowIs(keys, values, bs, net, table, ctx, l, p);
      hide BlockOf, SlotOf;
      HiddenCausal(net, path, ctx, l);
      hide KeyRows, ValueRows;
    }
  }

  /** A table whose blocks hold the successive parts of a context is a correct table. */
  lemma TableOfBlocks(keys: Store, values: Store, bs: nat, net: Net, table: seq<nat>, ctx: seq<Token>)
    requires bs > 0 && |table| * bs <= |ctx|
    requires forall k: nat :: k < |table| ==>
               k * bs + bs <= |ctx| && BlockHolds(keys, values, bs, net, table[k], ctx[..k * bs + bs])
    ensures Holds(keys, values, bs, net, table, ctx, |table| * bs)
  {
    forall l: nat, p: nat | l < net.layers && p < |table| * bs
      ensures RowIs(keys, values, bs, net, table, ctx, l, p)
    {
      var k, s := BlockOf(bs, p), SlotOf(bs, p);
      RowSplit(bs, p);
      QuotientBelow(p, bs, |table|);
      var path := ctx[..k * bs + bs];
      assert SlotHolds(keys, values, bs, net, table[k], path, l, s);
      hide BlockOf, SlotOf;
      HiddenCausal(net, path, ctx, l);
      hide KeyRows, ValueRows;
    }
  }

  // ---- Exclusive blocks ---------------------------------------------------------------------

  /** Every block a sequence may still write to has that sequence as its only holder. */
  ghost predicate Exclusive(bs: nat, count: seq<nat>, blocks: seq<SequenceBlocks>)
    requires bs > 0
  {
    forall i, k :: 0 <= i < |blocks| && BlockOf(bs, blocks[i].length) <= k < |blocks[i].table| ==>
      blocks[i].table[k] < |count| && count[blocks[i].table[k]] == 1
  }

  /** A writable block occurs at no other place of any table, and in no cache entry. */
  lemma WritableIsAlone(bs: nat, s: Pool, blocks: seq<SequenceBlocks>, i: nat, k: nat)
    requires bs > 0 && PoolValid(bs, s) && s.held == AllHeld(blocks) && Exclusive(bs, s.count, blocks)
    requires i < |blocks| && BlockOf(bs, blocks[i].length) <= k < |blocks[i].table|
    ensures forall j, m :: 0 <= j < |blocks| && 0 <= m < |blocks[j].table| && (j != i || m != k) ==>
              blocks[j].table[m] != blocks[i].table[k]
    ensures forall h, e :: IsEntry(s.prefix, h, e) ==> s.prefix[h][e].block != blocks[i].table[k]
  {
    hide CacheRefs, AllHeld;
    var b := blocks[i].table[k];
    AllHeldAt(blocks, i, k);
    assert s.count[b] == s.held[b] + CacheRefs(s.prefix)[b];
    forall j, m | 0 <= j < |blocks| && 0 <= m < |blocks[j].table| && (j != i || m != k)
      ensures blocks[j].table[m] != b
    {
      if blocks[j].table[m] == b {
        HeldTwice(blocks, i, k, j, m);
      }
    }
    forall h, e | IsEntry(s.prefix, h, e)
      ensures s.prefix[h][e].block != b
    {
      CachedIsLive(bs, s, h, e);
    }
  }
}
