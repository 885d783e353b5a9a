/** The paged key/value cache of one sequence, and that it stores what the contiguous one stores. */
module PagedKVCaches {
  import opened Arithmetic
  import opened Results
  import opened ForwardCached
  import opened BlockAllocators
  import opened BlockPools
  import opened BlockManagers

  type RowStore = array2<Row>

  /** The rows of one layer are at the addresses the table gives them. */
  ghost predicate Stored(store: RowStore, bs: nat, table: seq<nat>, l: nat, rows: seq<Row>)
    requires bs > 0
    reads store
  {
    && l < store.Length0
    && forall p: nat :: p < |rows| ==>
         BlockOf(bs, p) < |table| && Addr(bs, table, p) < store.Length1 && store[l, Addr(bs, table, p)] == rows[p]
  }

  /** Every layer's rows. */
  ghost predicate AllStored(store: RowStore, bs: nat, table: seq<nat>, rows: seq<seq<Row>>)
    requires bs > 0
    reads store
  {
    forall l: nat :: l < |rows| ==> Stored(store, bs, table, l, rows[l])
  }

  /** The table's blocks are different live blocks, and every other block is free. */
  ghost predicate Owned(free: seq<nat>, count: seq<nat>, table: seq<nat>) {
    && Consistent(free, count) && NoDuplicates(table) && |free| + |table| == |count|
    && forall k :: 0 <= k < |table| ==> table[k] < |count| && count[table[k]] > 0
  }

  class PagedKVCache {
    const numLayers: nat
    const bs: nat
    const alloc: BlockAllocator
    const keys: RowStore
    const values: RowStore
    var table: seq<nat>
    /** Rows written so far, layer by layer. */
    var filled: seq<nat>
    /** Rows committed for all layers. */
    var length: nat
    /** What has been appended, as the contiguous cache would keep it. */
    ghost var keyRows: seq<seq<Row>>
    ghost var valueRows: seq<seq<Row>>

    /** The allocator's part. */
    ghost predicate Paged()
      reads this, alloc
    {
      && bs > 0 && numLayers > 0
      && Owned(alloc.freeList, alloc.refCount, table)
      && keys != values
      && keys.Length0 == values.Length0 == numLayers && keys.Length1 == values.Length1 == |alloc.refCount| * bs
      && |filled| == |keyRows| == |valueRows| == numLayers
      && forall l :: 0 <= l < numLayers ==>
           filled[l] == |keyRows[l]| == |valueRows[l]| && BlocksFor(bs, filled[l]) <= |table|
    }

    ghost predicate Valid()
      reads this, alloc, keys, values
    {
      Paged() && AllStored(keys, bs, table, keyRows) && AllStored(values, bs, table, valueRows)
    }

    /** No more blocks than the longest layer needs. Kept by every append that does not throw. */
    ghost predicate Tight()
      requires bs > 0
      reads this
    {
      table == [] || exists l :: 0 <= l < |filled| && |table| == BlocksFor(bs, filled[l])
    }

    constructor (numLayers: nat, bs: nat, numBlocks: nat)
      requires numLayers > 0 && bs > 0
      ensures Valid() && Tight() && fresh(alloc) && fresh(keys) && fresh(values)
      ensures this.numLayers == numLayers && this.bs == bs && |alloc.refCount| == numBlocks && length == 0
      ensures keyRows == valueRows == seq(numLayers, l => [])
    {
      this.numLayers := numLayers;
      this.bs := bs;
      alloc := new BlockAllocator(numBlocks);
      keys := new Row[numLayers, numBlocks * bs]((i, j) => []);
      values := new Row[numLayers, numBlocks * bs]((i, j) => []);
      table, filled, length := [], seq(numLayers, l => 0), 0;
      keyRows, valueRows := seq(numLayers, l => []), seq(numLayers, l => []);
      new;
      BlocksForFits(bs, 0, 0);
    }

    function BlocksUsed(): nat
      reads this
    {
      |table|
    }

    /** Grows the table to the given number of rows; throws when the pool is smaller than that. */
    method EnsureBlocks(rows: nat) returns (r: Result<()>)
      requires Valid()
      modifies this`table, alloc
      ensures Valid() && old(table) <= table && |alloc.refCount| == old(|alloc.refCount|)
      ensures r.Ok? <==> BlocksFor(bs, rows) <= |alloc.refCount|
      ensures r.Ok? ==> |table| == if BlocksFor(bs, rows) <= |old(table)| then |old(table)| else BlocksFor(bs, rows)
      ensures r.Throws? ==> r.error == OutOfBlocks
    {
      hide AllStored, BlocksFor, Consistent;
      r := Ok(());
      while |table| < BlocksFor(bs, rows)
        invariant Valid() && old(table) <= table && |alloc.refCount| == old(|alloc.refCount|) && r.Ok?
        invariant |table| <= if BlocksFor(bs, rows) <= |old(table)| then |old(table)| else BlocksFor(bs, rows)
        decreases BlocksFor(bs, rows) - |table|
      {
        OwnedIsConsistent(alloc.freeList, alloc.refCount, table);
        ghost var free, count := alloc.freeList, alloc.refCount;
        var b := alloc.Allocate();
        if b.Throws? {
          return Throws(b.error);
        }
        OwnedMore(free, count, table, b.value);
        StoredLonger(keys, bs, table, b.value, keyRows);
        StoredLonger(values, bs, table, b.value, valueRows);
        table := table + [b.value];
      }
      OwnedIsConsistent(alloc.freeList, alloc.refCount, table);
    }

    /** Writes rows from logical row |rows[layer]| on. */
    method WriteRows(store: RowStore, layer: nat, src: seq<Row>, start: nat, ghost rows: seq<seq<Row>>)
      requires bs > 0 && Fits(store, bs, table, start + |src|) && AllStored(store, bs, table, rows)
      requires layer < |rows| && start == |rows[layer]|
      modifies store
      ensures AllStored(store, bs, table, rows[layer := rows[layer] + src])
    {
      hide Fits, Stored, Addr, BlockOf;
      assert rows[layer] + src[..0] == rows[layer];
      var r := 0;
      while r < |src|
        invariant 0 <= r <= |src|
        invariant AllStored(store, bs, table, rows[layer := rows[layer] + src[..r]])
      {
        ghost var now := rows[layer := rows[layer] + src[..r]];
        assert now[layer] + [src[r]] == rows[layer] + src[..r + 1];
        assert now[layer := now[layer] + [src[r]]] == rows[layer := rows[layer] + src[..r + 1]];
        WriteRow(store, layer, start + r, src[r], start + |src|, now);
        r := r + 1;
      }
      assert src[..r] == src;
    }

    method WriteRow(store: RowStore, layer: nat, logical: nat, row: Row, ghost n: nat, ghost rows: seq<seq<Row>>)
      requires Fits(store, bs, table, n) && AllStored(store, bs, table, rows) && logical < n
      requires layer < |rows| && logical == |rows[layer]|
      modifies store
      ensures AllStored(store, bs, table, rows[layer := rows[layer] + [row]])
    {
      hide Addr, BlockOf;
      RowFits(store, bs, table, n, logical);
      assert Stored(store, bs, table, layer, rows[layer]);
      store[layer, Addr(bs, table, logical)] := row;
      ghost var more := rows[layer := rows[layer] + [row]];
      forall l: nat, p: nat | l < |more| && p < |more[l]|
        ensures l < store.Length0 && BlockOf(bs, p) < |table| && Addr(bs, table, p) < store.Length1
                && store[l, Addr(bs, table, p)] == more[l][p]
      {
        assert old(Stored(store, bs, table, l, rows[l]));
        if l == layer && p < logical {
          RowsApart(store, bs, table, n, p, logical);
        }
      }
    }

    /** Appends K and V rows of one layer at its fill position. */
    method Append(layer: nat, k: seq<Row>, v: seq<Row>) returns (r: Result<()>)
      requires Valid() && layer < numLayers && |k| == |v|
      modifies this, alloc, keys, values
      ensures Valid() && length == old(length) && |alloc.refCount| == old(|alloc.refCount|)
      ensures r.Ok? <==> BlocksFor(bs, |old(keyRows)[layer]| + |k|) <= |alloc.refCount|
      ensures r.Throws? ==> r.error == OutOfBlocks && keyRows == old(keyRows) && valueRows == old(valueRows)
      ensures r.Ok? ==> keyRows == old(keyRows)[layer := old(keyRows)[layer] + k]
                        && valueRows == old(valueRows)[layer := old(valueRows)[layer] + v]
      ensures r.Ok? && old(Tight()) ==> Tight()
    {
      hide AllStored, BlocksFor, Owned;
      var start := filled[layer];
      ghost var before := filled;
      r := EnsureBlocks(start + |k|);
      if r.Throws? {
        return;
      }
      OwnedFits(keys, bs, alloc.freeList, alloc.refCount, table, start + |k|);
      OwnedFits(values, bs, alloc.freeList, alloc.refCount, table, start + |k|);
      WriteRows(keys, layer, k, start, keyRows);
      WriteRows(values, layer, v, start, valueRows);
      BlocksForMonotone(bs, start, start + |k|);
      keyRows := keyRows[layer := keyRows[layer] + k];
      valueRows := valueRows[layer := valueRows[layer] + v];
      filled := filled[layer := start + |k|];
      StillTight(bs, |old(table)|, |table|, before, filled, layer);
    }

    /** All rows of one layer, in logical order. */
    method Gather(store: RowStore, layer: nat, n: nat, ghost rows: seq<Row>) returns (out: seq<Row>)
      requires bs > 0 && Stored(store, bs, table, layer, rows) && n == |rows|
      ensures out == rows
    {
      hide Addr, BlockOf, SlotOf;
      out := [];
      while |out| < n
        invariant |out| <= n && out == rows[..|out|]
      {
        out := out + [store[layer, Addr(bs, table, |out|)]];
      }
    }

    method KeyTensor(layer: nat) returns (out: seq<Row>)
      requires Valid() && layer < numLayers
      ensures out == keyRows[layer]
    {
      hide Owned, BlocksFor, Stored;
      out := Gather(keys, layer, filled[layer], keyRows[layer]);
    }

    method ValueTensor(layer: nat) returns (out: seq<Row>)
      requires Valid() && layer < numLayers
      ensures out == valueRows[layer]
    {
      hide Owned, BlocksFor, Stored;
      out := Gather(values, layer, filled[layer], valueRows[layer]);
    }

    method Advance(n: nat)
      modifies this`length
      ensures length == old(length) + n
    {
      length := length + n;
    }
  }

  /** n logical rows have different places in the store. */
  ghost predicate Fits(store: RowStore, bs: nat, table: seq<nat>, n: nat) {
    && bs > 0 && NoDuplicates(table) && BlocksFor(bs, n) <= |table|
    && exists blocks: nat :: store.Length1 == blocks * bs && forall k :: 0 <= k < |table| ==> table[k] < blocks
  }

  lemma OwnedFits(store: RowStore, bs: nat, free: seq<nat>, count: seq<nat>, table: seq<nat>, n: nat)
    requires bs > 0 && Owned(free, count, table) && store.Length1 == |count| * bs && BlocksFor(bs, n) <= |table|
    ensures Fits(store, bs, table, n)
  {
    hide Consistent, BlocksFor;
  }

  lemma RowFits(store: RowStore, bs: nat, table: seq<nat>, n: nat, p: nat)
    requires Fits(store, bs, table, n) && p < n
    ensures BlockOf(bs, p) < |table| && Addr(bs, table, p) < store.Length1
  {
    RowInBlocks(bs, p, n);
    hide BlocksFor, BlockOf, SlotOf, Slot;
    var blocks: nat :| store.Length1 == blocks * bs && forall k :: 0 <= k < |table| ==> table[k] < blocks;
    SlotInPool(bs, blocks, table[BlockOf(bs, p)], SlotOf(bs, p));
  }

  /** Different logical rows have different addresses. */
  lemma RowsApart(store: RowStore, bs: nat, table: seq<nat>, n: nat, p: nat, q: nat)
    requires Fits(store, bs, table, n) && p < n && q < n && p != q
    ensures BlockOf(bs, p) < |table| && BlockOf(bs, q) < |table| && Addr(bs, table, p) != Addr(bs, table, q)
  {
    RowInBlocks(bs, p, n);
    RowInBlocks(bs, q, n);
    RowSplit(bs, p);
    RowSplit(bs, q);
    hide BlocksFor, BlockOf, SlotOf;
    if Addr(bs, table, p) == Addr(bs, table, q) {
      AddrInjective(bs, table, p, table, q);
    }
  }

  lemma StillTight(bs: nat, before: nat, after: nat, filled: seq<nat>, grown: seq<nat>, layer: nat)
    requires bs > 0 && layer < |filled| && |grown| == |filled| && filled[layer] <= grown[layer]
             && grown == filled[layer := grown[layer]]
    requires after == if BlocksFor(bs, grown[layer]) <= before then before else BlocksFor(bs, grown[layer])
    ensures (before == 0 || exists l :: 0 <= l < |filled| && before == BlocksFor(bs, filled[l])) ==>
              after == 0 || exists l :: 0 <= l < |grown| && after == BlocksFor(bs, grown[l])
  {
    BlocksForMonotone(bs, filled[layer], grown[layer]);
    hide BlocksFor;
    if before > 0 && exists l :: 0 <= l < |filled| && before == BlocksFor(bs, filled[l]) {
      var l :| 0 <= l < |filled| && before == BlocksFor(bs, filled[l]);
      var w := if after == BlocksFor(bs, grown[layer]) then layer else l;
      assert after == BlocksFor(bs, grown[w]);
    } else if before == 0 {
      assert after == 0 || after == BlocksFor(bs, grown[layer]);
    }
  }

  lemma OwnedIsConsistent(free: seq<nat>, count: seq<nat>, table: seq<nat>)
    requires Owned(free, count, table)
    ensures Consistent(free, count) && |table| <= |count|
    ensures free == [] ==> |table| == |count|
  {
    hide Consistent;
  }

  lemma OwnedMore(free: seq<nat>, count: seq<nat>, table: seq<nat>, b: nat)
    requires Owned(free, count, table) && free != [] && b == free[|free| - 1] && b < |count| && count[b] == 0
    requires Consistent(free[..|free| - 1], count[b := 1])
    ensures Owned(free[..|free| - 1], count[b := 1], table + [b])
  {
    hide Consistent;
  }

  lemma StoredLonger(store: RowStore, bs: nat, table: seq<nat>, b: nat, rows: seq<seq<Row>>)
    requires bs > 0 && AllStored(store, bs, table, rows)
    ensures AllStored(store, bs, table + [b], rows)
  {
    hide BlockOf, SlotOf, Slot;
    forall l: nat | l < |rows|
      ensures Stored(store, bs, table + [b], l, rows[l])
    {
      assert Stored(store, bs, table, l, rows[l]);
    }
  }

  // ---- Refinement ---------------------------------------------------------------------------

  /** Block use is as small as the longest layer allows; when all layers agree less than a block is unused. */
  lemma WasteIsSmall(bs: nat, used: nat, filled: seq<nat>)
    requires bs > 0 && (forall l :: 0 <= l < |filled| ==> BlocksFor(bs, filled[l]) <= used)
    requires used == 0 || exists l :: 0 <= l < |filled| && used == BlocksFor(bs, filled[l])
    ensures forall most :: most in filled && (forall n :: n in filled ==> n <= most) ==> used == BlocksFor(bs, most)
    ensures forall n :: n in filled && (forall m :: m in filled ==> m == n) ==> n <= used * bs < n + bs
  {
    forall most | most in filled && (forall n :: n in filled ==> n <= most)
      ensures used == BlocksFor(bs, most)
    {
      if used > 0 {
        var l :| 0 <= l < |filled| && used == BlocksFor(bs, filled[l]);
        assert filled[l] in filled;
        BlocksForMonotone(bs, filled[l], most);
      }
    }
    forall n | n in filled && (forall m :: m in filled ==> m == n)
      ensures n <= used * bs < n + bs
    {
      assert used == BlocksFor(bs, n);
      hide BlocksFor;
      BlocksForFits(bs, n, used);
      if used > 0 {
        BlocksForFits(bs, n, used - 1);
        MulStep(used - 1, bs);
      }
    }
  }

  datatype AppendOp = AppendOp(layer: nat, k: seq<Row>, v: seq<Row>)

  /** Both caches hold the same rows. */
  ghost predicate SameRows(plain: KVCache, paged: PagedKVCache)
    reads plain, paged
  {
    plain.keys == paged.keyRows && plain.values == paged.valueRows && |plain.keys| == paged.numLayers
  }

  /**
   Whatever rows are appended to whatever layers in whatever order, as long as they fit the pool, the
   two caches give the same tensors. An append that does not fit throws and changes nothing.
   */
  method AppendBoth(plain: KVCache, paged: PagedKVCache, ops: seq<AppendOp>) returns (done: nat)
    requires paged.Valid() && plain.Valid() && SameRows(plain, paged)
    requires forall i :: 0 <= i < |ops| ==> ops[i].layer < paged.numLayers && |ops[i].k| == |ops[i].v|
    modifies plain, paged, paged.alloc, paged.keys, paged.values
    ensures paged.Valid() && plain.Valid() && SameRows(plain, paged) && done <= |ops|
    ensures done < |ops| ==> BlocksFor(paged.bs, |plain.keys[ops[done].layer]| + |ops[done].k|) > |paged.alloc.refCount|
    ensures done == |ops| && old(paged.Tight()) ==> paged.Tight()
  {
    hide AllStored, Owned, BlocksFor;
    done := 0;
    while done < |ops|
      invariant 0 <= done <= |ops|
      invariant paged.Valid() && plain.Valid() && SameRows(plain, paged)
      invariant old(paged.Tight()) ==> paged.Tight()
    {
      var op := ops[done];
      var r := paged.Append(op.layer, op.k, op.v);
      if r.Throws? {
        return;
      }
      plain.Append(op.layer, op.k, op.v);
      done := done + 1;
    }
  }

  method SameTensors(plain: KVCache, paged: PagedKVCache, layer: nat) returns (k: seq<Row>, v: seq<Row>)
    requires paged.Valid() && SameRows(plain, paged) && layer < paged.numLayers
    ensures k == plain.keys[layer] && v == plain.values[layer]
  {
    k := paged.KeyTensor(layer);
    v := paged.ValueTensor(layer);
  }
}
