/** The cached forward over the paged cache of one sequence, and over any chunks of a context. */
module PagedForwards {
  import opened Results
  import opened Network
  import opened ForwardCached
  import opened BlockPools
  import opened BlockManagers
  import opened PagedKVCaches

  /** What the cache holds, layer by layer. */
  ghost function PagedLayer(cache: PagedKVCache, l: nat): LayerRowsKV
    requires l < |cache.keyRows| && l < |cache.valueRows|
    reads cache
  {
    LayerRowsKV(cache.keyRows[l], cache.valueRows[l])
  }

  ghost function PagedContents(cache: PagedKVCache): (c: Cached)
    reads cache
  {
    if |cache.keyRows| == |cache.valueRows| then
      seq(|cache.keyRows|, l requires 0 <= l < |cache.keyRows| && |cache.keyRows| == |cache.valueRows| reads cache =>
        PagedLayer(cache, l))
    else []
  }

  /** A valid cache for the network that has committed all the rows it holds. */
  ghost predicate AllCommitted(net: Net, cache: PagedKVCache)
    reads cache, cache.alloc, cache.keys, cache.values
  {
    && cache.Valid() && cache.numLayers == net.layers && |cache.keyRows| == |cache.valueRows| == net.layers
    && Filled(net, PagedContents(cache), cache.length)
  }

  /** One turn of the layer loop; only its append can fail. */
  method RunPagedLayer(net: Net, ghost before: Cached, past: nat, ids: seq<Token>, l: nat, x: seq<Vec>,
                       cache: PagedKVCache)
    returns (r: Result<seq<Vec>>)
    requires Filled(net, before, past) && l < net.layers == cache.numLayers
    requires cache.Valid() && |cache.keyRows| == |cache.valueRows| == net.layers && PagedLayer(cache, l) == before[l]
    requires x == ChunkHidden(net, before, past, ids, l)
    modifies cache, cache.alloc, cache.keys, cache.values
    ensures cache.Valid() && cache.length == old(cache.length) && |cache.alloc.refCount| == old(|cache.alloc.refCount|)
    ensures |cache.keyRows| == |cache.valueRows| == net.layers
    ensures r.Ok? <==> BlocksFor(cache.bs, past + |ids|) <= |cache.alloc.refCount|
    ensures r.Throws? ==> r.error == OutOfBlocks
                          && cache.keyRows == old(cache.keyRows) && cache.valueRows == old(cache.valueRows)
    ensures r.Ok? ==> r.value == ChunkHidden(net, before, past, ids, l + 1)
                      && PagedLayer(cache, l) == Appended(net, before, past, ids, l)
    ensures forall m :: 0 <= m < net.layers && m != l ==> PagedLayer(cache, m) == old(PagedLayer(cache, m))
  {
    hide AllStored, Owned, BlocksFor, LayerRows;
    var q := Queries(net, l, x, past);
    var k := Keys(net, l, x, past);
    var v := Values(net, l, x);
    var appended := cache.Append(l, k, v);
    if appended.Throws? {
      return Throws(appended.error);
    }
    var kAll := cache.KeyTensor(l);
    var vAll := cache.ValueTensor(l);
    var attn := Attention(net, q, kAll, vAll, past);
    LayerRowsByParts(net, l, x, past, kAll, vAll);
    return Ok(Mix(net, l, x, attn));
  }

  /** The layer loop. If an append fails it is the first one, and nothing has been appended. */
  method RunPagedLayers(net: Net, ids: seq<Token>, cache: PagedKVCache) returns (r: Result<seq<Vec>>)
    requires AllCommitted(net, cache)
    modifies cache, cache.alloc, cache.keys, cache.values
    ensures cache.Valid() && |cache.keyRows| == |cache.valueRows| == net.layers
    ensures cache.length == old(cache.length) && |cache.alloc.refCount| == old(|cache.alloc.refCount|)
    ensures r.Ok? <==> BlocksFor(cache.bs, cache.length + |ids|) <= |cache.alloc.refCount|
    ensures r.Throws? ==> r.error == OutOfBlocks
                          && cache.keyRows == old(cache.keyRows) && cache.valueRows == old(cache.valueRows)
    ensures r.Ok? ==> r.value == ChunkHidden(net, old(PagedContents(cache)), cache.length, ids, net.layers)
                      && PagedContents(cache) == ChunkCache(net, old(PagedContents(cache)), cache.length, ids)
  {
    hide AllStored, Owned, BlocksFor, Filled, ChunkHidden, Appended, PagedContents, ChunkCache;
    var past := cache.length;
    ghost var before := PagedContents(cache);
    FirstChunkHidden(net, before, past, ids);
    ContentsByLayer(cache);
    var x := Embed(net, ids);
    var l := 0;
    while l < net.layers
      invariant 0 <= l <= net.layers
      invariant cache.Valid() && |cache.keyRows| == |cache.valueRows| == net.layers && cache.length == past
      invariant |cache.alloc.refCount| == old(|cache.alloc.refCount|)
      invariant l > 0 ==> BlocksFor(cache.bs, past + |ids|) <= |cache.alloc.refCount|
      invariant l == 0 ==> cache.keyRows == old(cache.keyRows) && cache.valueRows == old(cache.valueRows)
      invariant x == ChunkHidden(net, before, past, ids, l)
      invariant forall m :: 0 <= m < l ==> PagedLayer(cache, m) == Appended(net, before, past, ids, m)
      invariant forall m :: l <= m < net.layers ==> PagedLayer(cache, m) == before[m]
    {
      var y := RunPagedLayer(net, before, past, ids, l, x, cache);
      if y.Throws? {
        return Throws(y.error);
      }
      x := y.value;
      l := l + 1;
    }
    ContentsAre(net, before, past, ids, cache);
    return Ok(x);
  }

  lemma FirstChunkHidden(net: Net, before: Cached, past: nat, ids: seq<Token>)
    requires Filled(net, before, past)
    ensures ChunkHidden(net, before, past, ids, 0) == Embed(net, ids)
  {
  }

  lemma ContentsByLayer(cache: PagedKVCache)
    requires |cache.keyRows| == |cache.valueRows|
    ensures |PagedContents(cache)| == |cache.keyRows|
    ensures forall l :: 0 <= l < |cache.keyRows| ==> PagedContents(cache)[l] == PagedLayer(cache, l)
  {
  }

  lemma ContentsAre(net: Net, before: Cached, past: nat, ids: seq<Token>, cache: PagedKVCache)
    requires Filled(net, before, past) && |cache.keyRows| == |cache.valueRows| == net.layers
    requires forall m :: 0 <= m < net.layers ==> PagedLayer(cache, m) == Appended(net, before, past, ids, m)
    ensures PagedContents(cache) == ChunkCache(net, before, past, ids)
  {
    hide Appended;
    ContentsByLayer(cache);
  }

  /**
   The cached forward over the paged cache. It throws for an empty chunk, for a token outside the
   vocabulary, or when the pool is too small for the chunk, in this order, and then the cache holds what it
   held; otherwise it computes what the forward over the contiguous cache computes.
   */
  method ForwardPaged(net: Net, ids: seq<Token>, cache: PagedKVCache) returns (r: Result<seq<seq<real>>>)
    requires AllCommitted(net, cache)
    modifies cache, cache.alloc, cache.keys, cache.values
    ensures AllCommitted(net, cache) && |cache.alloc.refCount| == old(|cache.alloc.refCount|)
    ensures r.Ok? <==> ids != [] && AllInVocab(net, ids)
                       && BlocksFor(cache.bs, old(cache.length) + |ids|) <= |cache.alloc.refCount|
    ensures r.Throws? ==> r.error == if ids == [] then EmptyInput
                                     else if !AllInVocab(net, ids) then TokenOutOfRange else OutOfBlocks
    ensures r.Throws? ==> cache.keyRows == old(cache.keyRows) && cache.valueRows == old(cache.valueRows)
                          && cache.length == old(cache.length)
    ensures r.Ok? ==>
              && r.value == ChunkLogits(net, old(PagedContents(cache)), old(cache.length), ids)
              && PagedContents(cache) == ChunkCache(net, old(PagedContents(cache)), old(cache.length), ids)
              && cache.length == old(cache.length) + |ids|
  {
    hide AllStored, Owned, BlocksFor, LogitRow, AllInVocab, ChunkHidden, ChunkCache;
    if ids == [] {
      return Throws(EmptyInput);
    }
    if !AllInVocab(net, ids) {
      return Throws(TokenOutOfRange);
    }
    var x := RunPagedLayers(net, ids, cache);
    if x.Throws? {
      assert PagedContents(cache) == old(PagedContents(cache));
      return Throws(x.error);
    }
    ghost var extended := PagedContents(cache);
    cache.Advance(|ids|);
    assert PagedContents(cache) == extended;
    return Ok(seq(|ids|, i requires 0 <= i < |ids| => LogitRow(net, x.value[i])));
  }

  // ---- Any split into chunks ----------------------------------------------------------------

  predicate ChunksOk(net: Net, chunks: seq<seq<Token>>) {
    forall i :: 0 <= i < |chunks| ==> chunks[i] != [] && AllInVocab(net, chunks[i])
  }

  lemma FlattenNext(chunks: seq<seq<Token>>, n: nat)
    requires n < |chunks|
    ensures Flatten(chunks[..n + 1]) == Flatten(chunks[..n]) + chunks[n]
  {
    assert chunks[..n + 1][..n] == chunks[..n];
  }

  lemma RunChunksNext(net: Net, chunks: seq<seq<Token>>, n: nat)
    requires n < |chunks|
    ensures var (logits, cache) := RunChunks(net, chunks[..n]);
            var past := |Flatten(chunks[..n])|;
            RunChunks(net, chunks[..n + 1])
            == (logits + ChunkLogits(net, cache, past, chunks[n]), ChunkCache(net, cache, past, chunks[n]))
  {
    assert chunks[..n + 1][..n] == chunks[..n];
  }

  lemma {:induction false} FlattenGrows(chunks: seq<seq<Token>>, n: nat)
    requires n <= |chunks|
    ensures |Flatten(chunks[..n])| <= |Flatten(chunks)|
    decreases |chunks| - n
  {
    if n < |chunks| {
      FlattenNext(chunks, n);
      FlattenGrows(chunks, n + 1);
    } else {
      assert chunks[..n] == chunks;
    }
  }

  /**
   A context fed in any chunks through a paged cache: it succeeds exactly if every chunk is a non-empty run
   of known tokens and the whole context fits the pool, and then the logits are those of the one-shot forward.
   */
  method ForwardChunks(net: Net, bs: nat, numBlocks: nat, chunks: seq<seq<Token>>)
    returns (r: Result<seq<seq<real>>>)
    requires net.layers > 0 && bs > 0
    ensures r.Ok? <==> ChunksOk(net, chunks) && BlocksFor(bs, |Flatten(chunks)|) <= numBlocks
    ensures r.Ok? ==> r.value == Logits(net, Flatten(chunks))
  {
    hide BlocksFor, Filled, Logits, ChunkLogits, ChunkCache, Flatten, RunChunks, AllInVocab, AllStored, Owned;
    var cache := new PagedKVCache(net.layers, bs, numBlocks);
    NothingFed(net, bs, cache, chunks);
    var logits: seq<seq<real>> := [];
    var n := 0;
    while n < |chunks|
      invariant 0 <= n <= |chunks| && fresh(cache) && fresh(cache.alloc) && fresh(cache.keys) && fresh(cache.values)
      invariant AllCommitted(net, cache) && cache.bs == bs && |cache.alloc.refCount| == numBlocks
      invariant cache.length == |Flatten(chunks[..n])| && BlocksFor(bs, cache.length) <= numBlocks
      invariant RunChunks(net, chunks[..n]) == (logits, PagedContents(cache))
      invariant forall i :: 0 <= i < n ==> chunks[i] != [] && AllInVocab(net, chunks[i])
    {
      FlattenNext(chunks, n);
      RunChunksNext(net, chunks, n);
      FlattenGrows(chunks, n + 1);
      BlocksForMonotone(bs, |Flatten(chunks[..n + 1])|, |Flatten(chunks)|);
      var rows := ForwardPaged(net, chunks[n], cache);
      if rows.Throws? {
        return Throws(rows.error);
      }
      logits := logits + rows.value;
      n := n + 1;
    }
    assert chunks[..n] == chunks;
    ChunkedEqualsOneShot(net, chunks);
    return Ok(logits);
  }

  lemma NothingFed(net: Net, bs: nat, cache: PagedKVCache, chunks: seq<seq<Token>>)
    requires bs > 0 && cache.keyRows == cache.valueRows == seq(net.layers, l => [])
    ensures Filled(net, PagedContents(cache), 0) && |Flatten(chunks[..0])| == 0 && BlocksFor(bs, 0) == 0
    ensures RunChunks(net, chunks[..0]) == ([], PagedContents(cache))
  {
    BlocksForFits(bs, 0, 0);
    var empty := seq(net.layers, l => LayerRowsKV([], []));
    assert PagedContents(cache) == empty;
  }
}
