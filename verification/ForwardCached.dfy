/**
 The cached forward over a contiguous cache. `ChunkHidden`, `ChunkLogits` and `ChunkCache` say what
 one cached forward computes from the rows already cached; `ForwardCached` is the loop that computes
 it; `ChunkedEqualsOneShot` shows that feeding a context in any chunks gives the one-shot forward.
 */
module ForwardCached {
  import opened Results
  import opened Network

  /** Key and value rows one layer has cached. */
  datatype LayerRowsKV = LayerRowsKV(k: seq<Vec>, v: seq<Vec>)

  type Cached = seq<LayerRowsKV>

  predicate Filled(net: Net, cache: Cached, past: nat) {
    && |cache| == net.layers
    && forall l :: 0 <= l < net.layers ==> |cache[l].k| == past && |cache[l].v| == past
  }

  /** The layer's rows after appending those of hidden rows x, which start at position `past`. */
  function Append(net: Net, kv: LayerRowsKV, l: nat, x: seq<Vec>, past: nat): LayerRowsKV {
    LayerRowsKV(kv.k + Keys(net, l, x, past), kv.v + Values(net, l, x))
  }

  /** Hidden rows of the chunk `ids` entering layer l, when `past` rows are cached per layer. */
  function ChunkHidden(net: Net, cache: Cached, past: nat, ids: seq<Token>, l: nat): (x: seq<Vec>)
    requires Filled(net, cache, past) && l <= net.layers
    ensures |x| == |ids|
  {
    if l == 0 then Embed(net, ids)
    else
      var x := ChunkHidden(net, cache, past, ids, l - 1);
      var kv := Append(net, cache[l - 1], l - 1, x, past);
      LayerRows(net, l - 1, x, past, kv.k, kv.v)
  }

  function ChunkLogits(net: Net, cache: Cached, past: nat, ids: seq<Token>): (r: seq<seq<real>>)
    requires Filled(net, cache, past)
    ensures |r| == |ids|
  {
    var x := ChunkHidden(net, cache, past, ids, net.layers);
    seq(|ids|, i requires 0 <= i < |ids| => LogitRow(net, x[i]))
  }

  function Appended(net: Net, cache: Cached, past: nat, ids: seq<Token>, l: nat): LayerRowsKV
    requires Filled(net, cache, past) && l < net.layers
  {
    Append(net, cache[l], l, ChunkHidden(net, cache, past, ids, l), past)
  }

  function ChunkCache(net: Net, cache: Cached, past: nat, ids: seq<Token>): (c: Cached)
    requires Filled(net, cache, past)
    ensures Filled(net, c, past + |ids|)
  {
    seq(net.layers, l requires 0 <= l < net.layers => Appended(net, cache, past, ids, l))
  }

  // ---- Chunking does not change the forward -------------------------------------------------

  /** What a cache holds when it is correct for a context. */
  function CacheOf(net: Net, ctx: seq<Token>): (c: Cached)
    ensures Filled(net, c, |ctx|)
  {
    seq(net.layers, l requires 0 <= l < net.layers =>
      LayerRowsKV(KeyRows(net, ctx, l), ValueRows(net, ctx, l)))
  }

  lemma {:induction false} ChunkHiddenIsReference(net: Net, ctx: seq<Token>, ids: seq<Token>, l: nat)
    requires l <= net.layers
    ensures ChunkHidden(net, CacheOf(net, ctx), |ctx|, ids, l) == Hidden(net, ctx + ids, l)[|ctx|..]
    ensures l < net.layers ==>
              Append(net, CacheOf(net, ctx)[l], l, ChunkHidden(net, CacheOf(net, ctx), |ctx|, ids, l), |ctx|)
              == CacheOf(net, ctx + ids)[l]
    decreases l
  {
    hide LayerRows, Keys, Values, Append;
    var x := ChunkHidden(net, CacheOf(net, ctx), |ctx|, ids, l);
    if l > 0 {
      ChunkHiddenIsReference(net, ctx, ids, l - 1);
      LayerFromAppended(net, ctx, ids, l);
    }
    if l < net.layers {
      AppendedIsReference(net, ctx, ids, l, x);
    }
  }

  lemma AppendedIsReference(net: Net, ctx: seq<Token>, ids: seq<Token>, l: nat, x: seq<Vec>)
    requires l < net.layers && x == Hidden(net, ctx + ids, l)[|ctx|..]
    ensures Append(net, CacheOf(net, ctx)[l], l, x, |ctx|) == CacheOf(net, ctx + ids)[l]
  {
    HiddenCausal(net, ctx, ctx + ids, l);
    assert KeyRows(net, ctx, l) + Keys(net, l, x, |ctx|) == KeyRows(net, ctx + ids, l);
    assert ValueRows(net, ctx, l) + Values(net, l, x) == ValueRows(net, ctx + ids, l);
  }

  lemma LayerFromAppended(net: Net, ctx: seq<Token>, ids: seq<Token>, l: nat)
    requires 0 < l <= net.layers
    requires Append(net, CacheOf(net, ctx)[l - 1], l - 1, ChunkHidden(net, CacheOf(net, ctx), |ctx|, ids, l - 1), |ctx|)
             == CacheOf(net, ctx + ids)[l - 1]
    requires ChunkHidden(net, CacheOf(net, ctx), |ctx|, ids, l - 1) == Hidden(net, ctx + ids, l - 1)[|ctx|..]
    ensures ChunkHidden(net, CacheOf(net, ctx), |ctx|, ids, l) == Hidden(net, ctx + ids, l)[|ctx|..]
  {
    var kv := CacheOf(net, ctx + ids)[l - 1];
    LayerRowsSuffix(net, l - 1, Hidden(net, ctx + ids, l - 1), |ctx|, kv.k, kv.v);
  }

  lemma LayerRowsSuffix(net: Net, l: nat, x: seq<Vec>, start: nat, ks: seq<Vec>, vs: seq<Vec>)
    requires start <= |x| <= |ks| == |vs|
    ensures LayerRows(net, l, x[start..], start, ks, vs) == LayerRows(net, l, x, 0, ks, vs)[start..]
  {
  }

  /** One cached forward over a correct cache gives the rows of the one-shot forward and a correct cache. */
  lemma ChunkIsReference(net: Net, ctx: seq<Token>, ids: seq<Token>)
    ensures ChunkLogits(net, CacheOf(net, ctx), |ctx|, ids) == Logits(net, ctx + ids)[|ctx|..]
    ensures ChunkCache(net, CacheOf(net, ctx), |ctx|, ids) == CacheOf(net, ctx + ids)
  {
    forall l | 0 <= l <= net.layers {
      ChunkHiddenIsReference(net, ctx, ids, l);
    }
  }

  function Flatten(chunks: seq<seq<Token>>): seq<Token> {
    if chunks == [] then [] else Flatten(chunks[..|chunks| - 1]) + chunks[|chunks| - 1]
  }

  /** Cached forwards over the chunks in order, starting from an empty cache: all logits, final cache. */
  function RunChunks(net: Net, chunks: seq<seq<Token>>): (r: (seq<seq<real>>, Cached))
    ensures Filled(net, r.1, |Flatten(chunks)|)
  {
    if chunks == [] then ([], seq(net.layers, l => LayerRowsKV([], [])))
    else
      var done, ids := chunks[..|chunks| - 1], chunks[|chunks| - 1];
      var (logits, cache) := RunChunks(net, done);
      var past := |Flatten(done)|;
      (logits + ChunkLogits(net, cache, past, ids), ChunkCache(net, cache, past, ids))
  }

  lemma {:induction false} ChunkedEqualsOneShot(net: Net, chunks: seq<seq<Token>>)
    ensures RunChunks(net, chunks).0 == Logits(net, Flatten(chunks))
    ensures RunChunks(net, chunks).1 == CacheOf(net, Flatten(chunks))
  {
    hide ChunkLogits, ChunkCache, Logits, Hidden, Filled;
    if chunks != [] {
      var done, ids := chunks[..|chunks| - 1], chunks[|chunks| - 1];
      ChunkedEqualsOneShot(net, done);
      var ctx := Flatten(done);
      ChunkIsReference(net, ctx, ids);
      LogitsCausal(net, ctx, ctx + ids);
      assert Logits(net, ctx + ids) == Logits(net, ctx + ids)[..|ctx|] + Logits(net, ctx + ids)[|ctx|..];
    }
  }

  // ---- The cache and the loop ---------------------------------------------------------------

  /** Contiguous per-layer cache. Rows of kv_dim floats are elements here. */
  class KVCache {
    var keys: seq<seq<Vec>>
    var values: seq<seq<Vec>>
    var length: nat

    constructor (numLayers: nat)
      ensures keys == seq(numLayers, l => []) && values == seq(numLayers, l => []) && length == 0
    {
      keys := seq(numLayers, l => []);
      values := seq(numLayers, l => []);
      length := 0;
    }

    predicate Valid()
      reads this
    {
      && |keys| == |values|
      && forall l :: 0 <= l < |keys| ==> |keys[l]| == |values[l]|
    }

    function Layer(l: nat): LayerRowsKV
      requires Valid() && l < |keys|
      reads this
    {
      LayerRowsKV(keys[l], values[l])
    }

    /** The cached rows as a value. */
    function Contents(): (c: Cached)
      requires Valid()
      reads this
      ensures |c| == |keys|
    {
      seq(|keys|, l requires 0 <= l < |keys| && Valid() reads this => Layer(l))
    }

    method Append(layer: nat, k: seq<Vec>, v: seq<Vec>)
      requires Valid() && layer < |keys| && |k| == |v|
      modifies this`keys, this`values
      ensures Valid()
      ensures keys == old(keys)[layer := old(keys)[layer] + k]
      ensures values == old(values)[layer := old(values)[layer] + v]
    {
      keys := keys[layer := keys[layer] + k];
      values := values[layer := values[layer] + v];
    }

    method Advance(n: nat)
      modifies this`length
      ensures length == old(length) + n
    {
      length := length + n;
    }
  }

  /** The multi-row causal attention over all cached rows, queries starting at `offset`. */
  function Attention(net: Net, q: seq<Vec>, ks: seq<Vec>, vs: seq<Vec>, offset: nat): (out: seq<Vec>)
    requires offset + |q| <= |ks| == |vs|
    ensures |out| == |q|
  {
    seq(|q|, i requires 0 <= i < |q| => net.attend(q[i], ks[..offset + i + 1], vs[..offset + i + 1]))
  }

  /** Queries of one layer for rows x starting at position `start`. */
  function Queries(net: Net, l: nat, x: seq<Vec>, start: nat): (q: seq<Vec>)
    ensures |q| == |x|
  {
    seq(|x|, i requires 0 <= i < |x| => net.query(l, start + i, x[i]))
  }

  function Mix(net: Net, l: nat, x: seq<Vec>, attn: seq<Vec>): (y: seq<Vec>)
    requires |attn| == |x|
    ensures |y| == |x|
  {
    seq(|x|, i requires 0 <= i < |x| => net.mix(l, x[i], attn[i]))
  }

  lemma LayerRowsByParts(net: Net, l: nat, x: seq<Vec>, start: nat, ks: seq<Vec>, vs: seq<Vec>)
    requires start + |x| <= |ks| == |vs|
    ensures Mix(net, l, x, Attention(net, Queries(net, l, x, start), ks, vs, start))
            == LayerRows(net, l, x, start, ks, vs)
  {
  }

  /** One turn of the layer loop. */
  method RunLayer(net: Net, ghost before: Cached, past: nat, ids: seq<Token>, l: nat, x: seq<Vec>, cache: KVCache)
    returns (y: seq<Vec>)
    requires Filled(net, before, past) && l < net.layers
    requires cache.Valid() && |cache.keys| == net.layers && cache.Layer(l) == before[l]
    requires x == ChunkHidden(net, before, past, ids, l)
    modifies cache`keys, cache`values
    ensures cache.Valid() && |cache.keys| == net.layers
    ensures y == ChunkHidden(net, before, past, ids, l + 1)
    ensures cache.Layer(l) == Appended(net, before, past, ids, l)
    ensures forall m :: 0 <= m < net.layers && m != l ==> cache.Layer(m) == old(cache.Layer(m))
  {
    var q := Queries(net, l, x, past);
    var k := Keys(net, l, x, past);
    var v := Values(net, l, x);
    cache.Append(l, k, v);
    var attn := Attention(net, q, cache.keys[l], cache.values[l], past);
    LayerRowsByParts(net, l, x, past, cache.keys[l], cache.values[l]);
    y := Mix(net, l, x, attn);
  }

  /**
   The cached forward. It throws before touching the cache; otherwise it returns one logits row per
   input token and extends every layer by the chunk's rows.
   */
  method Forward(net: Net, ids: seq<Token>, cache: KVCache) returns (r: Result<seq<seq<real>>>)
    requires cache.Valid() && Filled(net, cache.Contents(), cache.length)
    modifies cache
    ensures cache.Valid()
    ensures r.Throws? ==> cache.keys == old(cache.keys) && cache.values == old(cache.values)
                          && cache.length == old(cache.length)
    ensures r.Ok? <==> ids != [] && AllInVocab(net, ids)
    ensures r.Throws? ==> r.error == if ids == [] then EmptyInput else TokenOutOfRange
    ensures r.Ok? ==>
              && r.value == ChunkLogits(net, old(cache.Contents()), old(cache.length), ids)
              && cache.Contents() == ChunkCache(net, old(cache.Contents()), old(cache.length), ids)
              && cache.length == old(cache.length) + |ids|
  {
    if ids == [] {
      return Throws(EmptyInput);
    }
    if !AllInVocab(net, ids) {
      return Throws(TokenOutOfRange);
    }
    hide LayerRows, LogitRow, Append;
    var past := cache.length;
    ghost var before := cache.Contents();
    var x := Embed(net, ids);
    var l := 0;
    while l < net.layers
      invariant 0 <= l <= net.layers
      invariant cache.Valid() && |cache.keys| == net.layers && cache.length == past
      invariant x == ChunkHidden(net, before, past, ids, l)
      invariant forall m :: 0 <= m < l ==> cache.Layer(m) == Appended(net, before, past, ids, m)
      invariant forall m :: l <= m < net.layers ==> cache.Layer(m) == before[m]
    {
      x := RunLayer(net, before, past, ids, l, x, cache);
      l := l + 1;
    }
    cache.Advance(|ids|);
    assert forall m :: 0 <= m < net.layers ==> cache.Contents()[m] == cache.Layer(m);
    assert cache.Contents() == ChunkCache(net, before, past, ids);
    return Ok(seq(|ids|, i requires 0 <= i < |ids| => LogitRow(net, x[i])));
  }

  /** The forward of a context on its own: a cached forward over an empty cache. */
  method OneShot(net: Net, ids: seq<Token>) returns (r: Result<seq<seq<real>>>)
    ensures r.Ok? <==> ids != [] && AllInVocab(net, ids)
    ensures r.Throws? ==> r.error == if ids == [] then EmptyInput else TokenOutOfRange
    ensures r.Ok? ==> r.value == Logits(net, ids)
  {
    var cache := new KVCache(net.layers);
    assert cache.Contents() == CacheOf(net, []);
    r := Forward(net, ids, cache);
    ChunkIsReference(net, [], ids);
    assert [] + ids == ids;
  }
}
