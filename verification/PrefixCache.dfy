/**
 The prefix cache as a value: buckets of entries by chain hash, what a lookup finds, which entry the
 eviction scan picks, and how many references the cache holds on each block.
 */
module PrefixCaches {
  import opened Arithmetic
  import opened Results

  type Hash = nat

  /** Hash of a block of tokens below a parent hash. Any function will do. */
  type HashBlock = (Hash, seq<int>) -> Hash

  /** A cached block: its own tokens, its parent's chain hash, where its rows are, and its LRU tick. */
  datatype PrefixEntry = PrefixEntry(parent: Hash, tokens: seq<int>, block: nat, lastUsed: int)

  type Prefixes = map<Hash, seq<PrefixEntry>>

  // ---- Chain hashes -------------------------------------------------------------------------

  /** Hash of a run of full blocks: 0 for none, else hash of the last block below the rest. */
  function Chain(hash: HashBlock, bs: nat, tokens: seq<int>): Hash
    requires bs > 0
  {
    if |tokens| < bs then 0
    else hash(Chain(hash, bs, tokens[..|tokens| - bs]), tokens[|tokens| - bs..])
  }

  /** How many full blocks the tokens have. */
  function FullBlocks(bs: nat, tokens: seq<int>): nat
    requires bs > 0
  {
    |tokens| / bs
  }

  /** The first b blocks of the tokens. */
  function Leading(tokens: seq<int>, bs: nat, b: nat): seq<int>
    requires b * bs <= |tokens|
  {
    tokens[..b * bs]
  }

  /** Block b of the tokens. */
  function Span(tokens: seq<int>, bs: nat, b: nat): (s: seq<int>)
    requires b * bs + bs <= |tokens|
    ensures |s| == bs
  {
    tokens[b * bs..b * bs + bs]
  }

  lemma LeadingNext(tokens: seq<int>, bs: nat, b: nat)
    requires b * bs + bs <= |tokens|
    ensures (b + 1) * bs == b * bs + bs
    ensures Leading(tokens, bs, b + 1) == Leading(tokens, bs, b) + Span(tokens, bs, b)
  {
  }

  lemma ChainNext(hash: HashBlock, bs: nat, tokens: seq<int>, b: nat)
    requires bs > 0 && b * bs + bs <= |tokens| && (b + 1) * bs <= |tokens|
    ensures Chain(hash, bs, Leading(tokens, bs, b + 1))
            == hash(Chain(hash, bs, Leading(tokens, bs, b)), Span(tokens, bs, b))
  {
    LeadingNext(tokens, bs, b);
    var next := Leading(tokens, bs, b + 1);
    assert next[..|next| - bs] == Leading(tokens, bs, b);
    assert next[|next| - bs..] == Span(tokens, bs, b);
  }

  /** Chain hash of the first b full blocks of the tokens, the parent of block b. */
  function ParentHash(hash: HashBlock, bs: nat, tokens: seq<int>, b: nat): Hash
    requires bs > 0
  {
    if b * bs <= |tokens| then Chain(hash, bs, Leading(tokens, bs, b)) else 0
  }

  lemma ParentHashEmpty(hash: HashBlock, bs: nat, tokens: seq<int>)
    requires bs > 0
    ensures ParentHash(hash, bs, tokens, 0) == 0
  {
    assert Leading(tokens, bs, 0) == [];
  }

  /** Below FullBlocks(bs, tokens) every block is full, and hashing it below its parent steps the chain. */
  lemma ParentHashNext(hash: HashBlock, bs: nat, tokens: seq<int>, b: nat)
    requires bs > 0 && b < FullBlocks(bs, tokens)
    ensures b * bs + bs <= |tokens| && (b + 1) * bs == b * bs + bs
    ensures ParentHash(hash, bs, tokens, b) == Chain(hash, bs, Leading(tokens, bs, b))
    ensures ParentHash(hash, bs, tokens, b + 1) == hash(ParentHash(hash, bs, tokens, b), Span(tokens, bs, b))
  {
    Division(|tokens|, bs);
    MulMonotone(b + 1, FullBlocks(bs, tokens), bs);
    MulStep(b, bs);
    ChainNext(hash, bs, tokens, b);
  }

  /** No two different prefixes of the set have the same chain hash. */
  ghost predicate CollisionFree(hash: HashBlock, bs: nat, seen: set<seq<int>>)
    requires bs > 0
  {
    forall p, q :: p in seen && q in seen && Chain(hash, bs, p) == Chain(hash, bs, q) ==> p == q
  }

  // ---- Lookup -------------------------------------------------------------------------------

  predicate Matches(e: PrefixEntry, parent: Hash, span: seq<int>) {
    e.parent == parent && e.tokens == span
  }

  /** Index of the first matching entry of a bucket; its length when there is none. */
  function FirstMatch(es: seq<PrefixEntry>, parent: Hash, span: seq<int>): (i: nat)
    ensures i <= |es|
    ensures forall j :: 0 <= j < i ==> !Matches(es[j], parent, span)
    ensures i < |es| ==> Matches(es[i], parent, span)
  {
    if es == [] || Matches(es[0], parent, span) then 0
    else 1 + FirstMatch(es[1..], parent, span)
  }

  lemma FirstMatchUnique(es: seq<PrefixEntry>, parent: Hash, span: seq<int>, i: nat)
    requires i <= |es|
    requires forall j :: 0 <= j < i ==> !Matches(es[j], parent, span)
    requires i < |es| ==> Matches(es[i], parent, span)
    ensures i == FirstMatch(es, parent, span)
  {
    var f := FirstMatch(es, parent, span);
  }

  /** The cached block for a span below a parent hash, if any. */
  function Lookup(p: Prefixes, h: Hash, parent: Hash, span: seq<int>): Option<nat> {
    if h !in p then None
    else
      var i := FirstMatch(p[h], parent, span);
      if i < |p[h]| then Some(p[h][i].block) else None
  }

  /** Where the cache finds block `span` below a parent: bucket and index of the entry. */
  function EntryFor(hash: HashBlock, p: Prefixes, parent: Hash, span: seq<int>): Option<(Hash, nat)> {
    var h := hash(parent, span);
    if h !in p || FirstMatch(p[h], parent, span) == |p[h]| then None else Some((h, FirstMatch(p[h], parent, span)))
  }

  /** What looking up block b of the tokens finds, walking the chain from the start. */
  function LookupBlock(hash: HashBlock, bs: nat, p: Prefixes, tokens: seq<int>, b: nat): Option<nat>
    requires bs > 0 && b * bs + bs <= |tokens|
  {
    var parent := Chain(hash, bs, Leading(tokens, bs, b));
    var span := Span(tokens, bs, b);
    Lookup(p, hash(parent, span), parent, span)
  }

  /** Equal up to LRU ticks. */
  ghost predicate SameButTicks(p: Prefixes, q: Prefixes) {
    && p.Keys == q.Keys
    && forall h :: h in p ==> SameBucket(p[h], q[h])
  }

  ghost predicate SameBucket(es: seq<PrefixEntry>, fs: seq<PrefixEntry>) {
    && |es| == |fs|
    && forall i :: 0 <= i < |es| ==>
         es[i].parent == fs[i].parent && es[i].tokens == fs[i].tokens && es[i].block == fs[i].block
  }

  lemma SameLookup(p: Prefixes, q: Prefixes, h: Hash, parent: Hash, span: seq<int>)
    requires SameButTicks(p, q)
    ensures Lookup(p, h, parent, span) == Lookup(q, h, parent, span)
  {
    if h in p {
      assert SameBucket(p[h], q[h]);
      FirstMatchUnique(q[h], parent, span, FirstMatch(p[h], parent, span));
    }
  }

  /** Entries are only ever appended to their bucket. */
  ghost predicate Grown(p: Prefixes, q: Prefixes) {
    forall h :: h in p ==> h in q && p[h] <= q[h]
  }

  /** A hit stays a hit, on the same block, when entries are appended. */
  lemma GrownLookup(p: Prefixes, q: Prefixes, h: Hash, parent: Hash, span: seq<int>)
    requires Grown(p, q) && Lookup(p, h, parent, span).Some?
    ensures Lookup(q, h, parent, span) == Lookup(p, h, parent, span)
  {
    FirstMatchUnique(q[h], parent, span, FirstMatch(p[h], parent, span));
  }

  // ---- References held by the cache ---------------------------------------------------------

  function Blocks(es: seq<PrefixEntry>): (bs: seq<nat>)
    ensures |bs| == |es|
  {
    seq(|es|, i requires 0 <= i < |es| => es[i].block)
  }

  lemma EmptyMap(p: Prefixes)
    requires forall h :: h !in p
    ensures p == map[]
  {
    assert p.Keys == {};
  }

  ghost function Pick(p: Prefixes): Hash
    requires p != map[]
    ensures Pick(p) in p
  {
    assert exists h :: h in p by { if forall h :: h !in p { EmptyMap(p); } }
    var h :| h in p;
    h
  }

  /** How many entries name each block. */
  ghost function CacheRefs(p: Prefixes): multiset<nat>
    decreases p.Keys
  {
    if p == map[] then multiset{}
    else
      var h := Pick(p);
      multiset(Blocks(p[h])) + CacheRefs(p - {h})
  }

  /** The blocks that some entry names. */
  ghost function CachedBlocks(p: Prefixes): set<nat> {
    set b | b in CacheRefs(p)
  }

  lemma {:induction false} CacheRefsAt(p: Prefixes, h: Hash)
    requires h in p
    ensures CacheRefs(p) == multiset(Blocks(p[h])) + CacheRefs(p - {h})
    decreases p.Keys
  {
    CacheRefsUnfold(p);
    hide CacheRefs, Blocks;
    var k := Pick(p);
    if k != h {
      RemovalCommutes(p, k, h);
      CacheRefsAt(p - {k}, h);
      CacheRefsAt(p - {h}, k);
    }
  }

  lemma RemovalCommutes(p: Prefixes, k: Hash, h: Hash)
    ensures p - {k} - {h} == p - {h} - {k}
    ensures k in p ==> p.Keys - {k} < p.Keys
    ensures h in p && k != h ==> h in p - {k} && (p - {k})[h] == p[h]
    ensures k in p && k != h ==> k in p - {h} && (p - {h})[k] == p[k]
  {
  }

  lemma CacheRefsUnfold(p: Prefixes)
    requires p != map[]
    ensures CacheRefs(p) == multiset(Blocks(p[Pick(p)])) + CacheRefs(p - {Pick(p)})
  {
  }

  lemma CacheRefsUpdate(p: Prefixes, h: Hash, es: seq<PrefixEntry>)
    ensures CacheRefs(p[h := es]) == multiset(Blocks(es)) + CacheRefs(p - {h})
    ensures h !in p ==> CacheRefs(p - {h}) == CacheRefs(p)
    ensures h in p ==> CacheRefs(p) == multiset(Blocks(p[h])) + CacheRefs(p - {h})
  {
    CacheRefsAt(p[h := es], h);
    assert p[h := es] - {h} == p - {h};
    if h in p {
      CacheRefsAt(p, h);
    } else {
      assert p - {h} == p;
    }
  }

  lemma EntryCounted(p: Prefixes, h: Hash, i: nat)
    requires h in p && i < |p[h]|
    ensures CacheRefs(p)[p[h][i].block] >= 1
  {
    CacheRefsAt(p, h);
    assert Blocks(p[h])[i] in multiset(Blocks(p[h]));
  }

  lemma AppendedRefs(p: Prefixes, h: Hash, e: PrefixEntry)
    ensures CacheRefs(p[h := (if h in p then p[h] else []) + [e]]) == CacheRefs(p) + multiset{e.block}
  {
    hide CacheRefs;
    var es := if h in p then p[h] else [];
    CacheRefsUpdate(p, h, es + [e]);
    assert Blocks(es + [e]) == Blocks(es) + [e.block];
  }

  lemma RefreshedRefs(p: Prefixes, h: Hash, i: nat, tick: int)
    requires h in p && i < |p[h]|
    ensures CacheRefs(p[h := p[h][i := p[h][i].(lastUsed := tick)]]) == CacheRefs(p)
  {
    var es := p[h][i := p[h][i].(lastUsed := tick)];
    CacheRefsUpdate(p, h, es);
    assert Blocks(es) == Blocks(p[h]);
  }

  // ---- Eviction -----------------------------------------------------------------------------

  ghost predicate IsEntry(p: Prefixes, h: Hash, i: int) {
    h in p && 0 <= i < |p[h]|
  }

  /** Every entry's tick has been handed out, and no tick twice. */
  ghost predicate DistinctTicks(p: Prefixes, tick: int) {
    && 0 <= tick
    && (forall h, i :: IsEntry(p, h, i) ==> 0 <= p[h][i].lastUsed <= tick)
    && (forall h, i, g, j :: IsEntry(p, h, i) && IsEntry(p, g, j) && p[h][i].lastUsed == p[g][j].lastUsed
                             ==> h == g && i == j)
  }

  /** An entry whose block nobody but the cache holds. */
  ghost predicate Evictable(p: Prefixes, refCount: seq<nat>, h: Hash, i: int) {
    IsEntry(p, h, i) && p[h][i].block < |refCount| && refCount[p[h][i].block] == 1
  }

  /** The least recently used evictable entry. */
  ghost predicate IsVictim(p: Prefixes, refCount: seq<nat>, h: Hash, i: int) {
    && Evictable(p, refCount, h, i)
    && forall g, j :: Evictable(p, refCount, g, j) ==> p[h][i].lastUsed <= p[g][j].lastUsed
  }

  /** The victim does not depend on the order in which the buckets are visited. */
  lemma VictimUnique(p: Prefixes, refCount: seq<nat>, tick: int, h: Hash, i: int, g: Hash, j: int)
    requires DistinctTicks(p, tick) && IsVictim(p, refCount, h, i) && IsVictim(p, refCount, g, j)
    ensures h == g && i == j
  {
  }

  /** Among finitely many ticks bounded below there is a least one. */
  lemma {:induction false} VictimExists(p: Prefixes, refCount: seq<nat>, tick: int, h: Hash, i: int)
    requires DistinctTicks(p, tick) && Evictable(p, refCount, h, i)
    ensures exists g, j :: IsVictim(p, refCount, g, j)
    decreases p[h][i].lastUsed
  {
    if !IsVictim(p, refCount, h, i) {
      var g, j :| Evictable(p, refCount, g, j) && p[g][j].lastUsed < p[h][i].lastUsed;
      VictimExists(p, refCount, tick, g, j);
    }
  }

  function Without(p: Prefixes, h: Hash, i: nat): Prefixes
    requires h in p && i < |p[h]|
  {
    var es := p[h][..i] + p[h][i + 1..];
    if es == [] then p - {h} else p[h := es]
  }

  lemma WithoutRefs(p: Prefixes, h: Hash, i: nat)
    requires h in p && i < |p[h]|
    ensures CacheRefs(p) == CacheRefs(Without(p, h, i)) + multiset{p[h][i].block}
  {
    var es := p[h][..i] + p[h][i + 1..];
    hide CacheRefs;
    CacheRefsUpdate(p, h, es);
    EraseBlocks(p[h], i);
    if es == [] {
      assert multiset(Blocks(es)) == multiset{};
    }
  }

  lemma EraseBlocks(es: seq<PrefixEntry>, i: nat)
    requires i < |es|
    ensures multiset(Blocks(es)) == multiset(Blocks(es[..i] + es[i + 1..])) + multiset{es[i].block}
  {
    var before, after := Blocks(es[..i]), Blocks(es[i + 1..]);
    assert Blocks(es) == before + ([es[i].block] + after);
    assert Blocks(es[..i] + es[i + 1..]) == before + after;
  }

  /** Each remaining entry was there before; what was there before remains unless it was the victim. */
  lemma WithoutEntries(p: Prefixes, h: Hash, i: nat)
    requires h in p && i < |p[h]|
    ensures forall g, j :: IsEntry(Without(p, h, i), g, j) ==>
              var k := if g == h && j >= i then j + 1 else j;
              IsEntry(p, g, k) && p[g][k] == Without(p, h, i)[g][j]
  {
  }
}
