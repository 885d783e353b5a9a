/**
 The shared block pool as a value: free list, reference counts, prefix cache, and the references that
 block tables hold. Every pool operation is a function of this state; what the operations promise
 is proved here, and the block manager's methods are proved to compute these functions.
 */
module BlockPools {
  import opened Arithmetic
  import opened Results
  import opened BlockAllocators
  import opened PrefixCaches

  /**
   `held` counts the block table entries that name each block and `seen` collects every token prefix
   whose chain hash has served as a parent; the program stores neither.
   */
  datatype Pool = Pool(
    free: seq<nat>,
    count: seq<nat>,
    prefix: Prefixes,
    tick: int,
    held: multiset<nat>,
    seen: set<seq<int>>)

  /** Nothing held and nothing cached. */
  function FreshPool(numBlocks: nat): Pool {
    Pool(Descending(numBlocks), seq(numBlocks, i => 0), map[], 0, multiset{}, {})
  }

  /** Each count is the number of table entries plus cache entries that name the block. */
  ghost predicate Conserved(count: seq<nat>, held: multiset<nat>, p: Prefixes) {
    && (forall b :: 0 <= b < |count| ==> count[b] == held[b] + CacheRefs(p)[b])
    && (forall b :: b in held || b in CacheRefs(p) ==> b < |count|)
  }

  ghost predicate CacheShape(p: Prefixes, tick: int, bs: nat) {
    && DistinctTicks(p, tick)
    && forall h, i :: IsEntry(p, h, i) ==> |p[h][i].tokens| == bs
  }

  ghost predicate PoolValid(bs: nat, s: Pool) {
    && bs > 0
    && Consistent(s.free, s.count)
    && Conserved(s.count, s.held, s.prefix)
    && CacheShape(s.prefix, s.tick, bs)
  }

  lemma ValidIsConsistent(bs: nat, s: Pool)
    requires PoolValid(bs, s)
    ensures bs > 0 && Consistent(s.free, s.count) && FreeInRange(s)
  {
  }

  lemma HeldIsLive(bs: nat, s: Pool, b: nat)
    requires PoolValid(bs, s) && b in s.held
    ensures b < |s.count| && s.count[b] > 0 && b !in s.free
  {
    hide CacheRefs;
  }

  lemma CachedIsLive(bs: nat, s: Pool, h: Hash, i: int)
    requires PoolValid(bs, s) && IsEntry(s.prefix, h, i)
    ensures s.prefix[h][i].block < |s.count| && s.count[s.prefix[h][i].block] > s.held[s.prefix[h][i].block]
  {
    hide CacheRefs;
    EntryCounted(s.prefix, h, i);
  }

  /** With every table freed and the cache cleared the whole pool is free again. */
  lemma NothingHeldAllFree(bs: nat, s: Pool)
    requires PoolValid(bs, s) && s.held == multiset{} && s.prefix == map[]
    ensures |s.free| == |s.count|
  {
    AllFree(s.free, s.count);
  }

  // ---- Eviction -----------------------------------------------------------------------------

  ghost predicate HasVictim(s: Pool) {
    exists h, i :: IsVictim(s.prefix, s.count, h, i)
  }

  ghost predicate HasEvictable(s: Pool) {
    exists h, i :: Evictable(s.prefix, s.count, h, i)
  }

  ghost function Victim(s: Pool): (v: (Hash, nat))
    requires HasVictim(s)
    ensures IsVictim(s.prefix, s.count, v.0, v.1)
  {
    var h, i :| IsVictim(s.prefix, s.count, h, i);
    (h, i)
  }

  /** Drop one cached entry that nobody else holds. */
  ghost function Drop(s: Pool, h: Hash, i: nat): Pool
    requires Evictable(s.prefix, s.count, h, i)
  {
    var b := s.prefix[h][i].block;
    s.(prefix := Without(s.prefix, h, i), free := s.free + [b], count := s.count[b := 0])
  }

  ghost function Evict(s: Pool): Pool {
    if HasVictim(s) then Drop(s, Victim(s).0, Victim(s).1) else s
  }

  /** Dropping an evictable entry touches no block that a table holds. */
  lemma DropKeeps(bs: nat, s: Pool, h: Hash, i: nat)
    requires PoolValid(bs, s) && Evictable(s.prefix, s.count, h, i)
    ensures s.held[s.prefix[h][i].block] == 0
    ensures PoolValid(bs, Drop(s, h, i))
  {
    hide CacheRefs;
    EntryCounted(s.prefix, h, i);
    WithoutRefs(s.prefix, h, i);
    WithoutEntries(s.prefix, h, i);
    var b := s.prefix[h][i].block;
    var q := Without(s.prefix, h, i);
    hide Without;
    forall c | 0 <= c < |s.count|
      ensures s.count[b := 0][c] == s.held[c] + CacheRefs(q)[c]
    {
      assert s.count[c] == s.held[c] + CacheRefs(s.prefix)[c];
    }
    assert forall c :: c in CacheRefs(q) ==> c in CacheRefs(s.prefix);
    assert b !in s.free;
  }

  /** Something can be evicted exactly when the cache alone holds some block. */
  lemma VictimWhenever(bs: nat, s: Pool)
    requires PoolValid(bs, s)
    ensures HasVictim(s) <==> HasEvictable(s)
  {
    hide CacheRefs;
    if HasEvictable(s) {
      var h, i :| Evictable(s.prefix, s.count, h, i);
      VictimExists(s.prefix, s.count, s.tick, h, i);
    }
  }

  /** Eviction frees the victim's block, which no table names, and nothing else. */
  lemma EvictKeeps(bs: nat, s: Pool)
    requires PoolValid(bs, s)
    ensures var e := Evict(s);
            && PoolValid(bs, e) && e.held == s.held && e.seen == s.seen && e.tick == s.tick
            && (!HasEvictable(s) ==> e == s)
            && (HasEvictable(s) ==>
                  exists b: nat :: b < |s.count| && s.held[b] == 0 && e.free == s.free + [b]
                    && e.count == s.count[b := 0])
  {
    hide PoolValid, CacheRefs, Without, HasEvictable;
    VictimWhenever(bs, s);
    if HasVictim(s) {
      DropKeeps(bs, s, Victim(s).0, Victim(s).1);
    }
  }

  // ---- Allocation ---------------------------------------------------------------------------

  ghost predicate FreeInRange(s: Pool) {
    forall i :: 0 <= i < |s.free| ==> s.free[i] < |s.count|
  }

  ghost function AllocateFrom(s: Pool): (r: (Result<nat>, Pool))
    requires FreeInRange(s)
    ensures FreeInRange(r.1)
  {
    var e := if s.free == [] then Evict(s) else s;
    if e.free == [] then (Throws(OutOfBlocks), e)
    else
      var b := e.free[|e.free| - 1];
      (Ok(b), e.(free := e.free[..|e.free| - 1], count := e.count[b := 1], held := e.held + multiset{b}))
  }

  /**
   Allocation fails exactly when nothing is free and the cache alone holds nothing; what it hands out
   was in no table, and it never takes a block away from one.
   */
  lemma AllocateKeeps(bs: nat, s: Pool)
    requires PoolValid(bs, s)
    ensures var (r, t) := AllocateFrom(s);
            && PoolValid(bs, t) && |t.count| == |s.count|
            && (r.Throws? <==> s.free == [] && !HasEvictable(s))
            && (r.Throws? ==> t == s && r.error == OutOfBlocks)
            && (r.Ok? ==>
                  && r.value < |s.count| && s.held[r.value] == 0 && t.count == s.count[r.value := 1]
                  && t.held == s.held + multiset{r.value}
                  && t.seen == s.seen && t.tick == s.tick)
            && (s.free != [] ==> t.prefix == s.prefix && s.count[r.value] == 0)
  {
    hide PoolValid, Evict, HasEvictable;
    var e := if s.free == [] then Evict(s) else s;
    EvictKeeps(bs, s);
    if e.free != [] {
      TakeFree(bs, e);
    }
  }

  lemma TakeFree(bs: nat, e: Pool)
    requires PoolValid(bs, e) && e.free != []
    ensures var b := e.free[|e.free| - 1];
            && b < |e.count| && e.count[b] == 0 && e.held[b] == 0
            && PoolValid(bs, e.(free := e.free[..|e.free| - 1], count := e.count[b := 1], held := e.held + multiset{b}))
  {
    hide CacheRefs;
    var b := e.free[|e.free| - 1];
    var rest := e.free[..|e.free| - 1];
    assert e.free == rest + [b];
    assert b in e.free;
    forall c | 0 <= c < |e.count|
      ensures e.count[b := 1][c] == (e.held + multiset{b})[c] + CacheRefs(e.prefix)[c]
      ensures e.count[b := 1][c] == 0 <==> c in rest
    {
      assert e.count[c] == e.held[c] + CacheRefs(e.prefix)[c];
      assert c in e.free <==> c in rest || c == b;
    }
  }

  // ---- Growing a block table ----------------------------------------------------------------

  /** Allocates until the table has `need` blocks or the pool gives out. */
  ghost function ReserveFrom(s: Pool, table: seq<nat>, need: nat): (r: (Result<()>, seq<nat>, Pool))
    requires FreeInRange(s)
    ensures FreeInRange(r.2)
    decreases need - |table|
  {
    if |table| >= need then (Ok(()), table, s)
    else
      var (b, t) := AllocateFrom(s);
      if b.Throws? then (Throws(b.error), table, t) else ReserveFrom(t, table + [b.value], need)
  }

  /** What a reservation leaves behind, seen from the tables that already hold blocks. */
  ghost predicate Reserved(bs: nat, s: Pool, table: seq<nat>, t: Pool, grown: seq<nat>) {
    && PoolValid(bs, t) && |t.count| == |s.count| && t.seen == s.seen
    && table <= grown
    && t.held == s.held + multiset(grown[|table|..])
    && (forall k :: |table| <= k < |grown| ==> s.held[grown[k]] == 0 && grown[k] < |t.count| && t.count[grown[k]] == 1)
    && (forall b :: b in s.held && b < |s.count| ==> t.count[b] == s.count[b])
  }

  lemma {:induction false} ReserveKeeps(bs: nat, s: Pool, table: seq<nat>, need: nat)
    requires PoolValid(bs, s)
    ensures var (r, grown, t) := ReserveFrom(s, table, need);
            && Reserved(bs, s, table, t, grown)
            && (r.Ok? ==> |grown| == if |table| < need then need else |table|)
            && (r.Throws? ==> |grown| < need && t.free == [] && !HasEvictable(t) && r.error == OutOfBlocks)
    decreases need - |table|
  {
    hide CacheRefs, HasEvictable;
    if |table| < need {
      AllocateKeeps(bs, s);
      hide AllocateFrom;
      var (b, t) := AllocateFrom(s);
      hide PoolValid;
      if b.Ok? {
        ReserveKeeps(bs, t, table + [b.value], need);
        var (r, grown, u) := ReserveFrom(t, table + [b.value], need);
        ReservedStep(bs, s, table, b.value, t, u, grown);
      } else {
        assert table[|table|..] == [];
      }
    } else {
      assert table[|table|..] == [];
    }
  }

  lemma ReservedStep(bs: nat, s: Pool, table: seq<nat>, b: nat, t: Pool, u: Pool, grown: seq<nat>)
    requires b < |s.count| && s.held[b] == 0
    requires t.count == s.count[b := 1] && t.held == s.held + multiset{b} && t.seen == s.seen
    requires Reserved(bs, t, table + [b], u, grown)
    ensures Reserved(bs, s, table, u, grown)
  {
    hide PoolValid;
    var n := |table|;
    assert grown[n] == (table + [b])[n] == b;
    assert grown[n..] == [b] + grown[n + 1..];
    assert table <= grown;
    assert b in t.held;
    assert forall c :: c in s.held ==> c in t.held && c != b;
  }

  /** With enough free blocks a reservation succeeds, uses exactly those, and leaves the cache alone. */
  lemma {:induction false} ReserveWithinFree(bs: nat, s: Pool, table: seq<nat>, need: nat)
    requires PoolValid(bs, s) && need - |table| <= |s.free|
    ensures var (r, grown, t) := ReserveFrom(s, table, need);
            && r.Ok? && t.prefix == s.prefix && t.tick == s.tick
            && |t.free| == |s.free| - (|grown| - |table|)
    decreases need - |table|
  {
    hide CacheRefs, HasEvictable;
    if |table| < need {
      AllocateKeeps(bs, s);
      var (b, t) := AllocateFrom(s);
      assert |t.free| == |s.free| - 1;
      hide AllocateFrom, PoolValid;
      ReserveWithinFree(bs, t, table + [b.value], need);
    }
  }

  // ---- When entries leave -------------------------------------------------------------------

  /** Evicting takes one reference of the cache away; with nothing to evict it does nothing. */
  lemma EvictRefs(bs: nat, s: Pool)
    requires PoolValid(bs, s)
    ensures CacheRefs(Evict(s).prefix) <= CacheRefs(s.prefix)
    ensures Evict(s).prefix != s.prefix <==> HasEvictable(s)
    ensures HasEvictable(s) ==> CacheRefs(Evict(s).prefix) != CacheRefs(s.prefix)
  {
    hide CacheRefs, PoolValid, Without, HasEvictable;
    VictimWhenever(bs, s);
    if HasVictim(s) {
      var (h, i) := Victim(s);
      WithoutRefs(s.prefix, h, i);
      assert CacheRefs(s.prefix)[s.prefix[h][i].block] == CacheRefs(Without(s.prefix, h, i))[s.prefix[h][i].block] + 1;
    }
  }

  /** An entry leaves the cache exactly when nothing is free and the cache alone holds some block. */
  lemma AllocateEvicts(bs: nat, s: Pool)
    requires PoolValid(bs, s)
    ensures var t := AllocateFrom(s).1;
            && (t.prefix != s.prefix <==> s.free == [] && HasEvictable(s))
            && CacheRefs(t.prefix) <= CacheRefs(s.prefix)
            && (s.free == [] && HasEvictable(s) ==> CacheRefs(t.prefix) != CacheRefs(s.prefix))
            && (s.free != [] ==> |t.free| == |s.free| - 1 && (HasEvictable(t) <==> HasEvictable(s)))
  {
    hide CacheRefs, HasEvictable, Evict;
    EvictRefs(bs, s);
    if s.free != [] {
      SameEvictable(bs, s);
    }
  }

  /** Taking a free block leaves the same entries evictable. */
  lemma SameEvictable(bs: nat, s: Pool)
    requires PoolValid(bs, s) && s.free != []
    ensures HasEvictable(AllocateFrom(s).1) <==> HasEvictable(s)
  {
    hide CacheRefs;
    var b := s.free[|s.free| - 1];
    assert b in s.free;
    forall h, i | IsEntry(s.prefix, h, i)
      ensures s.prefix[h][i].block != b
    {
      CachedIsLive(bs, s, h, i);
    }
    var t := AllocateFrom(s).1;
    assert t.prefix == s.prefix && t.count == s.count[b := 1];
    assert forall h, i :: Evictable(t.prefix, t.count, h, i) <==> Evictable(s.prefix, s.count, h, i);
  }

  /**
   A reservation takes entries out of the cache exactly when it needs more than is free and the cache alone
   holds some block.
   */
  lemma {:induction false} ReserveEvicts(bs: nat, s: Pool, table: seq<nat>, need: nat)
    requires PoolValid(bs, s)
    ensures var t := ReserveFrom(s, table, need).2;
            && (t.prefix != s.prefix <==> need - |table| > |s.free| && HasEvictable(s))
            && CacheRefs(t.prefix) <= CacheRefs(s.prefix)
    decreases need - |table|
  {
    hide CacheRefs, HasEvictable, PoolValid, AllocateFrom;
    if |table| < need {
      ValidIsConsistent(bs, s);
      AllocateKeeps(bs, s);
      AllocateEvicts(bs, s);
      var (b, t) := AllocateFrom(s);
      if b.Ok? {
        ReserveEvicts(bs, t, table + [b.value], need);
      }
    }
  }

  // ---- Releasing a block table --------------------------------------------------------------

  /** One table entry less on a block, which is free again if that was its last holder. */
  ghost function Release(s: Pool, b: nat): Pool {
    if b < |s.count| && s.count[b] > 0 then
      s.(count := s.count[b := s.count[b] - 1],
         free := s.free + (if s.count[b] == 1 then [b] else []),
         held := s.held - multiset{b})
    else s
  }

  lemma ReleaseKeeps(bs: nat, s: Pool, b: nat)
    requires PoolValid(bs, s) && b in s.held
    ensures b < |s.count| && s.count[b] > 0
    ensures var t := Release(s, b);
            && PoolValid(bs, t) && t.held == s.held - multiset{b} && |t.count| == |s.count| && |t.free| >= |s.free|
            && t.prefix == s.prefix && t.tick == s.tick && t.seen == s.seen
  {
    hide CacheRefs, CacheShape;
    HeldIsLive(bs, s, b);
    var t := Release(s, b);
    forall c | 0 <= c < |s.count|
      ensures t.count[c] == t.held[c] + CacheRefs(s.prefix)[c]
      ensures t.count[c] == 0 <==> c in t.free
    {
      assert s.count[c] == s.held[c] + CacheRefs(s.prefix)[c];
    }
  }

  /** Releases every block of a table, first to last. */
  ghost function FreeFrom(s: Pool, table: seq<nat>): Pool
    decreases |table|
  {
    if table == [] then s else FreeFrom(Release(s, table[0]), table[1..])
  }

  lemma HeldSplit(s: Pool, table: seq<nat>)
    requires table != [] && multiset(table) <= s.held
    ensures table[0] in s.held && multiset(table[1..]) <= s.held - multiset{table[0]}
    ensures s.held - multiset{table[0]} - multiset(table[1..]) == s.held - multiset(table)
  {
    assert table == [table[0]] + table[1..];
    assert table[0] in multiset(table);
  }

  /** Releasing a table whose references are held returns exactly those references. */
  lemma {:induction false} FreeKeeps(bs: nat, s: Pool, table: seq<nat>)
    requires PoolValid(bs, s) && multiset(table) <= s.held
    ensures var t := FreeFrom(s, table);
            && PoolValid(bs, t) && t.held == s.held - multiset(table)
            && |t.count| == |s.count| && t.prefix == s.prefix && t.tick == s.tick && t.seen == s.seen
            && |t.free| >= |s.free|
    decreases |table|
  {
    hide PoolValid, Release;
    if table != [] {
      HeldSplit(s, table);
      ReleaseKeeps(bs, s, table[0]);
      FreeKeeps(bs, Release(s, table[0]), table[1..]);
    }
  }

  /** Blocks that nobody else holds go to the free list in the order of the table. */
  lemma {:induction false} FreedInOrder(s: Pool, table: seq<nat>)
    requires NoDuplicates(table) && forall k :: 0 <= k < |table| ==> table[k] < |s.count| && s.count[table[k]] == 1
    ensures FreeFrom(s, table).free == s.free + table
    decreases |table|
  {
    if table == [] {
      assert s.free + table == s.free;
    } else {
      var t, rest := Release(s, table[0]), table[1..];
      assert t.free == s.free + [table[0]] && t.count == s.count[table[0] := 0];
      hide Release;
      forall k | 0 <= k < |rest|
        ensures rest[k] < |t.count| && t.count[rest[k]] == 1
      {
        assert rest[k] == table[k + 1];
      }
      FreedInOrder(t, rest);
      assert table == [table[0]] + rest;
      assert s.free + [table[0]] + rest == s.free + ([table[0]] + rest);
    }
  }

  // ---- Sharing a cached prefix --------------------------------------------------------------

  /** One more holder of a block. */
  function Bump(count: seq<nat>, b: nat): seq<nat> {
    if b < |count| then count[b := count[b] + 1] else count
  }

  /** A table takes a reference to a cached block and refreshes its entry. */
  ghost function Share(s: Pool, h: Hash, i: nat): Pool
    requires IsEntry(s.prefix, h, i)
  {
    var e := s.prefix[h][i];
    s.(prefix := s.prefix[h := s.prefix[h][i := e.(lastUsed := s.tick + 1)]],
       tick := s.tick + 1,
       count := Bump(s.count, e.block),
       held := s.held + multiset{e.block})
  }

  lemma ShareKeeps(bs: nat, s: Pool, h: Hash, i: nat)
    requires PoolValid(bs, s) && IsEntry(s.prefix, h, i)
    ensures s.prefix[h][i].block < |s.count| && s.count[s.prefix[h][i].block] > 0
    ensures PoolValid(bs, Share(s, h, i))
    ensures SameButTicks(s.prefix, Share(s, h, i).prefix)
    ensures CacheRefs(Share(s, h, i).prefix) == CacheRefs(s.prefix)
  {
    hide CacheRefs, CacheShape, SameButTicks;
    CachedIsLive(bs, s, h, i);
    RefreshedRefs(s.prefix, h, i, s.tick + 1);
    var t := Share(s, h, i);
    var b := s.prefix[h][i].block;
    forall c | 0 <= c < |s.count|
      ensures t.count[c] == t.held[c] + CacheRefs(s.prefix)[c]
      ensures t.count[c] == 0 <==> c in t.free
    {
      assert s.count[c] == s.held[c] + CacheRefs(s.prefix)[c];
    }
    ShareShape(bs, s, h, i);
  }

  lemma ShareShape(bs: nat, s: Pool, h: Hash, i: nat)
    requires CacheShape(s.prefix, s.tick, bs) && IsEntry(s.prefix, h, i)
    ensures CacheShape(Share(s, h, i).prefix, s.tick + 1, bs)
    ensures SameButTicks(s.prefix, Share(s, h, i).prefix)
  {
    var p, q := s.prefix, Share(s, h, i).prefix;
    forall g, j | IsEntry(q, g, j)
      ensures IsEntry(p, g, j) && q[g][j] == if g == h && j == i then p[g][j].(lastUsed := s.tick + 1) else p[g][j]
    {
    }
    hide Share;
  }

  /** Looks block b of the tokens up and, on a hit, shares the cached block. */
  ghost function Probe(hash: HashBlock, bs: nat, s: Pool, tokens: seq<int>, b: nat): (r: (Option<nat>, Pool))
    requires bs > 0 && b * bs + bs <= |tokens|
  {
    var lead := Leading(tokens, bs, b);
    var parent := Chain(hash, bs, lead);
    var span := Span(tokens, bs, b);
    var h := hash(parent, span);
    var probed := s.(seen := s.seen + {lead});
    if h !in s.prefix || FirstMatch(s.prefix[h], parent, span) == |s.prefix[h]| then (None, probed)
    else
      var i := FirstMatch(s.prefix[h], parent, span);
      (Some(s.prefix[h][i].block), Share(probed, h, i))
  }

  lemma ProbeKeeps(bs: nat, s: Pool, lead: seq<int>)
    requires PoolValid(bs, s)
    ensures PoolValid(bs, s.(seen := s.seen + {lead}))
  {
  }

  lemma ProbeFinds(hash: HashBlock, bs: nat, s: Pool, tokens: seq<int>, b: nat)
    requires bs > 0 && PoolValid(bs, s) && b * bs + bs <= |tokens|
    ensures var (found, t) := Probe(hash, bs, s, tokens, b);
            && found == LookupBlock(hash, bs, s.prefix, tokens, b)
            && Shared(bs, s, [], t, if found.Some? then [found.value] else [])
            && Leading(tokens, bs, b) in t.seen
  {
    hide CacheRefs, Chain, PoolValid;
    var lead := Leading(tokens, bs, b);
    var parent := Chain(hash, bs, lead);
    var span := Span(tokens, bs, b);
    var h := hash(parent, span);
    var probed := s.(seen := s.seen + {lead});
    ProbeKeeps(bs, s, lead);
    SameAsItself(s.prefix);
    if h in s.prefix && FirstMatch(s.prefix[h], parent, span) < |s.prefix[h]| {
      ShareKeeps(bs, probed, h, FirstMatch(s.prefix[h], parent, span));
    }
    hide SameButTicks;
  }

  /**
   Walks the chain of full blocks of `tokens` from block |table| on, taking a reference to each cached
   block found, until the first miss.
   */
  ghost function AcquireFrom(hash: HashBlock, bs: nat, s: Pool, tokens: seq<int>, table: seq<nat>): (r: (seq<nat>,
                             Pool))
    requires bs > 0
    decreases |tokens| - |table| * bs
  {
    if |table| * bs + bs > |tokens| then (table, s)
    else
      var (found, t) := Probe(hash, bs, s, tokens, |table|);
      MulStep(|table|, bs);
      if found.None? then (table, t) else AcquireFrom(hash, bs, t, tokens, table + [found.value])
  }

  /** One turn of the acquisition loop, or its end. */
  lemma AcquireUnfold(hash: HashBlock, bs: nat, s: Pool, tokens: seq<int>, table: seq<nat>)
    requires bs > 0
    ensures |table| >= FullBlocks(bs, tokens) ==> AcquireFrom(hash, bs, s, tokens, table) == (table, s)
    ensures |table| < FullBlocks(bs, tokens) ==>
              && |table| * bs + bs <= |tokens|
              && var (found, t) := Probe(hash, bs, s, tokens, |table|);
                 AcquireFrom(hash, bs, s, tokens, table)
                 == if found.None? then (table, t) else AcquireFrom(hash, bs, t, tokens, table + [found.value])
  {
    hide Probe;
    Division(|tokens|, bs);
    MulStep(FullBlocks(bs, tokens), bs);
    MulStep(|table|, bs);
    if |table| < FullBlocks(bs, tokens) {
      MulMonotone(|table| + 1, FullBlocks(bs, tokens), bs);
    } else {
      MulMonotone(FullBlocks(bs, tokens), |table|, bs);
    }
  }

  /** What sharing leaves behind: nothing allocated, nothing freed, nothing forgotten. */
  ghost predicate Shared(bs: nat, s: Pool, table: seq<nat>, t: Pool, grown: seq<nat>) {
    && PoolValid(bs, t)
    && t.free == s.free && |t.count| == |s.count|
    && SameButTicks(s.prefix, t.prefix) && CacheRefs(t.prefix) == CacheRefs(s.prefix)
    && table <= grown && t.held == s.held + multiset(grown[|table|..])
    && s.seen <= t.seen
  }

  /**
   The table grows by exactly the longest run of leading full blocks that are registered: every block
   appended is what its lookup finds, and the lookup after the last one finds nothing.
   */
  ghost predicate LongestRun(hash: HashBlock, bs: nat, p: Prefixes, tokens: seq<int>, from: nat, grown: seq<nat>)
    requires bs > 0
  {
    && |grown| * bs <= |tokens|
    && (forall k :: from <= k < |grown| ==>
          k * bs + bs <= |tokens| && LookupBlock(hash, bs, p, tokens, k) == Some(grown[k]))
    && (|grown| * bs + bs <= |tokens| ==> LookupBlock(hash, bs, p, tokens, |grown|) == None)
  }

  lemma {:induction false} AcquireKeeps(hash: HashBlock, bs: nat, s: Pool, tokens: seq<int>, table: seq<nat>)
    requires bs > 0 && PoolValid(bs, s) && |table| * bs <= |tokens|
    ensures var (grown, t) := AcquireFrom(hash, bs, s, tokens, table);
            && Shared(bs, s, table, t, grown)
            && LongestRun(hash, bs, s.prefix, tokens, |table|, grown)
            && (forall k :: |table| <= k <= |grown| && k * bs + bs <= |tokens| ==> Leading(tokens, bs, k) in t.seen)
    decreases |tokens| - |table| * bs
  {
    hide PoolValid, CacheRefs, Chain, Probe, LookupBlock, SameButTicks;
    var b := |table|;
    assert table[b..] == [];
    SameAsItself(s.prefix);
    if b * bs + bs <= |tokens| {
      ProbeFinds(hash, bs, s, tokens, b);
      MulStep(b, bs);
      var (found, u) := Probe(hash, bs, s, tokens, b);
      if found.Some? {
        var next := table + [found.value];
        AcquireKeeps(hash, bs, u, tokens, next);
        var (grown, t) := AcquireFrom(hash, bs, u, tokens, next);
        SharedStep(bs, s, table, found.value, u, t, grown);
        LongestRunStep(hash, bs, s.prefix, u.prefix, tokens, b, found.value, grown);
        assert Leading(tokens, bs, b) in u.seen;
      }
    }
  }

  lemma SameAsItself(p: Prefixes)
    ensures SameButTicks(p, p)
  {
  }

  lemma SharedStep(bs: nat, s: Pool, table: seq<nat>, b: nat, u: Pool, t: Pool, grown: seq<nat>)
    requires Shared(bs, s, [], u, [b]) && Shared(bs, u, table + [b], t, grown)
    ensures Shared(bs, s, table, t, grown)
  {
    hide CacheRefs, PoolValid;
    var n := |table|;
    assert [b][0..] == [b];
    assert grown[n] == (table + [b])[n];
    assert grown[n..] == [b] + grown[n + 1..];
    assert table == (table + [b])[..n] == grown[..n];
    assert SameButTicks(s.prefix, t.prefix) by {
      forall h | h in s.prefix
        ensures SameBucket(s.prefix[h], t.prefix[h])
      {
        assert SameBucket(s.prefix[h], u.prefix[h]) && SameBucket(u.prefix[h], t.prefix[h]);
      }
    }
    hide SameButTicks;
  }

  lemma LongestRunStep(hash: HashBlock, bs: nat, p: Prefixes, q: Prefixes, tokens: seq<int>, n: nat, b: nat,
                       grown: seq<nat>)
    requires bs > 0 && SameButTicks(p, q) && n * bs + bs <= |tokens|
    requires LookupBlock(hash, bs, p, tokens, n) == Some(b)
    requires n < |grown| && grown[n] == b && LongestRun(hash, bs, q, tokens, n + 1, grown)
    ensures LongestRun(hash, bs, p, tokens, n, grown)
  {
    hide Chain;
    forall k: nat | n < k <= |grown| && k * bs + bs <= |tokens|
      ensures LookupBlock(hash, bs, q, tokens, k) == LookupBlock(hash, bs, p, tokens, k)
    {
      var parent := Chain(hash, bs, Leading(tokens, bs, k));
      SameLookup(p, q, hash(parent, Span(tokens, bs, k)), parent, Span(tokens, bs, k));
    }
    hide LookupBlock;
  }

  // ---- Registering a prefix -----------------------------------------------------------------

  /** Adds block b of the tokens to the cache unless an equal entry is there. */
  ghost function Insert(hash: HashBlock, bs: nat, s: Pool, block: nat, tokens: seq<int>, b: nat): Pool
    requires bs > 0 && b * bs + bs <= |tokens|
  {
    var lead := Leading(tokens, bs, b);
    var parent := Chain(hash, bs, lead);
    var span := Span(tokens, bs, b);
    var h := hash(parent, span);
    var entries := if h in s.prefix then s.prefix[h] else [];
    var probed := s.(seen := s.seen + {lead});
    if FirstMatch(entries, parent, span) < |entries| then probed
    else
      probed.(prefix := s.prefix[h := entries + [PrefixEntry(parent, span, block, s.tick + 1)]],
              tick := s.tick + 1,
              count := Bump(s.count, block))
  }

  ghost function RegisterFrom(hash: HashBlock, bs: nat, s: Pool, table: seq<nat>, tokens: seq<int>, b: nat): Pool
    requires bs > 0
    decreases |table| - b
  {
    if b >= |table| || b * bs + bs > |tokens| then s
    else RegisterFrom(hash, bs, Insert(hash, bs, s, table[b], tokens, b), table, tokens, b + 1)
  }

  /** One turn of the registration loop, or its end. */
  lemma RegisterUnfold(hash: HashBlock, bs: nat, s: Pool, table: seq<nat>, tokens: seq<int>, b: nat)
    requires bs > 0
    ensures b >= |table| || b >= FullBlocks(bs, tokens) ==> RegisterFrom(hash, bs, s, table, tokens, b) == s
    ensures b < |table| && b < FullBlocks(bs, tokens) ==>
              b * bs + bs <= |tokens|
              && RegisterFrom(hash, bs, s, table, tokens, b)
                 == RegisterFrom(hash, bs, Insert(hash, bs, s, table[b], tokens, b), table, tokens, b + 1)
  {
    hide Insert;
    Division(|tokens|, bs);
    MulStep(FullBlocks(bs, tokens), bs);
    if b < FullBlocks(bs, tokens) {
      MulMonotone(b + 1, FullBlocks(bs, tokens), bs);
      MulStep(b, bs);
    } else {
      MulMonotone(FullBlocks(bs, tokens), b, bs);
    }
  }

  /** What the scan of the bucket decides about an insertion. */
  lemma InsertByScan(hash: HashBlock, bs: nat, s: Pool, block: nat, tokens: seq<int>, b: nat, parent: Hash,
                     entries: seq<PrefixEntry>)
    requires bs > 0 && b * bs + bs <= |tokens|
    requires parent == Chain(hash, bs, Leading(tokens, bs, b))
    requires var h := hash(parent, Span(tokens, bs, b)); entries == if h in s.prefix then s.prefix[h] else []
    ensures var span := Span(tokens, bs, b);
            var h := hash(parent, span);
            var e := PrefixEntry(parent, span, block, s.tick + 1);
            var probed := s.(seen := s.seen + {Leading(tokens, bs, b)});
            Insert(hash, bs, s, block, tokens, b)
            == if FirstMatch(entries, parent, span) < |entries| then probed else AddTo(probed, h, entries, e)
  {
  }

  /** The cache takes a reference to a block and remembers what it holds. */
  function AddTo(s: Pool, h: Hash, entries: seq<PrefixEntry>, e: PrefixEntry): Pool {
    s.(prefix := s.prefix[h := entries + [e]], tick := e.lastUsed, count := Bump(s.count, e.block))
  }

  /** The entry describes block k of the tokens and names the table's block k. */
  ghost predicate Describes(hash: HashBlock, bs: nat, t: Pool, table: seq<nat>, tokens: seq<int>, h: Hash,
                            e: PrefixEntry, k: nat)
    requires bs > 0
  {
    && k < |table| && k * bs + bs <= |tokens|
    && Leading(tokens, bs, k) in t.seen
    && e.parent == Chain(hash, bs, Leading(tokens, bs, k)) && e.tokens == Span(tokens, bs, k) && e.block == table[k]
    && h == hash(e.parent, e.tokens)
  }

  /** What registering blocks from..to leaves behind. */
  ghost predicate Registered(hash: HashBlock, bs: nat, s: Pool, table: seq<nat>, tokens: seq<int>, from: nat, t: Pool)
    requires bs > 0
  {
    && PoolValid(bs, t)
    && t.free == s.free && t.held == s.held && |t.count| == |s.count| && s.seen <= t.seen
    && Grown(s.prefix, t.prefix)
    && (forall h, i :: IsEntry(t.prefix, h, i) && !IsEntry(s.prefix, h, i) ==>
          exists k: nat :: Describes(hash, bs, t, table, tokens, h, t.prefix[h][i], k))
    && (forall k: nat :: from <= k < |table| && k * bs + bs <= |tokens| ==>
          LookupBlock(hash, bs, t.prefix, tokens, k).Some?)
    && (forall c :: 0 <= c < |s.count| && t.count[c] != s.count[c] ==>
          exists k: nat :: k < |table| && k * bs + bs <= |tokens| && table[k] == c)
  }

  lemma InsertKeeps(hash: HashBlock, bs: nat, s: Pool, table: seq<nat>, tokens: seq<int>, b: nat)
    requires bs > 0 && PoolValid(bs, s) && b < |table| && b * bs + bs <= |tokens| && table[b] in s.held
    ensures Registered(hash, bs, s, table[..b + 1], tokens, b, Insert(hash, bs, s, table[b], tokens, b))
  {
    hide Chain, CacheRefs, PoolValid;
    var lead := Leading(tokens, bs, b);
    var parent := Chain(hash, bs, lead);
    var span := Span(tokens, bs, b);
    var h := hash(parent, span);
    var t := Insert(hash, bs, s, table[b], tokens, b);
    var entries := if h in s.prefix then s.prefix[h] else [];
    if FirstMatch(entries, parent, span) < |entries| {
      ProbeKeeps(bs, s, lead);
    } else {
      var e := PrefixEntry(parent, span, table[b], s.tick + 1);
      ProbeKeeps(bs, s, lead);
      AddEntryKeeps(bs, s.(seen := s.seen + {lead}), h, e);
      InsertMiss(hash, bs, s, t, table[..b + 1], tokens, b, e);
    }
  }

  lemma InsertMiss(hash: HashBlock, bs: nat, s: Pool, t: Pool, table: seq<nat>, tokens: seq<int>, b: nat,
                   e: PrefixEntry)
    requires bs > 0 && |table| == b + 1 && b * bs + bs <= |tokens|
    requires var lead := Leading(tokens, bs, b);
             && e == PrefixEntry(Chain(hash, bs, lead), Span(tokens, bs, b), table[b], s.tick + 1)
             && var h := hash(e.parent, e.tokens);
                var entries := if h in s.prefix then s.prefix[h] else [];
                && FirstMatch(entries, e.parent, e.tokens) == |entries|
                && t == s.(prefix := s.prefix[h := entries + [e]], tick := s.tick + 1, count := Bump(s.count, e.block),
                    seen := s.seen + {lead})
    requires PoolValid(bs, t)
    ensures Registered(hash, bs, s, table, tokens, b, t)
  {
    hide Chain, CacheRefs, PoolValid;
    var h := hash(e.parent, e.tokens);
    var entries := if h in s.prefix then s.prefix[h] else [];
    FirstMatchUnique(entries + [e], e.parent, e.tokens, |entries|);
    forall g, i | IsEntry(t.prefix, g, i) && !IsEntry(s.prefix, g, i)
      ensures Describes(hash, bs, t, table, tokens, g, t.prefix[g][i], b)
    {
      assert g == h && i == |entries|;
    }
    forall k: nat | b <= k < |table| && k * bs + bs <= |tokens|
      ensures LookupBlock(hash, bs, t.prefix, tokens, k).Some?
    {
      assert k == b;
    }
  }

  lemma AddEntryKeeps(bs: nat, s: Pool, h: Hash, e: PrefixEntry)
    requires PoolValid(bs, s) && e.block in s.held && |e.tokens| == bs && e.lastUsed == s.tick + 1
    ensures PoolValid(bs, s.(prefix := s.prefix[h := (if h in s.prefix then s.prefix[h] else []) + [e]],
                             tick := e.lastUsed, count := Bump(s.count, e.block)))
  {
    hide CacheRefs;
    var entries := if h in s.prefix then s.prefix[h] else [];
    var q := s.prefix[h := entries + [e]];
    HeldIsLive(bs, s, e.block);
    AppendedRefs(s.prefix, h, e);
    var count := Bump(s.count, e.block);
    forall c | 0 <= c < |s.count|
      ensures count[c] == s.held[c] + CacheRefs(q)[c]
      ensures count[c] == 0 <==> c in s.free
    {
      assert s.count[c] == s.held[c] + CacheRefs(s.prefix)[c];
    }
    forall g, j | IsEntry(q, g, j)
      ensures if g == h && j == |entries| then q[g][j] == e else IsEntry(s.prefix, g, j) && q[g][j] == s.prefix[g][j]
    {
    }
  }

  lemma {:induction false} RegisterKeeps(hash: HashBlock, bs: nat, s: Pool, table: seq<nat>, tokens: seq<int>, b: nat)
    requires bs > 0 && PoolValid(bs, s) && forall k :: 0 <= k < |table| ==> table[k] in s.held
    ensures Registered(hash, bs, s, table, tokens, b, RegisterFrom(hash, bs, s, table, tokens, b))
    decreases |table| - b
  {
    hide Chain, CacheRefs, PoolValid, LookupBlock, Insert, Describes;
    if b >= |table| || b * bs + bs > |tokens| {
      if b < |table| {
        forall k: nat | b <= k
          ensures k * bs + bs > |tokens|
        {
          MulMonotone(b, k, bs);
        }
      }
      hide Describes;
    } else {
      InsertKeeps(hash, bs, s, table, tokens, b);
      var u := Insert(hash, bs, s, table[b], tokens, b);
      RegisterKeeps(hash, bs, u, table, tokens, b + 1);
      RegisteredStep(hash, bs, s, table, tokens, b, u, RegisterFrom(hash, bs, u, table, tokens, b + 1));
    }
  }

  lemma RegisteredStep(hash: HashBlock, bs: nat, s: Pool, table: seq<nat>, tokens: seq<int>, b: nat, u: Pool, t: Pool)
    requires bs > 0 && b < |table| && b * bs + bs <= |tokens|
    requires Registered(hash, bs, s, table[..b + 1], tokens, b, u)
    requires Registered(hash, bs, u, table, tokens, b + 1, t)
    ensures Registered(hash, bs, s, table, tokens, b, t)
  {
    hide Chain, CacheRefs, PoolValid;
    forall h, i | IsEntry(t.prefix, h, i) && !IsEntry(s.prefix, h, i)
      ensures exists k: nat :: Describes(hash, bs, t, table, tokens, h, t.prefix[h][i], k)
    {
      if IsEntry(u.prefix, h, i) {
        var k: nat :| Describes(hash, bs, u, table[..b + 1], tokens, h, u.prefix[h][i], k);
        assert Describes(hash, bs, t, table, tokens, h, t.prefix[h][i], k);
      }
    }
    assert LookupBlock(hash, bs, t.prefix, tokens, b).Some? by {
      var parent := Chain(hash, bs, Leading(tokens, bs, b));
      assert LookupBlock(hash, bs, u.prefix, tokens, b).Some?;
      GrownLookup(u.prefix, t.prefix, hash(parent, Span(tokens, bs, b)), parent, Span(tokens, bs, b));
    }
    hide LookupBlock;
    forall c | 0 <= c < |s.count| && t.count[c] != s.count[c]
      ensures exists k: nat :: k < |table| && k * bs + bs <= |tokens| && table[k] == c
    {
      if u.count[c] != s.count[c] {
        var k: nat :| k < |table[..b + 1]| && k * bs + bs <= |tokens| && table[..b + 1][k] == c;
        assert table[k] == c;
      }
    }
  }

  lemma InsertRefs(hash: HashBlock, bs: nat, s: Pool, block: nat, tokens: seq<int>, b: nat)
    requires bs > 0 && b * bs + bs <= |tokens|
    ensures CacheRefs(s.prefix) <= CacheRefs(Insert(hash, bs, s, block, tokens, b).prefix)
  {
    hide CacheRefs, Chain;
    var parent, span := Chain(hash, bs, Leading(tokens, bs, b)), Span(tokens, bs, b);
    AppendedRefs(s.prefix, hash(parent, span), PrefixEntry(parent, span, block, s.tick + 1));
  }

  /** Registering only adds references of the cache. */
  lemma {:induction false} RegisterRefs(hash: HashBlock, bs: nat, s: Pool, table: seq<nat>, tokens: seq<int>, b: nat)
    requires bs > 0
    ensures CacheRefs(s.prefix) <= CacheRefs(RegisterFrom(hash, bs, s, table, tokens, b).prefix)
    decreases |table| - b
  {
    hide CacheRefs, Insert;
    if b < |table| && b * bs + bs <= |tokens| {
      InsertRefs(hash, bs, s, table[b], tokens, b);
      RegisterRefs(hash, bs, Insert(hash, bs, s, table[b], tokens, b), table, tokens, b + 1);
    }
  }

  // ---- Clearing the cache -------------------------------------------------------------------

  /** The cache's references are gone, everything else stays; the order of the free list is open. */
  ghost predicate Cleared(bs: nat, s: Pool, t: Pool) {
    && PoolValid(bs, t) && t.prefix == map[]
    && t.held == s.held && |t.count| == |s.count| && t.tick == s.tick && t.seen == s.seen
  }

  /** The pool after the cache gives up its reference to the first entry of a bucket. */
  ghost function Forget(s: Pool, h: Hash): Pool
    requires IsEntry(s.prefix, h, 0) && s.prefix[h][0].block < |s.count| && s.count[s.prefix[h][0].block] > 0
  {
    var b := s.prefix[h][0].block;
    s.(prefix := s.prefix[h := s.prefix[h][1..]],
       count := s.count[b := s.count[b] - 1],
       free := s.free + (if s.count[b] == 1 then [b] else []))
  }

  lemma ForgetRefs(p: Prefixes, h: Hash)
    requires IsEntry(p, h, 0)
    ensures CacheRefs(p) == CacheRefs(p[h := p[h][1..]]) + multiset{p[h][0].block}
  {
    hide CacheRefs;
    CacheRefsUpdate(p, h, p[h][1..]);
    assert Blocks(p[h]) == [p[h][0].block] + Blocks(p[h][1..]);
  }

  lemma ForgetShape(p: Prefixes, tick: int, bs: nat, h: Hash)
    requires IsEntry(p, h, 0) && CacheShape(p, tick, bs)
    ensures CacheShape(p[h := p[h][1..]], tick, bs)
  {
    var q := p[h := p[h][1..]];
    forall g, j | IsEntry(q, g, j)
      ensures var k := if g == h then j + 1 else j; IsEntry(p, g, k) && q[g][j] == p[g][k]
    {
    }
  }

  lemma ForgetKeeps(bs: nat, s: Pool, h: Hash)
    requires PoolValid(bs, s) && IsEntry(s.prefix, h, 0)
    ensures s.prefix[h][0].block < |s.count| && s.count[s.prefix[h][0].block] > 0
    ensures PoolValid(bs, Forget(s, h))
  {
    hide CacheRefs, CacheShape;
    CachedIsLive(bs, s, h, 0);
    ForgetRefs(s.prefix, h);
    ForgetShape(s.prefix, s.tick, bs, h);
    var t := Forget(s, h);
    forall c | 0 <= c < |s.count|
      ensures t.count[c] == t.held[c] + CacheRefs(t.prefix)[c]
      ensures t.count[c] == 0 <==> c in t.free
    {
      assert s.count[c] == s.held[c] + CacheRefs(s.prefix)[c];
    }
    assert forall c :: c in CacheRefs(t.prefix) ==> c in CacheRefs(s.prefix);
  }

  lemma RemoveEmptyBucket(bs: nat, s: Pool, h: Hash)
    requires PoolValid(bs, s) && h in s.prefix && s.prefix[h] == []
    ensures PoolValid(bs, s.(prefix := s.prefix - {h}))
  {
    hide CacheRefs;
    CacheRefsAt(s.prefix, h);
    assert Blocks(s.prefix[h]) == [];
    assert CacheRefs(s.prefix - {h}) == CacheRefs(s.prefix);
    assert forall g, j :: IsEntry(s.prefix - {h}, g, j) ==> IsEntry(s.prefix, g, j);
  }

  // ---- Paging state of the sequences --------------------------------------------------------

  /** Paging state of one sequence: its physical blocks in order and its committed rows. */
  datatype SequenceBlocks = SequenceBlocks(table: seq<nat>, length: nat)

  const EMPTY_BLOCKS: SequenceBlocks := SequenceBlocks([], 0)

  /** Blocks needed for a number of tokens. */
  function BlocksFor(bs: nat, tokens: nat): nat
    requires bs > 0
  {
    (tokens + bs - 1) / bs
  }

  /** How often each block occurs in the tables of all sequences. */
  ghost function AllHeld(blocks: seq<SequenceBlocks>): multiset<nat> {
    if blocks == [] then multiset{}
    else AllHeld(blocks[..|blocks| - 1]) + multiset(blocks[|blocks| - 1].table)
  }

  lemma AllHeldUnfold(blocks: seq<SequenceBlocks>)
    requires blocks != []
    ensures AllHeld(blocks) == AllHeld(blocks[..|blocks| - 1]) + multiset(blocks[|blocks| - 1].table)
  {
  }

  /** Exchanging one of the parts of a sum. */
  lemma Exchange(all: multiset<nat>, a: multiset<nat>, b: multiset<nat>, last: multiset<nat>)
    requires a <= all
    ensures a <= all + last && all - a + b + last == all + last - a + b
  {
  }

  lemma {:induction false} AllHeldUpdate(blocks: seq<SequenceBlocks>, i: nat, b: SequenceBlocks)
    requires i < |blocks|
    ensures multiset(blocks[i].table) <= AllHeld(blocks)
    ensures AllHeld(blocks[i := b]) == AllHeld(blocks) - multiset(blocks[i].table) + multiset(b.table)
  {
    hide AllHeld;
    var n := |blocks| - 1;
    AllHeldUnfold(blocks);
    AllHeldUnfold(blocks[i := b]);
    if i < n {
      AllHeldUpdate(blocks[..n], i, b);
      assert blocks[i := b][..n] == blocks[..n][i := b];
      Exchange(AllHeld(blocks[..n]), multiset(blocks[i].table), multiset(b.table), multiset(blocks[n].table));
    } else {
      assert blocks[i := b][..n] == blocks[..n];
    }
  }

  lemma {:induction false} AllHeldAt(blocks: seq<SequenceBlocks>, i: nat, k: nat)
    requires i < |blocks| && k < |blocks[i].table|
    ensures blocks[i].table[k] in AllHeld(blocks)
  {
    AllHeldUpdate(blocks, i, EMPTY_BLOCKS);
    assert blocks[i].table[k] in multiset(blocks[i].table);
  }

  /** A block named at two places of the tables is held at least twice. */
  lemma HeldTwice(blocks: seq<SequenceBlocks>, i: nat, k: nat, j: nat, m: nat)
    requires i < |blocks| && k < |blocks[i].table| && j < |blocks| && m < |blocks[j].table|
    requires blocks[i].table[k] == blocks[j].table[m] && (i != j || k != m)
    ensures AllHeld(blocks)[blocks[i].table[k]] >= 2
  {
    var b := blocks[i].table[k];
    if i == j {
      TwiceInSeq(blocks[i].table, k, m);
      AllHeldUpdate(blocks, i, EMPTY_BLOCKS);
    } else {
      AllHeldUpdate(blocks, i, EMPTY_BLOCKS);
      AllHeldAt(blocks[i := EMPTY_BLOCKS], j, m);
      assert b in multiset(blocks[i].table);
    }
  }

  lemma TwiceInSeq(s: seq<nat>, k: nat, m: nat)
    requires k < |s| && m < |s| && k != m && s[k] == s[m]
    ensures multiset(s)[s[k]] >= 2
  {
    var lo, hi := if k < m then k else m, if k < m then m else k;
    assert s == s[..lo] + [s[lo]] + s[lo + 1..hi] + [s[hi]] + s[hi + 1..];
  }

  lemma {:induction false} AllHeldEmpty(blocks: seq<SequenceBlocks>)
    requires forall i :: 0 <= i < |blocks| ==> blocks[i].table == []
    ensures AllHeld(blocks) == multiset{}
  {
    if blocks != [] {
      AllHeldEmpty(blocks[..|blocks| - 1]);
    }
  }
}
