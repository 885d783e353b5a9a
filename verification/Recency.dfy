/**
 Recency in the prefix cache: a use of a block makes its entry the most recently used one, a registration
 makes new entries that are more recent than all others, and nothing else touches a tick. So the cache
 drops what has not been used for longest, whenever it was registered.
 */
module Recency {
  import opened Arithmetic
  import opened Results
  import opened PrefixCaches
  import opened BlockPools
  import opened BlockManagers

  /** Looking up block k of the tokens finds this entry. */
  ghost predicate Hit(hash: HashBlock, bs: nat, p: Prefixes, tokens: seq<int>, k: nat, h: Hash, i: nat)
    requires bs > 0
  {
    k * bs + bs <= |tokens|
    && EntryFor(hash, p, Chain(hash, bs, Leading(tokens, bs, k)), Span(tokens, bs, k)) == Some((h, i))
  }

  /** One of the blocks from..n of the tokens finds this entry. */
  ghost predicate HitWithin(hash: HashBlock, bs: nat, p: Prefixes, tokens: seq<int>, from: nat, n: nat, h: Hash, i: nat)
    requires bs > 0
  {
    exists k: nat :: from <= k < n && Hit(hash, bs, p, tokens, k, h, i)
  }

  /** The entry that block k finds has a new tick: that of the use of block k if it is the entry's last one. */
  ghost predicate TickOfUse(hash: HashBlock, bs: nat, s: Pool, t: Pool, tokens: seq<int>, from: nat, n: nat, k: nat,
                            h: Hash, i: nat)
    requires bs > 0
  {
    && IsEntry(t.prefix, h, i) && s.tick < t.prefix[h][i].lastUsed <= t.tick
    && (!HitWithin(hash, bs, s.prefix, tokens, k + 1, n, h, i) ==> t.prefix[h][i].lastUsed == s.tick + 1 + (k - from))
  }

  ghost predicate Untouched(s: Pool, t: Pool, h: Hash, i: nat)
    requires IsEntry(s.prefix, h, i)
  {
    IsEntry(t.prefix, h, i) && t.prefix[h][i] == s.prefix[h][i]
  }

  /**
   Uses of blocks from..n of the tokens, in order: the last use of an entry gives it the tick of that use,
   counted on from the old one, and an entry without a use is as it was.
   */
  ghost predicate Used(hash: HashBlock, bs: nat, s: Pool, t: Pool, tokens: seq<int>, from: nat, n: nat)
    requires bs > 0
  {
    && from <= n && t.tick == s.tick + (n - from)
    && (forall k: nat, h, i: nat :: from <= k < n && Hit(hash, bs, s.prefix, tokens, k, h, i) ==>
          TickOfUse(hash, bs, s, t, tokens, from, n, k, h, i))
    && (forall h, i: nat :: IsEntry(s.prefix, h, i) && !HitWithin(hash, bs, s.prefix, tokens, from, n, h, i) ==>
          Untouched(s, t, h, i))
  }

  lemma SameHit(hash: HashBlock, bs: nat, p: Prefixes, q: Prefixes, tokens: seq<int>, k: nat, h: Hash, i: nat)
    requires bs > 0 && SameButTicks(p, q)
    ensures Hit(hash, bs, p, tokens, k, h, i) <==> Hit(hash, bs, q, tokens, k, h, i)
  {
    hide Chain;
    if k * bs + bs <= |tokens| {
      var parent, span := Chain(hash, bs, Leading(tokens, bs, k)), Span(tokens, bs, k);
      var g := hash(parent, span);
      if g in p {
        assert SameBucket(p[g], q[g]);
        FirstMatchUnique(q[g], parent, span, FirstMatch(p[g], parent, span));
      }
    }
  }

  lemma SameHitWithin(hash: HashBlock, bs: nat, p: Prefixes, q: Prefixes, tokens: seq<int>, from: nat, n: nat, h: Hash,
                      i: nat)
    requires bs > 0 && SameButTicks(p, q)
    ensures HitWithin(hash, bs, p, tokens, from, n, h, i) <==> HitWithin(hash, bs, q, tokens, from, n, h, i)
  {
    hide Hit, SameButTicks;
    forall k: nat
      ensures Hit(hash, bs, p, tokens, k, h, i) <==> Hit(hash, bs, q, tokens, k, h, i)
    {
      SameHit(hash, bs, p, q, tokens, k, h, i);
    }
  }

  /** One use stamps the entry it finds, and only that one. */
  lemma ProbeStamps(hash: HashBlock, bs: nat, s: Pool, tokens: seq<int>, b: nat)
    requires bs > 0 && PoolValid(bs, s) && b * bs + bs <= |tokens|
    ensures var (found, t) := Probe(hash, bs, s, tokens, b);
            && (found.None? ==> t.prefix == s.prefix && t.tick == s.tick)
            && (found.Some? ==> exists h, i: nat :: Hit(hash, bs, s.prefix, tokens, b, h, i) && Stamped(s, t, h, i))
  {
    hide PoolValid, Chain;
    var parent, span := Chain(hash, bs, Leading(tokens, bs, b)), Span(tokens, bs, b);
    var h := hash(parent, span);
    if h in s.prefix && FirstMatch(s.prefix[h], parent, span) < |s.prefix[h]| {
      var i := FirstMatch(s.prefix[h], parent, span);
      var t := Probe(hash, bs, s, tokens, b).1;
      assert Hit(hash, bs, s.prefix, tokens, b, h, i);
      assert Stamped(s, t, h, i);
    }
  }

  /** Entry (h, i) has the next tick, and every other entry is as it was. */
  ghost predicate Stamped(s: Pool, t: Pool, h: Hash, i: nat) {
    && IsEntry(s.prefix, h, i) && IsEntry(t.prefix, h, i)
    && t.tick == s.tick + 1 && t.prefix[h][i].lastUsed == t.tick
    && forall g, j :: IsEntry(s.prefix, g, j) && (g != h || j != i) ==>
         IsEntry(t.prefix, g, j) && t.prefix[g][j] == s.prefix[g][j]
  }

  /** Sharing stamps what it shares: each use in order, and nothing else. */
  lemma {:induction false} AcquireStamps(hash: HashBlock, bs: nat, s: Pool, tokens: seq<int>, table: seq<nat>)
    requires bs > 0 && PoolValid(bs, s) && |table| * bs <= |tokens|
    ensures var (grown, t) := AcquireFrom(hash, bs, s, tokens, table);
            |table| <= |grown| && Used(hash, bs, s, t, tokens, |table|, |grown|)
    decreases |tokens| - |table| * bs
  {
    hide PoolValid, CacheRefs, Chain, Probe, LookupBlock, SameButTicks, Hit, Stamped, Used;
    var b := |table|;
    NoUse(hash, bs, s, s, tokens, b);
    if b * bs + bs <= |tokens| {
      ProbeFinds(hash, bs, s, tokens, b);
      ProbeStamps(hash, bs, s, tokens, b);
      MulStep(b, bs);
      var (found, u) := Probe(hash, bs, s, tokens, b);
      NoUse(hash, bs, s, u, tokens, b);
      if found.Some? {
        var next := table + [found.value];
        AcquireStamps(hash, bs, u, tokens, next);
        var (grown, t) := AcquireFrom(hash, bs, u, tokens, next);
        var h, i: nat :| Hit(hash, bs, s.prefix, tokens, b, h, i) && Stamped(s, u, h, i);
        UsedStep(hash, bs, s, u, t, tokens, b, |grown|, h, i);
      }
    }
  }

  lemma NoUse(hash: HashBlock, bs: nat, s: Pool, t: Pool, tokens: seq<int>, b: nat)
    requires bs > 0
    ensures t.prefix == s.prefix && t.tick == s.tick ==> Used(hash, bs, s, t, tokens, b, b)
  {
    hide Hit;
  }

  /** What block k finds, after the use of block b and the later ones. */
  lemma HitAfterStep(hash: HashBlock, bs: nat, s: Pool, u: Pool, t: Pool, tokens: seq<int>, b: nat, n: nat, k: nat,
                     h: Hash, i: nat, g: Hash, j: nat)
    requires bs > 0 && SameButTicks(s.prefix, u.prefix) && b <= k < n
    requires Hit(hash, bs, s.prefix, tokens, b, h, i) && Stamped(s, u, h, i)
    requires Used(hash, bs, u, t, tokens, b + 1, n) && Hit(hash, bs, s.prefix, tokens, k, g, j)
    ensures TickOfUse(hash, bs, s, t, tokens, b, n, k, g, j)
  {
    OneHit(hash, bs, s.prefix, tokens, b);
    SameHitWithin(hash, bs, s.prefix, u.prefix, tokens, k + 1, n, g, j);
    SameHit(hash, bs, s.prefix, u.prefix, tokens, k, g, j);
    hide Hit, SameButTicks, HitWithin;
    if k == b && HitWithin(hash, bs, u.prefix, tokens, b + 1, n, g, j) {
      WithinHas(hash, bs, u.prefix, tokens, b + 1, n, g, j);
      var m: nat :| b + 1 <= m < n && Hit(hash, bs, u.prefix, tokens, m, g, j);
      assert TickOfUse(hash, bs, u, t, tokens, b + 1, n, m, g, j);
    } else if k == b {
      assert Untouched(u, t, g, j);
    } else {
      assert TickOfUse(hash, bs, u, t, tokens, b + 1, n, k, g, j);
    }
  }

  lemma WithinHas(hash: HashBlock, bs: nat, p: Prefixes, tokens: seq<int>, b: nat, n: nat, h: Hash, i: nat)
    requires bs > 0 && HitWithin(hash, bs, p, tokens, b, n, h, i)
    ensures exists k: nat :: b <= k < n && Hit(hash, bs, p, tokens, k, h, i)
  {
  }

  lemma UsedStep(hash: HashBlock, bs: nat, s: Pool, u: Pool, t: Pool, tokens: seq<int>, b: nat, n: nat, h: Hash, i: nat)
    requires bs > 0 && SameButTicks(s.prefix, u.prefix)
    requires Hit(hash, bs, s.prefix, tokens, b, h, i) && Stamped(s, u, h, i)
    requires Used(hash, bs, u, t, tokens, b + 1, n)
    ensures Used(hash, bs, s, t, tokens, b, n)
  {
    hide Hit, SameButTicks, HitWithin, TickOfUse, Untouched;
    forall k: nat, g, j: nat | b <= k < n && Hit(hash, bs, s.prefix, tokens, k, g, j)
      ensures TickOfUse(hash, bs, s, t, tokens, b, n, k, g, j)
    {
      HitAfterStep(hash, bs, s, u, t, tokens, b, n, k, h, i, g, j);
    }
    forall g, j: nat | IsEntry(s.prefix, g, j) && !HitWithin(hash, bs, s.prefix, tokens, b, n, g, j)
      ensures Untouched(s, t, g, j)
    {
      NotWithin(hash, bs, s.prefix, tokens, b, n, g, j);
      SameHitWithin(hash, bs, s.prefix, u.prefix, tokens, b + 1, n, g, j);
      OtherAfterStep(s, u, t, h, i, g, j);
    }
  }

  lemma OtherAfterStep(s: Pool, u: Pool, t: Pool, h: Hash, i: nat, g: Hash, j: nat)
    requires Stamped(s, u, h, i) && IsEntry(s.prefix, g, j) && (g != h || j != i)
    requires IsEntry(u.prefix, g, j) ==> Untouched(u, t, g, j)
    ensures Untouched(s, t, g, j)
  {
  }

  lemma OneHit(hash: HashBlock, bs: nat, p: Prefixes, tokens: seq<int>, b: nat)
    requires bs > 0
    ensures forall h, i: nat, g, j: nat :: Hit(hash, bs, p, tokens, b, h, i) && Hit(hash, bs, p, tokens, b, g, j) ==>
              h == g && i == j
  {
  }

  lemma NotWithin(hash: HashBlock, bs: nat, p: Prefixes, tokens: seq<int>, b: nat, n: nat, h: Hash, i: nat)
    requires bs > 0 && !HitWithin(hash, bs, p, tokens, b, n, h, i)
    ensures !HitWithin(hash, bs, p, tokens, b + 1, n, h, i) && (b < n ==> !Hit(hash, bs, p, tokens, b, h, i))
  {
    hide Hit;
  }

  /** Registering gives every new entry a new tick and leaves the others alone. */
  lemma {:induction false} RegisterStamps(hash: HashBlock, bs: nat, s: Pool, table: seq<nat>, tokens: seq<int>, b: nat)
    requires bs > 0
    ensures var t := RegisterFrom(hash, bs, s, table, tokens, b);
            && s.tick <= t.tick && Grown(s.prefix, t.prefix)
            && forall h, i :: IsEntry(t.prefix, h, i) && !IsEntry(s.prefix, h, i) ==>
                 s.tick < t.prefix[h][i].lastUsed <= t.tick
    decreases |table| - b
  {
    hide Chain, Leading, Span;
    if b < |table| && b * bs + bs <= |tokens| {
      RegisterStamps(hash, bs, Insert(hash, bs, s, table[b], tokens, b), table, tokens, b + 1);
    }
  }

  // ---- The least recently used one goes -----------------------------------------------------

  /** Two registered blocks, in one bucket or in two. */
  function Two(hash: HashBlock, a: seq<int>, b: seq<int>, ta: int, tb: int): Prefixes {
    if hash(0, a) == hash(0, b) then map[hash(0, a) := [PrefixEntry(0, a, 0, ta), PrefixEntry(0, b, 1, tb)]]
    else map[hash(0, a) := [PrefixEntry(0, a, 0, ta)], hash(0, b) := [PrefixEntry(0, b, 1, tb)]]
  }

  function One(hash: HashBlock, a: seq<int>, ta: int): Prefixes {
    map[hash(0, a) := [PrefixEntry(0, a, 0, ta)]]
  }

  lemma OneNeeded(bs: nat)
    requires bs > 0
    ensures BlocksFor(bs, 0 + bs) == 1
  {
    QuotientOf(bs, 1, bs - 1);
  }

  /** A reservation of one block takes the last free one. */
  lemma TakesLast(s: Pool, t: Pool, b: nat)
    requires FreeInRange(s) && s.free != [] && s.free[|s.free| - 1] == b
    requires t == s.(free := s.free[..|s.free| - 1], count := s.count[b := 1], held := s.held + multiset{b})
    ensures ReserveFrom(s, [], 1) == (Ok(()), [b], t)
  {
    assert AllocateFrom(s) == (Ok(b), t);
    assert [] + [b] == [b] && ReserveFrom(t, [b], 1) == (Ok(()), [b], t);
  }

  /** A one-block prompt is registered in its block. */
  lemma RegistersOne(hash: HashBlock, bs: nat, s: Pool, tokens: seq<int>, b: nat)
    requires bs > 0 && |tokens| == bs && b < |s.count|
    ensures var h := hash(0, tokens);
            var entries := if h in s.prefix then s.prefix[h] else [];
            FirstMatch(entries, 0, tokens) == |entries| ==>
              RegisterFrom(hash, bs, s, [b], tokens, 0)
              == s.(prefix := s.prefix[h := entries + [PrefixEntry(0, tokens, b, s.tick + 1)]], tick := s.tick + 1,
                    count := s.count[b := s.count[b] + 1], seen := s.seen + {[]})
  {
    assert 0 * bs + bs <= |tokens|;
    assert Leading(tokens, bs, 0) == [] && Span(tokens, bs, 0) == tokens && Chain(hash, bs, []) == 0;
    RegisterUnfold(hash, bs, s, [b], tokens, 0);
    QuotientOf(bs, 1, 0);
    RegisterUnfold(hash, bs, Insert(hash, bs, s, b, tokens, 0), [b], tokens, 1);
  }

  lemma GivesBack(s: Pool, b: nat)
    requires b < |s.count| && s.count[b] > 1
    ensures FreeFrom(s, [b]) == s.(count := s.count[b := s.count[b] - 1], held := s.held - multiset{b})
  {
    assert [b][1..] == [] && s.free + [] == s.free;
    assert FreeFrom(BlockPools.Release(s, b), []) == BlockPools.Release(s, b);
  }

  lemma SecondEntry(hash: HashBlock, a: seq<int>, b: seq<int>, ta: int, tb: int)
    requires a != b
    ensures var h, p := hash(0, b), One(hash, a, ta);
            var entries := if h in p then p[h] else [];
            FirstMatch(entries, 0, b) == |entries|
            && p[h := entries + [PrefixEntry(0, b, 1, tb)]] == Two(hash, a, b, ta, tb)
  {
    var h, p := hash(0, b), One(hash, a, ta);
    var x, y := PrefixEntry(0, a, 0, ta), PrefixEntry(0, b, 1, tb);
    if h in p {
      assert p[h] == [x] && !Matches(p[h][0], 0, b);
      assert FirstMatch(p[h], 0, b) == 1 && [x] + [y] == [x, y];
    } else {
      assert [] + [y] == [y];
    }
  }

  /** Sharing the first of two registered blocks makes it the more recently used one. */
  lemma SharesFirst(hash: HashBlock, bs: nat, s: Pool, a: seq<int>, b: seq<int>, ta: int, tb: int)
    requires bs > 0 && |a| == bs && a != b && s.prefix == Two(hash, a, b, ta, tb) && 0 < |s.count|
    ensures AcquireFrom(hash, bs, s, a, [])
            == ([0], s.(prefix := Two(hash, a, b, s.tick + 1, tb), tick := s.tick + 1,
                        count := s.count[0 := s.count[0] + 1], held := s.held + multiset{0}, seen := s.seen + {[]}))
  {
    assert 0 * bs + bs <= |a| && 1 * bs + bs > |a|;
    assert Leading(a, bs, 0) == [] && Span(a, bs, 0) == a && Chain(hash, bs, []) == 0;
    var h := hash(0, a);
    assert Matches(s.prefix[h][0], 0, a) && FirstMatch(s.prefix[h], 0, a) == 0;
    var t := s.(prefix := Two(hash, a, b, s.tick + 1, tb), tick := s.tick + 1,
                count := s.count[0 := s.count[0] + 1], held := s.held + multiset{0}, seen := s.seen + {[]});
    FirstRefreshed(hash, a, b, ta, tb, s.tick + 1);
    assert Probe(hash, bs, s, a, 0) == (Some(0), t);
    QuotientOf(bs, 1, 0);
    AcquireUnfold(hash, bs, s, a, []);
    AcquireUnfold(hash, bs, t, a, [] + [0]);
    assert [] + [0] == [0];
  }

  lemma FirstRefreshed(hash: HashBlock, a: seq<int>, b: seq<int>, ta: int, tb: int, tick: int)
    ensures var p: Prefixes := Two(hash, a, b, ta, tb);
            var es: seq<PrefixEntry> := p[hash(0, a)];
            es != [] && p[hash(0, a) := es[0 := es[0].(lastUsed := tick)]] == Two(hash, a, b, tick, tb)
  {
    var x, y := PrefixEntry(0, a, 0, tick), PrefixEntry(0, b, 1, tb);
    var es: seq<PrefixEntry> := Two(hash, a, b, ta, tb)[hash(0, a)];
    assert es[0 := es[0].(lastUsed := tick)] == if hash(0, a) == hash(0, b) then [x, y] else [x];
  }

  /** Of two blocks that the cache alone holds, the one with the smaller tick is evicted. */
  lemma EvictsOlder(hash: HashBlock, s: Pool, a: seq<int>, b: seq<int>, ta: int, tb: int)
    requires a != b && s.prefix == Two(hash, a, b, ta, tb) && s.count == [1, 1] && s.free == [] && tb < ta
    ensures Evict(s) == s.(prefix := One(hash, a, ta), free := [1], count := [1, 0])
  {
    var h, i := hash(0, b), if hash(0, a) == hash(0, b) then 1 else 0;
    assert Evictable(s.prefix, s.count, h, i) && s.prefix[h][i] == PrefixEntry(0, b, 1, tb);
    forall g, j | Evictable(s.prefix, s.count, g, j)
      ensures s.prefix[g][j].lastUsed == ta || (g == h && j == i)
    {
    }
    assert IsVictim(s.prefix, s.count, h, i);
    assert Victim(s) == (h, i);
    OlderGone(hash, a, b, ta, tb, i);
    assert [1, 1][1 := 0] == [1, 0] && [] + [1] == [1];
  }

  lemma OlderGone(hash: HashBlock, a: seq<int>, b: seq<int>, ta: int, tb: int, i: nat)
    requires i == if hash(0, a) == hash(0, b) then 1 else 0
    ensures i < |Two(hash, a, b, ta, tb)[hash(0, b)]|
    ensures Without(Two(hash, a, b, ta, tb), hash(0, b), i) == One(hash, a, ta)
  {
    var p := Two(hash, a, b, ta, tb);
    var h := hash(0, b);
    if hash(0, a) == h {
      assert p[h][..1] + p[h][2..] == [PrefixEntry(0, a, 0, ta)];
    } else {
      assert p[h][..0] + p[h][1..] == [];
      assert p - {h} == One(hash, a, ta);
    }
  }

  lemma FirstIsFound(hash: HashBlock, bs: nat, a: seq<int>, b: seq<int>, ta: int)
    requires bs > 0 && |a| == |b| == bs && a != b && 0 * bs + bs <= bs
    ensures LookupBlock(hash, bs, One(hash, a, ta), a, 0) == Some(0)
            && LookupBlock(hash, bs, One(hash, a, ta), b, 0) == None
  {
    assert Leading(a, bs, 0) == [] && Span(a, bs, 0) == a && Leading(b, bs, 0) == [] && Span(b, bs, 0) == b;
    assert Chain(hash, bs, []) == 0;
  }

  /** One client registers a one-block prompt and leaves. */
  method Visit(mgr: BlockManager, tokens: seq<int>)
    requires mgr.Valid() && |tokens| == mgr.bs
    modifies mgr, mgr.alloc
    ensures mgr.Valid()
    ensures FreeInRange(old(mgr.State()))
    ensures var (r, table, s) := ReserveFrom(old(mgr.State()), [], BlocksFor(mgr.bs, 0 + mgr.bs));
            mgr.State() == FreeFrom(RegisterFrom(mgr.hash, mgr.bs, s, table, tokens, 0), table)
  {
    hide PoolValid, ReserveFrom, RegisterFrom, FreeFrom, BlocksFor, LookupBlock, Describes;
    ValidIsConsistent(mgr.bs, mgr.State());
    ReserveKeeps(mgr.bs, mgr.State(), [], BlocksFor(mgr.bs, 0 + mgr.bs));
    var r, mine := mgr.Reserve(EMPTY_BLOCKS, mgr.bs);
    assert mine.table[0..] == mine.table;
    RegisterKeeps(mgr.hash, mgr.bs, mgr.State(), mine.table, tokens, 0);
    mgr.RegisterPrefix(mine, tokens);
    var cleared := mgr.Free(mine);
  }

  /**
   In a pool of two blocks, a is registered before b, and used again after it. The next client's block is
   taken from b, and a is still found.
   */
  method LruRun(numLayers: nat, bs: nat, hash: HashBlock, a: seq<int>, b: seq<int>) returns (mgr: BlockManager)
    requires numLayers > 0 && bs > 0 && |a| == |b| == bs && a != b
    ensures mgr.Valid() && mgr.bs == bs && mgr.hash == hash && 0 * bs + bs <= |a|
    ensures LookupBlock(hash, bs, mgr.prefix, a, 0) == Some(0) && LookupBlock(hash, bs, mgr.prefix, b, 0) == None
  {
    hide PoolValid, ReserveFrom, RegisterFrom, FreeFrom, BlocksFor, LookupBlock, AcquireFrom, Evict, One, Two;
    OneNeeded(bs);
    mgr := new BlockManager(numLayers, bs, 2, hash);
    AfterFirst(hash, bs, a);
    Visit(mgr, a);
    AfterSecond(hash, bs, a, b);
    Visit(mgr, b);
    assert mgr.State() == Pool([], [1, 1], Two(hash, a, b, 1, 2), 2, multiset{}, {[]});
    SharesFirst(hash, bs, mgr.State(), a, b, 1, 2);
    var shared, matched := mgr.AcquireSharedPrefix(EMPTY_BLOCKS, a);
    assert mgr.State() == Pool([], [2, 1], Two(hash, a, b, 3, 2), 3, multiset{0}, {[]});
    GivesBack(mgr.State(), 0);
    var cleared := mgr.Free(shared);
    AfterUse(hash, a, b);
    ghost var full := mgr.State();
    assert full == Pool([], [1, 1], Two(hash, a, b, 3, 2), 3, multiset{}, {[]});
    var r, other := mgr.Reserve(EMPTY_BLOCKS, bs);
    FirstIsFound(hash, bs, a, b, 3);
  }

  lemma AfterFirst(hash: HashBlock, bs: nat, a: seq<int>)
    requires bs > 0 && |a| == bs
    ensures var s := Pool([1], [1, 0], map[], 0, multiset{0}, {});
            && FreeInRange(FreshPool(2)) && ReserveFrom(FreshPool(2), [], 1) == (Ok(()), [0], s)
            && FreeFrom(RegisterFrom(hash, bs, s, [0], a, 0), [0])
                 == Pool([1], [1, 0], One(hash, a, 1), 1, multiset{}, {[]})
  {
    hide ReserveFrom, RegisterFrom, FreeFrom;
    var f, s := FreshPool(2), Pool([1], [1, 0], map[], 0, multiset{0}, {});
    assert f.free == [1, 0] && f.count == [0, 0] && [1, 0][..1] == [1] && [0, 0][0 := 1] == [1, 0];
    assert multiset{} + multiset{0} == multiset{0};
    TakesLast(f, s, 0);
    RegistersOne(hash, bs, s, a, 0);
    assert [] + [PrefixEntry(0, a, 0, 1)] == [PrefixEntry(0, a, 0, 1)];
    assert map[][hash(0, a) := [PrefixEntry(0, a, 0, 1)]] == One(hash, a, 1);
    var t := Pool([1], [2, 0], One(hash, a, 1), 1, multiset{0}, {[]});
    assert [1, 0][0 := 2] == [2, 0] && s.seen + {[]} == {[]};
    assert RegisterFrom(hash, bs, s, [0], a, 0) == t;
    GivesBack(t, 0);
    assert [2, 0][0 := 1] == [1, 0] && multiset{0} - multiset{0} == multiset{};
  }

  lemma AfterSecond(hash: HashBlock, bs: nat, a: seq<int>, b: seq<int>)
    requires bs > 0 && |a| == |b| == bs && a != b
    ensures var s := Pool([1], [1, 0], One(hash, a, 1), 1, multiset{}, {[]});
            var t := Pool([], [1, 1], One(hash, a, 1), 1, multiset{1}, {[]});
            && FreeInRange(s) && ReserveFrom(s, [], 1) == (Ok(()), [1], t)
            && FreeFrom(RegisterFrom(hash, bs, t, [1], b, 0), [1])
                 == Pool([], [1, 1], Two(hash, a, b, 1, 2), 2, multiset{}, {[]})
  {
    hide ReserveFrom, RegisterFrom, FreeFrom, One, Two;
    var s := Pool([1], [1, 0], One(hash, a, 1), 1, multiset{}, {[]});
    var t := Pool([], [1, 1], One(hash, a, 1), 1, multiset{1}, {[]});
    assert [1][..0] == [] && [1, 0][1 := 1] == [1, 1] && multiset{} + multiset{1} == multiset{1};
    TakesLast(s, t, 1);
    SecondEntry(hash, a, b, 1, 2);
    RegistersOne(hash, bs, t, b, 1);
    var u := Pool([], [1, 2], Two(hash, a, b, 1, 2), 2, multiset{1}, {[]});
    assert [1, 1][1 := 2] == [1, 2] && t.seen + {[]} == {[]};
    assert RegisterFrom(hash, bs, t, [1], b, 0) == u;
    GivesBack(u, 1);
    assert [1, 2][1 := 1] == [1, 1] && multiset{1} - multiset{1} == multiset{};
  }

  lemma AfterUse(hash: HashBlock, a: seq<int>, b: seq<int>)
    requires a != b
    ensures var s := Pool([], [1, 1], Two(hash, a, b, 3, 2), 3, multiset{}, {[]});
            FreeInRange(s)
            && ReserveFrom(s, [], 1) == (Ok(()), [1], Pool([], [1, 1], One(hash, a, 3), 3, multiset{1}, {[]}))
  {
    hide One, Two;
    var s := Pool([], [1, 1], Two(hash, a, b, 3, 2), 3, multiset{}, {[]});
    EvictsOlder(hash, s, a, b, 3, 2);
    hide Evict;
    var t := Pool([], [1, 1], One(hash, a, 3), 3, multiset{1}, {[]});
    assert [1][..0] == [] && [1, 0][1 := 1] == [1, 1] && multiset{} + multiset{1} == multiset{1};
    assert AllocateFrom(s) == (Ok(1), t);
    assert [] + [1] == [1] && ReserveFrom(t, [1], 1) == (Ok(()), [1], t);
  }
}
