/**
 Why prefix sharing needs its parents free of collisions. Entries are matched by their own tokens and
 by the hash of their parent, so two parents with one hash are one parent to the cache; and no 64-bit
 hash keeps all parents apart.
 */
module HashCollisions {
  import opened Arithmetic
  import opened Results
  import opened BlockAllocators
  import opened PrefixCaches
  import opened BlockPools

  const HASH_RANGE: nat := 0x1_0000_0000_0000_0000

  // ---- Collisions exist ---------------------------------------------------------------------

  function Power(base: nat, n: nat): nat {
    if n == 0 then 1 else base * Power(base, n - 1)
  }

  lemma ProductMonotone(a: nat, b: nat, x: nat, y: nat)
    requires a <= b && x <= y
    ensures a * x <= b * y
  {
    MulMonotone(a, b, x);
    MulMonotone(x, y, b);
  }

  /** A larger base and a larger exponent give a larger power. */
  lemma {:induction false} PowerMonotone(base: nat, other: nat, m: nat, n: nat)
    requires 1 <= base <= other && m <= n
    ensures 1 <= Power(base, m) <= Power(other, n)
    decreases n
  {
    if m < n {
      PowerMonotone(base, other, m, n - 1);
      PowerStep(1, other, Power(base, m), other, n);
    } else if n > 0 {
      PowerMonotone(base, other, m - 1, n - 1);
      ProductMonotone(1, base, 1, Power(base, m - 1));
      PowerStep(base, other, Power(base, m - 1), other, n);
    }
  }

  lemma PowerStep(a: nat, b: nat, x: nat, base: nat, n: nat)
    requires n > 0 && a <= b == base && x <= Power(base, n - 1)
    ensures a * x <= Power(base, n)
  {
    ProductMonotone(a, b, x, Power(base, n - 1));
  }

  /** The lowest `len` digits of i, as tokens. */
  function Digits(base: nat, len: nat, i: nat): (tokens: seq<int>)
    requires base > 0
    ensures |tokens| == len && forall k :: 0 <= k < len ==> 0 <= tokens[k] < base
  {
    if len == 0 then [] else Digits(base, len - 1, OtherDigits(base, i)) + [LastDigit(base, i)]
  }

  function OtherDigits(base: nat, i: nat): nat
    requires base > 0
  {
    i / base
  }

  function LastDigit(base: nat, i: nat): (d: nat)
    requires base > 0
    ensures d < base
  {
    i % base
  }

  /** Dropping the last digit. */
  lemma DropDigit(base: nat, n: nat, i: nat, j: nat)
    requires base > 0 && n > 0 && i < Power(base, n)
    ensures OtherDigits(base, i) < Power(base, n - 1)
    ensures OtherDigits(base, i) == OtherDigits(base, j) && LastDigit(base, i) == LastDigit(base, j) ==> i == j
  {
    Division(i, base);
    Division(j, base);
    QuotientBelow(i, base, Power(base, n - 1));
  }

  lemma AppendInjective(a: seq<int>, x: int, b: seq<int>, y: int)
    requires a + [x] == b + [y]
    ensures a == b && x == y
  {
    assert (a + [x])[..|a + [x]| - 1] == a && (b + [y])[..|b + [y]| - 1] == b;
  }

  lemma {:induction false} DigitsDiffer(base: nat, len: nat, i: nat, j: nat)
    requires base > 0 && i < Power(base, len) && j < Power(base, len) && i != j
    ensures Digits(base, len, i) != Digits(base, len, j)
  {
    if len > 0 && Digits(base, len, i) == Digits(base, len, j) {
      DropDigit(base, len, i, j);
      DropDigit(base, len, j, i);
      hide Power, LastDigit, OtherDigits;
      var a, b := Digits(base, len - 1, OtherDigits(base, i)), Digits(base, len - 1, OtherDigits(base, j));
      AppendInjective(a, LastDigit(base, i), b, LastDigit(base, j));
      DigitsDiffer(base, len - 1, OtherDigits(base, i), OtherDigits(base, j));
    }
  }

  /** More entries than values: some value occurs twice. */
  lemma Pigeonhole(s: seq<nat>, bound: nat)
    requires |s| > bound && forall i :: 0 <= i < |s| ==> s[i] < bound
    ensures !NoDuplicates(s)
  {
    var all := AllBlocks(bound);
    ElementsAtMost(s);
    ElementsAtMost(all);
    forall v | v in Elements(s)
      ensures v in Elements(all)
    {
      assert all[v] == v;
    }
    SubsetSize(Elements(s), Elements(all));
  }

  lemma ChainInRange(hash: HashBlock, bs: nat, tokens: seq<int>)
    requires bs > 0 && forall parent, span :: hash(parent, span) < HASH_RANGE
    ensures Chain(hash, bs, tokens) < HASH_RANGE
  {
  }

  /** Two of the first numbers have the same hash. */
  lemma SomeAlike(hash: HashBlock, bs: nat, vocab: nat, len: nat)
    requires bs > 0 && vocab > 0 && forall parent, span :: hash(parent, span) < HASH_RANGE
    ensures exists i, j :: 0 <= i < j <= HASH_RANGE
              && Chain(hash, bs, Digits(vocab, len, i)) == Chain(hash, bs, Digits(vocab, len, j))
  {
    hide Chain, Digits;
    var hashes: seq<nat> := seq<nat>(HASH_RANGE + 1, k requires 0 <= k => Chain(hash, bs, Digits(vocab, len, k)));
    forall k | 0 <= k < |hashes|
      ensures hashes[k] < HASH_RANGE
    {
      ChainInRange(hash, bs, Digits(vocab, len, k));
    }
    Pigeonhole(hashes, HASH_RANGE);
    var i, j :| 0 <= i < j < |hashes| && hashes[i] == hashes[j];
    assert Chain(hash, bs, Digits(vocab, len, i)) == Chain(hash, bs, Digits(vocab, len, j));
  }

  /**
   As soon as there are more runs of n full blocks of vocabulary tokens than hashes, two of them have the
   same chain hash, whatever the 64-bit hash.
   */
  method CollisionsExist(hash: HashBlock, bs: nat, vocab: nat, n: nat) returns (a: seq<int>, b: seq<int>)
    requires bs > 0 && vocab > 0 && Power(vocab, n * bs) > HASH_RANGE
    requires forall parent, span :: hash(parent, span) < HASH_RANGE
    ensures |a| == |b| == n * bs && forall k :: 0 <= k < n * bs ==> 0 <= a[k] < vocab && 0 <= b[k] < vocab
    ensures a != b && Chain(hash, bs, a) == Chain(hash, bs, b)
    ensures !CollisionFree(hash, bs, {a, b})
  {
    hide Chain, Power, Digits;
    var len := n * bs;
    SomeAlike(hash, bs, vocab, len);
    var i, j :| 0 <= i < j <= HASH_RANGE
                && Chain(hash, bs, Digits(vocab, len, i)) == Chain(hash, bs, Digits(vocab, len, j));
    a, b := Digits(vocab, len, i), Digits(vocab, len, j);
    DigitsDiffer(vocab, len, i, j);
  }

  /** Sixty-five blocks are enough for every vocabulary of at least two tokens and every block size. */
  lemma EnoughPrefixes(bs: nat, vocab: nat)
    requires bs > 0 && vocab >= 2
    ensures Power(vocab, 65 * bs) > HASH_RANGE
  {
    MulMonotone(1, bs, 65);
    PowersOfTwo();
    PowerMonotone(2, vocab, 65, 65 * bs);
  }

  lemma PowersOfTwo()
    ensures Power(2, 65) == 2 * HASH_RANGE
  {
    PowerAdds(2, 8, 8);
    PowerAdds(2, 16, 16);
    PowerAdds(2, 32, 32);
    assert Power(2, 8) == 256;
    assert Power(2, 65) == 2 * Power(2, 64);
  }

  lemma {:induction false} PowerAdds(base: nat, m: nat, n: nat)
    ensures Power(base, m + n) == Power(base, m) * Power(base, n)
  {
    if m > 0 {
      PowerAdds(base, m - 1, n);
      Associates(base, Power(base, m - 1), Power(base, n));
    }
  }

  lemma Associates(a: nat, b: nat, c: nat)
    ensures a * (b * c) == a * b * c
  {
  }

  // ---- Smallest collisions ------------------------------------------------------------------

  predicate InRange(vocab: nat, tokens: seq<int>) {
    forall k :: 0 <= k < |tokens| ==> 0 <= tokens[k] < vocab
  }

  /** Two different runs of full blocks, the shorter first, with one chain hash. */
  ghost predicate Collide(hash: HashBlock, bs: nat, vocab: nat, a: seq<int>, m: nat, b: seq<int>, n: nat)
    requires bs > 0
  {
    && |a| == m * bs && |b| == n * bs && m <= n && a != b && Chain(hash, bs, a) == Chain(hash, bs, b)
    && InRange(vocab, a) && InRange(vocab, b)
  }

  /** The runs of leading full blocks of the tokens, from none to as many as there are. */
  function UpTo(bs: nat, tokens: seq<int>): set<seq<int>> {
    set i: nat | i <= |tokens| && i * bs <= |tokens| :: Leading(tokens, bs, i)
  }

  /** Those shorter than the tokens. */
  function Below(bs: nat, tokens: seq<int>): set<seq<int>> {
    set i: nat | i <= |tokens| && i * bs < |tokens| :: Leading(tokens, bs, i)
  }

  /** The parents that registering a block after a, and then b, brings about. */
  function Parents(bs: nat, a: seq<int>, b: seq<int>): set<seq<int>> {
    UpTo(bs, a) + Below(bs, b)
  }

  /** A parent is shorter than b, or it is a and as long as b. */
  lemma ParentIs(bs: nat, vocab: nat, a: seq<int>, m: nat, b: seq<int>, n: nat, lead: seq<int>)
    requires bs > 0 && |a| == m * bs && |b| == n * bs && m <= n && InRange(vocab, a) && InRange(vocab, b)
    requires lead in Parents(bs, a, b)
    ensures InRange(vocab, lead)
    ensures var i := |lead| / bs; |lead| == i * bs && i <= n && (i == n ==> lead == a && m == n)
  {
    if lead in UpTo(bs, a) {
      var i :| 0 <= i <= |a| && i * bs <= |a| && lead == Leading(a, bs, i);
      QuotientOf(bs, m, 0);
      QuotientOf(bs, i, 0);
      QuotientMonotone(i * bs, m * bs, bs);
    } else {
      var i :| 0 <= i <= |b| && i * bs < |b| && lead == Leading(b, bs, i);
      QuotientBelow(i * bs, bs, n);
      QuotientOf(bs, i, 0);
    }
  }

  /**
   A collision is either the smallest, so that a, everything below it and everything below b are free of
   collisions, or there is a smaller one among those.
   */
  method SmallestCollision(hash: HashBlock, bs: nat, vocab: nat, p: seq<int>, k: nat, q: seq<int>, l: nat)
    returns (a: seq<int>, m: nat, b: seq<int>, n: nat)
    requires bs > 0 && Collide(hash, bs, vocab, p, k, q, l)
    ensures Collide(hash, bs, vocab, a, m, b, n) && CollisionFree(hash, bs, Parents(bs, a, b))
    decreases l, k
  {
    hide Chain, InRange, Parents;
    var parents := Parents(bs, p, q);
    if x, y :| x in parents && y in parents && Chain(hash, bs, x) == Chain(hash, bs, y) && x != y {
      ParentIs(bs, vocab, p, k, q, l, x);
      ParentIs(bs, vocab, p, k, q, l, y);
      var i, j := |x| / bs, |y| / bs;
      if i <= j {
        a, m, b, n := SmallestCollision(hash, bs, vocab, x, i, y, j);
      } else {
        a, m, b, n := SmallestCollision(hash, bs, vocab, y, j, x, i);
      }
    } else {
      a, m, b, n := p, k, q, l;
    }
  }

  // ---- What a collision does ----------------------------------------------------------------

  /** The block c after the full blocks a. */
  lemma BlockAfter(hash: HashBlock, bs: nat, p: Prefixes, a: seq<int>, c: seq<int>, n: nat)
    requires bs > 0 && |a| == n * bs && |c| == bs
    ensures (n + 1) * bs == n * bs + bs == |a + c|
    ensures Leading(a + c, bs, n) == a && Span(a + c, bs, n) == c
    ensures LookupBlock(hash, bs, p, a + c, n) == Lookup(p, hash(Chain(hash, bs, a), c), Chain(hash, bs, a), c)
    ensures var found := EntryFor(hash, p, Chain(hash, bs, a), c);
            LookupBlock(hash, bs, p, a + c, n) == if found.None? then None
                                                  else Some(p[found.value.0][found.value.1].block)
  {
    hide Chain;
    MulStep(n, bs);
  }

  /**
   The entry that serves c after the blocks a serves c after the blocks b exactly if a and b have the same
   chain hash. This holds of every cache, and for parents of any length, the empty one included.
   */
  lemma SameEntryIffCollision(hash: HashBlock, bs: nat, p: Prefixes, a: seq<int>, b: seq<int>, c: seq<int>)
    requires bs > 0 && EntryFor(hash, p, Chain(hash, bs, a), c).Some?
    ensures EntryFor(hash, p, Chain(hash, bs, b), c) == EntryFor(hash, p, Chain(hash, bs, a), c)
            <==> Chain(hash, bs, a) == Chain(hash, bs, b)
  {
    hide Chain;
    var found := EntryFor(hash, p, Chain(hash, bs, a), c).value;
    assert Matches(p[found.0][found.1], Chain(hash, bs, a), c);
  }

  /** Every entry that names the block is for c below that parent hash. */
  ghost predicate OnlyFor(p: Prefixes, block: nat, parent: Hash, c: seq<int>) {
    forall h, i :: IsEntry(p, h, i) && p[h][i].block == block ==> Matches(p[h][i], parent, c)
  }

  /** A block that was cached for c after a is found for c after b exactly if a and b have the same chain hash. */
  lemma FoundIffCollision(hash: HashBlock, bs: nat, p: Prefixes, block: nat, a: seq<int>, m: nat, b: seq<int>, n: nat,
                          c: seq<int>)
    requires bs > 0 && |a| == m * bs && |b| == n * bs && |c| == bs && m * bs + bs <= |a + c| && n * bs + bs <= |b + c|
    requires OnlyFor(p, block, Chain(hash, bs, a), c) && LookupBlock(hash, bs, p, a + c, m) == Some(block)
    ensures LookupBlock(hash, bs, p, b + c, n) == Some(block) <==> Chain(hash, bs, a) == Chain(hash, bs, b)
  {
    BlockAfter(hash, bs, p, a, c, m);
    BlockAfter(hash, bs, p, b, c, n);
    hide Chain, LookupBlock;
    var found := EntryFor(hash, p, Chain(hash, bs, b), c);
    if found.Some? {
      assert IsEntry(p, found.value.0, found.value.1)
             && Matches(p[found.value.0][found.value.1], Chain(hash, bs, b), c);
    }
  }

  /** Registering a context whose last block no entry names leaves that block cached for nothing else. */
  lemma RegisteredOnlyFor(hash: HashBlock, bs: nat, s: Pool, t: Pool, table: seq<nat>, a: seq<int>, m: nat, c: seq<int>)
    requires bs > 0 && |a| == m * bs && |c| == bs && |table| == m + 1 && table[m] !in table[..m]
    requires Registered(hash, bs, s, table, a + c, 0, t) && table[m] !in CacheRefs(s.prefix)
    ensures OnlyFor(t.prefix, table[m], Chain(hash, bs, a), c)
  {
    BlockAfter(hash, bs, t.prefix, a, c, m);
    hide PoolValid, Chain, LookupBlock, Leading, Span, CacheRefs;
    assert forall k :: 0 <= k < m ==> table[k] == table[..m][k];
    forall h, i | IsEntry(t.prefix, h, i) && t.prefix[h][i].block == table[m]
      ensures Matches(t.prefix[h][i], Chain(hash, bs, a), c)
    {
      NotNamed(s.prefix, t.prefix, table[m], h, i);
      var k: nat :| Describes(hash, bs, t, table, a + c, h, t.prefix[h][i], k);
      assert k == m;
    }
  }

  /** An entry that names a block which was in no entry is new. */
  lemma NotNamed(p: Prefixes, q: Prefixes, block: nat, h: Hash, i: int)
    requires Grown(p, q) && block !in CacheRefs(p) && IsEntry(q, h, i) && q[h][i].block == block
    ensures !IsEntry(p, h, i)
  {
    hide CacheRefs;
    forall g, j | IsEntry(p, g, j)
      ensures p[g][j].block in CacheRefs(p) && q[g][j] == p[g][j]
    {
      EntryCounted(p, g, j);
    }
  }

  /** Registering other blocks does not change what a block is cached for. */
  lemma StillOnlyFor(hash: HashBlock, bs: nat, s: Pool, t: Pool, table: seq<nat>, tokens: seq<int>, block: nat,
                     parent: Hash, c: seq<int>)
    requires bs > 0 && Registered(hash, bs, s, table, tokens, 0, t) && block !in table
    requires OnlyFor(s.prefix, block, parent, c)
    ensures OnlyFor(t.prefix, block, parent, c)
  {
    hide PoolValid, Chain, LookupBlock, Leading, Span;
    forall h, i | IsEntry(t.prefix, h, i) && t.prefix[h][i].block == block
      ensures Matches(t.prefix[h][i], parent, c)
    {
      assert IsEntry(s.prefix, h, i);
      assert s.prefix[h] <= t.prefix[h];
    }
  }

  /** What a registration keeps for later ones. */
  lemma StillHeld(hash: HashBlock, bs: nat, s: Pool, t: Pool, table: seq<nat>, tokens: seq<int>)
    requires bs > 0 && Registered(hash, bs, s, table, tokens, 0, t)
    ensures PoolValid(bs, t) && t.held == s.held && Grown(s.prefix, t.prefix)
    ensures forall k: nat :: k < |table| && k * bs + bs <= |tokens| ==> LookupBlock(hash, bs, t.prefix, tokens, k).Some?
  {
    hide PoolValid, Grown, Describes, LookupBlock;
  }

  lemma StillFound(hash: HashBlock, bs: nat, p: Prefixes, q: Prefixes, tokens: seq<int>, k: nat)
    requires bs > 0 && Grown(p, q) && k * bs + bs <= |tokens| && LookupBlock(hash, bs, p, tokens, k).Some?
    ensures LookupBlock(hash, bs, q, tokens, k) == LookupBlock(hash, bs, p, tokens, k)
  {
    var parent := Chain(hash, bs, Leading(tokens, bs, k));
    GrownLookup(p, q, hash(parent, Span(tokens, bs, k)), parent, Span(tokens, bs, k));
  }

  /** The leading blocks of a longer prompt are looked up like those of its beginning. */
  lemma SameLeading(hash: HashBlock, bs: nat, p: Prefixes, b: seq<int>, c: seq<int>, k: nat)
    requires bs > 0 && k * bs + bs <= |b|
    ensures LookupBlock(hash, bs, p, b + c, k) == LookupBlock(hash, bs, p, b, k)
  {
    assert Leading(b + c, bs, k) == Leading(b, bs, k) && Span(b + c, bs, k) == Span(b, bs, k);
  }

  /** The run found for b + c, whose leading blocks are all cached, ends in a given block if its last lookup says so. */
  lemma RunEndsIn(hash: HashBlock, bs: nat, p: Prefixes, b: seq<int>, n: nat, c: seq<int>, grown: seq<nat>, block: nat)
    requires bs > 0 && |b| == n * bs && |c| == bs && LongestRun(hash, bs, p, b + c, 0, grown)
    requires n * bs + bs <= |b + c|
    requires forall k: nat :: k < n ==> k * bs + bs <= |b| && LookupBlock(hash, bs, p, b, k).Some?
    ensures n <= |grown| <= n + 1
    ensures |grown| == n + 1 && grown[n] == block <==> LookupBlock(hash, bs, p, b + c, n) == Some(block)
  {
    hide LookupBlock;
    if |grown| < n {
      SameLeading(hash, bs, p, b, c, |grown|);
    }
    QuotientOf(bs, n + 1, 0);
    QuotientOf(bs, |grown|, 0);
    MulStep(n, bs);
    QuotientMonotone(|grown| * bs, |b + c|, bs);
  }

  /**
   Register a + c, whose last block x nothing else names, then b, then ask for b + c: the cache hands x out
   for it exactly if a and b have the same chain hash. The pool may hold anything before, and the parents
   may have any number of blocks.
   */
  lemma SharedByCollision(hash: HashBlock, bs: nat, s: Pool, ta: seq<nat>, a: seq<int>, m: nat, tb: seq<nat>,
                          b: seq<int>, n: nat, c: seq<int>)
    requires bs > 0 && PoolValid(bs, s) && |a| == m * bs && |b| == n * bs && |c| == bs && m * bs + bs == |a + c|
    requires |ta| == m + 1 && |tb| == n && forall x :: x in ta + tb ==> x in s.held
    requires ta[m] !in ta[..m] && ta[m] !in tb && ta[m] !in CacheRefs(s.prefix)
    requires LookupBlock(hash, bs, RegisterFrom(hash, bs, s, ta, a + c, 0).prefix, a + c, m) == Some(ta[m])
    ensures var s1 := RegisterFrom(hash, bs, s, ta, a + c, 0);
            var s2 := RegisterFrom(hash, bs, s1, tb, b, 0);
            var grown := AcquireFrom(hash, bs, s2, b + c, []).0;
            && n <= |grown| <= n + 1
            && (|grown| == n + 1 && grown[n] == ta[m] <==> Chain(hash, bs, a) == Chain(hash, bs, b))
  {
    hide PoolValid, RegisterFrom, AcquireFrom, Chain, Registered, Shared, LookupBlock, CacheRefs, OnlyFor, Grown;
    var s1 := RegisterFrom(hash, bs, s, ta, a + c, 0);
    var s2 := RegisterFrom(hash, bs, s1, tb, b, 0);
    RegisterKeeps(hash, bs, s, ta, a + c, 0);
    RegisteredOnlyFor(hash, bs, s, s1, ta, a, m, c);
    StillHeld(hash, bs, s, s1, ta, a + c);
    RegisterKeeps(hash, bs, s1, tb, b, 0);
    StillOnlyFor(hash, bs, s1, s2, tb, b, ta[m], Chain(hash, bs, a), c);
    StillHeld(hash, bs, s1, s2, tb, b);
    StillFound(hash, bs, s1.prefix, s2.prefix, a + c, m);
    BlockAfter(hash, bs, s2.prefix, b, c, n);
    FoundIffCollision(hash, bs, s2.prefix, ta[m], a, m, b, n, c);
    assert 0 * bs == 0;
    AcquireKeeps(hash, bs, s2, b + c, []);
    forall k: nat | k < n
      ensures k * bs + bs <= |b|
    {
      MulMonotone(k + 1, n, bs);
      MulStep(k, bs);
    }
    RunEndsIn(hash, bs, s2.prefix, b, n, c, AcquireFrom(hash, bs, s2, b + c, []).0, ta[m]);
  }
}
