/**
 The block manager: the shared pool of K/V rows and its bookkeeping. Every method is proved to
 compute the corresponding function of the pool state, or to move exactly the rows it names.
 */
module BlockManagers {
  import opened Arithmetic
  import opened Results
  import opened BlockAllocators
  import opened PrefixCaches
  import opened BlockPools

  type Row = seq<real>

  // ---- Addresses ----------------------------------------------------------------------------

  /** Physical row of a slot of a block. */
  function Slot(bs: nat, block: nat, slot: nat): nat {
    block * bs + slot
  }

  /** Logical block and slot of row p. */
  function BlockOf(bs: nat, p: nat): nat
    requires bs > 0
  {
    p / bs
  }

  function SlotOf(bs: nat, p: nat): (s: nat)
    requires bs > 0
    ensures s < bs
  {
    p % bs
  }

  /** Physical row of logical row p of a block table. */
  function Addr(bs: nat, table: seq<nat>, p: nat): nat
    requires bs > 0 && BlockOf(bs, p) < |table|
  {
    Slot(bs, table[BlockOf(bs, p)], SlotOf(bs, p))
  }

  lemma SlotInjective(bs: nat, b: nat, s: nat, c: nat, t: nat)
    requires s < bs && t < bs && Slot(bs, b, s) == Slot(bs, c, t)
    ensures b == c && s == t
  {
    DivisionUnique(bs, b, s, c, t);
  }

  lemma SlotInPool(bs: nat, n: nat, b: nat, s: nat)
    requires b < n && s < bs
    ensures Slot(bs, b, s) < n * bs
  {
    MulMonotone(b + 1, n, bs);
    MulStep(b, bs);
  }

  /** A logical row is its block and slot. */
  lemma RowOf(bs: nat, b: nat, s: nat)
    requires s < bs
    ensures BlockOf(bs, Slot(bs, b, s)) == b && SlotOf(bs, Slot(bs, b, s)) == s
  {
    QuotientOf(bs, b, s);
  }

  lemma RowSplit(bs: nat, p: nat)
    requires bs > 0
    ensures p == Slot(bs, BlockOf(bs, p), SlotOf(bs, p))
  {
    Division(p, bs);
  }

  /** Two logical rows share a physical row only if they share block and slot. */
  lemma AddrInjective(bs: nat, t: seq<nat>, p: nat, u: seq<nat>, q: nat)
    requires bs > 0 && BlockOf(bs, p) < |t| && BlockOf(bs, q) < |u| && Addr(bs, t, p) == Addr(bs, u, q)
    ensures t[BlockOf(bs, p)] == u[BlockOf(bs, q)] && SlotOf(bs, p) == SlotOf(bs, q)
  {
    hide BlockOf, SlotOf, Slot;
    SlotInjective(bs, t[BlockOf(bs, p)], SlotOf(bs, p), u[BlockOf(bs, q)], SlotOf(bs, q));
  }

  /** A table of b blocks fits n rows exactly when b >= blocks_for(n). */
  lemma BlocksForFits(bs: nat, n: nat, b: nat)
    requires bs > 0
    ensures n <= b * bs <==> BlocksFor(bs, n) <= b
  {
    QuotientBelow(n + bs - 1, bs, b + 1);
    MulStep(b, bs);
  }

  lemma BlocksForMonotone(bs: nat, m: nat, n: nat)
    requires bs > 0 && m <= n
    ensures BlockOf(bs, m) <= BlocksFor(bs, m) <= BlocksFor(bs, n)
  {
    QuotientMonotone(m + bs - 1, n + bs - 1, bs);
    QuotientMonotone(m, m + bs - 1, bs);
  }

  lemma BlocksForAligned(bs: nat, n: nat)
    requires bs > 0 && SlotOf(bs, n) == 0
    ensures BlocksFor(bs, n) == BlockOf(bs, n)
  {
    Division(n, bs);
    QuotientOf(bs, n / bs, bs - 1);
  }

  /** The rows below n lie in the first blocks_for(n) blocks. */
  lemma RowInBlocks(bs: nat, p: nat, n: nat)
    requires bs > 0 && p < n
    ensures BlockOf(bs, p) < BlocksFor(bs, n)
  {
    Division(p, bs);
    QuotientMonotone(p, n - 1, bs);
    Division(n - 1, bs);
    var q := (n - 1) / bs;
    MulStep(q, bs);
    assert n + bs - 1 == (q + 1) * bs + (n - 1) % bs;
    QuotientOf(bs, q + 1, (n - 1) % bs);
  }

  // ---- The manager --------------------------------------------------------------------------

  class BlockManager {
    const numLayers: nat
    const bs: nat
    const hash: HashBlock
    const alloc: BlockAllocator
    /** Row stores: [layer, block * bs + slot]. A row of kv_dim floats is one element. */
    const keys: array2<Row>
    const values: array2<Row>
    var prefix: Prefixes
    var prefixHits: nat
    var tick: int
    ghost var held: multiset<nat>
    ghost var seen: set<seq<int>>

    ghost function State(): Pool
      reads this, alloc
    {
      Pool(alloc.freeList, alloc.refCount, prefix, tick, held, seen)
    }

    ghost predicate Valid()
      reads this, alloc
    {
      && bs > 0 && numLayers > 0
      && PoolValid(bs, State())
      && keys != values
      && keys.Length0 == values.Length0 == numLayers
      && keys.Length1 == values.Length1 == |alloc.refCount| * bs
    }

    constructor (numLayers: nat, bs: nat, numBlocks: nat, hash: HashBlock)
      requires numLayers > 0 && bs > 0
      ensures Valid() && fresh(alloc) && fresh(keys) && fresh(values)
      ensures this.numLayers == numLayers && this.bs == bs && this.hash == hash
      ensures State() == FreshPool(numBlocks)
    {
      this.numLayers := numLayers;
      this.bs := bs;
      this.hash := hash;
      alloc := new BlockAllocator(numBlocks);
      keys := new Row[numLayers, numBlocks * bs]((i, j) => []);
      values := new Row[numLayers, numBlocks * bs]((i, j) => []);
      prefix, prefixHits, tick := map[], 0, 0;
      held, seen := multiset{}, {};
    }

    function FreeBlocks(): nat
      reads this, alloc
    {
      |alloc.freeList|
    }

    /** Whether the free list alone can grow the sequence by n tokens. */
    predicate CanAppend(blocks: SequenceBlocks, n: nat)
      requires bs > 0
      reads this, alloc
    {
      BlocksFor(bs, blocks.length + n) - |blocks.table| <= |alloc.freeList|
    }

    // ---- Eviction and allocation ------------------------------------------------------------

    /** Scans every bucket, in any order, for the least recently used entry only the cache holds. */
    method FindVictim() returns (found: bool, h: Hash, i: nat)
      requires Valid()
      ensures found ==> IsVictim(prefix, alloc.refCount, h, i)
      ensures !found ==> !HasEvictable(State())
    {
      hide PoolValid;
      found, h, i := false, 0, 0;
      var oldest := 0;
      var unvisited := prefix.Keys;
      while unvisited != {}
        invariant unvisited <= prefix.Keys
        invariant found ==> Evictable(prefix, alloc.refCount, h, i) && oldest == prefix[h][i].lastUsed
        invariant forall g, j :: g !in unvisited && Evictable(prefix, alloc.refCount, g, j) ==>
                    found && oldest <= prefix[g][j].lastUsed
      {
        var g :| g in unvisited;
        unvisited := unvisited - {g};
        var entries := prefix[g];
        var j := 0;
        while j < |entries|
          invariant 0 <= j <= |entries|
          invariant found ==> Evictable(prefix, alloc.refCount, h, i) && oldest == prefix[h][i].lastUsed
          invariant forall f, k :: f !in unvisited && (f == g ==> k < j) && Evictable(prefix, alloc.refCount, f, k) ==>
                      found && oldest <= prefix[f][k].lastUsed
        {
          CachedIsLive(bs, State(), g, j);
          if alloc.refCount[entries[j].block] == 1 && (!found || entries[j].lastUsed < oldest) {
            oldest, h, i, found := entries[j].lastUsed, g, j, true;
          }
          j := j + 1;
        }
      }
    }

    /** Drops the least recently used entry that only the cache holds, if there is one. */
    method EvictLru()
      requires Valid()
      modifies this`prefix, alloc
      ensures Valid() && State() == Evict(old(State()))
    {
      VictimWhenever(bs, State());
      var found, h, i := FindVictim();
      if !found {
        return;
      }
      DropKeeps(bs, State(), h, i);
      assert Victim(State()) == (h, i) by {
        VictimUnique(prefix, alloc.refCount, tick, h, i, Victim(State()).0, Victim(State()).1);
      }
      hide PoolValid, IsVictim, CacheRefs;
      var freed := FreeBlock(prefix[h][i].block);
      var bucket := prefix[h][..i] + prefix[h][i + 1..];
      prefix := if bucket == [] then prefix - {h} else prefix[h := bucket];
    }

    /** A free that cannot throw: the block is live. */
    method FreeBlock(block: nat) returns (r: Result<()>)
      requires alloc.Valid() && block < |alloc.refCount| && alloc.refCount[block] > 0
      modifies alloc
      ensures alloc.Valid() && r.Ok?
      ensures alloc.refCount == old(alloc.refCount)[block := old(alloc.refCount)[block] - 1]
      ensures alloc.freeList == old(alloc.freeList) + if old(alloc.refCount)[block] == 1 then [block] else []
    {
      r := alloc.Free(block);
    }

    /** Takes a free block, evicting a cached one when the free list is empty. */
    method AllocateBlock() returns (r: Result<nat>)
      requires Valid()
      modifies this`prefix, this`held, alloc
      ensures Valid()
      ensures (r, State()) == AllocateFrom(old(State()))
    {
      hide PoolValid, CacheRefs, HasEvictable, Evict, Consistent;
      AllocateKeeps(bs, State());
      ValidIsConsistent(bs, State());
      if |alloc.freeList| == 0 {
        EvictLru();
        ValidIsConsistent(bs, State());
      }
      r := alloc.Allocate();
      if r.Ok? {
        held := held + multiset{r.value};
      }
    }

    /** Grows a block table to hold n more tokens. */
    method Reserve(blocks: SequenceBlocks, n: nat) returns (r: Result<()>, grown: SequenceBlocks)
      requires Valid()
      modifies this`prefix, this`held, alloc
      ensures Valid()
      ensures (r, grown.table, State()) == ReserveFrom(old(State()), blocks.table, BlocksFor(bs, blocks.length + n))
      ensures grown.length == blocks.length
    {
      var need := BlocksFor(bs, blocks.length + n);
      var table := blocks.table;
      ValidIsConsistent(bs, State());
      hide PoolValid, CacheRefs, HasEvictable, AllocateFrom;
      while |table| < need
        invariant Valid()
        invariant FreeInRange(State())
                  && ReserveFrom(State(), table, need) == ReserveFrom(old(State()), blocks.table, need)
        decreases need - |table|
      {
        AllocateKeeps(bs, State());
        var b := AllocateBlock();
        if b.Throws? {
          return Throws(b.error), blocks.(table := table);
        }
        table := table + [b.value];
        ValidIsConsistent(bs, State());
      }
      return Ok(()), blocks.(table := table);
    }

    /** Drops one table's reference to a block. */
    method ReleaseBlock(block: nat)
      requires Valid() && block in held
      modifies this`held, alloc
      ensures Valid() && State() == Release(old(State()), block)
    {
      hide CacheRefs;
      ReleaseKeeps(bs, State(), block);
      hide PoolValid;
      ValidIsConsistent(bs, State());
      hide Consistent;
      var freed := FreeBlock(block);
      held := held - multiset{block};
    }

    /** Gives all of a sequence's blocks back and resets it. */
    method Free(blocks: SequenceBlocks) returns (cleared: SequenceBlocks)
      requires Valid() && multiset(blocks.table) <= held
      modifies this`held, alloc
      ensures Valid() && State() == FreeFrom(old(State()), blocks.table)
      ensures cleared == EMPTY_BLOCKS
    {
      hide PoolValid, Release;
      var i := 0;
      assert blocks.table[0..] == blocks.table;
      while i < |blocks.table|
        invariant 0 <= i <= |blocks.table|
        invariant Valid() && multiset(blocks.table[i..]) <= held
        invariant FreeFrom(State(), blocks.table[i..]) == FreeFrom(old(State()), blocks.table)
      {
        ghost var rest := blocks.table[i..];
        assert rest[0] == blocks.table[i] && rest[1..] == blocks.table[i + 1..];
        HeldSplit(State(), rest);
        ReleaseKeeps(bs, State(), rest[0]);
        ReleaseBlock(blocks.table[i]);
        i := i + 1;
      }
      return EMPTY_BLOCKS;
    }

    // ---- Prefix cache -----------------------------------------------------------------------

    /** Index of the first entry of a bucket with this parent and these tokens. */
    method ScanBucket(entries: seq<PrefixEntry>, parent: Hash, span: seq<int>) returns (i: nat)
      ensures i == FirstMatch(entries, parent, span)
    {
      i := 0;
      while i < |entries| && !Matches(entries[i], parent, span)
        invariant i <= |entries|
        invariant forall j :: 0 <= j < i ==> !Matches(entries[j], parent, span)
      {
        i := i + 1;
      }
      FirstMatchUnique(entries, parent, span, i);
    }

    /** Takes a reference to the block of an entry and makes the entry the most recently used. */
    method ShareEntry(h: Hash, i: nat) returns (block: nat)
      requires Valid() && IsEntry(prefix, h, i)
      modifies this`prefix, this`tick, this`held, alloc
      ensures Valid() && State() == Share(old(State()), h, i)
      ensures block == old(prefix)[h][i].block
    {
      hide PoolValid, Consistent, CacheRefs, SameButTicks, Bump;
      ShareKeeps(bs, State(), h, i);
      ValidIsConsistent(bs, State());
      var entries := prefix[h];
      var e := entries[i];
      block := TakeReference(e.block);
      tick := tick + 1;
      prefix := prefix[h := entries[i := e.(lastUsed := tick)]];
    }

    /** A table becomes one more holder of a live block. */
    method TakeReference(b: nat) returns (block: nat)
      requires alloc.Valid() && b < |alloc.refCount| && alloc.refCount[b] > 0
      modifies this`held, alloc
      ensures alloc.Valid() && alloc.refCount == Bump(old(alloc.refCount), b) && alloc.freeList == old(alloc.freeList)
      ensures |alloc.refCount| == |old(alloc.refCount)| && held == old(held) + multiset{b} && block == b
    {
      var shared := alloc.Incref(b);
      held := held + multiset{b};
      block := b;
    }

    /** One turn of the acquisition loop: looks block b up and shares it on a hit. */
    method ProbeBlock(tokens: seq<int>, b: nat, parent: Hash) returns (found: Option<nat>, h: Hash)
      requires Valid() && b < FullBlocks(bs, tokens) && parent == ParentHash(hash, bs, tokens, b)
      modifies this`prefix, this`tick, this`held, this`seen, alloc
      ensures Valid() && b * bs + bs <= |tokens| && (found, State()) == Probe(hash, bs, old(State()), tokens, b)
      ensures h == ParentHash(hash, bs, tokens, b + 1)
    {
      ParentHashNext(hash, bs, tokens, b);
      hide PoolValid, Share, Chain, ParentHash;
      var span := Span(tokens, bs, b);
      h := hash(parent, span);
      var i := 0;
      if h in prefix {
        i := ScanBucket(prefix[h], parent, span);
      }
      ProbeKeeps(bs, State(), Leading(tokens, bs, b));
      seen := seen + {Leading(tokens, bs, b)};
      if h !in prefix || i == |prefix[h]| {
        return None, h;
      }
      var block := ShareEntry(h, i);
      return Some(block), h;
    }

    /**
     Shares the leading full blocks of the tokens with registered prefixes, for a fresh sequence only;
     returns the number of tokens covered.
     */
    method AcquireSharedPrefix(blocks: SequenceBlocks, tokens: seq<int>) returns (grown: SequenceBlocks, matched: nat)
      requires Valid()
      modifies this`prefix, this`tick, this`held, this`seen, this`prefixHits, alloc
      ensures Valid()
      ensures if blocks != EMPTY_BLOCKS then grown == blocks && matched == 0 && State() == old(State())
              else (grown.table, State()) == AcquireFrom(hash, bs, old(State()), tokens, [])
                   && grown.length == matched == |grown.table| * bs
    {
      hide PoolValid, AcquireFrom;
      if blocks.table != [] || blocks.length != 0 {
        return blocks, 0;
      }
      var table := ShareRun(tokens);
      matched := |table| * bs;
      grown := SequenceBlocks(table, matched);
      if matched > 0 {
        prefixHits := prefixHits + 1;
      }
    }

    /** The acquisition loop: the first miss ends the shareable prefix. */
    method ShareRun(tokens: seq<int>) returns (table: seq<nat>)
      requires Valid()
      modifies this`prefix, this`tick, this`held, this`seen, alloc
      ensures Valid() && (table, State()) == AcquireFrom(hash, bs, old(State()), tokens, [])
    {
      hide PoolValid, Probe, ParentHash, AcquireFrom, FullBlocks;
      ParentHashEmpty(hash, bs, tokens);
      table := [];
      var parent: Hash := 0;
      var missed := false;
      while |table| < FullBlocks(bs, tokens) && !missed
        invariant Valid() && |table| <= FullBlocks(bs, tokens)
        invariant !missed ==> parent == ParentHash(hash, bs, tokens, |table|)
        invariant (if missed then (table, State()) else AcquireFrom(hash, bs, State(), tokens, table))
                  == AcquireFrom(hash, bs, old(State()), tokens, [])
        decreases FullBlocks(bs, tokens) - |table|, !missed
      {
        AcquireUnfold(hash, bs, State(), tokens, table);
        var found, h := ProbeBlock(tokens, |table|, parent);
        if found.None? {
          missed := true;
        } else {
          table, parent := table + [found.value], h;
        }
      }
      AcquireUnfold(hash, bs, State(), tokens, table);
    }

    /** Records the sequence's full blocks, whose rows cover the tokens, for later sequences to share. */
    method RegisterPrefix(blocks: SequenceBlocks, tokens: seq<int>)
      requires Valid() && multiset(blocks.table) <= held
      modifies this`prefix, this`tick, this`seen, alloc`refCount
      ensures Valid() && State() == RegisterFrom(hash, bs, old(State()), blocks.table, tokens, 0)
    {
      hide PoolValid, Insert, ParentHash, RegisterFrom, FullBlocks;
      ParentHashEmpty(hash, bs, tokens);
      var byTokens := FullBlocks(bs, tokens);
      var full := if |blocks.table| < byTokens then |blocks.table| else byTokens;
      var parent: Hash := 0;
      var b := 0;
      while b < full
        invariant b <= full && Valid() && held == old(held) && parent == ParentHash(hash, bs, tokens, b)
        invariant RegisterFrom(hash, bs, State(), blocks.table, tokens, b)
                  == RegisterFrom(hash, bs, old(State()), blocks.table, tokens, 0)
      {
        RegisterUnfold(hash, bs, State(), blocks.table, tokens, b);
        parent := InsertBlock(blocks.table, tokens, b, parent);
        b := b + 1;
      }
      RegisterUnfold(hash, bs, State(), blocks.table, tokens, b);
    }

    /** One turn of the registration loop; returns the block's chain hash. */
    method InsertBlock(table: seq<nat>, tokens: seq<int>, b: nat, parent: Hash) returns (h: Hash)
      requires Valid() && multiset(table) <= held
      requires b < |table| && b < FullBlocks(bs, tokens) && parent == ParentHash(hash, bs, tokens, b)
      modifies this`prefix, this`tick, this`seen, alloc`refCount
      ensures Valid() && b * bs + bs <= |tokens| && State() == Insert(hash, bs, old(State()), table[b], tokens, b)
      ensures h == ParentHash(hash, bs, tokens, b + 1)
    {
      hide PoolValid, Chain, ParentHash, Insert, FirstMatch, AddTo;
      ParentHashNext(hash, bs, tokens, b);
      var span := Span(tokens, bs, b);
      h := hash(parent, span);
      var entries := if h in prefix then prefix[h] else [];
      InsertByScan(hash, bs, State(), table[b], tokens, b, parent, entries);
      var i := ScanBucket(entries, parent, span);
      ProbeKeeps(bs, State(), Leading(tokens, bs, b));
      seen := seen + {Leading(tokens, bs, b)};
      if i == |entries| {
        assert table[b] in multiset(table);
        AddEntry(h, entries, PrefixEntry(parent, span, table[b], tick + 1));
      }
    }

    method AddEntry(h: Hash, entries: seq<PrefixEntry>, e: PrefixEntry)
      requires Valid() && e.block in held && |e.tokens| == bs && e.lastUsed == tick + 1
      requires entries == if h in prefix then prefix[h] else []
      modifies this`prefix, this`tick, alloc`refCount
      ensures Valid() && State() == AddTo(old(State()), h, entries, e)
    {
      hide CacheRefs;
      AddEntryKeeps(bs, State(), h, e);
      HeldIsLive(bs, State(), e.block);
      ValidIsConsistent(bs, State());
      hide PoolValid, Consistent;
      var registered := alloc.Incref(e.block);
      tick := e.lastUsed;
      prefix := prefix[h := entries + [e]];
    }

    /** Releases every reference of the cache, bucket by bucket in any order. */
    method ClearPrefixCache()
      requires Valid()
      modifies this`prefix, alloc
      ensures Valid() && Cleared(bs, old(State()), State())
    {
      hide CacheRefs;
      while prefix != map[]
        invariant Valid() && |alloc.refCount| == old(|alloc.refCount|)
        invariant held == old(held)
        decreases prefix.Keys
      {
        ghost var h0 := Pick(prefix);
        var h :| h in prefix;
        ClearBucket(h);
      }
    }

    /** Drops the entries of one bucket. */
    method ClearBucket(h: Hash)
      requires Valid() && h in prefix
      modifies this`prefix, alloc
      ensures Valid() && prefix == old(prefix) - {h}
      ensures |alloc.refCount| == old(|alloc.refCount|)
    {
      ghost var all := prefix;
      while prefix[h] != []
        invariant h in prefix && prefix - {h} == all - {h}
        invariant Valid() && |alloc.refCount| == old(|alloc.refCount|)
        decreases |prefix[h]|
      {
        DropEntry(h);
      }
      hide CacheRefs;
      RemoveEmptyBucket(bs, State(), h);
      prefix := prefix - {h};
    }

    method DropEntry(h: Hash)
      requires Valid() && h in prefix && prefix[h] != []
      modifies this`prefix, alloc
      ensures Valid() && prefix == old(prefix)[h := old(prefix)[h][1..]]
      ensures |alloc.refCount| == old(|alloc.refCount|)
    {
      hide CacheRefs;
      ForgetKeeps(bs, State(), h);
      ValidIsConsistent(bs, State());
      hide PoolValid, Consistent;
      var freed := FreeBlock(prefix[h][0].block);
      prefix := prefix[h := prefix[h][1..]];
    }

    // ---- Rows -------------------------------------------------------------------------------

    /** Rows start.. of the table, one layer, take the rows of src. */
    method WriteOne(store: array2<Row>, table: seq<nat>, layer: nat, start: nat, src: seq<Row>)
      requires bs > 0 && layer < store.Length0 && InStore(bs, store.Length1, table, start, |src|)
      modifies store
      ensures DistinctRows(bs, table, start, |src|) ==>
                forall p :: start <= p < start + |src| ==> store[layer, Addr(bs, table, p)] == src[p - start]
      ensures forall l, a :: 0 <= l < store.Length0 && 0 <= a < store.Length1
                && (l != layer || !Touches(bs, table, start, |src|, a))
                ==> store[l, a] == old(store[l, a])
    {
      hide Addr, BlockOf, SlotOf;
      var r := 0;
      while r < |src|
        invariant 0 <= r <= |src|
        invariant DistinctRows(bs, table, start, |src|) ==>
                    forall p :: start <= p < start + r ==> store[layer, Addr(bs, table, p)] == src[p - start]
        invariant forall l, a :: 0 <= l < store.Length0 && 0 <= a < store.Length1
                    && (l != layer || !Touches(bs, table, start, |src|, a))
                    ==> store[l, a] == old(store[l, a])
      {
        store[layer, Addr(bs, table, start + r)] := src[r];
        r := r + 1;
      }
    }

    /** K and V rows of one layer at the sequence's logical rows start.. */
    method Write(blocks: SequenceBlocks, layer: nat, start: nat, k: seq<Row>, v: seq<Row>)
      requires Valid() && layer < numLayers && |k| == |v| && InStore(bs, keys.Length1, blocks.table, start, |k|)
      modifies keys, values
      ensures DistinctRows(bs, blocks.table, start, |k|) ==>
                forall p :: start <= p < start + |k| ==>
                  keys[layer, Addr(bs, blocks.table, p)] == k[p - start]
                      && values[layer, Addr(bs, blocks.table, p)] == v[p - start]
      ensures forall l, a :: 0 <= l < numLayers && 0 <= a < keys.Length1
                && (l != layer || !Touches(bs, blocks.table, start, |k|, a))
                ==> keys[l, a] == old(keys[l, a]) && values[l, a] == old(values[l, a])
    {
      hide PoolValid, Addr, Touches, DistinctRows, InStore;
      WriteOne(keys, blocks.table, layer, start, k);
      WriteOne(values, blocks.table, layer, start, v);
    }

    /** Logical rows 0..rows of one layer, in order. */
    method GatherOne(store: array2<Row>, table: seq<nat>, layer: nat, rows: nat) returns (out: seq<Row>)
      requires bs > 0 && layer < store.Length0 && InStore(bs, store.Length1, table, 0, rows)
      ensures |out| == rows && forall p :: 0 <= p < rows ==> out[p] == store[layer, Addr(bs, table, p)]
    {
      hide Addr, BlockOf, SlotOf;
      out := [];
      while |out| < rows
        invariant |out| <= rows && forall p :: 0 <= p < |out| ==> out[p] == store[layer, Addr(bs, table, p)]
      {
        out := out + [store[layer, Addr(bs, table, |out|)]];
      }
    }
  }

  /** The table has a physical row inside the store for each of the logical rows start..start+n. */
  ghost predicate InStore(bs: nat, size: nat, table: seq<nat>, start: nat, n: nat)
    requires bs > 0
  {
    forall p: nat :: start <= p < start + n ==> BlockOf(bs, p) < |table| && Addr(bs, table, p) < size
  }

  /** Logical rows start..start+n have different physical rows. */
  ghost predicate DistinctRows(bs: nat, table: seq<nat>, start: nat, n: nat)
    requires bs > 0
  {
    forall p: nat, q: nat :: start <= p < q < start + n && BlockOf(bs, p) < |table| && BlockOf(bs, q) < |table|
      ==> Addr(bs, table, p) != Addr(bs, table, q)
  }

  /** Physical row a is one of the logical rows start..start+n. */
  ghost predicate Touches(bs: nat, table: seq<nat>, start: nat, n: nat, a: nat)
    requires bs > 0
  {
    exists p: nat :: start <= p < start + n && BlockOf(bs, p) < |table| && Addr(bs, table, p) == a
  }
}
