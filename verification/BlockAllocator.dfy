/** Fixed pool of block ids with reference counts and a last-in first-out free list. */
module BlockAllocators {
  import opened Results

  ghost predicate NoDuplicates<T>(s: seq<T>) {
    forall i, j :: 0 <= i < j < |s| ==> s[i] != s[j]
  }

  /** The free list names each block of count zero exactly once. */
  ghost predicate Consistent(freeList: seq<nat>, refCount: seq<nat>) {
    && NoDuplicates(freeList)
    && (forall i :: 0 <= i < |freeList| ==> freeList[i] < |refCount|)
    && (forall b :: 0 <= b < |refCount| ==> (refCount[b] == 0 <==> b in freeList))
  }

  /** All block ids of a pool, the lowest to be handed out first. */
  function Descending(numBlocks: nat): seq<nat> {
    seq(numBlocks, i requires 0 <= i < numBlocks => numBlocks - 1 - i)
  }

  class BlockAllocator {
    var freeList: seq<nat>
    var refCount: seq<nat>

    ghost predicate Valid()
      reads this
    {
      Consistent(freeList, refCount)
    }

    constructor (numBlocks: nat)
      ensures Valid()
      ensures freeList == Descending(numBlocks) && refCount == seq(numBlocks, i => 0)
    {
      var descending: seq<nat> := [];
      var b := numBlocks;
      while b > 0
        invariant 0 <= b <= numBlocks
        invariant |descending| == numBlocks - b
        invariant forall i :: 0 <= i < |descending| ==> descending[i] == numBlocks - 1 - i
      {
        b := b - 1;
        descending := descending + [b];
      }
      freeList := descending;
      refCount := seq(numBlocks, i => 0);
      new;
      forall b | 0 <= b < numBlocks
        ensures b in freeList
      {
        assert freeList[numBlocks - 1 - b] == b;
      }
    }

    /** Takes the most recently freed block; throws exactly when none is free. */
    method Allocate() returns (r: Result<nat>)
      requires Valid()
      modifies this
      ensures Valid()
      ensures r.Ok? <==> old(freeList) != []
      ensures r.Throws? ==> r.error == OutOfBlocks && freeList == old(freeList) && refCount == old(refCount)
      ensures r.Ok? ==>
                && r.value < |old(refCount)| && old(refCount)[r.value] == 0
                && old(freeList) == freeList + [r.value]
                && refCount == old(refCount)[r.value := 1]
    {
      if freeList == [] {
        return Throws(OutOfBlocks);
      }
      var b := freeList[|freeList| - 1];
      freeList := freeList[..|freeList| - 1];
      refCount := refCount[b := 1];
      return Ok(b);
    }

    /** Adds a holder to a live block. */
    method Incref(block: nat) returns (r: Result<()>)
      requires Valid() && block < |refCount|
      modifies this`refCount
      ensures Valid()
      ensures r.Ok? <==> old(refCount)[block] > 0
      ensures r.Throws? ==> r.error == IncrefOnFreeBlock && refCount == old(refCount)
      ensures r.Ok? ==> refCount == old(refCount)[block := old(refCount)[block] + 1]
    {
      if refCount[block] == 0 {
        return Throws(IncrefOnFreeBlock);
      }
      refCount := refCount[block := refCount[block] + 1];
      return Ok(());
    }

    /** Drops a holder; the block is free again when the last one leaves. */
    method Free(block: nat) returns (r: Result<()>)
      requires Valid() && block < |refCount|
      modifies this
      ensures Valid()
      ensures r.Ok? <==> old(refCount)[block] > 0
      ensures r.Throws? ==> r.error == DoubleFree && refCount == old(refCount) && freeList == old(freeList)
      ensures r.Ok? ==>
                && refCount == old(refCount)[block := old(refCount)[block] - 1]
                && freeList == old(freeList) + if old(refCount)[block] == 1 then [block] else []
    {
      if refCount[block] == 0 {
        return Throws(DoubleFree);
      }
      refCount := refCount[block := refCount[block] - 1];
      if refCount[block] == 0 {
        freeList := freeList + [block];
      }
      return Ok(());
    }
  }

  // ---- Counting -----------------------------------------------------------------------------

  function Elements(s: seq<nat>): set<nat> {
    set b | b in s
  }

  lemma {:induction false} ElementsAtMost(s: seq<nat>)
    ensures |Elements(s)| <= |s|
    ensures NoDuplicates(s) ==> |Elements(s)| == |s|
  {
    if s != [] {
      var init, last := s[..|s| - 1], s[|s| - 1];
      ElementsAtMost(init);
      assert Elements(s) == Elements(init) + {last};
      if NoDuplicates(s) {
        assert last !in init;
      }
    }
  }

  function AllBlocks(n: nat): (s: seq<nat>)
    ensures |s| == n && NoDuplicates(s)
  {
    seq(n, i => i)
  }

  /** A pool with no holder at all is entirely free. */
  lemma AllFree(freeList: seq<nat>, refCount: seq<nat>)
    requires Consistent(freeList, refCount)
    requires forall b :: 0 <= b < |refCount| ==> refCount[b] == 0
    ensures |freeList| == |refCount|
  {
    var all := AllBlocks(|refCount|);
    ElementsAtMost(freeList);
    ElementsAtMost(all);
    assert forall b :: 0 <= b < |refCount| ==> all[b] == b && b in freeList;
    assert Elements(freeList) == Elements(all);
  }

  /** Blocks that are not free are held: if only `table` and the cache hold any, the rest is free. */
  lemma FreeOrHeld(freeList: seq<nat>, refCount: seq<nat>, table: seq<nat>, cached: set<nat>)
    requires Consistent(freeList, refCount)
    requires forall b :: 0 <= b < |refCount| && refCount[b] > 0 ==> b in table || b in cached
    ensures |refCount| <= |freeList| + |table| + |cached|
  {
    var all := AllBlocks(|refCount|);
    ElementsAtMost(freeList);
    ElementsAtMost(table);
    ElementsAtMost(all);
    var union := Elements(freeList) + Elements(table) + cached;
    assert forall b :: 0 <= b < |refCount| ==> all[b] == b && (b in freeList || refCount[b] > 0);
    assert Elements(all) <= union;
    SubsetSize(Elements(all), union);
    assert |union| <= |Elements(freeList)| + |Elements(table)| + |cached|;
  }

  lemma {:induction false} SubsetSize(a: set<nat>, b: set<nat>)
    requires a <= b
    ensures |a| <= |b|
  {
    if a != {} {
      var x :| x in a;
      SubsetSize(a - {x}, b - {x});
    }
  }
}
