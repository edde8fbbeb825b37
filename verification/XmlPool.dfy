/** MemPoolT: items carved out of blocks, free items chained through the items themselves. */
module XmlPool {
  const NULL: int := -1

  /** The chain of links from the root runs over exactly these items. */
  ghost predicate Chain(next: seq<int>, root: int, free: seq<nat>)
    decreases |free|
  {
    if free == [] then root == NULL
    else root == free[0] < |next| && Chain(next, next[free[0]], free[1..])
  }

  ghost predicate Distinct(s: seq<nat>) {
    s == [] || (s[0] !in s[1..] && Distinct(s[1..]))
  }

  /** Free and used items share out the n items of all blocks. */
  ghost predicate Partition(n: nat, free: seq<nat>, live: set<nat>) {
    && Distinct(free)
    && (forall k :: k in free ==> k < n && k !in live)
    && (forall k :: k in live ==> k < n)
    && (forall k: nat :: k < n ==> k in live || k in free)
  }

  /** A link written outside the chain does not matter. */
  lemma {:induction false} ChainKept(next: seq<int>, next': seq<int>, root: int, free: seq<nat>)
    requires Chain(next, root, free) && |next| <= |next'|
    requires forall k :: k in free && k < |next| ==> next'[k] == next[k]
    ensures Chain(next', root, free)
    decreases |free|
  {
    if free != [] {
      ChainKept(next, next', next[free[0]], free[1..]);
    }
  }

  lemma Taken(n: nat, free: seq<nat>, live: set<nat>)
    requires Partition(n, free, live) && free != []
    ensures free[0] !in live && free[0] < n && Partition(n, free[1..], live + {free[0]})
  {
    assert free == [free[0]] + free[1..];
    assert forall k :: k in free <==> k == free[0] || k in free[1..];
  }

  /** The items base, base + 1, ... of a new block. */
  function Fresh(base: nat, n: nat): (s: seq<nat>)
    ensures |s| == n && Distinct(s) && forall k :: k in s <==> base <= k < base + n
    decreases n
  {
    if n == 0 then [] else [base] + Fresh(base + 1, n - 1)
  }

  lemma {:induction false} FreshChain(next: seq<int>, base: nat, n: nat)
    requires n > 0 && base + n == |next| && next[base + n - 1] == NULL
    requires forall k :: base <= k < base + n - 1 ==> next[k] == k + 1
    ensures Chain(next, base, Fresh(base, n))
    decreases n
  {
    assert Fresh(base, n)[1..] == Fresh(base + 1, n - 1);
    if n > 1 {
      FreshChain(next, base + 1, n - 1);
    }
  }

  class MemPool {
    const itemsPerBlock: nat
    /** The word that a free item uses as its link; anything in an item in use. */
    var next: seq<int>
    var root: int
    var currentAllocs: int
    var nAllocs: int
    var maxAllocs: int
    var nUntracked: int
    /** The chain from the root, and the items handed out. */
    ghost var free: seq<nat>
    ghost var live: set<nat>

    ghost predicate Valid()
      reads this
    {
      && itemsPerBlock > 0
      && Chain(next, root, free) && Partition(|next|, free, live)
      && currentAllocs == |live| <= maxAllocs
    }

    constructor (itemsPerBlock: nat)
      requires itemsPerBlock > 0
      ensures Valid() && live == {} && nUntracked == 0 && this.itemsPerBlock == itemsPerBlock
    {
      this.itemsPerBlock := itemsPerBlock;
      next, root, free, live := [], NULL, [], {};
      currentAllocs, nAllocs, maxAllocs, nUntracked := 0, 0, 0, 0;
    }

    /** A new block, its items chained in order, becomes the free list. */
    method Grow()
      requires Valid() && root == NULL
      modifies this`next, this`root, this`free
      ensures Valid() && root == old(|next|) && |next| == old(|next|) + itemsPerBlock && |free| == itemsPerBlock
    {
      var base := |next|;
      var block: seq<int> := [];
      var i := 0;
      while i < itemsPerBlock - 1
        invariant 0 <= i <= itemsPerBlock - 1 && |block| == i
        invariant forall k :: 0 <= k < i ==> block[k] == base + k + 1
      {
        block := block + [base + i + 1];
        i := i + 1;
      }
      next := next + block + [NULL];
      root := base;
      free := Fresh(base, itemsPerBlock);
      FreshChain(next, base, itemsPerBlock);
    }

    /** Alloc never hands out an item that is in use. */
    method Alloc() returns (item: nat)
      requires Valid()
      modifies this
      ensures Valid() && item !in old(live) && live == old(live) + {item}
      ensures currentAllocs == old(currentAllocs) + 1 && nUntracked == old(nUntracked) + 1
      ensures nAllocs == old(nAllocs) + 1
      ensures maxAllocs == if currentAllocs > old(maxAllocs) then currentAllocs else old(maxAllocs)
      ensures if old(free) == [] then item == old(|next|) && |free| == itemsPerBlock - 1
              else item == old(free)[0] && free == old(free)[1..] && |next| == old(|next|)
    {
      hide Partition, Distinct;
      if root == NULL {
        Grow();
      }
      Taken(|next|, free, live);
      item := root;
      root := next[item];
      free := free[1..];
      live := live + {item};
      currentAllocs := currentAllocs + 1;
      if currentAllocs > maxAllocs {
        maxAllocs := currentAllocs;
      }
      nAllocs := nAllocs + 1;
      nUntracked := nUntracked + 1;
    }

    /** Free gives an item in use back; it is the next to be handed out. */
    method Free(item: nat)
      requires Valid() && item in live
      modifies this
      ensures Valid() && live == old(live) - {item} && free == [item] + old(free)
      ensures currentAllocs == old(currentAllocs) - 1 && nUntracked == old(nUntracked)
      ensures nAllocs == old(nAllocs) && maxAllocs == old(maxAllocs)
    {
      currentAllocs := currentAllocs - 1;
      ghost var chain := next;
      next := next[item := root];
      ChainKept(chain, next, root, free);
      root := item;
      assert ([item] + free)[1..] == free;
      free := [item] + free;
      live := live - {item};
    }

    method SetTracked()
      requires Valid()
      modifies this`nUntracked
      ensures Valid() && nUntracked == old(nUntracked) - 1
    {
      nUntracked := nUntracked - 1;
    }
  }
}
