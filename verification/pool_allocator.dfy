/** The free-list block allocator of pool_allocator.c.

    The free blocks form a chain of indices threaded through `free_list`. The
    ghost field `Chain` lists them in the order in which they will be handed out
    and determines the whole bookkeeping (`Links`). */
module PoolAllocator {
  import opened Seqs

  const NULL_IDX := -1
  const DETACHED_IDX := -2
  const SIZEOF_INT := 4

  datatype PoolResult = Success | NotEnoughMemory | UnalignedFree | OutOfRange | DoubleFree

  /** A duplicate-free chain of indices below `n`. */
  ghost predicate ChainOk(chain: seq<int>, n: nat) {
    && NoDup(chain)
    && forall i :: 0 <= i < |chain| ==> 0 <= chain[i] < n
  }

  function Head(chain: seq<int>): int {
    if chain == [] then NULL_IDX else chain[0]
  }

  /** The index stored behind `j`: its successor in the chain, or the detached mark. */
  function LinkOf(chain: seq<int>, j: int): int {
    if chain == [] then DETACHED_IDX
    else if chain[0] == j then Head(chain[1..])
    else LinkOf(chain[1..], j)
  }

  /** The contents of the bookkeeping array for a given chain. */
  function Links(chain: seq<int>, n: nat): (links: seq<int>)
    ensures |links| == n
    ensures forall j :: 0 <= j < n ==> links[j] == LinkOf(chain, j)
  {
    seq(n, j => LinkOf(chain, j))
  }

  /** A link is the detached mark exactly for the indices that are not in the chain. */
  lemma {:induction false} DetachedIffNotFree(chain: seq<int>, n: nat, j: int)
    requires ChainOk(chain, n)
    ensures LinkOf(chain, j) == DETACHED_IDX <==> j !in chain
  {
    if chain != [] {
      var rest := chain[1..];
      assert ChainOk(rest, n) by {
        assert forall i :: 0 <= i < |rest| ==> rest[i] == chain[i + 1];
      }
      DetachedIffNotFree(rest, n, j);
      if chain[0] == j && rest != [] {
        assert rest[0] == chain[1];
      }
    }
  }

  /** Following the links from the k-th free block reaches the next one, and the last
      one ends in the null index: the chain is acyclic and terminated. */
  lemma {:induction false} LinkFollowsChain(chain: seq<int>, n: nat, k: nat)
    requires ChainOk(chain, n) && k < |chain|
    ensures LinkOf(chain, chain[k]) == if k + 1 < |chain| then chain[k + 1] else NULL_IDX
  {
    var rest := chain[1..];
    if k > 0 {
      assert forall i :: 0 <= i < |rest| ==> rest[i] == chain[i + 1];
      assert ChainOk(rest, n);
      LinkFollowsChain(rest, n, k - 1);
      assert chain[0] != chain[k];
    }
  }

  /** Marking the head as detached is the bookkeeping of the chain without its head. */
  lemma LinksOfTail(chain: seq<int>, n: nat)
    requires ChainOk(chain, n) && chain != []
    ensures ChainOk(chain[1..], n)
    ensures Links(chain[1..], n) == Links(chain, n)[chain[0] := DETACHED_IDX]
  {
    var rest := chain[1..];
    assert forall i :: 0 <= i < |rest| ==> rest[i] == chain[i + 1];
    DetachedIffNotFree(rest, n, chain[0]);
  }

  /** Linking a detached index to the old head is the bookkeeping of the longer chain. */
  lemma LinksOfPush(chain: seq<int>, n: nat, idx: int)
    requires ChainOk(chain, n) && 0 <= idx < n && idx !in chain
    ensures ChainOk([idx] + chain, n)
    ensures Links([idx] + chain, n) == Links(chain, n)[idx := Head(chain)]
  {
    assert ([idx] + chain)[1..] == chain;
  }

  /** The chain of a freshly initialised pool: 0, 1, ..., n - 1. */
  function Ascending(from: nat, n: nat): (r: seq<int>)
    requires from <= n
    ensures |r| == n - from
    ensures forall i :: 0 <= i < |r| ==> r[i] == from + i
  {
    seq(n - from, i => from + i)
  }

  lemma {:induction false} AscendingLinks(from: nat, n: nat, j: nat)
    requires from <= n
    ensures LinkOf(Ascending(from, n), j)
         == if from <= j < n - 1 then j + 1 else if from <= j == n - 1 then NULL_IDX else DETACHED_IDX
    decreases n - from
  {
    if from < n {
      AscendingLinks(from + 1, n, j);
      assert Ascending(from, n)[1..] == Ascending(from + 1, n);
    }
  }

  class Pool {
    var buffer: int
    var free_list: array<int>
    var buffer_size: int
    var size: int
    var size_max: int
    var item_size: int
    var first_idx: int
    ghost var Chain: seq<int>

    ghost predicate Valid()
      reads this, free_list
    {
      && buffer > 0 && item_size > 0 && size_max > 0
      && buffer_size == item_size * size_max
      && free_list.Length == size_max
      && ChainOk(Chain, size_max)
      && size == |Chain|
      && first_idx == Head(Chain)
      && free_list[..] == Links(Chain, size_max)
    }

    /** The address of block `idx`. */
    ghost function Address(idx: int): int
      reads this
    {
      buffer + idx * item_size
    }

    constructor ()
    {
      free_list := new int[0];
    }

    /** PoolAllocator_init, for a non-null memory block and positive sizes. */
    method Init(item_size: int, num_items: int, memory_block: int, memory_size: int) returns (res: PoolResult)
      requires item_size > 0 && num_items > 0 && memory_block > 0
      modifies this
      ensures res == if memory_size < num_items * (item_size + SIZEOF_INT) then NotEnoughMemory else Success
      ensures res == NotEnoughMemory ==> unchanged(this)
      ensures res == Success ==> Valid() && fresh(free_list) && Chain == Ascending(0, num_items)
      ensures res == Success ==> buffer == memory_block && this.item_size == item_size && size_max == num_items
    {
      var requested_size := num_items * (item_size + SIZEOF_INT);
      if memory_size < requested_size { return NotEnoughMemory; }
      this.item_size := item_size;
      size := num_items;
      buffer_size := item_size * num_items;
      size_max := num_items;
      buffer := memory_block;
      free_list := new int[num_items];
      var i := 0;
      while i < size - 1
        invariant 0 <= i <= size - 1
        invariant size == num_items && free_list.Length == num_items && fresh(free_list)
        invariant this.item_size == item_size && buffer_size == item_size * num_items
        invariant size_max == num_items && buffer == memory_block
        invariant forall j :: 0 <= j < i ==> free_list[j] == j + 1
        modifies free_list
      {
        free_list[i] := i + 1;
        i := i + 1;
      }
      free_list[size - 1] := NULL_IDX;
      first_idx := 0;
      Chain := Ascending(0, num_items);
      forall j | 0 <= j < num_items ensures free_list[j] == LinkOf(Chain, j) {
        AscendingLinks(0, num_items, j);
      }
      assert free_list[..] == Links(Chain, num_items);
      return Success;
    }

    /** PoolAllocator_getBlock: fails, with the null address, exactly when every block is
        out; otherwise hands out the head of the chain. */
    method GetBlock() returns (block: int)
      requires Valid()
      modifies this`first_idx, this`size, this`Chain, free_list
      ensures Valid() && free_list == old(free_list)
      ensures old(Chain) == [] ==> block == 0 && Chain == []
      ensures old(Chain) != [] ==> block == Address(old(Chain)[0]) && block != 0 && Chain == old(Chain)[1..]
    {
      if first_idx == NULL_IDX {
        return 0;
      }
      LinksOfTail(Chain, size_max);
      LinkFollowsChain(Chain, size_max, 0);
      var detached_idx := first_idx;
      first_idx := free_list[first_idx];
      size := size - 1;
      free_list[detached_idx] := DETACHED_IDX;
      block := buffer + detached_idx * item_size;
      AddressPositive(buffer, item_size, detached_idx);
      Chain := Chain[1..];
    }

    /** PoolAllocator_releaseBlock. The four outcomes are decided in this order: not on a
        block boundary, outside the pool, already free, accepted. Only the last one
        changes anything: the block becomes the head of the chain. */
    method ReleaseBlock(block: int) returns (res: PoolResult)
      requires Valid()
      modifies this`first_idx, this`size, this`Chain, free_list
      ensures Valid() && free_list == old(free_list)
      ensures res == ReleaseOutcome(old(Chain), size_max, block - buffer, item_size)
      ensures res != Success ==> unchanged(this) && unchanged(free_list)
      ensures res == Success ==> Chain == [(block - buffer) / item_size] + old(Chain)
    {
      var offset := block - buffer;
      if offset % item_size != 0 { return UnalignedFree; }
      var idx := offset / item_size;
      if idx < 0 || idx >= size_max { return OutOfRange; }
      DetachedIffNotFree(Chain, size_max, idx);
      if free_list[idx] != DETACHED_IDX { return DoubleFree; }
      LinksOfPush(Chain, size_max, idx);
      free_list[idx] := first_idx;
      first_idx := idx;
      size := size + 1;
      Chain := [idx] + Chain;
      return Success;
    }

    /** Handing a block out and taking it back restores every field and every link. */
    method GetThenRelease() returns (block: int)
      requires Valid() && Chain != []
      modifies this`first_idx, this`size, this`Chain, free_list
      ensures Valid() && free_list == old(free_list) && free_list[..] == old(free_list[..])
      ensures first_idx == old(first_idx) && size == old(size) && Chain == old(Chain)
    {
      ghost var idx := Chain[0];
      block := GetBlock();
      AddressRoundTrip(buffer, item_size, idx);
      var res := ReleaseBlock(block);
      assert Chain == old(Chain);
    }

    /** Taking a block back and asking for one returns that block and restores the pool. */
    method ReleaseThenGet(block: int) returns (again: int)
      requires Valid() && ReleaseOutcome(Chain, size_max, block - buffer, item_size) == Success
      modifies this`first_idx, this`size, this`Chain, free_list
      ensures again == block
      ensures Valid() && free_list == old(free_list) && free_list[..] == old(free_list[..])
      ensures first_idx == old(first_idx) && size == old(size) && Chain == old(Chain)
    {
      var res := ReleaseBlock(block);
      assert (block - buffer) == (block - buffer) / item_size * item_size;
      again := GetBlock();
      assert Chain == old(Chain);
    }
  }

  /** What releasing the address `offset` bytes into the pool answers. */
  ghost function ReleaseOutcome(chain: seq<int>, n: int, offset: int, item_size: int): PoolResult
    requires item_size > 0
  {
    if offset % item_size != 0 then UnalignedFree
    else if !(0 <= offset / item_size < n) then OutOfRange
    else if offset / item_size in chain then DoubleFree
    else Success
  }

  lemma AddressPositive(buffer: int, item_size: int, idx: int)
    requires buffer > 0 && item_size > 0 && idx >= 0
    ensures buffer + idx * item_size > 0
  {
    assert idx * item_size >= 0;
  }

  lemma AddressRoundTrip(buffer: int, item_size: int, idx: int)
    requires item_size > 0
    ensures (buffer + idx * item_size - buffer) % item_size == 0
    ensures (buffer + idx * item_size - buffer) / item_size == idx
  {
    var o := idx * item_size;
    assert o % item_size == 0 && o / item_size == idx by {
      DivOfProduct(idx, item_size);
    }
  }

  lemma DivOfProduct(a: int, d: int)
    requires d > 0
    ensures a * d % d == 0 && a * d / d == a
  {
    var x := a * d;
    var q, r := x / d, x % d;
    assert (a - q) * d == r by {
      assert x == q * d + r;
      assert (a - q) * d == a * d - q * d;
    }
    MultipleIsLarge(a - q, d);
  }

  lemma MultipleIsLarge(k: int, d: int)
    requires d > 0
    ensures k > 0 ==> k * d >= d
    ensures k < 0 ==> k * d <= -d
  {
    if k > 0 { assert (k - 1) * d >= 0; }
    if k < 0 { assert (-k - 1) * d >= 0; }
  }

  /** A release is accepted exactly for the address of a block that is out. */
  lemma ReleaseAcceptsOutstanding(chain: seq<int>, n: nat, buffer: int, item_size: int, block: int)
    requires ChainOk(chain, n) && item_size > 0
    ensures ReleaseOutcome(chain, n, block - buffer, item_size) == Success
       <==> exists idx :: 0 <= idx < n && idx !in chain && block == buffer + idx * item_size
  {
    if ReleaseOutcome(chain, n, block - buffer, item_size) == Success {
      var idx := (block - buffer) / item_size;
      assert block == buffer + idx * item_size;
    }
    if exists idx :: 0 <= idx < n && idx !in chain && block == buffer + idx * item_size {
      var idx :| 0 <= idx < n && idx !in chain && block == buffer + idx * item_size;
      AddressRoundTrip(buffer, item_size, idx);
    }
  }

  /** Two different blocks share no byte, and no block reaches into the bookkeeping area,
      which starts right behind the last block. */
  lemma BlocksAreDisjoint(buffer: int, item_size: int, n: nat, i: nat, j: nat)
    requires item_size > 0 && i < j < n
    ensures buffer <= buffer + i * item_size
    ensures buffer + i * item_size + item_size <= buffer + j * item_size
    ensures buffer + j * item_size + item_size <= buffer + n * item_size
  {
    BlockBehind(i, j, item_size);
    BlockBehind(j, n, item_size);
  }

  lemma {:induction false} BlockBehind(i: nat, j: nat, size: int)
    requires size > 0 && i < j
    ensures 0 <= i * size && i * size + size <= j * size
  {
    assert j * size == (j - 1) * size + size;
    if i < j - 1 { BlockBehind(i, j - 1, size); }
  }

  // Every history of an allocator, from initialisation on.

  datatype Request = Get | Release(block: int)

  /** The blocks that are out after a history, told by the callers' side alone: a block is
      out from the get that returned it until a release of its address is accepted. */
  datatype Ledger = Ledger(chain: seq<int>, out: seq<int>)

  function Serve(l: Ledger, n: nat, buffer: int, item_size: int, req: Request): Ledger
    requires item_size > 0
  {
    match req
    case Get =>
      if l.chain == [] then l else Ledger(l.chain[1..], [l.chain[0]] + l.out)
    case Release(block) =>
      var offset := block - buffer;
      if offset % item_size == 0 && offset / item_size in l.out
      then Ledger([offset / item_size] + l.chain, Without(l.out, {offset / item_size}))
      else l
  }

  function History(n: nat, buffer: int, item_size: int, reqs: seq<Request>): Ledger
    requires item_size > 0
  {
    if reqs == [] then Ledger(Ascending(0, n), [])
    else Serve(History(n, buffer, item_size, reqs[..|reqs| - 1]), n, buffer, item_size, reqs[|reqs| - 1])
  }

  /** The chain is sound, no block is out twice, and the blocks that are out are exactly those
      missing from the chain. */
  ghost predicate LedgerOk(l: Ledger, n: nat) {
    ChainOk(l.chain, n) && ChainOk(l.out, n) && forall idx :: 0 <= idx < n ==> (idx in l.chain <==> idx !in l.out)
  }

  /** So it is after every history. Hence `ReleaseBlock` accepts a
      release exactly when `Serve` does, and a get fails only when all `n` are out. */
  lemma {:induction false} HistoryInvariant(n: nat, buffer: int, item_size: int, reqs: seq<Request>)
    requires item_size > 0
    ensures LedgerOk(History(n, buffer, item_size, reqs), n)
  {
    if reqs != [] {
      var shorter := reqs[..|reqs| - 1];
      HistoryInvariant(n, buffer, item_size, shorter);
      ServeKeeps(History(n, buffer, item_size, shorter), n, buffer, item_size, reqs[|reqs| - 1]);
    } else {
      forall idx | 0 <= idx < n ensures idx in Ascending(0, n) { assert Ascending(0, n)[idx] == idx; }
    }
  }

  lemma ServeKeeps(l: Ledger, n: nat, buffer: int, item_size: int, req: Request)
    requires item_size > 0
    requires LedgerOk(l, n)
    ensures LedgerOk(Serve(l, n, buffer, item_size, req), n)
  {
    match req
    case Get =>
      if l.chain != [] {
        var rest := l.chain[1..];
        assert l.chain == [l.chain[0]] + rest;
        assert forall i :: 0 <= i < |rest| ==> rest[i] == l.chain[i + 1];
        assert l.chain[0] !in l.out;
      }
    case Release(block) =>
      var idx := (block - buffer) / item_size;
      if (block - buffer) % item_size == 0 && idx in l.out {
        var rest := Without(l.out, {idx});
        assert forall j :: j in rest <==> j in l.out && j != idx;
        assert forall i :: 0 <= i < |rest| ==> rest[i] in rest;
      }
  }

  /** The caller's view of a release agrees with the allocator's answer. */
  lemma ReleaseAgrees(l: Ledger, n: nat, buffer: int, item_size: int, block: int)
    requires item_size > 0
    requires LedgerOk(l, n)
    ensures ReleaseOutcome(l.chain, n, block - buffer, item_size) == Success
       <==> Serve(l, n, buffer, item_size, Release(block)) != l
  {
    var offset := block - buffer;
    if offset % item_size == 0 && offset / item_size in l.out {
      var longer := [offset / item_size] + l.chain;
      assert |longer| == |l.chain| + 1;
    }
  }

  /** What the allocator answers to a request, in terms of the ledger. */
  datatype Answer = Address(block: int) | Outcome(res: PoolResult)

  function AnswerTo(l: Ledger, n: nat, buffer: int, item_size: int, req: Request): Answer
    requires item_size > 0
  {
    match req
    case Get => Address(if l.chain == [] then 0 else buffer + l.chain[0] * item_size)
    case Release(block) =>
      var offset := block - buffer;
      Outcome(if offset % item_size != 0 then UnalignedFree
              else if !(0 <= offset / item_size < n) then OutOfRange
              else if offset / item_size in l.out then Success
              else DoubleFree)
  }

  /** The answers to a sequence of requests, from initialisation on. */
  function Answers(n: nat, buffer: int, item_size: int, reqs: seq<Request>): (r: seq<Answer>)
    requires item_size > 0
    ensures |r| == |reqs|
  {
    if reqs == [] then []
    else
      var last := |reqs| - 1;
      Answers(n, buffer, item_size, reqs[..last])
      + [AnswerTo(History(n, buffer, item_size, reqs[..last]), n, buffer, item_size, reqs[last])]
  }

  /** History and answers after one more request. */
  lemma OneMore(n: nat, buffer: int, item_size: int, reqs: seq<Request>, i: nat)
    requires item_size > 0 && i < |reqs|
    ensures var l := History(n, buffer, item_size, reqs[..i]);
            && LedgerOk(l, n)
            && History(n, buffer, item_size, reqs[..i + 1]) == Serve(l, n, buffer, item_size, reqs[i])
            && Answers(n, buffer, item_size, reqs[..i + 1]) ==
                 Answers(n, buffer, item_size, reqs[..i]) + [AnswerTo(l, n, buffer, item_size, reqs[i])]
  {
    HistoryInvariant(n, buffer, item_size, reqs[..i]);
    assert reqs[..i + 1][..i] == reqs[..i];
  }

  /** The pool's chain is that of the ledger. */
  ghost predicate Follows(pool: Pool, l: Ledger)
    reads pool, pool.free_list
  {
    pool.Valid() && l.chain == pool.Chain && LedgerOk(l, pool.size_max)
  }

  /** One request to a pool whose chain is that of the ledger. */
  method Handle(pool: Pool, req: Request, ghost l: Ledger) returns (a: Answer)
    requires Follows(pool, l)
    modifies pool`first_idx, pool`size, pool`Chain, pool.free_list
    ensures pool.free_list == old(pool.free_list)
    ensures a == AnswerTo(l, pool.size_max, pool.buffer, pool.item_size, req)
    ensures Follows(pool, Serve(l, pool.size_max, pool.buffer, pool.item_size, req))
  {
    ServeKeeps(l, pool.size_max, pool.buffer, pool.item_size, req);
    match req
    case Get =>
      var block := pool.GetBlock();
      a := Address(block);
    case Release(block) =>
      var res := pool.ReleaseBlock(block);
      a := Outcome(res);
  }

  /** The allocator behaves as the ledger says over every sequence of requests: it hands out
      the blocks of the ledger's chain and accepts the releases that the ledger accepts. */
  method Play(pool: Pool, reqs: seq<Request>) returns (answers: seq<Answer>)
    requires pool.Valid() && pool.Chain == Ascending(0, pool.size_max)
    modifies pool`first_idx, pool`size, pool`Chain, pool.free_list
    ensures Follows(pool, History(pool.size_max, pool.buffer, pool.item_size, reqs))
    ensures answers == Answers(pool.size_max, pool.buffer, pool.item_size, reqs)
  {
    ghost var n, buffer, item_size := pool.size_max, pool.buffer, pool.item_size;
    answers := [];
    HistoryInvariant(n, buffer, item_size, []);
    while |answers| < |reqs|
      invariant |answers| <= |reqs| && pool.free_list == old(pool.free_list)
      invariant Follows(pool, History(n, buffer, item_size, reqs[..|answers|]))
      invariant answers == Answers(n, buffer, item_size, reqs[..|answers|])
      decreases |reqs| - |answers|
    {
      OneMore(n, buffer, item_size, reqs, |answers|);
      var a := Handle(pool, reqs[|answers|], History(n, buffer, item_size, reqs[..|answers|]));
      answers := answers + [a];
    }
    assert reqs[..|reqs|] == reqs;
  }
}
