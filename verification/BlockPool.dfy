/** The block allocator (runtime/src/llm_engine/block_manager.rs, lines 10-165): a pool of
    reference-counted blocks and the ordered list of the free ones. */
module BlockPool {
  import opened Prelude

  datatype Status = Free | Used

  datatype Block = Block(refCnt: int, status: Status, tokens: seq<Token>, hash: Hash) {
    function Cleared(): Block { this.(tokens := [], hash := NoHash) }

    predicate SameContent(that: Block) { tokens == that.tokens && hash == that.hash }
  }

  datatype Pool = Pool(blocks: seq<Block>, free: seq<BlockId>) {
    function Used(): int { |blocks| - |free| }
  }

  /** The pool as `BlockAllocator::new` builds it. */
  function NewPool(n: nat): Pool {
    Pool(seq(n, _ => Block(0, Free, [], NoHash)), seq(n, i => i))
  }

  /** `can_alloc_blocks` with the watermark as a percentage, in exact arithmetic. */
  predicate CanAlloc(p: Pool, n: int, percent: nat) {
    p.Used() + n <= percent * |p.blocks| / 100
  }

  function AllocBlock(p: Pool): Outcome<(Pool, BlockId)> {
    if p.free == [] then Panic(Exhausted)
    else if p.free[0] >= |p.blocks| then Panic(OutOfBounds)
    else
      var id := p.free[0];
      var b := p.blocks[id];
      if b.status == Used || b.refCnt > 0 then Panic(AlreadyInUse)
      else Ok((Pool(p.blocks[id := b.(status := Used, refCnt := 1)], p.free[1..]), id))
  }

  function FreeBlock(p: Pool, id: BlockId): Outcome<Pool> {
    if id >= |p.blocks| then Panic(OutOfBounds)
    else
      var b := p.blocks[id];
      if b.status == Free && b.refCnt > 0 then Panic(DoubleFree)
      else if b.refCnt - 1 != 0 then Ok(p.(blocks := p.blocks[id := b.(refCnt := b.refCnt - 1)]))
      else if id in p.free then Panic(AlreadyInFreeList)
      else Ok(Pool(p.blocks[id := b.(refCnt := 0, status := Free)], p.free + [id]))
  }

  /** `alloc_block_by_id`: one more reference to a given block, taking it off the free list if needed. */
  function PinBlock(p: Pool, id: BlockId): Outcome<Pool> {
    if id >= |p.blocks| then Panic(OutOfBounds)
    else
      var b := p.blocks[id];
      if b.status == Free then
        if id !in p.free then Panic(BrokenFreeList)
        else Ok(Pool(p.blocks[id := b.(refCnt := b.refCnt + 1, status := Used)], Without(p.free, id)))
      else Ok(p.(blocks := p.blocks[id := b.(refCnt := b.refCnt + 1)]))
  }

  /** Removal from the linked hash set that holds the free ids. */
  function Without(s: seq<BlockId>, id: BlockId): (r: seq<BlockId>)
    ensures multiset(r) == multiset(s) - multiset{id}
    ensures |r| == if id in s then |s| - 1 else |s|
  {
    if s == [] then []
    else
      assert s == [s[0]] + s[1..];
      if s[0] == id then s[1..] else [s[0]] + Without(s[1..], id)
  }

  /** The allocator agrees with the references `held` by its owners: every count is the number of
      references, and the free list holds exactly the unreferenced blocks, each once. */
  ghost predicate PoolOk(p: Pool, held: multiset<BlockId>) {
    && (forall b :: b in held ==> b < |p.blocks|)
    && (forall b :: b in p.free ==> b < |p.blocks|)
    && (forall b :: 0 <= b < |p.blocks| ==> CountOk(p, held, b))
  }

  ghost predicate CountOk(p: Pool, held: multiset<BlockId>, b: BlockId)
    requires b < |p.blocks|
  {
    && p.blocks[b].refCnt == held[b]
    && (p.blocks[b].status == Free <==> held[b] == 0)
    && multiset(p.free)[b] == if held[b] == 0 then 1 else 0
  }

  lemma {:induction false} IdentityCounts(n: nat, b: nat)
    ensures multiset(seq(n, i => i))[b] == if b < n then 1 else 0
  {
    if n > 0 {
      IdentityCounts(n - 1, b);
      assert seq(n, i => i) == seq(n - 1, i => i) + [n - 1];
    }
  }

  lemma NewPoolOk(n: nat)
    ensures PoolOk(NewPool(n), multiset{})
  {
    forall b | 0 <= b < n
      ensures CountOk(NewPool(n), multiset{}, b)
    {
      IdentityCounts(n, b);
    }
  }

  /** `alloc_block` fails only on an empty free list; otherwise it hands out an unreferenced block,
      content untouched, and every other block is unaffected. */
  lemma AllocBlockSafe(p: Pool, held: multiset<BlockId>)
    requires PoolOk(p, held)
    ensures p.free == [] ==> AllocBlock(p) == Panic(Exhausted)
    ensures p.free != [] ==>
      AllocBlock(p).Ok? &&
      var (p', id) := AllocBlock(p).value;
      && id == p.free[0] && id < |p.blocks| && held[id] == 0
      && PoolOk(p', held + multiset{id})
      && |p'.blocks| == |p.blocks| && |p'.free| == |p.free| - 1
      && p'.blocks[id].SameContent(p.blocks[id])
      && forall b :: 0 <= b < |p.blocks| && b != id ==> p'.blocks[b] == p.blocks[b]
  {
    if p.free != [] {
      var id := p.free[0];
      assert p.free == [id] + p.free[1..];
      assert id in p.free;
      assert CountOk(p, held, id);
      var (p', _) := AllocBlock(p).value;
      forall b | 0 <= b < |p.blocks|
        ensures CountOk(p', held + multiset{id}, b)
      {
        assert CountOk(p, held, b);
      }
      forall b | b in p'.free
        ensures b < |p.blocks|
      {
        assert b in p.free;
      }
    }
  }

  /** Releasing a reference that is really held never panics and drops exactly that reference; the
      block joins the free list precisely when it was the last one. */
  lemma FreeBlockSafe(p: Pool, held: multiset<BlockId>, id: BlockId)
    requires PoolOk(p, held) && id in held
    ensures FreeBlock(p, id).Ok?
    ensures
      var p' := FreeBlock(p, id).value;
      && PoolOk(p', held - multiset{id})
      && |p'.blocks| == |p.blocks|
      && |p'.free| == |p.free| + (if held[id] == 1 then 1 else 0)
      && p'.blocks[id].SameContent(p.blocks[id])
      && forall b :: 0 <= b < |p.blocks| && b != id ==> p'.blocks[b] == p.blocks[b]
  {
    assert CountOk(p, held, id);
    assert multiset(p.free)[id] == 0;
    var p' := FreeBlock(p, id).value;
    forall b | 0 <= b < |p.blocks|
      ensures CountOk(p', held - multiset{id}, b)
    {
      assert CountOk(p, held, b);
    }
  }

  /** Pinning a block in the pool never panics, adds one reference, and takes the block off the free
      list precisely when it was unreferenced. */
  lemma PinBlockSafe(p: Pool, held: multiset<BlockId>, id: BlockId)
    requires PoolOk(p, held) && id < |p.blocks|
    ensures PinBlock(p, id).Ok?
    ensures
      var p' := PinBlock(p, id).value;
      && PoolOk(p', held + multiset{id})
      && |p'.blocks| == |p.blocks|
      && |p'.free| == |p.free| - (if held[id] == 0 then 1 else 0)
      && p'.blocks[id].SameContent(p.blocks[id])
      && forall b :: 0 <= b < |p.blocks| && b != id ==> p'.blocks[b] == p.blocks[b]
  {
    assert CountOk(p, held, id);
    var p' := PinBlock(p, id).value;
    forall b | 0 <= b < |p.blocks|
      ensures CountOk(p', held + multiset{id}, b)
    {
      assert CountOk(p, held, b);
    }
    forall b | b in p'.free
      ensures b < |p.blocks|
    {
      assert b in multiset(p'.free);
      assert b in p.free;
    }
  }

  /** The double-free assert alone does not protect the pool: an unreferenced block can be freed again
      without a panic, after which its count is negative and no owner multiset fits the pool. */
  lemma DoubleFreeGoesUnnoticed(p: Pool, held: multiset<BlockId>, id: BlockId)
    requires PoolOk(p, held) && id < |p.blocks| && held[id] == 0
    ensures FreeBlock(p, id).Ok?
    ensures forall h: multiset<BlockId> :: !PoolOk(FreeBlock(p, id).value, h)
  {
    assert CountOk(p, held, id);
    var p' := FreeBlock(p, id).value;
    forall h: multiset<BlockId>
      ensures !PoolOk(p', h)
    {
      assert !CountOk(p', h, id);
    }
  }

  /** A pool nobody refers to has all its blocks back on the free list. */
  lemma NoOwnersNoLeak(p: Pool)
    requires PoolOk(p, multiset{})
    ensures multiset(p.free) == multiset(seq(|p.blocks|, i => i))
    ensures |p.free| == |p.blocks|
  {
    var all := seq(|p.blocks|, i => i);
    forall b: BlockId
      ensures multiset(p.free)[b] == multiset(all)[b]
    {
      IdentityCounts(|p.blocks|, b);
      if b < |p.blocks| {
        assert CountOk(p, multiset{}, b);
      } else if b in p.free {
        assert false;
      }
    }
    assert multiset(p.free) == multiset(all);
    assert |p.free| == |multiset(p.free)| == |multiset(all)| == |all|;
  }
}
