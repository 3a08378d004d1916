/** The block manager as the objects of runtime/src/llm_engine/block_manager.rs: an allocator and a
    manager whose methods update their fields in place, each proved against the function of the same
    name on values. A method that returns `Panic` stands for a process that stops there, so it
    promises nothing about the fields it leaves. */
module BlockManagerClass {
  import opened Prelude
  import Pools = BlockPool
  import Spec = BlockManagerSpec
  import opened BlockPool
  import opened BlockManagerSpec

  class BlockAllocator {
    var blocks: seq<Block>
    var free: seq<BlockId>

    ghost function Model(): Pool
      reads this
    {
      Pool(blocks, free)
    }

    constructor (n: nat)
      ensures Model() == NewPool(n)
    {
      blocks := seq(n, _ => Block(0, Free, [], NoHash));
      free := seq(n, i => i);
    }

    method AllocBlock() returns (r: Outcome<BlockId>)
      modifies this
      ensures match Pools.AllocBlock(old(Model()))
        case Ok((p, id)) => r == Ok(id) && Model() == p && id < |blocks|
        case Panic(f) => r == Panic(f)
    {
      if free == [] {
        return Panic(Exhausted);
      }
      var id := free[0];
      free := free[1..];
      if id >= |blocks| {
        return Panic(OutOfBounds);
      }
      var b := blocks[id];
      if b.status == Used || b.refCnt > 0 {
        return Panic(AlreadyInUse);
      }
      blocks := blocks[id := b.(status := Used, refCnt := 1)];
      r := Ok(id);
    }

    method FreeBlock(id: BlockId) returns (r: Outcome<()>)
      modifies this
      ensures match Pools.FreeBlock(old(Model()), id)
        case Ok(p) => r == Ok(()) && Model() == p && id < |blocks|
        case Panic(f) => r == Panic(f)
    {
      if id >= |blocks| {
        return Panic(OutOfBounds);
      }
      var b := blocks[id];
      if b.status == Free && b.refCnt > 0 {
        return Panic(DoubleFree);
      }
      blocks := blocks[id := b.(refCnt := b.refCnt - 1)];
      if b.refCnt - 1 == 0 {
        blocks := blocks[id := blocks[id].(status := Free)];
        if id in free {
          return Panic(AlreadyInFreeList);
        }
        free := free + [id];
      }
      r := Ok(());
    }

    method AllocBlockById(id: BlockId) returns (r: Outcome<()>)
      modifies this
      ensures match PinBlock(old(Model()), id)
        case Ok(p) => r == Ok(()) && Model() == p && id < |blocks|
        case Panic(f) => r == Panic(f)
    {
      if id >= |blocks| {
        return Panic(OutOfBounds);
      }
      if blocks[id].status == Free {
        if id !in free {
          return Panic(BrokenFreeList);
        }
        free := Without(free, id);
        blocks := blocks[id := blocks[id].(status := Used)];
      }
      blocks := blocks[id := blocks[id].(refCnt := blocks[id].refCnt + 1)];
      r := Ok(());
    }
  }

  class BlockManager {
    const bs: BlockSize
    const allocator: BlockAllocator
    var table: map<Hash, BlockId>
    var maps: map<SeqId, BlockMap>
    var regions: map<RegionId, seq<BlockId>>

    ghost function Model(): Manager
      reads this, allocator
    {
      Manager(bs, allocator.Model(), table, maps, regions)
    }

    constructor (bs: BlockSize, n: nat)
      ensures Model() == NewManager(bs, n) && fresh(allocator)
    {
      this.bs := bs;
      allocator := new BlockAllocator(n);
      table, maps, regions := map[], map[], map[];
    }

    method LookupBlockId(h: Hash) returns (r: Option<BlockId>)
      ensures r == Lookup(Model(), h)
    {
      if h in table && table[h] < |allocator.blocks| && allocator.blocks[table[h]].hash == h {
        return Some(table[h]);
      }
      r := None;
    }

    method GetPrefixCacheBlocks(toks: seq<Token>) returns (ids: seq<BlockId>)
      ensures ids == Hits(Model(), toks)
    {
      ids := [];
      var off := 0;
      while off < |toks|
        invariant ids + HitsFrom(Model(), toks, off) == Hits(Model(), toks)
      {
        if off + bs > |toks| {
          break;
        }
        var hit := LookupBlockId(Of(toks[..off + bs]));
        if hit.None? {
          break;
        }
        ids := ids + [hit.value];
        off := off + bs;
      }
    }

    method GetPrefixCacheBlocksRange(toks: seq<Token>, start: nat, end: nat) returns (r: Outcome<(seq<BlockId>, nat)>)
      ensures r == RangeHits(Model(), toks, start, end)
    {
      var from := DivCeil(start, bs) * bs;
      var to := Min(end, |toks|);
      if from > to {
        return Panic(BadRange);
      }
      var ids := [];
      var off := from;
      while off < to
        invariant from <= off
        invariant ids + HitsFrom(Model(), toks[..to], off) == HitsFrom(Model(), toks[..to], from)
      {
        if off + bs > to {
          break;
        }
        assert toks[..to][..off + bs] == toks[..off + bs];
        var hit := LookupBlockId(Of(toks[..off + bs]));
        if hit.None? {
          break;
        }
        ids := ids + [hit.value];
        off := off + bs;
      }
      assert ids == HitsFrom(Model(), toks[..to], from);
      r := Ok((ids, from + |ids| * bs));
    }

    /** Put `tokens` into block `b`, and publish its hash if that fills it. */
    method WriteBlock(b: BlockId, tokens: seq<Token>, prefix: seq<Token>)
      requires b < |allocator.blocks|
      modifies this`table, allocator`blocks
      ensures Model() == old(Model()).Write(b, tokens, prefix)
    {
      var blk := allocator.blocks[b].(tokens := tokens);
      if |tokens| == bs {
        blk := blk.(hash := Of(prefix));
        table := table[Of(prefix) := b];
      }
      allocator.blocks := allocator.blocks[b := blk];
    }

    /** The first half of `alloc_blocks`. */
    method FillLastBlock(q: SeqId, toks: seq<Token>) returns (r: Outcome<nat>)
      requires Model().Slots(q) <= |toks|
      modifies this`table, allocator`blocks
      ensures match FillLast(old(Model()), q, toks)
        case Ok((m, off)) => r == Ok(off) && Model() == m
        case Panic(f) => r == Panic(f)
    {
      var slots := if q in maps then maps[q].slots else 0;
      if slots == 0 {
        return Ok(0);
      }
      if maps[q].ids == [] {
        return Panic(NoLastBlock);
      }
      var id := maps[q].ids[|maps[q].ids| - 1];
      if id >= |allocator.blocks| {
        return Panic(OutOfBounds);
      }
      var tokens := allocator.blocks[id].tokens;
      if |tokens| > bs {
        return Panic(Underflow);
      }
      var n := Min(bs - |tokens|, |toks| - slots);
      if n > 0 {
        WriteBlock(id, tokens + toks[slots..slots + n], toks[..slots + n]);
      }
      r := Ok(slots + n);
    }

    /** Replace the content of the newly allocated block `id` by the chunk of `toks` at `off`. */
    method RefreshBlock(id: BlockId, toks: seq<Token>, off: nat)
      requires id < |allocator.blocks| && off < |toks|
      modifies this`table, allocator`blocks
      ensures Model() == StoreChunk(old(Model()), id, toks, off)
    {
      var end := Min(off + bs, |toks|);
      table := table - {allocator.blocks[id].hash};
      allocator.blocks := allocator.blocks[id := allocator.blocks[id].Cleared()];
      WriteBlock(id, toks[off..end], toks[..end]);
    }

    /** The allocation loop of `alloc_blocks`. */
    method AllocFreshBlocks(toks: seq<Token>, start: nat) returns (r: Outcome<seq<BlockId>>)
      modifies this`table, allocator
      ensures match AllocFresh(old(Model()), toks, start, [])
        case Ok((m, ids)) => r == Ok(ids) && Model() == m
        case Panic(f) => r == Panic(f)
    {
      hide StoreChunk;
      var ids := [];
      var off := start;
      while off < |toks|
        invariant AllocFresh(Model(), toks, off, ids) == AllocFresh(old(Model()), toks, start, [])
        decreases |toks| - off
      {
        var got := allocator.AllocBlock();
        if got.Panic? {
          return Panic(got.fault);
        }
        RefreshBlock(got.value, toks, off);
        ids := ids + [got.value];
        off := off + bs;
      }
      r := Ok(ids);
    }

    method AllocBlocks(q: SeqId, toks: seq<Token>) returns (r: Outcome<nat>)
      modifies this`table, this`maps, allocator
      ensures match Spec.AllocBlocks(old(Model()), q, toks)
        case Ok((m, n)) => r == Ok(n) && Model() == m
        case Panic(f) => r == Panic(f)
    {
      hide FillLast, AllocFresh;
      var slots := if q in maps then maps[q].slots else 0;
      if |toks| < slots {
        return Panic(Underflow);
      }
      var added := |toks| - slots;
      var filled := FillLastBlock(q, toks);
      if filled.Panic? {
        return Panic(filled.fault);
      }
      var taken := AllocFreshBlocks(toks, filled.value);
      if taken.Panic? {
        return Panic(taken.fault);
      }
      var ids := taken.value;
      if q in maps {
        maps := maps[q := maps[q].(ids := maps[q].ids + ids, slots := maps[q].slots + added)];
      } else {
        maps := maps[q := BlockMap(ids, added, 0)];
      }
      r := Ok(added);
    }

    /** Pin the listed blocks one by one. */
    method PinBlocks(ids: seq<BlockId>) returns (r: Outcome<()>)
      modifies allocator
      ensures match PinAll(old(allocator.Model()), ids)
        case Ok(p) => r == Ok(()) && allocator.Model() == p
        case Panic(f) => r == Panic(f)
    {
      var i := 0;
      while i < |ids|
        invariant 0 <= i <= |ids|
        invariant PinAll(allocator.Model(), ids[i..]) == PinAll(old(allocator.Model()), ids)
      {
        assert ids[i..][0] == ids[i] && ids[i..][1..] == ids[i + 1..];
        var pinned := allocator.AllocBlockById(ids[i]);
        if pinned.Panic? {
          return Panic(pinned.fault);
        }
        i := i + 1;
      }
      r := Ok(());
    }

    method InitPrefixCacheBlocks(q: SeqId, toks: seq<Token>) returns (r: Outcome<nat>)
      modifies this`maps, allocator
      ensures match InitPrefix(old(Model()), q, toks)
        case Ok((m, n)) => r == Ok(n) && Model() == m
        case Panic(f) => r == Panic(f)
    {
      if q in maps {
        return Ok(0);
      }
      var ids := GetPrefixCacheBlocks(toks);
      var pinned := PinBlocks(ids);
      if pinned.Panic? {
        return Panic(pinned.fault);
      }
      var n := |ids| * bs;
      maps := maps[q := BlockMap(ids, n, n)];
      r := Ok(n);
    }

    method UpdatePrefixCacheBlocks(q: SeqId, toks: seq<Token>) returns (r: Outcome<nat>)
      modifies this`maps, allocator
      ensures match UpdatePrefix(old(Model()), q, toks)
        case Ok((m, n)) => r == Ok(n) && Model() == m
        case Panic(f) => r == Panic(f)
    {
      if q !in maps {
        r := InitPrefixCacheBlocks(q, toks);
        return;
      }
      var bm := maps[q];
      var found := GetPrefixCacheBlocksRange(toks, bm.filled, |toks|);
      if found.Panic? {
        return Panic(found.fault);
      }
      var ids := found.value.0;
      var pinned := PinBlocks(ids);
      if pinned.Panic? {
        return Panic(pinned.fault);
      }
      var n := bm.filled + |ids| * bs;
      maps := maps[q := BlockMap(bm.ids + ids, n, n)];
      r := Ok(n - bm.filled);
    }

    method ReserveBlocks(toks: seq<Token>, start: nat, rid: RegionId) returns (r: Outcome<Option<Region>>)
      modifies this`regions, allocator
      ensures match Reserve(old(Model()), toks, start, rid)
        case Ok((m, region)) => r == Ok(region) && Model() == m
        case Panic(f) => r == Panic(f)
    {
      var from := (start / bs) * bs;
      WholeIsDiv(start, bs);
      OffsetIsProduct(start / bs, bs);
      var off := from;
      var acc := Region(rid, [], []);
      while off + bs <= |toks|
        invariant table == old(table) && maps == old(maps) && regions == old(regions)
        invariant ReserveFrom(Model(), toks, off, acc) == ReserveFrom(old(Model()), toks, from, Region(rid, [], []))
        decreases |toks| - off
      {
        var got := allocator.AllocBlock();
        if got.Panic? {
          return Panic(got.fault);
        }
        var id := got.value;
        var h := Of(toks[..off + bs]);
        allocator.blocks := allocator.blocks[id := allocator.blocks[id].(tokens := toks[off..off + bs], hash := h)];
        acc := acc.(ids := acc.ids + [id], hashes := acc.hashes + [h]);
        off := off + bs;
      }
      if acc.ids == [] {
        return Ok(None);
      }
      regions := regions[rid := acc.ids];
      r := Ok(Some(acc));
    }

    method ActivateReservedBlocks(rid: RegionId, hashes: seq<Hash>) returns (r: Outcome<nat>)
      modifies this`table, this`regions, allocator
      ensures match Activate(old(Model()), rid, hashes)
        case Ok((m, n)) => r == Ok(n) && Model() == m
        case Panic(f) => r == Panic(f)
    {
      if rid !in regions {
        return Ok(0);
      }
      var ids := regions[rid];
      regions := regions - {rid};
      var wanted := set h | h in hashes;
      var activated := 0;
      ghost var m0 := Model();
      var i := 0;
      while i < |ids|
        invariant 0 <= i <= |ids|
        invariant maps == m0.maps && regions == m0.regions
        invariant ActivateAll(Model(), ids[i..], wanted, activated) == ActivateAll(m0, ids, wanted, 0)
      {
        assert ids[i..][0] == ids[i] && ids[i..][1..] == ids[i + 1..];
        var id := ids[i];
        if id >= |allocator.blocks| {
          return Panic(OutOfBounds);
        }
        var h := allocator.blocks[id].hash;
        if h in wanted {
          if h !in table {
            table := table[h := id];
          }
          activated := activated + 1;
        }
        var freed := allocator.FreeBlock(id);
        if freed.Panic? {
          return Panic(freed.fault);
        }
        i := i + 1;
      }
      r := Ok(activated);
    }

    method PinBlocksByHashes(hashes: seq<Hash>, rid: RegionId) returns (r: Outcome<Region>)
      modifies this`regions, allocator
      ensures match PinHashes(old(Model()), hashes, rid)
        case Ok((m, region)) => r == Ok(region) && Model() == m
        case Panic(f) => r == Panic(f)
    {
      var acc := Region(rid, [], []);
      var i := 0;
      while i < |hashes|
        invariant 0 <= i <= |hashes|
        invariant table == old(table) && maps == old(maps) && regions == old(regions)
        invariant PinHashesFrom(Model(), hashes[i..], acc) == PinHashesFrom(old(Model()), hashes, Region(rid, [], []))
      {
        assert hashes[i..][0] == hashes[i] && hashes[i..][1..] == hashes[i + 1..];
        var hit := LookupBlockId(hashes[i]);
        if hit.None? {
          break;
        }
        var pinned := allocator.AllocBlockById(hit.value);
        if pinned.Panic? {
          return Panic(pinned.fault);
        }
        acc := acc.(ids := acc.ids + [hit.value], hashes := acc.hashes + [hashes[i]]);
        i := i + 1;
      }
      regions := regions[rid := acc.ids];
      r := Ok(acc);
    }

    method UnpinBlocks(rid: RegionId) returns (r: Outcome<nat>)
      modifies this`regions, allocator
      ensures match Unpin(old(Model()), rid)
        case Ok((m, n)) => r == Ok(n) && Model() == m
        case Panic(f) => r == Panic(f)
    {
      if rid !in regions {
        return Ok(0);
      }
      var ids := regions[rid];
      regions := regions - {rid};
      var i := 0;
      while i < |ids|
        invariant 0 <= i <= |ids|
        invariant regions == old(regions) - {rid}
        invariant UnpinAll(allocator.Model(), ids[i..]) == UnpinAll(old(allocator.Model()), ids)
      {
        assert ids[i..][0] == ids[i] && ids[i..][1..] == ids[i + 1..];
        var freed := allocator.FreeBlock(ids[i]);
        if freed.Panic? {
          return Panic(freed.fault);
        }
        i := i + 1;
      }
      r := Ok(|ids|);
    }

    method UpdateFilledLen(q: SeqId, n: nat) returns (r: Outcome<()>)
      modifies this`maps
      ensures match UpdateFilled(old(Model()), q, n)
        case Ok(m) => r == Ok(()) && Model() == m
        case Panic(f) => r == Panic(f)
    {
      if q in maps {
        if n > maps[q].slots {
          return Panic(FilledPastSlots);
        }
        maps := maps[q := maps[q].(filled := n)];
      }
      r := Ok(());
    }

    /** `free`, and `free_and_drop_cache` when `all` holds. */
    method Free(q: SeqId, all: bool) returns (r: Outcome<()>)
      modifies this`table, this`maps, allocator
      ensures match FreeSeq(old(Model()), q, all)
        case Ok(m) => r == Ok(()) && Model() == m
        case Panic(f) => r == Panic(f)
    {
      if q !in maps {
        return Ok(());
      }
      var bm := maps[q];
      maps := maps - {q};
      ghost var m0 := Model();
      var cnt: nat := 0;
      var i := 0;
      while i < |bm.ids|
        invariant 0 <= i <= |bm.ids|
        invariant maps == m0.maps && regions == m0.regions
        invariant FreeAll(Model(), bm.ids[i..], cnt, bm.filled, all) == FreeAll(m0, bm.ids, 0, bm.filled, all)
      {
        assert bm.ids[i..][0] == bm.ids[i] && bm.ids[i..][1..] == bm.ids[i + 1..];
        var id := bm.ids[i];
        var freed := allocator.FreeBlock(id);
        if freed.Panic? {
          return Panic(freed.fault);
        }
        cnt := cnt + bs;
        if (all || cnt > bm.filled) && allocator.blocks[id].refCnt == 0 {
          table := table - {allocator.blocks[id].hash};
          allocator.blocks := allocator.blocks[id := allocator.blocks[id].Cleared()];
        }
        i := i + 1;
      }
      r := Ok(());
    }

    method ClearCache()
      modifies this`table
      ensures Model() == Spec.ClearCache(old(Model()))
    {
      table := map[];
    }
  }
}
