/** The block manager of one device (runtime/src/llm_engine/block_manager.rs, lines 167-706) as
    functions on values. Every panic of the source is an explicit `Panic` outcome, but for two reads, in
    `Lookup` and `BlockRange`, of a block that a table names: the invariant keeps those in the pool. */
module BlockManagerSpec {
  import opened Prelude
  import opened BlockPool

  /** The blocks of one sequence: `slots` tokens are written to them, the key/value state of the
      first `filled` ones is computed. */
  datatype BlockMap = BlockMap(ids: seq<BlockId>, slots: nat, filled: nat)

  /** A reserved or pinned list of blocks with their hashes. */
  datatype Region = Region(id: RegionId, ids: seq<BlockId>, hashes: seq<Hash>)

  datatype Manager = Manager(
    bs: BlockSize,
    pool: Pool,
    table: map<Hash, BlockId>,
    maps: map<SeqId, BlockMap>,
    regions: map<RegionId, seq<BlockId>>)
  {
    function Filled(q: SeqId): nat { if q in maps then maps[q].filled else 0 }

    function Slots(q: SeqId): nat { if q in maps then maps[q].slots else 0 }

    function SetBlock(b: BlockId, blk: Block): Manager
      requires b < |pool.blocks|
    {
      this.(pool := pool.(blocks := pool.blocks[b := blk]))
    }

    /** Put `tokens` into block `b`; a block that becomes full is hashed and published. */
    function Write(b: BlockId, tokens: seq<Token>, prefix: seq<Token>): Manager
      requires b < |pool.blocks|
    {
      if |tokens| == bs then
        SetBlock(b, pool.blocks[b].(tokens := tokens, hash := Of(prefix))).(table := table[Of(prefix) := b])
      else
        SetBlock(b, pool.blocks[b].(tokens := tokens))
    }

    /** Forget the content of block `b` and the table entry of its hash. */
    function Forget(b: BlockId): Manager
      requires b < |pool.blocks|
    {
      SetBlock(b, pool.blocks[b].Cleared()).(table := table - {pool.blocks[b].hash})
    }
  }

  function NewManager(bs: BlockSize, n: nat): Manager {
    Manager(bs, NewPool(n), map[], map[], map[])
  }

  // ---------------------------------------------------------------- prefix cache

  function Lookup(m: Manager, h: Hash): Option<BlockId> {
    if h in m.table && m.table[h] < |m.pool.blocks| && m.pool.blocks[m.table[h]].hash == h
    then Some(m.table[h])
    else None
  }

  /** The cached block of the chunk of `toks` at offset `at`; only full chunks are looked up. */
  function HitAt(m: Manager, toks: seq<Token>, at: nat): Option<BlockId> {
    if at + m.bs <= |toks| then Lookup(m, Of(toks[..at + m.bs])) else None
  }

  /** The consecutive cache hits of `toks` from offset `off` on. */
  function HitsFrom(m: Manager, toks: seq<Token>, off: nat): seq<BlockId>
    decreases |toks| - off
  {
    if HitAt(m, toks, off).Some?
    then [HitAt(m, toks, off).value] + HitsFrom(m, toks, off + m.bs)
    else []
  }

  /** `get_prefix_cache_blocks` */
  function Hits(m: Manager, toks: seq<Token>): seq<BlockId>
  {
    HitsFrom(m, toks, 0)
  }

  /** `get_prefix_cache_blocks_range` */
  function RangeHits(m: Manager, toks: seq<Token>, start: nat, end: nat): Outcome<(seq<BlockId>, nat)>
  {
    var from := DivCeil(start, m.bs) * m.bs;
    var to := Min(end, |toks|);
    if from > to then Panic(BadRange)
    else
      var ids := HitsFrom(m, toks[..to], from);
      Ok((ids, from + |ids| * m.bs))
  }

  // ---------------------------------------------------------------- capacity

  /** `get_num_required_blocks` */
  function Required(m: Manager, q: SeqId, toks: seq<Token>): Outcome<nat>
  {
    var total := DivCeil(|toks|, m.bs);
    var have := if q in m.maps then |m.maps[q].ids| else |Hits(m, toks)|;
    if total < have then Panic(Underflow) else Ok(total - have)
  }

  /** `get_num_allocated_unique_blocks`, on the id list. */
  function CountUnique(blocks: seq<Block>, ids: seq<BlockId>): nat {
    if ids == [] then 0
    else (if ids[0] < |blocks| && blocks[ids[0]].refCnt == 1 then 1 else 0) + CountUnique(blocks, ids[1..])
  }

  function Unique(m: Manager, q: SeqId): nat {
    if q in m.maps then CountUnique(m.pool.blocks, m.maps[q].ids) else 0
  }

  // ---------------------------------------------------------------- allocation

  /** First half of `alloc_blocks`: top up the last block of the sequence. */
  function FillLast(m: Manager, q: SeqId, toks: seq<Token>): Outcome<(Manager, nat)>
    requires m.Slots(q) <= |toks|
  {
    var slots := m.Slots(q);
    if slots == 0 then Ok((m, 0))
    else if m.maps[q].ids == [] then Panic(NoLastBlock)
    else
      var ids := m.maps[q].ids;
      var id := ids[|ids| - 1];
      if id >= |m.pool.blocks| then Panic(OutOfBounds)
      else if |m.pool.blocks[id].tokens| > m.bs then Panic(Underflow)
      else
        var n := Min(m.bs - |m.pool.blocks[id].tokens|, |toks| - slots);
        if n == 0 then Ok((m, slots))
        else Ok((m.Write(id, m.pool.blocks[id].tokens + toks[slots..slots + n], toks[..slots + n]), slots + n))
  }

  /** Refresh the newly allocated block `id` with the chunk of `toks` at `off`. */
  function StoreChunk(m: Manager, id: BlockId, toks: seq<Token>, off: nat): Manager
    requires id < |m.pool.blocks| && off < |toks|
  {
    var end := Min(off + m.bs, |toks|);
    m.Forget(id).Write(id, toks[off..end], toks[..end])
  }

  /** Second half of `alloc_blocks`: fresh blocks for the tokens from `off` on. */
  function AllocFresh(m: Manager, toks: seq<Token>, off: nat, acc: seq<BlockId>): Outcome<(Manager, seq<BlockId>)>
    decreases |toks| - off
  {
    if off >= |toks| then Ok((m, acc))
    else
      var (p, id) :- AllocBlock(m.pool);
      if id >= |p.blocks| then Panic(OutOfBounds)
      else AllocFresh(StoreChunk(m.(pool := p), id, toks, off), toks, off + m.bs, acc + [id])
  }

  /** `alloc_blocks`: extend the blocks of `q` to all of `toks`; yields the number of new slots. */
  function AllocBlocks(m: Manager, q: SeqId, toks: seq<Token>): Outcome<(Manager, nat)>
  {
    if |toks| < m.Slots(q) then Panic(Underflow)
    else
      var added := |toks| - m.Slots(q);
      var (m1, off) :- FillLast(m, q, toks);
      var (m2, ids) :- AllocFresh(m1, toks, off, []);
      var bm := if q in m2.maps
                then m2.maps[q].(ids := m2.maps[q].ids + ids, slots := m2.maps[q].slots + added)
                else BlockMap(ids, added, 0);
      Ok((m2.(maps := m2.maps[q := bm]), added))
  }

  function PinAll(p: Pool, ids: seq<BlockId>): Outcome<Pool>
    decreases |ids|
  {
    if ids == [] then Ok(p)
    else
      var p1 :- PinBlock(p, ids[0]);
      PinAll(p1, ids[1..])
  }

  /** `init_prefix_cache_blocks` */
  function InitPrefix(m: Manager, q: SeqId, toks: seq<Token>): Outcome<(Manager, nat)>
  {
    if q in m.maps then Ok((m, 0))
    else
      var ids := Hits(m, toks);
      var p :- PinAll(m.pool, ids);
      var n := |ids| * m.bs;
      Ok((m.(pool := p, maps := m.maps[q := BlockMap(ids, n, n)]), n))
  }

  /** `update_prefix_cache_blocks` */
  function UpdatePrefix(m: Manager, q: SeqId, toks: seq<Token>): Outcome<(Manager, nat)>
  {
    if q !in m.maps then InitPrefix(m, q, toks)
    else
      var bm := m.maps[q];
      var (ids, _) :- RangeHits(m, toks, bm.filled, |toks|);
      var p :- PinAll(m.pool, ids);
      var n := bm.filled + |ids| * m.bs;
      Ok((m.(pool := p, maps := m.maps[q := BlockMap(bm.ids + ids, n, n)]), |ids| * m.bs))
  }

  // ---------------------------------------------------------------- regions

  function ReserveFrom(m: Manager, toks: seq<Token>, off: nat, acc: Region): Outcome<(Manager, Region)>
    decreases |toks| - off
  {
    if off + m.bs > |toks| then Ok((m, acc))
    else
      var (p, id) :- AllocBlock(m.pool);
      if id >= |p.blocks| then Panic(OutOfBounds)
      else
        var h := Of(toks[..off + m.bs]);
        var blk := p.blocks[id].(tokens := toks[off..off + m.bs], hash := h);
        ReserveFrom(m.(pool := p).SetBlock(id, blk), toks, off + m.bs,
                    acc.(ids := acc.ids + [id], hashes := acc.hashes + [h]))
  }

  /** `reserve_blocks`; `rid` is the random id the region gets. */
  function Reserve(m: Manager, toks: seq<Token>, start: nat, rid: RegionId): Outcome<(Manager, Option<Region>)>
  {
    var (m1, r) :- ReserveFrom(m, toks, Offset(Whole(start, m.bs), m.bs), Region(rid, [], []));
    if r.ids == [] then Ok((m1, None))
    else Ok((m1.(regions := m1.regions[rid := r.ids]), Some(r)))
  }

  function ActivateAll(m: Manager, ids: seq<BlockId>, hashes: set<Hash>, n: nat): Outcome<(Manager, nat)>
    decreases |ids|
  {
    if ids == [] then Ok((m, n))
    else if ids[0] >= |m.pool.blocks| then Panic(OutOfBounds)
    else
      var h := m.pool.blocks[ids[0]].hash;
      var m1 := if h in hashes && h !in m.table then m.(table := m.table[h := ids[0]]) else m;
      var p :- FreeBlock(m1.pool, ids[0]);
      ActivateAll(m1.(pool := p), ids[1..], hashes, if h in hashes then n + 1 else n)
  }

  /** `activate_reserved_blocks` */
  function Activate(m: Manager, rid: RegionId, hashes: seq<Hash>): Outcome<(Manager, nat)> {
    if rid !in m.regions then Ok((m, 0))
    else ActivateAll(m.(regions := m.regions - {rid}), m.regions[rid], set h | h in hashes, 0)
  }

  function PinHashesFrom(m: Manager, hashes: seq<Hash>, acc: Region): Outcome<(Manager, Region)>
    decreases |hashes|
  {
    if hashes == [] || Lookup(m, hashes[0]).None? then Ok((m, acc))
    else
      var id := Lookup(m, hashes[0]).value;
      var p :- PinBlock(m.pool, id);
      PinHashesFrom(m.(pool := p), hashes[1..],
                    acc.(ids := acc.ids + [id], hashes := acc.hashes + [hashes[0]]))
  }

  /** `pin_blocks_by_hashes` */
  function PinHashes(m: Manager, hashes: seq<Hash>, rid: RegionId): Outcome<(Manager, Region)> {
    var (m1, r) :- PinHashesFrom(m, hashes, Region(rid, [], []));
    Ok((m1.(regions := m1.regions[rid := r.ids]), r))
  }

  function UnpinAll(p: Pool, ids: seq<BlockId>): Outcome<Pool>
    decreases |ids|
  {
    if ids == [] then Ok(p)
    else
      var p1 :- FreeBlock(p, ids[0]);
      UnpinAll(p1, ids[1..])
  }

  /** `unpin_blocks` */
  function Unpin(m: Manager, rid: RegionId): Outcome<(Manager, nat)> {
    if rid !in m.regions then Ok((m, 0))
    else
      var p :- UnpinAll(m.pool, m.regions[rid]);
      Ok((m.(pool := p, regions := m.regions - {rid}), |m.regions[rid]|))
  }

  // ---------------------------------------------------------------- release

  /** `update_filled_len` */
  function UpdateFilled(m: Manager, q: SeqId, n: nat): Outcome<Manager> {
    if q !in m.maps then Ok(m)
    else if n > m.maps[q].slots then Panic(FilledPastSlots)
    else Ok(m.(maps := m.maps[q := m.maps[q].(filled := n)]))
  }

  /** `drop_cache` */
  function DropCache(m: Manager, b: BlockId): Manager
    requires b < |m.pool.blocks|
  {
    if m.pool.blocks[b].refCnt == 0 then m.Forget(b) else m
  }

  /** The loops of `free` (`all` false: only blocks beyond the filled length are dropped from the
      cache) and of `free_and_drop_cache` (`all` true). */
  function FreeAll(m: Manager, ids: seq<BlockId>, cnt: nat, filled: nat, all: bool): Outcome<Manager>
    decreases |ids|
  {
    if ids == [] then Ok(m)
    else
      var p :- FreeBlock(m.pool, ids[0]);
      if ids[0] >= |p.blocks| then Panic(OutOfBounds)
      else
        var m1 := m.(pool := p);
        var m2 := if all || cnt + m.bs > filled then DropCache(m1, ids[0]) else m1;
        FreeAll(m2, ids[1..], cnt + m.bs, filled, all)
  }

  /** `free` and, with `all`, `free_and_drop_cache` */
  function FreeSeq(m: Manager, q: SeqId, all: bool): Outcome<Manager> {
    if q !in m.maps then Ok(m)
    else FreeAll(m.(maps := m.maps - {q}), m.maps[q].ids, 0, m.maps[q].filled, all)
  }

  function ClearCache(m: Manager): Manager { m.(table := map[]) }

  // ---------------------------------------------------------------- reading block ranges

  /** `get_block_ids_range`: the ids of the blocks of tokens [start, end) and the index after the last
      filled token they hold. */
  function BlockRange(m: Manager, q: SeqId, start: nat, end: nat, partial: bool): Option<(seq<BlockId>, nat)>
  {
    var s := Whole(start, m.bs);
    var e := Whole(end, m.bs) + if partial then 1 else 0;
    if s >= e || q !in m.maps then None
    else
      var bm := m.maps[q];
      if s >= |bm.ids| then None
      else
        var e' := Min(e, |bm.ids|);
        var last := bm.ids[e' - 1];
        var len := if last < |m.pool.blocks| then |m.pool.blocks[last].tokens| else 0;
        Some((bm.ids[s..e'], Min(Offset(e' - 1, m.bs) + len, bm.filled)))
  }
}
