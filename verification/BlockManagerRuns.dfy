/** Whole runs of a block manager: every operation of
    runtime/src/llm_engine/block_manager.rs (lines 417-706), in any order. */
module BlockManagerRuns {
  import opened Prelude
  import opened BlockPool
  import opened BlockManagerSpec
  import opened BlockManagerInv
  import opened Allocation
  import opened PrefixCache
  import opened Regions
  import opened Release

  datatype Op =
    | OpAlloc(q: SeqId, toks: seq<Token>)
    | OpInitPrefix(q: SeqId, toks: seq<Token>)
    | OpUpdatePrefix(q: SeqId, toks: seq<Token>)
    | OpReserve(toks: seq<Token>, start: nat, rid: RegionId)
    | OpActivate(rid: RegionId, hashes: seq<Hash>)
    | OpPin(hashes: seq<Hash>, rid: RegionId)
    | OpUnpin(rid: RegionId)
    | OpUpdateFilled(q: SeqId, n: nat)
    | OpFree(q: SeqId, all: bool)
    | OpClearCache

  function Step(m: Manager, op: Op): Outcome<Manager>
  {
    match op
    case OpAlloc(q, toks) => var (m', _) :- AllocBlocks(m, q, toks); Ok(m')
    case OpInitPrefix(q, toks) => var (m', _) :- InitPrefix(m, q, toks); Ok(m')
    case OpUpdatePrefix(q, toks) => var (m', _) :- UpdatePrefix(m, q, toks); Ok(m')
    case OpReserve(toks, start, rid) => var (m', _) :- Reserve(m, toks, start, rid); Ok(m')
    case OpActivate(rid, hashes) => var (m', _) :- Activate(m, rid, hashes); Ok(m')
    case OpPin(hashes, rid) => var (m', _) :- PinHashes(m, hashes, rid); Ok(m')
    case OpUnpin(rid) => var (m', _) :- Unpin(m, rid); Ok(m')
    case OpUpdateFilled(q, n) => UpdateFilled(m, q, n)
    case OpFree(q, all) => FreeSeq(m, q, all)
    case OpClearCache => Ok(ClearCache(m))
  }

  /** The text each sequence was last given. */
  function NextTexts(m: Manager, texts: Texts, op: Op): Texts {
    match op
    case OpAlloc(q, toks) => texts[q := toks]
    case OpInitPrefix(q, toks) => if q in m.maps then texts else texts[q := toks]
    case OpUpdatePrefix(q, toks) => texts[q := toks]
    case _ => texts
  }

  /** What the callers guarantee: sequences only grow, new region ids are fresh, a cache refresh
      finds the sequence settled, and the filled length stays within the slots. */
  predicate Legal(m: Manager, texts: Texts, op: Op) {
    match op
    case OpAlloc(q, toks) => q in m.maps ==> q in texts && texts[q] <= toks
    case OpUpdatePrefix(q, toks) => q in m.maps ==> q in texts && texts[q] <= toks && Settled(m.bs, m.maps[q])
    case OpReserve(_, _, rid) => rid !in m.regions
    case OpPin(_, rid) => rid !in m.regions
    case OpUpdateFilled(q, n) => q in m.maps ==> n <= m.maps[q].slots
    case _ => true
  }

  /** The fresh blocks an operation has to take from the free list. */
  function Demand(m: Manager, op: Op): int
  {
    match op
    case OpAlloc(q, toks) => Needed(m, q, toks)
    case OpReserve(toks, start, _) => Whole(|toks| - Offset(Whole(start, m.bs), m.bs), m.bs)
    case _ => 0
  }

  /** One step keeps the invariant; the only panic is exhaustion, and it happens exactly when the
      operation demands more fresh blocks than the free list has. */
  lemma StepSafe(m: Manager, texts: Texts, op: Op)
    requires Inv(m, texts, multiset{}) && Legal(m, texts, op)
    ensures if |m.pool.free| < Demand(m, op) then Step(m, op) == Panic(Exhausted)
            else Step(m, op).Ok? && Inv(Step(m, op).value, NextTexts(m, texts, op), multiset{})
    ensures Step(m, op).Ok? ==> Step(m, op).value.bs == m.bs && |Step(m, op).value.pool.blocks| == |m.pool.blocks|
  {
    hide Inv, PoolOk, BlocksOk, RegionsOk, MapsOk, TableOk, Held, AllocBlocks, InitPrefix, UpdatePrefix, Reserve,
      Activate, PinHashes, Unpin, UpdateFilled, FreeSeq, Hits, HitsFrom, Needed, Whole, Offset, CountFree, CountUnique,
      CountCarried, Settled, RegionCarries, HashesOf, Published;
    match op
    case OpAlloc(q, toks) => AllocBlocksSafe(m, texts, q, toks);
    case OpInitPrefix(q, toks) =>
      if q in m.maps {
        InitPrefixMapped(m, q, toks);
      } else {
        InitPrefixSafe(m, texts, q, toks);
      }
    case OpUpdatePrefix(q, toks) => UpdatePrefixSafe(m, texts, q, toks);
    case OpReserve(toks, start, rid) => ReserveSafe(m, texts, toks, start, rid);
    case OpActivate(rid, hashes) => ActivateSafe(m, texts, rid, hashes);
    case OpPin(hashes, rid) => PinHashesSafe(m, texts, hashes, rid);
    case OpUnpin(rid) => UnpinSafe(m, texts, rid);
    case OpUpdateFilled(q, n) => UpdateFilledSafe(m, texts, q, n);
    case OpFree(q, all) => ReleaseSafe(m, texts, q, all);
    case OpClearCache => ClearCacheSafe(m, texts);
  }

  // ---------------------------------------------------------------- runs

  function Exec(m: Manager, ops: seq<Op>): Outcome<Manager>
    decreases |ops|
  {
    if ops == [] then Ok(m)
    else
      var m1 :- Step(m, ops[0]);
      Exec(m1, ops[1..])
  }

  /** Every operation of the run is called as its callers may call it. */
  predicate LegalRun(m: Manager, texts: Texts, ops: seq<Op>)
    decreases |ops|
  {
    ops == [] ||
    (Legal(m, texts, ops[0]) &&
     var r := Step(m, ops[0]);
     r.Ok? ==> LegalRun(r.value, NextTexts(m, texts, ops[0]), ops[1..]))
  }

  function FinalTexts(m: Manager, texts: Texts, ops: seq<Op>): Texts
    decreases |ops|
  {
    if ops == [] then texts
    else
      var r := Step(m, ops[0]);
      if r.Panic? then texts
      else FinalTexts(r.value, NextTexts(m, texts, ops[0]), ops[1..])
  }

  lemma {:induction false} RunSafe(m: Manager, texts: Texts, ops: seq<Op>)
    requires Inv(m, texts, multiset{}) && LegalRun(m, texts, ops)
    ensures match Exec(m, ops)
      case Ok(m') => Inv(m', FinalTexts(m, texts, ops), multiset{}) && m'.bs == m.bs && |m'.pool.blocks| == |m.pool.blocks|
      case Panic(f) => f == Exhausted
    decreases |ops|
  {
    hide Inv, Step, Legal, NextTexts, Demand;
    InvParts(m, texts, multiset{});
    if ops != [] {
      StepSafe(m, texts, ops[0]);
      if Step(m, ops[0]).Ok? {
        RunSafe(Step(m, ops[0]).value, NextTexts(m, texts, ops[0]), ops[1..]);
      }
    }
  }

  /** Reference-count conservation and allocator agreement in every reachable state: the count of a
      block is its number of occurrences in all block lists and regions; it is Free, and on the free
      list, exactly once, exactly when that number is zero. No run panics except by exhaustion. */
  lemma ReachableCounts(bs: BlockSize, n: nat, ops: seq<Op>)
    requires LegalRun(NewManager(bs, n), map[], ops)
    ensures match Exec(NewManager(bs, n), ops)
      case Panic(f) => f == Exhausted
      case Ok(m) =>
        |m.pool.blocks| == n && PoolOk(m.pool, Held(m))
  {
    hide PoolOk, BlocksOk, RegionsOk, MapsOk, TableOk, Held, Exec, FinalTexts, LegalRun;
    var m0 := NewManager(bs, n);
    NewManagerInv(bs, n);
    RunSafe(m0, map[], ops);
    if Exec(m0, ops).Ok? {
      var m := Exec(m0, ops).value;
      assert Held(m) + multiset{} == Held(m);
    }
  }

  /** Block lists spell their sequences in every reachable state: the distinct blocks of a mapped
      sequence hold, in order, the consecutive chunks of the first `slots` tokens of the text it was
      last given, as many blocks as these tokens need, and no more is counted as filled. */
  lemma ReachableSpelling(bs: BlockSize, n: nat, ops: seq<Op>, q: SeqId)
    requires LegalRun(NewManager(bs, n), map[], ops)
    requires Exec(NewManager(bs, n), ops).Ok? && q in Exec(NewManager(bs, n), ops).value.maps
    ensures
      var m := Exec(NewManager(bs, n), ops).value;
      var texts := FinalTexts(NewManager(bs, n), map[], ops);
      var bm := m.maps[q];
      && |m.pool.blocks| == n && q in texts && bm.filled <= bm.slots <= |texts[q]|
      && |bm.ids| == DivCeil(bm.slots, bs) && Distinct(bm.ids)
      && forall i :: 0 <= i < |bm.ids| ==>
           && bm.ids[i] < n && i * bs < bm.slots
           && m.pool.blocks[bm.ids[i]].tokens == texts[q][i * bs..Min(i * bs + bs, bm.slots)]
  {
    hide PoolOk, BlocksOk, RegionsOk, TableOk, Held, Exec, FinalTexts, ListSpells, Covers, DivCeil;
    var m0 := NewManager(bs, n);
    NewManagerInv(bs, n);
    RunSafe(m0, map[], ops);
    var m := Exec(m0, ops).value;
    var texts := FinalTexts(m0, map[], ops);
    SpelledDistinct(m, texts, multiset{}, q);
    var bm := m.maps[q];
    DivCeilCovers(bm.slots, bs);
    CoversUnique(|bm.ids|, DivCeil(bm.slots, bs), bm.slots, bs);
    forall i | 0 <= i < |bm.ids|
      ensures bm.ids[i] < n && i * bs < bm.slots
      ensures m.pool.blocks[bm.ids[i]].tokens == texts[q][i * bs..Min(i * bs + bs, bm.slots)]
    {
      SpelledAt(bs, m.pool.blocks, bm, texts[q], i);
    }
  }

  lemma SpelledAt(bs: nat, blocks: seq<Block>, bm: BlockMap, text: seq<Token>, i: nat)
    requires Spells(bs, blocks, bm, text) && i < |bm.ids|
    ensures bm.ids[i] < |blocks| && i * bs < bm.slots <= |text|
    ensures blocks[bm.ids[i]].tokens == text[i * bs..Min(i * bs + bs, bm.slots)]
  {
    hide Offset;
    var at := Offset(i, bs);
    assert ChunkIs(blocks[bm.ids[i]], text[..bm.slots], 0 + at, bs);
    assert text[..bm.slots][at..Min(at + bs, bm.slots)] == text[at..Min(at + bs, bm.slots)];
    OffsetIsProduct(i, bs);
  }

  /** No leak at quiescence: once no sequence is mapped and no region is open, every block of the
      device is on the free list, once. */
  lemma QuiescentNoLeak(bs: BlockSize, n: nat, ops: seq<Op>)
    requires LegalRun(NewManager(bs, n), map[], ops) && Exec(NewManager(bs, n), ops).Ok?
    requires Exec(NewManager(bs, n), ops).value.maps == map[]
    requires Exec(NewManager(bs, n), ops).value.regions == map[]
    ensures var m := Exec(NewManager(bs, n), ops).value;
      |m.pool.free| == n && multiset(m.pool.free) == multiset(seq(n, i => i))
  {
    hide BlocksOk, RegionsOk, MapsOk, TableOk, PoolOk, Exec, FinalTexts;
    NewManagerInv(bs, n);
    RunSafe(NewManager(bs, n), map[], ops);
    var m := Exec(NewManager(bs, n), ops).value;
    NothingHeld(m);
    assert Held(m) + multiset{} == multiset{};
    NoOwnersNoLeak(m.pool);
  }

  lemma NothingHeld(m: Manager)
    requires m.maps == map[] && m.regions == map[]
    ensures Held(m) == multiset{}
  {
    assert Lists(m.maps) == map[];
  }

  // ---------------------------------------------------------------- regions over runs

  /** `op` does not close region `rid`. */
  predicate Keeps(op: Op, rid: RegionId) {
    op != OpUnpin(rid) && (op.OpActivate? ==> op.rid != rid)
  }

  /** The blocks of region `rid` are as they were: same list, same tokens and hashes, still in use. */
  ghost predicate RegionIntact(m: Manager, m': Manager, rid: RegionId) {
    && rid in m.regions && rid in m'.regions && m'.regions[rid] == m.regions[rid]
    && |m'.pool.blocks| == |m.pool.blocks|
    && forall b :: b in m.regions[rid] && b < |m.pool.blocks| ==>
         && m'.pool.blocks[b].SameContent(m.pool.blocks[b])
         && m'.pool.blocks[b].refCnt > 0 && m'.pool.blocks[b].status == Used
  }

  lemma InRegionUsed(m: Manager, texts: Texts, rid: RegionId)
    requires Inv(m, texts, multiset{}) && rid in m.regions
    ensures forall b :: b in m.regions[rid] ==>
      b < |m.pool.blocks| && m.pool.blocks[b].refCnt > 0 && m.pool.blocks[b].status == Used && m.pool.blocks[b].hash != NoHash
  {
    hide BlocksOk, MapsOk, TableOk, Held;
    forall b | b in m.regions[rid]
      ensures b < |m.pool.blocks| && m.pool.blocks[b].refCnt > 0 && m.pool.blocks[b].status == Used
      ensures m.pool.blocks[b].hash != NoHash
    {
      HeldByRegion(m, rid, b);
      assert b in Held(m) + multiset{};
      assert CountOk(m.pool, Held(m) + multiset{}, b);
    }
  }

  lemma IntactFrom(m: Manager, m': Manager, texts: Texts, texts': Texts, rid: RegionId)
    requires Inv(m, texts, multiset{}) && Inv(m', texts', multiset{})
    requires rid in m.regions && rid in m'.regions && m'.regions[rid] == m.regions[rid]
    requires |m'.pool.blocks| == |m.pool.blocks|
    requires forall b :: b in m.regions[rid] && b < |m.pool.blocks| ==> m'.pool.blocks[b].SameContent(m.pool.blocks[b])
    ensures RegionIntact(m, m', rid)
  {
    hide Inv;
    InRegionUsed(m', texts', rid);
  }

  /** No operation but its own closing touches a region: its blocks keep tokens and hash and stay in
      use, so `alloc_block`, which only hands out unreferenced blocks, never hands them out. */
  lemma StepKeepsRegion(m: Manager, texts: Texts, op: Op, rid: RegionId)
    requires Inv(m, texts, multiset{}) && Legal(m, texts, op) && rid in m.regions && Keeps(op, rid)
    requires Step(m, op).Ok?
    ensures RegionIntact(m, Step(m, op).value, rid)
  {
    hide Inv, PoolOk, BlocksOk, RegionsOk, MapsOk, TableOk, Held, AllocBlocks, InitPrefix, UpdatePrefix, Reserve,
      Activate, PinHashes, Unpin, UpdateFilled, FreeSeq, Hits, HitsFrom, Needed, Whole, Offset, CountFree, CountUnique,
      CountCarried, Settled, RegionCarries, HashesOf, Published, RegionIntact;
    StepSafe(m, texts, op);
    InRegionUsed(m, texts, rid);
    var m' := Step(m, op).value;
    match op {
      case OpAlloc(q, toks) => AllocBlocksSafe(m, texts, q, toks);
      case OpInitPrefix(q, toks) =>
        if q in m.maps {
          InitPrefixMapped(m, q, toks);
        } else {
          InitPrefixSafe(m, texts, q, toks);
        }
      case OpUpdatePrefix(q, toks) => UpdatePrefixSafe(m, texts, q, toks);
      case OpReserve(toks, start, r) => ReserveSafe(m, texts, toks, start, r);
      case OpActivate(r, hashes) => ActivateSafe(m, texts, r, hashes);
      case OpPin(hashes, r) => PinHashesSafe(m, texts, hashes, r);
      case OpUnpin(r) => UnpinSafe(m, texts, r);
      case OpUpdateFilled(q, n) => UpdateFilledSafe(m, texts, q, n);
      case OpFree(q, all) =>
        ReleaseSafe(m, texts, q, all);
        RegionHeldWithout(m, q, rid);
      case OpClearCache => ClearCacheSafe(m, texts);
    }
    IntactFrom(m, m', texts, NextTexts(m, texts, op), rid);
  }

  lemma RegionHeldWithout(m: Manager, q: SeqId, rid: RegionId)
    requires rid in m.regions
    ensures forall b :: b in m.regions[rid] ==> b in Held(m.(maps := m.maps - {q}))
  {
    hide Held;
    forall b | b in m.regions[rid]
      ensures b in Held(m.(maps := m.maps - {q}))
    {
      HeldByRegion(m.(maps := m.maps - {q}), rid, b);
    }
  }

  lemma {:induction false} RunKeepsRegion(m: Manager, texts: Texts, ops: seq<Op>, rid: RegionId)
    requires Inv(m, texts, multiset{}) && LegalRun(m, texts, ops) && rid in m.regions
    requires forall op :: op in ops ==> Keeps(op, rid)
    requires Exec(m, ops).Ok?
    ensures RegionIntact(m, Exec(m, ops).value, rid)
    decreases |ops|
  {
    hide Inv, Step, Legal, NextTexts, Demand, Keeps;
    InvParts(m, texts, multiset{});
    if ops == [] {
      IntactFrom(m, m, texts, texts, rid);
    } else {
      StepSafe(m, texts, ops[0]);
      StepKeepsRegion(m, texts, ops[0], rid);
      var m1 := Step(m, ops[0]).value;
      RunKeepsRegion(m1, NextTexts(m, texts, ops[0]), ops[1..], rid);
    }
  }

  // ---------------------------------------------------------------- shared blocks

  /** A block that several sequences or regions own is full, and one of its owners releasing it leaves it
      owned. */
  lemma SharedBlock(m: Manager, texts: Texts, q: SeqId, b: BlockId)
    requires Inv(m, texts, multiset{}) && b < |m.pool.blocks| && m.pool.blocks[b].refCnt >= 2
    ensures m.pool.blocks[b].hash != NoHash && b in Held(m.(maps := m.maps - {q}))
  {
    hide Held, RegionsOk, MapsOk, TableOk, BlockOk;
    assert BlockOk(m.bs, m.pool.blocks[b]) && CountOk(m.pool, Held(m) + multiset{}, b);
    SharedFull(m.bs, m.pool.blocks[b]);
    if q in m.maps {
      HeldMapRemove(m, q);
      SpelledDistinct(m, texts, multiset{}, q);
      DistinctOnce(m.maps[q].ids, b);
    } else {
      assert m.maps - {q} == m.maps;
    }
  }

  lemma SharedFull(bs: nat, b: Block)
    requires BlockOk(bs, b) && b.refCnt >= 2
    ensures b.hash != NoHash
  {
  }

  lemma {:induction false} DistinctOnce(ids: seq<BlockId>, b: BlockId)
    requires Distinct(ids)
    ensures multiset(ids)[b] <= 1
  {
    if ids != [] {
      assert ids == [ids[0]] + ids[1..];
      DistinctOnce(ids[1..], b);
      assert ids[0] == b ==> b !in ids[1..];
    }
  }

  /** No operation changes the tokens or the hash of a block that has two or more owners. */
  lemma StepKeepsShared(m: Manager, texts: Texts, op: Op, b: BlockId)
    requires Inv(m, texts, multiset{}) && Legal(m, texts, op) && b < |m.pool.blocks| && m.pool.blocks[b].refCnt >= 2
    requires Step(m, op).Ok?
    ensures b < |Step(m, op).value.pool.blocks| && Step(m, op).value.pool.blocks[b].SameContent(m.pool.blocks[b])
  {
    hide Inv, PoolOk, BlocksOk, RegionsOk, MapsOk, TableOk, Held, AllocBlocks, InitPrefix, UpdatePrefix, Reserve,
      Activate, PinHashes, Unpin, UpdateFilled, FreeSeq, Hits, HitsFrom, Needed, Whole, Offset, CountFree, CountUnique,
      CountCarried, Settled, RegionCarries, HashesOf, Published;
    StepSafe(m, texts, op);
    SharedBlock(m, texts, if op.OpFree? then op.q else 0, b);
    match op {
      case OpAlloc(q, toks) => AllocBlocksSafe(m, texts, q, toks);
      case OpInitPrefix(q, toks) =>
        if q in m.maps {
          InitPrefixMapped(m, q, toks);
        } else {
          InitPrefixSafe(m, texts, q, toks);
        }
      case OpUpdatePrefix(q, toks) => UpdatePrefixSafe(m, texts, q, toks);
      case OpReserve(toks, start, r) => ReserveSafe(m, texts, toks, start, r);
      case OpActivate(r, hashes) => ActivateSafe(m, texts, r, hashes);
      case OpPin(hashes, r) => PinHashesSafe(m, texts, hashes, r);
      case OpUnpin(r) => UnpinSafe(m, texts, r);
      case OpUpdateFilled(q, n) => UpdateFilledSafe(m, texts, q, n);
      case OpFree(q, all) => ReleaseSafe(m, texts, q, all);
      case OpClearCache =>
    }
  }
}
