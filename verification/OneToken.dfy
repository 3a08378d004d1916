/** Sequences and regions of one token in blocks of one, for examples
    (runtime/src/llm_engine/block_manager.rs, lines 358-510 and 549-585). */
module OneToken {
  import opened Prelude
  import opened BlockPool
  import opened BlockManagerSpec
  import opened Admission

  lemma Taken(p: Pool, p': Pool, id: BlockId)
    requires p.free != [] && p.free[0] == id < |p.blocks| && p.blocks[id].status == Free && p.blocks[id].refCnt == 0
    requires p'.blocks == p.blocks[id := p.blocks[id].(status := Used, refCnt := 1)] && p'.free == p.free[1..]
    ensures AllocBlock(p) == Ok((p', id))
  {
  }

  lemma Given(p: Pool, p': Pool, id: BlockId)
    requires id < |p.blocks| && p.blocks[id].status == Used && p.blocks[id].refCnt == 1 && id !in p.free
    requires p'.blocks == p.blocks[id := p.blocks[id].(status := Free, refCnt := 0)] && p'.free == p.free + [id]
    ensures FreeBlock(p, id) == Ok(p')
  {
  }

  /** A block can be taken for sequence `q`, which has none. */
  predicate Ready1(m: Manager, q: SeqId) {
    && m.bs == 1 && (q in m.maps ==> m.maps[q] == BlockMap([], 0, 0)) && m.pool.free != []
    && var id := m.pool.free[0];
    id < |m.pool.blocks| && m.pool.blocks[id].status == Free && m.pool.blocks[id].refCnt == 0
  }

  /** The manager with the token of sequence `q` in the first free block. */
  function Stored1(m: Manager, q: SeqId, t: Token): Manager
    requires Ready1(m, q)
  {
    var id := m.pool.free[0];
    Manager(1, Pool(m.pool.blocks[id := Block(1, Used, [t], Of([t]))], m.pool.free[1..]),
            (m.table - {m.pool.blocks[id].hash})[Of([t]) := id], m.maps[q := BlockMap([id], 1, 0)], m.regions)
  }

  lemma StoreOne(m: Manager, q: SeqId, t: Token)
    requires Ready1(m, q)
    ensures AllocBlocks(m, q, [t]) == Ok((Stored1(m, q, t), 1))
  {
    hide AllocBlock;
    var toks, id := [t], m.pool.free[0];
    assert toks[0..1] == toks && toks[..1] == toks && [] + [id] == [id];
    var p := Pool(m.pool.blocks[id := m.pool.blocks[id].(status := Used, refCnt := 1)], m.pool.free[1..]);
    Taken(m.pool, p, id);
    var m1 := Stored1(m, q, t).(maps := m.maps);
    assert p.blocks[id := p.blocks[id].Cleared()][id := Block(1, Used, toks, Of(toks))] == m1.pool.blocks;
    assert StoreChunk(m.(pool := p), id, toks, 0) == m1;
    assert AllocFresh(m1, toks, 1, [id]) == Ok((m1, [id]));
    assert AllocFresh(m, toks, 0, []) == AllocFresh(m1, toks, 1, [] + [id]);
    assert [] + [id] == [id];
  }

  /** Admission and extension of a sequence of one token that is not cached. */
  lemma AdmitOne(m: Manager, q: SeqId, t: Token, percent: nat)
    requires Ready1(m, q) && Of([t]) !in m.table && m.pool.Used() + 1 <= percent * |m.pool.blocks| / 100
    ensures q !in m.maps ==> TryAlloc(m, q, [t], percent) == Ok((Stored1(m, q, t), true))
    ensures q in m.maps && percent == 100 ==> TryExtend(m, q, [t]) == Ok((Stored1(m, q, t), true))
  {
    hide AllocBlocks;
    var toks := [t];
    assert toks[..1] == toks;
    assert Hits(m, toks) == [];
    var m1 := m.(maps := m.maps[q := BlockMap([], 0, 0)]);
    assert DivCeil(1, 1) == 1;
    StoreOne(m, q, t);
    StoreOne(m1, q, t);
    assert m1.maps[q := BlockMap([m.pool.free[0]], 1, 0)] == m.maps[q := BlockMap([m.pool.free[0]], 1, 0)];
    assert PinAll(m.pool, []) == Ok(m.pool);
  }

  /** Its block is computed. */
  function Filled1(m: Manager, q: SeqId): Manager
    requires q in m.maps
  {
    m.(maps := m.maps[q := m.maps[q].(filled := 1)])
  }

  /** The sequence is released once its block is computed. */
  lemma ReleaseOne(m: Manager, m': Manager, q: SeqId)
    requires m.bs == 1 && q in m.maps && m.maps[q].filled == 1 && |m.maps[q].ids| == 1
    requires var id := m.maps[q].ids[0];
      && id < |m.pool.blocks| && m.pool.blocks[id].status == Used && m.pool.blocks[id].refCnt == 1 && id !in m.pool.free
      && m'.pool.blocks == m.pool.blocks[id := m.pool.blocks[id].(status := Free, refCnt := 0)]
      && m'.pool.free == m.pool.free + [id]
    requires m' == m.(pool := m'.pool, maps := m.maps - {q})
    ensures FreeSeq(m, q, false) == Ok(m')
  {
    hide FreeBlock;
    var ids := m.maps[q].ids;
    Given(m.pool, m'.pool, ids[0]);
    assert ids[1..] == [];
    assert FreeAll(m', ids[1..], 1, 1, false) == Ok(m');
  }

  /** It is released, and its block forgotten. */
  lemma DropOne(m: Manager, m': Manager, q: SeqId)
    requires m.bs == 1 && q in m.maps && |m.maps[q].ids| == 1
    requires var id := m.maps[q].ids[0];
      && id < |m.pool.blocks| && m.pool.blocks[id].status == Used && m.pool.blocks[id].refCnt == 1 && id !in m.pool.free
      && m'.pool.blocks == m.pool.blocks[id := Block(0, Free, [], NoHash)] && m'.pool.free == m.pool.free + [id]
      && m' == m.(pool := m'.pool, maps := m.maps - {q}, table := m.table - {m.pool.blocks[id].hash})
    ensures FreeSeq(m, q, true) == Ok(m')
  {
    hide FreeBlock;
    var ids := m.maps[q].ids;
    var p := Pool(m.pool.blocks[ids[0] := m.pool.blocks[ids[0]].(status := Free, refCnt := 0)], m.pool.free + [ids[0]]);
    Given(m.pool, p, ids[0]);
    assert p.blocks[ids[0] := p.blocks[ids[0]].Cleared()] == m'.pool.blocks;
    assert ids[1..] == [];
    var m1 := m.(maps := m.maps - {q});
    assert DropCache(m1.(pool := p), ids[0]) == m';
    assert FreeAll(m', ids[1..], 1, m.maps[q].filled, true) == Ok(m');
  }

  /** One block of a region. */
  lemma ReserveOne(m: Manager, p: Pool, id: BlockId, blk: Block, m': Manager, toks: seq<Token>, off: nat, r: Region,
                   r': Region)
    requires m.bs == 1 && off < |toks| && AllocBlock(m.pool) == Ok((p, id)) && id < |p.blocks|
    requires blk == p.blocks[id].(tokens := [toks[off]], hash := Of(toks[..off + 1]))
    requires m' == m.(pool := p.(blocks := p.blocks[id := blk]))
    requires r' == Region(r.id, r.ids + [id], r.hashes + [Of(toks[..off + 1])])
    ensures ReserveFrom(m, toks, off, r) == ReserveFrom(m', toks, off + 1, r')
  {
    hide AllocBlock;
    assert toks[off..off + 1] == [toks[off]];
  }

  lemma ReserveEnds(m: Manager, toks: seq<Token>, r: Region)
    requires m.bs == 1
    ensures ReserveFrom(m, toks, |toks|, r) == Ok((m, r))
  {
  }

  /** A region of one block. */
  lemma ReserveSingle(m: Manager, t: Token, rid: RegionId, id: BlockId, m': Manager)
    requires m.bs == 1 && m.pool.free != [] && m.pool.free[0] == id < |m.pool.blocks|
    requires m.pool.blocks[id].status == Free && m.pool.blocks[id].refCnt == 0
    requires m'.pool.blocks == m.pool.blocks[id := Block(1, Used, [t], Of([t]))] && m'.pool.free == m.pool.free[1..]
    requires m' == m.(pool := m'.pool, regions := m.regions[rid := [id]])
    ensures Reserve(m, [t], 0, rid) == Ok((m', Some(Region(rid, [id], [Of([t])]))))
  {
    hide AllocBlock, ReserveFrom;
    var toks, r := [t], Region(rid, [id], [Of([t])]);
    assert toks[..1] == toks;
    var p := Pool(m.pool.blocks[id := m.pool.blocks[id].(status := Used, refCnt := 1)], m.pool.free[1..]);
    var m1 := m.(pool := m'.pool);
    Taken(m.pool, p, id);
    assert p.blocks[id := Block(1, Used, [t], Of([t]))] == m1.pool.blocks;
    ReserveOne(m, p, id, Block(1, Used, [t], Of([t])), m1, toks, 0, Region(rid, [], []), r);
    ReserveEnds(m1, toks, r);
    assert Whole(0, 1) == 0 && Offset(0, 1) == 0;
  }

  /** Its activation, when its hash has no entry (`fresh`) or has one. */
  lemma ActivateSingle(m: Manager, rid: RegionId, id: BlockId, h: Hash, m': Manager)
    requires rid in m.regions && m.regions[rid] == [id] && id < |m.pool.blocks| && m.pool.blocks[id].hash == h
    requires m.pool.blocks[id].status == Used && m.pool.blocks[id].refCnt == 1 && id !in m.pool.free
    requires m'.pool.blocks == m.pool.blocks[id := m.pool.blocks[id].(status := Free, refCnt := 0)]
    requires m'.pool.free == m.pool.free + [id]
    requires m' == m.(pool := m'.pool, regions := m.regions - {rid},
                      table := if h in m.table then m.table else m.table[h := id])
    ensures Activate(m, rid, [h]) == Ok((m', 1))
  {
    hide FreeBlock;
    var ids, wanted := [id], set x | x in [h];
    assert ids[1..] == [] && h in [h];
    Given(m.pool, m'.pool, id);
    assert ActivateAll(m', [], wanted, 1) == Ok((m', 1));
    assert ActivateAll(m.(regions := m.regions - {rid}), ids, wanted, 0) == ActivateAll(m', ids[1..], wanted, 1);
  }
}
