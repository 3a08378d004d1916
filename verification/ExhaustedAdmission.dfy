/** A reachable device on which an admission that passes its check runs out of blocks
    (runtime/src/llm_engine/scheduler.rs, lines 254-276; block_manager.rs, lines 94-103 and 281-295). */
module ExhaustedAdmission {
  import opened Prelude
  import opened BlockPool
  import opened BlockManagerSpec
  import opened BlockManagerInv
  import opened TwoTokens
  import opened PrefixCache
  import opened Admission
  import opened BlockManagerRuns

  // Three blocks of one token. A sequence [5, 6] is computed and released: its two blocks are free, and
  // still cached.

  const RUN: seq<Op> := [OpAlloc(1, [5, 6]), OpUpdateFilled(1, 2), OpFree(1, false)]

  const B5 := Block(1, Used, [5], Of([5]))
  const B6 := Block(1, Used, [6], Of([5, 6]))
  const NONE := Block(0, Free, [], NoHash)
  const TABLE: map<Hash, BlockId> := map[Of([5]) := 0, Of([5, 6]) := 1]

  const STORED: Manager := Manager(1, Pool([B5, B6, NONE], [2]), TABLE, map[1 := BlockMap([0, 1], 2, 0)], map[])
  const FILLED: Manager := STORED.(maps := map[1 := BlockMap([0, 1], 2, 2)])
  const CACHED: Manager := Manager(1,
                                   Pool([B5.(refCnt := 0, status := Free), B6.(refCnt := 0, status := Free), NONE],
                                        [2, 0, 1]),
                                   TABLE, map[], map[])

  lemma Allocates()
    ensures AllocBlocks(NewManager(1, 3), 1, [5, 6]) == Ok((STORED, 2))
  {
    hide AllocBlocks;
    var m := NewManager(1, 3);
    assert m.pool == Pool([NONE, NONE, NONE], [0, 1, 2]);
    StoreBoth(m, m, 1, 5, 6);
    assert Stored(m, 1, 5, 6) == STORED;
  }

  lemma Releases()
    ensures UpdateFilled(STORED, 1, 2) == Ok(FILLED) && FreeSeq(FILLED, 1, false) == Ok(CACHED)
  {
    assert STORED.maps[1 := BlockMap([0, 1], 2, 2)] == FILLED.maps;
    var m0 := FILLED.(maps := FILLED.maps - {1});
    var ids: seq<BlockId> := [0, 1];
    assert m0.maps == map[] && ids[1..] == [1] && ids[1..][1..] == [];
    var p1 := Pool([CACHED.pool.blocks[0], B6, NONE], [2, 0]);
    assert m0.pool.blocks[0 := p1.blocks[0]] == p1.blocks && m0.pool.free + [0] == p1.free;
    assert FreeBlock(m0.pool, 0) == Ok(p1);
    var m1 := m0.(pool := p1);
    assert p1.blocks[1 := CACHED.pool.blocks[1]] == CACHED.pool.blocks && p1.free + [1] == CACHED.pool.free;
    assert FreeBlock(m1.pool, 1) == Ok(CACHED.pool);
    assert FreeAll(CACHED, [], 2, 2, false) == Ok(CACHED);
    assert FreeAll(m1, [1], 1, 2, false) == FreeAll(CACHED, [1][1..], 2, 2, false);
    assert FreeAll(m0, ids, 0, 2, false) == FreeAll(m1, ids[1..], 1, 2, false);
  }

  lemma Runs()
    ensures Exec(NewManager(1, 3), RUN) == Ok(CACHED) && LegalRun(NewManager(1, 3), map[], RUN)
  {
    hide AllocBlocks, UpdateFilled, FreeSeq;
    Allocates();
    Releases();
    assert RUN[1..] == [OpUpdateFilled(1, 2), OpFree(1, false)]
      && RUN[1..][1..] == [OpFree(1, false)] && RUN[1..][1..][1..] == [];
    assert Step(NewManager(1, 3), RUN[0]) == Ok(STORED)
      && Step(STORED, RUN[1]) == Ok(FILLED) && Step(FILLED, RUN[2]) == Ok(CACHED);
  }

  /** The sequence [5, 6, 7, 8] requires two blocks besides its cached prefix. The check counts these two
      only, against nothing in use, and passes; but the prefix has to be pinned too, and three blocks are
      not enough for four. */
  lemma AdmissionExhausts()
    ensures LegalRun(NewManager(1, 3), map[], RUN) && Exec(NewManager(1, 3), RUN) == Ok(CACHED)
    ensures Required(CACHED, 2, [5, 6, 7, 8]) == Ok(2) && CanAlloc(CACHED.pool, 2, 97)
    ensures TryAlloc(CACHED, 2, [5, 6, 7, 8], 97) == Panic(Exhausted)
  {
    hide Exec, LegalRun, TryAlloc, Inv, FinalTexts;
    Runs();
    NewManagerInv(1, 3);
    RunSafe(NewManager(1, 3), map[], RUN);
    var toks: seq<Token> := [5, 6, 7, 8];
    assert toks[..1] == [5] && toks[..2] == [5, 6] && toks[..3] == [5, 6, 7];
    assert HitAt(CACHED, toks, 0) == Some(0) && HitAt(CACHED, toks, 1) == Some(1) && HitAt(CACHED, toks, 2) == None;
    assert HitsFrom(CACHED, toks, 2) == [];
    assert HitsFrom(CACHED, toks, 1) == [1];
    assert HitsFrom(CACHED, toks, 0) == [0, 1];
    var ids: seq<BlockId> := [0, 1];
    assert ids[1..] == [1] && [1][1..] == [];
    assert CountFree(CACHED.pool.blocks, []) == 0 && CountFree(CACHED.pool.blocks, [1]) == 1;
    assert CountFree(CACHED.pool.blocks, ids) == 2;
    TryAllocAccounting(CACHED, FinalTexts(NewManager(1, 3), map[], RUN), 2, toks, 97);
  }
}
