/** An allocation that takes back what it has just published
    (runtime/src/llm_engine/block_manager.rs, lines 450-476): giving a block new content removes the table
    entry of its old hash, even if that entry names another block by now. */
module Unpublished {
  import opened Prelude
  import opened BlockPool
  import opened BlockManagerSpec
  import opened BlockManagerInv
  import opened Allocation
  import opened Release
  import opened BlockManagerRuns
  import opened Publication
  import S = StaleEntry

  // Two blocks of one token. [5] is computed in block 0 and released, and the cache is cleared. The text [5, 6]
  // gets block 1 for [5] and then block 0, which still carries the hash of [5].

  const RUN: seq<Op> := S.RUN[..3] + [OpClearCache, OpAlloc(2, [5, 6])]
  const CLEARED: Manager := ClearCache(S.M3)

  lemma Clears()
    ensures Inv(CLEARED, S.TEXTS, multiset{})
    ensures Exec(S.M0, RUN) == Step(CLEARED, RUN[4]) && LegalRun(S.M0, map[], RUN)
  {
    hide Step, Inv;
    S.Steps();
    NewManagerInv(1, 2);
    StepSafe(S.M0, map[], RUN[0]);
    assert NextTexts(S.M0, map[], RUN[0]) == S.TEXTS;
    StepSafe(S.M1, S.TEXTS, RUN[1]);
    StepSafe(S.M2, S.TEXTS, RUN[2]);
    ClearCacheSafe(S.M3, S.TEXTS);
    StepClears(S.M3);
    var r1, r2, r3, r4 := RUN[1..], RUN[2..], RUN[3..], RUN[4..];
    assert r1[1..] == r2 && r2[1..] == r3 && r3[1..] == r4 && r4[1..] == [];
    assert LegalRun(CLEARED, S.TEXTS, r4) && LegalRun(S.M3, S.TEXTS, r3) && LegalRun(S.M2, S.TEXTS, r2);
    assert LegalRun(S.M1, S.TEXTS, r1);
    assert Exec(CLEARED, r4) == Step(CLEARED, RUN[4]) && Exec(S.M3, r3) == Exec(CLEARED, r4);
    assert Exec(S.M2, r2) == Exec(S.M3, r3) && Exec(S.M1, r1) == Exec(S.M2, r2);
  }

  lemma StepClears(m: Manager)
    ensures Step(m, OpClearCache) == Ok(ClearCache(m))
  {
  }

  /** The run is legal, and the block of [5] carries its hash; but [5] is not found. */
  lemma FirstChunkNotFound()
    ensures LegalRun(S.M0, map[], RUN) && Exec(S.M0, RUN).Ok?
    ensures var m := Exec(S.M0, RUN).value;
      && 2 in m.maps && m.maps[2].ids == [1, 0] && |m.pool.blocks| == 2 && m.pool.blocks[1].hash == Of([5])
      && Lookup(m, Of([5])) == None
  {
    hide LegalRun, Exec, Inv, AllocBlocks, Lookup, Recycled, Completes, ChunkHash, NewlyFull;
    var toks: seq<Token> := [5, 6];
    Clears();
    TwoNeeded();
    AllocBlocksSafe(CLEARED, S.TEXTS, 2, toks);
    AllocPublishes(CLEARED, S.TEXTS, 2, toks);
    var m := AllocBlocks(CLEARED, 2, toks).value.0;
    assert CLEARED.pool.free[..2] == [1, 0] && [] + [1, 0] == [1, 0];
    FirstChunk(toks);
    CarriesChunk(m, S.TEXTS[2 := toks], 2, toks, 0);
    FirstOnly(toks, m.pool.blocks[1].hash);
    assert Recycled(CLEARED, m, 2, 1, Of([5])) by {
      Reuses(m);
    }
  }

  lemma TwoNeeded()
    ensures Needed(CLEARED, 2, [5, 6]) == 2 && DivCeil(2, 1) == 2
  {
  }

  lemma FirstChunk(toks: seq<Token>)
    requires toks == [5, 6]
    ensures Completes(CLEARED, 2, toks, 0) && ChunkHash(toks, 1, 0, Of([5])) && Offset(1, 1) == 1
  {
    assert Offset(0, 1) == 0 && Offset(0 + 1, 1) == 1;
    assert toks[..1] == [5];
  }

  lemma FirstOnly(toks: seq<Token>, h: Hash)
    requires toks == [5, 6] && ChunkHash(toks, 1, 0, h)
    ensures h == Of([5])
  {
    assert Offset(0, 1) == 0 && Offset(0 + 1, 1) == 1;
    assert toks[..1] == [5];
  }

  lemma Reuses(m: Manager)
    requires 2 in m.maps && m.maps[2].ids == [1, 0]
    ensures Recycled(CLEARED, m, 2, 1, Of([5]))
  {
    assert MapOf(m, 2).ids[1] == 0 && CLEARED.pool.blocks[0].hash == Of([5]);
  }
}
