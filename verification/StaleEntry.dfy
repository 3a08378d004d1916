/** A transfer whose block is never found (runtime/src/llm_engine/block_manager.rs, lines 543-609): reserving
    a block leaves the table entry of its old content behind, and activation does not replace an entry. */
module StaleEntry {
  import opened Prelude
  import opened BlockPool
  import opened BlockManagerSpec
  import opened BlockManagerInv
  import opened OneToken
  import opened BlockManagerRuns
  import opened Lifecycle
  import T = Transfer

  // Blocks of one token. The decode node computes and releases [5], whose block is then reserved for
  // another text and given back. Then [5] is transferred to it.

  const RUN: seq<Op> := [OpAlloc(1, [5]), OpUpdateFilled(1, 1), OpFree(1, false), OpReserve([7, 8], 0, 0), OpUnpin(0)]

  const H5: Hash := Of([5])
  const B5 := Block(1, Used, [5], H5)
  const NONE := Block(0, Free, [], NoHash)
  const F5 := Block(0, Free, [5], H5)
  const U7 := Block(1, Used, [7], Of([7]))
  const U8 := Block(1, Used, [8], Of([7, 8]))
  const F7 := Block(0, Free, [7], Of([7]))
  const F8 := Block(0, Free, [8], Of([7, 8]))
  const TABLE: map<Hash, BlockId> := map[H5 := 0]

  const M0: Manager := NewManager(1, 2)
  const M1: Manager := Manager(1, Pool([B5, NONE], [1]), TABLE, map[1 := BlockMap([0], 1, 0)], map[])
  const M2: Manager := M1.(maps := map[1 := BlockMap([0], 1, 1)])
  const M3: Manager := Manager(1, Pool([F5, NONE], [1, 0]), TABLE, map[], map[])
  const M4: Manager := Manager(1, Pool([U8, U7], []), TABLE, map[], map[0 := [1, 0]])
  /** The entry of [5] names block 0, which has the content of another text. */
  const M5: Manager := Manager(1, Pool([F8, F7], [1, 0]), TABLE, map[], map[])

  lemma Allocates()
    ensures AllocBlocks(M0, 1, [5]) == Ok((M1, 1))
  {
    hide AllocBlocks;
    assert M0.pool == Pool([NONE, NONE], [0, 1]);
    StoreOne(M0, 1, 5);
    assert Stored1(M0, 1, 5) == M1;
  }

  lemma Releases()
    ensures UpdateFilled(M1, 1, 1) == Ok(M2) && FreeSeq(M2, 1, false) == Ok(M3)
  {
    hide FreeSeq;
    assert M1.maps[1 := BlockMap([0], 1, 1)] == M2.maps;
    ReleaseOne(M2, M3, 1);
  }

  lemma Reserves()
    ensures Reserve(M3, [7, 8], 0, 0) == Ok((M4, Some(Region(0, [1, 0], [Of([7]), Of([7, 8])]))))
  {
    hide AllocBlock, ReserveFrom;
    var toks: seq<Token> := [7, 8];
    assert toks[..1] == [7] && toks[..2] == toks;
    var m1 := M3.(pool := Pool([F5, U7], [0]));
    var m2 := M3.(pool := M4.pool);
    var r1, r2 := Region(0, [1], [Of([7])]), Region(0, [1, 0], [Of([7]), Of([7, 8])]);
    var p1, p2 := Pool([F5, Block(1, Used, [], NoHash)], [0]), Pool([B5, U7], []);
    Taken(M3.pool, p1, 1);
    assert p1.blocks[1 := U7] == m1.pool.blocks;
    ReserveOne(M3, p1, 1, U7, m1, toks, 0, Region(0, [], []), r1);
    Taken(m1.pool, p2, 0);
    assert p2.blocks[0 := U8] == m2.pool.blocks;
    ReserveOne(m1, p2, 0, U8, m2, toks, 1, r1, r2);
    ReserveEnds(m2, toks, r2);
    assert Whole(0, 1) == 0 && Offset(0, 1) == 0;
    assert m2.regions[0 := r2.ids] == M4.regions;
  }

  lemma Unpins()
    ensures BlockManagerSpec.Unpin(M4, 0) == Ok((M5, 2))
  {
    hide FreeBlock;
    var ids: seq<BlockId> := [1, 0];
    assert ids[1..] == [0] && ids[1..][1..] == [];
    var p := Pool([U8, F7], [1]);
    Given(M4.pool, p, 1);
    Given(p, M5.pool, 0);
    assert UnpinAll(M5.pool, []) == Ok(M5.pool);
    assert UnpinAll(p, ids[1..]) == Ok(M5.pool);
    assert UnpinAll(M4.pool, ids) == Ok(M5.pool);
    assert M4.regions - {0} == map[];
  }

  const TEXTS: Texts := map[1 := [5]]

  lemma Steps()
    ensures Step(M0, RUN[0]) == Ok(M1) && Step(M1, RUN[1]) == Ok(M2) && Step(M2, RUN[2]) == Ok(M3)
    ensures Step(M3, RUN[3]) == Ok(M4) && Step(M4, RUN[4]) == Ok(M5)
  {
    hide AllocBlocks, UpdateFilled, FreeSeq, Reserve, BlockManagerSpec.Unpin;
    Allocates();
    Releases();
    Reserves();
    Unpins();
  }

  /** The decode node is reachable, and so is the prefill node, which has come as far as its third step. */
  lemma Reached()
    ensures LegalRun(M0, map[], RUN) && Exec(M0, RUN) == Ok(M5) && Exec(M0, RUN[..2]) == Ok(M2)
  {
    hide Step;
    Steps();
    var r1, r2, r3, r4 := RUN[1..], RUN[2..], RUN[3..], RUN[4..];
    assert r1[1..] == r2 && r2[1..] == r3 && r3[1..] == r4 && r4[1..] == [];
    assert Exec(M4, r4) == Ok(M5) && Exec(M3, r3) == Ok(M5) && Exec(M2, r2) == Ok(M5) && Exec(M1, r1) == Ok(M5);
    assert LegalRun(M4, TEXTS, r4) && LegalRun(M3, TEXTS, r3) && LegalRun(M2, TEXTS, r2) && LegalRun(M1, TEXTS, r1);
    var run := RUN[..2];
    assert run[1..] == [RUN[1]] && run[1..][1..] == [];
    assert Exec(M1, run[1..]) == Ok(M2);
  }

  lemma BothOk()
    ensures Inv(M2, TEXTS, multiset{}) && Inv(M5, TEXTS, multiset{})
  {
    hide Step, Inv;
    Steps();
    NewManagerInv(1, 2);
    StepSafe(M0, map[], RUN[0]);
    assert NextTexts(M0, map[], RUN[0]) == TEXTS;
    StepSafe(M1, TEXTS, RUN[1]);
    StepSafe(M2, TEXTS, RUN[2]);
    StepSafe(M3, TEXTS, RUN[3]);
    StepSafe(M4, TEXTS, RUN[4]);
  }

  // ---------------------------------------------------------------- the transfer

  const DST := Region(1, [1], [H5])
  const SRC := Region(1, [0], [H5])
  const D1: Manager := Manager(1, Pool([F8, B5], [0]), TABLE, map[], map[1 := [1]])
  const D2: Manager := Manager(1, Pool([F8, F5], [0, 1]), TABLE, map[], map[])
  const P1: Manager := Manager(1, Pool([B5.(refCnt := 2), NONE], [1]), TABLE, M2.maps, map[1 := [0]])

  const SENDER: T.Node := T.Node(M2, TEXTS, [T.KvOf(H5), T.Stale])
  const PINNED: T.Node := T.Node(P1, TEXTS, [T.KvOf(H5), T.Stale])

  const S0: T.System := T.System(SENDER, T.Node(M5, TEXTS, [T.Stale, T.Stale]), T.Idle)
  const S1: T.System := T.System(SENDER, T.Node(D1, TEXTS, [T.Stale, T.Stale]), T.Reserving(DST))
  const S2: T.System := T.System(PINNED, T.Node(D1, TEXTS, [T.Stale, T.Stale]), T.Pushing(DST, SRC, 0))
  const S3: T.System := T.System(PINNED, T.Node(D1, TEXTS, [T.Stale, T.KvOf(H5)]), T.Pushing(DST, SRC, 1))
  const S4: T.System := T.System(SENDER, T.Node(D1, TEXTS, [T.Stale, T.KvOf(H5)]), T.Unpinned(DST, SRC))
  const S5: T.System := T.System(SENDER, T.Node(D2, TEXTS, [T.Stale, T.KvOf(H5)]), T.Triggered(DST, SRC, 1))

  lemma ReservesForTransfer()
    ensures Reserve(M5, [5], 0, 1) == Ok((D1, Some(DST)))
  {
    hide Reserve;
    ReserveSingle(M5, 5, 1, 1, D1);
  }

  lemma Pins()
    ensures PinHashes(M2, [H5], 1) == Ok((P1, SRC)) && BlockManagerSpec.Unpin(P1, 1) == Ok((M2, 1))
  {
    var hs := [H5];
    assert hs[1..] == [] && [0][1..] == [];
    assert M2.pool.blocks[0 := B5.(refCnt := 2)] == P1.pool.blocks && P1.pool.blocks[0 := B5] == M2.pool.blocks;
    assert PinBlock(M2.pool, 0) == Ok(P1.pool) && FreeBlock(P1.pool, 0) == Ok(M2.pool);
    var m := M2.(pool := P1.pool);
    assert PinHashesFrom(m, [], SRC) == Ok((m, SRC));
    assert [] + [0] == SRC.ids && [] + [H5] == SRC.hashes;
    assert PinHashesFrom(M2, hs, Region(1, [], [])) == PinHashesFrom(m, hs[1..], SRC);
    assert m.regions[1 := SRC.ids] == P1.regions;
    assert UnpinAll(M2.pool, []) == Ok(M2.pool);
    assert P1.regions - {1} == map[];
  }

  lemma Activates()
    ensures Activate(D1, 1, [H5]) == Ok((D2, 1)) && Lookup(D2, H5) == None
  {
    hide Activate;
    ActivateSingle(D1, 1, 1, H5, D2);
  }

  const ACTIONS: seq<T.Action> := [T.Reserve([5], 0, 1), T.Pin(1), T.PushBlock, T.Unpin, T.Trigger]
  const TRACE: seq<T.System> := [S0, S1, S2, S3, S4, S5]

  lemma Transfers()
    ensures T.Enabled(S0, ACTIONS[0]) && T.Do(S0, ACTIONS[0]) == Ok(S1)
    ensures T.Enabled(S1, ACTIONS[1]) && T.Do(S1, ACTIONS[1]) == Ok(S2)
    ensures T.Enabled(S2, ACTIONS[2]) && T.Do(S2, ACTIONS[2]) == Ok(S3)
  {
    hide Reserve, PinHashes;
    ReservesForTransfer();
    Pins();
    assert S2.dst.mem[1 := T.KvOf(H5)] == S3.dst.mem;
  }

  lemma Closes()
    ensures T.Enabled(S3, ACTIONS[3]) && T.Do(S3, ACTIONS[3]) == Ok(S4)
    ensures T.Enabled(S4, ACTIONS[4]) && T.Do(S4, ACTIONS[4]) == Ok(S5)
  {
    hide BlockManagerSpec.Unpin, Activate;
    Pins();
    Activates();
  }

  lemma IsTransfer()
    ensures T.IsRun(TRACE, ACTIONS) && T.SystemOk(S0)
  {
    hide Inv, T.Enabled, T.Do;
    BothOk();
    Transfers();
    Closes();
  }

  /** A transferred block that is never found: both nodes are reachable, the transfer runs to its end, the
      received block holds the state of [5] and is activated; but [5] is not found, and the request that it
      was transferred for counts nothing as filled. */
  lemma TransferNotFound()
    ensures LegalRun(M0, map[], RUN) && Exec(M0, RUN) == Ok(M5) && Exec(M0, RUN[..2]) == Ok(M2)
    ensures S0.src.m == M2 && S0.dst.m == M5 && T.IsRun(TRACE, ACTIONS) && T.SystemOk(S0)
    ensures S5.phase == T.Triggered(DST, SRC, 1) && T.Holds(S5.dst.mem, DST, 1) && SRC.hashes == [H5]
    ensures H5 in M5.table && Lookup(M5, H5) == None && Lookup(S5.dst.m, H5) == None
    ensures TriggerOn(S4.dst.m, 2, [5], Some(1), [H5]) == Ok(D2.(maps := map[2 := BlockMap([], 0, 0)]))
  {
    hide LegalRun, Exec, Activate, T.IsRun, T.SystemOk;
    Reached();
    IsTransfer();
    Activates();
    var toks: seq<Token> := [5];
    assert toks[..1] == toks;
    assert HitsFrom(D2, toks, 0) == [];
    assert PinAll(D2.pool, []) == Ok(D2.pool);
  }
}
