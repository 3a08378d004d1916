/** Sequences of two tokens in blocks of one, for examples
    (runtime/src/llm_engine/block_manager.rs, lines 358-510). */
module TwoTokens {
  import opened Prelude
  import opened BlockPool
  import opened BlockManagerSpec

  /** The manager with a new sequence of two tokens in the first two free blocks. */
  function Stored(m: Manager, q: SeqId, a: Token, b: Token): Manager
  {
    if |m.pool.free| < 2 || m.pool.free[0] >= |m.pool.blocks| || m.pool.free[1] >= |m.pool.blocks| then m
    else
      var i, j := m.pool.free[0], m.pool.free[1];
      Manager(m.bs,
              Pool(m.pool.blocks[i := Block(1, Used, [a], Of([a]))][j := Block(1, Used, [b], Of([a, b]))],
                   m.pool.free[2..]),
              m.table[Of([a]) := i][Of([a, b]) := j],
              m.maps[q := BlockMap([i, j], 2, 0)],
              m.regions)
  }

  /** Two blank blocks are free and the text is not cached. */
  predicate Ready2(m: Manager, q: SeqId, a: Token, b: Token) {
    && m.bs == 1 && q !in m.maps && |m.pool.free| >= 2
    && var i, j := m.pool.free[0], m.pool.free[1];
    && i < |m.pool.blocks| && j < |m.pool.blocks| && i != j
    && m.pool.blocks[i] == Block(0, Free, [], NoHash) && m.pool.blocks[j] == Block(0, Free, [], NoHash)
    && Of([a]) !in m.table && Of([a, b]) !in m.table && NoHash !in m.table
  }

  lemma AllocRound(m: Manager, p: Pool, id: BlockId, toks: seq<Token>, off: nat, acc: seq<BlockId>)
    requires AllocBlock(m.pool) == Ok((p, id)) && id < |p.blocks| && off < |toks|
    ensures AllocFresh(m, toks, off, acc) == AllocFresh(StoreChunk(m.(pool := p), id, toks, off), toks, off + m.bs,
                                                        acc + [id])
  {
    hide AllocBlock, StoreChunk;
  }

  /** One fresh block of one token. */
  lemma StoreOne(m: Manager, toks: seq<Token>, off: nat, acc: seq<BlockId>)
    requires m.bs == 1 && off < |toks| && m.pool.free != [] && m.pool.free[0] < |m.pool.blocks|
    requires m.pool.blocks[m.pool.free[0]] == Block(0, Free, [], NoHash) && NoHash !in m.table
    ensures var id := m.pool.free[0];
      AllocFresh(m, toks, off, acc) ==
        AllocFresh(m.(pool := Pool(m.pool.blocks[id := Block(1, Used, [toks[off]], Of(toks[..off + 1]))],
                                   m.pool.free[1..]),
                      table := m.table[Of(toks[..off + 1]) := id]), toks, off + 1, acc + [id])
  {
    var id := m.pool.free[0];
    var p := Pool(m.pool.blocks[id := Block(1, Used, [], NoHash)], m.pool.free[1..]);
    AllocRound(m, p, id, toks, off, acc);
    assert toks[off..off + 1] == [toks[off]];
    assert m.table - {NoHash} == m.table;
    var blk := Block(1, Used, [toks[off]], Of(toks[..off + 1]));
    assert p.blocks[id := Block(1, Used, [], NoHash)][id := blk] == m.pool.blocks[id := blk];
  }

  lemma StoreBoth(m: Manager, m0: Manager, q: SeqId, a: Token, b: Token)
    requires Ready2(m0, q, a, b) && (m == m0 || m == m0.(maps := m0.maps[q := BlockMap([], 0, 0)]))
    ensures AllocBlocks(m, q, [a, b]) == Ok((Stored(m0, q, a, b), 2))
  {
    hide AllocFresh;
    var toks := [a, b];
    var i, j := m.pool.free[0], m.pool.free[1];
    assert toks[..1] == [a] && toks[..2] == toks;
    StoreOne(m, toks, 0, []);
    var m1 := m.(pool := Pool(m.pool.blocks[i := Block(1, Used, [a], Of([a]))], m.pool.free[1..]),
                 table := m.table[Of([a]) := i]);
    StoreOne(m1, toks, 1, [i]);
    var m2 := m.(pool := Stored(m0, q, a, b).pool, table := Stored(m0, q, a, b).table);
    assert m1.pool.free[1..] == m.pool.free[2..];
    StoreDone(m2, toks, [i, j]);
    assert [] + [i] == [i] && [i] + [j] == [i, j] && [] + [i, j] == [i, j];
    assert m2.maps[q := BlockMap([i, j], 2, 0)] == m0.maps[q := BlockMap([i, j], 2, 0)];
  }

  lemma StoreDone(m: Manager, toks: seq<Token>, acc: seq<BlockId>)
    ensures AllocFresh(m, toks, |toks|, acc) == Ok((m, acc))
  {
  }

  lemma NoHits(m: Manager, q: SeqId, toks: seq<Token>)
    requires q !in m.maps && (m.bs <= |toks| ==> Of(toks[..m.bs]) !in m.table)
    ensures Hits(m, toks) == [] && InitPrefix(m, q, toks) == Ok((m.(maps := m.maps[q := BlockMap([], 0, 0)]), 0))
  {
  }
}
