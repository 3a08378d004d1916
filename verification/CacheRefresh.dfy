/** When refreshing the cached blocks of a sequence leaves its block list in order
    (runtime/src/llm_engine/block_manager.rs, lines 512-547). The source appends the new hits behind all
    blocks of the sequence but counts them from its filled length. */
module CacheRefresh {
  import opened Prelude
  import opened BlockPool
  import opened BlockManagerSpec
  import opened BlockManagerInv
  import opened Allocation
  import opened PrefixCache
  import opened Dispatch

  /** The offset from which a refresh looks for hits: the filled length, rounded up to whole blocks. */
  function RefreshFrom(bm: BlockMap, bs: BlockSize): nat { Offset(DivCeil(bm.filled, bs), bs) }

  /** The cached blocks that a refresh takes over. */
  function FurtherHits(m: Manager, q: SeqId, toks: seq<Token>): seq<BlockId>
    requires q in m.maps
  {
    HitsFrom(m, toks, RefreshFrom(m.maps[q], m.bs))
  }

  /** What a refresh yields for any mapped sequence. */
  lemma RefreshValue(m: Manager, texts: Texts, q: SeqId, toks: seq<Token>)
    requires Inv(m, texts, multiset{}) && q in m.maps && texts[q] <= toks
    ensures var bm := m.maps[q]; var from := RefreshFrom(bm, m.bs);
      if from > |toks| then UpdatePrefix(m, q, toks) == Panic(BadRange)
      else
        var more := HitsFrom(m, toks, from);
        var n := bm.filled + Offset(|more|, m.bs);
        && UpdatePrefix(m, q, toks).Ok?
        && var (m', added) := UpdatePrefix(m, q, toks).value;
        && m'.maps == m.maps[q := BlockMap(bm.ids + more, n, n)] && SameContents(m.pool, m'.pool)
        && added == Offset(|more|, m.bs)
  {
    hide Inv, HitsFrom, PinAll, DivCeil, CountFree, FullBlocks;
    var bm, bs := m.maps[q], m.bs;
    var from := RefreshFrom(bm, bs);
    OffsetIsProduct(DivCeil(bm.filled, bs), bs);
    assert toks[..|toks|] == toks;
    if from <= |toks| {
      var more := HitsFrom(m, toks, from);
      HitsSpell(m, texts, multiset{}, toks, from);
      PinAllSafe(m, texts, multiset{}, more);
      OffsetIsProduct(|more|, bs);
    }
  }

  /** The last block of a spelled list holds what lies beyond the blocks before it. */
  lemma LastLength(bs: BlockSize, blocks: seq<Block>, bm: BlockMap, text: seq<Token>)
    requires Spells(bs, blocks, bm, text) && bm.ids != []
    ensures var i := |bm.ids| - 1;
      bm.ids[i] < |blocks| && |blocks[bm.ids[i]].tokens| == bm.slots - Offset(i, bs)
  {
    hide Offset;
    var i := |bm.ids| - 1;
    OffsetSucc(i, bs);
    assert ChunkIs(blocks[bm.ids[i]], text[..bm.slots], 0 + Offset(i, bs), bs);
    SpelledCovers(bs, blocks, bm, text);
  }

  lemma SpelledCovers(bs: BlockSize, blocks: seq<Block>, bm: BlockMap, text: seq<Token>)
    requires Spells(bs, blocks, bm, text)
    ensures bm.ids == [] ==> bm.slots == 0
    ensures bm.ids != [] ==> Offset(|bm.ids| - 1, bs) < bm.slots <= Offset(|bm.ids| - 1, bs) + bs
  {
  }

  /** Without further hits, the refreshed list is in order only if all slots were filled. */
  lemma NoHitsOnlyIf(bs: BlockSize, blocks: seq<Block>, blocks': seq<Block>, bm: BlockMap, text: seq<Token>,
                     toks: seq<Token>)
    requires Spells(bs, blocks, bm, text) && Spells(bs, blocks', BlockMap(bm.ids, bm.filled, bm.filled), toks)
    requires |blocks'| == |blocks| && forall b :: 0 <= b < |blocks| ==> blocks'[b].SameContent(blocks[b])
    ensures bm.filled == bm.slots
  {
    hide Spells;
    if bm.ids == [] {
      SpelledCovers(bs, blocks, bm, text);
      SpelledCovers(bs, blocks', BlockMap(bm.ids, bm.filled, bm.filled), toks);
    } else {
      LastLength(bs, blocks, bm, text);
      LastLength(bs, blocks', BlockMap(bm.ids, bm.filled, bm.filled), toks);
    }
  }

  /** With further hits, only if moreover the slots were whole blocks. */
  lemma HitsOnlyIf(bs: BlockSize, blocks: seq<Block>, blocks': seq<Block>, bm: BlockMap, text: seq<Token>,
                   more: seq<BlockId>, toks: seq<Token>)
    requires Spells(bs, blocks, bm, text) && more != []
    requires var n := bm.filled + Offset(|more|, bs); Spells(bs, blocks', BlockMap(bm.ids + more, n, n), toks)
    requires |blocks'| == |blocks| && forall b :: 0 <= b < |blocks| ==> blocks'[b].SameContent(blocks[b])
    requires more[|more| - 1] < |blocks| && |blocks[more[|more| - 1]].tokens| == bs
    ensures Settled(bs, bm)
  {
    hide Spells, Offset;
    var k, l := |bm.ids|, |more|;
    var n := bm.filled + Offset(l, bs);
    var after := BlockMap(bm.ids + more, n, n);
    LastLength(bs, blocks', after, toks);
    assert after.ids[|after.ids| - 1] == more[l - 1];
    OffsetSucc(k + l - 1, bs);
    OffsetAdd(k, l, bs);
    assert bm.filled == Offset(k, bs);
    FilledWithin(bs, blocks, bm, text);
    if k > 0 {
      OffsetSucc(k - 1, bs);
      SpelledCovers(bs, blocks, bm, text);
    } else {
      SpelledCovers(bs, blocks, bm, text);
    }
  }

  lemma FilledWithin(bs: BlockSize, blocks: seq<Block>, bm: BlockMap, text: seq<Token>)
    requires Spells(bs, blocks, bm, text)
    ensures bm.filled <= bm.slots <= |text|
  {
  }

  /** A hit is a full block. */
  lemma HitsFull(m: Manager, texts: Texts, toks: seq<Token>, from: nat)
    requires Inv(m, texts, multiset{})
    ensures var more := HitsFrom(m, toks, from);
      forall i :: 0 <= i < |more| ==> more[i] < |m.pool.blocks| && |m.pool.blocks[more[i]].tokens| == m.bs
  {
    hide Inv, HitsFrom, PoolOk, TableOk, RegionsOk, MapsOk, Held, ListSpells;
    InvParts(m, texts, multiset{});
    HitsSpell(m, texts, multiset{}, toks, from);
    var more := HitsFrom(m, toks, from);
    forall i | 0 <= i < |more|
      ensures more[i] < |m.pool.blocks| && |m.pool.blocks[more[i]].tokens| == m.bs
    {
      assert BlockOk(m.bs, m.pool.blocks[more[i]]);
    }
  }

  /** The refreshed block list spells the text exactly if all slots were filled before and, should there
      be further hits, the slots were whole blocks. A refresh in the middle of a block can even panic. */
  lemma RefreshExact(m: Manager, texts: Texts, q: SeqId, toks: seq<Token>)
    requires Inv(m, texts, multiset{}) && q in m.maps && texts[q] <= toks
    ensures UpdatePrefix(m, q, toks).Ok? <==> RefreshFrom(m.maps[q], m.bs) <= |toks|
    ensures UpdatePrefix(m, q, toks).Ok? ==>
      var m' := UpdatePrefix(m, q, toks).value.0;
      && q in m'.maps
      && (Spells(m.bs, m'.pool.blocks, m'.maps[q], toks) <==>
            m.maps[q].filled == m.maps[q].slots && (FurtherHits(m, q, toks) == [] || Aligned(m.maps[q].slots, m.bs)))
  {
    hide Inv, UpdatePrefix, Spells, HitsFrom, DivCeil, Offset, Whole;
    RefreshValue(m, texts, q, toks);
    if UpdatePrefix(m, q, toks).Ok? {
      RefreshIff(m, texts, q, toks);
    }
  }

  lemma RefreshIff(m: Manager, texts: Texts, q: SeqId, toks: seq<Token>)
    requires Inv(m, texts, multiset{}) && q in m.maps && texts[q] <= toks && UpdatePrefix(m, q, toks).Ok?
    ensures var m' := UpdatePrefix(m, q, toks).value.0;
      && q in m'.maps
      && (Spells(m.bs, m'.pool.blocks, m'.maps[q], toks) <==>
            m.maps[q].filled == m.maps[q].slots && (FurtherHits(m, q, toks) == [] || Aligned(m.maps[q].slots, m.bs)))
  {
    hide Inv, UpdatePrefix, Spells, HitsFrom, DivCeil, Offset, Whole, PoolOk, BlocksOk, TableOk, RegionsOk, Held;
    var bm, bs := m.maps[q], m.bs;
    var m' := UpdatePrefix(m, q, toks).value.0;
    RefreshValue(m, texts, q, toks);
    InvParts(m, texts, multiset{});
    var more := FurtherHits(m, q, toks);
    if Spells(bs, m'.pool.blocks, m'.maps[q], toks) {
      if more == [] {
        OffsetSucc(0, bs);
        assert bm.ids + more == bm.ids;
        NoHitsOnlyIf(bs, m.pool.blocks, m'.pool.blocks, bm, texts[q], toks);
      } else {
        HitsFull(m, texts, toks, RefreshFrom(bm, bs));
        HitsOnlyIf(bs, m.pool.blocks, m'.pool.blocks, bm, texts[q], more, toks);
        OffsetAligned(|bm.ids|, bs);
      }
    }
    if bm.filled == bm.slots && (more == [] || Aligned(bm.slots, bs)) {
      if more == [] {
        OffsetSucc(0, bs);
        assert bm.ids + more == bm.ids;
        KeptList(bs, m.pool.blocks, m'.pool.blocks, bm, texts[q], toks);
      } else {
        AlignedSettled(bs, m.pool.blocks, bm, texts[q]);
        UpdatePrefixSafe(m, texts, q, toks);
        CachedSpells(m, m', texts, q, toks);
      }
    }
  }

  lemma KeptList(bs: BlockSize, blocks: seq<Block>, blocks': seq<Block>, bm: BlockMap, text: seq<Token>,
                 toks: seq<Token>)
    requires Spells(bs, blocks, bm, text) && text <= toks && bm.filled == bm.slots
    requires |blocks'| == |blocks| && forall b :: 0 <= b < |blocks| ==> blocks'[b].SameContent(blocks[b])
    ensures Spells(bs, blocks', BlockMap(bm.ids, bm.filled, bm.filled), toks)
  {
    hide ListSpells, Covers;
    assert toks[..bm.slots] == text[..bm.slots];
    SameListSpells(bs, blocks, blocks', bm.ids, text[..bm.slots]);
  }

  lemma AlignedSettled(bs: BlockSize, blocks: seq<Block>, bm: BlockMap, text: seq<Token>)
    requires Spells(bs, blocks, bm, text) && bm.filled == bm.slots && Aligned(bm.slots, bs)
    ensures Settled(bs, bm)
  {
    hide ListSpells, Offset, Covers;
    CoversExact(Whole(bm.slots, bs), bs);
    CoversUnique(|bm.ids|, Whole(bm.slots, bs), bm.slots, bs);
  }

  lemma CachedSpells(m: Manager, m': Manager, texts: Texts, q: SeqId, toks: seq<Token>)
    requires Cached(m, m', texts, q, toks)
    ensures q in m'.maps && Spells(m'.bs, m'.pool.blocks, m'.maps[q], toks) && m'.bs == m.bs
  {
    hide PoolOk, BlocksOk, TableOk, RegionsOk, Held, Spells, Pinned, MoreHits;
  }

  /** So a refresh right after allocation, with nothing filled yet, breaks the block list. */
  lemma RefreshBreaksUnfilled(bs: BlockSize, n: nat, q: SeqId, toks: seq<Token>)
    requires toks != [] && DivCeil(|toks|, bs) <= n
    ensures AllocBlocks(NewManager(bs, n), q, toks).Ok?
    ensures var m := AllocBlocks(NewManager(bs, n), q, toks).value.0;
      && q in m.maps && UpdatePrefix(m, q, toks).Ok? && q in UpdatePrefix(m, q, toks).value.0.maps
      && !Spells(bs, UpdatePrefix(m, q, toks).value.0.pool.blocks, UpdatePrefix(m, q, toks).value.0.maps[q], toks)
  {
    hide Inv, AllocBlocks, UpdatePrefix, Spells, DivCeil, HitsFrom;
    NewManagerInv(bs, n);
    AllocBlocksSafe(NewManager(bs, n), map[], q, toks);
    var m := AllocBlocks(NewManager(bs, n), q, toks).value.0;
    NothingFilled(bs);
    RefreshExact(m, map[q := toks], q, toks);
  }

  lemma NothingFilled(bs: BlockSize)
    ensures Offset(DivCeil(0, bs), bs) == 0
  {
    DivUnique(bs - 1, 0, bs);
  }
}
