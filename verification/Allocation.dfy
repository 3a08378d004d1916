/** `alloc_blocks`: what it takes, what it writes and what it leaves alone
    (runtime/src/llm_engine/block_manager.rs, lines 417-486). */
module Allocation {
  import opened Prelude
  import opened BlockPool
  import opened BlockManagerSpec
  import opened BlockManagerInv

  /** The number of chunks of `bs` tokens in which a loop with that step visits `n` tokens. */
  function Chunks(n: int, bs: nat): nat
    requires bs > 0
    decreases n
  {
    if n <= 0 then 0 else 1 + Chunks(n - bs, bs)
  }

  lemma {:induction false} ChunksCover(n: nat, bs: nat)
    requires bs > 0
    ensures Covers(Chunks(n, bs), n, bs)
  {
    if n > bs {
      ChunksCover(n - bs, bs);
      CoversAppend(1, Chunks(n - bs, bs), n - bs, bs);
    } else if n > 0 {
      assert Chunks(n - bs, bs) == 0;
    }
  }

  /** In-use blocks are untouched, and no reference count of an in-use block changes. */
  ghost predicate InUseSame(p: Pool, p': Pool) {
    && |p'.blocks| == |p.blocks|
    && forall b :: 0 <= b < |p.blocks| && p.blocks[b].refCnt > 0 ==> p'.blocks[b] == p.blocks[b]
  }

  lemma FreshChunkOk(bs: nat, toks: seq<Token>, off: nat, b: Block)
    requires bs > 0 && off < |toks| && b.refCnt == 1
    requires b.tokens == toks[off..Min(off + bs, |toks|)]
    requires b.hash == if off + bs <= |toks| then Of(toks[..off + bs]) else NoHash
    ensures BlockOk(bs, b) && ChunkIs(b, toks, off, bs)
  {
    if off + bs <= |toks| {
      assert toks[..off + bs][off..] == toks[off..off + bs];
    }
  }

  lemma StoreChunkFacts(m: Manager, id: BlockId, toks: seq<Token>, off: nat)
    requires id < |m.pool.blocks| && off < |toks|
    requires m.pool.blocks[id].refCnt == 1 && TableOk(m)
    ensures var m' := StoreChunk(m, id, toks, off);
      && m'.bs == m.bs && m'.maps == m.maps && m'.regions == m.regions
      && m'.pool.free == m.pool.free && |m'.pool.blocks| == |m.pool.blocks|
      && (forall b :: 0 <= b < |m.pool.blocks| && b != id ==> m'.pool.blocks[b] == m.pool.blocks[b])
      && m'.pool.blocks[id].refCnt == 1 && m'.pool.blocks[id].status == m.pool.blocks[id].status
      && BlockOk(m.bs, m'.pool.blocks[id]) && ChunkIs(m'.pool.blocks[id], toks, off, m.bs)
      && TableOk(m')
  {
    var m' := StoreChunk(m, id, toks, off);
    FreshChunkOk(m.bs, toks, off, m'.pool.blocks[id]);
  }

  /** Appending a block that holds the next chunk. */
  lemma ListSpellsAppend(bs: nat, blocks: seq<Block>, blocks': seq<Block>, acc: seq<BlockId>, id: BlockId,
                         toks: seq<Token>, from: nat)
    requires ListSpells(bs, blocks, acc, toks, from)
    requires |blocks'| == |blocks| && forall b :: b in acc ==> b < |blocks| && blocks'[b] == blocks[b]
    requires id < |blocks'| && ChunkIs(blocks'[id], toks, from + Offset(|acc|, bs), bs)
    ensures ListSpells(bs, blocks', acc + [id], toks, from)
  {
    hide ChunkIs;
  }

  lemma SameTableOk(m: Manager, m': Manager)
    requires TableOk(m) && m'.table == m.table && |m'.pool.blocks| == |m.pool.blocks|
    ensures TableOk(m')
  {
  }

  /** One iteration of the allocation loop. */
  lemma FreshChunkStep(m: Manager, texts: Texts, toks: seq<Token>, off: nat, acc: seq<BlockId>, from: nat)
    requires Inv(m, texts, multiset(acc)) && m.pool.free != [] && off < |toks|
    requires ListSpells(m.bs, m.pool.blocks, acc, toks, from) && off == from + Offset(|acc|, m.bs)
    ensures AllocBlock(m.pool).Ok?
    ensures
      var (p, id) := AllocBlock(m.pool).value;
      && id < |m.pool.blocks| == |p.blocks|
      && var m' := StoreChunk(m.(pool := p), id, toks, off);
      && Inv(m', texts, multiset(acc + [id]))
      && m'.bs == m.bs && m'.maps == m.maps && m'.regions == m.regions
      && InUseSame(m.pool, m'.pool) && |m'.pool.free| == |m.pool.free| - 1
      && ListSpells(m.bs, m'.pool.blocks, acc + [id], toks, from)
  {
    hide Inv, MapsOk, RegionsOk, BlocksOk, TableOk, Held, BlockOk, ChunkIs, StoreChunk, ListSpells, Offset;
    InvParts(m, texts, multiset(acc));
    var held := Held(m) + multiset(acc);
    AllocBlockSafe(m.pool, held);
    var (p, id) := AllocBlock(m.pool).value;
    SameTableOk(m, m.(pool := p));
    StoreChunkFacts(m.(pool := p), id, toks, off);
    var m' := StoreChunk(m.(pool := p), id, toks, off);
    FreshStep(m, texts, multiset(acc), m');
    assert multiset(acc + [id]) == multiset(acc) + multiset{id};
    assert CountOk(m.pool, held, id);
    forall b | b in acc
      ensures b < |m.pool.blocks| && m'.pool.blocks[b] == m.pool.blocks[b]
    {
      assert b in held;
    }
    ListSpellsAppend(m.bs, m.pool.blocks, m'.pool.blocks, acc, id, toks, from);
  }

  /** What the allocation loop leaves after taking `n` blocks: the list `ids`, spelling `toks` from
      `from` on, with every block in use as it was. */
  ghost predicate Allocated(m: Manager, m': Manager, texts: Texts, toks: seq<Token>, from: nat, ids: seq<BlockId>,
                            n: nat) {
    && Inv(m', texts, multiset(ids))
    && m'.bs == m.bs && m'.maps == m.maps && m'.regions == m.regions
    && InUseSame(m.pool, m'.pool) && |m'.pool.free| == |m.pool.free| - n
    && ListSpells(m.bs, m'.pool.blocks, ids, toks, from)
  }

  /** The allocation loop takes one fresh block for every chunk still to be stored, runs out exactly
      when the free list is shorter than that, and leaves every block in use alone. */
  lemma {:induction false} AllocFreshSafe(m: Manager, texts: Texts, toks: seq<Token>, off: nat, acc: seq<BlockId>,
                                          from: nat)
    requires Inv(m, texts, multiset(acc))
    requires ListSpells(m.bs, m.pool.blocks, acc, toks, from) && off == from + Offset(|acc|, m.bs)
    ensures var r := AllocFresh(m, toks, off, acc);
      var n := Chunks(|toks| - off, m.bs);
      if |m.pool.free| < n then r == Panic(Exhausted)
      else r.Ok? && |r.value.1| == |acc| + n && Allocated(m, r.value.0, texts, toks, from, r.value.1, n)
    decreases |toks| - off
  {
    hide ListSpells, MapsOk, RegionsOk, TableOk, BlocksOk, Held, StoreChunk, PoolOk;
    if off < |toks| {
      if m.pool.free == [] {
        AllocBlockSafe(m.pool, Held(m) + multiset(acc));
      } else {
        FreshChunkStep(m, texts, toks, off, acc, from);
        var (p, id) := AllocBlock(m.pool).value;
        var m1 := StoreChunk(m.(pool := p), id, toks, off);
        assert from + Offset(|acc + [id]|, m.bs) == off + m.bs;
        AllocFreshSafe(m1, texts, toks, off + m.bs, acc + [id], from);
      }
    }
  }

  lemma StoreChunkIgnoresMaps(m: Manager, id: BlockId, toks: seq<Token>, off: nat, maps: map<SeqId, BlockMap>)
    requires id < |m.pool.blocks| && off < |toks|
    ensures StoreChunk(m.(maps := maps), id, toks, off) == StoreChunk(m, id, toks, off).(maps := maps)
  {
  }

  /** The allocation loop does not look at the sequence table. */
  lemma {:induction false} AllocFreshIgnoresMaps(m: Manager, toks: seq<Token>, off: nat, acc: seq<BlockId>,
                                                 maps: map<SeqId, BlockMap>)
    ensures AllocFresh(m.(maps := maps), toks, off, acc) ==
      match AllocFresh(m, toks, off, acc)
      case Ok((m', ids)) => Ok((m'.(maps := maps), ids))
      case Panic(f) => Panic(f)
    decreases |toks| - off
  {
    if off < |toks| && AllocBlock(m.pool).Ok? {
      var (p, id) := AllocBlock(m.pool).value;
      if id < |p.blocks| {
        var m1 := StoreChunk(m.(pool := p), id, toks, off);
        StoreChunkIgnoresMaps(m.(pool := p), id, toks, off, maps);
        AllocFreshIgnoresMaps(m1, toks, off + m.bs, acc + [id], maps);
      }
    }
  }

  // ---------------------------------------------------------------- topping up the last block

  /** The last block of a mapped sequence holds the tail of its text. */
  lemma LastChunk(bs: nat, blocks: seq<Block>, bm: BlockMap, text: seq<Token>)
    requires bs > 0 && Spells(bs, blocks, bm, text) && bm.slots > 0
    ensures bm.ids != []
    ensures var k := |bm.ids| - 1;
      && bm.ids[k] < |blocks|
      && Offset(k, bs) < bm.slots <= Offset(k, bs) + bs
      && blocks[bm.ids[k]].tokens == text[Offset(k, bs)..bm.slots]
  {
    var k := |bm.ids| - 1;
    assert ChunkIs(blocks[bm.ids[k]], text[..bm.slots], 0 + Offset(k, bs), bs);
    assert text[..bm.slots][Offset(k, bs)..bm.slots] == text[Offset(k, bs)..bm.slots];
  }

  /** All blocks of a mapped sequence but the last are full. */
  lemma EarlierFull(bs: nat, blocks: seq<Block>, bm: BlockMap, text: seq<Token>, i: nat)
    requires bs > 0 && Spells(bs, blocks, bm, text) && i < |bm.ids|
    ensures bm.ids[i] < |blocks|
    ensures i < |bm.ids| - 1 || Offset(i, bs) + bs <= bm.slots ==>
      Offset(i, bs) + bs <= bm.slots && blocks[bm.ids[i]].hash == Of(text[..Offset(i, bs) + bs])
  {
    assert ChunkIs(blocks[bm.ids[i]], text[..bm.slots], 0 + Offset(i, bs), bs);
    if i < |bm.ids| - 1 {
      OffsetMono(i, |bm.ids| - 1, bs);
    }
    if Offset(i, bs) + bs <= bm.slots {
      assert text[..bm.slots][..Offset(i, bs) + bs] == text[..Offset(i, bs) + bs];
    }
  }

  /** An unfull block of a sequence appears nowhere else. */
  lemma UnfullIsPrivate(m: Manager, texts: Texts, q: SeqId)
    requires Inv(m, texts, multiset{}) && q in m.maps && m.maps[q].slots > 0
    requires m.maps[q].ids != []
    ensures var ids := m.maps[q].ids; var id := ids[|ids| - 1];
      && id < |m.pool.blocks|
      && (m.pool.blocks[id].hash == NoHash ==>
            && (forall i :: 0 <= i < |ids| - 1 ==> ids[i] != id)
            && (forall o :: o in m.maps && o != q ==> id !in m.maps[o].ids)
            && (forall r :: r in m.regions ==> id !in m.regions[r]))
  {
    var ids := m.maps[q].ids;
    var id := ids[|ids| - 1];
    LastChunk(m.bs, m.pool.blocks, m.maps[q], texts[q]);
    if m.pool.blocks[id].hash == NoHash {
      assert BlockOk(m.bs, m.pool.blocks[id]) && CountOk(m.pool, Held(m) + multiset{}, id);
      forall i | 0 <= i < |ids| - 1
        ensures ids[i] != id
      {
        EarlierFull(m.bs, m.pool.blocks, m.maps[q], texts[q], i);
      }
      forall o | o in m.maps && o != q
        ensures id !in m.maps[o].ids
      {
        if id in m.maps[o].ids {
          HeldTwice(m, q, o, id);
        }
      }
      forall r | r in m.regions
        ensures id !in m.regions[r]
      {
        assert FullBlocks(m.pool.blocks, m.regions[r]);
      }
    }
  }

  /** Where topping up the last block stops. */
  function FillEnd(bs: nat, slots: nat, blocks: nat, total: nat): nat {
    if slots == 0 then 0 else Min(Offset(blocks, bs), total)
  }

  lemma FillContent(bs: nat, toks: seq<Token>, at: nat, slots: nat, off: nat, b: Block, b': Block)
    requires bs > 0 && at < slots < off <= |toks| && off == Min(at + bs, |toks|)
    requires b.tokens == toks[at..slots] && b.hash == NoHash && b.refCnt <= 1
    requires b' == b.(tokens := b.tokens + toks[slots..off],
                      hash := if off == at + bs then Of(toks[..off]) else b.hash)
    ensures BlockOk(bs, b') && ChunkIs(b', toks[..off], at, bs)
  {
    assert b'.tokens == toks[at..off];
    FilledContent(bs, toks[..off], at, b');
  }

  lemma FilledContent(bs: nat, s: seq<Token>, at: nat, b: Block)
    requires bs > 0 && at < |s| <= at + bs
    requires b.tokens == s[at..] && b.hash == (if |s| == at + bs then Of(s) else NoHash) && b.refCnt <= 1
    ensures BlockOk(bs, b) && ChunkIs(b, s, at, bs)
  {
    assert s[..|s|] == s;
  }

  lemma {:induction false} HeldSameLists(m: Manager, m': Manager)
    requires Lists(m.maps) == Lists(m'.maps) && m.regions == m'.regions
    ensures Held(m) == Held(m')
  {
  }

  /** Only the unfull last block of `q` may differ. */
  ghost predicate ToppedUp(m: Manager, m1: Manager, q: SeqId)
    requires q in m.maps
  {
    var ids := m.maps[q].ids;
    && |m1.pool.blocks| == |m.pool.blocks|
    && forall b :: 0 <= b < |m.pool.blocks| ==>
         && m1.pool.blocks[b].refCnt == m.pool.blocks[b].refCnt
         && (m.pool.blocks[b].hash != NoHash || ids == [] || b != ids[|ids| - 1] ==>
            m1.pool.blocks[b] == m.pool.blocks[b])
  }

  /** What topping up returns, given the last block. */
  lemma FillLastShape(m: Manager, q: SeqId, toks: seq<Token>)
    requires q in m.maps && 0 < m.maps[q].slots <= |toks| && m.maps[q].ids != [] && TableOk(m)
    requires var ids := m.maps[q].ids; var id := ids[|ids| - 1];
      id < |m.pool.blocks| && |m.pool.blocks[id].tokens| <= m.bs
    ensures FillLast(m, q, toks).Ok?
    ensures var ids := m.maps[q].ids; var id := ids[|ids| - 1];
      var b := m.pool.blocks[id];
      var slots := m.maps[q].slots;
      var (m1, off) := FillLast(m, q, toks).value;
      && off == slots + Min(m.bs - |b.tokens|, |toks| - slots)
      && (off == slots ==> m1 == m)
      && m1.bs == m.bs && m1.maps == m.maps && m1.regions == m.regions && m1.pool.free == m.pool.free
      && TableOk(m1)
      && (off > slots ==>
            m1.pool.blocks == m.pool.blocks[id :=
              b.(tokens := b.tokens + toks[slots..off],
                 hash := if |b.tokens| + (off - slots) == m.bs then Of(toks[..off]) else b.hash)])
  {
  }

  lemma SpellsBounds(bs: nat, blocks: seq<Block>, bm: BlockMap, text: seq<Token>)
    requires Spells(bs, blocks, bm, text)
    ensures bm.filled <= bm.slots <= |text| && Covers(|bm.ids|, bm.slots, bs)
  {
  }

  /** Topping up fills the last block or stores the whole text, whichever comes first; the block it
      writes belongs to this sequence alone. */
  lemma FillLastSafe(m: Manager, texts: Texts, q: SeqId, toks: seq<Token>)
    requires Inv(m, texts, multiset{}) && q in m.maps && texts[q] <= toks
    ensures FillLast(m, q, toks).Ok?
    ensures var (m1, off) := FillLast(m, q, toks).value;
      var bm := m.maps[q];
      && off == FillEnd(m.bs, bm.slots, |bm.ids|, |toks|) && bm.slots <= off <= |toks|
      && m1.bs == m.bs && m1.maps == m.maps && m1.regions == m.regions && m1.pool.free == m.pool.free
      && Inv(m1.(maps := m.maps[q := bm.(slots := off)]), texts[q := toks], multiset{})
      && ToppedUp(m, m1, q)
  {
    hide Inv, Held, PoolOk, Spells, BlocksOk, TableOk, RegionsOk, FillLast;
    var bm := m.maps[q];
    OtherTextsIrrelevant(m, texts, q, toks);
    InvParts(m, texts[q := toks], multiset{});
    assert Spells(m.bs, m.pool.blocks, bm, toks);
    SpellsBounds(m.bs, m.pool.blocks, bm, toks);
    if bm.slots == 0 {
      NoFill(m, q, toks);
    } else {
      LastChunk(m.bs, m.pool.blocks, bm, toks);
      BlockOkAt(m.bs, m.pool.blocks, bm.ids[|bm.ids| - 1]);
      FillLastShape(m, q, toks);
      var (m1, off) := FillLast(m, q, toks).value;
      if off == bm.slots {
        assert m.maps[q := bm.(slots := off)] == m.maps;
      } else {
        FillLastWrites(m, texts[q := toks], q, toks, m1, off);
      }
    }
  }

  lemma BlockOkAt(bs: nat, blocks: seq<Block>, id: BlockId)
    requires BlocksOk(bs, blocks) && id < |blocks|
    ensures BlockOk(bs, blocks[id])
  {
  }

  lemma NoFill(m: Manager, q: SeqId, toks: seq<Token>)
    requires m.Slots(q) == 0
    ensures FillLast(m, q, toks) == Ok((m, 0))
    ensures q in m.maps ==> m.maps[q := m.maps[q].(slots := 0)] == m.maps && ToppedUp(m, m, q)
  {
  }

  lemma NotYetFull(bs: nat, b: Block)
    requires BlockOk(bs, b) && |b.tokens| < bs
    ensures b.hash == NoHash && b.refCnt <= 1
  {
  }

  lemma FillLastWrites(m: Manager, texts: Texts, q: SeqId, toks: seq<Token>, m1: Manager, off: nat)
    requires Inv(m, texts, multiset{}) && q in m.maps && texts[q] == toks
    requires 0 < m.maps[q].slots < off <= |toks| && m.maps[q].ids != []
    requires var ids := m.maps[q].ids; var id := ids[|ids| - 1];
      var at := Offset(|ids| - 1, m.bs);
      var slots := m.maps[q].slots;
      && id < |m.pool.blocks|
      && at < slots && off == Min(at + m.bs, |toks|) && m.pool.blocks[id].tokens == toks[at..slots]
      && m1.bs == m.bs && m1.maps == m.maps && m1.regions == m.regions && m1.pool.free == m.pool.free
      && TableOk(m1)
      && m1.pool.blocks == m.pool.blocks[id :=
           m.pool.blocks[id].(tokens := m.pool.blocks[id].tokens + toks[slots..off],
                              hash := if off == at + m.bs then Of(toks[..off]) else m.pool.blocks[id].hash)]
    ensures Inv(m1.(maps := m.maps[q := m.maps[q].(slots := off)]), texts, multiset{})
    ensures ToppedUp(m, m1, q)
  {
    hide Held, PoolOk, Spells, ChunkIs, BlockOk, FullBlocks, FillLast;
    var bm := m.maps[q];
    var k := |bm.ids| - 1;
    var id := bm.ids[k];
    assert BlockOk(m.bs, m.pool.blocks[id]);
    NotYetFull(m.bs, m.pool.blocks[id]);
    UnfullIsPrivate(m, texts, q);
    FillContent(m.bs, toks, Offset(k, m.bs), bm.slots, off, m.pool.blocks[id], m1.pool.blocks[id]);
    FillLastPool(m, m1, Held(m) + multiset{}, id);
    assert Spells(m.bs, m.pool.blocks, bm, toks);
    FillSpells(m.bs, m.pool.blocks, m1.pool.blocks, bm, toks, off);
    var m' := m1.(maps := m.maps[q := bm.(slots := off)]);
    assert Lists(m'.maps) == Lists(m.maps);
    HeldSameLists(m, m');
    hide BlocksOk;
    forall o | o in m'.maps && o != q
      ensures Spells(m.bs, m'.pool.blocks, m.maps[o], texts[o])
    {
      SpellsFrame(m.bs, m.pool.blocks, m'.pool.blocks, m.maps[o], texts[o]);
    }
    forall r | r in m'.regions
      ensures FullBlocks(m'.pool.blocks, m.regions[r])
    {
      FullFrame(m.pool.blocks, m'.pool.blocks, m.regions[r], id);
    }
  }

  lemma FullFrame(blocks: seq<Block>, blocks': seq<Block>, ids: seq<BlockId>, id: BlockId)
    requires FullBlocks(blocks, ids) && |blocks'| == |blocks| && id !in ids
    requires forall b :: 0 <= b < |blocks| && b != id ==> blocks'[b] == blocks[b]
    ensures FullBlocks(blocks', ids)
  {
  }

  lemma FillLastPool(m: Manager, m1: Manager, held: multiset<BlockId>, id: BlockId)
    requires PoolOk(m.pool, held) && BlocksOk(m.bs, m.pool.blocks) && id < |m.pool.blocks|
    requires m1.pool.free == m.pool.free && |m1.pool.blocks| == |m.pool.blocks|
    requires forall b :: 0 <= b < |m.pool.blocks| && b != id ==> m1.pool.blocks[b] == m.pool.blocks[b]
    requires m1.pool.blocks[id].refCnt == m.pool.blocks[id].refCnt
    requires m1.pool.blocks[id].status == m.pool.blocks[id].status
    requires BlockOk(m.bs, m1.pool.blocks[id])
    ensures PoolOk(m1.pool, held) && BlocksOk(m.bs, m1.pool.blocks)
  {
    forall b | 0 <= b < |m.pool.blocks|
      ensures CountOk(m1.pool, held, b) && BlockOk(m.bs, m1.pool.blocks[b])
    {
      assert CountOk(m.pool, held, b) && BlockOk(m.bs, m.pool.blocks[b]);
    }
  }

  lemma FillSpells(bs: nat, blocks: seq<Block>, blocks': seq<Block>, bm: BlockMap, toks: seq<Token>, off: nat)
    requires bs > 0 && Spells(bs, blocks, bm, toks) && bm.slots > 0 && bm.ids != []
    requires bm.slots <= off <= |toks| && off == Min(Offset(|bm.ids|, bs), |toks|)
    requires |blocks'| == |blocks|
    requires var k := |bm.ids| - 1;
      && (forall i :: 0 <= i < k ==> bm.ids[i] != bm.ids[k])
      && (forall b :: 0 <= b < |blocks| && b != bm.ids[k] ==> blocks'[b] == blocks[b])
      && bm.ids[k] < |blocks'| && ChunkIs(blocks'[bm.ids[k]], toks[..off], Offset(k, bs), bs)
    ensures Spells(bs, blocks', bm.(slots := off), toks)
  {
    hide ChunkIs;
    var k := |bm.ids| - 1;
    forall i | 0 <= i < |bm.ids|
      ensures bm.ids[i] < |blocks'| && ChunkIs(blocks'[bm.ids[i]], toks[..off], 0 + Offset(i, bs), bs)
    {
      assert ChunkIs(blocks[bm.ids[i]], toks[..bm.slots], 0 + Offset(i, bs), bs);
      if i < k {
        OffsetMono(i, k, bs);
        ChunkLonger(blocks[bm.ids[i]], toks[..bm.slots], toks[..off], Offset(i, bs), bs);
      }
    }
  }

  // ---------------------------------------------------------------- the whole operation

  /** The number of further blocks a text needs: what `get_num_required_blocks` counts for a mapped
      sequence, and the whole text for one that is not mapped yet. */
  function Needed(m: Manager, q: SeqId, toks: seq<Token>): int
  {
    DivCeil(|toks|, m.bs) - if q in m.maps then |m.maps[q].ids| else 0
  }

  /** `q`'s map as `alloc_blocks` finds it. */
  function MapOf(m: Manager, q: SeqId): BlockMap {
    if q in m.maps then m.maps[q] else BlockMap([], 0, 0)
  }

  lemma ChunksAreNeeded(k: nat, slots: nat, off: nat, total: nat, bs: nat)
    requires bs > 0 && off == FillEnd(bs, slots, k, total) && slots <= total && Covers(k, slots, bs)
    ensures Chunks(total - off, bs) == DivCeil(total, bs) - k
    ensures off < total ==> off == Offset(k, bs)
  {
    ChunksCover(total - off, bs);
    DivCeilCovers(total, bs);
    if off < total {
      CoversAppend(k, Chunks(total - off, bs), total - off, bs);
      CoversUnique(k + Chunks(total - off, bs), DivCeil(total, bs), total, bs);
    } else {
      if k > 0 {
        OffsetMono(k - 1, k, bs);
      }
      assert Covers(k, total, bs);
      CoversUnique(k, DivCeil(total, bs), total, bs);
    }
  }

  /** A full chunk of a prefix is a full chunk of the whole text. */
  lemma ChunkLonger(b: Block, s: seq<Token>, t: seq<Token>, at: nat, bs: nat)
    requires ChunkIs(b, s, at, bs) && at + bs <= |s| && s <= t
    ensures ChunkIs(b, t, at, bs)
  {
    assert s[at..at + bs] == t[at..at + bs];
    assert s[..at + bs] == t[..at + bs];
  }

  /** A spelled prefix and a spelled continuation form a spelled list. */
  lemma SpellsJoin(bs: nat, blocks: seq<Block>, ids: seq<BlockId>, more: seq<BlockId>, toks: seq<Token>, off: nat)
    requires bs > 0 && off <= |toks|
    requires ListSpells(bs, blocks, ids, toks[..off], 0) && ListSpells(bs, blocks, more, toks, off)
    requires off < |toks| ==> off == Offset(|ids|, bs)
    requires off == |toks| ==> more == []
    ensures ListSpells(bs, blocks, ids + more, toks, 0)
  {
    hide ChunkIs, Offset;
    var all := ids + more;
    forall i | 0 <= i < |all|
      ensures all[i] < |blocks| && ChunkIs(blocks[all[i]], toks, 0 + Offset(i, bs), bs)
    {
      if i < |ids| {
        JoinFirst(bs, blocks, ids, toks, off, i);
      } else {
        JoinSecond(bs, blocks, |ids|, more, toks, off, i - |ids|);
      }
    }
  }

  lemma JoinFirst(bs: nat, blocks: seq<Block>, ids: seq<BlockId>, toks: seq<Token>, off: nat, i: nat)
    requires bs > 0 && off <= |toks| && i < |ids| && ListSpells(bs, blocks, ids, toks[..off], 0)
    requires off < |toks| ==> off == Offset(|ids|, bs)
    ensures ids[i] < |blocks| && ChunkIs(blocks[ids[i]], toks, 0 + Offset(i, bs), bs)
  {
    hide ChunkIs, Offset;
    assert ChunkIs(blocks[ids[i]], toks[..off], 0 + Offset(i, bs), bs);
    if off < |toks| {
      OffsetMono(i, |ids|, bs);
      ChunkLonger(blocks[ids[i]], toks[..off], toks, Offset(i, bs), bs);
    } else {
      assert toks[..off] == toks;
    }
  }

  lemma JoinSecond(bs: nat, blocks: seq<Block>, n: nat, more: seq<BlockId>, toks: seq<Token>, off: nat, j: nat)
    requires j < |more| && ListSpells(bs, blocks, more, toks, off) && off == Offset(n, bs)
    ensures more[j] < |blocks| && ChunkIs(blocks[more[j]], toks, 0 + Offset(n + j, bs), bs)
  {
    hide ChunkIs, Offset;
    OffsetAdd(n, j, bs);
    assert ChunkIs(blocks[more[j]], toks, off + Offset(j, bs), bs);
  }

  /** Every block in use keeps its content and its count, except the unfull last block of `q`. */
  ghost predicate OthersKept(m: Manager, m': Manager, q: SeqId) {
    && |m'.pool.blocks| == |m.pool.blocks|
    && forall b :: 0 <= b < |m.pool.blocks| && m.pool.blocks[b].refCnt > 0 ==>
         (m.pool.blocks[b].hash != NoHash || b !in MapOf(m, q).ids ==> m'.pool.blocks[b] == m.pool.blocks[b])
  }

  /** What `alloc_blocks` achieves: the block list of `q` now spells all of `toks`, it took exactly
      the needed number of free blocks, and the other sequences and regions are as they were. */
  ghost predicate Extended(m: Manager, m': Manager, texts: Texts, q: SeqId, toks: seq<Token>)
  {
    && Inv(m', texts[q := toks], multiset{})
    && m'.bs == m.bs && m'.regions == m.regions
    && q in m'.maps && m'.maps == m.maps[q := m'.maps[q]]
    && m'.maps[q].slots == |toks| && m'.maps[q].filled == MapOf(m, q).filled
    && MapOf(m, q).ids <= m'.maps[q].ids && |m'.maps[q].ids| == DivCeil(|toks|, m.bs)
    && |m'.pool.free| == |m.pool.free| - Needed(m, q, toks)
    && OthersKept(m, m', q)
  }

  /** Allocation accounting: `alloc_blocks` succeeds exactly when the free list holds the needed
      blocks, and then it takes exactly that many. */
  lemma AllocBlocksSafe(m: Manager, texts: Texts, q: SeqId, toks: seq<Token>)
    requires Inv(m, texts, multiset{}) && (q in m.maps ==> texts[q] <= toks)
    ensures Needed(m, q, toks) >= 0
    ensures var r := AllocBlocks(m, q, toks);
      if |m.pool.free| < Needed(m, q, toks) then r == Panic(Exhausted)
      else r.Ok? && r.value.1 == |toks| - m.Slots(q) && Extended(m, r.value.0, texts, q, toks)
  {
    hide Inv, Held, PoolOk, BlocksOk, TableOk, RegionsOk, FillLast, AllocFresh, Spells, ListSpells, DivCeil;
    var texts' := texts[q := toks];
    var bm := MapOf(m, q);
    OtherTextsIrrelevant(m, texts, q, toks);
    InvParts(m, texts', multiset{});
    if q in m.maps {
      SpellsBounds(m.bs, m.pool.blocks, bm, toks);
      FillLastSafe(m, texts, q, toks);
    } else {
      NoFill(m, q, toks);
    }
    var (m1, off) := FillLast(m, q, toks).value;
    ChunksAreNeeded(|bm.ids|, bm.slots, off, |toks|, m.bs);
    var mm := if q in m.maps then m1.(maps := m.maps[q := bm.(slots := off)]) else m1;
    EmptyList(m.bs, mm.pool.blocks, toks, off);
    AllocFreshSafe(mm, texts', toks, off, [], off);
    AllocFreshIgnoresMaps(m1, toks, off, [], mm.maps);
    AllocFreshIgnoresMaps(m1, toks, off, [], m1.maps);
    assert mm == m1.(maps := mm.maps) && m1 == m1.(maps := m1.maps);
    if |m.pool.free| >= Needed(m, q, toks) {
      var (m2, ids) := AllocFresh(m1, toks, off, []).value;
      var m3 := m2.(maps := mm.maps);
      AllocBlocksJoins(mm, m3, texts', q, toks, off, ids);
      var m' := AllocBlocks(m, q, toks).value.0;
      var bm' := BlockMap(bm.ids + ids, |toks|, bm.filled);
      assert mm.maps[q := bm'] == m.maps[q := bm'];
      assert m2.maps == m.maps;
      assert q !in m.maps ==> bm.ids + ids == ids;
      assert m' == m3.(maps := mm.maps[q := bm']);
      AllocKeepsOthers(m, m1, m3, q);
    }
  }

  lemma EmptyList(bs: nat, blocks: seq<Block>, toks: seq<Token>, off: nat)
    ensures ListSpells(bs, blocks, [], toks, off)
    ensures Offset(0, bs) == 0
  {
  }

  /** The fresh blocks join the block list of `q`. */
  lemma AllocBlocksJoins(mm: Manager, m3: Manager, texts: Texts, q: SeqId, toks: seq<Token>, off: nat,
                         ids: seq<BlockId>)
    requires Inv(mm, texts, multiset{}) && q in texts && texts[q] == toks && off <= |toks|
    requires Allocated(mm, m3, texts, toks, off, ids, |ids|)
    requires MapOf(mm, q).slots == off && (off < |toks| ==> off == Offset(|MapOf(mm, q).ids|, mm.bs))
    requires |ids| == DivCeil(|toks|, mm.bs) - |MapOf(mm, q).ids| == Chunks(|toks| - off, mm.bs)
    ensures Inv(m3.(maps := mm.maps[q := BlockMap(MapOf(mm, q).ids + ids, |toks|, MapOf(mm, q).filled)]), texts,
                multiset{})
  {
    hide Inv, Held, PoolOk, BlocksOk, TableOk, RegionsOk, ListSpells, DivCeil;
    InvParts(mm, texts, multiset{});
    InvParts(m3, texts, multiset(ids));
    var bm := MapOf(mm, q);
    var bm' := BlockMap(bm.ids + ids, |toks|, bm.filled);
    if q in mm.maps {
      assert Spells(mm.bs, m3.pool.blocks, bm, toks);
    } else {
      EmptyList(mm.bs, m3.pool.blocks, toks[..0], 0);
    }
    SpellsJoin(mm.bs, m3.pool.blocks, bm.ids, ids, toks, off);
    DivCeilCovers(|toks|, mm.bs);
    assert toks[..|toks|] == toks;
    assert Spells(mm.bs, m3.pool.blocks, bm', toks);
    MapStep(m3, texts, q, bm', ids);
  }

  lemma AllocKeepsOthers(m: Manager, m1: Manager, m3: Manager, q: SeqId)
    requires if q in m.maps then ToppedUp(m, m1, q) else m1 == m
    requires InUseSame(m1.pool, m3.pool)
    ensures OthersKept(m, m3, q)
  {
  }
}
