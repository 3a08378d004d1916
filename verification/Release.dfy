/** Releasing a sequence, and what it gives back
    (runtime/src/llm_engine/block_manager.rs, lines 303-312 and 650-706). */
module Release {
  import opened Prelude
  import opened BlockPool
  import opened BlockManagerSpec
  import opened BlockManagerInv
  import opened Allocation
  import opened PrefixCache

  /** Taking a sequence out of the table leaves its references to the running operation. */
  lemma TakeMap(m: Manager, texts: Texts, q: SeqId)
    requires Inv(m, texts, multiset{}) && q in m.maps
    ensures Inv(m.(maps := m.maps - {q}), texts, multiset(m.maps[q].ids))
  {
    hide Spells, PoolOk, BlocksOk, Held;
    HeldMapRemove(m, q);
    assert Held(m) + multiset{} == Held(m);
    SameRegions(m, m.(maps := m.maps - {q}));
  }

  /** The blocks of the listed holders keep their content, counts of others stay. */
  ghost predicate KeptFor(m: Manager, m': Manager, held: multiset<BlockId>) {
    && |m'.pool.blocks| == |m.pool.blocks|
    && forall b :: 0 <= b < |m.pool.blocks| && b in held ==> m'.pool.blocks[b].SameContent(m.pool.blocks[b])
  }

  /** The state after one round of the release loop. */
  function FreeOne(m: Manager, id: BlockId, drop: bool): Manager
    requires FreeBlock(m.pool, id).Ok? && id < |FreeBlock(m.pool, id).value.blocks|
  {
    var m1 := m.(pool := FreeBlock(m.pool, id).value);
    if drop then DropCache(m1, id) else m1
  }

  lemma FreeOneSafe(m: Manager, texts: Texts, extra: multiset<BlockId>, id: BlockId, drop: bool)
    requires Inv(m, texts, extra + multiset{id})
    ensures FreeBlock(m.pool, id).Ok? && id < |m.pool.blocks| == |FreeBlock(m.pool, id).value.blocks|
    ensures var m' := FreeOne(m, id, drop);
      && Inv(m', texts, extra)
      && m'.bs == m.bs && m'.maps == m.maps && m'.regions == m.regions
      && |m'.pool.blocks| == |m.pool.blocks|
      && |m'.pool.free| == |m.pool.free| + (if m.pool.blocks[id].refCnt == 1 then 1 else 0)
      && (forall b :: 0 <= b < |m.pool.blocks| && b != id ==> m'.pool.blocks[b] == m.pool.blocks[b])
      && m'.pool.blocks[id].refCnt == m.pool.blocks[id].refCnt - 1
      && (m.pool.blocks[id].refCnt != 1 || !drop ==>
         m'.pool.blocks[id].SameContent(m.pool.blocks[id]) && m'.table == m.table)
      && m'.table == (if m.pool.blocks[id].refCnt == 1 && drop then m.table - {m.pool.blocks[id].hash} else m.table)
  {
    hide Inv, PoolOk, BlocksOk, RegionsOk, MapsOk, TableOk, Held;
    ReleaseStep(m, texts, extra, id);
    var m1 := m.(pool := FreeBlock(m.pool, id).value);
    if drop {
      DropStep(m1, texts, extra, id);
    }
  }

  /** Blocks still held keep a positive count. */
  lemma HeldCount(m: Manager, texts: Texts, extra: multiset<BlockId>, b: BlockId)
    requires Inv(m, texts, extra) && b in Held(m) + extra
    ensures b < |m.pool.blocks| && m.pool.blocks[b].refCnt == (Held(m) + extra)[b] > 0
  {
    assert CountOk(m.pool, Held(m) + extra, b);
  }

  lemma {:induction false} CountUniqueFrame(blocks: seq<Block>, blocks': seq<Block>, ids: seq<BlockId>)
    requires |blocks'| == |blocks|
    requires forall b :: b in ids && b < |blocks| ==> blocks'[b].refCnt == blocks[b].refCnt
    ensures CountUnique(blocks', ids) == CountUnique(blocks, ids)
  {
    if ids != [] {
      CountUniqueFrame(blocks, blocks', ids[1..]);
    }
  }

  /** Only listed blocks changed; each lost one reference and, when anyone else holds it, kept its
      content; the solely owned ones went to the free list. */
  ghost predicate FreedList(m: Manager, m': Manager, ids: seq<BlockId>) {
    && |m'.pool.blocks| == |m.pool.blocks|
    && |m'.pool.free| == |m.pool.free| + CountUnique(m.pool.blocks, ids)
    && forall b :: 0 <= b < |m.pool.blocks| ==>
         if b !in ids then m'.pool.blocks[b] == m.pool.blocks[b]
         else
           && m'.pool.blocks[b].refCnt == m.pool.blocks[b].refCnt - 1
           && (m.pool.blocks[b].refCnt > 1 ==> m'.pool.blocks[b].SameContent(m.pool.blocks[b]))
  }

  lemma FreedCons(m: Manager, m1: Manager, m': Manager, ids: seq<BlockId>)
    requires ids != [] && Distinct(ids) && ids[0] < |m.pool.blocks| && FreedList(m1, m', ids[1..])
    requires |m1.pool.blocks| == |m.pool.blocks|
    requires |m1.pool.free| == |m.pool.free| + (if m.pool.blocks[ids[0]].refCnt == 1 then 1 else 0)
    requires forall b :: 0 <= b < |m.pool.blocks| && b != ids[0] ==> m1.pool.blocks[b] == m.pool.blocks[b]
    requires m1.pool.blocks[ids[0]].refCnt == m.pool.blocks[ids[0]].refCnt - 1
    requires m.pool.blocks[ids[0]].refCnt != 1 ==> m1.pool.blocks[ids[0]].SameContent(m.pool.blocks[ids[0]])
    ensures FreedList(m, m', ids)
  {
    assert ids[0] !in ids[1..];
    CountUniqueFrame(m.pool.blocks, m1.pool.blocks, ids[1..]);
    forall b | 0 <= b < |m.pool.blocks|
      ensures b !in ids ==> m'.pool.blocks[b] == m.pool.blocks[b]
      ensures b in ids ==> m'.pool.blocks[b].refCnt == m.pool.blocks[b].refCnt - 1
      ensures b in ids && m.pool.blocks[b].refCnt > 1 ==> m'.pool.blocks[b].SameContent(m.pool.blocks[b])
    {
      assert ids == [ids[0]] + ids[1..];
      assert b in ids <==> b == ids[0] || b in ids[1..];
    }
  }

  /** The release loop never panics, returns exactly the solely owned blocks to the free list, and
      leaves alone what anyone else holds. */
  lemma {:induction false} FreeAllSafe(m: Manager, texts: Texts, ids: seq<BlockId>, cnt: nat, filled: nat, all: bool)
    requires Inv(m, texts, multiset(ids)) && Distinct(ids)
    ensures FreeAll(m, ids, cnt, filled, all).Ok?
    ensures var m' := FreeAll(m, ids, cnt, filled, all).value;
      && Inv(m', texts, multiset{})
      && m'.bs == m.bs && m'.maps == m.maps && m'.regions == m.regions
      && FreedList(m, m', ids)
    decreases |ids|
  {
    hide Inv, PoolOk, BlocksOk, RegionsOk, MapsOk, TableOk, Held, DropCache, FreeBlock, FreedList, CountUnique;
    if ids == [] {
      FreedNone(m);
    } else {
      var id := ids[0];
      var drop := all || cnt + m.bs > filled;
      assert ids == [id] + ids[1..];
      assert multiset(ids[1..]) + multiset{id} == multiset(ids);
      FreeOneSafe(m, texts, multiset(ids[1..]), id, drop);
      var m1 := FreeOne(m, id, drop);
      FreeAllSafe(m1, texts, ids[1..], cnt + m.bs, filled, all);
      FreedCons(m, m1, FreeAll(m1, ids[1..], cnt + m.bs, filled, all).value, ids);
    }
  }

  lemma FreedNone(m: Manager)
    ensures FreedList(m, m, [])
  {
  }

  /** What others hold of a released list has a count above one. */
  lemma FreedKeeps(m: Manager, texts: Texts, ids: seq<BlockId>, m': Manager)
    requires Inv(m, texts, multiset(ids)) && FreedList(m, m', ids)
    ensures KeptFor(m, m', Held(m))
  {
    hide Inv, PoolOk, BlocksOk, RegionsOk, MapsOk, TableOk, Held;
    forall b | 0 <= b < |m.pool.blocks| && b in Held(m)
      ensures m'.pool.blocks[b].SameContent(m.pool.blocks[b])
    {
      HeldCount(m, texts, multiset(ids), b);
    }
  }

  /** The blocks of a spelled list are pairwise different. */
  lemma SpelledDistinct(m: Manager, texts: Texts, extra: multiset<BlockId>, q: SeqId)
    requires Inv(m, texts, extra) && q in m.maps
    ensures Distinct(m.maps[q].ids)
  {
    var ids := m.maps[q].ids;
    forall i, j | 0 <= i < j < |ids|
      ensures ids[i] != ids[j]
    {
      SpelledDiffer(m.bs, m.pool.blocks, m.maps[q], texts[q], i, j);
      BlockOkAt(m.bs, m.pool.blocks, ids[j]);
    }
  }

  lemma SpelledDiffer(bs: nat, blocks: seq<Block>, bm: BlockMap, text: seq<Token>, i: nat, j: nat)
    requires bs > 0 && Spells(bs, blocks, bm, text) && i < j < |bm.ids|
    ensures bm.ids[j] < |blocks|
    ensures BlockOk(bs, blocks[bm.ids[j]]) ==> bm.ids[i] != bm.ids[j]
  {
    hide Offset, BlockOk;
    EarlierFull(bs, blocks, bm, text, i);
    OffsetMono(i, j, bs);
    var b := blocks[bm.ids[j]];
    assert ChunkIs(b, text[..bm.slots], 0 + Offset(j, bs), bs);
    if BlockOk(bs, b) {
      if Offset(j, bs) + bs <= bm.slots {
        EarlierFull(bs, blocks, bm, text, j);
        assert |text[..Offset(i, bs) + bs]| < |text[..Offset(j, bs) + bs]|;
      } else {
        assert |b.tokens| < bs;
        ShortUnhashed(bs, b);
      }
    }
  }

  lemma ShortUnhashed(bs: nat, b: Block)
    requires BlockOk(bs, b) && |b.tokens| < bs
    ensures b.hash == NoHash
  {
  }

  /** What releasing `q` achieves. */
  ghost predicate Released(m: Manager, m': Manager, texts: Texts, q: SeqId) {
    && Inv(m', texts, multiset{})
    && m'.bs == m.bs && m'.regions == m.regions && m'.maps == m.maps - {q}
    && KeptFor(m, m', Held(m.(maps := m.maps - {q})))
    && |m'.pool.free| == |m.pool.free| + Unique(m, q)
    && (forall b :: 0 <= b < |m.pool.blocks| && b !in MapOf(m, q).ids ==> m'.pool.blocks[b] == m.pool.blocks[b])
    && (forall b :: 0 <= b < |m.pool.blocks| && b in MapOf(m, q).ids ==>
          m'.pool.blocks[b].refCnt == m.pool.blocks[b].refCnt - 1)
  }

  /** Releasing a sequence never panics; the free list grows by exactly its solely owned blocks and
      every block another sequence or region holds keeps its content. */
  lemma ReleaseSafe(m: Manager, texts: Texts, q: SeqId, all: bool)
    requires Inv(m, texts, multiset{})
    ensures FreeSeq(m, q, all).Ok?
    ensures Released(m, FreeSeq(m, q, all).value, texts, q)
  {
    hide Inv, PoolOk, BlocksOk, RegionsOk, MapsOk, TableOk, Held, FreeAll, CountUnique;
    if q in m.maps {
      TakeMap(m, texts, q);
      SpelledDistinct(m, texts, multiset{}, q);
      var m1 := m.(maps := m.maps - {q});
      FreeAllSafe(m1, texts, m.maps[q].ids, 0, m.maps[q].filled, all);
      FreedKeeps(m1, texts, m.maps[q].ids, FreeSeq(m, q, all).value);
    } else {
      assert m.maps - {q} == m.maps;
    }
  }

  /** Setting the filled length panics exactly when it passes the slots. */
  lemma UpdateFilledSafe(m: Manager, texts: Texts, q: SeqId, n: nat)
    requires Inv(m, texts, multiset{})
    ensures UpdateFilled(m, q, n).Ok? <==> (q in m.maps ==> n <= m.maps[q].slots)
    ensures UpdateFilled(m, q, n).Ok? ==>
      var m' := UpdateFilled(m, q, n).value;
      && Inv(m', texts, multiset{})
      && m'.bs == m.bs && m'.pool == m.pool && m'.table == m.table && m'.regions == m.regions
      && m'.maps == (if q in m.maps then m.maps[q := m.maps[q].(filled := n)] else m.maps)
  {
    hide PoolOk, BlocksOk, Held, ListSpells;
    if q in m.maps && n <= m.maps[q].slots {
      var m' := UpdateFilled(m, q, n).value;
      assert Lists(m'.maps) == Lists(m.maps);
      HeldSameLists(m, m');
      SameRegions(m, m');
    }
  }

  /** Emptying the hash table leaves everything else in order. */
  lemma ClearCacheSafe(m: Manager, texts: Texts)
    requires Inv(m, texts, multiset{})
    ensures Inv(ClearCache(m), texts, multiset{})
  {
    hide PoolOk, BlocksOk, Held, Spells;
    HeldSameLists(m, ClearCache(m));
    SameRegions(m, ClearCache(m));
  }
}
