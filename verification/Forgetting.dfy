/** What a released sequence leaves in the cache (runtime/src/llm_engine/block_manager.rs, lines 659-697): its
    filled blocks, or with `free_and_drop_cache` nothing that nobody else holds. */
module Forgetting {
  import opened Prelude
  import opened BlockPool
  import opened BlockManagerSpec
  import opened BlockManagerInv
  import opened Release
  import opened Reclaiming

  /** Nobody but `q` holds the block, and it is past the filled length or is to be dropped anyway. */
  ghost predicate EmptiedBy(m: Manager, q: SeqId, all: bool, b: BlockId) {
    b < |m.pool.blocks| && m.pool.blocks[b].refCnt == 1 && ListedBy(m, q, b) && (all || PastFilled(m, q, b))
  }

  ghost predicate HashEmptied(m: Manager, q: SeqId, all: bool, h: Hash) {
    exists b: BlockId :: EmptiedBy(m, q, all, b) && Carries(m, b, h)
  }

  /** Exactly the emptied blocks lose their content, and exactly the hashes that one of them carried are
      found no more. */
  ghost predicate Forgets(m: Manager, m': Manager, q: SeqId, all: bool) {
    && |m'.pool.blocks| == |m.pool.blocks|
    && (forall b :: 0 <= b < |m.pool.blocks| ==>
          m'.pool.blocks[b].hash == if EmptiedBy(m, q, all, b) then NoHash else m.pool.blocks[b].hash)
    && (forall h :: h != NoHash ==> Lookup(m', h) == if HashEmptied(m, q, all, h) then None else Lookup(m, h))
  }

  /** Dropping everything is releasing with nothing filled. */
  lemma {:induction false} AllIsUnfilled(m: Manager, ids: seq<BlockId>, cnt: nat, filled: nat)
    ensures FreeAll(m, ids, cnt, filled, true) == FreeAll(m, ids, cnt, 0, false)
    decreases |ids|
  {
    hide FreeBlock, DropCache;
    if ids != [] && FreeBlock(m.pool, ids[0]).Ok? && ids[0] < |FreeBlock(m.pool, ids[0]).value.blocks| {
      var m1 := m.(pool := FreeBlock(m.pool, ids[0]).value);
      SameSize(m1, ids[0]);
      AllIsUnfilled(DropCache(m1, ids[0]), ids[1..], cnt + m.bs, filled);
    }
  }

  lemma SameSize(m: Manager, b: BlockId)
    requires b < |m.pool.blocks|
    ensures DropCache(m, b).bs == m.bs
  {
  }

  /** `free` and `free_and_drop_cache` forget exactly that. */
  lemma ForgetsExactly(m: Manager, texts: Texts, q: SeqId, all: bool)
    requires Inv(m, texts, multiset{})
    ensures FreeSeq(m, q, all).Ok? && Forgets(m, FreeSeq(m, q, all).value, q, all)
  {
    hide Inv, FreeAll, Lookup, PastFilled;
    if q !in m.maps {
      assert FreeSeq(m, q, all) == Ok(m);
    } else if all {
      var m0 := m.(maps := m.maps[q := m.maps[q].(filled := 0)]);
      UpdateFilledSafe(m, texts, q, 0);
      AllIsUnfilled(m.(maps := m.maps - {q}), m.maps[q].ids, 0, m.maps[q].filled);
      assert m0.maps - {q} == m.maps - {q};
      ReleaseExactly(m0, texts, q);
      DroppedAnyway(m, m0, q);
    } else {
      ReleaseExactly(m, texts, q);
      DroppedUnfilled(m, q);
    }
  }

  lemma DroppedUnfilled(m: Manager, q: SeqId)
    ensures forall b :: EmptiedBy(m, q, false, b) <==> DroppedBy(m, q, b)
    ensures forall h :: HashEmptied(m, q, false, h) <==> HashDroppedBy(m, q, h)
  {
    hide Carries;
  }

  lemma DroppedAnyway(m: Manager, m0: Manager, q: SeqId)
    requires q in m.maps && m0 == m.(maps := m.maps[q := m.maps[q].(filled := 0)])
    ensures forall b :: EmptiedBy(m, q, true, b) <==> DroppedBy(m0, q, b)
    ensures forall h :: HashEmptied(m, q, true, h) <==> HashDroppedBy(m0, q, h)
    ensures forall h :: Lookup(m0, h) == Lookup(m, h)
  {
    forall b
      ensures EmptiedBy(m, q, true, b) <==> DroppedBy(m0, q, b)
    {
      if ListedBy(m, q, b) {
        var i :| 0 <= i < |m.maps[q].ids| && m.maps[q].ids[i] == b;
        assert m0.maps[q].ids[i] == b && Offset(i, m.bs) + m.bs > 0;
      }
    }
    forall h
      ensures HashEmptied(m, q, true, h) <==> HashDroppedBy(m0, q, h)
    {
      if HashEmptied(m, q, true, h) {
        var b: BlockId :| EmptiedBy(m, q, true, b) && Carries(m, b, h);
        assert DroppedBy(m0, q, b) && Carries(m0, b, h);
      }
      if HashDroppedBy(m0, q, h) {
        var b: BlockId :| DroppedBy(m0, q, b) && Carries(m0, b, h);
        assert EmptiedBy(m, q, true, b) && Carries(m, b, h);
      }
    }
  }
}
