/** What the reclaim prediction counts (runtime/src/llm_engine/scheduler.rs, lines 221-252 and 683-693). */
module Predicting {
  import opened Prelude
  import opened BlockPool
  import opened BlockManagerSpec
  import opened BlockManagerInv
  import opened PrefixCache
  import opened Release
  import opened Preemption
  import opened Reclaiming
  import opened Queues
  import opened SchedulerState
  import opened QueuePasses
  import opened Reordering

  ghost predicate ListedByAny(m: Manager, vs: seq<SeqId>, b: BlockId) {
    exists i :: 0 <= i < |vs| && ListedBy(m, vs[i], b)
  }

  /** The blocks with one owner that one of the sequences lists. */
  ghost function SoleBlocks(m: Manager, vs: seq<SeqId>): set<BlockId> {
    set b: BlockId | b < |m.pool.blocks| && m.pool.blocks[b].refCnt == 1 && ListedByAny(m, vs, b)
  }

  function SoleIn(blocks: seq<Block>, ids: seq<BlockId>): set<BlockId> {
    set b | b in ids && b < |blocks| && blocks[b].refCnt == 1
  }

  lemma {:induction false} CountIsSole(blocks: seq<Block>, ids: seq<BlockId>)
    requires Distinct(ids)
    ensures CountUnique(blocks, ids) == |SoleIn(blocks, ids)|
    decreases |ids|
  {
    if ids != [] {
      SoleCons(blocks, ids);
      RestDistinct(ids);
      CountIsSole(blocks, ids[1..]);
    } else {
      assert SoleIn(blocks, ids) == {};
    }
  }

  lemma RestDistinct(ids: seq<BlockId>)
    requires Distinct(ids) && ids != []
    ensures Distinct(ids[1..]) && ids[0] !in ids[1..]
  {
    assert forall i :: 0 <= i < |ids[1..]| ==> ids[1..][i] == ids[i + 1];
  }

  lemma SoleCons(blocks: seq<Block>, ids: seq<BlockId>)
    requires ids != []
    ensures SoleIn(blocks, ids) ==
      SoleIn(blocks, ids[1..]) + if ids[0] < |blocks| && blocks[ids[0]].refCnt == 1 then {ids[0]} else {}
  {
    assert ids == [ids[0]] + ids[1..];
  }

  lemma NotTwice(m: Manager, texts: Texts, q: SeqId, o: SeqId, b: BlockId)
    requires Inv(m, texts, multiset{}) && q != o && ListedBy(m, q, b) && ListedBy(m, o, b) && b < |m.pool.blocks|
    ensures m.pool.blocks[b].refCnt != 1
  {
    hide BlocksOk, TableOk, RegionsOk, MapsOk, Held;
    HeldTwice(m, q, o, b);
    assert CountOk(m.pool, Held(m) + multiset{}, b);
  }

  lemma ListedMore(m: Manager, vs: seq<SeqId>, b: BlockId)
    requires vs != []
    ensures var n := |vs| - 1; ListedByAny(m, vs, b) <==> ListedByAny(m, vs[..n], b) || ListedBy(m, vs[n], b)
  {
    hide ListedBy;
    var n := |vs| - 1;
    if i :| 0 <= i < |vs| && ListedBy(m, vs[i], b) {
      assert i < n ==> vs[..n][i] == vs[i];
    }
    if i :| 0 <= i < n && ListedBy(m, vs[..n][i], b) {
      assert vs[..n][i] == vs[i];
    }
  }

  /** The prediction counts exactly the blocks that the preempted sequences alone hold, each once. */
  lemma {:induction false} ReclaimableIs(m: Manager, texts: Texts, vs: seq<SeqId>)
    requires Inv(m, texts, multiset{}) && forall i, j :: 0 <= i < j < |vs| ==> vs[i] != vs[j]
    ensures Reclaimable(m, vs) == |SoleBlocks(m, vs)|
    decreases |vs|
  {
    hide Inv, CountUnique, ListedByAny;
    if vs == [] {
      assert SoleBlocks(m, vs) == {} by {
        assert forall b :: !ListedByAny(m, vs, b) by {
          NoneListed(m);
        }
      }
    } else {
      var n := |vs| - 1;
      var before, q := vs[..n], vs[n];
      ReclaimableIs(m, texts, before);
      var own := if q in m.maps then SoleIn(m.pool.blocks, m.maps[q].ids) else {};
      UniqueIs(m, texts, q);
      forall b: BlockId
        ensures ListedByAny(m, vs, b) <==> ListedByAny(m, before, b) || ListedBy(m, q, b)
      {
        ListedMore(m, vs, b);
      }
      assert SoleBlocks(m, vs) == SoleBlocks(m, before) + own;
      forall b | b in SoleBlocks(m, before)
        ensures b !in own
      {
        SoleElsewhere(m, texts, vs, b);
      }
    }
  }

  lemma NoneListed(m: Manager)
    ensures forall b :: !ListedByAny(m, [], b)
  {
  }

  lemma UniqueIs(m: Manager, texts: Texts, q: SeqId)
    requires Inv(m, texts, multiset{})
    ensures Unique(m, q) == if q in m.maps then |SoleIn(m.pool.blocks, m.maps[q].ids)| else 0
  {
    hide Inv, CountUnique;
    if q in m.maps {
      SpelledDistinct(m, texts, multiset{}, q);
      CountIsSole(m.pool.blocks, m.maps[q].ids);
    }
  }

  lemma SoleElsewhere(m: Manager, texts: Texts, vs: seq<SeqId>, b: BlockId)
    requires Inv(m, texts, multiset{}) && vs != [] && forall i, j :: 0 <= i < j < |vs| ==> vs[i] != vs[j]
    requires b in SoleBlocks(m, vs[..|vs| - 1])
    ensures !ListedBy(m, vs[|vs| - 1], b)
  {
    hide Inv, ListedBy;
    var i :| 0 <= i < |vs| - 1 && ListedBy(m, vs[..|vs| - 1][i], b);
    if ListedBy(m, vs[|vs| - 1], b) {
      NotTwice(m, texts, vs[i], vs[|vs| - 1], b);
    }
  }

  /** The prediction for a refused task: whether the blocks it requires, less those that the promoted tasks
      alone hold, pass the check. */
  lemma PromisingIs(gpu: Manager, seqs: map<SeqId, Sequence>, w: Task, promoted: seq<Task>)
    requires Inv(gpu, TextsOf(seqs), multiset{}) && Required(gpu, w.id, TextOf(seqs, w)).Ok?
    requires forall i, j :: 0 <= i < j < |promoted| ==> promoted[i].id != promoted[j].id
    ensures var n, k := Required(gpu, w.id, TextOf(seqs, w)).value, |SoleBlocks(gpu, Ids(promoted))|;
      Promising(gpu, seqs, w, promoted) == Ok(CanAlloc(gpu.pool, if n > k then n - k else 0, WATERMARK))
  {
    hide Inv, Required, SoleBlocks, Reclaimable, CanAlloc;
    ReclaimableIs(gpu, TextsOf(seqs), Ids(promoted));
  }
}
