/** Preempting tasks to make room for an older one
    (runtime/src/llm_engine/scheduler.rs, lines 219-252, 349-355 and 683-716). */
module Preemption {
  import opened Prelude
  import opened BlockPool
  import opened BlockManagerSpec
  import opened BlockManagerInv
  import opened Allocation
  import opened PrefixCache
  import opened Release
  import opened Admission

  // ---------------------------------------------------------------- reclaimable blocks

  lemma {:induction false} CountUniqueMono(blocks: seq<Block>, blocks': seq<Block>, ids: seq<BlockId>)
    requires |blocks'| == |blocks|
    requires forall b :: b in ids && b < |blocks| && blocks[b].refCnt == 1 ==> blocks'[b].refCnt == 1
    ensures CountUnique(blocks, ids) <= CountUnique(blocks', ids)
  {
    if ids != [] {
      CountUniqueMono(blocks, blocks', ids[1..]);
    }
  }

  /** Releasing one sequence never makes fewer blocks of another reclaimable. */
  lemma ReleaseKeepsUnique(m: Manager, m': Manager, texts: Texts, q: SeqId, o: SeqId)
    requires Inv(m, texts, multiset{}) && o != q && Released(m, m', texts, q)
    ensures Unique(m, o) <= Unique(m', o)
  {
    hide Inv, CountUnique, Held;
    if o in m.maps {
      var ids := m.maps[o].ids;
      forall b | b in ids && b < |m.pool.blocks| && m.pool.blocks[b].refCnt == 1
        ensures m'.pool.blocks[b].refCnt == 1
      {
        if b in MapOf(m, q).ids {
          HeldTwice(m, q, o, b);
          HeldByMap(m, q, b);
          assert b in Held(m) + multiset{};
          HeldCount(m, texts, multiset{}, b);
          assert false;
        }
      }
      CountUniqueMono(m.pool.blocks, m'.pool.blocks, ids);
    }
  }

  /** The sum `num_reclaimable_blocks` over the promoted tasks. */
  function Reclaimable(m: Manager, qs: seq<SeqId>): nat {
    if qs == [] then 0 else Reclaimable(m, qs[..|qs| - 1]) + Unique(m, qs[|qs| - 1])
  }

  lemma {:induction false} ReleaseKeepsReclaimable(m: Manager, m': Manager, texts: Texts, q: SeqId, qs: seq<SeqId>)
    requires Inv(m, texts, multiset{}) && q !in qs && Released(m, m', texts, q)
    ensures Reclaimable(m, qs) <= Reclaimable(m', qs)
    decreases |qs|
  {
    hide Inv, Released, Unique;
    if qs != [] {
      ReleaseKeepsReclaimable(m, m', texts, q, qs[..|qs| - 1]);
      ReleaseKeepsUnique(m, m', texts, q, qs[|qs| - 1]);
    }
  }

  // ---------------------------------------------------------------- cached prefixes under preemption

  /** No block that releasing `ids` may drop from the cache has hash `h`. */
  ghost predicate NotDropped(m: Manager, ids: seq<BlockId>, cnt: nat, filled: nat, h: Hash) {
    forall i :: 0 <= i < |ids| && ids[i] < |m.pool.blocks| && cnt + Offset(i, m.bs) + m.bs > filled ==>
      m.pool.blocks[ids[i]].hash != h
  }

  lemma LookupAfterFreeOne(m: Manager, m': Manager, id: BlockId, drop: bool, h: Hash)
    requires id < |m.pool.blocks| == |m'.pool.blocks| && h != NoHash
    requires forall b :: 0 <= b < |m.pool.blocks| && b != id ==> m'.pool.blocks[b] == m.pool.blocks[b]
    requires m'.pool.blocks[id].SameContent(m.pool.blocks[id]) || (drop && m'.pool.blocks[id].hash == NoHash)
    requires m'.table == m.table || (drop && m'.table == m.table - {m.pool.blocks[id].hash})
    requires drop ==> m.pool.blocks[id].hash != h
    ensures Lookup(m', h) == Lookup(m, h)
  {
  }

  lemma NotDroppedTail(m: Manager, m1: Manager, ids: seq<BlockId>, cnt: nat, filled: nat, h: Hash)
    requires ids != [] && NotDropped(m, ids, cnt, filled, h) && Distinct(ids)
    requires m1.bs == m.bs && |m1.pool.blocks| == |m.pool.blocks|
    requires forall b :: 0 <= b < |m.pool.blocks| && b != ids[0] ==> m1.pool.blocks[b] == m.pool.blocks[b]
    ensures NotDropped(m1, ids[1..], cnt + m.bs, filled, h)
  {
    forall i | 0 <= i < |ids[1..]| && ids[1..][i] < |m.pool.blocks| && cnt + m.bs + Offset(i, m.bs) + m.bs > filled
      ensures m1.pool.blocks[ids[1..][i]].hash != h
    {
      assert ids[1..][i] == ids[i + 1];
      assert Offset(i + 1, m.bs) == Offset(i, m.bs) + m.bs;
    }
  }

  lemma {:induction false} LookupAfterFreeAll(m: Manager, texts: Texts, ids: seq<BlockId>, cnt: nat, filled: nat,
                                              h: Hash)
    requires Inv(m, texts, multiset(ids)) && Distinct(ids) && h != NoHash && NotDropped(m, ids, cnt, filled, h)
    ensures FreeAll(m, ids, cnt, filled, false).Ok?
    ensures Lookup(FreeAll(m, ids, cnt, filled, false).value, h) == Lookup(m, h)
    decreases |ids|
  {
    hide Inv, PoolOk, BlocksOk, RegionsOk, MapsOk, TableOk, Held, FreeBlock, Lookup, NotDropped, Offset;
    if ids != [] {
      var id := ids[0];
      var drop := cnt + m.bs > filled;
      assert ids == [id] + ids[1..];
      assert multiset(ids[1..]) + multiset{id} == multiset(ids);
      FreeOneSafe(m, texts, multiset(ids[1..]), id, drop);
      var m1 := FreeOne(m, id, drop);
      FreeOneContent(m, id, drop);
      HeadNotDropped(m, ids, cnt, filled, h);
      LookupAfterFreeOne(m, m1, id, drop, h);
      NotDroppedTail(m, m1, ids, cnt, filled, h);
      LookupAfterFreeAll(m1, texts, ids[1..], cnt + m.bs, filled, h);
    }
  }

  lemma HeadNotDropped(m: Manager, ids: seq<BlockId>, cnt: nat, filled: nat, h: Hash)
    requires ids != [] && ids[0] < |m.pool.blocks| && NotDropped(m, ids, cnt, filled, h)
    ensures cnt + m.bs > filled ==> m.pool.blocks[ids[0]].hash != h
  {
    assert Offset(0, m.bs) == 0;
  }

  lemma FreeOneContent(m: Manager, id: BlockId, drop: bool)
    requires FreeBlock(m.pool, id).Ok? && id < |m.pool.blocks| == |FreeBlock(m.pool, id).value.blocks|
    ensures var m' := FreeOne(m, id, drop);
      && |m'.pool.blocks| == |m.pool.blocks|
      && (m'.pool.blocks[id].SameContent(m.pool.blocks[id]) || (drop && m'.pool.blocks[id].hash == NoHash))
      && (m'.table == m.table || (drop && m'.table == m.table - {m.pool.blocks[id].hash}))
  {
  }

  /** A running sequence `text` that is filled up to `filled` of its `slots` is not in the middle of
      computing a full block that `toks` would share. */
  predicate NoSharedUnfilled(bs: BlockSize, text: seq<Token>, slots: nat, filled: nat, toks: seq<Token>)
    requires slots <= |text|
  {
    forall i :: 0 < i <= slots && filled < Offset(i, bs) <= slots ==> !(text[..Offset(i, bs)] <= toks)
  }

  /** Preempting such a sequence leaves the cached prefix of `toks` as it is. */
  lemma PreemptionKeepsHits(m: Manager, texts: Texts, q: SeqId, toks: seq<Token>)
    requires Inv(m, texts, multiset{}) && q in m.maps
    requires m.maps[q].slots <= |texts[q]|
    requires NoSharedUnfilled(m.bs, texts[q], m.maps[q].slots, m.maps[q].filled, toks)
    ensures FreeSeq(m, q, false).Ok? && FreeSeq(m, q, false).value.bs == m.bs
    ensures Hits(FreeSeq(m, q, false).value, toks) == Hits(m, toks)
  {
    hide Inv, HitsFrom, FreeAll, NoSharedUnfilled, FreedList;
    TakeMap(m, texts, q);
    SpelledDistinct(m, texts, multiset{}, q);
    var m1 := m.(maps := m.maps - {q});
    var bm := m.maps[q];
    FreeAllSafe(m1, texts, bm.ids, 0, bm.filled, false);
    var m' := FreeSeq(m, q, false).value;
    forall at: nat
      ensures HitAt(m', toks, at) == HitAt(m, toks, at)
    {
      if at + m.bs <= |toks| {
        SharedNotDropped(m, texts, q, toks, at);
        assert NotDropped(m1, bm.ids, 0, bm.filled, Of(toks[..at + m.bs]));
        LookupAfterFreeAll(m1, texts, bm.ids, 0, bm.filled, Of(toks[..at + m.bs]));
      }
    }
    SameHits(m, m', toks, 0);
  }

  lemma SharedNotDropped(m: Manager, texts: Texts, q: SeqId, toks: seq<Token>, at: nat)
    requires Inv(m, texts, multiset{}) && q in m.maps && at + m.bs <= |toks|
    requires m.maps[q].slots <= |texts[q]|
    requires NoSharedUnfilled(m.bs, texts[q], m.maps[q].slots, m.maps[q].filled, toks)
    ensures NotDropped(m, m.maps[q].ids, 0, m.maps[q].filled, Of(toks[..at + m.bs]))
  {
    hide Inv, NoSharedUnfilled, Offset, Spells;
    InvParts(m, texts, multiset{});
    var bm := m.maps[q];
    forall i | 0 <= i < |bm.ids| && bm.ids[i] < |m.pool.blocks| && 0 + Offset(i, m.bs) + m.bs > bm.filled
      ensures m.pool.blocks[bm.ids[i]].hash != Of(toks[..at + m.bs])
    {
      DroppedHash(m, bm, texts[q], toks, at, i);
    }
  }

  lemma DroppedHash(m: Manager, bm: BlockMap, text: seq<Token>, toks: seq<Token>, at: nat, i: nat)
    requires Spells(m.bs, m.pool.blocks, bm, text) && BlocksOk(m.bs, m.pool.blocks)
    requires bm.slots <= |text| && at + m.bs <= |toks| && i < |bm.ids| && Offset(i, m.bs) + m.bs > bm.filled
    requires NoSharedUnfilled(m.bs, text, bm.slots, bm.filled, toks)
    ensures bm.ids[i] < |m.pool.blocks| && m.pool.blocks[bm.ids[i]].hash != Of(toks[..at + m.bs])
  {
    hide Spells, BlocksOk, NoSharedUnfilled, Offset;
    EarlierFull(m.bs, m.pool.blocks, bm, text, i);
    if Offset(i, m.bs) + m.bs <= bm.slots {
      UnsharedPrefix(m.bs, text, bm.slots, bm.filled, toks, i);
      assert toks[..at + m.bs] <= toks;
    } else {
      UnfullUnhashed(m.bs, m.pool.blocks, bm, text, i);
    }
  }

  lemma UnsharedPrefix(bs: BlockSize, text: seq<Token>, slots: nat, filled: nat, toks: seq<Token>, i: nat)
    requires slots <= |text| && NoSharedUnfilled(bs, text, slots, filled, toks)
    requires filled < Offset(i, bs) + bs <= slots
    ensures !(text[..Offset(i, bs) + bs] <= toks)
  {
    IndexBelowOffset(i + 1, bs);
    assert Offset(i + 1, bs) == Offset(i, bs) + bs;
  }

  lemma UnfullUnhashed(bs: BlockSize, blocks: seq<Block>, bm: BlockMap, text: seq<Token>, i: nat)
    requires Spells(bs, blocks, bm, text) && BlocksOk(bs, blocks) && i < |bm.ids| && Offset(i, bs) + bs > bm.slots
    ensures bm.ids[i] < |blocks| && blocks[bm.ids[i]].hash == NoHash
  {
    hide BlocksOk, Offset, BlockOk;
    var b := blocks[bm.ids[i]];
    assert ChunkIs(b, text[..bm.slots], 0 + Offset(i, bs), bs);
    BlockOkAt(bs, blocks, bm.ids[i]);
    ShortUnhashed(bs, b);
  }

  lemma {:induction false} IndexBelowOffset(i: nat, bs: BlockSize)
    ensures i <= Offset(i, bs)
  {
    if i > 0 {
      IndexBelowOffset(i - 1, bs);
    }
  }

  lemma {:induction false} SameHits(m: Manager, m': Manager, toks: seq<Token>, off: nat)
    requires m'.bs == m.bs
    requires forall at: nat :: HitAt(m', toks, at) == HitAt(m, toks, at)
    ensures HitsFrom(m', toks, off) == HitsFrom(m, toks, off)
    decreases |toks| - off
  {
    if HitAt(m, toks, off).Some? {
      SameHits(m, m', toks, off + m.bs);
    }
  }

  // ---------------------------------------------------------------- preempting until the task fits

  /** `can_alloc_infer_task` for a task of one sequence, with the blocks that preemption would free. */
  function CanAllocWith(m: Manager, q: SeqId, toks: seq<Token>, extra: nat, percent: nat): Outcome<bool> {
    var n :- Required(m, q, toks);
    Ok(CanAlloc(m.pool, if n >= extra then n - extra else 0, percent))
  }

  /** The preemption loop of `schedule_waiting_with_reorder`: release the victims, newest (last) first,
      until `q` can be admitted. Yields how many victims are left and whether `q` was admitted. */
  function PreemptUntil(m: Manager, q: SeqId, toks: seq<Token>, percent: nat, victims: seq<SeqId>): Outcome<(Manager, nat, bool)>
    decreases |victims|
  {
    if victims == [] then Ok((m, 0, false))
    else
      var n := |victims| - 1;
      var m1 :- FreeSeq(m, victims[n], false);
      var (m2, admitted) :- TryAlloc(m1, q, toks, percent);
      if admitted then Ok((m2, n, true)) else PreemptUntil(m2, q, toks, percent, victims[..n])
  }

  ghost predicate Victims(m: Manager, texts: Texts, q: SeqId, toks: seq<Token>, victims: seq<SeqId>) {
    && Inv(m, texts, multiset{}) && q in texts && texts[q] == toks && q !in victims
    && (forall i :: 0 <= i < |victims| ==> victims[i] in m.maps)
    && (forall i, j :: 0 <= i < j < |victims| ==> victims[i] != victims[j])
  }

  /** Only the victims from `left` on and `q` changed their place in the sequence table. */
  ghost predicate Preempted(m: Manager, m': Manager, texts: Texts, q: SeqId, toks: seq<Token>, victims: seq<SeqId>,
                            left: nat, admitted: bool) {
    && Inv(m', texts, multiset{})
    && m'.bs == m.bs && m'.regions == m.regions && |m'.pool.blocks| == |m.pool.blocks|
    && left <= |victims|
    && (forall o :: o != q && o !in victims[left..] ==>
          (o in m'.maps <==> o in m.maps) && (o in m.maps ==> m'.maps[o] == m.maps[o]))
    && (forall o :: o in victims[left..] ==> o !in m'.maps)
    && (admitted ==> q in m'.maps && m'.maps[q].slots == |toks|)
    && (!admitted ==> left == 0 && (q in m'.maps <==> q in m.maps) && (q in m.maps ==> m'.maps[q] == m.maps[q]))
  }

  lemma VictimReleased(m: Manager, texts: Texts, q: SeqId, toks: seq<Token>, victims: seq<SeqId>)
    requires Victims(m, texts, q, toks, victims) && victims != []
    ensures var v := victims[|victims| - 1];
      var r := FreeSeq(m, v, false);
      && r.Ok? && Released(m, r.value, texts, v)
      && r.value.maps == m.maps - {v} && r.value.bs == m.bs && r.value.regions == m.regions
      && |r.value.pool.blocks| == |m.pool.blocks|
      && Victims(r.value, texts, q, toks, victims[..|victims| - 1])
  {
    hide Inv, CountUnique, Unique, Held, FreeSeq;
    ReleaseSafe(m, texts, victims[|victims| - 1], false);
  }

  lemma TextKept(texts: Texts, q: SeqId, toks: seq<Token>)
    requires q in texts && texts[q] == toks
    ensures texts[q := toks] == texts
  {
  }

  /** Preempting never panics; the admission in it panics only by exhaustion. */
  lemma {:induction false} PreemptUntilSafe(m: Manager, texts: Texts, q: SeqId, toks: seq<Token>, percent: nat,
                                            victims: seq<SeqId>)
    requires Victims(m, texts, q, toks, victims) && percent <= 100
    ensures match PreemptUntil(m, q, toks, percent, victims)
      case Ok((m', left, admitted)) => Preempted(m, m', texts, q, toks, victims, left, admitted)
      case Panic(f) => f == Exhausted
    decreases |victims|
  {
    hide Inv, FreeSeq, TryAlloc, Released, Required, DivCeil, Repinned, CanAlloc, Hits, Preempted, Admitted, Victims;
    if victims == [] {
      PreemptedNone(m, texts, q, toks, victims);
    } else {
      var n := |victims| - 1;
      VictimReleased(m, texts, q, toks, victims);
      DistinctVictims(m, texts, q, toks, victims);
      var m1 := FreeSeq(m, victims[n], false).value;
      VictimsInv(m, texts, q, toks, victims);
      TextKept(texts, q, toks);
      VictimsInv(m1, texts, q, toks, victims[..n]);
      TryAllocAccounting(m1, texts, q, toks, percent);
      var r := TryAlloc(m1, q, toks, percent);
      if r.Ok? {
        if r.value.1 {
          PreemptedLast(m, m1, r.value.0, texts, q, toks, victims);
        } else {
          PreemptUntilSafe(m1, texts, q, toks, percent, victims[..n]);
          var rest := PreemptUntil(m1, q, toks, percent, victims[..n]);
          if rest.Ok? {
            var (m', left, admitted) := rest.value;
            PreemptedMore(m, m1, m', texts, q, toks, victims, left, admitted);
          }
        }
      }
    }
  }

  lemma VictimsInv(m: Manager, texts: Texts, q: SeqId, toks: seq<Token>, victims: seq<SeqId>)
    requires Victims(m, texts, q, toks, victims)
    ensures Inv(m, texts, multiset{}) && q in texts && texts[q] == toks
  {
  }

  lemma DistinctVictims(m: Manager, texts: Texts, q: SeqId, toks: seq<Token>, victims: seq<SeqId>)
    requires Victims(m, texts, q, toks, victims)
    ensures q !in victims && forall i, j :: 0 <= i < j < |victims| ==> victims[i] != victims[j]
  {
  }

  lemma PreemptedNone(m: Manager, texts: Texts, q: SeqId, toks: seq<Token>, victims: seq<SeqId>)
    requires Victims(m, texts, q, toks, victims) && victims == []
    ensures Preempted(m, m, texts, q, toks, victims, 0, false)
  {
    hide Inv;
  }

  lemma PreemptedLast(m: Manager, m1: Manager, m2: Manager, texts: Texts, q: SeqId, toks: seq<Token>,
                      victims: seq<SeqId>)
    requires victims != [] && q !in victims && q in texts && texts[q] == toks
    requires m1.maps == m.maps - {victims[|victims| - 1]} && m1.bs == m.bs && m1.regions == m.regions
    requires |m1.pool.blocks| == |m.pool.blocks|
    requires exists n: nat :: Admitted(m1, m2, texts, q, toks, n)
    ensures Preempted(m, m2, texts, q, toks, victims, |victims| - 1, true)
  {
    hide Inv, Hits, Repinned, DivCeil;
    var n: nat :| Admitted(m1, m2, texts, q, toks, n);
    TextKept(texts, q, toks);
    assert victims[|victims| - 1..] == [victims[|victims| - 1]];
  }

  lemma PreemptedMore(m: Manager, m1: Manager, m': Manager, texts: Texts, q: SeqId, toks: seq<Token>,
                      victims: seq<SeqId>, left: nat, admitted: bool)
    requires victims != [] && q !in victims
    requires m1.maps == m.maps - {victims[|victims| - 1]} && m1.bs == m.bs && m1.regions == m.regions
    requires |m1.pool.blocks| == |m.pool.blocks|
    requires forall i, j :: 0 <= i < j < |victims| ==> victims[i] != victims[j]
    requires Preempted(m1, m', texts, q, toks, victims[..|victims| - 1], left, admitted)
    ensures Preempted(m, m', texts, q, toks, victims, left, admitted)
  {
    hide Inv;
    var n := |victims| - 1;
    assert victims[left..] == victims[..n][left..] + [victims[n]];
    assert victims[n] !in victims[..n][left..];
  }

  /** No victim is computing a full block that `toks` would share. */
  ghost predicate NothingShared(m: Manager, texts: Texts, toks: seq<Token>, victims: seq<SeqId>) {
    forall i :: 0 <= i < |victims| ==>
      victims[i] in m.maps && victims[i] in texts && m.maps[victims[i]].slots <= |texts[victims[i]]|
      && NoSharedUnfilled(m.bs, texts[victims[i]], m.maps[victims[i]].slots, m.maps[victims[i]].filled, toks)
  }

  /** Releasing such a victim leaves the blocks `q` requires unchanged. */
  lemma RequiredKept(m: Manager, texts: Texts, q: SeqId, toks: seq<Token>, victims: seq<SeqId>)
    requires Victims(m, texts, q, toks, victims) && victims != [] && NothingShared(m, texts, toks, victims)
    ensures var v := victims[|victims| - 1];
      && FreeSeq(m, v, false).Ok?
      && Required(FreeSeq(m, v, false).value, q, toks) == Required(m, q, toks)
      && NothingShared(FreeSeq(m, v, false).value, texts, toks, victims[..|victims| - 1])
  {
    hide Inv, FreeSeq, Released, DivCeil, HitsFrom, NoSharedUnfilled;
    var v := victims[|victims| - 1];
    VictimReleased(m, texts, q, toks, victims);
    PreemptionKeepsHits(m, texts, v, toks);
    HitsAgree(m, FreeSeq(m, v, false).value, toks);
  }

  lemma HitsAgree(m: Manager, m': Manager, toks: seq<Token>)
    ensures Hits(m, toks) == HitsFrom(m, toks, 0) && Hits(m', toks) == HitsFrom(m', toks, 0)
  {
  }

  lemma ReclaimStep(m: Manager, texts: Texts, q: SeqId, toks: seq<Token>, victims: seq<SeqId>)
    requires Victims(m, texts, q, toks, victims) && victims != []
    ensures var n := |victims| - 1;
      var m1 := FreeSeq(m, victims[n], false);
      && m1.Ok?
      && m1.value.pool.Used() == m.pool.Used() - Unique(m, victims[n])
      && Reclaimable(m, victims) == Reclaimable(m, victims[..n]) + Unique(m, victims[n])
      && Reclaimable(m, victims[..n]) <= Reclaimable(m1.value, victims[..n])
  {
    hide Inv, FreeSeq, Unique, Held;
    var n := |victims| - 1;
    VictimReleased(m, texts, q, toks, victims);
    ReleaseKeepsReclaimable(m, FreeSeq(m, victims[n], false).value, texts, victims[n], victims[..n]);
  }

  /** The slack that the watermark leaves is enough to re-pin the cached prefix of `q`. */
  predicate RoomToPin(m: Manager, q: SeqId, toks: seq<Token>, percent: nat) {
    q in m.maps || |Hits(m, toks)| <= |m.pool.blocks| - percent * |m.pool.blocks| / 100
  }

  lemma {:induction false} CountFreeAtMost(blocks: seq<Block>, ids: seq<BlockId>)
    ensures CountFree(blocks, ids) <= |ids|
  {
    if ids != [] {
      CountFreeAtMost(blocks, ids[1..]);
    }
  }

  lemma RoomAdmits(m: Manager, texts: Texts, q: SeqId, toks: seq<Token>, percent: nat)
    requires Inv(m, texts, multiset{}) && (q in m.maps ==> texts[q] <= toks) && percent <= 100
    requires RoomToPin(m, q, toks, percent)
    ensures TryAlloc(m, q, toks, percent).Ok?
  {
    hide Inv, TryAlloc, Hits, CountFree;
    CapWithinPool(|m.pool.blocks|, percent);
    CountFreeAtMost(m.pool.blocks, Hits(m, toks));
    SlackPreventsExhaustion(m, texts, q, toks, percent);
  }

  /** Releasing such a victim leaves the room for re-pinning. */
  lemma RoomKept(m: Manager, texts: Texts, q: SeqId, toks: seq<Token>, percent: nat, victims: seq<SeqId>)
    requires Victims(m, texts, q, toks, victims) && victims != [] && NothingShared(m, texts, toks, victims)
    ensures FreeSeq(m, victims[|victims| - 1], false).Ok?
    ensures RoomToPin(FreeSeq(m, victims[|victims| - 1], false).value, q, toks, percent) <==>
      RoomToPin(m, q, toks, percent)
  {
    hide Inv, FreeSeq, Released, HitsFrom, NoSharedUnfilled;
    var v := victims[|victims| - 1];
    VictimReleased(m, texts, q, toks, victims);
    PreemptionKeepsHits(m, texts, v, toks);
    HitsAgree(m, FreeSeq(m, v, false).value, toks);
  }

  /** The reclaim prediction is sound: if it accepts `q`, and no victim is computing a full block that
      `q` would share, then preemption ends with `q` admitted; and it does not panic if there is room to
      re-pin the cached prefix. */
  lemma {:induction false} ReclaimSound(m: Manager, texts: Texts, q: SeqId, toks: seq<Token>, percent: nat,
                                        victims: seq<SeqId>)
    requires Victims(m, texts, q, toks, victims) && victims != [] && percent <= 100
    requires NothingShared(m, texts, toks, victims)
    requires CanAllocWith(m, q, toks, Reclaimable(m, victims), percent) == Ok(true)
    ensures match PreemptUntil(m, q, toks, percent, victims)
      case Ok((_, _, admitted)) => admitted
      case Panic(f) => f == Exhausted && !RoomToPin(m, q, toks, percent)
    decreases |victims|
  {
    hide Inv, FreeSeq, TryAlloc, Released, Required, DivCeil, Repinned, Unique, Hits, NothingShared, Admitted,
      Reclaimable, RoomToPin;
    var n := |victims| - 1;
    VictimReleased(m, texts, q, toks, victims);
    RequiredKept(m, texts, q, toks, victims);
    ReclaimStep(m, texts, q, toks, victims);
    var m1 := FreeSeq(m, victims[n], false).value;
    TextKept(texts, q, toks);
    TryAllocAccounting(m1, texts, q, toks, percent);
    RoomKept(m, texts, q, toks, percent, victims);
    if RoomToPin(m1, q, toks, percent) {
      RoomAdmits(m1, texts, q, toks, percent);
    }
    var r := TryAlloc(m1, q, toks, percent);
    if r.Ok? && !r.value.1 {
      if n == 0 {
        NothingReclaimable(m, victims[..n]);
      }
      ReclaimSound(m1, texts, q, toks, percent, victims[..n]);
    }
  }

  lemma NothingReclaimable(m: Manager, qs: seq<SeqId>)
    requires qs == []
    ensures Reclaimable(m, qs) == 0
  {
  }

  // ---------------------------------------------------------------- texts that always leave room

  /** All whole blocks of the text fit in the slack that the watermark leaves on a device of that size. */
  predicate Roomy(blocks: nat, bs: BlockSize, toks: seq<Token>, percent: nat) {
    Whole(|toks|, bs) <= blocks - percent * blocks / 100
  }

  lemma RoomyLeavesRoom(m: Manager, texts: Texts, q: SeqId, toks: seq<Token>, percent: nat)
    requires Inv(m, texts, multiset{}) && Roomy(|m.pool.blocks|, m.bs, toks, percent)
    ensures RoomToPin(m, q, toks, percent)
  {
    hide Inv, HitsFrom, Whole, Offset;
    HitsSpell(m, texts, multiset{}, toks, 0);
    WholeBounds(|toks|, m.bs);
    var k, w := |Hits(m, toks)|, Whole(|toks|, m.bs);
    if w < k {
      OffsetMono(w + 1, k, m.bs);
      OffsetSucc(w, m.bs);
    }
  }

  /** For such a text neither admission nor preemption for it ever panics. */
  lemma {:induction false} RoomyPreempts(m: Manager, texts: Texts, q: SeqId, toks: seq<Token>, percent: nat,
                                         victims: seq<SeqId>)
    requires Inv(m, texts, multiset{}) && q in texts && texts[q] == toks && percent <= 100
    requires Roomy(|m.pool.blocks|, m.bs, toks, percent)
    ensures TryAlloc(m, q, toks, percent).Ok? && PreemptUntil(m, q, toks, percent, victims).Ok?
    decreases |victims|
  {
    hide Inv, FreeSeq, TryAlloc, Roomy, RoomToPin, Hits, Required, Repinned, Admitted, Released, CanAlloc;
    RoomyLeavesRoom(m, texts, q, toks, percent);
    RoomAdmits(m, texts, q, toks, percent);
    if victims != [] {
      var n := |victims| - 1;
      ReleaseSafe(m, texts, victims[n], false);
      var m1 := FreeSeq(m, victims[n], false).value;
      ReleasedSize(m, m1, texts, victims[n]);
      RoomyPreempts(m1, texts, q, toks, percent, victims[..n]);
      TryAllocAccounting(m1, texts, q, toks, percent);
    }
  }

  lemma ReleasedSize(m: Manager, m': Manager, texts: Texts, q: SeqId)
    requires Released(m, m', texts, q)
    ensures Inv(m', texts, multiset{}) && m'.bs == m.bs && |m'.pool.blocks| == |m.pool.blocks|
  {
    hide Inv, Unique, Held;
  }
}
