/** Admission and extension of one sequence on one device
    (runtime/src/llm_engine/scheduler.rs, lines 254-299; block_manager.rs, lines 94-103 and 281-295). */
module Admission {
  import opened Prelude
  import opened BlockPool
  import opened BlockManagerSpec
  import opened BlockManagerInv
  import opened Allocation
  import opened PrefixCache

  /** `try_alloc_infer_task` for a task of one sequence, with the watermark in percent. */
  function TryAlloc(m: Manager, q: SeqId, toks: seq<Token>, percent: nat): Outcome<(Manager, bool)> {
    var n :- Required(m, q, toks);
    if !CanAlloc(m.pool, n, percent) then Ok((m, false))
    else
      var (m1, _) :- InitPrefix(m, q, toks);
      var (m2, _) :- AllocBlocks(m1, q, toks);
      Ok((m2, true))
  }

  /** `try_extend_infer_task` for a task of one sequence; the watermark is 1. */
  function TryExtend(m: Manager, q: SeqId, toks: seq<Token>): Outcome<(Manager, bool)> {
    var n :- Required(m, q, toks);
    if !CanAlloc(m.pool, n, 100) then Ok((m, false))
    else
      var (m1, _) :- AllocBlocks(m, q, toks);
      Ok((m1, true))
  }

  /** The unreferenced blocks of the cached prefix that admission would take off the free list. */
  function Repinned(m: Manager, q: SeqId, toks: seq<Token>): nat {
    if q in m.maps then 0 else CountFree(m.pool.blocks, Hits(m, toks))
  }

  /** `get_num_required_blocks` never underflows: it is what allocation will need once the cached
      prefix is taken over. */
  lemma RequiredSafe(m: Manager, texts: Texts, q: SeqId, toks: seq<Token>)
    requires Inv(m, texts, multiset{}) && (q in m.maps ==> texts[q] <= toks)
    ensures Required(m, q, toks).Ok?
    ensures Required(m, q, toks).value ==
      DivCeil(|toks|, m.bs) - if q in m.maps then |m.maps[q].ids| else |Hits(m, toks)|
  {
    hide Inv, DivCeil, HitsFrom;
    if q in m.maps {
      AllocBlocksSafe(m, texts, q, toks);
    } else {
      HitsSpell(m, texts, multiset{}, toks, 0);
      var k := |Hits(m, toks)|;
      DivCeilCovers(|toks|, m.bs);
      if DivCeil(|toks|, m.bs) < k {
        OffsetMono(DivCeil(|toks|, m.bs), k, m.bs);
      }
    }
  }

  lemma CapWithinPool(t: nat, percent: nat)
    requires percent <= 100
    ensures percent * t / 100 <= t
  {
    assert percent * t <= 100 * t;
  }

  lemma FreeWithinPool(p: Pool, n: nat, percent: nat)
    requires CanAlloc(p, n, percent) && percent <= 100
    ensures n <= n + (|p.blocks| - percent * |p.blocks| / 100) <= |p.free|
  {
    CapWithinPool(|p.blocks|, percent);
  }

  /** Extending a mapped sequence never panics: a passing check is enough, and allocation then takes
      exactly the checked number of blocks. */
  lemma TryExtendSafe(m: Manager, texts: Texts, q: SeqId, toks: seq<Token>)
    requires Inv(m, texts, multiset{}) && q in m.maps && texts[q] <= toks
    ensures var r := TryExtend(m, q, toks);
      && r.Ok?
      && (r.value.1 <==> CanAlloc(m.pool, Needed(m, q, toks), 100))
      && (if r.value.1 then Extended(m, r.value.0, texts, q, toks) else r.value.0 == m)
  {
    hide Inv, DivCeil, AllocBlocks, CanAlloc, Extended;
    RequiredSafe(m, texts, q, toks);
    AllocBlocksSafe(m, texts, q, toks);
    if CanAlloc(m.pool, Needed(m, q, toks), 100) {
      FreeWithinPool(m.pool, Needed(m, q, toks), 100);
    }
  }

  /** What first admission achieves: all of `toks` has slots, the cached prefix counts as filled. */
  ghost predicate Admitted(m: Manager, m': Manager, texts: Texts, q: SeqId, toks: seq<Token>, n: nat) {
    && Inv(m', texts[q := toks], multiset{})
    && m'.bs == m.bs && m'.regions == m.regions && |m'.pool.blocks| == |m.pool.blocks|
    && q in m'.maps && m'.maps == m.maps[q := m'.maps[q]]
    && m'.maps[q].slots == |toks| && |m'.maps[q].ids| == DivCeil(|toks|, m.bs)
    && m'.maps[q].filled == (if q in m.maps then m.maps[q].filled else Offset(|Hits(m, toks)|, m.bs))
    && |m'.pool.free| == |m.pool.free| - n - Repinned(m, q, toks)
  }

  /** Allocation accounting at admission. The check counts the required blocks only; the free list
      shrinks by these plus the cached prefix blocks that were free. So an accepted admission panics
      exactly when the free list cannot also supply those. */
  lemma TryAllocAccounting(m: Manager, texts: Texts, q: SeqId, toks: seq<Token>, percent: nat)
    requires Inv(m, texts, multiset{}) && (q in m.maps ==> texts[q] <= toks) && percent <= 100
    ensures Required(m, q, toks).Ok?
    ensures var n := Required(m, q, toks).value;
      var r := TryAlloc(m, q, toks, percent);
      if !CanAlloc(m.pool, n, percent) then r == Ok((m, false))
      else if |m.pool.free| < n + Repinned(m, q, toks) then r == Panic(Exhausted)
      else r.Ok? && r.value.1 && Admitted(m, r.value.0, texts, q, toks, n)
  {
    hide Inv, DivCeil, HitsFrom, AllocBlocks, InitPrefix, CanAlloc, CountFree;
    RequiredSafe(m, texts, q, toks);
    var n := Required(m, q, toks).value;
    if CanAlloc(m.pool, n, percent) {
      FreeWithinPool(m.pool, n, percent);
      if q in m.maps {
        InitPrefixMapped(m, q, toks);
        AllocBlocksSafe(m, texts, q, toks);
      } else {
        InitPrefixSafe(m, texts, q, toks);
        var m1 := InitPrefix(m, q, toks).value.0;
        AllocBlocksSafe(m1, texts[q := toks], q, toks);
        AdmittedInTwo(m, m1, texts, q, toks);
      }
    }
  }

  lemma AdmittedInTwo(m: Manager, m1: Manager, texts: Texts, q: SeqId, toks: seq<Token>)
    requires q !in m.maps && Cached(m, m1, texts, q, toks) && MoreHits(m, q, toks) == Hits(m, toks)
    ensures Needed(m1, q, toks) == DivCeil(|toks|, m.bs) - |Hits(m, toks)|
    ensures forall m2 :: Extended(m1, m2, texts[q := toks], q, toks) ==>
      Admitted(m, m2, texts, q, toks, Needed(m1, q, toks))
  {
    hide Inv, DivCeil, HitsFrom, CountFree;
    forall m2 | Extended(m1, m2, texts[q := toks], q, toks)
      ensures Admitted(m, m2, texts, q, toks, Needed(m1, q, toks))
    {
      assert texts[q := toks][q := toks] == texts[q := toks];
    }
  }

  /** Admission cannot exhaust the device while the watermark leaves enough blocks for re-pinning. */
  lemma SlackPreventsExhaustion(m: Manager, texts: Texts, q: SeqId, toks: seq<Token>, percent: nat)
    requires Inv(m, texts, multiset{}) && (q in m.maps ==> texts[q] <= toks) && percent <= 100
    requires Repinned(m, q, toks) <= |m.pool.blocks| - percent * |m.pool.blocks| / 100
    ensures TryAlloc(m, q, toks, percent).Ok?
  {
    hide Inv, DivCeil, HitsFrom, AllocBlocks, InitPrefix, CountFree, TryAlloc;
    TryAllocAccounting(m, texts, q, toks, percent);
    var n := Required(m, q, toks).value;
    if CanAlloc(m.pool, n, percent) {
      FreeWithinPool(m.pool, n, percent);
    }
  }
}
