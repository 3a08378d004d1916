/** Building a batch: copy plans between device caches, chunked inputs and the worker's view of them
    (runtime/src/llm_engine/scheduler.rs, lines 405-541; block_manager.rs, lines 241-273;
    runtime/worker/llm_worker/model_worker.py, lines 35-43 and 402-408). */
module Dispatch {
  import opened Prelude
  import opened BlockPool
  import opened BlockManagerSpec
  import opened BlockManagerInv
  import opened Allocation
  import opened PrefixCache
  import opened Release
  import opened KvCopy

  // ---------------------------------------------------------------- block ranges

  /** `copy_blocks`: the block pairs to copy and the filled length of the destination afterwards. */
  function CopyPlan(src: Manager, dst: Manager, q: SeqId, partial: bool): Option<(seq<Entry>, nat)> {
    var end := Min(src.Filled(q), dst.Slots(q));
    var from := dst.Filled(q);
    if end <= from then None
    else
      match BlockRange(src, q, from, end, partial)
      case None => None
      case Some((s, n)) =>
        match BlockRange(dst, q, from, end, partial)
        case None => None
        case Some((d, _)) => Some((Zip(s, d), n))
  }

  lemma BlockEnd(bs: BlockSize, blocks: seq<Block>, bm: BlockMap, text: seq<Token>, i: nat)
    requires Spells(bs, blocks, bm, text) && i < |bm.ids|
    ensures bm.ids[i] < |blocks| && Offset(i, bs) < bm.slots
    ensures Offset(i, bs) + |blocks[bm.ids[i]].tokens| == Min(Offset(i, bs) + bs, bm.slots)
  {
    assert ChunkIs(blocks[bm.ids[i]], text[..bm.slots], 0 + Offset(i, bs), bs);
  }

  /** How many blocks a position below the slots is away from the start. */
  lemma BlockIndexInList(bs: BlockSize, bm: BlockMap, n: nat)
    requires Covers(|bm.ids|, bm.slots, bs) && n <= bm.slots
    ensures Whole(n, bs) <= |bm.ids| && (n < bm.slots ==> Whole(n, bs) < |bm.ids|)
    ensures Offset(Whole(n, bs), bs) <= n < Offset(Whole(n, bs), bs) + bs
  {
    WholeBounds(n, bs);
    var k := Whole(n, bs);
    if k > |bm.ids| {
      OffsetMono(|bm.ids|, k, bs);
    }
  }

  /** What a block range query on a spelled list returns: the blocks from that of `start` up to that of
      `end`, and the end of their filled part. */
  lemma BlockRangeSpec(m: Manager, texts: Texts, q: SeqId, start: nat, end: nat, partial: bool)
    requires Inv(m, texts, multiset{}) && q in m.maps
    ensures var bm := m.maps[q];
      var s := Whole(start, m.bs);
      var e := Min(Whole(end, m.bs) + (if partial then 1 else 0), |bm.ids|);
      BlockRange(m, q, start, end, partial) ==
        if s >= e then None else Some((bm.ids[s..e], Min(Offset(e, m.bs), bm.filled)))
  {
    hide Inv, Spells, PoolOk, BlocksOk, TableOk, RegionsOk, Held, Whole, Offset, Covers;
    InvParts(m, texts, multiset{});
    var bm := m.maps[q];
    var s := Whole(start, m.bs);
    var e := Min(Whole(end, m.bs) + (if partial then 1 else 0), |bm.ids|);
    SpellsBounds(m.bs, m.pool.blocks, bm, texts[q]);
    if s < e {
      BlockEnd(m.bs, m.pool.blocks, bm, texts[q], e - 1);
      OffsetSucc(e - 1, m.bs);
    }
  }

  // ---------------------------------------------------------------- cache contents

  /** A cache cell holds the key/value state of the last token of a prefix. */
  type Cell = seq<Token>
  type Cache = seq<seq<Cell>>

  /** The positions below `n` of a sequence hold the right state in the blocks of `bm`. */
  ghost predicate RightUpTo(mem: Cache, bs: nat, bm: BlockMap, toks: seq<Token>, n: nat) {
    forall i, j :: 0 <= i < |bm.ids| && 0 <= j < bs && Offset(i, bs) + j < n ==> RightAt(mem, bm, toks, i, j, bs)
  }

  ghost predicate RightAt(mem: Cache, bm: BlockMap, toks: seq<Token>, i: nat, j: nat, bs: nat)
    requires i < |bm.ids|
  {
    && bm.ids[i] < |mem| && j < |mem[bm.ids[i]]| && Offset(i, bs) + j < |toks|
    && mem[bm.ids[i]][j] == toks[..Offset(i, bs) + j + 1]
  }

  /** `es` pairs the blocks of two lists from index `s` on. */
  ghost predicate Pairs(es: seq<Entry>, src: BlockMap, dst: BlockMap, s: nat) {
    && s + |es| <= |src.ids| && s + |es| <= |dst.ids|
    && forall k :: 0 <= k < |es| ==> es[k] == Entry(src.ids[s + k], dst.ids[s + k])
  }

  /** Copying the blocks from index `s` on makes every position right that the copied blocks reach and
      the source has right, and keeps the positions before them. */
  lemma CopyMakesRight(smem: Cache, dmem: Cache, bs: BlockSize, src: BlockMap, dst: BlockMap, toks: seq<Token>,
                       es: seq<Entry>, s: nat, n: nat)
    requires Pairs(es, src, dst, s) && Distinct(dst.ids)
    requires InBounds(es, |smem|, |dmem|)
    requires RightUpTo(smem, bs, src, toks, src.filled) && RightUpTo(dmem, bs, dst, toks, dst.filled)
    requires Offset(s, bs) <= dst.filled && n <= src.filled && n <= Offset(s + |es|, bs)
    ensures RightUpTo(Apply(dmem, smem, es), bs, dst, toks, n)
    ensures forall b :: 0 <= b < |dmem| && b !in dst.ids ==> Apply(dmem, smem, es)[b] == dmem[b]
  {
    hide Apply, RightAt, Offset;
    forall k, l | 0 <= k < l < |es|
      ensures es[k].dst != es[l].dst
    {
    }
    ApplyDelivers(dmem, smem, es);
    var mem := Apply(dmem, smem, es);
    forall i, j | 0 <= i < |dst.ids| && 0 <= j < bs && Offset(i, bs) + j < n
      ensures RightAt(mem, dst, toks, i, j, bs)
    {
      if i < s {
        OffsetMono(i, s, bs);
        assert RightAt(dmem, dst, toks, i, j, bs);
        NotATarget(es, src, dst, s, i);
        assert dst.ids[i] < |dmem| by {
          RightInBounds(dmem, dst, toks, i, j, bs);
        }
        RightElsewhere(dmem, mem, dst, toks, i, j, bs);
      } else {
        if i >= s + |es| {
          OffsetMono(s + |es|, i, bs);
        }
        assert es[i - s] == Entry(src.ids[i], dst.ids[i]);
        assert RightAt(smem, src, toks, i, j, bs);
        RightCopied(smem, mem, src, dst, toks, i, j, bs);
      }
    }
    forall b | 0 <= b < |dmem| && b !in dst.ids
      ensures mem[b] == dmem[b]
    {
      assert forall k :: 0 <= k < |es| ==> es[k].dst != b;
    }
  }

  lemma NotATarget(es: seq<Entry>, src: BlockMap, dst: BlockMap, s: nat, i: nat)
    requires Pairs(es, src, dst, s) && Distinct(dst.ids) && i < s && i < |dst.ids|
    ensures forall k :: 0 <= k < |es| ==> es[k].dst != dst.ids[i]
  {
  }

  lemma RightInBounds(mem: Cache, bm: BlockMap, toks: seq<Token>, i: nat, j: nat, bs: nat)
    requires i < |bm.ids| && RightAt(mem, bm, toks, i, j, bs)
    ensures bm.ids[i] < |mem|
  {
  }

  lemma RightElsewhere(dmem: Cache, mem: Cache, dst: BlockMap, toks: seq<Token>, i: nat, j: nat, bs: nat)
    requires i < |dst.ids| && RightAt(dmem, dst, toks, i, j, bs)
    requires |mem| == |dmem| && mem[dst.ids[i]] == dmem[dst.ids[i]]
    ensures RightAt(mem, dst, toks, i, j, bs)
  {
  }

  lemma RightCopied(smem: Cache, mem: Cache, src: BlockMap, dst: BlockMap, toks: seq<Token>, i: nat, j: nat, bs: nat)
    requires i < |dst.ids| && i < |src.ids| && RightAt(smem, src, toks, i, j, bs)
    requires dst.ids[i] < |mem| && mem[dst.ids[i]] == smem[src.ids[i]]
    ensures RightAt(mem, dst, toks, i, j, bs)
  {
  }

  // ---------------------------------------------------------------- the two copy plans

  /** Two devices hold the same sequence, and the GPU has slots for all of it. */
  ghost predicate Paired(gpu: Manager, host: Manager, texts: Texts, q: SeqId, toks: seq<Token>) {
    && Inv(gpu, texts, multiset{}) && Inv(host, texts, multiset{}) && gpu.bs == host.bs
    && q in gpu.maps && q in host.maps && q in texts && texts[q] == toks
    && gpu.maps[q].slots == |toks|
  }

  lemma PairedBounds(gpu: Manager, host: Manager, texts: Texts, q: SeqId, toks: seq<Token>)
    requires Paired(gpu, host, texts, q, toks)
    ensures q in gpu.maps && q in host.maps && q in texts && gpu.bs == host.bs
    ensures Inv(gpu, texts, multiset{}) && Inv(host, texts, multiset{})
    ensures gpu.maps[q].filled <= gpu.maps[q].slots == |toks| && Covers(|gpu.maps[q].ids|, gpu.maps[q].slots, gpu.bs)
    ensures host.maps[q].filled <= host.maps[q].slots <= |toks|
    ensures Covers(|host.maps[q].ids|, host.maps[q].slots, host.bs)
    ensures Distinct(gpu.maps[q].ids) && Distinct(host.maps[q].ids)
  {
    hide PoolOk, BlocksOk, TableOk, RegionsOk, Spells, Held;
    SpellsBounds(gpu.bs, gpu.pool.blocks, gpu.maps[q], toks);
    SpellsBounds(host.bs, host.pool.blocks, host.maps[q], toks);
    SpelledDistinct(gpu, texts, multiset{}, q);
    SpelledDistinct(host, texts, multiset{}, q);
  }

  /** What the host has more than the GPU: the blocks from the one with the first missing position on, up to
      the one at the host's filled length, if both lists have it. */
  function FetchJob(g: BlockMap, h: BlockMap, bs: BlockSize): Job {
    var s := Whole(g.filled, bs);
    Job(h.ids, g.ids, s, if h.filled <= g.filled then s else Min(Whole(h.filled, bs) + 1, Min(|h.ids|, |g.ids|)))
  }

  /** The whole blocks that the host can hold and lacks, once the GPU is filled up to `end`. */
  function WriteJob(g: BlockMap, h: BlockMap, end: nat, bs: BlockSize): Job {
    Job(g.ids, h.ids, Whole(h.filled, bs), Whole(Min(end, h.slots), bs))
  }

  /** The fetch plan exists exactly when the host is ahead; it raises the GPU's filled length to the
      host's and pairs the blocks from the one that holds the first missing position. */
  lemma FetchPlan(gpu: Manager, host: Manager, texts: Texts, q: SeqId, toks: seq<Token>)
    requires Paired(gpu, host, texts, q, toks)
    ensures var g, h := gpu.maps[q], host.maps[q];
      var plan := CopyPlan(host, gpu, q, true);
      && (plan.Some? <==> h.filled > g.filled)
      && Entries(plan) == EntriesOf(FetchJob(g, h, gpu.bs))
      && (plan.Some? ==>
            && plan.value.1 == h.filled <= g.slots
            && Pairs(plan.value.0, h, g, Whole(g.filled, gpu.bs))
            && Offset(Whole(g.filled, gpu.bs), gpu.bs) <= g.filled
            && h.filled <= Offset(Whole(g.filled, gpu.bs) + |plan.value.0|, gpu.bs))
  {
    hide Inv, Offset, CopyPlan, Whole, Covers, Distinct, EntriesOf, FetchPairs, Pairs;
    var g, h, bs := gpu.maps[q], host.maps[q], gpu.bs;
    PairedBounds(gpu, host, texts, q, toks);
    if h.filled > g.filled {
      var s, f := Whole(g.filled, bs), Whole(h.filled, bs);
      FetchValue(gpu, host, texts, q, toks);
      WholeMono(g.filled, h.filled, bs);
      BlockIndexInList(bs, g, g.filled);
      FetchReach(bs, g, h, h.filled, s, f);
      FetchPaired(CopyPlan(host, gpu, q, true), g, h, s, f + 1, bs);
    } else {
      NoFetch(gpu, host, q);
    }
  }

  lemma FetchPaired(plan: Option<(seq<Entry>, nat)>, g: BlockMap, h: BlockMap, s: nat, e: nat, bs: BlockSize)
    requires FetchPairs(plan, g, h, s, e) && h.filled > g.filled && s == Whole(g.filled, bs)
    requires e == Whole(h.filled, bs) + 1
    ensures plan.Some? && plan.value.1 == h.filled && Pairs(plan.value.0, h, g, s)
    ensures s + |plan.value.0| == Min(Min(e, |h.ids|), Min(e, |g.ids|))
    ensures Entries(plan) == EntriesOf(FetchJob(g, h, bs))
  {
    hide Whole, EntriesOf;
    ZipIsJob(h.ids, g.ids, s, Min(e, |h.ids|), Min(e, |g.ids|));
  }

  lemma NoFetch(gpu: Manager, host: Manager, q: SeqId)
    requires q in gpu.maps && q in host.maps && host.maps[q].filled <= gpu.maps[q].filled
    ensures CopyPlan(host, gpu, q, true) == None
    ensures EntriesOf(FetchJob(gpu.maps[q], host.maps[q], gpu.bs)) == []
  {
  }

  ghost predicate FetchPairs(plan: Option<(seq<Entry>, nat)>, g: BlockMap, h: BlockMap, s: nat, e: nat) {
    var a, b := Min(e, |h.ids|), Min(e, |g.ids|);
    s <= a && s <= b && plan == Some((Zip(h.ids[s..a], g.ids[s..b]), h.filled))
  }

  /** The two block ranges that the fetch plan pairs. */
  lemma FetchValue(gpu: Manager, host: Manager, texts: Texts, q: SeqId, toks: seq<Token>)
    requires Paired(gpu, host, texts, q, toks) && host.maps[q].filled > gpu.maps[q].filled
    ensures host.maps[q].filled <= gpu.maps[q].slots
    ensures FetchPairs(CopyPlan(host, gpu, q, true), gpu.maps[q], host.maps[q], Whole(gpu.maps[q].filled, gpu.bs),
                       Whole(host.maps[q].filled, gpu.bs) + 1)
  {
    hide Inv, Offset, BlockRange, Whole, Covers, Distinct;
    var g, h, bs := gpu.maps[q], host.maps[q], gpu.bs;
    PairedBounds(gpu, host, texts, q, toks);
    var f := Whole(h.filled, bs);
    BlockRangeSpec(host, texts, q, g.filled, h.filled, true);
    BlockRangeSpec(gpu, texts, q, g.filled, h.filled, true);
    BlockIndexInList(bs, g, g.filled);
    BlockIndexInList(bs, g, h.filled);
    BlockIndexInList(bs, h, h.filled);
    BlockIndexInList(bs, h, g.filled);
    WholeMono(g.filled, h.filled, bs);
    FetchEnd(bs, h, f);
  }

  lemma FetchEnd(bs: BlockSize, h: BlockMap, f: nat)
    requires Covers(|h.ids|, h.slots, bs) && h.filled <= h.slots && f == Whole(h.filled, bs)
    ensures Min(Offset(Min(f + 1, |h.ids|), bs), h.filled) == h.filled
  {
    WholeBounds(h.filled, bs);
  }

  lemma FetchReach(bs: BlockSize, g: BlockMap, h: BlockMap, n: nat, s: nat, f: nat)
    requires Covers(|g.ids|, g.slots, bs) && n <= g.slots && f == Whole(n, bs) && s <= f
    requires Covers(|h.ids|, h.slots, bs) && n <= h.slots
    ensures n <= Offset(Min(Min(f + 1, |h.ids|), Min(f + 1, |g.ids|)), bs)
  {
    WholeBounds(n, bs);
    assert Offset(f + 1, bs) == Offset(f, bs) + bs;
  }

  /** The write-through plan brings the host up to the last whole block it can hold; its filled length
      stays a multiple of the block size and never passes its slots or the GPU's filled length. */
  lemma WriteThroughPlan(gpu: Manager, host: Manager, texts: Texts, q: SeqId, toks: seq<Token>)
    requires Paired(gpu, host, texts, q, toks)
    ensures var g, h, bs := gpu.maps[q], host.maps[q], gpu.bs;
      var e := Whole(Min(g.filled, h.slots), bs);
      var plan := CopyPlan(gpu, host, q, false);
      && (plan.Some? <==> Whole(h.filled, bs) < e)
      && Entries(plan) == EntriesOf(WriteJob(g, h, g.filled, bs))
      && (plan.Some? ==>
            && plan.value.1 == Offset(e, bs) <= h.slots && Offset(e, bs) <= g.filled && Offset(e, bs) > h.filled
            && Pairs(plan.value.0, g, h, Whole(h.filled, bs))
            && Offset(Whole(h.filled, bs), bs) <= h.filled
            && Whole(h.filled, bs) + |plan.value.0| == e)
  {
    hide Inv, Offset, CopyPlan, Whole, Covers, Distinct;
    var g, h, bs := gpu.maps[q], host.maps[q], gpu.bs;
    PairedBounds(gpu, host, texts, q, toks);
    var end := Min(g.filled, h.slots);
    var s, e := Whole(h.filled, bs), Whole(end, bs);
    WholeBounds(end, bs);
    WholeBounds(h.filled, bs);
    WriteValue(gpu, host, texts, q, toks);
    if s < e {
      OffsetMono(s, e, bs);
      ZipIsJob(g.ids, h.ids, s, e, e);
    } else {
      NothingToWrite(g, h, g.filled, bs);
    }
  }

  lemma NothingToWrite(g: BlockMap, h: BlockMap, end: nat, bs: BlockSize)
    requires Whole(h.filled, bs) >= Whole(Min(end, h.slots), bs)
    ensures EntriesOf(WriteJob(g, h, end, bs)) == []
  {
    hide Whole;
  }

  ghost predicate WritePairs(plan: Option<(seq<Entry>, nat)>, g: BlockMap, h: BlockMap, s: nat, e: nat, bs: nat) {
    if s < e then e <= |g.ids| && e <= |h.ids| && plan == Some((Zip(g.ids[s..e], h.ids[s..e]), Offset(e, bs)))
    else plan == None
  }

  /** The two block ranges that the write-through plan pairs. */
  lemma WriteValue(gpu: Manager, host: Manager, texts: Texts, q: SeqId, toks: seq<Token>)
    requires Paired(gpu, host, texts, q, toks)
    ensures WritePairs(CopyPlan(gpu, host, q, false), gpu.maps[q], host.maps[q], Whole(host.maps[q].filled, gpu.bs),
                       Whole(Min(gpu.maps[q].filled, host.maps[q].slots), gpu.bs), gpu.bs)
  {
    hide Inv, Offset, BlockRange, Whole, Covers, Distinct;
    var g, h, bs := gpu.maps[q], host.maps[q], gpu.bs;
    PairedBounds(gpu, host, texts, q, toks);
    var end := Min(g.filled, h.slots);
    WholeBounds(end, bs);
    BlockIndexInList(bs, g, end);
    BlockIndexInList(bs, h, end);
    if end > h.filled {
      BlockRangeSpec(gpu, texts, q, h.filled, end, false);
      BlockRangeSpec(host, texts, q, h.filled, end, false);
    } else {
      WholeMono(end, h.filled, bs);
    }
  }

  /** Copy-plan correctness, in both directions: if the positions below the filled lengths are right on
      both devices, applying the plan block by block makes every position below the destination's new
      filled length right, and touches no block outside the destination's list. */
  lemma CopyPlanCorrect(gpu: Manager, host: Manager, texts: Texts, q: SeqId, toks: seq<Token>, gmem: Cache, hmem: Cache,
                        fetch: bool)
    requires Paired(gpu, host, texts, q, toks)
    requires |gmem| == |gpu.pool.blocks| && |hmem| == |host.pool.blocks|
    requires RightUpTo(gmem, gpu.bs, gpu.maps[q], toks, gpu.maps[q].filled)
    requires RightUpTo(hmem, gpu.bs, host.maps[q], toks, host.maps[q].filled)
    requires if fetch then CopyPlan(host, gpu, q, true).Some? else CopyPlan(gpu, host, q, false).Some?
    ensures if fetch then
        var (es, n) := CopyPlan(host, gpu, q, true).value;
        && InBounds(es, |hmem|, |gmem|)
        && RightUpTo(Apply(gmem, hmem, es), gpu.bs, gpu.maps[q], toks, n)
        && forall b :: 0 <= b < |gmem| && b !in gpu.maps[q].ids ==> Apply(gmem, hmem, es)[b] == gmem[b]
      else
        var (es, n) := CopyPlan(gpu, host, q, false).value;
        && InBounds(es, |gmem|, |hmem|)
        && RightUpTo(Apply(hmem, gmem, es), gpu.bs, host.maps[q], toks, n)
        && forall b :: 0 <= b < |hmem| && b !in host.maps[q].ids ==> Apply(hmem, gmem, es)[b] == hmem[b]
  {
    hide Inv, Offset, CopyPlan, Apply, RightUpTo, EntriesOf, FetchJob, WriteJob, Entries, Whole;
    var g, h, bs := gpu.maps[q], host.maps[q], gpu.bs;
    PairedBounds(gpu, host, texts, q, toks);
    ListInPool(gpu, texts, q);
    ListInPool(host, texts, q);
    if fetch {
      FetchPlan(gpu, host, texts, q, toks);
      var (es, n) := CopyPlan(host, gpu, q, true).value;
      CopyMakesRight(hmem, gmem, bs, h, g, toks, es, Whole(g.filled, bs), n);
    } else {
      WriteThroughPlan(gpu, host, texts, q, toks);
      var (es, n) := CopyPlan(gpu, host, q, false).value;
      CopyMakesRight(gmem, hmem, bs, g, h, toks, es, Whole(h.filled, bs), n);
    }
  }

  lemma ListInPool(m: Manager, texts: Texts, q: SeqId)
    requires Inv(m, texts, multiset{}) && q in m.maps
    ensures forall i :: 0 <= i < |m.maps[q].ids| ==> m.maps[q].ids[i] < |m.pool.blocks|
  {
    hide PoolOk, BlocksOk, TableOk, RegionsOk, ChunkIs, Offset, Held;
    assert Spells(m.bs, m.pool.blocks, m.maps[q], texts[q]);
  }

  // ---------------------------------------------------------------- one sequence of a batch

  /** `InferInput` */
  datatype Input = Input(q: SeqId, tokens: seq<Token>, filled: nat, context: nat, blocks: seq<BlockId>)

  /** What `dispatch` does for one sequence: the new filled lengths, the blocks to fetch before the
      batch, its input, and the blocks to write through after it. */
  datatype Slice = Slice(gpu: Manager, host: Manager, fetch: seq<Entry>, input: Option<Input>, write: seq<Entry>)

  function Raise(m: Manager, q: SeqId, plan: Option<(seq<Entry>, nat)>): Outcome<Manager> {
    if plan.Some? then UpdateFilled(m, q, plan.value.1) else Ok(m)
  }

  function Entries(plan: Option<(seq<Entry>, nat)>): seq<Entry> {
    if plan.Some? then plan.value.0 else []
  }

  /** The body of the dispatch loop, with `budget` tokens left in the batch. */
  function DispatchOne(gpu: Manager, host: Manager, q: SeqId, toks: seq<Token>, budget: nat): Outcome<Slice> {
    var fetch := CopyPlan(host, gpu, q, true);
    var gpu1 :- Raise(gpu, q, fetch);
    var filled := Min(gpu1.Filled(q), if |toks| > 0 then |toks| - 1 else 0);
    var len := Min(|toks| - filled, budget);
    if len == 0 then Ok(Slice(gpu1, host, Entries(fetch), None, []))
    else
      match BlockRange(gpu1, q, 0, filled + len, true)
      case None => Ok(Slice(gpu1, host, Entries(fetch), None, []))
      case Some((ids, _)) =>
        var context := filled + len;
        var gpu2 :- UpdateFilled(gpu1, q, context);
        var write := CopyPlan(gpu2, host, q, false);
        var host1 :- Raise(host, q, write);
        Ok(Slice(gpu2, host1, Entries(fetch), Some(Input(q, toks[filled..context], filled, context, ids)),
                 Entries(write)))
  }

  /** A multiple of the block size. */
  predicate Aligned(n: nat, bs: BlockSize) { Offset(Whole(n, bs), bs) == n }

  lemma OffsetAligned(k: nat, bs: BlockSize)
    ensures Aligned(Offset(k, bs), bs) && Whole(Offset(k, bs), bs) == k
  {
    WholeBounds(Offset(k, bs), bs);
    var w := Whole(Offset(k, bs), bs);
    if w < k {
      OffsetMono(w, k, bs);
    } else if k < w {
      OffsetMono(k, w, bs);
    }
  }

  function Max(a: nat, b: nat): nat { if a >= b then a else b }

  /** The manager with another filled length for `q`. */
  function WithFilled(m: Manager, q: SeqId, n: nat): Manager
    requires q in m.maps
  {
    m.(maps := m.maps[q := m.maps[q].(filled := n)])
  }

  lemma PairedFilled(gpu: Manager, host: Manager, texts: Texts, q: SeqId, toks: seq<Token>, a: nat, b: nat)
    requires Paired(gpu, host, texts, q, toks) && a <= gpu.maps[q].slots && b <= host.maps[q].slots
    ensures Paired(WithFilled(gpu, q, a), WithFilled(host, q, b), texts, q, toks)
    ensures UpdateFilled(gpu, q, a) == Ok(WithFilled(gpu, q, a))
    ensures UpdateFilled(host, q, b) == Ok(WithFilled(host, q, b))
  {
    hide Inv;
    UpdateFilledSafe(gpu, texts, q, a);
    UpdateFilledSafe(host, texts, q, b);
  }

  lemma SameFilled(m: Manager, q: SeqId)
    requires q in m.maps
    ensures WithFilled(m, q, m.maps[q].filled) == m
  {
    assert m.maps[q := m.maps[q].(filled := m.maps[q].filled)] == m.maps;
  }

  /** Where the next input of a sequence starts, and where it ends. */
  function StartOf(total: nat, g: nat, h: nat): nat { Min(Max(g, h), if total > 0 then total - 1 else 0) }

  function EndOf(total: nat, start: nat, budget: nat): nat
    requires start <= total
  {
    start + Min(total - start, budget)
  }

  ghost predicate SliceOk(gpu: Manager, host: Manager, sl: Slice, texts: Texts, q: SeqId, toks: seq<Token>, budget: nat)
    requires q in gpu.maps && q in host.maps
  {
    var g, h, bs := gpu.maps[q], host.maps[q], gpu.bs;
    var start := StartOf(|toks|, g.filled, h.filled);
    var end := EndOf(|toks|, start, budget);
    && q in sl.gpu.maps && q in sl.host.maps
    && sl.gpu == WithFilled(gpu, q, sl.gpu.maps[q].filled) && sl.host == WithFilled(host, q, sl.host.maps[q].filled)
    && Aligned(sl.host.maps[q].filled, bs)
    && (sl.input.Some? <==> |toks| > 0 && budget > 0)
    && (sl.input.None? ==> sl.gpu.maps[q].filled == Max(g.filled, h.filled) && sl.host == host)
    && (sl.input.Some? ==>
          && sl.input.value == Input(q, toks[start..end], start, end, g.ids[..Min(Whole(end, bs) + 1, |g.ids|)])
          && start < end <= |toks| && end - start <= budget
          && sl.gpu.maps[q].filled == end && sl.host.maps[q].filled <= end)
    && Paired(sl.gpu, sl.host, texts, q, toks)
  }

  /** The copies of a slice: before it, what the host has more; after it, the whole blocks that the host lacks
      and can hold, which it then counts as filled. */
  ghost predicate SliceCopies(gpu: Manager, host: Manager, sl: Slice, q: SeqId)
    requires q in gpu.maps && q in host.maps
  {
    var g, h, bs := gpu.maps[q], host.maps[q], gpu.bs;
    && sl.fetch == EntriesOf(FetchJob(g, h, bs))
    && (sl.input.None? ==> sl.write == [])
    && (sl.input.Some? ==>
          && sl.write == EntriesOf(WriteJob(g, h, sl.input.value.context, bs))
          && q in sl.host.maps
          && sl.host.maps[q].filled == Offset(Whole(Min(sl.input.value.context, h.slots), bs), bs))
  }

  lemma WriteJobIds(g: BlockMap, g': BlockMap, h: BlockMap, end: nat, bs: BlockSize)
    requires g'.ids == g.ids
    ensures WriteJob(g', h, end, bs) == WriteJob(g, h, end, bs)
  {
  }

  /** Dispatching a sequence never panics: no filled length passes its slots. Its input is the stretch
      that starts at the larger filled length (or at the last token, if all is filled) and is cut by
      the budget; afterwards it counts as filled, and the host's filled length is still a multiple of
      the block size and not ahead. */
  lemma DispatchOneSafe(gpu: Manager, host: Manager, texts: Texts, q: SeqId, toks: seq<Token>, budget: nat)
    requires Paired(gpu, host, texts, q, toks) && Aligned(host.maps[q].filled, gpu.bs)
    ensures DispatchOne(gpu, host, q, toks, budget).Ok?
    ensures SliceOk(gpu, host, DispatchOne(gpu, host, q, toks, budget).value, texts, q, toks, budget)
    ensures SliceCopies(gpu, host, DispatchOne(gpu, host, q, toks, budget).value, q)
  {
    hide Inv, Paired, CopyPlan, BlockRange, UpdateFilled, Whole, Offset, Distinct, Covers, Pairs, Aligned, DispatchOne,
      Raise, Entries, EntriesOf, FetchJob, WriteJob;
    PairedBounds(gpu, host, texts, q, toks);
    var g, h, bs := gpu.maps[q], host.maps[q], gpu.bs;
    var top := Max(g.filled, h.filled);
    Fetched(gpu, host, texts, q, toks);
    PairedFilled(gpu, host, texts, q, toks, top, h.filled);
    SameFilled(host, q);
    var gpu1 := WithFilled(gpu, q, top);
    var start := StartOf(|toks|, g.filled, h.filled);
    var end := EndOf(|toks|, start, budget);
    if start < end {
      PairedBounds(gpu1, host, texts, q, toks);
      BlockRangeSpec(gpu1, texts, q, 0, end, true);
      BlocksOfContext(bs, g, end);
      PairedFilled(gpu1, host, texts, q, toks, end, h.filled);
      var gpu2 := WithFilled(gpu1, q, end);
      assert gpu2 == WithFilled(gpu, q, end);
      SliceWrite(gpu2, host, texts, q, toks);
      WriteJobIds(g, gpu2.maps[q], host.maps[q], end, bs);
      DispatchedSome(gpu, host, q, toks, budget, gpu1, gpu2, g.ids[..Min(Whole(end, bs) + 1, |g.ids|)]);
    } else {
      DispatchedNone(gpu, host, q, toks, budget, gpu1);
    }
  }

  /** The fetch half of a slice. */
  lemma Fetched(gpu: Manager, host: Manager, texts: Texts, q: SeqId, toks: seq<Token>)
    requires Paired(gpu, host, texts, q, toks)
    ensures Entries(CopyPlan(host, gpu, q, true)) == EntriesOf(FetchJob(gpu.maps[q], host.maps[q], gpu.bs))
    ensures Raise(gpu, q, CopyPlan(host, gpu, q, true)) == Ok(WithFilled(gpu, q,
                                                                         Max(gpu.maps[q].filled, host.maps[q].filled)))
  {
    hide Inv, Paired, CopyPlan, UpdateFilled, Whole, Offset, Distinct, Covers, Pairs;
    PairedBounds(gpu, host, texts, q, toks);
    FetchPlan(gpu, host, texts, q, toks);
    PairedFilled(gpu, host, texts, q, toks, Max(gpu.maps[q].filled, host.maps[q].filled), host.maps[q].filled);
    SameFilled(gpu, q);
  }

  /** What the loop body yields, given what its steps do. */
  lemma DispatchedSome(gpu: Manager, host: Manager, q: SeqId, toks: seq<Token>, budget: nat, gpu1: Manager,
                       gpu2: Manager, ids: seq<BlockId>)
    requires q in gpu.maps && q in host.maps && gpu1 == WithFilled(gpu, q, Max(gpu.maps[q].filled, host.maps[q].filled))
    requires Raise(gpu, q, CopyPlan(host, gpu, q, true)) == Ok(gpu1)
    requires var start := StartOf(|toks|, gpu.maps[q].filled, host.maps[q].filled);
      var end := EndOf(|toks|, start, budget);
      && start < end && UpdateFilled(gpu1, q, end) == Ok(gpu2)
      && BlockRange(gpu1, q, 0, end, true).Some? && BlockRange(gpu1, q, 0, end, true).value.0 == ids
    requires Raise(host, q, CopyPlan(gpu2, host, q, false)).Ok?
    ensures var start := StartOf(|toks|, gpu.maps[q].filled, host.maps[q].filled);
      var end := EndOf(|toks|, start, budget);
      DispatchOne(gpu, host, q, toks, budget) ==
        Ok(Slice(gpu2, Raise(host, q, CopyPlan(gpu2, host, q, false)).value, Entries(CopyPlan(host, gpu, q, true)),
                 Some(Input(q, toks[start..end], start, end, ids)), Entries(CopyPlan(gpu2, host, q, false))))
  {
    hide CopyPlan, BlockRange, UpdateFilled, Raise, Entries;
  }

  lemma DispatchedNone(gpu: Manager, host: Manager, q: SeqId, toks: seq<Token>, budget: nat, gpu1: Manager)
    requires q in gpu.maps && q in host.maps && gpu1 == WithFilled(gpu, q, Max(gpu.maps[q].filled, host.maps[q].filled))
    requires Raise(gpu, q, CopyPlan(host, gpu, q, true)) == Ok(gpu1)
    requires var start := StartOf(|toks|, gpu.maps[q].filled, host.maps[q].filled);
      EndOf(|toks|, start, budget) == start
    ensures DispatchOne(gpu, host, q, toks, budget) == Ok(Slice(gpu1, host, Entries(CopyPlan(host, gpu, q, true)), None,
                                                                []))
  {
    hide CopyPlan, BlockRange, UpdateFilled, Raise, Entries;
  }

  lemma BlocksOfContext(bs: BlockSize, g: BlockMap, end: nat)
    requires 0 < end <= g.slots && Covers(|g.ids|, g.slots, bs)
    ensures Whole(0, bs) == 0 && |g.ids| > 0
    ensures Min(Whole(end, bs) + 1, |g.ids|) > 0
    ensures g.ids[0..Min(Whole(end, bs) + 1, |g.ids|)] == g.ids[..Min(Whole(end, bs) + 1, |g.ids|)]
  {
  }

  lemma NoMoreWhole(n: nat, m: nat, bs: BlockSize)
    requires Aligned(n, bs) && n <= m && Whole(n, bs) >= Whole(m, bs)
    ensures Offset(Whole(m, bs), bs) == n
  {
    WholeMono(n, m, bs);
  }

  /** The write-through half of a slice. */
  lemma SliceWrite(gpu: Manager, host: Manager, texts: Texts, q: SeqId, toks: seq<Token>)
    requires Paired(gpu, host, texts, q, toks) && Aligned(host.maps[q].filled, gpu.bs)
    requires host.maps[q].filled <= gpu.maps[q].filled
    ensures var r := Raise(host, q, CopyPlan(gpu, host, q, false));
      && r.Ok? && q in r.value.maps && r.value == WithFilled(host, q, r.value.maps[q].filled)
      && Paired(gpu, r.value, texts, q, toks)
      && Aligned(r.value.maps[q].filled, gpu.bs) && r.value.maps[q].filled <= gpu.maps[q].filled
      && r.value.maps[q].filled == Offset(Whole(Min(gpu.maps[q].filled, host.maps[q].slots), gpu.bs), gpu.bs)
      && Entries(CopyPlan(gpu, host, q, false)) ==
         EntriesOf(WriteJob(gpu.maps[q], host.maps[q], gpu.maps[q].filled, gpu.bs))
  {
    hide Inv, CopyPlan, UpdateFilled, Whole, Offset, Distinct, Covers, Pairs;
    PairedBounds(gpu, host, texts, q, toks);
    WriteThroughPlan(gpu, host, texts, q, toks);
    SameFilled(gpu, q);
    SameFilled(host, q);
    var e := Whole(Min(gpu.maps[q].filled, host.maps[q].slots), gpu.bs);
    if CopyPlan(gpu, host, q, false).Some? {
      OffsetAligned(e, gpu.bs);
      PairedFilled(gpu, host, texts, q, toks, gpu.maps[q].filled, Offset(e, gpu.bs));
    } else {
      NoMoreWhole(host.maps[q].filled, Min(gpu.maps[q].filled, host.maps[q].slots), gpu.bs);
    }
  }

  /** Chunked prefill tiles the sequence: once a sequence was dispatched up to `context` (so the GPU is
      filled exactly that far and the host not further), the next input starts exactly there, whether
      the sequence was cut (its text is unchanged) or complete (one token was appended). */
  lemma NextInputFollows(gpu: Manager, host: Manager, texts: Texts, q: SeqId, toks: seq<Token>, budget: nat,
                         context: nat)
    requires Paired(gpu, host, texts, q, toks) && Aligned(host.maps[q].filled, gpu.bs)
    requires gpu.maps[q].filled == context && host.maps[q].filled <= context < |toks| && budget > 0
    ensures var r := DispatchOne(gpu, host, q, toks, budget);
      && r.Ok? && r.value.input.Some? && r.value.input.value.filled == context && r.value.fetch == []
  {
    hide Inv, CopyPlan, BlockRange, UpdateFilled, Whole, Offset, Distinct, Covers, Pairs, Paired;
    DispatchOneSafe(gpu, host, texts, q, toks, budget);
    FetchPlan(gpu, host, texts, q, toks);
  }

  // ---------------------------------------------------------------- caches across a slice

  /** The model fills positions [filled, context) of a sequence correctly when all before are right. */
  ghost predicate Computes(before: Cache, after: Cache, bs: nat, bm: BlockMap, toks: seq<Token>, filled: nat,
                           context: nat) {
    |after| == |before| && (RightUpTo(before, bs, bm, toks, filled) ==> RightUpTo(after, bs, bm, toks, context))
  }

  lemma {:induction false} RightBelow(mem: Cache, bs: nat, bm: BlockMap, toks: seq<Token>, n: nat, k: nat)
    requires RightUpTo(mem, bs, bm, toks, n) && k <= n
    ensures RightUpTo(mem, bs, bm, toks, k)
  {
  }

  /** After fetching, computing `computed` and writing through, both caches are right up to the filled
      lengths of the slice. */
  ghost predicate CachesRight(sl: Slice, q: SeqId, g: BlockMap, h: BlockMap, bs: nat, toks: seq<Token>, gmem: Cache,
                              hmem: Cache, computed: Cache) {
    && InBounds(sl.fetch, |hmem|, |gmem|)
    && (sl.input.Some? && Computes(Apply(gmem, hmem, sl.fetch), computed, bs, g, toks, sl.input.value.filled, sl.input.value.context) ==>
          && q in sl.gpu.maps && RightUpTo(computed, bs, g, toks, sl.gpu.maps[q].filled)
          && q in sl.host.maps && InBounds(sl.write, |computed|, |hmem|)
          && RightUpTo(Apply(hmem, computed, sl.write), bs, h, toks, sl.host.maps[q].filled))
  }

  /** Fetch, compute, write through: if both caches are right up to their filled lengths before a
      sequence is dispatched, they are right up to the new, larger filled lengths after. */
  lemma SliceKeepsCachesRight(gpu: Manager, host: Manager, texts: Texts, q: SeqId, toks: seq<Token>, budget: nat,
                              gmem: Cache, hmem: Cache, computed: Cache)
    requires Paired(gpu, host, texts, q, toks) && Aligned(host.maps[q].filled, gpu.bs)
    requires |gmem| == |gpu.pool.blocks| && |hmem| == |host.pool.blocks|
    requires RightUpTo(gmem, gpu.bs, gpu.maps[q], toks, gpu.maps[q].filled)
    requires RightUpTo(hmem, gpu.bs, host.maps[q], toks, host.maps[q].filled)
    ensures DispatchOne(gpu, host, q, toks, budget).Ok?
    ensures CachesRight(DispatchOne(gpu, host, q, toks, budget).value, q, gpu.maps[q], host.maps[q], gpu.bs, toks, gmem,
                        hmem, computed)
  {
    hide Inv, CopyPlan, BlockRange, Whole, Offset, RightUpTo, Apply, Pairs, Covers, Distinct;
    var g, h, bs := gpu.maps[q], host.maps[q], gpu.bs;
    DispatchOneSafe(gpu, host, texts, q, toks, budget);
    FetchPlan(gpu, host, texts, q, toks);
    var sl := DispatchOne(gpu, host, q, toks, budget).value;
    var top := Max(g.filled, h.filled);
    if CopyPlan(host, gpu, q, true).Some? {
      CopyPlanCorrect(gpu, host, texts, q, toks, gmem, hmem, true);
    } else {
      ApplyNone(gmem, hmem);
    }
    assert RightUpTo(Apply(gmem, hmem, sl.fetch), bs, g, toks, top);
    if sl.input.Some? {
      RightBelow(Apply(gmem, hmem, sl.fetch), bs, g, toks, top, sl.input.value.filled);
      if Computes(Apply(gmem, hmem, sl.fetch), computed, bs, g, toks, sl.input.value.filled, sl.input.value.context) {
        SliceValue(gpu, host, q, toks, budget);
        PairedBounds(gpu, host, texts, q, toks);
        PairedFilled(gpu, host, texts, q, toks, sl.input.value.context, h.filled);
        SameFilled(host, q);
        RightSameIds(computed, bs, g, sl.gpu.maps[q], toks, sl.input.value.context);
        WriteKeepsRight(sl.gpu, host, texts, q, toks, computed, hmem, sl.host);
      }
    }
  }

  lemma SliceValue(gpu: Manager, host: Manager, q: SeqId, toks: seq<Token>, budget: nat)
    requires DispatchOne(gpu, host, q, toks, budget).Ok? && DispatchOne(gpu, host, q, toks, budget).value.input.Some?
    ensures var sl := DispatchOne(gpu, host, q, toks, budget).value;
      && sl.write == Entries(CopyPlan(sl.gpu, host, q, false))
      && Raise(host, q, CopyPlan(sl.gpu, host, q, false)) == Ok(sl.host)
  {
    hide CopyPlan, BlockRange, UpdateFilled;
  }

  lemma RightSameIds(mem: Cache, bs: nat, bm: BlockMap, bm': BlockMap, toks: seq<Token>, n: nat)
    requires RightUpTo(mem, bs, bm, toks, n) && bm'.ids == bm.ids
    ensures RightUpTo(mem, bs, bm', toks, n)
  {
    hide Offset;
    forall i, j | 0 <= i < |bm'.ids| && 0 <= j < bs && Offset(i, bs) + j < n
      ensures RightAt(mem, bm', toks, i, j, bs)
    {
      assert RightAt(mem, bm, toks, i, j, bs);
    }
  }

  lemma WriteKeepsRight(gpu: Manager, host: Manager, texts: Texts, q: SeqId, toks: seq<Token>, gmem: Cache, hmem: Cache,
                        host': Manager)
    requires Paired(gpu, host, texts, q, toks)
    requires |gmem| == |gpu.pool.blocks| && |hmem| == |host.pool.blocks|
    requires RightUpTo(gmem, gpu.bs, gpu.maps[q], toks, gpu.maps[q].filled)
    requires RightUpTo(hmem, gpu.bs, host.maps[q], toks, host.maps[q].filled)
    requires Raise(host, q, CopyPlan(gpu, host, q, false)) == Ok(host')
    ensures q in host'.maps && InBounds(Entries(CopyPlan(gpu, host, q, false)), |gmem|, |hmem|)
    ensures RightUpTo(Apply(hmem, gmem, Entries(CopyPlan(gpu, host, q, false))), gpu.bs, host.maps[q], toks,
                      host'.maps[q].filled)
  {
    hide Inv, CopyPlan, Offset, RightUpTo, Apply;
    if CopyPlan(gpu, host, q, false).Some? {
      CopyPlanCorrect(gpu, host, texts, q, toks, gmem, hmem, false);
    } else {
      ApplyNone(hmem, gmem);
    }
  }

  lemma ApplyNone(gmem: Cache, hmem: Cache)
    ensures InBounds([], |hmem|, |gmem|) && Apply(gmem, hmem, []) == gmem
  {
  }

  // ---------------------------------------------------------------- the worker's view

  /** The key/value length that the worker derives from an input: all listed blocks full but the last,
      which holds `(context - 1) % bs + 1` positions. */
  function WorkerLength(inp: Input, bs: BlockSize): int {
    (|inp.blocks| - 1) * bs + ((inp.context - 1) % bs + 1)
  }

  lemma PreviousMod(c: nat, bs: BlockSize)
    requires c > 0
    ensures (c - 1) % bs + 1 == if Aligned(c, bs) then bs else c - Offset(Whole(c, bs), bs)
  {
    WholeBounds(c, bs);
    var k := Whole(c, bs);
    if Aligned(c, bs) {
      assert k > 0;
      DivUnique(c - 1, k - 1, bs);
      OffsetIsProduct(k - 1, bs);
      RemainderOf(c - 1, k - 1, bs);
    } else {
      DivUnique(c - 1, k, bs);
      RemainderOf(c - 1, k, bs);
    }
  }

  lemma RemainderOf(n: nat, k: nat, bs: BlockSize)
    requires n / bs == k
    ensures n % bs == n - Offset(k, bs)
  {
    OffsetIsProduct(k, bs);
    assert n == bs * (n / bs) + n % bs;
  }

  /** Batch and worker agree on the length of a sequence exactly when its input is complete or ends
      inside a block. An input cut at a block boundary lists one block too many, and the worker takes
      the context to be a whole block longer than it is. */
  lemma WorkerAgreement(bs: BlockSize, total: nat, ids: seq<BlockId>, inp: Input)
    requires 0 < inp.context <= total && Covers(|ids|, total, bs)
    requires inp.blocks == ids[..Min(Whole(inp.context, bs) + 1, |ids|)]
    ensures WorkerLength(inp, bs) == inp.context <==> inp.context == total || !Aligned(inp.context, bs)
    ensures inp.context < total && Aligned(inp.context, bs) ==> WorkerLength(inp, bs) == inp.context + bs
  {
    var c := inp.context;
    var k := Whole(c, bs);
    WholeBounds(c, bs);
    PreviousMod(c, bs);
    BlocksListed(bs, total, |ids|, c);
    OffsetIsProduct(|inp.blocks| - 1, bs);
  }

  /** How many blocks an input up to `c` of `total` tokens lists. */
  lemma BlocksListed(bs: BlockSize, total: nat, blocks: nat, c: nat)
    requires 0 < c <= total && Covers(blocks, total, bs)
    ensures var k := Whole(c, bs);
      Min(k + 1, blocks) == if Aligned(c, bs) && c == total then k else k + 1
  {
    var k := Whole(c, bs);
    WholeBounds(c, bs);
    if Aligned(c, bs) && c == total {
      CoversUnique(k, blocks, total, bs);
    } else if blocks < k + 1 {
      OffsetMono(blocks, k, bs);
    }
  }

  // ---------------------------------------------------------------- a cut at a block boundary

  /** A sequence that was just given slots for its whole text, on a new GPU and a new host. */
  lemma NewlyStored(bs: BlockSize, n: nat, q: SeqId, toks: seq<Token>)
    requires DivCeil(|toks|, bs) <= n
    ensures AllocBlocks(NewManager(bs, n), q, toks).Ok?
    ensures var m := AllocBlocks(NewManager(bs, n), q, toks).value.0;
      Paired(m, m, map[q := toks], q, toks) && m.maps[q].filled == 0 && m.bs == bs
  {
    hide Inv, AllocBlocks, DivCeil;
    NewManagerInv(bs, n);
    AllocBlocksSafe(NewManager(bs, n), map[], q, toks);
  }

  /** With a token budget of whole blocks, the first input of every longer text is cut at a block boundary,
      and the worker takes its context to be a block longer than it is. */
  lemma CutAtBoundary(bs: BlockSize, n: nat, q: SeqId, toks: seq<Token>, budget: nat)
    requires DivCeil(|toks|, bs) <= n && 0 < budget < |toks| && Aligned(budget, bs)
    ensures AllocBlocks(NewManager(bs, n), q, toks).Ok?
    ensures var m := AllocBlocks(NewManager(bs, n), q, toks).value.0;
      var r := DispatchOne(m, m, q, toks, budget);
      && r.Ok? && r.value.input.Some? && r.value.input.value.context == budget
      && WorkerLength(r.value.input.value, bs) == budget + bs
  {
    hide Inv, AllocBlocks, DivCeil, DispatchOne, Whole, Offset, Covers, WorkerLength, Distinct;
    NewlyStored(bs, n, q, toks);
    var m := AllocBlocks(NewManager(bs, n), q, toks).value.0;
    NothingAligned(bs);
    DispatchOneSafe(m, m, map[q := toks], q, toks, budget);
    PairedBounds(m, m, map[q := toks], q, toks);
    WorkerAgreement(bs, |toks|, m.maps[q].ids, DispatchOne(m, m, q, toks, budget).value.input.value);
  }

  lemma NothingAligned(bs: BlockSize)
    ensures Aligned(0, bs)
  {
  }
}
