/** The caches across a whole batch (runtime/src/llm_engine/engine.rs, lines 330-350; scheduler.rs, lines
    405-541; runtime/worker/llm_worker/kv_worker.py, lines 197-247): the fetches of the batch, the worker, and
    the write-throughs, for all active sequences at once. */
module BatchCaches {
  import opened Prelude
  import opened BlockManagerSpec
  import opened BlockManagerInv
  import opened PrefixCache
  import opened Release
  import opened Reclaiming
  import opened KvCopy
  import opened Dispatch
  import opened Allocation
  import opened Publication
  import opened Queues
  import opened SchedulerState
  import opened Batches

  /** The cache holds the right state of `q` up to its filled length. */
  ghost predicate RightFor(mem: Cache, m: Manager, seqs: map<SeqId, Sequence>, q: SeqId) {
    && q in m.maps && q in seqs
    && RightUpTo(mem, m.bs, m.maps[q], seqs[q].toks, m.maps[q].filled)
  }

  ghost predicate AllRight(mem: Cache, m: Manager, seqs: map<SeqId, Sequence>, qs: set<SeqId>) {
    forall q :: q in qs ==> RightFor(mem, m, seqs, q)
  }

  /** No sequence has yet to fill a block that another one lists too. */
  ghost predicate NoSharedAhead(m: Manager, qs: set<SeqId>) {
    forall q, o, b :: q in qs && o in qs && q != o && PastFilled(m, q, b) ==> !ListedBy(m, o, b)
  }

  /** The input computes in the block: one for positions between its start and its end. */
  ghost predicate Computing(inp: Input, m: Manager, b: BlockId) {
    && inp.q in m.maps
    && exists i :: 0 <= i < |m.maps[inp.q].ids| && m.maps[inp.q].ids[i] == b
                   && Offset(i, m.bs) + m.bs > inp.filled && Offset(i, m.bs) < inp.context
  }

  /** The worker computes each input from a right cache, and writes no other blocks. */
  ghost predicate WorkerOk(b: Batch, seqs: map<SeqId, Sequence>, m: Manager, before: Cache, after: Cache) {
    && |after| == |before|
    && (forall k :: 0 <= k < |b.inputs| ==>
          InputComputed(b.inputs[k], seqs, m, before, after))
    && (forall x :: 0 <= x < |before| && (forall k :: 0 <= k < |b.inputs| ==> !Computing(b.inputs[k], m, x)) ==>
          after[x] == before[x])
  }

  ghost predicate InputComputed(inp: Input, seqs: map<SeqId, Sequence>, m: Manager, before: Cache, after: Cache) {
    && inp.q in m.maps && inp.q in seqs
    && Computes(before, after, m.bs, m.maps[inp.q], seqs[inp.q].toks, inp.filled, inp.context)
  }

  /** The active sequences `qs` on both devices, and the inputs of some of them. */
  ghost predicate Setting(inputs: seq<Input>, seqs: map<SeqId, Sequence>, gpu: Manager, host: Manager, qs: set<SeqId>) {
    && (forall q :: q in qs ==> q in seqs && Paired(gpu, host, TextsOf(seqs), q, seqs[q].toks))
    && (forall k :: 0 <= k < |inputs| ==> inputs[k].q in qs && Starts(inputs[k], seqs, gpu, host))
    && (forall k :: 0 <= k < |inputs| ==> inputs[k].filled < inputs[k].context <= |seqs[inputs[k].q].toks|)
    && (forall k, l :: 0 <= k < l < |inputs| ==> inputs[k].q != inputs[l].q)
  }

  // ---------------------------------------------------------------- one sequence, after the copies of all

  /** The blocks of a job hold what the source has, the others what they had. */
  lemma CopiedRight(dmem: Cache, smem: Cache, r: Cache, bs: BlockSize, src: BlockMap, dst: BlockMap, toks: seq<Token>,
                    j: Job, n: nat, m: nat, n': nat)
    requires j.src == src.ids && j.dst == dst.ids && Delivered(smem, r, j) && |r| == |dmem|
    requires RightUpTo(dmem, bs, dst, toks, n) && RightUpTo(smem, bs, src, toks, m)
    requires forall i :: 0 <= i < |dst.ids| && !Fitting(j, i) ==>
      dst.ids[i] < |dmem| && r[dst.ids[i]] == dmem[dst.ids[i]]
    requires j.Fits() && j.s < j.e ==> n' <= m
    requires forall i :: 0 <= i < |dst.ids| && !Fitting(j, i) ==>
      n' <= n || Offset(i, bs) + bs <= n || Offset(i, bs) >= n'
    ensures RightUpTo(r, bs, dst, toks, n')
  {
    hide RightAt, Offset, Delivered;
    forall i, k | 0 <= i < |dst.ids| && 0 <= k < bs && Offset(i, bs) + k < n'
      ensures RightAt(r, dst, toks, i, k, bs)
    {
      if Fitting(j, i) {
        assert RightAt(smem, src, toks, i, k, bs);
        DeliveredAt(smem, r, j, i);
        RightCopied(smem, r, src, dst, toks, i, k, bs);
      } else {
        assert RightAt(dmem, dst, toks, i, k, bs);
        RightElsewhere(dmem, r, dst, toks, i, k, bs);
      }
    }
  }

  lemma DeliveredAt(smem: Cache, r: Cache, j: Job, i: nat)
    requires Delivered(smem, r, j) && Fitting(j, i)
    ensures j.dst[i] < |r| && j.src[i] < |smem| && r[j.dst[i]] == smem[j.src[i]]
  {
    assert Targets(j, i, j.dst[i]);
  }

  lemma UntouchedRight(dmem: Cache, r: Cache, bs: BlockSize, bm: BlockMap, toks: seq<Token>, n: nat)
    requires RightUpTo(dmem, bs, bm, toks, n) && |r| == |dmem|
    requires forall i :: 0 <= i < |bm.ids| ==> bm.ids[i] < |dmem| && r[bm.ids[i]] == dmem[bm.ids[i]]
    ensures RightUpTo(r, bs, bm, toks, n)
  {
    hide Offset, RightAt;
    forall i, k | 0 <= i < |bm.ids| && 0 <= k < bs && Offset(i, bs) + k < n
      ensures RightAt(r, bm, toks, i, k, bs)
    {
      assert RightAt(dmem, bm, toks, i, k, bs);
      RightElsewhere(dmem, r, bm, toks, i, k, bs);
    }
  }

  // ---------------------------------------------------------------- jobs write ahead

  /** A job of `q` on manager `m` writes blocks of `q` that are still to be filled. */
  ghost predicate WritesAhead(m: Manager, q: SeqId, j: Job) {
    && q in m.maps && j.dst == m.maps[q].ids
    && forall i :: Fitting(j, i) ==> Offset(i, m.bs) + m.bs > m.maps[q].filled
  }

  lemma AheadIs(m: Manager, q: SeqId, j: Job, i: int, b: BlockId)
    requires WritesAhead(m, q, j) && Targets(j, i, b)
    ensures PastFilled(m, q, b) && ListedBy(m, q, b)
  {
    hide Offset;
    assert m.maps[q].ids[i] == b;
  }

  lemma FromWhole(m: Manager, q: SeqId, j: Job)
    requires q in m.maps && j.dst == m.maps[q].ids && j.s == Whole(m.maps[q].filled, m.bs)
    ensures WritesAhead(m, q, j)
  {
    hide Offset, Whole;
    WholeBounds(m.maps[q].filled, m.bs);
    forall i | Fitting(j, i)
      ensures Offset(i, m.bs) + m.bs > m.maps[q].filled
    {
      OffsetMono(j.s, i, m.bs);
    }
  }

  /** The jobs of different sequences, each writing ahead. */
  ghost predicate JobsOf(m: Manager, inputs: seq<Input>, jobs: seq<Job>, qs: set<SeqId>) {
    && |jobs| == |inputs| && NoSharedAhead(m, qs)
    && (forall k :: 0 <= k < |inputs| ==>
          (inputs[k].q in qs && WritesAhead(m, inputs[k].q, jobs[k]) && Distinct(jobs[k].dst)))
    && (forall k, l :: 0 <= k < l < |inputs| ==> inputs[k].q != inputs[l].q)
  }

  lemma JobsSeparate(m: Manager, inputs: seq<Input>, jobs: seq<Job>, qs: set<SeqId>)
    requires JobsOf(m, inputs, jobs, qs)
    ensures Separate(jobs)
  {
    hide PastFilled, ListedBy, WritesAhead;
    forall x, a, i, b, j | 0 <= a < |jobs| && 0 <= b < |jobs| && Targets(jobs[a], i, x) && Targets(jobs[b], j, x)
      ensures a == b && i == j
    {
      if a != b {
        Elsewhere(m, inputs, jobs, qs, a, i, x, inputs[b].q);
        AheadIs(m, inputs[b].q, jobs[b], j, x);
      }
    }
  }

  /** What the job of one sequence writes, no other sequence lists. */
  lemma Elsewhere(m: Manager, inputs: seq<Input>, jobs: seq<Job>, qs: set<SeqId>, a: nat, i: int, x: int, q: SeqId)
    requires JobsOf(m, inputs, jobs, qs) && a < |jobs| && Targets(jobs[a], i, x) && q in qs && inputs[a].q != q
    ensures x >= 0 && !ListedBy(m, q, x)
  {
    hide PastFilled, ListedBy, WritesAhead;
    TargetNat(jobs[a], i, x);
    AheadIs(m, inputs[a].q, jobs[a], i, x);
  }

  lemma TargetNat(j: Job, i: int, x: int)
    requires Targets(j, i, x)
    ensures x >= 0
  {
  }

  /** The blocks of `q` outside its own job are written by none. */
  lemma NotWritten(m: Manager, inputs: seq<Input>, jobs: seq<Job>, qs: set<SeqId>, q: SeqId, i: nat)
    requires JobsOf(m, inputs, jobs, qs) && q in qs && q in m.maps && Distinct(m.maps[q].ids) && i < |m.maps[q].ids|
    requires forall k :: 0 <= k < |inputs| && inputs[k].q == q ==> !Fitting(jobs[k], i)
    ensures forall k :: 0 <= k < |jobs| ==> !Writes(jobs[k], m.maps[q].ids[i])
  {
    hide PastFilled, NoSharedAhead;
    var x := m.maps[q].ids[i];
    forall k | 0 <= k < |jobs|
      ensures !Writes(jobs[k], x)
    {
      if Writes(jobs[k], x) {
        var j :| Targets(jobs[k], j, x);
        if inputs[k].q != q {
          Elsewhere(m, inputs, jobs, qs, k, j, x, q);
        }
      }
    }
  }

  // ---------------------------------------------------------------- before the batch

  /** The fetch of one sequence covers all that the host has more. */
  lemma FetchCovers(g: BlockMap, h: BlockMap, bs: BlockSize, i: nat)
    requires g.filled <= g.slots && h.filled <= h.slots && Covers(|g.ids|, g.slots, bs) && Covers(|h.ids|, h.slots, bs)
    requires h.filled <= g.slots && i < |g.ids| && !Fitting(FetchJob(g, h, bs), i)
    ensures var n := Max(g.filled, h.filled);
      n <= g.filled || Offset(i, bs) + bs <= g.filled || Offset(i, bs) >= n
  {
    hide Offset, Whole, Covers;
    if h.filled > g.filled {
      var s, f := Whole(g.filled, bs), Whole(h.filled, bs);
      BlockIndexInList(bs, g, g.filled);
      BlockIndexInList(bs, h, h.filled);
      WholeMono(g.filled, h.filled, bs);
      if i < s {
        OffsetMono(i, s, bs);
      } else if i >= f + 1 {
        OffsetMono(f + 1, i, bs);
        NextOffset(f, bs);
      } else {
        CoversEnd(|h.ids|, h.slots, bs);
        OffsetMono(|h.ids|, i, bs);
      }
    }
  }

  lemma NextOffset(i: nat, bs: nat)
    ensures Offset(i + 1, bs) == Offset(i, bs) + bs
  {
  }

  lemma CoversEnd(k: nat, n: nat, bs: nat)
    requires Covers(k, n, bs)
    ensures n <= Offset(k, bs)
  {
  }

  lemma {:induction false} JobsInBounds(jobs: seq<Job>, srcLen: nat, dstLen: nat)
    requires forall k :: 0 <= k < |jobs| ==> ListsWithin(jobs[k], srcLen, dstLen)
    ensures InBounds(AllEntries(jobs), srcLen, dstLen)
    decreases |jobs|
  {
    hide ListsWithin, EntriesOf;
    if jobs != [] {
      var n := |jobs| - 1;
      assert forall k :: 0 <= k < n ==> jobs[..n][k] == jobs[k];
      JobsInBounds(jobs[..n], srcLen, dstLen);
      JobInBounds(jobs[n], srcLen, dstLen);
      BoundsAppend(AllEntries(jobs[..n]), EntriesOf(jobs[n]), srcLen, dstLen);
    }
  }

  predicate ListsWithin(j: Job, srcLen: nat, dstLen: nat) {
    (forall b :: b in j.src ==> b < srcLen) && (forall b :: b in j.dst ==> b < dstLen)
  }

  lemma JobInBounds(j: Job, srcLen: nat, dstLen: nat)
    requires ListsWithin(j, srcLen, dstLen)
    ensures InBounds(EntriesOf(j), srcLen, dstLen)
  {
    var es := EntriesOf(j);
    forall i | 0 <= i < |es|
      ensures es[i].src < srcLen && es[i].dst < dstLen
    {
      assert es[i].src == j.src[j.s + i] && es[i].dst == j.dst[j.s + i];
      assert j.src[j.s + i] in j.src && j.dst[j.s + i] in j.dst;
    }
  }

  lemma BoundsAppend(es: seq<Entry>, more: seq<Entry>, srcLen: nat, dstLen: nat)
    requires InBounds(es, srcLen, dstLen) && InBounds(more, srcLen, dstLen)
    ensures InBounds(es + more, srcLen, dstLen)
  {
  }

  /** The pair of devices as one active sequence sees it. */
  ghost predicate Seen(gpu: Manager, host: Manager, seqs: map<SeqId, Sequence>, q: SeqId) {
    q in seqs && Paired(gpu, host, TextsOf(seqs), q, seqs[q].toks)
  }

  lemma SeenLists(gpu: Manager, host: Manager, seqs: map<SeqId, Sequence>, q: SeqId)
    requires Seen(gpu, host, seqs, q)
    ensures q in gpu.maps && q in host.maps && gpu.bs == host.bs
    ensures Distinct(gpu.maps[q].ids) && Distinct(host.maps[q].ids)
    ensures forall b :: b in gpu.maps[q].ids ==> b < |gpu.pool.blocks|
    ensures forall b :: b in host.maps[q].ids ==> b < |host.pool.blocks|
    ensures var g, h, bs := gpu.maps[q], host.maps[q], gpu.bs;
      && g.filled <= g.slots == |seqs[q].toks| && h.filled <= h.slots <= |seqs[q].toks|
      && Covers(|g.ids|, g.slots, bs) && Covers(|h.ids|, h.slots, bs)
  {
    hide Inv, Covers;
    PairedBounds(gpu, host, TextsOf(seqs), q, seqs[q].toks);
    ListInPool(gpu, TextsOf(seqs), q);
    ListInPool(host, TextsOf(seqs), q);
  }

  lemma FetchJobsOf(inputs: seq<Input>, seqs: map<SeqId, Sequence>, gpu: Manager, host: Manager, qs: set<SeqId>)
    requires Setting(inputs, seqs, gpu, host, qs) && NoSharedAhead(gpu, qs)
    ensures JobsOf(gpu, inputs, FetchJobs(inputs, gpu, host), qs)
    ensures InBounds(AllEntries(FetchJobs(inputs, gpu, host)), |host.pool.blocks|, |gpu.pool.blocks|)
  {
    hide Paired, Starts, NoSharedAhead, WritesAhead, Distinct, Covers, Whole;
    var jobs := FetchJobs(inputs, gpu, host);
    forall k | 0 <= k < |inputs|
      ensures WritesAhead(gpu, inputs[k].q, jobs[k]) && Distinct(jobs[k].dst)
      ensures ListsWithin(jobs[k], |host.pool.blocks|, |gpu.pool.blocks|)
    {
      var q := inputs[k].q;
      assert Seen(gpu, host, seqs, q);
      SeenLists(gpu, host, seqs, q);
      FromWhole(gpu, q, jobs[k]);
    }
    JobsInBounds(jobs, |host.pool.blocks|, |gpu.pool.blocks|);
  }

  /** The index of the input of `q`, if it has one. */
  ghost predicate InputAt(inputs: seq<Input>, q: SeqId, k: int) {
    0 <= k < |inputs| && inputs[k].q == q
  }

  ghost predicate HasNone(inputs: seq<Input>, q: SeqId) {
    forall k :: 0 <= k < |inputs| ==> inputs[k].q != q
  }

  /** After the copies to device `m`, the blocks of `q` that its own job does not write are as they were. */
  lemma KeptBlocks(dmem: Cache, smem: Cache, m: Manager, inputs: seq<Input>, jobs: seq<Job>, qs: set<SeqId>, q: SeqId,
                   i: nat)
    requires JobsOf(m, inputs, jobs, qs) && q in qs && q in m.maps && Distinct(m.maps[q].ids) && i < |m.maps[q].ids|
    requires forall k :: 0 <= k < |inputs| && inputs[k].q == q ==> !Fitting(jobs[k], i)
    requires InBounds(AllEntries(jobs), |smem|, |dmem|) && m.maps[q].ids[i] < |dmem|
    ensures Apply(dmem, smem, AllEntries(jobs))[m.maps[q].ids[i]] == dmem[m.maps[q].ids[i]]
  {
    hide JobsOf, Separate, AllEntries, Apply, Distinct, Writes, Delivered;
    JobsSeparate(m, inputs, jobs, qs);
    JobsDeliver(dmem, smem, jobs);
    NotWritten(m, inputs, jobs, qs, q, i);
  }

  /** A sequence without an input keeps what it has. */
  lemma NoneKept(dmem: Cache, smem: Cache, m: Manager, inputs: seq<Input>, jobs: seq<Job>, qs: set<SeqId>, q: SeqId,
                 toks: seq<Token>, n: nat)
    requires JobsOf(m, inputs, jobs, qs) && q in qs && q in m.maps && Distinct(m.maps[q].ids) && HasNone(inputs, q)
    requires InBounds(AllEntries(jobs), |smem|, |dmem|) && forall b :: b in m.maps[q].ids ==> b < |dmem|
    requires RightUpTo(dmem, m.bs, m.maps[q], toks, n)
    ensures RightUpTo(Apply(dmem, smem, AllEntries(jobs)), m.bs, m.maps[q], toks, n)
  {
    hide JobsOf, AllEntries, Apply, Distinct, RightUpTo;
    forall i | 0 <= i < |m.maps[q].ids|
      ensures m.maps[q].ids[i] < |dmem|
      ensures Apply(dmem, smem, AllEntries(jobs))[m.maps[q].ids[i]] == dmem[m.maps[q].ids[i]]
    {
      assert m.maps[q].ids[i] in m.maps[q].ids;
      KeptBlocks(dmem, smem, m, inputs, jobs, qs, q, i);
    }
    UntouchedRight(dmem, Apply(dmem, smem, AllEntries(jobs)), m.bs, m.maps[q], toks, n);
  }

  /** A sequence with an input has what its job brings besides. */
  lemma OneCopied(dmem: Cache, smem: Cache, m: Manager, inputs: seq<Input>, jobs: seq<Job>, qs: set<SeqId>, k: nat,
                  src: BlockMap, toks: seq<Token>, n: nat, sn: nat, n': nat)
    requires JobsOf(m, inputs, jobs, qs) && k < |inputs| && inputs[k].q in m.maps && Distinct(m.maps[inputs[k].q].ids)
    requires jobs[k].src == src.ids && jobs[k].dst == m.maps[inputs[k].q].ids
    requires InBounds(AllEntries(jobs), |smem|, |dmem|) && forall b :: b in m.maps[inputs[k].q].ids ==> b < |dmem|
    requires RightUpTo(dmem, m.bs, m.maps[inputs[k].q], toks, n) && RightUpTo(smem, m.bs, src, toks, sn)
    requires jobs[k].Fits() && jobs[k].s < jobs[k].e ==> n' <= sn
    requires forall i :: 0 <= i < |m.maps[inputs[k].q].ids| && !Fitting(jobs[k], i) ==>
      n' <= n || Offset(i, m.bs) + m.bs <= n || Offset(i, m.bs) >= n'
    ensures RightUpTo(Apply(dmem, smem, AllEntries(jobs)), m.bs, m.maps[inputs[k].q], toks, n')
  {
    hide AllEntries, Apply, Distinct, RightUpTo, Offset, WritesAhead, NoSharedAhead, Fitting, Delivered, Separate,
      Writes;
    var q, r := inputs[k].q, Apply(dmem, smem, AllEntries(jobs));
    JobsSeparate(m, inputs, jobs, qs);
    JobsDeliver(dmem, smem, jobs);
    forall i | 0 <= i < |m.maps[q].ids| && !Fitting(jobs[k], i)
      ensures m.maps[q].ids[i] < |dmem| && r[m.maps[q].ids[i]] == dmem[m.maps[q].ids[i]]
    {
      OnlyInput(inputs, k);
      assert m.maps[q].ids[i] in m.maps[q].ids;
      KeptBlocks(dmem, smem, m, inputs, jobs, qs, q, i);
    }
    CopiedRight(dmem, smem, r, m.bs, src, m.maps[q], toks, jobs[k], n, sn, n');
  }

  lemma OnlyInput(inputs: seq<Input>, k: nat)
    requires k < |inputs| && forall i, j :: 0 <= i < j < |inputs| ==> inputs[i].q != inputs[j].q
    ensures forall l :: 0 <= l < |inputs| && inputs[l].q == inputs[k].q ==> l == k
  {
  }

  /** After the fetches, the GPU is right for each sequence of the batch as far as either device was. */
  lemma FetchedRight(gmem: Cache, hmem: Cache, inputs: seq<Input>, seqs: map<SeqId, Sequence>, gpu: Manager,
                     host: Manager, qs: set<SeqId>, k: nat)
    requires Setting(inputs, seqs, gpu, host, qs) && NoSharedAhead(gpu, qs) && k < |inputs|
    requires |gmem| == |gpu.pool.blocks| && |hmem| == |host.pool.blocks|
    requires AllRight(gmem, gpu, seqs, qs) && AllRight(hmem, host, seqs, qs)
    ensures InBounds(AllEntries(FetchJobs(inputs, gpu, host)), |hmem|, |gmem|)
    ensures inputs[k].q in gpu.maps && inputs[k].q in host.maps && inputs[k].q in seqs
    ensures var q := inputs[k].q;
      RightUpTo(Apply(gmem, hmem, AllEntries(FetchJobs(inputs, gpu, host))), gpu.bs, gpu.maps[q], seqs[q].toks,
                Max(gpu.maps[q].filled, host.maps[q].filled))
  {
    hide Paired, Starts, NoSharedAhead, JobsOf, Distinct, Covers, Whole, Offset, AllEntries, Apply, RightUpTo, FetchJob,
      Fitting;
    var q, jobs := inputs[k].q, FetchJobs(inputs, gpu, host);
    assert Seen(gpu, host, seqs, q) && RightFor(gmem, gpu, seqs, q) && RightFor(hmem, host, seqs, q);
    SeenLists(gpu, host, seqs, q);
    FetchJobsOf(inputs, seqs, gpu, host, qs);
    var g, h := gpu.maps[q], host.maps[q];
    FetchShape(g, h, gpu.bs);
    forall i | 0 <= i < |g.ids| && !Fitting(jobs[k], i)
      ensures var n := Max(g.filled, h.filled);
        n <= g.filled || Offset(i, gpu.bs) + gpu.bs <= g.filled || Offset(i, gpu.bs) >= n
    {
      FetchCovers(g, h, gpu.bs, i);
    }
    OneCopied(gmem, hmem, gpu, inputs, jobs, qs, k, h, seqs[q].toks, g.filled, h.filled, Max(g.filled, h.filled));
  }

  lemma FetchShape(g: BlockMap, h: BlockMap, bs: BlockSize)
    ensures var j := FetchJob(g, h, bs);
      j.src == h.ids && j.dst == g.ids && (j.s < j.e ==> Max(g.filled, h.filled) <= h.filled)
  {
  }

  // ---------------------------------------------------------------- the batch

  /** A full block listed by two sequences is the same chunk of the same prefix in both. */
  lemma SharedChunk(m: Manager, texts: Texts, q: SeqId, o: SeqId, i: nat, j: nat)
    requires Inv(m, texts, multiset{}) && q in m.maps && o in m.maps && q in texts && o in texts
    requires i < |m.maps[q].ids| && j < |m.maps[o].ids| && m.maps[q].ids[i] == m.maps[o].ids[j]
    requires Offset(j, m.bs) + m.bs <= m.maps[o].slots
    ensures i == j && Offset(i, m.bs) + m.bs <= |texts[q]| && Offset(i, m.bs) + m.bs <= |texts[o]|
    ensures texts[q][..Offset(i, m.bs) + m.bs] == texts[o][..Offset(i, m.bs) + m.bs]
  {
    hide Inv, Offset;
    NextOffset(i, m.bs);
    NextOffset(j, m.bs);
    OwnBlock(m, texts, q, texts[q], i, NoHash);
    OwnBlock(m, texts, o, texts[o], j, NoHash);
    var h := m.pool.blocks[m.maps[q].ids[i]].hash;
    ChunkLength(texts[q], m.bs, i, h);
    ChunkLength(texts[o], m.bs, j, h);
    if i < j {
      OffsetMono(i + 1, j + 1, m.bs);
    } else if j < i {
      OffsetMono(j + 1, i + 1, m.bs);
    }
  }

  /** What is right for one of them is right for the other. */
  lemma SharedRight(mem: Cache, m: Manager, texts: Texts, q: SeqId, o: SeqId, i: nat, j: nat, k: nat, n: nat)
    requires Inv(m, texts, multiset{}) && q in m.maps && o in m.maps && q in texts && o in texts
    requires i < |m.maps[q].ids| && j < |m.maps[o].ids| && m.maps[q].ids[i] == m.maps[o].ids[j]
    requires Offset(j, m.bs) + m.bs <= n <= m.maps[o].slots && RightUpTo(mem, m.bs, m.maps[o], texts[o], n) && k < m.bs
    ensures RightAt(mem, m.maps[q], texts[q], i, k, m.bs)
  {
    hide Inv, Offset;
    SharedChunk(m, texts, q, o, i, j);
    assert RightAt(mem, m.maps[o], texts[o], j, k, m.bs);
    var end := Offset(i, m.bs) + k + 1;
    assert texts[q][..end] == texts[q][..Offset(i, m.bs) + m.bs][..end];
    assert texts[o][..end] == texts[o][..Offset(i, m.bs) + m.bs][..end];
  }

  /** The worker keeps what a sequence without an input has: it computes a block of it only if that is the full
      last block of a sequence of which all was filled, and then computes the same again. */
  lemma BystanderRight(before: Cache, after: Cache, b: Batch, seqs: map<SeqId, Sequence>, gpu: Manager, host: Manager,
                       qs: set<SeqId>, q: SeqId)
    requires Setting(b.inputs, seqs, gpu, host, qs) && NoSharedAhead(gpu, qs) && q in qs && HasNone(b.inputs, q)
    requires WorkerOk(b, seqs, gpu, before, after)
    requires q in gpu.maps && q in seqs && forall x :: x in gpu.maps[q].ids ==> x < |before|
    requires RightUpTo(before, gpu.bs, gpu.maps[q], seqs[q].toks, gpu.maps[q].filled)
    requires forall k :: 0 <= k < |b.inputs| ==> RightBefore(before, gpu, seqs, b.inputs[k])
    ensures RightUpTo(after, gpu.bs, gpu.maps[q], seqs[q].toks, gpu.maps[q].filled)
  {
    hide Paired, Starts, Offset, RightAt, Computing, InputComputed, RightBefore;
    var g, toks := gpu.maps[q], seqs[q].toks;
    forall i, k | 0 <= i < |g.ids| && 0 <= k < gpu.bs && Offset(i, gpu.bs) + k < g.filled
      ensures RightAt(after, g, toks, i, k, gpu.bs)
    {
      var x := g.ids[i];
      assert x in gpu.maps[q].ids;
      assert RightAt(before, g, toks, i, k, gpu.bs);
      if l :| 0 <= l < |b.inputs| && Computing(b.inputs[l], gpu, x) {
        Recomputed(before, after, b.inputs, l, seqs, gpu, host, qs, q, i, k);
      } else {
        RightElsewhere(before, after, g, toks, i, k, gpu.bs);
      }
    }
  }

  ghost predicate RightBefore(mem: Cache, m: Manager, seqs: map<SeqId, Sequence>, inp: Input) {
    inp.q in m.maps && inp.q in seqs && RightUpTo(mem, m.bs, m.maps[inp.q], seqs[inp.q].toks, inp.filled)
  }

  lemma Recomputed(before: Cache, after: Cache, inputs: seq<Input>, l: nat, seqs: map<SeqId, Sequence>, gpu: Manager,
                   host: Manager, qs: set<SeqId>, q: SeqId, i: nat, k: nat)
    requires Setting(inputs, seqs, gpu, host, qs) && NoSharedAhead(gpu, qs) && q in qs && HasNone(inputs, q)
    requires l < |inputs| && q in gpu.maps && q in seqs && i < |gpu.maps[q].ids| && k < gpu.bs
    requires Computing(inputs[l], gpu, gpu.maps[q].ids[i]) && InputComputed(inputs[l], seqs, gpu, before, after)
    requires RightBefore(before, gpu, seqs, inputs[l])
    ensures RightAt(after, gpu.maps[q], seqs[q].toks, i, k, gpu.bs)
  {
    hide Paired, Offset, RightAt, RightUpTo, PastFilled, Starts, Setting, NoSharedAhead, ListedBy, Seen, InputComputed,
      RightBefore;
    var inp, x := inputs[l], gpu.maps[q].ids[i];
    var o := inp.q;
    SettingAt(inputs, seqs, gpu, host, qs, l);
    SettingOf(inputs, seqs, gpu, host, qs, q);
    SeenLists(gpu, host, seqs, o);
    SeenInv(gpu, host, seqs, q);
    NotAhead(gpu, qs, q, o, i);
    var j :| 0 <= j < |gpu.maps[o].ids| && gpu.maps[o].ids[j] == x && Offset(j, gpu.bs) + gpu.bs > inp.filled;
    FilledThere(gpu, o, x, j);
    LastToken(inp, seqs, gpu, host);
    ComputedRight(inp, seqs, gpu, before, after);
    SharedRight(after, gpu, TextsOf(seqs), q, o, i, j, k, inp.context);
  }

  lemma SettingAt(inputs: seq<Input>, seqs: map<SeqId, Sequence>, gpu: Manager, host: Manager, qs: set<SeqId>, l: nat)
    requires Setting(inputs, seqs, gpu, host, qs) && l < |inputs|
    ensures inputs[l].q in qs && inputs[l].q in seqs && Seen(gpu, host, seqs, inputs[l].q)
    ensures Starts(inputs[l], seqs, gpu, host)
    ensures inputs[l].filled < inputs[l].context <= |seqs[inputs[l].q].toks|
  {
    hide Paired, Starts;
  }

  lemma SettingOf(inputs: seq<Input>, seqs: map<SeqId, Sequence>, gpu: Manager, host: Manager, qs: set<SeqId>, q: SeqId)
    requires Setting(inputs, seqs, gpu, host, qs) && q in qs
    ensures Seen(gpu, host, seqs, q)
  {
    hide Paired, Starts;
  }

  lemma NotAhead(m: Manager, qs: set<SeqId>, q: SeqId, o: SeqId, i: nat)
    requires NoSharedAhead(m, qs) && q in qs && o in qs && o != q && q in m.maps && i < |m.maps[q].ids|
    ensures !PastFilled(m, o, m.maps[q].ids[i])
  {
    hide PastFilled;
    assert ListedBy(m, q, m.maps[q].ids[i]);
  }

  /** An input that starts before the end of what was filled is the last token of a sequence that was filled. */
  lemma LastToken(inp: Input, seqs: map<SeqId, Sequence>, gpu: Manager, host: Manager)
    requires Starts(inp, seqs, gpu, host) && inp.filled < inp.context <= |seqs[inp.q].toks|
    requires gpu.maps[inp.q].filled <= |seqs[inp.q].toks|
    ensures gpu.maps[inp.q].filled <= inp.filled || gpu.maps[inp.q].filled <= inp.context == |seqs[inp.q].toks|
  {
  }

  lemma ComputedRight(inp: Input, seqs: map<SeqId, Sequence>, m: Manager, before: Cache, after: Cache)
    requires InputComputed(inp, seqs, m, before, after) && RightBefore(before, m, seqs, inp)
    ensures inp.q in m.maps && inp.q in seqs && RightUpTo(after, m.bs, m.maps[inp.q], seqs[inp.q].toks, inp.context)
  {
    hide RightUpTo;
  }

  lemma FilledThere(m: Manager, q: SeqId, x: BlockId, j: nat)
    requires q in m.maps && !PastFilled(m, q, x) && j < |m.maps[q].ids| && m.maps[q].ids[j] == x
    ensures Offset(j, m.bs) + m.bs <= m.maps[q].filled
  {
  }

  lemma SeenInv(gpu: Manager, host: Manager, seqs: map<SeqId, Sequence>, q: SeqId)
    requires Seen(gpu, host, seqs, q)
    ensures Inv(gpu, TextsOf(seqs), multiset{})
  {
    hide Inv;
  }

  // ---------------------------------------------------------------- after the batch

  /** The write-through of one sequence covers all whole blocks that the host lacks and can hold. */
  lemma WriteCovers(g: BlockMap, h: BlockMap, end: nat, bs: BlockSize, i: nat)
    requires end <= g.slots && h.filled <= h.slots && Covers(|g.ids|, g.slots, bs) && Covers(|h.ids|, h.slots, bs)
    requires h.filled <= end && Aligned(h.filled, bs) && i < |h.ids| && !Fitting(WriteJob(g, h, end, bs), i)
    ensures var n := Offset(Whole(Min(end, h.slots), bs), bs);
      n <= h.filled || Offset(i, bs) + bs <= h.filled || Offset(i, bs) >= n
  {
    hide Offset, Whole, Covers;
    var s, e := Whole(h.filled, bs), Whole(Min(end, h.slots), bs);
    BlockIndexInList(bs, g, Min(end, h.slots));
    BlockIndexInList(bs, h, Min(end, h.slots));
    WholeMono(h.filled, Min(end, h.slots), bs);
    if i < s {
      OffsetMono(i, s, bs);
    } else {
      OffsetMono(e, i, bs);
    }
  }

  lemma WriteShape(g: BlockMap, h: BlockMap, end: nat, bs: BlockSize)
    ensures var j := WriteJob(g, h, end, bs);
      j.src == g.ids && j.dst == h.ids && j.s == Whole(h.filled, bs)
    ensures Offset(Whole(Min(end, h.slots), bs), bs) <= end
  {
    WholeBounds(Min(end, h.slots), bs);
  }

  lemma WriteJobsOf(inputs: seq<Input>, seqs: map<SeqId, Sequence>, gpu: Manager, host: Manager, qs: set<SeqId>)
    requires Setting(inputs, seqs, gpu, host, qs) && NoSharedAhead(host, qs)
    ensures JobsOf(host, inputs, WriteJobs(inputs, gpu, host), qs)
    ensures InBounds(AllEntries(WriteJobs(inputs, gpu, host)), |gpu.pool.blocks|, |host.pool.blocks|)
  {
    hide Paired, Starts, NoSharedAhead, WritesAhead, Distinct, Covers, Whole, Offset, WriteJob;
    var jobs := WriteJobs(inputs, gpu, host);
    forall k | 0 <= k < |inputs|
      ensures WritesAhead(host, inputs[k].q, jobs[k]) && Distinct(jobs[k].dst)
      ensures ListsWithin(jobs[k], |gpu.pool.blocks|, |host.pool.blocks|)
    {
      var q := inputs[k].q;
      assert Seen(gpu, host, seqs, q);
      SeenLists(gpu, host, seqs, q);
      WriteShape(gpu.maps[q], host.maps[q], inputs[k].context, gpu.bs);
      FromWhole(host, q, jobs[k]);
    }
    JobsInBounds(jobs, |gpu.pool.blocks|, |host.pool.blocks|);
  }

  /** After the write-throughs, the host is right for a sequence of the batch up to its new filled length. */
  lemma WrittenRight(hmem: Cache, computed: Cache, inputs: seq<Input>, seqs: map<SeqId, Sequence>, gpu: Manager,
                     host: Manager, qs: set<SeqId>, k: nat)
    requires Setting(inputs, seqs, gpu, host, qs) && NoSharedAhead(host, qs) && k < |inputs|
    requires |computed| == |gpu.pool.blocks| && |hmem| == |host.pool.blocks| && AllRight(hmem, host, seqs, qs)
    requires RightAfter(computed, gpu, seqs, inputs[k])
    requires inputs[k].q in host.maps ==> Aligned(host.maps[inputs[k].q].filled, host.bs)
    ensures InBounds(AllEntries(WriteJobs(inputs, gpu, host)), |computed|, |hmem|)
    ensures inputs[k].q in host.maps && inputs[k].q in seqs
    ensures var q := inputs[k].q;
      RightUpTo(Apply(hmem, computed, AllEntries(WriteJobs(inputs, gpu, host))), host.bs, host.maps[q], seqs[q].toks,
                Offset(Whole(Min(inputs[k].context, host.maps[q].slots), host.bs), host.bs))
  {
    hide Paired, NoSharedAhead, JobsOf, Distinct, Covers, Whole, Offset, AllEntries, Apply, RightUpTo, WriteJob,
      Fitting, Setting, Seen;
    var q, jobs := inputs[k].q, WriteJobs(inputs, gpu, host);
    SettingAt(inputs, seqs, gpu, host, qs, k);
    assert RightFor(hmem, host, seqs, q);
    SeenLists(gpu, host, seqs, q);
    WriteJobsOf(inputs, seqs, gpu, host, qs);
    var g, h, bs, end := gpu.maps[q], host.maps[q], host.bs, inputs[k].context;
    WriteShape(g, h, end, bs);
    var n := Offset(Whole(Min(end, h.slots), bs), bs);
    forall i | 0 <= i < |h.ids| && !Fitting(jobs[k], i)
      ensures n <= h.filled || Offset(i, bs) + bs <= h.filled || Offset(i, bs) >= n
    {
      WriteCovers(g, h, end, bs, i);
    }
    OneCopied(hmem, computed, host, inputs, jobs, qs, k, g, seqs[q].toks, h.filled, end, n);
  }

  ghost predicate RightAfter(mem: Cache, m: Manager, seqs: map<SeqId, Sequence>, inp: Input) {
    inp.q in m.maps && inp.q in seqs && RightUpTo(mem, m.bs, m.maps[inp.q], seqs[inp.q].toks, inp.context)
  }

  // ---------------------------------------------------------------- the whole batch

  /** The active sequences before the batch: no two of them share a block that one has still to fill, on either
      device, and the host counts whole blocks. */
  ghost predicate Before(b: Batch, seqs: map<SeqId, Sequence>, gpu: Manager, host: Manager, qs: set<SeqId>) {
    && Setting(b.inputs, seqs, gpu, host, qs) && NoSharedAhead(gpu, qs) && NoSharedAhead(host, qs)
    && (forall q :: q in qs && q in host.maps ==> Aligned(host.maps[q].filled, host.bs))
    && forall q :: q in b.running ==> HasInput(b.inputs, q)
  }

  /** The copies of the batch stay within the caches. */
  lemma CopiesInBounds(b: Batch, seqs: map<SeqId, Sequence>, gpu0: Manager, host0: Manager, gpu: Manager, host: Manager,
                       qs: set<SeqId>)
    requires Before(b, seqs, gpu0, host0, qs) && CopiesOk(b, seqs, gpu0, host0, gpu, host)
    ensures InBounds(Flatten(b.fetch), |host0.pool.blocks|, |gpu0.pool.blocks|)
    ensures InBounds(Flatten(b.write), |gpu0.pool.blocks|, |host0.pool.blocks|)
  {
    hide Setting, NoSharedAhead, JobsOf, AllEntries, FetchJobs, WriteJobs, InBounds, Flatten, Raised, HasInput, Aligned;
    FetchJobsOf(b.inputs, seqs, gpu0, host0, qs);
    WriteJobsOf(b.inputs, seqs, gpu0, host0, qs);
  }

  /** What the batch raises. */
  lemma RaisedMaps(b: Batch, seqs: map<SeqId, Sequence>, gpu0: Manager, host0: Manager, gpu: Manager, host: Manager,
                   q: SeqId)
    requires CopiesOk(b, seqs, gpu0, host0, gpu, host) && q in gpu0.maps && q in host0.maps && gpu0.bs == host0.bs
    requires forall o :: o in b.running ==> HasInput(b.inputs, o)
    ensures HasNone(b.inputs, q) ==> SameMap(gpu0, gpu, q) && SameMap(host0, host, q)
    ensures forall k :: InputAt(b.inputs, q, k) ==> Raised(b.inputs[k], seqs, gpu0, host0, gpu, host)
  {
    hide Raised, Flatten, AllEntries, FetchJobs, WriteJobs;
  }

  lemma InputOrNone(inputs: seq<Input>, q: SeqId)
    ensures HasNone(inputs, q) || exists k :: InputAt(inputs, q, k)
  {
    if !HasNone(inputs, q) {
      var k :| 0 <= k < |inputs| && inputs[k].q == q;
      assert InputAt(inputs, q, k);
    }
  }

  /** The worker finds a right cache for each of its inputs. */
  lemma InputsFindRight(gmem: Cache, hmem: Cache, inputs: seq<Input>, seqs: map<SeqId, Sequence>, gpu: Manager,
                        host: Manager, qs: set<SeqId>, k: nat)
    requires Setting(inputs, seqs, gpu, host, qs) && NoSharedAhead(gpu, qs) && k < |inputs|
    requires |gmem| == |gpu.pool.blocks| && |hmem| == |host.pool.blocks|
    requires AllRight(gmem, gpu, seqs, qs) && AllRight(hmem, host, seqs, qs)
    ensures InBounds(AllEntries(FetchJobs(inputs, gpu, host)), |hmem|, |gmem|)
    ensures RightBefore(Apply(gmem, hmem, AllEntries(FetchJobs(inputs, gpu, host))), gpu, seqs, inputs[k])
  {
    hide Paired, NoSharedAhead, AllEntries, Apply, FetchJobs, Offset, RightAt, AllRight, Setting, Seen;
    FetchedRight(gmem, hmem, inputs, seqs, gpu, host, qs, k);
    SettingAt(inputs, seqs, gpu, host, qs, k);
    var q := inputs[k].q;
    RightBelow(Apply(gmem, hmem, AllEntries(FetchJobs(inputs, gpu, host))), gpu.bs, gpu.maps[q], seqs[q].toks,
               Max(gpu.maps[q].filled, host.maps[q].filled), inputs[k].filled);
  }

  /** On the GPU, after the worker. */
  lemma GpuRight(gmem: Cache, hmem: Cache, fetched: Cache, computed: Cache, b: Batch, seqs: map<SeqId, Sequence>,
                 gpu: Manager, host: Manager, qs: set<SeqId>, q: SeqId)
    requires Setting(b.inputs, seqs, gpu, host, qs) && NoSharedAhead(gpu, qs) && q in qs
    requires |gmem| == |gpu.pool.blocks| && |hmem| == |host.pool.blocks|
    requires AllRight(gmem, gpu, seqs, qs) && AllRight(hmem, host, seqs, qs)
    requires InBounds(AllEntries(FetchJobs(b.inputs, gpu, host)), |hmem|, |gmem|)
    requires fetched == Apply(gmem, hmem, AllEntries(FetchJobs(b.inputs, gpu, host)))
    requires WorkerOk(b, seqs, gpu, fetched, computed)
    ensures forall k :: InputAt(b.inputs, q, k) ==> RightAfter(computed, gpu, seqs, b.inputs[k])
    ensures HasNone(b.inputs, q) ==> RightFor(computed, gpu, seqs, q)
  {
    hide Setting, Paired, NoSharedAhead, AllEntries, Apply, FetchJobs, Offset, RightAt, AllRight, Seen, JobsOf,
      RightUpTo,
      Computing, InputComputed, RightBefore, Distinct;
    forall k | 0 <= k < |b.inputs|
      ensures RightBefore(fetched, gpu, seqs, b.inputs[k])
      ensures RightAfter(computed, gpu, seqs, b.inputs[k])
    {
      InputsFindRight(gmem, hmem, b.inputs, seqs, gpu, host, qs, k);
      ComputedRight(b.inputs[k], seqs, gpu, fetched, computed);
    }
    if HasNone(b.inputs, q) {
      SettingOf(b.inputs, seqs, gpu, host, qs, q);
      SeenLists(gpu, host, seqs, q);
      SeenSeq(gpu, host, seqs, q);
      FetchJobsOf(b.inputs, seqs, gpu, host, qs);
      RightOf(gmem, gpu, seqs, qs, q);
      NoneKept(gmem, hmem, gpu, b.inputs, FetchJobs(b.inputs, gpu, host), qs, q, seqs[q].toks, gpu.maps[q].filled);
      BystanderRight(fetched, computed, b, seqs, gpu, host, qs, q);
    }
  }

  lemma SeenSeq(gpu: Manager, host: Manager, seqs: map<SeqId, Sequence>, q: SeqId)
    requires Seen(gpu, host, seqs, q)
    ensures q in seqs
  {
    hide Paired;
  }

  lemma RightOf(mem: Cache, m: Manager, seqs: map<SeqId, Sequence>, qs: set<SeqId>, q: SeqId)
    requires AllRight(mem, m, seqs, qs) && q in qs
    ensures RightFor(mem, m, seqs, q)
  {
    hide RightFor;
  }

  ghost predicate RightWritten(mem: Cache, m: Manager, seqs: map<SeqId, Sequence>, inp: Input) {
    && inp.q in m.maps && inp.q in seqs
    && RightUpTo(mem, m.bs, m.maps[inp.q], seqs[inp.q].toks,
                 Offset(Whole(Min(inp.context, m.maps[inp.q].slots), m.bs), m.bs))
  }

  /** On the host, after the write-throughs. */
  lemma HostRight(hmem: Cache, computed: Cache, written: Cache, b: Batch, seqs: map<SeqId, Sequence>, gpu: Manager,
                  host: Manager, qs: set<SeqId>, q: SeqId)
    requires Before(b, seqs, gpu, host, qs) && q in qs
    requires |computed| == |gpu.pool.blocks| && |hmem| == |host.pool.blocks| && AllRight(hmem, host, seqs, qs)
    requires forall k :: InputAt(b.inputs, q, k) ==> RightAfter(computed, gpu, seqs, b.inputs[k])
    requires InBounds(AllEntries(WriteJobs(b.inputs, gpu, host)), |computed|, |hmem|)
    requires written == Apply(hmem, computed, AllEntries(WriteJobs(b.inputs, gpu, host)))
    ensures HasNone(b.inputs, q) ==> RightFor(written, host, seqs, q)
    ensures forall k :: InputAt(b.inputs, q, k) ==> RightWritten(written, host, seqs, b.inputs[k])
  {
    hide Setting, NoSharedAhead, AllEntries, Apply, WriteJobs, Offset, RightAt, AllRight, Seen, JobsOf, RightUpTo,
      Whole,
      RightAfter, Aligned, Distinct, HasInput;
    SettingOf(b.inputs, seqs, gpu, host, qs, q);
    SeenLists(gpu, host, seqs, q);
    SeenSeq(gpu, host, seqs, q);
    RightOf(hmem, host, seqs, qs, q);
    forall k | InputAt(b.inputs, q, k)
      ensures RightWritten(written, host, seqs, b.inputs[k])
    {
      WrittenRight(hmem, computed, b.inputs, seqs, gpu, host, qs, k);
    }
    if HasNone(b.inputs, q) {
      WriteJobsOf(b.inputs, seqs, gpu, host, qs);
      NoneKept(hmem, computed, host, b.inputs, WriteJobs(b.inputs, gpu, host), qs, q, seqs[q].toks,
               host.maps[q].filled);
    }
  }

  /** Fetch, compute, write through, for a whole batch: if no two active sequences share a block that one of them
      has still to fill, and both caches are right up to the filled lengths of all active sequences, then they
      are right up to the new filled lengths of all of them. */
  lemma BatchKeepsCachesRight(b: Batch, seqs: map<SeqId, Sequence>, gpu0: Manager, host0: Manager, gpu: Manager,
                              host: Manager, qs: set<SeqId>, gmem: Cache, hmem: Cache, computed: Cache)
    requires Before(b, seqs, gpu0, host0, qs) && CopiesOk(b, seqs, gpu0, host0, gpu, host) && gpu0.bs == host0.bs
    requires |gmem| == |gpu0.pool.blocks| && |hmem| == |host0.pool.blocks|
    requires AllRight(gmem, gpu0, seqs, qs) && AllRight(hmem, host0, seqs, qs)
    requires InBounds(Flatten(b.fetch), |hmem|, |gmem|)
    requires WorkerOk(b, seqs, gpu0, Apply(gmem, hmem, Flatten(b.fetch)), computed)
    ensures InBounds(Flatten(b.write), |computed|, |hmem|)
    ensures AllRight(computed, gpu, seqs, qs)
    ensures AllRight(Apply(hmem, computed, Flatten(b.write)), host, seqs, qs)
  {
    hide Setting, NoSharedAhead, AllEntries, Apply, FetchJobs, WriteJobs, Offset, Whole, RightAt, Seen, JobsOf,
      RightUpTo,
      Computing, InputComputed, Raised, RightFor, AllRight, RightAfter, RightWritten, Flatten, HasInput, Aligned,
      InBounds, SameMap, CopiesOk;
    CopiesInBounds(b, seqs, gpu0, host0, gpu, host, qs);
    CopiesLists(b, seqs, gpu0, host0, gpu, host);
    var fetched := Apply(gmem, hmem, Flatten(b.fetch));
    assert |computed| == |gpu0.pool.blocks|;
    var written := Apply(hmem, computed, Flatten(b.write));
    forall q | q in qs
      ensures RightFor(computed, gpu, seqs, q) && RightFor(written, host, seqs, q)
    {
      SettingOf(b.inputs, seqs, gpu0, host0, qs, q);
      SeenLists(gpu0, host0, seqs, q);
      GpuRight(gmem, hmem, fetched, computed, b, seqs, gpu0, host0, qs, q);
      HostRight(hmem, computed, written, b, seqs, gpu0, host0, qs, q);
      RaisedMaps(b, seqs, gpu0, host0, gpu, host, q);
      InputOrNone(b.inputs, q);
      if HasNone(b.inputs, q) {
        SameRight(computed, gpu0, gpu, seqs, q);
        SameRight(written, host0, host, seqs, q);
      } else {
        var k :| InputAt(b.inputs, q, k);
        RaisedRight(computed, written, b.inputs[k], seqs, gpu0, host0, gpu, host);
      }
    }
    AllRightBy(computed, gpu, seqs, qs);
    AllRightBy(written, host, seqs, qs);
  }

  lemma CopiesLists(b: Batch, seqs: map<SeqId, Sequence>, gpu0: Manager, host0: Manager, gpu: Manager, host: Manager)
    requires CopiesOk(b, seqs, gpu0, host0, gpu, host)
    ensures Flatten(b.fetch) == AllEntries(FetchJobs(b.inputs, gpu0, host0))
    ensures gpu.bs == gpu0.bs && host.bs == host0.bs
    ensures Flatten(b.write) == AllEntries(WriteJobs(b.inputs, gpu0, host0))
  {
    hide Flatten, AllEntries, FetchJobs, WriteJobs, Raised, SameMap;
  }

  lemma AllRightBy(mem: Cache, m: Manager, seqs: map<SeqId, Sequence>, qs: set<SeqId>)
    requires forall q :: q in qs ==> RightFor(mem, m, seqs, q)
    ensures AllRight(mem, m, seqs, qs)
  {
    hide RightFor;
  }

  lemma SameRight(mem: Cache, m: Manager, m': Manager, seqs: map<SeqId, Sequence>, q: SeqId)
    requires RightFor(mem, m, seqs, q) && SameMap(m, m', q) && m'.bs == m.bs
    ensures RightFor(mem, m', seqs, q)
  {
    hide RightUpTo;
  }

  lemma RaisedRight(gmem: Cache, hmem: Cache, inp: Input, seqs: map<SeqId, Sequence>, gpu0: Manager, host0: Manager,
                    gpu: Manager, host: Manager)
    requires Raised(inp, seqs, gpu0, host0, gpu, host) && gpu.bs == gpu0.bs == host0.bs == host.bs
    requires RightAfter(gmem, gpu0, seqs, inp) && RightWritten(hmem, host0, seqs, inp)
    ensures RightFor(gmem, gpu, seqs, inp.q) && RightFor(hmem, host, seqs, inp.q)
  {
    hide RightUpTo, Offset, Whole;
    RightSameIds(gmem, gpu.bs, gpu0.maps[inp.q], gpu.maps[inp.q], seqs[inp.q].toks, inp.context);
    RightSameIds(hmem, host.bs, host0.maps[inp.q], host.maps[inp.q], seqs[inp.q].toks, host.maps[inp.q].filled);
  }

  // ---------------------------------------------------------------- for the scheduler

  /** The blocks at index `i` of the input's sequence: the host's, from the one with the GPU's first missing
      position up to the one at its own filled length, and the GPU's. */
  ghost predicate FetchedAt(inp: Input, gpu: Manager, host: Manager, i: int, e: Entry) {
    && inp.q in gpu.maps && inp.q in host.maps
    && var g, h := gpu.maps[inp.q], host.maps[inp.q];
    && h.filled > g.filled && Whole(g.filled, gpu.bs) <= i <= Whole(h.filled, gpu.bs)
    && i < |g.ids| && i < |h.ids| && e == Entry(h.ids[i], g.ids[i])
  }

  /** The same for the whole blocks that the host lacks below the end of the input and has slots for. */
  ghost predicate WrittenAt(inp: Input, gpu: Manager, host: Manager, i: int, e: Entry) {
    && inp.q in gpu.maps && inp.q in host.maps
    && var g, h := gpu.maps[inp.q], host.maps[inp.q];
    && Whole(h.filled, gpu.bs) <= i < Whole(Min(inp.context, h.slots), gpu.bs)
    && i < |g.ids| && i < |h.ids| && e == Entry(g.ids[i], h.ids[i])
  }

  /** A batch copies exactly these blocks. */
  lemma CopiesExactly(b: Batch, seqs: map<SeqId, Sequence>, gpu0: Manager, host0: Manager, gpu: Manager, host: Manager,
                      qs: set<SeqId>, e: Entry)
    requires Setting(b.inputs, seqs, gpu0, host0, qs) && CopiesOk(b, seqs, gpu0, host0, gpu, host)
    ensures e in Flatten(b.fetch) <==>
      exists k, i :: 0 <= k < |b.inputs| && FetchedAt(b.inputs[k], gpu0, host0, i, e)
    ensures e in Flatten(b.write) <==>
      exists k, i :: 0 <= k < |b.inputs| && WrittenAt(b.inputs[k], gpu0, host0, i, e)
  {
    hide Setting, Flatten, AllEntries, FetchedAt, WrittenAt, CopiesOk, FetchFor, WriteFor, CopiedAt;
    CopiesLists(b, seqs, gpu0, host0, gpu, host);
    EntriesAre(FetchJobs(b.inputs, gpu0, host0), e);
    EntriesAre(WriteJobs(b.inputs, gpu0, host0), e);
    forall k, i | 0 <= k < |b.inputs|
      ensures CopiedAt(FetchJobs(b.inputs, gpu0, host0)[k], i, e) <==> FetchedAt(b.inputs[k], gpu0, host0, i, e)
      ensures CopiedAt(WriteJobs(b.inputs, gpu0, host0)[k], i, e) <==> WrittenAt(b.inputs[k], gpu0, host0, i, e)
    {
      SettingAt(b.inputs, seqs, gpu0, host0, qs, k);
      SeenLists(gpu0, host0, seqs, b.inputs[k].q);
      JobAt(b.inputs[k], seqs, gpu0, host0, i, e);
    }
  }

  lemma JobAt(inp: Input, seqs: map<SeqId, Sequence>, gpu: Manager, host: Manager, i: int, e: Entry)
    requires inp.q in seqs && inp.q in gpu.maps && inp.q in host.maps && inp.context <= gpu.maps[inp.q].slots
    requires Covers(|gpu.maps[inp.q].ids|, gpu.maps[inp.q].slots, gpu.bs)
    requires Covers(|host.maps[inp.q].ids|, host.maps[inp.q].slots, gpu.bs)
    ensures CopiedAt(FetchFor(inp.q, gpu, host), i, e) <==> FetchedAt(inp, gpu, host, i, e)
    ensures CopiedAt(WriteFor(inp, gpu, host), i, e) <==> WrittenAt(inp, gpu, host, i, e)
  {
    hide Whole, Covers;
    var g, h := gpu.maps[inp.q], host.maps[inp.q];
    BlockIndexInList(gpu.bs, g, Min(inp.context, h.slots));
    BlockIndexInList(gpu.bs, h, Min(inp.context, h.slots));
  }

  /** A batch of the scheduler is in such a setting. */
  lemma SceneSetting(gpu: Manager, host: Manager, disk: Manager, seqs: map<SeqId, Sequence>, home: map<SeqId, Task>,
                     ws: seq<Task>, active: seq<Task>, p: multiset<Task>, others: multiset<Task>,
                     progress0: map<SeqId, nat>, b: Batch, gpu': Manager, host': Manager, progress: map<SeqId, nat>)
    requires Scene(gpu, host, disk, seqs, home, ws, active, p, others, progress0) && ListReady(gpu, seqs, active)
    requires BatchOk(b, gpu', seqs, progress0, progress) && OfActive(b.running, active)
    requires CopiesOk(b, seqs, gpu, host, gpu', host')
    ensures Setting(b.inputs, seqs, gpu, host, IdSet(active)) && gpu.bs == host.bs
    ensures forall q :: q in IdSet(active) && q in host.maps ==> Aligned(host.maps[q].filled, host.bs)
    ensures forall q :: q in b.running ==> HasInput(b.inputs, q)
  {
    hide Scene, ListReady, Paired, Aligned, Complete, Recorded, SameOutside, RunningOk, HasInput, Flatten, AllEntries,
      FetchJobs, WriteJobs, Whole, Covers, SameMap;
    forall q | q in IdSet(active)
      ensures q in seqs && Paired(gpu, host, TextsOf(seqs), q, seqs[q].toks)
      ensures q in host.maps ==> Aligned(host.maps[q].filled, gpu.bs)
    {
      var i :| 0 <= i < |active| && Ids(active)[i] == q;
      ScenePaired(gpu, host, disk, seqs, home, ws, active, p, others, progress0, active[i]);
    }
    SceneSizes(gpu, host, disk, seqs, home, ws, active, p, others, progress0);
    forall k | 0 <= k < |b.inputs|
      ensures b.inputs[k].q in IdSet(active) && Starts(b.inputs[k], seqs, gpu, host)
      ensures b.inputs[k].filled < b.inputs[k].context <= |seqs[b.inputs[k].q].toks|
    {
      assert InputOk(b.inputs[k], gpu', seqs, progress0);
      assert b.inputs[k].q in b.running && Raised(b.inputs[k], seqs, gpu, host, gpu', host');
    }
  }

  lemma SceneSizes(gpu: Manager, host: Manager, disk: Manager, seqs: map<SeqId, Sequence>, home: map<SeqId, Task>,
                   ws: seq<Task>, acts: seq<Task>, p: multiset<Task>, others: multiset<Task>, progress: map<SeqId, nat>)
    requires Scene(gpu, host, disk, seqs, home, ws, acts, p, others, progress)
    ensures gpu.bs == host.bs
  {
    hide Inv, HostAligned, AllSettled, Placed, TasksOk, ProgressOk;
  }

  /** For a batch as `dispatch` builds it: a scheduler whose caches are right for all active sequences, none of
      which shares a block that one of them has still to fill, has right caches after the batch. */
  lemma DispatchKeepsCachesRight(gpu0: Manager, host0: Manager, disk: Manager, seqs: map<SeqId, Sequence>,
                                 home: map<SeqId, Task>, ws: seq<Task>, active: seq<Task>, p: multiset<Task>,
                                 others: multiset<Task>, progress0: map<SeqId, nat>, maxBatch: nat, maxTokens: nat,
                                 b: Batch, gpu: Manager, host: Manager, progress: map<SeqId, nat>, gmem: Cache,
                                 hmem: Cache, computed: Cache)
    requires Scene(gpu0, host0, disk, seqs, home, ws, active, p, others, progress0) && ListReady(gpu0, seqs, active)
    requires BatchOk(b, gpu, seqs, progress0, progress) && Greedy(b, active, seqs, maxBatch, maxTokens)
    requires CopiesOk(b, seqs, gpu0, host0, gpu, host)
    requires NoSharedAhead(gpu0, IdSet(active)) && NoSharedAhead(host0, IdSet(active))
    requires |gmem| == |gpu0.pool.blocks| && |hmem| == |host0.pool.blocks|
    requires AllRight(gmem, gpu0, seqs, IdSet(active)) && AllRight(hmem, host0, seqs, IdSet(active))
    ensures InBounds(Flatten(b.fetch), |hmem|, |gmem|)
    ensures WorkerOk(b, seqs, gpu0, Apply(gmem, hmem, Flatten(b.fetch)), computed) ==>
      && InBounds(Flatten(b.write), |computed|, |hmem|)
      && AllRight(computed, gpu, seqs, IdSet(active))
      && AllRight(Apply(hmem, computed, Flatten(b.write)), host, seqs, IdSet(active))
  {
    hide Scene, ListReady, BatchOk, Reached, AllComplete, SumTokens, CopiesOk, NoSharedAhead, AllRight, Setting,
      WorkerOk,
      InBounds, Apply, Flatten, Aligned, HasInput, IdSet;
    SceneSetting(gpu0, host0, disk, seqs, home, ws, active, p, others, progress0, b, gpu, host, progress);
    CopiesInBounds(b, seqs, gpu0, host0, gpu, host, IdSet(active));
    if WorkerOk(b, seqs, gpu0, Apply(gmem, hmem, Flatten(b.fetch)), computed) {
      BatchKeepsCachesRight(b, seqs, gpu0, host0, gpu, host, IdSet(active), gmem, hmem, computed);
    }
  }
}
