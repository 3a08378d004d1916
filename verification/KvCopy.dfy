/** Block copies between caches (runtime/worker/llm_worker/kv_worker.py, lines 197-247 and 375-415). */
module KvCopy {
  import opened Prelude

  /** One entry of a block mapping. */
  datatype Entry = Entry(src: BlockId, dst: BlockId)

  predicate InBounds(es: seq<Entry>, srcLen: nat, dstLen: nat) {
    forall i :: 0 <= i < |es| ==> es[i].src < srcLen && es[i].dst < dstLen
  }

  /** The destination cache after copying the entries in order. */
  function Apply<T>(dst: seq<T>, src: seq<T>, es: seq<Entry>): (r: seq<T>)
    requires InBounds(es, |src|, |dst|)
    ensures |r| == |dst|
    decreases |es|
  {
    if es == [] then dst else Apply(dst[es[0].dst := src[es[0].src]], src, es[1..])
  }

  function Flatten(mappings: seq<seq<Entry>>): seq<Entry> {
    if mappings == [] then [] else mappings[0] + Flatten(mappings[1..])
  }

  predicate AllInBounds(mappings: seq<seq<Entry>>, srcLen: nat, dstLen: nat) {
    forall i :: 0 <= i < |mappings| ==> InBounds(mappings[i], srcLen, dstLen)
  }

  lemma {:induction false} FlattenInBounds(mappings: seq<seq<Entry>>, srcLen: nat, dstLen: nat)
    requires AllInBounds(mappings, srcLen, dstLen)
    ensures InBounds(Flatten(mappings), srcLen, dstLen)
  {
    if mappings != [] {
      FlattenInBounds(mappings[1..], srcLen, dstLen);
    }
  }

  /** The copy loop over several block mappings, for one layer, in place. */
  method CopyBlocks<T>(dst: array<T>, src: array<T>, mappings: seq<seq<Entry>>)
    requires dst != src && AllInBounds(mappings, src.Length, dst.Length)
    modifies dst
    ensures InBounds(Flatten(mappings), src.Length, dst.Length)
    ensures dst[..] == Apply(old(dst[..]), src[..], Flatten(mappings))
  {
    FlattenInBounds(mappings, src.Length, dst.Length);
    var i := 0;
    while i < |mappings|
      invariant 0 <= i <= |mappings|
      invariant src[..] == old(src[..])
      invariant InBounds(Flatten(mappings[i..]), src.Length, dst.Length)
      invariant Apply(dst[..], src[..], Flatten(mappings[i..])) == Apply(old(dst[..]), src[..], Flatten(mappings))
    {
      assert mappings[i..][0] == mappings[i] && mappings[i..][1..] == mappings[i + 1..];
      ghost var tail := Flatten(mappings[i + 1..]);
      FlattenInBounds(mappings[i + 1..], src.Length, dst.Length);
      var j := 0;
      assert mappings[i][0..] == mappings[i];
      while j < |mappings[i]|
        invariant 0 <= j <= |mappings[i]|
        invariant src[..] == old(src[..])
        invariant InBounds(mappings[i][j..] + tail, src.Length, dst.Length)
        invariant Apply(dst[..], src[..], mappings[i][j..] + tail) == Apply(old(dst[..]), src[..], Flatten(mappings))
      {
        var e := mappings[i][j];
        ghost var rest := mappings[i][j..] + tail;
        assert rest[0] == e && rest[1..] == mappings[i][j + 1..] + tail;
        ghost var before := dst[..];
        dst[e.dst] := src[e.src];
        assert dst[..] == before[e.dst := src[..][e.src]];
        j := j + 1;
      }
      assert mappings[i][j..] + tail == tail;
      i := i + 1;
    }
  }

  /** No destination block is written twice. */
  ghost predicate DistinctTargets(es: seq<Entry>) {
    forall i, j :: 0 <= i < j < |es| ==> es[i].dst != es[j].dst
  }

  /** Copying to distinct blocks delivers source block `i` to destination block `i`, and changes
      nothing else. */
  lemma {:induction false} ApplyDelivers<T>(dst: seq<T>, src: seq<T>, es: seq<Entry>)
    requires InBounds(es, |src|, |dst|) && DistinctTargets(es)
    ensures forall i :: 0 <= i < |es| ==> Apply(dst, src, es)[es[i].dst] == src[es[i].src]
    ensures forall b :: 0 <= b < |dst| && (forall i :: 0 <= i < |es| ==> es[i].dst != b) ==>
      Apply(dst, src, es)[b] == dst[b]
    decreases |es|
  {
    if es != [] {
      var d1 := dst[es[0].dst := src[es[0].src]];
      ApplyDelivers(d1, src, es[1..]);
      var r := Apply(d1, src, es[1..]);
      forall i | 0 <= i < |es|
        ensures r[es[i].dst] == src[es[i].src]
      {
        if i > 0 {
          assert es[1..][i - 1] == es[i];
        } else {
          assert forall k :: 0 <= k < |es[1..]| ==> es[1..][k].dst != es[0].dst;
        }
      }
      forall b | 0 <= b < |dst| && (forall i :: 0 <= i < |es| ==> es[i].dst != b)
        ensures r[b] == dst[b]
      {
        assert es[0].dst != b;
        assert forall k :: 0 <= k < |es[1..]| ==> es[1..][k] == es[k + 1];
      }
    }
  }

  /** Pairing two block lists, up to the shorter one. */
  function Zip(src: seq<BlockId>, dst: seq<BlockId>): (es: seq<Entry>)
    ensures |es| == Min(|src|, |dst|)
    ensures forall i :: 0 <= i < |es| ==> es[i] == Entry(src[i], dst[i])
  {
    seq(Min(|src|, |dst|), i requires 0 <= i < Min(|src|, |dst|) => Entry(src[i], dst[i]))
  }

  // ---------------------------------------------------------------- several sequences at once

  /** The blocks of two lists at the indices from `s` up to `e`. */
  datatype Job = Job(src: seq<BlockId>, dst: seq<BlockId>, s: nat, e: nat) {
    predicate Fits() { s <= e <= |src| && e <= |dst| }
  }

  function EntriesOf(j: Job): seq<Entry> {
    if j.Fits() then seq(j.e - j.s, k requires 0 <= k < j.e - j.s => Entry(j.src[j.s + k], j.dst[j.s + k])) else []
  }

  /** The entries of all jobs, in order. */
  function AllEntries(jobs: seq<Job>): seq<Entry> {
    if jobs == [] then [] else AllEntries(jobs[..|jobs| - 1]) + EntriesOf(jobs[|jobs| - 1])
  }

  lemma AllEntriesMore(jobs: seq<Job>, j: Job)
    ensures AllEntries(jobs + [j]) == AllEntries(jobs) + EntriesOf(j)
  {
    assert (jobs + [j])[..|jobs|] == jobs;
  }

  lemma {:induction false} FlattenMore(mappings: seq<seq<Entry>>, es: seq<Entry>)
    ensures Flatten(mappings + [es]) == Flatten(mappings) + es
  {
    if mappings == [] {
      assert [es][1..] == [];
      assert [] + [es] == [es];
    } else {
      FlattenMore(mappings[1..], es);
      assert (mappings + [es])[1..] == mappings[1..] + [es];
    }
  }

  /** Two lists paired from `s` on are a job. */
  lemma ZipIsJob(src: seq<BlockId>, dst: seq<BlockId>, s: nat, a: nat, b: nat)
    requires s <= a <= |src| && s <= b <= |dst|
    ensures Zip(src[s..a], dst[s..b]) == EntriesOf(Job(src, dst, s, Min(a, b)))
  {
  }

  /** The job writes block `b`, at index `i`. */
  predicate Targets(j: Job, i: int, b: int) {
    j.Fits() && j.s <= i < j.e && j.dst[i] == b
  }

  ghost predicate Writes(j: Job, b: int) {
    exists i :: Targets(j, i, b)
  }

  /** Index `i` of the job is copied by entry `e`. */
  predicate CopiedAt(j: Job, i: int, e: Entry) {
    j.Fits() && j.s <= i < j.e && e == Entry(j.src[i], j.dst[i])
  }

  lemma {:induction false} EntriesAre(jobs: seq<Job>, e: Entry)
    ensures e in AllEntries(jobs) <==> exists a, i :: 0 <= a < |jobs| && CopiedAt(jobs[a], i, e)
    decreases |jobs|
  {
    hide EntriesOf, CopiedAt;
    if jobs != [] {
      var n := |jobs| - 1;
      EntriesAre(jobs[..n], e);
      OneJobEntries(jobs[n], e);
      if a, i :| 0 <= a < |jobs| && CopiedAt(jobs[a], i, e) {
        assert a < n ==> jobs[..n][a] == jobs[a];
      }
      if a, i :| 0 <= a < n && CopiedAt(jobs[..n][a], i, e) {
        assert jobs[..n][a] == jobs[a];
      }
    }
  }

  lemma OneJobEntries(j: Job, e: Entry)
    ensures e in EntriesOf(j) <==> exists i :: CopiedAt(j, i, e)
  {
    if i :| CopiedAt(j, i, e) {
      assert EntriesOf(j)[i - j.s] == e;
    }
    if e in EntriesOf(j) {
      var k :| 0 <= k < |EntriesOf(j)| && EntriesOf(j)[k] == e;
      assert CopiedAt(j, j.s + k, e);
    }
  }

  /** No block is written twice. */
  ghost predicate Separate(jobs: seq<Job>) {
    forall x, a, i, b, j :: 0 <= a < |jobs| && 0 <= b < |jobs| && Targets(jobs[a], i, x) && Targets(jobs[b], j, x) ==>
      a == b && i == j
  }

  ghost predicate Delivered<T>(src: seq<T>, r: seq<T>, j: Job) {
    forall i, b :: Targets(j, i, b) ==> 0 <= b < |r| && j.src[i] < |src| && r[b] == src[j.src[i]]
  }

  lemma {:induction false} ApplyAppend<T>(dst: seq<T>, src: seq<T>, es: seq<Entry>, more: seq<Entry>)
    requires InBounds(es + more, |src|, |dst|)
    ensures InBounds(es, |src|, |dst|) && InBounds(more, |src|, |dst|)
    ensures Apply(dst, src, es + more) == Apply(Apply(dst, src, es), src, more)
    decreases |es|
  {
    forall i | 0 <= i < |more|
      ensures more[i].src < |src| && more[i].dst < |dst|
    {
      assert more[i] == (es + more)[|es| + i];
    }
    forall i | 0 <= i < |es|
      ensures es[i].src < |src| && es[i].dst < |dst|
    {
      assert es[i] == (es + more)[i];
    }
    if es == [] {
      assert es + more == more;
    } else {
      assert (es + more)[1..] == es[1..] + more;
      ApplyAppend(dst[es[0].dst := src[es[0].src]], src, es[1..], more);
    }
  }

  lemma EntryTargets(j: Job, k: nat)
    requires k < |EntriesOf(j)|
    ensures var e := EntriesOf(j)[k]; Targets(j, j.s + k, e.dst) && e == Entry(j.src[j.s + k], j.dst[j.s + k])
  {
  }

  lemma TargetEntry(j: Job, i: int, b: int)
    requires Targets(j, i, b)
    ensures 0 <= i - j.s < |EntriesOf(j)| && EntriesOf(j)[i - j.s] == Entry(j.src[i], j.dst[i]) && b == j.dst[i]
  {
  }

  lemma SeparateEntries(j: Job)
    requires Separate([j])
    ensures DistinctTargets(EntriesOf(j))
  {
    hide Targets, EntriesOf;
    var es, jobs := EntriesOf(j), [j];
    forall k, l | 0 <= k < l < |es|
      ensures es[k].dst != es[l].dst
    {
      EntryTargets(j, k);
      EntryTargets(j, l);
      assert jobs[0] == j;
    }
  }

  /** One job delivers each of its blocks and changes no other. */
  lemma JobDelivers<T>(dst: seq<T>, src: seq<T>, j: Job)
    requires InBounds(EntriesOf(j), |src|, |dst|) && Separate([j])
    ensures Delivered(src, Apply(dst, src, EntriesOf(j)), j)
    ensures forall b :: 0 <= b < |dst| && !Writes(j, b) ==> Apply(dst, src, EntriesOf(j))[b] == dst[b]
  {
    hide Targets, EntriesOf, Separate, Apply, DistinctTargets;
    var es := EntriesOf(j);
    SeparateEntries(j);
    ApplyDelivers(dst, src, es);
    var r := Apply(dst, src, es);
    forall i, b | Targets(j, i, b)
      ensures 0 <= b < |dst| && Fitting(j, i) && j.src[i] < |src| && r[b] == src[j.src[i]]
    {
      TargetEntry(j, i, b);
      FitsAt(j, i, b);
      assert es[i - j.s].dst < |dst|;
    }
    DeliveredBy(src, r, j);
    forall b | 0 <= b < |dst| && !Writes(j, b)
      ensures r[b] == dst[b]
    {
      forall k | 0 <= k < |es|
        ensures es[k].dst != b
      {
        EntryTargets(j, k);
      }
    }
  }

  predicate Fitting(j: Job, i: int) { j.Fits() && j.s <= i < j.e }

  lemma FitsAt(j: Job, i: int, b: int)
    requires Targets(j, i, b)
    ensures Fitting(j, i)
  {
  }

  lemma DeliveredBy<T>(src: seq<T>, r: seq<T>, j: Job)
    requires forall i, b :: Targets(j, i, b) ==>
      (0 <= b < |r| && Fitting(j, i) && j.src[i] < |src| && r[b] == src[j.src[i]])
    ensures Delivered(src, r, j)
  {
  }

  lemma SeparateParts(jobs: seq<Job>)
    requires Separate(jobs) && jobs != []
    ensures Separate(jobs[..|jobs| - 1]) && Separate([jobs[|jobs| - 1]])
  {
    hide Targets;
    var n := |jobs| - 1;
    forall x, a, i, b, j | 0 <= a < n && 0 <= b < n && Targets(jobs[..n][a], i, x) && Targets(jobs[..n][b], j, x)
      ensures a == b && i == j
    {
      assert jobs[..n][a] == jobs[a] && jobs[..n][b] == jobs[b];
    }
    forall x, a, i, b, j | 0 <= a < 1 && 0 <= b < 1 && Targets([jobs[n]][a], i, x) && Targets([jobs[n]][b], j, x)
      ensures a == b && i == j
    {
      assert Targets(jobs[n], i, x) && Targets(jobs[n], j, x);
    }
  }

  /** Jobs that write different blocks deliver all of them, and change no other. */
  lemma {:induction false} JobsDeliver<T>(dst: seq<T>, src: seq<T>, jobs: seq<Job>)
    requires InBounds(AllEntries(jobs), |src|, |dst|) && Separate(jobs)
    ensures forall a :: 0 <= a < |jobs| ==> Delivered(src, Apply(dst, src, AllEntries(jobs)), jobs[a])
    ensures forall b :: 0 <= b < |dst| && (forall a :: 0 <= a < |jobs| ==> !Writes(jobs[a], b)) ==>
      Apply(dst, src, AllEntries(jobs))[b] == dst[b]
    decreases |jobs|
  {
    hide Targets, EntriesOf, Separate, Writes, Delivered;
    if jobs != [] {
      var n := |jobs| - 1;
      var before, last := jobs[..n], jobs[n];
      SeparateParts(jobs);
      ApplyAppend(dst, src, AllEntries(before), EntriesOf(last));
      var mid := Apply(dst, src, AllEntries(before));
      var r := Apply(mid, src, EntriesOf(last));
      JobsDeliver(dst, src, before);
      JobDelivers(mid, src, last);
      forall a | 0 <= a < |jobs|
        ensures Delivered(src, r, jobs[a])
      {
        if a < n {
          assert before[a] == jobs[a];
          StaysDelivered(src, mid, r, jobs, a);
        }
      }
      forall b | 0 <= b < |dst| && (forall a :: 0 <= a < |jobs| ==> !Writes(jobs[a], b))
        ensures r[b] == dst[b]
      {
        assert !Writes(jobs[n], b);
        forall a | 0 <= a < |before|
          ensures !Writes(before[a], b)
        {
          assert before[a] == jobs[a];
        }
      }
    }
  }

  /** The last job writes no block of an earlier one. */
  lemma StaysDelivered<T>(src: seq<T>, mid: seq<T>, r: seq<T>, jobs: seq<Job>, a: nat)
    requires jobs != [] && a < |jobs| - 1 && Separate(jobs) && Delivered(src, mid, jobs[a]) && |r| == |mid|
    requires forall b :: 0 <= b < |mid| && !Writes(jobs[|jobs| - 1], b) ==> r[b] == mid[b]
    ensures Delivered(src, r, jobs[a])
  {
    forall i, b | Targets(jobs[a], i, b)
      ensures 0 <= b < |r| && jobs[a].src[i] < |src| && r[b] == src[jobs[a].src[i]]
    {
      WrittenOnce(jobs, a, i, b);
    }
  }

  lemma WrittenOnce(jobs: seq<Job>, a: nat, i: int, b: int)
    requires jobs != [] && a < |jobs| - 1 && Separate(jobs) && Targets(jobs[a], i, b)
    ensures !Writes(jobs[|jobs| - 1], b)
  {
    hide Targets;
  }

  /** `_push_kv` drops remote descriptors from the end until there are no more than local blocks. */
  method TruncateDescriptors(remote: seq<BlockId>, n: nat) returns (r: seq<BlockId>)
    ensures r <= remote && |r| == Min(|remote|, n)
  {
    r := remote;
    while |r| > n
      invariant r <= remote && (|r| >= n || r == remote)
      decreases |r|
    {
      r := r[..|r| - 1];
    }
  }
}
