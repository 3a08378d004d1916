/** Building a batch from the active tasks (runtime/src/llm_engine/scheduler.rs, lines 453-541). */
module Batches {
  import opened Prelude
  import opened BlockManagerSpec
  import opened BlockManagerInv
  import opened KvCopy
  import opened Dispatch
  import opened Queues
  import opened SchedulerState

  // ---------------------------------------------------------------- one task

  /** Only the filled length of `q` changed. */
  ghost predicate FilledOnly(before: map<SeqId, BlockMap>, after: map<SeqId, BlockMap>, q: SeqId) {
    && q in before && q in after && after == before[q := after[q]]
    && after[q].ids == before[q].ids && after[q].slots == before[q].slots
  }

  lemma FilledOnlyOf(m: Manager, m': Manager, q: SeqId)
    requires q in m.maps && q in m'.maps && m' == WithFilled(m, q, m'.maps[q].filled)
    ensures FilledOnly(m.maps, m'.maps, q) && m'.bs == m.bs
  {
  }

  lemma ScenePaired(gpu: Manager, host: Manager, disk: Manager, seqs: map<SeqId, Sequence>, home: map<SeqId, Task>,
                    ws: seq<Task>, acts: seq<Task>, p: multiset<Task>, others: multiset<Task>,
                    progress: map<SeqId, nat>, t: Task)
    requires Scene(gpu, host, disk, seqs, home, ws, acts, p, others, progress) && t in acts
    requires ListReady(gpu, seqs, acts)
    ensures t.id in seqs && Paired(gpu, host, TextsOf(seqs), t.id, seqs[t.id].toks)
    ensures t.id in host.maps && Aligned(host.maps[t.id].filled, gpu.bs)
    ensures t.id in progress ==> gpu.maps[t.id].filled == progress[t.id] && host.maps[t.id].filled <= progress[t.id]
  {
    hide Inv, AllSettled, Placed, TasksOk, Aligned;
    SceneTask(gpu, host, disk, seqs, home, ws, acts, p, others, progress, t);
    ReadyList(gpu, seqs, acts);
  }

  lemma SliceDevices(gpu: Manager, host: Manager, disk: Manager, seqs: map<SeqId, Sequence>, q: SeqId, toks: seq<Token>,
                     budget: nat, sl: Slice)
    requires DevicesOk(gpu, host, disk, seqs) && q in gpu.maps && q in host.maps
    requires SliceOk(gpu, host, sl, TextsOf(seqs), q, toks, budget)
    ensures DevicesOk(sl.gpu, sl.host, disk, seqs)
    ensures FilledOnly(gpu.maps, sl.gpu.maps, q) && FilledOnly(host.maps, sl.host.maps, q)
    ensures sl.gpu.bs == gpu.bs && sl.host.bs == host.bs
  {
    hide Inv, AllSettled, Whole, Aligned;
    FilledOnlyOf(gpu, sl.gpu, q);
    FilledOnlyOf(host, sl.host, q);
  }

  lemma PlacedAfterSlice(gpu: Manager, gpu': Manager, host: Manager, host': Manager, w: multiset<Task>,
                         a: multiset<Task>, p: multiset<Task>, all: multiset<Task>, home: map<SeqId, Task>, t: Task)
    requires Placed(gpu, host, w, a, p) && TasksOk(all, home) && w + a + p <= all && t in a
    requires FilledOnly(gpu.maps, gpu'.maps, t.id) && FilledOnly(host.maps, host'.maps, t.id) && host'.bs == host.bs
    ensures Placed(gpu', host', w, a, p)
  {
    forall u | u in p
      ensures u.id != t.id
    {
      assert a + p <= w + a + p <= all;
      OtherTask(all, home, a, p, t, u);
    }
  }

  lemma ReadyAfterSlice(gpu: Manager, gpu': Manager, seqs: map<SeqId, Sequence>, ts: seq<Task>, q: SeqId)
    requires ListReady(gpu, seqs, ts) && FilledOnly(gpu.maps, gpu'.maps, q)
    ensures ListReady(gpu', seqs, ts)
  {
  }

  lemma ProgressAfterSlice(progress: map<SeqId, nat>, gpu: Manager, gpu': Manager, host: Manager, host': Manager,
                           a: multiset<Task>, home: map<SeqId, Task>, t: Task, n: nat)
    requires ProgressOk(progress, gpu, host, a, home) && t.id in home && home[t.id] == t && t in a
    requires FilledOnly(gpu.maps, gpu'.maps, t.id) && FilledOnly(host.maps, host'.maps, t.id)
    requires gpu'.maps[t.id].filled == n && host'.maps[t.id].filled <= n
    ensures ProgressOk(progress[t.id := n], gpu', host', a, home)
  {
  }

  lemma SceneSlice(gpu: Manager, host: Manager, disk: Manager, seqs: map<SeqId, Sequence>, home: map<SeqId, Task>,
                   ws: seq<Task>, acts: seq<Task>, p: multiset<Task>, others: multiset<Task>, progress: map<SeqId, nat>,
                   t: Task, gpu': Manager, host': Manager, n: nat)
    requires Scene(gpu, host, disk, seqs, home, ws, acts, p, others, progress) && t in acts
    requires ListReady(gpu, seqs, acts)
    requires DevicesOk(gpu', host', disk, seqs) && host'.bs == host.bs
    requires FilledOnly(gpu.maps, gpu'.maps, t.id) && FilledOnly(host.maps, host'.maps, t.id)
    requires gpu'.maps[t.id].filled == n && host'.maps[t.id].filled <= n
    ensures Scene(gpu', host', disk, seqs, home, ws, acts, p, others, progress[t.id := n])
    ensures ListReady(gpu', seqs, acts)
  {
    hide DevicesOk, Placed, TasksOk, ProgressOk, FilledOnly, ListReady;
    var all := multiset(ws) + multiset(acts) + p + others;
    Within(multiset(ws), multiset(acts), p, others);
    InPlace(gpu, host, multiset(ws), multiset(acts), p, all, home, seqs, t);
    PlacedAfterSlice(gpu, gpu', host, host', multiset(ws), multiset(acts), p, all, home, t);
    ProgressAfterSlice(progress, gpu, gpu', host, host', multiset(acts), home, t, n);
    ReadyAfterSlice(gpu, gpu', seqs, acts, t.id);
  }

  /** An input of a batch is a stretch of its sequence's text that starts where the last one since the
      task's admission ended (or at the last token, if that was the end), with the GPU blocks for it. */
  ghost predicate InputOk(inp: Input, gpu: Manager, seqs: map<SeqId, Sequence>, progress: map<SeqId, nat>) {
    && inp.q in seqs && inp.q in gpu.maps
    && var toks, ids := seqs[inp.q].toks, gpu.maps[inp.q].ids;
    && inp.filled < inp.context <= |toks| && inp.tokens == toks[inp.filled..inp.context]
    && Covers(|ids|, |toks|, gpu.bs) && inp.blocks == ids[..Min(Whole(inp.context, gpu.bs) + 1, |ids|)]
    && (inp.q in progress ==> inp.filled == Min(progress[inp.q], |toks| - 1))
  }

  lemma SliceInput(gpu: Manager, host: Manager, seqs: map<SeqId, Sequence>, progress: map<SeqId, nat>, q: SeqId,
                   budget: nat, sl: Slice)
    requires q in seqs && Paired(gpu, host, TextsOf(seqs), q, seqs[q].toks)
    requires SliceOk(gpu, host, sl, TextsOf(seqs), q, seqs[q].toks, budget) && sl.input.Some?
    requires q in progress ==> gpu.maps[q].filled == progress[q] && host.maps[q].filled <= progress[q]
    ensures sl.input.value.q == q && InputOk(sl.input.value, gpu, seqs, progress)
    ensures sl.input.value.context < |seqs[q].toks| ==> |sl.input.value.tokens| == budget
    ensures |sl.input.value.tokens| <= budget
    ensures q in sl.gpu.maps && sl.gpu.maps[q].filled == sl.input.value.context
    ensures q in sl.host.maps && sl.host.maps[q].filled <= sl.input.value.context
  {
    hide Inv, Whole, Covers, Aligned;
    PairedBounds(gpu, host, TextsOf(seqs), q, seqs[q].toks);
  }

  /** The input starts where the further of the two devices is filled, or at the last token. */
  ghost predicate Starts(inp: Input, seqs: map<SeqId, Sequence>, gpu: Manager, host: Manager) {
    && inp.q in seqs && inp.q in gpu.maps && inp.q in host.maps
    && inp.filled == StartOf(|seqs[inp.q].toks|, gpu.maps[inp.q].filled, host.maps[inp.q].filled)
  }

  lemma SliceStarts(gpu: Manager, host: Manager, seqs: map<SeqId, Sequence>, q: SeqId, budget: nat, sl: Slice)
    requires q in seqs && q in gpu.maps && q in host.maps && sl.input.Some?
    requires SliceOk(gpu, host, sl, TextsOf(seqs), q, seqs[q].toks, budget)
    ensures Starts(sl.input.value, seqs, gpu, host)
  {
    hide Paired, Aligned, Whole;
  }

  /** Dispatch one active task with tokens left in the batch. It never panics. */
  method DispatchTask(gpu0: Manager, host0: Manager, ghost disk: Manager, seqs: map<SeqId, Sequence>,
                      ghost home: map<SeqId, Task>, ghost ws: seq<Task>, ghost acts: seq<Task>, ghost p: multiset<Task>,
                      ghost others: multiset<Task>, ghost progress0: map<SeqId, nat>, t: Task, budget: nat)
    returns (sl: Slice, ghost progress: map<SeqId, nat>)
    requires Scene(gpu0, host0, disk, seqs, home, ws, acts, p, others, progress0) && t in acts
    requires ListReady(gpu0, seqs, acts)
    requires budget > 0
    ensures Scene(sl.gpu, sl.host, disk, seqs, home, ws, acts, p, others, progress) && ListReady(sl.gpu, seqs, acts)
    ensures FilledOnly(gpu0.maps, sl.gpu.maps, t.id) && sl.gpu.bs == gpu0.bs && sl.host.bs == host0.bs
    ensures t.id in seqs
    ensures t.id in gpu0.maps && t.id in host0.maps && t.id in sl.gpu.maps
    ensures FilledOnly(host0.maps, sl.host.maps, t.id) && SliceCopies(gpu0, host0, sl, t.id)
    ensures sl.input.None? ==> sl.gpu == gpu0 && sl.host == host0 && sl.fetch == []
    ensures sl.input.Some? ==> Starts(sl.input.value, seqs, gpu0, host0)
    ensures sl.input.Some? ==> sl.gpu.maps[t.id].filled == sl.input.value.context
    ensures sl.input.None? ==> progress == progress0 && seqs[t.id].toks == []
    ensures sl.input.Some? ==>
      && sl.input.value.q == t.id && InputOk(sl.input.value, gpu0, seqs, progress0)
      && progress == progress0[t.id := sl.input.value.context]
      && |sl.input.value.tokens| <= budget
      && (sl.input.value.context < |seqs[t.id].toks| ==> |sl.input.value.tokens| == budget)
    ensures DispatchOne(gpu0, host0, t.id, seqs[t.id].toks, budget) == Ok(sl)
  {
    hide Scene, DevicesOk, FilledOnly, ListReady, DispatchOne, SliceOk, SliceCopies, Paired, InputOk, Aligned, Starts;
    ScenePaired(gpu0, host0, disk, seqs, home, ws, acts, p, others, progress0, t);
    SceneTask(gpu0, host0, disk, seqs, home, ws, acts, p, others, progress0, t);
    var toks := seqs[t.id].toks;
    DispatchOneSafe(gpu0, host0, TextsOf(seqs), t.id, toks, budget);
    sl := DispatchOne(gpu0, host0, t.id, toks, budget).value;
    SliceDevices(gpu0, host0, disk, seqs, t.id, toks, budget, sl);
    progress := progress0;
    if sl.input.Some? {
      SliceInput(gpu0, host0, seqs, progress0, t.id, budget, sl);
      SliceStarts(gpu0, host0, seqs, t.id, budget, sl);
      progress := progress0[t.id := sl.input.value.context];
      SceneSlice(gpu0, host0, disk, seqs, home, ws, acts, p, others, progress0, t, sl.gpu, sl.host,
                 sl.input.value.context);
    } else {
      EmptySlice(gpu0, host0, TextsOf(seqs), t.id, toks, budget, sl);
    }
  }

  lemma EmptySlice(gpu: Manager, host: Manager, texts: Texts, q: SeqId, toks: seq<Token>, budget: nat, sl: Slice)
    requires Paired(gpu, host, texts, q, toks) && q in gpu.maps && q in host.maps
    requires SliceOk(gpu, host, sl, texts, q, toks, budget)
    requires sl.input.None? && budget > 0
    ensures toks == [] && sl.gpu == gpu && sl.host == host
    ensures SliceCopies(gpu, host, sl, q) ==> sl.fetch == []
  {
    hide Inv, Whole, Covers, Aligned;
    PairedBounds(gpu, host, texts, q, toks);
    SameFilled(gpu, q);
    SameFilled(host, q);
  }

  // ---------------------------------------------------------------- the whole batch

  /** A batch: its inputs, for each sequence in it whether its input was cut, and the block copies before
      and after it. */
  datatype Batch = Batch(inputs: seq<Input>, running: map<SeqId, bool>, fetch: seq<seq<Entry>>, write: seq<seq<Entry>>)

  function SumTokens(inputs: seq<Input>): nat {
    if inputs == [] then 0 else SumTokens(inputs[..|inputs| - 1]) + |inputs[|inputs| - 1].tokens|
  }

  /** The input is entered in the batch as cut or complete, and its sequence counts as dispatched so far. */
  ghost predicate Recorded(inp: Input, running: map<SeqId, bool>, seqs: map<SeqId, Sequence>,
                           progress: map<SeqId, nat>) {
    && inp.q in seqs && inp.q in running && running[inp.q] == (inp.context < |seqs[inp.q].toks|)
    && inp.q in progress && progress[inp.q] == inp.context
  }

  /** Sequences outside the batch make no progress. */
  ghost predicate SameOutside(running: map<SeqId, bool>, progress0: map<SeqId, nat>, progress: map<SeqId, nat>) {
    forall q :: q !in running ==> (q in progress <==> q in progress0) && (q in progress ==> progress[q] == progress0[q])
  }

  /** The running batch tells of each of its sequences whether it was dispatched up to its full length. */
  ghost predicate RunningOk(running: map<SeqId, bool>, seqs: map<SeqId, Sequence>, progress: map<SeqId, nat>) {
    forall q :: q in running ==> q in seqs && q in progress && (running[q] <==> progress[q] < |seqs[q].toks|)
  }

  /** One input for each sequence of the batch; all but the last are complete. */
  ghost predicate BatchOk(b: Batch, gpu: Manager, seqs: map<SeqId, Sequence>, progress0: map<SeqId, nat>,
                          progress: map<SeqId, nat>) {
    && |b.running| == |b.inputs|
    && (forall k :: 0 <= k < |b.inputs| ==>
          (InputOk(b.inputs[k], gpu, seqs, progress0) && Recorded(b.inputs[k], b.running, seqs, progress)))
    && (forall k, l :: 0 <= k < l < |b.inputs| ==> b.inputs[k].q != b.inputs[l].q)
    && (forall k :: 0 <= k < |b.inputs| - 1 ==> Complete(b.inputs[k], seqs))
    && SameOutside(b.running, progress0, progress) && RunningOk(b.running, seqs, progress)
    && (forall q :: q in b.running ==> HasInput(b.inputs, q))
  }

  ghost predicate HasInput(inputs: seq<Input>, q: SeqId) {
    exists k :: 0 <= k < |inputs| && inputs[k].q == q
  }

  lemma HasInputMore(inputs: seq<Input>, inp: Input)
    ensures HasInput(inputs + [inp], inp.q)
    ensures forall q :: HasInput(inputs, q) ==> HasInput(inputs + [inp], q)
  {
    assert (inputs + [inp])[|inputs|] == inp;
    forall q | HasInput(inputs, q)
      ensures HasInput(inputs + [inp], q)
    {
      var k :| 0 <= k < |inputs| && inputs[k].q == q;
      assert (inputs + [inp])[k].q == q;
    }
  }

  predicate Complete(inp: Input, seqs: map<SeqId, Sequence>) {
    inp.q in seqs && inp.context == |seqs[inp.q].toks|
  }

  /** One more input for a sequence that was not in the batch. */
  function Extend(b: Batch, inp: Input, total: nat): Batch {
    b.(inputs := b.inputs + [inp], running := b.running[inp.q := total > inp.context])
  }

  lemma BatchExtended(b: Batch, gpu0: Manager, gpu: Manager, seqs: map<SeqId, Sequence>, progress0: map<SeqId, nat>,
                      progress: map<SeqId, nat>, inp: Input)
    requires BatchOk(b, gpu0, seqs, progress0, progress)
    requires (forall k :: 0 <= k < |b.inputs| ==> Complete(b.inputs[k], seqs))
    requires SameLists(gpu0, gpu) && inp.q !in b.running && inp.q in seqs
    requires InputOk(inp, gpu, seqs, progress)
    ensures BatchOk(Extend(b, inp, |seqs[inp.q].toks|), gpu0, seqs, progress0, progress[inp.q := inp.context])
  {
    hide InputOk, SameLists, Complete, Recorded, SameOutside, RunningOk, HasInput;
    HasInputMore(b.inputs, inp);
    var b' := Extend(b, inp, |seqs[inp.q].toks|);
    var progress' := progress[inp.q := inp.context];
    OneMore(b.running, inp.q, |seqs[inp.q].toks| > inp.context);
    OutsideStays(inp, b.running, |seqs[inp.q].toks| > inp.context, progress0, progress);
    RunningStays(inp, b.running, seqs, progress);
    InputLists(inp, gpu0, gpu, seqs, progress0, progress);
    forall k | 0 <= k < |b'.inputs|
      ensures InputOk(b'.inputs[k], gpu0, seqs, progress0) && Recorded(b'.inputs[k], b'.running, seqs, progress')
    {
      if k < |b.inputs| {
        assert b'.inputs[k] == b.inputs[k];
      }
      RecordedStays(if k < |b.inputs| then b.inputs[k] else inp, inp, b.running, seqs, progress);
    }
    forall k, l | 0 <= k < l < |b'.inputs|
      ensures b'.inputs[k].q != b'.inputs[l].q
    {
      RecordedStays(b.inputs[k], inp, b.running, seqs, progress);
    }
  }

  lemma RecordedStays(other: Input, inp: Input, running: map<SeqId, bool>, seqs: map<SeqId, Sequence>,
                      progress: map<SeqId, nat>)
    requires inp.q !in running && inp.q in seqs && (other == inp || Recorded(other, running, seqs, progress))
    ensures Recorded(other, running[inp.q := |seqs[inp.q].toks| > inp.context], seqs, progress[inp.q := inp.context])
    ensures Recorded(other, running, seqs, progress) ==> other.q != inp.q
  {
  }

  lemma OutsideStays(inp: Input, running: map<SeqId, bool>, cut: bool, progress0: map<SeqId, nat>,
                     progress: map<SeqId, nat>)
    requires SameOutside(running, progress0, progress) && inp.q !in running
    ensures SameOutside(running[inp.q := cut], progress0, progress[inp.q := inp.context])
    ensures (inp.q in progress <==> inp.q in progress0) && (inp.q in progress ==> progress[inp.q] == progress0[inp.q])
  {
  }

  lemma RunningStays(inp: Input, running: map<SeqId, bool>, seqs: map<SeqId, Sequence>, progress: map<SeqId, nat>)
    requires RunningOk(running, seqs, progress) && inp.q !in running && inp.q in seqs
    ensures RunningOk(running[inp.q := |seqs[inp.q].toks| > inp.context], seqs, progress[inp.q := inp.context])
  {
  }

  lemma OneMore(running: map<SeqId, bool>, q: SeqId, cut: bool)
    requires q !in running
    ensures |running[q := cut]| == |running| + 1
  {
    assert running[q := cut].Keys == running.Keys + {q};
  }

  lemma SumExtended(inputs: seq<Input>, inp: Input)
    ensures SumTokens(inputs + [inp]) == SumTokens(inputs) + |inp.tokens|
  {
    assert (inputs + [inp])[..|inputs|] == inputs;
  }

  /** The same block lists. */
  ghost predicate SameLists(gpu0: Manager, gpu: Manager) {
    && gpu.bs == gpu0.bs
    && forall q :: (q in gpu.maps <==> q in gpu0.maps) && (q in gpu.maps ==> gpu.maps[q].ids == gpu0.maps[q].ids)
  }

  lemma InputLists(inp: Input, gpu0: Manager, gpu: Manager, seqs: map<SeqId, Sequence>, progress0: map<SeqId, nat>,
                   progress: map<SeqId, nat>)
    requires SameLists(gpu0, gpu) && InputOk(inp, gpu, seqs, progress)
    requires (inp.q in progress <==> inp.q in progress0) && (inp.q in progress ==> progress[inp.q] == progress0[inp.q])
    ensures InputOk(inp, gpu0, seqs, progress0)
  {
    hide Whole, Covers;
  }

  lemma SameListsTrans(gpu0: Manager, gpu1: Manager, gpu2: Manager, q: SeqId)
    requires SameLists(gpu0, gpu1) && FilledOnly(gpu1.maps, gpu2.maps, q) && gpu2.bs == gpu1.bs
    ensures SameLists(gpu0, gpu2)
  {
  }

  ghost predicate AllComplete(inputs: seq<Input>, seqs: map<SeqId, Sequence>) {
    forall k :: 0 <= k < |inputs| ==> Complete(inputs[k], seqs)
  }

  /** The batch has an input for each of the first `i` tasks with a text, and none for the later ones. */
  ghost predicate Reached(active: seq<Task>, i: nat, running: map<SeqId, bool>, seqs: map<SeqId, Sequence>) {
    && i <= |active|
    && (forall j :: 0 <= j < i ==> active[j].id in running || TextOf(seqs, active[j]) == [])
    && (forall j :: i <= j < |active| ==> active[j].id !in running)
  }

  lemma ReachedNext(active: seq<Task>, i: nat, running: map<SeqId, bool>, running': map<SeqId, bool>,
                    seqs: map<SeqId, Sequence>)
    requires Reached(active, i, running, seqs) && i < |active|
    requires forall k, l :: 0 <= k < l < |active| ==> active[k].id != active[l].id
    requires (running' == running && TextOf(seqs, active[i]) == []) ||
      (active[i].id in running' && running' == running[active[i].id := running'[active[i].id]])
    ensures Reached(active, i + 1, running', seqs)
  {
    hide TextOf;
  }

  /** The batch with what dispatching a sequence of `total` tokens yields. */
  function WithSlice(b: Batch, sl: Slice, total: nat): Batch {
    var b1 := if sl.fetch == [] then b else b.(fetch := b.fetch + [sl.fetch]);
    if sl.input.None? then b1
    else
      var b2 := Extend(b1, sl.input.value, total);
      if sl.write == [] then b2 else b2.(write := b2.write + [sl.write])
  }

  function UsedBy(sl: Slice): nat { if sl.input.Some? then |sl.input.value.tokens| else 0 }

  /** The dispatch loop over `active`, with the batch so far and `budget` tokens left. */
  function Dispatching(gpu: Manager, host: Manager, seqs: map<SeqId, Sequence>, active: seq<Task>, b: Batch,
                       budget: nat, maxBatch: nat): Outcome<(Manager, Manager, Batch)>
    decreases |active|
  {
    if active == [] || |b.running| >= maxBatch || budget == 0 then Ok((gpu, host, b))
    else if active[0].id !in seqs then Panic(OutOfBounds)
    else
      var toks := seqs[active[0].id].toks;
      var sl :- DispatchOne(gpu, host, active[0].id, toks, budget);
      if UsedBy(sl) > budget then Panic(Underflow)
      else Dispatching(sl.gpu, sl.host, seqs, active[1..], WithSlice(b, sl, |toks|), budget - UsedBy(sl), maxBatch)
  }

  lemma DispatchingStep(gpu: Manager, host: Manager, seqs: map<SeqId, Sequence>, active: seq<Task>, i: nat, b: Batch,
                        budget: nat, maxBatch: nat, sl: Slice)
    requires i < |active| && |b.running| < maxBatch && budget > 0 && active[i].id in seqs
    requires DispatchOne(gpu, host, active[i].id, seqs[active[i].id].toks, budget) == Ok(sl) && UsedBy(sl) <= budget
    ensures Dispatching(gpu, host, seqs, active[i..], b, budget, maxBatch) ==
      Dispatching(sl.gpu, sl.host, seqs, active[i + 1..], WithSlice(b, sl, |seqs[active[i].id].toks|),
                  budget - UsedBy(sl), maxBatch)
  {
    hide DispatchOne, WithSlice, UsedBy;
    assert active[i..][0] == active[i] && active[i..][1..] == active[i + 1..];
  }

  lemma DispatchingDone(gpu: Manager, host: Manager, seqs: map<SeqId, Sequence>, active: seq<Task>, b: Batch,
                        budget: nat, maxBatch: nat)
    requires active == [] || |b.running| >= maxBatch || budget == 0
    ensures Dispatching(gpu, host, seqs, active, b, budget, maxBatch) == Ok((gpu, host, b))
  {
  }

  // ---------------------------------------------------------------- its copies

  function FetchFor(q: SeqId, gpu: Manager, host: Manager): Job {
    if q in gpu.maps && q in host.maps then FetchJob(gpu.maps[q], host.maps[q], gpu.bs) else Job([], [], 0, 0)
  }

  function WriteFor(inp: Input, gpu: Manager, host: Manager): Job {
    if inp.q in gpu.maps && inp.q in host.maps then WriteJob(gpu.maps[inp.q], host.maps[inp.q], inp.context, gpu.bs)
    else Job([], [], 0, 0)
  }

  function FetchJobs(inputs: seq<Input>, gpu: Manager, host: Manager): seq<Job> {
    seq(|inputs|, k requires 0 <= k < |inputs| => FetchFor(inputs[k].q, gpu, host))
  }

  function WriteJobs(inputs: seq<Input>, gpu: Manager, host: Manager): seq<Job> {
    seq(|inputs|, k requires 0 <= k < |inputs| => WriteFor(inputs[k], gpu, host))
  }

  /** The sequence of an input counts as filled up to its end on the GPU, and up to the last whole block before
      that on the host, as far as it has slots there. */
  ghost predicate Raised(inp: Input, seqs: map<SeqId, Sequence>, gpu0: Manager, host0: Manager, gpu: Manager,
                         host: Manager) {
    && Starts(inp, seqs, gpu0, host0) && inp.q in gpu.maps && inp.q in host.maps
    && gpu.maps[inp.q] == gpu0.maps[inp.q].(filled := inp.context)
    && host.maps[inp.q] == host0.maps[inp.q].(
         filled := Offset(Whole(Min(inp.context, host0.maps[inp.q].slots), gpu0.bs), gpu0.bs))
  }

  /** The same map of `q`, or none. */
  predicate SameMap(m: Manager, m': Manager, q: SeqId) {
    (q in m'.maps <==> q in m.maps) && (q in m.maps ==> m'.maps[q] == m.maps[q])
  }

  /** The copies of a batch, told from the state before it: to the GPU, for each input the blocks that the host
      has more of its sequence; to the host, the whole blocks that it lacks then and can hold; and nothing else.
      Exactly the sequences of the batch count as filled further. */
  ghost predicate CopiesOk(b: Batch, seqs: map<SeqId, Sequence>, gpu0: Manager, host0: Manager, gpu: Manager,
                           host: Manager) {
    && gpu.bs == gpu0.bs && host.bs == host0.bs
    && Flatten(b.fetch) == AllEntries(FetchJobs(b.inputs, gpu0, host0))
    && Flatten(b.write) == AllEntries(WriteJobs(b.inputs, gpu0, host0))
    && (forall k :: 0 <= k < |b.inputs| ==>
          b.inputs[k].q in b.running && Raised(b.inputs[k], seqs, gpu0, host0, gpu, host))
    && (forall q :: q !in b.running ==> SameMap(gpu0, gpu, q) && SameMap(host0, host, q))
  }

  lemma NoCopies(seqs: map<SeqId, Sequence>, gpu: Manager, host: Manager)
    ensures CopiesOk(Batch([], map[], [], []), seqs, gpu, host, gpu, host)
  {
  }

  lemma JobsMore(inputs: seq<Input>, inp: Input, gpu: Manager, host: Manager)
    ensures FetchJobs(inputs + [inp], gpu, host) == FetchJobs(inputs, gpu, host) + [FetchFor(inp.q, gpu, host)]
    ensures WriteJobs(inputs + [inp], gpu, host) == WriteJobs(inputs, gpu, host) + [WriteFor(inp, gpu, host)]
  {
    hide FetchFor, WriteFor;
  }

  lemma FlattenUnlessEmpty(mappings: seq<seq<Entry>>, es: seq<Entry>)
    ensures Flatten(if es == [] then mappings else mappings + [es]) == Flatten(mappings) + es
  {
    FlattenMore(mappings, es);
  }

  /** One more input, of a sequence that was not in the batch, with its copies. */
  lemma CopiesMore(b: Batch, b': Batch, seqs: map<SeqId, Sequence>, gpu0: Manager, host0: Manager, gpu: Manager,
                   host: Manager, q: SeqId, sl: Slice)
    requires CopiesOk(b, seqs, gpu0, host0, gpu, host) && q !in b.running && q in gpu.maps && q in host.maps
    requires sl.input.Some? && sl.input.value.q == q && SliceCopies(gpu, host, sl, q) && sl.gpu.bs == gpu.bs
    requires sl.host.bs == host.bs && Starts(sl.input.value, seqs, gpu, host)
    requires FilledOnly(gpu.maps, sl.gpu.maps, q) && FilledOnly(host.maps, sl.host.maps, q)
    requires sl.gpu.maps[q].filled == sl.input.value.context
    requires b'.inputs == b.inputs + [sl.input.value] && b'.running.Keys == b.running.Keys + {q}
    requires b'.fetch == if sl.fetch == [] then b.fetch else b.fetch + [sl.fetch]
    requires b'.write == if sl.write == [] then b.write else b.write + [sl.write]
    ensures CopiesOk(b', seqs, gpu0, host0, sl.gpu, sl.host)
  {
    hide FetchJob, WriteJob, EntriesOf, AllEntries, FetchJobs, WriteJobs, Flatten, Offset, Whole, StartOf;
    var inp := sl.input.value;
    JobsMore(b.inputs, inp, gpu0, host0);
    AllEntriesMore(FetchJobs(b.inputs, gpu0, host0), FetchFor(q, gpu0, host0));
    AllEntriesMore(WriteJobs(b.inputs, gpu0, host0), WriteFor(inp, gpu0, host0));
    FlattenUnlessEmpty(b.fetch, sl.fetch);
    FlattenUnlessEmpty(b.write, sl.write);
    assert SameMap(gpu0, gpu, q) && SameMap(host0, host, q);
    forall k | 0 <= k < |b'.inputs|
      ensures b'.inputs[k].q in b'.running && Raised(b'.inputs[k], seqs, gpu0, host0, sl.gpu, sl.host)
    {
      if k < |b.inputs| {
        assert b'.inputs[k] == b.inputs[k];
      }
    }
    forall o | o !in b'.running
      ensures SameMap(gpu0, sl.gpu, o) && SameMap(host0, sl.host, o)
    {
      assert SameMap(gpu0, gpu, o) && SameMap(host0, host, o);
    }
  }

  /** The body of the dispatch loop, for the active task `t` that is not in the batch yet. */
  method AddInput(gpu0: Manager, host0: Manager, ghost disk: Manager, seqs: map<SeqId, Sequence>,
                  ghost home: map<SeqId, Task>, ghost ws: seq<Task>, ghost active: seq<Task>, ghost p: multiset<Task>,
                  ghost others: multiset<Task>, ghost progress0: map<SeqId, nat>, t: Task, budget0: nat, b0: Batch,
                  ghost gpuAtStart: Manager, ghost hostAtStart: Manager, ghost atStart: map<SeqId, nat>)
    returns (gpu: Manager, host: Manager, b: Batch, budget: nat, ghost progress: map<SeqId, nat>, ghost slice: Slice)
    requires Scene(gpu0, host0, disk, seqs, home, ws, active, p, others, progress0) && t in active
    requires ListReady(gpu0, seqs, active)
    requires budget0 > 0 && t.id !in b0.running && SameLists(gpuAtStart, gpu0)
    requires BatchOk(b0, gpuAtStart, seqs, atStart, progress0) && AllComplete(b0.inputs, seqs)
    requires CopiesOk(b0, seqs, gpuAtStart, hostAtStart, gpu0, host0)
    ensures Scene(gpu, host, disk, seqs, home, ws, active, p, others, progress) && ListReady(gpu, seqs, active)
    ensures BatchOk(b, gpuAtStart, seqs, atStart, progress) && SameLists(gpuAtStart, gpu)
    ensures CopiesOk(b, seqs, gpuAtStart, hostAtStart, gpu, host)
    ensures SumTokens(b.inputs) + budget == SumTokens(b0.inputs) + budget0
    ensures (budget > 0 ==> AllComplete(b.inputs, seqs))
    ensures |b.running| == |b.inputs| <= |b0.inputs| + 1
    ensures (b.running == b0.running && TextOf(seqs, t) == []) ||
      (t.id in b.running && b.running == b0.running[t.id := b.running[t.id]])
    ensures t.id in seqs && DispatchOne(gpu0, host0, t.id, seqs[t.id].toks, budget0) == Ok(slice)
    ensures UsedBy(slice) <= budget0
    ensures gpu == slice.gpu && host == slice.host && budget == budget0 - UsedBy(slice)
    ensures b == WithSlice(b0, slice, |seqs[t.id].toks|)
  {
    hide Scene, ListReady, BatchOk, InputOk, FilledOnly, SameLists, Complete, SumTokens, DispatchOne, CopiesOk,
      SliceCopies, Starts, TextOf, AllComplete;
    var sl;
    sl, progress := DispatchTask(gpu0, host0, disk, seqs, home, ws, active, p, others, progress0, t, budget0);
    SameListsTrans(gpuAtStart, gpu0, sl.gpu, t.id);
    gpu, host, b, budget := sl.gpu, sl.host, b0, budget0;
    if sl.fetch != [] {
      b := b.(fetch := b.fetch + [sl.fetch]);
    }
    if sl.input.Some? {
      b, budget := Extend(b, sl.input.value, |seqs[t.id].toks|), budget - |sl.input.value.tokens|;
      if sl.write != [] {
        b := b.(write := b.write + [sl.write]);
      }
    }
    assert b == WithSlice(b0, sl, |seqs[t.id].toks|);
    slice := sl;
    hide WithSlice;
    if sl.input.Some? {
      InputAdded(b0, b, gpuAtStart, hostAtStart, gpu0, host0, seqs, atStart, progress0, t.id, sl, budget0);
    } else {
      NoInput(b0, sl, seqs, t);
    }
    BatchSize(b, gpuAtStart, seqs, atStart, progress);
    BatchSize(b0, gpuAtStart, seqs, atStart, progress0);
  }

  lemma NoInput(b: Batch, sl: Slice, seqs: map<SeqId, Sequence>, t: Task)
    requires sl.input.None? && sl.fetch == [] && t.id in seqs && seqs[t.id].toks == []
    ensures WithSlice(b, sl, |seqs[t.id].toks|) == b && TextOf(seqs, t) == []
  {
  }

  /** The batch with one more input and its copies. */
  lemma InputAdded(b0: Batch, b: Batch, gpuAtStart: Manager, hostAtStart: Manager, gpu: Manager, host: Manager,
                   seqs: map<SeqId, Sequence>, atStart: map<SeqId, nat>, progress0: map<SeqId, nat>, q: SeqId,
                   sl: Slice, budget: nat)
    requires BatchOk(b0, gpuAtStart, seqs, atStart, progress0) && AllComplete(b0.inputs, seqs)
    requires CopiesOk(b0, seqs, gpuAtStart, hostAtStart, gpu, host) && SameLists(gpuAtStart, gpu)
    requires q !in b0.running && q in seqs && sl.input.Some? && sl.input.value.q == q
    requires InputOk(sl.input.value, gpu, seqs, progress0) && Starts(sl.input.value, seqs, gpu, host)
    requires |sl.input.value.tokens| <= budget
    requires sl.input.value.context < |seqs[q].toks| ==> |sl.input.value.tokens| == budget
    requires FilledOnly(gpu.maps, sl.gpu.maps, q) && FilledOnly(host.maps, sl.host.maps, q) && sl.gpu.bs == gpu.bs
    requires q in gpu.maps && q in host.maps && q in sl.gpu.maps && SliceCopies(gpu, host, sl, q)
    requires sl.host.bs == host.bs
    requires sl.gpu.maps[q].filled == sl.input.value.context && b == WithSlice(b0, sl, |seqs[q].toks|)
    ensures BatchOk(b, gpuAtStart, seqs, atStart, progress0[q := sl.input.value.context])
    ensures CopiesOk(b, seqs, gpuAtStart, hostAtStart, sl.gpu, sl.host)
    ensures SumTokens(b.inputs) == SumTokens(b0.inputs) + |sl.input.value.tokens|
    ensures |sl.input.value.tokens| < budget ==> AllComplete(b.inputs, seqs)
    ensures |b.inputs| == |b0.inputs| + 1 && q in b.running && b.running == b0.running[q := b.running[q]]
  {
    hide BatchOk, InputOk, FilledOnly, SameLists, SumTokens, CopiesOk, SliceCopies, Starts, AllComplete;
    var inp := sl.input.value;
    var b1 := Extend(b0, inp, |seqs[q].toks|);
    AllCompleteMeans(b0.inputs, seqs);
    BatchExtended(b0, gpuAtStart, gpu, seqs, atStart, progress0, inp);
    CopiesIrrelevant(b1, b, gpuAtStart, seqs, atStart, progress0[q := inp.context]);
    SumExtended(b0.inputs, inp);
    CompleteUnlessSpent(b0.inputs, inp, gpu, seqs, progress0, budget);
    CopiesMore(b0, b, seqs, gpuAtStart, hostAtStart, gpu, host, q, sl);
  }

  lemma AllCompleteMeans(inputs: seq<Input>, seqs: map<SeqId, Sequence>)
    requires AllComplete(inputs, seqs)
    ensures forall k :: 0 <= k < |inputs| ==> Complete(inputs[k], seqs)
  {
    hide Complete;
  }

  lemma BatchSize(b: Batch, gpu: Manager, seqs: map<SeqId, Sequence>, progress0: map<SeqId, nat>,
                  progress: map<SeqId, nat>)
    requires BatchOk(b, gpu, seqs, progress0, progress)
    ensures |b.running| == |b.inputs|
  {
    hide InputOk, Complete, Recorded, SameOutside, RunningOk, HasInput;
  }

  lemma CompleteUnlessSpent(inputs: seq<Input>, inp: Input, gpu: Manager, seqs: map<SeqId, Sequence>,
                            progress: map<SeqId, nat>, budget: nat)
    requires AllComplete(inputs, seqs) && InputOk(inp, gpu, seqs, progress)
    requires inp.q in seqs && (inp.context < |seqs[inp.q].toks| ==> |inp.tokens| == budget)
    ensures |inp.tokens| < budget ==> AllComplete(inputs + [inp], seqs)
  {
    hide Whole, Covers;
  }

  lemma CopiesIrrelevant(b: Batch, b': Batch, gpu: Manager, seqs: map<SeqId, Sequence>, progress0: map<SeqId, nat>,
                         progress: map<SeqId, nat>)
    requires b'.inputs == b.inputs && b'.running == b.running && BatchOk(b, gpu, seqs, progress0, progress)
    ensures BatchOk(b', gpu, seqs, progress0, progress)
  {
    hide InputOk, Complete, Recorded, SameOutside, RunningOk, HasInput;
  }

  /** The first active tasks with a text have an input each, and no more fits: that are all, or a limit is
      reached. The last input is cut only by the token limit. */
  ghost predicate Greedy(b: Batch, active: seq<Task>, seqs: map<SeqId, Sequence>, maxBatch: nat, maxTokens: nat) {
    && (exists i ::
          Reached(active, i, b.running, seqs) && (i == |active| || |b.inputs| == maxBatch || SumTokens(b.inputs) == maxTokens))
    && (AllComplete(b.inputs, seqs) || SumTokens(b.inputs) == maxTokens)
    && OfActive(b.running, active)
  }

  /** Only active tasks are in the batch. */
  ghost predicate OfActive(running: map<SeqId, bool>, active: seq<Task>) {
    forall q :: q in running ==> q in Ids(active)
  }

  lemma StillActive(running: map<SeqId, bool>, running': map<SeqId, bool>, active: seq<Task>, i: nat)
    requires OfActive(running, active) && i < |active| && running'.Keys <= running.Keys + {active[i].id}
    ensures OfActive(running', active)
  {
    assert Ids(active)[i] == active[i].id;
  }

  /** `dispatch`. It never panics. The batch has at most `maxBatch` inputs with together at most
      `maxTokens` tokens, and no further input would fit; only the last input can be cut. Each input goes
      on exactly where the last one of its sequence since admission ended. */
  method BuildBatch(gpu0: Manager, host0: Manager, ghost disk: Manager, seqs: map<SeqId, Sequence>,
                    ghost home: map<SeqId, Task>, ghost ws: seq<Task>, active: seq<Task>, ghost p: multiset<Task>,
                    ghost others: multiset<Task>, ghost progress0: map<SeqId, nat>, maxBatch: nat, maxTokens: nat)
    returns (gpu: Manager, host: Manager, b: Batch, ghost progress: map<SeqId, nat>)
    requires Scene(gpu0, host0, disk, seqs, home, ws, active, p, others, progress0) && ListReady(gpu0, seqs, active)
    ensures Scene(gpu, host, disk, seqs, home, ws, active, p, others, progress) && ListReady(gpu, seqs, active)
    ensures BatchOk(b, gpu, seqs, progress0, progress)
    ensures |b.inputs| <= maxBatch && SumTokens(b.inputs) <= maxTokens
    ensures Greedy(b, active, seqs, maxBatch, maxTokens)
    ensures CopiesOk(b, seqs, gpu0, host0, gpu, host)
    ensures Dispatching(gpu0, host0, seqs, active, Batch([], map[], [], []), maxTokens, maxBatch) == Ok((gpu, host, b))
  {
    hide Scene, ListReady, InputOk, SameLists, Complete, SumTokens, Reached, BatchOk, AllComplete, Dispatching,
      DispatchOne, WithSlice, UsedBy, CopiesOk, OfActive;
    gpu, host, b, progress := gpu0, host0, Batch([], map[], [], []), progress0;
    var i, budget := 0, maxTokens;
    BatchStarts(gpu0, seqs, active, progress0);
    NoCopies(seqs, gpu0, host0);
    ActiveDistinct(gpu0, host0, disk, seqs, home, ws, active, p, others, progress0);
    assert active[0..] == active;
    while i < |active| && |b.running| < maxBatch && budget > 0
      invariant Scene(gpu, host, disk, seqs, home, ws, active, p, others, progress) && ListReady(gpu, seqs, active)
      invariant BatchOk(b, gpu0, seqs, progress0, progress) && SameLists(gpu0, gpu)
      invariant CopiesOk(b, seqs, gpu0, host0, gpu, host)
      invariant |b.running| == |b.inputs| <= maxBatch && SumTokens(b.inputs) + budget == maxTokens
      invariant budget > 0 ==> AllComplete(b.inputs, seqs)
      invariant i <= |active| && Reached(active, i, b.running, seqs) && OfActive(b.running, active)
      invariant Dispatching(gpu, host, seqs, active[i..], b, budget, maxBatch) ==
        Dispatching(gpu0, host0, seqs, active, Batch([], map[], [], []), maxTokens, maxBatch)
      decreases |active| - i
    {
      ghost var running, gpu1, host1, b1, budget1 := b.running, gpu, host, b, budget;
      NotReached(active, i, running, seqs);
      ghost var slice;
      gpu, host, b, budget, progress, slice := AddInput(gpu, host, disk, seqs, home, ws, active, p, others, progress,
                                                        active[i], budget, b, gpu0, host0, progress0);
      ReachedNext(active, i, running, b.running, seqs);
      StillActive(running, b.running, active, i);
      DispatchingStep(gpu1, host1, seqs, active, i, b1, budget1, maxBatch, slice);
      i := i + 1;
    }
    DispatchingDone(gpu, host, seqs, active[i..], b, budget, maxBatch);
    BatchLists(b, gpu0, gpu, seqs, progress0, progress);
  }

  lemma BatchLists(b: Batch, gpu0: Manager, gpu: Manager, seqs: map<SeqId, Sequence>, progress0: map<SeqId, nat>,
                   progress: map<SeqId, nat>)
    requires BatchOk(b, gpu0, seqs, progress0, progress) && SameLists(gpu0, gpu)
    ensures BatchOk(b, gpu, seqs, progress0, progress)
  {
    hide InputOk, Complete, Recorded, SameOutside, RunningOk, HasInput;
    assert SameLists(gpu, gpu0);
    forall k | 0 <= k < |b.inputs|
      ensures InputOk(b.inputs[k], gpu, seqs, progress0)
    {
      InputLists(b.inputs[k], gpu, gpu0, seqs, progress0, progress0);
    }
  }

  lemma BatchStarts(gpu: Manager, seqs: map<SeqId, Sequence>, active: seq<Task>, progress: map<SeqId, nat>)
    ensures BatchOk(Batch([], map[], [], []), gpu, seqs, progress, progress) && SameLists(gpu, gpu)
    ensures SumTokens([]) == 0 && AllComplete([], seqs) && Reached(active, 0, map[], seqs) && OfActive(map[], active)
  {
  }

  lemma NotReached(active: seq<Task>, i: nat, running: map<SeqId, bool>, seqs: map<SeqId, Sequence>)
    requires Reached(active, i, running, seqs) && i < |active|
    ensures active[i].id !in running
  {
  }

  /** Batch and worker agree on the length of every input that is complete or ends inside a block, and
      on no other. */
  lemma BatchAgreesWithWorker(b: Batch, gpu: Manager, seqs: map<SeqId, Sequence>, progress0: map<SeqId, nat>,
                              progress: map<SeqId, nat>, k: nat)
    requires BatchOk(b, gpu, seqs, progress0, progress) && k < |b.inputs|
    ensures var inp := b.inputs[k];
      WorkerLength(inp, gpu.bs) == inp.context <==> Complete(inp, seqs) || !Aligned(inp.context, gpu.bs)
    ensures k < |b.inputs| - 1 ==> WorkerLength(b.inputs[k], gpu.bs) == b.inputs[k].context
  {
    hide Whole, Covers, WorkerLength, Aligned, Recorded, SameOutside, RunningOk, HasInput;
    var inp := b.inputs[k];
    assert InputOk(inp, gpu, seqs, progress0);
    WorkerAgreement(gpu.bs, |seqs[inp.q].toks|, gpu.maps[inp.q].ids, inp);
  }
}
