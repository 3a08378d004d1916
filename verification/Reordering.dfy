/** The pass of the scheduler that lets older waiting tasks overtake newer active ones
    (runtime/src/llm_engine/scheduler.rs, lines 654-740). */
module Reordering {
  import opened Prelude
  import opened BlockPool
  import opened BlockManagerSpec
  import opened BlockManagerInv
  import opened Admission
  import opened Preemption
  import opened Reclaiming
  import opened Queues
  import opened SchedulerState
  import opened QueuePasses
  import opened StagedCopy

  /** Every task of `q` arrived after time `a`. */
  ghost predicate AllAfter(q: seq<Task>, a: int) {
    forall i :: 0 <= i < |q| ==> a < q[i].arrival
  }

  // ---------------------------------------------------------------- order

  /** Where the tasks at the back of the queue that arrived after time `a` begin. */
  function NewerFrom(q: seq<Task>, a: int): (n: nat)
    ensures n <= |q| && AllAfter(q[n..], a) && (n > 0 ==> q[n - 1].arrival <= a)
  {
    if q == [] || q[|q| - 1].arrival <= a then |q| else NewerFrom(q[..|q| - 1], a)
  }

  /** Split off the tasks at the back that arrived after time `a`. */
  method SplitNewer(active: seq<Task>, a: nat) returns (older: seq<Task>, promoted: seq<Task>)
    ensures active == older + promoted && AllAfter(promoted, a)
    ensures |older| == NewerFrom(active, a)
    ensures Sorted(active) ==> AllUpTo(older, a)
  {
    hide NewerFrom, AllAfter, AllUpTo, Sorted;
    older, promoted := active, [];
    NoneAfter(a);
    assert active == active + [];
    while older != [] && a < older[|older| - 1].arrival
      invariant active == older + promoted && AllAfter(promoted, a)
      invariant NewerFrom(older, a) == NewerFrom(active, a)
    {
      SplitStep(older, promoted, a);
      promoted := [older[|older| - 1]] + promoted;
      older := older[..|older| - 1];
    }
    SplitEnd(older, promoted, a);
  }

  lemma NoneAfter(a: int)
    ensures AllAfter([], a)
  {
  }

  /** One more task at the back is newer. */
  lemma SplitStep(older: seq<Task>, promoted: seq<Task>, a: int)
    requires older != [] && a < older[|older| - 1].arrival && AllAfter(promoted, a)
    ensures var n := |older| - 1;
      && older + promoted == older[..n] + ([older[n]] + promoted) && AllAfter([older[n]] + promoted, a)
      && NewerFrom(older[..n], a) == NewerFrom(older, a)
  {
    hide NewerFrom, AllAfter;
    NewerFromLess(older, a);
    AfterMore(promoted, older[|older| - 1], a);
    LastMoves(older, promoted);
  }

  lemma LastMoves(older: seq<Task>, promoted: seq<Task>)
    requires older != []
    ensures var n := |older| - 1; older + promoted == older[..n] + ([older[n]] + promoted)
  {
    var l, r := older + promoted, older[..|older| - 1] + ([older[|older| - 1]] + promoted);
    assert |l| == |r|;
    assert forall i :: 0 <= i < |l| ==> l[i] == r[i];
  }

  lemma NewerFromLess(older: seq<Task>, a: int)
    requires older != [] && a < older[|older| - 1].arrival
    ensures NewerFrom(older[..|older| - 1], a) == NewerFrom(older, a)
  {
    hide AllAfter;
  }

  lemma AfterMore(promoted: seq<Task>, t: Task, a: int)
    requires AllAfter(promoted, a) && a < t.arrival
    ensures AllAfter([t] + promoted, a)
  {
  }

  lemma SplitEnd(older: seq<Task>, promoted: seq<Task>, a: int)
    requires older == [] || older[|older| - 1].arrival <= a
    ensures NewerFrom(older, a) == |older| && (Sorted(older + promoted) ==> AllUpTo(older, a))
  {
    assert forall i :: 0 <= i < |older| ==> older[i] == (older + promoted)[i];
  }

  /** An older task takes its place among the active ones. */
  lemma OvertakeSorted(older: seq<Task>, promoted: seq<Task>, w: Task, left: nat)
    requires Sorted(older + promoted) && AllUpTo(older, w.arrival) && AllAfter(promoted, w.arrival)
    requires left <= |promoted|
    ensures Sorted(older + [w] + promoted[..left]) && Sorted(older)
  {
    var all, r := older + promoted, older + [w] + promoted[..left];
    assert forall i :: 0 <= i < |older| ==> older[i] == all[i];
    forall i, j | 0 <= i < j < |r|
      ensures r[i].arrival <= r[j].arrival
    {
      assert r[i] == if i < |older| then all[i] else if i == |older| then w else all[i - 1];
      assert r[j] == if j < |older| then all[j] else if j == |older| then w else all[j - 1];
      assert i < |older| ==> older[i] == all[i];
      assert j > |older| ==> promoted[j - 1 - |older|] == all[j - 1];
    }
  }

  lemma AppendSorted(next: seq<Task>, w: Task, a: int)
    requires Sorted(next) && AllUpTo(next, a) && a <= w.arrival
    ensures Sorted(next + [w]) && AllUpTo(next + [w], w.arrival) && AllUpTo(next, w.arrival)
  {
  }

  lemma {:induction false} CountAllNewer(q: seq<Task>, a: int)
    requires AllAfter(q, a)
    ensures CountNewer(q, a) == |q|
  {
    if q != [] {
      CountAllNewer(q[1..], a);
    }
  }

  /** Overtaking leaves the tasks still promoted as the only newer ones. */
  lemma CountOvertaken(older: seq<Task>, promoted: seq<Task>, w: Task, left: nat, a: int)
    requires AllUpTo(older, w.arrival) && AllAfter(promoted, w.arrival) && left <= |promoted| && a <= w.arrival
    ensures CountNewer(older + [w] + promoted[..left], w.arrival) == left && CountNewer(older, w.arrival) == 0
    ensures |promoted| <= CountNewer(older + promoted, a)
  {
    CountNewerNone(older, w.arrival);
    CountNewerNone([w], w.arrival);
    CountAllNewer(promoted[..left], w.arrival);
    CountNewerAppend(older + [w], promoted[..left], w.arrival);
    CountNewerAppend(older, [w], w.arrival);
    CountNewerAppend(older, promoted, w.arrival);
    CountAllNewer(promoted, w.arrival);
    CountNewerMono(older + promoted, a, w.arrival);
  }

  lemma CountInserted(q: seq<Task>, w: Task, k: nat, a: int)
    requires k <= |q| && a <= w.arrival
    ensures CountNewer(InsertAt(q, w, k), w.arrival) <= CountNewer(q, a)
  {
    assert q == q[..k] + q[k..];
    CountNewerAppend(q[..k] + [w], q[k..], w.arrival);
    CountNewerAppend(q[..k], [w], w.arrival);
    CountNewerAppend(q[..k], q[k..], w.arrival);
    CountNewerMono(q, a, w.arrival);
    CountNewerNone([w], w.arrival);
  }

  // ---------------------------------------------------------------- moving the waiting task

  /** `w` moves from between the waiting lists into the active ones. */
  lemma MovesMiddle(next: seq<Task>, w: Task, rest: seq<Task>, before: seq<Task>, after: seq<Task>)
    ensures Moves(w, next + [w] + rest, before + after, next + rest, before + [w] + after)
  {
    assert multiset(next + [w] + rest) == multiset(next + rest) + multiset{w};
    assert (next + [w] + rest)[|next|] == w;
  }

  lemma SceneLose(gpu: Manager, host: Manager, disk: Manager, seqs: map<SeqId, Sequence>, home: map<SeqId, Task>,
                  next: seq<Task>, w: Task, rest: seq<Task>, acts: seq<Task>, p: multiset<Task>, others: multiset<Task>,
                  progress: map<SeqId, nat>)
    requires Scene(gpu, host, disk, seqs, home, next + [w] + rest, acts, p, others, progress)
    ensures Scene(gpu, host, disk, seqs, home, next + rest, acts, p, others + multiset{w}, progress)
  {
    hide DevicesOk, TasksOk, ProgressOk;
    assert multiset(next + [w] + rest) == multiset(next + rest) + multiset{w};
    assert multiset(next + rest) + multiset(acts) + p + (others + multiset{w}) ==
      multiset(next + [w] + rest) + multiset(acts) + p + others;
    assert forall t :: t in multiset(next + rest) ==> t in multiset(next + [w] + rest);
  }

  /** The active tasks are other tasks than the waiting `w`, and have a place on the GPU. */
  lemma SceneActive(gpu: Manager, host: Manager, disk: Manager, seqs: map<SeqId, Sequence>, home: map<SeqId, Task>,
                    ws: seq<Task>, w: Task, acts: seq<Task>, p: multiset<Task>, others: multiset<Task>,
                    progress: map<SeqId, nat>)
    requires Scene(gpu, host, disk, seqs, home, ws, acts, p, others, progress) && w in ws
    ensures w.id in seqs && Inv(gpu, TextsOf(seqs), multiset{})
    ensures forall i, j :: 0 <= i < j < |acts| ==> acts[i].id != acts[j].id
    ensures forall t :: t in acts ==> t.id != w.id && t.id in seqs && t.id in gpu.maps
  {
    hide Inv, HostAligned, AllSettled, ProgressOk, TasksOk, Placed;
    var all := multiset(ws) + multiset(acts) + p + others;
    Within(multiset(ws), multiset(acts), p, others);
    DistinctTasks(all, home, acts);
    InPlace(gpu, host, multiset(ws), multiset(acts), p, all, home, seqs, w);
    forall t | t in acts
      ensures t.id != w.id && t.id in seqs && t.id in gpu.maps
    {
      InPlace(gpu, host, multiset(ws), multiset(acts), p, all, home, seqs, t);
      OtherTask(all, home, multiset(ws), multiset(acts), w, t);
    }
  }

  /** The active tasks behind `older` can be preempted for `w`. */
  lemma SceneVictims(gpu: Manager, host: Manager, disk: Manager, seqs: map<SeqId, Sequence>, home: map<SeqId, Task>,
                     next: seq<Task>, w: Task, rest: seq<Task>, older: seq<Task>, promoted: seq<Task>,
                     p: multiset<Task>, others: multiset<Task>, progress: map<SeqId, nat>)
    requires Scene(gpu, host, disk, seqs, home, next + [w] + rest, older + promoted, p, others, progress)
    ensures w.id in seqs && Victims(gpu, TextsOf(seqs), w.id, seqs[w.id].toks, Ids(promoted))
    ensures forall t :: t in older + promoted ==> t.id != w.id && t.id in seqs && t.id in gpu.maps
    ensures forall i, j :: 0 <= i < |older| && 0 <= j < |promoted| ==> older[i].id != promoted[j].id
  {
    hide Inv, Scene;
    assert (next + [w] + rest)[|next|] == w;
    SceneActive(gpu, host, disk, seqs, home, next + [w] + rest, w, older + promoted, p, others, progress);
    assert forall i :: 0 <= i < |promoted| ==> promoted[i] == (older + promoted)[|older| + i];
    assert forall i :: 0 <= i < |older| ==> older[i] == (older + promoted)[i];
  }

  // ---------------------------------------------------------------- preempting for one task

  /** `PreemptUntil` for the task `w`. */
  function PreemptionOf(gpu: Manager, seqs: map<SeqId, Sequence>, w: Task, promoted: seq<Task>): Outcome<(Manager, nat, bool)> {
    PreemptUntil(gpu, w.id, TextOf(seqs, w), WATERMARK, Ids(promoted))
  }

  /** What is left of the preemption after its first round. */
  ghost predicate AfterRound(gpu0: Manager, gpu: Manager, seqs: map<SeqId, Sequence>, w: Task, promoted: seq<Task>,
                             r: Outcome<bool>)
    requires promoted != []
  {
    var n := |promoted| - 1;
    PreemptionOf(gpu0, seqs, w, promoted) ==
      match r
      case Panic(f) => Panic(f)
      case Ok(admitted) => if admitted then Ok((gpu, n, true)) else PreemptionOf(gpu, seqs, w, promoted[..n])
  }

  lemma OneRound(gpu0: Manager, gpu1: Manager, gpu: Manager, seqs: map<SeqId, Sequence>, w: Task, promoted: seq<Task>,
                 r: Outcome<bool>)
    requires promoted != [] && w.id in seqs
    requires FreeSeq(gpu0, promoted[|promoted| - 1].id, false) == Ok(gpu1)
    requires TryAlloc(gpu1, w.id, seqs[w.id].toks, WATERMARK) == if r.Ok? then Ok((gpu, r.value)) else Panic(r.fault)
    ensures AfterRound(gpu0, gpu, seqs, w, promoted, r)
  {
    hide FreeSeq, TryAlloc;
    var n := |promoted| - 1;
    assert Ids(promoted)[..n] == Ids(promoted[..n]);
  }

  /** One round: preempt the newest promoted task and try to admit `w`. */
  method PreemptOne(gpu0: Manager, host0: Manager, ghost disk: Manager, seqs: map<SeqId, Sequence>,
                    ghost home: map<SeqId, Task>, ghost next: seq<Task>, w: Task, waiting0: seq<Task>,
                    ghost older: seq<Task>, promoted: seq<Task>, ghost p: multiset<Task>, ghost others: multiset<Task>,
                    ghost progress0: map<SeqId, nat>)
    returns (r: Outcome<bool>, gpu: Manager, host: Manager, waiting: seq<Task>, ghost progress: map<SeqId, nat>)
    requires Scene(gpu0, host0, disk, seqs, home, next + [w] + waiting0, older + promoted, p, others, progress0)
    requires promoted != [] && Sorted(waiting0) && ListReady(gpu0, seqs, older + promoted)
    ensures r.Panic? ==> r.fault == Exhausted
    ensures AfterRound(gpu0, gpu, seqs, w, promoted, r)
    ensures r == Ok(false) ==>
      && Scene(gpu, host, disk, seqs, home, next + [w] + waiting, older + promoted[..|promoted| - 1], p, others,
               progress)
      && ListReady(gpu, seqs, older + promoted[..|promoted| - 1])
      && SameTasks(next + [w] + waiting0, older + promoted, next + [w] + waiting, older + promoted[..|promoted| - 1])
    ensures r == Ok(true) ==>
      && Scene(gpu, host, disk, seqs, home, next + waiting, older + [w] + promoted[..|promoted| - 1], p, others,
               progress)
      && ListReady(gpu, seqs, older + [w] + promoted[..|promoted| - 1])
      && SameTasks(next + [w] + waiting0, older + promoted, next + waiting, older + [w] + promoted[..|promoted| - 1])
    ensures Sorted(waiting) && |waiting| == |waiting0| + 1 && progress == progress0 - {promoted[|promoted| - 1].id}
    ensures waiting == Insert(waiting0, promoted[|promoted| - 1]) && Steady(gpu0, host0, gpu, host)
    ensures host == if r == Ok(true) then ExtendOn(host0, seqs, w.id) else host0
    ensures forall a :: AllFrom(waiting0, a) && a <= promoted[|promoted| - 1].arrival ==> AllFrom(waiting, a)
  {
    hide Scene, DevicesOk, SlotsOnly, ListReady, SameTasks, Moves, TryAlloc, FreeSeq, AllFrom, Sorted, PreemptUntil,
      AfterRound, Insert,
      Steady, ExtendOn;
    ghost var acts := older + promoted;
    ghost var n := |promoted| - 1;
    ghost var rest := older + promoted[..n];
    assert acts[..|acts| - 1] == rest;
    ReadyPrefix(gpu0, seqs, rest, acts);
    var gpu1;
    gpu1, waiting, progress := MoveBack(gpu0, host0, disk, seqs, home, next + [w], waiting0, acts, p, others, progress0,
      promoted[|promoted| - 1], rest, false);
    ghost var ws := next + [w] + waiting;
    assert ws[|next|] == w;
    SceneTask(gpu1, host0, disk, seqs, home, ws, rest, p, others, progress, w);
    r, gpu, host := AdmitTask(gpu1, host0, disk, seqs, w.id);
    OneRound(gpu0, gpu1, gpu, seqs, w, promoted, r);
    SteadyTrans(gpu0, host0, gpu1, host0, gpu, host);
    if r == Ok(true) {
      MovesMiddle(next, w, waiting, older, promoted[..n]);
      SceneAdmit(gpu1, host0, disk, seqs, home, ws, rest, p, others, progress, w, gpu, host, next + waiting,
                 older + [w] + promoted[..n]);
      SameTasksTrans(next + [w] + waiting0, acts, ws, rest, next + waiting, older + [w] + promoted[..n]);
    }
  }

  lemma ReadyPrefix(gpu: Manager, seqs: map<SeqId, Sequence>, ts: seq<Task>, all: seq<Task>)
    requires ListReady(gpu, seqs, all) && ts <= all
    ensures ListReady(gpu, seqs, ts)
  {
    hide Ready;
    assert forall i :: 0 <= i < |ts| ==> ts[i] == all[i];
  }

  /** The preemption loop: preempt promoted tasks, newest first, until `w` is admitted. It computes
      `PreemptUntil` on the GPU; the preempted tasks are in their places among the waiting ones. */
  method PreemptFor(gpu0: Manager, host0: Manager, ghost disk: Manager, seqs: map<SeqId, Sequence>,
                    ghost home: map<SeqId, Task>, ghost next: seq<Task>, w: Task, waiting0: seq<Task>,
                    ghost older: seq<Task>, promoted: seq<Task>, ghost p: multiset<Task>, ghost others: multiset<Task>,
                    ghost progress0: map<SeqId, nat>)
    returns (r: Outcome<bool>, gpu: Manager, host: Manager, waiting: seq<Task>, left: seq<Task>,
             ghost progress: map<SeqId, nat>)
    requires Scene(gpu0, host0, disk, seqs, home, next + [w] + waiting0, older + promoted, p, others, progress0)
    requires Sorted(waiting0) && ListReady(gpu0, seqs, older + promoted)
    requires AllFrom(waiting0, w.arrival) && AllAfter(promoted, w.arrival)
    ensures r.Panic? ==> r.fault == Exhausted
    ensures PreemptionOf(gpu0, seqs, w, promoted) == if r.Ok? then Ok((gpu, |left|, r.value)) else Panic(r.fault)
    ensures r == Ok(false) ==>
      && Scene(gpu, host, disk, seqs, home, next + [w] + waiting, older, p, others, progress)
      && ListReady(gpu, seqs, older) && left == []
      && SameTasks(next + [w] + waiting0, older + promoted, next + [w] + waiting, older)
    ensures r == Ok(true) ==>
      && Scene(gpu, host, disk, seqs, home, next + waiting, older + [w] + left, p, others, progress)
      && ListReady(gpu, seqs, older + [w] + left)
      && SameTasks(next + [w] + waiting0, older + promoted, next + waiting, older + [w] + left)
    ensures Sorted(waiting) && AllFrom(waiting, w.arrival)
    ensures left <= promoted && |waiting| == |waiting0| + |promoted| - |left|
    ensures progress == progress0 - IdSet(promoted[|left|..])
    ensures host == if r == Ok(true) then ExtendOn(host0, seqs, w.id) else host0
    ensures waiting == InsertBack(waiting0, promoted[|left|..]) && Steady(gpu0, host0, gpu, host)
  {
    hide Scene, ListReady, SameTasks, AllFrom, AllAfter, Sorted, PreemptionOf, AfterRound, Steady, Insert, InsertBack,
      ExtendOn, IdSet;
    r, gpu, host, waiting, left, progress := Ok(false), gpu0, host0, waiting0, promoted, progress0;
    SameTasksRefl(next + [w] + waiting0, older + promoted);
    IdSetNone();
    assert promoted[|promoted|..] == [] && progress0 - {} == progress0;
    SteadySame(gpu0, host0);
    InsertBackNone(waiting0, promoted);
    while left != []
      invariant Scene(gpu, host, disk, seqs, home, next + [w] + waiting, older + left, p, others, progress)
      invariant Sorted(waiting) && ListReady(gpu, seqs, older + left)
      invariant PreemptionOf(gpu0, seqs, w, promoted) == PreemptionOf(gpu, seqs, w, left)
      invariant SameTasks(next + [w] + waiting0, older + promoted, next + [w] + waiting, older + left)
      invariant AllFrom(waiting, w.arrival) && progress == progress0 - IdSet(promoted[|left|..]) && host == host0
      invariant left <= promoted && |waiting| == |waiting0| + |promoted| - |left|
      invariant r == Ok(false) && waiting == InsertBack(waiting0, promoted[|left|..]) && Steady(gpu0, host0, gpu, host)
      decreases |left|
    {
      ghost var before, gpu1, host1, all := waiting, gpu, host, left;
      InsertBackMore(waiting0, promoted, |left| - 1);
      AllAfterAt(promoted, w.arrival, |left| - 1);
      assert (older + left)[|older| + |left| - 1] == left[|left| - 1];
      ProgressDrop(progress0, progress, promoted, |left| - 1);
      r, gpu, host, waiting, progress := PreemptOne(gpu, host, disk, seqs, home, next, w, waiting, older, left, p,
                                                    others, progress);
      left := left[..|left| - 1];
      RoundMeans(gpu1, gpu, seqs, w, all, r);
      SteadyTrans(gpu0, host0, gpu1, host1, gpu, host);
      if r.Panic? || r.value {
        assert r.Ok? ==> r == Ok(true);
        SameTasksAfter(next + [w] + waiting0, older + promoted, next + [w] + before, older + all, next + waiting,
                       older + [w] + left, r == Ok(true));
        return;
      }
      SameTasksTrans(next + [w] + waiting0, older + promoted, next + [w] + before, older + all, next + [w] + waiting,
                     older + left);
    }
    assert older + left == older;
    NoneLeft(gpu, seqs, w);
  }

  lemma AllAfterAt(q: seq<Task>, a: int, i: nat)
    requires AllAfter(q, a) && i < |q|
    ensures a < q[i].arrival
  {
  }

  lemma RoundMeans(gpu0: Manager, gpu: Manager, seqs: map<SeqId, Sequence>, w: Task, promoted: seq<Task>,
                   r: Outcome<bool>)
    requires promoted != [] && AfterRound(gpu0, gpu, seqs, w, promoted, r)
    ensures r.Panic? ==> PreemptionOf(gpu0, seqs, w, promoted) == Panic(r.fault)
    ensures r == Ok(true) ==> PreemptionOf(gpu0, seqs, w, promoted) == Ok((gpu, |promoted| - 1, true))
    ensures r == Ok(false) ==>
      PreemptionOf(gpu0, seqs, w, promoted) == PreemptionOf(gpu, seqs, w, promoted[..|promoted| - 1])
  {
    hide PreemptionOf;
  }

  lemma InsertBackNone(q: seq<Task>, ts: seq<Task>)
    ensures InsertBack(q, ts[|ts|..]) == q
  {
  }

  lemma InsertBackMore(q: seq<Task>, ts: seq<Task>, i: nat)
    requires i < |ts|
    ensures InsertBack(q, ts[i..]) == Insert(InsertBack(q, ts[i + 1..]), ts[i])
  {
    hide Insert;
    assert ts[i..][0] == ts[i] && ts[i..][1..] == ts[i + 1..];
  }

  lemma NoneLeft(gpu: Manager, seqs: map<SeqId, Sequence>, w: Task)
    ensures PreemptionOf(gpu, seqs, w, []) == Ok((gpu, 0, false))
  {
  }

  lemma SameTasksAfter(a: seq<Task>, b: seq<Task>, c: seq<Task>, d: seq<Task>, e: seq<Task>, f: seq<Task>, done: bool)
    requires SameTasks(a, b, c, d) && (done ==> SameTasks(c, d, e, f))
    ensures done ==> SameTasks(a, b, e, f)
  {
  }

  // ---------------------------------------------------------------- one waiting task

  /** The active tasks newer than `a` were active before, with the same blocks. */
  ghost predicate NewerKept(gpu0: Manager, gpu: Manager, active0: seq<Task>, active: seq<Task>, a: int) {
    && gpu.bs == gpu0.bs
    && forall t :: t in active && t.arrival > a ==>
         t in active0 && t.id in gpu0.maps && t.id in gpu.maps && gpu.maps[t.id] == gpu0.maps[t.id]
  }

  /** All tasks are still there, but for the `lost` ones. */
  ghost predicate Conserved(ws0: seq<Task>, acts0: seq<Task>, ws: seq<Task>, acts: seq<Task>, lost: seq<Task>) {
    multiset(ws) + multiset(acts) + multiset(lost) == multiset(ws0) + multiset(acts0)
  }

  /** A lost task had the preempted ones compute a full block that it shares. */
  ghost predicate LostOnlyIfShared(gpu: Manager, seqs: map<SeqId, Sequence>, w: Task, promoted: seq<Task>,
                                   lost: seq<Task>) {
    lost == [] || (lost == [w] && !NothingShared(gpu, TextsOf(seqs), TextOf(seqs, w), Ids(promoted)))
  }

  /** `can_alloc_infer_task` with the blocks of the promoted tasks. */
  function Promising(gpu: Manager, seqs: map<SeqId, Sequence>, w: Task, promoted: seq<Task>): Outcome<bool> {
    CanAllocWith(gpu, w.id, TextOf(seqs, w), Reclaimable(gpu, Ids(promoted)), WATERMARK)
  }

  /** What preemption does to the GPU, and that it admits `w` when nothing is shared. */
  lemma PreemptionOutcome(gpu0: Manager, gpu: Manager, seqs: map<SeqId, Sequence>, w: Task, promoted: seq<Task>,
                          left: nat, admitted: bool)
    requires w.id in seqs && Victims(gpu0, TextsOf(seqs), w.id, seqs[w.id].toks, Ids(promoted))
    requires PreemptionOf(gpu0, seqs, w, promoted) == Ok((gpu, left, admitted))
    requires promoted != [] && Promising(gpu0, seqs, w, promoted) == Ok(true)
    ensures Preempted(gpu0, gpu, TextsOf(seqs), w.id, seqs[w.id].toks, Ids(promoted), left, admitted)
    ensures LostOnlyIfShared(gpu0, seqs, w, promoted, if admitted then [] else [w])
    ensures !admitted <==> NeverFits(gpu0, w.id, seqs[w.id].toks, WATERMARK, Ids(promoted))
  {
    hide Inv, Victims, PreemptUntil, Preempted, NothingShared, CanAllocWith, Reclaimable, NeverFits, FirstFit,
      ShortAfter;
    PreemptionExact(gpu0, TextsOf(seqs), w.id, seqs[w.id].toks, WATERMARK, Ids(promoted));
    PreemptUntilSafe(gpu0, TextsOf(seqs), w.id, seqs[w.id].toks, WATERMARK, Ids(promoted));
    if NothingShared(gpu0, TextsOf(seqs), seqs[w.id].toks, Ids(promoted)) {
      ReclaimSound(gpu0, TextsOf(seqs), w.id, seqs[w.id].toks, WATERMARK, Ids(promoted));
    }
  }

  lemma NewerKeptOvertaken(gpu0: Manager, gpu: Manager, texts: Texts, toks: seq<Token>, older: seq<Task>,
                           promoted: seq<Task>, w: Task, left: nat, admitted: bool)
    requires AllUpTo(older, w.arrival) && left <= |promoted|
    requires forall i :: 0 <= i < |promoted| ==> promoted[i].id in gpu0.maps && promoted[i].id != w.id
    requires forall i, j :: 0 <= i < j < |promoted| ==> promoted[i].id != promoted[j].id
    requires Preempted(gpu0, gpu, texts, w.id, toks, Ids(promoted), left, admitted)
    ensures NewerKept(gpu0, gpu, older + promoted, older + [w] + promoted[..left], w.arrival)
    ensures NewerKept(gpu0, gpu, older + promoted, older, w.arrival)
  {
    hide Inv;
    var acts := older + [w] + promoted[..left];
    forall i | 0 <= i < left
      ensures promoted[i] in older + promoted && promoted[i].id in gpu.maps
      ensures gpu.maps[promoted[i].id] == gpu0.maps[promoted[i].id]
    {
      assert (older + promoted)[|older| + i] == promoted[i];
      assert promoted[i].id !in Ids(promoted)[left..];
    }
    forall t | t in acts && t.arrival > w.arrival
      ensures t in promoted[..left]
    {
    }
  }

  /** What the preemption of `promoted` tasks for `w` does to the GPU and the queues. */
  ghost predicate Overtaken(gpu0: Manager, seqs: map<SeqId, Sequence>, w: Task, older: seq<Task>, promoted: seq<Task>,
                            rest: seq<Task>, gpu: Manager, waiting: seq<Task>, active: seq<Task>) {
    match PreemptionOf(gpu0, seqs, w, promoted)
    case Panic(_) => false
    case Ok((g, left, admitted)) =>
      && gpu == g && left <= |promoted|
      && active == (if admitted then older + [w] + promoted[..left] else older)
      && waiting == InsertBack(rest, promoted[left..])
  }

  /** What it does to the host and to the progress of the tasks. */
  ghost predicate Changed(gpu0: Manager, seqs: map<SeqId, Sequence>, w: Task, promoted: seq<Task>, host0: Manager,
                          host: Manager, progress0: map<SeqId, nat>, progress: map<SeqId, nat>) {
    match PreemptionOf(gpu0, seqs, w, promoted)
    case Panic(_) => false
    case Ok((_, left, admitted)) =>
      && left <= |promoted| && progress == progress0 - IdSet(promoted[left..])
      && host == if admitted then ExtendOn(host0, seqs, w.id) else host0
  }

  /** `w` takes the place of promoted tasks, which wait in turn; or it is lost. */
  method Overtake(gpu0: Manager, host0: Manager, ghost disk: Manager, seqs: map<SeqId, Sequence>,
                  ghost home: map<SeqId, Task>, ghost next: seq<Task>, w: Task, waiting0: seq<Task>, older: seq<Task>,
                  promoted: seq<Task>, ghost p: multiset<Task>, ghost others: multiset<Task>,
                  ghost progress0: map<SeqId, nat>)
    returns (r: Outcome<()>, gpu: Manager, host: Manager, waiting: seq<Task>, active: seq<Task>, ghost lost: seq<Task>,
             ghost progress: map<SeqId, nat>)
    requires Scene(gpu0, host0, disk, seqs, home, next + [w] + waiting0, older + promoted, p, others, progress0)
    requires Sorted(waiting0) && AllFrom(waiting0, w.arrival) && ListReady(gpu0, seqs, older + promoted)
    requires Sorted(older + promoted) && AllUpTo(older, w.arrival) && AllAfter(promoted, w.arrival)
    requires promoted != [] && Promising(gpu0, seqs, w, promoted) == Ok(true)
    ensures r.Panic? ==> r.fault == Exhausted && PreemptionOf(gpu0, seqs, w, promoted) == Panic(Exhausted)
    ensures r.Ok? ==>
      && Scene(gpu, host, disk, seqs, home, next + waiting, active, p, others + multiset(lost), progress)
      && ListReady(gpu, seqs, active) && Sorted(active) && Sorted(waiting) && AllFrom(waiting, w.arrival)
      && Conserved(next + [w] + waiting0, older + promoted, next + waiting, active, lost)
      && |waiting| + CountNewer(active, w.arrival) == |waiting0| + |promoted|
      && NewerKept(gpu0, gpu, older + promoted, active, w.arrival)
      && LostOnlyIfShared(gpu0, seqs, w, promoted, lost) && Changed(gpu0, seqs, w, promoted, host0, host, progress0,
                                                                    progress)
      && Overtaken(gpu0, seqs, w, older, promoted, waiting0, gpu, waiting, active)
      && lost == (if NeverFits(gpu0, w.id, TextOf(seqs, w), WATERMARK, Ids(promoted)) then [w] else [])
    ensures Steady(gpu0, host0, gpu, host)
  {
    hide Scene, Inv, ListReady, SameTasks, AllFrom, AllUpTo, AllAfter, Sorted, PreemptionOf, NewerKept,
      LostOnlyIfShared,
      Promising, CountNewer, Conserved, Victims, Preempted, Steady, InsertBack, NeverFits, ExtendOn, IdSet;
    SceneVictims(gpu0, host0, disk, seqs, home, next, w, waiting0, older, promoted, p, others, progress0);
    VictimsApart(gpu0, TextsOf(seqs), w, seqs[w.id].toks, promoted);
    var admitted, left;
    admitted, gpu, host, waiting, left, progress := PreemptFor(gpu0, host0, disk, seqs, home, next, w, waiting0, older,
                                                               promoted, p,
      others, progress0);
    if admitted.Panic? {
      return Panic(admitted.fault), gpu, host, waiting, [], [], progress;
    }
    PreemptionOutcome(gpu0, gpu, seqs, w, promoted, |left|, admitted.value);
    NewerKeptOvertaken(gpu0, gpu, TextsOf(seqs), seqs[w.id].toks, older, promoted, w, |left|, admitted.value);
    OvertakeSorted(older, promoted, w, |left|);
    CountOvertaken(older, promoted, w, |left|, w.arrival);
    assert left == promoted[..|left|];
    r := Ok(());
    if admitted.value {
      assert admitted == Ok(true);
      active, lost := older + [w] + left, [];
      ConservedAll(next + [w] + waiting0, older + promoted, next + waiting, active);
      assert others + multiset(lost) == others;
    } else {
      active, lost := older, [w];
      SceneLose(gpu, host, disk, seqs, home, next, w, waiting, older, p, others, progress);
      ConservedButOne(next + [w] + waiting0, older + promoted, next, w, waiting, older);
      assert multiset(lost) == multiset{w};
    }
  }

  lemma VictimsApart(gpu: Manager, texts: Texts, w: Task, toks: seq<Token>, promoted: seq<Task>)
    requires Victims(gpu, texts, w.id, toks, Ids(promoted))
    ensures forall i :: 0 <= i < |promoted| ==> promoted[i].id in gpu.maps && promoted[i].id != w.id
    ensures forall i, j :: 0 <= i < j < |promoted| ==> promoted[i].id != promoted[j].id
  {
    hide Inv;
    assert forall i :: 0 <= i < |promoted| ==> Ids(promoted)[i] == promoted[i].id;
  }

  lemma ConservedAll(ws0: seq<Task>, acts0: seq<Task>, ws: seq<Task>, acts: seq<Task>)
    requires SameTasks(ws0, acts0, ws, acts)
    ensures Conserved(ws0, acts0, ws, acts, [])
  {
  }

  lemma ConservedButOne(ws0: seq<Task>, acts0: seq<Task>, next: seq<Task>, w: Task, waiting: seq<Task>, acts: seq<Task>)
    requires SameTasks(ws0, acts0, next + [w] + waiting, acts)
    ensures Conserved(ws0, acts0, next + waiting, acts, [w])
  {
    assert multiset(next + [w] + waiting) == multiset(next + waiting) + multiset{w};
  }

  /** The queues are sorted; no task still waiting arrived before `last`, none passed over after it. */
  ghost predicate Ordered(waiting: seq<Task>, next: seq<Task>, active: seq<Task>, last: int) {
    Sorted(waiting) && Sorted(next) && Sorted(active) && AllFrom(waiting, last) && AllUpTo(next, last)
  }

  /** What is known of the first waiting task and the rest. */
  lemma OrderedFirst(waiting: seq<Task>, next: seq<Task>, active: seq<Task>, last: int)
    requires Ordered(waiting, next, active, last) && waiting != []
    ensures var w, rest := waiting[0], waiting[1..];
      && last <= w.arrival && Sorted(rest) && AllFrom(rest, w.arrival)
      && Sorted(active) && Sorted(next) && AllUpTo(next, w.arrival)
      && Ordered(rest, next + [w], active, w.arrival)
      && next + waiting == next + [w] + rest
  {
    var w, rest := waiting[0], waiting[1..];
    assert AllFrom(rest, w.arrival);
    AppendSorted(next, w, last);
  }

  ghost predicate Newer(promoted: seq<Task>, active: seq<Task>, a: int) {
    AllAfter(promoted, a) && forall i :: 0 <= i < |promoted| ==> promoted[i] in active
  }

  lemma NewerKeptSame(gpu: Manager, active: seq<Task>, a: int)
    requires forall t :: t in active ==> t.id in gpu.maps
    ensures NewerKept(gpu, gpu, active, active, a)
  {
  }

  lemma NewerKeptInserted(gpu0: Manager, gpu: Manager, active: seq<Task>, w: Task, k: nat)
    requires k <= |active| && gpu.bs == gpu0.bs
    requires forall t :: t in active ==> t.id != w.id && t.id in gpu0.maps
    requires w.id in gpu.maps && gpu.maps == gpu0.maps[w.id := gpu.maps[w.id]]
    ensures NewerKept(gpu0, gpu, active, InsertAt(active, w, k), w.arrival)
  {
  }

  lemma MovesInserted(next: seq<Task>, w: Task, rest: seq<Task>, active: seq<Task>, k: nat)
    requires k <= |active|
    ensures Moves(w, next + [w] + rest, active, next + rest, InsertAt(active, w, k))
  {
    assert active == active[..k] + active[k..];
    MovesMiddle(next, w, rest, active[..k], active[k..]);
  }

  lemma SameBlockSize(gpu: Manager, host: Manager, gpu': Manager, host': Manager, disk: Manager,
                      seqs: map<SeqId, Sequence>)
    requires DevicesOk(gpu, host, disk, seqs) && DevicesOk(gpu', host', disk, seqs)
    ensures gpu'.bs == gpu.bs
  {
    hide Inv, HostAligned, AllSettled;
  }

  lemma PromisingSafe(gpu: Manager, seqs: map<SeqId, Sequence>, w: Task, promoted: seq<Task>)
    requires Inv(gpu, TextsOf(seqs), multiset{}) && w.id in seqs
    ensures Promising(gpu, seqs, w, promoted).Ok?
  {
    hide Inv, Required, Reclaimable, CanAlloc, Hits, DivCeil;
    RequiredSafe(gpu, TextsOf(seqs), w.id, seqs[w.id].toks);
  }

  /** An admitted task goes to its place among the active ones. */
  method InsertAdmitted(ghost gpu0: Manager, ghost host0: Manager, ghost gpu: Manager, ghost host: Manager,
                        ghost disk: Manager, seqs: map<SeqId, Sequence>, ghost home: map<SeqId, Task>,
                        ghost next: seq<Task>, w: Task, ghost rest: seq<Task>, active0: seq<Task>,
                        ghost p: multiset<Task>, ghost others: multiset<Task>, ghost progress: map<SeqId, nat>,
                        ghost last: int)
    returns (active: seq<Task>)
    requires Scene(gpu0, host0, disk, seqs, home, next + [w] + rest, active0, p, others, progress)
    requires ListReady(gpu0, seqs, active0)
    requires DevicesOk(gpu, host, disk, seqs) && SlotsOnly(host0.maps, host.maps, w.id) && host.bs == host0.bs
    requires w.id in gpu.maps && gpu.maps == gpu0.maps[w.id := gpu.maps[w.id]] && w.id in seqs
    requires gpu.maps[w.id].slots == |seqs[w.id].toks|
    requires Sorted(active0) && last <= w.arrival
    ensures Scene(gpu, host, disk, seqs, home, next + rest, active, p, others, progress) && ListReady(gpu, seqs, active)
    ensures Sorted(active) && SameTasks(next + [w] + rest, active0, next + rest, active) && active == Insert(active0, w)
    ensures CountNewer(active, w.arrival) <= CountNewer(active0, last)
    ensures NewerKept(gpu0, gpu, active0, active, w.arrival)
  {
    hide Scene, DevicesOk, SlotsOnly, ListReady, SameTasks, Moves, Sorted, InsertAt, Insert, CountNewer, NewerKept, Inv;
    assert (next + [w] + rest)[|next|] == w;
    SceneTask(gpu0, host0, disk, seqs, home, next + [w] + rest, active0, p, others, progress, w);
    SceneActive(gpu0, host0, disk, seqs, home, next + [w] + rest, w, active0, p, others, progress);
    ghost var k;
    active, k := InsertSorted(active0, w);
    MovesInserted(next, w, rest, active0, k);
    SceneAdmit(gpu0, host0, disk, seqs, home, next + [w] + rest, active0, p, others, progress, w, gpu, host,
               next + rest, active);
    CountInserted(active0, w, k, last);
    SameBlockSize(gpu0, host0, gpu, host, disk, seqs);
    NewerKeptInserted(gpu0, gpu, active0, w, k);
  }

  /** Admitting `w` exhausts the GPU, at once or after newer active tasks were preempted for it. */
  ghost predicate Stuck(gpu: Manager, seqs: map<SeqId, Sequence>, w: Task, active: seq<Task>) {
    && Inv(gpu, TextsOf(seqs), multiset{})
    && (Exhausts(gpu, seqs, w) ||
        exists promoted :: Newer(promoted, active, w.arrival) && PreemptionOf(gpu, seqs, w, promoted) == Panic(Exhausted))
  }

  /** A moment in the pass. */
  datatype Pass = Pass(gpu: Manager, waiting: seq<Task>, next: seq<Task>, active: seq<Task>)

  /** The tasks of the pass that are newer than the one it looks at, and those that are not. */
  function Promoted(s: Pass): seq<Task>
    requires s.waiting != []
  {
    s.active[NewerFrom(s.active, s.waiting[0].arrival)..]
  }

  function NotPromoted(s: Pass): seq<Task>
    requires s.waiting != []
  {
    s.active[..NewerFrom(s.active, s.waiting[0].arrival)]
  }

  /** One round of the pass: the first waiting task is admitted, or passed over, or newer tasks are
      preempted for it. */
  function NextRound(seqs: map<SeqId, Sequence>, s: Pass): Outcome<Pass>
    requires s.waiting != []
  {
    var w, rest, older, promoted := s.waiting[0], s.waiting[1..], NotPromoted(s), Promoted(s);
    var (g, admitted) :- TryAlloc(s.gpu, w.id, TextOf(seqs, w), WATERMARK);
    if admitted then Ok(Pass(g, rest, s.next, Insert(s.active, w)))
    else if promoted == [] then Ok(Pass(s.gpu, rest, s.next + [w], s.active))
    else
      var promising :- Promising(s.gpu, seqs, w, promoted);
      if !promising then Ok(Pass(s.gpu, rest, s.next + [w], s.active))
      else
        var (g, left, admitted) :- PreemptionOf(s.gpu, seqs, w, promoted);
        if left > |promoted| then Panic(Underflow)
        else Ok(Pass(g, InsertBack(rest, promoted[left..]), s.next,
                     if admitted then older + [w] + promoted[..left] else older))
  }

  /** The task that a round admits, if any. */
  function AdmittedIn(seqs: map<SeqId, Sequence>, s: Pass): seq<Task>
    requires s.waiting != []
  {
    var w := s.waiting[0];
    match TryAlloc(s.gpu, w.id, TextOf(seqs, w), WATERMARK)
    case Panic(_) => []
    case Ok((_, admitted)) =>
      if admitted then [w]
      else if Promoted(s) == [] || Promising(s.gpu, seqs, w, Promoted(s)) != Ok(true) then []
      else
        match PreemptionOf(s.gpu, seqs, w, Promoted(s))
        case Panic(_) => []
        case Ok((_, _, admitted)) => if admitted then [w] else []
  }

  /** The tasks that a round preempts. */
  function PreemptedIn(seqs: map<SeqId, Sequence>, s: Pass): seq<Task>
    requires s.waiting != []
  {
    var w := s.waiting[0];
    match TryAlloc(s.gpu, w.id, TextOf(seqs, w), WATERMARK)
    case Panic(_) => []
    case Ok((_, admitted)) =>
      if admitted || Promoted(s) == [] || Promising(s.gpu, seqs, w, Promoted(s)) != Ok(true) then []
      else
        match PreemptionOf(s.gpu, seqs, w, Promoted(s))
        case Panic(_) => []
        case Ok((_, left, _)) => if left <= |Promoted(s)| then Promoted(s)[left..] else []
  }

  /** The round loses the first waiting task: it is refused, preempting newer ones for it is accepted, but
      the check passes after no number of preemptions. All of this is told by the state before. */
  ghost predicate Loses(seqs: map<SeqId, Sequence>, s: Pass) {
    && s.waiting != [] && Promoted(s) != []
    && var w := s.waiting[0];
    && TryAlloc(s.gpu, w.id, TextOf(seqs, w), WATERMARK) == Ok((s.gpu, false))
    && Promising(s.gpu, seqs, w, Promoted(s)) == Ok(true)
    && NeverFits(s.gpu, w.id, TextOf(seqs, w), WATERMARK, Ids(Promoted(s)))
  }

  lemma RoundOf(seqs: map<SeqId, Sequence>, s: Pass, s': Pass, w: Task, rest: seq<Task>, older: seq<Task>,
                promoted: seq<Task>, g: Manager, admitted: bool)
    requires s.waiting != [] && w == s.waiting[0] && rest == s.waiting[1..] && w.id in seqs
    requires TryAlloc(s.gpu, w.id, seqs[w.id].toks, WATERMARK) == Ok((g, admitted))
    requires s.active == older + promoted && |older| == NewerFrom(s.active, w.arrival)
    requires admitted ==> s' == Pass(g, rest, s.next, Insert(s.active, w))
    requires !admitted && (promoted == [] || Promising(s.gpu, seqs, w, promoted) == Ok(false)) ==>
      s' == Pass(s.gpu, rest, s.next + [w], s.active)
    requires !admitted && promoted != [] && Promising(s.gpu, seqs, w, promoted) != Ok(false) ==>
      s'.next == s.next && Promising(s.gpu, seqs, w, promoted) == Ok(true) &&
      Overtaken(s.gpu, seqs, w, older, promoted, rest, s'.gpu, s'.waiting, s'.active)
    ensures NextRound(seqs, s) == Ok(s')
    ensures admitted || promoted == [] || Promising(s.gpu, seqs, w, promoted) == Ok(false) ==> !Loses(seqs, s)
    ensures !admitted && g == s.gpu && promoted != [] && Promising(s.gpu, seqs, w, promoted) == Ok(true) ==>
      (Loses(seqs, s) <==> NeverFits(s.gpu, w.id, seqs[w.id].toks, WATERMARK, Ids(promoted)))
    ensures admitted ==> AdmittedIn(seqs, s) == [w] && PreemptedIn(seqs, s) == []
    ensures !admitted && (promoted == [] || Promising(s.gpu, seqs, w, promoted) == Ok(false)) ==>
      AdmittedIn(seqs, s) == [] && PreemptedIn(seqs, s) == []
  {
    hide TryAlloc, Promising, PreemptionOf, NewerFrom, NeverFits, Insert, InsertBack;
    assert s.active[..|older|] == older && s.active[|older|..] == promoted;
  }

  /** The host and the progress after a round that preempts. */
  lemma RoundChanged(seqs: map<SeqId, Sequence>, s: Pass, w: Task, older: seq<Task>, promoted: seq<Task>,
                     host0: Manager, host: Manager, progress0: map<SeqId, nat>, progress: map<SeqId, nat>)
    requires s.waiting != [] && w == s.waiting[0] && w.id in seqs
    requires TryAlloc(s.gpu, w.id, seqs[w.id].toks, WATERMARK) == Ok((s.gpu, false))
    requires s.active == older + promoted && |older| == NewerFrom(s.active, w.arrival) && promoted != []
    requires Promising(s.gpu, seqs, w, promoted) == Ok(true)
    requires Changed(s.gpu, seqs, w, promoted, host0, host, progress0, progress)
    ensures progress == progress0 - IdSet(PreemptedIn(seqs, s)) && host == ExtendEach(host0, seqs, AdmittedIn(seqs, s))
  {
    hide TryAlloc, Promising, PreemptionOf, NewerFrom, ExtendOn, IdSet;
    assert s.active[|older|..] == promoted;
    ExtendEachNone(host0, seqs);
    ExtendEachMore(host0, seqs, [], w);
    assert [] + [w] == [w];
  }

  /** The host and the progress after any other round. */
  lemma RoundUnchanged(seqs: map<SeqId, Sequence>, s: Pass, w: Task, host0: Manager, progress: map<SeqId, nat>)
    requires s.waiting != [] && PreemptedIn(seqs, s) == [] && (AdmittedIn(seqs, s) == [] || AdmittedIn(seqs, s) == [w])
    ensures progress == progress - IdSet(PreemptedIn(seqs, s))
    ensures ExtendEach(host0, seqs, AdmittedIn(seqs, s)) ==
      if AdmittedIn(seqs, s) == [] then host0 else ExtendOn(host0, seqs, w.id)
  {
    hide ExtendOn, IdSet, AdmittedIn, PreemptedIn;
    IdSetNone();
    ExtendEachNone(host0, seqs);
    ExtendEachMore(host0, seqs, [], w);
    assert [] + [w] == [w];
  }

  lemma RoundPanics(seqs: map<SeqId, Sequence>, s: Pass, w: Task, older: seq<Task>, promoted: seq<Task>)
    requires s.waiting != [] && w == s.waiting[0] && w.id in seqs
    requires s.active == older + promoted && |older| == NewerFrom(s.active, w.arrival)
    requires TryAlloc(s.gpu, w.id, seqs[w.id].toks, WATERMARK) == Panic(Exhausted)
          || (TryAlloc(s.gpu, w.id, seqs[w.id].toks, WATERMARK) == Ok((s.gpu, false)) && promoted != []
              && Promising(s.gpu, seqs, w, promoted) == Ok(true)
              && PreemptionOf(s.gpu, seqs, w, promoted) == Panic(Exhausted))
    ensures NextRound(seqs, s) == Panic(Exhausted)
  {
    hide TryAlloc, Promising, PreemptionOf, NewerFrom;
    assert s.active[..|older|] == older && s.active[|older|..] == promoted;
  }

  /** One round of the pass, for the first waiting task `w`: it is admitted; or it is passed over; or it
      overtakes newer tasks, which wait in turn. The queues stay sorted and the measure goes down. */
  method ReorderFirst(gpu0: Manager, host0: Manager, ghost disk: Manager, seqs: map<SeqId, Sequence>,
                      ghost home: map<SeqId, Task>, waiting0: seq<Task>, next0: seq<Task>, active0: seq<Task>,
                      ghost p: multiset<Task>, ghost others: multiset<Task>, ghost progress0: map<SeqId, nat>,
                      ghost last: int)
    returns (r: Outcome<()>, gpu: Manager, host: Manager, waiting: seq<Task>, next: seq<Task>, active: seq<Task>,
             ghost lost: seq<Task>, ghost progress: map<SeqId, nat>, ghost promoted: seq<Task>)
    requires Scene(gpu0, host0, disk, seqs, home, next0 + waiting0, active0, p, others, progress0)
    requires ListReady(gpu0, seqs, active0)
    requires waiting0 != [] && Ordered(waiting0, next0, active0, last)
    ensures last <= waiting0[0].arrival
    ensures r.Panic? ==> r.fault == Exhausted && Stuck(gpu0, seqs, waiting0[0], active0)
    ensures NextRound(seqs, Pass(gpu0, waiting0, next0, active0)) ==
      if r.Ok? then Ok(Pass(gpu, waiting, next, active)) else Panic(r.fault)
    ensures Steady(gpu0, host0, gpu, host)
    ensures r.Ok? ==>
      && Scene(gpu, host, disk, seqs, home, next + waiting, active, p, others + multiset(lost), progress)
      && ListReady(gpu, seqs, active)
      && Ordered(waiting, next, active, waiting0[0].arrival)
      && Conserved(next0 + waiting0, active0, next + waiting, active, lost)
      && |waiting| + CountNewer(active, waiting0[0].arrival) < |waiting0| + CountNewer(active0, last)
      && NewerKept(gpu0, gpu, active0, active, waiting0[0].arrival)
      && Newer(promoted, active0, waiting0[0].arrival) && LostOnlyIfShared(gpu0, seqs, waiting0[0], promoted, lost)
      && progress == progress0 - IdSet(PreemptedIn(seqs, Pass(gpu0, waiting0, next0, active0)))
      && host == ExtendEach(host0, seqs, AdmittedIn(seqs, Pass(gpu0, waiting0, next0, active0)))
      && lost == if Loses(seqs, Pass(gpu0, waiting0, next0, active0)) then [waiting0[0]] else []
  {
    hide Scene, DevicesOk, SlotsOnly, ListReady, SameTasks, Inv, AllFrom, AllUpTo, AllAfter, Sorted, Ordered, NewerKept,
      Promising, CountNewer, Conserved, LostOnlyIfShared, Newer, TryAlloc, IdSet, ExtendOn, ExtendEach, PreemptedIn,
      AdmittedIn, Changed, PreemptionOf, NextRound, Loses, NeverFits, Overtaken, Insert, NewerFrom, Steady;
    var w, rest := waiting0[0], waiting0[1..];
    OrderedFirst(waiting0, next0, active0, last);
    ghost var ws := next0 + [w] + rest;
    assert ws[|next0|] == w;
    SceneTask(gpu0, host0, disk, seqs, home, ws, active0, p, others, progress0, w);
    SceneActive(gpu0, host0, disk, seqs, home, ws, w, active0, p, others, progress0);
    NoneLost(gpu0, seqs, w, active0, others);
    lost, progress, promoted := [], progress0, [];
    var admitted;
    admitted, gpu, host := AdmitTask(gpu0, host0, disk, seqs, w.id);
    var older, newer := SplitNewer(active0, w.arrival);
    ghost var before, g := Pass(gpu0, waiting0, next0, active0), gpu;
    if admitted.Panic? {
      RoundPanics(seqs, before, w, older, newer);
      return Panic(admitted.fault), gpu, host, waiting0, next0, active0, lost, progress, promoted;
    }
    r, waiting, next := Ok(()), rest, next0;
    if admitted.value {
      active := InsertAdmitted(gpu0, host0, gpu, host, disk, seqs, home, next0, w, rest, active0, p, others, progress0,
                               last);
      ConservedAll(next0 + waiting0, active0, next + waiting, active);
      OrderedAgain(rest, next, active, w.arrival);
      RoundOf(seqs, before, Pass(gpu, waiting, next, active), w, rest, older, newer, g, true);
      RoundUnchanged(seqs, before, w, host0, progress0);
      return;
    }
    CountNewerMono(active0, last, w.arrival);
    PromisingSafe(gpu0, seqs, w, newer);
    NewerPart(older, newer, active0, w.arrival);
    if newer != [] && Promising(gpu0, seqs, w, newer).value {
      promoted := newer;
      CountOvertaken(older, newer, w, 0, last);
      r, gpu, host, waiting, active, lost, progress := Overtake(gpu0, host0, disk, seqs, home, next0, w, rest, older,
                                                                newer, p, others, progress0);
      if r.Panic? {
        assert Stuck(gpu0, seqs, w, active0);
        RoundPanics(seqs, before, w, older, newer);
        return;
      }
      OrderedAgain(waiting, next, active, w.arrival);
    } else {
      next, active := next0 + [w], active0;
      SameTasksRefl(next0 + waiting0, active0);
      ConservedAll(next0 + waiting0, active0, next + waiting, active);
      NewerKeptSame(gpu0, active0, w.arrival);
      assert newer != [] ==> Promising(gpu0, seqs, w, newer) == Ok(false);
    }
    RoundOf(seqs, before, Pass(gpu, waiting, next, active), w, rest, older, newer, g, false);
    if promoted != [] {
      RoundChanged(seqs, before, w, older, newer, host0, host, progress0, progress);
    } else {
      RoundUnchanged(seqs, before, w, host0, progress0);
    }
  }

  lemma NoneLost(gpu: Manager, seqs: map<SeqId, Sequence>, w: Task, active: seq<Task>, others: multiset<Task>)
    ensures LostOnlyIfShared(gpu, seqs, w, [], []) && Newer([], active, w.arrival) && others + multiset([]) == others
  {
  }

  lemma NewerPart(older: seq<Task>, promoted: seq<Task>, active: seq<Task>, a: int)
    requires active == older + promoted && AllAfter(promoted, a)
    ensures Newer(promoted, active, a)
  {
    assert forall i :: 0 <= i < |promoted| ==> promoted[i] == active[|older| + i];
  }

  lemma OrderedAgain(waiting: seq<Task>, next: seq<Task>, active: seq<Task>, a: int)
    requires Sorted(waiting) && Sorted(next) && Sorted(active) && AllFrom(waiting, a) && AllUpTo(next, a)
    ensures Ordered(waiting, next, active, a)
  {
  }

  // ---------------------------------------------------------------- the whole pass

  /** The active `t` is not computing a full block that `w` would share. */
  ghost predicate Apart(gpu: Manager, seqs: map<SeqId, Sequence>, t: Task, w: Task) {
    t.id in gpu.maps && gpu.maps[t.id].slots <= |TextOf(seqs, t)| ==>
      NoSharedUnfilled(gpu.bs, TextOf(seqs, t), gpu.maps[t.id].slots, gpu.maps[t.id].filled, TextOf(seqs, w))
  }

  /** No active task is computing a full block that an older task would share. */
  ghost predicate Unshared(gpu: Manager, seqs: map<SeqId, Sequence>, waiting: seq<Task>, active: seq<Task>) {
    forall t, w :: t in active && (w in waiting || w in active) && w.arrival < t.arrival ==> Apart(gpu, seqs, t, w)
  }

  lemma UnsharedPromoted(gpu0: Manager, gpu: Manager, seqs: map<SeqId, Sequence>, waiting0: seq<Task>,
                         active0: seq<Task>, ws: seq<Task>, active: seq<Task>, lost: seq<Task>, w: Task,
                         promoted: seq<Task>, last: int)
    requires Unshared(gpu0, seqs, waiting0, active0) && Inv(gpu, TextsOf(seqs), multiset{})
    requires NewerKept(gpu0, gpu, active0, active, last) && Conserved(waiting0, active0, ws, active, lost)
    requires w in ws && last <= w.arrival && Newer(promoted, active, w.arrival)
    ensures NothingShared(gpu, TextsOf(seqs), TextOf(seqs, w), Ids(promoted))
  {
    hide Inv, NoSharedUnfilled;
    assert w in multiset(waiting0) + multiset(active0) by {
      assert w in multiset(ws) + multiset(active) + multiset(lost);
    }
    forall i | 0 <= i < |promoted|
      ensures promoted[i].id in gpu.maps && promoted[i].id in seqs
      ensures gpu.maps[promoted[i].id].slots <= |TextOf(seqs, promoted[i])|
      ensures Apart(gpu, seqs, promoted[i], w)
    {
      var t := promoted[i];
      assert t in active && t.arrival > last;
      MappedBounds(gpu, TextsOf(seqs), t.id);
      assert Apart(gpu0, seqs, t, w);
    }
  }

  lemma NewerKeptTrans(gpu0: Manager, gpu1: Manager, gpu2: Manager, acts0: seq<Task>, acts1: seq<Task>,
                       acts2: seq<Task>, a: int, b: int)
    requires NewerKept(gpu0, gpu1, acts0, acts1, a) && NewerKept(gpu1, gpu2, acts1, acts2, b) && a <= b
    ensures NewerKept(gpu0, gpu2, acts0, acts2, b)
  {
  }

  lemma ConservedTrans(ws0: seq<Task>, acts0: seq<Task>, ws1: seq<Task>, acts1: seq<Task>, lost1: seq<Task>,
                       ws2: seq<Task>, acts2: seq<Task>, more: seq<Task>, others: multiset<Task>)
    requires Conserved(ws0, acts0, ws1, acts1, lost1) && Conserved(ws1, acts1, ws2, acts2, more)
    ensures Conserved(ws0, acts0, ws2, acts2, lost1 + more)
    ensures others + multiset(lost1) + multiset(more) == others + multiset(lost1 + more)
  {
  }

  /** After one more round without loss so far, still nothing is lost. */
  lemma StillNoneLost(gpu0: Manager, gpu: Manager, host: Manager, disk: Manager, seqs: map<SeqId, Sequence>,
                      home: map<SeqId, Task>, waiting0: seq<Task>, active0: seq<Task>, ws: seq<Task>, active: seq<Task>,
                      lost: seq<Task>, p: multiset<Task>, others: multiset<Task>, progress: map<SeqId, nat>, w: Task,
                      promoted: seq<Task>, more: seq<Task>, last: int)
    requires Scene(gpu, host, disk, seqs, home, ws, active, p, others, progress)
    requires Unshared(gpu0, seqs, waiting0, active0)
    requires NewerKept(gpu0, gpu, active0, active, last) && Conserved(waiting0, active0, ws, active, lost)
    requires w in ws && last <= w.arrival && Newer(promoted, active, w.arrival)
    requires LostOnlyIfShared(gpu, seqs, w, promoted, more)
    ensures more == []
  {
    hide Scene, Inv, NothingShared, Newer, NewerKept, Conserved, Unshared;
    SceneActive(gpu, host, disk, seqs, home, ws, w, active, p, others, progress);
    UnsharedPromoted(gpu0, gpu, seqs, waiting0, active0, ws, active, lost, w, promoted, last);
  }

  /** `schedule_waiting_with_reorder`. The pass terminates: the number of waiting tasks plus that of the
      active tasks newer than the last one looked at goes down in every round. Both queues stay sorted
      by arrival, and every task is still in one of them but for those `lost`; and none is lost unless
      some active task is computing a full block that an older task shares. If it panics, the results
      are the state before the round that did, with the tasks still waiting in `next`; otherwise the
      `trace` of rounds leads to them. */
  method Reorder(gpu0: Manager, host0: Manager, ghost disk: Manager, seqs: map<SeqId, Sequence>,
                 ghost home: map<SeqId, Task>, waiting0: seq<Task>, active0: seq<Task>, ghost p: multiset<Task>,
                 ghost others: multiset<Task>, ghost progress0: map<SeqId, nat>)
    returns (r: Outcome<()>, gpu: Manager, host: Manager, next: seq<Task>, active: seq<Task>, ghost lost: seq<Task>,
             ghost progress: map<SeqId, nat>, ghost trace: seq<Pass>)
    requires Scene(gpu0, host0, disk, seqs, home, waiting0, active0, p, others, progress0)
    requires ListReady(gpu0, seqs, active0)
    requires Sorted(waiting0) && Sorted(active0)
    ensures Scene(gpu, host, disk, seqs, home, next, active, p, others + multiset(lost), progress)
    ensures ListReady(gpu, seqs, active)
    ensures Sorted(next) && Sorted(active) && Conserved(waiting0, active0, next, active, lost)
    ensures Unshared(gpu0, seqs, waiting0, active0) ==> lost == []
    ensures r.Panic? ==> r.fault == Exhausted && SomeStuck(gpu, seqs, next, active)
    ensures trace != [] && IsPass(seqs, trace, Pass(gpu0, waiting0, [], active0), trace[|trace| - 1])
    ensures lost == LostIn(seqs, trace)
    ensures progress == progress0 - PreemptedOf(seqs, trace) && host == ExtendEach(host0, seqs, AdmittedOf(seqs, trace))
    ensures r.Ok? ==> trace[|trace| - 1] == Pass(gpu, [], next, active)
    ensures r.Panic? ==> Panics(seqs, trace[|trace| - 1])
    ensures Steady(gpu0, host0, gpu, host)
    ensures AllRoomy(gpu0, seqs, waiting0 + active0) ==> r.Ok?
  {
    hide Scene, ListReady, AllFrom, AllUpTo, Sorted, Ordered, NewerKept, CountNewer, Conserved, LostOnlyIfShared, Newer,
      Unshared, Inv, ExtendEach, ExtendOn, PreemptedOf, AdmittedOf, PreemptedIn, AdmittedIn, IdSet, Stuck, NextRound,
      Loses, LostIn, IsPass, Steady, AllRoomy;
    var waiting := waiting0;
    gpu, host, next, active, lost, progress := gpu0, host0, [], active0, [], progress0;
    ghost var last: int := if waiting == [] then 0 else waiting[0].arrival;
    PassStarts(gpu, host, disk, seqs, home, waiting, active, p, others, progress);
    ghost var start := Pass(gpu, waiting, next, active);
    trace := [start];
    PassBegins(seqs, start);
    ExtendEachNone(host0, seqs);
    assert progress0 - {} == progress0;
    PassEnds(seqs, trace, start, start);
    SteadySame(gpu, host);
    while waiting != []
      invariant Scene(gpu, host, disk, seqs, home, next + waiting, active, p, others + multiset(lost), progress)
      invariant ListReady(gpu, seqs, active)
      invariant Ordered(waiting, next, active, last)
      invariant Conserved(waiting0, active0, next + waiting, active, lost)
      invariant NewerKept(gpu0, gpu, active0, active, last)
      invariant Unshared(gpu0, seqs, waiting0, active0) ==> lost == []
      invariant trace != [] && trace[|trace| - 1] == Pass(gpu, waiting, next, active)
      invariant IsPass(seqs, trace, start, trace[|trace| - 1])
      invariant lost == LostIn(seqs, trace) && Steady(gpu0, host0, gpu, host)
      invariant progress == progress0 - PreemptedOf(seqs, trace)
      invariant host == ExtendEach(host0, seqs, AdmittedOf(seqs, trace))
      decreases |waiting| + CountNewer(active, last)
    {
      var w := waiting[0];
      var gpu1, host1, ws, acts := gpu, host, next + waiting, active;
      ghost var lost1, progress1, last1, before := lost, progress, last, Pass(gpu, waiting, next, active);
      OrderedWhole(waiting, next, active, last);
      ghost var more, promoted;
      assert ws[|next|] == w;
      SceneTask(gpu, host, disk, seqs, home, ws, active, p, others + multiset(lost), progress, w);
      r, gpu, host, waiting, next, active, more, progress, promoted :=
        ReorderFirst(gpu, host, disk, seqs, home, waiting, next, active, p, others + multiset(lost), progress, last);
      if r.Panic? {
        assert w in ws && Stuck(gpu1, seqs, w, acts);
        StuckNotRoomy(gpu0, host0, gpu1, host1, seqs, waiting0, active0, ws, acts, lost1, w);
        gpu, host, next, active, progress := gpu1, host1, ws, acts, progress1;
        return;
      }
      if Unshared(gpu0, seqs, waiting0, active0) {
        StillNoneLost(gpu0, gpu1, host1, disk, seqs, home, waiting0, active0, ws, acts, lost1, p,
                      others + multiset(lost1), progress1, w,
          promoted, more, last1);
      }
      ConservedTrans(waiting0, active0, ws, acts, lost1, next + waiting, active, more, others);
      lost := lost + more;
      last := w.arrival;
      NewerKeptTrans(gpu0, gpu1, gpu, active0, acts, active, last1, last);
      PassMore(seqs, trace, start, before, Pass(gpu, waiting, next, active));
      ExtendEachAppend(host0, seqs, AdmittedOf(seqs, trace), AdmittedIn(seqs, before));
      SteadyTrans(gpu0, host0, gpu1, host1, gpu, host);
      trace := trace + [Pass(gpu, waiting, next, active)];
    }
    assert next + waiting == next;
    OrderedSorted(waiting, next, active, last);
    r := Ok(());
  }

  /** The next round exhausts the GPU. */
  predicate Panics(seqs: map<SeqId, Sequence>, s: Pass) {
    s.waiting != [] && NextRound(seqs, s) == Panic(Exhausted)
  }

  /** `trace` leads from one moment to another by rounds of the pass. */
  ghost predicate IsPass(seqs: map<SeqId, Sequence>, trace: seq<Pass>, from: Pass, to: Pass) {
    && trace != [] && trace[0] == from && trace[|trace| - 1] == to
    && forall i :: 0 <= i < |trace| - 1 ==> trace[i].waiting != [] && NextRound(seqs, trace[i]) == Ok(trace[i + 1])
  }

  /** The tasks that the rounds of the trace lose. */
  ghost function LostIn(seqs: map<SeqId, Sequence>, trace: seq<Pass>): seq<Task> {
    if |trace| <= 1 then []
    else
      var n := |trace| - 1;
      LostIn(seqs, trace[..n]) + if Loses(seqs, trace[n - 1]) then [trace[n - 1].waiting[0]] else []
  }

  /** The tasks that the rounds of the trace preempt, and those that they admit. */
  function PreemptedOf(seqs: map<SeqId, Sequence>, trace: seq<Pass>): set<SeqId> {
    if |trace| <= 1 then {}
    else
      var n := |trace| - 1;
      PreemptedOf(seqs, trace[..n]) + if trace[n - 1].waiting == [] then {} else IdSet(PreemptedIn(seqs, trace[n - 1]))
  }

  function AdmittedOf(seqs: map<SeqId, Sequence>, trace: seq<Pass>): seq<Task> {
    if |trace| <= 1 then []
    else
      var n := |trace| - 1;
      AdmittedOf(seqs, trace[..n]) + if trace[n - 1].waiting == [] then [] else AdmittedIn(seqs, trace[n - 1])
  }

  lemma PassBegins(seqs: map<SeqId, Sequence>, s: Pass)
    ensures IsPass(seqs, [s], s, s) && LostIn(seqs, [s]) == [] && PreemptedOf(seqs, [s]) == {}
    ensures AdmittedOf(seqs, [s]) == []
  {
    hide NextRound;
  }

  lemma PassMore(seqs: map<SeqId, Sequence>, trace: seq<Pass>, from: Pass, mid: Pass, to: Pass)
    requires IsPass(seqs, trace, from, mid) && mid.waiting != [] && NextRound(seqs, mid) == Ok(to)
    ensures IsPass(seqs, trace + [to], from, to)
    ensures LostIn(seqs, trace + [to]) == LostIn(seqs, trace) + if Loses(seqs, mid) then [mid.waiting[0]] else []
    ensures PreemptedOf(seqs, trace + [to]) == PreemptedOf(seqs, trace) + IdSet(PreemptedIn(seqs, mid))
    ensures AdmittedOf(seqs, trace + [to]) == AdmittedOf(seqs, trace) + AdmittedIn(seqs, mid)
  {
    hide NextRound, Loses, PreemptedIn, AdmittedIn, IdSet;
    var longer := trace + [to];
    assert longer[..|trace|] == trace && longer[|trace| - 1] == mid;
    forall i | 0 <= i < |longer| - 1
      ensures longer[i].waiting != [] && NextRound(seqs, longer[i]) == Ok(longer[i + 1])
    {
      assert i < |trace| - 1 ==> trace[i].waiting != [] && NextRound(seqs, trace[i]) == Ok(trace[i + 1]);
    }
  }

  lemma PassEnds(seqs: map<SeqId, Sequence>, trace: seq<Pass>, from: Pass, to: Pass)
    requires IsPass(seqs, trace, from, to)
    ensures trace != [] && trace[|trace| - 1] == to
  {
    hide NextRound;
  }

  /** A task that is stuck does not fit in the slack of the GPU. */
  lemma StuckNotRoomy(gpu0: Manager, host0: Manager, gpu: Manager, host: Manager, seqs: map<SeqId, Sequence>,
                      waiting0: seq<Task>, active0: seq<Task>, ws: seq<Task>, acts: seq<Task>, lost: seq<Task>, w: Task)
    requires Steady(gpu0, host0, gpu, host) && Conserved(waiting0, active0, ws, acts, lost) && w in ws && w.id in seqs
    requires Stuck(gpu, seqs, w, acts)
    ensures !AllRoomy(gpu0, seqs, waiting0 + active0)
  {
    hide Inv, TryAlloc, PreemptUntil, Newer, Roomy;
    var all := waiting0 + active0;
    assert w in multiset(ws) + multiset(acts) + multiset(lost);
    assert w in multiset(all);
    var i :| 0 <= i < |all| && all[i] == w;
    RoomyAt(gpu0, seqs, all, i);
    if Roomy(|gpu.pool.blocks|, gpu.bs, TextOf(seqs, w), WATERMARK) {
      RoomyPreempts(gpu, TextsOf(seqs), w.id, seqs[w.id].toks, WATERMARK, []);
      forall promoted
        ensures PreemptionOf(gpu, seqs, w, promoted).Ok?
      {
        RoomyPreempts(gpu, TextsOf(seqs), w.id, seqs[w.id].toks, WATERMARK, Ids(promoted));
      }
    }
  }

  ghost predicate SomeStuck(gpu: Manager, seqs: map<SeqId, Sequence>, waiting: seq<Task>, active: seq<Task>) {
    exists w :: w in waiting && Stuck(gpu, seqs, w, active)
  }

  lemma OrderedWhole(waiting: seq<Task>, next: seq<Task>, active: seq<Task>, a: int)
    requires Ordered(waiting, next, active, a)
    ensures Sorted(next + waiting) && Sorted(active)
  {
    var all := next + waiting;
    forall i, j | 0 <= i < j < |all|
      ensures all[i].arrival <= all[j].arrival
    {
      assert i < |next| ==> all[i] == next[i] && next[i].arrival <= a;
      assert j >= |next| ==> all[j] == waiting[j - |next|] && a <= all[j].arrival;
    }
  }

  lemma OrderedSorted(waiting: seq<Task>, next: seq<Task>, active: seq<Task>, a: int)
    requires Ordered(waiting, next, active, a)
    ensures Sorted(next) && Sorted(active)
  {
  }

  lemma PassStarts(gpu: Manager, host: Manager, disk: Manager, seqs: map<SeqId, Sequence>, home: map<SeqId, Task>,
                   waiting: seq<Task>, active: seq<Task>, p: multiset<Task>, others: multiset<Task>,
                   progress: map<SeqId, nat>)
    requires Scene(gpu, host, disk, seqs, home, waiting, active, p, others, progress) && Sorted(waiting)
    requires Sorted(active)
    ensures [] + waiting == waiting && others + multiset([]) == others
    ensures Conserved(waiting, active, [] + waiting, active, [])
    ensures forall a :: (waiting == [] || waiting[0].arrival == a) ==>
      (Ordered(waiting, [], active, a) && NewerKept(gpu, gpu, active, active, a))
  {
    hide DevicesOk, TasksOk, ProgressOk, Placed;
    assert [] + waiting == waiting;
    forall t | t in active
      ensures t.id in gpu.maps
    {
      SceneTask(gpu, host, disk, seqs, home, waiting, active, p, others, progress, t);
    }
    forall a | waiting == [] || waiting[0].arrival == a
      ensures Ordered(waiting, [], active, a) && NewerKept(gpu, gpu, active, active, a)
    {
      NewerKeptSame(gpu, active, a);
    }
  }

  /** The source's count check after the pass holds exactly when no task was lost. */
  lemma CountCheck(waiting0: seq<Task>, active0: seq<Task>, waiting: seq<Task>, active: seq<Task>, lost: seq<Task>)
    requires Conserved(waiting0, active0, waiting, active, lost)
    ensures |active| + |waiting| == |active0| + |waiting0| <==> lost == []
  {
    assert |multiset(waiting) + multiset(active) + multiset(lost)| == |waiting| + |active| + |lost|;
    assert |multiset(waiting0) + multiset(active0)| == |waiting0| + |active0|;
  }
}
