/** The passes of the scheduler over its queues (runtime/src/llm_engine/scheduler.rs, lines 254-299,
    349-355 and 543-580), on the fields they work with. */
module QueuePasses {
  import opened Prelude
  import opened BlockManagerSpec
  import opened BlockManagerInv
  import opened Release
  import opened Admission
  import opened Preemption
  import opened Queues
  import opened SchedulerState

  const WATERMARK := 97

  /** `try_extend_infer_task` on the host, whose answer the scheduler ignores. */
  function ExtendOn(host: Manager, seqs: map<SeqId, Sequence>, q: SeqId): Manager {
    if q in seqs && TryExtend(host, q, seqs[q].toks).Ok? then TryExtend(host, q, seqs[q].toks).value.0 else host
  }

  /** The host after the listed tasks were extended on it, one after the other. */
  function ExtendEach(host: Manager, seqs: map<SeqId, Sequence>, ts: seq<Task>): Manager {
    if ts == [] then host else ExtendOn(ExtendEach(host, seqs, ts[..|ts| - 1]), seqs, ts[|ts| - 1].id)
  }

  lemma ExtendEachNone(host: Manager, seqs: map<SeqId, Sequence>)
    ensures ExtendEach(host, seqs, []) == host
  {
  }

  lemma ExtendEachMore(host: Manager, seqs: map<SeqId, Sequence>, ts: seq<Task>, t: Task)
    ensures ExtendEach(host, seqs, ts + [t]) == ExtendOn(ExtendEach(host, seqs, ts), seqs, t.id)
  {
    hide ExtendOn;
    assert (ts + [t])[..|ts|] == ts;
  }

  lemma {:induction false} ExtendEachAppend(host: Manager, seqs: map<SeqId, Sequence>, ts: seq<Task>, us: seq<Task>)
    ensures ExtendEach(host, seqs, ts + us) == ExtendEach(ExtendEach(host, seqs, ts), seqs, us)
    decreases |us|
  {
    hide ExtendOn;
    if us == [] {
      assert ts + us == ts;
    } else {
      var n := |us| - 1;
      ExtendEachAppend(host, seqs, ts, us[..n]);
      assert ts + us == (ts + us[..n]) + [us[n]] && us == us[..n] + [us[n]];
      ExtendEachMore(host, seqs, ts + us[..n], us[n]);
      ExtendEachMore(ExtendEach(host, seqs, ts), seqs, us[..n], us[n]);
    }
  }

  /** `try_extend_infer_task` on the GPU and, if that succeeds, on the host. */
  method ExtendTask(gpu: Manager, host: Manager, ghost disk: Manager, seqs: map<SeqId, Sequence>, q: SeqId)
    returns (gpu': Manager, host': Manager, ok: bool)
    requires DevicesOk(gpu, host, disk, seqs) && q in gpu.maps && q in host.maps && q in seqs
    ensures DevicesOk(gpu', host', disk, seqs)
    ensures SlotsOnly(gpu.maps, gpu'.maps, q) && SlotsOnly(host.maps, host'.maps, q) && host'.bs == host.bs
    ensures Steady(gpu, host, gpu', host')
    ensures ok ==> q in gpu'.maps && gpu'.maps[q].slots == |seqs[q].toks|
    ensures TryExtend(gpu, q, seqs[q].toks) == Ok((gpu', ok))
    ensures host' == if ok then ExtendOn(host, seqs, q) else host
  {
    hide Inv, TryExtend, HostAligned, AllSettled, Steady;
    ExtendDevice(gpu, seqs, q);
    ExtendDevice(host, seqs, q);
    SlotsOnlySame(host.maps, q);
    var onGpu := TryExtend(gpu, q, seqs[q].toks);
    gpu', host', ok := onGpu.value.0, host, onGpu.value.1;
    if ok {
      var onHost := TryExtend(host, q, seqs[q].toks);
      SlotsOnlyAligned(host, onHost.value.0, q);
      host' := onHost.value.0;
    }
    SteadySlots(gpu, host, gpu', host', q);
  }

  /** `preempt_infer_task` */
  method PreemptTask(gpu: Manager, ghost host: Manager, ghost disk: Manager, seqs: map<SeqId, Sequence>, q: SeqId)
    returns (gpu': Manager)
    requires DevicesOk(gpu, host, disk, seqs)
    ensures DevicesOk(gpu', host, disk, seqs) && gpu'.maps == gpu.maps - {q} && |gpu'.pool.blocks| == |gpu.pool.blocks|
    ensures gpu'.bs == gpu.bs
    ensures FreeSeq(gpu, q, false) == Ok(gpu')
  {
    hide Inv, FreeSeq, HostAligned, AllSettled, Unique, Held;
    ReleaseSafe(gpu, TextsOf(seqs), q, false);
    gpu' := FreeSeq(gpu, q, false).value;
  }

  /** `try_alloc_infer_task` on the GPU and, if that succeeds, `try_extend_infer_task` on the host. */
  method AdmitTask(gpu: Manager, host: Manager, ghost disk: Manager, seqs: map<SeqId, Sequence>, q: SeqId)
    returns (r: Outcome<bool>, gpu': Manager, host': Manager)
    requires DevicesOk(gpu, host, disk, seqs) && q in host.maps && q in seqs
    ensures r.Panic? ==> r.fault == Exhausted
    ensures Steady(gpu, host, gpu', host')
    ensures r.Ok? ==> DevicesOk(gpu', host', disk, seqs) && SlotsOnly(host.maps, host'.maps, q) && host'.bs == host.bs
    ensures TryAlloc(gpu, q, seqs[q].toks, WATERMARK) == if r.Ok? then Ok((gpu', r.value)) else Panic(r.fault)
    ensures r != Ok(true) ==> gpu' == gpu && host' == host
    ensures r == Ok(true) ==>
      q in gpu'.maps && gpu'.maps == gpu.maps[q := gpu'.maps[q]] && gpu'.maps[q].slots == |seqs[q].toks|
    ensures r == Ok(true) ==> host' == ExtendOn(host, seqs, q)
  {
    hide Inv, TryAlloc, TryExtend, HostAligned, AllSettled, Steady;
    SteadySame(gpu, host);
    AdmitDevice(gpu, seqs, q, WATERMARK);
    ExtendDevice(host, seqs, q);
    SlotsOnlySame(host.maps, q);
    gpu', host' := gpu, host;
    var onGpu := TryAlloc(gpu, q, seqs[q].toks, WATERMARK);
    if onGpu.Panic? {
      return Panic(onGpu.fault), gpu', host';
    }
    gpu' := onGpu.value.0;
    if onGpu.value.1 {
      var onHost := TryExtend(host, q, seqs[q].toks);
      SlotsOnlyAligned(host, onHost.value.0, q);
      host' := onHost.value.0;
    }
    SteadySlots(gpu, host, gpu', host', q);
    r := Ok(onGpu.value.1);
  }

  /** The last task of the queue goes back to the waiting ones, of which those in `aside` are kept apart;
      it keeps its GPU blocks only if `retain`. */
  method MoveBack(gpu: Manager, ghost host: Manager, ghost disk: Manager, seqs: map<SeqId, Sequence>,
                  ghost home: map<SeqId, Task>, ghost aside: seq<Task>, waiting: seq<Task>, ghost queue: seq<Task>,
                  ghost p: multiset<Task>, ghost others: multiset<Task>, ghost progress: map<SeqId, nat>, v: Task,
                  ghost kept: seq<Task>, retain: bool)
    returns (gpu': Manager, waiting': seq<Task>, ghost progress': map<SeqId, nat>)
    requires Scene(gpu, host, disk, seqs, home, aside + waiting, queue, p, others, progress) && Sorted(waiting)
    requires kept <= queue && |kept| < |queue| && v == queue[|queue| - 1] && ListReady(gpu, seqs, kept)
    ensures Scene(gpu', host, disk, seqs, home, aside + waiting', queue[..|queue| - 1], p, others, progress')
    ensures Sorted(waiting')
    ensures SameTasks(aside + waiting, queue, aside + waiting', queue[..|queue| - 1]) && ListReady(gpu', seqs, kept)
    ensures if retain then gpu' == gpu else FreeSeq(gpu, v.id, false) == Ok(gpu')
    ensures progress' == progress - {v.id} && waiting' == Insert(waiting, v) && Steady(gpu, host, gpu', host)
    ensures gpu' == gpu || gpu'.maps == gpu.maps - {v.id}
    ensures |waiting'| == |waiting| + 1 && forall a :: AllFrom(waiting, a) && a <= v.arrival ==> AllFrom(waiting', a)
  {
    hide Scene, DevicesOk, ListReady, SameTasks, Moves, PartOf, InsertAt, Insert, FreeSeq, AllFrom, Sorted;
    ghost var n := |queue| - 1;
    SceneTask(gpu, host, disk, seqs, home, aside + waiting, queue, p, others, progress, v);
    PrefixPart(gpu, host, disk, seqs, home, aside + waiting, queue, p, others, progress, n);
    LaterNotBefore(queue, kept, n);
    ghost var k;
    waiting', k := InsertSorted(waiting, v);
    InsertAtFrom(aside, waiting, v, k);
    MovesLast(aside + waiting, queue, |aside| + k);
    gpu', progress' := gpu, progress - {v.id};
    if retain {
      SceneRetain(gpu, host, disk, seqs, home, aside + waiting, queue, p, others, progress, v, aside + waiting',
                  queue[..n]);
    } else {
      gpu' := PreemptTask(gpu, host, disk, seqs, v.id);
      ScenePreempt(gpu, host, disk, seqs, home, aside + waiting, queue, p, others, progress, v, gpu', aside + waiting',
                   queue[..n], kept);
    }
  }

  /** The decode loop on the GPU and the queues: of `active` behind those `kept`, extend the first, or
      preempt the last, which waits then. */
  function Extending(gpu: Manager, seqs: map<SeqId, Sequence>, waiting: seq<Task>, kept: seq<Task>,
                     active: seq<Task>): Outcome<(Manager, seq<Task>, seq<Task>)>
    decreases |active|
  {
    if active == [] then Ok((gpu, waiting, kept))
    else if active[0].id !in seqs then Panic(OutOfBounds)
    else
      var (gpu1, extended) :- TryExtend(gpu, active[0].id, seqs[active[0].id].toks);
      if extended then Extending(gpu1, seqs, waiting, kept + [active[0]], active[1..])
      else if |active| == 1 then Ok((gpu1, Insert(waiting, active[0]), kept))
      else
        var gpu2 :- FreeSeq(gpu1, active[|active| - 1].id, false);
        Extending(gpu2, seqs, Insert(waiting, active[|active| - 1]), kept, WithoutLast(active))
  }

  lemma ExtendingStep(gpu: Manager, gpu1: Manager, seqs: map<SeqId, Sequence>, waiting: seq<Task>, kept: seq<Task>,
                      active: seq<Task>, extended: bool)
    requires active != [] && active[0].id in seqs
    requires TryExtend(gpu, active[0].id, seqs[active[0].id].toks) == Ok((gpu1, extended))
    ensures extended ==>
      Extending(gpu, seqs, waiting, kept, active) == Extending(gpu1, seqs, waiting, kept + [active[0]], active[1..])
    ensures !extended && |active| == 1 ==>
      Extending(gpu, seqs, waiting, kept, active) == Extending(gpu1, seqs, Insert(waiting, active[|active| - 1]), kept,
                                                               WithoutLast(active))
    ensures !extended && |active| > 1 && FreeSeq(gpu1, active[|active| - 1].id, false).Ok? ==>
      Extending(gpu, seqs, waiting, kept, active) ==
        Extending(FreeSeq(gpu1, active[|active| - 1].id, false).value, seqs, Insert(waiting, active[|active| - 1]),
                  kept, WithoutLast(active))
  {
    hide TryExtend, FreeSeq, Insert;
  }

  /** One round of the decode loop, for the first of the active tasks not yet `kept`: extend it, or move
      the last active task back. Without a victim that is the task itself, and the loop is over. */
  method ExtendFirst(gpu0: Manager, host0: Manager, ghost disk: Manager, seqs: map<SeqId, Sequence>,
                     ghost home: map<SeqId, Task>, waiting0: seq<Task>, kept0: seq<Task>, active0: seq<Task>,
                     ghost p: multiset<Task>, ghost others: multiset<Task>, ghost progress0: map<SeqId, nat>)
    returns (gpu: Manager, host: Manager, waiting: seq<Task>, kept: seq<Task>, active: seq<Task>,
             ghost progress: map<SeqId, nat>)
    requires Scene(gpu0, host0, disk, seqs, home, waiting0, kept0 + active0, p, others, progress0) && Sorted(waiting0)
    requires active0 != [] && ListReady(gpu0, seqs, kept0)
    ensures Scene(gpu, host, disk, seqs, home, waiting, kept + active, p, others, progress) && Sorted(waiting)
    ensures SameTasks(waiting0, kept0 + active0, waiting, kept + active) && ListReady(gpu, seqs, kept)
    ensures |active| < |active0| && kept + active <= kept0 + active0
    ensures if |kept| > |kept0| then
        kept == kept0 + [active0[0]] && kept + active == kept0 + active0
        && host == ExtendOn(host0, seqs, active0[0].id) && progress == progress0
      else
        && kept == kept0 && host == host0 && |kept + active| == |kept0 + active0| - 1
        && progress == progress0 - {(kept0 + active0)[|kept0 + active0| - 1].id}
    ensures Extending(gpu0, seqs, waiting0, kept0, active0) == Extending(gpu, seqs, waiting, kept, active)
    ensures Steady(gpu0, host0, gpu, host)
    ensures forall g :: FilledAs(g, gpu0, kept0 + active0) ==> FilledAs(g, gpu, kept + active)
  {
    hide ExtendOn, Insert, Steady, FilledAs, Extending, TryExtend, FreeSeq, Scene, DevicesOk, SlotsOnly, ListReady,
      SameTasks, Moves, PartOf,
      InsertAt, WithoutLast,
      Sorted;
    assert [] + waiting0 == waiting0;
    var t := active0[0];
    ghost var queue := kept0 + active0;
    QueueSteps(kept0, active0);
    SceneTask(gpu0, host0, disk, seqs, home, waiting0, queue, p, others, progress0, t);
    PrefixPart(gpu0, host0, disk, seqs, home, waiting0, queue, p, others, progress0, |kept0|);
    var ok;
    gpu, host, ok := ExtendTask(gpu0, host0, disk, seqs, t.id);
    SceneExtend(gpu0, host0, disk, seqs, home, waiting0, queue, p, others, progress0, t, gpu, host, kept0);
    ExtendingStep(gpu0, gpu, seqs, waiting0, kept0, active0, ok);
    forall g | FilledAs(g, gpu0, queue)
      ensures FilledAs(g, gpu, queue)
    {
      FilledAsSlots(g, gpu0, gpu, queue, t.id);
    }
    if ok {
      ReadyAppend(gpu, seqs, kept0, t);
      SameTasksRefl(waiting0, queue);
      waiting, kept, active, progress := waiting0, kept0 + [t], active0[1..], progress0;
    } else {
      ghost var gpu1 := gpu;
      gpu, waiting, progress := MoveBack(gpu, host, disk, seqs, home, [], waiting0, queue, p, others, progress0,
                                         active0[|active0| - 1],
        kept0, |active0| == 1);
      assert [] + waiting == waiting;
      ActiveDistinct(gpu0, host0, disk, seqs, home, waiting0, queue, p, others, progress0);
      SteadyTrans(gpu0, host0, gpu1, host, gpu, host);
      forall g | FilledAs(g, gpu1, queue)
        ensures FilledAs(g, gpu, queue[..|queue| - 1])
      {
        FilledAsRest(g, gpu1, gpu, queue);
      }
      kept, active := kept0, WithoutLast(active0);
    }
  }

  /** The decode loop of `schedule`: give every active task slots for its new tokens, preempting active
      tasks from the back when the GPU is full. It never panics, loses no task, and keeps a prefix of
      the queue, so every task moved out was behind every task kept. */
  method ExtendActive(gpu0: Manager, host0: Manager, ghost disk: Manager, seqs: map<SeqId, Sequence>,
                      ghost home: map<SeqId, Task>, waiting0: seq<Task>, active0: seq<Task>, ghost p: multiset<Task>,
                      ghost others: multiset<Task>, ghost progress0: map<SeqId, nat>)
    returns (gpu: Manager, host: Manager, waiting: seq<Task>, kept: seq<Task>, ghost progress: map<SeqId, nat>)
    requires Scene(gpu0, host0, disk, seqs, home, waiting0, active0, p, others, progress0) && Sorted(waiting0)
    ensures Scene(gpu, host, disk, seqs, home, waiting, kept, p, others, progress) && Sorted(waiting)
    ensures SameTasks(waiting0, active0, waiting, kept)
    ensures kept <= active0 && ListReady(gpu, seqs, kept)
    ensures progress == progress0 - IdSet(active0[|kept|..]) && host == ExtendEach(host0, seqs, kept)
    ensures Extending(gpu0, seqs, waiting0, [], active0) == Ok((gpu, waiting, kept))
    ensures Steady(gpu0, host0, gpu, host) && FilledAs(gpu0, gpu, kept)
  {
    hide Steady, FilledAs, Extending, Scene, ListReady, SameTasks, Sorted, IdSet, ExtendOn, ExtendEach;
    gpu, host, waiting, kept, progress := gpu0, host0, waiting0, [], progress0;
    var active := active0;
    assert kept + active == active0;
    SameTasksRefl(waiting, active);
    IdSetNone();
    ExtendEachNone(host, seqs);
    assert active0[|active0|..] == [] && progress0 - {} == progress0;
    NoneReady(gpu, seqs);
    SteadySame(gpu, host);
    FilledAsSame(gpu, host, disk, seqs, home, waiting, active, p, others, progress);
    while active != []
      invariant Scene(gpu, host, disk, seqs, home, waiting, kept + active, p, others, progress) && Sorted(waiting)
      invariant SameTasks(waiting0, active0, waiting, kept + active)
      invariant kept + active <= active0 && ListReady(gpu, seqs, kept)
      invariant progress == progress0 - IdSet(active0[|kept + active|..]) && host == ExtendEach(host0, seqs, kept)
      invariant Extending(gpu0, seqs, waiting0, [], active0) == Extending(gpu, seqs, waiting, kept, active)
      invariant Steady(gpu0, host0, gpu, host) && FilledAs(gpu0, gpu, kept + active)
      decreases |active|
    {
      ghost var w, queue, gpu1, host1 := waiting, kept + active, gpu, host;
      ProgressDrop(progress0, progress, active0, |queue| - 1);
      ExtendEachMore(host0, seqs, kept, active[0]);
      gpu, host, waiting, kept, active, progress := ExtendFirst(gpu, host, disk, seqs, home, waiting, kept, active, p,
                                                                others, progress);
      SameTasksTrans(waiting0, active0, w, queue, waiting, kept + active);
      SteadyTrans(gpu0, host0, gpu1, host1, gpu, host);
    }
    assert kept + active == kept;
    ExtendingDone(gpu, seqs, waiting, kept);
  }

  lemma ExtendingDone(gpu: Manager, seqs: map<SeqId, Sequence>, waiting: seq<Task>, kept: seq<Task>)
    ensures Extending(gpu, seqs, waiting, kept, []) == Ok((gpu, waiting, kept))
  {
  }

  /** One round of the admission loop: the first waiting task is admitted, or stays where it is. */
  method AdmitFirst(gpu0: Manager, host0: Manager, ghost disk: Manager, seqs: map<SeqId, Sequence>,
                    ghost home: map<SeqId, Task>, waiting: seq<Task>, ghost active: seq<Task>, ghost p: multiset<Task>,
                    ghost others: multiset<Task>, ghost progress: map<SeqId, nat>)
    returns (r: Outcome<bool>, gpu: Manager, host: Manager)
    requires Scene(gpu0, host0, disk, seqs, home, waiting, active, p, others, progress) && ListReady(gpu0, seqs, active)
    requires waiting != []
    ensures Steady(gpu0, host0, gpu, host)
    ensures r != Ok(true) ==> gpu == gpu0 && host == host0
    ensures r == Ok(true) ==> host == ExtendOn(host0, seqs, waiting[0].id)
    ensures r == Ok(false) ==> Refused(gpu, seqs, waiting[0])
    ensures r.Panic? ==> r.fault == Exhausted && Exhausts(gpu, seqs, waiting[0])
    ensures waiting[0].id in seqs
    ensures TryAlloc(gpu0, waiting[0].id, seqs[waiting[0].id].toks, WATERMARK) ==
      if r.Ok? then Ok((gpu, r.value)) else Panic(r.fault)
    ensures r == Ok(true) ==>
      Scene(gpu, host, disk, seqs, home, waiting[1..], active + [waiting[0]], p, others, progress)
      && ListReady(gpu, seqs, active + [waiting[0]])
  {
    hide Scene, DevicesOk, SlotsOnly, ListReady, SameTasks, Moves, TryAlloc, Steady;
    SceneTask(gpu0, host0, disk, seqs, home, waiting, active, p, others, progress, waiting[0]);
    r, gpu, host := AdmitTask(gpu0, host0, disk, seqs, waiting[0].id);
    if r == Ok(true) {
      MovesFirst(waiting, active);
      SceneAdmit(gpu0, host0, disk, seqs, home, waiting, active, p, others, progress, waiting[0], gpu, host,
                 waiting[1..], active + [waiting[0]]);
    }
  }

  /** The GPU has too few free blocks under the watermark to admit `t`. */
  predicate Refused(gpu: Manager, seqs: map<SeqId, Sequence>, t: Task) {
    t.id in seqs && TryAlloc(gpu, t.id, seqs[t.id].toks, WATERMARK) == Ok((gpu, false))
  }

  /** The check lets `t` in, but its cached prefix does not fit on the GPU any more. */
  predicate Exhausts(gpu: Manager, seqs: map<SeqId, Sequence>, t: Task) {
    t.id in seqs && TryAlloc(gpu, t.id, seqs[t.id].toks, WATERMARK) == Panic(Exhausted)
  }

  /** The admission loop on the GPU: the result is the GPU and how many tasks are admitted. */
  function Admitting(gpu: Manager, seqs: map<SeqId, Sequence>, waiting: seq<Task>): Outcome<(Manager, nat)>
    decreases |waiting|
  {
    if waiting == [] then Ok((gpu, 0))
    else if waiting[0].id !in seqs then Panic(OutOfBounds)
    else
      var (gpu1, admitted) :- TryAlloc(gpu, waiting[0].id, seqs[waiting[0].id].toks, WATERMARK);
      if !admitted then Ok((gpu1, 0))
      else
        var (gpu2, k) :- Admitting(gpu1, seqs, waiting[1..]);
        Ok((gpu2, k + 1))
  }

  /** The result after `k` tasks were admitted and `waiting` are left. */
  ghost predicate AdmitsSoFar(gpu0: Manager, gpu: Manager, seqs: map<SeqId, Sequence>, waiting0: seq<Task>,
                              waiting: seq<Task>, k: nat) {
    match Admitting(gpu, seqs, waiting)
    case Ok((g, n)) => Admitting(gpu0, seqs, waiting0) == Ok((g, k + n))
    case Panic(f) => Admitting(gpu0, seqs, waiting0) == Panic(f)
  }

  lemma AdmittingStep(gpu0: Manager, gpu: Manager, gpu1: Manager, seqs: map<SeqId, Sequence>, waiting0: seq<Task>,
                      waiting: seq<Task>, k: nat, r: Outcome<bool>)
    requires AdmitsSoFar(gpu0, gpu, seqs, waiting0, waiting, k) && waiting != [] && waiting[0].id in seqs
    requires TryAlloc(gpu, waiting[0].id, seqs[waiting[0].id].toks, WATERMARK) ==
      if r.Ok? then Ok((gpu1, r.value)) else Panic(r.fault)
    ensures r.Panic? ==> Admitting(gpu0, seqs, waiting0) == Panic(r.fault)
    ensures r == Ok(false) ==> Admitting(gpu0, seqs, waiting0) == Ok((gpu1, k))
    ensures r == Ok(true) ==> AdmitsSoFar(gpu0, gpu1, seqs, waiting0, waiting[1..], k + 1)
  {
    hide TryAlloc;
  }

  lemma AdmittingStart(gpu: Manager, seqs: map<SeqId, Sequence>, waiting: seq<Task>)
    ensures AdmitsSoFar(gpu, gpu, seqs, waiting, waiting, 0)
  {
    hide TryAlloc;
  }

  lemma AdmittingDone(gpu0: Manager, gpu: Manager, seqs: map<SeqId, Sequence>, waiting0: seq<Task>, k: nat)
    requires AdmitsSoFar(gpu0, gpu, seqs, waiting0, [], k)
    ensures Admitting(gpu0, seqs, waiting0) == Ok((gpu, k))
  {
    hide TryAlloc;
  }

  /** The whole blocks of each task's text fit in the slack that the watermark leaves on the GPU. */
  ghost predicate AllRoomy(gpu: Manager, seqs: map<SeqId, Sequence>, ts: seq<Task>) {
    forall i :: 0 <= i < |ts| ==> Roomy(|gpu.pool.blocks|, gpu.bs, TextOf(seqs, ts[i]), WATERMARK)
  }

  lemma RoomyAt(gpu: Manager, seqs: map<SeqId, Sequence>, ts: seq<Task>, i: nat)
    requires i < |ts|
    ensures AllRoomy(gpu, seqs, ts) ==> Roomy(|gpu.pool.blocks|, gpu.bs, TextOf(seqs, ts[i]), WATERMARK)
  {
    hide Roomy;
  }

  /** A waiting task that exhausts the GPU does not fit in its slack. */
  lemma NotRoomy(gpu0: Manager, host0: Manager, gpu: Manager, host: Manager, disk: Manager, seqs: map<SeqId, Sequence>,
                 home: map<SeqId, Task>, ws: seq<Task>, acts: seq<Task>, p: multiset<Task>, others: multiset<Task>,
                 progress: map<SeqId, nat>, t: Task)
    requires Scene(gpu, host, disk, seqs, home, ws, acts, p, others, progress) && Steady(gpu0, host0, gpu, host)
    requires t in ws && Exhausts(gpu, seqs, t)
    ensures !Roomy(|gpu0.pool.blocks|, gpu0.bs, TextOf(seqs, t), WATERMARK)
  {
    hide TryAlloc, Roomy, Placed, TasksOk, ProgressOk, HostAligned, AllSettled, Inv, PreemptUntil;
    if Roomy(|gpu.pool.blocks|, gpu.bs, TextOf(seqs, t), WATERMARK) {
      RoomyPreempts(gpu, TextsOf(seqs), t.id, seqs[t.id].toks, WATERMARK, []);
    }
  }

  /** The admission loop of `schedule` without reordering: the first `k` waiting tasks are admitted, in
      their order and behind the active ones, and the next one, if any, is refused. If it panics, the
      next one exhausts the GPU in the state returned, which it does not as long as the whole blocks of
      each text fit in the slack of the watermark. */
  method AdmitInOrder(gpu0: Manager, host0: Manager, ghost disk: Manager, seqs: map<SeqId, Sequence>,
                      ghost home: map<SeqId, Task>, waiting0: seq<Task>, active0: seq<Task>, ghost p: multiset<Task>,
                      ghost others: multiset<Task>, ghost progress: map<SeqId, nat>)
    returns (r: Outcome<()>, gpu: Manager, host: Manager, waiting: seq<Task>, active: seq<Task>, ghost k: nat)
    requires Scene(gpu0, host0, disk, seqs, home, waiting0, active0, p, others, progress)
    requires ListReady(gpu0, seqs, active0)
    ensures Scene(gpu, host, disk, seqs, home, waiting, active, p, others, progress) && ListReady(gpu, seqs, active)
    ensures k <= |waiting0| && active == active0 + waiting0[..k] && waiting == waiting0[k..]
    ensures r.Ok? && waiting != [] ==> Refused(gpu, seqs, waiting[0])
    ensures r.Panic? ==> r.fault == Exhausted && waiting != [] && Exhausts(gpu, seqs, waiting[0])
    ensures Admitting(gpu0, seqs, waiting0) == if r.Ok? then Ok((gpu, k)) else Panic(r.fault)
    ensures Steady(gpu0, host0, gpu, host) && host == ExtendEach(host0, seqs, waiting0[..k])
    ensures AllRoomy(gpu0, seqs, waiting0) ==> r.Ok?
  {
    hide ExtendOn, ExtendEach, AllRoomy, Steady, Scene, ListReady, Refused, Exhausts, Admitting, AdmitsSoFar, TryAlloc;
    gpu, host, waiting, active, k := gpu0, host0, waiting0, active0, 0;
    AdmittingStart(gpu, seqs, waiting);
    SteadySame(gpu, host);
    ExtendEachNone(host, seqs);
    assert waiting0[..0] == [];
    while waiting != []
      invariant Scene(gpu, host, disk, seqs, home, waiting, active, p, others, progress) && ListReady(gpu, seqs, active)
      invariant k <= |waiting0| && active == active0 + waiting0[..k] && waiting == waiting0[k..]
      invariant AdmitsSoFar(gpu0, gpu, seqs, waiting0, waiting, k) && Steady(gpu0, host0, gpu, host)
      invariant host == ExtendEach(host0, seqs, waiting0[..k])
      decreases |waiting|
    {
      var admitted;
      ghost var gpu1, host1 := gpu, host;
      assert waiting0[..k + 1] == waiting0[..k] + [waiting[0]];
      ExtendEachMore(host0, seqs, waiting0[..k], waiting[0]);
      admitted, gpu, host := AdmitFirst(gpu, host, disk, seqs, home, waiting, active, p, others, progress);
      AdmittingStep(gpu0, gpu1, gpu, seqs, waiting0, waiting, k, admitted);
      SteadyTrans(gpu0, host0, gpu1, host1, gpu, host);
      if admitted.Panic? {
        NotRoomy(gpu0, host0, gpu, host, disk, seqs, home, waiting, active, p, others, progress, waiting[0]);
        RoomyAt(gpu0, seqs, waiting0, k);
        return Panic(admitted.fault), gpu, host, waiting, active, k;
      }
      if !admitted.value {
        assert admitted == Ok(false);
        return Ok(()), gpu, host, waiting, active, k;
      }
      assert admitted == Ok(true);
      active := active + [waiting[0]];
      waiting := waiting[1..];
      k := k + 1;
    }
    AdmittingDone(gpu0, gpu, seqs, waiting0, k);
    r := Ok(());
  }
}
