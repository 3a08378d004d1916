/** The scheduler (runtime/src/llm_engine/scheduler.rs) for tasks of one sequence. Its public methods are
    the steps that the engine takes under the scheduler's lock (runtime/src/llm_engine/engine.rs, lines
    178-439), so any interleaving of requests, transfers and iterations is a sequence of these calls.
    The three block managers are owned by value, as in the source, and updated by the functions that the
    block manager objects are proved against. A method that returns `Panic` promises nothing else. */
module Scheduling {
  import opened Prelude
  import opened BlockManagerSpec
  import opened BlockManagerInv
  import opened Regions
  import opened Release
  import opened PrefixCache
  import opened KvCopy
  import opened Queues
  import opened Preemption
  import opened SchedulerState
  import opened QueuePasses
  import opened Reordering
  import opened Batches
  import opened Updates
  import opened Lifecycle

  // ---------------------------------------------------------------- pending tasks and the running batch

  /** Every pending task is kept under its session. */
  ghost predicate BySession(pending: map<SessionId, Task>) {
    forall c :: c in pending ==> pending[c].session == c
  }

  lemma PendMore(pending: map<SessionId, Task>, t: Task)
    requires t.session !in pending && BySession(pending)
    ensures multiset(pending[t.session := t].Values) == multiset(pending.Values) + multiset{t}
    ensures BySession(pending[t.session := t])
  {
    var more := pending[t.session := t];
    assert more.Values == pending.Values + {t} by {
      assert more[t.session] == t;
      forall u | u in pending.Values
        ensures u in more.Values
      {
        var c :| c in pending && pending[c] == u;
        assert more[c] == u;
      }
    }
    assert t !in pending.Values;
  }

  lemma PendLess(pending: map<SessionId, Task>, c: SessionId)
    requires c in pending && BySession(pending)
    ensures multiset((pending - {c}).Values) == multiset(pending.Values) - multiset{pending[c]}
    ensures pending[c] in multiset(pending.Values) && BySession(pending - {c})
  {
    var t := pending[c];
    assert (pending - {c}).Values == pending.Values - {t} by {
      forall u | u in pending.Values - {t}
        ensures u in (pending - {c}).Values
      {
        var o :| o in pending && pending[o] == u;
        assert o in pending - {c};
      }
    }
  }

  lemma RunningJoin(running: map<SeqId, bool>, seqs: map<SeqId, Sequence>, progress: map<SeqId, nat>, q: SeqId,
                    s: Sequence)
    requires RunningOk(running, seqs, progress) && q !in seqs
    ensures RunningOk(running, seqs[q := s], progress)
  {
  }

  lemma AppendSortedLast(waiting: seq<Task>, t: Task)
    requires Sorted(waiting) && forall i :: 0 <= i < |waiting| ==> waiting[i].arrival <= t.arrival
    ensures Sorted(waiting + [t])
  {
  }

  // ---------------------------------------------------------------- the state

  /** Everything the fields of the scheduler have to agree on. */
  ghost predicate Agree(gpu: Manager, host: Manager, disk: Manager, seqs: map<SeqId, Sequence>, home: map<SeqId, Task>,
                        waiting: seq<Task>, active: seq<Task>, pending: map<SessionId, Task>, away: multiset<Task>,
                        progress: map<SeqId, nat>, running: map<SeqId, bool>, reorder: bool) {
    && Scene(gpu, host, disk, seqs, home, waiting, active, multiset(pending.Values), away, progress)
    && BySession(pending)
    && Sorted(waiting) && (reorder ==> Sorted(active))
    && RunningOk(running, seqs, progress)
  }

  lemma AgreeDevices(gpu: Manager, host: Manager, disk: Manager, seqs: map<SeqId, Sequence>, home: map<SeqId, Task>,
                     waiting: seq<Task>, active: seq<Task>, pending: map<SessionId, Task>, away: multiset<Task>,
                     progress: map<SeqId, nat>, running: map<SeqId, bool>, reorder: bool)
    requires Agree(gpu, host, disk, seqs, home, waiting, active, pending, away, progress, running, reorder)
    ensures DevicesOk(gpu, host, disk, seqs) && SameMaps(gpu, gpu, seqs) && SameMaps(host, host, seqs)
    ensures SameMaps(disk, disk, seqs)
    ensures Inv(gpu, TextsOf(seqs), multiset{}) && Inv(host, TextsOf(seqs), multiset{})
    ensures Inv(disk, TextsOf(seqs), multiset{})
    ensures gpu.bs == host.bs == disk.bs
  {
    hide DevicesOk, Placed, TasksOk, ProgressOk, Sorted, RunningOk, SameMaps, Inv;
    DevicesParts(gpu, host, disk, seqs);
  }

  /** A new task, waiting or pending. */
  lemma AgreeJoin(gpu: Manager, host: Manager, disk: Manager, seqs: map<SeqId, Sequence>, home: map<SeqId, Task>,
                  waiting: seq<Task>, active: seq<Task>, pending: map<SessionId, Task>, away: multiset<Task>,
                  progress: map<SeqId, nat>, running: map<SeqId, bool>, reorder: bool, t: Task, s: Sequence,
                  host': Manager, disk': Manager, waits: bool)
    requires Agree(gpu, host, disk, seqs, home, waiting, active, pending, away, progress, running, reorder)
    requires t.id !in seqs && (waits ==> forall i :: 0 <= i < |waiting| ==> waiting[i].arrival <= t.arrival)
    requires !waits ==> t.session !in pending
    requires DevicesOk(gpu, host', disk', seqs[t.id := s]) && SameBut(host.maps, host'.maps, t.id)
    requires host'.bs == host.bs
    requires if waits then t.id in host'.maps else t.id in host'.maps ==> Settled(host.bs, host'.maps[t.id])
    ensures Agree(gpu, host', disk', seqs[t.id := s], home[t.id := t], if waits then waiting + [t] else waiting, active,
                  if waits then pending else pending[t.session := t], away, progress, running, reorder)
  {
    hide Scene, DevicesOk, SameBut, Sorted, RunningOk, Settled, BySession;
    RunningJoin(running, seqs, progress, t.id, s);
    SceneJoin(gpu, host, disk, seqs, home, waiting, active, multiset(pending.Values), away, progress, t, s, host',
              disk', waits);
    if waits {
      AppendSortedLast(waiting, t);
    } else {
      PendMore(pending, t);
    }
  }

  /** Blocks, tables and regions of the devices changed, but no block list. */
  lemma AgreeFrame(gpu: Manager, host: Manager, disk: Manager, seqs: map<SeqId, Sequence>, home: map<SeqId, Task>,
                   waiting: seq<Task>, active: seq<Task>, pending: map<SessionId, Task>, away: multiset<Task>,
                   progress: map<SeqId, nat>, running: map<SeqId, bool>, reorder: bool, gpu': Manager, host': Manager,
                   disk': Manager)
    requires Agree(gpu, host, disk, seqs, home, waiting, active, pending, away, progress, running, reorder)
    requires SameMaps(gpu, gpu', seqs) && SameMaps(host, host', seqs) && SameMaps(disk, disk', seqs)
    ensures Agree(gpu', host', disk', seqs, home, waiting, active, pending, away, progress, running, reorder)
  {
    hide Agree, Scene, DevicesOk, SameMaps, Sorted, RunningOk, Inv;
    AgreeDevices(gpu, host, disk, seqs, home, waiting, active, pending, away, progress, running, reorder);
    DevicesFrame(gpu, host, disk, seqs, gpu', host', disk');
    SameMapsMeans(gpu, gpu', seqs);
    SameMapsMeans(host, host', seqs);
    AgreeParts(gpu, host, disk, seqs, home, waiting, active, pending, away, progress, running, reorder);
    SceneFrame(gpu, host, disk, seqs, home, waiting, active, multiset(pending.Values), away, progress, gpu', host',
               disk');
    AgreeAgain(gpu', host', disk', seqs, home, waiting, active, pending, away, progress, running, reorder);
  }

  lemma AgreeParts(gpu: Manager, host: Manager, disk: Manager, seqs: map<SeqId, Sequence>, home: map<SeqId, Task>,
                   waiting: seq<Task>, active: seq<Task>, pending: map<SessionId, Task>, away: multiset<Task>,
                   progress: map<SeqId, nat>, running: map<SeqId, bool>, reorder: bool)
    requires Agree(gpu, host, disk, seqs, home, waiting, active, pending, away, progress, running, reorder)
    ensures Scene(gpu, host, disk, seqs, home, waiting, active, multiset(pending.Values), away, progress)
    ensures Sorted(waiting) && (reorder ==> Sorted(active)) && RunningOk(running, seqs, progress)
    ensures BySession(pending)
  {
    hide Scene, Sorted, RunningOk;
  }

  lemma AgreeAgain(gpu: Manager, host: Manager, disk: Manager, seqs: map<SeqId, Sequence>, home: map<SeqId, Task>,
                   waiting: seq<Task>, active: seq<Task>, pending: map<SessionId, Task>, away: multiset<Task>,
                   progress: map<SeqId, nat>, running: map<SeqId, bool>, reorder: bool)
    requires Scene(gpu, host, disk, seqs, home, waiting, active, multiset(pending.Values), away, progress)
    requires Sorted(waiting) && (reorder ==> Sorted(active)) && RunningOk(running, seqs, progress)
    requires BySession(pending)
    ensures Agree(gpu, host, disk, seqs, home, waiting, active, pending, away, progress, running, reorder)
  {
    hide Scene, Sorted, RunningOk;
  }

  /** A new task waits behind all others, or pends. */
  ghost predicate Queued(waiting0: seq<Task>, waiting: seq<Task>, pending0: map<SessionId, Task>,
                         pending: map<SessionId, Task>, t: Task, waits: bool) {
    if waits then waiting == waiting0 + [t] && pending == pending0
    else waiting == waiting0 && pending == pending0[t.session := t]
  }

  /** The body of `add_request` under the lock. It panics exactly when the task would have to pend and its
      session is already pending. */
  method Add(ghost gpu: Manager, host0: Manager, disk0: Manager, seqs0: map<SeqId, Sequence>,
             ghost home0: map<SeqId, Task>, waiting0: seq<Task>, ghost active: seq<Task>,
             pending0: map<SessionId, Task>, ghost away: multiset<Task>, ghost progress: map<SeqId, nat>,
             ghost running: map<SeqId, bool>, ghost reorder: bool, t: Task, s: Sequence, rid: RegionId)
    returns (host: Manager, disk: Manager, seqs: map<SeqId, Sequence>, ghost home: map<SeqId, Task>, waiting: seq<Task>,
             pending: map<SessionId, Task>, plan: Option<(Region, seq<Entry>)>, fails: bool)
    requires Agree(gpu, host0, disk0, seqs0, home0, waiting0, active, pending0, away, progress, running, reorder)
    requires t.id !in seqs0 && rid !in host0.regions
    requires forall i :: 0 <= i < |waiting0| ==> waiting0[i].arrival <= t.arrival
    ensures fails <==> plan.Some? && t.session in pending0
    ensures !fails ==> Agree(gpu, host, disk, seqs, home, waiting, active, pending, away, progress, running, reorder)
    ensures seqs == seqs0[t.id := s] && home == home0[t.id := t]
    ensures Queued(waiting0, waiting, pending0, pending, t, plan.None?) && StageOk(host0, host, disk, t.id, rid, plan)
    ensures TakesRuns(host0, disk0, host, disk, t.id, s.toks) && StageExact(host0, disk0, s.toks, waiting0 != [], plan)
    ensures Staging(host0, disk0, t.id, s.toks, waiting0 != [], rid) == Ok((host, disk, plan))
  {
    hide Agree, DevicesOk, SameBut, StageOk, StageExact, TakesRuns, Settled, SameMaps, Inv, Staging;
    AgreeDevices(gpu, host0, disk0, seqs0, home0, waiting0, active, pending0, away, progress, running, reorder);
    host, disk, plan := PlanStage(gpu, host0, disk0, seqs0, t.id, s, waiting0 != [], rid);
    fails := plan.Some? && t.session in pending0;
    if !fails {
      AgreeJoin(gpu, host0, disk0, seqs0, home0, waiting0, active, pending0, away, progress, running, reorder, t, s,
                host, disk, plan.None?);
    }
    seqs, home, waiting, pending := seqs0[t.id := s], home0[t.id := t], waiting0, pending0;
    if plan.None? {
      waiting := waiting + [t];
    } else {
      pending := pending[t.session := t];
    }
  }

  /** Reservation panics exactly when the free list is too short; the region has the hashes of all whole
      chunks of the text. */
  ghost predicate ReserveOk(host0: Manager, host: Manager, toks: seq<Token>, rid: RegionId,
                            r: Outcome<Option<Region>>) {
    var n := Whole(|toks|, host0.bs);
    Reserve(host0, toks, 0, rid) == (if r.Ok? then Ok((host, r.value)) else Panic(r.fault)) &&
    if |host0.pool.free| < n then r == Panic(Exhausted)
    else
      && r.Ok? && host.maps == host0.maps && host.table == host0.table && (r.value.None? <==> n == 0)
      && (r.value.None? ==> host.regions == host0.regions)
      && (r.value.Some? ==>
            && r.value.value.id == rid && |r.value.value.ids| == n
            && host.regions == host0.regions[rid := r.value.value.ids]
            && RegionCarries(host, r.value.value) && HashesOf(r.value.value, toks, 0, host0.bs))
  }

  lemma NothingBefore(bs: BlockSize)
    ensures Offset(Whole(0, bs), bs) == 0
  {
  }

  /** `reserve_blocks` on the host. */
  lemma ReserveHost(host: Manager, seqs: map<SeqId, Sequence>, toks: seq<Token>, rid: RegionId)
    requires Inv(host, TextsOf(seqs), multiset{}) && rid !in host.regions
    ensures match Reserve(host, toks, 0, rid)
      case Panic(f) => ReserveOk(host, host, toks, rid, Panic(f))
      case Ok((host', r)) => ReserveOk(host, host', toks, rid, Ok(r)) && SameMaps(host, host', seqs)
  {
    hide Inv, Reserve, RegionCarries, HashesOf, Whole;
    ReserveSafe(host, TextsOf(seqs), toks, 0, rid);
    NothingBefore(host.bs);
  }

  lemma NotThere(m: Manager, maps: map<SeqId, BlockMap>, q: SeqId)
    requires maps == m.maps
    ensures SameBut(m.maps, maps, q)
  {
  }

  /** `trigger_pend_task` for a pending session. It never panics. */
  method TriggerPending(ghost gpu: Manager, host0: Manager, ghost disk: Manager, seqs: map<SeqId, Sequence>,
                        ghost home: map<SeqId, Task>, waiting0: seq<Task>, ghost active: seq<Task>,
                        pending0: map<SessionId, Task>, ghost away: multiset<Task>, ghost progress: map<SeqId, nat>,
                        ghost running: map<SeqId, bool>, ghost reorder: bool, c: SessionId, rid: Option<RegionId>,
                        hashes: seq<Hash>)
    returns (host: Manager, waiting: seq<Task>, pending: map<SessionId, Task>)
    requires Agree(gpu, host0, disk, seqs, home, waiting0, active, pending0, away, progress, running, reorder)
    requires c in pending0
    ensures Agree(gpu, host, disk, seqs, home, waiting, active, pending, away, progress, running, reorder)
    ensures TriggerOk(host0, host, seqs, waiting0, waiting, pending0, pending, c, rid, hashes)
  {
    hide Agree, Scene, DevicesOk, SameBut, Settled, SameMaps, Inv, Seated, TriggerOn, InsertAt, Sorted, RunningOk,
      BySession;
    var t := pending0[c];
    var q := t.id;
    AgreeParts(gpu, host0, disk, seqs, home, waiting0, active, pending0, away, progress, running, reorder);
    PendLess(pending0, c);
    ScenePending(gpu, host0, disk, seqs, home, waiting0, active, multiset(pending0.Values), away, progress, t);
    DevicesParts(gpu, host0, disk, seqs);
    TriggerDevice(host0, seqs, q, rid, hashes);
    host := TriggerOn(host0, q, seqs[q].toks, rid, hashes).value;
    DevicesSeated(gpu, host0, disk, host, disk, seqs, q);
    SeatedMapped(host0, host, seqs, q);
    ghost var k;
    waiting, k := InsertSorted(waiting0, t);
    pending := pending0 - {c};
    SceneTrigger(gpu, host0, disk, seqs, home, waiting0, active, multiset(pending0.Values), away, progress, t, host, k);
    AgreeAgain(gpu, host, disk, seqs, home, waiting, active, pending, away, progress, running, reorder);
  }

  /** The task is one of the waiting ones now; the host took over its cached blocks, all of them filled. */
  ghost predicate TriggerOk(host0: Manager, host: Manager, seqs: map<SeqId, Sequence>, waiting0: seq<Task>,
                            waiting: seq<Task>, pending0: map<SessionId, Task>, pending: map<SessionId, Task>,
                            c: SessionId, rid: Option<RegionId>, hashes: seq<Hash>) {
    && c in pending0 && var q := pending0[c].id;
    && q in seqs && TriggerOn(host0, q, seqs[q].toks, rid, hashes) == Ok(host)
    && pending == pending0 - {c} && waiting == Insert(waiting0, pending0[c])
    && q in host.maps && Settled(host.bs, host.maps[q]) && SameBut(host0.maps, host.maps, q)
    && host.regions == (if rid.Some? then host0.regions - {rid.value} else host0.regions)
  }

  // ---------------------------------------------------------------- scheduling

  /** Once its slots are extended to its whole text, the active `t` is not computing a full block that `w`
      would share. */
  ghost predicate ApartText(gpu: Manager, seqs: map<SeqId, Sequence>, t: Task, w: Task) {
    t.id in gpu.maps ==> NoSharedUnfilled(gpu.bs, TextOf(seqs, t), |TextOf(seqs, t)|, gpu.maps[t.id].filled,
                                          TextOf(seqs, w))
  }

  /** No active task has to compute a full block that an older task would share. */
  ghost predicate UnsharedTexts(gpu: Manager, seqs: map<SeqId, Sequence>, waiting: seq<Task>, active: seq<Task>) {
    forall t, w :: t in active && (w in waiting || w in active) && w.arrival < t.arrival ==> ApartText(gpu, seqs, t, w)
  }

  lemma UnsharedAfterDecode(gpu0: Manager, gpu: Manager, seqs: map<SeqId, Sequence>, waiting0: seq<Task>,
                            active0: seq<Task>, waiting: seq<Task>, kept: seq<Task>)
    requires UnsharedTexts(gpu0, seqs, waiting0, active0) && SameTasks(waiting0, active0, waiting, kept)
    requires kept <= active0
    requires ListReady(gpu, seqs, kept) && FilledAs(gpu0, gpu, kept) && gpu.bs == gpu0.bs
    ensures Unshared(gpu, seqs, waiting, kept)
  {
    hide NoSharedUnfilled;
    forall t, w | t in kept && (w in waiting || w in kept) && w.arrival < t.arrival
      ensures Apart(gpu, seqs, t, w)
    {
      assert w in multiset(waiting) + multiset(kept);
      assert w in multiset(waiting0) + multiset(active0);
      var i :| 0 <= i < |kept| && kept[i] == t;
      assert active0[i] == t && Ready(gpu, seqs, kept[i]);
      assert ApartText(gpu0, seqs, t, w);
    }
  }

  lemma RoomyAfterDecode(gpu0: Manager, host0: Manager, gpu: Manager, host: Manager, seqs: map<SeqId, Sequence>,
                         waiting0: seq<Task>, active0: seq<Task>, waiting: seq<Task>, kept: seq<Task>)
    requires Steady(gpu0, host0, gpu, host) && SameTasks(waiting0, active0, waiting, kept)
    ensures AllRoomy(gpu0, seqs, waiting0 + active0) ==> AllRoomy(gpu, seqs, waiting + kept)
  {
    hide Roomy, TextOf;
    if AllRoomy(gpu0, seqs, waiting0 + active0) {
      forall i | 0 <= i < |waiting + kept|
        ensures Roomy(|gpu.pool.blocks|, gpu.bs, TextOf(seqs, (waiting + kept)[i]), WATERMARK)
      {
        var t := (waiting + kept)[i];
        assert t in multiset(waiting) + multiset(kept);
        assert t in multiset(waiting0 + active0);
        var j :| 0 <= j < |waiting0 + active0| && (waiting0 + active0)[j] == t;
      }
    }
  }

  lemma RoomyPart(gpu: Manager, seqs: map<SeqId, Sequence>, waiting: seq<Task>, kept: seq<Task>)
    ensures AllRoomy(gpu, seqs, waiting + kept) ==> AllRoomy(gpu, seqs, waiting)
  {
    hide Roomy, TextOf;
    assert forall i :: 0 <= i < |waiting| ==> (waiting + kept)[i] == waiting[i];
  }

  /** The admission half of `schedule` on the GPU, from `kept` active tasks: which tasks it admits, which it
      preempts and which it loses. */
  ghost predicate AdmitPass(gpu0: Manager, seqs: map<SeqId, Sequence>, reorder: bool, waiting0: seq<Task>,
                            kept: seq<Task>, gpu: Manager, waiting: seq<Task>, active: seq<Task>, admitted: seq<Task>,
                            preempted: set<SeqId>, lost: seq<Task>) {
    if reorder then exists trace ::
        && IsPass(seqs, trace, Pass(gpu0, waiting0, [], kept), Pass(gpu, [], waiting, active))
        && admitted == AdmittedOf(seqs, trace) && preempted == PreemptedOf(seqs, trace) && lost == LostIn(seqs, trace)
    else exists k ::
        && 0 <= k <= |waiting0| && active == kept + waiting0[..k] && waiting == waiting0[k..]
        && Admitting(gpu0, seqs, waiting0) == Ok((gpu, k)) && admitted == waiting0[..k] && preempted == {}
  }

  /** The admission half of `schedule` exhausts the GPU. */
  ghost predicate AdmitFails(gpu0: Manager, seqs: map<SeqId, Sequence>, reorder: bool, waiting0: seq<Task>,
                             kept: seq<Task>) {
    if reorder then exists trace, s :: IsPass(seqs, trace, Pass(gpu0, waiting0, [], kept), s) && Panics(seqs, s)
    else Admitting(gpu0, seqs, waiting0) == Panic(Exhausted)
  }

  /** What follows the decode loop: admission, and then dispatch, whose copies the batch carries. On the host,
      which finds the filled lengths unchanged, exactly the tasks kept and those admitted were extended. */
  ghost predicate AfterDecode(gpu0: Manager, host0: Manager, gpu1: Manager, waiting1: seq<Task>,
                              seqs: map<SeqId, Sequence>, reorder: bool, kept: seq<Task>, maxBatch: nat, maxTokens: nat,
                              gpu: Manager, host: Manager, waiting: seq<Task>, active: seq<Task>, preempted: set<SeqId>,
                              lost: seq<Task>, r: Outcome<Batch>) {
    match r
    case Panic(_) => AdmitFails(gpu1, seqs, reorder, waiting1, kept)
    case Ok(b) => exists gpu2, admitted ::
      && AdmitPass(gpu1, seqs, reorder, waiting1, kept, gpu2, waiting, active, admitted, preempted, lost)
      && Dispatched(gpu0, host0, gpu2, ExtendEach(host0, seqs, kept + admitted), seqs, active, maxBatch, maxTokens, gpu,
                    host, b)
  }

  ghost predicate Dispatched(gpu0: Manager, host0: Manager, gpu2: Manager, host2: Manager, seqs: map<SeqId, Sequence>,
                             active: seq<Task>, maxBatch: nat, maxTokens: nat, gpu: Manager, host: Manager, b: Batch) {
    && Steady(gpu0, host0, gpu2, host2) && CopiesOk(b, seqs, gpu2, host2, gpu, host)
    && Dispatching(gpu2, host2, seqs, active, Batch([], map[], [], []), maxTokens, maxBatch) == Ok((gpu, host, b))
  }

  /** The decode loop, then what follows. The tasks `moved` are those that either of them preempts. */
  ghost predicate ByPasses(gpu0: Manager, host0: Manager, seqs: map<SeqId, Sequence>, reorder: bool,
                           waiting0: seq<Task>, active0: seq<Task>, kept: seq<Task>, maxBatch: nat, maxTokens: nat,
                           gpu: Manager, host: Manager, waiting: seq<Task>, active: seq<Task>, moved: set<SeqId>,
                           lost: seq<Task>, r: Outcome<Batch>) {
    && |kept| <= |active0|
    && exists gpu1, waiting1, preempted ::
      && Extending(gpu0, seqs, waiting0, [], active0) == Ok((gpu1, waiting1, kept))
      && moved == IdSet(active0[|kept|..]) + preempted
      && AfterDecode(gpu0, host0, gpu1, waiting1, seqs, reorder, kept, maxBatch, maxTokens, gpu, host, waiting, active,
                     preempted, lost, r)
  }

  /** The state in which admission leaves the GPU, and the tasks it admitted. */
  lemma AdmissionOf(gpu0: Manager, host0: Manager, gpu1: Manager, waiting1: seq<Task>, seqs: map<SeqId, Sequence>,
                    reorder: bool, kept: seq<Task>, maxBatch: nat, maxTokens: nat, gpu: Manager, host: Manager,
                    waiting: seq<Task>, active: seq<Task>, preempted: set<SeqId>, lost: seq<Task>, b: Batch)
    returns (gpu2: Manager, admitted: seq<Task>)
    requires AfterDecode(gpu0, host0, gpu1, waiting1, seqs, reorder, kept, maxBatch, maxTokens, gpu, host, waiting,
                         active, preempted, lost, Ok(b))
    ensures AdmitPass(gpu1, seqs, reorder, waiting1, kept, gpu2, waiting, active, admitted, preempted, lost)
    ensures Dispatched(gpu0, host0, gpu2, ExtendEach(host0, seqs, kept + admitted), seqs, active, maxBatch, maxTokens,
                       gpu, host, b)
  {
    hide AdmitPass, Dispatched, ExtendEach;
    gpu2, admitted :|
      && AdmitPass(gpu1, seqs, reorder, waiting1, kept, gpu2, waiting, active, admitted, preempted, lost)
      && Dispatched(gpu0, host0, gpu2, ExtendEach(host0, seqs, kept + admitted), seqs, active, maxBatch, maxTokens, gpu,
                    host, b);
  }

  /** The admission half of `schedule`, with or without reordering. */
  method AdmitWaiting(gpu0: Manager, host0: Manager, ghost disk: Manager, seqs: map<SeqId, Sequence>,
                      ghost home: map<SeqId, Task>, waiting0: seq<Task>, kept: seq<Task>, ghost p: multiset<Task>,
                      ghost others: multiset<Task>, ghost progress: map<SeqId, nat>, reorder: bool)
    returns (r: Outcome<()>, gpu: Manager, host: Manager, waiting: seq<Task>, active: seq<Task>,
             ghost admitted: seq<Task>, ghost preempted: set<SeqId>, ghost lost: seq<Task>,
             ghost start: map<SeqId, nat>)
    requires Scene(gpu0, host0, disk, seqs, home, waiting0, kept, p, others, progress) && ListReady(gpu0, seqs, kept)
    requires Sorted(waiting0) && (reorder ==> Sorted(kept))
    ensures r.Panic? ==> r.fault == Exhausted && SomeStuck(gpu, seqs, waiting, active)
    ensures Scene(gpu, host, disk, seqs, home, waiting, active, p, others + multiset(lost), start)
    ensures ListReady(gpu, seqs, active)
    ensures Sorted(waiting) && (reorder ==> Sorted(active)) && Conserved(waiting0, kept, waiting, active, lost)
    ensures !reorder ==> lost == [] && kept <= active && preempted == {}
    ensures reorder && Unshared(gpu0, seqs, waiting0, kept) ==> lost == []
    ensures start == progress - preempted && host == ExtendEach(host0, seqs, admitted)
    ensures r.Ok? ==> AdmitPass(gpu0, seqs, reorder, waiting0, kept, gpu, waiting, active, admitted, preempted, lost)
    ensures r.Panic? ==> AdmitFails(gpu0, seqs, reorder, waiting0, kept)
    ensures Steady(gpu0, host0, gpu, host) && (AllRoomy(gpu0, seqs, waiting0 + kept) ==> r.Ok?)
  {
    hide Scene, ListReady, Conserved, Unshared, Refused, Exhausts, Inv, Newer, PreemptionOf, IsPass, LostIn, Admitting,
      AllRoomy, Steady, Panics, ExtendEach, PreemptedOf, AdmittedOf;
    RoomyPart(gpu0, seqs, waiting0, kept);
    if reorder {
      ghost var trace;
      r, gpu, host, waiting, active, lost, start, trace := Reorder(gpu0, host0, disk, seqs, home, waiting0, kept, p,
                                                                   others, progress);
      admitted, preempted := AdmittedOf(seqs, trace), PreemptedOf(seqs, trace);
    } else {
      ghost var k;
      lost, start, preempted := [], progress, {};
      assert progress - {} == progress;
      r, gpu, host, waiting, active, k := AdmitInOrder(gpu0, host0, disk, seqs, home, waiting0, kept, p, others,
                                                       progress);
      admitted := waiting0[..k];
      NoneLostInOrder(waiting0, kept, k, others);
      if r.Panic? {
        SceneInv(gpu, host, disk, seqs, home, waiting, active, p, others, progress);
        assert Stuck(gpu, seqs, waiting[0], active);
      }
    }
  }

  lemma SceneInv(gpu: Manager, host: Manager, disk: Manager, seqs: map<SeqId, Sequence>, home: map<SeqId, Task>,
                 ws: seq<Task>, acts: seq<Task>, p: multiset<Task>, others: multiset<Task>, progress: map<SeqId, nat>)
    requires Scene(gpu, host, disk, seqs, home, ws, acts, p, others, progress)
    ensures Inv(gpu, TextsOf(seqs), multiset{})
  {
    hide DevicesOk, Placed, TasksOk, ProgressOk, Inv;
    DevicesParts(gpu, host, disk, seqs);
  }

  lemma NoneLostInOrder(waiting: seq<Task>, kept: seq<Task>, k: nat, others: multiset<Task>)
    requires k <= |waiting|
    ensures Conserved(waiting, kept, waiting[k..], kept + waiting[..k], []) && others + multiset([]) == others
    ensures Sorted(waiting) ==> Sorted(waiting[k..])
  {
    assert waiting == waiting[..k] + waiting[k..];
  }

  /** The only panic is exhaustion, by admitting a task that is still waiting then. A scheduled batch is
      within its limits, greedy, and each of its inputs goes on where the last one ended. */
  ghost predicate Planned(r: Outcome<Batch>, gpu: Manager, seqs: map<SeqId, Sequence>, waiting: seq<Task>,
                          active: seq<Task>, maxBatch: nat, maxTokens: nat, start: map<SeqId, nat>,
                          progress: map<SeqId, nat>) {
    match r
    case Panic(f) => f == Exhausted && SomeStuck(gpu, seqs, waiting, active)
    case Ok(b) =>
      && BatchOk(b, gpu, seqs, start, progress)
      && |b.inputs| <= maxBatch && SumTokens(b.inputs) <= maxTokens && Greedy(b, active, seqs, maxBatch, maxTokens)
  }

  /** What `schedule` does to the queues: exactly the tasks `moved` out of the active queue lose their
      progress, all others go on where they were. Without reordering, no task is lost and those `kept`, the
      first active ones, stay in front; with it, no task is lost if no active task has to compute a full
      block that an older one would share. */
  ghost predicate Requeued(gpu0: Manager, seqs: map<SeqId, Sequence>, reorder: bool, waiting0: seq<Task>,
                           active0: seq<Task>, waiting: seq<Task>, active: seq<Task>, kept: seq<Task>,
                           moved: set<SeqId>, lost: seq<Task>, progress0: map<SeqId, nat>, start: map<SeqId, nat>) {
    && Conserved(waiting0, active0, waiting, active, lost)
    && kept <= active0 && start == progress0 - moved
    && (!reorder ==> lost == [] && kept <= active)
    && (UnsharedTexts(gpu0, seqs, waiting0, active0) ==> lost == [])
  }

  /** All that `schedule` promises: its batch, the queues, the passes they come from, and that exhaustion is
      its only panic, which does not happen if the whole blocks of each text fit in the slack of the GPU. */
  ghost predicate Scheduled(gpu0: Manager, host0: Manager, seqs: map<SeqId, Sequence>, reorder: bool,
                            waiting0: seq<Task>, active0: seq<Task>, progress0: map<SeqId, nat>, maxBatch: nat,
                            maxTokens: nat, r: Outcome<Batch>, gpu: Manager, host: Manager, waiting: seq<Task>,
                            active: seq<Task>, kept: seq<Task>, moved: set<SeqId>, lost: seq<Task>,
                            start: map<SeqId, nat>, progress: map<SeqId, nat>) {
    && Planned(r, gpu, seqs, waiting, active, maxBatch, maxTokens, start, progress)
    && Requeued(gpu0, seqs, reorder, waiting0, active0, waiting, active, kept, moved, lost, progress0, start)
    && ByPasses(gpu0, host0, seqs, reorder, waiting0, active0, kept, maxBatch, maxTokens, gpu, host, waiting, active,
                moved, lost, r)
    && (AllRoomy(gpu0, seqs, waiting0 + active0) ==> r.Ok?)
  }

  /** `schedule` */
  method PlanBatch(gpu0: Manager, host0: Manager, ghost disk: Manager, seqs: map<SeqId, Sequence>,
                   ghost home: map<SeqId, Task>, waiting0: seq<Task>, active0: seq<Task>,
                   ghost pending: map<SessionId, Task>, ghost away: multiset<Task>, ghost progress0: map<SeqId, nat>,
                   ghost running: map<SeqId, bool>, reorder: bool, maxBatch: nat, maxTokens: nat)
    returns (r: Outcome<Batch>, gpu: Manager, host: Manager, waiting: seq<Task>, active: seq<Task>,
             ghost kept: seq<Task>, ghost moved: set<SeqId>, ghost lost: seq<Task>, ghost start: map<SeqId, nat>,
             ghost progress: map<SeqId, nat>)
    requires Agree(gpu0, host0, disk, seqs, home, waiting0, active0, pending, away, progress0, running, reorder)
    ensures r.Ok? ==>
      Agree(gpu, host, disk, seqs, home, waiting, active, pending, away + multiset(lost), progress, r.value.running,
            reorder)
    ensures Scheduled(gpu0, host0, seqs, reorder, waiting0, active0, progress0, maxBatch, maxTokens, r, gpu, host,
                      waiting, active, kept,
                      moved, lost, start, progress)
  {
    hide Agree, Scene, ListReady, Conserved, Unshared, Sorted, SameTasks, BatchOk, Greedy, RunningOk, CopiesOk, IdSet,
      ExtendEach,
      SumTokens, Requeued, SomeStuck, Extending, Dispatching, AdmitPass, AdmitFails, AllRoomy, Steady, FilledAs;
    ghost var p := multiset(pending.Values);
    AgreeParts(gpu0, host0, disk, seqs, home, waiting0, active0, pending, away, progress0, running, reorder);
    var gpu1, host1, waiting1, rest;
    ghost var progress1;
    gpu1, host1, waiting1, rest, progress1 := ExtendActive(gpu0, host0, disk, seqs, home, waiting0, active0, p, away,
                                                           progress0);
    kept := rest;
    if reorder {
      SortedPrefix(kept, active0);
    }
    var passed;
    ghost var admitted, preempted;
    passed, gpu, host, waiting, active, admitted, preempted, lost, start :=
      AdmitWaiting(gpu1, host1, disk, seqs, home, waiting1, rest, p, away, progress1, reorder);
    progress, moved := start, IdSet(active0[|kept|..]) + preempted;
    SteadyTrans(gpu0, host0, gpu1, host1, gpu, host);
    RoomyAfterDecode(gpu0, host0, gpu1, host1, seqs, waiting0, active0, waiting1, kept);
    RequeuedBy(gpu0, host0, gpu1, host1, seqs, reorder, waiting0, active0, waiting1, kept, waiting, active, preempted,
               lost, progress0,
      progress1, start);
    ExtendEachAppend(host0, seqs, kept, admitted);
    if passed.Panic? {
      r := Panic(passed.fault);
      assert AfterDecode(gpu0, host0, gpu1, waiting1, seqs, reorder, kept, maxBatch, maxTokens, gpu, host, waiting,
                         active, preempted, lost, r);
      return;
    }
    ghost var gpu2, host2, others := gpu, host, away + multiset(lost);
    var b;
    gpu, host, b, progress := BuildBatch(gpu, host, disk, seqs, home, waiting, active, p, others, start, maxBatch,
                                         maxTokens);
    r := Ok(b);
    assert Dispatched(gpu0, host0, gpu2, ExtendEach(host0, seqs, kept + admitted), seqs, active, maxBatch, maxTokens,
                      gpu, host, b);
    assert AfterDecode(gpu0, host0, gpu1, waiting1, seqs, reorder, kept, maxBatch, maxTokens, gpu, host, waiting,
                       active, preempted, lost, r);
    BatchTells(b, gpu, seqs, start, progress);
    AgreeAgain(gpu, host, disk, seqs, home, waiting, active, pending, others, progress, b.running, reorder);
  }

  /** What the two halves of `schedule` do to the queues together. */
  lemma RequeuedBy(gpu0: Manager, host0: Manager, gpu1: Manager, host1: Manager, seqs: map<SeqId, Sequence>,
                   reorder: bool, waiting0: seq<Task>, active0: seq<Task>, waiting1: seq<Task>, kept: seq<Task>,
                   waiting: seq<Task>, active: seq<Task>, preempted: set<SeqId>, lost: seq<Task>,
                   progress0: map<SeqId, nat>, progress1: map<SeqId, nat>, start: map<SeqId, nat>)
    requires Steady(gpu0, host0, gpu1, host1) && ListReady(gpu1, seqs, kept) && FilledAs(gpu0, gpu1, kept)
    requires SameTasks(waiting0, active0, waiting1, kept) && kept <= active0
    requires progress1 == progress0 - IdSet(active0[|kept|..]) && start == progress1 - preempted
    requires Conserved(waiting1, kept, waiting, active, lost)
    requires !reorder ==> lost == [] && kept <= active
    requires reorder && Unshared(gpu1, seqs, waiting1, kept) ==> lost == []
    ensures Requeued(gpu0, seqs, reorder, waiting0, active0, waiting, active, kept,
                     IdSet(active0[|kept|..]) + preempted, lost, progress0, start)
  {
    hide Conserved, Unshared, SameTasks, UnsharedTexts, ListReady, FilledAs, IdSet;
    if reorder && UnsharedTexts(gpu0, seqs, waiting0, active0) {
      UnsharedAfterDecode(gpu0, gpu1, seqs, waiting0, active0, waiting1, kept);
    }
    ConservedAfter(waiting0, active0, waiting1, kept, waiting, active, lost);
    assert start == progress0 - (IdSet(active0[|kept|..]) + preempted);
  }

  lemma BatchTells(b: Batch, gpu: Manager, seqs: map<SeqId, Sequence>, start: map<SeqId, nat>,
                   progress: map<SeqId, nat>)
    requires BatchOk(b, gpu, seqs, start, progress)
    ensures RunningOk(b.running, seqs, progress)
  {
    hide InputOk, Complete, Recorded, SameOutside, RunningOk, HasInput;
  }

  lemma ConservedAfter(ws0: seq<Task>, acts0: seq<Task>, ws1: seq<Task>, acts1: seq<Task>, ws2: seq<Task>,
                       acts2: seq<Task>, lost: seq<Task>)
    requires SameTasks(ws0, acts0, ws1, acts1) && Conserved(ws1, acts1, ws2, acts2, lost)
    ensures Conserved(ws0, acts0, ws2, acts2, lost)
  {
  }

  // ---------------------------------------------------------------- outputs and removal

  /** `update` */
  method TakeBatch(ghost gpu: Manager, ghost host: Manager, ghost disk: Manager, seqs0: map<SeqId, Sequence>,
                   ghost home: map<SeqId, Task>, ghost waiting: seq<Task>, active0: seq<Task>,
                   ghost pending: map<SessionId, Task>, ghost away: multiset<Task>, ghost progress0: map<SeqId, nat>,
                   running: map<SeqId, bool>, ghost reorder: bool, outputs: map<SeqId, Output>, maxLen: nat)
    returns (seqs: map<SeqId, Sequence>, active: seq<Task>, done: seq<Task>, ghost progress: map<SeqId, nat>)
    requires Agree(gpu, host, disk, seqs0, home, waiting, active0, pending, away, progress0, running, reorder)
    ensures Agree(gpu, host, disk, seqs, home, waiting, active, pending, away + multiset(done), progress,
                  map[], reorder)
    ensures UpdatedFor(seqs0, seqs, active0, running, outputs)
    ensures active == Chosen(active0, seqs0, running, outputs, maxLen, false)
    ensures done == Chosen(active0, seqs0, running, outputs, maxLen, true)
    ensures Taken(seqs0, seqs, active0, active, done, progress0, progress, running, outputs, maxLen)
  {
    hide Agree, Scene, Sorted, RunningOk, UpdatedFor, Split, Ends, Chosen;
    AgreeParts(gpu, host, disk, seqs0, home, waiting, active0, pending, away, progress0, running, reorder);
    ActiveDistinct(gpu, host, disk, seqs0, home, waiting, active0, multiset(pending.Values), away, progress0);
    ActiveKnown(gpu, host, disk, seqs0, home, waiting, active0, multiset(pending.Values), away, progress0);
    seqs, active, done := TakeOutputs(seqs0, active0, running, outputs, maxLen);
    progress := progress0 - (set q | q in Ids(done));
    SceneUpdate(gpu, host, disk, seqs0, home, waiting, active0, multiset(pending.Values), away, progress0, seqs, active,
                done, running, outputs);
    SplitSorted(active0, active, done);
    NoneRunning(seqs, progress);
    AgreeAgain(gpu, host, disk, seqs, home, waiting, active, pending, away + multiset(done), progress, map[], reorder);
  }

  /** Every active sequence has its output, if its input was not cut; the tasks whose sequence then ends
      are done, the others are still active, go on where they were and have their order. */
  ghost predicate Taken(seqs0: map<SeqId, Sequence>, seqs: map<SeqId, Sequence>, active0: seq<Task>, active: seq<Task>,
                        done: seq<Task>, progress0: map<SeqId, nat>, progress: map<SeqId, nat>,
                        running: map<SeqId, bool>, outputs: map<SeqId, Output>, maxLen: nat) {
    && UpdatedFor(seqs0, seqs, active0, running, outputs) && Split(active0, active, done)
    && FinishedAre(seqs0, active0, done, running, outputs, maxLen)
    && active == Chosen(active0, seqs0, running, outputs, maxLen, false)
    && done == Chosen(active0, seqs0, running, outputs, maxLen, true)
    && progress == progress0 - (set q | q in Ids(done))
  }

  lemma SplitSorted(ts: seq<Task>, a: seq<Task>, b: seq<Task>)
    requires Split(ts, a, b)
    ensures Sorted(ts) ==> Sorted(a)
  {
    hide Sorted;
  }

  lemma NoneRunning(seqs: map<SeqId, Sequence>, progress: map<SeqId, nat>)
    ensures RunningOk(map[], seqs, progress)
  {
  }

  lemma ActiveKnown(gpu: Manager, host: Manager, disk: Manager, seqs: map<SeqId, Sequence>, home: map<SeqId, Task>,
                    ws: seq<Task>, acts: seq<Task>, p: multiset<Task>, others: multiset<Task>,
                    progress: map<SeqId, nat>)
    requires Scene(gpu, host, disk, seqs, home, ws, acts, p, others, progress)
    ensures forall i :: 0 <= i < |acts| ==> acts[i].id in seqs
  {
    hide Scene;
    forall i | 0 <= i < |acts|
      ensures acts[i].id in seqs
    {
      SceneTask(gpu, host, disk, seqs, home, ws, acts, p, others, progress, acts[i]);
    }
  }

  /** `backup` and `remove_task` for a task that is in no queue any more. They never panic. */
  method RemoveTask(gpu0: Manager, host0: Manager, disk0: Manager, seqs0: map<SeqId, Sequence>,
                    ghost home0: map<SeqId, Task>, ghost waiting: seq<Task>, ghost active: seq<Task>,
                    ghost pending: map<SessionId, Task>, ghost away: multiset<Task>, ghost progress: map<SeqId, nat>,
                    ghost running: map<SeqId, bool>, ghost reorder: bool, t: Task, rid: RegionId)
    returns (gpu: Manager, host: Manager, disk: Manager, seqs: map<SeqId, Sequence>, ghost home: map<SeqId, Task>,
             plan: Option<(Region, seq<Entry>)>)
    requires Agree(gpu0, host0, disk0, seqs0, home0, waiting, active, pending, away, progress, running, reorder)
    requires t in away && rid !in disk0.regions
    ensures Agree(gpu, host, disk, seqs, home, waiting, active, pending, away - multiset{t}, progress, running, reorder)
    ensures seqs == seqs0 - {t.id} && home == home0 - {t.id} && t.id in seqs0
    ensures Retired(gpu0, host0, disk0, gpu, host, disk, t.id, seqs0[t.id], rid, plan)
    ensures gpu.maps == gpu0.maps - {t.id} && host.maps == host0.maps - {t.id} && disk.maps == disk0.maps - {t.id}
  {
    hide Agree, Scene, Sorted, RunningOk, DevicesOk, Gone, Inv, SameMaps, Retired;
    AgreeParts(gpu0, host0, disk0, seqs0, home0, waiting, active, pending, away, progress, running, reorder);
    AgreeDevices(gpu0, host0, disk0, seqs0, home0, waiting, active, pending, away, progress, running, reorder);
    AwayKnown(gpu0, host0, disk0, seqs0, home0, waiting, active, multiset(pending.Values), away, progress, t);
    gpu, host, disk, plan := Remove(gpu0, host0, disk0, seqs0, t.id, rid);
    seqs, home := seqs0 - {t.id}, home0 - {t.id};
    SceneLeave(gpu0, host0, disk0, seqs0, home0, waiting, active, multiset(pending.Values), away, progress, t, gpu,
               host, disk);
    RunningLeave(running, seqs0, progress, t.id);
    AgreeAgain(gpu, host, disk, seqs, home, waiting, active, pending, away - multiset{t}, progress, running, reorder);
    GoneMeans(gpu0, gpu, seqs0, t.id);
    GoneMeans(host0, host, seqs0, t.id);
  }

  lemma AwayKnown(gpu: Manager, host: Manager, disk: Manager, seqs: map<SeqId, Sequence>, home: map<SeqId, Task>,
                  ws: seq<Task>, acts: seq<Task>, p: multiset<Task>, others: multiset<Task>, progress: map<SeqId, nat>,
                  t: Task)
    requires Scene(gpu, host, disk, seqs, home, ws, acts, p, others, progress) && t in others
    ensures t.id in seqs && t.id !in progress
  {
    hide DevicesOk, Placed;
    var all := multiset(ws) + multiset(acts) + p + others;
    assert t in all && t.id in home && home[t.id] == t;
    assert multiset(acts) + others <= all;
    assert t in multiset(acts) ==> (multiset(acts) + others)[t] >= 2;
  }

  lemma RunningLeave(running: map<SeqId, bool>, seqs: map<SeqId, Sequence>, progress: map<SeqId, nat>, q: SeqId)
    requires RunningOk(running, seqs, progress) && q !in progress
    ensures RunningOk(running, seqs - {q}, progress)
  {
  }

  /** The tasks in no queue of the scheduler: to be removed, or lost. */
  ghost function Away(finished: seq<Task>, lost: seq<Task>): multiset<Task> { multiset(finished) + multiset(lost) }

  class Scheduler {
    const maxBatch: nat
    const maxSeqLen: nat
    const maxTokens: nat
    const reorder: bool

    var gpu: Manager
    var host: Manager
    var disk: Manager

    var waiting: seq<Task>
    /** The source's `allocated` queue. */
    var active: seq<Task>
    var pending: map<SessionId, Task>
    /** Tasks returned by `update` that the engine has not removed yet. */
    var finished: seq<Task>
    /** The sequences of all tasks. */
    var seqs: map<SeqId, Sequence>
    /** The running batch: for each sequence in it, whether its input was cut. */
    var running: map<SeqId, bool>

    /** Tasks that the reordering pass dropped from every queue. */
    ghost var lost: seq<Task>
    /** The task of each sequence. */
    ghost var home: map<SeqId, Task>
    /** How far each active sequence has been dispatched since its admission. */
    ghost var progress: map<SeqId, nat>

    ghost predicate Valid()
      reads this
    {
      Agree(gpu, host, disk, seqs, home, waiting, active, pending, Away(finished, lost), progress, running, reorder)
    }

    constructor (maxBatch: nat, maxSeqLen: nat, maxTokens: nat, bs: BlockSize, gpuBlocks: nat, hostBlocks: nat,
                 diskBlocks: nat, reorder: bool)
      ensures Valid() && waiting == active == finished == lost == [] && pending == map[] && seqs == map[]
      ensures running == map[]
      ensures gpu == NewManager(bs, gpuBlocks) && host == NewManager(bs, hostBlocks)
      ensures disk == NewManager(bs, diskBlocks)
      ensures this.maxBatch == maxBatch && this.maxSeqLen == maxSeqLen && this.maxTokens == maxTokens
      ensures this.reorder == reorder
    {
      this.maxBatch, this.maxSeqLen, this.maxTokens, this.reorder := maxBatch, maxSeqLen, maxTokens, reorder;
      gpu, host, disk := NewManager(bs, gpuBlocks), NewManager(bs, hostBlocks), NewManager(bs, diskBlocks);
      waiting, active, finished, lost := [], [], [], [];
      pending, seqs, running, home, progress := map[], map[], map[], map[], map[];
      new;
      NewManagerInv(bs, gpuBlocks);
      NewManagerInv(bs, hostBlocks);
      NewManagerInv(bs, diskBlocks);
      assert TextsOf(map[]) == map[];
      assert pending.Values == {};
    }
  
    // -------------------------------------------------------------- requests

    /** `add_request`: the sequence takes over its cached blocks on host and disk. If it would wait behind
        others anyway and the disk has enough more of it, its blocks are staged to the host and it pends
        on that; otherwise it waits. Staging pairs blocks of the same content. It panics exactly when the
        task is to pend and its session is already pending. */
    method AddRequest(q: SeqId, s: Sequence, arrival: nat, session: SessionId, rid: RegionId)
      returns (r: Outcome<Option<(Region, seq<Entry>)>>, ghost plan: Option<(Region, seq<Entry>)>)
      requires Valid() && q !in seqs && rid !in host.regions
      requires forall i :: 0 <= i < |waiting| ==> waiting[i].arrival <= arrival
      modifies `host, `disk, `waiting, `pending, `seqs, `home
      ensures r == if plan.Some? && session in old(pending) then Panic(DuplicateSession) else Ok(plan)
      ensures r.Ok? ==> Valid() && seqs == old(seqs)[q := s] && home == old(home)[q := Task(q, arrival, session)]
      ensures Queued(old(waiting), waiting, old(pending), pending, Task(q, arrival, session), plan.None?)
      ensures StageOk(old(host), host, disk, q, rid, plan)
      ensures TakesRuns(old(host), old(disk), host, disk, q, s.toks)
      ensures StageExact(old(host), old(disk), s.toks, old(waiting) != [], plan)
      ensures Staging(old(host), old(disk), q, s.toks, old(waiting) != [], rid) == Ok((host, disk, plan))
    {
      hide Away, Agree, StageOk, StageExact, TakesRuns, Queued, Staging;
      var staged, fails;
      host, disk, seqs, home, waiting, pending, staged, fails :=
        Add(gpu, host, disk, seqs, home, waiting, active, pending, Away(finished, lost), progress, running, reorder,
          Task(q, arrival, session), s, rid);
      r, plan := if fails then Panic(DuplicateSession) else Ok(staged), staged;
    }
  
    /** The first step of `reserve_request`: host blocks for all whole chunks of the text. */
    method ReserveBlocks(toks: seq<Token>, rid: RegionId) returns (r: Outcome<Option<Region>>)
      requires Valid() && rid !in host.regions
      modifies `host
      ensures Valid() && ReserveOk(old(host), host, toks, rid, r)
    {
      hide Away, Agree, ReserveOk, Reserve, SameMaps, DevicesOk, Inv;
      ghost var away := Away(finished, lost);
      AgreeDevices(gpu, host, disk, seqs, home, waiting, active, pending, away, progress, running, reorder);
      ReserveHost(host, seqs, toks, rid);
      var reserved := Reserve(host, toks, 0, rid);
      if reserved.Panic? {
        return Panic(reserved.fault);
      }
      AgreeFrame(gpu, host, disk, seqs, home, waiting, active, pending, away, progress, running, reorder, gpu,
                 reserved.value.0, disk);
      host, r := reserved.value.0, Ok(reserved.value.1);
    }

    /** Its second step: the task pends. It panics exactly when its session is already pending. */
    method Pend(q: SeqId, s: Sequence, arrival: nat, session: SessionId) returns (r: Outcome<()>)
      requires Valid() && q !in seqs
      modifies `pending, `seqs, `home
      ensures r == if session in old(pending) then Panic(DuplicateSession) else Ok(())
      ensures r.Ok? ==> Valid() && pending == old(pending)[session := Task(q, arrival, session)]
      ensures r.Ok? ==> seqs == old(seqs)[q := s] && home == old(home)[q := Task(q, arrival, session)]
    {
      hide Away, Agree, SameMaps, DevicesOk, Inv, SameBut, Settled;
      if session in pending {
        return Panic(DuplicateSession);
      }
      ghost var away := Away(finished, lost);
      var t := Task(q, arrival, session);
      AgreeDevices(gpu, host, disk, seqs, home, waiting, active, pending, away, progress, running, reorder);
      NewToDevices(gpu, host, disk, seqs, q, s);
      NotThere(host, host.maps, q);
      AgreeJoin(gpu, host, disk, seqs, home, waiting, active, pending, away, progress, running, reorder, t, s, host,
                disk, false);
      pending, seqs, home := pending[session := t], seqs[q := s], home[q := t];
      r := Ok(());
    }

    /** `trigger_request` and the callback of a staging copy. It panics exactly for a session that is not
        pending. */
    method TriggerRequest(session: SessionId, rid: Option<RegionId>, hashes: seq<Hash>) returns (r: Outcome<()>)
      requires Valid()
      modifies `host, `waiting, `pending
      ensures r == if session in old(pending) then Ok(()) else Panic(UnknownSession)
      ensures r.Ok? ==> Valid() && TriggerOk(old(host), host, seqs, old(waiting), waiting, old(pending), pending,
                                             session, rid, hashes)
    {
      hide Away, Agree, TriggerOk;
      if session !in pending {
        return Panic(UnknownSession);
      }
      host, waiting, pending :=
        TriggerPending(gpu, host, disk, seqs, home, waiting, active, pending, Away(finished, lost), progress, running,
          reorder, session, rid, hashes);
      r := Ok(());
    }

    /** `pin_blocks` of a push: the longest cached prefix of the hashes, on the host. */
    method PinBlocks(hashes: seq<Hash>, rid: RegionId) returns (r: Region)
      requires Valid() && rid !in host.regions
      modifies `host
      ensures Valid() && r.id == rid && host.regions == old(host.regions)[rid := r.ids]
      ensures PinnedPrefix(old(host), host, hashes, r)
      ensures PinHashes(old(host), hashes, rid) == Ok((host, r))
    {
      hide Away, Agree, PinHashes, PinnedPrefix, SameMaps, DevicesOk, Inv;
      ghost var away := Away(finished, lost);
      AgreeDevices(gpu, host, disk, seqs, home, waiting, active, pending, away, progress, running, reorder);
      PinHashesSafe(host, TextsOf(seqs), hashes, rid);
      var pinned := PinHashes(host, hashes, rid).value;
      PinnedMaps(host, pinned.0, seqs, hashes, pinned.1);
      AgreeFrame(gpu, host, disk, seqs, home, waiting, active, pending, away, progress, running, reorder, gpu, pinned.0,
                 disk);
      host, r := pinned.0, pinned.1;
    }

    /** `unpin_blocks` */
    method UnpinBlocks(rid: RegionId)
      requires Valid()
      modifies `host
      ensures Valid() && host.regions == old(host.regions) - {rid} && SameContents(old(host.pool), host.pool)
      ensures Unpin(old(host), rid).Ok? && host == Unpin(old(host), rid).value.0
    {
      hide Away, Agree, Unpin, SameContents, SameMaps, DevicesOk, Inv;
      ghost var away := Away(finished, lost);
      AgreeDevices(gpu, host, disk, seqs, home, waiting, active, pending, away, progress, running, reorder);
      UnpinSafe(host, TextsOf(seqs), rid);
      var unpinned := Unpin(host, rid).value.0;
      SameMapsBy(host, unpinned, seqs);
      AgreeFrame(gpu, host, disk, seqs, home, waiting, active, pending, away, progress, running, reorder, gpu, unpinned,
                 disk);
      host := unpinned;
    }

    /** `commit_reserved_blocks`, the callback of a backup copy to the disk. */
    method CommitBackup(rid: RegionId, hashes: seq<Hash>)
      requires Valid()
      modifies `disk
      ensures Valid() && disk.regions == old(disk.regions) - {rid} && SameContents(old(disk.pool), disk.pool)
      ensures Activate(old(disk), rid, hashes).Ok? && disk == Activate(old(disk), rid, hashes).value.0
      ensures Published(old(disk), disk, if rid in old(disk.regions) then old(disk.regions[rid]) else [],
                        set h | h in hashes)
    {
      hide Away, Agree, Activate, SameContents, SameMaps, DevicesOk, Inv, Published, CountCarried;
      ghost var away := Away(finished, lost);
      AgreeDevices(gpu, host, disk, seqs, home, waiting, active, pending, away, progress, running, reorder);
      ActivateSafe(disk, TextsOf(seqs), rid, hashes);
      var committed := Activate(disk, rid, hashes).value.0;
      SameMapsBy(disk, committed, seqs);
      AgreeFrame(gpu, host, disk, seqs, home, waiting, active, pending, away, progress, running, reorder, gpu, host,
                 committed);
      disk := committed;
    }

    // -------------------------------------------------------------- iterations

    /** `schedule`. Its only panic is exhaustion of the GPU, by admitting a task of the waiting queue in the
        state left behind, and there is none if the whole blocks of each text fit in the slack of the
        watermark. */
    method Schedule()
      returns (r: Outcome<Batch>, ghost kept: seq<Task>, ghost moved: set<SeqId>, ghost dropped: seq<Task>,
               ghost start: map<SeqId, nat>)
      requires Valid()
      modifies `gpu, `host, `waiting, `active, `running, `lost, `progress
      ensures r.Ok? ==> Valid() && running == r.value.running && lost == old(lost) + dropped
      ensures Scheduled(old(gpu), old(host), seqs, reorder, old(waiting), old(active), old(progress), maxBatch,
                        maxTokens, r, gpu, host,
                        waiting, active, kept, moved, dropped, start, progress)
    {
      hide Away, Agree, Scheduled;
      r, gpu, host, waiting, active, kept, moved, dropped, start, progress :=
        PlanBatch(gpu, host, disk, seqs, home, waiting, active, pending, Away(finished, lost), progress, running,
                  reorder,
          maxBatch, maxTokens);
      if r.Panic? {
        return;
      }
      MoreAway(finished, lost, dropped);
      running, lost := r.value.running, lost + dropped;
    }

    /** `update` */
    method Update(outputs: map<SeqId, Output>) returns (done: seq<Task>)
      requires Valid()
      modifies `seqs, `active, `running, `finished, `progress
      ensures Valid() && running == map[] && finished == old(finished) + done
      ensures Taken(old(seqs), seqs, old(active), active, done, old(progress), progress, old(running), outputs,
                    maxSeqLen)
    {
      hide Away, Agree, Taken, UpdatedFor, Chosen;
      seqs, active, done, progress :=
        TakeBatch(gpu, host, disk, seqs, home, waiting, active, pending, Away(finished, lost), progress, running,
                  reorder,
          outputs, maxSeqLen);
      running := map[];
      MoreFinished(finished, lost, done);
      finished := finished + done;
    }

    /** `backup` and `remove_task` for the first finished task. */
    method Retire(rid: RegionId) returns (plan: Option<(Region, seq<Entry>)>)
      requires Valid() && finished != [] && rid !in disk.regions
      modifies `gpu, `host, `disk, `seqs, `home, `finished
      ensures Valid() && finished == old(finished)[1..] && seqs == old(seqs) - {old(finished)[0].id}
      ensures home == old(home) - {old(finished)[0].id}
      ensures old(finished)[0].id in old(seqs)
      ensures Retired(old(gpu), old(host), old(disk), gpu, host, disk, old(finished)[0].id,
                      old(seqs)[old(finished)[0].id], rid, plan)
    {
      hide Away, Agree, Retired;
      LessFinished(finished, lost);
      gpu, host, disk, seqs, home, plan :=
        RemoveTask(gpu, host, disk, seqs, home, waiting, active, pending, Away(finished, lost), progress, running,
                   reorder,
          finished[0], rid);
      finished := finished[1..];
    }

    /** `clear_cache` forgets all published hashes and nothing else. */
    method ClearCaches()
      requires Valid()
      modifies `gpu, `host, `disk
      ensures Valid() && gpu == ClearCache(old(gpu)) && host == ClearCache(old(host)) && disk == ClearCache(old(disk))
    {
      hide Away, Agree, SameMaps, DevicesOk, Inv;
      ghost var away := Away(finished, lost);
      AgreeDevices(gpu, host, disk, seqs, home, waiting, active, pending, away, progress, running, reorder);
      ClearedSame(gpu, seqs);
      ClearedSame(host, seqs);
      ClearedSame(disk, seqs);
      AgreeFrame(gpu, host, disk, seqs, home, waiting, active, pending, away, progress, running, reorder,
                 ClearCache(gpu),
        ClearCache(host), ClearCache(disk));
      gpu, host, disk := ClearCache(gpu), ClearCache(host), ClearCache(disk);
    }

    /** No leak at quiescence: once every task has been removed and every region activated or unpinned,
        all blocks of all three devices are in the free lists. */
    lemma NoLeak()
      requires Valid() && waiting == active == finished == lost == [] && pending == map[]
      requires gpu.regions == map[] && host.regions == map[] && disk.regions == map[]
      ensures AllFree(gpu) && AllFree(host) && AllFree(disk)
    {
      hide DevicesOk, AllFree, Placed, ProgressOk;
      assert pending.Values == {};
      assert multiset(waiting) + multiset(active) + multiset(pending.Values) + (Away(finished, lost)) == multiset{};
      assert seqs == map[];
      QuietDevices(gpu, host, disk, seqs);
    }
  }

  lemma PinnedMaps(m: Manager, m': Manager, seqs: map<SeqId, Sequence>, hashes: seq<Hash>, r: Region)
    requires PinnedPrefix(m, m', hashes, r) && Inv(m', TextsOf(seqs), multiset{})
    ensures SameMaps(m, m', seqs)
  {
    hide Inv, RegionCarries;
  }

  lemma ClearedSame(m: Manager, seqs: map<SeqId, Sequence>)
    requires Inv(m, TextsOf(seqs), multiset{})
    ensures SameMaps(m, ClearCache(m), seqs)
  {
    hide Inv;
    ClearCacheSafe(m, TextsOf(seqs));
  }

  lemma SameMapsBy(m: Manager, m': Manager, seqs: map<SeqId, Sequence>)
    requires m'.maps == m.maps && m'.bs == m.bs && Inv(m', TextsOf(seqs), multiset{})
    ensures SameMaps(m, m', seqs)
  {
    hide Inv;
  }

  lemma MoreAway(finished: seq<Task>, lost: seq<Task>, dropped: seq<Task>)
    ensures Away(finished, lost + dropped) == Away(finished, lost) + multiset(dropped)
  {
  }

  lemma MoreFinished(finished: seq<Task>, lost: seq<Task>, done: seq<Task>)
    ensures Away(finished + done, lost) == Away(finished, lost) + multiset(done)
  {
  }

  lemma LessFinished(finished: seq<Task>, lost: seq<Task>)
    requires finished != []
    ensures finished[0] in Away(finished, lost)
    ensures Away(finished[1..], lost) == Away(finished, lost) - multiset{finished[0]}
  {
    assert finished == [finished[0]] + finished[1..];
  }
}
