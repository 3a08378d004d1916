/** The engine's iterations with whatever else takes the scheduler's lock in between
    (runtime/src/llm_engine/engine.rs, lines 178-439). */
module Iterations {
  import opened Prelude
  import opened BlockManagerSpec
  import opened Regions
  import opened Queues
  import opened SchedulerState
  import opened Reordering
  import opened Batches
  import opened Updates
  import opened Lifecycle
  import opened Scheduling
  import opened Tiling

  /** What may take the lock between `schedule` and `update`, or between two iterations. */
  datatype Call =
    | Add(q: SeqId, s: Sequence, arrival: nat, session: SessionId, rid: RegionId)
    | ReserveBlocks(toks: seq<Token>, rid: RegionId)
    | Pend(q: SeqId, s: Sequence, arrival: nat, session: SessionId)
    | Trigger(session: SessionId, from: Option<RegionId>, hashes: seq<Hash>)
    | Pin(hashes: seq<Hash>, rid: RegionId)
    | Unpin(rid: RegionId)
    | Commit(rid: RegionId, hashes: seq<Hash>)
    | Retire(rid: RegionId)
    | Clear

  /** Ids are new and arrivals are in order; a task is removed only after it has finished. */
  predicate Allowed(s: Scheduler, c: Call)
    reads s
  {
    match c
    case Add(q, _, arrival, _, rid) =>
      && q !in s.seqs && rid !in s.host.regions
      && forall i :: 0 <= i < |s.waiting| ==> s.waiting[i].arrival <= arrival
    case ReserveBlocks(_, rid) => rid !in s.host.regions
    case Pend(q, _, _, _) => q !in s.seqs
    case Pin(_, rid) => rid !in s.host.regions
    case Retire(rid) => s.finished != [] && rid !in s.disk.regions
    case _ => true
  }

  /** A finished task and an active one have different sequences. */
  lemma FinishedApart(s: Scheduler)
    requires s.Valid()
    ensures IdSet(s.active) !! IdSet(s.finished)
  {
    hide Scene, Sorted, RunningOk;
    forall t, u | t in s.active && u in s.finished
      ensures t.id != u.id
    {
      SceneApart(s.gpu, s.host, s.disk, s.seqs, s.home, s.waiting, s.active, multiset(s.pending.Values),
        Away(s.finished, s.lost), s.progress, t, u);
    }
    IdsApart(s.active, s.finished);
  }

  lemma IdsApart(ts: seq<Task>, us: seq<Task>)
    requires forall t, u :: t in ts && u in us ==> t.id != u.id
    ensures IdSet(ts) !! IdSet(us)
  {
  }

  lemma SceneApart(gpu: Manager, host: Manager, disk: Manager, seqs: map<SeqId, Sequence>, home: map<SeqId, Task>,
                   ws: seq<Task>, acts: seq<Task>, p: multiset<Task>, others: multiset<Task>, progress: map<SeqId, nat>,
                   t: Task, u: Task)
    requires Scene(gpu, host, disk, seqs, home, ws, acts, p, others, progress) && t in acts && u in others
    ensures t.id != u.id
  {
    hide DevicesOk, Placed, ProgressOk, TasksOk;
    OtherTask(multiset(ws) + multiset(acts) + p + others, home, multiset(acts), others, t, u);
  }

  lemma IdSetTail(ts: seq<Task>)
    requires ts != []
    ensures IdSet(ts[1..]) <= IdSet(ts) && ts[0].id in IdSet(ts)
  {
    IdSetMore(ts, 0);
    assert ts[0..] == ts;
  }

  lemma {:induction false} IdSetPlus(ts: seq<Task>, us: seq<Task>)
    ensures IdSet(ts + us) == IdSet(ts) + IdSet(us)
    decreases |ts|
  {
    hide IdSet;
    if ts == [] {
      assert ts + us == us;
      IdSetNone();
    } else {
      var all := ts + us;
      IdSetPlus(ts[1..], us);
      IdSetMore(all, 0);
      IdSetMore(ts, 0);
      assert all[0..] == all && ts[0..] == ts && all[1..] == ts[1..] + us;
    }
  }

  /** The call of another request. Whatever it is, the active tasks, their progress and the batch stay as
      they are, and no sequence changes. */
  method Do(s: Scheduler, c: Call) returns (r: Outcome<()>)
    requires s.Valid() && Allowed(s, c)
    modifies s
    ensures r.Panic? ==> r.fault == DuplicateSession || r.fault == UnknownSession || r.fault == Exhausted
    ensures r.Ok? ==> s.Valid()
    ensures r.Ok? ==> s.active == old(s.active) && s.progress == old(s.progress) && s.running == old(s.running)
    ensures r.Ok? ==> s.lost == old(s.lost)
    ensures r.Ok? ==> IdSet(s.finished) <= old(IdSet(s.finished))
    ensures r.Ok? ==> Carried(old(s.seqs), s.seqs, old(IdSet(s.finished)))
  {
    hide Away, Agree, IdSet, StageOk, Queued, Staging, ReserveOk, TriggerOk, PinnedPrefix, Published, Retired,
      StageExact, TakesRuns;
    r := Ok(());
    match c
    case Add(q, sequence, arrival, session, rid) =>
      var added, _ := s.AddRequest(q, sequence, arrival, session, rid);
      if added.Panic? {
        r := Panic(added.fault);
      }
    case ReserveBlocks(toks, rid) =>
      var reserved := s.ReserveBlocks(toks, rid);
      ReserveFault(old(s.host), s.host, toks, rid, reserved);
      if reserved.Panic? {
        r := Panic(reserved.fault);
      }
    case Pend(q, sequence, arrival, session) => r := s.Pend(q, sequence, arrival, session);
    case Trigger(session, from, hashes) => r := s.TriggerRequest(session, from, hashes);
    case Pin(hashes, rid) => var _ := s.PinBlocks(hashes, rid);
    case Unpin(rid) => s.UnpinBlocks(rid);
    case Commit(rid, hashes) => s.CommitBackup(rid, hashes);
    case Retire(rid) =>
      IdSetTail(s.finished);
      var _ := s.Retire(rid);
    case Clear => s.ClearCaches();
  }

  lemma ReserveFault(host0: Manager, host: Manager, toks: seq<Token>, rid: RegionId, r: Outcome<Option<Region>>)
    requires ReserveOk(host0, host, toks, rid, r)
    ensures r.Panic? ==> r.fault == Exhausted
  {
  }

  /** The calls of other requests, one after the other, as far as they are allowed when their turn comes. */
  method DoAll(s: Scheduler, calls: seq<Call>) returns (r: Outcome<()>)
    requires s.Valid()
    modifies s
    ensures r.Panic? ==> r.fault == DuplicateSession || r.fault == UnknownSession || r.fault == Exhausted
    ensures r.Ok? ==> s.Valid()
    ensures r.Ok? ==> s.active == old(s.active) && s.progress == old(s.progress) && s.running == old(s.running)
    ensures r.Ok? ==> s.lost == old(s.lost)
    ensures r.Ok? ==> IdSet(s.finished) <= old(IdSet(s.finished))
    ensures r.Ok? ==> Carried(old(s.seqs), s.seqs, old(IdSet(s.finished)))
  {
    hide Away, Agree, IdSet, Carried;
    CarriedSame(s.seqs, IdSet(s.finished));
    var i := 0;
    while i < |calls|
      invariant s.Valid()
      invariant s.active == old(s.active) && s.progress == old(s.progress) && s.running == old(s.running)
      invariant s.lost == old(s.lost)
      invariant IdSet(s.finished) <= old(IdSet(s.finished)) && Carried(old(s.seqs), s.seqs, old(IdSet(s.finished)))
    {
      if Allowed(s, calls[i]) {
        ghost var seqs1, over1 := s.seqs, IdSet(s.finished);
        r := Do(s, calls[i]);
        if r.Panic? {
          return;
        }
        CarriedTrans(old(s.seqs), seqs1, s.seqs, old(IdSet(s.finished)), over1);
      }
      i := i + 1;
    }
    r := Ok(());
  }

  lemma CarriedSame(seqs: map<SeqId, Sequence>, over: set<SeqId>)
    ensures Carried(seqs, seqs, over)
  {
  }

  lemma CarriedTrans(seqs0: map<SeqId, Sequence>, seqs1: map<SeqId, Sequence>, seqs2: map<SeqId, Sequence>,
                     over0: set<SeqId>, over1: set<SeqId>)
    requires Carried(seqs0, seqs1, over0) && Carried(seqs1, seqs2, over1) && over1 <= over0
    ensures Carried(seqs0, seqs2, over0)
  {
  }

  /** The worker: the outputs of a batch, from the batch and the texts it was scheduled with. */
  type Worker = (Batch, map<SeqId, Sequence>) -> map<SeqId, Output>

  function LimitsOf(s: Scheduler): Limits { Limits(s.maxBatch, s.maxSeqLen, s.maxTokens, s.reorder) }

  /** The turn ends in the state that the scheduler is in. */
  ghost predicate EndsAt(t: Turn, s: Scheduler)
    reads s
  {
    t.activeAfter == s.active && t.progressAfter == s.progress && t.seqsAfter == s.seqs && t.over == IdSet(s.finished)
  }

  /** One iteration of a scheduler is a turn: `schedule`, the batch while others take the lock, `update`. */
  method Iterate(s: Scheduler, worker: Worker, between: seq<Call>) returns (r: Outcome<()>, ghost t: Turn)
    requires s.Valid()
    modifies s
    ensures r.Ok? ==> s.Valid() && TurnOk(t, LimitsOf(s)) && t.outputs == worker(t.batch, t.seqs)
    ensures r.Ok? ==> t.active0 == old(s.active) && t.progress0 == old(s.progress) && t.waiting0 == old(s.waiting)
    ensures r.Ok? ==> t.seqs == old(s.seqs)
    ensures r.Ok? ==> t.over0 == old(IdSet(s.finished)) && EndsAt(t, s)
  {
    hide Away, Agree, Requeued, ByPasses, Taken, BatchOk, SumTokens, Greedy, SomeStuck, Planned, IdSet, Carried;
    t := NoTurn(s);
    ghost var gpu0, host0, waiting0, active0, progress0 := s.gpu, s.host, s.waiting, s.active, s.progress;
    var b, kept, moved, lost, start := s.Schedule();
    if b.Panic? {
      return Panic(b.fault), t;
    }
    FinishedApart(s);
    ghost var gpu, host, waiting, active, progress, over0 :=
      s.gpu, s.host, s.waiting, s.active, s.progress, IdSet(s.finished);
    var seqs := s.seqs;
    r := DoAll(s, between);
    if r.Panic? {
      return;
    }
    ghost var seqsThen, finished := s.seqs, s.finished;
    var outputs := worker(b.value, seqs);
    var done := s.Update(outputs);
    IdSetPlus(finished, done);
    FinishedApart(s);
    t := Turn(gpu0, host0, waiting0, active0, progress0, over0, gpu, host, seqs, waiting, active, kept, moved, lost,
              start, progress,
      b.value, outputs, seqsThen, s.seqs, s.active, done, s.progress, IdSet(s.finished));
  }

  ghost function NoTurn(s: Scheduler): Turn
    reads s
  {
    Turn(s.gpu, s.host, s.waiting, s.active, s.progress, {}, s.gpu, s.host, s.seqs, s.waiting, s.active, [], {}, [],
         map[], s.progress,
      Batch([], map[], [], []), map[], s.seqs, s.seqs, s.active, [], s.progress, {})
  }

  /** What other requests do before an iteration and during its batch. */
  datatype Round = Round(before: seq<Call>, between: seq<Call>)

  /** The engine's loop: every scheduler, with any other work before and during every batch, makes a run. */
  method Serve(s: Scheduler, worker: Worker, rounds: seq<Round>) returns (r: Outcome<()>, ghost turns: seq<Turn>)
    requires s.Valid()
    modifies s
    ensures r.Ok? ==> s.Valid() && |turns| == |rounds| && IsRun(turns, LimitsOf(s))
    ensures r.Ok? ==> forall i :: 0 <= i < |turns| ==> turns[i].outputs == worker(turns[i].batch, turns[i].seqs)
    ensures r.Ok? && turns != [] ==> Carried(old(s.seqs), turns[0].seqs, old(IdSet(s.finished)))
    ensures r.Ok? && turns != [] ==> EndsAt(turns[|turns| - 1], s)
    ensures r.Ok? && turns != [] ==> turns[0].over0 <= old(IdSet(s.finished))
  {
    hide Away, Agree, TurnOk, IdSet, Carried;
    turns := [];
    var i := 0;
    while i < |rounds|
      invariant i <= |rounds| && |turns| == i && s.Valid() && IsRun(turns, LimitsOf(s))
      invariant forall k :: 0 <= k < |turns| ==> turns[k].outputs == worker(turns[k].batch, turns[k].seqs)
      invariant turns == [] ==> s.seqs == old(s.seqs) && s.finished == old(s.finished)
      invariant turns != [] ==> Carried(old(s.seqs), turns[0].seqs, old(IdSet(s.finished)))
      invariant turns != [] ==> EndsAt(turns[|turns| - 1], s)
      invariant turns != [] ==> turns[0].over0 <= old(IdSet(s.finished))
    {
      r := DoAll(s, rounds[i].before);
      if r.Panic? {
        return;
      }
      ghost var t;
      r, t := Iterate(s, worker, rounds[i].between);
      if r.Panic? {
        return;
      }
      RunMore(turns, t, LimitsOf(s));
      turns := turns + [t];
      i := i + 1;
    }
    r := Ok(());
  }

  lemma RunMore(turns: seq<Turn>, t: Turn, l: Limits)
    requires IsRun(turns, l) && TurnOk(t, l) && (turns != [] ==> Follows(turns[|turns| - 1], t))
    ensures IsRun(turns + [t], l)
  {
    hide TurnOk, Follows;
    var more := turns + [t];
    forall i | 0 <= i < |more| - 1
      ensures Follows(more[i], more[i + 1])
    {
      assert i < |turns| - 1 ==> Follows(turns[i], turns[i + 1]);
    }
  }
}
