/** The rounds of the decode loop (runtime/src/llm_engine/scheduler.rs, lines 543-565): when a task is extended
    and when the last one has to go. */
module Decoding {
  import opened Prelude
  import opened BlockPool
  import opened BlockManagerSpec
  import opened BlockManagerInv
  import opened Allocation
  import opened Release
  import opened Admission
  import opened Preemption
  import opened Forgetting
  import opened Queues
  import opened SchedulerState
  import opened QueuePasses

  /** The GPU, the tasks extended so far and those still to be looked at. */
  datatype Moment = Moment(gpu: Manager, kept: seq<Task>, rest: seq<Task>)

  /** The blocks that a task needs for its new tokens are free. */
  predicate Fits(gpu: Manager, seqs: map<SeqId, Sequence>, t: Task) {
    Needed(gpu, t.id, TextOf(seqs, t)) <= |gpu.pool.free|
  }

  /** A preempted task gives its blocks back and leaves what it has filled in the cache. */
  ghost predicate GivesBack(m: Manager, m': Manager, q: SeqId) {
    m'.maps == m.maps - {q} && |m'.pool.free| == |m.pool.free| + Unique(m, q) && Forgets(m, m', q, false)
  }

  /** A round: the first task is extended if it fits, and only if it does not, the last one has to go; that may
      be the task itself, which then keeps its blocks. */
  ghost predicate Round(seqs: map<SeqId, Sequence>, s: Moment, s': Moment) {
    && s.rest != []
    && var t, n := s.rest[0], |s.rest| - 1;
    if Fits(s.gpu, seqs, t) then
      && Extended(s.gpu, s'.gpu, TextsOf(seqs), t.id, TextOf(seqs, t))
      && s'.kept == s.kept + [t] && s'.rest == s.rest[1..]
    else
      && (if n == 0 then s'.gpu == s.gpu else GivesBack(s.gpu, s'.gpu, s.rest[n].id))
      && s'.kept == s.kept && s'.rest == s.rest[..n]
  }

  ghost predicate IsDecode(seqs: map<SeqId, Sequence>, trace: seq<Moment>) {
    trace != [] && forall i :: 0 <= i < |trace| - 1 ==> Round(seqs, trace[i], trace[i + 1])
  }

  /** The tasks are mapped, and each is there once. */
  ghost predicate Queue(gpu: Manager, seqs: map<SeqId, Sequence>, ts: seq<Task>) {
    && Inv(gpu, TextsOf(seqs), multiset{})
    && (forall i :: 0 <= i < |ts| ==> ts[i].id in gpu.maps && ts[i].id in seqs)
    && forall i, j :: 0 <= i < j < |ts| ==> ts[i].id != ts[j].id
  }

  /** One task is extended or refused. */
  lemma ExtendOrRefuse(gpu: Manager, seqs: map<SeqId, Sequence>, ts: seq<Task>)
    requires Queue(gpu, seqs, ts) && ts != []
    ensures var q := ts[0].id; var toks := seqs[q].toks; var r := TryExtend(gpu, q, toks);
      && r.Ok? && (r.value.1 <==> Fits(gpu, seqs, ts[0])) && (!r.value.1 ==> r.value.0 == gpu)
      && (r.value.1 ==> Extended(gpu, r.value.0, TextsOf(seqs), q, toks) && Queue(r.value.0, seqs, ts[1..]))
  {
    hide Inv, TryExtend, DivCeil, OthersKept, Needed;
    var q := ts[0].id;
    var toks := seqs[q].toks;
    TextKept(TextsOf(seqs), q, toks);
    TryExtendSafe(gpu, TextsOf(seqs), q, toks);
    FullPool(gpu.pool, Needed(gpu, q, toks));
  }

  lemma FullPool(p: Pool, n: int)
    ensures CanAlloc(p, n, 100) <==> n <= |p.free|
  {
    assert 100 * |p.blocks| / 100 == |p.blocks|;
  }

  /** The last task goes. */
  lemma LastGoes(gpu: Manager, seqs: map<SeqId, Sequence>, ts: seq<Task>)
    requires Queue(gpu, seqs, ts) && |ts| > 1
    ensures var n := |ts| - 1;
      && FreeSeq(gpu, ts[n].id, false).Ok?
      && GivesBack(gpu, FreeSeq(gpu, ts[n].id, false).value, ts[n].id)
      && Queue(FreeSeq(gpu, ts[n].id, false).value, seqs, ts[..n])
  {
    hide Inv, FreeSeq, Forgets, Unique, KeptFor, Held;
    ReleaseSafe(gpu, TextsOf(seqs), ts[|ts| - 1].id, false);
    ForgetsExactly(gpu, TextsOf(seqs), ts[|ts| - 1].id, false);
  }

  /** The decode loop is a sequence of such rounds: a task goes only when the first one not yet extended does
      not fit. */
  lemma {:induction false} DecodeRounds(gpu: Manager, seqs: map<SeqId, Sequence>, waiting: seq<Task>, kept: seq<Task>,
                                        active: seq<Task>) returns (trace: seq<Moment>)
    requires Queue(gpu, seqs, active)
    ensures Extending(gpu, seqs, waiting, kept, active).Ok?
    ensures IsDecode(seqs, trace) && trace[0] == Moment(gpu, kept, active)
    ensures var r := Extending(gpu, seqs, waiting, kept, active).value;
      trace[|trace| - 1] == Moment(r.0, r.2, [])
    decreases |active|
  {
    hide TryExtend, FreeSeq, Insert, Queue, Round, WithoutLast, Fits;
    if active == [] {
      trace := [Moment(gpu, kept, active)];
    } else {
      var t := active[0];
      QueueKnown(gpu, seqs, active);
      ExtendOrRefuse(gpu, seqs, active);
      var (gpu1, extended) := TryExtend(gpu, t.id, seqs[t.id].toks).value;
      ExtendingStep(gpu, gpu1, seqs, waiting, kept, active, extended);
      WithoutLastIs(active);
      var more;
      if extended {
        more := DecodeRounds(gpu1, seqs, waiting, kept + [t], active[1..]);
        RoundExtends(seqs, Moment(gpu, kept, active), gpu1);
      } else if |active| == 1 {
        QueueNone(gpu1, seqs, active);
        more := DecodeRounds(gpu1, seqs, Insert(waiting, t), kept, []);
        RoundKeeps(seqs, Moment(gpu, kept, active));
      } else {
        LastGoes(gpu, seqs, active);
        var v := active[|active| - 1];
        var gpu2 := FreeSeq(gpu, v.id, false).value;
        more := DecodeRounds(gpu2, seqs, Insert(waiting, v), kept, WithoutLast(active));
        RoundDrops(seqs, Moment(gpu, kept, active), gpu2);
      }
      trace := [Moment(gpu, kept, active)] + more;
      DecodeMore(seqs, Moment(gpu, kept, active), more);
    }
  }

  lemma QueueKnown(gpu: Manager, seqs: map<SeqId, Sequence>, ts: seq<Task>)
    requires Queue(gpu, seqs, ts) && ts != []
    ensures ts[0].id in seqs && TextOf(seqs, ts[0]) == seqs[ts[0].id].toks
  {
    hide Inv;
  }

  lemma QueueNone(gpu: Manager, seqs: map<SeqId, Sequence>, ts: seq<Task>)
    requires Queue(gpu, seqs, ts)
    ensures Queue(gpu, seqs, [])
  {
    hide Inv;
  }

  lemma RoundExtends(seqs: map<SeqId, Sequence>, s: Moment, gpu1: Manager)
    requires s.rest != [] && Fits(s.gpu, seqs, s.rest[0])
    requires Extended(s.gpu, gpu1, TextsOf(seqs), s.rest[0].id, TextOf(seqs, s.rest[0]))
    ensures Round(seqs, s, Moment(gpu1, s.kept + [s.rest[0]], s.rest[1..]))
  {
    hide Extended, Fits;
  }

  lemma RoundKeeps(seqs: map<SeqId, Sequence>, s: Moment)
    requires |s.rest| == 1 && !Fits(s.gpu, seqs, s.rest[0])
    ensures Round(seqs, s, Moment(s.gpu, s.kept, []))
  {
    hide Extended, Fits;
  }

  lemma RoundDrops(seqs: map<SeqId, Sequence>, s: Moment, gpu2: Manager)
    requires |s.rest| > 1 && !Fits(s.gpu, seqs, s.rest[0]) && GivesBack(s.gpu, gpu2, s.rest[|s.rest| - 1].id)
    ensures Round(seqs, s, Moment(gpu2, s.kept, s.rest[..|s.rest| - 1]))
  {
    hide Extended, Fits, GivesBack;
  }

  lemma DecodeMore(seqs: map<SeqId, Sequence>, s: Moment, more: seq<Moment>)
    requires IsDecode(seqs, more) && Round(seqs, s, more[0])
    ensures IsDecode(seqs, [s] + more)
  {
    hide Round;
    var all := [s] + more;
    forall i | 0 <= i < |all| - 1
      ensures Round(seqs, all[i], all[i + 1])
    {
      assert i > 0 ==> Round(seqs, more[i - 1], more[i - 1 + 1]);
    }
  }

  // ---------------------------------------------------------------- when nobody has to go

  /** The blocks that the tasks need together. */
  function NeedOf(gpu: Manager, seqs: map<SeqId, Sequence>, ts: seq<Task>): int {
    if ts == [] then 0 else Needed(gpu, ts[0].id, TextOf(seqs, ts[0])) + NeedOf(gpu, seqs, ts[1..])
  }

  lemma {:induction false} NeedNotNegative(gpu: Manager, seqs: map<SeqId, Sequence>, ts: seq<Task>)
    requires Queue(gpu, seqs, ts)
    ensures NeedOf(gpu, seqs, ts) >= 0
    decreases |ts|
  {
    hide Inv, Needed;
    if ts != [] {
      NeedNotNegative(gpu, seqs, ts[1..]);
      NeededNotNegative(gpu, seqs, ts[0]);
    }
  }

  lemma NeededNotNegative(gpu: Manager, seqs: map<SeqId, Sequence>, t: Task)
    requires Inv(gpu, TextsOf(seqs), multiset{}) && t.id in seqs
    ensures Needed(gpu, t.id, TextOf(seqs, t)) >= 0
  {
    hide Inv, AllocBlocks, Extended, Needed;
    AllocBlocksSafe(gpu, TextsOf(seqs), t.id, seqs[t.id].toks);
  }

  /** Extending one task changes no need of another. */
  lemma {:induction false} NeedAfter(gpu: Manager, gpu1: Manager, seqs: map<SeqId, Sequence>, q: SeqId, ts: seq<Task>)
    requires gpu1.bs == gpu.bs && q in gpu1.maps && gpu1.maps == gpu.maps[q := gpu1.maps[q]]
    requires forall i :: 0 <= i < |ts| ==> ts[i].id != q
    ensures NeedOf(gpu1, seqs, ts) == NeedOf(gpu, seqs, ts)
    decreases |ts|
  {
    if ts != [] {
      NeedAfter(gpu, gpu1, seqs, q, ts[1..]);
    }
  }

  lemma {:induction false} KeptBound(gpu: Manager, seqs: map<SeqId, Sequence>, waiting: seq<Task>, kept: seq<Task>,
                                     active: seq<Task>)
    requires Extending(gpu, seqs, waiting, kept, active).Ok?
    ensures |Extending(gpu, seqs, waiting, kept, active).value.2| <= |kept| + |active|
    decreases |active|
  {
    hide TryExtend, FreeSeq, Insert;
    if active != [] && active[0].id in seqs && TryExtend(gpu, active[0].id, seqs[active[0].id].toks).Ok? {
      var (gpu1, extended) := TryExtend(gpu, active[0].id, seqs[active[0].id].toks).value;
      if extended {
        KeptBound(gpu1, seqs, waiting, kept + [active[0]], active[1..]);
      } else if |active| > 1 {
        var v := active[|active| - 1];
        KeptBound(FreeSeq(gpu1, v.id, false).value, seqs, Insert(waiting, v), kept, WithoutLast(active));
      }
    }
  }

  /** The decode loop keeps all active tasks if and only if the free blocks are enough for all of them. */
  lemma {:induction false} NoneGoes(gpu: Manager, seqs: map<SeqId, Sequence>, waiting: seq<Task>, kept: seq<Task>,
                                    active: seq<Task>)
    requires Queue(gpu, seqs, active)
    ensures Extending(gpu, seqs, waiting, kept, active).Ok?
    ensures Extending(gpu, seqs, waiting, kept, active).value.2 == kept + active <==>
      NeedOf(gpu, seqs, active) <= |gpu.pool.free|
    decreases |active|
  {
    hide TryExtend, FreeSeq, Insert, Queue, WithoutLast, Needed, Inv, OthersKept, DivCeil;
    var trace := DecodeRounds(gpu, seqs, waiting, kept, active);
    if active != [] {
      var t := active[0];
      QueueKnown(gpu, seqs, active);
      ExtendOrRefuse(gpu, seqs, active);
      var (gpu1, extended) := TryExtend(gpu, t.id, seqs[t.id].toks).value;
      ExtendingStep(gpu, gpu1, seqs, waiting, kept, active, extended);
      if extended {
        NoneGoes(gpu1, seqs, waiting, kept + [t], active[1..]);
        OtherTasks(gpu, seqs, active);
        NeedAfter(gpu, gpu1, seqs, t.id, active[1..]);
        assert kept + [t] + active[1..] == kept + active;
      } else {
        QueueRest(gpu, seqs, active);
        NeedNotNegative(gpu, seqs, active[1..]);
        KeptLess(gpu, seqs, waiting, kept, active);
      }
    }
  }

  lemma OtherTasks(gpu: Manager, seqs: map<SeqId, Sequence>, ts: seq<Task>)
    requires Queue(gpu, seqs, ts) && ts != []
    ensures forall i :: 0 <= i < |ts[1..]| ==> ts[1..][i].id != ts[0].id
  {
    hide Inv;
  }

  lemma QueueRest(gpu: Manager, seqs: map<SeqId, Sequence>, ts: seq<Task>)
    requires Queue(gpu, seqs, ts) && ts != []
    ensures Queue(gpu, seqs, ts[1..])
  {
    hide Inv;
  }

  lemma KeptLess(gpu: Manager, seqs: map<SeqId, Sequence>, waiting: seq<Task>, kept: seq<Task>, active: seq<Task>)
    requires active != [] && active[0].id in seqs
    requires TryExtend(gpu, active[0].id, seqs[active[0].id].toks) == Ok((gpu, false))
    requires Extending(gpu, seqs, waiting, kept, active).Ok?
    ensures |Extending(gpu, seqs, waiting, kept, active).value.2| < |kept| + |active|
  {
    hide TryExtend, FreeSeq, Insert;
    if |active| > 1 {
      var v := active[|active| - 1];
      KeptBound(FreeSeq(gpu, v.id, false).value, seqs, Insert(waiting, v), kept, WithoutLast(active));
    }
  }

  // ---------------------------------------------------------------- for the scheduler

  /** The active tasks of the scheduler are such a queue. */
  lemma SceneQueue(gpu: Manager, host: Manager, disk: Manager, seqs: map<SeqId, Sequence>, home: map<SeqId, Task>,
                   ws: seq<Task>, acts: seq<Task>, p: multiset<Task>, others: multiset<Task>, progress: map<SeqId, nat>)
    requires Scene(gpu, host, disk, seqs, home, ws, acts, p, others, progress)
    ensures Queue(gpu, seqs, acts)
  {
    hide Scene, Inv;
    SceneGpu(gpu, host, disk, seqs, home, ws, acts, p, others, progress);
    ActiveDistinct(gpu, host, disk, seqs, home, ws, acts, p, others, progress);
    forall i | 0 <= i < |acts|
      ensures acts[i].id in gpu.maps && acts[i].id in seqs
    {
      SceneTask(gpu, host, disk, seqs, home, ws, acts, p, others, progress, acts[i]);
    }
  }

  lemma SceneGpu(gpu: Manager, host: Manager, disk: Manager, seqs: map<SeqId, Sequence>, home: map<SeqId, Task>,
                 ws: seq<Task>, acts: seq<Task>, p: multiset<Task>, others: multiset<Task>, progress: map<SeqId, nat>)
    requires Scene(gpu, host, disk, seqs, home, ws, acts, p, others, progress)
    ensures Inv(gpu, TextsOf(seqs), multiset{})
  {
    hide Inv, HostAligned, AllSettled, Placed, TasksOk, ProgressOk;
  }

  /** On the host a task gets slots for its whole text exactly if its blocks are free; otherwise nothing is
      done, and it goes on without. */
  lemma HostExtends(host: Manager, seqs: map<SeqId, Sequence>, t: Task)
    requires Inv(host, TextsOf(seqs), multiset{}) && t.id in seqs && t.id in host.maps
    ensures var host' := ExtendOn(host, seqs, t.id);
      if Fits(host, seqs, t) then Extended(host, host', TextsOf(seqs), t.id, TextOf(seqs, t)) else host' == host
  {
    hide Inv, TryExtend, Extended, Needed;
    ExtendOrRefuse(host, seqs, [t]);
  }
}
