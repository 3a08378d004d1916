/** What the scheduler's queues, sequences and block managers have to agree on. */
module SchedulerState {
  import opened Prelude
  import opened BlockPool
  import opened BlockManagerSpec
  import opened BlockManagerInv
  import opened PrefixCache
  import opened Admission
  import opened Preemption
  import opened Dispatch
  import opened Queues

  /** A sequence (runtime/src/llm_engine/sequence.rs). Its status is told by the queue its task is in. */
  datatype Sequence = Sequence(toks: seq<Token>, outputLen: nat, maxOutput: Option<nat>, ignoreEos: bool,
                               disableCache: bool)

  function TextsOf(seqs: map<SeqId, Sequence>): Texts {
    map q | q in seqs :: seqs[q].toks
  }

  /** The text of a task's sequence. */
  function TextOf(seqs: map<SeqId, Sequence>, t: Task): seq<Token> {
    if t.id in seqs then seqs[t.id].toks else []
  }

  // ---------------------------------------------------------------- tasks

  function Ids(ts: seq<Task>): seq<SeqId> {
    seq(|ts|, i requires 0 <= i < |ts| => ts[i].id)
  }

  function IdSet(ts: seq<Task>): set<SeqId> { set q | q in Ids(ts) }

  lemma IdSetNone()
    ensures IdSet([]) == {}
  {
  }

  /** One more task from the back. */
  lemma IdSetMore(ts: seq<Task>, n: nat)
    requires n < |ts|
    ensures IdSet(ts[n..]) == IdSet(ts[n + 1..]) + {ts[n].id}
  {
    var l, r := Ids(ts[n..]), Ids(ts[n + 1..]);
    assert l[0] == ts[n].id;
    assert forall i :: 0 <= i < |r| ==> l[i + 1] == r[i];
    forall q | q in IdSet(ts[n..])
      ensures q in IdSet(ts[n + 1..]) + {ts[n].id}
    {
      var i :| 0 <= i < |l| && l[i] == q;
      assert i > 0 ==> r[i - 1] == q;
    }
    forall q | q in IdSet(ts[n + 1..])
      ensures q in IdSet(ts[n..])
    {
      var i :| 0 <= i < |r| && r[i] == q;
      assert l[i + 1] == q;
    }
  }

  /** Taking one more task's progress away. */
  lemma ProgressDrop(progress0: map<SeqId, nat>, progress: map<SeqId, nat>, ts: seq<Task>, n: nat)
    requires n < |ts| && progress == progress0 - IdSet(ts[n + 1..])
    ensures progress - {ts[n].id} == progress0 - IdSet(ts[n..])
  {
    hide IdSet;
    IdSetMore(ts, n);
  }

  /** `all` are the tasks in all queues. Each is there once, and `home` tells the task of a sequence. */
  ghost predicate TasksOk(all: multiset<Task>, home: map<SeqId, Task>) {
    && (forall t :: t in all ==> all[t] == 1 && t.id in home && home[t.id] == t)
    && (forall q :: q in home ==> home[q].id == q && home[q] in all)
  }

  /** Tasks from disjoint parts of the queues have different ids. */
  lemma OtherTask(all: multiset<Task>, home: map<SeqId, Task>, x: multiset<Task>, y: multiset<Task>, t: Task, u: Task)
    requires TasksOk(all, home) && x + y <= all && t in x && u in y
    ensures t.id != u.id
  {
    assert t in x + y && u in x + y;
    assert t == u ==> (x + y)[t] >= 2;
  }

  // ---------------------------------------------------------------- devices

  ghost predicate HostAligned(host: Manager) {
    forall q :: q in host.maps ==> Aligned(host.maps[q].filled, host.bs)
  }

  ghost predicate AllSettled(m: Manager) {
    forall q :: q in m.maps ==> Settled(m.bs, m.maps[q])
  }

  /** Every device is in order and knows only sequences of the scheduler; the host counts whole blocks
      as filled, and the disk holds whole filled blocks only. */
  ghost predicate DevicesOk(gpu: Manager, host: Manager, disk: Manager, seqs: map<SeqId, Sequence>) {
    && gpu.bs == host.bs == disk.bs
    && Inv(gpu, TextsOf(seqs), multiset{}) && Inv(host, TextsOf(seqs), multiset{})
    && Inv(disk, TextsOf(seqs), multiset{})
    && HostAligned(host) && AllSettled(disk)
  }

  /** Tasks in `w` (waiting) have a host map, tasks in `a` (allocated) also a GPU map; tasks in `p`
      (pending) have no GPU map and, on the host, nothing but filled whole blocks. */
  ghost predicate Placed(gpu: Manager, host: Manager, w: multiset<Task>, a: multiset<Task>, p: multiset<Task>) {
    && (forall t :: t in w ==> t.id in host.maps)
    && (forall t :: t in a ==> t.id in host.maps && t.id in gpu.maps)
    && (forall t :: t in p ==> t.id !in gpu.maps && (t.id in host.maps ==> Settled(host.bs, host.maps[t.id])))
  }

  /** Only the block list of `q` grew; its filled length is the same. */
  ghost predicate SlotsOnly(before: map<SeqId, BlockMap>, after: map<SeqId, BlockMap>, q: SeqId) {
    q in before && q in after && after == before[q := after[q]] && after[q].filled == before[q].filled
  }

  lemma SlotsOnlySame(maps: map<SeqId, BlockMap>, q: SeqId)
    requires q in maps
    ensures SlotsOnly(maps, maps, q)
  {
    assert maps == maps[q := maps[q]];
  }

  lemma SlotsOnlyAligned(host: Manager, host': Manager, q: SeqId)
    requires HostAligned(host) && SlotsOnly(host.maps, host'.maps, q) && host'.bs == host.bs
    ensures HostAligned(host')
  {
    hide Aligned;
  }

  lemma PlacedAfterExtend(gpu: Manager, gpu': Manager, host: Manager, host': Manager, w: multiset<Task>,
                          a: multiset<Task>, p: multiset<Task>, all: multiset<Task>, home: map<SeqId, Task>, t: Task)
    requires Placed(gpu, host, w, a, p) && TasksOk(all, home) && w + a + p <= all && t in a
    requires SlotsOnly(gpu.maps, gpu'.maps, t.id) && SlotsOnly(host.maps, host'.maps, t.id) && host'.bs == host.bs
    ensures Placed(gpu', host', w, a, p)
  {
    hide Settled;
    forall u | u in p
      ensures u.id != t.id
    {
      assert a + p <= w + a + p <= all;
      OtherTask(all, home, a, p, t, u);
    }
  }

  lemma PlacedAfterPreempt(gpu: Manager, gpu': Manager, host: Manager, w: multiset<Task>, a: multiset<Task>,
                           p: multiset<Task>, all: multiset<Task>, home: map<SeqId, Task>, t: Task)
    requires Placed(gpu, host, w, a, p) && TasksOk(all, home) && w + a + p <= all && t in a
    requires gpu'.maps == gpu.maps - {t.id}
    ensures Placed(gpu', host, w + multiset{t}, a - multiset{t}, p)
  {
    hide Settled;
    forall u | u in a - multiset{t}
      ensures u.id != t.id && u in a
    {
      assert (a - multiset{t}) + multiset{t} == a;
      assert (a - multiset{t}) + multiset{t} <= w + a + p <= all;
      OtherTask(all, home, a - multiset{t}, multiset{t}, u, t);
    }
  }

  lemma PlacedAfterAdmit(gpu: Manager, gpu': Manager, host: Manager, host': Manager, w: multiset<Task>,
                         a: multiset<Task>, p: multiset<Task>, all: multiset<Task>, home: map<SeqId, Task>, t: Task)
    requires Placed(gpu, host, w + multiset{t}, a, p) && TasksOk(all, home) && w + multiset{t} + a + p <= all
    requires t.id in gpu'.maps && gpu'.maps == gpu.maps[t.id := gpu'.maps[t.id]]
    requires SlotsOnly(host.maps, host'.maps, t.id) && host'.bs == host.bs
    ensures Placed(gpu', host', w, a + multiset{t}, p)
  {
    hide Settled;
    assert t in w + multiset{t};
    forall u | u in p
      ensures u.id != t.id
    {
      assert multiset{t} + p <= w + multiset{t} + a + p <= all;
      OtherTask(all, home, multiset{t}, p, t, u);
    }
    forall u | u in w
      ensures u in w + multiset{t}
    {
    }
  }

  lemma PlacedMove(gpu: Manager, host: Manager, w: multiset<Task>, a: multiset<Task>, p: multiset<Task>, t: Task)
    requires Placed(gpu, host, w, a, p) && t in a
    ensures Placed(gpu, host, w + multiset{t}, a - multiset{t}, p)
  {
    hide Settled;
    forall u | u in a - multiset{t}
      ensures u in a
    {
    }
  }

  // ---------------------------------------------------------------- one task on the devices

  /** Extension of a mapped sequence, with its text unchanged in the scheduler. */
  lemma ExtendDevice(m: Manager, seqs: map<SeqId, Sequence>, q: SeqId)
    requires Inv(m, TextsOf(seqs), multiset{}) && q in m.maps && q in seqs
    ensures var r := TryExtend(m, q, seqs[q].toks);
      && r.Ok? && Inv(r.value.0, TextsOf(seqs), multiset{})
      && r.value.0.bs == m.bs && r.value.0.regions == m.regions && SlotsOnly(m.maps, r.value.0.maps, q)
      && (r.value.1 ==> r.value.0.maps[q].slots == |seqs[q].toks|)
      && (!r.value.1 ==> r.value.0 == m) && |r.value.0.pool.blocks| == |m.pool.blocks|
  {
    hide Inv, TryExtend, DivCeil, CanAlloc;
    var texts, toks := TextsOf(seqs), seqs[q].toks;
    TextKept(texts, q, toks);
    TryExtendSafe(m, texts, q, toks);
    SlotsOnlySame(m.maps, q);
  }

  /** Admission to the GPU. */
  lemma AdmitDevice(m: Manager, seqs: map<SeqId, Sequence>, q: SeqId, percent: nat)
    requires Inv(m, TextsOf(seqs), multiset{}) && q in seqs && percent <= 100
    ensures match TryAlloc(m, q, seqs[q].toks, percent)
      case Panic(f) => f == Exhausted
      case Ok((m', ok)) =>
        && Inv(m', TextsOf(seqs), multiset{}) && m'.bs == m.bs && m'.regions == m.regions
        && (!ok ==> m' == m) && |m'.pool.blocks| == |m.pool.blocks|
        && (ok ==> q in m'.maps && m'.maps == m.maps[q := m'.maps[q]] && m'.maps[q].slots == |seqs[q].toks|)
  {
    hide Inv, TryAlloc, DivCeil, CanAlloc, Required, Repinned, Hits;
    var texts, toks := TextsOf(seqs), seqs[q].toks;
    TextKept(texts, q, toks);
    TryAllocAccounting(m, texts, q, toks, percent);
  }

  // ---------------------------------------------------------------- progress of allocated tasks

  /** For each sequence in `progress`, an allocated task, the GPU is filled exactly that far and the
      host not further. */
  ghost predicate ProgressOk(progress: map<SeqId, nat>, gpu: Manager, host: Manager, a: multiset<Task>,
                             home: map<SeqId, Task>) {
    forall q :: q in progress ==>
      && q in home && home[q] in a
      && q in gpu.maps && q in host.maps
      && gpu.maps[q].filled == progress[q] && host.maps[q].filled <= progress[q]
  }

  lemma ProgressAfterExtend(progress: map<SeqId, nat>, gpu: Manager, gpu': Manager, host: Manager, host': Manager,
                            a: multiset<Task>, home: map<SeqId, Task>, q: SeqId)
    requires ProgressOk(progress, gpu, host, a, home)
    requires SlotsOnly(gpu.maps, gpu'.maps, q) && SlotsOnly(host.maps, host'.maps, q)
    ensures ProgressOk(progress, gpu', host', a, home)
  {
  }

  lemma ProgressAfterPreempt(progress: map<SeqId, nat>, gpu: Manager, gpu': Manager, host: Manager, a: multiset<Task>,
                             home: map<SeqId, Task>, t: Task)
    requires ProgressOk(progress, gpu, host, a, home) && t.id in home && home[t.id] == t
    requires gpu'.maps == gpu.maps - {t.id}
    requires forall q :: q in home ==> home[q].id == q
    ensures ProgressOk(progress - {t.id}, gpu', host, a - multiset{t}, home)
  {
    forall q | q in progress - {t.id}
      ensures home[q] in a - multiset{t}
    {
      assert home[q] != t;
    }
  }

  lemma ProgressAfterAdmit(progress: map<SeqId, nat>, gpu: Manager, gpu': Manager, host: Manager, host': Manager,
                           a: multiset<Task>, home: map<SeqId, Task>, t: Task)
    requires ProgressOk(progress, gpu, host, a, home) && t.id !in progress
    requires t.id in gpu'.maps && gpu'.maps == gpu.maps[t.id := gpu'.maps[t.id]]
    requires SlotsOnly(host.maps, host'.maps, t.id)
    ensures ProgressOk(progress, gpu', host', a + multiset{t}, home)
  {
  }

  /** A waiting task has no progress. */
  lemma NoProgress(progress: map<SeqId, nat>, gpu: Manager, host: Manager, all: multiset<Task>, w: multiset<Task>,
                   a: multiset<Task>, home: map<SeqId, Task>, t: Task)
    requires ProgressOk(progress, gpu, host, a, home) && TasksOk(all, home) && w + a <= all && t in w
    ensures t.id !in progress
  {
    forall u | u in a
      ensures u.id != t.id
    {
      OtherTask(all, home, w, a, t, u);
    }
    assert forall q :: q in home ==> home[q].id == q;
  }

  // ---------------------------------------------------------------- what the passes leave alone

  /** The GPU has its size, and no filled length on the host changed. */
  ghost predicate Steady(gpu0: Manager, host0: Manager, gpu: Manager, host: Manager) {
    && |gpu.pool.blocks| == |gpu0.pool.blocks| && gpu.bs == gpu0.bs
    && forall q ::
         (q in host.maps <==> q in host0.maps) && (q in host.maps ==> host.maps[q].filled == host0.maps[q].filled)
  }

  lemma SteadySame(gpu: Manager, host: Manager)
    ensures Steady(gpu, host, gpu, host)
  {
  }

  lemma SteadyTrans(gpu0: Manager, host0: Manager, gpu1: Manager, host1: Manager, gpu2: Manager, host2: Manager)
    requires Steady(gpu0, host0, gpu1, host1) && Steady(gpu1, host1, gpu2, host2)
    ensures Steady(gpu0, host0, gpu2, host2)
  {
  }

  lemma SteadySlots(gpu0: Manager, host0: Manager, gpu: Manager, host: Manager, q: SeqId)
    requires |gpu.pool.blocks| == |gpu0.pool.blocks| && gpu.bs == gpu0.bs && SlotsOnly(host0.maps, host.maps, q)
    ensures Steady(gpu0, host0, gpu, host)
  {
  }

  /** Each of the tasks has the filled length it had on the GPU. */
  ghost predicate FilledAs(gpu0: Manager, gpu: Manager, ts: seq<Task>) {
    forall i :: 0 <= i < |ts| ==>
      ts[i].id in gpu0.maps && ts[i].id in gpu.maps && gpu.maps[ts[i].id].filled == gpu0.maps[ts[i].id].filled
  }

  lemma FilledAsSlots(gpu0: Manager, gpu: Manager, gpu': Manager, ts: seq<Task>, q: SeqId)
    requires FilledAs(gpu0, gpu, ts) && SlotsOnly(gpu.maps, gpu'.maps, q)
    ensures FilledAs(gpu0, gpu', ts)
  {
  }

  lemma FilledAsRest(gpu0: Manager, gpu: Manager, gpu': Manager, queue: seq<Task>)
    requires queue != [] && FilledAs(gpu0, gpu, queue) && forall i, j :: 0 <= i < j < |queue| ==>
      queue[i].id != queue[j].id
    requires gpu' == gpu || gpu'.maps == gpu.maps - {queue[|queue| - 1].id}
    ensures FilledAs(gpu0, gpu', queue[..|queue| - 1])
  {
  }

  lemma FilledAsSame(gpu: Manager, host: Manager, disk: Manager, seqs: map<SeqId, Sequence>, home: map<SeqId, Task>,
                     ws: seq<Task>, acts: seq<Task>, p: multiset<Task>, others: multiset<Task>,
                     progress: map<SeqId, nat>)
    requires Scene(gpu, host, disk, seqs, home, ws, acts, p, others, progress)
    ensures FilledAs(gpu, gpu, acts)
  {
    hide Scene;
    forall i | 0 <= i < |acts|
      ensures acts[i].id in gpu.maps
    {
      SceneTask(gpu, host, disk, seqs, home, ws, acts, p, others, progress, acts[i]);
    }
  }

  /** Slots for the whole text. */
  predicate Ready(gpu: Manager, seqs: map<SeqId, Sequence>, t: Task) {
    t.id in gpu.maps && t.id in seqs && gpu.maps[t.id].slots == |seqs[t.id].toks|
  }

  ghost predicate ListReady(gpu: Manager, seqs: map<SeqId, Sequence>, ts: seq<Task>) {
    forall i :: 0 <= i < |ts| ==> Ready(gpu, seqs, ts[i])
  }

  lemma ReadyList(gpu: Manager, seqs: map<SeqId, Sequence>, ts: seq<Task>)
    ensures ListReady(gpu, seqs, ts) <==> forall t :: t in ts ==> Ready(gpu, seqs, t)
  {
    hide Ready;
  }

  lemma ReadyAppend(gpu: Manager, seqs: map<SeqId, Sequence>, ts: seq<Task>, t: Task)
    requires ListReady(gpu, seqs, ts) && t.id in gpu.maps && t.id in seqs && gpu.maps[t.id].slots == |seqs[t.id].toks|
    ensures ListReady(gpu, seqs, ts + [t])
  {
  }

  /** An active task and its sequence are where they belong. */
  lemma InPlace(gpu: Manager, host: Manager, w: multiset<Task>, a: multiset<Task>, p: multiset<Task>,
                all: multiset<Task>, home: map<SeqId, Task>, seqs: map<SeqId, Sequence>, t: Task)
    requires Placed(gpu, host, w, a, p) && TasksOk(all, home) && w + a + p <= all && home.Keys == seqs.Keys
    ensures t in a ==> t.id in gpu.maps && t.id in host.maps
    ensures t in w ==> t.id in host.maps
    ensures t in w || t in a ==> t in all && t.id in home && home[t.id] == t && t.id in seqs
    ensures forall q :: q in home ==> home[q].id == q
  {
    assert t in w || t in a ==> t in w + a + p;
  }

  lemma ReadyAfterExtend(gpu: Manager, gpu': Manager, seqs: map<SeqId, Sequence>, all: multiset<Task>,
                         home: map<SeqId, Task>, ts: seq<Task>, t: Task)
    requires ListReady(gpu, seqs, ts) && TasksOk(all, home) && multiset(ts) + multiset{t} <= all
    requires SlotsOnly(gpu.maps, gpu'.maps, t.id)
    ensures ListReady(gpu', seqs, ts)
  {
    forall i | 0 <= i < |ts|
      ensures Ready(gpu', seqs, ts[i])
    {
      OtherTask(all, home, multiset(ts), multiset{t}, ts[i], t);
    }
  }

  lemma ReadyAfterPreempt(gpu: Manager, gpu': Manager, seqs: map<SeqId, Sequence>, all: multiset<Task>,
                          home: map<SeqId, Task>, ts: seq<Task>, t: Task)
    requires ListReady(gpu, seqs, ts) && TasksOk(all, home) && multiset(ts) + multiset{t} <= all
    requires gpu'.maps == gpu.maps - {t.id}
    ensures ListReady(gpu', seqs, ts)
  {
    forall i | 0 <= i < |ts|
      ensures Ready(gpu', seqs, ts[i])
    {
      OtherTask(all, home, multiset(ts), multiset{t}, ts[i], t);
    }
  }

  lemma ProgressAfterMove(progress: map<SeqId, nat>, gpu: Manager, host: Manager, a: multiset<Task>,
                          home: map<SeqId, Task>, t: Task)
    requires ProgressOk(progress, gpu, host, a, home) && t.id in home && home[t.id] == t
    requires forall q :: q in home ==> home[q].id == q
    ensures ProgressOk(progress - {t.id}, gpu, host, a - multiset{t}, home)
  {
    forall q | q in progress - {t.id}
      ensures home[q] in a - multiset{t}
    {
      assert home[q] != t;
    }
  }

  // ---------------------------------------------------------------- the whole scene

  /** The devices, the waiting tasks `ws` and the active tasks `acts`, the pending tasks `p` and all
      other tasks agree. */
  ghost predicate Scene(gpu: Manager, host: Manager, disk: Manager, seqs: map<SeqId, Sequence>, home: map<SeqId, Task>,
                        ws: seq<Task>, acts: seq<Task>, p: multiset<Task>, others: multiset<Task>,
                        progress: map<SeqId, nat>) {
    && DevicesOk(gpu, host, disk, seqs)
    && TasksOk(multiset(ws) + multiset(acts) + p + others, home) && home.Keys == seqs.Keys
    && Placed(gpu, host, multiset(ws), multiset(acts), p)
    && ProgressOk(progress, gpu, host, multiset(acts), home)
  }

  /** The tasks of two lists are the same, up to order and side. */
  ghost predicate SameTasks(ws: seq<Task>, acts: seq<Task>, ws': seq<Task>, acts': seq<Task>) {
    multiset(ws') + multiset(acts') == multiset(ws) + multiset(acts)
  }

  /** `t` moves from the second list to the first. */
  ghost predicate Moves(t: Task, from: seq<Task>, to: seq<Task>, from': seq<Task>, to': seq<Task>) {
    t in from && multiset(from') == multiset(from) - multiset{t} && multiset(to') == multiset(to) + multiset{t}
  }

  lemma MovesSame(t: Task, from: seq<Task>, to: seq<Task>, from': seq<Task>, to': seq<Task>)
    requires Moves(t, from, to, from', to')
    ensures SameTasks(from, to, from', to') && SameTasks(to, from, to', from')
  {
    assert multiset(from') + multiset{t} == multiset(from);
  }

  lemma TotalSame(ws: seq<Task>, acts: seq<Task>, ws': seq<Task>, acts': seq<Task>, p: multiset<Task>,
                  others: multiset<Task>)
    requires SameTasks(ws, acts, ws', acts')
    ensures multiset(ws') + multiset(acts') + p + others == multiset(ws) + multiset(acts) + p + others
  {
  }

  /** The parts of a scene are parts of all tasks. */
  lemma Within(w: multiset<Task>, a: multiset<Task>, p: multiset<Task>, others: multiset<Task>)
    ensures w + a + p <= w + a + p + others
  {
  }

  lemma SceneTask(gpu: Manager, host: Manager, disk: Manager, seqs: map<SeqId, Sequence>, home: map<SeqId, Task>,
                  ws: seq<Task>, acts: seq<Task>, p: multiset<Task>, others: multiset<Task>, progress: map<SeqId, nat>,
                  t: Task)
    requires Scene(gpu, host, disk, seqs, home, ws, acts, p, others, progress)
    ensures DevicesOk(gpu, host, disk, seqs)
    ensures t in acts ==> t.id in gpu.maps && t.id in host.maps && t.id in seqs
    ensures t in ws ==> t.id in host.maps && t.id in seqs
  {
    hide DevicesOk, Placed, TasksOk, ProgressOk;
    Within(multiset(ws), multiset(acts), p, others);
    InPlace(gpu, host, multiset(ws), multiset(acts), p, multiset(ws) + multiset(acts) + p + others, home, seqs, t);
  }

  lemma SceneExtend(gpu: Manager, host: Manager, disk: Manager, seqs: map<SeqId, Sequence>, home: map<SeqId, Task>,
                    ws: seq<Task>, acts: seq<Task>, p: multiset<Task>, others: multiset<Task>,
                    progress: map<SeqId, nat>, t: Task, gpu': Manager, host': Manager, ts: seq<Task>)
    requires Scene(gpu, host, disk, seqs, home, ws, acts, p, others, progress) && t in acts
    requires PartOf(ts, acts) && t !in ts && ListReady(gpu, seqs, ts)
    requires DevicesOk(gpu', host', disk, seqs)
    requires SlotsOnly(gpu.maps, gpu'.maps, t.id) && SlotsOnly(host.maps, host'.maps, t.id) && host'.bs == host.bs
    ensures Scene(gpu', host', disk, seqs, home, ws, acts, p, others, progress)
    ensures ListReady(gpu', seqs, ts)
  {
    hide DevicesOk, Placed, TasksOk, ProgressOk, SlotsOnly, ListReady;
    var all := multiset(ws) + multiset(acts) + p + others;
    Within(multiset(ws), multiset(acts), p, others);
    PlacedAfterExtend(gpu, gpu', host, host', multiset(ws), multiset(acts), p, all, home, t);
    ProgressAfterExtend(progress, gpu, gpu', host, host', multiset(acts), home, t.id);
    PartAndOne(ts, acts, t, multiset(ws), p, others);
    ReadyAfterExtend(gpu, gpu', seqs, all, home, ts, t);
  }

  ghost predicate PartOf(ts: seq<Task>, acts: seq<Task>) {
    multiset(ts) <= multiset(acts)
  }

  lemma PartAndOne(ts: seq<Task>, acts: seq<Task>, t: Task, w: multiset<Task>, p: multiset<Task>,
                   others: multiset<Task>)
    requires PartOf(ts, acts) && t in acts && t !in ts
    ensures multiset(ts) + multiset{t} <= w + multiset(acts) + p + others
  {
    assert multiset(ts) + multiset{t} <= multiset(acts);
  }

  lemma ScenePreempt(gpu: Manager, host: Manager, disk: Manager, seqs: map<SeqId, Sequence>, home: map<SeqId, Task>,
                     ws: seq<Task>, acts: seq<Task>, p: multiset<Task>, others: multiset<Task>,
                     progress: map<SeqId, nat>, t: Task, gpu': Manager, ws': seq<Task>, acts': seq<Task>, ts: seq<Task>)
    requires Scene(gpu, host, disk, seqs, home, ws, acts, p, others, progress) && Moves(t, acts, ws, acts', ws')
    requires PartOf(ts, acts) && t !in ts && ListReady(gpu, seqs, ts)
    requires DevicesOk(gpu', host, disk, seqs) && gpu'.maps == gpu.maps - {t.id}
    ensures Scene(gpu', host, disk, seqs, home, ws', acts', p, others, progress - {t.id})
    ensures SameTasks(ws, acts, ws', acts')
    ensures ListReady(gpu', seqs, ts)
  {
    hide DevicesOk, Placed, TasksOk, ProgressOk, ListReady;
    var all := multiset(ws) + multiset(acts) + p + others;
    Within(multiset(ws), multiset(acts), p, others);
    InPlace(gpu, host, multiset(ws), multiset(acts), p, all, home, seqs, t);
    PlacedAfterPreempt(gpu, gpu', host, multiset(ws), multiset(acts), p, all, home, t);
    ProgressAfterPreempt(progress, gpu, gpu', host, multiset(acts), home, t);
    MovesSame(t, acts, ws, acts', ws');
    TotalSame(ws, acts, ws', acts', p, others);
    PartAndOne(ts, acts, t, multiset(ws), p, others);
    ReadyAfterPreempt(gpu, gpu', seqs, all, home, ts, t);
  }

  lemma SceneRetain(gpu: Manager, host: Manager, disk: Manager, seqs: map<SeqId, Sequence>, home: map<SeqId, Task>,
                    ws: seq<Task>, acts: seq<Task>, p: multiset<Task>, others: multiset<Task>,
                    progress: map<SeqId, nat>, t: Task, ws': seq<Task>, acts': seq<Task>)
    requires Scene(gpu, host, disk, seqs, home, ws, acts, p, others, progress) && Moves(t, acts, ws, acts', ws')
    ensures Scene(gpu, host, disk, seqs, home, ws', acts', p, others, progress - {t.id})
    ensures SameTasks(ws, acts, ws', acts')
  {
    hide DevicesOk, Placed, TasksOk, ProgressOk;
    var all := multiset(ws) + multiset(acts) + p + others;
    Within(multiset(ws), multiset(acts), p, others);
    InPlace(gpu, host, multiset(ws), multiset(acts), p, all, home, seqs, t);
    PlacedMove(gpu, host, multiset(ws), multiset(acts), p, t);
    ProgressAfterMove(progress, gpu, host, multiset(acts), home, t);
    MovesSame(t, acts, ws, acts', ws');
    TotalSame(ws, acts, ws', acts', p, others);
  }

  lemma SceneAdmit(gpu: Manager, host: Manager, disk: Manager, seqs: map<SeqId, Sequence>, home: map<SeqId, Task>,
                   ws: seq<Task>, acts: seq<Task>, p: multiset<Task>, others: multiset<Task>, progress: map<SeqId, nat>,
                   t: Task, gpu': Manager, host': Manager, ws': seq<Task>, acts': seq<Task>)
    requires Scene(gpu, host, disk, seqs, home, ws, acts, p, others, progress) && Moves(t, ws, acts, ws', acts')
    requires DevicesOk(gpu', host', disk, seqs)
    requires t.id in gpu'.maps && gpu'.maps == gpu.maps[t.id := gpu'.maps[t.id]]
    requires SlotsOnly(host.maps, host'.maps, t.id) && host'.bs == host.bs
    ensures Scene(gpu', host', disk, seqs, home, ws', acts', p, others, progress) && SameTasks(ws, acts, ws', acts')
    ensures t.id in seqs && gpu'.maps[t.id].slots == |seqs[t.id].toks| && ListReady(gpu, seqs, acts) ==>
      ListReady(gpu', seqs, acts')
  {
    hide DevicesOk, Placed, TasksOk, ProgressOk, SlotsOnly, ListReady;
    var all := multiset(ws) + multiset(acts) + p + others;
    var w' := multiset(ws');
    assert w' + multiset{t} == multiset(ws);
    Within(multiset(ws), multiset(acts), p, others);
    InPlace(gpu, host, multiset(ws), multiset(acts), p, all, home, seqs, t);
    PlacedAfterAdmit(gpu, gpu', host, host', w', multiset(acts), p, all, home, t);
    assert multiset(ws) + multiset(acts) <= all;
    NoProgress(progress, gpu, host, all, multiset(ws), multiset(acts), home, t);
    ProgressAfterAdmit(progress, gpu, gpu', host, host', multiset(acts), home, t);
    MovesSame(t, ws, acts, ws', acts');
    TotalSame(ws, acts, ws', acts', p, others);
    if gpu'.maps[t.id].slots == |seqs[t.id].toks| && ListReady(gpu, seqs, acts) {
      ReadyAfterAdmit(gpu, gpu', seqs, all, home, multiset(ws), acts, acts', t);
    }
  }

  lemma ReadyAfterAdmit(gpu: Manager, gpu': Manager, seqs: map<SeqId, Sequence>, all: multiset<Task>,
                        home: map<SeqId, Task>, w: multiset<Task>, acts: seq<Task>, acts': seq<Task>, t: Task)
    requires ListReady(gpu, seqs, acts) && TasksOk(all, home) && w + multiset(acts) <= all && t in w
    requires t.id in gpu'.maps && gpu'.maps == gpu.maps[t.id := gpu'.maps[t.id]]
    requires t.id in seqs && gpu'.maps[t.id].slots == |seqs[t.id].toks|
    requires multiset(acts') == multiset(acts) + multiset{t}
    ensures ListReady(gpu', seqs, acts')
  {
    ReadyList(gpu, seqs, acts);
    ReadyList(gpu', seqs, acts');
    forall u | u in acts'
      ensures Ready(gpu', seqs, u)
    {
      assert u in multiset(acts');
      if u != t {
        assert u in acts;
        OtherTask(all, home, w, multiset(acts), t, u);
      }
    }
  }

  /** The tasks before position `k` are others than the one there. */
  lemma PrefixPart(gpu: Manager, host: Manager, disk: Manager, seqs: map<SeqId, Sequence>, home: map<SeqId, Task>,
                   ws: seq<Task>, acts: seq<Task>, p: multiset<Task>, others: multiset<Task>, progress: map<SeqId, nat>,
                   k: nat)
    requires Scene(gpu, host, disk, seqs, home, ws, acts, p, others, progress) && k < |acts|
    ensures PartOf(acts[..k], acts) && acts[k] !in acts[..k]
  {
    hide DevicesOk, Placed, ProgressOk;
    assert acts == acts[..k] + acts[k..];
    var t := acts[k];
    var all := multiset(ws) + multiset(acts) + p + others;
    assert t in all && all[t] == 1;
    assert t in acts[k..];
    assert t in acts[..k] ==> multiset(acts)[t] >= 2;
    assert all[t] >= multiset(acts)[t];
  }

  /** The last active task moves to its place among the waiting ones. */
  lemma MovesLast(ws: seq<Task>, acts: seq<Task>, k: nat)
    requires acts != [] && k <= |ws|
    ensures var n := |acts| - 1; Moves(acts[n], acts, ws, acts[..n], InsertAt(ws, acts[n], k))
  {
    var n := |acts| - 1;
    assert acts == acts[..n] + [acts[n]];
    InsertAtTasks(ws, acts[n], k);
  }

  /** The first waiting task moves behind the active ones. */
  lemma MovesFirst(ws: seq<Task>, acts: seq<Task>)
    requires ws != []
    ensures Moves(ws[0], ws, acts, ws[1..], acts + [ws[0]])
  {
    assert ws == [ws[0]] + ws[1..];
  }

  lemma SameTasksRefl(a: seq<Task>, b: seq<Task>)
    ensures SameTasks(a, b, a, b)
  {
  }

  lemma SameTasksTrans(a: seq<Task>, b: seq<Task>, c: seq<Task>, d: seq<Task>, e: seq<Task>, f: seq<Task>)
    requires SameTasks(a, b, c, d) && SameTasks(c, d, e, f)
    ensures SameTasks(a, b, e, f)
  {
  }

  lemma LaterNotBefore(queue: seq<Task>, kept: seq<Task>, n: nat)
    requires kept <= queue && |kept| <= n < |queue|
    requires queue[n] !in queue[..n]
    ensures queue[n] !in kept && PartOf(kept, queue)
  {
    assert queue == kept + queue[|kept|..];
    forall t | t in kept
      ensures t in queue[..n]
    {
      var i :| 0 <= i < |kept| && kept[i] == t;
      assert queue[..n][i] == t;
    }
  }

  lemma NoneReady(gpu: Manager, seqs: map<SeqId, Sequence>)
    ensures ListReady(gpu, seqs, [])
  {
  }

  lemma DistinctTasks(all: multiset<Task>, home: map<SeqId, Task>, ts: seq<Task>)
    requires TasksOk(all, home) && multiset(ts) <= all
    ensures forall i, j :: 0 <= i < j < |ts| ==> ts[i].id != ts[j].id
  {
    hide TasksOk;
    forall i, j | 0 <= i < j < |ts|
      ensures ts[i].id != ts[j].id
    {
      assert ts == ts[..j] + ts[j..];
      assert ts[i] in ts[..j] && ts[j] in ts[j..];
      OtherTask(all, home, multiset(ts[..j]), multiset(ts[j..]), ts[i], ts[j]);
    }
  }

  lemma ActiveDistinct(gpu: Manager, host: Manager, disk: Manager, seqs: map<SeqId, Sequence>, home: map<SeqId, Task>,
                       ws: seq<Task>, acts: seq<Task>, p: multiset<Task>, others: multiset<Task>,
                       progress: map<SeqId, nat>)
    requires Scene(gpu, host, disk, seqs, home, ws, acts, p, others, progress)
    ensures forall i, j :: 0 <= i < j < |acts| ==> acts[i].id != acts[j].id
  {
    hide DevicesOk, Placed, ProgressOk, TasksOk;
    DistinctTasks(multiset(ws) + multiset(acts) + p + others, home, acts);
  }
}
