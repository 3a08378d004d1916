/** A run of the scheduler whose backup copies the wrong block (runtime/src/llm_engine/engine.rs, lines
    322-392; scheduler.rs, lines 183-188 and 742-754): the finished task is removed while the copy is still
    to come, and the next batch writes to its source. */
module LostBackup {
  import opened Prelude
  import opened BlockPool
  import opened BlockManagerSpec
  import opened BlockManagerInv
  import opened Allocation
  import opened PrefixCache
  import opened Admission
  import opened Regions
  import opened KvCopy
  import opened Dispatch
  import opened StagedCopy
  import opened Queues
  import opened SchedulerState
  import opened QueuePasses
  import opened Reordering
  import opened Batches
  import opened Updates
  import opened BlockManagerRuns
  import opened Lifecycle
  import opened Scheduling
  import opened OneToken
  import T = Transfer
  import Backup

  // Blocks of one token, two of them on the GPU and one on the host and on the disk each. Request 1 is [5]
  // and ends with its first output; its block on the host is to be copied to the disk. Request 2 is [7].

  const T1 := Task(1, 1, 1)
  const T2 := Task(2, 2, 2)
  function Q1(forbids: bool): Sequence { Sequence([5], 0, Some(1), true, forbids) }
  function Q1Done(forbids: bool): Sequence { Sequence([5, 9], 1, Some(1), true, forbids) }
  const Q2 := Sequence([7], 0, None, true, false)

  const H5: Hash := Of([5])
  const H7: Hash := Of([7])
  const NONE := Block(0, Free, [], NoHash)
  const U5 := Block(1, Used, [5], H5)
  const F5 := Block(0, Free, [5], H5)
  const U7 := Block(1, Used, [7], H7)
  const T5: map<Hash, BlockId> := map[H5 := 0]
  const NEW := BlockMap([], 0, 0)

  // -------------------------------------------------------------- one turn with one task of one token

  /** The batch of one such sequence computes its block and writes it through to the host. */
  lemma DispatchToken(gpu: Manager, host: Manager, q: SeqId, t: Token, i: BlockId, j: BlockId, budget: nat)
    requires gpu.bs == host.bs == 1 && budget > 0
    requires q in gpu.maps && gpu.maps[q] == BlockMap([i], 1, 0) && i < |gpu.pool.blocks|
    requires |gpu.pool.blocks[i].tokens| == 1
    requires q in host.maps && host.maps[q] == BlockMap([j], 1, 0) && j < |host.pool.blocks|
    requires |host.pool.blocks[j].tokens| == 1
    ensures DispatchOne(gpu, host, q, [t], budget) ==
      Ok(Slice(Filled1(gpu, q), Filled1(host, q), [], Some(Input(q, [t], 0, 1, [i])), [Entry(i, j)]))
  {
    hide BlockRange;
    var gpu2 := Filled1(gpu, q);
    assert CopyPlan(host, gpu, q, true) == None;
    RangeOfOne(gpu, q, i, true);
    RangeOfOne(gpu2, q, i, false);
    RangeOfOne(host, q, j, false);
    assert Zip([i], [j]) == [Entry(i, j)];
    assert CopyPlan(gpu2, host, q, false) == Some(([Entry(i, j)], 1));
    var toks := [t];
    assert toks[0..1] == toks;
  }

  lemma RangeOfOne(m: Manager, q: SeqId, i: BlockId, partial: bool)
    requires m.bs == 1 && q in m.maps && m.maps[q].ids == [i] && i < |m.pool.blocks| && |m.pool.blocks[i].tokens| == 1
    ensures BlockRange(m, q, 0, 1, partial) == Some(([i], Min(1, m.maps[q].filled)))
  {
    assert Whole(0, 1) == 0 && Whole(1, 1) == 1;
    var ids := m.maps[q].ids;
    assert ids[0..1] == ids;
  }

  /** `schedule` with one waiting task that is given block `i` of the GPU and block `j` of the host. */
  lemma TokenTurn(gpu0: Manager, gpu1: Manager, host0: Manager, host1: Manager, seqs: map<SeqId, Sequence>, x: Task,
                  t: Token, i: BlockId, j: BlockId, kept: seq<Task>, moved: set<SeqId>, gpu: Manager, host: Manager,
                  waiting: seq<Task>, active: seq<Task>, lost: seq<Task>, r: Outcome<Batch>)
    requires x.id in seqs && seqs[x.id].toks == [t] && gpu1.bs == host1.bs == 1
    requires TryAlloc(gpu0, x.id, [t], WATERMARK) == Ok((gpu1, true))
    requires TryExtend(host0, x.id, [t]) == Ok((host1, true))
    requires x.id in gpu1.maps && gpu1.maps[x.id] == BlockMap([i], 1, 0) && i < |gpu1.pool.blocks|
    requires |gpu1.pool.blocks[i].tokens| == 1
    requires x.id in host1.maps && host1.maps[x.id] == BlockMap([j], 1, 0) && j < |host1.pool.blocks|
    requires |host1.pool.blocks[j].tokens| == 1
    requires ByPasses(gpu0, host0, seqs, false, [x], [], kept, 4, 4, gpu, host, waiting, active, moved, lost, r)
    ensures r.Ok? && gpu == Filled1(gpu1, x.id) && host == Filled1(host1, x.id) && waiting == [] && active == [x]
    ensures r.Ok? ==> r.value.running == map[x.id := false] && r.value.write == [[Entry(i, j)]]
  {
    hide TryAlloc, TryExtend, Dispatching, DispatchOne, AdmitPass, AdmitFails, Extending, ExtendEach, IdSet, Steady,
      Filled1;
    var gpuA, waitingA, preempted :|
      && Extending(gpu0, seqs, [x], [], []) == Ok((gpuA, waitingA, kept))
      && AfterDecode(gpu0, host0, gpuA, waitingA, seqs, false, kept, 4, 4, gpu, host, waiting, active, preempted, lost,
                     r);
    ExtendingDone(gpu0, seqs, [x], []);
    AdmitsIt(gpu0, gpu1, seqs, x, t);
    if r.Panic? {
      AdmitNotFails(gpu0, gpu1, seqs, x, kept);
    } else {
      var gpu2, admitted := AdmissionOf(gpu0, host0, gpu0, [x], seqs, false, [], 4, 4, gpu, host, waiting, active,
                                        preempted, lost, r.value);
      AdmittedIt(gpu0, gpu1, seqs, x, gpu2, waiting, active, admitted, preempted, lost);
      assert [] + admitted == [x];
      ExtendsIt(host0, host1, seqs, x, t);
      DispatchToken(gpu1, host1, x.id, t, i, j, 4);
      BatchOfOne(gpu1, host1, seqs, x, t, i, j);
    }
  }

  lemma AdmitsIt(gpu0: Manager, gpu1: Manager, seqs: map<SeqId, Sequence>, x: Task, t: Token)
    requires x.id in seqs && seqs[x.id].toks == [t] && TryAlloc(gpu0, x.id, [t], WATERMARK) == Ok((gpu1, true))
    ensures Admitting(gpu0, seqs, [x]) == Ok((gpu1, 1))
  {
    hide TryAlloc;
    assert [x][1..] == [];
    assert Admitting(gpu1, seqs, []) == Ok((gpu1, 0));
  }

  lemma AdmitNotFails(gpu0: Manager, gpu1: Manager, seqs: map<SeqId, Sequence>, x: Task, kept: seq<Task>)
    requires Admitting(gpu0, seqs, [x]) == Ok((gpu1, 1))
    ensures !AdmitFails(gpu0, seqs, false, [x], kept)
  {
    hide Admitting;
  }

  lemma AdmittedIt(gpu0: Manager, gpu1: Manager, seqs: map<SeqId, Sequence>, x: Task, gpu2: Manager, waiting: seq<Task>,
                   active: seq<Task>, admitted: seq<Task>, preempted: set<SeqId>, lost: seq<Task>)
    requires Admitting(gpu0, seqs, [x]) == Ok((gpu1, 1))
    requires AdmitPass(gpu0, seqs, false, [x], [], gpu2, waiting, active, admitted, preempted, lost)
    ensures gpu2 == gpu1 && waiting == [] && active == admitted == [x]
  {
    hide Admitting;
    assert [x][..1] == [x] && [x][1..] == [] && [] + [x] == [x];
  }

  lemma ExtendsIt(host0: Manager, host1: Manager, seqs: map<SeqId, Sequence>, x: Task, t: Token)
    requires x.id in seqs && seqs[x.id].toks == [t] && TryExtend(host0, x.id, [t]) == Ok((host1, true))
    ensures ExtendEach(host0, seqs, [x]) == host1
  {
    hide TryExtend;
    assert [x][..0] == [] && ExtendEach(host0, seqs, []) == host0;
  }

  lemma BatchOfOne(gpu: Manager, host: Manager, seqs: map<SeqId, Sequence>, x: Task, t: Token, i: BlockId, j: BlockId)
    requires x.id in seqs && seqs[x.id].toks == [t] && x.id in gpu.maps && x.id in host.maps
    requires DispatchOne(gpu, host, x.id, [t], 4) ==
      Ok(Slice(Filled1(gpu, x.id), Filled1(host, x.id), [], Some(Input(x.id, [t], 0, 1, [i])), [Entry(i, j)]))
    ensures Dispatching(gpu, host, seqs, [x], Batch([], map[], [], []), 4, 4) ==
      Ok((Filled1(gpu, x.id), Filled1(host, x.id),
          Batch([Input(x.id, [t], 0, 1, [i])], map[x.id := false], [], [[Entry(i, j)]])))
  {
    hide DispatchOne, Filled1, Dispatching;
    var sl := DispatchOne(gpu, host, x.id, [t], 4).value;
    assert [x][0..] == [x] && [x][1..] == [];
    DispatchingStep(gpu, host, seqs, [x], 0, Batch([], map[], [], []), 4, 4, sl);
    DispatchingDone(sl.gpu, sl.host, seqs, [], WithSlice(Batch([], map[], [], []), sl, 1), 3, 4);
    assert WithSlice(Batch([], map[], [], []), sl, 1) ==
      Batch([Input(x.id, [t], 0, 1, [i])], map[x.id := false], [], [[Entry(i, j)]]);
  }

  // -------------------------------------------------------------- the devices

  const GPU: Manager := Manager(1, Pool([U5, NONE], [1]), T5, map[1 := BlockMap([0], 1, 0)], map[])
  const GPU_FREED: Manager := Manager(1, Pool([F5, NONE], [1, 0]), T5, map[], map[])
  const GPU2: Manager := Manager(1, Pool([F5, U7], [0]), map[H5 := 0, H7 := 1], map[2 := BlockMap([1], 1, 0)], map[])

  const HOST: Manager := Manager(1, Pool([U5], []), T5, map[1 := BlockMap([0], 1, 0)], map[])
  const HOST_FREED: Manager := Manager(1, Pool([F5], [0]), T5, map[], map[])
  const HOST2: Manager := Manager(1, Pool([U7], []), map[H7 := 0], map[2 := BlockMap([0], 1, 0)], map[])

  const DISK: Manager := Manager(1, Pool([NONE], [0]), map[], map[1 := NEW], map[])
  const DISK_RESERVED: Manager := Manager(1, Pool([U5], []), map[], map[], map[0 := [0]])

  const REGION := Region(0, [0], [H5])
  const PLAN: (Region, seq<Entry>) := (REGION, [Entry(0, 0)])

  /** A new sequence that is cached nowhere waits. */
  lemma NotCached(host: Manager, disk: Manager, q: SeqId, t: Token, rid: RegionId)
    requires host.bs == disk.bs == 1 && q !in host.maps && q !in disk.maps && Of([t]) !in host.table
    requires Of([t]) !in disk.table
    ensures Staging(host, disk, q, [t], false, rid) ==
      Ok((host.(maps := host.maps[q := NEW]), disk.(maps := disk.maps[q := NEW]), None))
  {
    var toks := [t];
    assert toks[..1] == toks;
    assert Hits(host, toks) == [] && Hits(disk, toks) == [];
    assert PinAll(host.pool, []) == Ok(host.pool) && PinAll(disk.pool, []) == Ok(disk.pool);
  }

  lemma FirstAdmitted()
    ensures TryAlloc(NewManager(1, 2), 1, [5], WATERMARK) == Ok((GPU, true))
    ensures TryExtend(NewManager(1, 1).(maps := map[1 := NEW]), 1, [5]) == Ok((HOST, true))
  {
    hide TryAlloc, TryExtend;
    var gpu, host := NewManager(1, 2), NewManager(1, 1).(maps := map[1 := NEW]);
    assert gpu.pool == Pool([NONE, NONE], [0, 1]) && host.pool == Pool([NONE], [0]);
    AdmitOne(gpu, 1, 5, 97);
    AdmitOne(host, 1, 5, 100);
    assert Stored1(gpu, 1, 5) == GPU && Stored1(host, 1, 5) == HOST;
  }

  lemma SecondAdmitted()
    ensures TryAlloc(GPU_FREED, 2, [7], WATERMARK) == Ok((GPU2, true))
    ensures TryExtend(HOST_FREED.(maps := map[2 := NEW]), 2, [7]) == Ok((HOST2, true))
  {
    hide TryAlloc, TryExtend;
    var host := HOST_FREED.(maps := map[2 := NEW]);
    AdmitOne(GPU_FREED, 2, 7, 97);
    AdmitOne(host, 2, 7, 100);
    assert Stored1(GPU_FREED, 2, 7) == GPU2 && Stored1(host, 2, 7) == HOST2;
  }

  /** The backup of request 1, whether or not it forbids caching: one disk block is reserved for [5]. */
  lemma BackupPlan()
    ensures ReserveCopy(Filled1(HOST, 1), DISK, 1, [5, 9], 0) == Ok((DISK_RESERVED.(maps := DISK.maps), Some(PLAN)))
  {
    hide Reserve, BlockRange;
    var toks: seq<Token> := [5, 9];
    RangeOfOne(Filled1(HOST, 1), 1, 0, false);
    ReserveSingle(DISK, 5, 0, 0, DISK_RESERVED.(maps := DISK.maps));
    assert toks[..1] == [5];
    assert Zip([0], REGION.ids) == [Entry(0, 0)];
  }

  /** Then it is removed. */
  lemma Backs()
    ensures Removing(Filled1(GPU, 1), Filled1(HOST, 1), DISK, 1, Q1Done(false), 0) ==
      Ok((GPU_FREED, HOST_FREED, DISK_RESERVED, Some(PLAN)))
  {
    hide FreeSeq, ReserveCopy;
    BackupPlan();
    ReleaseOne(Filled1(GPU, 1), GPU_FREED, 1);
    ReleaseOne(Filled1(HOST, 1), HOST_FREED, 1);
    ReleaseNone(DISK_RESERVED.(maps := DISK.maps), 1);
  }

  const GPU_DROPPED: Manager := Manager(1, Pool([NONE, NONE], [1, 0]), map[], map[], map[])
  const HOST_DROPPED: Manager := Manager(1, Pool([NONE], [0]), map[], map[], map[])

  /** The same for a request that forbids caching: GPU and host forget its block. */
  lemma BacksAnyway()
    ensures Removing(Filled1(GPU, 1), Filled1(HOST, 1), DISK, 1, Q1Done(true), 0) ==
      Ok((GPU_DROPPED, HOST_DROPPED, DISK_RESERVED, Some(PLAN)))
  {
    hide FreeSeq, ReserveCopy;
    BackupPlan();
    assert T5 - {H5} == map[];
    DropOne(Filled1(GPU, 1), GPU_DROPPED, 1);
    DropOne(Filled1(HOST, 1), HOST_DROPPED, 1);
    ReleaseNone(DISK_RESERVED.(maps := DISK.maps), 1);
  }

  lemma ReleaseNone(m: Manager, q: SeqId)
    requires q in m.maps && m.maps[q].ids == []
    ensures FreeSeq(m, q, false) == FreeSeq(m, q, true) == Ok(m.(maps := m.maps - {q}))
  {
  }

  // -------------------------------------------------------------- the run

  lemma Answered(forbids: bool, seqs: map<SeqId, Sequence>, outputs: map<SeqId, Output>)
    requires outputs == map[1 := Output(9, false)]
    requires UpdatedFor(map[1 := Q1(forbids)], seqs, [T1], map[1 := false], outputs)
    ensures seqs == map[1 := Q1Done(forbids)]
    ensures Chosen([T1], map[1 := Q1(forbids)], map[1 := false], outputs, 100, true) == [T1]
    ensures Chosen([T1], map[1 := Q1(forbids)], map[1 := false], outputs, 100, false) == []
  {
    var ts := [T1];
    assert ts[..0] == [] && ts[0].id in seqs;
    assert seqs[1] == After(Q1(forbids), 1, map[1 := false], outputs);
    assert Q1Done(forbids).toks == [5] + [9];
  }

  /** Request 1 waits. */
  method Start(forbids: bool) returns (s: Scheduler)
    ensures fresh(s) && s.Valid() && !s.reorder && s.maxBatch == s.maxTokens == 4 && s.maxSeqLen == 100
    ensures s.gpu == NewManager(1, 2) && s.host == NewManager(1, 1).(maps := map[1 := NEW]) && s.disk == DISK
    ensures s.waiting == [T1] && s.active == s.finished == [] && s.seqs == map[1 := Q1(forbids)]
  {
    hide Agree, StageOk, StageExact, TakesRuns, Staging;
    s := new Scheduler(4, 100, 4, 1, 2, 1, 1, false);
    NotCached(s.host, s.disk, 1, 5, 0);
    var _, _ := s.AddRequest(1, Q1(forbids), 1, 1, 0);
  }

  /** It has run and is finished. */
  method Finish(forbids: bool) returns (s: Scheduler)
    ensures fresh(s) && s.Valid() && !s.reorder && s.maxBatch == s.maxTokens == 4
    ensures s.gpu == Filled1(GPU, 1) && s.host == Filled1(HOST, 1) && s.disk == DISK
    ensures s.waiting == s.active == [] && s.finished == [T1] && s.seqs == map[1 := Q1Done(forbids)]
  {
    hide Agree, Planned, Requeued, ByPasses, Split, UpdatedFor, Chosen, Filled1, NewManager, TryAlloc, TryExtend,
      AllRoomy;
    s := Start(forbids);
    ghost var gpu0, host0 := s.gpu, s.host;
    FirstAdmitted();
    var r, kept, moved, dropped, start := s.Schedule();
    TokenTurn(gpu0, GPU, host0, HOST, s.seqs, T1, 5, 0, 0, kept, moved, s.gpu, s.host, s.waiting, s.active, dropped, r);
    var _ := s.Update(map[1 := Output(9, false)]);
    Answered(forbids, s.seqs, map[1 := Output(9, false)]);
  }

  /** Its backup is planned, it is removed, and request 2 has arrived. The copy is still to come. */
  ghost predicate CopyToCome(s: Scheduler)
    reads s
  {
    && s.Valid() && !s.reorder && s.maxBatch == s.maxTokens == 4
    && s.gpu == GPU_FREED && s.host == HOST_FREED.(maps := map[2 := NEW])
    && s.disk == DISK_RESERVED.(maps := map[2 := NEW])
    && s.waiting == [T2] && s.active == [] && s.seqs == map[2 := Q2]
  }

  method PlanBackup() returns (s: Scheduler, plan: Option<(Region, seq<Entry>)>)
    ensures fresh(s) && CopyToCome(s) && plan == Some(PLAN)
  {
    hide Away, Agree, StageOk, StageExact, TakesRuns, Staging, BackupOk, CopyExact, CachesLeft, Removing, Filled1;
    s := Finish(false);
    plan := s.Retire(0);
    Backs();
    assert s.waiting == [];
    NotCached(s.host, s.disk, 2, 7, 1);
    var _, _ := s.AddRequest(2, Q2, 2, 2, 1);
    assert s.seqs == map[2 := Q2];
  }

  /** In this state the source of the copy, which holds the state of [5], is about to be given away. */
  lemma SourceAtRisk(s: Scheduler, n: T.Node)
    requires CopyToCome(s) && n == T.Node(s.host, TextsOf(s.seqs), [T.KvOf(H5)])
    ensures T.NodeOk(n) && Backup.Holding(n, 0, H5)
    ensures Backup.Possible(n, Backup.Operation(OpAlloc(2, [7])))
    ensures Backup.GivesAway(n, Backup.Operation(OpAlloc(2, [7])), 0, H5)
  {
    hide Agree, DevicesOk, SameMaps, Inv, Needed, Backup.GivesAway;
    AgreeDevices(s.gpu, s.host, s.disk, s.seqs, s.home, s.waiting, s.active, s.pending, Away(s.finished, s.lost),
                 s.progress,
      s.running, s.reorder);
    var toks: seq<Token> := [7];
    assert toks[..1] == toks;
    assert Needed(n.m, 2, toks) == 1 by {
      NeedsOne(n.m);
    }
    Backup.SourceLost(n, 0, H5, 2, toks);
  }

  lemma NeedsOne(m: Manager)
    requires m.bs == 1 && 2 in m.maps && m.maps[2] == NEW
    ensures Needed(m, 2, [7]) == 1
  {
  }

  /** The next batch writes block 1 of the GPU, which has the state of [7], to block 0 of the host, the source
      of the copy; and when the copy reports back, the disk's block is published as that of [5]. */
  method LoseBackup() returns (s: Scheduler, plan: Option<(Region, seq<Entry>)>, r: Outcome<Batch>)
    ensures fresh(s) && s.Valid() && plan == Some(PLAN)
    ensures r.Ok? && r.value.write == [[Entry(1, 0)]]
    ensures s.gpu.pool.blocks == [F5, U7] && s.host.pool.blocks == [U7]
    ensures Lookup(s.disk, H5) == Some(0)
  {
    hide Agree, Planned, Requeued, ByPasses, Activate, Published, Filled1;
    s, plan := PlanBackup();
    ghost var gpu0, host0 := s.gpu, s.host;
    ghost var kept, moved, dropped, start;
    SecondAdmitted();
    r, kept, moved, dropped, start := s.Schedule();
    TokenTurn(gpu0, GPU2, host0, HOST2, s.seqs, T2, 7, 1, 0, kept, moved, s.gpu, s.host, s.waiting, s.active, dropped,
              r);
    FilledBlocks(GPU2, 2);
    FilledBlocks(HOST2, 2);
    ghost var disk := s.disk;
    s.CommitBackup(0, [H5]);
    CommitsIt(disk);
  }

  lemma FilledBlocks(m: Manager, q: SeqId)
    requires q in m.maps
    ensures Filled1(m, q).pool == m.pool
  {
  }

  lemma CommitsIt(disk: Manager)
    requires disk == DISK_RESERVED.(maps := map[2 := NEW])
    ensures Activate(disk, 0, [H5]).Ok? && Lookup(Activate(disk, 0, [H5]).value.0, H5) == Some(0)
  {
    hide Activate;
    ActivateSingle(disk, 0, 0, H5, Manager(1, Pool([F5], [0]), T5, map[2 := NEW], map[]));
  }

  /** The copies in the order of the run: the write-through of the second batch, then the backup. Whatever
      was in the other blocks, the disk's block of [5] has the state of [7] then. */
  lemma WrongCopy(gpu: seq<T.Kv>, host: seq<T.Kv>, disk: seq<T.Kv>)
    requires |gpu| == 2 && |host| == |disk| == 1 && gpu[1] == T.KvOf(H7)
    ensures Apply(disk, Apply(host, gpu, [Entry(1, 0)]), PLAN.1)[0] == T.KvOf(H7)
  {
  }

  /** A request that forbids caching is cached nevertheless: once it is removed, neither GPU nor host find its
      block, but the backup that was planned for it publishes it on the disk. */
  method CacheAnyway() returns (s: Scheduler)
    ensures fresh(s) && s.Valid() && s.seqs == map[]
    ensures Lookup(s.gpu, H5) == None && Lookup(s.host, H5) == None && Lookup(s.disk, H5) == Some(0)
  {
    hide Away, Agree, BackupOk, CopyExact, CachesLeft, Removing, Activate, Published, Filled1;
    s := Finish(true);
    var _ := s.Retire(0);
    BacksAnyway();
    ghost var disk := s.disk;
    s.CommitBackup(0, [H5]);
    CommitsAnyway(disk);
  }

  lemma CommitsAnyway(disk: Manager)
    requires disk == DISK_RESERVED
    ensures Activate(disk, 0, [H5]).Ok? && Lookup(Activate(disk, 0, [H5]).value.0, H5) == Some(0)
  {
    hide Activate;
    ActivateSingle(disk, 0, 0, H5, Manager(1, Pool([F5], [0]), T5, map[], map[]));
  }
}
