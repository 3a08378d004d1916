/** A run of the scheduler in which request reordering loses a task
    (runtime/src/llm_engine/scheduler.rs, lines 654-740): the reclaim prediction counts on cached blocks
    that preemption itself drops from the cache. */
module LostTask {
  import opened Prelude
  import opened BlockPool
  import opened BlockManagerSpec
  import opened BlockManagerInv
  import opened TwoTokens
  import opened PrefixCache
  import opened Admission
  import opened Dispatch
  import opened Preemption
  import opened Reclaiming
  import opened Queues
  import opened SchedulerState
  import opened QueuePasses
  import opened Reordering
  import opened Batches
  import opened Updates
  import opened Lifecycle
  import opened Scheduling

  // Blocks of one token, five of them on the GPU, and one token per batch. Request 1 arrives, request 3 is
  // reserved and pends, request 2 arrives; both waiting ones are admitted, and 1 gets the first batch.
  // Then 3 is triggered: it is older than 2 and shares the two blocks that 2 has not computed yet.

  const T1 := Task(1, 1, 1)
  const T2 := Task(2, 3, 2)
  const T3 := Task(3, 2, 3)

  function Plain(toks: seq<Token>): Sequence { Sequence(toks, 0, None, false, false) }

  const SEQS: map<SeqId, Sequence> := map[1 := Plain([5, 6]), 2 := Plain([7, 8]), 3 := Plain([7, 8, 9])]

  const EMPTY: Manager := NewManager(1, 5)
  const ONE: Manager := Stored(EMPTY, 1, 5, 6)
  const BOTH: Manager := Stored(ONE, 2, 7, 8)
  const CUT: Manager := BOTH.(maps := BOTH.maps[1 := BlockMap([0, 1], 2, 1)])

  /** Admission of a new sequence of two tokens. */
  lemma AdmitTwo(m: Manager, q: SeqId, a: Token, b: Token)
    requires Ready2(m, q, a, b) && |m.pool.blocks| == 5 && m.pool.Used() + 2 <= 4
    ensures TryAlloc(m, q, [a, b], 97) == Ok((Stored(m, q, a, b), true))
  {
    hide AllocBlocks, Hits;
    var toks := [a, b];
    assert toks[..1] == [a];
    NoHits(m, q, toks);
    assert Required(m, q, toks) == Ok(2);
    StoreBoth(m.(maps := m.maps[q := BlockMap([], 0, 0)]), m, q, a, b);
  }

  /** Sequences 1 and 2 take two blocks each. */
  lemma Filling()
    ensures TryAlloc(EMPTY, 1, [5, 6], 97) == Ok((ONE, true)) && TryAlloc(ONE, 2, [7, 8], 97) == Ok((BOTH, true))
    ensures BOTH == Manager(1,
                            Pool([Block(1, Used, [5], Of([5])), Block(1, Used, [6], Of([5, 6])),
                                  Block(1, Used, [7], Of([7])),
                                     Block(1, Used, [8], Of([7, 8])), Block(0, Free, [], NoHash)], [4]),
                            map[Of([5]) := 0, Of([5, 6]) := 1, Of([7]) := 2, Of([7, 8]) := 3],
                            map[1 := BlockMap([0, 1], 2, 0), 2 := BlockMap([2, 3], 2, 0)], map[])
  {
    hide TryAlloc;
    assert EMPTY.pool.free == [0, 1, 2, 3, 4];
    AdmitTwo(EMPTY, 1, 5, 6);
    assert ONE.pool.free == [2, 3, 4] && |ONE.pool.blocks| == 5;
    AdmitTwo(ONE, 2, 7, 8);
  }

  // ---------------------------------------------------------------- the losing round

  /** The GPU as the second call of `schedule` finds it. */
  lemma CutIs()
    ensures CUT == Manager(1,
                           Pool([Block(1, Used, [5], Of([5])), Block(1, Used, [6], Of([5, 6])),
                                 Block(1, Used, [7], Of([7])),
                                    Block(1, Used, [8], Of([7, 8])), Block(0, Free, [], NoHash)], [4]),
                           map[Of([5]) := 0, Of([5, 6]) := 1, Of([7]) := 2, Of([7, 8]) := 3],
                           map[1 := BlockMap([0, 1], 2, 1), 2 := BlockMap([2, 3], 2, 0)], map[])
  {
    Filling();
  }

  /** Task 3 is refused, because its cached prefix leaves one block to find. */
  lemma Refuses()
    ensures TryAlloc(CUT, 3, [7, 8, 9], 97) == Ok((CUT, false))
    ensures Required(CUT, 3, [7, 8, 9]) == Ok(1)
  {
    CutIs();
    var toks: seq<Token> := [7, 8, 9];
    assert toks[..1] == [7] && toks[..2] == [7, 8] && toks[..3] == toks;
    assert HitAt(CUT, toks, 0) == Some(2) && HitAt(CUT, toks, 1) == Some(3) && HitAt(CUT, toks, 2) == None;
    assert HitsFrom(CUT, toks, 2) == [];
    assert HitsFrom(CUT, toks, 1) == [3];
    assert HitsFrom(CUT, toks, 0) == [2, 3];
  }

  /** A published block counts as filled for everyone who hits it, computed or not: were task 3 given its
      cached prefix, it would count two blocks as filled of which sequence 2, their only other owner, has
      computed nothing. */
  lemma UncomputedHit()
    ensures CUT.maps[2] == BlockMap([2, 3], 2, 0)
    ensures InitPrefix(CUT, 3, [7, 8, 9]).Ok?
    ensures var m := InitPrefix(CUT, 3, [7, 8, 9]).value.0; 3 in m.maps && m.maps[3] == BlockMap([2, 3], 2, 2)
  {
    CutIs();
    var toks: seq<Token> := [7, 8, 9];
    assert toks[..1] == [7] && toks[..2] == [7, 8] && toks[..3] == toks;
    assert HitsFrom(CUT, toks, 2) == [] && HitsFrom(CUT, toks, 1) == [3];
    assert Hits(CUT, toks) == [2, 3];
    var ids: seq<BlockId> := [2, 3];
    assert ids[1..] == [3] && [3][1..] == [];
    var p := PinBlock(CUT.pool, 2).value;
    assert PinAll(PinBlock(p, 3).value, []).Ok?;
    assert PinAll(p, [3]).Ok?;
    assert PinAll(CUT.pool, ids).Ok?;
  }

  /** The prediction accepts to preempt task 2 for it, whose two blocks nobody else holds. */
  lemma Accepts()
    ensures Promising(CUT, SEQS, T3, [T2]) == Ok(true)
  {
    hide Required;
    CutIs();
    Refuses();
    var ids: seq<BlockId> := [2, 3];
    assert ids[1..] == [3] && ids[1..][1..] == [];
    assert CountUnique(CUT.pool.blocks, []) == 0;
    assert CountUnique(CUT.pool.blocks, [3]) == 1;
    assert CountUnique(CUT.pool.blocks, ids) == 2;
    assert Unique(CUT, 2) == 2;
    assert Ids([T2]) == [2];
    var qs: seq<SeqId> := [2];
    assert qs[..0] == [] && Reclaimable(CUT, []) == 0;
    assert Reclaimable(CUT, qs) == Reclaimable(CUT, qs[..0]) + Unique(CUT, 2);
  }

  /** But task 2 gives these blocks back unfilled, so the prefix is lost and three blocks are required. */
  lemma NoneFits()
    ensures NeverFits(CUT, 3, [7, 8, 9], 97, [2])
  {
    CutIs();
    var toks: seq<Token> := [7, 8, 9];
    var vs: seq<SeqId> := [2];
    assert vs[1..] == [] && vs[0..] == vs;
    assert forall b: BlockId :: Owners(CUT, [], b) == 0;
    assert forall b: BlockId :: Owners(CUT, vs, b) == if b == 2 || b == 3 then 1 else 0;
    FreedBlocks(vs);
    assert toks[..1] == [7];
    assert Offset(0, 1) == 0 && CUT.maps[2].ids[0] == 2;
    assert PastFilled(CUT, 2, 2);
    assert DroppedByAll(CUT, vs, 2) && Carries(CUT, 2, Of([7]));
    assert HashLost(CUT, vs, Of(toks[..0 + CUT.bs]));
    assert Survivors(CUT, vs, toks, 0) == [];
    assert !FitsAfter(CUT, vs, 3, toks, 97);
  }

  lemma FreedBlocks(vs: seq<SeqId>)
    requires forall b: BlockId :: Owners(CUT, vs, b) == if b == 2 || b == 3 then 1 else 0
    ensures FreeAfter(CUT, vs) == {2, 3, 4}
  {
    CutIs();
  }

  /** The round that looks at task 3 loses it. */
  lemma RoundLoses()
    ensures Loses(SEQS, Pass(CUT, [T3], [], [T1, T2]))
  {
    hide TryAlloc, Promising, NeverFits;
    Refuses();
    Accepts();
    NoneFits();
    var q := [T1, T2];
    assert q[..1] == [T1] && q[1..] == [T2];
    assert NewerFrom([T1], 2) == 1;
    assert NewerFrom(q, 2) == NewerFrom(q[..1], 2);
    assert Ids([T2]) == [2];
  }

  // ---------------------------------------------------------------- passes from a given state

  /** The rounds of a pass are determined by its first state. */
  lemma PassStep(seqs: map<SeqId, Sequence>, trace: seq<Pass>, s: Pass, s1: Pass, t: Pass)
    requires IsPass(seqs, trace, s, t) && s.waiting != [] && NextRound(seqs, s) == Ok(s1)
    requires t.waiting == [] || Panics(seqs, t)
    ensures |trace| > 1 && trace[1] == s1 && IsPass(seqs, trace[1..], s1, t)
  {
    hide NextRound;
    assert |trace| == 1 ==> t == s;
    assert NextRound(seqs, trace[0]) == Ok(trace[0 + 1]);
    forall i | 0 <= i < |trace[1..]| - 1
      ensures trace[1..][i].waiting != [] && NextRound(seqs, trace[1..][i]) == Ok(trace[1..][i + 1])
    {
      assert NextRound(seqs, trace[i + 1]) == Ok(trace[i + 1 + 1]);
    }
  }

  lemma PassOver(seqs: map<SeqId, Sequence>, trace: seq<Pass>, s: Pass, t: Pass)
    requires IsPass(seqs, trace, s, t) && s.waiting == []
    ensures t == s
  {
    hide NextRound;
    assert trace[0] == s;
  }

  /** What the first round loses stays lost. */
  lemma {:induction false} LostFirst(seqs: map<SeqId, Sequence>, trace: seq<Pass>)
    requires |trace| > 1 && Loses(seqs, trace[0])
    ensures trace[0].waiting[0] in LostIn(seqs, trace)
  {
    hide Loses;
    var n := |trace| - 1;
    if n > 1 {
      LostFirst(seqs, trace[..n]);
      assert trace[..n][0] == trace[0];
    }
    FirstIs(seqs, trace[0]);
  }

  lemma FirstIs(seqs: map<SeqId, Sequence>, s: Pass)
    requires Loses(seqs, s)
    ensures s.waiting != []
  {
  }

  // ---------------------------------------------------------------- the first turn

  lemma FirstRounds()
    ensures NextRound(SEQS, Pass(EMPTY, [T1, T2], [], [])) == Ok(Pass(ONE, [T2], [], [T1]))
    ensures NextRound(SEQS, Pass(ONE, [T2], [], [T1])) == Ok(Pass(BOTH, [], [], [T1, T2]))
  {
    hide TryAlloc, Promising, PreemptionOf;
    Filling();
    assert [T1, T2][1..] == [T2] && [T2][1..] == [];
    assert Insert([], T1) == [T1];
    assert [T1][1..] == [] && PlaceOf([], T2) == 0 && PlaceOf([T1], T2) == 1;
    assert Insert([T1], T2) == [T1, T2];
  }

  lemma NothingToFetch(host: Manager, gpu: Manager, q: SeqId)
    requires host.Filled(q) == 0
    ensures CopyPlan(host, gpu, q, true) == None
  {
  }

  /** One token of a sequence of two of which nothing is filled. */
  lemma OneToken(gpu: Manager, host: Manager, gpu': Manager, q: SeqId, toks: seq<Token>)
    requires host.Filled(q) == 0 && gpu.Filled(q) == 0 && |toks| == 2
    requires BlockRange(gpu, q, 0, 1, true).Some? && UpdateFilled(gpu, q, 1) == Ok(gpu')
    ensures var r := DispatchOne(gpu, host, q, toks, 1);
      r.Ok? ==> r.value.gpu == gpu' && UsedBy(r.value) == 1
  {
    hide CopyPlan, BlockRange, UpdateFilled;
    NothingToFetch(host, gpu, q);
    assert |toks[0..1]| == 1;
  }

  lemma FirstSlice(host: Manager)
    requires host.Filled(1) == 0
    ensures var r := DispatchOne(BOTH, host, 1, [5, 6], 1);
      r.Ok? ==> r.value.gpu == CUT && UsedBy(r.value) == 1
  {
    hide DispatchOne, UsedBy, Stored;
    Filling();
    assert Whole(0, 1) == 0 && Whole(1, 1) == 1;
    OneToken(BOTH, host, CUT, 1, [5, 6]);
  }

  /** The first batch: one token of sequence 1. */
  lemma FirstBatch(host: Manager)
    requires host.Filled(1) == 0
    ensures var r := Dispatching(BOTH, host, SEQS, [T1, T2], Batch([], map[], [], []), 1, 4);
      r.Ok? ==> r.value.0 == CUT
  {
    hide DispatchOne, WithSlice, UsedBy, Stored;
    FirstSlice(host);
    var r := DispatchOne(BOTH, host, 1, [5, 6], 1);
    if r.Ok? {
      var ts := [T1, T2];
      assert ts[0..] == ts;
      DispatchingStep(BOTH, host, SEQS, ts, 0, Batch([], map[], [], []), 1, 4, r.value);
      DispatchingDone(r.value.gpu, r.value.host, SEQS, ts[1..], WithSlice(Batch([], map[], [], []), r.value, 2), 0, 4);
    }
  }

  lemma FirstTurn(host0: Manager, gpu: Manager, host: Manager, waiting: seq<Task>, active: seq<Task>, kept: seq<Task>,
                  moved: set<SeqId>, lost: seq<Task>, r: Outcome<Batch>)
    requires 1 in host0.maps && host0.maps[1].filled == 0
    requires ByPasses(EMPTY, host0, SEQS, true, [T1, T2], [], kept, 4, 1, gpu, host, waiting, active, moved, lost, r)
    ensures r.Ok? && gpu == CUT && waiting == [] && active == [T1, T2]
  {
    hide NextRound, Dispatching, IsPass, LostIn, AdmittedOf, PreemptedOf, ExtendEach, IdSet;
    var gpu1, waiting1, preempted :|
      && Extending(EMPTY, SEQS, [T1, T2], [], []) == Ok((gpu1, waiting1, kept))
      && AfterDecode(EMPTY, host0, gpu1, waiting1, SEQS, true, kept, 4, 1, gpu, host, waiting, active, preempted, lost,
                     r);
    ExtendingDone(EMPTY, SEQS, [T1, T2], []);
    FirstRounds();
    if r.Panic? {
      var trace, s :| IsPass(SEQS, trace, Pass(EMPTY, [T1, T2], [], []), s) && Panics(SEQS, s);
      FirstPass(trace, s);
    } else {
      var gpu2, admitted := AdmissionOf(EMPTY, host0, gpu1, waiting1, SEQS, true, kept, 4, 1, gpu, host, waiting,
                                        active, preempted, lost, r.value);
      var trace :|
        IsPass(SEQS, trace, Pass(EMPTY, [T1, T2], [], []), Pass(gpu2, [], waiting, active)) && lost == LostIn(SEQS, trace);
      FirstPass(trace, Pass(gpu2, [], waiting, active));
      FirstBatch(ExtendEach(host0, SEQS, kept + admitted));
    }
  }

  lemma FirstPass(trace: seq<Pass>, t: Pass)
    requires IsPass(SEQS, trace, Pass(EMPTY, [T1, T2], [], []), t) && (t.waiting == [] || Panics(SEQS, t))
    ensures t == Pass(BOTH, [], [], [T1, T2])
  {
    hide NextRound, IsPass;
    FirstRounds();
    PassStep(SEQS, trace, Pass(EMPTY, [T1, T2], [], []), Pass(ONE, [T2], [], [T1]), t);
    PassStep(SEQS, trace[1..], Pass(ONE, [T2], [], [T1]), Pass(BOTH, [], [], [T1, T2]), t);
    PassOver(SEQS, trace[1..][1..], Pass(BOTH, [], [], [T1, T2]), t);
  }

  // ---------------------------------------------------------------- the second turn

  /** A sequence with slots for its whole text and a full last block needs nothing. */
  lemma ExtendNothing(m: Manager, q: SeqId, toks: seq<Token>)
    requires m.bs == 1 && q in m.maps && m.maps[q].slots == |toks| == |m.maps[q].ids| > 0
    requires m.pool.Used() <= |m.pool.blocks|
    requires var id := m.maps[q].ids[|toks| - 1]; id < |m.pool.blocks| && |m.pool.blocks[id].tokens| == 1
    ensures TryExtend(m, q, toks) == Ok((m, true))
  {
    assert Required(m, q, toks) == Ok(0);
    assert FillLast(m, q, toks) == Ok((m, |toks|));
    StoreDone(m, toks, []);
    assert m.maps[q].(ids := m.maps[q].ids + [], slots := m.maps[q].slots + 0) == m.maps[q];
    assert m.maps[q := m.maps[q]] == m.maps;
  }

  lemma SecondDecode()
    ensures Extending(CUT, SEQS, [T3], [], [T1, T2]) == Ok((CUT, [T3], [T1, T2]))
  {
    hide TryExtend;
    CutIs();
    ExtendNothing(CUT, 1, [5, 6]);
    ExtendNothing(CUT, 2, [7, 8]);
    ExtendingStep(CUT, CUT, SEQS, [T3], [], [T1, T2], true);
    assert [T1, T2][1..] == [T2] && [] + [T1] == [T1];
    ExtendingStep(CUT, CUT, SEQS, [T3], [T1], [T2], true);
    assert [T2][1..] == [] && [T1] + [T2] == [T1, T2];
    ExtendingDone(CUT, SEQS, [T3], [T1, T2]);
  }

  const P0 := Pass(CUT, [T3], [], [T1, T2])

  /** Task 2 is preempted, and the cached prefix is gone with it. */
  lemma Preempts() returns (m: Manager)
    requires Inv(CUT, TextsOf(SEQS), multiset{})
    ensures PreemptionOf(CUT, SEQS, T3, [T2]) == Ok((m, 0, false))
    ensures Inv(m, TextsOf(SEQS), multiset{}) && |m.pool.blocks| == 5 && m.bs == 1 && Hits(m, [7, 8]) == []
  {
    hide Inv, FreeSeq, TryAlloc, NeverFits, FirstFit, ShortAfter, GroupEffect, HitsFrom, Held;
    CutIs();
    var vs: seq<SeqId> := [2];
    assert Ids([T2]) == vs && vs[1..] == [] && vs[..0] == [];
    assert Victims(CUT, TextsOf(SEQS), 3, [7, 8, 9], vs);
    NoneFits();
    PreemptionExact(CUT, TextsOf(SEQS), 3, [7, 8, 9], 97, vs);
    ReleaseAllExactly(CUT, TextsOf(SEQS), 3, [7, 8, 9], vs);
    assert ReleaseAll(CUT, []) == Ok(CUT);
    m := ReleaseAll(CUT, vs).value;
    TryAllocSame(m, 3, [7, 8, 9], 97);
    GroupSize(CUT, m, vs);
    SurvivorsFound(CUT, m, vs, [7, 8], 0);
    PrefixGone(vs);
  }

  lemma TryAllocSame(m: Manager, q: SeqId, toks: seq<Token>, percent: nat)
    ensures TryAlloc(m, q, toks, percent).Ok? && !TryAlloc(m, q, toks, percent).value.1 ==>
      TryAlloc(m, q, toks, percent).value.0 == m
  {
    hide InitPrefix, AllocBlocks, Required;
  }

  lemma PrefixGone(vs: seq<SeqId>)
    requires vs == [2]
    ensures Survivors(CUT, vs, [7, 8], 0) == []
  {
    CutIs();
    assert vs[1..] == [];
    assert Owners(CUT, [], 2) == 0 && Owners(CUT, vs, 2) == 1;
    assert Offset(0, 1) == 0 && CUT.maps[2].ids[0] == 2;
    assert PastFilled(CUT, 2, 2);
    assert DroppedByAll(CUT, vs, 2) && Carries(CUT, 2, Of([7]));
    var toks: seq<Token> := [7, 8];
    assert toks[..1] == [7];
    assert HashLost(CUT, vs, Of(toks[..0 + CUT.bs]));
  }

  /** The round of task 3, and the one of task 2 that follows, do not panic. */
  lemma SecondRounds() returns (p1: Pass, p2: Pass)
    requires Inv(CUT, TextsOf(SEQS), multiset{})
    ensures NextRound(SEQS, P0) == Ok(p1) && p1.waiting != [] && NextRound(SEQS, p1) == Ok(p2) && p2.waiting == []
  {
    hide Inv, TryAlloc, Promising, PreemptionOf, Hits;
    Refuses();
    Accepts();
    var m := Preempts();
    var q := [T1, T2];
    assert q[..1] == [T1] && q[1..] == [T2] && NewerFrom([T1], 2) == 1 && NewerFrom(q, 2) == NewerFrom(q[..1], 2);
    assert [T3][1..] == [] && [T2][0..] == [T2] && [T2][1..] == [];
    assert InsertBack([], [T2]) == Insert(InsertBack([], []), T2) == [T2];
    p1 := Pass(m, [T2], [], [T1]);
    assert NextRound(SEQS, P0) == Ok(p1);
    RoomAdmits(m, TextsOf(SEQS), 2, [7, 8], 97);
    assert NewerFrom([T1], 3) == 1 && [T1][1..] == [];
    p2 := NextRound(SEQS, p1).value;
  }

  lemma SecondTurn(host0: Manager, gpu: Manager, host: Manager, waiting: seq<Task>, active: seq<Task>, kept: seq<Task>,
                   moved: set<SeqId>, lost: seq<Task>, r: Outcome<Batch>)
    requires Inv(CUT, TextsOf(SEQS), multiset{})
    requires ByPasses(CUT, host0, SEQS, true, [T3], [T1, T2], kept, 4, 1, gpu, host, waiting, active, moved, lost, r)
    ensures r.Ok? && T3 in lost
  {
    hide Inv, NextRound, Dispatching, IsPass, LostIn, AdmittedOf, PreemptedOf, ExtendEach, IdSet, Extending, Steady,
      Loses;
    var gpu1, waiting1, preempted :|
      && Extending(CUT, SEQS, [T3], [], [T1, T2]) == Ok((gpu1, waiting1, kept))
      && AfterDecode(CUT, host0, gpu1, waiting1, SEQS, true, kept, 4, 1, gpu, host, waiting, active, preempted, lost,
                     r);
    SecondDecode();
    RoundLoses();
    if r.Panic? {
      var trace, s :| IsPass(SEQS, trace, P0, s) && Panics(SEQS, s);
      SecondPass(trace, s);
    } else {
      var gpu2, admitted := AdmissionOf(CUT, host0, gpu1, waiting1, SEQS, true, kept, 4, 1, gpu, host, waiting, active,
                                        preempted, lost, r.value);
      var trace :| IsPass(SEQS, trace, P0, Pass(gpu2, [], waiting, active)) && lost == LostIn(SEQS, trace);
      SecondPass(trace, Pass(gpu2, [], waiting, active));
    }
  }

  lemma SecondPass(trace: seq<Pass>, t: Pass)
    requires Inv(CUT, TextsOf(SEQS), multiset{})
    requires IsPass(SEQS, trace, P0, t) && (t.waiting == [] || Panics(SEQS, t))
    ensures t.waiting == [] && T3 in LostIn(SEQS, trace)
  {
    hide Inv, NextRound, IsPass, LostIn, Loses;
    var p1, p2 := SecondRounds();
    PassStep(SEQS, trace, P0, p1, t);
    PassStep(SEQS, trace[1..], p1, p2, t);
    PassOver(SEQS, trace[1..][1..], p2, t);
    RoundLoses();
    PassFrom(SEQS, trace, P0, t);
    LostFirst(SEQS, trace);
  }

  lemma PassFrom(seqs: map<SeqId, Sequence>, trace: seq<Pass>, s: Pass, t: Pass)
    requires IsPass(seqs, trace, s, t)
    ensures trace != [] && trace[0] == s
  {
    hide NextRound;
  }

  // ---------------------------------------------------------------- the run

  lemma FreshStage(host: Manager, disk: Manager, q: SeqId, toks: seq<Token>, busy: bool, rid: RegionId)
    requires q !in host.maps && q !in disk.maps && host.table == map[] && disk.table == map[]
    ensures Staging(host, disk, q, toks, busy, rid) ==
      Ok((host.(maps := host.maps[q := BlockMap([], 0, 0)]), disk.(maps := disk.maps[q := BlockMap([], 0, 0)]), None))
  {
    hide InitPrefix;
    NoHits(host, q, toks);
    NoHits(disk, q, toks);
  }

  lemma ReservedThree(host0: Manager, host: Manager, r: Outcome<Option<Region>>)
    requires ReserveOk(host0, host, [7, 8, 9], 0, r) && host0.bs == 1 && |host0.pool.free| == 20
    requires host0.regions == map[]
    ensures r.Ok? && host.maps == host0.maps && host.table == host0.table && 1 !in host.regions
  {
    hide Reserve;
    assert Whole(3, 1) == 3;
  }

  /** Requests 1 and 2 wait, request 3 pends. */
  ghost predicate Arrived(s: Scheduler)
    reads s
  {
    && s.Valid() && s.reorder && s.maxBatch == 4 && s.maxTokens == 1
    && s.gpu == EMPTY && s.waiting == [T1, T2] && s.active == [] && s.pending == map[3 := T3] && s.seqs == SEQS
    && s.lost == []
    && 1 in s.host.maps && s.host.maps[1].filled == 0
  }

  /** Request 1 waits. */
  method ArriveFirst() returns (s: Scheduler)
    ensures fresh(s) && s.Valid() && s.reorder && s.maxBatch == 4 && s.maxTokens == 1
    ensures s.gpu == EMPTY && s.waiting == [T1] && s.active == [] && s.pending == map[]
    ensures s.seqs == map[1 := Plain([5, 6])] && s.lost == []
    ensures s.host == NewManager(1, 20).(maps := map[1 := BlockMap([], 0, 0)]) && 2 !in s.disk.maps
    ensures s.disk.table == map[]
  {
    hide Agree, StageOk, StageExact, TakesRuns, Staging;
    s := new Scheduler(4, 100, 1, 1, 5, 20, 0, true);
    FreshStage(s.host, s.disk, 1, [5, 6], false, 0);
    var _, _ := s.AddRequest(1, Plain([5, 6]), 1, 1, 0);
  }

  /** Then request 3 pends. */
  method ArrivePending() returns (s: Scheduler)
    ensures fresh(s) && s.Valid() && s.reorder && s.maxBatch == 4 && s.maxTokens == 1
    ensures s.gpu == EMPTY && s.waiting == [T1] && s.active == [] && s.pending == map[3 := T3] && s.lost == []
    ensures s.seqs == map[1 := Plain([5, 6]), 3 := Plain([7, 8, 9])]
    ensures s.host.maps == map[1 := BlockMap([], 0, 0)] && s.host.table == map[] && 1 !in s.host.regions
    ensures 2 !in s.disk.maps && s.disk.table == map[]
  {
    hide Away, Agree, ReserveOk;
    s := ArriveFirst();
    ghost var host := s.host;
    var reserved := s.ReserveBlocks([7, 8, 9], 0);
    ReservedThree(host, s.host, reserved);
    var _ := s.Pend(3, Plain([7, 8, 9]), 2, 3);
  }

  method Arrive() returns (s: Scheduler)
    ensures fresh(s) && Arrived(s)
  {
    hide Away, Agree, StageOk, StageExact, TakesRuns, Staging;
    s := ArrivePending();
    FreshStage(s.host, s.disk, 2, [7, 8], true, 1);
    var _, _ := s.AddRequest(2, Plain([7, 8]), 3, 2, 1);
  }

  /** After the first batch, with task 3 waiting. */
  ghost predicate Triggered(s: Scheduler)
    reads s
  {
    && s.Valid() && s.reorder && s.maxBatch == 4 && s.maxTokens == 1
    && s.gpu == CUT && s.waiting == [T3] && s.active == [T1, T2] && s.seqs == SEQS
  }

  lemma NoOutputs(seqs: map<SeqId, Sequence>, running: map<SeqId, bool>, maxLen: nat)
    requires UpdatedFor(SEQS, seqs, [T1, T2], running, map[])
    ensures seqs == SEQS && Chosen([T1, T2], SEQS, running, map[], maxLen, false) == [T1, T2]
  {
    var ts := [T1, T2];
    assert ts[..1] == [T1] && [T1][..0] == [];
    assert ts[0].id in SEQS && ts[1].id in SEQS;
    assert Ids(ts) == [1, 2];
    assert !TaskEnds(T1, SEQS, running, map[], maxLen) && !TaskEnds(T2, SEQS, running, map[], maxLen);
    assert Chosen([], SEQS, running, map[], maxLen, false) == [];
    assert Chosen([T1], SEQS, running, map[], maxLen, false) == [T1];
  }

  method FirstIteration(s: Scheduler)
    requires Arrived(s)
    modifies s
    ensures Triggered(s)
  {
    hide Agree, Planned, Requeued, ByPasses, Split, UpdatedFor, Chosen, AllRoomy, TriggerOn, SameBut, Settled, Insert;
    ghost var host := s.host;
    var r, kept, moved, dropped, start := s.Schedule();
    FirstTurn(host, s.gpu, s.host, s.waiting, s.active, kept, moved, dropped, r);
    ghost var running := s.running;
    var _ := s.Update(map[]);
    NoOutputs(s.seqs, running, s.maxSeqLen);
    var _ := s.TriggerRequest(3, Some(0), []);
    assert Insert([], T3) == [T3] by {
      Alone(T3);
    }
  }

  lemma Alone(t: Task)
    ensures Insert([], t) == [t]
  {
  }

  /** A lost task is in no queue. */
  lemma LostNowhere(s: Scheduler, t: Task)
    requires s.Valid() && t in s.lost
    ensures t !in s.waiting && t !in s.active && t !in s.finished && t !in s.pending.Values
  {
    hide DevicesOk, Placed, ProgressOk, Sorted, RunningOk;
    var w, a, p, f, l :=
      multiset(s.waiting), multiset(s.active), multiset(s.pending.Values), multiset(s.finished), multiset(s.lost);
    var all := w + a + p + (f + l);
    assert t in all && all[t] == 1;
    assert l[t] >= 1;
    assert all[t] == w[t] + a[t] + p[t] + f[t] + l[t];
  }

  /** Request reordering loses a task: this run of the scheduler leaves it valid, but task 3, which was
      never answered, is in no queue any more. */
  method LoseATask() returns (s: Scheduler)
    ensures fresh(s) && s.Valid() && 3 in s.seqs
    ensures T3 !in s.waiting && T3 !in s.active && T3 !in s.finished && T3 !in s.pending.Values
  {
    hide Agree, Planned, Requeued, ByPasses, AllRoomy, DevicesOk, Inv, SameMaps;
    s := Arrive();
    FirstIteration(s);
    ghost var host := s.host;
    AgreeDevices(s.gpu, s.host, s.disk, s.seqs, s.home, s.waiting, s.active, s.pending, Away(s.finished, s.lost),
                 s.progress,
      s.running, s.reorder);
    var r, kept, moved, dropped, start := s.Schedule();
    SecondTurn(host, s.gpu, s.host, s.waiting, s.active, kept, moved, dropped, r);
    LostNowhere(s, T3);
  }
}
