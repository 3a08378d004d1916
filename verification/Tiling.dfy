/** The inputs of one sequence over a run of iterations
    (runtime/src/llm_engine/scheduler.rs, lines 467-532 and 607-652; engine.rs, lines 322-357). */
module Tiling {
  import opened Prelude
  import opened BlockManagerSpec
  import opened Dispatch
  import opened Queues
  import opened SchedulerState
  import opened Reordering
  import opened Batches
  import opened Updates
  import opened Scheduling

  /** The limits a scheduler is created with. */
  datatype Limits = Limits(maxBatch: nat, maxSeqLen: nat, maxTokens: nat, reorder: bool)

  /** One iteration of the engine: the state that `schedule` finds, what it leaves, the sequences that
      `update` finds after other work, the outputs of the batch, and what `update` leaves. `over0` and
      `over` are the sequences of the tasks that have finished and are still to be removed. */
  datatype Turn = Turn(
    gpu0: Manager, host0: Manager, waiting0: seq<Task>, active0: seq<Task>, progress0: map<SeqId, nat>,
    over0: set<SeqId>,
    gpu: Manager, host: Manager, seqs: map<SeqId, Sequence>, waiting: seq<Task>, active: seq<Task>,
    kept: seq<Task>, moved: set<SeqId>, lost: seq<Task>, start: map<SeqId, nat>, progress: map<SeqId, nat>,
    batch: Batch,
    outputs: map<SeqId, Output>, seqsThen: map<SeqId, Sequence>,
    seqsAfter: map<SeqId, Sequence>, activeAfter: seq<Task>, done: seq<Task>, progressAfter: map<SeqId, nat>,
    over: set<SeqId>)

  /** Other work removes sequences of finished tasks only, and changes none. */
  ghost predicate Carried(seqs: map<SeqId, Sequence>, seqs': map<SeqId, Sequence>, over: set<SeqId>) {
    forall q :: q in seqs && q !in over ==> q in seqs' && seqs'[q] == seqs[q]
  }

  /** What `Schedule` and `Update` promise, with other work in between. */
  ghost predicate TurnOk(t: Turn, l: Limits) {
    && Planned(Ok(t.batch), t.gpu, t.seqs, t.waiting, t.active, l.maxBatch, l.maxTokens, t.start, t.progress)
    && Requeued(t.gpu0, t.seqs, l.reorder, t.waiting0, t.active0, t.waiting, t.active, t.kept, t.moved, t.lost,
                t.progress0, t.start)
    && ByPasses(t.gpu0, t.host0, t.seqs, l.reorder, t.waiting0, t.active0, t.kept, l.maxBatch, l.maxTokens, t.gpu,
                t.host, t.waiting,
                t.active, t.moved, t.lost, Ok(t.batch))
    && Carried(t.seqs, t.seqsThen, t.over0)
    && Taken(t.seqsThen, t.seqsAfter, t.active, t.activeAfter, t.done, t.progress, t.progressAfter, t.batch.running,
             t.outputs, l.maxSeqLen)
    && t.over <= t.over0 + IdSet(t.done) && IdSet(t.active) !! t.over0 && IdSet(t.activeAfter) !! t.over
  }

  /** Other work between two turns leaves the active tasks and their progress alone. */
  ghost predicate Follows(t: Turn, u: Turn) {
    u.active0 == t.activeAfter && u.progress0 == t.progressAfter && Carried(t.seqsAfter, u.seqs, t.over) && u.over0 <= t.over
  }

  ghost predicate IsRun(turns: seq<Turn>, l: Limits) {
    && (forall i :: 0 <= i < |turns| ==> TurnOk(turns[i], l))
    && (forall i :: 0 <= i < |turns| - 1 ==> Follows(turns[i], turns[i + 1]))
  }

  /** The worker returns an output for every input that was not cut. */
  ghost predicate Served(turns: seq<Turn>, q: SeqId) {
    forall i :: 0 <= i < |turns| && q in turns[i].batch.running && !turns[i].batch.running[q] ==> q in turns[i].outputs
  }

  /** Task `x` is active throughout: it is not preempted, and not finished before the last turn. */
  ghost predicate Stays(turns: seq<Turn>, x: Task) {
    && (forall i :: 0 <= i < |turns| ==> x in turns[i].active && x.id in turns[i].seqs)
    && (forall i :: 0 < i < |turns| ==> x.id !in turns[i].moved)
    && (forall i :: 0 <= i < |turns| - 1 ==> x in turns[i].activeAfter && x.id !in Ids(turns[i].done))
  }

  // ---------------------------------------------------------------- the inputs of a sequence

  function InputFor(inputs: seq<Input>, q: SeqId): seq<Input> {
    if inputs == [] then []
    else
      var n := |inputs| - 1;
      InputFor(inputs[..n], q) + if inputs[n].q == q then [inputs[n]] else []
  }

  /** The inputs of `q` in the batches of the run, in order. */
  function InputsOf(turns: seq<Turn>, q: SeqId): seq<Input> {
    if turns == [] then []
    else
      var n := |turns| - 1;
      InputsOf(turns[..n], q) + InputFor(turns[n].batch.inputs, q)
  }

  lemma {:induction false} InputForNone(inputs: seq<Input>, q: SeqId)
    requires forall k :: 0 <= k < |inputs| ==> inputs[k].q != q
    ensures InputFor(inputs, q) == []
  {
    if inputs != [] {
      InputForNone(inputs[..|inputs| - 1], q);
    }
  }

  lemma {:induction false} InputForOne(inputs: seq<Input>, k: nat)
    requires k < |inputs| && forall i, j :: 0 <= i < j < |inputs| ==> inputs[i].q != inputs[j].q
    ensures InputFor(inputs, inputs[k].q) == [inputs[k]]
  {
    var n := |inputs| - 1;
    if k == n {
      InputForNone(inputs[..n], inputs[k].q);
    } else {
      InputForOne(inputs[..n], k);
    }
  }

  /** What one turn does for `q`: at most one input, from where it started to where it is after. */
  ghost predicate OneTurn(t: Turn, q: SeqId) {
    var ins := InputFor(t.batch.inputs, q);
    if q in t.batch.running then
      && q in t.seqs && q in t.progress && |ins| == 1 && ins[0].q == q
      && var text := t.seqs[q].toks;
      && ins[0].filled < ins[0].context <= |text| && ins[0].tokens == text[ins[0].filled..ins[0].context]
      && t.progress[q] == ins[0].context && (t.batch.running[q] <==> ins[0].context < |text|)
      && (q in t.start ==> ins[0].filled == Min(t.start[q], |text| - 1))
    else
      ins == [] && (q in t.start ==> q in t.progress && t.progress[q] == t.start[q])
  }

  lemma TurnOne(t: Turn, l: Limits, q: SeqId)
    requires TurnOk(t, l)
    ensures OneTurn(t, q)
  {
    hide Requeued, ByPasses, Carried, IdSet, Taken, Greedy, SumTokens, BatchOk, InputFor;
    BatchOne(t.batch, t.gpu, t.seqs, t.start, t.progress, q);
  }

  lemma BatchOne(b: Batch, gpu: Manager, seqs: map<SeqId, Sequence>, start: map<SeqId, nat>, progress: map<SeqId, nat>,
                 q: SeqId)
    requires BatchOk(b, gpu, seqs, start, progress)
    ensures q in b.running ==> exists inp ::
      InputFor(b.inputs, q) == [inp] && inp.q == q &&
      InputOk(inp, gpu, seqs, start) && Recorded(inp, b.running, seqs, progress)
    ensures q !in b.running ==> InputFor(b.inputs, q) == [] && SameOutside(b.running, start, progress)
  {
    hide InputOk, Recorded, Complete, RunningOk, InputFor, SameOutside;
    if q in b.running {
      assert HasInput(b.inputs, q);
      var k :| 0 <= k < |b.inputs| && b.inputs[k].q == q;
      InputForOne(b.inputs, k);
    } else {
      forall k | 0 <= k < |b.inputs|
        ensures b.inputs[k].q != q
      {
        RecordedRuns(b.inputs[k], b.running, seqs, progress);
      }
      InputForNone(b.inputs, q);
    }
  }

  lemma RecordedRuns(inp: Input, running: map<SeqId, bool>, seqs: map<SeqId, Sequence>, progress: map<SeqId, nat>)
    requires Recorded(inp, running, seqs, progress)
    ensures inp.q in running
  {
  }

  lemma IdIn(ts: seq<Task>, x: Task)
    requires x in ts
    ensures x.id in IdSet(ts)
  {
    var i :| 0 <= i < |ts| && ts[i] == x;
    assert Ids(ts)[i] == x.id;
  }

  /** The text and the progress of `q` after the turn. */
  lemma TurnAfter(t: Turn, l: Limits, x: Task)
    requires TurnOk(t, l) && x in t.active && x.id in t.seqs
    ensures x.id in t.seqsAfter && t.seqsAfter[x.id] == After(t.seqs[x.id], x.id, t.batch.running, t.outputs)
    ensures x.id in t.progress && x.id !in Ids(t.done) ==> x.id in t.progressAfter
    ensures x.id in t.progress && x.id !in Ids(t.done) ==> t.progressAfter[x.id] == t.progress[x.id]
  {
    hide Requeued, ByPasses, Planned, Split, Chosen, After, Ids, IdSet;
    IdIn(t.active, x);
    var i :| 0 <= i < |t.active| && t.active[i] == x;
    assert t.active[i].id in t.seqsThen;
    assert t.seqsAfter[t.active[i].id] == After(t.seqsThen[t.active[i].id], t.active[i].id, t.batch.running, t.outputs);
  }

  /** What an active task has is still there in the next turn. */
  lemma NextSeq(t: Turn, u: Turn, l: Limits, x: Task)
    requires TurnOk(t, l) && Follows(t, u) && x in t.activeAfter && x.id in t.seqsAfter
    ensures x.id in u.seqs && u.seqs[x.id] == t.seqsAfter[x.id]
  {
    hide Requeued, ByPasses, Planned, Taken, IdSet;
    IdIn(t.activeAfter, x);
  }

  /** Where `q` starts in the next turn. */
  lemma NextStart(t: Turn, u: Turn, l: Limits, x: Task)
    requires TurnOk(u, l) && Follows(t, u) && x.id !in u.moved && x.id in t.progressAfter
    ensures x.id in u.start && u.start[x.id] == t.progressAfter[x.id]
  {
    hide ByPasses, Carried, Planned, Taken, Conserved, UnsharedTexts, IdSet;
  }

  // ---------------------------------------------------------------- runs

  /** Where the inputs of `q` begin in a run. */
  ghost function Origin(turns: seq<Turn>, q: SeqId): nat
    requires turns != []
  {
    if q in turns[0].start then turns[0].start[q]
    else if InputsOf(turns, q) != [] then InputsOf(turns, q)[0].filled else 0
  }

  /** At the first turn `q` is between two inputs, or gets its first one. */
  ghost predicate Begins(t: Turn, q: SeqId) {
    q in t.seqs && if q in t.start then t.start[q] < |t.seqs[q].toks| else q in t.batch.running
  }

  /** The inputs tile the text from `from` up to `to`. */
  ghost predicate TilesTo(ins: seq<Input>, text: seq<Token>, from: nat, to: nat) {
    && Chain(ins, text) && from <= to <= |text|
    && if ins == [] then to == from else ins[0].filled == from && ins[|ins| - 1].context == to
  }

  /** The inputs so far tile the text of the last turn from their origin up to the progress. */
  ghost predicate Tiled(turns: seq<Turn>, q: SeqId) {
    && turns != []
    && var last := turns[|turns| - 1];
    && q in last.seqs && q in last.progress
    && TilesTo(InputsOf(turns, q), last.seqs[q].toks, Origin(turns, q), last.progress[q])
    && (q !in last.batch.running ==> last.progress[q] < |last.seqs[q].toks|)
  }

  lemma TilesMore(ins: seq<Input>, text: seq<Token>, text': seq<Token>, from: nat, to: nat, inp: Input)
    requires TilesTo(ins, text, from, to) && text <= text'
    requires inp.filled == to && inp.filled < inp.context <= |text'| && inp.tokens == text'[inp.filled..inp.context]
    ensures TilesTo(ins + [inp], text', from, inp.context)
  {
    hide Chain;
    ChainMore(ins, text, text', inp);
  }

  lemma TilesLonger(ins: seq<Input>, text: seq<Token>, text': seq<Token>, from: nat, to: nat)
    requires TilesTo(ins, text, from, to) && text <= text'
    ensures TilesTo(ins, text', from, to)
  {
    hide Chain;
    ChainLonger(ins, text, text');
  }

  lemma ChainMore(ins: seq<Input>, text: seq<Token>, text': seq<Token>, inp: Input)
    requires Chain(ins, text) && text <= text'
    requires inp.filled <= inp.context <= |text'| && inp.tokens == text'[inp.filled..inp.context]
    requires ins != [] ==> inp.filled == ins[|ins| - 1].context
    ensures Chain(ins, text') && Chain(ins + [inp], text')
  {
    forall i | 0 <= i < |ins|
      ensures ins[i].tokens == text'[ins[i].filled..ins[i].context]
    {
      assert text[ins[i].filled..ins[i].context] == text'[ins[i].filled..ins[i].context];
    }
    var more := ins + [inp];
    forall i | 0 <= i < |more| - 1
      ensures more[i + 1].filled == more[i].context
    {
      assert i < |ins| - 1 ==> ins[i + 1].filled == ins[i].context;
    }
  }

  lemma ChainLonger(ins: seq<Input>, text: seq<Token>, text': seq<Token>)
    requires Chain(ins, text) && text <= text'
    ensures Chain(ins, text')
  {
    ChainMore(ins, text, text',
              Input(0, [], if ins == [] then 0 else ins[|ins| - 1].context,
                    if ins == [] then 0 else ins[|ins| - 1].context, []));
  }

  lemma TiledFirst(t: Turn, l: Limits, q: SeqId)
    requires TurnOk(t, l) && Begins(t, q)
    ensures Tiled([t], q)
  {
    hide TurnOk, InputFor;
    TurnOne(t, l, q);
    InputsMore([], t, q);
    assert [] + [t] == [t] && InputsOf([], q) == [];
  }

  lemma TiledNext(turns: seq<Turn>, u: Turn, l: Limits, x: Task)
    requires Tiled(turns, x.id) && TurnOk(u, l) && x in u.active && x.id in u.seqs
    requires var t := turns[|turns| - 1];
      && TurnOk(t, l) && x in t.active && x in t.activeAfter && x.id !in Ids(t.done) && Follows(t, u)
      && (x.id in t.batch.running && !t.batch.running[x.id] ==> x.id in t.outputs)
      && x.id !in u.moved
    ensures Tiled(turns + [u], x.id)
  {
    hide TurnOk, InputFor, InputsOf, Ids, TilesTo, Origin, Follows;
    var q, t := x.id, turns[|turns| - 1];
    var longer, ins, more := turns + [u], InputsOf(turns, q), InputFor(u.batch.inputs, q);
    Between(t, u, l, x);
    TurnOne(u, l, q);
    InputsMore(turns, u, q);
    OriginMore(turns, u, q);
    var text, text' := t.seqs[q].toks, u.seqs[q].toks;
    if q in u.batch.running {
      assert more == [more[0]];
      TilesMore(ins, text, text', Origin(turns, q), t.progress[q], more[0]);
    } else {
      assert ins + more == ins;
      TilesLonger(ins, text, text', Origin(turns, q), t.progress[q]);
    }
  }

  lemma InputsMore(turns: seq<Turn>, u: Turn, q: SeqId)
    ensures InputsOf(turns + [u], q) == InputsOf(turns, q) + InputFor(u.batch.inputs, q)
  {
    hide InputFor;
    assert (turns + [u])[..|turns|] == turns;
  }

  /** The origin stays where it is. */
  lemma OriginMore(turns: seq<Turn>, u: Turn, q: SeqId)
    requires Tiled(turns, q) && OneTurn(u, q) && q in u.start && u.start[q] == turns[|turns| - 1].progress[q]
    requires q in u.seqs && u.start[q] < |u.seqs[q].toks|
    ensures Origin(turns + [u], q) == Origin(turns, q)
  {
    hide InputFor, InputsOf, Chain;
    InputsMore(turns, u, q);
    assert (turns + [u])[0] == turns[0];
  }

  /** From one turn to the next the text may grow, and the next turn starts where the last one ended,
      before the end of the text. */
  lemma Between(t: Turn, u: Turn, l: Limits, x: Task)
    requires TurnOk(t, l) && TurnOk(u, l) && Follows(t, u) && x in t.active && x in t.activeAfter && x.id in t.seqs
    requires x.id in t.progress
    requires x.id !in Ids(t.done) && (x.id in t.batch.running && !t.batch.running[x.id] ==> x.id in t.outputs)
    requires x.id !in t.batch.running ==> t.progress[x.id] < |t.seqs[x.id].toks|
    requires x.id !in u.moved
    ensures x.id in u.seqs && x.id in u.start && u.start[x.id] == t.progress[x.id] < |u.seqs[x.id].toks|
    ensures t.seqs[x.id].toks <= u.seqs[x.id].toks
  {
    hide TurnOk, InputFor, Ids;
    TurnAfter(t, l, x);
    NextSeq(t, u, l, x);
    NextStart(t, u, l, x);
    TurnOne(t, l, x.id);
  }

  lemma {:induction false} RunTiled(turns: seq<Turn>, l: Limits, x: Task)
    requires turns != [] && IsRun(turns, l) && Stays(turns, x) && Served(turns, x.id) && Begins(turns[0], x.id)
    ensures Tiled(turns, x.id)
    decreases |turns|
  {
    hide TurnOk, Tiled, Follows, Begins, Ids;
    var n := |turns| - 1;
    if n == 0 {
      assert turns == [turns[0]];
      TiledFirst(turns[0], l, x.id);
    } else {
      var before := turns[..n];
      RunPrefix(turns, l, x);
      RunTiled(before, l, x);
      assert before[n - 1] == turns[n - 1] && Follows(turns[n - 1], turns[n - 1 + 1]);
      TiledNext(before, turns[n], l, x);
      assert before + [turns[n]] == turns;
    }
  }

  lemma RunPrefix(turns: seq<Turn>, l: Limits, x: Task)
    requires |turns| > 1 && IsRun(turns, l) && Stays(turns, x) && Served(turns, x.id)
    ensures var before := turns[..|turns| - 1]; IsRun(before, l) && Stays(before, x) && Served(before, x.id)
  {
    hide TurnOk, Follows, Ids;
    var before := turns[..|turns| - 1];
    assert forall i :: 0 <= i < |before| ==> before[i] == turns[i];
    forall i | 0 <= i < |before| - 1
      ensures Follows(before[i], before[i + 1])
    {
      assert Follows(turns[i], turns[i + 1]);
    }
  }

  /** Chunked prefill tiles the sequence. Over every run of iterations in which a task is not preempted, the
      inputs of its sequence are consecutive stretches of its text, with no gap and no overlap: put
      together they are the text from where the run found the sequence up to where it left it. And an
      output is taken exactly in the turns with an input that reaches the full length of the text. */
  lemma ChunksTile(turns: seq<Turn>, l: Limits, x: Task)
    requires turns != [] && IsRun(turns, l) && Stays(turns, x) && Served(turns, x.id) && Begins(turns[0], x.id)
    ensures var last := turns[|turns| - 1];
      && x.id in last.seqs && x.id in last.progress
      && Chain(InputsOf(turns, x.id), last.seqs[x.id].toks)
      && Origin(turns, x.id) <= last.progress[x.id] <= |last.seqs[x.id].toks|
      && AllTokens(InputsOf(turns, x.id)) == last.seqs[x.id].toks[Origin(turns, x.id)..last.progress[x.id]]
    ensures forall i :: 0 <= i < |turns| ==>
      (Emits(x.id, turns[i].batch.running, turns[i].outputs) <==>
       exists inp :: inp in InputFor(turns[i].batch.inputs, x.id) && Complete(inp, turns[i].seqs))
  {
    hide TurnOk, Follows, Begins, Ids, InputFor, InputsOf, Origin, Chain, AllTokens, OneTurn, Emits, Complete;
    RunTiled(turns, l, x);
    var ins, text := InputsOf(turns, x.id), turns[|turns| - 1].seqs[x.id].toks;
    if ins == [] {
      NoTokens(ins);
    } else {
      ChainSpellsText(ins, text);
    }
    forall i | 0 <= i < |turns|
      ensures Emits(x.id, turns[i].batch.running, turns[i].outputs) <==>
        exists inp :: inp in InputFor(turns[i].batch.inputs, x.id) && Complete(inp, turns[i].seqs)
    {
      TurnOne(turns[i], l, x.id);
      TurnEmits(turns[i], x.id);
    }
  }

  lemma NoTokens(ins: seq<Input>)
    requires ins == []
    ensures AllTokens(ins) == []
  {
  }

  lemma TurnEmits(t: Turn, q: SeqId)
    requires OneTurn(t, q) && (q in t.batch.running && !t.batch.running[q] ==> q in t.outputs)
    ensures Emits(q, t.batch.running, t.outputs) <==>
      exists inp :: inp in InputFor(t.batch.inputs, q) && Complete(inp, t.seqs)
  {
    hide InputFor;
    var ins := InputFor(t.batch.inputs, q);
    if q in t.batch.running {
      assert ins == [ins[0]];
      assert Complete(ins[0], t.seqs) <==> !t.batch.running[q];
      assert ins[0] in ins;
      forall inp | inp in ins
        ensures inp == ins[0]
      {
      }
    } else {
      assert forall inp :: inp !in ins;
    }
  }
}
