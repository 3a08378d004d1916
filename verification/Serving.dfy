/** What a request is answered with (runtime/src/llm_engine/scheduler.rs, lines 467-532 and 607-652;
    engine.rs, lines 322-357): batching, chunking, preemption, reordering and everything that other
    requests do in between change nothing about the text. */
module Serving {
  import opened Prelude
  import opened BlockManagerSpec
  import opened Queues
  import opened SchedulerState
  import opened Batches
  import opened Updates
  import opened Scheduling
  import opened Tiling
  import opened Iterations
  import opened Generation

  /** The worker of a model: the next token of every text whose input was not cut. */
  function Answers(md: Model, b: Batch, seqs: map<SeqId, Sequence>): map<SeqId, Output> {
    map q | q in b.running && q in seqs && !b.running[q] :: Output(md.next(seqs[q].toks),
                                                                   md.isEos(md.next(seqs[q].toks)))
  }

  ghost predicate Answered(turns: seq<Turn>, md: Model) {
    forall i :: 0 <= i < |turns| ==> turns[i].outputs == Answers(md, turns[i].batch, turns[i].seqs)
  }

  /** The request of a new sequence. */
  function RequestOf(s: Sequence): Request { Request(s.toks, s.maxOutput, s.ignoreEos) }

  /** The new sequence `s0` has grown to `s`, and what is still to be generated completes it. */
  ghost predicate OnWay(md: Model, s0: Sequence, s: Sequence) {
    && s0.toks <= s.toks && s == s0.(toks := s.toks, outputLen := |s.toks| - |s0.toks|)
    && s.toks + Emit(md, RequestOf(s0), s.toks, s.outputLen) == s0.toks + Monolithic(md, RequestOf(s0))
  }

  /** One more token. */
  lemma OnWayMore(md: Model, s0: Sequence, s: Sequence)
    requires OnWay(md, s0, s)
    ensures var t := md.next(s.toks);
      if Stops(s.ignoreEos, s.maxOutput, md.maxSeqLen, md.isEos(t), |s.toks| + 1, s.outputLen + 1)
      then s.toks + [t] == s0.toks + Monolithic(md, RequestOf(s0))
      else OnWay(md, s0, Appended(s, t))
  {
    hide Stops;
    var t, req := md.next(s.toks), RequestOf(s0);
    var more := s.toks + [t];
    if !Finishes(md, req, more, s.outputLen + 1, t) {
      assert Emit(md, req, s.toks, s.outputLen) == [t] + Emit(md, req, more, s.outputLen + 1);
      assert s.toks + ([t] + Emit(md, req, more, s.outputLen + 1)) == more + Emit(md, req, more, s.outputLen + 1);
      assert s0.toks <= more;
    }
  }

  /** What a turn does to a sequence that is on its way. */
  lemma TurnText(t: Turn, l: Limits, md: Model, q: SeqId, s0: Sequence)
    requires TurnOk(t, l) && t.outputs == Answers(md, t.batch, t.seqs) && md.maxSeqLen == l.maxSeqLen
    requires q in t.seqs && q !in t.over0 && OnWay(md, s0, t.seqs[q])
    ensures q in t.seqsAfter
    ensures if q in Ids(t.done) then t.seqsAfter[q].toks == s0.toks + Monolithic(md, RequestOf(s0))
      else OnWay(md, s0, t.seqsAfter[q])
  {
    hide Planned, Requeued, ByPasses, IdSet, Split, OnWay, Stops, Chosen, Monolithic;
    var s := t.seqs[q];
    OnWayMore(md, s0, s);
    assert t.seqsThen[q] == s;
    if q in Ids(t.active) {
      var i :| 0 <= i < |t.active| && t.active[i].id == q;
      var x := t.active[i];
      assert t.seqsAfter[t.active[i].id] == After(t.seqsThen[t.active[i].id], t.active[i].id, t.batch.running,
                                                  t.outputs);
      DoneIff(t, l, x);
    } else if q in Ids(t.done) {
      DoneActive(t, l, q);
    }
  }

  /** A task is done exactly if its sequence ends, whichever task of that sequence one looks at. */
  lemma DoneIff(t: Turn, l: Limits, x: Task)
    requires t.done == Chosen(t.active, t.seqsThen, t.batch.running, t.outputs, l.maxSeqLen, true) && x in t.active
    ensures x.id in Ids(t.done) <==> TaskEnds(x, t.seqsThen, t.batch.running, t.outputs, l.maxSeqLen)
  {
    hide Chosen, Ends;
    ChosenAre(t.active, t.seqsThen, t.batch.running, t.outputs, l.maxSeqLen, true, x);
    if x in t.done {
      var i :| 0 <= i < |t.done| && t.done[i] == x;
      assert Ids(t.done)[i] == x.id;
    }
    if x.id in Ids(t.done) {
      var i :| 0 <= i < |t.done| && t.done[i].id == x.id;
      ChosenAre(t.active, t.seqsThen, t.batch.running, t.outputs, l.maxSeqLen, true, t.done[i]);
    }
  }

  lemma DoneActive(t: Turn, l: Limits, q: SeqId)
    requires t.done == Chosen(t.active, t.seqsThen, t.batch.running, t.outputs, l.maxSeqLen, true) && q in Ids(t.done)
    ensures q in Ids(t.active)
  {
    hide Chosen, TaskEnds;
    var i :| 0 <= i < |t.done| && t.done[i].id == q;
    ChosenAre(t.active, t.seqsThen, t.batch.running, t.outputs, l.maxSeqLen, true, t.done[i]);
    var j :| 0 <= j < |t.active| && t.active[j] == t.done[i];
    assert Ids(t.active)[j] == q;
  }

  /** The sequence is new at the first turn, and not finished before turn `k`. */
  ghost predicate Runs(turns: seq<Turn>, q: SeqId, s0: Sequence, k: nat) {
    && k < |turns| && q in turns[0].seqs && q !in turns[0].over0 && turns[0].seqs[q] == s0 && s0.outputLen == 0
    && forall i :: 0 <= i < k ==> q !in Ids(turns[i].done)
  }

  lemma {:induction false} TextSoFar(turns: seq<Turn>, l: Limits, md: Model, q: SeqId, s0: Sequence, k: nat)
    requires IsRun(turns, l) && Answered(turns, md) && md.maxSeqLen == l.maxSeqLen && Runs(turns, q, s0, k)
    ensures q in turns[k].seqs && q !in turns[k].over0 && OnWay(md, s0, turns[k].seqs[q])
  {
    hide TurnOk, OnWay, Ids, Answers;
    if k == 0 {
      NotStarted(md, s0);
    } else {
      TextSoFar(turns, l, md, q, s0, k - 1);
      TurnText(turns[k - 1], l, md, q, s0);
      assert Follows(turns[k - 1], turns[k - 1 + 1]);
      OverOnly(turns[k - 1], l, q);
    }
  }

  lemma NotStarted(md: Model, s0: Sequence)
    requires s0.outputLen == 0
    ensures OnWay(md, s0, s0)
  {
  }

  lemma OverOnly(t: Turn, l: Limits, q: SeqId)
    requires TurnOk(t, l) && q !in t.over0 && q !in Ids(t.done)
    ensures q !in t.over
  {
    hide Planned, Requeued, ByPasses, Taken, Carried, Ids;
  }

  /** Serving is generation. In every run of the scheduler whose worker computes a model, whatever tasks it
      is batched with, however its prefill is cut, however often it is preempted and whatever other
      requests do, a sequence that finishes has the text that the generation loop computes for it alone; and
      before that, it has a prefix of it. */
  lemma FinishedText(turns: seq<Turn>, l: Limits, md: Model, q: SeqId, s0: Sequence, k: nat)
    requires IsRun(turns, l) && Answered(turns, md) && md.maxSeqLen == l.maxSeqLen && Runs(turns, q, s0, k)
    ensures q in turns[k].seqs && s0.toks <= turns[k].seqs[q].toks < s0.toks + Monolithic(md, RequestOf(s0))
    ensures q in turns[k].seqsAfter
    ensures q in Ids(turns[k].done) ==> turns[k].seqsAfter[q].toks == s0.toks + Monolithic(md, RequestOf(s0))
  {
    hide TurnOk, Ids, Answers, Monolithic;
    TextSoFar(turns, l, md, q, s0, k);
    TurnText(turns[k], l, md, q, s0);
    EmitAtLeastOne(md, RequestOf(s0), turns[k].seqs[q].toks, turns[k].seqs[q].outputLen);
  }

  /** The sequence finishes in turn `k`. */
  ghost predicate FinishesIn(turns: seq<Turn>, q: SeqId, k: int) {
    0 <= k < |turns| && q in Ids(turns[k].done) && forall i :: 0 <= i < k ==> q !in Ids(turns[i].done)
  }

  /** Each of the sequences that is new and not finished at the start is, once it finishes, answered with
      what the model generates for it. */
  ghost predicate AllAnswered(md: Model, seqs0: map<SeqId, Sequence>, over0: set<SeqId>, turns: seq<Turn>) {
    forall q, k :: q in seqs0 && q !in over0 && seqs0[q].outputLen == 0 && FinishesIn(turns, q, k) ==>
      (q in turns[k].seqsAfter && turns[k].seqsAfter[q].toks == seqs0[q].toks + Monolithic(md, RequestOf(seqs0[q])))
  }

  /** The engine with a model as its worker. */
  method Respond(s: Scheduler, md: Model, rounds: seq<Round>) returns (r: Outcome<()>, ghost turns: seq<Turn>)
    requires s.Valid() && md.maxSeqLen == s.maxSeqLen
    modifies s
    ensures r.Ok? ==> s.Valid() && |turns| == |rounds| && IsRun(turns, LimitsOf(s)) && Answered(turns, md)
    ensures r.Ok? ==> AllAnswered(md, old(s.seqs), old(IdSet(s.finished)), turns)
  {
    hide Agree, TurnOk, IdSet, Answers, Ids, Monolithic;
    ghost var seqs0, over0 := s.seqs, IdSet(s.finished);
    r, turns := Serve(s, (b, seqs) => Answers(md, b, seqs), rounds);
    if r.Ok? {
      forall q, k | q in seqs0 && q !in over0 && seqs0[q].outputLen == 0 && FinishesIn(turns, q, k)
        ensures q in turns[k].seqsAfter
        ensures turns[k].seqsAfter[q].toks == seqs0[q].toks + Monolithic(md, RequestOf(seqs0[q]))
      {
        FinishedText(turns, LimitsOf(s), md, q, seqs0[q], k);
      }
    }
  }
}
