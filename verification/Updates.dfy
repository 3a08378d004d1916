/** Taking the outputs of a batch back into the sequences
    (runtime/src/llm_engine/scheduler.rs, lines 607-652; sequence.rs, lines 93-99). */
module Updates {
  import opened Prelude
  import opened BlockManagerSpec
  import opened Dispatch
  import opened Queues
  import opened SchedulerState
  import opened Reordering
  import opened Batches

  /** `InferOutput`: the next token of a sequence, and whether it is the end-of-sequence token. */
  datatype Output = Output(id: Token, eos: bool)

  /** An output token is taken exactly when the input of the sequence in the batch was not cut. */
  predicate Emits(q: SeqId, running: map<SeqId, bool>, outputs: map<SeqId, Output>) {
    q in outputs && q in running && !running[q]
  }

  function Appended(s: Sequence, id: Token): Sequence {
    s.(toks := s.toks + [id], outputLen := s.outputLen + 1)
  }

  /** The sequence after the batch. */
  function After(s: Sequence, q: SeqId, running: map<SeqId, bool>, outputs: map<SeqId, Output>): Sequence {
    if Emits(q, running, outputs) then Appended(s, outputs[q].id) else s
  }

  /** The stop rule for a sequence that has grown to `len` tokens, `outputLen` of them generated, the last
      of them an end-of-sequence token or not. */
  predicate Stops(ignoreEos: bool, maxOutput: Option<nat>, maxLen: nat, eos: bool, len: nat, outputLen: nat) {
    (!ignoreEos && eos) || (maxOutput.Some? && outputLen >= maxOutput.value) || len >= maxLen
  }

  /** The sequence is finished by the batch. */
  predicate Ends(s: Sequence, q: SeqId, running: map<SeqId, bool>, outputs: map<SeqId, Output>, maxLen: nat) {
    Emits(q, running, outputs) && Stops(s.ignoreEos, s.maxOutput, maxLen, outputs[q].eos, |s.toks| + 1, s.outputLen + 1)
  }

  predicate TaskEnds(t: Task, seqs: map<SeqId, Sequence>, running: map<SeqId, bool>, outputs: map<SeqId, Output>,
                     maxLen: nat) {
    t.id in seqs && Ends(seqs[t.id], t.id, running, outputs, maxLen)
  }

  /** The tasks of `ts` whose sequence ends (`ends`) or goes on, in their order. */
  function Chosen(ts: seq<Task>, seqs: map<SeqId, Sequence>, running: map<SeqId, bool>, outputs: map<SeqId, Output>,
                  maxLen: nat, ends: bool): seq<Task> {
    if ts == [] then []
    else
      var n := |ts| - 1;
      Chosen(ts[..n], seqs, running, outputs, maxLen, ends) +
      (if TaskEnds(ts[n], seqs, running, outputs, maxLen) == ends then [ts[n]] else [])
  }

  lemma ChosenMore(ts: seq<Task>, i: nat, seqs: map<SeqId, Sequence>, running: map<SeqId, bool>,
                   outputs: map<SeqId, Output>, maxLen: nat)
    requires i < |ts|
    ensures forall ends: bool ::
      (Chosen(ts[..i + 1], seqs, running, outputs, maxLen, ends) ==
       Chosen(ts[..i], seqs, running, outputs, maxLen, ends) +
       (if TaskEnds(ts[i], seqs, running, outputs, maxLen) == ends then [ts[i]] else []))
  {
    hide TaskEnds;
    assert ts[..i + 1][..i] == ts[..i];
  }

  lemma {:induction false} ChosenAre(ts: seq<Task>, seqs: map<SeqId, Sequence>, running: map<SeqId, bool>,
                                     outputs: map<SeqId, Output>, maxLen: nat, ends: bool, x: Task)
    ensures x in Chosen(ts, seqs, running, outputs, maxLen, ends) <==>
      x in ts && TaskEnds(x, seqs, running, outputs, maxLen) == ends
  {
    hide TaskEnds;
    if ts != [] {
      var n := |ts| - 1;
      ChosenAre(ts[..n], seqs, running, outputs, maxLen, ends, x);
      assert ts == ts[..n] + [ts[n]];
    }
  }

  /** Exactly those tasks finish whose sequence takes an output and then has an end-of-sequence token that it is
      not to ignore, as many outputs as were asked for, or the maximal length. */
  ghost predicate FinishedAre(seqs0: map<SeqId, Sequence>, active: seq<Task>, finished: seq<Task>,
                              running: map<SeqId, bool>, outputs: map<SeqId, Output>, maxLen: nat) {
    && (forall x :: x in finished ==> x in active)
    && forall i :: 0 <= i < |active| && active[i].id in seqs0 ==>
         var q, s := active[i].id, seqs0[active[i].id];
         (active[i] in finished <==>
            && q in outputs && q in running && !running[q]
            && ((outputs[q].eos && !s.ignoreEos)
                || (s.maxOutput.Some? && s.outputLen + 1 >= s.maxOutput.value)
                || |s.toks| + 1 >= maxLen))
  }

  lemma ChosenFinish(seqs0: map<SeqId, Sequence>, active: seq<Task>, running: map<SeqId, bool>,
                     outputs: map<SeqId, Output>, maxLen: nat)
    ensures FinishedAre(seqs0, active, Chosen(active, seqs0, running, outputs, maxLen, true), running, outputs, maxLen)
  {
    hide Chosen;
    forall x
      ensures x in Chosen(active, seqs0, running, outputs, maxLen, true) <==>
        x in active && TaskEnds(x, seqs0, running, outputs, maxLen)
    {
      ChosenAre(active, seqs0, running, outputs, maxLen, true, x);
    }
  }

  /** `ts` split into `a` and `b`, both in the order of `ts`. */
  ghost predicate Split(ts: seq<Task>, a: seq<Task>, b: seq<Task>) {
    multiset(a) + multiset(b) == multiset(ts) && (Sorted(ts) ==> Sorted(a))
  }

  lemma SplitMore(ts: seq<Task>, i: nat, a: seq<Task>, b: seq<Task>)
    requires i < |ts| && Split(ts[..i], a, b)
    ensures Split(ts[..i + 1], a + [ts[i]], b) && Split(ts[..i + 1], a, b + [ts[i]])
  {
    var p := ts[..i + 1];
    assert p == ts[..i] + [ts[i]];
    if Sorted(p) {
      SortedPrefix(ts[..i], p);
      forall k | 0 <= k < |a|
        ensures a[k].arrival <= ts[i].arrival
      {
        assert a[k] in multiset(a) + multiset(b);
        assert a[k] in ts[..i];
        var j :| 0 <= j < i && ts[j] == a[k];
        assert p[j] == ts[j] && p[i] == ts[i];
      }
    }
  }

  /** Sequences of the tasks in `ts` are updated, the others are as before. */
  ghost predicate UpdatedFor(seqs0: map<SeqId, Sequence>, seqs: map<SeqId, Sequence>, ts: seq<Task>,
                             running: map<SeqId, bool>, outputs: map<SeqId, Output>) {
    && seqs.Keys == seqs0.Keys
    && (forall i :: 0 <= i < |ts| ==>
          (ts[i].id in seqs0 && seqs[ts[i].id] == After(seqs0[ts[i].id], ts[i].id, running, outputs)))
    && (forall q :: q in seqs0 && q !in Ids(ts) ==> seqs[q] == seqs0[q])
  }

  lemma UpdatedMore(seqs0: map<SeqId, Sequence>, seqs: map<SeqId, Sequence>, ts: seq<Task>, i: nat,
                    running: map<SeqId, bool>, outputs: map<SeqId, Output>)
    requires i < |ts| && UpdatedFor(seqs0, seqs, ts[..i], running, outputs) && ts[i].id in seqs0
    requires forall k, l :: 0 <= k < l < |ts| ==> ts[k].id != ts[l].id
    ensures ts[i].id in seqs && seqs[ts[i].id] == seqs0[ts[i].id]
    ensures UpdatedFor(seqs0, seqs[ts[i].id := After(seqs[ts[i].id], ts[i].id, running, outputs)], ts[..i + 1], running,
                       outputs)
  {
    hide After;
    var q := ts[i].id;
    IdsMore(ts, i);
    var p := ts[..i + 1];
    var seqs' := seqs[q := After(seqs[q], q, running, outputs)];
    forall k | 0 <= k < |p|
      ensures p[k].id in seqs0 && seqs'[p[k].id] == After(seqs0[p[k].id], p[k].id, running, outputs)
    {
      assert k < i ==> p[k] == ts[..i][k];
    }
    forall o | o in seqs0 && o !in Ids(p)
      ensures seqs'[o] == seqs0[o]
    {
      assert o != q;
    }
  }

  lemma IdsMore(ts: seq<Task>, i: nat)
    requires i < |ts|
    requires forall k, l :: 0 <= k < l < |ts| ==> ts[k].id != ts[l].id
    ensures Ids(ts[..i + 1]) == Ids(ts[..i]) + [ts[i].id] && ts[i].id !in Ids(ts[..i])
  {
  }

  /** `update`: an output token is appended exactly to those sequences whose input in the batch reached
      their full length, and exactly the tasks whose sequence then ends leave the active ones. */
  method TakeOutputs(seqs0: map<SeqId, Sequence>, active: seq<Task>, running: map<SeqId, bool>,
                     outputs: map<SeqId, Output>, maxLen: nat)
    returns (seqs: map<SeqId, Sequence>, still: seq<Task>, finished: seq<Task>)
    requires forall i :: 0 <= i < |active| ==> active[i].id in seqs0
    requires forall i, j :: 0 <= i < j < |active| ==> active[i].id != active[j].id
    ensures UpdatedFor(seqs0, seqs, active, running, outputs) && Split(active, still, finished)
    ensures FinishedAre(seqs0, active, finished, running, outputs, maxLen)
    ensures still == Chosen(active, seqs0, running, outputs, maxLen, false)
    ensures finished == Chosen(active, seqs0, running, outputs, maxLen, true)
    ensures forall i :: 0 <= i < |finished| ==>
      (finished[i].id in seqs0 && Ends(seqs0[finished[i].id], finished[i].id, running, outputs, maxLen))
    ensures forall i :: 0 <= i < |still| ==> still[i].id in seqs0 && !Ends(seqs0[still[i].id], still[i].id, running,
                                                                           outputs, maxLen)
  {
    hide Split, UpdatedFor, Sorted, Chosen, FinishedAre;
    seqs, still, finished := seqs0, [], [];
    NoneTaken(seqs0, active, running, outputs, maxLen);
    var i := 0;
    while i < |active|
      invariant i <= |active| && UpdatedFor(seqs0, seqs, active[..i], running, outputs)
      invariant Split(active[..i], still, finished)
      invariant still == Chosen(active[..i], seqs0, running, outputs, maxLen, false)
      invariant finished == Chosen(active[..i], seqs0, running, outputs, maxLen, true)
      invariant forall k :: 0 <= k < |finished| ==>
        (finished[k].id in seqs0 && Ends(seqs0[finished[k].id], finished[k].id, running, outputs, maxLen))
      invariant forall k :: 0 <= k < |still| ==>
        (still[k].id in seqs0 && !Ends(seqs0[still[k].id], still[k].id, running, outputs, maxLen))
    {
      var t := active[i];
      UpdatedMore(seqs0, seqs, active, i, running, outputs);
      SplitMore(active, i, still, finished);
      ChosenMore(active, i, seqs0, running, outputs, maxLen);
      var ends := false;
      if t.id in outputs && t.id in running && !running[t.id] {
        var out := outputs[t.id];
        var s := Appended(seqs[t.id], out.id);
        ends := (!s.ignoreEos && out.eos) || (s.maxOutput.Some? && s.outputLen >= s.maxOutput.value) || |s.toks| >= maxLen;
        seqs := seqs[t.id := s];
      } else {
        assert seqs[t.id := seqs[t.id]] == seqs;
      }
      if ends {
        finished := finished + [t];
      } else {
        still := still + [t];
      }
      i := i + 1;
    }
    assert active[..i] == active;
    ChosenFinish(seqs0, active, running, outputs, maxLen);
  }

  lemma NoneTaken(seqs: map<SeqId, Sequence>, active: seq<Task>, running: map<SeqId, bool>, outputs: map<SeqId, Output>,
                  maxLen: nat)
    ensures UpdatedFor(seqs, seqs, active[..0], running, outputs) && Split(active[..0], [], [])
    ensures forall ends: bool :: Chosen(active[..0], seqs, running, outputs, maxLen, ends) == []
  {
    assert active[..0] == [];
  }

  // ---------------------------------------------------------------- successive inputs

  /** Successive stretches of `text`. */
  ghost predicate Chain(ins: seq<Input>, text: seq<Token>) {
    && (forall i :: 0 <= i < |ins| ==>
          (ins[i].filled <= ins[i].context <= |text| && ins[i].tokens == text[ins[i].filled..ins[i].context]))
    && (forall i :: 0 <= i < |ins| - 1 ==> ins[i + 1].filled == ins[i].context)
  }

  function AllTokens(ins: seq<Input>): seq<Token> {
    if ins == [] then [] else AllTokens(ins[..|ins| - 1]) + ins[|ins| - 1].tokens
  }

  /** The tokens of inputs that tile, one after the other, are the text without gap or overlap. */
  lemma {:induction false} ChainSpellsText(ins: seq<Input>, text: seq<Token>)
    requires Chain(ins, text) && ins != []
    ensures ins[0].filled <= ins[|ins| - 1].context
    ensures AllTokens(ins) == text[ins[0].filled..ins[|ins| - 1].context]
  {
    var n := |ins| - 1;
    var rest := ins[..n];
    if n == 0 {
      assert rest == [];
    } else {
      ChainShorter(ins, text);
      ChainSpellsText(rest, text);
      var a, b, c := ins[0].filled, ins[n].filled, ins[n].context;
      assert text[a..b] + text[b..c] == text[a..c];
    }
  }

  lemma ChainShorter(ins: seq<Input>, text: seq<Token>)
    requires Chain(ins, text) && |ins| > 1
    ensures var n := |ins| - 1;
      && Chain(ins[..n], text) && ins[..n][0] == ins[0] && ins[..n][n - 1].context == ins[n].filled
      && ins[n].filled <= ins[n].context <= |text| && ins[n].tokens == text[ins[n].filled..ins[n].context]
  {
    var n := |ins| - 1;
    assert ins[n - 1 + 1].filled == ins[n - 1].context;
    forall i | 0 <= i < n - 1
      ensures ins[..n][i + 1].filled == ins[..n][i].context
    {
      assert ins[i + 1].filled == ins[i].context;
    }
  }
}
