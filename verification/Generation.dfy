/** Token generation on one node and split over a prefill and a decode node
    (runtime/src/router.rs, lines 377-408; runtime/src/llm_engine/scheduler.rs, lines 607-652). */
module Generation {
  import opened Prelude
  import opened Updates

  /** A model as the scheduler sees it: the next token and the end-of-sequence test are functions of
      the tokens so far, and sequences are cut at `maxSeqLen`. */
  datatype Model = Model(next: seq<Token> -> Token, isEos: Token -> bool, maxSeqLen: nat)

  datatype Request = Request(input: seq<Token>, maxOutput: Option<nat>, ignoreEos: bool)

  /** Whether `update` finishes a sequence that has `toks` tokens, `outputs` of them generated, after
      appending `t`. */
  predicate Finishes(md: Model, req: Request, toks: seq<Token>, outputs: nat, t: Token) {
    Stops(req.ignoreEos, req.maxOutput, md.maxSeqLen, md.isEos(t), |toks|, outputs)
  }

  /** The tokens generated from `toks` on, when `outputs` were generated before. */
  function Emit(md: Model, req: Request, toks: seq<Token>, outputs: nat): seq<Token>
    decreases if |toks| < md.maxSeqLen then md.maxSeqLen - |toks| else 0
  {
    var t := md.next(toks);
    if Finishes(md, req, toks + [t], outputs + 1, t) then [t]
    else [t] + Emit(md, req, toks + [t], outputs + 1)
  }

  function Monolithic(md: Model, req: Request): seq<Token> { Emit(md, req, req.input, 0) }

  // ---------------------------------------------------------------- what is generated

  /** `out` is generated from `toks` on, after `k` outputs: each token is the next one of the text before it; no
      token but the last is an end-of-sequence token that counts, and before the last both limits leave room;
      the last one is such a token, or reaches a limit. */
  ghost predicate Generated(md: Model, req: Request, toks: seq<Token>, k: nat, out: seq<Token>) {
    && out != []
    && Continues(md, toks, out) && GoesOn(md, req, out)
    && (|out| > 1 && req.maxOutput.Some? ==> k + |out| <= req.maxOutput.value)
    && (|out| > 1 ==> |toks| + |out| <= md.maxSeqLen)
    && ((!req.ignoreEos && md.isEos(out[|out| - 1]))
        || (req.maxOutput.Some? && k + |out| >= req.maxOutput.value)
        || |toks| + |out| >= md.maxSeqLen)
  }

  /** Each token follows from the text before it. */
  ghost predicate Continues(md: Model, toks: seq<Token>, out: seq<Token>) {
    forall i :: 0 <= i < |out| ==> out[i] == md.next(toks + out[..i])
  }

  /** No token but the last is an end token that counts. */
  ghost predicate GoesOn(md: Model, req: Request, out: seq<Token>) {
    forall i :: 0 <= i < |out| - 1 ==> req.ignoreEos || !md.isEos(out[i])
  }

  lemma ContinuesCons(md: Model, toks: seq<Token>, t: Token, rest: seq<Token>)
    ensures Continues(md, toks, [t] + rest) <==> t == md.next(toks) && Continues(md, toks + [t], rest)
  {
    var out := [t] + rest;
    assert toks + out[..0] == toks;
    forall i | 0 <= i < |rest|
      ensures out[i + 1] == rest[i] && toks + [t] + rest[..i] == toks + out[..i + 1]
    {
      assert out[..i + 1] == [t] + rest[..i];
    }
    if Continues(md, toks, out) {
      assert out[0] == md.next(toks + out[..0]);
      forall i | 0 <= i < |rest|
        ensures rest[i] == md.next(toks + [t] + rest[..i])
      {
        assert out[i + 1] == md.next(toks + out[..i + 1]);
      }
    }
    if t == md.next(toks) && Continues(md, toks + [t], rest) {
      forall i | 0 <= i < |out|
        ensures out[i] == md.next(toks + out[..i])
      {
        assert i > 0 ==> rest[i - 1] == md.next(toks + [t] + rest[..i - 1]);
      }
    }
  }

  lemma GoesOnCons(md: Model, req: Request, t: Token, rest: seq<Token>)
    requires rest != []
    ensures GoesOn(md, req, [t] + rest) <==> (req.ignoreEos || !md.isEos(t)) && GoesOn(md, req, rest)
  {
    var out := [t] + rest;
    if GoesOn(md, req, out) {
      assert req.ignoreEos || !md.isEos(out[0]);
      forall i | 0 <= i < |rest| - 1
        ensures req.ignoreEos || !md.isEos(rest[i])
      {
        assert req.ignoreEos || !md.isEos(out[i + 1]);
      }
    }
  }

  /** The first token of what is generated, and the rest. */
  lemma GeneratedCons(md: Model, req: Request, toks: seq<Token>, k: nat, t: Token, rest: seq<Token>)
    requires rest != []
    ensures Generated(md, req, toks, k, [t] + rest) <==>
      && t == md.next(toks) && (req.ignoreEos || !md.isEos(t))
      && (req.maxOutput.Some? ==> k + 1 < req.maxOutput.value) && |toks| + 1 < md.maxSeqLen
      && Generated(md, req, toks + [t], k + 1, rest)
  {
    hide Continues, GoesOn;
    ContinuesCons(md, toks, t, rest);
    GoesOnCons(md, req, t, rest);
  }

  lemma {:induction false} EmitExactly(md: Model, req: Request, toks: seq<Token>, k: nat, out: seq<Token>)
    ensures out == Emit(md, req, toks, k) <==> Generated(md, req, toks, k, out)
    decreases if |toks| < md.maxSeqLen then md.maxSeqLen - |toks| else 0
  {
    var t := md.next(toks);
    if out != [] {
      var rest := out[1..];
      assert out == [out[0]] + rest;
      if rest != [] {
        GeneratedCons(md, req, toks, k, out[0], rest);
      } else {
        assert toks + out[..0] == toks;
      }
      if !Finishes(md, req, toks + [t], k + 1, t) {
        EmitExactly(md, req, toks + [t], k + 1, rest);
        EmitAtLeastOne(md, req, toks + [t], k + 1);
      }
    }
  }

  /** What a request is answered with is determined by this: every token follows from the text before it, none
      but the last is an end token that counts, and the last is one or reaches a limit. */
  lemma MonolithicExactly(md: Model, req: Request, out: seq<Token>)
    ensures out == Monolithic(md, req) <==> Generated(md, req, req.input, 0, out)
  {
    EmitExactly(md, req, req.input, 0, out);
  }

  /** In particular: the limits are kept as far as one token allows, and an output that is shorter than both
      ends with an end token that is not to be ignored. */
  lemma MonolithicLimits(md: Model, req: Request)
    ensures var out := Monolithic(md, req);
      && |out| > 0
      && (!req.ignoreEos ==> forall i :: 0 <= i < |out| - 1 ==> !md.isEos(out[i]))
      && (req.maxOutput.Some? ==> |out| <= if req.maxOutput.value > 1 then req.maxOutput.value else 1)
      && |req.input| + |out| <= (if md.maxSeqLen > |req.input| then md.maxSeqLen else |req.input| + 1)
      && ((req.maxOutput.Some? ==> |out| < req.maxOutput.value) && |req.input| + |out| < md.maxSeqLen ==>
            !req.ignoreEos && md.isEos(out[|out| - 1]))
  {
    hide Monolithic;
    MonolithicExactly(md, req, Monolithic(md, req));
  }

  // ---------------------------------------------------------------- two nodes

  /** `Controller::generate` with a prefill node: one token there, the rest on the decode node, whose
      output limit is one less. */
  function Disaggregated(md: Model, req: Request): seq<Token> {
    var first := Monolithic(md, req.(maxOutput := Some(1)));
    var limit := if req.maxOutput.Some? && req.maxOutput.value > 0 then Some(req.maxOutput.value - 1) else req.maxOutput;
    first + Monolithic(md, req.(input := req.input + first, maxOutput := limit))
  }

  /** The generation loop of one request, as the engine runs it. */
  method Generate(md: Model, req: Request) returns (outputs: seq<Token>)
    ensures outputs == Monolithic(md, req)
  {
    hide Emit, Finishes;
    var toks := req.input;
    outputs := [];
    assert [] + Monolithic(md, req) == Monolithic(md, req);
    var finished := false;
    while !finished
      invariant toks == req.input + outputs
      invariant finished ==> outputs == Monolithic(md, req)
      invariant !finished ==> outputs + Emit(md, req, toks, |outputs|) == Monolithic(md, req)
      invariant !finished && outputs != [] ==> |toks| < md.maxSeqLen
      decreases !finished, outputs == [], md.maxSeqLen - |toks|
    {
      var t := md.next(toks);
      EmitStep(md, req, toks, outputs, t);
      toks := toks + [t];
      outputs := outputs + [t];
      finished := Finishes(md, req, toks, |outputs|, t);
    }
  }

  /** One more token of what is still to be generated. */
  lemma EmitStep(md: Model, req: Request, toks: seq<Token>, outputs: seq<Token>, t: Token)
    requires t == md.next(toks)
    ensures var more, all := outputs + [t], outputs + Emit(md, req, toks, |outputs|);
      if Finishes(md, req, toks + [t], |outputs| + 1, t) then all == more
      else all == more + Emit(md, req, toks + [t], |outputs| + 1) && |toks| + 1 < md.maxSeqLen
  {
    var rest := Emit(md, req, toks, |outputs|);
    if !Finishes(md, req, toks + [t], |outputs| + 1, t) {
      var next := Emit(md, req, toks + [t], |outputs| + 1);
      assert rest == [t] + next;
      assert outputs + ([t] + next) == outputs + [t] + next;
    }
  }

  lemma {:induction false} EmitAtLeastOne(md: Model, req: Request, toks: seq<Token>, outputs: nat)
    ensures Emit(md, req, toks, outputs) != [] && Emit(md, req, toks, outputs)[0] == md.next(toks)
  {
  }

  /** The prefill node emits exactly the first token. */
  lemma PrefillIsFirst(md: Model, req: Request)
    ensures Monolithic(md, req.(maxOutput := Some(1))) == [md.next(req.input)]
  {
  }

  /** Counting from one output with a limit is counting from zero with one less, and which prompt the
      request was created with does not matter. */
  lemma {:induction false} EmitShift(md: Model, req: Request, req': Request, toks: seq<Token>, outputs: nat)
    requires req'.ignoreEos == req.ignoreEos
    requires req.maxOutput.None? ==> req'.maxOutput.None?
    requires req.maxOutput.Some? ==> req.maxOutput.value > 0 && req'.maxOutput == Some(req.maxOutput.value - 1)
    ensures Emit(md, req', toks, outputs) == Emit(md, req, toks, outputs + 1)
    decreases if |toks| < md.maxSeqLen then md.maxSeqLen - |toks| else 0
  {
    var t := md.next(toks);
    if !Finishes(md, req, toks + [t], outputs + 2, t) {
      EmitShift(md, req, req', toks + [t], outputs + 1);
    }
  }

  /** The request is over after its first token: it is an end-of-sequence token that counts, the limit
      is at most one, or the sequence is at its maximal length. */
  predicate OverAfterFirst(md: Model, req: Request) {
    Finishes(md, req, req.input + [md.next(req.input)], 1, md.next(req.input))
  }

  /** Disaggregation preserves the output exactly for the requests that are not over after their first
      token; for the others the decode node appends at least one token too many. */
  lemma DisaggregationPreservesOutput(md: Model, req: Request)
    ensures Disaggregated(md, req) == Monolithic(md, req) <==> !OverAfterFirst(md, req)
    ensures OverAfterFirst(md, req) <==> |Monolithic(md, req)| == 1
    ensures OverAfterFirst(md, req) ==> Monolithic(md, req) < Disaggregated(md, req)
  {
    var t := md.next(req.input);
    PrefillIsFirst(md, req);
    var limit := if req.maxOutput.Some? && req.maxOutput.value > 0 then Some(req.maxOutput.value - 1) else req.maxOutput;
    var req' := req.(input := req.input + [t], maxOutput := limit);
    EmitAtLeastOne(md, req', req'.input, 0);
    if !OverAfterFirst(md, req) {
      EmitShift(md, req, req', req.input + [t], 0);
      EmitAtLeastOne(md, req, req.input + [t], 1);
    }
  }
}
