/** The reserve / transfer / trigger protocol between a prefill node and a decode node
    (runtime/src/router.rs, lines 264-322; runtime/src/llm_engine/engine.rs, lines 245-306 and 414-439;
    runtime/worker/llm_worker/kv_worker.py, lines 375-415), interleaved with any other work. */
module Transfer {
  import opened Prelude
  import opened BlockPool
  import opened BlockManagerSpec
  import opened BlockManagerInv
  import opened Allocation
  import opened PrefixCache
  import opened Regions
  import opened BlockManagerRuns

  /** What a host cache block holds: the key/value state of a hashed prefix chunk, or something else. */
  datatype Kv = Stale | KvOf(h: Hash)

  datatype Node = Node(m: Manager, texts: Texts, mem: seq<Kv>)

  /** How far one transfer has come. `dst` is the region reserved on the decode node, `src` the one
      pinned on the prefill node, of which the first `sent` blocks are pushed. */
  datatype Phase =
    | Idle
    | NothingToSend
    | Reserving(dst: Region)
    | Pushing(dst: Region, src: Region, sent: nat)
    | Unpinned(dst: Region, src: Region)
    | Triggered(dst: Region, src: Region, activated: nat)
  {
    predicate DstOpen() { Reserving? || Pushing? || Unpinned? }
    predicate SrcOpen() { Pushing? }

    /** How many of the reserved blocks are written. */
    function Received(): nat
      requires Pushing? || Unpinned?
    {
      if Pushing? then sent else |src.hashes|
    }
  }

  datatype System = System(src: Node, dst: Node, phase: Phase)

  /** The protocol's own steps, delimited by the scheduler locks, and everything else that may happen
      in between: block manager operations and cache writes of other requests on either node. */
  datatype Action =
    | Reserve(toks: seq<Token>, start: nat, rid: RegionId)
    | Pin(rid: RegionId)
    | PushBlock
    | Unpin
    | Trigger
    | SrcOp(op: Op)
    | DstOp(op: Op)
    | SrcWrite(w: Writer, i: nat, v: Kv)
    | DstWrite(w: Writer, i: nat, v: Kv)

  /** Who writes to a cache: the work of a sequence, or a copy into a region. */
  datatype Writer = OfSeq(q: SeqId) | OfRegion(rid: RegionId)

  /** The blocks a writer owns. */
  function Owned(m: Manager, w: Writer): seq<BlockId> {
    match w
    case OfSeq(q) => if q in m.maps then m.maps[q].ids else []
    case OfRegion(rid) => if rid in m.regions then m.regions[rid] else []
  }

  /** A writer touches only blocks it owns, and puts into a full one what its hash names: a sequence the
      state of its own text, a copy the blocks that the region was reserved for. */
  ghost predicate OwnWrite(n: Node, w: Writer, i: nat, v: Kv) {
    && i < |Owned(n.m, w)| && Owned(n.m, w)[i] < |n.mem| && Owned(n.m, w)[i] < |n.m.pool.blocks|
    && (n.m.pool.blocks[Owned(n.m, w)[i]].hash != NoHash ==> v == KvOf(n.m.pool.blocks[Owned(n.m, w)[i]].hash))
  }

  /** What the actor of an action may rely on. Other requests use fresh region ids, do not close this
      transfer's regions, and write to their own blocks only. Pinned source blocks are taken to be
      computed. The worker pairs local block `i` with remote descriptor `i`. */
  ghost predicate Enabled(s: System, a: Action) {
    match a
    case Reserve(_, _, rid) => s.phase.Idle? && rid !in s.dst.m.regions
    case Pin(rid) =>
      && s.phase.Reserving? && rid !in s.src.m.regions
      && var r := PinHashes(s.src.m, s.phase.dst.hashes, rid);
      r.Ok? ==> Holds(s.src.mem, r.value.1, |r.value.1.ids|)
    case PushBlock =>
      && s.phase.Pushing? && s.phase.sent < |s.phase.src.ids| && s.phase.sent < |s.phase.dst.ids|
      && s.phase.src.ids[s.phase.sent] < |s.src.mem| && s.phase.dst.ids[s.phase.sent] < |s.dst.mem|
    case Unpin => s.phase.Pushing? && s.phase.sent == |s.phase.src.ids|
    case Trigger => s.phase.Unpinned?
    case SrcOp(op) => Legal(s.src.m, s.src.texts, op) && (s.phase.SrcOpen() ==> Keeps(op, s.phase.src.id))
    case DstOp(op) => Legal(s.dst.m, s.dst.texts, op) && (s.phase.DstOpen() ==> Keeps(op, s.phase.dst.id))
    case SrcWrite(w, i, v) => OwnWrite(s.src, w, i, v)
    case DstWrite(w, i, v) => OwnWrite(s.dst, w, i, v)
  }

  /** `v` is the content of every entry of region `r` that uses block `b`. */
  ghost predicate RightFor(r: Region, b: BlockId, v: Kv) {
    forall i :: 0 <= i < |r.ids| && i < |r.hashes| && r.ids[i] == b ==> v == KvOf(r.hashes[i])
  }

  /** The first `k` blocks of a region hold the content of their hashes. */
  ghost predicate Holds(mem: seq<Kv>, r: Region, k: nat) {
    forall i :: 0 <= i < k && i < |r.ids| && i < |r.hashes| ==> r.ids[i] < |mem| && mem[r.ids[i]] == KvOf(r.hashes[i])
  }

  ghost function Do(s: System, a: Action): Outcome<System>
    requires Enabled(s, a)
  {
    match a
    case Reserve(toks, start, rid) =>
      var (m, r) :- BlockManagerSpec.Reserve(s.dst.m, toks, start, rid);
      Ok(s.(dst := s.dst.(m := m), phase := if r.None? then NothingToSend else Reserving(r.value)))
    case Pin(rid) =>
      var (m, r) :- PinHashes(s.src.m, s.phase.dst.hashes, rid);
      Ok(s.(src := s.src.(m := m), phase := Pushing(s.phase.dst, r, 0)))
    case PushBlock =>
      var i := s.phase.sent;
      Ok(s.(dst := s.dst.(mem := s.dst.mem[s.phase.dst.ids[i] := s.src.mem[s.phase.src.ids[i]]]),
            phase := s.phase.(sent := i + 1)))
    case Unpin =>
      var (m, _) :- BlockManagerSpec.Unpin(s.src.m, s.phase.src.id);
      Ok(s.(src := s.src.(m := m), phase := Unpinned(s.phase.dst, s.phase.src)))
    case Trigger =>
      var (m, n) :- Activate(s.dst.m, s.phase.dst.id, s.phase.src.hashes);
      Ok(s.(dst := s.dst.(m := m), phase := Triggered(s.phase.dst, s.phase.src, n)))
    case SrcOp(op) =>
      var m :- Step(s.src.m, op);
      Ok(s.(src := s.src.(m := m, texts := NextTexts(s.src.m, s.src.texts, op))))
    case DstOp(op) =>
      var m :- Step(s.dst.m, op);
      Ok(s.(dst := s.dst.(m := m, texts := NextTexts(s.dst.m, s.dst.texts, op))))
    case SrcWrite(w, i, v) => Ok(s.(src := s.src.(mem := s.src.mem[Owned(s.src.m, w)[i] := v])))
    case DstWrite(w, i, v) => Ok(s.(dst := s.dst.(mem := s.dst.mem[Owned(s.dst.m, w)[i] := v])))
  }

  // ---------------------------------------------------------------- the invariant

  ghost predicate NodeOk(n: Node) {
    Inv(n.m, n.texts, multiset{}) && |n.mem| == |n.m.pool.blocks|
  }

  /** Region `r` is open on the node and its blocks carry the recorded hashes. */
  ghost predicate Open(n: Node, r: Region) {
    r.id in n.m.regions && n.m.regions[r.id] == r.ids && RegionCarries(n.m, r)
  }

  ghost predicate DistinctHashes(r: Region) {
    forall i, j :: 0 <= i < j < |r.hashes| ==> r.hashes[i] != r.hashes[j]
  }

  ghost predicate SystemOk(s: System) {
    && NodeOk(s.src) && NodeOk(s.dst)
    && (s.phase.DstOpen() ==> Open(s.dst, s.phase.dst) && DistinctHashes(s.phase.dst))
    && (s.phase.SrcOpen() ==> Open(s.src, s.phase.src) && Holds(s.src.mem, s.phase.src, |s.phase.src.ids|))
    && (s.phase.Pushing? || s.phase.Unpinned? ==>
       s.phase.src.hashes <= s.phase.dst.hashes && Holds(s.dst.mem, s.phase.dst, s.phase.Received()))
    && (s.phase.Pushing? ==> s.phase.sent <= |s.phase.src.ids|)
  }

  lemma ReservedHashesDiffer(r: Region, toks: seq<Token>, from: nat, bs: nat)
    requires bs > 0 && HashesOf(r, toks, from, bs)
    ensures DistinctHashes(r)
  {
    forall i, j | 0 <= i < j < |r.hashes|
      ensures r.hashes[i] != r.hashes[j]
    {
      OffsetMono(i, j, bs);
      assert |toks[..from + Offset(i, bs) + bs]| < |toks[..from + Offset(j, bs) + bs]|;
    }
  }

  lemma OpenKept(n: Node, m': Manager, r: Region)
    requires Open(n, r) && RegionIntact(n.m, m', r.id)
    ensures RegionCarries(m', r) && r.id in m'.regions && m'.regions[r.id] == r.ids
  {
  }

  lemma HoldsAfterWrite(mem: seq<Kv>, r: Region, k: nat, b: BlockId, v: Kv)
    requires Holds(mem, r, k) && b < |mem| && RightFor(r, b, v)
    ensures Holds(mem[b := v], r, k)
  {
  }

  lemma HoldsNone(mem: seq<Kv>, r: Region)
    ensures Holds(mem, r, 0)
  {
  }

  /** What an owner writes to a block is right for every region that has the block. */
  lemma OwnWriteRight(n: Node, w: Writer, i: nat, v: Kv, r: Region)
    requires OwnWrite(n, w, i, v) && RegionCarries(n.m, r)
    ensures RightFor(r, Owned(n.m, w)[i], v)
  {
  }

  /** Pushing one more block delivers it to the reserved block with the same hash, and can always be done. */
  lemma PushDelivers(s: System)
    requires SystemOk(s) && s.phase.Pushing? && s.phase.sent < |s.phase.src.ids|
    ensures Enabled(s, PushBlock)
    ensures s.phase.src.hashes[s.phase.sent] == s.phase.dst.hashes[s.phase.sent]
    ensures Holds(Do(s, PushBlock).value.dst.mem, s.phase.dst, s.phase.sent + 1)
  {
    hide Inv;
    var src, dst, k := s.phase.src, s.phase.dst, s.phase.sent;
    assert s.dst.m.pool.blocks[dst.ids[k]].hash == dst.hashes[k];
    forall i | 0 <= i < k && i < |dst.ids| && i < |dst.hashes|
      ensures dst.ids[i] != dst.ids[k]
    {
      assert s.dst.m.pool.blocks[dst.ids[i]].hash == dst.hashes[i];
    }
  }

  /** Every step keeps the system in order, whatever is interleaved; the only panic is that a node
      runs out of blocks. */
  lemma ActionSafe(s: System, a: Action)
    requires SystemOk(s) && Enabled(s, a)
    ensures match Do(s, a)
      case Ok(s') => SystemOk(s')
      case Panic(f) => f == Exhausted && (a.Reserve? || a.SrcOp? || a.DstOp?)
  {
    hide Inv, BlockManagerSpec.Reserve, BlockManagerSpec.Unpin, Activate, PinHashes, Step, Legal, NextTexts, Demand,
      RegionIntact, RegionCarries, HashesOf, Holds, RightFor, Published, SameContents, InUseSame, CountCarried, Whole;
    match a
    case Reserve(toks, start, rid) =>
      ReserveSafe(s.dst.m, s.dst.texts, toks, start, rid);
      var r := BlockManagerSpec.Reserve(s.dst.m, toks, start, rid);
      if r.Ok? && r.value.1.Some? {
        ReservedHashesDiffer(r.value.1.value, toks, Offset(Whole(start, s.dst.m.bs), s.dst.m.bs), s.dst.m.bs);
      }
      if r.Ok? {
        InUseLength(s.dst.m.pool, r.value.0.pool);
      }
    case Pin(rid) =>
      PinHashesSafe(s.src.m, s.src.texts, s.phase.dst.hashes, rid);
      HoldsNone(s.dst.mem, s.phase.dst);
      SameLength(s.src.m.pool, PinHashes(s.src.m, s.phase.dst.hashes, rid).value.0.pool);
    case PushBlock => PushDelivers(s);
    case Unpin =>
      UnpinSafe(s.src.m, s.src.texts, s.phase.src.id);
      CarriesLengths(s.src.m, s.phase.src);
      SameLength(s.src.m.pool, BlockManagerSpec.Unpin(s.src.m, s.phase.src.id).value.0.pool);
    case Trigger =>
      ActivateSafe(s.dst.m, s.dst.texts, s.phase.dst.id, s.phase.src.hashes);
      SameLength(s.dst.m.pool, Activate(s.dst.m, s.phase.dst.id, s.phase.src.hashes).value.0.pool);
    case SrcOp(op) =>
      StepSafe(s.src.m, s.src.texts, op);
      if Step(s.src.m, op).Ok? && s.phase.SrcOpen() {
        StepKeepsRegion(s.src.m, s.src.texts, op, s.phase.src.id);
        OpenKept(s.src, Step(s.src.m, op).value, s.phase.src);
      }
    case DstOp(op) =>
      StepSafe(s.dst.m, s.dst.texts, op);
      if Step(s.dst.m, op).Ok? && s.phase.DstOpen() {
        StepKeepsRegion(s.dst.m, s.dst.texts, op, s.phase.dst.id);
        OpenKept(s.dst, Step(s.dst.m, op).value, s.phase.dst);
      }
    case SrcWrite(w, i, v) =>
      if s.phase.SrcOpen() {
        OwnWriteRight(s.src, w, i, v, s.phase.src);
        HoldsAfterWrite(s.src.mem, s.phase.src, |s.phase.src.ids|, Owned(s.src.m, w)[i], v);
      }
    case DstWrite(w, i, v) =>
      if s.phase.Pushing? || s.phase.Unpinned? {
        OwnWriteRight(s.dst, w, i, v, s.phase.dst);
        HoldsAfterWrite(s.dst.mem, s.phase.dst, s.phase.Received(), Owned(s.dst.m, w)[i], v);
      }
  }

  lemma SameLength(p: Pool, p': Pool)
    requires SameContents(p, p')
    ensures |p'.blocks| == |p.blocks|
  {
  }

  lemma InUseLength(p: Pool, p': Pool)
    requires InUseSame(p, p')
    ensures |p'.blocks| == |p.blocks|
  {
  }

  // ---------------------------------------------------------------- whole runs

  /** `trace` is a run: each state follows from the one before by an enabled action. */
  ghost predicate IsRun(trace: seq<System>, actions: seq<Action>) {
    && |trace| == |actions| + 1
    && forall i :: 0 <= i < |actions| ==> Enabled(trace[i], actions[i]) && Do(trace[i], actions[i]) == Ok(trace[i + 1])
  }

  lemma {:induction false} RunInvariant(trace: seq<System>, actions: seq<Action>, k: nat)
    requires IsRun(trace, actions) && SystemOk(trace[0]) && k < |trace|
    ensures SystemOk(trace[k])
  {
    hide SystemOk, Do, Enabled;
    if k > 0 {
      RunInvariant(trace, actions, k - 1);
      assert Enabled(trace[k - 1], actions[k - 1]) && Do(trace[k - 1], actions[k - 1]) == Ok(trace[k]);
      ActionSafe(trace[k - 1], actions[k - 1]);
    }
  }

  /** Transfer safety. In any run, when a transfer is triggered: the transferred hashes are a prefix of
      the reserved ones, all of them and no other reserved block are activated, each of their blocks holds
      exactly the content of its hash, and so does the block of each newly published entry. Every hash is
      then in the decode node's table; but it is found there only if it was not there before, or was found
      there before: an old entry is not replaced, even if its block has lost the content since. */
  lemma TriggerPublishesReceivedBlocks(trace: seq<System>, actions: seq<Action>, k: nat)
    requires IsRun(trace, actions) && SystemOk(trace[0]) && k < |actions| && actions[k] == Trigger
    ensures trace[k].phase.Unpinned? && trace[k + 1].phase.Triggered?
    ensures
      var src, dst := trace[k].phase.src, trace[k].phase.dst;
      var before, after := trace[k].dst, trace[k + 1].dst;
      && src.hashes <= dst.hashes
      && trace[k + 1].phase.activated == |src.hashes| && Holds(after.mem, dst, |src.hashes|)
      && (forall h :: h in src.hashes ==> h in after.m.table)
      && (forall h :: h in src.hashes ==>
            (Lookup(after.m, h).Some? <==> h !in before.m.table || Lookup(before.m, h).Some?))
      && (forall h :: h in before.m.table ==> h in after.m.table && after.m.table[h] == before.m.table[h])
      && forall h :: h in after.m.table && h !in before.m.table ==>
           h in src.hashes && after.m.table[h] < |after.mem| && after.mem[after.m.table[h]] == KvOf(h)
  {
    assert Enabled(trace[k], actions[k]) && Do(trace[k], actions[k]) == Ok(trace[k + 1]);
    RunInvariant(trace, actions, k);
    TriggerResult(trace[k]);
  }

  lemma TriggerResult(s: System)
    requires SystemOk(s) && s.phase.Unpinned?
    ensures Do(s, Trigger).Ok?
    ensures
      var s' := Do(s, Trigger).value;
      var src, dst := s.phase.src, s.phase.dst;
      && src.hashes <= dst.hashes && s'.phase == Triggered(dst, src, |src.hashes|)
      && Holds(s'.dst.mem, dst, |src.hashes|)
      && (forall h :: h in src.hashes ==> h in s'.dst.m.table)
      && (forall h :: h in src.hashes ==>
            (Lookup(s'.dst.m, h).Some? <==> h !in s.dst.m.table || Lookup(s.dst.m, h).Some?))
      && (forall h :: h in s.dst.m.table ==> h in s'.dst.m.table && s'.dst.m.table[h] == s.dst.m.table[h])
      && forall h :: h in s'.dst.m.table && h !in s.dst.m.table ==>
           h in src.hashes && s'.dst.m.table[h] < |s'.dst.mem| && s'.dst.mem[s'.dst.m.table[h]] == KvOf(h)
  {
    hide Inv, Activate, CountCarried, Published, DistinctHashes, Holds;
    var src, dst := s.phase.src, s.phase.dst;
    ActivateSafe(s.dst.m, s.dst.texts, dst.id, src.hashes);
    var wanted := set h | h in src.hashes;
    ActivatedCount(s.dst.m.pool.blocks, dst, src.hashes, wanted);
    PublishedAreReceived(s.dst.m, Activate(s.dst.m, dst.id, src.hashes).value.0, s.dst.mem, dst, src.hashes, wanted);
    forall h | h in src.hashes
      ensures Lookup(Activate(s.dst.m, dst.id, src.hashes).value.0, h).Some? <==>
        h !in s.dst.m.table || Lookup(s.dst.m, h).Some?
    {
      FoundAfter(s.dst.m, Activate(s.dst.m, dst.id, src.hashes).value.0, dst, src.hashes, wanted, h);
    }
  }

  /** What is found after activation: what was found before, and the wanted hashes that had no entry. */
  lemma FoundAfter(m: Manager, m': Manager, dst: Region, sent: seq<Hash>, wanted: set<Hash>, h: Hash)
    requires RegionCarries(m, dst) && sent <= dst.hashes && wanted == (set x | x in sent)
    requires Published(m, m', dst.ids, wanted) && SameContents(m.pool, m'.pool)
    ensures Lookup(m', h).Some? <==> (h in sent && h !in m.table) || Lookup(m, h).Some?
  {
    if h in sent {
      var i :| 0 <= i < |sent| && sent[i] == h;
      assert m.pool.blocks[dst.ids[i]].hash == h;
    }
  }

  lemma PublishedAreReceived(m: Manager, m': Manager, mem: seq<Kv>, dst: Region, sent: seq<Hash>, wanted: set<Hash>)
    requires RegionCarries(m, dst) && DistinctHashes(dst) && sent <= dst.hashes && Holds(mem, dst, |sent|)
    requires wanted == (set h | h in sent) && Published(m, m', dst.ids, wanted)
    ensures forall h :: h in sent ==> h in m'.table
    ensures forall h :: h in m.table ==> h in m'.table && m'.table[h] == m.table[h]
    ensures forall h :: h in m'.table && h !in m.table ==>
      h in sent && m'.table[h] < |mem| && mem[m'.table[h]] == KvOf(h)
  {
    forall h | h in sent
      ensures h in m'.table
    {
      var i :| 0 <= i < |sent| && sent[i] == h;
      assert m.pool.blocks[dst.ids[i]].hash == h;
    }
    forall h | h in m'.table && h !in m.table
      ensures h in sent && m'.table[h] < |mem| && mem[m'.table[h]] == KvOf(h)
    {
      var i :| 0 <= i < |sent| && sent[i] == h;
      var j :| 0 <= j < |dst.ids| && dst.ids[j] == m'.table[h];
      assert m.pool.blocks[dst.ids[j]].hash == dst.hashes[j] == h == dst.hashes[i];
      assert i == j;
    }
  }

  /** Exactly the transferred blocks carry a transferred hash. */
  lemma ActivatedCount(blocks: seq<Block>, dst: Region, sent: seq<Hash>, wanted: set<Hash>)
    requires |dst.ids| == |dst.hashes| && DistinctHashes(dst) && sent <= dst.hashes
    requires wanted == set h | h in sent
    requires forall i :: 0 <= i < |dst.ids| ==> dst.ids[i] < |blocks| && blocks[dst.ids[i]].hash == dst.hashes[i]
    ensures CountCarried(blocks, dst.ids, wanted) == |sent|
  {
    CountCarriedFrom(blocks, dst, sent, wanted, 0);
    assert dst.ids[0..] == dst.ids;
  }

  lemma {:induction false} CountCarriedFrom(blocks: seq<Block>, dst: Region, sent: seq<Hash>, wanted: set<Hash>, k: nat)
    requires |dst.ids| == |dst.hashes| && DistinctHashes(dst) && sent <= dst.hashes && k <= |dst.ids|
    requires wanted == set h | h in sent
    requires forall i :: 0 <= i < |dst.ids| ==> dst.ids[i] < |blocks| && blocks[dst.ids[i]].hash == dst.hashes[i]
    ensures CountCarried(blocks, dst.ids[k..], wanted) == if k < |sent| then |sent| - k else 0
    decreases |dst.ids| - k
  {
    if k < |dst.ids| {
      CountCarriedFrom(blocks, dst, sent, wanted, k + 1);
      assert dst.ids[k..][1..] == dst.ids[k + 1..];
      assert k < |sent| ==> sent[k] == dst.hashes[k];
    }
  }
}
