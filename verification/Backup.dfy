/** The blocks that a backup copies from the host to the disk, between its planning and the copy
    (runtime/src/llm_engine/engine.rs, lines 353-392; scheduler.rs, lines 183-188 and 742-754). The engine
    submits the copy and removes the task at once, so the source blocks may be without an owner while the
    copy is still to come. */
module Backup {
  import opened Prelude
  import opened BlockPool
  import opened BlockManagerSpec
  import opened BlockManagerInv
  import opened Allocation
  import opened PrefixCache
  import opened Regions
  import opened Release
  import opened BlockManagerRuns
  import T = Transfer

  /** The block still holds the state that `h` names: it carries `h`, or nobody owns it and only its entry
      in the cache is gone. */
  ghost predicate Holding(n: T.Node, b: BlockId, h: Hash) {
    && b < |n.mem| && b < |n.m.pool.blocks| && h != NoHash
    && n.mem[b] == T.KvOf(h)
    && (n.m.pool.blocks[b].hash == h || (n.m.pool.blocks[b].hash == NoHash && n.m.pool.blocks[b].refCnt == 0))
  }

  /** What may happen on the host in the meantime. */
  datatype Event = Operation(op: Op) | Write(w: T.Writer, i: nat, v: T.Kv)

  ghost predicate Possible(n: T.Node, e: Event) {
    match e
    case Operation(op) => Legal(n.m, n.texts, op)
    case Write(w, i, v) => T.OwnWrite(n, w, i, v)
  }

  ghost function Happen(n: T.Node, e: Event): Outcome<T.Node>
    requires Possible(n, e)
  {
    match e
    case Operation(op) =>
      var m :- Step(n.m, op);
      Ok(n.(m := m, texts := NextTexts(n.m, n.texts, op)))
    case Write(w, i, v) => Ok(n.(mem := n.mem[T.Owned(n.m, w)[i] := v]))
  }

  /** The operation hands out block `b`, which nobody owned. */
  ghost predicate HandsOut(m: Manager, op: Op, b: BlockId) {
    && (op.OpAlloc? || op.OpReserve?) && b < |m.pool.blocks| && m.pool.blocks[b].refCnt == 0
    && Step(m, op).Ok? && b < |Step(m, op).value.pool.blocks| && Step(m, op).value.pool.blocks[b].refCnt != 0
  }

  // ---------------------------------------------------------------- blocks that are not handed out

  lemma {:induction false} AllocFreshTouches(m: Manager, toks: seq<Token>, off: nat, acc: seq<BlockId>, b: BlockId)
    requires AllocFresh(m, toks, off, acc).Ok? && b < |m.pool.blocks|
    ensures var m' := AllocFresh(m, toks, off, acc).value.0;
      && b < |m'.pool.blocks| && (m'.pool.blocks[b] == m.pool.blocks[b] || m'.pool.blocks[b].refCnt == 1)
    decreases |toks| - off
  {
    if off < |toks| {
      var (p, id) := AllocBlock(m.pool).value;
      var m1 := StoreChunk(m.(pool := p), id, toks, off);
      assert m1.pool.blocks[b] == m.pool.blocks[b] || m1.pool.blocks[b].refCnt == 1;
      AllocFreshTouches(m1, toks, off + m.bs, acc + [id], b);
    }
  }

  lemma {:induction false} ReserveTouches(m: Manager, toks: seq<Token>, off: nat, acc: Region, b: BlockId)
    requires ReserveFrom(m, toks, off, acc).Ok? && b < |m.pool.blocks|
    ensures var m' := ReserveFrom(m, toks, off, acc).value.0;
      && b < |m'.pool.blocks| && (m'.pool.blocks[b] == m.pool.blocks[b] || m'.pool.blocks[b].refCnt == 1)
    decreases |toks| - off
  {
    if off + m.bs <= |toks| {
      var (p, id) := AllocBlock(m.pool).value;
      var h := Of(toks[..off + m.bs]);
      var m1 := m.(pool := p).SetBlock(id, p.blocks[id].(tokens := toks[off..off + m.bs], hash := h));
      ReserveTouches(m1, toks, off + m.bs, acc.(ids := acc.ids + [id], hashes := acc.hashes + [h]), b);
    }
  }

  lemma FillLastTouches(m: Manager, q: SeqId, toks: seq<Token>, b: BlockId)
    requires m.Slots(q) <= |toks| && FillLast(m, q, toks).Ok? && b < |m.pool.blocks| && b !in MapOf(m, q).ids
    ensures var m' := FillLast(m, q, toks).value.0;
      |m'.pool.blocks| == |m.pool.blocks| && m'.pool.blocks[b] == m.pool.blocks[b]
  {
  }

  lemma UnownedUnlisted(m: Manager, texts: Texts, q: SeqId, b: BlockId)
    requires Inv(m, texts, multiset{}) && b < |m.pool.blocks| && m.pool.blocks[b].refCnt == 0
    ensures b !in MapOf(m, q).ids
  {
    hide BlocksOk, RegionsOk, MapsOk, TableOk, Held;
    assert CountOk(m.pool, Held(m) + multiset{}, b);
    if q in m.maps && b in m.maps[q].ids {
      HeldByMap(m, q, b);
      assert false;
    }
  }

  /** An unowned block that is not handed out stays as it is. */
  lemma UnownedStays(m: Manager, texts: Texts, op: Op, b: BlockId)
    requires Inv(m, texts, multiset{}) && Legal(m, texts, op) && (op.OpAlloc? || op.OpReserve?) && Step(m, op).Ok?
    requires b < |m.pool.blocks| && m.pool.blocks[b].refCnt == 0 && !HandsOut(m, op, b)
    ensures b < |Step(m, op).value.pool.blocks| && Step(m, op).value.pool.blocks[b] == m.pool.blocks[b]
  {
    hide Inv, FillLast, AllocFresh, ReserveFrom, Whole, Offset;
    match op {
      case OpAlloc(q, toks) =>
        UnownedUnlisted(m, texts, q, b);
        FillLastTouches(m, q, toks, b);
        var (m1, off) := FillLast(m, q, toks).value;
        AllocFreshTouches(m1, toks, off, [], b);
      case OpReserve(toks, start, rid) =>
        ReserveTouches(m, toks, Offset(Whole(start, m.bs), m.bs), Region(rid, [], []), b);
    }
  }

  // ---------------------------------------------------------------- operations

  /** A block keeps its content, or loses its last owner and its entry in the cache with it. */
  ghost predicate KeptOrDropped(m: Manager, m': Manager, b: BlockId) {
    && b < |m.pool.blocks| && b < |m'.pool.blocks|
    && (m'.pool.blocks[b].hash == m.pool.blocks[b].hash
        || (m'.pool.blocks[b].hash == NoHash && m'.pool.blocks[b].refCnt == 0))
    && (m.pool.blocks[b].hash == NoHash && m.pool.blocks[b].refCnt == 0 ==> m'.pool.blocks[b].refCnt == 0)
  }

  lemma NeverNegative(m: Manager, texts: Texts, b: BlockId)
    requires Inv(m, texts, multiset{}) && b < |m.pool.blocks|
    ensures m.pool.blocks[b].refCnt >= 0
  {
    hide BlocksOk, RegionsOk, MapsOk, TableOk, Held;
    assert CountOk(m.pool, Held(m) + multiset{}, b);
  }

  /** A reference less elsewhere is none more here. */
  lemma NoNewOwner(m: Manager, m': Manager, texts: Texts, rid: RegionId, b: BlockId)
    requires Inv(m, texts, multiset{}) && Inv(m', texts, multiset{}) && m'.maps == m.maps
    requires m'.regions == m.regions - {rid}
    requires b < |m.pool.blocks| == |m'.pool.blocks| && m.pool.blocks[b].refCnt == 0
    ensures m'.pool.blocks[b].refCnt == 0
  {
    hide BlocksOk, RegionsOk, MapsOk, TableOk;
    assert CountOk(m.pool, Held(m) + multiset{}, b) && CountOk(m'.pool, Held(m') + multiset{}, b);
    if rid in m.regions {
      HeldRegionRemove(m, rid);
      assert Held(m.(regions := m.regions - {rid})) == Held(m');
    } else {
      assert m.regions - {rid} == m.regions;
    }
  }

  lemma {:induction false} PinTouches(m: Manager, hashes: seq<Hash>, acc: Region, b: BlockId)
    requires TableOk(m) && PinHashesFrom(m, hashes, acc).Ok? && b < |m.pool.blocks| && m.pool.blocks[b].hash == NoHash
    ensures var m' := PinHashesFrom(m, hashes, acc).value.0;
      b < |m'.pool.blocks| && m'.pool.blocks[b] == m.pool.blocks[b]
    decreases |hashes|
  {
    if hashes != [] && Lookup(m, hashes[0]).Some? {
      var id := Lookup(m, hashes[0]).value;
      var p := PinBlock(m.pool, id).value;
      PinTouches(m.(pool := p), hashes[1..], acc.(ids := acc.ids + [id], hashes := acc.hashes + [hashes[0]]), b);
    }
  }

  lemma {:induction false} FreeAllHash(m: Manager, ids: seq<BlockId>, cnt: nat, filled: nat, all: bool, b: BlockId)
    requires FreeAll(m, ids, cnt, filled, all).Ok? && b < |m.pool.blocks|
    ensures var m' := FreeAll(m, ids, cnt, filled, all).value;
      && b < |m'.pool.blocks| && (m'.pool.blocks[b].hash == m.pool.blocks[b].hash || m'.pool.blocks[b].hash == NoHash)
    decreases |ids|
  {
    if ids != [] {
      var m1 := m.(pool := FreeBlock(m.pool, ids[0]).value);
      var m2 := if all || cnt + m.bs > filled then DropCache(m1, ids[0]) else m1;
      FreeAllHash(m2, ids[1..], cnt + m.bs, filled, all, b);
    }
  }

  lemma FreeKeepsOrDrops(m: Manager, texts: Texts, q: SeqId, all: bool, b: BlockId)
    requires Inv(m, texts, multiset{}) && b < |m.pool.blocks|
    ensures FreeSeq(m, q, all).Ok? && KeptOrDropped(m, FreeSeq(m, q, all).value, b)
  {
    hide BlocksOk, RegionsOk, MapsOk, TableOk, CountUnique, FreeAll;
    ReleaseSafe(m, texts, q, all);
    var m', rest := FreeSeq(m, q, all).value, m.(maps := m.maps - {q});
    if q in m.maps {
      FreeAllHash(rest, m.maps[q].ids, 0, m.maps[q].filled, all, b);
    }
    assert Held(m') == Held(rest);
    assert CountOk(m'.pool, Held(m') + multiset{}, b);
    if m.pool.blocks[b].refCnt == 0 {
      UnownedUnlisted(m, texts, q, b);
    }
  }

  /** No operation takes the content from a full block, or gives an emptied one an owner, unless it hands
      the block out. */
  lemma StepKeepsOrDrops(m: Manager, texts: Texts, op: Op, b: BlockId)
    requires Inv(m, texts, multiset{}) && Legal(m, texts, op) && Step(m, op).Ok?
    requires b < |m.pool.blocks| && !HandsOut(m, op, b)
    requires m.pool.blocks[b].hash != NoHash || m.pool.blocks[b].refCnt == 0
    ensures KeptOrDropped(m, Step(m, op).value, b)
  {
    hide Inv, PoolOk, BlocksOk, RegionsOk, MapsOk, TableOk, Held, AllocBlocks, InitPrefix, UpdatePrefix, Reserve,
      Activate, PinHashes, Unpin, UpdateFilled, FreeSeq, Hits, HitsFrom, Needed, Whole, Offset, CountFree, CountUnique,
      CountCarried, Settled, RegionCarries, HashesOf, Published, HandsOut;
    StepSafe(m, texts, op);
    NeverNegative(m, texts, b);
    match op {
      case OpAlloc(q, toks) =>
        AllocBlocksSafe(m, texts, q, toks);
        if m.pool.blocks[b].refCnt == 0 {
          UnownedStays(m, texts, op, b);
        }
      case OpInitPrefix(q, toks) =>
        if q in m.maps {
          InitPrefixMapped(m, q, toks);
        } else {
          InitPrefixSafe(m, texts, q, toks);
          HitsHashed(m, texts, q, toks);
        }
      case OpUpdatePrefix(q, toks) =>
        UpdatePrefixSafe(m, texts, q, toks);
        HitsHashed(m, texts, q, toks);
      case OpReserve(toks, start, r) =>
        ReserveSafe(m, texts, toks, start, r);
        if m.pool.blocks[b].refCnt == 0 {
          UnownedStays(m, texts, op, b);
        }
      case OpActivate(r, hashes) =>
        ActivateSafe(m, texts, r, hashes);
        if m.pool.blocks[b].refCnt == 0 {
          NoNewOwner(m, Step(m, op).value, texts, r, b);
        }
      case OpPin(hashes, r) =>
        PinHashesSafe(m, texts, hashes, r);
        PinsHashed(m, texts, hashes, r, b);
      case OpUnpin(r) =>
        UnpinSafe(m, texts, r);
        if m.pool.blocks[b].refCnt == 0 {
          NoNewOwner(m, Step(m, op).value, texts, r, b);
        }
      case OpUpdateFilled(q, n) => UpdateFilledSafe(m, texts, q, n);
      case OpFree(q, all) => FreeKeepsOrDrops(m, texts, q, all, b);
      case OpClearCache =>
    }
  }

  lemma HitsHashed(m: Manager, texts: Texts, q: SeqId, toks: seq<Token>)
    requires Inv(m, texts, multiset{})
    ensures forall b :: b in MoreHits(m, q, toks) && b < |m.pool.blocks| ==> m.pool.blocks[b].hash != NoHash
  {
    hide Inv, HitsFrom, ListSpells, Distinct;
    HitsSpell(m, texts, multiset{}, toks, Offset(|MapOf(m, q).ids|, m.bs));
  }

  lemma PinsHashed(m: Manager, texts: Texts, hashes: seq<Hash>, rid: RegionId, b: BlockId)
    requires Inv(m, texts, multiset{}) && PinHashes(m, hashes, rid).Ok? && b < |m.pool.blocks|
    ensures var m' := PinHashes(m, hashes, rid).value.0;
      m.pool.blocks[b].hash == NoHash ==> b < |m'.pool.blocks| && m'.pool.blocks[b] == m.pool.blocks[b]
  {
    hide PoolOk, BlocksOk, RegionsOk, MapsOk, TableOk, PinHashesFrom;
    if m.pool.blocks[b].hash == NoHash {
      PinTouches(m, hashes, Region(rid, [], []), b);
    }
  }

  // ---------------------------------------------------------------- until the copy

  /** The event hands out block `b` for other content than that of `h`. */
  ghost predicate GivesAway(n: T.Node, e: Event, b: BlockId, h: Hash)
    requires Possible(n, e)
  {
    && e.Operation? && HandsOut(n.m, e.op, b)
    && Step(n.m, e.op).value.pool.blocks[b].hash != h
  }

  /** A source block holds its state through every event, if and only if the event does not hand it out for
      other content. */
  lemma EventExact(n: T.Node, e: Event, b: BlockId, h: Hash)
    requires T.NodeOk(n) && Holding(n, b, h) && Possible(n, e) && Happen(n, e).Ok?
    ensures T.NodeOk(Happen(n, e).value)
    ensures Holding(Happen(n, e).value, b, h) <==> !GivesAway(n, e, b, h)
  {
    hide Inv, Step, Legal, NextTexts, Demand;
    match e
    case Operation(op) =>
      StepSafe(n.m, n.texts, op);
      if !HandsOut(n.m, op, b) {
        StepKeepsOrDrops(n.m, n.texts, op, b);
      }
    case Write(w, i, v) =>
      WriterOwns(n, w, i);
  }

  /** Who owns a block that is in use. */
  lemma OwnerOf(n: T.Node, b: BlockId) returns (w: T.Writer, i: nat)
    requires T.NodeOk(n) && b < |n.m.pool.blocks| && n.m.pool.blocks[b].refCnt != 0
    ensures i < |T.Owned(n.m, w)| && T.Owned(n.m, w)[i] == b
  {
    hide BlocksOk, RegionsOk, MapsOk, TableOk;
    assert CountOk(n.m.pool, Held(n.m) + multiset{}, b);
    TotalMember(Lists(n.m.maps), b);
    TotalMember(n.m.regions, b);
    if b in Total(Lists(n.m.maps)) {
      var q :| q in n.m.maps && b in Lists(n.m.maps)[q];
      w := T.OfSeq(q);
    } else {
      var rid :| rid in n.m.regions && b in n.m.regions[rid];
      w := T.OfRegion(rid);
    }
    i :| 0 <= i < |T.Owned(n.m, w)| && T.Owned(n.m, w)[i] == b;
  }

  /** And once it is handed out for other content, its new owner may overwrite it. */
  lemma GivenAwayLost(n: T.Node, e: Event, b: BlockId, h: Hash) returns (w: T.Writer, i: nat, v: T.Kv)
    requires T.NodeOk(n) && Holding(n, b, h) && Possible(n, e) && Happen(n, e).Ok? && GivesAway(n, e, b, h)
    ensures var n1 := Happen(n, e).value;
      && Possible(n1, Write(w, i, v)) && Happen(n1, Write(w, i, v)).Ok?
      && Happen(n1, Write(w, i, v)).value.mem[b] != T.KvOf(h)
  {
    hide Inv, Step, Legal, NextTexts, Demand;
    StepSafe(n.m, n.texts, e.op);
    var n1 := Happen(n, e).value;
    w, i := OwnerOf(n1, b);
    v := if n1.m.pool.blocks[b].hash == NoHash then T.Stale else T.KvOf(n1.m.pool.blocks[b].hash);
  }

  /** A block that somebody writes to has an owner. */
  lemma WriterOwns(n: T.Node, w: T.Writer, i: nat)
    requires T.NodeOk(n) && i < |T.Owned(n.m, w)|
    ensures T.Owned(n.m, w)[i] < |n.m.pool.blocks| && n.m.pool.blocks[T.Owned(n.m, w)[i]].refCnt > 0
  {
    hide BlocksOk, RegionsOk, MapsOk, TableOk, Held;
    var b := T.Owned(n.m, w)[i];
    match w {
      case OfSeq(q) => HeldByMap(n.m, q, b);
      case OfRegion(rid) => HeldByRegion(n.m, rid, b);
    }
    assert b in Held(n.m) + multiset{};
    assert CountOk(n.m.pool, Held(n.m) + multiset{}, b);
  }

  ghost predicate IsHistory(trace: seq<T.Node>, events: seq<Event>) {
    && |trace| == |events| + 1
    && forall i :: 0 <= i < |events| ==> Possible(trace[i], events[i]) && Happen(trace[i], events[i]) == Ok(trace[i + 1])
  }

  /** At some point of the history the block is handed out for other content. */
  ghost predicate GivenAway(trace: seq<T.Node>, events: seq<Event>, b: BlockId, h: Hash)
    requires IsHistory(trace, events)
  {
    exists i :: 0 <= i < |events| && GivesAway(trace[i], events[i], b, h)
  }

  lemma HistoryShorter(trace: seq<T.Node>, events: seq<Event>, b: BlockId, h: Hash)
    requires IsHistory(trace, events) && events != []
    ensures var n := |events| - 1;
      && IsHistory(trace[..n + 1], events[..n]) && Possible(trace[n], events[n])
      && Happen(trace[n], events[n]) == Ok(trace[n + 1])
      && (GivenAway(trace, events, b, h) <==>
         GivenAway(trace[..n + 1], events[..n], b, h) || GivesAway(trace[n], events[n], b, h))
  {
    hide Holding, Possible, Happen, T.NodeOk, HandsOut;
    var n := |events| - 1;
    var shorter, before := trace[..n + 1], events[..n];
    assert forall i :: 0 <= i < |before| ==> before[i] == events[i] && shorter[i] == trace[i];
    forall i | 0 <= i < |before|
      ensures Possible(shorter[i], before[i]) && Happen(shorter[i], before[i]) == Ok(shorter[i + 1])
    {
      assert Possible(trace[i], events[i]) && Happen(trace[i], events[i]) == Ok(trace[i + 1]);
    }
    if i :| 0 <= i < |before| && GivesAway(shorter[i], before[i], b, h) {
      assert GivesAway(trace[i], events[i], b, h);
    }
    if i :| 0 <= i < |events| && GivesAway(trace[i], events[i], b, h) {
      assert i < n ==> GivesAway(shorter[i], before[i], b, h);
    }
  }

  /** The copy finds the right state in a source block, whatever happened on the host since it was planned
      and whether or not the block still has an owner, as long as the block is not handed out for other
      content; and no longer. */
  lemma {:induction false} SourceKept(trace: seq<T.Node>, events: seq<Event>, b: BlockId, h: Hash)
    requires IsHistory(trace, events) && T.NodeOk(trace[0]) && Holding(trace[0], b, h)
    ensures T.NodeOk(trace[|events|])
    ensures (forall i :: 0 <= i < |trace| ==> Holding(trace[i], b, h)) <==> !GivenAway(trace, events, b, h)
    decreases |events|
  {
    hide Holding, GivesAway, Possible, Happen, T.NodeOk;
    var n := |events| - 1;
    if n < 0 {
      assert trace == [trace[0]];
    } else {
      var shorter, before := trace[..n + 1], events[..n];
      HistoryShorter(trace, events, b, h);
      assert trace == shorter + [trace[n + 1]];
      SourceKept(shorter, before, b, h);
      assert shorter[n] == trace[n];
      if Holding(trace[n], b, h) {
        EventExact(trace[n], events[n], b, h);
      } else {
        StaysOk(trace[n], events[n]);
      }
      Split(trace, shorter, b, h);
    }
  }

  lemma StaysOk(n: T.Node, e: Event)
    requires T.NodeOk(n) && Possible(n, e) && Happen(n, e).Ok?
    ensures T.NodeOk(Happen(n, e).value)
  {
    hide Inv, Step, Legal, NextTexts, Demand;
    match e
    case Operation(op) => StepSafe(n.m, n.texts, op);
    case Write(w, i, v) => WriterOwns(n, w, i);
  }

  lemma Split(trace: seq<T.Node>, shorter: seq<T.Node>, b: BlockId, h: Hash)
    requires trace != [] && shorter == trace[..|trace| - 1]
    ensures (forall i :: 0 <= i < |trace| ==> Holding(trace[i], b, h)) <==>
      (forall i :: 0 <= i < |shorter| ==> Holding(shorter[i], b, h)) && Holding(trace[|trace| - 1], b, h)
  {
    hide Holding;
    assert forall i :: 0 <= i < |shorter| ==> shorter[i] == trace[i];
    if forall i :: 0 <= i < |trace| ==> Holding(trace[i], b, h) {
      forall i | 0 <= i < |shorter|
        ensures Holding(shorter[i], b, h)
      {
        assert Holding(trace[i], b, h);
      }
    }
  }

  /** And this does happen: after the task is removed, a new sequence with another first chunk gets the
      block if it heads the free list, and what that sequence writes there is what the copy finds. */
  lemma SourceLost(n: T.Node, b: BlockId, h: Hash, q: SeqId, toks: seq<Token>)
    requires T.NodeOk(n) && Holding(n, b, h) && MapOf(n.m, q).ids == [] && Legal(n.m, n.texts, OpAlloc(q, toks))
    requires n.m.bs <= |toks| && h != Of(toks[..n.m.bs])
    requires n.m.pool.free != [] && n.m.pool.free[0] == b && Needed(n.m, q, toks) <= |n.m.pool.free|
    ensures var e := Operation(OpAlloc(q, toks));
      && Possible(n, e) && GivesAway(n, e, b, h) && Happen(n, e).Ok?
      && var n1 := Happen(n, e).value;
      && T.NodeOk(n1) && Possible(n1, Write(T.OfSeq(q), 0, T.KvOf(Of(toks[..n.m.bs]))))
      && Happen(n1, Write(T.OfSeq(q), 0, T.KvOf(Of(toks[..n.m.bs])))).value.mem[b] != T.KvOf(h)
  {
    hide Inv, AllocBlocks, Needed, DivCeil;
    AllocBlocksSafe(n.m, n.texts, q, toks);
    StepSafe(n.m, n.texts, OpAlloc(q, toks));
    EmptyList(n.m, n.texts, q);
    FirstIsHead(n.m, q, toks);
    FirstSpelled(Step(n.m, OpAlloc(q, toks)).value, n.texts[q := toks], q, toks);
    HeadFree(n.m, n.texts);
    WriterOwns(T.Node(Step(n.m, OpAlloc(q, toks)).value, n.texts[q := toks], n.mem), T.OfSeq(q), 0);
  }

  /** No blocks, no slots. */
  lemma EmptyList(m: Manager, texts: Texts, q: SeqId)
    requires Inv(m, texts, multiset{}) && MapOf(m, q).ids == []
    ensures m.Slots(q) == 0
  {
    hide PoolOk, BlocksOk, RegionsOk, TableOk, Held;
  }

  lemma {:induction false} AccFirst(m: Manager, toks: seq<Token>, off: nat, acc: seq<BlockId>)
    requires AllocFresh(m, toks, off, acc).Ok? && acc != []
    ensures |AllocFresh(m, toks, off, acc).value.1| > 0 && AllocFresh(m, toks, off, acc).value.1[0] == acc[0]
    decreases |toks| - off
  {
    if off < |toks| {
      var (p, id) := AllocBlock(m.pool).value;
      AccFirst(StoreChunk(m.(pool := p), id, toks, off), toks, off + m.bs, acc + [id]);
    }
  }

  /** The first block of a new sequence is the head of the free list. */
  lemma FirstIsHead(m: Manager, q: SeqId, toks: seq<Token>)
    requires MapOf(m, q).ids == [] && m.Slots(q) == 0 && toks != [] && m.pool.free != [] && AllocBlocks(m, q, toks).Ok?
    ensures var m' := AllocBlocks(m, q, toks).value.0;
      q in m'.maps && m'.maps[q].ids != [] && m'.maps[q].ids[0] == m.pool.free[0]
  {
    hide StoreChunk;
    AllocFreshIgnoresMaps(m, toks, 0, [], m.maps);
    var (p, id) := AllocBlock(m.pool).value;
    var m1 := StoreChunk(m.(pool := p), id, toks, 0);
    assert AllocFresh(m, toks, 0, []) == AllocFresh(m1, toks, 0 + m.bs, [] + [id]);
    AccFirst(m1, toks, m.bs, [] + [id]);
  }

  lemma FirstSpelled(m: Manager, texts: Texts, q: SeqId, toks: seq<Token>)
    requires Inv(m, texts, multiset{}) && q in m.maps && q in texts && texts[q] == toks && m.maps[q].ids != []
    requires m.maps[q].slots == |toks| && m.bs <= |toks|
    ensures m.maps[q].ids[0] < |m.pool.blocks| && m.pool.blocks[m.maps[q].ids[0]].hash == Of(toks[..m.bs])
  {
    hide PoolOk, BlocksOk, RegionsOk, TableOk, Held;
    var bm := m.maps[q];
    assert toks[..bm.slots] == toks && Offset(0, m.bs) == 0;
    EarlierFull(m.bs, m.pool.blocks, bm, toks, 0);
  }

  lemma HeadFree(m: Manager, texts: Texts)
    requires Inv(m, texts, multiset{}) && m.pool.free != []
    ensures m.pool.free[0] < |m.pool.blocks| && m.pool.blocks[m.pool.free[0]].refCnt == 0
  {
    hide BlocksOk, RegionsOk, MapsOk, TableOk, Held;
    var b := m.pool.free[0];
    assert b in m.pool.free;
    assert CountOk(m.pool, Held(m) + multiset{}, b);
  }
}
