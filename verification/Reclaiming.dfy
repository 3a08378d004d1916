/** What a group of preempted sequences gives back, told from the state before
    (runtime/src/llm_engine/block_manager.rs, lines 659-687; scheduler.rs, lines 683-716). */
module Reclaiming {
  import opened Prelude
  import opened BlockPool
  import opened BlockManagerSpec
  import opened BlockManagerInv
  import opened PrefixCache
  import opened Release
  import opened Admission
  import opened Preemption

  // ---------------------------------------------------------------- one sequence

  /** Block `b` lies in the list of `q` beyond its filled length. */
  ghost predicate PastFilled(m: Manager, q: SeqId, b: BlockId) {
    q in m.maps && exists i :: 0 <= i < |m.maps[q].ids| && m.maps[q].ids[i] == b && Offset(i, m.bs) + m.bs > m.maps[q].filled
  }

  predicate ListedBy(m: Manager, q: SeqId, b: BlockId) { q in m.maps && b in m.maps[q].ids }

  /** Releasing the listed blocks drops from the cache those that nobody else holds and that lie beyond
      the filled length. */
  ghost predicate DropsIn(m: Manager, ids: seq<BlockId>, cnt: nat, filled: nat, b: BlockId) {
    && b < |m.pool.blocks| && m.pool.blocks[b].refCnt == 1
    && exists i :: 0 <= i < |ids| && ids[i] == b && cnt + Offset(i, m.bs) + m.bs > filled
  }

  predicate Carries(m: Manager, b: BlockId, h: Hash) { b < |m.pool.blocks| && m.pool.blocks[b].hash == h }

  ghost predicate HashDroppedIn(m: Manager, ids: seq<BlockId>, cnt: nat, filled: nat, h: Hash) {
    exists b: BlockId :: DropsIn(m, ids, cnt, filled, b) && Carries(m, b, h)
  }

  /** What a release of `ids` does to hashes and lookups. */
  ghost predicate DropsExactly(m: Manager, m': Manager, ids: seq<BlockId>, cnt: nat, filled: nat) {
    && |m'.pool.blocks| == |m.pool.blocks|
    && (forall b :: 0 <= b < |m.pool.blocks| ==>
          m'.pool.blocks[b].hash == if DropsIn(m, ids, cnt, filled, b) then NoHash else m.pool.blocks[b].hash)
    && (forall h :: h != NoHash ==>
          Lookup(m', h) == if HashDroppedIn(m, ids, cnt, filled, h) then None else Lookup(m, h))
  }

  /** One round of the release loop, on lookups. */
  lemma LookupAfterOne(m: Manager, id: BlockId, drop: bool, h: Hash)
    requires FreeBlock(m.pool, id).Ok? && id < |m.pool.blocks| && m.pool.blocks[id].refCnt >= 1 && h != NoHash
    ensures var m' := FreeOne(m, id, drop);
      && |m'.pool.blocks| == |m.pool.blocks|
      && (forall b :: 0 <= b < |m.pool.blocks| && b != id ==> m'.pool.blocks[b] == m.pool.blocks[b])
      && m'.pool.blocks[id].refCnt == m.pool.blocks[id].refCnt - 1
      && m'.pool.blocks[id].hash == (if drop && m.pool.blocks[id].refCnt == 1 then NoHash else m.pool.blocks[id].hash)
      && Lookup(m', h) ==
         if drop && m.pool.blocks[id].refCnt == 1 && m.pool.blocks[id].hash == h then None else Lookup(m, h)
  {
  }

  lemma DropsInCons(m: Manager, m1: Manager, ids: seq<BlockId>, cnt: nat, filled: nat, b: BlockId)
    requires ids != [] && Distinct(ids) && b < |m.pool.blocks| == |m1.pool.blocks| && m1.bs == m.bs
    requires forall c :: 0 <= c < |m.pool.blocks| && c != ids[0] ==> m1.pool.blocks[c] == m.pool.blocks[c]
    ensures DropsIn(m, ids, cnt, filled, b) <==>
      if b == ids[0] then m.pool.blocks[b].refCnt == 1 && cnt + m.bs > filled
      else DropsIn(m1, ids[1..], cnt + m.bs, filled, b)
    ensures !DropsIn(m1, ids[1..], cnt + m.bs, filled, ids[0])
  {
    assert Offset(0, m.bs) == 0;
    if b == ids[0] {
      assert cnt + m.bs > filled && m.pool.blocks[b].refCnt == 1 ==>
        ids[0] == b && cnt + Offset(0, m.bs) + m.bs > filled;
    } else {
      if DropsIn(m, ids, cnt, filled, b) {
        var i :| 0 <= i < |ids| && ids[i] == b && cnt + Offset(i, m.bs) + m.bs > filled;
        assert ids[1..][i - 1] == b && Offset(i, m.bs) == Offset(i - 1, m.bs) + m.bs;
      }
      if DropsIn(m1, ids[1..], cnt + m.bs, filled, b) {
        var i :| 0 <= i < |ids[1..]| && ids[1..][i] == b && cnt + m.bs + Offset(i, m.bs) + m.bs > filled;
        assert ids[i + 1] == b && Offset(i + 1, m.bs) == Offset(i, m.bs) + m.bs;
      }
    }
  }

  lemma DropsCons(m: Manager, m1: Manager, m': Manager, ids: seq<BlockId>, cnt: nat, filled: nat)
    requires ids != [] && Distinct(ids) && ids[0] < |m.pool.blocks| && m.pool.blocks[ids[0]].refCnt >= 1
    requires FreeBlock(m.pool, ids[0]).Ok? && m1 == FreeOne(m, ids[0], cnt + m.bs > filled) && m1.bs == m.bs
    requires DropsExactly(m1, m', ids[1..], cnt + m.bs, filled)
    ensures DropsExactly(m, m', ids, cnt, filled)
  {
    hide FreeBlock, Lookup, DropsIn, FreeOne;
    var id, drop := ids[0], cnt + m.bs > filled;
    LookupAfterOne(m, id, drop, Of([]));
    forall b | 0 <= b < |m.pool.blocks|
      ensures m'.pool.blocks[b].hash == if DropsIn(m, ids, cnt, filled, b) then NoHash else m.pool.blocks[b].hash
    {
      DropsInCons(m, m1, ids, cnt, filled, b);
    }
    forall h | h != NoHash
      ensures Lookup(m', h) == if HashDroppedIn(m, ids, cnt, filled, h) then None else Lookup(m, h)
    {
      LookupAfterOne(m, id, drop, h);
      HashDroppedCons(m, m1, ids, cnt, filled, h);
    }
  }

  lemma HashDroppedCons(m: Manager, m1: Manager, ids: seq<BlockId>, cnt: nat, filled: nat, h: Hash)
    requires ids != [] && Distinct(ids) && ids[0] < |m.pool.blocks| == |m1.pool.blocks| && m1.bs == m.bs
    requires forall c :: 0 <= c < |m.pool.blocks| && c != ids[0] ==> m1.pool.blocks[c] == m.pool.blocks[c]
    ensures HashDroppedIn(m, ids, cnt, filled, h) <==>
      (m.pool.blocks[ids[0]].refCnt == 1 && cnt + m.bs > filled && m.pool.blocks[ids[0]].hash == h) ||
      HashDroppedIn(m1, ids[1..], cnt + m.bs, filled, h)
  {
    hide DropsIn;
    DropsInCons(m, m1, ids, cnt, filled, ids[0]);
    assert Carries(m, ids[0], h) <==> m.pool.blocks[ids[0]].hash == h;
    if HashDroppedIn(m, ids, cnt, filled, h) {
      var b: BlockId :| DropsIn(m, ids, cnt, filled, b) && Carries(m, b, h);
      DropsInCons(m, m1, ids, cnt, filled, b);
    }
    if HashDroppedIn(m1, ids[1..], cnt + m.bs, filled, h) {
      var b: BlockId :| DropsIn(m1, ids[1..], cnt + m.bs, filled, b) && Carries(m1, b, h);
      DropsInCons(m, m1, ids, cnt, filled, b);
    }
  }

  lemma {:induction false} FreeAllDrops(m: Manager, texts: Texts, ids: seq<BlockId>, cnt: nat, filled: nat)
    requires Inv(m, texts, multiset(ids)) && Distinct(ids)
    ensures FreeAll(m, ids, cnt, filled, false).Ok?
    ensures DropsExactly(m, FreeAll(m, ids, cnt, filled, false).value, ids, cnt, filled)
    decreases |ids|
  {
    hide Inv, PoolOk, BlocksOk, RegionsOk, MapsOk, TableOk, Held, FreeBlock, DropsExactly, FreeOne, DropCache;
    if ids == [] {
      DropsNothing(m, cnt, filled);
    } else {
      var id := ids[0];
      var drop := cnt + m.bs > filled;
      assert ids == [id] + ids[1..];
      assert multiset(ids[1..]) + multiset{id} == multiset(ids);
      FreeOneSafe(m, texts, multiset(ids[1..]), id, drop);
      HeldAtLeastOnce(m, texts, ids);
      var m1 := FreeOne(m, id, drop);
      FreeAllDrops(m1, texts, ids[1..], cnt + m.bs, filled);
      FreeAllStep(m, ids, cnt, filled);
      DropsCons(m, m1, FreeAll(m, ids, cnt, filled, false).value, ids, cnt, filled);
    }
  }

  lemma FreeAllStep(m: Manager, ids: seq<BlockId>, cnt: nat, filled: nat)
    requires ids != [] && FreeBlock(m.pool, ids[0]).Ok? && ids[0] < |FreeBlock(m.pool, ids[0]).value.blocks|
    ensures FreeAll(m, ids, cnt, filled, false) == FreeAll(FreeOne(m, ids[0], cnt + m.bs > filled), ids[1..],
                                                           cnt + m.bs, filled, false)
  {
    hide FreeBlock, DropCache;
  }

  lemma HeldAtLeastOnce(m: Manager, texts: Texts, ids: seq<BlockId>)
    requires Inv(m, texts, multiset(ids)) && ids != []
    ensures ids[0] < |m.pool.blocks| && m.pool.blocks[ids[0]].refCnt >= 1
  {
    hide BlocksOk, RegionsOk, MapsOk, TableOk, Held;
    assert ids[0] in Held(m) + multiset(ids);
    assert CountOk(m.pool, Held(m) + multiset(ids), ids[0]);
  }

  lemma DropsNothing(m: Manager, cnt: nat, filled: nat)
    ensures DropsExactly(m, m, [], cnt, filled)
  {
    hide Lookup;
  }

  /** `b` is dropped from the cache when `q` is released. */
  ghost predicate DroppedBy(m: Manager, q: SeqId, b: BlockId) {
    b < |m.pool.blocks| && m.pool.blocks[b].refCnt == 1 && PastFilled(m, q, b)
  }

  ghost predicate HashDroppedBy(m: Manager, q: SeqId, h: Hash) {
    exists b: BlockId :: DroppedBy(m, q, b) && Carries(m, b, h)
  }

  /** Releasing `q`, block by block and hash by hash. */
  ghost predicate ReleaseEffect(m: Manager, m': Manager, q: SeqId) {
    && |m'.pool.blocks| == |m.pool.blocks|
    && (forall b :: 0 <= b < |m.pool.blocks| ==>
          && m'.pool.blocks[b].refCnt == m.pool.blocks[b].refCnt - (if ListedBy(m, q, b) then 1 else 0)
          && m'.pool.blocks[b].hash == if DroppedBy(m, q, b) then NoHash else m.pool.blocks[b].hash)
    && (forall h :: h != NoHash ==> Lookup(m', h) == if HashDroppedBy(m, q, h) then None else Lookup(m, h))
  }

  lemma ReleaseExactly(m: Manager, texts: Texts, q: SeqId)
    requires Inv(m, texts, multiset{}) && q in m.maps
    ensures FreeSeq(m, q, false).Ok? && ReleaseEffect(m, FreeSeq(m, q, false).value, q)
  {
    hide Inv, FreeAll, Held, CountUnique, Lookup, DropsIn, PastFilled;
    TakeMap(m, texts, q);
    SpelledDistinct(m, texts, multiset{}, q);
    var bm := m.maps[q];
    var m1 := m.(maps := m.maps - {q});
    FreeAllDrops(m1, texts, bm.ids, 0, bm.filled);
    ReleaseSafe(m, texts, q, false);
    var m' := FreeSeq(m, q, false).value;
    forall b: BlockId
      ensures DropsIn(m1, bm.ids, 0, bm.filled, b) <==> DroppedBy(m, q, b)
    {
      DropsSame(m, m1, q, b);
    }
    forall h | h != NoHash
      ensures Lookup(m', h) == if HashDroppedBy(m, q, h) then None else Lookup(m, h)
    {
      LookupIgnoresMaps(m, m1, h);
      assert forall b: BlockId :: Carries(m1, b, h) <==> Carries(m, b, h);
    }
  }

  lemma LookupIgnoresMaps(m: Manager, m1: Manager, h: Hash)
    requires m1.pool == m.pool && m1.table == m.table
    ensures Lookup(m1, h) == Lookup(m, h)
  {
  }

  lemma DropsSame(m: Manager, m1: Manager, q: SeqId, b: BlockId)
    requires q in m.maps && m1.pool == m.pool && m1.bs == m.bs
    ensures DropsIn(m1, m.maps[q].ids, 0, m.maps[q].filled, b) <==> DroppedBy(m, q, b)
  {
  }

  // ---------------------------------------------------------------- a group of sequences

  /** Release the sequences of `vs`, the last one first. */
  function ReleaseAll(m: Manager, vs: seq<SeqId>): Outcome<Manager>
    decreases |vs|
  {
    if vs == [] then Ok(m)
    else
      var m1 :- ReleaseAll(m, vs[1..]);
      FreeSeq(m1, vs[0], false)
  }

  /** How many of the sequences list block `b`. */
  function Owners(m: Manager, vs: seq<SeqId>, b: BlockId): nat {
    if vs == [] then 0 else (if ListedBy(m, vs[0], b) then 1 else 0) + Owners(m, vs[1..], b)
  }

  /** The last of them to give `b` back, the first in the list, has not filled it. */
  ghost predicate LeftUnfilled(m: Manager, vs: seq<SeqId>, b: BlockId) {
    vs != [] && if ListedBy(m, vs[0], b) then PastFilled(m, vs[0], b) else LeftUnfilled(m, vs[1..], b)
  }

  /** All references to `b` are theirs. */
  predicate FreedByAll(m: Manager, vs: seq<SeqId>, b: BlockId) {
    b < |m.pool.blocks| && m.pool.blocks[b].refCnt == Owners(m, vs, b)
  }

  /** `b` is dropped from the cache when they are released. */
  ghost predicate DroppedByAll(m: Manager, vs: seq<SeqId>, b: BlockId) {
    FreedByAll(m, vs, b) && LeftUnfilled(m, vs, b)
  }

  ghost predicate HashLost(m: Manager, vs: seq<SeqId>, h: Hash) {
    exists b: BlockId :: DroppedByAll(m, vs, b) && Carries(m, b, h)
  }

  ghost predicate GroupEffect(m: Manager, m': Manager, vs: seq<SeqId>) {
    && |m'.pool.blocks| == |m.pool.blocks| && m'.bs == m.bs
    && (forall b :: 0 <= b < |m.pool.blocks| ==>
          && m'.pool.blocks[b].refCnt == m.pool.blocks[b].refCnt - Owners(m, vs, b)
          && m'.pool.blocks[b].hash == if DroppedByAll(m, vs, b) then NoHash else m.pool.blocks[b].hash)
    && (forall h :: h != NoHash ==> Lookup(m', h) == if HashLost(m, vs, h) then None else Lookup(m, h))
  }

  ghost predicate Others(m: Manager, m': Manager, vs: seq<SeqId>) {
    && (forall o :: o in m'.maps <==> o in m.maps && o !in vs)
    && (forall o :: o in m'.maps ==> m'.maps[o] == m.maps[o])
  }

  /** A block that `v` lists keeps a reference while the others go. */
  lemma StillListed(m: Manager, m1: Manager, texts: Texts, v: SeqId, vs: seq<SeqId>, b: BlockId)
    requires Inv(m1, texts, multiset{}) && v in m1.maps && b in m1.maps[v].ids && GroupEffect(m, m1, vs)
    ensures b < |m.pool.blocks| && m.pool.blocks[b].refCnt > Owners(m, vs, b)
  {
    hide BlocksOk, RegionsOk, MapsOk, TableOk, Held, Owners, HashLost, DroppedByAll;
    HeldByMap(m1, v, b);
    assert b in Held(m1) + multiset{};
    assert CountOk(m1.pool, Held(m1) + multiset{}, b);
  }

  lemma GroupBlock(m: Manager, m1: Manager, texts: Texts, vs: seq<SeqId>, b: BlockId)
    requires vs != [] && Inv(m1, texts, multiset{}) && vs[0] in m1.maps && vs[0] in m.maps
    requires m1.maps[vs[0]] == m.maps[vs[0]]
    requires GroupEffect(m, m1, vs[1..]) && b < |m.pool.blocks|
    ensures DroppedByAll(m, vs, b) <==> DroppedBy(m1, vs[0], b) || DroppedByAll(m, vs[1..], b)
    ensures DroppedBy(m1, vs[0], b) ==> !DroppedByAll(m, vs[1..], b)
    ensures ListedBy(m, vs[0], b) <==> ListedBy(m1, vs[0], b)
  {
    hide Inv, Lookup, HashLost;
    var v := vs[0];
    assert PastFilled(m1, v, b) <==> PastFilled(m, v, b);
    if b in m.maps[v].ids {
      StillListed(m, m1, texts, v, vs[1..], b);
    } else {
      assert !PastFilled(m, v, b);
    }
  }

  lemma GroupStep(m: Manager, m1: Manager, m': Manager, texts: Texts, vs: seq<SeqId>)
    requires vs != [] && Inv(m1, texts, multiset{}) && vs[0] in m1.maps && vs[0] in m.maps
    requires m1.maps[vs[0]] == m.maps[vs[0]]
    requires GroupEffect(m, m1, vs[1..]) && ReleaseEffect(m1, m', vs[0]) && m'.bs == m1.bs
    ensures GroupEffect(m, m', vs)
  {
    hide Inv, Lookup, DroppedByAll, DroppedBy, ListedBy;
    forall b | 0 <= b < |m.pool.blocks|
      ensures m'.pool.blocks[b].refCnt == m.pool.blocks[b].refCnt - Owners(m, vs, b)
      ensures m'.pool.blocks[b].hash == if DroppedByAll(m, vs, b) then NoHash else m.pool.blocks[b].hash
    {
      GroupBlock(m, m1, texts, vs, b);
    }
    forall h | h != NoHash
      ensures Lookup(m', h) == if HashLost(m, vs, h) then None else Lookup(m, h)
    {
      GroupHash(m, m1, texts, vs, h);
    }
  }

  lemma GroupHash(m: Manager, m1: Manager, texts: Texts, vs: seq<SeqId>, h: Hash)
    requires vs != [] && Inv(m1, texts, multiset{}) && vs[0] in m1.maps && vs[0] in m.maps
    requires m1.maps[vs[0]] == m.maps[vs[0]]
    requires GroupEffect(m, m1, vs[1..]) && h != NoHash
    ensures HashLost(m, vs, h) <==> HashDroppedBy(m1, vs[0], h) || HashLost(m, vs[1..], h)
  {
    hide Inv, Lookup, DroppedByAll, DroppedBy, ListedBy, Owners;
    if HashLost(m, vs, h) {
      var b: BlockId :| DroppedByAll(m, vs, b) && Carries(m, b, h);
      GroupBlock(m, m1, texts, vs, b);
      assert DroppedBy(m1, vs[0], b) ==> Carries(m1, b, h);
    }
    if HashDroppedBy(m1, vs[0], h) {
      var b: BlockId :| DroppedBy(m1, vs[0], b) && Carries(m1, b, h);
      GroupBlock(m, m1, texts, vs, b);
      assert Carries(m, b, h);
    }
    if HashLost(m, vs[1..], h) {
      var b: BlockId :| DroppedByAll(m, vs[1..], b) && Carries(m, b, h);
      GroupBlock(m, m1, texts, vs, b);
    }
  }

  /** The effect of releasing a group, told from the state before: a block loses the references of the
      group, it is dropped from the cache exactly if none are left and its last owner in the group had
      not filled it, and a hash is no longer found exactly if a block with it is dropped. */
  lemma {:induction false} ReleaseAllExactly(m: Manager, texts: Texts, q: SeqId, toks: seq<Token>, vs: seq<SeqId>)
    requires Victims(m, texts, q, toks, vs)
    ensures ReleaseAll(m, vs).Ok?
    ensures var m' := ReleaseAll(m, vs).value;
      Inv(m', texts, multiset{}) && GroupEffect(m, m', vs) && Others(m, m', vs)
    decreases |vs|
  {
    hide Inv, FreeSeq, GroupEffect, ReleaseEffect, KeptFor, Unique, Held;
    if vs == [] {
      NoGroup(m, vs);
    } else {
      ReleaseAllExactly(m, texts, q, toks, vs[1..]);
      var m1 := ReleaseAll(m, vs[1..]).value;
      ReleaseExactly(m1, texts, vs[0]);
      ReleaseSafe(m1, texts, vs[0], false);
      GroupStep(m, m1, FreeSeq(m1, vs[0], false).value, texts, vs);
    }
  }

  lemma NoGroup(m: Manager, vs: seq<SeqId>)
    requires vs == []
    ensures GroupEffect(m, m, vs)
  {
    hide Lookup;
  }

  // ---------------------------------------------------------------- whether a task fits afterwards

  /** The blocks without a reference once the group is released. */
  ghost function FreeAfter(m: Manager, vs: seq<SeqId>): set<BlockId> {
    set b | 0 <= b < |m.pool.blocks| && FreedByAll(m, vs, b)
  }

  /** The cached prefix of `toks`, from `off` on, that is still found then. */
  ghost function Survivors(m: Manager, vs: seq<SeqId>, toks: seq<Token>, off: nat): seq<BlockId>
    decreases |toks| - off
  {
    if HitAt(m, toks, off).Some? && !HashLost(m, vs, Of(toks[..off + m.bs]))
    then [HitAt(m, toks, off).value] + Survivors(m, vs, toks, off + m.bs)
    else []
  }

  /** The blocks `q` requires then. */
  ghost function RequiredAfter(m: Manager, vs: seq<SeqId>, q: SeqId, toks: seq<Token>): int {
    DivCeil(|toks|, m.bs) - if q in m.maps then |m.maps[q].ids| else |Survivors(m, vs, toks, 0)|
  }

  /** The watermark check for `q` passes once the group is released. */
  ghost predicate FitsAfter(m: Manager, vs: seq<SeqId>, q: SeqId, toks: seq<Token>, percent: nat) {
    |m.pool.blocks| - |FreeAfter(m, vs)| + RequiredAfter(m, vs, q, toks) <= percent * |m.pool.blocks| / 100
  }

  /** How many of the blocks `ids` are in `free`. */
  function CountIn(ids: seq<BlockId>, free: set<BlockId>): nat {
    if ids == [] then 0 else (if ids[0] in free then 1 else 0) + CountIn(ids[1..], free)
  }

  /** There are too few free blocks then for the required ones and the cached prefix to re-pin. */
  ghost predicate ShortAfter(m: Manager, vs: seq<SeqId>, q: SeqId, toks: seq<Token>) {
    |FreeAfter(m, vs)| < RequiredAfter(m, vs, q, toks) + if q in m.maps then 0 else CountIn(Survivors(m, vs, toks, 0), FreeAfter(m, vs))
  }

  lemma {:induction false} DistinctSize(s: seq<BlockId>, elems: set<BlockId>)
    requires forall b: BlockId :: multiset(s)[b] == if b in elems then 1 else 0
    ensures |s| == |elems|
  {
    if s == [] {
      assert forall b: BlockId :: multiset(s)[b] == 0;
      assert elems == {};
    } else {
      assert s == [s[0]] + s[1..];
      assert multiset(s)[s[0]] > 0;
      forall b: BlockId
        ensures multiset(s[1..])[b] == if b in elems - {s[0]} then 1 else 0
      {
        assert multiset(s)[b] == multiset([s[0]])[b] + multiset(s[1..])[b];
      }
      DistinctSize(s[1..], elems - {s[0]});
    }
  }

  /** The free list is as long as there are blocks without a reference. */
  lemma FreeListSize(m: Manager, texts: Texts, elems: set<BlockId>)
    requires Inv(m, texts, multiset{})
    requires forall b: BlockId :: b in elems <==> b < |m.pool.blocks| && m.pool.blocks[b].refCnt == 0
    ensures |m.pool.free| == |elems|
  {
    hide BlocksOk, RegionsOk, MapsOk, TableOk, Held;
    forall b: BlockId
      ensures multiset(m.pool.free)[b] == if b in elems then 1 else 0
    {
      if b < |m.pool.blocks| {
        assert CountOk(m.pool, Held(m) + multiset{}, b);
      } else {
        assert b !in m.pool.free;
      }
    }
    DistinctSize(m.pool.free, elems);
  }

  lemma {:induction false} SurvivorsFound(m: Manager, m': Manager, vs: seq<SeqId>, toks: seq<Token>, off: nat)
    requires GroupEffect(m, m', vs)
    ensures HitsFrom(m', toks, off) == Survivors(m, vs, toks, off)
    decreases |toks| - off
  {
    hide Lookup, HashLost, DroppedByAll, Owners;
    if off + m.bs <= |toks| {
      assert Lookup(m', Of(toks[..off + m.bs])) ==
        if HashLost(m, vs, Of(toks[..off + m.bs])) then None else Lookup(m, Of(toks[..off + m.bs]));
      SurvivorsFound(m, m', vs, toks, off + m.bs);
    }
  }

  lemma {:induction false} CountFreeIn(blocks: seq<Block>, ids: seq<BlockId>, free: set<BlockId>)
    requires forall b: BlockId :: b in free <==> b < |blocks| && blocks[b].refCnt == 0
    ensures CountFree(blocks, ids) == CountIn(ids, free)
  {
    if ids != [] {
      CountFreeIn(blocks, ids[1..], free);
    }
  }

  /** The check, and the room for re-pinning, after a group was released: both are told by the state
      before. */
  lemma AfterGroup(m: Manager, texts: Texts, q: SeqId, toks: seq<Token>, vs: seq<SeqId>, percent: nat)
    requires Victims(m, texts, q, toks, vs)
    ensures ReleaseAll(m, vs).Ok?
    ensures var m' := ReleaseAll(m, vs).value;
      && Inv(m', texts, multiset{}) && Required(m', q, toks).Ok?
      && (CanAlloc(m'.pool, Required(m', q, toks).value, percent) <==> FitsAfter(m, vs, q, toks, percent))
      && (|m'.pool.free| < Required(m', q, toks).value + Repinned(m', q, toks) <==> ShortAfter(m, vs, q, toks))
  {
    hide Inv, Required, GroupEffect, Survivors, HitsFrom, CountFree, DivCeil, FreedByAll, CountIn;
    ReleaseAllExactly(m, texts, q, toks, vs);
    var m' := ReleaseAll(m, vs).value;
    RequiredSafe(m', texts, q, toks);
    SurvivorsFound(m, m', vs, toks, 0);
    FreeAfterIs(m, m', vs);
    FreeListSize(m', texts, FreeAfter(m, vs));
    CountFreeIn(m'.pool.blocks, Survivors(m, vs, toks, 0), FreeAfter(m, vs));
    GroupSize(m, m', vs);
  }

  lemma FreeAfterIs(m: Manager, m': Manager, vs: seq<SeqId>)
    requires GroupEffect(m, m', vs)
    ensures forall b: BlockId :: b in FreeAfter(m, vs) <==> b < |m'.pool.blocks| && m'.pool.blocks[b].refCnt == 0
  {
    hide Lookup, HashLost, DroppedByAll, Owners;
  }

  lemma GroupSize(m: Manager, m': Manager, vs: seq<SeqId>)
    requires GroupEffect(m, m', vs)
    ensures |m'.pool.blocks| == |m.pool.blocks| && m'.bs == m.bs
  {
    hide Lookup, HashLost, DroppedByAll, Owners;
  }

  // ---------------------------------------------------------------- preemption, exactly

  /** The preemption of `victims` for `q` first makes the check pass when those from `k` on are released. */
  ghost predicate FirstFit(m: Manager, q: SeqId, toks: seq<Token>, percent: nat, victims: seq<SeqId>, k: int) {
    && 0 <= k < |victims| && FitsAfter(m, victims[k..], q, toks, percent)
    && forall j :: k < j < |victims| ==> !FitsAfter(m, victims[j..], q, toks, percent)
  }

  /** The check passes at no point of the preemption. */
  ghost predicate NeverFits(m: Manager, q: SeqId, toks: seq<Token>, percent: nat, victims: seq<SeqId>) {
    forall k :: 0 <= k < |victims| ==> !FitsAfter(m, victims[k..], q, toks, percent)
  }

  lemma VictimsSuffix(m: Manager, texts: Texts, q: SeqId, toks: seq<Token>, victims: seq<SeqId>, k: nat)
    requires Victims(m, texts, q, toks, victims) && k <= |victims|
    ensures Victims(m, texts, q, toks, victims[k..])
  {
    hide Inv;
  }

  /** The result of the loop when the victims from `k` on are released and `q` did not fit so far. */
  ghost predicate LoopResult(m: Manager, q: SeqId, toks: seq<Token>, percent: nat, victims: seq<SeqId>,
                             r: Outcome<(Manager, nat, bool)>) {
    match r
    case Ok((_, left, admitted)) =>
      if admitted then FirstFit(m, q, toks, percent, victims, left) && !ShortAfter(m, victims[left..], q, toks)
      else NeverFits(m, q, toks, percent, victims)
    case Panic(f) => f == Exhausted && exists k :: FirstFit(m, q, toks, percent, victims, k) && ShortAfter(m, victims[k..], q, toks)
  }

  lemma {:induction false} PreemptFrom(m: Manager, texts: Texts, q: SeqId, toks: seq<Token>, percent: nat,
                                       victims: seq<SeqId>, k: nat)
    requires Victims(m, texts, q, toks, victims) && percent <= 100 && k <= |victims|
    requires forall j :: k <= j < |victims| ==> !FitsAfter(m, victims[j..], q, toks, percent)
    ensures ReleaseAll(m, victims[k..]).Ok?
    ensures LoopResult(m, q, toks, percent, victims,
                       PreemptUntil(ReleaseAll(m, victims[k..]).value, q, toks, percent, victims[..k]))
    decreases k
  {
    hide Inv, FreeSeq, TryAlloc, Required, Repinned, CanAlloc, FitsAfter, ShortAfter, Victims, Admitted;
    VictimsSuffix(m, texts, q, toks, victims, k);
    AfterGroup(m, texts, q, toks, victims[k..], percent);
    if k > 0 {
      var n := k - 1;
      VictimsSuffix(m, texts, q, toks, victims, n);
      AfterGroup(m, texts, q, toks, victims[n..], percent);
      assert victims[n..][0] == victims[n] && victims[n..][1..] == victims[k..];
      assert victims[..k][n] == victims[n] && victims[..k][..n] == victims[..n];
      var m1 := ReleaseAll(m, victims[n..]).value;
      VictimsInv(m, texts, q, toks, victims);
      TextKept(texts, q, toks);
      TryAllocAccounting(m1, texts, q, toks, percent);
      if !FitsAfter(m, victims[n..], q, toks, percent) {
        PreemptFrom(m, texts, q, toks, percent, victims, n);
      } else {
        assert FirstFit(m, q, toks, percent, victims, n);
      }
    }
  }

  /** Preemption for an older task, exactly, from the state before it. The task is left out, and so lost,
      if and only if the watermark check passes after no number of preemptions: `FitsAfter` counts the
      blocks whose references all lie in the preempted sequences as free, and the cached prefix only as
      far as no block of it is given back unfilled. The loop panics if and only if, when the check first
      passes, the free blocks do not suffice for the required ones and the prefix to re-pin. */
  lemma PreemptionExact(m: Manager, texts: Texts, q: SeqId, toks: seq<Token>, percent: nat, victims: seq<SeqId>)
    requires Victims(m, texts, q, toks, victims) && percent <= 100
    ensures var r := PreemptUntil(m, q, toks, percent, victims);
      && (r.Ok? && !r.value.2 <==> NeverFits(m, q, toks, percent, victims))
      && (r.Panic? <==> exists k :: FirstFit(m, q, toks, percent, victims, k) && ShortAfter(m, victims[k..], q, toks))
      && (r.Panic? ==> r.fault == Exhausted)
      && (r.Ok? && r.value.2 ==> FirstFit(m, q, toks, percent, victims, r.value.1))
  {
    hide Inv, FreeSeq, TryAlloc, FitsAfter, ShortAfter, Victims, PreemptUntil;
    var n := |victims|;
    assert victims[n..] == [] && victims[..n] == victims;
    PreemptFrom(m, texts, q, toks, percent, victims, n);
    assert ReleaseAll(m, victims[n..]) == Ok(m);
    forall k, l | FirstFit(m, q, toks, percent, victims, k) && FirstFit(m, q, toks, percent, victims, l)
      ensures k == l
    {
    }
  }
}
