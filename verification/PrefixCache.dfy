/** The prefix cache (runtime/src/llm_engine/block_manager.rs, lines 335-415 and 488-547). */
module PrefixCache {
  import opened Prelude
  import opened BlockPool
  import opened BlockManagerSpec
  import opened BlockManagerInv
  import opened Allocation

  // ---------------------------------------------------------------- lookup

  /** A hit is a full block whose tokens end the queried prefix, whatever stale entries the table has. */
  lemma LookupSound(m: Manager, texts: Texts, extra: multiset<BlockId>, prefix: seq<Token>)
    requires Inv(m, texts, extra) && Lookup(m, Of(prefix)).Some?
    ensures var b := Lookup(m, Of(prefix)).value;
      && b < |m.pool.blocks| && m.pool.blocks[b].hash == Of(prefix)
      && |prefix| >= m.bs && m.pool.blocks[b].tokens == prefix[|prefix| - m.bs..]
  {
    var b := Lookup(m, Of(prefix)).value;
    assert BlockOk(m.bs, m.pool.blocks[b]);
  }

  /** The specification of a cache query: `ids` are the hits of consecutive chunks of `toks` from `off`
      on, and the chunk after them is not a full cached one. */
  ghost predicate LongestRun(m: Manager, toks: seq<Token>, off: nat, ids: seq<BlockId>) {
    && (forall i :: 0 <= i < |ids| ==> HitAt(m, toks, off + Offset(i, m.bs)) == Some(ids[i]))
    && HitAt(m, toks, off + Offset(|ids|, m.bs)) == None
  }

  /** The query loop computes the longest run of hits, and nothing else is one. */
  lemma {:induction false} HitsAreTheLongestRun(m: Manager, toks: seq<Token>, off: nat, ids: seq<BlockId>)
    ensures ids == HitsFrom(m, toks, off) <==> LongestRun(m, toks, off, ids)
    decreases |ids|
  {
    hide HitAt, Offset;
    OffsetSucc(0, m.bs);
    if ids != [] {
      assert LongestRun(m, toks, off, ids) ==> HitAt(m, toks, off + Offset(0, m.bs)) == Some(ids[0]);
      if HitAt(m, toks, off) == Some(ids[0]) {
        assert ids == [ids[0]] + ids[1..];
        HitsAreTheLongestRun(m, toks, off + m.bs, ids[1..]);
        if LongestRun(m, toks, off, ids) {
          RunTail(m, toks, off, ids);
        } else if LongestRun(m, toks, off + m.bs, ids[1..]) {
          RunCons(m, toks, off, ids[0], ids[1..]);
        }
      }
    }
  }

  lemma OffsetSucc(i: nat, bs: nat)
    ensures Offset(i + 1, bs) == Offset(i, bs) + bs && Offset(0, bs) == 0
  {
  }

  lemma RunTail(m: Manager, toks: seq<Token>, off: nat, ids: seq<BlockId>)
    requires ids != [] && LongestRun(m, toks, off, ids)
    ensures LongestRun(m, toks, off + m.bs, ids[1..])
  {
    hide HitAt, Offset;
    var rest := ids[1..];
    OffsetSucc(|rest|, m.bs);
    forall i | 0 <= i < |rest|
      ensures HitAt(m, toks, off + m.bs + Offset(i, m.bs)) == Some(rest[i])
    {
      OffsetSucc(i, m.bs);
      assert HitAt(m, toks, off + Offset(i + 1, m.bs)) == Some(ids[i + 1]);
    }
  }

  lemma RunCons(m: Manager, toks: seq<Token>, off: nat, id: BlockId, rest: seq<BlockId>)
    requires HitAt(m, toks, off) == Some(id) && LongestRun(m, toks, off + m.bs, rest)
    ensures LongestRun(m, toks, off, [id] + rest)
  {
    hide HitAt, Offset;
    var ids := [id] + rest;
    OffsetSucc(|rest|, m.bs);
    forall i | 0 <= i < |ids|
      ensures HitAt(m, toks, off + Offset(i, m.bs)) == Some(ids[i])
    {
      if i > 0 {
        OffsetSucc(i - 1, m.bs);
        assert HitAt(m, toks, off + m.bs + Offset(i - 1, m.bs)) == Some(rest[i - 1]);
      } else {
        OffsetSucc(0, m.bs);
      }
    }
  }

  lemma HitsRun(m: Manager, toks: seq<Token>, off: nat)
    ensures LongestRun(m, toks, off, HitsFrom(m, toks, off))
  {
    HitsAreTheLongestRun(m, toks, off, HitsFrom(m, toks, off));
  }

  /** Querying a prefix of the text that ends at a chunk boundary gives the first hits only. */
  lemma {:induction false} HitsOfPrefix(m: Manager, toks: seq<Token>, off: nat, k: nat)
    requires k <= |HitsFrom(m, toks, off)|
    requires off + Offset(k, m.bs) <= |toks|
    ensures HitsFrom(m, toks[..off + Offset(k, m.bs)], off) == HitsFrom(m, toks, off)[..k]
    decreases k
  {
    var end := off + Offset(k, m.bs);
    if k > 0 {
      OffsetAdd(1, k - 1, m.bs);
      assert toks[..end][..off + m.bs] == toks[..off + m.bs];
      HitsOfPrefix(m, toks, off + m.bs, k - 1);
      assert off + m.bs + Offset(k - 1, m.bs) == end;
    }
  }

  lemma {:induction false} HitsSuffix(m: Manager, toks: seq<Token>, off: nat, k: nat)
    requires k <= |HitsFrom(m, toks, off)|
    ensures off + Offset(k, m.bs) <= |toks| || k == 0
    ensures HitsFrom(m, toks, off + Offset(k, m.bs)) == HitsFrom(m, toks, off)[k..]
    decreases k
  {
    if k > 0 {
      OffsetAdd(1, k - 1, m.bs);
      HitsSuffix(m, toks, off + m.bs, k - 1);
    }
  }

  lemma DivCeilOffset(k: nat, bs: nat)
    requires bs > 0
    ensures DivCeil(Offset(k, bs), bs) * bs == Offset(k, bs)
  {
    DivCeilCovers(Offset(k, bs), bs);
    CoversUnique(k, DivCeil(Offset(k, bs), bs), Offset(k, bs), bs);
    OffsetIsProduct(k, bs);
  }

  /** Splitting a query at a hit boundary: the two range queries together give the whole list, and each
      reports where its hits end. */
  lemma RangeQueriesSplit(m: Manager, toks: seq<Token>, k: nat)
    requires k <= |Hits(m, toks)|
    ensures var at := Offset(k, m.bs);
      && at <= |toks|
      && RangeHits(m, toks, 0, at) == Ok((Hits(m, toks)[..k], at))
      && RangeHits(m, toks, at, |toks|) == Ok((Hits(m, toks)[k..], |Hits(m, toks)| * m.bs))
      && Hits(m, toks) == Hits(m, toks)[..k] + Hits(m, toks)[k..]
  {
    hide HitsFrom, HitAt, DivCeil, Offset;
    OffsetSucc(0, m.bs);
    var at := Offset(k, m.bs);
    var n := |Hits(m, toks)|;
    HitsSuffix(m, toks, 0, k);
    HitsOfPrefix(m, toks, 0, k);
    DivCeilOffset(0, m.bs);
    DivCeilOffset(k, m.bs);
    OffsetIsProduct(k, m.bs);
    assert toks[..|toks|] == toks;
    OffsetIsProduct(n - k, m.bs);
    OffsetAdd(k, n - k, m.bs);
    OffsetIsProduct(n, m.bs);
  }

  // ---------------------------------------------------------------- the hits spell the text

  /** A hit holds the chunk it was found for. */
  lemma HitIsChunk(m: Manager, toks: seq<Token>, at: nat)
    requires BlocksOk(m.bs, m.pool.blocks) && HitAt(m, toks, at).Some?
    ensures var b := HitAt(m, toks, at).value;
      && b < |m.pool.blocks| && ChunkIs(m.pool.blocks[b], toks, at, m.bs)
      && at + m.bs <= |toks| && m.pool.blocks[b].hash == Of(toks[..at + m.bs])
  {
    var b := HitAt(m, toks, at).value;
    assert BlockOk(m.bs, m.pool.blocks[b]);
    assert toks[..at + m.bs][at..] == toks[at..at + m.bs];
  }

  lemma HitsSpell(m: Manager, texts: Texts, extra: multiset<BlockId>, toks: seq<Token>, off: nat)
    requires Inv(m, texts, extra)
    ensures var ids := HitsFrom(m, toks, off);
      && ListSpells(m.bs, m.pool.blocks, ids, toks, off)
      && FullBlocks(m.pool.blocks, ids)
      && (off <= |toks| ==> off + Offset(|ids|, m.bs) <= |toks|)
      && Distinct(ids)
  {
    hide PoolOk, MapsOk, RegionsOk, TableOk, Held, HitAt, HitsFrom, ChunkIs, BlocksOk;
    var ids := HitsFrom(m, toks, off);
    HitsRun(m, toks, off);
    HitsSuffix(m, toks, off, |ids|);
    forall i | 0 <= i < |ids|
      ensures ids[i] < |m.pool.blocks| && ChunkIs(m.pool.blocks[ids[i]], toks, off + Offset(i, m.bs), m.bs)
      ensures m.pool.blocks[ids[i]].hash != NoHash
    {
      assert HitAt(m, toks, off + Offset(i, m.bs)) == Some(ids[i]);
      HitIsChunk(m, toks, off + Offset(i, m.bs));
    }
    forall i, j | 0 <= i < j < |ids|
      ensures ids[i] != ids[j]
    {
      HitsDiffer(m, toks, off, i, j);
    }
  }

  lemma HitsDiffer(m: Manager, toks: seq<Token>, off: nat, i: nat, j: nat)
    requires BlocksOk(m.bs, m.pool.blocks) && i < j
    requires HitAt(m, toks, off + Offset(i, m.bs)).Some? && HitAt(m, toks, off + Offset(j, m.bs)).Some?
    ensures HitAt(m, toks, off + Offset(i, m.bs)) != HitAt(m, toks, off + Offset(j, m.bs))
  {
    hide HitAt, ChunkIs, BlocksOk;
    OffsetMono(i, j, m.bs);
    HitIsChunk(m, toks, off + Offset(i, m.bs));
    HitIsChunk(m, toks, off + Offset(j, m.bs));
    assert |toks[..off + Offset(i, m.bs) + m.bs]| < |toks[..off + Offset(j, m.bs) + m.bs]|;
  }

  ghost predicate Distinct(ids: seq<BlockId>) {
    forall i, j :: 0 <= i < j < |ids| ==> ids[i] != ids[j]
  }

  // ---------------------------------------------------------------- pinning a list

  /** How many of the listed blocks nobody refers to. */
  function CountFree(blocks: seq<Block>, ids: seq<BlockId>): nat {
    if ids == [] then 0
    else (if ids[0] < |blocks| && blocks[ids[0]].refCnt == 0 then 1 else 0) + CountFree(blocks, ids[1..])
  }

  lemma {:induction false} CountFreeFrame(blocks: seq<Block>, blocks': seq<Block>, ids: seq<BlockId>)
    requires |blocks| == |blocks'|
    requires forall b :: b in ids && b < |blocks| ==> blocks'[b].refCnt == blocks[b].refCnt
    ensures CountFree(blocks, ids) == CountFree(blocks', ids)
  {
    if ids != [] {
      CountFreeFrame(blocks, blocks', ids[1..]);
    }
  }

  /** Pinning distinct full blocks never fails; the free list loses exactly those that were free. */
  lemma {:induction false} PinAllSafe(m: Manager, texts: Texts, extra: multiset<BlockId>, ids: seq<BlockId>)
    requires Inv(m, texts, extra) && FullBlocks(m.pool.blocks, ids) && Distinct(ids)
    ensures PinAll(m.pool, ids).Ok?
    ensures var p := PinAll(m.pool, ids).value;
      && Inv(m.(pool := p), texts, extra + multiset(ids))
      && |p.blocks| == |m.pool.blocks|
      && |p.free| == |m.pool.free| - CountFree(m.pool.blocks, ids)
      && SameContents(m.pool, p)
      && forall b :: 0 <= b < |p.blocks| && b !in ids ==> p.blocks[b] == m.pool.blocks[b]
    decreases |ids|
  {
    hide PoolOk, BlocksOk, MapsOk, RegionsOk, TableOk, Held;
    if ids == [] {
      assert extra + multiset(ids) == extra;
      assert m.(pool := m.pool) == m;
    } else {
      var id := ids[0];
      PinStep(m, texts, extra, id);
      var p1 := PinBlock(m.pool, id).value;
      var m1 := m.(pool := p1);
      assert FullBlocks(p1.blocks, ids[1..]) && Distinct(ids[1..]);
      PinAllSafe(m1, texts, extra + multiset{id}, ids[1..]);
      var p := PinAll(p1, ids[1..]).value;
      assert m.(pool := p) == m1.(pool := p);
      assert ids == [id] + ids[1..];
      assert extra + multiset{id} + multiset(ids[1..]) == extra + multiset(ids);
      CountFreeFrame(m.pool.blocks, p1.blocks, ids[1..]);
    }
  }

  ghost predicate SameContents(p: Pool, p': Pool) {
    && |p'.blocks| == |p.blocks|
    && forall b :: 0 <= b < |p.blocks| ==> p'.blocks[b].SameContent(p.blocks[b])
  }

  // ---------------------------------------------------------------- pinning a cached run

  /** The map of `q` is block-aligned and all filled, as on the host before a task runs. */
  predicate Settled(bs: nat, bm: BlockMap) {
    bm.filled == bm.slots == Offset(|bm.ids|, bs)
  }

  /** The cache hits that continue the blocks `q` has. */
  function MoreHits(m: Manager, q: SeqId, toks: seq<Token>): seq<BlockId>
  {
    HitsFrom(m, toks, Offset(|MapOf(m, q).ids|, m.bs))
  }

  /** What taking over cached blocks achieves: `q` owns the run of hits after its own blocks, all
      counted as filled; no content changed, and only pinned blocks changed at all. */
  ghost predicate Cached(m: Manager, m': Manager, texts: Texts, q: SeqId, toks: seq<Token>)
  {
    var more := MoreHits(m, q, toks);
    var ids := MapOf(m, q).ids + more;
    var n := Offset(|ids|, m.bs);
    && n <= |toks|
    && Inv(m', texts[q := toks], multiset{})
    && m'.bs == m.bs && m'.table == m.table && m'.regions == m.regions
    && m'.maps == m.maps[q := BlockMap(ids, n, n)]
    && Pinned(m.pool, m'.pool, more)
  }

  ghost predicate Pinned(p: Pool, p': Pool, ids: seq<BlockId>) {
    && SameContents(p, p')
    && (forall b :: 0 <= b < |p.blocks| && b !in ids ==> p'.blocks[b] == p.blocks[b])
    && |p'.free| == |p.free| - CountFree(p.blocks, ids)
  }

  lemma PinnedRun(m: Manager, texts: Texts, q: SeqId, toks: seq<Token>)
    requires Inv(m, texts, multiset{}) && q in texts && texts[q] == toks
    requires Settled(m.bs, MapOf(m, q))
    ensures PinAll(m.pool, MoreHits(m, q, toks)).Ok?
    ensures var more := MoreHits(m, q, toks);
      var ids := MapOf(m, q).ids + more;
      var n := Offset(|ids|, m.bs);
      var m1 := m.(pool := PinAll(m.pool, more).value);
      && n <= |toks|
      && Inv(m1.(maps := m1.maps[q := BlockMap(ids, n, n)]), texts, multiset{})
      && Pinned(m.pool, m1.pool, more)
  {
    hide Inv, PoolOk, BlocksOk, TableOk, RegionsOk, MapsOk, Held, HitsFrom, ListSpells, CountFree, PinAll, Offset,
      Spells;
    InvParts(m, texts, multiset{});
    var bm := MapOf(m, q);
    var more := MoreHits(m, q, toks);
    var ids := bm.ids + more;
    var n := Offset(|ids|, m.bs);
    HitsSpell(m, texts, multiset{}, toks, Offset(|bm.ids|, m.bs));
    PinAllSafe(m, texts, multiset{}, more);
    var m1 := m.(pool := PinAll(m.pool, more).value);
    assert multiset{} + multiset(more) == multiset(more);
    JoinedRunSpells(m, texts, q, toks, m1.pool.blocks);
    MapStep(m1, texts, q, BlockMap(ids, n, n), more);
  }

  lemma JoinedRunSpells(m: Manager, texts: Texts, q: SeqId, toks: seq<Token>, blocks: seq<Block>)
    requires Inv(m, texts, multiset{}) && q in texts && texts[q] == toks
    requires Settled(m.bs, MapOf(m, q))
    requires |blocks| == |m.pool.blocks|
    requires forall b :: 0 <= b < |blocks| ==> blocks[b].SameContent(m.pool.blocks[b])
    ensures var ids := MapOf(m, q).ids + MoreHits(m, q, toks);
      var n := Offset(|ids|, m.bs);
      n <= |toks| && Spells(m.bs, blocks, BlockMap(ids, n, n), toks)
  {
    hide Inv, HitsFrom, ListSpells, Offset, FullBlocks, Distinct, PoolOk, BlocksOk, TableOk, RegionsOk, MapsOk, Held;
    InvParts(m, texts, multiset{});
    var bm := MapOf(m, q);
    var at := Offset(|bm.ids|, m.bs);
    OwnListSpells(m, texts, q, toks, at);
    var more := MoreHits(m, q, toks);
    HitsSpell(m, texts, multiset{}, toks, at);
    OffsetAdd(|bm.ids|, |more|, m.bs);
    var ids := bm.ids + more;
    var n := Offset(|ids|, m.bs);
    assert at <= n == at + Offset(|more|, m.bs) <= |toks|;
    FullRunSpells(m.bs, m.pool.blocks, blocks, more, toks, at);
    SameListSpells(m.bs, m.pool.blocks, blocks, bm.ids, toks[..at]);
    assert toks[..n][..at] == toks[..at];
    if at == n {
      OffsetEmpty(more, m.bs);
    }
    SpellsJoin(m.bs, blocks, bm.ids, more, toks[..n], at);
    CoversExact(|ids|, m.bs);
  }

  lemma SameListSpells(bs: nat, blocks: seq<Block>, blocks': seq<Block>, ids: seq<BlockId>, s: seq<Token>)
    requires ListSpells(bs, blocks, ids, s, 0) && |blocks'| == |blocks|
    requires forall b :: 0 <= b < |blocks'| ==> blocks'[b].SameContent(blocks[b])
    ensures ListSpells(bs, blocks', ids, s, 0)
  {
  }

  lemma OwnListSpells(m: Manager, texts: Texts, q: SeqId, toks: seq<Token>, at: nat)
    requires Inv(m, texts, multiset{}) && q in texts && texts[q] == toks
    requires at == MapOf(m, q).slots
    ensures at <= |toks| && ListSpells(m.bs, m.pool.blocks, MapOf(m, q).ids, toks[..at], 0)
  {
  }

  lemma OffsetEmpty(more: seq<BlockId>, bs: nat)
    requires bs > 0 && Offset(|more|, bs) == 0
    ensures more == []
  {
  }

  // ---------------------------------------------------------------- init_prefix_cache_blocks

  lemma InitPrefixValue(m: Manager, q: SeqId, toks: seq<Token>)
    requires q !in m.maps && PinAll(m.pool, Hits(m, toks)).Ok?
    ensures var ids := Hits(m, toks); var n := Offset(|ids|, m.bs);
      InitPrefix(m, q, toks) ==
        Ok((m.(pool := PinAll(m.pool, ids).value, maps := m.maps[q := BlockMap(ids, n, n)]), n))
  {
    OffsetIsProduct(|Hits(m, toks)|, m.bs);
  }

  /** A sequence that has blocks already is left alone. */
  lemma InitPrefixMapped(m: Manager, q: SeqId, toks: seq<Token>)
    requires q in m.maps
    ensures InitPrefix(m, q, toks) == Ok((m, 0))
  {
  }

  /** Admission to the cache never panics and gives the sequence its longest cached prefix. */
  lemma InitPrefixSafe(m: Manager, texts: Texts, q: SeqId, toks: seq<Token>)
    requires Inv(m, texts, multiset{}) && q !in m.maps
    ensures MoreHits(m, q, toks) == Hits(m, toks)
    ensures InitPrefix(m, q, toks).Ok?
    ensures Cached(m, InitPrefix(m, q, toks).value.0, texts, q, toks)
    ensures InitPrefix(m, q, toks).value.1 == Offset(|Hits(m, toks)|, m.bs)
  {
    hide Inv, HitsFrom, PinAll, InitPrefix, SameContents, CountFree, PoolOk, BlocksOk, TableOk, RegionsOk, MapsOk, Held;
    InvParts(m, texts, multiset{});
    var ids := Hits(m, toks);
    var n := Offset(|ids|, m.bs);
    assert Inv(m, texts[q := toks], multiset{}) by {
      OtherTextsIrrelevant(m, texts, q, toks);
    }
    PinnedRun(m, texts[q := toks], q, toks);
    InitPrefixValue(m, q, toks);
    assert MapOf(m, q).ids + ids == ids;
    var m1 := m.(pool := PinAll(m.pool, ids).value);
    assert m1.(maps := m1.maps[q := BlockMap(ids, n, n)]) == InitPrefix(m, q, toks).value.0;
  }

  // ---------------------------------------------------------------- update_prefix_cache_blocks

  lemma UpdatePrefixValue(m: Manager, q: SeqId, toks: seq<Token>)
    requires q in m.maps && Settled(m.bs, m.maps[q]) && m.maps[q].slots <= |toks|
    requires PinAll(m.pool, MoreHits(m, q, toks)).Ok?
    ensures var more := MoreHits(m, q, toks);
      var ids := m.maps[q].ids + more;
      var n := Offset(|ids|, m.bs);
      UpdatePrefix(m, q, toks) ==
        Ok((m.(pool := PinAll(m.pool, more).value, maps := m.maps[q := BlockMap(ids, n, n)]), Offset(|more|, m.bs)))
  {
    hide HitsFrom, PinAll, DivCeil;
    var k := |m.maps[q].ids|;
    var more := MoreHits(m, q, toks);
    DivCeilOffset(k, m.bs);
    assert toks[..|toks|] == toks;
    OffsetIsProduct(|more|, m.bs);
    OffsetAdd(k, |more|, m.bs);
  }

  /** Refreshing the cached blocks of a settled sequence never panics and extends its list by the run
      of hits that follows it. */
  lemma UpdatePrefixSafe(m: Manager, texts: Texts, q: SeqId, toks: seq<Token>)
    requires Inv(m, texts, multiset{})
    requires q in m.maps ==> texts[q] <= toks && Settled(m.bs, m.maps[q])
    ensures UpdatePrefix(m, q, toks).Ok?
    ensures Cached(m, UpdatePrefix(m, q, toks).value.0, texts, q, toks)
  {
    hide Inv, HitsFrom, PinAll, Offset, SameContents, CountFree, PoolOk, BlocksOk, TableOk, RegionsOk, Held, Spells;
    InvParts(m, texts, multiset{});
    if q !in m.maps {
      InitPrefixSafe(m, texts, q, toks);
    } else {
      SpellsBounds(m.bs, m.pool.blocks, m.maps[q], texts[q]);
      assert Inv(m, texts[q := toks], multiset{}) by {
        OtherTextsIrrelevant(m, texts, q, toks);
      }
      PinnedRun(m, texts[q := toks], q, toks);
      UpdatePrefixValue(m, q, toks);
      var more := MoreHits(m, q, toks);
      var ids := MapOf(m, q).ids + more;
      var n := Offset(|ids|, m.bs);
      var m1 := m.(pool := PinAll(m.pool, more).value);
      assert m1.(maps := m1.maps[q := BlockMap(ids, n, n)]) == UpdatePrefix(m, q, toks).value.0;
    }
  }

  /** A run of full chunks spells the text up to its end. */
  lemma FullRunSpells(bs: nat, blocks: seq<Block>, blocks': seq<Block>, ids: seq<BlockId>, toks: seq<Token>, at: nat)
    requires bs > 0 && ListSpells(bs, blocks, ids, toks, at) && at + Offset(|ids|, bs) <= |toks|
    requires |blocks'| == |blocks| && forall b :: 0 <= b < |blocks| ==> blocks'[b].SameContent(blocks[b])
    ensures ListSpells(bs, blocks', ids, toks[..at + Offset(|ids|, bs)], at)
    ensures Covers(|ids|, Offset(|ids|, bs), bs)
    ensures at == 0 ==>
      Spells(bs, blocks', BlockMap(ids, Offset(|ids|, bs), Offset(|ids|, bs)), toks)
  {
    hide ChunkIs;
    var n := at + Offset(|ids|, bs);
    forall i | 0 <= i < |ids|
      ensures ids[i] < |blocks'| && ChunkIs(blocks'[ids[i]], toks[..n], at + Offset(i, bs), bs)
    {
      assert ChunkIs(blocks[ids[i]], toks, at + Offset(i, bs), bs);
      OffsetMono(i, |ids|, bs);
      ChunkShorter(blocks[ids[i]], blocks'[ids[i]], toks, n, at + Offset(i, bs), bs);
    }
    CoversExact(|ids|, bs);
  }

  lemma ChunkShorter(b: Block, b': Block, toks: seq<Token>, n: nat, at: nat, bs: nat)
    requires ChunkIs(b, toks, at, bs) && at + bs <= n <= |toks| && b'.SameContent(b) && bs > 0
    ensures ChunkIs(b', toks[..n], at, bs)
  {
    assert toks[..n][at..at + bs] == toks[at..at + bs];
    assert toks[..n][..at + bs] == toks[..at + bs];
  }
}
