/** Reserved and pinned regions (runtime/src/llm_engine/block_manager.rs, lines 549-648). */
module Regions {
  import opened Prelude
  import opened BlockPool
  import opened BlockManagerSpec
  import opened BlockManagerInv
  import opened Allocation
  import opened PrefixCache

  // ---------------------------------------------------------------- reserving

  /** Entry `i` of a region is a block that carries the recorded hash. */
  ghost predicate RegionCarries(m: Manager, r: Region) {
    && |r.ids| == |r.hashes|
    && forall i :: 0 <= i < |r.ids| ==>
         r.ids[i] < |m.pool.blocks| && m.pool.blocks[r.ids[i]].hash == r.hashes[i] && r.hashes[i] != NoHash
  }

  /** The hashes of a reserved region are those of the consecutive whole chunks of `toks` from `from`. */
  ghost predicate HashesOf(r: Region, toks: seq<Token>, from: nat, bs: nat) {
    forall i :: 0 <= i < |r.hashes| ==>
      from + Offset(i, bs) + bs <= |toks| && r.hashes[i] == Of(toks[..from + Offset(i, bs) + bs])
  }

  /** The region with one more entry. */
  function Push(r: Region, id: BlockId, h: Hash): Region {
    r.(ids := r.ids + [id], hashes := r.hashes + [h])
  }

  lemma PushCarries(m: Manager, m': Manager, r: Region, id: BlockId, h: Hash)
    requires RegionCarries(m, r) && |m'.pool.blocks| == |m.pool.blocks|
    requires forall b :: b in r.ids && b < |m.pool.blocks| ==> m'.pool.blocks[b].SameContent(m.pool.blocks[b])
    requires id < |m'.pool.blocks| && m'.pool.blocks[id].hash == h && h != NoHash
    ensures RegionCarries(m', Push(r, id, h))
  {
  }

  lemma PushHashes(r: Region, toks: seq<Token>, from: nat, bs: nat, id: BlockId)
    requires HashesOf(r, toks, from, bs) && from + Offset(|r.hashes|, bs) + bs <= |toks|
    ensures HashesOf(Push(r, id, Of(toks[..from + Offset(|r.hashes|, bs) + bs])), toks, from, bs)
  {
  }

  /** One reserved block. */
  function ReserveChunk(m: Manager, toks: seq<Token>, off: nat): Manager
    requires AllocBlock(m.pool).Ok? && off + m.bs <= |toks|
    requires AllocBlock(m.pool).value.1 < |AllocBlock(m.pool).value.0.blocks|
  {
    var (p, id) := AllocBlock(m.pool).value;
    m.(pool := p).SetBlock(id, p.blocks[id].(tokens := toks[off..off + m.bs], hash := Of(toks[..off + m.bs])))
  }

  lemma ReserveChunkStep(m: Manager, texts: Texts, toks: seq<Token>, off: nat, acc: Region)
    requires Inv(m, texts, multiset(acc.ids)) && m.pool.free != [] && off + m.bs <= |toks|
    requires RegionCarries(m, acc)
    ensures AllocBlock(m.pool).Ok?
    ensures
      var (p, id) := AllocBlock(m.pool).value;
      var h := Of(toks[..off + m.bs]);
      && id < |m.pool.blocks| == |p.blocks|
      && var m' := ReserveChunk(m, toks, off);
      && Inv(m', texts, multiset(Push(acc, id, h).ids))
      && m'.bs == m.bs && m'.maps == m.maps && m'.regions == m.regions && m'.table == m.table
      && InUseSame(m.pool, m'.pool) && |m'.pool.free| == |m.pool.free| - 1
      && RegionCarries(m', Push(acc, id, h))
  {
    hide Inv, BlocksOk, RegionsOk, MapsOk, Held, RegionCarries, BlockOk;
    InvParts(m, texts, multiset(acc.ids));
    var held := Held(m) + multiset(acc.ids);
    AllocBlockSafe(m.pool, held);
    var (p, id) := AllocBlock(m.pool).value;
    var h := Of(toks[..off + m.bs]);
    var m' := ReserveChunk(m, toks, off);
    ReservedOk(m.bs, toks, off, m'.pool.blocks[id]);
    FreshStep(m, texts, multiset(acc.ids), m');
    assert multiset(acc.ids + [id]) == multiset(acc.ids) + multiset{id};
    assert CountOk(m.pool, held, id);
    forall b | b in acc.ids && b < |m.pool.blocks|
      ensures m'.pool.blocks[b].SameContent(m.pool.blocks[b])
    {
      assert b in held;
    }
    PushCarries(m, m', acc, id, h);
  }

  lemma ReservedOk(bs: nat, toks: seq<Token>, off: nat, b: Block)
    requires bs > 0 && off + bs <= |toks|
    requires b.tokens == toks[off..off + bs] && b.hash == Of(toks[..off + bs])
    ensures BlockOk(bs, b)
  {
    assert toks[..off + bs][off..] == toks[off..off + bs];
  }

  lemma ReserveFromStep(m: Manager, toks: seq<Token>, off: nat, acc: Region)
    requires off + m.bs <= |toks| && AllocBlock(m.pool).Ok?
    requires AllocBlock(m.pool).value.1 < |AllocBlock(m.pool).value.0.blocks|
    ensures ReserveFrom(m, toks, off, acc) ==
      ReserveFrom(ReserveChunk(m, toks, off), toks, off + m.bs,
                  Push(acc, AllocBlock(m.pool).value.1, Of(toks[..off + m.bs])))
  {
  }

  ghost predicate Reserved(m: Manager, m': Manager, texts: Texts, r: Region, n: nat) {
    && Inv(m', texts, multiset(r.ids))
    && m'.bs == m.bs && m'.maps == m.maps && m'.regions == m.regions && m'.table == m.table
    && InUseSame(m.pool, m'.pool) && |m'.pool.free| == |m.pool.free| - n
    && RegionCarries(m', r)
  }

  /** The reservation loop takes one fresh block per whole chunk, runs out exactly when there are not
      enough, stores in each block the chunk whose hash it records, and touches no block in use. */
  lemma {:induction false} ReserveFromSafe(m: Manager, texts: Texts, toks: seq<Token>, off: nat, acc: Region, from: nat)
    requires Inv(m, texts, multiset(acc.ids)) && RegionCarries(m, acc)
    requires HashesOf(acc, toks, from, m.bs) && off == from + Offset(|acc.hashes|, m.bs)
    ensures var r := ReserveFrom(m, toks, off, acc);
      var n := Whole(|toks| - off, m.bs);
      if |m.pool.free| < n then r == Panic(Exhausted)
      else
        && r.Ok? && |r.value.1.ids| == |acc.ids| + n && r.value.1.id == acc.id
        && Reserved(m, r.value.0, texts, r.value.1, n) && HashesOf(r.value.1, toks, from, m.bs)
    decreases |toks| - off
  {
    hide Inv, RegionCarries, HashesOf, ReserveChunk, Reserved, InUseSame, Offset, AllocBlock;
    NothingAllocated(m.pool);
    if off + m.bs <= |toks| {
      if m.pool.free != [] {
        ReserveChunkStep(m, texts, toks, off, acc);
        var (p, id) := AllocBlock(m.pool).value;
        var h := Of(toks[..off + m.bs]);
        PushHashes(acc, toks, from, m.bs, id);
        CarriesLengths(m, acc);
        var m1 := ReserveChunk(m, toks, off);
        OffsetSucc(|acc.hashes|, m.bs);
        ReserveFromSafe(m1, texts, toks, off + m.bs, Push(acc, id, h), from);
        ReserveFromStep(m, toks, off, acc);
        ReservedMore(m, m1, texts, Whole(|toks| - off - m.bs, m.bs));
      }
    } else {
      ReservedNone(m, texts, acc);
    }
  }

  lemma NothingAllocated(p: Pool)
    ensures p.free == [] ==> AllocBlock(p) == Panic(Exhausted)
  {
  }

  lemma ReservedNone(m: Manager, texts: Texts, r: Region)
    requires Inv(m, texts, multiset(r.ids)) && RegionCarries(m, r)
    ensures Reserved(m, m, texts, r, 0)
  {
    hide Inv, RegionCarries;
  }

  lemma ReservedMore(m: Manager, m1: Manager, texts: Texts, n: nat)
    requires m1.bs == m.bs && m1.maps == m.maps && m1.regions == m.regions && m1.table == m.table
    requires InUseSame(m.pool, m1.pool) && |m1.pool.free| == |m.pool.free| - 1
    ensures forall m', r :: Reserved(m1, m', texts, r, n) ==> Reserved(m, m', texts, r, n + 1)
  {
    hide Inv, RegionCarries;
  }

  lemma CarriesLengths(m: Manager, r: Region)
    requires RegionCarries(m, r)
    ensures |r.ids| == |r.hashes| && FullBlocks(m.pool.blocks, r.ids)
  {
  }

  /** Reservation, in full: it panics exactly when the free list is shorter than the number of whole
      chunks from the block of `start` on; otherwise the region holds one unreferenced block for each
      of these chunks, with its tokens and hash, and the table is untouched. */
  lemma ReserveSafe(m: Manager, texts: Texts, toks: seq<Token>, start: nat, rid: RegionId)
    requires Inv(m, texts, multiset{}) && rid !in m.regions
    ensures
      var from := Offset(Whole(start, m.bs), m.bs);
      var n := Whole(|toks| - from, m.bs);
      var res := Reserve(m, toks, start, rid);
      if |m.pool.free| < n then res == Panic(Exhausted)
      else
        && res.Ok?
        && var (m', r) := res.value;
        && Inv(m', texts, multiset{})
        && m'.bs == m.bs && m'.maps == m.maps && m'.table == m.table
        && InUseSame(m.pool, m'.pool) && |m'.pool.free| == |m.pool.free| - n
        && (r.None? <==> n == 0)
        && m'.regions == (if r.None? then m.regions else m.regions[rid := r.value.ids])
        && (r.Some? ==> r.value.id == rid && |r.value.ids| == n
                        && RegionCarries(m', r.value) && HashesOf(r.value, toks, from, m.bs))
  {
    hide Inv, ReserveFrom, PoolOk, BlocksOk, RegionsOk, MapsOk, TableOk, Held, RegionCarries, HashesOf, InUseSame,
      Whole, Offset;
    InvParts(m, texts, multiset{});
    var from := Offset(Whole(start, m.bs), m.bs);
    var acc := Region(rid, [], []);
    EmptyRegion(m, acc, toks, from);
    ReserveFromSafe(m, texts, toks, from, acc, from);
    var res := ReserveFrom(m, toks, from, acc);
    if res.Ok? {
      var (m1, r) := res.value;
      CarriesLengths(m1, r);
      if r.ids == [] {
        assert multiset(r.ids) == multiset{};
      } else {
        RegionStep(m1, texts, rid, r.ids);
        CarriesFrame(m1, m1.(regions := m1.regions[rid := r.ids]), r);
      }
    }
  }

  lemma EmptyRegion(m: Manager, acc: Region, toks: seq<Token>, from: nat)
    requires acc.ids == [] && acc.hashes == []
    ensures RegionCarries(m, acc) && HashesOf(acc, toks, from, m.bs) && Offset(|acc.hashes|, m.bs) == 0
    ensures multiset(acc.ids) == multiset{}
  {
  }

  lemma CarriesFrame(m: Manager, m': Manager, r: Region)
    requires RegionCarries(m, r) && m'.pool == m.pool
    ensures RegionCarries(m', r)
  {
  }

  // ---------------------------------------------------------------- pinning by hash

  /** Pinning stops at the first requested hash that is not cached; pins change no content. */
  ghost predicate PinnedPrefix(m: Manager, m': Manager, hashes: seq<Hash>, r: Region) {
    && m'.bs == m.bs && m'.maps == m.maps && m'.table == m.table
    && SameContents(m.pool, m'.pool)
    && r.hashes <= hashes
    && (|r.hashes| < |hashes| ==> Lookup(m, hashes[|r.hashes|]).None?)
    && RegionCarries(m', r)
  }

  lemma LookupSame(m: Manager, m': Manager, h: Hash)
    requires m'.table == m.table && SameContents(m.pool, m'.pool)
    ensures Lookup(m', h) == Lookup(m, h)
  {
  }

  lemma LookupFull(m: Manager, h: Hash)
    requires TableOk(m) && Lookup(m, h).Some?
    ensures var b := Lookup(m, h).value;
      b < |m.pool.blocks| && m.pool.blocks[b].hash == h && h != NoHash
  {
  }

  lemma {:induction false} PinHashesFromSafe(m: Manager, texts: Texts, hashes: seq<Hash>, acc: Region)
    requires Inv(m, texts, multiset(acc.ids)) && RegionCarries(m, acc)
    ensures PinHashesFrom(m, hashes, acc).Ok?
    ensures var (m', r) := PinHashesFrom(m, hashes, acc).value;
      && r.id == acc.id && m'.regions == m.regions
      && Inv(m', texts, multiset(r.ids))
      && |acc.hashes| <= |r.hashes| && PinnedPrefix(m, m', acc.hashes + hashes, r)
    decreases |hashes|
  {
    hide Inv, PoolOk, BlocksOk, RegionsOk, MapsOk, TableOk, Held, RegionCarries, Lookup, PinnedPrefix, PinBlock,
      SameContents;
    InvParts(m, texts, multiset(acc.ids));
    if hashes == [] || Lookup(m, hashes[0]).None? {
      PinnedNone(m, hashes, acc);
    } else if hashes != [] && Lookup(m, hashes[0]).Some? {
      var id := Lookup(m, hashes[0]).value;
      LookupFull(m, hashes[0]);
      PinStep(m, texts, multiset(acc.ids), id);
      var m1 := m.(pool := PinBlock(m.pool, id).value);
      var acc1 := Push(acc, id, hashes[0]);
      assert multiset(acc.ids + [id]) == multiset(acc.ids) + multiset{id};
      PushCarries(m, m1, acc, id, hashes[0]);
      PinHashesFromSafe(m1, texts, hashes[1..], acc1);
      assert acc1.hashes + hashes[1..] == acc.hashes + hashes;
      assert PinHashesFrom(m, hashes, acc) == PinHashesFrom(m1, hashes[1..], acc1);
      var (m', r) := PinHashesFrom(m1, hashes[1..], acc1).value;
      SameContentsBy(m.pool, m1.pool);
      PinnedFrom(m, m1, m', acc.hashes + hashes, r);
    }
  }

  lemma SameContentsBy(p: Pool, p': Pool)
    requires |p'.blocks| == |p.blocks| && forall b :: 0 <= b < |p.blocks| ==> p'.blocks[b].SameContent(p.blocks[b])
    ensures SameContents(p, p')
  {
  }

  lemma PinnedNone(m: Manager, hashes: seq<Hash>, r: Region)
    requires RegionCarries(m, r) && (hashes != [] ==> Lookup(m, hashes[0]).None?)
    ensures PinnedPrefix(m, m, r.hashes + hashes, r)
  {
    hide RegionCarries, Lookup;
  }

  /** Nothing but counts and the free list changed before. */
  lemma PinnedFrom(m: Manager, m1: Manager, m': Manager, hashes: seq<Hash>, r: Region)
    requires m1 == m.(pool := m1.pool) && SameContents(m.pool, m1.pool) && PinnedPrefix(m1, m', hashes, r)
    ensures PinnedPrefix(m, m', hashes, r)
  {
    hide RegionCarries, Lookup;
    if |r.hashes| < |hashes| {
      LookupSame(m, m1, hashes[|r.hashes|]);
    }
  }

  /** Pinning by hash never panics: it pins, in order, the longest cached prefix of the request. */
  lemma PinHashesSafe(m: Manager, texts: Texts, hashes: seq<Hash>, rid: RegionId)
    requires Inv(m, texts, multiset{}) && rid !in m.regions
    ensures PinHashes(m, hashes, rid).Ok?
    ensures var (m', r) := PinHashes(m, hashes, rid).value;
      && r.id == rid && m'.regions == m.regions[rid := r.ids]
      && Inv(m', texts, multiset{})
      && PinnedPrefix(m, m', hashes, r)
  {
    hide Inv, PoolOk, BlocksOk, RegionsOk, MapsOk, TableOk, Held, RegionCarries, Lookup, PinHashesFrom;
    var acc := Region(rid, [], []);
    EmptyRegion(m, acc, [], 0);
    PinHashesFromSafe(m, texts, hashes, acc);
    var (m1, r) := PinHashesFrom(m, hashes, acc).value;
    assert acc.hashes + hashes == hashes;
    CarriesLengths(m1, r);
    RegionStep(m1, texts, rid, r.ids);
    CarriesFrame(m1, m1.(regions := m1.regions[rid := r.ids]), r);
  }

  // ---------------------------------------------------------------- giving regions back

  lemma HeldRegionRemove(m: Manager, rid: RegionId)
    requires rid in m.regions
    ensures Held(m) == Held(m.(regions := m.regions - {rid})) + multiset(m.regions[rid])
  {
    TotalRemove(m.regions, rid);
  }

  /** Taking a region out of the table leaves its references to the running operation. */
  lemma TakeRegion(m: Manager, texts: Texts, rid: RegionId)
    requires Inv(m, texts, multiset{}) && rid in m.regions
    ensures Inv(m.(regions := m.regions - {rid}), texts, multiset(m.regions[rid]))
    ensures FullBlocks(m.pool.blocks, m.regions[rid])
  {
    hide Spells, PoolOk, BlocksOk, Held;
    HeldRegionRemove(m, rid);
    assert Held(m) + multiset{} == Held(m);
  }

  lemma {:induction false} UnpinAllSafe(m: Manager, texts: Texts, ids: seq<BlockId>)
    requires Inv(m, texts, multiset(ids))
    ensures UnpinAll(m.pool, ids).Ok?
    ensures var p := UnpinAll(m.pool, ids).value;
      Inv(m.(pool := p), texts, multiset{}) && SameContents(m.pool, p)
    decreases |ids|
  {
    hide PoolOk, BlocksOk, RegionsOk, MapsOk, TableOk, Held;
    if ids == [] {
      assert m.(pool := m.pool) == m;
    } else {
      assert ids == [ids[0]] + ids[1..];
      assert multiset(ids[1..]) + multiset{ids[0]} == multiset(ids);
      ReleaseStep(m, texts, multiset(ids[1..]), ids[0]);
      var p := FreeBlock(m.pool, ids[0]).value;
      UnpinAllSafe(m.(pool := p), texts, ids[1..]);
      assert m.(pool := p).(pool := UnpinAll(p, ids[1..]).value) == m.(pool := UnpinAll(m.pool, ids).value);
    }
  }

  /** Unpinning never panics and changes no content. */
  lemma UnpinSafe(m: Manager, texts: Texts, rid: RegionId)
    requires Inv(m, texts, multiset{})
    ensures Unpin(m, rid).Ok?
    ensures var m' := Unpin(m, rid).value.0;
      && Inv(m', texts, multiset{})
      && m'.bs == m.bs && m'.maps == m.maps && m'.table == m.table && m'.regions == m.regions - {rid}
      && SameContents(m.pool, m'.pool)
  {
    hide Inv, PoolOk, BlocksOk, RegionsOk, MapsOk, TableOk, Held, UnpinAll;
    if rid in m.regions {
      TakeRegion(m, texts, rid);
      UnpinAllSafe(m.(regions := m.regions - {rid}), texts, m.regions[rid]);
    } else {
      assert m.regions - {rid} == m.regions;
    }
  }

  /** What activation publishes: old entries stay, and a hash gains an entry exactly when it was
      absent and one of the activated blocks carries it. */
  ghost predicate Published(m: Manager, m': Manager, ids: seq<BlockId>, hashes: set<Hash>) {
    && (forall h :: h in m.table ==> h in m'.table && m'.table[h] == m.table[h])
    && (forall h :: h in m'.table && h !in m.table ==>
          h in hashes && m'.table[h] in ids && m'.table[h] < |m.pool.blocks| && m.pool.blocks[m'.table[h]].hash == h)
    && (forall i :: 0 <= i < |ids| && ids[i] < |m.pool.blocks| && m.pool.blocks[ids[i]].hash in hashes ==>
          m.pool.blocks[ids[i]].hash in m'.table)
  }

  /** How many listed blocks carry one of the given hashes. */
  function CountCarried(blocks: seq<Block>, ids: seq<BlockId>, hashes: set<Hash>): nat {
    if ids == [] then 0
    else (if ids[0] < |blocks| && blocks[ids[0]].hash in hashes then 1 else 0) + CountCarried(blocks, ids[1..], hashes)
  }

  lemma {:induction false} CountCarriedFrame(blocks: seq<Block>, blocks': seq<Block>, ids: seq<BlockId>,
                                             hashes: set<Hash>)
    requires |blocks'| == |blocks| && forall b :: 0 <= b < |blocks| ==> blocks'[b].SameContent(blocks[b])
    ensures CountCarried(blocks', ids, hashes) == CountCarried(blocks, ids, hashes)
  {
    if ids != [] {
      CountCarriedFrame(blocks, blocks', ids[1..], hashes);
    }
  }

  lemma PublishStep(m: Manager, texts: Texts, extra: multiset<BlockId>, id: BlockId, h: Hash)
    requires Inv(m, texts, extra) && id < |m.pool.blocks| && h != NoHash
    ensures Inv(m.(table := m.table[h := id]), texts, extra)
  {
    hide PoolOk, BlocksOk, RegionsOk, Spells, Held;
    InvParts(m, texts, extra);
    var m' := m.(table := m.table[h := id]);
    assert Held(m') == Held(m) by {
      HeldSameLists(m, m');
    }
    assert RegionsOk(m') by {
      SameRegions(m, m');
    }
  }

  lemma {:induction false} ActivateAllSafe(m: Manager, texts: Texts, ids: seq<BlockId>, hashes: set<Hash>, n: nat)
    requires Inv(m, texts, multiset(ids)) && FullBlocks(m.pool.blocks, ids)
    ensures ActivateAll(m, ids, hashes, n).Ok?
    ensures var (m', k) := ActivateAll(m, ids, hashes, n).value;
      && Inv(m', texts, multiset{})
      && m'.bs == m.bs && m'.maps == m.maps && m'.regions == m.regions
      && SameContents(m.pool, m'.pool)
      && Published(m, m', ids, hashes)
      && k == n + CountCarried(m.pool.blocks, ids, hashes)
    decreases |ids|
  {
    hide Inv, PoolOk, BlocksOk, RegionsOk, MapsOk, TableOk, Held, Published, CountCarried, FreeBlock;
    if ids == [] {
      NonePublished(m, hashes);
    } else {
      var id := ids[0];
      assert ids == [id] + ids[1..];
      assert multiset(ids[1..]) + multiset{id} == multiset(ids);
      var h := m.pool.blocks[id].hash;
      var m1 := if h in hashes && h !in m.table then m.(table := m.table[h := id]) else m;
      if h in hashes && h !in m.table {
        PublishStep(m, texts, multiset(ids), id, h);
      }
      ReleaseStep(m1, texts, multiset(ids[1..]), id);
      var m2 := m1.(pool := FreeBlock(m1.pool, id).value);
      ActivateAllSafe(m2, texts, ids[1..], hashes, if h in hashes then n + 1 else n);
      CountCarriedFrame(m.pool.blocks, m2.pool.blocks, ids[1..], hashes);
      CountCarriedStep(m.pool.blocks, ids, hashes);
      var m' := ActivateAll(m2, ids[1..], hashes, if h in hashes then n + 1 else n).value.0;
      PublishedTrans(m, m2, m', ids, hashes);
    }
  }

  lemma PublishedTrans(m: Manager, m2: Manager, m': Manager, ids: seq<BlockId>, hashes: set<Hash>)
    requires ids != [] && ids[0] < |m.pool.blocks| && SameContents(m.pool, m2.pool)
    requires var h := m.pool.blocks[ids[0]].hash;
      m2.table == if h in hashes && h !in m.table then m.table[h := ids[0]] else m.table
    requires Published(m2, m', ids[1..], hashes)
    ensures Published(m, m', ids, hashes)
  {
    forall i | 0 <= i < |ids| && ids[i] < |m.pool.blocks| && m.pool.blocks[ids[i]].hash in hashes
      ensures m.pool.blocks[ids[i]].hash in m'.table
    {
      if i > 0 {
        assert ids[1..][i - 1] == ids[i];
        assert m2.pool.blocks[ids[1..][i - 1]].hash in hashes;
      } else {
        assert m.pool.blocks[ids[0]].hash in m2.table;
      }
    }
  }

  /** Activation never panics, publishes the wanted blocks and gives all references back. */
  lemma ActivateSafe(m: Manager, texts: Texts, rid: RegionId, hashes: seq<Hash>)
    requires Inv(m, texts, multiset{})
    ensures Activate(m, rid, hashes).Ok?
    ensures var (m', k) := Activate(m, rid, hashes).value;
      && Inv(m', texts, multiset{})
      && m'.bs == m.bs && m'.maps == m.maps && m'.regions == m.regions - {rid}
      && SameContents(m.pool, m'.pool)
      && var ids := if rid in m.regions then m.regions[rid] else [];
      && Published(m, m', ids, set h | h in hashes)
      && k == CountCarried(m.pool.blocks, ids, set h | h in hashes)
  {
    hide Inv, PoolOk, BlocksOk, RegionsOk, MapsOk, TableOk, Held, ActivateAll, CountCarried;
    var wanted := set h | h in hashes;
    if rid in m.regions {
      TakeRegion(m, texts, rid);
      var m1 := m.(regions := m.regions - {rid});
      ActivateAllSafe(m1, texts, m.regions[rid], wanted, 0);
      var m' := ActivateAll(m1, m.regions[rid], wanted, 0).value.0;
      assert Published(m, m', m.regions[rid], wanted);
    } else {
      assert m.regions - {rid} == m.regions;
      assert CountCarried(m.pool.blocks, [], wanted) == 0 by {
        NoneCarried(m.pool.blocks, wanted);
      }
    }
  }

  lemma NonePublished(m: Manager, hashes: set<Hash>)
    ensures Published(m, m, [], hashes) && CountCarried(m.pool.blocks, [], hashes) == 0
  {
  }

  lemma CountCarriedStep(blocks: seq<Block>, ids: seq<BlockId>, hashes: set<Hash>)
    requires ids != [] && ids[0] < |blocks|
    ensures CountCarried(blocks, ids, hashes) ==
      (if blocks[ids[0]].hash in hashes then 1 else 0) + CountCarried(blocks, ids[1..], hashes)
  {
  }

  lemma NoneCarried(blocks: seq<Block>, hashes: set<Hash>)
    ensures CountCarried(blocks, [], hashes) == 0
  {
  }
}
