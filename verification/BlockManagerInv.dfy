/** What every block manager operation keeps: reference-count conservation, agreement of the
    allocator, and block lists that spell their sequences. */
module BlockManagerInv {
  import opened Prelude
  import opened BlockPool
  import opened BlockManagerSpec

  type Texts = map<SeqId, seq<Token>>

  // ---------------------------------------------------------------- ownership

  ghost function Pick(m: map<nat, seq<BlockId>>): (k: nat)
    requires m != map[]
    ensures k in m
  {
    var k :| k in m; k
  }

  /** All block references in a table of block lists, with multiplicity. */
  ghost function Total(m: map<nat, seq<BlockId>>): multiset<BlockId>
    decreases |m|
  {
    if m == map[] then multiset{}
    else
      var k := Pick(m);
      assert (m - {k}).Keys == m.Keys - {k};
      multiset(m[k]) + Total(m - {k})
  }

  lemma AddSwap(a: multiset<BlockId>, b: multiset<BlockId>, c: multiset<BlockId>)
    ensures a + (b + c) == b + (a + c)
  {
  }

  lemma {:induction false} TotalRemove(m: map<nat, seq<BlockId>>, k: nat)
    requires k in m
    ensures Total(m) == multiset(m[k]) + Total(m - {k})
    decreases |m|
  {
    var p := Pick(m);
    if p != k {
      var mp, mk := m - {p}, m - {k};
      assert mp.Keys == m.Keys - {p} && mk.Keys == m.Keys - {k};
      assert mp[k] == m[k] && mk[p] == m[p];
      var rest := mp - {k};
      assert mk - {p} == rest;
      TotalRemove(mp, k);
      TotalRemove(mk, p);
      AddSwap(multiset(m[p]), multiset(m[k]), Total(rest));
    }
  }

  lemma TotalInsert(m: map<nat, seq<BlockId>>, k: nat, v: seq<BlockId>)
    requires k !in m
    ensures Total(m[k := v]) == Total(m) + multiset(v)
  {
    TotalRemove(m[k := v], k);
    assert m[k := v] - {k} == m;
  }

  lemma TotalReplace(m: map<nat, seq<BlockId>>, k: nat, v: seq<BlockId>)
    requires k in m
    ensures Total(m[k := v]) == Total(m - {k}) + multiset(v)
    ensures Total(m) == Total(m - {k}) + multiset(m[k])
  {
    TotalRemove(m[k := v], k);
    assert m[k := v] - {k} == m - {k};
    TotalRemove(m, k);
  }

  lemma {:induction false} TotalMember(m: map<nat, seq<BlockId>>, b: BlockId)
    ensures b in Total(m) <==> exists k :: k in m && b in m[k]
    decreases |m|
  {
    if m != map[] {
      var k := Pick(m);
      assert (m - {k}).Keys == m.Keys - {k};
      TotalMember(m - {k}, b);
      if b !in m[k] && exists j :: j in m && b in m[j] {
        var j :| j in m && b in m[j];
        assert j in m - {k} && b in (m - {k})[j];
      }
    }
  }

  ghost function Lists(maps: map<SeqId, BlockMap>): map<nat, seq<BlockId>> {
    map q | q in maps :: maps[q].ids
  }

  /** The references all sequences and regions hold. */
  ghost function Held(m: Manager): multiset<BlockId> {
    Total(Lists(m.maps)) + Total(m.regions)
  }

  lemma HeldByMap(m: Manager, q: SeqId, b: BlockId)
    requires q in m.maps && b in m.maps[q].ids
    ensures b in Held(m)
  {
    assert b in Lists(m.maps)[q];
    TotalMember(Lists(m.maps), b);
  }

  lemma HeldByRegion(m: Manager, r: RegionId, b: BlockId)
    requires r in m.regions && b in m.regions[r]
    ensures b in Held(m)
  {
    TotalMember(m.regions, b);
  }

  /** A block listed by `q` and by another owner counts at least twice. */
  lemma HeldTwice(m: Manager, q: SeqId, o: SeqId, b: BlockId)
    requires q in m.maps && o in m.maps && q != o && b in m.maps[q].ids && b in m.maps[o].ids
    ensures Held(m)[b] >= 2
  {
    var l := Lists(m.maps);
    TotalRemove(l, q);
    assert b in (l - {q})[o];
    TotalMember(l - {q}, b);
  }

  lemma Cancel(x: multiset<BlockId>, y: multiset<BlockId>, a: multiset<BlockId>, i: multiset<BlockId>)
    requires x + a == y + (a + i)
    ensures x == y + i
  {
    forall b: BlockId
      ensures x[b] == (y + i)[b]
    {
      assert (x + a)[b] == (y + (a + i))[b];
    }
  }

  lemma HeldMapChange(m: Manager, q: SeqId, bm: BlockMap)
    ensures var m' := m.(maps := m.maps[q := bm]);
      Held(m') + multiset(if q in m.maps then m.maps[q].ids else []) == Held(m) + multiset(bm.ids)
  {
    var m' := m.(maps := m.maps[q := bm]);
    assert Lists(m'.maps) == Lists(m.maps)[q := bm.ids];
    if q in m.maps {
      TotalReplace(Lists(m.maps), q, bm.ids);
    } else {
      TotalInsert(Lists(m.maps), q, bm.ids);
    }
  }

  lemma HeldMapRemove(m: Manager, q: SeqId)
    requires q in m.maps
    ensures Held(m) == Held(m.(maps := m.maps - {q})) + multiset(m.maps[q].ids)
  {
    assert Lists(m.maps - {q}) == Lists(m.maps) - {q};
    TotalRemove(Lists(m.maps), q);
  }

  // ---------------------------------------------------------------- content

  /** Block `b` holds the chunk of `s` at offset `off`, and its hash when the chunk is full. */
  ghost predicate ChunkIs(b: Block, s: seq<Token>, off: nat, bs: nat) {
    && off < |s|
    && b.tokens == s[off..Min(off + bs, |s|)]
    && (off + bs <= |s| ==> b.hash == Of(s[..off + bs]))
  }

  /** The blocks `ids` hold the consecutive chunks of `s` from offset `from` on. */
  ghost predicate ListSpells(bs: nat, blocks: seq<Block>, ids: seq<BlockId>, s: seq<Token>, from: nat) {
    forall i :: 0 <= i < |ids| ==> ids[i] < |blocks| && ChunkIs(blocks[ids[i]], s, from + Offset(i, bs), bs)
  }

  /** The block list of a sequence spells the first `slots` tokens of its text. */
  ghost predicate Spells(bs: nat, blocks: seq<Block>, bm: BlockMap, text: seq<Token>) {
    && bm.filled <= bm.slots <= |text|
    && Covers(|bm.ids|, bm.slots, bs)
    && ListSpells(bs, blocks, bm.ids, text[..bm.slots], 0)
  }

  /** A block is hashed exactly when it is full, its tokens are the tail of the hashed prefix, and an
      unfull block never has two owners. */
  ghost predicate BlockOk(bs: nat, b: Block) {
    && |b.tokens| <= bs
    && (b.hash == NoHash <==> |b.tokens| < bs)
    && (b.hash.Of? ==> |b.hash.prefix| >= bs && b.tokens == b.hash.prefix[|b.hash.prefix| - bs..])
    && (b.hash == NoHash ==> b.refCnt <= 1)
  }

  ghost predicate BlocksOk(bs: nat, blocks: seq<Block>) {
    forall b :: 0 <= b < |blocks| ==> BlockOk(bs, blocks[b])
  }

  ghost predicate TableOk(m: Manager) {
    forall h :: h in m.table ==> h != NoHash && m.table[h] < |m.pool.blocks|
  }

  ghost predicate FullBlocks(blocks: seq<Block>, ids: seq<BlockId>) {
    forall i :: 0 <= i < |ids| ==> ids[i] < |blocks| && blocks[ids[i]].hash != NoHash
  }

  ghost predicate RegionsOk(m: Manager) {
    forall r :: r in m.regions ==> FullBlocks(m.pool.blocks, m.regions[r])
  }

  lemma SameRegions(m: Manager, m': Manager)
    requires RegionsOk(m) && m'.regions == m.regions && m'.pool == m.pool
    ensures RegionsOk(m')
  {
  }

  ghost predicate MapsOk(m: Manager, texts: Texts) {
    forall q :: q in m.maps ==> q in texts && Spells(m.bs, m.pool.blocks, m.maps[q], texts[q])
  }

  /** The invariant of a block manager whose sequences have the given texts, while an operation
      in progress holds the references `extra` besides those of the tables. */
  ghost predicate Inv(m: Manager, texts: Texts, extra: multiset<BlockId>) {
    && PoolOk(m.pool, Held(m) + extra)
    && BlocksOk(m.bs, m.pool.blocks)
    && TableOk(m)
    && RegionsOk(m)
    && MapsOk(m, texts)
  }

  /** The parts of the invariant, for proofs that hide its definition. */
  lemma InvParts(m: Manager, texts: Texts, extra: multiset<BlockId>)
    requires Inv(m, texts, extra)
    ensures PoolOk(m.pool, Held(m) + extra) && BlocksOk(m.bs, m.pool.blocks)
    ensures TableOk(m) && RegionsOk(m) && MapsOk(m, texts)
  {
  }

  lemma NewManagerInv(bs: BlockSize, n: nat)
    ensures Inv(NewManager(bs, n), map[], multiset{})
  {
    NewPoolOk(n);
    assert Lists(map[]) == map[];
    assert Held(NewManager(bs, n)) == multiset{};
  }

  /** Longer texts are spelled just as well. */
  lemma SpellsLonger(bs: nat, blocks: seq<Block>, bm: BlockMap, t: seq<Token>, u: seq<Token>)
    requires Spells(bs, blocks, bm, t) && t <= u
    ensures Spells(bs, blocks, bm, u)
  {
    assert u[..bm.slots] == t[..bm.slots];
  }

  lemma InvLonger(m: Manager, texts: Texts, texts': Texts, extra: multiset<BlockId>)
    requires Inv(m, texts, extra)
    requires forall q :: q in m.maps ==> q in texts' && texts[q] <= texts'[q]
    ensures Inv(m, texts', extra)
  {
    forall q | q in m.maps
      ensures Spells(m.bs, m.pool.blocks, m.maps[q], texts'[q])
    {
      SpellsLonger(m.bs, m.pool.blocks, m.maps[q], texts[q], texts'[q]);
    }
  }

  /** The text of one sequence may grow. */
  lemma OtherTextsIrrelevant(m: Manager, texts: Texts, q: SeqId, toks: seq<Token>)
    requires Inv(m, texts, multiset{}) && (q in m.maps ==> texts[q] <= toks)
    ensures Inv(m, texts[q := toks], multiset{})
  {
    InvLonger(m, texts, texts[q := toks], multiset{});
  }

  // ---------------------------------------------------------------- primitive steps

  lemma HeldInPool(m: Manager, held: multiset<BlockId>)
    requires PoolOk(m.pool, held) && Held(m) <= held
    ensures forall b :: b in Held(m) ==> b < |m.pool.blocks|
  {
    forall b | b in Held(m)
      ensures b < |m.pool.blocks|
    {
      assert b in held;
    }
  }

  lemma SpellsFrame(bs: nat, blocks: seq<Block>, blocks': seq<Block>, bm: BlockMap, text: seq<Token>)
    requires Spells(bs, blocks, bm, text)
    requires |blocks'| == |blocks|
    requires forall b :: b in bm.ids && b < |blocks| ==> blocks'[b].SameContent(blocks[b])
    ensures Spells(bs, blocks', bm, text)
  {
  }

  /** Changing only blocks that no table refers to keeps every list spelled. */
  lemma KeptContent(m: Manager, texts: Texts, m': Manager)
    requires MapsOk(m, texts) && RegionsOk(m)
    requires m'.bs == m.bs && m'.maps == m.maps && m'.regions == m.regions
    requires |m'.pool.blocks| == |m.pool.blocks|
    requires forall b :: b in Held(m) ==> b < |m.pool.blocks|
    requires forall b :: 0 <= b < |m.pool.blocks| && b in Held(m) ==>
      m'.pool.blocks[b].SameContent(m.pool.blocks[b])
    ensures MapsOk(m', texts) && RegionsOk(m')
  {
    forall q | q in m.maps
      ensures Spells(m'.bs, m'.pool.blocks, m'.maps[q], texts[q])
    {
      forall b | b in m.maps[q].ids
        ensures b in Held(m)
      {
        HeldByMap(m, q, b);
      }
      SpellsFrame(m.bs, m.pool.blocks, m'.pool.blocks, m.maps[q], texts[q]);
    }
    forall r | r in m.regions
      ensures FullBlocks(m'.pool.blocks, m.regions[r])
    {
      var ids := m.regions[r];
      forall i | 0 <= i < |ids|
        ensures m'.pool.blocks[ids[i]].hash != NoHash
      {
        HeldByRegion(m, r, ids[i]);
      }
    }
  }

  lemma FreshKeepsBlocks(bs: nat, p: Pool, held: multiset<BlockId>, p': Pool)
    requires PoolOk(p, held) && BlocksOk(bs, p.blocks) && p.free != [] && AllocBlock(p).Ok?
    requires FreshPool(bs, p, p')
    ensures var id := p.free[0];
      && id < |p.blocks| && id !in held && |p'.blocks| == |p.blocks|
      && PoolOk(p', held + multiset{id}) && BlocksOk(bs, p'.blocks)
      && forall b :: 0 <= b < |p.blocks| && b != id ==> p'.blocks[b] == p.blocks[b]
  {
    AllocBlockSafe(p, held);
    var (p1, id) := AllocBlock(p).value;
    forall b | 0 <= b < |p.blocks|
      ensures CountOk(p', held + multiset{id}, b) && BlockOk(bs, p'.blocks[b])
    {
      assert CountOk(p1, held + multiset{id}, b);
      assert b != id ==> BlockOk(bs, p.blocks[b]);
    }
  }

  /** `p'` is the pool after `alloc_block` with new legal content in the block handed out. */
  ghost predicate FreshPool(bs: nat, p: Pool, p': Pool)
    requires AllocBlock(p).Ok?
  {
    var (p1, id) := AllocBlock(p).value;
    && id < |p1.blocks| && |p'.blocks| == |p1.blocks|
    && p'.free == p1.free
    && p'.blocks[id].refCnt == 1 && p'.blocks[id].status == Used
    && BlockOk(bs, p'.blocks[id])
    && forall b :: 0 <= b < |p1.blocks| && b != id ==> p'.blocks[b] == p1.blocks[b]
  }

  /** A fresh block with new content, for `alloc_blocks` and `reserve_blocks`. */
  lemma FreshStep(m: Manager, texts: Texts, extra: multiset<BlockId>, m': Manager)
    requires Inv(m, texts, extra) && m.pool.free != []
    requires AllocBlock(m.pool).Ok? && FreshPool(m.bs, m.pool, m'.pool)
    requires m'.bs == m.bs && m'.maps == m.maps && m'.regions == m.regions
    requires TableOk(m')
    ensures var id := m.pool.free[0];
      && id < |m.pool.blocks| == |m'.pool.blocks| && id !in Held(m) + extra
      && Inv(m', texts, extra + multiset{id})
      && forall b :: 0 <= b < |m.pool.blocks| && b != id ==> m'.pool.blocks[b] == m.pool.blocks[b]
  {
    var held := Held(m) + extra;
    FreshKeepsBlocks(m.bs, m.pool, held, m'.pool);
    var id := m.pool.free[0];
    assert Held(m') + (extra + multiset{id}) == held + multiset{id};
    HeldInPool(m, held);
    assert id !in Held(m);
    KeptContent(m, texts, m');
  }

  lemma PinKeepsBlocks(bs: nat, p: Pool, held: multiset<BlockId>, id: BlockId)
    requires PoolOk(p, held) && BlocksOk(bs, p.blocks)
    requires id < |p.blocks| && p.blocks[id].hash != NoHash
    ensures PinBlock(p, id).Ok?
    ensures var p' := PinBlock(p, id).value;
      && PoolOk(p', held + multiset{id}) && BlocksOk(bs, p'.blocks)
      && |p'.blocks| == |p.blocks|
      && |p'.free| == |p.free| - (if p.blocks[id].refCnt == 0 then 1 else 0)
      && (forall b :: 0 <= b < |p.blocks| ==> p'.blocks[b].SameContent(p.blocks[b]))
      && (forall b :: 0 <= b < |p.blocks| && b != id ==> p'.blocks[b] == p.blocks[b])
  {
    PinBlockSafe(p, held, id);
    assert CountOk(p, held, id);
    var p' := PinBlock(p, id).value;
    forall b | 0 <= b < |p.blocks|
      ensures BlockOk(bs, p'.blocks[b])
    {
      assert BlockOk(bs, p.blocks[b]);
    }
  }

  lemma ReleaseKeepsBlocks(bs: nat, p: Pool, held: multiset<BlockId>, id: BlockId)
    requires PoolOk(p, held) && BlocksOk(bs, p.blocks) && id in held
    ensures id < |p.blocks| && FreeBlock(p, id).Ok?
    ensures var p' := FreeBlock(p, id).value;
      && PoolOk(p', held - multiset{id}) && BlocksOk(bs, p'.blocks)
      && |p'.blocks| == |p.blocks|
      && |p'.free| == |p.free| + (if p.blocks[id].refCnt == 1 then 1 else 0)
      && (forall b :: 0 <= b < |p.blocks| ==> p'.blocks[b].SameContent(p.blocks[b]))
      && (forall b :: 0 <= b < |p.blocks| && b != id ==> p'.blocks[b] == p.blocks[b])
  {
    FreeBlockSafe(p, held, id);
    assert CountOk(p, held, id);
    var p' := FreeBlock(p, id).value;
    forall b | 0 <= b < |p.blocks|
      ensures BlockOk(bs, p'.blocks[b])
    {
      assert BlockOk(bs, p.blocks[b]);
    }
  }

  /** One more reference to a full block. */
  lemma PinStep(m: Manager, texts: Texts, extra: multiset<BlockId>, id: BlockId)
    requires Inv(m, texts, extra)
    requires id < |m.pool.blocks| && m.pool.blocks[id].hash != NoHash
    ensures PinBlock(m.pool, id).Ok?
    ensures var p := PinBlock(m.pool, id).value;
      && Inv(m.(pool := p), texts, extra + multiset{id})
      && |p.blocks| == |m.pool.blocks|
      && |p.free| == |m.pool.free| - (if m.pool.blocks[id].refCnt == 0 then 1 else 0)
      && (forall b :: 0 <= b < |p.blocks| ==> p.blocks[b].SameContent(m.pool.blocks[b]))
      && (forall b :: 0 <= b < |p.blocks| && b != id ==> p.blocks[b] == m.pool.blocks[b])
  {
    var held := Held(m) + extra;
    PinKeepsBlocks(m.bs, m.pool, held, id);
    var m' := m.(pool := PinBlock(m.pool, id).value);
    assert Held(m') + (extra + multiset{id}) == held + multiset{id};
    HeldInPool(m, held);
    KeptContent(m, texts, m');
  }

  /** One reference less. */
  lemma ReleaseStep(m: Manager, texts: Texts, extra: multiset<BlockId>, id: BlockId)
    requires Inv(m, texts, extra + multiset{id})
    ensures id < |m.pool.blocks|
    ensures FreeBlock(m.pool, id).Ok?
    ensures var p := FreeBlock(m.pool, id).value;
      && Inv(m.(pool := p), texts, extra)
      && |p.blocks| == |m.pool.blocks|
      && |p.free| == |m.pool.free| + (if m.pool.blocks[id].refCnt == 1 then 1 else 0)
      && (forall b :: 0 <= b < |p.blocks| ==> p.blocks[b].SameContent(m.pool.blocks[b]))
      && (forall b :: 0 <= b < |p.blocks| && b != id ==> p.blocks[b] == m.pool.blocks[b])
  {
    var held := Held(m) + (extra + multiset{id});
    assert id in held;
    ReleaseKeepsBlocks(m.bs, m.pool, held, id);
    var m' := m.(pool := FreeBlock(m.pool, id).value);
    assert Held(m') + extra == held - multiset{id};
    HeldInPool(m, held);
    KeptContent(m, texts, m');
  }

  lemma DropKeepsBlocks(bs: nat, p: Pool, held: multiset<BlockId>, id: BlockId)
    requires PoolOk(p, held) && BlocksOk(bs, p.blocks) && bs > 0
    requires id < |p.blocks| && p.blocks[id].refCnt == 0
    ensures id !in held
    ensures var p' := p.(blocks := p.blocks[id := p.blocks[id].Cleared()]);
      PoolOk(p', held) && BlocksOk(bs, p'.blocks)
  {
    assert CountOk(p, held, id);
    var p' := p.(blocks := p.blocks[id := p.blocks[id].Cleared()]);
    forall b | 0 <= b < |p.blocks|
      ensures CountOk(p', held, b) && BlockOk(bs, p'.blocks[b])
    {
      assert CountOk(p, held, b) && BlockOk(bs, p.blocks[b]);
    }
  }

  /** Dropping the cached content of a block touches it only when nothing refers to it. */
  lemma DropStep(m: Manager, texts: Texts, extra: multiset<BlockId>, id: BlockId)
    requires Inv(m, texts, extra) && id < |m.pool.blocks|
    ensures var m' := DropCache(m, id);
      && Inv(m', texts, extra)
      && m'.bs == m.bs && m'.maps == m.maps && m'.regions == m.regions
      && m'.pool.free == m.pool.free
      && |m'.pool.blocks| == |m.pool.blocks|
      && (forall b :: 0 <= b < |m.pool.blocks| ==>
            m'.pool.blocks[b].refCnt == m.pool.blocks[b].refCnt && (b == id || m'.pool.blocks[b] == m.pool.blocks[b]))
      && (m.pool.blocks[id].refCnt != 0 ==> m' == m)
  {
    var held := Held(m) + extra;
    var m' := DropCache(m, id);
    if m.pool.blocks[id].refCnt == 0 {
      DropKeepsBlocks(m.bs, m.pool, held, id);
      HeldInPool(m, held);
      assert id !in Held(m);
      KeptContent(m, texts, m');
    }
  }

  /** The references in `ids` pass from the running operation to the block list of `q`. */
  lemma MapStep(m: Manager, texts: Texts, q: SeqId, bm: BlockMap, ids: seq<BlockId>)
    requires Inv(m, texts, multiset(ids))
    requires q in texts && Spells(m.bs, m.pool.blocks, bm, texts[q])
    requires bm.ids == (if q in m.maps then m.maps[q].ids else []) + ids
    ensures Inv(m.(maps := m.maps[q := bm]), texts, multiset{})
  {
    var m' := m.(maps := m.maps[q := bm]);
    hide Spells, Held, PoolOk;
    var before := if q in m.maps then m.maps[q].ids else [];
    HeldMapChange(m, q, bm);
    Cancel(Held(m'), Held(m), multiset(before), multiset(ids));
    assert Held(m') + multiset{} == Held(m) + multiset(ids);
    assert MapsOk(m', texts);
  }

  /** The references in `ids` pass to a new region. */
  lemma RegionStep(m: Manager, texts: Texts, rid: RegionId, ids: seq<BlockId>)
    requires Inv(m, texts, multiset(ids)) && rid !in m.regions
    requires FullBlocks(m.pool.blocks, ids)
    ensures Inv(m.(regions := m.regions[rid := ids]), texts, multiset{})
  {
    var m' := m.(regions := m.regions[rid := ids]);
    assert Held(m') + multiset{} == Held(m) + multiset(ids) by {
      TotalInsert(m.regions, rid, ids);
    }
    assert PoolOk(m'.pool, Held(m') + multiset{});
    assert MapsOk(m', texts);
  }
}
