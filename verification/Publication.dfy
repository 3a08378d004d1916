/** What `alloc_blocks` publishes and what it makes unfindable
    (runtime/src/llm_engine/block_manager.rs, lines 417-486). */
module Publication {
  import opened Prelude
  import opened BlockPool
  import opened BlockManagerSpec
  import opened BlockManagerInv
  import opened Allocation
  import opened PrefixCache

  function EntryOf(table: map<Hash, BlockId>, h: Hash): Option<BlockId> {
    if h in table then Some(table[h]) else None
  }

  /** The `j`-th chunk from `off` on is full, and `h` is its hash. */
  predicate ChunkHashes(toks: seq<Token>, bs: nat, off: nat, j: nat, h: Hash) {
    var end := off + Offset(j, bs) + bs;
    end <= |toks| && h == Of(toks[..end])
  }

  /** `h` is the hash of none of the first `n` chunks from `off` on. */
  ghost predicate NoneHashed(toks: seq<Token>, bs: nat, off: nat, n: nat, h: Hash) {
    forall j :: 0 <= j < n ==> !ChunkHashes(toks, bs, off, j, h)
  }

  // ---------------------------------------------------------------- fresh blocks

  /** One of the blocks from position `k` of `ids` on carries `h`. */
  ghost predicate CarriedFrom(blocks: seq<Block>, ids: seq<BlockId>, k: nat, h: Hash) {
    exists l :: k <= l < |ids| && ids[l] < |blocks| && blocks[ids[l]].hash == h
  }

  lemma CarriedShift(blocks: seq<Block>, blocks1: seq<Block>, ids: seq<BlockId>, k: nat, h: Hash)
    requires ids != [] && Distinct(ids) && |blocks1| == |blocks|
    requires forall b :: 0 <= b < |blocks| && b != ids[0] ==> blocks1[b] == blocks[b]
    ensures CarriedFrom(blocks1, ids[1..], k, h) <==> CarriedFrom(blocks, ids, k + 1, h)
    ensures CarriedFrom(blocks, ids, 0, h) <==>
      (ids[0] < |blocks| && blocks[ids[0]].hash == h) || CarriedFrom(blocks, ids, 1, h)
  {
    if CarriedFrom(blocks1, ids[1..], k, h) {
      var l :| k <= l < |ids[1..]| && ids[1..][l] < |blocks1| && blocks1[ids[1..][l]].hash == h;
      assert ids[l + 1] == ids[1..][l];
    }
    if CarriedFrom(blocks, ids, k + 1, h) {
      var l :| k + 1 <= l < |ids| && ids[l] < |blocks| && blocks[ids[l]].hash == h;
      assert ids[1..][l - 1] == ids[l];
    }
    if CarriedFrom(blocks, ids, 0, h) {
      var l :| 0 <= l < |ids| && ids[l] < |blocks| && blocks[ids[l]].hash == h;
    }
  }

  /** The entry of `h` after the fresh blocks `ids` were given the chunks from `off` on: a full chunk gets
      its block, unless a later one of the blocks carried the same hash before; another hash keeps its
      entry, unless one of them carried it. */
  ghost predicate EntryAfter(m: Manager, m': Manager, toks: seq<Token>, off: nat, ids: seq<BlockId>, h: Hash) {
    && (forall j :: 0 <= j < |ids| && ChunkHashes(toks, m.bs, off, j, h) ==>
          EntryOf(m'.table, h) == if CarriedFrom(m.pool.blocks, ids, j + 1, h) then None else Some(ids[j]))
    && (NoneHashed(toks, m.bs, off, |ids|, h) ==>
          EntryOf(m'.table, h) == if CarriedFrom(m.pool.blocks, ids, 0, h) then None else EntryOf(m.table, h))
  }

  ghost predicate FreshFrom(m: Manager, m': Manager, ids: seq<BlockId>, n: nat) {
    && n <= |m.pool.free| && ids == m.pool.free[..n] && m'.pool.free == m.pool.free[n..]
    && |m'.pool.blocks| == |m.pool.blocks|
    && forall b :: 0 <= b < |m.pool.blocks| && b !in ids ==> m'.pool.blocks[b] == m.pool.blocks[b]
  }

  lemma FreshCons(m: Manager, m1: Manager, m': Manager, ids: seq<BlockId>, n: nat)
    requires m.pool.free != [] && m1.pool.free == m.pool.free[1..] && |m1.pool.blocks| == |m.pool.blocks|
    requires forall b :: 0 <= b < |m.pool.blocks| && b != m.pool.free[0] ==> m1.pool.blocks[b] == m.pool.blocks[b]
    requires FreshFrom(m1, m', ids, n)
    ensures FreshFrom(m, m', [m.pool.free[0]] + ids, n + 1)
  {
    var all := [m.pool.free[0]] + ids;
    assert all == m.pool.free[..n + 1];
    assert m1.pool.free[n..] == m.pool.free[n + 1..];
  }

  /** What one fresh block does to the table. */
  lemma StoreEntry(m: Manager, id: BlockId, toks: seq<Token>, off: nat, h: Hash)
    requires id < |m.pool.blocks| && off < |toks| && h != NoHash
    ensures var m' := StoreChunk(m, id, toks, off);
      EntryOf(m'.table, h) ==
        if off + m.bs <= |toks| && h == Of(toks[..off + m.bs]) then Some(id)
        else if m.pool.blocks[id].hash == h then None
        else EntryOf(m.table, h)
  {
  }

  lemma ChunkShift(toks: seq<Token>, bs: nat, off: nat, j: nat, h: Hash)
    ensures ChunkHashes(toks, bs, off + bs, j, h) <==> ChunkHashes(toks, bs, off, j + 1, h)
  {
    assert Offset(j + 1, bs) == Offset(j, bs) + bs;
    assert off + bs + Offset(j, bs) == off + Offset(j + 1, bs);
  }

  lemma EntryCons(m: Manager, m1: Manager, m': Manager, toks: seq<Token>, off: nat, id: BlockId, ids: seq<BlockId>,
                  h: Hash)
    requires Distinct([id] + ids) && id < |m.pool.blocks| == |m1.pool.blocks| && m1.bs == m.bs && h != NoHash
    requires forall b :: 0 <= b < |m.pool.blocks| && b != id ==> m1.pool.blocks[b] == m.pool.blocks[b]
    requires EntryOf(m1.table, h) ==
      if ChunkHashes(toks, m.bs, off, 0, h) then Some(id)
      else if m.pool.blocks[id].hash == h then None
      else EntryOf(m.table, h)
    requires EntryAfter(m1, m', toks, off + m.bs, ids, h)
    ensures EntryAfter(m, m', toks, off, [id] + ids, h)
  {
    hide CarriedFrom, EntryOf, ChunkHashes, NoneHashed;
    var all := [id] + ids;
    assert all[1..] == ids;
    CarriedShift(m.pool.blocks, m1.pool.blocks, all, 0, h);
    forall j | 0 <= j < |all| && ChunkHashes(toks, m.bs, off, j, h)
      ensures EntryOf(m'.table, h) == if CarriedFrom(m.pool.blocks, all, j + 1, h) then None else Some(all[j])
    {
      if j == 0 {
        NoLaterChunk(toks, m.bs, off, off + m.bs, |ids|, h);
      } else {
        ChunkShift(toks, m.bs, off, j - 1, h);
        CarriedShift(m.pool.blocks, m1.pool.blocks, all, j, h);
        assert all[j] == ids[j - 1];
      }
    }
    if NoneHashed(toks, m.bs, off, |all|, h) {
      NoneShift(toks, m.bs, off, off + m.bs, |ids|, h);
    }
  }

  lemma NoneShift(toks: seq<Token>, bs: BlockSize, off: nat, next: nat, n: nat, h: Hash)
    requires NoneHashed(toks, bs, off, n + 1, h) && next == off + bs
    ensures NoneHashed(toks, bs, next, n, h) && !ChunkHashes(toks, bs, off, 0, h)
  {
    hide ChunkHashes;
    forall j | 0 <= j < n
      ensures !ChunkHashes(toks, bs, next, j, h)
    {
      ChunkShift(toks, bs, off, j, h);
    }
  }

  /** The hash of the first chunk is that of no later one. */
  lemma NoLaterChunk(toks: seq<Token>, bs: BlockSize, off: nat, next: nat, n: nat, h: Hash)
    requires ChunkHashes(toks, bs, off, 0, h) && next == off + bs
    ensures NoneHashed(toks, bs, next, n, h)
  {
    assert Offset(0, bs) == 0;
    assert |h.prefix| == next;
  }

  lemma {:induction false} FreshEntries(m: Manager, toks: seq<Token>, off: nat, acc: seq<BlockId>, h: Hash)
    requires AllocFresh(m, toks, off, acc).Ok? && Distinct(m.pool.free) && h != NoHash
    ensures var (m', all) := AllocFresh(m, toks, off, acc).value;
      && acc <= all && FreshFrom(m, m', all[|acc|..], |all| - |acc|)
      && EntryAfter(m, m', toks, off, all[|acc|..], h)
    decreases |toks| - off
  {
    hide StoreChunk, EntryAfter, FreshFrom, AllocBlock;
    if off >= |toks| {
      FreshNone(m, toks, off, acc, h);
    } else {
      var (p, id) := AllocBlock(m.pool).value;
      Taken(m.pool);
      var m0 := m.(pool := p);
      var m1 := StoreChunk(m0, id, toks, off);
      StoreEntry(m0, id, toks, off, h);
      StoreFrame(m0, id, toks, off);
      FreshEntries(m1, toks, off + m.bs, acc + [id], h);
      var (m', all) := AllocFresh(m1, toks, off + m.bs, acc + [id]).value;
      var ids := all[|acc| + 1..];
      assert all[|acc|..] == [id] + ids;
      FreshCons(m, m1, m', ids, |ids|);
      FreshPrefix(m, m', [id] + ids);
      assert Offset(0, m.bs) == 0;
      EntryCons(m, m1, m', toks, off, id, ids, h);
    }
  }

  lemma FreshNone(m: Manager, toks: seq<Token>, off: nat, acc: seq<BlockId>, h: Hash)
    ensures acc[|acc|..] == [] && FreshFrom(m, m, [], 0) && EntryAfter(m, m, toks, off, [], h)
  {
  }

  lemma FreshPrefix(m: Manager, m': Manager, ids: seq<BlockId>)
    requires FreshFrom(m, m', ids, |ids|) && Distinct(m.pool.free)
    ensures Distinct(ids)
  {
  }

  lemma Taken(p: Pool)
    requires AllocBlock(p).Ok?
    ensures var (p', id) := AllocBlock(p).value;
      && p.free != [] && id == p.free[0] < |p.blocks| && p'.free == p.free[1..] && |p'.blocks| == |p.blocks|
      && (forall b :: 0 <= b < |p.blocks| && b != id ==> p'.blocks[b] == p.blocks[b])
      && p'.blocks[id].hash == p.blocks[id].hash
      && (Distinct(p.free) ==> Distinct(p'.free))
  {
  }

  lemma StoreFrame(m: Manager, id: BlockId, toks: seq<Token>, off: nat)
    requires id < |m.pool.blocks| && off < |toks|
    ensures var m' := StoreChunk(m, id, toks, off);
      && m'.bs == m.bs && m'.pool.free == m.pool.free && |m'.pool.blocks| == |m.pool.blocks|
      && forall b :: 0 <= b < |m.pool.blocks| && b != id ==> m'.pool.blocks[b] == m.pool.blocks[b]
  {
  }

  // ---------------------------------------------------------------- topping up

  /** What topping up does to the table: it publishes the block that it completes, if it completes one. */
  lemma FillEntries(m: Manager, texts: Texts, q: SeqId, toks: seq<Token>, h: Hash)
    requires Inv(m, texts, multiset{}) && (q in m.maps ==> texts[q] <= toks) && h != NoHash
    ensures FillLast(m, q, toks).Ok?
    ensures var (m1, off) := FillLast(m, q, toks).value;
      var ids := MapOf(m, q).ids;
      && off == FillEnd(m.bs, m.Slots(q), |ids|, |toks|)
      && EntryOf(m1.table, h) ==
         if ids != [] && m.Slots(q) < off && off == Offset(|ids|, m.bs) && h == Of(toks[..off])
         then Some(ids[|ids| - 1])
         else EntryOf(m.table, h)
  {
    hide Inv, Held, PoolOk, BlocksOk, TableOk, RegionsOk, Spells;
    var bm := MapOf(m, q);
    OtherTextsIrrelevant(m, texts, q, toks);
    InvParts(m, texts[q := toks], multiset{});
    if bm.slots > 0 {
      SpellsBounds(m.bs, m.pool.blocks, bm, toks);
      LastChunk(m.bs, m.pool.blocks, bm, toks);
      BlockOkAt(m.bs, m.pool.blocks, bm.ids[|bm.ids| - 1]);
      FillSteps(m, q, toks);
    }
  }

  lemma FillSteps(m: Manager, q: SeqId, toks: seq<Token>)
    requires q in m.maps && 0 < m.maps[q].slots <= |toks| && m.maps[q].ids != []
    requires var ids := m.maps[q].ids; var k := |ids| - 1;
      && ids[k] < |m.pool.blocks| && Offset(k, m.bs) < m.maps[q].slots <= Offset(k, m.bs) + m.bs
      && m.pool.blocks[ids[k]].tokens == toks[Offset(k, m.bs)..m.maps[q].slots]
    ensures FillLast(m, q, toks).Ok?
    ensures var (m1, off) := FillLast(m, q, toks).value;
      var ids := m.maps[q].ids;
      && off == Min(Offset(|ids|, m.bs), |toks|)
      && m1.table ==
         if m.maps[q].slots < off && off == Offset(|ids|, m.bs) then m.table[Of(toks[..off]) := ids[|ids| - 1]]
         else m.table
  {
  }

  // ---------------------------------------------------------------- the whole operation

  /** Chunk `i` of the text is full, and was not before. */
  predicate Completes(m: Manager, q: SeqId, toks: seq<Token>, i: nat) {
    m.Slots(q) < Offset(i + 1, m.bs) <= |toks|
  }

  /** `h` is the hash of chunk `i` of the text. */
  predicate ChunkHash(toks: seq<Token>, bs: nat, i: nat, h: Hash) {
    Offset(i + 1, bs) <= |toks| && h == Of(toks[..Offset(i + 1, bs)])
  }

  /** What a spelled block carries. */
  lemma CarriesChunk(m: Manager, texts: Texts, q: SeqId, toks: seq<Token>, i: nat)
    requires Inv(m, texts, multiset{}) && q in m.maps && q in texts && texts[q] == toks && m.maps[q].slots == |toks|
    requires i < |m.maps[q].ids|
    ensures m.maps[q].ids[i] < |m.pool.blocks|
    ensures var h := m.pool.blocks[m.maps[q].ids[i]].hash;
      if Offset(i + 1, m.bs) <= |toks| then ChunkHash(toks, m.bs, i, h) else h == NoHash
  {
    hide Inv, ChunkIs, BlockOk, ChunkHash;
    SpelledBlock(m, texts, q, toks, i);
    assert toks[..|toks|] == toks;
    BlockHash(m.bs, m.pool.blocks[m.maps[q].ids[i]], toks, i);
  }

  lemma SpelledBlock(m: Manager, texts: Texts, q: SeqId, toks: seq<Token>, i: nat)
    requires Inv(m, texts, multiset{}) && q in m.maps && texts[q] <= toks && i < |m.maps[q].ids|
    ensures m.maps[q].slots <= |toks| && m.maps[q].ids[i] < |m.pool.blocks|
    ensures BlockOk(m.bs, m.pool.blocks[m.maps[q].ids[i]])
    ensures ChunkIs(m.pool.blocks[m.maps[q].ids[i]], toks[..m.maps[q].slots], Offset(i, m.bs), m.bs)
  {
    hide PoolOk, TableOk, RegionsOk, Held, ChunkIs, BlockOk, Offset, Covers;
    var bm := m.maps[q];
    OtherTextsIrrelevant(m, texts, q, toks);
    assert Spells(m.bs, m.pool.blocks, bm, toks);
    assert ChunkIs(m.pool.blocks[bm.ids[i]], toks[..bm.slots], 0 + Offset(i, m.bs), m.bs);
    assert BlockOk(m.bs, m.pool.blocks[bm.ids[i]]);
  }

  /** The hash of a block that holds chunk `i` of a text. */
  lemma BlockHash(bs: BlockSize, b: Block, s: seq<Token>, i: nat)
    requires BlockOk(bs, b) && ChunkIs(b, s, Offset(i, bs), bs)
    ensures if Offset(i + 1, bs) <= |s| then b.hash != NoHash && ChunkHash(s, bs, i, b.hash) else b.hash == NoHash
  {
    assert Offset(i + 1, bs) == Offset(i, bs) + bs;
  }

  lemma ChunkOfPrefix(toks: seq<Token>, n: nat, bs: nat, i: nat, h: Hash)
    requires n <= |toks| && ChunkHash(toks[..n], bs, i, h)
    ensures ChunkHash(toks, bs, i, h)
  {
    assert toks[..n][..Offset(i + 1, bs)] == toks[..Offset(i + 1, bs)];
  }

  lemma AllocSteps(m: Manager, texts: Texts, q: SeqId, toks: seq<Token>)
    requires Inv(m, texts, multiset{}) && (q in m.maps ==> texts[q] <= toks) && AllocBlocks(m, q, toks).Ok?
    ensures FillLast(m, q, toks).Ok?
    ensures var (m1, off) := FillLast(m, q, toks).value;
      && AllocFresh(m1, toks, off, []).Ok?
      && var (m2, ids) := AllocFresh(m1, toks, off, []).value;
      var m' := AllocBlocks(m, q, toks).value.0;
      && m'.table == m2.table && m'.pool == m2.pool && q in m'.maps && m'.maps[q].ids == MapOf(m, q).ids + ids
  {
    hide Inv, FillLast, AllocFresh;
    FillEntries(m, texts, q, toks, Of([]));
    var (m1, off) := FillLast(m, q, toks).value;
    FillMaps(m, q, toks);
    AllocFreshIgnoresMaps(m1, toks, off, [], m1.maps);
    assert m1 == m1.(maps := m1.maps);
  }

  lemma FillMaps(m: Manager, q: SeqId, toks: seq<Token>)
    requires m.Slots(q) <= |toks| && FillLast(m, q, toks).Ok?
    ensures var m1 := FillLast(m, q, toks).value.0;
      && m1.maps == m.maps && m1.pool.free == m.pool.free && |m1.pool.blocks| == |m.pool.blocks| && m1.bs == m.bs
      && forall b :: 0 <= b < |m.pool.blocks| && b !in MapOf(m, q).ids ==> m1.pool.blocks[b] == m.pool.blocks[b]
  {
  }

  /** The free list holds unowned blocks, each once. */
  lemma FreeList(m: Manager, texts: Texts, q: SeqId)
    requires Inv(m, texts, multiset{})
    ensures Distinct(m.pool.free)
    ensures forall b :: b in m.pool.free ==> b < |m.pool.blocks| && b !in MapOf(m, q).ids
  {
    hide BlocksOk, TableOk, RegionsOk, MapsOk, Held;
    var free := m.pool.free;
    forall i, j | 0 <= i < j < |free|
      ensures free[i] != free[j]
    {
      assert free[i] in free;
      assert CountOk(m.pool, Held(m) + multiset{}, free[i]);
      assert free == free[..j] + free[j..] && free[i] in free[..j] && free[j] in free[j..];
    }
    forall b | b in free
      ensures b < |m.pool.blocks| && b !in MapOf(m, q).ids
    {
      assert CountOk(m.pool, Held(m) + multiset{}, b);
      if q in m.maps && b in m.maps[q].ids {
        HeldByMap(m, q, b);
        assert false;
      }
    }
  }

  lemma SameCarried(blocks: seq<Block>, blocks1: seq<Block>, ids: seq<BlockId>)
    requires |blocks1| == |blocks| && forall b :: b in ids && b < |blocks| ==> blocks1[b] == blocks[b]
    ensures forall k, h :: CarriedFrom(blocks1, ids, k, h) <==> CarriedFrom(blocks, ids, k, h)
  {
  }

  /** The chunks of the fresh blocks, counted from the start of the text. */
  lemma ChunkIndex(toks: seq<Token>, bs: BlockSize, k: nat, off: nat, j: nat, h: Hash)
    requires off == Offset(k, bs)
    ensures ChunkHashes(toks, bs, off, j, h) <==> ChunkHash(toks, bs, k + j, h)
  {
    OffsetAdd(k, j, bs);
    assert Offset(k + j + 1, bs) == Offset(k + j, bs) + bs;
  }

  /** A block that `q` was given at position `i` of its list or later carried `h` before. */
  ghost predicate Recycled(m: Manager, m': Manager, q: SeqId, i: nat, h: Hash) {
    var k, ids := |MapOf(m, q).ids|, MapOf(m', q).ids;
    exists l :: i <= l < |ids| && k <= l && ids[l] < |m.pool.blocks| && m.pool.blocks[ids[l]].hash == h
  }

  lemma RecycledIs(m: Manager, m': Manager, q: SeqId, ids: seq<BlockId>, j: nat, h: Hash)
    requires MapOf(m', q).ids == MapOf(m, q).ids + ids
    ensures Recycled(m, m', q, |MapOf(m, q).ids| + j, h) <==> CarriedFrom(m.pool.blocks, ids, j, h)
    ensures Recycled(m, m', q, 0, h) <==> CarriedFrom(m.pool.blocks, ids, 0, h)
  {
    hide MapOf, Recycled, CarriedFrom;
    RecycledFrom(m, m', q, ids, j, h);
    RecycledFrom(m, m', q, ids, 0, h);
    RecycledAtAll(m, m', q, h);
  }

  /** Only blocks behind those that `q` had count. */
  lemma RecycledAtAll(m: Manager, m': Manager, q: SeqId, h: Hash)
    ensures Recycled(m, m', q, 0, h) <==> Recycled(m, m', q, |MapOf(m, q).ids|, h)
  {
    hide MapOf;
  }

  lemma RecycledFrom(m: Manager, m': Manager, q: SeqId, ids: seq<BlockId>, j: nat, h: Hash)
    requires MapOf(m', q).ids == MapOf(m, q).ids + ids
    ensures Recycled(m, m', q, |MapOf(m, q).ids| + j, h) <==> CarriedFrom(m.pool.blocks, ids, j, h)
  {
    hide MapOf;
    var k, all := |MapOf(m, q).ids|, MapOf(m', q).ids;
    if l :| k + j <= l < |all| && k <= l && all[l] < |m.pool.blocks| && m.pool.blocks[all[l]].hash == h {
      assert ids[l - k] == all[l];
    }
    if l :| j <= l < |ids| && ids[l] < |m.pool.blocks| && m.pool.blocks[ids[l]].hash == h {
      assert all[k + l] == ids[l];
    }
  }

  /** `h` is the hash of a chunk that became full. */
  ghost predicate NewlyFull(m: Manager, m': Manager, q: SeqId, toks: seq<Token>, h: Hash) {
    exists i :: 0 <= i < |MapOf(m', q).ids| && Completes(m, q, toks, i) && ChunkHash(toks, m.bs, i, h)
  }

  /** The entry of one hash after `alloc_blocks`. */
  ghost predicate EntryRight(m: Manager, m': Manager, q: SeqId, toks: seq<Token>, h: Hash) {
    && (forall i :: 0 <= i < |MapOf(m', q).ids| && Completes(m, q, toks, i) && ChunkHash(toks, m.bs, i, h) ==>
          EntryOf(m'.table, h) == if Recycled(m, m', q, i + 1, h) then None else Some(MapOf(m', q).ids[i]))
    && (!NewlyFull(m, m', q, toks, h) ==>
          EntryOf(m'.table, h) == if Recycled(m, m', q, 0, h) then None else EntryOf(m.table, h))
  }

  /** One chunk is completed by topping up or by a fresh block. */
  lemma CompletedWhere(m: Manager, q: SeqId, toks: seq<Token>, off: nat, n: nat, i: nat)
    requires Covers(|MapOf(m, q).ids|, m.Slots(q), m.bs)
    requires m.Slots(q) <= off == FillEnd(m.bs, m.Slots(q), |MapOf(m, q).ids|, |toks|)
    requires off < |toks| ==> off == Offset(|MapOf(m, q).ids|, m.bs)
    requires i < |MapOf(m, q).ids| + n && (off == |toks| ==> n == 0)
    ensures var k := |MapOf(m, q).ids|;
      Completes(m, q, toks, i) <==>
        Offset(i + 1, m.bs) <= |toks| && (i >= k || (i == k - 1 && m.Slots(q) < off && off == Offset(k, m.bs)))
  {
    hide MapOf;
    var k := |MapOf(m, q).ids|;
    if i >= k {
      OffsetMono(k, i + 1, m.bs);
    } else {
      if i < k - 1 {
        OffsetMono(i + 1, k - 1, m.bs);
      }
    }
  }

  /** The two halves of `alloc_blocks` and what they do to the entry of one hash. */
  ghost predicate Halves(m: Manager, m': Manager, q: SeqId, toks: seq<Token>, h: Hash, table1: map<Hash, BlockId>,
                         off: nat, ids: seq<BlockId>) {
    var k := |MapOf(m, q).ids|;
    && MapOf(m', q).ids == MapOf(m, q).ids + ids && m'.bs == m.bs && h != NoHash
    && Covers(k, m.Slots(q), m.bs) && m.Slots(q) <= off <= |toks|
    && off == FillEnd(m.bs, m.Slots(q), k, |toks|)
    && (off < |toks| ==> off == Offset(k, m.bs)) && (off == |toks| ==> ids == [])
    && EntryOf(table1, h) ==
       (if k > 0 && m.Slots(q) < off && off == Offset(k, m.bs) && h == Of(toks[..off]) then Some(MapOf(m, q).ids[k - 1])
        else EntryOf(m.table, h))
    && EntryAfter(m.(table := table1), m', toks, off, ids, h)
  }

  lemma EntryFresh(m: Manager, m': Manager, q: SeqId, toks: seq<Token>, h: Hash, table1: map<Hash, BlockId>, off: nat,
                   ids: seq<BlockId>, i: nat)
    requires Halves(m, m', q, toks, h, table1, off, ids) && |MapOf(m, q).ids| <= i < |MapOf(m', q).ids|
    requires Completes(m, q, toks, i) && ChunkHash(toks, m.bs, i, h)
    ensures EntryOf(m'.table, h) == if Recycled(m, m', q, i + 1, h) then None else Some(MapOf(m', q).ids[i])
  {
    hide MapOf, Recycled, CarriedFrom, EntryOf, ChunkHashes, ChunkHash, NoneHashed, FillEnd, Covers;
    var k := |MapOf(m, q).ids|;
    ChunkIndex(toks, m.bs, k, off, i - k, h);
    RecycledIs(m, m', q, ids, i - k + 1, h);
    assert ids[i - k] == MapOf(m', q).ids[i];
  }

  lemma NoneFresh(m: Manager, q: SeqId, toks: seq<Token>, h: Hash, off: nat, n: nat)
    requires off < |toks| ==> off == Offset(|MapOf(m, q).ids|, m.bs)
    requires off >= |toks| ==> n == 0
    requires forall i :: |MapOf(m, q).ids| <= i < |MapOf(m, q).ids| + n ==> !ChunkHash(toks, m.bs, i, h)
    ensures NoneHashed(toks, m.bs, off, n, h)
  {
    hide MapOf, ChunkHashes, ChunkHash;
    forall j | 0 <= j < n
      ensures !ChunkHashes(toks, m.bs, off, j, h)
    {
      ChunkIndex(toks, m.bs, |MapOf(m, q).ids|, off, j, h);
    }
  }

  /** Two chunks have different hashes. */
  lemma ChunkApart(toks: seq<Token>, bs: BlockSize, i: nat, h: Hash)
    requires ChunkHash(toks, bs, i, h)
    ensures forall j :: i != j && 0 <= j ==> !ChunkHash(toks, bs, j, h)
  {
    ChunkLength(toks, bs, i, h);
    forall j: nat | i != j
      ensures !ChunkHash(toks, bs, j, h)
    {
      ChunkLength(toks, bs, j, h);
      if i < j {
        OffsetMono(i + 1, j + 1, bs);
      } else {
        OffsetMono(j + 1, i + 1, bs);
      }
    }
  }

  lemma ChunkLength(toks: seq<Token>, bs: nat, i: nat, h: Hash)
    ensures ChunkHash(toks, bs, i, h) ==> h.Of? && |h.prefix| == Offset(i + 1, bs)
  {
  }

  /** The block that is topped up. */
  lemma EntryTopped(m: Manager, m': Manager, q: SeqId, toks: seq<Token>, h: Hash, table1: map<Hash, BlockId>, off: nat,
                    ids: seq<BlockId>, i: nat)
    requires Halves(m, m', q, toks, h, table1, off, ids) && i + 1 == |MapOf(m, q).ids|
    requires Completes(m, q, toks, i) && ChunkHash(toks, m.bs, i, h)
    ensures EntryOf(m'.table, h) == if Recycled(m, m', q, i + 1, h) then None else Some(MapOf(m', q).ids[i])
  {
    hide MapOf, Recycled, CarriedFrom, EntryOf, ChunkHashes, ChunkHash, NoneHashed, Covers;
    ChunkApart(toks, m.bs, i, h);
    NoneFresh(m, q, toks, h, off, |ids|);
    CompletedWhere(m, q, toks, off, |ids|, i);
    RecycledIs(m, m', q, ids, 0, h);
    assert ChunkHash(toks, m.bs, i, h) && off == Offset(i + 1, m.bs) ==> h == Of(toks[..off]) by {
      ChunkEnd(toks, m.bs, i, off, h);
    }
  }

  lemma ChunkEnd(toks: seq<Token>, bs: nat, i: nat, off: nat, h: Hash)
    requires off == Offset(i + 1, bs) <= |toks|
    ensures ChunkHash(toks, bs, i, h) <==> h == Of(toks[..off])
  {
  }

  /** A hash of no completed chunk. */
  lemma EntryOther(m: Manager, m': Manager, q: SeqId, toks: seq<Token>, h: Hash, table1: map<Hash, BlockId>, off: nat,
                   ids: seq<BlockId>)
    requires Halves(m, m', q, toks, h, table1, off, ids)
    requires forall i :: 0 <= i < |MapOf(m', q).ids| && Completes(m, q, toks, i) ==> !ChunkHash(toks, m.bs, i, h)
    ensures EntryOf(m'.table, h) == if Recycled(m, m', q, 0, h) then None else EntryOf(m.table, h)
  {
    hide MapOf, Recycled, CarriedFrom, EntryOf, ChunkHashes, NoneHashed, Covers, Completes;
    var k := |MapOf(m, q).ids|;
    forall i | k <= i < k + |ids|
      ensures !ChunkHash(toks, m.bs, i, h)
    {
      CompletedWhere(m, q, toks, off, |ids|, i);
    }
    NoneFresh(m, q, toks, h, off, |ids|);
    RecycledIs(m, m', q, ids, 0, h);
    if k > 0 && m.Slots(q) < off && off == Offset(k, m.bs) {
      CompletedWhere(m, q, toks, off, |ids|, k - 1);
      ChunkEnd(toks, m.bs, k - 1, off, h);
    }
  }

  lemma HalvesOf(m: Manager, texts: Texts, q: SeqId, toks: seq<Token>, h: Hash)
    returns (table1: map<Hash, BlockId>, off: nat, ids: seq<BlockId>)
    requires Inv(m, texts, multiset{}) && (q in m.maps ==> texts[q] <= toks) && AllocBlocks(m, q, toks).Ok?
    requires h != NoHash
    ensures var m' := AllocBlocks(m, q, toks).value.0;
      && Halves(m, m', q, toks, h, table1, off, ids)
      && |ids| <= |m.pool.free| && ids == m.pool.free[..|ids|] && m'.pool.free == m.pool.free[|ids|..]
      && |m'.pool.blocks| == |m.pool.blocks|
      && forall b :: 0 <= b < |m.pool.blocks| && b !in MapOf(m', q).ids ==> m'.pool.blocks[b] == m.pool.blocks[b]
  {
    hide Inv, FillLast, AllocFresh, AllocBlocks, EntryAfter, EntryOf, Covers, FillEnd;
    var m' := AllocBlocks(m, q, toks).value.0;
    ListBounds(m, texts, q, toks);
    AllocKeepsSize(m, texts, q, toks);
    AllocSteps(m, texts, q, toks);
    FillEntries(m, texts, q, toks, h);
    FreeList(m, texts, q);
    FillMaps(m, q, toks);
    var m1 := FillLast(m, q, toks).value.0;
    off := FillLast(m, q, toks).value.1;
    FreshEntries(m1, toks, off, [], h);
    ids := AllocFresh(m1, toks, off, []).value.1;
    var m2 := AllocFresh(m1, toks, off, []).value.0;
    assert ids[0..] == ids;
    table1 := m1.table;
    FreshCount(m1, toks, off, []);
    EntryFrame(m.(table := table1), m1, m2, m', toks, off, ids, h);
  }

  lemma AllocKeepsSize(m: Manager, texts: Texts, q: SeqId, toks: seq<Token>)
    requires Inv(m, texts, multiset{}) && (q in m.maps ==> texts[q] <= toks) && AllocBlocks(m, q, toks).Ok?
    ensures AllocBlocks(m, q, toks).value.0.bs == m.bs
  {
    hide Inv, AllocBlocks, DivCeil, OthersKept, Needed;
    AllocBlocksSafe(m, texts, q, toks);
  }

  lemma ListBounds(m: Manager, texts: Texts, q: SeqId, toks: seq<Token>)
    requires Inv(m, texts, multiset{}) && (q in m.maps ==> texts[q] <= toks)
    ensures m.Slots(q) <= |toks| && Covers(|MapOf(m, q).ids|, m.Slots(q), m.bs)
    ensures var off := FillEnd(m.bs, m.Slots(q), |MapOf(m, q).ids|, |toks|);
      m.Slots(q) <= off <= |toks| && (off < |toks| ==> off == Offset(|MapOf(m, q).ids|, m.bs))
  {
    hide PoolOk, BlocksOk, TableOk, RegionsOk, Held;
  }

  lemma FreshCount(m: Manager, toks: seq<Token>, off: nat, acc: seq<BlockId>)
    requires AllocFresh(m, toks, off, acc).Ok?
    ensures off >= |toks| ==> AllocFresh(m, toks, off, acc).value.1 == acc
  {
  }

  /** Only the free blocks and the table of the state in between matter. */
  lemma EntryFrame(m: Manager, m1: Manager, m2: Manager, m': Manager, toks: seq<Token>, off: nat, ids: seq<BlockId>,
                   h: Hash)
    requires EntryAfter(m1, m2, toks, off, ids, h) && m1.table == m.table && m'.table == m2.table && m1.bs == m.bs
    requires |m1.pool.blocks| == |m.pool.blocks|
    requires forall b :: b in ids && b < |m.pool.blocks| ==> m1.pool.blocks[b] == m.pool.blocks[b]
    ensures EntryAfter(m, m', toks, off, ids, h)
  {
    hide CarriedFrom, EntryOf, ChunkHashes, NoneHashed;
    SameCarried(m.pool.blocks, m1.pool.blocks, ids);
  }

  lemma EntriesRight(m: Manager, texts: Texts, q: SeqId, toks: seq<Token>, h: Hash)
    requires Inv(m, texts, multiset{}) && (q in m.maps ==> texts[q] <= toks) && AllocBlocks(m, q, toks).Ok?
    requires h != NoHash
    ensures EntryRight(m, AllocBlocks(m, q, toks).value.0, q, toks, h)
  {
    hide Inv, AllocBlocks, Recycled, EntryOf, Halves, Completes, ChunkHash, MapOf;
    var table1, off, ids := HalvesOf(m, texts, q, toks, h);
    var m' := AllocBlocks(m, q, toks).value.0;
    forall i | 0 <= i < |MapOf(m', q).ids| && Completes(m, q, toks, i) && ChunkHash(toks, m.bs, i, h)
      ensures EntryOf(m'.table, h) == if Recycled(m, m', q, i + 1, h) then None else Some(MapOf(m', q).ids[i])
    {
      CompletedLate(m, m', q, toks, h, table1, off, ids, i);
      if i + 1 == |MapOf(m, q).ids| {
        EntryTopped(m, m', q, toks, h, table1, off, ids, i);
      } else {
        EntryFresh(m, m', q, toks, h, table1, off, ids, i);
      }
    }
    if !NewlyFull(m, m', q, toks, h) {
      EntryOther(m, m', q, toks, h, table1, off, ids);
    }
  }

  lemma CompletedLate(m: Manager, m': Manager, q: SeqId, toks: seq<Token>, h: Hash, table1: map<Hash, BlockId>,
                      off: nat, ids: seq<BlockId>, i: nat)
    requires Halves(m, m', q, toks, h, table1, off, ids) && i < |MapOf(m', q).ids| && Completes(m, q, toks, i)
    ensures i + 1 >= |MapOf(m, q).ids|
  {
    hide MapOf, EntryOf, EntryAfter, Covers;
    CompletedWhere(m, q, toks, off, |ids|, i);
  }

  /** What is found after `alloc_blocks`. A chunk that it completed is found in its block, unless a block
      taken for a later chunk carried the same hash before; any other hash is found as before, unless one of
      the blocks taken carried it. The blocks taken are the first ones of the free list. */
  lemma AllocPublishes(m: Manager, texts: Texts, q: SeqId, toks: seq<Token>)
    requires Inv(m, texts, multiset{}) && (q in m.maps ==> texts[q] <= toks) && AllocBlocks(m, q, toks).Ok?
    ensures var m' := AllocBlocks(m, q, toks).value.0; var n := |MapOf(m', q).ids| - |MapOf(m, q).ids|;
      && 0 <= n <= |m.pool.free| && MapOf(m', q).ids == MapOf(m, q).ids + m.pool.free[..n]
      && m'.pool.free == m.pool.free[n..]
    ensures var m' := AllocBlocks(m, q, toks).value.0;
      forall i, h :: 0 <= i < |MapOf(m', q).ids| && Completes(m, q, toks, i) && ChunkHash(toks, m.bs, i, h) ==>
        Lookup(m', h) == if Recycled(m, m', q, i + 1, h) then None else Some(MapOf(m', q).ids[i])
    ensures var m' := AllocBlocks(m, q, toks).value.0;
      forall h :: h != NoHash && !NewlyFull(m, m', q, toks, h) ==>
        Lookup(m', h) == if Recycled(m, m', q, 0, h) then None else Lookup(m, h)
  {
    hide Inv, AllocBlocks, Recycled, EntryRight, NewlyFull, EntryOf, Halves, Completes, ChunkHash, MapOf, Lookup;
    var m' := AllocBlocks(m, q, toks).value.0;
    var table1, off, ids := HalvesOf(m, texts, q, toks, Of([]));
    HalvesList(m, m', q, toks, Of([]), table1, off, ids);
    forall i, h | 0 <= i < |MapOf(m', q).ids| && Completes(m, q, toks, i) && ChunkHash(toks, m.bs, i, h)
      ensures Lookup(m', h) == if Recycled(m, m', q, i + 1, h) then None else Some(MapOf(m', q).ids[i])
    {
      ChunkLength(toks, m.bs, i, h);
      EntriesRight(m, texts, q, toks, h);
      FoundChunk(m, texts, q, toks, i, h);
    }
    forall h | h != NoHash && !NewlyFull(m, m', q, toks, h)
      ensures Lookup(m', h) == if Recycled(m, m', q, 0, h) then None else Lookup(m, h)
    {
      EntriesRight(m, texts, q, toks, h);
      FoundAsBefore(m, texts, q, toks, h);
    }
  }

  lemma FoundChunk(m: Manager, texts: Texts, q: SeqId, toks: seq<Token>, i: nat, h: Hash)
    requires Inv(m, texts, multiset{}) && (q in m.maps ==> texts[q] <= toks) && AllocBlocks(m, q, toks).Ok?
    requires h != NoHash
    requires EntryRight(m, AllocBlocks(m, q, toks).value.0, q, toks, h)
    requires i < |MapOf(AllocBlocks(m, q, toks).value.0, q).ids|
    requires Completes(m, q, toks, i) && ChunkHash(toks, m.bs, i, h)
    ensures var m' := AllocBlocks(m, q, toks).value.0;
      Lookup(m', h) == if Recycled(m, m', q, i + 1, h) then None else Some(MapOf(m', q).ids[i])
  {
    hide Inv, AllocBlocks, Recycled, NewlyFull, DivCeil, OthersKept, Needed;
    AllocBlocksSafe(m, texts, q, toks);
    CarriesChunk(AllocBlocks(m, q, toks).value.0, texts[q := toks], q, toks, i);
  }

  /** The block of an old entry is as it was, or carries the hash neither before nor after. */
  lemma OldBlock(m: Manager, texts: Texts, q: SeqId, toks: seq<Token>, b: BlockId, h: Hash)
    requires Inv(m, texts, multiset{}) && (q in m.maps ==> texts[q] <= toks) && AllocBlocks(m, q, toks).Ok?
    requires h != NoHash
    requires var m' := AllocBlocks(m, q, toks).value.0; !NewlyFull(m, m', q, toks, h) && !Recycled(m, m', q, 0, h)
    requires b < |m.pool.blocks|
    ensures var m' := AllocBlocks(m, q, toks).value.0;
      |m'.pool.blocks| == |m.pool.blocks| && (m'.pool.blocks[b].hash == h <==> m.pool.blocks[b].hash == h)
  {
    hide Inv, AllocBlocks, Halves, DivCeil, Needed;
    var m' := AllocBlocks(m, q, toks).value.0;
    AllocBlocksSafe(m, texts, q, toks);
    var table1, off, ids := HalvesOf(m, texts, q, toks, h);
    HalvesList(m, m', q, toks, h, table1, off, ids);
    if i :| 0 <= i < |m'.maps[q].ids| && m'.maps[q].ids[i] == b {
      CarriesChunk(m', texts[q := toks], q, toks, i);
      if i < |MapOf(m, q).ids| {
        OwnBlock(m, texts, q, toks, i, h);
      } else {
        NotDone(m, texts, q, toks, i);
      }
    }
  }

  /** A block that `q` had: full before, or full only now. */
  lemma OwnBlock(m: Manager, texts: Texts, q: SeqId, toks: seq<Token>, i: nat, h: Hash)
    requires Inv(m, texts, multiset{}) && q in m.maps && texts[q] <= toks && i < |m.maps[q].ids|
    ensures m.maps[q].ids[i] < |m.pool.blocks|
    ensures var b := m.pool.blocks[m.maps[q].ids[i]];
      if Offset(i + 1, m.bs) <= m.maps[q].slots then b.hash != NoHash && ChunkHash(toks, m.bs, i, b.hash)
      else b.hash == NoHash
  {
    hide Inv, ChunkIs, BlockOk, ChunkHash;
    var bm := m.maps[q];
    SpelledBlock(m, texts, q, toks, i);
    BlockHash(m.bs, m.pool.blocks[bm.ids[i]], toks[..bm.slots], i);
    if Offset(i + 1, m.bs) <= bm.slots {
      ChunkOfPrefix(toks, bm.slots, m.bs, i, m.pool.blocks[bm.ids[i]].hash);
    }
  }

  lemma NotDone(m: Manager, texts: Texts, q: SeqId, toks: seq<Token>, i: nat)
    requires Inv(m, texts, multiset{}) && (q in m.maps ==> texts[q] <= toks) && i >= |MapOf(m, q).ids|
    ensures Offset(i + 1, m.bs) <= |toks| ==> Completes(m, q, toks, i)
  {
    hide Inv;
    ListBounds(m, texts, q, toks);
    OffsetMono(|MapOf(m, q).ids|, i + 1, m.bs);
  }

  lemma FoundAsBefore(m: Manager, texts: Texts, q: SeqId, toks: seq<Token>, h: Hash)
    requires Inv(m, texts, multiset{}) && (q in m.maps ==> texts[q] <= toks) && AllocBlocks(m, q, toks).Ok?
    requires h != NoHash
    requires var m' := AllocBlocks(m, q, toks).value.0; EntryRight(m, m', q, toks, h) && !NewlyFull(m, m', q, toks, h)
    ensures var m' := AllocBlocks(m, q, toks).value.0;
      Lookup(m', h) == if Recycled(m, m', q, 0, h) then None else Lookup(m, h)
  {
    hide Inv, AllocBlocks, Recycled, NewlyFull, Completes, ChunkHash, MapOf;
    TableInPool(m, texts);
    var m' := AllocBlocks(m, q, toks).value.0;
    if !Recycled(m, m', q, 0, h) && h in m.table {
      OldBlock(m, texts, q, toks, m.table[h], h);
    }
  }

  lemma TableInPool(m: Manager, texts: Texts)
    requires Inv(m, texts, multiset{})
    ensures forall h :: h in m.table ==> m.table[h] < |m.pool.blocks|
  {
    hide PoolOk, BlocksOk, RegionsOk, MapsOk, Held;
  }

  lemma HalvesList(m: Manager, m': Manager, q: SeqId, toks: seq<Token>, h: Hash, table1: map<Hash, BlockId>, off: nat,
                   ids: seq<BlockId>)
    requires Halves(m, m', q, toks, h, table1, off, ids)
    ensures MapOf(m', q).ids == MapOf(m, q).ids + ids
  {
    hide MapOf, EntryOf, EntryAfter, Covers, FillEnd;
  }
}
