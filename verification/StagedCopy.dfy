/** Staging between host and disk: reserving destination blocks for the ones a device has more
    (runtime/src/llm_engine/scheduler.rs, lines 357-403). */
module StagedCopy {
  import opened Prelude
  import opened BlockPool
  import opened BlockManagerSpec
  import opened BlockManagerInv
  import opened Allocation
  import opened Regions
  import opened Admission
  import opened KvCopy
  import opened Dispatch

  /** `reserve_copy_blocks` */
  function ReserveCopy(src: Manager, dst: Manager, q: SeqId, toks: seq<Token>, rid: RegionId)
    : Outcome<(Manager, Option<(Region, seq<Entry>)>)>
    requires src.Filled(q) <= |toks|
  {
    if src.Filled(q) <= dst.Filled(q) then Ok((dst, None))
    else
      match BlockRange(src, q, dst.Filled(q), src.Filled(q), false)
      case None => Ok((dst, None))
      case Some((ids, _)) =>
        if !CanAlloc(dst.pool, |ids|, 100) then Ok((dst, None))
        else
          var (m, r) :- Reserve(dst, toks[..src.Filled(q)], dst.Filled(q), rid);
          Ok((m, if r.None? then None else Some((r.value, Zip(ids, r.value.ids)))))
  }

  /** Each entry copies a block to one with the same tokens and hash, the lists have the same length,
      and the targets are the blocks of the new region, in order. */
  ghost predicate ExactPairs(src: Manager, dst: Manager, r: Region, es: seq<Entry>) {
    && |es| == |r.ids|
    && forall i :: 0 <= i < |es| ==>
         && es[i].dst == r.ids[i]
         && es[i].src < |src.pool.blocks| && es[i].dst < |dst.pool.blocks|
         && dst.pool.blocks[es[i].dst].SameContent(src.pool.blocks[es[i].src])
  }

  /** A plan exists exactly when the source has whole blocks filled beyond those of the destination and the
      destination has free blocks for them; it covers all of these blocks, in order, and the region has the
      hashes of their chunks. */
  ghost predicate CopyExact(src: Manager, dst: Manager, q: SeqId, toks: seq<Token>,
                            plan: Option<(Region, seq<Entry>)>) {
    var s, e := Whole(dst.Filled(q), src.bs), Whole(src.Filled(q), src.bs);
    && (plan.Some? <==> s < e && e - s <= |dst.pool.free|)
    && (plan.Some? ==> Covering(plan.value.0, plan.value.1, MapOf(src, q).ids, toks, s, e, src.bs))
  }

  /** The entries copy the listed blocks from index `s` up to `e`, and the region is for their chunks. */
  ghost predicate Covering(r: Region, es: seq<Entry>, ids: seq<BlockId>, toks: seq<Token>, s: nat, e: nat,
                           bs: BlockSize) {
    && s <= e <= |ids| && |es| == e - s == |r.ids| && HashesOf(r, toks, Offset(s, bs), bs)
    && forall i :: 0 <= i < |es| ==> es[i] == Entry(ids[s + i], r.ids[i])
  }

  lemma HashesLonger(r: Region, toks: seq<Token>, n: nat, from: nat, bs: nat)
    requires n <= |toks| && HashesOf(r, toks[..n], from, bs)
    ensures HashesOf(r, toks, from, bs)
  {
    hide Offset;
    forall i | 0 <= i < |r.hashes|
      ensures from + Offset(i, bs) + bs <= |toks| && r.hashes[i] == Of(toks[..from + Offset(i, bs) + bs])
    {
      assert toks[..n][..from + Offset(i, bs) + bs] == toks[..from + Offset(i, bs) + bs];
    }
  }

  /** The check for `n` blocks with the whole device is that they are free. */
  lemma FullCheck(p: Pool, n: nat)
    ensures CanAlloc(p, n, 100) <==> n <= |p.free|
  {
    assert 100 * |p.blocks| / 100 == |p.blocks|;
  }

  lemma ZipCovers(src: seq<BlockId>, r: Region, toks: seq<Token>, s: nat, e: nat, bs: BlockSize)
    requires s <= e <= |src| && |r.ids| == e - s && HashesOf(r, toks, Offset(s, bs), bs)
    ensures Covering(r, Zip(src[s..e], r.ids), src, toks, s, e, bs)
  {
  }

  lemma {:induction false} WholeAfter(n: nat, s: nat, bs: BlockSize)
    requires Offset(s, bs) <= n
    ensures Whole(n - Offset(s, bs), bs) == Whole(n, bs) - s
    decreases s
  {
    if s > 0 {
      WholeAfter(n - bs, s - 1, bs);
    }
  }

  lemma SameHashSameTokens(bs: BlockSize, a: Block, b: Block)
    requires BlockOk(bs, a) && BlockOk(bs, b) && a.hash == b.hash && a.hash != NoHash
    ensures a.SameContent(b)
  {
  }

  /** The source block at index `s + i` carries the hash of region entry `i`. */
  lemma SourceHash(src: Manager, texts: Texts, q: SeqId, toks: seq<Token>, s: nat, i: nat, r: Region)
    requires Inv(src, texts, multiset{}) && q in src.maps && q in texts && texts[q] == toks
    requires src.maps[q].filled <= |toks|
    requires HashesOf(r, toks[..src.maps[q].filled], Offset(s, src.bs), src.bs) && i < |r.hashes|
    requires s + i < |src.maps[q].ids|
    ensures src.maps[q].ids[s + i] < |src.pool.blocks| && src.pool.blocks[src.maps[q].ids[s + i]].hash == r.hashes[i]
  {
    hide PoolOk, BlocksOk, TableOk, RegionsOk, Held, Spells, Offset, Inv;
    InvParts(src, texts, multiset{});
    var bm, bs := src.maps[q], src.bs;
    SpellsBounds(bs, src.pool.blocks, bm, toks);
    OffsetAdd(s, i, bs);
    EarlierFull(bs, src.pool.blocks, bm, toks, s + i);
    var n := Offset(s + i, bs) + bs;
    assert toks[..bm.filled][..n] == toks[..n];
  }

  /** Staged copies are exact: reserving never exhausts the destination, because exactly as many blocks
      are reserved as were checked for, and each pair has the same tokens and hash. */
  lemma ReserveCopySafe(src: Manager, dst: Manager, texts: Texts, q: SeqId, toks: seq<Token>, rid: RegionId)
    requires Inv(src, texts, multiset{}) && Inv(dst, texts, multiset{}) && src.bs == dst.bs
    requires q in texts && texts[q] == toks && rid !in dst.regions && src.Filled(q) <= |toks|
    ensures ReserveCopy(src, dst, q, toks, rid).Ok?
    ensures var (dst', plan) := ReserveCopy(src, dst, q, toks, rid).value;
      && Inv(dst', texts, multiset{})
      && dst'.bs == dst.bs && dst'.maps == dst.maps && dst'.table == dst.table
      && InUseSame(dst.pool, dst'.pool) && CopyExact(src, dst, q, toks, plan)
      && (plan.None? ==> dst' == dst)
      && (plan.Some? ==>
            && src.Filled(q) > dst.Filled(q) && plan.value.0.id == rid
            && dst'.regions == dst.regions[rid := plan.value.0.ids]
            && RegionCarries(dst', plan.value.0)
            && ExactPairs(src, dst', plan.value.0, plan.value.1))
  {
    hide Inv, Reserve, BlockRange, Whole, Offset, RegionCarries, HashesOf, CanAlloc, ExactPairs, Covering;
    WholeMonoBoth(src.Filled(q), dst.Filled(q), src.bs);
    if src.Filled(q) > dst.Filled(q) {
      var bm, bs := src.maps[q], src.bs;
      BlockRangeSpec(src, texts, q, dst.Filled(q), bm.filled, false);
      var s, e := Whole(dst.Filled(q), bs), Whole(bm.filled, bs);
      MappedBounds(src, texts, q);
      BlockIndexInList(bs, bm, bm.filled);
      if s < e {
        FullCheck(dst.pool, e - s);
      }
      if s < e && CanAlloc(dst.pool, e - s, 100) {
        FreeWithinPool(dst.pool, e - s, 100);
        WholeBounds(dst.Filled(q), bs);
        WholeAfter(bm.filled, s, bs);
        ReserveSafe(dst, texts, toks[..bm.filled], dst.Filled(q), rid);
        var (dst', r) := Reserve(dst, toks[..bm.filled], dst.Filled(q), rid).value;
        CarriesLengths(dst', r.value);
        PairsExact(src, dst', texts, q, toks, s, e, r.value);
        HashesLonger(r.value, toks, bm.filled, Offset(s, bs), bs);
        ZipCovers(bm.ids, r.value, toks, s, e, bs);
      }
    }
  }

  lemma WholeMonoBoth(a: nat, b: nat, bs: BlockSize)
    ensures a <= b ==> Whole(a, bs) <= Whole(b, bs)
  {
    if a <= b {
      WholeMono(a, b, bs);
    }
  }

  lemma MappedBounds(m: Manager, texts: Texts, q: SeqId)
    requires Inv(m, texts, multiset{}) && q in m.maps
    ensures q in texts && m.maps[q].filled <= m.maps[q].slots <= |texts[q]|
    ensures Covers(|m.maps[q].ids|, m.maps[q].slots, m.bs)
  {
    hide PoolOk, BlocksOk, TableOk, RegionsOk, Held, ListSpells, Covers;
    assert Spells(m.bs, m.pool.blocks, m.maps[q], texts[q]);
  }

  lemma PairsExact(src: Manager, dst: Manager, texts: Texts, q: SeqId, toks: seq<Token>, s: nat, e: nat, r: Region)
    requires Inv(src, texts, multiset{}) && Inv(dst, texts, multiset{}) && src.bs == dst.bs
    requires q in src.maps && q in texts && texts[q] == toks && src.maps[q].filled <= |toks|
    requires s < e <= |src.maps[q].ids| && |r.ids| == |r.hashes| == e - s
    requires RegionCarries(dst, r) && HashesOf(r, toks[..src.maps[q].filled], Offset(s, src.bs), src.bs)
    ensures ExactPairs(src, dst, r, Zip(src.maps[q].ids[s..e], r.ids))
  {
    hide Inv, PoolOk, TableOk, RegionsOk, MapsOk, Held, HashesOf, Offset, BlockOk;
    InvParts(src, texts, multiset{});
    InvParts(dst, texts, multiset{});
    var ids := src.maps[q].ids[s..e];
    var es := Zip(ids, r.ids);
    forall i | 0 <= i < |es|
      ensures es[i].dst == r.ids[i] && es[i].src < |src.pool.blocks| && es[i].dst < |dst.pool.blocks|
      ensures dst.pool.blocks[es[i].dst].SameContent(src.pool.blocks[es[i].src])
    {
      assert es[i] == Entry(src.maps[q].ids[s + i], r.ids[i]);
      SourceHash(src, texts, q, toks, s, i, r);
      SameHashSameTokens(src.bs, dst.pool.blocks[es[i].dst], src.pool.blocks[es[i].src]);
    }
  }
}
