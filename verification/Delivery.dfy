/** What a triggered request finds of the blocks that were transferred for it
    (runtime/src/llm_engine/scheduler.rs, lines 197-219; block_manager.rs, lines 587-609). */
module Delivery {
  import opened Prelude
  import opened BlockPool
  import opened BlockManagerSpec
  import opened BlockManagerInv
  import opened PrefixCache
  import opened Regions
  import opened BlockManagerRuns
  import opened Allocation
  import opened Lifecycle
  import T = Transfer

  /** The hash is found once the blocks `sent` are activated. */
  predicate Found(m: Manager, sent: seq<Hash>, h: Hash) {
    (h in sent && h !in m.table) || Lookup(m, h).Some?
  }

  /** How many consecutive chunks of the text are found then, from offset `off` on. */
  function FoundRun(m: Manager, sent: seq<Hash>, toks: seq<Token>, off: nat): nat
    decreases |toks| - off
  {
    if off + m.bs <= |toks| && Found(m, sent, Of(toks[..off + m.bs])) then 1 + FoundRun(m, sent, toks, off + m.bs) else 0
  }

  lemma {:induction false} FoundHits(m: Manager, m': Manager, sent: seq<Hash>, toks: seq<Token>, off: nat)
    requires m'.bs == m.bs && forall h :: Lookup(m', h).Some? <==> Found(m, sent, h)
    ensures |HitsFrom(m', toks, off)| == FoundRun(m, sent, toks, off)
    decreases |toks| - off
  {
    hide Lookup, Found;
    if off + m.bs <= |toks| && Found(m, sent, Of(toks[..off + m.bs])) {
      FoundHits(m, m', sent, toks, off + m.bs);
    }
  }

  /** The hash of chunk `i`. */
  function ChunkHash(toks: seq<Token>, bs: BlockSize, i: nat): Hash {
    if Offset(i, bs) + bs <= |toks| then Of(toks[..Offset(i, bs) + bs]) else NoHash
  }

  /** The run reaches chunk `n` exactly if everything before is found. */
  lemma {:induction false} RunReaches(m: Manager, sent: seq<Hash>, toks: seq<Token>, k: nat, n: nat)
    requires k <= n && Offset(n, m.bs) <= |toks|
    ensures k + FoundRun(m, sent, toks, Offset(k, m.bs)) >= n <==>
      forall i :: k <= i < n ==> Found(m, sent, ChunkHash(toks, m.bs, i))
    decreases n - k
  {
    hide Found;
    if k < n {
      OffsetMono(k, n, m.bs);
      RunReaches(m, sent, toks, k + 1, n);
      assert Offset(k + 1, m.bs) == Offset(k, m.bs) + m.bs;
      assert ChunkHash(toks, m.bs, k) == Of(toks[..Offset(k, m.bs) + m.bs]);
    }
  }

  /** The received region of a transfer that is to be triggered for sequence `q`, reserved for its text. */
  ghost predicate Awaits(s: T.System, q: SeqId, toks: seq<Token>) {
    && T.SystemOk(s) && s.phase.Unpinned? && HashesOf(s.phase.dst, toks, 0, s.dst.m.bs)
    && (q in s.dst.m.maps ==> q in s.dst.texts && s.dst.texts[q] <= toks && Settled(s.dst.m.bs, s.dst.m.maps[q]))
  }

  /** What is found after activation. */
  lemma Activated(s: T.System, q: SeqId, toks: seq<Token>)
    requires Awaits(s, q, toks)
    ensures Activate(s.dst.m, s.phase.dst.id, s.phase.src.hashes).Ok?
    ensures var m' := Activate(s.dst.m, s.phase.dst.id, s.phase.src.hashes).value.0;
      && Inv(m', s.dst.texts, multiset{}) && m'.bs == s.dst.m.bs && m'.maps == s.dst.m.maps
      && forall h :: Lookup(m', h).Some? <==> Found(s.dst.m, s.phase.src.hashes, h)
  {
    hide Inv, Activate, CountCarried, Published, SameContents, T.DistinctHashes, T.Holds, RegionCarries, Lookup,
      HashesOf, Settled;
    var m, src, dst := s.dst.m, s.phase.src, s.phase.dst;
    ActivateSafe(m, s.dst.texts, dst.id, src.hashes);
    var m' := Activate(m, dst.id, src.hashes).value.0;
    forall h
      ensures Lookup(m', h).Some? <==> Found(m, src.hashes, h)
    {
      T.FoundAfter(m, m', dst, src.hashes, (set x | x in src.hashes), h);
    }
  }

  /** Triggering takes over the run of chunks that are found, which may end before the last one that was
      transferred: all of these count as filled if and only if each one behind those that the sequence
      has had no entry in the table before, or was found there before. */
  lemma TriggerFills(s: T.System, q: SeqId, toks: seq<Token>)
    requires Awaits(s, q, toks)
    ensures TriggerOn(s.dst.m, q, toks, Some(s.phase.dst.id), s.phase.src.hashes).Ok?
    ensures
      var m, sent, k := s.dst.m, s.phase.src.hashes, |MapOf(s.dst.m, q).ids|;
      var m' := TriggerOn(m, q, toks, Some(s.phase.dst.id), sent).value;
      && q in m'.maps && m'.maps[q].filled == Offset(k + FoundRun(m, sent, toks, Offset(k, m.bs)), m.bs)
      && (m'.maps[q].filled >= Offset(|sent|, m.bs) <==>
          forall i :: k <= i < |sent| ==> sent[i] !in m.table || Lookup(m, sent[i]).Some?)
  {
    hide Inv, Activate, UpdatePrefix, Lookup, HitsFrom, FoundRun, T.SystemOk, Found, Offset, Pinned, HashesOf, Settled,
      ChunkHash;
    var m, sent, k := s.dst.m, s.phase.src.hashes, |MapOf(s.dst.m, q).ids|;
    Activated(s, q, toks);
    var m1 := Activate(m, s.phase.dst.id, sent).value.0;
    UpdatePrefixSafe(m1, s.dst.texts, q, toks);
    var run := FoundRun(m, sent, toks, Offset(k, m.bs));
    FoundHits(m, m1, sent, toks, Offset(k, m.bs));
    Reaches(s, q, toks, k + run);
    SentFound(s, q, toks, k);
  }

  /** Filled lengths are counted in blocks. */
  lemma Reaches(s: T.System, q: SeqId, toks: seq<Token>, blocks: nat)
    requires Awaits(s, q, toks)
    ensures Offset(blocks, s.dst.m.bs) >= Offset(|s.phase.src.hashes|, s.dst.m.bs) <==> blocks >= |s.phase.src.hashes|
  {
    hide T.SystemOk, HashesOf, Settled, Offset;
    var n := |s.phase.src.hashes|;
    if blocks < n {
      OffsetMono(blocks, n, s.dst.m.bs);
    } else {
      OffsetMono(n, blocks, s.dst.m.bs);
    }
  }

  lemma SentFound(s: T.System, q: SeqId, toks: seq<Token>, k: nat)
    requires Awaits(s, q, toks)
    ensures var m, sent := s.dst.m, s.phase.src.hashes;
      k + FoundRun(m, sent, toks, Offset(k, m.bs)) >= |sent| <==>
        forall i :: k <= i < |sent| ==> sent[i] !in m.table || Lookup(m, sent[i]).Some?
  {
    hide Inv, Lookup, FoundRun, T.NodeOk, T.Open, T.Holds, T.DistinctHashes, Settled;
    var m, sent, dst := s.dst.m, s.phase.src.hashes, s.phase.dst;
    var n := |sent|;
    forall i | 0 <= i < n
      ensures sent[i] == ChunkHash(toks, m.bs, i)
      ensures Found(m, sent, ChunkHash(toks, m.bs, i)) <==> sent[i] !in m.table || Lookup(m, sent[i]).Some?
    {
      assert sent[i] == dst.hashes[i];
      assert sent[i] in sent;
    }
    if n > 0 {
      assert 0 + Offset(n - 1, m.bs) + m.bs <= |toks|;
    }
    if k <= n {
      RunReaches(m, sent, toks, k, n);
    }
  }
}
