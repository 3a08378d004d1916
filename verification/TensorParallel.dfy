/** Tensor-parallel layers in exact arithmetic
    (runtime/worker/llm_worker/models/parallel/layers.py, lines 136-157, 301-311 and 391-405;
    utils.py, lines 27-37 and 64-83; models/llama.py, lines 83-87; models/utils.py, lines 99-115). */
module TensorParallel {
  import opened Prelude

  type Vec = seq<real>
  type Mat = seq<Vec>

  // ---------------------------------------------------------------- partitions

  /** `divide_and_check_no_remainder`: `None` stands for the failing assertion. */
  function Divide(n: nat, world: nat): (r: Option<nat>)
    requires world > 0
    ensures r.Some? <==> n % world == 0
    ensures r.Some? ==> n == Offset(world, r.value)
  {
    if n % world == 0 then
      OffsetIsProduct(world, n / world);
      assert n == (n / world) * world;
      Some(n / world)
    else None
  }

  /** `vocab_range_from_per_partition_vocab_size`, and the slice bounds of `load_weights`. */
  function Range(per: nat, rank: nat): (nat, nat) { (Offset(rank, per), Offset(rank, per) + per) }

  /** The ranges of the ranks cover `[0, n)` and every index lies in exactly one of them. */
  lemma {:induction false} RangesPartition(per: nat, world: nat, i: nat)
    ensures (exists r: nat :: r < world && Range(per, r).0 <= i < Range(per, r).1) <==> i < Offset(world, per)
    ensures forall r: nat, q: nat :: Range(per, r).0 <= i < Range(per, r).1 && Range(per, q).0 <= i < Range(per, q).1 ==> r == q
  {
    forall r: nat, q: nat | Range(per, r).0 <= i < Range(per, r).1 && Range(per, q).0 <= i < Range(per, q).1
      ensures r == q
    {
      if r < q {
        OffsetMono(r, q, per);
      } else if q < r {
        OffsetMono(q, r, per);
      }
    }
    if i < Offset(world, per) {
      var r := RankOf(per, world, i);
      assert Range(per, r).0 <= i < Range(per, r).1;
    }
    forall r: nat | r < world && Range(per, r).0 <= i < Range(per, r).1
      ensures i < Offset(world, per)
    {
      OffsetMono(r + 1, world, per);
    }
  }

  lemma {:induction false} RankOf(per: nat, world: nat, i: nat) returns (r: nat)
    requires i < Offset(world, per)
    ensures r < world && Offset(r, per) <= i < Offset(r, per) + per
    decreases world
  {
    if Offset(world - 1, per) <= i {
      r := world - 1;
    } else {
      r := RankOf(per, world - 1, i);
    }
  }

  function Rows(w: Mat, per: nat, rank: nat): Mat
    requires Offset(rank, per) + per <= |w|
  {
    w[Offset(rank, per)..Offset(rank, per) + per]
  }

  // ---------------------------------------------------------------- vectors

  function Zeros(n: nat): Vec { seq(n, _ => 0.0) }

  function Add(x: Vec, y: Vec): Vec
    requires |x| == |y|
  {
    seq(|x|, i requires 0 <= i < |x| => x[i] + y[i])
  }

  function Dot(x: Vec, y: Vec): real
    requires |x| == |y|
  {
    if x == [] then 0.0 else Dot(x[..|x| - 1], y[..|y| - 1]) + x[|x| - 1] * y[|y| - 1]
  }

  /** `F.linear` without bias: `x` times the transpose of `w`. */
  function Linear(x: Vec, w: Mat): Vec
    requires forall i :: 0 <= i < |w| ==> |w[i]| == |x|
  {
    seq(|w|, i requires 0 <= i < |w| => Dot(x, w[i]))
  }

  lemma {:induction false} DotSplit(x: Vec, y: Vec, k: nat)
    requires |x| == |y| && k <= |x|
    ensures Dot(x, y) == Dot(x[..k], y[..k]) + Dot(x[k..], y[k..])
    decreases |x|
  {
    var n := |x|;
    if k == n {
      assert x[..k] == x && y[..k] == y;
    } else {
      DotSplit(x[..n - 1], y[..n - 1], k);
      assert x[..n - 1][..k] == x[..k] && y[..n - 1][..k] == y[..k];
      assert x[k..][..n - 1 - k] == x[..n - 1][k..] && y[k..][..n - 1 - k] == y[..n - 1][k..];
    }
  }

  // ---------------------------------------------------------------- vocabulary-parallel embedding

  /** The row a rank contributes for token `t`: its own row if the token is in its range, zero otherwise. */
  function ShardRow(shard: Mat, lo: nat, hi: nat, dim: nat, t: nat): Vec
    requires hi == lo + |shard|
  {
    if t < lo || t >= hi then Zeros(dim) else shard[t - lo]
  }

  /** The forward pass of one rank, masking inputs and outputs in place. */
  method EmbedShard(input: array<nat>, shard: Mat, lo: nat, hi: nat, dim: nat) returns (output: array<Vec>)
    requires hi == lo + |shard| && |shard| > 0
    ensures fresh(output) && output.Length == input.Length
    ensures forall i :: 0 <= i < input.Length ==> output[i] == ShardRow(shard, lo, hi, dim, input[i])
  {
    var n := input.Length;
    var mask := new bool[n];
    var masked := new int[n];
    output := new Vec[n];
    var i := 0;
    while i < n
      invariant 0 <= i <= n
      invariant forall k :: 0 <= k < i ==> mask[k] == (input[k] < lo || input[k] >= hi)
      invariant forall k :: 0 <= k < i ==> masked[k] == if mask[k] then 0 else input[k] - lo
    {
      mask[i] := input[i] < lo || input[i] >= hi;
      masked[i] := input[i] - lo;
      if mask[i] {
        masked[i] := 0;
      }
      i := i + 1;
    }
    i := 0;
    while i < n
      invariant 0 <= i <= n
      invariant forall k :: 0 <= k < n ==> mask[k] == (input[k] < lo || input[k] >= hi)
      invariant forall k :: 0 <= k < n ==> masked[k] == if mask[k] then 0 else input[k] - lo
      invariant forall k :: 0 <= k < i ==> output[k] == ShardRow(shard, lo, hi, dim, input[k])
    {
      output[i] := shard[masked[i]];
      if mask[i] {
        output[i] := Zeros(dim);
      }
      i := i + 1;
    }
  }

  predicate Shaped(w: Mat, dim: nat) {
    forall i :: 0 <= i < |w| ==> |w[i]| == dim
  }

  /** The sum of the first `world` ranks' rows for token `t`. */
  function EmbedReduce(w: Mat, per: nat, dim: nat, world: nat, t: nat): (r: Vec)
    requires Offset(world, per) <= |w| && Shaped(w, dim)
    ensures |r| == dim
    decreases world
  {
    if world == 0 then Zeros(dim)
    else
      var lo := Offset(world - 1, per);
      Add(EmbedReduce(w, per, dim, world - 1, t), ShardRow(Rows(w, per, world - 1), lo, lo + per, dim, t))
  }

  /** Summing the masked shards gives the full lookup for every token of the vocabulary; a token outside
      it yields zeros instead of the failure of an unsharded lookup. */
  lemma {:induction false} VocabParallelEmbedding(w: Mat, per: nat, dim: nat, world: nat, t: nat)
    requires Offset(world, per) <= |w| && Shaped(w, dim)
    ensures EmbedReduce(w, per, dim, world, t) == if t < Offset(world, per) then w[t] else Zeros(dim)
    decreases world
  {
    if world > 0 {
      VocabParallelEmbedding(w, per, dim, world - 1, t);
      var lo := Offset(world - 1, per);
      var row := ShardRow(Rows(w, per, world - 1), lo, lo + per, dim, t);
      var before := EmbedReduce(w, per, dim, world - 1, t);
      assert Add(before, row) == if t < lo then before else row;
    }
  }

  // ---------------------------------------------------------------- the parallel feed-forward block

  /** Activation of the gate, times the other projection, element by element. */
  function Gated(act: real -> real, g: Vec, u: Vec): Vec
    requires |g| == |u|
  {
    seq(|g|, i requires 0 <= i < |g| => act(g[i]) * u[i])
  }

  function Hidden(act: real -> real, x: Vec, gate: Mat, up: Mat): (h: Vec)
    requires Shaped(gate, |x|) && Shaped(up, |x|) && |gate| == |up|
    ensures |h| == |gate|
  {
    Gated(act, Linear(x, gate), Linear(x, up))
  }

  /** The unsharded feed-forward block. */
  function Mlp(act: real -> real, x: Vec, gate: Mat, up: Mat, down: Mat): Vec
    requires Shaped(gate, |x|) && Shaped(up, |x|) && |gate| == |up| && Shaped(down, |gate|)
  {
    Linear(Hidden(act, x, gate, up), down)
  }

  /** The columns of `w` that a rank holds. */
  function Columns(w: Mat, per: nat, rank: nat): Mat
    requires forall i :: 0 <= i < |w| ==> Offset(rank, per) + per <= |w[i]|
  {
    seq(|w|, i requires 0 <= i < |w| => w[i][Offset(rank, per)..Offset(rank, per) + per])
  }

  /** The contribution of one rank: column-parallel gate and up projections, row-parallel down. */
  function MlpShard(act: real -> real, x: Vec, gate: Mat, up: Mat, down: Mat, per: nat, rank: nat): Vec
    requires Shaped(gate, |x|) && Shaped(up, |x|) && |gate| == |up| && Shaped(down, |gate|)
    requires Offset(rank, per) + per <= |gate|
  {
    Mlp(act, x, Rows(gate, per, rank), Rows(up, per, rank), Columns(down, per, rank))
  }

  function MlpReduce(act: real -> real, x: Vec, gate: Mat, up: Mat, down: Mat, per: nat, world: nat): (r: Vec)
    requires Shaped(gate, |x|) && Shaped(up, |x|) && |gate| == |up| && Shaped(down, |gate|)
    requires Offset(world, per) <= |gate|
    ensures |r| == |down|
    decreases world
  {
    if world == 0 then Zeros(|down|)
    else Add(MlpReduce(act, x, gate, up, down, per, world - 1), MlpShard(act, x, gate, up, down, per, world - 1))
  }

  /** A column-parallel layer computes the rank's slice of the full output. */
  lemma ColumnSlice(x: Vec, w: Mat, per: nat, rank: nat)
    requires Shaped(w, |x|) && Offset(rank, per) + per <= |w|
    ensures Linear(x, Rows(w, per, rank)) == Linear(x, w)[Offset(rank, per)..Offset(rank, per) + per]
  {
    var lo := Offset(rank, per);
    forall i | 0 <= i < per
      ensures Linear(x, Rows(w, per, rank))[i] == Linear(x, w)[lo..lo + per][i]
    {
      assert Rows(w, per, rank)[i] == w[lo + i];
    }
  }

  /** `F.linear` with a bias. */
  function Affine(x: Vec, w: Mat, bias: Vec): Vec
    requires Shaped(w, |x|) && |bias| == |w|
  {
    Add(Linear(x, w), bias)
  }

  /** The gathered outputs of the first `world` ranks, each with its rows of the weight and of the bias. */
  function Gathered(x: Vec, w: Mat, bias: Vec, per: nat, world: nat): Vec
    requires Shaped(w, |x|) && |bias| == |w| && Offset(world, per) <= |w|
    decreases world
  {
    if world == 0 then []
    else
      var lo := Offset(world - 1, per);
      Gathered(x, w, bias, per, world - 1) + Affine(x, Rows(w, per, world - 1), bias[lo..lo + per])
  }

  /** With its part of the bias, too. */
  lemma AffineSlice(x: Vec, w: Mat, bias: Vec, per: nat, rank: nat)
    requires Shaped(w, |x|) && |bias| == |w| && Offset(rank, per) + per <= |w|
    ensures var lo := Offset(rank, per);
      Affine(x, Rows(w, per, rank), bias[lo..lo + per]) == Affine(x, w, bias)[lo..lo + per]
  {
    hide Dot, Linear, Offset;
    ColumnSlice(x, w, per, rank);
    LinearLength(x, w);
    AddSlice(Linear(x, w), bias, Offset(rank, per), Offset(rank, per) + per);
  }

  lemma AddSlice(x: Vec, y: Vec, lo: nat, hi: nat)
    requires |x| == |y| && lo <= hi <= |x|
    ensures Add(x[lo..hi], y[lo..hi]) == Add(x, y)[lo..hi]
  {
    forall i | 0 <= i < hi - lo
      ensures Add(x[lo..hi], y[lo..hi])[i] == Add(x, y)[lo..hi][i]
    {
    }
  }

  /** Gathering the outputs of all ranks of a column-parallel layer gives the output of the whole layer. */
  lemma {:induction false} ColumnParallelLinear(x: Vec, w: Mat, bias: Vec, per: nat, world: nat)
    requires Shaped(w, |x|) && |bias| == |w| && Offset(world, per) <= |w|
    ensures |Affine(x, w, bias)| == |w| && Gathered(x, w, bias, per, world) == Affine(x, w, bias)[..Offset(world, per)]
    decreases world
  {
    hide Dot, Linear;
    LinearLength(x, w);
    if world > 0 {
      var lo, all := Offset(world - 1, per), Affine(x, w, bias);
      ColumnParallelLinear(x, w, bias, per, world - 1);
      AffineSlice(x, w, bias, per, world - 1);
      assert all[..lo] + all[lo..lo + per] == all[..lo + per];
    }
  }

  /** A rank's hidden values are its slice of the full ones. */
  lemma HiddenSlice(act: real -> real, x: Vec, gate: Mat, up: Mat, per: nat, rank: nat)
    requires Shaped(gate, |x|) && Shaped(up, |x|) && |gate| == |up| && Offset(rank, per) + per <= |gate|
    ensures Hidden(act, x, Rows(gate, per, rank), Rows(up, per, rank)) ==
      Hidden(act, x, gate, up)[Offset(rank, per)..Offset(rank, per) + per]
  {
    hide Dot, Linear, Offset;
    ColumnSlice(x, gate, per, rank);
    ColumnSlice(x, up, per, rank);
    LinearLength(x, gate);
    LinearLength(x, up);
    GatedSlice(act, Linear(x, gate), Linear(x, up), Offset(rank, per), Offset(rank, per) + per);
  }

  lemma LinearLength(x: Vec, w: Mat)
    requires Shaped(w, |x|)
    ensures |Linear(x, w)| == |w|
  {
  }

  lemma GatedSlice(act: real -> real, g: Vec, u: Vec, lo: nat, hi: nat)
    requires |g| == |u| && lo <= hi <= |g|
    ensures Gated(act, g[lo..hi], u[lo..hi]) == Gated(act, g, u)[lo..hi]
  {
    forall i | 0 <= i < hi - lo
      ensures Gated(act, g[lo..hi], u[lo..hi])[i] == Gated(act, g, u)[lo..hi][i]
    {
    }
  }

  /** A rank's contribution to output `j` is the product over the columns it holds. */
  lemma ShardProduct(act: real -> real, x: Vec, gate: Mat, up: Mat, down: Mat, per: nat, rank: nat, j: nat)
    requires Shaped(gate, |x|) && Shaped(up, |x|) && |gate| == |up| && Shaped(down, |gate|)
    requires Offset(rank, per) + per <= |gate| && j < |down|
    ensures var lo := Offset(rank, per); var hi := lo + per;
      MlpShard(act, x, gate, up, down, per, rank)[j] == Dot(Hidden(act, x, gate, up)[lo..hi], down[j][lo..hi])
  {
    hide Dot, Hidden, Offset;
    HiddenSlice(act, x, gate, up, per, rank);
  }

  /** A row-parallel layer: the partial products of the first ranks add up to the product over the
      columns they hold. */
  lemma {:induction false} ReduceIsPrefixProduct(act: real -> real, x: Vec, gate: Mat, up: Mat, down: Mat, per: nat,
                                                 world: nat, j: nat)
    requires Shaped(gate, |x|) && Shaped(up, |x|) && |gate| == |up| && Shaped(down, |gate|)
    requires Offset(world, per) <= |gate| && j < |down|
    ensures MlpReduce(act, x, gate, up, down, per, world)[j] ==
      Dot(Hidden(act, x, gate, up)[..Offset(world, per)], down[j][..Offset(world, per)])
    decreases world
  {
    hide Hidden, MlpShard;
    if world > 0 {
      ReduceIsPrefixProduct(act, x, gate, up, down, per, world - 1, j);
      ShardProduct(act, x, gate, up, down, per, world - 1, j);
      DotUpTo(Hidden(act, x, gate, up), down[j], Offset(world - 1, per), Offset(world, per));
    }
  }

  lemma DotUpTo(h: Vec, row: Vec, lo: nat, hi: nat)
    requires |h| == |row| && lo <= hi <= |h|
    ensures Dot(h[..hi], row[..hi]) == Dot(h[..lo], row[..lo]) + Dot(h[lo..hi], row[lo..hi])
  {
    DotSplit(h[..hi], row[..hi], lo);
    assert h[..hi][..lo] == h[..lo] && h[..hi][lo..] == h[lo..hi];
    assert row[..hi][..lo] == row[..lo] && row[..hi][lo..] == row[lo..hi];
  }

  /** Tensor-parallel equivalence of the feed-forward block, for every world size that divides the
      intermediate dimension (`Divide` yields `per` for exactly these) and every activation. */
  lemma ParallelMlpIsMlp(act: real -> real, x: Vec, gate: Mat, up: Mat, down: Mat, per: nat, world: nat)
    requires Shaped(gate, |x|) && Shaped(up, |x|) && |gate| == |up| && Shaped(down, |gate|)
    requires |gate| == Offset(world, per)
    ensures MlpReduce(act, x, gate, up, down, per, world) == Mlp(act, x, gate, up, down)
  {
    hide Hidden, MlpReduce, Dot, Offset;
    forall j | 0 <= j < |down|
      ensures MlpReduce(act, x, gate, up, down, per, world)[j] == Mlp(act, x, gate, up, down)[j]
    {
      ReduceIsPrefixProduct(act, x, gate, up, down, per, world, j);
      assert Hidden(act, x, gate, up)[..|gate|] == Hidden(act, x, gate, up) && down[j][..|gate|] == down[j];
    }
  }
}
