/** Shared vocabulary: identifiers, tokens, hashes, panics, and the arithmetic of block sizes. */
module Prelude {
  type Token = nat
  type BlockId = nat
  type SeqId = nat
  type RegionId = nat
  type SessionId = nat

  /** Tokens per block. */
  type BlockSize = n: nat | n > 0 witness 16

  /** `compute_hash` applied to a token prefix, idealised as the prefix itself: injective, and
      never equal to the default hash `NoHash` that a block carries while it is not full. */
  datatype Hash = NoHash | Of(prefix: seq<Token>)

  datatype Option<+T> = None | Some(value: T)

  /** Every way in which the block engine can panic. */
  datatype Fault =
    | Exhausted          // no free block left
    | OutOfBounds        // block id outside the pool
    | AlreadyInUse       // a free-list entry names a used block
    | DoubleFree         // freeing a Free block whose count is positive
    | AlreadyInFreeList  // freeing a block that is already listed as free
    | BrokenFreeList     // a Free block that the free list does not hold
    | Underflow          // unsigned subtraction below zero
    | NoLastBlock        // a mapped sequence without a last block
    | BadRange           // cache range whose start passes its end
    | FilledPastSlots    // more filled tokens than allocated slots
    | DuplicateSession   // a session that is already pending
    | UnknownSession     // triggering a session that is not pending

  datatype Outcome<+T> = Ok(value: T) | Panic(fault: Fault) {
    predicate IsFailure() { Panic? }

    function PropagateFailure<U>(): Outcome<U>
      requires Panic?
    {
      Panic(fault)
    }

    function Extract(): T
      requires Ok?
    {
      value
    }
  }

  function Min(a: nat, b: nat): nat { if a <= b then a else b }

  /** `usize::div_ceil` */
  function DivCeil(n: nat, bs: nat): nat
    requires bs > 0
  {
    (n + bs - 1) / bs
  }

  /** The token offset of block `i`: `i * bs`, counted block by block. */
  function Offset(i: nat, bs: nat): nat {
    if i == 0 then 0 else Offset(i - 1, bs) + bs
  }

  lemma {:induction false} OffsetIsProduct(i: nat, bs: nat)
    ensures Offset(i, bs) == i * bs
  {
    if i > 0 {
      OffsetIsProduct(i - 1, bs);
      assert i * bs == (i - 1) * bs + bs;
    }
  }

  lemma {:induction false} OffsetMono(i: nat, j: nat, bs: nat)
    requires i <= j
    ensures Offset(i, bs) <= Offset(j, bs)
    ensures bs > 0 && i < j ==> Offset(i, bs) + bs <= Offset(j, bs)
  {
    if i < j {
      OffsetMono(i, j - 1, bs);
    }
  }

  lemma {:induction false} OffsetAdd(i: nat, j: nat, bs: nat)
    ensures Offset(i + j, bs) == Offset(i, bs) + Offset(j, bs)
  {
    if j > 0 {
      OffsetAdd(i, j - 1, bs);
    }
  }

  /** `k` blocks of `bs` slots are just enough for `n` tokens. */
  predicate Covers(k: nat, n: nat, bs: nat) {
    if k == 0 then n == 0 else Offset(k - 1, bs) < n <= Offset(k, bs)
  }

  lemma DivBounds(n: nat, bs: nat)
    requires bs > 0
    ensures Offset(n / bs, bs) <= n < Offset(n / bs, bs) + bs
  {
    OffsetIsProduct(n / bs, bs);
    assert n == bs * (n / bs) + n % bs;
  }

  lemma DivUnique(n: nat, k: nat, bs: nat)
    requires bs > 0 && Offset(k, bs) <= n < Offset(k, bs) + bs
    ensures n / bs == k
  {
    DivBounds(n, bs);
    var d := n / bs;
    if d < k {
      OffsetMono(d, k, bs);
    } else if d > k {
      OffsetMono(k, d, bs);
    }
  }

  /** The number of whole blocks in `n` tokens, `n / bs`, counted block by block. */
  function Whole(n: int, bs: nat): nat
    requires bs > 0
    decreases n
  {
    if n < bs then 0 else 1 + Whole(n - bs, bs)
  }

  lemma {:induction false} WholeBounds(n: nat, bs: nat)
    requires bs > 0
    ensures Offset(Whole(n, bs), bs) <= n < Offset(Whole(n, bs), bs) + bs
  {
    if n >= bs {
      WholeBounds(n - bs, bs);
    }
  }

  lemma WholeIsDiv(n: nat, bs: nat)
    requires bs > 0
    ensures Whole(n, bs) == n / bs
  {
    WholeBounds(n, bs);
    DivUnique(n, Whole(n, bs), bs);
  }

  lemma {:induction false} WholeMono(a: nat, b: nat, bs: nat)
    requires bs > 0 && a <= b
    ensures Whole(a, bs) <= Whole(b, bs)
  {
    if a >= bs {
      WholeMono(a - bs, b - bs, bs);
    }
  }

  lemma CoversUnique(k: nat, l: nat, n: nat, bs: nat)
    requires bs > 0 && Covers(k, n, bs) && Covers(l, n, bs)
    ensures k == l
  {
    if k < l {
      OffsetMono(k, l - 1, bs);
    } else if l < k {
      OffsetMono(l, k - 1, bs);
    }
  }

  lemma DivCeilCovers(n: nat, bs: nat)
    requires bs > 0
    ensures Covers(DivCeil(n, bs), n, bs)
  {
    var k := DivCeil(n, bs);
    DivBounds(n + bs - 1, bs);
    if n == 0 {
      DivUnique(bs - 1, 0, bs);
    }
  }

  /** `k` full blocks followed by `c` blocks that cover the remaining `n` tokens. */
  lemma CoversAppend(k: nat, c: nat, n: nat, bs: nat)
    requires bs > 0 && Covers(c, n, bs) && n > 0
    ensures Covers(k + c, Offset(k, bs) + n, bs)
  {
    OffsetAdd(k, c, bs);
    OffsetAdd(k, c - 1, bs);
  }

  lemma CoversExact(k: nat, bs: nat)
    requires bs > 0
    ensures Covers(k, Offset(k, bs), bs)
  {
  }
}
