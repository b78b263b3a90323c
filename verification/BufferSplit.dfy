/**
 How one registered buffer is split over the QPs of a connection, or one message size
 over the threads of a run: equal shares, the remainder going to index 0.
 */
module BufferSplit {

  // Share of index `k` when `size` is split `n` ways.
  function Share(size: nat, n: nat, k: nat): nat
    requires 1 <= n
  {
    if k == 0 then size / n + size % n else size / n
  }

  lemma DivMod(size: nat, n: nat)
    requires 1 <= n
    ensures (size / n) * n + size % n == size
  {
  }

  // The share of index 0 as the program computes it: what the others leave.
  lemma FirstShare(size: nat, n: nat)
    requires 1 <= n
    ensures size - (size / n) * (n - 1) == Share(size, n, 0)
  {
    DivMod(size, n);
    assert (size / n) * n == (size / n) * (n - 1) + size / n;
  }

  lemma {:induction false} NextMultiple(q: nat, i: nat, j: nat)
    requires i < j
    ensures q * i + q <= q * j
    decreases j
  {
    assert q * j == q * (j - 1) + q;
    if i < j - 1 {
      NextMultiple(q, i, j - 1);
    }
  }

  lemma Monotone(q: nat, i: nat, j: nat)
    ensures i <= j ==> q * i <= q * j
  {
    if i < j {
      NextMultiple(q, i, j);
    }
  }

  lemma {:induction false} TailStart(q: nat, n: nat)
    requires 1 <= q && 1 <= n
    ensures q + n - 1 <= q * n
  {
    if n > 1 {
      assert q * n == q * (n - 1) + q;
      TailStart(q, n - 1);
    }
  }

  // The slice of width `q` that byte `b` falls in.
  lemma ByteIndex(q: nat, n: nat, b: nat) returns (k: nat)
    requires b < q * n
    ensures k < n && k * q <= b < k * q + q
  {
    k := b / q;
    assert b == q * k + b % q;
    Monotone(q, n, k);
  }

  function Shares(size: nat, n: nat): seq<nat>
    requires 1 <= n
  {
    seq(n, k requires 0 <= k < n => Share(size, n, k))
  }

  // The loop of `pp_init_ctx` (and of the thread launcher) that fills the share table.
  method FillShares(size: nat, n: nat) returns (share: array<nat>)
    requires 1 <= n
    ensures fresh(share) && share[..] == Shares(size, n)
  {
    share := new nat[n](_ => 0);
    var regular := size / n;
    for i := 1 to n
      invariant share.Length == n
      invariant forall k :: 1 <= k < i ==> share[k] == regular
    {
      share[i] := regular;
    }
    FirstShare(size, n);
    var first := size - regular * (n - 1);
    share[0] := first;
    assert share[..] == Shares(size, n);
  }

  function Total(shares: seq<nat>): nat {
    if shares == [] then 0 else Total(shares[..|shares| - 1]) + shares[|shares| - 1]
  }

  lemma {:induction false} PrefixTotal(size: nat, n: nat, j: nat)
    requires 1 <= j <= n
    ensures Total(Shares(size, n)[..j]) == Share(size, n, 0) + (size / n) * (j - 1)
  {
    var prefix := Shares(size, n)[..j];
    assert prefix[..j - 1] == Shares(size, n)[..j - 1];
    if j > 1 {
      PrefixTotal(size, n, j - 1);
      assert (size / n) * (j - 1) == (size / n) * (j - 2) + size / n;
    } else {
      assert prefix[..0] == [];
    }
  }

  /** The shares add up to the whole. */
  lemma SharesSum(size: nat, n: nat)
    requires 1 <= n
    ensures Total(Shares(size, n)) == size
  {
    PrefixTotal(size, n, n);
    FirstShare(size, n);
    assert Shares(size, n)[..n] == Shares(size, n);
  }

  // Where the slice of QP `k` starts: its own share times its index.
  function Offset(size: nat, n: nat, k: nat): nat
    requires 1 <= n
  {
    Share(size, n, k) * k
  }

  predicate InSlice(size: nat, n: nat, k: nat, b: int)
    requires 1 <= n
  {
    Offset(size, n, k) <= b < Offset(size, n, k) + Share(size, n, k)
  }

  lemma SliceOfWidth(size: nat, n: nat, k: nat)
    requires 1 <= n && (k > 0 || size % n == 0)
    ensures Offset(size, n, k) == k * (size / n) && Share(size, n, k) == size / n
  {
  }

  lemma RegularSliceEnds(size: nat, n: nat, k: nat)
    requires 1 <= k < n
    ensures (size / n) * k + size / n <= size
  {
    NextMultiple(size / n, k, n);
    DivMod(size, n);
  }

  lemma TailFits(size: nat, n: nat)
    requires 1 <= n
    ensures size / n + size % n <= size
  {
    FirstShare(size, n);
    assert (size / n) * (n - 1) >= 0;
  }

  /** Every slice lies inside the registered region. */
  lemma SliceInRegion(size: nat, n: nat, k: nat)
    requires k < n
    ensures Offset(size, n, k) + Share(size, n, k) <= size
  {
    if k == 0 {
      TailFits(size, n);
    } else {
      RegularSliceEnds(size, n, k);
    }
  }

  /** The slices of QPs 1 to `n - 1` do not overlap. */
  lemma SlicesDisjoint(size: nat, n: nat, i: nat, j: nat)
    requires 1 <= i < j < n
    ensures Offset(size, n, i) + Share(size, n, i) <= Offset(size, n, j)
  {
    NextMultiple(size / n, i, j);
  }

  // Byte `b` belongs to exactly one slice.
  ghost predicate InOneSlice(size: nat, n: nat, b: int)
    requires 1 <= n
  {
    exists k: nat :: k < n && InSlice(size, n, k, b)
      && forall j: nat :: j < n && InSlice(size, n, j, b) ==> j == k
  }

  ghost predicate Tiles(size: nat, n: nat)
    requires 1 <= n
  {
    forall b :: 0 <= b < size ==> InOneSlice(size, n, b)
  }

  lemma EvenSlices(size: nat, n: nat, b: nat)
    requires 1 <= n && size % n == 0 && b < size
    ensures InOneSlice(size, n, b)
  {
    var q := size / n;
    assert size == q * n;
    var k := ByteIndex(q, n, b);
    SliceOfWidth(size, n, k);
    assert InSlice(size, n, k, b);
    forall j: nat | j < n && InSlice(size, n, j, b)
      ensures j == k
    {
      SliceOfWidth(size, n, j);
      if j < k {
        NextMultiple(q, j, k);
      } else if k < j {
        NextMultiple(q, k, j);
      }
    }
  }

  lemma OnlySliceZero(size: nat, n: nat, b: nat)
    requires 1 <= n && size < n && b < size
    ensures InOneSlice(size, n, b)
  {
    assert size / n == 0;
    assert InSlice(size, n, 0, b);
  }

  /**
   The slices tile the region, every byte in exactly one of them, if and only if the
   split is even or there are fewer bytes than slices.
   */
  lemma TilesExactly(size: nat, n: nat)
    requires 1 <= n
    ensures Tiles(size, n) <==> size % n == 0 || size < n
  {
    if size % n == 0 {
      forall b: nat | b < size ensures InOneSlice(size, n, b) { EvenSlices(size, n, b); }
    } else if size < n {
      forall b: nat | b < size ensures InOneSlice(size, n, b) { OnlySliceZero(size, n, b); }
    } else {
      var q := size / n;
      assert size == q * n + size % n;
      assert q >= 1;
      assert n >= 2;
      assert InSlice(size, n, 0, q);
      assert InSlice(size, n, 1, q);
      assert !InOneSlice(size, n, q);
      SliceInRegion(size, n, 1);
    }
  }

  /**
   Slices 0 and 1 have a byte in common if and only if the split is uneven and slice 1 is
   not empty.
   */
  lemma OverlapExactly(size: nat, n: nat)
    requires 2 <= n
    ensures (exists b: int :: InSlice(size, n, 0, b) && InSlice(size, n, 1, b))
            <==> size % n != 0 && n <= size
  {
    var q := size / n;
    DivMod(size, n);
    if size % n != 0 && n <= size {
      assert q >= 1;
      assert InSlice(size, n, 0, q) && InSlice(size, n, 1, q);
    } else if size < n {
      assert q == 0;
    }
  }

  lemma SliceBeforeTail(size: nat, n: nat, b: nat)
    requires 2 <= n <= size && b < (size / n) * n
    ensures exists k: nat :: k < n && InSlice(size, n, k, b)
  {
    var k := ByteIndex(size / n, n, b);
    if k > 0 {
      SliceOfWidth(size, n, k);
    }
    assert InSlice(size, n, k, b);
  }

  lemma NoSliceInTail(size: nat, n: nat, b: nat, k: nat)
    requires 2 <= n <= size && (size / n) * n <= b && k < n
    ensures !InSlice(size, n, k, b)
  {
    if k > 0 {
      SliceOfWidth(size, n, k);
      NextMultiple(size / n, k, n);
    } else {
      TailStart(size / n, n);
    }
  }

  /**
   The bytes in no slice, which no message carries: the last `size % n` of them when the
   region has a slice of its own for each of several QPs, and none otherwise.
   */
  lemma UnusedTail(size: nat, n: nat, b: nat)
    requires 1 <= n && b < size
    ensures (forall k: nat :: k < n ==> !InSlice(size, n, k, b))
            <==> 2 <= n <= size && b >= size - size % n
  {
    DivMod(size, n);
    if size < n {
      OnlySliceZero(size, n, b);
    } else if n == 1 {
      EvenSlices(size, n, b);
    } else if b < (size / n) * n {
      SliceBeforeTail(size, n, b);
    } else {
      forall k: nat | k < n
        ensures !InSlice(size, n, k, b)
      {
        NoSliceInTail(size, n, b, k);
      }
    }
  }
}
