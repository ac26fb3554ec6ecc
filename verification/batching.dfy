/**
  Consecutive fixed-size batching of a sequence, the concatenation that undoes
  it, and the in-order accumulation of a batch provider's replies.
 */
module Batching {

  function Min(a: int, b: int): int {
    if a <= b then a else b
  }

  /**
    The batches `xs[0:size]`, `xs[size:2*size]`, ... of Python slicing: cut
    from the front until nothing is left.
   */
  function Batches<T>(xs: seq<T>, size: nat): (bs: seq<seq<T>>)
    requires size > 0
    ensures |bs| == 0 <==> |xs| == 0
    decreases |xs|
  {
    if |xs| == 0 then []
    else
      var n := Min(size, |xs|);
      [xs[..n]] + Batches(xs[n..], size)
  }

  /** Concatenation of a sequence of sequences, in order. */
  function Flatten<T>(bs: seq<seq<T>>): seq<T>
    decreases |bs|
  {
    if |bs| == 0 then [] else bs[0] + Flatten(bs[1..])
  }

  /** The provider's replies to each batch, concatenated in batch order. */
  function EmbedAll<T, V>(embed: seq<T> -> seq<V>, bs: seq<seq<T>>): (vs: seq<V>)
    ensures (forall k :: 0 <= k < |bs| ==> |embed(bs[k])| == |bs[k]|) ==> |vs| == |Flatten(bs)|
    decreases |bs|
  {
    if |bs| == 0 then [] else embed(bs[0]) + EmbedAll(embed, bs[1..])
  }

  /** Applies a per-item function to every item, keeping positions. */
  function MapSeq<T, V>(f: T -> V, xs: seq<T>): (ys: seq<V>)
    ensures |ys| == |xs|
    ensures forall i :: 0 <= i < |xs| ==> ys[i] == f(xs[i])
  {
    seq(|xs|, i requires 0 <= i < |xs| => f(xs[i]))
  }

  /**
    The provider answers every request with one vector per input, in request
    order, and the vector of an input depends on that input alone.
   */
  ghost predicate OrderFaithful<T(!new), V>(embed: seq<T> -> seq<V>, one: T -> V) {
    forall b :: embed(b) == MapSeq(one, b)
  }

  /** Concatenating the batches gives back the input. */
  lemma {:induction false} FlattenBatches<T>(xs: seq<T>, size: nat)
    requires size > 0
    ensures Flatten(Batches(xs, size)) == xs
    decreases |xs|
  {
    if |xs| > 0 {
      var n := Min(size, |xs|);
      FlattenBatches(xs[n..], size);
      assert xs[..n] + xs[n..] == xs;
    }
  }

  /**
    Every batch is non-empty and holds at most `size` items; every batch but
    the last holds exactly `size`.
   */
  ghost predicate WellSized<T>(bs: seq<seq<T>>, size: nat) {
    forall k :: 0 <= k < |bs| ==>
      0 < |bs[k]| <= size && (k < |bs| - 1 ==> |bs[k]| == size)
  }

  /** Cutting from the front yields well-sized batches. */
  lemma {:induction false} BatchSizes<T>(xs: seq<T>, size: nat)
    requires size > 0
    ensures WellSized(Batches(xs, size), size)
    decreases |xs|
  {
    if |xs| > 0 {
      var n := Min(size, |xs|);
      var bs := Batches(xs, size);
      var ts := Batches(xs[n..], size);
      assert bs == [xs[..n]] + ts;
      BatchSizes(xs[n..], size);
      forall k | 0 <= k < |bs|
        ensures 0 < |bs[k]| <= size && (k < |bs| - 1 ==> |bs[k]| == size)
      {
        if k == 0 {
          if |bs| > 1 {
            assert |ts| > 0;
            assert |xs[n..]| > 0;
          }
        } else {
          assert bs[k] == ts[k - 1];
        }
      }
    }
  }

  /**
    `q` is the ceiling of `n / d`: `q` batches of `d` hold `n` items and
    `q - 1` batches would not.
   */
  ghost predicate IsCeilDiv(q: nat, n: nat, d: nat) {
    q * d >= n && (q > 0 ==> (q - 1) * d < n)
  }

  /** The number of batches is the ceiling of `|xs| / size`, zero exactly for empty input. */
  lemma {:induction false} BatchCount<T>(xs: seq<T>, size: nat)
    requires size > 0
    ensures IsCeilDiv(|Batches(xs, size)|, |xs|, size)
    ensures |Batches(xs, size)| == (|xs| + size - 1) / size
    ensures |Batches(xs, size)| == 0 <==> |xs| == 0
    decreases |xs|
  {
    if |xs| > 0 {
      var n := Min(size, |xs|);
      BatchCount(xs[n..], size);
      var count := |Batches(xs, size)|;
      var rest := |Batches(xs[n..], size)|;
      assert count == rest + 1;
      assert count * size == rest * size + size;
      if |xs| <= size {
        assert rest == 0;
        DivOne(|xs| + size - 1, size);
      } else {
        assert (count - 1) * size == rest * size;
        DivShift(|xs| - 1, size);
      }
    }
  }

  /** A number in `[d, 2d)` divided by `d` is one. */
  lemma DivOne(a: int, d: int)
    requires d > 0 && d <= a < 2 * d
    ensures a / d == 1
  {
  }

  /** Adding the divisor adds one to the quotient. */
  lemma DivShift(a: int, d: int)
    requires d > 0 && a >= 0
    ensures (a + d) / d == a / d + 1
  {
    var q, r := a / d, a % d;
    assert a == d * q + r && 0 <= r < d;
    assert a + d == d * (q + 1) + r;
    DivUnique(a + d, d, q + 1, r);
  }

  /** The quotient is determined by any decomposition with a remainder in `[0, d)`. */
  lemma DivUnique(x: int, d: int, q: int, r: int)
    requires d > 0 && 0 <= r < d && x == d * q + r
    ensures x / d == q
  {
    var q', r' := x / d, x % d;
    var k := q - q';
    assert d * k == d * q - d * q';
    MulBounds(d, k);
  }

  /** A non-zero multiple of `d` is at least `d` away from zero. */
  lemma MulBounds(d: int, k: int)
    requires d > 0
    ensures k >= 1 ==> d * k >= d
    ensures k <= -1 ==> d * k <= -d
  {
  }

  /**
    Batch `k` is the slice `xs[k*size : (k+1)*size]`, clipped to the end of
    `xs`, and it starts inside `xs`.
   */
  ghost predicate SlicesOf<T>(bs: seq<seq<T>>, xs: seq<T>, size: nat) {
    forall k :: 0 <= k < |bs| ==>
      k * size < |xs| && bs[k] == xs[k * size .. Min((k + 1) * size, |xs|)]
  }

  /** The batches are the consecutive slices at offsets 0, `size`, `2*size`, ... */
  lemma {:induction false} BatchesAreSlices<T>(xs: seq<T>, size: nat)
    requires size > 0
    ensures SlicesOf(Batches(xs, size), xs, size)
    decreases |xs|
  {
    if |xs| > 0 {
      var n := Min(size, |xs|);
      var tail := xs[n..];
      var bs := Batches(xs, size);
      var ts := Batches(tail, size);
      assert bs == [xs[..n]] + ts;
      BatchesAreSlices(tail, size);
      forall k | 0 <= k < |bs|
        ensures k * size < |xs| && bs[k] == xs[k * size .. Min((k + 1) * size, |xs|)]
      {
        if k > 0 {
          SliceOfTail(xs, size, k, ts[k - 1]);
        }
      }
    }
  }

  /** Slice `k - 1` of `xs[size..]` is slice `k` of `xs`. */
  lemma SliceOfTail<T>(xs: seq<T>, size: nat, k: nat, b: seq<T>)
    requires 0 < size < |xs| && k > 0
    requires (k - 1) * size < |xs| - size
    requires b == xs[size..][(k - 1) * size .. Min(k * size, |xs| - size)]
    ensures k * size < |xs| && b == xs[k * size .. Min((k + 1) * size, |xs|)]
  {
  }

  /** Accumulating one more batch appends that batch's reply. */
  lemma {:induction false} EmbedAllAppend<T, V>(embed: seq<T> -> seq<V>, bs: seq<seq<T>>, b: seq<T>)
    ensures EmbedAll(embed, bs + [b]) == EmbedAll(embed, bs) + embed(b)
    decreases |bs|
  {
    if |bs| > 0 {
      assert (bs + [b])[1..] == bs[1..] + [b];
      EmbedAllAppend(embed, bs[1..], b);
    }
  }

  /**
    When the provider is order-faithful, the accumulated replies are the
    per-item vectors of the concatenated batches, position by position.
   */
  lemma {:induction false} EmbedAllFaithful<T(!new), V>(embed: seq<T> -> seq<V>, one: T -> V, bs: seq<seq<T>>)
    requires OrderFaithful(embed, one)
    ensures EmbedAll(embed, bs) == MapSeq(one, Flatten(bs))
    decreases |bs|
  {
    if |bs| > 0 {
      EmbedAllFaithful(embed, one, bs[1..]);
      assert embed(bs[0]) == MapSeq(one, bs[0]);
    }
  }

  /**
    With an order-faithful provider, embedding `xs` batch by batch yields one
    vector per item, and row `i` is the vector of item `i`.
   */
  lemma {:induction false} RowsMatchInputs<T(!new), V>(xs: seq<T>, size: nat, embed: seq<T> -> seq<V>, one: T -> V)
    requires size > 0 && OrderFaithful(embed, one)
    ensures var rows := EmbedAll(embed, Batches(xs, size));
      |rows| == |xs| && forall i :: 0 <= i < |xs| ==> rows[i] == one(xs[i])
  {
    EmbedAllFaithful(embed, one, Batches(xs, size));
    FlattenBatches(xs, size);
  }
}
