/**
 * Cutting a transaction group's record list into consecutive slices of at
 * most `batchSize` records (the split loop of poll).
 */
module Batching {
  import opened JavaMath

  /** The slices: the first `size` elements, then the slices of the rest. */
  function Slices<T>(xs: seq<T>, size: nat): seq<seq<T>>
    requires size >= 1
    decreases |xs|
  {
    if xs == [] then []
    else
      var e := Min(size, |xs|);
      [xs[..e]] + Slices(xs[e..], size)
  }

  /** The concatenation of a list of lists, in order. */
  function Flatten<T>(xss: seq<seq<T>>): seq<T>
  {
    if xss == [] then [] else xss[0] + Flatten(xss[1..])
  }

  lemma {:induction false} FlattenAppend<T>(a: seq<seq<T>>, b: seq<seq<T>>)
    ensures Flatten(a + b) == Flatten(a) + Flatten(b)
  {
    if a != [] {
      FlattenAppend(a[1..], b);
      assert (a + b)[1..] == a[1..] + b;
    } else {
      assert a + b == b;
    }
  }

  /** Nothing is dropped, duplicated or reordered: the slices concatenate back to the list. */
  lemma {:induction false} SlicesFlatten<T>(xs: seq<T>, size: nat)
    requires size >= 1
    ensures Flatten(Slices(xs, size)) == xs
    decreases |xs|
  {
    if xs != [] {
      var e := Min(size, |xs|);
      var ss := Slices(xs, size);
      SlicesFlatten(xs[e..], size);
      assert ss[1..] == Slices(xs[e..], size);
      assert xs[..e] + xs[e..] == xs;
    }
  }

  /** Every slice is non-empty and at most `size` long; all but the last are exactly `size` long. */
  predicate WellCut<T>(ss: seq<seq<T>>, size: nat)
  {
    forall k :: 0 <= k < |ss| ==> 1 <= |ss[k]| <= size && (k < |ss| - 1 ==> |ss[k]| == size)
  }

  lemma {:induction false} SlicesShape<T>(xs: seq<T>, size: nat)
    requires size >= 1
    ensures WellCut(Slices(xs, size), size)
    decreases |xs|
  {
    if xs != [] {
      var e := Min(size, |xs|);
      var rest := Slices(xs[e..], size);
      SlicesShape(xs[e..], size);
      var ss := Slices(xs, size);
      assert ss == [xs[..e]] + rest;
      forall k | 0 <= k < |ss|
        ensures 1 <= |ss[k]| <= size && (k < |ss| - 1 ==> |ss[k]| == size)
      {
        if k > 0 {
          assert ss[k] == rest[k - 1];
        } else if |ss| > 1 {
          assert xs[e..] != [];
        }
      }
    }
  }

  /**
   * There are ceil(N / B) slices for N records and batch size B: the least k
   * with N <= k * B.
   */
  lemma {:induction false} SlicesCount<T>(xs: seq<T>, size: nat)
    requires size >= 1
    ensures var k := |Slices(xs, size)|; (k - 1) * size < |xs| <= k * size
    decreases |xs|
  {
    if xs != [] {
      var e := Min(size, |xs|);
      SlicesCount(xs[e..], size);
      var r := |Slices(xs[e..], size)|;
      assert |Slices(xs, size)| == 1 + r;
      assert (1 + r) * size == size + r * size;
      if |xs| <= size {
        assert xs[e..] == [];
      }
    }
  }

  lemma MulCancel(x: int, y: int, b: int)
    requires b >= 1 && x * b < y * b
    ensures x < y
  {
    assert (y - x) * b > 0;
  }

  lemma CeilDiv(n: nat, b: int, k: int)
    requires b >= 1 && (k - 1) * b < n <= k * b
    ensures k == (n + b - 1) / b
  {
    var q := (n + b - 1) / b;
    assert n + b - 1 == q * b + (n + b - 1) % b;
    assert (k + 1) * b == k * b + b;
    assert (q + 1) * b == q * b + b;
    MulCancel(q, k + 1, b);
    MulCancel(k, q + 1, b);
  }

  /** The slice count is the rounded-up quotient (N + B - 1) / B. */
  lemma SlicesCeiling<T>(xs: seq<T>, size: nat)
    requires size >= 1
    ensures |Slices(xs, size)| == (|xs| + size - 1) / size
  {
    SlicesCount(xs, size);
    CeilDiv(|xs|, size, |Slices(xs, size)|);
  }

  lemma MulPred(k: int, size: int)
    ensures k * size == (k - 1) * size + size
  {
  }

  lemma DropSlice<T>(xs: seq<T>, e: nat, i: nat, j: nat)
    requires e <= |xs| && i <= j <= |xs| - e
    ensures xs[e..][i..j] == xs[e + i .. e + j]
  {
  }

  /** The k-th slice is the records from k * batchSize to min(k * batchSize + batchSize, N). */
  lemma {:induction false} SliceAt<T>(xs: seq<T>, size: nat, k: nat)
    requires size >= 1
    requires k < |Slices(xs, size)|
    ensures k * size < |xs|
    ensures Slices(xs, size)[k] == xs[k * size .. Min(k * size + size, |xs|)]
    decreases |xs|
  {
    var e := Min(size, |xs|);
    var rest := xs[e..];
    assert Slices(xs, size) == [xs[..e]] + Slices(rest, size);
    if k > 0 {
      assert e == size by {
        assert Slices(rest, size) != [];
      }
      SliceAt(rest, size, k - 1);
      var i := (k - 1) * size;
      assert k * size == i + size by {
        MulPred(k, size);
      }
      assert Min(i + size, |rest|) + size == Min(i + size + size, |xs|);
      DropSlice(xs, size, i, Min(i + size, |rest|));
    } else {
      assert k * size == 0;
    }
  }

  /** Slicing from position i starts with the slice from i to min(i + size, N). */
  lemma SlicesFrom<T>(xs: seq<T>, size: nat, i: nat)
    requires size >= 1 && i < |xs|
    ensures Slices(xs[i..], size) == [xs[i..Min(i + size, |xs|)]] + Slices(xs[Min(i + size, |xs|)..], size)
  {
    assert xs[i..][..Min(size, |xs| - i)] == xs[i..Min(i + size, |xs|)];
    assert xs[i..][Min(size, |xs| - i)..] == xs[Min(i + size, |xs|)..];
  }

  /**
   * The split loop of poll: for (i = 0; i < size(); i += batchSize) add
   * subList(i, min(i + batchSize, size())).
   */
  method Split<T>(xs: seq<T>, batchSize: int) returns (slices: seq<seq<T>>)
    requires batchSize >= 1
    ensures slices == Slices(xs, batchSize)
  {
    slices := [];
    var i := 0;
    assert [] + Slices(xs[Min(0, |xs|)..], batchSize) == Slices(xs, batchSize) by {
      assert xs[Min(0, |xs|)..] == xs;
    }
    while i < |xs|
      invariant 0 <= i
      invariant Slices(xs, batchSize) == slices + Slices(xs[Min(i, |xs|)..], batchSize)
      decreases |xs| - i
    {
      var end := Min(i + batchSize, |xs|);
      ghost var rest := Slices(xs[end..], batchSize);
      assert Slices(xs, batchSize) == (slices + [xs[i..end]]) + rest by {
        SlicesFrom(xs, batchSize, i);
        assert slices + ([xs[i..end]] + rest) == (slices + [xs[i..end]]) + rest;
      }
      slices := slices + [xs[i..end]];
      i := i + batchSize;
      assert Min(i, |xs|) == end;
    }
    assert xs[Min(i, |xs|)..] == [];
    assert slices + Slices([], batchSize) == slices;
  }
}
