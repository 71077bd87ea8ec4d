/** `splitToBulks`: cut a list into consecutive slices of a fixed size. */
module Chunk {
  import opened Text

  /** The size used when the caller gives none. */
  const DefaultBulkSize: nat := 20

  /** `Math.ceil(n / d)` for a positive divisor. */
  function CeilDiv(n: nat, d: nat): nat
    requires d > 0
  {
    (n + d - 1) / d
  }

  /** `arr.slice(start, end)` for `start <= end`: both ends are clamped to the length. */
  function Slice<T>(arr: seq<T>, start: nat, end: nat): (s: seq<T>)
    requires start <= end
  {
    arr[Min(start, |arr|)..Min(end, |arr|)]
  }

  /** The list `splitToBulks(arr, size)` builds: `CeilDiv(|arr|, size)` slices,
      the `i`-th covering positions `i * size` up to `(i + 1) * size`. */
  function Bulks<T>(arr: seq<T>, size: nat): seq<seq<T>>
    requires size > 0
  {
    seq(CeilDiv(|arr|, size), i requires 0 <= i => Slice(arr, i * size, (i + 1) * size))
  }

  /** The loop of `splitToBulks`; a size of zero never ends for a non-empty
      list, so a positive size is required. */
  method SplitToBulks<T>(arr: seq<T>, bulkSize: nat := DefaultBulkSize) returns (bulks: seq<seq<T>>)
    requires bulkSize > 0
    ensures bulks == Bulks(arr, bulkSize)
  {
    bulks := [];
    var count := CeilDiv(|arr|, bulkSize);
    var i := 0;
    while i < count
      invariant 0 <= i <= count
      invariant bulks == Bulks(arr, bulkSize)[..i]
    {
      bulks := bulks + [Slice(arr, i * bulkSize, (i + 1) * bulkSize)];
      i := i + 1;
    }
  }

  /** The concatenation of a list of lists, in order. */
  function Flatten<T>(xss: seq<seq<T>>): seq<T>
  {
    if |xss| == 0 then [] else Flatten(xss[..|xss| - 1]) + xss[|xss| - 1]
  }

  lemma MulMono(a: nat, b: nat, c: nat)
    requires a <= b
    ensures a * c <= b * c
  {
  }

  /** `CeilDiv(n, d)` slices of `d` cover `n`, and one fewer would not. */
  lemma CeilDivBounds(n: nat, d: nat)
    requires d > 0
    ensures CeilDiv(n, d) * d - d < n <= CeilDiv(n, d) * d
    ensures CeilDiv(n, d) == 0 <==> n == 0
  {
    var a := n + d - 1;
    var q := a / d;
    assert q * d + a % d == a && 0 <= a % d < d;
  }

  /** The number of bulks, and an empty list giving none. */
  lemma BulkCount<T>(arr: seq<T>, size: nat)
    requires size > 0
    ensures |Bulks(arr, size)| == CeilDiv(|arr|, size)
    ensures (|Bulks(arr, size)| - 1) * size < |arr| <= |Bulks(arr, size)| * size
    ensures |Bulks(arr, size)| == 0 <==> |arr| == 0
  {
    var n := CeilDiv(|arr|, size);
    CeilDivBounds(|arr|, size);
    assert (n - 1) * size == n * size - size by { Distribute(n - 1, size); }
  }

  /** Every bulk is non-empty and at most `size` long, and every bulk but the
      last is exactly `size` long. */
  lemma BulkSizes<T>(arr: seq<T>, size: nat, i: nat)
    requires size > 0
    requires i < |Bulks(arr, size)|
    ensures 0 < |Bulks(arr, size)[i]| <= size
    ensures i < |Bulks(arr, size)| - 1 ==> |Bulks(arr, size)[i]| == size
    ensures Bulks(arr, size)[i] == arr[i * size..Min((i + 1) * size, |arr|)]
  {
    var n := |Bulks(arr, size)|;
    var lo, hi := i * size, (i + 1) * size;
    assert hi == lo + size by { Distribute(i, size); }
    assert lo < |arr| && (i < n - 1 ==> hi <= |arr|) by {
      BulkCount(arr, size);
      MulMono(i, n - 1, size);
      if i < n - 1 {
        MulMono(i + 1, n - 1, size);
      }
    }
    assert Bulks(arr, size)[i] == Slice(arr, lo, lo + size);
    SliceLength(arr, lo, size);
  }

  lemma Distribute(i: int, size: int)
    ensures (i + 1) * size == i * size + size
  {
  }

  /** A slice of `size` items starting inside the list. */
  lemma SliceLength<T>(arr: seq<T>, lo: nat, size: nat)
    requires lo < |arr| && size > 0
    ensures 0 < |Slice(arr, lo, lo + size)| <= size
    ensures lo + size <= |arr| ==> |Slice(arr, lo, lo + size)| == size
    ensures Slice(arr, lo, lo + size) == arr[lo..Min(lo + size, |arr|)]
  {
  }

  /** The first `k` bulks, joined, are the first `k * size` items. */
  lemma {:induction false} FlattenPrefix<T>(arr: seq<T>, size: nat, k: nat)
    requires size > 0
    requires k <= |Bulks(arr, size)|
    ensures Flatten(Bulks(arr, size)[..k]) == arr[..Min(k * size, |arr|)]
  {
    var b := Bulks(arr, size);
    if k > 0 {
      var lo, end := (k - 1) * size, Min(k * size, |arr|);
      assert 0 <= lo < |arr| && lo <= end by {
        BulkCount(arr, size);
        MulMono(0, k - 1, size);
        MulMono(k - 1, |b| - 1, size);
        MulMono(k - 1, k, size);
      }
      assert Flatten(b[..k - 1]) == arr[..lo] by { FlattenPrefix(arr, size, k - 1); }
      assert b[k - 1] == arr[lo..end] by { BulkSizes(arr, size, k - 1); }
      FlattenStep(arr, b, k, lo, end);
    } else {
      assert k * size == 0;
      assert b[..k] == [];
    }
  }

  /** One more bulk extends the joined prefix by that bulk's slice. */
  lemma FlattenStep<T>(arr: seq<T>, b: seq<seq<T>>, k: nat, lo: int, end: int)
    requires 0 < k <= |b| && 0 <= lo <= end <= |arr|
    requires Flatten(b[..k - 1]) == arr[..lo]
    requires b[k - 1] == arr[lo..end]
    ensures Flatten(b[..k]) == arr[..end]
  {
    assert b[..k][..k - 1] == b[..k - 1];
    assert arr[..end] == arr[..lo] + arr[lo..end];
  }

  /** Joining the bulks in order gives back exactly the input. */
  lemma FlattenBulks<T>(arr: seq<T>, size: nat)
    requires size > 0
    ensures Flatten(Bulks(arr, size)) == arr
  {
    var b := Bulks(arr, size);
    FlattenPrefix(arr, size, |b|);
    BulkCount(arr, size);
    assert b[..|b|] == b;
  }

  /** 85 points in bulks of 40 come out as 40, 40 and 5. */
  lemma EightyFivePoints<T>(arr: seq<T>)
    requires |arr| == 85
    ensures |Bulks(arr, 40)| == 3
    ensures |Bulks(arr, 40)[0]| == 40 && |Bulks(arr, 40)[1]| == 40 && |Bulks(arr, 40)[2]| == 5
  {
  }
}
