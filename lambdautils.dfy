/** src/python/lambdautils.py without its LambdaManager class: the batch
    size that fits a worker's memory, and the greedy cut of an ordered key
    list into consecutive batches. */
module LambdaUtils {
  import opened Outcomes

  // ---------------------------------------------------------------------------
  // Batches
  // ---------------------------------------------------------------------------

  function Flatten<T>(ss: seq<seq<T>>): seq<T>
    decreases |ss|
  {
    if ss == [] then [] else ss[0] + Flatten(ss[1..])
  }

  lemma {:induction false} FlattenAppend<T>(a: seq<seq<T>>, b: seq<seq<T>>)
    ensures Flatten(a + b) == Flatten(a) + Flatten(b)
    decreases |a|
  {
    if a == [] {
      assert a + b == b;
    } else {
      assert (a + b)[1..] == a[1..] + b;
      FlattenAppend(a[1..], b);
    }
  }

  /** Consecutive groups of `k` elements, the last one possibly shorter. */
  function Chunks<T>(s: seq<T>, k: nat): seq<seq<T>>
    requires k >= 1
    decreases |s|
  {
    if s == [] then []
    else if |s| <= k then [s]
    else [s[..k]] + Chunks(s[k..], k)
  }

  /** The group size at which `len(batch) >= batch_size` first holds: a
      batch size of 1, 0 or less closes every batch after one key. */
  function Limit(batchSize: int): nat
  {
    if batchSize <= 1 then 1 else batchSize
  }

  /** What batch_creator(all_keys, batch_size) returns. */
  function Batches<T>(allKeys: seq<T>, batchSize: int): seq<seq<T>>
  {
    Chunks(allKeys, Limit(batchSize))
  }

  lemma {:induction false} ChunksPartition<T>(s: seq<T>, k: nat)
    requires k >= 1
    ensures Flatten(Chunks(s, k)) == s
    decreases |s|
  {
    if s != [] && |s| > k {
      ChunksPartition(s[k..], k);
      assert Chunks(s, k)[0] == s[..k];
      assert Chunks(s, k)[1..] == Chunks(s[k..], k);
      assert s[..k] + s[k..] == s;
    } else if s != [] {
      assert Chunks(s, k)[1..] == [];
      assert s + [] == s;
    }
  }

  lemma {:induction false} ChunksShape<T>(s: seq<T>, k: nat)
    requires k >= 1
    ensures forall i | 0 <= i < |Chunks(s, k)| :: 0 < |Chunks(s, k)[i]| <= k
    ensures forall i | 0 <= i < |Chunks(s, k)| - 1 :: |Chunks(s, k)[i]| == k
    decreases |s|
  {
    if s != [] && |s| > k {
      ChunksShape(s[k..], k);
      var c := Chunks(s, k);
      assert c[1..] == Chunks(s[k..], k);
      forall i | 1 <= i < |c|
        ensures 0 < |c[i]| <= k && (i < |c| - 1 ==> |c[i]| == k)
      {
        assert c[i] == c[1..][i - 1];
      }
    }
  }

  /** Every group is exactly `k` long. */
  predicate AllFull<T>(groups: seq<seq<T>>, k: nat)
  {
    forall i | 0 <= i < |groups| :: |groups[i]| == k
  }

  lemma MulMonotone(a: int, b: int, c: int)
    requires a <= b && c >= 0
    ensures a * c <= b * c
  {
  }

  /** The quotient is the only multiple of `k` in the right range. */
  lemma DivUnique(n: nat, k: nat, c: nat)
    requires k >= 1 && c * k <= n < c * k + k
    ensures n / k == c
  {
    var q, r := n / k, n % k;
    assert n == q * k + r && 0 <= r < k;
    if q >= c + 1 {
      MulMonotone(c + 1, q, k);
      assert false;
    } else if q + 1 <= c {
      MulMonotone(q + 1, c, k);
      assert false;
    }
  }

  /** All groups but the last are full, so their number is the least
      number of groups of `k` that hold `|s|` elements. */
  lemma {:induction false} ChunksBounds<T>(s: seq<T>, k: nat)
    requires k >= 1
    ensures |Chunks(s, k)| * k - k < |s| <= |Chunks(s, k)| * k
    decreases |s|
  {
    if s != [] && |s| > k {
      ChunksBounds(s[k..], k);
      assert |Chunks(s, k)| == |Chunks(s[k..], k)| + 1;
    }
  }

  lemma ChunksCount<T>(s: seq<T>, k: nat)
    requires k >= 1
    ensures |Chunks(s, k)| == (|s| + k - 1) / k
  {
    var c := |Chunks(s, k)|;
    ChunksBounds(s, k);
    DivUnique(|s| + k - 1, k, c);
  }

  lemma {:induction false} ChunksAppend<T>(a: seq<T>, b: seq<T>, k: nat)
    requires k >= 1 && AllFull(Chunks(a, k), k)
    ensures Chunks(a + b, k) == Chunks(a, k) + Chunks(b, k)
    decreases |a|
  {
    if a == [] {
      assert a + b == b;
    } else if |a| <= k {
      assert Chunks(a, k) == [a];
      assert |Chunks(a, k)[0]| == k;
      if b == [] {
        assert a + b == a;
      } else {
        assert (a + b)[..k] == a;
        assert (a + b)[k..] == b;
      }
    } else {
      assert (a + b)[..k] == a[..k];
      assert (a + b)[k..] == a[k..] + b;
      assert Chunks(a, k)[1..] == Chunks(a[k..], k);
      assert AllFull(Chunks(a[k..], k), k) by {
        forall i | 0 <= i < |Chunks(a[k..], k)| ensures |Chunks(a[k..], k)[i]| == k {
          assert Chunks(a[k..], k)[i] == Chunks(a, k)[i + 1];
        }
      }
      ChunksAppend(a[k..], b, k);
    }
  }

  /** Cutting one more full group off the front of `s`. */
  lemma ChunksExtend<T>(s: seq<T>, j: nat, k: nat)
    requires k >= 1 && j + k <= |s| && AllFull(Chunks(s[..j], k), k)
    ensures Chunks(s[..j + k], k) == Chunks(s[..j], k) + [s[j..j + k]]
  {
    ChunksAppend(s[..j], s[j..j + k], k);
    assert s[..j] + s[j..j + k] == s[..j + k];
  }

  /** The trailing group of fewer than `k` elements. */
  lemma ChunksFinish<T>(s: seq<T>, j: nat, k: nat)
    requires k >= 1 && j <= |s| < j + k && AllFull(Chunks(s[..j], k), k)
    ensures Chunks(s, k) == Chunks(s[..j], k) + (if j < |s| then [s[j..]] else [])
  {
    ChunksAppend(s[..j], s[j..], k);
    assert s[..j] + s[j..] == s;
  }

  /** With groups of at least 2, two or more items make fewer groups than
      there are items, and a single item makes a single group. */
  lemma ChunksFewer<T>(s: seq<T>, k: nat)
    requires k >= 2
    ensures |s| >= 2 ==> |Chunks(s, k)| < |s|
    ensures |s| == 1 ==> Chunks(s, k) == [s]
  {
    ChunksBounds(s, k);
    var c := |Chunks(s, k)|;
    if |s| >= 2 && c >= |s| {
      MulMonotone(|s|, c, k);
      MulMonotone(2, |s|, k - 1);
      assert false;
    }
  }

  /** There are never more groups than items, and at least one when there
      is an item. */
  lemma {:induction false} ChunksAtMost<T>(s: seq<T>, k: nat)
    requires k >= 1
    ensures |Chunks(s, k)| <= |s|
    ensures s != [] ==> |Chunks(s, k)| >= 1
    decreases |s|
  {
    if s != [] && |s| > k {
      ChunksAtMost(s[k..], k);
    }
  }

  /** The first group is a largest one, so the number of groups times the
      size of the first covers all the items. */
  lemma ChunksCover<T>(s: seq<T>, k: nat)
    requires k >= 1 && s != []
    ensures |Chunks(s, k)| >= 1
    ensures |Chunks(s, k)| * |Chunks(s, k)[0]| >= |s|
  {
    var c := Chunks(s, k);
    ChunksBounds(s, k);
    ChunksShape(s, k);
    if |c| >= 2 {
      assert |c[0]| == k;
    }
  }

  /** batch_creator: consecutive batches of `batch_size` keys, in order. */
  method BatchCreator<T>(allKeys: seq<T>, batchSize: int) returns (batches: seq<seq<T>>)
    ensures batches == Batches(allKeys, batchSize)
  {
    ghost var k := Limit(batchSize);
    batches := [];
    var batch: seq<T> := [];
    for i := 0 to |allKeys|
      invariant |batch| < k && |batch| <= i
      invariant batch == allKeys[i - |batch|..i]
      invariant batches == Chunks(allKeys[..i - |batch|], k)
      invariant AllFull(batches, k)
    {
      ghost var start := i - |batch|;
      batch := batch + [allKeys[i]];
      assert batch == allKeys[start..i + 1];
      if |batch| >= batchSize {
        ChunksExtend(allKeys, start, k);
        batches := batches + [batch];
        batch := [];
      }
    }
    assert batch == allKeys[|allKeys| - |batch|..];
    ChunksFinish(allKeys, |allKeys| - |batch|, k);
    if |batch| > 0 {
      batches := batches + [batch];
    }
    assert batches == Chunks(allKeys, k);
  }

  /** Concatenating the batches gives back the keys, in order. */
  lemma BatchesPartition<T>(allKeys: seq<T>, batchSize: int)
    ensures Flatten(Batches(allKeys, batchSize)) == allKeys
  {
    ChunksPartition(allKeys, Limit(batchSize));
  }

  /** No batch is empty, none is longer than the batch size, all but the
      last are exactly that long, and there are ceil(n / batch size). */
  lemma BatchesShape<T>(allKeys: seq<T>, batchSize: int)
    requires batchSize >= 1
    ensures var b := Batches(allKeys, batchSize);
      && |b| == (|allKeys| + batchSize - 1) / batchSize
      && (forall i | 0 <= i < |b| :: 0 < |b[i]| <= batchSize)
      && (forall i | 0 <= i < |b| - 1 :: |b[i]| == batchSize)
  {
    ChunksShape(allKeys, batchSize);
    ChunksCount(allKeys, batchSize);
  }

  lemma {:induction false} ChunksOfOne<T>(s: seq<T>)
    ensures |Chunks(s, 1)| == |s|
    ensures forall i | 0 <= i < |s| :: Chunks(s, 1)[i] == [s[i]]
    decreases |s|
  {
    if |s| > 1 {
      ChunksOfOne(s[1..]);
      assert Chunks(s, 1)[1..] == Chunks(s[1..], 1);
      forall i | 1 <= i < |s| ensures Chunks(s, 1)[i] == [s[i]] {
        assert Chunks(s, 1)[i] == Chunks(s[1..], 1)[i - 1];
      }
    } else if |s| == 1 {
      assert s[..1] == s;
    }
  }

  /** A batch size of 1, 0 or less makes every key its own batch. */
  lemma BatchesOfSingletons<T>(allKeys: seq<T>, batchSize: int)
    requires batchSize <= 1
    ensures Batches(allKeys, batchSize) == seq(|allKeys|, i requires 0 <= i < |allKeys| => [allKeys[i]])
  {
    ChunksOfOne(allKeys);
  }

  // ---------------------------------------------------------------------------
  // Batch size
  // ---------------------------------------------------------------------------

  function Sum(sizes: seq<nat>): nat
    decreases |sizes|
  {
    if sizes == [] then 0 else Sum(sizes[..|sizes| - 1]) + sizes[|sizes| - 1]
  }

  /** `round(num / den)` for a non-negative quotient, halves rounded up:
      Python 2's round() and JavaScript's Math.round() both do this. */
  function RoundHalfUp(num: nat, den: nat): (r: nat)
    requires den > 0
    ensures 2 * den * r <= 2 * num + den < 2 * den * (r + 1)
  {
    (2 * num + den) / (2 * den)
  }

  /** Bytes of a worker's memory given to data: 0.6 of `lambdaMemory` MB
      (1 MB = 1000 * 1000 bytes). */
  function UsableBytes(lambdaMemory: nat): nat
  {
    600000 * lambdaMemory
  }

  /** What compute_batch_size(keys, lambda_memory) returns or raises:
      round(usable bytes / average object size), and a division by zero
      when there are no keys or their sizes add up to zero. */
  function BatchSize(sizes: seq<nat>, lambdaMemory: nat): Result<int>
  {
    if |sizes| == 0 || Sum(sizes) == 0 then Err(ZeroDivisionError)
    else Ok(RoundHalfUp(UsableBytes(lambdaMemory) * |sizes|, Sum(sizes)))
  }

  /** compute_batch_size: sums the sizes in a loop; `gzip` is not used. */
  method ComputeBatchSize(sizes: seq<nat>, lambdaMemory: nat, gzip: bool) returns (r: Result<int>)
    ensures r == BatchSize(sizes, lambdaMemory)
  {
    var maxMemForData := UsableBytes(lambdaMemory);
    var size := 0;
    for i := 0 to |sizes|
      invariant size == Sum(sizes[..i])
    {
      assert sizes[..i + 1][..i] == sizes[..i];
      size := size + sizes[i];
    }
    assert sizes[..|sizes|] == sizes;
    if |sizes| == 0 || size == 0 {
      return Err(ZeroDivisionError);
    }
    // avg = size / n, and maxMemForData / avg = maxMemForData * n / size
    r := Ok(RoundHalfUp(maxMemForData * |sizes|, size));
  }

  /** The result is the exact ratio usable bytes / average size rounded to
      the nearest integer, halves up; it is an error exactly when the
      average is undefined or zero. */
  lemma BatchSizeIsRoundedRatio(sizes: seq<nat>, lambdaMemory: nat)
    ensures BatchSize(sizes, lambdaMemory).Err? <==> |sizes| == 0 || Sum(sizes) == 0
    ensures BatchSize(sizes, lambdaMemory).Ok? ==>
      var r := BatchSize(sizes, lambdaMemory).value;
      var n, total := |sizes|, Sum(sizes);
      2 * total * r <= 2 * (UsableBytes(lambdaMemory) * n) + total < 2 * total * (r + 1)
  {
    if |sizes| > 0 && Sum(sizes) > 0 {
      var num, den := UsableBytes(lambdaMemory) * |sizes|, Sum(sizes);
      var r := RoundHalfUp(num, den);
      assert 2 * den * r <= 2 * num + den < 2 * den * (r + 1);
    }
  }

  lemma MulStrict(a: int, b: int, c: int)
    requires a < b && c > 0
    ensures a * c < b * c
  {
  }

  /** q - 1/2 <= n2 / d2 <= n1 / d1 < p + 1/2 gives q <= p. */
  lemma RoundingMonotone(n1: int, d1: int, n2: int, d2: int, q: int, p: int)
    requires d1 > 0 && d2 > 0 && n2 * d1 <= n1 * d2
    requires 2 * d2 * q <= 2 * n2 + d2
    requires 2 * n1 + d1 < 2 * d1 * (p + 1)
    ensures q <= p
  {
    if q > p {
      MulMonotone(p + 1, q, 2 * d1);
      assert 2 * n1 + d1 < 2 * d1 * q;
      MulMonotone(2 * d2 * q, 2 * n2 + d2, d1);
      MulStrict(2 * n1 + d1, 2 * d1 * q, d2);
      assert false;
    }
  }

  /** RoundHalfUp is monotone in the ratio num / den. */
  lemma RoundHalfUpMonotone(n1: nat, d1: nat, n2: nat, d2: nat)
    requires d1 > 0 && d2 > 0
    requires n2 * d1 <= n1 * d2
    ensures RoundHalfUp(n2, d2) <= RoundHalfUp(n1, d1)
  {
    RoundingMonotone(n1, d1, n2, d2, RoundHalfUp(n2, d2), RoundHalfUp(n1, d1));
  }

  lemma MulAssociates(a: int, b: int, c: int)
    ensures (a * b) * c == a * (b * c)
  {
  }

  /** A larger average object size never gives a larger batch size. */
  lemma BatchSizeNonIncreasing(small: seq<nat>, large: seq<nat>, lambdaMemory: nat)
    requires BatchSize(small, lambdaMemory).Ok? && BatchSize(large, lambdaMemory).Ok?
    requires Sum(small) * |large| <= Sum(large) * |small|
    ensures BatchSize(large, lambdaMemory).value <= BatchSize(small, lambdaMemory).value
  {
    var u := UsableBytes(lambdaMemory);
    var ns, nl, ts, tl := |small|, |large|, Sum(small), Sum(large);
    MulAssociates(u, nl, ts);
    MulAssociates(u, ns, tl);
    assert ts * nl <= tl * ns;
    assert nl * ts <= ns * tl;
    MulMonotone(nl * ts, ns * tl, u);
    assert u * (nl * ts) <= u * (ns * tl);
    assert (u * nl) * ts <= (u * ns) * tl;
    RoundHalfUpMonotone(u * ns, ts, u * nl, tl);
  }

  /** There is no lower clamp: a large enough average gives 0. */
  lemma BatchSizeCanBeZero()
    ensures BatchSize([2000000], 1) == Ok(0)
  {
    assert Sum([2000000]) == 2000000 by {
      assert [2000000][..0] == [];
    }
  }
}
