/** src/nodejs/utils.js: batchCreator, computeBatchSize and objToCSVBuffer.
    The JavaScript versions differ from the Python ones where a JavaScript
    number can be NaN or infinite, and in the 0.4 factor used for gzip. */
module JsUtils {
  import opened Text
  import opened JsNumbers
  import LambdaUtils

  // ---------------------------------------------------------------------------
  // batchCreator
  // ---------------------------------------------------------------------------

  /** The group size at which `batch.length >= batchSize` first holds for a
      batch of at most `n` keys; with NaN or +Infinity it never holds. */
  function JsLimit(batchSize: JsNumber, n: nat): nat
  {
    match batchSize
    case Finite(v) => LambdaUtils.Limit(v)
    case NegInfinity => 1
    case PosInfinity => n + 1
    case NaN => n + 1
  }

  /** What batchCreator(allKeys, batchSize) returns. */
  function Batches<T>(allKeys: seq<T>, batchSize: JsNumber): seq<seq<T>>
  {
    LambdaUtils.Chunks(allKeys, JsLimit(batchSize, |allKeys|))
  }

  /** A batch of `m` of the `n` keys, where `m` is below the limit before
      the push, is closed exactly when it reaches the limit. */
  lemma ClosesAtLimit(m: nat, batchSize: JsNumber, n: nat)
    requires 1 <= m <= n && m <= JsLimit(batchSize, n)
    ensures AtLeast(m, batchSize) <==> m == JsLimit(batchSize, n)
  {
  }

  /** batchCreator. Each batch pushed is `batch.slice()`, a copy; sequences
      are values here, so no batch shares storage with another. */
  method BatchCreator<T>(allKeys: seq<T>, batchSize: JsNumber) returns (batches: seq<seq<T>>)
    ensures batches == Batches(allKeys, batchSize)
  {
    ghost var k := JsLimit(batchSize, |allKeys|);
    batches := [];
    var batch: seq<T> := [];
    for i := 0 to |allKeys|
      invariant |batch| < k && |batch| <= i
      invariant batch == allKeys[i - |batch|..i]
      invariant batches == LambdaUtils.Chunks(allKeys[..i - |batch|], k)
      invariant LambdaUtils.AllFull(batches, k)
    {
      ghost var start := i - |batch|;
      batch := batch + [allKeys[i]];
      assert batch == allKeys[start..i + 1];
      ClosesAtLimit(|batch|, batchSize, |allKeys|);
      if AtLeast(|batch|, batchSize) {
        LambdaUtils.ChunksExtend(allKeys, start, k);
        batches := batches + [batch];
        batch := [];
      }
    }
    assert batch == allKeys[|allKeys| - |batch|..];
    LambdaUtils.ChunksFinish(allKeys, |allKeys| - |batch|, k);
    if |batch| > 0 {
      batches := batches + [batch];
    }
    assert batches == LambdaUtils.Chunks(allKeys, k);
  }

  /** Concatenating the batches gives back `allKeys`, in order. */
  lemma BatchesPartition<T>(allKeys: seq<T>, batchSize: JsNumber)
    ensures LambdaUtils.Flatten(Batches(allKeys, batchSize)) == allKeys
  {
    LambdaUtils.ChunksPartition(allKeys, JsLimit(batchSize, |allKeys|));
  }

  /** For a batch size of at least 1, all batches but the last hold exactly
      `batchSize` keys and the last holds between 1 and `batchSize`. */
  lemma BatchesShape<T>(allKeys: seq<T>, batchSize: int)
    requires batchSize >= 1
    ensures var b := Batches(allKeys, Finite(batchSize));
      && |b| == (|allKeys| + batchSize - 1) / batchSize
      && (forall i | 0 <= i < |b| :: 0 < |b[i]| <= batchSize)
      && (forall i | 0 <= i < |b| - 1 :: |b[i]| == batchSize)
  {
    LambdaUtils.BatchesShape(allKeys, batchSize);
  }

  /** With NaN or +Infinity no batch is ever closed early: all keys go
      into one batch. */
  lemma UnboundedBatchSize<T>(allKeys: seq<T>, batchSize: JsNumber)
    requires batchSize == NaN || batchSize == PosInfinity
    ensures Batches(allKeys, batchSize) == if allKeys == [] then [] else [allKeys]
  {
  }

  // ---------------------------------------------------------------------------
  // computeBatchSize
  // ---------------------------------------------------------------------------

  /** MAX_MEMORY_FOR_DATA: 0.6 of `lambdaMemory` MB, or 0.4 when gzip is true. */
  function DataBytes(lambdaMemory: nat, gzip: bool): nat
  {
    if gzip then 400000 * lambdaMemory else 600000 * lambdaMemory
  }

  /** What computeBatchSize(keys, lambdaMemory, gzip) returns:
      Math.round(MAX_MEMORY_FOR_DATA / (size / keys.length)). */
  function BatchSize(sizes: seq<nat>, lambdaMemory: nat, gzip: bool): JsNumber
  {
    var n, total, max := |sizes|, LambdaUtils.Sum(sizes), DataBytes(lambdaMemory, gzip);
    if n == 0 then NaN                                         // 0 / 0
    else if total == 0 then (if max == 0 then NaN else PosInfinity)  // max / 0
    else Finite(LambdaUtils.RoundHalfUp(max * n, total))
  }

  /** computeBatchSize: sums `keys[i].Size` in a loop. */
  method ComputeBatchSize(sizes: seq<nat>, lambdaMemory: nat, gzip: bool) returns (r: JsNumber)
    ensures r == BatchSize(sizes, lambdaMemory, gzip)
  {
    var maxMemoryForData := 600000 * lambdaMemory;
    if gzip {
      maxMemoryForData := 400000 * lambdaMemory;
    }
    var size := 0;
    for i := 0 to |sizes|
      invariant size == LambdaUtils.Sum(sizes[..i])
    {
      assert sizes[..i + 1][..i] == sizes[..i];
      size := size + sizes[i];
    }
    assert sizes[..|sizes|] == sizes;
    if |sizes| == 0 {
      r := NaN;
    } else if size == 0 {
      r := if maxMemoryForData == 0 then NaN else PosInfinity;
    } else {
      r := Finite(LambdaUtils.RoundHalfUp(maxMemoryForData * |sizes|, size));
    }
  }

  /** The result is Math.round of the exact ratio for a non-empty key list
      of non-zero total size; no keys give NaN (0 / 0), and keys of total
      size 0 give +Infinity, or NaN when the memory is 0 too. */
  lemma BatchSizeIsRoundedRatio(sizes: seq<nat>, lambdaMemory: nat, gzip: bool)
    ensures |sizes| == 0 ==> BatchSize(sizes, lambdaMemory, gzip) == NaN
    ensures |sizes| > 0 && LambdaUtils.Sum(sizes) == 0 ==>
      BatchSize(sizes, lambdaMemory, gzip) == (if lambdaMemory == 0 then NaN else PosInfinity)
    ensures |sizes| > 0 && LambdaUtils.Sum(sizes) > 0 ==>
      var r := BatchSize(sizes, lambdaMemory, gzip);
      var n, total := |sizes|, LambdaUtils.Sum(sizes);
      r.Finite? && 2 * total * r.value <= 2 * (DataBytes(lambdaMemory, gzip) * n) + total < 2 * total * (r.value + 1)
  {
    if |sizes| > 0 && LambdaUtils.Sum(sizes) > 0 {
      var num, den := DataBytes(lambdaMemory, gzip) * |sizes|, LambdaUtils.Sum(sizes);
      var r := LambdaUtils.RoundHalfUp(num, den);
      assert 2 * den * r <= 2 * num + den < 2 * den * (r + 1);
    }
  }

  /** Asking for gzip never gives a larger batch size. */
  lemma GzipNeverLarger(sizes: seq<nat>, lambdaMemory: nat)
    ensures BatchSize(sizes, lambdaMemory, true).Finite? <==> BatchSize(sizes, lambdaMemory, false).Finite?
    ensures BatchSize(sizes, lambdaMemory, true).Finite? ==>
      BatchSize(sizes, lambdaMemory, true).value <= BatchSize(sizes, lambdaMemory, false).value
    ensures !BatchSize(sizes, lambdaMemory, true).Finite? ==>
      BatchSize(sizes, lambdaMemory, true) == BatchSize(sizes, lambdaMemory, false)
  {
    var n, total := |sizes|, LambdaUtils.Sum(sizes);
    if n > 0 && total > 0 {
      var small, large := 400000 * lambdaMemory * n, 600000 * lambdaMemory * n;
      assert small <= large;
      LambdaUtils.MulMonotone(small, large, total);
      LambdaUtils.RoundHalfUpMonotone(large, total, small, total);
    }
  }

  /** Without gzip, JavaScript and Python compute the same batch size
      whenever Python does not raise. */
  lemma AgreesWithPython(sizes: seq<nat>, lambdaMemory: nat)
    requires LambdaUtils.BatchSize(sizes, lambdaMemory).Ok?
    ensures BatchSize(sizes, lambdaMemory, false) == Finite(LambdaUtils.BatchSize(sizes, lambdaMemory).value)
  {
  }

  // ---------------------------------------------------------------------------
  // objToCSVBuffer
  // ---------------------------------------------------------------------------

  /** One property as objToCSVBuffer writes it, the value an integer. */
  function Line(property: (string, int)): string
  {
    property.0 + "," + IntToString(property.1) + "\n"
  }

  /** The text objToCSVBuffer builds from the properties in their
      enumeration order. */
  function Csv(properties: seq<(string, int)>): string
    decreases |properties|
  {
    if properties == [] then "" else Line(properties[0]) + Csv(properties[1..])
  }

  lemma {:induction false} CsvAppend(properties: seq<(string, int)>, p: (string, int))
    ensures Csv(properties + [p]) == Csv(properties) + Line(p)
    decreases |properties|
  {
    if properties == [] {
      assert properties + [p] == [p];
      assert [p][1..] == [];
    } else {
      assert (properties + [p])[1..] == properties[1..] + [p];
      CsvAppend(properties[1..], p);
    }
  }

  lemma CsvStep(properties: seq<(string, int)>, i: nat)
    requires i < |properties|
    ensures Csv(properties[..i + 1]) == Csv(properties[..i]) + Line(properties[i])
  {
    assert properties[..i + 1] == properties[..i] + [properties[i]];
    CsvAppend(properties[..i], properties[i]);
  }

  /** objToCSVBuffer: appends `p + ',' + obj[p] + '\n'` for each property. */
  method ObjToCsvBuffer(properties: seq<(string, int)>) returns (str: string)
    ensures str == Csv(properties)
  {
    str := "";
    for i := 0 to |properties|
      invariant str == Csv(properties[..i])
    {
      var p := properties[i];
      CsvStep(properties, i);
      str := str + (p.0 + "," + IntToString(p.1) + "\n");
    }
    assert properties[..|properties|] == properties;
  }

  /** When no property name contains a newline, splitting the text at
      newlines gives back one `name,value` line per property, in order,
      followed by the empty text after the last newline; an object without
      properties gives "". */
  lemma {:induction false} CsvLines(properties: seq<(string, int)>)
    requires forall i | 0 <= i < |properties| :: '\n' !in properties[i].0
    ensures Split(Csv(properties), '\n') ==
      seq(|properties|, i requires 0 <= i < |properties| => properties[i].0 + "," + IntToString(properties[i].1)) + [""]
    ensures properties == [] ==> Csv(properties) == ""
    decreases |properties|
  {
    if properties != [] {
      var p := properties[0];
      var text := p.0 + "," + IntToString(p.1);
      var n: nat := if p.1 < 0 then -p.1 else p.1;
      NoSeparatorInNumeral(n, '\n');
      assert '\n' !in text;
      CsvLines(properties[1..]);
      assert Csv(properties) == text + "\n" + Csv(properties[1..]);
      SplitJoin(text, '\n', Csv(properties[1..]));
      SplitNoSeparator(text, '\n');
    }
  }

  /** When no property name contains a newline, the text holds exactly one
      newline per property. */
  lemma CsvNewlines(properties: seq<(string, int)>)
    requires forall i | 0 <= i < |properties| :: '\n' !in properties[i].0
    ensures Count(Csv(properties), '\n') == |properties|
  {
    CsvLines(properties);
    SplitCount(Csv(properties), '\n');
  }
}
