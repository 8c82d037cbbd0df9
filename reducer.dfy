/** src/python/reducer.py: a reducer reads each of its input objects from
    the job bucket, merges their key/value entries into one dictionary of
    totals, and writes it either as the job's `result` (when it is the only
    reducer of its step) or as `<job>/task/reducer/<step>/<reducer id>`. */
module Reducer {
  import opened Outcomes
  import opened Text

  /** TASK_REDUCER_PREFIX. */
  const TaskReducerPrefix := "task/reducer/"

  /** What `json.loads(contents).iteritems()` yields for an object of the
      job bucket: its entries in iteration order, each value abstracted to
      an integer or None when `float(val)` raises; Unreadable when
      json.loads raises. */
  datatype ReducerInput = Unreadable | Entries(entries: seq<(string, Option<int>)>)

  /** The entries of one input that the inner loop merges before an
      exception ends it: all of them, or those up to and including the
      first value float() rejects, which counts as merged with 0 (its key
      is inserted before float() raises). */
  function Merged(entries: seq<(string, Option<int>)>): (r: seq<(string, int)>)
    ensures |r| <= |entries|
    decreases |entries|
  {
    if entries == [] then []
    else
      match entries[0].1
      case None => [(entries[0].0, 0)]
      case Some(v) => [(entries[0].0, v)] + Merged(entries[1..])
  }

  /** Reading one more input after the ones read so far. */
  function ReadInput(sofar: Result<seq<(string, int)>>, key: string, jobBucket: map<string, ReducerInput>): Result<seq<(string, int)>>
  {
    match sofar
    case Err(e) => Err(e)
    case Ok(s) =>
      if key !in jobBucket then Err(NoSuchKey)
      else
        match jobBucket[key]
        case Unreadable => Ok(s)
        case Entries(entries) => Ok(s + Merged(entries))
  }

  /** The merged entries of every input, input after input; reading a key
      the job bucket does not hold raises (outside the try). */
  function Stream(reducerKeys: seq<string>, jobBucket: map<string, ReducerInput>): Result<seq<(string, int)>>
    decreases |reducerKeys|
  {
    if reducerKeys == [] then Ok([])
    else ReadInput(Stream(reducerKeys[..|reducerKeys| - 1], jobBucket), reducerKeys[|reducerKeys| - 1], jobBucket)
  }

  /** One merge step: the key goes in with 0 if it is new, then the value is
      added. */
  function AddEntry(results: map<string, int>, entry: (string, int)): map<string, int>
  {
    var base := if entry.0 in results then results[entry.0] else 0;
    results[entry.0 := base + entry.1]
  }

  /** The `results` dictionary after the given entries. */
  function Merge(stream: seq<(string, int)>): map<string, int>
    decreases |stream|
  {
    if stream == [] then map[] else AddEntry(Merge(stream[..|stream| - 1]), stream[|stream| - 1])
  }

  /** The output key: the job's result for the only reducer of a step. */
  function OutputKey(jobId: string, nReducers: int, stepId: int, rId: int): string
  {
    if nReducers == 1 then jobId + "/result"
    else jobId + "/" + TaskReducerPrefix + IntToString(stepId) + "/" + IntToString(rId)
  }

  /** The return value `[len(reducer_keys), line_count, time]` without the
      time. */
  datatype Report = Report(keyCount: nat, lineCount: nat)

  /** The object written (its key, the totals and the linecount metadata)
      and the value returned. */
  datatype ReducerRun = ReducerRun(outputKey: string, results: map<string, int>, lineCountMetadata: string, report: Report)

  /** lambda_handler for the event's jobId, reducerId, stepId, nReducers
      and keys; the inputs are read from the job bucket. */
  function Run(jobId: string, rId: int, stepId: int, nReducers: int, reducerKeys: seq<string>,
               jobBucket: map<string, ReducerInput>): Result<ReducerRun>
  {
    match Stream(reducerKeys, jobBucket)
    case Err(e) => Err(e)
    case Ok(s) =>
      Ok(ReducerRun(OutputKey(jobId, nReducers, stepId, rId), Merge(s), IntToString(|s|),
                    Report(|reducerKeys|, |s|)))
  }

  lemma MergeSnoc(stream: seq<(string, int)>, entry: (string, int))
    ensures Merge(stream + [entry]) == AddEntry(Merge(stream), entry)
  {
    assert (stream + [entry])[..|stream|] == stream;
  }

  /** The entry `float(val)` would merge, 0 standing for the raise. */
  function Value(entry: (string, Option<int>)): (string, int)
  {
    (entry.0, match entry.1 case Some(v) => v case None => 0)
  }

  lemma MergedAt(entries: seq<(string, Option<int>)>, j: nat)
    requires j < |entries|
    ensures entries[j].1.None? ==> Merged(entries[j..]) == [Value(entries[j])]
    ensures entries[j].1.Some? ==> Merged(entries[j..]) == [Value(entries[j])] + Merged(entries[j + 1..])
  {
    assert entries[j..][0] == entries[j];
    assert entries[j..][1..] == entries[j + 1..];
  }

  /** The inner loop of lambda_handler over the entries of one input. */
  method MergeEntries(results0: map<string, int>, lineCount0: nat, ghost done: seq<(string, int)>,
                      entries: seq<(string, Option<int>)>)
    returns (results: map<string, int>, lineCount: nat)
    requires results0 == Merge(done) && lineCount0 == |done|
    ensures results == Merge(done + Merged(entries)) && lineCount == |done + Merged(entries)|
  {
    results, lineCount := results0, lineCount0;
    ghost var acc := done;
    var j := 0;
    assert entries[0..] == entries;
    while j < |entries|
      invariant 0 <= j <= |entries|
      invariant done + Merged(entries) == acc + Merged(entries[j..])
      invariant results == Merge(acc)
      invariant lineCount == |acc| == |done| + j
    {
      var (srcIp, val) := entries[j];
      MergedAt(entries, j);
      MergeSnoc(acc, Value(entries[j]));
      lineCount := lineCount + 1;
      if srcIp !in results {
        results := results[srcIp := 0];
      }
      if val.None? {
        assert results == AddEntry(Merge(acc), (srcIp, 0));
        assert done + Merged(entries) == acc + [(srcIp, 0)];
        return;
      }
      results := results[srcIp := results[srcIp] + val.value];
      assert acc + Merged(entries[j..]) == (acc + [(srcIp, val.value)]) + Merged(entries[j + 1..]);
      acc := acc + [(srcIp, val.value)];
      j := j + 1;
    }
    assert entries[j..] == [];
    assert done + Merged(entries) == acc;
  }

  lemma {:induction false} StreamErrorSticks(reducerKeys: seq<string>, jobBucket: map<string, ReducerInput>, i: nat)
    requires i <= |reducerKeys| && Stream(reducerKeys[..i], jobBucket).Err?
    ensures Stream(reducerKeys, jobBucket) == Stream(reducerKeys[..i], jobBucket)
    decreases |reducerKeys| - i
  {
    if i < |reducerKeys| {
      assert reducerKeys[..i + 1][..i] == reducerKeys[..i];
      StreamErrorSticks(reducerKeys, jobBucket, i + 1);
    } else {
      assert reducerKeys[..i] == reducerKeys;
    }
  }

  method LambdaHandler(jobId: string, rId: int, stepId: int, nReducers: int, reducerKeys: seq<string>,
                       jobBucket: map<string, ReducerInput>)
    returns (r: Result<ReducerRun>)
    ensures r == Run(jobId, rId, stepId, nReducers, reducerKeys, jobBucket)
  {
    var results: map<string, int> := map[];
    var lineCount := 0;
    ghost var done: seq<(string, int)> := [];
    for i := 0 to |reducerKeys|
      invariant Stream(reducerKeys[..i], jobBucket) == Ok(done)
      invariant results == Merge(done)
      invariant lineCount == |done|
    {
      var key := reducerKeys[i];
      assert reducerKeys[..i + 1][..i] == reducerKeys[..i];
      if key !in jobBucket {
        StreamErrorSticks(reducerKeys, jobBucket, i + 1);
        return Err(NoSuchKey);
      }
      var contents := jobBucket[key];
      if contents.Entries? {
        results, lineCount := MergeEntries(results, lineCount, done, contents.entries);
        done := done + Merged(contents.entries);
      }
    }
    assert reducerKeys[..|reducerKeys|] == reducerKeys;
    var fname := OutputKey(jobId, nReducers, stepId, rId);
    r := Ok(ReducerRun(fname, results, IntToString(lineCount), Report(|reducerKeys|, lineCount)));
  }

  // ---------------------------------------------------------------------------
  // Properties
  // ---------------------------------------------------------------------------

  /** The inner loop merges the entries of an input in order, each with its
      own value, up to and including the first whose value float() rejects,
      which is merged as 0 and ends that input. */
  lemma {:induction false} MergedShape(entries: seq<(string, Option<int>)>)
    ensures var r := Merged(entries);
      && (entries != [] ==> r != [])
      && (forall i | 0 <= i < |r| :: r[i] == Value(entries[i]))
      && (forall i | 0 <= i < |r| - 1 :: entries[i].1.Some?)
      && (|r| < |entries| ==> entries[|r| - 1].1.None?)
    ensures (forall i | 0 <= i < |entries| :: entries[i].1.Some?) <==> |Merged(entries)| == |entries| && (entries == [] || entries[|entries| - 1].1.Some?)
    decreases |entries|
  {
    if entries != [] {
      var tail := entries[1..];
      MergedShape(tail);
      if entries[0].1.Some? {
        var r := Merged(entries);
        assert r == [Value(entries[0])] + Merged(tail);
        forall i | 0 <= i < |r|
          ensures r[i] == Value(entries[i])
        {
          if i > 0 {
            assert r[i] == Merged(tail)[i - 1];
            assert tail[i - 1] == entries[i];
          }
        }
        forall i | 0 <= i < |r| - 1
          ensures entries[i].1.Some?
        {
          if i > 0 {
            assert tail[i - 1] == entries[i];
          }
        }
        if |r| < |entries| {
          assert tail[|Merged(tail)| - 1] == entries[|r| - 1];
        }
        if forall i | 0 <= i < |tail| :: tail[i].1.Some? {
          assert forall i | 0 <= i < |entries| :: entries[i].1.Some? by {
            forall i | 0 <= i < |entries|
              ensures entries[i].1.Some?
            {
              if i > 0 {
                assert tail[i - 1] == entries[i];
              }
            }
          }
        }
        if tail != [] {
          assert tail[|tail| - 1] == entries[|entries| - 1];
        }
        if exists i | 0 <= i < |tail| :: tail[i].1.None? {
          var i :| 0 <= i < |tail| && tail[i].1.None?;
          assert entries[i + 1] == tail[i];
        }
      }
    }
  }

  /** Every merged entry puts its key into the results, and no other key
      gets there. */
  lemma {:induction false} MergeKeys(stream: seq<(string, int)>)
    ensures forall k :: k in Merge(stream) <==> exists i | 0 <= i < |stream| :: stream[i].0 == k
    decreases |stream|
  {
    if stream != [] {
      var init := stream[..|stream| - 1];
      MergeKeys(init);
      forall k | k in Merge(stream)
        ensures exists i | 0 <= i < |stream| :: stream[i].0 == k
      {
        if k != stream[|stream| - 1].0 {
          assert k in Merge(init);
          var i :| 0 <= i < |init| && init[i].0 == k;
          assert stream[i] == init[i];
        }
      }
      forall k | exists i | 0 <= i < |stream| :: stream[i].0 == k
        ensures k in Merge(stream)
      {
        var i :| 0 <= i < |stream| && stream[i].0 == k;
        if i < |init| {
          assert init[i] == stream[i];
        }
      }
    }
  }

  /** The sum of the values merged under `k`. */
  function SumAt(stream: seq<(string, int)>, k: string): int
    decreases |stream|
  {
    if stream == [] then 0
    else SumAt(stream[..|stream| - 1], k) + (if stream[|stream| - 1].0 == k then stream[|stream| - 1].1 else 0)
  }

  lemma {:induction false} SumAtAbsent(stream: seq<(string, int)>, k: string)
    requires k !in Merge(stream)
    ensures SumAt(stream, k) == 0
    decreases |stream|
  {
    if stream != [] {
      SumAtAbsent(stream[..|stream| - 1], k);
    }
  }

  /** Each total is the sum of the values merged under its key. */
  lemma {:induction false} MergeSums(stream: seq<(string, int)>, k: string)
    requires k in Merge(stream)
    ensures Merge(stream)[k] == SumAt(stream, k)
    decreases |stream|
  {
    if stream != [] {
      var init := stream[..|stream| - 1];
      if k in Merge(init) {
        MergeSums(init, k);
      } else {
        SumAtAbsent(init, k);
      }
    }
  }

  lemma StreamSnoc(reducerKeys: seq<string>, key: string, jobBucket: map<string, ReducerInput>)
    ensures Stream(reducerKeys + [key], jobBucket) == ReadInput(Stream(reducerKeys, jobBucket), key, jobBucket)
  {
    assert (reducerKeys + [key])[..|reducerKeys|] == reducerKeys;
  }

  /** Reading the inputs one group after another is reading them all: an
      input whose entries stop early does not stop the later inputs. */
  lemma {:induction false} StreamAppend(a: seq<string>, b: seq<string>, jobBucket: map<string, ReducerInput>)
    requires Stream(a, jobBucket).Ok? && Stream(b, jobBucket).Ok?
    ensures Stream(a + b, jobBucket) == Ok(Stream(a, jobBucket).value + Stream(b, jobBucket).value)
    decreases |b|
  {
    if b == [] {
      assert a + b == a;
      assert Stream(a, jobBucket).value + [] == Stream(a, jobBucket).value;
    } else {
      var init, key := b[..|b| - 1], b[|b| - 1];
      assert a + b == (a + init) + [key];
      assert b == init + [key];
      StreamSnoc(a + init, key, jobBucket);
      StreamAppend(a, init, jobBucket);
      var sa, sb := Stream(a, jobBucket).value, Stream(init, jobBucket).value;
      match jobBucket[key]
      case Unreadable =>
      case Entries(entries) =>
        assert sa + sb + Merged(entries) == sa + (sb + Merged(entries));
    }
  }

  /** A run fails iff some input is missing from the job bucket. */
  lemma {:induction false} StreamFails(reducerKeys: seq<string>, jobBucket: map<string, ReducerInput>)
    ensures Stream(reducerKeys, jobBucket).Err? <==> exists i | 0 <= i < |reducerKeys| :: reducerKeys[i] !in jobBucket
    decreases |reducerKeys|
  {
    if reducerKeys != [] {
      var init := reducerKeys[..|reducerKeys| - 1];
      StreamFails(init, jobBucket);
      if Stream(init, jobBucket).Err? {
        var i :| 0 <= i < |init| && init[i] !in jobBucket;
        assert reducerKeys[i] == init[i];
      }
      if exists i | 0 <= i < |reducerKeys| :: reducerKeys[i] !in jobBucket {
        var i :| 0 <= i < |reducerKeys| && reducerKeys[i] !in jobBucket;
        if i < |init| {
          assert reducerKeys[i] == init[i];
        }
      }
    }
  }

  /** A run writes the result iff it is the only reducer of its step, and
      counts one line per merged entry. */
  lemma RunReport(jobId: string, rId: int, stepId: int, nReducers: int, reducerKeys: seq<string>,
                  jobBucket: map<string, ReducerInput>)
    requires Run(jobId, rId, stepId, nReducers, reducerKeys, jobBucket).Ok?
    ensures var run := Run(jobId, rId, stepId, nReducers, reducerKeys, jobBucket).value;
      var s := Stream(reducerKeys, jobBucket).value;
      && (run.outputKey == jobId + "/result" <==> nReducers == 1)
      && run.report.keyCount == |reducerKeys|
      && run.report.lineCount == |s|
      && run.lineCountMetadata == IntToString(|s|)
      && (forall k :: k in run.results <==> exists i | 0 <= i < |s| :: s[i].0 == k)
      && (forall k | k in run.results :: run.results[k] == SumAt(s, k))
  {
    var s := Stream(reducerKeys, jobBucket).value;
    OutputKeyIsResult(jobId, nReducers, stepId, rId);
    MergeKeys(s);
    forall k | k in Merge(s) {
      MergeSums(s, k);
    }
  }

  lemma OutputKeyIsResult(jobId: string, nReducers: int, stepId: int, rId: int)
    ensures OutputKey(jobId, nReducers, stepId, rId) == jobId + "/result" <==> nReducers == 1
  {
    var key := OutputKey(jobId, nReducers, stepId, rId);
    if nReducers != 1 {
      assert key[|jobId| + 1] == 't';
      assert (jobId + "/result")[|jobId| + 1] == 'r';
    }
  }
}
