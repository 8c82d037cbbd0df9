/** src/nodejs/reducerCoordinator.js: the JavaScript reduce coordinator.
    The steps are those of the Python coordinator, with these differences:
    the keys are tested with case-insensitive regular expressions, marker
    indexes are read with parseInt (a malformed one is NaN and ignored),
    a step's outputs are recognised by their third '/'-component, the
    batch size can be +Infinity, every invocation request is made before
    any reply is seen, and the handler replies with a message. */
module JsCoordinator {
  import opened Outcomes
  import opened Text
  import opened JsNumbers
  import opened JsRegex
  import opened Store
  import opened ReducerEvent
  import LambdaUtils
  import JsUtils

  /** MAPPERS_DONE: the step number reported before any reducer step. */
  const MappersDone := 0

  /** The Lambda memory size (MB) getReducerBatchSize plans for. */
  const ReducerMemory := 1536

  predicate IsMapperOutput(key: string)
  {
    Search(key, MapperPattern)
  }

  predicate IsResult(key: string)
  {
    Search(key, ResultPattern)
  }

  predicate IsMarker(key: string)
  {
    Search(key, MarkerPattern)
  }

  // ---------------------------------------------------------------------------
  // getMapperFiles, _check_job_done, _get_keys
  // ---------------------------------------------------------------------------

  function MapperFiles(files: seq<ListedObject>): seq<ListedObject>
  {
    Select(files, IsMapperOutput)
  }

  /** getMapperFiles(mappers). */
  method GetMapperFiles(mappers: seq<ListedObject>) returns (ret: seq<ListedObject>)
    ensures ret == MapperFiles(mappers)
  {
    ret := [];
    for i := 0 to |mappers|
      invariant ret == Select(mappers[..i], IsMapperOutput)
    {
      assert mappers[..i + 1][..i] == mappers[..i];
      if Search(mappers[i].key, MapperPattern) {
        ret := ret + [mappers[i]];
      }
    }
    assert mappers[..|mappers|] == mappers;
  }

  predicate JobDone(files: seq<ListedObject>)
  {
    Any(files, IsResult)
  }

  /** _check_job_done(files): true iff some key matches `/result/i`. */
  method CheckJobDone(files: seq<ListedObject>) returns (done: bool)
    ensures done == JobDone(files)
  {
    for i := 0 to |files|
      invariant !Any(files[..i], IsResult)
    {
      AnyExtend(files[..i + 1], IsResult);
      assert files[..i + 1][..i] == files[..i];
      if Search(files[i].key, ResultPattern) {
        return true;
      }
    }
    assert files[..|files|] == files;
    return false;
  }

  /** _get_keys(objs). */
  method GetKeys(objs: seq<ListedObject>) returns (keys: seq<string>)
    ensures |keys| == |objs|
    ensures forall i | 0 <= i < |objs| :: keys[i] == objs[i].key
  {
    keys := [];
    for i := 0 to |objs|
      invariant |keys| == i
      invariant forall j | 0 <= j < i :: keys[j] == objs[j].key
    {
      keys := keys + [objs[i].key];
    }
  }

  // ---------------------------------------------------------------------------
  // getReducerBatchSize
  // ---------------------------------------------------------------------------

  /** getReducerBatchSize(keys): computeBatchSize (gzip not given, so the
      0.6 factor) when that is at least 2, and 2 otherwise. */
  function ReducerBatchSize(keys: seq<ListedObject>): (r: JsNumber)
    ensures r == PosInfinity || (r.Finite? && r.value >= 2)
    ensures var planned := JsUtils.BatchSize(Sizes(keys), ReducerMemory, false);
      r == (if NotBelow(planned, 2) then planned else Finite(2))
  {
    var batchSize := JsUtils.BatchSize(Sizes(keys), ReducerMemory, false);
    if NotBelow(batchSize, 2) then batchSize else Finite(2)
  }

  /** Keys of total size 0 give a batch size of +Infinity, hence a single
      batch; where Python raises ZeroDivisionError. */
  lemma EmptyInputsOneBatch(keys: seq<ListedObject>)
    requires keys != [] && LambdaUtils.Sum(Sizes(keys)) == 0
    ensures ReducerBatchSize(keys) == PosInfinity
    ensures JsUtils.Batches(keys, ReducerBatchSize(keys)) == [keys]
  {
  }

  // ---------------------------------------------------------------------------
  // getReducerStateInfo
  // ---------------------------------------------------------------------------

  /** `parseInt(key.split('.')[1])`; parseInt(undefined) is NaN. */
  function MarkerIndex(key: string): JsNumber
  {
    var parts := Split(key, '.');
    if |parts| < 2 then NaN else ParseInt(parts[1])
  }

  /** The first loop of getReducerStateInfo: whether some marker is listed,
      and rIndex, raised by every marker index greater than it (a NaN index
      is greater than nothing). */
  function LatestStep(files: seq<ListedObject>): (bool, int)
    decreases |files|
  {
    if files == [] then (false, 0)
    else
      var (found, r) := LatestStep(files[..|files| - 1]);
      var key := files[|files| - 1].key;
      if !IsMarker(key) then (found, r)
      else
        match MarkerIndex(key)
        case Finite(idx) => (true, if idx > r then idx else r)
        case _ => (true, r)
  }

  predicate SomeMarker(files: seq<ListedObject>)
  {
    Any(files, IsMarker)
  }

  /** The numeric marker indexes, each at most `r`. */
  predicate Bounds(files: seq<ListedObject>, r: int)
  {
    forall i | 0 <= i < |files| && IsMarker(files[i].key) && MarkerIndex(files[i].key).Finite? ::
      MarkerIndex(files[i].key).value <= r
  }

  predicate Attained(files: seq<ListedObject>, r: int)
  {
    Any(files, key => IsMarker(key) && MarkerIndex(key) == Finite(r))
  }

  lemma ExtendMarker(files: seq<ListedObject>)
    requires files != []
    ensures SomeMarker(files) <==> SomeMarker(files[..|files| - 1]) || IsMarker(files[|files| - 1].key)
  {
    AnyExtend(files, IsMarker);
  }

  lemma ExtendBounds(files: seq<ListedObject>, r: int)
    requires files != []
    ensures var key := files[|files| - 1].key;
      Bounds(files, r) <==>
        Bounds(files[..|files| - 1], r) && (IsMarker(key) && MarkerIndex(key).Finite? ==> MarkerIndex(key).value <= r)
  {
    var init := files[..|files| - 1];
    assert forall i | 0 <= i < |init| :: files[i] == init[i];
  }

  lemma ExtendAttained(files: seq<ListedObject>, r: int)
    requires files != []
    ensures var key := files[|files| - 1].key;
      Attained(files, r) <==> Attained(files[..|files| - 1], r) || (IsMarker(key) && MarkerIndex(key) == Finite(r))
  {
    AnyExtend(files, key => IsMarker(key) && MarkerIndex(key) == Finite(r));
  }

  /** rIndex is the maximum of 0 and the numeric marker indexes. */
  lemma {:induction false} LatestStepIsMaximum(files: seq<ListedObject>)
    ensures var (found, r) := LatestStep(files);
      && (found <==> SomeMarker(files))
      && r >= 0
      && Bounds(files, r)
      && (r == 0 || Attained(files, r))
    decreases |files|
  {
    if files != [] {
      var init := files[..|files| - 1];
      var key := files[|files| - 1].key;
      LatestStepIsMaximum(init);
      var (found, r) := LatestStep(files);
      var r0 := LatestStep(init).1;
      ExtendMarker(files);
      ExtendBounds(files, r);
      ExtendBounds(files, r0);
      ExtendAttained(files, r);
      ExtendAttained(files, r0);
      if r != r0 {
        BoundsWeaken(init, r0, r);
      }
    }
  }

  lemma BoundsWeaken(files: seq<ListedObject>, r0: int, r: int)
    requires Bounds(files, r0) && r0 <= r
    ensures Bounds(files, r)
  {
  }

  /** `parts[2].indexOf('reducer' + step) >= 0` for a key of at least three
      '/'-components. */
  predicate IsStepOutput(key: string, step: int)
  {
    var parts := Split(key, '/');
    |parts| >= 3 && Contains(parts[2], "reducer" + IntToString(step))
  }

  function StepOutputs(files: seq<ListedObject>, step: int): seq<ListedObject>
  {
    Select(files, key => IsStepOutput(key, step))
  }

  function MarkerKey(jobId: string, step: int): string
  {
    jobId + "/reducerstate." + IntToString(step)
  }

  /** getReducerStateInfo(files, cb): what it passes to `cb`. `markers`
      holds the marker objects of the bucket, by key: their numeric
      reducerCount, or None when that field is missing (then the
      comparison with the output count is false). Reading a marker the
      bucket does not hold leaves `data` null, and reading its Body
      throws a TypeError. */
  function ReducerStateInfo(files: seq<ListedObject>, jobId: string, markers: map<string, Option<int>>)
    : Result<(int, seq<ListedObject>)>
  {
    var (found, r) := LatestStep(files);
    if !found then Ok((MappersDone, MapperFiles(files)))
    else
      var key := MarkerKey(jobId, r);
      if key !in markers then Err(TypeError)
      else
        var outputs := StepOutputs(files, r);
        Ok((r, if markers[key] == Some(|outputs|) then outputs else []))
  }

  method GetReducerStateInfo(files: seq<ListedObject>, jobId: string, markers: map<string, Option<int>>)
    returns (r: Result<(int, seq<ListedObject>)>)
    ensures r == ReducerStateInfo(files, jobId, markers)
  {
    var reducerStep := false;
    var rIndex := 0;
    for i := 0 to |files|
      invariant LatestStep(files[..i]) == (reducerStep, rIndex)
    {
      assert files[..i + 1][..i] == files[..i];
      if Search(files[i].key, MarkerPattern) {
        var idx := MarkerIndex(files[i].key);
        if idx.Finite? && idx.value > rIndex {
          rIndex := idx.value;
        }
        reducerStep := true;
      }
    }
    assert files[..|files|] == files;
    if !reducerStep {
      var mapperOutputFiles := GetMapperFiles(files);
      return Ok((MappersDone, mapperOutputFiles));
    }
    var key := MarkerKey(jobId, rIndex);
    if key !in markers {
      return Err(TypeError);
    }
    var contents := markers[key];
    var reducers := [];
    for i := 0 to |files|
      invariant reducers == StepOutputs(files[..i], rIndex)
    {
      assert files[..i + 1][..i] == files[..i];
      var parts := Split(files[i].key, '/');
      if |parts| < 3 {
        continue;
      }
      var op := parts[2];
      if Contains(op, "reducer" + IntToString(rIndex)) {
        reducers := reducers + [files[i]];
      }
    }
    assert files[..|files|] == files;
    if contents == Some(|reducers|) {
      return Ok((rIndex, reducers));
    }
    return Ok((rIndex, []));
  }

  /** Without a listed marker the mapper files are the next inputs; with
      one, the step is the latest marker index (the maximum of 0 and the
      finite parsed indexes), and that step's outputs are returned only when the marker's
      reducerCount is their number, and nothing is returned otherwise; a
      missing marker object is the only failure. */
  lemma StateInfoCases(files: seq<ListedObject>, jobId: string, markers: map<string, Option<int>>)
    ensures ReducerStateInfo(files, jobId, markers).Err? <==>
      SomeMarker(files) && MarkerKey(jobId, LatestStep(files).1) !in markers
    ensures ReducerStateInfo(files, jobId, markers).Ok? ==>
      var (step, inputs) := ReducerStateInfo(files, jobId, markers).value;
      && (!SomeMarker(files) ==> step == MappersDone && inputs == MapperFiles(files))
      && (SomeMarker(files) ==>
            step == LatestStep(files).1 &&
            step >= 0 && Bounds(files, step) && (step == 0 || Attained(files, step)) &&
            MarkerKey(jobId, step) in markers &&
            inputs == (if markers[MarkerKey(jobId, step)] == Some(|StepOutputs(files, step)|)
                       then StepOutputs(files, step) else []))
      && (forall f | f in inputs :: f in files)
  {
    LatestStepIsMaximum(files);
    SelectMembers(files, IsMapperOutput);
    SelectMembers(files, key => IsStepOutput(key, LatestStep(files).1));
  }

  // ---------------------------------------------------------------------------
  // The handler
  // ---------------------------------------------------------------------------

  datatype Action =
    | JobComplete
    | AwaitMappers
    | AwaitStep(step: int)
    | Dispatch(step: int, inputs: seq<ListedObject>, batchSize: JsNumber, batches: seq<seq<ListedObject>>)

  function Decide(files: seq<ListedObject>, jobId: string, mapCount: int, markers: map<string, Option<int>>)
    : Result<Action>
  {
    if JobDone(files) then Ok(JobComplete)
    else if mapCount != |MapperFiles(files)| then Ok(AwaitMappers)
    else
      match ReducerStateInfo(files, jobId, markers)
      case Err(e) => Err(e)
      case Ok((step, inputs)) =>
        if |inputs| == 0 then Ok(AwaitStep(step))
        else
          var b := ReducerBatchSize(inputs);
          Ok(Dispatch(step, inputs, b, JsUtils.Batches(inputs, b)))
  }

  /** The marker object written after the invocations: its key and its
      numeric reducerCount and totalS3Files fields. */
  datatype MarkerWrite = MarkerWrite(key: string, reducerCount: int, totalS3Files: int)

  /** The effects of one trigger: the invocation requests made, the marker
      written, and the message passed to the handler's callback, or the
      exception thrown instead. */
  datatype Outcome = Outcome(invoked: seq<Invocation>, marker: Option<MarkerWrite>, reply: Result<string>)

  /** The async.map over the invocations and the marker write. All requests
      are made; the request with reducerId `i` fails iff `i` is in
      `failing`, and any failure skips the marker write. */
  function DispatchOutcome(bucket: string, jobId: string, step: int, batches: seq<seq<ListedObject>>,
                           failing: set<int>): Outcome
  {
    var payloads := Payloads(bucket, jobId, step + 1, batches);
    if exists i | 0 <= i < |batches| :: i in failing then
      Outcome(payloads, None, Ok("Reducer invocation error"))
    else
      var nS3 := |batches| * (if batches == [] then 0 else |batches[0]|);
      Outcome(payloads, Some(MarkerWrite(MarkerKey(jobId, step + 1), |batches|, nS3)), Ok("Invoked Reducer Step"))
  }

  /** exports.handler for the bucket `bucket`. */
  function Handle(bucket: string, files: seq<ListedObject>, jobId: string, mapCount: int,
                  markers: map<string, Option<int>>, failing: set<int>): Outcome
  {
    match Decide(files, jobId, mapCount, markers)
    case Err(e) => Outcome([], None, Err(e))
    case Ok(JobComplete) => Outcome([], None, Ok("Job done!!! Check the result file: " + jobId + "/result"))
    case Ok(AwaitMappers) => Outcome([], None, Ok("I am still waiting for all the mappers to finish .."))
    case Ok(AwaitStep(step)) => Outcome([], None, Ok("Still waiting to finish Reducer step " + IntToString(step)))
    case Ok(Dispatch(step, _, _, batches)) => DispatchOutcome(bucket, jobId, step, batches, failing)
  }

  method InvokeReducers(bucket: string, jobId: string, stepNumber: int, rBatchParams: seq<seq<ListedObject>>,
                        failing: set<int>)
    returns (out: Outcome)
    requires rBatchParams != []
    ensures out == DispatchOutcome(bucket, jobId, stepNumber, rBatchParams, failing)
  {
    var nReducers := |rBatchParams|;
    var nS3 := nReducers * |rBatchParams[0]|;
    var stepId := stepNumber + 1;
    ghost var payloads := Payloads(bucket, jobId, stepId, rBatchParams);
    var lambdaBatchParams := [];
    for i := 0 to |rBatchParams|
      invariant lambdaBatchParams == payloads[..i]
    {
      var keys := GetKeys(rBatchParams[i]);
      assert keys == Keys(rBatchParams[i]);
      lambdaBatchParams := lambdaBatchParams + [Invocation(bucket, keys, bucket, jobId, nReducers, stepId, i)];
      assert payloads[..i + 1] == payloads[..i] + [payloads[i]];
    }
    assert lambdaBatchParams == payloads;
    var err := false;
    for i := 0 to |lambdaBatchParams|
      invariant err <==> exists j | 0 <= j < i :: j in failing
    {
      if i in failing {
        err := true;
      }
    }
    if err {
      return Outcome(lambdaBatchParams, None, Ok("Reducer invocation error"));
    }
    var fname := MarkerKey(jobId, stepId);
    return Outcome(lambdaBatchParams, Some(MarkerWrite(fname, nReducers, nS3)), Ok("Invoked Reducer Step"));
  }

  method Handler(bucket: string, files: seq<ListedObject>, jobId: string, mapCount: int,
                 markers: map<string, Option<int>>, failing: set<int>)
    returns (out: Outcome)
    ensures out == Handle(bucket, files, jobId, mapCount, markers, failing)
  {
    var done := CheckJobDone(files);
    if done {
      return Outcome([], None, Ok("Job done!!! Check the result file: " + jobId + "/result"));
    }
    var mapperKeys := GetMapperFiles(files);
    if mapCount != |mapperKeys| {
      return Outcome([], None, Ok("I am still waiting for all the mappers to finish .."));
    }
    var stepInfo := GetReducerStateInfo(files, jobId, markers);
    if stepInfo.Err? {
      return Outcome([], None, Err(stepInfo.error));
    }
    var stepNumber, reducerKeys := stepInfo.value.0, stepInfo.value.1;
    if |reducerKeys| == 0 {
      return Outcome([], None, Ok("Still waiting to finish Reducer step " + IntToString(stepNumber)));
    }
    var rBatchSize := ReducerBatchSize(reducerKeys);
    var rBatchParams := JsUtils.BatchCreator(reducerKeys, rBatchSize);
    out := InvokeReducers(bucket, jobId, stepNumber, rBatchParams, failing);
  }

  /** A job is done iff some key, folded to lower case, contains "result". */
  lemma ResultPatternFound(files: seq<ListedObject>)
    ensures JobDone(files) <==> exists i | 0 <= i < |files| :: Contains(Lower(files[i].key), "result")
  {
    forall i | 0 <= i < |files| {
      ResultPatternIsSubstring(files[i].key);
    }
  }

  // ---------------------------------------------------------------------------
  // Properties of a trigger
  // ---------------------------------------------------------------------------

  /** A trigger that does not dispatch invokes nothing and writes nothing. */
  lemma NoDispatchNoEffect(bucket: string, files: seq<ListedObject>, jobId: string, mapCount: int,
                           markers: map<string, Option<int>>, failing: set<int>)
    requires !(Decide(files, jobId, mapCount, markers).Ok? && Decide(files, jobId, mapCount, markers).value.Dispatch?)
    ensures Handle(bucket, files, jobId, mapCount, markers, failing).invoked == []
    ensures Handle(bucket, files, jobId, mapCount, markers, failing).marker == None
  {
  }

  /** A dispatching trigger requests one reducer per batch, with reducerId
      0..n-1, nReducers = n and stepId = step + 1, each on the keys of its
      batch, which together are the step's inputs; the marker for step + 1,
      holding n, is written iff no request failed. */
  lemma DispatchEffects(bucket: string, files: seq<ListedObject>, jobId: string, mapCount: int,
                        markers: map<string, Option<int>>, failing: set<int>)
    requires Decide(files, jobId, mapCount, markers).Ok?
    requires Decide(files, jobId, mapCount, markers).value.Dispatch?
    ensures var a := Decide(files, jobId, mapCount, markers).value;
      var out := Handle(bucket, files, jobId, mapCount, markers, failing);
      var n := |a.batches|;
      && |out.invoked| == n
      && (forall i | 0 <= i < n ::
            && out.invoked[i].reducerId == i
            && out.invoked[i].nReducers == n
            && out.invoked[i].stepId == a.step + 1
            && out.invoked[i].keys == Keys(a.batches[i])
            && out.invoked[i].jobId == jobId
            && out.invoked[i].bucket == bucket && out.invoked[i].jobBucket == bucket)
      && (out.marker.Some? <==> forall i | 0 <= i < n :: i !in failing)
      && (out.marker.Some? ==>
            && out.marker.value.key == MarkerKey(jobId, a.step + 1)
            && out.marker.value.reducerCount == n
            && out.marker.value.totalS3Files == (if n == 0 then 0 else n * |a.batches[0]|)
            && out.reply == Ok("Invoked Reducer Step"))
      && (out.marker.None? ==> out.reply == Ok("Reducer invocation error"))
      && LambdaUtils.Flatten(a.batches) == a.inputs
  {
    var a := Decide(files, jobId, mapCount, markers).value;
    assert Handle(bucket, files, jobId, mapCount, markers, failing) == DispatchOutcome(bucket, jobId, a.step, a.batches, failing);
    DispatchOutcomeShape(bucket, jobId, a.step, a.batches, failing);
    JsUtils.BatchesPartition(a.inputs, a.batchSize);
  }

  lemma DispatchOutcomeShape(bucket: string, jobId: string, step: int, batches: seq<seq<ListedObject>>, failing: set<int>)
    ensures var out := DispatchOutcome(bucket, jobId, step, batches, failing);
      var n := |batches|;
      && |out.invoked| == n
      && (forall i | 0 <= i < n ::
            && out.invoked[i].reducerId == i
            && out.invoked[i].nReducers == n
            && out.invoked[i].stepId == step + 1
            && out.invoked[i].keys == Keys(batches[i])
            && out.invoked[i].jobId == jobId
            && out.invoked[i].bucket == bucket && out.invoked[i].jobBucket == bucket)
      && (out.marker.Some? <==> forall i | 0 <= i < n :: i !in failing)
      && (out.marker.Some? ==>
            && out.marker.value.key == MarkerKey(jobId, step + 1)
            && out.marker.value.reducerCount == n
            && out.marker.value.totalS3Files == (if n == 0 then 0 else n * |batches[0]|)
            && out.reply == Ok("Invoked Reducer Step"))
      && (out.marker.None? ==> out.reply == Ok("Reducer invocation error"))
  {
  }

  /** Every step makes progress: two or more inputs go to fewer reducers
      than there are inputs, a single input to a single reducer, and the
      totalS3Files figure covers all inputs. */
  lemma DispatchProgress(files: seq<ListedObject>, jobId: string, mapCount: int, markers: map<string, Option<int>>)
    requires Decide(files, jobId, mapCount, markers).Ok?
    requires Decide(files, jobId, mapCount, markers).value.Dispatch?
    ensures var a := Decide(files, jobId, mapCount, markers).value;
      && |a.inputs| >= 1
      && (|a.inputs| >= 2 ==> |a.batches| < |a.inputs|)
      && (|a.inputs| == 1 ==> a.batches == [a.inputs])
      && |a.batches| >= 1
      && |a.batches| * |a.batches[0]| >= |a.inputs|
  {
    var a := Decide(files, jobId, mapCount, markers).value;
    var k := JsUtils.JsLimit(a.batchSize, |a.inputs|);
    assert k >= 2;
    LambdaUtils.ChunksFewer(a.inputs, k);
    LambdaUtils.ChunksCover(a.inputs, k);
  }
}
