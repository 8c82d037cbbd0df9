/** src/python/reducerCoordinator.py: the stateless reduce coordinator.
    Every trigger re-derives the job's state from a listing of the job's
    objects and, at most, one marker object `<job>/reducerstate.<step>`:
    the job is done once a `result` key is listed; otherwise, once all
    mappers have written their output, the coordinator finds the latest
    step, checks that step's outputs are all there, cuts them into batches
    and invokes one reducer per batch for the next step, then writes the
    next step's marker. */
module PyCoordinator {
  import opened Outcomes
  import opened Text
  import opened Store
  import opened ReducerEvent
  import LambdaUtils

  /** MAPPERS_DONE: the step number reported before any reducer step. */
  const MappersDone := 0

  /** The Lambda memory size (MB) get_reducer_batch_size plans for. */
  const ReducerMemory := 1536

  predicate IsMapperOutput(key: string)
  {
    Contains(key, "task/mapper")
  }

  predicate IsResult(key: string)
  {
    Contains(key, "result")
  }

  predicate IsMarker(key: string)
  {
    Contains(key, "reducerstate.")
  }

  // ---------------------------------------------------------------------------
  // get_mapper_files and check_job_done
  // ---------------------------------------------------------------------------

  /** get_mapper_files(files). */
  function MapperFiles(files: seq<ListedObject>): seq<ListedObject>
  {
    Select(files, IsMapperOutput)
  }

  method GetMapperFiles(files: seq<ListedObject>) returns (ret: seq<ListedObject>)
    ensures ret == MapperFiles(files)
  {
    ret := [];
    for i := 0 to |files|
      invariant ret == Select(files[..i], IsMapperOutput)
    {
      assert files[..i + 1][..i] == files[..i];
      if Contains(files[i].key, "task/mapper") {
        ret := ret + [files[i]];
      }
    }
    assert files[..|files|] == files;
  }

  predicate JobDone(files: seq<ListedObject>)
  {
    exists i | 0 <= i < |files| :: IsResult(files[i].key)
  }

  /** check_job_done(files): true iff some listed key contains "result". */
  method CheckJobDone(files: seq<ListedObject>) returns (done: bool)
    ensures done <==> exists i | 0 <= i < |files| :: Contains(files[i].key, "result")
  {
    for i := 0 to |files|
      invariant forall j | 0 <= j < i :: !Contains(files[j].key, "result")
    {
      if Contains(files[i].key, "result") {
        return true;
      }
    }
    return false;
  }

  // ---------------------------------------------------------------------------
  // get_reducer_batch_size
  // ---------------------------------------------------------------------------

  /** get_reducer_batch_size(keys): compute_batch_size raised to at least 2,
      so that every reducer step merges at least two inputs. */
  function ReducerBatchSize(keys: seq<ListedObject>): (r: Result<int>)
    ensures r.Err? <==> LambdaUtils.BatchSize(Sizes(keys), ReducerMemory).Err?
    ensures r.Err? ==> r.error == ZeroDivisionError
    ensures r.Ok? ==> r.value >= 2
    ensures r.Ok? ==> var planned := LambdaUtils.BatchSize(Sizes(keys), ReducerMemory).value;
      r.value >= planned && (r.value == planned || r.value == 2)
  {
    match LambdaUtils.BatchSize(Sizes(keys), ReducerMemory)
    case Err(e) => Err(e)
    case Ok(b) => Ok(if b > 2 then b else 2)
  }

  // ---------------------------------------------------------------------------
  // get_reducer_state_info
  // ---------------------------------------------------------------------------

  /** `int(key.split('.')[1])` for a marker key; the index is always there,
      because a marker key contains a '.'. */
  function MarkerIndex(key: string): Result<int>
    requires IsMarker(key)
  {
    ContainsChars(key, "reducerstate.", 12);
    SplitAtSeparator(key, '.');
    PyInt(Split(key, '.')[1])
  }

  /** The first loop of get_reducer_state_info: whether some marker is
      listed and the largest marker index, starting from 0; int() raising
      on a malformed index ends the call. */
  function LatestStep(files: seq<ListedObject>): Result<(bool, int)>
    decreases |files|
  {
    if files == [] then Ok((false, 0))
    else
      match LatestStep(files[..|files| - 1])
      case Err(e) => Err(e)
      case Ok(state) =>
        var key := files[|files| - 1].key;
        if !IsMarker(key) then Ok(state)
        else
          match MarkerIndex(key)
          case Err(e) => Err(e)
          case Ok(idx) => Ok((true, if idx > state.1 then idx else state.1))
  }

  predicate SomeMarker(files: seq<ListedObject>)
  {
    Any(files, IsMarker)
  }

  predicate SomeMalformed(files: seq<ListedObject>)
  {
    Any(files, key => IsMarker(key) && MarkerIndex(key).Err?)
  }

  /** Every well-formed marker index is at most `r`. */
  predicate Bounds(files: seq<ListedObject>, r: int)
  {
    forall i | 0 <= i < |files| && IsMarker(files[i].key) && MarkerIndex(files[i].key).Ok? ::
      MarkerIndex(files[i].key).value <= r
  }

  predicate Attained(files: seq<ListedObject>, r: int)
  {
    Any(files, key => IsMarker(key) && MarkerIndex(key) == Ok(r))
  }

  /** How the four predicates above extend by one listed object. */
  lemma ExtendMarker(files: seq<ListedObject>)
    requires files != []
    ensures SomeMarker(files) <==> SomeMarker(files[..|files| - 1]) || IsMarker(files[|files| - 1].key)
  {
    AnyExtend(files, IsMarker);
  }

  lemma ExtendMalformed(files: seq<ListedObject>)
    requires files != []
    ensures var key := files[|files| - 1].key;
      SomeMalformed(files) <==> SomeMalformed(files[..|files| - 1]) || (IsMarker(key) && MarkerIndex(key).Err?)
  {
    AnyExtend(files, key => IsMarker(key) && MarkerIndex(key).Err?);
  }

  lemma ExtendBounds(files: seq<ListedObject>, r: int)
    requires files != []
    ensures var key := files[|files| - 1].key;
      Bounds(files, r) <==>
        Bounds(files[..|files| - 1], r) && (IsMarker(key) && MarkerIndex(key).Ok? ==> MarkerIndex(key).value <= r)
  {
    var init := files[..|files| - 1];
    assert forall i | 0 <= i < |init| :: files[i] == init[i];
  }

  lemma ExtendAttained(files: seq<ListedObject>, r: int)
    requires files != []
    ensures var key := files[|files| - 1].key;
      Attained(files, r) <==> Attained(files[..|files| - 1], r) || (IsMarker(key) && MarkerIndex(key) == Ok(r))
  {
    AnyExtend(files, key => IsMarker(key) && MarkerIndex(key) == Ok(r));
  }

  /** LatestStep fails iff some marker index is malformed. */
  lemma {:induction false} LatestStepFails(files: seq<ListedObject>)
    ensures LatestStep(files).Err? <==> SomeMalformed(files)
    decreases |files|
  {
    if files != [] {
      LatestStepFails(files[..|files| - 1]);
      ExtendMalformed(files);
    }
  }

  /** Otherwise it reports whether a marker is listed and the maximum of 0
      and every marker index. */
  lemma {:induction false} LatestStepIsMaximum(files: seq<ListedObject>)
    requires LatestStep(files).Ok?
    ensures var (found, r) := LatestStep(files).value;
      && (found <==> SomeMarker(files))
      && r >= 0
      && Bounds(files, r)
      && (r == 0 || Attained(files, r))
    decreases |files|
  {
    if files != [] {
      var init := files[..|files| - 1];
      var key := files[|files| - 1].key;
      LatestStepIsMaximum(init);
      var (found, r) := LatestStep(files).value;
      var r0 := LatestStep(init).value.1;
      ExtendMarker(files);
      ExtendBounds(files, r);
      ExtendBounds(files, r0);
      ExtendAttained(files, r);
      ExtendAttained(files, r0);
      if IsMarker(key) && r != r0 {
        BoundsWeaken(init, r0, r);
      } else {
        assert r == r0;
      }
    }
  }

  lemma BoundsWeaken(files: seq<ListedObject>, r0: int, r: int)
    requires Bounds(files, r0) && r0 <= r
    ensures Bounds(files, r)
  {
  }

  /** Once a malformed marker index makes the loop raise, reading further
      keys does not undo it. */
  lemma {:induction false} LatestStepErrorSticks(files: seq<ListedObject>, i: nat)
    requires i <= |files| && LatestStep(files[..i]).Err?
    ensures LatestStep(files) == LatestStep(files[..i])
    decreases |files| - i
  {
    if i < |files| {
      assert files[..i + 1][..i] == files[..i];
      LatestStepErrorSticks(files, i + 1);
    } else {
      assert files[..i] == files;
    }
  }

  /** A listed key counts as an output of reducer step `step`. */
  predicate IsStepOutput(key: string, step: int)
  {
    |Split(key, '/')| >= 3 && Contains(key, "reducer/" + IntToString(step))
  }

  function StepOutputs(files: seq<ListedObject>, step: int): seq<ListedObject>
  {
    Select(files, key => IsStepOutput(key, step))
  }

  /** `"%s/reducerstate.%s" % (job_id, step)`. */
  function MarkerKey(jobId: string, step: int): string
  {
    jobId + "/reducerstate." + IntToString(step)
  }

  /** get_reducer_state_info(files, job_id, job_bucket). `markers` holds
      the marker objects the job bucket stores, by key: the text of their
      `reducerCount` field, or None when that field is missing. */
  function ReducerStateInfo(files: seq<ListedObject>, jobId: string, markers: map<string, Option<string>>)
    : Result<(int, seq<ListedObject>)>
  {
    match LatestStep(files)
    case Err(e) => Err(e)
    case Ok((found, r)) =>
      if !found then Ok((MappersDone, MapperFiles(files)))
      else
        var key := MarkerKey(jobId, r);
        if key !in markers then Err(NoSuchKey)
        else
          match markers[key]
          case None => Err(KeyError)
          case Some(text) =>
            match PyInt(text)
            case Err(e) => Err(e)
            case Ok(count) =>
              var outputs := StepOutputs(files, r);
              Ok((r, if count == |outputs| then outputs else []))
  }

  method GetReducerStateInfo(files: seq<ListedObject>, jobId: string, markers: map<string, Option<string>>)
    returns (r: Result<(int, seq<ListedObject>)>)
    ensures r == ReducerStateInfo(files, jobId, markers)
  {
    var reducerStep := false;
    var rIndex := 0;
    for i := 0 to |files|
      invariant LatestStep(files[..i]) == Ok((reducerStep, rIndex))
    {
      assert files[..i + 1][..i] == files[..i];
      assert files[..i + 1][i] == files[i];
      if Contains(files[i].key, "reducerstate.") {
        var idx := MarkerIndex(files[i].key);
        if idx.Err? {
          LatestStepErrorSticks(files, i + 1);
          return Err(idx.error);
        }
        if idx.value > rIndex {
          rIndex := idx.value;
        }
        reducerStep := true;
      }
    }
    assert files[..|files|] == files;
    if !reducerStep {
      var mapperFiles := GetMapperFiles(files);
      return Ok((MappersDone, mapperFiles));
    }
    var key := MarkerKey(jobId, rIndex);
    if key !in markers {
      return Err(NoSuchKey);
    }
    if markers[key].None? {
      return Err(KeyError);
    }
    var count := PyInt(markers[key].value);
    if count.Err? {
      return Err(count.error);
    }
    var reducers := [];
    for i := 0 to |files|
      invariant reducers == StepOutputs(files[..i], rIndex)
    {
      assert files[..i + 1][..i] == files[..i];
      var parts := Split(files[i].key, '/');
      if |parts| < 3 {
        continue;
      }
      if Contains(files[i].key, "reducer/" + IntToString(rIndex)) {
        reducers := reducers + [files[i]];
      }
    }
    assert files[..|files|] == files;
    if count.value == |reducers| {
      return Ok((rIndex, reducers));
    }
    return Ok((rIndex, []));
  }

  /** Without a listed marker the mapper files are the next inputs; with
      one, the step is the latest marker index (the maximum of 0 and the
      listed indexes), and that step's outputs are returned only when their
      number is the marker's reducerCount, and nothing is returned
      otherwise. */
  lemma StateInfoCases(files: seq<ListedObject>, jobId: string, markers: map<string, Option<string>>)
    requires ReducerStateInfo(files, jobId, markers).Ok?
    ensures var (step, inputs) := ReducerStateInfo(files, jobId, markers).value;
      && ((forall i | 0 <= i < |files| :: !IsMarker(files[i].key)) ==> step == MappersDone && inputs == MapperFiles(files))
      && ((exists i | 0 <= i < |files| :: IsMarker(files[i].key)) ==>
            && LatestStep(files).Ok? && step == LatestStep(files).value.1
            && step >= 0 && Bounds(files, step) && (step == 0 || Attained(files, step))
            && MarkerKey(jobId, step) in markers
            && markers[MarkerKey(jobId, step)].Some?
            && PyInt(markers[MarkerKey(jobId, step)].value).Ok?
            && var count := PyInt(markers[MarkerKey(jobId, step)].value).value;
               inputs == (if count == |StepOutputs(files, step)| then StepOutputs(files, step) else []))
      && (forall f | f in inputs :: f in files)
  {
    LatestStepFails(files);
    LatestStepIsMaximum(files);
    SelectMembers(files, IsMapperOutput);
    SelectMembers(files, key => IsStepOutput(key, LatestStep(files).value.1));
  }

  // ---------------------------------------------------------------------------
  // lambda_handler
  // ---------------------------------------------------------------------------

  /** What one trigger decides to do. */
  datatype Action =
    | JobComplete                  // a result key is listed
    | AwaitMappers                 // the mapper outputs do not number mapCount
    | AwaitStep(step: int)         // the latest step's outputs are not all there
    | Dispatch(step: int, inputs: seq<ListedObject>, batchSize: int, batches: seq<seq<ListedObject>>)

  /** The decisions of lambda_handler up to the invocations; an exception
      raised on the way ends the trigger as an Err. `files` is the
      "Contents" of the listing response, which the response leaves out
      when nothing is listed: the lookup then raises KeyError. */
  function Decide(files: seq<ListedObject>, jobId: string, mapCount: int, markers: map<string, Option<string>>)
    : Result<Action>
  {
    if files == [] then Err(KeyError)
    else if JobDone(files) then Ok(JobComplete)
    else if mapCount != |MapperFiles(files)| then Ok(AwaitMappers)
    else
      match ReducerStateInfo(files, jobId, markers)
      case Err(e) => Err(e)
      case Ok((step, inputs)) =>
        if |inputs| == 0 then Ok(AwaitStep(step))
        else
          match ReducerBatchSize(inputs)
          case Err(e) => Err(e)
          case Ok(b) => Ok(Dispatch(step, inputs, b, LambdaUtils.Batches(inputs, b)))
  }

  /** The marker object written after the invocations: its key and the
      text of its reducerCount and totalS3Files fields. */
  datatype MarkerWrite = MarkerWrite(key: string, reducerCount: string, totalS3Files: string)

  /** The effects of one trigger: the invocation requests made, in order,
      the marker written, and the exception that ended the trigger. */
  datatype Outcome = Outcome(invoked: seq<Invocation>, marker: Option<MarkerWrite>, raised: Option<Failure>)

  /** The first index from `i` below `n` in `failing`, or `n`. */
  function FirstFailing(failing: set<int>, i: nat, n: nat): (k: nat)
    requires i <= n
    ensures i <= k <= n
    ensures k < n ==> k in failing
    ensures forall j | i <= j < k :: j !in failing
    decreases n - i
  {
    if i == n || i in failing then i else FirstFailing(failing, i + 1, n)
  }

  /** The invoke loop and the marker write of lambda_handler, after the
      step's inputs have been cut into `batches`. The invocation request
      with reducerId `i` raises iff `i` is in `failing`; the requests are
      made one after the other, so a raising one ends the trigger before
      the later requests and before the marker is written. */
  function DispatchOutcome(bucket: string, jobId: string, step: int, batches: seq<seq<ListedObject>>,
                           failing: set<int>): Outcome
  {
    var payloads := Payloads(bucket, jobId, step + 1, batches);
    var k := FirstFailing(failing, 0, |batches|);
    if k < |batches| then Outcome(payloads[..k + 1], None, Some(InvokeError))
    else
      var nS3 := |batches| * (if batches == [] then 0 else |batches[0]|);
      Outcome(payloads, Some(MarkerWrite(MarkerKey(jobId, step + 1), IntToString(|batches|), IntToString(nS3))), None)
  }

  /** lambda_handler for the job bucket `bucket`. */
  function Handle(bucket: string, files: seq<ListedObject>, jobId: string, mapCount: int,
                  markers: map<string, Option<string>>, failing: set<int>): Outcome
  {
    match Decide(files, jobId, mapCount, markers)
    case Err(e) => Outcome([], None, Some(e))
    case Ok(Dispatch(step, _, _, batches)) => DispatchOutcome(bucket, jobId, step, batches, failing)
    case Ok(_) => Outcome([], None, None)
  }

  lemma FirstFailingAt(failing: set<int>, n: nat, i: nat)
    requires i < n && i in failing && forall j | 0 <= j < i :: j !in failing
    ensures FirstFailing(failing, 0, n) == i
  {
    var k := FirstFailing(failing, 0, n);
    assert !(k < i);
  }

  method InvokeReducers(bucket: string, jobId: string, stepNumber: int, rBatchParams: seq<seq<ListedObject>>,
                        failing: set<int>)
    returns (out: Outcome)
    requires rBatchParams != []
    ensures out == DispatchOutcome(bucket, jobId, stepNumber, rBatchParams, failing)
  {
    var nReducers := |rBatchParams|;
    var nS3 := nReducers * |rBatchParams[0]|;
    var stepId := stepNumber + 1;
    ghost var payloads := Payloads(bucket, jobId, stepId, rBatchParams);
    var invoked := [];
    for i := 0 to |rBatchParams|
      invariant invoked == payloads[..i]
      invariant forall j | 0 <= j < i :: j !in failing
    {
      var batch := Keys(rBatchParams[i]);
      invoked := invoked + [Invocation(bucket, batch, bucket, jobId, nReducers, stepId, i)];
      assert payloads[..i + 1] == payloads[..i] + [payloads[i]];
      if i in failing {
        FirstFailingAt(failing, |rBatchParams|, i);
        return Outcome(invoked, None, Some(InvokeError));
      }
    }
    assert invoked == payloads;
    var fname := MarkerKey(jobId, stepId);
    return Outcome(invoked, Some(MarkerWrite(fname, IntToString(nReducers), IntToString(nS3))), None);
  }

  method LambdaHandler(bucket: string, files: seq<ListedObject>, jobId: string, mapCount: int,
                       markers: map<string, Option<string>>, failing: set<int>)
    returns (out: Outcome)
    ensures out == Handle(bucket, files, jobId, mapCount, markers, failing)
  {
    if files == [] {
      return Outcome([], None, Some(KeyError));
    }
    var done := CheckJobDone(files);
    if done {
      return Outcome([], None, None);
    }
    var mapperKeys := GetMapperFiles(files);
    if mapCount != |mapperKeys| {
      return Outcome([], None, None);
    }
    var stepInfo := GetReducerStateInfo(files, jobId, markers);
    if stepInfo.Err? {
      return Outcome([], None, Some(stepInfo.error));
    }
    var stepNumber, reducerKeys := stepInfo.value.0, stepInfo.value.1;
    if |reducerKeys| == 0 {
      return Outcome([], None, None);
    }
    var rBatchSize := ReducerBatchSize(reducerKeys);
    if rBatchSize.Err? {
      return Outcome([], None, Some(rBatchSize.error));
    }
    var rBatchParams := LambdaUtils.BatchCreator(reducerKeys, rBatchSize.value);
    out := InvokeReducers(bucket, jobId, stepNumber, rBatchParams, failing);
  }

  // ---------------------------------------------------------------------------
  // Properties of a trigger
  // ---------------------------------------------------------------------------

  /** A trigger that does not dispatch invokes nothing and writes nothing. */
  lemma NoDispatchNoEffect(bucket: string, files: seq<ListedObject>, jobId: string, mapCount: int,
                           markers: map<string, Option<string>>, failing: set<int>)
    requires !(Decide(files, jobId, mapCount, markers).Ok? && Decide(files, jobId, mapCount, markers).value.Dispatch?)
    ensures Handle(bucket, files, jobId, mapCount, markers, failing).invoked == []
    ensures Handle(bucket, files, jobId, mapCount, markers, failing).marker == None
    ensures JobDone(files) ==> Handle(bucket, files, jobId, mapCount, markers, failing).raised == None
  {
  }

  /** A dispatching trigger invokes one reducer per batch, in batch order,
      with reducerId 0..n-1, nReducers = n and stepId = step + 1, each on the
      keys of its batch, which together are the step's inputs; the marker
      for step + 1, holding n, is written iff every invocation succeeded,
      and only after all of them. */
  lemma DispatchEffects(bucket: string, files: seq<ListedObject>, jobId: string, mapCount: int,
                        markers: map<string, Option<string>>, failing: set<int>)
    requires Decide(files, jobId, mapCount, markers).Ok?
    requires Decide(files, jobId, mapCount, markers).value.Dispatch?
    ensures var a := Decide(files, jobId, mapCount, markers).value;
      var out := Handle(bucket, files, jobId, mapCount, markers, failing);
      var n := |a.batches|;
      && |out.invoked| <= n
      && (out.marker.None? ==> |out.invoked| == FirstFailing(failing, 0, n) + 1 && out.invoked[|out.invoked| - 1].reducerId in failing)
      && (forall i | 0 <= i < |out.invoked| ::
            && out.invoked[i].reducerId == i
            && out.invoked[i].nReducers == n
            && out.invoked[i].stepId == a.step + 1
            && out.invoked[i].keys == Keys(a.batches[i])
            && out.invoked[i].jobId == jobId
            && out.invoked[i].bucket == bucket && out.invoked[i].jobBucket == bucket)
      && (out.marker.Some? <==> forall i | 0 <= i < n :: i !in failing)
      && (out.marker.Some? ==>
            && |out.invoked| == n
            && out.raised == None
            && out.marker.value.key == MarkerKey(jobId, a.step + 1)
            && out.marker.value.reducerCount == IntToString(n)
            && out.marker.value.totalS3Files == IntToString(if n == 0 then 0 else n * |a.batches[0]|))
      && (out.marker.None? ==> out.raised == Some(InvokeError))
      && LambdaUtils.Flatten(a.batches) == a.inputs
  {
    var a := Decide(files, jobId, mapCount, markers).value;
    assert Handle(bucket, files, jobId, mapCount, markers, failing) == DispatchOutcome(bucket, jobId, a.step, a.batches, failing);
    DispatchOutcomeShape(bucket, jobId, a.step, a.batches, failing);
    LambdaUtils.BatchesPartition(a.inputs, a.batchSize);
  }

  lemma DispatchOutcomeShape(bucket: string, jobId: string, step: int, batches: seq<seq<ListedObject>>, failing: set<int>)
    ensures var out := DispatchOutcome(bucket, jobId, step, batches, failing);
      var n := |batches|;
      && |out.invoked| <= n
      && (out.marker.None? ==> |out.invoked| == FirstFailing(failing, 0, n) + 1 && out.invoked[|out.invoked| - 1].reducerId in failing)
      && (forall i | 0 <= i < |out.invoked| ::
            && out.invoked[i].reducerId == i
            && out.invoked[i].nReducers == n
            && out.invoked[i].stepId == step + 1
            && out.invoked[i].keys == Keys(batches[i])
            && out.invoked[i].jobId == jobId
            && out.invoked[i].bucket == bucket && out.invoked[i].jobBucket == bucket)
      && (out.marker.Some? <==> forall i | 0 <= i < n :: i !in failing)
      && (out.marker.Some? ==>
            && |out.invoked| == n
            && out.raised == None
            && out.marker.value.key == MarkerKey(jobId, step + 1)
            && out.marker.value.reducerCount == IntToString(n)
            && out.marker.value.totalS3Files == IntToString(if n == 0 then 0 else n * |batches[0]|))
      && (out.marker.None? ==> out.raised == Some(InvokeError))
  {
  }

  /** Every step makes progress: the batch size is at least 2, so two or
      more inputs go to fewer reducers than there are inputs, a single input
      goes to a single reducer (whose output is then the result), and the
      totalS3Files figure n * |first batch| covers all inputs. */
  lemma DispatchProgress(files: seq<ListedObject>, jobId: string, mapCount: int, markers: map<string, Option<string>>)
    requires Decide(files, jobId, mapCount, markers).Ok?
    requires Decide(files, jobId, mapCount, markers).value.Dispatch?
    ensures var a := Decide(files, jobId, mapCount, markers).value;
      && a.batchSize >= 2
      && |a.inputs| >= 1
      && (|a.inputs| >= 2 ==> |a.batches| < |a.inputs|)
      && (|a.inputs| == 1 ==> a.batches == [a.inputs])
      && |a.batches| >= 1
      && |a.batches| * |a.batches[0]| >= |a.inputs|
  {
    var a := Decide(files, jobId, mapCount, markers).value;
    LambdaUtils.ChunksFewer(a.inputs, a.batchSize);
    LambdaUtils.ChunksCover(a.inputs, a.batchSize);
  }
}
