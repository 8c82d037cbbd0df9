/** How the pieces fit together through the job bucket: the keys the
    mappers and reducers write are the ones the coordinators count, and the
    markers the coordinators write read back as the step they record. */
module Protocol {
  import opened Outcomes
  import opened Text
  import opened Store
  import JsNumbers
  import JsRegex
  import Mapper
  import Reducer
  import PyCoordinator
  import JsCoordinator

  lemma {:induction false} SelectAll(files: seq<ListedObject>, p: string -> bool)
    requires forall i | 0 <= i < |files| :: p(files[i].key)
    ensures Select(files, p) == files
    decreases |files|
  {
    if files != [] {
      var init := files[..|files| - 1];
      assert forall i | 0 <= i < |init| :: init[i] == files[i];
      SelectAll(init, p);
      assert p(files[|files| - 1].key);
      assert init + [files[|files| - 1]] == files;
    }
  }

  /** A search succeeds when the pattern matches at any position. */
  lemma {:induction false} SearchAt(s: string, p: seq<JsRegex.Atom>, k: nat)
    requires k <= |s| && JsRegex.MatchesAt(s[k..], p)
    ensures JsRegex.Search(s, p)
    decreases k
  {
    if k > 0 {
      assert s[1..][k - 1..] == s[k..];
      SearchAt(s[1..], p, k - 1);
    } else {
      assert s[0..] == s;
    }
  }

  /** The numeral after a common prefix determines the number. */
  lemma NumeralsDiffer(prefix: string, a: int, b: int)
    requires prefix + IntToString(a) == prefix + IntToString(b)
    ensures a == b
  {
    var s := prefix + IntToString(a);
    assert IntToString(a) == s[|prefix|..];
    assert IntToString(b) == s[|prefix|..];
    PyIntOfString(a);
    PyIntOfString(b);
  }

  // ---------------------------------------------------------------------------
  // Markers
  // ---------------------------------------------------------------------------

  /** For a job id without a dot, the Python coordinator reads a marker it
      wrote for step `s` back as step `s`. */
  lemma PyMarkerRoundTrip(jobId: string, step: int)
    requires '.' !in jobId
    ensures PyCoordinator.IsMarker(PyCoordinator.MarkerKey(jobId, step))
    ensures PyCoordinator.MarkerIndex(PyCoordinator.MarkerKey(jobId, step)) == Ok(step)
  {
    var numeral := IntToString(step);
    var key := PyCoordinator.MarkerKey(jobId, step);
    ContainsInfix(jobId + "/", "reducerstate.", numeral);
    assert key == jobId + "/" + "reducerstate." + numeral;
    var n: nat := if step < 0 then -step else step;
    NoSeparatorInNumeral(n, '.');
    assert '.' !in numeral;
    assert '.' !in jobId + "/reducerstate";
    assert key == (jobId + "/reducerstate") + ['.'] + numeral;
    SplitTwo(jobId + "/reducerstate", '.', numeral);
    PyIntOfString(step);
  }

  /** For a job id without a dot, the JavaScript coordinator reads a marker
      it wrote for step `s >= 0` back as step `s`. */
  lemma JsMarkerRoundTrip(jobId: string, step: nat)
    requires '.' !in jobId
    ensures JsCoordinator.IsMarker(JsCoordinator.MarkerKey(jobId, step))
    ensures JsCoordinator.MarkerIndex(JsCoordinator.MarkerKey(jobId, step)) == JsNumbers.Finite(step)
  {
    JsMarkerMatches(jobId, step);
    JsMarkerParses(jobId, step);
  }

  /** `/reducerstate.\d+/i` finds every marker key. */
  lemma JsMarkerMatches(jobId: string, step: nat)
    ensures JsCoordinator.IsMarker(JsCoordinator.MarkerKey(jobId, step))
  {
    var numeral := NatToString(step);
    var key := JsCoordinator.MarkerKey(jobId, step);
    NatToStringDecimal(step);
    var tail := key[|jobId| + 1..];
    assert tail == "reducerstate." + numeral;
    assert JsRegex.MatchesAt(tail, JsRegex.MarkerPattern) by {
      assert tail[13] == numeral[0];
      forall i | 0 <= i < 12
        ensures JsRegex.AtomMatches(JsRegex.MarkerPattern[i], tail[i])
      {
        assert JsRegex.MarkerPattern[i] == JsRegex.Letter("reducerstate"[i]);
      }
    }
    SearchAt(key, JsRegex.MarkerPattern, |jobId| + 1);
  }

  /** The text after the only '.' of a marker key parses back to its step. */
  lemma JsMarkerParses(jobId: string, step: nat)
    requires '.' !in jobId
    ensures JsCoordinator.MarkerIndex(JsCoordinator.MarkerKey(jobId, step)) == JsNumbers.Finite(step)
  {
    var numeral := NatToString(step);
    var key := JsCoordinator.MarkerKey(jobId, step);
    NoSeparatorInNumeral(step, '.');
    assert '.' !in jobId + "/reducerstate";
    assert key == (jobId + "/reducerstate") + ['.'] + numeral;
    SplitTwo(jobId + "/reducerstate", '.', numeral);
    JsNumbers.ParseIntOfString(step);
  }

  // ---------------------------------------------------------------------------
  // Mapper outputs
  // ---------------------------------------------------------------------------

  /** A mapper's output key is a mapper file for both coordinators. */
  lemma MapperKeyIsCounted(jobId: string, mapperId: nat)
    ensures PyCoordinator.IsMapperOutput(Mapper.MapperKey(jobId, mapperId))
    ensures JsCoordinator.IsMapperOutput(Mapper.MapperKey(jobId, mapperId))
  {
    var numeral := NatToString(mapperId);
    var key := Mapper.MapperKey(jobId, mapperId);
    assert key == jobId + "/" + "task/mapper" + ("/" + numeral);
    ContainsInfix(jobId + "/", "task/mapper", "/" + numeral);
    NatToStringDecimal(mapperId);
    var tail := key[|jobId| + 1..];
    assert tail == "task/mapper/" + numeral;
    assert JsRegex.MatchesAt(tail, JsRegex.MapperPattern) by {
      assert tail[12] == numeral[0];
      forall i | 0 <= i < 12
        ensures JsRegex.AtomMatches(JsRegex.MapperPattern[i], tail[i])
      {
        assert JsRegex.MapperPattern[i] == JsRegex.Letter("task/mapper/"[i]);
      }
    }
    SearchAt(key, JsRegex.MapperPattern, |jobId| + 1);
  }

  /** Different mappers write different keys. */
  lemma MapperKeysDistinct(jobId: string, a: int, b: int)
    requires Mapper.MapperKey(jobId, a) == Mapper.MapperKey(jobId, b)
    ensures a == b
  {
    NumeralsDiffer(jobId + "/" + Mapper.TaskMapperPrefix, a, b);
  }

  /** The listing of the outputs of mappers 1..n: once they are all
      written, the Python coordinator counts n mapper files, which is the
      mapCount the driver recorded for n batches. */
  function MapperOutputs(jobId: string, sizes: seq<nat>): (files: seq<ListedObject>)
    ensures |files| == |sizes|
  {
    seq(|sizes|, i requires 0 <= i < |sizes| => ListedObject(Mapper.MapperKey(jobId, i + 1), sizes[i]))
  }

  lemma AllMapperOutputsCounted(jobId: string, sizes: seq<nat>)
    ensures PyCoordinator.MapperFiles(MapperOutputs(jobId, sizes)) == MapperOutputs(jobId, sizes)
    ensures |PyCoordinator.MapperFiles(MapperOutputs(jobId, sizes))| == |sizes|
    ensures forall i, j | 0 <= i < j < |sizes| :: MapperOutputs(jobId, sizes)[i].key != MapperOutputs(jobId, sizes)[j].key
  {
    var files := MapperOutputs(jobId, sizes);
    forall i | 0 <= i < |files|
      ensures PyCoordinator.IsMapperOutput(files[i].key)
    {
      MapperKeyIsCounted(jobId, i + 1);
    }
    SelectAll(files, PyCoordinator.IsMapperOutput);
    forall i, j | 0 <= i < j < |sizes|
      ensures files[i].key != files[j].key
    {
      if files[i].key == files[j].key {
        MapperKeysDistinct(jobId, i + 1, j + 1);
      }
    }
  }

  /** Both coordinators list the job prefix with a single list_objects
      call, which returns one page. The prefix holds the job's jobdata
      object besides the mapper outputs, and "jobdata" sorts before "task",
      so with MaxKeys or more mapper outputs the page holds only
      MaxKeys - 1 of them, fewer than the job's mapper count, whichever
      mapper outputs come first. `p` is either coordinator's test for a
      mapper output. */
  lemma {:induction false} PageCountsMappers(jobData: ListedObject, outputs: seq<ListedObject>, p: string -> bool)
    requires !p(jobData.key)
    requires forall i | 0 <= i < |outputs| :: p(outputs[i].key)
    ensures |Select(Page([jobData] + outputs), p)| == if |outputs| < MaxKeys then |outputs| else MaxKeys - 1
    ensures |outputs| >= MaxKeys ==> |Select(Page([jobData] + outputs), p)| < |outputs|
  {
    var m := if |outputs| < MaxKeys then |outputs| else MaxKeys - 1;
    var head := outputs[..m];
    assert Page([jobData] + outputs) == [jobData] + head;
    assert forall i | 0 <= i < |head| :: head[i] == outputs[i];
    SelectAll(head, p);
    SelectAppend([jobData], head, p);
    assert Select([jobData], p) == Select([], p) + [];
  }

  // ---------------------------------------------------------------------------
  // Reducer outputs
  // ---------------------------------------------------------------------------

  /** The only reducer of a step writes a key both coordinators take for
      the job's result. */
  lemma ResultKeyIsCounted(jobId: string, stepId: int, rId: int)
    ensures PyCoordinator.IsResult(Reducer.OutputKey(jobId, 1, stepId, rId))
    ensures JsCoordinator.IsResult(Reducer.OutputKey(jobId, 1, stepId, rId))
  {
    var key := Reducer.OutputKey(jobId, 1, stepId, rId);
    ContainsSuffix(jobId + "/", "result");
    assert key == jobId + "/" + "result";
    JsRegex.ResultPatternIsSubstring(key);
  }

  /** Each of several reducers writes a key the Python coordinator counts
      as an output of its step. */
  lemma StepKeyIsCounted(jobId: string, nReducers: int, stepId: int, rId: int)
    requires nReducers != 1
    ensures PyCoordinator.IsStepOutput(Reducer.OutputKey(jobId, nReducers, stepId, rId), stepId)
  {
    var key := Reducer.OutputKey(jobId, nReducers, stepId, rId);
    var step, r := IntToString(stepId), IntToString(rId);
    var head, mid, tail := jobId + "/task", "reducer", step + "/" + r;
    assert key == head + ['/'] + (mid + ['/'] + tail);
    assert key == (head + "/") + ("reducer/" + step) + ("/" + r);
    ContainsInfix(head + "/", "reducer/" + step, "/" + r);
    SplitJoin(head, '/', mid + ['/'] + tail);
    SplitJoin(mid, '/', tail);
  }

  lemma ReducerKeyIsCounted(jobId: string, nReducers: int, stepId: int, rId: int)
    ensures var key := Reducer.OutputKey(jobId, nReducers, stepId, rId);
      && (nReducers == 1 ==> PyCoordinator.IsResult(key) && JsCoordinator.IsResult(key))
      && (nReducers != 1 ==> PyCoordinator.IsStepOutput(key, stepId))
  {
    if nReducers == 1 {
      ResultKeyIsCounted(jobId, stepId, rId);
    } else {
      StepKeyIsCounted(jobId, nReducers, stepId, rId);
    }
  }

  /** Different reducers of one step write different keys. */
  lemma ReducerKeysDistinct(jobId: string, nReducers: int, stepId: int, a: int, b: int)
    requires nReducers != 1
    requires Reducer.OutputKey(jobId, nReducers, stepId, a) == Reducer.OutputKey(jobId, nReducers, stepId, b)
    ensures a == b
  {
    NumeralsDiffer(jobId + "/" + Reducer.TaskReducerPrefix + IntToString(stepId) + "/", a, b);
  }

  /** A dispatch that completes writes a marker for the next step, holding
      the number of reducers it invoked; each invoked reducer writes the
      job's result if it is the only one, or an output of that step the
      next trigger counts, and those outputs are distinct. With a job id
      without a dot, the next trigger reads the marker back as that step
      and its count as the number of reducers. */
  lemma DispatchIsCounted(bucket: string, jobId: string, step: int, batches: seq<seq<ListedObject>>, failing: set<int>)
    requires PyCoordinator.DispatchOutcome(bucket, jobId, step, batches, failing).marker.Some?
    requires '.' !in jobId
    ensures var out := PyCoordinator.DispatchOutcome(bucket, jobId, step, batches, failing);
      var marker := out.marker.value;
      && marker.key == PyCoordinator.MarkerKey(jobId, step + 1)
      && PyCoordinator.IsMarker(marker.key)
      && PyCoordinator.MarkerIndex(marker.key) == Ok(step + 1)
      && PyInt(marker.reducerCount) == Ok(|out.invoked|)
      && |out.invoked| == |batches|
      && (forall i | 0 <= i < |out.invoked| ::
            var inv := out.invoked[i];
            var key := Reducer.OutputKey(inv.jobId, inv.nReducers, inv.stepId, inv.reducerId);
            && (|batches| == 1 ==> PyCoordinator.IsResult(key))
            && (|batches| != 1 ==> PyCoordinator.IsStepOutput(key, step + 1)))
      && (|batches| != 1 ==> forall i, j | 0 <= i < j < |out.invoked| ::
            Reducer.OutputKey(jobId, |batches|, step + 1, out.invoked[i].reducerId) !=
            Reducer.OutputKey(jobId, |batches|, step + 1, out.invoked[j].reducerId))
  {
    var out := PyCoordinator.DispatchOutcome(bucket, jobId, step, batches, failing);
    PyMarkerRoundTrip(jobId, step + 1);
    PyIntOfString(|batches|);
    forall i | 0 <= i < |out.invoked|
      ensures var inv := out.invoked[i];
        var key := Reducer.OutputKey(inv.jobId, inv.nReducers, inv.stepId, inv.reducerId);
        && (|batches| == 1 ==> PyCoordinator.IsResult(key))
        && (|batches| != 1 ==> PyCoordinator.IsStepOutput(key, step + 1))
    {
      ReducerKeyIsCounted(jobId, |batches|, step + 1, i);
    }
    if |batches| != 1 {
      forall i, j | 0 <= i < j < |out.invoked|
        ensures Reducer.OutputKey(jobId, |batches|, step + 1, out.invoked[i].reducerId) !=
                Reducer.OutputKey(jobId, |batches|, step + 1, out.invoked[j].reducerId)
      {
        if Reducer.OutputKey(jobId, |batches|, step + 1, i) == Reducer.OutputKey(jobId, |batches|, step + 1, j) {
          ReducerKeysDistinct(jobId, |batches|, step + 1, i, j);
        }
      }
    }
  }
}
