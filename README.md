# lambda-refarch-mapreduce: the orchestration core in Dafny

A model of the orchestration core of the AWS Lambda reference MapReduce in
Dafny 4.11, with proofs about it. The core covers:

- The driver (`src/python/driver.py`) lists the input objects and sizes
  each batch to fit a worker's memory (`compute_batch_size`). It cuts the
  ordered object list into consecutive batches (`batch_creator`), one
  mapper per batch, and invokes the mappers in windows of at most
  `concurrent_lambdas`.
- A mapper (`src/python/mapper.py`) reads its objects line by line. It
  totals field 3 under the first 8 characters of field 0 and writes
  `<job>/task/mapper/<id>`.
- The reduce coordinator (`src/python/reducerCoordinator.py`, and the
  JavaScript one in `src/nodejs/reducerCoordinator.js`) is stateless. On
  every trigger it re-derives the job's state from a listing of the
  bucket and one marker object, `<job>/reducerstate.<step>`:
  - the job is done once a `result` key is listed;
  - otherwise it waits for all mappers and finds the latest step;
  - once every output of that step is there, it cuts the outputs into
    batches of at least 2;
  - it invokes one reducer per batch, then writes the marker for the next
    step.
- A reducer (`src/python/reducer.py`) merges the totals of its inputs. It
  writes `<job>/result` when it is the only reducer of its step, and
  `<job>/task/reducer/<step>/<id>` otherwise.
- The JavaScript helpers (`src/nodejs/utils.js`) are `batchCreator`,
  `computeBatchSize` (with NaN and ±Infinity) and `objToCSVBuffer`.

How the source is modelled:

- Loops are `method`s with loop invariants. Each is proved equal to a
  specification function of its inputs, and lemmas state what the source
  promises about those functions.
- Storage, Lambda invocations and the clock are not called. They are
  given as data:
  - the listing, as a sequence of `ListedObject(key, size)`;
  - bucket contents, as maps from key to contents;
  - the reducer or mapper invocations that raise, as a set of ids.
- Each handler's effects are returned as a value: the requests made, the
  marker written and the reply or exception.
- Exceptions of the source (`ZeroDivisionError`, `NoSuchKey`, `KeyError`,
  `ValueError`, `TypeError`) are the error values of a `Result`.

Modules:

| module | file |
|---|---|
| `Outcomes` (Option and Result) | `outcomes.dfy` |
| `Text` (substrings, `split`, decimal numerals, Python's `int()` on text) | `text.dfy` |
| `JsNumbers` (JavaScript number values, `parseInt`) | `jsnumbers.dfy` |
| `JsRegex` (the three case-insensitive regular expressions) | `regex_js.dfy` |
| `Store` (listed objects, filtering) | `store.dfy` |
| `ReducerEvent` (the payload each reducer is invoked with) | `reducer_event.dfy` |
| `LambdaUtils` | `lambdautils.dfy` |
| `JsUtils` | `utils_js.dfy` |
| `PyCoordinator` | `coordinator_py.dfy` |
| `JsCoordinator` | `coordinator_js.dfy` |
| `Mapper` | `mapper.dfy` |
| `Reducer` | `reducer.dfy` |
| `Driver` | `driver.dfy` |
| `Protocol` (the lemmas that relate the parts through the bucket) | `protocol.dfy` |

Where a description of the system and the code differ, the model follows
the code:

- A single remaining input is not promoted to the result directly. The
  coordinator dispatches one reducer on it, and that reducer, being the
  only one of its step, writes `<job>/result`.
- The mapper batch size is not raised to at least 1, and small inputs are
  not forced to a batch size of 1 (there is no `minParallelism`).
  `round()` can give 0 (`LambdaUtils.BatchSizeCanBeZero`), and then
  `len(batch) >= 0` closes every batch after one key.
- The reducer batch size is `max(batch_size, 2)`. A key set whose sizes
  add up to zero raises `ZeroDivisionError` in Python, and gives
  `+Infinity`, hence a single batch, in JavaScript.

## Model

| member | source | states |
|---|---|---|
| LambdaUtils.BatchCreator | src/python/lambdautils.py:101-116 | batch_creator returns `Chunks(all_keys, max(batch_size, 1))`: consecutive groups of the limit, the last possibly shorter |
| LambdaUtils.BatchesPartition | src/python/lambdautils.py:106-116 | concatenating the batches gives back all the keys, in order |
| LambdaUtils.BatchesShape | src/python/lambdautils.py:108-115 | for a batch size b >= 1, no batch is empty, none exceeds b, all but the last hold exactly b, and there are ceil(n / b) batches |
| LambdaUtils.BatchesOfSingletons | src/python/lambdautils.py:110-112 | a batch size of 1 or less makes every key its own batch, in order |
| LambdaUtils.ChunksFewer | src/python/lambdautils.py:108-115 | with groups of at least 2, two or more keys make fewer batches than keys, and one key makes one batch |
| LambdaUtils.ChunksCover | src/python/lambdautils.py:108-115 | the number of batches times the length of the first batch covers all keys |
| LambdaUtils.ComputeBatchSize | src/python/lambdautils.py:88-99 | the summing loop computes `BatchSize`: a division by zero for no keys or zero total size, else the rounded ratio |
| LambdaUtils.RoundHalfUp | src/python/lambdautils.py:98 | `round(num / den)` for non-negative values: the r with r - 1/2 <= num/den < r + 1/2 |
| LambdaUtils.BatchSizeIsRoundedRatio | src/python/lambdautils.py:89-98 | the result is an error iff there are no keys or their total size is 0; otherwise it is the nearest integer, halves up, to 0.6 MB-of-memory / average size |
| LambdaUtils.RoundHalfUpMonotone | src/python/lambdautils.py:98 | rounding is monotone in the ratio |
| LambdaUtils.BatchSizeNonIncreasing | src/python/lambdautils.py:96-98 | a larger average object size never gives a larger batch size |
| LambdaUtils.BatchSizeCanBeZero | src/python/lambdautils.py:98 | there is no lower clamp: one 2 MB object with 1 MB of memory gives 0 |
| JsUtils.BatchCreator | src/nodejs/utils.js:16-31 | batchCreator returns the consecutive groups at which `batch.length >= batchSize` first holds; with NaN or +Infinity it never holds |
| JsUtils.BatchesPartition | src/nodejs/utils.js:18-30 | concatenating the batches gives back all the keys, in order |
| JsUtils.BatchesShape | src/nodejs/utils.js:20-29 | for a finite batch size b >= 1, batches are non-empty, at most b long, all but the last exactly b, ceil(n / b) of them |
| JsUtils.UnboundedBatchSize | src/nodejs/utils.js:22 | with NaN or +Infinity all keys go into one batch, and no keys give no batch |
| JsUtils.ComputeBatchSize | src/nodejs/utils.js:45-67 | the summing loop computes `BatchSize`, including the NaN and +Infinity of a division by zero |
| JsUtils.BatchSizeIsRoundedRatio | src/nodejs/utils.js:51-65 | no keys give NaN; zero total size gives +Infinity, or NaN with zero memory; otherwise Math.round of the exact ratio |
| JsUtils.GzipNeverLarger | src/nodejs/utils.js:51-56 | the 0.4 gzip factor never gives a larger batch size than 0.6, and both are finite together |
| JsUtils.AgreesWithPython | src/nodejs/utils.js:51-65 | without gzip, JavaScript and Python agree whenever Python does not raise |
| JsUtils.ObjToCsvBuffer | src/nodejs/utils.js:33-39 | the loop builds `Csv(properties)`, one `name,value\n` line per property in enumeration order |
| JsUtils.CsvLines | src/nodejs/utils.js:33-39 | for names without newlines, splitting the text at '\n' gives back one `name,value` line per property, in order, then "" |
| JsUtils.CsvNewlines | src/nodejs/utils.js:35-37 | for names without newlines, the text holds exactly one newline per property |
| PyCoordinator.GetMapperFiles | src/python/reducerCoordinator.py:44-49 | the loop returns the listed objects whose key contains "task/mapper" |
| Store.SelectMembers | src/python/reducerCoordinator.py:44-49 | both coordinators' filters: an object is selected iff it is listed and its key passes the test ("task/mapper" in Python, `/task\/mapper\/\d+/i` in JavaScript) |
| PyCoordinator.CheckJobDone | src/python/reducerCoordinator.py:56-61 | true iff some listed key contains "result" |
| PyCoordinator.ReducerBatchSize | src/python/reducerCoordinator.py:51-54 | raises iff compute_batch_size raises, and then with a division by zero; otherwise at least 2, and equal to the planned size or to 2 |
| PyCoordinator.LatestStepFails | src/python/reducerCoordinator.py:74-80 | the marker scan raises iff some marker key's text after the first '.' is not an integer |
| PyCoordinator.LatestStepIsMaximum | src/python/reducerCoordinator.py:74-80 | otherwise reducer_step is true iff a marker is listed, and r_index is the maximum of 0 and all marker indexes |
| PyCoordinator.GetReducerStateInfo | src/python/reducerCoordinator.py:63-105 | the two loops compute `ReducerStateInfo` with all its exceptions: malformed index, missing marker object, missing or malformed reducerCount |
| PyCoordinator.StateInfoCases | src/python/reducerCoordinator.py:74-105 | without a marker the inputs are the mapper files at step 0; with one, the step is the latest marker index (>= 0, no marker index above it, and some marker carries it unless it is 0), and the inputs are that step's outputs when their number is the marker's reducerCount, else nothing; inputs are always listed objects |
| PyCoordinator.InvokeReducers | src/python/reducerCoordinator.py:162-187 | the invoke loop and the marker write compute `DispatchOutcome`: requests in order up to the first that raises, and the marker only if none raised |
| PyCoordinator.LambdaHandler | src/python/reducerCoordinator.py:107-189 | the handler computes `Handle`: the decision sequence KeyError on a listing with no "Contents", job done, waiting for mappers, state info, waiting for the step, then dispatch |
| PyCoordinator.NoDispatchNoEffect | src/python/reducerCoordinator.py:129-150 | a trigger that does not dispatch invokes nothing and writes no marker, and a finished job raises nothing |
| PyCoordinator.DispatchEffects | src/python/reducerCoordinator.py:159-187 | a dispatch invokes reducers 0..n-1 in order on their batches' keys with nReducers n and stepId step+1; the batches are the inputs; the marker for step+1 holding n and totalS3Files n * len(first batch) is written iff no invocation raised, else the requests stop at the first raising one |
| PyCoordinator.DispatchOutcomeShape | src/python/reducerCoordinator.py:162-187 | the same facts about the invoke loop for any batches |
| PyCoordinator.DispatchProgress | src/python/reducerCoordinator.py:153-163 | a dispatch has batch size >= 2, so two or more inputs go to fewer reducers, one input to one reducer, and n * len(first batch) covers the inputs |
| JsCoordinator.GetMapperFiles | src/nodejs/reducerCoordinator.js:99-108 | the loop returns the listed objects whose key matches `/task\/mapper\/\d+/i` |
| Store.SelectAppend | src/nodejs/reducerCoordinator.js:99-108 | both coordinators' filters keep listing order: filtering a concatenation is concatenating the filtered parts |
| JsCoordinator.CheckJobDone | src/nodejs/reducerCoordinator.js:180-188 | true iff some listed key matches `/result/i` |
| JsCoordinator.ResultPatternFound | src/nodejs/reducerCoordinator.js:181-183 | a key matches `/result/i` iff its lower-case form contains "result" |
| JsCoordinator.GetKeys | src/nodejs/reducerCoordinator.js:190-195 | returns the keys of the objects, one per object, in order |
| JsCoordinator.ReducerBatchSize | src/nodejs/reducerCoordinator.js:167-178 | computeBatchSize when it is at least 2, and 2 otherwise (NaN included); always +Infinity or a finite value >= 2 |
| JsCoordinator.EmptyInputsOneBatch | src/nodejs/reducerCoordinator.js:174-177 | inputs of total size 0 give +Infinity, hence one batch holding all of them |
| JsCoordinator.LatestStepIsMaximum | src/nodejs/reducerCoordinator.js:119-129 | reducerStep is true iff a marker matches, and rIndex is the maximum of 0 and the numeric parseInt indexes, NaN ones ignored |
| JsCoordinator.GetReducerStateInfo | src/nodejs/reducerCoordinator.js:110-164 | the loops compute `ReducerStateInfo`, whose only failure is reading a marker object the bucket does not hold |
| JsCoordinator.StateInfoCases | src/nodejs/reducerCoordinator.js:119-160 | it fails iff a marker is listed and the latest marker object is missing; without a marker the inputs are the mapper files; with one, the step is the latest marker index (>= 0, no finite index above it, and some marker carries it unless it is 0), and the inputs are that step's outputs when reducerCount equals their number, else nothing |
| JsCoordinator.InvokeReducers | src/nodejs/reducerCoordinator.js:253-289 | all requests are built and issued; the marker is written iff none failed, with the matching reply |
| JsCoordinator.Handler | src/nodejs/reducerCoordinator.js:214-298 | the handler computes `Handle`, including each callback message |
| JsCoordinator.NoDispatchNoEffect | src/nodejs/reducerCoordinator.js:220-241 | a trigger that does not dispatch invokes nothing and writes no marker |
| JsCoordinator.DispatchEffects | src/nodejs/reducerCoordinator.js:243-289 | a dispatch requests reducers 0..n-1 on their batches' keys with nReducers n and stepId step+1; the batches are the inputs; the marker for step+1 holding n and totalS3Files n * length of the first batch is written, replying 'Invoked Reducer Step', iff no request failed, else 'Reducer invocation error' |
| JsCoordinator.DispatchOutcomeShape | src/nodejs/reducerCoordinator.js:253-289 | the same facts about the invoke and write for any batches |
| JsCoordinator.DispatchProgress | src/nodejs/reducerCoordinator.js:244-254 | two or more inputs go to fewer reducers, one input to one reducer, and the totalS3Files figure n * length of the first batch, which DispatchEffects puts in the marker, covers the inputs |
| JsRegex.ResultPatternIsSubstring | src/nodejs/reducerCoordinator.js:181 | `/result/i` matches iff the lower-cased key contains "result", so every key Python takes for a result is one for JavaScript too |
| JsNumbers.ParseIntOfString | src/nodejs/reducerCoordinator.js:124 | parseInt of the decimal numeral of n >= 0 is n |
| Mapper.LineKey | src/python/mapper.py:50-51 | the key is the longest comma-free prefix of the line of at most 8 characters |
| Mapper.AddLineInPlace | src/python/mapper.py:49-56 | one loop body: the key is inserted with 0 if new, then field 3 is added if the line has four fields and field 3 is an integer |
| Mapper.AddLines | src/python/mapper.py:47-56 | the inner loop extends the totals and the line count by the lines of one object |
| Mapper.LambdaHandler | src/python/mapper.py:25-73 | the handler computes `Run`: NoSuchKey for a missing source key, else the totals, the output key and the report |
| Mapper.SourceLinesFail | src/python/mapper.py:43-45 | reading fails iff some source key is missing |
| Mapper.SourceLinesCount | src/python/mapper.py:47-48 | otherwise line_count is the number of newlines in all source objects |
| Mapper.RunReport | src/python/mapper.py:43-73 | a run fails iff a key is missing; otherwise it reports len(src_keys), every line, err "", the linecount metadata and `<job>/task/mapper/<id>` |
| Mapper.LinesCount | src/python/mapper.py:47 | `split('\n')[:-1]` gives as many lines as newlines |
| Mapper.LinesIgnoreTail | src/python/mapper.py:47 | text after the last newline is never processed |
| Mapper.LinesOfJoined | src/python/mapper.py:47 | lines without newlines, each newline-terminated, come back as written |
| Mapper.AggregateKeys | src/python/mapper.py:50-53 | a key is in the output iff some line, malformed or not, has that key |
| Mapper.AggregateSums | src/python/mapper.py:50-54 | each total is the sum of field 3 over the well-formed lines with its key |
| Mapper.MalformedLineAddsNothing | src/python/mapper.py:49-57 | a malformed line changes no total and only inserts its key with 0 when new |
| Reducer.MergeEntries | src/python/reducer.py:63-70 | the inner loop merges one input's entries up to and including the first value float() rejects, counting each as a line |
| Reducer.LambdaHandler | src/python/reducer.py:39-89 | the handler computes `Run`: NoSuchKey for a missing input, else the merged totals, the line count and the output key |
| Reducer.MergedShape | src/python/reducer.py:63-70 | merged entries keep their order and values; all are merged iff every value parses; a rejected value is merged as 0 and ends that input |
| Reducer.MergeKeys | src/python/reducer.py:64-68 | a key is in the results iff some merged entry has it |
| Reducer.MergeSums | src/python/reducer.py:64-68 | each total is the sum of the values merged under its key |
| Reducer.StreamAppend | src/python/reducer.py:59-70 | reading the inputs in two groups is reading them all: an input whose entries stop early does not stop the later ones |
| Reducer.StreamFails | src/python/reducer.py:59-61 | a run fails iff some input key is missing from the job bucket |
| Reducer.RunReport | src/python/reducer.py:59-89 | the output is the result iff nReducers is 1; it reports len(keys) and one line per merged entry; keys and totals are as merged |
| Reducer.OutputKeyIsResult | src/python/reducer.py:76-80 | the output key is `<job>/result` iff nReducers is 1 |
| Driver.InvokeWindow | src/python/driver.py:143-164 | every request of the window is made, each carrying the keys of `batches[m_id - 1]` and its mapper id; the window raises iff one of its mappers is failing |
| Driver.BurstRound | src/python/driver.py:175-178 | one round invokes `Ids[executed : executed + nm]`, the slice clamped at the end, and raises iff a mapper of that window fails |
| Driver.BurstLoop | src/python/driver.py:174-178 | the loop requests the windows of nm ids in order up to and including the first that raises; with none raising it invokes every mapper and ends with n <= mappers_executed < n + nm |
| Driver.BurstInvoke | src/python/driver.py:168-181 | with nm = min(concurrent_lambdas, n), the windows requested are the consecutive groups of nm ids up to the first that raises, and the requests are those windows' mappers in id order |
| Driver.RunDriver | src/python/driver.py:87-178 | the driver raises the batch size's error, invoking nothing, or plans the batches and requests the windows up to the first holding a failing mapper, then raises InvokeError if that window holds one |
| Driver.RequestedPrefix | src/python/driver.py:174-178 | the mappers requested are ids 1..m at a window boundary; no window but the last holds a failing mapper; the run raises iff some mapper of the job fails; with none failing every mapper is requested |
| Driver.EachMapperOnce | src/python/driver.py:149-160 | mapper m is invoked exactly once, as request m, with the keys of batch m - 1 |
| Driver.WindowsShape | src/python/driver.py:174-178 | the windows, concatenated, are ids 1..n in order; each holds at most nm ids, all but the last exactly nm, ceil(n / nm) of them |
| Driver.BurstLoopDiverges | src/python/driver.py:174-178 | with concurrent_lambdas <= 0 and a mapper, mappers_executed never reaches n_mappers, so the loop exits only through an exception of pool.map |
| Driver.NegativeWindowRounds | src/python/driver.py:174-178 | with concurrent_lambdas < 0, nm is that number; round 1's Python slice `Ids[0:nm]` requests mappers 1..n+nm, and every later round's slice is empty, so the run ends only if a round-1 request raises |
| Driver.PlanCounts | src/python/driver.py:87-134 | a plan fails with ZeroDivisionError iff there are no objects or zero total size; otherwise mapCount is the number of batches, between 1 and the number of objects, and totalS3Files the number of objects |
| Driver.PlanCoversInput | src/python/driver.py:87-150 | the mappers' key lists, concatenated in id order, are exactly the listed keys |
| Protocol.PyMarkerRoundTrip | src/python/reducerCoordinator.py:76-77 | for a job id without '.', the marker the coordinator writes at line 186 is recognised and reads back as its step |
| Protocol.JsMarkerRoundTrip | src/nodejs/reducerCoordinator.js:121-124 | for a job id without '.', the marker JavaScript writes is matched and parseInt reads back its step |
| Protocol.JsMarkerMatches | src/nodejs/reducerCoordinator.js:121-122 | `/reducerstate.\d+/i` matches every marker key |
| Protocol.JsMarkerParses | src/nodejs/reducerCoordinator.js:124 | for a job id without '.', the text after the first '.' parses to the step |
| Protocol.MapperKeyIsCounted | src/python/mapper.py:64 | a mapper's output key counts as a mapper file for both coordinators |
| Protocol.MapperKeysDistinct | src/python/mapper.py:64 | different mapper ids give different output keys |
| Protocol.AllMapperOutputsCounted | src/python/reducerCoordinator.py:135-138 | once mappers 1..n have written, a complete listing of them counts exactly n distinct mapper files |
| Protocol.PageCountsMappers | src/python/reducerCoordinator.py:127-138 | a single listing call returns at most 1000 keys; with jobdata first, the page counts all of k mapper outputs when k < 1000 and only 999 when k >= 1000, so map_count is then never reached (both coordinators) |
| Store.Page | src/nodejs/reducerCoordinator.js:57-61 | one listing call returns a prefix of the objects in key order, of length min(count, 1000) |
| Protocol.ResultKeyIsCounted | src/python/reducer.py:76-78 | the only reducer's key is a result for both coordinators |
| Protocol.StepKeyIsCounted | src/python/reducer.py:79-80 | with several reducers, each key counts as an output of its step for the Python coordinator |
| Protocol.ReducerKeyIsCounted | src/python/reducer.py:76-80 | every reducer output is either the result or an output of its step |
| Protocol.ReducerKeysDistinct | src/python/reducer.py:80 | different reducers of one step write different keys |
| Protocol.DispatchIsCounted | src/python/reducerCoordinator.py:162-187 | a completed dispatch writes a marker that reads back as step+1 with count n; each reducer's key is the result (n = 1) or a distinct output of step+1 |

## Left out

- Storage and Lambda calls are data, not I/O. Listing, reading, writing
  and invoking are parameters: a listing, bucket maps and a set of
  failing invocation ids (reducers for the coordinators, mappers for the
  driver). Each coordinator's listing is the response of one unpaginated
  list_objects call (reducerCoordinator.py:127, reducerCoordinator.js:57-61),
  taken as given. The JSON encoding of payloads, markers and
  outputs is not modelled.
- Protocol.AllMapperOutputsCounted: it is about a complete listing of the
  mapper outputs. A list_objects call returns one page of at most 1000
  keys, which the coordinators take as complete. So the lemma describes
  the coordinators only while the job prefix holds at most 1000 objects:
  jobdata, the mapper outputs, the markers and the reducer outputs.
  Protocol.PageCountsMappers states what one page counts past that.
  Python's KeyError on a response with no "Contents" is modelled
  (PyCoordinator.Decide). JavaScript's `data.Contents` on an empty listing
  is taken to be an empty array.
- `float()` is modelled on integers. A mapper's field 3 and a reducer's
  value are read as Python `int()` text. Fractions, exponents and
  floating-point rounding are not modelled.
- The batch size is computed exactly. It is the exact ratio, rounded half
  up, which Python 2 `round` and `Math.round` agree on for non-negative
  values. Float error is not modelled.
- Timing, cost and metadata are not modelled:
  - the time taken;
  - `processingtime` and `memoryUsage`;
  - the `start_time`/`startTime` of markers and job data;
  - the cost accounting and polling at driver.py:188-255.
- Provisioning is not modelled. That covers `LambdaManager` (lambdautils.py:16-86), `zipLambda`,
  `write_job_config`, function creation, permissions, event sources and
  deletion (driver.py:91-126, 185-186, 253-255).
- Concurrency and ordering are not modelled:
  - the thread pool runs a window's requests in parallel, and these are
    issued in the window's order here;
  - `mapper_outputs` (driver.py:163), the list of the mappers' replies,
    is not modelled at all: only the requests are;
  - `async.map` is modelled as "every request issued, the error seen iff
    one failed";
  - a trigger that fires between the reducer invocations and the marker
    write is not modelled.
- The Node.js mapper, reducer and driver are not part of this model. They
  are context, not core.
- Other utils.js functions are not modelled: `writeToS3`, `zipLambda` and
  `calcAverageLineSize` are I/O. `_get_s3_stats` in the JavaScript
  coordinator is never called.
- JavaScript numbers are modelled as integers with NaN and ±Infinity.
  - 53-bit precision and the sign of zero are not modelled.
  - `parseInt` results above 2^53 are exact here.
  - Object values in `objToCSVBuffer` are integers, and the property
    enumeration order is given as a sequence.
- Python 2 byte strings are sequences of characters.
- The compared reducerCount is modelled compactly. JavaScript's loose
  `==` on reducerCount is a comparison with the stored number, or false
  when the field is missing.
- Driver.RunDriver: requires `concurrent_lambdas >= 1` whenever there is
  a mapper, because a method must terminate and the loop at
  driver.py:175-178 then may not. With `concurrent_lambdas == 0` every
  round requests nothing and the loop never ends. With a negative value,
  round 1 requests `Ids[:n+nm]`. If one of those requests raises, the
  driver ends with that exception; otherwise the loop never ends. The
  method does not model these runs.
  Driver.BurstLoopDiverges and Driver.NegativeWindowRounds state them
  instead.
- Driver.BurstInvoke: has the same requirement, for the same reason.
- PyCoordinator.InvokeReducers: the marker write (reducerCoordinator.py:186-187)
  is taken to succeed once every invocation has. A `put_object` that raises
  after all reducers were invoked is not modelled.
- Protocol.PyMarkerRoundTrip: holds only for job ids without '.'. The
  index is read from `split('.')[1]`, which for a dotted job id is a piece
  of the job id.
- Protocol.JsMarkerRoundTrip: has the same restriction as
  Protocol.PyMarkerRoundTrip.
- Protocol.StepKeyIsCounted: only the Python coordinator's step-output
  test is covered. The JavaScript coordinator tests `parts[2]` against
  `reducer<step>`, which matches the key layout of the Node.js reducer.
  That reducer is not part of this model.
