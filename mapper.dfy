/** src/python/mapper.py: a mapper reads each of its source objects,
    splits the text into lines, and for every line adds field 3 (counted
    from 0) of the comma-separated line to a total kept under the first 8
    characters of field 0; it then writes the totals to
    `<job>/task/mapper/<mapper id>`. */
module Mapper {
  import opened Outcomes
  import opened Text

  /** TASK_MAPPER_PREFIX. */
  const TaskMapperPrefix := "task/mapper/"

  /** `contents.split('\n')[:-1]`: every line that a newline ends. */
  function Lines(contents: string): (lines: seq<string>)
  {
    var parts := Split(contents, '\n');
    parts[..|parts| - 1]
  }

  function Take(s: string, n: nat): string
  {
    if |s| <= n then s else s[..n]
  }

  /** `line.split(',')[0][:8]`: the longest prefix of the line that has no
      comma and at most 8 characters. */
  function LineKey(line: string): (k: string)
    ensures k <= line && ',' !in k && |k| <= 8
    ensures |k| < 8 ==> |k| == |line| || line[|k|] == ','
  {
    SplitFirst(line, ',');
    Take(Split(line, ',')[0], 8)
  }

  /** `float(data[3])`, the value abstracted to an integer: None when the
      line has fewer than four fields (IndexError) or field 3 is not a
      number (ValueError); the handler catches both and adds nothing. */
  function LineValue(line: string): Option<int>
  {
    var data := Split(line, ',');
    if |data| < 4 then None
    else
      match PyInt(data[3])
      case Ok(v) => Some(v)
      case Err(_) => None
  }

  function ValueOrZero(line: string): int
  {
    match LineValue(line)
    case Some(v) => v
    case None => 0
  }

  /** One pass of the loop body: the key goes in with 0 if it is new, then
      the value, if any, is added. */
  function AddLine(output: map<string, int>, line: string): map<string, int>
  {
    var k := LineKey(line);
    var base := if k in output then output[k] else 0;
    output[k := base + ValueOrZero(line)]
  }

  /** The `output` dictionary after the given lines. */
  function Aggregate(lines: seq<string>): map<string, int>
    decreases |lines|
  {
    if lines == [] then map[] else AddLine(Aggregate(lines[..|lines| - 1]), lines[|lines| - 1])
  }

  /** The lines of every source key, key after key; reading a key the
      source bucket does not hold raises. */
  function SourceLines(srcKeys: seq<string>, srcBucket: map<string, string>): Result<seq<string>>
    decreases |srcKeys|
  {
    if srcKeys == [] then Ok([])
    else
      match SourceLines(srcKeys[..|srcKeys| - 1], srcBucket)
      case Err(e) => Err(e)
      case Ok(lines) =>
        var key := srcKeys[|srcKeys| - 1];
        if key !in srcBucket then Err(NoSuchKey) else Ok(lines + Lines(srcBucket[key]))
  }

  /** `mapper_fname`. */
  function MapperKey(jobId: string, mapperId: int): string
  {
    jobId + "/" + TaskMapperPrefix + IntToString(mapperId)
  }

  /** The return value `[len(src_keys), line_count, time, err]` without
      the time. */
  datatype Report = Report(keyCount: nat, lineCount: nat, err: string)

  /** The object written (its key, the totals and the linecount metadata)
      and the value returned. */
  datatype MapperRun = MapperRun(outputKey: string, output: map<string, int>, lineCountMetadata: string, report: Report)

  /** lambda_handler for the event's jobId, mapperId and keys, reading the
      source bucket `srcBucket`. */
  function Run(jobId: string, mapperId: int, srcKeys: seq<string>, srcBucket: map<string, string>): Result<MapperRun>
  {
    match SourceLines(srcKeys, srcBucket)
    case Err(e) => Err(e)
    case Ok(lines) =>
      Ok(MapperRun(MapperKey(jobId, mapperId), Aggregate(lines), IntToString(|lines|),
                   Report(|srcKeys|, |lines|, "")))
  }

  lemma {:induction false} SourceLinesErrorSticks(srcKeys: seq<string>, srcBucket: map<string, string>, i: nat)
    requires i <= |srcKeys| && SourceLines(srcKeys[..i], srcBucket).Err?
    ensures SourceLines(srcKeys, srcBucket) == SourceLines(srcKeys[..i], srcBucket)
    decreases |srcKeys| - i
  {
    if i < |srcKeys| {
      assert srcKeys[..i + 1][..i] == srcKeys[..i];
      SourceLinesErrorSticks(srcKeys, srcBucket, i + 1);
    } else {
      assert srcKeys[..i] == srcKeys;
    }
  }

  lemma AggregateSnoc(lines: seq<string>, line: string)
    ensures Aggregate(lines + [line]) == AddLine(Aggregate(lines), line)
  {
    assert (lines + [line])[..|lines|] == lines;
  }

  lemma AggregateStep(done: seq<string>, lines: seq<string>, j: nat)
    requires j < |lines|
    ensures Aggregate(done + lines[..j + 1]) == AddLine(Aggregate(done + lines[..j]), lines[j])
  {
    assert done + lines[..j + 1] == (done + lines[..j]) + [lines[j]];
    AggregateSnoc(done + lines[..j], lines[j]);
  }

  /** The body of the inner loop of lambda_handler for one line. */
  method AddLineInPlace(output0: map<string, int>, line: string) returns (output: map<string, int>)
    ensures output == AddLine(output0, line)
  {
    output := output0;
    var data := Split(line, ',');
    var srcIp := Take(data[0], 8);
    if srcIp !in output {
      output := output[srcIp := 0];
    }
    if |data| >= 4 {
      var value := PyInt(data[3]);
      if value.Ok? {
        output := output[srcIp := output[srcIp] + value.value];
      }
    }
  }

  /** The inner loop of lambda_handler over the lines of one source object. */
  method AddLines(output0: map<string, int>, lineCount0: nat, ghost done: seq<string>, lines: seq<string>)
    returns (output: map<string, int>, lineCount: nat)
    requires output0 == Aggregate(done) && lineCount0 == |done|
    ensures output == Aggregate(done + lines) && lineCount == |done + lines|
  {
    output, lineCount := output0, lineCount0;
    assert done + lines[..0] == done;
    for j := 0 to |lines|
      invariant output == Aggregate(done + lines[..j])
      invariant lineCount == |done| + j
    {
      var line := lines[j];
      AggregateStep(done, lines, j);
      lineCount := lineCount + 1;
      output := AddLineInPlace(output, line);
    }
    assert lines[..|lines|] == lines;
  }

  method LambdaHandler(jobId: string, mapperId: int, srcKeys: seq<string>, srcBucket: map<string, string>)
    returns (r: Result<MapperRun>)
    ensures r == Run(jobId, mapperId, srcKeys, srcBucket)
  {
    var output: map<string, int> := map[];
    var lineCount := 0;
    var err := "";
    ghost var done: seq<string> := [];
    for i := 0 to |srcKeys|
      invariant SourceLines(srcKeys[..i], srcBucket) == Ok(done)
      invariant output == Aggregate(done)
      invariant lineCount == |done|
    {
      var key := srcKeys[i];
      assert srcKeys[..i + 1][..i] == srcKeys[..i];
      if key !in srcBucket {
        SourceLinesErrorSticks(srcKeys, srcBucket, i + 1);
        return Err(NoSuchKey);
      }
      var contents := srcBucket[key];
      output, lineCount := AddLines(output, lineCount, done, Lines(contents));
      done := done + Lines(contents);
    }
    assert srcKeys[..|srcKeys|] == srcKeys;
    r := Ok(MapperRun(MapperKey(jobId, mapperId), output, IntToString(lineCount), Report(|srcKeys|, lineCount, err)));
  }

  // ---------------------------------------------------------------------------
  // Properties
  // ---------------------------------------------------------------------------

  /** A run fails iff some source key is missing from the bucket. */
  lemma {:induction false} SourceLinesFail(srcKeys: seq<string>, srcBucket: map<string, string>)
    ensures SourceLines(srcKeys, srcBucket).Err? <==> exists i | 0 <= i < |srcKeys| :: srcKeys[i] !in srcBucket
    decreases |srcKeys|
  {
    if srcKeys != [] {
      var init := srcKeys[..|srcKeys| - 1];
      SourceLinesFail(init, srcBucket);
      if SourceLines(init, srcBucket).Err? {
        var i :| 0 <= i < |init| && init[i] !in srcBucket;
        assert srcKeys[i] == init[i];
      }
      if exists i | 0 <= i < |srcKeys| :: srcKeys[i] !in srcBucket {
        var i :| 0 <= i < |srcKeys| && srcKeys[i] !in srcBucket;
        if i < |init| {
          assert srcKeys[i] == init[i];
        }
      }
    }
  }

  /** Otherwise every line of every source key is counted, malformed or not. */
  lemma {:induction false} SourceLinesCount(srcKeys: seq<string>, srcBucket: map<string, string>)
    requires SourceLines(srcKeys, srcBucket).Ok?
    ensures |SourceLines(srcKeys, srcBucket).value| == LineTotal(srcKeys, srcBucket)
    decreases |srcKeys|
  {
    if srcKeys != [] {
      SourceLinesCount(srcKeys[..|srcKeys| - 1], srcBucket);
      LinesCount(srcBucket[srcKeys[|srcKeys| - 1]]);
    }
  }

  /** A run fails iff some source key is missing from the bucket; otherwise
      it reports every source key, counts every line of every source key,
      and its err is always empty. */
  lemma RunReport(jobId: string, mapperId: int, srcKeys: seq<string>, srcBucket: map<string, string>)
    ensures Run(jobId, mapperId, srcKeys, srcBucket).Err? <==> exists i | 0 <= i < |srcKeys| :: srcKeys[i] !in srcBucket
    ensures Run(jobId, mapperId, srcKeys, srcBucket).Ok? ==>
      var run := Run(jobId, mapperId, srcKeys, srcBucket).value;
      && run.report.keyCount == |srcKeys|
      && run.report.lineCount == LineTotal(srcKeys, srcBucket)
      && run.report.err == ""
      && run.lineCountMetadata == IntToString(run.report.lineCount)
      && run.outputKey == MapperKey(jobId, mapperId)
  {
    SourceLinesFail(srcKeys, srcBucket);
    if SourceLines(srcKeys, srcBucket).Ok? {
      SourceLinesCount(srcKeys, srcBucket);
    }
  }

  /** The number of newlines in all the source objects. */
  function LineTotal(srcKeys: seq<string>, srcBucket: map<string, string>): nat
    decreases |srcKeys|
  {
    if srcKeys == [] then 0
    else
      var key := srcKeys[|srcKeys| - 1];
      LineTotal(srcKeys[..|srcKeys| - 1], srcBucket) + (if key in srcBucket then Count(srcBucket[key], '\n') else 0)
  }

  /** A text has as many lines as newlines. */
  lemma LinesCount(contents: string)
    ensures |Lines(contents)| == Count(contents, '\n')
  {
    SplitCount(contents, '\n');
  }

  /** Text after the final newline is never processed. */
  lemma LinesIgnoreTail(body: string, tail: string)
    requires body == [] || body[|body| - 1] == '\n'
    requires '\n' !in tail
    ensures Lines(body + tail) == Lines(body)
  {
    SplitNoSeparator(tail, '\n');
    if body == [] {
      assert body + tail == tail;
    } else {
      var front := body[..|body| - 1];
      assert body == front + ['\n'] + [];
      assert body + tail == front + ['\n'] + tail;
      SplitJoin(front, '\n', tail);
      SplitJoin(front, '\n', []);
    }
  }

  /** Text written as newline-terminated lines gives back those lines. */
  function Joined(lines: seq<string>): string
    decreases |lines|
  {
    if lines == [] then "" else lines[0] + "\n" + Joined(lines[1..])
  }

  lemma {:induction false} LinesOfJoined(lines: seq<string>)
    requires forall i | 0 <= i < |lines| :: '\n' !in lines[i]
    ensures Split(Joined(lines), '\n') == lines + [""]
    ensures Lines(Joined(lines)) == lines
    decreases |lines|
  {
    if lines != [] {
      LinesOfJoined(lines[1..]);
      SplitJoin(lines[0], '\n', Joined(lines[1..]));
      SplitNoSeparator(lines[0], '\n');
      assert lines == [lines[0]] + lines[1..];
    }
  }

  /** Some line of `lines` has key `k`. */
  predicate HasKey(lines: seq<string>, k: string)
  {
    exists i | 0 <= i < |lines| :: LineKey(lines[i]) == k
  }

  lemma HasKeyExtend(lines: seq<string>, k: string)
    requires lines != []
    ensures HasKey(lines, k) <==> HasKey(lines[..|lines| - 1], k) || LineKey(lines[|lines| - 1]) == k
  {
    var init := lines[..|lines| - 1];
    if HasKey(lines, k) && LineKey(lines[|lines| - 1]) != k {
      var i :| 0 <= i < |lines| && LineKey(lines[i]) == k;
      assert init[i] == lines[i];
    }
    if HasKey(init, k) {
      var i :| 0 <= i < |init| && LineKey(init[i]) == k;
      assert lines[i] == init[i];
    }
  }

  /** Every line puts its key into the output, malformed or not, and no
      other key gets there. */
  lemma {:induction false} AggregateKeys(lines: seq<string>, k: string)
    ensures k in Aggregate(lines) <==> HasKey(lines, k)
    decreases |lines|
  {
    if lines != [] {
      AggregateKeys(lines[..|lines| - 1], k);
      HasKeyExtend(lines, k);
    }
  }

  /** The sum of field 3 over the well-formed lines whose key is `k`. */
  function SumFor(lines: seq<string>, k: string): int
    decreases |lines|
  {
    if lines == [] then 0
    else
      var last := lines[|lines| - 1];
      SumFor(lines[..|lines| - 1], k) + (if LineKey(last) == k then ValueOrZero(last) else 0)
  }

  /** Each total is the sum of field 3 over the well-formed lines with its
      key. */
  lemma {:induction false} AggregateSums(lines: seq<string>, k: string)
    requires k in Aggregate(lines)
    ensures Aggregate(lines)[k] == SumFor(lines, k)
    decreases |lines|
  {
    if lines != [] {
      var init := lines[..|lines| - 1];
      if k in Aggregate(init) {
        AggregateSums(init, k);
      } else {
        SumForAbsent(init, k);
      }
    }
  }

  lemma {:induction false} SumForAbsent(lines: seq<string>, k: string)
    requires k !in Aggregate(lines)
    ensures SumFor(lines, k) == 0
    decreases |lines|
  {
    if lines != [] {
      SumForAbsent(lines[..|lines| - 1], k);
    }
  }

  /** A malformed line changes no total; it only inserts its key with 0
      when the key is new. */
  lemma MalformedLineAddsNothing(lines: seq<string>, line: string)
    requires LineValue(line).None?
    ensures var before, after := Aggregate(lines), Aggregate(lines + [line]);
      && (forall k | k in before :: k in after && after[k] == before[k])
      && (LineKey(line) !in before ==> after == before[LineKey(line) := 0])
  {
    assert (lines + [line])[..|lines|] == lines;
  }
}
