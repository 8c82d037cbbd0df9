/** src/python/driver.py without provisioning and cost accounting: the
    listed input objects are cut into batches, one mapper per batch, and
    the mappers are invoked in windows of at most `concurrentLambdas`. */
module Driver {
  import opened Outcomes
  import opened Store
  import LambdaUtils

  /** The request payload of `invoke_lambda(batches, m_id)`. */
  datatype MapperInvocation = MapperInvocation(bucket: string, keys: seq<string>, jobBucket: string, jobId: string, mapperId: int)

  /** The `jobdata` object of the job, without its start time. */
  datatype JobData = JobData(mapCount: nat, totalS3Files: nat)

  /** The batches of the listed objects, and the job data written. */
  datatype Plan = Plan(batches: seq<seq<ListedObject>>, jobData: JobData)

  /** Steps 1 and the job data write: compute_batch_size, batch_creator, and
      `n_mappers = len(batches)`. */
  function MakePlan(allKeys: seq<ListedObject>, lambdaMemory: nat): Result<Plan>
  {
    match LambdaUtils.BatchSize(Sizes(allKeys), lambdaMemory)
    case Err(e) => Err(e)
    case Ok(bsize) =>
      var batches := LambdaUtils.Batches(allKeys, bsize);
      Ok(Plan(batches, JobData(|batches|, |allKeys|)))
  }

  /** `Ids = [i+1 for i in range(n_mappers)]`. */
  function Ids(nMappers: nat): (ids: seq<int>)
    ensures |ids| == nMappers
    ensures forall i | 0 <= i < nMappers :: ids[i] == i + 1
  {
    seq(nMappers, i requires 0 <= i < nMappers => i + 1)
  }

  /** `nm = min(concurrent_lambdas, n_mappers)`. */
  function Window(concurrentLambdas: int, nMappers: nat): int
  {
    if concurrentLambdas <= nMappers then concurrentLambdas else nMappers
  }

  /** The payload mapper `mapperId` is invoked with: the keys of
      `batches[mapperId - 1]`. */
  function Invocation(bucket: string, jobBucket: string, jobId: string, batches: seq<seq<ListedObject>>, mapperId: int): MapperInvocation
    requires 1 <= mapperId <= |batches|
  {
    MapperInvocation(bucket, Keys(batches[mapperId - 1]), jobBucket, jobId, mapperId)
  }

  predicate ValidIds(ids: seq<int>, nMappers: nat)
  {
    forall i | 0 <= i < |ids| :: 1 <= ids[i] <= nMappers
  }

  /** The payloads of the mappers `ids`, in that order. */
  function Invocations(bucket: string, jobBucket: string, jobId: string, batches: seq<seq<ListedObject>>, ids: seq<int>): (r: seq<MapperInvocation>)
    requires ValidIds(ids, |batches|)
    ensures |r| == |ids|
  {
    seq(|ids|, i requires 0 <= i < |ids| => Invocation(bucket, jobBucket, jobId, batches, ids[i]))
  }

  lemma InvocationsAppend(bucket: string, jobBucket: string, jobId: string, batches: seq<seq<ListedObject>>, a: seq<int>, b: seq<int>)
    requires ValidIds(a, |batches|) && ValidIds(b, |batches|)
    ensures ValidIds(a + b, |batches|)
    ensures Invocations(bucket, jobBucket, jobId, batches, a + b) ==
      Invocations(bucket, jobBucket, jobId, batches, a) + Invocations(bucket, jobBucket, jobId, batches, b)
  {
  }

  /** Some mapper of the window raises: its `lambda_client.invoke` call or
      the `eval` of its reply. */
  predicate Raises(window: seq<int>, failing: set<int>)
  {
    exists j | 0 <= j < |window| :: window[j] in failing
  }

  lemma RaisesExtend(window: seq<int>, failing: set<int>)
    requires window != []
    ensures Raises(window, failing) <==> Raises(window[..|window| - 1], failing) || window[|window| - 1] in failing
  {
    var init := window[..|window| - 1];
    if Raises(init, failing) {
      var j :| 0 <= j < |init| && init[j] in failing;
      assert window[j] == init[j];
    }
  }

  /** Some window of `windows` raises. */
  predicate SomeRaises(windows: seq<seq<int>>, failing: set<int>)
  {
    exists i | 0 <= i < |windows| :: Raises(windows[i], failing)
  }

  lemma SomeRaisesCons(windows: seq<seq<int>>, failing: set<int>)
    requires windows != []
    ensures SomeRaises(windows, failing) <==> Raises(windows[0], failing) || SomeRaises(windows[1..], failing)
  {
    var rest := windows[1..];
    if SomeRaises(windows, failing) {
      var i :| 0 <= i < |windows| && Raises(windows[i], failing);
      if i > 0 {
        assert rest[i - 1] == windows[i];
      }
    }
    if SomeRaises(rest, failing) {
      var i :| 0 <= i < |rest| && Raises(rest[i], failing);
      assert windows[i + 1] == rest[i];
    }
  }

  /** The windows `pool.map` is called on, out of `windows`: `pool.map` runs
      every request of its window and then re-raises, ending the loop and
      the script, so the windows requested stop at the first that raises. */
  function Requested(windows: seq<seq<int>>, failing: set<int>): (r: seq<seq<int>>)
    ensures |r| <= |windows|
    decreases |windows|
  {
    if windows == [] then []
    else if Raises(windows[0], failing) then [windows[0]]
    else [windows[0]] + Requested(windows[1..], failing)
  }

  /** The windows of ids the burst loop requests when nothing raises:
      consecutive groups of `nm = min(concurrent_lambdas, n_mappers)`. */
  function Windows(concurrentLambdas: int, nMappers: nat): seq<seq<int>>
    requires concurrentLambdas >= 1 || nMappers == 0
  {
    if nMappers == 0 then [] else LambdaUtils.Chunks(Ids(nMappers), Window(concurrentLambdas, nMappers))
  }

  /** Windows none of which raises are all requested, and the rest is
      requested as if they were not there. */
  lemma {:induction false} RequestedSkip(p: seq<seq<int>>, q: seq<seq<int>>, failing: set<int>)
    requires forall i | 0 <= i < |p| :: !Raises(p[i], failing)
    ensures Requested(p + q, failing) == p + Requested(q, failing)
    decreases |p|
  {
    if p == [] {
      assert p + q == q;
    } else {
      assert (p + q)[0] == p[0];
      assert (p + q)[1..] == p[1..] + q;
      RequestedSkip(p[1..], q, failing);
      assert p == [p[0]] + p[1..];
    }
  }

  /** The loop has cut `windows` from the first `j` ids, and the last of
      them raised: these are the windows requested. */
  lemma RequestedStops(s: seq<int>, j: nat, k: nat, windows: seq<seq<int>>, failing: set<int>)
    requires k >= 1 && j <= |s| && windows == LambdaUtils.Chunks(s[..j], k)
    requires j < |s| ==> LambdaUtils.AllFull(windows, k)
    requires windows != [] && Raises(windows[|windows| - 1], failing)
    requires forall i | 0 <= i < |windows| - 1 :: !Raises(windows[i], failing)
    ensures Requested(LambdaUtils.Chunks(s, k), failing) == windows
  {
    var rest := LambdaUtils.Chunks(s[j..], k);
    if j < |s| {
      LambdaUtils.ChunksAppend(s[..j], s[j..], k);
      assert s[..j] + s[j..] == s;
    } else {
      assert s[..j] == s;
      assert s[j..] == [];
      assert LambdaUtils.Chunks(s, k) == windows + rest;
    }
    var p := windows[..|windows| - 1];
    var last := windows[|windows| - 1];
    var q := [last] + rest;
    assert windows + rest == p + q;
    RequestedSkip(p, q, failing);
    assert q[0] == last;
    assert Requested(q, failing) == [last];
    assert p + [last] == windows;
  }

  lemma RaisesAppend(a: seq<int>, b: seq<int>, failing: set<int>)
    ensures Raises(a + b, failing) <==> Raises(a, failing) || Raises(b, failing)
  {
    var c := a + b;
    if Raises(c, failing) {
      var j :| 0 <= j < |c| && c[j] in failing;
      if j < |a| {
        assert a[j] == c[j];
      } else {
        assert b[j - |a|] == c[j];
      }
    }
    if Raises(a, failing) {
      var j :| 0 <= j < |a| && a[j] in failing;
      assert c[j] == a[j];
    }
    if Raises(b, failing) {
      var j :| 0 <= j < |b| && b[j] in failing;
      assert c[|a| + j] == b[j];
    }
  }

  /** Some window raises iff some id of their concatenation does. */
  lemma {:induction false} RaisesFlatten(windows: seq<seq<int>>, failing: set<int>)
    ensures SomeRaises(windows, failing) <==> Raises(LambdaUtils.Flatten(windows), failing)
    decreases |windows|
  {
    if windows != [] {
      RaisesFlatten(windows[1..], failing);
      RaisesAppend(windows[0], LambdaUtils.Flatten(windows[1..]), failing);
      SomeRaisesCons(windows, failing);
    }
  }

  /** `pool.map(invoke_lambda_partial, window)`: one request per id of the
      window. The requests run on a thread pool; here they are issued in
      the window's order. Every request of the window is made, and
      `raised` says whether one of them raised. */
  method InvokeWindow(bucket: string, jobBucket: string, jobId: string, batches: seq<seq<ListedObject>>,
                      failing: set<int>, invoked0: seq<MapperInvocation>, window: seq<int>)
    returns (invoked: seq<MapperInvocation>, raised: bool)
    requires ValidIds(window, |batches|)
    ensures invoked == invoked0 + Invocations(bucket, jobBucket, jobId, batches, window)
    ensures raised == Raises(window, failing)
  {
    invoked := invoked0;
    raised := false;
    for j := 0 to |window|
      invariant invoked == invoked0 + Invocations(bucket, jobBucket, jobId, batches, window[..j])
      invariant raised == Raises(window[..j], failing)
    {
      var mId := window[j];
      assert window[..j + 1] == window[..j] + [mId];
      InvocationsAppend(bucket, jobBucket, jobId, batches, window[..j], [mId]);
      RaisesExtend(window[..j + 1], failing);
      invoked := invoked + [MapperInvocation(bucket, Keys(batches[mId - 1]), jobBucket, jobId, mId)];
      raised := raised || mId in failing;
    }
    assert window[..|window|] == window;
  }

  /** One round of the burst loop on the windows cut so far: the window
      `ids[executed : executed + nm]` (Python clamps the slice at the end). */
  lemma WindowStep<T>(s: seq<T>, j: nat, k: nat)
    requires k >= 1 && j < |s| && LambdaUtils.AllFull(LambdaUtils.Chunks(s[..j], k), k)
    ensures var stop := if j + k <= |s| then j + k else |s|;
      && LambdaUtils.Chunks(s[..stop], k) == LambdaUtils.Chunks(s[..j], k) + [s[j..stop]]
      && (stop < |s| ==> LambdaUtils.AllFull(LambdaUtils.Chunks(s[..stop], k), k))
  {
    if j + k <= |s| {
      LambdaUtils.ChunksExtend(s, j, k);
    } else {
      LambdaUtils.ChunksFinish(s, j, k);
      assert s[..|s|] == s;
      assert s[j..|s|] == s[j..];
    }
  }

  /** One round of the burst loop: invoke the window
      `Ids[mappers_executed : mappers_executed + nm]`, which Python clamps at
      the end of `Ids`. */
  method BurstRound(bucket: string, jobBucket: string, jobId: string, batches: seq<seq<ListedObject>>,
                    failing: set<int>, nm: int, executed: nat, invoked0: seq<MapperInvocation>, windows0: seq<seq<int>>)
    returns (invoked: seq<MapperInvocation>, windows: seq<seq<int>>, stop: nat, raised: bool)
    requires 1 <= nm && executed < |batches|
    requires windows0 == LambdaUtils.Chunks(Ids(|batches|)[..executed], nm) && LambdaUtils.AllFull(windows0, nm)
    requires invoked0 == Invocations(bucket, jobBucket, jobId, batches, Ids(|batches|)[..executed])
    ensures stop == if executed + nm <= |batches| then executed + nm else |batches|
    ensures windows == windows0 + [Ids(|batches|)[executed..stop]]
    ensures windows == LambdaUtils.Chunks(Ids(|batches|)[..stop], nm)
    ensures stop < |batches| ==> LambdaUtils.AllFull(windows, nm)
    ensures invoked == Invocations(bucket, jobBucket, jobId, batches, Ids(|batches|)[..stop])
    ensures raised == Raises(Ids(|batches|)[executed..stop], failing)
  {
    var ids := Ids(|batches|);
    assert ValidIds(ids, |batches|);
    stop := if executed + nm <= |batches| then executed + nm else |batches|;
    var window := ids[executed..stop];
    assert ids[..stop] == ids[..executed] + window;
    InvocationsAppend(bucket, jobBucket, jobId, batches, ids[..executed], window);
    invoked, raised := InvokeWindow(bucket, jobBucket, jobId, batches, failing, invoked0, window);
    WindowStep(ids, executed, nm);
    windows := windows0 + [window];
  }

  /** `mappers_executed` after `rounds` rounds: it grows by `nm` each
      round. */
  function Executed(rounds: nat, nm: int): int
  {
    if rounds == 0 then 0 else Executed(rounds - 1, nm) + nm
  }

  lemma {:induction false} ExecutedIsProduct(rounds: nat, nm: int)
    ensures Executed(rounds, nm) == rounds * nm
  {
    if rounds > 0 {
      ExecutedIsProduct(rounds - 1, nm);
      assert (rounds - 1) * nm + nm == rounds * nm;
    }
  }

  /** The rounds of the burst loop once there is a mapper and `nm >= 1`:
      the windows requested are those of `Requested`, and the loop ends
      either with every id requested or with the window that raised. */
  method BurstLoop(bucket: string, jobBucket: string, jobId: string, batches: seq<seq<ListedObject>>,
                   failing: set<int>, nm: int)
    returns (invoked: seq<MapperInvocation>, windows: seq<seq<int>>, executed: int, raised: bool)
    requires batches != [] && 1 <= nm <= |batches|
    ensures windows == Requested(LambdaUtils.Chunks(Ids(|batches|), nm), failing)
    ensures ValidIds(LambdaUtils.Flatten(windows), |batches|)
    ensures invoked == Invocations(bucket, jobBucket, jobId, batches, LambdaUtils.Flatten(windows))
    ensures raised == (windows != [] && Raises(windows[|windows| - 1], failing))
    ensures !raised ==> executed == Executed(|windows|, nm) && |batches| <= executed < |batches| + nm
  {
    var nMappers := |batches|;
    var ids := Ids(nMappers);
    executed := 0;
    invoked := [];
    windows := [];
    raised := false;
    ghost var done: nat := 0;
    while executed < nMappers
      invariant 0 <= executed < nMappers + nm
      invariant executed == Executed(|windows|, nm)
      invariant done == if executed <= nMappers then executed else nMappers
      invariant windows == LambdaUtils.Chunks(ids[..done], nm)
      invariant done < nMappers ==> LambdaUtils.AllFull(windows, nm)
      invariant invoked == Invocations(bucket, jobBucket, jobId, batches, ids[..done])
      invariant forall i | 0 <= i < |windows| :: !Raises(windows[i], failing)
      decreases nMappers - executed
    {
      ghost var before := windows;
      invoked, windows, done, raised := BurstRound(bucket, jobBucket, jobId, batches, failing, nm, executed, invoked, windows);
      LambdaUtils.ChunksPartition(ids[..done], nm);
      assert ValidIds(ids[..done], nMappers);
      if raised {
        assert windows[..|windows| - 1] == before;
        RequestedStops(ids, done, nm, windows, failing);
        return;
      }
      executed := executed + nm;
    }
    assert ids[..done] == ids;
    LambdaUtils.ChunksPartition(ids, nm);
    RequestedSkip(windows, [], failing);
    assert windows + [] == windows;
  }

  /** The burst-request loop. It stops only if `concurrent_lambdas` is at
      least 1 or there are no mappers (see BurstLoopDiverges). Returns the
      requests made, the windows of ids, the final `mappers_executed` and
      whether a window raised. */
  method BurstInvoke(bucket: string, jobBucket: string, jobId: string, batches: seq<seq<ListedObject>>,
                     concurrentLambdas: int, failing: set<int>)
    returns (invoked: seq<MapperInvocation>, windows: seq<seq<int>>, executed: int, raised: bool)
    requires concurrentLambdas >= 1 || batches == []
    ensures var n := |batches|;
      var nm := Window(concurrentLambdas, n);
      && windows == Requested(Windows(concurrentLambdas, n), failing)
      && ValidIds(LambdaUtils.Flatten(windows), n)
      && invoked == Invocations(bucket, jobBucket, jobId, batches, LambdaUtils.Flatten(windows))
      && raised == (windows != [] && Raises(windows[|windows| - 1], failing))
      && (!raised ==> executed == Executed(|windows|, nm))
      && (!raised && n > 0 ==> n <= executed < n + nm)
  {
    var nMappers := |batches|;
    if nMappers == 0 {
      return [], [], 0, false;
    }
    var nm := if concurrentLambdas <= nMappers then concurrentLambdas else nMappers;
    invoked, windows, executed, raised := BurstLoop(bucket, jobBucket, jobId, batches, failing, nm);
  }

  /** The driver up to the end of the mapper phase: plan, then the burst
      loop. The mappers whose invocation raises are `failing`; the first
      window holding one of them is the last requested, and the script then
      ends with that exception. Listing the input, provisioning and the
      mappers' replies are not part of this model. */
  method RunDriver(allKeys: seq<ListedObject>, lambdaMemory: nat, concurrentLambdas: int, failing: set<int>,
                   bucket: string, jobBucket: string, jobId: string)
    returns (r: Result<Plan>, invoked: seq<MapperInvocation>)
    requires concurrentLambdas >= 1 || LambdaUtils.BatchSize(Sizes(allKeys), lambdaMemory).Err?
    ensures MakePlan(allKeys, lambdaMemory).Err? ==> r == Err(MakePlan(allKeys, lambdaMemory).error) && invoked == []
    ensures MakePlan(allKeys, lambdaMemory).Ok? ==>
      var plan := MakePlan(allKeys, lambdaMemory).value;
      var requested := Requested(Windows(concurrentLambdas, |plan.batches|), failing);
      && ValidIds(LambdaUtils.Flatten(requested), |plan.batches|)
      && invoked == Invocations(bucket, jobBucket, jobId, plan.batches, LambdaUtils.Flatten(requested))
      && r == (if requested != [] && Raises(requested[|requested| - 1], failing) then Err(InvokeError) else Ok(plan))
  {
    var bsize := LambdaUtils.ComputeBatchSize(Sizes(allKeys), lambdaMemory, false);
    if bsize.Err? {
      return Err(bsize.error), [];
    }
    var batches := LambdaUtils.BatchCreator(allKeys, bsize.value);
    var nMappers := |batches|;
    var plan := Plan(batches, JobData(nMappers, |allKeys|));
    var windows, executed, raised;
    invoked, windows, executed, raised := BurstInvoke(bucket, jobBucket, jobId, batches, concurrentLambdas, failing);
    r := if raised then Err(InvokeError) else Ok(plan);
  }

  // ---------------------------------------------------------------------------
  // Properties
  // ---------------------------------------------------------------------------

  /** The windows requested are a prefix of the windows, and none but
      the last raises. */
  lemma {:induction false} RequestedIsPrefix(windows: seq<seq<int>>, failing: set<int>)
    ensures var w := Requested(windows, failing);
      && w <= windows
      && (forall i | 0 <= i < |w| - 1 :: !Raises(w[i], failing))
    decreases |windows|
  {
    if windows != [] && !Raises(windows[0], failing) {
      var rest := windows[1..];
      RequestedIsPrefix(rest, failing);
      assert Requested(windows, failing) == [windows[0]] + Requested(rest, failing);
      assert windows == [windows[0]] + rest;
    }
  }

  /** The last window requested raises iff some window raises. */
  lemma {:induction false} RequestedEndsAtRaise(windows: seq<seq<int>>, failing: set<int>)
    ensures var w := Requested(windows, failing);
      (w != [] && Raises(w[|w| - 1], failing)) <==> SomeRaises(windows, failing)
    decreases |windows|
  {
    if windows != [] {
      SomeRaisesCons(windows, failing);
      if !Raises(windows[0], failing) {
        var rest := windows[1..];
        RequestedEndsAtRaise(rest, failing);
        var w' := Requested(rest, failing);
        assert Requested(windows, failing) == [windows[0]] + w';
      }
    }
  }

  /** A mapper of ids 1..n raises iff one of the numbers 1..n is in
      `failing`. */
  lemma RaisesIds(nMappers: nat, failing: set<int>)
    ensures Raises(Ids(nMappers), failing) <==> exists m | 1 <= m <= nMappers :: m in failing
  {
    var ids := Ids(nMappers);
    if Raises(ids, failing) {
      var j :| 0 <= j < |ids| && ids[j] in failing;
      assert 1 <= j + 1 <= nMappers && j + 1 in failing;
    }
    if exists m | 1 <= m <= nMappers :: m in failing {
      var m :| 1 <= m <= nMappers && m in failing;
      assert ids[m - 1] == m;
    }
  }

  /** The ids of a prefix of the windows are a prefix of all the ids. */
  lemma FlattenPrefix(w: seq<seq<int>>, all: seq<seq<int>>)
    requires w <= all
    ensures LambdaUtils.Flatten(w) <= LambdaUtils.Flatten(all)
  {
    assert all == w + all[|w|..];
    LambdaUtils.FlattenAppend(w, all[|w|..]);
  }

  /** With the mappers in `failing` raising, the mappers requested are ids
      1..m for some m: the windows requested are the first windows of the
      burst loop, none but the last holds a failing mapper, the last holds
      one iff some mapper of the job fails, and when none fails every
      mapper is requested. */
  lemma RequestedPrefix(concurrentLambdas: int, nMappers: nat, failing: set<int>)
    requires concurrentLambdas >= 1
    ensures var all := Windows(concurrentLambdas, nMappers);
      var w := Requested(all, failing);
      && w <= all
      && LambdaUtils.Flatten(w) <= Ids(nMappers)
      && (forall i | 0 <= i < |w| - 1 :: !Raises(w[i], failing))
      && ((w != [] && Raises(w[|w| - 1], failing)) <==> exists m | 1 <= m <= nMappers :: m in failing)
      && ((forall m | 1 <= m <= nMappers :: m !in failing) ==> w == all && LambdaUtils.Flatten(w) == Ids(nMappers))
  {
    var all := Windows(concurrentLambdas, nMappers);
    var w := Requested(all, failing);
    RequestedIsPrefix(all, failing);
    RequestedEndsAtRaise(all, failing);
    if nMappers > 0 {
      LambdaUtils.ChunksPartition(Ids(nMappers), Window(concurrentLambdas, nMappers));
    }
    assert LambdaUtils.Flatten(all) == Ids(nMappers);
    FlattenPrefix(w, all);
    RaisesFlatten(all, failing);
    RaisesIds(nMappers, failing);
    if forall m | 1 <= m <= nMappers :: m !in failing {
      RequestedSkip(all, [], failing);
      assert all + [] == all;
    }
  }

  /** Mapper `m` is invoked exactly once, as the `m`-th request, with the
      keys of `batches[m - 1]`, for every `m` from 1 to the number of
      batches (request `i` goes to mapper `i + 1`). */
  lemma EachMapperOnce(bucket: string, jobBucket: string, jobId: string, batches: seq<seq<ListedObject>>)
    ensures var invoked := Invocations(bucket, jobBucket, jobId, batches, Ids(|batches|));
      && |invoked| == |batches|
      && (forall i | 0 <= i < |batches| ::
            invoked[i].mapperId == i + 1 && invoked[i].keys == Keys(batches[i]))
      && (forall i, j | 0 <= i < j < |invoked| :: invoked[i].mapperId != invoked[j].mapperId)
  {
  }

  /** The windows, concatenated, give back the ids 1..n in order; none is
      empty or longer than `nm`, all but the last hold exactly `nm`, and
      there are ceil(n / nm) of them. */
  lemma WindowsShape(concurrentLambdas: int, nMappers: nat)
    requires concurrentLambdas >= 1 && nMappers >= 1
    ensures var nm := Window(concurrentLambdas, nMappers);
      var w := LambdaUtils.Chunks(Ids(nMappers), nm);
      && LambdaUtils.Flatten(w) == Ids(nMappers)
      && |w| == (nMappers + nm - 1) / nm
      && (forall i | 0 <= i < |w| :: 0 < |w[i]| <= nm)
      && (forall i | 0 <= i < |w| - 1 :: |w[i]| == nm)
  {
    var nm := Window(concurrentLambdas, nMappers);
    LambdaUtils.ChunksPartition(Ids(nMappers), nm);
    LambdaUtils.ChunksCount(Ids(nMappers), nm);
    LambdaUtils.ChunksShape(Ids(nMappers), nm);
  }

  /** With `concurrent_lambdas <= 0` and at least one mapper, `nm` is not
      positive: after any number of rounds `mappers_executed` is still below
      `n_mappers`, so the loop exits only through an exception of
      `pool.map` (see NegativeWindowRounds for what is requested). */
  lemma BurstLoopDiverges(concurrentLambdas: int, nMappers: nat, rounds: nat)
    requires concurrentLambdas <= 0 < nMappers
    ensures rounds * Window(concurrentLambdas, nMappers) < nMappers
  {
    var nm := Window(concurrentLambdas, nMappers);
    LambdaUtils.MulMonotone(nm, 0, rounds);
    assert nm * rounds == rounds * nm;
  }

  /** Python's normalisation of a slice bound `i` of a list of length
      `len`: a negative bound counts from the end, and the result is
      clamped to 0..len. */
  function PyIndex(len: nat, i: int): (k: nat)
    ensures k <= len
    ensures 0 <= i <= len ==> k == i
    ensures i < 0 && i + len >= 0 ==> k == i + len
  {
    if i < 0 then (if i + len < 0 then 0 else i + len)
    else if i > len then len
    else i
  }

  /** Python's `s[i:j]`. */
  function PySlice<T>(s: seq<T>, i: int, j: int): (r: seq<T>)
    ensures |r| <= |s|
  {
    var a := PyIndex(|s|, i);
    var b := PyIndex(|s|, j);
    if a < b then s[a..b] else []
  }

  /** With `concurrent_lambdas < 0`, `nm` is that negative number. The
      first round's slice `Ids[0:nm]` counts from the end and requests
      mappers 1..n+nm (none when n+nm <= 0); every later round's slice
      `Ids[k*nm:(k+1)*nm]` ends before it starts and requests nothing. So
      the run ends only when a request of the first round raises. */
  lemma NegativeWindowRounds(concurrentLambdas: int, nMappers: nat, k: nat)
    requires concurrentLambdas < 0 < nMappers
    ensures var nm := Window(concurrentLambdas, nMappers);
      && nm == concurrentLambdas
      && PySlice(Ids(nMappers), 0, nm) == Ids(if nMappers + nm > 0 then nMappers + nm else 0)
      && (k >= 1 ==> PySlice(Ids(nMappers), k * nm, k * nm + nm) == [])
  {
    var nm := Window(concurrentLambdas, nMappers);
    var n := nMappers;
    var m := if n + nm > 0 then n + nm else 0;
    assert PySlice(Ids(n), 0, nm) == Ids(n)[..m];
    assert Ids(n)[..m] == Ids(m);
    if k >= 1 {
      LambdaUtils.MulMonotone(1, k, nm - nm - nm);
      assert k * nm <= nm;
    }
  }

  lemma {:induction false} FlattenKeys(batches: seq<seq<ListedObject>>)
    ensures LambdaUtils.Flatten(seq(|batches|, m requires 0 <= m < |batches| => Keys(batches[m]))) ==
      Keys(LambdaUtils.Flatten(batches))
    decreases |batches|
  {
    var ks := seq(|batches|, m requires 0 <= m < |batches| => Keys(batches[m]));
    if batches != [] {
      var tail := batches[1..];
      FlattenKeys(tail);
      assert ks[1..] == seq(|tail|, m requires 0 <= m < |tail| => Keys(tail[m]));
      KeysAppend(batches[0], LambdaUtils.Flatten(tail));
    }
  }

  lemma KeysAppend(a: seq<ListedObject>, b: seq<ListedObject>)
    ensures Keys(a + b) == Keys(a) + Keys(b)
  {
  }

  /** A plan fails, with a division by zero, iff there are no objects or
      their sizes add up to zero; otherwise there is one mapper per batch,
      at least one and at most one per listed object. */
  lemma PlanCounts(allKeys: seq<ListedObject>, lambdaMemory: nat)
    ensures MakePlan(allKeys, lambdaMemory).Err? <==> |allKeys| == 0 || LambdaUtils.Sum(Sizes(allKeys)) == 0
    ensures MakePlan(allKeys, lambdaMemory).Err? ==> MakePlan(allKeys, lambdaMemory).error == ZeroDivisionError
    ensures MakePlan(allKeys, lambdaMemory).Ok? ==>
      var plan := MakePlan(allKeys, lambdaMemory).value;
      && plan.jobData == JobData(|plan.batches|, |allKeys|)
      && 1 <= plan.jobData.mapCount <= |allKeys|
  {
    if MakePlan(allKeys, lambdaMemory).Ok? {
      var k := LambdaUtils.Limit(LambdaUtils.BatchSize(Sizes(allKeys), lambdaMemory).value);
      LambdaUtils.ChunksAtMost(allKeys, k);
    }
  }

  /** The key lists of the mappers' requests, in id order, are the key
      lists of the batches. */
  lemma InvocationKeys(bucket: string, jobBucket: string, jobId: string, batches: seq<seq<ListedObject>>)
    ensures var invoked := Invocations(bucket, jobBucket, jobId, batches, Ids(|batches|));
      seq(|invoked|, m requires 0 <= m < |invoked| => invoked[m].keys) ==
      seq(|batches|, m requires 0 <= m < |batches| => Keys(batches[m]))
  {
  }

  /** The mappers' key lists, concatenated in id order, are exactly the
      listed keys: every listed object goes to exactly one mapper. */
  lemma PlanCoversInput(allKeys: seq<ListedObject>, lambdaMemory: nat, bucket: string, jobBucket: string, jobId: string)
    requires MakePlan(allKeys, lambdaMemory).Ok?
    ensures var plan := MakePlan(allKeys, lambdaMemory).value;
      var invoked := Invocations(bucket, jobBucket, jobId, plan.batches, Ids(|plan.batches|));
      LambdaUtils.Flatten(seq(|invoked|, m requires 0 <= m < |invoked| => invoked[m].keys)) == Keys(allKeys)
  {
    var batches := MakePlan(allKeys, lambdaMemory).value.batches;
    LambdaUtils.BatchesPartition(allKeys, LambdaUtils.BatchSize(Sizes(allKeys), lambdaMemory).value);
    FlattenKeys(batches);
    InvocationKeys(bucket, jobBucket, jobId, batches);
  }
}
