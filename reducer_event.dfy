/** The event a reduce coordinator sends each reducer it invokes, which
    src/python/reducer.py reads: both coordinators build the same one. */
module ReducerEvent {
  import opened Store

  /** The payload of one reducer invocation. */
  datatype Invocation = Invocation(
    bucket: string, keys: seq<string>, jobBucket: string, jobId: string,
    nReducers: int, stepId: int, reducerId: int)

  /** The payloads of one dispatch, reducer `i` getting the keys of
      batch `i`. */
  function Payloads(bucket: string, jobId: string, stepId: int, batches: seq<seq<ListedObject>>)
    : (r: seq<Invocation>)
    ensures |r| == |batches|
  {
    seq(|batches|, i requires 0 <= i < |batches| =>
      Invocation(bucket, Keys(batches[i]), bucket, jobId, |batches|, stepId, i))
  }
}
