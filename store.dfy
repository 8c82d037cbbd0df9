/** The object store as the orchestration code sees it: a listing of
    objects, each with its key and its size in bytes. */
module Store {

  datatype ListedObject = ListedObject(key: string, size: nat)

  /** `[b['Key'] for b in objs]` / `_get_keys(objs)`. */
  function Keys(objs: seq<ListedObject>): (keys: seq<string>)
    ensures |keys| == |objs|
    ensures forall i | 0 <= i < |objs| :: keys[i] == objs[i].key
  {
    seq(|objs|, i requires 0 <= i < |objs| => objs[i].key)
  }

  function Sizes(objs: seq<ListedObject>): (sizes: seq<nat>)
    ensures |sizes| == |objs|
    ensures forall i | 0 <= i < |objs| :: sizes[i] == objs[i].size
  {
    seq(|objs|, i requires 0 <= i < |objs| => objs[i].size)
  }

  /** The objects of a listing whose key satisfies `p`, in listing order. */
  function Select(files: seq<ListedObject>, p: string -> bool): (r: seq<ListedObject>)
    ensures |r| <= |files|
    decreases |files|
  {
    if files == [] then []
    else Select(files[..|files| - 1], p) + (if p(files[|files| - 1].key) then [files[|files| - 1]] else [])
  }

  /** Selecting from two listings one after the other is selecting from
      their concatenation: the selection keeps listing order. */
  lemma {:induction false} SelectAppend(a: seq<ListedObject>, b: seq<ListedObject>, p: string -> bool)
    ensures Select(a + b, p) == Select(a, p) + Select(b, p)
    decreases |b|
  {
    if b == [] {
      assert a + b == a;
    } else {
      var c := a + b;
      assert c[..|c| - 1] == a + b[..|b| - 1];
      assert c[|c| - 1] == b[|b| - 1];
      SelectAppend(a, b[..|b| - 1], p);
    }
  }

  /** Exactly the listed objects whose key satisfies `p` are selected. */
  lemma {:induction false} SelectMembers(files: seq<ListedObject>, p: string -> bool)
    ensures forall f :: f in Select(files, p) <==> f in files && p(f.key)
    decreases |files|
  {
    if files != [] {
      var last := files[|files| - 1];
      assert files == files[..|files| - 1] + [last];
      SelectMembers(files[..|files| - 1], p);
    }
  }

  /** The most keys one list_objects call returns. */
  const MaxKeys := 1000

  /** What one list_objects call returns of the objects under a prefix,
      given in key order: the first MaxKeys of them. */
  function Page(objects: seq<ListedObject>): (r: seq<ListedObject>)
    ensures r <= objects
    ensures |r| == if |objects| <= MaxKeys then |objects| else MaxKeys
  {
    if |objects| <= MaxKeys then objects else objects[..MaxKeys]
  }

  /** Some listed key satisfies `p`. */
  predicate Any(files: seq<ListedObject>, p: string -> bool)
  {
    exists i | 0 <= i < |files| :: p(files[i].key)
  }

  /** Some key of a listing satisfies `p` iff one before the last does or
      the last does. */
  lemma AnyExtend(files: seq<ListedObject>, p: string -> bool)
    requires files != []
    ensures Any(files, p) <==> Any(files[..|files| - 1], p) || p(files[|files| - 1].key)
  {
    var init := files[..|files| - 1];
    if Any(files, p) {
      var i :| 0 <= i < |files| && p(files[i].key);
      if i < |init| {
        assert files[i] == init[i];
      }
    }
    if Any(init, p) {
      var i :| 0 <= i < |init| && p(init[i].key);
      assert files[i] == init[i];
    }
  }
}
