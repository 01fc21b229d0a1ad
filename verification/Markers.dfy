/** Path markers: the objects that stand for the paths of Bucket and Path resources. */
module Markers {
  import opened Collections
  import opened Model
  import opened Effects
  import opened Api

  /** The markers of a list of paths. */
  function MarkersOf(paths: seq<string>): set<string> {
    set p | p in paths :: Marker(p)
  }

  /** Paths that do not begin with a slash have the markers one expects. */
  lemma MarkersAreKeeps(paths: seq<string>)
    ensures forall p :: p in paths && p != "" && p[0] != '/' ==> p + "/.keep" in MarkersOf(paths)
  {
    forall p | p in paths && p != "" && p[0] != '/' ensures p + "/.keep" in MarkersOf(paths) {
      MarkerExactly(p, p);
      assert Marker(p) in MarkersOf(paths);
    }
  }

  predicate HasMarker(w: World, bucket: string, path: string) {
    bucket in w.buckets && Marker(path) in w.buckets[bucket].objects
  }

  /** Create what is missing, path by path; a path listed twice is found the second time. */
  function MissingCalls(w: World, bucket: string, paths: seq<string>): seq<Action>
    decreases |paths|
  {
    if paths == [] then []
    else if HasMarker(w, bucket, paths[0]) then MissingCalls(w, bucket, paths[1..])
    else
      var call := CreatePath(bucket, paths[0]);
      [call] + MissingCalls(Apply(w, call), bucket, paths[1..])
  }

  /** Create every path, present or not. */
  function CreateCalls(bucket: string, paths: seq<string>): seq<Action> {
    seq(|paths|, i requires 0 <= i < |paths| => CreatePath(bucket, paths[i]))
  }

  function WithObjects(w: World, bucket: string, objects: set<string>): World
    requires bucket in w.buckets
  {
    w.(buckets := w.buckets[bucket := w.buckets[bucket].(objects := objects)])
  }

  lemma WithSameObjects(w: World, bucket: string)
    requires bucket in w.buckets
    ensures WithObjects(w, bucket, w.buckets[bucket].objects) == w
  {
    assert w.buckets[bucket := w.buckets[bucket].(objects := w.buckets[bucket].objects)] == w.buckets;
  }

  lemma WithObjectsTwice(w: World, bucket: string, a: set<string>, b: set<string>)
    requires bucket in w.buckets
    ensures WithObjects(WithObjects(w, bucket, a), bucket, b) == WithObjects(w, bucket, b)
  {
    var v := WithObjects(w, bucket, a);
    assert v.buckets[bucket := v.buckets[bucket].(objects := b)]
        == w.buckets[bucket := w.buckets[bucket].(objects := b)];
  }

  lemma CreatePathEffect(w: World, bucket: string, path: string)
    requires bucket in w.buckets
    ensures Apply(w, CreatePath(bucket, path)) == WithObjects(w, bucket, w.buckets[bucket].objects + {Marker(path)})
  {
    MarkerKeysAgree(path);
  }

  lemma DeletePathEffect(w: World, bucket: string, path: string)
    requires bucket in w.buckets
    ensures Apply(w, DeletePath(bucket, path)) == WithObjects(w, bucket, w.buckets[bucket].objects - {Marker(path)})
  {
    MarkerKeysAgree(path);
  }

  /** Creating what is missing adds exactly the markers of the paths: nothing is removed, nothing else added. */
  lemma {:induction false} MissingCallsEffect(w: World, bucket: string, paths: seq<string>)
    requires bucket in w.buckets
    ensures Exec(w, MissingCalls(w, bucket, paths))
         == WithObjects(w, bucket, w.buckets[bucket].objects + MarkersOf(paths))
    decreases |paths|
  {
    var objects := w.buckets[bucket].objects;
    if paths == [] {
      assert objects + MarkersOf(paths) == objects;
      WithSameObjects(w, bucket);
    } else {
      assert paths == [paths[0]] + paths[1..];
      assert MarkersOf(paths) == {Marker(paths[0])} + MarkersOf(paths[1..]);
      if HasMarker(w, bucket, paths[0]) {
        MissingCallsEffect(w, bucket, paths[1..]);
        assert objects + MarkersOf(paths) == objects + MarkersOf(paths[1..]);
      } else {
        var call := CreatePath(bucket, paths[0]);
        var v := Apply(w, call);
        CreatePathEffect(w, bucket, paths[0]);
        MissingCallsEffect(v, bucket, paths[1..]);
        ExecCons(w, call, MissingCalls(v, bucket, paths[1..]));
        WithObjectsTwice(w, bucket, objects + {Marker(paths[0])}, objects + MarkersOf(paths));
        assert objects + {Marker(paths[0])} + MarkersOf(paths[1..]) == objects + MarkersOf(paths);
      }
    }
  }

  /** Nothing is missing: nothing is created. */
  lemma {:induction false} NothingMissing(w: World, bucket: string, paths: seq<string>)
    requires bucket in w.buckets && MarkersOf(paths) <= w.buckets[bucket].objects
    ensures MissingCalls(w, bucket, paths) == []
    decreases |paths|
  {
    if paths != [] {
      assert Marker(paths[0]) in MarkersOf(paths);
      assert MarkersOf(paths[1..]) <= MarkersOf(paths);
      NothingMissing(w, bucket, paths[1..]);
    }
  }

  lemma {:induction false} CreateCallsEffect(w: World, bucket: string, paths: seq<string>)
    requires bucket in w.buckets
    ensures Exec(w, CreateCalls(bucket, paths))
         == WithObjects(w, bucket, w.buckets[bucket].objects + MarkersOf(paths))
    decreases |paths|
  {
    var objects := w.buckets[bucket].objects;
    if paths == [] {
      assert objects + MarkersOf(paths) == objects;
      WithSameObjects(w, bucket);
    } else {
      var call := CreatePath(bucket, paths[0]);
      var v := Apply(w, call);
      assert paths == [paths[0]] + paths[1..];
      assert MarkersOf(paths) == {Marker(paths[0])} + MarkersOf(paths[1..]);
      CreatePathEffect(w, bucket, paths[0]);
      CreateCallsEffect(v, bucket, paths[1..]);
      assert CreateCalls(bucket, paths) == [call] + CreateCalls(bucket, paths[1..]);
      ExecCons(w, call, CreateCalls(bucket, paths[1..]));
      WithObjectsTwice(w, bucket, objects + {Marker(paths[0])}, objects + MarkersOf(paths));
      assert objects + {Marker(paths[0])} + MarkersOf(paths[1..]) == objects + MarkersOf(paths);
    }
  }

  // ---------- the loops ----------

  lemma {:induction false} MissingCallsSplit(w: World, bucket: string, a: seq<string>, b: seq<string>)
    ensures MissingCalls(w, bucket, a + b)
         == MissingCalls(w, bucket, a) + MissingCalls(Exec(w, MissingCalls(w, bucket, a)), bucket, b)
    decreases |a|
  {
    if a == [] {
      assert a + b == b;
    } else {
      assert (a + b)[1..] == a[1..] + b;
      if HasMarker(w, bucket, a[0]) {
        MissingCallsSplit(w, bucket, a[1..], b);
      } else {
        var call := CreatePath(bucket, a[0]);
        var v := Apply(w, call);
        MissingCallsSplit(v, bucket, a[1..], b);
        ExecCons(w, call, MissingCalls(v, bucket, a[1..]));
      }
    }
  }

  /** One more path: what was created so far, then that path if it is missing. */
  lemma MissingStep(w: World, bucket: string, paths: seq<string>, i: nat)
    requires i < |paths|
    ensures
      var v := Exec(w, MissingCalls(w, bucket, paths[..i]));
      && MissingCalls(w, bucket, paths[..i + 1])
           == MissingCalls(w, bucket, paths[..i])
            + (if HasMarker(v, bucket, paths[i]) then [] else [CreatePath(bucket, paths[i])])
      && MissingCalls(w, bucket, paths[..i + 1]) <= MissingCalls(w, bucket, paths)
  {
    assert paths[..i + 1] == paths[..i] + [paths[i]];
    assert paths == paths[..i + 1] + paths[i + 1..];
    MissingCallsSplit(w, bucket, paths[..i], [paths[i]]);
    MissingCallsSplit(w, bucket, paths[..i + 1], paths[i + 1..]);
  }

  /** One path: it is looked up, and created if it is not there. */
  method CreateIfMissing(api: Cluster, bucket: string, path: string) returns (e: Option<Error>)
    requires api.Valid() && bucket in api.w.buckets
    modifies api`w, api`log, api`faults
    ensures api.Valid() && api.w.resources == old(api.w).resources && bucket in api.w.buckets
    ensures api.Made(
      old(api.log), old(api.faults), if HasMarker(old(api.w), bucket, path) then [] else [CreatePath(bucket, path)], e)
  {
    e := api.Ask();
    if e.None? && !HasMarker(api.w, bucket, path) {
      e := api.Do(CreatePath(bucket, path));
    }
  }

  method CreateMissingPaths(api: Cluster, bucket: string, paths: seq<string>) returns (e: Option<Error>)
    requires api.Valid() && bucket in api.w.buckets
    modifies api`w, api`log, api`faults
    ensures api.Valid() && api.w.resources == old(api.w).resources
    ensures api.Made(old(api.log), old(api.faults), MissingCalls(old(api.w), bucket, paths), e)
  {
    ghost var w0, log0, faults0 := api.w, api.log, api.faults;
    e := None;
    for i := 0 to |paths|
      invariant e.None? && api.Valid() && api.w.resources == w0.resources && bucket in api.w.buckets
      invariant api.log == log0 + MissingCalls(w0, bucket, paths[..i]) && api.faults == faults0
      invariant api.w == Exec(w0, MissingCalls(w0, bucket, paths[..i]))
    {
      MissingStep(w0, bucket, paths, i);
      ghost var made, log1 := MissingCalls(w0, bucket, paths[..i]), api.log;
      ghost var next := if HasMarker(api.w, bucket, paths[i]) then [] else [CreatePath(bucket, paths[i])];
      e := CreateIfMissing(api, bucket, paths[i]);
      api.MadeThen(log0, made, faults0, next, e);
      if e.Some? {
        api.MadePrefix(log0, made + next, MissingCalls(w0, bucket, paths), faults0, e);
        return;
      }
      ExecAppend(w0, made, next);
      ExecAppend(api.start, log1, next);
    }
    assert paths[..|paths|] == paths;
  }

  method CreatePaths(api: Cluster, bucket: string, paths: seq<string>) returns (e: Option<Error>)
    requires api.Valid() && bucket in api.w.buckets
    modifies api`w, api`log, api`faults
    ensures api.Valid() && api.w.resources == old(api.w).resources
    ensures api.Made(old(api.log), old(api.faults), CreateCalls(bucket, paths), e)
  {
    ghost var w0, log0, faults0 := api.w, api.log, api.faults;
    e := None;
    for i := 0 to |paths|
      invariant e.None? && api.Valid() && api.w.resources == w0.resources && bucket in api.w.buckets
      invariant api.log == log0 + CreateCalls(bucket, paths)[..i] && api.faults == faults0
    {
      e := api.Do(CreatePath(bucket, paths[i]));
      if e.Some? {
        assert api.log[|log0|..] == CreateCalls(bucket, paths)[..i]
            || api.log[|log0|..] == CreateCalls(bucket, paths)[..i + 1];
        return;
      }
    }
    assert CreateCalls(bucket, paths)[..|paths|] == CreateCalls(bucket, paths);
  }
}
