/** What a reconcile of a Path does when no call fails, and what its deletion may do when some do. */
module PathPlan {
  import opened Collections
  import opened Model
  import opened Effects
  import opened ControllerHelper
  import opened S3InstanceHelper
  import opened Markers

  predicate HasPath(w: World, id: Id) {
    id in w.resources && w.resources[id].spec.PathSpec?
  }

  function HandleReconciliationPlan(w: World, id: Id, r: Resource, cfg: Config): Plan
    requires r.spec.PathSpec?
  {
    match ClientFor(w, id.namespace, r.spec.s3InstanceRef)
    case Panicked => Plan([], Errored)
    case Unavailable(e) => Report(id, r, Unreachable, ClientSite, Some(e), cfg.reconcilePeriod)
    case Client(_) =>
      if r.spec.bucket !in w.buckets then
        Report(id, r, CreationFailure, MissingBucketSite, None, cfg.reconcilePeriod)
      else
        After(MissingCalls(w, r.spec.bucket, r.spec.paths),
              Report(id, r, Reconciled, Success, None, cfg.reconcilePeriod))
  }

  // ---------- deletion ----------

  /** What happens to one path: its check fails, it is not there, it is removed, or its removal fails. */
  datatype PathOutcome = CheckFailed | Absent | Removed | RemoveFailed(applied: bool) {
    predicate Failed() {
      CheckFailed? || RemoveFailed?
    }

    predicate Applied() {
      Removed? || (RemoveFailed? && applied)
    }
  }

  /** The removals that took effect, in order. */
  function RemovedCalls(bucket: string, paths: seq<string>, seen: seq<PathOutcome>): seq<Action>
    requires |seen| == |paths|
    decreases |paths|
  {
    if paths == [] then []
    else
      var n := |paths| - 1;
      RemovedCalls(bucket, paths[..n], seen[..n]) + if seen[n].Applied() then [DeletePath(bucket, paths[n])] else []
  }

  /** The paths found to exist whose removal failed, in order. */
  function FailedPaths(paths: seq<string>, seen: seq<PathOutcome>): seq<string>
    requires |seen| == |paths|
    decreases |paths|
  {
    if paths == [] then []
    else
      var n := |paths| - 1;
      FailedPaths(paths[..n], seen[..n]) + if seen[n].RemoveFailed? then [paths[n]] else []
  }

  /** The outcomes fit the world: a path that answered was found exactly if its marker was there at that moment. */
  ghost predicate Observed(w: World, bucket: string, paths: seq<string>, seen: seq<PathOutcome>)
    requires |seen| == |paths|
    decreases |paths|
  {
    paths == [] ||
    var n := |paths| - 1;
    && Observed(w, bucket, paths[..n], seen[..n])
    && (seen[n].CheckFailed? ||
        (seen[n].Absent? <==> !HasMarker(Exec(w, RemovedCalls(bucket, paths[..n], seen[..n])), bucket, paths[n])))
  }

  /** The removals of a deletion in which no call fails. */
  function PresentCalls(w: World, bucket: string, paths: seq<string>): seq<Action>
    decreases |paths|
  {
    if paths == [] then []
    else
      var n := |paths| - 1;
      var before := PresentCalls(w, bucket, paths[..n]);
      before + if HasMarker(Exec(w, before), bucket, paths[n]) then [DeletePath(bucket, paths[n])] else []
  }

  function HandleDeletionPlan(w: World, id: Id, r: Resource, cfg: Config): Plan
    requires r.spec.PathSpec?
  {
    if Operator !in r.finalizers then Plan([], Finished(0))
    else
      match ClientFor(w, id.namespace, r.spec.s3InstanceRef)
      case Panicked => Plan([], Errored)
      case Unavailable(e) => Report(id, r, DeletionFailure, FinalizeSite, Some(e), cfg.reconcilePeriod)
      case Client(instance) =>
        Plan(
          (if instance.pathDeletionEnabled then PresentCalls(w, r.spec.bucket, r.spec.paths) else [])
          + [RemoveFinalizer(id)],
          Finished(0))
  }

  /** What ends a deletion: nothing, a report of a failure, or the finalizer's removal if no path failed. */
  ghost predicate TeardownTail(tail: seq<Action>, id: Id, failed: seq<string>) {
    || tail == []
    || (|tail| == 1 && ReportsFailure(tail[0], id, {DeletionFailure}))
    || (tail == [RemoveFinalizer(id)] && failed == [])
  }

  /** A deletion under any failures: removals as the outcomes say, over all paths or none, then its end. */
  ghost predicate TornDown(w: World, id: Id, r: Resource, done: seq<Action>, seen: seq<PathOutcome>)
    requires r.spec.PathSpec?
  {
    var enabled :=
      match ClientFor(w, id.namespace, r.spec.s3InstanceRef)
      case Client(instance) => instance.pathDeletionEnabled
      case _ => false;
    var visited := if seen == [] then [] else r.spec.paths;
    && |seen| == |visited|
    && (seen != [] ==> enabled)
    && Observed(w, r.spec.bucket, visited, seen)
    && var removed := RemovedCalls(r.spec.bucket, visited, seen);
       && removed <= done
       && TeardownTail(done[|removed|..], id, FailedPaths(visited, seen))
       && (RemoveFinalizer(id) in done[|removed|..] ==>
             ClientFor(w, id.namespace, r.spec.s3InstanceRef).Client? && (enabled ==> |seen| == |r.spec.paths|))
  }

  function ReconcilePlan(w: World, id: Id, cfg: Config): Plan {
    if !HasPath(w, id) then Plan([], Finished(0))
    else
      var r := w.resources[id];
      var v := WithResource(w, id, Started(r));
      Opening(
        id, r,
        if r.deleting then HandleDeletionPlan(v, id, Started(r), cfg)
        else HandleReconciliationPlan(v, id, Started(r), cfg))
  }

  // ---------- facts about removals ----------

  /** Without failures the removals are those of the plan. */
  lemma {:induction false} NoFailureIsPresent(w: World, bucket: string, paths: seq<string>, seen: seq<PathOutcome>)
    requires |seen| == |paths| && Observed(w, bucket, paths, seen)
    requires forall i :: 0 <= i < |seen| ==> !seen[i].Failed()
    ensures RemovedCalls(bucket, paths, seen) == PresentCalls(w, bucket, paths)
    ensures FailedPaths(paths, seen) == []
    decreases |paths|
  {
    if paths != [] {
      var n := |paths| - 1;
      NoFailureIsPresent(w, bucket, paths[..n], seen[..n]);
    }
  }

  lemma MarkersSnoc(paths: seq<string>)
    requires paths != []
    ensures MarkersOf(paths) == MarkersOf(paths[..|paths| - 1]) + {Marker(paths[|paths| - 1])}
  {
    assert paths == paths[..|paths| - 1] + [paths[|paths| - 1]];
  }

  /** Removals under failures take away some of the paths' markers, all whose check answered if no removal failed. */
  lemma {:induction false} RemovedEffect(w: World, bucket: string, paths: seq<string>, seen: seq<PathOutcome>)
    returns (gone: set<string>)
    requires bucket in w.buckets && |seen| == |paths| && Observed(w, bucket, paths, seen)
    ensures gone <= MarkersOf(paths)
    ensures Exec(w, RemovedCalls(bucket, paths, seen)) == WithObjects(w, bucket, w.buckets[bucket].objects - gone)
    ensures forall i :: 0 <= i < |paths| && (seen[i].Absent? || seen[i].Applied()) ==>
      Marker(paths[i]) !in w.buckets[bucket].objects - gone
    decreases |paths|
  {
    var objects := w.buckets[bucket].objects;
    if paths == [] {
      gone := {};
      assert objects - gone == objects;
      WithSameObjects(w, bucket);
    } else {
      var n := |paths| - 1;
      gone := RemovedEffect(w, bucket, paths[..n], seen[..n]);
      MarkersSnoc(paths);
      var before := RemovedCalls(bucket, paths[..n], seen[..n]);
      var v := Exec(w, before);
      forall i | 0 <= i < n && (seen[i].Absent? || seen[i].Applied())
        ensures Marker(paths[i]) !in objects - gone
      {
        assert paths[..n][i] == paths[i] && seen[..n][i] == seen[i];
      }
      if seen[n].Applied() {
        ExecSnoc(w, before, DeletePath(bucket, paths[n]));
        DeletePathEffect(v, bucket, paths[n]);
        WithObjectsTwice(w, bucket, objects - gone, objects - (gone + {Marker(paths[n])}));
        assert objects - gone - {Marker(paths[n])} == objects - (gone + {Marker(paths[n])});
        gone := gone + {Marker(paths[n])};
      } else {
        assert before + [] == before;
      }
    }
  }

  /** No listing of the object among the first paths was looked up and found absent, or removed. */
  predicate Spared(o: string, paths: seq<string>, seen: seq<PathOutcome>)
    requires |seen| == |paths|
  {
    forall i :: 0 <= i < |paths| && Marker(paths[i]) == o ==>
      seen[i].CheckFailed? || (seen[i].RemoveFailed? && !seen[i].applied)
  }

  /** The objects left by removals under failures. */
  ghost function Left(objects: set<string>, paths: seq<string>, seen: seq<PathOutcome>): set<string>
    requires |seen| == |paths|
  {
    set o | o in objects && Spared(o, paths, seen)
  }

  lemma SparedSnoc(o: string, paths: seq<string>, seen: seq<PathOutcome>)
    requires |seen| == |paths| > 0
    ensures
      var n := |paths| - 1;
      Spared(o, paths, seen) <==>
        && Spared(o, paths[..n], seen[..n])
        && (Marker(paths[n]) == o ==> seen[n].CheckFailed? || (seen[n].RemoveFailed? && !seen[n].applied))
  {
    var n := |paths| - 1;
    assert forall i :: 0 <= i < n ==> paths[..n][i] == paths[i] && seen[..n][i] == seen[i];
  }

  lemma LeftSnoc(objects: set<string>, paths: seq<string>, seen: seq<PathOutcome>)
    requires |seen| == |paths| > 0
    ensures
      var n := |paths| - 1;
      Left(objects, paths, seen) == Left(objects, paths[..n], seen[..n]) -
        if seen[n].CheckFailed? || (seen[n].RemoveFailed? && !seen[n].applied) then {} else {Marker(paths[n])}
  {
    forall o ensures o in Left(objects, paths, seen) <==> o in objects && Spared(o, paths, seen) {}
    forall o | o in objects { SparedSnoc(o, paths, seen); }
  }

  /** Exactly what removals under failures leave: the objects that were there and whose every listing was spared. */
  lemma {:induction false} RemovedExactly(w: World, bucket: string, paths: seq<string>, seen: seq<PathOutcome>)
    requires bucket in w.buckets && |seen| == |paths| && Observed(w, bucket, paths, seen)
    ensures Exec(w, RemovedCalls(bucket, paths, seen))
         == WithObjects(w, bucket, Left(w.buckets[bucket].objects, paths, seen))
    decreases |paths|
  {
    var objects := w.buckets[bucket].objects;
    if paths == [] {
      assert Left(objects, paths, seen) == objects;
      WithSameObjects(w, bucket);
    } else {
      var n := |paths| - 1;
      RemovedExactly(w, bucket, paths[..n], seen[..n]);
      LeftSnoc(objects, paths, seen);
      var before := RemovedCalls(bucket, paths[..n], seen[..n]);
      var left := Left(objects, paths[..n], seen[..n]);
      var v := Exec(w, before);
      if seen[n].Applied() {
        ExecSnoc(w, before, DeletePath(bucket, paths[n]));
        DeletePathEffect(v, bucket, paths[n]);
        WithObjectsTwice(w, bucket, left, left - {Marker(paths[n])});
      } else {
        assert before + [] == before;
        assert Left(objects, paths, seen) == left;
      }
    }
  }

  /** A deletion without failures takes away exactly the paths' markers. */
  lemma {:induction false} PresentEffect(w: World, bucket: string, paths: seq<string>)
    requires bucket in w.buckets
    ensures Exec(w, PresentCalls(w, bucket, paths))
         == WithObjects(w, bucket, w.buckets[bucket].objects - MarkersOf(paths))
    decreases |paths|
  {
    var objects := w.buckets[bucket].objects;
    if paths == [] {
      assert objects - MarkersOf(paths) == objects;
      WithSameObjects(w, bucket);
    } else {
      var n := |paths| - 1;
      var before := PresentCalls(w, bucket, paths[..n]);
      var v := Exec(w, before);
      PresentEffect(w, bucket, paths[..n]);
      MarkersSnoc(paths);
      assert objects - MarkersOf(paths[..n]) - {Marker(paths[n])} == objects - MarkersOf(paths);
      if HasMarker(v, bucket, paths[n]) {
        ExecSnoc(w, before, DeletePath(bucket, paths[n]));
        DeletePathEffect(v, bucket, paths[n]);
        WithObjectsTwice(w, bucket, objects - MarkersOf(paths[..n]), objects - MarkersOf(paths));
      } else {
        assert before + [] == before;
        assert objects - MarkersOf(paths[..n]) == objects - MarkersOf(paths);
      }
    }
  }

  /** Without the bucket nothing is found and nothing removed. */
  lemma {:induction false} NoBucketNoRemovals(w: World, bucket: string, paths: seq<string>, seen: seq<PathOutcome>)
    requires bucket !in w.buckets && |seen| == |paths| && Observed(w, bucket, paths, seen)
    ensures RemovedCalls(bucket, paths, seen) == [] && PresentCalls(w, bucket, paths) == []
    decreases |paths|
  {
    if paths != [] {
      var n := |paths| - 1;
      NoBucketNoRemovals(w, bucket, paths[..n], seen[..n]);
    }
  }
}
