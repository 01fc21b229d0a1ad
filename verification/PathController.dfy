/** The Path controller, call by call. */
module PathController {
  import opened Collections
  import opened Model
  import opened Effects
  import opened Api
  import opened ControllerHelper
  import opened S3InstanceHelper
  import opened Markers
  import opened PathPlan
  import ObjectDeletion

  predicate Current(w: World, id: Id, r: Resource) {
    id in w.resources && w.resources[id] == r && r.spec.PathSpec?
  }

  /** One more path: the outcomes so far and the new one. */
  lemma SeenSnoc(w: World, bucket: string, paths: seq<string>, i: nat, seen: seq<PathOutcome>, o: PathOutcome)
    requires i < |paths| && |seen| == i && Observed(w, bucket, paths[..i], seen)
    requires var v := Exec(w, RemovedCalls(bucket, paths[..i], seen));
             o.CheckFailed? || (o.Absent? <==> !HasMarker(v, bucket, paths[i]))
    ensures Observed(w, bucket, paths[..i + 1], seen + [o])
    ensures RemovedCalls(bucket, paths[..i + 1], seen + [o])
         == RemovedCalls(bucket, paths[..i], seen) + if o.Applied() then [DeletePath(bucket, paths[i])] else []
    ensures FailedPaths(paths[..i + 1], seen + [o])
         == FailedPaths(paths[..i], seen) + if o.RemoveFailed? then [paths[i]] else []
  {
    assert paths[..i + 1][..i] == paths[..i] && (seen + [o])[..i] == seen;
  }

  ghost predicate AnyFailed(seen: seq<PathOutcome>) {
    exists i :: 0 <= i < |seen| && seen[i].Failed()
  }

  lemma AnyFailedSnoc(seen: seq<PathOutcome>, o: PathOutcome)
    ensures AnyFailed(seen + [o]) <==> AnyFailed(seen) || o.Failed()
  {
    var all := seen + [o];
    assert all[|seen|] == o;
    if AnyFailed(seen) {
      var i :| 0 <= i < |seen| && seen[i].Failed();
      assert all[i] == seen[i];
    }
    if AnyFailed(all) {
      var i :| 0 <= i < |all| && all[i].Failed();
      assert i < |seen| ==> seen[i] == all[i];
    }
  }

  class PathReconciler {
    const api: Cluster
    const cfg: Config

    constructor (api: Cluster, cfg: Config)
      ensures this.api == api && this.cfg == cfg
    {
      this.api := api;
      this.cfg := cfg;
    }

    method HandleReconciliation(id: Id, r: Resource) returns (out: Outcome)
      requires api.Valid() && Current(api.w, id, r)
      modifies api`w, api`log, api`faults
      ensures api.Valid()
      ensures api.Ran(
        old(api.log), old(api.faults), HandleReconciliationPlan(old(api.w), id, r, cfg), id, {Unreachable}, out)
    {
      ghost var w0, log0, faults0 := api.w, api.log, api.faults;
      ghost var p := HandleReconciliationPlan(w0, id, r, cfg);
      var client := GetS3ClientForRessource(api, id.namespace, r.spec.s3InstanceRef);
      if client.Panicked? {
        return Errored;
      }
      if client.Unavailable? {
        out := ReportUnavailable(api, cfg.reconcilePeriod, id, r, client.error, log0, faults0, p, {Unreachable});
        return;
      }
      out := CreateMissing(id, r);
    }

    /** The part of HandleReconciliation that has a client. */
    method CreateMissing(id: Id, r: Resource) returns (out: Outcome)
      requires api.Valid() && Current(api.w, id, r)
      requires ClientFor(api.w, id.namespace, r.spec.s3InstanceRef).Client?
      modifies api`w, api`log, api`faults
      ensures api.Valid()
      ensures api.Ran(
        old(api.log), old(api.faults), HandleReconciliationPlan(old(api.w), id, r, cfg), id, {Unreachable}, out)
    {
      ghost var w0, log0, faults0 := api.w, api.log, api.faults;
      ghost var p := HandleReconciliationPlan(w0, id, r, cfg);
      var e := api.Ask();
      if e.Some? {
        out := Fail(api, cfg.reconcilePeriod, id, r, Unreachable, ExistenceSite, e.value,
                    log0, [], faults0, p, {Unreachable});
        return;
      }
      if r.spec.bucket !in api.w.buckets {
        // The error passed on is nil here.
        out := SetReconciledCondition(api, id, r, CreationFailure, MissingBucketSite, None, cfg.reconcilePeriod);
        return;
      }
      ghost var calls := MissingCalls(w0, r.spec.bucket, r.spec.paths);
      e := CreateMissingPaths(api, r.spec.bucket, r.spec.paths);
      if e.Some? {
        out := Fail(api, cfg.reconcilePeriod, id, r, Unreachable, PathSite, e.value,
                    log0, api.log[|log0|..], faults0, p, {Unreachable});
        return;
      }
      out := SetReconciledCondition(api, id, r, Reconciled, Success, None, cfg.reconcilePeriod);
      api.RanAfter(log0, calls, faults0, Report(id, r, Reconciled, Success, None, cfg.reconcilePeriod),
                   id, {}, out);
    }

    /** Check one path and remove its marker if it is there. A failed check skips the path. */
    method RemovePath(bucket: string, path: string) returns (failed: bool, ghost o: PathOutcome)
      requires api.Valid()
      modifies api`w, api`log, api`faults
      ensures api.Valid() && api.w.resources == old(api.w).resources && old(api.faults) <= api.faults
      ensures failed == o.RemoveFailed?
      ensures api.faults > old(api.faults) <==> o.Failed()
      ensures o.CheckFailed? || (o.Absent? <==> !HasMarker(old(api.w), bucket, path))
      ensures api.log == old(api.log) + if o.Applied() then [DeletePath(bucket, path)] else []
    {
      failed := false;
      var pathExists := false;
      var e := api.Ask();
      o := CheckFailed;
      if e.None? {
        pathExists := HasMarker(api.w, bucket, path);
        o := if pathExists then Removed else Absent;
      }
      if pathExists {
        ghost var log0 := api.log;
        e := api.Do(DeletePath(bucket, path));
        if e.Some? {
          failed := true;
          o := RemoveFailed(api.log != log0);
        }
      }
    }

    /** One turn of the loop over the paths. */
    method RemoveNext(
      bucket: string, paths: seq<string>, i: nat, ghost w0: World, ghost log0: seq<Action>, ghost faults0: nat,
      ghost seen0: seq<PathOutcome>) returns (failed: bool, ghost seen: seq<PathOutcome>)
      requires api.Valid() && i < |paths| && |seen0| == i && faults0 <= api.faults
      requires Observed(w0, bucket, paths[..i], seen0) && w0 == Exec(api.start, log0)
      requires api.log == log0 + RemovedCalls(bucket, paths[..i], seen0)
      requires api.w == Exec(w0, RemovedCalls(bucket, paths[..i], seen0))
      requires api.faults > faults0 <==> AnyFailed(seen0)
      modifies api`w, api`log, api`faults
      ensures api.Valid() && api.w.resources == old(api.w).resources && faults0 <= api.faults
      ensures |seen| == i + 1 && Observed(w0, bucket, paths[..i + 1], seen)
      ensures api.log == log0 + RemovedCalls(bucket, paths[..i + 1], seen)
      ensures api.w == Exec(w0, RemovedCalls(bucket, paths[..i + 1], seen))
      ensures FailedPaths(paths[..i + 1], seen)
           == FailedPaths(paths[..i], seen0) + if failed then [paths[i]] else []
      ensures api.faults > faults0 <==> AnyFailed(seen)
    {
      ghost var o: PathOutcome;
      failed, o := RemovePath(bucket, paths[i]);
      SeenSnoc(w0, bucket, paths, i, seen0, o);
      AnyFailedSnoc(seen0, o);
      seen := seen0 + [o];
      ghost var all := RemovedCalls(bucket, paths[..i + 1], seen);
      assert api.log == log0 + all;
      ExecAppend(api.start, log0, all);
    }

    /** Remove every marker of the spec that is there, and collect the paths for which that failed. */
    method RemovePaths(bucket: string, paths: seq<string>)
      returns (failedPaths: seq<string>, ghost seen: seq<PathOutcome>)
      requires api.Valid()
      modifies api`w, api`log, api`faults
      ensures api.Valid() && api.w.resources == old(api.w).resources && old(api.faults) <= api.faults
      ensures |seen| == |paths| && Observed(old(api.w), bucket, paths, seen)
      ensures api.log == old(api.log) + RemovedCalls(bucket, paths, seen)
      ensures failedPaths == FailedPaths(paths, seen)
      ensures api.faults > old(api.faults) <==> AnyFailed(seen)
    {
      ghost var w0, log0, faults0 := api.w, api.log, api.faults;
      failedPaths, seen := [], [];
      for i := 0 to |paths|
        invariant api.Valid() && api.w.resources == w0.resources && faults0 <= api.faults
        invariant |seen| == i && Observed(w0, bucket, paths[..i], seen)
        invariant api.log == log0 + RemovedCalls(bucket, paths[..i], seen)
        invariant api.w == Exec(w0, RemovedCalls(bucket, paths[..i], seen))
        invariant failedPaths == FailedPaths(paths[..i], seen)
        invariant api.faults > faults0 <==> AnyFailed(seen)
      {
        var failed;
        failed, seen := RemoveNext(bucket, paths, i, w0, log0, faults0, seen);
        if failed {
          failedPaths := failedPaths + [paths[i]];
        }
      }
      assert paths[..|paths|] == paths;
    }

    method FinalizePath(id: Id, r: Resource)
      returns (e: Option<Error>, panicked: bool, ghost seen: seq<PathOutcome>)
      requires api.Valid() && Current(api.w, id, r)
      modifies api`w, api`log, api`faults
      ensures api.Valid() && api.w.resources == old(api.w).resources && old(api.faults) <= api.faults
      ensures
        var visited := if seen == [] then [] else r.spec.paths;
        && |seen| == |visited| && Observed(old(api.w), r.spec.bucket, visited, seen)
        && api.log == old(api.log) + RemovedCalls(r.spec.bucket, visited, seen)
        && (e.None? && !panicked ==> FailedPaths(visited, seen) == [])
        && (api.faults == old(api.faults) ==> !AnyFailed(seen))
      ensures
        var client := ClientFor(old(api.w), id.namespace, r.spec.s3InstanceRef);
        && (seen != [] ==> client.Client? && client.instance.pathDeletionEnabled)
        && (e.None? && !panicked ==>
              client.Client? && (client.instance.pathDeletionEnabled ==> |seen| == |r.spec.paths|))
        && (panicked ==> client.Panicked? && api.faults == old(api.faults))
        && (api.faults == old(api.faults) ==>
              panicked == client.Panicked? && e == if client.Unavailable? then Some(client.error) else None)
    {
      e, panicked, seen := None, false, [];
      var client := GetS3ClientForRessource(api, id.namespace, r.spec.s3InstanceRef);
      match client {
        case Panicked =>
          panicked := true;
        case Unavailable(error) =>
          e := Some(error);
        case Client(instance) =>
          if instance.pathDeletionEnabled {
            var failedPaths;
            failedPaths, seen := RemovePaths(r.spec.bucket, r.spec.paths);
            NoFailureNoFailedPaths(r.spec.paths, seen);
            if |failedPaths| > 0 {
              e := Some(PathsLeft);
            }
          }
      }
    }

    /** The end of a deletion: a failure is reported, otherwise the finalizer goes. */
    method EndDeletion(id: Id, r: Resource, e0: Option<Error>, panicked: bool, ghost failed: seq<string>)
      returns (out: Outcome, ghost tail: seq<Action>)
      requires api.Valid() && Current(api.w, id, r) && Operator in r.finalizers
      requires e0.None? && !panicked ==> failed == []
      modifies api`w, api`log, api`faults
      ensures api.Valid() && old(api.faults) <= api.faults && api.log == old(api.log) + tail
      ensures TeardownTail(tail, id, failed) && (RemoveFinalizer(id) in tail ==> e0.None? && !panicked)
      ensures api.faults == old(api.faults) ==>
        var p := if panicked then Plan([], Errored)
                 else if e0.Some? then Report(id, r, DeletionFailure, FinalizeSite, e0, cfg.reconcilePeriod)
                 else Plan([RemoveFinalizer(id)], Finished(0));
        tail == p.actions && out == p.outcome
    {
      ghost var log0 := api.log;
      if panicked {
        return Errored, [];
      }
      if e0.Some? {
        out := SetReconciledCondition(api, id, r, DeletionFailure, FinalizeSite, e0, cfg.reconcilePeriod);
        tail := api.log[|log0|..];
      } else {
        var e := api.Do(RemoveFinalizer(id));
        tail := api.log[|log0|..];
        assert tail == [] || tail == [RemoveFinalizer(id)];
        out := if e.Some? then Errored else Finished(0);
      }
    }

    method HandleDeletion(id: Id, r: Resource) returns (out: Outcome, ghost seen: seq<PathOutcome>)
      requires api.Valid() && Current(api.w, id, r)
      modifies api`w, api`log, api`faults
      ensures api.Valid() && old(api.log) <= api.log
      ensures TornDown(old(api.w), id, r, api.log[|old(api.log)|..], seen)
      ensures
        var p := HandleDeletionPlan(old(api.w), id, r, cfg);
        && old(api.faults) <= api.faults
        && (api.faults == old(api.faults) ==> api.log == old(api.log) + p.actions && out == p.outcome)
    {
      ghost var w0, log0, faults0 := api.w, api.log, api.faults;
      if Operator !in r.finalizers {
        return Finished(0), [];
      }
      var e, panicked;
      e, panicked, seen := FinalizePath(id, r);
      ghost var visited := if seen == [] then [] else r.spec.paths;
      ghost var removed := RemovedCalls(r.spec.bucket, visited, seen);
      ghost var tail;
      if api.faults == faults0 {
        TeardownPlan(w0, id, r, cfg, e, panicked, seen);
      }
      out, tail := EndDeletion(id, r, e, panicked, FailedPaths(visited, seen));
      DoneIs(log0, api.log, removed, tail);
      TornDownIs(w0, id, r, seen, tail);
    }

    /** The deletion of a Path past its opening. */
    method ReconcileDeleting(id: Id, r: Resource, ghost w0: World, ghost log0: seq<Action>)
      returns (out: Outcome, ghost seen: seq<PathOutcome>)
      requires api.Valid() && Current(api.w, id, r) && HasPath(w0, id) && !Blocked(w0.resources[id])
      requires r == Started(w0.resources[id]) && api.w == WithResource(w0, id, r) && r.deleting
      requires api.log == log0 + StartCalls(id, w0.resources[id])
      modifies api`w, api`log, api`faults
      ensures api.Valid() && log0 <= api.log && old(api.faults) <= api.faults
      ensures
        var p := ReconcilePlan(w0, id, cfg);
        api.faults == old(api.faults) ==> api.log == log0 + p.actions && out == p.outcome
      ensures MayDo(w0, id, cfg, api.log[|log0|..], seen)
    {
      ghost var log1, v := api.log, api.w;
      out, seen := HandleDeletion(id, r);
      DeletingDone(w0, v, id, cfg, log0, log1, api.log, seen);
    }

    /** The reconcile of a live Path past its opening. */
    method ReconcileLive(id: Id, r: Resource, ghost w0: World, ghost log0: seq<Action>)
      returns (out: Outcome, ghost seen: seq<PathOutcome>)
      requires api.Valid() && Current(api.w, id, r) && HasPath(w0, id) && !Blocked(w0.resources[id])
      requires r == Started(w0.resources[id]) && api.w == WithResource(w0, id, r) && !r.deleting
      requires api.log == log0 + StartCalls(id, w0.resources[id])
      modifies api`w, api`log, api`faults
      ensures api.Valid() && log0 <= api.log && old(api.faults) <= api.faults
      ensures
        var p := ReconcilePlan(w0, id, cfg);
        api.faults == old(api.faults) ==> api.log == log0 + p.actions && out == p.outcome
      ensures MayDo(w0, id, cfg, api.log[|log0|..], seen)
    {
      seen := [];
      ghost var v, faults0 := api.w, api.faults;
      out := HandleReconciliation(id, r);
      api.RanAfter(log0, StartCalls(id, w0.resources[id]), faults0, HandleReconciliationPlan(v, id, r, cfg),
                   id, {Unreachable}, out);
    }

    /**
     * Under any failures a live reconcile interrupts its plan, and a deletion removes paths as their outcomes say;
     * without failures the calls made are the plan.
     */
    method Reconcile(id: Id) returns (out: Outcome, ghost seen: seq<PathOutcome>)
      requires api.Valid()
      modifies api`w, api`log, api`faults
      ensures api.Valid() && old(api.log) <= api.log && old(api.faults) <= api.faults
      ensures
        var p := ReconcilePlan(old(api.w), id, cfg);
        api.faults == old(api.faults) ==> api.log == old(api.log) + p.actions && out == p.outcome
      ensures MayDo(old(api.w), id, cfg, api.log[|old(api.log)|..], seen)
    {
      ghost var w0, log0, faults0 := api.w, api.log, api.faults;
      seen := [];
      var e := api.Ask();
      if e.Some? {
        return Errored, seen;
      }
      if id !in api.w.resources || !api.w.resources[id].spec.PathSpec? {
        return Finished(0), seen;
      }
      var r: Resource;
      e, r := Start(api, id);
      if e.Some? {
        StoppedMayDo(api, w0, id, cfg, log0, faults0);
        return Errored, seen;
      }
      if r.deleting {
        out, seen := ReconcileDeleting(id, r, w0, log0);
      } else {
        out, seen := ReconcileLive(id, r, w0, log0);
      }
    }
  }

  /** An opening, then a deletion as the outcomes of its paths say. */
  lemma DeletingMayDo(w0: World, id: Id, cfg: Config, tail: seq<Action>, seen: seq<PathOutcome>)
    requires HasPath(w0, id) && w0.resources[id].deleting && !Blocked(w0.resources[id])
    requires
      var r := Started(w0.resources[id]);
      TornDown(WithResource(w0, id, r), id, r, tail, seen)
    ensures MayDo(w0, id, cfg, StartCalls(id, w0.resources[id]) + tail, seen)
  {
    var start := StartCalls(id, w0.resources[id]);
    assert (start + tail)[|start|..] == tail;
  }

  /** A deletion after its opening, in terms of the whole reconcile. */
  lemma DeletingDone(
    w0: World, v: World, id: Id, cfg: Config, log0: seq<Action>, log1: seq<Action>, log: seq<Action>,
    seen: seq<PathOutcome>)
    requires HasPath(w0, id) && w0.resources[id].deleting && !Blocked(w0.resources[id])
    requires v == WithResource(w0, id, Started(w0.resources[id]))
    requires log1 == log0 + StartCalls(id, w0.resources[id]) && log1 <= log
    requires TornDown(v, id, Started(w0.resources[id]), log[|log1|..], seen)
    ensures log0 <= log && MayDo(w0, id, cfg, log[|log0|..], seen)
    ensures
      var p := HandleDeletionPlan(v, id, Started(w0.resources[id]), cfg);
      && (log == log1 + p.actions ==> log == log0 + ReconcilePlan(w0, id, cfg).actions)
      && ReconcilePlan(w0, id, cfg).outcome == p.outcome
  {
    var start := StartCalls(id, w0.resources[id]);
    var p := HandleDeletionPlan(v, id, Started(w0.resources[id]), cfg);
    DeletingMayDo(w0, id, cfg, log[|log1|..], seen);
    DoneIs(log0, log, start, log[|log1|..]);
    DeletingPlan(w0, id, cfg);
    assert log0 + start + p.actions == log0 + (start + p.actions);
  }

  lemma DeletingPlan(w0: World, id: Id, cfg: Config)
    requires HasPath(w0, id) && w0.resources[id].deleting && !Blocked(w0.resources[id])
    ensures
      var r := Started(w0.resources[id]);
      ReconcilePlan(w0, id, cfg)
        == After(StartCalls(id, w0.resources[id]), HandleDeletionPlan(WithResource(w0, id, r), id, r, cfg))
  {
  }

  /** An opening stopped early. */
  lemma StoppedMayDo(api: Cluster, w0: World, id: Id, cfg: Config, log0: seq<Action>, faults0: nat)
    requires HasPath(w0, id) && StoppedEarly(api, log0, faults0, id, w0.resources[id])
    ensures MayDo(w0, id, cfg, api.log[|log0|..], [])
    ensures
      var p := ReconcilePlan(w0, id, cfg);
      api.faults == faults0 ==> api.log == log0 + p.actions && p.outcome == Errored
  {
  }

  /** Removals as the outcomes say, then an end that drops the finalizer only if it may. */
  lemma TornDownIs(w: World, id: Id, r: Resource, seen: seq<PathOutcome>, tail: seq<Action>)
    requires r.spec.PathSpec?
    requires
      var client := ClientFor(w, id.namespace, r.spec.s3InstanceRef);
      var visited := if seen == [] then [] else r.spec.paths;
      && |seen| == |visited| && Observed(w, r.spec.bucket, visited, seen)
      && (seen != [] ==> client.Client? && client.instance.pathDeletionEnabled)
      && TeardownTail(tail, id, FailedPaths(visited, seen))
      && (RemoveFinalizer(id) in tail ==>
            client.Client? && (client.instance.pathDeletionEnabled ==> |seen| == |r.spec.paths|))
    ensures
      var visited := if seen == [] then [] else r.spec.paths;
      TornDown(w, id, r, RemovedCalls(r.spec.bucket, visited, seen) + tail, seen)
  {
    var visited := if seen == [] then [] else r.spec.paths;
    var removed := RemovedCalls(r.spec.bucket, visited, seen);
    assert (removed + tail)[|removed|..] == tail;
  }

  /** Without failures the removals and what ends them are the plan of the deletion. */
  lemma TeardownPlan(
    w: World, id: Id, r: Resource, cfg: Config, e: Option<Error>, panicked: bool, seen: seq<PathOutcome>)
    requires r.spec.PathSpec? && Operator in r.finalizers
    requires
      var client := ClientFor(w, id.namespace, r.spec.s3InstanceRef);
      var visited := if seen == [] then [] else r.spec.paths;
      && |seen| == |visited| && Observed(w, r.spec.bucket, visited, seen) && !AnyFailed(seen)
      && (seen != [] ==> client.Client? && client.instance.pathDeletionEnabled)
      && (client.Client? && client.instance.pathDeletionEnabled ==> |seen| == |r.spec.paths|)
      && panicked == client.Panicked? && e == if client.Unavailable? then Some(client.error) else None
    ensures
      var visited := if seen == [] then [] else r.spec.paths;
      var last := if panicked then Plan([], Errored)
                  else if e.Some? then Report(id, r, DeletionFailure, FinalizeSite, e, cfg.reconcilePeriod)
                  else Plan([RemoveFinalizer(id)], Finished(0));
      HandleDeletionPlan(w, id, r, cfg) == After(RemovedCalls(r.spec.bucket, visited, seen), last)
  {
    var visited := if seen == [] then [] else r.spec.paths;
    NoFailureIsPresent(w, r.spec.bucket, visited, seen);
    assert r.spec.paths == [] ==> PresentCalls(w, r.spec.bucket, r.spec.paths) == [];
  }

  /** What was logged after `log0` is `first`, then `tail`. */
  lemma DoneIs(log0: seq<Action>, log: seq<Action>, first: seq<Action>, tail: seq<Action>)
    requires log == log0 + first + tail
    ensures log[|log0|..] == first + tail && first <= log[|log0|..] && log[|log0|..][|first|..] == tail
  {
  }

  lemma {:induction false} NoFailureNoFailedPaths(paths: seq<string>, seen: seq<PathOutcome>)
    requires |seen| == |paths|
    ensures FailedPaths(paths, seen) == [] || AnyFailed(seen)
    decreases |paths|
  {
    if paths != [] {
      var n := |paths| - 1;
      NoFailureNoFailedPaths(paths[..n], seen[..n]);
      if FailedPaths(paths[..n], seen[..n]) != [] {
        var i :| 0 <= i < n && seen[..n][i].Failed();
        assert seen[i].Failed();
      }
    }
  }

  /** What a reconcile of a Path may have done, under any failures. */
  ghost predicate MayDo(w: World, id: Id, cfg: Config, done: seq<Action>, seen: seq<PathOutcome>) {
    if !HasPath(w, id) then done == []
    else
      var r := w.resources[id];
      var start := StartCalls(id, r);
      if r.deleting then
        || done <= start
        || (start <= done && !Blocked(r)
            && TornDown(WithResource(w, id, Started(r)), id, Started(r), done[|start|..], seen))
      else Follows(done, ReconcilePlan(w, id, cfg).actions, id, {Unreachable})
  }
}
