/** What reconciles and deletions of a Path achieve, under failures and without. */
module PathTheorems {
  import opened Collections
  import opened Model
  import opened Effects
  import opened ControllerHelper
  import opened S3InstanceHelper
  import opened Markers
  import opened Protocol
  import opened Reports
  import opened PathPlan
  import opened PathController
  import BucketTheorems

  lemma ClientIgnoresOpening(w: World, id: Id)
    requires HasPath(w, id)
    ensures
      var r := w.resources[id];
      ClientFor(WithResource(w, id, Started(r)), id.namespace, r.spec.s3InstanceRef)
        == ClientFor(w, id.namespace, r.spec.s3InstanceRef)
  {
    var r := w.resources[id];
    if InstanceOf(r.spec.s3InstanceRef, id.namespace) != id {
      ClientReadsInstanceOnly(w, WithResource(w, id, Started(r)), id.namespace, r.spec.s3InstanceRef);
    }
  }

  // ---------- the Reconciled reason ----------

  lemma MissingNoReport(w: World, bucket: string, paths: seq<string>, id: Id)
    ensures NoReport(MissingCalls(w, bucket, paths), id)
  {
    var calls := MissingCalls(w, bucket, paths);
    BucketTheorems.MissingAreListed(w, bucket, paths);
    forall i | 0 <= i < |calls| ensures !ReportsReconciled(calls[i], id) {
      assert calls[i] in calls;
    }
  }

  /** The client is available and the bucket is there. */
  ghost predicate Succeeds(w: World, id: Id)
    requires HasPath(w, id)
  {
    var r := w.resources[id];
    ClientFor(w, id.namespace, r.spec.s3InstanceRef).Client? && r.spec.bucket in w.buckets
  }

  /** Without failures a Path gets its markers; nothing else in the backend changes. */
  lemma PassEffect(w: World, id: Id, cfg: Config)
    requires HasPath(w, id) && !w.resources[id].deleting && Succeeds(w, id)
    ensures
      var u := w.resources[id].spec;
      var v := Exec(w, ReconcilePlan(w, id, cfg).actions);
      && v == WithObjects(w, u.bucket, w.buckets[u.bucket].objects + MarkersOf(u.paths)).(resources := v.resources)
      && ReconcilePlan(w, id, cfg).outcome == Finished(cfg.reconcilePeriod)
  {
    var r := w.resources[id];
    var s := Started(r);
    var v := WithResource(w, id, s);
    ClientIgnoresOpening(w, id);
    StartCallsEffect(w, id);
    var calls := MissingCalls(v, r.spec.bucket, r.spec.paths);
    var done := Report(id, s, Reconciled, Success, None, cfg.reconcilePeriod).actions;
    ExecAppend(w, StartCalls(id, r), calls + done);
    ExecAppend(v, calls, done);
    MissingCallsEffect(v, r.spec.bucket, r.spec.paths);
    BucketTheorems.ReportOnly(Exec(v, calls), id, s, Reconciled, Success, None, cfg.reconcilePeriod);
  }

  /** Under any failures: when a reconcile writes the reason Reconciled, every path has its marker. */
  lemma ReconciledIsTruthful(w: World, id: Id, cfg: Config, done: seq<Action>, seen: seq<PathOutcome>, i: nat)
    requires HasPath(w, id) && !w.resources[id].deleting && MayDo(w, id, cfg, done, seen)
    requires i < |done| && ReportsReconciled(done[i], id)
    ensures
      var u := w.resources[id].spec;
      var x := Exec(w, done[..i + 1]);
      u.bucket in x.buckets && MarkersOf(u.paths) <= x.buckets[u.bucket].objects
  {
    var r := w.resources[id];
    var s := Started(r);
    var v := WithResource(w, id, s);
    var p := ReconcilePlan(w, id, cfg);
    var body := HandleReconciliationPlan(v, id, s, cfg);
    ClientIgnoresOpening(w, id);
    BucketTheorems.StartNoReport(id, r);
    if !Succeeds(w, id) {
      assert NoReport(body.actions, id);
      BucketTheorems.NoReportAppend(StartCalls(id, r), body.actions, id);
      NoReportFollows(done, p.actions, id, {Unreachable});
      assert false;
    } else {
      var report := Report(id, s, Reconciled, Success, None, cfg.reconcilePeriod);
      MissingNoReport(v, r.spec.bucket, r.spec.paths, id);
      AfterNoReport(MissingCalls(v, r.spec.bucket, r.spec.paths), report, id);
      AfterNoReport(StartCalls(id, r), body, id);
      ReportEnds(done, p, id, {Unreachable}, i);
      PassEffect(w, id, cfg);
    }
  }

  // ---------- deletion ----------

  /**
   * When the finalizer goes, no removal failed, and with deletion enabled every path whose check was answered
   * has lost its marker.
   */
  lemma FinalizerMeansCleaned(w: World, id: Id, r: Resource, done: seq<Action>, seen: seq<PathOutcome>)
    requires r.spec.PathSpec? && TornDown(w, id, r, done, seen)
    requires done != [] && done[|done| - 1] == RemoveFinalizer(id)
    requires var client := ClientFor(w, id.namespace, r.spec.s3InstanceRef);
             client.Client? && client.instance.pathDeletionEnabled
    ensures |seen| == |r.spec.paths| && FailedPaths(r.spec.paths, seen) == []
    ensures forall i :: 0 <= i < |seen| && !seen[i].CheckFailed? ==>
      !HasMarker(Exec(w, done), r.spec.bucket, r.spec.paths[i])
  {
    var bucket, paths := r.spec.bucket, r.spec.paths;
    var visited := if seen == [] then [] else paths;
    var removed := RemovedCalls(bucket, visited, seen);
    LastIsFinalizer(done, removed, id, bucket, visited, seen);
    ExecSnoc(w, removed, RemoveFinalizer(id));
    AnsweredAreGone(w, bucket, paths, seen);
  }

  /**
   * Exactly what a deletion that drops the finalizer leaves in the bucket: the objects that were there
   * and are no path's marker, or the marker of paths whose every check failed.
   */
  lemma FinalizerExactly(w: World, id: Id, cfg: Config, done: seq<Action>, seen: seq<PathOutcome>)
    requires Deletable(w, id, true) && MayDo(w, id, cfg, done, seen)
    requires done != [] && done[|done| - 1] == RemoveFinalizer(id)
    ensures
      var u := w.resources[id].spec;
      && |seen| == |u.paths|
      && (u.bucket in w.buckets ==>
            u.bucket in Exec(w, done).buckets && forall o ::
              o in Exec(w, done).buckets[u.bucket].objects <==>
                o in w.buckets[u.bucket].objects
                && forall i :: 0 <= i < |seen| && Marker(u.paths[i]) == o ==> seen[i].CheckFailed?)
  {
    var r := w.resources[id];
    var v := WithResource(w, id, Started(r));
    var rest := PastOpening(w, id, cfg, done, seen);
    StartCallsEffect(w, id);
    ClientIgnoresOpening(w, id);
    ExecAppend(w, StartCalls(id, r), rest);
    TornDownExactly(v, id, Started(r), rest, seen);
  }

  /** A deletion that dropped the finalizer went past its opening. */
  lemma PastOpening(w: World, id: Id, cfg: Config, done: seq<Action>, seen: seq<PathOutcome>)
    returns (rest: seq<Action>)
    requires Deletable(w, id, true) && MayDo(w, id, cfg, done, seen)
    requires done != [] && done[|done| - 1] == RemoveFinalizer(id)
    ensures done == StartCalls(id, w.resources[id]) + rest
    ensures rest != [] && rest[|rest| - 1] == RemoveFinalizer(id)
    ensures TornDown(
      WithResource(w, id, Started(w.resources[id])), id, Started(w.resources[id]), rest, seen)
  {
    var start := StartCalls(id, w.resources[id]);
    if done <= start {
      OpeningDropsNothing(id, w.resources[id], done);
      assert false;
    }
    rest := done[|start|..];
    TailOf(done, start);
  }

  lemma TailOf(done: seq<Action>, start: seq<Action>)
    requires start < done
    ensures var rest := done[|start|..]; done == start + rest && rest != [] && rest[|rest| - 1] == done[|done| - 1]
  {
  }

  lemma OpeningDropsNothing(id: Id, r: Resource, done: seq<Action>)
    requires done != [] && done <= StartCalls(id, r)
    ensures done[|done| - 1] != RemoveFinalizer(id)
  {
    assert done[|done| - 1] == StartCalls(id, r)[|done| - 1];
  }

  lemma TornDownExactly(w: World, id: Id, r: Resource, done: seq<Action>, seen: seq<PathOutcome>)
    requires r.spec.PathSpec? && TornDown(w, id, r, done, seen)
    requires done != [] && done[|done| - 1] == RemoveFinalizer(id)
    requires var client := ClientFor(w, id.namespace, r.spec.s3InstanceRef);
             client.Client? && client.instance.pathDeletionEnabled
    ensures |seen| == |r.spec.paths|
    ensures r.spec.bucket in w.buckets ==>
      r.spec.bucket in Exec(w, done).buckets && forall o ::
        o in Exec(w, done).buckets[r.spec.bucket].objects <==>
          o in w.buckets[r.spec.bucket].objects
          && forall i :: 0 <= i < |seen| && Marker(r.spec.paths[i]) == o ==> seen[i].CheckFailed?
  {
    var bucket, paths := r.spec.bucket, r.spec.paths;
    var visited := if seen == [] then [] else paths;
    var removed := RemovedCalls(bucket, visited, seen);
    LastIsFinalizer(done, removed, id, bucket, visited, seen);
    ExecSnoc(w, removed, RemoveFinalizer(id));
    BucketsKept(Exec(w, removed), id);
    FailedMeansListed(paths, seen);
    if bucket in w.buckets {
      RemovedExactly(w, bucket, paths, seen);
      assert forall o :: Spared(o, paths, seen) <==>
        forall i :: 0 <= i < |seen| && Marker(paths[i]) == o ==> seen[i].CheckFailed?;
    }
  }

  lemma BucketsKept(x: World, id: Id)
    ensures Apply(x, RemoveFinalizer(id)).buckets == x.buckets
  {
  }

  /**
   * The resource goes with every marker gone exactly when each marker that was there had a listing
   * whose check was answered.
   */
  lemma CleanedExactly(w: World, id: Id, cfg: Config, done: seq<Action>, seen: seq<PathOutcome>)
    requires Deletable(w, id, true) && MayDo(w, id, cfg, done, seen)
    requires done != [] && done[|done| - 1] == RemoveFinalizer(id)
    ensures
      var u := w.resources[id].spec;
      && |seen| == |u.paths|
      && ((forall i :: 0 <= i < |u.paths| ==> !HasMarker(Exec(w, done), u.bucket, u.paths[i])) <==>
          (forall i :: 0 <= i < |u.paths| && HasMarker(w, u.bucket, u.paths[i]) ==>
             exists j :: 0 <= j < |seen| && Marker(u.paths[j]) == Marker(u.paths[i]) && !seen[j].CheckFailed?))
  {
    var u := w.resources[id].spec;
    FinalizerExactly(w, id, cfg, done, seen);
    if u.bucket !in w.buckets {
      NoBucketComes(w, done, u.bucket, id, cfg, seen);
    }
  }

  lemma NoBucketComes(w: World, done: seq<Action>, bucket: string, id: Id, cfg: Config, seen: seq<PathOutcome>)
    requires HasPath(w, id) && MayDo(w, id, cfg, done, seen) && bucket !in w.buckets
    ensures bucket !in Exec(w, done).buckets
  {
    PathKeepsProtocol(w, id, cfg, done, seen);
    NoBucketAlong(w, done, bucket, id, cfg);
  }

  /** A Path's reconcile creates no bucket. */
  lemma {:induction false} NoBucketAlong(w: World, done: seq<Action>, bucket: string, id: Id, cfg: Config)
    requires id in w.resources ==> w.resources[id].spec.PathSpec?
    requires Guarded(w, done, EntitledFor(id, cfg)) && bucket !in w.buckets
    ensures bucket !in Exec(w, done).buckets
    decreases |done|
  {
    if done != [] {
      ResourcesKept(w, done[0], id);
      NoBucketAlong(Apply(w, done[0]), done[1..], bucket, id, cfg);
    }
  }

  lemma LastIsFinalizer(
    done: seq<Action>, removed: seq<Action>, id: Id, bucket: string, paths: seq<string>, seen: seq<PathOutcome>)
    requires |seen| == |paths| && removed == RemovedCalls(bucket, paths, seen) && removed <= done
    requires TeardownTail(done[|removed|..], id, FailedPaths(paths, seen))
    requires done != [] && done[|done| - 1] == RemoveFinalizer(id)
    ensures done == removed + [RemoveFinalizer(id)] && RemoveFinalizer(id) in done[|removed|..]
  {
    RemovalsOnly(bucket, paths, seen);
    var tail := done[|removed|..];
    assert done == removed + tail;
    assert removed != [] ==> removed[|removed| - 1] in removed;
    assert tail != [] ==> tail[|tail| - 1] == done[|done| - 1];
    assert tail == [RemoveFinalizer(id)];
  }

  lemma AnsweredAreGone(w: World, bucket: string, paths: seq<string>, seen: seq<PathOutcome>)
    requires |seen| == |paths| && Observed(w, bucket, paths, seen) && FailedPaths(paths, seen) == []
    ensures forall i :: 0 <= i < |seen| && !seen[i].CheckFailed? ==>
      !HasMarker(Exec(w, RemovedCalls(bucket, paths, seen)), bucket, paths[i])
  {
    FailedMeansListed(paths, seen);
    if bucket in w.buckets {
      var gone := RemovedEffect(w, bucket, paths, seen);
    } else {
      NoBucketNoRemovals(w, bucket, paths, seen);
    }
  }

  lemma {:induction false} RemovalsOnly(bucket: string, paths: seq<string>, seen: seq<PathOutcome>)
    requires |seen| == |paths|
    ensures forall a :: a in RemovedCalls(bucket, paths, seen) ==>
      a.DeletePath? && a.bucket == bucket && a.path in paths
    decreases |paths|
  {
    if paths != [] {
      var n := |paths| - 1;
      RemovalsOnly(bucket, paths[..n], seen[..n]);
      assert forall p :: p in paths[..n] ==> p in paths;
    }
  }

  lemma {:induction false} FailedMeansListed(paths: seq<string>, seen: seq<PathOutcome>)
    requires |seen| == |paths|
    ensures FailedPaths(paths, seen) == [] <==> forall i :: 0 <= i < |seen| ==> !seen[i].RemoveFailed?
    decreases |paths|
  {
    if paths != [] {
      var n := |paths| - 1;
      FailedMeansListed(paths[..n], seen[..n]);
      assert forall i :: 0 <= i < n ==> seen[..n][i] == seen[i];
      assert (forall i :: 0 <= i < |seen| ==> !seen[i].RemoveFailed?) <==>
             (forall i :: 0 <= i < n ==> !seen[i].RemoveFailed?) && !seen[n].RemoveFailed?;
    }
  }

  /** The Path is marked for deletion, its finalizer is stored and its client, with this deletion flag, is available. */
  ghost predicate Deletable(w: World, id: Id, enabled: bool) {
    && HasPath(w, id) && w.resources[id].deleting && Operator in w.resources[id].finalizers
    && var client := ClientFor(w, id.namespace, w.resources[id].spec.s3InstanceRef);
       client.Client? && client.instance.pathDeletionEnabled == enabled
  }

  /** The buckets without the markers of the paths, if deletion is enabled. */
  function Cleaned(w: World, u: Spec, enabled: bool): map<string, BackendBucket>
    requires u.PathSpec?
  {
    if enabled && u.bucket in w.buckets then
      WithObjects(w, u.bucket, w.buckets[u.bucket].objects - MarkersOf(u.paths)).buckets
    else w.buckets
  }

  lemma {:induction false} NothingPresent(w: World, bucket: string, paths: seq<string>)
    requires bucket !in w.buckets
    ensures PresentCalls(w, bucket, paths) == []
    decreases |paths|
  {
    if paths != [] { NothingPresent(w, bucket, paths[..|paths| - 1]); }
  }

  /** A deletion without failures removes the markers and drops the finalizer; the rest of the backend stays. */
  lemma DeletionEnds(w: World, id: Id, cfg: Config, enabled: bool)
    requires Deletable(w, id, enabled)
    ensures
      var z := Exec(w, ReconcilePlan(w, id, cfg).actions);
      && z == w.(buckets := Cleaned(w, w.resources[id].spec, enabled), resources := z.resources)
      && (id in z.resources ==> Operator !in z.resources[id].finalizers)
  {
    var r := w.resources[id];
    var s, u := Started(r), r.spec;
    var v := WithResource(w, id, s);
    ClientIgnoresOpening(w, id);
    StartCallsEffect(w, id);
    var removed := if enabled then PresentCalls(v, u.bucket, u.paths) else [];
    if enabled && u.bucket in v.buckets {
      PresentEffect(v, u.bucket, u.paths);
    } else {
      NothingPresentOr(v, u, enabled);
    }
    var x := Exec(v, removed);
    assert x == v.(buckets := Cleaned(w, u, enabled));
    ExecSnoc(v, removed, RemoveFinalizer(id));
    FinalizerGoes(x, id);
    DeletionPlanIs(w, id, cfg, enabled, removed);
    ExecAppend(w, StartCalls(id, r), removed + [RemoveFinalizer(id)]);
  }

  lemma DeletionPlanIs(w: World, id: Id, cfg: Config, enabled: bool, removed: seq<Action>)
    requires Deletable(w, id, enabled)
    requires
      var u := w.resources[id].spec;
      var v := WithResource(w, id, Started(w.resources[id]));
      removed == if enabled then PresentCalls(v, u.bucket, u.paths) else []
    ensures ReconcilePlan(w, id, cfg).actions == StartCalls(id, w.resources[id]) + (removed + [RemoveFinalizer(id)])
  {
    ClientIgnoresOpening(w, id);
  }

  lemma FinalizerGoes(x: World, id: Id)
    requires id in x.resources
    ensures
      var z := Apply(x, RemoveFinalizer(id));
      z == x.(resources := z.resources) && (id in z.resources ==> Operator !in z.resources[id].finalizers)
  {
  }

  lemma NothingPresentOr(w: World, u: Spec, enabled: bool)
    requires u.PathSpec? && !(enabled && u.bucket in w.buckets)
    ensures (if enabled then PresentCalls(w, u.bucket, u.paths) else []) == []
  {
    if enabled { NothingPresent(w, u.bucket, u.paths); }
  }

  /** Part of the markers gone, another status, or nothing: where a deletion stopped before its last call may be. */
  ghost predicate PartlyCleaned(w: World, x: World, id: Id, enabled: bool)
    requires HasPath(w, id)
  {
    && x == w.(buckets := x.buckets, resources := x.resources)
    && x.resources.Keys == w.resources.Keys
    && (forall j :: j in w.resources && j != id ==> x.resources[j] == w.resources[j])
    && x.resources[id] == w.resources[id].(conditions := x.resources[id].conditions)
    && Cleaned(x, w.resources[id].spec, enabled) == Cleaned(w, w.resources[id].spec, enabled)
  }

  lemma RemovedPartly(w: World, id: Id, seen: seq<PathOutcome>, enabled: bool)
    requires HasPath(w, id) && (seen != [] ==> enabled)
    requires
      var u := w.resources[id].spec;
      seen == [] || (|seen| == |u.paths| && Observed(w, u.bucket, u.paths, seen))
    ensures
      var u := w.resources[id].spec;
      seen == [] || PartlyCleaned(w, Exec(w, RemovedCalls(u.bucket, u.paths, seen)), id, enabled)
  {
    var u := w.resources[id].spec;
    if seen != [] && u.bucket in w.buckets {
      var objects := w.buckets[u.bucket].objects;
      var gone := RemovedEffect(w, u.bucket, u.paths, seen);
      WithObjectsTwice(w, u.bucket, objects - gone, objects - MarkersOf(u.paths));
      assert objects - gone - MarkersOf(u.paths) == objects - MarkersOf(u.paths);
    } else if seen != [] {
      NoBucketNoRemovals(w, u.bucket, u.paths, seen);
    }
  }

  lemma ConditionPartly(w: World, x: World, id: Id, tail: seq<Action>, enabled: bool)
    requires HasPath(w, id) && PartlyCleaned(w, x, id, enabled)
    requires tail == [] || (|tail| == 1 && tail[0].SetCondition? && tail[0].id == id)
    ensures PartlyCleaned(w, Exec(x, tail), id, enabled)
  {
    if tail != [] {
      ExecOne(x, tail[0]);
      ConditionIsWritten(x, id, tail[0].condition);
      assert tail[0] == SetCondition(id, tail[0].condition);
    }
  }

  lemma ConditionIsWritten(x: World, id: Id, c: Condition)
    requires id in x.resources
    ensures Apply(x, SetCondition(id, c)) ==
      WithResource(x, id, x.resources[id].(conditions := Upsert(x.resources[id].conditions, c)))
  {
  }

  /** An opening, a part of the removals and a report leave the Path partly cleaned. */
  lemma InterruptedPartly(
    w: World, id: Id, cfg: Config, enabled: bool, done: seq<Action>, seen: seq<PathOutcome>)
    requires Deletable(w, id, enabled) && MayDo(w, id, cfg, done, seen)
    requires var x := Exec(w, done); id in x.resources && Operator in x.resources[id].finalizers
    ensures PartlyCleaned(w, Exec(w, done), id, enabled)
  {
    var r := w.resources[id];
    var start := StartCalls(id, r);
    if done <= start {
      assert done == [] || done == [start[0]];
      ConditionPartly(w, w, id, done, enabled);
    } else {
      var v := WithResource(w, id, Started(r));
      var rest := done[|start|..];
      ClientIgnoresOpening(w, id);
      StartCallsEffect(w, id);
      ExecAppend(w, start, rest);
      assert done == start + rest;
      TornDownPartly(v, id, enabled, rest, seen);
    }
  }

  lemma NothingRemoved(bucket: string, seen: seq<PathOutcome>)
    ensures seen == [] ==> RemovedCalls(bucket, [], seen) == []
  {
  }

  /** With the finalizer still there, the last call was not its removal. */
  lemma NotTheFinalizer(x: World, id: Id, tail: seq<Action>)
    requires id in x.resources
    requires var z := Exec(x, tail); id in z.resources && Operator in z.resources[id].finalizers
    ensures tail != [RemoveFinalizer(id)]
  {
    if tail == [RemoveFinalizer(id)] {
      ExecOne(x, RemoveFinalizer(id));
      FinalizerGoes(x, id);
    }
  }

  lemma TornDownPartly(v: World, id: Id, enabled: bool, rest: seq<Action>, seen: seq<PathOutcome>)
    requires Deletable(v, id, enabled) && TornDown(v, id, v.resources[id], rest, seen)
    requires var x := Exec(v, rest); id in x.resources && Operator in x.resources[id].finalizers
    ensures PartlyCleaned(v, Exec(v, rest), id, enabled)
  {
    var u := v.resources[id].spec;
    var visited := if seen == [] then [] else u.paths;
    var removed := RemovedCalls(u.bucket, visited, seen);
    var tail := rest[|removed|..];
    assert rest == removed + tail;
    ExecAppend(v, removed, tail);
    RemovedPartly(v, id, seen, enabled);
    var x := Exec(v, removed);
    NothingRemoved(u.bucket, seen);
    assert PartlyCleaned(v, x, id, enabled);
    NotTheFinalizer(x, id, tail);
    ConditionPartly(v, x, id, tail, enabled);
  }

  /**
   * Retry-safe: a deletion stopped under any failures with the finalizer still stored, and done again without one,
   * ends as one without any failure: the markers and the finalizer are gone, the rest of the backend is as it was.
   */
  lemma DeletionRetry(w: World, id: Id, cfg: Config, enabled: bool, done: seq<Action>, seen: seq<PathOutcome>)
    requires Deletable(w, id, enabled) && MayDo(w, id, cfg, done, seen)
    requires var x := Exec(w, done); id in x.resources && Operator in x.resources[id].finalizers
    ensures
      var x := Exec(w, done);
      var y := Exec(x, ReconcilePlan(x, id, cfg).actions);
      && y == w.(buckets := Cleaned(w, w.resources[id].spec, enabled), resources := y.resources)
      && (id in y.resources ==> Operator !in y.resources[id].finalizers)
  {
    var x := Exec(w, done);
    var r := w.resources[id];
    InterruptedPartly(w, id, cfg, enabled, done, seen);
    var iid := InstanceOf(r.spec.s3InstanceRef, id.namespace);
    if iid != id {
      ClientReadsInstanceOnly(w, x, id.namespace, r.spec.s3InstanceRef);
    }
    DeletionEnds(x, id, cfg, enabled);
  }

  /**
   * A check that fails is no reason to stop: with one marker and one failed check the finalizer goes,
   * and the marker stays in the bucket.
   */
  lemma FailedCheckLeavesMarker(cfg: Config) returns (w: World, id: Id, done: seq<Action>, seen: seq<PathOutcome>)
    ensures Deletable(w, id, true) && MayDo(w, id, cfg, done, seen)
    ensures id !in Exec(w, done).resources
    ensures w.resources[id].spec.paths == ["p"] && HasMarker(Exec(w, done), w.resources[id].spec.bucket, "p")
  {
    id := Id(PathKind, "n", "a");
    var iid := Id(S3InstanceKind, "n", "i");
    var ready := Condition(ReconciledType, True, 1, Reconciled, Success, None);
    var instance := Resource(
      "v", 1, false, {Operator}, [ready],
      InstanceSpec(S3Config("", "", "", "", "", ""), [], true, true, true, true));
    var path := Resource("u", 1, true, {Operator}, [ready], PathSpec("i", "b", ["p"]));
    w := World(
      map[id := path, iid := instance], map[], map[], map["b" := BackendBucket(0, {Marker("p")})], map[]);
    assert InstanceOf("i", "n") == iid;
    assert ClientFor(w, "n", "i") == Client(instance.spec);
    seen, done := [CheckFailed], [RemoveFinalizer(id)];
    WithResourceSame(w, id);
    assert path.spec.paths[..0] == [];
    assert RemovedCalls("b", ["p"], seen) == [];
    assert FailedPaths(["p"], seen) == [];
    assert Observed(w, "b", ["p"], seen);
    assert TornDown(w, id, path, done, seen);
    ExecOne(w, RemoveFinalizer(id));
    assert path.finalizers - {Operator} == {};
  }

  // ---------- the protocol ----------

  lemma PathLiveEntitled(w: World, id: Id, r: Resource, cfg: Config)
    requires id in w.resources && w.resources[id] == r && r.spec.PathSpec? && !r.deleting && Operator in r.finalizers
    ensures Guarded(w, HandleReconciliationPlan(w, id, r, cfg).actions, EntitledFor(id, cfg))
  {
    var plan := HandleReconciliationPlan(w, id, r, cfg).actions;
    BucketTheorems.MissingAreListed(w, r.spec.bucket, r.spec.paths);
    var calls := MissingCalls(w, r.spec.bucket, r.spec.paths);
    forall i | 0 <= i < |plan| ensures Plain(plan[i], id, r) {
      if i < |calls| { assert calls[i] in calls; }
    }
    PlainGuarded(w, plan, id, cfg);
  }

  lemma TornDownEntitled(w: World, id: Id, r: Resource, cfg: Config, done: seq<Action>, seen: seq<PathOutcome>)
    requires id in w.resources && w.resources[id] == r && r.spec.PathSpec? && r.deleting && Operator in r.finalizers
    requires TornDown(w, id, r, done, seen)
    ensures Guarded(w, done, EntitledFor(id, cfg))
  {
    var visited := if seen == [] then [] else r.spec.paths;
    var removed := RemovedCalls(r.spec.bucket, visited, seen);
    var tail := done[|removed|..];
    RemovalsOnly(r.spec.bucket, visited, seen);
    forall i | 0 <= i < |removed| ensures Plain(removed[i], id, r) {
      assert removed[i] in removed;
    }
    PlainGuarded(w, removed, id, cfg);
    RemovalsKeepResources(w, removed);
    var v := Exec(w, removed);
    ClientReadsInstanceOnly(w, v, id.namespace, r.spec.s3InstanceRef);
    if tail == [RemoveFinalizer(id)] {
      assert tail[0] in tail;
      assert CleanedUp(v, id);
    }
    TailEntitled(v, id, cfg, tail, FailedPaths(visited, seen));
    GuardedAppend(w, removed, tail, EntitledFor(id, cfg));
    assert done == removed + tail;
  }

  lemma TailEntitled(v: World, id: Id, cfg: Config, tail: seq<Action>, failed: seq<string>)
    requires id in v.resources && v.resources[id].deleting && TeardownTail(tail, id, failed)
    requires tail == [RemoveFinalizer(id)] ==> CleanedUp(v, id)
    ensures Guarded(v, tail, EntitledFor(id, cfg))
  {
    assert tail != [] ==> tail[1..] == [];
  }

  lemma {:induction false} RemovalsKeepResources(w: World, removed: seq<Action>)
    requires forall a :: a in removed ==> a.DeletePath?
    ensures Exec(w, removed).resources == w.resources
    decreases |removed|
  {
    if removed != [] {
      assert removed[0] in removed;
      assert forall a :: a in removed[1..] ==> a in removed;
      RemovalsKeepResources(Apply(w, removed[0]), removed[1..]);
    }
  }

  /** Every reconcile of a Path, under any failures, keeps the protocol. */
  lemma PathKeepsProtocol(w: World, id: Id, cfg: Config, done: seq<Action>, seen: seq<PathOutcome>)
    requires HasPath(w, id) && MayDo(w, id, cfg, done, seen)
    ensures Guarded(w, done, EntitledFor(id, cfg))
  {
    var r := w.resources[id];
    var s := Started(r);
    var v := WithResource(w, id, s);
    var start := StartCalls(id, r);
    StartEntitled(w, id, cfg);
    StartCallsEffect(w, id);
    if r.deleting {
      if done <= start {
        assert done == start[..|done|];
        GuardedPrefix(w, start, |done|, EntitledFor(id, cfg));
      } else {
        TornDownEntitled(v, id, s, cfg, done[|start|..], seen);
        GuardedAppend(w, start, done[|start|..], EntitledFor(id, cfg));
        assert done == start + done[|start|..];
      }
    } else {
      var body := HandleReconciliationPlan(v, id, s, cfg).actions;
      PathLiveEntitled(v, id, s, cfg);
      GuardedAppend(w, start, body, EntitledFor(id, cfg));
      InterruptedEntitled(w, done, ReconcilePlan(w, id, cfg).actions, id, cfg, {Unreachable});
    }
  }
}
