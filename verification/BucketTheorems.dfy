/** What reconciles of a Bucket achieve: convergence in at most two passes, and a truthful Reconciled. */
module BucketTheorems {
  import opened Collections
  import opened Model
  import opened Effects
  import opened ControllerHelper
  import opened S3InstanceHelper
  import opened Markers
  import opened Protocol
  import opened Reports
  import opened ObjectDeletion
  import opened BucketPlan

  /** The quota the backend holds for a signed one: the same number, or the one that is 2^64 more if it is negative. */
  predicate HasQuota(b: BackendBucket, q: int) {
    && (q >= 0 ==> b.quota == q)
    && (q < 0 ==> b.quota == q + 0x1_0000_0000_0000_0000)
  }

  /** The backend holds the override if it is not zero, else the default. */
  predicate HasWantedQuota(b: BackendBucket, u: Spec)
    requires u.BucketSpec?
  {
    && u.overrideQuota.Some?
    && (u.overrideQuota.value != 0 ==> HasQuota(b, u.overrideQuota.value))
    && (u.overrideQuota.value == 0 ==> u.defaultQuota.Some? && HasQuota(b, u.defaultQuota.value))
  }

  /** Setting a quota makes the backend hold it, and reading one tells which it is. */
  lemma QuotaIsHeld(b: BackendBucket, q: Int64)
    ensures HasQuota(b, q) <==> b.quota == ToUInt64(q)
    ensures HasQuota(b, q) <==> ToInt64(b.quota) == q
  {
  }

  /** The casts of the quota lose nothing, in either direction. */
  lemma QuotaCastsRoundTrip(q: Int64, u: UInt64)
    ensures ToInt64(ToUInt64(q)) == q
    ensures ToUInt64(ToInt64(u)) == u
  {
  }

  // ---------- what a pass leads to ----------

  function WithBucket(w: World, name: string, b: BackendBucket): World {
    w.(buckets := w.buckets[name := b])
  }

  lemma ReportOnly(w: World, id: Id, r: Resource, reason: Reason, site: Site, error: Option<Error>, period: nat)
    ensures
      var v := Exec(w, Report(id, r, reason, site, error, period).actions);
      v == w.(resources := v.resources)
  {
    var done := Report(id, r, reason, site, error, period).actions;
    if done != [] { ExecOne(w, done[0]); }
  }

  lemma UpdateCallsEffect(w: World, bucket: string, quota: Int64, paths: seq<string>)
    requires bucket in w.buckets
    ensures
      var first := QuotaCalls(w, bucket, quota);
      Exec(w, first + MissingCalls(Exec(w, first), bucket, paths))
        == WithBucket(w, bucket, BackendBucket(ToUInt64(quota), w.buckets[bucket].objects + MarkersOf(paths)))
  {
    var first := QuotaCalls(w, bucket, quota);
    var v := Exec(w, first);
    QuotaCallsEffect(w, bucket, quota);
    ExecAppend(w, first, MissingCalls(v, bucket, paths));
    MissingCallsEffect(v, bucket, paths);
    var b := BackendBucket(ToUInt64(quota), w.buckets[bucket].objects + MarkersOf(paths));
    assert v.buckets[bucket := b] == w.buckets[bucket := b];
  }

  lemma QuotaCallsEffect(w: World, bucket: string, quota: Int64)
    requires bucket in w.buckets
    ensures Exec(w, QuotaCalls(w, bucket, quota))
         == WithBucket(w, bucket, w.buckets[bucket].(quota := ToUInt64(quota)))
  {
    var first := QuotaCalls(w, bucket, quota);
    if first == [] {
      QuotaCastsRoundTrip(quota, w.buckets[bucket].quota);
      assert w.buckets[bucket].(quota := ToUInt64(quota)) == w.buckets[bucket];
      assert w.buckets[bucket := w.buckets[bucket]] == w.buckets;
    } else {
      ExecOne(w, first[0]);
    }
  }

  lemma CreationCallsEffect(w: World, bucket: string, quota: Int64, paths: seq<string>)
    requires bucket !in w.buckets
    ensures Exec(w, [CreateBucket(bucket), SetQuota(bucket, quota)] + CreateCalls(bucket, paths))
         == WithBucket(w, bucket, BackendBucket(ToUInt64(quota), MarkersOf(paths)))
  {
    var create, limit := CreateBucket(bucket), SetQuota(bucket, quota);
    var x := WithBucket(w, bucket, BackendBucket(ToUInt64(quota), {}));
    NewBucketEffect(w, bucket, quota);
    ExecAppend(w, [create, limit], CreateCalls(bucket, paths));
    CreateCallsEffect(x, bucket, paths);
    var b := BackendBucket(ToUInt64(quota), MarkersOf(paths));
    assert {} + MarkersOf(paths) == MarkersOf(paths);
    assert x.buckets[bucket := b] == w.buckets[bucket := b];
  }

  lemma NewBucketEffect(w: World, bucket: string, quota: Int64)
    requires bucket !in w.buckets
    ensures Exec(w, [CreateBucket(bucket), SetQuota(bucket, quota)])
         == WithBucket(w, bucket, BackendBucket(ToUInt64(quota), {}))
  {
    var v := Apply(w, CreateBucket(bucket));
    assert v.buckets == w.buckets[bucket := BackendBucket(0, {})];
    ExecSnoc(w, [CreateBucket(bucket)], SetQuota(bucket, quota));
    ExecOne(w, CreateBucket(bucket));
    assert [CreateBucket(bucket)] + [SetQuota(bucket, quota)] == [CreateBucket(bucket), SetQuota(bucket, quota)];
    var b := BackendBucket(ToUInt64(quota), {});
    assert v.buckets[bucket := b] == w.buckets[bucket := b];
  }

  /** The quantity the pass needs is an int64: the default on creation, the wanted one on update. */
  predicate QuotaKnown(w: World, u: Spec)
    requires u.BucketSpec?
  {
    if u.bucket in w.buckets then WantedQuota(u).Some? else u.defaultQuota.Some?
  }

  /** The bucket a fault-free pass leaves: on creation with the default quota, on update with the wanted one. */
  function PassBucket(w: World, u: Spec): BackendBucket
    requires u.BucketSpec? && QuotaKnown(w, u)
  {
    if u.bucket in w.buckets then
      BackendBucket(ToUInt64(WantedQuota(u).value), w.buckets[u.bucket].objects + MarkersOf(u.paths))
    else BackendBucket(ToUInt64(u.defaultQuota.value), MarkersOf(u.paths))
  }

  /** A pass reports success: the Bucket is live, its client is available and the quantity it needs is an int64. */
  ghost predicate Succeeds(w: World, id: Id) {
    && HasBucket(w, id) && !w.resources[id].deleting
    && ClientFor(w, id.namespace, w.resources[id].spec.s3InstanceRef).Client?
    && QuotaKnown(w, w.resources[id].spec)
  }

  /** The Bucket can be reconciled: it is live, its client is available and its quantities are int64. */
  ghost predicate Reconcilable(w: World, id: Id) {
    && HasBucket(w, id) && !w.resources[id].deleting
    && ClientFor(w, id.namespace, w.resources[id].spec.s3InstanceRef).Client?
    && w.resources[id].spec.defaultQuota.Some? && w.resources[id].spec.overrideQuota.Some?
  }

  /** The opening does not change the client. */
  lemma ClientIgnoresOpening(w: World, id: Id)
    requires HasBucket(w, id)
    ensures
      var r := w.resources[id];
      ClientFor(WithResource(w, id, Started(r)), id.namespace, r.spec.s3InstanceRef)
        == ClientFor(w, id.namespace, r.spec.s3InstanceRef)
  {
    var r := w.resources[id];
    if InstanceOf(r.spec.s3InstanceRef, id.namespace) != id {
      ClientReadsInstanceOnly(w, WithResource(w, id, Started(r)), id.namespace, r.spec.s3InstanceRef);
    }
  }

  /** The calls of a successful pass after its opening. */
  function PassCalls(w: World, u: Spec): seq<Action>
    requires u.BucketSpec? && QuotaKnown(w, u)
  {
    if u.bucket in w.buckets then
      var first := QuotaCalls(w, u.bucket, WantedQuota(u).value);
      first + MissingCalls(Exec(w, first), u.bucket, u.paths)
    else
      [CreateBucket(u.bucket), SetQuota(u.bucket, u.defaultQuota.value)] + CreateCalls(u.bucket, u.paths)
  }

  lemma PassPlan(w: World, id: Id, cfg: Config)
    requires Succeeds(w, id)
    ensures
      var r := w.resources[id];
      var v := WithResource(w, id, Started(r));
      ReconcilePlan(w, id, cfg)
        == After(StartCalls(id, r), After(PassCalls(v, r.spec), Succeeded(id, Started(r), cfg)))
  {
    ClientIgnoresOpening(w, id);
  }

  /** A pass changes the one bucket and the resource's own status, and nothing else. */
  lemma PassEffect(w: World, id: Id, cfg: Config)
    requires Succeeds(w, id)
    ensures
      var p := ReconcilePlan(w, id, cfg);
      var u := w.resources[id].spec;
      var v := Exec(w, p.actions);
      && v == WithBucket(w, u.bucket, PassBucket(w, u)).(resources := v.resources)
      && p.outcome == Finished(cfg.reconcilePeriod)
  {
    var r := w.resources[id];
    var s, u := Started(r), r.spec;
    var v := WithResource(w, id, s);
    PassPlan(w, id, cfg);
    StartCallsEffect(w, id);
    var calls, done := PassCalls(v, u), Succeeded(id, s, cfg).actions;
    ExecAppend(w, StartCalls(id, r), calls + done);
    if u.bucket in v.buckets {
      UpdateCallsEffect(v, u.bucket, WantedQuota(u).value, u.paths);
    } else {
      CreationCallsEffect(v, u.bucket, u.defaultQuota.value, u.paths);
    }
    ExecAppend(v, calls, done);
    ReportOnly(Exec(v, calls), id, s, Reconciled, Success, None, cfg.reconcilePeriod);
  }

  // ---------- convergence ----------

  /** The quota is the override if it is not zero, else the default, and every path has its marker. */
  predicate Converged(w: World, u: Spec)
    requires u.BucketSpec?
  {
    && u.bucket in w.buckets
    && HasWantedQuota(w.buckets[u.bucket], u)
    && MarkersOf(u.paths) <= w.buckets[u.bucket].objects
  }

  /** One pass is enough exactly when the bucket was there or its override changes nothing. */
  lemma OnePassExactly(w: World, id: Id, cfg: Config)
    requires Reconcilable(w, id)
    ensures
      var u := w.resources[id].spec;
      Converged(Exec(w, ReconcilePlan(w, id, cfg).actions), u) <==>
        u.bucket in w.buckets || u.overrideQuota.value == 0 || u.overrideQuota == u.defaultQuota
  {
    PassEffect(w, id, cfg);
    PassConvergesExactly(w, w.resources[id].spec);
  }

  /** The bucket a pass leaves has the wanted quota exactly when it was there or the default is the wanted one. */
  lemma PassConvergesExactly(w: World, u: Spec)
    requires u.BucketSpec? && u.defaultQuota.Some? && u.overrideQuota.Some?
    ensures HasWantedQuota(PassBucket(w, u), u) <==>
      u.bucket in w.buckets || u.overrideQuota.value == 0 || u.overrideQuota == u.defaultQuota
    ensures MarkersOf(u.paths) <= PassBucket(w, u).objects
  {
    QuotaIsHeld(PassBucket(w, u), u.defaultQuota.value);
    QuotaIsHeld(PassBucket(w, u), u.overrideQuota.value);
    QuotaCastsRoundTrip(u.defaultQuota.value, 0);
    QuotaCastsRoundTrip(u.overrideQuota.value, 0);
  }

  lemma PassKeepsReconcilable(w: World, id: Id, cfg: Config)
    requires Reconcilable(w, id)
    ensures
      var v := Exec(w, ReconcilePlan(w, id, cfg).actions);
      Reconcilable(v, id) && v.resources[id].spec == w.resources[id].spec
  {
    var r := w.resources[id];
    var done := ReconcilePlan(w, id, cfg).actions;
    BucketPlanEntitled(w, id, cfg);
    var iid := InstanceOf(r.spec.s3InstanceRef, id.namespace);
    OnlyOwnResource(w, done, id, cfg, iid);
    LiveStays(w, done, id, cfg);
    ClientReadsInstanceOnly(w, Exec(w, done), id.namespace, r.spec.s3InstanceRef);
  }

  /**
   * From any world, an interrupted creation's included, two passes converge. No object is ever removed, and
   * no object, bucket, user, policy or Secret other than the missing markers is touched.
   */
  lemma TwoPassesConverge(w: World, id: Id, cfg: Config)
    requires Reconcilable(w, id)
    ensures
      var u := w.resources[id].spec;
      var v := Exec(w, ReconcilePlan(w, id, cfg).actions);
      var x := Exec(v, ReconcilePlan(v, id, cfg).actions);
      && Converged(x, u)
      && x.buckets[u.bucket].objects
           == (if u.bucket in w.buckets then w.buckets[u.bucket].objects else {}) + MarkersOf(u.paths)
      && x == w.(buckets := w.buckets[u.bucket := x.buckets[u.bucket]], resources := x.resources)
      && forall p :: p in u.paths && p != "" && p[0] != '/' ==> p + "/.keep" in x.buckets[u.bucket].objects
  {
    var u := w.resources[id].spec;
    var v := Exec(w, ReconcilePlan(w, id, cfg).actions);
    MarkersAreKeeps(u.paths);
    PassEffect(w, id, cfg);
    PassKeepsReconcilable(w, id, cfg);
    PassEffect(v, id, cfg);
    TwoPassBuckets(w, v, Exec(v, ReconcilePlan(v, id, cfg).actions), u);
  }

  /** The second pass finds the bucket, and sets the wanted quota. */
  lemma TwoPassBuckets(w: World, v: World, x: World, u: Spec)
    requires u.BucketSpec? && QuotaKnown(w, u) && WantedQuota(u).Some?
    requires v == WithBucket(w, u.bucket, PassBucket(w, u)).(resources := v.resources)
    requires x == WithBucket(v, u.bucket, PassBucket(v, u)).(resources := x.resources)
    ensures Converged(x, u)
    ensures x.buckets[u.bucket].objects
         == (if u.bucket in w.buckets then w.buckets[u.bucket].objects else {}) + MarkersOf(u.paths)
    ensures x == w.(buckets := w.buckets[u.bucket := x.buckets[u.bucket]], resources := x.resources)
  {
    QuotaCastsRoundTrip(WantedQuota(u).value, 0);
    var first, second := PassBucket(w, u), PassBucket(v, u);
    assert second == BackendBucket(ToUInt64(WantedQuota(u).value), first.objects + MarkersOf(u.paths));
    assert first.objects + MarkersOf(u.paths) == first.objects;
    assert w.buckets[u.bucket := first][u.bucket := second] == w.buckets[u.bucket := second];
  }

  // ---------- the protocol ----------

  lemma BucketBodyEntitled(w: World, id: Id, r: Resource, cfg: Config)
    requires id in w.resources && w.resources[id] == r && r.spec.BucketSpec? && !r.deleting && Operator in r.finalizers
    ensures Guarded(w, HandleReconciliationPlan(w, id, r, cfg).actions, EntitledFor(id, cfg))
  {
    MissingCallsOwn(w, id, r);
    PlainGuarded(w, HandleReconciliationPlan(w, id, r, cfg).actions, id, cfg);
  }

  /** What an update creates are paths of the spec, in the spec's bucket. */
  lemma {:induction false} MissingAreListed(w: World, bucket: string, paths: seq<string>)
    ensures forall a :: a in MissingCalls(w, bucket, paths) ==>
      a.CreatePath? && a.bucket == bucket && a.path in paths
    decreases |paths|
  {
    if paths != [] {
      MissingAreListed(w, bucket, paths[1..]);
      MissingAreListed(Apply(w, CreatePath(bucket, paths[0])), bucket, paths[1..]);
    }
  }

  lemma MissingCallsOwn(w: World, id: Id, r: Resource)
    requires r.spec.BucketSpec? && !r.deleting
    ensures forall v, i | 0 <= i < |MissingCalls(v, r.spec.bucket, r.spec.paths)| ::
      Plain(MissingCalls(v, r.spec.bucket, r.spec.paths)[i], id, r)
  {
    forall v, i | 0 <= i < |MissingCalls(v, r.spec.bucket, r.spec.paths)|
      ensures Plain(MissingCalls(v, r.spec.bucket, r.spec.paths)[i], id, r)
    {
      MissingAreListed(v, r.spec.bucket, r.spec.paths);
      var calls := MissingCalls(v, r.spec.bucket, r.spec.paths);
      assert calls[i] in calls;
    }
  }

  lemma BucketPlanEntitled(w: World, id: Id, cfg: Config)
    requires HasBucket(w, id)
    ensures Guarded(w, ReconcilePlan(w, id, cfg).actions, EntitledFor(id, cfg))
  {
    var r := w.resources[id];
    var s := Started(r);
    var v := WithResource(w, id, s);
    StartEntitled(w, id, cfg);
    if !Blocked(r) {
      StartCallsEffect(w, id);
      var body :=
        if r.deleting then DeletionPlan(v, id, s, cfg, DeleteBucket(r.spec.bucket))
        else HandleReconciliationPlan(v, id, s, cfg);
      if r.deleting {
        DeletionEntitled(v, id, s, cfg, DeleteBucket(r.spec.bucket));
      } else {
        BucketBodyEntitled(v, id, s, cfg);
      }
      GuardedAppend(w, StartCalls(id, r), body.actions, EntitledFor(id, cfg));
    }
  }

  /** Every reconcile of a Bucket, interrupted anywhere, keeps the protocol. */
  lemma BucketKeepsProtocol(w: World, id: Id, cfg: Config, done: seq<Action>)
    requires HasBucket(w, id)
    requires Follows(done, ReconcilePlan(w, id, cfg).actions, id, FailureReasons(w.resources[id]))
    ensures Guarded(w, done, EntitledFor(id, cfg))
  {
    BucketPlanEntitled(w, id, cfg);
    InterruptedEntitled(w, done, ReconcilePlan(w, id, cfg).actions, id, cfg, FailureReasons(w.resources[id]));
  }

  // ---------- deletion ----------

  /** The Bucket is marked for deletion, its finalizer is stored and its client is available. */
  ghost predicate Deletable(w: World, id: Id, enabled: bool) {
    && HasBucket(w, id) && w.resources[id].deleting && Operator in w.resources[id].finalizers
    && var client := ClientFor(w, id.namespace, w.resources[id].spec.s3InstanceRef);
       client.Client? && client.instance.bucketDeletionEnabled == enabled
  }

  ghost predicate Released(w: World, id: Id) {
    id in w.resources ==> Operator !in w.resources[id].finalizers
  }

  lemma DeletionPlanIs(w: World, id: Id, cfg: Config, enabled: bool)
    requires Deletable(w, id, enabled)
    ensures
      var r := w.resources[id];
      var call := DeleteBucket(r.spec.bucket);
      ReconcilePlan(w, id, cfg).actions == StartCalls(id, r) +
        if !enabled then [RemoveFinalizer(id)]
        else if Permitted(w, call) then [call, RemoveFinalizer(id)]
        else Report(id, Started(r), DeletionFailure, FinalizeSite, Some(Refused), cfg.reconcilePeriod).actions
  {
    ClientIgnoresOpening(w, id);
  }

  lemma FinalizerGoes(w: World, id: Id)
    requires id in w.resources
    ensures Released(Apply(w, RemoveFinalizer(id)), id)
    ensures Apply(w, RemoveFinalizer(id)).buckets == w.buckets
  {
  }

  /** A fault-free deletion lets the resource go exactly when it may keep the bucket or the bucket is there, empty. */
  lemma DeletionExactly(w: World, id: Id, cfg: Config, enabled: bool)
    requires Deletable(w, id, enabled)
    ensures
      var bucket := w.resources[id].spec.bucket;
      var x := Exec(w, ReconcilePlan(w, id, cfg).actions);
      && (Released(x, id) <==> !enabled || (bucket in w.buckets && w.buckets[bucket].objects == {}))
      && x.buckets == if enabled && Released(x, id) then w.buckets - {bucket} else w.buckets
  {
    var r := w.resources[id];
    var s := Started(r);
    var v := WithResource(w, id, s);
    var call := DeleteBucket(r.spec.bucket);
    var x := Exec(w, ReconcilePlan(w, id, cfg).actions);
    DeletionPlanIs(w, id, cfg, enabled);
    StartCallsEffect(w, id);
    if !enabled {
      ExecAppend(w, StartCalls(id, r), [RemoveFinalizer(id)]);
      ExecOne(v, RemoveFinalizer(id));
      FinalizerGoes(v, id);
    } else if Permitted(w, call) {
      ExecAppend(w, StartCalls(id, r), [call, RemoveFinalizer(id)]);
      ExecSnoc(v, [call], RemoveFinalizer(id));
      ExecOne(v, call);
      FinalizerGoes(Apply(v, call), id);
      assert [call] + [RemoveFinalizer(id)] == [call, RemoveFinalizer(id)];
    } else {
      var report := Report(id, s, DeletionFailure, FinalizeSite, Some(Refused), cfg.reconcilePeriod).actions;
      ExecAppend(w, StartCalls(id, r), report);
      ReportKeepsFinalizer(v, id, s, cfg);
    }
  }

  lemma ReportKeepsFinalizer(v: World, id: Id, s: Resource, cfg: Config)
    requires id in v.resources && v.resources[id] == s && Operator in s.finalizers
    ensures
      var x := Exec(v, Report(id, s, DeletionFailure, FinalizeSite, Some(Refused), cfg.reconcilePeriod).actions);
      !Released(x, id) && x.buckets == v.buckets
  {
    var report := Report(id, s, DeletionFailure, FinalizeSite, Some(Refused), cfg.reconcilePeriod).actions;
    if report != [] {
      ExecOne(v, report[0]);
      FinalizersKept(v, report[0], id);
    }
  }

  /**
   * Bucket deletion is not retry-safe: stopped between its two calls it does not finish when done again,
   * since the backend refuses to delete a bucket that is gone.
   */
  lemma InterruptedDeletionSticks(w: World, id: Id, cfg: Config)
    requires Deletable(w, id, true)
    requires var b := w.resources[id].spec.bucket; b in w.buckets && w.buckets[b].objects == {}
    ensures
      var r := w.resources[id];
      var done := StartCalls(id, r) + [DeleteBucket(r.spec.bucket)];
      var x := Exec(w, done);
      && done <= ReconcilePlan(w, id, cfg).actions
      && Deletable(x, id, true)
      && !Released(Exec(x, ReconcilePlan(x, id, cfg).actions), id)
  {
    var r := w.resources[id];
    var v := WithResource(w, id, Started(r));
    var call := DeleteBucket(r.spec.bucket);
    DeletionPlanIs(w, id, cfg, true);
    StartCallsEffect(w, id);
    ExecSnoc(w, StartCalls(id, r), call);
    var x := Apply(v, call);
    assert x == v.(buckets := v.buckets - {r.spec.bucket});
    ClientIgnoresOpening(w, id);
    ClientReadsInstanceOnly(v, x, id.namespace, r.spec.s3InstanceRef);
    DeletionExactly(x, id, cfg, true);
  }

  // ---------- retrying a deletion ----------

  /** Status writes change the resource's conditions and nothing else. */
  lemma {:induction false} OnlyConditions(w: World, done: seq<Action>, id: Id)
    requires id in w.resources && OnlyStatus(done, id)
    ensures
      var x := Exec(w, done);
      && id in x.resources
      && x == WithResource(w, id, w.resources[id].(conditions := x.resources[id].conditions))
    decreases |done|
  {
    if done == [] {
      WithResourceSame(w, id);
      assert w.resources[id].(conditions := w.resources[id].conditions) == w.resources[id];
    } else {
      var a := done[0];
      assert a in done && a == SetCondition(id, a.condition);
      var r := w.resources[id].(conditions := Upsert(w.resources[id].conditions, a.condition));
      var v := Apply(w, a);
      assert v == WithResource(w, id, r);
      OnlyConditions(v, done[1..], id);
      var last := r.(conditions := Exec(w, done).resources[id].conditions);
      assert w.resources[id := r][id := last] == w.resources[id := last];
    }
  }

  /** Other conditions leave the deletion as it was. */
  lemma ConditionsKeepDeletable(w: World, x: World, id: Id, enabled: bool)
    requires Deletable(w, id, enabled) && id in x.resources
    requires x == WithResource(w, id, w.resources[id].(conditions := x.resources[id].conditions))
    ensures Deletable(x, id, enabled) && x.buckets == w.buckets
  {
    var ref := w.resources[id].spec.s3InstanceRef;
    if InstanceOf(ref, id.namespace) != id {
      ClientReadsInstanceOnly(w, x, id.namespace, ref);
    }
  }

  /** A resource released once stays so through its reconciles. */
  lemma ReleasedStays(x: World, id: Id, cfg: Config)
    requires Released(x, id) && (id in x.resources ==> HasBucket(x, id) && x.resources[id].deleting)
    ensures Released(Exec(x, ReconcilePlan(x, id, cfg).actions), id)
  {
    if id in x.resources {
      OnlyConditions(x, StatusCalls(id, x.resources[id]), id);
    }
  }

  /** There is a bucket to delete, and it may be. */
  predicate Deletes(w: World, id: Id, enabled: bool)
    requires HasBucket(w, id)
  {
    var bucket := w.resources[id].spec.bucket;
    enabled && bucket in w.buckets && w.buckets[bucket].objects == {}
  }

  /** A fault-free reconcile releases the resource. */
  ghost predicate Releases(x: World, id: Id, cfg: Config) {
    Released(Exec(x, ReconcilePlan(x, id, cfg).actions), id)
  }

  /** What releases it, from a world in which the deletion can be done. */
  lemma ReleasesExactly(x: World, id: Id, cfg: Config, enabled: bool)
    requires Deletable(x, id, enabled)
    ensures Releases(x, id, cfg) <==> !enabled || Deletes(x, id, enabled)
  {
    DeletionExactly(x, id, cfg, enabled);
  }

  /** The calls of a deletion that are not status writes. */
  function LastCalls(w: World, id: Id, enabled: bool): seq<Action>
    requires Deletable(w, id, enabled)
  {
    if !enabled then [RemoveFinalizer(id)]
    else if Deletes(w, id, enabled) then [DeleteBucket(w.resources[id].spec.bucket), RemoveFinalizer(id)]
    else []
  }

  predicate OnlyStatus(calls: seq<Action>, id: Id) {
    forall a :: a in calls ==> a.SetCondition? && a.id == id
  }

  /** The plan of a deletion: status writes, its calls, and a report if there are none. */
  lemma DeletionPlanSplits(w: World, id: Id, cfg: Config, enabled: bool) returns (report: seq<Action>)
    requires Deletable(w, id, enabled)
    ensures ReconcilePlan(w, id, cfg).actions
         == StartCalls(id, w.resources[id]) + LastCalls(w, id, enabled) + report
    ensures report == [] || LastCalls(w, id, enabled) == []
    ensures OnlyStatus(StartCalls(id, w.resources[id]), id) && OnlyStatus(report, id)
  {
    DeletionPlanIs(w, id, cfg, enabled);
    report := if LastCalls(w, id, enabled) != [] then []
              else Report(id, Started(w.resources[id]), DeletionFailure, FinalizeSite, Some(Refused),
                          cfg.reconcilePeriod).actions;
  }

  lemma PrefixSplits(start: seq<Action>, calls: seq<Action>, report: seq<Action>, prefix: seq<Action>, id: Id)
    returns (first: seq<Action>, n: nat)
    requires prefix <= start + calls + report && (report == [] || calls == [])
    requires OnlyStatus(start, id) && OnlyStatus(report, id)
    ensures n <= |calls| && prefix == first + calls[..n] && OnlyStatus(first, id)
  {
    if calls == [] || |prefix| <= |start| {
      first, n := prefix, 0;
      assert forall a :: a in start + report ==> a in start || a in report;
      assert prefix <= start + report;
      assert forall a :: a in prefix ==> a in start + report;
    } else {
      first, n := start, |prefix| - |start|;
      assert prefix == start + calls[..n];
    }
  }

  /** An interrupted deletion: status writes, some of its calls, status writes. */
  lemma DeletionSplits(w: World, id: Id, cfg: Config, enabled: bool, done: seq<Action>)
    returns (first: seq<Action>, n: nat, last: seq<Action>)
    requires Deletable(w, id, enabled)
    requires Follows(done, ReconcilePlan(w, id, cfg).actions, id, {DeletionFailure})
    ensures n <= |LastCalls(w, id, enabled)| && done == first + LastCalls(w, id, enabled)[..n] + last
    ensures OnlyStatus(first, id) && OnlyStatus(last, id)
  {
    var report := DeletionPlanSplits(w, id, cfg, enabled);
    var prefix: seq<Action>;
    prefix, last := FollowsSplits(done, ReconcilePlan(w, id, cfg).actions, id, {DeletionFailure});
    first, n := PrefixSplits(StartCalls(id, w.resources[id]), LastCalls(w, id, enabled), report, prefix, id);
  }

  /** Between the two calls of a deletion the bucket is gone and the resource still there. */
  lemma HalfDeleted(v: World, id: Id)
    requires Deletable(v, id, true) && Permitted(v, DeleteBucket(v.resources[id].spec.bucket))
    ensures
      var bucket := v.resources[id].spec.bucket;
      var x := Apply(v, DeleteBucket(bucket));
      Deletable(x, id, true) && bucket !in x.buckets && x.resources == v.resources
  {
    var x := Apply(v, DeleteBucket(v.resources[id].spec.bucket));
    assert x.resources == v.resources;
    ClientReadsInstanceOnly(v, x, id.namespace, v.resources[id].spec.s3InstanceRef);
  }

  lemma FinalizerLeaves(v: World, id: Id)
    requires HasBucket(v, id) && v.resources[id].deleting
    ensures
      var x := Apply(v, RemoveFinalizer(id));
      Released(x, id) && (id in x.resources ==> HasBucket(x, id) && x.resources[id].deleting)
  {
  }

  /** The two calls, or the one, up to the n-th. */
  lemma LastCallsLeave(v: World, id: Id, enabled: bool, n: nat)
    requires Deletable(v, id, enabled) && n <= |LastCalls(v, id, enabled)|
    ensures
      var calls := LastCalls(v, id, enabled);
      var x := Exec(v, calls[..n]);
      && (n == 0 ==> x == v)
      && (0 < n == |calls| ==>
            Released(x, id) && (id in x.resources ==> HasBucket(x, id) && x.resources[id].deleting))
      && (0 < n < |calls| ==>
            Deletable(x, id, true) && v.resources[id].spec.bucket !in x.buckets && x.resources == v.resources)
  {
    var calls := LastCalls(v, id, enabled);
    if n == 1 {
      assert calls[..1] == [calls[0]];
      ExecOne(v, calls[0]);
      if |calls| == 1 { FinalizerLeaves(v, id); } else { HalfDeleted(v, id); }
    } else if n == 2 {
      assert calls[..2] == [calls[0]] + [calls[1]];
      ExecSnoc(v, [calls[0]], calls[1]);
      ExecOne(v, calls[0]);
      HalfDeleted(v, id);
      FinalizerLeaves(Apply(v, calls[0]), id);
    }
  }

  /**
   * An interrupted deletion that is done again releases the resource exactly when an uninterrupted one does
   * and it was not stopped after deleting the bucket with the finalizer still stored.
   */
  lemma RetryReleases(w: World, id: Id, cfg: Config, enabled: bool, done: seq<Action>)
    requires Deletable(w, id, enabled)
    requires Follows(done, ReconcilePlan(w, id, cfg).actions, id, {DeletionFailure})
    ensures
      var x := Exec(w, done);
      Releases(x, id, cfg) <==>
        && Releases(w, id, cfg)
        && (DeleteBucket(w.resources[id].spec.bucket) in done ==> RemoveFinalizer(id) in done)
  {
    var first, n, last := DeletionSplits(w, id, cfg, enabled, done);
    ReleasesExactly(w, id, cfg, enabled);
    CallsTell(w, id, enabled, first, n, last);
    RetrySplit(w, id, cfg, enabled, first, n, last);
  }

  /** The retry of an interrupted deletion, by how many of its calls were made. */
  lemma RetrySplit(
    w: World, id: Id, cfg: Config, enabled: bool, first: seq<Action>, n: nat, last: seq<Action>)
    requires Deletable(w, id, enabled) && n <= |LastCalls(w, id, enabled)|
    requires OnlyStatus(first, id) && OnlyStatus(last, id)
    ensures
      var calls := LastCalls(w, id, enabled);
      var x := Exec(w, first + calls[..n] + last);
      Releases(x, id, cfg) <==>
        (if 0 < n < |calls| then false else if n == 0 then !enabled || Deletes(w, id, enabled) else true)
  {
    var calls := LastCalls(w, id, enabled);
    var v := Exec(w, first);
    OnlyConditions(w, first, id);
    ConditionsKeepDeletable(w, v, id, enabled);
    ExecAppend(w, first, calls[..n]);
    ExecAppend(w, first + calls[..n], last);
    LastCallsLeave(v, id, enabled, n);
    RetryAfter(v, Exec(v, calls[..n]), id, cfg, enabled, n, last);
  }

  /** Which of the calls were made shows in the interrupted deletion. */
  lemma CallsTell(w: World, id: Id, enabled: bool, first: seq<Action>, n: nat, last: seq<Action>)
    requires Deletable(w, id, enabled) && n <= |LastCalls(w, id, enabled)|
    requires OnlyStatus(first, id) && OnlyStatus(last, id)
    ensures
      var calls := LastCalls(w, id, enabled);
      var done := first + calls[..n] + last;
      && (RemoveFinalizer(id) in done <==> 0 < n == |calls|)
      && (DeleteBucket(w.resources[id].spec.bucket) in done <==> 0 < n && enabled)
  {
    var calls := LastCalls(w, id, enabled);
    MembersOf(first, calls[..n], last);
    assert n == 1 ==> calls[..n] == [calls[0]];
    assert n == 2 ==> calls[..n] == [calls[0], calls[1]];
  }

  lemma MembersOf(a: seq<Action>, b: seq<Action>, c: seq<Action>)
    ensures forall x :: x in a + b + c <==> x in a || x in b || x in c
  {
  }

  /** The retry of a deletion that stopped at `y`, after a last status write. */
  lemma RetryAfter(v: World, y: World, id: Id, cfg: Config, enabled: bool, n: nat, last: seq<Action>)
    requires Deletable(v, id, enabled) && n <= |LastCalls(v, id, enabled)|
    requires OnlyStatus(last, id)
    requires n == 0 ==> y == v
    requires 0 < n == |LastCalls(v, id, enabled)| ==>
      Released(y, id) && (id in y.resources ==> HasBucket(y, id) && y.resources[id].deleting)
    requires 0 < n < |LastCalls(v, id, enabled)| ==> Deletable(y, id, true) && v.resources[id].spec.bucket !in y.buckets
    requires 0 < n < |LastCalls(v, id, enabled)| ==> y.resources == v.resources
    ensures
      var x := Exec(y, last);
      var calls := LastCalls(v, id, enabled);
      Releases(x, id, cfg) <==>
        (if 0 < n < |calls| then false else if n == 0 then !enabled || Deletes(v, id, enabled) else true)
  {
    var calls := LastCalls(v, id, enabled);
    var x := Exec(y, last);
    if 0 < n == |calls| {
      StatusAfterRelease(y, last, id);
      ReleasedStays(x, id, cfg);
    } else {
      var enabled' := if n == 0 then enabled else true;
      OnlyConditions(y, last, id);
      ConditionsKeepDeletable(y, x, id, enabled');
      ReleasesExactly(x, id, cfg, enabled');
    }
  }

  lemma {:induction false} StatusAfterRelease(y: World, last: seq<Action>, id: Id)
    requires Released(y, id) && (id in y.resources ==> HasBucket(y, id) && y.resources[id].deleting)
    requires OnlyStatus(last, id)
    ensures
      var x := Exec(y, last);
      Released(x, id) && (id in x.resources ==> HasBucket(x, id) && x.resources[id].deleting)
    decreases |last|
  {
    if id in y.resources {
      OnlyConditions(y, last, id);
    } else if last != [] {
      assert last[0] in last && Apply(y, last[0]) == y;
      StatusAfterRelease(y, last[1..], id);
    }
  }

  /** Interrupted anywhere, under any failures, and done again, a deletion releases the resource as one run does. */
  ghost predicate RetrySafe(w: World, id: Id, cfg: Config) {
    forall done ::
      Follows(done, ReconcilePlan(w, id, cfg).actions, id, {DeletionFailure}) ==>
        (Releases(Exec(w, done), id, cfg) <==> Releases(w, id, cfg))
  }

  /** Retry-safe exactly when there is no bucket the deletion would delete: it may not, or it is not there, empty. */
  lemma RetrySafeExactly(w: World, id: Id, cfg: Config, enabled: bool)
    requires Deletable(w, id, enabled)
    ensures
      var bucket := w.resources[id].spec.bucket;
      RetrySafe(w, id, cfg) <==> !(enabled && bucket in w.buckets && w.buckets[bucket].objects == {})
  {
    var bucket := w.resources[id].spec.bucket;
    var plan := ReconcilePlan(w, id, cfg).actions;
    DeletionExactly(w, id, cfg, enabled);
    DeletionPlanIs(w, id, cfg, enabled);
    if enabled && bucket in w.buckets && w.buckets[bucket].objects == {} {
      var done := StartCalls(id, w.resources[id]) + [DeleteBucket(bucket)];
      InterruptedDeletionSticks(w, id, cfg);
      assert Follows(done, plan, id, {DeletionFailure});
    } else {
      forall done | Follows(done, plan, id, {DeletionFailure})
        ensures Releases(Exec(w, done), id, cfg) <==> Releases(w, id, cfg)
      {
        RetryReleases(w, id, cfg, enabled, done);
        NeverDeletes(w, id, cfg, enabled, done);
      }
    }
  }

  lemma NeverDeletes(w: World, id: Id, cfg: Config, enabled: bool, done: seq<Action>)
    requires Deletable(w, id, enabled)
    requires !Deletes(w, id, enabled)
    requires Follows(done, ReconcilePlan(w, id, cfg).actions, id, {DeletionFailure})
    ensures DeleteBucket(w.resources[id].spec.bucket) !in done
  {
    var first, n, last := DeletionSplits(w, id, cfg, enabled, done);
    CallsTell(w, id, enabled, first, n, last);
  }

  // ---------- the Reconciled reason ----------

  lemma StartNoReport(id: Id, r: Resource)
    ensures NoReport(StartCalls(id, r), id)
  {
  }

  lemma NoReportAppend(a: seq<Action>, b: seq<Action>, id: Id)
    requires NoReport(a, id) && NoReport(b, id)
    ensures NoReport(a + b, id)
  {
  }

  /** A pass that does not succeed does not say so. */
  lemma FailureNoReport(w: World, id: Id, cfg: Config)
    requires HasBucket(w, id) && !w.resources[id].deleting && !Succeeds(w, id)
    ensures NoReport(ReconcilePlan(w, id, cfg).actions, id)
  {
    var r := w.resources[id];
    var v := WithResource(w, id, Started(r));
    ClientIgnoresOpening(w, id);
    StartNoReport(id, r);
    var body := HandleReconciliationPlan(v, id, Started(r), cfg);
    assert NoReport(body.actions, id);
    NoReportAppend(StartCalls(id, r), body.actions, id);
  }

  lemma PassCallsNoReport(w: World, u: Spec, id: Id)
    requires u.BucketSpec? && QuotaKnown(w, u)
    ensures NoReport(PassCalls(w, u), id)
  {
    var calls := PassCalls(w, u);
    forall i | 0 <= i < |calls| ensures !ReportsReconciled(calls[i], id) {
      if u.bucket in w.buckets {
        var first := QuotaCalls(w, u.bucket, WantedQuota(u).value);
        MissingAreListed(Exec(w, first), u.bucket, u.paths);
        if i >= |first| {
          assert calls[i] in MissingCalls(Exec(w, first), u.bucket, u.paths);
        }
      }
    }
  }

  /**
   * Under any failures: when a reconcile writes the reason Reconciled, the bucket exists, every path has its marker,
   * and the quota is the default if this reconcile created the bucket, the wanted one otherwise.
   */
  lemma ReconciledIsTruthful(w: World, id: Id, cfg: Config, done: seq<Action>, i: nat)
    requires HasBucket(w, id) && !w.resources[id].deleting
    requires Follows(done, ReconcilePlan(w, id, cfg).actions, id, FailureReasons(w.resources[id]))
    requires i < |done| && ReportsReconciled(done[i], id)
    ensures
      var u := w.resources[id].spec;
      var x := Exec(w, done[..i + 1]);
      && u.bucket in x.buckets
      && MarkersOf(u.paths) <= x.buckets[u.bucket].objects
      && (u.bucket !in w.buckets ==> u.defaultQuota.Some? && HasQuota(x.buckets[u.bucket], u.defaultQuota.value))
      && (u.bucket in w.buckets ==> HasWantedQuota(x.buckets[u.bucket], u))
  {
    var r := w.resources[id];
    var p := ReconcilePlan(w, id, cfg);
    if !Succeeds(w, id) {
      FailureNoReport(w, id, cfg);
      NoReportFollows(done, p.actions, id, FailureReasons(r));
      assert false;
    } else {
      var v := WithResource(w, id, Started(r));
      PassPlan(w, id, cfg);
      PassCallsNoReport(v, r.spec, id);
      AfterNoReport(PassCalls(v, r.spec), Succeeded(id, Started(r), cfg), id);
      StartNoReport(id, r);
      AfterNoReport(StartCalls(id, r), After(PassCalls(v, r.spec), Succeeded(id, Started(r), cfg)), id);
      ReportEnds(done, p, id, FailureReasons(r), i);
      PassEffect(w, id, cfg);
      PassQuota(w, r.spec);
    }
  }

  lemma PassQuota(w: World, u: Spec)
    requires u.BucketSpec? && QuotaKnown(w, u)
    ensures Some(ToInt64(PassBucket(w, u).quota)) == if u.bucket in w.buckets then WantedQuota(u) else u.defaultQuota
    ensures MarkersOf(u.paths) <= PassBucket(w, u).objects
  {
    QuotaCastsRoundTrip(if u.bucket in w.buckets then WantedQuota(u).value else u.defaultQuota.value, 0);
  }
}
