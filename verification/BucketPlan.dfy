/** What a reconcile of a Bucket does when no call fails. */
module BucketPlan {
  import opened Collections
  import opened Model
  import opened Effects
  import opened ControllerHelper
  import opened S3InstanceHelper
  import opened Markers
  import opened ObjectDeletion

  predicate HasBucket(w: World, id: Id) {
    id in w.resources && w.resources[id].spec.BucketSpec?
  }

  /** A quantity that is no int64 ends the reconcile without an error: the condition is True, the reason is not. */
  function Unconverted(id: Id, r: Resource, reason: Reason, cfg: Config): Plan {
    Report(id, r, reason, ConversionSite, None, cfg.reconcilePeriod)
  }

  function Succeeded(id: Id, r: Resource, cfg: Config): Plan {
    Report(id, r, Reconciled, Success, None, cfg.reconcilePeriod)
  }

  /** The override if it is there and not zero, else the default; none if the one looked at is no int64. */
  function WantedQuota(u: Spec): Option<Int64>
    requires u.BucketSpec?
  {
    if u.overrideQuota.None? then None
    else if u.overrideQuota.value == 0 then u.defaultQuota
    else u.overrideQuota
  }

  function QuotaCalls(w: World, bucket: string, quota: Int64): seq<Action>
    requires bucket in w.buckets
  {
    if ToInt64(w.buckets[bucket].quota) != quota then [SetQuota(bucket, quota)] else []
  }

  function HandleUpdatePlan(w: World, id: Id, r: Resource, cfg: Config): Plan
    requires r.spec.BucketSpec? && r.spec.bucket in w.buckets
  {
    var u := r.spec;
    if WantedQuota(u).None? then Unconverted(id, r, Unreachable, cfg)
    else
      var quota := QuotaCalls(w, u.bucket, WantedQuota(u).value);
      After(quota + MissingCalls(Exec(w, quota), u.bucket, u.paths), Succeeded(id, r, cfg))
  }

  function HandleCreationPlan(id: Id, r: Resource, cfg: Config): Plan
    requires r.spec.BucketSpec?
  {
    var u := r.spec;
    if u.defaultQuota.None? then After([CreateBucket(u.bucket)], Unconverted(id, r, CreationFailure, cfg))
    else
      After([CreateBucket(u.bucket), SetQuota(u.bucket, u.defaultQuota.value)] + CreateCalls(u.bucket, u.paths),
            Succeeded(id, r, cfg))
  }

  function HandleReconciliationPlan(w: World, id: Id, r: Resource, cfg: Config): Plan
    requires r.spec.BucketSpec?
  {
    match ClientFor(w, id.namespace, r.spec.s3InstanceRef)
    case Panicked => Plan([], Errored)
    case Unavailable(e) => Report(id, r, Unreachable, ClientSite, Some(e), cfg.reconcilePeriod)
    case Client(_) =>
      if r.spec.bucket !in w.buckets then HandleCreationPlan(id, r, cfg) else HandleUpdatePlan(w, id, r, cfg)
  }

  function ReconcilePlan(w: World, id: Id, cfg: Config): Plan {
    if !HasBucket(w, id) then Plan([], Finished(0))
    else
      var r := w.resources[id];
      var v := WithResource(w, id, Started(r));
      Opening(
        id, r,
        if r.deleting then DeletionPlan(v, id, Started(r), cfg, DeleteBucket(r.spec.bucket))
        else HandleReconciliationPlan(v, id, Started(r), cfg))
  }

  function FailureReasons(r: Resource): set<Reason> {
    if r.deleting then {DeletionFailure} else {Unreachable, CreationFailure}
  }
}
