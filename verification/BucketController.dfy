/** The Bucket controller, call by call. */
module BucketController {
  import opened Collections
  import opened Model
  import opened Effects
  import opened Api
  import opened ControllerHelper
  import opened S3InstanceHelper
  import opened Markers
  import opened BucketPlan
  import ObjectDeletion

  predicate Current(w: World, id: Id, r: Resource) {
    id in w.resources && w.resources[id] == r && r.spec.BucketSpec?
  }

  const LIVE_REASONS: set<Reason> := {Unreachable, CreationFailure}

  class BucketReconciler {
    const api: Cluster
    const cfg: Config

    constructor (api: Cluster, cfg: Config)
      ensures this.api == api && this.cfg == cfg
    {
      this.api := api;
      this.cfg := cfg;
    }

    /** Reset the quota if the effective one differs. */
    method ResetQuota(bucket: string, quota: Int64) returns (e: Option<Error>)
      requires api.Valid() && bucket in api.w.buckets
      modifies api`w, api`log, api`faults
      ensures api.Valid() && api.w.resources == old(api.w).resources && bucket in api.w.buckets
      ensures api.Made(old(api.log), old(api.faults), QuotaCalls(old(api.w), bucket, quota), e)
      ensures e.None? ==> api.w == Exec(old(api.w), QuotaCalls(old(api.w), bucket, quota))
    {
      ExecOne(api.w, SetQuota(bucket, quota));
      e := api.Ask();
      if e.None? && ToInt64(api.w.buckets[bucket].quota) != quota {
        e := api.Do(SetQuota(bucket, quota));
      }
    }

    method HandleUpdate(id: Id, r: Resource) returns (out: Outcome)
      requires api.Valid() && Current(api.w, id, r) && r.spec.bucket in api.w.buckets
      requires ClientFor(api.w, id.namespace, r.spec.s3InstanceRef).Client?
      modifies api`w, api`log, api`faults
      ensures api.Valid()
      ensures api.Ran(old(api.log), old(api.faults), HandleUpdatePlan(old(api.w), id, r, cfg), id, LIVE_REASONS, out)
    {
      ghost var w0, log0, faults0 := api.w, api.log, api.faults;
      ghost var p := HandleUpdatePlan(w0, id, r, cfg);
      var client := GetS3ClientForRessource(api, id.namespace, r.spec.s3InstanceRef);
      if client.Unavailable? {
        out := Fail(api, cfg.reconcilePeriod, id, r, Unreachable, ClientSite, client.error,
                    log0, [], faults0, p, LIVE_REASONS);
        return;
      }
      var e := api.Ask();
      if e.Some? {
        out := Fail(api, cfg.reconcilePeriod, id, r, Unreachable, QuotaSite, e.value,
                    log0, [], faults0, p, LIVE_REASONS);
        return;
      }
      if r.spec.overrideQuota.None? {
        out := SetReconciledCondition(api, id, r, Unreachable, ConversionSite, None, cfg.reconcilePeriod);
        return;
      }
      var quotaToResetTo := r.spec.overrideQuota.value;
      if quotaToResetTo == 0 {
        if r.spec.defaultQuota.None? {
          out := SetReconciledCondition(api, id, r, Unreachable, ConversionSite, None, cfg.reconcilePeriod);
          return;
        }
        quotaToResetTo := r.spec.defaultQuota.value;
      }
      out := ApplyUpdate(id, r, quotaToResetTo);
    }

    /** The calls of an update: the quota, then the missing paths. */
    method UpdateBucket(bucket: string, quota: Int64, paths: seq<string>) returns (e: Option<Error>, site: Site)
      requires api.Valid() && bucket in api.w.buckets
      modifies api`w, api`log, api`faults
      ensures api.Valid() && api.w.resources == old(api.w).resources
      ensures
        var first := QuotaCalls(old(api.w), bucket, quota);
        api.Made(old(api.log), old(api.faults), first + MissingCalls(Exec(old(api.w), first), bucket, paths), e)
    {
      ghost var w0, log0, faults0 := api.w, api.log, api.faults;
      ghost var first := QuotaCalls(w0, bucket, quota);
      e := ResetQuota(bucket, quota);
      site := QuotaSite;
      if e.Some? {
        api.MadeStopped(log0, first, MissingCalls(Exec(w0, first), bucket, paths), faults0, e);
        return;
      }
      e := CreateMissingPaths(api, bucket, paths);
      site := PathSite;
      api.MadeThen(log0, first, faults0, MissingCalls(Exec(w0, first), bucket, paths), e);
    }

    method ApplyUpdate(id: Id, r: Resource, quota: Int64) returns (out: Outcome)
      requires api.Valid() && Current(api.w, id, r) && r.spec.bucket in api.w.buckets
      requires WantedQuota(r.spec) == Some(quota)
      modifies api`w, api`log, api`faults
      ensures api.Valid()
      ensures api.Ran(old(api.log), old(api.faults), HandleUpdatePlan(old(api.w), id, r, cfg), id, LIVE_REASONS, out)
    {
      ghost var w0, log0, faults0 := api.w, api.log, api.faults;
      ghost var first := QuotaCalls(w0, r.spec.bucket, quota);
      ghost var calls := first + MissingCalls(Exec(w0, first), r.spec.bucket, r.spec.paths);
      var e, site := UpdateBucket(r.spec.bucket, quota, r.spec.paths);
      out := Conclude(id, r, e, site, log0, faults0, calls);
    }

    /** What follows the calls of an update or a creation: a report of their failure, or of success. */
    method Conclude(id: Id, r: Resource, e: Option<Error>, site: Site, ghost log0: seq<Action>,
                    ghost faults0: nat, ghost calls: seq<Action>) returns (out: Outcome)
      requires api.Valid() && Current(api.w, id, r) && api.Made(log0, faults0, calls, e)
      modifies api`w, api`log, api`faults
      ensures api.Valid()
      ensures api.Ran(log0, faults0, After(calls, Succeeded(id, r, cfg)), id, LIVE_REASONS, out)
    {
      if e.Some? {
        out := Fail(api, cfg.reconcilePeriod, id, r, Unreachable, site, e.value,
                    log0, api.log[|log0|..], faults0, After(calls, Succeeded(id, r, cfg)), LIVE_REASONS);
      } else {
        out := SetReconciledCondition(api, id, r, Reconciled, Success, None, cfg.reconcilePeriod);
        api.RanAfter(log0, calls, faults0, Succeeded(id, r, cfg), id, {}, out);
      }
    }

    method HandleCreation(id: Id, r: Resource) returns (out: Outcome)
      requires api.Valid() && Current(api.w, id, r) && r.spec.bucket !in api.w.buckets
      requires ClientFor(api.w, id.namespace, r.spec.s3InstanceRef).Client?
      modifies api`w, api`log, api`faults
      ensures api.Valid()
      ensures api.Ran(old(api.log), old(api.faults), HandleCreationPlan(id, r, cfg), id, LIVE_REASONS, out)
    {
      ghost var log0, faults0 := api.log, api.faults;
      ghost var p := HandleCreationPlan(id, r, cfg);
      var client := GetS3ClientForRessource(api, id.namespace, r.spec.s3InstanceRef);
      if client.Unavailable? {
        out := Fail(api, cfg.reconcilePeriod, id, r, Unreachable, ClientSite, client.error,
                    log0, [], faults0, p, LIVE_REASONS);
        return;
      }
      ghost var create := [CreateBucket(r.spec.bucket)];
      var e := api.Do(CreateBucket(r.spec.bucket));
      if e.Some? {
        ghost var done := api.log[|log0|..];
        assert create <= p.actions;
        out := Fail(api, cfg.reconcilePeriod, id, r, CreationFailure, CreateSite, e.value,
                    log0, done, faults0, p, LIVE_REASONS);
        return;
      }
      if r.spec.defaultQuota.None? {
        out := SetReconciledCondition(api, id, r, CreationFailure, ConversionSite, None, cfg.reconcilePeriod);
        api.RanAfter(log0, create, faults0, Unconverted(id, r, CreationFailure, cfg), id, {}, out);
        return;
      }
      out := FillBucket(id, r, log0, faults0);
    }

    /** A bucket just created gets its default quota, then its paths. */
    method FillBucket(id: Id, r: Resource, ghost log0: seq<Action>, ghost faults0: nat) returns (out: Outcome)
      requires api.Valid() && Current(api.w, id, r) && r.spec.bucket in api.w.buckets && r.spec.defaultQuota.Some?
      requires api.log == log0 + [CreateBucket(r.spec.bucket)] && api.faults == faults0
      modifies api`w, api`log, api`faults
      ensures api.Valid()
      ensures api.Ran(log0, faults0, HandleCreationPlan(id, r, cfg), id, LIVE_REASONS, out)
    {
      var bucket := r.spec.bucket;
      ghost var create, quota := [CreateBucket(bucket)], [SetQuota(bucket, r.spec.defaultQuota.value)];
      ghost var paths := CreateCalls(bucket, r.spec.paths);
      var e := api.Do(SetQuota(bucket, r.spec.defaultQuota.value));
      api.MadeThen(log0, create, faults0, quota, e);
      var site := QuotaSite;
      if e.None? {
        e := CreatePaths(api, bucket, r.spec.paths);
        api.MadeThen(log0, create + quota, faults0, paths, e);
        site := PathSite;
      } else {
        api.MadeStopped(log0, create + quota, paths, faults0, e);
      }
      assert HandleCreationPlan(id, r, cfg) == After(create + quota + paths, Succeeded(id, r, cfg));
      out := Conclude(id, r, e, site, log0, faults0, create + quota + paths);
    }

    method HandleReconciliation(id: Id, r: Resource) returns (out: Outcome)
      requires api.Valid() && Current(api.w, id, r)
      modifies api`w, api`log, api`faults
      ensures api.Valid()
      ensures api.Ran(
        old(api.log), old(api.faults), HandleReconciliationPlan(old(api.w), id, r, cfg), id, LIVE_REASONS, out)
    {
      ghost var w0, log0, faults0 := api.w, api.log, api.faults;
      ghost var p := HandleReconciliationPlan(w0, id, r, cfg);
      var client := GetS3ClientForRessource(api, id.namespace, r.spec.s3InstanceRef);
      if client.Panicked? {
        return Errored;
      }
      if client.Unavailable? {
        out := ReportUnavailable(api, cfg.reconcilePeriod, id, r, client.error, log0, faults0, p, LIVE_REASONS);
        return;
      }
      out := CreateOrUpdate(id, r);
    }

    /** The part of HandleReconciliation that has a client. */
    method CreateOrUpdate(id: Id, r: Resource) returns (out: Outcome)
      requires api.Valid() && Current(api.w, id, r)
      requires ClientFor(api.w, id.namespace, r.spec.s3InstanceRef).Client?
      modifies api`w, api`log, api`faults
      ensures api.Valid()
      ensures api.Ran(
        old(api.log), old(api.faults), HandleReconciliationPlan(old(api.w), id, r, cfg), id, LIVE_REASONS, out)
    {
      ghost var log0, faults0 := api.log, api.faults;
      ghost var p := HandleReconciliationPlan(api.w, id, r, cfg);
      var e := api.Ask();
      if e.Some? {
        out := Fail(api, cfg.reconcilePeriod, id, r, Unreachable, ExistenceSite, e.value,
                    log0, [], faults0, p, LIVE_REASONS);
        return;
      }
      if r.spec.bucket !in api.w.buckets {
        out := HandleCreation(id, r);
      } else {
        out := HandleUpdate(id, r);
      }
    }

    /** Under any failures the calls made are an interruption of the plan; without failures they are the plan. */
    method Reconcile(id: Id) returns (out: Outcome)
      requires api.Valid()
      modifies api`w, api`log, api`faults
      ensures api.Valid()
      ensures api.Ran(
        old(api.log), old(api.faults), ReconcilePlan(old(api.w), id, cfg), id,
        if HasBucket(old(api.w), id) then FailureReasons(old(api.w).resources[id]) else {}, out)
    {
      ghost var w0, log0, faults0 := api.w, api.log, api.faults;
      var e := api.Ask();
      if e.Some? {
        return Errored;
      }
      if id !in api.w.resources || !api.w.resources[id].spec.BucketSpec? {
        return Finished(0);
      }
      ghost var r0 := w0.resources[id];
      var r: Resource;
      e, r := Start(api, id);
      if e.Some? {
        ghost var v := WithResource(w0, id, Started(r0));
        ghost var body :=
          if r0.deleting then ObjectDeletion.DeletionPlan(v, id, Started(r0), cfg, DeleteBucket(r0.spec.bucket))
          else HandleReconciliationPlan(v, id, Started(r0), cfg);
        StoppedEarlyRan(api, log0, faults0, id, r0, body, FailureReasons(r0));
        return Errored;
      }
      ghost var v := api.w;
      if r.deleting {
        out := ObjectDeletion.HandleDeletion(api, cfg, id, r, DeleteBucket(r.spec.bucket));
        api.RanAfter(log0, StartCalls(id, r0), faults0,
                     ObjectDeletion.DeletionPlan(v, id, r, cfg, DeleteBucket(r.spec.bucket)),
                     id, {DeletionFailure}, out);
      } else {
        out := HandleReconciliation(id, r);
        api.RanAfter(log0, StartCalls(id, r0), faults0, HandleReconciliationPlan(v, id, r, cfg), id, LIVE_REASONS, out);
      }
    }
  }
}
