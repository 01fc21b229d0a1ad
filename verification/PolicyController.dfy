/** The Policy controller, call by call. */
module PolicyController {
  import opened Collections
  import opened Model
  import opened Effects
  import opened Api
  import opened ControllerHelper
  import opened S3InstanceHelper
  import opened PolicyContent
  import opened PolicyPlan
  import ObjectDeletion

  predicate Current(w: World, id: Id, r: Resource) {
    id in w.resources && w.resources[id] == r && r.spec.PolicySpec?
  }

  class PolicyReconciler {
    const api: Cluster
    const cfg: Config
    const json: string -> bool

    constructor (api: Cluster, cfg: Config, json: string -> bool)
      ensures this.api == api && this.cfg == cfg && this.json == json
    {
      this.api := api;
      this.cfg := cfg;
      this.json := json;
    }

    /** Write the document, after which the reconcile has succeeded. */
    method Put(id: Id, r: Resource) returns (out: Outcome)
      requires api.Valid() && Current(api.w, id, r)
      modifies api`w, api`log, api`faults
      ensures api.Valid()
      ensures api.Ran(
        old(api.log), old(api.faults), After(PutCalls(r.spec), Succeeded(id, r, cfg)), id, {Unreachable}, out)
    {
      ghost var log0, faults0 := api.log, api.faults;
      ghost var calls := PutCalls(r.spec);
      var e := api.Do(PutPolicy(r.spec.policy, r.spec.content));
      if e.Some? {
        out := Fail(api, cfg.reconcilePeriod, id, r, Unreachable, CreateSite, e.value,
                    log0, api.log[|log0|..], faults0, After(calls, Succeeded(id, r, cfg)), {Unreachable});
        return;
      }
      out := SetReconciledCondition(api, id, r, Reconciled, Success, None, cfg.reconcilePeriod);
      api.RanAfter(log0, calls, faults0, Succeeded(id, r, cfg), id, {}, out);
    }

    method HandleCreation(id: Id, r: Resource) returns (out: Outcome)
      requires api.Valid() && Current(api.w, id, r)
      requires ClientFor(api.w, id.namespace, r.spec.s3InstanceRef).Client?
      modifies api`w, api`log, api`faults
      ensures api.Valid()
      ensures api.Ran(
        old(api.log), old(api.faults), After(PutCalls(r.spec), Succeeded(id, r, cfg)), id, {Unreachable}, out)
    {
      ghost var log0, faults0 := api.log, api.faults;
      var client := GetS3ClientForRessource(api, id.namespace, r.spec.s3InstanceRef);
      if client.Unavailable? {
        out := Fail(api, cfg.reconcilePeriod, id, r, Unreachable, ClientSite, client.error,
                    log0, [], faults0, After(PutCalls(r.spec), Succeeded(id, r, cfg)), {Unreachable});
        return;
      }
      out := Put(id, r);
    }

    method HandleUpdate(id: Id, r: Resource) returns (out: Outcome)
      requires api.Valid() && Current(api.w, id, r) && r.spec.policy in api.w.policies
      requires ClientFor(api.w, id.namespace, r.spec.s3InstanceRef).Client?
      modifies api`w, api`log, api`faults
      ensures api.Valid()
      ensures api.Ran(
        old(api.log), old(api.faults), HandleUpdatePlan(old(api.w), id, r, cfg, json), id, {Unreachable}, out)
    {
      ghost var log0, faults0 := api.log, api.faults;
      ghost var p := HandleUpdatePlan(api.w, id, r, cfg, json);
      var client := GetS3ClientForRessource(api, id.namespace, r.spec.s3InstanceRef);
      if client.Unavailable? {
        out := Fail(api, cfg.reconcilePeriod, id, r, Unreachable, ClientSite, client.error,
                    log0, [], faults0, p, {Unreachable});
        return;
      }
      var e := api.Ask();
      if e.Some? {
        out := Fail(api, cfg.reconcilePeriod, id, r, Unreachable, ExistenceSite, e.value,
                    log0, [], faults0, p, {Unreachable});
        return;
      }
      if !json(r.spec.content) || !json(api.w.policies[r.spec.policy]) {
        out := SetReconciledCondition(
          api, id, r, Unreachable, ComparisonSite, Some(InvalidJson), cfg.reconcilePeriod);
        return;
      }
      if Matching(r.spec.content, api.w.policies[r.spec.policy]) {
        out := SetReconciledCondition(api, id, r, Reconciled, Success, None, cfg.reconcilePeriod);
        api.RanAfter(log0, [], faults0, Succeeded(id, r, cfg), id, {}, out);
      } else {
        out := Put(id, r);
      }
    }

    method HandleReconciliation(id: Id, r: Resource) returns (out: Outcome)
      requires api.Valid() && Current(api.w, id, r)
      modifies api`w, api`log, api`faults
      ensures api.Valid()
      ensures api.Ran(
        old(api.log), old(api.faults), HandleReconciliationPlan(old(api.w), id, r, cfg, json), id, {Unreachable}, out)
    {
      ghost var w0, log0, faults0 := api.w, api.log, api.faults;
      ghost var p := HandleReconciliationPlan(w0, id, r, cfg, json);
      var client := GetS3ClientForRessource(api, id.namespace, r.spec.s3InstanceRef);
      if client.Panicked? {
        return Errored;
      }
      if client.Unavailable? {
        out := ReportUnavailable(api, cfg.reconcilePeriod, id, r, client.error, log0, faults0, p, {Unreachable});
        return;
      }
      out := CreateOrUpdate(id, r);
    }

    /** The part of HandleReconciliation that has a client. */
    method CreateOrUpdate(id: Id, r: Resource) returns (out: Outcome)
      requires api.Valid() && Current(api.w, id, r)
      requires ClientFor(api.w, id.namespace, r.spec.s3InstanceRef).Client?
      modifies api`w, api`log, api`faults
      ensures api.Valid()
      ensures api.Ran(
        old(api.log), old(api.faults), HandleReconciliationPlan(old(api.w), id, r, cfg, json), id, {Unreachable}, out)
    {
      ghost var log0, faults0 := api.log, api.faults;
      ghost var p := HandleReconciliationPlan(api.w, id, r, cfg, json);
      var e := api.Ask();
      if e.Some? {
        out := Fail(api, cfg.reconcilePeriod, id, r, Unreachable, ExistenceSite, e.value,
                    log0, [], faults0, p, {Unreachable});
        return;
      }
      if r.spec.policy !in api.w.policies {
        out := HandleCreation(id, r);
      } else {
        out := HandleUpdate(id, r);
      }
    }

    /** Under any failures the calls made are an interruption of the plan; without failures they are the plan. */
    method Reconcile(id: Id) returns (out: Outcome)
      requires api.Valid()
      modifies api`w, api`log, api`faults
      ensures api.Valid()
      ensures api.Ran(
        old(api.log), old(api.faults), ReconcilePlan(old(api.w), id, cfg, json), id,
        if HasPolicy(old(api.w), id) then FailureReasons(old(api.w).resources[id]) else {}, out)
    {
      ghost var w0, log0, faults0 := api.w, api.log, api.faults;
      var e := api.Ask();
      if e.Some? {
        return Errored;
      }
      if id !in api.w.resources || !api.w.resources[id].spec.PolicySpec? {
        return Finished(0);
      }
      ghost var r0 := w0.resources[id];
      var r: Resource;
      e, r := Start(api, id);
      if e.Some? {
        ghost var v := WithResource(w0, id, Started(r0));
        ghost var body :=
          if r0.deleting then ObjectDeletion.DeletionPlan(v, id, Started(r0), cfg, DeletePolicy(r0.spec.policy))
          else HandleReconciliationPlan(v, id, Started(r0), cfg, json);
        StoppedEarlyRan(api, log0, faults0, id, r0, body, FailureReasons(r0));
        return Errored;
      }
      ghost var v := api.w;
      if r.deleting {
        out := ObjectDeletion.HandleDeletion(api, cfg, id, r, DeletePolicy(r.spec.policy));
        api.RanAfter(log0, StartCalls(id, r0), faults0,
                     ObjectDeletion.DeletionPlan(v, id, r, cfg, DeletePolicy(r.spec.policy)),
                     id, {DeletionFailure}, out);
      } else {
        out := HandleReconciliation(id, r);
        api.RanAfter(log0, StartCalls(id, r0), faults0, HandleReconciliationPlan(v, id, r, cfg, json),
                     id, {Unreachable}, out);
      }
    }
  }
}
