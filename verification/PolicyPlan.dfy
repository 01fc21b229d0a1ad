/** What a reconcile of a Policy does when no call fails. `json` tells the valid JSON documents. */
module PolicyPlan {
  import opened Collections
  import opened Model
  import opened Effects
  import opened ControllerHelper
  import opened S3InstanceHelper
  import opened PolicyContent
  import opened ObjectDeletion

  predicate HasPolicy(w: World, id: Id) {
    id in w.resources && w.resources[id].spec.PolicySpec?
  }

  function Succeeded(id: Id, r: Resource, cfg: Config): Plan {
    Report(id, r, Reconciled, Success, None, cfg.reconcilePeriod)
  }

  function PutCalls(u: Spec): seq<Action>
    requires u.PolicySpec?
  {
    [PutPolicy(u.policy, u.content)]
  }

  function HandleUpdatePlan(w: World, id: Id, r: Resource, cfg: Config, json: string -> bool): Plan
    requires r.spec.PolicySpec? && r.spec.policy in w.policies
  {
    var u := r.spec;
    if !json(u.content) || !json(w.policies[u.policy]) then
      Report(id, r, Unreachable, ComparisonSite, Some(InvalidJson), cfg.reconcilePeriod)
    else
      After(if Matching(u.content, w.policies[u.policy]) then [] else PutCalls(u), Succeeded(id, r, cfg))
  }

  function HandleReconciliationPlan(w: World, id: Id, r: Resource, cfg: Config, json: string -> bool): Plan
    requires r.spec.PolicySpec?
  {
    match ClientFor(w, id.namespace, r.spec.s3InstanceRef)
    case Panicked => Plan([], Errored)
    case Unavailable(e) => Report(id, r, Unreachable, ClientSite, Some(e), cfg.reconcilePeriod)
    case Client(_) =>
      if r.spec.policy !in w.policies then After(PutCalls(r.spec), Succeeded(id, r, cfg))
      else HandleUpdatePlan(w, id, r, cfg, json)
  }

  function ReconcilePlan(w: World, id: Id, cfg: Config, json: string -> bool): Plan {
    if !HasPolicy(w, id) then Plan([], Finished(0))
    else
      var r := w.resources[id];
      var v := WithResource(w, id, Started(r));
      Opening(
        id, r,
        if r.deleting then DeletionPlan(v, id, Started(r), cfg, DeletePolicy(r.spec.policy))
        else HandleReconciliationPlan(v, id, Started(r), cfg, json))
  }

  function FailureReasons(r: Resource): set<Reason> {
    if r.deleting then {DeletionFailure} else {Unreachable}
  }
}
