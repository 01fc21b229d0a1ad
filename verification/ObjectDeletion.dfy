/** The deletion of a resource that stands for one backend object: the object first, then the finalizer. */
module ObjectDeletion {
  import opened Collections
  import opened Model
  import opened Effects
  import opened Api
  import opened ControllerHelper
  import opened S3InstanceHelper
  import opened Protocol

  /** Delete the object with `call` if the instance allows it; a refusal is reported and the finalizer kept. */
  function DeletionPlan(w: World, id: Id, r: Resource, cfg: Config, call: Action): Plan
    requires !r.spec.InstanceSpec?
  {
    if Operator !in r.finalizers then Plan([], Finished(0))
    else
      match ClientFor(w, id.namespace, r.spec.s3InstanceRef)
      case Panicked => Plan([], Errored)
      case Unavailable(e) => Report(id, r, DeletionFailure, FinalizeSite, Some(e), cfg.reconcilePeriod)
      case Client(instance) =>
        if !DeletionEnabled(instance, r) then Plan([RemoveFinalizer(id)], Finished(0))
        else if Permitted(w, call) then Plan([call, RemoveFinalizer(id)], Finished(0))
        else Report(id, r, DeletionFailure, FinalizeSite, Some(Refused), cfg.reconcilePeriod)
  }

  method Finalize(api: Cluster, id: Id, r: Resource, call: Action) returns (e: Option<Error>, panicked: bool)
    requires api.Valid() && id in api.w.resources && api.w.resources[id] == r && !r.spec.InstanceSpec?
    requires TouchesBackend(call)
    modifies api`w, api`log, api`faults
    ensures api.Valid() && api.w.resources == old(api.w).resources
    ensures
      var client := ClientFor(old(api.w), id.namespace, r.spec.s3InstanceRef);
      var calls := if client.Client? && DeletionEnabled(client.instance, r) && Permitted(old(api.w), call)
                   then [call] else [];
      && old(api.faults) <= api.faults
      && old(api.log) <= api.log && api.log[|old(api.log)|..] <= calls
      && (api.faults > old(api.faults) ==> e.Some? && !panicked)
      && (api.faults == old(api.faults) ==>
            && panicked == client.Panicked?
            && api.log == old(api.log) + calls
            && e == if client.Unavailable? then Some(client.error)
                    else if client.Client? && DeletionEnabled(client.instance, r) && calls == [] then Some(Refused)
                    else None)
  {
    e, panicked := None, false;
    ghost var log0 := api.log;
    var client := GetS3ClientForRessource(api, id.namespace, r.spec.s3InstanceRef);
    match client {
      case Panicked =>
        panicked := true;
      case Unavailable(error) =>
        e := Some(error);
      case Client(instance) =>
        if DeletionEnabled(instance, r) {
          e := api.Do(call);
          assert api.log[|log0|..] == [] || api.log[|log0|..] == [call];
        }
    }
  }

  /** The last call of every deletion, after the calls `first`. */
  method DropFinalizer(api: Cluster, id: Id, ghost log0: seq<Action>, ghost faults0: nat, ghost first: seq<Action>)
    returns (out: Outcome)
    requires api.Valid() && id in api.w.resources && api.log == log0 + first && api.faults == faults0
    modifies api`w, api`log, api`faults
    ensures api.Valid()
    ensures api.Ran(log0, faults0, Plan(first + [RemoveFinalizer(id)], Finished(0)), id, {DeletionFailure}, out)
  {
    var e := api.Do(RemoveFinalizer(id));
    api.MadeThen(log0, first, faults0, [RemoveFinalizer(id)], e);
    out := if e.Some? then Errored else Finished(0);
  }

  /** A finalization that failed is reported; the calls made before it failed are a prefix of the plan. */
  method ReportFailure(
    api: Cluster, cfg: Config, id: Id, r: Resource, e: Error, ghost log0: seq<Action>, ghost faults0: nat,
    ghost p: Plan) returns (out: Outcome)
    requires api.Valid() && id in api.w.resources && api.w.resources[id] == r
    requires log0 <= api.log && api.log[|log0|..] <= p.actions && faults0 <= api.faults
    requires api.faults == faults0 ==>
      api.log == log0 && p == Report(id, r, DeletionFailure, FinalizeSite, Some(e), cfg.reconcilePeriod)
    modifies api`w, api`log, api`faults
    ensures api.Valid() && api.Ran(log0, faults0, p, id, {DeletionFailure}, out)
  {
    ghost var failed, done := api.faults > faults0, api.log[|log0|..];
    out := SetReconciledCondition(api, id, r, DeletionFailure, FinalizeSite, Some(e), cfg.reconcilePeriod);
    if failed {
      api.RanFailed(log0, done, faults0, p, id, {DeletionFailure}, out);
    }
  }

  method HandleDeletion(api: Cluster, cfg: Config, id: Id, r: Resource, call: Action) returns (out: Outcome)
    requires api.Valid() && id in api.w.resources && api.w.resources[id] == r && !r.spec.InstanceSpec?
    requires TouchesBackend(call)
    modifies api`w, api`log, api`faults
    ensures api.Valid()
    ensures api.Ran(
      old(api.log), old(api.faults), DeletionPlan(old(api.w), id, r, cfg, call), id, {DeletionFailure}, out)
  {
    ghost var w0, log0, faults0 := api.w, api.log, api.faults;
    ghost var p := DeletionPlan(w0, id, r, cfg, call);
    if Operator !in r.finalizers {
      return Finished(0);
    }
    var e, panicked := Finalize(api, id, r, call);
    if panicked {
      return Errored;
    }
    ghost var done := api.log[|log0|..];
    if e.Some? {
      out := ReportFailure(api, cfg, id, r, e.value, log0, faults0, p);
    } else {
      assert p == Plan(done + [RemoveFinalizer(id)], Finished(0));
      out := DropFinalizer(api, id, log0, faults0, done);
    }
  }

  /** The deletion keeps the protocol: the finalizer goes only when the object is gone. */
  lemma DeletionEntitled(w: World, id: Id, r: Resource, cfg: Config, call: Action)
    requires id in w.resources && w.resources[id] == r && r.deleting && Operator in r.finalizers
    requires !r.spec.InstanceSpec? && !r.spec.UserSpec? && OnOwnObject(r, call)
    requires Permitted(w, call) ==> !InBackend(Apply(w, call), r)
    ensures Guarded(w, DeletionPlan(w, id, r, cfg, call).actions, EntitledFor(id, cfg))
  {
    var drop := RemoveFinalizer(id);
    var plan := DeletionPlan(w, id, r, cfg, call).actions;
    match ClientFor(w, id.namespace, r.spec.s3InstanceRef) {
      case Panicked =>
      case Unavailable(e) => ReportEntitled(w, id, cfg, plan);
      case Client(instance) =>
        if !DeletionEnabled(instance, r) {
          assert CleanedUp(w, id);
        } else if Permitted(w, call) {
          var v := Apply(w, call);
          assert v.resources == w.resources;
          ClientReadsInstanceOnly(w, v, id.namespace, r.spec.s3InstanceRef);
          assert CleanedUp(v, id);
          GuardedCons(v, drop, [], EntitledFor(id, cfg));
          GuardedCons(w, call, [drop], EntitledFor(id, cfg));
          assert plan == [call] + [drop];
        } else {
          ReportEntitled(w, id, cfg, plan);
        }
    }
  }
}
