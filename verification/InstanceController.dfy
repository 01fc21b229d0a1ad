/** The S3Instance controller, call by call. */
module InstanceController {
  import opened Collections
  import opened Model
  import opened Effects
  import opened Api
  import opened ControllerHelper
  import opened S3InstanceHelper
  import opened InstancePlan
  import opened Reports

  predicate Current(w: World, id: Id, r: Resource) {
    id in w.resources && w.resources[id] == r && r.spec.InstanceSpec?
  }

  /** A list holds a reference exactly when its count is not zero. */
  lemma {:induction false} CountIsPositive(w: World, ids: seq<Id>, instance: Id)
    ensures CountIn(w, ids, instance) > 0 <==> exists id :: id in ids && RefersTo(w, id, instance)
  {
    if ids != [] {
      CountIsPositive(w, ids[1..], instance);
      assert ids == [ids[0]] + ids[1..];
    }
  }

  const LIVE_REASONS: set<Reason> := {Unreachable, CreationFailure}

  /** The reason Reconciled was written since the log had `n` calls. */
  predicate SaysReconciled(log: seq<Action>, n: nat, id: Id) {
    exists i :: n <= i < |log| && ReportsReconciled(log[i], id)
  }

  class S3InstanceReconciler {
    const api: Cluster
    const cfg: Config

    constructor (api: Cluster, cfg: Config)
      ensures this.api == api && this.cfg == cfg
    {
      this.api := api;
      this.cfg := cfg;
    }

    /** List one kind and count its references. */
    method CountKind(kind: Kind, instance: Id) returns (e: Option<Error>, found: nat)
      requires api.Valid()
      modifies api`faults
      ensures api.Valid() && old(api.faults) <= api.faults
      ensures api.faults == old(api.faults) <==> e.None?
      ensures e.None? ==>
        (found > 0 <==> exists id ::
           id in api.w.resources && KindOf(api.w.resources[id].spec) == kind && RefersTo(api.w, id, instance))
    {
      found := 0;
      e := api.Ask();
      if e.Some? {
        return;
      }
      var ids := Enumerate(set id | id in api.w.resources && KindOf(api.w.resources[id].spec) == kind);
      assert forall id :: id in ids <==> id in SetOf(ids);
      CountIsPositive(api.w, ids, instance);
      found := CountReferences(api.w, ids, instance);
    }

    /** Look at the four kinds, in whatever order the map is iterated. */
    method CheckS3InstanceReferences(instance: Id) returns (clear: bool)
      requires api.Valid()
      modifies api`faults
      ensures api.Valid() && old(api.faults) <= api.faults
      ensures clear ==> api.faults == old(api.faults)
      ensures api.faults == old(api.faults) ==> clear == !Referenced(api.w, instance)
    {
      var kinds := Enumerate({BucketKind, PolicyKind, PathKind, S3UserKind});
      assert forall k :: k in kinds <==> k in SetOf(kinds);
      for i := 0 to |kinds|
        invariant api.Valid() && api.faults == old(api.faults)
        invariant forall id :: id in api.w.resources && KindOf(api.w.resources[id].spec) in kinds[..i] ==>
          !RefersTo(api.w, id, instance)
      {
        var e, found := CountKind(kinds[i], instance);
        if e.Some? || found > 0 {
          return false;
        }
      }
      assert kinds[..|kinds|] == kinds;
      return true;
    }

    method HandleDeletion(id: Id, r: Resource) returns (out: Outcome)
      requires api.Valid() && Current(api.w, id, r)
      modifies api`w, api`log, api`faults
      ensures api.Valid()
      ensures api.Ran(old(api.log), old(api.faults), HandleDeletionPlan(old(api.w), id, r), id, {}, out)
      ensures old(api.log) <= api.log && !SaysReconciled(api.log, |old(api.log)|, id)
    {
      if Operator !in r.finalizers {
        return Finished(0);
      }
      ghost var log0 := api.log;
      var clear := CheckS3InstanceReferences(id);
      if !clear {
        return Errored;
      }
      var e := api.Do(RemoveFinalizer(id));
      assert api.log[|log0|..] == [] || api.log[|log0|..] == [RemoveFinalizer(id)];
      return if e.Some? then Errored else Finished(0);
    }

    /** Only a client that lists its buckets makes the instance Reconciled. */
    method HandleReconciliation(id: Id, r: Resource) returns (out: Outcome)
      requires api.Valid() && Current(api.w, id, r)
      modifies api`w, api`log, api`faults, api`listings
      ensures api.Valid()
      ensures api.Ran(old(api.log), old(api.faults), HandleReconciliationPlan(id, r, cfg), id, LIVE_REASONS, out)
      ensures old(api.log) <= api.log
      ensures SaysReconciled(api.log, |old(api.log)|, id) || out.Finished? ==> api.listings > old(api.listings)
    {
      ghost var log0, faults0 := api.log, api.faults;
      ghost var p := HandleReconciliationPlan(id, r, cfg);
      var e := api.Ask();
      if e.Some? {
        out := Fail(api, cfg.reconcilePeriod, id, r, Unreachable, ClientSite, e.value,
                    log0, [], faults0, p, LIVE_REASONS);
        FailureSaysNothing(id, r, Unreachable, ClientSite, e.value, log0, api.log);
        return;
      }
      e := api.ListBuckets();
      if e.Some? {
        out := Fail(api, cfg.reconcilePeriod, id, r, CreationFailure, ExistenceSite, e.value,
                    log0, [], faults0, p, LIVE_REASONS);
        FailureSaysNothing(id, r, CreationFailure, ExistenceSite, e.value, log0, api.log);
        return;
      }
      out := SetReconciledCondition(api, id, r, Reconciled, Success, None, cfg.reconcilePeriod);
      api.RanMore(log0, faults0, p, id, {}, LIVE_REASONS, out);
    }

    /** The reconcile past its opening. */
    method Proceed(id: Id, r: Resource, ghost w0: World, ghost log0: seq<Action>, ghost faults0: nat)
      returns (out: Outcome)
      requires api.Valid() && Current(api.w, id, r) && HasInstance(w0, id) && !Blocked(w0.resources[id])
      requires r == Started(w0.resources[id]) && api.w == WithResource(w0, id, r)
      requires api.log == log0 + StartCalls(id, w0.resources[id]) && api.faults == faults0
      modifies api`w, api`log, api`faults, api`listings
      ensures api.Valid()
      ensures api.Ran(log0, faults0, ReconcilePlan(w0, id, cfg), id, FailureReasons(w0.resources[id]), out)
      ensures old(api.log) <= api.log
      ensures SaysReconciled(api.log, |old(api.log)|, id) ==> api.listings > old(api.listings)
    {
      ghost var v, start := api.w, StartCalls(id, w0.resources[id]);
      if r.deleting {
        out := HandleDeletion(id, r);
        api.RanAfter(log0, start, faults0, HandleDeletionPlan(v, id, r), id, {}, out);
      } else {
        out := HandleReconciliation(id, r);
        api.RanAfter(log0, start, faults0, HandleReconciliationPlan(id, r, cfg), id, LIVE_REASONS, out);
      }
    }

    /**
     * Under any failures the calls made are an interruption of the plan; without failures they are the plan.
     * Reconciled is written only if the buckets were listed.
     */
    method Reconcile(id: Id) returns (out: Outcome)
      requires api.Valid()
      modifies api`w, api`log, api`faults, api`listings
      ensures api.Valid()
      ensures api.Ran(
        old(api.log), old(api.faults), ReconcilePlan(old(api.w), id, cfg), id,
        if HasInstance(old(api.w), id) then FailureReasons(old(api.w).resources[id]) else {}, out)
      ensures SaysReconciled(api.log, |old(api.log)|, id) ==> api.listings > old(api.listings)
    {
      ghost var w0, log0, faults0 := api.w, api.log, api.faults;
      var e := api.Ask();
      if e.Some? {
        return Errored;
      }
      if id !in api.w.resources || !api.w.resources[id].spec.InstanceSpec? {
        return Finished(0);
      }
      ghost var r0 := w0.resources[id];
      var r: Resource;
      e, r := Start(api, id);
      if e.Some? {
        StoppedRan(api, w0, id, cfg, log0, faults0);
        return Errored;
      }
      out := Proceed(id, r, w0, log0, faults0);
      if SaysReconciled(api.log, |log0|, id) {
        OpeningSaysNothing(id, r0, log0, api.log);
      }
    }
  }

  /** The report of a failure does not say Reconciled. */
  lemma FailureSaysNothing(
    id: Id, r: Resource, reason: Reason, site: Site, e: Error, log0: seq<Action>, log: seq<Action>)
    requires reason != Reconciled
    requires log == log0 || log == log0 + [SetCondition(id, NewCondition(r, reason, site, Some(e)))]
    ensures log0 <= log && !SaysReconciled(log, |log0|, id)
  {
  }

  lemma StoppedRan(api: Cluster, w0: World, id: Id, cfg: Config, log0: seq<Action>, faults0: nat)
    requires HasInstance(w0, id) && StoppedEarly(api, log0, faults0, id, w0.resources[id])
    ensures api.Ran(log0, faults0, ReconcilePlan(w0, id, cfg), id, FailureReasons(w0.resources[id]), Errored)
    ensures !SaysReconciled(api.log, |log0|, id)
  {
    var r0 := w0.resources[id];
    var v := WithResource(w0, id, Started(r0));
    var body :=
      if r0.deleting then HandleDeletionPlan(v, id, Started(r0)) else HandleReconciliationPlan(id, Started(r0), cfg);
    StoppedEarlyRan(api, log0, faults0, id, r0, body, FailureReasons(r0));
    var recent := api.log[|log0|..];
    forall i | |log0| <= i < |api.log| ensures !ReportsReconciled(api.log[i], id) {
      assert api.log[i] == recent[i - |log0|] == StartCalls(id, r0)[i - |log0|];
    }
  }

  lemma OpeningSaysNothing(id: Id, r0: Resource, log0: seq<Action>, log: seq<Action>)
    requires log0 <= log
    requires SaysReconciled(log, |log0|, id) && log0 + StartCalls(id, r0) <= log
    ensures SaysReconciled(log, |log0 + StartCalls(id, r0)|, id)
  {
    var start := StartCalls(id, r0);
    forall k | |log0| <= k < |log0 + start| ensures !ReportsReconciled(log[k], id) {
      assert log[k] == (log0 + start)[k] == start[k - |log0|];
    }
    var i :| |log0| <= i < |log| && ReportsReconciled(log[i], id);
    assert i >= |log0 + start|;
  }
}
