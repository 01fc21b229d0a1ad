/**
 * The operator process: one reconcile of one controller after another. Whatever calls fail, each is a step
 * of the runs over which the properties of the system are proved.
 */
module Operator {
  import opened Collections
  import opened Model
  import opened Effects
  import opened Api
  import opened SystemRuns
  import opened PasswordGenerator
  import UserPlan
  import BucketPlan
  import PolicyPlan
  import InstancePlan
  import UserRecovery
  import UserKeys
  import UserController
  import BucketController
  import PathController
  import PolicyController
  import InstanceController

  /** A reconcile that ran a plan made the calls of an interruption, and left the world they lead to. */
  lemma RanIsStep(
    api: Cluster, log0: seq<Action>, faults0: nat, p: Plan, id: Id, reasons: set<Reason>, out: Outcome,
    cfg: Config, json: string -> bool)
    requires api.Valid() && api.Ran(log0, faults0, p, id, reasons, out)
    requires forall done :: Follows(done, p.actions, id, reasons) ==>
      MayReconcile(Exec(api.start, log0), id, cfg, json, done)
    ensures OperatorStep(Exec(api.start, log0), api.w, cfg, json)
    ensures MayReconcile(Exec(api.start, log0), id, cfg, json, api.log[|log0|..])
  {
    api.RanLeadsTo(log0, faults0, p, id, reasons, out);
  }

  /**
   * An S3User's reconcile is also a step of the runs after which the user recovers,
   * and what it logged has the key the random source leads to.
   */
  method ReconcileUser(api: Cluster, id: Id, cfg: Config, json: string -> bool, tape: Tape) returns (out: Outcome)
    requires api.Valid()
    modifies api`w, api`log, api`faults
    ensures api.Valid() && old(api.log) <= api.log
    ensures OperatorStep(old(api.w), api.w, cfg, json)
    ensures MayReconcile(old(api.w), id, cfg, json, api.log[|old(api.log)|..])
    ensures UserPlan.HasUser(old(api.w), id) ==> UserRecovery.Crashes(old(api.w), api.w, id, cfg)
    ensures UserPlan.HasUser(old(api.w), id) ==>
      var r := old(api.w).resources[id];
      var config := UserKeys.ConfigOf(old(api.w), id.namespace, r.spec.s3InstanceRef);
      var g := UserKeys.Given(KeyOf(tape), old(api.w).secrets, config);
      forall a :: a in api.log[|old(api.log)|..] ==> UserKeys.KeyCall(a, id, r.spec, cfg, g)
  {
    ghost var w0, log0, faults0 := api.w, api.log, api.faults;
    var reconciler := new UserController.S3UserReconciler(api, cfg);
    ghost var ch;
    out, ch := reconciler.Reconcile(id, tape);
    ghost var p := UserPlan.ReconcilePlan(w0, id, cfg, ch);
    ghost var reasons :=
      if UserPlan.HasUser(w0, id) then UserPlan.FailureReasons(w0.resources[id]) else {};
    RanIsStep(api, log0, faults0, p, id, reasons, out, cfg, json);
    api.RanLeadsTo(log0, faults0, p, id, reasons, out);
    if UserPlan.HasUser(w0, id) {
      UserKeys.KeysOfCalls(w0, id, cfg, ch, api.log[|log0|..]);
    }
  }

  method ReconcileBucket(api: Cluster, id: Id, cfg: Config, json: string -> bool) returns (out: Outcome)
    requires api.Valid()
    modifies api`w, api`log, api`faults
    ensures api.Valid() && old(api.log) <= api.log
    ensures OperatorStep(old(api.w), api.w, cfg, json)
    ensures MayReconcile(old(api.w), id, cfg, json, api.log[|old(api.log)|..])
  {
    ghost var w0, log0, faults0 := api.w, api.log, api.faults;
    var reconciler := new BucketController.BucketReconciler(api, cfg);
    out := reconciler.Reconcile(id);
    RanIsStep(
      api, log0, faults0, BucketPlan.ReconcilePlan(w0, id, cfg), id,
      if BucketPlan.HasBucket(w0, id) then BucketPlan.FailureReasons(w0.resources[id]) else {}, out, cfg, json);
  }

  method ReconcilePath(api: Cluster, id: Id, cfg: Config, json: string -> bool) returns (out: Outcome)
    requires api.Valid()
    modifies api`w, api`log, api`faults
    ensures api.Valid() && old(api.log) <= api.log
    ensures OperatorStep(old(api.w), api.w, cfg, json)
    ensures MayReconcile(old(api.w), id, cfg, json, api.log[|old(api.log)|..])
  {
    ghost var w0, log0 := api.w, api.log;
    var reconciler := new PathController.PathReconciler(api, cfg);
    ghost var seen;
    out, seen := reconciler.Reconcile(id);
    ghost var done := api.log[|log0|..];
    ExecAppend(api.start, log0, done);
    assert api.log == log0 + done;
    assert MayReconcile(w0, id, cfg, json, done) && api.w == Exec(w0, done);
  }

  method ReconcilePolicy(api: Cluster, id: Id, cfg: Config, json: string -> bool) returns (out: Outcome)
    requires api.Valid()
    modifies api`w, api`log, api`faults
    ensures api.Valid() && old(api.log) <= api.log
    ensures OperatorStep(old(api.w), api.w, cfg, json)
    ensures MayReconcile(old(api.w), id, cfg, json, api.log[|old(api.log)|..])
  {
    ghost var w0, log0, faults0 := api.w, api.log, api.faults;
    var reconciler := new PolicyController.PolicyReconciler(api, cfg, json);
    out := reconciler.Reconcile(id);
    RanIsStep(
      api, log0, faults0, PolicyPlan.ReconcilePlan(w0, id, cfg, json), id,
      if PolicyPlan.HasPolicy(w0, id) then PolicyPlan.FailureReasons(w0.resources[id]) else {}, out, cfg, json);
  }

  method ReconcileInstance(api: Cluster, id: Id, cfg: Config, json: string -> bool) returns (out: Outcome)
    requires api.Valid()
    modifies api`w, api`log, api`faults, api`listings
    ensures api.Valid() && old(api.log) <= api.log
    ensures OperatorStep(old(api.w), api.w, cfg, json)
    ensures MayReconcile(old(api.w), id, cfg, json, api.log[|old(api.log)|..])
  {
    ghost var w0, log0, faults0 := api.w, api.log, api.faults;
    var reconciler := new InstanceController.S3InstanceReconciler(api, cfg);
    out := reconciler.Reconcile(id);
    RanIsStep(
      api, log0, faults0, InstancePlan.ReconcilePlan(w0, id, cfg), id,
      if InstancePlan.HasInstance(w0, id) then InstancePlan.FailureReasons(w0.resources[id]) else {}, out, cfg, json);
  }
}
