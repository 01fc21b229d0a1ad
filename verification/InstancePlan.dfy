/** What a reconcile of an S3Instance does when no call fails. */
module InstancePlan {
  import opened Collections
  import opened Model
  import opened Effects
  import opened ControllerHelper
  import opened S3InstanceHelper
  import opened Protocol

  predicate HasInstance(w: World, id: Id) {
    id in w.resources && w.resources[id].spec.InstanceSpec?
  }

  /** Some resource refers to the instance. */
  predicate Referenced(w: World, instance: Id) {
    exists other :: other in w.resources && RefersTo(w, other, instance)
  }

  /** With references left the deletion ends in an error and writes nothing, not even a status. */
  function HandleDeletionPlan(w: World, id: Id, r: Resource): Plan {
    if Operator !in r.finalizers then Plan([], Finished(0))
    else if Referenced(w, id) then Plan([], Errored) else Plan([RemoveFinalizer(id)], Finished(0))
  }

  function HandleReconciliationPlan(id: Id, r: Resource, cfg: Config): Plan {
    Report(id, r, Reconciled, Success, None, cfg.reconcilePeriod)
  }

  function ReconcilePlan(w: World, id: Id, cfg: Config): Plan {
    if !HasInstance(w, id) then Plan([], Finished(0))
    else
      var r := w.resources[id];
      var v := WithResource(w, id, Started(r));
      Opening(
        id, r,
        if r.deleting then HandleDeletionPlan(v, id, Started(r)) else HandleReconciliationPlan(id, Started(r), cfg))
  }

  function FailureReasons(r: Resource): set<Reason> {
    if r.deleting then {} else {Unreachable, CreationFailure}
  }

  /** A fault-free deletion drops the finalizer exactly when no resource would look its client up under the instance. */
  lemma DeletionExactly(w: World, id: Id, cfg: Config)
    requires HasInstance(w, id) && w.resources[id].deleting && Operator in w.resources[id].finalizers
    requires id.kind == S3InstanceKind && forall j :: j in w.resources ==> '/' !in j.namespace
    ensures
      var x := Exec(w, ReconcilePlan(w, id, cfg).actions);
      (id in x.resources ==> Operator !in x.resources[id].finalizers) <==>
        forall j :: j in w.resources && !w.resources[j].spec.InstanceSpec? ==>
          InstanceOf(w.resources[j].spec.s3InstanceRef, j.namespace) != id
  {
    var r := w.resources[id];
    var v := WithResource(w, id, Started(r));
    StartCallsEffect(w, id);
    ExecAppend(w, StartCalls(id, r), HandleDeletionPlan(v, id, Started(r)).actions);
    ReleasedUnlessReferenced(v, id);
    forall j | j in w.resources && !w.resources[j].spec.InstanceSpec?
      ensures RefersTo(v, j, id) <==> InstanceOf(w.resources[j].spec.s3InstanceRef, j.namespace) == id
    {
      RefersToIsLookup(v, j, id);
    }
  }

  lemma ReleasedUnlessReferenced(v: World, id: Id)
    requires id in v.resources && v.resources[id].deleting && Operator in v.resources[id].finalizers
    ensures
      var x := Exec(v, HandleDeletionPlan(v, id, v.resources[id]).actions);
      (id in x.resources ==> Operator !in x.resources[id].finalizers) <==> !Referenced(v, id)
  {
    if !Referenced(v, id) { ExecOne(v, RemoveFinalizer(id)); }
  }

  /** Every reconcile of an S3Instance, interrupted anywhere, keeps the protocol. */
  lemma InstanceKeepsProtocol(w: World, id: Id, cfg: Config, done: seq<Action>)
    requires HasInstance(w, id)
    requires Follows(done, ReconcilePlan(w, id, cfg).actions, id, FailureReasons(w.resources[id]))
    ensures Guarded(w, done, EntitledFor(id, cfg))
  {
    var r := w.resources[id];
    var v := WithResource(w, id, Started(r));
    StartEntitled(w, id, cfg);
    if !Blocked(r) {
      StartCallsEffect(w, id);
      if r.deleting {
        var body := HandleDeletionPlan(v, id, Started(r)).actions;
        assert body != [] ==> Unreferenced(v, id);
        assert Guarded(v, body, EntitledFor(id, cfg));
        GuardedAppend(w, StartCalls(id, r), body, EntitledFor(id, cfg));
      } else {
        var body := HandleReconciliationPlan(id, Started(r), cfg).actions;
        ReportEntitled(v, id, cfg, body);
        GuardedAppend(w, StartCalls(id, r), body, EntitledFor(id, cfg));
      }
    }
    InterruptedEntitled(w, done, ReconcilePlan(w, id, cfg).actions, id, cfg, FailureReasons(r));
  }
}
