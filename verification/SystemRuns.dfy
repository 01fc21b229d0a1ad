/**
 * Runs of all five controllers over one cluster: no backend object outlives the resource it was created for,
 * and no S3Instance goes while something refers to it.
 */
module SystemRuns {
  import opened Collections
  import opened Model
  import opened Effects
  import opened S3InstanceHelper
  import opened Protocol
  import UserPlan
  import UserProtocol
  import BucketPlan
  import BucketTheorems
  import PathPlan
  import PathController
  import PathTheorems
  import PolicyPlan
  import PolicyTheorems
  import InstancePlan

  // ---------- one step of the operator ----------

  /** The calls a reconcile of `id` may have made, whichever kind it is and wherever it was interrupted. */
  ghost predicate MayReconcile(w: World, id: Id, cfg: Config, json: string -> bool, done: seq<Action>) {
    || done == []
    || (UserPlan.HasUser(w, id) && UserMayDo(w, id, cfg, done))
    || (BucketPlan.HasBucket(w, id)
        && Follows(done, BucketPlan.ReconcilePlan(w, id, cfg).actions, id, BucketPlan.FailureReasons(w.resources[id])))
    || (PathPlan.HasPath(w, id) && (exists seen :: PathController.MayDo(w, id, cfg, done, seen)))
    || (PolicyPlan.HasPolicy(w, id)
        && Follows(done, PolicyPlan.ReconcilePlan(w, id, cfg, json).actions, id,
                   PolicyPlan.FailureReasons(w.resources[id])))
    || (InstancePlan.HasInstance(w, id)
        && Follows(done, InstancePlan.ReconcilePlan(w, id, cfg).actions, id,
                   InstancePlan.FailureReasons(w.resources[id])))
  }

  ghost predicate UserMayDo(w: World, id: Id, cfg: Config, done: seq<Action>)
    requires UserPlan.HasUser(w, id)
  {
    exists ch ::
      && UserPlan.ValidChance(w, id, ch)
      && Follows(done, UserPlan.ReconcilePlan(w, id, cfg, ch).actions, id, UserPlan.FailureReasons(w.resources[id]))
  }

  /** All controllers keep the protocol. */
  lemma OperatorKeepsProtocol(w: World, id: Id, cfg: Config, json: string -> bool, done: seq<Action>)
    requires MayReconcile(w, id, cfg, json, done)
    ensures Guarded(w, done, EntitledFor(id, cfg))
  {
    if done == [] {
    } else if UserPlan.HasUser(w, id) {
      var ch :| UserPlan.ValidChance(w, id, ch)
        && Follows(done, UserPlan.ReconcilePlan(w, id, cfg, ch).actions, id, UserPlan.FailureReasons(w.resources[id]));
      UserProtocol.UserKeepsProtocol(w, id, cfg, ch, done);
    } else if BucketPlan.HasBucket(w, id) {
      BucketTheorems.BucketKeepsProtocol(w, id, cfg, done);
    } else if PathPlan.HasPath(w, id) {
      var seen :| PathController.MayDo(w, id, cfg, done, seen);
      PathTheorems.PathKeepsProtocol(w, id, cfg, done, seen);
    } else if PolicyPlan.HasPolicy(w, id) {
      PolicyTheorems.PolicyKeepsProtocol(w, id, cfg, json, done);
    } else {
      InstancePlan.InstanceKeepsProtocol(w, id, cfg, done);
    }
  }

  /** Whenever a reconcile reaches the backend, its resource is stored with the operator's finalizer. */
  lemma FinalizerBeforeMutation(w: World, id: Id, cfg: Config, json: string -> bool, done: seq<Action>)
    requires MayReconcile(w, id, cfg, json, done)
    ensures forall i :: 0 <= i < |done| && TouchesBackend(done[i]) ==>
      var v := Exec(w, done[..i]);
      id in v.resources && Operator in v.resources[id].finalizers && OnOwnObject(v.resources[id], done[i])
  {
    OperatorKeepsProtocol(w, id, cfg, json, done);
    forall i | 0 <= i < |done| && TouchesBackend(done[i])
      ensures
        var v := Exec(w, done[..i]);
        id in v.resources && Operator in v.resources[id].finalizers && OnOwnObject(v.resources[id], done[i])
    {
      GuardedAt(w, done, i, EntitledFor(id, cfg));
    }
  }

  /**
   * Whenever a reconcile reaches the backend or a Secret, the instance its resource refers to is there,
   * admits the namespace and is Reconciled.
   */
  lemma ServedBeforeCalls(w: World, id: Id, cfg: Config, json: string -> bool, done: seq<Action>)
    requires MayReconcile(w, id, cfg, json, done)
    ensures forall i :: 0 <= i < |done| && (TouchesBackend(done[i]) || TouchesSecret(done[i])) ==>
      var v := Exec(w, done[..i]);
      && id in v.resources && !v.resources[id].spec.InstanceSpec?
      && Served(v, id.namespace, v.resources[id].spec.s3InstanceRef)
  {
    OperatorKeepsProtocol(w, id, cfg, json, done);
    forall i | 0 <= i < |done| && (TouchesBackend(done[i]) || TouchesSecret(done[i]))
      ensures
        var v := Exec(w, done[..i]);
        && id in v.resources && !v.resources[id].spec.InstanceSpec?
        && Served(v, id.namespace, v.resources[id].spec.s3InstanceRef)
    {
      GuardedAt(w, done, i, EntitledFor(id, cfg));
      EntitledIsServed(Exec(w, done[..i]), done[i], id, cfg);
    }
  }

  lemma EntitledIsServed(v: World, a: Action, id: Id, cfg: Config)
    requires Entitled(v, a, id, cfg) && (TouchesBackend(a) || TouchesSecret(a))
    ensures id in v.resources && !v.resources[id].spec.InstanceSpec?
    ensures Served(v, id.namespace, v.resources[id].spec.s3InstanceRef)
  {
    ClientExactly(v, id.namespace, v.resources[id].spec.s3InstanceRef);
  }

  // ---------- no leak ----------

  datatype Object = UserObject(name: string) | BucketObject(name: string) | PolicyObject(name: string)

  predicate Exists(w: World, o: Object) {
    match o
    case UserObject(n) => n in w.users
    case BucketObject(n) => n in w.buckets
    case PolicyObject(n) => n in w.policies
  }

  predicate StandsFor(r: Resource, o: Object) {
    match o
    case UserObject(n) => r.spec.UserSpec? && r.spec.accessKey == n
    case BucketObject(n) => r.spec.BucketSpec? && r.spec.bucket == n
    case PolicyObject(n) => r.spec.PolicySpec? && r.spec.policy == n
  }

  /** The object is there only while its resource is, with the operator's finalizer. */
  predicate Covered(w: World, o: Object, id: Id) {
    Exists(w, o) ==> id in w.resources && StandsFor(w.resources[id], o) && Operator in w.resources[id].finalizers
  }

  /** No resource but `id` stands for the object. */
  ghost predicate Sole(w: World, o: Object, id: Id) {
    forall j :: j in w.resources && StandsFor(w.resources[j], o) ==> j == id
  }

  /** Every instance has deletion of these kinds enabled. */
  ghost predicate DeletionOn(w: World) {
    forall j :: j in w.resources && w.resources[j].spec.InstanceSpec? ==>
      var s := w.resources[j].spec; s.userDeletionEnabled && s.bucketDeletionEnabled && s.policyDeletionEnabled
  }

  lemma PremisesKept(w: World, a: Action, o: Object, id: Id)
    requires Sole(w, o, id) && DeletionOn(w)
    ensures Sole(Apply(w, a), o, id) && DeletionOn(Apply(w, a))
  {
    var v := Apply(w, a);
    forall j | j in v.resources
      ensures j in w.resources && v.resources[j].spec == w.resources[j].spec
    {
      ResourcesKept(w, a, j);
    }
  }

  /** A call that brings an object into being creates it. */
  lemma ComesIntoBeing(w: World, a: Action, o: Object)
    requires !Exists(w, o) && Exists(Apply(w, a), o)
    ensures match o
            case UserObject(n) => a.CreateUser? && a.user == n
            case BucketObject(n) => a.CreateBucket? && a.bucket == n
            case PolicyObject(n) => a.PutPolicy? && a.policy == n
  {
  }

  lemma CoveredStep(w: World, a: Action, j: Id, cfg: Config, o: Object, id: Id)
    requires Covered(w, o, id) && Sole(w, o, id) && DeletionOn(w) && Entitled(w, a, j, cfg)
    ensures Covered(Apply(w, a), o, id)
  {
    var v := Apply(w, a);
    if Exists(v, o) {
      if !Exists(w, o) {
        ComesIntoBeing(w, a, o);
        assert StandsFor(w.resources[j], o);
        assert v.resources == w.resources;
      } else if a == RemoveFinalizer(id) {
        assert CleanedUp(w, id) && InBackend(w, w.resources[id]);
        FlagOn(w, id, o);
      } else {
        FinalizersKept(w, a, id);
        ResourcesKept(w, a, id);
      }
    }
  }

  /** With deletion on everywhere, a cleaned-up resource's object is gone. */
  lemma FlagOn(w: World, id: Id, o: Object)
    requires id in w.resources && StandsFor(w.resources[id], o) && DeletionOn(w) && CleanedUp(w, id)
    ensures !Exists(w, o)
  {
    var r := w.resources[id];
    var iid := InstanceOf(r.spec.s3InstanceRef, id.namespace);
    assert iid in w.resources && w.resources[iid].spec.InstanceSpec?;
  }

  lemma {:induction false} CoveredAlong(w: World, done: seq<Action>, j: Id, cfg: Config, o: Object, id: Id)
    requires Covered(w, o, id) && Sole(w, o, id) && DeletionOn(w) && Guarded(w, done, EntitledFor(j, cfg))
    ensures Covered(Exec(w, done), o, id)
    decreases |done|
  {
    if done != [] {
      CoveredStep(w, done[0], j, cfg, o, id);
      PremisesKept(w, done[0], o, id);
      CoveredAlong(Apply(w, done[0]), done[1..], j, cfg, o, id);
    }
  }

  /** The environment neither creates the object, nor renames its resource, nor takes the finalizer away. */
  ghost predicate LeavesCovered(w: World, v: World, o: Object, id: Id) {
    && (Exists(v, o) ==> Exists(w, o))
    && (id in w.resources && StandsFor(w.resources[id], o) && Operator in w.resources[id].finalizers ==>
          id in v.resources && StandsFor(v.resources[id], o) && Operator in v.resources[id].finalizers)
  }

  ghost predicate OperatorStep(w: World, v: World, cfg: Config, json: string -> bool) {
    exists j, done :: MayReconcile(w, j, cfg, json, done) && v == Exec(w, done)
  }

  lemma OperatorStepCovers(w: World, v: World, cfg: Config, json: string -> bool, o: Object, id: Id)
    requires OperatorStep(w, v, cfg, json) && Covered(w, o, id) && Sole(w, o, id) && DeletionOn(w)
    ensures Covered(v, o, id)
  {
    var j, done :| MayReconcile(w, j, cfg, json, done) && v == Exec(w, done);
    OperatorKeepsProtocol(w, j, cfg, json, done);
    CoveredAlong(w, done, j, cfg, o, id);
  }

  lemma AnyStepCovers(w: World, v: World, cfg: Config, json: string -> bool, o: Object, id: Id)
    requires OperatorStep(w, v, cfg, json) || LeavesCovered(w, v, o, id)
    requires Covered(w, o, id) && Sole(w, o, id) && DeletionOn(w)
    ensures Covered(v, o, id)
  {
    if OperatorStep(w, v, cfg, json) {
      OperatorStepCovers(w, v, cfg, json, o, id);
    }
  }

  lemma {:induction false} NoLeakAt(ws: seq<World>, o: Object, id: Id, cfg: Config, json: string -> bool, n: nat)
    requires n < |ws| && Covered(ws[0], o, id)
    requires forall i :: 0 <= i < |ws| ==> Sole(ws[i], o, id) && DeletionOn(ws[i])
    requires forall i :: 0 <= i < |ws| - 1 ==>
      OperatorStep(ws[i], ws[i + 1], cfg, json) || LeavesCovered(ws[i], ws[i + 1], o, id)
    ensures Covered(ws[n], o, id)
    decreases n
  {
    if n > 0 {
      var w, v := ws[n - 1], ws[n - 1 + 1];
      NoLeakAt(ws, o, id, cfg, json, n - 1);
      assert OperatorStep(w, v, cfg, json) || LeavesCovered(w, v, o, id);
      AnyStepCovers(w, v, cfg, json, o, id);
    }
  }

  /**
   * No leak: with deletion on, names unedited and unique, in every world of every run of all controllers, crashes
   * and failures included, a backend object created for a resource is there only while the resource is.
   */
  lemma NoLeak(ws: seq<World>, o: Object, id: Id, cfg: Config, json: string -> bool)
    requires ws != [] && Covered(ws[0], o, id)
    requires forall i :: 0 <= i < |ws| ==> Sole(ws[i], o, id) && DeletionOn(ws[i])
    requires forall i :: 0 <= i < |ws| - 1 ==>
      OperatorStep(ws[i], ws[i + 1], cfg, json) || LeavesCovered(ws[i], ws[i + 1], o, id)
    ensures forall i :: 0 <= i < |ws| ==> Covered(ws[i], o, id)
  {
    forall i | 0 <= i < |ws| ensures Covered(ws[i], o, id) {
      NoLeakAt(ws, o, id, cfg, json, i);
    }
  }

  // ---------- no dangling instance ----------

  /** The resource's reference leads to an instance that carries the operator's finalizer. */
  predicate Resolves(w: World, j: Id)
    requires j in w.resources && !w.resources[j].spec.InstanceSpec?
  {
    var iid := InstanceOf(w.resources[j].spec.s3InstanceRef, j.namespace);
    iid in w.resources && w.resources[iid].spec.InstanceSpec? && Operator in w.resources[iid].finalizers
  }

  /** Names hold no slash, as the API server sees to. */
  ghost predicate PlainNamespaces(w: World) {
    forall j :: j in w.resources ==> '/' !in j.namespace
  }

  ghost predicate AllResolve(w: World) {
    forall j :: j in w.resources && !w.resources[j].spec.InstanceSpec? ==> Resolves(w, j)
  }

  /** The one reference resolves, as long as its resource is there. */
  predicate Holds(w: World, j: Id) {
    j in w.resources && !w.resources[j].spec.InstanceSpec? ==> Resolves(w, j)
  }

  lemma ResolvesStep(w: World, a: Action, id: Id, cfg: Config, j: Id)
    requires PlainNamespaces(w) && Holds(w, j) && Entitled(w, a, id, cfg)
    requires j in Apply(w, a).resources && !Apply(w, a).resources[j].spec.InstanceSpec?
    ensures Resolves(Apply(w, a), j)
  {
    var v := Apply(w, a);
    ResourcesKept(w, a, j);
    assert Resolves(w, j);
    var iid := InstanceOf(w.resources[j].spec.s3InstanceRef, j.namespace);
    if a == RemoveFinalizer(iid) {
      assert CleanedUp(w, iid) && !RefersTo(w, j, iid);
      RefersToIsLookup(w, j, iid);
      assert false;
    } else {
      FinalizersKept(w, a, iid);
      ResourcesKept(w, a, iid);
    }
  }

  lemma AllResolveStep(w: World, a: Action, id: Id, cfg: Config)
    requires PlainNamespaces(w) && AllResolve(w) && Entitled(w, a, id, cfg)
    ensures PlainNamespaces(Apply(w, a)) && AllResolve(Apply(w, a))
  {
    var v := Apply(w, a);
    forall j | j in v.resources ensures j in w.resources {
      ResourcesKept(w, a, j);
    }
    forall j | j in v.resources && !v.resources[j].spec.InstanceSpec? ensures Resolves(v, j) {
      ResolvesStep(w, a, id, cfg, j);
    }
  }

  lemma {:induction false} AllResolveAlong(w: World, done: seq<Action>, id: Id, cfg: Config)
    requires PlainNamespaces(w) && AllResolve(w) && Guarded(w, done, EntitledFor(id, cfg))
    ensures PlainNamespaces(Exec(w, done)) && AllResolve(Exec(w, done))
    decreases |done|
  {
    if done != [] {
      AllResolveStep(w, done[0], id, cfg);
      AllResolveAlong(Apply(w, done[0]), done[1..], id, cfg);
    }
  }

  /**
   * The environment creates only resources whose reference leads to an instance that carries the finalizer,
   * edits no reference, and takes the finalizer off no instance.
   */
  ghost predicate KeepsReferences(w: World, v: World) {
    && PlainNamespaces(v)
    && (forall i :: i in w.resources && w.resources[i].spec.InstanceSpec? && Operator in w.resources[i].finalizers ==>
          i in v.resources && v.resources[i].spec.InstanceSpec? && Operator in v.resources[i].finalizers)
    && (forall j :: j in v.resources && !v.resources[j].spec.InstanceSpec? ==>
          || Resolves(v, j)
          || (j in w.resources && !w.resources[j].spec.InstanceSpec?
              && v.resources[j].spec.s3InstanceRef == w.resources[j].spec.s3InstanceRef))
  }

  lemma KeptReferencesResolve(w: World, v: World)
    requires AllResolve(w) && KeepsReferences(w, v)
    ensures AllResolve(v)
  {
    forall j | j in v.resources && !v.resources[j].spec.InstanceSpec? ensures Resolves(v, j) {
      if !Resolves(v, j) { assert Resolves(w, j); }
    }
  }

  lemma OperatorStepResolves(w: World, v: World, cfg: Config, json: string -> bool)
    requires OperatorStep(w, v, cfg, json) && PlainNamespaces(w) && AllResolve(w)
    ensures PlainNamespaces(v) && AllResolve(v)
  {
    var j, done :| MayReconcile(w, j, cfg, json, done) && v == Exec(w, done);
    OperatorKeepsProtocol(w, j, cfg, json, done);
    AllResolveAlong(w, done, j, cfg);
  }

  /** A step of the operator, or of an environment that keeps references. */
  ghost predicate ReferenceStep(w: World, v: World, cfg: Config, json: string -> bool) {
    OperatorStep(w, v, cfg, json) || KeepsReferences(w, v)
  }

  lemma AnyStepResolves(w: World, v: World, cfg: Config, json: string -> bool)
    requires ReferenceStep(w, v, cfg, json) && PlainNamespaces(w) && AllResolve(w)
    ensures PlainNamespaces(v) && AllResolve(v)
  {
    if OperatorStep(w, v, cfg, json) {
      OperatorStepResolves(w, v, cfg, json);
    } else {
      KeptReferencesResolve(w, v);
    }
  }

  lemma {:induction false} NoDanglingAt(ws: seq<World>, cfg: Config, json: string -> bool, n: nat)
    requires n < |ws| && PlainNamespaces(ws[0]) && AllResolve(ws[0])
    requires forall i :: 0 <= i < |ws| - 1 ==> ReferenceStep(ws[i], ws[i + 1], cfg, json)
    ensures PlainNamespaces(ws[n]) && AllResolve(ws[n])
    decreases n
  {
    if n > 0 {
      var w, v := ws[n - 1], ws[n - 1 + 1];
      NoDanglingAt(ws, cfg, json, n - 1);
      assert ReferenceStep(w, v, cfg, json);
      AnyStepResolves(w, v, cfg, json);
    }
  }

  /** No dangling instance: every reference resolves in every world of every run of all controllers. */
  lemma NoDanglingInstance(ws: seq<World>, cfg: Config, json: string -> bool)
    requires ws != [] && PlainNamespaces(ws[0]) && AllResolve(ws[0])
    requires forall i :: 0 <= i < |ws| - 1 ==> ReferenceStep(ws[i], ws[i + 1], cfg, json)
    ensures forall i :: 0 <= i < |ws| ==> PlainNamespaces(ws[i]) && AllResolve(ws[i])
  {
    forall i | 0 <= i < |ws| ensures PlainNamespaces(ws[i]) && AllResolve(ws[i]) {
      NoDanglingAt(ws, cfg, json, i);
    }
  }

  /** The API server's answer to a delete request: gone at once without finalizers, marked otherwise. */
  function DeleteRequested(w: World, id: Id): World
    requires id in w.resources
  {
    if w.resources[id].finalizers == {} then w.(resources := w.resources - {id})
    else WithResource(w, id, w.resources[id].(deleting := true))
  }

  // ---------- which references are safe ----------

  /** The other controllers drop their finalizers; a resource marked for deletion without any other goes. */
  function ForeignReleased(w: World, id: Id): World {
    if id !in w.resources then w
    else
      var r := w.resources[id];
      var left := r.finalizers * {Operator};
      if r.deleting && left == {} then w.(resources := w.resources - {id})
      else WithResource(w, id, r.(finalizers := left))
  }

  /** A delete request and the release of every foreign finalizer remove exactly what the operator does not hold. */
  lemma GoneExactly(w: World, id: Id)
    requires id in w.resources
    ensures id in ForeignReleased(DeleteRequested(w, id), id).resources <==> Operator in w.resources[id].finalizers
  {
    if Operator in w.resources[id].finalizers {
      assert Operator in w.resources[id].finalizers * {Operator};
    }
  }

  /** What may befall resources once they are made: delete requests, foreign controllers, and the operator. */
  ghost predicate LifecycleStep(w: World, v: World, cfg: Config, json: string -> bool) {
    || (exists i :: i in w.resources && v == DeleteRequested(w, i))
    || (exists i :: v == ForeignReleased(w, i))
    || OperatorStep(w, v, cfg, json)
  }

  ghost predicate LifecycleRun(ws: seq<World>, cfg: Config, json: string -> bool) {
    ws != [] && forall i :: 0 <= i < |ws| - 1 ==> LifecycleStep(ws[i], ws[i + 1], cfg, json)
  }

  /** The resource refers to an instance that is not there. */
  predicate Dangles(w: World, j: Id) {
    && j in w.resources && !w.resources[j].spec.InstanceSpec?
    && InstanceOf(w.resources[j].spec.s3InstanceRef, j.namespace) !in w.resources
  }

  lemma {:induction false} HoldsAlong(w: World, done: seq<Action>, id: Id, cfg: Config, j: Id)
    requires PlainNamespaces(w) && Holds(w, j) && Guarded(w, done, EntitledFor(id, cfg))
    ensures PlainNamespaces(Exec(w, done)) && Holds(Exec(w, done), j)
    decreases |done|
  {
    if done != [] {
      HoldsStep(w, done[0], id, cfg, j);
      HoldsAlong(Apply(w, done[0]), done[1..], id, cfg, j);
    }
  }

  lemma HoldsStep(w: World, a: Action, id: Id, cfg: Config, j: Id)
    requires PlainNamespaces(w) && Holds(w, j) && Entitled(w, a, id, cfg)
    ensures PlainNamespaces(Apply(w, a)) && Holds(Apply(w, a), j)
  {
    var v := Apply(w, a);
    forall i | i in v.resources ensures i in w.resources {
      ResourcesKept(w, a, i);
    }
    if j in v.resources && !v.resources[j].spec.InstanceSpec? {
      ResolvesStep(w, a, id, cfg, j);
    }
  }

  lemma RequestHolds(w: World, i: Id, j: Id)
    requires PlainNamespaces(w) && Holds(w, j) && i in w.resources
    ensures PlainNamespaces(DeleteRequested(w, i)) && Holds(DeleteRequested(w, i), j)
  {
  }

  lemma ReleaseHolds(w: World, i: Id, j: Id)
    requires PlainNamespaces(w) && Holds(w, j)
    ensures PlainNamespaces(ForeignReleased(w, i)) && Holds(ForeignReleased(w, i), j)
  {
    if i in w.resources && Operator in w.resources[i].finalizers {
      assert Operator in w.resources[i].finalizers * {Operator};
    }
  }

  lemma OperatorHolds(w: World, v: World, cfg: Config, json: string -> bool, j: Id)
    requires OperatorStep(w, v, cfg, json) && PlainNamespaces(w) && Holds(w, j)
    ensures PlainNamespaces(v) && Holds(v, j)
  {
    var id, done :| MayReconcile(w, id, cfg, json, done) && v == Exec(w, done);
    OperatorKeepsProtocol(w, id, cfg, json, done);
    HoldsAlong(w, done, id, cfg, j);
  }

  lemma LifecycleHolds(w: World, v: World, cfg: Config, json: string -> bool, j: Id)
    requires LifecycleStep(w, v, cfg, json) && PlainNamespaces(w) && Holds(w, j)
    ensures PlainNamespaces(v) && Holds(v, j)
  {
    if OperatorStep(w, v, cfg, json) {
      OperatorHolds(w, v, cfg, json, j);
    } else if i :| i in w.resources && v == DeleteRequested(w, i) {
      RequestHolds(w, i, j);
    } else {
      var i :| v == ForeignReleased(w, i);
      ReleaseHolds(w, i, j);
    }
  }

  lemma {:induction false} LifecycleRunHolds(ws: seq<World>, cfg: Config, json: string -> bool, j: Id)
    requires LifecycleRun(ws, cfg, json) && PlainNamespaces(ws[0]) && Holds(ws[0], j)
    ensures PlainNamespaces(ws[|ws| - 1]) && Holds(ws[|ws| - 1], j)
  {
    if |ws| > 1 {
      var n := |ws| - 1;
      LifecycleRunHolds(ws[..n], cfg, json, j);
      assert ws[..n][n - 1] == ws[n - 1];
      assert LifecycleStep(ws[n - 1], ws[n - 1 + 1], cfg, json);
      LifecycleHolds(ws[n - 1], ws[n], cfg, json, j);
    }
  }

  /** Without the operator's finalizer the instance can go while the reference stays. */
  lemma DanglingRun(w: World, j: Id, cfg: Config, json: string -> bool) returns (ws: seq<World>)
    requires j in w.resources && !w.resources[j].spec.InstanceSpec?
    requires var iid := InstanceOf(w.resources[j].spec.s3InstanceRef, j.namespace);
      && iid in w.resources && w.resources[iid].spec.InstanceSpec? && Operator !in w.resources[iid].finalizers
    ensures LifecycleRun(ws, cfg, json) && ws[0] == w && Dangles(ws[|ws| - 1], j)
  {
    var iid := InstanceOf(w.resources[j].spec.s3InstanceRef, j.namespace);
    var v := DeleteRequested(w, iid);
    var x := ForeignReleased(v, iid);
    ws := [w, v, x];
    ReleasedDangles(w, j);
    RequestIsStep(w, iid, cfg, json);
    ReleaseIsStep(v, iid, cfg, json);
    TwoSteps(w, v, x, cfg, json);
  }

  lemma ReleasedDangles(w: World, j: Id)
    requires j in w.resources && !w.resources[j].spec.InstanceSpec?
    requires var iid := InstanceOf(w.resources[j].spec.s3InstanceRef, j.namespace);
      && iid in w.resources && w.resources[iid].spec.InstanceSpec? && Operator !in w.resources[iid].finalizers
    ensures
      var iid := InstanceOf(w.resources[j].spec.s3InstanceRef, j.namespace);
      Dangles(ForeignReleased(DeleteRequested(w, iid), iid), j)
  {
    var iid := InstanceOf(w.resources[j].spec.s3InstanceRef, j.namespace);
    var v := DeleteRequested(w, iid);
    GoneExactly(w, iid);
    OthersUntouched(w, iid, j);
    if iid in v.resources { OthersUntouched(v, iid, j); }
  }

  lemma TwoSteps(w: World, v: World, x: World, cfg: Config, json: string -> bool)
    requires LifecycleStep(w, v, cfg, json) && LifecycleStep(v, x, cfg, json)
    ensures LifecycleRun([w, v, x], cfg, json)
  {
  }

  lemma OthersUntouched(w: World, i: Id, j: Id)
    requires i in w.resources && j in w.resources && j != i
    ensures j in DeleteRequested(w, i).resources && DeleteRequested(w, i).resources[j] == w.resources[j]
    ensures j in ForeignReleased(w, i).resources && ForeignReleased(w, i).resources[j] == w.resources[j]
  {
  }

  lemma RequestIsStep(w: World, i: Id, cfg: Config, json: string -> bool)
    requires i in w.resources
    ensures LifecycleStep(w, DeleteRequested(w, i), cfg, json)
  {
  }

  lemma ReleaseIsStep(w: World, i: Id, cfg: Config, json: string -> bool)
    ensures LifecycleStep(w, ForeignReleased(w, i), cfg, json)
  {
  }

  /**
   * A reference to an existing instance never dangles, in any run of requests, foreign controllers and the operator,
   * exactly when the instance carries the operator's finalizer: no weaker premise on the environment will do.
   */
  lemma ReferenceIsSafeExactly(w: World, j: Id, cfg: Config, json: string -> bool)
    requires PlainNamespaces(w) && j in w.resources && !w.resources[j].spec.InstanceSpec?
    requires var iid := InstanceOf(w.resources[j].spec.s3InstanceRef, j.namespace);
             iid in w.resources && w.resources[iid].spec.InstanceSpec?
    ensures
      var iid := InstanceOf(w.resources[j].spec.s3InstanceRef, j.namespace);
      (forall ws :: LifecycleRun(ws, cfg, json) && ws[0] == w ==> !Dangles(ws[|ws| - 1], j)) <==>
        Operator in w.resources[iid].finalizers
  {
    var iid := InstanceOf(w.resources[j].spec.s3InstanceRef, j.namespace);
    if Operator in w.resources[iid].finalizers {
      forall ws | LifecycleRun(ws, cfg, json) && ws[0] == w ensures !Dangles(ws[|ws| - 1], j) {
        LifecycleRunHolds(ws, cfg, json, j);
      }
    } else {
      var ws := DanglingRun(w, j, cfg, json);
    }
  }
}
