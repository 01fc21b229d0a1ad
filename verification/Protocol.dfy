/**
 * The protocol all controllers keep, as a guard on single calls: what a reconcile of one resource may do
 * in the world in which it does it. Each controller's plan, interrupted anywhere, is proved to keep it.
 */
module Protocol {
  import opened Collections
  import opened Model
  import opened Effects
  import opened S3InstanceHelper
  import opened ControllerHelper
  import opened UserPlan

  /** The deletion flag of the instance that governs the resource. */
  predicate DeletionEnabled(instance: Spec, r: Resource)
    requires instance.InstanceSpec?
  {
    match r.spec
    case UserSpec(_, _, _, _, _, _) => instance.userDeletionEnabled
    case BucketSpec(_, _, _, _, _) => instance.bucketDeletionEnabled
    case PathSpec(_, _, _) => instance.pathDeletionEnabled
    case PolicySpec(_, _, _) => instance.policyDeletionEnabled
    case InstanceSpec(_, _, _, _, _, _) => false
  }

  /** The backend object the resource stands for exists. */
  predicate InBackend(w: World, r: Resource) {
    match r.spec
    case UserSpec(_, accessKey, _, _, _, _) => accessKey in w.users
    case BucketSpec(_, bucket, _, _, _) => bucket in w.buckets
    case PathSpec(_, _, _) => false
    case PolicySpec(_, policy, _) => policy in w.policies
    case InstanceSpec(_, _, _, _, _, _) => false
  }

  /** Nothing refers to the instance any more. */
  ghost predicate Unreferenced(w: World, instance: Id) {
    forall other :: other in w.resources ==> !RefersTo(w, other, instance)
  }

  /** What must be gone before the finalizer goes. */
  ghost predicate CleanedUp(w: World, id: Id)
    requires id in w.resources
  {
    var r := w.resources[id];
    if r.spec.InstanceSpec? then Unreferenced(w, id)
    else
      && ClientFor(w, id.namespace, r.spec.s3InstanceRef).Client?
      && (DeletionEnabled(ClientFor(w, id.namespace, r.spec.s3InstanceRef).instance, r) ==> !InBackend(w, r))
      && (r.spec.UserSpec? ==> OwnedKeys(w, id.namespace, r.uid) == {})
  }

  /** The Secret is this S3User's own: one owner reference, carrying its UID, and its access key in the named field. */
  predicate OwnSecret(s: Secret, r: Resource)
    requires r.spec.UserSpec?
  {
    && |s.owners| == 1 && s.owners[0].kind == S3UserOwner && s.owners[0].uid == r.uid
    && (FieldsDistinct(r.spec) ==> Field(s.data, r.spec.accessKeyField) == r.spec.accessKey)
  }

  // ---------- what each kind may do in the backend ----------

  predicate OnOwnUser(r: Resource, a: Action)
    requires r.spec.UserSpec?
  {
    (a.CreateUser? || a.DeleteUser? || a.AttachPolicies? || a.DetachPolicies?) && a.user == r.spec.accessKey
  }

  predicate OnOwnBucket(r: Resource, a: Action)
    requires r.spec.BucketSpec?
  {
    && (a.CreateBucket? || a.DeleteBucket? || a.SetQuota? || (a.CreatePath? && a.path in r.spec.paths))
    && a.bucket == r.spec.bucket && (a.DeleteBucket? <==> r.deleting)
  }

  predicate OnOwnPath(r: Resource, a: Action)
    requires r.spec.PathSpec?
  {
    (a.CreatePath? || a.DeletePath?) && a.path in r.spec.paths
    && a.bucket == r.spec.bucket && (a.DeletePath? <==> r.deleting)
  }

  predicate OnOwnPolicy(r: Resource, a: Action)
    requires r.spec.PolicySpec?
  {
    (a.PutPolicy? || a.DeletePolicy?) && a.policy == r.spec.policy && (a.DeletePolicy? <==> r.deleting)
  }

  /** The call acts on the resource's own object in the backend. */
  predicate OnOwnObject(r: Resource, a: Action) {
    || (r.spec.UserSpec? && OnOwnUser(r, a))
    || (r.spec.BucketSpec? && OnOwnBucket(r, a))
    || (r.spec.PathSpec? && OnOwnPath(r, a))
    || (r.spec.PolicySpec? && OnOwnPolicy(r, a))
  }

  /** What an S3User's reconcile may do to a Secret. */
  predicate OnOwnSecret(w: World, a: Action, id: Id, r: Resource, cfg: Config)
    requires a.CreateSecret? || a.UpdateSecret? || a.DeleteSecret?
  {
    && r.spec.UserSpec? && a.at.namespace == id.namespace
    && (a.DeleteSecret? ==> a.at in w.secrets && OwnedBy(w.secrets[a.at], r.uid))
    && (!a.DeleteSecret? ==> OwnSecret(a.secret, r) && !r.deleting)
    && (a.UpdateSecret? ==>
          cfg.overrideExistingSecret && a.at in w.secrets && !OwnedElsewhere(w.secrets[a.at], r.uid))
  }

  /** The instance the resource refers to serves it. */
  predicate HasClient(w: World, id: Id)
    requires id in w.resources
  {
    var r := w.resources[id];
    !r.spec.InstanceSpec? && ClientFor(w, id.namespace, r.spec.s3InstanceRef).Client?
  }

  /**
   * What a reconcile of `id` may do: change the backend and Secrets only while its instance serves it, only for
   * its own object and only once its finalizer is stored, delete only Secrets that carry its UID,
   * overwrite only in override mode a Secret no other S3User owns,
   * and drop its finalizer only when everything it answers for is gone.
   */
  ghost predicate Entitled(w: World, a: Action, id: Id, cfg: Config) {
    if a.SetCondition? || a.AddFinalizer? then a.id == id
    else
      && id in w.resources
      && if a.RemoveFinalizer? then a.id == id && w.resources[id].deleting && CleanedUp(w, id)
         else
           && Operator in w.resources[id].finalizers && HasClient(w, id)
           && if a.CreateSecret? || a.UpdateSecret? || a.DeleteSecret? then
                OnOwnSecret(w, a, id, w.resources[id], cfg)
              else OnOwnObject(w.resources[id], a)
  }

  ghost function EntitledFor(id: Id, cfg: Config): (World, Action) -> bool {
    (w, a) => Entitled(w, a, id, cfg)
  }

  // ---------- Secrets ----------

  /**
   * A Secret with an S3User owner of another UID, and without this UID among its owners,
   * is neither deleted nor overwritten by this resource's reconcile.
   */
  lemma {:induction false} ForeignSecretUntouched(
    w: World, done: seq<Action>, id: Id, uid: string, cfg: Config, k: Key)
    requires Guarded(w, done, EntitledFor(id, cfg)) && (id in w.resources ==> w.resources[id].uid == uid)
    requires k in w.secrets && OwnedElsewhere(w.secrets[k], uid) && !OwnedBy(w.secrets[k], uid)
    ensures k in Exec(w, done).secrets && Exec(w, done).secrets[k] == w.secrets[k]
    decreases |done|
  {
    if done != [] {
      var a := done[0];
      var v := Apply(w, a);
      SecretsKept(w, a);
      ResourcesKept(w, a, id);
      assert k in v.secrets && v.secrets[k] == w.secrets[k];
      ForeignSecretUntouched(v, done[1..], id, uid, cfg, k);
    }
  }

  // ---------- building blocks for the plans ----------

  /** A call every reconcile of a resource with its finalizer stored may make. */
  predicate Plain(a: Action, id: Id, r: Resource) {
    OnOwnObject(r, a) || (a.SetCondition? && a.id == id) || a == AddFinalizer(id)
  }

  lemma {:induction false} PlainGuarded(w: World, done: seq<Action>, id: Id, cfg: Config)
    requires id in w.resources && Operator in w.resources[id].finalizers
    requires forall i :: 0 <= i < |done| ==> Plain(done[i], id, w.resources[id])
    requires HasClient(w, id) || forall i :: 0 <= i < |done| ==> !OnOwnObject(w.resources[id], done[i])
    ensures Guarded(w, done, EntitledFor(id, cfg))
    ensures id in Exec(w, done).resources && Operator in Exec(w, done).resources[id].finalizers
    ensures var r, s := w.resources[id], Exec(w, done).resources[id];
            r.uid == s.uid && r.spec == s.spec && r.deleting == s.deleting
    decreases |done|
  {
    if done != [] {
      var v := Apply(w, done[0]);
      ResourcesKept(w, done[0], id);
      FinalizersKept(w, done[0], id);
      if HasClient(w, id) { ClientKept(w, done[0], id); }
      PlainGuarded(v, done[1..], id, cfg);
    }
  }

  /** A resource's own calls leave its client as it is. */
  lemma ClientKept(w: World, a: Action, id: Id)
    requires id in w.resources && id in Apply(w, a).resources && HasClient(w, id)
    requires a.SetCondition? || a.AddFinalizer? || a.RemoveFinalizer? ==> a.id == id
    ensures HasClient(Apply(w, a), id)
  {
    var iid := InstanceOf(w.resources[id].spec.s3InstanceRef, id.namespace);
    assert iid != id;
    ResourcesKept(w, a, id);
    OthersStay(w, a, iid);
    ClientReadsInstanceOnly(w, Apply(w, a), id.namespace, w.resources[id].spec.s3InstanceRef);
  }

  lemma ReportEntitled(w: World, id: Id, cfg: Config, done: seq<Action>)
    requires id in w.resources
    requires done == [] || (|done| == 1 && done[0].SetCondition? && done[0].id == id)
    ensures Guarded(w, done, EntitledFor(id, cfg))
  {
  }

  lemma StartEntitled(w: World, id: Id, cfg: Config)
    requires id in w.resources
    ensures Guarded(w, StartCalls(id, w.resources[id]), EntitledFor(id, cfg))
  {
    var r := w.resources[id];
    var status, finalizer := StatusCalls(id, r), FinalizerCalls(id, r);
    ReportEntitled(w, id, cfg, status);
    StatusCallsEffect(w, id, r);
    var v := Exec(w, status);
    assert Guarded(v, finalizer, EntitledFor(id, cfg));
    GuardedAppend(w, status, finalizer, EntitledFor(id, cfg));
  }

  /** Interrupting a plan that keeps the protocol keeps it. */
  lemma InterruptedEntitled(
    w: World, done: seq<Action>, plan: seq<Action>, id: Id, cfg: Config, reasons: set<Reason>)
    requires Follows(done, plan, id, reasons) && Guarded(w, plan, EntitledFor(id, cfg))
    ensures Guarded(w, done, EntitledFor(id, cfg))
  {
    GuardedFollows(w, done, plan, id, reasons, EntitledFor(id, cfg));
  }

  /** A reconcile that keeps the protocol leaves every other resource as it was. */
  lemma {:induction false} OnlyOwnResource(w: World, done: seq<Action>, id: Id, cfg: Config, j: Id)
    requires Guarded(w, done, EntitledFor(id, cfg)) && j != id
    ensures j in w.resources <==> j in Exec(w, done).resources
    ensures j in w.resources ==> Exec(w, done).resources[j] == w.resources[j]
    decreases |done|
  {
    if done != [] {
      OnlyOwnStep(w, done[0], id, cfg, j);
      OnlyOwnResource(Apply(w, done[0]), done[1..], id, cfg, j);
    }
  }

  lemma OnlyOwnStep(w: World, a: Action, id: Id, cfg: Config, j: Id)
    requires Entitled(w, a, id, cfg) && j != id
    ensures j in w.resources <==> j in Apply(w, a).resources
    ensures j in w.resources ==> Apply(w, a).resources[j] == w.resources[j]
  {
    OthersStay(w, a, j);
  }

  /** A resource that is not being deleted stays, with its spec, through its own reconcile. */
  lemma {:induction false} LiveStays(w: World, done: seq<Action>, id: Id, cfg: Config)
    requires Guarded(w, done, EntitledFor(id, cfg)) && id in w.resources && !w.resources[id].deleting
    ensures id in Exec(w, done).resources
    ensures var r, s := w.resources[id], Exec(w, done).resources[id];
            r.uid == s.uid && r.spec == s.spec && r.deleting == s.deleting
    decreases |done|
  {
    if done != [] {
      FinalizersKept(w, done[0], id);
      ResourcesKept(w, done[0], id);
      LiveStays(Apply(w, done[0]), done[1..], id, cfg);
    }
  }
}
