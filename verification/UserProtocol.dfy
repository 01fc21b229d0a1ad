/** The S3User controller keeps the protocol. */
module UserProtocol {
  import opened Collections
  import opened Model
  import opened Effects
  import opened ControllerHelper
  import opened S3InstanceHelper
  import opened UserPlan
  import opened UserSafety
  import opened Protocol

  /** A live S3User past its opening. */
  predicate Ready(w: World, id: Id, r: Resource) {
    id in w.resources && w.resources[id] == r && r.spec.UserSpec? && !r.deleting && Operator in r.finalizers
  }

  /** ... whose instance serves it. */
  predicate Working(w: World, id: Id, r: Resource) {
    Ready(w, id, r) && HasClient(w, id)
  }

  lemma SecretDataHolds(u: Spec, key: string, config: S3Config)
    requires u.UserSpec? && FieldsDistinct(u)
    ensures Field(SecretData(u, key, config), u.accessKeyField) == u.accessKey
    ensures Field(SecretData(u, key, config), u.secretKeyField) == key
  {
    assert {u.accessKeyField, u.secretKeyField} !! FIXED_FIELDS;
  }

  lemma NewSecretIsOwn(id: Id, r: Resource, key: string, config: S3Config)
    requires r.spec.UserSpec?
    ensures OwnSecret(NewSecretForCR(id, r, key, config), r)
    ensures OwnedBy(NewSecretForCR(id, r, key, config), r.uid)
  {
    assert NewSecretForCR(id, r, key, config).owners[0].uid == r.uid;
    if FieldsDistinct(r.spec) { SecretDataHolds(r.spec, key, config); }
  }

  lemma FreshEntitled(w: World, id: Id, r: Resource, cfg: Config, key: string, secret: Secret)
    requires Working(w, id, r) && OwnSecret(secret, r)
    ensures Guarded(w, FreshCalls(id, r, key, secret), EntitledFor(id, cfg))
  {
    var create, write := CreateUser(r.spec.accessKey, key), CreateSecret(Target(id, r), secret);
    var v := Apply(w, create);
    PlainGuarded(Apply(v, write), GrantCalls(r.spec), id, cfg);
    GuardedCons(v, write, GrantCalls(r.spec), EntitledFor(id, cfg));
    GuardedCons(w, create, [write] + GrantCalls(r.spec), EntitledFor(id, cfg));
    assert FreshCalls(id, r, key, secret) == [create] + ([write] + GrantCalls(r.spec));
  }

  lemma TakeOverEntitled(
    w: World, id: Id, r: Resource, cfg: Config, key: string, secret: Secret, data: map<string, string>)
    requires Working(w, id, r) && OwnSecret(secret, r)
    requires Target(id, r) in w.secrets && !OwnedElsewhere(w.secrets[Target(id, r)], r.uid)
    ensures Guarded(w, TakeOverCalls(id, r, cfg, key, secret, data), EntitledFor(id, cfg))
  {
    var create := CreateUser(r.spec.accessKey, KeyInPlace(r, cfg, key, data));
    var v := Apply(w, create);
    var write := UpdateSecret(Target(id, r), secret);
    var rest := (if cfg.overrideExistingSecret then [write] else []) + GrantCalls(r.spec);
    if cfg.overrideExistingSecret {
      OverwriteEntitled(v, id, r, cfg, secret);
    } else {
      assert rest == GrantCalls(r.spec);
      PlainGuarded(v, rest, id, cfg);
    }
    GuardedCons(w, create, rest, EntitledFor(id, cfg));
    assert TakeOverCalls(id, r, cfg, key, secret, data) == [create] + rest;
  }

  /** In override mode a Secret no other S3User owns may be overwritten. */
  lemma OverwriteEntitled(v: World, id: Id, r: Resource, cfg: Config, secret: Secret)
    requires Working(v, id, r) && OwnSecret(secret, r) && cfg.overrideExistingSecret
    requires Target(id, r) in v.secrets && !OwnedElsewhere(v.secrets[Target(id, r)], r.uid)
    ensures Guarded(v, [UpdateSecret(Target(id, r), secret)] + GrantCalls(r.spec), EntitledFor(id, cfg))
  {
    var write := UpdateSecret(Target(id, r), secret);
    PlainGuarded(Apply(v, write), GrantCalls(r.spec), id, cfg);
    GuardedCons(v, write, GrantCalls(r.spec), EntitledFor(id, cfg));
  }

  lemma CreateEntitled(w: World, id: Id, r: Resource, cfg: Config, config: S3Config, key: string)
    requires Working(w, id, r)
    ensures Guarded(w, HandleCreatePlan(w, id, r, cfg, config, key).actions, EntitledFor(id, cfg))
  {
    var at := Target(id, r);
    var secret := NewSecretForCR(id, r, key, config);
    NewSecretIsOwn(id, r, key, config);
    var done := Report(id, r, Reconciled, Success, None, cfg.reconcilePeriod).actions;
    if at !in w.secrets {
      var calls := FreshCalls(id, r, key, secret);
      FreshEntitled(w, id, r, cfg, key, secret);
      FreshKeepsResources(w, id, r, key, secret);
      ReportEntitled(Exec(w, calls), id, cfg, done);
      GuardedAppend(w, calls, done, EntitledFor(id, cfg));
    } else if OwnedElsewhere(w.secrets[at], r.uid) {
      ReportEntitled(w, id, cfg, HandleCreatePlan(w, id, r, cfg, config, key).actions);
    } else if cfg.overrideExistingSecret || cfg.readExistingSecret {
      var calls := TakeOverCalls(id, r, cfg, key, secret, w.secrets[at].data);
      TakeOverEntitled(w, id, r, cfg, key, secret, w.secrets[at].data);
      TakeOverKeepsResources(w, id, r, cfg, key, secret, w.secrets[at].data);
      ReportEntitled(Exec(w, calls), id, cfg, done);
      GuardedAppend(w, calls, done, EntitledFor(id, cfg));
    } else {
      ReportEntitled(w, id, cfg, HandleCreatePlan(w, id, r, cfg, config, key).actions);
    }
  }

  /** Calls on users and Secrets leave the resources alone. */
  lemma {:induction false} ResourcesUntouched(w: World, done: seq<Action>)
    requires forall i :: 0 <= i < |done| ==>
      !done[i].SetCondition? && !done[i].AddFinalizer? && !done[i].RemoveFinalizer?
    ensures Exec(w, done).resources == w.resources
    decreases |done|
  {
    if done != [] {
      ResourcesUntouched(Apply(w, done[0]), done[1..]);
    }
  }

  lemma FreshKeepsResources(w: World, id: Id, r: Resource, key: string, secret: Secret)
    requires r.spec.UserSpec?
    ensures Exec(w, FreshCalls(id, r, key, secret)).resources == w.resources
  {
    ResourcesUntouched(w, FreshCalls(id, r, key, secret));
  }

  lemma TakeOverKeepsResources(
    w: World, id: Id, r: Resource, cfg: Config, key: string, secret: Secret, data: map<string, string>)
    requires r.spec.UserSpec?
    ensures Exec(w, TakeOverCalls(id, r, cfg, key, secret, data)).resources == w.resources
  {
    ResourcesUntouched(w, TakeOverCalls(id, r, cfg, key, secret, data));
  }

  lemma RecreateEntitled(
    w: World, id: Id, r: Resource, cfg: Config, config: S3Config, key: string, first: seq<Action>)
    requires r.spec.UserSpec? && Guarded(w, first, EntitledFor(id, cfg)) && Working(Exec(w, first), id, r)
    ensures Guarded(w, RecreatePlan(w, id, r, cfg, config, key, first).actions, EntitledFor(id, cfg))
  {
    var v := Exec(w, first);
    var delete := DeleteUser(r.spec.accessKey);
    var x := Apply(v, delete);
    DeleteUserEntitled(v, id, r, cfg);
    CreateEntitled(x, id, r, cfg, config, key);
    GuardedMiddle(w, first, delete, HandleCreatePlan(x, id, r, cfg, config, key).actions, EntitledFor(id, cfg));
  }

  lemma DeleteUserEntitled(w: World, id: Id, r: Resource, cfg: Config)
    requires Working(w, id, r)
    ensures Entitled(w, DeleteUser(r.spec.accessKey), id, cfg) && Working(Apply(w, DeleteUser(r.spec.accessKey)), id, r)
  {
  }

  lemma CheckEntitled(
    w: World, id: Id, r: Resource, cfg: Config, config: S3Config, key: string, current: Key, owned: bool)
    requires Working(w, id, r) && r.spec.accessKey in w.users && current in w.secrets
    requires owned ==> current.namespace == id.namespace && OwnedBy(w.secrets[current], r.uid)
    ensures Guarded(w, CheckPlan(w, id, r, cfg, config, key, current, owned).actions, EntitledFor(id, cfg))
  {
    var fix := PolicyCalls(r.spec.accessKey, w.users[r.spec.accessKey].policies, SetOf(r.spec.policies));
    PlainGuarded(w, fix, id, cfg);
    PolicyCallsEffect(w, r.spec.accessKey, SetOf(r.spec.policies));
    var v := Exec(w, fix);
    if CredentialsValid(w, r.spec, w.secrets[current].data) {
      var done := Report(id, r, Reconciled, Success, None, cfg.reconcilePeriod).actions;
      ReportEntitled(v, id, cfg, done);
      GuardedAppend(w, fix, done, EntitledFor(id, cfg));
    } else if owned {
      var delete := DeleteSecret(current);
      GuardedCons(v, delete, [], EntitledFor(id, cfg));
      GuardedAppend(w, fix, [delete], EntitledFor(id, cfg));
      ExecSnoc(w, fix, delete);
      RecreateEntitled(w, id, r, cfg, config, key, fix + [delete]);
    } else {
      assert fix + [] == fix;
      RecreateEntitled(w, id, r, cfg, config, key, fix);
    }
  }

  lemma {:induction false} DeletionsEntitled(w: World, id: Id, cfg: Config, keys: seq<Key>)
    requires HasUser(w, id) && Operator in w.resources[id].finalizers && HasClient(w, id) && NoDuplicates(keys)
    requires forall k :: k in keys ==> k in Owned(w, id)
    ensures Guarded(w, Deletions(keys), EntitledFor(id, cfg))
    decreases |keys|
  {
    if keys != [] {
      var v := Apply(w, DeleteSecret(keys[0]));
      DeletionEntitled(w, id, cfg, keys[0]);
      assert forall k :: k in keys[1..] ==> k in keys && k != keys[0];
      DeletionsEntitled(v, id, cfg, keys[1..]);
      assert Deletions(keys)[1..] == Deletions(keys[1..]);
    }
  }

  lemma DeletionEntitled(w: World, id: Id, cfg: Config, k: Key)
    requires HasUser(w, id) && Operator in w.resources[id].finalizers && HasClient(w, id) && k in Owned(w, id)
    ensures Entitled(w, DeleteSecret(k), id, cfg)
    ensures
      var v := Apply(w, DeleteSecret(k));
      v.resources == w.resources && Owned(v, id) == Owned(w, id) - {k}
  {
  }

  lemma UpdateEntitled(w: World, id: Id, r: Resource, cfg: Config, config: S3Config, ch: Chance)
    requires Working(w, id, r) && r.spec.accessKey in w.users
    requires Lists(ch.order, OwnedKeys(w, id.namespace, r.uid))
    ensures Guarded(w, HandleUpdatePlan(w, id, r, cfg, config, ch).actions, EntitledFor(id, cfg))
  {
    var owned := OwnedKeys(w, id.namespace, r.uid);
    var unlinked := UnlinkedSecret(w, id, r);
    if owned == {} && unlinked.None? {
      RecreateEntitled(w, id, r, cfg, config, ch.key, []);
    } else if unlinked.Some? {
      CheckEntitled(w, id, r, cfg, config, ch.key, unlinked.value, false);
    } else {
      var at := Target(id, r);
      var keys := Without(ch.order, at);
      WithoutKeepsNoDuplicates(ch.order, at);
      assert forall k :: k in ch.order <==> k in SetOf(ch.order);
      DeletionsEntitled(w, id, cfg, keys);
      DeletionsKeep(w, keys);
      var v := Exec(w, Deletions(keys));
      if at in owned {
        CheckEntitled(v, id, r, cfg, config, ch.key, at, true);
        GuardedAppend(
          w, Deletions(keys), CheckPlan(v, id, r, cfg, config, ch.key, at, true).actions, EntitledFor(id, cfg));
      } else {
        RecreateEntitled(w, id, r, cfg, config, ch.key, Deletions(keys));
      }
    }
  }

  lemma LiveEntitled(w: World, id: Id, r: Resource, cfg: Config, ch: Chance)
    requires Ready(w, id, r) && Lists(ch.order, OwnedKeys(w, id.namespace, r.uid))
    ensures Guarded(w, HandleReconciliationPlan(w, id, r, cfg, ch).actions, EntitledFor(id, cfg))
  {
    var body := HandleReconciliationPlan(w, id, r, cfg, ch);
    match ClientFor(w, id.namespace, r.spec.s3InstanceRef) {
      case Panicked =>
      case Unavailable(e) => ReportEntitled(w, id, cfg, body.actions);
      case Client(instance) =>
        if r.spec.accessKey !in w.users {
          CreateEntitled(w, id, r, cfg, instance.config, ch.key);
        } else {
          UpdateEntitled(w, id, r, cfg, instance.config, ch);
        }
    }
  }

  lemma TeardownEntitled(w: World, id: Id, r: Resource, cfg: Config, ch: Chance)
    requires id in w.resources && w.resources[id] == r && r.spec.UserSpec? && r.deleting && Operator in r.finalizers
    requires Lists(ch.order, OwnedKeys(w, id.namespace, r.uid))
    ensures Guarded(w, HandleDeletionPlan(w, id, r, cfg, ch).actions, EntitledFor(id, cfg))
  {
    var body := HandleDeletionPlan(w, id, r, cfg, ch);
    match ClientFor(w, id.namespace, r.spec.s3InstanceRef) {
      case Panicked =>
      case Unavailable(e) => ReportEntitled(w, id, cfg, body.actions);
      case Client(instance) =>
        TeardownCallsEntitled(w, id, r, cfg, instance, ch.order);
    }
  }

  lemma TeardownCallsEntitled(w: World, id: Id, r: Resource, cfg: Config, instance: Spec, order: seq<Key>)
    requires id in w.resources && w.resources[id] == r && r.spec.UserSpec? && r.deleting && Operator in r.finalizers
    requires Lists(order, OwnedKeys(w, id.namespace, r.uid))
    requires ClientFor(w, id.namespace, r.spec.s3InstanceRef) == Client(instance) && instance.InstanceSpec?
    ensures Guarded(
      w,
      (if instance.userDeletionEnabled then [DeleteUser(r.spec.accessKey)] else [])
      + Deletions(order) + [RemoveFinalizer(id)],
      EntitledFor(id, cfg))
  {
    var user := if instance.userDeletionEnabled then [DeleteUser(r.spec.accessKey)] else [];
    var secrets := Deletions(order);
    PlainGuarded(w, user, id, cfg);
    if user != [] { ExecOne(w, user[0]); }
    var v := Exec(w, user);
    assert v.resources == w.resources && v.secrets == w.secrets;
    assert Owned(v, id) == OwnedKeys(w, id.namespace, r.uid);
    assert forall k :: k in order <==> k in SetOf(order);
    DeletionsEntitled(v, id, cfg, order);
    DeletionsKeep(v, order);
    LastCallEntitled(w, Exec(v, secrets), id, r, cfg, instance);
    GuardedAppend(v, secrets, [RemoveFinalizer(id)], EntitledFor(id, cfg));
    GuardedAppend(w, user, secrets + [RemoveFinalizer(id)], EntitledFor(id, cfg));
    assert user + (secrets + [RemoveFinalizer(id)]) == user + secrets + [RemoveFinalizer(id)];
  }

  lemma LastCallEntitled(w: World, x: World, id: Id, r: Resource, cfg: Config, instance: Spec)
    requires id in w.resources && w.resources[id] == r && r.spec.UserSpec? && r.deleting
    requires ClientFor(w, id.namespace, r.spec.s3InstanceRef) == Client(instance) && instance.InstanceSpec?
    requires x.resources == w.resources
    requires forall k :: k in x.secrets ==> k in w.secrets && x.secrets[k] == w.secrets[k]
    requires forall k :: k in x.secrets ==> k !in OwnedKeys(w, id.namespace, r.uid)
    requires instance.userDeletionEnabled ==> r.spec.accessKey !in x.users
    ensures Guarded(x, [RemoveFinalizer(id)], EntitledFor(id, cfg))
  {
    ClientReadsInstanceOnly(w, x, id.namespace, r.spec.s3InstanceRef);
    assert OwnedKeys(x, id.namespace, r.uid) == {};
    assert CleanedUp(x, id);
  }

  /** Every reconcile of an S3User, interrupted anywhere, keeps the protocol. */
  lemma UserKeepsProtocol(w: World, id: Id, cfg: Config, ch: Chance, done: seq<Action>)
    requires HasUser(w, id) && ValidChance(w, id, ch)
    requires Follows(done, ReconcilePlan(w, id, cfg, ch).actions, id, FailureReasons(w.resources[id]))
    ensures Guarded(w, done, EntitledFor(id, cfg))
  {
    var r := w.resources[id];
    var v := WithResource(w, id, Started(r));
    var plan := ReconcilePlan(w, id, cfg, ch).actions;
    OpeningKeepsSecrets(w, id);
    StartEntitled(w, id, cfg);
    if !Blocked(r) {
      StartCallsEffect(w, id);
      if r.deleting {
        TeardownEntitled(v, id, Started(r), cfg, ch);
      } else {
        LiveEntitled(v, id, Started(r), cfg, ch);
      }
      GuardedAppend(w, StartCalls(id, r), plan[|StartCalls(id, r)|..], EntitledFor(id, cfg));
      assert plan == StartCalls(id, r) + plan[|StartCalls(id, r)|..];
    }
    InterruptedEntitled(w, done, plan, id, cfg, FailureReasons(r));
  }
}
