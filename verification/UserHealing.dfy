/**
 * What fault-free reconciles of an S3User achieve: one heals it, a healed one is left alone,
 * and a reconcile that reports Reconciled tells the truth.
 */
module UserHealing {
  import opened Collections
  import opened Model
  import opened Effects
  import opened ControllerHelper
  import opened S3InstanceHelper
  import opened UserPlan
  import opened UserSafety
  import opened UserProtocol
  import opened Protocol

  // ---------- what the calls of a plan lead to ----------

  lemma GrantEffect(w: World, u: Spec)
    requires u.UserSpec? && u.accessKey in w.users
    ensures Exec(w, GrantCalls(u)) ==
      w.(users := w.users[u.accessKey :=
        BackendUser(w.users[u.accessKey].key, w.users[u.accessKey].policies + SetOf(u.policies))])
  {
    var user := w.users[u.accessKey];
    if u.policies == [] {
      assert user.policies + SetOf(u.policies) == user.policies;
      assert w.users == w.users[u.accessKey := BackendUser(user.key, user.policies + SetOf(u.policies))];
    } else {
      ExecOne(w, GrantCalls(u)[0]);
    }
  }

  lemma FreshEffect(w: World, id: Id, r: Resource, key: string, secret: Secret)
    requires r.spec.UserSpec? && r.spec.accessKey !in w.users && Target(id, r) !in w.secrets
    ensures Exec(w, FreshCalls(id, r, key, secret)) ==
      w.(users := w.users[r.spec.accessKey := BackendUser(key, SetOf(r.spec.policies))],
         secrets := w.secrets[Target(id, r) := secret])
  {
    var create, write := CreateUser(r.spec.accessKey, key), CreateSecret(Target(id, r), secret);
    var v := Apply(w, create);
    var x := Apply(v, write);
    ExecCons(w, create, [write] + GrantCalls(r.spec));
    ExecCons(v, write, GrantCalls(r.spec));
    assert FreshCalls(id, r, key, secret) == [create] + ([write] + GrantCalls(r.spec));
    GrantEffect(x, r.spec);
    assert {} + SetOf(r.spec.policies) == SetOf(r.spec.policies);
    assert Exec(x, GrantCalls(r.spec)).users == w.users[r.spec.accessKey := BackendUser(key, SetOf(r.spec.policies))];
  }

  lemma ReportEffect(w: World, id: Id, r: Resource, reason: Reason, site: Site, error: Option<Error>, period: nat)
    requires id in w.resources && w.resources[id] == r
    ensures Exec(w, Report(id, r, reason, site, error, period).actions)
         == WithResource(w, id, r.(conditions := Upsert(r.conditions, NewCondition(r, reason, site, error))))
  {
    var c := NewCondition(r, reason, site, error);
    if Changes(r, c) {
      ExecOne(w, SetCondition(id, c));
      assert Apply(w, SetCondition(id, c)) == WithResource(w, id, r.(conditions := Upsert(r.conditions, c)));
    } else {
      assert r.(conditions := Upsert(r.conditions, c)) == r;
      WithResourceSame(w, id);
    }
  }

  // ---------- healing ----------

  /** The Secret holds the access key and the user's actual secret key. */
  predicate HoldsKeys(w: World, u: Spec, data: map<string, string>)
    requires u.UserSpec?
  {
    && u.accessKey in w.users
    && Field(data, u.accessKeyField) == u.accessKey
    && Field(data, u.secretKeyField) == w.users[u.accessKey].key
  }

  /** The Secret is the only one of the namespace that carries the UID, and holds the user's keys. */
  predicate OnlySecret(w: World, id: Id, k: Key)
    requires HasUser(w, id)
  {
    && OwnedKeys(w, id.namespace, w.resources[id].uid) == {k}
    && HoldsKeys(w, w.resources[id].spec, w.secrets[k].data)
  }

  /**
   * The S3 user exists with the spec's policies, and its only Secret holds its keys:
   * under the name the spec gives, or under the resource's own if it gives none.
   */
  predicate Healthy(w: World, id: Id) {
    && HasUser(w, id)
    && var r := w.resources[id];
       && r.spec.accessKey in w.users
       && w.users[r.spec.accessKey].policies == SetOf(r.spec.policies)
       && (r.spec.secretName != "" ==> OnlySecret(w, id, Key(id.namespace, r.spec.secretName)))
       && (r.spec.secretName == "" ==> OnlySecret(w, id, Key(id.namespace, id.name)))
  }

  /** The owned Secrets carry the access key of the spec: nobody rewrites that field or edits the spec's. */
  predicate OwnedNameUser(w: World, id: Id)
    requires HasUser(w, id)
  {
    var r := w.resources[id];
    forall k :: k in OwnedKeys(w, id.namespace, r.uid) ==>
      Field(w.secrets[k].data, r.spec.accessKeyField) == r.spec.accessKey
  }

  /** What recovery needs all along: usable field names, and no unowned Secret under the target or default name. */
  predicate Recoverable(w: World, id: Id)
    requires HasUser(w, id)
  {
    var r := w.resources[id];
    && !r.deleting
    && FieldsDistinct(r.spec)
    && UnlinkedSecret(w, id, r).None?
    && OwnedNameUser(w, id)
  }

  /** What healing needs besides: a client. */
  ghost predicate Healable(w: World, id: Id)
    requires HasUser(w, id)
  {
    Recoverable(w, id) && ClientFor(w, id.namespace, w.resources[id].spec.s3InstanceRef).Client?
  }

  /** No unlinked Secret and no owned one at the target: the target name is free. */
  lemma TargetFree(w: World, id: Id, r: Resource)
    requires r.spec.UserSpec? && UnlinkedSecret(w, id, r).None?
    requires Target(id, r) !in OwnedKeys(w, id.namespace, r.uid)
    ensures Target(id, r) !in w.secrets
  {
  }

  lemma CreateHeals(w: World, id: Id, r: Resource, cfg: Config, config: S3Config, key: string)
    requires HasUser(w, id) && w.resources[id] == r && FieldsDistinct(r.spec)
    requires r.spec.accessKey !in w.users && Target(id, r) !in w.secrets
    requires OwnedKeys(w, id.namespace, r.uid) == {}
    ensures
      var p := HandleCreatePlan(w, id, r, cfg, config, key);
      && Healthy(Exec(w, p.actions), id) && p.outcome == Finished(cfg.reconcilePeriod)
      && Settled(Exec(w, p.actions), id, r)
  {
    var secret := NewSecretForCR(id, r, key, config);
    var calls := FreshCalls(id, r, key, secret);
    var done := Report(id, r, Reconciled, Success, None, cfg.reconcilePeriod);
    FreshEffect(w, id, r, key, secret);
    NewSecretIsOwn(id, r, key, config);
    SecretDataHolds(r.spec, key, config);
    var v := Exec(w, calls);
    OwnedAfterWrite(w, Target(id, r), secret, id);
    assert OwnedKeys(v, id.namespace, r.uid) == {Target(id, r)};
    SettleHealthy(w, v, id, r, cfg, calls);
  }

  /** The resource carries the Reconciled condition of `r`'s generation, and is otherwise `r`. */
  predicate Settled(w: World, id: Id, r: Resource) {
    && id in w.resources
    && w.resources[id] == r.(conditions := Upsert(r.conditions, NewCondition(r, Reconciled, Success, None)))
  }

  /** Reporting success keeps what was achieved. */
  lemma SettleHealthy(w: World, v: World, id: Id, r: Resource, cfg: Config, calls: seq<Action>)
    requires v == Exec(w, calls) && id in v.resources && v.resources[id] == r && Healthy(v, id)
    ensures
      var p := After(calls, Report(id, r, Reconciled, Success, None, cfg.reconcilePeriod));
      Healthy(Exec(w, p.actions), id) && Settled(Exec(w, p.actions), id, r)
  {
    var done := Report(id, r, Reconciled, Success, None, cfg.reconcilePeriod);
    ExecAppend(w, calls, done.actions);
    ReportEffect(v, id, r, Reconciled, Success, None, cfg.reconcilePeriod);
    var x := Exec(v, done.actions);
    assert OwnedKeys(x, id.namespace, r.uid) == OwnedKeys(v, id.namespace, r.uid);
  }

  lemma RecreateHeals(
    w: World, id: Id, r: Resource, cfg: Config, config: S3Config, key: string, first: seq<Action>)
    requires r.spec.UserSpec? && FieldsDistinct(r.spec)
    requires var v := Exec(w, first);
      && HasUser(v, id) && v.resources[id] == r && Target(id, r) !in v.secrets
      && OwnedKeys(v, id.namespace, r.uid) == {}
    ensures
      var p := RecreatePlan(w, id, r, cfg, config, key, first);
      && Healthy(Exec(w, p.actions), id) && p.outcome == Finished(cfg.reconcilePeriod)
      && Settled(Exec(w, p.actions), id, r)
  {
    var v := Exec(w, first);
    var calls := first + [DeleteUser(r.spec.accessKey)];
    ExecSnoc(w, first, DeleteUser(r.spec.accessKey));
    var x := Exec(w, calls);
    assert x == v.(users := v.users - {r.spec.accessKey});
    assert OwnedKeys(x, id.namespace, r.uid) == {};
    CreateHeals(x, id, r, cfg, config, key);
    ExecAppend(w, calls, HandleCreatePlan(x, id, r, cfg, config, key).actions);
  }

  lemma OnlyOneGone(v: World, id: Id, r: Resource)
    requires HasUser(v, id) && v.resources[id] == r && OwnedKeys(v, id.namespace, r.uid) == {Target(id, r)}
    ensures
      var x := Apply(v, DeleteSecret(Target(id, r)));
      && HasUser(x, id) && x.resources[id] == r && Target(id, r) !in x.secrets
      && OwnedKeys(x, id.namespace, r.uid) == {}
  {
    var at := Target(id, r);
    assert at in OwnedKeys(v, id.namespace, r.uid);
    assert Apply(v, DeleteSecret(at)) == v.(secrets := v.secrets - {at});
  }

  lemma CheckHeals(w: World, id: Id, r: Resource, cfg: Config, config: S3Config, key: string)
    requires HasUser(w, id) && w.resources[id] == r && FieldsDistinct(r.spec) && r.spec.accessKey in w.users
    requires OwnedKeys(w, id.namespace, r.uid) == {Target(id, r)} && OwnedNameUser(w, id)
    ensures
      var p := CheckPlan(w, id, r, cfg, config, key, Target(id, r), true);
      && Healthy(Exec(w, p.actions), id) && p.outcome == Finished(cfg.reconcilePeriod)
      && Settled(Exec(w, p.actions), id, r)
  {
    var at := Target(id, r);
    assert at in OwnedKeys(w, id.namespace, r.uid);
    var fix := PolicyCalls(r.spec.accessKey, w.users[r.spec.accessKey].policies, SetOf(r.spec.policies));
    PolicyCallsEffect(w, r.spec.accessKey, SetOf(r.spec.policies));
    var v := Exec(w, fix);
    assert OwnedKeys(v, id.namespace, r.uid) == {at};
    if CredentialsValid(w, r.spec, w.secrets[at].data) {
      SettleHealthy(w, v, id, r, cfg, fix);
    } else {
      ReplaceHeals(w, id, r, cfg, config, key, fix);
    }
  }

  /** The owned Secret goes, then the user, and both are made anew. */
  lemma ReplaceHeals(w: World, id: Id, r: Resource, cfg: Config, config: S3Config, key: string, fix: seq<Action>)
    requires r.spec.UserSpec? && FieldsDistinct(r.spec)
    requires var v := Exec(w, fix);
      HasUser(v, id) && v.resources[id] == r && OwnedKeys(v, id.namespace, r.uid) == {Target(id, r)}
    ensures
      var p := RecreatePlan(w, id, r, cfg, config, key, fix + [DeleteSecret(Target(id, r))]);
      && Healthy(Exec(w, p.actions), id) && p.outcome == Finished(cfg.reconcilePeriod)
      && Settled(Exec(w, p.actions), id, r)
  {
    var at := Target(id, r);
    ExecSnoc(w, fix, DeleteSecret(at));
    OnlyOneGone(Exec(w, fix), id, r);
    RecreateHeals(w, id, r, cfg, config, key, fix + [DeleteSecret(at)]);
  }

  lemma UpdateHeals(w: World, id: Id, r: Resource, cfg: Config, config: S3Config, ch: Chance)
    requires HasUser(w, id) && w.resources[id] == r && r.spec.accessKey in w.users && Healable(w, id)
    requires Lists(ch.order, OwnedKeys(w, id.namespace, r.uid))
    ensures
      var p := HandleUpdatePlan(w, id, r, cfg, config, ch);
      && Healthy(Exec(w, p.actions), id) && p.outcome == Finished(cfg.reconcilePeriod)
      && Settled(Exec(w, p.actions), id, r)
  {
    var owned := OwnedKeys(w, id.namespace, r.uid);
    var at := Target(id, r);
    if owned == {} {
      TargetFree(w, id, r);
      RecreateHeals(w, id, r, cfg, config, ch.key, []);
    } else {
      var stale := Deletions(Without(ch.order, at));
      DeletionsKeep(w, Without(ch.order, at));
      StaleLeavesTarget(w, id, r, ch.order);
      var v := Exec(w, stale);
      if at in owned {
        assert OwnedKeys(v, id.namespace, r.uid) == {at};
        assert at in OwnedKeys(v, id.namespace, r.uid) && v.secrets[at] == w.secrets[at];
        CheckHeals(v, id, r, cfg, config, ch.key);
        ExecAppend(w, stale, CheckPlan(v, id, r, cfg, config, ch.key, at, true).actions);
      } else {
        TargetFree(w, id, r);
        RecreateHeals(w, id, r, cfg, config, ch.key, stale);
      }
    }
  }

  lemma OpeningKeepsHealable(w: World, id: Id)
    requires HasUser(w, id) && Healable(w, id)
    ensures Healable(WithResource(w, id, Started(w.resources[id])), id)
  {
    OpeningKeepsSecrets(w, id);
    ClientIgnoresOpening(w, id);
  }

  lemma OpeningKeepsSafe(w: World, id: Id)
    requires HasUser(w, id) && Safe(w, id)
    ensures Safe(WithResource(w, id, Started(w.resources[id])), id)
  {
    var v := WithResource(w, id, Started(w.resources[id]));
    OpeningKeepsSecrets(w, id);
    assert Owned(v, id) == Owned(w, id) && AccessKey(v, id) == AccessKey(w, id) && v.users == w.users;
  }

  /**
   * Self-healing: from any safe world one fault-free reconcile leaves the user healthy, whatever was deleted,
   * rewritten or left half done before, provided no unowned Secret has the target or the default name.
   */
  lemma SelfHealing(w: World, id: Id, cfg: Config, ch: Chance)
    requires HasUser(w, id) && ValidChance(w, id, ch) && Safe(w, id) && Healable(w, id)
    ensures
      var p := ReconcilePlan(w, id, cfg, ch);
      && Healthy(Exec(w, p.actions), id) && p.outcome == Finished(cfg.reconcilePeriod)
      && Settled(Exec(w, p.actions), id, Started(w.resources[id]))
  {
    var r := w.resources[id];
    var s := Started(r);
    var v := WithResource(w, id, s);
    OpeningKeepsHealable(w, id);
    OpeningKeepsSafe(w, id);
    StartCallsEffect(w, id);
    var body := HandleReconciliationPlan(v, id, s, cfg, ch);
    assert OwnedKeys(v, id.namespace, s.uid) == OwnedKeys(w, id.namespace, r.uid);
    var config := ClientFor(v, id.namespace, s.spec.s3InstanceRef).instance.config;
    if s.spec.accessKey !in v.users {
      assert Owned(v, id) == {};
      TargetFree(v, id, s);
      CreateHeals(v, id, s, cfg, config, ch.key);
    } else {
      UpdateHeals(v, id, s, cfg, config, ch);
    }
    ExecAppend(w, StartCalls(id, r), body.actions);
  }

  // ---------- quiescence ----------

  /** A reconcile leaves behind no unowned Secret that was not there, unowned, before. */
  lemma {:induction false} UnownedNotMade(w: World, done: seq<Action>, id: Id, uid: string, cfg: Config, k: Key)
    requires Guarded(w, done, EntitledFor(id, cfg)) && (id in w.resources ==> w.resources[id].uid == uid)
    ensures Unowned(Exec(w, done), k, uid) ==> Unowned(w, k, uid)
    decreases |done|
  {
    if done != [] {
      var a := done[0];
      ResourcesKept(w, a, id);
      SecretsKept(w, a);
      UnownedNotMade(Apply(w, a), done[1..], id, uid, cfg, k);
      if a.CreateSecret? || a.UpdateSecret? {
        assert a.secret.owners[0] in a.secret.owners;
        assert OwnedBy(a.secret, uid);
      }
    }
  }

  /** Healing leaves the user healable: the premises of the next reconcile hold again. */
  lemma HealedIsHealable(w: World, id: Id, cfg: Config, ch: Chance)
    requires HasUser(w, id) && ValidChance(w, id, ch) && Safe(w, id) && Healable(w, id)
    ensures
      var x := Exec(w, ReconcilePlan(w, id, cfg, ch).actions);
      HasUser(x, id) && Healable(x, id) && Safe(x, id)
  {
    var done := ReconcilePlan(w, id, cfg, ch).actions;
    var x := Exec(w, done);
    var r := w.resources[id];
    SelfHealing(w, id, cfg, ch);
    UserKeepsProtocol(w, id, cfg, ch, done);
    UnownedNotMade(w, done, id, r.uid, cfg, Key(id.namespace, r.spec.secretName));
    UnownedNotMade(w, done, id, r.uid, cfg, Key(id.namespace, id.name));
    var iid := InstanceOf(r.spec.s3InstanceRef, id.namespace);
    assert iid != id;
    OnlyOwnResource(w, done, id, cfg, iid);
    ClientReadsInstanceOnly(w, x, id.namespace, r.spec.s3InstanceRef);
  }

  /** Nothing is left to do: the finalizer and the Reconciled condition are stored. */
  predicate AtRest(r: Resource) {
    && Operator in r.finalizers
    && r.conditions != []
    && !Changes(r, NewCondition(r, Reconciled, Success, None))
  }

  /** A healthy user at rest is left alone: its reconcile makes no call at all. */
  lemma HealthyIsLeftAlone(w: World, id: Id, cfg: Config, ch: Chance)
    requires HasUser(w, id) && ValidChance(w, id, ch) && Healthy(w, id) && Healable(w, id) && AtRest(w.resources[id])
    ensures ReconcilePlan(w, id, cfg, ch) == Plan([], Finished(cfg.reconcilePeriod))
  {
    var r := w.resources[id];
    assert r.finalizers + {Operator} == r.finalizers;
    assert Started(r) == r;
    WithResourceSame(w, id);
    var at := Target(id, r);
    assert at in OwnedKeys(w, id.namespace, r.uid);
    WithoutNothingLeft(ch.order, at);
    assert Deletions(Without(ch.order, at)) == [];
    var config := ClientFor(w, id.namespace, r.spec.s3InstanceRef).instance.config;
    assert PolicyCalls(r.spec.accessKey, w.users[r.spec.accessKey].policies, SetOf(r.spec.policies)) == [];
    assert CredentialsValid(w, r.spec, w.secrets[at].data);
    assert CheckPlan(w, id, r, cfg, config, ch.key, at, true) == Plan([], Finished(cfg.reconcilePeriod));
    assert HandleUpdatePlan(w, id, r, cfg, config, ch) == Plan([], Finished(cfg.reconcilePeriod));
  }

  /** Quiescence: after one healing reconcile the next makes no call, in whatever order it lists Secrets. */
  lemma HealingIsFinal(w: World, id: Id, cfg: Config, ch: Chance, next: Chance)
    requires HasUser(w, id) && ValidChance(w, id, ch) && Safe(w, id) && Healable(w, id)
    requires ValidChance(Exec(w, ReconcilePlan(w, id, cfg, ch).actions), id, next)
    ensures ReconcilePlan(Exec(w, ReconcilePlan(w, id, cfg, ch).actions), id, cfg, next)
         == Plan([], Finished(cfg.reconcilePeriod))
  {
    var x := Exec(w, ReconcilePlan(w, id, cfg, ch).actions);
    var s := Started(w.resources[id]);
    SelfHealing(w, id, cfg, ch);
    HealedIsHealable(w, id, cfg, ch);
    UpsertIsReadBack(s.conditions, NewCondition(s, Reconciled, Success, None), ReconciledType);
    HealthyIsLeftAlone(x, id, cfg, next);
  }
}
