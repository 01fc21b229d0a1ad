/**
 * What every crash point of a live S3User keeps: at most one Secret is owned, and if one is, the S3 user exists.
 * It is kept exactly when the reconcile does not start in a conflict between an owned and an unlinked Secret.
 */
module UserSafety {
  import opened Collections
  import opened Model
  import opened Effects
  import opened ControllerHelper
  import opened S3InstanceHelper
  import opened UserPlan

  predicate LiveUser(w: World, id: Id) {
    HasUser(w, id) && !w.resources[id].deleting
  }

  function Owned(w: World, id: Id): set<Key>
    requires HasUser(w, id)
  {
    OwnedKeys(w, id.namespace, w.resources[id].uid)
  }

  function AccessKey(w: World, id: Id): string
    requires HasUser(w, id)
  {
    w.resources[id].spec.accessKey
  }

  ghost predicate Safe(w: World, id: Id) {
    LiveUser(w, id) ==>
      && (forall a, b :: a in Owned(w, id) && b in Owned(w, id) ==> a == b)
      && (Owned(w, id) != {} ==> AccessKey(w, id) in w.users)
  }

  /** `Safe` for one resource, as a property of worlds. */
  ghost function SafeFor(id: Id): World -> bool {
    w => Safe(w, id)
  }

  /**
   * When a single call keeps `Safe`: the user goes only when no Secret is owned,
   * and a Secret becomes owned only when no other is and the user exists.
   */
  predicate SafeCall(w: World, a: Action, id: Id) {
    LiveUser(w, id) ==>
      match a
      case DeleteUser(u) => u == AccessKey(w, id) ==> Owned(w, id) == {}
      case CreateSecret(k, s) => MayOwn(w, k, s, id)
      case UpdateSecret(k, s) => MayOwn(w, k, s, id)
      case _ => true
  }

  predicate MayOwn(w: World, k: Key, s: Secret, id: Id)
    requires LiveUser(w, id)
  {
    k.namespace == id.namespace && OwnedBy(s, w.resources[id].uid) ==>
      Owned(w, id) <= {k} && AccessKey(w, id) in w.users
  }

  ghost function SafeCallFor(id: Id): (World, Action) -> bool {
    (w, a) => SafeCall(w, a, id)
  }

  /** Writing a Secret changes the owned ones by that Secret alone. */
  lemma OwnedAfterWrite(w: World, k: Key, s: Secret, id: Id)
    requires HasUser(w, id)
    ensures
      var v := w.(secrets := w.secrets[k := s]);
      Owned(v, id) == if k.namespace == id.namespace && OwnedBy(s, w.resources[id].uid)
                      then Owned(w, id) + {k} else Owned(w, id) - {k}
  {
  }

  lemma SafeStep(w: World, a: Action, id: Id)
    requires Safe(w, id) && SafeCall(w, a, id)
    ensures Safe(Apply(w, a), id)
  {
    var v := Apply(w, a);
    ResourcesKept(w, a, id);
    if LiveUser(v, id) {
      SecretsKept(w, a);
      if AccessKey(w, id) in w.users { UsersKept(w, a, AccessKey(w, id)); }
      if a.DeleteSecret? {
        assert Owned(v, id) <= Owned(w, id);
      } else if (a.CreateSecret? || a.UpdateSecret?) && Permitted(w, a) {
        OwnedAfterWrite(w, a.at, a.secret, id);
      } else {
        assert v.secrets == w.secrets;
        assert Owned(v, id) == Owned(w, id);
      }
    }
  }

  lemma {:induction false} SafeAlong(w: World, done: seq<Action>, id: Id)
    requires Safe(w, id) && Guarded(w, done, SafeCallFor(id))
    ensures AllAlong(w, done, SafeFor(id))
    decreases |done|
  {
    if done != [] {
      SafeStep(w, done[0], id);
      SafeAlong(Apply(w, done[0]), done[1..], id);
    }
  }

  // ---------- the plans make safe calls ----------

  /** Calls that are safe in any world. */
  predicate Easy(a: Action) {
    !a.DeleteUser? && !a.CreateSecret? && !a.UpdateSecret?
  }

  lemma {:induction false} EasyGuarded(w: World, done: seq<Action>, id: Id)
    requires forall i :: 0 <= i < |done| ==> Easy(done[i])
    ensures Guarded(w, done, SafeCallFor(id))
    decreases |done|
  {
    if done != [] {
      EasyGuarded(Apply(w, done[0]), done[1..], id);
    }
  }

  lemma FreshGuarded(w: World, id: Id, r: Resource, key: string, secret: Secret)
    requires HasUser(w, id) && w.resources[id] == r && OwnedKeys(w, id.namespace, r.uid) == {}
    ensures Guarded(w, FreshCalls(id, r, key, secret), SafeCallFor(id))
  {
    var create, write := CreateUser(r.spec.accessKey, key), CreateSecret(Target(id, r), secret);
    var v := Apply(w, create);
    assert Owned(v, id) == {};
    EasyGuarded(Apply(v, write), GrantCalls(r.spec), id);
    GuardedCons(v, write, GrantCalls(r.spec), SafeCallFor(id));
    GuardedCons(w, create, [write] + GrantCalls(r.spec), SafeCallFor(id));
    assert FreshCalls(id, r, key, secret) == [create] + ([write] + GrantCalls(r.spec));
  }

  lemma TakeOverGuarded(
    w: World, id: Id, r: Resource, cfg: Config, key: string, secret: Secret, data: map<string, string>)
    requires HasUser(w, id) && w.resources[id] == r && OwnedKeys(w, id.namespace, r.uid) == {}
    ensures Guarded(w, TakeOverCalls(id, r, cfg, key, secret, data), SafeCallFor(id))
  {
    var create := CreateUser(r.spec.accessKey, KeyInPlace(r, cfg, key, data));
    var v := Apply(w, create);
    assert Owned(v, id) == {};
    var write := UpdateSecret(Target(id, r), secret);
    var rest := (if cfg.overrideExistingSecret then [write] else []) + GrantCalls(r.spec);
    if cfg.overrideExistingSecret {
      OverwriteGuarded(v, id, r, write);
    } else {
      assert rest == GrantCalls(r.spec);
      EasyGuarded(v, rest, id);
    }
    GuardedCons(w, create, rest, SafeCallFor(id));
    assert TakeOverCalls(id, r, cfg, key, secret, data) == [create] + rest;
  }

  /** With the user there and no Secret owned, its target may be overwritten. */
  lemma OverwriteGuarded(v: World, id: Id, r: Resource, write: Action)
    requires HasUser(v, id) && v.resources[id] == r && Owned(v, id) == {} && AccessKey(v, id) in v.users
    requires write.UpdateSecret? && write.at == Target(id, r)
    ensures Guarded(v, [write] + GrantCalls(r.spec), SafeCallFor(id))
  {
    EasyGuarded(Apply(v, write), GrantCalls(r.spec), id);
    GuardedCons(v, write, GrantCalls(r.spec), SafeCallFor(id));
  }

  lemma CreateGuarded(w: World, id: Id, r: Resource, cfg: Config, config: S3Config, key: string)
    requires HasUser(w, id) && w.resources[id] == r && OwnedKeys(w, id.namespace, r.uid) == {}
    ensures Guarded(w, HandleCreatePlan(w, id, r, cfg, config, key).actions, SafeCallFor(id))
  {
    var at := Target(id, r);
    var secret := NewSecretForCR(id, r, key, config);
    var done := Report(id, r, Reconciled, Success, None, cfg.reconcilePeriod).actions;
    if at !in w.secrets {
      FreshGuarded(w, id, r, key, secret);
      EasyGuarded(Exec(w, FreshCalls(id, r, key, secret)), done, id);
      GuardedAppend(w, FreshCalls(id, r, key, secret), done, SafeCallFor(id));
    } else if OwnedElsewhere(w.secrets[at], r.uid) {
      EasyGuarded(w, HandleCreatePlan(w, id, r, cfg, config, key).actions, id);
    } else if cfg.overrideExistingSecret || cfg.readExistingSecret {
      var calls := TakeOverCalls(id, r, cfg, key, secret, w.secrets[at].data);
      TakeOverGuarded(w, id, r, cfg, key, secret, w.secrets[at].data);
      EasyGuarded(Exec(w, calls), done, id);
      GuardedAppend(w, calls, done, SafeCallFor(id));
    } else {
      EasyGuarded(w, HandleCreatePlan(w, id, r, cfg, config, key).actions, id);
    }
  }

  lemma RecreateGuarded(
    w: World, id: Id, r: Resource, cfg: Config, config: S3Config, key: string, first: seq<Action>)
    requires r.spec.UserSpec? && Guarded(w, first, SafeCallFor(id))
    requires var v := Exec(w, first);
             HasUser(v, id) && v.resources[id] == r && OwnedKeys(v, id.namespace, r.uid) == {}
    ensures Guarded(w, RecreatePlan(w, id, r, cfg, config, key, first).actions, SafeCallFor(id))
  {
    var v := Exec(w, first);
    var delete := DeleteUser(r.spec.accessKey);
    var create := HandleCreatePlan(Apply(v, delete), id, r, cfg, config, key).actions;
    NoSecretLeft(v, id, r);
    CreateGuarded(Apply(v, delete), id, r, cfg, config, key);
    GuardedMiddle(w, first, delete, create, SafeCallFor(id));
  }

  /** With no Secret owned the user may go, and what follows starts with none owned. */
  lemma NoSecretLeft(v: World, id: Id, r: Resource)
    requires HasUser(v, id) && v.resources[id] == r && OwnedKeys(v, id.namespace, r.uid) == {}
    ensures
      var delete := DeleteUser(r.spec.accessKey);
      var x := Apply(v, delete);
      && SafeCall(v, delete, id)
      && HasUser(x, id) && x.resources[id] == r && OwnedKeys(x, id.namespace, r.uid) == {}
  {
    assert Apply(v, DeleteUser(r.spec.accessKey)).secrets == v.secrets;
  }

  /** Detaching and attaching leave the user with exactly the wanted policies, and touch nothing else. */
  lemma PolicyCallsEffect(w: World, user: string, want: set<PolicyName>)
    requires user in w.users
    ensures Exec(w, PolicyCalls(user, w.users[user].policies, want))
         == w.(users := w.users[user := BackendUser(w.users[user].key, want)])
  {
    var have := w.users[user].policies;
    var detach := if have - want != {} then [DetachPolicies(user, have - want)] else [];
    var attach := if want - have != {} then [AttachPolicies(user, want - have)] else [];
    var got := have - (have - want);
    assert got + (want - have) == want;
    ExecAppend(w, detach, attach);
    DetachEffect(w, user, have - want);
    AttachEffect(Exec(w, detach), user, want - have);
    assert w.users[user := BackendUser(w.users[user].key, got)][user := BackendUser(w.users[user].key, want)]
        == w.users[user := BackendUser(w.users[user].key, want)];
  }

  lemma DetachEffect(w: World, user: string, names: set<PolicyName>)
    requires user in w.users
    ensures Exec(w, if names != {} then [DetachPolicies(user, names)] else [])
         == w.(users := w.users[user := BackendUser(w.users[user].key, w.users[user].policies - names)])
  {
    if names != {} {
      ExecOne(w, DetachPolicies(user, names));
    } else {
      assert w.users[user].policies - names == w.users[user].policies;
      assert w.users[user := w.users[user]] == w.users;
    }
  }

  lemma AttachEffect(w: World, user: string, names: set<PolicyName>)
    requires user in w.users
    ensures Exec(w, if names != {} then [AttachPolicies(user, names)] else [])
         == w.(users := w.users[user := BackendUser(w.users[user].key, w.users[user].policies + names)])
  {
    if names != {} {
      ExecOne(w, AttachPolicies(user, names));
    } else {
      assert w.users[user].policies + names == w.users[user].policies;
      assert w.users[user := w.users[user]] == w.users;
    }
  }

  lemma CheckGuarded(
    w: World, id: Id, r: Resource, cfg: Config, config: S3Config, key: string, current: Key, owned: bool)
    requires HasUser(w, id) && w.resources[id] == r && r.spec.accessKey in w.users && current in w.secrets
    requires CredentialsValid(w, r.spec, w.secrets[current].data)
          || OwnedKeys(w, id.namespace, r.uid) <= if owned then {current} else {}
    ensures Guarded(w, CheckPlan(w, id, r, cfg, config, key, current, owned).actions, SafeCallFor(id))
  {
    var fix := PolicyCalls(r.spec.accessKey, w.users[r.spec.accessKey].policies, SetOf(r.spec.policies));
    EasyGuarded(w, fix, id);
    if CredentialsValid(w, r.spec, w.secrets[current].data) {
      EasyGuarded(w, CheckPlan(w, id, r, cfg, config, key, current, owned).actions, id);
    } else {
      PolicyCallsEffect(w, r.spec.accessKey, SetOf(r.spec.policies));
      var v := Exec(w, fix);
      assert OwnedKeys(v, id.namespace, r.uid) == OwnedKeys(w, id.namespace, r.uid);
      if owned {
        ExecSnoc(w, fix, DeleteSecret(current));
        EasyGuarded(w, fix + [DeleteSecret(current)], id);
        assert OwnedKeys(Apply(v, DeleteSecret(current)), id.namespace, r.uid) == {};
        RecreateGuarded(w, id, r, cfg, config, key, fix + [DeleteSecret(current)]);
      } else {
        assert fix + [] == fix;
        RecreateGuarded(w, id, r, cfg, config, key, fix);
      }
    }
  }

  // ---------- exactly when a reconcile is safe ----------

  /** An unlinked Secret with bad credentials is compared with, while another Secret is owned. */
  ghost predicate Conflict(w: World, id: Id)
    requires HasUser(w, id)
  {
    var r := w.resources[id];
    && ClientFor(w, id.namespace, r.spec.s3InstanceRef).Client?
    && r.spec.accessKey in w.users
    && Owned(w, id) != {}
    && var unlinked := UnlinkedSecret(w, id, r);
       unlinked.Some? && !CredentialsValid(w, r.spec, w.secrets[unlinked.value].data)
  }

  lemma UpdateGuarded(w: World, id: Id, r: Resource, cfg: Config, config: S3Config, ch: Chance)
    requires HasUser(w, id) && w.resources[id] == r && r.spec.accessKey in w.users
    requires Lists(ch.order, OwnedKeys(w, id.namespace, r.uid))
    requires ClientFor(w, id.namespace, r.spec.s3InstanceRef).Client? && !Conflict(w, id)
    ensures Guarded(w, HandleUpdatePlan(w, id, r, cfg, config, ch).actions, SafeCallFor(id))
  {
    var owned := OwnedKeys(w, id.namespace, r.uid);
    var unlinked := UnlinkedSecret(w, id, r);
    if owned == {} && unlinked.None? {
      RecreateGuarded(w, id, r, cfg, config, ch.key, []);
    } else if unlinked.Some? {
      CheckGuarded(w, id, r, cfg, config, ch.key, unlinked.value, false);
    } else {
      var at := Target(id, r);
      var stale := Deletions(Without(ch.order, at));
      DeletionsKeep(w, Without(ch.order, at));
      EasyGuarded(w, stale, id);
      var v := Exec(w, stale);
      StaleLeavesTarget(w, id, r, ch.order);
      if at in owned {
        CheckGuarded(v, id, r, cfg, config, ch.key, at, true);
        GuardedAppend(w, stale, CheckPlan(v, id, r, cfg, config, ch.key, at, true).actions, SafeCallFor(id));
      } else {
        RecreateGuarded(w, id, r, cfg, config, ch.key, stale);
      }
    }
  }

  /** Once the stale Secrets are gone, only the target can still be owned. */
  lemma StaleLeavesTarget(w: World, id: Id, r: Resource, order: seq<Key>)
    requires r.spec.UserSpec? && Lists(order, OwnedKeys(w, id.namespace, r.uid))
    ensures OwnedKeys(Exec(w, Deletions(Without(order, Target(id, r)))), id.namespace, r.uid)
         == OwnedKeys(w, id.namespace, r.uid) * {Target(id, r)}
  {
    var at := Target(id, r);
    DeletionsKeep(w, Without(order, at));
    assert forall k :: k in SetOf(order) <==> k in order;
    assert forall k :: k in SetOf(Without(order, at)) <==> k in order && k != at;
  }

  /** A new status or finalizer of the S3User itself does not change the client it gets. */
  lemma ClientIgnoresOpening(w: World, id: Id)
    requires HasUser(w, id)
    ensures
      var r := w.resources[id];
      ClientFor(WithResource(w, id, Started(r)), id.namespace, r.spec.s3InstanceRef)
        == ClientFor(w, id.namespace, r.spec.s3InstanceRef)
  {
    var r := w.resources[id];
    if InstanceOf(r.spec.s3InstanceRef, id.namespace) != id {
      ClientReadsInstanceOnly(w, WithResource(w, id, Started(r)), id.namespace, r.spec.s3InstanceRef);
    }
  }

  lemma OpeningKeepsSecrets(w: World, id: Id)
    requires HasUser(w, id)
    ensures
      var r, v := w.resources[id], WithResource(w, id, Started(w.resources[id]));
      && OwnedKeys(v, id.namespace, r.uid) == OwnedKeys(w, id.namespace, r.uid)
      && UnlinkedSecret(v, id, Started(r)) == UnlinkedSecret(w, id, r)
      && (Conflict(v, id) <==> Conflict(w, id))
  {
    ClientIgnoresOpening(w, id);
    var r, v := w.resources[id], WithResource(w, id, Started(w.resources[id]));
    assert OwnedKeys(v, id.namespace, r.uid) == OwnedKeys(w, id.namespace, r.uid);
  }

  lemma LivePlanGuarded(w: World, id: Id, cfg: Config, ch: Chance)
    requires LiveUser(w, id) && ValidChance(w, id, ch) && Safe(w, id) && !Conflict(w, id)
    ensures Guarded(w, ReconcilePlan(w, id, cfg, ch).actions, SafeCallFor(id))
  {
    var r := w.resources[id];
    var s := Started(r);
    var v := WithResource(w, id, s);
    OpeningKeepsSecrets(w, id);
    StartCallsEffect(w, id);
    EasyGuarded(w, StartCalls(id, r), id);
    var body := HandleReconciliationPlan(v, id, s, cfg, ch);
    match ClientFor(v, id.namespace, s.spec.s3InstanceRef) {
      case Panicked =>
      case Unavailable(e) => EasyGuarded(v, body.actions, id);
      case Client(instance) =>
        if s.spec.accessKey !in v.users {
          CreateGuarded(v, id, s, cfg, instance.config, ch.key);
        } else {
          UpdateGuarded(v, id, s, cfg, instance.config, ch);
        }
    }
    GuardedAppend(w, StartCalls(id, r), body.actions, SafeCallFor(id));
  }

  /** In a conflict the plan deletes the user while the other Secret is still owned. */
  lemma ConflictPlan(w: World, id: Id, cfg: Config, ch: Chance) returns (n: nat)
    requires LiveUser(w, id) && ValidChance(w, id, ch) && Conflict(w, id)
    ensures n <= |ReconcilePlan(w, id, cfg, ch).actions|
    ensures !Safe(Exec(w, ReconcilePlan(w, id, cfg, ch).actions[..n]), id)
  {
    var r := w.resources[id];
    var s := Started(r);
    var v := WithResource(w, id, s);
    OpeningKeepsSecrets(w, id);
    StartCallsEffect(w, id);
    var user := s.spec.accessKey;
    var fix := PolicyCalls(user, v.users[user].policies, SetOf(s.spec.policies));
    var start := StartCalls(id, r);
    var calls := fix + [] + [DeleteUser(user)];
    var plan := ReconcilePlan(w, id, cfg, ch).actions;
    n := |start + calls|;
    assert plan[..n] == start + calls;
    ExecAppend(w, start, calls);
    assert fix + [] == fix;
    ExecSnoc(v, fix, DeleteUser(user));
    PolicyCallsEffect(v, user, SetOf(s.spec.policies));
    var x := Exec(w, plan[..n]);
    assert x.secrets == w.secrets && x.resources[id] == s;
    assert Owned(x, id) == Owned(w, id);
  }

  /** The crash-point invariant holds at every point of a reconcile exactly when it starts outside a conflict. */
  lemma CrashSafeExactly(w: World, id: Id, cfg: Config, ch: Chance)
    requires LiveUser(w, id) && ValidChance(w, id, ch) && Safe(w, id)
    ensures AllAlong(w, ReconcilePlan(w, id, cfg, ch).actions, SafeFor(id)) <==> !Conflict(w, id)
  {
    var plan := ReconcilePlan(w, id, cfg, ch).actions;
    if Conflict(w, id) {
      var n := ConflictPlan(w, id, cfg, ch);
      AllAlongPrefix(w, plan, n, SafeFor(id));
    } else {
      LivePlanGuarded(w, id, cfg, ch);
      SafeAlong(w, plan, id);
    }
  }
}
