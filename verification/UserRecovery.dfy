/** Recovery: after any run of crashed and failed reconciles and outside changes, one reconcile heals the S3User. */
module UserRecovery {
  import opened Collections
  import opened Model
  import opened Effects
  import opened S3InstanceHelper
  import opened UserPlan
  import opened UserSafety
  import opened UserProtocol
  import opened UserHealing
  import opened UserRuns
  import opened Protocol

  lemma NamedStep(w: World, a: Action, id: Id, cfg: Config)
    requires LiveUser(w, id) && FieldsDistinct(w.resources[id].spec) && OwnedNameUser(w, id)
    requires Entitled(w, a, id, cfg)
    ensures LiveUser(Apply(w, a), id) && Apply(w, a).resources[id].spec == w.resources[id].spec
    ensures OwnedNameUser(Apply(w, a), id)
  {
    var v := Apply(w, a);
    FinalizersKept(w, a, id);
    ResourcesKept(w, a, id);
    SecretsKept(w, a);
    forall k | k in OwnedKeys(v, id.namespace, v.resources[id].uid)
      ensures Field(v.secrets[k].data, v.resources[id].spec.accessKeyField) == v.resources[id].spec.accessKey
    {
      if k in w.secrets && v.secrets[k] == w.secrets[k] {
        assert k in OwnedKeys(w, id.namespace, w.resources[id].uid);
      }
    }
  }

  /** Whatever Secrets a live reconcile leaves owned carry the access key of the spec. */
  lemma {:induction false} OwnedStayNamed(w: World, done: seq<Action>, id: Id, cfg: Config)
    requires LiveUser(w, id) && FieldsDistinct(w.resources[id].spec) && OwnedNameUser(w, id)
    requires Guarded(w, done, EntitledFor(id, cfg))
    ensures LiveUser(Exec(w, done), id) && OwnedNameUser(Exec(w, done), id)
    decreases |done|
  {
    if done != [] {
      NamedStep(w, done[0], id, cfg);
      OwnedStayNamed(Apply(w, done[0]), done[1..], id, cfg);
    }
  }

  lemma NoConflict(w: World, id: Id)
    requires HasUser(w, id) && Recoverable(w, id)
    ensures !Conflict(w, id)
  {
  }

  /** Wherever a reconcile is interrupted, and with or without a client, it leaves the user safe and recoverable. */
  lemma InterruptedIsRecoverable(w: World, id: Id, cfg: Config, ch: Chance, done: seq<Action>)
    requires HasUser(w, id) && ValidChance(w, id, ch) && Safe(w, id) && Recoverable(w, id)
    requires Follows(done, ReconcilePlan(w, id, cfg, ch).actions, id, FailureReasons(w.resources[id]))
    ensures HasUser(Exec(w, done), id) && Safe(Exec(w, done), id) && Recoverable(Exec(w, done), id)
  {
    var r := w.resources[id];
    var v := Exec(w, done);
    NoConflict(w, id);
    assert OwnBurst(w, v, id, cfg);
    StepSafe(w, v, id, cfg);
    UserKeepsProtocol(w, id, cfg, ch, done);
    LiveStays(w, done, id, cfg);
    OwnedStayNamed(w, done, id, cfg);
    UnownedNotMade(w, done, id, r.uid, cfg, Key(id.namespace, r.spec.secretName));
    UnownedNotMade(w, done, id, r.uid, cfg, Key(id.namespace, id.name));
  }

  /** With a client, it leaves the user healable by the next reconcile. */
  lemma InterruptedIsHealable(w: World, id: Id, cfg: Config, ch: Chance, done: seq<Action>)
    requires HasUser(w, id) && ValidChance(w, id, ch) && Safe(w, id) && Healable(w, id)
    requires Follows(done, ReconcilePlan(w, id, cfg, ch).actions, id, FailureReasons(w.resources[id]))
    ensures HasUser(Exec(w, done), id) && Safe(Exec(w, done), id) && Healable(Exec(w, done), id)
  {
    InterruptedIsRecoverable(w, id, cfg, ch, done);
    UserKeepsProtocol(w, id, cfg, ch, done);
    LiveStays(w, done, id, cfg);
    var ref := w.resources[id].spec.s3InstanceRef;
    var iid := InstanceOf(ref, id.namespace);
    assert iid != id;
    OnlyOwnResource(w, done, id, cfg, iid);
    ClientReadsInstanceOnly(w, Exec(w, done), id.namespace, ref);
  }

  /** A reconcile of the user, stopped by a crash or by failed calls. */
  ghost predicate Crashes(w: World, v: World, id: Id, cfg: Config) {
    && HasUser(w, id)
    && exists ch, done ::
      && ValidChance(w, id, ch)
      && Follows(done, ReconcilePlan(w, id, cfg, ch).actions, id, FailureReasons(w.resources[id]))
      && v == Exec(w, done)
  }

  /**
   * Anything else: owned Secrets deleted or their keys rewritten, the user's key or policies changed, the spec edited,
   * the instance unreachable or gone, as long as the S3 user is not deleted under an owned Secret, the names stay
   * free of unowned Secrets and the owned ones go on naming the user.
   */
  ghost predicate Disturbs(w: World, v: World, id: Id) {
    Outside(w, v, id) && HasUser(v, id) && Recoverable(v, id)
  }

  // ---------- the reconciles of other resources ----------

  /** The calls write no Secret under the configured or the default name of the user. */
  predicate WritesElsewhere(w: World, done: seq<Action>, id: Id)
    requires HasUser(w, id)
  {
    forall a :: a in done && (a.CreateSecret? || a.UpdateSecret?) ==>
      a.at != Key(id.namespace, w.resources[id].spec.secretName) && a.at != Key(id.namespace, id.name)
  }

  /** A reconcile of any other resource, the user's instance included, aiming at other Secret names. */
  ghost predicate PassesBy(w: World, v: World, id: Id, cfg: Config) {
    && HasUser(w, id)
    && exists j, done ::
      && Apart(w, j, id)
      && Guarded(w, done, EntitledFor(j, cfg)) && WritesElsewhere(w, done, id)
      && v == Exec(w, done)
  }

  /** What such a reconcile leaves of the user: its resource, its S3 user, its Secrets or fewer, and the names free. */
  ghost predicate Undisturbed(w: World, v: World, id: Id) {
    && HasUser(w, id) && HasUser(v, id) && v.resources[id] == w.resources[id]
    && (AccessKey(w, id) in w.users ==> AccessKey(w, id) in v.users)
    && (forall k :: k in Owned(v, id) ==> k in w.secrets && v.secrets[k] == w.secrets[k])
    && (forall name :: name == w.resources[id].spec.secretName || name == id.name ==>
          (Unowned(v, Key(id.namespace, name), w.resources[id].uid) ==>
           Unowned(w, Key(id.namespace, name), w.resources[id].uid)))
  }

  lemma StrangerWrites(w: World, a: Action, j: Id, cfg: Config, id: Id)
    requires Apart(w, j, id) && HasUser(w, id) && Entitled(w, a, j, cfg) && (a.CreateSecret? || a.UpdateSecret?)
    ensures !OwnedBy(a.secret, w.resources[id].uid)
  {
    assert forall ref :: ref in a.secret.owners ==> ref == a.secret.owners[0];
  }

  /** A call that leaves the user's resource and its S3 user alone and makes no Secret its own. */
  ghost predicate Harmless(w: World, a: Action, id: Id)
    requires HasUser(w, id)
  {
    && !(a.SetCondition? && a.id == id) && a != AddFinalizer(id) && a != RemoveFinalizer(id)
    && a != DeleteUser(AccessKey(w, id))
    && (a.CreateSecret? || a.UpdateSecret? ==> !OwnedBy(a.secret, w.resources[id].uid))
  }

  lemma StrangerIsHarmless(w: World, a: Action, j: Id, cfg: Config, id: Id)
    requires Apart(w, j, id) && HasUser(w, id) && Entitled(w, a, j, cfg)
    ensures Harmless(w, a, id)
  {
    if a.CreateSecret? || a.UpdateSecret? {
      StrangerWrites(w, a, j, cfg, id);
    }
  }

  ghost function HarmlessFor(id: Id): (World, Action) -> bool {
    (w, a) => HasUser(w, id) ==> Harmless(w, a, id)
  }

  lemma {:induction false} StrangersGuard(w: World, done: seq<Action>, j: Id, cfg: Config, id: Id)
    requires Apart(w, j, id) && Guarded(w, done, EntitledFor(j, cfg))
    ensures Guarded(w, done, HarmlessFor(id))
    decreases |done|
  {
    if done != [] {
      if HasUser(w, id) { StrangerIsHarmless(w, done[0], j, cfg, id); }
      ResourcesKept(w, done[0], j);
      ResourcesKept(w, done[0], id);
      StrangersGuard(Apply(w, done[0]), done[1..], j, cfg, id);
    }
  }

  lemma UndisturbedStep(w: World, a: Action, id: Id)
    requires HasUser(w, id) && Harmless(w, a, id) && WritesElsewhere(w, [a], id)
    ensures Undisturbed(w, Apply(w, a), id)
  {
    assert a in [a];
    assert id in Apply(w, a).resources && Apply(w, a).resources[id] == w.resources[id];
    if AccessKey(w, id) in w.users { UsersKept(w, a, AccessKey(w, id)); }
    SecretStep(w, a);
    SecretsUndisturbed(w, Apply(w, a), a, id);
  }

  /** What a call did to the Secrets, with no Secret made the user's and none written under its names. */
  predicate SecretsAfter(w: World, v: World, a: Action) {
    || v.secrets == w.secrets
    || (a.DeleteSecret? && v.secrets == w.secrets - {a.at})
    || ((a.CreateSecret? || a.UpdateSecret?) && v.secrets == w.secrets[a.at := a.secret])
  }

  lemma SecretsUndisturbed(w: World, v: World, a: Action, id: Id)
    requires HasUser(w, id) && HasUser(v, id) && v.resources[id] == w.resources[id] && SecretsAfter(w, v, a)
    requires a.CreateSecret? || a.UpdateSecret? ==>
      && !OwnedBy(a.secret, w.resources[id].uid)
      && a.at != Key(id.namespace, w.resources[id].spec.secretName) && a.at != Key(id.namespace, id.name)
    requires AccessKey(w, id) in w.users ==> AccessKey(w, id) in v.users
    ensures Undisturbed(w, v, id)
  {
  }

  lemma SecretStep(w: World, a: Action)
    ensures SecretsAfter(w, Apply(w, a), a)
  {
    SecretsKept(w, a);
  }

  lemma {:induction false} UndisturbedAlong(w: World, done: seq<Action>, id: Id)
    requires HasUser(w, id) && Guarded(w, done, HarmlessFor(id)) && WritesElsewhere(w, done, id)
    ensures Undisturbed(w, Exec(w, done), id)
    decreases |done|
  {
    if done != [] {
      var v := Apply(w, done[0]);
      UndisturbedStep(w, done[0], id);
      UndisturbedAlong(v, done[1..], id);
      UndisturbedTwice(w, v, Exec(w, done), id);
    }
  }

  lemma UndisturbedTwice(w: World, v: World, x: World, id: Id)
    requires Undisturbed(w, v, id) && Undisturbed(v, x, id)
    ensures Undisturbed(w, x, id)
  {
    forall k | k in Owned(x, id) ensures k in w.secrets && x.secrets[k] == w.secrets[k] {
      assert k in v.secrets && x.secrets[k] == v.secrets[k];
      assert k in Owned(v, id);
    }
  }

  /** Such a reconcile is one of the disturbances the user recovers from. */
  lemma PassesByDisturbs(w: World, v: World, id: Id, cfg: Config)
    requires PassesBy(w, v, id, cfg) && Recoverable(w, id)
    ensures Disturbs(w, v, id)
  {
    var j, done :| Apart(w, j, id) && Guarded(w, done, EntitledFor(j, cfg))
      && WritesElsewhere(w, done, id) && v == Exec(w, done);
    StrangersGuard(w, done, j, cfg, id);
    UndisturbedAlong(w, done, id);
    UndisturbedIsRecoverable(w, v, id);
  }

  lemma UndisturbedIsRecoverable(w: World, v: World, id: Id)
    requires Undisturbed(w, v, id) && Recoverable(w, id)
    ensures Disturbs(w, v, id)
  {
    var r := w.resources[id];
    forall k | k in Owned(v, id) ensures k in Owned(w, id) && v.secrets[k] == w.secrets[k] {
      assert k in w.secrets && v.secrets[k] == w.secrets[k];
    }
    assert !Unowned(v, Key(id.namespace, r.spec.secretName), r.uid);
    assert !Unowned(v, Key(id.namespace, id.name), r.uid);
  }

  // ---------- runs ----------

  /** One step of a run the user recovers from. */
  ghost predicate RecoveryStep(w: World, v: World, id: Id, cfg: Config) {
    Crashes(w, v, id, cfg) || PassesBy(w, v, id, cfg) || Disturbs(w, v, id)
  }

  lemma StepIsRecoverable(w: World, v: World, id: Id, cfg: Config)
    requires RecoveryStep(w, v, id, cfg) && HasUser(w, id) && Safe(w, id) && Recoverable(w, id)
    ensures HasUser(v, id) && Safe(v, id) && Recoverable(v, id)
  {
    if Crashes(w, v, id, cfg) {
      CrashIsRecoverable(w, v, id, cfg);
    } else {
      if PassesBy(w, v, id, cfg) { PassesByDisturbs(w, v, id, cfg); }
      StepSafe(w, v, id, cfg);
    }
  }

  lemma CrashIsRecoverable(w: World, v: World, id: Id, cfg: Config)
    requires Crashes(w, v, id, cfg) && Safe(w, id) && Recoverable(w, id)
    ensures HasUser(v, id) && Safe(v, id) && Recoverable(v, id)
  {
    var ch, done :| ValidChance(w, id, ch)
      && Follows(done, ReconcilePlan(w, id, cfg, ch).actions, id, FailureReasons(w.resources[id]))
      && v == Exec(w, done);
    InterruptedIsRecoverable(w, id, cfg, ch, done);
  }

  lemma {:induction false} RecoverableRun(ws: seq<World>, id: Id, cfg: Config)
    requires ws != [] && HasUser(ws[0], id) && Safe(ws[0], id) && Recoverable(ws[0], id)
    requires forall i :: 0 <= i < |ws| - 1 ==> RecoveryStep(ws[i], ws[i + 1], id, cfg)
    ensures var w := ws[|ws| - 1]; HasUser(w, id) && Safe(w, id) && Recoverable(w, id)
  {
    if |ws| > 1 {
      var n := |ws| - 1;
      RecoverableRun(ws[..n], id, cfg);
      assert ws[..n][n - 1] == ws[n - 1];
      assert RecoveryStep(ws[n - 1], ws[n - 1 + 1], id, cfg);
      StepIsRecoverable(ws[n - 1], ws[n], id, cfg);
    }
  }

  /**
   * After any such run, of any length, whatever became of the client in between,
   * one fault-free reconcile with a client leaves the user healthy.
   */
  lemma HealsAfterAnyRun(ws: seq<World>, id: Id, cfg: Config, ch: Chance)
    requires ws != [] && HasUser(ws[0], id) && Safe(ws[0], id) && Recoverable(ws[0], id)
    requires forall i :: 0 <= i < |ws| - 1 ==> RecoveryStep(ws[i], ws[i + 1], id, cfg)
    requires
      var w := ws[|ws| - 1];
      HasUser(w, id) ==>
        ValidChance(w, id, ch) && ClientFor(w, id.namespace, w.resources[id].spec.s3InstanceRef).Client?
    ensures
      var p := ReconcilePlan(ws[|ws| - 1], id, cfg, ch);
      Healthy(Exec(ws[|ws| - 1], p.actions), id) && p.outcome == Finished(cfg.reconcilePeriod)
  {
    RecoverableRun(ws, id, cfg);
    SelfHealing(ws[|ws| - 1], id, cfg, ch);
  }
}
