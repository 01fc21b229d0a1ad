/** Runs of the whole system, seen from one S3User and from one Secret. */
module UserRuns {
  import opened Collections
  import opened Model
  import opened Effects
  import opened S3InstanceHelper
  import opened UserPlan
  import opened UserSafety
  import opened Protocol
  import opened PasswordGenerator

  // ---------- the crash-point invariant over runs ----------

  /** A reconcile of the user itself, interrupted anywhere; when it is live it does not start in a conflict. */
  ghost predicate OwnBurst(w: World, v: World, id: Id, cfg: Config) {
    && HasUser(w, id)
    && (LiveUser(w, id) ==> !Conflict(w, id))
    && exists ch, done ::
      && ValidChance(w, id, ch)
      && Follows(done, ReconcilePlan(w, id, cfg, ch).actions, id, FailureReasons(w.resources[id]))
      && v == Exec(w, done)
  }

  /** Two resources that share neither UID nor access key. */
  predicate Apart(w: World, j: Id, id: Id) {
    j != id && (HasUser(w, j) && HasUser(w, id) ==>
      w.resources[j].uid != w.resources[id].uid && AccessKey(w, j) != AccessKey(w, id))
  }

  /** A reconcile of any other resource that keeps the protocol, interrupted anywhere. */
  ghost predicate OtherBurst(w: World, v: World, id: Id, cfg: Config) {
    exists j, done :: Apart(w, j, id) && Guarded(w, done, EntitledFor(j, cfg)) && v == Exec(w, done)
  }

  /**
   * The environment between reconciles: any edit of the spec but the access key, any change of keys and policies,
   * any Secret deleted or created, as long as nobody else deletes the S3 user or makes Secrets its own.
   */
  ghost predicate Outside(w: World, v: World, id: Id) {
    LiveUser(v, id) ==>
      || Owned(v, id) == {}
      || (&& LiveUser(w, id) && Owned(v, id) <= Owned(w, id)
          && AccessKey(v, id) == AccessKey(w, id)
          && (AccessKey(w, id) in w.users ==> AccessKey(w, id) in v.users))
  }

  ghost predicate Step(w: World, v: World, id: Id, cfg: Config) {
    OwnBurst(w, v, id, cfg) || OtherBurst(w, v, id, cfg) || Outside(w, v, id)
  }

  lemma {:induction false} MarkStays(w: World, done: seq<Action>, id: Id)
    ensures HasUser(Exec(w, done), id) ==>
      HasUser(w, id) && w.resources[id].uid == Exec(w, done).resources[id].uid
      && w.resources[id].spec == Exec(w, done).resources[id].spec
      && w.resources[id].deleting == Exec(w, done).resources[id].deleting
    decreases |done|
  {
    if done != [] {
      ResourcesKept(w, done[0], id);
      MarkStays(Apply(w, done[0]), done[1..], id);
    }
  }

  lemma OwnBurstSafe(w: World, v: World, id: Id, cfg: Config)
    requires OwnBurst(w, v, id, cfg) && Safe(w, id)
    ensures Safe(v, id)
  {
    var ch, done :| ValidChance(w, id, ch)
      && Follows(done, ReconcilePlan(w, id, cfg, ch).actions, id, FailureReasons(w.resources[id]))
      && v == Exec(w, done);
    if LiveUser(w, id) {
      LivePlanGuarded(w, id, cfg, ch);
      GuardedFollows(
        w, done, ReconcilePlan(w, id, cfg, ch).actions, id, FailureReasons(w.resources[id]), SafeCallFor(id));
      SafeAlong(w, done, id);
      AllAlongPrefix(w, done, |done|, SafeFor(id));
      assert done[..|done|] == done;
    } else {
      MarkStays(w, done, id);
    }
  }

  lemma EntitledIsSafe(w: World, a: Action, j: Id, cfg: Config, id: Id)
    requires Apart(w, j, id) && Entitled(w, a, j, cfg)
    ensures SafeCall(w, a, id)
  {
    if LiveUser(w, id) && (a.CreateSecret? || a.UpdateSecret?) {
      assert forall ref :: ref in a.secret.owners ==> ref == a.secret.owners[0];
      assert !OwnedBy(a.secret, w.resources[id].uid);
    }
  }

  lemma {:induction false} OtherBurstGuarded(w: World, done: seq<Action>, j: Id, cfg: Config, id: Id)
    requires Apart(w, j, id) && Guarded(w, done, EntitledFor(j, cfg))
    ensures Guarded(w, done, SafeCallFor(id))
    decreases |done|
  {
    if done != [] {
      EntitledIsSafe(w, done[0], j, cfg, id);
      ResourcesKept(w, done[0], j);
      ResourcesKept(w, done[0], id);
      OtherBurstGuarded(Apply(w, done[0]), done[1..], j, cfg, id);
    }
  }

  lemma OtherBurstSafe(w: World, v: World, id: Id, cfg: Config)
    requires OtherBurst(w, v, id, cfg) && Safe(w, id)
    ensures Safe(v, id)
  {
    var j, done :| Apart(w, j, id) && Guarded(w, done, EntitledFor(j, cfg)) && v == Exec(w, done);
    OtherBurstGuarded(w, done, j, cfg, id);
    SafeAlong(w, done, id);
    AllAlongPrefix(w, done, |done|, SafeFor(id));
    assert done[..|done|] == done;
  }

  lemma StepSafe(w: World, v: World, id: Id, cfg: Config)
    requires Step(w, v, id, cfg) && Safe(w, id)
    ensures Safe(v, id)
  {
    if OwnBurst(w, v, id, cfg) {
      OwnBurstSafe(w, v, id, cfg);
    } else if OtherBurst(w, v, id, cfg) {
      OtherBurstSafe(w, v, id, cfg);
    }
  }

  /** Safety over whole runs: the invariant holds in every world of every run that starts with it. */
  lemma {:induction false} SafeRun(ws: seq<World>, id: Id, cfg: Config)
    requires ws != [] && Safe(ws[0], id)
    requires forall i :: 0 <= i < |ws| - 1 ==> Step(ws[i], ws[i + 1], id, cfg)
    ensures forall i :: 0 <= i < |ws| ==> Safe(ws[i], id)
  {
    if |ws| > 1 {
      var n := |ws| - 1;
      SafeRun(ws[..n], id, cfg);
      assert Safe(ws[..n][n - 1], id) && Step(ws[n - 1], ws[n - 1 + 1], id, cfg);
      StepSafe(ws[n - 1], ws[n], id, cfg);
      forall i | 0 <= i < |ws| ensures Safe(ws[i], id) {
        if i < n { assert ws[..n][i] == ws[i]; }
      }
    }
  }

  const CONFLICTED: Id := Id(S3UserKind, "n", "a")

  /** An owned Secret under the old name, an unowned one under the configured name, none under the default name. */
  function ConflictedWorld(): World {
    var ready := Condition(ReconciledType, True, 1, Reconciled, Success, None);
    var instance := Resource(
      "v", 1, false, {Operator}, [ready],
      InstanceSpec(S3Config("", "", "", "", "", ""), [], true, true, true, true));
    var user := Resource("u", 1, false, {Operator}, [ready], UserSpec("i", "k", [], "b", "x", "y"));
    var owned := Secret([OwnerRef(S3UserOwner, "a", "u", true)], map["x" := "k", "y" := "s"]);
    World(
      map[CONFLICTED := user, Id(S3InstanceKind, "n", "i") := instance],
      map[Key("n", "b") := Secret([], map["x" := "k", "y" := "bad"]), Key("n", "c") := owned],
      map["k" := BackendUser("s", {})], map[], map[])
  }

  lemma ConflictedOwns()
    ensures LiveUser(ConflictedWorld(), CONFLICTED) && Owned(ConflictedWorld(), CONFLICTED) == {Key("n", "c")}
  {
    var w := ConflictedWorld();
    assert w.secrets[Key("n", "c")].owners[0].uid == "u";
    assert OwnedBy(w.secrets[Key("n", "c")], "u");
    assert !OwnedBy(w.secrets[Key("n", "b")], "u");
  }

  lemma ConflictedConflicts()
    ensures LiveUser(ConflictedWorld(), CONFLICTED) && Conflict(ConflictedWorld(), CONFLICTED)
  {
    var w := ConflictedWorld();
    ConflictedOwns();
    assert InstanceOf("i", "n") == Id(S3InstanceKind, "n", "i");
    assert ClientFor(w, "n", "i").Client?;
    assert UnlinkedSecret(w, CONFLICTED, w.resources[CONFLICTED]) == Some(Key("n", "b"));
  }

  lemma ConflictedExists() returns (w: World, id: Id)
    ensures LiveUser(w, id) && Safe(w, id) && Conflict(w, id) && Owned(w, id) == {Key("n", "c")}
    ensures Key(id.namespace, id.name) !in w.secrets
  {
    w, id := ConflictedWorld(), CONFLICTED;
    ConflictedOwns();
    ConflictedConflicts();
  }

  /**
   * Keeping clear of the default name is not enough: an unowned Secret under the configured name,
   * next to an owned one under the old name, is a conflict although no Secret has the default name.
   */
  lemma ConfiguredNameConflict(cfg: Config, ch: Chance) returns (w: World, id: Id, n: nat)
    requires ch.order == [Key("n", "c")] && IsPassword(ch.key)
    ensures LiveUser(w, id) && Safe(w, id) && ValidChance(w, id, ch)
    ensures Key(id.namespace, id.name) !in w.secrets
    ensures n <= |ReconcilePlan(w, id, cfg, ch).actions|
    ensures !Safe(Exec(w, ReconcilePlan(w, id, cfg, ch).actions[..n]), id)
  {
    w, id := ConflictedExists();
    assert SetOf(ch.order) == {Key("n", "c")};
    n := ConflictPlan(w, id, cfg, ch);
  }

  // ---------- Secrets over runs of many S3Users ----------

  predicate HasS3UserOwner(s: Secret) {
    exists ref :: ref in s.owners && ref.kind == S3UserOwner
  }

  /** A reconcile of a resource whose UID is not among the Secret's owners, or an environment that leaves it alone. */
  ghost predicate StrangerStep(w: World, v: World, k: Key, cfg: Config)
    requires k in w.secrets
  {
    || (k in v.secrets && v.secrets[k] == w.secrets[k])
    || exists j, done ::
      && Guarded(w, done, EntitledFor(j, cfg))
      && (j in w.resources ==> !OwnedBy(w.secrets[k], w.resources[j].uid))
      && v == Exec(w, done)
  }

  lemma StrangerStepKeeps(w: World, v: World, k: Key, cfg: Config)
    requires k in w.secrets && HasS3UserOwner(w.secrets[k]) && StrangerStep(w, v, k, cfg)
    ensures k in v.secrets && v.secrets[k] == w.secrets[k]
  {
    if !(k in v.secrets && v.secrets[k] == w.secrets[k]) {
      var j, done :| Guarded(w, done, EntitledFor(j, cfg))
        && (j in w.resources ==> !OwnedBy(w.secrets[k], w.resources[j].uid)) && v == Exec(w, done);
      if j in w.resources {
        ForeignSecretUntouched(w, done, j, w.resources[j].uid, cfg, k);
      } else {
        AbsentDoesNothing(w, done, j, cfg);
      }
    }
  }

  /** Without its resource a reconcile changes nothing. */
  lemma {:induction false} AbsentDoesNothing(w: World, done: seq<Action>, j: Id, cfg: Config)
    requires j !in w.resources && Guarded(w, done, EntitledFor(j, cfg))
    ensures Exec(w, done) == w
    decreases |done|
  {
    if done != [] {
      assert Apply(w, done[0]) == w;
      AbsentDoesNothing(w, done[1..], j, cfg);
    }
  }

  /** Ownership safety: a Secret owned by an S3User is as it was after every run of the others. */
  lemma {:induction false} OwnedSecretSurvives(ws: seq<World>, k: Key, cfg: Config)
    requires ws != [] && k in ws[0].secrets && HasS3UserOwner(ws[0].secrets[k])
    requires forall i :: 0 <= i < |ws| - 1 ==> k in ws[i].secrets ==> StrangerStep(ws[i], ws[i + 1], k, cfg)
    ensures forall i :: 0 <= i < |ws| ==> k in ws[i].secrets && ws[i].secrets[k] == ws[0].secrets[k]
  {
    if |ws| > 1 {
      var n := |ws| - 1;
      OwnedSecretSurvives(ws[..n], k, cfg);
      assert ws[..n][n - 1] == ws[n - 1] && ws[..n][0] == ws[0];
      assert StrangerStep(ws[n - 1], ws[n - 1 + 1], k, cfg);
      StrangerStepKeeps(ws[n - 1], ws[n], k, cfg);
      forall i | 0 <= i < |ws| ensures k in ws[i].secrets && ws[i].secrets[k] == ws[0].secrets[k] {
        if i < n { assert ws[..n][i] == ws[i]; }
      }
    }
  }
}
