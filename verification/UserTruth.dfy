/** A reconcile that reports Reconciled tells the truth about policies and credentials. */
module UserTruth {
  import opened Collections
  import opened Model
  import opened Effects
  import opened ControllerHelper
  import opened S3InstanceHelper
  import opened UserPlan
  import opened UserSafety
  import opened UserProtocol
  import opened UserHealing
  import opened UserPass
  import opened Reports
  import opened PasswordGenerator

  // ---------- the policy update, call by call ----------

  function Difference(a: set<PolicyName>, b: set<PolicyName>): set<PolicyName> {
    (a - b) + (b - a)
  }

  function PoliciesAfter(w: World, user: string, calls: seq<Action>, n: nat): set<PolicyName>
    requires n <= |calls|
  {
    var v := Exec(w, calls[..n]);
    if user in v.users then v.users[user].policies else {}
  }

  /**
   * The update at every crash point: what is detached and what is attached is disjoint, policies wanted and present
   * stay, the distance to the spec never grows, and it ends at the spec.
   */
  lemma PolicyUpdateConverges(w: World, user: string, want: set<PolicyName>, m: nat, n: nat)
    requires user in w.users
    requires m <= n <= |PolicyCalls(user, w.users[user].policies, want)|
    ensures
      var have := w.users[user].policies;
      var calls := PolicyCalls(user, have, want);
      && (have - want) !! (want - have)
      && have * want <= PoliciesAfter(w, user, calls, n)
      && Difference(PoliciesAfter(w, user, calls, n), want) <= Difference(PoliciesAfter(w, user, calls, m), want)
      && PoliciesAfter(w, user, calls, |calls|) == want
  {
    var have := w.users[user].policies;
    var calls := PolicyCalls(user, have, want);
    PolicyCallsEffect(w, user, want);
    assert calls[..|calls|] == calls;
    assert PoliciesAfter(w, user, calls, 0) == have;
    if |calls| == 2 {
      assert calls[..1] == [calls[0]];
      ExecOne(w, calls[0]);
      assert PoliciesAfter(w, user, calls, 1) == have - (have - want);
    }
  }

  // ---------- the Reconciled reason ----------

  /** The Secret a pass goes by in the end: the one the user was kept with, or the target. */
  function Subject(w: World, id: Id): Key
    requires HasUser(w, id)
  {
    if Keeps(w, id) then Compared(w, id).value else At(w, id)
  }

  /** The user exists with exactly the spec's policies. */
  predicate PoliciesMatch(w: World, id: Id) {
    && HasUser(w, id)
    && AccessKey(w, id) in w.users
    && w.users[AccessKey(w, id)].policies == SetOf(w.resources[id].spec.policies)
  }

  /** The Secret holds the access key of the spec and the user's actual secret key. */
  predicate CredentialsAgree(w: World, id: Id, k: Key) {
    HasUser(w, id) && k in w.secrets && HoldsKeys(w, w.resources[id].spec, w.secrets[k].data)
  }

  /** The Secret names the S3 user in its access-key field. */
  predicate NamesUser(w: World, id: Id, k: Key)
    requires HasUser(w, id) && k in w.secrets
  {
    Field(w.secrets[k].data, w.resources[id].spec.accessKeyField) == AccessKey(w, id)
  }

  /**
   * When a successful pass leaves agreeing credentials, read off the world before it. A Secret whose valid pair
   * is kept must name this user and not another; one taken over in read mode must name it and hold a secret key;
   * with both flags on it must hold none, or the generated one.
   */
  predicate WillAgree(w: World, id: Id, cfg: Config, key: string)
    requires HasUser(w, id)
  {
    if Keeps(w, id) then NamesUser(w, id, Compared(w, id).value)
    else if At(w, id) !in LeftSecrets(w, id) then true
    else
      var data, field := w.secrets[At(w, id)].data, w.resources[id].spec.secretKeyField;
      if !cfg.readExistingSecret then true
      else if cfg.overrideExistingSecret then field !in data || data[field] == key
      else NamesUser(w, id, At(w, id)) && field in data
  }

  lemma KeptTruth(w: World, id: Id, cfg: Config, ch: Chance)
    requires Passable(w, id) && ValidChance(w, id, ch) && Keeps(w, id)
    ensures
      var x := AfterPass(w, id, cfg, ch);
      PoliciesMatch(x, id) && (CredentialsAgree(x, id, Subject(w, id)) <==> WillAgree(w, id, cfg, ch.key))
  {
    PassKeeps(w, id, cfg, ch);
    var x := AfterPass(w, id, cfg, ch);
    var k := Compared(w, id).value;
    assert k in x.secrets && x.secrets[k] == w.secrets[k];
  }

  lemma FreshTruth(w: World, id: Id, cfg: Config, ch: Chance)
    requires Passable(w, id) && ValidChance(w, id, ch) && !Keeps(w, id) && At(w, id) !in LeftSecrets(w, id)
    ensures
      var x := AfterPass(w, id, cfg, ch);
      PoliciesMatch(x, id) && (CredentialsAgree(x, id, Subject(w, id)) <==> WillAgree(w, id, cfg, ch.key))
  {
    PassMakesFresh(w, id, cfg, ch);
    SecretDataHolds(w.resources[id].spec, ch.key, ClientConfig(w, id));
  }

  lemma TakenTruth(w: World, id: Id, cfg: Config, ch: Chance)
    requires Passable(w, id) && ValidChance(w, id, ch) && !Keeps(w, id)
    requires At(w, id) in LeftSecrets(w, id) && MayTakeOver(w, id, cfg)
    ensures
      var x := AfterPass(w, id, cfg, ch);
      PoliciesMatch(x, id) && (CredentialsAgree(x, id, Subject(w, id)) <==> WillAgree(w, id, cfg, ch.key))
  {
    PassTakesOver(w, id, cfg, ch);
    SecretDataHolds(w.resources[id].spec, ch.key, ClientConfig(w, id));
  }

  /** Only an available client lets a reconcile end without error. */
  lemma FinishedIsPassable(w: World, id: Id, cfg: Config, ch: Chance)
    requires LiveUser(w, id) && ValidChance(w, id, ch) && FieldsDistinct(w.resources[id].spec)
    requires ReconcilePlan(w, id, cfg, ch).outcome.Finished?
    ensures Passable(w, id)
  {
    ClientIgnoresOpening(w, id);
  }

  /**
   * A reconcile that returns without error leaves the user with the spec's policies,
   * and a Secret with its credentials exactly when the condition above held before.
   */
  lemma FinishedIsTruthful(w: World, id: Id, cfg: Config, ch: Chance)
    requires LiveUser(w, id) && ValidChance(w, id, ch) && FieldsDistinct(w.resources[id].spec)
    requires ReconcilePlan(w, id, cfg, ch).outcome.Finished?
    ensures
      var x := Exec(w, ReconcilePlan(w, id, cfg, ch).actions);
      PoliciesMatch(x, id) && (CredentialsAgree(x, id, Subject(w, id)) <==> WillAgree(w, id, cfg, ch.key))
  {
    FinishedIsPassable(w, id, cfg, ch);
    if Keeps(w, id) {
      KeptTruth(w, id, cfg, ch);
    } else if At(w, id) !in LeftSecrets(w, id) {
      FreshTruth(w, id, cfg, ch);
    } else if MayTakeOver(w, id, cfg) {
      TakenTruth(w, id, cfg, ch);
    } else {
      PassRefuses(w, id, cfg, ch);
    }
  }

  // ---------- under failures ----------

  lemma CreateReports(w: World, id: Id, r: Resource, cfg: Config, config: S3Config, key: string)
    requires r.spec.UserSpec?
    ensures OnlyLastReports(HandleCreatePlan(w, id, r, cfg, config, key), id)
  {
    var at := Target(id, r);
    var secret := NewSecretForCR(id, r, key, config);
    var done := Report(id, r, Reconciled, Success, None, cfg.reconcilePeriod);
    assert OnlyLastReports(done, id);
    AfterNoReport(FreshCalls(id, r, key, secret), done, id);
    if at in w.secrets {
      AfterNoReport(TakeOverCalls(id, r, cfg, key, secret, w.secrets[at].data), done, id);
    }
  }

  lemma RecreateReports(
    w: World, id: Id, r: Resource, cfg: Config, config: S3Config, key: string, first: seq<Action>)
    requires r.spec.UserSpec? && NoReport(first, id)
    ensures OnlyLastReports(RecreatePlan(w, id, r, cfg, config, key, first), id)
  {
    var calls := first + [DeleteUser(r.spec.accessKey)];
    CreateReports(Exec(w, calls), id, r, cfg, config, key);
    AfterNoReport(calls, HandleCreatePlan(Exec(w, calls), id, r, cfg, config, key), id);
  }

  lemma CheckReports(
    w: World, id: Id, r: Resource, cfg: Config, config: S3Config, key: string, current: Key, owned: bool)
    requires r.spec.UserSpec? && r.spec.accessKey in w.users && current in w.secrets
    ensures OnlyLastReports(CheckPlan(w, id, r, cfg, config, key, current, owned), id)
  {
    var fix := PolicyCalls(r.spec.accessKey, w.users[r.spec.accessKey].policies, SetOf(r.spec.policies));
    if CredentialsValid(w, r.spec, w.secrets[current].data) {
      AfterNoReport(fix, Report(id, r, Reconciled, Success, None, cfg.reconcilePeriod), id);
    } else {
      RecreateReports(w, id, r, cfg, config, key, fix + if owned then [DeleteSecret(current)] else []);
    }
  }

  lemma UpdateReports(w: World, id: Id, r: Resource, cfg: Config, config: S3Config, ch: Chance)
    requires r.spec.UserSpec? && r.spec.accessKey in w.users
    requires Lists(ch.order, OwnedKeys(w, id.namespace, r.uid))
    ensures OnlyLastReports(HandleUpdatePlan(w, id, r, cfg, config, ch), id)
  {
    var unlinked := UnlinkedSecret(w, id, r);
    var at := Target(id, r);
    if OwnedKeys(w, id.namespace, r.uid) == {} && unlinked.None? {
      RecreateReports(w, id, r, cfg, config, ch.key, []);
    } else if unlinked.Some? {
      CheckReports(w, id, r, cfg, config, ch.key, unlinked.value, false);
    } else {
      var stale := Deletions(Without(ch.order, at));
      DeletionsKeep(w, Without(ch.order, at));
      if at in OwnedKeys(w, id.namespace, r.uid) {
        var v := Exec(w, stale);
        CheckReports(v, id, r, cfg, config, ch.key, at, true);
        AfterNoReport(stale, CheckPlan(v, id, r, cfg, config, ch.key, at, true), id);
      } else {
        RecreateReports(w, id, r, cfg, config, ch.key, stale);
      }
    }
  }

  lemma LiveReports(w: World, id: Id, r: Resource, cfg: Config, ch: Chance)
    requires r.spec.UserSpec? && Lists(ch.order, OwnedKeys(w, id.namespace, r.uid))
    ensures OnlyLastReports(HandleReconciliationPlan(w, id, r, cfg, ch), id)
  {
    match ClientFor(w, id.namespace, r.spec.s3InstanceRef)
    case Panicked =>
    case Unavailable(e) =>
    case Client(instance) =>
      if r.spec.accessKey !in w.users {
        CreateReports(w, id, r, cfg, instance.config, ch.key);
      } else {
        UpdateReports(w, id, r, cfg, instance.config, ch);
      }
  }

  lemma PlanReports(w: World, id: Id, cfg: Config, ch: Chance)
    requires LiveUser(w, id) && ValidChance(w, id, ch)
    ensures OnlyLastReports(ReconcilePlan(w, id, cfg, ch), id)
  {
    var r := w.resources[id];
    var v := WithResource(w, id, Started(r));
    OpeningKeepsSecrets(w, id);
    LiveReports(v, id, Started(r), cfg, ch);
    AfterNoReport(StartCalls(id, r), HandleReconciliationPlan(v, id, Started(r), cfg, ch), id);
  }

  /**
   * Under any failures: when a live reconcile writes the reason Reconciled, that write completes its plan, the policies
   * are the spec's, and the credentials agree exactly when the condition above held before.
   */
  lemma ReconciledIsTruthful(w: World, id: Id, cfg: Config, ch: Chance, done: seq<Action>, i: nat)
    requires LiveUser(w, id) && ValidChance(w, id, ch) && FieldsDistinct(w.resources[id].spec)
    requires Follows(done, ReconcilePlan(w, id, cfg, ch).actions, id, FailureReasons(w.resources[id]))
    requires i < |done| && ReportsReconciled(done[i], id)
    ensures done[..i + 1] == ReconcilePlan(w, id, cfg, ch).actions
    ensures
      var x := Exec(w, done[..i + 1]);
      PoliciesMatch(x, id) && (CredentialsAgree(x, id, Subject(w, id)) <==> WillAgree(w, id, cfg, ch.key))
  {
    PlanReports(w, id, cfg, ch);
    ReportEnds(done, ReconcilePlan(w, id, cfg, ch), id, FailureReasons(w.resources[id]), i);
    FinishedIsTruthful(w, id, cfg, ch);
  }

  // ---------- where the credentials do not agree ----------

  /**
   * In read mode alone, a pass that takes over the Secret in place gives the user the key it holds:
   * the key field agrees with the user exactly when it was there.
   */
  lemma ReadModeExactly(w: World, id: Id, cfg: Config, ch: Chance)
    requires Passable(w, id) && ValidChance(w, id, ch) && !Keeps(w, id)
    requires cfg.readExistingSecret && !cfg.overrideExistingSecret
    requires At(w, id) in LeftSecrets(w, id) && !OwnedElsewhere(w.secrets[At(w, id)], w.resources[id].uid)
    ensures
      var x := AfterPass(w, id, cfg, ch);
      var field := w.resources[id].spec.secretKeyField;
      && ReconcilePlan(w, id, cfg, ch).outcome == Finished(cfg.reconcilePeriod)
      && At(w, id) in x.secrets && AccessKey(w, id) in x.users
      && (Field(x.secrets[At(w, id)].data, field) == x.users[AccessKey(w, id)].key
          <==> field in w.secrets[At(w, id)].data)
  {
    PassTakesOver(w, id, cfg, ch);
  }

  /**
   * A Secret with the valid credentials of another user is taken for the user's own: the pass reports success
   * although no Secret holds the user's key.
   */
  lemma OtherUsersCredentials(cfg: Config, ch: Chance) returns (w: World, id: Id)
    requires ch.order == [] && IsPassword(ch.key)
    ensures LiveUser(w, id) && Safe(w, id) && ValidChance(w, id, ch) && FieldsDistinct(w.resources[id].spec)
    ensures
      var p := ReconcilePlan(w, id, cfg, ch);
      var x := Exec(w, p.actions);
      && p.actions != [] && ReportsReconciled(p.actions[|p.actions| - 1], id)
      && AccessKey(w, id) in x.users
      && forall k :: k in x.secrets ==>
           Field(x.secrets[k].data, w.resources[id].spec.secretKeyField) != x.users[AccessKey(w, id)].key
  {
    id := Id(S3UserKind, "n", "a");
    var iid := Id(S3InstanceKind, "n", "i");
    var ready := Condition(ReconciledType, True, 1, Reconciled, Success, None);
    var instance := Resource(
      "v", 1, false, {Operator}, [ready],
      InstanceSpec(S3Config("", "", "", "", "", ""), [], true, true, true, true));
    var user := Resource("u", 1, false, {Operator}, [], UserSpec("i", "k", [], "", "x", "y"));
    var at := Key("n", "a");
    w := World(
      map[id := user, iid := instance], map[at := Secret([], map["x" := "other", "y" := "o"])],
      map["k" := BackendUser("s", {}), "other" := BackendUser("o", {})], map[], map[]);
    assert InstanceOf("i", "n") == iid;
    assert ClientFor(w, "n", "i") == Client(instance.spec);
    assert Unlinked(w, id) == Some(at);
    assert Owned(w, id) == {};
    PassKeeps(w, id, cfg, ch);
    StrangersReport(w, id, cfg, ch);
  }

  /** The report is the last call of a pass over a resource without conditions. */
  lemma StrangersReport(w: World, id: Id, cfg: Config, ch: Chance)
    requires Passable(w, id) && ValidChance(w, id, ch) && Keeps(w, id) && w.resources[id].conditions == []
    ensures
      var actions := ReconcilePlan(w, id, cfg, ch).actions;
      actions != [] && ReportsReconciled(actions[|actions| - 1], id)
  {
    OpeningKeepsPass(w, id);
    var v, s := Opened(w, id), Started(w.resources[id]);
    var calls := KeptBody(v, id, s, cfg, ch);
    var c := NewCondition(s, Reconciled, Success, None);
    assert Upsert(s.conditions, c)[0] == c;
  }

  /**
   * With both flags on the claim about credentials fails: the user gets the key found in the Secret,
   * the Secret the generated one, and success is reported.
   */
  lemma BothFlagsDisagree(w: World, id: Id, r: Resource, cfg: Config, config: S3Config, key: string)
    requires HasUser(w, id) && w.resources[id] == r && r.spec.accessKey !in w.users && FieldsDistinct(r.spec)
    requires cfg.overrideExistingSecret && cfg.readExistingSecret
    requires Target(id, r) in w.secrets && !OwnedElsewhere(w.secrets[Target(id, r)], r.uid)
    ensures
      var p := HandleCreatePlan(w, id, r, cfg, config, key);
      var found := w.secrets[Target(id, r)].data;
      var x := Exec(w, p.actions);
      && p.outcome == Finished(cfg.reconcilePeriod)
      && Target(id, r) in x.secrets && r.spec.accessKey in x.users
      && (Field(x.secrets[Target(id, r)].data, r.spec.secretKeyField) == x.users[r.spec.accessKey].key
          <==> r.spec.secretKeyField !in found || found[r.spec.secretKeyField] == key)
  {
    var at := Target(id, r);
    var secret := NewSecretForCR(id, r, key, config);
    var data := w.secrets[at].data;
    SecretDataHolds(r.spec, key, config);
    TakeOverEffect(w, id, r, cfg, key, secret, data);
    var calls := TakeOverCalls(id, r, cfg, key, secret, data);
    var done := Report(id, r, Reconciled, Success, None, cfg.reconcilePeriod);
    ExecAppend(w, calls, done.actions);
    ReportEffect(Exec(w, calls), id, r, Reconciled, Success, None, cfg.reconcilePeriod);
  }
}
