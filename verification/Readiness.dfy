/**
 * Which reconciles leave an answer in the condition of their resource, and the one case that leaves none:
 * an instance that no reconcile has given a condition yet.
 */
module Readiness {
  import opened Collections
  import opened Model
  import opened Effects
  import opened ControllerHelper
  import opened S3InstanceHelper
  import opened SystemRuns
  import opened PasswordGenerator
  import Namespaces
  import Markers
  import UserPlan
  import UserSafety
  import UserProtocol
  import UserHealing
  import BucketPlan
  import BucketTheorems
  import PathPlan
  import PathTheorems
  import PolicyPlan
  import PolicyTheorems
  import InstancePlan

  /** The Reconciled condition says True or False of the current generation. */
  predicate Answered(r: Resource) {
    var c := Find(r.conditions, ReconciledType);
    c.Some? && c.value.status != Unknown && c.value.observedGeneration == r.generation
  }

  /** ... and says True exactly of a reconcile that returns no error, False exactly of one that does. */
  predicate Tells(r: Resource, out: Outcome) {
    var c := Find(r.conditions, ReconciledType);
    && Answered(r)
    && (c.value.status == True <==> out.Finished?)
    && (c.value.status == False <==> out.Errored?)
  }

  /** The Reconciled condition of the current generation gives this reason and this status. */
  predicate Says(r: Resource, reason: Reason, status: Status) {
    var c := Find(r.conditions, ReconciledType);
    c.Some? && c.value.reason == reason && c.value.status == status && c.value.observedGeneration == r.generation
  }

  /** The resource's instance exists and admits its namespace, and has no condition yet. */
  predicate Unready(w: World, id: Id)
    requires id in w.resources && !w.resources[id].spec.InstanceSpec?
  {
    var iid := InstanceOf(w.resources[id].spec.s3InstanceRef, id.namespace);
    && iid in w.resources && w.resources[iid].spec.InstanceSpec?
    && Namespaces.Allowed(id.namespace, w.resources[iid].spec.allowedNamespaces, iid.namespace)
    && w.resources[iid].conditions == []
  }

  predicate Live(w: World, id: Id) {
    id in w.resources && !w.resources[id].spec.InstanceSpec? && !w.resources[id].deleting
  }

  // ---------- plans that end in a report ----------

  predicate WritesResource(a: Action) {
    a.SetCondition? || a.AddFinalizer? || a.RemoveFinalizer?
  }

  predicate Outwards(calls: seq<Action>) {
    forall i :: 0 <= i < |calls| ==> !WritesResource(calls[i])
  }

  /** What a report says. */
  datatype Answer = Answer(reason: Reason, site: Site, error: Option<Error>, period: nat)

  function ReportOf(id: Id, s: Resource, a: Answer): Plan {
    Report(id, s, a.reason, a.site, a.error, a.period)
  }

  ghost predicate EndsInReport(p: Plan, id: Id, s: Resource) {
    exists calls, a :: EndsIn(p, id, s, calls, a)
  }

  ghost predicate EndsIn(p: Plan, id: Id, s: Resource, calls: seq<Action>, a: Answer) {
    Outwards(calls) && p == After(calls, ReportOf(id, s, a))
  }

  lemma ReportEnds(id: Id, s: Resource, reason: Reason, site: Site, error: Option<Error>, period: nat)
    ensures EndsInReport(Report(id, s, reason, site, error, period), id, s)
  {
    assert EndsIn(Report(id, s, reason, site, error, period), id, s, [], Answer(reason, site, error, period));
  }

  lemma AfterEnds(calls: seq<Action>, p: Plan, id: Id, s: Resource)
    requires Outwards(calls) && EndsInReport(p, id, s)
    ensures EndsInReport(After(calls, p), id, s)
  {
    var rest, a :| EndsIn(p, id, s, rest, a);
    AfterTwice(calls, rest, ReportOf(id, s, a));
    assert EndsIn(After(calls, p), id, s, calls + rest, a);
  }

  /** What follows the opening either reports, or is the panic. */
  ghost predicate ReportsUnless(panics: bool, body: Plan, id: Id, s: Resource) {
    if panics then body == Plan([], Errored) else EndsInReport(body, id, s)
  }

  /** A plan whose body reports leaves an answer; a panicking one leaves the condition of the opening. */
  lemma BodyAnswers(w: World, id: Id, body: Plan, panics: bool)
    requires Live(w, id) && ReportsUnless(panics, body, id, Started(w.resources[id]))
    ensures
      var x := Exec(w, StartCalls(id, w.resources[id]) + body.actions);
      && id in x.resources
      && (Answered(x.resources[id]) <==> !panics || Answered(w.resources[id]))
      && (!panics ==> Tells(x.resources[id], body.outcome))
  {
    var r := w.resources[id];
    var s, v := Started(r), WithResource(w, id, Started(r));
    StartCallsEffect(w, id);
    ExecAppend(w, StartCalls(id, r), body.actions);
    if !panics {
      var calls, a :| EndsIn(body, id, s, calls, a);
      ReportAnswers(v, id, s, calls, a);
      assert body.outcome == ReportOf(id, s, a).outcome;
    }
  }

  lemma ReportAnswers(v: World, id: Id, s: Resource, calls: seq<Action>, a: Answer)
    requires id in v.resources && v.resources[id] == s && Outwards(calls)
    ensures
      var x := Exec(v, After(calls, ReportOf(id, s, a)).actions);
      && id in x.resources && Tells(x.resources[id], ReportOf(id, s, a).outcome)
      && Says(x.resources[id], a.reason, if a.error.Some? then False else True)
  {
    UserProtocol.ResourcesUntouched(v, calls);
    ExecAppend(v, calls, ReportOf(id, s, a).actions);
    UserHealing.ReportEffect(Exec(v, calls), id, s, a.reason, a.site, a.error, a.period);
    UpsertIsReadBack(s.conditions, NewCondition(s, a.reason, a.site, a.error), ReconciledType);
  }

  // ---------- the four kinds ----------

  lemma SuccessEnds(calls: seq<Action>, id: Id, r: Resource, cfg: Config)
    requires Outwards(calls)
    ensures EndsInReport(After(calls, Report(id, r, Reconciled, Success, None, cfg.reconcilePeriod)), id, r)
  {
    ReportEnds(id, r, Reconciled, Success, None, cfg.reconcilePeriod);
    AfterEnds(calls, Report(id, r, Reconciled, Success, None, cfg.reconcilePeriod), id, r);
  }

  lemma UserCreateReports(w: World, id: Id, r: Resource, cfg: Config, config: S3Config, key: string)
    requires r.spec.UserSpec?
    ensures EndsInReport(UserPlan.HandleCreatePlan(w, id, r, cfg, config, key), id, r)
  {
    var at := UserPlan.Target(id, r);
    var secret := UserPlan.NewSecretForCR(id, r, key, config);
    if at !in w.secrets {
      SuccessEnds(UserPlan.FreshCalls(id, r, key, secret), id, r, cfg);
    } else if UserPlan.OwnedElsewhere(w.secrets[at], r.uid) {
      ReportEnds(id, r, CreationFailure, OwnedElsewhereSite, Some(OwnedByOtherUser), cfg.reconcilePeriod);
    } else if cfg.overrideExistingSecret || cfg.readExistingSecret {
      SuccessEnds(UserPlan.TakeOverCalls(id, r, cfg, key, secret, w.secrets[at].data), id, r, cfg);
    } else {
      ReportEnds(id, r, CreationFailure, KeptSecretSite, Some(SecretExists), cfg.reconcilePeriod);
    }
  }

  lemma UserRecreateReports(
    w: World, id: Id, r: Resource, cfg: Config, config: S3Config, key: string, first: seq<Action>)
    requires r.spec.UserSpec? && Outwards(first)
    ensures EndsInReport(UserPlan.RecreatePlan(w, id, r, cfg, config, key, first), id, r)
  {
    var calls := first + [DeleteUser(r.spec.accessKey)];
    UserCreateReports(Exec(w, calls), id, r, cfg, config, key);
    AfterEnds(calls, UserPlan.HandleCreatePlan(Exec(w, calls), id, r, cfg, config, key), id, r);
  }

  lemma UserCheckReports(
    w: World, id: Id, r: Resource, cfg: Config, config: S3Config, key: string, current: Key, owned: bool)
    requires r.spec.UserSpec? && r.spec.accessKey in w.users && current in w.secrets
    ensures EndsInReport(UserPlan.CheckPlan(w, id, r, cfg, config, key, current, owned), id, r)
  {
    var u := r.spec;
    var fix := UserPlan.PolicyCalls(u.accessKey, w.users[u.accessKey].policies, SetOf(u.policies));
    SuccessEnds(fix, id, r, cfg);
    UserRecreateReports(w, id, r, cfg, config, key, fix + if owned then [DeleteSecret(current)] else []);
  }

  lemma UserUpdateReports(w: World, id: Id, r: Resource, cfg: Config, config: S3Config, ch: UserPlan.Chance)
    requires r.spec.UserSpec? && r.spec.accessKey in w.users
    requires Lists(ch.order, UserPlan.OwnedKeys(w, id.namespace, r.uid))
    ensures EndsInReport(UserPlan.HandleUpdatePlan(w, id, r, cfg, config, ch), id, r)
  {
    var at, owned := UserPlan.Target(id, r), UserPlan.OwnedKeys(w, id.namespace, r.uid);
    var unlinked := UserPlan.UnlinkedSecret(w, id, r);
    var stale := UserPlan.Deletions(Without(ch.order, at));
    UserPlan.DeletionsKeep(w, Without(ch.order, at));
    if owned == {} && unlinked.None? {
      UserRecreateReports(w, id, r, cfg, config, ch.key, []);
    } else if unlinked.Some? {
      UserCheckReports(w, id, r, cfg, config, ch.key, unlinked.value, false);
    } else if at in owned {
      var v := Exec(w, stale);
      UserCheckReports(v, id, r, cfg, config, ch.key, at, true);
      AfterEnds(stale, UserPlan.CheckPlan(v, id, r, cfg, config, ch.key, at, true), id, r);
    } else {
      UserRecreateReports(w, id, r, cfg, config, ch.key, stale);
    }
  }

  lemma UserBodyReports(w: World, id: Id, r: Resource, cfg: Config, ch: UserPlan.Chance)
    requires r.spec.UserSpec? && Lists(ch.order, UserPlan.OwnedKeys(w, id.namespace, r.uid))
    ensures ReportsUnless(ClientFor(w, id.namespace, r.spec.s3InstanceRef).Panicked?,
                          UserPlan.HandleReconciliationPlan(w, id, r, cfg, ch), id, r)
  {
    match ClientFor(w, id.namespace, r.spec.s3InstanceRef)
    case Panicked =>
    case Unavailable(e) => ReportEnds(id, r, Unreachable, ClientSite, Some(e), cfg.reconcilePeriod);
    case Client(instance) =>
      if r.spec.accessKey !in w.users {
        UserCreateReports(w, id, r, cfg, instance.config, ch.key);
      } else {
        UserUpdateReports(w, id, r, cfg, instance.config, ch);
      }
  }

  lemma BucketBodyReports(w: World, id: Id, r: Resource, cfg: Config)
    requires r.spec.BucketSpec?
    ensures ReportsUnless(ClientFor(w, id.namespace, r.spec.s3InstanceRef).Panicked?,
                          BucketPlan.HandleReconciliationPlan(w, id, r, cfg), id, r)
  {
    match ClientFor(w, id.namespace, r.spec.s3InstanceRef)
    case Panicked =>
    case Unavailable(e) => ReportEnds(id, r, Unreachable, ClientSite, Some(e), cfg.reconcilePeriod);
    case Client(_) =>
      if r.spec.bucket !in w.buckets {
        BucketCreationReports(id, r, cfg);
      } else {
        BucketUpdateReports(w, id, r, cfg);
      }
  }

  lemma BucketCreationReports(id: Id, r: Resource, cfg: Config)
    requires r.spec.BucketSpec?
    ensures EndsInReport(BucketPlan.HandleCreationPlan(id, r, cfg), id, r)
  {
    var u := r.spec;
    if u.defaultQuota.None? {
      ReportEnds(id, r, CreationFailure, ConversionSite, None, cfg.reconcilePeriod);
      AfterEnds([CreateBucket(u.bucket)], BucketPlan.Unconverted(id, r, CreationFailure, cfg), id, r);
    } else {
      var first := [CreateBucket(u.bucket), SetQuota(u.bucket, u.defaultQuota.value)];
      SuccessEnds(first + Markers.CreateCalls(u.bucket, u.paths), id, r, cfg);
    }
  }

  lemma MissingOutwards(w: World, bucket: string, paths: seq<string>)
    ensures Outwards(Markers.MissingCalls(w, bucket, paths))
  {
    var calls := Markers.MissingCalls(w, bucket, paths);
    BucketTheorems.MissingAreListed(w, bucket, paths);
    forall i | 0 <= i < |calls| ensures !WritesResource(calls[i]) {
      assert calls[i] in calls;
    }
  }

  lemma BucketUpdateReports(w: World, id: Id, r: Resource, cfg: Config)
    requires r.spec.BucketSpec? && r.spec.bucket in w.buckets
    ensures EndsInReport(BucketPlan.HandleUpdatePlan(w, id, r, cfg), id, r)
  {
    var u := r.spec;
    if BucketPlan.WantedQuota(u).None? {
      ReportEnds(id, r, Unreachable, ConversionSite, None, cfg.reconcilePeriod);
    } else {
      var quota := BucketPlan.QuotaCalls(w, u.bucket, BucketPlan.WantedQuota(u).value);
      var missing := Markers.MissingCalls(Exec(w, quota), u.bucket, u.paths);
      MissingOutwards(Exec(w, quota), u.bucket, u.paths);
      OutwardsJoin(quota, missing);
      SuccessEnds(quota + missing, id, r, cfg);
    }
  }

  lemma OutwardsJoin(a: seq<Action>, b: seq<Action>)
    requires Outwards(a) && Outwards(b)
    ensures Outwards(a + b)
  {
  }

  lemma PathBodyReports(w: World, id: Id, r: Resource, cfg: Config)
    requires r.spec.PathSpec?
    ensures ReportsUnless(ClientFor(w, id.namespace, r.spec.s3InstanceRef).Panicked?,
                          PathPlan.HandleReconciliationPlan(w, id, r, cfg), id, r)
  {
    var done := Report(id, r, Reconciled, Success, None, cfg.reconcilePeriod);
    ReportEnds(id, r, Reconciled, Success, None, cfg.reconcilePeriod);
    ReportEnds(id, r, CreationFailure, MissingBucketSite, None, cfg.reconcilePeriod);
    MissingOutwards(w, r.spec.bucket, r.spec.paths);
    AfterEnds(Markers.MissingCalls(w, r.spec.bucket, r.spec.paths), done, id, r);
    match ClientFor(w, id.namespace, r.spec.s3InstanceRef)
    case Panicked =>
    case Unavailable(e) => ReportEnds(id, r, Unreachable, ClientSite, Some(e), cfg.reconcilePeriod);
    case Client(_) =>
  }

  lemma PolicyBodyReports(w: World, id: Id, r: Resource, cfg: Config, json: string -> bool)
    requires r.spec.PolicySpec?
    ensures ReportsUnless(ClientFor(w, id.namespace, r.spec.s3InstanceRef).Panicked?,
                          PolicyPlan.HandleReconciliationPlan(w, id, r, cfg, json), id, r)
  {
    ReportEnds(id, r, Reconciled, Success, None, cfg.reconcilePeriod);
    ReportEnds(id, r, Unreachable, ComparisonSite, Some(InvalidJson), cfg.reconcilePeriod);
    AfterEnds(PolicyPlan.PutCalls(r.spec), PolicyPlan.Succeeded(id, r, cfg), id, r);
    AfterEnds([], PolicyPlan.Succeeded(id, r, cfg), id, r);
    match ClientFor(w, id.namespace, r.spec.s3InstanceRef)
    case Panicked =>
    case Unavailable(e) => ReportEnds(id, r, Unreachable, ClientSite, Some(e), cfg.reconcilePeriod);
    case Client(_) =>
  }

  // ---------- exactly when a reconcile answers ----------

  /** A fault-free reconcile of a live S3User leaves an answer unless its instance is unready and there was none. */
  lemma UserAnswersExactly(w: World, id: Id, cfg: Config, ch: UserPlan.Chance)
    requires UserSafety.LiveUser(w, id) && UserPlan.ValidChance(w, id, ch)
    ensures
      var p := UserPlan.ReconcilePlan(w, id, cfg, ch);
      var x := Exec(w, p.actions);
      && id in x.resources
      && (Answered(x.resources[id]) <==> !Unready(w, id) || Answered(w.resources[id]))
      && (!Unready(w, id) ==> Tells(x.resources[id], p.outcome))
  {
    var v, s := WithResource(w, id, Started(w.resources[id])), Started(w.resources[id]);
    UserSafety.OpeningKeepsSecrets(w, id);
    UserSafety.ClientIgnoresOpening(w, id);
    UserBodyReports(v, id, s, cfg, ch);
    BodyAnswers(w, id, UserPlan.HandleReconciliationPlan(v, id, s, cfg, ch), Unready(w, id));
  }

  /** The same of a live Bucket ... */
  lemma BucketAnswersExactly(w: World, id: Id, cfg: Config)
    requires BucketPlan.HasBucket(w, id) && !w.resources[id].deleting
    ensures
      var p := BucketPlan.ReconcilePlan(w, id, cfg);
      var x := Exec(w, p.actions);
      && id in x.resources
      && (Answered(x.resources[id]) <==> !Unready(w, id) || Answered(w.resources[id]))
      && (!Unready(w, id) ==> Tells(x.resources[id], p.outcome))
  {
    var v, s := WithResource(w, id, Started(w.resources[id])), Started(w.resources[id]);
    BucketTheorems.ClientIgnoresOpening(w, id);
    BucketBodyReports(v, id, s, cfg);
    BodyAnswers(w, id, BucketPlan.HandleReconciliationPlan(v, id, s, cfg), Unready(w, id));
  }

  /** ... of a live Path ... */
  lemma PathAnswersExactly(w: World, id: Id, cfg: Config)
    requires PathPlan.HasPath(w, id) && !w.resources[id].deleting
    ensures
      var p := PathPlan.ReconcilePlan(w, id, cfg);
      var x := Exec(w, p.actions);
      && id in x.resources
      && (Answered(x.resources[id]) <==> !Unready(w, id) || Answered(w.resources[id]))
      && (!Unready(w, id) ==> Tells(x.resources[id], p.outcome))
  {
    var v, s := WithResource(w, id, Started(w.resources[id])), Started(w.resources[id]);
    PathTheorems.ClientIgnoresOpening(w, id);
    PathBodyReports(v, id, s, cfg);
    BodyAnswers(w, id, PathPlan.HandleReconciliationPlan(v, id, s, cfg), Unready(w, id));
  }

  /** ... and of a live Policy. */
  lemma PolicyAnswersExactly(w: World, id: Id, cfg: Config, json: string -> bool)
    requires PolicyPlan.HasPolicy(w, id) && !w.resources[id].deleting
    ensures
      var p := PolicyPlan.ReconcilePlan(w, id, cfg, json);
      var x := Exec(w, p.actions);
      && id in x.resources
      && (Answered(x.resources[id]) <==> !Unready(w, id) || Answered(w.resources[id]))
      && (!Unready(w, id) ==> Tells(x.resources[id], p.outcome))
  {
    var v, s := WithResource(w, id, Started(w.resources[id])), Started(w.resources[id]);
    PolicyTheorems.ClientIgnoresOpening(w, id);
    PolicyBodyReports(v, id, s, cfg, json);
    BodyAnswers(w, id, PolicyPlan.HandleReconciliationPlan(v, id, s, cfg, json), Unready(w, id));
  }

  // ---------- an instance that does not serve ----------

  /** The instance is missing, does not admit the namespace, or has a first condition that is not Reconciled. */
  predicate Unserved(w: World, id: Id)
    requires id in w.resources && !w.resources[id].spec.InstanceSpec?
  {
    !Served(w, id.namespace, w.resources[id].spec.s3InstanceRef) && !Unready(w, id)
  }

  /** The reconcile ends in an error and says why; backend, Secrets and finalizer are left alone. */
  ghost predicate TurnedAway(w: World, id: Id, p: Plan, reason: Reason) {
    && p.outcome == Errored
    && (forall a :: a in p.actions ==> !TouchesBackend(a) && !TouchesSecret(a) && !a.RemoveFinalizer?)
    && var x := Exec(w, p.actions);
       id in x.resources && Says(x.resources[id], reason, False)
  }

  lemma RefusalTurnsAway(
    w: World, id: Id, p: Plan, reason: Reason, site: Site, e: Error, period: nat)
    requires id in w.resources && !Blocked(w.resources[id])
    requires p == After(StartCalls(id, w.resources[id]),
                        Report(id, Started(w.resources[id]), reason, site, Some(e), period))
    ensures TurnedAway(w, id, p, reason)
  {
    var r := w.resources[id];
    var s, a := Started(r), Answer(reason, site, Some(e), period);
    StartCallsEffect(w, id);
    ExecAppend(w, StartCalls(id, r), ReportOf(id, s, a).actions);
    OnlyReports(id, r, s, a);
    AloneReport(WithResource(w, id, s), id, s, a);
  }

  lemma OnlyReports(id: Id, r: Resource, s: Resource, a: Answer)
    ensures forall c :: c in StartCalls(id, r) + ReportOf(id, s, a).actions ==> c.SetCondition? || c.AddFinalizer?
  {
  }

  lemma AloneReport(v: World, id: Id, s: Resource, a: Answer)
    requires id in v.resources && v.resources[id] == s
    ensures
      var x := Exec(v, ReportOf(id, s, a).actions);
      id in x.resources && Says(x.resources[id], a.reason, if a.error.Some? then False else True)
  {
    assert After([], ReportOf(id, s, a)) == ReportOf(id, s, a);
    ReportAnswers(v, id, s, [], a);
  }

  function RefusalReason(r: Resource): Reason {
    if r.deleting then DeletionFailure else Unreachable
  }

  lemma UnservedIsUnavailable(w: World, id: Id)
    requires id in w.resources && !w.resources[id].spec.InstanceSpec? && Unserved(w, id)
    ensures ClientFor(w, id.namespace, w.resources[id].spec.s3InstanceRef).Unavailable?
  {
    ClientExactly(w, id.namespace, w.resources[id].spec.s3InstanceRef);
  }

  /** An S3User whose instance does not serve it is turned away, live or being deleted. */
  lemma UserTurnedAway(w: World, id: Id, cfg: Config, ch: UserPlan.Chance)
    requires UserPlan.HasUser(w, id) && UserPlan.ValidChance(w, id, ch) && Unserved(w, id)
    requires !Blocked(w.resources[id])
    ensures TurnedAway(w, id, UserPlan.ReconcilePlan(w, id, cfg, ch), RefusalReason(w.resources[id]))
  {
    var r := w.resources[id];
    UserSafety.OpeningKeepsSecrets(w, id);
    UserSafety.ClientIgnoresOpening(w, id);
    UnservedIsUnavailable(w, id);
    var e := ClientFor(w, id.namespace, r.spec.s3InstanceRef).error;
    RefusalTurnsAway(w, id, UserPlan.ReconcilePlan(w, id, cfg, ch), RefusalReason(r),
                     if r.deleting then FinalizeSite else ClientSite, e, cfg.reconcilePeriod);
  }

  lemma BucketTurnedAway(w: World, id: Id, cfg: Config)
    requires BucketPlan.HasBucket(w, id) && Unserved(w, id) && !Blocked(w.resources[id])
    ensures TurnedAway(w, id, BucketPlan.ReconcilePlan(w, id, cfg), RefusalReason(w.resources[id]))
  {
    var r := w.resources[id];
    BucketTheorems.ClientIgnoresOpening(w, id);
    UnservedIsUnavailable(w, id);
    var e := ClientFor(w, id.namespace, r.spec.s3InstanceRef).error;
    RefusalTurnsAway(w, id, BucketPlan.ReconcilePlan(w, id, cfg), RefusalReason(r),
                     if r.deleting then FinalizeSite else ClientSite, e, cfg.reconcilePeriod);
  }

  lemma PathTurnedAway(w: World, id: Id, cfg: Config)
    requires PathPlan.HasPath(w, id) && Unserved(w, id) && !Blocked(w.resources[id])
    ensures TurnedAway(w, id, PathPlan.ReconcilePlan(w, id, cfg), RefusalReason(w.resources[id]))
  {
    var r := w.resources[id];
    PathTheorems.ClientIgnoresOpening(w, id);
    UnservedIsUnavailable(w, id);
    var e := ClientFor(w, id.namespace, r.spec.s3InstanceRef).error;
    RefusalTurnsAway(w, id, PathPlan.ReconcilePlan(w, id, cfg), RefusalReason(r),
                     if r.deleting then FinalizeSite else ClientSite, e, cfg.reconcilePeriod);
  }

  lemma PolicyTurnedAway(w: World, id: Id, cfg: Config, json: string -> bool)
    requires PolicyPlan.HasPolicy(w, id) && Unserved(w, id) && !Blocked(w.resources[id])
    ensures TurnedAway(w, id, PolicyPlan.ReconcilePlan(w, id, cfg, json), RefusalReason(w.resources[id]))
  {
    var r := w.resources[id];
    PolicyTheorems.ClientIgnoresOpening(w, id);
    UnservedIsUnavailable(w, id);
    var e := ClientFor(w, id.namespace, r.spec.s3InstanceRef).error;
    RefusalTurnsAway(w, id, PolicyPlan.ReconcilePlan(w, id, cfg, json), RefusalReason(r),
                     if r.deleting then FinalizeSite else ClientSite, e, cfg.reconcilePeriod);
  }

  // ---------- failures that are no errors ----------

  /** The reconcile returns no error, does nothing in the backend, and gives a reason that is a failure. */
  ghost predicate EndsWithoutError(w: World, id: Id, p: Plan, reason: Reason, period: nat) {
    && p.outcome == Finished(period)
    && var x := Exec(w, p.actions);
       && x == w.(resources := x.resources)
       && id in x.resources && Says(x.resources[id], reason, True)
  }

  lemma ReportWithoutError(w: World, id: Id, p: Plan, reason: Reason, site: Site, period: nat)
    requires id in w.resources
    requires p == After(StartCalls(id, w.resources[id]),
                        Report(id, Started(w.resources[id]), reason, site, None, period))
    ensures EndsWithoutError(w, id, p, reason, period)
  {
    var r := w.resources[id];
    var s, a := Started(r), Answer(reason, site, None, period);
    StartCallsEffect(w, id);
    ExecAppend(w, StartCalls(id, r), ReportOf(id, s, a).actions);
    AloneReport(WithResource(w, id, s), id, s, a);
    BucketTheorems.ReportOnly(WithResource(w, id, s), id, s, reason, site, None, period);
  }

  /** A Path without its bucket fails to be created with status True. */
  lemma PathWithoutBucket(w: World, id: Id, cfg: Config)
    requires PathPlan.HasPath(w, id) && !w.resources[id].deleting
    requires Served(w, id.namespace, w.resources[id].spec.s3InstanceRef)
    requires w.resources[id].spec.bucket !in w.buckets
    ensures EndsWithoutError(w, id, PathPlan.ReconcilePlan(w, id, cfg), CreationFailure, cfg.reconcilePeriod)
  {
    PathTheorems.ClientIgnoresOpening(w, id);
    ClientExactly(w, id.namespace, w.resources[id].spec.s3InstanceRef);
    ReportWithoutError(
      w, id, PathPlan.ReconcilePlan(w, id, cfg), CreationFailure, MissingBucketSite, cfg.reconcilePeriod);
  }

  /** An existing bucket whose wanted quantity is no int64 is left alone, with status True. */
  lemma BucketWithoutQuantity(w: World, id: Id, cfg: Config)
    requires BucketPlan.HasBucket(w, id) && !w.resources[id].deleting
    requires Served(w, id.namespace, w.resources[id].spec.s3InstanceRef)
    requires
      var u := w.resources[id].spec;
      && u.bucket in w.buckets
      && (u.overrideQuota.None? || (u.overrideQuota.value == 0 && u.defaultQuota.None?))
    ensures EndsWithoutError(w, id, BucketPlan.ReconcilePlan(w, id, cfg), Unreachable, cfg.reconcilePeriod)
  {
    BucketTheorems.ClientIgnoresOpening(w, id);
    ClientExactly(w, id.namespace, w.resources[id].spec.s3InstanceRef);
    ReportWithoutError(w, id, BucketPlan.ReconcilePlan(w, id, cfg), Unreachable, ConversionSite, cfg.reconcilePeriod);
  }

  /** A document that cannot be compared, the spec's or the stored one, ends the reconcile in an error. */
  lemma PolicyIncomparable(w: World, id: Id, cfg: Config, json: string -> bool)
    requires PolicyPlan.HasPolicy(w, id) && !w.resources[id].deleting
    requires Served(w, id.namespace, w.resources[id].spec.s3InstanceRef)
    requires
      var u := w.resources[id].spec;
      u.policy in w.policies && (!json(u.content) || !json(w.policies[u.policy]))
    ensures TurnedAway(w, id, PolicyPlan.ReconcilePlan(w, id, cfg, json), Unreachable)
  {
    PolicyTheorems.ClientIgnoresOpening(w, id);
    ClientExactly(w, id.namespace, w.resources[id].spec.s3InstanceRef);
    RefusalTurnsAway(w, id, PolicyPlan.ReconcilePlan(w, id, cfg, json), Unreachable, ComparisonSite, InvalidJson,
                     cfg.reconcilePeriod);
  }

  /** A live instance, when no call fails, says Reconciled. */
  lemma InstanceAnswers(w: World, id: Id, cfg: Config)
    requires InstancePlan.HasInstance(w, id) && !w.resources[id].deleting
    ensures EndsWithoutError(w, id, InstancePlan.ReconcilePlan(w, id, cfg), Reconciled, cfg.reconcilePeriod)
  {
    ReportWithoutError(w, id, InstancePlan.ReconcilePlan(w, id, cfg), Reconciled, Success, cfg.reconcilePeriod);
  }

  // ---------- an instance without a condition ----------

  const NEWCOMER: Id := Id(S3UserKind, "n", "a")

  /** A new S3User next to a new instance. */
  function NewcomersWorld(): World {
    var instance := Resource(
      "v", 1, false, {}, [], InstanceSpec(S3Config("", "", "", "", "", ""), [], true, true, true, true));
    var user := Resource("u", 1, false, {}, [], UserSpec("i", "k", [], "", "x", "y"));
    World(map[NEWCOMER := user, Id(S3InstanceKind, "n", "i") := instance], map[], map[], map[], map[])
  }

  lemma NewcomersIs() returns (w: World, id: Id)
    ensures UserSafety.LiveUser(w, id) && Unready(w, id) && !Answered(w.resources[id])
    ensures UserPlan.OwnedKeys(w, id.namespace, w.resources[id].uid) == {}
  {
    w, id := NewcomersWorld(), NEWCOMER;
    assert InstanceOf("i", "n") == Id(S3InstanceKind, "n", "i");
  }

  /** Its reconcile ends in an error and leaves no answer. */
  lemma UnansweredExists(cfg: Config, ch: UserPlan.Chance) returns (w: World, id: Id)
    requires ch.order == [] && IsPassword(ch.key)
    ensures UserSafety.LiveUser(w, id) && UserPlan.ValidChance(w, id, ch)
    ensures
      var p := UserPlan.ReconcilePlan(w, id, cfg, ch);
      var x := Exec(w, p.actions);
      p.outcome == Errored && id in x.resources && !Answered(x.resources[id])
  {
    w, id := NewcomersIs();
    assert SetOf(ch.order) == {};
    UserAnswersExactly(w, id, cfg, ch);
    UserSafety.ClientIgnoresOpening(w, id);
  }

  // ---------- conditions stay ----------

  predicate HasConditions(w: World, iid: Id) {
    iid in w.resources ==> w.resources[iid].conditions != []
  }

  /** No resource that refers to the instance finds it unready. */
  ghost predicate NoneUnready(w: World, iid: Id) {
    forall j :: j in w.resources && !w.resources[j].spec.InstanceSpec? && Unready(w, j) ==>
      InstanceOf(w.resources[j].spec.s3InstanceRef, j.namespace) != iid
  }

  lemma ConditionsStay(w: World, a: Action, iid: Id)
    requires HasConditions(w, iid)
    ensures HasConditions(Apply(w, a), iid)
  {
    ResourcesKept(w, a, iid);
  }

  lemma {:induction false} ConditionsStayAlong(w: World, done: seq<Action>, iid: Id)
    requires HasConditions(w, iid)
    ensures HasConditions(Exec(w, done), iid)
    decreases |done|
  {
    if done != [] {
      ConditionsStay(w, done[0], iid);
      ConditionsStayAlong(Apply(w, done[0]), done[1..], iid);
    }
  }

  /** The environment neither makes the instance anew nor takes its last condition away. */
  predicate KeepsConditions(w: World, v: World, iid: Id) {
    iid in v.resources ==>
      iid in w.resources && (w.resources[iid].conditions != [] ==> v.resources[iid].conditions != [])
  }

  lemma OperatorKeepsConditions(w: World, v: World, cfg: Config, json: string -> bool, iid: Id)
    requires OperatorStep(w, v, cfg, json) && HasConditions(w, iid)
    ensures HasConditions(v, iid)
  {
    var j, done :| MayReconcile(w, j, cfg, json, done) && v == Exec(w, done);
    ConditionsStayAlong(w, done, iid);
  }

  /**
   * Once an instance has a condition it has one in every world of every run of all controllers,
   * and no resource that refers to it finds it unready.
   */
  lemma {:induction false} ReadyForEver(ws: seq<World>, iid: Id, cfg: Config, json: string -> bool)
    requires ws != [] && HasConditions(ws[0], iid)
    requires forall i :: 0 <= i < |ws| - 1 ==>
      OperatorStep(ws[i], ws[i + 1], cfg, json) || KeepsConditions(ws[i], ws[i + 1], iid)
    ensures forall i :: 0 <= i < |ws| ==> HasConditions(ws[i], iid)
    ensures forall i :: 0 <= i < |ws| ==> NoneUnready(ws[i], iid)
  {
    if |ws| > 1 {
      var n := |ws| - 1;
      ReadyForEver(ws[..n], iid, cfg, json);
      assert HasConditions(ws[..n][n - 1], iid);
      assert OperatorStep(ws[n - 1], ws[n - 1 + 1], cfg, json) || KeepsConditions(ws[n - 1], ws[n - 1 + 1], iid);
      if OperatorStep(ws[n - 1], ws[n], cfg, json) {
        OperatorKeepsConditions(ws[n - 1], ws[n], cfg, json, iid);
      }
      forall i | 0 <= i < |ws| ensures HasConditions(ws[i], iid) {
        if i < n { assert ws[..n][i] == ws[i]; }
      }
    }
  }
}
