/**
 * One fault-free reconcile of a live S3User, exactly: which Secret it goes by, what it deletes and what it makes.
 * Either it keeps the user with the credentials it found, or it makes the user anew.
 */
module UserPass {
  import opened Collections
  import opened Model
  import opened Effects
  import opened ControllerHelper
  import opened S3InstanceHelper
  import opened UserPlan
  import opened UserSafety
  import opened UserHealing

  /** A live S3User whose client is available and whose field names are usable. */
  ghost predicate Passable(w: World, id: Id) {
    && LiveUser(w, id)
    && ClientFor(w, id.namespace, w.resources[id].spec.s3InstanceRef).Client?
    && FieldsDistinct(w.resources[id].spec)
  }

  function ClientConfig(w: World, id: Id): S3Config
    requires Passable(w, id)
  {
    ClientFor(w, id.namespace, w.resources[id].spec.s3InstanceRef).instance.config
  }

  /** Where the user's own Secret goes: the name the spec gives, or the resource's own if it gives none. */
  function At(w: World, id: Id): (k: Key)
    requires HasUser(w, id)
    ensures w.resources[id].spec.secretName != "" ==> k == Key(id.namespace, w.resources[id].spec.secretName)
    ensures w.resources[id].spec.secretName == "" ==> k == Key(id.namespace, id.name)
  {
    Target(id, w.resources[id])
  }

  function Unlinked(w: World, id: Id): Option<Key>
    requires HasUser(w, id)
  {
    UnlinkedSecret(w, id, w.resources[id])
  }

  /** The Secret an existing user is compared with. */
  function Compared(w: World, id: Id): (k: Option<Key>)
    requires HasUser(w, id)
    ensures k.Some? ==> k.value in w.secrets
  {
    if Unlinked(w, id).Some? then Unlinked(w, id)
    else if At(w, id) in Owned(w, id) then Some(At(w, id))
    else None
  }

  /** The user exists and the Secret it is compared with holds valid credentials, of whichever user. */
  predicate Keeps(w: World, id: Id)
    requires HasUser(w, id)
  {
    && AccessKey(w, id) in w.users
    && Compared(w, id).Some?
    && CredentialsValid(w, w.resources[id].spec, w.secrets[Compared(w, id).value].data)
  }

  /** The Secrets a pass leaves when it keeps the user: with none unlinked the stale owned ones go. */
  function KeptSecrets(w: World, id: Id): map<Key, Secret>
    requires HasUser(w, id)
  {
    if Unlinked(w, id).Some? then w.secrets else w.secrets - (Owned(w, id) - {At(w, id)})
  }

  /** The Secrets left when the user is made anew: with none unlinked every owned one of an existing user went. */
  function LeftSecrets(w: World, id: Id): map<Key, Secret>
    requires HasUser(w, id)
  {
    if Unlinked(w, id).None? && AccessKey(w, id) in w.users then w.secrets - Owned(w, id) else w.secrets
  }

  function KeptUsers(w: World, id: Id): map<string, BackendUser>
    requires HasUser(w, id) && AccessKey(w, id) in w.users
  {
    var user := AccessKey(w, id);
    w.users[user := BackendUser(w.users[user].key, SetOf(w.resources[id].spec.policies))]
  }

  function MadeUsers(w: World, id: Id, key: string): map<string, BackendUser>
    requires HasUser(w, id)
  {
    w.users[AccessKey(w, id) := BackendUser(key, SetOf(w.resources[id].spec.policies))]
  }

  function NewSecret(w: World, id: Id, key: string): Secret
    requires Passable(w, id)
  {
    NewSecretForCR(id, w.resources[id], key, ClientConfig(w, id))
  }

  // ---------- the body of a pass ----------

  /** A pass that keeps the user brings the policies in line, and before that deletes stale Secrets. */
  lemma KeptBody(w: World, id: Id, r: Resource, cfg: Config, ch: Chance) returns (calls: seq<Action>)
    requires Passable(w, id) && w.resources[id] == r && Keeps(w, id)
    requires Lists(ch.order, OwnedKeys(w, id.namespace, r.uid))
    ensures HandleReconciliationPlan(w, id, r, cfg, ch)
         == After(calls, Report(id, r, Reconciled, Success, None, cfg.reconcilePeriod))
    ensures Exec(w, calls) == w.(users := KeptUsers(w, id), secrets := KeptSecrets(w, id))
  {
    var u, at := r.spec, Target(id, r);
    var fix := PolicyCalls(u.accessKey, w.users[u.accessKey].policies, SetOf(u.policies));
    if Unlinked(w, id).Some? {
      calls := fix;
      PolicyCallsEffect(w, u.accessKey, SetOf(u.policies));
    } else {
      var stale := Without(ch.order, at);
      DeletionsKeep(w, stale);
      var v := Exec(w, Deletions(stale));
      PolicyCallsEffect(v, u.accessKey, SetOf(u.policies));
      calls := Deletions(stale) + fix;
      ExecAppend(w, Deletions(stale), fix);
      StaleAreRest(w, id, ch.order);
    }
  }

  lemma StaleAreRest(w: World, id: Id, order: seq<Key>)
    requires HasUser(w, id) && Lists(order, Owned(w, id))
    ensures SetOf(Without(order, At(w, id))) == Owned(w, id) - {At(w, id)}
    ensures At(w, id) !in Owned(w, id) ==> SetOf(Without(order, At(w, id))) == Owned(w, id)
  {
    assert forall k :: k in SetOf(order) <==> k in order;
  }

  /** A pass that does not keep the user deletes what must go, the user included, and creates it anew. */
  lemma MadeBody(w: World, id: Id, r: Resource, cfg: Config, ch: Chance) returns (calls: seq<Action>)
    requires Passable(w, id) && w.resources[id] == r && !Keeps(w, id)
    requires Lists(ch.order, OwnedKeys(w, id.namespace, r.uid))
    ensures HandleReconciliationPlan(w, id, r, cfg, ch)
         == After(calls, HandleCreatePlan(Exec(w, calls), id, r, cfg, ClientConfig(w, id), ch.key))
    ensures Exec(w, calls) == w.(users := w.users - {AccessKey(w, id)}, secrets := LeftSecrets(w, id))
  {
    var u := r.spec;
    if u.accessKey !in w.users {
      calls := [];
      assert w.users - {u.accessKey} == w.users;
    } else if Unlinked(w, id).Some? {
      calls := MadeByUnlinked(w, id, r, cfg, ch);
    } else {
      calls := MadeByOwned(w, id, r, cfg, ch);
    }
  }

  lemma MadeByUnlinked(w: World, id: Id, r: Resource, cfg: Config, ch: Chance) returns (calls: seq<Action>)
    requires Passable(w, id) && w.resources[id] == r && !Keeps(w, id)
    requires Lists(ch.order, OwnedKeys(w, id.namespace, r.uid))
    requires r.spec.accessKey in w.users && Unlinked(w, id).Some?
    ensures HandleReconciliationPlan(w, id, r, cfg, ch)
         == After(calls, HandleCreatePlan(Exec(w, calls), id, r, cfg, ClientConfig(w, id), ch.key))
    ensures Exec(w, calls) == w.(users := w.users - {r.spec.accessKey})
  {
    var u := r.spec;
    var fix := PolicyCalls(u.accessKey, w.users[u.accessKey].policies, SetOf(u.policies));
    calls := fix + [] + [DeleteUser(u.accessKey)];
    assert fix + [] == fix;
    PolicyCallsEffect(w, u.accessKey, SetOf(u.policies));
    ExecSnoc(w, fix, DeleteUser(u.accessKey));
    assert KeptUsers(w, id) - {u.accessKey} == w.users - {u.accessKey};
  }

  lemma MadeByOwned(w: World, id: Id, r: Resource, cfg: Config, ch: Chance) returns (calls: seq<Action>)
    requires Passable(w, id) && w.resources[id] == r && !Keeps(w, id)
    requires Lists(ch.order, OwnedKeys(w, id.namespace, r.uid))
    requires r.spec.accessKey in w.users && Unlinked(w, id).None?
    ensures HandleReconciliationPlan(w, id, r, cfg, ch)
         == After(calls, HandleCreatePlan(Exec(w, calls), id, r, cfg, ClientConfig(w, id), ch.key))
    ensures Exec(w, calls) == w.(users := w.users - {r.spec.accessKey}, secrets := w.secrets - Owned(w, id))
  {
    if Owned(w, id) == {} {
      calls := [] + [DeleteUser(r.spec.accessKey)];
      ExecSnoc(w, [], DeleteUser(r.spec.accessKey));
      assert w.secrets - {} == w.secrets;
    } else if Target(id, r) in Owned(w, id) {
      calls := MadeOverTarget(w, id, r, cfg, ch);
    } else {
      calls := MadeWithoutTarget(w, id, r, cfg, ch);
    }
  }

  /** The target is owned and holds no valid credentials: the stale Secrets go, then it, then the user. */
  lemma MadeOverTarget(w: World, id: Id, r: Resource, cfg: Config, ch: Chance) returns (calls: seq<Action>)
    requires Passable(w, id) && w.resources[id] == r && !Keeps(w, id)
    requires Lists(ch.order, OwnedKeys(w, id.namespace, r.uid))
    requires r.spec.accessKey in w.users && Unlinked(w, id).None? && Target(id, r) in Owned(w, id)
    ensures HandleReconciliationPlan(w, id, r, cfg, ch)
         == After(calls, HandleCreatePlan(Exec(w, calls), id, r, cfg, ClientConfig(w, id), ch.key))
    ensures Exec(w, calls) == w.(users := w.users - {r.spec.accessKey}, secrets := w.secrets - Owned(w, id))
  {
    var u, at := r.spec, Target(id, r);
    var stale := Deletions(Without(ch.order, at));
    DeletionsKeep(w, Without(ch.order, at));
    StaleAreRest(w, id, ch.order);
    var v := Exec(w, stale);
    var rest := PolicyCalls(u.accessKey, w.users[u.accessKey].policies, SetOf(u.policies))
      + [DeleteSecret(at)] + [DeleteUser(u.accessKey)];
    calls := stale + rest;
    MadeByTarget(v, u.accessKey, SetOf(u.policies), at);
    ExecAppend(w, stale, rest);
    assert w.secrets - (Owned(w, id) - {at}) - {at} == w.secrets - Owned(w, id);
    AfterTwice(stale, rest, HandleCreatePlan(Exec(v, rest), id, r, cfg, ClientConfig(w, id), ch.key));
  }

  /** Owned Secrets, but none under the target name: they go, then the user. */
  lemma MadeWithoutTarget(w: World, id: Id, r: Resource, cfg: Config, ch: Chance) returns (calls: seq<Action>)
    requires Passable(w, id) && w.resources[id] == r && !Keeps(w, id)
    requires Lists(ch.order, OwnedKeys(w, id.namespace, r.uid))
    requires r.spec.accessKey in w.users && Unlinked(w, id).None?
    requires Owned(w, id) != {} && Target(id, r) !in Owned(w, id)
    ensures HandleReconciliationPlan(w, id, r, cfg, ch)
         == After(calls, HandleCreatePlan(Exec(w, calls), id, r, cfg, ClientConfig(w, id), ch.key))
    ensures Exec(w, calls) == w.(users := w.users - {r.spec.accessKey}, secrets := w.secrets - Owned(w, id))
  {
    var at := Target(id, r);
    var stale := Deletions(Without(ch.order, at));
    DeletionsKeep(w, Without(ch.order, at));
    StaleAreRest(w, id, ch.order);
    calls := stale + [DeleteUser(r.spec.accessKey)];
    ExecSnoc(w, stale, DeleteUser(r.spec.accessKey));
  }

  lemma MadeByTarget(v: World, user: string, want: set<PolicyName>, at: Key)
    requires user in v.users && at in v.secrets
    ensures Exec(v, PolicyCalls(user, v.users[user].policies, want) + [DeleteSecret(at)] + [DeleteUser(user)])
         == v.(users := v.users - {user}, secrets := v.secrets - {at})
  {
    var fix := PolicyCalls(user, v.users[user].policies, want);
    PolicyCallsEffect(v, user, want);
    ExecSnoc(v, fix, DeleteSecret(at));
    ExecSnoc(v, fix + [DeleteSecret(at)], DeleteUser(user));
    assert v.users[user := BackendUser(v.users[user].key, want)] - {user} == v.users - {user};
  }

  // ---------- what the calls of a creation lead to ----------

  lemma TakeOverEffect(
    w: World, id: Id, r: Resource, cfg: Config, key: string, secret: Secret, data: map<string, string>)
    requires r.spec.UserSpec? && r.spec.accessKey !in w.users && Target(id, r) in w.secrets
    ensures Exec(w, TakeOverCalls(id, r, cfg, key, secret, data)) ==
      w.(users := w.users[r.spec.accessKey := BackendUser(KeyInPlace(r, cfg, key, data), SetOf(r.spec.policies))],
         secrets := if cfg.overrideExistingSecret then w.secrets[Target(id, r) := secret] else w.secrets)
  {
    var used := KeyInPlace(r, cfg, key, data);
    var create := CreateUser(r.spec.accessKey, used);
    var write := if cfg.overrideExistingSecret then [UpdateSecret(Target(id, r), secret)] else [];
    var v := Apply(w, create);
    ExecCons(w, create, write + GrantCalls(r.spec));
    assert TakeOverCalls(id, r, cfg, key, secret, data) == [create] + (write + GrantCalls(r.spec));
    ExecAppend(v, write, GrantCalls(r.spec));
    if write != [] { ExecOne(v, write[0]); }
    var x := Exec(v, write);
    GrantEffect(x, r.spec);
    assert {} + SetOf(r.spec.policies) == SetOf(r.spec.policies);
    assert Exec(x, GrantCalls(r.spec)).users == w.users[r.spec.accessKey := BackendUser(used, SetOf(r.spec.policies))];
  }

  // ---------- the whole pass ----------

  /** The world a pass leaves: these users and Secrets, the finalizer stored and the condition reported. */
  function Reported(
    w: World, id: Id, users: map<string, BackendUser>, secrets: map<Key, Secret>,
    reason: Reason, site: Site, error: Option<Error>): World
    requires HasUser(w, id)
  {
    var s := Started(w.resources[id]);
    var r := s.(conditions := Upsert(s.conditions, NewCondition(s, reason, site, error)));
    w.(users := users, secrets := secrets, resources := w.resources[id := r])
  }

  function Succeeded(w: World, id: Id, users: map<string, BackendUser>, secrets: map<Key, Secret>): World
    requires HasUser(w, id)
  {
    Reported(w, id, users, secrets, Reconciled, Success, None)
  }

  function AfterPass(w: World, id: Id, cfg: Config, ch: Chance): World
    requires HasUser(w, id) && ValidChance(w, id, ch)
  {
    Exec(w, ReconcilePlan(w, id, cfg, ch).actions)
  }

  function Opened(w: World, id: Id): World
    requires HasUser(w, id)
  {
    WithResource(w, id, Started(w.resources[id]))
  }

  /** The opening changes nothing a pass goes by. */
  lemma OpeningKeepsPass(w: World, id: Id)
    requires Passable(w, id)
    ensures
      var v := Opened(w, id);
      && Passable(v, id) && ClientConfig(v, id) == ClientConfig(w, id)
      && Owned(v, id) == Owned(w, id) && Unlinked(v, id) == Unlinked(w, id)
      && (Keeps(v, id) <==> Keeps(w, id))
  {
    OpeningKeepsSecrets(w, id);
    ClientIgnoresOpening(w, id);
  }

  /** A pass whose body makes `calls` and reports ends in the reported world. */
  lemma BodyEnds(
    w: World, id: Id, cfg: Config, ch: Chance, calls: seq<Action>, reason: Reason, site: Site, error: Option<Error>)
    requires LiveUser(w, id) && ValidChance(w, id, ch)
    requires Lists(ch.order, Owned(Opened(w, id), id))
    requires
      var v, s := Opened(w, id), Started(w.resources[id]);
      && HandleReconciliationPlan(v, id, s, cfg, ch)
           == After(calls, Report(id, s, reason, site, error, cfg.reconcilePeriod))
      && Exec(v, calls).resources == v.resources
    ensures
      var x := Exec(Opened(w, id), calls);
      AfterPass(w, id, cfg, ch) == Reported(w, id, x.users, x.secrets, reason, site, error).(
        buckets := x.buckets, policies := x.policies)
    ensures ReconcilePlan(w, id, cfg, ch).outcome == if error.Some? then Errored else Finished(cfg.reconcilePeriod)
  {
    var r := w.resources[id];
    var v, s := Opened(w, id), Started(r);
    var report := Report(id, s, reason, site, error, cfg.reconcilePeriod).actions;
    PlanWorld(w, id, calls, report);
    var x := Exec(v, calls);
    ReportEffect(x, id, s, reason, site, error, cfg.reconcilePeriod);
    var last := s.(conditions := Upsert(s.conditions, NewCondition(s, reason, site, error)));
    assert w.resources[id := s][id := last] == w.resources[id := last];
  }

  lemma PlanWorld(w: World, id: Id, calls: seq<Action>, report: seq<Action>)
    requires HasUser(w, id)
    ensures Exec(w, StartCalls(id, w.resources[id]) + (calls + report)) == Exec(Exec(Opened(w, id), calls), report)
  {
    StartCallsEffect(w, id);
    ExecAppend(w, StartCalls(id, w.resources[id]), calls + report);
    ExecAppend(Opened(w, id), calls, report);
  }

  /** A pass that keeps the user. */
  lemma PassKeeps(w: World, id: Id, cfg: Config, ch: Chance)
    requires Passable(w, id) && ValidChance(w, id, ch) && Keeps(w, id)
    ensures AfterPass(w, id, cfg, ch) == Succeeded(w, id, KeptUsers(w, id), KeptSecrets(w, id))
    ensures ReconcilePlan(w, id, cfg, ch).outcome == Finished(cfg.reconcilePeriod)
  {
    OpeningKeepsPass(w, id);
    var calls := KeptBody(Opened(w, id), id, Started(w.resources[id]), cfg, ch);
    BodyEnds(w, id, cfg, ch, calls, Reconciled, Success, None);
  }

  /** The body of a pass that makes the user anew, once what must go is gone. */
  lemma MadeEnds(
    w: World, id: Id, cfg: Config, ch: Chance, calls: seq<Action>, create: seq<Action>,
    reason: Reason, site: Site, error: Option<Error>)
    requires Passable(w, id) && ValidChance(w, id, ch)
    requires
      var v, s := Opened(w, id), Started(w.resources[id]);
      var x := Exec(v, calls);
      && Lists(ch.order, Owned(v, id))
      && x.resources == v.resources && x.buckets == v.buckets && x.policies == v.policies
      && HandleReconciliationPlan(v, id, s, cfg, ch)
           == After(calls, After(create, Report(id, s, reason, site, error, cfg.reconcilePeriod)))
      && Exec(x, create) == x.(users := Exec(x, create).users, secrets := Exec(x, create).secrets)
    ensures
      var y := Exec(Exec(Opened(w, id), calls), create);
      AfterPass(w, id, cfg, ch) == Reported(w, id, y.users, y.secrets, reason, site, error)
    ensures ReconcilePlan(w, id, cfg, ch).outcome == if error.Some? then Errored else Finished(cfg.reconcilePeriod)
  {
    var s := Started(w.resources[id]);
    var report := Report(id, s, reason, site, error, cfg.reconcilePeriod);
    ExecAppend(Opened(w, id), calls, create);
    assert calls + (create + report.actions) == calls + create + report.actions;
    BodyEnds(w, id, cfg, ch, calls + create, reason, site, error);
  }

  /** A pass that makes the user and a Secret for it under a free name. */
  lemma PassMakesFresh(w: World, id: Id, cfg: Config, ch: Chance)
    requires Passable(w, id) && ValidChance(w, id, ch) && !Keeps(w, id) && At(w, id) !in LeftSecrets(w, id)
    ensures AfterPass(w, id, cfg, ch)
         == Succeeded(w, id, MadeUsers(w, id, ch.key), LeftSecrets(w, id)[At(w, id) := NewSecret(w, id, ch.key)])
    ensures ReconcilePlan(w, id, cfg, ch).outcome == Finished(cfg.reconcilePeriod)
  {
    OpeningKeepsPass(w, id);
    var v, s := Opened(w, id), Started(w.resources[id]);
    var secret := NewSecret(v, id, ch.key);
    var calls := MadeBody(v, id, s, cfg, ch);
    FreshUsers(w, Exec(v, calls), id, s, ch.key, secret);
    MadeEnds(w, id, cfg, ch, calls, FreshCalls(id, s, ch.key, secret), Reconciled, Success, None);
  }

  /** What the calls of a creation under a free name lead to once the user and what must go are gone. */
  lemma FreshUsers(w: World, x: World, id: Id, s: Resource, key: string, secret: Secret)
    requires HasUser(w, id) && s.spec == w.resources[id].spec && At(w, id) !in x.secrets
    requires x.users == w.users - {AccessKey(w, id)}
    ensures Exec(x, FreshCalls(id, s, key, secret))
         == x.(users := MadeUsers(w, id, key), secrets := x.secrets[At(w, id) := secret])
  {
    FreshEffect(x, id, s, key, secret);
    var user := BackendUser(key, SetOf(s.spec.policies));
    assert x.users[s.spec.accessKey := user] == w.users[s.spec.accessKey := user];
  }

  /** The Secret in place can be taken over: no other S3User owns it, and one of the two flags is on. */
  predicate MayTakeOver(w: World, id: Id, cfg: Config)
    requires HasUser(w, id) && At(w, id) in w.secrets
  {
    (forall ref :: ref in w.secrets[At(w, id)].owners && ref.kind == S3UserOwner ==> ref.uid == w.resources[id].uid)
    && (cfg.overrideExistingSecret || cfg.readExistingSecret)
  }

  /** The key a pass that takes over the Secret in place gives to the user. */
  function TakenKey(w: World, id: Id, cfg: Config, key: string): string
    requires HasUser(w, id) && At(w, id) in w.secrets
  {
    KeyInPlace(w.resources[id], cfg, key, w.secrets[At(w, id)].data)
  }

  /** A pass that makes the user over the Secret in place. */
  lemma PassTakesOver(w: World, id: Id, cfg: Config, ch: Chance)
    requires Passable(w, id) && ValidChance(w, id, ch) && !Keeps(w, id)
    requires At(w, id) in LeftSecrets(w, id) && MayTakeOver(w, id, cfg)
    ensures
      var secrets := LeftSecrets(w, id);
      AfterPass(w, id, cfg, ch) == Succeeded(
        w, id, MadeUsers(w, id, TakenKey(w, id, cfg, ch.key)),
        if cfg.overrideExistingSecret then secrets[At(w, id) := NewSecret(w, id, ch.key)] else secrets)
    ensures ReconcilePlan(w, id, cfg, ch).outcome == Finished(cfg.reconcilePeriod)
  {
    OpeningKeepsPass(w, id);
    var v, s := Opened(w, id), Started(w.resources[id]);
    var secret := NewSecret(v, id, ch.key);
    var create := TakeOverCalls(id, s, cfg, ch.key, secret, w.secrets[At(w, id)].data);
    var calls := MadeBody(v, id, s, cfg, ch);
    TakenUsers(w, Exec(v, calls), id, s, cfg, ch.key, secret);
    MadeEnds(w, id, cfg, ch, calls, create, Reconciled, Success, None);
  }

  /** What the calls of a takeover lead to once the user and what must go are gone. */
  lemma TakenUsers(w: World, x: World, id: Id, s: Resource, cfg: Config, key: string, secret: Secret)
    requires HasUser(w, id) && s.spec == w.resources[id].spec && At(w, id) in w.secrets && At(w, id) in x.secrets
    requires x.users == w.users - {AccessKey(w, id)}
    ensures Exec(x, TakeOverCalls(id, s, cfg, key, secret, w.secrets[At(w, id)].data)) == x.(
      users := MadeUsers(w, id, TakenKey(w, id, cfg, key)),
      secrets := if cfg.overrideExistingSecret then x.secrets[At(w, id) := secret] else x.secrets)
  {
    TakeOverEffect(x, id, s, cfg, key, secret, w.secrets[At(w, id)].data);
    var user := BackendUser(TakenKey(w, id, cfg, key), SetOf(s.spec.policies));
    assert x.users[s.spec.accessKey := user] == w.users[s.spec.accessKey := user];
  }

  /** A pass that stops at the Secret in place: the user is gone, and an error is reported. */
  lemma PassRefuses(w: World, id: Id, cfg: Config, ch: Chance)
    requires Passable(w, id) && ValidChance(w, id, ch) && !Keeps(w, id)
    requires At(w, id) in LeftSecrets(w, id) && !MayTakeOver(w, id, cfg)
    ensures
      var elsewhere := OwnedElsewhere(w.secrets[At(w, id)], w.resources[id].uid);
      AfterPass(w, id, cfg, ch) == Reported(
        w, id, w.users - {AccessKey(w, id)}, LeftSecrets(w, id), CreationFailure,
        if elsewhere then OwnedElsewhereSite else KeptSecretSite,
        Some(if elsewhere then OwnedByOtherUser else SecretExists))
    ensures ReconcilePlan(w, id, cfg, ch).outcome == Errored
  {
    OpeningKeepsPass(w, id);
    var v, s := Opened(w, id), Started(w.resources[id]);
    var elsewhere := OwnedElsewhere(w.secrets[At(w, id)], w.resources[id].uid);
    var calls := MadeBody(v, id, s, cfg, ch);
    var x := Exec(v, calls);
    assert Exec(x, []) == x;
    MadeEnds(w, id, cfg, ch, calls, [], CreationFailure, if elsewhere then OwnedElsewhereSite else KeptSecretSite,
             Some(if elsewhere then OwnedByOtherUser else SecretExists));
  }
}
