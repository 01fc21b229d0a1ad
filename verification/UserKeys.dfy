/**
 * What a reconcile of an S3User writes into the user and its Secret: which key, under which name,
 * and every field of a new Secret.
 */
module UserKeys {
  import opened Collections
  import opened Model
  import opened Effects
  import opened ControllerHelper
  import opened S3InstanceHelper
  import opened PasswordGenerator
  import opened UserPlan
  import opened UserSafety

  /** The name the spec gives the Secret, or the resource's own if it gives none. */
  predicate NamedBySpec(id: Id, u: Spec, k: Key)
    requires u.UserSpec?
  {
    k.namespace == id.namespace && k.name == if u.secretName == "" then id.name else u.secretName
  }

  /** A Secret that was there under that name holds the key. */
  ghost predicate ReadFrom(before: map<Key, Secret>, id: Id, u: Spec, key: string)
    requires u.UserSpec?
  {
    exists k :: k in before && NamedBySpec(id, u, k)
      && u.secretKeyField in before[k].data && before[k].data[u.secretKeyField] == key
  }

  // ---------- every field of a new Secret ----------

  /** The seven fields of a new Secret and their values, and no others. */
  predicate HoldsData(data: map<string, string>, u: Spec, key: string, config: S3Config)
    requires u.UserSpec?
  {
    && data.Keys == {u.accessKeyField, u.secretKeyField,
                     "s3PathStyleUrl", "s3region", "s3CACertificate", "s3url", "s3ConnectionURL"}
    && data[u.accessKeyField] == u.accessKey && data[u.secretKeyField] == key
    && data["s3PathStyleUrl"] == config.pathStyle && data["s3region"] == config.region
    && data["s3CACertificate"] == config.caCertificates && data["s3url"] == config.url
    && data["s3ConnectionURL"] == config.scheme + "://" + u.accessKey + ":" + key + "@" + config.endpoint
  }

  lemma DataExactly(u: Spec, key: string, config: S3Config)
    requires u.UserSpec? && FieldsDistinct(u)
    ensures HoldsData(SecretData(u, key, config), u, key, config)
  {
    assert u.accessKeyField !in FIXED_FIELDS && u.secretKeyField !in FIXED_FIELDS;
  }

  // ---------- the calls ----------

  /** The configuration of the instance referred to, if there is one. */
  function ConfigOf(w: World, namespace: string, ref: string): Option<S3Config> {
    var iid := InstanceOf(ref, namespace);
    if iid in w.resources && w.resources[iid].spec.InstanceSpec? then Some(w.resources[iid].spec.config) else None
  }

  /** What the calls of a reconcile are measured by: the generated key, the Secrets before, the instance. */
  datatype Given = Given(key: string, before: map<Key, Secret>, config: Option<S3Config>)

  /**
   * A user gets the generated key, or in read mode one read; a Secret goes under its name and holds the generated one,
   * next to the access key and what the instance says.
   */
  ghost predicate KeyCall(a: Action, id: Id, u: Spec, cfg: Config, g: Given)
    requires u.UserSpec?
  {
    && (a.CreateUser? ==>
          a.user == u.accessKey && (a.key == g.key || (cfg.readExistingSecret && ReadFrom(g.before, id, u, a.key))))
    && (a.CreateSecret? || a.UpdateSecret? ==>
          && NamedBySpec(id, u, a.at)
          && (FieldsDistinct(u) ==> g.config.Some? && HoldsData(a.secret.data, u, g.key, g.config.value)))
  }

  ghost predicate KeyCalls(calls: seq<Action>, id: Id, u: Spec, cfg: Config, g: Given)
    requires u.UserSpec?
  {
    forall i :: 0 <= i < |calls| ==> KeyCall(calls[i], id, u, cfg, g)
  }

  /** Nothing but removals happened to the Secrets. */
  predicate Fewer(now: map<Key, Secret>, before: map<Key, Secret>) {
    forall k :: k in now ==> k in before && before[k] == now[k]
  }

  lemma CreateKeys(
    w: World, id: Id, r: Resource, cfg: Config, config: S3Config, g: Given)
    requires r.spec.UserSpec? && Fewer(w.secrets, g.before) && g.config == Some(config)
    ensures KeyCalls(HandleCreatePlan(w, id, r, cfg, config, g.key).actions, id, r.spec, cfg, g)
  {
    var at := Target(id, r);
    if FieldsDistinct(r.spec) { DataExactly(r.spec, g.key, config); }
    if at in w.secrets {
      assert NamedBySpec(id, r.spec, at) && at in g.before;
    }
  }

  lemma RecreateKeys(
    w: World, id: Id, r: Resource, cfg: Config, config: S3Config, first: seq<Action>, g: Given)
    requires r.spec.UserSpec? && Fewer(Exec(w, first).secrets, g.before) && g.config == Some(config)
    requires KeyCalls(first, id, r.spec, cfg, g)
    ensures KeyCalls(RecreatePlan(w, id, r, cfg, config, g.key, first).actions, id, r.spec, cfg, g)
  {
    var calls := first + [DeleteUser(r.spec.accessKey)];
    ExecSnoc(w, first, DeleteUser(r.spec.accessKey));
    CreateKeys(Exec(w, calls), id, r, cfg, config, g);
  }

  lemma CheckKeys(
    w: World, id: Id, r: Resource, cfg: Config, config: S3Config, current: Key, owned: bool, g: Given)
    requires r.spec.UserSpec? && r.spec.accessKey in w.users && current in w.secrets
    requires Fewer(w.secrets, g.before) && g.config == Some(config)
    ensures KeyCalls(CheckPlan(w, id, r, cfg, config, g.key, current, owned).actions, id, r.spec, cfg, g)
  {
    var fix := PolicyCalls(r.spec.accessKey, w.users[r.spec.accessKey].policies, SetOf(r.spec.policies));
    PolicyCallsEffect(w, r.spec.accessKey, SetOf(r.spec.policies));
    if !CredentialsValid(w, r.spec, w.secrets[current].data) {
      var first := fix + if owned then [DeleteSecret(current)] else [];
      if owned { ExecSnoc(w, fix, DeleteSecret(current)); } else { assert first == fix; }
      RecreateKeys(w, id, r, cfg, config, first, g);
    }
  }

  lemma UpdateKeys(w: World, id: Id, r: Resource, cfg: Config, config: S3Config, ch: Chance)
    requires r.spec.UserSpec? && r.spec.accessKey in w.users
    requires Lists(ch.order, OwnedKeys(w, id.namespace, r.uid))
    ensures KeyCalls(HandleUpdatePlan(w, id, r, cfg, config, ch).actions, id, r.spec, cfg,
                     Given(ch.key, w.secrets, Some(config)))
  {
    var at, owned := Target(id, r), OwnedKeys(w, id.namespace, r.uid);
    var unlinked, g := UnlinkedSecret(w, id, r), Given(ch.key, w.secrets, Some(config));
    var stale := Deletions(Without(ch.order, at));
    DeletionsKeep(w, Without(ch.order, at));
    if owned == {} && unlinked.None? {
      RecreateKeys(w, id, r, cfg, config, [], g);
    } else if unlinked.Some? {
      CheckKeys(w, id, r, cfg, config, unlinked.value, false, g);
    } else if at in owned {
      CheckKeys(Exec(w, stale), id, r, cfg, config, at, true, g);
    } else {
      RecreateKeys(w, id, r, cfg, config, stale, g);
    }
  }

  function GivenBy(w: World, id: Id, r: Resource, ch: Chance): Given
    requires r.spec.UserSpec?
  {
    Given(ch.key, w.secrets, ConfigOf(w, id.namespace, r.spec.s3InstanceRef))
  }

  lemma LiveKeys(w: World, id: Id, r: Resource, cfg: Config, ch: Chance)
    requires r.spec.UserSpec? && Lists(ch.order, OwnedKeys(w, id.namespace, r.uid))
    ensures KeyCalls(HandleReconciliationPlan(w, id, r, cfg, ch).actions, id, r.spec, cfg, GivenBy(w, id, r, ch))
  {
    match ClientFor(w, id.namespace, r.spec.s3InstanceRef)
    case Panicked =>
    case Unavailable(e) =>
    case Client(instance) =>
      if r.spec.accessKey !in w.users {
        CreateKeys(w, id, r, cfg, instance.config, GivenBy(w, id, r, ch));
      } else {
        UpdateKeys(w, id, r, cfg, instance.config, ch);
      }
  }

  /**
   * Wherever a reconcile is interrupted: a user it made has the generated key, or in read mode one read from the
   * Secret in place; a Secret it wrote goes under the name of the spec and holds the generated key.
   */
  lemma KeysOfCalls(w: World, id: Id, cfg: Config, ch: Chance, done: seq<Action>)
    requires HasUser(w, id) && ValidChance(w, id, ch)
    requires Follows(done, ReconcilePlan(w, id, cfg, ch).actions, id, FailureReasons(w.resources[id]))
    ensures IsPassword(ch.key)
    ensures forall a :: a in done ==> KeyCall(a, id, w.resources[id].spec, cfg, GivenBy(w, id, w.resources[id], ch))
  {
    var r := w.resources[id];
    var plan := ReconcilePlan(w, id, cfg, ch).actions;
    PlanKeys(w, id, cfg, ch);
    InterruptedKeys(done, plan, id, r, cfg, GivenBy(w, id, r, ch));
  }

  lemma InterruptedKeys(done: seq<Action>, plan: seq<Action>, id: Id, r: Resource, cfg: Config, g: Given)
    requires r.spec.UserSpec? && Follows(done, plan, id, FailureReasons(r)) && KeyCalls(plan, id, r.spec, cfg, g)
    ensures forall a :: a in done ==> KeyCall(a, id, r.spec, cfg, g)
  {
    var n := if done <= plan then |done| else |done| - 1;
    forall i | 0 <= i < |done| ensures KeyCall(done[i], id, r.spec, cfg, g) {
      if i < n { assert done[i] == plan[i]; }
    }
  }

  lemma PlanKeys(w: World, id: Id, cfg: Config, ch: Chance)
    requires HasUser(w, id) && ValidChance(w, id, ch)
    ensures KeyCalls(
      ReconcilePlan(w, id, cfg, ch).actions, id, w.resources[id].spec, cfg, GivenBy(w, id, w.resources[id], ch))
  {
    var r := w.resources[id];
    var s, v := Started(r), WithResource(w, id, Started(r));
    OpeningKeepsSecrets(w, id);
    if !r.deleting {
      LiveKeys(v, id, s, cfg, ch);
      assert GivenBy(v, id, s, ch) == GivenBy(w, id, r, ch);
      OpeningKeys(id, r, HandleReconciliationPlan(v, id, s, cfg, ch).actions, cfg, GivenBy(w, id, r, ch));
    } else {
      DeletionKeys(v, id, s, cfg, ch, GivenBy(w, id, r, ch));
      OpeningKeys(id, r, HandleDeletionPlan(v, id, s, cfg, ch).actions, cfg, GivenBy(w, id, r, ch));
    }
  }

  /** A deletion makes no user and writes no Secret. */
  lemma DeletionKeys(v: World, id: Id, s: Resource, cfg: Config, ch: Chance, g: Given)
    requires s.spec.UserSpec?
    ensures KeyCalls(HandleDeletionPlan(v, id, s, cfg, ch).actions, id, s.spec, cfg, g)
  {
  }

  lemma OpeningKeys(id: Id, r: Resource, body: seq<Action>, cfg: Config, g: Given)
    requires r.spec.UserSpec? && KeyCalls(body, id, r.spec, cfg, g)
    ensures KeyCalls(StartCalls(id, r) + body, id, r.spec, cfg, g)
    ensures KeyCalls(StartCalls(id, r), id, r.spec, cfg, g)
  {
  }
}
