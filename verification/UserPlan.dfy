/**
 * What a reconcile of an S3User does when no call fails: the calls in order, and the outcome.
 * The controller in UserController is proved to follow these plans under any failures.
 */
module UserPlan {
  import opened Collections
  import opened Model
  import opened Effects
  import opened ControllerHelper
  import opened S3InstanceHelper
  import opened PasswordGenerator

  /** What the plan does not determine: the generated secret key and the order in which owned Secrets are listed. */
  datatype Chance = Chance(key: string, order: seq<Key>)

  predicate HasUser(w: World, id: Id) {
    id in w.resources && w.resources[id].spec.UserSpec?
  }

  // ---------- Secrets and their owners ----------

  predicate OwnedBy(s: Secret, uid: string) {
    exists ref :: ref in s.owners && ref.uid == uid
  }

  /** The Secrets of the namespace that carry the UID. */
  function OwnedKeys(w: World, namespace: string, uid: string): set<Key> {
    set k | k in w.secrets && k.namespace == namespace && OwnedBy(w.secrets[k], uid)
  }

  predicate Unowned(w: World, k: Key, uid: string) {
    k in w.secrets && !OwnedBy(w.secrets[k], uid)
  }

  /** The Secret with the configured name if it is there unowned, else the one with the default name, else none. */
  function UnlinkedSecret(w: World, id: Id, r: Resource): Option<Key>
    requires r.spec.UserSpec?
  {
    if Unowned(w, Key(id.namespace, r.spec.secretName), r.uid) then Some(Key(id.namespace, r.spec.secretName))
    else if Unowned(w, Key(id.namespace, id.name), r.uid) then Some(Key(id.namespace, id.name))
    else None
  }

  ghost predicate ValidChance(w: World, id: Id, ch: Chance) {
    && id in w.resources
    && Lists(ch.order, OwnedKeys(w, id.namespace, w.resources[id].uid))
    && IsPassword(ch.key)
  }

  /** Where the user's own Secret goes: the configured name, or the resource's name. */
  function Target(id: Id, r: Resource): Key
    requires r.spec.UserSpec?
  {
    Key(id.namespace, if r.spec.secretName != "" then r.spec.secretName else id.name)
  }

  /** An S3User owner other than `uid` is recorded on the Secret. */
  predicate OwnedElsewhere(s: Secret, uid: string) {
    exists ref :: ref in s.owners && ref.kind == S3UserOwner && ref.uid != uid
  }

  function SecretData(u: Spec, key: string, config: S3Config): map<string, string>
    requires u.UserSpec?
  {
    map[][u.accessKeyField := u.accessKey]
      [u.secretKeyField := key]
      ["s3PathStyleUrl" := config.pathStyle]
      ["s3region" := config.region]
      ["s3CACertificate" := config.caCertificates]
      ["s3url" := config.url]
      ["s3ConnectionURL" := config.scheme + "://" + u.accessKey + ":" + key + "@" + config.endpoint]
  }

  const FIXED_FIELDS: set<string> := {"s3PathStyleUrl", "s3region", "s3CACertificate", "s3url", "s3ConnectionURL"}

  /** The two configurable field names are usable: different from each other and from the fixed ones. */
  predicate FieldsDistinct(u: Spec)
    requires u.UserSpec?
  {
    u.accessKeyField != u.secretKeyField && u.accessKeyField !in FIXED_FIELDS && u.secretKeyField !in FIXED_FIELDS
  }

  function NewSecretForCR(id: Id, r: Resource, key: string, config: S3Config): Secret
    requires r.spec.UserSpec?
  {
    Secret([OwnerRef(S3UserOwner, id.name, r.uid, true)], SecretData(r.spec, key, config))
  }

  /** A missing field reads as the empty string. */
  function Field(data: map<string, string>, name: string): string {
    if name in data then data[name] else ""
  }

  /** The backend accepts the key pair found in the two fields. */
  predicate CredentialsValid(w: World, u: Spec, data: map<string, string>)
    requires u.UserSpec?
  {
    var accessKey := Field(data, u.accessKeyField);
    accessKey in w.users && w.users[accessKey].key == Field(data, u.secretKeyField)
  }

  // ---------- plans ----------

  function GrantCalls(u: Spec): seq<Action>
    requires u.UserSpec?
  {
    if u.policies != [] then [AttachPolicies(u.accessKey, SetOf(u.policies))] else []
  }

  /** Create the user, then its Secret, then grant the policies. */
  function FreshCalls(id: Id, r: Resource, key: string, secret: Secret): seq<Action>
    requires r.spec.UserSpec?
  {
    [CreateUser(r.spec.accessKey, key), CreateSecret(Target(id, r), secret)]
    + GrantCalls(r.spec)
  }

  /** The key given to the user when a Secret is already in place: the one it holds, in read mode. */
  function KeyInPlace(r: Resource, cfg: Config, key: string, data: map<string, string>): string
    requires r.spec.UserSpec?
  {
    if cfg.readExistingSecret && r.spec.secretKeyField in data then data[r.spec.secretKeyField] else key
  }

  /** Create the user over an existing Secret, which is overwritten in override mode. */
  function TakeOverCalls(id: Id, r: Resource, cfg: Config, key: string, secret: Secret, data: map<string, string>)
    : seq<Action>
    requires r.spec.UserSpec?
  {
    [CreateUser(r.spec.accessKey, KeyInPlace(r, cfg, key, data))]
    + (if cfg.overrideExistingSecret then [UpdateSecret(Target(id, r), secret)] else [])
    + GrantCalls(r.spec)
  }

  function HandleCreatePlan(w: World, id: Id, r: Resource, cfg: Config, config: S3Config, key: string): Plan
    requires r.spec.UserSpec?
  {
    var at := Target(id, r);
    var secret := NewSecretForCR(id, r, key, config);
    var done := Report(id, r, Reconciled, Success, None, cfg.reconcilePeriod);
    if at !in w.secrets then
      After(FreshCalls(id, r, key, secret), done)
    else if OwnedElsewhere(w.secrets[at], r.uid) then
      Report(id, r, CreationFailure, OwnedElsewhereSite, Some(OwnedByOtherUser), cfg.reconcilePeriod)
    else if cfg.overrideExistingSecret || cfg.readExistingSecret then
      After(TakeOverCalls(id, r, cfg, key, secret, w.secrets[at].data), done)
    else
      Report(id, r, CreationFailure, KeptSecretSite, Some(SecretExists), cfg.reconcilePeriod)
  }

  /** Make the calls `first`, delete the user and create it anew. */
  function RecreatePlan(
    w: World, id: Id, r: Resource, cfg: Config, config: S3Config, key: string, first: seq<Action>): Plan
    requires r.spec.UserSpec?
  {
    var calls := first + [DeleteUser(r.spec.accessKey)];
    After(calls, HandleCreatePlan(Exec(w, calls), id, r, cfg, config, key))
  }

  /** Detach what the spec does not name, then attach what is missing. */
  function PolicyCalls(user: string, have: set<PolicyName>, want: set<PolicyName>): seq<Action> {
    (if have - want != {} then [DetachPolicies(user, have - want)] else []) +
    (if want - have != {} then [AttachPolicies(user, want - have)] else [])
  }

  /** Bring the policies in line, then check the credentials held by `current`. */
  function CheckPlan(
    w: World, id: Id, r: Resource, cfg: Config, config: S3Config, key: string, current: Key, owned: bool): Plan
    requires r.spec.UserSpec? && r.spec.accessKey in w.users && current in w.secrets
  {
    var u := r.spec;
    var fix := PolicyCalls(u.accessKey, w.users[u.accessKey].policies, SetOf(u.policies));
    if CredentialsValid(w, u, w.secrets[current].data) then
      After(fix, Report(id, r, Reconciled, Success, None, cfg.reconcilePeriod))
    else
      RecreatePlan(w, id, r, cfg, config, key, fix + if owned then [DeleteSecret(current)] else [])
  }

  function Deletions(keys: seq<Key>): seq<Action> {
    seq(|keys|, i requires 0 <= i < |keys| => DeleteSecret(keys[i]))
  }

  function HandleUpdatePlan(w: World, id: Id, r: Resource, cfg: Config, config: S3Config, ch: Chance): Plan
    requires r.spec.UserSpec? && r.spec.accessKey in w.users
    requires Lists(ch.order, OwnedKeys(w, id.namespace, r.uid))
  {
    var owned := OwnedKeys(w, id.namespace, r.uid);
    var unlinked := UnlinkedSecret(w, id, r);
    if owned == {} && unlinked.None? then
      RecreatePlan(w, id, r, cfg, config, ch.key, [])
    else if unlinked.Some? then
      CheckPlan(w, id, r, cfg, config, ch.key, unlinked.value, false)
    else
      var stale := Deletions(Without(ch.order, Target(id, r)));
      if Target(id, r) in owned then
        DeletionsKeep(w, Without(ch.order, Target(id, r)));
        After(stale, CheckPlan(Exec(w, stale), id, r, cfg, config, ch.key, Target(id, r), true))
      else
        RecreatePlan(w, id, r, cfg, config, ch.key, stale)
  }

  /** Deleting Secrets removes those Secrets and changes nothing else. */
  lemma {:induction false} DeletionsKeep(w: World, keys: seq<Key>)
    ensures Exec(w, Deletions(keys)) == w.(secrets := w.secrets - SetOf(keys))
    decreases |keys|
  {
    if keys == [] {
      assert w.secrets - SetOf(keys) == w.secrets;
    } else {
      var v := Apply(w, DeleteSecret(keys[0]));
      DeletionsKeep(v, keys[1..]);
      assert Deletions(keys)[1..] == Deletions(keys[1..]);
      assert keys == [keys[0]] + keys[1..];
      assert v.secrets - SetOf(keys[1..]) == w.secrets - SetOf(keys);
    }
  }

  function HandleReconciliationPlan(w: World, id: Id, r: Resource, cfg: Config, ch: Chance): Plan
    requires r.spec.UserSpec? && Lists(ch.order, OwnedKeys(w, id.namespace, r.uid))
  {
    match ClientFor(w, id.namespace, r.spec.s3InstanceRef)
    case Panicked => Plan([], Errored)
    case Unavailable(e) => Report(id, r, Unreachable, ClientSite, Some(e), cfg.reconcilePeriod)
    case Client(instance) =>
      if r.spec.accessKey !in w.users then HandleCreatePlan(w, id, r, cfg, instance.config, ch.key)
      else HandleUpdatePlan(w, id, r, cfg, instance.config, ch)
  }

  function HandleDeletionPlan(w: World, id: Id, r: Resource, cfg: Config, ch: Chance): Plan
    requires r.spec.UserSpec?
  {
    if Operator !in r.finalizers then Plan([], Finished(0))
    else
      match ClientFor(w, id.namespace, r.spec.s3InstanceRef)
      case Panicked => Plan([], Errored)
      case Unavailable(e) => Report(id, r, DeletionFailure, FinalizeSite, Some(e), cfg.reconcilePeriod)
      case Client(instance) =>
        Plan(
          (if instance.userDeletionEnabled then [DeleteUser(r.spec.accessKey)] else [])
          + Deletions(ch.order) + [RemoveFinalizer(id)],
          Finished(0))
  }

  function ReconcilePlan(w: World, id: Id, cfg: Config, ch: Chance): Plan
    requires HasUser(w, id) ==> ValidChance(w, id, ch)
  {
    if !HasUser(w, id) then Plan([], Finished(0))
    else
      var r := w.resources[id];
      var v := WithResource(w, id, Started(r));
      assert OwnedKeys(v, id.namespace, r.uid) == OwnedKeys(w, id.namespace, r.uid);
      Opening(
        id, r,
        if r.deleting then HandleDeletionPlan(v, id, Started(r), cfg, ch)
        else HandleReconciliationPlan(v, id, Started(r), cfg, ch))
  }

  /** The reasons an interrupted reconcile may report. */
  function FailureReasons(r: Resource): set<Reason> {
    if r.deleting then {DeletionFailure} else {Unreachable}
  }
}
