/**
 * When the work queue of an S3User empties into a world whose next reconcile makes no call:
 * the exact condition on the unlinked Secrets and on the two flags.
 */
module UserQuiescence {
  import opened Collections
  import opened Model
  import opened Effects
  import opened ControllerHelper
  import opened S3InstanceHelper
  import opened UserPlan
  import opened UserSafety
  import opened UserProtocol
  import opened UserHealing
  import opened UserPass
  import opened UserQueue
  import opened Protocol
  import opened PasswordGenerator

  /** The next reconcile makes no call, in whatever order it lists Secrets. */
  ghost predicate Quiet(w: World, id: Id, cfg: Config) {
    forall ch :: (HasUser(w, id) ==> ValidChance(w, id, ch)) ==> ReconcilePlan(w, id, cfg, ch) == Plan([], Finished(0))
  }

  /** However it goes, a queue of fault-free reconciles is empty after at most `n`, and the world is then quiet. */
  ghost predicate EmptiesWithin(w: World, id: Id, cfg: Config, n: nat)
    decreases n
  {
    && n > 0
    && forall ch :: (HasUser(w, id) ==> ValidChance(w, id, ch)) ==>
         var v := Exec(w, ReconcilePlan(w, id, cfg, ch).actions);
         if AsksAgain(w, id, cfg, ch) then EmptiesWithin(v, id, cfg, n - 1) else Quiet(v, id, cfg)
  }

  // ---------- the condition ----------

  /** The unowned Secret that is in the way even when the target is the user's own. */
  function Bystander(w: World, id: Id): (k: Option<Key>)
    requires HasUser(w, id)
    ensures k.Some? ==> k.value in w.secrets && k.value != At(w, id)
  {
    var r := w.resources[id];
    var configured, default := Key(id.namespace, r.spec.secretName), Key(id.namespace, id.name);
    if configured != At(w, id) && Unowned(w, configured, r.uid) then Some(configured)
    else if default != At(w, id) && Unowned(w, default, r.uid) then Some(default)
    else None
  }

  predicate HoldsPair(w: World, id: Id, k: Key, accessKey: string, key: string)
    requires HasUser(w, id) && k in w.secrets
  {
    var u, data := w.resources[id].spec, w.secrets[k].data;
    Field(data, u.accessKeyField) == accessKey && Field(data, u.secretKeyField) == key
  }

  /** The Secret holds the valid credentials of another user. */
  predicate NamesOther(w: World, id: Id, k: Key)
    requires HasUser(w, id) && k in w.secrets
  {
    var other := Field(w.secrets[k].data, w.resources[id].spec.accessKeyField);
    other != AccessKey(w, id) && other in w.users && HoldsPair(w, id, k, other, w.users[other].key)
  }

  /** Whatever key is generated, the Secret's pair is valid once the user was made over the Secret in place. */
  predicate StaysValid(w: World, id: Id, cfg: Config, k: Key)
    requires HasUser(w, id) && k in w.secrets && At(w, id) in w.secrets
  {
    var data, field := w.secrets[At(w, id)].data, w.resources[id].spec.secretKeyField;
    || NamesOther(w, id, k)
    || (cfg.readExistingSecret && field in data && HoldsPair(w, id, k, AccessKey(w, id), data[field]))
  }

  /** The Secret a pass that reads the one in place is followed by a comparison with. */
  function ComparedNext(w: World, id: Id): Key
    requires HasUser(w, id)
  {
    if Unlinked(w, id).Some? then Unlinked(w, id).value else At(w, id)
  }

  /** No Secret is unlinked, and none is owned without the S3 user. */
  predicate Unobstructed(w: World, id: Id)
    requires HasUser(w, id)
  {
    Unlinked(w, id).None? && (AccessKey(w, id) in w.users || Owned(w, id) == {})
  }

  /**
   * Nothing is in the way, or the Secret compared with is valid, or making the user anew settles the matter:
   * over a free target, if the unlinked Secret is valid for another user; in override mode, if no bystander is left
   * or the one left is valid; in read mode alone, if the Secret compared with next is valid with the key found,
   * and no owned one besides is left to delete.
   */
  predicate Settles(w: World, id: Id, cfg: Config)
    requires HasUser(w, id)
  {
    || Unobstructed(w, id)
    || Keeps(w, id)
    || (if At(w, id) !in w.secrets then Unlinked(w, id).Some? && NamesOther(w, id, Unlinked(w, id).value)
        else
          && MayTakeOver(w, id, cfg)
          && if cfg.overrideExistingSecret then
               Bystander(w, id).None? || StaysValid(w, id, cfg, Bystander(w, id).value)
             else
               && StaysValid(w, id, cfg, ComparedNext(w, id))
               && (Unlinked(w, id).None? ==> Owned(w, id) == {At(w, id)}))
  }

  // ---------- worlds after a pass ----------

  /** A pass keeps the user passable; a successful one leaves its resource at rest. */
  lemma ReportedIsPassable(
    w: World, id: Id, users: map<string, BackendUser>, secrets: map<Key, Secret>,
    reason: Reason, site: Site, error: Option<Error>)
    requires Passable(w, id)
    ensures
      var x := Reported(w, id, users, secrets, reason, site, error);
      && Passable(x, id) && At(x, id) == At(w, id)
      && x.resources[id].spec == w.resources[id].spec && x.resources[id].uid == w.resources[id].uid
      && ClientConfig(x, id) == ClientConfig(w, id)
      && (reason == Reconciled && site == Success && error == None ==> AtRest(x.resources[id]))
  {
    var x := Reported(w, id, users, secrets, reason, site, error);
    var s := Started(w.resources[id]);
    var iid := InstanceOf(w.resources[id].spec.s3InstanceRef, id.namespace);
    assert iid != id;
    ClientReadsInstanceOnly(w, x, id.namespace, w.resources[id].spec.s3InstanceRef);
    UpsertIsReadBack(s.conditions, NewCondition(s, reason, site, error), ReconciledType);
  }

  /** Valid credentials are another user's, or the user's own. */
  lemma ValidExactly(w: World, id: Id, k: Key)
    requires HasUser(w, id) && k in w.secrets
    ensures CredentialsValid(w, w.resources[id].spec, w.secrets[k].data) <==>
      || NamesOther(w, id, k)
      || (AccessKey(w, id) in w.users && HoldsPair(w, id, k, AccessKey(w, id), w.users[AccessKey(w, id)].key))
  {
  }

  /** Removing owned Secrets leaves the unlinked ones as they are. */
  lemma UnlinkedStays(w: World, x: World, id: Id)
    requires HasUser(w, id) && HasUser(x, id)
    requires x.resources[id].spec == w.resources[id].spec && x.resources[id].uid == w.resources[id].uid
    requires forall k :: k in x.secrets ==> k in w.secrets && x.secrets[k] == w.secrets[k]
    requires forall k :: k in w.secrets && k !in x.secrets ==> OwnedBy(w.secrets[k], w.resources[id].uid)
    ensures Unlinked(x, id) == Unlinked(w, id) && Bystander(x, id) == Bystander(w, id)
  {
    var uid := w.resources[id].uid;
    assert forall k :: Unowned(x, k, uid) <==> Unowned(w, k, uid);
  }

  /** Once the target is the user's own, only a bystander is unlinked. */
  lemma BystanderStays(w: World, x: World, id: Id, left: map<Key, Secret>, secret: Secret)
    requires HasUser(w, id) && HasUser(x, id)
    requires x.resources[id].spec == w.resources[id].spec && x.resources[id].uid == w.resources[id].uid
    requires left == LeftSecrets(w, id) && x.secrets == left[At(w, id) := secret]
    requires OwnedBy(secret, w.resources[id].uid)
    ensures Unlinked(x, id) == Bystander(w, id) && Bystander(x, id) == Bystander(w, id)
    ensures At(x, id) == At(w, id) && At(w, id) in Owned(x, id)
  {
    var uid := w.resources[id].uid;
    assert forall k :: Unowned(x, k, uid) <==> k != At(w, id) && Unowned(w, k, uid);
  }

  /** A free target is not among the unlinked Secrets. */
  lemma BystanderIsUnlinked(w: World, id: Id)
    requires HasUser(w, id)
    ensures At(w, id) !in w.secrets ==> Bystander(w, id) == Unlinked(w, id)
    ensures Unlinked(w, id).None? ==> Bystander(w, id).None?
  {
  }

  // ---------- quiet worlds ----------

  /** Nothing is left to do for a user that is kept. */
  ghost predicate Calm(w: World, id: Id) {
    && Passable(w, id) && AtRest(w.resources[id]) && Keeps(w, id)
    && w.users[AccessKey(w, id)].policies == SetOf(w.resources[id].spec.policies)
    && (Unlinked(w, id).None? ==> Owned(w, id) == {At(w, id)})
  }

  lemma CalmPlan(w: World, id: Id, cfg: Config, ch: Chance)
    requires Calm(w, id) && ValidChance(w, id, ch)
    ensures ReconcilePlan(w, id, cfg, ch) == Plan([], Finished(cfg.reconcilePeriod))
  {
    var r := w.resources[id];
    assert r.finalizers + {Operator} == r.finalizers;
    assert Started(r) == r;
    WithResourceSame(w, id);
    var at := At(w, id);
    if Unlinked(w, id).None? {
      WithoutNothingLeft(ch.order, at);
      assert Deletions(Without(ch.order, at)) == [];
    }
    assert PolicyCalls(r.spec.accessKey, w.users[r.spec.accessKey].policies, SetOf(r.spec.policies)) == [];
    assert HandleUpdatePlan(w, id, r, cfg, ClientConfig(w, id), ch) == Plan([], Finished(cfg.reconcilePeriod));
  }

  lemma CalmIsQuiet(w: World, id: Id, cfg: Config)
    requires Calm(w, id) && cfg.reconcilePeriod == 0
    ensures Quiet(w, id, cfg)
  {
    forall ch | HasUser(w, id) ==> ValidChance(w, id, ch)
      ensures ReconcilePlan(w, id, cfg, ch) == Plan([], Finished(0))
    {
      CalmPlan(w, id, cfg, ch);
    }
  }

  lemma QuietEmpties(w: World, id: Id, cfg: Config, n: nat)
    requires Quiet(w, id, cfg) && n > 0
    ensures EmptiesWithin(w, id, cfg, n)
  {
    forall ch | HasUser(w, id) ==> ValidChance(w, id, ch)
      ensures ReconcilePlan(w, id, cfg, ch).actions == [] && !AsksAgain(w, id, cfg, ch)
    {
      assert !WokenBy(w, [], id);
    }
  }

  // ---------- passes that settle ----------

  lemma KeptIsCalm(w: World, id: Id, cfg: Config, ch: Chance)
    requires Passable(w, id) && ValidChance(w, id, ch) && Keeps(w, id)
    ensures Calm(AfterPass(w, id, cfg, ch), id)
  {
    PassKeeps(w, id, cfg, ch);
    ReportedIsPassable(w, id, KeptUsers(w, id), KeptSecrets(w, id), Reconciled, Success, None);
    var x := AfterPass(w, id, cfg, ch);
    UnlinkedStays(w, x, id);
    if Unlinked(w, id).None? {
      assert At(w, id) in Owned(w, id);
      assert Owned(x, id) == {At(w, id)};
    }
    assert Compared(x, id) == Compared(w, id);
  }

  /** With no Secret unlinked the target is free once the user is to be made anew. */
  lemma TargetIsFree(w: World, id: Id)
    requires Passable(w, id) && !Keeps(w, id) && Unlinked(w, id).None?
    requires Unobstructed(w, id)
    ensures At(w, id) !in LeftSecrets(w, id)
    ensures forall k :: k in LeftSecrets(w, id) ==> k !in Owned(w, id)
  {
    if At(w, id) in w.secrets && At(w, id) !in Owned(w, id) {
      TargetFree(w, id, w.resources[id]);
    }
  }

  lemma FreshIsCalm(w: World, id: Id, cfg: Config, ch: Chance)
    requires Passable(w, id) && ValidChance(w, id, ch) && !Keeps(w, id) && At(w, id) !in LeftSecrets(w, id)
    requires if Unlinked(w, id).None? then forall k :: k in LeftSecrets(w, id) ==> k !in Owned(w, id)
             else NamesOther(w, id, Unlinked(w, id).value)
    ensures Calm(AfterPass(w, id, cfg, ch), id)
  {
    var left, secret := LeftSecrets(w, id), NewSecret(w, id, ch.key);
    PassMakesFresh(w, id, cfg, ch);
    ReportedIsPassable(w, id, MadeUsers(w, id, ch.key), left[At(w, id) := secret], Reconciled, Success, None);
    var x := AfterPass(w, id, cfg, ch);
    NewSecretIsOwn(id, w.resources[id], ch.key, ClientConfig(w, id));
    BystanderStays(w, x, id, left, secret);
    BystanderIsUnlinked(w, id);
    SecretDataHolds(w.resources[id].spec, ch.key, ClientConfig(w, id));
    if Unlinked(w, id).None? {
      assert Owned(x, id) == {At(w, id)};
      ValidExactly(x, id, At(w, id));
    } else {
      ValidExactly(x, id, Unlinked(w, id).value);
    }
  }

  /** In read mode alone the Secrets stay as they are, and the unlinked one is valid from now on. */
  lemma ReadIsCalm(w: World, id: Id, cfg: Config, ch: Chance)
    requires Passable(w, id) && ValidChance(w, id, ch) && !Keeps(w, id) && LeftSecrets(w, id) == w.secrets
    requires At(w, id) in w.secrets && MayTakeOver(w, id, cfg) && !cfg.overrideExistingSecret
    requires StaysValid(w, id, cfg, ComparedNext(w, id)) && (Unlinked(w, id).None? ==> Owned(w, id) == {At(w, id)})
    ensures Calm(AfterPass(w, id, cfg, ch), id)
  {
    var users := MadeUsers(w, id, TakenKey(w, id, cfg, ch.key));
    PassTakesOver(w, id, cfg, ch);
    ReportedIsPassable(w, id, users, w.secrets, Reconciled, Success, None);
    var x := AfterPass(w, id, cfg, ch);
    UnlinkedStays(w, x, id);
    assert Owned(x, id) == Owned(w, id);
    assert Unlinked(w, id).None? ==> At(w, id) in Owned(w, id);
    ValidExactly(x, id, ComparedNext(w, id));
  }

  /** In override mode the target becomes the user's own; what is compared with from now on is the bystander. */
  lemma OverrideLeaves(w: World, id: Id, cfg: Config, ch: Chance)
    requires Passable(w, id) && ValidChance(w, id, ch) && !Keeps(w, id) && LeftSecrets(w, id) == w.secrets
    requires At(w, id) in w.secrets && MayTakeOver(w, id, cfg) && cfg.overrideExistingSecret
    ensures
      var x := AfterPass(w, id, cfg, ch);
      && Passable(x, id) && AtRest(x.resources[id]) && At(x, id) == At(w, id)
      && x.resources[id].spec == w.resources[id].spec && x.resources[id].uid == w.resources[id].uid
      && Unlinked(x, id) == Bystander(w, id) && Bystander(x, id) == Bystander(w, id)
      && x.users == MadeUsers(w, id, TakenKey(w, id, cfg, ch.key))
      && x.secrets == w.secrets[At(w, id) := NewSecret(w, id, ch.key)]
      && OwnedBy(NewSecret(w, id, ch.key), w.resources[id].uid)
  {
    var users := MadeUsers(w, id, TakenKey(w, id, cfg, ch.key));
    var secret := NewSecret(w, id, ch.key);
    PassTakesOver(w, id, cfg, ch);
    ReportedIsPassable(w, id, users, w.secrets[At(w, id) := secret], Reconciled, Success, None);
    NewSecretIsOwn(id, w.resources[id], ch.key, ClientConfig(w, id));
    BystanderStays(w, AfterPass(w, id, cfg, ch), id, w.secrets, secret);
  }

  lemma OverrideIsCalm(w: World, id: Id, cfg: Config, ch: Chance)
    requires Passable(w, id) && ValidChance(w, id, ch) && !Keeps(w, id) && LeftSecrets(w, id) == w.secrets
    requires At(w, id) in w.secrets && MayTakeOver(w, id, cfg) && cfg.overrideExistingSecret
    requires Bystander(w, id).Some? && StaysValid(w, id, cfg, Bystander(w, id).value)
    ensures Calm(AfterPass(w, id, cfg, ch), id)
  {
    OverrideLeaves(w, id, cfg, ch);
    ValidExactly(AfterPass(w, id, cfg, ch), id, Bystander(w, id).value);
  }

  /** With no Secret unlinked one pass is enough. */
  lemma UnlinkedNoneIsCalm(w: World, id: Id, cfg: Config, ch: Chance)
    requires Passable(w, id) && ValidChance(w, id, ch) && Unlinked(w, id).None?
    requires Unobstructed(w, id)
    ensures Calm(AfterPass(w, id, cfg, ch), id)
  {
    if Keeps(w, id) {
      KeptIsCalm(w, id, cfg, ch);
    } else {
      TargetIsFree(w, id);
      FreshIsCalm(w, id, cfg, ch);
    }
  }

  // ---------- the overwritten Secret wakes the queue ----------

  lemma {:induction false} WokenAt(w: World, done: seq<Action>, i: nat, id: Id)
    requires i < |done| && Wakes(Exec(w, done[..i]), done[i], id)
    ensures WokenBy(w, done, id)
    decreases i
  {
    if i > 0 {
      assert done[..i] == [done[0]] + done[1..i];
      assert done[1..][..i - 1] == done[1..i];
      ExecCons(w, done[0], done[1..i]);
      WokenAt(Apply(w, done[0]), done[1..], i - 1, id);
    }
  }

  lemma OverwriteWakes(w: World, id: Id, key: string)
    requires Passable(w, id) && id.kind == S3UserKind
    ensures forall y: World :: At(w, id) in y.secrets ==>
      Wakes(y, UpdateSecret(At(w, id), NewSecret(w, id, key)), id)
  {
    var secret := NewSecret(w, id, key);
    var ref := secret.owners[0];
    assert ref in secret.owners && Id(S3UserKind, id.namespace, ref.name) == id;
  }

  /** The calls of a pass that makes the user anew. */
  lemma MadePlan(w: World, id: Id, cfg: Config, ch: Chance) returns (before: seq<Action>)
    requires Passable(w, id) && ValidChance(w, id, ch) && !Keeps(w, id)
    ensures
      var s, x := Started(w.resources[id]), Exec(w, before);
      && x == Opened(w, id).(users := w.users - {AccessKey(w, id)}, secrets := LeftSecrets(w, id))
      && ReconcilePlan(w, id, cfg, ch)
           == After(before, HandleCreatePlan(x, id, s, cfg, ClientConfig(w, id), ch.key))
  {
    var r := w.resources[id];
    OpeningKeepsPass(w, id);
    OpeningKeepsLeft(w, id);
    var calls := MadeBody(Opened(w, id), id, Started(r), cfg, ch);
    before := StartCalls(id, r) + calls;
    OpeningThen(w, id, calls);
    LivePlan(w, id, cfg, ch);
    var x := Exec(Opened(w, id), calls);
    AfterTwice(StartCalls(id, r), calls, HandleCreatePlan(x, id, Started(r), cfg, ClientConfig(w, id), ch.key));
  }

  lemma LivePlan(w: World, id: Id, cfg: Config, ch: Chance)
    requires LiveUser(w, id) && ValidChance(w, id, ch) && Lists(ch.order, Owned(Opened(w, id), id))
    ensures ReconcilePlan(w, id, cfg, ch) == After(
      StartCalls(id, w.resources[id]),
      HandleReconciliationPlan(Opened(w, id), id, Started(w.resources[id]), cfg, ch))
  {
  }

  lemma OpeningKeepsLeft(w: World, id: Id)
    requires Passable(w, id)
    ensures Opened(w, id).users == w.users && LeftSecrets(Opened(w, id), id) == LeftSecrets(w, id)
  {
    OpeningKeepsPass(w, id);
  }

  lemma OpeningThen(w: World, id: Id, calls: seq<Action>)
    requires HasUser(w, id)
    ensures Exec(w, StartCalls(id, w.resources[id]) + calls) == Exec(Opened(w, id), calls)
  {
    StartCallsEffect(w, id);
    ExecAppend(w, StartCalls(id, w.resources[id]), calls);
  }

  lemma SecondAfter(before: seq<Action>, first: Action, second: Action, rest: seq<Action>, plan: seq<Action>)
    requires plan == before + ([first, second] + rest)
    ensures |before| + 1 < |plan| && plan[..|before| + 1] == before + [first] && plan[|before| + 1] == second
  {
  }

  /** A takeover in override mode: the user is made, and the Secret overwritten right after. */
  lemma OverrideShape(
    x: World, id: Id, s: Resource, cfg: Config, config: S3Config, key: string) returns (rest: seq<Action>)
    requires s.spec.UserSpec? && Target(id, s) in x.secrets && cfg.overrideExistingSecret
    requires !OwnedElsewhere(x.secrets[Target(id, s)], s.uid)
    ensures
      var data := x.secrets[Target(id, s)].data;
      HandleCreatePlan(x, id, s, cfg, config, key).actions ==
        [CreateUser(s.spec.accessKey, KeyInPlace(s, cfg, key, data)),
         UpdateSecret(Target(id, s), NewSecretForCR(id, s, key, config))] + rest
  {
    rest := GrantCalls(s.spec) + Report(id, s, Reconciled, Success, None, cfg.reconcilePeriod).actions;
  }

  lemma OverrideWakes(w: World, id: Id, cfg: Config, ch: Chance)
    requires Passable(w, id) && ValidChance(w, id, ch) && !Keeps(w, id) && id.kind == S3UserKind
    requires At(w, id) in LeftSecrets(w, id) && MayTakeOver(w, id, cfg) && cfg.overrideExistingSecret
    ensures AsksAgain(w, id, cfg, ch)
  {
    var before := MadePlan(w, id, cfg, ch);
    var x, s := Exec(w, before), Started(w.resources[id]);
    var rest := OverrideShape(x, id, s, cfg, ClientConfig(w, id), ch.key);
    var create := CreateUser(s.spec.accessKey, KeyInPlace(s, cfg, ch.key, x.secrets[At(w, id)].data));
    var plan := ReconcilePlan(w, id, cfg, ch).actions;
    SecondAfter(before, create, UpdateSecret(At(w, id), NewSecret(w, id, ch.key)), rest, plan);
    ExecSnoc(w, before, create);
    OverwriteWakes(w, id, ch.key);
    WokenAt(w, plan, |before| + 1, id);
  }

  // ---------- settling ----------

  /** One pass either calms the world, or wakes a second one that does. */
  lemma SettlingPass(w: World, id: Id, cfg: Config, ch: Chance)
    requires Passable(w, id) && id.kind == S3UserKind && ValidChance(w, id, ch)
    requires Settles(w, id, cfg)
    ensures
      var x := AfterPass(w, id, cfg, ch);
      || Calm(x, id)
      || (AsksAgain(w, id, cfg, ch) && Passable(x, id) && Unlinked(x, id).None? && AccessKey(x, id) in x.users)
  {
    if Unobstructed(w, id) {
      UnlinkedNoneIsCalm(w, id, cfg, ch);
    } else if Keeps(w, id) {
      KeptIsCalm(w, id, cfg, ch);
    } else if At(w, id) !in w.secrets {
      FreshIsCalm(w, id, cfg, ch);
    } else if !cfg.overrideExistingSecret {
      ReadIsCalm(w, id, cfg, ch);
    } else if Bystander(w, id).Some? {
      OverrideIsCalm(w, id, cfg, ch);
    } else {
      OverrideLeaves(w, id, cfg, ch);
      OverrideWakes(w, id, cfg, ch);
    }
  }

  lemma SecondPass(x: World, id: Id, cfg: Config)
    requires Passable(x, id) && Unlinked(x, id).None? && AccessKey(x, id) in x.users && cfg.reconcilePeriod == 0
    ensures EmptiesWithin(x, id, cfg, 2)
  {
    forall ch | HasUser(x, id) ==> ValidChance(x, id, ch)
      ensures Quiet(Exec(x, ReconcilePlan(x, id, cfg, ch).actions), id, cfg)
    {
      UnlinkedNoneIsCalm(x, id, cfg, ch);
      CalmIsQuiet(AfterPass(x, id, cfg, ch), id, cfg);
    }
    forall ch | HasUser(x, id) ==> ValidChance(x, id, ch)
      ensures EmptiesWithin(Exec(x, ReconcilePlan(x, id, cfg, ch).actions), id, cfg, 1)
    {
      QuietEmpties(Exec(x, ReconcilePlan(x, id, cfg, ch).actions), id, cfg, 1);
    }
  }

  lemma SettledEmpties(w: World, id: Id, cfg: Config)
    requires Passable(w, id) && id.kind == S3UserKind && cfg.reconcilePeriod == 0
    requires Settles(w, id, cfg)
    ensures EmptiesWithin(w, id, cfg, 3)
  {
    forall ch | HasUser(w, id) ==> ValidChance(w, id, ch)
      ensures
        var v := Exec(w, ReconcilePlan(w, id, cfg, ch).actions);
        if AsksAgain(w, id, cfg, ch) then EmptiesWithin(v, id, cfg, 2) else Quiet(v, id, cfg)
    {
      var v := AfterPass(w, id, cfg, ch);
      SettlingPass(w, id, cfg, ch);
      if Calm(v, id) {
        CalmIsQuiet(v, id, cfg);
        QuietEmpties(v, id, cfg, 2);
      } else {
        SecondPass(v, id, cfg);
      }
    }
  }

  // ---------- not settling ----------

  /** One letter as often as the generator draws. */
  function Password(c: char): (r: string)
    ensures |r| == 20 && (Alphanumeric(c) ==> IsPassword(r))
  {
    seq(20, _ => c)
  }

  /** Some key the generator may deliver is none of two given ones. */
  lemma AnotherKey(a: string, b: string) returns (key: string)
    ensures key != a && key != b
    ensures IsPassword(key)
  {
    assert Password('a')[0] == 'a' && Password('b')[0] == 'b' && Password('c')[0] == 'c';
    key := if Password('a') != a && Password('a') != b then Password('a')
           else if Password('b') != a && Password('b') != b then Password('b')
           else Password('c');
  }

  function KeyField(w: World, id: Id, k: Option<Key>): string
    requires HasUser(w, id) && (k.Some? ==> k.value in w.secrets)
  {
    if k.Some? then Field(w.secrets[k.value].data, w.resources[id].spec.secretKeyField) else ""
  }

  lemma FreshUnsettled(w: World, id: Id, cfg: Config, ch: Chance)
    requires Passable(w, id) && ValidChance(w, id, ch) && !Settles(w, id, cfg) && At(w, id) !in w.secrets
    requires Unlinked(w, id).Some?
    requires ch.key != KeyField(w, id, Unlinked(w, id))
    ensures Passable(AfterPass(w, id, cfg, ch), id) && !Settles(AfterPass(w, id, cfg, ch), id, cfg)
  {
    var secret := NewSecret(w, id, ch.key);
    PassMakesFresh(w, id, cfg, ch);
    ReportedIsPassable(w, id, MadeUsers(w, id, ch.key), w.secrets[At(w, id) := secret], Reconciled, Success, None);
    NewSecretIsOwn(id, w.resources[id], ch.key, ClientConfig(w, id));
    var x := AfterPass(w, id, cfg, ch);
    BystanderStays(w, x, id, w.secrets, secret);
    BystanderIsUnlinked(w, id);
    SecretDataHolds(w.resources[id].spec, ch.key, ClientConfig(w, id));
    ValidExactly(x, id, Unlinked(w, id).value);
  }

  lemma OverrideUnsettled(w: World, id: Id, cfg: Config, ch: Chance)
    requires Passable(w, id) && ValidChance(w, id, ch) && !Settles(w, id, cfg)
    requires At(w, id) in w.secrets && MayTakeOver(w, id, cfg) && cfg.overrideExistingSecret
    requires ch.key != KeyField(w, id, Bystander(w, id))
    ensures Passable(AfterPass(w, id, cfg, ch), id) && !Settles(AfterPass(w, id, cfg, ch), id, cfg)
  {
    OverrideLeaves(w, id, cfg, ch);
    var x := AfterPass(w, id, cfg, ch);
    SecretDataHolds(w.resources[id].spec, ch.key, ClientConfig(w, id));
    ValidExactly(x, id, Bystander(w, id).value);
  }

  lemma ReadUnsettled(w: World, id: Id, cfg: Config, ch: Chance)
    requires Passable(w, id) && ValidChance(w, id, ch) && !Settles(w, id, cfg)
    requires At(w, id) in w.secrets && MayTakeOver(w, id, cfg) && !cfg.overrideExistingSecret
    requires Unlinked(w, id).Some? && ch.key != KeyField(w, id, Unlinked(w, id))
    ensures Passable(AfterPass(w, id, cfg, ch), id) && !Settles(AfterPass(w, id, cfg, ch), id, cfg)
  {
    PassTakesOver(w, id, cfg, ch);
    ReportedIsPassable(w, id, MadeUsers(w, id, TakenKey(w, id, cfg, ch.key)), w.secrets, Reconciled, Success, None);
    var x := AfterPass(w, id, cfg, ch);
    UnlinkedStays(w, x, id);
    ValidExactly(x, id, Unlinked(w, id).value);
  }

  lemma RefusedUnsettled(w: World, id: Id, cfg: Config, ch: Chance)
    requires Passable(w, id) && ValidChance(w, id, ch) && !Settles(w, id, cfg)
    requires At(w, id) in w.secrets && !MayTakeOver(w, id, cfg)
    ensures Passable(AfterPass(w, id, cfg, ch), id) && !Settles(AfterPass(w, id, cfg, ch), id, cfg)
  {
    PassRefuses(w, id, cfg, ch);
    var elsewhere := OwnedElsewhere(w.secrets[At(w, id)], w.resources[id].uid);
    ReportedIsPassable(
      w, id, w.users - {AccessKey(w, id)}, w.secrets, CreationFailure,
      if elsewhere then OwnedElsewhereSite else KeptSecretSite,
      Some(if elsewhere then OwnedByOtherUser else SecretExists));
    UnlinkedStays(w, AfterPass(w, id, cfg, ch), id);
    assert Owned(AfterPass(w, id, cfg, ch), id) == Owned(w, id);
  }

  /** A pass stops at the Secret in place. */
  predicate Refused(w: World, id: Id, cfg: Config)
    requires HasUser(w, id)
  {
    At(w, id) in w.secrets && !MayTakeOver(w, id, cfg)
  }

  /** From an unsettled world with a Secret unlinked or refused some pass leads to an unsettled one. */
  lemma UnsettledStays(w: World, id: Id, cfg: Config) returns (ch: Chance)
    requires Passable(w, id) && !Settles(w, id, cfg) && (Unlinked(w, id).Some? || Refused(w, id, cfg))
    ensures ValidChance(w, id, ch)
    ensures Passable(AfterPass(w, id, cfg, ch), id) && !Settles(AfterPass(w, id, cfg, ch), id, cfg)
  {
    var order := ListingExists(Owned(w, id));
    var key := AnotherKey(KeyField(w, id, Unlinked(w, id)), KeyField(w, id, Bystander(w, id)));
    ch := Chance(key, order);
    if At(w, id) !in w.secrets {
      FreshUnsettled(w, id, cfg, ch);
    } else if !MayTakeOver(w, id, cfg) {
      RefusedUnsettled(w, id, cfg, ch);
    } else if cfg.overrideExistingSecret {
      OverrideUnsettled(w, id, cfg, ch);
    } else {
      ReadUnsettled(w, id, cfg, ch);
    }
  }

  /** A pass that does not keep the user makes calls, or ends in an error. */
  lemma MadeIsLoud(w: World, id: Id, cfg: Config)
    requires Passable(w, id) && !Keeps(w, id)
    ensures !Quiet(w, id, cfg)
  {
    var order := ListingExists(Owned(w, id));
    var ch := Chance(Password('a'), order);
    if At(w, id) in LeftSecrets(w, id) && !MayTakeOver(w, id, cfg) {
      PassRefuses(w, id, cfg, ch);
    } else {
      var before := MadePlan(w, id, cfg, ch);
    }
    assert ReconcilePlan(w, id, cfg, ch) != Plan([], Finished(0));
  }

  /** An owned Secret besides the target is deleted by the next pass. */
  lemma StaleIsLoud(w: World, id: Id, cfg: Config, k: Key)
    requires Passable(w, id) && Unlinked(w, id).None? && AccessKey(w, id) in w.users
    requires k in Owned(w, id) && k != At(w, id)
    ensures !Quiet(w, id, cfg)
  {
    if !Keeps(w, id) {
      MadeIsLoud(w, id, cfg);
    } else {
      var order := ListingExists(Owned(w, id));
      var ch := Chance(Password('a'), order);
      PassKeeps(w, id, cfg, ch);
      assert k !in AfterPass(w, id, cfg, ch).secrets;
      assert ReconcilePlan(w, id, cfg, ch) != Plan([], Finished(0));
    }
  }

  /** Calls that do not wake the reconcile of `id`. */
  predicate Unheard(a: Action, id: Id) {
    || (a.SetCondition? && a.id == id) || a == AddFinalizer(id)
    || a.CreateUser? || a.AttachPolicies? || a.CreateSecret?
  }

  lemma {:induction false} UnheardNotWoken(w: World, done: seq<Action>, id: Id)
    requires HasUser(w, id) && forall a :: a in done ==> Unheard(a, id)
    ensures !WokenBy(w, done, id)
    decreases |done|
  {
    if done != [] {
      var a := done[0];
      assert a in done;
      FinalizersKept(w, a, id);
      ResourcesKept(w, a, id);
      if a.CreateSecret? {
        SecretCreationIsFiltered(w, a.at, a.secret, id);
      } else if a.SetCondition? || a.AddFinalizer? {
        OwnWritesAreFiltered(w, a, id);
      }
      UnheardNotWoken(Apply(w, a), done[1..], id);
    }
  }

  /** A pass that makes an absent user without overwriting a Secret is heard by nobody. */
  lemma AbsentNotAsked(w: World, id: Id, cfg: Config, ch: Chance)
    requires Passable(w, id) && ValidChance(w, id, ch) && AccessKey(w, id) !in w.users && cfg.reconcilePeriod == 0
    requires At(w, id) in w.secrets ==> MayTakeOver(w, id, cfg) && !cfg.overrideExistingSecret
    ensures !AsksAgain(w, id, cfg, ch)
  {
    OpeningKeepsPass(w, id);
    LivePlan(w, id, cfg, ch);
    UnheardNotWoken(w, ReconcilePlan(w, id, cfg, ch).actions, id);
  }

  /** Owned Secrets without the S3 user, none unlinked: after the pass that makes the user there is still work. */
  lemma StrandedIsLoud(w: World, id: Id, cfg: Config) returns (ch: Chance)
    requires Passable(w, id) && !Settles(w, id, cfg) && Unlinked(w, id).None? && !Refused(w, id, cfg)
    ensures ValidChance(w, id, ch) && !Quiet(AfterPass(w, id, cfg, ch), id, cfg)
  {
    var order := ListingExists(Owned(w, id));
    if At(w, id) !in w.secrets {
      ch := Chance(Password('a'), order);
      StrandedFresh(w, id, cfg, ch);
    } else {
      var key := AnotherKey(KeyField(w, id, Some(At(w, id))), "");
      ch := Chance(key, order);
      StrandedRead(w, id, cfg, ch);
    }
  }

  lemma StrandedFresh(w: World, id: Id, cfg: Config, ch: Chance)
    requires Passable(w, id) && ValidChance(w, id, ch) && !Settles(w, id, cfg) && Unlinked(w, id).None?
    requires At(w, id) !in w.secrets
    ensures !Quiet(AfterPass(w, id, cfg, ch), id, cfg)
  {
    var secret := NewSecret(w, id, ch.key);
    PassMakesFresh(w, id, cfg, ch);
    ReportedIsPassable(w, id, MadeUsers(w, id, ch.key), w.secrets[At(w, id) := secret], Reconciled, Success, None);
    NewSecretIsOwn(id, w.resources[id], ch.key, ClientConfig(w, id));
    var x := AfterPass(w, id, cfg, ch);
    BystanderStays(w, x, id, w.secrets, secret);
    BystanderIsUnlinked(w, id);
    var k :| k in Owned(w, id);
    assert k in Owned(x, id);
    StaleIsLoud(x, id, cfg, k);
  }

  lemma StrandedRead(w: World, id: Id, cfg: Config, ch: Chance)
    requires Passable(w, id) && ValidChance(w, id, ch) && !Settles(w, id, cfg) && Unlinked(w, id).None?
    requires At(w, id) in w.secrets && MayTakeOver(w, id, cfg) && ch.key != KeyField(w, id, Some(At(w, id)))
    ensures !Quiet(AfterPass(w, id, cfg, ch), id, cfg)
  {
    BystanderIsUnlinked(w, id);
    PassTakesOver(w, id, cfg, ch);
    ReportedIsPassable(w, id, MadeUsers(w, id, TakenKey(w, id, cfg, ch.key)), w.secrets, Reconciled, Success, None);
    var x := AfterPass(w, id, cfg, ch);
    UnlinkedStays(w, x, id);
    assert Owned(x, id) == Owned(w, id);
    if Owned(w, id) == {At(w, id)} {
      ValidExactly(x, id, At(w, id));
      MadeIsLoud(x, id, cfg);
    } else {
      AnotherOwned(w, id);
      var k :| k in Owned(w, id) && k != At(w, id);
      StaleIsLoud(x, id, cfg, k);
    }
  }

  lemma AnotherOwned(w: World, id: Id)
    requires HasUser(w, id) && Owned(w, id) != {} && Owned(w, id) != {At(w, id)}
    ensures exists k :: k in Owned(w, id) && k != At(w, id)
  {
  }

  lemma {:induction false} UnsettledNeverEmpties(w: World, id: Id, cfg: Config, n: nat)
    requires Passable(w, id) && !Settles(w, id, cfg) && cfg.reconcilePeriod == 0
    ensures !EmptiesWithin(w, id, cfg, n)
    decreases n
  {
    if n > 0 {
      if Unlinked(w, id).Some? || Refused(w, id, cfg) {
        var ch := UnsettledStays(w, id, cfg);
        var v := AfterPass(w, id, cfg, ch);
        UnsettledNeverEmpties(v, id, cfg, n - 1);
        MadeIsLoud(v, id, cfg);
      } else {
        var ch := StrandedIsLoud(w, id, cfg);
        AbsentNotAsked(w, id, cfg, ch);
      }
    }
  }

  /**
   * With no faults and no period the queue of an S3User empties, into a world whose next reconcile makes no call,
   * exactly when the condition holds; it then takes three reconciles at most.
   */
  lemma EmptiesExactly(w: World, id: Id, cfg: Config)
    requires Passable(w, id) && id.kind == S3UserKind && cfg.reconcilePeriod == 0
    ensures (exists n: nat :: EmptiesWithin(w, id, cfg, n)) <==> Settles(w, id, cfg)
    ensures Settles(w, id, cfg) ==> EmptiesWithin(w, id, cfg, 3)
  {
    if Settles(w, id, cfg) {
      var n: nat := 3;
      SettledEmpties(w, id, cfg);
      assert EmptiesWithin(w, id, cfg, n);
    } else {
      forall n: nat ensures !EmptiesWithin(w, id, cfg, n) {
        UnsettledNeverEmpties(w, id, cfg, n);
      }
    }
  }

  // ---------- a world that does not settle ----------

  const OBSTRUCTED: Id := Id(S3UserKind, "n", "a")

  /** An S3 user with a key, and under its target name an unowned Secret with another. */
  function ObstructedWorld(): World {
    var ready := Condition(ReconciledType, True, 1, Reconciled, Success, None);
    var instance := Resource(
      "v", 1, false, {Operator}, [ready],
      InstanceSpec(S3Config("", "", "", "", "", ""), [], true, true, true, true));
    var user := Resource("u", 1, false, {Operator}, [ready], UserSpec("i", "k", [], "", "x", "y"));
    World(
      map[OBSTRUCTED := user, Id(S3InstanceKind, "n", "i") := instance],
      map[Key("n", "a") := Secret([], map["x" := "k", "y" := "bad"])],
      map["k" := BackendUser("s", {})], map[], map[])
  }

  lemma ObstructedIs() returns (w: World, id: Id)
    ensures Passable(w, id) && Safe(w, id) && id.kind == S3UserKind
    ensures !Keeps(w, id) && Unlinked(w, id).Some? && At(w, id) in w.secrets
  {
    w, id := ObstructedWorld(), OBSTRUCTED;
    assert InstanceOf("i", "n") == Id(S3InstanceKind, "n", "i");
    assert ClientFor(w, "n", "i").Client?;
    assert Unlinked(w, id) == Some(Key("n", "a"));
    assert Owned(w, id) == {};
  }

  /** With both flags off a safe world with such a Secret in the way never settles. */
  lemma UnsettledExists(cfg: Config) returns (w: World, id: Id)
    requires !cfg.overrideExistingSecret && !cfg.readExistingSecret && cfg.reconcilePeriod == 0
    ensures Passable(w, id) && Safe(w, id) && !Settles(w, id, cfg)
    ensures forall n: nat :: !EmptiesWithin(w, id, cfg, n)
  {
    w, id := ObstructedIs();
    forall n: nat ensures !EmptiesWithin(w, id, cfg, n) {
      UnsettledNeverEmpties(w, id, cfg, n);
    }
  }

  /** The user's own Secret, left by an S3 user that somebody deleted. */
  function StrandedWorld(): World {
    var owned := Secret([OwnerRef(S3UserOwner, "a", "u", true)], map["x" := "k", "y" := "s"]);
    ObstructedWorld().(secrets := map[Key("n", "a") := owned], users := map[])
  }

  lemma StrandedIs() returns (w: World, id: Id)
    ensures Passable(w, id) && Unlinked(w, id).None? && Owned(w, id) == {At(w, id)}
    ensures AccessKey(w, id) !in w.users
  {
    w, id := StrandedWorld(), OBSTRUCTED;
    assert InstanceOf("i", "n") == Id(S3InstanceKind, "n", "i");
    assert ClientFor(w, "n", "i").Client?;
    assert w.secrets[Key("n", "a")].owners[0].uid == "u";
    assert OwnedBy(w.secrets[Key("n", "a")], "u");
    assert Owned(w, id) == {Key("n", "a")};
  }

  /** With both flags off a world whose S3 user was deleted under its Secret never settles either. */
  lemma StrandedExists(cfg: Config) returns (w: World, id: Id)
    requires !cfg.overrideExistingSecret && !cfg.readExistingSecret && cfg.reconcilePeriod == 0
    ensures Passable(w, id) && !Safe(w, id) && !Settles(w, id, cfg)
    ensures forall n: nat :: !EmptiesWithin(w, id, cfg, n)
  {
    w, id := StrandedIs();
    assert At(w, id) in Owned(w, id);
    forall n: nat ensures !EmptiesWithin(w, id, cfg, n) {
      UnsettledNeverEmpties(w, id, cfg, n);
    }
  }

  /** What emptying means for a queue run: it is no longer than the bound, and when nothing asks again, quiet. */
  lemma {:induction false} RunEmpties(ws: seq<World>, chances: seq<Chance>, id: Id, cfg: Config, n: nat)
    requires QueueRun(ws, chances, id, cfg) && chances != [] && EmptiesWithin(ws[0], id, cfg, n)
    ensures |chances| <= n
    ensures AsksAgain(ws[|ws| - 2], id, cfg, chances[|chances| - 1]) || Quiet(ws[|ws| - 1], id, cfg)
    decreases n
  {
    assert Reconciles(ws[0], ws[0 + 1], id, cfg, chances[0]);
    if |chances| > 1 {
      assert AsksAgain(ws[0], id, cfg, chances[0]);
      RunTail(ws, chances, id, cfg);
      RunEmpties(ws[1..], chances[1..], id, cfg, n - 1);
    }
  }

  lemma RunTail(ws: seq<World>, chances: seq<Chance>, id: Id, cfg: Config)
    requires QueueRun(ws, chances, id, cfg) && |chances| > 1
    ensures QueueRun(ws[1..], chances[1..], id, cfg)
  {
    forall i | 0 <= i < |chances| - 1 ensures Reconciles(ws[1..][i], ws[1..][i + 1], id, cfg, chances[1..][i]) {
      assert Reconciles(ws[i + 1], ws[i + 1 + 1], id, cfg, chances[i + 1]);
    }
    forall i | 0 <= i < |chances| - 2 ensures AsksAgain(ws[1..][i], id, cfg, chances[1..][i]) {
      assert AsksAgain(ws[i + 1], id, cfg, chances[i + 1]);
    }
  }

  // ---------- changes and what they lead to ----------

  /** The spec is met: the S3 user has its policies, and a Secret under one of its names holds valid credentials. */
  ghost predicate Meets(w: World, id: Id, u: Spec)
    requires u.UserSpec?
  {
    && HasUser(w, id) && w.resources[id].spec == u
    && u.accessKey in w.users && w.users[u.accessKey].policies == SetOf(u.policies)
    && (exists k: Key ::
          && k in w.secrets && k.namespace == id.namespace && (k.name == u.secretName || k.name == id.name)
          && CredentialsValid(w, u, w.secrets[k].data))
    && (Unlinked(w, id).None? && u.secretName != "" ==> Owned(w, id) == {Key(id.namespace, u.secretName)})
    && (Unlinked(w, id).None? && u.secretName == "" ==> Owned(w, id) == {Key(id.namespace, id.name)})
  }

  lemma CalmMeets(w: World, id: Id)
    requires Calm(w, id)
    ensures Meets(w, id, w.resources[id].spec)
  {
    var k := Compared(w, id).value;
    assert k in w.secrets && CredentialsValid(w, w.resources[id].spec, w.secrets[k].data);
  }

  /** A pass keeps the spec, and from a settling world leads to a settling one. */
  lemma SettlingStays(w: World, id: Id, cfg: Config, ch: Chance)
    requires Passable(w, id) && id.kind == S3UserKind && ValidChance(w, id, ch) && Settles(w, id, cfg)
    ensures
      var x := AfterPass(w, id, cfg, ch);
      && Passable(x, id) && Settles(x, id, cfg) && x.resources[id].spec == w.resources[id].spec
      && (Calm(x, id) || AsksAgain(w, id, cfg, ch))
  {
    SettlingPass(w, id, cfg, ch);
    UserKeepsProtocol(w, id, cfg, ch, ReconcilePlan(w, id, cfg, ch).actions);
    LiveStays(w, ReconcilePlan(w, id, cfg, ch).actions, id, cfg);
  }

  /** Where a queue run from a settling world ends, its spec is met. */
  lemma {:induction false} RunMeets(ws: seq<World>, chances: seq<Chance>, id: Id, cfg: Config)
    requires QueueRun(ws, chances, id, cfg) && chances != []
    requires Passable(ws[0], id) && id.kind == S3UserKind && Settles(ws[0], id, cfg)
    requires !AsksAgain(ws[|ws| - 2], id, cfg, chances[|chances| - 1])
    ensures Meets(ws[|ws| - 1], id, ws[0].resources[id].spec) && Quiet(ws[|ws| - 1], id, cfg)
    decreases |chances|
  {
    assert Reconciles(ws[0], ws[0 + 1], id, cfg, chances[0]);
    SettlingStays(ws[0], id, cfg, chances[0]);
    if |chances| == 1 {
      CalmMeets(ws[1], id);
      CalmIsQuiet(ws[1], id, cfg);
    } else {
      RunTail(ws, chances, id, cfg);
      RunMeets(ws[1..], chances[1..], id, cfg);
    }
  }

  /**
   * Whatever stirs an S3User puts it into the queue, and from a settling world the queue then empties within three
   * reconciles, into a world that meets the new spec and whose next reconcile makes no call.
   */
  lemma StirredDrains(w: World, v: World, id: Id, cfg: Config, e: Event)
    requires Stirs(w, v, id, e)
    requires Passable(v, id) && id.kind == S3UserKind && cfg.reconcilePeriod == 0 && Settles(v, id, cfg)
    ensures Queues(e, id)
    ensures EmptiesWithin(v, id, cfg, 3)
    ensures forall ws, chances ::
      QueueRun(ws, chances, id, cfg) && chances != [] && ws[0] == v
      && !AsksAgain(ws[|ws| - 2], id, cfg, chances[|chances| - 1]) ==>
        |chances| <= 3 && Meets(ws[|ws| - 1], id, v.resources[id].spec) && Quiet(ws[|ws| - 1], id, cfg)
  {
    StirringQueues(w, v, id, e);
    EmptiesExactly(v, id, cfg);
    forall ws, chances | QueueRun(ws, chances, id, cfg) && chances != [] && ws[0] == v
      && !AsksAgain(ws[|ws| - 2], id, cfg, chances[|chances| - 1])
      ensures |chances| <= 3 && Meets(ws[|ws| - 1], id, v.resources[id].spec) && Quiet(ws[|ws| - 1], id, cfg)
    {
      RunEmpties(ws, chances, id, cfg, 3);
      RunMeets(ws, chances, id, cfg);
    }
  }

  // ---------- healing in override mode ----------

  /**
   * In override mode alone a Secret in the way is no obstacle: one pass over it leaves the user healthy,
   * asks for one more, and that one makes no call.
   */
  lemma OverrideHeals(w: World, id: Id, cfg: Config, ch: Chance, next: Chance)
    requires Passable(w, id) && id.kind == S3UserKind && ValidChance(w, id, ch) && !Keeps(w, id)
    requires cfg.overrideExistingSecret && !cfg.readExistingSecret && cfg.reconcilePeriod == 0
    requires Unlinked(w, id) == Some(At(w, id)) && Bystander(w, id).None? && Owned(w, id) == {}
    requires !OwnedElsewhere(w.secrets[At(w, id)], w.resources[id].uid)
    requires ValidChance(AfterPass(w, id, cfg, ch), id, next)
    ensures Healthy(AfterPass(w, id, cfg, ch), id) && AsksAgain(w, id, cfg, ch)
    ensures ReconcilePlan(AfterPass(w, id, cfg, ch), id, cfg, next) == Plan([], Finished(0))
  {
    var x := AfterPass(w, id, cfg, ch);
    OverrideLeaves(w, id, cfg, ch);
    OverrideWakes(w, id, cfg, ch);
    SecretDataHolds(w.resources[id].spec, ch.key, ClientConfig(w, id));
    assert Owned(x, id) == {At(w, id)};
    ValidExactly(x, id, At(w, id));
    CalmPlan(x, id, cfg, next);
  }
}
