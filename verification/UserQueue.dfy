/** The S3User work queue: which changes wake a reconcile, and why it empties. */
module UserQueue {
  import opened Collections
  import opened Model
  import opened Effects
  import opened UserPlan
  import opened UserSafety
  import opened UserHealing

  /** What the two watches see: the S3Users, and the Secrets with the owners recorded on them. */
  datatype Watched = WatchedUser(id: Id, generation: int) | WatchedSecret(namespace: string, owners: seq<OwnerRef>)

  datatype Event =
    | Created(object: Watched)
    | Updated(before: Watched, after: Watched)
    | Deleted(object: Watched, stateUnknown: bool)

  /** Secrets carry no generation. */
  function Generation(o: Watched): int {
    if o.WatchedUser? then o.generation else 0
  }

  /** The filter: generation changes, Secret updates and confirmed deletions pass; Secret creations do not. */
  predicate Passes(e: Event) {
    match e
    case Created(o) => o.WatchedUser?
    case Updated(before, after) => Generation(before) != Generation(after) || after.WatchedSecret?
    case Deleted(_, stateUnknown) => !stateUnknown
  }

  /** The S3Users an object's event is queued for: the object itself, or a Secret's controlling owners. */
  function Requests(o: Watched): set<Id> {
    match o
    case WatchedUser(id, _) => {id}
    case WatchedSecret(ns, owners) =>
      set ref | ref in owners && ref.kind == S3UserOwner && ref.controller :: Id(S3UserKind, ns, ref.name)
  }

  function Queued(e: Event): set<Id> {
    match e
    case Created(o) => Requests(o)
    case Updated(before, after) => Requests(before) + Requests(after)
    case Deleted(o, _) => Requests(o)
  }

  /** The event queues a reconcile of the S3User. */
  predicate Queues(e: Event, id: Id) {
    Passes(e) && id in Queued(e)
  }

  // ---------- what changes of the world announce, whoever makes them ----------

  function SeenUser(w: World, id: Id): Watched
    requires id in w.resources
  {
    WatchedUser(id, w.resources[id].generation)
  }

  function SeenSecret(w: World, k: Key): Watched
    requires k in w.secrets
  {
    WatchedSecret(k.namespace, w.secrets[k].owners)
  }

  /** The Secret names the S3User as its controlling owner. */
  predicate Controls(s: Secret, k: Key, id: Id) {
    exists ref :: ref in s.owners && ref.kind == S3UserOwner && ref.controller
      && id == Id(S3UserKind, k.namespace, ref.name)
  }

  /** A new S3User is queued, a changed one exactly when its generation changed, a deleted one if that is confirmed. */
  lemma UserEventsQueue(w: World, v: World, id: Id, stateUnknown: bool)
    ensures HasUser(v, id) ==> Queues(Created(SeenUser(v, id)), id)
    ensures HasUser(w, id) && HasUser(v, id) ==>
      (Queues(Updated(SeenUser(w, id), SeenUser(v, id)), id) <==>
       w.resources[id].generation != v.resources[id].generation)
    ensures HasUser(w, id) ==> (Queues(Deleted(SeenUser(w, id), stateUnknown), id) <==> !stateUnknown)
  {
  }

  /** A Secret queues its controlling owners when it is changed or its deletion is confirmed, not when it is made. */
  lemma SecretEventsQueue(w: World, v: World, k: Key, id: Id, stateUnknown: bool)
    ensures k in v.secrets ==> !Queues(Created(SeenSecret(v, k)), id)
    ensures k in w.secrets && k in v.secrets ==>
      (Queues(Updated(SeenSecret(w, k), SeenSecret(v, k)), id) <==>
       Controls(w.secrets[k], k, id) || Controls(v.secrets[k], k, id))
    ensures k in w.secrets ==>
      (Queues(Deleted(SeenSecret(w, k), stateUnknown), id) <==> !stateUnknown && Controls(w.secrets[k], k, id))
  {
  }

  /** An S3User is not queued for what happens to another. */
  lemma OthersAreNotQueued(w: World, v: World, other: Id, id: Id, stateUnknown: bool)
    requires other != id
    ensures other in v.resources ==> !Queues(Created(SeenUser(v, other)), id)
    ensures other in w.resources && other in v.resources ==>
      !Queues(Updated(SeenUser(w, other), SeenUser(v, other)), id)
    ensures other in w.resources ==> !Queues(Deleted(SeenUser(w, other), stateUnknown), id)
  {
  }

  /**
   * A change that must wake the S3User: it was made, its generation changed, or a Secret it controls
   * was changed or is known to be deleted.
   */
  ghost predicate Stirs(w: World, v: World, id: Id, e: Event) {
    || (id !in w.resources && HasUser(v, id) && e == Created(SeenUser(v, id)))
    || (HasUser(w, id) && HasUser(v, id) && w.resources[id].generation != v.resources[id].generation
        && e == Updated(SeenUser(w, id), SeenUser(v, id)))
    || (exists k :: SecretStirs(w, v, id, e, k))
  }

  predicate SecretStirs(w: World, v: World, id: Id, e: Event, k: Key) {
    && k in w.secrets
    && if k in v.secrets then
         && (Controls(w.secrets[k], k, id) || Controls(v.secrets[k], k, id))
         && e == Updated(SeenSecret(w, k), SeenSecret(v, k))
       else Controls(w.secrets[k], k, id) && e == Deleted(SeenSecret(w, k), false)
  }

  lemma StirringQueues(w: World, v: World, id: Id, e: Event)
    requires Stirs(w, v, id, e)
    ensures Queues(e, id)
  {
    UserEventsQueue(w, v, id, false);
    if k :| SecretStirs(w, v, id, e, k) {
      SecretEventsQueue(w, v, k, id, false);
    }
  }

  // ---------- what the operator's own calls announce ----------

  /** The event a call gives rise to, if it touches something watched. */
  function EventOf(w: World, a: Action): Option<Event> {
    if !Permitted(w, a) then None
    else
      var v := Apply(w, a);
      match a
      case CreateSecret(k, _) => Some(Created(SeenSecret(v, k)))
      case UpdateSecret(k, _) => Some(Updated(SeenSecret(w, k), SeenSecret(v, k)))
      case DeleteSecret(k) => Some(Deleted(SeenSecret(w, k), false))
      case SetCondition(id, _) => UserEvent(w, v, id)
      case AddFinalizer(id) => UserEvent(w, v, id)
      case RemoveFinalizer(id) => UserEvent(w, v, id)
      case _ => None
  }

  function UserEvent(w: World, v: World, id: Id): Option<Event>
    requires id in w.resources
  {
    if !w.resources[id].spec.UserSpec? then None
    else if id !in v.resources then Some(Deleted(SeenUser(w, id), false))
    else Some(Updated(SeenUser(w, id), SeenUser(v, id)))
  }

  /** The call wakes a reconcile of `id`. */
  predicate Wakes(w: World, a: Action, id: Id) {
    var e := EventOf(w, a);
    e.Some? && Queues(e.value, id)
  }

  predicate WokenBy(w: World, done: seq<Action>, id: Id)
    decreases |done|
  {
    done != [] && (Wakes(w, done[0], id) || WokenBy(Apply(w, done[0]), done[1..], id))
  }

  /** Status and finalizer writes on a resource that stays do not wake its own reconcile. */
  lemma OwnWritesAreFiltered(w: World, a: Action, id: Id)
    requires id in w.resources && id in Apply(w, a).resources
    requires a.SetCondition? || a.AddFinalizer? || a.RemoveFinalizer?
    requires a.id == id
    ensures !Wakes(w, a, id)
  {
    ResourcesKept(w, a, id);
  }

  /** A Secret's creation is never a reason to reconcile. */
  lemma SecretCreationIsFiltered(w: World, at: Key, secret: Secret, id: Id)
    ensures !Wakes(w, CreateSecret(at, secret), id)
  {
  }

  /** One fault-free reconcile. */
  ghost predicate Reconciles(w: World, v: World, id: Id, cfg: Config, ch: Chance) {
    (HasUser(w, id) ==> ValidChance(w, id, ch)) && v == Exec(w, ReconcilePlan(w, id, cfg, ch).actions)
  }

  /** The reconcile is followed by another: one of its own calls wakes it, or it returned an error or a period. */
  ghost predicate AsksAgain(w: World, id: Id, cfg: Config, ch: Chance) {
    && (HasUser(w, id) ==> ValidChance(w, id, ch))
    && (|| WokenBy(w, ReconcilePlan(w, id, cfg, ch).actions, id)
        || ReconcilePlan(w, id, cfg, ch).outcome != Finished(0))
  }

  /**
   * A queue run: fault-free reconciles of one user with no reconcile period, nobody else acting,
   * each after the first asked for by the one before.
   */
  ghost predicate QueueRun(ws: seq<World>, chances: seq<Chance>, id: Id, cfg: Config) {
    && |ws| == |chances| + 1
    && cfg.reconcilePeriod == 0
    && (forall i :: 0 <= i < |chances| ==> Reconciles(ws[i], ws[i + 1], id, cfg, chances[i]))
    && (forall i :: 0 <= i < |chances| - 1 ==> AsksAgain(ws[i], id, cfg, chances[i]))
  }

  /** After a healing reconcile, one more changes nothing and asks for nothing. */
  lemma SecondIsLast(w: World, v: World, x: World, id: Id, cfg: Config, first: Chance, second: Chance)
    requires HasUser(w, id) && Safe(w, id) && Healable(w, id) && cfg.reconcilePeriod == 0
    requires Reconciles(w, v, id, cfg, first) && Reconciles(v, x, id, cfg, second)
    ensures x == v && !AsksAgain(v, id, cfg, second)
  {
    SelfHealing(w, id, cfg, first);
    HealingIsFinal(w, id, cfg, first, second);
    assert !WokenBy(v, [], id);
  }

  /** The queue empties after at most two reconciles, in a healthy world where a further reconcile makes no call. */
  lemma QueueEmpties(ws: seq<World>, chances: seq<Chance>, id: Id, cfg: Config, next: Chance)
    requires QueueRun(ws, chances, id, cfg) && chances != []
    requires HasUser(ws[0], id) && Safe(ws[0], id) && Healable(ws[0], id)
    requires HasUser(ws[|ws| - 1], id) ==> ValidChance(ws[|ws| - 1], id, next)
    ensures |chances| <= 2
    ensures Healthy(ws[|ws| - 1], id)
    ensures ReconcilePlan(ws[|ws| - 1], id, cfg, next) == Plan([], Finished(0))
  {
    assert Reconciles(ws[0], ws[0 + 1], id, cfg, chances[0]);
    SelfHealing(ws[0], id, cfg, chances[0]);
    if |chances| >= 2 {
      assert Reconciles(ws[1], ws[1 + 1], id, cfg, chances[1]);
      assert |chances| > 2 ==> AsksAgain(ws[1], id, cfg, chances[1]);
      SecondIsLast(ws[0], ws[1], ws[2], id, cfg, chances[0], chances[1]);
    }
    assert ws[|ws| - 1] == ws[1];
    HealingIsFinal(ws[0], id, cfg, chances[0], next);
  }
}
