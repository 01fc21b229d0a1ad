/** Deleting an S3User can be interrupted anywhere and retried: the end is the same. */
module UserDeletion {
  import opened Collections
  import opened Model
  import opened Effects
  import opened ControllerHelper
  import opened S3InstanceHelper
  import opened UserPlan
  import opened UserSafety

  /** The world up to the status conditions of `id`. */
  function Forget(w: World, id: Id): World {
    if id in w.resources then WithResource(w, id, w.resources[id].(conditions := [])) else w
  }

  /** The resources without the operator's finalizer on `id`, and without `id` if no other finalizer holds it. */
  function ResourcesAfter(w: World, id: Id): map<Id, Resource>
    requires id in w.resources
  {
    var r := w.resources[id];
    if r.finalizers - {Operator} == {} then w.resources - {id}
    else w.resources[id := r.(finalizers := r.finalizers - {Operator}, conditions := [])]
  }

  function UsersAfter(w: World, id: Id, enabled: bool): map<string, BackendUser>
    requires HasUser(w, id)
  {
    if enabled then w.users - {AccessKey(w, id)} else w.users
  }

  /** Where the deletion leads: no owned Secret, no S3 user if deletion is enabled, no finalizer. */
  function Ended(w: World, id: Id, enabled: bool): World
    requires HasUser(w, id)
  {
    World(ResourcesAfter(w, id), w.secrets - Owned(w, id), UsersAfter(w, id, enabled), w.buckets, w.policies)
  }

  /** The user is marked for deletion, its finalizer is stored and its client is available. */
  ghost predicate Deletable(w: World, id: Id, enabled: bool) {
    && HasUser(w, id) && w.resources[id].deleting && Operator in w.resources[id].finalizers
    && var client := ClientFor(w, id.namespace, w.resources[id].spec.s3InstanceRef);
       client.Client? && client.instance.userDeletionEnabled == enabled
  }

  /** The world with some Secrets and perhaps the S3 user gone, and other conditions on the resource. */
  function Partial(w: World, id: Id, conditions: seq<Condition>, gone: set<Key>, userGone: bool): World
    requires HasUser(w, id)
  {
    World(
      w.resources[id := w.resources[id].(conditions := conditions)], w.secrets - gone, UsersAfter(w, id, userGone),
      w.buckets, w.policies)
  }

  /** What an interrupted deletion may have left. */
  ghost predicate PartlyDeleted(w: World, x: World, id: Id, enabled: bool)
    requires HasUser(w, id)
  {
    exists conditions, gone, userGone ::
      gone <= Owned(w, id) && (userGone ==> enabled) && x == Partial(w, id, conditions, gone, userGone)
  }

  lemma PartialOwned(w: World, id: Id, conditions: seq<Condition>, gone: set<Key>, userGone: bool)
    requires HasUser(w, id)
    ensures HasUser(Partial(w, id, conditions, gone, userGone), id)
    ensures Owned(Partial(w, id, conditions, gone, userGone), id) == Owned(w, id) - gone
  {
  }

  lemma PartialResources(w: World, id: Id, conditions: seq<Condition>)
    requires id in w.resources
    ensures
      var v := WithResource(w, id, w.resources[id].(conditions := conditions));
      ResourcesAfter(v, id) == ResourcesAfter(w, id)
  {
    var r := w.resources[id];
    var s := r.(conditions := conditions);
    if r.finalizers - {Operator} == {} {
      assert w.resources[id := s] - {id} == w.resources - {id};
    } else {
      var t := r.(finalizers := r.finalizers - {Operator}, conditions := []);
      assert w.resources[id := s][id := t] == w.resources[id := t];
    }
  }

  /** From a partly deleted world the deletion leads to the same end. */
  lemma PartialSameEnd(
    w: World, id: Id, conditions: seq<Condition>, gone: set<Key>, userGone: bool, enabled: bool)
    requires HasUser(w, id) && gone <= Owned(w, id) && (userGone ==> enabled)
    ensures
      var x := Partial(w, id, conditions, gone, userGone);
      HasUser(x, id) && Ended(x, id, enabled) == Ended(w, id, enabled)
  {
    var x := Partial(w, id, conditions, gone, userGone);
    PartialOwned(w, id, conditions, gone, userGone);
    PartialResources(w, id, conditions);
    assert ResourcesAfter(x, id) == ResourcesAfter(w, id);
    assert (w.secrets - gone) - (Owned(w, id) - gone) == w.secrets - Owned(w, id);
    assert userGone ==> x.users - {AccessKey(w, id)} == w.users - {AccessKey(w, id)};
  }

  lemma PartialClient(w: World, id: Id, conditions: seq<Condition>, gone: set<Key>, userGone: bool, enabled: bool)
    requires Deletable(w, id, enabled)
    ensures Deletable(Partial(w, id, conditions, gone, userGone), id, enabled)
  {
    var r := w.resources[id];
    var x := Partial(w, id, conditions, gone, userGone);
    if InstanceOf(r.spec.s3InstanceRef, id.namespace) != id {
      ClientReadsInstanceOnly(w, x, id.namespace, r.spec.s3InstanceRef);
    }
  }

  // ---------- the plan of a deletion ----------

  function UserCalls(w: World, id: Id, enabled: bool): seq<Action>
    requires HasUser(w, id)
  {
    if enabled then [DeleteUser(AccessKey(w, id))] else []
  }

  /** The calls of a deletion whose resource is past its opening. */
  function DeletionCalls(w: World, id: Id, enabled: bool, order: seq<Key>): seq<Action>
    requires HasUser(w, id)
  {
    UserCalls(w, id, enabled) + Deletions(order) + [RemoveFinalizer(id)]
  }

  lemma DeletionPlanIs(w: World, id: Id, enabled: bool, cfg: Config, ch: Chance)
    requires Deletable(w, id, enabled) && ValidChance(w, id, ch)
    ensures ReconcilePlan(w, id, cfg, ch)
         == Plan(StatusCalls(id, w.resources[id]) + DeletionCalls(w, id, enabled, ch.order), Finished(0))
  {
    var r := w.resources[id];
    var v := WithResource(w, id, Started(r));
    ClientIgnoresOpening(w, id);
    assert StartCalls(id, r) == StatusCalls(id, r) + [];
    assert StatusCalls(id, r) + [] == StatusCalls(id, r);
    assert HandleDeletionPlan(v, id, Started(r), cfg, ch) == Plan(DeletionCalls(w, id, enabled, ch.order), Finished(0));
  }

  lemma UserCallsEffect(w: World, id: Id, enabled: bool)
    requires HasUser(w, id)
    ensures Exec(w, UserCalls(w, id, enabled)) == w.(users := UsersAfter(w, id, enabled))
  {
    if enabled { ExecOne(w, DeleteUser(AccessKey(w, id))); }
  }

  /** What the first calls of a deletion, before the finalizer goes, leave: the user gone, then Secret after Secret. */
  lemma PrefixEffect(w: World, id: Id, enabled: bool, order: seq<Key>, n: nat)
    requires HasUser(w, id) && n <= |order|
    ensures Exec(w, UserCalls(w, id, enabled) + Deletions(order)[..n])
         == Partial(w, id, w.resources[id].conditions, SetOf(order[..n]), enabled)
  {
    var r := w.resources[id];
    UserCallsEffect(w, id, enabled);
    ExecAppend(w, UserCalls(w, id, enabled), Deletions(order)[..n]);
    assert Deletions(order)[..n] == Deletions(order[..n]);
    DeletionsKeep(w.(users := UsersAfter(w, id, enabled)), order[..n]);
    assert r.(conditions := r.conditions) == r;
    assert w.resources[id := r] == w.resources;
  }

  lemma SubsetOfListed(order: seq<Key>, n: nat, s: set<Key>)
    requires n <= |order| && Lists(order, s)
    ensures SetOf(order[..n]) <= s
  {
    assert forall k :: k in order[..n] ==> k in SetOf(order);
  }

  /** A whole deletion from past the opening reaches the end, up to the resource's conditions. */
  lemma WholeEffect(w: World, id: Id, enabled: bool, order: seq<Key>)
    requires Deletable(w, id, enabled) && Lists(order, Owned(w, id))
    ensures Forget(Exec(w, DeletionCalls(w, id, enabled, order)), id) == Ended(w, id, enabled)
  {
    var r := w.resources[id];
    var calls := UserCalls(w, id, enabled) + Deletions(order);
    var x := Partial(w, id, r.conditions, Owned(w, id), enabled);
    PrefixEffect(w, id, enabled, order, |order|);
    assert order[..|order|] == order && Deletions(order)[..|order|] == Deletions(order);
    ExecSnoc(w, calls, RemoveFinalizer(id));
    assert w.resources[id := r] == w.resources;
    LastCallEffect(x, id);
    assert ResourcesAfter(x, id) == ResourcesAfter(w, id);
  }

  lemma LastCallEffect(x: World, id: Id)
    requires id in x.resources && x.resources[id].deleting
    ensures Forget(Apply(x, RemoveFinalizer(id)), id) == x.(resources := ResourcesAfter(x, id))
  {
    var r := x.resources[id];
    var left := r.finalizers - {Operator};
    if left != {} {
      var s := r.(finalizers := left);
      assert x.resources[id := s][id := s.(conditions := [])] == x.resources[id := s.(conditions := [])];
    }
  }

  /** An uninterrupted deletion ends where `Ended` says. */
  lemma DeletionEnds(w: World, id: Id, enabled: bool, cfg: Config, ch: Chance)
    requires Deletable(w, id, enabled) && ValidChance(w, id, ch)
    ensures Forget(Exec(w, ReconcilePlan(w, id, cfg, ch).actions), id) == Ended(w, id, enabled)
  {
    var r := w.resources[id];
    var status := StatusCalls(id, r);
    var v := WithResource(w, id, WithStatus(r));
    DeletionPlanIs(w, id, enabled, cfg, ch);
    StatusCallsEffect(w, id, r);
    ExecAppend(w, status, DeletionCalls(w, id, enabled, ch.order));
    assert v == Partial(w, id, WithStatus(r).conditions, {}, false) by {
      assert w.secrets - {} == w.secrets;
    }
    PartialOwned(w, id, WithStatus(r).conditions, {}, false);
    PartialClient(w, id, WithStatus(r).conditions, {}, false, enabled);
    PartialSameEnd(w, id, WithStatus(r).conditions, {}, false, enabled);
    assert Owned(v, id) == Owned(w, id);
    WholeEffect(v, id, enabled, ch.order);
  }

  // ---------- interruption and retry ----------

  lemma PartialTwice(
    w: World, id: Id, c1: seq<Condition>, g1: set<Key>, u1: bool, c2: seq<Condition>, g2: set<Key>, u2: bool)
    requires HasUser(w, id)
    ensures
      var v := Partial(w, id, c1, g1, u1);
      HasUser(v, id) && Partial(v, id, c2, g2, u2) == Partial(w, id, c2, g1 + g2, u1 || u2)
  {
    var r := w.resources[id];
    var v := Partial(w, id, c1, g1, u1);
    assert w.resources[id := r.(conditions := c1)][id := r.(conditions := c2)]
        == w.resources[id := r.(conditions := c2)];
    assert (w.secrets - g1) - g2 == w.secrets - (g1 + g2);
    assert u1 && u2 ==> v.users - {AccessKey(w, id)} == v.users;
  }

  lemma PartlyTwice(w: World, v: World, x: World, id: Id, enabled: bool)
    requires HasUser(w, id) && PartlyDeleted(w, v, id, enabled)
    requires HasUser(v, id) && PartlyDeleted(v, x, id, enabled)
    ensures PartlyDeleted(w, x, id, enabled)
  {
    var c1, g1, u1 :| g1 <= Owned(w, id) && (u1 ==> enabled) && v == Partial(w, id, c1, g1, u1);
    var c2, g2, u2 :| g2 <= Owned(v, id) && (u2 ==> enabled) && x == Partial(v, id, c2, g2, u2);
    PartialTwice(w, id, c1, g1, u1, c2, g2, u2);
    PartialOwned(w, id, c1, g1, u1);
    assert x == Partial(w, id, c2, g1 + g2, u1 || u2);
  }

  /** Another status leaves the deletion where it was. */
  lemma ConditionsPartly(w: World, id: Id, conditions: seq<Condition>, enabled: bool)
    requires HasUser(w, id)
    ensures PartlyDeleted(w, WithResource(w, id, w.resources[id].(conditions := conditions)), id, enabled)
  {
    assert w.secrets - {} == w.secrets;
    assert WithResource(w, id, w.resources[id].(conditions := conditions)) == Partial(w, id, conditions, {}, false);
  }

  lemma BeforeLastPartly(w: World, id: Id, enabled: bool, order: seq<Key>, done: seq<Action>)
    requires HasUser(w, id) && Lists(order, Owned(w, id))
    requires done <= UserCalls(w, id, enabled) + Deletions(order)
    ensures PartlyDeleted(w, Exec(w, done), id, enabled)
  {
    var first := UserCalls(w, id, enabled);
    if |done| < |first| {
      assert done == [];
      ConditionsPartly(w, id, w.resources[id].conditions, enabled);
      WithResourceSame(w, id);
    } else {
      var n := |done| - |first|;
      assert done == first + Deletions(order)[..n];
      PrefixEffect(w, id, enabled, order, n);
      SubsetOfListed(order, n, Owned(w, id));
    }
  }

  /** Short of its last call, an interrupted deletion has deleted part of what it must. */
  lemma InterruptedPartly(w: World, id: Id, enabled: bool, order: seq<Key>, done: seq<Action>)
    requires HasUser(w, id) && Lists(order, Owned(w, id))
    requires done < StatusCalls(id, w.resources[id]) + DeletionCalls(w, id, enabled, order)
    ensures PartlyDeleted(w, Exec(w, done), id, enabled)
  {
    var status := StatusCalls(id, w.resources[id]);
    var calls := UserCalls(w, id, enabled) + Deletions(order);
    assert status + DeletionCalls(w, id, enabled, order) == status + calls + [RemoveFinalizer(id)];
    assert done <= status + calls;
    if |done| < |status| {
      assert done == [];
      BeforeLastPartly(w, id, enabled, order, []);
    } else {
      var rest := done[|status|..];
      assert done == status + rest;
      StatusCallsEffect(w, id, w.resources[id]);
      ExecAppend(w, status, rest);
      var v := Exec(w, status);
      ConditionsPartly(w, id, WithStatus(w.resources[id]).conditions, enabled);
      assert Owned(v, id) == Owned(w, id);
      BeforeLastPartly(v, id, enabled, order, rest);
      PartlyTwice(w, v, Exec(v, rest), id, enabled);
    }
  }

  lemma RetryFromPartly(w: World, x: World, id: Id, enabled: bool, cfg: Config, again: Chance)
    requires Deletable(w, id, enabled) && PartlyDeleted(w, x, id, enabled)
    requires HasUser(x, id) ==> ValidChance(x, id, again)
    ensures Forget(Exec(x, ReconcilePlan(x, id, cfg, again).actions), id) == Ended(w, id, enabled)
  {
    var conditions, gone, userGone :|
      gone <= Owned(w, id) && (userGone ==> enabled) && x == Partial(w, id, conditions, gone, userGone);
    PartialClient(w, id, conditions, gone, userGone, enabled);
    PartialSameEnd(w, id, conditions, gone, userGone, enabled);
    DeletionEnds(x, id, enabled, cfg, again);
  }

  /** Once the finalizer is gone a reconcile changes conditions at most. */
  lemma RetryFromEnd(x: World, id: Id, cfg: Config, again: Chance)
    requires HasUser(x, id) ==>
      ValidChance(x, id, again) && x.resources[id].deleting && Operator !in x.resources[id].finalizers
    ensures Forget(Exec(x, ReconcilePlan(x, id, cfg, again).actions), id) == Forget(x, id)
  {
    if HasUser(x, id) {
      var r := x.resources[id];
      StartCallsEffect(x, id);
      assert x.resources[id := Started(r)][id := r.(conditions := [])] == x.resources[id := r.(conditions := [])];
    }
  }

  lemma ForgetCondition(x: World, id: Id, c: Condition)
    ensures Forget(Apply(x, SetCondition(id, c)), id) == Forget(x, id)
  {
    if id in x.resources {
      var r := x.resources[id];
      var s := r.(conditions := Upsert(r.conditions, c));
      assert x.resources[id := s][id := r.(conditions := [])] == x.resources[id := r.(conditions := [])];
    }
  }

  /** The deletion mark and the finalizers are all a reconcile after the last call looks at. */
  lemma AfterWhole(w: World, id: Id, enabled: bool, cfg: Config, ch: Chance)
    requires Deletable(w, id, enabled) && ValidChance(w, id, ch)
    ensures
      var x := Exec(w, ReconcilePlan(w, id, cfg, ch).actions);
      HasUser(x, id) ==> x.resources[id].deleting && Operator !in x.resources[id].finalizers
  {
    var x := Exec(w, ReconcilePlan(w, id, cfg, ch).actions);
    DeletionEnds(w, id, enabled, cfg, ch);
    assert Forget(x, id) == Ended(w, id, enabled);
    if id in x.resources {
      assert id in Forget(x, id).resources;
      assert Forget(x, id).resources[id].finalizers == x.resources[id].finalizers;
    }
  }

  /** The report changes conditions at most. */
  lemma ReportTail(w: World, p: seq<Action>, tail: seq<Action>, id: Id)
    requires IsTail(tail, id)
    ensures Forget(Exec(w, p + tail), id) == Forget(Exec(w, p), id)
    ensures id in Exec(w, p + tail).resources <==> id in Exec(w, p).resources
    ensures id in Exec(w, p).resources ==>
      var r, s := Exec(w, p).resources[id], Exec(w, p + tail).resources[id];
      s == r.(conditions := s.conditions)
  {
    if tail == [] {
      assert p + tail == p;
    } else {
      assert tail == [SetCondition(id, tail[0].condition)];
      ExecSnoc(w, p, tail[0]);
      ForgetCondition(Exec(w, p), id, tail[0].condition);
    }
  }

  lemma TailPartly(w: World, p: seq<Action>, tail: seq<Action>, id: Id, enabled: bool)
    requires IsTail(tail, id) && HasUser(w, id) && PartlyDeleted(w, Exec(w, p), id, enabled)
    ensures PartlyDeleted(w, Exec(w, p + tail), id, enabled)
  {
    if tail == [] {
      assert p + tail == p;
    } else {
      var y := Exec(w, p);
      assert tail == [SetCondition(id, tail[0].condition)];
      ExecSnoc(w, p, tail[0]);
      ConditionsPartly(y, id, Upsert(y.resources[id].conditions, tail[0].condition), enabled);
      PartlyTwice(w, y, Exec(w, p + tail), id, enabled);
    }
  }

  /**
   * Retry-safe: stop a deletion after any call, under any failure, and run it again without one:
   * it ends as the uninterrupted deletion does, up to the status conditions of the resource.
   */
  lemma DeletionRetry(w: World, id: Id, enabled: bool, cfg: Config, ch: Chance, done: seq<Action>, again: Chance)
    requires Deletable(w, id, enabled) && ValidChance(w, id, ch)
    requires Follows(done, ReconcilePlan(w, id, cfg, ch).actions, id, {DeletionFailure})
    requires HasUser(Exec(w, done), id) ==> ValidChance(Exec(w, done), id, again)
    ensures Forget(Exec(Exec(w, done), ReconcilePlan(Exec(w, done), id, cfg, again).actions), id)
         == Forget(Exec(w, ReconcilePlan(w, id, cfg, ch).actions), id)
  {
    var plan := ReconcilePlan(w, id, cfg, ch).actions;
    var p, tail := FollowsSplits(done, plan, id, {DeletionFailure});
    DeletionEnds(w, id, enabled, cfg, ch);
    ReportTail(w, p, tail, id);
    if p == plan {
      AfterWhole(w, id, enabled, cfg, ch);
      RetryFromEnd(Exec(w, done), id, cfg, again);
    } else {
      DeletionPlanIs(w, id, enabled, cfg, ch);
      InterruptedPartly(w, id, enabled, ch.order, p);
      TailPartly(w, p, tail, id, enabled);
      RetryFromPartly(w, Exec(w, done), id, enabled, cfg, again);
    }
  }
}
