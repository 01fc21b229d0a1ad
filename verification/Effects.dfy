/**
 * The fallible calls that change the world, one constructor per call, and what each of them does.
 * A reconcile is a sequence of such calls that may stop after any of them.
 */
module Effects {
  import opened Collections
  import opened Model

  datatype Action =
    | CreateUser(user: string, key: string)
    | DeleteUser(user: string)
    | AttachPolicies(user: string, names: set<PolicyName>)
    | DetachPolicies(user: string, names: set<PolicyName>)
    | CreateSecret(at: Key, secret: Secret)
    | UpdateSecret(at: Key, secret: Secret)
    | DeleteSecret(at: Key)
    | CreateBucket(bucket: string)
    | DeleteBucket(bucket: string)
    | SetQuota(bucket: string, quota: Int64)
    | CreatePath(bucket: string, path: string)
    | DeletePath(bucket: string, path: string)
    | PutPolicy(policy: string, content: string)
    | DeletePolicy(policy: string)
    | SetCondition(id: Id, condition: Condition)
    | AddFinalizer(id: Id)
    | RemoveFinalizer(id: Id)

  /** The calls that reach the S3 backend. */
  predicate TouchesBackend(a: Action) {
    !(a.CreateSecret? || a.UpdateSecret? || a.DeleteSecret? || a.SetCondition? || a.AddFinalizer? || a.RemoveFinalizer?)
  }

  /** The calls that write a Secret. */
  predicate TouchesSecret(a: Action) {
    a.CreateSecret? || a.UpdateSecret? || a.DeleteSecret?
  }

  /** Object keys are the same up to leading slashes. */
  function ObjectKey(path: string): string {
    if path != [] && path[0] == '/' then ObjectKey(path[1..]) else path
  }

  /** The key PathExists looks up. */
  function Marker(path: string): string {
    ObjectKey(path + "/.keep")
  }

  /** CreatePath and DeletePath put a slash in front of the key PathExists looks up: it is the same object. */
  lemma MarkerKeysAgree(path: string)
    ensures ObjectKey("/" + path + "/.keep") == Marker(path)
  {
    assert ("/" + path + "/.keep")[1..] == path + "/.keep";
  }

  /** A path that does not begin with a slash has the marker of its name, and no two such paths share one. */
  lemma MarkerExactly(path: string, other: string)
    requires path != "" && path[0] != '/' && other != "" && other[0] != '/'
    ensures Marker(path) == path + "/.keep"
    ensures Marker(path) == Marker(other) ==> path == other
  {
    if Marker(path) == Marker(other) {
      assert path + "/.keep" == other + "/.keep";
      assert |path| == |other|;
      assert path == (path + "/.keep")[..|path|] && other == (other + "/.keep")[..|path|];
    }
  }

  /** Leading slashes make no difference. */
  lemma SlashesDrop(path: string)
    ensures Marker("/" + path) == Marker(path)
  {
    assert ("/" + path + "/.keep")[1..] == path + "/.keep";
  }

  /** uint64(q), as SetQuota casts it. */
  function ToUInt64(q: Int64): UInt64 {
    if q < 0 then q + TWO_TO_THE_64 else q
  }

  /** int64(q), as GetQuota casts it. */
  function ToInt64(q: UInt64): Int64 {
    if q >= TWO_TO_THE_63 then q - TWO_TO_THE_64 else q
  }

  /** Conditions are upserted by type. */
  function Upsert(conditions: seq<Condition>, c: Condition): (r: seq<Condition>)
    ensures r != [] && |conditions| <= |r|
  {
    if conditions == [] then [c]
    else if conditions[0].ctype == c.ctype then [c] + conditions[1..]
    else [conditions[0]] + Upsert(conditions[1..], c)
  }

  /** What the API server or the backend accepts; anything else is answered with an error and no effect. */
  predicate Permitted(w: World, a: Action) {
    match a
    case CreateUser(_, _) => true
    case DeleteUser(_) => true
    case AttachPolicies(u, _) => u in w.users
    case DetachPolicies(u, _) => u in w.users
    case CreateSecret(k, _) => k !in w.secrets
    case UpdateSecret(k, _) => k in w.secrets
    case DeleteSecret(k) => k in w.secrets
    case CreateBucket(b) => b !in w.buckets
    case DeleteBucket(b) => b in w.buckets && w.buckets[b].objects == {}
    case SetQuota(b, _) => b in w.buckets
    case CreatePath(b, _) => b in w.buckets
    case DeletePath(b, _) => b in w.buckets
    case PutPolicy(_, _) => true
    case DeletePolicy(_) => true
    case SetCondition(id, _) => id in w.resources
    case AddFinalizer(id) => id in w.resources && !w.resources[id].deleting
    case RemoveFinalizer(id) => id in w.resources
  }

  function WithResource(w: World, id: Id, r: Resource): World {
    w.(resources := w.resources[id := r])
  }

  /** The world after one call took effect. */
  function Apply(w: World, a: Action): World {
    if !Permitted(w, a) then w
    else
      match a
      case CreateUser(u, k) =>
        w.(users := w.users[u := BackendUser(k, if u in w.users then w.users[u].policies else {})])
      case DeleteUser(u) => w.(users := w.users - {u})
      case AttachPolicies(u, ps) => w.(users := w.users[u := BackendUser(w.users[u].key, w.users[u].policies + ps)])
      case DetachPolicies(u, ps) => w.(users := w.users[u := BackendUser(w.users[u].key, w.users[u].policies - ps)])
      case CreateSecret(k, s) => w.(secrets := w.secrets[k := s])
      case UpdateSecret(k, s) => w.(secrets := w.secrets[k := s])
      case DeleteSecret(k) => w.(secrets := w.secrets - {k})
      case CreateBucket(b) => w.(buckets := w.buckets[b := BackendBucket(0, {})])
      case DeleteBucket(b) => w.(buckets := w.buckets - {b})
      case SetQuota(b, q) => w.(buckets := w.buckets[b := w.buckets[b].(quota := ToUInt64(q))])
      case CreatePath(b, p) =>
        w.(buckets := w.buckets[b := w.buckets[b].(objects := w.buckets[b].objects + {ObjectKey("/" + p + "/.keep")})])
      case DeletePath(b, p) =>
        w.(buckets := w.buckets[b := w.buckets[b].(objects := w.buckets[b].objects - {ObjectKey("/" + p + "/.keep")})])
      case PutPolicy(p, c) => w.(policies := w.policies[p := c])
      case DeletePolicy(p) => w.(policies := w.policies - {p})
      case SetCondition(id, c) =>
        var r := w.resources[id];
        WithResource(w, id, r.(conditions := Upsert(r.conditions, c)))
      case AddFinalizer(id) =>
        var r := w.resources[id];
        WithResource(w, id, r.(finalizers := r.finalizers + {Operator}))
      case RemoveFinalizer(id) =>
        var r := w.resources[id];
        var left := r.finalizers - {Operator};
        if r.deleting && left == {} then w.(resources := w.resources - {id})
        else WithResource(w, id, r.(finalizers := left))
  }

  // ---------- what a call leaves alone ----------

  /** Calls create no resource, and change neither its identity nor its spec nor its deletion mark. */
  lemma ResourcesKept(w: World, a: Action, id: Id)
    ensures id in Apply(w, a).resources ==>
      && id in w.resources
      && var r, s := w.resources[id], Apply(w, a).resources[id];
         r.uid == s.uid && r.spec == s.spec && r.deleting == s.deleting && r.generation == s.generation
  {
    if !a.SetCondition? && !a.AddFinalizer? && !a.RemoveFinalizer? {
      assert Apply(w, a).resources == w.resources;
    }
  }

  /** A resource loses the operator's finalizer, or vanishes, only through RemoveFinalizer. */
  lemma FinalizersKept(w: World, a: Action, id: Id)
    requires id in w.resources && a != RemoveFinalizer(id)
    ensures id in Apply(w, a).resources
    ensures Operator in w.resources[id].finalizers ==> Operator in Apply(w, a).resources[id].finalizers
  {
  }

  /** A resource changes only through a call on it. */
  lemma OthersStay(w: World, a: Action, j: Id)
    requires a.SetCondition? || a.AddFinalizer? || a.RemoveFinalizer? ==> a.id != j
    ensures j in w.resources <==> j in Apply(w, a).resources
    ensures j in w.resources ==> Apply(w, a).resources[j] == w.resources[j]
  {
    if !a.SetCondition? && !a.AddFinalizer? && !a.RemoveFinalizer? {
      assert Apply(w, a).resources == w.resources;
    }
  }

  lemma SecretsKept(w: World, a: Action)
    ensures a.CreateSecret? || a.UpdateSecret? || a.DeleteSecret? || Apply(w, a).secrets == w.secrets
  {
  }

  lemma UsersKept(w: World, a: Action, user: string)
    requires user in w.users
    ensures a == DeleteUser(user) || user in Apply(w, a).users
  {
  }

  /** The world after a sequence of calls. */
  function Exec(w: World, done: seq<Action>): World
    decreases |done|
  {
    if done == [] then w else Exec(Apply(w, done[0]), done[1..])
  }

  lemma {:induction false} ExecAppend(w: World, a: seq<Action>, b: seq<Action>)
    ensures Exec(w, a + b) == Exec(Exec(w, a), b)
    decreases |a|
  {
    if a == [] {
      assert a + b == b;
    } else {
      ExecAppend(Apply(w, a[0]), a[1..], b);
      assert (a + b)[1..] == a[1..] + b;
    }
  }

  lemma ExecOne(w: World, a: Action)
    ensures Exec(w, [a]) == Apply(w, a)
  {
    assert [a][1..] == [];
  }

  lemma ExecSnoc(w: World, done: seq<Action>, a: Action)
    ensures Exec(w, done + [a]) == Apply(Exec(w, done), a)
  {
    ExecAppend(w, done, [a]);
    ExecOne(Exec(w, done), a);
  }

  lemma ExecCons(w: World, a: Action, rest: seq<Action>)
    ensures Exec(w, [a] + rest) == Exec(Apply(w, a), rest)
  {
    assert ([a] + rest)[1..] == rest;
  }

  // ---------- plans ----------

  /** What a reconcile does when every call succeeds, and what it then returns. */
  datatype Plan = Plan(actions: seq<Action>, outcome: Outcome)

  function After(first: seq<Action>, p: Plan): Plan {
    Plan(first + p.actions, p.outcome)
  }

  lemma AfterTwice(a: seq<Action>, b: seq<Action>, p: Plan)
    ensures After(a, After(b, p)) == After(a + b, p)
  {
    assert a + (b + p.actions) == a + b + p.actions;
  }

  /** A status write that reports a failure. */
  predicate ReportsFailure(a: Action, id: Id, reasons: set<Reason>) {
    a.SetCondition? && a.id == id && a.condition.status == False && a.condition.reason in reasons
  }

  /**
   * What a reconcile interrupted by failed calls or by a crash may have done:
   * a prefix of its plan, and after it at most one status write that reports a failure.
   */
  ghost predicate Follows(done: seq<Action>, plan: seq<Action>, id: Id, reasons: set<Reason>) {
    || done <= plan
    || (done != [] && done[..|done| - 1] <= plan && ReportsFailure(done[|done| - 1], id, reasons))
  }

  lemma FollowsAfter(first: seq<Action>, done: seq<Action>, plan: seq<Action>, id: Id, reasons: set<Reason>)
    requires Follows(done, plan, id, reasons)
    ensures Follows(first + done, first + plan, id, reasons)
  {
    if !(done <= plan) {
      assert (first + done)[..|first + done| - 1] == first + done[..|done| - 1];
    }
  }

  /** At most one report of a failure. */
  predicate IsTail(tail: seq<Action>, id: Id) {
    tail == [] || (|tail| == 1 && tail[0].SetCondition? && tail[0].id == id)
  }

  lemma FollowsSplits(done: seq<Action>, plan: seq<Action>, id: Id, reasons: set<Reason>)
    returns (p: seq<Action>, tail: seq<Action>)
    requires Follows(done, plan, id, reasons)
    ensures done == p + tail && p <= plan && IsTail(tail, id)
  {
    if done <= plan {
      p, tail := done, [];
    } else {
      p, tail := done[..|done| - 1], [done[|done| - 1]];
    }
  }

  // ---------- properties along a sequence of calls ----------

  /** `P` holds of the start, of the end and of every world in between: it survives a crash at any point. */
  ghost predicate AllAlong(w: World, done: seq<Action>, P: World -> bool)
    decreases |done|
  {
    P(w) && (done == [] || AllAlong(Apply(w, done[0]), done[1..], P))
  }

  lemma {:induction false} AllAlongPrefix(w: World, done: seq<Action>, n: nat, P: World -> bool)
    requires n <= |done|
    ensures AllAlong(w, done, P) ==> P(Exec(w, done[..n]))
    decreases n
  {
    if n > 0 {
      AllAlongPrefix(Apply(w, done[0]), done[1..], n - 1, P);
      assert done[..n][1..] == done[1..][..n - 1];
    }
  }

  lemma {:induction false} AllAlongAppend(w: World, a: seq<Action>, b: seq<Action>, P: World -> bool)
    requires AllAlong(w, a, P) && AllAlong(Exec(w, a), b, P)
    ensures AllAlong(w, a + b, P)
    decreases |a|
  {
    if a == [] {
      assert a + b == b;
    } else {
      AllAlongAppend(Apply(w, a[0]), a[1..], b, P);
      assert (a + b)[1..] == a[1..] + b;
    }
  }

  /** Every call in the sequence meets `G` in the world in which it is made. */
  ghost predicate Guarded(w: World, done: seq<Action>, G: (World, Action) -> bool)
    decreases |done|
  {
    done == [] || (G(w, done[0]) && Guarded(Apply(w, done[0]), done[1..], G))
  }

  lemma GuardedCons(w: World, a: Action, rest: seq<Action>, G: (World, Action) -> bool)
    requires G(w, a) && Guarded(Apply(w, a), rest, G)
    ensures Guarded(w, [a] + rest, G)
  {
    assert ([a] + rest)[1..] == rest;
  }

  lemma {:induction false} GuardedAppend(w: World, a: seq<Action>, b: seq<Action>, G: (World, Action) -> bool)
    requires Guarded(w, a, G) && Guarded(Exec(w, a), b, G)
    ensures Guarded(w, a + b, G)
    decreases |a|
  {
    if a == [] {
      assert a + b == b;
    } else {
      GuardedAppend(Apply(w, a[0]), a[1..], b, G);
      assert (a + b)[1..] == a[1..] + b;
    }
  }

  lemma GuardedMiddle(w: World, a: seq<Action>, x: Action, b: seq<Action>, G: (World, Action) -> bool)
    requires Guarded(w, a, G) && G(Exec(w, a), x) && Guarded(Apply(Exec(w, a), x), b, G)
    ensures Guarded(w, a + [x] + b, G)
    ensures Exec(w, a + [x]) == Apply(Exec(w, a), x)
  {
    ExecSnoc(w, a, x);
    GuardedCons(Exec(w, a), x, b, G);
    GuardedAppend(w, a, [x] + b, G);
    MiddleMoves(a, x, b);
  }

  lemma MiddleMoves(a: seq<Action>, x: Action, b: seq<Action>)
    ensures a + ([x] + b) == a + [x] + b
  {
  }

  lemma {:induction false} GuardedPrefix(w: World, done: seq<Action>, n: nat, G: (World, Action) -> bool)
    requires n <= |done| && Guarded(w, done, G)
    ensures Guarded(w, done[..n], G)
    decreases n
  {
    if n > 0 {
      GuardedPrefix(Apply(w, done[0]), done[1..], n - 1, G);
      assert done[..n][1..] == done[1..][..n - 1];
    }
  }

  lemma {:induction false} GuardedAt(w: World, done: seq<Action>, i: nat, G: (World, Action) -> bool)
    requires i < |done| && Guarded(w, done, G)
    ensures G(Exec(w, done[..i]), done[i])
    decreases i
  {
    if i > 0 {
      GuardedAt(Apply(w, done[0]), done[1..], i - 1, G);
      assert done[..i][1..] == done[1..][..i - 1];
    }
  }

  /** Interrupting a guarded plan leaves a guarded sequence of calls. */
  lemma GuardedFollows(
    w: World, done: seq<Action>, plan: seq<Action>, id: Id, reasons: set<Reason>, G: (World, Action) -> bool)
    requires Follows(done, plan, id, reasons) && Guarded(w, plan, G)
    requires forall v, a :: ReportsFailure(a, id, reasons) ==> G(v, a)
    ensures Guarded(w, done, G)
  {
    if done <= plan {
      assert done == plan[..|done|];
      GuardedPrefix(w, plan, |done|, G);
    } else {
      var n := |done| - 1;
      assert done[..n] == plan[..n];
      GuardedPrefix(w, plan, n, G);
      GuardedCons(Exec(w, done[..n]), done[n], [], G);
      GuardedAppend(w, done[..n], [done[n]], G);
      assert done == done[..n] + [done[n]];
    }
  }
}
