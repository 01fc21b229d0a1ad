/** The status condition every controller maintains, written only when it changes. */
module ControllerHelper {
  import opened Collections
  import opened Model
  import opened Effects
  import opened Api

  function NewCondition(r: Resource, reason: Reason, site: Site, error: Option<Error>): Condition {
    Condition(ReconciledType, if error.Some? then False else True, r.generation, reason, site, error)
  }

  predicate Changes(r: Resource, c: Condition) {
    Upsert(r.conditions, c) != r.conditions
  }

  /** Recording the outcome of a reconcile: one status write if the condition changes, none otherwise. */
  function Report(id: Id, r: Resource, reason: Reason, site: Site, error: Option<Error>, period: nat): Plan {
    var c := NewCondition(r, reason, site, error);
    Plan(
      if Changes(r, c) then [SetCondition(id, c)] else [],
      if error.Some? then Errored else Finished(period))
  }

  method SetReconciledCondition(
    api: Cluster, id: Id, r: Resource, reason: Reason, site: Site, error: Option<Error>, requeueAfter: nat)
    returns (out: Outcome)
    requires api.Valid() && id in api.w.resources && api.w.resources[id] == r
    modifies api`w, api`log, api`faults
    ensures api.Valid()
    ensures api.Ran(
      old(api.log), old(api.faults), Report(id, r, reason, site, error, requeueAfter), id, {}, out)
    ensures error.Some? ==> out == Errored
    ensures api.log == old(api.log) ||
      api.log == old(api.log) + [SetCondition(id, NewCondition(r, reason, site, error))]
  {
    var c := NewCondition(r, reason, site, error);
    var changed := Changes(r, c);
    if changed {
      var e := api.Do(SetCondition(id, c));
      if e.Some? {
        return Errored;
      }
    }
    return if error.Some? then Errored else Finished(requeueAfter);
  }

  /** A failed call, after the calls `done` of the plan, is reported and its error returned. */
  method Fail(
    api: Cluster, period: nat, id: Id, r: Resource, reason: Reason, site: Site, e: Error, ghost log0: seq<Action>,
    ghost done: seq<Action>, ghost faults0: nat, ghost p: Plan, ghost reasons: set<Reason>) returns (out: Outcome)
    requires api.Valid() && id in api.w.resources && api.w.resources[id] == r
    requires faults0 < api.faults && api.log == log0 + done && done <= p.actions && reason in reasons
    modifies api`w, api`log, api`faults
    ensures api.Valid() && api.Ran(log0, faults0, p, id, reasons, out) && out == Errored
    ensures api.log == old(api.log) ||
      api.log == old(api.log) + [SetCondition(id, NewCondition(r, reason, site, Some(e)))]
  {
    out := SetReconciledCondition(api, id, r, reason, site, Some(e), period);
    api.RanFailed(log0, done, faults0, p, id, reasons, out);
  }

  /** No client: the failure is reported, whether a call failed or the world calls for it. */
  method ReportUnavailable(
    api: Cluster, period: nat, id: Id, r: Resource, e: Error, ghost log0: seq<Action>, ghost faults0: nat,
    ghost p: Plan, ghost reasons: set<Reason>) returns (out: Outcome)
    requires api.Valid() && id in api.w.resources && api.w.resources[id] == r
    requires api.log == log0 && faults0 <= api.faults && Unreachable in reasons
    requires api.faults == faults0 ==> p == Report(id, r, Unreachable, ClientSite, Some(e), period)
    modifies api`w, api`log, api`faults
    ensures api.Valid() && api.Ran(log0, faults0, p, id, reasons, out)
  {
    ghost var failed := api.faults > faults0;
    out := SetReconciledCondition(api, id, r, Unreachable, ClientSite, Some(e), period);
    if failed {
      api.RanFailed(log0, [], faults0, p, id, reasons, out);
    }
  }

  // ---------- the opening of every Reconcile: a first status, then the finalizer ----------

  function StartingCondition(r: Resource): Condition {
    Condition(ReconciledType, Unknown, r.generation, Reconciling, Starting, None)
  }

  function StatusCalls(id: Id, r: Resource): seq<Action> {
    if r.conditions == [] then [SetCondition(id, StartingCondition(r))] else []
  }

  function FinalizerCalls(id: Id, r: Resource): seq<Action> {
    if Operator !in r.finalizers && !r.deleting then [AddFinalizer(id)] else []
  }

  function StartCalls(id: Id, r: Resource): seq<Action> {
    StatusCalls(id, r) + FinalizerCalls(id, r)
  }

  /** The API server adds no finalizer to a resource that is being deleted. */
  predicate Blocked(r: Resource) {
    Operator !in r.finalizers && r.deleting
  }

  function WithStatus(r: Resource): Resource {
    r.(conditions := if r.conditions == [] then [StartingCondition(r)] else r.conditions)
  }

  function WithFinalizer(r: Resource): Resource {
    r.(finalizers := if r.deleting then r.finalizers else r.finalizers + {Operator})
  }

  /** The resource after the opening. */
  function Started(r: Resource): Resource {
    WithFinalizer(WithStatus(r))
  }

  /** The plan of a reconcile of `id`, where `body` is what follows the opening. */
  function Opening(id: Id, r: Resource, body: Plan): Plan {
    if Blocked(r) then Plan(StartCalls(id, r), Errored) else After(StartCalls(id, r), body)
  }

  lemma WithResourceSame(w: World, id: Id)
    requires id in w.resources
    ensures WithResource(w, id, w.resources[id]) == w
  {
    assert w.resources[id := w.resources[id]] == w.resources;
  }

  lemma StatusCallsEffect(w: World, id: Id, r: Resource)
    requires id in w.resources && w.resources[id] == r
    ensures Exec(w, StatusCalls(id, r)) == WithResource(w, id, WithStatus(r))
  {
    WithResourceSame(w, id);
    if r.conditions == [] {
      ExecOne(w, SetCondition(id, StartingCondition(r)));
    }
  }

  lemma FinalizerCallsEffect(w: World, id: Id, r: Resource)
    requires id in w.resources && w.resources[id] == r
    ensures Exec(w, FinalizerCalls(id, r)) == WithResource(w, id, WithFinalizer(r))
  {
    WithResourceSame(w, id);
    if Operator !in r.finalizers && !r.deleting {
      ExecOne(w, AddFinalizer(id));
    } else if !r.deleting {
      assert r.finalizers + {Operator} == r.finalizers;
    }
  }

  lemma StartCallsEffect(w: World, id: Id)
    requires id in w.resources
    ensures Exec(w, StartCalls(id, w.resources[id])) == WithResource(w, id, Started(w.resources[id]))
  {
    var r := w.resources[id];
    var v := WithResource(w, id, WithStatus(r));
    ExecAppend(w, StatusCalls(id, r), FinalizerCalls(id, r));
    StatusCallsEffect(w, id, r);
    FinalizerCallsEffect(v, id, WithStatus(r));
    assert w.resources[id := WithStatus(r)][id := Started(r)] == w.resources[id := Started(r)];
  }

  /**
   * What the opening of a live resource does, and all it does: a first condition, Unknown and for the resource's
   * generation, if there was none, and the operator's finalizer.
   */
  lemma OpeningExactly(w: World, id: Id)
    requires id in w.resources && !w.resources[id].deleting
    ensures
      var r := w.resources[id];
      var x := Exec(w, StartCalls(id, r));
      && id in x.resources && x == w.(resources := w.resources[id := x.resources[id]])
      && x.resources[id] == r.(
           finalizers := r.finalizers + {Operator},
           conditions := if r.conditions == [] then
               [Condition(ReconciledType, Unknown, r.generation, Reconciling, Starting, None)] else r.conditions)
  {
    StartCallsEffect(w, id);
  }

  method StartStatus(api: Cluster, id: Id, r: Resource) returns (e: Option<Error>)
    requires api.Valid() && id in api.w.resources && api.w.resources[id] == r
    modifies api`w, api`log, api`faults
    ensures api.Valid() && old(api.faults) <= api.faults
    ensures e.None? ==>
      && api.faults == old(api.faults)
      && api.log == old(api.log) + StatusCalls(id, r)
      && api.w == WithResource(old(api.w), id, WithStatus(r))
    ensures e.Some? ==>
      api.faults > old(api.faults) && (api.log == old(api.log) || api.log == old(api.log) + StatusCalls(id, r))
  {
    WithResourceSame(api.w, id);
    StatusCallsEffect(api.w, id, r);
    e := None;
    if |r.conditions| == 0 {
      e := api.Do(SetCondition(id, StartingCondition(r)));
      if e.None? {
        e := api.Ask();
      }
    }
  }

  method StartFinalizer(api: Cluster, id: Id, r: Resource) returns (e: Option<Error>)
    requires api.Valid() && id in api.w.resources && api.w.resources[id] == r
    modifies api`w, api`log, api`faults
    ensures api.Valid() && old(api.faults) <= api.faults
    ensures e.None? ==>
      && api.faults == old(api.faults)
      && !Blocked(r)
      && api.log == old(api.log) + FinalizerCalls(id, r)
      && api.w == WithResource(old(api.w), id, WithFinalizer(r))
    ensures e.Some? ==> api.log == old(api.log) || api.log == old(api.log) + FinalizerCalls(id, r)
    ensures e.Some? && api.faults == old(api.faults) ==> Blocked(r) && api.log == old(api.log)
  {
    WithResourceSame(api.w, id);
    FinalizerCallsEffect(api.w, id, r);
    e := None;
    if Operator !in r.finalizers {
      e := api.Do(AddFinalizer(id));
      if e.None? {
        e := api.Ask();
      }
    }
  }

  /** The calls and the answer of an opening stopped by a failed call, or refused. */
  ghost predicate StoppedEarly(api: Cluster, log0: seq<Action>, faults0: nat, id: Id, r: Resource)
    reads api
  {
    && log0 <= api.log && faults0 <= api.faults
    && api.log[|log0|..] <= StartCalls(id, r)
    && (api.faults == faults0 ==> Blocked(r) && api.log == log0 + StartCalls(id, r))
  }

  method Start(api: Cluster, id: Id) returns (e: Option<Error>, r: Resource)
    requires api.Valid() && id in api.w.resources
    modifies api`w, api`log, api`faults
    ensures api.Valid()
    ensures e.None? ==>
      && api.faults == old(api.faults)
      && !Blocked(old(api.w).resources[id])
      && api.log == old(api.log) + StartCalls(id, old(api.w).resources[id])
      && r == Started(old(api.w).resources[id])
      && api.w == WithResource(old(api.w), id, r)
    ensures e.Some? ==> StoppedEarly(api, old(api.log), old(api.faults), id, old(api.w).resources[id])
  {
    ghost var w0, log0 := api.w, api.log;
    r := api.w.resources[id];
    ghost var r0 := r;
    ghost var status, finalizer := StatusCalls(id, r0), FinalizerCalls(id, r0);
    e := StartStatus(api, id, r);
    if e.Some? {
      assert api.log[|log0|..] == [] || api.log[|log0|..] == status;
      return;
    }
    r := api.w.resources[id];
    e := StartFinalizer(api, id, r);
    if e.Some? {
      assert api.log == log0 + status || api.log == log0 + (status + finalizer);
      assert api.log[|log0|..] == status || api.log[|log0|..] == status + finalizer;
      return;
    }
    assert api.log == log0 + (status + finalizer);
    assert w0.resources[id := WithStatus(r0)][id := Started(r0)] == w0.resources[id := Started(r0)];
    r := api.w.resources[id];
  }

  /** An opening stopped early is an interruption of the whole plan, whatever was to follow. */
  lemma StoppedEarlyRan(api: Cluster, log0: seq<Action>, faults0: nat, id: Id, r: Resource, body: Plan, rs: set<Reason>)
    requires StoppedEarly(api, log0, faults0, id, r)
    ensures api.Ran(log0, faults0, Opening(id, r, body), id, rs, Errored)
  {
    var p := Opening(id, r, body);
    assert StartCalls(id, r) <= p.actions;
  }

  function Find(conditions: seq<Condition>, t: ConditionType): Option<Condition> {
    if conditions == [] then None
    else if conditions[0].ctype == t then Some(conditions[0])
    else Find(conditions[1..], t)
  }

  /** An upsert is read back, leaves every other type as it was, and done again changes nothing. */
  lemma {:induction false} UpsertIsReadBack(conditions: seq<Condition>, c: Condition, t: ConditionType)
    ensures Find(Upsert(conditions, c), t) == if t == c.ctype then Some(c) else Find(conditions, t)
    ensures Upsert(Upsert(conditions, c), c) == Upsert(conditions, c)
  {
    if conditions != [] && conditions[0].ctype != c.ctype {
      UpsertIsReadBack(conditions[1..], c, t);
      assert Upsert(conditions, c)[1..] == Upsert(conditions[1..], c);
    } else if conditions != [] {
      assert Upsert(conditions, c)[1..] == conditions[1..];
    }
  }

  /** The status is left alone exactly when the condition is already there as it would be written. */
  lemma {:induction false} UnchangedMeansPresent(conditions: seq<Condition>, c: Condition)
    ensures Upsert(conditions, c) == conditions <==> Find(conditions, c.ctype) == Some(c)
  {
    if conditions != [] && conditions[0].ctype != c.ctype {
      UnchangedMeansPresent(conditions[1..], c);
      assert Upsert(conditions, c)[1..] == Upsert(conditions[1..], c);
      assert [conditions[0]] + conditions[1..] == conditions;
    } else if conditions != [] {
      assert Upsert(conditions, c)[0] == c;
      assert [conditions[0]] + conditions[1..] == conditions;
    }
  }
}
