/** What reconciles of a Policy achieve: a truthful Reconciled, and when they stop writing. */
module PolicyTheorems {
  import opened Collections
  import opened Model
  import opened Effects
  import opened ControllerHelper
  import opened S3InstanceHelper
  import opened PolicyContent
  import opened Protocol
  import opened Reports
  import opened ObjectDeletion
  import opened PolicyPlan
  import BucketTheorems

  lemma ClientIgnoresOpening(w: World, id: Id)
    requires HasPolicy(w, id)
    ensures
      var r := w.resources[id];
      ClientFor(WithResource(w, id, Started(r)), id.namespace, r.spec.s3InstanceRef)
        == ClientFor(w, id.namespace, r.spec.s3InstanceRef)
  {
    var r := w.resources[id];
    if InstanceOf(r.spec.s3InstanceRef, id.namespace) != id {
      ClientReadsInstanceOnly(w, WithResource(w, id, Started(r)), id.namespace, r.spec.s3InstanceRef);
    }
  }

  /** A live Policy whose client is available and whose document can be compared with the one stored, if any. */
  ghost predicate Succeeds(w: World, id: Id, json: string -> bool) {
    && HasPolicy(w, id) && !w.resources[id].deleting
    && var r := w.resources[id];
       && ClientFor(w, id.namespace, r.spec.s3InstanceRef).Client?
       && (r.spec.policy in w.policies ==> json(r.spec.content) && json(w.policies[r.spec.policy]))
  }

  /** The document is written unless the stored one matches. */
  predicate Writes(w: World, u: Spec)
    requires u.PolicySpec?
  {
    u.policy !in w.policies || !Matching(u.content, w.policies[u.policy])
  }

  lemma PassPlan(w: World, id: Id, cfg: Config, json: string -> bool)
    requires Succeeds(w, id, json)
    ensures
      var r := w.resources[id];
      var calls := if Writes(w, r.spec) then PutCalls(r.spec) else [];
      ReconcilePlan(w, id, cfg, json)
        == After(StartCalls(id, r), After(calls, Succeeded(id, Started(r), cfg)))
  {
    ClientIgnoresOpening(w, id);
  }

  /** A pass writes the document if it must, the resource's own status, and nothing else. */
  lemma PassEffect(w: World, id: Id, cfg: Config, json: string -> bool)
    requires Succeeds(w, id, json)
    ensures
      var u := w.resources[id].spec;
      var x := Exec(w, ReconcilePlan(w, id, cfg, json).actions);
      && x == w.(policies := if Writes(w, u) then w.policies[u.policy := u.content] else w.policies,
                 resources := x.resources)
      && ReconcilePlan(w, id, cfg, json).outcome == Finished(cfg.reconcilePeriod)
  {
    var r := w.resources[id];
    var s := Started(r);
    var v := WithResource(w, id, s);
    PassPlan(w, id, cfg, json);
    StartCallsEffect(w, id);
    var calls := if Writes(w, r.spec) then PutCalls(r.spec) else [];
    var done := Succeeded(id, s, cfg).actions;
    ExecAppend(w, StartCalls(id, r), calls + done);
    ExecAppend(v, calls, done);
    PutEffect(v, r.spec);
    BucketTheorems.ReportOnly(Exec(v, calls), id, s, Reconciled, Success, None, cfg.reconcilePeriod);
  }

  lemma PutEffect(v: World, u: Spec)
    requires u.PolicySpec?
    ensures Exec(v, if Writes(v, u) then PutCalls(u) else [])
         == v.(policies := if Writes(v, u) then v.policies[u.policy := u.content] else v.policies)
  {
    if Writes(v, u) { ExecOne(v, PutCalls(u)[0]); }
  }

  /**
   * The fixed point: with a stored document equal to the spec's up to insignificant whitespace, a reconcile writes
   * none exactly when the spec's is free of the characters marshalling escapes.
   */
  lemma FixedPointExactly(w: World, id: Id, cfg: Config, json: string -> bool)
    requires Succeeds(w, id, json)
    requires
      var u := w.resources[id].spec;
      u.policy in w.policies && SameUpToWhitespace(u.content, w.policies[u.policy])
    ensures
      var u := w.resources[id].spec;
      (forall a :: a in ReconcilePlan(w, id, cfg, json).actions ==> !TouchesBackend(a)) <==> Unescaped(u.content)
  {
    var r := w.resources[id];
    SameMatchesExactly(r.spec.content, w.policies[r.spec.policy]);
    PassPlan(w, id, cfg, json);
    var actions := ReconcilePlan(w, id, cfg, json).actions;
    if Writes(w, r.spec) {
      assert PutCalls(r.spec)[0] in actions by {
        assert actions[|StartCalls(id, r)|] == PutCalls(r.spec)[0];
      }
    }
  }

  /** The stored document is the spec's up to insignificant whitespace. */
  ghost predicate Stores(w: World, u: Spec)
    requires u.PolicySpec?
  {
    u.policy in w.policies && SameUpToWhitespace(u.content, w.policies[u.policy])
  }

  function AfterPass(w: World, id: Id, cfg: Config, json: string -> bool): World {
    Exec(w, ReconcilePlan(w, id, cfg, json).actions)
  }

  /** The pass writes nothing to the backend. */
  ghost predicate Silent(w: World, id: Id, cfg: Config, json: string -> bool) {
    forall a :: a in ReconcilePlan(w, id, cfg, json).actions ==> !TouchesBackend(a)
  }

  /** The world before a pass: the Policy can be reconciled to `u`. */
  ghost predicate ReadyFor(w: World, id: Id, json: string -> bool, u: Spec) {
    Succeeds(w, id, json) && w.resources[id].spec == u
  }

  /** Between two passes the backend may reformat the document it stores, nothing more. */
  ghost predicate Between(w: World, v: World, id: Id, cfg: Config, json: string -> bool, u: Spec)
    requires u.PolicySpec?
  {
    ReadyFor(v, id, json, u) && (Stores(AfterPass(w, id, cfg, json), u) ==> Stores(v, u))
  }

  lemma SilentAndStored(w: World, id: Id, cfg: Config, json: string -> bool, u: Spec)
    requires u.PolicySpec? && Unescaped(u.content) && ReadyFor(w, id, json, u) && Stores(w, u)
    ensures Silent(w, id, cfg, json) && Stores(AfterPass(w, id, cfg, json), u)
  {
    FixedPointExactly(w, id, cfg, json);
    PassEffect(w, id, cfg, json);
    SameMatchesExactly(u.content, w.policies[u.policy]);
  }

  /**
   * A pass that stores the document is followed by passes that never write again, as long as the backend keeps
   * the document up to insignificant whitespace and it is free of the characters marshalling escapes.
   */
  lemma {:induction false} NeverWritesAgain(ws: seq<World>, id: Id, cfg: Config, json: string -> bool, u: Spec)
    requires u.PolicySpec? && Unescaped(u.content) && ws != []
    requires Stores(AfterPass(ws[0], id, cfg, json), u)
    requires forall i :: 0 <= i < |ws| - 1 ==> Between(ws[i], ws[i + 1], id, cfg, json, u)
    ensures forall i :: 0 < i < |ws| ==> Silent(ws[i], id, cfg, json)
    ensures Stores(AfterPass(ws[|ws| - 1], id, cfg, json), u)
  {
    if |ws| > 1 {
      var n := |ws| - 1;
      NeverWritesAgain(ws[..n], id, cfg, json, u);
      assert ws[..n][n - 1] == ws[n - 1];
      assert Between(ws[n - 1], ws[n - 1 + 1], id, cfg, json, u);
      SilentAndStored(ws[n], id, cfg, json, u);
      forall i | 0 < i < |ws| ensures Silent(ws[i], id, cfg, json) {
        if i < n { assert ws[..n][i] == ws[i]; }
      }
    }
  }

  /**
   * After a pass the stored document is the spec's up to insignificant whitespace exactly when the pass wrote it,
   * or the one it found is free of escaped characters.
   */
  lemma PassStores(w: World, id: Id, cfg: Config, json: string -> bool)
    requires Succeeds(w, id, json)
    ensures
      var u := w.resources[id].spec;
      Stores(AfterPass(w, id, cfg, json), u) <==> Writes(w, u) || Unescaped(w.policies[u.policy])
  {
    var u := w.resources[id].spec;
    PassEffect(w, id, cfg, json);
    CompactExactly(u.content, u.content);
    if !Writes(w, u) {
      MatchingSameExactly(u.content, w.policies[u.policy]);
    }
  }

  // ---------- the Reconciled reason ----------

  lemma FailureNoReport(w: World, id: Id, cfg: Config, json: string -> bool)
    requires HasPolicy(w, id) && !w.resources[id].deleting && !Succeeds(w, id, json)
    ensures NoReport(ReconcilePlan(w, id, cfg, json).actions, id)
  {
    var r := w.resources[id];
    var v := WithResource(w, id, Started(r));
    ClientIgnoresOpening(w, id);
    BucketTheorems.StartNoReport(id, r);
    var body := HandleReconciliationPlan(v, id, Started(r), cfg, json);
    assert NoReport(body.actions, id);
    BucketTheorems.NoReportAppend(StartCalls(id, r), body.actions, id);
  }

  /**
   * Under any failures: when a reconcile writes the reason Reconciled, the stored document is the spec's or matches it,
   * and is the spec's up to insignificant whitespace exactly when this reconcile wrote it or the one found
   * is free of escaped characters.
   */
  lemma ReconciledIsTruthful(w: World, id: Id, cfg: Config, json: string -> bool, done: seq<Action>, i: nat)
    requires HasPolicy(w, id) && !w.resources[id].deleting
    requires Follows(done, ReconcilePlan(w, id, cfg, json).actions, id, FailureReasons(w.resources[id]))
    requires i < |done| && ReportsReconciled(done[i], id)
    ensures
      var u := w.resources[id].spec;
      var x := Exec(w, done[..i + 1]);
      && u.policy in x.policies
      && (x.policies[u.policy] == u.content || Matching(u.content, x.policies[u.policy]))
      && (Stores(x, u) <==> Writes(w, u) || Unescaped(w.policies[u.policy]))
  {
    var r := w.resources[id];
    var p := ReconcilePlan(w, id, cfg, json);
    if !Succeeds(w, id, json) {
      FailureNoReport(w, id, cfg, json);
      NoReportFollows(done, p.actions, id, FailureReasons(r));
      assert false;
    } else {
      var calls := if Writes(w, r.spec) then PutCalls(r.spec) else [];
      PassPlan(w, id, cfg, json);
      BucketTheorems.StartNoReport(id, r);
      AfterNoReport(calls, Succeeded(id, Started(r), cfg), id);
      AfterNoReport(StartCalls(id, r), After(calls, Succeeded(id, Started(r), cfg)), id);
      ReportEnds(done, p, id, FailureReasons(r), i);
      PassEffect(w, id, cfg, json);
      PassStores(w, id, cfg, json);
    }
  }

  // ---------- deletion ----------

  /**
   * A fault-free deletion removes the finalizer, and the policy exactly when the instance enables deletion of policies;
   * nothing else in the backend changes.
   */
  lemma DeletionExactly(w: World, id: Id, cfg: Config, json: string -> bool)
    requires HasPolicy(w, id) && w.resources[id].deleting && Operator in w.resources[id].finalizers
    requires Served(w, id.namespace, w.resources[id].spec.s3InstanceRef)
    ensures
      var u := w.resources[id].spec;
      var enabled := w.resources[InstanceOf(u.s3InstanceRef, id.namespace)].spec.policyDeletionEnabled;
      var x := Exec(w, ReconcilePlan(w, id, cfg, json).actions);
      && x == w.(policies := if enabled then w.policies - {u.policy} else w.policies, resources := x.resources)
      && (id in x.resources ==> Operator !in x.resources[id].finalizers)
  {
    var r := w.resources[id];
    var v := WithResource(w, id, Started(r));
    var call := DeletePolicy(r.spec.policy);
    ClientIgnoresOpening(w, id);
    ClientExactly(w, id.namespace, r.spec.s3InstanceRef);
    StartCallsEffect(w, id);
    var enabled := w.resources[InstanceOf(r.spec.s3InstanceRef, id.namespace)].spec.policyDeletionEnabled;
    DeletionPlanIs(w, id, cfg, json, enabled);
    ExecAppend(w, StartCalls(id, r), if enabled then [call, RemoveFinalizer(id)] else [RemoveFinalizer(id)]);
    DeletionCallsEffect(v, id, r.spec.policy, enabled);
  }

  lemma DeletionPlanIs(w: World, id: Id, cfg: Config, json: string -> bool, enabled: bool)
    requires HasPolicy(w, id) && w.resources[id].deleting && Operator in w.resources[id].finalizers
    requires
      var client := ClientFor(w, id.namespace, w.resources[id].spec.s3InstanceRef);
      client.Client? && client.instance.policyDeletionEnabled == enabled
    ensures
      var r := w.resources[id];
      ReconcilePlan(w, id, cfg, json).actions == StartCalls(id, r) +
        if enabled then [DeletePolicy(r.spec.policy), RemoveFinalizer(id)] else [RemoveFinalizer(id)]
  {
    ClientIgnoresOpening(w, id);
  }

  lemma DeletionCallsEffect(v: World, id: Id, policy: string, enabled: bool)
    requires id in v.resources
    ensures
      var x := Exec(v, if enabled then [DeletePolicy(policy), RemoveFinalizer(id)] else [RemoveFinalizer(id)]);
      && x == v.(policies := if enabled then v.policies - {policy} else v.policies, resources := x.resources)
      && (id in x.resources ==> Operator !in x.resources[id].finalizers)
  {
    var call := DeletePolicy(policy);
    if enabled {
      assert [call] + [RemoveFinalizer(id)] == [call, RemoveFinalizer(id)];
      ExecSnoc(v, [call], RemoveFinalizer(id));
      ExecOne(v, call);
      FinalizerGoes(Apply(v, call), id);
    } else {
      ExecOne(v, RemoveFinalizer(id));
      FinalizerGoes(v, id);
    }
  }

  lemma FinalizerGoes(x: World, id: Id)
    requires id in x.resources
    ensures
      var z := Apply(x, RemoveFinalizer(id));
      z == x.(resources := z.resources) && (id in z.resources ==> Operator !in z.resources[id].finalizers)
  {
  }

  // ---------- the protocol ----------

  lemma PolicyLiveEntitled(w: World, id: Id, r: Resource, cfg: Config, json: string -> bool)
    requires id in w.resources && w.resources[id] == r && r.spec.PolicySpec? && !r.deleting && Operator in r.finalizers
    ensures Guarded(w, HandleReconciliationPlan(w, id, r, cfg, json).actions, EntitledFor(id, cfg))
  {
    PlainGuarded(w, HandleReconciliationPlan(w, id, r, cfg, json).actions, id, cfg);
  }

  lemma PolicyDeletionEntitled(v: World, id: Id, s: Resource, cfg: Config)
    requires id in v.resources && v.resources[id] == s && s.spec.PolicySpec? && s.deleting && Operator in s.finalizers
    ensures Guarded(v, DeletionPlan(v, id, s, cfg, DeletePolicy(s.spec.policy)).actions, EntitledFor(id, cfg))
  {
    var call := DeletePolicy(s.spec.policy);
    assert OnOwnObject(s, call);
    assert Apply(v, call).policies == v.policies - {s.spec.policy};
    DeletionEntitled(v, id, s, cfg, call);
  }

  lemma PolicyPlanEntitled(w: World, id: Id, cfg: Config, json: string -> bool)
    requires HasPolicy(w, id)
    ensures Guarded(w, ReconcilePlan(w, id, cfg, json).actions, EntitledFor(id, cfg))
  {
    var r := w.resources[id];
    var s := Started(r);
    var v := WithResource(w, id, s);
    StartEntitled(w, id, cfg);
    if !Blocked(r) {
      StartCallsEffect(w, id);
      var body: seq<Action>;
      if r.deleting {
        PolicyDeletionEntitled(v, id, s, cfg);
        body := DeletionPlan(v, id, s, cfg, DeletePolicy(r.spec.policy)).actions;
      } else {
        PolicyLiveEntitled(v, id, s, cfg, json);
        body := HandleReconciliationPlan(v, id, s, cfg, json).actions;
      }
      assert ReconcilePlan(w, id, cfg, json).actions == StartCalls(id, r) + body;
      GuardedAppend(w, StartCalls(id, r), body, EntitledFor(id, cfg));
    }
  }

  /** Every reconcile of a Policy, interrupted anywhere, keeps the protocol. */
  lemma PolicyKeepsProtocol(w: World, id: Id, cfg: Config, json: string -> bool, done: seq<Action>)
    requires HasPolicy(w, id)
    requires Follows(done, ReconcilePlan(w, id, cfg, json).actions, id, FailureReasons(w.resources[id]))
    ensures Guarded(w, done, EntitledFor(id, cfg))
  {
    PolicyPlanEntitled(w, id, cfg, json);
    InterruptedEntitled(w, done, ReconcilePlan(w, id, cfg, json).actions, id, cfg, FailureReasons(w.resources[id]));
  }
}
