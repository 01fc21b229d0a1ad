/** Where in a plan the reason Reconciled is written. */
module Reports {
  import opened Collections
  import opened Model
  import opened Effects

  predicate ReportsReconciled(a: Action, id: Id) {
    a.SetCondition? && a.id == id && a.condition.reason == Reconciled
  }

  /** Success is reported last, and only by a reconcile that returns without error. */
  ghost predicate OnlyLastReports(p: Plan, id: Id) {
    forall i :: 0 <= i < |p.actions| && ReportsReconciled(p.actions[i], id) ==>
      i == |p.actions| - 1 && p.outcome.Finished?
  }

  ghost predicate NoReport(calls: seq<Action>, id: Id) {
    forall i :: 0 <= i < |calls| ==> !ReportsReconciled(calls[i], id)
  }

  lemma AfterNoReport(calls: seq<Action>, p: Plan, id: Id)
    requires NoReport(calls, id) && OnlyLastReports(p, id)
    ensures OnlyLastReports(After(calls, p), id)
  {
    var q := After(calls, p);
    forall i | 0 <= i < |q.actions| && ReportsReconciled(q.actions[i], id)
      ensures i == |q.actions| - 1 && q.outcome.Finished?
    {
      assert i >= |calls| by {
        assert forall j :: 0 <= j < |calls| ==> q.actions[j] == calls[j];
      }
      assert q.actions[i] == p.actions[i - |calls|];
    }
  }

  /** A reconcile that wrote the reason had carried out its whole plan by then. */
  lemma ReportEnds(done: seq<Action>, p: Plan, id: Id, reasons: set<Reason>, i: nat)
    requires Follows(done, p.actions, id, reasons) && Reconciled !in reasons && OnlyLastReports(p, id)
    requires i < |done| && ReportsReconciled(done[i], id)
    ensures done[..i + 1] == p.actions && p.outcome.Finished?
  {
    var n := if done <= p.actions then |done| else |done| - 1;
    assert done[..n] <= p.actions && i < n;
    assert done[i] == p.actions[i];
    assert done[..i + 1] == p.actions[..i + 1];
  }

  /** No prefix of the calls, and no report of a failure after it, writes the reason. */
  lemma NoReportFollows(done: seq<Action>, plan: seq<Action>, id: Id, reasons: set<Reason>)
    requires Follows(done, plan, id, reasons) && Reconciled !in reasons && NoReport(plan, id)
    ensures NoReport(done, id)
  {
    var n := if done <= plan then |done| else |done| - 1;
    assert done[..n] <= plan;
    forall i | 0 <= i < |done| ensures !ReportsReconciled(done[i], id) {
      if i < n { assert done[i] == plan[i]; }
    }
  }
}
