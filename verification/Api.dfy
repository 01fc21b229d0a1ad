/**
 * The Kubernetes API server and the S3 backend as the controllers see them.
 * Every call may fail: it then either had no effect, or had its effect while the answer was lost.
 */
module Api {
  import opened Collections
  import opened Model
  import opened Effects
  import opened PasswordGenerator

  class Cluster {
    var w: World
    ghost const start: World
    ghost var log: seq<Action>   // the calls that took effect, in order
    ghost var faults: nat        // how many calls failed for reasons outside the model
    ghost var listings: nat      // how many listings of the buckets were answered

    ghost predicate Valid()
      reads this
    {
      w == Exec(start, log)
    }

    constructor (initial: World)
      ensures Valid() && w == initial && log == [] && faults == 0
    {
      w := initial;
      start := initial;
      log := [];
      faults := 0;
      listings := 0;
    }

    /** A call that changes the world. `None` is success; `Refused` an answer the world calls for. */
    method Do(a: Action) returns (e: Option<Error>)
      requires Valid()
      modifies this`w, this`log, this`faults
      ensures Valid()
      ensures e.None? ==>
        Permitted(old(w), a) && log == old(log) + [a] && w == Apply(old(w), a) && faults == old(faults)
      ensures e == Some(Refused) ==>
        !Permitted(old(w), a) && log == old(log) && w == old(w) && faults == old(faults)
      ensures Permitted(old(w), a) ==> Made(old(log), old(faults), [a], e)
      ensures e.Some? && e != Some(Refused) ==>
        && faults > old(faults)
        && (|| (log == old(log) && w == old(w))
            || (Permitted(old(w), a) && log == old(log) + [a] && w == Apply(old(w), a)))
    {
      var fault: bool := *;
      var applied: bool := *;
      var code: int := *;
      var permitted := Permitted(w, a);
      if permitted && (!fault || applied) {
        ExecSnoc(start, log, a);
        w := Apply(w, a);
        log := log + [a];
      }
      if fault {
        faults := faults + 1;
        return Some(Transient(code));
      }
      return if permitted then None else Some(Refused);
    }

    /** A call that only reads; its answer, when it comes, is read off `w`. */
    method Ask() returns (e: Option<Error>)
      requires Valid()
      modifies this`faults
      ensures Valid()
      ensures e.None? ==> faults == old(faults)
      ensures e.Some? ==> faults > old(faults)
    {
      var fault: bool := *;
      var code: int := *;
      if fault {
        faults := faults + 1;
        return Some(Transient(code));
      }
      return None;
    }

    /** The call that lists the buckets: it tells whether the backend answers. */
    method ListBuckets() returns (e: Option<Error>)
      requires Valid()
      modifies this`faults, this`listings
      ensures Valid()
      ensures e.None? ==> faults == old(faults) && listings == old(listings) + 1
      ensures e.Some? ==> faults > old(faults) && listings == old(listings)
    {
      e := Ask();
      if e.None? {
        listings := listings + 1;
      }
    }

    /** A failure outside both servers: the random source failed before a key was drawn. */
    ghost method CountFault(tape: Tape)
      requires Valid() && |tape| < DrawsOf(20)
      modifies this`faults
      ensures Valid() && faults == old(faults) + 1
    {
      faults := faults + 1;
    }

    /** All of `calls` were made, or a failed call stopped them part of the way. */
    ghost predicate Made(log0: seq<Action>, faults0: nat, calls: seq<Action>, e: Option<Error>)
      reads this
    {
      && log0 <= log
      && (e.None? ==> log == log0 + calls && faults == faults0)
      && (e.Some? ==> faults0 < faults && log[|log0|..] <= calls)
    }

    lemma MadeThen(
      log0: seq<Action>, first: seq<Action>, faults0: nat, calls: seq<Action>, e: Option<Error>)
      requires Made(log0 + first, faults0, calls, e)
      ensures Made(log0, faults0, first + calls, e)
    {
      assert log[|log0|..] == first + log[|log0 + first|..];
      assert log0 + first + calls == log0 + (first + calls);
    }

    lemma MadeStopped(
      log0: seq<Action>, calls: seq<Action>, rest: seq<Action>, faults0: nat, e: Option<Error>)
      requires Made(log0, faults0, calls, e) && e.Some?
      ensures Made(log0, faults0, calls + rest, e)
    {
    }

    lemma MadePrefix(
      log0: seq<Action>, calls: seq<Action>, all: seq<Action>, faults0: nat, e: Option<Error>)
      requires Made(log0, faults0, calls, e) && e.Some? && calls <= all
      ensures Made(log0, faults0, all, e)
    {
    }

    /**
     * The calls made since `log0` are those of a reconcile with plan `p`: interrupted if some call failed,
     * all of them otherwise.
     */
    ghost predicate Ran(log0: seq<Action>, faults0: nat, p: Plan, id: Id, reasons: set<Reason>, out: Outcome)
      reads this
    {
      && log0 <= log
      && faults0 <= faults
      && Follows(log[|log0|..], p.actions, id, reasons)
      && (faults == faults0 ==> log == log0 + p.actions && out == p.outcome)
      && (faults0 < faults ==> out == Errored)
    }

    lemma RanMore(
      log0: seq<Action>, faults0: nat, p: Plan, id: Id, fewer: set<Reason>, more: set<Reason>, out: Outcome)
      requires Ran(log0, faults0, p, id, fewer, out) && fewer <= more
      ensures Ran(log0, faults0, p, id, more, out)
    {
    }

    /** The world a reconcile leaves is the one its calls lead to: its plan's, when no call failed. */
    lemma RanLeadsTo(
      log0: seq<Action>, faults0: nat, p: Plan, id: Id, reasons: set<Reason>, out: Outcome)
      requires Valid() && Ran(log0, faults0, p, id, reasons, out)
      ensures w == Exec(Exec(start, log0), log[|log0|..])
      ensures faults == faults0 ==> w == Exec(Exec(start, log0), p.actions)
    {
      ExecAppend(start, log0, log[|log0|..]);
      assert log == log0 + log[|log0|..];
    }

    /** A reconcile that made the calls `first` without failure and then ran `p` ran `After(first, p)`. */
    lemma RanAfter(
      log0: seq<Action>, first: seq<Action>, faults0: nat, p: Plan, id: Id, reasons: set<Reason>, out: Outcome)
      requires Ran(log0 + first, faults0, p, id, reasons, out)
      ensures Ran(log0, faults0, After(first, p), id, reasons, out)
    {
      var tail := log[|log0 + first|..];
      FollowsAfter(first, tail, p.actions, id, reasons);
      assert log[|log0|..] == first + tail;
      assert log0 + (first + p.actions) == log0 + first + p.actions;
    }

    /** A reconcile stopped by a failed call, after a prefix `done` of its plan and a report of the failure. */
    lemma RanFailed(
      log0: seq<Action>, done: seq<Action>, faults0: nat, p: Plan, id: Id, reasons: set<Reason>, out: Outcome)
      requires faults0 < faults && out == Errored && done <= p.actions
      requires
        || log == log0 + done
        || (log != [] && log[..|log| - 1] == log0 + done && ReportsFailure(log[|log| - 1], id, reasons))
      ensures Ran(log0, faults0, p, id, reasons, out)
    {
      var recent := log[|log0|..];
      if log == log0 + done {
        assert recent == done;
      } else {
        assert log == log0 + done + [log[|log| - 1]];
        assert recent == done + [log[|log| - 1]];
        assert recent[..|recent| - 1] == done;
        assert recent[|recent| - 1] == log[|log| - 1];
      }
    }
  }
}
