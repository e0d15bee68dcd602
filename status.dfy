/** The part of the status manager (status.StatusManager) that the CCS
    controller drives: the Degraded condition it sets and clears and the
    flag recording whether the custom resource exists. */
module Status {
  import opened Operator

  /** What SetDegraded records: the reason and the check that failed (which
      fixes the message the controller passes). */
  datatype Degradation = Degradation(reason: Reason, gate: Gate)

  /** One call into the status manager. */
  datatype StatusCall =
    | DegradedSet(reason: Reason, gate: Gate)
    | DegradedCleared
    | CRFound
    | CRNotFound

  /** The status manager's observable state. */
  datatype StatusView = StatusView(degraded: Option<Degradation>, crExists: bool)

  const Initial: StatusView := StatusView(None, false)

  /** The effect of one call. */
  function Step(v: StatusView, c: StatusCall): StatusView
  {
    match c
    case DegradedSet(reason, gate) => v.(degraded := Some(Degradation(reason, gate)))
    case DegradedCleared => v.(degraded := None)
    case CRFound => v.(crExists := true)
    case CRNotFound => v.(crExists := false)
  }

  /** The state reached from v by the calls cs, in order. */
  function Replay(v: StatusView, cs: seq<StatusCall>): StatusView
    decreases |cs|
  {
    if cs == [] then v else Replay(Step(v, cs[0]), cs[1..])
  }

  /** Does some call in cs set or clear the Degraded condition? */
  predicate WritesDegraded(cs: seq<StatusCall>)
    decreases |cs|
  {
    cs != [] && (cs[0].DegradedSet? || cs[0].DegradedCleared? || WritesDegraded(cs[1..]))
  }

  /** Does some call in cs report the custom resource found or not found? */
  predicate WritesCrExists(cs: seq<StatusCall>)
    decreases |cs|
  {
    cs != [] && (cs[0].CRFound? || cs[0].CRNotFound? || WritesCrExists(cs[1..]))
  }

  lemma {:induction false} ReplayConcat(v: StatusView, a: seq<StatusCall>, b: seq<StatusCall>)
    ensures Replay(v, a + b) == Replay(Replay(v, a), b)
    decreases |a|
  {
    if a == [] {
      assert a + b == b;
    } else {
      assert (a + b)[0] == a[0];
      assert (a + b)[1..] == a[1..] + b;
      ReplayConcat(Step(v, a[0]), a[1..], b);
    }
  }

  /** Every call overwrites one field: a field that cs writes ends the same
      whatever the starting state, and a field it does not write is kept. */
  lemma {:induction false} ReplayOverwrites(u: StatusView, w: StatusView, cs: seq<StatusCall>)
    ensures WritesDegraded(cs) ==> Replay(u, cs).degraded == Replay(w, cs).degraded
    ensures !WritesDegraded(cs) ==> Replay(u, cs).degraded == u.degraded
    ensures WritesCrExists(cs) ==> Replay(u, cs).crExists == Replay(w, cs).crExists
    ensures !WritesCrExists(cs) ==> Replay(u, cs).crExists == u.crExists
    decreases |cs|
  {
    if cs != [] {
      ReplayOverwrites(Step(u, cs[0]), Step(w, cs[0]), cs[1..]);
    }
  }

  /** Replaying the status calls of a pass a second time changes nothing:
      the status part of a reconcile is idempotent. */
  lemma {:induction false} ReplayIdempotent(v: StatusView, cs: seq<StatusCall>)
    ensures Replay(Replay(v, cs), cs) == Replay(v, cs)
  {
    ReplayOverwrites(Replay(v, cs), v, cs);
  }

  /** The last write decides: after cs + [c] the changed field holds c's value. */
  lemma {:induction false} ReplayLast(v: StatusView, cs: seq<StatusCall>, c: StatusCall)
    ensures Replay(v, cs + [c]) == Step(Replay(v, cs), c)
  {
    ReplayConcat(v, cs, [c]);
  }

  class StatusManager {
    var degraded: Option<Degradation>
    var crExists: bool
    /** Every call made since construction. */
    ghost var calls: seq<StatusCall>

    function View(): StatusView
      reads this
    {
      StatusView(degraded, crExists)
    }

    ghost predicate Valid()
      reads this
    {
      View() == Replay(Initial, calls)
    }

    constructor ()
      ensures Valid() && calls == [] && View() == Initial
    {
      degraded := None;
      crExists := false;
      calls := [];
    }

    method SetDegraded(reason: Reason, gate: Gate)
      requires Valid()
      modifies this
      ensures Valid() && calls == old(calls) + [DegradedSet(reason, gate)]
      ensures View() == Step(old(View()), DegradedSet(reason, gate))
    {
      ReplayLast(Initial, calls, DegradedSet(reason, gate));
      degraded := Some(Degradation(reason, gate));
      calls := calls + [DegradedSet(reason, gate)];
    }

    method ClearDegraded()
      requires Valid()
      modifies this
      ensures Valid() && calls == old(calls) + [DegradedCleared]
      ensures View() == Step(old(View()), DegradedCleared)
    {
      ReplayLast(Initial, calls, DegradedCleared);
      degraded := None;
      calls := calls + [DegradedCleared];
    }

    method OnCRFound()
      requires Valid()
      modifies this
      ensures Valid() && calls == old(calls) + [CRFound]
      ensures View() == Step(old(View()), CRFound)
    {
      ReplayLast(Initial, calls, CRFound);
      crExists := true;
      calls := calls + [CRFound];
    }

    method OnCRNotFound()
      requires Valid()
      modifies this
      ensures Valid() && calls == old(calls) + [CRNotFound]
      ensures View() == Step(old(View()), CRNotFound)
    {
      ReplayLast(Initial, calls, CRNotFound);
      crExists := false;
      calls := calls + [CRNotFound];
    }
  }
}
