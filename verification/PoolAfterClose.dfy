/** What becomes of a retrieve that has not been served when the pool is closed, over all schedules. */
module PoolAfterClose {
  import opened RetrieverPool
  import opened PoolGuarantees

  /** No thread can move any more. */
  ghost predicate Quiet(p: Pool) {
    forall u: nat :: !CanAdvance(p, u)
  }

  /** However the threads are scheduled, and whoever else calls, when nobody can move any more call u has raised. */
  ghost predicate RaisesOnEverySchedule(p: Pool, u: nat) {
    forall steps, q :: Reaches(p, steps, q) && Quiet(q) ==> u < |q.callers| && q.callers[u] == Finished(true)
  }

  // ---- a call that has its slot ----

  /** Turned away, or about to be: the slot is in hand, so nothing is waited for. */
  predicate TurnedAway(c: Caller) {
    ShutOut(c) && !c.WaitSlot?
  }

  lemma TurnedAwayStep(p: Pool, step: Step, u: nat)
    requires p.closed && Enabled(p, step) && u < |p.callers| && TurnedAway(p.callers[u])
    ensures Apply(p, step).closed && u < |Apply(p, step).callers| && TurnedAway(Apply(p, step).callers[u])
  {
  }

  lemma {:induction false} StaysTurnedAway(p: Pool, steps: seq<Step>, q: Pool, u: nat)
    requires p.closed && Reaches(p, steps, q) && u < |p.callers| && TurnedAway(p.callers[u])
    ensures u < |q.callers| && TurnedAway(q.callers[u])
    decreases |steps|
  {
    hide Apply, Enabled, TurnedAway;
    if steps != [] {
      TurnedAwayStep(p, steps[0], u);
      StaysTurnedAway(Apply(p, steps[0]), steps[1..], q, u);
    }
  }

  lemma QuietIsFinished(q: Pool, u: nat)
    requires Quiet(q) && u < |q.callers| && TurnedAway(q.callers[u])
    ensures q.callers[u] == Finished(true)
  {
    assert !CanAdvance(q, u);
  }

  // ---- a call that waits for one ----

  /** From every state the threads there are can be run until nobody can move. */
  lemma {:induction false} CanBeRunToQuiet(p: Pool) returns (steps: seq<Step>, q: Pool)
    requires Inv(p)
    ensures Reaches(p, steps, q) && Quiet(q)
    decreases WorkLeft(p)
  {
    hide Inv, WorkLeft, Advanced, CanAdvance;
    if u: nat :| CanAdvance(p, u) {
      StepKeeps(p, Advance(u, true));
      EveryStepIsProgress(p, u, true);
      var more;
      more, q := CanBeRunToQuiet(Advanced(p, u, true));
      steps := [Advance(u, true)] + more;
      assert steps[1..] == more;
    } else {
      steps, q := [], p;
    }
  }

  lemma DrainsOne(p: Pool, t: nat, u: nat) returns (q: Pool)
    requires Inv(p) && p.slots > 0 && t < |p.callers| && p.callers[t].Drain? && p.callers[t].got < p.size
    requires u < |p.callers| && p.callers[u].WaitSlot?
    ensures Reaches(p, [Advance(t, true)], q) && Inv(q) && q.size == p.size && |q.callers| == |p.callers|
    ensures q.callers[t] == Drain(p.callers[t].got + 1) && q.callers[u].WaitSlot?
  {
    hide Inv;
    q := Advanced(p, t, true);
    StepKeeps(p, Advance(t, true));
    assert [Advance(t, true)][1..] == [];
    assert Reaches(q, [], q);
  }

  lemma FreesASlot(p: Pool, t: nat, u: nat) returns (steps: seq<Step>, q: Pool)
    requires Inv(p) && t < |p.callers| && p.callers[t].Drain? && p.callers[t].got < p.size
    requires u < |p.callers| && p.callers[u].WaitSlot?
    ensures Reaches(p, steps, q) && Inv(q) && q.slots > 0 && q.size == p.size && |q.callers| == |p.callers|
    ensures q.callers[t] == p.callers[t] && q.callers[u].WaitSlot?
  {
    hide Inv;
    if p.slots > 0 {
      steps, q := [], p;
    } else {
      forall v
        ensures !Drained(p, v)
      {
        if Drained(p, v) {
          BlockedByDrain(p, t, v);
        }
      }
      var v := SomeoneIsMidCall(p);
      steps, q := RunOut(p, v);
      RunKeeps(p, steps, q);
    }
  }

  /** A closer can get all the slots before a waiting call gets one. */
  lemma {:induction false} CanDrainFirst(p: Pool, t: nat, u: nat) returns (steps: seq<Step>, q: Pool)
    requires Inv(p) && t < |p.callers| && p.callers[t].Drain?
    requires u < |p.callers| && p.callers[u].WaitSlot?
    ensures Reaches(p, steps, q) && Inv(q) && u < |q.callers| && q.callers[u].WaitSlot? && Drained(q, t)
    decreases p.size - p.callers[t].got
  {
    hide Inv, Reaches;
    if p.callers[t].got >= p.size {
      steps, q := [], p;
      assert Reaches(p, [], p) by { NoSteps(p); }
    } else {
      var first, mid := FreesASlot(p, t, u);
      var next := DrainsOne(mid, t, u);
      var more;
      more, q := CanDrainFirst(next, t, u);
      ReachesTransitive(mid, [Advance(t, true)], next, more, q);
      ReachesTransitive(p, first, mid, [Advance(t, true)] + more, q);
      steps := first + ([Advance(t, true)] + more);
    }
  }

  lemma NoSteps(p: Pool)
    ensures Reaches(p, [], p)
  {
  }

  lemma SomeCloser(p: Pool) returns (t: nat)
    requires Inv(p) && p.closed
    ensures t < |p.callers| && (p.callers[t].Drain? || Drained(p, t))
  {
    hide Sum, OnceOk, UseOk;
    t := SomeContributor(p.callers, Closers);
  }

  /** A call of a closed pool that has no slot yet can be left waiting for ever. */
  lemma AWaitingCallCanBeLost(p: Pool, u: nat) returns (steps: seq<Step>, q: Pool)
    requires Inv(p) && p.closed && u < |p.callers| && p.callers[u].WaitSlot?
    ensures Reaches(p, steps, q) && Quiet(q) && u < |q.callers| && q.callers[u].WaitSlot?
  {
    hide Inv, Reaches, Quiet, Drained;
    var t := SomeCloser(p);
    var first, mid := [], p;
    NoSteps(p);
    if !Drained(p, t) {
      first, mid := CanDrainFirst(p, t, u);
    }
    var more;
    more, q := CanBeRunToQuiet(mid);
    WaitsForever(mid, more, q, t, u);
    ReachesTransitive(p, first, mid, more, q);
    steps := first + more;
  }

  /** The class documents that a retrieve of a closed pool raises. A call that has not been served yet does so on every
      schedule exactly when it already has its slot; one still waiting for a slot can be left waiting for ever. */
  lemma RetrieveAfterCloseRaisesIff(p: Pool, u: nat)
    requires Reachable(p) && p.closed && u < |p.callers| && ShutOut(p.callers[u])
    ensures RaisesOnEverySchedule(p, u) <==> !p.callers[u].WaitSlot?
  {
    hide Reachable, Reaches, Quiet;
    ReachableIsSound(p);
    if p.callers[u].WaitSlot? {
      var steps, q := AWaitingCallCanBeLost(p, u);
    } else {
      forall steps, q | Reaches(p, steps, q) && Quiet(q)
        ensures u < |q.callers| && q.callers[u] == Finished(true)
      {
        StaysTurnedAway(p, steps, q, u);
        QuietIsFinished(q, u);
      }
    }
  }

  /** So no retrieve called on a closed pool, however early, is guaranteed to return. */
  lemma ACallAfterCloseIsNeverSafe(p: Pool)
    requires Reachable(p) && p.closed
    ensures !RaisesOnEverySchedule(Apply(p, CallRetrieve), |p.callers|)
  {
    hide Reachable, RaisesOnEverySchedule;
    var q := Apply(p, CallRetrieve);
    CallIsReachable(p);
    RetrieveAfterCloseRaisesIff(q, |p.callers|);
  }

  lemma CallIsReachable(p: Pool)
    requires Reachable(p)
    ensures Reachable(Apply(p, CallRetrieve))
  {
    hide Fresh;
    var size: nat, steps :| size > 0 && Reaches(Fresh(size), steps, p);
    var q := Apply(p, CallRetrieve);
    assert Reaches(q, [], q);
    assert [CallRetrieve][1..] == [];
    assert Reaches(p, [CallRetrieve], q);
    ReachesTransitive(Fresh(size), steps, p, [CallRetrieve], q);
  }
}
