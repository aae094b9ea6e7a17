/** What RetrieverPool promises in every state of every interleaving. */
module PoolGuarantees {
  import opened RetrieverPool

  lemma {:induction false} RunKeeps(p: Pool, steps: seq<Step>, q: Pool)
    requires Inv(p) && Reaches(p, steps, q)
    ensures Inv(q)
    decreases |steps|
  {
    hide Inv, Apply;
    if steps != [] {
      StepKeeps(p, steps[0]);
      RunKeeps(Apply(p, steps[0]), steps[1..], q);
    }
  }

  lemma FreshIsSound(size: nat)
    requires size > 0
    ensures Inv(Fresh(size))
  {
    var p := Fresh(size);
    forall e: nat
      ensures OnceOk(p, e) && UseOk(p, e) && DrainOk(p, e)
    {
    }
  }

  ghost predicate Reachable(p: Pool) {
    exists size: nat, steps :: size > 0 && Reaches(Fresh(size), steps, p)
  }

  lemma ReachableIsSound(p: Pool)
    requires Reachable(p)
    ensures Inv(p)
  {
    hide Inv, Reaches, Fresh;
    var size: nat, steps :| size > 0 && Reaches(Fresh(size), steps, p);
    FreshIsSound(size);
    RunKeeps(Fresh(size), steps, p);
  }

  lemma {:induction false} ReachesTransitive(p: Pool, first: seq<Step>, q: Pool, rest: seq<Step>, r: Pool)
    requires Reaches(p, first, q) && Reaches(q, rest, r)
    ensures Reaches(p, first + rest, r)
    decreases |first|
  {
    hide Apply, Enabled;
    if first == [] {
      assert first + rest == rest;
    } else {
      ReachesTransitive(Apply(p, first[0]), first[1..], q, rest, r);
      assert (first + rest)[1..] == first[1..] + rest;
    }
  }

  // ---- counting facts ----

  lemma {:induction false} CountIn(entries: seq<Entry>, e: Entry)
    ensures Count(entries, e) > 0 <==> e in entries
  {
    if entries != [] {
      CountIn(entries[1..], e);
    }
  }

  lemma {:induction false} CountTwice(entries: seq<Entry>, i: nat, j: nat)
    requires i < j < |entries| && entries[i] == entries[j]
    ensures Count(entries, entries[i]) >= 2
  {
    if i == 0 {
      CountIn(entries[1..], entries[i]);
      assert entries[1..][j - 1] == entries[j];
    } else {
      CountTwice(entries[1..], i - 1, j - 1);
    }
  }

  lemma WeightIn(p: Pool, t: nat, tally: Tally)
    requires t < |p.callers|
    ensures Weight(p.callers[t], tally) <= Sum(p.callers, tally)
  {
    SumUpdate(p.callers, t, p.callers[t], tally);
  }

  lemma TwoIn(p: Pool, t: nat, u: nat, tally: Tally)
    requires t < |p.callers| && u < |p.callers| && t != u
    ensures Weight(p.callers[t], tally) + Weight(p.callers[u], tally) <= Sum(p.callers, tally)
  {
    hide Sum;
    Removed(p, t, tally);
    WeightIn(p.(callers := p.callers[t := Finished(false)]), u, tally);
  }

  // ---- conservation and exclusivity ----

  predicate Holds(c: Caller, e: Entry) {
    c == Register(e) || c == Using(e)
  }

  predicate Exclusive(p: Pool, t: nat, u: nat, e: Entry) {
    t < |p.callers| && u < |p.callers| && Holds(p.callers[t], e) && Holds(p.callers[u], e) ==> t == u && e !in p.idle
  }

  predicate Distinct(entries: seq<Entry>) {
    forall i, j :: 0 <= i < j < |entries| ==> entries[i] != entries[j]
  }

  lemma EntryOnce(p: Pool, e: Entry)
    requires Inv(p)
    ensures Count(p.all, e) <= 1 && Count(p.idle, e) <= 1 && Count(p.log, e) <= 1
    ensures e in p.log ==> e < p.built && e !in p.all && Sum(p.callers, TransitOf(e)) == 0
  {
    hide CountsOk, Sum, Count;
    assert OnceOk(p, e) && UseOk(p, e);
    CountIn(p.all, e);
    CountIn(p.log, e);
  }

  lemma OneHolder(p: Pool, t: nat, u: nat, e: Entry)
    requires Inv(p) && t < |p.callers| && u < |p.callers|
    requires Holds(p.callers[t], e) && Holds(p.callers[u], e)
    ensures t == u && e !in p.idle && e !in p.log
  {
    hide CountsOk, Sum, Count;
    assert OnceOk(p, e) && UseOk(p, e);
    CountIn(p.idle, e);
    CountIn(p.log, e);
    WeightIn(p, t, UseOf(e));
    WeightIn(p, t, TransitOf(e));
    WeightIn(p, u, UseOf(e));
    WeightIn(p, u, TransitOf(e));
    if t != u {
      TwoIn(p, t, u, UseOf(e));
      TwoIn(p, t, u, TransitOf(e));
    }
  }

  /** Every slot is free, held by one retrieving thread, or drained by the closer; a retriever is idle or in the
      hands of one thread, never both and never two; no more than `size` are ever built; and a slot is never
      released beyond the bound, factory failures and rejected calls included. */
  lemma SlotsAndRetrieversAreConserved(p: Pool)
    requires Reachable(p)
    ensures p.slots + Sum(p.callers, Slots(p.size)) == p.size
    ensures p.built + Sum(p.callers, Building) <= p.size
    ensures Distinct(p.idle) && Distinct(p.all)
    ensures forall t: nat, u: nat, e :: Exclusive(p, t, u, e)
    ensures forall t: nat :: t < |p.callers| && p.callers[t].GiveSlot? ==> p.slots < p.size
  {
    hide Count, Sum, OnceOk, UseOk, Reachable;
    ReachableIsSound(p);
    forall i: nat, j: nat | i < j < |p.all|
      ensures p.all[i] != p.all[j]
    {
      if p.all[i] == p.all[j] { CountTwice(p.all, i, j); EntryOnce(p, p.all[i]); }
    }
    forall i: nat, j: nat | i < j < |p.idle|
      ensures p.idle[i] != p.idle[j]
    {
      if p.idle[i] == p.idle[j] { CountTwice(p.idle, i, j); EntryOnce(p, p.idle[i]); }
    }
    forall t: nat, u: nat, e
      ensures Exclusive(p, t, u, e)
    {
      if t < |p.callers| && u < |p.callers| && Holds(p.callers[t], e) && Holds(p.callers[u], e) {
        OneHolder(p, t, u, e);
      }
    }
    forall t: nat | t < |p.callers| && p.callers[t].GiveSlot?
      ensures p.slots < p.size
    {
      WeightIn(p, t, Slots(p.size));
    }
  }

  // ---- shutdown ----

  /** No connection is closed, or waiting to be closed, while a thread has its retriever. */
  lemma NoRetrieverIsClosedInUse(p: Pool, t: nat, u: nat, e: Entry)
    requires Reachable(p) && t < |p.callers| && u < |p.callers|
    requires Holds(p.callers[t], e)
    ensures e !in p.log
    ensures p.callers[u].Closing? ==> e !in p.callers[u].left
  {
    hide Count, Sum, Reachable, CountsOk;
    ReachableIsSound(p);
    OneHolder(p, t, t, e);
    if p.callers[u].Closing? {
      assert OnceOk(p, e) && UseOk(p, e);
      CountIn(p.callers[u].left, e);
      WeightIn(p, u, TransitOf(e));
      WeightIn(p, t, UseOf(e));
      TwoIn(p, t, u, TransitOf(e));
    }
  }

  /** No retriever is ever closed twice, and once a close has finished, each one ever built has been closed:
      idle, in use, or still inside the factory when the flag was set. */
  lemma EveryRetrieverIsClosedOnce(p: Pool, t: nat)
    requires Reachable(p)
    ensures Distinct(p.log) && forall e :: e in p.log ==> e < p.built
    ensures t < |p.callers| && p.callers[t].Closed? ==> forall e: nat :: e in p.log <==> e < p.built
  {
    hide Count, Sum, OnceOk, UseOk, Reachable;
    ReachableIsSound(p);
    forall i: nat, j: nat | i < j < |p.log|
      ensures p.log[i] != p.log[j]
    {
      if p.log[i] == p.log[j] { CountTwice(p.log, i, j); EntryOnce(p, p.log[i]); }
    }
    forall e: nat
      ensures e in p.log ==> e < p.built
      ensures t < |p.callers| && p.callers[t].Closed? && e < p.built ==> e in p.log
    {
      EntryOnce(p, e);
      if t < |p.callers| && p.callers[t].Closed? && e < p.built {
        AllClosed(p, t, e);
      }
    }
  }

  lemma AllClosed(p: Pool, t: nat, e: Entry)
    requires Inv(p) && t < |p.callers| && p.callers[t].Closed? && e < p.built
    ensures e in p.log
  {
    hide Sum, Count;
    assert OnceOk(p, e);
    AloneWithAllSlots(p, t);
    AloneWithEntry(p, t, e);
    CountIn(p.all, e);
    CountIn(p.log, e);
  }

  // ---- progress ----

  predicate UnfinishedClose(c: Caller) {
    c.CloseStart? || c.Drain? || c.Closing?
  }

  /** Someone is between getting and giving back a slot. */
  predicate MidCall(c: Caller) {
    c.Check? || c.Build? || c.Register? || c.Using? || c.GiveSlot?
  }

  /** While the slots are all taken and no closer has them all, some thread in mid-call holds one, and it can move. */
  lemma SomeoneIsMidCall(p: Pool) returns (u: nat)
    requires Inv(p) && p.slots == 0
    requires forall t :: !Drained(p, t)
    ensures u < |p.callers| && MidCall(p.callers[u])
  {
    hide Sum, OnceOk, UseOk;
    if Sum(p.callers, Closers) == 0 {
      u := SomeContributor(p.callers, Slots(p.size));
      WeightIn(p, u, Closers);
    } else {
      var t := SomeContributor(p.callers, Closers);
      assert !Drained(p, t) && DrainOk(p, t);
      Removed(p, t, Slots(p.size));
      Removed(p, t, Closers);
      var rest := p.callers[t := Finished(false)];
      u := SomeContributor(rest, Slots(p.size));
      WeightIn(p.(callers := rest), u, Closers);
    }
  }

  /** No deadlock: while some close is unfinished, some thread can take a step. */
  lemma AnUnfinishedCloseCanProceed(p: Pool, t: nat)
    requires Reachable(p) && t < |p.callers| && UnfinishedClose(p.callers[t])
    ensures exists u: nat :: CanAdvance(p, u)
  {
    hide Sum, OnceOk, UseOk, CountsOk, Reachable;
    ReachableIsSound(p);
    if CanAdvance(p, t) {
    } else if u :| Drained(p, u) {
      BlockedByDrain(p, t, u);
    } else {
      var u := SomeoneIsMidCall(p);
      assert CanAdvance(p, u);
    }
  }

  /** Two closers are never draining at once. */
  lemma BlockedByDrain(p: Pool, t: nat, u: nat)
    requires Inv(p) && t < |p.callers| && p.callers[t].Drain? && Drained(p, u)
    ensures t == u
  {
    hide Sum, OnceOk, UseOk;
    if t != u {
      TwoIn(p, t, u, Closers);
    }
  }

  function WorkLeft(p: Pool): nat {
    Sum(p.callers, Work(p.size))
  }

  lemma WorkStep(p: Pool, t: nat, ok: bool)
    requires DrainOk(p, t) && |p.all| <= p.size && CanAdvance(p, t)
    ensures WorkLeft(Advanced(p, t, ok)) < WorkLeft(p)
  {
    hide Sum;
    TallyMoves(p, t, ok, Work(p.size));
  }

  /** Every step of every thread brings the whole pool closer to being finished. */
  lemma EveryStepIsProgress(p: Pool, t: nat, ok: bool)
    requires Inv(p) && CanAdvance(p, t)
    ensures WorkLeft(Advanced(p, t, ok)) < WorkLeft(p)
  {
    hide Sum, OnceOk, UseOk, DrainOk, WorkLeft;
    assert DrainOk(p, t);
    WorkStep(p, t, ok);
  }

  predicate OnlyAdvances(steps: seq<Step>) {
    forall i :: 0 <= i < |steps| ==> steps[i].Advance?
  }

  /** Finitely many callers take finitely many steps: no schedule is longer than the work left. */
  lemma {:induction false} SchedulesAreFinite(p: Pool, steps: seq<Step>, q: Pool)
    requires Inv(p) && Reaches(p, steps, q) && OnlyAdvances(steps)
    ensures |steps| + WorkLeft(q) <= WorkLeft(p)
    decreases |steps|
  {
    hide Inv, Advanced, CanAdvance, WorkLeft;
    if steps != [] {
      assert steps[0].Advance?;
      StepKeeps(p, steps[0]);
      EveryStepIsProgress(p, steps[0].t, steps[0].ok);
      SchedulesAreFinite(Apply(p, steps[0]), steps[1..], q);
    }
  }

  /** However the threads are scheduled, when nobody can move any more every close has returned and every
      retriever ever built is closed if any close was ever called. */
  lemma WhenAllIsQuietEveryCloseIsDone(p: Pool)
    requires Reachable(p) && forall u: nat :: !CanAdvance(p, u)
    ensures forall t: nat :: t < |p.callers| ==> !UnfinishedClose(p.callers[t])
    ensures p.closed ==> forall e: nat :: e in p.log <==> e < p.built
  {
    hide Sum, OnceOk, UseOk, Reachable;
    forall t: nat | t < |p.callers|
      ensures !UnfinishedClose(p.callers[t])
    {
      if UnfinishedClose(p.callers[t]) {
        AnUnfinishedCloseCanProceed(p, t);
      }
    }
    if p.closed {
      ReachableIsSound(p);
      var t := SomeContributor(p.callers, Closers);
      EveryRetrieverIsClosedOnce(p, t);
    }
  }

  // ---- after the flag is set ----

  /** A call that has not looked at the flag yet, or has been turned away by it. */
  predicate ShutOut(c: Caller) {
    c.WaitSlot? || c.Check? || c == GiveSlot(true) || c == Finished(true)
  }

  lemma ShutOutStep(p: Pool, step: Step, t: nat)
    requires p.closed && Enabled(p, step) && t < |p.callers| && ShutOut(p.callers[t])
    ensures Apply(p, step).closed && t < |Apply(p, step).callers| && ShutOut(Apply(p, step).callers[t])
  {
  }

  /** A check made after the flag is set never yields a retriever: from then on the call stays shut out. */
  lemma {:induction false} NoRetrieverAfterTheFlag(p: Pool, steps: seq<Step>, q: Pool, t: nat)
    requires p.closed && Reaches(p, steps, q) && t < |p.callers| && ShutOut(p.callers[t])
    ensures q.closed && t < |q.callers| && ShutOut(q.callers[t])
    ensures forall e :: !Holds(q.callers[t], e)
    decreases |steps|
  {
    hide Apply, Enabled;
    if steps != [] {
      ShutOutStep(p, steps[0], t);
      NoRetrieverAfterTheFlag(Apply(p, steps[0]), steps[1..], q, t);
    }
  }

  lemma DrainedStep(p: Pool, step: Step, t: nat, u: nat)
    requires Inv(p) && Enabled(p, step) && Drained(p, t) && u < |p.callers| && p.callers[u].WaitSlot?
    ensures Drained(Apply(p, step), t) && u < |Apply(p, step).callers| && Apply(p, step).callers[u].WaitSlot?
  {
    hide Sum, OnceOk, UseOk;
    WeightIn(p, t, Slots(p.size));
  }

  lemma {:induction false} WaitsForever(p: Pool, steps: seq<Step>, q: Pool, t: nat, u: nat)
    requires Inv(p) && Reaches(p, steps, q) && Drained(p, t) && u < |p.callers| && p.callers[u].WaitSlot?
    ensures u < |q.callers| && q.callers[u].WaitSlot?
    decreases |steps|
  {
    hide Apply, Enabled, Inv;
    if steps != [] {
      DrainedStep(p, steps[0], t, u);
      StepKeeps(p, steps[0]);
      WaitsForever(Apply(p, steps[0]), steps[1..], q, t, u);
    }
  }

  function Remaining(c: Caller): nat {
    match c
    case WaitSlot => 6
    case Check => 5
    case Build => 4
    case Register(_) => 3
    case Using(_) => 2
    case GiveSlot(_) => 1
    case _ => 0
  }

  /** A call in the middle can be run to its end, and its slot comes back. */
  lemma {:induction false} RunOut(p: Pool, t: nat) returns (steps: seq<Step>, q: Pool)
    requires t < |p.callers| && MidCall(p.callers[t])
    ensures Reaches(p, steps, q) && q.slots > 0 && q.closed == p.closed && q.size == p.size
    ensures |q.callers| == |p.callers| && q.callers == p.callers[t := q.callers[t]] && q.callers[t].Finished?
    ensures p.closed && ShutOut(p.callers[t]) ==> q.callers[t] == Finished(true)
    decreases Remaining(p.callers[t])
  {
    var next := Advanced(p, t, true);
    assert CanAdvance(p, t);
    if p.callers[t].GiveSlot? {
      steps, q := [Advance(t, true)], next;
      assert Reaches(next, [], next);
      assert steps[1..] == [];
    } else {
      var more;
      more, q := RunOut(next, t);
      steps := [Advance(t, true)] + more;
      assert steps[1..] == more;
    }
  }

  lemma WaiterGetsIn(p: Pool, u: nat) returns (steps: seq<Step>, q: Pool)
    requires p.closed && u < |p.callers| && p.callers[u].WaitSlot? && p.slots > 0
    ensures Reaches(p, steps, q) && u < |q.callers| && q.callers[u] == Finished(true)
  {
    var next := Advanced(p, u, true);
    var more;
    more, q := RunOut(next, u);
    steps := [Advance(u, true)] + more;
    assert steps[1..] == more;
  }

  ghost predicate CanStillRaise(p: Pool, u: nat) {
    exists steps, q :: Reaches(p, steps, q) && u < |q.callers| && q.callers[u] == Finished(true)
  }

  /** A retrieve waiting for a slot of a closed pool can still raise, on some schedule, exactly as long as no closer
      has drained all the slots; from that moment on it waits for a slot that never comes. */
  lemma RetrieveAfterCloseCanRaiseIff(p: Pool, u: nat)
    requires Reachable(p) && p.closed && u < |p.callers| && p.callers[u].WaitSlot?
    ensures CanStillRaise(p, u) <==> forall t :: !Drained(p, t)
  {
    hide Sum, OnceOk, UseOk, CountsOk, Reachable, Reaches, Advanced;
    ReachableIsSound(p);
    if t :| Drained(p, t) {
      if CanStillRaise(p, u) {
        var steps, q :| Reaches(p, steps, q) && u < |q.callers| && q.callers[u] == Finished(true);
        WaitsForever(p, steps, q, t, u);
      }
    } else if p.slots > 0 {
      var steps, q := WaiterGetsIn(p, u);
    } else {
      var v := SomeoneIsMidCall(p);
      var first, mid := RunOut(p, v);
      var more, q := WaiterGetsIn(mid, u);
      ReachesTransitive(p, first, mid, more, q);
    }
  }

  /** Retrievers are reused last in, first out: the one a query has just given back is the next one taken. */
  lemma LastBackIsNextOut(p: Pool, t: nat, ok: bool, u: nat)
    requires CanAdvance(p, t) && p.callers[t].Using? && !p.closed
    requires u != t && u < |p.callers| && p.callers[u].Check?
    ensures
      var q := Advanced(p, t, ok);
      CanAdvance(q, u) && Advanced(q, u, true).callers[u] == p.callers[t] && Advanced(q, u, true).idle == p.idle
  {
    var q := Advanced(p, t, ok);
    assert q.idle[..|q.idle| - 1] == p.idle;
  }

  /** A closed pool keeps nothing for reuse. */
  lemma NothingIsKeptAfterClose(p: Pool, step: Step)
    requires p.closed && Enabled(p, step)
    ensures Apply(p, step).idle <= p.idle
  {
  }

  function Advances(p: Pool, t: nat, n: nat): Pool {
    if n == 0 then p
    else
      var q := Advances(p, t, n - 1);
      if CanAdvance(q, t) then Advanced(q, t, true) else q
  }

  /** A close works through its list from the front: first registered, first closed. */
  lemma {:induction false} ClosesInOrder(p: Pool, t: nat, n: nat)
    requires t < |p.callers| && p.callers[t].Closing? && n <= |p.callers[t].left|
    ensures
      var q, left := Advances(p, t, n), p.callers[t].left;
      && q.log == p.log + left[..n]
      && |q.callers| == |p.callers| && q.callers[t] == Closing(left[n..])
  {
    if n > 0 {
      ClosesInOrder(p, t, n - 1);
      var left := p.callers[t].left;
      assert left[n - 1..][1..] == left[n..] && left[..n] == left[..n - 1] + [left[n - 1]];
    }
  }

  /** The documented promise fails: one thread closes an unused pool of one, and a later retrieve never returns. */
  lemma RetrieveAfterCloseCanBlockForever()
    ensures exists p, u: nat ::
      Reachable(p) && p.closed && u < |p.callers| && p.callers[u].WaitSlot? && !CanStillRaise(p, u)
  {
    var p0 := Fresh(1);
    var p1 := Apply(p0, CallClose);
    var p2 := Apply(p1, Advance(0, true));
    var p3 := Apply(p2, Advance(0, true));
    var p4 := Apply(p3, CallRetrieve);
    var steps := [CallClose, Advance(0, true), Advance(0, true), CallRetrieve];
    Chain4(p0, steps, p1, p2, p3, p4);
    assert p4.callers == [Drain(1), WaitSlot];
    assert Reachable(p4);
    assert Drained(p4, 0);
    RetrieveAfterCloseCanRaiseIff(p4, 1);
  }

  lemma Chain4(p: Pool, steps: seq<Step>, p1: Pool, p2: Pool, p3: Pool, p4: Pool)
    requires |steps| == 4
    requires Enabled(p, steps[0]) && p1 == Apply(p, steps[0])
    requires Enabled(p1, steps[1]) && p2 == Apply(p1, steps[1])
    requires Enabled(p2, steps[2]) && p3 == Apply(p2, steps[2])
    requires Enabled(p3, steps[3]) && p4 == Apply(p3, steps[3])
    ensures Reaches(p, steps, p4)
  {
    hide Apply, Enabled;
    assert Reaches(p4, steps[4..], p4);
    assert steps[3..][1..] == steps[4..] && steps[3..][0] == steps[3];
    assert Reaches(p3, steps[3..], p4);
    assert steps[2..][1..] == steps[3..] && steps[2..][0] == steps[2];
    assert Reaches(p2, steps[2..], p4);
    assert steps[1..][1..] == steps[2..] && steps[1..][0] == steps[1];
    assert Reaches(p1, steps[1..], p4);
  }
}
