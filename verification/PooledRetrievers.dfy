/** The RetrieverPool object (src/app/retrieval/pool.py): its fields, the sections its methods run under the lock, and
    retrieve and close as one thread runs them while the others do as they please in between. */
module PooledRetrievers {
  import opened Models
  import opened RetrieverPool
  import opened PoolGuarantees

  datatype Outcome = Answered | QueryRaised | Raised | Blocked

  class Retrievers {
    const size: nat
    var slots: nat
    var idle: seq<Entry>
    var all: seq<Entry>
    var closed: bool
    // around the pool: where every thread stands, how many more will come, and what was built and closed
    var callers: seq<Caller>
    var coming: nat
    var built: nat
    var log: seq<Entry>
    ghost var failures: nat // factory calls and queries that raised

    function State(): Pool
      reads this
    {
      Pool(size, slots, idle, all, closed, callers, built, log)
    }

    ghost predicate Valid()
      reads this
    {
      Inv(State())
    }

    constructor (size: nat, coming: nat)
      requires size > 0
      ensures Valid() && State() == Fresh(size) && this.coming == coming
    {
      this.size, slots, idle, all, closed := size, size, [], [], false;
      callers, this.coming, built, log, failures := [], coming, 0, [], 0;
      new;
      FreshIsSound(size);
    }

    // ---- one step each ----

    /** A new thread calls retrieve or close. */
    method Arrive(closing: bool) returns (t: nat)
      requires Valid()
      modifies `callers
      ensures Valid() && t == |old(callers)|
      ensures State() == Apply(old(State()), if closing then CallClose else CallRetrieve)
    {
      hide Inv;
      StepKeeps(State(), if closing then CallClose else CallRetrieve);
      t := |callers|;
      callers := callers + [if closing then CloseStart else WaitSlot];
    }

    method AcquireSlot(t: nat)
      requires Valid() && CanAdvance(State(), t)
      requires callers[t].WaitSlot? || (callers[t].Drain? && callers[t].got < size)
      modifies this
      ensures Valid() && State() == Advanced(old(State()), t, true)
      ensures failures == old(failures) && coming == old(coming)
    {
      hide Inv;
      StepKeeps(State(), Advance(t, true));
      slots := slots - 1;
      callers := callers[t := if callers[t].WaitSlot? then Check else Drain(callers[t].got + 1)];
    }

    /** The locked section of _acquire. */
    method CheckOut(t: nat)
      requires Valid() && t < |callers| && callers[t].Check?
      modifies this
      ensures Valid() && State() == Advanced(old(State()), t, true)
      ensures failures == old(failures) && coming == old(coming)
    {
      hide Inv;
      StepKeeps(State(), Advance(t, true));
      if closed {
        callers := callers[t := GiveSlot(true)];
      } else if idle != [] {
        var last := idle[|idle| - 1];
        idle := idle[..|idle| - 1];
        callers := callers[t := Using(last)];
      } else {
        callers := callers[t := Build];
      }
    }

    method CallFactory(t: nat, ok: bool)
      requires Valid() && t < |callers| && callers[t].Build?
      modifies this
      ensures Valid() && State() == Advanced(old(State()), t, ok)
      ensures failures == old(failures) + (if ok then 0 else 1) && coming == old(coming)
    {
      hide Inv;
      StepKeeps(State(), Advance(t, ok));
      if ok {
        callers := callers[t := Register(built)];
        built := built + 1;
      } else {
        callers := callers[t := GiveSlot(true)];
        failures := failures + 1;
      }
    }

    method Enlist(t: nat)
      requires Valid() && t < |callers| && callers[t].Register?
      modifies this
      ensures Valid() && State() == Advanced(old(State()), t, true)
      ensures failures == old(failures) && coming == old(coming)
    {
      hide Inv;
      StepKeeps(State(), Advance(t, true));
      all := all + [callers[t].entry];
      callers := callers[t := Using(callers[t].entry)];
    }

    /** The end of a query, raised (`ok` is false) or not, and the locked section of _release in its finally. */
    method PutBack(t: nat, ok: bool)
      requires Valid() && t < |callers| && callers[t].Using?
      modifies this
      ensures Valid() && State() == Advanced(old(State()), t, ok)
      ensures failures == old(failures) + (if ok then 0 else 1) && coming == old(coming)
    {
      hide Inv;
      StepKeeps(State(), Advance(t, ok));
      if !ok {
        failures := failures + 1;
      }
      if !closed {
        idle := idle + [callers[t].entry];
      }
      callers := callers[t := GiveSlot(!ok)];
    }

    method ReleaseSlot(t: nat)
      requires Valid() && t < |callers| && callers[t].GiveSlot?
      modifies this
      ensures Valid() && State() == Advanced(old(State()), t, true)
      ensures failures == old(failures) && coming == old(coming)
    {
      hide Inv;
      StepKeeps(State(), Advance(t, true));
      slots := slots + 1;
      callers := callers[t := Finished(callers[t].raising)];
    }

    /** The first locked section of close. */
    method SetClosed(t: nat)
      requires Valid() && t < |callers| && callers[t].CloseStart?
      modifies this
      ensures Valid() && State() == Advanced(old(State()), t, true)
      ensures failures == old(failures) && coming == old(coming)
    {
      hide Inv;
      StepKeeps(State(), Advance(t, true));
      if closed {
        callers := callers[t := Finished(false)];
        return;
      }
      closed := true;
      callers := callers[t := Drain(0)];
    }

    /** The second locked section of close. */
    method TakeAll(t: nat)
      requires Valid() && t < |callers| && callers[t].Drain? && callers[t].got >= size
      modifies this
      ensures Valid() && State() == Advanced(old(State()), t, true)
      ensures failures == old(failures) && coming == old(coming)
    {
      hide Inv;
      StepKeeps(State(), Advance(t, true));
      callers := callers[t := Closing(all)];
      all, idle := [], [];
    }

    method CloseNext(t: nat)
      requires Valid() && t < |callers| && callers[t].Closing?
      modifies this
      ensures Valid() && State() == Advanced(old(State()), t, true)
      ensures failures == old(failures) && coming == old(coming)
    {
      hide Inv;
      StepKeeps(State(), Advance(t, true));
      var left := callers[t].left;
      if left == [] {
        callers := callers[t := Closed];
      } else {
        log := log + [left[0]];
        callers := callers[t := Closing(left[1..])];
      }
    }

    method Step(t: nat, ok: bool)
      requires Valid() && CanAdvance(State(), t)
      modifies this
      ensures Valid() && State() == Advanced(old(State()), t, ok) && failures >= old(failures) && coming == old(coming)
    {
      hide Inv;
      match callers[t]
      case WaitSlot => AcquireSlot(t);
      case Check => CheckOut(t);
      case Build => CallFactory(t, ok);
      case Register(_) => Enlist(t);
      case Using(_) => PutBack(t, ok);
      case GiveSlot(_) => ReleaseSlot(t);
      case CloseStart => SetClosed(t);
      case Drain(got) =>
        if got < size { AcquireSlot(t); } else { TakeAll(t); }
      case Closing(_) => CloseNext(t);
      case _ => assert false;
    }

    // ---- one thread among the others ----

    /** What thread t can count on while others act. */
    twostate predicate Kept(t: nat)
      reads this
    {
      && Valid() && t < |old(callers)| <= |callers| && callers[t] == old(callers)[t]
      && (old(closed) ==> closed)
      && coming <= old(coming) && failures >= old(failures)
    }

    /** One move by someone else, a newcomer included; `moved` is false when no other thread can move. */
    method OtherMoves(t: nat) returns (moved: bool)
      requires Valid() && t < |callers|
      modifies this
      ensures Kept(t)
      ensures moved ==> coming < old(coming) || (coming == old(coming) && WorkLeft(State()) < old(WorkLeft(State())))
      ensures !moved ==> State() == old(State()) && forall u: nat :: u != t ==> !CanAdvance(State(), u)
    {
      hide Inv, WorkLeft, CanAdvance;
      var arrives: bool := *;
      if coming > 0 && arrives {
        var closing: bool := *;
        var newcomer := Arrive(closing);
        coming := coming - 1;
        return true;
      }
      if u :| 0 <= u < |callers| && u != t && CanAdvance(State(), u) {
        var ok: bool := *;
        EveryStepIsProgress(State(), u, ok);
        LeavesAlone(State(), t, u, ok);
        Step(u, ok);
        return true;
      }
      forall u: nat | u != t
        ensures !CanAdvance(State(), u)
      {
        OutOfRange(State(), u);
      }
      return false;
    }

    /** The other threads take any number of steps. */
    method Others(t: nat)
      requires Valid() && t < |callers|
      modifies this
      ensures Kept(t)
    {
      hide Inv, WorkLeft, CanAdvance;
      var go: bool := *;
      while go
        invariant Kept(t)
        decreases coming, WorkLeft(State()), go
      {
        var moved := OtherMoves(t);
        var more: bool := *;
        go := moved && more;
      }
    }

    /** _slots.acquire() waiting for its turn: others act until a slot is free, or nobody else can move. */
    method AwaitSlot(t: nat) returns (free: bool)
      requires Valid() && t < |callers|
      modifies this
      ensures Kept(t)
      ensures free <==> slots > 0
      ensures !free ==> forall u: nat :: u != t ==> !CanAdvance(State(), u)
    {
      hide Inv, WorkLeft, CanAdvance;
      Others(t);
      while slots == 0
        invariant Kept(t)
        decreases coming, WorkLeft(State())
      {
        var moved := OtherMoves(t);
        if !moved {
          return false;
        }
      }
      return true;
    }

    /** close, whatever finite number of new callers comes while it waits: it returns, having closed every retriever
        ever built, none of them in use, unless another close was there first. */
    method Close(t: nat)
      requires Valid() && t < |callers| && callers[t].CloseStart?
      modifies this
      ensures Valid() && closed && t < |callers|
      ensures callers[t] == Finished(false) || callers[t].Closed?
      ensures callers[t].Closed? ==> forall e: nat :: e in log <==> e < built
      ensures callers[t].Closed? ==> forall u: nat, e :: u < |callers| ==> !Holds(callers[u], e)
    {
      hide Inv, WorkLeft, CanAdvance, Holds;
      Others(t);
      SetClosed(t);
      if callers[t].Finished? {
        return;
      }
      for got := 0 to size
        invariant Valid() && closed && t < |callers| && callers[t] == Drain(got)
      {
        var free := AwaitSlot(t);
        if !free {
          DrainNeverStarves(State(), t);
          assert false;
        }
        DrainCanTake(State(), t);
        AcquireSlot(t);
      }
      Others(t);
      TakeAll(t);
      while callers[t].left != []
        invariant Valid() && closed && t < |callers| && callers[t].Closing?
        decreases |callers[t].left|
      {
        Others(t);
        CloseNext(t);
      }
      CloseNext(t);
      AfterClose(State(), t);
    }

    /** _acquire: a retriever of one's own, or the slot given back and an exception. */
    method Acquire(t: nat) returns (free: bool)
      requires Valid() && t < |callers| && callers[t].WaitSlot?
      modifies this
      ensures Valid() && t < |callers|
      ensures free ==> callers[t].Using? || callers[t] == Finished(true)
      ensures !free ==> callers[t] == WaitSlot && closed && slots == 0
      ensures old(closed) ==> closed && !callers[t].Using?
      ensures failures >= old(failures) && (free && !callers[t].Using? ==> closed || failures > old(failures))
    {
      hide Inv, WorkLeft, CanAdvance;
      free := AwaitSlot(t);
      if !free {
        if !closed {
          SomeoneElseCanMove(State(), t);
          assert false;
        }
        return;
      }
      WaiterCanTake(State(), t);
      AcquireSlot(t);
      Others(t);
      CheckOut(t);
      if callers[t].Build? {
        Others(t);
        var ok: bool := *;
        CallFactory(t, ok);
        if ok {
          Others(t);
          Enlist(t);
        }
      }
      if callers[t].GiveSlot? {
        Others(t);
        ReleaseSlot(t);
      }
    }

    /** retrieve: the slot taken is given back on every path, a raising query's included; it raises only on a closed
        pool, after a failed factory call, or because its own query raised; a pool closed before the call never runs the
        query; and only a closed pool makes a caller wait for ever. */
    method Retrieve(t: nat) returns (outcome: Outcome)
      requires Valid() && t < |callers| && callers[t].WaitSlot?
      modifies this
      ensures Valid() && t < |callers|
      ensures outcome.Answered? ==> callers[t] == Finished(false)
      ensures outcome.QueryRaised? ==> callers[t] == Finished(true) && failures > old(failures)
      ensures outcome.Raised? ==> callers[t] == Finished(true) && (closed || failures > old(failures))
      ensures outcome.Blocked? ==> callers[t] == WaitSlot && closed && slots == 0
      ensures old(closed) ==> outcome.Raised? || outcome.Blocked?
    {
      hide Inv, WorkLeft, CanAdvance;
      var free := Acquire(t);
      if !free {
        return Blocked;
      }
      if callers[t].Finished? {
        return Raised;
      }
      Others(t);
      var ok: bool := *;
      PutBack(t, ok);
      Others(t);
      ReleaseSlot(t);
      return if ok then Answered else QueryRaised;
    }
  }

  /** A size below one is refused. */
  method Create(size: int, coming: nat) returns (pool: Option<Retrievers>)
    ensures pool.None? <==> size < 1
    ensures pool.Some? ==>
      fresh(pool.value) && pool.value.Valid() && pool.value.State() == Fresh(size) && pool.value.coming == coming
  {
    if size < 1 {
      return None;
    }
    var made := new Retrievers(size, coming);
    return Some(made);
  }

  lemma LeavesAlone(p: Pool, t: nat, u: nat, ok: bool)
    requires CanAdvance(p, u) && t < |p.callers| && t != u
    ensures |Advanced(p, u, ok).callers| == |p.callers| && Advanced(p, u, ok).callers[t] == p.callers[t]
    ensures p.closed ==> Advanced(p, u, ok).closed
  {
  }

  lemma OutOfRange(p: Pool, u: nat)
    ensures CanAdvance(p, u) ==> u < |p.callers|
  {
  }

  lemma DrainCanTake(p: Pool, t: nat)
    requires t < |p.callers| && p.callers[t].Drain? && p.slots > 0
    ensures CanAdvance(p, t)
  {
  }

  lemma WaiterCanTake(p: Pool, t: nat)
    requires t < |p.callers| && p.callers[t].WaitSlot? && p.slots > 0
    ensures CanAdvance(p, t)
  {
  }

  lemma DrainNeverStarves(p: Pool, t: nat)
    requires Inv(p) && t < |p.callers| && p.callers[t].Drain? && p.callers[t].got < p.size
    requires p.slots == 0
    ensures exists u: nat :: u != t && CanAdvance(p, u)
  {
    hide Inv;
    forall u
      ensures !Drained(p, u)
    {
      if Drained(p, u) {
        BlockedByDrain(p, t, u);
      }
    }
    var u := SomeoneIsMidCall(p);
    assert CanAdvance(p, u);
  }

  lemma SomeoneElseCanMove(p: Pool, t: nat)
    requires Inv(p) && t < |p.callers| && p.callers[t].WaitSlot? && p.slots == 0 && !p.closed
    ensures exists u: nat :: u != t && CanAdvance(p, u)
  {
    hide Sum, OnceOk, UseOk;
    forall u
      ensures !Drained(p, u)
    {
      if Drained(p, u) {
        WeightIn(p, u, Closers);
      }
    }
    var u := SomeoneIsMidCall(p);
    assert CanAdvance(p, u);
  }

  lemma AfterClose(p: Pool, t: nat)
    requires Inv(p) && t < |p.callers| && p.callers[t].Closed?
    ensures forall e: nat :: e in p.log <==> e < p.built
    ensures forall u: nat, e :: u < |p.callers| ==> !Holds(p.callers[u], e)
  {
    hide Inv;
    forall e: nat
      ensures e in p.log <==> e < p.built
    {
      EntryOnce(p, e);
      if e < p.built {
        AllClosed(p, t, e);
      }
    }
    forall u: nat, e | u < |p.callers|
      ensures !Holds(p.callers[u], e)
    {
      NobodyHolds(p, t, u, e);
    }
  }

  lemma NobodyHolds(p: Pool, t: nat, u: nat, e: Entry)
    requires Inv(p) && t < |p.callers| && p.callers[t].Closed? && u < |p.callers|
    ensures !Holds(p.callers[u], e)
  {
    hide Sum, OnceOk, UseOk;
    AloneWithAllSlots(p, t);
    WeightIn(p, u, Registering);
    WeightIn(p, u, Holding);
  }
}
