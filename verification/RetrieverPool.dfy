/** RetrieverPool (src/app/retrieval/pool.py): a counting semaphore, a lock and four fields, used by any number of
    threads at once. A thread is a program counter; one step is one semaphore operation, one locked section, one
    factory call or one connection close, and any thread may take the next one. */
module RetrieverPool {

  /** A retriever with its connections, named by the order the factory built them in. */
  type Entry = nat

  datatype Caller =
    // retrieve
    | WaitSlot                  // about to acquire a slot
    | Check                     // has a slot, about to look at _closed and _idle
    | Build                     // calling the factory
    | Register(entry: Entry)    // built, about to append to _all
    | Using(entry: Entry)       // running a query, then about to put the retriever back
    | GiveSlot(raising: bool)   // about to release its slot
    | Finished(raised: bool)
    // close
    | CloseStart
    | Drain(got: nat)           // holds `got` of the slots, wants them all
    | Closing(left: seq<Entry>) // holds every slot; connections still to close
    | Closed

  /** `built` and `log` are history: how many retrievers the factory made, and the close calls in order. */
  datatype Pool = Pool(size: nat, slots: nat, idle: seq<Entry>, all: seq<Entry>, closed: bool,
                       callers: seq<Caller>, built: nat, log: seq<Entry>)

  datatype Step = CallRetrieve | CallClose | Advance(t: nat, ok: bool)

  function Fresh(size: nat): Pool {
    Pool(size, size, [], [], false, [], 0, [])
  }

  predicate CanAdvance(p: Pool, t: nat) {
    t < |p.callers| &&
    match p.callers[t]
    case WaitSlot => p.slots > 0
    case Drain(got) => got < p.size ==> p.slots > 0
    case Finished(_) => false
    case Closed => false
    case _ => true
  }

  predicate Enabled(p: Pool, step: Step) {
    step.Advance? ==> CanAdvance(p, step.t)
  }

  /** The next step of thread t; `ok` says whether the factory call or the query it may be making succeeds. A query
      that raises still puts its retriever back and releases its slot on the way out. */
  function Advanced(p: Pool, t: nat, ok: bool): Pool
    requires CanAdvance(p, t)
  {
    var cs := p.callers;
    match cs[t]
    case WaitSlot => p.(slots := p.slots - 1, callers := cs[t := Check])
    case Check =>
      if p.closed then p.(callers := cs[t := GiveSlot(true)])
      else if p.idle != [] then p.(idle := p.idle[..|p.idle| - 1], callers := cs[t := Using(p.idle[|p.idle| - 1])])
      else p.(callers := cs[t := Build])
    case Build =>
      if ok then p.(callers := cs[t := Register(p.built)], built := p.built + 1)
      else p.(callers := cs[t := GiveSlot(true)])
    case Register(e) => p.(all := p.all + [e], callers := cs[t := Using(e)])
    case Using(e) => p.(idle := if p.closed then p.idle else p.idle + [e], callers := cs[t := GiveSlot(!ok)])
    case GiveSlot(raising) => p.(slots := p.slots + 1, callers := cs[t := Finished(raising)])
    case CloseStart =>
      if p.closed then p.(callers := cs[t := Finished(false)]) else p.(closed := true, callers := cs[t := Drain(0)])
    case Drain(got) =>
      if got < p.size then p.(slots := p.slots - 1, callers := cs[t := Drain(got + 1)])
      else p.(all := [], idle := [], callers := cs[t := Closing(p.all)])
    case Closing(left) =>
      if left == [] then p.(callers := cs[t := Closed])
      else p.(callers := cs[t := Closing(left[1..])], log := p.log + [left[0]])
    case _ => p
  }

  function Apply(p: Pool, step: Step): Pool
    requires Enabled(p, step)
  {
    match step
    case CallRetrieve => p.(callers := p.callers + [WaitSlot])
    case CallClose => p.(callers := p.callers + [CloseStart])
    case Advance(t, ok) => Advanced(p, t, ok)
  }

  /** The states an interleaving passes through, as a relation: `q` is reached from `p` by `steps`. */
  ghost predicate Reaches(p: Pool, steps: seq<Step>, q: Pool)
    decreases |steps|
  {
    if steps == [] then p == q
    else Enabled(p, steps[0]) && Reaches(Apply(p, steps[0]), steps[1..], q)
  }

  // ---- counting ----

  function Count(entries: seq<Entry>, e: Entry): nat {
    if entries == [] then 0 else (if entries[0] == e then 1 else 0) + Count(entries[1..], e)
  }

  lemma {:induction false} CountLast(entries: seq<Entry>, e: Entry)
    requires entries != []
    ensures Count(entries, e) == Count(entries[..|entries| - 1], e) + if entries[|entries| - 1] == e then 1 else 0
  {
    if |entries| > 1 {
      CountLast(entries[1..], e);
      assert entries[1..][..|entries| - 2] == entries[..|entries| - 1][1..];
    }
  }

  lemma CountAppend(entries: seq<Entry>, x: Entry, e: Entry)
    ensures Count(entries + [x], e) == Count(entries, e) + if x == e then 1 else 0
  {
    CountLast(entries + [x], e);
    assert (entries + [x])[..|entries|] == entries;
  }

  datatype Tally =
    | Slots(size: nat)
    | Checking
    | Building
    | Registering
    | Holding
    | UseOf(entry: Entry)
    | TransitOf(entry: Entry) // built but not registered yet, or taken out to be closed
    | Closers
    | Drainers
    | Work(size: nat)

  function Weight(c: Caller, tally: Tally): nat {
    match tally
    case Slots(size) =>
      (match c
       case Check => 1
       case Build => 1
       case Register(_) => 1
       case Using(_) => 1
       case GiveSlot(_) => 1
       case Drain(got) => got
       case Closing(_) => size
       case Closed => size
       case _ => 0)
    case Checking => if c.Check? then 1 else 0
    case Building => if c.Build? then 1 else 0
    case Registering => if c.Register? then 1 else 0
    case Holding => if c.Using? then 1 else 0
    case UseOf(e) => if c == Using(e) then 1 else 0
    case TransitOf(e) =>
      (match c
       case Register(x) => if x == e then 1 else 0
       case Closing(left) => Count(left, e)
       case _ => 0)
    case Closers => if c.Drain? || c.Closing? || c.Closed? then 1 else 0
    case Drainers => if c.Closing? || c.Closed? then 1 else 0
    case Work(size) =>
      (match c
       case WaitSlot => 6
       case Check => 5
       case Build => 4
       case Register(_) => 3
       case Using(_) => 2
       case GiveSlot(_) => 1
       case CloseStart => 2 * size + 4
       case Drain(got) => (if got < size then size - got else 0) + size + 3
       case Closing(left) => |left| + 1
       case _ => 0)
  }

  function Sum(cs: seq<Caller>, tally: Tally): nat {
    if cs == [] then 0 else Weight(cs[0], tally) + Sum(cs[1..], tally)
  }

  lemma {:induction false} SumUpdate(cs: seq<Caller>, t: nat, c: Caller, tally: Tally)
    requires t < |cs|
    ensures Sum(cs[t := c], tally) == Sum(cs, tally) - Weight(cs[t], tally) + Weight(c, tally)
    ensures Weight(cs[t], tally) <= Sum(cs, tally)
  {
    hide Weight;
    if t == 0 {
      assert cs[t := c][1..] == cs[1..];
    } else {
      SumUpdate(cs[1..], t - 1, c, tally);
      assert cs[t := c][1..] == cs[1..][t - 1 := c];
    }
  }

  lemma {:induction false} SumAppend(cs: seq<Caller>, c: Caller, tally: Tally)
    ensures Sum(cs + [c], tally) == Sum(cs, tally) + Weight(c, tally)
  {
    hide Weight;
    if cs == [] {
      assert (cs + [c])[1..] == [];
    } else {
      SumAppend(cs[1..], c, tally);
      assert (cs + [c])[1..] == cs[1..] + [c];
    }
  }

  /** A positive total has a positive contributor. */
  lemma {:induction false} SomeContributor(cs: seq<Caller>, tally: Tally) returns (t: nat)
    requires Sum(cs, tally) > 0
    ensures t < |cs| && Weight(cs[t], tally) > 0
  {
    hide Weight;
    if Weight(cs[0], tally) > 0 {
      t := 0;
    } else {
      var u := SomeContributor(cs[1..], tally);
      assert cs[1..][u] == cs[u + 1];
      t := u + 1;
    }
  }

  /** Checking, building, registering and using a retriever all take a slot. */
  lemma {:induction false} SlotHolders(cs: seq<Caller>, size: nat)
    ensures Sum(cs, Checking) + Sum(cs, Building) + Sum(cs, Registering) + Sum(cs, Holding) <= Sum(cs, Slots(size))
  {
    if cs != [] {
      SlotHolders(cs[1..], size);
    }
  }

  lemma {:induction false} PerEntry(cs: seq<Caller>, e: Entry)
    ensures Sum(cs, UseOf(e)) <= Sum(cs, Holding)
    ensures Sum(cs, Closers) == 0 && Sum(cs, Registering) == 0 ==> Sum(cs, TransitOf(e)) == 0
    ensures Sum(cs, Drainers) <= Sum(cs, Closers)
  {
    if cs != [] {
      PerEntry(cs[1..], e);
    }
  }

  // ---- the invariant ----

  /** Every retriever ever built is in exactly one place: registered, about to be registered, waiting to be closed,
      or closed. */
  ghost predicate OnceOk(p: Pool, e: Entry) {
    Count(p.all, e) + Sum(p.callers, TransitOf(e)) + Count(p.log, e) == if e < p.built then 1 else 0
  }

  /** A registered retriever is idle or in one thread's hands, never both; the others are in neither place. */
  ghost predicate UseOk(p: Pool, e: Entry) {
    Count(p.idle, e) + Sum(p.callers, UseOf(e)) <= Count(p.all, e)
  }

  ghost predicate DrainOk(p: Pool, t: nat) {
    t < |p.callers| && p.callers[t].Drain? ==> p.callers[t].got <= p.size
  }

  ghost predicate CountsOk(p: Pool) {
    && p.size > 0
    && p.slots + Sum(p.callers, Slots(p.size)) == p.size
    && Sum(p.callers, Closers) == (if p.closed then 1 else 0)
    && (!p.closed ==> |p.all| == |p.idle| + Sum(p.callers, Holding))
    && |p.all| + Sum(p.callers, Building) + Sum(p.callers, Registering) <= p.size
    && p.built + Sum(p.callers, Building) <= p.size
    && (Sum(p.callers, Drainers) == 0 ==> p.built == |p.all| + Sum(p.callers, Registering))
    && (Sum(p.callers, Drainers) > 0 ==> p.all == [])
  }

  ghost predicate Inv(p: Pool) {
    CountsOk(p) && forall e: nat :: OnceOk(p, e) && UseOk(p, e) && DrainOk(p, e)
  }

  /** One step changes a total by the change in its own thread's weight. */
  lemma TallyMoves(p: Pool, t: nat, ok: bool, tally: Tally)
    requires CanAdvance(p, t)
    ensures
      var q := Advanced(p, t, ok);
      && |q.callers| == |p.callers|
      && q.callers == p.callers[t := q.callers[t]]
      && Weight(p.callers[t], tally) <= Sum(p.callers, tally)
      && Sum(q.callers, tally) == Sum(p.callers, tally) - Weight(p.callers[t], tally) + Weight(q.callers[t], tally)
  {
    hide Weight, Sum;
    SumUpdate(p.callers, t, Advanced(p, t, ok).callers[t], tally);
  }

  lemma Removed(p: Pool, t: nat, tally: Tally)
    requires t < |p.callers|
    ensures Sum(p.callers, tally) == Sum(p.callers[t := Finished(false)], tally) + Weight(p.callers[t], tally)
  {
    hide Sum;
    SumUpdate(p.callers, t, Finished(false), tally);
  }

  predicate Drained(p: Pool, t: nat) {
    t < |p.callers|
      && ((p.callers[t].Drain? && p.callers[t].got >= p.size) || p.callers[t].Closing? || p.callers[t].Closed?)
  }

  /** A closer that has every slot is the only thread with one. */
  lemma AloneWithAllSlots(p: Pool, t: nat)
    requires CountsOk(p) && Drained(p, t)
    ensures p.slots == 0 && Sum(p.callers, Checking) == 0 && Sum(p.callers, Building) == 0
    ensures Sum(p.callers, Registering) == 0 && Sum(p.callers, Holding) == 0
    ensures Sum(p.callers, Drainers) == Weight(p.callers[t], Drainers)
  {
    hide Sum;
    var rest := p.callers[t := Finished(false)];
    Removed(p, t, Slots(p.size));
    Removed(p, t, Checking);
    Removed(p, t, Building);
    Removed(p, t, Registering);
    Removed(p, t, Holding);
    Removed(p, t, Closers);
    Removed(p, t, Drainers);
    SlotHolders(rest, p.size);
    PerEntry(rest, 0);
  }

  lemma AloneWithEntry(p: Pool, t: nat, e: Entry)
    requires CountsOk(p) && Drained(p, t)
    ensures Sum(p.callers, TransitOf(e)) == Weight(p.callers[t], TransitOf(e)) && Sum(p.callers, UseOf(e)) == 0
  {
    hide Sum;
    AloneWithAllSlots(p, t);
    PerEntry(p.callers, e);
    Removed(p, t, TransitOf(e));
    Removed(p, t, Closers);
    Removed(p, t, Registering);
    PerEntry(p.callers[t := Finished(false)], e);
  }

  lemma SlotsKept(p: Pool, t: nat, ok: bool)
    requires CountsOk(p) && DrainOk(p, t) && CanAdvance(p, t)
    ensures
      var q := Advanced(p, t, ok);
      && q.size > 0
      && q.slots + Sum(q.callers, Slots(q.size)) == q.size
      && Sum(q.callers, Closers) == (if q.closed then 1 else 0)
  {
    hide Sum;
    TallyMoves(p, t, ok, Slots(p.size));
    TallyMoves(p, t, ok, Closers);
  }

  lemma LimitsKept(p: Pool, t: nat, ok: bool)
    requires CountsOk(p) && CanAdvance(p, t)
    ensures
      var q := Advanced(p, t, ok);
      && (!q.closed ==> |q.all| == |q.idle| + Sum(q.callers, Holding))
      && |q.all| + Sum(q.callers, Building) + Sum(q.callers, Registering) <= q.size
      && q.built + Sum(q.callers, Building) <= q.size
  {
    hide Sum;
    TallyMoves(p, t, ok, Holding);
    TallyMoves(p, t, ok, Building);
    TallyMoves(p, t, ok, Registering);
    TallyMoves(p, t, ok, Closers);
    if p.callers[t].Check? && !p.closed && p.idle == [] {
      RoomToBuild(p, t);
    }
  }

  /** A thread that finds no idle retriever leaves room under the size limit for the one it builds. */
  lemma RoomToBuild(p: Pool, t: nat)
    requires CountsOk(p) && CanAdvance(p, t) && p.callers[t].Check? && !p.closed && p.idle == []
    ensures |p.all| + Sum(p.callers, Building) + Sum(p.callers, Registering) < p.size
    ensures p.built + Sum(p.callers, Building) < p.size
  {
    hide Sum;
    TallyMoves(p, t, true, Checking);
    SlotHolders(p.callers, p.size);
    PerEntry(p.callers, 0);
  }

  lemma DrainersKept(p: Pool, t: nat, ok: bool)
    requires CountsOk(p) && CanAdvance(p, t)
    ensures
      var q := Advanced(p, t, ok);
      && (Sum(q.callers, Drainers) == 0 ==> q.built == |q.all| + Sum(q.callers, Registering))
      && (Sum(q.callers, Drainers) > 0 ==> q.all == [])
  {
    hide Sum;
    TallyMoves(p, t, ok, Drainers);
    TallyMoves(p, t, ok, Registering);
    if Sum(p.callers, Drainers) > 0 {
      var u := SomeContributor(p.callers, Drainers);
      AloneWithAllSlots(p, u);
    }
  }

  /** Where thread t alone keeps e: registered, in its hands, or closed. */
  ghost function Places(p: Pool, t: nat, e: Entry): nat
    requires t < |p.callers|
  {
    Count(p.all, e) + Weight(p.callers[t], TransitOf(e)) + Count(p.log, e)
  }

  /** Except for a factory call that makes e, no step creates, loses or copies it. */
  lemma PlacesMove(p: Pool, t: nat, ok: bool, e: Entry)
    requires CanAdvance(p, t)
    ensures Places(Advanced(p, t, ok), t, e)
      == Places(p, t, e) + if p.callers[t].Build? && ok && e == p.built then 1 else 0
    ensures Advanced(p, t, ok).built == p.built + if p.callers[t].Build? && ok then 1 else 0
  {
    match p.callers[t]
    case Register(x) =>
      CountAppend(p.all, x, e);
    case Closing(left) =>
      if left != [] {
        CountAppend(p.log, left[0], e);
      }
    case _ =>
  }

  lemma OnceKept(p: Pool, t: nat, ok: bool, e: Entry)
    requires OnceOk(p, e) && CanAdvance(p, t)
    ensures OnceOk(Advanced(p, t, ok), e)
  {
    hide Sum, Weight, Advanced, Count;
    TallyMoves(p, t, ok, TransitOf(e));
    PlacesMove(p, t, ok, e);
  }

  /** Borrowing, registering and returning keep idle and in use together within what is registered. */
  lemma UsesMove(p: Pool, t: nat, ok: bool, e: Entry)
    requires CanAdvance(p, t) && (p.callers[t].Drain? ==> p.callers[t].got < p.size)
    ensures
      var q := Advanced(p, t, ok);
      Count(q.idle, e) + Weight(q.callers[t], UseOf(e)) + Count(p.all, e)
        <= Count(p.idle, e) + Weight(p.callers[t], UseOf(e)) + Count(q.all, e)
  {
    hide Count;
    match p.callers[t]
    case Check =>
      if !p.closed && p.idle != [] {
        CountLast(p.idle, e);
      }
    case Register(x) =>
      CountAppend(p.all, x, e);
    case Using(x) =>
      CountAppend(p.idle, x, e);
    case _ =>
  }

  lemma UseKept(p: Pool, t: nat, ok: bool, e: Entry)
    requires CountsOk(p) && UseOk(p, e) && CanAdvance(p, t)
    ensures UseOk(Advanced(p, t, ok), e)
  {
    hide Sum, CountsOk, Count, Weight;
    TallyMoves(p, t, ok, UseOf(e));
    if p.callers[t].Drain? && p.callers[t].got >= p.size {
      AloneWithEntry(p, t, e);
      assert Weight(Closing(p.all), UseOf(e)) == 0 == Weight(p.callers[t], UseOf(e)) by {
        NeitherUses(p.all, p.callers[t].got, e);
      }
    } else {
      hide Advanced;
      UsesMove(p, t, ok, e);
    }
  }

  lemma NeitherUses(left: seq<Entry>, got: nat, e: Entry)
    ensures Weight(Closing(left), UseOf(e)) == 0 == Weight(Drain(got), UseOf(e))
  {
  }

  lemma DrainKept(p: Pool, t: nat, ok: bool, u: nat)
    requires DrainOk(p, t) && DrainOk(p, u) && CanAdvance(p, t)
    ensures DrainOk(Advanced(p, t, ok), u)
  {
  }

  lemma CallKeeps(p: Pool, c: Caller)
    requires Inv(p) && (c.WaitSlot? || c.CloseStart?)
    ensures Inv(p.(callers := p.callers + [c]))
  {
    hide Sum;
    SumAppend(p.callers, c, Slots(p.size));
    SumAppend(p.callers, c, Closers);
    SumAppend(p.callers, c, Drainers);
    SumAppend(p.callers, c, Holding);
    SumAppend(p.callers, c, Building);
    SumAppend(p.callers, c, Registering);
    var q := p.(callers := p.callers + [c]);
    forall e: nat
      ensures OnceOk(q, e) && UseOk(q, e) && DrainOk(q, e)
    {
      SumAppend(p.callers, c, UseOf(e));
      SumAppend(p.callers, c, TransitOf(e));
      assert OnceOk(p, e) && UseOk(p, e) && DrainOk(p, e);
    }
  }

  lemma StepKeeps(p: Pool, step: Step)
    requires Inv(p) && Enabled(p, step)
    ensures Inv(Apply(p, step))
  {
    match step
    case CallRetrieve => CallKeeps(p, WaitSlot);
    case CallClose => CallKeeps(p, CloseStart);
    case Advance(t, ok) =>
      hide Advanced, Weight, OnceOk, UseOk, Sum;
      assert DrainOk(p, t);
      SlotsKept(p, t, ok);
      LimitsKept(p, t, ok);
      DrainersKept(p, t, ok);
      forall e: nat
        ensures OnceOk(Advanced(p, t, ok), e) && UseOk(Advanced(p, t, ok), e) && DrainOk(Advanced(p, t, ok), e)
      {
        assert OnceOk(p, e) && UseOk(p, e) && DrainOk(p, e);
        OnceKept(p, t, ok, e);
        UseKept(p, t, ok, e);
        DrainKept(p, t, ok, e);
      }
  }
}
