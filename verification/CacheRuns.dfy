/** Any number of clients setting and invalidating at once (src/app/stores/cache.py): a set is one transaction, an
    invalidation is a read and, some time later, a delete. */
module CacheRuns {
  import opened Models
  import opened ResponseCache

  /** An invalidation between its two round trips, keyed by the transaction number of its read. */
  datatype Pending = Pending(doc: DocId, members: set<string>)

  /** History: the delete of an invalidation of `doc` ran `read` < `deleted`. */
  datatype Window = Window(doc: DocId, read: nat, deleted: nat)

  datatype Traffic = Traffic(redis: Redis, pending: map<nat, Pending>, windows: set<Window>)

  const START := Traffic(EMPTY, map[], {})

  /** Only what reaches the server is a step: a failed call that never ran changes nothing. */
  datatype Step =
    | Set(fp: string, response: CachedResponse, ids: seq<DocId>, ttl: int)
    | ReadTags(doc: DocId)
    | Delete(read: nat)
    | Abandon(read: nat)
    | Tick(seconds: nat)

  predicate Enabled(s: Traffic, step: Step) {
    (step.Delete? || step.Abandon?) ==> step.read in s.pending
  }

  function Apply(s: Traffic, step: Step): Traffic {
    match step
    case Set(fp, response, ids, ttl) => s.(redis := Execute(s.redis, SetPipe(fp, response, ids, ttl)))
    case ReadTags(d) =>
      var members := TagSet(s.redis, DocTagKey(d));
      s.(redis := s.redis.(ops := s.redis.ops + 1),
         pending := if members == {} then s.pending else s.pending[s.redis.ops := Pending(d, members)])
    case Delete(read) =>
      if read !in s.pending then s else
      var p := s.pending[read];
      s.(redis := Evicted(s.redis, p.members + {DocTagKey(p.doc)}).(ops := s.redis.ops + 1),
         pending := s.pending - {read},
         windows := s.windows + {Window(p.doc, read, s.redis.ops)})
    case Abandon(read) => s.(pending := s.pending - {read})
    case Tick(seconds) => s.(redis := Later(s.redis, seconds))
  }

  function Exec(steps: seq<Step>): Traffic {
    if steps == [] then START else Apply(Exec(steps[..|steps| - 1]), steps[|steps| - 1])
  }

  /** Every step was enabled when it was taken. */
  predicate Valid(steps: seq<Step>) {
    steps == [] || (Valid(steps[..|steps| - 1]) && Enabled(Exec(steps[..|steps| - 1]), steps[|steps| - 1]))
  }

  // ---- invariant ----

  ghost predicate Orphaned(windows: set<Window>, d: DocId, at: nat) {
    exists w :: w in windows && w.doc == d && w.read < at < w.deleted
  }

  /** The answer under `key`, if it was tagged with d, is still listed there, or was written in a window. */
  ghost predicate ListedOk(s: Traffic, key: string, d: DocId) {
    key in s.redis.entries && d in s.redis.entries[key].ids ==>
      key in TagSet(s.redis, DocTagKey(d)) || Orphaned(s.windows, d, s.redis.entries[key].at)
  }

  /** A pending invalidation has seen every answer tagged with its document before its read. */
  ghost predicate SeenOk(s: Traffic, key: string, read: nat) {
    read in s.pending && key in s.redis.entries && s.pending[read].doc in s.redis.entries[key].ids
    && s.redis.entries[key].at <= read ==>
      key in s.pending[read].members || Orphaned(s.windows, s.pending[read].doc, s.redis.entries[key].at)
  }

  ghost predicate KeyOk(s: Traffic, key: string, read: nat) {
    && (key in s.redis.entries ==> IsCacheKey(key) && s.redis.entries[key].at < s.redis.ops && Live(s.redis, key))
    && (read in s.pending ==> read < s.redis.ops)
    && (read in s.pending && key in s.pending[read].members ==> IsCacheKey(key))
    && (read in s.pending && key in s.redis.entries ==> s.redis.entries[key].at != read)
  }

  ghost predicate Inv(s: Traffic) {
    && TagsHoldKeys(s.redis)
    && (forall key, d :: ListedOk(s, key, d))
    && (forall key, read: nat :: SeenOk(s, key, read))
    && forall key, read: nat :: KeyOk(s, key, read)
  }

  lemma SetKeeps(s: Traffic, step: Step, key: string, d: DocId, read: nat)
    requires Inv(s) && step.Set?
    ensures ListedOk(Apply(s, step), key, d) && SeenOk(Apply(s, step), key, read) && KeyOk(Apply(s, step), key, read)
  {
    hide CacheKey, DocTagKey, Execute, SetPipe, IsCacheKey, Orphaned, TagsHoldKeys, Evicted, Later;
    SetPipeEffect(s.redis, step.fp, step.response, step.ids, step.ttl);
    TagKeyIsNoCacheKey(d, step.fp);
    assert ListedOk(s, key, d) && SeenOk(s, key, read) && KeyOk(s, key, read);
    if key == CacheKey(step.fp) && d in step.ids {
      assert Tagged(step.ids, DocTagKey(d));
    }
  }

  lemma SetKeepsTags(s: Traffic, step: Step)
    requires TagsHoldKeys(s.redis) && step.Set?
    ensures TagsHoldKeys(Apply(s, step).redis)
  {
    hide CacheKey, DocTagKey, Execute, SetPipe, IsCacheKey, Tagged;
    SetPipeEffect(s.redis, step.fp, step.response, step.ids, step.ttl);
    TagKeyIsNoCacheKey("", step.fp);
  }

  lemma ReadKeeps(s: Traffic, step: Step, key: string, d: DocId, read: nat)
    requires Inv(s) && step.ReadTags?
    ensures ListedOk(Apply(s, step), key, d) && SeenOk(Apply(s, step), key, read) && KeyOk(Apply(s, step), key, read)
  {
    hide CacheKey, DocTagKey, IsCacheKey, Orphaned;
    assert ListedOk(s, key, d) && SeenOk(s, key, read) && KeyOk(s, key, read);
    assert ListedOk(s, key, step.doc);
  }

  lemma DeleteKeeps(s: Traffic, step: Step, key: string, d: DocId, read: nat)
    requires Inv(s) && step.Delete? && Enabled(s, step)
    ensures ListedOk(Apply(s, step), key, d) && SeenOk(Apply(s, step), key, read) && KeyOk(Apply(s, step), key, read)
  {
    hide CacheKey, DocTagKey, IsCacheKey, TagsHoldKeys;
    var p := s.pending[step.read];
    assert ListedOk(s, key, d) && SeenOk(s, key, read) && KeyOk(s, key, read);
    assert SeenOk(s, key, step.read) && KeyOk(s, key, step.read) && KeyOk(s, DocTagKey(d), step.read);
    TagKeyIsNoCacheKey(d, "");
    KeysNeverCollide("", "", d, p.doc);
    var window := Window(p.doc, step.read, s.redis.ops);
    assert window in Apply(s, step).windows;
    if key in s.redis.entries && Orphaned(s.windows, d, s.redis.entries[key].at) {
      assert Orphaned(Apply(s, step).windows, d, s.redis.entries[key].at);
    }
  }

  lemma TickKeeps(s: Traffic, step: Step, key: string, d: DocId, read: nat)
    requires Inv(s) && (step.Tick? || step.Abandon?) && Enabled(s, step)
    ensures ListedOk(Apply(s, step), key, d) && SeenOk(Apply(s, step), key, read) && KeyOk(Apply(s, step), key, read)
  {
    hide CacheKey, DocTagKey, IsCacheKey, Orphaned, TagsHoldKeys;
    assert ListedOk(s, key, d) && SeenOk(s, key, read) && KeyOk(s, key, read);
  }

  lemma PartsKept(s: Traffic, step: Step, key: string, d: DocId, read: nat)
    requires Inv(s) && Enabled(s, step)
    ensures ListedOk(Apply(s, step), key, d) && SeenOk(Apply(s, step), key, read) && KeyOk(Apply(s, step), key, read)
  {
    hide Apply, ListedOk, SeenOk, KeyOk, TagsHoldKeys;
    match step
    case Set(_, _, _, _) => SetKeeps(s, step, key, d, read);
    case ReadTags(_) => ReadKeeps(s, step, key, d, read);
    case Delete(_) => DeleteKeeps(s, step, key, d, read);
    case _ => TickKeeps(s, step, key, d, read);
  }

  lemma TagsKept(s: Traffic, step: Step)
    requires TagsHoldKeys(s.redis) && Enabled(s, step)
    ensures TagsHoldKeys(Apply(s, step).redis)
  {
    hide DocTagKey, IsCacheKey, Execute, SetPipe;
    if step.Set? {
      SetKeepsTags(s, step);
    } else {
      forall t, key
        ensures key in TagSet(Apply(s, step).redis, t) ==> key in TagSet(s.redis, t)
      {
      }
    }
  }

  lemma StepKeeps(s: Traffic, step: Step)
    requires Inv(s) && Enabled(s, step)
    ensures Inv(Apply(s, step))
  {
    hide Apply, ListedOk, SeenOk, KeyOk, TagsHoldKeys;
    TagsKept(s, step);
    forall key, d
      ensures ListedOk(Apply(s, step), key, d)
    {
      PartsKept(s, step, key, d, 0);
    }
    forall key, read: nat
      ensures SeenOk(Apply(s, step), key, read)
    {
      PartsKept(s, step, key, "", read);
    }
    forall key, read: nat
      ensures KeyOk(Apply(s, step), key, read)
    {
      PartsKept(s, step, key, "", read);
    }
  }

  lemma {:induction false} RunKeeps(steps: seq<Step>)
    requires Valid(steps)
    ensures Inv(Exec(steps))
  {
    if steps != [] {
      hide Apply, Enabled, ListedOk, SeenOk, KeyOk, TagsHoldKeys;
      RunKeeps(steps[..|steps| - 1]);
      StepKeeps(Exec(steps[..|steps| - 1]), steps[|steps| - 1]);
    }
  }

  // ---- results ----

  /** In every interleaving a live answer is listed under each document it was tagged with, unless it was written
      between the read and the delete of an invalidation of that document. */
  lemma LiveAnswersStayListed(steps: seq<Step>, fp: string, d: DocId)
    requires Valid(steps)
    requires Live(Exec(steps).redis, CacheKey(fp)) && d in Exec(steps).redis.entries[CacheKey(fp)].ids
    ensures
      var s := Exec(steps);
      CacheKey(fp) in TagSet(s.redis, DocTagKey(d)) || Orphaned(s.windows, d, s.redis.entries[CacheKey(fp)].at)
  {
    hide CacheKey, DocTagKey, Apply, Orphaned, SeenOk, KeyOk, Exec;
    RunKeeps(steps);
    assert ListedOk(Exec(steps), CacheKey(fp), d);
  }

  /** When an invalidation's delete runs, no answer tagged with the document survives but those written in a window:
      this one's, or an earlier one's. */
  lemma DeleteLeavesOnlyOrphans(steps: seq<Step>, read: nat, key: string)
    requires Valid(steps) && Enabled(Exec(steps), Delete(read))
    ensures
      var d := Exec(steps).pending[read].doc;
      var s := Apply(Exec(steps), Delete(read));
      key in s.redis.entries && d in s.redis.entries[key].ids ==> Orphaned(s.windows, d, s.redis.entries[key].at)
  {
    hide CacheKey, DocTagKey, Exec, Apply, SeenOk, KeyOk, Orphaned;
    RunKeeps(steps);
    StepKeeps(Exec(steps), Delete(read));
    assert ListedOk(Apply(Exec(steps), Delete(read)), key, Exec(steps).pending[read].doc);
    TagSetGone(Exec(steps), read);
  }

  lemma TagSetGone(s: Traffic, read: nat)
    requires Enabled(s, Delete(read))
    ensures TagSet(Apply(s, Delete(read)).redis, DocTagKey(s.pending[read].doc)) == {}
  {
    hide DocTagKey;
  }

  /** Where the answer now under `key` came from: a set at step i, not overwritten since, not yet expired. */
  ghost predicate WrittenAt(steps: seq<Step>, i: nat, key: string) {
    && i < |steps|
    && steps[i].Set? && CacheKey(steps[i].fp) == key && steps[i].ttl > 0
    && key in Exec(steps).redis.entries
    && Exec(steps).redis.entries[key].response == steps[i].response
    && Exec(steps).redis.entries[key].stored == Exec(steps[..i]).redis.now
    && Exec(steps).redis.entries[key].ttl == steps[i].ttl
    && forall j :: i < j < |steps| ==> !Writes(steps[j], key)
  }

  predicate Writes(step: Step, key: string) {
    step.Set? && CacheKey(step.fp) == key && step.ttl > 0
  }

  lemma EntryAfter(s: Traffic, step: Step, key: string)
    requires Enabled(s, step) && key in Apply(s, step).redis.entries
    ensures Writes(step, key) ==>
      var e := Apply(s, step).redis.entries[key];
      e.response == step.response && e.stored == s.redis.now && e.ttl == step.ttl
    ensures !Writes(step, key) ==>
      key in s.redis.entries && Apply(s, step).redis.entries[key] == s.redis.entries[key]
  {
    hide CacheKey, DocTagKey, Execute, SetPipe, Tagged;
    if step.Set? {
      SetPipeEffect(s.redis, step.fp, step.response, step.ids, step.ttl);
    }
  }

  lemma {:induction false} AnswersComeFromSets(steps: seq<Step>, key: string) returns (i: nat)
    requires Valid(steps) && key in Exec(steps).redis.entries
    ensures WrittenAt(steps, i, key)
  {
    hide CacheKey, Apply, Enabled, Writes;
    var prior, last := steps[..|steps| - 1], steps[|steps| - 1];
    EntryAfter(Exec(prior), last, key);
    if Writes(last, key) {
      i := |steps| - 1;
      WritesMeans(last, key);
    } else {
      i := AnswersComeFromSets(prior, key);
      assert steps[..i] == prior[..i];
      assert forall j :: i < j < |prior| ==> steps[j] == prior[j];
    }
  }

  lemma WritesMeans(step: Step, key: string)
    requires Writes(step, key)
    ensures step.Set? && CacheKey(step.fp) == key && step.ttl > 0
  {
  }

  /** Every answer a get can return was put there by the last set of its key, less than that set's ttl ago: reading
      an answer never prolongs it. */
  lemma NoAnswerOutlivesItsWrite(steps: seq<Step>, key: string) returns (i: nat)
    requires Valid(steps) && Live(Exec(steps).redis, key)
    ensures WrittenAt(steps, i, key)
    ensures Exec(steps).redis.now < Exec(steps[..i]).redis.now + steps[i].ttl
  {
    i := AnswersComeFromSets(steps, key);
  }

  /** The documented race is real: a set landing inside an invalidation leaves an answer no later one can find. */
  lemma ASetInTheWindowIsOrphaned(fp: string, other: string, d: DocId, response: CachedResponse)
    requires fp != other
    ensures
      var steps := [Set(other, response, [d], 60), ReadTags(d), Set(fp, response, [d], 60), Delete(1)];
      && Valid(steps)
      && Live(Exec(steps).redis, CacheKey(fp)) && d in Exec(steps).redis.entries[CacheKey(fp)].ids
      && TagSet(Exec(steps).redis, DocTagKey(d)) == {}
  {
    hide CacheKey, DocTagKey, SetPipe, RunAll, Exec, Valid;
    var steps := [Set(other, response, [d], 60), ReadTags(d), Set(fp, response, [d], 60), Delete(1)];
    KeysNeverCollide(fp, other, d, d);
    var s1 := Apply(START, steps[0]);
    var s2 := Apply(s1, steps[1]);
    var s3 := Apply(s2, steps[2]);
    SetPipeEffect(EMPTY, other, response, [d], 60);
    SetPipeEffect(s2.redis, fp, response, [d], 60);
    assert d in [d] && Tagged([d], DocTagKey(d));
    assert TagSet(s1.redis, DocTagKey(d)) == {CacheKey(other)};
    assert s2.pending[1] == Pending(d, {CacheKey(other)});
    var s4 := Apply(s3, steps[3]);
    assert s3.pending[1] == s2.pending[1] && CacheKey(fp) in s3.redis.entries;
    assert CacheKey(fp) in s4.redis.entries && s4.redis.entries[CacheKey(fp)] == s3.redis.entries[CacheKey(fp)];
    assert steps[..0] == [];
    Beginning();
    OneMore(steps, 0, START);
    OneMore(steps, 1, s1);
    OneMore(steps, 2, s2);
    OneMore(steps, 3, s3);
    assert steps[..4] == steps;
  }

  lemma Beginning()
    ensures Valid([]) && Exec([]) == START
  {
  }

  lemma OneMore(steps: seq<Step>, n: nat, s: Traffic)
    requires n < |steps| && Valid(steps[..n]) && Exec(steps[..n]) == s && Enabled(s, steps[n])
    ensures Valid(steps[..n + 1]) && Exec(steps[..n + 1]) == Apply(s, steps[n])
  {
    hide Apply, Enabled;
    assert steps[..n + 1][..n] == steps[..n];
  }
}
