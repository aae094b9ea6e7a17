/** The first-turn response cache and its invalidator (src/app/stores/cache.py) over one Redis server. */
module ResponseCache {
  import opened Models

  datatype CachedResponse = CachedResponse(answer: string, sources: seq<SourceRef>)

  /** A stored answer. `ids` (what it was tagged under) and `at` (the transaction that wrote it) are history. */
  datatype Entry = Entry(response: CachedResponse, ids: set<DocId>, stored: nat, ttl: nat, at: nat)

  /** The cache: and doc_tag: keys of the server, its clock in seconds, and how many transactions it has run. */
  datatype Redis = Redis(entries: map<string, Entry>, tags: map<string, set<string>>, now: nat, ops: nat)

  const EMPTY := Redis(map[], map[], 0, 0)

  function CacheKey(fp: string): string {
    "cache:" + fp
  }

  function DocTagKey(d: DocId): string {
    "doc_tag:" + d
  }

  /** Different fingerprints and documents never share a key, whatever characters they hold. */
  lemma KeysNeverCollide(fp: string, fp': string, d: DocId, d': DocId)
    ensures CacheKey(fp) != DocTagKey(d)
    ensures CacheKey(fp) == CacheKey(fp') ==> fp == fp'
    ensures DocTagKey(d) == DocTagKey(d') ==> d == d'
  {
    assert CacheKey(fp)[0] == 'c' && DocTagKey(d)[0] == 'd';
    assert CacheKey(fp)[6..] == fp && CacheKey(fp')[6..] == fp';
    assert DocTagKey(d)[8..] == d && DocTagKey(d')[8..] == d';
  }

  predicate IsCacheKey(key: string) {
    "cache:" <= key
  }

  lemma TagKeyIsNoCacheKey(d: DocId, fp: string)
    ensures !IsCacheKey(DocTagKey(d)) && IsCacheKey(CacheKey(fp))
  {
    assert DocTagKey(d)[0] == 'd';
    assert "cache:"[0] == 'c';
    assert CacheKey(fp)[..6] == "cache:";
  }

  // ---- commands ----

  datatype Command =
    | SetEx(key: string, response: CachedResponse, ids: set<DocId>, ttl: int)
    | SAdd(key: string, member: string)
    | Del(key: string)

  function Members<T>(list: seq<T>): set<T> {
    set x | x in list
  }

  function TagSet(r: Redis, key: string): set<string> {
    if key in r.tags then r.tags[key] else {}
  }

  /** One queued command. Redis rejects an expiry that is not positive, and goes on with the next command. */
  function Run(r: Redis, c: Command): Redis {
    match c
    case SetEx(key, response, ids, ttl) =>
      if ttl <= 0 then r else r.(entries := r.entries[key := Entry(response, ids, r.now, ttl, r.ops)])
    case SAdd(key, member) => r.(tags := r.tags[key := TagSet(r, key) + {member}])
    case Del(key) => r.(entries := r.entries - {key}, tags := r.tags - {key})
  }

  function RunAll(r: Redis, pipe: seq<Command>): Redis {
    if pipe == [] then r else Run(RunAll(r, pipe[..|pipe| - 1]), pipe[|pipe| - 1])
  }

  /** MULTI/EXEC. */
  function Execute(r: Redis, pipe: seq<Command>): Redis {
    RunAll(r, pipe).(ops := r.ops + 1)
  }

  function SetPipe(fp: string, response: CachedResponse, ids: seq<DocId>, ttl: int): seq<Command> {
    [SetEx(CacheKey(fp), response, Members(ids), ttl)]
    + seq(|ids|, i requires 0 <= i < |ids| => SAdd(DocTagKey(ids[i]), CacheKey(fp)))
  }

  function DeletePipe(members: seq<string>, d: DocId): seq<Command> {
    seq(|members|, i requires 0 <= i < |members| => Del(members[i])) + [Del(DocTagKey(d))]
  }

  predicate Tagged(ids: seq<DocId>, key: string) {
    exists d :: d in ids && key == DocTagKey(d)
  }

  lemma {:induction false} AddsOnly(r: Redis, ids: seq<DocId>, key: string, n: nat)
    requires n <= |ids|
    ensures
      var pipe := seq(n, i requires 0 <= i < n => SAdd(DocTagKey(ids[i]), key));
      var r' := RunAll(r, pipe);
      && r'.entries == r.entries && r'.now == r.now && r'.ops == r.ops
      && forall t :: TagSet(r', t) == TagSet(r, t) + if Tagged(ids[..n], t) then {key} else {}
  {
    hide DocTagKey;
    var pipe := seq(n, i requires 0 <= i < n => SAdd(DocTagKey(ids[i]), key));
    if n > 0 {
      var shorter := seq(n - 1, i requires 0 <= i < n - 1 => SAdd(DocTagKey(ids[i]), key));
      assert pipe[..n - 1] == shorter;
      AddsOnly(r, ids, key, n - 1);
      assert ids[..n] == ids[..n - 1] + [ids[n - 1]];
      forall t
        ensures Tagged(ids[..n], t) <==> Tagged(ids[..n - 1], t) || t == DocTagKey(ids[n - 1])
      {
        if t == DocTagKey(ids[n - 1]) { assert ids[n - 1] in ids[..n]; }
        if Tagged(ids[..n - 1], t) {
          var d :| d in ids[..n - 1] && t == DocTagKey(d);
          assert d in ids[..n];
        }
      }
    }
  }

  lemma {:induction false} RunAllSplit(r: Redis, first: seq<Command>, rest: seq<Command>)
    ensures RunAll(r, first + rest) == RunAll(RunAll(r, first), rest)
  {
    hide Run;
    if rest == [] {
      assert first + rest == first;
    } else {
      RunAllSplit(r, first, rest[..|rest| - 1]);
      assert (first + rest)[..|first + rest| - 1] == first + rest[..|rest| - 1];
    }
  }

  /** set's pipeline: the entry and its key in the tag set of each of its documents, together; nothing else. */
  lemma SetPipeEffect(r: Redis, fp: string, response: CachedResponse, ids: seq<DocId>, ttl: int)
    ensures
      var r' := Execute(r, SetPipe(fp, response, ids, ttl));
      && r'.now == r.now && r'.ops == r.ops + 1
      && r'.entries == (if ttl <= 0 then r.entries
                        else r.entries[CacheKey(fp) := Entry(response, Members(ids), r.now, ttl, r.ops)])
      && forall t :: TagSet(r', t) == TagSet(r, t) + if Tagged(ids, t) then {CacheKey(fp)} else {}
  {
    hide CacheKey, DocTagKey, Tagged;
    var first := SetEx(CacheKey(fp), response, Members(ids), ttl);
    var adds := seq(|ids|, i requires 0 <= i < |ids| => SAdd(DocTagKey(ids[i]), CacheKey(fp)));
    RunAllSplit(r, [first], adds);
    assert [first][..0] == [] && RunAll(r, []) == r;
    AddsOnly(Run(r, first), ids, CacheKey(fp), |ids|);
    assert ids[..|ids|] == ids;
    forall t
      ensures TagSet(Run(r, first), t) == TagSet(r, t)
    {
    }
  }

  function Evicted(r: Redis, keys: set<string>): Redis {
    r.(entries := r.entries - keys, tags := r.tags - keys)
  }

  lemma {:induction false} DeletesOnly(r: Redis, keys: seq<string>)
    ensures RunAll(r, seq(|keys|, i requires 0 <= i < |keys| => Del(keys[i]))) == Evicted(r, Members(keys))
  {
    var pipe := seq(|keys|, i requires 0 <= i < |keys| => Del(keys[i]));
    if keys == [] {
      assert Evicted(r, {}) == r;
    } else {
      var shorter := keys[..|keys| - 1];
      assert pipe[..|keys| - 1] == seq(|shorter|, i requires 0 <= i < |shorter| => Del(shorter[i]));
      DeletesOnly(r, shorter);
      assert Members(keys) == Members(shorter) + {keys[|keys| - 1]};
    }
  }

  /** invalidate's pipeline removes exactly the listed keys and the tag set. */
  lemma DeletePipeEffect(r: Redis, members: seq<string>, d: DocId)
    ensures Execute(r, DeletePipe(members, d))
      == Evicted(r, Members(members) + {DocTagKey(d)}).(ops := r.ops + 1)
  {
    hide DocTagKey;
    var keys := members + [DocTagKey(d)];
    DeletesOnly(r, keys);
    assert DeletePipe(members, d) == seq(|keys|, i requires 0 <= i < |keys| => Del(keys[i]));
    assert Members(keys) == Members(members) + {DocTagKey(d)};
  }

  predicate Live(r: Redis, key: string) {
    key in r.entries && r.now < r.entries[key].stored + r.entries[key].ttl
  }

  /** Time passes and expired keys go. */
  function Later(r: Redis, seconds: nat): Redis {
    var now := r.now + seconds;
    r.(now := now, entries := r.entries - set k | k in r.entries && r.entries[k].stored + r.entries[k].ttl <= now)
  }

  /** An undisturbed invalidation: the answers listed under d and the list itself go. */
  function Invalidated(r: Redis, d: DocId): Redis {
    var members := TagSet(r, DocTagKey(d));
    if members == {} then r else Evicted(r, members + {DocTagKey(d)})
  }

  /** Tag sets list nothing but cache keys. */
  ghost predicate TagsHoldKeys(r: Redis) {
    forall t, key :: key in TagSet(r, t) ==> IsCacheKey(key)
  }

  ghost predicate SameContents(r: Redis, r': Redis) {
    r.entries == r'.entries && r.tags == r'.tags && r.now == r'.now
  }

  // ---- the objects ----

  /** The server as a client sees it: any command may raise, and `faults` counts those that did. A transaction that
      raised has run or has not. */
  class Server {
    var db: Redis
    ghost var faults: nat

    constructor ()
      ensures db == EMPTY && faults == 0
    {
      db, faults := EMPTY, 0;
    }

    method Get(key: string) returns (ok: bool, found: Option<CachedResponse>)
      modifies `faults
      ensures ok ==> found == if Live(db, key) then Some(db.entries[key].response) else None
      ensures faults == old(faults) + if ok then 0 else 1
    {
      ok := *;
      found := if Live(db, key) then Some(db.entries[key].response) else None;
      if !ok {
        faults := faults + 1;
      }
    }

    method SMembers(key: string) returns (ok: bool, members: set<string>)
      modifies this
      ensures db == if ok then old(db).(ops := old(db).ops + 1) else old(db)
      ensures ok ==> members == TagSet(db, key)
      ensures faults == old(faults) + if ok then 0 else 1
    {
      ok := *;
      members := TagSet(db, key);
      if ok {
        db := db.(ops := db.ops + 1);
      } else {
        faults := faults + 1;
      }
    }

    method Transact(pipe: seq<Command>) returns (ok: bool)
      modifies this
      ensures db == Execute(old(db), pipe) || (!ok && db == old(db))
      ensures faults == old(faults) + if ok then 0 else 1
    {
      ok := *;
      var reached: bool := *;
      if ok || reached {
        db := Execute(db, pipe);
      }
      if !ok {
        faults := faults + 1;
      }
    }
  }

  class Cache {
    const client: Server

    constructor (client: Server)
      ensures this.client == client
    {
      this.client := client;
    }

    /** get: the live answer if there is one, and a miss when the server fails; it never writes. */
    method Get(fp: string) returns (found: Option<CachedResponse>)
      modifies client`faults
      ensures client.faults >= old(client.faults)
      ensures found ==
        if client.faults == old(client.faults) && Live(client.db, CacheKey(fp))
          then Some(client.db.entries[CacheKey(fp)].response)
        else None
    {
      var ok;
      ok, found := client.Get(CacheKey(fp));
      if !ok {
        return None;
      }
    }

    /** set: the whole pipeline, and when the server fails all of it or none of it; never an exception. */
    method Set(fp: string, response: CachedResponse, ids: seq<DocId>, ttl: int)
      modifies client
      ensures client.faults >= old(client.faults)
      ensures client.db == Execute(old(client.db), SetPipe(fp, response, ids, ttl))
        || (client.faults > old(client.faults) && client.db == old(client.db))
    {
      var key := CacheKey(fp);
      var pipe := [SetEx(key, response, Members(ids), ttl)];
      for i := 0 to |ids|
        invariant |pipe| == 1 + i && pipe == SetPipe(fp, response, ids, ttl)[..1 + i]
      {
        pipe := pipe + [SAdd(DocTagKey(ids[i]), key)];
      }
      assert pipe == SetPipe(fp, response, ids, ttl);
      var ok := client.Transact(pipe);
    }
  }

  class Invalidator {
    const client: Server

    constructor (client: Server)
      ensures this.client == client
    {
      this.client := client;
    }

    /** invalidate_document with no other client in between: the document's answers are evicted, and when the server
        fails they are or nothing changed; never an exception. */
    method InvalidateDocument(d: DocId)
      modifies client
      ensures client.faults >= old(client.faults)
      ensures SameContents(client.db, Invalidated(old(client.db), d))
        || (client.faults > old(client.faults) && SameContents(client.db, old(client.db)))
    {
      hide DocTagKey, Execute, Evicted;
      var tagKey := DocTagKey(d);
      var ok, members := client.SMembers(tagKey);
      if !ok || members == {} {
        return;
      }
      var pipe, queued := QueueDeletes(members);
      DeletesEvict(old(client.db), client.db, queued, d);
      ok := client.Transact(pipe + [Del(tagKey)]);
    }

    /** for member in members: pipe.delete(member) */
    method QueueDeletes(members: set<string>) returns (pipe: seq<Command>, ghost queued: seq<string>)
      ensures Members(queued) == members
      ensures pipe == seq(|queued|, i requires 0 <= i < |queued| => Del(queued[i]))
    {
      var rest := members;
      pipe, queued := [], [];
      while rest != {}
        invariant rest <= members && Members(queued) == members - rest
        invariant pipe == seq(|queued|, i requires 0 <= i < |queued| => Del(queued[i]))
        decreases |rest|
      {
        var member :| member in rest;
        pipe := pipe + [Del(member)];
        assert Members(queued + [member]) == Members(queued) + {member};
        queued := queued + [member];
        rest := rest - {member};
      }
    }
  }

  /** Deleting what was listed is the invalidation, transaction numbers aside. */
  lemma DeletesEvict(before: Redis, r: Redis, queued: seq<string>, d: DocId)
    requires SameContents(before, r)
    requires Members(queued) == TagSet(before, DocTagKey(d)) != {}
    ensures SameContents(Execute(r, DeletePipe(queued, d)), Invalidated(before, d))
  {
    hide DocTagKey, Execute, DeletePipe;
    DeletePipeEffect(r, queued, d);
  }
}
