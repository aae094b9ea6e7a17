/** Conversation history (src/app/stores/sessions.py): one capped, expiring Redis list per session. */
module SessionStore {
  import opened Models

  const MAX_TURNS := 20
  const TTL_SECONDS := 24 * 60 * 60

  predicate IdChar(c: char) {
    'A' <= c <= 'Z' || 'a' <= c <= 'z' || '0' <= c <= '9' || c == '_' || c == '-'
  }

  predicate ValidId(id: string) {
    8 <= |id| <= 64 && forall i :: 0 <= i < |id| ==> IdChar(id[i])
  }

  function SessionKey(id: string): string {
    "session:" + id
  }

  /** A digit, a letter, an underscore or a hyphen, by its ASCII code. */
  predicate TokenCode(n: int) {
    48 <= n <= 57 || 65 <= n <= 90 || 97 <= n <= 122 || n == 95 || n == 45
  }

  /** A valid id is one short token of letters, digits, underscores and hyphens; so it holds no separator, and its key
      determines it. */
  lemma ValidIdsAreTokens(id: string, other: string)
    ensures ValidId(id) <==> 8 <= |id| <= 64 && forall i :: 0 <= i < |id| ==> TokenCode(id[i] as int)
    ensures ValidId(id) ==> ':' !in id && ' ' !in id && '/' !in id && '\n' !in id
    ensures SessionKey(id) == SessionKey(other) ==> id == other
  {
    hide IdChar, TokenCode;
    forall i | 0 <= i < |id|
      ensures IdChar(id[i]) <==> TokenCode(id[i] as int)
    {
      TokenCharIff(id[i]);
    }
    NoSeparators();
    assert SessionKey(id)[8..] == id && SessionKey(other)[8..] == other;
  }

  lemma TokenCharIff(c: char)
    ensures IdChar(c) <==> TokenCode(c as int)
  {
  }

  lemma NoSeparators()
    ensures !IdChar(':') && !IdChar(' ') && !IdChar('/') && !IdChar('\n')
  {
  }

  // ---- Redis lists ----

  /** LRANGE: both ends inclusive, negative ones counted from the end. */
  function LRange<T>(list: seq<T>, start: int, stop: int): seq<T> {
    var n: int := |list|;
    var from: int := if start < 0 then (if n + start < 0 then 0 else n + start) else start;
    var to: int := if stop < 0 then n + stop else if stop >= n then n - 1 else stop;
    if from > to || from >= n then [] else list[from..to + 1]
  }

  function Last<T>(list: seq<T>, n: nat): seq<T> {
    if |list| <= n then list else list[|list| - n..]
  }

  /** The two ranges the store asks for; with a limit of 0 the same call would return the whole list. */
  lemma RangeFromTheEnd<T>(list: seq<T>, n: int)
    ensures n > 0 ==> LRange(list, -n, -1) == Last(list, n)
    ensures LRange(list, 0, -1) == list
  {
  }

  datatype Stored = Stored(turns: seq<Message>, expires: nat)

  datatype Db = Db(lists: map<string, Stored>, now: nat)

  function Turns(db: Db, key: string): seq<Message> {
    if key in db.lists && db.now < db.lists[key].expires then db.lists[key].turns else []
  }

  /** RPUSH, LTRIM and EXPIRE as one transaction. */
  function Appended(db: Db, key: string, turn: Message): Db {
    var pushed := Turns(db, key) + [turn];
    db.(lists := db.lists[key := Stored(LRange(pushed, -MAX_TURNS, -1), db.now + TTL_SECONDS)])
  }

  // ---- what a session holds, over any run ----

  datatype Event = Append(turn: Message) | Wait(seconds: nat)

  function After(db: Db, key: string, events: seq<Event>): Db {
    if events == [] then db
    else
      var before := After(db, key, events[..|events| - 1]);
      match events[|events| - 1]
      case Append(turn) => Appended(before, key, turn)
      case Wait(seconds) => before.(now := before.now + seconds)
  }

  /** Everything appended since the session last went a day without an append. */
  datatype Recent = Recent(turns: seq<Message>, quiet: nat)

  function Since(events: seq<Event>): Recent {
    if events == [] then Recent([], 0)
    else
      var before := Since(events[..|events| - 1]);
      match events[|events| - 1]
      case Append(turn) => Recent(before.turns + [turn], 0)
      case Wait(seconds) =>
        if before.quiet + seconds >= 86400 then Recent([], 0) else Recent(before.turns, before.quiet + seconds)
  }

  lemma LastOfLast<T>(list: seq<T>, x: T, n: nat)
    requires n > 0
    ensures Last(Last(list, n) + [x], n) == Last(list + [x], n)
  {
  }

  ghost predicate Agrees(db: Db, key: string, recent: Recent) {
    && recent.quiet < TTL_SECONDS
    && Turns(db, key) == Last(recent.turns, MAX_TURNS)
    && (recent.turns != [] ==> key in db.lists && db.lists[key].expires == db.now + TTL_SECONDS - recent.quiet)
  }

  lemma {:induction false} EventsAgree(db: Db, key: string, events: seq<Event>)
    requires key !in db.lists
    ensures Agrees(After(db, key, events), key, Since(events))
  {
    if events != [] {
      var prior := events[..|events| - 1];
      EventsAgree(db, key, prior);
      var before, recent := After(db, key, prior), Since(prior);
      match events[|events| - 1]
      case Append(turn) =>
        RangeFromTheEnd(Turns(before, key) + [turn], MAX_TURNS);
        LastOfLast(recent.turns, turn, MAX_TURNS);
      case Wait(seconds) =>
    }
  }

  /** A stored session is exactly the last 20 of the turns appended since it last expired. */
  lemma HistoryIsTheLastTwenty(db: Db, key: string, events: seq<Event>)
    requires key !in db.lists
    ensures Turns(After(db, key, events), key) == Last(Since(events).turns, 20)
  {
    hide After, Since, Turns;
    EventsAgree(db, key, events);
  }

  /** Appending to one session leaves every other one alone. */
  lemma SessionsAreSeparate(db: Db, key: string, turn: Message, other: string)
    requires key != other
    ensures Turns(Appended(db, key, turn), other) == Turns(db, other)
  {
  }

  // ---- exchanges ----

  /** User and assistant turn about, starting with the user, no question unanswered. */
  predicate Paired(turns: seq<Message>) {
    |turns| % 2 == 0 && forall i :: 0 <= i < |turns| ==> turns[i].role == if i % 2 == 0 then User else Assistant
  }

  lemma EvenShift(k: nat, i: nat)
    requires k % 2 == 0
    ensures (k + i) % 2 == i % 2
  {
  }

  lemma EvenRest(k: nat, n: nat)
    requires k % 2 == 0 && n % 2 == 0 && n <= k
    ensures (k - n) % 2 == 0
  {
  }

  lemma DropPaired(turns: seq<Message>, cut: nat)
    requires Paired(turns) && cut % 2 == 0 && cut <= |turns|
    ensures Paired(turns[cut..])
  {
    EvenRest(|turns|, cut);
    forall i | 0 <= i < |turns| - cut
      ensures turns[cut..][i].role == if i % 2 == 0 then User else Assistant
    {
      EvenShift(cut, i);
      assert turns[cut..][i] == turns[cut + i];
    }
  }

  lemma LastPaired(turns: seq<Message>, n: nat)
    requires Paired(turns) && n % 2 == 0
    ensures Paired(Last(turns, n))
  {
    hide Paired;
    if n < |turns| {
      PairedIsEven(turns);
      EvenRest(|turns|, n);
      DropPaired(turns, |turns| - n);
    }
  }

  lemma PairedIsEven(turns: seq<Message>)
    requires Paired(turns)
    ensures |turns| % 2 == 0
  {
  }

  function Exchange(db: Db, key: string, question: string, answer: string): Db {
    Appended(Appended(db, key, Message(User, question)), key, Message(Assistant, answer))
  }

  lemma AppendedTurns(db: Db, key: string, turn: Message)
    ensures Turns(Appended(db, key, turn), key) == Last(Turns(db, key) + [turn], MAX_TURNS)
  {
    RangeFromTheEnd(Turns(db, key) + [turn], MAX_TURNS);
  }

  /** One exchange adds its two turns, drops the oldest beyond 20, and keeps the session paired. */
  lemma ExchangeKeepsPairs(db: Db, key: string, question: string, answer: string)
    ensures
      var turns := Turns(db, key) + [Message(User, question), Message(Assistant, answer)];
      && Turns(Exchange(db, key, question, answer), key) == Last(turns, 20)
      && (Paired(Turns(db, key)) ==> Paired(Turns(Exchange(db, key, question, answer), key)))
  {
    hide Appended, Turns;
    var first, second := Message(User, question), Message(Assistant, answer);
    AppendedTurns(db, key, first);
    AppendedTurns(Appended(db, key, first), key, second);
    LastOfLast(Turns(db, key) + [first], second, MAX_TURNS);
    assert Turns(db, key) + [first] + [second] == Turns(db, key) + [first, second];
    if Paired(Turns(db, key)) {
      LastPaired(Turns(db, key) + [first, second], MAX_TURNS);
    }
  }

  datatype Request = Answered(question: string, answer: string) | Refused | Pause(seconds: nat)

  function Serve(db: Db, key: string, requests: seq<Request>): Db {
    if requests == [] then db
    else
      var before := Serve(db, key, requests[..|requests| - 1]);
      match requests[|requests| - 1]
      case Answered(question, answer) => Exchange(before, key, question, answer)
      case Refused => before
      case Pause(seconds) => before.(now := before.now + seconds)
  }

  lemma {:induction false} SerialRequestsKeepPairs(db: Db, key: string, requests: seq<Request>)
    requires key !in db.lists
    ensures Paired(Turns(Serve(db, key, requests), key))
    ensures |Turns(Serve(db, key, requests), key)| <= 20
  {
    if requests != [] {
      hide Exchange;
      var prior := requests[..|requests| - 1];
      SerialRequestsKeepPairs(db, key, prior);
      var last := requests[|requests| - 1];
      if last.Answered? {
        ExchangeKeepsPairs(Serve(db, key, prior), key, last.question, last.answer);
      }
    }
  }

  // ---- exchanges cut short ----

  /** What an exchange whose appends may have raised leaves: nothing, the question alone, or all of it. */
  predicate CutShort(db: Db, before: Db, key: string, question: string, answer: string) {
    || db == before
    || db == Appended(before, key, Message(User, question))
    || db == Exchange(before, key, question, answer)
  }

  lemma LastTurnAsks(turns: seq<Message>)
    requires turns != [] && turns[|turns| - 1].role == User
    ensures !Paired(turns)
  {
  }

  /** Of the three only the question alone breaks the turn-about of a session. */
  lemma CutShortKeepsPairsIff(db: Db, before: Db, key: string, question: string, answer: string)
    requires Paired(Turns(before, key)) && CutShort(db, before, key, question, answer)
    ensures Paired(Turns(db, key)) <==> db != Appended(before, key, Message(User, question))
  {
    hide Appended, Turns, Paired, Exchange;
    AppendedTurns(before, key, Message(User, question));
    LastTurnAsks(Last(Turns(before, key) + [Message(User, question)], MAX_TURNS));
    ExchangeKeepsPairs(before, key, question, answer);
  }

  /** The turns of the answered ones among the requests. */
  function TurnsOf(requests: seq<Request>): seq<Message> {
    if requests == [] then []
    else
      var last := requests[|requests| - 1];
      TurnsOf(requests[..|requests| - 1])
      + if last.Answered? then [Message(User, last.question), Message(Assistant, last.answer)] else []
  }

  ghost predicate Alive(db: Db, key: string) {
    key in db.lists && db.now < db.lists[key].expires
  }

  lemma {:induction false} ServedTurns(db: Db, key: string, requests: seq<Request>)
    requires |Turns(db, key)| <= MAX_TURNS
    requires forall n :: 0 <= n <= |requests| ==> Alive(Serve(db, key, requests[..n]), key)
    ensures Turns(Serve(db, key, requests), key) == Last(Turns(db, key) + TurnsOf(requests), MAX_TURNS)
  {
    hide Exchange;
    if requests == [] {
      assert Turns(db, key) + TurnsOf(requests) == Turns(db, key);
    } else {
      var prior := requests[..|requests| - 1];
      forall n | 0 <= n <= |prior|
        ensures Alive(Serve(db, key, prior[..n]), key)
      {
        assert prior[..n] == requests[..n];
      }
      ServedTurns(db, key, prior);
      assert prior[..|prior|] == prior && requests[..|requests|] == requests;
      var last := requests[|requests| - 1];
      var turns := Turns(db, key) + TurnsOf(prior);
      match last
      case Answered(question, answer) =>
        ExchangeKeepsPairs(Serve(db, key, prior), key, question, answer);
        LastTwo(turns, Message(User, question), Message(Assistant, answer), MAX_TURNS);
        assert Turns(db, key) + TurnsOf(requests) == turns + [Message(User, question), Message(Assistant, answer)];
      case _ =>
        assert TurnsOf(requests) == TurnsOf(prior);
    }
  }

  lemma LastTwo<T>(list: seq<T>, x: T, y: T, n: nat)
    requires n > 0
    ensures Last(Last(list, n) + [x, y], n) == Last(list + [x, y], n)
  {
  }

  lemma {:induction false} AnsweredTurnsPaired(requests: seq<Request>)
    ensures Paired(TurnsOf(requests))
  {
    if requests != [] {
      AnsweredTurnsPaired(requests[..|requests| - 1]);
    }
  }

  lemma PairedAfterAQuestionIff(turns: seq<Message>, more: seq<Message>)
    requires turns != [] && turns[|turns| - 1].role == User && Paired(more)
    ensures Paired(Last(turns + more, MAX_TURNS)) <==> |more| >= MAX_TURNS
  {
    var last := Last(turns + more, MAX_TURNS);
    if |more| >= MAX_TURNS {
      LastPaired(more, MAX_TURNS);
      assert last == Last(more, MAX_TURNS);
    } else {
      var at := |last| - |more| - 1;
      assert last[at] == turns[|turns| - 1];
    }
  }

  /** A question left alone keeps the session out of turn for as long as it lives, until ten more exchanges have
      pushed it out of the list. */
  lemma HalfExchangeHealsIff(before: Db, key: string, question: string, requests: seq<Request>)
    requires
      var half := Appended(before, key, Message(User, question));
      forall n :: 0 <= n <= |requests| ==> Alive(Serve(half, key, requests[..n]), key)
    ensures
      var half := Appended(before, key, Message(User, question));
      Paired(Turns(Serve(half, key, requests), key)) <==> |TurnsOf(requests)| >= 20
  {
    hide Serve, Turns, Appended, Paired, Alive, TurnsOf;
    var half := Appended(before, key, Message(User, question));
    AppendedTurns(before, key, Message(User, question));
    ServedTurns(half, key, requests);
    AnsweredTurnsPaired(requests);
    PairedAfterAQuestionIff(Turns(half, key), TurnsOf(requests));
  }

  // ---- the object ----

  datatype Result = Ok | InvalidId | RedisError

  /** `faults` counts the commands that raised. */
  class Store {
    var db: Db
    ghost var faults: nat

    constructor ()
      ensures db == Db(map[], 0) && faults == 0
    {
      db, faults := Db(map[], 0), 0;
    }

    /** append_turn: all three commands or none; a raised error leaves open which. */
    method AppendTurn(id: string, turn: Message) returns (result: Result)
      modifies this
      ensures result.InvalidId? <==> !ValidId(id)
      ensures result.InvalidId? ==> db == old(db)
      ensures result.Ok? ==> db == Appended(old(db), SessionKey(id), turn)
      ensures result.RedisError? ==> db == old(db) || db == Appended(old(db), SessionKey(id), turn)
      ensures faults == old(faults) + if result.RedisError? then 1 else 0
    {
      if !ValidId(id) {
        return InvalidId;
      }
      var raises: bool, ran: bool := *, *;
      if !raises || ran {
        db := Appended(db, SessionKey(id), turn);
      }
      faults := faults + if raises then 1 else 0;
      return if raises then RedisError else Ok;
    }

    /** get_history: the last `limit` turns, oldest first; none for a limit that is not positive. */
    method GetHistory(id: string, limit: int) returns (result: Result, turns: seq<Message>)
      modifies `faults
      ensures result.InvalidId? <==> !ValidId(id)
      ensures result.Ok? ==> turns == if limit <= 0 then [] else Last(Turns(db, SessionKey(id)), limit)
      ensures !result.Ok? ==> turns == []
      ensures faults == old(faults) + if result.RedisError? then 1 else 0
    {
      turns := [];
      if !ValidId(id) {
        return InvalidId, [];
      }
      if limit <= 0 {
        return Ok, [];
      }
      var raises: bool := *;
      if raises {
        faults := faults + 1;
        return RedisError, [];
      }
      RangeFromTheEnd(Turns(db, SessionKey(id)), limit);
      return Ok, LRange(Turns(db, SessionKey(id)), -limit, -1);
    }
  }
}
