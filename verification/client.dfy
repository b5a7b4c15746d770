/** The cabinet client's call on channel A: token, bounded retries, the hour of silence after "not
    enabled", and the cache that answers when the cabinet does not. */
module CabinetClient {
  import opened Quantities

  type Time = int

  const ATTEMPTS: nat := 3
  const BACKOFF: seq<nat> := [1, 2]
  const HOUR: int := 3_600_000_000

  /** A body: JSON null, other JSON, or bytes. */
  datatype Data = JsonNull | Json(text: string) | Bytes(size: nat)

  /** What the command route answers, and what the token route answers if it is asked. */
  datatype Reply = Unreachable | Answer(status: int, data: Data, notEnabled: bool)
  datatype TokenReply = Granted(expires: Time) | Denied | TokenUnreachable

  /** The world during one call: the clock, the token route and the cabinet at each turn of the
      loop, and whether the cache could be written. */
  datatype World = World(clock: nat -> Time, token: nat -> TokenReply, reply: nat -> Reply, cacheWrites: bool)

  datatype Code =
    | Ok | NotEnabled | AuthFailed | CapabilityUnavailable | Conflict | BadRequest | NotFound | ErpBug | Stale
    | NoContact

  /** One call: its endpoint key, its cache slot (marina, key, path, query, server), and how it ended. */
  datatype Request = Request(key: string, get: bool, slot: string, hasDb: bool, pathOk: bool)
  datatype Outcome = Outcome(code: Code, data: Option<Data>)

  /** A cache row: what was last read, and when. */
  datatype Row = Row(data: Data, syncedAt: Time)

  datatype State = State(token: Option<Time>, silentUntil: map<string, Time>, cache: map<string, Row>)

  // ----- what a call meets -----

  /** One turn of the loop: the token refused, no answer (from the token route, or from the cabinet
      once the command was sent), or what the cabinet said. */
  datatype Met = TokenRefused | NoAnswer(sent: bool) | Said(status: int, data: Data, notEnabled: bool)

  predicate Retryable(m: Met) { m.NoAnswer? || (m.Said? && m.status >= 500 && m.status != 503) }

  predicate Unauthorised(m: Met) { m.Said? && m.status == 401 }

  predicate SaysNotEnabled(m: Met) { m.Said? && (m.status == 403 || (m.status == 503 && m.notEnabled)) }

  predicate Succeeded(m: Met) { m.Said? && 200 <= m.status < 300 }

  function Count(met: seq<Met>, p: Met -> bool): nat {
    if met == [] then 0 else Count(met[..|met| - 1], p) + if p(met[|met| - 1]) then 1 else 0
  }

  function Tries(met: seq<Met>): nat { Count(met, (m: Met) => Retryable(m)) }

  function Logins(met: seq<Met>): nat { Count(met, (m: Met) => Unauthorised(m)) }

  /** The command requests sent. */
  function Requests(met: seq<Met>): nat { Count(met, (m: Met) => m.Said? || m == NoAnswer(true)) }

  /** Every turn but the last failed in a way that is tried again: fewer than three times without a
      usable answer, once for an expired login. The last is what the call ends on. */
  ghost predicate Pending(met: seq<Met>) {
    && (forall i :: 0 <= i < |met| ==> Retryable(met[i]) || Unauthorised(met[i]))
    && Tries(met) < ATTEMPTS && Logins(met) <= 1
  }

  ghost predicate Complete(met: seq<Met>) {
    met != [] && Pending(met[..|met| - 1]) && !Pending(met)
  }

  /** The seconds waited between tries. */
  function Waits(tries: nat): nat { if tries == 0 then 0 else if tries == 1 then 1 else 3 }

  /** What turn i meets, and the token after it. */
  function Meets(w: World, i: nat, token: Option<Time>): (Met, Option<Time>) {
    if token.Some? && w.clock(i) < token.value then (Heard(w.reply(i)), token)
    else
      match w.token(i)
      case Denied => (TokenRefused, token)
      case TokenUnreachable => (NoAnswer(false), token)
      case Granted(expires) => (Heard(w.reply(i)), Some(expires))
  }

  function Heard(r: Reply): Met {
    match r
    case Unreachable => NoAnswer(true)
    case Answer(status, data, notEnabled) => Said(status, data, notEnabled)
  }

  /** The first 401 drops the token, so the next turn logs in again. */
  function TokenAfter(met: seq<Met>, m: Met, token: Option<Time>): Option<Time> {
    if Unauthorised(m) && Logins(met) == 0 then None else token
  }

  /** The turns are those of the world, each with the token the one before left. */
  ghost predicate Traces(w: World, tokens: seq<Option<Time>>, met: seq<Met>) {
    |tokens| == |met| + 1 && forall i :: 0 <= i < |met| ==> TraceAt(w, tokens, met, i)
  }

  ghost predicate TraceAt(w: World, tokens: seq<Option<Time>>, met: seq<Met>, i: nat)
    requires i < |met| && i + 1 < |tokens|
  {
    var (m, token) := Meets(w, i, tokens[i]);
    met[i] == m && tokens[i + 1] == TokenAfter(met[..i], m, token)
  }

  ghost predicate Along(w: World, tokens: seq<Option<Time>>, met: seq<Met>, first: Option<Time>, token: Option<Time>) {
    Traces(w, tokens, met) && tokens[0] == first && tokens[|met|] == token
  }

  lemma AlongNext(w: World, tokens: seq<Option<Time>>, met: seq<Met>, first: Option<Time>, held: Option<Time>,
                  m: Met, token: Option<Time>)
    requires Along(w, tokens, met, first, held) && (m, token) == Meets(w, |met|, held)
    ensures var next := TokenAfter(met, m, token); Along(w, tokens + [next], met + [m], first, next)
  {
    var all, held' := met + [m], tokens + [TokenAfter(met, m, token)];
    forall i | 0 <= i < |all| ensures TraceAt(w, held', all, i) {
      assert all[..i] == met[..i];
      if i < |met| {
        assert TraceAt(w, tokens, met, i);
      } else {
        assert met[..i] == met;
      }
    }
  }

  // ----- what a call does -----

  datatype Record = Record(q: Request, met: seq<Met>, startedAt: Time, endedAt: Time, cacheWrites: bool, o: Outcome)

  /** The cached row of a slot, if it holds anything. */
  function Cached(cache: map<string, Row>, q: Request): Option<Data> {
    if q.hasDb && q.slot in cache && cache[q.slot].data != JsonNull then Some(cache[q.slot].data) else None
  }

  /** How a call ends on its last turn. */
  function OutcomeOf(q: Request, cached: Option<Data>, last: Met): Outcome {
    if last.TokenRefused? || Unauthorised(last) then Outcome(AuthFailed, None)
    else if Retryable(last) then if q.get && cached.Some? then Outcome(Stale, cached) else Outcome(NoContact, None)
    else if Succeeded(last) then Outcome(Ok, Some(last.data))
    else if SaysNotEnabled(last) then Outcome(NotEnabled, None)
    else if last.status == 503 then Outcome(CapabilityUnavailable, None)
    else if last.status == 409 then Outcome(Conflict, None)
    else if last.status == 400 then Outcome(BadRequest, None)
    else if last.status == 404 then Outcome(NotFound, None)
    else Outcome(ErpBug, None)
  }

  predicate IsSilent(silentUntil: map<string, Time>, key: string, at: Time) {
    key in silentUntil && at < silentUntil[key]
  }

  /** A successful JSON read, and the cache took it. */
  predicate Reads(r: Record) {
    r.q.get && r.q.hasDb && r.cacheWrites && r.met != []
    && var last := r.met[|r.met| - 1]; Succeeded(last) && !last.data.Bytes?
  }

  predicate Told(r: Record) { r.met != [] && SaysNotEnabled(r.met[|r.met| - 1]) }

  /** The contract of a call: a path the contract refuses and a silent key meet nothing; any other
      call ends as its last turn says; an answer "not enabled" silences its key for an hour, and a
      successful JSON read is stored; nothing else changes either table. */
  ghost predicate Effect(before: State, after: State, r: Record) {
    && r.startedAt <= r.endedAt
    && (if !r.q.pathOk then r.met == [] && r.o == Outcome(ErpBug, None)
        else if IsSilent(before.silentUntil, r.q.key, r.startedAt) then r.met == [] && r.o == Outcome(NotEnabled, None)
        else Complete(r.met) && r.o == OutcomeOf(r.q, Cached(before.cache, r.q), r.met[|r.met| - 1]))
    && after.silentUntil == (if Told(r) then before.silentUntil[r.q.key := r.endedAt + HOUR] else before.silentUntil)
    && after.cache == (if Reads(r) then before.cache[r.q.slot := RowOf(r)] else before.cache)
  }

  function RowOf(r: Record): Row
    requires Reads(r)
  {
    Row(r.met[|r.met| - 1].data, r.endedAt)
  }

  /** How a call that met something ended, code by code. */
  lemma OutcomeTable(before: State, after: State, r: Record)
    requires Effect(before, after, r) && r.met != []
    ensures var m, code := r.met[|r.met| - 1], r.o.code;
      && (code == Ok <==> m.Said? && 200 <= m.status < 300)
      && (code == NotEnabled <==> m.Said? && (m.status == 403 || (m.status == 503 && m.notEnabled)))
      && (code == CapabilityUnavailable <==> m.Said? && m.status == 503 && !m.notEnabled)
      && (code == AuthFailed <==> m.TokenRefused? || (m.Said? && m.status == 401))
      && (code == Conflict <==> m.Said? && m.status == 409)
      && (code == BadRequest <==> m.Said? && m.status == 400)
      && (code == NotFound <==> m.Said? && m.status == 404)
      && (code in {Stale, NoContact} <==> m.NoAnswer? || (m.Said? && m.status >= 500 && m.status != 503))
    ensures r.o.code == Ok ==> r.o.data == Some(r.met[|r.met| - 1].data)
    ensures r.o.data.Some? ==> r.o.code in {Ok, Stale}
  {}

  /** And what it left behind: an hour's silence of its key, or what it read in its slot. */
  lemma LeftBehind(before: State, after: State, r: Record)
    requires Effect(before, after, r) && r.met != []
    ensures after.silentUntil == if r.o.code != NotEnabled then before.silentUntil
      else before.silentUntil[r.q.key := r.endedAt + 3_600_000_000]
    ensures var stores := r.o.code == Ok && r.q.get && r.q.hasDb && r.cacheWrites && !r.met[|r.met| - 1].data.Bytes?;
      after.cache == if !stores then before.cache
      else before.cache[r.q.slot := Row(r.met[|r.met| - 1].data, r.endedAt)]
  {}

  /** What is tried again: no answer and a 5xx other than 503, three times in all, and one 401. The
      call ends with whatever else comes, with the third of those failures, or with a second 401. */
  lemma {:induction false} TriedAgain(met: seq<Met>)
    requires Complete(met)
    ensures var last := |met| - 1;
      var fails := set i | 0 <= i < |met| &&
        (met[i].NoAnswer? || (met[i].Said? && met[i].status >= 500 && met[i].status != 503));
      var logins := set i | 0 <= i < |met| && met[i].Said? && met[i].status == 401;
      && (forall i :: 0 <= i < last ==> i in fails || i in logins)
      && |fails| <= 3 && |logins| <= 2
      && (last in fails ==> |fails| == 3) && (last in logins ==> |logins| == 2)
      && (last !in fails ==> |fails| < 3) && (last !in logins ==> |logins| < 2)
  {
    var init := met[..|met| - 1];
    CountIs(met, (m: Met) => Retryable(m));
    CountIs(met, (m: Met) => Unauthorised(m));
    assert Indices(met, (m: Met) => Retryable(m)) == set i | 0 <= i < |met| &&
      (met[i].NoAnswer? || (met[i].Said? && met[i].status >= 500 && met[i].status != 503));
    assert Indices(met, (m: Met) => Unauthorised(m)) == set i | 0 <= i < |met| && met[i].Said? && met[i].status == 401;
    assert forall i :: 0 <= i < |init| ==> init[i] == met[i];
    assert met == init + [met[|met| - 1]];
    MetAppends(init, met[|met| - 1]);
  }

  function Indices(met: seq<Met>, p: Met -> bool): set<int> { set i | 0 <= i < |met| && p(met[i]) }

  lemma {:induction false} CountIs(met: seq<Met>, p: Met -> bool)
    ensures Count(met, p) == |Indices(met, p)|
  {
    if met != [] {
      var n := |met| - 1;
      CountIs(met[..n], p);
      assert Indices(met, p) == Indices(met[..n], p) + if p(met[n]) then {n} else {};
    }
  }

  /** One turn: a token that still holds is used as it is, otherwise the token route is asked first;
      the first 401 drops the token, so that the next turn asks again. */
  lemma TurnMeans(w: World, tokens: seq<Option<Time>>, met: seq<Met>, i: nat)
    requires Traces(w, tokens, met) && i < |met|
    ensures var holds := tokens[i].Some? && w.clock(i) < tokens[i].value;
      var granted, reply := !holds && w.token(i).Granted?, w.reply(i);
      && (met[i].TokenRefused? <==> !holds && w.token(i) == Denied)
      && (met[i] == NoAnswer(false) <==> !holds && w.token(i) == TokenUnreachable)
      && (met[i] == NoAnswer(true) <==> (holds || granted) && reply == Unreachable)
      && (met[i].Said? <==> (holds || granted) && reply.Answer?)
      && (met[i].Said? ==> reply == Answer(met[i].status, met[i].data, met[i].notEnabled))
    ensures tokens[i + 1] ==
      if met[i].Said? && met[i].status == 401 && !exists j :: 0 <= j < i && Unauthorised(met[j]) then None
      else if !(tokens[i].Some? && w.clock(i) < tokens[i].value) && w.token(i).Granted? then Some(w.token(i).expires)
      else tokens[i]
  {
    assert TraceAt(w, tokens, met, i);
    NoLogin(met[..i]);
    assert forall j :: 0 <= j < i ==> met[..i][j] == met[j];
  }

  lemma {:induction false} NoLogin(met: seq<Met>)
    ensures Logins(met) == 0 <==> forall j :: 0 <= j < |met| ==> !Unauthorised(met[j])
  {
    if met != [] {
      NoLogin(met[..|met| - 1]);
      assert forall j :: 0 <= j < |met| - 1 ==> met[..|met| - 1][j] == met[j];
    }
  }

  const CACHE_KEPT: int := 30 * 24 * HOUR

  /** What retention's deletion of old rows, one chunk of some slots, leaves of the cache. */
  function Kept(cache: map<string, Row>, at: Time, slots: set<string>): map<string, Row> {
    map s | s in cache && !(s in slots && cache[s].syncedAt < at - CACHE_KEPT) :: cache[s]
  }

  class Client {
    var token: Option<Time>
    var silentUntil: map<string, Time>
    var cache: map<string, Row>

    constructor ()
      ensures Contents() == START
    {
      token, silentUntil, cache := None, map[], map[];
    }

    function Contents(): State
      reads this
    {
      State(token, silentUntil, cache)
    }

    /** A call. It sends at most four command requests and waits at most three seconds in all. */
    method Call(q: Request, w: World)
        returns (o: Outcome, requests: nat, waited: nat, ghost met: seq<Met>, ghost tokens: seq<Option<Time>>)
      requires forall i: nat, j: nat :: i <= j ==> w.clock(i) <= w.clock(j)
      modifies this
      ensures Effect(old(Contents()), Contents(), Record(q, met, w.clock(0), w.clock(|met|), w.cacheWrites, o))
      ensures Along(w, tokens, met, old(token), token)
      ensures requests == Requests(met) && requests <= ATTEMPTS + 1
      ensures waited == Waits(Tries(met)) && waited <= 3
    {
      requests, waited, met, tokens := 0, 0, [], [token];
      if !q.pathOk {
        return Outcome(ErpBug, None), requests, waited, met, tokens;
      }
      if q.key in silentUntil && w.clock(0) < silentUntil[q.key] {
        return Outcome(NotEnabled, None), requests, waited, met, tokens;
      }
      var last, turn;
      last, turn, requests, waited, met, tokens := Ask(w);
      if Retryable(last) {
        o := Outcome(NoContact, None);
        if q.get && Cached(cache, q).Some? {
          o := Outcome(Stale, Cached(cache, q));
        }
      } else {
        o := Conclude(q, last, w.clock(turn), w.cacheWrites);
      }
    }

    /** The loop: turn after turn, until one ends the call. */
    method Ask(w: World) returns (last: Met, turn: nat, requests: nat, waited: nat,
                                  ghost met: seq<Met>, ghost tokens: seq<Option<Time>>)
      modifies this`token
      ensures Complete(met) && last == met[|met| - 1] && turn == |met|
      ensures Along(w, tokens, met, old(token), token)
      ensures requests == Requests(met) && requests <= ATTEMPTS + 1
      ensures waited == Waits(Tries(met))
    {
      requests, waited, met, tokens := 0, 0, [], [token];
      var attempt, retriedAuth := 0, false;
      turn := 0;
      while true
        invariant turn == |met| && Along(w, tokens, met, old(token), token)
        invariant Pending(met) && attempt == Tries(met) && retriedAuth == (Logins(met) == 1)
        invariant requests == Requests(met) && requests <= |met|
        invariant waited == Waits(attempt)
        decreases ATTEMPTS - attempt, !retriedAuth
      {
        ghost var before, held := met, token;
        last := Turn(w, turn);
        met := before + [last];
        MetAppends(before, last);
        PendingNext(before, last);
        AlongNext(w, tokens, before, old(token), held, last, token);
        if last.Said? || last == NoAnswer(true) {
          requests := requests + 1;
        }
        turn := turn + 1;
        var again := Retryable(last) || (Unauthorised(last) && !retriedAuth);
        if Unauthorised(last) && !retriedAuth {
          retriedAuth := true;
          token := None;
        } else if Retryable(last) {
          attempt := attempt + 1;
          if attempt < ATTEMPTS {
            waited := waited + BACKOFF[attempt - 1];
          }
        }
        tokens := tokens + [token];
        if !again || attempt == ATTEMPTS {
          return;
        }
      }
    }

    /** The token, asked for when there is none that still holds, and then the command. */
    method Turn(w: World, turn: nat) returns (m: Met)
      modifies this`token
      ensures (m, token) == Meets(w, turn, old(token))
    {
      if token.None? || token.value <= w.clock(turn) {
        match w.token(turn) {
          case Denied => return TokenRefused;
          case TokenUnreachable => return NoAnswer(false);
          case Granted(expires) => token := Some(expires);
        }
      }
      m := Heard(w.reply(turn));
    }

    /** An answer that ends the call. */
    method Conclude(q: Request, m: Met, now: Time, cacheWrites: bool) returns (o: Outcome)
      requires !Retryable(m)
      modifies this`silentUntil, this`cache
      ensures o == OutcomeOf(q, None, m)
      ensures silentUntil == if SaysNotEnabled(m) then old(silentUntil)[q.key := now + HOUR] else old(silentUntil)
      ensures cache == if q.get && q.hasDb && cacheWrites && Succeeded(m) && !m.data.Bytes?
                       then old(cache)[q.slot := Row(m.data, now)] else old(cache)
    {
      if m.TokenRefused? {
        return Outcome(AuthFailed, None);
      }
      if 200 <= m.status < 300 {
        if q.get && q.hasDb && !m.data.Bytes? && cacheWrites {
          cache := cache[q.slot := Row(m.data, now)];
        }
        return Outcome(Ok, Some(m.data));
      }
      if m.status == 401 {
        return Outcome(AuthFailed, None);
      }
      if m.status == 403 || (m.status == 503 && m.notEnabled) {
        silentUntil := silentUntil[q.key := now + HOUR];
        return Outcome(NotEnabled, None);
      }
      if m.status == 503 {
        return Outcome(CapabilityUnavailable, None);
      }
      if m.status == 409 {
        return Outcome(Conflict, None);
      }
      if m.status == 400 {
        return Outcome(BadRequest, None);
      }
      if m.status == 404 {
        return Outcome(NotFound, None);
      }
      o := Outcome(ErpBug, None);
    }

    /** One chunk of the deletion of rows not refreshed for 30 days. */
    method DropOld(at: Time, slots: set<string>)
      modifies this`cache
      ensures cache == Kept(old(cache), at, slots)
    {
      var todo := slots;
      ghost var before, done: set<string> := cache, {};
      while todo != {}
        invariant todo + done == slots && todo !! done && cache == Kept(before, at, done)
        decreases |todo|
      {
        var s :| s in todo;
        if s in cache && cache[s].syncedAt < at - CACHE_KEPT {
          cache := cache - {s};
        }
        todo, done := todo - {s}, done + {s};
      }
    }
  }

  lemma MetAppends(met: seq<Met>, m: Met)
    ensures (met + [m])[..|met|] == met
    ensures Tries(met + [m]) == Tries(met) + if Retryable(m) then 1 else 0
    ensures Logins(met + [m]) == Logins(met) + if Unauthorised(m) then 1 else 0
    ensures Requests(met + [m]) == Requests(met) + if m.Said? || m == NoAnswer(true) then 1 else 0
  {
    assert (met + [m])[..|met|] == met;
  }

  /** One more turn either leaves the call pending or completes it. */
  lemma PendingNext(met: seq<Met>, m: Met)
    requires Pending(met)
    ensures |met| <= ATTEMPTS
    ensures var again := (Retryable(m) && Tries(met) + 1 < ATTEMPTS) || (Unauthorised(m) && Logins(met) == 0);
      if again then Pending(met + [m]) else Complete(met + [m])
  {
    MetAppends(met, m);
    PendingIsShort(met);
    var all := met + [m];
    assert all[|met|] == m;
    assert forall i :: 0 <= i < |met| ==> all[i] == met[i];
  }

  /** So no call has more than four turns. */
  lemma {:induction false} PendingIsShort(met: seq<Met>)
    requires forall i :: 0 <= i < |met| ==> Retryable(met[i]) || Unauthorised(met[i])
    ensures |met| == Tries(met) + Logins(met)
  {
    if met != [] {
      PendingIsShort(met[..|met| - 1]);
    }
  }

  // ----- runs of calls, one after the other -----

  /** A call; or a chunk of retention's deletion of old cache rows. */
  datatype Step = Called(r: Record, after: State) | Dropped(at: Time, slots: set<string>, after: State)

  const START := State(None, map[], map[])

  function StateAt(run: seq<Step>): State { if run == [] then START else run[|run| - 1].after }

  ghost predicate Follows(before: State, s: Step) {
    match s
    case Called(r, after) => Effect(before, after, r)
    case Dropped(at, slots, after) => after == before.(cache := Kept(before.cache, at, slots))
  }

  ghost predicate Proceeds(run: seq<Step>) {
    run == [] || (Proceeds(run[..|run| - 1]) && Follows(StateAt(run[..|run| - 1]), run[|run| - 1]))
  }

  lemma {:induction false} ProceedsAt(run: seq<Step>, i: nat)
    requires Proceeds(run) && i < |run|
    ensures Proceeds(run[..i]) && Proceeds(run[..i + 1]) && Follows(StateAt(run[..i]), run[i])
  {
    var init := run[..|run| - 1];
    if i < |run| - 1 {
      ProceedsAt(init, i);
      assert init[..i] == run[..i] && init[..i + 1] == run[..i + 1];
    } else {
      assert run[..i + 1] == run;
    }
  }

  predicate ReadsInto(s: Step, slot: string) { s.Called? && s.r.q.slot == slot && Reads(s.r) }

  /** The last successful JSON read of a slot. */
  function LatestRead(run: seq<Step>, slot: string): Option<Row> {
    if run == [] then None
    else if ReadsInto(run[|run| - 1], slot) then Some(RowOf(run[|run| - 1].r))
    else LatestRead(run[..|run| - 1], slot)
  }

  /** The same, unless its row has since been found old and deleted. */
  function LastKept(run: seq<Step>, slot: string): Option<Row> {
    if run == [] then None
    else
      var s, before := run[|run| - 1], LastKept(run[..|run| - 1], slot);
      if ReadsInto(s, slot) then Some(RowOf(s.r))
      else if s.Dropped? && before.Some? && slot in s.slots && before.value.syncedAt < s.at - CACHE_KEPT then None
      else before
  }

  lemma {:induction false} KeptIsLatest(run: seq<Step>, slot: string)
    ensures LastKept(run, slot).Some? ==> LastKept(run, slot) == LatestRead(run, slot)
  {
    if run != [] {
      KeptIsLatest(run[..|run| - 1], slot);
    }
  }

  /** A read is kept as long as no deletion comes later than rows are kept. */
  lemma {:induction false} RecentIsKept(run: seq<Step>, slot: string)
    requires LatestRead(run, slot).Some?
    requires forall i :: 0 <= i < |run| && run[i].Dropped? ==>
      run[i].at - CACHE_KEPT <= LatestRead(run, slot).value.syncedAt
    ensures LastKept(run, slot) == LatestRead(run, slot)
  {
    var n := |run| - 1;
    if !ReadsInto(run[n], slot) {
      RecentIsKept(run[..n], slot);
    }
  }

  lemma {:induction false} CacheHoldsLast(run: seq<Step>, slot: string)
    requires Proceeds(run)
    ensures LastKept(run, slot) == if slot in StateAt(run).cache then Some(StateAt(run).cache[slot]) else None
  {
    if run != [] {
      CacheHoldsLast(run[..|run| - 1], slot);
    }
  }

  /** A stale answer is exactly the latest successful JSON read of its own slot, and a command is
      never answered from the cache. */
  lemma {:induction false} StaleIsLatest(run: seq<Step>, i: nat)
    requires Proceeds(run) && i < |run| && run[i].Called? && run[i].r.o.code == Stale
    ensures var r, latest := run[i].r, LatestRead(run[..i], run[i].r.q.slot);
      r.q.get && latest.Some? && r.o.data == Some(latest.value.data)
  {
    ProceedsAt(run, i);
    CacheHoldsLast(run[..i], run[i].r.q.slot);
    KeptIsLatest(run[..i], run[i].r.q.slot);
  }

  /** And a call that ends without a usable answer is answered so exactly when it is a read, with a
      database, whose slot's last read was of something and is still kept. */
  lemma {:induction false} StaleWhenever(run: seq<Step>, i: nat)
    requires Proceeds(run) && i < |run| && run[i].Called?
    requires var met := run[i].r.met; met != [] && Retryable(met[|met| - 1])
    ensures var r, last := run[i].r, LastKept(run[..i], run[i].r.q.slot);
      r.o == if r.q.get && r.q.hasDb && last.Some? && last.value.data != JsonNull
             then Outcome(Stale, Some(last.value.data)) else Outcome(NoContact, None)
  {
    ProceedsAt(run, i);
    CacheHoldsLast(run[..i], run[i].r.q.slot);
  }

  predicate ToldAt(s: Step, key: string) { s.Called? && Told(s.r) && s.r.q.key == key }

  /** Silence never shortens. */
  lemma {:induction false} SilenceHolds(run: seq<Step>, i: nat)
    requires Proceeds(run) && i < |run| && run[i].Called? && Told(run[i].r)
    ensures var k, until := run[i].r.q.key, run[i].r.endedAt + HOUR;
      k in StateAt(run).silentUntil && until <= StateAt(run).silentUntil[k]
  {
    if i < |run| - 1 {
      SilenceHolds(run[..|run| - 1], i);
    }
  }

  /** And it comes from an answer only. */
  lemma {:induction false} SilenceIsTold(run: seq<Step>, k: string) returns (i: nat)
    requires Proceeds(run) && k in StateAt(run).silentUntil
    ensures i < |run| && ToldAt(run[i], k) && StateAt(run).silentUntil[k] == run[i].r.endedAt + HOUR
  {
    var n := |run| - 1;
    if ToldAt(run[n], k) {
      i := n;
    } else {
      i := SilenceIsTold(run[..n], k);
    }
  }

  /** The call comes within an hour of an earlier answer "not enabled" for its key. */
  ghost predicate WithinTheHour(run: seq<Step>, j: nat)
    requires j < |run| && run[j].Called?
  {
    exists i :: 0 <= i < j && ToldAt(run[i], run[j].r.q.key) && run[j].r.startedAt < run[i].r.endedAt + HOUR
  }

  /** A call with a proper path sends nothing and answers "not enabled" unasked exactly within an hour
      of being told so for that key, whatever is called in between. */
  lemma {:induction false} HourOfSilence(run: seq<Step>, j: nat)
    requires Proceeds(run) && j < |run| && run[j].Called? && run[j].r.q.pathOk
    ensures run[j].r.met == [] <==> WithinTheHour(run, j)
    ensures run[j].r.met == [] ==> run[j].r.o == Outcome(NotEnabled, None)
  {
    var r := run[j].r;
    ProceedsAt(run, j);
    if WithinTheHour(run, j) {
      var i :| 0 <= i < j && ToldAt(run[i], r.q.key) && r.startedAt < run[i].r.endedAt + HOUR;
      SilenceHolds(run[..j], i);
    }
    if IsSilent(StateAt(run[..j]).silentUntil, r.q.key, r.startedAt) {
      var i := SilenceIsTold(run[..j], r.q.key);
      assert run[..j][i] == run[i];
    }
  }
}
