/**
Administrator sessions and the login limit.

A cookie is taken as what the signature check makes of it: unreadable, or claims somebody once signed
with this key, possibly an earlier runtime. Session identifiers are the ones drawn at each login.
*/
module AdminSessions {
  import opened Options
  import opened Sequences
  import opened Sets

  type Actor = string
  type SessionId = nat

  const BUCKETS := 1024

  datatype Config = Config(ttl: nat, window: nat, maxAttempts: nat, maxSessions: nat)

  /** What the constructor accepts. */
  predicate ValidConfig(cfg: Config) {
    && 60 <= cfg.ttl <= 43200 && 10 <= cfg.window <= 3600
    && 1 <= cfg.maxAttempts <= 20 && 1 <= cfg.maxSessions <= 1024
  }

  datatype Cookie = Unreadable | Signed(issued: int, expires: int, session: SessionId)

  /** `order` is the order in which the buckets of `attempts` were created. */
  datatype State = State(sessions: map<SessionId, int>, attempts: map<Actor, seq<int>>, order: seq<Actor>)

  const INITIAL := State(map[], map[], [])

  datatype Reason =
    | OriginRejected | RateLimited | InvalidCredentials | SessionCapacity | Authenticated(cookie: Cookie)
    | InvalidSession | CsrfRejected | Authorized | Revoked(done: bool) | Token(given: bool)

  datatype Op =
    | Login(actor: Actor, origin: bool, password: bool, at: int, drawn: SessionId)
    | Authorize(origin: bool, presented: Cookie, mutates: bool, csrf: bool, at: int)
    | CsrfToken(presented: Cookie, at: int)
    | Revoke(presented: Cookie, at: int)

  // ---- Sessions ----

  function Unexpired(sessions: map<SessionId, int>, now: int): map<SessionId, int> {
    map id | id in sessions && sessions[id] > now :: sessions[id]
  }

  /** The claims of a cookie hold now, in this runtime. */
  predicate Claims(cfg: Config, sessions: map<SessionId, int>, cookie: Cookie, now: int) {
    && cookie.Signed?
    && 0 <= cookie.issued <= now < cookie.expires && cookie.expires - cookie.issued == cfg.ttl
    && Lookup(sessions, cookie.session) == Some(cookie.expires)
  }

  function Pruned(s: State, now: int): State {
    s.(sessions := Unexpired(s.sessions, now))
  }

  // ---- Login attempts ----

  function DropOld(times: seq<int>, cutoff: int): seq<int> {
    if times != [] && times[0] <= cutoff then DropOld(times[1..], cutoff) else times
  }

  function Bucket(s: State, actor: Actor): seq<int> {
    GetOr(s.attempts, actor, [])
  }

  /** A bucket that is not there yet is created last. */
  function Filed(s: State, actor: Actor, times: seq<int>): State {
    s.(attempts := s.attempts[actor := times], order := if actor in s.attempts then s.order else s.order + [actor])
  }

  function Without<T(==)>(order: seq<T>, actor: T): seq<T> {
    if order == [] then []
    else Without(order[..|order| - 1], actor) + if order[|order| - 1] == actor then [] else [order[|order| - 1]]
  }

  function Forgotten(s: State, actor: Actor): State {
    s.(attempts := s.attempts - {actor}, order := Without(s.order, actor))
  }

  /** Too many buckets: the ones created first go. */
  function Trimmed(s: State): State {
    if |s.order| <= BUCKETS then s
    else
      var gone := s.order[..|s.order| - BUCKETS];
      s.(attempts := s.attempts - (set a | a in gone), order := s.order[|s.order| - BUCKETS..])
  }

  predicate Limited(cfg: Config, s: State, actor: Actor, now: int) {
    |DropOld(Bucket(s, actor), now - cfg.window)| >= cfg.maxAttempts
  }

  // ---- Operations ----

  function Issued(cfg: Config, s: State, now: int, drawn: SessionId): (State, Reason) {
    var pruned := Pruned(s, now);
    if |pruned.sessions| >= cfg.maxSessions then (pruned, SessionCapacity)
    else (pruned.(sessions := pruned.sessions[drawn := now + cfg.ttl]),
        Authenticated(Signed(now, now + cfg.ttl, drawn)))
  }

  function LoggedIn(cfg: Config, s: State, op: Op): (State, Reason)
    requires op.Login?
  {
    var recent := DropOld(Bucket(s, op.actor), op.at - cfg.window);
    if !op.origin then (s, OriginRejected)
    else if |recent| >= cfg.maxAttempts then (Filed(s, op.actor, recent), RateLimited)
    else if !op.password then (Trimmed(Filed(s, op.actor, recent + [op.at])), InvalidCredentials)
    else Issued(cfg, Forgotten(s, op.actor), op.at, op.drawn)
  }

  function Step(cfg: Config, s: State, op: Op): (State, Reason) {
    match op
    case Login(_, _, _, _, _) => LoggedIn(cfg, s, op)
    case Authorize(origin, cookie, mutates, csrf, now) =>
      if !origin then (s, OriginRejected)
      else if !Claims(cfg, Unexpired(s.sessions, now), cookie, now) then (Pruned(s, now), InvalidSession)
      else if mutates && !csrf then (Pruned(s, now), CsrfRejected)
      else (Pruned(s, now), Authorized)
    case CsrfToken(cookie, now) =>
      (Pruned(s, now), Token(Claims(cfg, Unexpired(s.sessions, now), cookie, now)))
    case Revoke(cookie, now) =>
      if Claims(cfg, Unexpired(s.sessions, now), cookie, now)
      then (s.(sessions := Unexpired(s.sessions, now) - {cookie.session}), Revoked(true))
      else (Pruned(s, now), Revoked(false))
  }

  function Run(cfg: Config, ops: seq<Op>): State {
    if ops == [] then INITIAL else Step(cfg, Run(cfg, ops[..|ops| - 1]), ops[|ops| - 1]).0
  }

  function Answer(cfg: Config, ops: seq<Op>, i: nat): Reason
    requires i < |ops|
  {
    Step(cfg, Run(cfg, ops[..i]), ops[i]).1
  }

  // ---- The live sessions ----

  /** The operation looked at the session table at this time. */
  predicate Reaches(op: Op, answer: Reason) {
    match op
    case Login(_, _, _, _, _) => answer.Authenticated? || answer.SessionCapacity?
    case Authorize(origin, _, _, _, _) => origin
    case CsrfToken(_, _) | Revoke(_, _) => true
  }

  predicate Issues(answer: Reason, session: SessionId, expires: int) {
    answer.Authenticated? && answer.cookie.Signed? && answer.cookie.session == session
        && answer.cookie.expires == expires
  }

  /** An operation after which a session that was live still is: it was not its end, and no clock reading reached its
      expiry. */
  predicate Spares(op: Op, answer: Reason, session: SessionId, expires: int) {
    && (Reaches(op, answer) ==> op.at < expires)
    && !(op.Revoke? && answer == Revoked(true) && op.presented.Signed? && op.presented.session == session)
    && !(answer.Authenticated? && answer.cookie.Signed? && answer.cookie.session == session)
  }

  ghost predicate LiveSince(cfg: Config, ops: seq<Op>, i: nat, session: SessionId, expires: int)
    requires i < |ops|
  {
    && Issues(Answer(cfg, ops, i), session, expires)
    && forall j :: i < j < |ops| ==> Spares(ops[j], Answer(cfg, ops, j), session, expires)
  }

  /** The session was issued, and everything since has spared it. */
  ghost predicate Live(cfg: Config, ops: seq<Op>, session: SessionId, expires: int) {
    exists i: nat :: i < |ops| && LiveSince(cfg, ops, i, session, expires)
  }

  lemma UnexpiredLookup(sessions: map<SessionId, int>, now: int, session: SessionId)
    ensures Lookup(Unexpired(sessions, now), session) ==
              var found := Lookup(sessions, session); if found.Some? && found.value > now then found else None
  {
  }

  lemma UpdatedLookup(sessions: map<SessionId, int>, key: SessionId, expires: int, session: SessionId)
    ensures Lookup(sessions[key := expires], session) == if session == key then Some(expires)
        else Lookup(sessions, session)
  {
  }

  lemma RemovedLookup(sessions: map<SessionId, int>, key: SessionId, session: SessionId)
    ensures Lookup(sessions - {key}, session) == if session == key then None else Lookup(sessions, session)
  {
  }

  lemma LoginTable(cfg: Config, s: State, op: Op)
    requires op.Login?
    ensures var (s', answer) := LoggedIn(cfg, s, op);
            if answer.Authenticated? then s'.sessions == Unexpired(s.sessions, op.at)[op.drawn := op.at + cfg.ttl]
                                       && answer.cookie == Signed(op.at, op.at + cfg.ttl, op.drawn)
            else if answer.SessionCapacity? then s'.sessions == Unexpired(s.sessions, op.at)
            else s'.sessions == s.sessions
                 && (answer.OriginRejected? || answer.RateLimited? || answer.InvalidCredentials?)
  {
    hide DropOld, Bucket, Without;
  }

  /** One step of the table: what is in it afterwards was issued by the step, or was in it and was spared. */
  lemma StepOfTable(cfg: Config, s: State, op: Op, session: SessionId, expires: int)
    ensures var (s', answer) := Step(cfg, s, op);
            Lookup(s'.sessions, session) == Some(expires) <==>
              || Issues(answer, session, expires)
              || (Lookup(s.sessions, session) == Some(expires) && Spares(op, answer, session, expires))
  {
    hide LoggedIn, Unexpired, Lookup;
    UnexpiredLookup(s.sessions, op.at, session);
    if op.Login? {
      LoginTable(cfg, s, op);
      UpdatedLookup(Unexpired(s.sessions, op.at), op.drawn, op.at + cfg.ttl, session);
    }
    if op.Revoke? && op.presented.Signed? {
      RemovedLookup(Unexpired(s.sessions, op.at), op.presented.session, session);
    }
  }

  lemma AnswerOfPrefix(cfg: Config, ops: seq<Op>, op: Op, i: nat)
    requires i <= |ops|
    ensures Answer(cfg, ops + [op], i) == if i < |ops| then Answer(cfg, ops, i) else Step(cfg, Run(cfg, ops), op).1
  {
    hide Step, Run;
    assert (ops + [op])[..i] == ops[..i];
    assert ops[..|ops|] == ops;
  }

  lemma SinceOneMore(cfg: Config, ops: seq<Op>, op: Op, i: nat, session: SessionId, expires: int)
    requires i < |ops|
    ensures LiveSince(cfg, ops + [op], i, session, expires) <==>
              LiveSince(cfg, ops, i, session, expires) && Spares(op, Step(cfg, Run(cfg, ops), op).1, session, expires)
  {
    hide Step, Run, Issues, Spares, Answer;
    var all := ops + [op];
    forall j: nat | j <= |ops| ensures Answer(cfg, all, j) == if j < |ops| then Answer(cfg, ops, j)
        else Step(cfg, Run(cfg, ops), op).1 {
      AnswerOfPrefix(cfg, ops, op, j);
    }
    assert all[|ops|] == op;
    assert forall j :: 0 <= j < |ops| ==> all[j] == ops[j];
  }

  lemma LiveAfter(cfg: Config, ops: seq<Op>, op: Op, session: SessionId, expires: int)
    ensures var answer := Step(cfg, Run(cfg, ops), op).1;
            Live(cfg, ops + [op], session, expires) <==>
              Issues(answer, session, expires) || (Live(cfg, ops, session, expires)
                  && Spares(op, answer, session, expires))
  {
    hide Step, Run, Issues, Spares, Answer;
    var all, answer := ops + [op], Step(cfg, Run(cfg, ops), op).1;
    forall i: nat | i <= |ops| ensures Answer(cfg, all, i) == if i < |ops| then Answer(cfg, ops, i) else answer {
      AnswerOfPrefix(cfg, ops, op, i);
    }
    assert LiveSince(cfg, all, |ops|, session, expires) <==> Issues(answer, session, expires);
    forall i: nat | i < |ops|
      ensures LiveSince(cfg, all, i, session, expires)
         <==> LiveSince(cfg, ops, i, session, expires) && Spares(op, answer, session, expires)
    {
      SinceOneMore(cfg, ops, op, i, session, expires);
    }
  }

  /** The session table holds the live sessions of the history, no more and no less. */
  lemma {:induction false} TableIsLive(cfg: Config, ops: seq<Op>, session: SessionId, expires: int)
    ensures Lookup(Run(cfg, ops).sessions, session) == Some(expires) <==> Live(cfg, ops, session, expires)
  {
    hide Step, Issues, Spares, LiveSince;
    if ops != [] {
      var init, op := ops[..|ops| - 1], ops[|ops| - 1];
      TableIsLive(cfg, init, session, expires);
      StepOfTable(cfg, Run(cfg, init), op, session, expires);
      LiveAfter(cfg, init, op, session, expires);
      assert init + [op] == ops;
    }
  }

  /** A cookie is accepted if and only if its times are right and its session is live. */
  lemma AcceptedIffLive(cfg: Config, ops: seq<Op>, cookie: Cookie, now: int)
    ensures Claims(cfg, Unexpired(Run(cfg, ops).sessions, now), cookie, now) <==>
              && cookie.Signed? && 0 <= cookie.issued <= now < cookie.expires
                  && cookie.expires - cookie.issued == cfg.ttl
              && Live(cfg, ops, cookie.session, cookie.expires)
  {
    hide Run, Live;
    if cookie.Signed? {
      TableIsLive(cfg, ops, cookie.session, cookie.expires);
    }
  }

  lemma IssuedCookie(cfg: Config, s: State, op: Op)
    ensures var answer := Step(cfg, s, op).1;
            answer.Authenticated? ==> answer.cookie.Signed? && answer.cookie.expires - answer.cookie.issued == cfg.ttl
  {
    hide DropOld, Bucket, Without, Trimmed, Claims, Unexpired;
  }

  /** An accepted cookie is, to the last field, one that a login of this runtime returned. */
  lemma AcceptedWasIssued(cfg: Config, ops: seq<Op>, cookie: Cookie, now: int)
    requires Claims(cfg, Unexpired(Run(cfg, ops).sessions, now), cookie, now)
    ensures exists i: nat :: i < |ops| && Answer(cfg, ops, i) == Authenticated(cookie)
  {
    hide Run, Step, Spares;
    AcceptedIffLive(cfg, ops, cookie, now);
    var i: nat :| i < |ops| && LiveSince(cfg, ops, i, cookie.session, cookie.expires);
    IssuedCookie(cfg, Run(cfg, ops[..i]), ops[i]);
  }

  /** The session is not drawn again after operation `i`. */
  predicate NotDrawnAgain(ops: seq<Op>, i: nat, session: SessionId)
  {
    forall j :: i < j < |ops| && ops[j].Login? ==> ops[j].drawn != session
  }

  lemma DrawnAtLogin(cfg: Config, s: State, op: Op, session: SessionId, expires: int)
    requires Issues(Step(cfg, s, op).1, session, expires)
    ensures op.Login? && op.drawn == session
  {
    hide DropOld, Bucket, Without, Trimmed, Claims, Unexpired;
  }

  lemma EndsAtAnUnsparing(cfg: Config, ops: seq<Op>, i: nat, cookie: Cookie, now: int)
    requires i < |ops| && cookie.Signed? && NotDrawnAgain(ops, i, cookie.session)
    requires !Spares(ops[i], Answer(cfg, ops, i), cookie.session, cookie.expires)
    requires !Issues(Answer(cfg, ops, i), cookie.session, cookie.expires)
    ensures !Claims(cfg, Unexpired(Run(cfg, ops).sessions, now), cookie, now)
  {
    hide Run, Step, Spares, Issues, Claims;
    AcceptedIffLive(cfg, ops, cookie, now);
    if Live(cfg, ops, cookie.session, cookie.expires) {
      var k: nat :| k < |ops| && LiveSince(cfg, ops, k, cookie.session, cookie.expires);
      DrawnAtLogin(cfg, Run(cfg, ops[..k]), ops[k], cookie.session, cookie.expires);
      assert k > i;
    }
  }

  /** A cookie that was revoked is never accepted again, at any time. */
  lemma RevokedStaysOut(cfg: Config, ops: seq<Op>, i: nat, now: int)
    requires i < |ops| && ops[i].Revoke? && Answer(cfg, ops, i) == Revoked(true)
    requires ops[i].presented.Signed? && NotDrawnAgain(ops, i, ops[i].presented.session)
    ensures !Claims(cfg, Unexpired(Run(cfg, ops).sessions, now), ops[i].presented, now)
  {
    hide Run, Answer;
    EndsAtAnUnsparing(cfg, ops, i, ops[i].presented, now);
  }

  lemma IssuedLater(cfg: Config, ops: seq<Op>, i: nat, session: SessionId, expires: int)
    requires i < |ops| && Issues(Answer(cfg, ops, i), session, expires) && cfg.ttl > 0
    ensures ops[i].at < expires
  {
    hide Run, DropOld, Bucket, Without, Trimmed, Claims, Unexpired;
  }

  /** Nor is one whose expiry any look at the table has reached, even if the clock then goes back. */
  lemma ExpiredStaysOut(cfg: Config, ops: seq<Op>, i: nat, cookie: Cookie, now: int)
    requires i < |ops| && cookie.Signed? && Reaches(ops[i], Answer(cfg, ops, i)) && ops[i].at >= cookie.expires
    requires NotDrawnAgain(ops, i, cookie.session) && cfg.ttl > 0
    ensures !Claims(cfg, Unexpired(Run(cfg, ops).sessions, now), cookie, now)
  {
    hide Run, Answer;
    if Issues(Answer(cfg, ops, i), cookie.session, cookie.expires) {
      IssuedLater(cfg, ops, i, cookie.session, cookie.expires);
      assert false;
    }
    EndsAtAnUnsparing(cfg, ops, i, cookie, now);
  }

  /** No login, successful or refused, ends a session that has not expired. */
  lemma LoginsEvictNobody(cfg: Config, s: State, op: Op, session: SessionId)
    requires op.Login? && session in s.sessions && op.at < s.sessions[session] && op.drawn != session
    ensures Lookup(Step(cfg, s, op).0.sessions, session) == Some(s.sessions[session])
  {
    hide DropOld, Bucket, Without, Trimmed;
    LoginTable(cfg, s, op);
  }

  // ---- Sizes ----

  lemma UnexpiredCount(sessions: map<SessionId, int>, now: int)
    ensures |Unexpired(sessions, now)| <= |sessions|
  {
    SubsetCount(Unexpired(sessions, now).Keys, sessions.Keys);
  }

  lemma CapacityAtLogin(cfg: Config, s: State, op: Op)
    requires op.Login? && LoggedIn(cfg, s, op).1.Authenticated?
    ensures |Unexpired(s.sessions, op.at)[op.drawn := op.at + cfg.ttl]| <= cfg.maxSessions
  {
    hide DropOld, Bucket, Without, Unexpired;
    var kept := Unexpired(s.sessions, op.at);
    assert kept[op.drawn := op.at + cfg.ttl].Keys == kept.Keys + {op.drawn};
  }

  lemma TableCount(cfg: Config, s: State, op: Op)
    requires |s.sessions| <= cfg.maxSessions
    ensures |Step(cfg, s, op).0.sessions| <= cfg.maxSessions
  {
    hide DropOld, Bucket, Without, Trimmed, Unexpired, Limited;
    UnexpiredCount(s.sessions, op.at);
    if op.Login? {
      LoginTable(cfg, s, op);
      if LoggedIn(cfg, s, op).1.Authenticated? {
        CapacityAtLogin(cfg, s, op);
      }
    }
    if op.Revoke? && op.presented.Signed? {
      SubsetCount((Unexpired(s.sessions, op.at) - {op.presented.session}).Keys, Unexpired(s.sessions, op.at).Keys);
    }
  }

  /** The creation order lists the buckets there are, each once, and there are not too many. */
  ghost predicate Filing(s: State) {
    && Distinct(s.order) && (forall a :: a in s.order <==> a in s.attempts) && |s.order| <= BUCKETS
  }

  lemma {:induction false} WithoutKeepsDistinct(order: seq<Actor>, actor: Actor)
    requires Distinct(order)
    ensures Distinct(Without(order, actor)) && |Without(order, actor)| <= |order|
    ensures forall a :: a in Without(order, actor) <==> a in order && a != actor
  {
    if order != [] {
      WithoutKeepsDistinct(order[..|order| - 1], actor);
      assert forall a :: a in order <==> a in order[..|order| - 1] || a == order[|order| - 1];
      assert order[|order| - 1] !in order[..|order| - 1];
    }
  }

  lemma TrimmedFiling(s: State)
    requires Distinct(s.order) && (forall a :: a in s.order <==> a in s.attempts) && |s.order| <= BUCKETS + 1
    ensures Filing(Trimmed(s))
  {
    if |s.order| > BUCKETS {
      assert s.order == s.order[..1] + s.order[1..];
      assert forall a :: a in s.order <==> a in s.order[..1] || a in s.order[1..];
      assert forall a :: a in s.order[1..] ==> a != s.order[0];
    }
  }

  lemma NothingToDrop(cutoff: int)
    ensures DropOld([], cutoff) == []
  {
  }

  lemma FiledFiling(s: State, actor: Actor, times: seq<int>)
    requires Filing(s)
    ensures var f := Filed(s, actor, times);
            Distinct(f.order) && (forall a :: a in f.order <==> a in f.attempts) && |f.order| <= |s.order| + 1
    ensures actor in s.attempts ==> Filing(Filed(s, actor, times))
  {
  }

  lemma LoginFiling(cfg: Config, s: State, op: Op)
    requires Filing(s) && op.Login? && cfg.maxAttempts > 0
    ensures Filing(LoggedIn(cfg, s, op).0)
  {
    hide DropOld, Unexpired, Trimmed, Without;
    WithoutKeepsDistinct(s.order, op.actor);
    var recent := DropOld(Bucket(s, op.actor), op.at - cfg.window);
    FiledFiling(s, op.actor, recent + [op.at]);
    TrimmedFiling(Filed(s, op.actor, recent + [op.at]));
    if op.actor !in s.attempts {
      assert recent == [] by { NothingToDrop(op.at - cfg.window); }
    } else {
      FiledFiling(s, op.actor, recent);
    }
  }

  lemma NothingFiled()
    ensures Filing(INITIAL)
  {
  }

  lemma OtherFiling(cfg: Config, s: State, op: Op)
    requires Filing(s) && !op.Login?
    ensures Filing(Step(cfg, s, op).0) && Step(cfg, s, op).0.attempts == s.attempts
  {
    hide Unexpired, Claims;
  }

  lemma {:induction false} MembersCount(order: seq<Actor>, keys: set<Actor>)
    requires forall a <- keys :: a in order
    ensures |keys| <= |order|
  {
    if order == [] {
      assert keys == {};
    } else {
      var last := order[|order| - 1];
      forall a | a in keys - {last} ensures a in order[..|order| - 1] {
        assert a in order;
      }
      MembersCount(order[..|order| - 1], keys - {last});
    }
  }

  lemma FilingCount(s: State)
    requires Filing(s)
    ensures |s.attempts| <= BUCKETS
  {
    MembersCount(s.order, s.attempts.Keys);
  }

  /** In every run the session table stays within its limit, and no more than 1024 clients have a bucket. */
  lemma {:induction false} TablesAreBounded(cfg: Config, ops: seq<Op>)
    requires ValidConfig(cfg)
    ensures |Run(cfg, ops).sessions| <= cfg.maxSessions && Filing(Run(cfg, ops)) && |Run(cfg, ops).attempts| <= BUCKETS
  {
    hide LoggedIn, Filing, Unexpired;
    if ops == [] {
      NothingFiled();
    } else {
      var s, op := Run(cfg, ops[..|ops| - 1]), ops[|ops| - 1];
      TablesAreBounded(cfg, ops[..|ops| - 1]);
      TableCount(cfg, s, op);
      if op.Login? {
        LoginFiling(cfg, s, op);
      } else {
        OtherFiling(cfg, s, op);
      }
    }
    FilingCount(Run(cfg, ops));
  }

  // ---- The login limit ----

  /** The times of an actor's failures since its last success, while its bucket was not trimmed away. */
  function Failures(cfg: Config, ops: seq<Op>, actor: Actor): seq<int> {
    if ops == [] then []
    else
      var init, op := ops[..|ops| - 1], ops[|ops| - 1];
      var (after, answer) := Step(cfg, Run(cfg, init), op);
      if actor !in after.attempts then []
      else Failures(cfg, init, actor) + if op.Login? && op.actor == actor && answer.InvalidCredentials? then [op.at]
          else []
  }

  function After(times: seq<int>, cutoff: int): seq<int> {
    if times == [] then []
    else After(times[..|times| - 1], cutoff) + if times[|times| - 1] > cutoff then [times[|times| - 1]] else []
  }

  /** The clock never goes back by more than `drift`. */
  predicate Drifts(ops: seq<Op>, drift: nat) {
    forall i, j :: 0 <= i < j < |ops| ==> ops[i].at <= ops[j].at + drift
  }

  /** The highest clock reading so far. */
  function Peak(ops: seq<Op>): int {
    if ops == [] then 0
    else
      var last := ops[|ops| - 1].at;
      if |ops| == 1 || Peak(ops[..|ops| - 1]) < last then last else Peak(ops[..|ops| - 1])
  }

  lemma {:induction false} PeakIsReading(ops: seq<Op>)
    requires ops != []
    ensures exists i :: 0 <= i < |ops| && ops[i].at == Peak(ops)
  {
    var init, last := ops[..|ops| - 1], |ops| - 1;
    if Peak(ops) == ops[last].at {
    } else {
      PeakIsReading(init);
      var i :| 0 <= i < |init| && init[i].at == Peak(init);
      assert ops[i].at == Peak(ops);
    }
  }

  lemma PeakWithin(ops: seq<Op>, drift: nat)
    requires Drifts(ops, drift) && ops != []
    ensures Peak(ops) <= ops[|ops| - 1].at + drift
  {
    PeakIsReading(ops);
  }

  predicate UpTo(times: seq<int>, last: int) {
    forall i :: 0 <= i < |times| ==> times[i] <= last
  }

  /** Dropping stops at the first time after the cutoff. */
  lemma {:induction false} DropOldCuts(times: seq<int>, cutoff: int) returns (n: nat)
    ensures n <= |times| && DropOld(times, cutoff) == times[n..]
    ensures UpTo(times[..n], cutoff) && (n < |times| ==> times[n] > cutoff)
    decreases |times|
  {
    if times != [] && times[0] <= cutoff {
      var k := DropOldCuts(times[1..], cutoff);
      n := k + 1;
      assert times[1..][k..] == times[n..];
      forall i | 0 <= i < n ensures times[..n][i] <= cutoff {
        if i > 0 {
          assert times[..n][i] == times[1..][..k][i - 1];
        }
      }
    } else {
      n := 0;
    }
  }

  ghost predicate KeptFrom(cfg: Config, queue: seq<int>, failures: seq<int>, peak: int, m: nat) {
    m <= |failures| && queue == failures[m..] && UpTo(failures[..m], peak - cfg.window) && UpTo(failures, peak)
  }

  /** The queue is the failures but for the first ones, which a clock reading has passed by a window. */
  ghost predicate Kept(cfg: Config, queue: seq<int>, failures: seq<int>, peak: int) {
    exists m: nat :: KeptFrom(cfg, queue, failures, peak, m)
  }

  lemma KeptLater(cfg: Config, queue: seq<int>, failures: seq<int>, peak: int, later: int)
    requires Kept(cfg, queue, failures, peak) && peak <= later
    ensures Kept(cfg, queue, failures, later)
  {
    var m: nat :| KeptFrom(cfg, queue, failures, peak, m);
    assert KeptFrom(cfg, queue, failures, later, m);
  }

  lemma KeptDrops(cfg: Config, queue: seq<int>, failures: seq<int>, peak: int, now: int) returns (m: nat)
    requires Kept(cfg, queue, failures, peak) && now <= peak
    ensures KeptFrom(cfg, DropOld(queue, now - cfg.window), failures, peak, m)
    ensures DropOld(queue, now - cfg.window) != [] ==> DropOld(queue, now - cfg.window)[0] > now - cfg.window
  {
    var k: nat :| KeptFrom(cfg, queue, failures, peak, k);
    var n := DropOldCuts(queue, now - cfg.window);
    m := k + n;
    assert failures[k..][n..] == failures[m..];
    forall i | 0 <= i < m ensures failures[..m][i] <= peak - cfg.window {
      if i < k {
        assert failures[..m][i] == failures[..k][i];
      } else {
        assert failures[..m][i] == queue[..n][i - k];
      }
    }
  }

  lemma KeptAdds(cfg: Config, queue: seq<int>, failures: seq<int>, peak: int, now: int)
    requires Kept(cfg, queue, failures, peak) && now <= peak
    ensures Kept(cfg, queue + [now], failures + [now], peak)
  {
    var m: nat :| KeptFrom(cfg, queue, failures, peak, m);
    assert (failures + [now])[..m] == failures[..m];
    assert (failures + [now])[m..] == failures[m..] + [now];
    assert KeptFrom(cfg, queue + [now], failures + [now], peak, m);
  }

  lemma TrimKeepsOrForgets(s: State, actor: Actor)
    ensures Bucket(Trimmed(s), actor) == if actor in Trimmed(s).attempts then Bucket(s, actor) else []
  {
  }

  /** What one operation does to the bucket of an actor. */
  lemma BucketAfter(cfg: Config, s: State, op: Op, actor: Actor)
    ensures var (s', answer) := Step(cfg, s, op); var own := op.Login? && op.actor == actor;
            Bucket(s', actor) ==
              if actor !in s'.attempts then []
              else if own && answer.InvalidCredentials? then DropOld(Bucket(s, actor), op.at - cfg.window) + [op.at]
              else if own && answer.RateLimited? then DropOld(Bucket(s, actor), op.at - cfg.window)
              else Bucket(s, actor)
  {
    hide DropOld, Without, Unexpired, Claims;
    if op.Login? {
      var recent := DropOld(Bucket(s, op.actor), op.at - cfg.window);
      TrimKeepsOrForgets(Filed(s, op.actor, recent + [op.at]), actor);
      hide Trimmed;
    }
  }

  lemma NothingKept(cfg: Config, actor: Actor)
    ensures forall peak :: Kept(cfg, [], [], peak)
    ensures Bucket(INITIAL, actor) == []
  {
    forall peak ensures Kept(cfg, [], [], peak) {
      assert KeptFrom(cfg, [], [], peak, 0);
    }
  }

  lemma KeptWitness(cfg: Config, queue: seq<int>, failures: seq<int>, peak: int, m: nat)
    requires KeptFrom(cfg, queue, failures, peak, m)
    ensures Kept(cfg, queue, failures, peak)
  {
  }

  /** In every run, whatever the clock does. */
  lemma {:induction false} BucketIsKept(cfg: Config, ops: seq<Op>, actor: Actor)
    ensures Kept(cfg, Bucket(Run(cfg, ops), actor), Failures(cfg, ops, actor), Peak(ops))
  {
    hide Step, Bucket, DropOld, Kept, KeptFrom;
    NothingKept(cfg, actor);
    if ops != [] {
      var init, op, peak := ops[..|ops| - 1], ops[|ops| - 1], Peak(ops);
      var queue, failures := Bucket(Run(cfg, init), actor), Failures(cfg, init, actor);
      BucketIsKept(cfg, init, actor);
      BucketAfter(cfg, Run(cfg, init), op, actor);
      if init != [] {
        KeptLater(cfg, queue, failures, Peak(init), peak);
      }
      var recent := DropOld(queue, op.at - cfg.window);
      var m := KeptDrops(cfg, queue, failures, peak, op.at);
      KeptWitness(cfg, recent, failures, peak, m);
      KeptAdds(cfg, recent, failures, peak, op.at);
      assert failures + [] == failures;
    }
  }

  lemma NoFailures(cfg: Config, actor: Actor)
    ensures Failures(cfg, [], actor) == []
  {
  }

  lemma {:induction false} FailuresDrift(cfg: Config, ops: seq<Op>, actor: Actor, drift: nat)
    requires Drifts(ops, drift)
    ensures var failures := Failures(cfg, ops, actor);
            UpTo(failures, Peak(ops)) && forall i, j :: 0 <= i < j < |failures| ==> failures[i] <= failures[j] + drift
  {
    hide Step, Run;
    if ops != [] {
      var init := ops[..|ops| - 1];
      FailuresDrift(cfg, init, actor, drift);
      PeakWithin(ops, drift);
      if init == [] {
        NoFailures(cfg, actor);
      }
    }
  }

  lemma NothingYet(cfg: Config, actor: Actor)
    ensures Bucket(Run(cfg, []), actor) == [] == Failures(cfg, [], actor)
    ensures forall peak :: Kept(cfg, [], [], peak)
  {
    NothingKept(cfg, actor);
  }

  /** What a login at the end of a run finds: all failures but the first `m`, which a reading has passed by a window. */
  lemma LoginFinds(cfg: Config, ops: seq<Op>, op: Op, actor: Actor, drift: nat) returns (m: nat)
    requires Drifts(ops + [op], drift)
    ensures var failures := Failures(cfg, ops, actor);
            var recent := DropOld(Bucket(Run(cfg, ops), actor), op.at - cfg.window);
            && m <= |failures| && recent == failures[m..] && UpTo(failures[..m], op.at + drift - cfg.window)
            && (recent != [] ==> recent[0] > op.at - cfg.window)
  {
    hide Run, Failures, DropOld, Kept, Bucket;
    var all := ops + [op];
    var queue, failures := Bucket(Run(cfg, ops), actor), Failures(cfg, ops, actor);
    assert all[..|all| - 1] == ops;
    PeakWithin(all, drift);
    BucketIsKept(cfg, ops, actor);
    if ops == [] {
      NothingYet(cfg, actor);
    } else {
      KeptLater(cfg, queue, failures, Peak(ops), Peak(all));
    }
    m := KeptDrops(cfg, queue, failures, Peak(all), op.at);
  }

  lemma {:induction false} FewAfter(times: seq<int>, m: nat, cutoff: int)
    requires m <= |times| && UpTo(times[..m], cutoff)
    ensures |After(times, cutoff)| <= |times| - m
  {
    if times != [] {
      var init, last := times[..|times| - 1], times[|times| - 1];
      if m == |times| {
        assert times[..m][m - 1] == last;
        assert init[..m - 1] == times[..m][..m - 1];
        FewAfter(init, m - 1, cutoff);
      } else {
        assert init[..m] == times[..m];
        FewAfter(init, m, cutoff);
      }
    }
  }

  lemma {:induction false} ManyAfter(times: seq<int>, m: nat, cutoff: int)
    requires m <= |times| && forall i :: m <= i < |times| ==> times[i] > cutoff
    ensures |After(times, cutoff)| >= |times| - m
  {
    if m < |times| {
      ManyAfter(times[..|times| - 1], m, cutoff);
    }
  }

  /**
  A login is refused for its rate when the failures since the last success fill the window up to it, and
  not otherwise, give or take what the clock may have gone back by: with a steady clock, exactly then.
  */
  lemma RateLimitIsExact(cfg: Config, ops: seq<Op>, op: Op, drift: nat)
    requires op.Login? && op.origin && Drifts(ops + [op], drift)
    ensures var failures, start := Failures(cfg, ops, op.actor), op.at - cfg.window;
            var limited := Step(cfg, Run(cfg, ops), op).1.RateLimited?;
            && (|After(failures, start + drift)| >= cfg.maxAttempts ==> limited)
            && (limited ==> |After(failures, start - drift)| >= cfg.maxAttempts)
            && (drift == 0 ==> (limited <==> |After(failures, start)| >= cfg.maxAttempts))
  {
    hide Run, Failures, After, DropOld, Trimmed, Bucket, UpTo;
    var failures, start := Failures(cfg, ops, op.actor), op.at - cfg.window;
    var m := LoginFinds(cfg, ops, op, op.actor, drift);
    var all := ops + [op];
    assert forall i :: 0 <= i < |ops| ==> all[i] == ops[i];
    FailuresDrift(cfg, ops, op.actor, drift);
    FewAfter(failures, m, start + drift);
    if m < |failures| {
      assert failures[m..][0] == failures[m] > start;
      ManyAfter(failures, m, start - drift);
    }
  }

  lemma SpacedByMore(times: seq<int>, t: int, count: nat, gap: int)
    requires SpacedBy(times, count, gap) && (|times| >= count > 0 ==> times[|times| - count] + gap <= t)
    requires count > 0
    ensures SpacedBy(times + [t], count, gap)
  {
  }

  lemma InvalidMeans(cfg: Config, s: State, op: Op)
    requires op.Login? && Step(cfg, s, op).1.InvalidCredentials?
    ensures op.origin && |DropOld(Bucket(s, op.actor), op.at - cfg.window)| < cfg.maxAttempts
  {
  }

  /** More failures than allowed take a window at least, less what the clock may have gone back by. */
  lemma {:induction false} FailuresAreSpaced(cfg: Config, ops: seq<Op>, actor: Actor, drift: nat)
    requires ValidConfig(cfg) && Drifts(ops, drift)
    ensures SpacedBy(Failures(cfg, ops, actor), cfg.maxAttempts, cfg.window - drift)
  {
    hide Step, Run, Bucket, DropOld;
    if ops != [] {
      var init, op := ops[..|ops| - 1], ops[|ops| - 1];
      var failures := Failures(cfg, init, actor);
      FailuresAreSpaced(cfg, init, actor, drift);
      if op.Login? && op.actor == actor && Step(cfg, Run(cfg, init), op).1.InvalidCredentials? {
        InvalidMeans(cfg, Run(cfg, init), op);
        assert init + [op] == ops;
        var m := LoginFinds(cfg, init, op, actor, drift);
        if |failures| >= cfg.maxAttempts {
          assert failures[..m][|failures| - cfg.maxAttempts] == failures[|failures| - cfg.maxAttempts];
        }
        SpacedByMore(failures, op.at, cfg.maxAttempts, cfg.window - drift);
      }
      assert failures + [] == failures;
    }
  }

  lemma LimitedMeans(cfg: Config, s: State, op: Op)
    requires op.Login? && Step(cfg, s, op).1.RateLimited?
    ensures op.origin && |DropOld(Bucket(s, op.actor), op.at - cfg.window)| >= cfg.maxAttempts
  {
  }

  /** With one attempt allowed the queue holds the last failure and no other, whatever the clock does. */
  lemma {:induction false} OneIsKept(cfg: Config, ops: seq<Op>, actor: Actor)
    requires cfg.maxAttempts == 1
    ensures var failures := Failures(cfg, ops, actor);
            Bucket(Run(cfg, ops), actor) == if failures == [] then [] else [failures[|failures| - 1]]
  {
    hide Step, Bucket;
    if ops == [] {
      NothingYet(cfg, actor);
    } else {
      var init, op := ops[..|ops| - 1], ops[|ops| - 1];
      var s := Run(cfg, init);
      OneIsKept(cfg, init, actor);
      BucketAfter(cfg, s, op, actor);
      if op.Login? && op.actor == actor && Step(cfg, s, op).1.InvalidCredentials? {
        InvalidMeans(cfg, s, op);
      }
      if op.Login? && op.actor == actor && Step(cfg, s, op).1.RateLimited? {
        LimitedMeans(cfg, s, op);
      }
      assert Failures(cfg, init, actor) + [] == Failures(cfg, init, actor);
    }
  }

  /** So then each failure comes a full window after the one before. */
  lemma {:induction false} OneIsSpaced(cfg: Config, ops: seq<Op>, actor: Actor)
    requires cfg.maxAttempts == 1
    ensures SpacedBy(Failures(cfg, ops, actor), 1, cfg.window)
  {
    hide Step, Run, Bucket;
    if ops != [] {
      var init, op := ops[..|ops| - 1], ops[|ops| - 1];
      var failures := Failures(cfg, init, actor);
      OneIsSpaced(cfg, init, actor);
      OneIsKept(cfg, init, actor);
      if op.Login? && op.actor == actor && Step(cfg, Run(cfg, init), op).1.InvalidCredentials? {
        InvalidMeans(cfg, Run(cfg, init), op);
        SpacedByMore(failures, op.at, 1, cfg.window);
      }
      assert failures + [] == failures;
    }
  }

  // ---- A clock that goes back ----

  const GUESSER := "guesser"

  function Guess(at: int): Op {
    Login(GUESSER, true, false, at, 0)
  }

  function Guesses(times: seq<int>): seq<Op> {
    if times == [] then [] else Guesses(times[..|times| - 1]) + [Guess(times[|times| - 1])]
  }

  function Zeros(n: nat): (times: seq<int>)
    ensures |times| == n && forall i :: 0 <= i < n ==> times[i] == 0
  {
    if n == 0 then [] else Zeros(n - 1) + [0]
  }

  /** The only client there is has these failures, and this queue. */
  ghost predicate Guessed(cfg: Config, times: seq<int>, queue: seq<int>) {
    var s := Run(cfg, Guesses(times));
    && s.order == (if queue == [] then [] else [GUESSER])
    && s.attempts == (if queue == [] then map[] else map[GUESSER := queue])
    && Failures(cfg, Guesses(times), GUESSER) == times
  }

  lemma GuessesMore(cfg: Config, times: seq<int>, t: int)
    ensures Guesses(times + [t]) == Guesses(times) + [Guess(t)]
    ensures Run(cfg, Guesses(times + [t])) == Step(cfg, Run(cfg, Guesses(times)), Guess(t)).0
  {
    hide Step;
    assert (times + [t])[..|times|] == times;
    assert (Guesses(times) + [Guess(t)])[..|Guesses(times)|] == Guesses(times);
  }

  lemma GuessStep(cfg: Config, s: State, queue: seq<int>, t: int)
    requires s.order == (if queue == [] then [] else [GUESSER])
    requires s.attempts == (if queue == [] then map[] else map[GUESSER := queue])
    requires |DropOld(queue, t - cfg.window)| < cfg.maxAttempts
    ensures var (s', answer) := Step(cfg, s, Guess(t));
            && Guess(t).Login? && Guess(t).actor == GUESSER && Guess(t).at == t
            && answer.InvalidCredentials? && s'.order == [GUESSER]
            && s'.attempts == map[GUESSER := DropOld(queue, t - cfg.window) + [t]]
  {
    hide DropOld, Unexpired, Without;
    assert Bucket(s, GUESSER) == queue;
  }

  lemma GuessFails(cfg: Config, times: seq<int>, queue: seq<int>, t: int)
    requires Guessed(cfg, times, queue) && |DropOld(queue, t - cfg.window)| < cfg.maxAttempts
    ensures Guessed(cfg, times + [t], DropOld(queue, t - cfg.window) + [t])
  {
    hide DropOld, Run, Guesses, Step, Guess, GUESSER;
    GuessesMore(cfg, times, t);
    GuessStep(cfg, Run(cfg, Guesses(times)), queue, t);
    var all := Guesses(times) + [Guess(t)];
    assert all[..|all| - 1] == Guesses(times);
  }

  lemma NoneDropped(times: seq<int>, cutoff: int)
    requires times == [] || times[0] > cutoff
    ensures DropOld(times, cutoff) == times
  {
  }

  lemma {:induction false} DropsAll(times: seq<int>, cutoff: int)
    requires UpTo(times, cutoff)
    ensures DropOld(times, cutoff) == []
    decreases |times|
  {
    if times != [] {
      DropsAll(times[1..], cutoff);
    }
  }

  lemma {:induction false} DriftOf(times: seq<int>)
    ensures |Guesses(times)| == |times| && forall i :: 0 <= i < |times| ==> Guesses(times)[i].at == times[i]
  {
    if times != [] {
      DriftOf(times[..|times| - 1]);
    }
  }

  /** As many wrong passwords as allowed, all at once. */
  lemma {:induction false} BurstFails(cfg: Config, n: nat)
    requires ValidConfig(cfg) && n <= cfg.maxAttempts
    ensures Guessed(cfg, Zeros(n), Zeros(n))
  {
    if n > 0 {
      BurstFails(cfg, n - 1);
      var queue := Zeros(n - 1);
      NoneDropped(queue, 0 - cfg.window);
      GuessFails(cfg, queue, queue, 0);
    }
  }

  /** And one more as soon as they have left the window. */
  lemma BurstAgain(cfg: Config)
    requires ValidConfig(cfg)
    ensures Guessed(cfg, Zeros(cfg.maxAttempts) + [cfg.window], [cfg.window])
  {
    var queue := Zeros(cfg.maxAttempts);
    BurstFails(cfg, cfg.maxAttempts);
    DropsAll(queue, 0);
    GuessFails(cfg, queue, queue, cfg.window);
    assert [] + [cfg.window] == [cfg.window];
  }

  /** Then the clock goes back, and the one failure in the queue does not fill it. */
  lemma BackAgain(cfg: Config, drift: nat)
    requires ValidConfig(cfg) && cfg.maxAttempts >= 2
    ensures Guessed(cfg, Zeros(cfg.maxAttempts) + [cfg.window] + [cfg.window - drift],
                [cfg.window, cfg.window - drift])
  {
    hide Guessed, Zeros, DropOld, GUESSER;
    BurstAgain(cfg);
    var queue, t := [cfg.window], cfg.window - drift;
    NoneDropped(queue, t - cfg.window);
    assert queue + [t] == [cfg.window, t];
    GuessFails(cfg, Zeros(cfg.maxAttempts) + [cfg.window], queue, t);
  }

  /** The time that more failures than allowed always take. */
  function Spacing(cfg: Config, drift: nat): int {
    if cfg.maxAttempts == 1 then cfg.window else cfg.window - drift
  }

  /** In every run whose clock goes back by at most `drift`. */
  ghost predicate AlwaysSpaced(cfg: Config, drift: nat, gap: int) {
    forall ops, actor :: Drifts(ops, drift) ==> SpacedBy(Failures(cfg, ops, actor), cfg.maxAttempts, gap)
  }

  lemma SpacingHolds(cfg: Config, drift: nat, gap: int)
    requires ValidConfig(cfg) && gap <= Spacing(cfg, drift)
    ensures AlwaysSpaced(cfg, drift, gap)
  {
    hide Failures;
    forall ops, actor | Drifts(ops, drift)
      ensures SpacedBy(Failures(cfg, ops, actor), cfg.maxAttempts, gap)
    {
      if cfg.maxAttempts == 1 {
        OneIsSpaced(cfg, ops, actor);
      } else {
        FailuresAreSpaced(cfg, ops, actor, drift);
      }
    }
  }

  lemma SpacingIsReached(cfg: Config, drift: nat) returns (ops: seq<Op>)
    requires ValidConfig(cfg)
    ensures Drifts(ops, drift)
    ensures var failures := Failures(cfg, ops, GUESSER); var i := |failures| - 1 - cfg.maxAttempts;
            i >= 0 && failures[i + cfg.maxAttempts] == failures[i] + Spacing(cfg, drift)
  {
    hide Failures, Run;
    var early := Zeros(cfg.maxAttempts) + [cfg.window];
    var times := if cfg.maxAttempts == 1 then early else early + [cfg.window - drift];
    BurstAgain(cfg);
    if cfg.maxAttempts >= 2 {
      BackAgain(cfg, drift);
    }
    DriftOf(times);
    ops := Guesses(times);
  }

  /**
  More failures than allowed always take a full window if and only if the clock never goes back, or one
  attempt is allowed; and if it goes back by up to `drift`, they take `drift` less and no less.
  */
  lemma SpacingIsExact(cfg: Config, drift: nat, gap: int)
    requires ValidConfig(cfg)
    ensures AlwaysSpaced(cfg, drift, gap) <==> gap <= Spacing(cfg, drift)
    ensures AlwaysSpaced(cfg, drift, cfg.window) <==> drift == 0 || cfg.maxAttempts == 1
  {
    hide Failures, Drifts;
    var ops := SpacingIsReached(cfg, drift);
    if gap <= Spacing(cfg, drift) {
      SpacingHolds(cfg, drift, gap);
    }
    if drift == 0 || cfg.maxAttempts == 1 {
      SpacingHolds(cfg, drift, cfg.window);
    }
  }

  predicate LimitIsExactAt(cfg: Config, ops: seq<Op>, op: Op)
    requires op.Login?
  {
    var recent := After(Failures(cfg, ops, op.actor), op.at - cfg.window);
    Step(cfg, Run(cfg, ops), op).1.RateLimited? <==> |recent| >= cfg.maxAttempts
  }

  ghost predicate AlwaysExact(cfg: Config, drift: nat) {
    forall ops, op: Op :: op.Login? && op.origin && Drifts(ops + [op], drift) ==> LimitIsExactAt(cfg, ops, op)
  }

  lemma {:induction false} LastIsLatest(times: seq<int>, gap: int)
    requires SpacedBy(times, 1, gap) && gap >= 0 && times != []
    ensures UpTo(times, times[|times| - 1])
  {
    if |times| > 1 {
      var init := times[..|times| - 1];
      LastIsLatest(init, gap);
      assert times[|times| - 2] + gap <= times[|times| - 2 + 1];
      assert forall i :: 0 <= i < |init| ==> times[i] == init[i];
    }
  }

  lemma NoneAfter(cutoff: int)
    ensures After([], cutoff) == []
  {
  }

  lemma LaterUpTo(times: seq<int>, last: int, later: int)
    requires UpTo(times, last) && last <= later
    ensures UpTo(times, later)
  {
  }

  lemma OneIsExact(cfg: Config, ops: seq<Op>, op: Op)
    requires cfg.maxAttempts == 1 && op.Login? && op.origin
    ensures LimitIsExactAt(cfg, ops, op)
  {
    hide Run, Failures, After, UpTo, SpacedBy, Bucket, Trimmed;
    var failures, start := Failures(cfg, ops, op.actor), op.at - cfg.window;
    OneIsKept(cfg, ops, op.actor);
    OneIsSpaced(cfg, ops, op.actor);
    if failures == [] {
      ManyAfter([], 0, start);
      NoneAfter(start);
    } else {
      var last := failures[|failures| - 1];
      LastIsLatest(failures, cfg.window);
      if last > start {
        ManyAfter(failures, |failures| - 1, start);
      } else {
        assert [last][1..] == [] && DropOld([last], start) == [];
        assert failures[..|failures|] == failures;
        LaterUpTo(failures, last, start);
        FewAfter(failures, |failures|, start);
      }
    }
  }

  /** As many failures as allowed are not a window old, and the login is not refused for its rate. */
  lemma LimitIsMissed(cfg: Config, drift: nat) returns (ops: seq<Op>, op: Op)
    requires ValidConfig(cfg) && drift > 0 && cfg.maxAttempts >= 2
    ensures op.Login? && op.origin && Drifts(ops + [op], drift) && !LimitIsExactAt(cfg, ops, op)
  {
    hide Failures, Run, After, Trimmed;
    var times := Zeros(cfg.maxAttempts) + [cfg.window];
    ops, op := Guesses(times), Guess(cfg.window - drift);
    BurstAgain(cfg);
    DriftOf(times);
    NoneDropped([cfg.window], op.at - cfg.window);
    ManyAfter(times, 0, op.at - cfg.window);
    assert Bucket(Run(cfg, ops), GUESSER) == [cfg.window];
  }

  lemma SteadyIsExact(cfg: Config, ops: seq<Op>, op: Op, drift: nat)
    requires op.Login? && op.origin && Drifts(ops + [op], drift) && (drift == 0 || cfg.maxAttempts == 1)
    ensures LimitIsExactAt(cfg, ops, op)
  {
    hide Step, Run, Failures, After;
    if cfg.maxAttempts == 1 {
      OneIsExact(cfg, ops, op);
    } else {
      RateLimitIsExact(cfg, ops, op, 0);
    }
  }

  /** The refusal counts the failures of the last window in every run exactly under the same condition. */
  lemma LimitIsExactIffSteady(cfg: Config, drift: nat)
    requires ValidConfig(cfg)
    ensures AlwaysExact(cfg, drift) <==> drift == 0 || cfg.maxAttempts == 1
  {
    hide LimitIsExactAt, Drifts;
    if drift == 0 || cfg.maxAttempts == 1 {
      forall ops, op: Op | op.Login? && op.origin && Drifts(ops + [op], drift) ensures LimitIsExactAt(cfg, ops, op) {
        SteadyIsExact(cfg, ops, op, drift);
      }
    } else {
      var ops, op := LimitIsMissed(cfg, drift);
    }
  }

  /** A bucket disappears only with its actor's success, or as the oldest of a full table when another client fails. */
  lemma OnlyTheOldestIsTrimmed(cfg: Config, s: State, op: Op, actor: Actor)
    requires Filing(s) && actor in s.attempts && actor !in Step(cfg, s, op).0.attempts
    ensures op.Login?
    ensures if op.actor == actor then Reaches(op, Step(cfg, s, op).1)
            else Step(cfg, s, op).1.InvalidCredentials? && |s.order| == BUCKETS && s.order[0] == actor
                 && op.actor !in s.attempts
  {
    hide DropOld, Unexpired, Claims, Without;
  }
}
