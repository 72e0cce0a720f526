/** What each operation of the administration listener answers and leaves, told from the tables it found. */
module SessionAnswers {
  import opened Options
  import opened Sequences
  import opened AdminSessions

  // ---- The session table ----

  /** The sessions that a look at the table at this time leaves. */
  ghost predicate Expires(sessions: map<SessionId, int>, now: int, sessions': map<SessionId, int>) {
    forall id :: (id in sessions' <==> id in sessions && sessions[id] > now)
                 && (id in sessions' ==> sessions'[id] == sessions[id])
  }

  function Remaining(sessions: map<SessionId, int>, now: int): set<SessionId> {
    set id | id in sessions && sessions[id] > now
  }

  /** The cookie is one of a session in the table, within its lifetime, and of the length that sessions have. */
  predicate Holds(cfg: Config, sessions: map<SessionId, int>, cookie: Cookie, now: int) {
    && cookie.Signed? && cookie.session in sessions && sessions[cookie.session] == cookie.expires
    && cookie.issued >= 0 && cookie.issued + cfg.ttl == cookie.expires
    && cookie.issued <= now && now < cookie.expires
  }

  lemma HoldsMeans(cfg: Config, sessions: map<SessionId, int>, cookie: Cookie, now: int)
    ensures Claims(cfg, Unexpired(sessions, now), cookie, now) <==> Holds(cfg, sessions, cookie, now)
    ensures Expires(sessions, now, Unexpired(sessions, now))
  {
  }

  // ---- Reading, changing and revoking ----

  /** A request is let through with the right origin and a valid session, and to change things with the form token. */
  ghost predicate Authorizes(cfg: Config, s: State, origin: bool, cookie: Cookie, mutates: bool, csrf: bool, now: int,
      s': State, answer: Reason) {
    && s' == s.(sessions := s'.sessions)
    && (if origin then Expires(s.sessions, now, s'.sessions) else s'.sessions == s.sessions)
    && (answer == Authorized <==> origin && Holds(cfg, s.sessions, cookie, now) && (mutates ==> csrf))
    && (answer == OriginRejected <==> !origin)
    && (answer == InvalidSession <==> origin && !Holds(cfg, s.sessions, cookie, now))
    && (answer == CsrfRejected <==> origin && Holds(cfg, s.sessions, cookie, now) && mutates && !csrf)
  }

  lemma AuthorizeMeans(cfg: Config, s: State, origin: bool, cookie: Cookie, mutates: bool, csrf: bool, now: int)
    ensures var (s', answer) := Step(cfg, s, Authorize(origin, cookie, mutates, csrf, now));
            Authorizes(cfg, s, origin, cookie, mutates, csrf, now, s', answer)
  {
    HoldsMeans(cfg, s.sessions, cookie, now);
    hide Claims, Holds, Expires, Unexpired;
  }

  /** Only a valid cookie's own session ends before its time. */
  ghost predicate Revokes(cfg: Config, s: State, cookie: Cookie, now: int, s': State, answer: Reason) {
    && s' == s.(sessions := s'.sessions)
    && answer == Revoked(Holds(cfg, s.sessions, cookie, now))
    && forall id :: (id in s'.sessions <==>
                       && id in s.sessions && s.sessions[id] > now
                       && !(Holds(cfg, s.sessions, cookie, now) && id == cookie.session))
                    && (id in s'.sessions ==> s'.sessions[id] == s.sessions[id])
  }

  lemma RevokeMeans(cfg: Config, s: State, cookie: Cookie, now: int)
    ensures var (s', answer) := Step(cfg, s, Revoke(cookie, now)); Revokes(cfg, s, cookie, now, s', answer)
  {
    HoldsMeans(cfg, s.sessions, cookie, now);
    hide Claims, Holds;
  }

  lemma TokenMeans(cfg: Config, s: State, cookie: Cookie, now: int)
    ensures var (s', answer) := Step(cfg, s, CsrfToken(cookie, now));
            && answer == Token(Holds(cfg, s.sessions, cookie, now))
            && s' == s.(sessions := s'.sessions) && Expires(s.sessions, now, s'.sessions)
  {
    HoldsMeans(cfg, s.sessions, cookie, now);
    hide Claims, Holds, Expires, Unexpired;
  }

  // ---- Logging in ----

  /** `n` times are dropped from the front: all up to the first after the cutoff. */
  predicate Cuts(times: seq<int>, cutoff: int, n: nat) {
    && n <= |times|
    && (forall i :: 0 <= i < n ==> times[i] <= cutoff)
    && (n < |times| ==> times[n] > cutoff)
  }

  ghost predicate Files(s: State, actor: Actor, times: seq<int>, s': State) {
    && s'.sessions == s.sessions
    && s'.attempts == s.attempts[actor := times]
    && s'.order == if actor in s.attempts then s.order else s.order + [actor]
  }

  /** Of more than 1024 buckets those created first go. */
  ghost predicate KeepsNewest(s: State, s': State) {
    if |s.order| <= 1024 then s' == s
    else
      var gone := |s.order| - 1024;
      && s'.sessions == s.sessions && s'.order == s.order[gone..]
      && forall actor :: (actor in s'.attempts <==> actor in s.attempts && actor !in s.order[..gone])
                         && (actor in s'.attempts ==> s'.attempts[actor] == s.attempts[actor])
  }

  /** A session is issued if fewer than the limit remain, and no session that remains is touched. */
  ghost predicate IssuesOne(cfg: Config, sessions: map<SessionId, int>, now: int, drawn: SessionId,
      sessions': map<SessionId, int>, answer: Reason) {
    if |Remaining(sessions, now)| >= cfg.maxSessions then
      answer == SessionCapacity && Expires(sessions, now, sessions')
    else
      && answer == Authenticated(Signed(now, now + cfg.ttl, drawn))
      && drawn in sessions' && sessions'[drawn] == now + cfg.ttl
      && forall id :: id != drawn ==>
                        && (id in sessions' <==> id in sessions && sessions[id] > now)
                        && (id in sessions' ==> sessions'[id] == sessions[id])
  }

  /** A login with `n` failures of the actor out of the window: origin, rate, password and room, in this order. */
  ghost predicate LogsIn(cfg: Config, s: State, op: Op, n: nat, s': State, answer: Reason)
    requires op.Login?
  {
    var times := if op.actor in s.attempts then s.attempts[op.actor] else [];
    && Cuts(times, op.at - cfg.window, n)
    && if !op.origin then s' == s && answer == OriginRejected
       else if |times| - n >= cfg.maxAttempts then Files(s, op.actor, times[n..], s') && answer == RateLimited
       else if !op.password then
         && answer == InvalidCredentials
         && exists filed :: Files(s, op.actor, times[n..] + [op.at], filed) && KeepsNewest(filed, s')
       else
         && s'.attempts == s.attempts - {op.actor} && s'.order == Without(s.order, op.actor)
         && IssuesOne(cfg, s.sessions, op.at, op.drawn, s'.sessions, answer)
  }

  lemma TrimmedMeans(s: State)
    ensures KeepsNewest(s, Trimmed(s))
  {
  }

  lemma RemainingCount(sessions: map<SessionId, int>, now: int)
    ensures |Unexpired(sessions, now)| == |Remaining(sessions, now)|
  {
    assert Unexpired(sessions, now).Keys == Remaining(sessions, now);
    assert |Unexpired(sessions, now)| == |Unexpired(sessions, now).Keys|;
  }

  lemma IssuedMeans(cfg: Config, s: State, now: int, drawn: SessionId)
    ensures var (s', answer) := Issued(cfg, s, now, drawn);
            IssuesOne(cfg, s.sessions, now, drawn, s'.sessions, answer) && s' == s.(sessions := s'.sessions)
  {
    RemainingCount(s.sessions, now);
    hide Remaining;
  }

  lemma FiledMeans(s: State, actor: Actor, times: seq<int>)
    ensures Files(s, actor, times, Filed(s, actor, times))
  {
  }

  /** The answer of a login whose queue has been cut. */
  lemma DecidedMeans(cfg: Config, s: State, op: Op, recent: seq<int>)
    requires op.Login? && DropOld(Bucket(s, op.actor), op.at - cfg.window) == recent
    ensures var (s', answer) := LoggedIn(cfg, s, op);
            if !op.origin then s' == s && answer == OriginRejected
            else if |recent| >= cfg.maxAttempts then Files(s, op.actor, recent, s') && answer == RateLimited
            else if !op.password then
              && answer == InvalidCredentials
              && exists filed :: Files(s, op.actor, recent + [op.at], filed) && KeepsNewest(filed, s')
            else
              && s'.attempts == s.attempts - {op.actor} && s'.order == Without(s.order, op.actor)
              && IssuesOne(cfg, s.sessions, op.at, op.drawn, s'.sessions, answer)
  {
    hide DropOld, KeepsNewest, Trimmed, IssuesOne, Issued, Without, Files, Filed, Bucket;
    if op.origin {
      if |recent| >= cfg.maxAttempts {
        FiledMeans(s, op.actor, recent);
      } else if !op.password {
        FiledMeans(s, op.actor, recent + [op.at]);
        TrimmedMeans(Filed(s, op.actor, recent + [op.at]));
      } else {
        IssuedMeans(cfg, Forgotten(s, op.actor), op.at, op.drawn);
      }
    }
  }

  lemma LoginMeans(cfg: Config, s: State, op: Op) returns (n: nat)
    requires op.Login?
    ensures var (s', answer) := Step(cfg, s, op); LogsIn(cfg, s, op, n, s', answer)
  {
    hide DropOld, KeepsNewest, IssuesOne, Without, Files, LoggedIn;
    var times := Bucket(s, op.actor);
    n := DropOldCuts(times, op.at - cfg.window);
    DecidedMeans(cfg, s, op, times[n..]);
    forall i | 0 <= i < n ensures times[i] <= op.at - cfg.window {
      assert times[..n][i] <= op.at - cfg.window;
    }
  }

  lemma {:induction false} WithoutAbsent<T>(order: seq<T>, actor: T)
    requires actor !in order
    ensures Without(order, actor) == order
  {
    if order != [] {
      var init := order[..|order| - 1];
      WithoutAbsent(init, actor);
      assert order == init + [order[|order| - 1]];
    }
  }

  /** With one bucket a client, forgetting a client takes its place out of the order and moves nothing else. */
  lemma {:induction false} WithoutMeans<T>(before: seq<T>, actor: T, after: seq<T>)
    requires actor !in before && actor !in after
    ensures Without(before + [actor] + after, actor) == before + after
  {
    if after == [] {
      WithoutAbsent(before, actor);
      assert (before + [actor] + after)[..|before|] == before;
      assert before + after == before;
    } else {
      var n, last := |after| - 1, after[|after| - 1];
      WithoutMeans(before, actor, after[..n]);
      var order := before + [actor] + after;
      assert order[..|order| - 1] == before + [actor] + after[..n];
      assert before + after[..n] + [last] == before + after;
    }
  }
}
