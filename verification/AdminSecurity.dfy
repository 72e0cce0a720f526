/** The security object of the administration listener, with its two tables updated in place. */
module AdminSecurity {
  import opened Options
  import opened AdminSessions
  import opened SessionAnswers

  class Security {
    const config: Config
    var sessions: map<SessionId, int>
    var attempts: map<Actor, seq<int>>
    /** The order in which the dictionary `attempts` got its keys. */
    var order: seq<Actor>

    function View(): State
      reads this
    {
      State(sessions, attempts, order)
    }

    constructor (config: Config)
      requires ValidConfig(config)
      ensures this.config == config && View() == INITIAL
    {
      this.config := config;
      sessions, attempts, order := map[], map[], [];
    }

    /** `_prune_sessions`. */
    method PruneSessions(now: int)
      modifies this`sessions
      ensures View() == Pruned(old(View()), now)
    {
      var rest := sessions.Keys;
      while rest != {}
        invariant rest <= old(sessions).Keys
        invariant sessions == map id | id in old(sessions)
            && (id in rest || old(sessions)[id] > now) :: old(sessions)[id]
        decreases |rest|
      {
        var id :| id in rest;
        rest := rest - {id};
        if sessions[id] <= now {
          sessions := sessions - {id};
        }
      }
    }

    /** `_claims`: the table is pruned whatever becomes of the cookie. */
    method CheckClaims(cookie: Cookie, now: int) returns (valid: bool)
      modifies this`sessions
      ensures View() == Pruned(old(View()), now)
      ensures valid == Claims(config, Unexpired(old(sessions), now), cookie, now)
    {
      PruneSessions(now);
      match cookie {
        case Unreadable => valid := false;
        case Signed(issued, expires, session) =>
          if !(0 <= issued <= now < expires) || expires - issued != config.ttl { return false; }
          valid := session in sessions && sessions[session] == expires;
      }
    }

    /** `_issue`: never at the cost of a valid session. */
    method IssueSession(now: int, drawn: SessionId) returns (cookie: Option<Cookie>)
      modifies this`sessions
      ensures (View(), if cookie.Some? then Authenticated(cookie.value)
          else SessionCapacity) == Issued(config, old(View()), now, drawn)
    {
      PruneSessions(now);
      if |sessions| >= config.maxSessions { return None; }
      sessions := sessions[drawn := now + config.ttl];
      cookie := Some(Signed(now, now + config.ttl, drawn));
    }

    /** The login queue of an actor without the times that have left the window. */
    static method Recent(times: seq<int>, cutoff: int) returns (kept: seq<int>)
      ensures kept == DropOld(times, cutoff)
    {
      kept := times;
      while kept != [] && kept[0] <= cutoff
        invariant DropOld(kept, cutoff) == DropOld(times, cutoff)
      {
        kept := kept[1..];
      }
    }

    method FileBucket(actor: Actor, times: seq<int>)
      modifies this`attempts, this`order
      ensures View() == Filed(old(View()), actor, times)
    {
      if actor !in attempts {
        order := order + [actor];
      }
      attempts := attempts[actor := times];
    }

    method TrimBuckets()
      modifies this`attempts, this`order
      ensures View() == Trimmed(old(View()))
    {
      if |order| <= BUCKETS { return; }
      var excess := |order| - BUCKETS;
      var i := 0;
      while i < excess
        invariant 0 <= i <= excess && order == old(order)
        invariant attempts == old(attempts) - (set a | a in order[..i])
      {
        assert order[..i + 1] == order[..i] + [order[i]];
        attempts := attempts - {order[i]};
        i := i + 1;
      }
      order := order[excess..];
    }

    method ForgetBucket(actor: Actor)
      modifies this`attempts, this`order
      ensures View() == Forgotten(old(View()), actor)
    {
      attempts := attempts - {actor};
      order := Without(order, actor);
    }

    /** `login`, given whether the origin and the password are the right ones. */
    method LogIn(actor: Actor, origin: bool, password: bool, now: int, drawn: SessionId) returns (answer: Reason)
      modifies this
      ensures (View(), answer) == Step(config, old(View()), Login(actor, origin, password, now, drawn))
      ensures exists n :: LogsIn(config, old(View()), Login(actor, origin, password, now, drawn), n, View(), answer)
    {
      hide DropOld, Trimmed, Without, Unexpired, LogsIn;
      ghost var n := LoginMeans(config, View(), Login(actor, origin, password, now, drawn));
      if !origin { return OriginRejected; }
      var recent := Recent(GetOr(attempts, actor, []), now - config.window);
      if |recent| >= config.maxAttempts {
        FileBucket(actor, recent);
        return RateLimited;
      }
      if !password {
        FileBucket(actor, recent + [now]);
        TrimBuckets();
        return InvalidCredentials;
      }
      ForgetBucket(actor);
      var cookie := IssueSession(now, drawn);
      answer := if cookie.Some? then Authenticated(cookie.value) else SessionCapacity;
    }

    /** `authorize`: reading needs a valid session, changing needs the form token too. */
    method AuthorizeRequest(origin: bool, cookie: Cookie, mutates: bool, csrf: bool, now: int) returns (answer: Reason)
      modifies this`sessions
      ensures (View(), answer) == Step(config, old(View()), Authorize(origin, cookie, mutates, csrf, now))
      ensures Authorizes(config, old(View()), origin, cookie, mutates, csrf, now, View(), answer)
    {
      hide Authorizes;
      AuthorizeMeans(config, View(), origin, cookie, mutates, csrf, now);
      if !origin { return OriginRejected; }
      var valid := CheckClaims(cookie, now);
      if !valid { return InvalidSession; }
      if mutates && !csrf { return CsrfRejected; }
      answer := Authorized;
    }

    method TokenFor(cookie: Cookie, now: int) returns (answer: Reason)
      modifies this`sessions
      ensures (View(), answer) == Step(config, old(View()), CsrfToken(cookie, now))
      ensures answer == Token(Holds(config, old(sessions), cookie, now)) && Expires(old(sessions), now, sessions)
    {
      hide Holds, Expires;
      TokenMeans(config, View(), cookie, now);
      var valid := CheckClaims(cookie, now);
      answer := Token(valid);
    }

    method RevokeSession(cookie: Cookie, now: int) returns (answer: Reason)
      modifies this`sessions
      ensures (View(), answer) == Step(config, old(View()), Revoke(cookie, now))
      ensures Revokes(config, old(View()), cookie, now, View(), answer)
    {
      hide Revokes;
      RevokeMeans(config, View(), cookie, now);
      var valid := CheckClaims(cookie, now);
      if !valid { return Revoked(false); }
      sessions := sessions - {cookie.session};
      answer := Revoked(true);
    }

    method Perform(op: Op) returns (answer: Reason)
      modifies this
      ensures (View(), answer) == Step(config, old(View()), op)
    {
      hide LoggedIn, Claims, Unexpired;
      match op {
        case Login(actor, origin, password, at, drawn) => answer := LogIn(actor, origin, password, at, drawn);
        case Authorize(origin, cookie, mutates, csrf, at) =>
          answer := AuthorizeRequest(origin, cookie, mutates, csrf, at);
        case CsrfToken(cookie, at) => answer := TokenFor(cookie, at);
        case Revoke(cookie, at) => answer := RevokeSession(cookie, at);
      }
    }

    /** Whatever is asked, in whatever order: what is proved of `Run` and `Answer` holds of this object. */
    method Serve(ops: seq<Op>) returns (answers: seq<Reason>)
      requires View() == INITIAL
      modifies this
      ensures View() == Run(config, ops) && |answers| == |ops|
      ensures forall i :: 0 <= i < |ops| ==> answers[i] == Answer(config, ops, i)
    {
      hide Step;
      answers := [];
      for i := 0 to |ops|
        invariant View() == Run(config, ops[..i]) && |answers| == i
        invariant forall j :: 0 <= j < i ==> answers[j] == Answer(config, ops, j)
      {
        assert ops[..i + 1][..i] == ops[..i];
        var answer := Perform(ops[i]);
        answers := answers + [answer];
      }
      assert ops[..|ops|] == ops;
    }
  }
}
