/** The motion gate of all cameras, kept in one dictionary or set a field and updated in place. */
module MotionGateStore {
  import opened Options
  import opened MotionGate
  import opened MotionAnswers

  lemma PendingIsObserved(g: Gate)
    requires Inv(g)
    ensures g.pending > 0 ==> g.observedAt.Some? && g.novel.Some?
  {
  }

  class Gates {
    var previous: map<Camera, Thumbnail>
    var pending: map<Camera, nat>
    var quiet: map<Camera, nat>
    var armed: map<Camera, bool>
    var startupProbe: set<Camera>
    var lastChange: map<Camera, real>
    var novel: map<Camera, bool>
    var nearRetryUsed: set<Camera>
    var emptyMotionUntil: map<Camera, real>
    var emptyMotionAfter: map<Camera, real>
    var observedAt: map<Camera, real>

    function GateOf(c: Camera): Gate
      reads this
    {
      Gate(Lookup(previous, c), GetOr(pending, c, 0), GetOr(quiet, c, 0), GetOr(armed, c, true), c in startupProbe,
           Lookup(lastChange, c), Lookup(novel, c), c in nearRetryUsed,
           Lookup(emptyMotionUntil, c), Lookup(emptyMotionAfter, c), Lookup(observedAt, c))
    }

    constructor ()
      ensures forall c :: GateOf(c) == UNSEEN
    {
      previous, pending, quiet, armed, startupProbe, lastChange := map[], map[], map[], map[], {}, map[];
      novel, nearRetryUsed, emptyMotionUntil, emptyMotionAfter, observedAt := map[], {}, map[], map[], map[];
    }

    method ForgetRecovery(camera: Camera)
      modifies this`emptyMotionUntil, this`emptyMotionAfter
      ensures emptyMotionUntil == Drop(old(emptyMotionUntil), camera)
      ensures emptyMotionAfter == Drop(old(emptyMotionAfter), camera)
    {
      emptyMotionUntil := Drop(emptyMotionUntil, camera);
      emptyMotionAfter := Drop(emptyMotionAfter, camera);
    }

    method ForgetScene(camera: Camera)
      modifies this`previous, this`quiet, this`armed, this`lastChange, this`novel
      ensures forall c :: GateOf(c) == if c != camera then old(GateOf(c))
                                       else old(GateOf(c)).(previous := None, quiet := 0, armed := true,
                                                            lastChange := None, novel := None)
    {
      hide Lookup, Put, Drop;
      previous := Drop(previous, camera);
      quiet := Drop(quiet, camera);
      armed := Drop(armed, camera);
      lastChange := Drop(lastChange, camera);
      novel := Drop(novel, camera);
    }

    method ForgetEpisode(camera: Camera)
      modifies this`pending, this`startupProbe, this`nearRetryUsed, this`emptyMotionUntil, this`emptyMotionAfter
      ensures forall c :: GateOf(c) == if c != camera then old(GateOf(c))
                                       else NoRecovery(old(GateOf(c)).(pending := 0, probing := false,
                                           retried := false))
    {
      hide Lookup, Put, Drop;
      pending := Drop(pending, camera);
      startupProbe := startupProbe - {camera};
      nearRetryUsed := nearRetryUsed - {camera};
      ForgetRecovery(camera);
    }

    method ResetGate(camera: Camera)
      requires Inv(GateOf(camera))
      modifies this
      ensures forall c :: GateOf(c) == if c == camera then Step(old(GateOf(camera)), Reset) else old(GateOf(c))
    {
      hide Lookup, Put, Drop, Inv;
      ForgetScene(camera);
      ForgetEpisode(camera);
    }

    method Rearm(camera: Camera)
      modifies this`quiet, this`armed
      ensures forall c :: GateOf(c) == if c == camera
                                       then old(GateOf(c)).(quiet := 0, armed := true) else old(GateOf(c))
    {
      hide Lookup, Put;
      quiet := Put(quiet, camera, 0);
      armed := Put(armed, camera, true);
    }

    method DropRequests(camera: Camera)
      modifies this`pending, this`startupProbe, this`emptyMotionUntil, this`emptyMotionAfter
      ensures forall c :: GateOf(c) == if c == camera
                                       then NoRecovery(old(GateOf(c))).(pending := 0, probing := false)
                                       else old(GateOf(c))
    {
      hide Lookup, Put, Drop;
      pending := Drop(pending, camera);
      startupProbe := startupProbe - {camera};
      ForgetRecovery(camera);
    }

    method WaitForMotionAt(camera: Camera)
      requires Inv(GateOf(camera))
      modifies this
      ensures forall c :: GateOf(c) == if c == camera then Step(old(GateOf(camera)), WaitForMotion) else old(GateOf(c))
    {
      hide GateOf, Inv;
      DropRequests(camera);
      Rearm(camera);
    }

    method CancelConfirmation(camera: Camera) returns (dropped: bool)
      requires Inv(GateOf(camera))
      modifies this
      ensures forall c :: GateOf(c) == if c == camera then Step(old(GateOf(camera)), Cancel) else old(GateOf(c))
      ensures dropped == (old(GateOf(camera)).pending > 0)
    {
      hide Lookup, Put, Drop, Inv;
      ForgetRecovery(camera);
      dropped := GetOr(pending, camera, 0) > 0;
      pending := Drop(pending, camera);
    }

    method DeferPair(camera: Camera)
      requires Inv(GateOf(camera))
      modifies this
      ensures forall c :: GateOf(c) == if c == camera then Step(old(GateOf(camera)), Defer) else old(GateOf(c))
    {
      hide Lookup, Put, Drop, Inv;
      pending := Drop(pending, camera);
      ForgetRecovery(camera);
    }

    method NoteRecovery(camera: Camera, ghost r: Op, found: bool, near: bool, empty: bool, now: real)
      requires r == Reply(found, near, empty, now) && (GateOf(camera).pending > 0 ==> GateOf(camera).observedAt.Some?)
      modifies this`emptyMotionUntil, this`emptyMotionAfter
      ensures forall c :: GateOf(c) == if c == camera then Recovery(old(GateOf(c)), r) else old(GateOf(c))
    {
      hide Lookup, Put, Drop, Inv;
      if empty && !found && !near && GetOr(pending, camera, 0) == 1
         && camera !in startupProbe && camera !in nearRetryUsed && GetOr(novel, camera, false)
      {
        emptyMotionUntil := Put(emptyMotionUntil, camera, now + 10.0);
        emptyMotionAfter := Put(emptyMotionAfter, camera, GetOr(observedAt, camera, 0.0) + 2.0);
      } else {
        ForgetRecovery(camera);
      }
    }

    method EndEpisode(camera: Camera, found: bool, retry: bool)
      modifies this`pending, this`nearRetryUsed
      ensures forall c :: GateOf(c) == if c != camera then old(GateOf(c))
                                       else if retry then old(GateOf(c)).(retried := true, pending := 2)
                                       else if !found then old(GateOf(c)).(pending := 0) else old(GateOf(c))
    {
      hide Lookup, Put, Drop;
      if retry {
        nearRetryUsed := nearRetryUsed + {camera};
        pending := Put(pending, camera, 2);
      } else if !found {
        pending := Drop(pending, camera);
      }
    }

    method EndProbe(camera: Camera, rearm: bool)
      modifies this`startupProbe, this`armed
      ensures forall c :: GateOf(c) == if c != camera || !old(GateOf(c)).probing
                                       then old(GateOf(c))
                                       else old(GateOf(c)).(probing := false, armed := old(GateOf(c)).armed || rearm)
    {
      hide Lookup, Put;
      if camera in startupProbe {
        startupProbe := startupProbe - {camera};
        if rearm {
          armed := Put(armed, camera, true);
        }
      }
    }

    method SampleResult(camera: Camera, found: bool, near: bool, empty: bool, now: real) returns (retry: bool)
      requires Inv(GateOf(camera))
      modifies this
      ensures forall c :: GateOf(c) == if c == camera
                                       then Step(old(GateOf(camera)), Reply(found, near, empty, now))
                                        else old(GateOf(c))
      ensures retry == Retries(old(GateOf(camera)), Reply(found, near, empty, now))
      ensures Answered(old(GateOf(camera)), Reply(found, near, empty, now), GateOf(camera), retry)
    {
      hide Lookup, Put, Drop, Inv, Answered;
      PendingIsObserved(GateOf(camera));
      retry := !found && near && GetOr(pending, camera, 0) == 1 && camera !in nearRetryUsed;
      NoteRecovery(camera, Reply(found, near, empty, now), found, near, empty, now);
      EndEpisode(camera, found, retry);
      EndProbe(camera, !found && !retry);
      ReplyMeans(old(GateOf(camera)), Reply(found, near, empty, now));
    }

    /** The number of cells that changed by at least 24 levels. */
    static method CountChanged(a: Thumbnail, b: Thumbnail) returns (changed: nat)
      ensures changed == Changed(a, b)
    {
      changed := 0;
      for i := 0 to |a|
        invariant changed == Changed(a[..i], b[..i])
      {
        assert a[..i + 1][..i] == a[..i] && b[..i + 1][..i] == b[..i];
        if a[i] - b[i] >= CELL_STEP || b[i] - a[i] >= CELL_STEP {
          changed := changed + 1;
        }
      }
      assert a[..|a|] == a && b[..|b|] == b;
    }

    method Remember(camera: Camera, thumbnail: Thumbnail, observed: real) returns (before: Option<Thumbnail>)
      modifies this`previous, this`observedAt
      ensures before == old(GateOf(camera)).previous
      ensures forall c :: GateOf(c) == if c == camera
                                       then old(GateOf(c)).(previous := Some(thumbnail), observedAt := Some(observed))
                                       else old(GateOf(c))
    {
      hide Lookup, Put;
      observedAt := Put(observedAt, camera, observed);
      before := Lookup(previous, camera);
      previous := Put(previous, camera, thumbnail);
    }

    method Consume(camera: Camera) returns (granted: bool)
      modifies this`pending
      ensures granted == (old(GateOf(camera)).pending > 0)
      ensures forall c :: GateOf(c) == if c == camera
          && granted then old(GateOf(c)).(pending := old(GateOf(c)).pending - 1) else old(GateOf(c))
    {
      hide Lookup, Put;
      granted := GetOr(pending, camera, 0) > 0;
      if granted {
        pending := Put(pending, camera, GetOr(pending, camera, 0) - 1);
      }
    }

    /** The first frame: a probe for a stationary object, or waiting for motion after a restart. */
    method Baseline(camera: Camera, allowProbe: bool)
      modifies this
      ensures forall c :: GateOf(c) == if c != camera
                                       then old(GateOf(c)) else if allowProbe then Probed(old(GateOf(c)))
                                       else old(GateOf(c)).(armed := true)
    {
      hide Lookup, Put, Drop, Inv;
      if allowProbe {
        nearRetryUsed := nearRetryUsed - {camera};
        pending := Put(pending, camera, 2);
        armed := Put(armed, camera, false);
        novel := Put(novel, camera, true);
        startupProbe := startupProbe + {camera};
      } else {
        armed := Put(armed, camera, true);
      }
    }

    method CountQuiet(camera: Camera, moves: bool)
      requires GetOr(quiet, camera, 0) <= 3
      modifies this`quiet, this`armed, this`emptyMotionUntil, this`emptyMotionAfter
      ensures forall c :: GateOf(c) == if c == camera then Settled(old(GateOf(c)), moves) else old(GateOf(c))
    {
      hide Lookup, Put, Drop;
      if moves {
        quiet := Put(quiet, camera, 0);
      } else {
        quiet := Put(quiet, camera, if GetOr(quiet, camera, 0) + 1 < 3 then GetOr(quiet, camera, 0) + 1 else 3);
        if GetOr(quiet, camera, 0) == 3 {
          armed := Put(armed, camera, true);
          ForgetRecovery(camera);
        }
      }
    }

    method Settle(camera: Camera, moves: bool, now: real) returns (until: real)
      requires GetOr(quiet, camera, 0) <= 3
      modifies this
      ensures GateOf(camera) == Expired(Settled(old(GateOf(camera)), moves), now)
      ensures until == RecoveryUntil(Settled(old(GateOf(camera)), moves))
      ensures forall c :: c != camera ==> GateOf(c) == old(GateOf(c))
    {
      hide Lookup, Put, Drop, Settled;
      CountQuiet(camera, moves);
      until := GetOr(emptyMotionUntil, camera, 0.0);
      if until <= now {
        ForgetRecovery(camera);
      }
    }

    method OpenEpisode(camera: Camera, now: real)
      modifies this`pending, this`emptyMotionUntil, this`emptyMotionAfter, this`nearRetryUsed, this`armed, this`novel
      ensures forall c :: GateOf(c) == if c == camera then Opened(old(GateOf(c)), now) else old(GateOf(c))
    {
      hide Lookup, Put, Drop;
      pending := Put(pending, camera, 2);
      ForgetRecovery(camera);
      nearRetryUsed := nearRetryUsed - {camera};
      armed := Put(armed, camera, false);
      novel := Put(novel, camera,
          Lookup(lastChange, camera).None? || now - GetOr(lastChange, camera, 0.0) >= FRESH_QUIET_SECONDS);
    }

    method RecoverEpisode(camera: Camera)
      modifies this`pending, this`emptyMotionUntil, this`emptyMotionAfter, this`nearRetryUsed
      ensures forall c :: GateOf(c) == if c == camera then Recovered(old(GateOf(c))) else old(GateOf(c))
    {
      hide Lookup, Put, Drop;
      ForgetRecovery(camera);
      pending := Put(pending, camera, 2);
      nearRetryUsed := nearRetryUsed + {camera};
    }

    method Moved(camera: Camera, now: real)
      modifies this`lastChange
      ensures forall c :: GateOf(c) == if c == camera then old(GateOf(c)).(lastChange := Some(now)) else old(GateOf(c))
    {
      hide Lookup, Put;
      lastChange := Put(lastChange, camera, now);
    }

    method Decide(camera: Camera, moves: bool, until: real, ghost f: Op, now: real, observed: real)
      requires f.Frame? && f.now == now && ObservedAt(f) == observed
      modifies this
      ensures forall c :: GateOf(c) == if c == camera then Decided(old(GateOf(c)), moves, until, f) else old(GateOf(c))
    {
      hide Lookup, Put, Drop;
      if moves {
        if GetOr(armed, camera, true) && GetOr(pending, camera, 0) == 0 {
          OpenEpisode(camera, now);
        } else if until > now && Lookup(emptyMotionAfter, camera).Some?
                  && observed >= GetOr(emptyMotionAfter, camera, 0.0) && GetOr(pending, camera, 0) == 0
        {
          RecoverEpisode(camera);
        }
        Moved(camera, now);
      }
    }

    method ShouldRequest(camera: Camera, thumbnail: Thumbnail, now: real, captured: Option<nat>, allowProbe: bool)
      returns (granted: bool)
      requires Inv(GateOf(camera))
      modifies this
      ensures forall c :: GateOf(c) == if c == camera
                                       then Step(old(GateOf(camera)), Frame(thumbnail, now, captured, allowProbe))
                                       else old(GateOf(c))
      ensures granted == Grants(old(GateOf(camera)), Frame(thumbnail, now, captured, allowProbe))
      ensures Framed(old(GateOf(camera)), Frame(thumbnail, now, captured, allowProbe), GateOf(camera), granted)
    {
      hide Lookup, Put, Drop, Settled, Expired, Decided, Probed, RecoveryUntil, Changed, Framed;
      ghost var f := Frame(thumbnail, now, captured, allowProbe);
      var observed := if captured.Some? then captured.value as real / 1000.0 else now;
      assert old(GateOf(camera)).quiet <= 3;
      var before := Remember(camera, thumbnail, observed);
      if before.None? {
        Baseline(camera, allowProbe);
      } else {
        var changed := CountChanged(before.value, thumbnail);
        var until := Settle(camera, changed >= MOTION_CHANGED_CELLS, now);
        Decide(camera, changed >= MOTION_CHANGED_CELLS, until, f, now, observed);
      }
      assert GateOf(camera) == Observed(old(GateOf(camera)), f);
      granted := Consume(camera);
      FrameMeans(old(GateOf(camera)), f);
    }
  }
}
