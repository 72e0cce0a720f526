/** What holds of every stream of events one camera decides on, whatever its tracker reports. */
module CameraStream {
  import opened Options
  import opened Ordering
  import opened Reals
  import opened CameraPolicy

  datatype Event = Event(candidate: Candidate, at: real)

  /** `cleared` counts the holds that a new policy forgot. */
  datatype Log = Log(camera: Camera, events: seq<Event>, tally: Tally, cleared: nat)

  const START := Log(NEW, [], NONE, 0)

  function TimeOf(step: Step): Option<real> {
    match step
    case Prune(now) => Some(now)
    case See(sample) => Some(sample.now)
    case Confirm(_, _, answer) => Some(answer.now)
    case _ => None
  }

  /** Closing leaves have no time of their own. */
  function Stamp(step: Step): real {
    if TimeOf(step).Some? then TimeOf(step).value else 0.0
  }

  function Stamped(candidates: seq<Candidate>, at: real): (events: seq<Event>)
    ensures |events| == |candidates|
  {
    if candidates == [] then []
    else Stamped(candidates[..|candidates| - 1], at) + [Event(candidates[|candidates| - 1], at)]
  }

  function Next(cfg: Config, log: Log, step: Step): Log {
    var o := Take(cfg, log.camera, step);
    Log(o.camera, log.events + Stamped(o.events, Stamp(step)), log.tally.Plus(o.tally),
        log.cleared + if step.Replace? && !Repeats(log.camera, step.policy) then |log.camera.held| else 0)
  }

  function Run(cfg: Config, steps: seq<Step>): Log {
    if steps == [] then START else Next(cfg, Run(cfg, steps[..|steps| - 1]), steps[|steps| - 1])
  }

  // ---- Lifecycles ----

  /** Where a track is in (enter, moving*, leave)*: between events, or in one that started as a kind in some zones. */
  datatype Phase = Idle | Live(kind: Kind, zones: Zones, last: real) | Broken

  function Advance(p: Phase, e: Event): Phase {
    var change := e.candidate.change;
    match change.edge
    case Enter => if p.Idle? then Live(change.kind, e.candidate.zones, e.at) else Broken
    case Moving =>
      if p.Live? && p.kind == change.kind && p.zones == e.candidate.zones
          && e.at - p.last >= 1.0 then p.(last := e.at) else Broken
    case Leave => if p.Live? && p.kind == change.kind && p.zones == e.candidate.zones then Idle else Broken
  }

  function PhaseOf(events: seq<Event>, track: Track): Phase {
    if events == [] then Idle
    else
      var e := events[|events| - 1];
      var p := PhaseOf(events[..|events| - 1], track);
      if e.candidate.change.track == track then Advance(p, e) else p
  }

  /** What the engine keeps of an open event. */
  function PhaseIn(c: Camera, track: Track): Phase {
    if track in c.active && track in c.lastMoving
    then Live(c.active[track].change.kind, c.active[track].zones, c.lastMoving[track])
    else Idle
  }

  ghost predicate Shaped(c: Camera) {
    && c.active.Keys == c.lastMoving.Keys
    && (forall track <- c.active :: c.active[track].change.track == track)
    && c.active.Keys !! c.held.Keys
    && c.vetoed <= c.held.Keys && c.watched <= c.held.Keys
    && (c.held.Keys != {} ==> c.policy.Some? && Package in c.policy.value.enabled)
    && (c.policy.None? ==> c.active.Keys == {})
  }

  /** One event moves its track's phase to the one the engine then keeps, and no other track's. */
  ghost predicate Follows(c: Camera, o: Outcome, at: real) {
    && Shaped(o.camera) && |o.events| <= 1
    && (forall track :: PhaseIn(o.camera, track) ==
          if o.events != [] && o.events[0].change.track == track
          then Advance(PhaseIn(c, track), Event(o.events[0], at))
          else PhaseIn(c, track))
  }

  function Net(candidates: seq<Candidate>): int {
    if candidates == [] then 0
    else match candidates[0].change.edge case Enter => 1 case Moving => 0 case Leave => -1
  }

  lemma EnterFollows(cfg: Config, c: Camera, s: Sample, zones: Zones)
    requires Shaped(c) && c.policy.Some? && s.change.track !in c.held && s.change.track !in c.active
        && s.change.edge.Enter?
    ensures Follows(c, Announcing(Entered(cfg, c, s, zones), s.change, zones), s.now)
    ensures |Entered(cfg, c, s, zones).active| == |c.active| + 1
  {
  }

  function Moved(c: Camera, change: Change, now: real): Camera
    requires change.track in c.active
  {
    c.(active := c.active[change.track := Candidate(change, c.active[change.track].zones)],
       lastMoving := c.lastMoving[change.track := now])
  }

  lemma MovingShapes(c: Camera, change: Change, now: real)
    requires Shaped(c) && change.track in c.active
    ensures change.track in c.lastMoving
    ensures Shaped(Moved(c, change, now)) && |Moved(c, change, now).active| == |c.active|
  {
    var c' := Moved(c, change, now);
    assert change.track in c.active.Keys;
    assert c'.active.Keys == c.active.Keys && c'.lastMoving.Keys == c.lastMoving.Keys;
    assert |c'.active| == |c'.active.Keys| && |c.active| == |c.active.Keys|;
  }

  lemma MovingFollows(c: Camera, change: Change, now: real)
    requires Shaped(c) && change.edge.Moving? && SameObject(c, change) && now - c.lastMoving[change.track] >= 1.0
    ensures var zones := c.active[change.track].zones;
            Follows(c, Announcing(Moved(c, change, now), change, zones), now)
    ensures |Moved(c, change, now).active| == |c.active|
  {
    hide Shaped;
    MovingShapes(c, change, now);
  }

  lemma LeaveFollows(c: Camera, change: Change, now: real)
    requires Shaped(c) && change.edge.Leave? && SameObject(c, change)
    ensures var c' := c.(active := c.active - {change.track}, lastMoving := c.lastMoving - {change.track});
            Follows(c, Announcing(c', change, c.active[change.track].zones), now) && |c'.active| == |c.active| - 1
  {
    var rest := c.active - {change.track};
    assert rest.Keys == c.active.Keys - {change.track};
    assert |rest| == |rest.Keys| && |c.active| == |c.active.Keys|;
  }

  lemma QuietFollows(c: Camera, c': Camera, at: real)
    requires Shaped(c') && c'.active == c.active && c'.lastMoving == c.lastMoving
    ensures Follows(c, Quietly(c'), at)
  {
  }

  lemma RaisingFollows(c: Camera, at: real)
    requires Shaped(c)
    ensures Follows(c, Outcome(c, [], NONE, true), at)
  {
  }

  lemma AdmitFollows(cfg: Config, c: Camera, s: Sample)
    requires Shaped(c) && c.policy.Some? && s.change.track !in c.held && s.change.track !in c.active
        && s.change.edge.Enter?
    ensures Follows(c, Admit(cfg, c, s), s.now)
        && |Admit(cfg, c, s).camera.active| == |c.active| + Net(Admit(cfg, c, s).events)
  {
    hide Follows, Shaped, Entered;
    QuietFollows(c, c, s.now);
    RaisingFollows(c, s.now);
    if s.zones.Some? {
      EnterFollows(cfg, c, s, s.zones.value);
    }
  }

  lemma AnnounceFollows(cfg: Config, c: Camera, s: Sample)
    requires Shaped(c) && c.policy.Some? && (s.change.edge.Enter? ==> s.change.track !in c.held)
    ensures Follows(c, Announce(cfg, c, s), s.now)
    ensures |Announce(cfg, c, s).camera.active| == |c.active| + Net(Announce(cfg, c, s).events)
  {
    hide Follows, HasRoom, Cools, Admit;
    QuietFollows(c, c, s.now);
    var change := s.change;
    match change.edge {
      case Enter =>
        if change.track !in c.active {
          AdmitFollows(cfg, c, s);
        }
      case Moving =>
        if SameObject(c, change) && s.now - c.lastMoving[change.track] >= 1.0 {
          MovingFollows(c, change, s.now);
        }
      case Leave =>
        if SameObject(c, change) {
          LeaveFollows(c, change, s.now);
        }
    }
  }

  /** What one sample or call on a shaped camera keeps: phases, the number of open events, and every hold accounted
      for. */
  ghost predicate Accounted(c: Camera, o: Outcome, at: real) {
    && Follows(c, o, at)
    && |o.camera.active| == |c.active| + Net(o.events)
    && |c.held| + o.tally.held == |o.camera.held| + o.tally.confirmed + o.tally.asAnimal + o.tally.dropped
  }

  lemma QuietAccounted(c: Camera, c': Camera, tally: Tally, at: real)
    requires Shaped(c') && c'.active == c.active && c'.lastMoving == c.lastMoving
    requires |c.held| + tally.held == |c'.held| + tally.confirmed + tally.asAnimal + tally.dropped
    ensures Accounted(c, Counting(Quietly(c'), tally), at)
  {
  }

  lemma ReleaseShapes(c: Camera, track: Track)
    requires Shaped(c) && track in c.held
    ensures Shaped(Released(c, track)) && |Released(c, track).held| == |c.held| - 1 && track !in Released(c, track).held
  {
    assert Released(c, track).held.Keys == c.held.Keys - {track};
    assert |Released(c, track).held| == |c.held.Keys - {track}| && |c.held| == |c.held.Keys|;
  }

  lemma AnnounceAccounted(cfg: Config, c: Camera, released: Camera, s: Sample, tally: Tally)
    requires Shaped(released) && released.active == c.active && released.lastMoving == c.lastMoving
        && c.policy == released.policy
    requires c.policy.Some? && (s.change.edge.Enter? ==> s.change.track !in released.held)
    requires |c.held| + tally.held == |released.held| + tally.confirmed + tally.asAnimal + tally.dropped
    ensures Accounted(c, Counting(Announce(cfg, released, s), tally), s.now)
  {
    hide Announce, Shaped, Advance, Released;
    AnnounceFollows(cfg, released, s);
  }

  lemma HoldShapes(c: Camera, track: Track, hold: Hold)
    requires Shaped(c) && track !in c.active && c.policy.Some? && (track in c.held || Package in c.policy.value.enabled)
    ensures Shaped(c.(held := c.held[track := hold]))
    ensures |c.held[track := hold]| == |c.held| + if track in c.held then 0 else 1
  {
    var held := c.held[track := hold];
    assert held.Keys == c.held.Keys + {track};
    assert |held| == |held.Keys| && |c.held| == |c.held.Keys|;
    if track in c.held {
      assert held.Keys == c.held.Keys;
    }
  }

  lemma ActiveNotHeld(c: Camera, track: Track)
    requires Shaped(c)
    ensures !(track in c.active && track in c.held)
  {
    assert track in c.active ==> track in c.active.Keys;
  }

  lemma ApplyHeldAccounted(cfg: Config, c: Camera, s: Sample)
    requires Shaped(c) && c.policy.Some? && s.change.track in c.held && s.change.track !in c.active
    ensures Accounted(c, ApplyHeld(cfg, c, s), s.now)
  {
    hide Announce, Shaped, Accounted, Iou;
    var track := s.change.track;
    var released := Released(c, track);
    ReleaseShapes(c, track);
    HoldShapes(c, track, Hold(s.now, s.change.box));
    QuietAccounted(c, c, NONE, s.now);
    QuietAccounted(c, c.(held := c.held[track := Hold(s.now, s.change.box)]), NONE, s.now);
    QuietAccounted(c, released, Tally(0, 0, 0, 1), s.now);
    AnnounceAccounted(cfg, c, released, s, Tally(0, 0, 1, 0));
    AnnounceAccounted(cfg, c, released, s.(change := s.change.(edge := Enter)), Tally(0, 1, 0, 0));
  }

  lemma ApplyAccounted(cfg: Config, c: Camera, s: Sample)
    requires Shaped(c) && c.policy.Some?
    ensures Accounted(c, Apply(cfg, c, s), s.now)
  {
    hide Announce, Shaped, Accounted, Released, Iou;
    var track := s.change.track;
    QuietAccounted(c, c, NONE, s.now);
    if s.change.kind in c.policy.value.enabled {
      if track in c.held && track !in c.active {
        ApplyHeldAccounted(cfg, c, s);
      } else if IsHeldBack(c, s) {
        var c' := c.(held := c.held[track := Hold(s.now, s.change.box)]);
        HoldShapes(c, track, Hold(s.now, s.change.box));
        QuietAccounted(c, c', Tally(1, 0, 0, 0), s.now);
      } else {
        ActiveNotHeld(c, track);
        AnnounceAccounted(cfg, c, c, s, NONE);
      }
    }
  }

  lemma AccountedFrom(c: Camera, c': Camera, o: Outcome, at: real)
    requires c'.active == c.active && c'.lastMoving == c.lastMoving && |c'.held| == |c.held| && Accounted(c', o, at)
    ensures Accounted(c, o, at)
  {
    hide Shaped, Advance;
  }

  lemma UnwatchShapes(c: Camera, track: Track)
    requires Shaped(c)
    ensures Shaped(c.(watched := c.watched - {track}))
  {
  }

  lemma ConfirmAccounted(cfg: Config, c: Camera, track: Track, current: Change, answer: Sample)
    requires Shaped(c) && c.policy.Some? && track in c.held
    ensures Accounted(c, Confirmed(cfg, c, track, current, answer), answer.now)
  {
    hide Apply, Shaped, Accounted;
    var hold := c.held[track];
    var hold' := hold.(since := Min(hold.since, answer.now - DWELL));
    var c1 := c.(held := c.held[track := hold']);
    var c' := c1.(watched := c.watched - {track});
    ActiveNotHeld(c, track);
    HoldShapes(c, track, hold');
    UnwatchShapes(c1, track);
    var s := answer.(change := current.(edge := Moving, track := track), infrared := false);
    ApplyAccounted(cfg, c', s);
    AccountedFrom(c, c', Apply(cfg, c', s), answer.now);
  }

  lemma TakeAccounted(cfg: Config, c: Camera, step: Step)
    requires Shaped(c) && !step.Replace?
    ensures Accounted(c, Take(cfg, c, step), Stamp(step))
  {
    hide Accounted, Apply, Confirmed, Pruned;
    var at := Stamp(step);
    QuietAccounted(c, c, NONE, at);
    match step {
      case Prune(now) =>
        if cfg.window.Some? {
          QuietAccounted(c, c.(eventTimes := Pruned(c.eventTimes, now - cfg.window.value)), NONE, at);
        }
      case See(sample) =>
        if c.policy.Some? {
          ApplyAccounted(cfg, c, sample);
        }
      case Watch(_) | Unwatch(_) | Veto(_) =>
        QuietAccounted(c, Take(cfg, c, step).camera, NONE, at);
      case Confirm(track, current, answer) =>
        if Confirms(c, track, current) {
          ConfirmAccounted(cfg, c, track, current.value, answer);
        }
    }
  }

  // ---- Whole runs ----

  lemma PhaseOfMore(events: seq<Event>, e: Event, track: Track)
    ensures PhaseOf(events + [e], track)
         == if e.candidate.change.track == track then Advance(PhaseOf(events, track), e) else PhaseOf(events, track)
  {
    assert (events + [e])[..|events|] == events;
  }

  lemma ActiveIsLive(c: Camera, track: Track)
    requires Shaped(c) && track in c.active
    ensures c.active[track].change.track == track && PhaseIn(c, track).Live?
    ensures PhaseIn(c, track).kind == c.active[track].change.kind && PhaseIn(c, track).zones == c.active[track].zones
  {
    assert track in c.lastMoving.Keys;
  }

  /** A new policy closes the open event of each active track, once. */
  lemma {:induction false} LeavesClose(c: Camera, tracks: seq<Track>, events: seq<Event>, at: real, track: Track)
    requires Shaped(c) && Ascending(tracks) && forall t <- tracks :: t in c.active
    requires PhaseOf(events, track) == PhaseIn(c, track)
    ensures PhaseOf(events + Stamped(Leaves(c.active, tracks), at), track) == if track in tracks then Idle
        else PhaseIn(c, track)
  {
    hide Shaped, PhaseOf, PhaseIn;
    if tracks == [] {
      assert events + Stamped(Leaves(c.active, tracks), at) == events;
    } else {
      var init, t := tracks[..|tracks| - 1], tracks[|tracks| - 1];
      LeavesClose(c, init, events, at, track);
      var earlier := events + Stamped(Leaves(c.active, init), at);
      var e := Event(LeaveOf(c.active[t]), at);
      assert Leaves(c.active, tracks)[..|tracks| - 1] == Leaves(c.active, init);
      assert events + Stamped(Leaves(c.active, tracks), at) == earlier + [e];
      PhaseOfMore(earlier, e, track);
      ActiveIsLive(c, t);
      assert track in tracks <==> track in init || track == t;
    }
  }

  function Sign(e: Event): int {
    match e.candidate.change.edge case Enter => 1 case Moving => 0 case Leave => -1
  }

  /** Enters minus leaves. */
  function Balance(events: seq<Event>): int {
    if events == [] then 0 else Balance(events[..|events| - 1]) + Sign(events[|events| - 1])
  }

  lemma BalanceOfMore(events: seq<Event>, e: Event)
    ensures Balance(events + [e]) == Balance(events) + Sign(e)
  {
    assert (events + [e])[..|events|] == events;
  }

  lemma {:induction false} LeavesBalance(active: map<Track, Candidate>, tracks: seq<Track>, events: seq<Event>,
      at: real)
    requires forall t <- tracks :: t in active
    ensures Balance(events + Stamped(Leaves(active, tracks), at)) == Balance(events) - |tracks|
  {
    if tracks == [] {
      assert events + Stamped(Leaves(active, tracks), at) == events;
    } else {
      var init, t := tracks[..|tracks| - 1], tracks[|tracks| - 1];
      LeavesBalance(active, init, events, at);
      var earlier := events + Stamped(Leaves(active, init), at);
      var e := Event(LeaveOf(active[t]), at);
      assert Leaves(active, tracks)[..|tracks| - 1] == Leaves(active, init);
      assert events + Stamped(Leaves(active, tracks), at) == earlier + [e];
      BalanceOfMore(earlier, e);
    }
  }

  ghost predicate Sound(log: Log) {
    && Shaped(log.camera)
    && (forall track :: PhaseOf(log.events, track) == PhaseIn(log.camera, track))
    && Balance(log.events) == |log.camera.active|
    && log.tally.held == log.tally.confirmed + log.tally.asAnimal + log.tally.dropped + |log.camera.held| + log.cleared
  }

  lemma ReplaceIs(cfg: Config, log: Log, policy: Option<Policy>)
    requires !Repeats(log.camera, policy)
    ensures Next(cfg, log, Replace(policy)) ==
              Log(Replaced(log.camera, policy),
                  log.events + Stamped(Leaves(log.camera.active, Sorted(log.camera.active.Keys)), 0.0),
                  log.tally, log.cleared + |log.camera.held|)
  {
    hide Leaves, Stamped, Sorted, Repeats, Replaced;
  }

  lemma InactiveIsIdle(c: Camera, track: Track)
    ensures track !in c.active ==> PhaseIn(c, track) == Idle
  {
  }

  lemma ReplacedIsShaped(c: Camera, policy: Option<Policy>)
    ensures Shaped(Replaced(c, policy)) && forall track :: PhaseIn(Replaced(c, policy), track) == Idle
    ensures |Replaced(c, policy).active| == 0 == |Replaced(c, policy).held|
  {
  }

  lemma ReplaceKeepsSound(cfg: Config, log: Log, policy: Option<Policy>)
    requires Sound(log) && !Repeats(log.camera, policy)
    ensures Sound(Next(cfg, log, Replace(policy)))
  {
    hide Shaped, PhaseOf, PhaseIn, Balance, Repeats, Next, Leaves, Stamped, Sorted, Replaced;
    var c := log.camera;
    var tracks := Sorted(c.active.Keys);
    ReplaceIs(cfg, log, policy);
    var events := log.events + Stamped(Leaves(c.active, tracks), 0.0);
    forall track ensures PhaseOf(events, track) == Idle {
      LeavesClose(c, tracks, log.events, 0.0, track);
      InactiveIsIdle(c, track);
    }
    LeavesBalance(c.active, tracks, log.events, 0.0);
    assert |c.active| == |c.active.Keys|;
    ReplacedIsShaped(c, policy);
  }

  lemma TakeKeepsSound(cfg: Config, log: Log, step: Step)
    requires Sound(log) && !step.Replace?
    ensures Sound(Next(cfg, log, step))
  {
    hide Shaped, Take, PhaseOf, PhaseIn, Balance, Advance, Stamp;
    var c, o := log.camera, Take(cfg, log.camera, step);
    TakeAccounted(cfg, c, step);
    if o.events == [] {
      assert log.events + Stamped(o.events, Stamp(step)) == log.events;
    } else {
      var e := Event(o.events[0], Stamp(step));
      assert o.events[..0] == [];
      assert Stamped(o.events, Stamp(step)) == [e];
      BalanceOfMore(log.events, e);
      forall track ensures PhaseOf(log.events + [e], track) == PhaseIn(o.camera, track) {
        PhaseOfMore(log.events, e, track);
      }
    }
  }

  lemma StartIsSound()
    ensures Sound(START)
  {
  }

  lemma RepeatIsNothing(cfg: Config, log: Log, policy: Option<Policy>)
    requires Repeats(log.camera, policy)
    ensures Next(cfg, log, Replace(policy)) == log
  {
  }

  lemma SoundIsUnbroken(log: Log)
    requires Sound(log)
    ensures forall track :: PhaseOf(log.events, track) != Broken
  {
    hide PhaseOf, Shaped, Balance;
  }

  /**
  Whatever the tracker, the zones and the budgets answer, the events of every track are a prefix of
  (enter, moving*, leave)* with one kind and one zone tuple each time round and moving events a second
  apart; enters minus leaves are the open events; and every hold ended in one of four ways or goes on.
  */
  lemma {:induction false} EveryRunIsSound(cfg: Config, steps: seq<Step>)
    ensures Sound(Run(cfg, steps))
    ensures forall track :: PhaseOf(Run(cfg, steps).events, track) != Broken
  {
    hide Sound, Next, Take;
    if steps == [] {
      StartIsSound();
    } else {
      var log, step := Run(cfg, steps[..|steps| - 1]), steps[|steps| - 1];
      EveryRunIsSound(cfg, steps[..|steps| - 1]);
      if !step.Replace? {
        TakeKeepsSound(cfg, log, step);
      } else if Repeats(log.camera, step.policy) {
        RepeatIsNothing(cfg, log, step.policy);
      } else {
        ReplaceKeepsSound(cfg, log, step.policy);
      }
    }
    SoundIsUnbroken(Run(cfg, steps));
  }
}
