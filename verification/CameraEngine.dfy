/** The engine object: every camera's policy, open events and holds in dictionaries that the calls update in place. */
module CameraEngine {
  import opened Options
  import opened Ordering
  import opened Reals
  import opened Sequences
  import opened CameraPolicy
  import opened CameraStream
  import opened CameraPool

  datatype Failure = NotAuthorized | InvalidPolicy | TrackingFailed | BudgetFailed
  datatype Result = Ok(candidates: seq<Candidate>) | Err(failure: Failure)

  /** A call that raises gives its caller nothing. */
  function Given(r: Result): seq<Candidate> {
    if r.Ok? then r.candidates else []
  }

  function Unstamped(events: seq<Event>): (candidates: seq<Candidate>)
    ensures |candidates| == |events| && forall i :: 0 <= i < |events| ==> candidates[i] == events[i].candidate
  {
    if events == [] then [] else Unstamped(events[..|events| - 1]) + [events[|events| - 1].candidate]
  }

  lemma {:induction false} UnstampBoth(events: seq<Event>, more: seq<Event>)
    ensures Unstamped(events + more) == Unstamped(events) + Unstamped(more)
  {
    if more == [] {
      assert events + more == events;
    } else {
      UnstampBoth(events, more[..|more| - 1]);
      assert (events + more)[..|events + more| - 1] == events + more[..|more| - 1];
    }
  }

  /** The steps of a call do the same to the engine's camera, at its counts, as they do to the camera on its own. */
  lemma AfterFrom(cfg: Config, solo: Solo, log: Log, call: Call)
    requires log.camera == solo.log.camera && log.events == []
    ensures var p, solo' := Through(cfg, log, StepsOf(log.camera, call)), After(cfg, solo, call);
            && solo'.log.camera == p.log.camera
            && p.log.tally.Plus(solo.log.tally) == solo'.log.tally.Plus(log.tally)
            && Unstamped(solo'.returned) == Unstamped(solo.returned) + if p.raised then [] else Unstamped(p.log.events)
  {
    hide Through, StepsOf;
    var steps := StepsOf(log.camera, call);
    ThroughIsLocal(cfg, log, solo.log, steps);
    var p, q := Through(cfg, log, steps), Through(cfg, solo.log, steps);
    assert p.log.events[|log.events|..] == p.log.events;
    UnstampBoth(solo.returned, p.log.events);
    assert solo.returned + [] == solo.returned;
  }

  lemma UnstampOne(events: seq<Event>, e: Event)
    ensures Unstamped(events + [e]) == Unstamped(events) + [e.candidate]
  {
    assert (events + [e])[..|events|] == events;
  }

  lemma {:induction false} UnstampMore(events: seq<Event>, candidates: seq<Candidate>, at: real)
    ensures Unstamped(events + Stamped(candidates, at)) == Unstamped(events) + candidates
  {
    hide Unstamped;
    if candidates == [] {
      assert events + Stamped(candidates, at) == events;
    } else {
      var n := |candidates| - 1;
      var init, last := Stamped(candidates[..n], at), Event(candidates[n], at);
      UnstampMore(events, candidates[..n], at);
      UnstampOne(events + init, last);
      assert events + Stamped(candidates, at) == events + init + [last];
      assert Unstamped(events) + candidates == Unstamped(events) + candidates[..n] + [candidates[n]];
    }
  }

  lemma OneStep(cfg: Config, log: Log, step: Step)
    requires log.events == []
    ensures var o, p := Take(cfg, log.camera, step), Through(cfg, log, [step]);
            && p.log.camera == o.camera && p.log.tally == log.tally.Plus(o.tally) && p.raised == o.raised
            && Unstamped(p.log.events) == o.events
  {
    hide Take;
    ThroughOne(cfg, log, step);
    UnstampMore([], Take(cfg, log.camera, step).events, Stamp(step));
  }

  lemma ReplaceIsQuiet(cfg: Config, c: Camera, policy: Option<Policy>)
    ensures var o := Take(cfg, c, Replace(policy)); o.tally == NONE && !o.raised
  {
  }

  lemma NoSteps(cfg: Config, log: Log)
    ensures Through(cfg, log, []) == Progress(log, [], false) && Unstamped([]) == []
  {
  }

  lemma ThroughFirst(cfg: Config, log: Log, now: real)
    ensures var p := Through(cfg, log, [Prune(now)] + Sightings([]));
            && !p.raised && p.log.camera == Take(cfg, log.camera, Prune(now)).camera
            && p.log.events == log.events && p.log.tally == log.tally && p.log.camera.policy == log.camera.policy
  {
    hide Pruned;
    assert Sightings([]) == [];
    assert [Prune(now)] + [] == [Prune(now)];
    ThroughOne(cfg, log, Prune(now));
    assert log.events + [] == log.events;
  }

  lemma ThroughMore(cfg: Config, log: Log, steps: seq<Step>, step: Step)
    requires !Through(cfg, log, steps).raised
    ensures var p := Through(cfg, log, steps);
            Through(cfg, log, steps + [step]) == Progress(Next(cfg, p.log, step), p.taken + [step],
                Take(cfg, p.log.camera, step).raised)
  {
    hide Next, Take;
    assert (steps + [step])[..|steps|] == steps;
  }

  lemma SightingsPrefix(samples: seq<Sample>, i: nat)
    requires i <= |samples|
    ensures Sightings(samples)[..i] == Sightings(samples[..i])
  {
  }

  lemma ApplyKeepsPolicy(cfg: Config, c: Camera, s: Sample)
    requires c.policy.Some?
    ensures Apply(cfg, c, s).camera.policy == c.policy
  {
    hide Iou;
  }

  lemma {:induction false} ThroughStops(cfg: Config, log: Log, steps: seq<Step>, n: nat)
    requires n <= |steps| && Through(cfg, log, steps[..n]).raised
    ensures Through(cfg, log, steps) == Through(cfg, log, steps[..n])
  {
    hide Next, Take;
    if n == |steps| {
      assert steps[..n] == steps;
    } else {
      assert steps[..|steps| - 1][..n] == steps[..n];
      ThroughStops(cfg, log, steps[..|steps| - 1], n);
    }
  }

  /** One more sample: its step if none has raised, and what follows a raise does not matter. */
  lemma ThroughNext(cfg: Config, log: Log, now: real, samples: seq<Sample>, i: nat)
    requires i < |samples|
    requires var p := Through(cfg, log, [Prune(now)] + Sightings(samples[..i])); !p.raised && p.log.camera.policy.Some?
    ensures var p := Through(cfg, log, [Prune(now)] + Sightings(samples[..i]));
            var p' := Through(cfg, log, [Prune(now)] + Sightings(samples[..i + 1]));
            var o := Apply(cfg, p.log.camera, samples[i]);
            && p'.raised == o.raised && p'.log.camera == o.camera && p'.log.tally == p.log.tally.Plus(o.tally)
            && p'.log.events == p.log.events + Stamped(o.events, samples[i].now)
                && p'.log.camera.policy == p.log.camera.policy
            && (p'.raised ==> Through(cfg, log, [Prune(now)] + Sightings(samples)) == p')
  {
    hide Apply, Pruned, Through;
    var steps := [Prune(now)] + Sightings(samples);
    SightingsPrefix(samples, i);
    SightingsPrefix(samples, i + 1);
    var before := [Prune(now)] + Sightings(samples[..i]);
    assert [Prune(now)] + Sightings(samples[..i + 1]) == before + [See(samples[i])];
    assert steps[..i + 2] == before + [See(samples[i])];
    ThroughMore(cfg, log, before, See(samples[i]));
    ApplyKeepsPolicy(cfg, Through(cfg, log, before).log.camera, samples[i]);
    if Through(cfg, log, steps[..i + 2]).raised {
      ThroughStops(cfg, log, steps, i + 2);
    }
  }

  class CameraPolicyEngine {
    const config: Config
    const cameras: seq<CameraId>
    var policies: map<CameraId, Option<Policy>>
    var active: map<CameraId, map<Track, Candidate>>
    var lastMoving: map<CameraId, map<Track, real>>
    var irHeld: map<CameraId, map<Track, Hold>>
    var irVetoed: map<CameraId, set<Track>>
    var irLocal: map<CameraId, set<Track>>
    var eventCounts: map<CameraId, nat>
    var eventTimes: map<CameraId, seq<real>>
    var lastPackageAt: map<CameraId, real>
    var generations: map<CameraId, nat>
    var packageIrHeld: nat
    var packageIrConfirmed: nat
    var packageIrAsAnimal: nat
    var packageIrDropped: nat

    function CameraAt(k: CameraId): Camera
      reads this`policies, this`active, this`lastMoving, this`irHeld, this`irVetoed, this`irLocal
      reads this`eventCounts, this`eventTimes, this`lastPackageAt, this`generations
    {
      Camera(GetOr(policies, k, None), GetOr(active, k, map[]), GetOr(lastMoving, k, map[]), GetOr(irHeld, k, map[]),
             GetOr(irVetoed, k, {}), GetOr(irLocal, k, {}), GetOr(eventCounts, k, 0), GetOr(eventTimes, k, []),
             Lookup(lastPackageAt, k), GetOr(generations, k, 0))
    }

    function Counts(): Tally
      reads this`packageIrHeld, this`packageIrConfirmed, this`packageIrAsAnimal, this`packageIrDropped
    {
      Tally(packageIrHeld, packageIrConfirmed, packageIrAsAnimal, packageIrDropped)
    }

    /** Each camera is what its own calls alone make of it, and the four counts are sums over the cameras. */
    ghost predicate HasServed(calls: seq<(CameraId, Call)>)
      reads this
    {
      && (forall k :: CameraAt(k) == if k in cameras then Own(config, calls, k).log.camera else NEW)
      && Counts() == Total(config, calls, cameras)
    }

    lemma ServedNothing()
      requires Counts() == NONE && forall k :: CameraAt(k) == NEW
      ensures HasServed([])
    {
      hide CameraAt;
      NothingCounted(config, cameras);
    }

    constructor (config: Config, cameras: seq<CameraId>)
      requires ValidConfig(config) && 1 <= |cameras| <= 5 && Distinct(cameras)
      ensures this.config == config && this.cameras == cameras
      ensures Counts() == NONE && (forall k :: CameraAt(k) == NEW) && HasServed([])
    {
      this.config, this.cameras := config, cameras;
      policies, active, lastMoving, irHeld, irVetoed, irLocal := map[], map[], map[], map[], map[], map[];
      eventCounts, eventTimes, lastPackageAt, generations := map[], map[], map[], map[];
      packageIrHeld, packageIrConfirmed, packageIrAsAnimal, packageIrDropped := 0, 0, 0, 0;
      new;
      assert forall k :: CameraAt(k) == NEW;
      hide CameraAt, HasServed;
      ServedNothing();
    }

    /** The track is no longer held, vetoed or watched. */
    method Release(camera: CameraId, track: Track)
      modifies this`irHeld, this`irVetoed, this`irLocal
      ensures forall k :: CameraAt(k) == if k == camera then Released(old(CameraAt(k)), track) else old(CameraAt(k))
    {
      hide Lookup, Put;
      var held: map<Track, Hold> := GetOr(irHeld, camera, map[]) - {track};
      irHeld := Put(irHeld, camera, held);
      irVetoed := Put(irVetoed, camera, GetOr(irVetoed, camera, {}) - {track});
      irLocal := Put(irLocal, camera, GetOr(irLocal, camera, {}) - {track});
    }

    method SetHold(camera: CameraId, track: Track, hold: Hold)
      modifies this`irHeld
      ensures forall k :: CameraAt(k) == if k == camera
                                         then old(CameraAt(k)).(held := old(CameraAt(k)).held[track := hold])
                                         else old(CameraAt(k))
    {
      hide Lookup, Put;
      var held: map<Track, Hold> := GetOr(irHeld, camera, map[]);
      held := held[track := hold];
      irHeld := Put(irHeld, camera, held);
    }

    method SetOpen(camera: CameraId, candidate: Candidate, now: real)
      modifies this`active, this`lastMoving
      ensures forall k :: CameraAt(k) == if k != camera
                                         then old(CameraAt(k))
                                         else var c, track := old(CameraAt(k)), candidate.change.track;
                                              c.(active := c.active[track := candidate],
                                                 lastMoving := c.lastMoving[track := now])
    {
      hide Lookup, Put;
      var open: map<Track, Candidate> := GetOr(active, camera, map[]);
      var moved: map<Track, real> := GetOr(lastMoving, camera, map[]);
      open, moved := open[candidate.change.track := candidate], moved[candidate.change.track := now];
      active := Put(active, camera, open);
      lastMoving := Put(lastMoving, camera, moved);
    }

    /** The bookkeeping of an admitted event. */
    method EnterEvent(camera: CameraId, s: Sample, zones: Zones)
      modifies this`active, this`lastMoving, this`eventCounts, this`lastPackageAt, this`eventTimes
      ensures forall k :: CameraAt(k) == if k == camera
                                         then Entered(config, old(CameraAt(k)), s, zones) else old(CameraAt(k))
    {
      hide Lookup, Put;
      SetOpen(camera, Candidate(s.change, zones), s.now);
      eventCounts := Put(eventCounts, camera, GetOr(eventCounts, camera, 0) + 1);
      if s.change.kind == Package {
        lastPackageAt := Put(lastPackageAt, camera, s.now);
      }
      if config.window.Some? {
        eventTimes := Put(eventTimes, camera, GetOr(eventTimes, camera, []) + [s.now]);
      }
    }

    method LeaveEvent(camera: CameraId, track: Track)
      modifies this`active, this`lastMoving
      ensures forall k :: CameraAt(k) == if k != camera
                                         then old(CameraAt(k))
                                         else old(CameraAt(k)).(active := old(CameraAt(k)).active - {track},
                                                                lastMoving := old(CameraAt(k)).lastMoving - {track})
    {
      hide Lookup, Put;
      var open: map<Track, Candidate> := GetOr(active, camera, map[]);
      var moved: map<Track, real> := GetOr(lastMoving, camera, map[]);
      open, moved := open - {track}, moved - {track};
      active := Put(active, camera, open);
      lastMoving := Put(lastMoving, camera, moved);
    }

    method AdmitEvent(camera: CameraId, s: Sample) returns (events: seq<Candidate>, raised: bool)
      modifies this`active, this`lastMoving, this`eventCounts, this`lastPackageAt, this`eventTimes
      ensures var o := Admit(config, old(CameraAt(camera)), s);
              && events == o.events && raised == o.raised
              && forall k :: CameraAt(k) == if k == camera then o.camera else old(CameraAt(k))
    {
      hide Lookup, Put, Entered;
      events, raised := [], false;
      if s.zones.Some? {
        if config.budgeted && s.claim == Fails { return [], true; }
        if !config.budgeted || s.claim == Granted {
          EnterEvent(camera, s, s.zones.value);
          return [Candidate(s.change, s.zones.value)], false;
        }
      }
    }

    /** The second half of `_apply_change`: cooldown, budget and zones for an enter, the open event for the rest. */
    method AnnounceChange(camera: CameraId, s: Sample) returns (events: seq<Candidate>, raised: bool)
      modifies this`active, this`lastMoving, this`eventCounts, this`lastPackageAt, this`eventTimes
      ensures var o := Announce(config, old(CameraAt(camera)), s);
              && events == o.events && raised == o.raised
              && forall k :: CameraAt(k) == if k == camera then o.camera else old(CameraAt(k))
    {
      hide Lookup, Put, Admit;
      var change, track := s.change, s.change.track;
      var open: map<Track, Candidate> := GetOr(active, camera, map[]);
      var moved: map<Track, real> := GetOr(lastMoving, camera, map[]);
      var budgetUsed := if config.window.Some? then |GetOr(eventTimes, camera, [])| else GetOr(eventCounts, camera, 0);
      var last := Lookup(lastPackageAt, camera);
      ghost var c := CameraAt(camera);
      assert open == c.active && moved == c.lastMoving && last == c.lastPackageAt;
      assert budgetUsed == if config.window.Some? then |c.eventTimes| else c.eventCount;
      hide CameraAt;
      events, raised := [], false;
      if change.kind == Package && change.edge == Enter && track !in open {
        if last.Some? && s.now - last.value < PACKAGE_COOLDOWN { return; }
        if config.cooled && s.cooling { return; }
      }
      if change.edge == Enter && track !in open && (config.maxEvents.None? || budgetUsed < config.maxEvents.value) {
        events, raised := AdmitEvent(camera, s);
      } else if change.edge == Moving && track in open && open[track].change.kind == change.kind
                && track in moved && s.now - moved[track] >= 1.0
      {
        if s.zones == Some(open[track].zones) {
          SetOpen(camera, Candidate(change, s.zones.value), s.now);
          return [Candidate(change, s.zones.value)], false;
        }
      } else if change.edge == Leave && track in open && open[track].change.kind == change.kind {
        var zones := open[track].zones;
        LeaveEvent(camera, track);
        return [Candidate(change, zones)], false;
      }
    }

    method AnnounceReleased(camera: CameraId, s: Sample) returns (events: seq<Candidate>, raised: bool)
      modifies this`irHeld, this`irVetoed, this`irLocal, this`active, this`lastMoving, this`eventCounts,
          this`lastPackageAt, this`eventTimes
      ensures var o := Announce(config, Released(old(CameraAt(camera)), s.change.track), s);
              && events == o.events && raised == o.raised
              && forall k :: CameraAt(k) == if k == camera then o.camera else old(CameraAt(k))
    {
      hide Announce, Released;
      Release(camera, s.change.track);
      events, raised := AnnounceChange(camera, s);
    }

    /** Still held, but at its new place if it moved. */
    method KeepHold(camera: CameraId, s: Sample)
      requires s.change.track in CameraAt(camera).held
      modifies this`irHeld
      ensures forall k :: var c, track := old(CameraAt(k)), s.change.track;
                          CameraAt(k) == if k == camera && Iou(c.held[track].box, s.change.box) < STATIONARY
                                         then c.(held := c.held[track := Hold(s.now, s.change.box)]) else c
    {
      hide Lookup, Put, Iou;
      var held: map<Track, Hold> := GetOr(irHeld, camera, map[]);
      if Iou(held[s.change.track].box, s.change.box) < STATIONARY {
        SetHold(camera, s.change.track, Hold(s.now, s.change.box));
      }
    }

    predicate WaitsLonger(camera: CameraId, s: Sample)
      requires s.change.track in CameraAt(camera).held
      reads this
      ensures WaitsLonger(camera, s) == StillHeld(CameraAt(camera), s)
    {
      var held: map<Track, Hold> := GetOr(irHeld, camera, map[]);
      var track, hold := s.change.track, held[s.change.track];
      s.infrared && (track in GetOr(irVetoed, camera, {}) || track in GetOr(irLocal, camera, {})
                     || Iou(hold.box, s.change.box) < STATIONARY || s.now - hold.since < DWELL)
    }

    method ApplyToHeld(camera: CameraId, s: Sample) returns (events: seq<Candidate>, raised: bool)
      requires s.change.track in CameraAt(camera).held
      modifies this
      ensures var o := ApplyHeld(config, old(CameraAt(camera)), s);
              && events == o.events && raised == o.raised && Counts() == old(Counts()).Plus(o.tally)
              && forall k :: CameraAt(k) == if k == camera then o.camera else old(CameraAt(k))
    {
      hide Announce, Iou, Released, StillHeld, WaitsLonger, CameraAt;
      var change, track := s.change, s.change.track;
      if change.edge == Leave {
        packageIrDropped := packageIrDropped + 1;
        Release(camera, track);
        return [], false;
      }
      if change.kind == Animal {
        packageIrAsAnimal := packageIrAsAnimal + 1;
        events, raised := AnnounceReleased(camera, s);
        return;
      }
      if WaitsLonger(camera, s) {
        KeepHold(camera, s);
        return [], false;
      }
      packageIrConfirmed := packageIrConfirmed + 1;
      events, raised := AnnounceReleased(camera, s.(change := change.(edge := Enter)));
    }

    /** `_apply_change`: night packages are held first. */
    method ApplyChange(camera: CameraId, s: Sample) returns (events: seq<Candidate>, raised: bool)
      requires CameraAt(camera).policy.Some?
      modifies this
      ensures var o := Apply(config, old(CameraAt(camera)), s);
              && events == o.events && raised == o.raised && Counts() == old(Counts()).Plus(o.tally)
              && forall k :: CameraAt(k) == if k == camera then o.camera else old(CameraAt(k))
    {
      hide Lookup, Put, Announce, ApplyHeld;
      events, raised := [], false;
      var change, track := s.change, s.change.track;
      if change.kind !in GetOr(policies, camera, None).value.enabled { return; }
      var isActive := track in GetOr(active, camera, map[]);
      if track in GetOr(irHeld, camera, map[]) && !isActive {
        events, raised := ApplyToHeld(camera, s);
      } else if change.kind == Package && change.edge == Enter && !isActive && s.infrared {
        SetHold(camera, track, Hold(s.now, change.box));
        packageIrHeld := packageIrHeld + 1;
      } else {
        events, raised := AnnounceChange(camera, s);
      }
    }

    /** The front of the queue goes, up to the first time after the cutoff. */
    static method DropOld(times: seq<real>, cutoff: real) returns (kept: seq<real>)
      ensures kept == Pruned(times, cutoff)
    {
      kept := times;
      while kept != [] && kept[0] <= cutoff
        invariant Pruned(kept, cutoff) == Pruned(times, cutoff)
      {
        kept := kept[1..];
      }
    }

    method PruneTimes(camera: CameraId, now: real)
      modifies this`eventTimes
      ensures forall k :: CameraAt(k) == if k == camera
                                         then Take(config, old(CameraAt(k)), Prune(now)).camera else old(CameraAt(k))
    {
      hide Lookup, Put, Pruned;
      if config.window.Some? {
        var kept := DropOld(GetOr(eventTimes, camera, []), now - config.window.value);
        eventTimes := Put(eventTimes, camera, kept);
      }
    }

    /** The state of one camera and the counts, as the steps of a call work on them. */
    ghost function LogAt(k: CameraId): Log
      reads this
    {
      Log(CameraAt(k), [], Counts(), 0)
    }

    /** `observe`, from the changes the tracker reports: nothing if it rejects the frame. */
    method ObserveFrame(camera: CameraId, now: real, frame: Frame) returns (r: Result)
      modifies this
      ensures camera !in cameras ==>
                r == Err(NotAuthorized) && Counts() == old(Counts()) && CameraAt(camera) == old(CameraAt(camera))
      ensures camera in cameras ==>
                var p := Through(config, old(LogAt(camera)), StepsOf(old(CameraAt(camera)), Observe(now, frame)));
                && CameraAt(camera) == p.log.camera && Counts() == p.log.tally
                && r == if frame.Malformed? || (frame.Rejected? && old(CameraAt(camera)).policy.Some?)
                        then Err(TrackingFailed)
                        else if p.raised then Err(BudgetFailed) else Ok(Unstamped(p.log.events))
      ensures forall k :: k != camera ==> CameraAt(k) == old(CameraAt(k))
    {
      hide Lookup, Put, Take, Through, Apply;
      if camera !in cameras { return Err(NotAuthorized); }
      ghost var log := LogAt(camera);
      NoSteps(config, log);
      if frame.Malformed? { return Err(TrackingFailed); }
      if CameraAt(camera).policy.None? { return Ok([]); }
      if frame.Rejected? { return Err(TrackingFailed); }
      var samples := frame.samples;
      ThroughFirst(config, log, now);
      PruneTimes(camera, now);
      var candidates := [];
      assert samples[..0] == [];
      for i := 0 to |samples|
        invariant var p := Through(config, log, [Prune(now)] + Sightings(samples[..i]));
                  && !p.raised && CameraAt(camera) == p.log.camera && Counts() == p.log.tally
                  && candidates == Unstamped(p.log.events) && p.log.camera.policy.Some?
        invariant forall k :: k != camera ==> CameraAt(k) == old(CameraAt(k))
      {
        ghost var p := Through(config, log, [Prune(now)] + Sightings(samples[..i]));
        ThroughNext(config, log, now, samples, i);
        var events, raised := ApplyChange(camera, samples[i]);
        if raised { return Err(BudgetFailed); }
        UnstampMore(p.log.events, events, samples[i].now);
        candidates := candidates + events;
      }
      assert samples[..|samples|] == samples;
      r := Ok(candidates);
    }

    static method CloseAll(open: map<Track, Candidate>) returns (candidates: seq<Candidate>)
      ensures candidates == Leaves(open, Sorted(open.Keys))
    {
      hide Sorted;
      var tracks := Sorted(open.Keys);
      candidates := [];
      for i := 0 to |tracks|
        invariant candidates == Leaves(open, tracks[..i])
      {
        assert tracks[..i + 1][..i] == tracks[..i];
        var candidate := open[tracks[i]];
        candidates := candidates + [candidate.(change := candidate.change.(edge := Leave))];
      }
      assert tracks[..|tracks|] == tracks;
    }

    method ForgetHolds(camera: CameraId)
      modifies this`irHeld, this`irVetoed, this`irLocal
      ensures forall k :: CameraAt(k) == if k == camera
                                         then old(CameraAt(k)).(held := map[], vetoed := {}, watched := {})
                                         else old(CameraAt(k))
    {
      hide Lookup, Put;
      irHeld := Put(irHeld, camera, map[]);
      irVetoed := Put(irVetoed, camera, {});
      irLocal := Put(irLocal, camera, {});
    }

    method ForgetEvents(camera: CameraId)
      modifies this`active, this`lastMoving
      ensures forall k :: CameraAt(k) == if k == camera
                                         then old(CameraAt(k)).(active := map[], lastMoving := map[])
                                         else old(CameraAt(k))
    {
      hide Lookup, Put;
      active := Put(active, camera, map[]);
      lastMoving := Put(lastMoving, camera, map[]);
    }

    method Install(camera: CameraId, policy: Option<Policy>)
      modifies this`policies, this`generations
      ensures forall k :: CameraAt(k) == if k == camera
                                         then old(CameraAt(k)).(policy := policy,
                                                                generation := old(CameraAt(k)).generation + 1)
                                         else old(CameraAt(k))
    {
      hide Lookup, Put;
      policies := Put(policies, camera, policy);
      generations := Put(generations, camera, GetOr(generations, camera, 0) + 1);
    }

    method ClearCamera(camera: CameraId, policy: Option<Policy>)
      modifies this`policies, this`active, this`lastMoving, this`irHeld, this`irVetoed, this`irLocal, this`generations
      ensures forall k :: CameraAt(k) == if k == camera then Replaced(old(CameraAt(k)), policy) else old(CameraAt(k))
    {
      hide CameraAt;
      ForgetEvents(camera);
      ForgetHolds(camera);
      Install(camera, policy);
    }

    /** `replace_policy`: every open event is closed, in the order of the track numbers. */
    method ReplacePolicyOf(camera: CameraId, policy: Option<Policy>) returns (r: Result)
      modifies this
      ensures var valid := camera in cameras && Installable(policy);
              var o := Take(config, old(CameraAt(camera)), Replace(policy));
              && (r == if camera !in cameras then Err(NotAuthorized) else if !valid then Err(InvalidPolicy)
                  else Ok(o.events))
              && CameraAt(camera) == if valid then o.camera else old(CameraAt(camera))
      ensures Counts() == old(Counts()) && forall k :: k != camera ==> CameraAt(k) == old(CameraAt(k))
    {
      hide Lookup, Put, Sorted, Leaves;
      if camera !in cameras { return Err(NotAuthorized); }
      if policy.Some? && policy.value.enabled == {} { return Err(InvalidPolicy); }
      if policy.Some? && policy == GetOr(policies, camera, None) { return Ok([]); }
      var open: map<Track, Candidate> := GetOr(active, camera, map[]);
      var candidates := CloseAll(open);
      ClearCamera(camera, policy);
      r := Ok(candidates);
    }

    method WatchHeld(camera: CameraId, track: Track) returns (r: Result)
      modifies this`irLocal
      ensures r == if camera in cameras then Ok([]) else Err(NotAuthorized)
      ensures forall k :: CameraAt(k) == if k == camera && camera in cameras
                                         then Take(config, old(CameraAt(k)), Watch(track)).camera else old(CameraAt(k))
    {
      hide Lookup, Put;
      if camera !in cameras { return Err(NotAuthorized); }
      if track in GetOr(irHeld, camera, map[]) {
        irLocal := Put(irLocal, camera, GetOr(irLocal, camera, {}) + {track});
      }
      r := Ok([]);
    }

    method ReleaseHeld(camera: CameraId, track: Track) returns (r: Result)
      modifies this`irLocal
      ensures r == if camera in cameras then Ok([]) else Err(NotAuthorized)
      ensures forall k :: CameraAt(k) == if k == camera && camera in cameras
                                         then Take(config, old(CameraAt(k)), Unwatch(track)).camera
                                         else old(CameraAt(k))
    {
      hide Lookup, Put;
      if camera !in cameras { return Err(NotAuthorized); }
      irLocal := Put(irLocal, camera, GetOr(irLocal, camera, {}) - {track});
      r := Ok([]);
    }

    method VetoHeld(camera: CameraId, track: Track) returns (r: Result)
      modifies this`irLocal, this`irVetoed
      ensures r == if camera in cameras then Ok([]) else Err(NotAuthorized)
      ensures forall k :: CameraAt(k) == if k == camera && camera in cameras
                                         then Take(config, old(CameraAt(k)), Veto(track)).camera else old(CameraAt(k))
    {
      hide Lookup, Put;
      if camera !in cameras { return Err(NotAuthorized); }
      irLocal := Put(irLocal, camera, GetOr(irLocal, camera, {}) - {track});
      if track in GetOr(irHeld, camera, map[]) {
        irVetoed := Put(irVetoed, camera, GetOr(irVetoed, camera, {}) + {track});
      }
      r := Ok([]);
    }

    /** `current` is what the tracker now has for the track, and `answer` what zones and budgets would say. */
    method ConfirmHeld(camera: CameraId, track: Track, current: Option<Change>, answer: Sample) returns (r: Result)
      modifies this
      ensures camera !in cameras ==>
                r == Err(NotAuthorized) && Counts() == old(Counts()) && CameraAt(camera) == old(CameraAt(camera))
      ensures camera in cameras ==>
                var o := Take(config, old(CameraAt(camera)), CameraPolicy.Confirm(track, current, answer));
                && r == (if o.raised then Err(BudgetFailed) else Ok(o.events))
                    && Counts() == old(Counts()).Plus(o.tally)
                && CameraAt(camera) == o.camera
      ensures forall k :: k != camera ==> CameraAt(k) == old(CameraAt(k))
    {
      hide Lookup, Put, Apply;
      if camera !in cameras { return Err(NotAuthorized); }
      var held: map<Track, Hold> := GetOr(irHeld, camera, map[]);
      if GetOr(policies, camera, None).None? || track !in held || current.None?
         || current.value.kind != Package || track in GetOr(irVetoed, camera, {})
      {
        return Ok([]);
      }
      var hold := held[track];
      SetHold(camera, track, hold.(since := Min(hold.since, answer.now - DWELL)));
      var _ := ReleaseHeld(camera, track);
      var events, raised := ApplyChange(camera,
          answer.(change := current.value.(edge := Moving, track := track), infrared := false));
      r := if raised then Err(BudgetFailed) else Ok(events);
    }

    method Answer(camera: CameraId, request: Request) returns (r: Result)
      modifies this
      ensures camera !in cameras ==>
                r == Err(NotAuthorized) && Counts() == old(Counts()) && CameraAt(camera) == old(CameraAt(camera))
      ensures camera in cameras ==>
                var o := Take(config, old(CameraAt(camera)), request);
                && r == (if o.raised then Err(BudgetFailed) else Ok(o.events))
                && Counts() == old(Counts()).Plus(o.tally) && CameraAt(camera) == o.camera
      ensures forall k :: k != camera ==> CameraAt(k) == old(CameraAt(k))
    {
      hide Apply, CameraAt;
      match request {
        case Watch(track) => r := WatchHeld(camera, track);
        case Unwatch(track) => r := ReleaseHeld(camera, track);
        case Veto(track) => r := VetoHeld(camera, track);
        case Confirm(track, current, answer) => r := ConfirmHeld(camera, track, current, answer);
      }
    }

    /** One call, whatever it is: the camera takes the call's steps, and the caller is given what they decide. */
    method ServeOne(camera: CameraId, call: Call) returns (r: Result)
      modifies this
      ensures camera !in cameras ==>
                r == Err(NotAuthorized) && Counts() == old(Counts()) && CameraAt(camera) == old(CameraAt(camera))
      ensures camera in cameras ==>
                var p := Through(config, old(LogAt(camera)), StepsOf(old(CameraAt(camera)), call));
                && CameraAt(camera) == p.log.camera && Counts() == p.log.tally
                && Given(r) == if p.raised then [] else Unstamped(p.log.events)
      ensures forall k :: k != camera ==> CameraAt(k) == old(CameraAt(k))
    {
      hide Take, Through;
      ghost var log := LogAt(camera);
      NoSteps(config, log);
      match call {
        case Observe(now, frame) =>
          r := ObserveFrame(camera, now, frame);
        case ReplacePolicy(policy) =>
          OneStep(config, log, Replace(policy));
          ReplaceIsQuiet(config, log.camera, policy);
          r := ReplacePolicyOf(camera, policy);
        case Ask(request) =>
          OneStep(config, log, request);
          r := Answer(camera, request);
      }
    }

    /** Each caller was given what the calls on its camera alone decide. */
    ghost predicate HasGiven(calls: seq<(CameraId, Call)>, returned: map<CameraId, seq<Candidate>>) {
      forall k <- cameras :: GetOr(returned, k, []) == Unstamped(Own(config, calls, k).returned)
    }

    method Serving(k: CameraId, call: Call, ghost calls: seq<(CameraId, Call)>) returns (r: Result)
      requires HasServed(calls) && Distinct(cameras)
      modifies this
      ensures HasServed(calls + [(k, call)])
      ensures k in cameras ==>
                var own, own' := Own(config, calls, k), Own(config, calls + [(k, call)], k);
                Unstamped(own'.returned) == Unstamped(own.returned) + Given(r)
    {
      hide Own, After, Through, CameraAt, Total;
      ghost var own := Own(config, calls, k);
      OwnMore(config, calls, k, call);
      TotalMore(config, calls, cameras, k, call);
      if k in cameras {
        AfterFrom(config, own, LogAt(k), call);
      }
      r := ServeOne(k, call);
    }

    lemma NothingGiven()
      ensures HasGiven([], map[])
    {
    }

    lemma GivenMore(calls: seq<(CameraId, Call)>, k: CameraId, call: Call, returned: map<CameraId, seq<Candidate>>)
      requires HasGiven(calls, returned)
      ensures k !in cameras ==> HasGiven(calls + [(k, call)], returned)
      ensures k in cameras ==> forall given ::
                var own, own' := Own(config, calls, k), Own(config, calls + [(k, call)], k);
                Unstamped(own'.returned) == Unstamped(own.returned) + given
                ==> HasGiven(calls + [(k, call)], Put(returned, k, GetOr(returned, k, []) + given))
    {
      hide Own, Unstamped, Put;
      OwnMore(config, calls, k, call);
    }

    /** Whatever is called, in whatever interleaving: cameras that share dictionaries and counts do not meet. */
    method Serve(calls: seq<(CameraId, Call)>) returns (returned: map<CameraId, seq<Candidate>>)
      requires HasServed([]) && Distinct(cameras)
      modifies this
      ensures HasServed(calls) && HasGiven(calls, returned)
    {
      hide HasServed, HasGiven;
      returned := map[];
      NothingGiven();
      for i := 0 to |calls|
        invariant HasServed(calls[..i]) && HasGiven(calls[..i], returned)
      {
        var k, call := calls[i].0, calls[i].1;
        assert calls[..i] + [(k, call)] == calls[..i + 1];
        var r := Serving(k, call, calls[..i]);
        GivenMore(calls[..i], k, call, returned);
        if k in cameras {
          returned := Put(returned, k, GetOr(returned, k, []) + Given(r));
        }
      }
      assert calls[..|calls|] == calls;
    }
  }
}
