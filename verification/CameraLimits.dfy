/** How often one camera may announce something: the sliding window, the fixed count and the package cooldown. */
module CameraLimits {
  import opened Options
  import opened Ordering
  import opened Reals
  import opened Sequences
  import opened CameraPolicy
  import opened CameraStream

  predicate IsEnter(candidate: Candidate) {
    candidate.change.edge.Enter?
  }

  /** A step that announces nothing new leaves the limits alone, except that a sample prunes the window. */
  predicate SpendsNothing(cfg: Config, c: Camera, o: Outcome) {
    && (forall candidate <- o.events :: !IsEnter(candidate))
    && o.camera.eventCount == c.eventCount && o.camera.lastPackageAt == c.lastPackageAt
    && o.camera.eventTimes == c.eventTimes
  }

  /** An announcement had room, and a package was not announced too soon after the last one. */
  predicate SpendsOne(cfg: Config, c: Camera, o: Outcome, now: real) {
    && |o.events| == 1 && IsEnter(o.events[0]) && HasRoom(cfg, c)
    && o.camera.eventCount == c.eventCount + 1
    && o.camera.eventTimes == (if cfg.window.Some? then c.eventTimes + [now] else c.eventTimes)
    && (o.events[0].change.kind.Package? ==>
          (c.lastPackageAt.Some? ==> now - c.lastPackageAt.value >= PACKAGE_COOLDOWN)
              && o.camera.lastPackageAt == Some(now))
    && (!o.events[0].change.kind.Package? ==> o.camera.lastPackageAt == c.lastPackageAt)
  }

  predicate Limited(cfg: Config, c: Camera, o: Outcome, now: real) {
    SpendsNothing(cfg, c, o) || SpendsOne(cfg, c, o, now)
  }

  lemma AnnounceLimited(cfg: Config, c: Camera, s: Sample)
    ensures Limited(cfg, c, Announce(cfg, c, s), s.now)
  {
  }

  lemma ReleasedLimited(cfg: Config, c: Camera, s: Sample, tally: Tally)
    ensures Limited(cfg, c, Counting(Announce(cfg, Released(c, s.change.track), s), tally), s.now)
  {
    hide Announce;
    AnnounceLimited(cfg, Released(c, s.change.track), s);
  }

  lemma QuietLimited(cfg: Config, c: Camera, held: map<Track, Hold>, vetoed: set<Track>, watched: set<Track>,
      tally: Tally, now: real)
    ensures Limited(cfg, c, Counting(Quietly(c.(held := held, vetoed := vetoed, watched := watched)), tally), now)
  {
  }

  lemma ApplyLimited(cfg: Config, c: Camera, s: Sample)
    requires c.policy.Some?
    ensures Limited(cfg, c, Apply(cfg, c, s), s.now)
  {
    hide Announce, Iou, StillHeld, Limited;
    var released := Released(c, s.change.track);
    var held := c.held[s.change.track := Hold(s.now, s.change.box)];
    QuietLimited(cfg, c, c.held, c.vetoed, c.watched, NONE, s.now);
    QuietLimited(cfg, c, held, c.vetoed, c.watched, NONE, s.now);
    QuietLimited(cfg, c, held, c.vetoed, c.watched, Tally(1, 0, 0, 0), s.now);
    QuietLimited(cfg, c, released.held, released.vetoed, released.watched, Tally(0, 0, 0, 1), s.now);
    AnnounceLimited(cfg, c, s);
    ReleasedLimited(cfg, c, s, Tally(0, 0, 1, 0));
    ReleasedLimited(cfg, c, s.(change := s.change.(edge := Enter)), Tally(0, 1, 0, 0));
  }

  lemma {:induction false} LeavesAreNotEnters(active: map<Track, Candidate>, tracks: seq<Track>)
    requires forall track <- tracks :: track in active
    ensures forall candidate <- Leaves(active, tracks) :: !IsEnter(candidate)
  {
    if tracks != [] {
      LeavesAreNotEnters(active, tracks[..|tracks| - 1]);
    }
  }

  lemma TakeLimited(cfg: Config, c: Camera, step: Step)
    requires !step.Prune?
    ensures Limited(cfg, c, Take(cfg, c, step), Stamp(step))
    ensures TimeOf(step).None? ==> SpendsNothing(cfg, c, Take(cfg, c, step))
  {
    hide Apply, Sorted, Leaves;
    match step {
      case Replace(policy) =>
        LeavesAreNotEnters(c.active, Sorted(c.active.Keys));
      case See(sample) =>
        if c.policy.Some? {
          ApplyLimited(cfg, c, sample);
        }
      case Confirm(track, current, answer) =>
        if Confirms(c, track, current) {
          var hold := c.held[track];
          var c' := c.(held := c.held[track := hold.(since := Min(hold.since, answer.now - DWELL))],
              watched := c.watched - {track});
          ApplyLimited(cfg, c', answer.(change := current.value.(edge := Moving, track := track), infrared := false));
        }
      case _ =>
    }
  }

  // ---- The enters of a run ----

  /** When a camera announced something: everything, or packages only. */
  function EnterTimes(events: seq<Event>, packages: bool): seq<real> {
    if events == [] then []
    else
      var e, earlier := events[|events| - 1], EnterTimes(events[..|events| - 1], packages);
      if IsEnter(e.candidate) && (packages ==> e.candidate.change.kind.Package?) then earlier + [e.at] else earlier
  }

  lemma {:induction false} NoEnters(events: seq<Event>, candidates: seq<Candidate>, at: real, packages: bool)
    requires forall candidate <- candidates :: !IsEnter(candidate)
    ensures EnterTimes(events + Stamped(candidates, at), packages) == EnterTimes(events, packages)
  {
    if candidates == [] {
      assert events + Stamped(candidates, at) == events;
    } else {
      var n := |candidates| - 1;
      NoEnters(events, candidates[..n], at, packages);
      assert events + Stamped(candidates, at) == (events + Stamped(candidates[..n], at)) + [Event(candidates[n], at)];
      assert (events + Stamped(candidates, at))[..|events| + n] == events + Stamped(candidates[..n], at);
    }
  }

  lemma OneEnter(events: seq<Event>, candidate: Candidate, at: real, packages: bool)
    requires IsEnter(candidate)
    ensures EnterTimes(events + Stamped([candidate], at), packages)
         == EnterTimes(events, packages) + if packages && !candidate.change.kind.Package? then [] else [at]
  {
    assert [candidate][..0] == [];
    assert Stamped([candidate], at) == [Event(candidate, at)];
    assert (events + [Event(candidate, at)])[..|events|] == events;
  }

  lemma PruneIsQuiet(cfg: Config, c: Camera, step: Step)
    requires step.Prune?
    ensures Take(cfg, c, step).events == [] && Take(cfg, c, step).camera.lastPackageAt == c.lastPackageAt
    ensures Take(cfg, c, step).camera.eventCount == c.eventCount
  {
  }

  /** The two ways a step can change the enters of a log. */
  lemma EntersOfStep(cfg: Config, log: Log, step: Step, packages: bool)
    ensures var o := Take(cfg, log.camera, step); var log' := Next(cfg, log, step);
            if o.events != [] && IsEnter(o.events[0])
            then |o.events| == 1 && EnterTimes(log'.events, packages)
                   == EnterTimes(log.events, packages) + if packages && !o.events[0].change.kind.Package? then []
                       else [Stamp(step)]
            else EnterTimes(log'.events, packages) == EnterTimes(log.events, packages)
  {
    hide Take, Stamped, EnterTimes, Stamp;
    var o := Take(cfg, log.camera, step);
    if step.Prune? {
      PruneIsQuiet(cfg, log.camera, step);
    } else {
      TakeLimited(cfg, log.camera, step);
    }
    if o.events != [] && IsEnter(o.events[0]) {
      assert o.events == [o.events[0]];
      OneEnter(log.events, o.events[0], Stamp(step), packages);
    } else {
      NoEnters(log.events, o.events, Stamp(step), packages);
    }
  }

  // ---- Packages ----

  lemma NothingEntered(packages: bool)
    ensures EnterTimes([], packages) == []
  {
  }

  /** Two package announcements of one camera are half an hour apart, whatever policies come between them. */
  lemma {:induction false} PackagesAreSpaced(cfg: Config, steps: seq<Step>)
    ensures var log := Run(cfg, steps); var times := EnterTimes(log.events, true);
            && SpacedByReal(times, 1, PACKAGE_COOLDOWN)
            && log.camera.lastPackageAt == if times == [] then None else Some(times[|times| - 1])
  {
    hide Take, EnterTimes, Stamped, Stamp;
    if steps == [] {
      NothingEntered(true);
    } else {
      var log, step := Run(cfg, steps[..|steps| - 1]), steps[|steps| - 1];
      PackagesAreSpaced(cfg, steps[..|steps| - 1]);
      EntersOfStep(cfg, log, step, true);
      if step.Prune? {
        PruneIsQuiet(cfg, log.camera, step);
      } else {
        TakeLimited(cfg, log.camera, step);
      }
    }
  }

  // ---- Without a window ----

  /** Without a window the limit is for good. */
  lemma {:induction false} CountIsBounded(cfg: Config, steps: seq<Step>)
    requires cfg.window.None?
    ensures Run(cfg, steps).camera.eventCount == |EnterTimes(Run(cfg, steps).events, false)|
    ensures cfg.maxEvents.Some? ==> Run(cfg, steps).camera.eventCount <= cfg.maxEvents.value
  {
    hide Take, EnterTimes, Stamped, Stamp;
    if steps == [] {
      NothingEntered(false);
    } else {
      var log, step := Run(cfg, steps[..|steps| - 1]), steps[|steps| - 1];
      CountIsBounded(cfg, steps[..|steps| - 1]);
      EntersOfStep(cfg, log, step, false);
      if step.Prune? {
        PruneIsQuiet(cfg, log.camera, step);
      } else {
        TakeLimited(cfg, log.camera, step);
      }
    }
  }

  // ---- The window ----

  /** The highest clock reading so far. */
  function Clock(steps: seq<Step>): Option<real> {
    if steps == [] then None
    else
      var peak, last := Clock(steps[..|steps| - 1]), TimeOf(steps[|steps| - 1]);
      if last.None? || (peak.Some? && peak.value > last.value) then peak else last
  }

  /** The clock readings of a run never go back by more than `drift`. */
  predicate Drifts(steps: seq<Step>, drift: real) {
    steps == [] ||
    (var init, last := steps[..|steps| - 1], TimeOf(steps[|steps| - 1]);
     Drifts(init, drift) && (last.Some? && Clock(init).Some? ==> Clock(init).value <= last.value + drift))
  }

  predicate By(clock: Option<real>, at: real) {
    clock.Some? && at <= clock.value
  }

  /** The queue holds the latest enters; those that left it are out of the window; and no window holds too many, give
      or take what the clock has gone back by. */
  ghost predicate Windowed(times: seq<real>, queue: seq<real>, clock: Option<real>, window: real, max: nat,
      drift: real) {
    && |queue| <= |times| && queue == times[|times| - |queue|..] && |queue| <= max
    && (forall i :: 0 <= i < |times| ==> By(clock, times[i]))
    && (forall i :: 0 <= i < |times| - |queue| ==> By(clock, times[i] + window))
    && SpacedByReal(times, max, window - drift)
  }

  lemma LaterWindowed(times: seq<real>, queue: seq<real>, clock: Option<real>, clock': Option<real>, window: real,
      max: nat, drift: real)
    requires Windowed(times, queue, clock, window, max, drift) && (clock.Some? ==> By(clock', clock.value))
    ensures Windowed(times, queue, clock', window, max, drift)
  {
  }

  lemma DroppedWindowed(times: seq<real>, queue: seq<real>, n: nat, now: real, peak: real, window: real, max: nat,
      drift: real)
    requires Windowed(times, queue, Some(peak), window, max, drift) && now <= peak
    requires n <= |queue| && forall i :: 0 <= i < n ==> queue[i] <= now - window
    ensures Windowed(times, queue[n..], Some(peak), window, max, drift)
  {
    var k := |times| - |queue|;
    assert times[k..][n..] == times[k + n..];
    forall i | 0 <= i < k + n ensures times[i] + window <= peak {
      assert i >= k ==> times[i] == queue[i - k];
    }
  }

  lemma PrunedWindowed(times: seq<real>, queue: seq<real>, now: real, peak: real, window: real, max: nat, drift: real)
    requires Windowed(times, queue, Some(peak), window, max, drift) && now <= peak
    ensures Windowed(times, Pruned(queue, now - window), Some(peak), window, max, drift)
  {
    hide Pruned, Windowed;
    var kept := Pruned(queue, now - window);
    var n :| 0 <= n <= |queue| && kept == queue[n..] && forall i :: 0 <= i < n ==> queue[i] <= now - window;
    DroppedWindowed(times, queue, n, now, peak, window, max, drift);
  }

  lemma EnterWindowed(times: seq<real>, queue: seq<real>, now: real, peak: real, window: real, max: nat, drift: real)
    requires Windowed(times, queue, Some(peak), window, max, drift) && |queue| < max && now <= peak <= now + drift
    ensures Windowed(times + [now], queue + [now], Some(peak), window, max, drift)
  {
    assert (times + [now])[|times| - |queue|..] == queue + [now];
  }

  lemma NothingWindowed(window: real, max: nat, drift: real)
    ensures Windowed([], [], None, window, max, drift)
  {
  }

  lemma PruneTakes(cfg: Config, c: Camera, step: Step)
    requires step.Prune? && cfg.window.Some?
    ensures Take(cfg, c, step).camera.eventTimes == Pruned(c.eventTimes, step.at - cfg.window.value)
    ensures Take(cfg, c, step).events == []
  {
    hide Pruned;
  }

  lemma LimitedTake(cfg: Config, c: Camera, step: Step)
    requires !step.Prune? && cfg.window.Some? && cfg.maxEvents.Some?
    ensures var o := Take(cfg, c, step);
            if o.events != [] && IsEnter(o.events[0])
            then TimeOf(step).Some? && |c.eventTimes| < cfg.maxEvents.value
                && o.camera.eventTimes == c.eventTimes + [Stamp(step)]
            else o.camera.eventTimes == c.eventTimes
  {
    hide Take, Stamp;
    TakeLimited(cfg, c, step);
  }

  /**
  Any `max + 1` announcements of a camera take at least the length of the window, less what the clock may
  have gone back by, although only samples prune the queue and a confirmed hold does not.
  */
  lemma {:induction false} WindowHolds(cfg: Config, steps: seq<Step>, drift: real)
    requires cfg.window.Some? && cfg.maxEvents.Some? && drift >= 0.0 && Drifts(steps, drift)
    ensures var log := Run(cfg, steps);
            Windowed(EnterTimes(log.events, false), log.camera.eventTimes, Clock(steps), cfg.window.value,
                cfg.maxEvents.value, drift)
  {
    hide Take, EnterTimes, Stamped, Windowed, Pruned, Limited;
    var window, max := cfg.window.value, cfg.maxEvents.value;
    if steps == [] {
      NothingEntered(false);
      NothingWindowed(window, max, drift);
    } else {
      var init, step := steps[..|steps| - 1], steps[|steps| - 1];
      var log, peak := Run(cfg, init), Clock(steps);
      WindowHolds(cfg, init, drift);
      var times := EnterTimes(log.events, false);
      LaterWindowed(times, log.camera.eventTimes, Clock(init), peak, window, max, drift);
      EntersOfStep(cfg, log, step, false);
      if step.Prune? {
        PruneTakes(cfg, log.camera, step);
        PrunedWindowed(times, log.camera.eventTimes, step.at, peak.value, window, max, drift);
      } else {
        LimitedTake(cfg, log.camera, step);
        if |log.camera.eventTimes| < max && TimeOf(step).Some? {
          EnterWindowed(times, log.camera.eventTimes, Stamp(step), peak.value, window, max, drift);
        }
      }
    }
  }

  /** Put directly: announcement number `i + max` comes that long after announcement number `i`. */
  lemma WindowHoldsAt(cfg: Config, steps: seq<Step>, drift: real, i: nat)
    requires cfg.window.Some? && cfg.maxEvents.Some? && drift >= 0.0 && Drifts(steps, drift)
    requires i + cfg.maxEvents.value < |EnterTimes(Run(cfg, steps).events, false)|
    ensures var times := EnterTimes(Run(cfg, steps).events, false);
            times[i] + cfg.window.value - drift <= times[i + cfg.maxEvents.value]
  {
    hide Run, EnterTimes;
    WindowHolds(cfg, steps, drift);
  }
}
