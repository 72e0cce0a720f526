/**
What a step of one camera comes to, told from the sample and the state alone: which events are announced,
what they carry, and what is kept.
*/
module CameraAnswers {
  import opened Options
  import opened Ordering
  import opened Reals
  import opened CameraPolicy
  import opened CameraStream

  // ---- The event gates ----

  /** An enter gets as far as the zones: the track has no open event, no parcel cools down, and there is room. */
  predicate ReachesZones(cfg: Config, c: Camera, kind: Kind, track: Track, s: Sample) {
    && track !in c.active
    && (kind == Package ==>
          && (c.lastPackageAt.None? || s.now - c.lastPackageAt.value >= 1800.0)
          && !(cfg.cooled && s.cooling))
    && (cfg.maxEvents.None? || (cfg.window.Some? && |c.eventTimes| < cfg.maxEvents.value)
        || (cfg.window.None? && c.eventCount < cfg.maxEvents.value))
  }

  /** What an announced enter leaves behind. */
  predicate Records(cfg: Config, c: Camera, c': Camera, change: Change, zones: Zones, now: real) {
    && c'.active == c.active[change.track := Candidate(change, zones)]
    && c'.lastMoving == c.lastMoving[change.track := now]
    && c'.eventCount == c.eventCount + 1
    && c'.eventTimes == (if cfg.window.Some? then c.eventTimes + [now] else c.eventTimes)
    && c'.lastPackageAt == (if change.kind == Package then Some(now) else c.lastPackageAt)
    && c' == c.(active := c'.active, lastMoving := c'.lastMoving, eventCount := c'.eventCount,
                eventTimes := c'.eventTimes, lastPackageAt := c'.lastPackageAt)
  }

  /** An enter of `change`, on camera `c`: announced with exactly the zones answered, refused, or lost to the budget. */
  predicate Enters(cfg: Config, c: Camera, change: Change, s: Sample, o: Outcome) {
    if !ReachesZones(cfg, c, change.kind, change.track, s) || s.zones.None? then
      o.camera == c && o.events == [] && !o.raised
    else if !cfg.budgeted || s.claim == Granted then
      && o.events == [Candidate(change, s.zones.value)] && !o.raised
      && Records(cfg, c, o.camera, change, s.zones.value, s.now)
    else
      o.camera == c && o.events == [] && (o.raised <==> s.claim == Fails)
  }

  predicate Moves(c: Camera, s: Sample, o: Outcome) {
    var track := s.change.track;
    && !o.raised
    && if && track in c.active && c.active[track].change.kind == s.change.kind
          && track in c.lastMoving && s.now - c.lastMoving[track] >= 1.0 && s.zones == Some(c.active[track].zones)
       then && o.events == [Candidate(s.change, s.zones.value)]
            && o.camera == c.(active := c.active[track := Candidate(s.change, s.zones.value)],
                              lastMoving := c.lastMoving[track := s.now])
       else o.camera == c && o.events == []
  }

  predicate Goes(c: Camera, s: Sample, o: Outcome) {
    var track := s.change.track;
    && !o.raised
    && if track in c.active && c.active[track].change.kind == s.change.kind
       then && o.events == [Candidate(s.change, c.active[track].zones)]
            && o.camera == c.(active := c.active - {track}, lastMoving := c.lastMoving - {track})
       else o.camera == c && o.events == []
  }

  predicate Gated(cfg: Config, c: Camera, s: Sample, o: Outcome) {
    match s.change.edge
    case Enter => Enters(cfg, c, s.change, s, o)
    case Moving => Moves(c, s, o)
    case Leave => Goes(c, s, o)
  }

  lemma EntersMeans(cfg: Config, c: Camera, s: Sample)
    requires s.change.edge == Enter
    ensures Enters(cfg, c, s.change, s, Announce(cfg, c, s))
  {
  }

  lemma MovesMeans(cfg: Config, c: Camera, s: Sample)
    requires s.change.edge == Moving
    ensures Moves(c, s, Announce(cfg, c, s))
  {
    hide Admit, Cools, HasRoom;
  }

  lemma GoesMeans(cfg: Config, c: Camera, s: Sample)
    requires s.change.edge == Leave
    ensures Goes(c, s, Announce(cfg, c, s))
  {
    hide Admit, Cools, HasRoom;
  }

  lemma GatedMeans(cfg: Config, c: Camera, s: Sample)
    ensures Gated(cfg, c, s, Announce(cfg, c, s)) && Announce(cfg, c, s).tally == NONE
  {
    hide Announce, Enters, Moves, Goes;
    match s.change.edge {
      case Enter => EntersMeans(cfg, c, s);
      case Moving => MovesMeans(cfg, c, s);
      case Leave => GoesMeans(cfg, c, s);
    }
  }

  lemma CountsDoNotMatter(cfg: Config, c: Camera, s: Sample, change: Change)
    ensures forall o: Outcome, tally :: Gated(cfg, c, s, o) ==> Gated(cfg, c, s, o.(tally := tally))
    ensures forall o: Outcome, tally :: Enters(cfg, c, change, s, o) ==> Enters(cfg, c, change, s, o.(tally := tally))
  {
  }

  // ---- One sample ----

  /** The camera without what it holds back of one track. */
  predicate LetsGo(c: Camera, c': Camera, track: Track) {
    c' == c.(held := c.held - {track}, vetoed := c.vetoed - {track}, watched := c.watched - {track})
  }

  /** A sample of a track that is held back and not announced. */
  predicate Holds(cfg: Config, c: Camera, s: Sample, o: Outcome)
    requires s.change.track in c.held
  {
    var track, hold := s.change.track, c.held[s.change.track];
    var free := c.(held := c.held - {track}, vetoed := c.vetoed - {track}, watched := c.watched - {track});
    var moved := Iou(hold.box, s.change.box) < 0.5;
    if s.change.edge == Leave then
      o.camera == free && o.events == [] && !o.raised && o.tally == Tally(0, 0, 0, 1)
    else if s.change.kind == Animal then
      Gated(cfg, free, s, o) && o.tally == Tally(0, 0, 1, 0)
    else if s.infrared && (track in c.vetoed || track in c.watched || moved || s.now - hold.since < 20.0) then
      && o.camera == (if moved then c.(held := c.held[track := Hold(s.now, s.change.box)]) else c)
      && o.events == [] && !o.raised && o.tally == NONE
    else
      Enters(cfg, free, s.change.(edge := Enter), s, o) && o.tally == Tally(0, 1, 0, 0)
  }

  /** What a sample comes to under a policy. */
  predicate Sees(cfg: Config, c: Camera, policy: Policy, s: Sample, o: Outcome) {
    var track := s.change.track;
    if s.change.kind !in policy.enabled then
      o.camera == c && o.events == [] && !o.raised && o.tally == NONE
    else if track in c.held && track !in c.active then
      Holds(cfg, c, s, o)
    else if s.change.kind == Package && s.change.edge == Enter && track !in c.active && s.infrared then
      && o.camera == c.(held := c.held[track := Hold(s.now, s.change.box)])
      && o.events == [] && !o.raised && o.tally == Tally(1, 0, 0, 0)
    else
      Gated(cfg, c, s, o) && o.tally == NONE
  }

  /** Of the sample itself the gates of an enter look at the time and the answers alone. */
  lemma EntersIgnoresEdge(cfg: Config, c: Camera, s: Sample)
    ensures var enter := s.change.(edge := Edge.Enter);
            forall o :: Enters(cfg, c, enter, s.(change := enter), o) <==> Enters(cfg, c, enter, s, o)
  {
  }

  lemma HoldsMeans(cfg: Config, c: Camera, s: Sample)
    requires s.change.track in c.held
    ensures Holds(cfg, c, s, ApplyHeld(cfg, c, s))
  {
    hide Announce, Iou, Gated, Enters;
    var free := Released(c, s.change.track);
    GatedMeans(cfg, free, s);
    EntersMeans(cfg, free, s.(change := s.change.(edge := Enter)));
    EntersIgnoresEdge(cfg, free, s);
    CountsDoNotMatter(cfg, free, s, s.change.(edge := Enter));
  }

  lemma SeesMeans(cfg: Config, c: Camera, s: Sample)
    requires c.policy.Some?
    ensures Sees(cfg, c, c.policy.value, s, Take(cfg, c, See(s)))
  {
    hide Announce, Iou, Gated, Holds, ApplyHeld;
    GatedMeans(cfg, c, s);
    if s.change.track in c.held {
      HoldsMeans(cfg, c, s);
    }
  }

  // ---- The other steps ----

  /** A confirmation announces a held package as its own enter, if the policy, the tracker and the veto let it. */
  predicate Confirming(cfg: Config, c: Camera, track: Track, current: Option<Change>, answer: Sample, o: Outcome) {
    if && c.policy.Some? && track in c.held && current.Some? && current.value.kind == Package && track !in c.vetoed
    then
      && Enters(cfg, c.(held := c.held - {track}, vetoed := c.vetoed - {track}, watched := c.watched - {track}),
                current.value.(edge := Enter, track := track), answer, o)
      && o.tally == Tally(0, 1, 0, 0)
    else
      o.camera == c && o.events == [] && !o.raised && o.tally == NONE
  }

  lemma AnswersDecide(cfg: Config, c: Camera, change: Change, s: Sample, answer: Sample)
    requires s.now == answer.now && s.zones == answer.zones && s.cooling == answer.cooling && s.claim == answer.claim
    ensures forall o :: Enters(cfg, c, change, s, o) <==> Enters(cfg, c, change, answer, o)
  {
  }

  lemma HeldIsIdle(c: Camera, track: Track)
    requires Shaped(c) && track in c.held
    ensures track !in c.active
  {
    assert track in c.held.Keys;
  }

  lemma ConfirmingMeans(cfg: Config, c: Camera, track: Track, current: Option<Change>, answer: Sample)
    requires Shaped(c)
    ensures Confirming(cfg, c, track, current, answer, Take(cfg, c, Confirm(track, current, answer)))
  {
    if Confirms(c, track, current) {
      var hold := c.held[track];
      var c' := c.(held := c.held[track := hold.(since := Min(hold.since, answer.now - DWELL))],
          watched := c.watched - {track});
      var s := answer.(change := current.value.(edge := Moving, track := track), infrared := false);
      HeldIsIdle(c, track);
      hide Shaped;
      SeesMeans(cfg, c', s);
      assert c'.held - {track} == c.held - {track} && c'.watched - {track} == c.watched - {track};
      AnswersDecide(cfg, c.(held := c.held - {track}, vetoed := c.vetoed - {track}, watched := c.watched - {track}),
                    current.value.(edge := Enter, track := track), s, answer);
      hide Enters, Apply, Iou;
    }
  }

  /** Steps that decide on no event, and what they leave. */
  lemma QuietMeans(cfg: Config, c: Camera, track: Track, now: real)
    ensures forall step :: step in {Watch(track), Unwatch(track), Veto(track), Prune(now)} ==>
              var o := Take(cfg, c, step); o.events == [] && !o.raised && o.tally == NONE
    ensures Take(cfg, c, Watch(track)).camera ==
              if track in c.held then c.(watched := c.watched + {track}) else c
    ensures Take(cfg, c, Unwatch(track)).camera == c.(watched := c.watched - {track})
    ensures Take(cfg, c, Veto(track)).camera.watched == c.watched - {track}
    ensures Take(cfg, c, Veto(track)).camera ==
              c.(watched := c.watched - {track}, vetoed := c.vetoed + if track in c.held then {track} else {})
  {
    hide Pruned;
  }

  /** Without a policy nothing is announced. */
  lemma BlindMeans(cfg: Config, c: Camera, s: Sample)
    requires c.policy.None?
    ensures Take(cfg, c, See(s)) == Outcome(c, [], NONE, false)
  {
  }

  lemma {:induction false} LeavesAt(active: map<Track, Candidate>, tracks: seq<Track>)
    requires forall track <- tracks :: track in active
    ensures |Leaves(active, tracks)| == |tracks|
    ensures forall i :: 0 <= i < |tracks| ==>
              Leaves(active, tracks)[i]
              == active[tracks[i]].(change := active[tracks[i]].change.(edge := Leave))
  {
    if tracks != [] {
      var init := tracks[..|tracks| - 1];
      assert tracks == init + [tracks[|tracks| - 1]];
      LeavesAt(active, init);
    }
  }

  /** A policy that is not the same again closes the open events, in the order of their track numbers, and forgets
      what was held back. */
  lemma ReplaceMeans(cfg: Config, c: Camera, policy: Option<Policy>) returns (tracks: seq<Track>)
    ensures Ascending(tracks) && forall t :: t in tracks <==> t in c.active
    ensures var o := Take(cfg, c, Replace(policy));
            && !o.raised && o.tally == NONE
            && if policy.Some? && policy == c.policy then o.camera == c && o.events == []
               else && o.camera == c.(policy := policy, active := map[], lastMoving := map[], held := map[],
                                      vetoed := {},
                                      watched := {}, generation := c.generation + 1)
                    && |o.events| == |tracks|
                    && forall i :: 0 <= i < |tracks| ==>
                         o.events[i] == c.active[tracks[i]].(change := c.active[tracks[i]].change.(edge := Leave))
  {
    hide Sorted, Leaves;
    tracks := Sorted(c.active.Keys);
    LeavesAt(c.active, tracks);
  }

  // ---- Where events come from ----

  /** An event of the sample seen: its change, with the zones answered for it, or those the open event has. */
  predicate Shows(cfg: Config, c: Camera, s: Sample, candidate: Candidate) {
    var track := s.change.track;
    && c.policy.Some? && s.change.kind in c.policy.value.enabled
    && match candidate.change.edge
       case Enter =>
         && candidate.change == s.change.(edge := Enter) && s.zones == Some(candidate.zones)
         && (cfg.budgeted ==> s.claim == Granted) && track !in c.active
         && (s.change.edge == Enter || track in c.held)
       case Moving =>
         && candidate.change == s.change && s.zones == Some(candidate.zones)
         && track in c.active && c.active[track].zones == candidate.zones
       case Leave =>
         candidate.change == s.change && track in c.active && c.active[track].zones == candidate.zones
  }

  /** The step that decided on an event, on the camera it found. */
  predicate Carries(cfg: Config, c: Camera, step: Step, e: Event) {
    match step
    case See(s) => e.at == s.now && Shows(cfg, c, s, e.candidate)
    case Confirm(track, current, answer) =>
      && e.at == answer.now && c.policy.Some? && track in c.held && track !in c.vetoed
      && current.Some? && current.value.kind == Package
      && answer.zones.Some? && (cfg.budgeted ==> answer.claim == Granted)
      && e.candidate == Candidate(current.value.(edge := Enter, track := track), answer.zones.value)
    case Replace(policy) =>
      var track := e.candidate.change.track;
      && !(policy.Some? && policy == c.policy) && track in c.active
      && e.candidate == c.active[track].(change := c.active[track].change.(edge := Leave))
    case _ => false
  }

  lemma SampleShows(cfg: Config, c: Camera, s: Sample)
    requires c.policy.Some?
    ensures forall candidate <- Take(cfg, c, See(s)).events :: Shows(cfg, c, s, candidate)
  {
    SeesMeans(cfg, c, s);
    hide Take, Iou, ReachesZones, Records;
  }

  lemma SeeCarries(cfg: Config, c: Camera, s: Sample)
    ensures forall candidate <- Take(cfg, c, See(s)).events :: Carries(cfg, c, See(s), Event(candidate, s.now))
  {
    if c.policy.Some? {
      SampleShows(cfg, c, s);
    } else {
      BlindMeans(cfg, c, s);
    }
    hide Take, Shows;
  }

  lemma EntersShows(cfg: Config, c: Camera, change: Change, s: Sample, o: Outcome)
    requires Enters(cfg, c, change, s, o)
    ensures forall candidate <- o.events ::
              && s.zones == Some(candidate.zones) && candidate.change == change
              && (cfg.budgeted ==> s.claim == Granted)
  {
    hide ReachesZones, Records;
  }

  lemma ConfirmCarries(cfg: Config, c: Camera, track: Track, current: Option<Change>, answer: Sample)
    requires Shaped(c)
    ensures forall candidate <- Take(cfg, c, Confirm(track, current, answer)).events ::
              Carries(cfg, c, Confirm(track, current, answer), Event(candidate, answer.now))
  {
    hide Take, Enters, Shaped;
    ConfirmingMeans(cfg, c, track, current, answer);
    var o := Take(cfg, c, Confirm(track, current, answer));
    if o.events != [] {
      EntersShows(cfg, c.(held := c.held - {track}, vetoed := c.vetoed - {track}, watched := c.watched - {track}),
                  current.value.(edge := Enter, track := track), answer, o);
    }
  }

  lemma ReplaceCarries(cfg: Config, c: Camera, policy: Option<Policy>)
    requires Shaped(c)
    ensures forall candidate <- Take(cfg, c, Replace(policy)).events, at ::
              Carries(cfg, c, Replace(policy), Event(candidate, at))
  {
    var tracks := ReplaceMeans(cfg, c, policy);
    hide Take, Ascending;
    forall candidate, at | candidate in Take(cfg, c, Replace(policy)).events
      ensures Carries(cfg, c, Replace(policy), Event(candidate, at))
    {
      var i :| 0 <= i < |tracks| && Take(cfg, c, Replace(policy)).events[i] == candidate;
      assert tracks[i] in c.active;
    }
  }

  lemma StepCarries(cfg: Config, c: Camera, step: Step)
    requires Shaped(c)
    ensures forall candidate <- Take(cfg, c, step).events :: Carries(cfg, c, step, Event(candidate, Stamp(step)))
  {
    hide Take, Carries, Shaped;
    match step {
      case See(s) => SeeCarries(cfg, c, s);
      case Confirm(track, current, answer) => ConfirmCarries(cfg, c, track, current, answer);
      case Replace(policy) => ReplaceCarries(cfg, c, policy);
      case Prune(now) => QuietMeans(cfg, c, 0, now);
      case Watch(track) => QuietMeans(cfg, c, track, 0.0);
      case Unwatch(track) => QuietMeans(cfg, c, track, 0.0);
      case Veto(track) => QuietMeans(cfg, c, track, 0.0);
    }
  }

  lemma {:induction false} StampedAt(candidates: seq<Candidate>, at: real)
    ensures forall i :: 0 <= i < |candidates| ==> Stamped(candidates, at)[i] == Event(candidates[i], at)
  {
    if candidates != [] {
      StampedAt(candidates[..|candidates| - 1], at);
    }
  }

  lemma NextEvents(cfg: Config, log: Log, step: Step)
    ensures Next(cfg, log, step).events == log.events + Stamped(Take(cfg, log.camera, step).events, Stamp(step))
  {
  }

  lemma NoEvents(cfg: Config)
    ensures Run(cfg, []).events == []
  {
  }

  lemma SoundIsShaped(log: Log)
    requires CameraStream.Sound(log)
    ensures Shaped(log.camera)
  {
  }

  /** Every event of every run was decided on by a step of it, and carries what that step was given. */
  lemma {:induction false} EventsHaveOrigin(cfg: Config, steps: seq<Step>, i: nat) returns (k: nat)
    requires i < |Run(cfg, steps).events|
    ensures k < |steps| && Carries(cfg, Run(cfg, steps[..k]).camera, steps[k], Run(cfg, steps).events[i])
  {
    hide Take, Stamped, Carries, Stamp, Next;
    if steps == [] {
      NoEvents(cfg);
      assert false;
    } else {
      var init, step := steps[..|steps| - 1], steps[|steps| - 1];
      var log := Run(cfg, init);
      NextEvents(cfg, log, step);
      if i < |log.events| {
        k := EventsHaveOrigin(cfg, init, i);
        assert init[..k] == steps[..k];
      } else {
        k := |steps| - 1;
        EveryRunIsSound(cfg, init);
        SoundIsShaped(log);
        StepCarries(cfg, log.camera, step);
        var candidates := Take(cfg, log.camera, step).events;
        StampedAt(candidates, Stamp(step));
        assert candidates[i - |log.events|] in candidates;
      }
    }
  }

  // ---- Overlap and pruning ----

  lemma SharedIs(a: Box, b: Box)
    requires Overlap(a, b)
    ensures Intersection(a, b)
         == (Min(a.right, b.right) - Max(a.left, b.left)) * (Min(a.bottom, b.bottom) - Max(a.top, b.top))
  {
  }

  lemma AreaIs(a: Box)
    ensures Area(a) == (a.right - a.left) * (a.bottom - a.top)
  {
  }

  lemma RatioIs(a: Box, b: Box)
    ensures Iou(a, b) * (Area(a) + Area(b) - Intersection(a, b)) == Intersection(a, b)
  {
    IntersectionWithinAreas(a, b);
    hide Intersection, Area;
    var i, u := Intersection(a, b), Area(a) + Area(b) - Intersection(a, b);
    assert u > 0.0 && Iou(a, b) == i / u;
  }

  /** The ratio of the rectangle that two boxes share to what at least one of them covers. */
  lemma IouMeans(a: Box, b: Box)
    ensures Iou(a, b) * (Area(a) + Area(b) - Intersection(a, b)) == Intersection(a, b)
    ensures Area(a) == (a.right - a.left) * (a.bottom - a.top)
    ensures !Overlap(a, b) ==> Intersection(a, b) == 0.0
    ensures Overlap(a, b) ==>
              Intersection(a, b)
              == (Min(a.right, b.right) - Max(a.left, b.left)) * (Min(a.bottom, b.bottom) - Max(a.top, b.top))
    ensures Overlap(a, b) <==> a.left < b.right && b.left < a.right && a.top < b.bottom && b.top < a.bottom
  {
    IntersectionIffOverlap(a, b);
    RatioIs(a, b);
    AreaIs(a);
    if Overlap(a, b) {
      SharedIs(a, b);
    }
    hide Intersection, Iou, Area;
  }

  /** Pruning stops at the first time that is still in the window. */
  lemma {:induction false} PrunedMeans(times: seq<real>, cutoff: real) returns (n: nat)
    ensures n <= |times| && Pruned(times, cutoff) == times[n..]
    ensures (forall i :: 0 <= i < n ==> times[i] <= cutoff) && (n < |times| ==> times[n] > cutoff)
    decreases |times|
  {
    if times != [] && times[0] <= cutoff {
      var k := PrunedMeans(times[1..], cutoff);
      n := k + 1;
      assert times[1..][k..] == times[n..];
      assert forall i :: 1 <= i < n ==> times[i] == times[1..][i - 1];
    } else {
      n := 0;
    }
  }

  /** What a frame does to the queue of announcements before its samples are looked at. */
  lemma PruneMeans(cfg: Config, c: Camera, now: real) returns (n: nat)
    ensures cfg.window.None? ==> n == 0
    ensures n <= |c.eventTimes|
    ensures Take(cfg, c, Prune(now)) == Outcome(c.(eventTimes := c.eventTimes[n..]), [], NONE, false)
    ensures cfg.window.Some? ==>
              && (forall i :: 0 <= i < n ==> now - c.eventTimes[i] >= cfg.window.value)
              && (n < |c.eventTimes| ==> now - c.eventTimes[n] < cfg.window.value)
  {
    hide Pruned;
    n := 0;
    if cfg.window.Some? {
      n := PrunedMeans(c.eventTimes, now - cfg.window.value);
    }
  }
}
