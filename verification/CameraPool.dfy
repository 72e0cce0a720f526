/** The calls of the engine: a pool of cameras that do not affect each other, and the events a caller gets to see. */
module CameraPool {
  import opened Options
  import opened Ordering
  import opened Sequences
  import opened CameraPolicy
  import opened CameraStream
  import opened CameraLimits

  type CameraId = string

  /** A frame whose arguments are refused, one that the tracker rejects, or the changes the tracker reports for it. */
  datatype Frame = Malformed | Rejected | Changes(samples: seq<Sample>)

  /** The calls that concern one held track. */
  type Request = s: Step | s.Watch? || s.Unwatch? || s.Veto? || s.Confirm? witness Watch(0)

  datatype Call =
    | ReplacePolicy(policy: Option<Policy>)
    | Observe(now: real, frame: Frame)
    | Ask(request: Request)

  /** What the constructor accepts. */
  predicate ValidConfig(cfg: Config) {
    && (cfg.maxEvents.Some? ==> 1 <= cfg.maxEvents.value <= 3600)
    && (cfg.maxEvents.None? ==> !cfg.budgeted)
    && (cfg.window.Some? ==> 60.0 <= cfg.window.value <= 86400.0)
  }

  function Sightings(samples: seq<Sample>): (steps: seq<Step>)
    ensures |steps| == |samples| && forall i :: 0 <= i < |steps| ==> steps[i] == See(samples[i])
  {
    if samples == [] then [] else Sightings(samples[..|samples| - 1]) + [See(samples[|samples| - 1])]
  }

  predicate Installable(policy: Option<Policy>) {
    policy.Some? ==> policy.value.enabled != {}
  }

  /** The steps of a call, unless one of them raises. Without a policy a well-formed frame is not looked at. */
  function StepsOf(c: Camera, call: Call): seq<Step> {
    match call
    case ReplacePolicy(policy) => if Installable(policy) then [Replace(policy)] else []
    case Observe(now, frame) =>
      if frame.Changes? && c.policy.Some? then [Prune(now)] + Sightings(frame.samples) else []
    case Ask(request) => [request]
  }

  datatype Progress = Progress(log: Log, taken: seq<Step>, raised: bool)

  /** The steps one after the other, until one raises. */
  function Through(cfg: Config, log: Log, steps: seq<Step>): Progress {
    if steps == [] then Progress(log, [], false)
    else
      var before := Through(cfg, log, steps[..|steps| - 1]);
      var step := steps[|steps| - 1];
      if before.raised then before
      else Progress(Next(cfg, before.log, step), before.taken + [step], Take(cfg, before.log.camera, step).raised)
  }

  /** A camera with all steps taken so far, and the events its caller was given. */
  datatype Solo = Solo(log: Log, taken: seq<Step>, returned: seq<Event>)

  /** A call that raises returns nothing, whatever it had decided before. */
  function After(cfg: Config, solo: Solo, call: Call): Solo {
    var p := Through(cfg, solo.log, StepsOf(solo.log.camera, call));
    Solo(p.log, solo.taken + p.taken,
         solo.returned + if p.raised || |p.log.events| < |solo.log.events| then []
             else p.log.events[|solo.log.events|..])
  }

  function Alone(cfg: Config, calls: seq<Call>): Solo {
    if calls == [] then Solo(START, [], []) else After(cfg, Alone(cfg, calls[..|calls| - 1]), calls[|calls| - 1])
  }

  lemma AloneMore(cfg: Config, calls: seq<Call>, call: Call)
    ensures Alone(cfg, calls + [call]) == After(cfg, Alone(cfg, calls), call)
  {
    hide After;
    assert (calls + [call])[..|calls|] == calls;
  }

  // ---- A camera's calls are a run ----

  lemma NextAppends(cfg: Config, log: Log, step: Step)
    ensures log.events <= Next(cfg, log, step).events
  {
  }

  lemma {:induction false} ThroughIsRun(cfg: Config, prior: seq<Step>, steps: seq<Step>)
    ensures var p := Through(cfg, Run(cfg, prior), steps);
            && p.log == Run(cfg, prior + p.taken)
            && Run(cfg, prior).events <= p.log.events
  {
    hide Next, Take;
    if steps == [] {
      assert prior + [] == prior;
    } else {
      var init, step := steps[..|steps| - 1], steps[|steps| - 1];
      ThroughIsRun(cfg, prior, init);
      var before := Through(cfg, Run(cfg, prior), init);
      if !before.raised {
        assert (prior + (before.taken + [step]))[..|prior + before.taken|] == prior + before.taken;
        NextAppends(cfg, before.log, step);
      }
    }
  }

  /** A call's steps by place: none if it is refused or needs a policy that is not there. */
  lemma ObservingSteps(c: Camera, now: real, frame: Frame)
    ensures var steps := StepsOf(c, Observe(now, frame));
            if c.policy.None? || !frame.Changes? then steps == []
            else && |steps| == |frame.samples| + 1 && steps[0] == Prune(now)
                 && forall i :: 0 <= i < |frame.samples| ==> steps[i + 1] == See(frame.samples[i])
  {
    if frame.Changes? {
      var sights := Sightings(frame.samples);
      hide Sightings;
    }
  }

  lemma OtherSteps(c: Camera, policy: Option<Policy>, request: Request)
    ensures StepsOf(c, Ask(request)) == [request]
    ensures StepsOf(c, ReplacePolicy(policy))
         == if policy.Some? && policy.value.enabled == {} then [] else [Replace(policy)]
  {
  }

  /** Every step is taken unless one before it raised, and the first that raises is the last that is taken. */
  lemma {:induction false} ThroughMeans(cfg: Config, prior: seq<Step>, steps: seq<Step>)
    ensures var p := Through(cfg, Run(cfg, prior), steps);
            && p.taken <= steps && (!p.raised ==> p.taken == steps) && (p.raised ==> p.taken != [])
            && p.log == Run(cfg, prior + p.taken)
            && forall k :: 0 <= k < |p.taken| ==>
                 (Take(cfg, Run(cfg, prior + steps[..k]).camera, steps[k]).raised
                  <==> p.raised && k == |p.taken| - 1)
  {
    hide Next, Take, Run;
    ThroughIsRun(cfg, prior, steps);
    if steps != [] {
      var init, step := steps[..|steps| - 1], steps[|steps| - 1];
      ThroughMeans(cfg, prior, init);
      var before, p := Through(cfg, Run(cfg, prior), init), Through(cfg, Run(cfg, prior), steps);
      forall k | 0 <= k < |p.taken|
        ensures Take(cfg, Run(cfg, prior + steps[..k]).camera, steps[k]).raised <==> p.raised && k == |p.taken| - 1
      {
        if k < |init| {
          assert init[..k] == steps[..k];
        }
      }
    }
  }

  lemma StartIsRun(cfg: Config)
    ensures Run(cfg, []) == START
  {
  }

  /** So every theorem about runs holds of the events decided in any sequence of calls. */
  lemma {:induction false} AloneIsRun(cfg: Config, calls: seq<Call>)
    ensures Alone(cfg, calls).log == Run(cfg, Alone(cfg, calls).taken)
  {
    hide Through, StepsOf, Run;
    if calls == [] {
      StartIsRun(cfg);
    } else {
      var solo := Alone(cfg, calls[..|calls| - 1]);
      AloneIsRun(cfg, calls[..|calls| - 1]);
      ThroughIsRun(cfg, solo.taken, StepsOf(solo.log.camera, calls[|calls| - 1]));
    }
  }

  /** A call returns what its steps decide on, or nothing if one of them raises; what is returned stays. */
  lemma ReturnedMeans(cfg: Config, calls: seq<Call>, call: Call)
    ensures var solo, solo' := Alone(cfg, calls), Alone(cfg, calls + [call]);
            var steps := StepsOf(solo.log.camera, call);
            var taken := solo'.taken[|solo.taken|..];
            && solo.taken <= solo'.taken && taken <= steps && solo'.log == Run(cfg, solo.taken + taken)
            && (taken != steps ==>
                  && taken != []
                  && Take(cfg, Run(cfg, solo.taken + taken[..|taken| - 1]).camera, taken[|taken| - 1]).raised)
            && solo.log.events <= solo'.log.events
            && solo'.returned == solo.returned
                 + if exists k :: 0 <= k < |taken|
                       && Take(cfg, Run(cfg, solo.taken + steps[..k]).camera, steps[k]).raised
                   then [] else solo'.log.events[|solo.log.events|..]
  {
    hide Next, Take, Run, Through, StepsOf, Alone;
    AloneMore(cfg, calls, call);
    AloneIsRun(cfg, calls);
    var solo := Alone(cfg, calls);
    var steps := StepsOf(solo.log.camera, call);
    ThroughMeans(cfg, solo.taken, steps);
    ThroughIsRun(cfg, solo.taken, steps);
    var p := Through(cfg, solo.log, steps);
    assert (solo.taken + p.taken)[|solo.taken|..] == p.taken;
    if p.raised {
      var k := |p.taken| - 1;
      assert Take(cfg, Run(cfg, solo.taken + steps[..k]).camera, steps[k]).raised;
      assert p.taken[..k] == steps[..k];
    }
  }

  // ---- Many cameras ----

  function CallsOf(calls: seq<(CameraId, Call)>, id: CameraId): seq<Call> {
    if calls == [] then []
    else CallsOf(calls[..|calls| - 1], id) + if calls[|calls| - 1].0 == id then [calls[|calls| - 1].1] else []
  }

  /** What a camera would be if nothing else were ever called. */
  function Own(cfg: Config, calls: seq<(CameraId, Call)>, id: CameraId): Solo {
    Alone(cfg, CallsOf(calls, id))
  }

  lemma OwnMore(cfg: Config, calls: seq<(CameraId, Call)>, id: CameraId, call: Call)
    ensures Own(cfg, calls + [(id, call)], id) == After(cfg, Own(cfg, calls, id), call)
    ensures forall other :: other != id ==> Own(cfg, calls + [(id, call)], other) == Own(cfg, calls, other)
  {
    hide After, Alone;
    assert (calls + [(id, call)])[..|calls|] == calls;
    AloneMore(cfg, CallsOf(calls, id), call);
    forall other | other != id ensures Own(cfg, calls + [(id, call)], other) == Own(cfg, calls, other) {
      assert CallsOf(calls + [(id, call)], other) == CallsOf(calls, other);
    }
  }

  /** Each count summed over these cameras. */
  function Total(cfg: Config, calls: seq<(CameraId, Call)>, order: seq<CameraId>): Tally {
    if order == [] then NONE
    else Total(cfg, calls, order[..|order| - 1]).Plus(Own(cfg, calls, order[|order| - 1]).log.tally)
  }

  /** The packages still held on these cameras, and the holds that new policies forgot. */
  function SumHeld(cfg: Config, calls: seq<(CameraId, Call)>, order: seq<CameraId>): nat {
    if order == [] then 0
    else
      var log := Own(cfg, calls, order[|order| - 1]).log;
      SumHeld(cfg, calls, order[..|order| - 1]) + |log.camera.held| + log.cleared
  }

  /** What the steps of a call do depends on the camera alone: not on earlier events, nor on the counts. */
  lemma {:induction false} ThroughIsLocal(cfg: Config, log: Log, other: Log, steps: seq<Step>)
    requires log.camera == other.camera
    ensures var p, q := Through(cfg, log, steps), Through(cfg, other, steps);
            && p.log.camera == q.log.camera && p.raised == q.raised && p.taken == q.taken
            && log.events <= p.log.events && other.events <= q.log.events
            && p.log.events[|log.events|..] == q.log.events[|other.events|..]
            && p.log.tally.Plus(other.tally) == q.log.tally.Plus(log.tally)
  {
    hide Take, Stamped;
    if steps != [] {
      ThroughIsLocal(cfg, log, other, steps[..|steps| - 1]);
    }
  }

  /** A call adds to the sums what it adds to the counts of its own camera. */
  lemma {:induction false} TotalMore(cfg: Config, calls: seq<(CameraId, Call)>, order: seq<CameraId>, id: CameraId,
      call: Call)
    requires Distinct(order)
    ensures var more := calls + [(id, call)];
            if id in order
            then Total(cfg, more, order).Plus(Own(cfg, calls, id).log.tally)
              == Total(cfg, calls, order).Plus(Own(cfg, more, id).log.tally)
            else Total(cfg, more, order) == Total(cfg, calls, order)
  {
    hide Own;
    if order != [] {
      TotalMore(cfg, calls, order[..|order| - 1], id, call);
      OwnMore(cfg, calls, id, call);
      var last := order[|order| - 1];
      assert id in order <==> id in order[..|order| - 1] || id == last;
      assert last !in order[..|order| - 1];
    }
  }

  lemma UncalledIsNew(cfg: Config, id: CameraId)
    ensures Own(cfg, [], id) == Solo(START, [], [])
  {
    assert CallsOf([], id) == [];
  }

  lemma {:induction false} NothingCounted(cfg: Config, order: seq<CameraId>)
    ensures Total(cfg, [], order) == NONE
  {
    hide Own;
    if order != [] {
      NothingCounted(cfg, order[..|order| - 1]);
      UncalledIsNew(cfg, order[|order| - 1]);
    }
  }

  lemma SoundOwes(log: Log)
    requires Sound(log)
    ensures log.tally.held == log.tally.confirmed + log.tally.asAnimal + log.tally.dropped
                + |log.camera.held| + log.cleared
  {
    hide Shaped, PhaseOf, PhaseIn, Balance;
  }

  /** Over all cameras: every night package held was confirmed, turned animal, dropped, is still held or was
      forgotten. */
  lemma {:induction false} HoldsAreAccountedFor(cfg: Config, calls: seq<(CameraId, Call)>, order: seq<CameraId>)
    ensures var t := Total(cfg, calls, order);
            t.held == t.confirmed + t.asAnimal + t.dropped + SumHeld(cfg, calls, order)
  {
    hide Alone, Run, Sound;
    if order != [] {
      var own := CallsOf(calls, order[|order| - 1]);
      HoldsAreAccountedFor(cfg, calls, order[..|order| - 1]);
      AloneIsRun(cfg, own);
      EveryRunIsSound(cfg, Alone(cfg, own).taken);
      SoundOwes(Alone(cfg, own).log);
    }
  }

  // ---- What the caller sees ----

  /** No call can raise after it has decided on an event. */
  predicate Lossless(cfg: Config) {
    !cfg.budgeted || (cfg.window.None? && cfg.maxEvents == Some(1))
  }

  lemma RaiseNeedsRoom(cfg: Config, c: Camera, step: Step)
    requires Take(cfg, c, step).raised
    ensures cfg.budgeted && HasRoom(cfg, c) && Take(cfg, c, step).events == []
  {
    hide Iou, Cools, Sorted, Leaves, Pruned;
  }

  lemma {:induction false} BrokenStaysBroken(events: seq<Event>, n: nat, track: Track)
    requires n <= |events| && PhaseOf(events[..n], track) == Broken
    ensures PhaseOf(events, track) == Broken
  {
    if n == |events| {
      assert events[..n] == events;
    } else {
      var init := events[..|events| - 1];
      assert init[..n] == events[..n];
      BrokenStaysBroken(init, n, track);
    }
  }

  /** A stream without an enter is empty or ill-formed. */
  lemma {:induction false} FirstEventEnters(events: seq<Event>) returns (track: Track)
    requires EnterTimes(events, false) == [] && events != []
    ensures PhaseOf(events, track) == Broken
  {
    var init := events[..|events| - 1];
    if init == [] {
      track := events[0].candidate.change.track;
      assert PhaseOf(init, track) == Idle;
    } else {
      track := FirstEventEnters(init);
      BrokenStaysBroken(events, |init|, track);
    }
  }

  lemma QuietStepAddsNothing(cfg: Config, log: Log, step: Step)
    requires Take(cfg, log.camera, step).events == []
    ensures Next(cfg, log, step).events == log.events
  {
    hide Take;
    assert log.events + [] == log.events;
  }

  /** Where losing is impossible, a call that raises has decided on nothing. */
  lemma {:induction false} RaisesBeforeEvents(cfg: Config, prior: seq<Step>, steps: seq<Step>)
    requires Lossless(cfg) && Through(cfg, Run(cfg, prior), steps).raised
    ensures Through(cfg, Run(cfg, prior), steps).log.events == []
  {
    hide Take, Next, EnterTimes, PhaseOf;
    var init, step := steps[..|steps| - 1], steps[|steps| - 1];
    var before := Through(cfg, Run(cfg, prior), init);
    if before.raised {
      RaisesBeforeEvents(cfg, prior, init);
    } else {
      ThroughIsRun(cfg, prior, init);
      RaiseNeedsRoom(cfg, before.log.camera, step);
      CountIsBounded(cfg, prior + before.taken);
      EveryRunIsSound(cfg, prior + before.taken);
      if before.log.events != [] {
        var track := FirstEventEnters(before.log.events);
        assert false;
      }
      QuietStepAddsNothing(cfg, before.log, step);
    }
  }

  lemma {:induction false} NothingIsLost(cfg: Config, calls: seq<Call>)
    requires Lossless(cfg)
    ensures Alone(cfg, calls).returned == Alone(cfg, calls).log.events
  {
    hide Through, StepsOf, Run;
    if calls != [] {
      var solo, call := Alone(cfg, calls[..|calls| - 1]), calls[|calls| - 1];
      var steps := StepsOf(solo.log.camera, call);
      NothingIsLost(cfg, calls[..|calls| - 1]);
      AloneIsRun(cfg, calls[..|calls| - 1]);
      ThroughIsRun(cfg, solo.taken, steps);
      if Through(cfg, solo.log, steps).raised {
        RaisesBeforeEvents(cfg, solo.taken, steps);
      }
    }
  }

  ghost predicate AlwaysLifecycles(cfg: Config) {
    forall calls, track :: PhaseOf(Alone(cfg, calls).returned, track) != Broken
  }

  // ---- How an event is lost ----

  const WHOLE := Rectangle(0.0, 0.0, 1.0, 1.0)
  const PEOPLE := Policy({Person}, 0)

  function Seen(edge: Edge, track: Track, now: real, claim: Claim): Sample {
    Sample(Change(edge, track, Person, 0, WHOLE), now, false, Some([]), false, claim)
  }

  lemma ThroughOne(cfg: Config, log: Log, step: Step)
    ensures Through(cfg, log, [step]).log == Next(cfg, log, step)
    ensures Through(cfg, log, [step]).raised == Take(cfg, log.camera, step).raised
  {
    hide Next, Take;
    assert [step][..0] == [];
  }

  lemma OneSeen(cfg: Config, log: Log, now: real, s: Sample)
    ensures var pruned := Next(cfg, log, Prune(now)); var p := Through(cfg, log, [Prune(now)] + Sightings([s]));
            p.log == Next(cfg, pruned, See(s)) && p.raised == Take(cfg, pruned.camera, See(s)).raised
  {
    hide Next, Apply, Pruned;
    ThroughOne(cfg, log, Prune(now));
    assert Sightings([s]) == [See(s)];
    assert ([Prune(now)] + [See(s)])[..1] == [Prune(now)];
  }

  lemma TwoSeen(cfg: Config, log: Log, now: real, s: Sample, s': Sample)
    requires !Take(cfg, Next(cfg, log, Prune(now)).camera, See(s)).raised
    ensures var once := Next(cfg, Next(cfg, log, Prune(now)), See(s));
            var p := Through(cfg, log, [Prune(now)] + Sightings([s, s']));
            p.log == Next(cfg, once, See(s')) && p.raised == Take(cfg, once.camera, See(s')).raised
  {
    hide Next, Take;
    OneSeen(cfg, log, now, s);
    assert [s, s'][..1] == [s];
    assert ([Prune(now)] + Sightings([s, s']))[..2] == [Prune(now)] + Sightings([s]);
  }

  /** A camera that watches people, with the open event of track 1 or none, and this much of its allowance used. */
  ghost predicate Watching(cfg: Config, c: Camera, open: bool, at: real, used: nat) {
    && c.policy == Some(PEOPLE) && c.held == map[]
    && (cfg.window.Some? ==> c.eventTimes == if used == 0 then [] else [at])
    && (cfg.window.None? ==> c.eventCount == used)
    && c.lastMoving == (if open then map[1 := at] else map[])
    && c.active.Keys == (if open then {1} else {})
    && (open ==> c.active[1].change.kind == Person && c.active[1].zones == [])
  }

  lemma Installs(cfg: Config, log: Log)
    requires log.camera == NEW && log.events == []
    ensures var log' := Next(cfg, log, Replace(Some(PEOPLE)));
            Watching(cfg, log'.camera, false, 0.0, 0) && log'.events == []
  {
    ReplaceIs(cfg, log, Some(PEOPLE));
    hide Next, Take, Sorted;
    assert Sorted(log.camera.active.Keys) == [];
    assert Leaves(log.camera.active, []) == [];
    assert Stamped([], 0.0) == [];
  }

  /** Track 1 enters. */
  lemma Enters(cfg: Config, log: Log, at: real, now: real)
    requires Watching(cfg, log.camera, false, at, 0) && cfg.maxEvents.Some? && cfg.maxEvents.value >= 1
    ensures var o := Take(cfg, log.camera, See(Seen(Enter, 1, now, Granted)));
            && !o.raised && Watching(cfg, o.camera, true, now, 1)
            && o.events == [Candidate(Seen(Enter, 1, now, Granted).change, [])]
  {
  }

  /** Another one has room, but its claim fails. */
  lemma FailsAfter(cfg: Config, c: Camera, open: bool, at: real, used: nat, now: real)
    requires cfg.budgeted && Watching(cfg, c, open, at, used) && HasRoom(cfg, c)
    ensures Take(cfg, c, See(Seen(Enter, 2, now, Fails))) == Outcome(c, [], NONE, true)
  {
  }

  lemma Moves(cfg: Config, c: Camera, at: real, used: nat, now: real)
    requires Watching(cfg, c, true, at, used) && now - at >= 1.0
    ensures var o := Take(cfg, c, See(Seen(Moving, 1, now, Granted)));
            !o.raised && o.events == [Candidate(Seen(Moving, 1, now, Granted).change, [])]
  {
  }

  lemma LeavesInTime(cfg: Config, c: Camera, at: real, used: nat, now: real)
    requires Watching(cfg, c, true, at, used)
    ensures var o := Take(cfg, c, See(Seen(Leave, 1, now, Granted)));
            !o.raised && Watching(cfg, o.camera, false, at, used)
  {
    assert c.lastMoving - {1} == map[];
    assert (c.active - {1}).Keys == {};
  }

  lemma PruneFrees(cfg: Config, c: Camera, at: real)
    requires Watching(cfg, c, true, at, 1) && cfg.window.Some?
    ensures Watching(cfg, Take(cfg, c, Prune(at + cfg.window.value)).camera, true, at, 0)
  {
    assert [at][1..] == [];
  }

  /** The events of a call that does not raise, put together for one event. */
  lemma ReturnsOne(cfg: Config, solo: Solo, call: Call, candidate: Candidate, at: real)
    requires var p := Through(cfg, solo.log, StepsOf(solo.log.camera, call));
             !p.raised && p.log.events == solo.log.events + Stamped([candidate], at)
    ensures After(cfg, solo, call).returned == solo.returned + [Event(candidate, at)]
  {
    hide Through, StepsOf;
    assert [candidate][..0] == [];
    assert Stamped([candidate], at) == [Event(candidate, at)];
  }

  lemma ReturnsNothing(cfg: Config, solo: Solo, call: Call)
    requires Through(cfg, solo.log, StepsOf(solo.log.camera, call)).raised
    ensures After(cfg, solo, call).returned == solo.returned
  {
    hide Through, StepsOf;
  }

  lemma PruneKeepsTimes(cfg: Config, log: Log, open: bool, at: real, used: nat, now: real)
    requires Watching(cfg, log.camera, open, at, used)
        && (cfg.window.Some? ==> now - cfg.window.value < at || used == 0)
    ensures Next(cfg, log, Prune(now)) == log && log.camera.policy.Some?
  {
    assert log.events + [] == log.events;
    assert log.tally.Plus(NONE) == log.tally;
  }

  /** An infrared-free frame with one sighting that changes nothing about the window. */
  lemma ObservesOne(cfg: Config, solo: Solo, open: bool, at: real, used: nat, now: real,
      s: Sample) returns (solo': Solo)
    requires Watching(cfg, solo.log.camera, open, at, used)
        && (cfg.window.Some? ==> now - cfg.window.value < at || used == 0)
    requires !Take(cfg, solo.log.camera, See(s)).raised && |Take(cfg, solo.log.camera, See(s)).events| == 1
    ensures solo' == After(cfg, solo, Observe(now, Changes([s])))
    ensures solo'.log == Next(cfg, solo.log, See(s))
    ensures solo'.returned == solo.returned + [Event(Take(cfg, solo.log.camera, See(s)).events[0], s.now)]
  {
    hide Apply, Watching;
    PruneKeepsTimes(cfg, solo.log, open, at, used, now);
    OneSeen(cfg, solo.log, now, s);
    solo' := After(cfg, solo, Observe(now, Changes([s])));
    var o := Take(cfg, solo.log.camera, See(s));
    assert o.events == [o.events[0]];
    ReturnsOne(cfg, solo, Observe(now, Changes([s])), o.events[0], s.now);
  }

  lemma Starts(cfg: Config) returns (calls: seq<Call>, solo: Solo)
    ensures solo == Alone(cfg, calls) && Watching(cfg, solo.log.camera, false, 0.0, 0) && solo.returned == []
  {
    calls := [] + [ReplacePolicy(Some(PEOPLE))];
    AloneMore(cfg, [], ReplacePolicy(Some(PEOPLE)));
    solo := Alone(cfg, calls);
    Installs(cfg, START);
    ThroughOne(cfg, START, Replace(Some(PEOPLE)));
    hide Next, Through, Take, Watching;
    assert Alone(cfg, []) == Solo(START, [], []);
  }

  lemma NextCamera(cfg: Config, log: Log, step: Step)
    ensures Next(cfg, log, step).camera == Take(cfg, log.camera, step).camera
  {
  }

  lemma AfterLog(cfg: Config, solo: Solo, call: Call)
    ensures After(cfg, solo, call).log == Through(cfg, solo.log, StepsOf(solo.log.camera, call)).log
  {
  }

  lemma RoomForTwo(cfg: Config, c: Camera, open: bool, at: real)
    requires Watching(cfg, c, open, at, 1) && cfg.maxEvents.Some? && cfg.maxEvents.value >= 2
    ensures HasRoom(cfg, c)
  {
  }

  /** Room for two: the enter of track 1 is lost, and its first moving event comes out of nothing. */
  lemma LosesEnter(cfg: Config) returns (calls: seq<Call>)
    requires cfg.budgeted && ValidConfig(cfg) && cfg.maxEvents.value >= 2
    ensures PhaseOf(Alone(cfg, calls).returned, 1) == Broken
  {
    hide After, Alone, Take, Next, Watching, Through;
    var solo: Solo;
    calls, solo := Starts(cfg);
    var enter, other, moving := Seen(Enter, 1, 0.0, Granted), Seen(Enter, 2, 0.0, Fails), Seen(Moving, 1, 1.0, Granted);
    var frame := Observe(0.0, Changes([enter, other]));
    PruneKeepsTimes(cfg, solo.log, false, 0.0, 0, 0.0);
    Enters(cfg, solo.log, 0.0, 0.0);
    var once := Next(cfg, solo.log, See(enter));
    NextCamera(cfg, solo.log, See(enter));
    RoomForTwo(cfg, once.camera, true, 0.0);
    FailsAfter(cfg, once.camera, true, 0.0, 1, 0.0);
    TwoSeen(cfg, solo.log, 0.0, enter, other);
    AloneMore(cfg, calls, frame);
    ReturnsNothing(cfg, solo, frame);
    var solo1 := After(cfg, solo, frame);
    AfterLog(cfg, solo, frame);
    NextCamera(cfg, once, See(other));
    calls := calls + [frame];
    Moves(cfg, solo1.log.camera, 0.0, 1, 1.0);
    var solo2 := ObservesOne(cfg, solo1, true, 0.0, 1, 1.0, moving);
    AloneMore(cfg, calls, Observe(1.0, Changes([moving])));
    calls := calls + [Observe(1.0, Changes([moving]))];
    var e := Event(Candidate(moving.change, []), 1.0);
    assert solo2.returned == [] + [e];
    PhaseOfMore([], e, 1);
  }

  lemma RoomForOne(cfg: Config, c: Camera, at: real)
    requires Watching(cfg, c, false, at, 0) && (cfg.maxEvents.Some? ==> cfg.maxEvents.value >= 1)
    ensures HasRoom(cfg, c)
  {
  }

  lemma HasPolicy(cfg: Config, c: Camera, open: bool, at: real, used: nat)
    requires Watching(cfg, c, open, at, used)
    ensures c.policy.Some?
  {
  }

  /** Room for one, but again after the window: the leave of track 1 is lost, and it enters twice. */
  lemma LosesLeave(cfg: Config) returns (calls: seq<Call>)
    requires cfg.budgeted && ValidConfig(cfg) && cfg.window.Some?
    ensures PhaseOf(Alone(cfg, calls).returned, 1) == Broken
  {
    hide After, Alone, Take, Next, Watching, Through;
    var later := 0.0 + cfg.window.value;
    var solo: Solo;
    calls, solo := Starts(cfg);
    var enter, leave, other, again := Seen(Enter, 1, 0.0, Granted), Seen(Leave, 1, later, Granted),
        Seen(Enter, 2, later, Fails), Seen(Enter, 1, later, Granted);
    Enters(cfg, solo.log, 0.0, 0.0);
    var solo1 := ObservesOne(cfg, solo, false, 0.0, 0, 0.0, enter);
    NextCamera(cfg, solo.log, See(enter));
    AloneMore(cfg, calls, Observe(0.0, Changes([enter])));
    calls := calls + [Observe(0.0, Changes([enter]))];
    var frame := Observe(later, Changes([leave, other]));
    var pruned := Next(cfg, solo1.log, Prune(later));
    PruneFrees(cfg, solo1.log.camera, 0.0);
    NextCamera(cfg, solo1.log, Prune(later));
    LeavesInTime(cfg, pruned.camera, 0.0, 0, later);
    var left := Next(cfg, pruned, See(leave));
    NextCamera(cfg, pruned, See(leave));
    RoomForOne(cfg, left.camera, 0.0);
    FailsAfter(cfg, left.camera, false, 0.0, 0, later);
    TwoSeen(cfg, solo1.log, later, leave, other);
    HasPolicy(cfg, solo1.log.camera, true, 0.0, 1);
    ReturnsNothing(cfg, solo1, frame);
    AfterLog(cfg, solo1, frame);
    NextCamera(cfg, left, See(other));
    var solo2 := After(cfg, solo1, frame);
    AloneMore(cfg, calls, frame);
    calls := calls + [frame];
    Enters(cfg, solo2.log, 0.0, later);
    var solo3 := ObservesOne(cfg, solo2, false, 0.0, 0, later, again);
    AloneMore(cfg, calls, Observe(later, Changes([again])));
    calls := calls + [Observe(later, Changes([again]))];
    var e, e' := Event(Candidate(enter.change, []), 0.0), Event(Candidate(again.change, []), later);
    assert solo3.returned == [] + [e] + [e'];
    PhaseOfMore([], e, 1);
    PhaseOfMore([] + [e], e', 1);
  }

  /**
  The events that callers are given are lifecycles in every run exactly when no call can raise after
  deciding on an event: without an event budget, or when it admits a single event for good.
  */
  lemma ReturnedLifecycles(cfg: Config)
    requires ValidConfig(cfg)
    ensures AlwaysLifecycles(cfg) <==> Lossless(cfg)
  {
    hide Alone, PhaseOf, Run;
    if Lossless(cfg) {
      forall calls, track ensures PhaseOf(Alone(cfg, calls).returned, track) != Broken {
        NothingIsLost(cfg, calls);
        AloneIsRun(cfg, calls);
        EveryRunIsSound(cfg, Alone(cfg, calls).taken);
      }
    } else if cfg.window.Some? {
      var calls := LosesLeave(cfg);
      assert PhaseOf(Alone(cfg, calls).returned, 1) == Broken;
    } else {
      var calls := LosesEnter(cfg);
      assert PhaseOf(Alone(cfg, calls).returned, 1) == Broken;
    }
  }
}
