/**
One camera of the policy engine: what its tracker reports becomes a bounded, well-formed event stream.

The tracker, the zone lookup, the cooldown store and the event budget are not modelled: every sample
carries their answers, and the theorems hold of all of them. A call is a sequence of steps; `Run` goes
through any sequence of steps and keeps the events that were decided.
*/
module CameraPolicy {
  import opened Options
  import opened Ordering
  import opened Reals

  datatype Kind = Person | Vehicle | Animal | Package
  datatype Edge = Enter | Moving | Leave
  type Track = nat
  type Zones = seq<int>

  datatype Rectangle = Rectangle(left: real, top: real, right: real, bottom: real)
  type Box = r: Rectangle | r.left < r.right && r.top < r.bottom witness Rectangle(0.0, 0.0, 1.0, 1.0)

  /** `look` stands for the label, the score and the plate, which are passed on unchanged. */
  datatype Change = Change(edge: Edge, track: Track, kind: Kind, look: int, box: Box)
  datatype Candidate = Candidate(change: Change, zones: Zones)

  /** `settings` stands for everything but the enabled kinds; two policies are equal if both are. */
  datatype Policy = Policy(enabled: set<Kind>, settings: int)

  datatype Config = Config(maxEvents: Option<nat>, window: Option<real>, budgeted: bool, cooled: bool)
  datatype Hold = Hold(since: real, box: Box)

  datatype Camera = Camera(
    policy: Option<Policy>,
    active: map<Track, Candidate>,
    lastMoving: map<Track, real>,
    held: map<Track, Hold>,
    vetoed: set<Track>,
    watched: set<Track>,
    eventCount: nat,
    eventTimes: seq<real>,
    lastPackageAt: Option<real>,
    generation: nat)

  const NEW := Camera(None, map[], map[], map[], {}, {}, 0, [], None, 0)

  datatype Claim = Granted | Refused | Fails
  datatype Sample = Sample(change: Change, now: real, infrared: bool, zones: Option<Zones>, cooling: bool, claim: Claim)

  datatype Step =
    | Replace(policy: Option<Policy>)
    | Prune(at: real)
    | See(sample: Sample)
    | Watch(track: Track)
    | Unwatch(track: Track)
    | Veto(track: Track)
    | Confirm(track: Track, current: Option<Change>, answer: Sample)

  /** What became of the night packages: counts since the engine started. */
  datatype Tally = Tally(held: nat, confirmed: nat, asAnimal: nat, dropped: nat) {
    function Plus(other: Tally): Tally {
      Tally(held + other.held, confirmed + other.confirmed, asAnimal + other.asAnimal, dropped + other.dropped)
    }
  }

  const NONE := Tally(0, 0, 0, 0)

  datatype Outcome = Outcome(camera: Camera, events: seq<Candidate>, tally: Tally, raised: bool)

  const PACKAGE_COOLDOWN := 1800.0
  const DWELL := 20.0
  const STATIONARY := 0.5

  // ---- Overlap ----

  function Area(b: Box): (a: real)
    ensures a > 0.0
  {
    (b.right - b.left) * (b.bottom - b.top)
  }

  function Intersection(a: Box, b: Box): (i: real)
    ensures i >= 0.0
  {
    Max(0.0, Min(a.right, b.right) - Max(a.left, b.left)) * Max(0.0, Min(a.bottom, b.bottom) - Max(a.top, b.top))
  }

  lemma ProductIsMonotone(w: real, h: real, w': real, h': real)
    requires 0.0 <= w <= w' && 0.0 <= h <= h'
    ensures w * h <= w' * h'
  {
    assert w * h <= w' * h;
    assert w' * h <= w' * h';
  }

  lemma IntersectionWithinAreas(a: Box, b: Box)
    ensures Intersection(a, b) <= Area(a) && Intersection(a, b) <= Area(b)
  {
    var w := Max(0.0, Min(a.right, b.right) - Max(a.left, b.left));
    var h := Max(0.0, Min(a.bottom, b.bottom) - Max(a.top, b.top));
    ProductIsMonotone(w, h, a.right - a.left, a.bottom - a.top);
    ProductIsMonotone(w, h, b.right - b.left, b.bottom - b.top);
  }

  /** Intersection over union. */
  function Iou(a: Box, b: Box): real {
    IntersectionWithinAreas(a, b);
    Intersection(a, b) / (Area(a) + Area(b) - Intersection(a, b))
  }

  predicate Overlap(a: Box, b: Box) {
    a.left < b.right && b.left < a.right && a.top < b.bottom && b.top < a.bottom
  }

  lemma IntersectionIffOverlap(a: Box, b: Box)
    ensures Intersection(a, b) > 0.0 <==> Overlap(a, b)
  {
    var w := Max(0.0, Min(a.right, b.right) - Max(a.left, b.left));
    var h := Max(0.0, Min(a.bottom, b.bottom) - Max(a.top, b.top));
    assert Intersection(a, b) == w * h;
    assert Overlap(a, b) <==> w > 0.0 && h > 0.0;
  }

  lemma SymmetricIntersection(a: Box, b: Box)
    ensures Intersection(a, b) == Intersection(b, a)
  {
  }

  lemma SelfIntersection(a: Box)
    ensures Intersection(a, a) == Area(a)
  {
  }

  /** A fraction, the same both ways, one for a box with itself, and positive exactly for boxes that overlap. */
  lemma IouIsAFraction(a: Box, b: Box)
    ensures 0.0 <= Iou(a, b) <= 1.0 && Iou(a, b) == Iou(b, a) && Iou(a, a) == 1.0
    ensures Iou(a, b) > 0.0 <==> Overlap(a, b)
  {
    IntersectionWithinAreas(a, b);
    IntersectionIffOverlap(a, b);
    SelfIntersection(a);
    hide Intersection, Area, Overlap;
    SymmetricIntersection(a, b);
    var i, u := Intersection(a, b), Area(a) + Area(b) - Intersection(a, b);
    assert u > 0.0 && i <= u && Iou(a, b) == i / u;
    assert Iou(a, a) == Area(a) / Area(a);
    QuotientWithin(i, u);
  }

  // ---- One change ----

  function Released(c: Camera, track: Track): Camera {
    c.(held := c.held - {track}, vetoed := c.vetoed - {track}, watched := c.watched - {track})
  }

  predicate HasRoom(cfg: Config, c: Camera) {
    cfg.maxEvents.None? || (if cfg.window.Some? then |c.eventTimes| else c.eventCount) < cfg.maxEvents.value
  }

  /** A parcel seen again is not a new delivery. */
  predicate Cools(cfg: Config, c: Camera, s: Sample) {
    || (c.lastPackageAt.Some? && s.now - c.lastPackageAt.value < PACKAGE_COOLDOWN)
    || (cfg.cooled && s.cooling)
  }

  function Entered(cfg: Config, c: Camera, s: Sample, zones: Zones): Camera {
    c.(active := c.active[s.change.track := Candidate(s.change, zones)],
       lastMoving := c.lastMoving[s.change.track := s.now],
       eventCount := c.eventCount + 1,
       eventTimes := if cfg.window.Some? then c.eventTimes + [s.now] else c.eventTimes,
       lastPackageAt := if s.change.kind.Package? then Some(s.now) else c.lastPackageAt)
  }

  function Quietly(c: Camera): Outcome {
    Outcome(c, [], NONE, false)
  }

  function Announcing(c: Camera, change: Change, zones: Zones): Outcome {
    Outcome(c, [Candidate(change, zones)], NONE, false)
  }

  function Admit(cfg: Config, c: Camera, s: Sample): Outcome {
    if s.zones.None? then Quietly(c)
    else if cfg.budgeted && s.claim.Fails? then Outcome(c, [], NONE, true)
    else if cfg.budgeted && s.claim.Refused? then Quietly(c)
    else Announcing(Entered(cfg, c, s, s.zones.value), s.change, s.zones.value)
  }

  predicate SameObject(c: Camera, change: Change) {
    change.track in c.active && c.active[change.track].change.kind == change.kind
  }

  /** The event gates: cooldown, budget and zones for an enter, and the open event for the rest. */
  function Announce(cfg: Config, c: Camera, s: Sample): (o: Outcome)
    ensures o.tally == NONE && o.camera.policy == c.policy
    ensures o.camera.held == c.held && o.camera.vetoed == c.vetoed && o.camera.watched == c.watched
  {
    var change, track := s.change, s.change.track;
    if change.edge.Enter? && track !in c.active then
      if change.kind.Package? && Cools(cfg, c, s) then Quietly(c)
      else if HasRoom(cfg, c) then Admit(cfg, c, s) else Quietly(c)
    else if change.edge.Moving? && SameObject(c, change) then
      if track in c.lastMoving && s.now - c.lastMoving[track] >= 1.0 && s.zones == Some(c.active[track].zones) then
        Announcing(c.(active := c.active[track := Candidate(change, c.active[track].zones)],
                      lastMoving := c.lastMoving[track := s.now]), change, c.active[track].zones)
      else Quietly(c)
    else if change.edge.Leave? && SameObject(c, change) then
      Announcing(c.(active := c.active - {track}, lastMoving := c.lastMoving - {track}), change, c.active[track].zones)
    else Quietly(c)
  }

  /** An infrared sample that does not yet show a held package staying in place. */
  predicate StillHeld(c: Camera, s: Sample)
    requires s.change.track in c.held
  {
    var hold := c.held[s.change.track];
    s.infrared && (|| s.change.track in c.vetoed || s.change.track in c.watched
                   || Iou(hold.box, s.change.box) < STATIONARY || s.now - hold.since < DWELL)
  }

  function Counting(o: Outcome, tally: Tally): Outcome {
    o.(tally := tally)
  }

  function ApplyHeld(cfg: Config, c: Camera, s: Sample): Outcome
    requires s.change.track in c.held
  {
    var track := s.change.track;
    if s.change.edge.Leave? then
      Counting(Quietly(Released(c, track)), Tally(0, 0, 0, 1))
    else if s.change.kind.Animal? then
      Counting(Announce(cfg, Released(c, track), s), Tally(0, 0, 1, 0))
    else if StillHeld(c, s) then
      Quietly(if Iou(c.held[track].box, s.change.box) < STATIONARY
              then c.(held := c.held[track := Hold(s.now, s.change.box)]) else c)
    else
      Counting(Announce(cfg, Released(c, track), s.(change := s.change.(edge := Enter))), Tally(0, 1, 0, 0))
  }

  /** A package first confirmed in night infrared. */
  predicate IsHeldBack(c: Camera, s: Sample) {
    s.change.kind.Package? && s.change.edge.Enter? && s.change.track !in c.active && s.infrared
  }

  function Apply(cfg: Config, c: Camera, s: Sample): Outcome
    requires c.policy.Some?
  {
    if s.change.kind !in c.policy.value.enabled then Quietly(c)
    else if s.change.track in c.held && s.change.track !in c.active then ApplyHeld(cfg, c, s)
    else if IsHeldBack(c, s) then
      Counting(Quietly(c.(held := c.held[s.change.track := Hold(s.now, s.change.box)])), Tally(1, 0, 0, 0))
    else Announce(cfg, c, s)
  }

  // ---- Steps ----

  /** Times at or before the cutoff leave the front of the queue. */
  function Pruned(times: seq<real>, cutoff: real): (kept: seq<real>)
    ensures exists n :: 0 <= n <= |times| && kept == times[n..] && forall i :: 0 <= i < n ==> times[i] <= cutoff
  {
    if times != [] && times[0] <= cutoff then
      var kept := Pruned(times[1..], cutoff);
      assert exists n :: 0 <= n <= |times| && kept == times[n..] && forall i :: 0 <= i < n ==> times[i] <= cutoff by {
        var n :| 0 <= n <= |times[1..]| && kept == times[1..][n..]
            && forall i :: 0 <= i < n ==> times[1..][i] <= cutoff;
        assert times[1..][n..] == times[n + 1..];
        assert forall i :: 1 <= i < n + 1 ==> times[i] == times[1..][i - 1];
      }
      kept
    else
      assert times == times[0..];
      times
  }

  /** A new policy closes every event and forgets every hold; the same policy again changes nothing. */
  predicate Repeats(c: Camera, policy: Option<Policy>) {
    policy.Some? && policy == c.policy
  }

  function Replaced(c: Camera, policy: Option<Policy>): Camera {
    c.(policy := policy, active := map[], lastMoving := map[], held := map[], vetoed := {}, watched := {},
       generation := c.generation + 1)
  }

  function LeaveOf(candidate: Candidate): Candidate {
    candidate.(change := candidate.change.(edge := Leave))
  }

  function Leaves(active: map<Track, Candidate>, tracks: seq<Track>): (leaves: seq<Candidate>)
    requires forall track <- tracks :: track in active
    ensures |leaves| == |tracks|
  {
    if tracks == [] then []
    else Leaves(active, tracks[..|tracks| - 1]) + [LeaveOf(active[tracks[|tracks| - 1]])]
  }

  predicate Confirms(c: Camera, track: Track, current: Option<Change>) {
    c.policy.Some? && track in c.held && current.Some? && current.value.kind.Package? && track !in c.vetoed
  }

  /** The held package of a track is announced as if it had been seen in colour, staying in place for long enough. */
  function Confirmed(cfg: Config, c: Camera, track: Track, current: Change, answer: Sample): Outcome
    requires c.policy.Some? && track in c.held
  {
    var hold := c.held[track];
    var c' := c.(held := c.held[track := hold.(since := Min(hold.since, answer.now - DWELL))],
        watched := c.watched - {track});
    Apply(cfg, c', answer.(change := current.(edge := Moving, track := track), infrared := false))
  }

  function Take(cfg: Config, c: Camera, step: Step): Outcome {
    match step
    case Replace(policy) =>
      if Repeats(c, policy) then Quietly(c)
      else Outcome(Replaced(c, policy), Leaves(c.active, Sorted(c.active.Keys)), NONE, false)
    case Prune(now) =>
      Quietly(if cfg.window.Some? then c.(eventTimes := Pruned(c.eventTimes, now - cfg.window.value)) else c)
    case See(sample) => if c.policy.Some? then Apply(cfg, c, sample) else Quietly(c)
    case Watch(track) => Quietly(if track in c.held then c.(watched := c.watched + {track}) else c)
    case Unwatch(track) => Quietly(c.(watched := c.watched - {track}))
    case Veto(track) =>
      Quietly(c.(watched := c.watched - {track}, vetoed := if track in c.held then c.vetoed + {track} else c.vetoed))
    case Confirm(track, current, answer) =>
      if Confirms(c, track, current) then Confirmed(cfg, c, track, current.value, answer) else Quietly(c)
  }
}
