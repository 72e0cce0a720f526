/** Night packages: what has to have been seen before an infrared sample may announce one. */
module NightHold {
  import opened Options
  import opened Ordering
  import opened Reals
  import opened CameraPolicy
  import opened CameraStream
  import opened CameraLimits

  /** The step shows nothing against the package lying where the anchor box is. */
  predicate Stays(step: Step, policy: Policy, track: Track, box: Box) {
    match step
    case See(s) =>
      s.change.track == track && s.change.kind in policy.enabled ==>
        s.infrared && Iou(box, s.change.box) >= STATIONARY && !s.change.edge.Leave? && !s.change.kind.Animal?
    case Replace(p) => p == Some(policy)
    case _ => true
  }

  predicate Sets(s: Sample, policy: Policy, track: Track, hold: Hold) {
    s.infrared && s.change.track == track && s.change.kind in policy.enabled && hold == Hold(s.now, s.change.box)
  }

  /** Step `i` is the infrared sample that set the hold, and every step since then shows the package in place. */
  ghost predicate AnchoredAt(steps: seq<Step>, i: nat, policy: Policy, track: Track, hold: Hold) {
    && i < |steps| && steps[i].See?
    && Sets(steps[i].sample, policy, track, hold)
    && forall j :: i < j < |steps| ==> Stays(steps[j], policy, track, hold.box)
  }

  lemma HeldNeedsPolicy(c: Camera)
    requires Shaped(c)
    ensures forall track <- c.held :: c.policy.Some? && Package in c.policy.value.enabled && track !in c.active
  {
    forall track | track in c.held ensures c.policy.Some? && Package in c.policy.value.enabled && track !in c.active {
      assert track in c.held.Keys;
      ActiveNotHeld(c, track);
    }
  }

  /** A confirmed hold is gone, whether or not it could be announced; the others are as before. */
  lemma ConfirmReleases(cfg: Config, c: Camera, track: Track, current: Change, answer: Sample)
    requires Shaped(c) && c.policy.Some? && track in c.held && current.kind.Package?
    ensures Confirmed(cfg, c, track, current, answer).camera.held == c.held - {track}
    ensures Confirmed(cfg, c, track, current, answer).camera.policy == c.policy
  {
    hide Announce, Iou, Shaped;
    HeldNeedsPolicy(c);
    var hold := c.held[track];
    assert c.held[track := hold.(since := Min(hold.since, answer.now - DWELL))] - {track} == c.held - {track};
  }

  /** A hold after a step was set by it, or was there before and the step shows nothing against it. */
  lemma HeldAfter(cfg: Config, c: Camera, step: Step, track: Track)
    requires Shaped(c) && track in Take(cfg, c, step).camera.held
    ensures var hold := Take(cfg, c, step).camera.held[track];
            && c.policy.Some? && Take(cfg, c, step).camera.policy == c.policy
            && (|| (step.See? && Sets(step.sample, c.policy.value, track, hold))
                || (track in c.held && c.held[track] == hold && Stays(step, c.policy.value, track, hold.box)))
  {
    hide Announce, Iou, Shaped, Pruned, Leaves, Sorted;
    HeldNeedsPolicy(c);
    match step {
      case See(s) =>
      case Confirm(t, current, answer) =>
        if Confirms(c, t, current) {
          ConfirmReleases(cfg, c, t, current.value, answer);
        }
      case _ =>
    }
  }

  ghost predicate Anchored(steps: seq<Step>, c: Camera) {
    forall track <- c.held :: c.policy.Some?
        && exists i: nat :: AnchoredAt(steps, i, c.policy.value, track, c.held[track])
  }

  lemma AnchoredLater(steps: seq<Step>, i: nat, policy: Policy, track: Track, hold: Hold, step: Step)
    requires AnchoredAt(steps, i, policy, track, hold) && Stays(step, policy, track, hold.box)
    ensures AnchoredAt(steps + [step], i, policy, track, hold)
  {
    hide Stays, Sets;
  }

  lemma {:induction false} EveryHoldIsAnchored(cfg: Config, steps: seq<Step>)
    ensures Anchored(steps, Run(cfg, steps).camera)
  {
    hide Take, Shaped, Stamped, Stays;
    if steps != [] {
      var init, step := steps[..|steps| - 1], steps[|steps| - 1];
      var c, c' := Run(cfg, init).camera, Run(cfg, steps).camera;
      EveryHoldIsAnchored(cfg, init);
      EveryRunIsSound(cfg, init);
      assert steps == init + [step];
      forall track | track in c'.held
        ensures c'.policy.Some? && exists i: nat :: AnchoredAt(steps, i, c'.policy.value, track, c'.held[track])
      {
        HeldAfter(cfg, c, step, track);
        if step.See? && Sets(step.sample, c.policy.value, track, c'.held[track]) {
          assert AnchoredAt(steps, |init|, c'.policy.value, track, c'.held[track]);
        } else {
          var i: nat :| AnchoredAt(init, i, c.policy.value, track, c.held[track]);
          AnchoredLater(init, i, c.policy.value, track, c.held[track], step);
        }
      }
    }
  }

  predicate AnnouncesPackage(o: Outcome, track: Track) {
    o.events != [] && IsEnter(o.events[0]) && o.events[0].change.kind.Package? && o.events[0].change.track == track
  }

  lemma InfraredNeedsHold(cfg: Config, c: Camera, s: Sample)
    requires c.policy.Some? && s.infrared && AnnouncesPackage(Apply(cfg, c, s), s.change.track)
    ensures s.change.track in c.held && s.change.track !in c.vetoed && s.change.track !in c.watched
    ensures s.now - c.held[s.change.track].since >= DWELL
    ensures Iou(c.held[s.change.track].box, s.change.box) >= STATIONARY
  {
    hide Iou, HasRoom, Cools, Entered;
  }

  lemma NotLeaveNorAnimal(cfg: Config, c: Camera, s: Sample)
    requires c.policy.Some? && s.infrared && AnnouncesPackage(Apply(cfg, c, s), s.change.track)
    ensures !s.change.edge.Leave? && !s.change.kind.Animal?
  {
    hide Iou, HasRoom, Cools, Entered;
  }

  /**
  An infrared sample announces a package only if an infrared sample at least 20 seconds older set its
  box, and since then every sample of the track was infrared and overlapped that box by at least one half.
  */
  lemma NightPackageWasStationary(cfg: Config, steps: seq<Step>, s: Sample)
    requires s.infrared && AnnouncesPackage(Take(cfg, Run(cfg, steps).camera, See(s)), s.change.track)
    ensures var policy := Run(cfg, steps).camera.policy;
            policy.Some? && exists i: nat ::
              && i < |steps| && steps[i].See? && steps[i].sample.change.track == s.change.track
                  && steps[i].sample.infrared
              && s.now - steps[i].sample.now >= DWELL
              && forall j :: i < j <= |steps| ==>
                  Stays((steps + [See(s)])[j], policy.value, s.change.track, steps[i].sample.change.box)
  {
    hide Iou, Run;
    var c := Run(cfg, steps).camera;
    EveryHoldIsAnchored(cfg, steps);
    InfraredNeedsHold(cfg, c, s);
    var track, policy := s.change.track, c.policy.value;
    var i: nat :| AnchoredAt(steps, i, policy, track, c.held[track]);
    NotLeaveNorAnimal(cfg, c, s);
    AnchoredLater(steps, i, policy, track, c.held[track], See(s));
    hide Stays;
    assert (steps + [See(s)])[i] == steps[i];
  }

  lemma AnnouncesOwnTrack(cfg: Config, c: Camera, s: Sample)
    requires c.policy.Some?
    ensures forall candidate <- Apply(cfg, c, s).events :: candidate.change.track == s.change.track
  {
    hide Iou, HasRoom, Cools, Entered;
  }

  /** Only a sample in colour announces a vetoed track as a package. */
  lemma VetoedNeedsColour(cfg: Config, c: Camera, step: Step, track: Track)
    requires Shaped(c) && track in c.vetoed && AnnouncesPackage(Take(cfg, c, step), track)
    ensures step.See? && !step.sample.infrared
  {
    hide Apply, Shaped, Sorted, Leaves;
    match step {
      case Replace(policy) =>
        LeavesAreNotEnters(c.active, Sorted(c.active.Keys));
      case See(s) =>
        if s.infrared {
          AnnouncesOwnTrack(cfg, c, s);
          InfraredNeedsHold(cfg, c, s);
        }
      case Confirm(t, current, answer) =>
        if Confirms(c, t, current) {
          var hold := c.held[t];
          var c' := c.(held := c.held[t := hold.(since := Min(hold.since, answer.now - DWELL))],
              watched := c.watched - {t});
          AnnouncesOwnTrack(cfg, c', answer.(change := current.value.(edge := Moving, track := t), infrared := false));
        }
      case _ =>
    }
  }
}
