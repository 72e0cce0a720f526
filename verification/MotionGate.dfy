/**
The motion gate in front of the paid detector, one camera at a time.

`Gate` is what the gate remembers of one camera; every method call on it is an `Op`. The number of
requests it grants is bounded by a potential argument: `Reserve` within one episode, `Worth` over a run.
*/
module MotionGate {
  import opened Options

  function Uniform(n: nat, level: nat): (cells: seq<nat>)
    ensures |cells| == n
  {
    if n == 0 then [] else Uniform(n - 1, level) + [level]
  }

  type Camera = string
  /** 32 x 18 luminance cells. */
  type Thumbnail = cells: seq<nat> | |cells| == 576 witness Uniform(576, 0)

  const MOTION_CHANGED_CELLS := 8
  const CELL_STEP := 24
  const FRESH_QUIET_SECONDS := 8.0

  datatype Gate = Gate(
    previous: Option<Thumbnail>,
    pending: nat,
    quiet: nat,
    armed: bool,
    probing: bool,
    lastChange: Option<real>,
    novel: Option<bool>,
    retried: bool,
    emptyUntil: Option<real>,
    emptyAfter: Option<real>,
    observedAt: Option<real>)

  /** A camera nothing is stored about. */
  const UNSEEN := Gate(None, 0, 0, true, false, None, None, false, None, None, None)

  datatype Op =
    | Frame(thumbnail: Thumbnail, now: real, captured: Option<nat>, allowProbe: bool)
    | Reset
    | WaitForMotion
    | Cancel
    | Defer
    | Reply(found: bool, near: bool, empty: bool, at: real)

  function Changed(a: seq<nat>, b: seq<nat>): (n: nat)
    requires |a| == |b|
    ensures n <= |a|
  {
    if a == [] then 0
    else
      var i := |a| - 1;
      Changed(a[..i], b[..i]) + if a[i] - b[i] >= CELL_STEP || b[i] - a[i] >= CELL_STEP then 1 else 0
  }

  predicate Inv(g: Gate) {
    && g.pending <= 2 && g.quiet <= 3
    && (g.quiet == 3 ==> g.armed)
    && g.emptyUntil.Some? == g.emptyAfter.Some?
    && (g.emptyUntil.Some? ==> g.pending == 0 && !g.retried && !g.probing && g.observedAt.Some? && g.novel.Some?)
    && (g.previous.None? ==> g.pending == 0 && g.quiet == 0 && g.emptyUntil.None? && !g.probing)
    && (g.pending > 0 ==> g.observedAt.Some? && g.novel.Some?)
  }

  function NoRecovery(g: Gate): Gate {
    g.(emptyUntil := None, emptyAfter := None)
  }

  // ---- A frame ----

  function ObservedAt(f: Op): real
    requires f.Frame?
  {
    if f.captured.Some? then f.captured.value as real / 1000.0 else f.now
  }

  predicate Moves(g: Gate, f: Op)
    requires f.Frame?
  {
    g.previous.Some? && Changed(g.previous.value, f.thumbnail) >= MOTION_CHANGED_CELLS
  }

  predicate IsQuiet(g: Gate, f: Op)
    requires f.Frame?
  {
    g.previous.Some? && Changed(g.previous.value, f.thumbnail) < MOTION_CHANGED_CELLS
  }

  /** The count of quiet frames, and rearming at the third. */
  function Settled(g: Gate, moves: bool): Gate {
    if moves then g.(quiet := 0)
    else if g.quiet >= 2 then NoRecovery(g).(quiet := 3, armed := true)
    else g.(quiet := g.quiet + 1)
  }

  function RecoveryUntil(g: Gate): real {
    if g.emptyUntil.Some? then g.emptyUntil.value else 0.0
  }

  function Expired(g: Gate, now: real): Gate {
    if RecoveryUntil(g) <= now then NoRecovery(g) else g
  }

  predicate OpensFor(g: Gate, moves: bool) {
    moves && g.armed && g.pending == 0
  }

  predicate RecoversFor(g: Gate, moves: bool, until: real, f: Op)
    requires f.Frame?
  {
    moves && until > f.now && g.emptyAfter.Some? && ObservedAt(f) >= g.emptyAfter.value && g.pending == 0
  }

  function Opened(g: Gate, now: real): Gate {
    NoRecovery(g).(pending := 2, retried := false, armed := false,
                   novel := Some(g.lastChange.None? || now - g.lastChange.value >= FRESH_QUIET_SECONDS))
  }

  function Recovered(g: Gate): Gate {
    NoRecovery(g).(pending := 2, retried := true)
  }

  function Probed(g: Gate): Gate {
    g.(retried := false, pending := 2, armed := false, novel := Some(true), probing := true)
  }

  function Decided(g: Gate, moves: bool, until: real, f: Op): Gate
    requires f.Frame?
  {
    var g' := if OpensFor(g, moves) then Opened(g, f.now) else if RecoversFor(g, moves, until, f) then Recovered(g)
        else g;
    if moves then g'.(lastChange := Some(f.now)) else g'
  }

  /** The state in which the frame is decided on. */
  function Observed(g: Gate, f: Op): (seen: Gate)
    requires f.Frame?
    ensures Inv(g) ==> Inv(seen)
    ensures seen.previous == Some(f.thumbnail)
  {
    var g0 := g.(previous := Some(f.thumbnail), observedAt := Some(ObservedAt(f)));
    if g.previous.None? then
      if f.allowProbe then Probed(g0) else g0.(armed := true)
    else
      var moves := Moves(g, f);
      var settled := Settled(g0, moves);
      var until := RecoveryUntil(settled);
      var g1 := Expired(settled, f.now);
      Decided(g1, moves, until, f)
  }

  predicate Grants(g: Gate, op: Op) {
    op.Frame? && Observed(g, op).pending > 0
  }

  /** The frame starts an episode: a startup probe, or motion in an armed scene. */
  predicate Opens(g: Gate, op: Op) {
    op.Frame? &&
    if g.previous.None? then op.allowProbe
    else OpensFor(Settled(g, Moves(g, op)), Moves(g, op))
  }

  /** The third quiet frame in a row, in a disarmed scene. */
  predicate Rearms(g: Gate, op: Op) {
    op.Frame? && IsQuiet(g, op) && g.quiet == 2 && !g.armed
  }

  // ---- A reply ----

  predicate Retries(g: Gate, r: Op)
    requires r.Reply?
  {
    !r.found && r.near && g.pending == 1 && !g.retried
  }

  predicate MayRecover(g: Gate, r: Op)
    requires r.Reply?
  {
    r.empty && !r.found && !r.near && g.pending == 1 && !g.probing && !g.retried && g.novel == Some(true)
  }

  /** A clean empty first reply keeps one short allowance; any other reply ends an earlier one. */
  function Recovery(g: Gate, r: Op): Gate
    requires r.Reply? && (g.pending > 0 ==> g.observedAt.Some?)
  {
    if MayRecover(g, r) then g.(emptyUntil := Some(r.at + 10.0), emptyAfter := Some(g.observedAt.value + 2.0))
    else NoRecovery(g)
  }

  function Replied(g: Gate, r: Op): (g': Gate)
    requires r.Reply? && Inv(g)
    ensures Inv(g')
  {
    var g0 := Recovery(g, r);
    var g1 := if Retries(g, r) then g0.(retried := true, pending := 2)
              else if !r.found then g0.(pending := 0)
              else g0;
    if !g.probing then g1
    else g1.(probing := false, armed := g1.armed || (!r.found && !Retries(g, r)))
  }

  // ---- Runs ----

  function Step(g: Gate, op: Op): (g': Gate)
    requires Inv(g)
    ensures Inv(g')
  {
    match op
    case Frame(_, _, _, _) =>
      var seen := Observed(g, op);
      if seen.pending > 0 then seen.(pending := seen.pending - 1) else seen
    case Reset => UNSEEN.(observedAt := g.observedAt)
    case WaitForMotion => NoRecovery(g).(pending := 0, quiet := 0, armed := true, probing := false)
    case Cancel | Defer => NoRecovery(g).(pending := 0)
    case Reply(_, _, _, _) => Replied(g, op)
  }

  /** `is_refresh`: the first request of a pair for motion that does not follow a quiet scene. */
  predicate IsRefresh(g: Gate) {
    g.pending == 1 && g.novel == Some(false)
  }

  function Run(g: Gate, ops: seq<Op>): (g': Gate)
    requires Inv(g)
    ensures Inv(g')
  {
    if ops == [] then g else Step(Run(g, ops[..|ops| - 1]), ops[|ops| - 1])
  }

  /** How many operations of a run satisfy `p` in the state they are applied to. */
  function Count(g: Gate, ops: seq<Op>, p: (Gate, Op) -> bool): nat
    requires Inv(g)
  {
    if ops == [] then 0
    else
      var init := ops[..|ops| - 1];
      Count(g, init, p) + if p(Run(g, init), ops[|ops| - 1]) then 1 else 0
  }

  lemma SplitCount(g: Gate, a: seq<Op>, b: seq<Op>, p: (Gate, Op) -> bool)
    requires Inv(g)
    ensures Run(g, a + b) == Run(Run(g, a), b)
    ensures Count(g, a + b, p) == Count(g, a, p) + Count(Run(g, a), b, p)
    decreases |b|
  {
    hide Step;
    if b == [] {
      assert a + b == a;
    } else {
      var init := b[..|b| - 1];
      assert (a + b)[..|a + b| - 1] == a + init;
      SplitCount(g, a, init, p);
    }
  }

  lemma FirstCount(g: Gate, ops: seq<Op>, p: (Gate, Op) -> bool)
    requires Inv(g) && ops != []
    ensures Count(g, ops, p) >= if p(g, ops[0]) then 1 else 0
  {
    SplitCount(g, ops[..1], ops[1..], p);
    assert ops[..1] + ops[1..] == ops;
    assert ops[..1][..0] == [];
    assert Count(g, ops[..1], p) == if p(g, ops[0]) then 1 else 0;
  }

  function GrantsIn(g: Gate, ops: seq<Op>): nat
    requires Inv(g)
  {
    Count(g, ops, Grants)
  }

  // ---- At most three requests an episode ----

  /** The requests the episode in progress can still be granted. */
  function Reserve(g: Gate): nat {
    if g.retried then g.pending
    else if g.pending > 0 then g.pending + 1
    else if g.emptyUntil.Some? then 2
    else 0
  }

  lemma ReserveFalls(g: Gate, op: Op)
    requires Inv(g)
    ensures Reserve(Step(g, op)) + (if Grants(g, op) then 1 else 0) <= if Opens(g, op) then 3 else Reserve(g)
  {
  }

  /** Over any run each opening pays for three grants, on top of what the episode in progress had left. */
  lemma {:induction false} ThreeGrantsAnOpening(g: Gate, ops: seq<Op>)
    requires Inv(g)
    ensures GrantsIn(g, ops) + Reserve(Run(g, ops)) <= Reserve(g) + 3 * Count(g, ops, Opens)
    ensures Reserve(g) <= 3
  {
    if ops != [] {
      var init := ops[..|ops| - 1];
      ThreeGrantsAnOpening(g, init);
      ReserveFalls(Run(g, init), ops[|ops| - 1]);
    }
  }

  /**
  An episode, from the frame that opens it up to the next opening, is granted at most three requests,
  whatever the frames, clock readings, replies, deferrals and cancellations are.
  */
  lemma ThreeGrantsAnEpisode(g: Gate, op: Op, rest: seq<Op>)
    requires Inv(g) && Opens(g, op) && Count(Step(g, op), rest, Opens) == 0
    ensures GrantsIn(g, [op] + rest) <= 3
  {
    hide Step, Opens, Grants, Reserve;
    ReserveFalls(g, op);
    ThreeGrantsAnOpening(Step(g, op), rest);
    SplitCount(g, [op], rest, Grants);
    assert [op][..0] == [];
    assert Count(g, [op], Grants) == if Grants(g, op) then 1 else 0;
    assert Run(g, [op]) == Step(g, op);
  }

  // ---- The bound over a whole run ----

  /** The requests a gate can still be granted without another quiet frame, reset or denial. */
  function Worth(g: Gate): nat {
    if g.previous.None? then 5
    else (if g.probing then g.pending + 3 else Reserve(g)) + if g.armed then 3 else 0
  }

  predicate Resets(g: Gate, op: Op) {
    op.Reset?
  }

  predicate Denies(g: Gate, op: Op) {
    op.WaitForMotion?
  }

  predicate Quiets(g: Gate, op: Op) {
    op.Frame? && IsQuiet(g, op)
  }

  lemma WorthFalls(g: Gate, op: Op)
    requires Inv(g)
    ensures Worth(Step(g, op)) + (if Grants(g, op) then 1 else 0)
         <= Worth(g) + (if Rearms(g, op) then 3 else 0) + (if op.Reset? then 5 else 0) + (if op.WaitForMotion? then 3
             else 0)
  {
  }

  lemma {:induction false} GrantsWithinRearms(g: Gate, ops: seq<Op>)
    requires Inv(g)
    ensures GrantsIn(g, ops) + Worth(Run(g, ops))
         <= Worth(g) + 3 * Count(g, ops, Rearms) + 5 * Count(g, ops, Resets) + 3 * Count(g, ops, Denies)
  {
    if ops != [] {
      var init := ops[..|ops| - 1];
      GrantsWithinRearms(g, init);
      WorthFalls(Run(g, init), ops[|ops| - 1]);
    }
  }

  /** Quiet frames that count towards the next rearming. */
  function QuietSoFar(g: Gate): nat {
    if g.armed then 0 else g.quiet
  }

  lemma QuietStep(g: Gate, op: Op)
    requires Inv(g)
    ensures QuietSoFar(Step(g, op)) + (if Rearms(g, op) then 3 else 0) <= QuietSoFar(g) + if Quiets(g, op) then 1 else 0
  {
  }

  lemma {:induction false} ThreeQuietFramesARearming(g: Gate, ops: seq<Op>)
    requires Inv(g)
    ensures 3 * Count(g, ops, Rearms) + QuietSoFar(Run(g, ops)) <= QuietSoFar(g) + Count(g, ops, Quiets)
  {
    if ops != [] {
      var init := ops[..|ops| - 1];
      ThreeQuietFramesARearming(g, init);
      QuietStep(Run(g, init), ops[|ops| - 1]);
    }
  }

  /** A camera with `q` quiet frames and no reset or denial is granted at most `5 + 3 * (q / 3)` requests. */
  lemma GrantsWithinQuietFrames(ops: seq<Op>)
    ensures GrantsIn(UNSEEN, ops) <= 5 + 3 * (Count(UNSEEN, ops, Quiets) / 3)
                                   + 5 * Count(UNSEEN, ops, Resets) + 3 * Count(UNSEEN, ops, Denies)
  {
    hide Count, Run;
    GrantsWithinRearms(UNSEEN, ops);
    ThreeQuietFramesARearming(UNSEEN, ops);
  }

  // ---- The bound is reached ----

  const STILL: Thumbnail := Uniform(576, 0)
  const MOVED: Thumbnail := Uniform(576, CELL_STEP)

  lemma {:induction false} ChangedEverywhere(n: nat)
    ensures Changed(Uniform(n, 0), Uniform(n, CELL_STEP)) == n == Changed(Uniform(n, CELL_STEP), Uniform(n, 0))
  {
    if n > 0 {
      ChangedEverywhere(n - 1);
      assert Uniform(n, 0)[..n - 1] == Uniform(n - 1, 0);
      assert Uniform(n, CELL_STEP)[..n - 1] == Uniform(n - 1, CELL_STEP);
    }
  }

  lemma {:induction false} ChangedNowhere(a: seq<nat>)
    ensures Changed(a, a) == 0
  {
    if a != [] {
      ChangedNowhere(a[..|a| - 1]);
    }
  }

  /** A run that ends in `g'` with these many grants and quiet frames, and without a reset or a denial. */
  predicate Spends(g: Gate, ops: seq<Op>, g': Gate, grants: nat, quiet: nat)
    requires Inv(g)
  {
    && Run(g, ops) == g' && GrantsIn(g, ops) == grants && Count(g, ops, Quiets) == quiet
    && Count(g, ops, Resets) == 0 && Count(g, ops, Denies) == 0
  }

  lemma SpendsNothing(g: Gate)
    requires Inv(g)
    ensures Spends(g, [], g, 0, 0)
  {
  }

  lemma SpendsMore(g: Gate, ops: seq<Op>, g': Gate, grants: nat, quiet: nat, op: Op)
    requires Inv(g) && Inv(g') && Spends(g, ops, g', grants, quiet) && (op.Frame? || op.Reply?)
    ensures Spends(g, ops + [op], Step(g', op),
                   grants + (if Grants(g', op) then 1 else 0), quiet + if Quiets(g', op) then 1 else 0)
  {
    hide Grants, Step, Quiets;
    assert (ops + [op])[..|ops + [op]| - 1] == ops;
  }

  function Shot(thumbnail: Thumbnail): Op {
    Frame(thumbnail, 0.0, None, true)
  }

  const DOUBTFUL := Reply(false, true, false, 0.0)
  const NEGATIVE := Reply(false, false, false, 0.0)

  /** An episode is spent, with nothing left to grant until the scene has been quiet. */
  predicate Spent(g: Gate) {
    && Inv(g) && g.previous == Some(STILL) && g.pending == 0 && g.quiet == 0
    && !g.armed && !g.probing && g.emptyUntil.None?
  }

  /** A full episode: motion in an armed scene, a doubtful reply, and both samples it reserves. */
  lemma EpisodeSpends(g: Gate, ops: seq<Op>, armed: Gate, grants: nat, quiet: nat) returns (longer: seq<Op>,
      spent: Gate)
    requires Inv(g) && Inv(armed) && Spends(g, ops, armed, grants, quiet)
    requires armed.previous == Some(STILL) && armed.armed && armed.pending == 0 && !armed.probing
    ensures Spent(spent) && Spends(g, longer, spent, grants + 3, quiet)
  {
    ChangedEverywhere(576);
    hide Spends, Changed, Uniform;
    var s1 := Step(armed, Shot(MOVED));
    SpendsMore(g, ops, armed, grants, quiet, Shot(MOVED));
    longer := ops + [Shot(MOVED)];
    assert s1.previous == Some(MOVED) && s1.pending == 1 && !s1.retried && !s1.armed && !s1.probing;
    var s2 := Step(s1, DOUBTFUL);
    SpendsMore(g, longer, s1, grants + 1, quiet, DOUBTFUL);
    longer := longer + [DOUBTFUL];
    var s3 := Step(s2, Shot(STILL));
    SpendsMore(g, longer, s2, grants + 1, quiet, Shot(STILL));
    longer := longer + [Shot(STILL)];
    var s4 := Step(s3, Shot(MOVED));
    SpendsMore(g, longer, s3, grants + 2, quiet, Shot(MOVED));
    longer := longer + [Shot(MOVED)];
    spent := Step(s4, Shot(STILL));
    SpendsMore(g, longer, s4, grants + 3, quiet, Shot(STILL));
    longer := longer + [Shot(STILL)];
  }

  /** A probe whose negative reply comes after its second sample: two grants, and the scene is armed again. */
  lemma StartSpends(g: Gate) returns (ops: seq<Op>, armed: Gate)
    requires Inv(g) && g.previous.None?
    ensures Inv(armed) && Spends(g, ops, armed, 2, 0)
    ensures armed.previous == Some(STILL) && armed.armed && armed.pending == 0 && !armed.probing
  {
    ChangedEverywhere(576);
    SpendsNothing(g);
    hide Spends, Changed, Uniform;
    var s1 := Step(g, Shot(MOVED));
    SpendsMore(g, [], g, 0, 0, Shot(MOVED));
    ops := [] + [Shot(MOVED)];
    var s2 := Step(s1, Shot(STILL));
    SpendsMore(g, ops, s1, 1, 0, Shot(STILL));
    ops := ops + [Shot(STILL)];
    armed := Step(s2, NEGATIVE);
    SpendsMore(g, ops, s2, 2, 0, NEGATIVE);
    ops := ops + [NEGATIVE];
  }

  lemma QuietSpends(g: Gate, ops: seq<Op>, spent: Gate, grants: nat, quiet: nat) returns (longer: seq<Op>, armed: Gate)
    requires Inv(g) && Spent(spent) && Spends(g, ops, spent, grants, quiet)
    ensures Inv(armed) && Spends(g, longer, armed, grants, quiet + 3)
    ensures armed.previous == Some(STILL) && armed.armed && armed.pending == 0 && !armed.probing
  {
    ChangedNowhere(STILL);
    hide Spends, Changed, Uniform;
    var s1, s2 := Step(spent, Shot(STILL)), Step(Step(spent, Shot(STILL)), Shot(STILL));
    armed := Step(s2, Shot(STILL));
    SpendsMore(g, ops, spent, grants, quiet, Shot(STILL));
    SpendsMore(g, ops + [Shot(STILL)], s1, grants, quiet + 1, Shot(STILL));
    SpendsMore(g, ops + [Shot(STILL)] + [Shot(STILL)], s2, grants, quiet + 2, Shot(STILL));
    longer := ops + [Shot(STILL)] + [Shot(STILL)] + [Shot(STILL)];
  }

  lemma {:induction false} BoundIsReached(k: nat) returns (ops: seq<Op>, spent: Gate)
    ensures Spent(spent) && Spends(UNSEEN, ops, spent, 5 + 3 * k, 3 * k)
  {
    hide Spends, Step;
    if k == 0 {
      var start, armed := StartSpends(UNSEEN);
      ops, spent := EpisodeSpends(UNSEEN, start, armed, 2, 0);
    } else {
      var earlier, done := BoundIsReached(k - 1);
      var still, armed := QuietSpends(UNSEEN, earlier, done, 5 + 3 * (k - 1), 3 * (k - 1));
      ops, spent := EpisodeSpends(UNSEEN, still, armed, 5 + 3 * (k - 1), 3 * k);
    }
  }

  ghost predicate NeverGrantsMore(quiet: nat, bound: nat) {
    forall ops |
      Count(UNSEEN, ops, Quiets) <= quiet && Count(UNSEEN, ops, Resets) == 0 == Count(UNSEEN, ops, Denies)
      :: GrantsIn(UNSEEN, ops) <= bound
  }

  /** So `5 + 3 * (q / 3)` is the exact maximum over the runs with at most `q` quiet frames. */
  lemma ExactMaximum(q: nat, bound: nat)
    ensures NeverGrantsMore(q, bound) <==> 5 + 3 * (q / 3) <= bound
  {
    hide Count, Run;
    if 5 + 3 * (q / 3) <= bound {
      forall ops | Count(UNSEEN, ops, Quiets) <= q && Count(UNSEEN, ops, Resets) == 0 == Count(UNSEEN, ops, Denies)
        ensures GrantsIn(UNSEEN, ops) <= bound
      {
        GrantsWithinQuietFrames(ops);
      }
    } else {
      var ops, _ := BoundIsReached(q / 3);
      assert GrantsIn(UNSEEN, ops) > bound;
    }
  }
}
