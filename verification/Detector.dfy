/**
One call of the API detector: the gate, the pause, the allowance and the name lookup decide whether a
paid request is sent, and the reply decides what the gate and the pause become.

A call is given the clock readings it makes and the answers of everything outside it. `Detect` says
what it does to the camera's gate (`ops`) and to the state all cameras share (`after`).
*/
module Detector {
  import opened Options
  import opened MotionGate
  import opened ProviderPause

  datatype Config = Config(limit: Option<nat>, fallback: bool, remote: bool) {
    function Reserve(): nat {
      if limit.Some? then limit.value / 3 else 0
    }
  }

  datatype Code =
    | InvalidFrame | BudgetError
    | DnsUnavailable | DnsTimeout | AddressRefused | ResolverUnavailable
    | Http429 | Http5xx | RequestFailed | OtherFailure
    | ReplyInvalid | FallbackPaused | FallbackFailure | OverflowError

  /** Bytes that are not a JPEG file, a JPEG that cannot be decoded, or its reduced image. */
  datatype Picture = NotJpeg | Undecodable | Decoded(thumbnail: Thumbnail)
  datatype Lookups = Resolved | NotFound | TimedOut | BadAddress | NoResolver
  datatype Claim = Admitted | Denied | ClaimError
  /** A reply's text after parsing, scoring and the close-up checks. */
  datatype Answer = Rejected | Parsed(found: bool, near: bool, empty: bool)
  datatype Primary = Text(answer: Answer) | Fails(code: Code)
  datatype Local = LocalText(answer: Answer) | LocalFails

  datatype Input = Input(
    picture: Picture,
    captured: Option<nat>,
    entry: real, shot: real, pause: real, lookupAt: real, denied: real, failed: real,
    localAt: real, localFailed: real, replied: real, ended: real,   // clock readings, in this order
    allowanceAtEntry: Option<nat>, allowance: Option<nat>, allowanceAgain: Option<nat>, claim: Claim,
    lookup: Lookups, primary: Primary, local: Local)

  datatype Dns = Dns(okUntil: real, retryAt: real, code: Code)

  datatype Shared = Shared(provider: Pause, local: Pause, dns: Dns, budgetRetryAt: map<Camera, real>)

  const STARTED := Shared(Pause(0, 0.0), Pause(0, 0.0), Dns(0.0, 0.0, DnsUnavailable), map[])

  datatype Result = Nothing | Observations(retry: bool) | Raised(code: Code)

  /** What the shared state learns about the provider. */
  datatype Report = Silent | Success | Failure(at: real)

  datatype Course = Course(ops: seq<Op>, after: Shared, paid: bool, local: bool, report: Report, result: Result)

  /** Only a paid request reports on the provider, and its report is what the pause is computed from. */
  predicate Honest(d: Shared, input: Input, course: Course) {
    match course.report
    case Silent => course.after.provider == d.provider
    case Success => course.paid && course.after.provider == Succeeded(d.provider)
    case Failure(at) => course.paid && at == input.failed && course.after.provider == Failed(d.provider, at)
  }

  const FALLBACK_REASONS := {Http429, Http5xx, RequestFailed, DnsUnavailable, DnsTimeout}

  // ---- The name lookup ----

  /** The lookup's new state, and the error it raises if it does. */
  function CheckDns(cfg: Config, dns: Dns, now: real, lookup: Lookups): (Dns, Option<Code>) {
    if !cfg.remote then (dns, None)
    else if now < dns.retryAt then (dns, Some(dns.code))
    else if now < dns.okUntil then (dns, None)
    else match lookup
         case NotFound => (dns.(code := DnsUnavailable, retryAt := now + 60.0), Some(DnsUnavailable))
         case TimedOut => (dns.(code := DnsTimeout, retryAt := now + 60.0), Some(DnsTimeout))
         case BadAddress => (dns, Some(AddressRefused))
         case NoResolver => (dns, Some(ResolverUnavailable))
         case Resolved => (dns.(okUntil := now + 60.0), None)
  }

  // ---- After the reply ----

  function Negative(at: real): Op {
    Reply(false, false, false, at)
  }

  /** A reply that was received: the gate learns whether it holds an accepted object. */
  function Interpreted(g: Gate, d: Shared, answer: Answer, paid: bool, local: bool, report: Report,
      input: Input): (c: Course)
    ensures c.after == d && c.paid == paid && c.report == report && forall op <- c.ops :: op.Reply?
  {
    match answer
    case Rejected => Course([Negative(input.replied)], d, paid, local, report, Raised(ReplyInvalid))
    case Parsed(found, near, empty) =>
      var reply := Reply(found, near, empty, input.replied);
      Course([reply], d, paid, local, report, Observations(Retries(g, reply)))
  }

  function AskLocal(g: Gate, d: Shared, paid: bool, report: Report, input: Input): (c: Course)
    ensures c.after.provider == d.provider && c.paid == paid && c.report == report && forall op <- c.ops :: op.Reply?
  {
    if input.localAt < d.local.retryAt then
      Course([Negative(input.replied)], d, paid, false, report, Raised(FallbackPaused))
    else match input.local
         case LocalFails =>
           Course([Negative(input.replied)], d.(local := FallbackFailed(d.local, input.localFailed)), paid, true,
               report, Raised(FallbackFailure))
         case LocalText(answer) =>
           Interpreted(g, d.(local := Succeeded(d.local)), answer, paid, true, report, input)
  }

  function DnsLost(d: Shared, code: Code, now: real): Shared {
    if code in {DnsUnavailable, DnsTimeout} then d.(dns := Dns(0.0, now + 60.0, code)) else d
  }

  function AskProvider(cfg: Config, g: Gate, d: Shared, input: Input): (c: Course)
    ensures Honest(d, input, c) && forall op <- c.ops :: op.Reply?
  {
    match input.primary
    case Text(answer) => Interpreted(g, d.(provider := Succeeded(d.provider)), answer, true, false, Success, input)
    case Fails(code) =>
      var counted := code != DnsUnavailable;
      var report := if counted then Failure(input.failed) else Silent;
      var d' := if counted then d.(provider := Failed(d.provider, input.failed)) else d;
      if counted && Overflows(d.provider) then Course([], d', true, false, report, Raised(OverflowError))
      else if cfg.fallback && code in FALLBACK_REASONS then AskLocal(g, d', true, report, input)
      else Course([Negative(input.replied)], DnsLost(d', code, input.ended), true, false, report, Raised(code))
  }

  // ---- Before the request ----

  function Stops(ops: seq<Op>, d: Shared, result: Result): Course {
    Course(ops, d, false, false, Silent, result)
  }

  function ClaimRequest(cfg: Config, camera: Camera, g: Gate, d: Shared, input: Input): (c: Course)
    ensures Honest(d, input, c)
  {
    if cfg.limit.None? || input.claim.Admitted? then AskProvider(cfg, g, d, input)
    else if input.claim.ClaimError? then Stops([], d, Raised(BudgetError))
    else if cfg.fallback then AskLocal(g, d, false, Silent, input)
    else Stops([WaitForMotion], d.(budgetRetryAt := Put(d.budgetRetryAt, camera, input.denied + 60.0)), Nothing)
  }

  function LookUp(cfg: Config, camera: Camera, g: Gate, d: Shared, input: Input): (c: Course)
    ensures Honest(d, input, c)
  {
    var (dns, error) := CheckDns(cfg, d.dns, input.lookupAt, input.lookup);
    var d' := d.(dns := dns);
    if error.None? then ClaimRequest(cfg, camera, g, d', input)
    else if error.value == DnsUnavailable && cfg.fallback then AskLocal(g, d', false, Silent, input)
    else Stops([Reset], d', Raised(error.value))
  }

  /** A granted frame: `g` is the gate after the grant. */
  function Route(cfg: Config, camera: Camera, g: Gate, d: Shared, input: Input): (c: Course)
    ensures Honest(d, input, c)
    ensures c.paid ==> d.provider.retryAt <= input.pause
  {
    if input.pause < d.provider.retryAt then
      if cfg.fallback then AskLocal(g, d, false, Silent, input) else Stops([Defer], d, Nothing)
    else if cfg.limit.Some? && IsRefresh(g) && input.allowance.None? then
      Stops([], d, Raised(BudgetError))
    else if cfg.limit.Some? && IsRefresh(g) && input.allowance.value <= cfg.Reserve() && cfg.fallback then
      AskLocal(g, d, false, Silent, input)
    else if cfg.limit.Some? && IsRefresh(g) && input.allowanceAgain.None? then
      Stops([], d, Raised(BudgetError))
    else if cfg.limit.Some? && IsRefresh(g) && input.allowanceAgain.value <= cfg.Reserve() then
      Stops([Defer], d, Nothing)
    else
      LookUp(cfg, camera, g, d, input)
  }

  function FrameOp(cfg: Config, g: Gate, input: Input): Op
    requires input.picture.Decoded?
  {
    Frame(input.picture.thumbnail, input.shot, input.captured,
          cfg.limit.None? || g.previous.Some? || input.allowanceAtEntry == cfg.limit)
  }

  function Detect(cfg: Config, camera: Camera, g: Gate, d: Shared, input: Input): Course
    requires Inv(g)
  {
    if input.picture.NotJpeg? then Stops([], d, Raised(InvalidFrame))
    else if !cfg.fallback && input.entry < GetOr(d.budgetRetryAt, camera, 0.0) then Stops([], d, Nothing)
    else if cfg.limit.Some? && g.previous.None? && input.allowanceAtEntry.None? then Stops([], d, Raised(BudgetError))
    else if input.picture.Undecodable? then Stops([], d, Raised(InvalidFrame))
    else
      var frame := FrameOp(cfg, g, input);
      if !Grants(g, frame) then Stops([frame], d, Nothing)
      else
        var rest := Route(cfg, camera, Step(g, frame), d, input);
        rest.(ops := [frame] + rest.ops)
  }

  // ---- Runs over all cameras ----

  datatype Call = OnFrame(camera: Camera, input: Input) | SkipConfirmation(camera: Camera)

  /** The operations on each gate, the shared state, the paid requests by camera, and the failures since the last
      success. */
  datatype History = History(ops: map<Camera, seq<Op>>, shared: Shared, paid: map<Camera, nat>, outage: seq<real>)

  const BEFORE := History(map[], STARTED, map[], [])

  function OpsOf(h: History, camera: Camera): seq<Op> {
    GetOr(h.ops, camera, [])
  }

  function PaidBy(h: History, camera: Camera): nat {
    GetOr(h.paid, camera, 0)
  }

  function Outage(outage: seq<real>, report: Report): seq<real> {
    match report
    case Silent => outage
    case Success => []
    case Failure(at) => outage + [at]
  }

  function CourseOf(cfg: Config, h: History, call: Call): Course
    requires call.OnFrame?
  {
    Detect(cfg, call.camera, Run(UNSEEN, OpsOf(h, call.camera)), h.shared, call.input)
  }

  function After(cfg: Config, h: History, call: Call): History {
    match call
    case SkipConfirmation(camera) => h.(ops := Put(h.ops, camera, OpsOf(h, camera) + [Cancel]))
    case OnFrame(camera, input) =>
      var course := CourseOf(cfg, h, call);
      History(Put(h.ops, camera, OpsOf(h, camera) + course.ops), course.after,
              Put(h.paid, camera, PaidBy(h, camera) + if course.paid then 1 else 0), Outage(h.outage, course.report))
  }

  function Play(cfg: Config, calls: seq<Call>): History {
    if calls == [] then BEFORE else After(cfg, Play(cfg, calls[..|calls| - 1]), calls[|calls| - 1])
  }

  /** The clock does not run backwards between the look at the pause and a failure. */
  predicate Ordered(calls: seq<Call>) {
    forall call <- calls :: call.OnFrame? ==> call.input.pause <= call.input.failed
  }

  /** A request is sent only for a granted frame, outside the pause; and only such a request can be counted as a
      failure. */
  lemma CourseFacts(cfg: Config, camera: Camera, g: Gate, d: Shared, input: Input)
    requires Inv(g)
    ensures var course := Detect(cfg, camera, g, d, input);
            && Honest(d, input, course)
            && (course.paid ==> d.provider.retryAt <= input.pause && GrantsIn(g, course.ops) >= 1)
  {
    hide Step, Grants, Run, Inv, Route;
    var course := Detect(cfg, camera, g, d, input);
    if course.ops != [] {
      FirstCount(g, course.ops, Grants);
    }
  }

  lemma NoFailureIsPaced()
    ensures Paced([], STARTED.provider)
  {
  }

  lemma SuccessIsPaced(p: Pause)
    ensures Paced([], Succeeded(p))
  {
  }

  /** The failures of an outage keep the pauses between them, over all cameras and whatever else happens. */
  lemma {:induction false} OutageIsPaced(cfg: Config, calls: seq<Call>)
    requires Ordered(calls)
    ensures Paced(Play(cfg, calls).outage, Play(cfg, calls).shared.provider)
  {
    hide Detect, Failed, Paced;
    if calls == [] {
      NoFailureIsPaced();
    } else {
      var h, call := Play(cfg, calls[..|calls| - 1]), calls[|calls| - 1];
      OutageIsPaced(cfg, calls[..|calls| - 1]);
      if call.OnFrame? {
        CourseFacts(cfg, call.camera, Run(UNSEEN, OpsOf(h, call.camera)), h.shared, call.input);
        match CourseOf(cfg, h, call).report {
          case Silent =>
          case Success => SuccessIsPaced(h.shared.provider);
          case Failure(at) => FailedKeepsPaced(h.outage, h.shared.provider, at);
        }
      }
    }
  }

  /** So the k-th failure of an outage comes at least so long after the first, for every k up to 1025. */
  lemma FailuresAreSpaced(cfg: Config, calls: seq<Call>, k: nat)
    requires Ordered(calls) && 0 < k <= |Play(cfg, calls).outage| && k <= OVERFLOW_EXPONENT + 1
    ensures Play(cfg, calls).outage[k - 1] - Play(cfg, calls).outage[0] >= Waited(k - 1)
    ensures k >= 7 ==> Waited(k - 1) == 315.0 + 300.0 * (k - 7) as real
  {
    hide Play, Waited;
    OutageIsPaced(cfg, calls);
    OutageIsSpaced(Play(cfg, calls).outage, Play(cfg, calls).shared.provider, k);
    if k >= 7 {
      WaitedInClosedForm(k - 1);
    }
  }

  /** No camera's gate is touched by another camera's calls, and each paid request used up one grant. */
  lemma {:induction false} PaidWithinGrants(cfg: Config, calls: seq<Call>, camera: Camera)
    ensures PaidBy(Play(cfg, calls), camera) <= GrantsIn(UNSEEN, OpsOf(Play(cfg, calls), camera))
  {
    hide Detect, Step, Grants, Count, Run;
    if calls == [] {
      assert PaidBy(Play(cfg, calls), camera) == 0;
    } else {
      var h, call := Play(cfg, calls[..|calls| - 1]), calls[|calls| - 1];
      PaidWithinGrants(cfg, calls[..|calls| - 1], camera);
      if call.camera == camera {
        var ops := OpsOf(h, camera);
        var more := if call.OnFrame? then CourseOf(cfg, h, call).ops else [Cancel];
        SplitCount(UNSEEN, ops, more, Grants);
        if call.OnFrame? {
          CourseFacts(cfg, camera, Run(UNSEEN, ops), h.shared, call.input);
        }
      }
    }
  }

  /** The paid requests of a camera, bounded by its quiet frames, its failed lookups and its denied allowances. */
  lemma PaidWithinQuietFrames(cfg: Config, calls: seq<Call>, camera: Camera)
    ensures var ops := OpsOf(Play(cfg, calls), camera);
            PaidBy(Play(cfg, calls), camera)
              <= 5 + 3 * (Count(UNSEEN, ops, Quiets) / 3) + 5 * Count(UNSEEN, ops, Resets) + 3 * Count(UNSEEN, ops,
                  Denies)
  {
    hide Play, Count;
    PaidWithinGrants(cfg, calls, camera);
    GrantsWithinQuietFrames(OpsOf(Play(cfg, calls), camera));
  }

  lemma LookupNeedsRemote(cfg: Config, dns: Dns, now: real, lookup: Lookups)
    ensures CheckDns(cfg, dns, now, lookup).1.Some? ==> cfg.remote
  {
  }

  /** Only a failed lookup resets a gate, and only an allowance denied without a fallback makes it wait. */
  lemma CourseResets(cfg: Config, camera: Camera, g: Gate, d: Shared, input: Input)
    requires Inv(g)
    ensures forall op <- Detect(cfg, camera, g, d, input).ops ::
              && (op == Reset ==> cfg.remote)
              && (op == WaitForMotion ==> cfg.limit.Some? && !cfg.fallback)
  {
    hide Step, Grants, IsRefresh, Retries, AskLocal, AskProvider, Honest, CheckDns, Put;
    LookupNeedsRemote(cfg, d.dns, input.lookupAt, input.lookup);
  }

  lemma {:induction false} NoneCounted(g: Gate, ops: seq<Op>, op: Op, p: (Gate, Op) -> bool)
    requires Inv(g) && op !in ops && forall g', op' :: p(g', op') ==> op' == op
    ensures Count(g, ops, p) == 0
  {
    if ops != [] {
      NoneCounted(g, ops[..|ops| - 1], op, p);
      assert ops[|ops| - 1] in ops;
    }
  }

  lemma {:induction false} PlayResets(cfg: Config, calls: seq<Call>, camera: Camera)
    ensures !cfg.remote ==> Reset !in OpsOf(Play(cfg, calls), camera)
    ensures cfg.limit.None? || cfg.fallback ==> WaitForMotion !in OpsOf(Play(cfg, calls), camera)
  {
    hide Detect, Step, Run;
    if calls != [] {
      var h, call := Play(cfg, calls[..|calls| - 1]), calls[|calls| - 1];
      PlayResets(cfg, calls[..|calls| - 1], camera);
      if call.OnFrame? {
        CourseResets(cfg, call.camera, Run(UNSEEN, OpsOf(h, call.camera)), h.shared, call.input);
      }
    }
  }

  /** With an endpoint that needs no lookup, and no cap or a fallback, quiet frames alone bound the paid requests. */
  lemma PaidWithoutDenials(cfg: Config, calls: seq<Call>, camera: Camera)
    requires !cfg.remote && (cfg.limit.None? || cfg.fallback)
    ensures PaidBy(Play(cfg, calls), camera) <= 5 + 3 * (Count(UNSEEN, OpsOf(Play(cfg, calls), camera), Quiets) / 3)
  {
    hide Play, Count;
    var ops := OpsOf(Play(cfg, calls), camera);
    PlayResets(cfg, calls, camera);
    NoneCounted(UNSEEN, ops, Reset, Resets);
    NoneCounted(UNSEEN, ops, WaitForMotion, Denies);
    PaidWithinQuietFrames(cfg, calls, camera);
  }

  // ---- Failure 1026 of an outage ----

  function Name(i: nat): (name: Camera)
    ensures |name| == i
  {
    if i == 0 then "" else Name(i - 1) + "a"
  }

  /** The earliest time of failure `i + 1` of an outage: the pauses stop growing once they cannot be computed. */
  function Earliest(i: nat): (t: real)
    ensures t >= 0.0
  {
    if i == 0 then 0.0 else Earliest(i - 1) + if i <= OVERFLOW_EXPONENT then Delay(BACKOFF_FIRST, i) else 0.0
  }

  function Knock(i: nat): Call {
    var t := Earliest(i);
    OnFrame(Name(i), Input(Decoded(STILL), None, t, t, t, t, t, t, t, t, t, t, None, None, None, Admitted, Resolved,
        Fails(OtherFailure), LocalFails))
  }

  /** The first frame of one camera after another, each as early as the pause allows and failing at once. */
  function Burst(n: nat): seq<Call> {
    if n == 0 then [] else Burst(n - 1) + [Knock(n - 1)]
  }

  const PLAIN := Config(None, false, false)

  ghost predicate Struck(h: History, n: nat) {
    && h.shared.provider.failures == n == |h.outage|
    && h.shared.provider.retryAt <= Earliest(n)
    && h.shared.budgetRetryAt == map[]
    && (forall i :: 0 <= i < n ==> h.outage[i] == Earliest(i))
    && (forall i :: i >= n ==> Name(i) !in h.ops)
  }

  lemma FirstFrameGrants(thumbnail: Thumbnail, now: real)
    ensures Grants(UNSEEN, Frame(thumbnail, now, None, true))
  {
  }

  lemma KnockFails(h: History, n: nat)
    requires Struck(h, n)
    ensures CourseOf(PLAIN, h, Knock(n)).report == Failure(Earliest(n))
    ensures CourseOf(PLAIN, h, Knock(n)).after.provider == Failed(h.shared.provider, Earliest(n))
    ensures CourseOf(PLAIN, h, Knock(n)).after.budgetRetryAt == map[]
  {
    hide Earliest, Failed, Step, Grants, Retries, Name, Uniform;
    FirstFrameGrants(STILL, Earliest(n));
    assert OpsOf(h, Name(n)) == [];
    assert Run(UNSEEN, []) == UNSEEN;
  }

  lemma KnockCall(i: nat)
    ensures Knock(i).OnFrame? && Knock(i).camera == Name(i) && Knock(i).input.pause <= Knock(i).input.failed
  {
    hide Earliest, Uniform;
  }

  lemma KnockStrikes(h: History, n: nat)
    requires Struck(h, n)
    ensures Struck(After(PLAIN, h, Knock(n)), n + 1)
  {
    hide CourseOf, Delay, Knock, Name;
    KnockFails(h, n);
    KnockCall(n);
    var h' := After(PLAIN, h, Knock(n));
    assert h'.outage == h.outage + [Earliest(n)];
    forall i | i >= n + 1 ensures Name(i) !in h'.ops {
      assert Name(i) != Name(n);
    }
  }

  lemma {:induction false} BurstStrikes(n: nat)
    ensures Struck(Play(PLAIN, Burst(n)), n) && Ordered(Burst(n))
  {
    hide After, Knock;
    if n == 0 {
      assert Play(PLAIN, Burst(n)) == BEFORE;
    } else {
      BurstStrikes(n - 1);
      KnockStrikes(Play(PLAIN, Burst(n - 1)), n - 1);
      KnockCall(n - 1);
      assert Burst(n)[..|Burst(n)| - 1] == Burst(n - 1);
    }
  }

  lemma {:induction false} EarliestIsWaited(i: nat)
    ensures Earliest(i) == if i <= OVERFLOW_EXPONENT then Waited(i) else Waited(OVERFLOW_EXPONENT)
  {
    hide Delay;
    if i > 0 {
      EarliestIsWaited(i - 1);
    }
  }

  lemma {:induction false} WaitedGrows(a: nat, b: nat)
    requires a < b
    ensures Waited(a) < Waited(b)
  {
    assert Delay(BACKOFF_FIRST, b) > 0.0;
    if a < b - 1 {
      WaitedGrows(a, b - 1);
    }
  }

  ghost predicate AlwaysSpaced(k: nat)
    requires k > 0
  {
    forall cfg, calls | Ordered(calls) && |Play(cfg, calls).outage| >= k ::
      Play(cfg, calls).outage[k - 1] - Play(cfg, calls).outage[0] >= Waited(k - 1)
  }

  /** The pauses space the k-th failure of every outage in every run if and only if k is at most 1025. */
  lemma SpacedIffNoOverflow(k: nat)
    requires k > 0
    ensures AlwaysSpaced(k) <==> k <= OVERFLOW_EXPONENT + 1
  {
    hide Play, Waited;
    if k <= OVERFLOW_EXPONENT + 1 {
      forall cfg, calls | Ordered(calls) && |Play(cfg, calls).outage| >= k
        ensures Play(cfg, calls).outage[k - 1] - Play(cfg, calls).outage[0] >= Waited(k - 1)
      {
        FailuresAreSpaced(cfg, calls, k);
      }
    } else {
      BurstStrikes(k);
      EarliestIsWaited(k - 1);
      EarliestIsWaited(0);
      WaitedGrows(OVERFLOW_EXPONENT, k - 1);
      WaitedGrows(0, 1);
      assert Play(PLAIN, Burst(k)).outage[k - 1] - Play(PLAIN, Burst(k)).outage[0] < Waited(k - 1);
    }
  }
}
