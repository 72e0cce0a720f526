/**
What a call of the detector comes to, told from its inputs alone: which of the two requests is made, what the
gate hears, and what is kept of it.
*/
module DetectorAnswers {
  import opened Options
  import opened MotionGate
  import opened ProviderPause
  import opened Detector

  // ---- Pauses in seconds ----

  /** The pause after failure number `n` in a row of the paid provider. */
  function PaidPause(n: nat): real {
    match n
    case 0 => 0.0
    case 1 => 5.0
    case 2 => 10.0
    case 3 => 20.0
    case 4 => 40.0
    case 5 => 80.0
    case 6 => 160.0
    case _ => 300.0
  }

  /** The pause after failure number `n` in a row of the local fallback. */
  function LocalPause(n: nat): real {
    match n
    case 0 => 0.0
    case 1 => 30.0
    case 2 => 60.0
    case 3 => 120.0
    case 4 => 240.0
    case _ => 300.0
  }

  lemma {:induction false} PowerGrows(e: nat, low: nat)
    requires low <= e
    ensures Power(e) >= Power(low)
  {
    if low < e {
      PowerGrows(e - 1, low);
    }
  }

  lemma PausesMean(n: nat)
    requires n > 0
    ensures Delay(BACKOFF_FIRST, n) == PaidPause(n)
    ensures Delay(FALLBACK_FIRST, n) == LocalPause(n)
  {
    assert Power(2) == 4 && Power(3) == 8;
    assert Power(4) == 16 && Power(5) == 32 && Power(6) == 64;
    if n >= 7 {
      PowerGrows(n - 1, 6);
    }
  }

  // ---- How far a granted frame gets ----

  predicate Paused(d: Shared, input: Input) {
    input.pause < d.provider.retryAt
  }

  /** The first request of a pair for a scene that was already moving looks at what is left of the allowance. */
  predicate ReadsAllowance(cfg: Config, g: Gate, d: Shared, input: Input) {
    !Paused(d, input) && cfg.limit.Some? && g.pending == 1 && g.novel == Some(false)
  }

  /** No more is left than the third kept for new scenes. */
  predicate AtReserve(cfg: Config, left: Option<nat>) {
    cfg.limit.Some? && left.Some? && left.value <= cfg.limit.value / 3
  }

  predicate LooksUp(cfg: Config, g: Gate, d: Shared, input: Input) {
    && !Paused(d, input)
    && (ReadsAllowance(cfg, g, d, input) ==>
          && input.allowance.Some? && input.allowanceAgain.Some?
          && !(cfg.fallback && AtReserve(cfg, input.allowance)) && !AtReserve(cfg, input.allowanceAgain))
  }

  /** A lookup is made: the endpoint has a name, and no earlier answer still stands. */
  predicate Resolves(cfg: Config, d: Shared, input: Input) {
    cfg.remote && input.lookupAt >= d.dns.retryAt && input.lookupAt >= d.dns.okUntil
  }

  predicate LookupFails(cfg: Config, d: Shared, input: Input, code: Code) {
    || (cfg.remote && input.lookupAt < d.dns.retryAt && code == d.dns.code)
    || (&& Resolves(cfg, d, input)
        && match input.lookup
           case Resolved => false
           case NotFound => code == DnsUnavailable
           case TimedOut => code == DnsTimeout
           case BadAddress => code == AddressRefused
           case NoResolver => code == ResolverUnavailable)
  }

  predicate LookupWorks(cfg: Config, d: Shared, input: Input) {
    !cfg.remote || (input.lookupAt >= d.dns.retryAt && (input.lookupAt < d.dns.okUntil || input.lookup == Resolved))
  }

  /** What the lookup leaves: an answer and a missing or late one stand for a minute. */
  function LookupLeaves(cfg: Config, d: Shared, input: Input): Dns {
    if !Resolves(cfg, d, input) then d.dns
    else match input.lookup
         case Resolved => d.dns.(okUntil := input.lookupAt + 60.0)
         case NotFound => Dns(d.dns.okUntil, input.lookupAt + 60.0, DnsUnavailable)
         case TimedOut => Dns(d.dns.okUntil, input.lookupAt + 60.0, DnsTimeout)
         case BadAddress => d.dns
         case NoResolver => d.dns
  }

  /** The paid request is made. */
  predicate Pays(cfg: Config, g: Gate, d: Shared, input: Input) {
    LooksUp(cfg, g, d, input) && LookupWorks(cfg, d, input) && (cfg.limit.None? || input.claim == Admitted)
  }

  /** The fallback is to answer in place of the paid provider: in a pause, at the reserve, without a name, or denied. */
  predicate StandsIn(cfg: Config, g: Gate, d: Shared, input: Input) {
    && cfg.fallback
    && (|| Paused(d, input)
        || (ReadsAllowance(cfg, g, d, input) && AtReserve(cfg, input.allowance))
        || (LooksUp(cfg, g, d, input) && LookupFails(cfg, d, input, DnsUnavailable))
        || (LooksUp(cfg, g, d, input) && LookupWorks(cfg, d, input) && cfg.limit.Some? && input.claim == Denied))
  }

  /** The failures of a paid request that the fallback takes over. */
  predicate TakesOver(cfg: Config, d: Shared, input: Input) {
    && cfg.fallback && input.primary.Fails?
    && input.primary.code in {Http429, Http5xx, RequestFailed, DnsUnavailable, DnsTimeout}
    && (d.provider.failures < 1024 || input.primary.code == DnsUnavailable)
  }

  // ---- What a request comes to ----

  /** A text was received: the gate hears what it says, and a text that cannot be used counts as nothing found. */
  predicate Heard(g: Gate, input: Input, answer: Answer, ops: seq<Op>, result: Result) {
    match answer
    case Rejected => ops == [Reply(false, false, false, input.replied)] && result == Raised(ReplyInvalid)
    case Parsed(found, near, empty) =>
      && ops == [Reply(found, near, empty, input.replied)]
      && result == Observations(!found && near && g.pending == 1 && !g.retried)
  }

  predicate HeardError(input: Input, code: Code, ops: seq<Op>, result: Result) {
    ops == [Reply(false, false, false, input.replied)] && result == Raised(code)
  }

  /** The fallback is asked unless its own pause is on. */
  predicate AskedLocally(g: Gate, d: Shared, input: Input, c: Course) {
    && c.local == (input.localAt >= d.local.retryAt)
    && if !c.local then HeardError(input, FallbackPaused, c.ops, c.result) && c.after.local == d.local
       else match input.local
            case LocalFails =>
              && HeardError(input, FallbackFailure, c.ops, c.result)
              && c.after.local.failures == d.local.failures + 1
              && c.after.local.retryAt == input.localFailed + LocalPause(d.local.failures + 1)
            case LocalText(answer) =>
              && Heard(g, input, answer, c.ops, c.result)
              && c.after.local == Pause(0, d.local.retryAt)
  }

  /** What the paid provider's pause becomes: a text ends the outage, a failure is counted unless a name was missing. */
  predicate PauseAfter(d: Shared, input: Input, p: Pause) {
    match input.primary
    case Text(_) => p == Pause(0, d.provider.retryAt)
    case Fails(code) =>
      if code == DnsUnavailable then p == d.provider
      else && p.failures == d.provider.failures + 1
           && p.retryAt == if d.provider.failures >= 1024 then d.provider.retryAt
                           else input.failed + PaidPause(d.provider.failures + 1)
  }

  /** The paid request is made, and the fallback after it for the failures it takes over. */
  predicate AskedPaid(cfg: Config, g: Gate, d: Shared, input: Input, c: Course) {
    && c.paid && PauseAfter(d, input, c.after.provider)
    && c.report == (if input.primary.Text? then Success
                    else if input.primary.code == DnsUnavailable then Silent else Failure(input.failed))
    && if TakesOver(cfg, d, input) then AskedLocally(g, d, input, c) && c.after.dns == d.dns
       else && !c.local && c.after.local == d.local
            && match input.primary
               case Text(answer) => Heard(g, input, answer, c.ops, c.result) && c.after.dns == d.dns
               case Fails(code) =>
                 if d.provider.failures >= 1024 && code != DnsUnavailable then
                   c.ops == [] && c.result == Raised(OverflowError) && c.after.dns == d.dns
                 else && HeardError(input, code, c.ops, c.result)
                      && c.after.dns == if code == DnsUnavailable || code == DnsTimeout
                                        then Dns(0.0, input.ended + 60.0, code) else d.dns
  }

  /** No request: only the lookup and a denied allowance leave anything behind. */
  predicate NotAsked(cfg: Config, g: Gate, d: Shared, input: Input, c: Course) {
    && !c.local && c.after.local == d.local
    && if Paused(d, input) then c.ops == [Defer] && c.result == Nothing
       else if !LooksUp(cfg, g, d, input) then
         if input.allowance.None? || input.allowanceAgain.None? then c.ops == [] && c.result == Raised(BudgetError)
         else c.ops == [Defer] && c.result == Nothing
       else if !LookupWorks(cfg, d, input) then
         c.ops == [Reset] && c.result.Raised? && LookupFails(cfg, d, input, c.result.code)
       else if input.claim == ClaimError then c.ops == [] && c.result == Raised(BudgetError)
       else c.ops == [WaitForMotion] && c.result == Nothing
  }

  /** The allowance is claimed and denied. */
  predicate Refused(cfg: Config, g: Gate, d: Shared, input: Input) {
    LooksUp(cfg, g, d, input) && LookupWorks(cfg, d, input) && cfg.limit.Some? && input.claim == Denied
  }

  /** The shared state a request finds: no request is made before the lookup. */
  function AtRequest(cfg: Config, g: Gate, d: Shared, input: Input): Shared {
    if LooksUp(cfg, g, d, input) then d.(dns := LookupLeaves(cfg, d, input)) else d
  }

  /** A frame that was granted; `g` is the gate after it, and `c` what is done then. */
  predicate Served(cfg: Config, camera: Camera, g: Gate, d: Shared, input: Input, c: Course) {
    var d' := AtRequest(cfg, g, d, input);
    && (if Pays(cfg, g, d, input) then AskedPaid(cfg, g, d', input, c)
        else
          && c.after.provider == d.provider && c.after.dns == d'.dns && !c.paid && c.report == Silent
          && if StandsIn(cfg, g, d, input) then AskedLocally(g, d', input, c) else NotAsked(cfg, g, d, input, c))
    && c.after.budgetRetryAt ==
         if Refused(cfg, g, d, input) && !cfg.fallback
         then d.budgetRetryAt[camera := input.denied + 60.0] else d.budgetRetryAt
  }

  // ---- The request ----

  lemma LocalMeans(g: Gate, d: Shared, paid: bool, report: Report, input: Input)
    ensures AskedLocally(g, d, input, AskLocal(g, d, paid, report, input))
    ensures var c := AskLocal(g, d, paid, report, input);
            c.after == d.(local := c.after.local) && c.paid == paid && c.report == report
  {
    PausesMean(d.local.failures + 1);
    hide Delay, LocalPause, PaidPause;
  }

  lemma PaidMeans(cfg: Config, g: Gate, d: Shared, input: Input)
    ensures AskedPaid(cfg, g, d, input, AskProvider(cfg, g, d, input))
    ensures AskProvider(cfg, g, d, input).after.budgetRetryAt == d.budgetRetryAt
  {
    PausesMean(d.provider.failures + 1);
    if input.primary.Fails? {
      var counted := input.primary.code != DnsUnavailable;
      LocalMeans(g, if counted then d.(provider := Failed(d.provider, input.failed)) else d, true,
                 if counted then Failure(input.failed) else Silent, input);
    }
    hide Delay, LocalPause, PaidPause, AskLocal;
  }

  // ---- Up to the request ----

  lemma LookupMeans(cfg: Config, d: Shared, input: Input)
    ensures var (dns, error) := CheckDns(cfg, d.dns, input.lookupAt, input.lookup);
            && dns == LookupLeaves(cfg, d, input)
            && (error.None? <==> LookupWorks(cfg, d, input))
            && forall code :: error == Some(code) <==> LookupFails(cfg, d, input, code)
  {
  }

  /** From the claim on: the allowance is looked at no more. */
  lemma ClaimMeans(cfg: Config, camera: Camera, g: Gate, d: Shared, input: Input)
    ensures var c := ClaimRequest(cfg, camera, g, d, input);
            if cfg.limit.None? || input.claim == Admitted then
              AskedPaid(cfg, g, d, input, c) && c.after.budgetRetryAt == d.budgetRetryAt
            else
              && c.after.provider == d.provider && c.after.dns == d.dns && !c.paid && c.report == Silent
              && (if input.claim == Denied && cfg.fallback then AskedLocally(g, d, input, c)
                  else && !c.local && c.after.local == d.local
                       && if input.claim == ClaimError then c.ops == [] && c.result == Raised(BudgetError)
                          else c.ops == [WaitForMotion] && c.result == Nothing)
              && c.after.budgetRetryAt == if input.claim == Denied && !cfg.fallback
                                          then d.budgetRetryAt[camera := input.denied + 60.0] else d.budgetRetryAt
  {
    PaidMeans(cfg, g, d, input);
    LocalMeans(g, d, false, Silent, input);
    hide AskProvider, AskLocal, AskedPaid, AskedLocally;
  }

  lemma LookUpMeans(cfg: Config, camera: Camera, g: Gate, d: Shared, input: Input)
    requires LooksUp(cfg, g, d, input)
    ensures Served(cfg, camera, g, d, input, LookUp(cfg, camera, g, d, input))
  {
    LookupMeans(cfg, d, input);
    var d' := AtRequest(cfg, g, d, input);
    ClaimMeans(cfg, camera, g, d', input);
    LocalMeans(g, d', false, Silent, input);
    hide ClaimRequest, AskLocal, AskedPaid, AskedLocally, CheckDns, LookupWorks, LookupFails, LookupLeaves;
  }

  lemma RouteMeans(cfg: Config, camera: Camera, g: Gate, d: Shared, input: Input)
    ensures Served(cfg, camera, g, d, input, Route(cfg, camera, g, d, input))
  {
    LocalMeans(g, d, false, Silent, input);
    if LooksUp(cfg, g, d, input) {
      LookUpMeans(cfg, camera, g, d, input);
    }
    hide LookUp, AskLocal, AskedPaid, AskedLocally, LookupWorks, LookupFails, LookupLeaves;
  }

  // ---- The whole call ----

  /** A denied camera without a fallback is not looked at for a minute. */
  predicate Waits(cfg: Config, camera: Camera, d: Shared, input: Input) {
    !cfg.fallback && input.entry < if camera in d.budgetRetryAt then d.budgetRetryAt[camera] else 0.0
  }

  /** The frame as the gate sees it: a probe only with the allowance still whole, and with it unread once there is a
      baseline. */
  function Shown(cfg: Config, g: Gate, input: Input): Op
    requires input.picture.Decoded?
  {
    Frame(input.picture.thumbnail, input.shot, input.captured,
          cfg.limit.None? || g.previous.Some? || input.allowanceAtEntry == cfg.limit)
  }

  /** The call does not get to the gate. */
  predicate TurnedAway(cfg: Config, camera: Camera, g: Gate, d: Shared, input: Input) {
    || !input.picture.Decoded? || Waits(cfg, camera, d, input)
    || (cfg.limit.Some? && g.previous.None? && input.allowanceAtEntry.None?)
  }

  predicate Told(cfg: Config, camera: Camera, g: Gate, d: Shared, input: Input, c: Course)
    requires Inv(g)
  {
    if TurnedAway(cfg, camera, g, d, input) then
      && c == Course([], d, false, false, Silent, c.result)
      && c.result == (if input.picture == NotJpeg then Raised(InvalidFrame)
                      else if Waits(cfg, camera, d, input) then Nothing
                      else if cfg.limit.Some? && g.previous.None? && input.allowanceAtEntry.None?
                      then Raised(BudgetError) else Raised(InvalidFrame))
    else if !Grants(g, Shown(cfg, g, input)) then
      c == Course([Shown(cfg, g, input)], d, false, false, Silent, Nothing)
    else
      && c.ops != [] && c.ops[0] == Shown(cfg, g, input)
      && Served(cfg, camera, Step(g, Shown(cfg, g, input)), d, input, c.(ops := c.ops[1..]))
  }

  /** Every call on every gate comes to exactly this. */
  lemma DetectMeans(cfg: Config, camera: Camera, g: Gate, d: Shared, input: Input)
    requires Inv(g)
    ensures Told(cfg, camera, g, d, input, Detect(cfg, camera, g, d, input))
  {
    if !TurnedAway(cfg, camera, g, d, input) && Grants(g, Shown(cfg, g, input)) {
      var g' := Step(g, Shown(cfg, g, input));
      RouteMeans(cfg, camera, g', d, input);
      var rest := Route(cfg, camera, g', d, input).ops;
      assert ([Shown(cfg, g, input)] + rest)[1..] == rest;
    }
    hide Route, Served, Step, Inv, Grants;
  }

  lemma PaysOrStandsIn(cfg: Config, g: Gate, d: Shared, input: Input)
    ensures !(Pays(cfg, g, d, input) && StandsIn(cfg, g, d, input))
  {
  }

  /**
  After a grant with a fallback: in a pause, at the reserve, without a name or with a denied claim the fallback is
  asked if and only if its own pause is over, what it says is the result, and the gate is told of a reply and never
  deferred, reset or armed.
  */
  lemma FallbackStandsIn(cfg: Config, camera: Camera, g: Gate, d: Shared, input: Input)
    requires Inv(g) && !TurnedAway(cfg, camera, g, d, input) && Grants(g, Shown(cfg, g, input))
    requires StandsIn(cfg, Step(g, Shown(cfg, g, input)), d, input)
    ensures var c, g' := Detect(cfg, camera, g, d, input), Step(g, Shown(cfg, g, input));
            && !c.paid && c.local == (input.localAt >= d.local.retryAt)
            && (c.local && input.local.LocalText? && input.local.answer.Parsed? ==>
                  c.result == Observations(!input.local.answer.found && input.local.answer.near
                                           && g'.pending == 1 && !g'.retried))
            && |c.ops| == 2 && c.ops[1].Reply?
            && (c.ops[1].found <==>
                  c.local && input.local.LocalText? && input.local.answer.Parsed? && input.local.answer.found)
  {
    DetectMeans(cfg, camera, g, d, input);
    hide Detect, Step, Inv, Grants, TurnedAway, LooksUp, LookupWorks, LookupFails, LookupLeaves;
    PaysOrStandsIn(cfg, Step(g, Shown(cfg, g, input)), d, input);
  }

  /** The two requests, for a granted frame: each is made exactly in these cases. */
  lemma RequestsMean(cfg: Config, camera: Camera, g: Gate, d: Shared, input: Input)
    requires Inv(g) && !TurnedAway(cfg, camera, g, d, input) && Grants(g, Shown(cfg, g, input))
    ensures var c, g' := Detect(cfg, camera, g, d, input), Step(g, Shown(cfg, g, input));
            && (c.paid <==> Pays(cfg, g', d, input))
            && (c.local <==> && input.localAt >= d.local.retryAt
                             && (StandsIn(cfg, g', d, input) || (Pays(cfg, g', d, input) && TakesOver(cfg, d, input))))
  {
    DetectMeans(cfg, camera, g, d, input);
    hide Detect, Step, Inv, Grants, TurnedAway, LooksUp, LookupWorks, LookupFails, LookupLeaves;
    PaysOrStandsIn(cfg, Step(g, Shown(cfg, g, input)), d, input);
  }
}
