/** The detector object: one gate store and the pauses all cameras share, updated in place by each call. */
module DetectorStore {
  import opened Options
  import opened MotionGate
  import opened MotionGateStore
  import MotionAnswers
  import opened ProviderPause
  import opened Detector
  import opened DetectorAnswers

  lemma UnseenIsSound()
    ensures Inv(UNSEEN)
  {
  }

  lemma RunOne(g: Gate)
    requires Inv(g)
    ensures Run(g, []) == g
    ensures forall op :: Run(g, [op]) == Step(g, op)
  {
    hide Step, Inv;
    forall op ensures Run(g, [op]) == Step(g, op) {
      assert [op][..0] == [];
    }
  }

  lemma RunAfter(g: Gate, op: Op)
    requires Inv(g)
    ensures forall ops :: Run(g, [op] + ops) == Run(Step(g, op), ops)
  {
    hide Step, Inv;
    RunOne(g);
    forall ops ensures Run(g, [op] + ops) == Run(Step(g, op), ops) {
      SplitCount(g, [op], ops, Grants);
    }
  }

  class ApiDetector {
    const config: Config
    const motion: Gates
    var consecutiveFailures: nat
    var providerRetryAt: real
    var fallbackFailures: nat
    var fallbackRetryAt: real
    var dnsOkUntil: real
    var dnsRetryAt: real
    var dnsFailureCode: Code
    var budgetRetryAt: map<Camera, real>

    function View(): Shared
      reads this
    {
      Shared(Pause(consecutiveFailures, providerRetryAt), Pause(fallbackFailures, fallbackRetryAt),
             Dns(dnsOkUntil, dnsRetryAt, dnsFailureCode), budgetRetryAt)
    }

    constructor (config: Config)
      ensures this.config == config && View() == STARTED && fresh(motion)
      ensures forall c :: motion.GateOf(c) == UNSEEN
    {
      this.config := config;
      motion := new Gates();
      consecutiveFailures, providerRetryAt, fallbackFailures, fallbackRetryAt := 0, 0.0, 0, 0.0;
      dnsOkUntil, dnsRetryAt, dnsFailureCode, budgetRetryAt := 0.0, 0.0, DnsUnavailable, map[];
    }

    /** The exponent is computed before the pause is set: where it does not fit, only the count has changed. */
    method ProviderFailed(at: real) returns (raised: bool)
      modifies this`consecutiveFailures, this`providerRetryAt
      ensures View() == old(View()).(provider := Failed(old(View()).provider, at))
      ensures raised == Overflows(old(View()).provider)
    {
      consecutiveFailures := consecutiveFailures + 1;
      if consecutiveFailures - 1 >= OVERFLOW_EXPONENT { return true; }
      providerRetryAt := at + Delay(BACKOFF_FIRST, consecutiveFailures);
      raised := false;
    }

    method CheckRemoteDns(now: real, lookup: Lookups) returns (error: Option<Code>)
      modifies this`dnsOkUntil, this`dnsRetryAt, this`dnsFailureCode
      ensures (View().dns, error) == CheckDns(config, old(View()).dns, now, lookup)
      ensures View() == old(View()).(dns := View().dns)
    {
      if !config.remote { return None; }
      if now < dnsRetryAt { return Some(dnsFailureCode); }
      if now < dnsOkUntil { return None; }
      match lookup {
        case NotFound | TimedOut =>
          dnsFailureCode := if lookup.TimedOut? then DnsTimeout else DnsUnavailable;
          dnsRetryAt := now + 60.0;
          return Some(dnsFailureCode);
        case BadAddress => return Some(AddressRefused);
        case NoResolver => return Some(ResolverUnavailable);
        case Resolved => dnsOkUntil := now + 60.0;
      }
      error := None;
    }

    /** The answer of one local request, or the error it raises. */
    method FallbackText(input: Input) returns (answer: Option<Answer>, error: Code, asked: bool)
      modifies this`fallbackFailures, this`fallbackRetryAt
      ensures asked == !(input.localAt < old(fallbackRetryAt))
      ensures answer == if asked && input.local.LocalText? then Some(input.local.answer) else None
      ensures error == if asked then FallbackFailure else FallbackPaused
      ensures View() == if !asked then old(View())
                        else old(View()).(local := if answer.Some? then Succeeded(old(View()).local)
                                                   else FallbackFailed(old(View()).local, input.localFailed))
    {
      if input.localAt < fallbackRetryAt { return None, FallbackPaused, false; }
      error, asked := FallbackFailure, true;
      match input.local {
        case LocalFails =>
          fallbackFailures := fallbackFailures + 1;
          fallbackRetryAt := input.localFailed + Delay(FALLBACK_FIRST, fallbackFailures);
          answer := None;
        case LocalText(text) =>
          fallbackFailures := 0;
          answer := Some(text);
      }
    }

    /** The paid request: its text, or the error it ends in; `raised` if even the failure could not be handled. */
    method AskPrimary(input: Input) returns (answer: Option<Answer>, error: Code, raised: bool)
      modifies this`consecutiveFailures, this`providerRetryAt
      ensures answer == if input.primary.Text? then Some(input.primary.answer) else None
      ensures error == if input.primary.Fails? then input.primary.code else OtherFailure
      ensures raised == (answer.None? && error != DnsUnavailable && Overflows(old(View()).provider))
      ensures View() == if answer.Some? then old(View()).(provider := Succeeded(old(View()).provider))
                        else if error == DnsUnavailable then old(View())
                        else old(View()).(provider := Failed(old(View()).provider, input.failed))
    {
      hide Failed, Overflows;
      raised := false;
      match input.primary {
        case Text(text) =>
          consecutiveFailures := 0;
          answer, error := Some(text), OtherFailure;
        case Fails(code) =>
          answer, error := None, code;
          if code != DnsUnavailable {
            raised := ProviderFailed(input.failed);
          }
      }
    }

    /** The gate hears of every reply and every handled error; a lost name is not looked up again at once. */
    method Conclude(camera: Camera, answer: Option<Answer>, error: Code, input: Input) returns (result: Result)
      requires Inv(motion.GateOf(camera))
      modifies this`dnsOkUntil, this`dnsFailureCode, this`dnsRetryAt, motion
      ensures var reply := if answer.Some? && answer.value.Parsed?
                           then Reply(answer.value.found, answer.value.near, answer.value.empty, input.replied)
                           else Negative(input.replied);
              && (forall k :: motion.GateOf(k) == if k == camera
                                                  then Step(old(motion.GateOf(camera)), reply)
                                                   else old(motion.GateOf(k)))
              && result == if answer.None? then Raised(error)
                           else if answer.value.Rejected? then Raised(ReplyInvalid)
                           else Observations(Retries(old(motion.GateOf(camera)), reply))
      ensures View() == if answer.None? then DnsLost(old(View()), error, input.ended) else old(View())
    {
      hide Step, Inv, Retries, MotionAnswers.Answered;
      if answer.Some? && answer.value.Parsed? {
        var retry := motion.SampleResult(camera, answer.value.found, answer.value.near, answer.value.empty,
            input.replied);
        return Observations(retry);
      }
      var _ := motion.SampleResult(camera, false, false, false, input.replied);
      if answer.Some? { return Raised(ReplyInvalid); }
      if error in {DnsUnavailable, DnsTimeout} {
        dnsOkUntil, dnsFailureCode, dnsRetryAt := 0.0, error, input.ended + 60.0;
      }
      result := Raised(error);
    }

    /** The request itself and everything its reply or its error leads to. */
    method Request(camera: Camera, useLocal: bool, input: Input) returns (result: Result, paid: bool, local: bool)
      requires Inv(motion.GateOf(camera))
      modifies this, motion
      ensures var g, d := old(motion.GateOf(camera)), old(View());
              var c := if useLocal then AskLocal(g, d, false, Silent, input) else AskProvider(config, g, d, input);
              && View() == c.after && result == c.result && paid == c.paid && local == c.local
              && forall k :: motion.GateOf(k) == if k == camera
                                                 then Run(old(motion.GateOf(camera)), c.ops) else old(motion.GateOf(k))
    {
      hide Step, Inv, Retries, Delay, Failed, FallbackFailed, Run, Honest, Overflows;
      RunOne(motion.GateOf(camera));
      var answer, error, byLocal := None, OtherFailure, useLocal;
      paid, local := !useLocal, false;
      if !useLocal {
        var raised;
        answer, error, raised := AskPrimary(input);
        if raised { return Raised(OverflowError), paid, local; }
        byLocal := answer.None? && config.fallback && error in FALLBACK_REASONS;
      }
      if byLocal {
        answer, error, local := FallbackText(input);
      }
      result := Conclude(camera, answer, error, input);
    }

    /** The call after its frame has been granted. */
    method Granted(camera: Camera, input: Input) returns (result: Result, paid: bool, local: bool)
      requires Inv(motion.GateOf(camera))
      modifies this, motion
      ensures var g := old(motion.GateOf(camera)); var c := Route(config, camera, g, old(View()), input);
              && View() == c.after && result == c.result && paid == c.paid && local == c.local
              && forall k :: motion.GateOf(k) == if k == camera then Run(g, c.ops) else old(motion.GateOf(k))
    {
      hide Step, Inv, Grants, Run, AskLocal, AskProvider, CheckDns, Honest, Put;
      RunOne(motion.GateOf(camera));
      paid, local := false, false;
      var useLocal := false;
      if input.pause < providerRetryAt {
        if !config.fallback {
          motion.DeferPair(camera);
          return Nothing, paid, local;
        }
        useLocal := true;
      }
      if !useLocal && config.limit.Some? && GetOr(motion.pending, camera, 0) == 1
          && !GetOr(motion.novel, camera, true) {
        if input.allowance.None? { return Raised(BudgetError), paid, local; }
        useLocal := input.allowance.value <= config.Reserve() && config.fallback;
      }
      if !useLocal && config.limit.Some? && GetOr(motion.pending, camera, 0) == 1
         && !GetOr(motion.novel, camera, true)
      {
        if input.allowanceAgain.None? { return Raised(BudgetError), paid, local; }
        if input.allowanceAgain.value <= config.Reserve() {
          motion.DeferPair(camera);
          return Nothing, paid, local;
        }
      }
      if !useLocal {
        var error := CheckRemoteDns(input.lookupAt, input.lookup);
        if error.Some? {
          if error.value != DnsUnavailable || !config.fallback {
            motion.ResetGate(camera);
            return Raised(error.value), paid, local;
          }
          useLocal := true;
        }
      }
      if !useLocal && config.limit.Some? && !input.claim.Admitted? {
        if input.claim.ClaimError? { return Raised(BudgetError), paid, local; }
        if !config.fallback {
          motion.WaitForMotionAt(camera);
          budgetRetryAt := Put(budgetRetryAt, camera, input.denied + 60.0);
          return Nothing, paid, local;
        }
        useLocal := true;
      }
      result, paid, local := Request(camera, useLocal, input);
    }

    /** One observation: the gate, the pause, the allowance and the lookup, in this order, and then the request. */
    method DetectForCamera(camera: Camera, input: Input) returns (result: Result, paid: bool, local: bool)
      requires Inv(motion.GateOf(camera))
      modifies this, motion
      ensures var g := old(motion.GateOf(camera)); var c := Detect(config, camera, g, old(View()), input);
              && View() == c.after && result == c.result && paid == c.paid && local == c.local
              && forall k :: motion.GateOf(k) == if k == camera then Run(g, c.ops) else old(motion.GateOf(k))
      ensures var g := old(motion.GateOf(camera)); var c := Detect(config, camera, g, old(View()), input);
              Told(config, camera, g, old(View()), input, Course(c.ops, View(), paid, local, c.report, result))
    {
      hide Step, Inv, Grants, Run, AskLocal, AskProvider, CheckDns, Honest, IsRefresh, Put, Told;
      ghost var g := motion.GateOf(camera);
      DetectMeans(config, camera, g, View(), input);
      RunOne(g);
      paid, local := false, false;
      if input.picture.NotJpeg? { return Raised(InvalidFrame), paid, local; }
      if !config.fallback && input.entry < GetOr(budgetRetryAt, camera, 0.0) { return Nothing, paid, local; }
      var hasBaseline := Lookup(motion.previous, camera).Some?;
      if config.limit.Some? && !hasBaseline && input.allowanceAtEntry.None? { return Raised(BudgetError), paid, local; }
      var allowProbe := config.limit.None? || hasBaseline || input.allowanceAtEntry == config.limit;
      if input.picture.Undecodable? { return Raised(InvalidFrame), paid, local; }
      var granted := motion.ShouldRequest(camera, input.picture.thumbnail, input.shot, input.captured, allowProbe);
      if !granted { return Nothing, paid, local; }
      ghost var frame := FrameOp(config, g, input);
      RunAfter(g, frame);
      result, paid, local := Granted(camera, input);
    }

    method SkipConfirmationFor(camera: Camera)
      requires Inv(motion.GateOf(camera))
      modifies motion
      ensures forall k :: motion.GateOf(k) == if k == camera
                                              then Step(old(motion.GateOf(camera)), Cancel) else old(motion.GateOf(k))
    {
      var _ := motion.CancelConfirmation(camera);
    }

    /** The object is in the state that a run of calls leads to. */
    ghost predicate HasServed(calls: seq<Call>)
      reads this, motion
    {
      var h := Play(config, calls);
      View() == h.shared && forall k :: motion.GateOf(k) == Run(UNSEEN, OpsOf(h, k))
    }

    method ServeOne(call: Call, ghost calls: seq<Call>)
      requires HasServed(calls)
      modifies this, motion
      ensures HasServed(calls + [call])
    {
      UnseenIsSound();
      hide Detect, Step, Run, Inv, UNSEEN, Told;
      assert (calls + [call])[..|calls|] == calls;
      ghost var h := Play(config, calls);
      match call {
        case OnFrame(camera, input) =>
          var _, _, _ := DetectForCamera(camera, input);
          SplitCount(UNSEEN, OpsOf(h, camera), CourseOf(config, h, call).ops, Grants);
        case SkipConfirmation(camera) =>
          SkipConfirmationFor(camera);
          SplitCount(UNSEEN, OpsOf(h, camera), [Cancel], Grants);
          RunOne(Run(UNSEEN, OpsOf(h, camera)));
      }
    }

    /** Whatever calls are made, in whatever order: what is proved of `Play` holds of this object. */
    method Serve(calls: seq<Call>)
      requires HasServed([])
      modifies this, motion
      ensures HasServed(calls)
    {
      hide HasServed;
      for i := 0 to |calls|
        invariant HasServed(calls[..i])
      {
        assert calls[..i] + [calls[i]] == calls[..i + 1];
        ServeOne(calls[i], calls[..i]);
      }
      assert calls[..|calls|] == calls;
    }
  }
}
