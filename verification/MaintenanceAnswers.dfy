/**
What a worker call comes to, told from the files alone: which request it takes up, whether it runs the
plan, and what it answers.
*/
module MaintenanceAnswers {
  import opened Options
  import opened Ordering
  import opened MaintenanceQueue

  /** Nobody knows how the runbook of this operation ended. */
  predicate Unknown(s: Store, op: Operation) {
    op in s.ledger && (s.ledger[op] == Started || s.ledger[op] == Uncertain)
  }

  /** The loop goes on: the request has its receipt, or is for another operation than the unknown one. */
  ghost predicate GoesOn(s: Store, id: RequestId)
    requires id in s.requests
  {
    || id in s.receipts
    || (&& s.requests[id].Request? && (exists op :: Unknown(s, op)) && !Unknown(s, s.requests[id].operation))
  }

  /** The files are few enough, and this is the request at which the loop stops. */
  ghost predicate StopsAt(s: Store, id: RequestId) {
    && |s.ledger| <= 128 && |s.requests| <= 128 && |s.catalog| <= 128
    && id in s.requests && !GoesOn(s, id)
    && forall j <- s.requests :: j < id ==> GoesOn(s, j)
  }

  /** The request names a plan that is there, is what its name says, and has the revision asked for. */
  predicate Sound(s: Store, id: RequestId)
    requires id in s.requests
  {
    && s.requests[id].Request? && s.requests[id].operation in s.plans
    && s.plans[s.requests[id].operation].digestMatches
    && s.plans[s.requests[id].operation].plan.revision == s.requests[id].revision
  }

  ghost predicate TakesUp(s: Store, id: RequestId) {
    StopsAt(s, id) && Sound(s, id)
  }

  /** The catalog still offers this plan; an older catalog may not say its target or purpose. */
  predicate Offered(s: Store, op: Operation, plan: Plan) {
    && op in s.catalog
    && s.catalog[op].revision == plan.revision && s.catalog[op].description == plan.description
    && (s.catalog[op].target == None || s.catalog[op].target == plan.target)
    && (s.catalog[op].purpose == None || s.catalog[op].purpose == plan.purpose)
  }

  // ---- Which request ----

  lemma UnknownMeans(s: Store)
    ensures forall op :: Unknown(s, op) <==> op in Unresolved(s.ledger)
    ensures (exists op :: Unknown(s, op)) <==> Unresolved(s.ledger) != {}
  {
    if Unresolved(s.ledger) != {} {
      var op :| op in Unresolved(s.ledger);
      assert Unknown(s, op);
    }
  }

  lemma GoesOnMeans(s: Store, id: RequestId)
    requires id in s.requests
    ensures GoesOn(s, id) <==> Skipped(s, id)
  {
    UnknownMeans(s);
    hide Unknown, Unresolved;
  }

  lemma SoundMeans(s: Store, id: RequestId)
    requires id in s.requests
    ensures Sound(s, id) <==> Answerable(s, id)
  {
  }

  lemma StopMeans(s: Store, id: RequestId)
    ensures StopsAt(s, id) <==> !Next(s).Nothing? && Next(s).at == id
    ensures TakesUp(s, id) <==> Next(s) == Chosen(id)
  {
    hide GoesOn, Skipped, Pick, Sound, Answerable;
    forall j | j in s.requests ensures GoesOn(s, j) <==> Skipped(s, j) {
      GoesOnMeans(s, j);
    }
    if WithinCapacity(s) {
      var c := Pick(s, Sorted(s.requests.Keys));
      if id in s.requests {
        SoundMeans(s, id);
      }
      if !c.Nothing? && id in s.requests {
        assert c.at in s.requests;
        assert c.at < id || c.at == id || id < c.at;
      }
    }
  }

  // ---- What it comes to ----

  lemma OfferedMeans(s: Store, op: Operation, plan: Plan)
    ensures Offered(s, op, plan) <==> Advertised(s, op, plan)
  {
  }

  /** What a call has run when it is through. */
  function Executed(op: Operation, effect: Effect): seq<Execution> {
    match effect
    case Refused => []
    case Ran(outcome) => [Execution(op, Some(outcome))]
    case Threw(started) => if started then [Execution(op, None)] else []
  }

  /** Nothing yet, or one runbook of this operation. */
  ghost predicate AtMostOneMore(was: seq<Execution>, now: seq<Execution>, op: Operation) {
    now == was || (|now| == |was| + 1 && was < now && now[|was|].operation == op)
  }

  lemma ClosingRunsNothing(s: Store, id: RequestId, op: Operation, state: State)
    ensures |Closing(s, id, op, state)| == 2
    ensures forall s' <- Closing(s, id, op, state) :: s'.executions == s.executions
  {
  }

  lemma ExecutingRuns(s: Store, id: RequestId, op: Operation, effect: Effect)
    ensures var states := Executing(s, id, op, effect);
            && states != [] && states[|states| - 1].executions == s.executions + Executed(op, effect)
            && forall s' <- states :: AtMostOneMore(s.executions, s'.executions, op)
  {
    hide Closing;
    var running := StartRunbook(s, op);
    match effect {
      case Refused | Threw(false) =>
        ClosingRunsNothing(s, id, op, Resulting(effect));
      case Threw(true) =>
        ClosingRunsNothing(running, id, op, Uncertain);
      case Ran(outcome) =>
        ClosingRunsNothing(FinishRunbook(running, op, outcome), id, op, outcome);
    }
  }

  lemma NothingMore(executions: seq<Execution>, op: Operation)
    ensures AtMostOneMore(executions, executions, op)
  {
  }

  lemma AnsweringRuns(s: Store, id: RequestId, effect: Effect)
    requires id in s.requests && Answerable(s, id)
    ensures var op, states := s.requests[id].operation, Answering(s, id, effect);
            && states != []
            && if op in s.ledger || !Advertised(s, op, s.plans[op].plan)
               then forall s' <- states :: s'.executions == s.executions
               else && states[|states| - 1].executions == s.executions + Executed(op, effect)
                    && forall s' <- states :: AtMostOneMore(s.executions, s'.executions, op)
  {
    hide Advertised, Executed, AtMostOneMore, Executing;
    var op := s.requests[id].operation;
    NothingMore(s.executions, op);
    if op !in s.ledger && Advertised(s, op, s.plans[op].plan) {
      ExecutingRuns(WriteLedger(s, op, Started), id, op, effect);
    }
  }

  lemma WorkIsLast(s: Store, effect: Effect, id: RequestId)
    requires Next(s) == Chosen(id)
    ensures var states := Answering(s, id, effect); states != [] && WorkOnce(s, effect) == states[|states| - 1]
  {
    hide Answering, Next, Answerable;
    AnsweringTouches(s, id, effect);
  }

  /** What a call writes last, and what it runs, for the request it takes up. */
  lemma CallMeans(s: Store, effect: Effect, id: RequestId)
    requires TakesUp(s, id)
    ensures var op, s' := s.requests[id].operation, WorkOnce(s, effect);
            && s' == s.(ledger := s'.ledger, receipts := s'.receipts, executions := s'.executions)
            && op in s'.ledger && s'.ledger == s.ledger[op := s'.ledger[op]]
            && s'.receipts == s.receipts[id := Receipt(op, s'.ledger[op])]
            && (op in s.ledger ==>
                  && s'.executions == s.executions
                  && s'.ledger[op] == if s.ledger[op] == Started then Uncertain else s.ledger[op])
            && (op !in s.ledger && !Offered(s, op, s.plans[op].plan) ==>
                  s'.executions == s.executions && s'.ledger[op] == Rejected)
            && (op !in s.ledger && Offered(s, op, s.plans[op].plan) ==>
                  match effect
                  case Refused => s'.executions == s.executions && s'.ledger[op] == Rejected
                  case Ran(outcome) =>
                    s'.executions == s.executions + [Execution(op, Some(outcome))] && s'.ledger[op] == outcome
                  case Threw(started) =>
                    && s'.executions == s.executions + (if started then [Execution(op, None)] else [])
                    && s'.ledger[op] == Uncertain)
  {
    StopMeans(s, id);
    OfferedMeans(s, s.requests[id].operation, s.plans[s.requests[id].operation].plan);
    WorkOnceAnswers(s, effect);
    AnsweringRuns(s, id, effect);
    WorkIsLast(s, effect, id);
    hide Next, Advertised, Offered, StopsAt, Work, Trace, Answering, Unresolved;
  }

  /** A call that takes nothing up changes nothing, wherever it is cut. */
  lemma IdleMeans(s: Store, effect: Effect, cut: nat)
    requires forall id :: !TakesUp(s, id)
    ensures Work(s, effect, cut) == s
  {
    if Next(s).Chosen? {
      StopMeans(s, Next(s).at);
    }
  }

  lemma WorkIsOne(s: Store, effect: Effect, cut: nat)
    requires Next(s).Chosen?
    ensures Work(s, effect, cut) == s || Work(s, effect, cut) in Answering(s, Next(s).at, effect)
  {
    hide Answering, Next, Answerable;
  }

  /** However a call is cut, it starts nothing but the plan of the request it takes up, once, if it is offered. */
  lemma StartsOnlyOffered(s: Store, effect: Effect, cut: nat)
    ensures var s' := Work(s, effect, cut);
            || s'.executions == s.executions
            || exists id :: && TakesUp(s, id)
                            && (var op := s.requests[id].operation;
                                && op !in s.ledger && Offered(s, op, s.plans[op].plan)
                                && |s'.executions| == |s.executions| + 1 && s.executions < s'.executions
                                && s'.executions[|s.executions|].operation == op)
  {
    if Next(s).Chosen? {
      var id := Next(s).at;
      var op := s.requests[id].operation;
      StopMeans(s, id);
      OfferedMeans(s, op, s.plans[op].plan);
      assert TakesUp(s, id);
      AnsweringRuns(s, id, effect);
      WorkIsOne(s, effect, cut);
      hide Next, Advertised, Offered, TakesUp, Answerable, Answering, Work;
    }
  }

  lemma OnlyOfferedIsInCatalog(s: Store, effect: Effect, cut: nat, op: Operation)
    requires op !in s.catalog
    ensures forall x <- Work(s, effect, cut).executions :: x.operation == op ==> x in s.executions
  {
    hide Work, TakesUp;
    StartsOnlyOffered(s, effect, cut);
    var s' := Work(s, effect, cut);
    forall x | x in s'.executions && x.operation == op ensures x in s.executions {
      var i :| 0 <= i < |s'.executions| && s'.executions[i] == x;
      if i < |s.executions| {
        assert s.executions[i] == x;
      }
    }
  }

  lemma CallLeavesCatalog(s: Store, effect: Effect, cut: nat)
    ensures Work(s, effect, cut).catalog == s.catalog
  {
    hide Work, Next, Answerable, Unresolved;
    WorkTouches(s, effect, cut);
  }

  lemma WithdrawnStep(s: Store, e: Event, op: Operation)
    requires op !in s.catalog && !(e.Prepare? && e.operation == op)
    ensures op !in Step(s, e).catalog
    ensures forall x <- Step(s, e).executions :: x.operation == op ==> x in s.executions
  {
    hide Work, Admits, TakesUp;
    if e.Call? {
      CallLeavesCatalog(s, e.effect, e.cut);
      OnlyOfferedIsInCatalog(s, e.effect, e.cut, op);
    } else {
      StepIgnoresWork(s, s, e);
    }
  }

  /** From a withdrawal to the next preparation of the same operation, nothing starts it, whatever else happens. */
  lemma {:induction false} WithdrawnIsNotStarted(s: Store, op: Operation, events: seq<Event>)
    requires forall e <- events :: !(e.Prepare? && e.operation == op)
    ensures var s' := Run(Step(s, Withdraw(op)), events);
            && op !in s'.catalog
            && forall x <- s'.executions :: x.operation == op ==> x in s.executions
  {
    hide Work, Link, Admits;
    var start := Step(s, Withdraw(op));
    if events != [] {
      var init, last := events[..|events| - 1], events[|events| - 1];
      assert events == init + [last];
      WithdrawnIsNotStarted(s, op, init);
      hide Step;
      WithdrawnStep(Run(start, init), last, op);
    }
  }

  /** The three ways in which a call handles nothing. */
  lemma NothingMeans(s: Store)
    ensures WithinCapacity(s) <==> |s.ledger| <= 128 && |s.requests| <= 128 && |s.catalog| <= 128
    ensures Next(s).Chosen? <==> exists id :: TakesUp(s, id)
    ensures Next(s).Broken? <==> exists id :: StopsAt(s, id) && !TakesUp(s, id)
    ensures (exists op :: Unknown(s, op)) <==> Unresolved(s.ledger) != {}
  {
    UnknownMeans(s);
    hide Unknown, Unresolved, StopsAt, TakesUp, Next;
    forall id ensures StopsAt(s, id) <==> !Next(s).Nothing? && Next(s).at == id
      ensures TakesUp(s, id) <==> Next(s) == Chosen(id)
    {
      StopMeans(s, id);
    }
    if !Next(s).Nothing? {
      assert StopsAt(s, Next(s).at);
    }
  }
}
