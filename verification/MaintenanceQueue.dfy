/**
The one-use maintenance queue as a state machine over its files.

A web side adds request files, the host publishes plans, and a worker call runs at most one runbook.
A worker call is the sequence of durable states it goes through, `Trace`; a call that dies has gone
through a prefix of it, so cutting the trace anywhere is a crash between any two atomic writes.
*/
module MaintenanceQueue {
  import opened Options
  import opened Ordering
  import opened Sets

  type Operation = string
  type Revision = string
  /** 32 lower-case hex digits, read as a number: the names of request files sort like numbers. */
  type RequestId = nat
  type Client = nat

  const CAPACITY := 128

  datatype State = Started | Succeeded | Rejected | RolledBack | Uncertain
  type Outcome = s: State | s != Started witness Succeeded

  datatype Plan = Plan(revision: Revision, description: string, target: Option<string>, purpose: Option<string>)
  datatype PlanFile = PlanFile(plan: Plan, digestMatches: bool)
  datatype Row = Row(revision: Revision, description: string, target: Option<string>, purpose: Option<string>)

  datatype RequestFile = Malformed | Request(operation: Operation, revision: Revision)
  datatype Receipt = Receipt(operation: Operation, state: State)

  /** One started runbook, and what it reported if it finished under the worker. */
  datatype Execution = Execution(operation: Operation, reported: Option<Outcome>)

  datatype Store = Store(
    plans: map<Operation, PlanFile>,
    catalog: map<Operation, Row>,
    ledger: map<Operation, State>,
    requests: map<RequestId, RequestFile>,
    receipts: map<RequestId, Receipt>,
    executions: seq<Execution>,
    // submissions between their capacity check and the publication of their file
    admitted: map<Client, (RequestId, RequestFile)>)

  const EMPTY := Store(map[], map[], map[], map[], map[], [], map[])

  /** What running the frozen runbook comes to. */
  datatype Effect =
    | Refused               // a guard changed: no process was started
    | Ran(outcome: Outcome) // it ran; anything but a well-formed report counts as uncertain
    | Threw(started: bool)  // the host failed before or after starting it

  // ---- The catalog ----

  /** The public row of a plan, with the fields an older catalog did not have left out. */
  function PublicPlan(plan: Plan, target: bool, purpose: bool): Row {
    Row(plan.revision, plan.description, if target then plan.target else None, if purpose then plan.purpose else None)
  }

  predicate Advertised(s: Store, operation: Operation, plan: Plan) {
    && operation in s.catalog
    && s.catalog[operation] == PublicPlan(plan, s.catalog[operation].target.Some?, s.catalog[operation].purpose.Some?)
  }

  // ---- Choosing a request ----

  function Unresolved(ledger: map<Operation, State>): set<Operation> {
    set op | op in ledger && ledger[op] in {Started, Uncertain}
  }

  function Unanswered(s: Store): set<RequestId> {
    set id | id in s.requests && id !in s.receipts
  }

  /** The request can be taken up: its plan is there, unaltered, and the one it was made for. */
  predicate Answerable(s: Store, id: RequestId)
    requires id in s.requests
  {
    var request := s.requests[id];
    && request.Request?
    && request.operation in s.plans
    && s.plans[request.operation].digestMatches
    && s.plans[request.operation].plan.revision == request.revision
  }

  /** Skipped without a look at its plan: answered already, or behind an unknown earlier outcome. */
  predicate Skipped(s: Store, id: RequestId)
    requires id in s.requests
  {
    || id in s.receipts
    || (s.requests[id].Request? && Unresolved(s.ledger) != {} && s.requests[id].operation !in Unresolved(s.ledger))
  }

  datatype Choice = Nothing | Broken(at: RequestId) | Chosen(at: RequestId)

  /** The first request in order that is not skipped. */
  function Pick(s: Store, ids: seq<RequestId>): (c: Choice)
    requires Ascending(ids) && forall id <- ids :: id in s.requests
    ensures c.Nothing? <==> forall id <- ids :: Skipped(s, id)
    ensures !c.Nothing? ==> c.at in ids && !Skipped(s, c.at) && (c.Chosen? <==> Answerable(s, c.at))
    ensures !c.Nothing? ==> forall id <- ids :: id < c.at ==> Skipped(s, id)
  {
    if ids == [] then Nothing
    else if Skipped(s, ids[0]) then
      assert forall id :: id in ids <==> id == ids[0] || id in ids[1..];
      Pick(s, ids[1..])
    else if Answerable(s, ids[0]) then Chosen(ids[0])
    else Broken(ids[0])
  }

  predicate WithinCapacity(s: Store) {
    |s.ledger| <= CAPACITY && |s.requests| <= CAPACITY && |s.catalog| <= CAPACITY
  }

  function Next(s: Store): (c: Choice)
    ensures !c.Nothing? ==> c.at in s.requests && !Skipped(s, c.at) && (c.Chosen? <==> Answerable(s, c.at))
  {
    if WithinCapacity(s) then Pick(s, Sorted(s.requests.Keys)) else Nothing
  }

  // ---- A worker call ----

  function WriteLedger(s: Store, op: Operation, state: State): Store {
    s.(ledger := s.ledger[op := state])
  }

  function WriteReceipt(s: Store, id: RequestId, op: Operation, state: State): Store {
    s.(receipts := s.receipts[id := Receipt(op, state)])
  }

  function StartRunbook(s: Store, op: Operation): Store {
    s.(executions := s.executions + [Execution(op, None)])
  }

  function FinishRunbook(s: Store, op: Operation, outcome: Outcome): Store
    requires s.executions != []
  {
    s.(executions := s.executions[..|s.executions| - 1] + [Execution(op, Some(outcome))])
  }

  /** The last two writes of every answered request. */
  function Closing(s: Store, id: RequestId, op: Operation, state: State): seq<Store> {
    [WriteLedger(s, op, state), WriteReceipt(WriteLedger(s, op, state), id, op, state)]
  }

  /** The state reported for an effect. */
  function Resulting(effect: Effect): Outcome {
    match effect
    case Refused => Rejected
    case Ran(outcome) => outcome
    case Threw(_) => Uncertain
  }

  function Executing(s: Store, id: RequestId, op: Operation, effect: Effect): seq<Store> {
    match effect
    case Refused | Threw(false) =>
      Closing(s, id, op, Resulting(effect))
    case Threw(true) =>
      [StartRunbook(s, op)] + Closing(StartRunbook(s, op), id, op, Uncertain)
    case Ran(outcome) =>
      var running := StartRunbook(s, op);
      var finished := FinishRunbook(running, op, outcome);
      [running, finished] + Closing(finished, id, op, outcome)
  }

  function Answering(s: Store, id: RequestId, effect: Effect): seq<Store>
    requires id in s.requests && Answerable(s, id)
  {
    var op := s.requests[id].operation;
    if op in s.ledger then
      Closing(s, id, op, if s.ledger[op] == Started then Uncertain else s.ledger[op])
    else if !Advertised(s, op, s.plans[op].plan) then
      Closing(s, id, op, Rejected)
    else
      [WriteLedger(s, op, Started)] + Executing(WriteLedger(s, op, Started), id, op, effect)
  }

  /** Every durable state of a worker call, in order, starting with the one it finds. */
  function Trace(s: Store, effect: Effect): (states: seq<Store>)
    ensures states != [] && states[0] == s
  {
    [s] + match Next(s)
          case Nothing | Broken(_) => []
          case Chosen(id) => Answering(s, id, effect)
  }

  /** A call that gets through `cut` of its writes. */
  function Work(s: Store, effect: Effect, cut: nat): Store {
    var states := Trace(s, effect);
    if cut < |states| then states[cut] else states[|states| - 1]
  }

  /** A call that is not interrupted. */
  function WorkOnce(s: Store, effect: Effect): Store {
    Work(s, effect, |Trace(s, effect)|)
  }

  // ---- Runs ----

  datatype Event =
    | Prepare(operation: Operation, planFile: PlanFile, row: Row)
    | Withdraw(operation: Operation)
    | Lose(operation: Operation) // the plan file is deleted
    | Place(id: RequestId, file: RequestFile)
    | Admit(client: Client, operation: Operation, revision: Revision, id: RequestId)
    | Publish(client: Client)
    | Call(effect: Effect, cut: nat)

  /** The checks of `submit`: the plan is advertised at this revision, and there is room or the ID exists. */
  predicate Admits(s: Store, operation: Operation, revision: Revision, id: RequestId) {
    && |s.catalog| <= CAPACITY && operation in s.catalog && s.catalog[operation].revision == revision
    && (|s.requests| < CAPACITY || id in s.requests)
  }

  /** A request file appears under an ID only once. */
  function Link(s: Store, id: RequestId, file: RequestFile): Store {
    if id in s.requests then s else s.(requests := s.requests[id := file])
  }

  function Step(s: Store, e: Event): Store {
    match e
    case Prepare(op, file, row) => s.(plans := s.plans[op := file], catalog := s.catalog[op := row])
    case Withdraw(op) => s.(catalog := s.catalog - {op})
    case Lose(op) => s.(plans := s.plans - {op})
    case Place(id, file) => Link(s, id, file)
    case Admit(client, op, revision, id) =>
      if client !in s.admitted && Admits(s, op, revision, id)
      then s.(admitted := s.admitted[client := (id, Request(op, revision))]) else s
    case Publish(client) =>
      if client !in s.admitted then s
      else Link(s, s.admitted[client].0, s.admitted[client].1).(admitted := s.admitted - {client})
    case Call(effect, cut) => Work(s, effect, cut)
  }

  function Run(s: Store, events: seq<Event>): Store {
    if events == [] then s else Step(Run(s, events[..|events| - 1]), events[|events| - 1])
  }

  // ---- The invariant ----

  ghost predicate Backed(s: Store, op: Operation) {
    exists id <- s.requests :: s.requests[id].Request? && s.requests[id].operation == op
  }

  /** Each runbook started at most once, and each on record. */
  ghost predicate OneUse(s: Store) {
    && (forall i, j :: 0 <= i < j < |s.executions| ==> s.executions[i].operation != s.executions[j].operation)
    && (forall e <- s.executions :: e.operation in s.ledger
          && (e.reported.Some? ==> s.ledger[e.operation] in {Started, Uncertain, e.reported.value}))
    && (forall op <- s.ledger :: s.ledger[op] in {Succeeded, RolledBack} ==>
          Execution(op, Some(s.ledger[op])) in s.executions)
  }

  /** A receipt repeats the final ledger state of the operation its request named. */
  ghost predicate ReceiptsAgree(s: Store) {
    forall id <- s.receipts ::
      && id in s.requests && s.requests[id].Request? && s.requests[id].operation == s.receipts[id].operation
      && s.receipts[id].operation in s.ledger && s.ledger[s.receipts[id].operation] == s.receipts[id].state
      && s.receipts[id].state != Started
  }

  ghost predicate Inv(s: Store) {
    && OneUse(s)
    && ReceiptsAgree(s)
    && (forall op <- s.ledger :: Backed(s, op))
    && (forall op, op' :: op in Unresolved(s.ledger) && op' in Unresolved(s.ledger) ==> op == op')
  }

  lemma WriteLedgerKeepsInv(s: Store, op: Operation, state: State)
    requires Inv(s) && Backed(s, op)
    requires op in s.ledger ==> s.ledger[op] in {Started, state}
    requires forall e <- s.executions ::
               e.operation == op && e.reported.Some? ==> state in {Started, Uncertain, e.reported.value}
    requires state in {Succeeded, RolledBack} ==> Execution(op, Some(state)) in s.executions
    requires state in {Started, Uncertain} ==> Unresolved(s.ledger) <= {op}
    ensures Inv(WriteLedger(s, op, state))
  {
    var s' := WriteLedger(s, op, state);
    forall o | o in s'.ledger ensures Backed(s', o) {
      assert Backed(s, o);
    }
    assert Unresolved(s'.ledger) <= Unresolved(s.ledger) + {op};
    assert state !in {Started, Uncertain} ==> op !in Unresolved(s'.ledger);
  }

  lemma WriteReceiptKeepsInv(s: Store, id: RequestId, op: Operation, state: State)
    requires Inv(s) && id in s.requests && s.requests[id].Request? && s.requests[id].operation == op
    requires op in s.ledger && s.ledger[op] == state && state != Started
    ensures Inv(WriteReceipt(s, id, op, state))
  {
    var s' := WriteReceipt(s, id, op, state);
    forall o | o in s'.ledger ensures Backed(s', o) {
      assert Backed(s, o);
    }
  }

  lemma ClosingKeepsInv(s: Store, id: RequestId, op: Operation, state: State)
    requires Inv(s) && id in s.requests && s.requests[id].Request? && s.requests[id].operation == op
    requires op in s.ledger ==> s.ledger[op] in {Started, state}
    requires forall e <- s.executions ::
               e.operation == op && e.reported.Some? ==> state in {Uncertain, e.reported.value}
    requires state in {Succeeded, RolledBack} ==> Execution(op, Some(state)) in s.executions
    requires state != Started && (state == Uncertain ==> Unresolved(s.ledger) <= {op})
    ensures forall s' <- Closing(s, id, op, state) :: Inv(s')
  {
    assert Backed(s, op);
    WriteLedgerKeepsInv(s, op, state);
    WriteReceiptKeepsInv(WriteLedger(s, op, state), id, op, state);
  }

  /** Only one-use execution depends on what was executed. */
  lemma OneUseIsEnough(s: Store, s': Store)
    requires Inv(s) && s' == s.(executions := s'.executions) && OneUse(s')
    ensures Inv(s')
  {
    hide OneUse;
    forall o | o in s.ledger ensures Backed(s', o) {
      assert Backed(s, o);
    }
  }

  lemma OneMoreUse(s: Store, e: Execution)
    requires OneUse(s) && e.operation in s.ledger && s.ledger[e.operation] == Started
    requires forall d <- s.executions :: d.operation != e.operation
    ensures OneUse(s.(executions := s.executions + [e]))
  {
  }

  lemma RunbookKeepsInv(s: Store, op: Operation, outcome: Outcome)
    requires Inv(s) && op in s.ledger && s.ledger[op] == Started
    requires forall e <- s.executions :: e.operation != op
    ensures Inv(StartRunbook(s, op)) && Inv(FinishRunbook(StartRunbook(s, op), op, outcome))
    ensures FinishRunbook(StartRunbook(s, op), op, outcome).executions == s.executions + [Execution(op, Some(outcome))]
  {
    var running := StartRunbook(s, op);
    var finished := FinishRunbook(running, op, outcome);
    OneMoreUse(s, Execution(op, None));
    OneMoreUse(s, Execution(op, Some(outcome)));
    assert finished == s.(executions := s.executions + [Execution(op, Some(outcome))]);
    OneUseIsEnough(s, running);
    OneUseIsEnough(s, finished);
  }

  lemma ExecutingKeepsInv(s: Store, id: RequestId, op: Operation, effect: Effect)
    requires Inv(s) && id in s.requests && s.requests[id].Request? && s.requests[id].operation == op
    requires op in s.ledger && s.ledger[op] == Started && Unresolved(s.ledger) <= {op}
    requires forall e <- s.executions :: e.operation != op
    ensures forall s' <- Executing(s, id, op, effect) :: Inv(s')
  {
    var outcome := Resulting(effect);
    RunbookKeepsInv(s, op, outcome);
    var running := StartRunbook(s, op);
    var finished := FinishRunbook(running, op, outcome);
    match effect {
      case Refused | Threw(false) =>
        ClosingKeepsInv(s, id, op, outcome);
      case Threw(true) =>
        ClosingKeepsInv(running, id, op, Uncertain);
      case Ran(_) =>
        ClosingKeepsInv(finished, id, op, outcome);
    }
  }

  lemma AnswerKnownKeepsInv(s: Store, id: RequestId, op: Operation)
    requires Inv(s) && id in s.requests && s.requests[id].Request? && s.requests[id].operation == op
    requires op in s.ledger && Unresolved(s.ledger) <= {op}
    ensures forall s' <- Closing(s, id, op, if s.ledger[op] == Started then Uncertain else s.ledger[op]) :: Inv(s')
  {
    ClosingKeepsInv(s, id, op, if s.ledger[op] == Started then Uncertain else s.ledger[op]);
  }

  lemma NewIsUnstarted(s: Store, op: Operation)
    requires Inv(s) && op !in s.ledger
    ensures forall e <- s.executions :: e.operation != op
  {
  }

  lemma RejectKeepsInv(s: Store, id: RequestId, op: Operation)
    requires Inv(s) && id in s.requests && s.requests[id].Request? && s.requests[id].operation == op
    requires op !in s.ledger
    ensures forall s' <- Closing(s, id, op, Rejected) :: Inv(s')
  {
    NewIsUnstarted(s, op);
    hide Inv, Closing;
    ClosingKeepsInv(s, id, op, Rejected);
  }

  lemma StartKeepsInv(s: Store, id: RequestId, op: Operation, effect: Effect)
    requires Inv(s) && id in s.requests && s.requests[id].Request? && s.requests[id].operation == op
    requires op !in s.ledger && Unresolved(s.ledger) == {}
    ensures Inv(WriteLedger(s, op, Started))
    ensures forall s' <- Executing(WriteLedger(s, op, Started), id, op, effect) :: Inv(s')
  {
    NewIsUnstarted(s, op);
    assert Backed(s, op);
    hide Inv, Executing, Backed;
    WriteLedgerKeepsInv(s, op, Started);
    ExecutingKeepsInv(WriteLedger(s, op, Started), id, op, effect);
  }

  /** Only a request whose operation is the unresolved one, if there is one, is taken up. */
  lemma ChosenIsUnresolved(s: Store)
    requires Inv(s) && Next(s).Chosen?
    ensures var request := s.requests[Next(s).at];
            request.Request? && Unresolved(s.ledger) <= {request.operation}
  {
    hide WithinCapacity, Pick, OneUse, ReceiptsAgree, Backed;
  }

  /** Every durable state of a worker call satisfies the invariant, so every crash point does. */
  lemma TraceKeepsInv(s: Store, effect: Effect)
    requires Inv(s)
    ensures forall s' <- Trace(s, effect) :: Inv(s')
  {
    hide Inv, Next, Advertised, Executing, Closing, WriteLedger;
    if Next(s).Chosen? {
      var id := Next(s).at;
      var op := s.requests[id].operation;
      ChosenIsUnresolved(s);
      if op in s.ledger {
        AnswerKnownKeepsInv(s, id, op);
      } else if !Advertised(s, op, s.plans[op].plan) {
        RejectKeepsInv(s, id, op);
      } else {
        StartKeepsInv(s, id, op, effect);
      }
    }
  }

  lemma MoreRequestsKeepInv(s: Store, s': Store)
    requires Inv(s) && s'.ledger == s.ledger && s'.receipts == s.receipts && s'.executions == s.executions
    requires forall id <- s.requests :: id in s'.requests && s'.requests[id] == s.requests[id]
    ensures Inv(s')
  {
    forall op | op in s'.ledger ensures Backed(s', op) {
      assert Backed(s, op);
      var id :| id in s.requests && s.requests[id].Request? && s.requests[id].operation == op;
      assert id in s'.requests;
    }
  }

  lemma CallKeepsInv(s: Store, effect: Effect, cut: nat)
    requires Inv(s)
    ensures Inv(Work(s, effect, cut))
  {
    hide Inv, Trace;
    TraceKeepsInv(s, effect);
  }

  /** Requests and receipts are written once, final ledger states stay, executions are only added. */
  ghost predicate Forward(a: Store, b: Store) {
    && (forall op <- a.ledger :: op in b.ledger && (b.ledger[op] == a.ledger[op] || a.ledger[op] == Started))
    && (forall id <- a.requests :: id in b.requests && b.requests[id] == a.requests[id])
    && (forall id <- a.receipts :: id in b.receipts && b.receipts[id] == a.receipts[id])
    && a.executions <= b.executions
  }

  /** What any durable state of a call that takes up request `id` may differ in. */
  predicate Touches(s: Store, id: RequestId, s': Store)
    requires id in s.requests && s.requests[id].Request?
  {
    var op := s.requests[id].operation;
    && s' == s.(ledger := s'.ledger, receipts := s'.receipts, executions := s'.executions)
    && (s'.ledger == s.ledger || (op in s'.ledger && s'.ledger == s.ledger[op := s'.ledger[op]]))
    && (op in s.ledger ==>
          s'.ledger[op] in {s.ledger[op], Uncertain} && (s'.ledger[op] == s.ledger[op] || s.ledger[op] == Started))
    && (s'.receipts == s.receipts || (op in s'.ledger && s'.receipts == s.receipts[id := Receipt(op, s'.ledger[op])]))
    && s.executions <= s'.executions
    && (op in s.ledger ==> s'.executions == s.executions)
  }

  lemma LedgerTouches(s: Store, id: RequestId, t: Store, state: State)
    requires id in s.requests && s.requests[id].Request? && Touches(s, id, t) && t.receipts == s.receipts
    requires s.requests[id].operation in s.ledger ==>
               (state == s.ledger[s.requests[id].operation]
                || (state == Uncertain && s.ledger[s.requests[id].operation] == Started))
    ensures Touches(s, id, WriteLedger(t, s.requests[id].operation, state))
    ensures WriteLedger(t, s.requests[id].operation, state).ledger == s.ledger[s.requests[id].operation := state]
  {
    var op := s.requests[id].operation;
    assert t.ledger[op := state] == s.ledger[op := state];
  }

  lemma ReceiptTouches(s: Store, id: RequestId, t: Store, state: State)
    requires id in s.requests && s.requests[id].Request? && Touches(s, id, t) && t.receipts == s.receipts
    requires t.ledger == s.ledger[s.requests[id].operation := state]
    ensures Touches(s, id, WriteReceipt(t, id, s.requests[id].operation, state))
    ensures WriteReceipt(t, id, s.requests[id].operation,
        state).receipts == s.receipts[id := Receipt(s.requests[id].operation, state)]
  {
  }

  lemma ClosingTouches(s: Store, id: RequestId, t: Store, state: State)
    requires id in s.requests && s.requests[id].Request? && Touches(s, id, t) && t.receipts == s.receipts
    requires s.requests[id].operation in s.ledger ==>
               (state == s.ledger[s.requests[id].operation]
                || (state == Uncertain && s.ledger[s.requests[id].operation] == Started))
    ensures forall s' <- Closing(t, id, s.requests[id].operation, state) :: Touches(s, id, s')
    ensures var last := Closing(t, id, s.requests[id].operation, state)[1];
            && last.receipts == s.receipts[id := Receipt(s.requests[id].operation, state)]
            && last.ledger == s.ledger[s.requests[id].operation := state]
  {
    hide Touches;
    LedgerTouches(s, id, t, state);
    ReceiptTouches(s, id, WriteLedger(t, s.requests[id].operation, state), state);
  }

  lemma ExecutingTouches(s: Store, id: RequestId, t: Store, effect: Effect)
    requires id in s.requests && s.requests[id].Request? && s.requests[id].operation !in s.ledger
    requires t == WriteLedger(s, s.requests[id].operation, Started)
    ensures forall s' <- Executing(t, id, s.requests[id].operation, effect) :: Touches(s, id, s')
    ensures var states := Executing(t, id, s.requests[id].operation, effect);
            states[|states| - 1].receipts == s.receipts[id := Receipt(s.requests[id].operation, Resulting(effect))]
            && states[|states| - 1].ledger == s.ledger[s.requests[id].operation := Resulting(effect)]
  {
    var op := s.requests[id].operation;
    var running := StartRunbook(t, op);
    match effect {
      case Refused | Threw(false) =>
        ClosingTouches(s, id, t, Resulting(effect));
      case Threw(true) =>
        ClosingTouches(s, id, running, Uncertain);
      case Ran(outcome) =>
        var finished := FinishRunbook(running, op, outcome);
        assert finished.executions == s.executions + [Execution(op, Some(outcome))];
        ClosingTouches(s, id, finished, outcome);
    }
  }

  /** The final ledger state that answering a request gives its operation. */
  function Verdict(s: Store, id: RequestId, effect: Effect): Outcome
    requires id in s.requests && Answerable(s, id)
  {
    var op := s.requests[id].operation;
    if op in s.ledger then (if s.ledger[op] == Started then Uncertain else s.ledger[op])
    else if !Advertised(s, op, s.plans[op].plan) then Rejected
    else Resulting(effect)
  }

  lemma AnsweringTouches(s: Store, id: RequestId, effect: Effect)
    requires id in s.requests && Answerable(s, id)
    ensures Answering(s, id, effect) != []
    ensures forall s' <- Answering(s, id, effect) :: Touches(s, id, s')
    ensures var states := Answering(s, id, effect); var op := s.requests[id].operation;
            && states[|states| - 1].receipts == s.receipts[id := Receipt(op, Verdict(s, id, effect))]
            && states[|states| - 1].ledger == s.ledger[op := Verdict(s, id, effect)]
  {
    var op := s.requests[id].operation;
    ClosingTouches(s, id, s, Verdict(s, id, effect));
    if op !in s.ledger {
      ExecutingTouches(s, id, WriteLedger(s, op, Started), effect);
    }
  }

  /** Wherever a call is cut, it has changed nothing or answered part of one request. */
  lemma WorkTouches(s: Store, effect: Effect, cut: nat)
    ensures Work(s, effect, cut) == s || (Next(s).Chosen? && Touches(s, Next(s).at, Work(s, effect, cut)))
  {
    hide Answering, Answerable, Skipped, Touches, Unresolved, Next;
    if Next(s).Chosen? {
      AnsweringTouches(s, Next(s).at, effect);
    }
  }

  lemma TouchesIsForward(s: Store, id: RequestId, s': Store)
    requires id in s.requests && Answerable(s, id) && !Skipped(s, id) && Touches(s, id, s')
    ensures Forward(s, s')
  {
  }

  lemma StepIsForward(s: Store, e: Event)
    ensures Forward(s, Step(s, e))
  {
    hide Work, Touches, Unresolved, Next, Answerable;
    if e.Call? {
      WorkTouches(s, e.effect, e.cut);
      if Step(s, e) != s {
        TouchesIsForward(s, Next(s).at, Step(s, e));
      }
    }
  }

  /** What the worker writes; submissions and plan changes neither read nor write it. */
  function WithWork(s: Store, w: Store): Store {
    s.(ledger := w.ledger, receipts := w.receipts, executions := w.executions)
  }

  lemma LinkIgnoresWork(s: Store, w: Store, id: RequestId, file: RequestFile)
    ensures Link(WithWork(s, w), id, file) == WithWork(Link(s, id, file), w)
    ensures Link(s, id, file) == WithWork(Link(s, id, file), s)
  {
  }

  lemma AdmitsIgnoresWork(s: Store, w: Store, operation: Operation, revision: Revision, id: RequestId)
    ensures Admits(WithWork(s, w), operation, revision, id) == Admits(s, operation, revision, id)
  {
  }

  lemma StepIgnoresWork(s: Store, w: Store, e: Event)
    requires !e.Call?
    ensures Step(WithWork(s, w), e) == WithWork(Step(s, e), w)
    ensures Step(s, e) == WithWork(Step(s, e), s)
  {
    hide Work, Link, Admits;
    match e {
      case Place(id, file) =>
        LinkIgnoresWork(s, w, id, file);
      case Admit(_, op, revision, id) =>
        AdmitsIgnoresWork(s, w, op, revision, id);
      case Publish(client) =>
        if client in s.admitted {
          LinkIgnoresWork(s, w, s.admitted[client].0, s.admitted[client].1);
        }
      case _ =>
    }
  }

  lemma StepKeepsInv(s: Store, e: Event)
    requires Inv(s)
    ensures Inv(Step(s, e))
  {
    if e.Call? {
      hide Inv, Work;
      CallKeepsInv(s, e.effect, e.cut);
    } else {
      StepIgnoresWork(s, s, e);
      StepIsForward(s, e);
      hide Inv, Step;
      MoreRequestsKeepInv(s, Step(s, e));
    }
  }

  /**
  Safety of every run from an empty queue, whatever is submitted, prepared, withdrawn, executed or
  interrupted: no runbook starts twice, at most one outcome is ever unknown, and receipts tell the ledger.
  */
  lemma {:induction false} EveryRunIsOneUse(events: seq<Event>)
    ensures Inv(Run(EMPTY, events))
  {
    if events != [] {
      EveryRunIsOneUse(events[..|events| - 1]);
      StepKeepsInv(Run(EMPTY, events[..|events| - 1]), events[|events| - 1]);
    }
  }

  /** All receipts for one operation agree, and a success was reported by the one execution there was. */
  lemma ReceiptsOfOneOperation(events: seq<Event>, id: RequestId, id': RequestId)
    requires var s := Run(EMPTY, events);
             id in s.receipts && id' in s.receipts && s.receipts[id].operation == s.receipts[id'].operation
    ensures var s := Run(EMPTY, events);
            && s.receipts[id] == s.receipts[id']
            && (s.receipts[id].state == Succeeded ==>
                  exists i :: && 0 <= i < |s.executions|
                              && s.executions[i] == Execution(s.receipts[id].operation, Some(Succeeded))
                              && forall j :: 0 <= j < |s.executions| && j != i ==>
                                   s.executions[j].operation != s.receipts[id].operation)
  {
    EveryRunIsOneUse(events);
  }

  // ---- What never changes back ----

  /** Uninterrupted, it has answered that request. */
  lemma WorkOnceAnswers(s: Store, effect: Effect)
    ensures !Next(s).Chosen? ==> WorkOnce(s, effect) == s
    ensures Next(s).Chosen? ==>
              var s' := WorkOnce(s, effect); var id := Next(s).at; var op := s.requests[id].operation;
              && s' in Trace(s, effect) && Touches(s, id, s')
              && s'.receipts == s.receipts[id := Receipt(op, Verdict(s, id, effect))]
              && s'.ledger == s.ledger[op := Verdict(s, id, effect)]
  {
    hide Answering, Answerable, Skipped, Touches, Unresolved, Verdict, Next;
    if Next(s).Chosen? {
      AnsweringTouches(s, Next(s).at, effect);
    }
  }

  lemma ForwardIsTransitive(a: Store, b: Store, c: Store)
    requires Forward(a, b) && Forward(b, c)
    ensures Forward(a, c)
  {
  }

  /** An entry appears only as started or rejected, and changes only once it is no longer started. */
  ghost predicate EntriesMove(a: map<Operation, State>, b: map<Operation, State>) {
    && (forall op <- b :: op !in a ==> b[op] in {Started, Rejected})
    && (forall op <- a :: op in b && (b[op] == a[op] || (a[op] == Started && b[op] != Started)))
  }

  ghost predicate MovesForward(states: seq<Store>) {
    forall i :: 0 <= i < |states| - 1 ==> EntriesMove(states[i].ledger, states[i + 1].ledger)
  }

  lemma ClosingMoves(s: Store, id: RequestId, op: Operation, state: State)
    requires if op in s.ledger then s.ledger[op] in {Started, state} && state != Started else state == Rejected
    ensures MovesForward([s] + Closing(s, id, op, state))
  {
  }

  lemma NothingMoves(ledger: map<Operation, State>)
    ensures EntriesMove(ledger, ledger)
  {
  }

  lemma ExecutingMoves(s: Store, id: RequestId, op: Operation, effect: Effect)
    requires op in s.ledger && s.ledger[op] == Started
    ensures MovesForward([s] + Executing(s, id, op, effect))
  {
    hide Closing, EntriesMove;
    var running := StartRunbook(s, op);
    NothingMoves(s.ledger);
    match effect {
      case Refused | Threw(false) => ClosingMoves(s, id, op, Resulting(effect));
      case Threw(true) => ClosingMoves(running, id, op, Uncertain);
      case Ran(outcome) =>
        var finished := FinishRunbook(running, op, outcome);
        ClosingMoves(finished, id, op, outcome);
        assert [s] + Executing(s, id, op, effect) == [s, running] + ([finished] + Closing(finished, id, op, outcome));
    }
  }

  lemma StartingMoves(s: Store, op: Operation)
    requires op !in s.ledger
    ensures EntriesMove(s.ledger, WriteLedger(s, op, Started).ledger)
  {
  }

  /** From each durable state of a worker call to the next. */
  lemma EachWriteMovesForward(s: Store, effect: Effect)
    ensures MovesForward(Trace(s, effect))
  {
    hide Next, Advertised, Unresolved, Closing, Executing, EntriesMove;
    if Next(s).Chosen? {
      var id := Next(s).at;
      var op := s.requests[id].operation;
      if op in s.ledger {
        ClosingMoves(s, id, op, if s.ledger[op] == Started then Uncertain else s.ledger[op]);
      } else if !Advertised(s, op, s.plans[op].plan) {
        ClosingMoves(s, id, op, Rejected);
      } else {
        StartingMoves(s, op);
        ExecutingMoves(WriteLedger(s, op, Started), id, op, effect);
      }
    }
  }

  lemma {:induction false} RunIsForward(s: Store, events: seq<Event>)
    ensures Forward(s, Run(s, events))
  {
    if events != [] {
      var prior, e := Run(s, events[..|events| - 1]), events[|events| - 1];
      RunIsForward(s, events[..|events| - 1]);
      StepIsForward(prior, e);
      hide Step, Forward;
      ForwardIsTransitive(s, prior, Step(prior, e));
    }
  }

  lemma BlockedTouch(s: Store, id: RequestId, s': Store)
    requires Unresolved(s.ledger) != {}
    requires id in s.requests && Answerable(s, id) && !Skipped(s, id) && Touches(s, id, s')
    ensures s'.executions == s.executions && Unresolved(s'.ledger) == Unresolved(s.ledger)
  {
    assert s.requests[id].operation in Unresolved(s.ledger);
  }

  lemma BlockedStep(s: Store, e: Event)
    requires Unresolved(s.ledger) != {}
    ensures Step(s, e).executions == s.executions
    ensures Unresolved(Step(s, e).ledger) == Unresolved(s.ledger)
  {
    hide Work, Next, Touches;
    if e.Call? {
      WorkTouches(s, e.effect, e.cut);
      if Step(s, e) != s {
        BlockedTouch(s, Next(s).at, Step(s, e));
      }
    }
  }

  /** An unknown outcome blocks every runbook for good, and stays unknown. */
  lemma {:induction false} BlockedForever(s: Store, events: seq<Event>)
    requires Unresolved(s.ledger) != {}
    ensures Run(s, events).executions == s.executions
    ensures Unresolved(Run(s, events).ledger) == Unresolved(s.ledger)
  {
    if events != [] {
      BlockedForever(s, events[..|events| - 1]);
      BlockedStep(Run(s, events[..|events| - 1]), events[|events| - 1]);
    }
  }

  // ---- Progress ----

  lemma {:induction false} BackedCount(s: Store, ops: set<Operation>, ids: set<RequestId>)
    requires ids <= s.requests.Keys
    requires forall op <- ops :: exists id <- ids :: s.requests[id].Request? && s.requests[id].operation == op
    ensures |ops| <= |ids|
  {
    if ops != {} {
      var op :| op in ops;
      var id :| id in ids && s.requests[id].Request? && s.requests[id].operation == op;
      forall o | o in ops - {op}
        ensures exists i <- ids - {id} :: s.requests[i].Request? && s.requests[i].operation == o
      {
        var i :| i in ids && s.requests[i].Request? && s.requests[i].operation == o;
        assert i in ids - {id};
      }
      BackedCount(s, ops - {op}, ids - {id});
    }
  }

  /** There are never more ledger entries than requests. */
  lemma LedgerWithinRequests(s: Store)
    requires Inv(s)
    ensures |s.ledger| <= |s.requests|
  {
    forall op | op in s.ledger.Keys
      ensures exists id <- s.requests.Keys :: s.requests[id].Request? && s.requests[id].operation == op
    {
      assert Backed(s, op);
    }
    BackedCount(s, s.ledger.Keys, s.requests.Keys);
    assert |s.ledger| == |s.ledger.Keys| && |s.requests| == |s.requests.Keys|;
  }

  lemma SkippedIffAnswered(s: Store)
    requires Unresolved(s.ledger) == {}
    ensures forall id <- s.requests :: Skipped(s, id) <==> id !in Unanswered(s)
  {
  }

  /** With nothing unresolved, the request a call looks at is the least unanswered one. */
  lemma NextIsLeast(s: Store)
    requires WithinCapacity(s) && Unresolved(s.ledger) == {} && Unanswered(s) != {}
    ensures var least := Least(Unanswered(s));
            Next(s) == if Answerable(s, least) then Chosen(least) else Broken(least)
  {
    hide Answerable, Pick, WithinCapacity;
    SkippedIffAnswered(s);
    hide Skipped, Unresolved;
    var least := Least(Unanswered(s));
    assert least in s.requests && !Skipped(s, least);
    var c := Pick(s, Sorted(s.requests.Keys));
    assert c.at in Unanswered(s) && !(least < c.at);
  }

  /** So an uninterrupted call gets somewhere exactly when that request can be taken up. */
  lemma CallAnswersIffHeadAnswerable(s: Store, effect: Effect)
    requires WithinCapacity(s) && Unresolved(s.ledger) == {} && Unanswered(s) != {}
    ensures WorkOnce(s, effect) != s <==> Answerable(s, Least(Unanswered(s)))
    ensures WorkOnce(s, effect).receipts != s.receipts <==> Answerable(s, Least(Unanswered(s)))
  {
    hide WorkOnce, Answerable, Unresolved;
    NextIsLeast(s);
    WorkOnceAnswers(s, effect);
  }

  function WorkAll(s: Store, effects: seq<Effect>): Store
    decreases |effects|
  {
    if effects == [] then s else WorkAll(WorkOnce(s, effects[0]), effects[1..])
  }

  /** A queue whose head cannot be taken up stays as it is, however often the worker is called. */
  lemma {:induction false} HeadHoldsUp(s: Store, effects: seq<Effect>)
    requires WithinCapacity(s) && Unresolved(s.ledger) == {} && Unanswered(s) != {}
    requires !Answerable(s, Least(Unanswered(s)))
    ensures WorkAll(s, effects) == s
    decreases |effects|
  {
    hide WorkOnce, Answerable, Unresolved, WithinCapacity, Unanswered;
    if effects != [] {
      CallAnswersIffHeadAnswerable(s, effects[0]);
      HeadHoldsUp(s, effects[1..]);
    }
  }

  lemma MalformedIsNotPassed(s: Store, bad: RequestId)
    requires bad in s.requests && s.requests[bad].Malformed? && bad !in s.receipts && Next(s).Chosen?
    ensures Next(s).at < bad
  {
    hide Pick, Unresolved;
    assert bad in Sorted(s.requests.Keys) && !Skipped(s, bad) && !Answerable(s, bad);
  }

  lemma TouchedReceipts(s: Store, id: RequestId, s': Store)
    requires id in s.requests && Answerable(s, id) && Touches(s, id, s')
    ensures s'.requests == s.requests && forall i :: i != id ==> (i in s'.receipts <==> i in s.receipts)
  {
  }

  lemma MalformedStep(s: Store, e: Event, bad: RequestId)
    requires bad in s.requests && s.requests[bad].Malformed? && bad !in s.receipts
    ensures var s' := Step(s, e);
            && bad in s'.requests && s'.requests[bad].Malformed? && bad !in s'.receipts
            && forall id :: id > bad ==> (id in s'.receipts <==> id in s.receipts)
  {
    hide Work, Touches, Next, Answerable, Unresolved, Admits;
    StepIsForward(s, e);
    if e.Call? {
      WorkTouches(s, e.effect, e.cut);
      if Step(s, e) != s {
        MalformedIsNotPassed(s, bad);
        TouchedReceipts(s, Next(s).at, Step(s, e));
      }
    } else {
      StepIgnoresWork(s, s, e);
    }
  }

  /** A malformed file is never got past: in every run, no request behind it is ever answered. */
  lemma {:induction false} MalformedBlocksForGood(s: Store, events: seq<Event>, bad: RequestId)
    requires bad in s.requests && s.requests[bad].Malformed? && bad !in s.receipts
    ensures var s' := Run(s, events);
            && bad in s'.requests && s'.requests[bad].Malformed? && bad !in s'.receipts
            && forall id :: id > bad ==> (id in s'.receipts <==> id in s.receipts)
  {
    hide Step;
    if events != [] {
      MalformedBlocksForGood(s, events[..|events| - 1], bad);
      MalformedStep(Run(s, events[..|events| - 1]), events[|events| - 1], bad);
    }
  }

  const ANY_PLAN := Prepare("", PlanFile(Plan("", "", None, None), true), Row("", "", None, None))

  /** A malformed file, and a good request behind it. */
  const JAM := [ANY_PLAN, Place(0, Malformed), Place(1, Request("", ""))]

  lemma JamIs()
    ensures var s := Run(EMPTY, JAM);
            && s.requests == map[0 := Malformed, 1 := Request("", "")] && s.receipts == map[] && s.ledger == map[]
            && s.plans == map["" := ANY_PLAN.planFile] && s.catalog == map["" := ANY_PLAN.row]
  {
    hide Work;
    var e1, e2, e3 := JAM[0], JAM[1], JAM[2];
    assert JAM[..2][..1] == JAM[..1] && JAM[..1][..0] == [];
    assert Run(EMPTY, JAM[..1]) == Step(EMPTY, e1);
    assert Run(EMPTY, JAM[..2]) == Step(Step(EMPTY, e1), e2);
    assert Run(EMPTY, JAM) == Step(Step(Step(EMPTY, e1), e2), e3);
  }

  /** Request 1 could be taken up, and never is. */
  lemma JammedQueue()
    ensures var s := Run(EMPTY, JAM);
            && Inv(s) && WithinCapacity(s) && Unresolved(s.ledger) == {} && Unanswered(s) == {0, 1}
            && !Answerable(s, Least(Unanswered(s))) && Answerable(s, 1)
            && (forall effects :: WorkAll(s, effects) == s)
            && (forall events :: 1 !in Run(s, events).receipts)
  {
    var s := Run(EMPTY, JAM);
    EveryRunIsOneUse(JAM);
    JamIs();
    hide Run, WorkAll, Inv;
    assert Unanswered(s) == {0, 1};
    forall effects ensures WorkAll(s, effects) == s {
      HeadHoldsUp(s, effects);
    }
    forall events ensures 1 !in Run(s, events).receipts {
      MalformedBlocksForGood(s, events, 0);
    }
  }

  predicate Conclusive(effect: Effect) {
    Resulting(effect) != Uncertain
  }

  ghost predicate Drainable(s: Store) {
    && Inv(s) && WithinCapacity(s) && Unresolved(s.ledger) == {}
    && forall id <- Unanswered(s) :: Answerable(s, id)
  }

  lemma OneCall(s: Store, effect: Effect)
    requires Drainable(s) && Unanswered(s) != {} && Conclusive(effect)
    ensures var s' := WorkOnce(s, effect);
            && Drainable(s')
            && s'.receipts.Keys == s.receipts.Keys + {Least(Unanswered(s))}
            && Unanswered(s') == Unanswered(s) - {Least(Unanswered(s))}
  {
    hide Trace, Work, Inv, Next, WorkOnce;
    var s' := WorkOnce(s, effect);
    NextIsLeast(s);
    WorkOnceAnswers(s, effect);
    TraceKeepsInv(s, effect);
    LedgerWithinRequests(s');
    var least := Least(Unanswered(s));
    assert Next(s) == Chosen(least);
    assert s.requests[least].operation !in Unresolved(s.ledger);
    assert Verdict(s, least, effect) != Uncertain;
    assert Unresolved(s'.ledger) == {};
    forall id | id in Unanswered(s') ensures Answerable(s', id) {
      assert id in Unanswered(s) && Answerable(s, id);
    }
  }

  function Elements(ids: seq<RequestId>): set<RequestId> {
    set id | id in ids
  }

  /** The `k` least of a set of IDs. */
  function FirstIds(ids: set<RequestId>, k: nat): set<RequestId>
    requires k <= |ids|
  {
    Elements(Sorted(ids)[..k])
  }

  lemma ElementsStep(least: RequestId, rest: seq<RequestId>)
    ensures Elements([least] + rest) == {least} + Elements(rest)
  {
  }

  lemma FirstIdsStep(ids: set<RequestId>, k: nat)
    requires 0 < k <= |ids|
    ensures FirstIds(ids, k) == {Least(ids)} + FirstIds(ids - {Least(ids)}, k - 1)
  {
    hide Elements;
    var rest := Sorted(ids - {Least(ids)});
    assert Sorted(ids) == [Least(ids)] + rest;
    assert Sorted(ids)[..k] == [Least(ids)] + rest[..k - 1];
    ElementsStep(Least(ids), rest[..k - 1]);
  }

  lemma NoFirstIds(ids: set<RequestId>)
    ensures FirstIds(ids, 0) == {}
  {
  }

  lemma WorkAllStep(s: Store, effects: seq<Effect>)
    ensures WorkAll(s, effects) == if effects == [] then s else WorkAll(WorkOnce(s, effects[0]), effects[1..])
  {
    hide WorkOnce;
  }

  lemma {:induction false} CallsKeepDrainable(s: Store, effects: seq<Effect>)
    requires Drainable(s) && |effects| <= |Unanswered(s)| && forall e <- effects :: Conclusive(e)
    ensures Drainable(WorkAll(s, effects))
    decreases |effects|
  {
    hide *;
    WorkAllStep(s, effects);
    if effects != [] {
      OneCall(s, effects[0]);
      CallsKeepDrainable(WorkOnce(s, effects[0]), effects[1..]);
    }
  }

  lemma OneFewer(ids: set<RequestId>)
    requires ids != {}
    ensures |ids - {Least(ids)}| == |ids| - 1
  {
  }

  lemma DrainStep(before: set<RequestId>, after: set<RequestId>, ids: set<RequestId>, rest: set<RequestId>, k: nat)
    requires 0 < k <= |ids| && after == before + {Least(ids)} && rest == ids - {Least(ids)}
    ensures k - 1 <= |rest| && after + FirstIds(rest, k - 1) == before + FirstIds(ids, k)
  {
    FirstIdsStep(ids, k);
    OneFewer(ids);
    hide FirstIds;
  }

  /** The calls answer exactly the least requests. */
  ghost predicate Drains(s: Store, effects: seq<Effect>) {
    && |effects| <= |Unanswered(s)|
    && WorkAll(s, effects).receipts.Keys == s.receipts.Keys + FirstIds(Unanswered(s), |effects|)
  }

  lemma DrainsMore(s: Store, effects: seq<Effect>)
    requires effects != [] && |effects| <= |Unanswered(s)| && Drains(WorkOnce(s, effects[0]), effects[1..])
    requires WorkOnce(s, effects[0]).receipts.Keys == s.receipts.Keys + {Least(Unanswered(s))}
    requires Unanswered(WorkOnce(s, effects[0])) == Unanswered(s) - {Least(Unanswered(s))}
    ensures Drains(s, effects)
  {
    hide WorkOnce, Unanswered, FirstIds;
    var s' := WorkOnce(s, effects[0]);
    DrainStep(s.receipts.Keys, s'.receipts.Keys, Unanswered(s), Unanswered(s'), |effects|);
  }

  lemma DrainsNothing(s: Store)
    ensures Drains(s, [])
  {
    hide Unanswered;
    NoFirstIds(Unanswered(s));
  }

  lemma {:induction false} CallsDrain(s: Store, effects: seq<Effect>)
    requires Drainable(s) && |effects| <= |Unanswered(s)| && forall e <- effects :: Conclusive(e)
    ensures Drains(s, effects)
    decreases |effects|
  {
    hide *;
    if effects == [] {
      DrainsNothing(s);
    } else {
      OneCall(s, effects[0]);
      OneFewer(Unanswered(s));
      CallsDrain(WorkOnce(s, effects[0]), effects[1..]);
      DrainsMore(s, effects);
    }
  }

  /** From a clean start, `k` uninterrupted calls with conclusive runbooks answer the `k` least unanswered requests. */
  lemma CallsDrainInOrder(s: Store, effects: seq<Effect>)
    requires Drainable(s) && |effects| <= |Unanswered(s)| && forall e <- effects :: Conclusive(e)
    ensures WorkAll(s, effects).receipts.Keys == s.receipts.Keys + FirstIds(Unanswered(s), |effects|)
  {
    CallsDrain(s, effects);
  }

  /** So as many calls as there are unanswered requests answer them all. */
  lemma {:induction false} CallsAnswerAll(s: Store, effects: seq<Effect>)
    requires Drainable(s) && |effects| == |Unanswered(s)| && forall e <- effects :: Conclusive(e)
    ensures Unanswered(WorkAll(s, effects)) == {}
    decreases |effects|
  {
    hide *;
    WorkAllStep(s, effects);
    if effects != [] {
      OneCall(s, effects[0]);
      CallsAnswerAll(WorkOnce(s, effects[0]), effects[1..]);
    }
  }

  // ---- A call among other events ----

  /** One write of a worker call, on whatever store is there by then. */
  datatype Write =
    | ToLedger(operation: Operation, state: State)
    | ToReceipts(id: RequestId, operation: Operation, state: State)
    | Launch(operation: Operation)
    | Report(operation: Operation, outcome: Outcome)

  function Written(s: Store, w: Write): Store {
    match w
    case ToLedger(op, state) => WriteLedger(s, op, state)
    case ToReceipts(id, op, state) => WriteReceipt(s, id, op, state)
    case Launch(op) => StartRunbook(s, op)
    case Report(op, outcome) => if s.executions == [] then s else FinishRunbook(s, op, outcome)
  }

  function AllWritten(s: Store, writes: seq<Write>): Store {
    if writes == [] then s else Written(AllWritten(s, writes[..|writes| - 1]), writes[|writes| - 1])
  }

  function ClosingWrites(id: RequestId, op: Operation, state: State): seq<Write> {
    [ToLedger(op, state), ToReceipts(id, op, state)]
  }

  function Process(op: Operation, effect: Effect): seq<Write> {
    match effect
    case Refused | Threw(false) => []
    case Threw(true) => [Launch(op)]
    case Ran(outcome) => [Launch(op), Report(op, outcome)]
  }

  /** The writes of a call, fixed once it has read its request, the plan, the ledger and the catalog. */
  function WritesOf(s: Store, effect: Effect): seq<Write> {
    if !Next(s).Chosen? then []
    else
      var id := Next(s).at;
      var op := s.requests[id].operation;
      if op in s.ledger || !Advertised(s, op, s.plans[op].plan)
      then ClosingWrites(id, op, Verdict(s, id, effect))
      else
        [ToLedger(op, Started)] + Process(op, effect) + ClosingWrites(id, op, Resulting(effect))
  }

  /** A move of the worker, or an event between two of its writes. */
  datatype Move = Own | Other(event: Event)

  function OwnMoves(moves: seq<Move>): nat {
    if moves == [] then 0
    else OwnMoves(moves[..|moves| - 1]) + if moves[|moves| - 1].Own? then 1 else 0
  }

  function OtherMoves(moves: seq<Move>): seq<Event> {
    if moves == [] then []
    else OtherMoves(moves[..|moves| - 1]) + if moves[|moves| - 1].Other? then [moves[|moves| - 1].event] else []
  }

  /** The writes in order, with the other events where they fall. */
  function Woven(s: Store, writes: seq<Write>, moves: seq<Move>): Store {
    if moves == [] then s
    else
      var before := Woven(s, writes, moves[..|moves| - 1]);
      match moves[|moves| - 1]
      case Own =>
        var done := OwnMoves(moves[..|moves| - 1]);
        if done < |writes| then Written(before, writes[done]) else before
      case Other(e) => Step(before, e)
  }

  lemma WriteIsWork(s: Store, t: Store, w: Write)
    ensures Written(s, w) == WithWork(s, Written(s, w))
    ensures t == WithWork(t, s) ==> Written(t, w) == WithWork(t, Written(s, w))
  {
  }

  lemma WriteCommutes(s: Store, w: Write, e: Event)
    requires !e.Call?
    ensures Step(Written(s, w), e) == Written(Step(s, e), w)
  {
    hide Step, Written;
    StepIgnoresWork(s, Written(s, w), e);
    WriteIsWork(s, Step(s, e), w);
  }

  lemma {:induction false} WriteCommutesWithRun(s: Store, w: Write, events: seq<Event>)
    requires forall e <- events :: !e.Call?
    ensures Run(Written(s, w), events) == Written(Run(s, events), w)
  {
    hide Step, Written;
    if events != [] {
      WriteCommutesWithRun(s, w, events[..|events| - 1]);
      WriteCommutes(Run(s, events[..|events| - 1]), w, events[|events| - 1]);
    }
  }

  lemma NothingWritten(s: Store)
    ensures AllWritten(s, []) == s == Run(s, [])
  {
  }

  lemma AllWrittenMore(s: Store, writes: seq<Write>, done: nat)
    requires done < |writes|
    ensures AllWritten(s, writes[..done + 1]) == Written(AllWritten(s, writes[..done]), writes[done])
  {
    hide Written;
    assert writes[..done + 1][..done] == writes[..done];
  }

  lemma RunMore(s: Store, events: seq<Event>, e: Event)
    ensures Run(s, events + [e]) == Step(Run(s, events), e)
  {
    hide Step;
    assert (events + [e])[..|events|] == events;
  }

  lemma {:induction false} WovenIsWritten(s: Store, writes: seq<Write>, moves: seq<Move>)
    requires forall m <- moves :: m.Other? ==> !m.event.Call?
    ensures forall e <- OtherMoves(moves) :: !e.Call?
    ensures var done := if OwnMoves(moves) < |writes| then OwnMoves(moves) else |writes|;
            Woven(s, writes, moves) == Run(AllWritten(s, writes[..done]), OtherMoves(moves))
  {
    hide Step, Written, AllWritten, Run;
    if moves == [] {
      assert writes[..0] == [];
      NothingWritten(s);
    } else {
      var init, last := moves[..|moves| - 1], moves[|moves| - 1];
      WovenIsWritten(s, writes, init);
      var done := OwnMoves(init);
      if last.Other? {
        RunMore(AllWritten(s, writes[..if done < |writes| then done else |writes|]), OtherMoves(init), last.event);
      } else {
        assert OtherMoves(moves) == OtherMoves(init);
        if done < |writes| {
          WriteCommutesWithRun(AllWritten(s, writes[..done]), writes[done], OtherMoves(init));
          AllWrittenMore(s, writes, done);
        }
      }
    }
  }

  /** Each state is the one before with the next write. */
  ghost predicate Chained(states: seq<Store>, writes: seq<Write>) {
    && |states| == |writes| + 1
    && forall k :: 0 <= k < |writes| ==> states[k + 1] == Written(states[k], writes[k])
  }

  lemma ChainMore(s: Store, w: Write, states: seq<Store>, writes: seq<Write>)
    requires Chained(states, writes) && states[0] == Written(s, w)
    ensures Chained([s] + states, [w] + writes)
  {
    hide Written;
  }

  lemma ClosingIsChained(s: Store, id: RequestId, op: Operation, state: State)
    ensures Chained([s] + Closing(s, id, op, state), ClosingWrites(id, op, state))
  {
  }

  lemma ExecutingIsChained(s: Store, id: RequestId, op: Operation, effect: Effect)
    ensures Chained([s] + Executing(s, id, op, effect), Process(op, effect) + ClosingWrites(id, op, Resulting(effect)))
  {
    hide Chained, Closing, ClosingWrites;
    var running := StartRunbook(s, op);
    var closing := ClosingWrites(id, op, Resulting(effect));
    match effect {
      case Refused | Threw(false) =>
        ClosingIsChained(s, id, op, Resulting(effect));
        assert Process(op, effect) + closing == closing;
      case Threw(true) =>
        ClosingIsChained(running, id, op, Uncertain);
        ChainMore(s, Launch(op), [running] + Closing(running, id, op, Uncertain), closing);
      case Ran(outcome) =>
        var finished := FinishRunbook(running, op, outcome);
        var closed := [finished] + Closing(finished, id, op, outcome);
        ClosingIsChained(finished, id, op, outcome);
        ChainMore(running, Report(op, outcome), closed, closing);
        ChainMore(s, Launch(op), [running] + closed, [Report(op, outcome)] + closing);
        assert [s] + ([running] + closed) == [s] + Executing(s, id, op, effect);
        assert [Launch(op)] + ([Report(op, outcome)] + closing) == Process(op, effect) + closing;
    }
  }

  lemma NoWrites(s: Store)
    ensures Chained([s], [])
  {
  }

  lemma TraceIsChained(s: Store, effect: Effect)
    ensures Chained(Trace(s, effect), WritesOf(s, effect))
  {
    hide Next, Advertised, Unresolved, Chained, Closing, ClosingWrites, Executing, Process;
    if Next(s).Chosen? {
      var id := Next(s).at;
      var op := s.requests[id].operation;
      if op in s.ledger || !Advertised(s, op, s.plans[op].plan) {
        ClosingIsChained(s, id, op, Verdict(s, id, effect));
      } else {
        var started := WriteLedger(s, op, Started);
        var rest := Process(op, effect) + ClosingWrites(id, op, Resulting(effect));
        ExecutingIsChained(started, id, op, effect);
        ChainMore(s, ToLedger(op, Started), [started] + Executing(started, id, op, effect), rest);
        assert [ToLedger(op, Started)] + rest == WritesOf(s, effect);
      }
    } else {
      NoWrites(s);
      assert Trace(s, effect) == [s] && WritesOf(s, effect) == [];
    }
  }

  lemma {:induction false} StatesAreWritten(s: Store, states: seq<Store>, writes: seq<Write>, i: nat)
    requires Chained(states, writes) && states[0] == s && i <= |writes|
    ensures states[i] == AllWritten(s, writes[..i])
  {
    hide Written;
    if i != 0 {
      StatesAreWritten(s, states, writes, i - 1);
      assert writes[..i][..i - 1] == writes[..i - 1];
    }
  }

  /** The states of a call that nothing interrupts are its writes one after the other. */
  lemma TraceIsWrites(s: Store, effect: Effect, i: nat)
    requires i < |Trace(s, effect)|
    ensures |Trace(s, effect)| == |WritesOf(s, effect)| + 1
    ensures Trace(s, effect)[i] == AllWritten(s, WritesOf(s, effect)[..i])
  {
    TraceIsChained(s, effect);
    hide Trace, WritesOf, Written;
    StatesAreWritten(s, Trace(s, effect), WritesOf(s, effect), i);
  }

  lemma {:induction false} RunConcat(s: Store, early: seq<Event>, late: seq<Event>)
    ensures Run(s, early + late) == Run(Run(s, early), late)
  {
    hide Step;
    if late == [] {
      assert early + late == early;
    } else {
      assert (early + late)[..|early + late| - 1] == early + late[..|late| - 1];
      RunConcat(s, early, late[..|late| - 1]);
    }
  }

  lemma RunOne(s: Store, e: Event)
    ensures Run(s, [e]) == Step(s, e)
  {
    hide Step;
    assert [e][..0] == [];
  }

  lemma WovenIsRun(s: Store, effect: Effect, moves: seq<Move>)
    requires forall m <- moves :: m.Other? ==> !m.event.Call?
    ensures Woven(s, WritesOf(s, effect), moves) == Run(s, [Call(effect, OwnMoves(moves))] + OtherMoves(moves))
  {
    hide Trace, WritesOf, Written, AllWritten, Woven;
    var writes, call := WritesOf(s, effect), Call(effect, OwnMoves(moves));
    var done := if OwnMoves(moves) < |writes| then OwnMoves(moves) else |writes|;
    WovenIsWritten(s, writes, moves);
    TraceIsChained(s, effect);
    TraceIsWrites(s, effect, done);
    RunOne(s, call);
    RunConcat(s, [call], OtherMoves(moves));
  }

  /** One worker call after the other, each with the events that fall between its writes; a crash leaves writes out. */
  datatype Span = Span(effect: Effect, moves: seq<Move>)

  function History(s: Store, spans: seq<Span>): Store {
    if spans == [] then s
    else
      var before, span := History(s, spans[..|spans| - 1]), spans[|spans| - 1];
      Woven(before, WritesOf(before, span.effect), span.moves)
  }

  function Straightened(spans: seq<Span>): seq<Event> {
    if spans == [] then []
    else
      var span := spans[|spans| - 1];
      Straightened(spans[..|spans| - 1]) + ([Call(span.effect, OwnMoves(span.moves))] + OtherMoves(span.moves))
  }

  lemma RunNothing(s: Store)
    ensures Run(s, []) == s
  {
  }

  /**
  Submissions and plan changes may fall between the writes of a call. What is then on disk, at any moment,
  is the state of a run in which each call comes first: so every theorem about runs holds of it.
  */
  lemma {:induction false} HistoryIsRun(s: Store, spans: seq<Span>)
    requires forall span <- spans :: forall m <- span.moves :: m.Other? ==> !m.event.Call?
    ensures History(s, spans) == Run(s, Straightened(spans))
  {
    hide Woven, WritesOf, Run;
    if spans == [] {
      RunNothing(s);
    } else {
      var init, span := spans[..|spans| - 1], spans[|spans| - 1];
      HistoryIsRun(s, init);
      WovenIsRun(History(s, init), span.effect, span.moves);
      RunConcat(s, Straightened(init), [Call(span.effect, OwnMoves(span.moves))] + OtherMoves(span.moves));
    }
  }

  // ---- The size of the queue ----

  function IdsOf(admitted: map<Client, (RequestId, RequestFile)>, clients: set<Client>): set<RequestId>
    requires clients <= admitted.Keys
  {
    set c | c in clients :: admitted[c].0
  }

  /** The request files there are, and those that admitted submissions will add. */
  function Names(s: Store): set<RequestId> {
    s.requests.Keys + IdsOf(s.admitted, s.admitted.Keys)
  }

  /** Every request came through `submit`, with at most `clients` submissions between check and publication. */
  predicate Undisturbed(events: seq<Event>, clients: nat) {
    && |Run(EMPTY, events).admitted| <= clients
    && (events == [] || (!events[|events| - 1].Place? && Undisturbed(events[..|events| - 1], clients)))
  }

  lemma IdsOfSplit(admitted: map<Client, (RequestId, RequestFile)>, clients: set<Client>, c: Client)
    requires c in clients && clients <= admitted.Keys
    ensures IdsOf(admitted, clients) == IdsOf(admitted, clients - {c}) + {admitted[c].0}
  {
    forall id | id in IdsOf(admitted, clients) ensures id in IdsOf(admitted, clients - {c}) + {admitted[c].0} {
      var d :| d in clients && admitted[d].0 == id;
      assert d == c || d in clients - {c};
    }
  }

  lemma {:induction false} IdsOfCount(admitted: map<Client, (RequestId, RequestFile)>, clients: set<Client>)
    requires clients <= admitted.Keys
    ensures |IdsOf(admitted, clients)| <= |clients|
  {
    if clients == {} {
      assert IdsOf(admitted, clients) == {};
    } else {
      var c :| c in clients;
      IdsOfCount(admitted, clients - {c});
      IdsOfSplit(admitted, clients, c);
    }
  }

  lemma IdsOfFewer(admitted: map<Client, (RequestId, RequestFile)>, c: Client)
    requires c in admitted
    ensures IdsOf(admitted, admitted.Keys) == IdsOf(admitted - {c}, (admitted - {c}).Keys) + {admitted[c].0}
  {
    IdsOfSplit(admitted, admitted.Keys, c);
    assert (admitted - {c}).Keys == admitted.Keys - {c};
    assert IdsOf(admitted - {c}, (admitted - {c}).Keys) == IdsOf(admitted, admitted.Keys - {c});
  }

  lemma AdmissionNames(s: Store, client: Client, id: RequestId, file: RequestFile)
    requires client !in s.admitted
    ensures Names(s.(admitted := s.admitted[client := (id, file)])) == Names(s) + {id}
  {
    var admitted := s.admitted[client := (id, file)];
    IdsOfFewer(admitted, client);
    assert admitted - {client} == s.admitted;
    hide IdsOf;
  }

  lemma NamesCount(s: Store)
    ensures |Names(s)| <= |s.requests| + |s.admitted|
  {
    IdsOfCount(s.admitted, s.admitted.Keys);
    UnionCount(s.requests.Keys, IdsOf(s.admitted, s.admitted.Keys));
  }

  lemma PublicationNames(s: Store, client: Client)
    requires client in s.admitted
    ensures Names(Step(s, Publish(client))) == Names(s)
  {
    IdsOfFewer(s.admitted, client);
    hide IdsOf;
  }

  lemma SameNames(s: Store, s': Store)
    requires s'.requests == s.requests && s'.admitted == s.admitted
    ensures Names(s') == Names(s)
  {
    hide IdsOf;
  }

  lemma CallLeavesRequests(s: Store, effect: Effect, cut: nat)
    ensures var s' := Work(s, effect, cut); s'.requests == s.requests && s'.admitted == s.admitted
  {
    hide Work, Next, Unresolved, Answerable;
    WorkTouches(s, effect, cut);
  }

  lemma OtherNames(s: Store, e: Event)
    requires e.Call? || e.Prepare? || e.Withdraw? || e.Lose?
    ensures Names(Step(s, e)) == Names(s) && Step(s, e).admitted == s.admitted && Step(s, e).requests == s.requests
  {
    hide Names, Work, Admits, Link;
    if e.Call? {
      CallLeavesRequests(s, e.effect, e.cut);
    }
    SameNames(s, Step(s, e));
  }

  lemma KnownName(s: Store, id: RequestId)
    requires id in s.requests
    ensures Names(s) + {id} == Names(s)
  {
  }

  lemma AdmissionKeepsBound(s: Store, e: Event, clients: nat)
    requires clients >= 1 && |Names(s)| <= CAPACITY - 1 + clients && !e.Place?
    requires |Step(s, e).admitted| <= clients
    ensures |Names(Step(s, e))| <= CAPACITY - 1 + clients
  {
    hide Names, Work;
    match e {
      case Admit(client, op, revision, id) =>
        if client !in s.admitted && Admits(s, op, revision, id) {
          AdmissionNames(s, client, id, Request(op, revision));
          NamesCount(Step(s, e));
          if id in s.requests {
            KnownName(s, id);
          }
        }
      case Publish(client) =>
        if client in s.admitted {
          PublicationNames(s, client);
        }
      case _ =>
        OtherNames(s, e);
    }
  }

  /** With at most `clients` submissions in progress at once, the queue never exceeds `127 + clients` requests. */
  lemma {:induction false} QueueBound(events: seq<Event>, clients: nat)
    requires clients >= 1 && Undisturbed(events, clients)
    ensures |Run(EMPTY, events).requests| <= |Names(Run(EMPTY, events))| <= CAPACITY - 1 + clients
  {
    var s := Run(EMPTY, events);
    if events == [] {
      assert Names(s) == {};
    } else {
      QueueBound(events[..|events| - 1], clients);
      AdmissionKeepsBound(Run(EMPTY, events[..|events| - 1]), events[|events| - 1], clients);
    }
    SubsetCount(s.requests.Keys, Names(s));
  }

  lemma OverfullCall(s: Store, effect: Effect, cut: nat)
    requires |s.requests| > CAPACITY
    ensures Work(s, effect, cut) == s
  {
    assert Next(s) == Nothing;
  }

  lemma RequestsGrow(s: Store, e: Event)
    ensures s.requests.Keys <= Step(s, e).requests.Keys
  {
    hide Step;
    StepIsForward(s, e);
  }

  lemma OverfullStep(s: Store, e: Event)
    requires |s.requests| > CAPACITY
    ensures |Step(s, e).requests| > CAPACITY
    ensures Step(s, e).ledger == s.ledger && Step(s, e).receipts == s.receipts && Step(s, e).executions == s.executions
  {
    hide Admits, Forward, Work;
    if e.Call? {
      OverfullCall(s, e.effect, e.cut);
    }
    RequestsGrow(s, e);
    SubsetCount(s.requests.Keys, Step(s, e).requests.Keys);
  }

  /** A queue that has outgrown its capacity is never worked again: requests only accumulate. */
  lemma {:induction false} OverfullIsStuck(s: Store, events: seq<Event>)
    requires |s.requests| > CAPACITY
    ensures |Run(s, events).requests| > CAPACITY
    ensures Run(s, events).ledger == s.ledger && Run(s, events).receipts == s.receipts
    ensures Run(s, events).executions == s.executions
  {
    hide Forward, Touches;
    if events != [] {
      var init := events[..|events| - 1];
      OverfullIsStuck(s, init);
      OverfullStep(Run(s, init), events[|events| - 1]);
    }
  }

  // ---- The bound is reached ----

  /** `n` submissions, one after the other. */
  function Serial(n: nat): seq<Event> {
    if n == 0 then [ANY_PLAN]
    else Serial(n - 1) + [Admit(0, "", "", n - 1), Publish(0)]
  }

  ghost predicate Filled(s: Store, n: nat) {
    && |s.catalog| == 1 && "" in s.catalog && s.catalog[""].revision == ""
    && s.admitted == map[]
    && |s.requests| == n && forall id <- s.requests :: id < n
  }

  lemma AdmitIs(s: Store, n: nat)
    requires Filled(s, n) && n < CAPACITY
    ensures Step(s, Admit(0, "", "", n)) == s.(admitted := map[0 := (n, Request("", ""))])
  {
  }

  lemma PublishIs(s: Store, n: nat)
    requires s.admitted == map[0 := (n, Request("", ""))] && n !in s.requests
    ensures Step(s, Publish(0)) == s.(requests := s.requests[n := Request("", "")], admitted := map[])
  {
    assert s.admitted - {0} == map[];
  }

  lemma SubmitFills(s: Store, n: nat)
    requires Filled(s, n) && n < CAPACITY
    ensures Filled(Step(Step(s, Admit(0, "", "", n)), Publish(0)), n + 1)
    ensures |Step(s, Admit(0, "", "", n)).admitted| == 1
  {
    hide Step;
    assert n !in s.requests;
    AdmitIs(s, n);
    PublishIs(s.(admitted := map[0 := (n, Request("", ""))]), n);
  }

  lemma UndisturbedStep(events: seq<Event>, e: Event, clients: nat)
    requires Undisturbed(events, clients) && !e.Place? && |Step(Run(EMPTY, events), e).admitted| <= clients
    ensures Undisturbed(events + [e], clients)
    ensures Run(EMPTY, events + [e]) == Step(Run(EMPTY, events), e)
  {
    hide Step;
    assert (events + [e])[..|events + [e]| - 1] == events;
  }

  lemma NothingHappened(clients: nat)
    ensures Undisturbed([], clients) && Run(EMPTY, []) == EMPTY
  {
  }

  lemma {:induction false} SerialFills(n: nat, clients: nat)
    requires n <= CAPACITY && clients >= 1
    ensures Filled(Run(EMPTY, Serial(n)), n) && Undisturbed(Serial(n), clients)
  {
    hide Run, Undisturbed;
    if n == 0 {
      NothingHappened(clients);
      UndisturbedStep([], ANY_PLAN, clients);
      assert [] + [ANY_PLAN] == Serial(n);
    } else {
      var prior := Serial(n - 1);
      var a, p := Admit(0, "", "", n - 1), Publish(0);
      SerialFills(n - 1, clients);
      SubmitFills(Run(EMPTY, prior), n - 1);
      hide Step;
      UndisturbedStep(prior, a, clients);
      UndisturbedStep(prior + [a], p, clients);
      assert Serial(n) == prior + [a] + [p];
    }
  }

  /** Two submissions that both pass the check at 127 requests. */
  function Race(): seq<Event> {
    Serial(CAPACITY - 1) + [Admit(0, "", "", 1000)] + [Admit(1, "", "", 1001)] + [Publish(0)] + [Publish(1)]
  }

  /** Both checks pass before either file is there. */
  lemma RaceAdmits(s: Store)
    requires Filled(s, CAPACITY - 1)
    ensures var s1 := Step(s, Admit(0, "", "", 1000)); var s2 := Step(s1, Admit(1, "", "", 1001));
            && |s1.admitted| == 1 && s2.requests == s.requests
            && s2.admitted == map[0 := (1000, Request("", "")), 1 := (1001, Request("", ""))]
  {
    hide Work, Link;
  }

  lemma RacePublishes(s2: Store)
    requires s2.admitted == map[0 := (1000, Request("", "")), 1 := (1001, Request("", ""))]
    requires 1000 !in s2.requests && 1001 !in s2.requests && |s2.requests| == CAPACITY - 1
    ensures var s3 := Step(s2, Publish(0)); var s4 := Step(s3, Publish(1));
            && |s2.admitted| == 2 && |s3.admitted| == 1 && |s4.admitted| == 0 && |s4.requests| == CAPACITY + 1
  {
    hide Work, Admits;
    assert s2.admitted - {0} == map[1 := (1001, Request("", ""))];
    assert s2.admitted - {0} - {1} == map[];
  }

  lemma RaceFrom(s: Store)
    requires Filled(s, CAPACITY - 1)
    ensures var s1 := Step(s, Admit(0, "", "", 1000)); var s2 := Step(s1, Admit(1, "", "", 1001));
            var s3 := Step(s2, Publish(0)); var s4 := Step(s3, Publish(1));
            && |s1.admitted| == 1 && |s2.admitted| == 2 && |s3.admitted| == 1 && |s4.admitted| == 0
            && |s4.requests| == CAPACITY + 1
  {
    RaceAdmits(s);
    assert 1000 !in s.requests && 1001 !in s.requests;
    hide Step;
    RacePublishes(Step(Step(s, Admit(0, "", "", 1000)), Admit(1, "", "", 1001)));
  }

  lemma RaceOverfills(clients: nat)
    requires clients >= 2
    ensures Undisturbed(Race(), clients) && |Run(EMPTY, Race()).requests| == CAPACITY + 1
  {
    var e0 := Serial(CAPACITY - 1);
    SerialFills(CAPACITY - 1, clients);
    RaceFrom(Run(EMPTY, e0));
    hide Serial, Run, Undisturbed, Filled, Step;
    UndisturbedStep(e0, Admit(0, "", "", 1000), clients);
    UndisturbedStep(e0 + [Admit(0, "", "", 1000)], Admit(1, "", "", 1001), clients);
    UndisturbedStep(e0 + [Admit(0, "", "", 1000)] + [Admit(1, "", "", 1001)], Publish(0), clients);
    UndisturbedStep(e0 + [Admit(0, "", "", 1000)] + [Admit(1, "", "", 1001)] + [Publish(0)], Publish(1), clients);
  }

  /** The documented bound holds of every run if and only if submissions do not overlap. */
  lemma QueueBoundNeedsSerialSubmits(clients: nat)
    requires clients >= 1
    ensures (forall events :: Undisturbed(events, clients) ==> |Run(EMPTY, events).requests| <= CAPACITY)
        <==> clients == 1
  {
    if clients == 1 {
      forall events | Undisturbed(events, 1) ensures |Run(EMPTY, events).requests| <= CAPACITY {
        QueueBound(events, 1);
      }
    } else {
      RaceOverfills(clients);
    }
  }
}
