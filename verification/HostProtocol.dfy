/**
The durable side of Apple host reconciliation: receipts, start reservations and the container
daemon, with the invariant that ties them together.

A `World` is everything that outlives the operator process.  A mutation is sent to the daemon and
lands at most once, at any later time and whatever exit code the command returned, so a sent mutation
stays `inflight` until it lands, or until the daemon drops it for good.  Containers change in no other way.
*/
module HostProtocol {
  import opened Options
  import opened Sets

  type Name = string
  type Token = string

  datatype RunState = Running | Stopped | Created | Exited
  datatype Container = Container(state: RunState, owner: Option<Token>)

  datatype Kind = Create | Start | Stop
  datatype Order = Order(name: Name, kind: Kind)
  datatype Mutation = Mutation(order: Order, operation: Token)

  datatype Progress = Requested | Acknowledged | Observed
  datatype Action = Action(order: Order, progress: Progress)

  datatype Phase = Prepared | Completed | RolledBack | Uncertain | Reconciled
  datatype Failure = OperationFailed | RecoveryIncomplete
  datatype Health = Connected | AwaitingAdoption
  datatype Outcome = AllRunning | NoNewRunning | PartialRuntimeState

  datatype Settlement = Settlement(outcome: Outcome, states: map<Name, Option<RunState>>, readiness: map<Name, Health>)

  datatype Receipt = Receipt(
    revision: string, operation: Token, phase: Phase,
    before: map<Name, Option<RunState>>, baseline: map<Name, Health>,
    actions: seq<Action>, failure: Option<Failure>, settlement: Option<Settlement>)

  datatype Reservation = Reservation(operation: Token, revision: string, settled: bool)

  datatype World = World(
    receipt: Option<Receipt>,
    reservations: map<Name, Reservation>,
    containers: map<Name, Container>,
    inflight: seq<Mutation>,
    sent: map<Token, seq<Order>>)

  const MAX_ACTIONS := 128
  const MAX_INSTANCES := 16

  // ---- What the orders of a receipt should have done to the daemon ----

  /** As much of a container as the protocol depends on. */
  datatype Level = Missing | Idle | Live

  function LevelIn(containers: map<Name, Container>, n: Name): Level {
    if n !in containers then Missing else if containers[n].state == Running then Live else Idle
  }

  function LevelSeen(state: Option<RunState>): Level {
    if state.None? then Missing else if state.value == Running then Live else Idle
  }

  function Levels(containers: map<Name, Container>, names: set<Name>): map<Name, Level> {
    map n | n in names :: LevelIn(containers, n)
  }

  function Origin(before: map<Name, Option<RunState>>): map<Name, Level> {
    map n | n in before :: LevelSeen(before[n])
  }

  /** The level a mutation acts on; on any other level the daemon refuses it. */
  function Needs(kind: Kind): Level {
    match kind
    case Create => Missing
    case Start => Idle
    case Stop => Live
  }

  function Gives(kind: Kind): Level {
    if kind == Start then Live else Idle
  }

  function Init<T>(s: seq<T>): seq<T>
    requires s != []
  {
    s[..|s| - 1]
  }

  function Last<T>(s: seq<T>): T
    requires s != []
  {
    s[|s| - 1]
  }

  function Orders(actions: seq<Action>): seq<Order> {
    seq(|actions|, i requires 0 <= i < |actions| => actions[i].order)
  }

  /** The levels reached from `origin` when each order takes effect in turn. */
  function Replay(origin: map<Name, Level>, orders: seq<Order>): (levels: map<Name, Level>)
    ensures levels.Keys == origin.Keys
  {
    if orders == [] then origin
    else
      var levels := Replay(origin, Init(orders));
      var o := Last(orders);
      if o.name in levels then levels[o.name := Gives(o.kind)] else levels
  }

  predicate Admissible(origin: map<Name, Level>, orders: seq<Order>, o: Order) {
    && o.name in origin
    && origin[o.name] != Live
    && Replay(origin, orders)[o.name] == Needs(o.kind)
    && o !in orders
  }

  /** Each order acts on a selected instance that was not running, finds the level it needs, and is given once. */
  predicate Effective(origin: map<Name, Level>, orders: seq<Order>) {
    orders == [] || (Effective(origin, Init(orders)) && Admissible(origin, Init(orders), Last(orders)))
  }

  function Final(r: Receipt): map<Name, Level> {
    Replay(Origin(r.before), Orders(r.actions))
  }

  lemma ReplayAppend(origin: map<Name, Level>, orders: seq<Order>, o: Order)
    requires o.name in origin
    ensures Replay(origin, orders + [o]) == Replay(origin, orders)[o.name := Gives(o.kind)]
  {
    assert Init(orders + [o]) == orders;
  }

  /** No order ever names an instance that was running when the operation began. */
  lemma {:induction false} RunningIsNeverCommanded(origin: map<Name, Level>, orders: seq<Order>)
    requires Effective(origin, orders)
    ensures forall o <- orders :: o.name in origin && origin[o.name] != Live
  {
    if orders != [] {
      RunningIsNeverCommanded(origin, Init(orders));
      assert orders == Init(orders) + [Last(orders)];
    }
  }

  /** An instance the receipt never acted on is at the level it started from. */
  lemma {:induction false} UntouchedKeepsLevel(origin: map<Name, Level>, orders: seq<Order>, n: Name)
    requires n in origin && forall o <- orders :: o.name != n
    ensures Replay(origin, orders)[n] == origin[n]
  {
    if orders != [] {
      assert forall o <- Init(orders) :: o in orders;
      UntouchedKeepsLevel(origin, Init(orders), n);
      assert Last(orders) in orders;
    }
  }

  /** A level that the operation brought about was brought about by an order of the right kind. */
  lemma {:induction false} LevelHasCause(origin: map<Name, Level>, orders: seq<Order>, n: Name)
    requires n in origin && Replay(origin, orders)[n] != origin[n]
    ensures exists o <- orders :: o.name == n && Gives(o.kind) == Replay(origin, orders)[n]
  {
    assert orders != [];
    assert orders == Init(orders) + [Last(orders)];
    if Last(orders).name == n {
      assert Last(orders) in orders;
    } else {
      LevelHasCause(origin, Init(orders), n);
      var o :| o in Init(orders) && o.name == n && Gives(o.kind) == Replay(origin, orders)[n];
      assert o in orders;
    }
  }

  /** Every stop undoes a start that the same operation gave earlier. */
  lemma {:induction false} StopsOnlyOwnStarts(origin: map<Name, Level>, orders: seq<Order>, i: nat)
    requires Effective(origin, orders) && i < |orders| && orders[i].kind == Stop
    ensures Order(orders[i].name, Start) in orders[..i]
  {
    if i == |orders| - 1 {
      var n := orders[i].name;
      LevelHasCause(origin, Init(orders), n);
      var o :| o in Init(orders) && o.name == n && Gives(o.kind) == Live;
      assert o == Order(n, Start);
    } else {
      StopsOnlyOwnStarts(origin, Init(orders), i);
      assert Init(orders)[..i] == orders[..i];
    }
  }

  /** No order removes a container. */
  lemma {:induction false} NeverRemoved(origin: map<Name, Level>, orders: seq<Order>, n: Name)
    requires n in origin
    ensures Replay(origin, orders)[n] == Missing <==> origin[n] == Missing && forall o <- orders :: o.name != n
  {
    if orders != [] {
      NeverRemoved(origin, Init(orders), n);
      assert orders == Init(orders) + [Last(orders)];
    }
  }

  ghost function NamesGiven(orders: seq<Order>, kind: Kind): set<Name> {
    set o | o in orders && o.kind == kind :: o.name
  }

  lemma NamesGivenStep(orders: seq<Order>, kind: Kind)
    requires orders != []
    ensures NamesGiven(orders, kind)
         == NamesGiven(Init(orders), kind) + if Last(orders).kind == kind then {Last(orders).name} else {}
  {
    assert orders == Init(orders) + [Last(orders)];
  }

  lemma {:induction false} CountByKind(origin: map<Name, Level>, orders: seq<Order>)
    requires Effective(origin, orders)
    ensures |orders| == |NamesGiven(orders, Create)| + |NamesGiven(orders, Start)| + |NamesGiven(orders, Stop)|
    ensures forall k :: NamesGiven(orders, k) <= origin.Keys
  {
    if orders != [] {
      var o := Last(orders);
      CountByKind(origin, Init(orders));
      NamesGivenStep(orders, Create);
      NamesGivenStep(orders, Start);
      NamesGivenStep(orders, Stop);
      assert o.name !in NamesGiven(Init(orders), o.kind) by {
        assert forall p <- Init(orders) :: p.name == o.name && p.kind == o.kind ==> p == o;
      }
      forall k ensures NamesGiven(orders, k) <= origin.Keys {
        NamesGivenStep(orders, k);
      }
    }
  }

  lemma AtMostThreeOrders(origin: map<Name, Level>, orders: seq<Order>)
    requires Effective(origin, orders)
    ensures |orders| <= 3 * |origin|
  {
    CountByKind(origin, orders);
    SubsetCount(NamesGiven(orders, Create), origin.Keys);
    SubsetCount(NamesGiven(orders, Start), origin.Keys);
    SubsetCount(NamesGiven(orders, Stop), origin.Keys);
  }

  /** At most three orders an instance, so the limit of `read_receipt` never binds. */
  lemma RoomForRequest(r: Receipt, origin: map<Name, Level>)
    requires origin.Keys == r.before.Keys && |r.before| <= MAX_INSTANCES
    requires Effective(origin, Orders(r.actions))
    ensures |r.actions| <= 3 * MAX_INSTANCES < MAX_ACTIONS
  {
    AtMostThreeOrders(origin, Orders(r.actions));
    assert |origin| == |origin.Keys| == |r.before|;
  }

  // ---- The invariant ----

  function RunningIn(states: map<Name, Option<RunState>>): set<Name> {
    set n | n in states && states[n] == Some(Running)
  }

  /** What `read_receipt` accepts. */
  predicate Readable(r: Receipt) {
    && |r.actions| <= MAX_ACTIONS
    && r.baseline.Keys == RunningIn(r.before)
    && (forall a <- r.actions :: a.order.name in r.before)
    && (r.phase in {Completed, RolledBack} ==> forall a <- r.actions :: a.progress == Observed)
    && (if r.phase == Reconciled then
          && r.settlement.Some?
          && r.settlement.value.states.Keys == r.before.Keys
          && r.settlement.value.readiness.Keys == RunningIn(r.settlement.value.states)
        else
          r.settlement.None?)
  }

  /** The keys of an accepted receipt: readings for what ran, and a settlement exactly of what was selected. */
  lemma ReadableMeans(r: Receipt)
    ensures Readable(r) <==>
              && |r.actions| <= 128 && (r.settlement.Some? <==> r.phase == Reconciled)
              && (forall n :: n in r.baseline <==> n in r.before && r.before[n] == Some(Running))
              && (forall a <- r.actions :: a.order.name in r.before)
              && (r.phase == Completed || r.phase == RolledBack ==> forall a <- r.actions :: a.progress == Observed)
              && (r.settlement.Some? ==>
                    var t := r.settlement.value;
                    forall n :: (n in t.states <==> n in r.before)
                                && (n in t.readiness <==> n in t.states && t.states[n] == Some(Running)))
  {
  }

  predicate Fenced(phase: Phase) {
    phase in {Prepared, Uncertain}
  }

  /** The last action has not been positively observed. */
  predicate Open(r: Receipt) {
    r.actions != [] && Last(r.actions).progress != Observed
  }

  function Sent(w: World, operation: Token): seq<Order> {
    if operation in w.sent then w.sent[operation] else []
  }

  predicate Reserved(w: World, r: Receipt, n: Name) {
    n in w.reservations && w.reservations[n] == Reservation(r.operation, r.revision, false)
  }

  /** Everything the receipt lists has been sent and has landed; nothing else can. */
  predicate Landed(w: World, r: Receipt) {
    && w.inflight == []
    && Sent(w, r.operation) == Orders(r.actions)
    && Levels(w.containers, r.before.Keys) == Final(r)
  }

  /** All but the last action have landed, and the last one was not sent yet, was sent and dropped, or is in flight. */
  predicate InDoubt(w: World, r: Receipt) {
    && Open(r)
    && Fenced(r.phase)
    && Levels(w.containers, r.before.Keys) == Replay(Origin(r.before), Init(Orders(r.actions)))
    && (|| (w.inflight == [] && Last(r.actions).progress == Requested
            && Sent(w, r.operation) == Init(Orders(r.actions)))
        || (w.inflight == [] && Sent(w, r.operation) == Orders(r.actions))
        || (w.inflight == [Mutation(Last(r.actions).order, r.operation)]
            && Sent(w, r.operation) == Orders(r.actions)))
  }

  /** The outcome `_settle` reports for the states it saw. */
  function Classify(before: map<Name, Option<RunState>>, seen: map<Name, Option<RunState>>): Outcome
    requires seen.Keys == before.Keys
  {
    if forall n <- seen :: seen[n] == Some(Running) then AllRunning
    else if !exists n <- seen :: seen[n] == Some(Running) && before[n] != Some(Running) then NoNewRunning
    else PartialRuntimeState
  }

  /** All run; or none runs that did not; or neither. */
  lemma ClassifyMeans(before: map<Name, Option<RunState>>, seen: map<Name, Option<RunState>>)
    requires seen.Keys == before.Keys
    ensures Classify(before, seen) == AllRunning <==> forall n <- seen :: seen[n] == Some(Running)
    ensures Classify(before, seen) == NoNewRunning <==>
              && (exists n <- seen :: seen[n] != Some(Running))
              && (forall n <- seen :: seen[n] == Some(Running) ==> before[n] == Some(Running))
    ensures Classify(before, seen) == PartialRuntimeState <==>
              && (exists n <- seen :: seen[n] != Some(Running))
              && (exists n <- seen :: seen[n] == Some(Running) && before[n] != Some(Running))
  {
  }

  /** What a terminal phase asserts about the daemon. */
  predicate PhaseHolds(r: Receipt) {
    match r.phase
    case Prepared | Uncertain => true
    case Completed => forall n <- r.before :: Final(r)[n] == Live
    case RolledBack => forall n <- r.before :: r.before[n] != Some(Running) ==> Final(r)[n] != Live
    case Reconciled =>
      && r.settlement.Some?
      && r.settlement.value.states.Keys == r.before.Keys
      && Origin(r.settlement.value.states) == Final(r)
      && r.settlement.value.outcome == Classify(r.before, r.settlement.value.states)
  }

  predicate Tracked(w: World, r: Receipt) {
    && Readable(r)
    && |r.before| <= MAX_INSTANCES
    && Effective(Origin(r.before), Orders(r.actions))
    && (forall i :: 0 <= i < |r.actions| - 1 ==> r.actions[i].progress == Observed)
    && (Open(r) && Fenced(r.phase) ==> Reserved(w, r, Last(r.actions).order.name))
    && (Landed(w, r) || InDoubt(w, r))
    && (forall n <- r.before :: r.before[n].None? && n in w.containers ==> w.containers[n].owner == Some(r.operation))
    && PhaseHolds(r)
  }

  lemma LandedIsQuiet(w: World, r: Receipt)
    ensures Landed(w, r) ==> w.inflight == []
  {
  }

  /** Holds of every world the operator can reach. */
  predicate Sound(w: World) {
    if w.receipt.None? then w.inflight == [] else Tracked(w, w.receipt.value)
  }

  /** Tracking a receipt does not depend on which receipt is on disk. */
  lemma TrackedIgnoresFile(w: World, file: Option<Receipt>, r: Receipt)
    ensures Tracked(w.(receipt := file), r) == Tracked(w, r)
    ensures Landed(w.(receipt := file), r) == Landed(w, r)
  {
    var w' := w.(receipt := file);
    assert Landed(w', r) == Landed(w, r);
    assert InDoubt(w', r) == InDoubt(w, r);
  }

  /** When everything has landed the daemon is at the levels the receipt implies. */
  lemma QuietShowsLevels(w: World, r: Receipt)
    requires Landed(w, r)
    ensures forall n <- r.before :: LevelIn(w.containers, n) == Final(r)[n]
  {
    assert forall n <- r.before :: Levels(w.containers, r.before.Keys)[n] == LevelIn(w.containers, n);
  }

  lemma PositiveEvidence(w: World, r: Receipt)
    requires Tracked(w, r) && Open(r)
    requires LevelIn(w.containers, Last(r.actions).order.name) == Gives(Last(r.actions).order.kind)
    ensures Landed(w, r) && w.inflight == []
  {
    var o := Last(r.actions).order;
    assert Levels(w.containers, r.before.Keys)[o.name] == LevelIn(w.containers, o.name);
  }

  // ---- The daemon ----

  function Changed(containers: map<Name, Container>, m: Mutation, idle: RunState): Container
    requires LevelIn(containers, m.order.name) == Needs(m.order.kind)
  {
    match m.order.kind
    case Create => Container(idle, Some(m.operation))
    case Start => containers[m.order.name].(state := Running)
    case Stop => containers[m.order.name].(state := idle)
  }

  /** Mutation `i` in flight takes effect; `idle` is the state a created or stopped container shows. */
  function Land(w: World, i: nat, idle: RunState): World
    requires i < |w.inflight|
  {
    var m := w.inflight[i];
    var rest := w.(inflight := w.inflight[..i] + w.inflight[i + 1..]);
    if LevelIn(w.containers, m.order.name) != Needs(m.order.kind) then rest
    else rest.(containers := w.containers[m.order.name := Changed(w.containers, m, idle)])
  }

  /** The level the last order needs is the one its instance still has. */
  lemma InDoubtIsReady(w: World, r: Receipt)
    requires Tracked(w, r) && InDoubt(w, r)
    ensures var o := Last(r.actions).order;
            && o.name in r.before && LevelIn(w.containers, o.name) == Needs(o.kind)
            && Final(r) == Levels(w.containers, r.before.Keys)[o.name := Gives(o.kind)]
  {
    var o := Last(r.actions).order;
    assert Init(Orders(r.actions)) == Orders(Init(r.actions));
    assert LevelIn(w.containers, o.name) == Levels(w.containers, r.before.Keys)[o.name];
  }

  lemma LandReachesFinal(w: World, r: Receipt, i: nat, idle: RunState)
    requires Tracked(w, r) && i < |w.inflight| && idle != Running
    ensures Landed(Land(w, i, idle), r)
  {
    hide Readable, Effective, PhaseHolds, Final;
    InDoubtIsReady(w, r);
    assert Levels(Land(w, i, idle).containers, r.before.Keys) == Final(r);
  }

  lemma LandKeepsTracked(w: World, r: Receipt, i: nat, idle: RunState)
    requires Tracked(w, r) && i < |w.inflight| && idle != Running
    ensures Tracked(Land(w, i, idle), r) && Landed(Land(w, i, idle), r)
  {
    LandReachesFinal(w, r, i, idle);
    hide Readable, Effective, PhaseHolds, Final, Levels;
  }

  /** Mutation `i` in flight is dropped: the daemon refused it, and it will never take effect. */
  function Fizzle(w: World, i: nat): World
    requires i < |w.inflight|
  {
    w.(inflight := w.inflight[..i] + w.inflight[i + 1..])
  }

  lemma FizzleKeepsTracked(w: World, r: Receipt, i: nat)
    requires Tracked(w, r) && i < |w.inflight|
    ensures Tracked(Fizzle(w, i), r) && InDoubt(Fizzle(w, i), r)
  {
    hide Readable, Effective, PhaseHolds, Final, Levels, Replay;
  }

  /** Only a selected instance that was not running can be in flight. */
  lemma InFlightIsSelected(w: World, r: Receipt)
    requires Tracked(w, r)
    ensures forall m <- w.inflight :: m.order.name in r.before && r.before[m.order.name] != Some(Running)
  {
    RunningIsNeverCommanded(Origin(r.before), Orders(r.actions));
    if Open(r) {
      assert Last(Orders(r.actions)) == Last(r.actions).order;
    }
  }

  // ---- Steps of the operator: each keeps the receipt it is about to publish tracked ----

  /** A receipt for a fresh operation over the containers as they stand. */
  lemma OpeningIsTracked(w: World, r: Receipt)
    requires w.inflight == [] && r.actions == [] && r.phase == Prepared && r.settlement == None
    requires r.baseline.Keys == RunningIn(r.before) && |r.before| <= MAX_INSTANCES
    requires forall n <- r.before :: LevelSeen(r.before[n]) == LevelIn(w.containers, n)
    requires Sent(w, r.operation) == []
    ensures Tracked(w, r) && Landed(w, r) && !Open(r)
  {
    assert Levels(w.containers, r.before.Keys) == Final(r);
  }

  function Requesting(r: Receipt, o: Order): Receipt {
    r.(actions := r.actions + [Action(o, Requested)])
  }

  lemma RequestAppends(r: Receipt, o: Order)
    ensures Orders(Requesting(r, o).actions) == Orders(r.actions) + [o]
    ensures Init(Orders(Requesting(r, o).actions)) == Orders(r.actions)
    ensures Last(Requesting(r, o).actions) == Action(o, Requested)
  {
    assert Orders(Requesting(r, o).actions) == Orders(r.actions) + [o];
  }

  lemma RequestIsReadable(r: Receipt, r': Receipt, o: Order)
    requires Readable(r) && Fenced(r.phase) && |r.before| <= MAX_INSTANCES && r' == Requesting(r, o)
    requires Effective(Origin(r.before), Orders(r.actions)) && Admissible(Origin(r.before), Orders(r.actions), o)
    ensures Readable(r') && Effective(Origin(r'.before), Orders(r'.actions))
  {
    RequestAppends(r, o);
    RoomForRequest(r', Origin(r.before));
  }

  /** Writing down an order before sending it. */
  lemma RequestKeepsTracked(w: World, r: Receipt, o: Order)
    requires Tracked(w, r) && Landed(w, r) && !Open(r) && Fenced(r.phase)
    requires Admissible(Origin(r.before), Orders(r.actions), o)
    requires Reserved(w, r, o.name)
    ensures Tracked(w, Requesting(r, o)) && InDoubt(w, Requesting(r, o))
  {
    var r' := Requesting(r, o);
    RequestAppends(r, o);
    RequestIsReadable(r, r', o);
  }

  /** Reserving an instance for the operation that is about to start it. */
  function Reserving(w: World, r: Receipt, n: Name): World {
    w.(reservations := w.reservations[n := Reservation(r.operation, r.revision, false)])
  }

  lemma ReservingKeepsTracked(w: World, r: Receipt, n: Name)
    requires Tracked(w, r)
    ensures Tracked(Reserving(w, r, n), r) && Reserved(Reserving(w, r, n), r, n)
    ensures Landed(w, r) ==> Landed(Reserving(w, r, n), r)
  {
    var w' := Reserving(w, r, n);
    assert Landed(w, r) ==> Landed(w', r);
    assert InDoubt(w, r) ==> InDoubt(w', r);
  }

  /** Reservations matter only while an order may still be in flight. */
  lemma SettlingKeepsTracked(w: World, r: Receipt, reservations: map<Name, Reservation>)
    requires Tracked(w, r) && !(Open(r) && Fenced(r.phase))
    ensures Tracked(w.(reservations := reservations), r)
    ensures Landed(w.(reservations := reservations), r)
  {
    assert Landed(w.(reservations := reservations), r);
  }

  /** Handing the last order of the receipt to the daemon. */
  function Send(w: World, r: Receipt): World
    requires Open(r)
  {
    var o := Last(r.actions).order;
    w.(inflight := w.inflight + [Mutation(o, r.operation)], sent := w.sent[r.operation := Sent(w, r.operation) + [o]])
  }

  lemma SendKeepsTracked(w: World, r: Receipt)
    requires Tracked(w, r) && Open(r) && Fenced(r.phase)
    requires Sent(w, r.operation) != Orders(r.actions)
    ensures Tracked(Send(w, r), r) && Send(w, r).inflight == [Mutation(Last(r.actions).order, r.operation)]
  {
    assert Orders(r.actions) == Init(Orders(r.actions)) + [Last(r.actions).order];
    hide Readable, Effective, PhaseHolds, Levels, Replay, Orders;
  }

  function Progressing(r: Receipt, p: Progress): Receipt
    requires r.actions != []
  {
    r.(actions := Init(r.actions) + [Last(r.actions).(progress := p)])
  }

  lemma ProgressKeepsOrders(r: Receipt, p: Progress)
    requires r.actions != []
    ensures Orders(Progressing(r, p).actions) == Orders(r.actions)
  {
  }

  lemma AcknowledgeKeepsTracked(w: World, r: Receipt)
    requires Tracked(w, r) && Open(r) && Fenced(r.phase)
    requires Sent(w, r.operation) == Orders(r.actions)
    ensures Tracked(w, Progressing(r, Acknowledged))
  {
    ProgressKeepsOrders(r, Acknowledged);
    assert |Orders(r.actions)| != |Init(Orders(r.actions))|;
  }

  /** An order whose level is seen afterwards has landed, so it may be recorded as observed. */
  lemma ObserveKeepsTracked(w: World, r: Receipt)
    requires Tracked(w, r) && Open(r) && Fenced(r.phase)
    requires LevelIn(w.containers, Last(r.actions).order.name) == Gives(Last(r.actions).order.kind)
    ensures Landed(w, r) && Tracked(w, Progressing(r, Observed))
    ensures Landed(w, Progressing(r, Observed)) && !Open(Progressing(r, Observed))
  {
    PositiveEvidence(w, r);
    ProgressKeepsOrders(r, Observed);
  }

  lemma FencingKeepsTracked(w: World, r: Receipt, failure: Option<Failure>)
    requires Tracked(w, r) && r.phase != Reconciled
    ensures Tracked(w, r.(phase := Uncertain, failure := failure))
    ensures Landed(w, r) ==> Landed(w, r.(phase := Uncertain, failure := failure))
  {
    var r' := r.(phase := Uncertain, failure := failure);
    assert Landed(w, r) ==> Landed(w, r');
    assert InDoubt(w, r) ==> InDoubt(w, r');
  }

  /** A terminal phase may be recorded once everything has landed and what it asserts is true. */
  lemma ClosingKeepsTracked(w: World, r: Receipt, phase: Phase)
    requires Tracked(w, r) && Landed(w, r) && !Open(r) && Fenced(r.phase)
    requires phase in {Completed, RolledBack} && PhaseHolds(r.(phase := phase))
    ensures Tracked(w, r.(phase := phase)) && Landed(w, r.(phase := phase))
  {
    assert Landed(w, r.(phase := phase));
  }

  // ---- What the receipts on disk mean ----

  /** In every phase, an instance that was running is running, was sent nothing, and nothing was removed. */
  lemma PriorRunningIsPreserved(w: World, r: Receipt)
    requires Tracked(w, r)
    ensures forall n <- r.before :: r.before[n] == Some(Running) ==> LevelIn(w.containers, n) == Live
    ensures forall n <- r.before :: r.before[n].Some? ==> n in w.containers
    ensures forall o <- Sent(w, r.operation) :: o.name in r.before && r.before[o.name] != Some(Running)
  {
    var all, prior := Orders(r.actions), if r.actions == [] then [] else Init(Orders(r.actions));
    var origin := Origin(r.before);
    RunningIsNeverCommanded(origin, all);
    assert forall o <- prior :: o in all;
    assert forall o <- Sent(w, r.operation) :: o in all;
    forall n | n in r.before
      ensures r.before[n] == Some(Running) ==> LevelIn(w.containers, n) == Live
      ensures r.before[n].Some? ==> n in w.containers
    {
      assert Levels(w.containers, r.before.Keys)[n] == LevelIn(w.containers, n);
      NeverRemoved(origin, all, n);
      NeverRemoved(origin, prior, n);
      if origin[n] == Live {
        UntouchedKeepsLevel(origin, all, n);
        UntouchedKeepsLevel(origin, prior, n);
      }
    }
  }

  /** A receipt that says `rolled_back` is telling the truth about the daemon. */
  lemma RolledBackMeans(w: World, r: Receipt)
    requires Sound(w) && w.receipt == Some(r) && r.phase == RolledBack
    ensures w.inflight == []
    ensures forall n <- r.before :: LevelIn(w.containers, n) == Live <==> r.before[n] == Some(Running)
    ensures forall n <- r.before :: r.before[n].Some? ==> n in w.containers
    ensures forall o <- Sent(w, r.operation) :: r.before[o.name] != Some(Running)
    ensures forall i :: 0 <= i < |Sent(w, r.operation)| && Sent(w, r.operation)[i].kind == Stop ==>
                          Order(Sent(w, r.operation)[i].name, Start) in Sent(w, r.operation)[..i]
  {
    PriorRunningIsPreserved(w, r);
    forall i | 0 <= i < |r.actions| && Orders(r.actions)[i].kind == Stop
      ensures Order(Orders(r.actions)[i].name, Start) in Orders(r.actions)[..i]
    {
      StopsOnlyOwnStarts(Origin(r.before), Orders(r.actions), i);
    }
    forall n | n in r.before
      ensures LevelIn(w.containers, n) == Final(r)[n]
    {
      assert Levels(w.containers, r.before.Keys)[n] == LevelIn(w.containers, n);
    }
  }

  /** A receipt that says `completed` is telling the truth too. */
  lemma CompletedMeans(w: World, r: Receipt)
    requires Sound(w) && w.receipt == Some(r) && r.phase == Completed
    ensures w.inflight == [] && Sent(w, r.operation) == Orders(r.actions)
    ensures forall a <- r.actions :: a.progress == Observed
    ensures forall n <- r.before :: LevelIn(w.containers, n) == Live
  {
    QuietShowsLevels(w, r);
  }

  /** Something in flight means that the receipt on disk is one that fences every later apply. */
  lemma InFlightIsFenced(w: World)
    requires Sound(w) && w.inflight != []
    ensures w.receipt.Some? && Fenced(w.receipt.value.phase) && w.receipt.value.actions != []
    ensures var r := w.receipt.value; var last := Last(r.actions);
            && w.inflight == [Mutation(last.order, r.operation)] && last.progress != Observed
            && Reserved(w, r, last.order.name)
  {
  }

  // ---- Settling ----

  predicate RowConfirms(r: Receipt, rows: map<Name, Container>, n: Name)
    requires n in r.before
  {
    if n !in rows then
      r.before[n].None? && forall a <- r.actions :: a.order.name != n
    else
      && (r.before[n].None? ==> rows[n].owner == Some(r.operation))
      && (r.before[n] == Some(Running) ==> rows[n].state == Running)
      && (forall a <- r.actions :: a.order.name == n && a.progress != Observed ==>
            && (a.order.kind == Start ==> rows[n].state == Running)
            && (a.order.kind == Stop ==> rows[n].state != Running))
  }

  /** What `_settle` demands of the listing before it writes `reconciled`. */
  predicate Confirmable(r: Receipt, rows: map<Name, Container>) {
    forall n <- r.before :: RowConfirms(r, rows, n)
  }

  /** What a listing must show of an instance, by the level it is at. */
  lemma RowConfirmsMeans(r: Receipt, rows: map<Name, Container>, n: Name)
    requires n in r.before
    ensures RowConfirms(r, rows, n) <==>
              && (LevelIn(rows, n) == Missing ==> r.before[n] == None && forall a <- r.actions :: a.order.name != n)
              && (LevelIn(rows, n) != Missing && r.before[n] == None ==> rows[n].owner == Some(r.operation))
              && (r.before[n] == Some(Running) ==> LevelIn(rows, n) == Live)
              && (forall a <- r.actions :: a.order.name == n && a.progress != Observed ==>
                    && (a.order.kind == Start ==> LevelIn(rows, n) == Live)
                    && (a.order.kind == Stop ==> LevelIn(rows, n) == Idle))
  {
  }

  lemma ConfirmedGives(w: World, r: Receipt)
    requires Tracked(w, r) && Confirmable(r, w.containers) && Open(r)
    ensures LevelIn(w.containers, Last(r.actions).order.name) == Gives(Last(r.actions).order.kind)
            || (Last(r.actions).order.kind == Create && Landed(w, r))
  {
    var a := Last(r.actions);
    assert a in r.actions;
    assert RowConfirms(r, w.containers, a.order.name);
    assert Levels(w.containers, r.before.Keys)[a.order.name] == LevelIn(w.containers, a.order.name);
  }

  lemma ConfirmedHasLanded(w: World, r: Receipt)
    requires Tracked(w, r) && Confirmable(r, w.containers)
    ensures Landed(w, r)
  {
    if InDoubt(w, r) {
      ConfirmedGives(w, r);
      PositiveEvidence(w, r);
    }
  }

  lemma LandedRowConfirms(w: World, r: Receipt, n: Name)
    requires Tracked(w, r) && Landed(w, r) && n in r.before
    ensures RowConfirms(r, w.containers, n)
  {
    var origin, orders := Origin(r.before), Orders(r.actions);
    assert Levels(w.containers, r.before.Keys)[n] == LevelIn(w.containers, n);
    forall a | a in r.actions
      ensures a.order in orders
      ensures a.progress != Observed ==> a.order == Last(orders)
    {
      var i :| 0 <= i < |r.actions| && r.actions[i] == a;
      assert orders[i] == a.order;
    }
    NeverRemoved(origin, orders, n);
    if origin[n] == Live {
      RunningIsNeverCommanded(origin, orders);
      UntouchedKeepsLevel(origin, orders, n);
    }
  }

  lemma LandedIsConfirmable(w: World, r: Receipt)
    requires Tracked(w, r) && Landed(w, r)
    ensures Confirmable(r, w.containers)
  {
    forall n | n in r.before
      ensures RowConfirms(r, w.containers, n)
    {
      LandedRowConfirms(w, r, n);
    }
  }

  /**
  The settlement test is exact: it admits a listing if and only if no world that shows this receipt
  and this listing still has a mutation in flight.  So absence, or any other negative observation,
  could never have retired the receipt, and every positive observation the daemon can offer does.
  */
  lemma SettlementIsExact(w: World, r: Receipt)
    requires Sound(w) && w.receipt == Some(r) && Fenced(r.phase)
    ensures Confirmable(r, w.containers)
       <==> forall w' :: Sound(w') && w'.receipt == w.receipt && w'.containers == w.containers ==> w'.inflight == []
  {
    if Confirmable(r, w.containers) {
      forall w' | Sound(w') && w'.receipt == w.receipt && w'.containers == w.containers
        ensures w'.inflight == []
      {
        ConfirmedHasLanded(w', r);
      }
    } else {
      if Landed(w, r) {
        LandedIsConfirmable(w, r);
      }
      var m := Mutation(Last(r.actions).order, r.operation);
      var w' := w.(inflight := [m], sent := w.sent[r.operation := Orders(r.actions)]);
      assert InDoubt(w', r);
      assert Sound(w') && w'.inflight != [];
    }
  }

  lemma SeenIsFinal(w: World, r: Receipt, states: map<Name, Option<RunState>>)
    requires Landed(w, r) && states.Keys == r.before.Keys
    requires forall n <- r.before :: LevelSeen(states[n]) == LevelIn(w.containers, n)
    ensures Origin(states) == Final(r)
  {
    QuietShowsLevels(w, r);
  }

  lemma ReconciledIsReadable(r: Receipt, s: Settlement)
    requires Readable(r) && s.states.Keys == r.before.Keys && s.readiness.Keys == RunningIn(s.states)
    ensures Readable(r.(phase := Reconciled, settlement := Some(s)))
  {
  }

  /** What `_settle` writes once the listing confirms the receipt. */
  lemma ReconciledIsTracked(w: World, r: Receipt, s: Settlement)
    requires Tracked(w, r) && Confirmable(r, w.containers)
    requires s.states.Keys == r.before.Keys && s.readiness.Keys == RunningIn(s.states)
    requires forall n <- r.before :: LevelSeen(s.states[n]) == LevelIn(w.containers, n)
    requires s.outcome == Classify(r.before, s.states)
    ensures Tracked(w, r.(phase := Reconciled, settlement := Some(s)))
    ensures Landed(w, r.(phase := Reconciled, settlement := Some(s)))
  {
    hide Readable, Effective, Classify, Confirmable, Levels, LevelSeen, LevelIn, Replay, Orders, Origin;
    ConfirmedHasLanded(w, r);
    SeenIsFinal(w, r, s.states);
    ReconciledIsReadable(r, s);
  }

  // ---- Worlds that follow without the operator ----

  predicate AimedAt(inflight: seq<Mutation>, n: Name) {
    exists m <- inflight :: m.order.name == n
  }

  predicate SameAt(a: map<Name, Container>, b: map<Name, Container>, n: Name) {
    if n in a then n in b && a[n] == b[n] else n !in b
  }

  /** `w'` follows `w` by landings and drops alone, whatever happened to the receipt file. */
  ghost predicate Later(w: World, w': World) {
    && (forall r :: Tracked(w, r) ==> Tracked(w', r))
    && (w.inflight == [] ==> w'.inflight == [] && w'.containers == w.containers)
    && (forall m <- w'.inflight :: m in w.inflight)
    && (forall n <- w.containers :: n in w'.containers)
    && (forall n :: AimedAt(w.inflight, n) || SameAt(w.containers, w'.containers, n))
    && w'.sent == w.sent && w'.reservations == w.reservations
  }

  lemma SoundIsTracked(w: World, r: Receipt)
    requires Sound(w) && w.receipt == Some(r)
    ensures Tracked(w, r)
  {
    hide Tracked;
  }

  lemma LaterGrows(w: World, w': World)
    requires Later(w, w')
    ensures forall n <- w.containers :: n in w'.containers
    ensures forall n :: AimedAt(w.inflight, n) || SameAt(w.containers, w'.containers, n)
    ensures w.inflight == [] ==> w'.inflight == [] && w'.containers == w.containers
  {
  }

  lemma LaterIsReflexive(w: World)
    ensures Later(w, w)
  {
  }

  lemma LaterIsTransitive(w: World, w': World, w'': World)
    requires Later(w, w') && Later(w', w'')
    ensures Later(w, w'')
  {
    forall n ensures AimedAt(w.inflight, n) || SameAt(w.containers, w''.containers, n) {
      assert AimedAt(w'.inflight, n) ==> AimedAt(w.inflight, n);
    }
  }

  lemma LaterKeepsSound(w: World, w': World)
    requires Later(w, w') && w'.receipt == w.receipt && Sound(w)
    ensures Sound(w')
  {
  }

  lemma LandIsLater(w: World, w': World, i: nat, idle: RunState)
    requires Later(w, w') && i < |w'.inflight| && idle != Running
    ensures Later(w, Land(w', i, idle))
  {
    var m := w'.inflight[i];
    assert AimedAt(w.inflight, m.order.name);
    forall r | Tracked(w, r) ensures Tracked(Land(w', i, idle), r) {
      LandKeepsTracked(w', r, i, idle);
    }
  }

  lemma FizzleIsLater(w: World, w': World, i: nat)
    requires Later(w, w') && i < |w'.inflight|
    ensures Later(w, Fizzle(w', i))
  {
    forall r | Tracked(w, r) ensures Tracked(Fizzle(w', i), r) {
      FizzleKeepsTracked(w', r, i);
    }
  }

  lemma SavedIsLater(w: World, w': World, file: Option<Receipt>)
    requires Later(w, w')
    ensures Later(w, w'.(receipt := file))
  {
    forall r | Tracked(w, r) ensures Tracked(w'.(receipt := file), r) {
      TrackedIgnoresFile(w', file, r);
    }
  }

  /** A confirmed listing is still the state of the daemon afterwards. */
  lemma ConfirmedIsStill(w: World, w': World, r: Receipt)
    requires Tracked(w, r) && Confirmable(r, w.containers) && Later(w, w')
    ensures w'.containers == w.containers && w'.inflight == [] && w.inflight == []
  {
    ConfirmedHasLanded(w, r);
  }

  // ---- Receipts that can never be settled ----

  /** At every moment the test passes exactly if the last order has taken effect. */
  lemma SettlesIffLanded(w: World, r: Receipt)
    requires Tracked(w, r)
    ensures Confirmable(r, w.containers) <==> Landed(w, r)
    ensures w.inflight != [] ==> !Confirmable(r, w.containers)
  {
    hide Tracked, Confirmable;
    if Landed(w, r) {
      LandedIsConfirmable(w, r);
    } else if Confirmable(r, w.containers) {
      ConfirmedHasLanded(w, r);
    }
  }

  /** The receipt is unresolved, nothing is in flight, and its last order has not taken effect. */
  predicate Stuck(w: World, r: Receipt) {
    w.receipt == Some(r) && Fenced(r.phase) && w.inflight == [] && !Landed(w, r)
  }

  lemma StuckIsUnconfirmed(w: World, r: Receipt)
    requires Sound(w) && Stuck(w, r)
    ensures !Confirmable(r, w.containers)
  {
    hide Tracked, Confirmable, Landed;
    SettlesIffLanded(w, r);
  }

  /**
  An unresolved receipt can be settled at some later moment, if the daemon does its best, exactly unless it
  is stuck: an order that was never sent, or that the daemon refused, can no longer be told from a late one.
  */
  lemma SettlesUnlessStuck(w: World, r: Receipt)
    requires Sound(w) && w.receipt == Some(r) && Fenced(r.phase)
    ensures (exists w' :: Later(w, w') && Confirmable(r, w'.containers)) <==> !Stuck(w, r)
  {
    hide Tracked, Confirmable, Landed;
    SettlesIffLanded(w, r);
    LaterIsReflexive(w);
    if w.inflight != [] {
      LandKeepsTracked(w, r, 0, Stopped);
      LandIsLater(w, w, 0, Stopped);
      SettlesIffLanded(Land(w, 0, Stopped), r);
      assert Later(w, Land(w, 0, Stopped)) && Confirmable(r, Land(w, 0, Stopped).containers);
    } else if Landed(w, r) {
      assert Later(w, w) && Confirmable(r, w.containers);
    } else {
      forall w' | Later(w, w') ensures !Confirmable(r, w'.containers) {
        assert w'.containers == w.containers;
      }
    }
  }

  /** The receipt of an operation that recorded one more order and then failed. */
  function GivenUp(r: Receipt, o: Order): Receipt {
    Requesting(r, o).(phase := Uncertain, failure := Some(RecoveryIncomplete))
  }

  lemma GivenUpIsTracked(w: World, r: Receipt, o: Order)
    requires Tracked(w, r) && Landed(w, r) && !Open(r) && Fenced(r.phase)
    requires Admissible(Origin(r.before), Orders(r.actions), o) && Reserved(w, r, o.name)
    ensures var r' := GivenUp(r, o); var w' := w.(receipt := Some(r'));
            && Sound(w') && InDoubt(w', r') && w'.inflight == []
            && Sent(w', r'.operation) == Init(Orders(r'.actions)) != Orders(r'.actions)
  {
    hide Readable, Effective, PhaseHolds, Levels, Replay;
    var r' := GivenUp(r, o);
    RequestKeepsTracked(w, r, o);
    RequestAppends(r, o);
    FencingKeepsTracked(w, Requesting(r, o), Some(RecoveryIncomplete));
    TrackedIgnoresFile(w, Some(r'), r');
  }

  lemma QuietIfLanded(w: World, r: Receipt)
    ensures Landed(w, r) ==> forall n <- r.before :: LevelIn(w.containers, n) == Final(r)[n]
  {
    if Landed(w, r) {
      QuietShowsLevels(w, r);
    }
  }

  lemma InDoubtIsNotLanded(w: World, r: Receipt)
    requires Tracked(w, r) && InDoubt(w, r)
    ensures !Landed(w, r)
  {
    InDoubtIsReady(w, r);
    QuietIfLanded(w, r);
    assert LevelIn(w.containers, Last(r.actions).order.name) != Gives(Last(r.actions).order.kind);
  }

  /**
  Every request can end stuck in two ways: saved, then refused by a deadline or cut off by the end of the
  process; or saved and sent, and refused by the daemon.
  */
  lemma RequestsCanBeStuck(w: World, r: Receipt, o: Order)
    requires Tracked(w, r) && Landed(w, r) && !Open(r) && Fenced(r.phase)
    requires Admissible(Origin(r.before), Orders(r.actions), o) && Reserved(w, r, o.name)
    ensures var r' := GivenUp(r, o); var unsent := w.(receipt := Some(r'));
            && Open(r') && Sound(unsent) && Stuck(unsent, r') && !Confirmable(r', unsent.containers)
            && (var sent := Send(unsent, r');
                && sent.inflight != [] && Sound(Fizzle(sent, 0)) && Stuck(Fizzle(sent, 0), r')
                && !Confirmable(r', Fizzle(sent, 0).containers))
  {
    var r' := GivenUp(r, o);
    var unsent := w.(receipt := Some(r'));
    GivenUpIsTracked(w, r, o);
    InDoubtIsNotLanded(unsent, r');
    RequestAppends(r, o);
    hide Tracked, Landed, Confirmable, Levels, Replay, Final, Orders;
    StuckIsUnconfirmed(unsent, r');
    SendKeepsTracked(unsent, r');
    var sent := Send(unsent, r');
    FizzleKeepsTracked(sent, r', 0);
    InDoubtIsNotLanded(Fizzle(sent, 0), r');
    StuckIsUnconfirmed(Fizzle(sent, 0), r');
  }

  /** One stopped instance whose start was requested and not sent, or was sent and refused. */
  lemma StuckStart() returns (r: Receipt, unsent: World, refused: World)
    ensures Sound(unsent) && Stuck(unsent, r) && !Confirmable(r, unsent.containers)
    ensures Sound(refused) && Stuck(refused, r) && !Confirmable(r, refused.containers)
    ensures r.actions == [Action(Order("a", Start), Requested)]
    ensures unsent.containers == map["a" := Container(Stopped, None)] == refused.containers
    ensures unsent.sent == map[] && refused.sent == map["t" := [Order("a", Start)]]
  {
    var draft := Receipt("", "t", Prepared, map["a" := Some(Stopped)], map[], [], None, None);
    var bare := World(None, map[], map["a" := Container(Stopped, None)], [], map[]);
    var reserved := Reserving(bare, draft, "a");
    OpeningIsTracked(bare, draft);
    ReservingKeepsTracked(bare, draft, "a");
    RequestsCanBeStuck(reserved, draft, Order("a", Start));
    r := GivenUp(draft, Order("a", Start));
    unsent := reserved.(receipt := Some(r));
    refused := Fizzle(Send(unsent, r), 0);
  }

  // ---- A running call: the world is sound and would be if the draft were published ----

  /** Instances an operation may not touch are exactly as it found them. */
  predicate Spared(base: map<Name, Container>, containers: map<Name, Container>, r: Receipt) {
    forall n <- base.Keys + containers.Keys ::
      n !in r.before || r.before[n] == Some(Running) ==> SameAt(base, containers, n)
  }

  /** The world is sound, would be if `r` were published now, and nothing out of its reach has changed. */
  predicate SteadyWith(w: World, r: Receipt, base: map<Name, Container>) {
    Sound(w) && Tracked(w, r) && Spared(base, w.containers, r)
  }

  lemma SteadyIsSound(w: World, r: Receipt, base: map<Name, Container>)
    requires SteadyWith(w, r, base)
    ensures Sound(w)
  {
  }

  lemma LaterSpares(w: World, w': World, r: Receipt, base: map<Name, Container>)
    requires Later(w, w') && Spared(base, w.containers, r)
    requires forall m <- w.inflight :: m.order.name in r.before && r.before[m.order.name] != Some(Running)
    ensures Spared(base, w'.containers, r)
  {
    hide Tracked;
    forall n | n in base.Keys + w'.containers.Keys && (n !in r.before || r.before[n] == Some(Running))
      ensures SameAt(base, w'.containers, n)
    {
      assert !AimedAt(w.inflight, n);
    }
  }

  lemma LaterKeepsSteady(w: World, w': World, r: Receipt, base: map<Name, Container>)
    requires Later(w, w') && w'.receipt == w.receipt && SteadyWith(w, r, base)
    ensures SteadyWith(w', r, base)
  {
    hide Tracked, Spared;
    LaterKeepsSound(w, w');
    InFlightIsSelected(w, r);
    LaterSpares(w, w', r, base);
  }

  /** In a steady world the same evidence shows that nothing is in flight. */
  lemma SteadyEvidence(w: World, r: Receipt, base: map<Name, Container>)
    requires SteadyWith(w, r, base) && Open(r)
    requires LevelIn(w.containers, Last(r.actions).order.name) == Gives(Last(r.actions).order.kind)
    ensures w.inflight == []
  {
    PositiveEvidence(w, r);
  }

  lemma SteadyAndObservedIsLanded(w: World, r: Receipt, base: map<Name, Container>)
    requires SteadyWith(w, r, base) && forall a <- r.actions :: a.progress == Observed
    ensures Landed(w, r) && !Open(r)
  {
  }

  lemma RequestKeepsSteady(w: World, r: Receipt, base: map<Name, Container>, o: Order)
    requires SteadyWith(w, r, base) && Landed(w, r) && !Open(r) && Fenced(r.phase)
    requires Admissible(Origin(r.before), Orders(r.actions), o) && Reserved(w, r, o.name)
    ensures SteadyWith(w, Requesting(r, o), base)
    ensures Sent(w, r.operation) == Init(Orders(Requesting(r, o).actions))
    ensures Orders(Requesting(r, o).actions) == Orders(r.actions) + [o]
  {
    RequestKeepsTracked(w, r, o);
    RequestAppends(r, o);
  }

  lemma SendKeepsSteady(w: World, r: Receipt, base: map<Name, Container>)
    requires SteadyWith(w, r, base) && w.receipt == Some(r) && Open(r) && Fenced(r.phase)
    requires Sent(w, r.operation) == Init(Orders(r.actions))
    ensures SteadyWith(Send(w, r), r, base) && Tracked(Send(w, r), r) && Send(w, r).inflight != []
    ensures Sent(Send(w, r), r.operation) == Orders(r.actions)
  {
    assert Orders(r.actions) == Init(Orders(r.actions)) + [Last(r.actions).order];
    hide Tracked, Orders, Init;
    SendKeepsTracked(w, r);
  }

  lemma AcknowledgeKeepsSteady(w: World, r: Receipt, base: map<Name, Container>)
    requires SteadyWith(w, r, base) && Open(r) && Fenced(r.phase)
    requires Sent(w, r.operation) == Orders(r.actions)
    ensures SteadyWith(w, Progressing(r, Acknowledged), base)
    ensures Orders(Progressing(r, Acknowledged).actions) == Orders(r.actions)
    ensures Landed(w, r) ==> Landed(w, Progressing(r, Acknowledged))
  {
    AcknowledgeKeepsTracked(w, r);
    ProgressKeepsOrders(r, Acknowledged);
  }

  lemma OpeningIsSteady(w: World, r: Receipt)
    requires Sound(w) && w.inflight == [] && r.actions == [] && r.phase == Prepared && r.settlement == None
    requires r.baseline.Keys == RunningIn(r.before) && |r.before| <= MAX_INSTANCES
    requires forall n <- r.before :: LevelSeen(r.before[n]) == LevelIn(w.containers, n)
    requires Sent(w, r.operation) == []
    ensures SteadyWith(w, r, w.containers) && Landed(w, r) && !Open(r)
  {
    hide Tracked, Landed;
    OpeningIsTracked(w, r);
  }

  lemma ReservingKeepsSteady(w: World, r: Receipt, base: map<Name, Container>, n: Name)
    requires SteadyWith(w, r, base) && w.receipt == Some(r)
    ensures SteadyWith(Reserving(w, r, n), r, base) && Reserved(Reserving(w, r, n), r, n)
    ensures Landed(w, r) ==> Landed(Reserving(w, r, n), r)
  {
    hide Tracked, Landed;
    ReservingKeepsTracked(w, r, n);
  }

  lemma SavingKeepsSteady(w: World, r: Receipt, base: map<Name, Container>)
    requires SteadyWith(w, r, base)
    ensures SteadyWith(w.(receipt := Some(r)), r, base)
    ensures Landed(w.(receipt := Some(r)), r) == Landed(w, r)
  {
    hide Tracked, Landed, Spared;
    TrackedIgnoresFile(w, Some(r), r);
  }

  lemma ObserveKeepsSteady(w: World, r: Receipt, base: map<Name, Container>)
    requires SteadyWith(w, r, base) && Open(r) && Fenced(r.phase)
    requires LevelIn(w.containers, Last(r.actions).order.name) == Gives(Last(r.actions).order.kind)
    ensures var r' := Progressing(r, Observed);
            && SteadyWith(w, r', base) && Landed(w, r') && !Open(r') && w.inflight == []
            && Orders(r'.actions) == Orders(r.actions)
  {
    ObserveKeepsTracked(w, r);
    ProgressKeepsOrders(r, Observed);
    hide Readable, Effective, PhaseHolds, Levels, Replay, InDoubt, Orders;
  }

  /** What a listing shows once everything has landed. */
  lemma SteadyShows(w: World, r: Receipt, base: map<Name, Container>, n: Name)
    requires SteadyWith(w, r, base) && Landed(w, r) && n in r.before
    ensures LevelIn(w.containers, n) == Final(r)[n]
    ensures r.before[n].None? && n in w.containers ==> w.containers[n].owner == Some(r.operation)
  {
    QuietShowsLevels(w, r);
  }

  lemma FencingKeepsSteady(w: World, r: Receipt, base: map<Name, Container>, failure: Option<Failure>)
    requires SteadyWith(w, r, base) && r.phase != Reconciled
    ensures SteadyWith(w, r.(phase := Uncertain, failure := failure), base)
  {
    FencingKeepsTracked(w, r, failure);
  }

  lemma ClosingKeepsSteady(w: World, r: Receipt, base: map<Name, Container>, phase: Phase)
    requires SteadyWith(w, r, base) && Landed(w, r) && !Open(r) && Fenced(r.phase)
    requires phase in {Completed, RolledBack} && PhaseHolds(r.(phase := phase))
    ensures SteadyWith(w, r.(phase := phase), base)
  {
    ClosingKeepsTracked(w, r, phase);
  }

  /** Behind a terminal receipt nothing is in flight, and reservations may be settled. */
  lemma UnfencedIsAtRest(w: World, r: Receipt, base: map<Name, Container>)
    requires SteadyWith(w, r, base) && !Fenced(r.phase)
    ensures w.inflight == []
  {
  }

  lemma SettlingKeepsSteady(w: World, r: Receipt, base: map<Name, Container>, reservations: map<Name, Reservation>)
    requires SteadyWith(w, r, base) && w.receipt == Some(r) && !Fenced(r.phase)
    ensures SteadyWith(w.(reservations := reservations), r, base)
  {
    SettlingKeepsTracked(w, r, reservations);
  }

  lemma ReconciledIsSteady(w: World, r: Receipt, s: Settlement)
    requires Sound(w) && w.receipt == Some(r) && Confirmable(r, w.containers)
    requires s.states.Keys == r.before.Keys && s.readiness.Keys == RunningIn(s.states)
    requires forall n <- r.before :: LevelSeen(s.states[n]) == LevelIn(w.containers, n)
    requires s.outcome == Classify(r.before, s.states)
    ensures SteadyWith(w, r.(phase := Reconciled, settlement := Some(s)), w.containers)
    ensures w.inflight == []
  {
    ReconciledIsTracked(w, r, s);
  }

  /** What a steady call leaves alone. */
  lemma SteadySpares(w: World, r: Receipt, base: map<Name, Container>)
    requires SteadyWith(w, r, base)
    requires forall n <- r.before :: LevelSeen(r.before[n]) == LevelIn(base, n)
    ensures forall n :: n !in r.before || LevelIn(base, n) == Live ==> SameAt(base, w.containers, n)
    ensures forall n <- base :: n in w.containers
  {
    PriorRunningIsPreserved(w, r);
    forall n | n !in r.before || LevelIn(base, n) == Live
      ensures SameAt(base, w.containers, n)
    {
      if n in base.Keys + w.containers.Keys {}
    }
    forall n | n in base ensures n in w.containers {
      if n !in r.before {
        assert SameAt(base, w.containers, n);
      }
    }
  }
}
