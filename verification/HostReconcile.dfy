/**
The Apple host operator: `reconcile`, its rollback, and the separate `settle` step.

Every read, check, file write, command and acknowledgement may succeed, raise, or be the point at
which the process dies, and mutations already sent may land or be dropped before any of them.  Those choices
are nondeterministic, so each contract below holds whatever fails and whenever the process stops.  A call
that runs `smooth` is one in which nothing dies, whatever was sent lands at once, and of all its steps no
more than `faults` raise: which ones is open.
*/
module HostReconcile {
  import opened Options
  import opened Sequences
  import opened HostProtocol

  /** How one step ends for the operator process. */
  datatype Signal = Done | Raised | Died

  datatype Result =
    | Refused
    | FencedByIntent
    | NothingToDo(wouldStart: seq<Name>)
    | Applied(started: seq<Name>)
    | RolledBackError
    | UncertainError
    | ProcessDied
  {
    /** The call decided not to act. */
    predicate Passive() {
      Refused? || FencedByIntent? || NothingToDo? || ProcessDied?
    }
  }

  /** The step of a smooth call that raised: none, one before the call acts, or one with this receipt in memory. */
  datatype Strike = Never | Early | Acting(receipt: Receipt)

  datatype SettleResult = Kept | Settled(outcome: Outcome) | SettleDied

  datatype Call =
    | CallReconcile(instances: seq<Name>, revision: string, operation: Token, probe: Name -> Health, apply: bool,
        smooth: bool, faults: nat)
    | CallSettle(instances: seq<Name>, revision: string, probe: Name -> Health, smooth: bool, faults: nat)
    | CallWait(smooth: bool, faults: nat)

  datatype Report = Idled | Reconciling(result: Result) | Settling(answer: SettleResult)

  /** The call reports neither a success nor a rollback nor a settlement. */
  predicate Futile(report: Report) {
    match report
    case Idled => true
    case Reconciling(result) => result.Passive()
    case Settling(answer) => !answer.Settled?
  }

  function Seen(rows: map<Name, Container>, n: Name): Option<RunState> {
    if n in rows then Some(rows[n].state) else None
  }

  function Pending(instances: seq<Name>, before: map<Name, Option<RunState>>): (names: seq<Name>)
    requires forall n <- instances :: n in before
    ensures forall n :: n in names <==> n in instances && before[n] != Some(Running)
    ensures Distinct(instances) ==> Distinct(names)
  {
    if instances == [] then []
    else
      var rest := Pending(instances[1..], before);
      assert forall n :: n in instances <==> n == instances[0] || n in instances[1..];
      if before[instances[0]] != Some(Running) then [instances[0]] + rest else rest
  }

  /** The orders that bring up one instance, given the state it was found in. */
  function StartPlan(n: Name, before: Option<RunState>): seq<Order> {
    if before.None? then [Order(n, Create), Order(n, Start)] else [Order(n, Start)]
  }

  lemma PlanEnds(n: Name, before: Option<RunState>)
    ensures StartPlan(n, before) != [] && StartPlan(n, before) == Init(StartPlan(n, before)) + [Order(n, Start)]
  {
  }

  function StartPlans(names: seq<Name>, before: map<Name, Option<RunState>>): seq<Order>
    requires forall n <- names :: n in before
  {
    if names == [] then [] else StartPlans(Init(names), before) + StartPlan(Last(names), before[Last(names)])
  }

  /** An instance nothing was ordered for can be created. */
  lemma UnusedIsOriginal(r: Receipt, n: Name)
    requires n in r.before && forall o <- Orders(r.actions) :: o.name != n
    ensures Final(r)[n] == LevelSeen(r.before[n])
    ensures forall k :: Order(n, k) !in Orders(r.actions)
  {
    UntouchedKeepsLevel(Origin(r.before), Orders(r.actions), n);
  }

  lemma CreatedIsIdle(r: Receipt, r': Receipt, n: Name)
    requires n in r.before && r'.before == r.before
    requires Orders(r'.actions) == Orders(r.actions) + [Order(n, Create)]
    ensures Final(r')[n] == Idle
  {
    ReplayAppend(Origin(r.before), Orders(r.actions), Order(n, Create));
  }

  lemma {:induction false} PlansNameOnly(names: seq<Name>, before: map<Name, Option<RunState>>)
    requires forall n <- names :: n in before
    ensures forall o <- StartPlans(names, before) :: o.name in names && o.kind != Stop
  {
    if names != [] {
      PlansNameOnly(Init(names), before);
      assert names == Init(names) + [Last(names)];
    }
  }

  lemma NoPlans(before: map<Name, Option<RunState>>)
    ensures StartPlans([], before) == []
  {
  }

  /** The plan of one more instance comes after plans of other instances. */
  lemma NextPlan(pending: seq<Name>, before: map<Name, Option<RunState>>, i: nat)
    requires Distinct(pending) && i < |pending| && forall n <- pending :: n in before
    ensures StartPlans(pending[..i + 1], before)
         == StartPlans(pending[..i], before) + StartPlan(pending[i], before[pending[i]])
    ensures forall o <- StartPlans(pending[..i], before) :: o.name != pending[i]
    ensures pending[i] !in pending[..i] && pending[..i + 1] == pending[..i] + [pending[i]]
  {
    PlansNameOnly(pending[..i], before);
    assert Init(pending[..i + 1]) == pending[..i];
  }

  lemma ReplayPlan(origin: map<Name, Level>, orders: seq<Order>, n: Name, found: Option<RunState>)
    requires n in origin
    ensures Replay(origin, orders + StartPlan(n, found)) == Replay(origin, orders)[n := Live]
  {
    if found.None? {
      ReplayAppend(origin, orders, Order(n, Create));
      ReplayAppend(origin, orders + [Order(n, Create)], Order(n, Start));
      assert orders + StartPlan(n, found) == orders + [Order(n, Create)] + [Order(n, Start)];
    } else {
      ReplayAppend(origin, orders, Order(n, Start));
    }
  }

  /** Carrying out the plans leaves every named instance running. */
  lemma {:induction false} PlansBringLive(before: map<Name, Option<RunState>>, names: seq<Name>, n: Name)
    requires forall m <- names :: m in before
    requires n in names
    ensures Replay(Origin(before), StartPlans(names, before))[n] == Live
  {
    var m := Last(names);
    assert names == Init(names) + [m];
    ReplayPlan(Origin(before), StartPlans(Init(names), before), m, before[m]);
    if n != m {
      PlansBringLive(before, Init(names), n);
    }
  }

  /** When the plans of every pending instance have been carried out, every instance is running. */
  lemma PlansComplete(r: Receipt, pending: seq<Name>)
    requires forall n :: n in pending <==> n in r.before && r.before[n] != Some(Running)
    requires Orders(r.actions) == StartPlans(pending, r.before)
    ensures forall n <- r.before :: Final(r)[n] == Live
  {
    PlansNameOnly(pending, r.before);
    forall n | n in r.before ensures Final(r)[n] == Live {
      if n in pending {
        PlansBringLive(r.before, pending, n);
      } else {
        UntouchedKeepsLevel(Origin(r.before), Orders(r.actions), n);
      }
    }
  }

  /** Every instance that runs although it did not at first is one of `names`. */
  predicate LiveWithin(r: Receipt, names: seq<Name>) {
    forall n <- r.before :: Final(r)[n] == Live && r.before[n] != Some(Running) ==> n in names
  }

  /** What runs although it did not at first was started by this operation. */
  lemma LiveWasAttempted(r: Receipt, attempted: seq<Name>)
    requires forall o <- Orders(r.actions) :: o.kind == Start ==> o.name in attempted
    ensures LiveWithin(r, attempted)
  {
    forall n | n in r.before && Final(r)[n] == Live && r.before[n] != Some(Running)
      ensures n in attempted
    {
      LevelHasCause(Origin(r.before), Orders(r.actions), n);
    }
  }

  lemma StoppedLeavesLive(r: Receipt, r': Receipt, names: seq<Name>, n: Name)
    requires LiveWithin(r, names + [n]) && n in r.before && r'.before == r.before && Final(r')[n] != Live
    requires Orders(r'.actions) == Orders(r.actions) || Orders(r'.actions) == Orders(r.actions) + [Order(n, Stop)]
    ensures LiveWithin(r', names)
    ensures forall m <- r.before :: Final(r)[m] != Missing ==> Final(r')[m] != Missing
  {
    ReplayAppend(Origin(r.before), Orders(r.actions), Order(n, Stop));
  }

  lemma {:induction false} NamesBound(names: seq<Name>)
    ensures |set n | n in names| <= |names|
  {
    if names != [] {
      NamesBound(Init(names));
      assert names == Init(names) + [Last(names)];
      assert (set n | n in names) == (set n | n in Init(names)) + {Last(names)};
    }
  }

  lemma BeforeIsSmall(instances: seq<Name>, before: map<Name, Option<RunState>>)
    requires forall n :: n in before <==> n in instances
    ensures |before| <= |instances|
  {
    NamesBound(instances);
    assert before.Keys == set n | n in instances;
    assert |before| == |before.Keys|;
  }

  /** A rollback that has come down to the first `i` names it tried to start. */
  predicate Undoing(r: Receipt, attempted: seq<Name>, i: nat) {
    && i <= |attempted| && LiveWithin(r, attempted[..i])
    && (forall o <- Orders(r.actions) :: o.kind == Stop ==> o.name in attempted[i..])
    && (forall n <- attempted[..i] :: n in r.before && r.before[n] != Some(Running) && Final(r)[n] != Missing)
  }

  /** Only starts of listed, still reserved instances have been ordered, and creations. */
  predicate StartsListed(r: Receipt, attempted: seq<Name>, reservations: map<Name, Reservation>) {
    && (forall o <- Orders(r.actions) :: o.kind != Stop && (o.kind == Start ==> o.name in attempted))
    && Distinct(attempted)
    && (forall n <- attempted :: n in r.before && r.before[n] != Some(Running)
                                 && n in reservations && reservations[n] == Reservation(r.operation, r.revision, false)
                                 && (r.before[n].None? ==> Order(n, Create) in Orders(r.actions)))
  }

  /** What was attempted is there. */
  lemma ListedIsThere(r: Receipt, attempted: seq<Name>, reservations: map<Name, Reservation>, n: Name)
    requires StartsListed(r, attempted, reservations) && n in attempted
    ensures n in r.before && Final(r)[n] != Missing
  {
    NeverRemoved(Origin(r.before), Orders(r.actions), n);
  }

  lemma UndoingStarts(r: Receipt, attempted: seq<Name>, reservations: map<Name, Reservation>)
    requires StartsListed(r, attempted, reservations)
    ensures Undoing(r, attempted, |attempted|)
  {
    assert attempted[..|attempted|] == attempted;
    LiveWasAttempted(r, attempted);
    forall n | n in attempted ensures n in r.before && Final(r)[n] != Missing {
      ListedIsThere(r, attempted, reservations, n);
    }
  }

  lemma UndoingNext(r: Receipt, attempted: seq<Name>, i: nat)
    requires 0 < i && Undoing(r, attempted, i) && Distinct(attempted)
    ensures var n := attempted[i - 1];
            && n in r.before && r.before[n] != Some(Running) && Final(r)[n] != Missing
            && Order(n, Stop) !in Orders(r.actions)
  {
    hide LiveWithin, Final;
    var n := attempted[i - 1];
    assert n in attempted[..i] && n !in attempted[i..];
    assert Order(n, Stop).kind == Stop && Order(n, Stop).name == n;
  }

  lemma UndoingMore(r: Receipt, r': Receipt, attempted: seq<Name>, i: nat)
    requires 0 < i && Undoing(r, attempted, i) && r' == r.(actions := r'.actions)
    requires var n := attempted[i - 1];
             n in r.before && Final(r')[n] != Live
             && (Orders(r'.actions) == Orders(r.actions) || Orders(r'.actions) == Orders(r.actions) + [Order(n, Stop)])
    ensures Undoing(r', attempted, i - 1)
  {
    var n := attempted[i - 1];
    assert attempted[i - 1..] == [n] + attempted[i..];
    assert attempted[..i] == attempted[..i - 1] + [n];
    StoppedLeavesLive(r, r', attempted[..i - 1], n);
    hide LiveWithin, Final;
  }

  lemma UndoneMeans(r: Receipt, attempted: seq<Name>)
    requires Undoing(r, attempted, 0)
    ensures PhaseHolds(r.(phase := RolledBack))
  {
    assert attempted[..0] == [];
  }

  /** Nothing has happened to the reservations but that open ones of this very operation have become settled ones. */
  predicate SettledOnly(r: Receipt, was: map<Name, Reservation>, now: map<Name, Reservation>) {
    && now.Keys == was.Keys
    && forall n <- now :: now[n] == was[n] || (was[n] == Reservation(r.operation, r.revision, false)
                                               && now[n] == was[n].(settled := true))
  }

  lemma SettledOnlyMore(r: Receipt, was: map<Name, Reservation>, now: map<Name, Reservation>,
      later: map<Name, Reservation>)
    requires SettledOnly(r, was, now) && SettledOnly(r, now, later)
    ensures SettledOnly(r, was, later)
    ensures forall n <- now :: now[n].settled ==> n in later && later[n].settled
  {
  }

  lemma SettledOnlyKeys(r: Receipt, was: map<Name, Reservation>, now: map<Name, Reservation>)
    requires SettledOnly(r, was, now)
    ensures was.Keys == now.Keys
  {
  }

  lemma SettledOnlyNothing(r: Receipt, was: map<Name, Reservation>)
    ensures SettledOnly(r, was, was)
  {
  }

  lemma StartsListedMore(r: Receipt, r': Receipt, attempted: seq<Name>, reservations: map<Name, Reservation>, o: Order)
    requires StartsListed(r, attempted, reservations) && r' == r.(actions := r'.actions)
    requires Orders(r'.actions) == Orders(r.actions) || Orders(r'.actions) == Orders(r.actions) + [o]
    requires o.kind != Stop && (o.kind == Start ==> o.name in attempted)
    ensures StartsListed(r', attempted, reservations)
  {
  }

  lemma ListedIsDistinct(r: Receipt, attempted: seq<Name>, reservations: map<Name, Reservation>)
    requires StartsListed(r, attempted, reservations)
    ensures Distinct(attempted)
  {
  }

  lemma ListedIsReserved(r: Receipt, attempted: seq<Name>, reservations: map<Name, Reservation>, n: Name)
    requires StartsListed(r, attempted, reservations) && n in attempted
    ensures n in reservations && reservations[n] == Reservation(r.operation, r.revision, false)
  {
  }

  lemma ListingMore(r: Receipt, attempted: seq<Name>, reservations: map<Name, Reservation>, n: Name)
    requires StartsListed(r, attempted, reservations)
    requires n !in attempted && n in r.before && r.before[n] != Some(Running)
    requires n in reservations && reservations[n] == Reservation(r.operation, r.revision, false)
    requires r.before[n].None? ==> Order(n, Create) in Orders(r.actions)
    ensures StartsListed(r, attempted + [n], reservations)
  {
  }

  /** One selected instance passes the loop of `_settle`: confirmed by the listing, and adopted if it was. */
  predicate RowPasses(r: Receipt, rows: map<Name, Container>, n: Name, probe: Name -> Health)
    requires n in r.before
  {
    && RowConfirms(r, rows, n)
    && (n in rows && rows[n].state == Running && n in r.baseline && r.baseline[n] == Connected ==>
          probe(n) == Connected)
  }

  /** The instance is reserved for something else than this operation. */
  predicate TakenIn(reservations: map<Name, Reservation>, operation: Token, revision: string, n: Name) {
    n in reservations && !reservations[n].settled && reservations[n] != Reservation(operation, revision, false)
  }

  predicate FreeIn(reservations: map<Name, Reservation>, operation: Token, revision: string, names: seq<Name>) {
    forall n <- names :: !TakenIn(reservations, operation, revision, n)
  }

  /** No more is taken than before. */
  ghost predicate NoneTakenMore(was: map<Name, Reservation>, now: map<Name, Reservation>, operation: Token,
      revision: string)
  {
    forall n :: TakenIn(now, operation, revision, n) ==> TakenIn(was, operation, revision, n)
  }

  lemma StillFree(was: map<Name, Reservation>, now: map<Name, Reservation>, operation: Token, revision: string,
      names: seq<Name>)
    requires NoneTakenMore(was, now, operation, revision)
    ensures FreeIn(was, operation, revision, names) ==> FreeIn(now, operation, revision, names)
  {
  }

  lemma PartIsFree(reservations: map<Name, Reservation>, operation: Token, revision: string, names: seq<Name>,
      some: seq<Name>)
    requires forall n <- some :: n in names
    ensures FreeIn(reservations, operation, revision, names) ==> FreeIn(reservations, operation, revision, some)
  {
  }

  lemma OneIsFree(was: map<Name, Reservation>, now: map<Name, Reservation>, operation: Token, revision: string,
      names: seq<Name>, i: nat)
    requires NoneTakenMore(was, now, operation, revision) && i < |names|
    ensures FreeIn(was, operation, revision, names) ==> !TakenIn(now, operation, revision, names[i])
  {
  }

  /** A receipt of this revision and these instances, none of them held by another operation. */
  predicate Matches(r: Receipt, reservations: map<Name, Reservation>, instances: seq<Name>, revision: string) {
    && r.revision == revision && r.before.Keys == (set n | n in instances)
    && FreeIn(reservations, r.operation, r.revision, instances)
  }

  predicate Passes(r: Receipt, reservations: map<Name, Reservation>, rows: map<Name, Container>, instances: seq<Name>,
      revision: string, probe: Name -> Health)
  {
    Matches(r, reservations, instances, revision) && forall n <- instances :: RowPasses(r, rows, n, probe)
  }

  lemma PassesMeans(r: Receipt, reservations: map<Name, Reservation>, rows: map<Name, Container>,
      instances: seq<Name>, revision: string, probe: Name -> Health)
    ensures Passes(r, reservations, rows, instances, revision, probe) <==>
              && r.revision == revision && (forall n :: n in r.before <==> n in instances)
              && (forall n <- instances :: n in reservations && !reservations[n].settled ==>
                    reservations[n] == Reservation(r.operation, r.revision, false))
              && Confirmable(r, rows)
              && (forall n <- instances :: LevelIn(rows, n) == Live && n in r.baseline ==>
                    r.baseline[n] == Connected ==> probe(n) == Connected)
  {
    hide RowConfirms;
  }

  lemma PassingConfirms(r: Receipt, rows: map<Name, Container>, instances: seq<Name>, probe: Name -> Health)
    requires r.before.Keys == (set n | n in instances) && forall n <- instances :: RowPasses(r, rows, n, probe)
    ensures Confirmable(r, rows)
  {
    hide RowConfirms;
  }

  lemma PassesConfirms(r: Receipt, reservations: map<Name, Reservation>, rows: map<Name, Container>,
      instances: seq<Name>, revision: string, probe: Name -> Health)
    requires Passes(r, reservations, rows, instances, revision, probe)
    ensures Confirmable(r, rows) && FreeIn(reservations, r.operation, r.revision, instances)
    ensures forall n :: n in r.before <==> n in instances
  {
    hide RowPasses;
    PassingConfirms(r, rows, instances, probe);
  }

  /** A settlement that tells what a listing shows of the instances. */
  ghost predicate Tells(t: Settlement, before: map<Name, Option<RunState>>, rows: map<Name, Container>,
      instances: seq<Name>, probe: Name -> Health)
  {
    && t.states.Keys == before.Keys == (set n | n in instances)
    && (forall n <- instances :: t.states[n] == Seen(rows, n))
    && t.readiness.Keys == RunningIn(t.states) && (forall n <- t.readiness :: t.readiness[n] == probe(n))
    && t.outcome == Classify(before, t.states)
  }

  lemma TellsStates(t: Settlement, before: map<Name, Option<RunState>>, rows: map<Name, Container>,
      instances: seq<Name>, probe: Name -> Health)
    requires Tells(t, before, rows, instances, probe)
    ensures forall n :: n in before <==> n in instances
    ensures forall n <- instances :: n in t.states && t.states[n] == Seen(rows, n)
    ensures forall n <- instances :: LevelIn(rows, n) == Live <==> t.states[n] == Some(Running)
    ensures forall n <- instances :: LevelIn(rows, n) == Live ==> n in t.readiness && t.readiness[n] == probe(n)
  {
    hide Classify;
  }

  lemma TellsOutcome(t: Settlement, before: map<Name, Option<RunState>>, rows: map<Name, Container>,
      instances: seq<Name>, probe: Name -> Health)
    requires Tells(t, before, rows, instances, probe) && forall n <- instances :: n in before
    ensures t.outcome == AllRunning <==> forall n <- instances :: LevelIn(rows, n) == Live
    ensures t.outcome == NoNewRunning <==>
              && (exists n <- instances :: LevelIn(rows, n) != Live)
              && (forall n <- instances :: LevelIn(rows, n) == Live ==> before[n] == Some(Running))
    ensures t.outcome == PartialRuntimeState <==>
              && (exists n <- instances :: LevelIn(rows, n) != Live)
              && (exists n <- instances :: LevelIn(rows, n) == Live && before[n] != Some(Running))
  {
    TellsStates(t, before, rows, instances, probe);
    ClassifyMeans(before, t.states);
    hide Classify, LevelIn, Seen, RunningIn;
  }

  class Operator {
    // Outlive the process: the receipt file, the start reservations, the daemon and what it was sent.
    var receipt: Option<Receipt>
    var reservations: map<Name, Reservation>
    var containers: map<Name, Container>
    var inflight: seq<Mutation>
    var sent: map<Token, seq<Order>>
    // In a smooth call nothing goes wrong but that this many of the steps to come raise at most.
    var smooth: bool
    var faults: nat
    ghost var acting: bool
    ghost var struck: Strike
    // Memory of the running call: its receipt value and the names it tried to start.
    var draft: Receipt
    var attempted: seq<Name>
    // The containers when the running call began.
    ghost var base: map<Name, Container>

    function View(): World
      reads this`receipt, this`reservations, this`containers, this`inflight, this`sent
    {
      World(receipt, reservations, containers, inflight, sent)
    }

    constructor (containers: map<Name, Container>)
      ensures Sound(View())
      ensures this.containers == containers
    {
      receipt, reservations, inflight, sent := None, map[], [], map[];
      this.containers := containers;
      draft, attempted := Receipt("", "", Prepared, map[], map[], [], None, None), [];
      base := containers;
      smooth, faults, acting, struck := false, 0, false, Never;
    }

    /** The world is sound, and would be if the call published its receipt now. */
    ghost predicate Steady()
      reads this`receipt, this`reservations, this`containers, this`inflight, this`sent, this`draft, this`base
    {
      SteadyWith(View(), draft, base)
    }

    /** Nothing is unresolved and the next mutation may be written down. */
    ghost predicate Quiet()
      reads this`receipt, this`reservations, this`containers, this`inflight, this`sent, this`draft, this`base
    {
      Steady() && Landed(View(), draft) && !Open(draft) && Fenced(draft.phase)
    }

    /** The draft still belongs to the same operation. */
    twostate predicate SameIntent()
      reads this
    {
      && draft == old(draft).(actions := draft.actions)
      && base == old(base) && smooth == old(smooth) && acting == old(acting)
    }

    /** Where a failure strikes now. */
    ghost function Now(): Strike
      reads this`acting, this`draft
    {
      if acting then Acting(draft) else Early
    }

    /** In a smooth call a step goes through, or it is one that raises. */
    twostate predicate Ran(s: Signal)
      reads this`smooth, this`faults, this`struck, this`acting, this`draft
    {
      smooth ==> if s == Done then faults == old(faults) && struck == old(struck)
                 else s == Raised && faults + 1 == old(faults) && struck == Now()
    }

    predicate Taken(n: Name)
      reads this`reservations, this`draft
    {
      TakenIn(reservations, draft.operation, draft.revision, n)
    }

    predicate Free(names: seq<Name>)
      reads this`reservations, this`draft
    {
      FreeIn(reservations, draft.operation, draft.revision, names)
    }

    twostate predicate NoMoreTaken()
      reads this`reservations, this`draft
    {
      NoneTakenMore(old(reservations), reservations, draft.operation, draft.revision)
    }

    /** Apart from the receipt file, only mutations in flight have landed or were dropped. */
    twostate predicate Waited()
      reads this
    {
      Later(old(View()), View())
    }

    // ---- The daemon and the steps that touch only one place ----

    /** Mutation `i` in flight lands. */
    method LandFirst(i: nat, idle: RunState)
      requires i < |inflight| && idle != Running
      modifies this`containers, this`inflight
      ensures View() == Land(old(View()), i, idle)
      ensures forall w :: Later(w, old(View())) ==> Later(w, View())
      ensures forall r :: old(Tracked(View(), r)) ==> Landed(View(), r)
      ensures |inflight| == |old(inflight)| - 1
    {
      var landed := Land(View(), i, idle);
      assert landed == World(receipt, reservations, landed.containers, landed.inflight, sent);
      forall w | Later(w, View()) ensures Later(w, landed) {
        LandIsLater(w, View(), i, idle);
      }
      forall r | Tracked(View(), r) ensures Landed(landed, r) {
        LandKeepsTracked(View(), r, i, idle);
      }
      containers, inflight := landed.containers, landed.inflight;
      assert View() == landed;
    }

    /** Any number of mutations in flight land, or are dropped. */
    method Elapse()
      modifies this`containers, this`inflight
      ensures Waited()
      ensures old(inflight) == [] ==> View() == old(View())
      ensures old(Quiet()) ==> Quiet() && View() == old(View())
      ensures old(Sound(View())) ==> Sound(View())
      ensures old(Steady()) ==> Steady()
      ensures smooth ==> inflight == []
      ensures smooth && old(inflight) != [] ==> forall r :: old(Tracked(View(), r)) ==> Landed(View(), r)
    {
      var steps: int := *;
      while if smooth then inflight != [] else steps > 0
        invariant Waited()
        invariant smooth && inflight == [] && old(inflight) != [] ==>
                    forall r :: old(Tracked(View(), r)) ==> Landed(View(), r)
        decreases if smooth then |inflight| else steps
      {
        var i: int := *;
        var idle: RunState := *;
        var lands: bool := *;
        if smooth || (0 <= i < |inflight| && lands && idle != Running) {
          LandFirst(if smooth then 0 else i, if idle == Running then Stopped else idle);
        } else if 0 <= i < |inflight| && !lands {
          FizzleIsLater(old(View()), View(), i);
          inflight := Fizzle(View(), i).inflight;
          assert View() == World(receipt, reservations, containers, inflight, sent);
        }
        steps := steps - 1;
      }
      if old(Sound(View())) {
        LaterKeepsSound(old(View()), View());
      }
      if old(Steady()) {
        LaterKeepsSteady(old(View()), View(), draft, base);
      }
    }

    /** A read, a guard or a preflight: it changes nothing and may raise. */
    method Check() returns (s: Signal)
      modifies this`containers, this`inflight, this`faults, this`struck
      ensures Waited()
      ensures old(inflight) == [] ==> View() == old(View())
      ensures old(Quiet()) ==> Quiet() && View() == old(View())
      ensures old(Steady()) ==> Steady()
      ensures old(Sound(View())) ==> Sound(View())
      ensures Ran(s) && (smooth ==> inflight == [])
      ensures smooth && old(inflight) != [] ==> forall r :: old(Tracked(View(), r)) ==> Landed(View(), r)
    {
      Elapse();
      s := *;
      if smooth {
        s := if s != Done && faults > 0 then Raised else Done;
        if s == Raised {
          faults, struck := faults - 1, Now();
        }
      }
    }

    /** A successful listing shows the containers as they are at that moment. */
    method Observe() returns (s: Signal, rows: map<Name, Container>)
      modifies this`containers, this`inflight, this`faults, this`struck
      ensures Waited()
      ensures old(inflight) == [] ==> View() == old(View())
      ensures old(Quiet()) ==> Quiet() && View() == old(View())
      ensures rows == containers
      ensures old(Steady()) ==> Steady()
      ensures old(Sound(View())) ==> Sound(View())
      ensures Ran(s) && (smooth ==> inflight == [])
    {
      s := Check();
      rows := containers;
    }

    /** Saving the receipt: it may raise or die with or without having replaced the file. */
    method Publish() returns (s: Signal)
      requires Steady()
      modifies this`receipt, this`containers, this`inflight, this`faults, this`struck
      ensures Steady() && Waited()
      ensures old(inflight) == [] ==> View() == old(View()).(receipt := receipt)
      ensures old(Quiet()) ==> Quiet() && View() == old(View()).(receipt := receipt)
      ensures receipt in {old(receipt), Some(draft)}
      ensures s == Done ==> receipt == Some(draft)
      ensures old(inflight) == [] && old(Landed(View(), draft)) ==> Landed(View(), draft)
      ensures Ran(s)
    {
      hide Readable, Tracked, SteadyWith, Landed, InDoubt, Later, Effective, PhaseHolds, Replay, Sound;
      s := Check();
      var replaced: bool := *;
      if s == Done || replaced {
        SavedIsLater(old(View()), View(), Some(draft));
        SavingKeepsSteady(View(), draft, base);
        assert View().(receipt := Some(draft)) == World(Some(draft), reservations, containers, inflight, sent);
        receipt := Some(draft);
      }
    }

    /** Publishing the start reservation of one instance. */
    method Reserve(n: Name) returns (s: Signal)
      requires Quiet() && receipt == Some(draft)
      modifies this`reservations, this`containers, this`inflight, this`faults, this`struck
      ensures Quiet()
      ensures reservations in {old(reservations), old(Reserving(View(), draft, n).reservations)}
      ensures View() == old(View()).(reservations := reservations)
      ensures s == Done ==> Reserved(View(), draft, n)
      ensures n in old(reservations) && !old(reservations)[n].settled && !old(Reserved(View(), draft, n)) ==>
                s != Done && reservations == old(reservations)
      ensures NoMoreTaken()
      ensures (smooth && !old(Taken(n)) ==> Ran(s)) && (smooth ==> s != Died)
    {
      hide Readable, Tracked, SteadyWith, Landed, InDoubt, Later, Effective, PhaseHolds, Replay, Orders, Sound;
      s := Check();
      if n in reservations && !reservations[n].settled && !Reserved(View(), draft, n) {
        s := if s == Died then Died else Raised;
        return;
      }
      var replaced: bool := *;
      if s == Done || replaced {
        ReservingKeepsSteady(View(), draft, base, n);
        assert Reserving(View(), draft, n)
            == World(receipt, reservations[n := Reservation(draft.operation, draft.revision, false)], containers,
                inflight, sent);
        reservations := reservations[n := Reservation(draft.operation, draft.revision, false)];
      }
    }

    /** Running the command of the last order: it may raise before the daemon has it, or after. */
    method Dispatch() returns (s: Signal)
      requires Steady() && receipt == Some(draft) && Open(draft) && Fenced(draft.phase)
      requires Sent(View(), draft.operation) == Init(Orders(draft.actions))
      modifies this`containers, this`inflight, this`sent, this`faults, this`struck
      ensures Steady()
      ensures s == Done ==> Sent(View(), draft.operation) == Orders(draft.actions)
      ensures Ran(s) && (smooth && s == Done ==> Landed(View(), draft))
    {
      hide Readable, Tracked, SteadyWith, Landed, InDoubt, Effective, PhaseHolds, Replay, Orders;
      s := Check();
      if s == Done {
        SendKeepsSteady(View(), draft, base);
        var w := Send(View(), draft);
        assert w == World(receipt, reservations, containers, w.inflight, w.sent);
        inflight, sent := w.inflight, w.sent;
        assert View() == w;
        s := Check();
      }
    }

    /** The request of the next order, on disk before anything is sent. */
    method Record(o: Order) returns (s: Signal)
      requires Quiet()
      requires Admissible(Origin(draft.before), Orders(draft.actions), o)
      requires Reserved(View(), draft, o.name)
      modifies this`receipt, this`containers, this`inflight, this`draft, this`faults, this`struck
      ensures Steady() && SameIntent() && Open(draft) && Last(draft.actions).order == o && draft != old(draft)
      ensures Orders(draft.actions) == Orders(old(draft.actions)) + [o]
      ensures Sent(View(), draft.operation) == Init(Orders(draft.actions))
      ensures s == Done ==> receipt == Some(draft)
      ensures Ran(s)
    {
      hide Readable, Tracked, SteadyWith, Landed, InDoubt, Later, Effective, PhaseHolds, Replay, Orders, Sound;
      LandedIsQuiet(View(), draft);
      RequestKeepsSteady(View(), draft, base, o);
      draft := Requesting(draft, o);
      s := Publish();
    }

    method Acknowledge() returns (s: Signal)
      requires Steady() && Open(draft) && Fenced(draft.phase) && Sent(View(), draft.operation) == Orders(draft.actions)
      modifies this`receipt, this`containers, this`inflight, this`draft, this`faults, this`struck
      ensures Steady() && SameIntent() && Open(draft) && Last(draft.actions).progress == Acknowledged
      ensures Last(draft.actions).order == old(Last(draft.actions).order)
      ensures Orders(draft.actions) == Orders(old(draft.actions))
      ensures old(Landed(View(), draft)) ==> Landed(View(), draft)
      ensures s == Done ==> receipt == Some(draft)
      ensures Ran(s)
    {
      hide Readable, Tracked, SteadyWith, Landed, InDoubt, Later, Effective, PhaseHolds, Replay, Orders, Sound;
      LandedIsQuiet(View(), draft);
      AcknowledgeKeepsSteady(View(), draft, base);
      draft := Progressing(draft, Acknowledged);
      s := Publish();
    }

    /** `mutation`: request on disk, then command, then acknowledgement on disk. */
    method Mutate(o: Order) returns (s: Signal)
      requires Quiet()
      requires Admissible(Origin(draft.before), Orders(draft.actions), o)
      requires Reserved(View(), draft, o.name)
      modifies this`receipt, this`containers, this`inflight, this`sent, this`draft, this`faults, this`struck
      ensures Steady() && SameIntent()
      ensures draft == old(draft) ==> Quiet()
      ensures draft != old(draft) ==> Open(draft) && Orders(draft.actions) == Orders(old(draft.actions)) + [o]
      ensures draft != old(draft) ==> Last(draft.actions).order == o
      ensures s == Done ==>
                draft != old(draft) && receipt == Some(draft) && Last(draft.actions).progress == Acknowledged
      ensures Ran(s) && (smooth && s == Done ==> Landed(View(), draft))
    {
      hide Readable, Tracked, SteadyWith, Landed, InDoubt, Later, Effective, PhaseHolds, Replay, Orders, Init, Last,
          Sound, Admissible, Origin;
      s := Check();
      if s != Done { return; }
      s := Record(o);
      if s != Done { return; }
      s := Dispatch();
      if s != Done { return; }
      s := Acknowledge();
    }

    /** `observed`: the listing shows what the last order asked for. */
    method Confirm() returns (s: Signal)
      requires Steady() && Open(draft) && Fenced(draft.phase)
      requires LevelIn(containers, Last(draft.actions).order.name) == Gives(Last(draft.actions).order.kind)
      modifies this`receipt, this`containers, this`inflight, this`draft, this`faults, this`struck
      ensures Quiet() && SameIntent()
      ensures Orders(draft.actions) == Orders(old(draft.actions))
      ensures containers == old(containers)
      ensures s == Done ==> receipt == Some(draft)
      ensures Ran(s)
    {
      hide Readable, Tracked, SteadyWith, Landed, InDoubt, Later, Effective, PhaseHolds, Replay, Orders, Sound;
      ObserveKeepsSteady(View(), draft, base);
      draft := Progressing(draft, Observed);
      s := Publish();
    }

    /** What a rollback relies on: only starts of attempted, still reserved instances have been ordered. */
    ghost predicate Accounted()
      reads this
    {
      StartsListed(draft, attempted, reservations)
    }

    /** The checks before an instance is touched, and its reservation. */
    method Preflight(n: Name) returns (s: Signal)
      requires Quiet() && receipt == Some(draft) && n in draft.before && Accounted()
      modifies this`reservations, this`containers, this`inflight, this`faults, this`struck
      ensures Quiet() && Accounted() && containers == old(containers)
      ensures s == Done ==> Reserved(View(), draft, n)
      ensures (n in containers) != draft.before[n].Some? || LevelIn(containers, n) == Live ==>
                s != Done && reservations == old(reservations)
      ensures NoMoreTaken()
      ensures (n in containers) == draft.before[n].Some? && LevelIn(containers, n) != Live ==>
                smooth && !old(Taken(n)) ==> Ran(s)
    {
      hide Readable, Tracked, SteadyWith, Landed, Later, Effective, PhaseHolds, InDoubt;
      var rows;
      s, rows := Observe();
      if s != Done { return; }
      if (n in rows) != draft.before[n].Some? { s := Raised; return; }
      if n in rows && rows[n].state == Running { s := Raised; return; }
      s := Check();
      if s != Done { return; }
      s := Reserve(n);
    }

    /** Creating an absent instance and seeing it created, owned and not running. */
    method CreateInstance(n: Name) returns (s: Signal)
      requires Quiet() && Accounted() && n in draft.before && draft.before[n].None?
      requires Final(draft)[n] == Missing && Order(n, Create) !in Orders(draft.actions)
      requires Reserved(View(), draft, n)
      modifies this`receipt, this`containers, this`inflight, this`sent, this`draft, this`faults, this`struck
      ensures Steady() && Accounted() && SameIntent()
      ensures s == Done ==> Quiet() && receipt == Some(draft)
      ensures Ran(s)
      ensures s == Done ==> Orders(draft.actions) == Orders(old(draft.actions)) + [Order(n, Create)]
    {
      hide Readable, Tracked, SteadyWith, Landed, Later, Effective, PhaseHolds, InDoubt, Replay, Spared, StartsListed;
      s := Mutate(Order(n, Create));
      StartsListedMore(old(draft), draft, attempted, reservations, Order(n, Create));
      if s != Done { return; }
      if smooth {
        CreatedIsIdle(old(draft), draft, n);
        SteadyShows(View(), draft, base, n);
        LandedIsQuiet(View(), draft);
      }
      var rows;
      s, rows := Observe();
      if s != Done { return; }
      if n !in rows || rows[n].owner != Some(draft.operation) || rows[n].state == Running { s := Raised; return; }
      SteadyEvidence(View(), draft, base);
      s := Check();
      if s != Done { return; }
      s := Confirm();
      StartsListedMore(old(draft), draft, attempted, reservations, Order(n, Create));
    }

    /** Starting an idle instance and seeing it run. */
    method Launch(n: Name) returns (s: Signal)
      requires Quiet() && Accounted() && n in draft.before && draft.before[n] != Some(Running)
      requires Final(draft)[n] == Idle && Order(n, Start) !in Orders(draft.actions)
      requires n in attempted
      modifies this`receipt, this`containers, this`inflight, this`sent, this`draft, this`faults, this`struck
      ensures Steady() && Accounted() && SameIntent()
      ensures s == Done ==> Quiet() && receipt == Some(draft)
      ensures Ran(s)
      ensures s == Done ==> Orders(draft.actions) == Orders(old(draft.actions)) + [Order(n, Start)]
    {
      hide Readable, Tracked, SteadyWith, Landed, Later, Effective, PhaseHolds, InDoubt, Replay, Spared, StartsListed;
      ListedIsReserved(draft, attempted, reservations, n);
      s := Mutate(Order(n, Start));
      StartsListedMore(old(draft), draft, attempted, reservations, Order(n, Start));
      if s != Done { return; }
      if smooth {
        ReplayAppend(Origin(draft.before), Orders(old(draft.actions)), Order(n, Start));
        SteadyShows(View(), draft, base, n);
        LandedIsQuiet(View(), draft);
      }
      var rows;
      s, rows := Observe();
      if s != Done { return; }
      if n !in rows || rows[n].state != Running { s := Raised; return; }
      if draft.before[n].None? && rows[n].owner != Some(draft.operation) { s := Raised; return; }
      s := Confirm();
      StartsListedMore(old(draft), draft, attempted, reservations, Order(n, Start));
    }

    /** Makes sure the instance exists and is idle. */
    method Provide(n: Name) returns (s: Signal)
      requires Quiet() && Accounted() && receipt == Some(draft)
      requires n in draft.before && draft.before[n] != Some(Running)
      requires forall o <- Orders(draft.actions) :: o.name != n
      requires Reserved(View(), draft, n)
      modifies this`receipt, this`containers, this`inflight, this`sent, this`draft, this`faults, this`struck
      ensures Steady() && Accounted() && SameIntent()
      ensures s == Done ==> Quiet() && receipt == Some(draft)
      ensures Ran(s)
      ensures s == Done ==> Orders(draft.actions) == Orders(old(draft.actions)) + Init(StartPlan(n, draft.before[n]))
      ensures s == Done ==> Final(draft)[n] == Idle && Order(n, Start) !in Orders(draft.actions)
      ensures s == Done && draft.before[n].None? ==> Order(n, Create) in Orders(draft.actions)
    {
      hide Readable, Tracked, SteadyWith, Landed, Later, Effective, PhaseHolds, InDoubt, Replay;
      UnusedIsOriginal(draft, n);
      if draft.before[n].None? {
        s := CreateInstance(n);
        if s == Done {
          CreatedIsIdle(old(draft), draft, n);
        }
      } else {
        s := Done;
      }
    }

    /** Checks and reserves an instance that nothing was ordered for yet, and makes sure that it exists and is idle. */
    method MakeReady(n: Name) returns (s: Signal)
      requires Quiet() && receipt == Some(draft) && Accounted()
      requires n in draft.before && draft.before[n] != Some(Running)
      requires forall o <- Orders(draft.actions) :: o.name != n
      modifies this`receipt, this`reservations, this`containers, this`inflight, this`sent, this`draft
      modifies this`faults, this`struck
      ensures Steady() && Accounted() && SameIntent()
      ensures s == Done ==> Quiet() && receipt == Some(draft) && Reserved(View(), draft, n)
      ensures s == Done ==> Orders(draft.actions) == Orders(old(draft.actions)) + Init(StartPlan(n, draft.before[n]))
      ensures s == Done ==> Final(draft)[n] == Idle && Order(n, Start) !in Orders(draft.actions)
      ensures s == Done && draft.before[n].None? ==> Order(n, Create) in Orders(draft.actions)
      ensures NoMoreTaken()
      ensures smooth && !old(Taken(n)) ==> Ran(s)
    {
      hide Readable, Tracked, SteadyWith, Landed, Later, Effective, PhaseHolds, InDoubt, Replay, Orders, StartsListed,
          Spared;
      UnusedIsOriginal(draft, n);
      SteadyShows(View(), draft, base, n);
      s := Preflight(n);
      if s != Done { return; }
      ghost var now := reservations;
      s := Provide(n);
      if s != Done { return; }
      s := Check();
    }

    /** One pass of the loop over `pending`. */
    method StartOne(n: Name) returns (s: Signal)
      requires Quiet() && receipt == Some(draft) && draft.phase == Prepared
      requires n in draft.before && draft.before[n] != Some(Running) && n !in attempted
      requires forall o <- Orders(draft.actions) :: o.name != n
      requires Accounted()
      modifies this
      ensures Steady() && Accounted() && SameIntent()
      ensures s == Done ==> Quiet() && receipt == Some(draft) && attempted == old(attempted) + [n]
      ensures s == Done ==> Orders(draft.actions) == Orders(old(draft.actions)) + StartPlan(n, draft.before[n])
      ensures NoMoreTaken()
      ensures smooth && !old(Taken(n)) ==> Ran(s)
    {
      hide Readable, Tracked, SteadyWith, Landed, Later, Effective, PhaseHolds, InDoubt, Replay, Orders, StartsListed,
          Spared, StartPlan, Init, Final, Sound;
      s := MakeReady(n);
      if s != Done { return; }
      ListingMore(draft, attempted, reservations, n);
      attempted := attempted + [n];
      PlanEnds(n, draft.before[n]);
      s := Launch(n);
      if s != Done { return; }
      s := Check();
    }

    /** The loop over `pending`. */
    method Bring(pending: seq<Name>) returns (s: Signal)
      requires Quiet() && receipt == Some(draft) && draft.phase == Prepared
      requires draft.actions == [] && attempted == []
      requires Distinct(pending) && forall n <- pending :: n in draft.before && draft.before[n] != Some(Running)
      modifies this
      ensures Steady() && Accounted() && SameIntent()
      ensures s == Done ==> Quiet() && Orders(draft.actions) == StartPlans(pending, draft.before)
      ensures NoMoreTaken()
      ensures smooth && old(Free(pending)) ==> Ran(s)
    {
      hide Readable, Tracked, SteadyWith, Landed, InDoubt, Later, Effective, PhaseHolds, Replay, StartPlans;
      NoPlans(draft.before);
      s := Done;
      var i := 0;
      while i < |pending|
        invariant 0 <= i <= |pending|
        invariant Quiet() && Accounted() && SameIntent() && receipt == Some(draft) && draft.phase == Prepared
        invariant attempted == pending[..i]
        invariant Orders(draft.actions) == StartPlans(pending[..i], draft.before)
        invariant s == Done
        invariant smooth && old(Free(pending)) ==> faults == old(faults) && struck == old(struck)
        invariant NoMoreTaken()
      {
        NextPlan(pending, draft.before, i);
        OneIsFree(old(reservations), reservations, draft.operation, draft.revision, pending, i);
        s := StartOne(pending[i]);
        if s != Done { return; }
        i := i + 1;
      }
      assert pending[..i] == pending;
    }

    /** Stopping an instance that runs, and seeing it stopped. */
    method Halt(n: Name) returns (s: Signal)
      requires Quiet() && n in draft.before && draft.before[n] != Some(Running) && Final(draft)[n] == Live
      requires Reserved(View(), draft, n) && Order(n, Stop) !in Orders(draft.actions)
      modifies this`receipt, this`containers, this`inflight, this`sent, this`draft, this`faults, this`struck
      ensures Steady() && SameIntent()
      ensures s == Done ==> Quiet() && Final(draft)[n] == Idle
      ensures s == Done ==> Orders(draft.actions) == Orders(old(draft.actions)) + [Order(n, Stop)]
      ensures Ran(s)
    {
      hide Readable, Tracked, SteadyWith, Landed, InDoubt, Later, Effective, PhaseHolds, Replay, Sound, Spared;
      ReplayAppend(Origin(draft.before), Orders(draft.actions), Order(n, Stop));
      s := Mutate(Order(n, Stop));
      if s != Done { return; }
      if smooth {
        SteadyShows(View(), draft, base, n);
        LandedIsQuiet(View(), draft);
      }
      var rows;
      s, rows := Observe();
      if s != Done { return; }
      if n !in rows || rows[n].state == Running { s := Raised; return; }
      s := Confirm();
    }

    /** Stopping one own start, if it runs. */
    method StopOne(n: Name) returns (s: Signal)
      requires Quiet() && n in draft.before && draft.before[n] != Some(Running)
      requires Reserved(View(), draft, n) && Order(n, Stop) !in Orders(draft.actions)
      modifies this`receipt, this`containers, this`inflight, this`sent, this`draft, this`faults, this`struck
      ensures Steady() && SameIntent()
      ensures s == Done ==> Quiet() && Final(draft)[n] != Live
      ensures s == Done ==> if old(Final(draft)[n]) == Live
                            then Orders(draft.actions) == Orders(old(draft.actions)) + [Order(n, Stop)]
                            else draft == old(draft)
      ensures smooth && old(Final(draft)[n]) != Missing ==> Ran(s)
    {
      hide Readable, Tracked, SteadyWith, Landed, InDoubt, Later, Effective, PhaseHolds, Replay, Sound, Spared, Orders;
      SteadyShows(View(), draft, base, n);
      var rows;
      s, rows := Observe();
      if s != Done { return; }
      if n !in rows { s := Raised; return; }
      if draft.before[n].None? && rows[n].owner != Some(draft.operation) { s := Raised; return; }
      if rows[n].state == Running {
        s := Halt(n);
      }
    }

    /** The rollback proper: stop own starts in reverse order, provided nothing is in doubt. */
    method Undo(complete: bool) returns (s: Signal)
      requires Steady() && (complete || Accounted()) && draft.phase == Uncertain
      modifies this`receipt, this`containers, this`inflight, this`sent, this`draft, this`faults, this`struck
      ensures Steady() && SameIntent()
      ensures s == Done ==> Quiet() && !complete && PhaseHolds(draft.(phase := RolledBack))
      ensures complete || (exists a <- old(draft.actions) :: a.progress != Observed) ==>
                && s == Raised && View() == old(View()) && draft == old(draft)
                && faults == old(faults) && struck == old(struck)
      ensures smooth && !complete && (forall a <- old(draft.actions) :: a.progress == Observed) ==> Ran(s)
    {
      hide Readable, Tracked, Landed, SteadyWith, InDoubt, Later, Effective, PhaseHolds, Replay, Sound, StartsListed,
          Undoing, Orders, Final, Spared;
      if complete || exists a <- draft.actions :: a.progress != Observed {
        s := Raised;
        return;
      }
      SteadyAndObservedIsLanded(View(), draft, base);
      UndoingStarts(draft, attempted, reservations);
      ListedIsDistinct(draft, attempted, reservations);
      var i := |attempted|;
      s := Done;
      while i > 0
        invariant 0 <= i <= |attempted| && s == Done
        invariant Quiet() && SameIntent() && draft.phase == Uncertain
        invariant Undoing(draft, attempted, i)
        invariant smooth ==> faults == old(faults) && struck == old(struck)
      {
        var n := attempted[i - 1];
        ghost var prior := draft;
        UndoingNext(draft, attempted, i);
        ListedIsReserved(old(draft), attempted, reservations, n);
        s := StopOne(n);
        if s != Done { return; }
        UndoingMore(prior, draft, attempted, i);
        i := i - 1;
      }
      UndoneMeans(draft, attempted);
      s := Check();
    }

    method SettleOne(n: Name) returns (s: Signal)
      requires Steady() && receipt == Some(draft) && !Fenced(draft.phase) && inflight == []
      modifies this`reservations, this`containers, this`inflight, this`faults, this`struck
      ensures Steady() && View() == old(View()).(reservations := reservations)
      ensures SettledOnly(draft, old(reservations), reservations)
      ensures s == Done ==> n in reservations ==> reservations[n].settled
      ensures NoMoreTaken()
      ensures (smooth && !old(Taken(n)) ==> Ran(s)) && (smooth ==> s != Died)
    {
      hide SteadyWith, Readable, Tracked, Landed, InDoubt, Later, Effective, PhaseHolds, Replay;
      s := Check();
      if n !in reservations || reservations[n].settled { return; }
      if !Reserved(View(), draft, n) {
        s := if s == Died then Died else Raised;
        return;
      }
      var replaced: bool := *;
      if s == Done || replaced {
        var settled := reservations[n := reservations[n].(settled := true)];
        SettlingKeepsSteady(View(), draft, base, settled);
        assert View().(reservations := settled) == World(receipt, settled, containers, inflight, sent);
        reservations := settled;
      }
    }

    /** `finish_reservations`: the prepared reservations of this operation become settled ones. */
    method SettleReservations(names: seq<Name>) returns (s: Signal)
      requires Steady() && receipt == Some(draft) && !Fenced(draft.phase)
      modifies this`reservations, this`containers, this`inflight, this`faults, this`struck
      ensures Steady() && View() == old(View()).(reservations := reservations)
      ensures SettledOnly(draft, old(reservations), reservations)
      ensures s == Done ==> forall n <- names :: n in reservations ==> reservations[n].settled
      ensures (smooth && old(Free(names)) ==> Ran(s)) && (smooth ==> s != Died)
    {
      hide SteadyWith, Readable, Tracked, Landed, InDoubt, Later, Effective, PhaseHolds, Replay, SettledOnly;
      UnfencedIsAtRest(View(), draft, base);
      SettledOnlyNothing(draft, reservations);
      s := Done;
      var i := 0;
      while i < |names|
        invariant 0 <= i <= |names| && s == Done && inflight == []
        invariant Steady() && View() == old(View()).(reservations := reservations)
        invariant SettledOnly(draft, old(reservations), reservations)
        invariant smooth && old(Free(names)) ==> faults == old(faults) && struck == old(struck)
        invariant NoMoreTaken()
        invariant forall n <- names[..i] :: n in reservations ==> reservations[n].settled
      {
        ghost var now := reservations;
        OneIsFree(old(reservations), reservations, draft.operation, draft.revision, names, i);
        s := SettleOne(names[i]);
        SettledOnlyMore(draft, old(reservations), now, reservations);
        SettledOnlyKeys(draft, now, reservations);
        if s != Done { return; }
        i := i + 1;
      }
    }

    /** The receipt of a rollback is saved, and its reservations are settled if it came through. */
    method Conclude(instances: seq<Name>) returns (result: Result)
      requires Steady() && draft.phase in {RolledBack, Uncertain}
      modifies this`receipt, this`reservations, this`containers, this`inflight, this`faults, this`struck
      ensures Steady() && result in {RolledBackError, UncertainError, ProcessDied}
      ensures smooth && old(faults) == 0 && old(Free(instances)) ==>
                && result == (if draft.phase == RolledBack then RolledBackError else UncertainError)
                && receipt == Some(draft) && faults == 0 && struck == old(struck)
      ensures result == RolledBackError ==>
                receipt == Some(draft) && draft.phase == RolledBack
                && forall n <- instances :: n in reservations ==> reservations[n].settled
    {
      hide FreeIn, Readable, Tracked, Landed, SteadyWith, Sound, InDoubt, Later, Effective, Replay, SettledOnly;
      var s := Publish();
      if s == Died { return ProcessDied; }
      if s == Done && draft.phase == RolledBack {
        s := SettleReservations(instances);
        if s == Died { return ProcessDied; }
      }
      return if s == Done && draft.phase == RolledBack then RolledBackError else UncertainError;
    }

    /** The outcome is uncertain from here on, unless a rollback comes through. */
    method Fence(failure: Failure)
      requires Steady() && draft.phase != Reconciled
      modifies this`draft
      ensures Steady() && draft == old(draft).(phase := Uncertain, failure := Some(failure))
    {
      hide SteadyWith;
      FencingKeepsSteady(View(), draft, base, Some(failure));
      draft := draft.(phase := Uncertain, failure := Some(failure));
    }

    /** What `reconcile` does after anything raised. */
    method Recover(complete: bool, instances: seq<Name>) returns (result: Result)
      requires Steady() && (complete || Accounted()) && draft.phase in {Prepared, Completed}
      modifies this
      ensures Steady() && base == old(base) && smooth == old(smooth) && acting == old(acting)
      ensures smooth && old(faults) == 0 && old(Free(instances)) ==>
                && result == (if !complete && forall a <- old(draft.actions) :: a.progress == Observed
                              then RolledBackError else UncertainError)
                && receipt == Some(draft) && faults == 0 && struck == old(struck)
      ensures draft == old(draft).(actions := draft.actions, phase := draft.phase, failure := draft.failure)
      ensures result in {RolledBackError, UncertainError, ProcessDied}
      ensures result != ProcessDied ==> draft.phase == RolledBack || draft.failure == Some(RecoveryIncomplete)
      ensures draft.phase in {RolledBack, Uncertain} && (draft.phase == RolledBack ==> !complete)
      ensures result == RolledBackError ==>
                receipt == Some(draft) && draft.phase == RolledBack && draft.failure == Some(OperationFailed)
                    && !complete
                && forall n <- instances :: n in reservations ==> reservations[n].settled
    {
      hide FreeIn, PhaseHolds, Orders, Final, Spared, Fenced, Open, Readable, Tracked, Landed, SteadyWith, Sound,
          InDoubt, Later, Effective, Replay;
      Fence(OperationFailed);
      var s := Undo(complete);
      if s == Died { return ProcessDied; }
      if s == Done {
        ClosingKeepsSteady(View(), draft, base, RolledBack);
        draft := draft.(phase := RolledBack);
      } else {
        Fence(RecoveryIncomplete);
      }
      result := Conclude(instances);
    }

    /** An earlier outcome is unknown: its receipt is unresolved, or an instance is still reserved. */
    predicate FencedFor(instances: seq<Name>)
      reads this
    {
      || (exists n <- instances :: n in reservations && !reservations[n].settled)
      || (receipt.Some? && Fenced(receipt.value.phase))
    }

    predicate AllLive(instances: seq<Name>)
      reads this
    {
      forall n <- instances :: LevelIn(containers, n) == Live
    }

    /** The new receipt of `reconcile`, for the containers just listed. */
    method Begin(instances: seq<Name>, revision: string, operation: Token, probe: Name -> Health)
      requires Sound(View()) && inflight == [] && |instances| <= MAX_INSTANCES
      requires Sent(View(), operation) == []
      modifies this`draft, this`attempted, this`base, this`acting
      ensures acting
      ensures Quiet() && draft.phase == Prepared && draft.actions == [] && attempted == []
      ensures draft.operation == operation && draft.revision == revision && base == containers
      ensures forall n :: n in draft.before <==> n in instances
      ensures forall n <- draft.before :: draft.before[n] == Seen(containers, n)
      ensures forall n :: n in draft.baseline <==> n in instances && LevelIn(containers, n) == Live
      ensures forall n <- draft.baseline :: draft.baseline[n] == probe(n)
    {
      var before := map n | n in instances :: Seen(containers, n);
      hide SteadyWith, Landed, Sound, Later, FencedFor;
      BeforeIsSmall(instances, before);
      draft := Receipt(revision, operation, Prepared, before, map n | n in RunningIn(before) :: probe(n), [], None,
          None);
      attempted := [];
      base := containers;
      acting := true;
      OpeningIsSteady(View(), draft);
    }

    /** The completed receipt and the reservations it settles. */
    method Finish(instances: seq<Name>, pending: seq<Name>) returns (result: Result)
      requires Steady() && draft.phase == Prepared && SteadyWith(View(), draft.(phase := Completed), base)
      modifies this
      ensures Steady() && base == old(base) && smooth == old(smooth) && acting == old(acting)
      ensures smooth && acting && old(faults) <= 1 && old(Free(instances)) ==>
                if faults == old(faults) then struck == old(struck) && result == Applied(pending)
                else && struck.Acting? && struck.receipt == old(draft).(phase := Completed)
                     && result == UncertainError && receipt == Some(draft)
      ensures draft == old(draft).(actions := draft.actions, phase := draft.phase, failure := draft.failure)
      ensures result in {Applied(pending), RolledBackError, UncertainError, ProcessDied} && result != RolledBackError
      ensures result == Applied(pending) ==>
                && receipt == Some(draft) && draft == old(draft).(phase := Completed)
                && forall n <- instances :: n in reservations ==> reservations[n].settled
    {
      hide FreeIn, Readable, Tracked, Landed, SteadyWith, Sound, InDoubt, Later, Effective, Replay, StartPlans;
      draft := draft.(phase := Completed);
      var s := Publish();
      if s == Done {
        s := SettleReservations(instances);
      }
      if s == Died { return ProcessDied; }
      if s == Raised {
        StillFree(old(reservations), reservations, draft.operation, draft.revision, instances);
        result := Recover(true, instances);
        return;
      }
      return Applied(pending);
    }

    /** Everything `reconcile` does once it has decided to act. */
    method Act(instances: seq<Name>, pending: seq<Name>) returns (result: Result)
      requires Quiet() && draft.phase == Prepared && draft.actions == [] && attempted == []
      requires forall n :: n in draft.before <==> n in instances
      requires Distinct(pending) && forall n :: n in pending <==> n in draft.before && draft.before[n] != Some(Running)
      modifies this
      ensures Steady() && base == old(base) && smooth == old(smooth) && acting == old(acting)
      ensures smooth && acting && old(faults) <= 1 && old(Free(instances)) ==>
                if faults == old(faults) then struck == old(struck) && result == Applied(pending)
                else && struck.Acting? && struck.receipt.operation == old(draft).operation && receipt == Some(draft)
                     && result == if && struck.receipt.phase == Prepared
                                     && forall a <- struck.receipt.actions :: a.progress == Observed
                                  then RolledBackError else UncertainError
      ensures draft == old(draft).(actions := draft.actions, phase := draft.phase, failure := draft.failure)
      ensures result in {Applied(pending), RolledBackError, UncertainError, ProcessDied}
      ensures result == RolledBackError || result == Applied(pending) ==>
                && receipt == Some(draft)
                && draft.phase == (if result == RolledBackError then RolledBack else Completed)
                && forall n <- instances :: n in reservations ==> reservations[n].settled
      ensures result == Applied(pending) ==> Orders(draft.actions) == StartPlans(pending, draft.before)
    {
      hide FreeIn, Readable, Tracked, Landed, SteadyWith, Sound, InDoubt, Later, Effective, Replay, StartPlans;
      var s := Publish();
      if s == Done {
        PartIsFree(reservations, draft.operation, draft.revision, instances, pending);
        s := Bring(pending);
      }
      if s == Died { return ProcessDied; }
      if s == Raised {
        StillFree(old(reservations), reservations, draft.operation, draft.revision, instances);
        result := Recover(false, instances);
        return;
      }
      StillFree(old(reservations), reservations, draft.operation, draft.revision, instances);
      PlansComplete(draft, pending);
      ClosingKeepsSteady(View(), draft, base, Completed);
      result := Finish(instances, pending);
    }

    /** The instances that a listing does not show running. */
    method FindPending(instances: seq<Name>) returns (s: Signal, pending: seq<Name>)
      requires Sound(View()) && Distinct(instances)
      modifies this`containers, this`inflight, this`faults, this`struck
      ensures Sound(View()) && Waited() && (old(inflight) == [] ==> View() == old(View()))
      ensures Ran(s) && (smooth ==> inflight == [])
      ensures Distinct(pending) && forall n :: n in pending <==> n in instances && LevelIn(containers, n) != Live
      ensures pending == [] <==> AllLive(instances)
    {
      hide Sound, Later;
      var rows;
      s, rows := Observe();
      var before := map n | n in instances :: Seen(rows, n);
      pending := Pending(instances, before);
      if pending != [] {
        assert pending[0] in instances && LevelIn(containers, pending[0]) != Live;
      } else {
        forall n <- instances ensures LevelIn(containers, n) == Live {
          assert n !in pending;
        }
      }
    }

    /** What is in flight is behind an unresolved receipt. */
    lemma FenceOnDisk()
      requires Sound(View())
      ensures inflight != [] ==> receipt.Some? && Fenced(receipt.value.phase)
    {
      if inflight != [] { InFlightIsFenced(View()); }
    }

    /** The checks of `reconcile` before it decides to act; it writes and sends nothing. */
    method Survey(instances: seq<Name>, apply: bool) returns (early: Option<Result>, pending: seq<Name>)
      requires Sound(View()) && Distinct(instances)
      modifies this`containers, this`inflight, this`faults, this`struck
      ensures Sound(View()) && Waited()
      ensures early.Some? ==> early.value.Passive()
      ensures smooth && faults == old(faults) ==> struck == old(struck)
      ensures smooth && faults == old(faults) && apply && old(FencedFor(instances)) ==> early == Some(FencedByIntent)
      ensures smooth && faults == old(faults) && !(apply && old(FencedFor(instances))) ==>
                if apply && !AllLive(instances) then early.None?
                else && early.Some? && early.value.NothingToDo?
                     && forall n :: n in early.value.wouldStart <==> n in instances && LevelIn(containers, n) != Live
      ensures smooth && faults != old(faults) ==> early == Some(Refused) && faults + 1 == old(faults) && struck == Now()
      ensures early.None? ==> apply && !FencedFor(instances) && inflight == [] && old(inflight) == []
      ensures early.None? ==>
                Distinct(pending) && forall n :: n in pending <==> n in instances && LevelIn(containers, n) != Live
    {
      hide Readable, Tracked, Landed, InDoubt, Effective, Replay, PhaseHolds, Later, Distinct, LevelIn, Sound;
      pending := [];
      FenceOnDisk();
      var s := Check();
      if s != Done { return Some(if s == Died then ProcessDied else Refused), []; }
      if apply && FencedFor(instances) { return Some(FencedByIntent), []; }
      ghost var w1 := View();
      s, pending := FindPending(instances);
      LaterIsTransitive(old(View()), w1, View());
      if s != Done { return Some(if s == Died then ProcessDied else Refused), []; }
      ghost var w2 := View();
      s := Check();
      LaterIsTransitive(old(View()), w2, View());
      if s != Done { return Some(if s == Died then ProcessDied else Refused), []; }
      if !apply || pending == [] { return Some(NothingToDo(pending)), []; }
      early := None;
    }

    /** What `reconcile` promises once it acts on an unfenced host. */
    method Proceed(instances: seq<Name>, pending: seq<Name>, revision: string, operation: Token, probe: Name -> Health)
      returns (result: Result)
      requires Sound(View()) && inflight == [] && |instances| <= MAX_INSTANCES && Sent(View(), operation) == []
      requires Distinct(pending) && forall n :: n in pending <==> n in instances && LevelIn(containers, n) != Live
      modifies this
      ensures Sound(View()) && smooth == old(smooth)
      ensures smooth && old(faults) <= 1 && !old(FencedFor(instances)) ==>
                if faults == old(faults) then struck == old(struck) && result == Applied(pending)
                else && struck.Acting? && struck.receipt.operation == operation
                     && receipt.Some? && receipt.value.operation == operation
                     && result == if && struck.receipt.phase == Prepared
                                     && forall a <- struck.receipt.actions :: a.progress == Observed
                                  then RolledBackError else UncertainError
      ensures forall n :: n !in instances || old(LevelIn(containers, n)) == Live ==>
          SameAt(old(containers), containers, n)
      ensures forall n <- old(containers) :: n in containers
      ensures result in {Applied(pending), RolledBackError, UncertainError, ProcessDied}
      ensures result.Applied? ==>
                && receipt.Some? && receipt.value.phase == Completed && receipt.value.operation == operation
                && receipt.value.revision == revision && (forall n :: n in receipt.value.before <==> n in instances)
                && (forall n <- instances :: receipt.value.before[n] == Seen(old(containers), n))
                && (forall n :: n in receipt.value.baseline <==> n in instances && old(LevelIn(containers, n)) == Live)
                && (forall n <- receipt.value.baseline :: receipt.value.baseline[n] == probe(n))
                && Orders(receipt.value.actions) == StartPlans(pending, receipt.value.before)
                && Sent(View(), operation) == Orders(receipt.value.actions)
                && (forall n <- instances :: LevelIn(containers, n) == Live)
                && !FencedFor(instances)
      ensures result.RolledBackError? ==>
                && receipt.Some? && receipt.value.phase == RolledBack && receipt.value.operation == operation
                && receipt.value.revision == revision && (forall n :: n in receipt.value.before <==> n in instances)
                && (forall n <- instances :: receipt.value.before[n] == Seen(old(containers), n))
                && (forall n :: n in receipt.value.baseline <==> n in instances && old(LevelIn(containers, n)) == Live)
                && (forall n <- receipt.value.baseline :: receipt.value.baseline[n] == probe(n))
                && (forall n <- instances :: LevelIn(containers, n) == Live <==> old(LevelIn(containers, n)) == Live)
                && !FencedFor(instances)
    {
      hide Readable, Tracked, Landed, Sound, InDoubt, Later, Effective, Replay, StartPlans, Orders, PhaseHolds,
          SteadyWith;
      Begin(instances, revision, operation, probe);
      result := Act(instances, pending);
      SteadySpares(View(), draft, base);
      SteadyIsSound(View(), draft, base);
      if result.Applied? { CompletedMeans(View(), draft); }
      if result.RolledBackError? { RolledBackMeans(View(), draft); }
    }

    /** `reconcile`, with the operation token fresh. */
    method Reconcile(instances: seq<Name>, revision: string, operation: Token, probe: Name -> Health, apply: bool)
      returns (result: Result)
      requires Sound(View())
      requires Distinct(instances) && |instances| <= MAX_INSTANCES && Sent(View(), operation) == []
      modifies this
      ensures Sound(View()) && smooth == old(smooth)
      // If nothing raises, an apply is refused for an unresolved intent, has nothing to do, or brings all up.
      ensures smooth && old(faults) <= 1 && faults == old(faults) ==>
                if apply && old(FencedFor(instances)) then result == FencedByIntent
                else if apply && !old(AllLive(instances)) then result.Applied?
                else && result.NothingToDo?
                     && forall n :: n in result.wouldStart <==> n in instances && LevelIn(containers, n) != Live
      // If one step raises and nothing else does, an operation is rolled back exactly if it was not complete and
      // all it had ordered was observed; and uncertain otherwise.
      ensures smooth && old(faults) <= 1 && faults == old(faults) ==> struck == Never
      ensures smooth && old(faults) == 1 && faults == 0 ==>
                match struck
                case Never => false
                case Early => && result == Refused && receipt == old(receipt) && reservations == old(reservations)
                              && sent == old(sent) && (old(inflight) == [] ==> View() == old(View()))
                case Acting(r) =>
                  && r.operation == operation && receipt.Some? && receipt.value.operation == operation
                  && result == if r.phase == Prepared && forall a <- r.actions :: a.progress == Observed
                               then RolledBackError else UncertainError
      // What fences an apply: an unresolved receipt, or a start reservation of an instance that is not settled.
      ensures old(FencedFor(instances)) <==>
                || (old(receipt).Some? && old(receipt).value.phase in {Prepared, Uncertain})
                || (exists n <- instances :: n in old(reservations) && !old(reservations)[n].settled)
      ensures old(AllLive(instances)) <==>
                forall n <- instances :: n in old(containers) && old(containers)[n].state == Running
      // A preview, and an apply behind an unresolved intent, write nothing and send nothing.
      ensures !apply || old(FencedFor(instances)) || old(inflight) != [] ==>
                receipt == old(receipt) && reservations == old(reservations) && sent == old(sent) && result.Passive()
      ensures (!apply || old(FencedFor(instances))) && old(inflight) == [] ==> View() == old(View())
      // Instances that ran, and everything not selected, are untouched; nothing is ever removed.
      ensures old(inflight) == [] ==> forall n :: n !in instances || old(LevelIn(containers, n)) == Live
                                        ==> SameAt(old(containers), containers, n)
      ensures forall n <- old(containers) :: n in containers
      // Success and rollback mean what they say.
      ensures result.Applied? ==>
                && receipt.Some? && receipt.value.phase == Completed && receipt.value.operation == operation
                && (forall n :: n in result.started <==> n in instances && old(LevelIn(containers, n)) != Live)
                && receipt.value.revision == revision && (forall n :: n in receipt.value.before <==> n in instances)
                && (forall n <- instances :: receipt.value.before[n] == Seen(old(containers), n))
                && (forall n :: n in receipt.value.baseline <==> n in instances && old(LevelIn(containers, n)) == Live)
                && (forall n <- receipt.value.baseline :: receipt.value.baseline[n] == probe(n))
                && Orders(receipt.value.actions) == StartPlans(result.started, receipt.value.before)
                && Sent(View(), operation) == Orders(receipt.value.actions)
                && (forall n <- instances :: LevelIn(containers, n) == Live)
                && !FencedFor(instances)
      ensures result.RolledBackError? ==>
                && receipt.Some? && receipt.value.phase == RolledBack && receipt.value.operation == operation
                && receipt.value.revision == revision && (forall n :: n in receipt.value.before <==> n in instances)
                && (forall n <- instances :: receipt.value.before[n] == Seen(old(containers), n))
                && (forall n :: n in receipt.value.baseline <==> n in instances && old(LevelIn(containers, n)) == Live)
                && (forall n <- receipt.value.baseline :: receipt.value.baseline[n] == probe(n))
                && (forall n <- instances :: LevelIn(containers, n) == Live <==> old(LevelIn(containers, n)) == Live)
                && !FencedFor(instances)
    {
      hide Readable, Tracked, Landed, Sound, InDoubt, Effective, Replay, StartPlans, Orders, PhaseHolds;
      FenceOnDisk();
      acting, struck := false, Never;
      var early, pending := Survey(instances, apply);
      if early.Some? { return early.value; }
      result := Proceed(instances, pending, revision, operation, probe);
    }

    /** One pass of the loop of `_settle`. */
    method ReadRow(r: Receipt, n: Name, rows: map<Name, Container>, probe: Name -> Health) returns (s: Signal)
      requires Sound(View()) && n in r.before
      modifies this`containers, this`inflight, this`faults, this`struck
      ensures Sound(View()) && Waited() && (old(inflight) == [] ==> View() == old(View()))
      ensures s == Done ==> RowPasses(r, rows, n, probe)
      ensures smooth && RowPasses(r, rows, n, probe) ==> Ran(s)
      ensures smooth ==> s != Died && faults <= old(faults)
    {
      hide Sound, Later;
      s := Check();
      if s == Done && !RowPasses(r, rows, n, probe) {
        s := Raised;
      }
    }

    /** The loop of `_settle` over the selected instances, against one listing. */
    method ReadBack(r: Receipt, instances: seq<Name>, rows: map<Name, Container>, probe: Name -> Health)
      returns (s: Signal, seen: map<Name, Option<RunState>>, ready: map<Name, Health>)
      requires Sound(View())
      requires forall n <- instances :: n in r.before
      modifies this`containers, this`inflight, this`faults, this`struck
      ensures Sound(View()) && Waited() && (old(inflight) == [] ==> View() == old(View()))
      ensures s == Done ==>
                && seen.Keys == (set n | n in instances) && ready.Keys == RunningIn(seen)
                && (forall n <- ready :: ready[n] == probe(n))
                && forall n <- instances :: RowPasses(r, rows, n, probe) && seen[n] == Seen(rows, n)
      ensures smooth && (forall n <- instances :: RowPasses(r, rows, n, probe)) ==> Ran(s)
      ensures smooth ==> s != Died && faults <= old(faults)
    {
      hide Sound, Later, RowPasses, Tracked, Landed;
      seen, ready, s := map[], map[], Done;
      LaterIsReflexive(View());
      var i := 0;
      while i < |instances|
        invariant 0 <= i <= |instances| && s == Done
        invariant Sound(View()) && Waited() && (old(inflight) == [] ==> View() == old(View()))
        invariant smooth ==> faults == old(faults) && struck == old(struck)
        invariant seen.Keys == (set n | n in instances[..i]) && ready.Keys == RunningIn(seen)
        invariant forall n <- ready :: ready[n] == probe(n)
        invariant forall n <- instances[..i] :: RowPasses(r, rows, n, probe) && seen[n] == Seen(rows, n)
      {
        var n := instances[i];
        ghost var w := View();
        s := ReadRow(r, n, rows, probe);
        LaterIsTransitive(old(View()), w, View());
        if s != Done { return; }
        if n in rows && rows[n].state == Running {
          ready := ready[n := probe(n)];
        }
        seen := seen[n := Seen(rows, n)];
        assert instances[..i + 1] == instances[..i] + [n];
        i := i + 1;
      }
      assert instances[..i] == instances;
    }

    /** Writing the settlement of a receipt that the listing confirmed. */
    method Retire(r: Receipt, instances: seq<Name>, seen: map<Name, Option<RunState>>, ready: map<Name, Health>)
      returns (s: Signal)
      requires Sound(View()) && receipt == Some(r) && Confirmable(r, containers)
      requires seen.Keys == r.before.Keys && ready.Keys == RunningIn(seen)
      requires forall n <- r.before :: seen[n] == Seen(containers, n)
      modifies this
      ensures Sound(View()) && inflight == [] && containers == old(containers) && sent == old(sent)
      ensures receipt in {old(receipt),
                          Some(r.(phase := Reconciled,
                              settlement := Some(Settlement(Classify(r.before, seen), seen, ready))))}
      ensures smooth == old(smooth)
      ensures smooth && old(FreeIn(reservations, r.operation, r.revision, instances)) ==> Ran(s)
      ensures smooth ==> s != Died
      ensures s == Done ==>
                && receipt != None && receipt.value.phase == Reconciled && receipt.value.settlement.Some?
                && receipt.value.settlement.value == Settlement(Classify(r.before, seen), seen, ready)
                && !FencedFor(instances)
    {
      hide Readable, Tracked, Landed, InDoubt, Effective, Replay, PhaseHolds, Later, Confirmable, Orders, SteadyWith,
          Sound;
      var settlement := Settlement(Classify(r.before, seen), seen, ready);
      ReconciledIsSteady(View(), r, settlement);
      draft := r.(phase := Reconciled, settlement := Some(settlement));
      base := containers;
      s := Publish();
      if s == Done {
        s := SettleReservations(instances);
      }
      SteadyIsSound(View(), draft, base);
    }

    /** Nothing is removed, and only what was in flight has changed. */
    ghost predicate Grown(w: World)
      reads this`containers
    {
      && (forall n <- w.containers :: n in containers)
      && (forall n :: AimedAt(w.inflight, n) || SameAt(w.containers, containers, n))
    }

    /** Everything `settle` looks at: the receipt, the reservations and one listing, which it changes nothing about. */
    method Confront(instances: seq<Name>, revision: string, probe: Name -> Health)
      returns (s: Signal, seen: map<Name, Option<RunState>>, ready: map<Name, Health>)
      requires Sound(View())
      modifies this`containers, this`inflight, this`faults, this`struck
      ensures Sound(View()) && Waited() && (old(inflight) == [] ==> View() == old(View()))
      ensures s == Done ==>
                && receipt.Some? && inflight == []
                && Passes(receipt.value, reservations, containers, instances, revision, probe)
                && seen.Keys == receipt.value.before.Keys == (set n | n in instances)
                && (forall n <- instances :: seen[n] == Seen(containers, n))
                && ready.Keys == RunningIn(seen) && (forall n <- ready :: ready[n] == probe(n))
      ensures (smooth ==> s != Died) && (smooth && old(faults) == 0 ==> faults == 0)
      ensures smooth && old(faults) == 0 && receipt.Some? ==>
                s.Done? == Passes(receipt.value, reservations, containers, instances, revision, probe)
    {
      hide Sound, RowPasses, FreeIn, Tracked, Later, Confirmable;
      seen, ready := map[], map[];
      var rows;
      s, rows := Observe();
      if s != Done { return; }
      if receipt.None? || receipt.value.revision != revision { s := Raised; return; }
      var r := receipt.value;
      if r.before.Keys != (set n | n in instances) { s := Raised; return; }
      if !FreeIn(reservations, r.operation, r.revision, instances) { s := Raised; return; }
      ghost var w := View();
      s, seen, ready := ReadBack(r, instances, rows, probe);
      LaterIsTransitive(old(View()), w, View());
      if s == Done {
        PassingConfirms(r, rows, instances, probe);
        SoundIsTracked(w, r);
        ConfirmedIsStill(w, View(), r);
      }
    }

    /** The steps of `settle`. */
    method TrySettle(instances: seq<Name>, revision: string, probe: Name -> Health) returns (result: SettleResult)
      requires Sound(View())
      modifies this
      ensures Sound(View()) && sent == old(sent) && smooth == old(smooth) && Grown(old(View()))
      ensures old(receipt) == None ==> result in {Kept, SettleDied}
      ensures smooth ==> result != SettleDied
      ensures smooth && old(faults) == 0 && old(receipt).Some? ==>
                result.Settled?
                == Passes(old(receipt).value, old(reservations), containers, instances, revision, probe)
      ensures receipt != old(receipt) ==>
                && old(receipt).Some? && receipt.Some? && receipt.value.phase == Reconciled && inflight == []
                && Confirmable(old(receipt).value, containers)
                && receipt.value == old(receipt).value.(phase := Reconciled, settlement := receipt.value.settlement)
      ensures result.Settled? ==>
                && old(receipt).Some? && receipt.Some? && receipt.value.settlement.Some?
                && receipt.value == old(receipt).value.(phase := Reconciled, settlement := receipt.value.settlement)
                && Tells(receipt.value.settlement.value, receipt.value.before, containers, instances, probe)
                && receipt.value.settlement.value.outcome == result.outcome
                && inflight == [] && !FencedFor(instances)
      ensures old(inflight) == [] && old(receipt).Some? && !old(Confirmable(receipt.value, containers)) ==>
                View() == old(View()) && !result.Settled?
    {
      hide Sound, Tracked, Later, Confirmable, Passes, Classify, FencedFor, FreeIn;
      var s := Check();
      LaterGrows(old(View()), View());
      if s != Done { return if s == Died then SettleDied else Kept; }
      ghost var w1 := View();
      var seen, ready;
      s, seen, ready := Confront(instances, revision, probe);
      LaterIsTransitive(old(View()), w1, View());
      LaterGrows(old(View()), View());
      if s != Done { return if s == Died then SettleDied else Kept; }
      var r := receipt.value;
      PassesConfirms(r, reservations, containers, instances, revision, probe);
      s := Check();
      if s != Done { return if s == Died then SettleDied else Kept; }
      s := Retire(r, instances, seen, ready);
      if s != Done { return if s == Died then SettleDied else Kept; }
      return Settled(Classify(r.before, seen));
    }

    /** `settle`: only positive evidence retires a receipt, and no command is sent. */
    method Settle(instances: seq<Name>, revision: string, probe: Name -> Health) returns (result: SettleResult)
      requires Sound(View())
      modifies this
      ensures Sound(View()) && sent == old(sent) && smooth == old(smooth)
      // If nothing goes wrong, it is settled exactly when the receipt is the right one and the listing passes.
      ensures smooth ==> result != SettleDied
      ensures smooth && old(faults) == 0 && old(receipt) == None ==> result == Kept
      ensures smooth && old(faults) == 0 && old(receipt).Some? ==>
                var r := old(receipt).value;
                result.Settled? <==>
                  && r.revision == revision && (forall n :: n in r.before <==> n in instances)
                  && (forall n <- instances :: n in old(reservations) && !old(reservations)[n].settled ==>
                        old(reservations)[n] == Reservation(r.operation, r.revision, false))
                  && Confirmable(r, containers)
                  && (forall n <- instances :: LevelIn(containers, n) == Live && n in r.baseline ==>
                        r.baseline[n] == Connected ==> probe(n) == Connected)
      ensures forall n <- old(containers) :: n in containers
      ensures forall n :: AimedAt(old(inflight), n) || SameAt(old(containers), containers, n)
      ensures result.Settled? ==> old(receipt).Some? && forall n <- instances :: n in old(receipt).value.before
      ensures receipt != old(receipt) ==>
                && old(receipt).Some? && receipt.Some? && receipt.value.phase == Reconciled && inflight == []
                && Confirmable(old(receipt).value, containers)
                && receipt.value == old(receipt).value.(phase := Reconciled, settlement := receipt.value.settlement)
      ensures result.Settled? ==>
                && receipt.Some? && receipt.value.phase == Reconciled && receipt.value.settlement.Some?
                && receipt.value.settlement.value.outcome == result.outcome
                && inflight == [] && !FencedFor(instances)
                && (forall n :: n in instances <==> n in receipt.value.before)
                && (forall n <- instances :: n in receipt.value.settlement.value.states
                                             && receipt.value.settlement.value.states[n] == Seen(containers, n))
                && (forall n <- instances :: LevelIn(containers, n) == Live ==>
                      && n in receipt.value.settlement.value.readiness
                      && receipt.value.settlement.value.readiness[n] == probe(n))
      // The outcome says which of the instances run, and whether they did before.
      ensures result.Settled? ==>
                && (result.outcome == AllRunning <==> forall n <- instances :: LevelIn(containers, n) == Live)
                && (result.outcome == NoNewRunning <==>
                      && (exists n <- instances :: LevelIn(containers, n) != Live)
                      && (forall n <- instances :: LevelIn(containers, n) == Live ==>
                            old(receipt).value.before[n] == Some(Running)))
                && (result.outcome == PartialRuntimeState <==>
                      && (exists n <- instances :: LevelIn(containers, n) != Live)
                      && (exists n <- instances :: LevelIn(containers, n) == Live
                                                   && old(receipt).value.before[n] != Some(Running)))
      ensures old(receipt) == None ==> !result.Settled?
      // A receipt that the containers at rest do not confirm stays.
      ensures old(inflight) == [] && old(receipt).Some? && !old(Confirmable(receipt.value, containers)) ==>
                View() == old(View()) && !result.Settled?
    {
      hide Sound, Passes, Tells, Confirmable, Classify;
      ghost var r, rs := receipt, reservations;
      result := TrySettle(instances, revision, probe);
      if r.Some? {
        PassesMeans(r.value, rs, containers, instances, revision, probe);
      }
      if result.Settled? {
        TellsStates(receipt.value.settlement.value, receipt.value.before, containers, instances, probe);
        TellsOutcome(receipt.value.settlement.value, receipt.value.before, containers, instances, probe);
      }
    }

    /** An unresolved receipt whose last order has not taken effect, with nothing in flight. */
    predicate Stranded()
      reads this
    {
      receipt.Some? && Stuck(View(), receipt.value)
    }

    /** Time passes with no operator running. */
    method PassTime()
      requires Sound(View())
      modifies this`containers, this`inflight
      ensures Sound(View()) && (old(inflight) == [] ==> View() == old(View()))
      ensures forall n <- old(containers) :: n in containers
    {
      Elapse();
    }

    method Serve(call: Call) returns (report: Report)
      requires Sound(View())
      modifies this
      ensures Sound(View()) && smooth == call.smooth && forall n <- old(containers) :: n in containers
      ensures old(Stranded()) ==> View() == old(View()) && Futile(report)
      ensures match call
              case CallWait(_, _) => report == Idled
              case CallSettle(_, _, _, smooth, _) => report.Settling? && (smooth ==> report.answer != SettleDied)
              case CallReconcile(instances, _, operation, _, _, _, _) =>
                if Distinct(instances) && |instances| <= 16 && old(Sent(View(), operation)) == []
                then report.Reconciling? else report == Idled
    {
      hide Readable, Tracked, Landed, InDoubt, Effective, Replay, PhaseHolds, Later, Orders, Confirmable, StartPlans;
      report := Idled;
      if Stranded() {
        StuckIsUnconfirmed(View(), receipt.value);
      }
      smooth, faults := call.smooth, call.faults;
      assert View() == old(View());
      match call {
        case CallWait(_, _) =>
          PassTime();
        case CallSettle(instances, revision, probe, _, _) =>
          var result := Settle(instances, revision, probe);
          report := Settling(result);
        case CallReconcile(instances, revision, operation, probe, apply, _, _) =>
          if Distinct(instances) && |instances| <= MAX_INSTANCES && Sent(View(), operation) == [] {
            var result := Reconcile(instances, revision, operation, probe, apply);
            report := Reconciling(result);
          }
      }
    }

    /**
    Any run: previews, applies, settlements and waiting, in any order, each with anything going wrong
    and the process dying anywhere.  A token already used for an operation is never drawn again.
    Once the last order was written down and can no longer take effect, no run gets anywhere.
    */
    method Run(calls: seq<Call>) returns (reports: seq<Report>)
      requires Sound(View())
      modifies this
      ensures Sound(View()) && |reports| == |calls|
      ensures forall n <- old(containers) :: n in containers
      ensures inflight != [] ==> receipt.Some? && Fenced(receipt.value.phase)
      ensures old(Stranded()) ==> View() == old(View()) && forall report <- reports :: Futile(report)
    {
      hide Readable, Tracked, Landed, InDoubt, Effective, Replay, PhaseHolds, Later, Orders, Confirmable, StartPlans;
      reports := [];
      var i := 0;
      while i < |calls|
        invariant 0 <= i <= |calls| && |reports| == i
        invariant Sound(View())
        invariant forall n <- old(containers) :: n in containers
        invariant old(Stranded()) ==> View() == old(View()) && forall report <- reports :: Futile(report)
      {
        var report := Serve(calls[i]);
        reports := reports + [report];
        i := i + 1;
      }
      if inflight != [] { InFlightIsFenced(View()); }
    }
  }
}
