/** The maintenance bridge and its host worker, working on the files in place. */
module MaintenanceWorker {
  import opened Options
  import opened Ordering
  import opened MaintenanceQueue
  import opened MaintenanceAnswers

  datatype SubmitResult = Queued | CatalogOverfull | PlanConflict | QueueFull | RequestConflict
  datatype WorkResult = Handled | NothingHandled(blocked: bool) | Failed | Died

  lemma StartedIs(s: Store, op: Operation)
    ensures WriteLedger(s, op, Started) == s.(ledger := s.ledger[op := Started])
  {
  }

  lemma PickStep(s: Store, ids: seq<RequestId>, i: nat)
    requires Ascending(ids) && (forall id <- ids :: id in s.requests) && i < |ids|
    ensures Pick(s, ids[i..]) == if Skipped(s, ids[i]) then Pick(s, ids[i + 1..])
                                 else if Answerable(s, ids[i]) then Chosen(ids[i]) else Broken(ids[i])
  {
    hide Skipped, Answerable;
    assert ids[i..][0] == ids[i] && ids[i..][1..] == ids[i + 1..];
  }

  lemma WorkIsAnswering(s: Store, effect: Effect, cut: nat)
    ensures !Next(s).Chosen? ==> Work(s, effect, cut) == s && |Trace(s, effect)| == 1
    ensures Next(s).Chosen? ==>
              var states := Answering(s, Next(s).at, effect);
              && |Trace(s, effect)| == |states| + 1 && states != []
              && Work(s, effect, cut) == if cut == 0 then s else if cut <= |states| then states[cut - 1]
                  else states[|states| - 1]
  {
    hide Next, Answering, Answerable, Unresolved;
    if Next(s).Chosen? {
      AnsweringTouches(s, Next(s).at, effect);
    }
  }

  class Maintenance {
    var plans: map<Operation, PlanFile>
    var catalog: map<Operation, Row>
    var ledger: map<Operation, State>
    var requests: map<RequestId, RequestFile>
    var receipts: map<RequestId, Receipt>
    var executions: seq<Execution>
    var admitted: map<Client, (RequestId, RequestFile)>

    function View(): Store
      reads this
    {
      Store(plans, catalog, ledger, requests, receipts, executions, admitted)
    }

    constructor ()
      ensures View() == EMPTY
    {
      plans, catalog, ledger, requests, receipts, executions, admitted := map[], map[], map[], map[], map[], [], map[];
    }

    /** One submission that is not interleaved with another: a request ID is bound to its content for good. */
    method Submit(operation: Operation, revision: Revision, id: RequestId,
        ghost client: Client) returns (r: SubmitResult)
      requires client !in admitted
      modifies this`requests
      ensures View() == Step(Step(old(View()), Admit(client, operation, revision, id)), Publish(client))
      ensures r == CatalogOverfull <==> |catalog| > 128
      ensures r == PlanConflict <==>
                |catalog| <= 128 && !(operation in catalog && catalog[operation].revision == revision)
      ensures |catalog| <= 128 && operation in catalog && catalog[operation].revision == revision ==>
                && (r == QueueFull <==> id !in old(requests) && |old(requests)| >= 128)
                && (r == RequestConflict <==> id in old(requests) && old(requests)[id] != Request(operation, revision))
      ensures requests == if r == Queued then old(requests)[id := Request(operation, revision)] else old(requests)
      ensures r == Queued && id in old(requests) ==> requests == old(requests)
    {
      assert admitted[client := (id, Request(operation, revision))] - {client} == admitted;
      if |catalog| > CAPACITY { return CatalogOverfull; }
      if operation !in catalog || catalog[operation].revision != revision { return PlanConflict; }
      if |requests| >= CAPACITY && id !in requests { return QueueFull; }
      if id in requests {
        return if requests[id] == Request(operation, revision) then Queued else RequestConflict;
      }
      requests := requests[id := Request(operation, revision)];
      r := Queued;
    }

    /** The operations whose outcome is not known. */
    method ScanLedger() returns (unresolved: set<Operation>)
      ensures unresolved == Unresolved(ledger)
    {
      unresolved := {};
      var rest := ledger.Keys;
      while rest != {}
        invariant rest <= ledger.Keys
        invariant unresolved == set op | op in ledger.Keys - rest && ledger[op] in {Started, Uncertain}
        decreases |rest|
      {
        var op :| op in rest;
        if ledger[op] in {Started, Uncertain} {
          unresolved := unresolved + {op};
        }
        rest := rest - {op};
      }
    }

    /** Whether the loop goes past a request without looking at its plan. */
    method PassesOver(id: RequestId, unresolved: set<Operation>) returns (passed: bool)
      requires id in requests && unresolved == Unresolved(ledger)
      ensures passed == Skipped(View(), id)
    {
      hide Unresolved;
      if id in receipts { return true; }
      if requests[id].Malformed? { return false; }
      passed := unresolved != {} && requests[id].operation !in unresolved;
    }

    /** The loop over the request files, up to the request it stops at. */
    method Scan(unresolved: set<Operation>) returns (c: Choice)
      requires unresolved == Unresolved(ledger)
      ensures c == Pick(View(), Sorted(requests.Keys))
    {
      hide Answerable, Unresolved, Sorted, Skipped, Pick;
      var ids := Sorted(requests.Keys);
      var i := 0;
      while i < |ids|
        invariant 0 <= i <= |ids|
        invariant Pick(View(), ids) == Pick(View(), ids[i..])
      {
        var id := ids[i];
        PickStep(View(), ids, i);
        var passed := PassesOver(id, unresolved);
        if !passed {
          return if Answerable(View(), id) then Chosen(id) else Broken(id);
        }
        i := i + 1;
      }
      c := Nothing;
    }

    method Close(id: RequestId, op: Operation, state: State, left: nat) returns (r: WorkResult)
      modifies this`ledger, this`receipts
      ensures var states := Closing(old(View()), id, op, state);
              |states| == 2 && View() == if left == 0 then old(View()) else states[if left == 1 then 0 else 1]
      ensures r == if left < 2 then Died else Handled
    {
      if left == 0 { return Died; }
      ledger := ledger[op := state];
      if left == 1 { return Died; }
      receipts := receipts[id := Receipt(op, state)];
      r := Handled;
    }

    /** One process if the effect has one, then the outcome. */
    method Execute(id: RequestId, op: Operation, effect: Effect, cut: nat) returns (r: WorkResult)
      modifies this`ledger, this`receipts, this`executions
      ensures var states := Executing(old(View()), id, op, effect);
              states != [] && View() == if cut == 0 then old(View()) else if cut <= |states| then states[cut - 1]
                  else states[|states| - 1]
      ensures r == if cut < |Executing(old(View()), id, op, effect)| then Died else Handled
    {
      var left := cut;
      if effect.Ran? || effect == Threw(true) {
        if left == 0 { return Died; }
        executions, left := executions + [Execution(op, None)], left - 1;
        if effect.Ran? {
          if left == 0 { return Died; }
          executions, left := executions[..|executions| - 1] + [Execution(op, Some(effect.outcome))], left - 1;
        }
      }
      hide Closing;
      r := Close(id, op, Resulting(effect), left);
    }

    /** The writes for one request: at most one runbook, between a `started` entry and its outcome. */
    method Answer(id: RequestId, effect: Effect, cut: nat) returns (r: WorkResult)
      requires id in requests && Answerable(View(), id)
      modifies this`ledger, this`receipts, this`executions
      ensures var states := Answering(old(View()), id, effect);
              View() == if cut == 0 then old(View()) else if cut <= |states| then states[cut - 1]
                  else states[|states| - 1]
      ensures r == if cut < |Answering(old(View()), id, effect)| then Died else Handled
    {
      hide Executing, Closing, WriteLedger;
      var op := requests[id].operation;
      if op in ledger {
        r := Close(id, op, if ledger[op] == Started then Uncertain else ledger[op], cut);
      } else if !Advertised(View(), op, plans[op].plan) {
        r := Close(id, op, Rejected, cut);
      } else if cut == 0 {
        r := Died;
      } else {
        StartedIs(View(), op);
        ledger := ledger[op := Started];
        r := Execute(id, op, effect, cut - 1);
      }
    }

    /** `work_once`, dying after `cut` durable steps if it has not returned by then. */
    method WorkOnce(effect: Effect, cut: nat) returns (r: WorkResult)
      modifies this`ledger, this`receipts, this`executions
      ensures View() == Work(old(View()), effect, cut)
      ensures r == Handled <==> Next(old(View())).Chosen? && cut >= |Trace(old(View()), effect)| - 1
      ensures r == Died <==> Next(old(View())).Chosen? && cut < |Trace(old(View()), effect)| - 1
      // In terms of the files: what is handled, what fails, and what is reported as blocked.
      ensures r in {Handled, Died} <==> exists id :: TakesUp(old(View()), id)
      ensures r == Failed <==>
                || |old(ledger)| > 128 || |old(requests)| > 128 || |old(catalog)| > 128
                || exists id :: StopsAt(old(View()), id) && !TakesUp(old(View()), id)
      ensures r.NothingHandled? ==> (r.blocked <==> exists op :: Unknown(old(View()), op))
    {
      NothingMeans(View());
      hide Answering, Sorted, Answerable, Unresolved, Pick, Work, Trace, TakesUp, StopsAt, Unknown;
      WorkIsAnswering(View(), effect, cut);
      if |catalog| > CAPACITY || |ledger| > CAPACITY { return Failed; }
      var unresolved := ScanLedger();
      if |requests| > CAPACITY { return Failed; }
      var c := Scan(unresolved);
      match c {
        case Nothing => r := NothingHandled(unresolved != {});
        case Broken(_) => r := Failed;
        case Chosen(id) => r := Answer(id, effect, cut);
      }
    }

    /** The checks of `submit`, for a submission whose file is not there yet. */
    method Begin(client: Client, operation: Operation, revision: Revision, id: RequestId)
      modifies this`admitted
      ensures View() == Step(old(View()), Admit(client, operation, revision, id))
    {
      if client in admitted || |catalog| > CAPACITY { return; }
      if operation !in catalog || catalog[operation].revision != revision { return; }
      if |requests| >= CAPACITY && id !in requests { return; }
      admitted := admitted[client := (id, Request(operation, revision))];
    }

    method Place(id: RequestId, file: RequestFile)
      modifies this`requests
      ensures View() == Link(old(View()), id, file)
    {
      if id !in requests {
        requests := requests[id := file];
      }
    }

    /** The file of a submission appears, unless there is one under its ID. */
    method End(client: Client)
      modifies this`admitted, this`requests
      ensures View() == Step(old(View()), Publish(client))
    {
      if client !in admitted { return; }
      Place(admitted[client].0, admitted[client].1);
      admitted := admitted - {client};
    }

    method Handle(e: Event)
      modifies this
      ensures View() == Step(old(View()), e)
    {
      hide Work, Admits, Link;
      match e {
        case Prepare(op, file, row) => plans, catalog := plans[op := file], catalog[op := row];
        case Withdraw(op) => catalog := catalog - {op};
        case Lose(op) => plans := plans - {op};
        case Place(id, file) => Place(id, file);
        case Admit(client, op, revision, id) => Begin(client, op, revision, id);
        case Publish(client) => End(client);
        case Call(effect, cut) => var _ := WorkOnce(effect, cut);
      }
    }

    /** Whatever happens, in whatever order: what is proved of `Run` holds of these files. */
    method Serve(events: seq<Event>)
      modifies this
      ensures View() == Run(old(View()), events)
    {
      hide Step;
      for i := 0 to |events|
        invariant View() == Run(old(View()), events[..i])
      {
        assert events[..i + 1][..i] == events[..i];
        Handle(events[i]);
      }
      assert events[..|events|] == events;
    }
  }
}
