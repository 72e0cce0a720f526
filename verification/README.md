# Seven protocols and state machines of aikey, modelled in Dafny

`dafny verify dfyconfig.toml` checks the whole project. Every source path below is relative to the root of the repository.

## What is modelled

**Apple host reconciliation** (`HostProtocol`, `HostReconcile`). The operator brings up containers through a daemon whose
commands may fail, time out and still take effect later. What outlives the process is a `World`: the receipt file, the
start reservations, the containers, the mutations still in flight and what was ever sent. `HostReconcile.Operator` is the
operator itself: each read, check, write, command and acknowledgement may succeed, raise, or be the moment the process
dies, and mutations in flight may land, or be dropped for good, before any of them. Assumed: containers change only when an
issued mutation lands; a mutation lands at most once, at any time after it was issued, and only on a container in the state
it needs; the host lock gives one writer; and a drawn operation token is new. A file write replaces the file or leaves it,
whatever it returns. Some theorems are about smooth calls, in which the process lives, what was sent lands before the next
step, and at most `faults` steps raise: with none, what a call achieves; with one, wherever it is, what becomes of the call.

**One-use maintenance queue** (`MaintenanceQueue`, `MaintenanceAnswers`, `MaintenanceWorker`). Web submissions publish write-once request files;
a worker call runs at most one frozen runbook between two ledger entries. A call is the list of durable states it goes
through, so cutting the list anywhere is a crash between two writes; a run interleaves any number of submissions (check and
publication apart), plan changes and calls. Events between two writes of one call lead to states of the same runs
(`MaintenanceQueue.HistoryIsRun`), so what is proved of runs holds of them too.

**Motion gate and provider pauses** (`MotionGate`, `MotionAnswers`, `MotionGateStore`, `ProviderPause`, `Detector`,
`DetectorAnswers`, `DetectorStore`). One
camera's gate is a value that every method call steps; the object keeps it in one dictionary a field. A detector call is
given its clock readings and the answers of everything outside it, and says what it does to the gate and to the pauses all
cameras share.

**Camera policy engine** (`CameraPolicy`, `CameraStream`, `CameraAnswers`, `CameraLimits`, `NightHold`, `CameraPool`,
`CameraEngine`). Tracker, zones and budgets may answer anything: every sample carries their answers and the theorems hold of all of them. The engine
object keeps all cameras in shared dictionaries and counts; `Serve` proves that it is each camera on its own, so every
theorem about a camera's calls holds of the object.

**Speech presence** (`Speech`, `SpeechAnswers`, `SpeechActivity`). Bytes to frames, frames to voiced or not, hysteresis to events. The
logarithm and the clock are functions the theorems quantify over.

**Administrator sessions** (`AdminSessions`, `SessionAnswers`, `AdminSecurity`). A cookie is what the signature check makes of it: unreadable,
or claims once signed with this key, possibly by an earlier runtime. Session identifiers are the ones drawn at each login.

**Person benchmark metrics** (`PersonReport`, `PersonSummary`, `ReportAnswers`). Confusion, calibration, Brier scores and percentiles over
all planned cases, in exact reals.

The modules called answers tell what one call comes to by conditions on what it was given, without the functions that
compute it, and prove that those functions agree.

`Options`, `Ordering`, `Sequences`, `Sets` and `Reals` hold what several of these share.

## Where the code falls short of what it promises

- An order is recorded before its command is sent. The command may then be refused by its deadline, or the process may die,
  or the daemon may refuse it. Nothing is in flight and nothing will happen, yet every later apply is fenced and every listing
  is refused by the settlement, since such an order looks like one that is still to come. A receipt passes the settlement if
  and only if its last order has taken effect (`HostProtocol.SettlesIffLanded`), and can still come to pass it if and only if
  one is in flight or that order has (`HostProtocol.SettlesUnlessStuck`). Every request can end stuck, unsent or refused
  (`HostProtocol.RequestsCanBeStuck`, `HostProtocol.StuckStart`), and then no run of calls gets anywhere
  (`HostReconcile.Operator.Run`).
- The pause after a provider failure is computed as `5.0 * 2 ** n`. From the 1025th failure of an outage on that
  expression raises `OverflowError`, which the call does not handle: the count grows, no pause is set, the gate is not told
  and the fallback is not asked. The spacing of failure `k` holds in every run if and only if `k <= 1025`
  (`Detector.SpacedIffNoOverflow`).
- `Bridge.submit` checks the number of requests and links its file in separate steps. Two overlapping submissions leave 129
  requests, and a worker never works on more than 128. The bound of 128 holds in every run if and only if submissions do
  not overlap (`MaintenanceQueue.QueueBoundNeedsSerialSubmits`, `MaintenanceQueue.OverfullIsStuck`).
- With nothing unresolved, a worker call gets anywhere if and only if the least unanswered request can be taken up: one
  request that is malformed, or whose plan file is gone or altered, stops the queue behind it
  (`MaintenanceQueue.CallAnswersIffHeadAnswerable`). Behind a malformed file the queue is stopped for good, in every run
  (`MaintenanceQueue.MalformedBlocksForGood`; `MaintenanceQueue.JammedQueue` is such a queue).
- An event budget that raises ends `observe` with an error after earlier changes of the same frame were applied, so the
  caller never sees events the engine has recorded. What callers are given is a well-formed stream in every run if and only
  if there is no event budget, or it admits one event for good (`CameraPool.ReturnedLifecycles`). The live pool uses none.

- The login limit reads the wall clock, which may go back. With two or more attempts allowed, a failure can be dropped from
  the queue by a reading that is later taken back: with three allowed in 30 seconds, wrong passwords at 0, 0, 0, 30 and 29
  are four failures in 29 seconds. More failures than allowed take a full window in every run whose clock goes back by at
  most `d` seconds if and only if `d` is zero or one attempt is allowed; otherwise they take `d` seconds less, and no more
  than that can be promised (`AdminSessions.SpacingIsExact`); the refusal counts the failures of the last window under the same condition
  (`AdminSessions.LimitIsExactIffSteady`).

## Model

| member | source | states |
|---|---|---|
| `HostProtocol.LandKeepsTracked` | src/aikey/aiport_apple_reconcile.py:412-436 | Whenever the one mutation that may be in flight takes effect, the receipt still describes the daemon, and then exactly |
| `HostProtocol.FizzleKeepsTracked` | src/aikey/aiport_apple_reconcile.py:46-57 | Whenever the daemon drops the one mutation that may be in flight, the receipt still says no more than is true |
| `HostProtocol.RequestKeepsTracked` | src/aikey/aiport_apple_reconcile.py:420-425 | Recording an order as `requested` before sending it keeps the receipt true while the order may or may not have been sent |
| `HostProtocol.SendKeepsTracked` | src/aikey/aiport_apple_reconcile.py:426-431 | Handing the recorded order to the daemon puts exactly that order in flight and keeps the receipt true |
| `HostProtocol.AcknowledgeKeepsTracked` | src/aikey/aiport_apple_reconcile.py:432-433 | An acknowledgement claims no more than that the order was sent |
| `HostProtocol.ObserveKeepsTracked` | src/aikey/aiport_apple_reconcile.py:434-436 | Seeing the state an order asks for proves that it has landed, so it may be recorded as `observed` with nothing left in flight |
| `HostProtocol.PositiveEvidence` | src/aikey/aiport_apple_reconcile.py:434-436 | The state an order gives can only be there because that order landed |
| `HostProtocol.UntouchedKeepsLevel` | src/aikey/aiport_apple_reconcile.py:508-527 | An instance without an order is at the level it started from |
| `HostProtocol.LevelHasCause` | src/aikey/aiport_apple_reconcile.py:442-482 | A level the operation brought about was brought about by an order of the right kind |
| `HostProtocol.AtMostThreeOrders` | src/aikey/aiport_apple_reconcile.py:264-272 | Each order is given once and finds the level it needs, so there are at most three an instance |
| `HostProtocol.OpeningIsTracked` | src/aikey/aiport_apple_reconcile.py:407-414 | A receipt for a fresh operation over the containers as listed is true from the start |
| `HostProtocol.ReservingKeepsTracked` | src/aikey/aiport_apple_reconcile.py:456-457 | Reserving an instance for the operation keeps the receipt true, and the instance is then reserved |
| `HostProtocol.SettlingKeepsTracked` | src/aikey/aiport_apple_reconcile.py:242-251 | Reservations matter only while an order may be in flight, so settling them afterwards is safe |
| `HostProtocol.FencingKeepsTracked` | src/aikey/aiport_apple_reconcile.py:504-505 | Declaring the outcome uncertain is always true |
| `HostProtocol.ClosingKeepsTracked` | src/aikey/aiport_apple_reconcile.py:487-489 | A terminal phase may be recorded once everything has landed and what it asserts holds |
| `HostProtocol.RunningIsNeverCommanded` | src/aikey/aiport_apple_reconcile.py:404-414 | No order of an operation names an instance that was running when it began |
| `HostProtocol.StopsOnlyOwnStarts` | src/aikey/aiport_apple_reconcile.py:508-527 | Every stop comes after a start of the same instance by the same operation |
| `HostProtocol.NeverRemoved` | src/aikey/aiport_apple_reconcile.py:343-350 | No sequence of orders removes an instance; one is missing only if it was and nothing was ordered for it |
| `HostProtocol.RoomForRequest` | src/aikey/aiport_apple_reconcile.py:264-272 | At most three orders an instance: with 16 instances a receipt stays under the limit of 128 actions |
| `HostProtocol.RequestIsReadable` | src/aikey/aiport_apple_reconcile.py:254-296 | The receipt with one more request passes the validator it will be read back with |
| `HostProtocol.ReadableMeans` | src/aikey/aiport_apple_reconcile.py:254-296 | A receipt is accepted if and only if it has at most 128 actions of selected instances, readings for exactly those that ran, no open action when closed, and a settlement of exactly its instances when and only when reconciled |
| `HostProtocol.InFlightIsFenced` | src/aikey/aiport_apple_reconcile.py:374-380 | A mutation that may still land implies a receipt on disk that is `prepared` or `uncertain` and lists it last, so a later apply is refused |
| `HostProtocol.RolledBackMeans` | src/aikey/aiport_apple_reconcile.py:501-528 | `rolled_back` on disk: nothing in flight, exactly the instances that ran at first run now, none removed, and every stop undid an own start |
| `HostProtocol.CompletedMeans` | src/aikey/aiport_apple_reconcile.py:489-497 | `completed` on disk: nothing in flight, every order sent and observed, and every selected instance runs |
| `HostProtocol.PriorRunningIsPreserved` | src/aikey/aiport_apple_reconcile.py:398-404 | In every phase an instance that was running still is, was sent nothing, and no instance was removed |
| `HostProtocol.SettlementIsExact` | src/aikey/aiport_apple_reconcile.py:585-613 | The settlement test admits a listing if and only if no world with this receipt and this listing has a mutation in flight |
| `HostProtocol.RowConfirmsMeans` | src/aikey/aiport_apple_reconcile.py:585-605 | What the listing must show of an instance, by the level it is at: absent only if never touched, owned if it was absent, running if it ran, and at the level its unobserved start or stop asks for |
| `HostProtocol.ConfirmedHasLanded` | src/aikey/aiport_apple_reconcile.py:585-613 | A listing that passes the settlement test leaves nothing in flight |
| `HostProtocol.LandedIsConfirmable` | src/aikey/aiport_apple_reconcile.py:585-613 | When everything listed was sent and has landed, every listing passes the test |
| `HostProtocol.SettlesIffLanded` | src/aikey/aiport_apple_reconcile.py:585-608 | At every moment a listing passes the test if and only if the last order of the receipt has taken effect |
| `HostProtocol.SettlesUnlessStuck` | src/aikey/aiport_apple_reconcile.py:585-608 | An unresolved receipt can still be settled at some later moment if and only if something is in flight or its last order has taken effect |
| `HostProtocol.RequestsCanBeStuck` | src/aikey/aiport_apple_reconcile.py:420-431 | Every request an operation can record may end stuck behind an unresolved receipt, unsent or sent and refused, and no listing then passes the test |
| `HostProtocol.StuckStart` | src/aikey/aiport_apple_reconcile.py:420-431 | One stopped instance whose start was recorded and never sent, or sent and refused: two sound worlds, with nothing in flight, that cannot be settled |
| `HostProtocol.ConfirmedIsStill` | src/aikey/aiport_apple_reconcile.py:614-629 | What a confirmed listing showed is still so when the settlement is written |
| `HostProtocol.ReconciledIsTracked` | src/aikey/aiport_apple_reconcile.py:614-629 | A confirmed listing makes a true `reconciled` receipt, with the outcome the states imply |
| `HostProtocol.ClassifyMeans` | src/aikey/aiport_apple_reconcile.py:614-619 | The outcome is `all_running` if and only if everything runs, `no_new_running` if and only if not everything runs but nothing runs that did not before, and `partial_runtime_state` if and only if neither |
| `HostReconcile.PlansComplete` | src/aikey/aiport_apple_reconcile.py:442-486 | When the plans of all pending instances were carried out, every selected instance is at the running level |
| `HostReconcile.LiveWasAttempted` | src/aikey/aiport_apple_reconcile.py:469-471 | Whatever runs although it did not at first is on the list the rollback goes through |
| `HostReconcile.StoppedLeavesLive` | src/aikey/aiport_apple_reconcile.py:508-527 | Each stop of the rollback takes one instance off that list, and no other |
| `HostReconcile.Operator.Elapse` | src/aikey/aiport_apple_reconcile.py:543-549 | Any number of landings and drops keep the world sound; with nothing in flight nothing changes; if all goes well what is in flight takes effect |
| `HostReconcile.Operator.Observe` | src/aikey/aiport_apple_reconcile.py:372-373 | A listing shows the containers as they are at that moment, and sends nothing |
| `HostReconcile.Operator.Publish` | src/aikey/aiport_apple_reconcile.py:299-310 | Saving leaves the old file or the new one whatever it returns, and the world is sound with either |
| `HostReconcile.Operator.Reserve` | src/aikey/aiport_apple_reconcile.py:456-457 | A start reservation is published for this operation or left as it was; one that another operation still holds is never overwritten |
| `HostReconcile.Operator.Mutate` | src/aikey/aiport_apple_reconcile.py:420-433 | A mutation that returns is on disk as acknowledged; one that fails is on disk as requested unless it was never recorded |
| `HostReconcile.Operator.Record` | src/aikey/aiport_apple_reconcile.py:424-425 | The request is on disk before the command, and the world is sound whether or not it is sent |
| `HostReconcile.Operator.Dispatch` | src/aikey/aiport_apple_reconcile.py:426-431 | The command is sent only after its request is on disk; if it raises the order may or may not have been sent |
| `HostReconcile.Operator.Preflight` | src/aikey/aiport_apple_reconcile.py:443-457 | An instance that appeared, vanished or started meanwhile is refused with no reservation written, and one that passes is reserved |
| `HostReconcile.Operator.Confirm` | src/aikey/aiport_apple_reconcile.py:434-436 | After the observation nothing is in flight and the next order may be recorded |
| `HostReconcile.Operator.CreateInstance` | src/aikey/aiport_apple_reconcile.py:458-468 | A creation that succeeds is observed, owned by the operation and not running |
| `HostReconcile.Operator.Launch` | src/aikey/aiport_apple_reconcile.py:473-482 | A start that succeeds is observed; one that fails leaves a receipt that still says what may happen |
| `HostReconcile.Operator.StartOne` | src/aikey/aiport_apple_reconcile.py:442-486 | One pass appends exactly the plan of its instance and puts it on the list to undo before starting it |
| `HostReconcile.Operator.StopOne` | src/aikey/aiport_apple_reconcile.py:508-527 | One rollback pass stops its instance if it runs and has it observed as not running |
| `HostReconcile.Operator.Halt` | src/aikey/aiport_apple_reconcile.py:515-526 | One stop is recorded, sent, acknowledged and observed; if nothing raises it is carried out |
| `HostReconcile.Operator.Bring` | src/aikey/aiport_apple_reconcile.py:442-486 | The whole loop: the orders given are the plans of the pending instances, in order |
| `HostReconcile.Operator.Undo` | src/aikey/aiport_apple_reconcile.py:506-528 | A rollback that succeeds leaves nothing running that was not; it refuses, changing nothing, once the operation was complete or if any action was not observed; with every action observed and nothing raising it always succeeds |
| `HostReconcile.Operator.Conclude` | src/aikey/aiport_apple_reconcile.py:529-540 | The rollback error is reported only with its receipt on disk and its reservations settled, and always if nothing raises |
| `HostReconcile.Operator.Recover` | src/aikey/aiport_apple_reconcile.py:501-540 | After any failure the receipt ends `rolled_back` or stays `uncertain`, as recovery incomplete unless the process died; if nothing raises any more, the rollback error is reported exactly when the operation was not complete and every action was observed, and an uncertain outcome otherwise |
| `HostReconcile.Operator.Survey` | src/aikey/aiport_apple_reconcile.py:374-406 | Before acting nothing is written or sent, and acting starts with nothing in flight and no unresolved intent |
| `HostReconcile.Operator.Act` | src/aikey/aiport_apple_reconcile.py:438-540 | From the first receipt to the last, every way this ends leaves a sound world and says which way it was; with one step that raises, it is rolled back exactly when that step came before the receipt was complete and with every action observed |
| `HostReconcile.Operator.Finish` | src/aikey/aiport_apple_reconcile.py:484-500 | If nothing raises the receipt becomes `completed` and the pending instances are reported as applied; a step that raises here leaves an uncertain outcome and never a rollback |
| `HostReconcile.Operator.SettleReservations` | src/aikey/aiport_apple_reconcile.py:242-251 | The only change is that open reservations of this very operation become settled, and a success leaves none of the instances reserved |
| `HostReconcile.Operator.Reconcile` | src/aikey/aiport_apple_reconcile.py:343-540 | A preview or a fenced apply writes and sends nothing; other instances and running ones are untouched; `applied` and the rollback error mean what they say; if nothing goes wrong an unfenced apply brings all instances up; if exactly one step raises, it is refused with nothing written before the first receipt, rolled back with everything stopped again if every recorded action was observed by then, and uncertain otherwise |
| `HostReconcile.Operator.Settle` | src/aikey/aiport_apple_reconcile.py:543-634 | Settling sends nothing and changes the receipt only to `reconciled` and only on positive evidence; if nothing goes wrong it settles if and only if the revision and the instances are those of the receipt, no instance is reserved elsewhere, the listing confirms every instance and those that ran first report the health they had; the outcome is all running, nothing new running or partial exactly as the containers are |
| `HostReconcile.Operator.TrySettle` | src/aikey/aiport_apple_reconcile.py:543-634 | From the listing to the receipt: settled exactly if the receipt is the right one and the listing confirms it, and kept otherwise |
| `HostReconcile.Operator.Confront` | src/aikey/aiport_apple_reconcile.py:552-613 | The listing, the readings and the test of every instance; what it saw is what the receipt will say |
| `HostReconcile.Operator.ReadBack` | src/aikey/aiport_apple_reconcile.py:577-613 | The loop accepts a listing only if every selected instance passes, and if nothing goes wrong exactly then |
| `HostReconcile.Operator.Retire` | src/aikey/aiport_apple_reconcile.py:620-629 | The settlement replaces the receipt or leaves it, and changes neither the containers nor what was sent |
| `HostReconcile.Operator.Serve` | src/aikey/aiport_apple_reconcile.py:374-380 | Each single call keeps the world sound, reports the answer of the operation it asks for, and gets nowhere behind an order that can no longer take effect |
| `HostReconcile.Operator.Run` | src/aikey/aiport_apple_reconcile.py:374-380 | In every run of previews, applies, settlements and waiting the world stays sound, no container is removed, and what is in flight is fenced; behind an order that can no longer take effect, no run changes anything, applies or settles |
| `MaintenanceQueue.TraceKeepsInv` | src/aikey/admin_maintenance.py:404-467 | Every durable state of a worker call, so every point it can die at, keeps one-use execution and truthful receipts |
| `MaintenanceQueue.Pick` | src/aikey/admin_maintenance.py:422-444 | The request chosen is the first that is neither answered nor blocked by an unknown outcome |
| `MaintenanceQueue.EveryRunIsOneUse` | src/aikey/admin_maintenance.py:445-467 | In every run a runbook starts at most once, at most one outcome is unknown, and every receipt repeats the ledger |
| `MaintenanceQueue.ReceiptsOfOneOperation` | src/aikey/admin_maintenance.py:459-464 | All receipts for an operation agree, and a success was reported by the one execution there was |
| `MaintenanceQueue.EachWriteMovesForward` | src/aikey/admin_maintenance.py:446-464 | From one durable state of a call to the next, an entry appears only as started or rejected, and changes only once, from started to an outcome |
| `MaintenanceQueue.RunIsForward` | src/aikey/admin_maintenance.py:446-464 | Requests and receipts are written once, ledger entries never leave a final state, executions only accumulate |
| `MaintenanceQueue.BlockedForever` | src/aikey/admin_maintenance.py:410-421 | Once an outcome is unknown no runbook ever starts again, and it stays unknown |
| `MaintenanceQueue.WorkTouches` | src/aikey/admin_maintenance.py:445-467 | Wherever a call dies, it has changed nothing or part of the answer to one request |
| `MaintenanceQueue.WorkOnceAnswers` | src/aikey/admin_maintenance.py:445-467 | A call that is not interrupted has written one final ledger entry and the receipt that repeats it |
| `MaintenanceQueue.LedgerWithinRequests` | src/aikey/admin_maintenance.py:411-413 | There are never more ledger entries than requests |
| `MaintenanceQueue.NextIsLeast` | src/aikey/admin_maintenance.py:422-444 | With nothing unresolved, the request a call looks at is the least unanswered one |
| `MaintenanceQueue.CallAnswersIffHeadAnswerable` | src/aikey/admin_maintenance.py:426-444 | An uninterrupted call gets anywhere if and only if that request can be taken up |
| `MaintenanceQueue.HeadHoldsUp` | src/aikey/admin_maintenance.py:426-444 | While that request cannot be taken up, no number of calls changes anything |
| `MaintenanceQueue.MalformedBlocksForGood` | src/aikey/admin_maintenance.py:431-434 | In every run whatever, no request behind an unanswered malformed file is ever answered |
| `MaintenanceQueue.JammedQueue` | src/aikey/admin_maintenance.py:431-434 | A plan, a malformed file and a good request behind it: the request could be taken up, and is answered in no continuation |
| `MaintenanceQueue.OneCall` | src/aikey/admin_maintenance.py:445-467 | A conclusive call answers exactly the least unanswered request and leaves a clean queue |
| `MaintenanceQueue.CallsDrainInOrder` | src/aikey/admin_maintenance.py:404-467 | `k` conclusive calls answer exactly the `k` least unanswered requests |
| `MaintenanceQueue.CallsAnswerAll` | src/aikey/admin_maintenance.py:404-467 | As many conclusive calls as there are unanswered requests leave none |
| `MaintenanceQueue.WriteCommutes` | src/aikey/admin_maintenance.py:404-467 | No submission and no change of plans reads or alters what a write of the worker alters, and the other way round |
| `MaintenanceQueue.TraceIsWrites` | src/aikey/admin_maintenance.py:445-464 | The durable states of a call are its writes one after the other |
| `MaintenanceQueue.HistoryIsRun` | src/aikey/admin_maintenance.py:404-467 | With submissions and plan changes between any two writes of any calls, what is on disk is at every moment the state of a run |
| `MaintenanceQueue.QueueBound` | src/aikey/admin_maintenance.py:211-213 | With `n` submissions in progress at a time there are never more than `127 + n` requests |
| `MaintenanceQueue.OverfullIsStuck` | src/aikey/admin_maintenance.py:424-425 | A queue over its capacity is never worked again |
| `MaintenanceQueue.RaceOverfills` | src/aikey/admin_maintenance.py:211-222 | Two overlapping submissions reach 129 requests |
| `MaintenanceQueue.QueueBoundNeedsSerialSubmits` | src/aikey/admin_maintenance.py:211-222 | The bound of 128 holds of every run if and only if submissions do not overlap |
| `MaintenanceAnswers.StopMeans` | src/aikey/admin_maintenance.py:422-444 | The request chosen is the one without a receipt before which all have theirs or are held back by an unknown outcome, told without the loop |
| `MaintenanceAnswers.OfferedMeans` | src/aikey/admin_maintenance.py:451-454 | A plan is offered if and only if the catalog has its operation with its revision and description, and with its target and purpose or without any |
| `MaintenanceAnswers.CallMeans` | src/aikey/admin_maintenance.py:445-467 | A call that is through has run the plan it took up once if it is offered, with the outcome reported, and otherwise nothing; its entry and receipt say so |
| `MaintenanceAnswers.IdleMeans` | src/aikey/admin_maintenance.py:404-444 | A call with no request to take up changes nothing |
| `MaintenanceAnswers.StartsOnlyOffered` | src/aikey/admin_maintenance.py:446-458 | However a call is cut, it starts nothing but the plan of the request it takes up, once at most, and only if the catalog offers it |
| `MaintenanceAnswers.WithdrawnIsNotStarted` | src/aikey/admin_maintenance.py:451-454 | From the withdrawal of an operation to its next preparation no run starts it, whatever else happens |
| `MaintenanceAnswers.NothingMeans` | src/aikey/admin_maintenance.py:404-444 | The loop finds a request to handle if and only if one can be taken up, and breaks off if and only if it stops at one that cannot; outcomes are unknown exactly when an entry is started or uncertain; each capacity is 128 |
| `MaintenanceWorker.Maintenance.Submit` | src/aikey/admin_maintenance.py:204-232 | A submission binds its ID to its content for good, or changes nothing: the catalog holds more than 128 plans, the plan is not in it with this revision, 128 requests are there already and not this one, or the ID names other content; each reason is given if and only if it is so and none before it |
| `MaintenanceWorker.Maintenance.ScanLedger` | src/aikey/admin_maintenance.py:410-421 | The loop finds exactly the operations whose outcome is unknown |
| `MaintenanceWorker.Maintenance.Scan` | src/aikey/admin_maintenance.py:422-444 | The loop stops at the first request that is neither answered nor blocked, and refuses it unless its plan is the frozen one |
| `MaintenanceWorker.Maintenance.Execute` | src/aikey/admin_maintenance.py:452-458 | After the `started` entry the process is started and reported on before its outcome is recorded, whichever write is the last |
| `MaintenanceWorker.Maintenance.Answer` | src/aikey/admin_maintenance.py:445-464 | The writes for one request come in the order of the durable states, whichever of them is the last |
| `MaintenanceWorker.Maintenance.WorkOnce` | src/aikey/admin_maintenance.py:404-469 | A call, dying after any number of writes, leaves the state that many writes lead to; in terms of the files alone it handles a request if and only if one can be taken up, fails if and only if there are too many files or the loop stops at a request that is not sound, and otherwise reports whether an unknown outcome is in the way |
| `MaintenanceWorker.Maintenance.Serve` | src/aikey/admin_maintenance.py:204-469 | Any sequence of submissions, plan changes and cut calls on the files is a run, so all of the above holds of them |
| `MotionGate.ReserveFalls` | src/aikey/aiport_api_detection.py:279-394 | Every operation pays for the request it grants out of the episode's reserve, and an opening sets the reserve to three |
| `MotionGate.ThreeGrantsAnOpening` | src/aikey/aiport_api_detection.py:212-213 | Over any run each opening pays for three grants, on top of what the episode in progress had left |
| `MotionGate.Step` | src/aikey/aiport_api_detection.py:212-394 | Every operation keeps at most two pending requests, a recovery only with nothing pending, and a known observation time |
| `MotionGate.ThreeGrantsAnEpisode` | src/aikey/aiport_api_detection.py:212-213 | An episode, from the frame that opens it to the next opening, is granted at most three requests, whatever frames, clocks, replies and deferrals come |
| `MotionGate.ThreeQuietFramesARearming` | src/aikey/aiport_api_detection.py:358-365 | Each rearming of a disarmed scene uses up three quiet frames |
| `MotionGate.GrantsWithinRearms` | src/aikey/aiport_api_detection.py:232-317 | Grants are paid by the start, by rearmings, by resets and by denials |
| `MotionGate.WorthFalls` | src/aikey/aiport_api_detection.py:232-394 | Every operation pays for its grant out of what the gate is worth; only rearmings, resets and denials add to it |
| `MotionGate.GrantsWithinQuietFrames` | src/aikey/aiport_api_detection.py:322-394 | With `q` quiet frames at most `5 + 3 (q / 3)` requests are granted, and five more a reset and three more a denial |
| `MotionGate.BoundIsReached` | src/aikey/aiport_api_detection.py:279-394 | For every `k` a run with `3 k` quiet frames is granted `5 + 3 k` requests |
| `MotionGate.ExactMaximum` | src/aikey/aiport_api_detection.py:322-394 | `5 + 3 (q / 3)` is the exact maximum over all runs with at most `q` quiet frames |
| `MotionAnswers.ChangedMeans` | src/aikey/aiport_api_detection.py:356 | The number of changed cells is the size of the set of cells that differ by at least 24 levels |
| `MotionAnswers.FrameMeans` | src/aikey/aiport_api_detection.py:322-394 | A first frame is granted as a probe or never; one without motion draws on what is pending and counts towards three; motion starts a pair in an armed gate, takes the allowance after an empty reply within its time, or draws on what is pending |
| `MotionAnswers.ReplyMeans` | src/aikey/aiport_api_detection.py:279-317 | A doubtful first reply is retried once, any other reply without an object ends the pair, a clean empty one to fresh motion leaves an allowance from 2 seconds after the picture to 10 after the reply, and a probe ends with its first reply |
| `MotionAnswers.OtherCallsMean` | src/aikey/aiport_api_detection.py:232-277 | Deferring and cancelling drop what is pending, a denial also rearms, a reset forgets all but the time of the last picture |
| `MotionGateStore.Gates.ShouldRequest` | src/aikey/aiport_api_detection.py:322-394 | A frame steps its camera's gate and no other's; whether it is granted and every field after it are told from the gate before, the number of cells that changed by 24 levels and the times alone |
| `MotionGateStore.Gates.SampleResult` | src/aikey/aiport_api_detection.py:279-317 | A reply steps its camera's gate and no other's; the retry, the pair, the probe and the allowance after an empty reply are told from the reply and the gate before |
| `MotionGateStore.Gates.ResetGate` | src/aikey/aiport_api_detection.py:232-243 | A reset forgets everything about the camera but when it was last seen |
| `MotionGateStore.Gates.WaitForMotionAt` | src/aikey/aiport_api_detection.py:245-257 | A denial keeps the scene, cancels probes and pending requests, and leaves motion armed |
| `MotionGateStore.Gates.CancelConfirmation` | src/aikey/aiport_api_detection.py:259-263 | Cancelling drops the pending request and says whether there was one |
| `MotionGateStore.Gates.DeferPair` | src/aikey/aiport_api_detection.py:273-277 | Deferring drops the pair and the recovery; motion rearms by itself |
| `MotionGateStore.Gates.CountChanged` | src/aikey/aiport_api_detection.py:356 | The loop counts the cells that changed by at least 24 levels |
| `ProviderPause.WaitedInClosedForm` | src/aikey/aiport_api_detection.py:1445-1447 | The first `n >= 6` pauses add up to 315 + 300 (n - 6) seconds |
| `ProviderPause.FailedKeepsPaced` | src/aikey/aiport_api_detection.py:1432-1447 | A failure outside the pause keeps the failures of the outage paced and sets the next pause from it |
| `ProviderPause.OutageIsSpaced` | src/aikey/aiport_api_detection.py:1432-1447 | Paced failures are apart by the sum of the pauses between them |
| `DetectorAnswers.PausesMean` | src/aikey/aiport_api_detection.py:1442-1447 | The pauses are 5, 10, 20, 40, 80 and 160 seconds, and 300 from then on; for the fallback 30, 60, 120 and 240, and then 300 |
| `Detector.CourseFacts` | src/aikey/aiport_api_detection.py:967-975 | A paid request goes out only for a granted frame and outside the pause, and only a paid request is counted as a failure |
| `Detector.Route` | src/aikey/aiport_api_detection.py:966-1021 | A paid request is sent outside the pause only, and the provider is reported on only after one |
| `Detector.OutageIsPaced` | src/aikey/aiport_api_detection.py:1026-1047 | Over any calls on any cameras the failures since the last success keep the pauses |
| `Detector.FailuresAreSpaced` | src/aikey/aiport_api_detection.py:1432-1447 | Failure `k` of an outage comes at least the first `k - 1` pauses after the first, for `k` up to 1025, with or without the fallback |
| `Detector.BurstStrikes` | src/aikey/aiport_api_detection.py:1445-1447 | First frames of one camera after another, each failing as early as allowed, make an outage of any length |
| `Detector.SpacedIffNoOverflow` | src/aikey/aiport_api_detection.py:1445-1447 | The spacing of failure `k` holds of every run if and only if `k <= 1025` |
| `Detector.PaidWithinGrants` | src/aikey/aiport_api_detection.py:940-1047 | A camera's primary detection requests never exceed the grants of its own gate, whatever other cameras do |
| `Detector.PaidWithinQuietFrames` | src/aikey/aiport_api_detection.py:940-1021 | A camera's primary detection requests are bounded by its quiet frames, its resets and its denials |
| `Detector.CourseResets` | src/aikey/aiport_api_detection.py:993-1021 | Only a failed lookup resets a gate, and only a denied allowance without a fallback makes it wait |
| `Detector.PaidWithoutDenials` | src/aikey/aiport_api_detection.py:940-1047 | Without a lookup, and without a cap or with a fallback, `5 + 3 (q / 3)` bounds the primary detection requests of a camera |
| `DetectorAnswers.DetectMeans` | src/aikey/aiport_api_detection.py:940-1140 | Every call, told from its inputs: what turns it away, the paid and the local request and what each comes to, the operations on the gate in order, the result, and the pauses, the lookup and the allowance after it |
| `DetectorAnswers.RequestsMean` | src/aikey/aiport_api_detection.py:966-1047 | After a grant the paid request is made if and only if there is no pause, the allowance is above its reserve where that is looked at, the name is known and the claim admitted; the local one if and only if its own pause is over and it stands in for the paid one or takes over its failure |
| `DetectorAnswers.FallbackStandsIn` | src/aikey/aiport_api_detection.py:966-1047 | In a pause, at the reserve, without a name or with a denied claim the fallback is asked unless its own pause is on; what it says is the result, and the gate hears a reply and is neither deferred, reset nor armed |
| `DetectorAnswers.LookupMeans` | src/aikey/aiport_api_detection.py:902-930 | A lookup fails with the error that still stands or the one it ends in, and what it leaves stands for a minute |
| `DetectorAnswers.LocalMeans` | src/aikey/aiport_api_detection.py:1142-1169 | The fallback is asked unless its pause is on, and its text or its failure decides what the gate hears, the result and its next pause |
| `DetectorAnswers.PaidMeans` | src/aikey/aiport_api_detection.py:1022-1140 | The text or the failure of the paid request decides the pause, what the gate hears, the result, and whether the fallback takes over |
| `DetectorStore.ApiDetector.ProviderFailed` | src/aikey/aiport_api_detection.py:1432-1447 | A failure is counted, and its pause is set unless the exponent does not fit |
| `DetectorStore.ApiDetector.CheckRemoteDns` | src/aikey/aiport_api_detection.py:902-930 | A lookup result is remembered for a minute, good or bad, and the remembered error is the one raised |
| `DetectorStore.ApiDetector.FallbackText` | src/aikey/aiport_api_detection.py:1142-1169 | The fallback is asked outside its own pause only, and its failure or success sets that pause alone |
| `DetectorStore.ApiDetector.Request` | src/aikey/aiport_api_detection.py:1022-1140 | The request, its fallback and every handled error come to the course that is specified, gate and pauses included |
| `DetectorStore.ApiDetector.AskPrimary` | src/aikey/aiport_api_detection.py:1029-1047 | A reply ends the outage; a failure other than an unknown name is counted |
| `DetectorStore.ApiDetector.Conclude` | src/aikey/aiport_api_detection.py:1120-1140 | The gate hears of every reply and every handled error, and a lost name is not looked up again for a minute |
| `DetectorStore.ApiDetector.Granted` | src/aikey/aiport_api_detection.py:966-1021 | Pause, both readings of the allowance, lookup and claim decide in this order whether a request is sent, and to whom |
| `DetectorStore.ApiDetector.SkipConfirmationFor` | src/aikey/aiport_api_detection.py:1449-1456 | Skipping cancels the pending confirmation of its camera alone |
| `DetectorStore.ApiDetector.DetectForCamera` | src/aikey/aiport_api_detection.py:940-1140 | One call leaves the gate, the pauses and the allowance as its course says, and touches no other camera's gate; which requests it makes, what the gate hears, what is returned and every pause after it are told from its inputs alone |
| `DetectorStore.ApiDetector.Serve` | src/aikey/aiport_api_detection.py:940-1140 | Any sequence of calls on the object is a run of the specification, so all of the above holds of the object |
| `CameraPolicy.IntersectionWithinAreas` | src/aikey/aiport_tracking.py:76-87 | The intersection of two boxes is at most either area, so the overlap ratio has a positive divisor |
| `CameraPolicy.IouIsAFraction` | src/aikey/aiport_tracking.py:76-87 | The overlap ratio of two boxes is a fraction, the same both ways, one for a box with itself, and positive exactly if they overlap |
| `CameraPolicy.Pruned` | src/aikey/aiport_camera_engine.py:245-249 | Pruning drops a prefix of times that are not after the cutoff |
| `CameraStream.AnnounceFollows` | src/aikey/aiport_camera_engine.py:304-357 | Whatever passes the event gates moves its own track from one phase of its lifecycle to the next, and no other track |
| `CameraStream.EnterFollows` | src/aikey/aiport_camera_engine.py:320-338 | An admitted event opens its track as its kind in its zones |
| `CameraStream.MovingFollows` | src/aikey/aiport_camera_engine.py:343-350 | A moving event comes at least a second after the last one, with the same kind and zones |
| `CameraStream.LeaveFollows` | src/aikey/aiport_camera_engine.py:351-356 | A leave closes the open event of its track with the zones it had |
| `CameraStream.ApplyHeldAccounted` | src/aikey/aiport_camera_engine.py:269-303 | A held track is confirmed, turned animal, dropped or held on, and counted as one of them |
| `CameraStream.ConfirmAccounted` | src/aikey/aiport_camera_engine.py:385-402 | A confirmation by a local follow-up is counted like any other |
| `CameraStream.TakeAccounted` | src/aikey/aiport_camera_engine.py:257-402 | Every sample and hold call keeps the phases, the number of open events and the account of holds |
| `CameraStream.LeavesClose` | src/aikey/aiport_camera_engine.py:172-177 | A new policy closes the open event of each active track once, with its own kind and zones |
| `CameraStream.EveryRunIsSound` | src/aikey/aiport_camera_engine.py:172-357 | In every run each track's events are a prefix of (enter, moving*, leave)* with one kind and zone tuple, moving a second apart; enters minus leaves are the open events; every hold is accounted for |
| `CameraAnswers.EntersMeans` | src/aikey/aiport_camera_engine.py:304-342 | An enter is announced, with its change and exactly the zones answered for it, if and only if its track has no open event, no cooldown is on, there is room, it has zones and its claim is granted or needs none |
| `CameraAnswers.MovesMeans` | src/aikey/aiport_camera_engine.py:343-350 | A moving event is announced if and only if its track has an open event of its kind in the same zones and a second has passed |
| `CameraAnswers.GoesMeans` | src/aikey/aiport_camera_engine.py:351-357 | A leave is announced if and only if its track has an open event of its kind, with the zones of that event |
| `CameraAnswers.SeesMeans` | src/aikey/aiport_camera_engine.py:257-357 | A sample of a kind the policy does not enable is nothing; a held track, a new package in infrared and any other sample come to exactly this, with their counts |
| `CameraAnswers.ConfirmingMeans` | src/aikey/aiport_camera_engine.py:385-402 | A confirmation announces the package as its own enter if it is held, not vetoed, still a package and let through by the gates, and is nothing otherwise |
| `CameraAnswers.ReplaceMeans` | src/aikey/aiport_camera_engine.py:156-194 | Another policy closes exactly the open events, in the order of their track numbers, and forgets every hold; the same one changes nothing |
| `CameraAnswers.PruneMeans` | src/aikey/aiport_camera_engine.py:245-249 | A frame drops the announcements at the front of the queue that are a window old, up to the first that is not |
| `CameraAnswers.EventsHaveOrigin` | src/aikey/aiport_camera_engine.py:156-402 | Every event of every run was decided on by one of its steps: an enter carries the sampled change and the zones answered for it, of an enabled kind and with its claim granted; moving and leave events carry the change seen and the zones of the open event |
| `CameraAnswers.IouMeans` | src/aikey/aiport_tracking.py:76-87 | The overlap ratio times the area covered by either box is the area covered by both |
| `CameraLimits.PackagesAreSpaced` | src/aikey/aiport_camera_engine.py:304-334 | Package announcements of a camera are 1800 seconds apart, across policy changes and backward clocks |
| `CameraLimits.TakeLimited` | src/aikey/aiport_camera_engine.py:257-357 | A step announces at most one event, only with room for it, and a package only after the cooldown |
| `CameraLimits.CountIsBounded` | src/aikey/aiport_camera_engine.py:262-264 | Without a window the number of announcements never exceeds the limit |
| `CameraLimits.WindowHolds` | src/aikey/aiport_camera_engine.py:245-249 | The queue holds the latest announcements, what left it is out of the window by the highest clock reading, and more announcements than allowed take a window less what the clock has gone back by |
| `CameraLimits.PrunedWindowed` | src/aikey/aiport_camera_engine.py:245-249 | Pruning loses no announcement that is still in the window |
| `CameraLimits.WindowHoldsAt` | src/aikey/aiport_camera_engine.py:245-338 | Announcement `i + max` comes at least a window after announcement `i`, less what the clock has gone back by, though confirming a hold does not prune |
| `NightHold.EveryHoldIsAnchored` | src/aikey/aiport_camera_engine.py:265-303 | Every hold was set by an infrared sample, and each sample of its track since then was infrared and overlapped it by half |
| `NightHold.HeldAfter` | src/aikey/aiport_camera_engine.py:265-303 | A hold after a step was set by it, or was there before and the step shows nothing against it |
| `NightHold.InfraredNeedsHold` | src/aikey/aiport_camera_engine.py:281-295 | An infrared sample announces a package only from a hold, unvetoed, unwatched, old enough and in place |
| `NightHold.NightPackageWasStationary` | src/aikey/aiport_camera_engine.py:281-295 | An infrared sample announces a package only 20 seconds or more after such an anchor, which it overlaps by half itself |
| `NightHold.VetoedNeedsColour` | src/aikey/aiport_camera_engine.py:379-383 | A vetoed track is announced as a package only by a sample in colour |
| `NightHold.ConfirmReleases` | src/aikey/aiport_camera_engine.py:385-402 | A confirmed hold is gone, announced or not, and the other holds are as before |
| `CameraPool.AloneIsRun` | src/aikey/aiport_camera_engine.py:196-255 | The events decided in any sequence of calls are those of a run of steps |
| `CameraPool.HoldsAreAccountedFor` | src/aikey/aiport_camera_engine.py:135-141 | Over any cameras, the summed holds are the confirmed, the turned animal, the dropped, the still held and those a policy cleared |
| `CameraPool.ThroughIsLocal` | src/aikey/aiport_camera_engine.py:196-255 | What the steps of a call do depends on their camera alone, not on earlier events or the shared counts |
| `CameraPool.ThroughMeans` | src/aikey/aiport_camera_engine.py:250-255 | The changes of a frame are taken in order, all of them unless one raises, and the first that raises is the last taken |
| `CameraPool.ReturnedMeans` | src/aikey/aiport_camera_engine.py:196-255 | A call takes its steps up to the first that raises, and returns exactly the events they decide on, or nothing if one raises |
| `CameraPool.ObservingSteps` | src/aikey/aiport_camera_engine.py:196-255 | A frame is the pruning and then its changes in order; a refused one, and one without a policy, is nothing |
| `CameraPool.TotalMore` | src/aikey/aiport_camera_engine.py:135-141 | A call adds to each of the four sums over the cameras what it adds to the count of its own camera |
| `CameraPool.LosesEnter` | src/aikey/aiport_camera_engine.py:320-323 | With room for two events a raising budget loses an enter, and a moving event comes out of nothing |
| `CameraPool.RaisesBeforeEvents` | src/aikey/aiport_camera_engine.py:320-323 | Without a budget, or with one event for good, a call that raises has decided on nothing |
| `CameraPool.NothingIsLost` | src/aikey/aiport_camera_engine.py:250-255 | There the events returned are the events decided |
| `CameraPool.LosesLeave` | src/aikey/aiport_camera_engine.py:320-323 | With a window it loses a leave, and a track enters twice |
| `CameraPool.ReturnedLifecycles` | src/aikey/aiport_camera_engine.py:250-255 | What callers are given is well-formed in every run if and only if no call can raise after deciding on an event |
| `CameraEngine.CameraPolicyEngine.AnnounceChange` | src/aikey/aiport_camera_engine.py:304-357 | Cooldown, budget, zones and open events decide as `CameraAnswers.GatedMeans` tells, and only this camera changes |
| `CameraEngine.CameraPolicyEngine.ApplyChange` | src/aikey/aiport_camera_engine.py:257-357 | Night packages are held, released, confirmed or announced as specified, with the four counts kept |
| `CameraEngine.CameraPolicyEngine.ApplyToHeld` | src/aikey/aiport_camera_engine.py:269-295 | A held track is dropped, resolved, held on or confirmed as specified |
| `CameraEngine.CameraPolicyEngine.EnterEvent` | src/aikey/aiport_camera_engine.py:324-334 | The bookkeeping of an admitted event, on its camera alone |
| `CameraEngine.CameraPolicyEngine.DropOld` | src/aikey/aiport_camera_engine.py:245-249 | The loop drops exactly the times at the front that are not after the cutoff |
| `CameraEngine.CameraPolicyEngine.ObserveFrame` | src/aikey/aiport_camera_engine.py:196-255 | Malformed arguments raise before anything is looked at; otherwise a frame takes the steps of its changes until one raises, and returns what was decided or the error |
| `CameraEngine.CameraPolicyEngine.CloseAll` | src/aikey/aiport_camera_engine.py:172-177 | The loop closes the open events in the order of their track numbers |
| `CameraEngine.CameraPolicyEngine.ReplacePolicyOf` | src/aikey/aiport_camera_engine.py:156-194 | The same policy again changes nothing; another one closes every event and forgets every hold of this camera alone |
| `CameraEngine.CameraPolicyEngine.WatchHeld` | src/aikey/aiport_camera_engine.py:369-373 | Only a held track can be watched |
| `CameraEngine.CameraPolicyEngine.ReleaseHeld` | src/aikey/aiport_camera_engine.py:375-377 | A track is no longer watched |
| `CameraEngine.CameraPolicyEngine.VetoHeld` | src/aikey/aiport_camera_engine.py:379-383 | A held track is vetoed and no longer watched |
| `CameraEngine.CameraPolicyEngine.ConfirmHeld` | src/aikey/aiport_camera_engine.py:385-402 | A confirmation passes the same gates as any enter, and is nothing for a track that is not held or is vetoed |
| `CameraEngine.CameraPolicyEngine.ServeOne` | src/aikey/aiport_camera_engine.py:143-402 | Any call takes its steps on its own camera and the shared counts, leaves the other cameras, and an unknown camera changes nothing |
| `CameraEngine.CameraPolicyEngine.Serve` | src/aikey/aiport_camera_engine.py:83-141 | In any interleaving of calls each camera is in the state, and its caller was given the events, that its own calls alone come to; each count is the sum over the cameras |
| `Speech.FeedComposes` | src/aikey/aiport_audio.py:160-169 | Feeding two chunks is feeding their concatenation, edges and final state alike |
| `Speech.FramesCompose` | src/aikey/aiport_audio.py:160-169 | Reading whole frames in two parts is reading them at once |
| `Speech.ChunksDoNotMatter` | src/aikey/aiport_audio.py:160-169 | However a stream is cut into chunks the edges and the final state are the same |
| `Speech.SinceReset` | src/aikey/aiport_audio.py:155-169 | After a reset the detector does what one chunk of everything since would make it do, whatever came before |
| `Speech.FloorWithinLevels` | src/aikey/aiport_audio.py:180-184 | The noise floor stays within the range of the levels seen |
| `Speech.SilenceAddsNothing` | src/aikey/aiport_audio.py:189-190 | A frame that is not voiced never raises the number of voiced frames in the window |
| `Speech.HeardIsConsistent` | src/aikey/aiport_audio.py:185-204 | Each frame keeps the alternation, the voiced enters, the durations and the 90-second cap |
| `Speech.EventsAreWellFormed` | src/aikey/aiport_audio.py:123-132 | From a fresh or reset detector edges alternate, enters fall on voiced frames, closed events last the leave time, and none is open 90 seconds after its start |
| `SpeechAnswers.HeardMeans` | src/aikey/aiport_audio.py:171-204 | A frame is voiced if and only if its level is above the minimum and the margin over the floor and its sign changes are between 2 and 35 in a hundred; an event starts exactly with enough voiced frames in the window, ends exactly after the leave time without one or at 90 seconds, and every counter is told |
| `SpeechAnswers.SamplesMean` | src/aikey/aiport_audio.py:172-175 | A sample is two bytes, the low one first, in two's complement |
| `SpeechAnswers.CrossingsMean` | src/aikey/aiport_audio.py:178 | The crossings are the places where the sign changes |
| `SpeechAnswers.VoicesMean` | src/aikey/aiport_audio.py:194-196 | The sum over the window is the number of voiced frames in it |
| `SpeechAnswers.FeedOne` | src/aikey/aiport_audio.py:160-169 | Bytes that complete one frame are read as that frame; with the composition of chunks this fixes what any chunk does |
| `SpeechAnswers.FeedShort` | src/aikey/aiport_audio.py:160-169 | Bytes that complete no frame are kept and nothing else changes |
| `SpeechActivity.Activity.FeedBytes` | src/aikey/aiport_audio.py:160-169 | The loop over whole frames leaves the state and the edges of the specification, and keeps the rest of the bytes |
| `SpeechActivity.Activity.ReadFrame` | src/aikey/aiport_audio.py:171-204 | One frame changes window, floor, counters and event as `SpeechAnswers.HeardMeans` tells from its samples |
| `SpeechActivity.Activity.ResetState` | src/aikey/aiport_audio.py:155-158 | A reset forgets the window, the left-over bytes and the open event, and nothing else |
| `SpeechActivity.Activity.Serve` | src/aikey/aiport_audio.py:155-169 | Any sequence of chunks and resets leaves the state and gives the edges of the specification |
| `AdminSessions.TableIsLive` | src/aikey/admin_security.py:223-226 | The session table holds exactly the sessions that were issued, not revoked and not reached by a clock reading since |
| `AdminSessions.StepOfTable` | src/aikey/admin_security.py:165-285 | A session in the table after an operation was issued by it, or was there and was spared by it |
| `AdminSessions.AcceptedIffLive` | src/aikey/admin_security.py:260-285 | A cookie is accepted if and only if its times are right and its session is live |
| `AdminSessions.AcceptedWasIssued` | src/aikey/admin_security.py:241-258 | An accepted cookie is to the last field one that a login of this runtime returned |
| `AdminSessions.RevokedStaysOut` | src/aikey/admin_security.py:214-221 | A revoked cookie is never accepted again, at any time |
| `AdminSessions.ExpiredStaysOut` | src/aikey/admin_security.py:223-226 | A cookie whose expiry a look at the table has reached is never accepted again, even if the clock goes back |
| `AdminSessions.LoginsEvictNobody` | src/aikey/admin_security.py:241-245 | No login ends a session that has not expired |
| `AdminSessions.TablesAreBounded` | src/aikey/admin_security.py:295-299 | The session table stays within its limit, and no more than 1024 clients have a bucket |
| `AdminSessions.OnlyTheOldestIsTrimmed` | src/aikey/admin_security.py:295-299 | A bucket goes with its client's success, or as the oldest of a full table when a new client fails |
| `AdminSessions.RateLimitIsExact` | src/aikey/admin_security.py:165-182 | A login is refused for its rate when the failures since the last success fill the window, and not otherwise, give or take what the clock has gone back by; with a steady clock exactly then |
| `AdminSessions.LimitIsExactIffSteady` | src/aikey/admin_security.py:171-175 | The refusal counts exactly the failures of the last window in every run if and only if the clock never goes back or one attempt is allowed |
| `AdminSessions.DropOldCuts` | src/aikey/admin_security.py:171-173 | Of any queue, dropping old times takes off the front up to the first time after the cutoff |
| `AdminSessions.FailuresAreSpaced` | src/aikey/admin_security.py:171-177 | In every run, more failures than allowed take at least a window, less what the clock has gone back by |
| `AdminSessions.SpacingIsExact` | src/aikey/admin_security.py:171-177 | A gap separates more failures than allowed in every run whose clock goes back by at most `d` if and only if it is at most the window less `d`, or the window if one attempt is allowed |
| `AdminSessions.SpacingIsReached` | src/aikey/admin_security.py:171-177 | A run of wrong passwords that is spaced by no more than that |
| `AdminSessions.BucketIsKept` | src/aikey/admin_security.py:169-179 | In every run the queue is the failures but for the first ones, each of which a clock reading has passed by a window |
| `SessionAnswers.LoginMeans` | src/aikey/admin_security.py:165-188 | A login is refused for its origin, its rate, its password or for room, in this order, and otherwise issues a session of the full lifetime; the queue, the buckets and the sessions after it are told |
| `SessionAnswers.AuthorizeMeans` | src/aikey/admin_security.py:190-206 | A request is authorized if and only if its origin is right, its cookie is one of a session in the table within its lifetime and, to change anything, the form token is right; the three refusals are told the same way |
| `SessionAnswers.RevokeMeans` | src/aikey/admin_security.py:214-221 | Revoking succeeds if and only if the cookie is valid, and then that session and no other ends before its time |
| `SessionAnswers.IssuedMeans` | src/aikey/admin_security.py:241-258 | A session is issued if and only if fewer than the limit have not expired, and none of those is touched |
| `SessionAnswers.WithoutMeans` | src/aikey/admin_security.py:181-182 | Forgetting a client takes its bucket out of the order and moves no other |
| `AdminSecurity.Security.PruneSessions` | src/aikey/admin_security.py:223-226 | The loop removes exactly the sessions that have expired |
| `AdminSecurity.Security.Recent` | src/aikey/admin_security.py:171-173 | The loop drops exactly the attempts at the front that have left the window |
| `AdminSecurity.Security.TrimBuckets` | src/aikey/admin_security.py:295-299 | The loop drops the buckets created first, down to 1024 |
| `AdminSecurity.Security.CheckClaims` | src/aikey/admin_security.py:260-285 | The table is pruned whatever becomes of the cookie, and the answer is whether its claims hold |
| `AdminSecurity.Security.IssueSession` | src/aikey/admin_security.py:241-258 | A session is issued if there is room after pruning, and refused otherwise |
| `AdminSecurity.Security.LogIn` | src/aikey/admin_security.py:165-188 | A login leaves the two tables and gives the answer that `SessionAnswers.LogsIn` tells from the tables before |
| `AdminSecurity.Security.AuthorizeRequest` | src/aikey/admin_security.py:190-206 | A request is authorized exactly with the right origin, a valid session and, for a change, the form token; a wrong origin looks at nothing |
| `AdminSecurity.Security.RevokeSession` | src/aikey/admin_security.py:214-221 | Revoking ends the session of a valid cookie and nothing else |
| `AdminSecurity.Security.TokenFor` | src/aikey/admin_security.py:208-212 | A form token is given for a valid session only |
| `AdminSecurity.Security.Serve` | src/aikey/admin_security.py:165-226 | Any sequence of operations on the object leaves the tables and gives the answers of the run, so all of the above holds of the object |
| `PersonReport.BinsPartition` | tools/benchmark_person_report.py:65-74 | The ten bins take up every sample, and each once |
| `PersonReport.BinOf` | tools/benchmark_person_report.py:67 | A score lies in the tenth it is put in, and a certain score in the last |
| `PersonReport.BinsBelowDistances` | tools/benchmark_person_report.py:65-74 | Misses of opposite sign cancel within a bin only: the bins' distances add up to no more than the samples' |
| `PersonReport.CauchySchwarz` | tools/benchmark_person_report.py:86 | The square of the summed distances is at most the number of samples times their summed squares |
| `PersonReport.CalibrationWithinBrier` | tools/benchmark_person_report.py:65-87 | The calibration error lies in [0, 1] and its square is at most the Brier score of the same replies |
| `PersonReport.AllSlotBrier` | tools/benchmark_person_report.py:26-51 | Over all slots the Brier score is the valid one weighted by coverage, and one for the rest |
| `PersonReport.ConfusionRows` | tools/benchmark_person_report.py:20-21 | Every planned case is in one confusion cell, in the row of what was expected |
| `PersonReport.ConfusionColumns` | tools/benchmark_person_report.py:26-50 | The columns are the cases without a record, the errors and the valid replies |
| `PersonReport.ConfusionCells` | tools/benchmark_person_report.py:43-56 | The cells of the scored cases are the hits, the false alarms and the rejections |
| `PersonReport.SortedSorts` | tools/benchmark_person_report.py:62-63 | Sorting keeps the latencies and how many are at most, or below, any value |
| `PersonReport.NearestRank` | tools/benchmark_person_report.py:62-63 | A percentile is one of the latencies, as many are at most that as its rank says, and fewer are below it |
| `PersonReport.Rank` | tools/benchmark_person_report.py:62-63 | The rank is the share of the values rounded up, and between one and their number |
| `PersonReport.PercentilesAscend` | tools/benchmark_person_report.py:88-90 | A higher percentile is never a lower latency |
| `PersonSummary.BinsInRange` | tools/benchmark_person_report.py:69-74 | Each bin's mean score lies in the bin, and its observed fraction in [0, 1] |
| `PersonSummary.ReportsAreConsistent` | tools/benchmark_person_report.py:75-94 | All of these relations hold between the numbers of any report |
| `ReportAnswers.ReportMeans` | tools/benchmark_person_report.py:14-94 | Every number of a report told from the cases and the records: the counts and cells as numbers of cases, each rate by what it makes of its divisor, both scores and the calibration error as sums, the bins, and the percentiles |
| `ReportAnswers.CellsMean` | tools/benchmark_person_report.py:20-56 | A confusion cell is the number of cases of its label that came to its outcome |
| `ReportAnswers.LossMeans` | tools/benchmark_person_report.py:26-51 | The total loss is the sum over the cases of the squared miss, and one where there is no valid reply |
| `ReportAnswers.GroupMeans` | tools/benchmark_person_report.py:65-68 | The size, the scores and the truths of a bin are sums over the replies in its tenth |
| `ReportAnswers.BinsMean` | tools/benchmark_person_report.py:65-74 | The bins are those of the tenths with a reply, in order, and the calibration error adds up their gaps by their sizes |
| `ReportAnswers.PercentileMeans` | tools/benchmark_person_report.py:62-63 | A percentile is the latency of a case that ran, such that at least that share were no slower and less were faster |
| `PersonSummary.TallyCases` | tools/benchmark_person_report.py:26-51 | The pass over the cases counts each once and stops at the first record that fails an assertion |
| `PersonSummary.Calibrate` | tools/benchmark_person_report.py:65-74 | The pass over the bins finds the bins that hold samples and the calibration error |
| `PersonSummary.Summarize` | tools/benchmark_person_report.py:14-94 | A report comes out if and only if the cases are distinct and of both labels and every record is of one of them, untouched and with the prediction its score says; it is the one the slots come to, and its numbers are consistent |

## Left out

- The `pf-rdr` transport of the Apple host: only the mode without a transport is modelled, so at most three orders an instance rather than five.
- Container configuration, image, version and conflict checks, health reads and manifest rebuilding: each is a step that may succeed or raise.
- Start retries and deadlines of the operator: a deadline is one more reason for a step to raise, and waiting is time in which mutations land.
- Exceptions the operator does not handle, such as an interrupt: they are process deaths.
- `_execute` of the maintenance worker (processes, pipes, signals): it refuses, reports an outcome, or throws before or after starting the runbook.
- The reads of one worker call happen at one moment: a plan published after the call read the catalog, and requested before it lists the requests, would be rejected.
- Files of pending submissions in the request directory: the capacity check counts them too, which only refuses earlier.
- File modes, digests and byte limits of the maintenance files: a file is well-formed or not, a plan's digest matches or not.
- Decoding, thumbnails, prompts, crops, plates and scores of the detector: a frame is its reduced image, a reply is rejected or says whether it holds an accepted, a nearly accepted or no object.
- Building the request of the detector, and diagnostic counters and histories: they change neither the gate nor the pauses.
- Package close-up and plate requests to the same provider (`src/aikey/aiport_api_detection.py` lines 1342 and 1385): the bounds count primary detection requests only.
- The paid allowance itself (`aiport_event_budget.py`): its answers, and its errors, are inputs of each call.
- Detector calls at the same time on several threads: calls come one after the other, as the caller of one port makes them.
- `TemporalTracker` and `SmartPolicy`: the tracker may report any changes, and zones are looked up anew, with any result, for each change.
- Score and zone filters before the tracker, reverification counters and snapshots of the engine: they decide only what the tracker is shown.
- A policy made for another camera: it is refused like one that enables no kind.
- Event and package budgets as stores: their answers come with each sample, camera by camera.
- Password hashing, origins, signatures and form tokens: each is right or wrong; that a signature cannot be made without the key is taken for granted.
- Requests to the security object at the same time on several threads: its operations are taken one at a time.
- That identifiers drawn at random differ: `RevokedStaysOut` and `ExpiredStaysOut` hold as long as the identifier is not drawn again.
- Floating point: clock readings, scores, levels and overlaps are exact, except for the overflow of the provider's pause.
- The target thresholds of the benchmark and its file handling.
