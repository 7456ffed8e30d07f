# Ignis: models and proofs

Ignis schedules PHP fibers on top of a tokio reactor. Most of what can go wrong in it is bookkeeping:
small maps, counters and flags, changed by many hands, that must agree at every moment of every run. This
project models that bookkeeping and proves what it keeps.

| file | what it models |
|---|---|
| `Prelude.dfy` | options, repetition-free sequences |
| `Scheduler.dfy` | the userland loop, futures, the pool and cancellation, as functions on one state; user code is an arbitrary script of the scheduler's operations |
| `SchedulerSafety.dfy`, `SchedulerRuns.dfy`, `SchedulerSteps.dfy` | what each step, and each run, keeps |
| `Loop.dfy` | `Ignis\Loop` in its imperative form, proved equal to `Scheduler.dfy` step by step |
| `Admission.dfy` | the admission gate and its queue, as functions and as a class |
| `GracefulStop.dfy`, `Chronicle.dfy`, `Intake.dfy` | along every run: the gate inside the loop; for whom each job works, and waits that nothing but a throw can end; which polled requests reach the gate |
| `Backing.dfy` | what stands behind an unsettled result, an admission slot and a deadline, step by step |
| `SchedulerTheorems.dfy`, `Promises.dfy`, `Crossing.dfy` | the main results about the scheduler: safety, what those who wait may count on, and a run in which isolation fails |
| `Reactor.dfy`, `WatchCancel.dfy` | the reactor's threads, interleaving one shared access at a time, and what the answer to a cancellation promises |
| `Answers.dfy` | what the reactor owes its clients |
| `ParkRegistry.dfy`, `ParkTimeout.dfy` | fibers parked inside C calls: the registry, and the timeouts |
| `Superglobals.dfy`, `Scoped.dfy` | the two context swaps, each against a store with one row per owner |
| `Output.dfy` | streamed responses and captured output |
| `Watch.dfy`, `Reload.dfy` | the development reload: the waker, and the turns of the workers |
| `Proto.dfy` | the protobuf wire codec on 64-bit integers |
| `CoreCodec.dfy` | correlation with the Temporal core |
| `RevoltDriver.dfy` | the Revolt driver's one-shot watches |

`dafny verify dfyconfig.toml` checks all of it.

How the models read the source:

- Threads, tasks and callbacks are interleaved at each access to something they share (`Reactor`, `Watch`,
  `Reload`, `Output`); a schedule is any list of steps, and a statement about every schedule is proved by
  an invariant of single steps. A step that is not enabled when its turn comes does nothing.
- A Zend fiber is where its stack stands. What PHP code does between two suspensions is a script of
  scheduler operations; a script that runs out cuts the run there, so a statement about every script
  speaks of every finite prefix of every run.
- Clocks, kernel answers, the order of a hash map's entries and the timing of completions are inputs.
- A class carries the source's own fields; its methods are proved to step the value that the
  specification functions step, and the theorems are about those functions.

## Where the code falls short of its documentation

Each is proved; the theorem named says when it happens.

- `superglobals.rs:229` says the next switch to main restores the base globals after the owner of the
  installed view died. Lines 201-203 return first (`Superglobals.DeadViewStays`,
  `Superglobals.DeadViewIsReached`).
- A key missing from the base globals keeps the isolated fiber's value (`Superglobals.MissingKeyLeaks`).
- `Loop.php:148-156` is there to keep a disconnect on one request out of another's work. It can still get there.
  A child's fiber keeps its request's id in its scope when it returns to the pool
  (`SchedulerTheorems.PoolScopeExactly`), a job spawned after `leaveRequestScope()` belongs to no request
  and runs on such a fiber with that id (`SchedulerTheorems.ChildScopeOutlivesItsJob`), what it spawns is
  charged to the wrong request (`SchedulerTheorems.ChargedExactly`), and that request's cancellation is
  thrown into it (`Crossing.CancelledForAnother`). `SchedulerTheorems.CancellationReachesItsOwn` and
  `Chronicle.BeginExactly` say exactly what isolation takes.
- `ignis_poll` drops an error completion for a fiber that waits in userland
  (`SchedulerTheorems.CompletionIsHeardExactly`), which then waits for a cancellation
  (`SchedulerTheorems.DroppedErrorWaitsForAThrow`), and with it a Revolt watch, whose callback then waits
  until it is deactivated (`RevoltDriver.StrandedExactly`, `RevoltDriver.StrandedUntilDeactivated`). Nothing else
  strands a sleeper (`Promises.SleepersExactly`).
- A request whose cancellation is polled in the same batch never reaches the gate: both have the same key in
  `ignis_poll`'s array (`SchedulerTheorems.ReachesTheGateExactly`, `SchedulerTheorems.WithdrawnIsNeverSeen`).
- `module.rs:548` takes the order of a stream to be safe because an op is awaited before the next write. An
  exception thrown into that wait ends it early, and the next write can overtake the op
  (`Output.OrderExactly`, `Output.UninterruptedKeepsOrder`, `Output.OvertakenAfterInterrupt`).
- `end_reload` gives back a slot even when its caller held none, so more workers than the limit can be
  away (`Reload.ExactUnlessGivenAway`, `Reload.TwoAwayWithOneSlot`).
- `select` does not park again after a wake the kernel denies, as `poll` does
  (`ParkTimeout.SelectIsEarlyExactly`).
- A new fiber at the address of a dead one reads that one's scoped rows (`Scoped.ReusedAddressInherits`,
  `Scoped.ReuseIsReached`).
- An activation with a query behind another acknowledged request answers the query with the other's
  response (`CoreCodec.QueriesGetTheirOwnAnswer`, `CoreCodec.SignalAnswersTheQuery`).
- Field numbers outside 61 bits do not survive the protobuf codec (`Proto.FieldNumberSurvives`).

## Model

| member | source | states |
|---|---|---|
| `SchedulerTheorems.EveryTransferMatches` | php/packages/runtime/src/Loop.php:171-181 | over every run, a pool fiber is only resumed with a job, a fiber parked on an op only with that op's payload, a future's waiter only with null once it is settled, a C park only with one of its own ops, and a cancellation only reaches a parked fiber whose job is booked under that request; the `LogicException` of `nextJob` never happens |
| `SchedulerTheorems.CancellationReachesItsOwn` | php/packages/runtime/src/Loop.php:951-1012 | in every run in which no job spawned outside any request has begun on a fiber whose scope names a request it does not work for, a cancellation only ever reaches jobs that really work for the cancelled request |
| `SchedulerTheorems.EmptyScopesIsolate` | php/packages/runtime/src/Loop.php:951-1012 | the same under a condition on the scopes alone: no job spawned outside any request has begun on a fiber with anything in its scope |
| `SchedulerTheorems.ForeignThrowExactly` | php/packages/runtime/src/Loop.php:951-968 | a cancellation of r throws into a job that works for somebody else exactly if a fiber listed under r is parked with such a job |
| `Crossing.CancelledForAnother` | php/packages/runtime/src/Loop.php:832-846 | without that condition it fails: a run in which the cancellation of request 1 is thrown into a job that works for request 2, spawned by what request 2's producer spawned after its handler had returned |
| `Chronicle.BeginExactly` | php/packages/runtime/src/Loop.php:132-146 | beginning an assigned job keeps every fiber's scope and booking with the request its job works for exactly if the job belongs to a request, or the fiber's scope is empty or names the request the job works for |
| `Chronicle.TurnsTold` | php/packages/runtime/src/Loop.php:269-305 | any number of turns, whatever user code and completions do, keeps what isolation rests on, what stands behind futures, slots and deadlines, and what is known of a wait whose completion was dropped |
| `SchedulerTheorems.ExactlyOneReason` | php/packages/runtime/src/Loop.php:92-206 | whenever the loop has control, each fiber is named by exactly one of `$pending`, `$idle`, `$ready`, `$waiting`, a waiter list or the C park table |
| `SchedulerRuns.CancellationIsExact` | php/packages/runtime/src/Loop.php:951-1012 | a cancellation throws once into each parked fiber booked under that request, children in reverse spawn order and the parent last, whatever user code each throw sets off, and leaves every other fiber undisturbed |
| `SchedulerTheorems.StopDropsNothing` | php/packages/runtime/src/Loop.php:636-653 | when the stopping test holds, the request queue is empty, nothing holds a slot, every request dispatched to the gate is accounted for as rejected, dropped or handled, nothing is parked in C, and each fiber rests in the pool or awaits an unsettled future: one of user code, or the result of a job whose fiber awaits an unsettled future itself |
| `Promises.UnsettledExactly` | php/packages/runtime/src/Loop.php:132-146 | in every run, the result of a job is outstanding exactly as long as a fiber has the job, and no two fibers have it: nobody awaits a result that nobody can settle |
| `Promises.FinishSettles` | php/packages/runtime/src/Future.php:30-47 | the end of a job settles its result, and each fiber that awaited it is owed a wake-up |
| `Promises.SettleWakes` | php/packages/runtime/src/Future.php:30-47 | settling a user's future marks those who await it ready in the order they came, once |
| `Promises.SlotsExactly` | php/packages/runtime/src/Loop.php:667-755 | in every run, a request holds an admission slot exactly if a fiber handles it, and then exactly one does: a request admitted from the queue gets its handler, and a slot comes back with it |
| `Promises.CancellationReachesExactly` | php/packages/runtime/src/Loop.php:951-968 | in every run, of the fibers parked anywhere, the cancellation of a request that has its slot is offered to exactly those whose job is booked under it, its handler and every child |
| `Promises.DeadlineFires` | php/packages/runtime/src/Loop.php:442-446 | in every run, the completion of a deadline's op throws once into each parked fiber booked under the request that armed it, children in reverse spawn order before the handler, and into nobody else; and the op is no deadline again, however the run goes on |
| `Promises.DeadlinesExactly` | php/packages/runtime/src/Loop.php:1036-1066 | in every run, an op is a deadline of r exactly if r's last `deadline` call armed it and since then r has not ended and the op has not fired; no op is armed for two requests |
| `Promises.DeadlineArms` | php/packages/runtime/src/Loop.php:1036-1046 | `deadline` in a request's code arms one op that nothing else uses, in place of the former one, which it calls off, and disturbs no other deadline; outside a request it does nothing |
| `Promises.HandlerForgets` | php/packages/runtime/src/Loop.php:882-893 | a finished handler leaves no deadline, no children and no fiber of its request behind, and those of every other request as they were |
| `Promises.ChildLeaves` | php/packages/runtime/src/Loop.php:132-146 | a child that ends leaves its request's list; the others on it stay in their order |
| `Promises.LeavesTheQueue` | php/packages/runtime/src/Loop.php:951-957 | a request whose client leaves while it waits for a slot is never handled, in the rest of that batch or any turn after it |
| `Promises.SleepersExactly` | crates/ignis/src/php/module.rs:213-230 | in every run of completed turns, the completion of an op that a fiber sleeps on in userland is still to come exactly unless it was an error: a success always wakes its fiber |
| `Promises.TurnServesEverybody` | php/packages/runtime/src/Loop.php:329-358 | in every run, a turn that user code lets finish starts every pending fiber and resumes every ready one, each with its own entry, in the order of the queues, the pending ones first |
| `Promises.SubmitsLive` | php/packages/runtime/src/Loop.php:636-653 | an op that user code submits, awaited or not, is in flight until it completes, and the loop does not stop before |
| `Promises.LeaveScopeDetaches` | php/packages/runtime/src/Loop.php:832-835 | leaving the scope takes the code of a handler out of its request, and changes nothing for anybody else |
| `Promises.SpawnListsLast` | php/packages/runtime/src/Loop.php:184-206 | what running code spawns is charged to the request in its scope, last among its children, and works for whom the spawner works; with nothing in scope it is nobody's child |
| `Backing.FinishBacked` | php/packages/runtime/src/Loop.php:132-146 | the end of a job leaves behind each unsettled result the fiber that has its job, behind each slot its handler, behind each deadline the call that armed it, and each child and begun handler in the books |
| `Backing.ReleaseBacked` | php/packages/runtime/src/Loop.php:735-755 | giving a slot back leaves every other slot, those granted from the queue included, with a handler other than the fiber that gives it back |
| `Chronicle.CancelTold` | php/packages/runtime/src/Loop.php:951-968 | a cancellation, with all the user code it sets off, keeps all of that, and what isolation rests on |
| `SchedulerTheorems.ReachesTheGateExactly` | crates/ignis/src/php/module.rs:195-262 | over every run of completed turns, the requests that reach the gate are exactly those polled without their cancellation behind them in the same batch |
| `SchedulerTheorems.WithdrawnIsNeverSeen` | crates/ignis/src/php/module.rs:238-258 | such a run for any code: a request and its disconnect in one batch, polled, never dispatched, and the stopping test holds |
| `SchedulerTheorems.StopDropsNoDelivery` | php/packages/runtime/src/Loop.php:624-653 | with the count read off the reactor, under every schedule of its threads: when the test holds, every request ever handed to the reactor was polled, and unless its cancellation was polled behind it in the same batch it was dispatched and was rejected, dropped or handled |
| `Intake.PolledIds` | crates/ignis/src/php/module.rs:195-262 | after polling a batch, the event array holds exactly the requests without a cancellation behind them |
| `Intake.PutExactly` | crates/ignis/src/php/module.rs:238-258 | writing a cancellation under its id takes that request out of the event array and no other |
| `Intake.DispatchedIds` | php/packages/runtime/src/Loop.php:431-457 | dispatching shows the gate exactly the requests in the event array |
| `SchedulerTheorems.ReachedIsSafe` | php/packages/runtime/src/Loop.php:269-305 | all tables and the gate keep their invariants after any number of turns, for any user code and any completions |
| `SchedulerTheorems.LaunchIsSafe` | php/packages/runtime/src/Loop.php:184-206 | spawning any number of jobs before the loop starts keeps the invariants |
| `SchedulerTheorems.ErrorCompletionStrandsUserlandWaiter` | crates/ignis/src/php/module.rs:218-230 | an error completion for a fiber waiting in userland resumes nobody and is listed nowhere: the entry stays in `$waiting` and no later completion of that op can come; a success is delivered |
| `SchedulerTheorems.DroppedErrorWaitsForAThrow` | crates/ignis/src/php/module.rs:218-230 | over the rest of the turn and any number of turns after such an error, the fiber stays where it is, its entry stays in `$waiting` and the stopping test fails, until and only until a cancellation of a request its job is booked under throws into it; then the entry is gone for good |
| `SchedulerTheorems.CompletionIsHeardExactly` | crates/ignis/src/php/module.rs:213-230 | a completion somebody waits for reaches the fiber or the event array exactly if it is a success or the fiber is parked in C |
| `SchedulerTheorems.RunningScope` | php/packages/runtime/src/Loop.php:236-242 | in every run, the `ignis.request` scope of running code is its own request's id or nothing in a handler, the request it was spawned for in a child, and in any other job exactly what the job before it left on the fiber |
| `SchedulerTheorems.PoolScopeExactly` | php/packages/runtime/src/Loop.php:132-146 | a fiber goes back to the pool with an empty scope if it handled a request, with its request's id if it was a child, and otherwise with what it had found |
| `SchedulerTheorems.ChargedExactly` | php/packages/runtime/src/Loop.php:184-206 | in every run, a spawned job works for whom its spawner works, and is charged to another request exactly if the spawner handles no request itself and inherited another's id, from its own booking or from the job before it on the fiber |
| `SchedulerTheorems.ChildScopeOutlivesItsJob` | php/packages/runtime/src/Loop.php:132-146 | a child's fiber returns to the pool with its request's id in its scope: the next job that belongs to no request runs there with that id, and what it spawns is listed among that request's children |
| `SchedulerTheorems.HandlerLeavesNoScope` | php/packages/runtime/src/Loop.php:882-893 | a request's own fiber returns to the pool with an empty scope |
| `SchedulerSafety.SpawnKeeps` | php/packages/runtime/src/Loop.php:184-206 | spawning keeps all tables consistent, whether the pool is reused or a fiber is created |
| `SchedulerSafety.ParkOnKeeps` | php/packages/runtime/src/Loop.php:92-101 | parking on an op keeps all tables consistent |
| `SchedulerSafety.AwaitKeeps` | php/packages/runtime/src/Future.php:68-85 | awaiting a future keeps all tables consistent, and suspends the fiber, listed among the waiters, exactly if the future is not settled |
| `SchedulerSafety.ParkInCKeeps` | crates/ignis/src/php/wait.rs:71-93 | parking in C on several ops keeps all tables consistent |
| `SchedulerSafety.SettleKeeps` | php/packages/runtime/src/Future.php:30-47 | settling a future of user code keeps all tables consistent: its waiters are owed null and listed in `$ready`, each once |
| `SchedulerSafety.ArmKeeps` | php/packages/runtime/src/Loop.php:1036-1046 | arming a deadline keeps all tables consistent, `$deadlines` and `$deadlineOf` inverse among them |
| `SchedulerSafety.ReleaseKeeps` | php/packages/runtime/src/Loop.php:882-893 | forgetting the request and admitting from the queue keeps all tables consistent, the fiber on its job and out of the request's entry |
| `SchedulerSafety.FinishKeeps` | php/packages/runtime/src/Loop.php:132-146 | finishing a job, a request's handler included, settles its result, puts the fiber last into the pool without a job, and keeps all tables consistent: no request still lists the fiber when the pool can hand it out again |
| `SchedulerSafety.UserKeeps` | php/packages/runtime/src/Loop.php:132-146 | any sequence of the scheduler's operations performed by user code keeps all tables consistent |
| `SchedulerSafety.StartKeeps` | php/packages/runtime/src/Loop.php:329-341 | the first pending entry is a known fiber with a job; starting it keeps all tables consistent and it runs |
| `SchedulerSafety.TakeJobKeeps` | php/packages/runtime/src/Loop.php:344-358 | resuming a pool fiber from `$ready` hands it the job assigned to it, keeps all tables consistent, and it runs |
| `SchedulerSafety.WakeWaiterKeeps` | php/packages/runtime/src/Loop.php:344-358 | any other entry of `$ready` wakes a waiter of a settled future, keeps all tables consistent, and it runs |
| `SchedulerSafety.LeaveOpKeeps` | php/packages/runtime/src/Loop.php:92-101 | leaving a userland park, by completion or throw, with the fiber taken out of both tables, keeps all of them consistent |
| `SchedulerSafety.LeaveCKeeps` | crates/ignis/src/php/wait.rs:71-111 | leaving a C park, with every op of the await taken out of the table, keeps all of them consistent |
| `SchedulerRuns.UserUndisturbed` | php/packages/runtime/src/Loop.php:132-146 | user code changes where no other fiber stands and whose job it has, and transfers no control itself |
| `SchedulerRuns.ThrowIntoEffect` | php/packages/runtime/src/Loop.php:991-1012 | one `throwInto` throws exactly if the fiber is parked on an op or in C, and disturbs no other fiber |
| `SchedulerRuns.ThrowAllEffect` | php/packages/runtime/src/Loop.php:951-968 | the walk over the snapshot throws once into each fiber that is parked when its turn comes, in order, however the throws before it changed the pool |
| `SchedulerRuns.PollOneKeeps` | crates/ignis/src/php/module.rs:195-262 | routing one completion keeps all tables consistent |
| `SchedulerRuns.DispatchOneKeeps` | php/packages/runtime/src/Loop.php:431-457 | dispatching one event keeps all tables consistent |
| `SchedulerRuns.TurnsKeep` | php/packages/runtime/src/Loop.php:269-305 | any number of turns keeps all tables consistent |
| `GracefulStop.TurnsGate` | php/packages/runtime/src/Loop.php:667-755 | along every run each handler holds a slot, no two handle the same request, no request that has ended holds one, and the gate's own invariants hold |
| `GracefulStop.CancelGate` | php/packages/runtime/src/Loop.php:951-968 | a cancellation, with all the user code it sets off, leaves each handler with a slot of its own |
| `Loop.Loop.Place` | php/packages/runtime/src/Loop.php:193-200 | takes the last parked pool fiber, or creates one |
| `Loop.Loop.Spawn` | php/packages/runtime/src/Loop.php:184-206 | steps the whole state exactly as spawning does, and returns the new future |
| `Loop.Loop.ListChild` | php/packages/runtime/src/Loop.php:201-203 | lists the fiber under its request once, keeping the spawn order |
| `Loop.Loop.ParkOn` | php/packages/runtime/src/Loop.php:92-101 | registers the fiber under the op in both arrays and suspends it |
| `Loop.Loop.AwaitFuture` | php/packages/runtime/src/Future.php:68-85 | appends the fiber to the waiters unless the future is settled |
| `Loop.Loop.SettleFuture` | php/packages/runtime/src/Future.php:30-47 | marks the waiters ready one by one in the order they came, then forgets them; a settled future is left alone |
| `Loop.Loop.DisarmDeadline` | php/packages/runtime/src/Loop.php:1058-1066 | removes the request's deadline from both arrays |
| `Loop.Loop.Deadline` | php/packages/runtime/src/Loop.php:1036-1046 | replaces the request's deadline |
| `Loop.Loop.ReleaseRequest` | php/packages/runtime/src/Loop.php:882-893 | drops the request's fiber-scoped state and admits from the queue |
| `Loop.Loop.AdmitAll` | php/packages/runtime/src/Loop.php:713-755 | spawns the admitted requests in order |
| `Loop.Loop.Retire` | php/packages/runtime/src/Loop.php:132-146 | takes the child off its request's list and appends the fiber to the pool |
| `Loop.Loop.FinishJob` | php/packages/runtime/src/Loop.php:132-146 | the end of one job in `poolBody` |
| `Loop.Loop.LeaveRequestScope` | php/packages/runtime/src/Loop.php:832-835 | empties the scope of a fiber that handles a request, and of no other |
| `Loop.Loop.Perform` | php/packages/runtime/src/Loop.php:132-146 | one operation of user code |
| `Loop.Loop.RunUser` | php/packages/runtime/src/Loop.php:132-146 | user code until it suspends, and the invariant is kept |
| `Loop.Loop.Begin` | php/packages/runtime/src/Loop.php:847-859 | a job starts with its request's id in scope, a handler registered as its request's fiber |
| `Loop.Loop.Enter` | php/packages/runtime/src/Loop.php:847-859 | registers the fiber by which a cancellation finds the request |
| `Loop.Loop.Unwind` | php/packages/runtime/src/Loop.php:92-101 | the `finally` of the park removes its own entries |
| `Loop.Loop.Resume` | php/packages/runtime/src/Loop.php:344-358 | what each kind of suspended fiber does with the value |
| `Loop.Loop.Start` | php/packages/runtime/src/Loop.php:329-341 | starts a fresh fiber with its job |
| `Loop.Loop.StartPending` | php/packages/runtime/src/Loop.php:329-341 | batch by batch, equals taking the pending fibers from one queue |
| `Loop.Loop.ResumeReady` | php/packages/runtime/src/Loop.php:344-358 | swapping the array per batch resumes in the order of one first-in-first-out queue, entries added meanwhile last |
| `Loop.Loop.FindWaiter` | php/packages/runtime/src/Loop.php:1003-1010 | the scan finds the one op the fiber waits for, whatever the order |
| `Loop.Loop.FindParked` | crates/ignis/src/php/wait.rs:144-169 | whether the C table holds the fiber |
| `Loop.Loop.ThrowAndAbsorb` | php/packages/runtime/src/Loop.php:975-984 | takes the op out of `$waiting`, throws and lets the fiber run |
| `Loop.Loop.ThrowInto` | php/packages/runtime/src/Loop.php:991-1012 | throws where the loop or the C side finds the fiber parked, and nowhere else |
| `Loop.Loop.ThrowEach` | php/packages/runtime/src/Loop.php:956-961 | the walk over the snapshot of children |
| `Loop.Loop.CancelRequest` | php/packages/runtime/src/Loop.php:951-968 | queued: remembered; then the children in reverse, then the fiber that was the request's at the start |
| `Loop.Loop.ResumeParked` | crates/ignis/src/php/wait.rs:127-137 | removes the op, hands over the payload and lets the fiber run |
| `Loop.Loop.PollOne` | crates/ignis/src/php/module.rs:213-262 | resumes a C-parked fiber on the spot, drops an error nobody in C waits for, lists the rest by id |
| `Loop.Loop.Poll` | crates/ignis/src/php/module.rs:195-262 | all completions in order |
| `Loop.Loop.Deliver` | php/packages/runtime/src/Loop.php:449-455 | resumes the fiber the op is for |
| `Loop.Loop.DispatchRequest` | php/packages/runtime/src/Loop.php:667-679 | admits, queues or sheds one request |
| `Loop.Loop.DispatchOne` | php/packages/runtime/src/Loop.php:431-457 | one event: a deadline cancels, a waited-for op resumes, a request is dispatched, a disconnect cancels |
| `Loop.Loop.DispatchEvents` | php/packages/runtime/src/Loop.php:431-457 | all events in order |
| `Loop.Loop.RunTurn` | php/packages/runtime/src/Loop.php:269-305 | one pass of the loop is one turn of the specification |
| `Loop.Loop.Run` | php/packages/runtime/src/Loop.php:269-305 | any number of passes keeps the invariant and equals the specification's turns |
| `SchedulerSteps.StartFirstProgress` | php/packages/runtime/src/Loop.php:329-341 | taking a pending entry always makes progress, so the loop starts them all |
| `SchedulerSteps.ResumeFirstProgress` | php/packages/runtime/src/Loop.php:344-358 | taking a ready entry always makes progress, so the loop resumes them all |
| `SchedulerSteps.WaitingIsUnique` | php/packages/runtime/src/Loop.php:1003-1010 | a fiber waits for at most one op, so the scan's order does not matter |
| `SchedulerSteps.WalkStep` | php/packages/runtime/src/Loop.php:956-961 | after one throw the fibers still to come are as legitimately reachable as before |
| `Admission.AdmissionIsSafe` | php/packages/runtime/src/Loop.php:667-755 | after any arrivals, disconnects and finishes: a positive budget bounds the non-exempt requests in flight, nobody waits while there is room, remembered cancellations are for waiting ids, and arrived = rejected + queued + dropped + in flight + handled |
| `Admission.NoOvertaking` | php/packages/runtime/src/Loop.php:713-755 | requests are decided in arrival order, each admitted exactly if its client was still there at its turn |
| `Admission.AcceptedInArrivalOrder` | php/packages/runtime/src/Loop.php:667-695 | what the gate accepted is what the events brought, in their order |
| `Admission.IdleGateIsEmpty` | php/packages/runtime/src/Loop.php:636-653 | with nothing in flight the queue is empty |
| `Admission.ShedsExactly` | php/packages/runtime/src/Loop.php:682-695 | over any run, an arrival is shed exactly if it is bound by the budget, the slots in use fill it, and as many requests wait as may |
| `Admission.GivenUpHoldsNothing` | php/packages/runtime/src/Loop.php:713-732 | a request whose client left while it waited holds no slot, then or later |
| `Admission.DrainKeeps` | php/packages/runtime/src/Loop.php:713-732 | draining keeps every invariant of the gate and stops only without room or without waiting requests |
| `Admission.RequestGate.IsExempt` | php/packages/runtime/src/Loop.php:698-706 | exactly the uris that begin with an exempt prefix |
| `Admission.RequestGate.QueueRequest` | php/packages/runtime/src/Loop.php:682-695 | sheds at the queue's depth, otherwise appends and counts |
| `Admission.RequestGate.DispatchRequest` | php/packages/runtime/src/Loop.php:667-679 | the verdict and the new state are those of the specification's arrival |
| `Admission.RequestGate.AdmitRequest` | php/packages/runtime/src/Loop.php:735-755 | counts the request in flight and spawns its handler |
| `Admission.RequestGate.CancelQueued` | php/packages/runtime/src/Loop.php:951-957 | remembers a disconnect only for an id that waits |
| `Admission.RequestGate.TakeSlot` | php/packages/runtime/src/Loop.php:716-727 | reads one slot: drops the cancelled, admits the others |
| `Admission.RequestGate.DrainQueue` | php/packages/runtime/src/Loop.php:713-732 | admits in queue order while there is room, through the head index |
| `Admission.RequestGate.Compact` | php/packages/runtime/src/Loop.php:728-731 | emptying the array loses nothing that waits |
| `Admission.RequestGate.ReleaseRequest` | php/packages/runtime/src/Loop.php:882-893 | returns the slot and drains |
| `Reactor.EveryCompletionOnce` | crates/ignis/src/reactor.rs:203-271 | under every interleaving nothing is announced twice or without having been counted, and inflight = still owed + in the channel + drained by the poll under way |
| `Reactor.SubtractionIsExact` | crates/ignis/src/reactor.rs:550-556 | the saturating subtraction of `poll` never saturates |
| `Reactor.NothingIsLost` | crates/ignis/src/reactor.rs:203-271 | once no thread has anything left to announce, every op, request and cancellation counted has been announced exactly once, whoever won its race |
| `Reactor.ZeroMeansEmpty` | crates/ignis/src/reactor.rs:520-526 | a count of zero means nobody owes anything and the channel is empty, so the early return of `poll` misses nothing |
| `Reactor.RequestBeforeCancel` | crates/ignis/src/reactor.rs:383-396 | each cancellation follows its request in the channel |
| `Reactor.AnsweredIsFinal` | crates/ignis/src/reactor.rs:365-396 | an id whose answer has left the map is never cancelled afterwards |
| `Reactor.AnsweredIsNeverCancelled` | crates/ignis/src/reactor.rs:365-396 | over any further schedule an answered request is never cancelled |
| `Reactor.LeavingIsCancelled` | crates/ignis/src/reactor.rs:390-396 | over any further schedule a client that leaves before its answer is cancelled: the answer is gone for good, and its canceller announces it |
| `Reactor.StepKeepsOp` | crates/ignis/src/reactor.rs:215-271 | each step of any thread conserves the op's one token: one holder, or announced once |
| `WatchCancel.CancelledIsSettled` | crates/ignis/src/reactor.rs:257-271 | under every schedule, once the cancellation of an earlier timer or watch has been announced, that one has been claimed, and so announced, or is at the swap that claims it; unless it ran its course by itself it has been aborted |
| `WatchCancel.StaleEntryIsLate` | crates/ignis/src/reactor.rs:226-233 | under every schedule, the entry of a task past its await that is still in the map is one that was put in after the task had taken it out |
| `WatchCancel.StaleEntryIsReached` | crates/ignis/src/reactor.rs:226-233 | such a run: a timer announced before its entry is put in, which stays |
| `Reactor.ClaimOp` | crates/ignis/src/reactor.rs:261-269 | the canceller's swap conserves the op's token: it becomes the holder exactly where the task stops being one |
| `Reactor.SwapOp` | crates/ignis/src/reactor.rs:226-240 | the task's swap conserves the op's token, whether it wins or finds the flag set |
| `Reactor.StepKeepsTasks` | crates/ignis/src/reactor.rs:187-206 | an aborted task is unclaimed only while its canceller is about to swap, and a task that lost its flag before it ran its course has been aborted |
| `Reactor.StepKeepsRequest` | crates/ignis/src/reactor.rs:329-350 | each delivery and each cancellation is counted before it is announced, and announced once |
| `Reactor.StepKeepsCounts` | crates/ignis/src/reactor.rs:290-318 | inflight is what was counted less what `poll` has returned |
| `Reactor.RunKeeps` | crates/ignis/src/reactor.rs:203-318 | every schedule keeps all of it |
| `Watch.OneWaker` | crates/ignis/src/watch.rs:135-169 | at most one waker is in its loop, and an unseen save always has a waker, a handler or a re-check left to see it |
| `Watch.NoSaveIsLost` | crates/ignis/src/watch.rs:84-169 | when all handlers and tasks are done, LAST_EVENT is 0, the flag is clear and every save was followed by a bump of GENERATION |
| `Watch.BumpHasSettled` | crates/ignis/src/watch.rs:148-155 | GENERATION is bumped only by one that found the newest save at least the settle time old, and took it while it was still the newest |
| `Watch.EachBumpWakes` | crates/ignis/src/watch.rs:155-158 | when all handlers and tasks are done, everybody has been woken once for each bump |
| `Watch.IdleWakerStops` | crates/ignis/src/watch.rs:143-147 | a waker that finds no save gives the flag back and is gone |
| `Watch.HolderStep` | crates/ignis/src/watch.rs:135-169 | WAKE_SCHEDULED is set exactly while one process holds it |
| `Watch.CoveredStep` | crates/ignis/src/watch.rs:84-98 | each step keeps somebody on the way for a save not yet seen |
| `Watch.OwedStep` | crates/ignis/src/watch.rs:150-158 | each step keeps a save without a bump behind it in LAST_EVENT, or in the hands of a process about to bump |
| `Reload.NoLostTurn` | crates/ignis/src/watch.rs:188-211 | a registered worker with old code asleep on an empty channel has a wake coming, or every slot is taken |
| `Reload.CounterInRange` | crates/ignis/src/watch.rs:188-192 | RELOADING stays within 0..limit |
| `Reload.ExactUnlessGivenAway` | crates/ignis/src/watch.rs:206-211 | RELOADING counts the workers away until, and exactly until, a worker that holds no slot boots while one is taken |
| `Reload.AtMostLimitAway` | crates/ignis/src/watch.rs:188-211 | as long as that does not happen at most `limit` workers are away at once |
| `Reload.TwoAwayWithOneSlot` | crates/ignis/src/watch.rs:206-211 | with one slot, a worker booting while another reloads lets a second one go |
| `Reload.OneResetPerGeneration` | crates/ignis/src/watch.rs:181-184 | resets are granted for strictly growing generations, however the claims interleave |
| `Reload.RestStep` | crates/ignis/src/http.rs:179-185 | each step keeps the reason why a worker may rest |
| `Superglobals.CleanExactly` | crates/ignis/src/php/superglobals.rs:45-236 | the lazy swap follows one row per owner over an event exactly when the event installs no row with a key missing from it and destroys no view in use (unless it equals the base row) |
| `Superglobals.CleanRunsRefine` | crates/ignis/src/php/superglobals.rs:45-236 | over every clean run the symbol table is the installed view's row and all other rows are saved |
| `Superglobals.OrdinaryIsClean` | crates/ignis/src/php/superglobals.rs:151-165 | with all four keys in the base view, code that unsets none and destroys no view in use only produces clean events |
| `Superglobals.SwitchShowsOwnRow` | crates/ignis/src/php/superglobals.rs:180-215 | after a clean run a switch shows {main} the base row and an isolated fiber its own |
| `Superglobals.OnlyOwnWrites` | crates/ignis/src/php/superglobals.rs:180-215 | after any clean run, a fiber's row, in its slot, stays what it is over any further clean events that neither bring its view back nor set or destroy it |
| `Superglobals.MainRowStays` | crates/ignis/src/php/superglobals.rs:180-215 | while a fiber's view is installed no clean event changes {main}'s row, the switch back included |
| `Superglobals.InstallIsExact` | crates/ignis/src/php/superglobals.rs:151-165 | installing reproduces a row exactly when every key it misses is missing from the table too |
| `Superglobals.DeadViewStays` | crates/ignis/src/php/superglobals.rs:217-236 | after the owner of the installed view dies, {main} keeps reading its globals, and the next isolation makes them the base row |
| `Superglobals.DeadViewIsReached` | crates/ignis/src/php/superglobals.rs:217-236 | such a run for any globals: {main} reads what the dead fiber had set, where the store has its own row |
| `Superglobals.MissingKeyLeaks` | crates/ignis/src/php/superglobals.rs:151-165 | after any clean run, the switch back gives {main} its own globals exactly if no key it lacks is set, and each such key keeps the fiber's value |
| `Superglobals.Superglobals.Snapshot` | crates/ignis/src/php/superglobals.rs:132-147 | copies all four entries |
| `Superglobals.Superglobals.InstallRow` | crates/ignis/src/php/superglobals.rs:151-165 | overwrites the entries the row has and no others |
| `Superglobals.Superglobals.SaveCurrentView` | crates/ignis/src/php/superglobals.rs:45-73 | the table goes to its owner's slot or to BASE |
| `Superglobals.Superglobals.IsolateCurrent` | crates/ignis/src/php/superglobals.rs:76-96 | a fiber's first call saves the current view and makes it an owner; {main} never becomes one |
| `Superglobals.Superglobals.SetSuperglobals` | crates/ignis/src/php/superglobals.rs:269-286 | isolates, then installs the four arrays |
| `Superglobals.Superglobals.OnSwitch` | crates/ignis/src/php/superglobals.rs:180-199 | swaps only when the owner changes |
| `Superglobals.Superglobals.OnSwitchToMain` | crates/ignis/src/php/superglobals.rs:200-212 | restores BASE unless the base view is installed |
| `Superglobals.Superglobals.OnDestroy` | crates/ignis/src/php/superglobals.rs:217-236 | drops the slot, and the view's owner with it |
| `Scoped.CleanExactly` | crates/ignis/src/php/scoped.rs:129-292 | the table swap follows one row per scope and object over an event exactly when no live object is unsealed and the context address has no rows left on it |
| `Scoped.CleanRunsRefine` | crates/ignis/src/php/scoped.rs:129-292 | over every clean run each scope reads what the store holds for it |
| `Scoped.SwitchExactly` | crates/ignis/src/php/scoped.rs:189-224 | the same for one switch |
| `Scoped.ClearExactly` | crates/ignis/src/php/scoped.rs:233-268 | the same for one clear |
| `Scoped.OthersCannotWrite` | crates/ignis/src/php/scoped.rs:189-292 | after any clean run, the row a scope has of an object stays what it is over any further clean events in which the scope does not run, unless object or scope ends or row zero is sealed anew |
| `Scoped.FirstSwitchInherits` | crates/ignis/src/php/scoped.rs:213-219 | after any clean run, a scope that switches in and has no row of an object finds row zero on it |
| `Scoped.ClearRestoresRowZero` | crates/ignis/src/php/scoped.rs:233-268 | after a clear the scope reads row zero as of the clear |
| `Scoped.ReusedAddressInherits` | crates/ignis/src/php/scoped.rs:189-224 | a new fiber at a used context address reads its predecessor's row instead of row zero |
| `Scoped.ReuseIsReached` | crates/ignis/src/php/scoped.rs:189-224 | such a run for any values: the second fiber at the address reads what the first had written |
| `Scoped.Objects.Seal` | crates/ignis/src/php/scoped.rs:163-181 | row zero takes what the object holds now |
| `Scoped.Objects.OnSwitch` | crates/ignis/src/php/scoped.rs:189-224 | walking the live objects in any order moves all of them |
| `Scoped.Objects.SwitchObject` | crates/ignis/src/php/scoped.rs:199-221 | one object's rows change places, no other row does |
| `Scoped.Objects.RowsClear` | crates/ignis/src/php/scoped.rs:233-268 | all live objects go back to row zero and the scope's tables are gone |
| `Scoped.Objects.FreeObj` | crates/ignis/src/php/scoped.rs:275-292 | nothing of a dead object remains |
| `Output.NothingLostOrDoubled` | crates/ignis/src/php/output.rs:135-161 | whatever interrupts the fiber and however the ops' tasks run: for a client that reads, each chunk the runtime took is with the client, in the channel or with one op, once, and with what the fiber holds they are what was written |
| `Output.NobodyAwaitsNothing` | crates/ignis/src/php/module.rs:545-567 | over every run, a fiber that awaits an op awaits one whose task has not ended, whether the client reads on or has gone |
| `Output.OrderExactly` | crates/ignis/src/php/module.rs:551-567 | while the client reads, an event keeps the frames in the order they were written exactly if a chunk enters the channel only with no op short of the queue or holding a permit, and ops ask and use their permits in the order they were submitted |
| `Output.StreamIsExact` | crates/ignis/src/php/output.rs:135-161 | over every run whose events keep the order, received ++ channel ++ ops ++ bytes in hand ++ pending is exactly what was written; a client that left had read a prefix |
| `Output.UninterruptedKeepsOrder` | crates/ignis/src/php/module.rs:545-567 | every run in which no exception interrupts a wait for an op is such a run, however tasks and client interleave |
| `Output.OvertakenAfterInterrupt` | crates/ignis/src/php/module.rs:545-567 | a run with one interrupted wait in which the client receives the third byte before the second |
| `Output.HeadOnceAndFirst` | crates/ignis/src/php/output.rs:59-72 | status and headers go out at most once and before the first byte |
| `Output.BodyEndsOnce` | php/packages/runtime/src/Loop.php:902-941 | a whole response exactly if no frame was ever pushed, and then nothing was written; otherwise the end of a stream that carries every chunk once, and in order where every event kept it |
| `Output.EmptyWriteCommits` | crates/ignis/src/php/output.rs:275-305 | an empty `ignis_stream_write` already sends the head, so a later failure can only truncate |
| `Output.PushMoves` | crates/ignis/src/php/output.rs:56-79 | a push puts the frame at the end of the channel if a permit is free and hands it back whole if not, and opens the response first |
| `Output.EchoKeeps` | crates/ignis/src/php/output.rs:135-161 | an echo loses and doubles nothing: its bytes are pushed with what was pending, or pending |
| `Output.WriteKeeps` | crates/ignis/src/php/output.rs:275-305 | a write sends what was echoed before it first |
| `Output.SendHandKeeps` | crates/ignis/src/php/module.rs:551-567 | the fast and the slow path of `send_chunk` lose and double nothing |
| `Output.UnbindKeeps` | crates/ignis/src/php/output.rs:343-366 | unbinding loses nothing: the tail is what did not fit |
| `Output.AskExactly` | crates/ignis/src/php/module.rs:560-566 | an op's task that asks for a permit goes straight into the channel or queues; the order stays exactly if it is the first submitted and, going straight in, passes no granted op |
| `Output.PlaceExactly` | crates/ignis/src/php/module.rs:560-566 | an op that uses its permit keeps the order exactly if it was granted first |
| `Output.TaskKeeps` | crates/ignis/src/php/module.rs:560-566 | the tasks and the reading client lose and double nothing |
| `Output.CapturesDoNotMix` | crates/ignis/src/php/output.rs:213-241 | however fibers interleave, each one's capture buffers hold what its own calls alone would leave |
| `Output.TakeMatchesStart` | crates/ignis/src/php/output.rs:213-241 | a take gives back exactly what was written since the matching start, nested captures left out, and the outer captures as they were |
| `Output.Stream.OfferChunk` | crates/ignis/src/php/output.rs:56-79 | the frame enters the channel exactly if the stream is there and a permit is free, and comes back exactly for want of one |
| `Output.Stream.PushFrame` | crates/ignis/src/php/output.rs:56-79 | one push, as specified |
| `Output.Stream.PushHeld` | crates/ignis/src/php/output.rs:135-161 | what is pending goes out as one frame, or stays pending |
| `Output.Stream.UbWrite` | crates/ignis/src/php/output.rs:135-161 | an empty string does nothing; a full buffer is pushed |
| `Output.Stream.Flush` | crates/ignis/src/php/output.rs:250-262 | pushes what is pending, if anything |
| `Output.Stream.StreamWrite` | crates/ignis/src/php/output.rs:275-305 | pending and new bytes go out as one frame |
| `Output.Stream.SendChunk` | crates/ignis/src/php/module.rs:551-567 | 0 taken, an op to await if the channel is full, -1 if the stream is gone |
| `Output.Stream.StreamUnbind` | crates/ignis/src/php/output.rs:343-366 | the tail is what did not fit, and whether the head went out |
| `Output.Stream.EndStream` | php/packages/runtime/src/Loop.php:902-941 | nothing started: an ordinary response; otherwise the stream ends |
| `Answers.OneAnswerEach` | crates/ignis/src/reactor.rs:129-136 | after any calls each request is owed in one state or finished, and its client got a whole response, or one head and chunks, or gRPC messages with at most one terminal status |
| `Answers.PendingIsWhatIsOwed` | crates/ignis/src/reactor.rs:487-489 | the length of the map counts exactly the requests whose answer has not ended |
| `Answers.AcceptedIsHandedOver` | crates/ignis/src/reactor.rs:353-358 | over any calls, each accepted chunk or gRPC message reaches its client, once, and nothing else does |
| `Answers.FailPendingEndsAll` | crates/ignis/src/reactor.rs:466-468 | failing what is pending ends every answer still owed as dropped, and touches no finished one |
| `Answers.GrpcEndsExactly` | crates/ignis/src/reactor.rs:104-114 | after any calls, ending a gRPC call that is owed, or refusing it with an HTTP status, hands its client the code, 14 for 503, 4 for 504, 13 for 500 and 2 for any other failure, once and last unless it is 0 or the client has left, and closes the stream |
| `Answers.CancelledOnceBehindRequest` | crates/ignis/src/reactor.rs:383-396 | a cancellation occurs at most once, behind its request, and the id is owed no more |
| `Answers.WrongStateChangesNothing` | crates/ignis/src/reactor.rs:360-368 | a call for another state is refused and changes nothing |
| `Answers.RefusedMeansGone` | crates/ignis/src/reactor.rs:411-446 | a call refused in the right state means the client had left, and nothing of it reaches the wire |
| `Answers.LeavingIsNoticed` | crates/ignis/src/http.rs:380-427 | the guard stays armed while anything is owed, so a client that leaves early, mid-stream too, is cancelled |
| `Answers.WireKeeps` | crates/ignis/src/reactor.rs:326-460 | each call keeps each client's transcript well-formed |
| `Answers.AnswerMap.TakeAnswer` | crates/ignis/src/reactor.rs:365-368 | removes the answer only in the expected state |
| `Answers.AnswerMap.Respond` | crates/ignis/src/reactor.rs:411-420 | a whole answer; a failure status ends a gRPC call |
| `Answers.AnswerMap.RespondStart` | crates/ignis/src/reactor.rs:429-446 | turns a whole answer into a stream, leaves any other alone |
| `Answers.AnswerMap.StreamEnd` | crates/ignis/src/reactor.rs:371-381 | ends a gRPC stream, with a status unless it is 0 |
| `Answers.AnswerMap.RespondEnd` | crates/ignis/src/reactor.rs:457-459 | ends a stream |
| `Answers.AnswerMap.Cancel` | crates/ignis/src/reactor.rs:390-396 | removes whatever state the answer is in and announces it, once |
| `ParkRegistry.EventIsExact` | crates/ignis/src/php/wait.rs:40-137 | PARKED holds exactly the ids of the current awaits and RESULTS is empty again after each call; a completion wakes precisely the fiber that awaits it, with its own op and outcome |
| `ParkRegistry.NothingStale` | crates/ignis/src/php/wait.rs:20-33 | over any calls nothing stale survives in either table |
| `ParkRegistry.WokenOnce` | crates/ignis/src/php/wait.rs:127-137 | a second completion of the same await in one batch, or a cancellation after it, finds nobody |
| `ParkRegistry.OneKeyFirst` | crates/ignis/src/php/wait.rs:155-160 | removing any one key of the fiber before the throw leaves the same tables |
| `ParkRegistry.Tables.Park` | crates/ignis/src/php/wait.rs:76-87 | all ids lead to the fiber; no ids, no park |
| `ParkRegistry.Tables.Unpark` | crates/ignis/src/php/wait.rs:89-95 | removes all ids of the await |
| `ParkRegistry.Tables.Wakened` | crates/ignis/src/php/wait.rs:88-111 | takes the first of its own outcomes, or all of them when unwound |
| `ParkRegistry.Tables.ResumeParked` | crates/ignis/src/php/wait.rs:127-137 | wakes the fiber with this op and outcome, or reports that nobody waits |
| `ParkRegistry.Tables.CancelParkedAny` | crates/ignis/src/php/wait.rs:144-169 | finds the fiber exactly if it is parked, and leaves nothing of its await |
| `Proto.VarintRoundTrip` | php/packages/grpc/src/ignis-grpc.php:244-300 | every 64-bit value survives in 1 to 10 bytes, a negative one in 10, wherever it stands |
| `Proto.MessageRoundTrip` | php/packages/grpc/src/ignis-grpc.php:199-240 | decoding an encoded message gives the last value of each field number |
| `Proto.FieldNumberSurvives` | php/packages/grpc/src/ignis-grpc.php:205-208 | a field number comes back unchanged exactly if it lies between -2^60 and 2^60 |
| `Proto.ConcatenationMerges` | php/packages/grpc/src/ignis-grpc.php:215-242 | decoding two messages on end merges them, the later one's fields winning; a refusal refuses both |
| `Proto.CutFieldIsRefused` | php/packages/grpc/src/ignis-grpc.php:269-300 | a field cut short anywhere is refused |
| `Proto.CutVarintIsRefused` | php/packages/grpc/src/ignis-grpc.php:283-300 | a varint cut short is refused |
| `Proto.ShiftIsLogical` | php/packages/grpc/src/ignis-grpc.php:247-254 | the masked arithmetic shift is the logical one for negative values too |
| `Proto.OrIsSum` | php/packages/grpc/src/ignis-grpc.php:293-297 | the bitwise or of numbers without a common bit is their sum |
| `Proto.OrIsAddition` | php/packages/grpc/src/ignis-grpc.php:293-297 | or-ing a shifted septet in, bit by bit on 64 bits, gives what adding it to the unbounded number and wrapping gives, and septets from bit 64 on change nothing |
| `Proto.Base128Length` | php/packages/grpc/src/ignis-grpc.php:244-257 | a number takes exactly as many septets as it needs |
| `Proto.Varint` | php/packages/grpc/src/ignis-grpc.php:244-257 | the base-128 form of the value's 64 bits |
| `Proto.ReadVarintAt` | php/packages/grpc/src/ignis-grpc.php:283-300 | the value modulo 2^64 and the offset behind it, or a refusal |
| `Proto.Encode` | php/packages/grpc/src/ignis-grpc.php:199-212 | every value of every field in order |
| `Proto.Decode` | php/packages/grpc/src/ignis-grpc.php:215-242 | field after field to the end, or a refusal, never reading past the end |
| `ParkTimeout.NeverEarly` | crates/ignis/src/php/park.rs:640-699 | a `poll`, forwarded, answered by its probe or parked, and then woken however often, answers 0 only after its timeout, and never without one |
| `ParkTimeout.AnswerIsTheKernels` | crates/ignis/src/php/park.rs:640-699 | the answer is the kernel's own: to the call as it was made, to the first probe, or after nothing but wakes it denied |
| `ParkTimeout.WaitsAreParkedExactly` | crates/ignis/src/php/park.rs:640-699 | a `poll` leaves the wait to the kernel exactly if the call site does not park, or there is nothing to wait for; a parked one goes unanswered exactly while every wake came before the deadline and was denied |
| `ParkTimeout.TimerDueAtDeadline` | crates/ignis/src/php/park.rs:657-666 | every re-park is due within a millisecond after the caller's deadline |
| `ParkTimeout.CeilingIsExact` | crates/ignis/src/php/park.rs:602-606 | for every i64 of seconds and valid sub-second part, the saturating conversion is the clamped ceiling |
| `ParkTimeout.PpollNeverEarly` | crates/ignis/src/php/park.rs:708-732 | a ppoll, with or without a signal mask, answers 0 only after its whole interval, or the longest a C int can say, and never without an interval |
| `ParkTimeout.SelectIsEarlyExactly` | crates/ignis/src/php/park.rs:737-808 | `select` can answer 0 before its time is up exactly when the call site parks, the caller is prepared to wait, some descriptor is watched for reading or writing and none is wanted for exceptions only |
| `ParkTimeout.EarlyIsByFd` | crates/ignis/src/php/park.rs:737-808 | an early 0 of `select` is always its last probe's, after a wake by a descriptor the kernel then denied |
| `ParkTimeout.CollectExactly` | crates/ignis/src/php/park.rs:781-798 | the loop over the descriptors gives up exactly if one is wanted for exceptions only, and otherwise finds nothing exactly if none is wanted for reading or writing |
| `ParkTimeout.SelectImpl` | crates/ignis/src/php/park.rs:737-808 | forwarding, the zero probe, the loop over the descriptors, one park and the last probe, as specified |
| `ParkTimeout.MicrosecondsAreExact` | crates/ignis/src/php/park.rs:613-620 | refuses exactly what POSIX calls invalid; otherwise the interval to the microsecond, saturating |
| `ParkTimeout.UnsleptRoundsUp` | crates/ignis/src/php/park.rs:626-633 | an interrupted sleep owes the rest rounded up and never claims to be done |
| `ParkTimeout.PollImpl` | crates/ignis/src/php/park.rs:640-699 | forwarding, the first probe and the loop over rounds, as specified |
| `CoreCodec.ResolutionAnswersItsRequest` | php/packages/temporal-core-transport/src/CoreCodec.php:786-795 | with fresh ids, each of the three resolutions of a number is decoded to the response to the request that scheduled it, while that is outstanding, and to nothing when it comes again |
| `CoreCodec.ActivationTells` | php/packages/temporal-core-transport/src/CoreCodec.php:126-256 | with fresh ids, whatever happened to the run before, an activation hands sdk-php exactly the messages that follow from what was scheduled, resolved and asked |
| `CoreCodec.CommandOrders` | php/packages/temporal-core-transport/src/CoreCodec.php:301-392 | with fresh ids, a command orders of core exactly what follows from the history: the next number for a start, of each id to cancel its outstanding number and kind, and for an update the instance that last asked for it |
| `CoreCodec.CancelNamesItsRequest` | php/packages/temporal-core-transport/src/CoreCodec.php:497-511 | a cancel names its request's own number and kind, and nothing once it has resolved |
| `CoreCodec.ScheduleExactly` | php/packages/temporal-core-transport/src/CoreCodec.php:776-784 | scheduling keeps the two maps inverse exactly when the id names no other outstanding request |
| `CoreCodec.LifeMatches` | php/packages/temporal-core-transport/src/CoreCodec.php:126-395 | over a run's whole life the maps are inverse and hold exactly what was scheduled and has not resolved |
| `CoreCodec.NumbersCountUp` | php/packages/temporal-core-transport/src/CoreCodec.php:776-784 | sequence numbers count the schedulings of the run |
| `CoreCodec.TakeKeeps` | php/packages/temporal-core-transport/src/CoreCodec.php:786-795 | a number is taken out of both maps |
| `CoreCodec.QueriesInOrder` | php/packages/temporal-core-transport/src/CoreCodec.php:423-428 | responses answer the waiting queries first in, first out |
| `CoreCodec.RepliesAnswerInOrder` | php/packages/temporal-core-transport/src/CoreCodec.php:296-310 | so do the responses among replies of every kind, update responses passing by |
| `CoreCodec.QueriesGetTheirOwnAnswer` | php/packages/temporal-core-transport/src/CoreCodec.php:126-428 | for every activation on a run with no query waiting, answered in full and in order: no query is left waiting, and each is answered with the response to its own request exactly if no other acknowledged request stands before a query and nothing resets the run behind one |
| `CoreCodec.SignalAnswersTheQuery` | php/packages/temporal-core-transport/src/CoreCodec.php:126-428 | a signal before a query: the query is answered with the acknowledgement of the signal |
| `CoreCodec.ChildStartAnswersItsAsker` | php/packages/temporal-core-transport/src/CoreCodec.php:171-193 | with fresh ids, the start of a child answers the request that last asked for it, which asked under the id the child was scheduled with, and a second start answers nobody |
| `CoreCodec.Codec.NextNumber` | php/packages/temporal-core-transport/src/CoreCodec.php:776-784 | one entry in each map, under the next number |
| `CoreCodec.Codec.Take` | php/packages/temporal-core-transport/src/CoreCodec.php:786-795 | the id, at most once |
| `CoreCodec.Codec.DecodeOne` | php/packages/temporal-core-transport/src/CoreCodec.php:143-252 | one job of an activation; other runs are untouched |
| `CoreCodec.Codec.DecodeActivation` | php/packages/temporal-core-transport/src/CoreCodec.php:126-256 | all jobs in order |
| `CoreCodec.Codec.CancelAll` | php/packages/temporal-core-transport/src/CoreCodec.php:374-381 | the cancels of those still outstanding |
| `CoreCodec.Codec.EncodeCommand` | php/packages/temporal-core-transport/src/CoreCodec.php:301-392 | one command; other runs are untouched |
| `CoreCodec.Codec.EncodeCompletion` | php/packages/temporal-core-transport/src/CoreCodec.php:296-395 | all commands in order, refused as a whole at the first without a translation, while what the ones before it did to the run stays |
| `RevoltDriver.OneWatchEach` | php/packages/revolt/src/IgnisDriver.php:112-120 | the two maps are inverse: a callback has at most one outstanding watch, and only while enabled |
| `RevoltDriver.OnlyTheCurrentWatchFires` | php/packages/revolt/src/IgnisDriver.php:138-149 | a completion enqueues exactly the callback whose current watch it is |
| `RevoltDriver.StaleStaysStale` | php/packages/revolt/src/IgnisDriver.php:95-110 | a watch cancelled or replaced never leads to a callback again |
| `RevoltDriver.DeactivateStales` | php/packages/revolt/src/IgnisDriver.php:95-110 | deactivating makes the watch stale at once |
| `RevoltDriver.DeactivatedIsLeftAlone` | php/packages/revolt/src/IgnisDriver.php:95-149 | over any further events, a deactivated callback is neither armed nor enqueued before it is activated again |
| `RevoltDriver.StrandedExactly` | php/packages/revolt/src/IgnisDriver.php:112-127 | over every run, a callback waits for a watch the reactor has given up exactly if its current watch has failed |
| `RevoltDriver.RearmServesExactly` | php/packages/revolt/src/IgnisDriver.php:122-127 | over every run, re-arming gives an enabled callback with an open stream a watch the reactor serves exactly unless the watch it has has failed |
| `RevoltDriver.StrandedStep` | php/packages/revolt/src/IgnisDriver.php:95-149 | only deactivating the callback ends that; until then it keeps the dead watch and is never enqueued |
| `RevoltDriver.StrandedUntilDeactivated` | php/packages/revolt/src/IgnisDriver.php:95-149 | the same over any number of further events |
| `RevoltDriver.ReactivatedIsServed` | php/packages/revolt/src/IgnisDriver.php:79-120 | deactivated and activated again, it gets a new watch, which the reactor serves |
| `RevoltDriver.IgnisDriver.ArmCallback` | php/packages/revolt/src/IgnisDriver.php:112-120 | arms a callback that has no watch and an open stream |
| `RevoltDriver.IgnisDriver.ActivateAll` | php/packages/revolt/src/IgnisDriver.php:79-93 | enables and arms each of them in order |
| `RevoltDriver.IgnisDriver.DeactivateCallback` | php/packages/revolt/src/IgnisDriver.php:95-110 | removes the callback and its watch |
| `RevoltDriver.IgnisDriver.Dispatch` | php/packages/revolt/src/IgnisDriver.php:122-149 | re-arms, then handles the completions in order |
| `RevoltDriver.IgnisDriver.FinishOne` | php/packages/revolt/src/IgnisDriver.php:139-149 | one completion |

## Left out

- Loop.Loop.ThrowInto: the scan of `$waiting` exists for the throwaway fiber of `awaitOpFromMain`, which is not modelled; under the invariant it finds nobody.
- Loop.Loop.PollOne: success payloads of every kind are one kind of completion; a fiber parks in C only on sleeps and watches (park.rs:369, 423, 589), whose completions are the ones `ignis_poll` resumes on.
- Loop.Loop.Perform: user code that settles the future of a job the pool runs for it, that resumes runtime fibers itself, or that writes the `ignis.request` entry of `Scope`, is not modelled.
- SchedulerTheorems.StopDropsNoDelivery: that what the loop waits for has been counted by its reactor, and that the requests the reactor's polls returned are the ones the loop polled, are hypotheses tying the two models together.
- SchedulerTheorems.StopDropsNothing: fibers that await a future of user code, or each other's results, are allowed to remain, as the source allows it.
- Chaos mode, which shuffles batches and events, garbage collection at idle points, published statistics and unobserved rejections.
- The contents of requests and responses: headers, bodies, statuses beyond the ones that decide a branch.
- Scoped.Objects.OnSwitch: reference counts; the insert at `scoped.rs:205` drops a displaced row without releasing it.
- Superglobals.Superglobals.OnSwitch: the mode in which no slot was claimed and all hooks do nothing.
- Reactor.EveryCompletionOnce: atomics are sequentially consistent, the tokio runtime does not shut down, a reserved op is completed once, and the spin before `poll` sleeps is part of its receive.
- Watch.NoSaveIsLost: the runtime is installed before any PHP runs (main.rs:109), so before a file can be watched; the branch without one is not modelled. An event stamped 0, which only a clock before 1970 produces, is not a save.
- Reload.NoLostTurn: supervisors, and the winding down of a worker that has its turn.
- Output.StreamIsExact: runs in which an event breaks the order, for which `Output.NothingLostOrDoubled` holds; the channel grants permits in the order they are asked for, and bytes for a client that left go nowhere.
- Answers.OneAnswerEach: chunks sent by an op that outlives the end of its stream.
- ParkTimeout.SelectIsEarlyExactly: the fd sets `select` copies and fills in; intervals the kernel refuses.
- ParkTimeout.PpollNeverEarly: intervals the kernel refuses.
- ParkTimeout.NeverEarly: the cancellation of the watches that lost, which `park_pollfds` skips when the await is unwound.
- CoreCodec.QueriesGetTheirOwnAnswer: sdk-php answers every request of an activation once, in order, an update with its update response.
- CoreCodec.ResolutionAnswersItsRequest: payloads, durations, retry policies and activity tasks.
- RevoltDriver.IgnisDriver.Dispatch: timers and the wait for the next one.
- Proto.Encode: PHP's conversion of array keys and of values that are neither integers, booleans nor strings.
- Configuration, metrics, routing, multipart parsing, sessions, process supervision and engine startup.
