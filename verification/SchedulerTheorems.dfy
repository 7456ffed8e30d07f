/** The scheduler's main results, each about every reachable state of every run. */
module SchedulerTheorems {
  import opened Prelude
  import opened Scheduler
  import opened SchedulerSafety
  import opened SchedulerRuns
  import opened GracefulStop
  import opened SchedulerSteps
  import opened Chronicle
  import opened Intake
  import opened Backing
  import Admission
  import Reactor

  /** A loop about to run, with this many `Ignis\async()` jobs started from {main}. */
  function Launch(budget: int, depth: int, script: seq<Act>, jobs: nat): State
  {
    if jobs == 0 then Boot(budget, depth, script) else Spawn(Launch(budget, depth, script, jobs - 1), None, None)
  }

  /** The state after any number of turns fed with any completions. */
  ghost function Reached(budget: int, depth: int, script: seq<Act>, jobs: nat, feed: seq<seq<Completion>>): State
  {
    Turns(Launch(budget, depth, script, jobs), feed)
  }

  lemma BootGate(budget: int, depth: int, script: seq<Act>)
    ensures GateOk(Boot(budget, depth, script), {})
  {
    assert Admission.Inv(Admission.Open(budget, depth)) by { Admission.RunKeeps(budget, depth, []); }
    hide Admission.Inv, Admission.Open;
  }

  lemma {:induction false} LaunchIsSafe(budget: int, depth: int, script: seq<Act>, jobs: nat)
    ensures Inv(Launch(budget, depth, script, jobs)) && GateOk(Launch(budget, depth, script, jobs), {})
  {
    hide Inv, GateOk, NoNewHandlers, Spawn, Boot;
    if jobs == 0 {
      BootIsSafe(budget, depth, script);
      BootGate(budget, depth, script);
    } else {
      var s := Launch(budget, depth, script, jobs - 1);
      LaunchIsSafe(budget, depth, script, jobs - 1);
      SpawnKeeps(s, None, None);
      SpawnQuiet(s, None);
      GateSame(s, Spawn(s, None, None), {});
    }
  }

  lemma ReachedIsSafe(budget: int, depth: int, script: seq<Act>, jobs: nat, feed: seq<seq<Completion>>)
    ensures Inv(Reached(budget, depth, script, jobs, feed)) && GateOk(Reached(budget, depth, script, jobs, feed), {})
  {
    hide Inv, GateOk;
    LaunchIsSafe(budget, depth, script, jobs);
    TurnsGate(Launch(budget, depth, script, jobs), feed);
  }

  /**
   Wake-up discipline, over every run: what wakes a pool fiber is a job, what wakes an op park is that op's
   payload, what wakes a future's waiter is null after the future settled, and what wakes a C park is one
   of its own ops; a cancellation of r only reaches a parked fiber whose job is booked under r; and no
   fiber dies of the LogicException in `nextJob`.
   */
  lemma EveryTransferMatches(budget: int, depth: int, script: seq<Act>, jobs: nat, feed: seq<seq<Completion>>)
    ensures var s := Reached(budget, depth, script, jobs, feed);
      && (forall d :: d in s.log ==> Matches(d))
      && (forall f :: f in s.fibers ==> s.fibers[f].at != Dead)
  {
    ReachedIsSafe(budget, depth, script, jobs, feed);
  }

  function Flag(b: bool): nat
  {
    if b then 1 else 0
  }

  /** How many of the wake-up tables name this fiber. */
  ghost function Reasons(s: State, f: nat): nat
  {
    Flag(exists w :: w in s.pending && w.fiber == f) + Flag(f in s.idle) + Flag(exists w :: w in s.ready && w.fiber == f)
    + Flag(exists op :: op in s.waiting && s.waiting[op] == f) + Flag(exists u :: u in s.futures && f in s.futures[u].waiters)
    + Flag(exists op :: op in s.parked && s.parked[op] == f)
  }

  /** Whenever the loop has control, every fiber has exactly one reason to be woken. */
  lemma ExactlyOneReason(s: State, f: nat)
    requires Inv(s) && AtLoop(s) && f in s.fibers
    ensures Reasons(s, f) == 1
  {
    PendingReason(s, f);
    ReadyReason(s, f);
    ParkReasons(s, f);
    FutureReason(s, f);
    JobFactsAt(s, f);
    hide Inv;
  }

  lemma PendingReason(s: State, f: nat)
    requires Inv(s) && f in s.fibers
    ensures (exists w :: w in s.pending && w.fiber == f) <==> s.fibers[f].at == Fresh
    ensures f in s.idle <==> s.fibers[f].at == Idle && s.fibers[f].job == None
  {
    if s.fibers[f].at == Fresh {
      assert Wake(f, GiveJob(s.fibers[f].job.value)) in s.pending;
    }
  }

  lemma ReadyReason(s: State, f: nat)
    requires Inv(s) && f in s.fibers
    ensures (exists w :: w in s.ready && w.fiber == f) <==> Owed(s.fibers[f], s.futures).Some?
  {
    if Owed(s.fibers[f], s.futures).Some? {
      assert Wake(f, Owed(s.fibers[f], s.futures).value) in s.ready;
    }
  }

  lemma ParkReasons(s: State, f: nat)
    requires Inv(s) && f in s.fibers
    ensures (exists op :: op in s.waiting && s.waiting[op] == f) <==> s.fibers[f].at.OnOp?
    ensures (exists op :: op in s.parked && s.parked[op] == f) <==> s.fibers[f].at.InC?
  {
    hide ReadyInv, PendingInv, IdleInv, FutureInv, ParkedInv, JobInv, OwnerInv, DeadlineInv, FreshInv, LogInv;
    FindsParked(s, f);
  }

  lemma FutureReason(s: State, f: nat)
    requires Inv(s) && f in s.fibers
    ensures (exists u :: u in s.futures && f in s.futures[u].waiters) <==>
            s.fibers[f].at.OnFuture? && s.fibers[f].at.fut in s.futures && !s.futures[s.fibers[f].at.fut].done
    ensures s.fibers[f].at.OnFuture? ==> s.fibers[f].at.fut in s.futures
  {
    assert forall u :: u in s.futures ==> WaitersInv(s.fibers, u, s.futures[u]);
  }

  lemma JobFactsAt(s: State, f: nat)
    requires Inv(s) && f in s.fibers
    ensures s.fibers[f].at != Dead && (s.fibers[f].at == Running <==> s.current == Some(f))
    ensures s.fibers[f].at != Idle ==> s.fibers[f].job.Some?
  {
  }

  // ---------------------------------------------------------------- stopping

  /** The test of `windingDown`: it names neither the request queue nor the fibers parked in C. */
  predicate WindingDown(s: State)
  {
    && s.live == {}                    // ignis_inflight() === 0
    && s.gate.inflight == 0
    && s.waiting == map[] && s.ready == [] && s.pending == []
  }

  /**
   A graceful stop drops nothing: when the test succeeds no request waits or holds a slot, every arrival
   was rejected, dropped for a client that left, or handled, and each fiber either rests in the pool or
   awaits an unsettled future.  That future is one that only user code settles, or the result of a job whose
   fiber awaits an unsettled future in turn.
   */
  lemma StopDropsNothing(budget: int, depth: int, script: seq<Act>, jobs: nat, feed: seq<seq<Completion>>)
    requires AtLoop(Reached(budget, depth, script, jobs, feed)) && WindingDown(Reached(budget, depth, script, jobs, feed))
    ensures var s := Reached(budget, depth, script, jobs, feed);
      && s.gate.queue == [] && s.gate.inside == {} && s.gate.exempt == {}
      && |s.gate.arrived| == s.gate.rejected + Admission.DroppedCount(s.gate.fates) + s.gate.handled
      && s.parked == map[]
      && forall f :: f in s.fibers ==> f in s.idle || (AwaitsUnsettled(s, f) && AwaitsAJobThatAwaits(s, f))
  {
    hide Inv, GateOk, WindingDown, Reached, Backed, AwaitsUnsettled, AwaitsAJobThatAwaits;
    var s := Reached(budget, depth, script, jobs, feed);
    ReachedIsSafe(budget, depth, script, jobs, feed);
    ReachedIsBacked(budget, depth, script, jobs, feed);
    StopGate(s);
    forall f | f in s.fibers ensures f in s.idle || (AwaitsUnsettled(s, f) && AwaitsAJobThatAwaits(s, f)) {
      StopFiber(s, f);
      if f !in s.idle {
        StopJob(s, f);
      }
    }
  }

  predicate AwaitsUnsettled(s: State, f: nat)
  {
    f in s.fibers && s.fibers[f].at.OnFuture? && s.fibers[f].at.fut in s.futures && !s.futures[s.fibers[f].at.fut].done
  }

  /** If the future belongs to a job, a fiber has that job, and awaits an unsettled future itself. */
  ghost predicate AwaitsAJobThatAwaits(s: State, f: nat)
    requires AwaitsUnsettled(s, f)
  {
    s.futures[s.fibers[f].at.fut].pooled ==> exists g :: AwaitsUnsettled(s, g) && HasFuture(s.fibers[g], s.fibers[f].at.fut)
  }

  lemma StopJob(s: State, f: nat)
    requires Inv(s) && GateOk(s, {}) && Backed(s) && AtLoop(s) && WindingDown(s) && AwaitsUnsettled(s, f)
    ensures AwaitsAJobThatAwaits(s, f)
  {
    hide Inv, GateOk, WindingDown;
    var u := s.fibers[f].at.fut;
    if Unsettled(s.futures, u) {
      var g :| g in s.fibers && HasFuture(s.fibers[g], u);
      StopFiber(s, g);
      PendingReason(s, g);
    }
  }

  lemma {:induction false} LaunchSeesNothing(budget: int, depth: int, script: seq<Act>, jobs: nat)
    ensures Launch(budget, depth, script, jobs).gate.arrived == {}
  {
    hide Spawn;
    if jobs > 0 {
      LaunchSeesNothing(budget, depth, script, jobs - 1);
      SpawnLog(Launch(budget, depth, script, jobs - 1), None, None);
    }
  }

  /**
   Which requests reach the gate, over every run whose turns are completed: exactly those that were polled
   without their cancellation behind them in the same batch.
   */
  lemma ReachesTheGateExactly(budget: int, depth: int, script: seq<Act>, jobs: nat, feed: seq<seq<Completion>>)
    requires AtLoop(Reached(budget, depth, script, jobs, feed))
    ensures var start := Launch(budget, depth, script, jobs);
      && Reached(budget, depth, script, jobs, feed).gate.arrived == Delivered(start, feed) - Withdrawn(start, feed)
      && Withdrawn(start, feed) <= Delivered(start, feed)
  {
    hide Inv, GateOk, Turns, Delivered, Withdrawn, Launch;
    LaunchIsSafe(budget, depth, script, jobs);
    LaunchSeesNothing(budget, depth, script, jobs);
    RunIds(Launch(budget, depth, script, jobs), feed);
  }

  /** So a request and its disconnect in one batch: polled, never dispatched, and the loop may stop. */
  lemma WithdrawnIsNeverSeen(script: seq<Act>)
    requires script != []
    ensures var feed := [[Arrived(0, false), Gone(1)]];
      var s := Reached(0, 0, script, 0, feed);
      && AtLoop(s) && WindingDown(s)
      && 1 in Delivered(Launch(0, 0, script, 0), feed) && 1 in Withdrawn(Launch(0, 0, script, 0), feed)
      && 1 !in s.gate.arrived
  {
    var s, batch := Boot(0, 0, script), [Arrived(0, false), Gone(1)];
    var feed := [batch];
    assert Launch(0, 0, script, 0) == s;
    assert BeforePoll(s) == s && Batch(s, batch) == batch;
    WithdrawnBatch(s, batch);
    assert feed[1..] == [];
    assert Turns(s, feed) == Turns(Turn(s, batch), []);
    assert Reached(0, 0, script, 0, feed) == Turn(s, batch);
    ReachesTheGateExactly(0, 0, script, 0, feed);
    hide Delivered, Withdrawn, Arrivals, Withdrawals;
    assert 1 in Delivered(s, feed) && 1 in Withdrawn(s, feed) by { OneTurn(s, feed); }
  }

  lemma OneTurn(s: State, feed: seq<seq<Completion>>)
    requires feed != []
    ensures Arrivals(BeforePoll(s), Batch(s, feed[0])) <= Delivered(s, feed)
    ensures Withdrawals(BeforePoll(s), Batch(s, feed[0])) <= Withdrawn(s, feed)
  {
  }

  lemma WithdrawnBatch(s: State, batch: seq<Completion>)
    requires s == Boot(0, 0, s.script) && s.script != [] && batch == [Arrived(0, false), Gone(1)]
    ensures 1 in Arrivals(s, batch) && 1 in Withdrawals(s, batch)
    ensures AtLoop(Turn(s, batch)) && WindingDown(Turn(s, batch))
  {
    hide Poll, Dispatch, CancelRequest;
    var t := s.(nextId := 2, requests := {1});
    var u := s.(nextId := 2, requests := {});
    assert s.requests + {1} == {1} && {1} - {1} == {} && [] + [Arrived(1, false)] == [Arrived(1, false)];
    assert PollOne(s, [], batch[0]) == (t, [Arrived(1, false)]);
    assert Put([Arrived(1, false)], 1, Gone(1)) == [Gone(1)];
    assert PollOne(t, [Arrived(1, false)], batch[1]) == (u, [Gone(1)]);
    PollTwo(s, [], batch);
    DispatchSingle(u, Gone(1));
    NobodyToCancel(u);
    assert batch[1..] == [Gone(1)];
  }

  lemma NobodyToCancel(s: State)
    requires s.children == map[] && s.requestFibers == map[] && s.gate.queue == []
    ensures CancelRequest(s, 1) == s
  {
  }

  /**
   How a loop between two turns and its reactor stand to each other: what the loop waits for has been
   counted and not yet polled, and what the reactor's polls returned is what the loop polled.
   */
  ghost predicate Feeds(q: Reactor.State, s: State, polled: set<nat>)
  {
    && (forall op :: op in s.live ==> Reactor.OpDone(op) in q.issued && Reactor.OpDone(op) !in q.consumed)
    && (forall id :: Reactor.Request(id) in q.consumed ==> id in polled)
  }

  /**
   With `ignis_inflight()` read off the reactor: under every schedule of its threads, when the stopping test
   succeeds, every request handed to the reactor was polled, and unless its cancellation was polled behind
   it in the same batch, it has reached the gate and was rejected, dropped for a client that left, or
   handled to its end.
   */
  lemma StopDropsNoDelivery(steps: seq<Reactor.Step>, budget: int, depth: int, script: seq<Act>, jobs: nat, feed: seq<seq<Completion>>)
    requires var s := Reached(budget, depth, script, jobs, feed);
      && AtLoop(s) && Feeds(Reactor.Run(steps), s, Delivered(Launch(budget, depth, script, jobs), feed))
      && Reactor.Run(steps).inflight == 0 && s.gate.inflight == 0
      && s.waiting == map[] && s.ready == [] && s.pending == []
    ensures var s, start := Reached(budget, depth, script, jobs, feed), Launch(budget, depth, script, jobs);
      && WindingDown(s)
      && (forall id :: Reactor.Request(id) in Reactor.Run(steps).issued ==>
            id in Delivered(start, feed) && (id in s.gate.arrived <==> id !in Withdrawn(start, feed)))
      && (forall id :: id in s.gate.arrived ==> id !in s.gate.queue && id !in s.gate.inside && id !in s.gate.exempt)
      && |s.gate.arrived| == s.gate.rejected + Admission.DroppedCount(s.gate.fates) + s.gate.handled
  {
    hide Reached, Reactor.Run, Delivered, Withdrawn, Launch;
    var q, s := Reactor.Run(steps), Reached(budget, depth, script, jobs, feed);
    Reactor.ZeroMeansEmpty(steps);
    DrainedIsConsumed(q);
    assert s.live == {};
    StopDropsNothing(budget, depth, script, jobs, feed);
    ReachesTheGateExactly(budget, depth, script, jobs, feed);
  }

  lemma DrainedIsConsumed(q: Reactor.State)
    requires q.channel == [] && q.out == [] && Elements(Reactor.Sent(q)) == q.issued
    ensures forall t :: t in q.issued ==> t in q.consumed
  {
    forall t | t in q.issued ensures t in q.consumed {
      assert t in Elements(Reactor.Sent(q));
    }
  }

  lemma StopGate(s: State)
    requires GateOk(s, {}) && WindingDown(s)
    ensures s.gate.queue == [] && s.gate.inside == {} && s.gate.exempt == {} && s.parked == map[]
    ensures |s.gate.arrived| == s.gate.rejected + Admission.DroppedCount(s.gate.fates) + s.gate.handled
  {
    hide Handled;
    Admission.IdleGateIsEmpty(s.gate);
    assert forall op :: op !in s.parked;
  }

  lemma StopFiber(s: State, f: nat)
    requires Inv(s) && GateOk(s, {}) && AtLoop(s) && WindingDown(s) && f in s.fibers
    ensures f in s.idle || AwaitsUnsettled(s, f)
  {
    StopGate(s);
    hide Inv, GateOk;
    PendingReason(s, f);
    ReadyReason(s, f);
    ParkReasons(s, f);
    FutureReason(s, f);
    JobFactsAt(s, f);
  }

  // ---------------------------------------------------------------- where the code falls short

  /**
   An error completion wakes a fiber exactly when it is parked in C.  For a userland wait `ignis_poll`
   drops it: the op will not complete again and the entry in `$waiting` keeps the loop from going idle.
   */
  lemma ErrorCompletionStrandsUserlandWaiter(s: State, op: nat, events: seq<Completion>)
    requires Inv(s) && AtLoop(s) && op in s.waiting && op in s.live
    ensures var (t, more) := PollOne(s, events, Fault(op));
      && more == events && op in t.waiting && op !in t.live && t.fibers == s.fibers
      && PollOne(t, more, Done(op)) == (t, more) && PollOne(t, more, Fault(op)) == (t, more) && !WindingDown(t)
    ensures var (t, more) := PollOne(s, events, Done(op)); more == events + [Done(op)] && t.fibers == s.fibers
  {
    hide Inv, ResumeC, Put;
    WaitingIsNotParked(s, op);
  }

  /**
   The wait that a dropped error leaves behind, over the rest of the turn and any number of further turns:
   the fiber stays where it is, its entry stays in `$waiting` and the stopping test fails, until, and only
   until, a cancellation of a request the fiber's job is booked under throws into it; then the entry is
   gone for good.
   */
  lemma DroppedErrorWaitsForAThrow(s: State, events: seq<Completion>, cs: seq<Completion>, feed: seq<seq<Completion>>, op: nat)
    requires Inv(s) && AtLoop(s) && op in s.waiting && op in s.live && Done(op) !in events
    ensures var (t, more) := PollOne(s, events, Fault(op));
      var (u, listed) := Poll(t, more, cs);
      var v, f := Turns(Dispatch(u, listed), feed), s.waiting[op];
      && (op in v.waiting <==> !ThrownSince(v.log, f, |s.log|))
      && (op in v.waiting ==> v.waiting[op] == f && f in v.fibers && v.fibers[f].at == OnOp(op) && !WindingDown(v))
      && (forall k :: |s.log| <= k < |v.log| && v.log[k].Thrown? ==> Belongs(v.log[k].owner, v.log[k].req))
  {
    hide Inv, PollOne, Poll, Dispatch, Turns, Marooned, OriginInv, WindingDown, ThrownSince, Belongs;
    var (t, more) := PollOne(s, events, Fault(op));
    var w := Wait(op, s.waiting[op], |s.log|);
    FaultMaroons(s, events, op);
    PollOneKeeps(s, events, Fault(op));
    PollTold(t, more, cs, Lost(w));
    PollKeeps(t, more, cs);
    var (u, listed) := Poll(t, more, cs);
    DispatchTold(u, listed, Lost(w));
    DispatchKeeps(u, listed);
    TurnsTold(Dispatch(u, listed), feed, Lost(w));
    TurnsKeep(Dispatch(u, listed), feed);
    MaroonedStays(Turns(Dispatch(u, listed), feed), w);
  }

  lemma FaultMaroons(s: State, events: seq<Completion>, op: nat)
    requires Inv(s) && AtLoop(s) && op in s.waiting && op in s.live && Done(op) !in events
    ensures var (t, more) := PollOne(s, events, Fault(op)); var w := Wait(op, s.waiting[op], |s.log|);
      Marooned(t, w) && more == events && Unheard(more, Lost(w))
  {
    hide Inv, ResumeC, Put;
    WaitingIsNotParked(s, op);
    WaitingIsOld(s, op);
  }

  lemma WaitingIsOld(s: State, op: nat)
    requires Inv(s) && op in s.waiting
    ensures op < s.nextId
  {
  }

  lemma MaroonedStays(s: State, w: Wait)
    requires Inv(s) && Marooned(s, w)
    ensures w.op in s.waiting <==> !ThrownSince(s.log, w.fiber, w.since)
    ensures w.op in s.waiting ==> s.waiting[w.op] == w.fiber && w.fiber in s.fibers
    ensures w.op in s.waiting ==> s.fibers[w.fiber].at == OnOp(w.op) && !WindingDown(s)
    ensures forall k :: w.since <= k < |s.log| && s.log[k].Thrown? ==> Belongs(s.log[k].owner, s.log[k].req)
  {
    hide ReadyInv, PendingInv, IdleInv, FutureInv, ParkedInv, JobInv, OwnerInv, DeadlineInv, FreshInv, Belongs, ThrownSince;
    forall k | w.since <= k < |s.log| && s.log[k].Thrown? ensures Belongs(s.log[k].owner, s.log[k].req) {
      assert s.log[k] in s.log && Matches(s.log[k]);
    }
  }

  /** What becomes of a completion somebody waits for: it is heard exactly if it is a success or the fiber is parked in C. */
  lemma CompletionIsHeardExactly(s: State, op: nat, c: Completion)
    requires Inv(s) && AtLoop(s) && op in s.live && (op in s.waiting || op in s.parked) && (c == Done(op) || c == Fault(op))
    ensures var (t, more) := PollOne(s, [], c); (more == [c] || t.log != s.log) <==> c.Done? || op in s.parked
  {
    hide Inv, ResumeC, Put;
    if op in s.parked {
      var t := s.(live := s.live - {op});
      LiveLess(s, op, s.lost);
      ResumeCLogs(t, op);
      ParkedFacts(s, op);
    }
  }

  lemma ResumeCLogs(s: State, op: nat)
    requires Inv(s) && AtLoop(s) && op in s.parked
    ensures s.parked[op] in s.fibers && ResumeC(s, op).log != s.log
  {
    hide Inv, RunUser, Unwind;
    ParkedFacts(s, op);
    var f := s.parked[op];
    var d := Resumed(f, s.fibers[f].at, false, Payload(op), s.fibers[f].scope);
    ResumedCKeeps(s, op);
    var t := Resume(s.(parked := s.parked - {op}), f, Payload(op));
    UserUndisturbed(t, f);
    UnwindLogs(s.(parked := s.parked - {op}, log := s.log + [d]), f);
    assert |t.log| == |s.log| + 1;
  }

  lemma UnwindLogs(s: State, f: nat)
    requires f in s.fibers
    ensures Unwind(s, f).log == s.log
  {
    hide Continue;
    match s.fibers[f].at {
      case OnOp(_) => ContinueLogs(s.(parkedOn := s.parkedOn - {f}), f);
      case InC(ops) => ContinueLogs(s.(parked := s.parked - ops), f);
      case _ => ContinueLogs(s, f);
    }
  }

  lemma ContinueLogs(s: State, f: nat)
    requires f in s.fibers
    ensures Continue(s, f).log == s.log
  {
  }

  lemma WaitingIsNotParked(s: State, op: nat)
    requires Inv(s) && op in s.waiting
    ensures op !in s.parked
  {
  }

  // ---------------------------------------------------------------- for whom jobs work, and whom they are charged to

  lemma {:induction false} LaunchIsTold(budget: int, depth: int, script: seq<Act>, jobs: nat)
    ensures Told(Launch(budget, depth, script, jobs), Origins)
  {
    hide Inv, Told, Sane, Spawn, Boot;
    if jobs == 0 {
      BootIsTold(budget, depth, script);
    } else {
      var s := Launch(budget, depth, script, jobs - 1);
      LaunchIsSafe(budget, depth, script, jobs - 1);
      LaunchIsTold(budget, depth, script, jobs - 1);
      LaunchIsIdle(budget, depth, script, jobs - 1);
      SpawnTame(s, None, None, Clean(s.log), 0);
      TameTold(s, Spawn(s, None, None), Origins);
    }
  }

  lemma BootIsTold(budget: int, depth: int, script: seq<Act>)
    ensures Told(Boot(budget, depth, script), Origins)
  {
  }

  lemma {:induction false} LaunchIsBacked(budget: int, depth: int, script: seq<Act>, jobs: nat)
    ensures Backed(Launch(budget, depth, script, jobs))
  {
    hide Inv, GateOk, Spawn, Backed;
    if jobs == 0 {
      BootIsBacked(budget, depth, script);
    } else {
      LaunchIsSafe(budget, depth, script, jobs - 1);
      LaunchIsBacked(budget, depth, script, jobs - 1);
      SpawnBacked(Launch(budget, depth, script, jobs - 1), None);
    }
  }

  lemma BootIsBacked(budget: int, depth: int, script: seq<Act>)
    ensures Backed(Boot(budget, depth, script))
  {
  }

  lemma ReachedIsBacked(budget: int, depth: int, script: seq<Act>, jobs: nat, feed: seq<seq<Completion>>)
    ensures Backed(Reached(budget, depth, script, jobs, feed))
  {
    hide Inv, GateOk, Backed, Turns, Launch;
    var s := Launch(budget, depth, script, jobs);
    LaunchIsSafe(budget, depth, script, jobs);
    LaunchIsBacked(budget, depth, script, jobs);
    assert Told(s, Backs);
    TurnsTold(s, feed, Backs);
  }

  lemma {:induction false} LaunchIsIdle(budget: int, depth: int, script: seq<Act>, jobs: nat)
    ensures Launch(budget, depth, script, jobs).current == None
  {
    hide Spawn;
    if jobs > 0 {
      LaunchIsIdle(budget, depth, script, jobs - 1);
      SpawnLog(Launch(budget, depth, script, jobs - 1), None, None);
    }
  }

  lemma ReachedIsTold(budget: int, depth: int, script: seq<Act>, jobs: nat, feed: seq<seq<Completion>>)
    ensures OriginInv(Reached(budget, depth, script, jobs, feed))
  {
    hide Inv, GateOk, OriginInv;
    LaunchIsSafe(budget, depth, script, jobs);
    LaunchIsTold(budget, depth, script, jobs);
    TurnsTold(Launch(budget, depth, script, jobs), feed, Origins);
  }

  /**
   Isolation: in every run in which no ownerless job has begun on a fiber whose scope names a request it
   does not work for, a cancellation of r only ever reaches jobs that really work for r.
   */
  lemma CancellationReachesItsOwn(budget: int, depth: int, script: seq<Act>, jobs: nat, feed: seq<seq<Completion>>)
    requires Clean(Reached(budget, depth, script, jobs, feed).log)
    ensures forall d :: d in Reached(budget, depth, script, jobs, feed).log && d.Thrown? ==>
      d.owner.Some? && d.owner.value.origin == Some(d.req)
  {
    var s := Reached(budget, depth, script, jobs, feed);
    EveryTransferMatches(budget, depth, script, jobs, feed);
    ReachedIsTold(budget, depth, script, jobs, feed);
    forall d | d in s.log && d.Thrown? ensures d.owner.Some? && d.owner.value.origin == Some(d.req) {
      assert HitsOwn(d) && Matches(d);
    }
  }

  /** No job spawned outside any request has begun on a fiber with anything in its scope. */
  predicate EmptyStart(d: Delivery)
  {
    match d
    case Started(_, _, job, scope) => Ownerless(job) ==> scope == None
    case Resumed(_, at, _, value, scope) => at == Idle && value.GiveJob? && Ownerless(value.job) ==> scope == None
    case Thrown(_, _, _, _) => true
  }

  /** The condition without reference to whom anything works for: pool fibers had an empty scope whenever it mattered. */
  lemma EmptyScopesIsolate(budget: int, depth: int, script: seq<Act>, jobs: nat, feed: seq<seq<Completion>>)
    requires forall d :: d in Reached(budget, depth, script, jobs, feed).log ==> EmptyStart(d)
    ensures forall d :: d in Reached(budget, depth, script, jobs, feed).log && d.Thrown? ==>
      d.owner.Some? && d.owner.value.origin == Some(d.req)
  {
    var log := Reached(budget, depth, script, jobs, feed).log;
    forall d | d in log ensures CleanStart(d) {
      assert EmptyStart(d);
    }
    CancellationReachesItsOwn(budget, depth, script, jobs, feed);
  }

  /** A throw of r's cancellation into a job that works for somebody else. */
  predicate Foreign(d: Delivery, r: nat)
  {
    d.Thrown? && d.owner.Some? && d.owner.value.origin != Some(r)
  }

  /** A parked fiber whose job works for somebody other than r. */
  ghost predicate ParkedForAnother(s: State, f: nat, r: nat)
  {
    SitsInPark(s, f) && s.fibers[f].job.Some? && s.fibers[f].job.value.origin != Some(r)
  }

  lemma {:induction false} ForeignThrows(s: State, fs: seq<nat>, r: nat)
    ensures (exists d :: d in Throws(s, fs, r) && Foreign(d, r)) <==> exists f :: f in fs && ParkedForAnother(s, f, r)
  {
    if fs != [] {
      ForeignThrows(s, fs[1..], r);
      assert forall f :: f in fs <==> f == fs[0] || f in fs[1..];
      assert forall d :: d in Throws(s, fs, r) <==>
        d in Throws(s, fs[1..], r) || (SitsInPark(s, fs[0]) && d == Thrown(fs[0], s.fibers[fs[0]].at, s.fibers[fs[0]].job, r));
      if SitsInPark(s, fs[0]) {
        var d := Thrown(fs[0], s.fibers[fs[0]].at, s.fibers[fs[0]].job, r);
        assert Foreign(d, r) <==> ParkedForAnother(s, fs[0], r);
        assert d in Throws(s, fs, r);
      }
    }
  }

  /**
   Which states are one cancellation away from a foreign throw: those in which a fiber booked under r is
   parked with a job that works for somebody else.
   */
  lemma ForeignThrowExactly(s: State, r: nat)
    requires Inv(s) && AtLoop(s) && AtLoop(CancelRequest(s, r))
    ensures CancelRequest(s, r).log == s.log + Throws(s, Victims(s, r), r)
    ensures (exists d :: d in Throws(s, Victims(s, r), r) && Foreign(d, r))
            <==> exists f :: f in Victims(s, r) && ParkedForAnother(s, f, r)
  {
    hide Inv, CancelRequest, Victims, Throws, ParkedForAnother, Foreign;
    CancellationIsExact(s, r);
    ForeignThrows(s, Victims(s, r), r);
  }

  lemma RunningIsKnown(budget: int, depth: int, script: seq<Act>, jobs: nat, feed: seq<seq<Completion>>)
    ensures var s := Reached(budget, depth, script, jobs, feed);
      s.current.Some? ==>
        && Runs(s, s.current.value) && Begun(s.fibers[s.current.value]) && ScopeFollows(s.fibers[s.current.value])
        && OneRole(s.fibers[s.current.value].job)
  {
    var s := Reached(budget, depth, script, jobs, feed);
    ReachedIsSafe(budget, depth, script, jobs, feed);
    ReachedIsTold(budget, depth, script, jobs, feed);
    hide GateOk, Reached, Inv, ScopeFollows, Clean;
    if s.current.Some? {
      CurrentIsAFiber(s);
      RunsBegun(s, s.current.value);
      SaneAt(s.fibers, Clean(s.log), s.current.value);
      InvOneRole(s, s.current.value);
    }
  }

  lemma InvOneRole(s: State, f: nat)
    requires Inv(s) && f in s.fibers
    ensures OneRole(s.fibers[f].job)
  {
  }

  /**
   What the `ignis.request` scope of running code holds, in every run: a handler's its own request or
   nothing, a child's the request it was spawned for, and any other job's exactly what the job before it
   left on the fiber.
   */
  lemma RunningScope(budget: int, depth: int, script: seq<Act>, jobs: nat, feed: seq<seq<Completion>>, f: nat)
    requires Reached(budget, depth, script, jobs, feed).current == Some(f)
    ensures var s := Reached(budget, depth, script, jobs, feed);
      && f in s.fibers && s.fibers[f].job.Some?
      && var fb, job := s.fibers[f], s.fibers[f].job.value;
      && (job.handles.Some? ==> fb.scope == None || fb.scope == job.handles)
      && (job.req.Some? ==> fb.scope == job.req)
      && (Ownerless(job) ==> fb.scope == fb.left)
  {
    hide Reached, Inv;
    RunningIsKnown(budget, depth, script, jobs, feed);
  }

  /** The fiber g got the job, and if it is charged to a request, is listed among that one's children. */
  ghost predicate Charged(t: State, g: nat, job: Job)
  {
    g in t.fibers && t.fibers[g].job == Some(job) && (job.req.Some? ==> g in ChildrenOf(t, job.req.value))
  }

  lemma SpawnCharges(s: State, req: Option<nat>)
    requires Inv(s)
    ensures exists g :: Charged(Spawn(s, req, None), g, JobFor(s, req, None))
  {
    hide Inv, Place, OriginOf;
    WithFutureKeeps(s, true);
    var job := JobFor(s, req, None);
    var (placed, g) := Place(WithFuture(s, true), job);
    PlaceKeeps(WithFuture(s, true), job);
    ListedChild(placed, req, g);
    assert Charged(Spawn(s, req, None), g, job);
  }

  lemma ListedChild(s: State, req: Option<nat>, g: nat)
    ensures AddChild(s, req, g).fibers == s.fibers
    ensures req.Some? ==> g in ChildrenOf(AddChild(s, req, g), req.value)
  {
  }

  /** What a job that handles no request passes on to its children, by what stood in the books when it began. */
  function Inherited(fb: Fiber): Option<nat>
    requires fb.job.Some?
  {
    if fb.job.value.req.Some? then fb.job.value.req else fb.left
  }

  /**
   Attribution, in every run: a spawned job works for whom its spawner works, and it is charged to another
   request exactly if the spawner handles no request itself and inherited somebody else's id, be it from
   its own booking or from the job before it on the fiber.
   */
  lemma ChargedExactly(budget: int, depth: int, script: seq<Act>, jobs: nat, feed: seq<seq<Completion>>, f: nat)
    requires Reached(budget, depth, script, jobs, feed).current == Some(f)
    ensures var s := Reached(budget, depth, script, jobs, feed);
      && f in s.fibers && s.fibers[f].job.Some?
      && var fb, job := s.fibers[f], s.fibers[f].job.value;
      exists g, child ::
        && Charged(Perform(s, f, Async), g, child) && child.future == s.nextFuture && child.origin == job.origin
        && (child.req.Some? && child.req != child.origin <==>
              job.handles.None? && Inherited(fb).Some? && Inherited(fb) != job.origin)
  {
    var s := Reached(budget, depth, script, jobs, feed);
    RunningIsKnown(budget, depth, script, jobs, feed);
    hide Reached, Inv, Charged;
    var child := JobFor(s, s.fibers[f].scope, None);
    SpawnCharges(s, s.fibers[f].scope);
    var g :| Charged(Spawn(s, s.fibers[f].scope, None), g, child);
    assert Perform(s, f, Async) == Spawn(s, s.fibers[f].scope, None);
  }

  /** The next job the fiber spawns is charged to r and works for whom it works. */
  ghost predicate ChargedAfresh(s: State, f: nat, r: nat, works: Option<nat>)
    requires Runs(s, f) && s.fibers[f].job.Some?
  {
    exists g :: Charged(Perform(s, f, Async), g, Job(s.nextFuture, Some(r), None, works))
  }

  /**
   How another request's id gets onto a fiber: a child's fiber rejoins the pool with its request's id
   still in its scope.  The next ownerless job to begin there, whomever it works for, runs with that id and
   what it spawns is listed among the children of that request.
   */
  lemma ChildScopeOutlivesItsJob(s: State, f: nat, r: nat, next: nat, works: Option<nat>)
    requires Runs(s, f) && s.fibers[f].job.Some? && s.fibers[f].scope == Some(r)
    requires s.fibers[f].job.value.req == Some(r) && s.fibers[f].job.value.handles.None?
    ensures var t, job := FinishJob(s, f), Job(next, None, None, works);
      && Wake(f, GiveJob(JobFor(t, None, None))) in Spawn(t, None, None).ready
      && f in t.fibers && Begin(t, f, job).fibers[f].scope == Some(r)
      && forall u :: Runs(u, f) && u.fibers[f] == Begin(t, f, job).fibers[f] ==> ChargedAfresh(u, f, r, works)
  {
    var u := SettleFuture(s, s.fibers[f].job.value.future);
    SettleFibers(s, s.fibers[f].job.value.future);
    FinishKeeps(s, f);
    RetiredLast(u, f, Some(r));
    hide Inv, SettleFuture, Retire, Charged;
    var t := Retire(u, f, Some(r));
    ReusedReady(t, f);
    var job := Job(next, None, None, works);
    forall v | Runs(v, f) && v.fibers[f] == Begin(t, f, job).fibers[f]
      ensures ChargedAfresh(v, f, r, works)
    {
      var child := JobFor(v, Some(r), None);
      SpawnCharges(v, Some(r));
      var g :| Charged(Spawn(v, Some(r), None), g, child);
      assert Perform(v, f, Async) == Spawn(v, Some(r), None);
    }
  }

  /**
   The scope a fiber takes back to the pool: none if it handled a request, its request's id if it was a
   child, and otherwise whatever it had found.
   */
  lemma PoolScopeExactly(s: State, f: nat)
    requires Runs(s, f) && s.fibers[f].job.Some?
    ensures var t := FinishJob(s, f);
      f in t.fibers && (t.fibers[f].scope == None <==> s.fibers[f].job.value.handles.Some? || s.fibers[f].scope == None)
    ensures var t, job := FinishJob(s, f), s.fibers[f].job.value;
      && (ScopeFollows(s.fibers[f]) ==>
            t.fibers[f].scope == (if job.handles.Some? then None else if job.req.Some? then job.req else s.fibers[f].left))
      && t.fibers[f].left == t.fibers[f].scope
  {
    hide Inv, SettleFuture, Retire, ReleaseRequest;
    RunsBegun(s, f);
    var job := s.fibers[f].job.value;
    if job.handles.Some? {
      HandlerLeavesNoScope(s, f, job.handles.value);
      ReleaseScope(s, f, job.handles.value);
      SettleFibers(ReleaseRequest(s, f, job.handles.value), job.future);
      RetiredLast(SettleFuture(ReleaseRequest(s, f, job.handles.value), job.future), f, job.req);
    } else {
      SettleFibers(s, job.future);
      RetiredLast(SettleFuture(s, job.future), f, job.req);
    }
  }

  lemma RetiredLast(s: State, f: nat, req: Option<nat>)
    requires f in s.fibers
    ensures var t := Retire(s, f, req);
      && t.idle != [] && t.idle[|t.idle| - 1] == f && f in t.fibers
      && t.fibers[f].scope == s.fibers[f].scope && t.fibers[f].left == s.fibers[f].scope
  {
  }

  lemma ReusedReady(s: State, f: nat)
    requires s.idle != [] && s.idle[|s.idle| - 1] == f && f in s.fibers
    ensures Wake(f, GiveJob(JobFor(s, None, None))) in Spawn(s, None, None).ready
  {
  }

  /** A request's own fiber, in contrast, always goes back with an empty scope. */
  lemma HandlerLeavesNoScope(s: State, f: nat, r: nat)
    requires Runs(s, f) && s.fibers[f].job.Some? && s.fibers[f].job.value.handles == Some(r)
    ensures f in FinishJob(s, f).fibers && FinishJob(s, f).fibers[f].scope == None
  {
    var t := ReleaseRequest(s, f, r);
    ReleaseScope(s, f, r);
    var u := SettleFuture(t, s.fibers[f].job.value.future);
    SettleFibers(t, s.fibers[f].job.value.future);
    RetiredLast(u, f, s.fibers[f].job.value.req);
    hide Inv, SettleFuture, Retire, ReleaseRequest;
  }

  lemma ReleaseScope(s: State, f: nat, r: nat)
    requires Runs(s, f) && s.fibers[f].job.Some? && s.fibers[f].job.value.handles == Some(r)
    ensures f in ReleaseRequest(s, f, r).fibers && ReleaseRequest(s, f, r).fibers[f].scope == None
  {
    hide Inv;
    var (gate, admitted) := Admission.Release(s.gate, r);
    ForgetKeeps(s, f, r);
    GateIsSeparate(Forget(s, f, r), gate);
    HandlersKeepScope(Forget(s, f, r).(gate := gate), admitted, f);
  }

  lemma {:induction false} HandlersKeepScope(s: State, ids: seq<nat>, f: nat)
    requires f in s.fibers && Inv(s)
    ensures f in SpawnHandlers(s, ids).fibers && SpawnHandlers(s, ids).fibers[f].scope == s.fibers[f].scope
    decreases |ids|
  {
    hide Inv;
    if ids != [] {
      SpawnKeepsScope(s, Some(ids[0]), f);
      SpawnKeeps(s, None, Some(ids[0]));
      hide Spawn;
      HandlersKeepScope(Spawn(s, None, Some(ids[0])), ids[1..], f);
    }
  }

  lemma SpawnKeepsScope(s: State, handles: Option<nat>, f: nat)
    requires f in s.fibers && Inv(s)
    ensures f in Spawn(s, None, handles).fibers && Spawn(s, None, handles).fibers[f].scope == s.fibers[f].scope
  {
    hide Inv, FreshInv, Reuse, Create;
    FreshFibers(s);
    var t, job := WithFuture(s, true), JobFor(s, None, handles);
    CreateScope(t, job, f);
    if t.idle != [] && t.idle[|t.idle| - 1] in t.fibers {
      ReuseScope(t, t.idle[|t.idle| - 1], job, f);
    }
  }

  lemma FreshFibers(s: State)
    requires Inv(s)
    ensures s.nextFiber !in s.fibers
  {
  }

  lemma ReuseScope(s: State, g: nat, job: Job, f: nat)
    requires f in s.fibers && s.idle != [] && g in s.fibers
    ensures f in Reuse(s, g, job).fibers && Reuse(s, g, job).fibers[f].scope == s.fibers[f].scope
  {
  }

  lemma CreateScope(s: State, job: Job, f: nat)
    requires f in s.fibers && s.nextFiber !in s.fibers
    ensures f in Create(s, job).fibers && Create(s, job).fibers[f].scope == s.fibers[f].scope
  {
  }
}
