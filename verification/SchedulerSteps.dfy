/** How far one step moves the scheduler: what it reads of user code, and what it never forgets. */
module SchedulerSteps {
  import opened Prelude
  import opened Scheduler
  import opened SchedulerSafety
  import opened SchedulerRuns
  import Admission

  /** Pool entries are fibers. */
  ghost predicate Pooled(s: State)
  {
    forall f :: f in s.idle ==> f in s.fibers
  }

  /** Nothing is forgotten, the queues only get longer, and no user code is read. */
  ghost predicate Quiet(s: State, t: State)
  {
    && t.script == s.script && s.pending <= t.pending && s.ready <= t.ready
    && (Pooled(s) ==> Pooled(t))
    && (forall f :: f in s.fibers ==> f in t.fibers && (s.fibers[f].job.Some? ==> t.fibers[f].job.Some?))
  }

  lemma InvIsPooled(s: State)
    requires Inv(s)
    ensures Pooled(s)
  {
  }

  lemma TopOfPool(s: State)
    requires Pooled(s) && s.idle != []
    ensures s.idle[|s.idle| - 1] in s.fibers
  {
    assert s.idle[|s.idle| - 1] in s.idle;
  }

  lemma SpawnIsQuiet(s: State, req: Option<nat>, handles: Option<nat>)
    ensures Quiet(s, Spawn(s, req, handles))
  {
    PlaceIsQuiet(WithFuture(s, true), JobFor(s, req, handles));
    hide Place;
  }

  lemma PlaceIsQuiet(s: State, job: Job)
    ensures Quiet(s, Place(s, job).0)
  {
    hide Reuse, Create, Quiet;
    CreateIsQuiet(s, job);
    if s.idle != [] && s.idle[|s.idle| - 1] in s.fibers {
      ReuseIsQuiet(s, s.idle[|s.idle| - 1], job);
    }
  }

  lemma ReuseIsQuiet(s: State, f: nat, job: Job)
    requires s.idle != [] && f in s.fibers
    ensures Quiet(s, Reuse(s, f, job))
  {
  }

  lemma CreateIsQuiet(s: State, job: Job)
    ensures Quiet(s, Create(s, job))
  {
  }

  lemma {:induction false} HandlersAreQuiet(s: State, ids: seq<nat>)
    ensures Quiet(s, SpawnHandlers(s, ids))
    decreases |ids|
  {
    if ids != [] {
      hide Spawn;
      SpawnIsQuiet(s, None, Some(ids[0]));
      HandlersAreQuiet(Spawn(s, None, Some(ids[0])), ids[1..]);
    }
  }

  lemma ReleaseIsQuiet(s: State, f: nat, r: nat)
    requires f in s.fibers
    ensures Quiet(s, ReleaseRequest(s, f, r))
  {
    hide SpawnHandlers;
    var (gate, admitted) := Admission.Release(s.gate, r);
    HandlersAreQuiet(Forget(s, f, r).(gate := gate), admitted);
  }

  /** No fiber is forgotten, the queues only get longer, and no user code is read. */
  ghost predicate Grows(s: State, t: State)
  {
    t.script == s.script && s.pending <= t.pending && s.ready <= t.ready && forall f :: f in s.fibers ==> f in t.fibers
  }

  lemma SettleGrows(s: State, u: nat)
    ensures Grows(s, SettleFuture(s, u))
  {
  }

  lemma RetireGrows(s: State, f: nat, req: Option<nat>)
    requires f in s.fibers
    ensures Grows(s, Retire(s, f, req))
  {
  }

  lemma FinishGrows(s: State, f: nat)
    requires f in s.fibers && s.fibers[f].job.Some?
    ensures Grows(s, FinishJob(s, f))
  {
    hide ReleaseRequest, SettleFuture, Retire;
    var job := s.fibers[f].job.value;
    var t := if job.handles.Some? then ReleaseRequest(s, f, job.handles.value) else s;
    if job.handles.Some? {
      ReleaseIsQuiet(s, f, job.handles.value);
    }
    SettleGrows(t, job.future);
    RetireGrows(SettleFuture(t, job.future), f, job.req);
  }

  lemma ParkGrows(s: State, f: nat, u: nat)
    requires f in s.fibers
    ensures Grows(s, ParkOn(s, f)) && Grows(s, AwaitFuture(s, f, u))
  {
  }

  lemma ParkInCGrows(s: State, f: nat, extra: nat)
    requires f in s.fibers
    ensures Grows(s, ParkInC(s, f, extra))
  {
  }

  lemma SpawnGrows(s: State, req: Option<nat>)
    ensures Grows(s, Spawn(s, req, None))
  {
    hide Spawn;
    SpawnIsQuiet(s, req, None);
  }

  lemma PlainGrows(s: State, f: nat)
    requires f in s.fibers
    ensures Grows(s, s) && Grows(s, SubmitOp(s)) && Grows(s, WithFuture(s, false)) && Grows(s, ClearScope(s, f))
  {
  }

  lemma PerformGrows(s: State, f: nat, act: Act)
    requires f in s.fibers && s.fibers[f].job.Some?
    ensures Grows(s, Perform(s, f, act))
  {
    hide FinishJob, Spawn, ParkOn, AwaitFuture, ParkInC, SettleFuture, Arm, SubmitOp, WithFuture, ClearScope, Grows;
    PlainGrows(s, f);
    match act {
      case Async => SpawnGrows(s, s.fibers[f].scope);
      case Sleep => ParkGrows(s, f, 0);
      case Await(fut) => ParkGrows(s, f, fut);
      case Block(extra) => ParkInCGrows(s, f, extra);
      case Settle(fut) => SettleGrows(s, fut);
      case Deadline => if s.fibers[f].scope.Some? { ArmGrows(s, s.fibers[f].scope.value); }
      case Finish => FinishGrows(s, f);
      case _ =>
    }
  }

  lemma ArmGrows(s: State, r: nat)
    ensures Grows(s, Arm(s, r))
  {
  }

  /** User code that runs reads at least one act; user code that reads none has not run. */
  lemma {:induction false} UserReads(s: State)
    ensures |RunUser(s).script| <= |s.script|
    ensures Active(s) ==> |RunUser(s).script| < |s.script|
    ensures !Active(s) ==> RunUser(s) == s
    ensures forall f :: f in s.fibers ==> f in RunUser(s).fibers
    ensures s.pending <= RunUser(s).pending && s.ready <= RunUser(s).ready
    decreases |s.script|
  {
    hide Perform;
    if Active(s) {
      PerformGrows(s.(script := s.script[1..]), s.current.value, s.script[0]);
      UserReads(Perform(s.(script := s.script[1..]), s.current.value, s.script[0]));
    }
  }

  ghost predicate SameQueues(s: State, t: State)
  {
    t.script == s.script && t.pending == s.pending && t.ready == s.ready
  }

  /** What `poolBody` does with a job, and what the closures around it do first. */
  function RunAs(s: State, f: nat, job: Job, scope: Option<nat>): State
    requires f in s.fibers
  {
    s.(fibers := s.fibers[f := Fiber(Running, Some(job), scope, s.fibers[f].left)], current := Some(f))
  }

  function Enter(s: State, r: nat, f: nat): State
  {
    s.(requestFibers := s.requestFibers[r := f])
  }

  lemma BeginSplits(s: State, f: nat, job: Job)
    requires f in s.fibers
    ensures Begin(s, f, job) ==
      if job.handles.Some? then Enter(RunAs(s, f, job, job.handles), job.handles.value, f)
      else RunAs(s, f, job, if job.req.Some? then job.req else s.fibers[f].scope)
  {
  }

  lemma BeginReadsNothing(s: State, f: nat, job: Job)
    requires f in s.fibers
    ensures SameQueues(s, Begin(s, f, job))
  {
  }

  lemma ContinueReadsNothing(s: State, f: nat)
    requires f in s.fibers
    ensures SameQueues(s, Continue(s, f))
  {
  }

  lemma UnwindReadsNothing(s: State, f: nat)
    requires f in s.fibers
    ensures SameQueues(s, Unwind(s, f))
  {
    hide Continue;
    ContinueReadsNothing(s, f);
    match s.fibers[f].at {
      case OnOp(_) => ContinueReadsNothing(s.(parkedOn := s.parkedOn - {f}), f);
      case InC(ops) => ContinueReadsNothing(s.(parked := s.parked - ops), f);
      case _ =>
    }
  }

  lemma StartReadsNothing(s: State, f: nat, job: Job)
    requires f in s.fibers
    ensures SameQueues(s, Start(s, f, job))
  {
    hide Begin;
    BeginReadsNothing(s.(log := s.log + [Started(f, s.fibers[f].at, job, s.fibers[f].scope)]), f, job);
  }

  lemma ResumeReadsNothing(s: State, f: nat, value: Value)
    requires f in s.fibers
    ensures SameQueues(s, Resume(s, f, value))
  {
    hide Begin, Unwind;
    var t := s.(log := s.log + [Resumed(f, s.fibers[f].at, SettledAt(s, s.fibers[f].at), value, s.fibers[f].scope)]);
    UnwindReadsNothing(t, f);
    if value.GiveJob? {
      BeginReadsNothing(t, f, value.job);
    }
  }

  /** User code was read, or an entry left the queue. */
  ghost predicate Less(script: seq<Act>, queue: seq<Wake>, oldScript: seq<Act>, oldQueue: seq<Wake>)
  {
    |script| < |oldScript| || (script == oldScript && |queue| < |oldQueue|)
  }

  /** Popping one entry always makes progress, so the guard of `StartPending` never stops it early. */
  lemma StartFirstProgress(s: State)
    requires s.pending != []
    ensures Less(StartFirst(s).script, StartFirst(s).pending, s.script, s.pending)
  {
    hide RunUser, Start;
    var w, t := s.pending[0], s.(pending := s.pending[1..]);
    if w.fiber in t.fibers && w.value.GiveJob? {
      StartReadsNothing(t, w.fiber, w.value.job);
      UserReads(Start(t, w.fiber, w.value.job));
    }
  }

  lemma ResumeFirstProgress(s: State)
    requires s.ready != []
    ensures Less(ResumeFirst(s).script, ResumeFirst(s).ready, s.script, s.ready)
  {
    hide RunUser, Resume;
    var w, t := s.ready[0], s.(ready := s.ready[1..]);
    if w.fiber in t.fibers {
      ResumeReadsNothing(t, w.fiber, w.value);
      UserReads(Resume(t, w.fiber, w.value));
    }
  }

  lemma PendingHead(s: State)
    requires Inv(s) && s.pending != []
    ensures s.pending[0].fiber in s.fibers && s.pending[0].value.GiveJob?
  {
    assert s.pending[0] in s.pending;
  }

  /** At most one op in `$waiting` leads to a fiber, so the order of the scan does not matter. */
  lemma WaitingIsUnique(s: State, f: nat, op: nat)
    requires Inv(s) && op in s.waiting && s.waiting[op] == f
    ensures WaitingOp(s, f) == Some(op)
  {
  }

  /** One throw of the walk leaves every later fiber as reachable as it was. */
  lemma WalkStep(s: State, fs: seq<nat>, k: nat, r: nat)
    requires Inv(s) && k < |fs| && NoDup(fs) && (forall f :: f in fs ==> f in s.fibers)
    requires AtLoop(s) ==> forall j :: k <= j < |fs| ==> Reachable(s, fs[j], r)
    ensures var t := ThrowInto(s, fs[k], r);
      && (forall f :: f in fs ==> f in t.fibers)
      && (AtLoop(t) ==> forall j :: k < j < |fs| ==> Reachable(t, fs[j], r))
  {
    hide Inv, Reachable, Undisturbed;
    var t := ThrowInto(s, fs[k], r);
    if AtLoop(s) {
      hide ThrowInto;
      ThrowIntoEffect(s, fs[k], r);
      forall f | f in s.fibers ensures f in t.fibers {
        StillThere(s, t, t, f);
        ThrownStays(s, fs[k], r);
      }
      forall j | k < j < |fs| ensures Reachable(t, fs[j], r) {
        ReachableFacts(s, fs[j], r);
        StillReachable(s, t, fs[j], r);
      }
    }
  }

  lemma ThrownStays(s: State, f: nat, r: nat)
    requires Inv(s) && AtLoop(s) && Reachable(s, f, r)
    ensures f in ThrowInto(s, f, r).fibers
  {
    hide Inv, ThrowInto, Thrown1;
    ThrowIntoIs(s, f, r);
    if s.fibers[f].at.OnOp? || s.fibers[f].at.InC? {
      Thrown1Keeps(s, f, r);
      UserReads(Thrown1(s, f, r));
      CurrentIsAFiber(Thrown1(s, f, r));
    }
  }

  lemma CurrentIsAFiber(s: State)
    requires Inv(s) && s.current.Some?
    ensures s.current.value in s.fibers
  {
  }

  lemma GateAside(s: State, gate: Admission.Gate, f: nat, r: nat)
    ensures Reachable(s, f, r) ==> Reachable(s.(gate := gate), f, r)
    ensures f in s.fibers ==> Undisturbed(s, s.(gate := gate), f)
  {
  }

  /** What the walk over the children starts from, and what the parent's turn finds after it. */
  lemma CancelSteps(s: State, r: nat)
    requires Inv(s) && AtLoop(s)
    ensures var t := s.(gate := Admission.Cancel(s.gate, r));
      var back := Reverse(ChildrenOf(s, r));
      var walked := ThrowAll(t, back, r);
      && Inv(t) && NoDup(back) && (forall f :: f in back ==> f in t.fibers && Reachable(t, f, r)) && Inv(walked)
      && (r in s.requestFibers ==> s.requestFibers[r] in walked.fibers && (AtLoop(walked) ==> Reachable(walked, s.requestFibers[r], r)))
  {
    hide Inv, Reachable, ThrowAll, Undisturbed, ChildrenOf, Reverse, Admission.Cancel;
    var gate, back := Admission.Cancel(s.gate, r), Reverse(ChildrenOf(s, r));
    var t := s.(gate := gate);
    GateIsSeparate(s, gate);
    ChildrenFacts(s, r);
    ReverseFacts(ChildrenOf(s, r));
    forall f | f in back ensures f in t.fibers && Reachable(t, f, r) {
      GateAside(s, gate, f, r);
      ReachableFacts(s, f, r);
    }
    ThrowAllEffect(t, back, r);
    if r in s.requestFibers {
      var parent := s.requestFibers[r];
      GateAside(s, gate, parent, r);
      ReachableFacts(t, parent, r);
      StillThere(t, ThrowAll(t, back, r), ThrowAll(t, back, r), parent);
      StillReachable(t, ThrowAll(t, back, r), parent, r);
    }
  }

  lemma NobodyWaits(s: State, f: nat)
    requires forall op :: op in s.waiting ==> s.waiting[op] != f
    ensures WaitingOp(s, f) == None
  {
  }

  lemma ThrowIntoNothing(s: State, f: nat, r: nat)
    requires !AtLoop(s) || f !in s.fibers || !Suspended(s.fibers[f].at)
    ensures ThrowInto(s, f, r) == s
  {
  }

  lemma ReachableOwner(s: State, f: nat, r: nat)
    requires Reachable(s, f, r)
    ensures s.fibers[f].at.OnOp? || s.fibers[f].at.InC? ==> Belongs(s.fibers[f].job, r)
  {
  }

  lemma ResumedCKeeps(s: State, op: nat)
    requires Inv(s) && AtLoop(s) && op in s.parked
    ensures s.parked[op] in s.fibers && Inv(Resume(s.(parked := s.parked - {op}), s.parked[op], Payload(op)))
  {
    hide Inv;
    ParkedFacts(s, op);
    var f := s.parked[op];
    LeaveCKeeps(s, f, {op}, Resumed(f, s.fibers[f].at, false, Payload(op), s.fibers[f].scope));
  }

  lemma DeliveredKeeps(s: State, op: nat)
    requires Inv(s) && AtLoop(s) && op in s.waiting
    ensures s.waiting[op] in s.fibers && Inv(Resume(s.(waiting := s.waiting - {op}), s.waiting[op], Payload(op)))
  {
    hide Inv;
    WaitingFacts(s, op);
    var f := s.waiting[op];
    LeaveOpKeeps(s, f, Resumed(f, OnOp(op), false, Payload(op), s.fibers[f].scope));
  }

  lemma CutTurn(s: State, cs: seq<Completion>)
    ensures Cut(s) ==> Turn(s, cs) == s
  {
  }

  // ---------------------------------------------------------------- short batches

  lemma PollTwo(s: State, events: seq<Completion>, cs: seq<Completion>)
    requires |cs| == 2
    ensures Poll(s, events, cs) == var (t, more) := PollOne(s, events, cs[0]); PollOne(t, more, cs[1])
  {
    hide PollOne;
    var (t, more) := PollOne(s, events, cs[0]);
    PollSingle(t, more, cs[1..]);
  }

  lemma PollSingle(s: State, events: seq<Completion>, cs: seq<Completion>)
    requires |cs| == 1
    ensures Poll(s, events, cs) == PollOne(s, events, cs[0])
  {
    hide PollOne;
    assert cs[1..] == [];
  }

  lemma DispatchTwo(s: State, a: Completion, b: Completion)
    ensures Dispatch(s, [a, b]) == DispatchOne(DispatchOne(s, a), b)
  {
    hide DispatchOne;
    var t := DispatchOne(s, a);
    assert [a, b][1..] == [b] && [b][1..] == [];
    assert Dispatch(t, [b]) == Dispatch(DispatchOne(t, b), []);
  }

  lemma DispatchSingle(s: State, e: Completion)
    ensures Dispatch(s, [e]) == DispatchOne(s, e)
  {
    hide DispatchOne;
    assert [e][1..] == [];
    assert Dispatch(DispatchOne(s, e), []) == DispatchOne(s, e);
  }
}
