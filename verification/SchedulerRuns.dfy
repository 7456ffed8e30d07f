/**
 The scheduler's guarantees over whole runs: what every turn of the loop keeps, whom a cancellation
 reaches, and what an idle loop has left behind.
 */
module SchedulerRuns {
  import opened Prelude
  import opened Scheduler
  import opened SchedulerSafety
  import Admission

  // ---------------------------------------------------------------- user code disturbs nobody else

  /** A step of the running fiber f: others are undisturbed, nothing is transferred, f goes on or stops. */
  ghost predicate Local(s: State, t: State, f: nat, g: nat)
  {
    && (g in s.fibers && g != f ==> Undisturbed(s, t, g))
    && t.log == s.log
    && (t.current == s.current || t.current == None)
  }

  lemma ParkOnLocal(s: State, f: nat, g: nat)
    requires f in s.fibers
    ensures Local(s, ParkOn(s, f), f, g)
  {
  }

  lemma AwaitLocal(s: State, f: nat, u: nat, g: nat)
    requires f in s.fibers
    ensures Local(s, AwaitFuture(s, f, u), f, g)
  {
  }

  lemma ParkInCLocal(s: State, f: nat, extra: nat, g: nat)
    requires f in s.fibers
    ensures Local(s, ParkInC(s, f, extra), f, g)
  {
  }

  lemma SettleLocal(s: State, f: nat, u: nat, g: nat)
    ensures Local(s, SettleFuture(s, u), f, g)
  {
  }

  lemma ArmLocal(s: State, f: nat, r: nat, g: nat)
    ensures Local(s, Arm(s, r), f, g)
  {
  }

  lemma ForgetLocal(s: State, f: nat, r: nat, g: nat)
    requires f in s.fibers
    ensures Local(s, Forget(s, f, r), f, g)
  {
  }

  /** Submitting an op, making a future and leaving the scope change no other fiber either. */
  lemma PlainLocal(s: State, f: nat, g: nat)
    requires f in s.fibers && s.fibers[f].job.Some?
    ensures Local(s, SubmitOp(s), f, g) && Local(s, WithFuture(s, false), f, g)
  {
  }

  lemma LeaveScopeLocal(s: State, f: nat, g: nat)
    requires f in s.fibers && s.fibers[f].job.Some?
    ensures Local(s, LeaveRequestScope(s, f), f, g)
  {
    hide Local, ClearScope;
    LocalSelf(s, f, g);
    ClearScopeLocal(s, f, g);
  }

  lemma ClearScopeLocal(s: State, f: nat, g: nat)
    requires f in s.fibers
    ensures Local(s, ClearScope(s, f), f, g)
  {
  }

  lemma RetireLocal(s: State, f: nat, req: Option<nat>, g: nat)
    requires f in s.fibers
    ensures Local(s, Retire(s, f, req), f, g)
  {
  }

  /** Spawning queues a fiber; it transfers nothing and touches neither the gate nor any op. */
  ghost predicate SameControl(s: State, t: State)
  {
    && t.log == s.log && t.current == s.current && t.script == s.script
    && t.gate == s.gate && t.nextId == s.nextId && t.parked == s.parked && t.live == s.live && t.timers == s.timers
    && t.waiting == s.waiting && t.lost == s.lost
  }

  lemma ReuseControl(s: State, f: nat, job: Job)
    requires f in s.fibers && s.idle != []
    ensures SameControl(s, Reuse(s, f, job))
  {
  }

  lemma CreateControl(s: State, job: Job)
    ensures SameControl(s, Create(s, job))
  {
  }

  lemma PlaceControl(s: State, job: Job)
    ensures SameControl(s, Place(s, job).0)
  {
    hide Reuse, Create, SameControl;
    CreateControl(s, job);
    if s.idle != [] && s.idle[|s.idle| - 1] in s.fibers {
      ReuseControl(s, s.idle[|s.idle| - 1], job);
    }
  }

  lemma AddChildControl(s: State, req: Option<nat>, f: nat)
    ensures SameControl(s, AddChild(s, req, f))
  {
  }

  lemma SpawnLog(s: State, req: Option<nat>, handles: Option<nat>)
    ensures SameControl(s, Spawn(s, req, handles))
  {
    hide Place, AddChild;
    var job := JobFor(s, req, handles);
    PlaceControl(WithFuture(s, true), job);
    AddChildControl(Place(WithFuture(s, true), job).0, req, Place(WithFuture(s, true), job).1);
  }

  lemma SpawnLocal(s: State, req: Option<nat>, handles: Option<nat>, f: nat, g: nat)
    requires Inv(s)
    ensures Local(s, Spawn(s, req, handles), f, g)
  {
    hide Inv, Undisturbed, Spawn;
    SpawnLog(s, req, handles);
    if g in s.fibers {
      SpawnUndisturbed(s, req, handles, g);
    }
  }

  lemma {:induction false} SpawnHandlersLog(s: State, ids: seq<nat>)
    ensures SpawnHandlers(s, ids).log == s.log
    decreases |ids|
  {
    hide Spawn;
    if ids != [] {
      SpawnLog(s, None, Some(ids[0]));
      SpawnHandlersLog(Spawn(s, None, Some(ids[0])), ids[1..]);
    }
  }

  lemma LocalTrans(s: State, t: State, u: State, f: nat, g: nat)
    requires Local(s, t, f, g) && Local(t, u, f, g)
    ensures Local(s, u, f, g)
  {
  }

  lemma ReleaseLocal(s: State, f: nat, r: nat, g: nat)
    requires Runs(s, f) && s.fibers[f].job.Some?
    ensures Local(s, ReleaseRequest(s, f, r), f, g)
  {
    hide Inv, Undisturbed;
    var (gate, admitted) := Admission.Release(s.gate, r);
    var t := Forget(s, f, r).(gate := gate);
    ForgetKeeps(s, f, r);
    GateIsSeparate(Forget(s, f, r), gate);
    ForgetLocal(s, f, r, g);
    GateLocal(s, Forget(s, f, r), gate, f, g);
    SpawnHandlersLog(t, admitted);
    SpawnHandlersKeep(t, admitted);
    if g in t.fibers {
      SpawnHandlersUndisturbed(t, admitted, g);
    }
    HandlersLocal(s, t, SpawnHandlers(t, admitted), f, g);
  }

  lemma GateLocal(s: State, t: State, gate: Admission.Gate, f: nat, g: nat)
    requires Local(s, t, f, g)
    ensures Local(s, t.(gate := gate), f, g)
  {
  }

  lemma HandlersLocal(s: State, t: State, u: State, f: nat, g: nat)
    requires Local(s, t, f, g) && u.log == t.log && u.current == t.current && (g in t.fibers ==> Undisturbed(t, u, g))
    ensures Local(s, u, f, g)
  {
  }

  lemma FinishLocal(s: State, f: nat, g: nat)
    requires Runs(s, f) && s.fibers[f].job.Some?
    ensures Local(s, FinishJob(s, f), f, g)
  {
    hide Inv, Local, SettleFuture, Retire, ReleaseRequest;
    var job := s.fibers[f].job.value;
    var t := if job.handles.Some? then ReleaseRequest(s, f, job.handles.value) else s;
    if job.handles.Some? {
      ReleaseLocal(s, f, job.handles.value, g);
      ReleaseKeeps(s, f, job.handles.value);
    }
    LocalSelf(s, f, g);
    SettleLocal(t, f, job.future, g);
    LocalTrans(s, t, SettleFuture(t, job.future), f, g);
    if f in SettleFuture(t, job.future).fibers {
      RetireLocal(SettleFuture(t, job.future), f, job.req, g);
      LocalTrans(s, SettleFuture(t, job.future), Retire(SettleFuture(t, job.future), f, job.req), f, g);
    }
  }

  lemma LocalSelf(s: State, f: nat, g: nat)
    ensures Local(s, s, f, g)
  {
  }

  lemma PerformLocal(s: State, f: nat, act: Act, g: nat)
    requires Runs(s, f) && s.fibers[f].job.Some?
    ensures Local(s, Perform(s, f, act), f, g)
  {
    hide Inv, Local, ParkOn, AwaitFuture, ParkInC, SettleFuture, Arm, FinishJob, Spawn;
    var scope := s.fibers[f].scope;
    LocalSelf(s, f, g);
    match act
    case Async => SpawnLocal(s, scope, None, f, g);
    case Sleep => ParkOnLocal(s, f, g);
    case Await(fut) => AwaitLocal(s, f, fut, g);
    case Block(extra) => ParkInCLocal(s, f, extra, g);
    case Settle(fut) => SettleLocal(s, f, fut, g);
    case Deadline => if scope.Some? { ArmLocal(s, f, scope.value, g); }
    case Finish => FinishLocal(s, f, g);
    case LeaveScope => LeaveScopeLocal(s, f, g);
    case _ => PlainLocal(s, f, g);
  }

  lemma GateIsSeparate(s: State, gate: Admission.Gate)
    requires Inv(s)
    ensures Inv(s.(gate := gate))
  {
    hide WaitInv, ReadyInv, PendingInv, IdleInv, FutureInv, ParkedInv, JobInv, OwnerInv, DeadlineInv, FreshInv, LogInv;
    GateFresh(s, gate);
  }

  lemma GateFresh(s: State, gate: Admission.Gate)
    requires FreshInv(s)
    ensures FreshInv(s.(gate := gate))
  {
  }

  lemma {:induction false} UserUndisturbed(s: State, g: nat)
    requires Inv(s)
    ensures g in s.fibers && s.current != Some(g) ==> Undisturbed(s, RunUser(s), g)
    ensures RunUser(s).log == s.log
    decreases |s.script|
  {
    hide Inv;
    if Active(s) {
      var t := s.(script := s.script[1..]);
      var f := s.current.value;
      ScriptKeeps(s, s.script[1..]);
      PerformKeeps(t, f, s.script[0]);
      PerformLocal(t, f, s.script[0], g);
      var u := Perform(t, f, s.script[0]);
      if |u.script| < |s.script| {
        UserUndisturbed(u, g);
      }
    }
  }

  // ---------------------------------------------------------------- the loop's own steps

  lemma StartFirstKeeps(s: State)
    requires Inv(s) && AtLoop(s) && s.pending != []
    ensures Inv(StartFirst(s))
  {
    hide Inv;
    StartKeeps(s);
    var w := s.pending[0];
    UserKeeps(Start(s.(pending := s.pending[1..]), w.fiber, w.value.job));
  }

  lemma {:induction false} StartPendingKeeps(s: State)
    requires Inv(s)
    ensures Inv(StartPending(s))
    decreases |s.script|, |s.pending|
  {
    hide Inv, StartFirst;
    if s.pending != [] && AtLoop(s) && s.script != [] {
      StartFirstKeeps(s);
      var t := StartFirst(s);
      if |t.script| < |s.script| || (t.script == s.script && |t.pending| < |s.pending|) {
        StartPendingKeeps(t);
      }
    }
  }

  lemma ResumeTransferKeeps(s: State)
    requires Inv(s) && AtLoop(s) && s.ready != []
    ensures s.ready[0].fiber in s.fibers
    ensures Inv(Resume(s.(ready := s.ready[1..]), s.ready[0].fiber, s.ready[0].value))
  {
    ReadyFacts(s);
    hide Inv, Resume, Owed;
    if s.fibers[s.ready[0].fiber].at == Idle {
      TakeJobKeeps(s);
    } else {
      WakeWaiterKeeps(s);
    }
  }

  lemma ResumeFirstKeeps(s: State)
    requires Inv(s) && AtLoop(s) && s.ready != []
    ensures Inv(ResumeFirst(s))
  {
    hide Inv, Resume, RunUser;
    ResumeTransferKeeps(s);
    UserKeeps(Resume(s.(ready := s.ready[1..]), s.ready[0].fiber, s.ready[0].value));
  }

  lemma {:induction false} ResumeReadyKeeps(s: State)
    requires Inv(s)
    ensures Inv(ResumeReady(s))
    decreases |s.script|, |s.ready|
  {
    hide Inv, ResumeFirst;
    if s.ready != [] && AtLoop(s) && s.script != [] {
      ResumeFirstKeeps(s);
      var t := ResumeFirst(s);
      if |t.script| < |s.script| || (t.script == s.script && |t.ready| < |s.ready|) {
        ResumeReadyKeeps(t);
      }
    }
  }

  // ---------------------------------------------------------------- cancellation

  /** A throw for r into this fiber, were it parked, would be legitimate. */
  ghost predicate Reachable(s: State, f: nat, r: nat)
  {
    f in s.fibers && (s.fibers[f].at.OnOp? || s.fibers[f].at.InC? ==> Belongs(s.fibers[f].job, r))
  }

  /** Where the loop or the C side can find a fiber is where its stack says it is. */
  lemma FindsParked(s: State, f: nat)
    requires Inv(s) && f in s.fibers
    ensures f in s.parkedOn <==> s.fibers[f].at.OnOp?
    ensures f in s.parkedOn ==> s.parkedOn[f] == s.fibers[f].at.op
    ensures WaitingOp(s, f).Some? ==> s.fibers[f].at.OnOp?
    ensures (exists op :: op in s.parked && s.parked[op] == f) <==> s.fibers[f].at.InC?
  {
    hide ReadyInv, PendingInv, IdleInv, FutureInv, JobInv, OwnerInv, DeadlineInv, FreshInv, LogInv;
    if s.fibers[f].at.InC? {
      var op :| op in s.fibers[f].at.ops;
      assert op in s.parked && s.parked[op] == f;
    }
  }

  /** The throw of `ThrowInto`, before any user code runs. */
  ghost function Thrown1(s: State, f: nat, r: nat): State
    requires f in s.fibers
  {
    if s.fibers[f].at.OnOp? then Throw(s.(waiting := s.waiting - {s.fibers[f].at.op}), f, r) else Throw(s, f, r)
  }

  lemma ThrowIntoIs(s: State, f: nat, r: nat)
    requires Inv(s) && AtLoop(s) && f in s.fibers
    ensures ThrowInto(s, f, r) ==
      if s.fibers[f].at.OnOp? || s.fibers[f].at.InC? then RunUser(Thrown1(s, f, r)) else s
  {
    FindsParked(s, f);
    hide Inv, RunUser, Throw;
  }

  lemma Thrown1Keeps(s: State, f: nat, r: nat)
    requires Inv(s) && AtLoop(s) && f in s.fibers && Belongs(s.fibers[f].job, r)
    requires s.fibers[f].at.OnOp? || s.fibers[f].at.InC?
    ensures var t := Thrown1(s, f, r);
      && Inv(t) && t.current == Some(f) && t.log == s.log + [Thrown(f, s.fibers[f].at, s.fibers[f].job, r)]
      && forall g :: g in s.fibers && g != f ==> Undisturbed(s, t, g)
  {
    hide Inv;
    var d := Thrown(f, s.fibers[f].at, s.fibers[f].job, r);
    if s.fibers[f].at.OnOp? {
      LeaveOpKeeps(s, f, d);
    } else {
      LeaveCKeeps(s, f, {}, d);
      assert s.parked - {} == s.parked;
    }
  }

  ghost predicate SitsInPark(s: State, f: nat)
  {
    f in s.fibers && (s.fibers[f].at.OnOp? || s.fibers[f].at.InC?)
  }

  /** The throws that offering r's cancellation to these fibers, in this order, must produce. */
  ghost function Throws(s: State, fs: seq<nat>, r: nat): seq<Delivery>
  {
    if fs == [] then []
    else (if SitsInPark(s, fs[0]) then [Thrown(fs[0], s.fibers[fs[0]].at, s.fibers[fs[0]].job, r)] else []) + Throws(s, fs[1..], r)
  }

  lemma {:induction false} ThrowsSame(s: State, t: State, fs: seq<nat>, r: nat)
    requires forall f :: f in fs ==> Undisturbed(s, t, f)
    ensures Throws(t, fs, r) == Throws(s, fs, r)
  {
    if fs != [] {
      assert fs[0] in fs;
      ThrowsSame(s, t, fs[1..], r);
    }
  }

  lemma ThrowIntoEffect(s: State, f: nat, r: nat)
    requires Inv(s) && AtLoop(s) && Reachable(s, f, r)
    ensures var t := ThrowInto(s, f, r);
      && Inv(t) && t.log == s.log + Throws(s, [f], r)
      && forall g :: g in s.fibers && g != f ==> Undisturbed(s, t, g)
  {
    hide Inv, Undisturbed, ThrowInto;
    ThrowIntoIs(s, f, r);
    assert [f][1..] == [];
    if SitsInPark(s, f) {
      Thrown1Keeps(s, f, r);
      var t := Thrown1(s, f, r);
      UserKeeps(t);
      UserUndisturbed(t, f);
      forall g | g in s.fibers && g != f ensures Undisturbed(s, RunUser(t), g) {
        UserUndisturbed(t, g);
        StillThere(s, t, RunUser(t), g);
      }
    } else {
      forall g | g in s.fibers ensures Undisturbed(s, s, g) {
        StillThere(s, s, s, g);
      }
    }
  }

  lemma StillThere(s: State, t: State, u: State, g: nat)
    ensures g in s.fibers ==> Undisturbed(s, s, g)
    ensures Undisturbed(s, t, g) ==> g in t.fibers
    ensures Undisturbed(s, t, g) && Undisturbed(t, u, g) ==> Undisturbed(s, u, g)
  {
  }

  lemma CutIsFinal(s: State, fs: seq<nat>, r: nat)
    requires !AtLoop(s)
    ensures ThrowAll(s, fs, r) == s
    decreases |fs|
  {
  }

  lemma {:induction false} ThrowAllEffect(s: State, fs: seq<nat>, r: nat)
    requires Inv(s) && AtLoop(s) && NoDup(fs) && forall f :: f in fs ==> Reachable(s, f, r)
    ensures var t := ThrowAll(s, fs, r);
      && Inv(t) && (AtLoop(t) ==> t.log == s.log + Throws(s, fs, r))
      && forall g :: g in s.fibers && g !in fs ==> Undisturbed(s, t, g)
    decreases |fs|
  {
    hide Inv, ThrowInto, Undisturbed, Reachable;
    if fs == [] {
      forall g | g in s.fibers ensures Undisturbed(s, s, g) {
        StillThere(s, s, s, g);
      }
    } else {
      var f, rest := fs[0], fs[1..];
      ReachableFacts(s, f, r);
      ThrowIntoEffect(s, f, r);
      var t := ThrowInto(s, f, r);
      assert forall g :: g in rest ==> g in fs && g != f;
      assert NoDup(rest);
      forall g | g in rest ensures Undisturbed(s, t, g) && Reachable(t, g, r) {
        ReachableFacts(s, g, r);
        StillReachable(s, t, g, r);
      }
      if AtLoop(t) {
        ThrowAllEffect(t, rest, r);
        ThrowsSame(s, t, rest, r);
        assert [f][1..] == [];
        assert Throws(s, fs, r) == Throws(s, [f], r) + Throws(s, rest, r);
      } else {
        CutIsFinal(t, rest, r);
      }
      forall g | g in s.fibers && g !in fs ensures Undisturbed(s, ThrowAll(s, fs, r), g) {
        StillThere(s, t, ThrowAll(s, fs, r), g);
      }
    }
  }

  lemma ReachableFacts(s: State, f: nat, r: nat)
    requires Reachable(s, f, r)
    ensures f in s.fibers
  {
  }

  lemma StillReachable(s: State, t: State, g: nat, r: nat)
    requires Reachable(s, g, r) && Undisturbed(s, t, g)
    ensures Reachable(t, g, r)
  {
  }

  lemma {:induction false} ThrowAllSnoc(s: State, fs: seq<nat>, f: nat, r: nat)
    ensures ThrowAll(s, fs + [f], r) == ThrowInto(ThrowAll(s, fs, r), f, r)
    decreases |fs|
  {
    hide ThrowInto;
    if fs == [] {
      assert ([] + [f])[1..] == [];
    } else {
      assert (fs + [f])[1..] == fs[1..] + [f];
      ThrowAllSnoc(ThrowInto(s, fs[0], r), fs[1..], f, r);
    }
  }

  /** Whom a cancellation is offered to: the children, last spawned first, then the request's own fiber. */
  function Victims(s: State, r: nat): seq<nat>
  {
    Reverse(ChildrenOf(s, r)) + if r in s.requestFibers then [s.requestFibers[r]] else []
  }

  lemma ChildrenFacts(s: State, r: nat)
    requires Inv(s)
    ensures NoDup(ChildrenOf(s, r))
    ensures forall f :: f in ChildrenOf(s, r) ==> Reachable(s, f, r) && s.fibers[f].job.Some? && s.fibers[f].job.value.req == Some(r)
    ensures r in s.requestFibers ==> Reachable(s, s.requestFibers[r], r) && s.requestFibers[r] !in ChildrenOf(s, r)
  {
    hide WaitInv, ReadyInv, PendingInv, IdleInv, FutureInv, ParkedInv, JobInv, DeadlineInv, FreshInv, LogInv;
    assert OwnerInv(s.fibers, s.children, s.requestFibers);
    if r in s.requestFibers {
      assert OneRole(s.fibers[s.requestFibers[r]].job);
    }
  }

  lemma ReverseFacts(fs: seq<nat>)
    requires NoDup(fs)
    ensures NoDup(Reverse(fs)) && forall f :: f in Reverse(fs) <==> f in fs
  {
    var back := Reverse(fs);
    forall f | f in fs ensures f in back {
      var k :| 0 <= k < |fs| && fs[k] == f;
      assert back[|fs| - 1 - k] == f;
    }
  }

  lemma VictimsAreReachable(s: State, r: nat)
    requires Inv(s)
    ensures NoDup(Victims(s, r)) && forall f :: f in Victims(s, r) ==> Reachable(s, f, r)
  {
    hide Inv, Reachable, ChildrenOf, Reverse;
    ChildrenFacts(s, r);
    ReverseFacts(ChildrenOf(s, r));
  }

  lemma CancelIsThrowAll(s: State, r: nat)
    ensures CancelRequest(s, r) == ThrowAll(s.(gate := Admission.Cancel(s.gate, r)), Victims(s, r), r)
  {
    hide ThrowInto;
    if r in s.requestFibers {
      ThrowAllSnoc(s.(gate := Admission.Cancel(s.gate, r)), Reverse(ChildrenOf(s, r)), s.requestFibers[r], r);
    } else {
      assert Victims(s, r) == Reverse(ChildrenOf(s, r));
    }
  }

  /**
   Cancelling a request throws exactly once into each parked fiber booked under it, children in reverse spawn
   order before the parent, whatever user code each throw sets off, and into nobody else.
   */
  lemma CancellationIsExact(s: State, r: nat)
    requires Inv(s) && AtLoop(s)
    ensures Inv(CancelRequest(s, r))
    ensures AtLoop(CancelRequest(s, r)) ==> CancelRequest(s, r).log == s.log + Throws(s, Victims(s, r), r)
    ensures forall g :: g in s.fibers && g !in Victims(s, r) ==> Undisturbed(s, CancelRequest(s, r), g)
  {
    hide Inv, Undisturbed, Reachable, Victims;
    var t := s.(gate := Admission.Cancel(s.gate, r));
    CancelIsThrowAll(s, r);
    VictimsAreReachable(s, r);
    GateIsSeparate(s, Admission.Cancel(s.gate, r));
    forall g | g in s.fibers ensures Undisturbed(s, t, g) {
      SameFiber(s, t, g);
    }
    forall g | g in Victims(s, r) ensures Undisturbed(s, t, g) && Reachable(t, g, r) {
      ReachableFacts(s, g, r);
      StillReachable(s, t, g, r);
    }
    ThrowAllEffect(t, Victims(s, r), r);
    ThrowsSame(s, t, Victims(s, r), r);
    forall g | g in s.fibers && g !in Victims(s, r) ensures Undisturbed(s, CancelRequest(s, r), g) {
      StillThere(s, t, CancelRequest(s, r), g);
    }
  }

  lemma SameFiber(s: State, t: State, g: nat)
    requires g in s.fibers && t.fibers == s.fibers
    ensures Undisturbed(s, t, g)
  {
  }

  // ---------------------------------------------------------------- poll and dispatch

  lemma LiveLess(s: State, op: nat, lost: set<nat>)
    requires Inv(s)
    ensures Inv(s.(live := s.live - {op}, lost := lost))
  {
    hide WaitInv, ReadyInv, PendingInv, IdleInv, FutureInv, ParkedInv, JobInv, OwnerInv, DeadlineInv, FreshInv, LogInv;
    FreshSame(s, s.(live := s.live - {op}, lost := lost));
  }

  lemma ParkedFacts(s: State, op: nat)
    requires Inv(s) && op in s.parked
    ensures s.parked[op] in s.fibers && s.fibers[s.parked[op]].at.InC? && op in s.fibers[s.parked[op]].at.ops
  {
  }

  lemma ResumeCKeeps(s: State, op: nat)
    requires Inv(s) && AtLoop(s) && op in s.parked
    ensures s.parked[op] in s.fibers && Inv(ResumeC(s, op))
  {
    hide Inv;
    ParkedFacts(s, op);
    var f := s.parked[op];
    LeaveCKeeps(s, f, {op}, Resumed(f, s.fibers[f].at, false, Payload(op), s.fibers[f].scope));
    UserKeeps(Resume(s.(parked := s.parked - {op}), f, Payload(op)));
  }

  lemma ArrivedKeeps(s: State, requests: set<nat>)
    requires Inv(s)
    ensures Inv(s.(nextId := s.nextId + 1, requests := requests)) && Inv(s.(requests := requests))
  {
    hide WaitInv, ReadyInv, PendingInv, IdleInv, FutureInv, ParkedInv, JobInv, OwnerInv, DeadlineInv, FreshInv, LogInv;
    FreshSame(s, s.(nextId := s.nextId + 1, requests := requests));
    FreshSame(s, s.(requests := requests));
  }

  lemma PollOneKeeps(s: State, events: seq<Completion>, c: Completion)
    requires Inv(s)
    ensures Inv(PollOne(s, events, c).0)
  {
    hide Inv, ResumeC;
    if AtLoop(s) {
      match c
      case Done(op) =>
        LiveLess(s, op, s.lost);
        if op in s.live && op in s.parked { ResumeCKeeps(s.(live := s.live - {op}), op); }
      case Fault(op) =>
        LiveLess(s, op, s.lost);
        LiveLess(s, op, s.lost + {op});
        if op in s.live && op in s.parked { ResumeCKeeps(s.(live := s.live - {op}), op); }
      case Arrived(_, _) => ArrivedKeeps(s, s.requests + {s.nextId});
      case Gone(id) => ArrivedKeeps(s, s.requests - {id});
    }
  }

  lemma {:induction false} PollKeeps(s: State, events: seq<Completion>, cs: seq<Completion>)
    requires Inv(s)
    ensures Inv(Poll(s, events, cs).0)
    decreases |cs|
  {
    hide Inv, PollOne;
    if cs != [] {
      PollOneKeeps(s, events, cs[0]);
      var (t, more) := PollOne(s, events, cs[0]);
      PollKeeps(t, more, cs[1..]);
    }
  }

  lemma WaitingFacts(s: State, op: nat)
    requires Inv(s) && op in s.waiting
    ensures s.waiting[op] in s.fibers && s.fibers[s.waiting[op]].at == OnOp(op)
  {
  }

  lemma DeliverOpKeeps(s: State, op: nat)
    requires Inv(s) && AtLoop(s) && op in s.waiting
    ensures s.waiting[op] in s.fibers
    ensures Inv(RunUser(Resume(s.(waiting := s.waiting - {op}), s.waiting[op], Payload(op))))
  {
    hide Inv;
    WaitingFacts(s, op);
    var f := s.waiting[op];
    LeaveOpKeeps(s, f, Resumed(f, OnOp(op), false, Payload(op), s.fibers[f].scope));
    UserKeeps(Resume(s.(waiting := s.waiting - {op}), f, Payload(op)));
  }

  lemma ExpireKeeps(s: State, op: nat)
    requires Inv(s) && op in s.deadlines
    ensures Inv(Expire(s, op))
  {
    hide Inv;
    DeadlineFacts(s, op);
    DisarmQuietlyKeeps(s, s.deadlines[op]);
    TimersAside(DisarmQuietly(s, s.deadlines[op]), s.timers + [Fired(op)]);
  }

  lemma TimersAside(s: State, timers: seq<Timer>)
    requires Inv(s)
    ensures Inv(s.(timers := timers))
  {
    hide WaitInv, ReadyInv, PendingInv, IdleInv, FutureInv, ParkedInv, JobInv, OwnerInv, DeadlineInv, FreshInv, LogInv;
    FreshSame(s, s.(timers := timers));
  }

  lemma DeadlineFacts(s: State, op: nat)
    requires Inv(s) && op in s.deadlines
    ensures s.deadlines[op] in s.deadlineOf && s.deadlineOf[s.deadlines[op]] == op
  {
  }

  lemma DispatchOneKeeps(s: State, e: Completion)
    requires Inv(s)
    ensures Inv(DispatchOne(s, e))
  {
    hide Inv, CancelRequest, RunUser, Resume, Spawn;
    if AtLoop(s) {
      match e
      case Done(op) =>
        if op in s.deadlines {
          ExpireKeeps(s, op);
          CancellationIsExact(Expire(s, op), s.deadlines[op]);
        } else if op in s.waiting {
          DeliverOpKeeps(s, op);
        }
      case Fault(_) =>
      case Arrived(id, exempt) =>
        var (gate, verdict) := Admission.Arrive(s.gate, id, exempt);
        GateIsSeparate(s, gate);
        SpawnKeeps(s.(gate := gate), None, Some(id));
      case Gone(id) => CancellationIsExact(s, id);
    }
  }

  lemma {:induction false} DispatchKeeps(s: State, events: seq<Completion>)
    requires Inv(s)
    ensures Inv(Dispatch(s, events))
    decreases |events|
  {
    hide Inv, DispatchOne;
    if events != [] {
      DispatchOneKeeps(s, events[0]);
      DispatchKeeps(DispatchOne(s, events[0]), events[1..]);
    }
  }

  lemma TurnKeeps(s: State, cs: seq<Completion>)
    requires Inv(s)
    ensures Inv(Turn(s, cs))
  {
    hide Inv, StartPending, ResumeReady, Poll, Dispatch;
    StartPendingKeeps(s);
    ResumeReadyKeeps(StartPending(s));
    var t := ResumeReady(StartPending(s));
    PollKeeps(t, [], cs);
    DispatchKeeps(Poll(t, [], cs).0, Poll(t, [], cs).1);
  }

  lemma {:induction false} TurnsKeep(s: State, feed: seq<seq<Completion>>)
    requires Inv(s)
    ensures Inv(Turns(s, feed))
    decreases |feed|
  {
    hide Inv, Turn;
    if feed != [] {
      TurnKeeps(s, feed[0]);
      TurnsKeep(Turn(s, feed[0]), feed[1..]);
    }
  }

  lemma BootIsSafe(budget: int, depth: int, script: seq<Act>)
    ensures Inv(Boot(budget, depth, script))
  {
  }
}
