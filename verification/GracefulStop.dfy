/**
 The admission gate inside the running scheduler: every slot in use belongs to exactly one handler, so
 the gate's own theorems hold along every run, and the loop's stopping condition drops nothing although
 it never looks at the request queue.
 */
module GracefulStop {
  import opened Prelude
  import opened Scheduler
  import opened SchedulerSafety
  import opened SchedulerRuns
  import Admission

  predicate HandlerOf(fb: Fiber, r: nat)
  {
    fb.job.Some? && fb.job.value.handles == Some(r)
  }

  predicate Holds(gate: Admission.Gate, r: nat)
  {
    r in gate.inside || r in gate.exempt
  }

  /** Handlers hold slots, and no two handle the same request; `leaving` has just given its slot back. */
  ghost predicate Handled(fibers: Fibers, gate: Admission.Gate, leaving: Option<nat>)
  {
    && (forall f, r :: f in fibers && leaving != Some(f) && HandlerOf(fibers[f], r) ==> Holds(gate, r))
    && (forall f, g, r ::
          (f in fibers && g in fibers && leaving != Some(f) && leaving != Some(g) && HandlerOf(fibers[f], r) && HandlerOf(fibers[g], r))
          ==> f == g)
  }

  /** A blocked C hook waits only for ops the reactor still owes. */
  ghost predicate ParkedLive(s: State)
  {
    forall op :: op in s.parked ==> op in s.live
  }

  /** A request that has ended was seen, waits no more and holds no slot. */
  ghost predicate Ended(timers: seq<Timer>, gate: Admission.Gate)
  {
    forall r :: CalledOff(r) in timers ==> r in gate.arrived && !Holds(gate, r) && r !in gate.queue
  }

  /** `coming`: requests polled off the reactor that the loop has not dispatched yet. */
  ghost predicate GateOk(s: State, coming: set<nat>)
  {
    && Admission.Inv(s.gate)
    && Handled(s.fibers, s.gate, None)
    && (forall id :: id in s.gate.arrived ==> id < s.nextId)
    && (forall id :: id in coming ==> id !in s.gate.arrived && id < s.nextId)
    && ParkedLive(s)
    && Ended(s.timers, s.gate)
  }

  /** No job was given to a new handler, the gate is as before, and new C parks are live. */
  ghost predicate NoNewHandlers(s: State, t: State)
  {
    && t.gate == s.gate && t.nextId >= s.nextId
    && (forall f :: f in t.fibers ==> t.fibers[f].job.None? || t.fibers[f].job.value.handles.None? || (f in s.fibers && t.fibers[f].job == s.fibers[f].job))
    && (forall op :: op in t.parked ==> op in s.parked || op in t.live)
    && s.live <= t.live
    && (forall r :: CalledOff(r) in t.timers ==> CalledOff(r) in s.timers)
  }

  lemma HandledSame(fibers: Fibers, more: Fibers, gate: Admission.Gate, leaving: Option<nat>)
    requires Handled(fibers, gate, leaving)
    requires forall f :: f in more ==> more[f].job.None? || more[f].job.value.handles.None? || (f in fibers && more[f].job == fibers[f].job)
    ensures Handled(more, gate, leaving)
  {
    assert forall f, r :: f in more && HandlerOf(more[f], r) ==> f in fibers && HandlerOf(fibers[f], r);
  }

  lemma GateSame(s: State, t: State, coming: set<nat>)
    requires GateOk(s, coming) && NoNewHandlers(s, t)
    ensures GateOk(t, coming)
  {
    HandledSame(s.fibers, t.fibers, s.gate, None);
    hide Admission.Inv, Handled;
  }

  lemma SpawnQuiet(s: State, req: Option<nat>)
    ensures NoNewHandlers(s, Spawn(s, req, None))
  {
    hide Place, OriginOf;
    PlaceQuiet(WithFuture(s, true), JobFor(s, req, None));
  }

  lemma PlaceQuiet(s: State, job: Job)
    requires job.handles.None?
    ensures NoNewHandlers(s, Place(s, job).0)
  {
    hide Reuse, Create, NoNewHandlers;
    CreateQuiet(s, job);
    if s.idle != [] && s.idle[|s.idle| - 1] in s.fibers {
      ReuseQuiet(s, s.idle[|s.idle| - 1], job);
    }
  }

  lemma ReuseQuiet(s: State, f: nat, job: Job)
    requires job.handles.None? && s.idle != [] && f in s.fibers
    ensures NoNewHandlers(s, Reuse(s, f, job))
  {
  }

  lemma CreateQuiet(s: State, job: Job)
    requires job.handles.None?
    ensures NoNewHandlers(s, Create(s, job))
  {
  }

  lemma ParkOnQuiet(s: State, f: nat)
    requires f in s.fibers
    ensures NoNewHandlers(s, ParkOn(s, f))
  {
  }

  lemma AwaitQuiet(s: State, f: nat, u: nat)
    requires f in s.fibers
    ensures NoNewHandlers(s, AwaitFuture(s, f, u))
  {
  }

  lemma ParkInCQuiet(s: State, f: nat, extra: nat)
    requires f in s.fibers
    ensures NoNewHandlers(s, ParkInC(s, f, extra))
  {
  }

  lemma SettleQuiet(s: State, u: nat)
    ensures NoNewHandlers(s, SettleFuture(s, u))
  {
  }

  lemma ArmQuiet(s: State, r: nat)
    ensures NoNewHandlers(s, Arm(s, r))
  {
  }

  lemma RetireQuiet(s: State, f: nat, req: Option<nat>)
    requires f in s.fibers
    ensures NoNewHandlers(s, Retire(s, f, req))
  {
  }

  lemma PlainQuiet(s: State)
    ensures NoNewHandlers(s, SubmitOp(s)) && NoNewHandlers(s, WithFuture(s, false))
  {
  }

  lemma LeaveScopeQuiet(s: State, f: nat)
    requires f in s.fibers && s.fibers[f].job.Some?
    ensures NoNewHandlers(s, LeaveRequestScope(s, f))
  {
    hide NoNewHandlers, ClearScope;
    QuietSelf(s);
    ClearScopeQuiet(s, f);
  }

  lemma ClearScopeQuiet(s: State, f: nat)
    requires f in s.fibers
    ensures NoNewHandlers(s, ClearScope(s, f))
  {
  }

  lemma QuietSelf(s: State)
    ensures NoNewHandlers(s, s)
  {
  }

  // ---------------------------------------------------------------- a handler finishes

  lemma HandledGive(fibers: Fibers, gate: Admission.Gate, leaving: Option<nat>, x: nat, fb: Fiber, id: nat)
    requires Handled(fibers, gate, leaving) && (x in fibers ==> fibers[x].job.None?) && Holds(gate, id) && HandlerOf(fb, id)
    requires forall g :: g in fibers && leaving != Some(g) ==> !HandlerOf(fibers[g], id)
    ensures Handled(fibers[x := fb], gate, leaving)
  {
    GiveIs(fb, id);
    var more := fibers[x := fb];
    forall g, r | g in more && HandlerOf(more[g], r) ensures (g == x && r == id) || (g != x && g in fibers && HandlerOf(fibers[g], r)) {
    }
  }

  lemma HandledLeave(fibers: Fibers, gate: Admission.Gate, next: Admission.Gate, f: nat, r: nat)
    requires Handled(fibers, gate, None) && f in fibers && HandlerOf(fibers[f], r)
    requires forall q :: q != r && Holds(gate, q) ==> Holds(next, q)
    ensures Handled(fibers, next, Some(f))
    ensures forall g :: g in fibers && g != f ==> !HandlerOf(fibers[g], r)
  {
  }

  lemma HandledLeft(fibers: Fibers, gate: Admission.Gate, f: nat)
    requires Handled(fibers, gate, Some(f)) && f in fibers && fibers[f].job.None?
    ensures Handled(fibers, gate, None)
  {
  }

  /** No fiber other than the leaving one handles any of these ids. */
  ghost predicate Unhandled(fibers: Fibers, leaving: Option<nat>, ids: seq<nat>)
  {
    forall g, id :: g in fibers && leaving != Some(g) && id in ids ==> !HandlerOf(fibers[g], id)
  }

  lemma UnhandledHead(fibers: Fibers, leaving: Option<nat>, ids: seq<nat>)
    requires Unhandled(fibers, leaving, ids) && ids != []
    ensures Unhandled(fibers, leaving, [ids[0]])
  {
    assert ids[0] in ids;
  }

  lemma GiveIs(fb: Fiber, id: nat)
    requires fb.job.Some? && fb.job.value.handles == Some(id)
    ensures HandlerOf(fb, id) && forall r :: HandlerOf(fb, r) ==> r == id
  {
  }

  ghost predicate OnlyNewHandler(s: State, t: State, id: nat)
  {
    forall g, r :: g in t.fibers && HandlerOf(t.fibers[g], r) ==> r == id || (g in s.fibers && HandlerOf(s.fibers[g], r))
  }

  lemma ReuseHandled(s: State, job: Job, id: nat, leaving: Option<nat>)
    requires Inv(s) && s.idle != [] && job.handles == Some(id)
    requires Handled(s.fibers, s.gate, leaving) && Holds(s.gate, id) && Unhandled(s.fibers, leaving, [id])
    ensures var x := s.idle[|s.idle| - 1];
      x in s.fibers && Handled(Reuse(s, x, job).fibers, s.gate, leaving) && OnlyNewHandler(s, Reuse(s, x, job), id)
  {
    hide Inv, Handled, HandlerOf, Holds;
    IdleFacts(s);
    var x := s.idle[|s.idle| - 1];
    assert id in [id];
    GiveIs(s.fibers[x].(job := Some(job)), id);
    HandledGive(s.fibers, s.gate, leaving, x, s.fibers[x].(job := Some(job)), id);
  }

  lemma CreateHandled(s: State, job: Job, id: nat, leaving: Option<nat>)
    requires Inv(s) && job.handles == Some(id)
    requires Handled(s.fibers, s.gate, leaving) && Holds(s.gate, id) && Unhandled(s.fibers, leaving, [id])
    ensures Handled(Create(s, job).fibers, s.gate, leaving) && OnlyNewHandler(s, Create(s, job), id)
  {
    hide Inv, Handled, HandlerOf, Holds;
    CreateNew(s, job);
    assert id in [id];
    GiveIs(Fiber(Fresh, Some(job), None, None), id);
    HandledGive(s.fibers, s.gate, leaving, s.nextFiber, Fiber(Fresh, Some(job), None, None), id);
  }

  lemma SpawnHandled(s: State, id: nat, leaving: Option<nat>)
    requires Inv(s) && Handled(s.fibers, s.gate, leaving) && Holds(s.gate, id) && Unhandled(s.fibers, leaving, [id])
    ensures var t := Spawn(s, None, Some(id)); Handled(t.fibers, s.gate, leaving) && OnlyNewHandler(s, t, id)
  {
    hide Inv, Handled, HandlerOf, Holds, Unhandled, Reuse, Create;
    var w, job := WithFuture(s, true), JobFor(s, None, Some(id));
    WithFutureKeeps(s, true);
    if w.idle != [] {
      ReuseHandled(w, job, id, leaving);
    } else {
      CreateHandled(w, job, id, leaving);
    }
  }

  lemma CreateNew(s: State, job: Job)
    requires Inv(s)
    ensures s.nextFiber !in s.fibers
  {
    CreateFresh(s, job);
  }

  lemma {:induction false} SpawnHandlersHandled(s: State, ids: seq<nat>, leaving: Option<nat>)
    requires Inv(s) && Handled(s.fibers, s.gate, leaving) && NoDup(ids)
    requires (forall id :: id in ids ==> Holds(s.gate, id)) && Unhandled(s.fibers, leaving, ids)
    ensures var t := SpawnHandlers(s, ids);
      && Handled(t.fibers, s.gate, leaving) && t.gate == s.gate && t.nextId == s.nextId && t.parked == s.parked && t.live == s.live
      && t.timers == s.timers
    decreases |ids|
  {
    hide Inv, Handled, HandlerOf, Holds, Spawn;
    if ids != [] {
      UnhandledHead(s.fibers, leaving, ids);
      var id, rest := ids[0], ids[1..];
      SpawnHandled(s, id, leaving);
      SpawnKeeps(s, None, Some(id));
      SpawnLog(s, None, Some(id));
      assert forall q :: q in rest ==> q in ids && q != id;
      assert NoDup(rest);
      SpawnHandlersHandled(Spawn(s, None, Some(id)), rest, leaving);
    }
  }

  /** Releasing a request: its own slot goes back, and each newly admitted request gets one handler. */
  lemma ReleaseGate(s: State, f: nat, r: nat, coming: set<nat>)
    requires Runs(s, f) && GateOk(s, coming) && HandlerOf(s.fibers[f], r)
    ensures var t := ReleaseRequest(s, f, r);
      && Admission.Inv(t.gate) && Handled(t.fibers, t.gate, Some(f))
      && (forall id :: id in t.gate.arrived ==> id < t.nextId) && ParkedLive(t)
      && (forall id :: id in coming ==> id !in t.gate.arrived && id < t.nextId)
      && Ended(t.timers, t.gate)
  {
    hide Inv, Handled, HandlerOf, Admission.Inv, Unhandled, Ended;
    var (gate, admitted) := Admission.Release(s.gate, r);
    var forgotten := Forget(s, f, r);
    GateHolds(s, f, r, coming);
    ReleaseFacts(s, f, r, coming);
    ForgetKeeps(s, f, r);
    GateIsSeparate(forgotten, gate);
    EndedRelease(s, f, r, coming);
    HandledLeave(s.fibers, s.gate, gate, f, r);
    ForgetFibers(s, f, r, gate);
    SpawnHandlersHandled(forgotten.(gate := gate), admitted, Some(f));
  }

  lemma EndedRelease(s: State, f: nat, r: nat, coming: set<nat>)
    requires GateOk(s, coming) && f in s.fibers && HandlerOf(s.fibers[f], r)
    ensures Ended(Forget(s, f, r).timers, Admission.Release(s.gate, r).0)
  {
    GateHolds(s, f, r, coming);
    HeldApart(s.gate, r);
    DrainLeaves(Admission.Leave(s.gate, r));
    assert Forget(s, f, r).timers == s.timers + [CalledOff(r)];
    hide Forget, Admission.Drain, Admission.Inv, Handled;
  }

  lemma HeldApart(g: Admission.Gate, r: nat)
    requires Admission.Inv(g) && Holds(g, r)
    ensures r in g.arrived && r !in g.queue
  {
  }

  /** Draining gives slots only to what waited. */
  lemma {:induction false} DrainLeaves(g: Admission.Gate)
    ensures var h := Admission.Drain(g).0;
      && h.arrived == g.arrived && (forall r :: Holds(h, r) ==> Holds(g, r) || r in g.queue) && (forall r :: r in h.queue ==> r in g.queue)
    decreases |g.queue|
  {
    if g.queue != [] && Admission.HasRoom(g) {
      DrainLeaves(Admission.Pop(g));
    }
  }

  lemma ForgetFibers(s: State, f: nat, r: nat, gate: Admission.Gate)
    requires f in s.fibers
    ensures Handled(s.fibers, gate, Some(f)) ==> Handled(Forget(s, f, r).fibers, gate, Some(f))
    ensures forall ids :: Unhandled(s.fibers, Some(f), ids) ==> Unhandled(Forget(s, f, r).fibers, Some(f), ids)
    ensures Forget(s, f, r).parked == s.parked && Forget(s, f, r).live >= s.live && Forget(s, f, r).nextId >= s.nextId
  {
    if Handled(s.fibers, gate, Some(f)) {
      HandledSame(s.fibers, Forget(s, f, r).fibers, gate, Some(f));
    }
  }

  lemma GateHolds(s: State, f: nat, r: nat, coming: set<nat>)
    requires GateOk(s, coming) && f in s.fibers && HandlerOf(s.fibers[f], r)
    ensures Holds(s.gate, r)
  {
  }

  lemma ReleaseFacts(s: State, f: nat, r: nat, coming: set<nat>)
    requires GateOk(s, coming) && f in s.fibers && HandlerOf(s.fibers[f], r)
    ensures var (gate, admitted) := Admission.Release(s.gate, r);
      && Admission.Inv(gate) && gate.arrived == s.gate.arrived && NoDup(admitted)
      && (forall id :: id in admitted ==> Holds(gate, id))
      && (forall q :: q != r && Holds(s.gate, q) ==> Holds(gate, q))
      && Unhandled(s.fibers, Some(f), admitted)
  {
    GateHolds(s, f, r, coming);
    LeaveCore(s.gate, r);
    Admission.StepKeeps(s.gate, Admission.Finished(r));
    Admission.DrainAdmits(Admission.Leave(s.gate, r));
    hide Admission.Inv, Admission.Core, Admission.Drain;
  }

  lemma LeaveCore(g: Admission.Gate, r: nat)
    requires Admission.Inv(g) && Holds(g, r)
    ensures Admission.Core(Admission.Leave(g, r))
    ensures forall id :: id in g.queue ==> !Holds(g, id)
  {
  }

  lemma FinishGate(s: State, f: nat, coming: set<nat>)
    requires Runs(s, f) && GateOk(s, coming) && s.fibers[f].job.Some?
    ensures GateOk(FinishJob(s, f), coming)
  {
    hide Inv, Handled, Admission.Inv, SettleFuture, Retire, ReleaseRequest;
    var job := s.fibers[f].job.value;
    var t := if job.handles.Some? then ReleaseRequest(s, f, job.handles.value) else s;
    if job.handles.Some? {
      ReleaseGate(s, f, job.handles.value, coming);
      ReleaseKeeps(s, f, job.handles.value);
    }
    SettleQuiet(t, job.future);
    var u := SettleFuture(t, job.future);
    SettleFibers(t, job.future);
    RetireQuiet(u, f, job.req);
    RetireFibers(u, f, job.req);
    var v := Retire(u, f, job.req);
    if job.handles.Some? {
      HandledSame(u.fibers, v.fibers, u.gate, Some(f));
      HandledLeft(v.fibers, v.gate, f);
    } else {
      HandledSame(u.fibers, v.fibers, u.gate, None);
    }
  }

  lemma SettleFibers(s: State, u: nat)
    ensures SettleFuture(s, u).fibers == s.fibers
  {
  }

  lemma RetireFibers(s: State, f: nat, req: Option<nat>)
    requires f in s.fibers
    ensures f in Retire(s, f, req).fibers && Retire(s, f, req).fibers[f].job.None?
  {
  }

  lemma PerformGate(s: State, f: nat, act: Act, coming: set<nat>)
    requires Runs(s, f) && GateOk(s, coming) && s.fibers[f].job.Some?
    ensures GateOk(Perform(s, f, act), coming)
  {
    hide Inv, GateOk, NoNewHandlers, ParkOn, AwaitFuture, ParkInC, SettleFuture, Arm, FinishJob, Spawn;
    var scope := s.fibers[f].scope;
    QuietSelf(s);
    match act {
      case Async => SpawnQuiet(s, scope);
      case Sleep => ParkOnQuiet(s, f);
      case Await(fut) => AwaitQuiet(s, f, fut);
      case Block(extra) => ParkInCQuiet(s, f, extra);
      case Settle(fut) => SettleQuiet(s, fut);
      case Deadline => if scope.Some? { ArmQuiet(s, scope.value); }
      case Finish => FinishGate(s, f, coming);
      case LeaveScope => LeaveScopeQuiet(s, f);
      case _ => PlainQuiet(s);
    }
    if act != Finish {
      GateSame(s, Perform(s, f, act), coming);
    }
  }

  lemma ScriptQuiet(s: State, script: seq<Act>)
    ensures NoNewHandlers(s, s.(script := script))
  {
  }

  lemma {:induction false} UserGate(s: State, coming: set<nat>)
    requires Inv(s) && GateOk(s, coming)
    ensures GateOk(RunUser(s), coming)
    decreases |s.script|
  {
    hide Inv, GateOk, NoNewHandlers;
    if Active(s) {
      var t := s.(script := s.script[1..]);
      ScriptKeeps(s, s.script[1..]);
      ScriptQuiet(s, s.script[1..]);
      GateSame(s, t, coming);
      PerformKeeps(t, s.current.value, s.script[0]);
      PerformGate(t, s.current.value, s.script[0], coming);
      var u := Perform(t, s.current.value, s.script[0]);
      if |u.script| < |s.script| {
        UserGate(u, coming);
      }
    }
  }

  // ---------------------------------------------------------------- the loop

  lemma BeginQuiet(s: State, f: nat, job: Job)
    requires f in s.fibers && s.fibers[f].job == Some(job)
    ensures NoNewHandlers(s, Begin(s, f, job))
  {
  }

  lemma ContinueQuiet(s: State, f: nat, parkedOn: map<nat, nat>, ops: set<nat>)
    requires f in s.fibers
    ensures NoNewHandlers(s, Continue(s.(parkedOn := parkedOn, parked := s.parked - ops), f))
  {
  }

  lemma UnwindQuiet(s: State, f: nat)
    requires f in s.fibers
    ensures NoNewHandlers(s, Unwind(s, f))
  {
    hide Continue, NoNewHandlers;
    assert s.parked - {} == s.parked;
    match s.fibers[f].at
    case OnOp(_) => ContinueQuiet(s, f, s.parkedOn - {f}, {});
    case InC(ops) => ContinueQuiet(s, f, s.parkedOn, ops);
    case _ => ContinueQuiet(s, f, s.parkedOn, {});
  }

  /** Popping a queue entry, forgetting a wait and logging a transfer leave the gate alone. */
  lemma BookQuiet(s: State, pending: seq<Wake>, ready: seq<Wake>, waiting: map<nat, nat>, parked: map<nat, nat>, log: seq<Delivery>)
    requires parked.Keys <= s.parked.Keys
    ensures NoNewHandlers(s, s.(pending := pending, ready := ready, waiting := waiting, parked := parked, log := log))
  {
  }

  lemma StartFacts(s: State)
    requires Inv(s) && s.pending != []
    ensures var w := s.pending[0];
      && w.fiber in s.fibers && s.fibers[w.fiber].at == Fresh && w.value.GiveJob? && s.fibers[w.fiber].job == Some(w.value.job)
  {
    assert s.pending[0] in s.pending;
  }

  lemma StartFirstGate(s: State, coming: set<nat>)
    requires Inv(s) && GateOk(s, coming) && AtLoop(s) && s.pending != []
    ensures GateOk(StartFirst(s), coming)
  {
    hide Inv, GateOk, NoNewHandlers, RunUser, Begin;
    StartFacts(s);
    StartKeeps(s);
    var w := s.pending[0];
    var t := s.(pending := s.pending[1..], log := s.log + [Started(w.fiber, Fresh, w.value.job, s.fibers[w.fiber].scope)]);
    BookQuiet(s, s.pending[1..], s.ready, s.waiting, s.parked, t.log);
    GateSame(s, t, coming);
    BeginQuiet(t, w.fiber, w.value.job);
    GateSame(t, Begin(t, w.fiber, w.value.job), coming);
    UserGate(Begin(t, w.fiber, w.value.job), coming);
  }

  lemma {:induction false} StartPendingGate(s: State, coming: set<nat>)
    requires Inv(s) && GateOk(s, coming)
    ensures GateOk(StartPending(s), coming)
    decreases |s.script|, |s.pending|
  {
    hide Inv, GateOk, StartFirst;
    if s.pending != [] && AtLoop(s) && s.script != [] {
      StartFirstKeeps(s);
      StartFirstGate(s, coming);
      var t := StartFirst(s);
      if |t.script| < |s.script| || (t.script == s.script && |t.pending| < |s.pending|) {
        StartPendingGate(t, coming);
      }
    }
  }

  lemma ReadyJob(s: State)
    requires Inv(s) && s.ready != []
    ensures var w := s.ready[0];
      && w.fiber in s.fibers
      && (s.fibers[w.fiber].at == Idle || s.fibers[w.fiber].at.OnFuture?)
      && (s.fibers[w.fiber].at == Idle ==> w.value.GiveJob? && s.fibers[w.fiber].job == Some(w.value.job))
  {
    ReadyFacts(s);
  }

  lemma ResumeFirstGate(s: State, coming: set<nat>)
    requires Inv(s) && GateOk(s, coming) && AtLoop(s) && s.ready != []
    ensures GateOk(ResumeFirst(s), coming)
  {
    hide Inv, GateOk, NoNewHandlers, RunUser, Begin, Unwind;
    ReadyJob(s);
    ResumeTransferKeeps(s);
    var w, popped := s.ready[0], s.(ready := s.ready[1..]);
    var at := s.fibers[w.fiber].at;
    var t := popped.(log := s.log + [Resumed(w.fiber, at, SettledAt(popped, at), w.value, s.fibers[w.fiber].scope)]);
    BookQuiet(s, s.pending, s.ready[1..], s.waiting, s.parked, t.log);
    GateSame(s, t, coming);
    var u := Resume(popped, w.fiber, w.value);
    if at == Idle {
      BeginQuiet(t, w.fiber, w.value.job);
    } else {
      UnwindQuiet(t, w.fiber);
    }
    GateSame(t, u, coming);
    UserGate(u, coming);
  }

  lemma {:induction false} ResumeReadyGate(s: State, coming: set<nat>)
    requires Inv(s) && GateOk(s, coming)
    ensures GateOk(ResumeReady(s), coming)
    decreases |s.script|, |s.ready|
  {
    hide Inv, GateOk, ResumeFirst;
    if s.ready != [] && AtLoop(s) && s.script != [] {
      ResumeFirstKeeps(s);
      ResumeFirstGate(s, coming);
      var t := ResumeFirst(s);
      if |t.script| < |s.script| || (t.script == s.script && |t.ready| < |s.ready|) {
        ResumeReadyGate(t, coming);
      }
    }
  }

  // ---------------------------------------------------------------- cancellation

  lemma Thrown1Gate(s: State, f: nat, r: nat, coming: set<nat>)
    requires GateOk(s, coming) && f in s.fibers && (s.fibers[f].at.OnOp? || s.fibers[f].at.InC?)
    ensures GateOk(Thrown1(s, f, r), coming)
  {
    hide GateOk, NoNewHandlers, Unwind;
    var waiting := if s.fibers[f].at.OnOp? then s.waiting - {s.fibers[f].at.op} else s.waiting;
    var t := s.(waiting := waiting, log := s.log + [Thrown(f, s.fibers[f].at, s.fibers[f].job, r)]);
    BookQuiet(s, s.pending, s.ready, waiting, s.parked, t.log);
    GateSame(s, t, coming);
    UnwindQuiet(t, f);
    GateSame(t, Unwind(t, f), coming);
  }

  lemma ThrowIntoGate(s: State, f: nat, r: nat, coming: set<nat>)
    requires Inv(s) && GateOk(s, coming) && AtLoop(s) && Reachable(s, f, r)
    ensures GateOk(ThrowInto(s, f, r), coming)
  {
    ReachableFacts(s, f, r);
    hide Inv, GateOk, ThrowInto, Thrown1, RunUser;
    ThrowIntoIs(s, f, r);
    if SitsInPark(s, f) {
      Thrown1Gate(s, f, r, coming);
      Thrown1Keeps(s, f, r);
      UserGate(Thrown1(s, f, r), coming);
    }
  }

  lemma {:induction false} ThrowAllGate(s: State, fs: seq<nat>, r: nat, coming: set<nat>)
    requires Inv(s) && GateOk(s, coming) && NoDup(fs) && forall f :: f in fs ==> Reachable(s, f, r)
    ensures GateOk(ThrowAll(s, fs, r), coming)
    decreases |fs|
  {
    hide Inv, GateOk, ThrowInto, Undisturbed, Reachable;
    if !AtLoop(s) {
      CutIsFinal(s, fs, r);
    } else if fs != [] {
      var f, rest := fs[0], fs[1..];
      ThrowIntoEffect(s, f, r);
      ThrowIntoGate(s, f, r, coming);
      var t := ThrowInto(s, f, r);
      assert forall g :: g in rest ==> g in fs && g != f;
      assert NoDup(rest);
      forall g | g in rest ensures Reachable(t, g, r) {
        ReachableFacts(s, g, r);
        StillReachable(s, t, g, r);
      }
      ThrowAllGate(t, rest, r, coming);
    }
  }

  lemma NewGate(s: State, gate: Admission.Gate, coming: set<nat>)
    requires GateOk(s, coming) && Admission.Inv(gate) && gate.arrived == s.gate.arrived
    requires gate.inside == s.gate.inside && gate.exempt == s.gate.exempt && gate.queue == s.gate.queue
    ensures GateOk(s.(gate := gate), coming)
  {
    assert forall r :: Holds(gate, r) <==> Holds(s.gate, r);
    assert Handled(s.fibers, gate, None);
    hide Admission.Inv;
  }

  lemma CancelGate(s: State, r: nat, coming: set<nat>)
    requires Inv(s) && GateOk(s, coming) && AtLoop(s)
    ensures GateOk(CancelRequest(s, r), coming)
  {
    var gate := Admission.Cancel(s.gate, r);
    Admission.StepKeeps(s.gate, Admission.ClientLeft(r));
    NewGate(s, gate, coming);
    hide Inv, GateOk, Victims, Reachable, Undisturbed;
    var t := s.(gate := gate);
    GateIsSeparate(s, gate);
    CancelIsThrowAll(s, r);
    VictimsAreReachable(s, r);
    forall g | g in Victims(s, r) ensures Reachable(t, g, r) {
      ReachableFacts(s, g, r);
      SameFiber(s, t, g);
      StillReachable(s, t, g, r);
    }
    ThrowAllGate(t, Victims(s, r), r, coming);
  }

  // ---------------------------------------------------------------- poll and dispatch

  ghost function Coming(events: seq<Completion>): set<nat>
  {
    set k | 0 <= k < |events| && events[k].Arrived? :: events[k].id
  }

  ghost predicate Orderly(events: seq<Completion>)
  {
    forall i, j :: 0 <= i < j < |events| && events[i].Arrived? && events[j].Arrived? ==> events[i].id != events[j].id
  }

  lemma GateFewer(s: State, coming: set<nat>, fewer: set<nat>)
    requires GateOk(s, coming) && fewer <= coming
    ensures GateOk(s, fewer)
  {
    hide Admission.Inv, Handled;
  }

  /** An op that no C hook is parked on may leave; so may one together with its park. */
  lemma GateLessLive(s: State, op: nat, lost: set<nat>, coming: set<nat>)
    requires GateOk(s, coming)
    ensures op !in s.parked ==> GateOk(s.(live := s.live - {op}, lost := lost), coming)
    ensures GateOk(s.(live := s.live - {op}, parked := s.parked - {op}), coming)
  {
    hide Admission.Inv, Handled;
  }

  lemma GateNewRequest(s: State, requests: set<nat>, coming: set<nat>)
    requires GateOk(s, coming)
    ensures GateOk(s.(nextId := s.nextId + 1, requests := requests), coming + {s.nextId})
    ensures GateOk(s.(requests := requests), coming)
  {
    hide Admission.Inv, Handled;
  }

  lemma {:induction false} PutKeeps(events: seq<Completion>, id: nat, e: Completion)
    requires Orderly(events) && !e.Arrived?
    ensures Orderly(Put(events, id, e)) && Coming(Put(events, id, e)) <= Coming(events)
  {
    if events != [] {
      var head, rest := events[0], events[1..];
      assert events == [head] + rest;
      assert Orderly(rest);
      PutKeeps(rest, id, e);
      assert Coming(rest) <= Coming(events) by {
        assert forall k :: 0 <= k < |rest| && rest[k].Arrived? ==> events[k + 1].id in Coming(events);
      }
      if head.Arrived? {
        assert events[0].id in Coming(events);
        assert head.id !in Coming(rest);
        if head.id == id {
          assert Coming([e] + rest) <= Coming(rest) by {
            assert forall k :: 0 < k < |[e] + rest| ==> ([e] + rest)[k] == rest[k - 1];
          }
        }
      }
      assert Coming([head] + Put(rest, id, e)) <= Coming([head]) + Coming(Put(rest, id, e));
      assert Coming([head]) <= Coming(events);
    }
  }

  lemma SnocKeeps(events: seq<Completion>, e: Completion)
    requires Orderly(events) && (e.Arrived? ==> e.id !in Coming(events))
    ensures Orderly(events + [e])
    ensures Coming(events + [e]) == Coming(events) + if e.Arrived? then {e.id} else {}
  {
    var more := events + [e];
    assert more[|events|] == e;
    assert forall k :: 0 <= k < |events| ==> more[k] == events[k];
  }

  lemma ResumeCGate(s: State, op: nat, coming: set<nat>)
    requires Inv(s) && GateOk(s, coming) && AtLoop(s) && op in s.parked
    ensures var t := s.(live := s.live - {op}); t.parked[op] in t.fibers && GateOk(ResumeC(t, op), coming)
  {
    hide Inv, GateOk, NoNewHandlers, RunUser, Unwind;
    ParkedFacts(s, op);
    LiveLess(s, op, s.lost);
    var f := s.parked[op];
    var t := s.(live := s.live - {op}, parked := s.parked - {op});
    GateLessLive(s, op, s.lost, coming);
    var d := Resumed(f, s.fibers[f].at, false, Payload(op), s.fibers[f].scope);
    var u := t.(log := t.log + [d]);
    BookQuiet(t, t.pending, t.ready, t.waiting, t.parked, u.log);
    GateSame(t, u, coming);
    UnwindQuiet(u, f);
    GateSame(u, Unwind(u, f), coming);
    LeaveCKeeps(s.(live := s.live - {op}), f, {op}, d);
    UserGate(Unwind(u, f), coming);
  }

  lemma FreshComing(s: State, coming: set<nat>)
    requires GateOk(s, coming)
    ensures s.nextId !in coming
  {
  }

  lemma PollOneGate(s: State, events: seq<Completion>, c: Completion)
    requires Inv(s) && GateOk(s, Coming(events)) && Orderly(events)
    ensures var (t, more) := PollOne(s, events, c); GateOk(t, Coming(more)) && Orderly(more)
  {
    hide Inv, GateOk, ResumeC, Coming, Orderly, Put;
    if AtLoop(s) {
      match c
      case Done(op) =>
        GateLessLive(s, op, s.lost, Coming(events));
        SnocKeeps(events, c);
        assert Coming(events + [c]) == Coming(events);
        if op in s.parked { ResumeCGate(s, op, Coming(events)); }
      case Fault(op) =>
        GateLessLive(s, op, s.lost + {op}, Coming(events));
        if op in s.parked { ResumeCGate(s, op, Coming(events)); }
      case Arrived(_, exempt) =>
        FreshComing(s, Coming(events));
        GateNewRequest(s, s.requests + {s.nextId}, Coming(events));
        SnocKeeps(events, Arrived(s.nextId, exempt));
      case Gone(id) =>
        GateNewRequest(s, s.requests - {id}, Coming(events));
        PutKeeps(events, id, c);
        GateFewer(s.(requests := s.requests - {id}), Coming(events), Coming(Put(events, id, c)));
    }
  }

  lemma {:induction false} PollGate(s: State, events: seq<Completion>, cs: seq<Completion>)
    requires Inv(s) && GateOk(s, Coming(events)) && Orderly(events)
    ensures var (t, more) := Poll(s, events, cs); GateOk(t, Coming(more)) && Orderly(more)
    decreases |cs|
  {
    hide Inv, GateOk, PollOne, Coming, Orderly;
    if cs != [] {
      PollOneKeeps(s, events, cs[0]);
      PollOneGate(s, events, cs[0]);
      var (t, more) := PollOne(s, events, cs[0]);
      PollGate(t, more, cs[1..]);
    }
  }

  lemma DeliverOpGate(s: State, op: nat, coming: set<nat>)
    requires Inv(s) && GateOk(s, coming) && AtLoop(s) && op in s.waiting
    ensures s.waiting[op] in s.fibers
    ensures GateOk(RunUser(Resume(s.(waiting := s.waiting - {op}), s.waiting[op], Payload(op))), coming)
  {
    hide Inv, GateOk, NoNewHandlers, RunUser, Unwind;
    WaitingFacts(s, op);
    var f := s.waiting[op];
    var d := Resumed(f, OnOp(op), false, Payload(op), s.fibers[f].scope);
    var t := s.(waiting := s.waiting - {op}, log := s.log + [d]);
    BookQuiet(s, s.pending, s.ready, t.waiting, s.parked, t.log);
    GateSame(s, t, coming);
    UnwindQuiet(t, f);
    GateSame(t, Unwind(t, f), coming);
    LeaveOpKeeps(s, f, d);
    UserGate(Unwind(t, f), coming);
  }

  lemma ExpireGate(s: State, op: nat, coming: set<nat>)
    requires GateOk(s, coming)
    ensures op in s.deadlines ==> GateOk(Expire(s, op), coming)
  {
    hide Admission.Inv, Handled;
  }

  lemma ArriveGate(s: State, id: nat, exempt: bool, coming: set<nat>)
    requires Inv(s) && GateOk(s, coming + {id}) && id !in coming
    ensures var (gate, verdict) := Admission.Arrive(s.gate, id, exempt);
      GateOk(if verdict == Admission.Admitted then Spawn(s.(gate := gate), None, Some(id)) else s.(gate := gate), coming)
  {
    var (gate, verdict) := Admission.Arrive(s.gate, id, exempt);
    ArriveFacts(s, id, exempt, coming);
    hide Inv, GateOk, Admission.Inv, Admission.Arrive, Spawn;
    GateIsSeparate(s, gate);
    if verdict == Admission.Admitted {
      SpawnHandled(s.(gate := gate), id, None);
      SpawnLog(s.(gate := gate), None, Some(id));
      GateSpawned(s.(gate := gate), Spawn(s.(gate := gate), None, Some(id)), coming);
    }
  }

  lemma GateSpawned(s: State, t: State, coming: set<nat>)
    requires GateOk(s, coming) && SameControl(s, t) && Handled(t.fibers, s.gate, None)
    ensures GateOk(t, coming)
  {
    hide Admission.Inv, Handled;
  }

  lemma ArriveFacts(s: State, id: nat, exempt: bool, coming: set<nat>)
    requires GateOk(s, coming + {id}) && id !in coming
    ensures var (gate, verdict) := Admission.Arrive(s.gate, id, exempt);
      && GateOk(s.(gate := gate), coming)
      && (verdict == Admission.Admitted ==> Holds(gate, id) && Unhandled(s.fibers, None, [id]))
  {
    hide Admission.Inv, Admission.Arrive, Handled, Ended, Unhandled, Holds;
    var (gate, verdict) := Admission.Arrive(s.gate, id, exempt);
    assert id in coming + {id};
    Admission.StepKeeps(s.gate, Admission.Arrival(id, exempt));
    ArriveSlots(s.gate, id, exempt);
    HandledMore(s.fibers, s.gate, gate);
    EndedArrive(s.timers, s.gate, id, exempt);
    if verdict == Admission.Admitted {
      NobodyHandles(s.fibers, s.gate, id);
    }
  }

  lemma EndedArrive(timers: seq<Timer>, g: Admission.Gate, id: nat, exempt: bool)
    requires Ended(timers, g) && id !in g.arrived
    ensures Ended(timers, Admission.Arrive(g, id, exempt).0)
  {
  }

  lemma ArriveSlots(g: Admission.Gate, id: nat, exempt: bool)
    requires Admission.Inv(g) && id !in g.arrived
    ensures var (gate, verdict) := Admission.Arrive(g, id, exempt);
      && (forall r :: Holds(g, r) ==> Holds(gate, r)) && gate.arrived == g.arrived + {id} && !Holds(g, id)
      && (verdict == Admission.Admitted ==> Holds(gate, id))
  {
    SlotsArrived(g);
  }

  lemma HandledMore(fibers: Fibers, gate: Admission.Gate, more: Admission.Gate)
    requires Handled(fibers, gate, None) && forall r :: Holds(gate, r) ==> Holds(more, r)
    ensures Handled(fibers, more, None)
  {
  }

  lemma NobodyHandles(fibers: Fibers, gate: Admission.Gate, id: nat)
    requires Handled(fibers, gate, None) && !Holds(gate, id)
    ensures Unhandled(fibers, None, [id])
  {
  }

  lemma SlotsArrived(g: Admission.Gate)
    requires Admission.Inv(g)
    ensures forall r :: Holds(g, r) ==> r in g.arrived
  {
  }

  lemma DispatchOneGate(s: State, events: seq<Completion>)
    requires Inv(s) && events != [] && GateOk(s, Coming(events)) && Orderly(events)
    ensures GateOk(DispatchOne(s, events[0]), Coming(events[1..])) && Orderly(events[1..])
  {
    hide Inv, GateOk, CancelRequest, RunUser, Resume, Spawn;
    var e, rest := events[0], events[1..];
    assert events == [e] + rest;
    assert Coming(rest) <= Coming(events);
    GateFewer(s, Coming(events), Coming(rest));
    if AtLoop(s) {
      match e
      case Done(op) =>
        if op in s.deadlines {
          var r := s.deadlines[op];
          ExpireKeeps(s, op);
          ExpireGate(s, op, Coming(rest));
          CancelGate(Expire(s, op), r, Coming(rest));
        } else if op in s.waiting {
          DeliverOpGate(s, op, Coming(rest));
        }
      case Fault(_) =>
      case Arrived(id, exempt) =>
        assert events[0].id in Coming(events);
        assert id !in Coming(rest);
        GateFewer(s, Coming(events), Coming(rest) + {id});
        ArriveGate(s, id, exempt, Coming(rest));
      case Gone(id) => CancelGate(s, id, Coming(rest));
    }
  }

  lemma {:induction false} DispatchGate(s: State, events: seq<Completion>)
    requires Inv(s) && GateOk(s, Coming(events)) && Orderly(events)
    ensures GateOk(Dispatch(s, events), {})
    decreases |events|
  {
    hide Inv, GateOk, DispatchOne, Orderly;
    if events == [] {
      GateFewer(s, Coming(events), {});
    } else {
      DispatchOneKeeps(s, events[0]);
      DispatchOneGate(s, events);
      DispatchGate(DispatchOne(s, events[0]), events[1..]);
    }
  }

  lemma TurnGate(s: State, cs: seq<Completion>)
    requires Inv(s) && GateOk(s, {})
    ensures GateOk(Turn(s, cs), {})
  {
    hide Inv, GateOk, StartPending, ResumeReady, Poll, Dispatch;
    StartPendingKeeps(s);
    StartPendingGate(s, {});
    ResumeReadyKeeps(StartPending(s));
    ResumeReadyGate(StartPending(s), {});
    var t := ResumeReady(StartPending(s));
    PollKeeps(t, [], cs);
    assert Coming([]) == {};
    PollGate(t, [], cs);
    DispatchGate(Poll(t, [], cs).0, Poll(t, [], cs).1);
  }

  lemma {:induction false} TurnsGate(s: State, feed: seq<seq<Completion>>)
    requires Inv(s) && GateOk(s, {})
    ensures Inv(Turns(s, feed)) && GateOk(Turns(s, feed), {})
    decreases |feed|
  {
    hide Inv, GateOk, Turn;
    if feed != [] {
      TurnKeeps(s, feed[0]);
      TurnGate(s, feed[0]);
      TurnsGate(Turn(s, feed[0]), feed[1..]);
    }
  }
}
