/**
 What a run's log gives away: for whom each job really works, and which waits nothing but a throw can end.
 Both are kept along every run together with the scheduler's own invariant.
 */
module Chronicle {
  import opened Prelude
  import opened Scheduler
  import opened SchedulerSafety
  import opened SchedulerRuns
  import opened GracefulStop
  import opened SchedulerSteps
  import opened Backing
  import Admission

  // ---------------------------------------------------------------- for whom a job works

  /** The fiber has a job and has entered it. */
  predicate Begun(fb: Fiber)
  {
    fb.job.Some? && fb.at != Fresh && fb.at != Idle
  }

  /** Spawned outside any request. */
  predicate Ownerless(job: Job)
  {
    job.req.None? && job.handles.None?
  }

  /** A handler works for the request it handles. */
  predicate HandlesOwn(job: Job)
  {
    job.handles.Some? ==> job.origin == job.handles
  }

  /** Where the books name a request for the job, it is the one the job works for. */
  predicate BookedRight(job: Job)
  {
    (job.req.Some? ==> job.origin == job.req) && HandlesOwn(job)
  }

  /** The scope of a fiber, from its job and what the job before it left behind. */
  predicate ScopeFollows(fb: Fiber)
  {
    && (fb.job.Some? ==> HandlesOwn(fb.job.value))
    && if !Begun(fb) then fb.scope == fb.left
       else if fb.job.value.handles.Some? then fb.scope == None || fb.scope == fb.job.value.handles
       else if fb.job.value.req.Some? then fb.scope == fb.job.value.req
       else fb.scope == fb.left
  }

  /** The fiber's job is booked right, and so will be every job it spawns. */
  predicate Attributed(fb: Fiber)
  {
    fb.job.Some? ==> BookedRight(fb.job.value) && (Begun(fb) && fb.scope.Some? ==> fb.scope == fb.job.value.origin)
  }

  /** An ownerless job may begin on a fiber whose scope is empty or names the request it works for. */
  predicate MayBegin(job: Job, scope: Option<nat>)
  {
    Ownerless(job) && scope.Some? ==> scope == job.origin
  }

  predicate CleanStart(d: Delivery)
  {
    match d
    case Started(_, _, job, scope) => MayBegin(job, scope)
    case Resumed(_, at, _, value, scope) => at == Idle && value.GiveJob? ==> MayBegin(value.job, scope)
    case Thrown(_, _, _, _) => true
  }

  ghost predicate Clean(log: seq<Delivery>)
  {
    forall d :: d in log ==> CleanStart(d)
  }

  predicate HitsOwn(d: Delivery)
  {
    d.Thrown? ==> d.owner.Some? && BookedRight(d.owner.value)
  }

  ghost predicate Sane(fibers: Fibers, clean: bool)
  {
    forall f :: f in fibers ==> ScopeFollows(fibers[f]) && (clean ==> Attributed(fibers[f]))
  }

  ghost predicate OriginInv(s: State)
  {
    Sane(s.fibers, Clean(s.log)) && (Clean(s.log) ==> forall d :: d in s.log ==> HitsOwn(d))
  }

  // ---------------------------------------------------------------- waits whose completion never comes

  /** `since` is the length of the log when the completion was dropped. */
  datatype Wait = Wait(op: nat, fiber: nat, since: nat)

  ghost predicate ThrownSince(log: seq<Delivery>, f: nat, since: nat)
  {
    exists k :: since <= k < |log| && log[k].Thrown? && log[k].fiber == f
  }

  /** The op is awaited exactly until its fiber is thrown into, and will not complete. */
  ghost predicate Marooned(s: State, w: Wait)
  {
    && w.since <= |s.log| && w.op < s.nextId && w.op !in s.live
    && (w.op in s.waiting <==> !ThrownSince(s.log, w.fiber, w.since))
    && (w.op in s.waiting ==> s.waiting[w.op] == w.fiber)
  }

  /**
   What a run is followed for: attribution in general, what stands behind futures, slots and deadlines, a
   deadline's op that is over, a request whose client left while it was queued, whether a waiter's completion is
   still to come unless it has been `heard` of, what the log said before
   and whether user code had run out, one such wait, or what the gate has seen, while ids below `floor` are taken.
   */
  datatype Topic =
    Origins | Backs | Spent(op: nat) | Left(req: nat) | Hears(op: nat, heard: bool) | Past(log: seq<Delivery>, over: bool)
    | Lost(wait: Wait) | Seen(arrived: set<nat>, requests: set<nat>, floor: nat)

  ghost predicate Told(s: State, w: Topic)
  {
    match w
    case Origins => OriginInv(s)
    case Backs => Backed(s)
    case Spent(op) => op < s.nextId && op !in s.deadlines
    case Left(r) => r in s.gate.gaveUp
    case Hears(op, heard) =>
      (op in s.lost ==> op !in s.live && op < s.nextId) && (heard || (op in s.waiting ==> op in s.live || op in s.lost))
    case Past(log, over) => log <= s.log && (over ==> s.script == [])
    case Lost(wait) => Marooned(s, wait)
    case Seen(arrived, requests, floor) => s.gate.arrived == arrived && s.requests == requests && floor <= s.nextId
  }

  /** The op a topic is about, if any. */
  function OpOf(w: Topic): nat
  {
    match w
    case Lost(wait) => wait.op
    case Spent(op) => op
    case Hears(op, _) => op
    case _ => 0
  }

  // ---------------------------------------------------------------- user code tells nothing new

  /** Ids handed out before are awaited as before and do not come to life again. */
  ghost predicate Steady(s: State, t: State, op: nat)
  {
    && t.nextId >= s.nextId && t.lost == s.lost
    && (op in s.live ==> op in t.live) && (op in t.waiting ==> op in s.waiting || op in t.live)
    && (op < s.nextId ==>
          && (op in t.deadlines ==> op in s.deadlines)
          && (op in t.live ==> op in s.live) && (op in t.waiting <==> op in s.waiting)
          && (op in s.waiting ==> t.waiting[op] == s.waiting[op]))
  }

  ghost predicate Tame(s: State, t: State, clean: bool, op: nat)
  {
    && t.log == s.log && t.script == s.script && t.gate.arrived == s.gate.arrived && t.gate.gaveUp == s.gate.gaveUp && t.requests == s.requests
    && Steady(s, t, op) && (Sane(s.fibers, clean) ==> Sane(t.fibers, clean))
  }

  lemma TameTrans(s: State, t: State, u: State, clean: bool, op: nat)
    requires Tame(s, t, clean, op) && Tame(t, u, clean, op)
    ensures Tame(s, u, clean, op)
  {
    hide Sane;
  }

  lemma TameTold(s: State, t: State, w: Topic)
    requires Tame(s, t, Clean(s.log), OpOf(w)) && Told(s, w) && !w.Backs?
    ensures Told(t, w)
  {
    hide Sane, Clean;
  }

  lemma TameSelf(s: State, clean: bool, op: nat)
    ensures Tame(s, s, clean, op)
  {
  }

  lemma SaneFiber(fibers: Fibers, clean: bool, f: nat, fb: Fiber)
    requires Sane(fibers, clean) && ScopeFollows(fb) && (clean ==> Attributed(fb))
    ensures Sane(fibers[f := fb], clean)
  {
    hide ScopeFollows, Attributed;
  }

  lemma SaneAt(fibers: Fibers, clean: bool, f: nat)
    requires Sane(fibers, clean) && f in fibers
    ensures ScopeFollows(fibers[f]) && (clean ==> Attributed(fibers[f]))
  {
    hide ScopeFollows, Attributed;
  }

  /** A begun fiber that moves within its job stays as sane as it was. */
  lemma SaneMove(fibers: Fibers, clean: bool, f: nat, at: At)
    requires f in fibers && Begun(fibers[f]) && at != Fresh && at != Idle
    ensures Sane(fibers, clean) ==> Sane(fibers[f := fibers[f].(at := at)], clean)
  {
    hide Sane;
    if Sane(fibers, clean) {
      SaneAt(fibers, clean, f);
      SaneFiber(fibers, clean, f, fibers[f].(at := at));
    }
  }

  lemma RunsBegun(s: State, f: nat)
    requires Runs(s, f)
    ensures Begun(s.fibers[f])
  {
    hide Inv;
    RunsFacts(s, f);
  }

  lemma ParkOnTame(s: State, f: nat, clean: bool, op: nat)
    requires Runs(s, f)
    ensures Tame(s, ParkOn(s, f), clean, op)
  {
    hide Inv, Sane, Begun;
    RunsBegun(s, f);
    SaneMove(s.fibers, clean, f, OnOp(s.nextId));
  }

  lemma AwaitTame(s: State, f: nat, u: nat, clean: bool, op: nat)
    requires Runs(s, f)
    ensures Tame(s, AwaitFuture(s, f, u), clean, op)
  {
    hide Inv, Sane, Begun;
    RunsBegun(s, f);
    SaneMove(s.fibers, clean, f, OnFuture(u));
  }

  lemma ParkInCTame(s: State, f: nat, extra: nat, clean: bool, op: nat)
    requires Runs(s, f)
    ensures Tame(s, ParkInC(s, f, extra), clean, op)
  {
    hide Inv, Sane, Begun;
    RunsBegun(s, f);
    SaneMove(s.fibers, clean, f, InC(OpsFrom(s.nextId, extra)));
  }

  lemma SettleTame(s: State, u: nat, clean: bool, op: nat)
    ensures Tame(s, SettleFuture(s, u), clean, op)
  {
    hide Sane;
  }

  lemma ArmTame(s: State, r: nat, clean: bool, op: nat)
    ensures Tame(s, Arm(s, r), clean, op)
  {
    hide Disarm, Tame;
    DisarmTame(s, r, clean, op);
    ArmedTame(Disarm(s, r), r, clean, op);
    TameTrans(s, Disarm(s, r), Arm(s, r), clean, op);
  }

  lemma ArmedTame(d: State, r: nat, clean: bool, op: nat)
    ensures Tame(d, d.(deadlines := d.deadlines[d.nextId := r], deadlineOf := d.deadlineOf[r := d.nextId], live := d.live + {d.nextId},
                       nextId := d.nextId + 1, timers := d.timers + [Armed(d.nextId, r)]), clean, op)
  {
    hide Sane;
  }

  lemma PlainTame(s: State, clean: bool, op: nat)
    ensures Tame(s, SubmitOp(s), clean, op) && Tame(s, WithFuture(s, false), clean, op)
  {
    hide Sane;
  }

  /** An empty scope suits a handler at any time. */
  lemma SaneCleared(s: State, f: nat, clean: bool)
    requires Runs(s, f) && s.fibers[f].job.Some? && s.fibers[f].job.value.handles.Some?
    ensures Sane(s.fibers, clean) ==> Sane(s.fibers[f := s.fibers[f].(scope := None)], clean)
  {
    hide Inv, Sane;
    RunsBegun(s, f);
    if Sane(s.fibers, clean) {
      SaneAt(s.fibers, clean, f);
      SaneFiber(s.fibers, clean, f, s.fibers[f].(scope := None));
    }
  }

  lemma LeaveScopeTame(s: State, f: nat, clean: bool, op: nat)
    requires Runs(s, f) && s.fibers[f].job.Some?
    ensures Tame(s, LeaveRequestScope(s, f), clean, op)
  {
    hide Inv, Sane;
    if s.fibers[f].job.value.handles.Some? {
      SaneCleared(s, f, clean);
    }
  }

  lemma ForgetTame(s: State, f: nat, r: nat, gate: Admission.Gate, clean: bool, op: nat)
    requires Runs(s, f) && s.fibers[f].job.Some? && s.fibers[f].job.value.handles.Some?
    requires gate.arrived == s.gate.arrived && gate.gaveUp == s.gate.gaveUp
    ensures Tame(s, Forget(s, f, r).(gate := gate), clean, op)
  {
    hide Inv, Sane;
    SaneCleared(s, f, clean);
    DisarmTame(s, r, clean, op);
    hide Disarm;
    assert Disarm(s, r).fibers == s.fibers by { DisarmFibers(s, r); }
  }

  lemma DisarmTame(s: State, r: nat, clean: bool, op: nat)
    ensures Tame(s, Disarm(s, r), clean, op)
  {
    hide Sane;
  }

  lemma DisarmFibers(s: State, r: nat)
    ensures Disarm(s, r).fibers == s.fibers
  {
  }

  lemma RetireTame(s: State, f: nat, req: Option<nat>, clean: bool, op: nat)
    requires f in s.fibers
    ensures Tame(s, Retire(s, f, req), clean, op)
  {
    hide Sane;
    if Sane(s.fibers, clean) {
      SaneFiber(s.fibers, clean, f, s.fibers[f].(at := Idle, job := None, left := s.fibers[f].scope));
    }
  }

  lemma AssignedSane(fb: Fiber, job: Job, clean: bool)
    requires fb.at == Idle && ScopeFollows(fb) && HandlesOwn(job) && (clean ==> BookedRight(job))
    ensures ScopeFollows(fb.(job := Some(job))) && (clean ==> Attributed(fb.(job := Some(job))))
  {
  }

  lemma ReuseSane(fibers: Fibers, f: nat, job: Job, clean: bool)
    requires f in fibers && fibers[f].at == Idle && HandlesOwn(job) && (clean && Sane(fibers, clean) ==> BookedRight(job))
    ensures Sane(fibers, clean) ==> Sane(fibers[f := fibers[f].(job := Some(job))], clean)
  {
    hide Sane, BookedRight, HandlesOwn, ScopeFollows, Attributed;
    if Sane(fibers, clean) {
      SaneAt(fibers, clean, f);
      AssignedSane(fibers[f], job, clean);
      SaneFiber(fibers, clean, f, fibers[f].(job := Some(job)));
    }
  }

  lemma ReuseTame(s: State, job: Job, clean: bool, op: nat)
    requires Inv(s) && s.idle != [] && HandlesOwn(job) && (clean && Sane(s.fibers, clean) ==> BookedRight(job))
    ensures var f := s.idle[|s.idle| - 1]; f in s.fibers && Tame(s, Reuse(s, f, job), clean, op)
  {
    hide Inv, Sane, BookedRight, HandlesOwn;
    IdleFacts(s);
    ReuseSane(s.fibers, s.idle[|s.idle| - 1], job, clean);
  }

  lemma CreateTame(s: State, job: Job, clean: bool, op: nat)
    requires HandlesOwn(job) && (clean && Sane(s.fibers, clean) ==> BookedRight(job))
    ensures Tame(s, Create(s, job), clean, op)
  {
    hide Sane, BookedRight;
    if Sane(s.fibers, clean) {
      SaneFiber(s.fibers, clean, s.nextFiber, Fiber(Fresh, Some(job), None, None));
    }
  }

  lemma ForHandlesOwn(s: State, req: Option<nat>, handles: Option<nat>)
    ensures HandlesOwn(JobFor(s, req, handles))
  {
  }

  lemma SpawnTame(s: State, req: Option<nat>, handles: Option<nat>, clean: bool, op: nat)
    requires Inv(s) && (clean && Sane(s.fibers, clean) ==> BookedRight(JobFor(s, req, handles)))
    ensures Tame(s, Spawn(s, req, handles), clean, op)
  {
    hide Inv, Sane, BookedRight, HandlesOwn, Reuse, Create, JobFor;
    ForHandlesOwn(s, req, handles);
    var t, job := WithFuture(s, true), JobFor(s, req, handles);
    WithFutureKeeps(s, true);
    if t.idle != [] {
      ReuseTame(t, job, clean, op);
    } else {
      CreateTame(t, job, clean, op);
    }
  }

  lemma {:induction false} HandlersTame(s: State, ids: seq<nat>, clean: bool, op: nat)
    requires Inv(s)
    ensures Tame(s, SpawnHandlers(s, ids), clean, op)
    decreases |ids|
  {
    hide Inv, Tame, Spawn;
    TameSelf(s, clean, op);
    if ids != [] {
      var t := Spawn(s, None, Some(ids[0]));
      SpawnTame(s, None, Some(ids[0]), clean, op);
      SpawnKeeps(s, None, Some(ids[0]));
      HandlersTame(t, ids[1..], clean, op);
      TameTrans(s, t, SpawnHandlers(s, ids), clean, op);
    }
  }

  lemma ReleaseTame(s: State, f: nat, r: nat, clean: bool, op: nat)
    requires Runs(s, f) && s.fibers[f].job.Some? && s.fibers[f].job.value.handles.Some?
    ensures Tame(s, ReleaseRequest(s, f, r), clean, op)
  {
    hide Inv, Tame;
    var (gate, admitted) := Admission.Release(s.gate, r);
    var t := Forget(s, f, r).(gate := gate);
    ForgetKeeps(s, f, r);
    GateIsSeparate(Forget(s, f, r), gate);
    ReleaseSees(s.gate, r);
    ForgetTame(s, f, r, gate, clean, op);
    HandlersTame(t, admitted, clean, op);
    TameTrans(s, t, SpawnHandlers(t, admitted), clean, op);
  }

  lemma ReleaseSees(g: Admission.Gate, r: nat)
    ensures Admission.Release(g, r).0.arrived == g.arrived && Admission.Release(g, r).0.gaveUp == g.gaveUp
  {
    DrainSees(Admission.Leave(g, r));
    hide Admission.Drain;
  }

  lemma {:induction false} DrainSees(g: Admission.Gate)
    ensures Admission.Drain(g).0.arrived == g.arrived && Admission.Drain(g).0.gaveUp == g.gaveUp
    decreases |g.queue|
  {
    if g.queue != [] && Admission.HasRoom(g) {
      DrainSees(Admission.Pop(g));
    }
  }

  lemma FinishTame(s: State, f: nat, clean: bool, op: nat)
    requires Runs(s, f) && s.fibers[f].job.Some?
    ensures Tame(s, FinishJob(s, f), clean, op)
  {
    hide Inv, Tame, SettleFuture, Retire, ReleaseRequest;
    var job := s.fibers[f].job.value;
    var t := if job.handles.Some? then ReleaseRequest(s, f, job.handles.value) else s;
    TameSelf(s, clean, op);
    if job.handles.Some? {
      ReleaseTame(s, f, job.handles.value, clean, op);
      ReleaseKeeps(s, f, job.handles.value);
    }
    var u := SettleFuture(t, job.future);
    SettleTame(t, job.future, clean, op);
    SettleFibers(t, job.future);
    TameTrans(s, t, u, clean, op);
    RetireTame(u, f, job.req, clean, op);
    TameTrans(s, u, Retire(u, f, job.req), clean, op);
  }

  /** What a fiber spawns while it runs its job is booked right if the fiber is attributed. */
  lemma ChildBooked(s: State, f: nat)
    requires Runs(s, f) && s.fibers[f].job.Some?
    ensures Attributed(s.fibers[f]) ==> BookedRight(JobFor(s, s.fibers[f].scope, None))
  {
    hide Inv;
    RunsBegun(s, f);
  }

  lemma AsyncTame(s: State, f: nat, clean: bool, op: nat)
    requires Runs(s, f) && s.fibers[f].job.Some?
    ensures Tame(s, Spawn(s, s.fibers[f].scope, None), clean, op)
  {
    hide Inv, Sane, Attributed, BookedRight, JobFor, Spawn, Tame;
    ChildBooked(s, f);
    if clean && Sane(s.fibers, clean) {
      SaneAt(s.fibers, clean, f);
    }
    SpawnTame(s, s.fibers[f].scope, None, clean, op);
  }

  lemma PerformTame(s: State, f: nat, act: Act, clean: bool, op: nat)
    requires Runs(s, f) && s.fibers[f].job.Some?
    ensures Tame(s, Perform(s, f, act), clean, op)
  {
    hide Inv, Tame, ParkOn, AwaitFuture, ParkInC, SettleFuture, Arm, FinishJob, Spawn, SubmitOp, WithFuture, LeaveRequestScope;
    TameSelf(s, clean, op);
    match act {
      case Async => AsyncTame(s, f, clean, op);
      case Sleep => ParkOnTame(s, f, clean, op);
      case Await(fut) => AwaitTame(s, f, fut, clean, op);
      case Block(extra) => ParkInCTame(s, f, extra, clean, op);
      case Settle(fut) => SettleTame(s, fut, clean, op);
      case Deadline => if s.fibers[f].scope.Some? { ArmTame(s, s.fibers[f].scope.value, clean, op); }
      case LeaveScope => LeaveScopeTame(s, f, clean, op);
      case Finish => FinishTame(s, f, clean, op);
      case _ => PlainTame(s, clean, op);
    }
  }

  lemma ScriptTold(s: State, script: seq<Act>, w: Topic)
    requires Told(s, w) && (s.script == [] ==> script == [])
    ensures Told(s.(script := script), w)
  {
    hide Sane, Clean, Backed, SameBacking;
    ScriptBacking(s, script);
    if w.Backs? {
      SameIsBacked(s, s.(script := script));
    }
  }

  lemma UserTopic(s: State)
    requires Inv(s) && Told(s, Backs)
    ensures Told(RunUser(s), Backs)
  {
    UserBacked(s);
    hide Inv, RunUser, Backed;
  }

  lemma {:induction false} UserTold(s: State, w: Topic)
    requires Inv(s) && Told(s, w)
    ensures Told(RunUser(s), w)
    decreases |s.script|
  {
    hide Inv, Told, Tame, Perform;
    if w.Backs? {
      UserTopic(s);
    } else if Active(s) {
      var t, f := s.(script := s.script[1..]), s.current.value;
      ScriptKeeps(s, s.script[1..]);
      ScriptTold(s, s.script[1..], w);
      PerformKeeps(t, f, s.script[0]);
      PerformTame(t, f, s.script[0], Clean(t.log), OpOf(w));
      var u := Perform(t, f, s.script[0]);
      TameTold(t, u, w);
      if |u.script| < |s.script| {
        UserTold(u, w);
      }
    }
  }

  // ---------------------------------------------------------------- transfers

  lemma CleanSnoc(log: seq<Delivery>, d: Delivery)
    ensures Clean(log + [d]) <==> Clean(log) && CleanStart(d)
  {
    assert forall e :: e in log + [d] <==> e in log || e == d;
    hide CleanStart;
  }

  lemma ThrownSnoc(log: seq<Delivery>, d: Delivery, f: nat, since: nat)
    requires since <= |log|
    ensures ThrownSince(log + [d], f, since) <==> ThrownSince(log, f, since) || (d.Thrown? && d.fiber == f)
  {
    var more := log + [d];
    assert more[|log|] == d;
    assert forall k :: 0 <= k < |log| ==> more[k] == log[k];
  }

  /** Gate, clients, futures, books and deadlines are as they were, and no id has come back. */
  predicate SameSight(s: State, t: State)
  {
    && t.gate == s.gate && t.requests == s.requests && t.nextId >= s.nextId && t.live == s.live && t.lost == s.lost && t.script == s.script
    && t.futures == s.futures && t.children == s.children && t.requestFibers == s.requestFibers
    && t.deadlines == s.deadlines && t.deadlineOf == s.deadlineOf && t.timers == s.timers
  }

  /** What the log may be extended with, the tables that Marooned reads moving along. */
  lemma ToldSnoc(s: State, t: State, d: Delivery, w: Topic)
    requires Told(s, w) && t.log == s.log + [d] && t.gate.arrived == s.gate.arrived && t.gate.gaveUp == s.gate.gaveUp && t.requests == s.requests
    requires t.nextId >= s.nextId && t.deadlines == s.deadlines && (w.Backs? ==> SameBacking(s, t))
    requires t.live == s.live && t.lost == s.lost && t.script == s.script && (w.Hears? && w.op in t.waiting ==> w.op in s.waiting)
    requires Sane(s.fibers, Clean(s.log)) ==> Sane(t.fibers, Clean(t.log))
    requires w.Origins? && Clean(t.log) ==> HitsOwn(d)
    requires w.Lost? ==> Marooned(t, w.wait)
    ensures Told(t, w)
  {
    hide Sane, Clean, HitsOwn, CleanStart, Marooned, Backed, SameBacking;
    CleanSnoc(s.log, d);
    if w.Backs? {
      SameIsBacked(s, t);
    }
  }

  lemma MaroonedSnoc(s: State, t: State, d: Delivery, w: Wait)
    requires Marooned(s, w) && t.log == s.log + [d] && !d.Thrown? && t.nextId >= s.nextId && t.live <= s.live
    requires w.op in t.waiting <==> w.op in s.waiting
    requires w.op in s.waiting ==> t.waiting[w.op] == s.waiting[w.op]
    ensures Marooned(t, w)
  {
    hide ThrownSince;
    ThrownSnoc(s.log, d, w.fiber, w.since);
  }

  /**
   The only step that can spoil attribution: an assigned job begins.  It stays intact exactly if the job
   belongs to a request, or the fiber's scope is empty or names the request the job works for.
   */
  lemma BeginExactly(s: State, f: nat, job: Job)
    requires Sane(s.fibers, true) && f in s.fibers && !Begun(s.fibers[f]) && s.fibers[f].job == Some(job)
    ensures Sane(Begin(s, f, job).fibers, true) <==> MayBegin(job, s.fibers[f].scope)
  {
    hide Sane;
    SaneAt(s.fibers, true, f);
    var fb := BegunFiber(s, f, job);
    if MayBegin(job, s.fibers[f].scope) {
      SaneFiber(s.fibers, true, f, fb);
    } else if Sane(Begin(s, f, job).fibers, true) {
      SaneAt(Begin(s, f, job).fibers, true, f);
    }
  }

  lemma BeginSane(s: State, f: nat, job: Job, before: bool, after: bool)
    requires f in s.fibers && !Begun(s.fibers[f]) && s.fibers[f].job == Some(job)
    requires after ==> before && MayBegin(job, s.fibers[f].scope)
    ensures Sane(s.fibers, before) ==> Sane(Begin(s, f, job).fibers, after)
  {
    hide Sane;
    if Sane(s.fibers, before) {
      SaneAt(s.fibers, before, f);
      SaneLess(s.fibers, before, after);
      SaneFiber(s.fibers, after, f, BegunFiber(s, f, job));
    }
  }

  lemma SaneLess(fibers: Fibers, before: bool, after: bool)
    requires Sane(fibers, before) && (after ==> before)
    ensures Sane(fibers, after)
  {
  }

  lemma BeginTold(s: State, f: nat, job: Job, d: Delivery, w: Topic)
    requires Told(s, w) && f in s.fibers && !Begun(s.fibers[f]) && s.fibers[f].job == Some(job)
    requires !d.Thrown? && (CleanStart(d) <==> MayBegin(job, s.fibers[f].scope))
    ensures Told(Begin(s.(log := s.log + [d]), f, job), w)
  {
    hide Sane, Clean, Marooned, CleanStart, MayBegin, Backed;
    var t := s.(log := s.log + [d]);
    CleanSnoc(s.log, d);
    BeginSane(t, f, job, Clean(s.log), Clean(t.log));
    if w.Lost? {
      MaroonedSnoc(s, Begin(t, f, job), d, w.wait);
    }
    if w.Backs? {
      BeginBacked(s, f, job, t.log);
    } else {
      ToldSnoc(s, Begin(t, f, job), d, w);
    }
  }

  /** A fiber that goes on within its job. */
  lemma GoesOnTold(s: State, t: State, f: nat, d: Delivery, w: Topic)
    requires Told(s, w) && f in s.fibers && Begun(s.fibers[f]) && t.fibers == s.fibers[f := s.fibers[f].(at := Running)]
    requires t.log == s.log + [d] && SameSight(s, t) && CleanStart(d)
    requires (w.Origins? && Clean(s.log) ==> HitsOwn(d)) && (w.Lost? ==> Marooned(t, w.wait))
    requires w.Hears? && w.op in t.waiting ==> w.op in s.waiting
    ensures Told(t, w)
  {
    hide Sane, Clean, Marooned, CleanStart, HitsOwn, Backed;
    CleanSnoc(s.log, d);
    SaneMove(s.fibers, Clean(s.log), f, Running);
    ToldSnoc(s, t, d, w);
  }

  lemma StartFirstTold(s: State, w: Topic)
    requires Inv(s) && AtLoop(s) && s.pending != [] && Told(s, w)
    ensures Told(StartFirst(s), w)
  {
    hide Inv, Told, RunUser, Begin, MayBegin;
    StartFacts(s);
    StartKeeps(s);
    var wake, t := s.pending[0], s.(pending := s.pending[1..]);
    var d := Started(wake.fiber, Fresh, wake.value.job, s.fibers[wake.fiber].scope);
    PoppedTold(s, s.pending[1..], s.ready, w);
    BeginTold(t, wake.fiber, wake.value.job, d, w);
    UserTold(Start(t, wake.fiber, wake.value.job), w);
  }

  lemma PoppedTold(s: State, pending: seq<Wake>, ready: seq<Wake>, w: Topic)
    requires Told(s, w)
    ensures Told(s.(pending := pending, ready := ready), w)
  {
    hide Sane, Clean, Backed;
    if w.Backs? {
      SameIsBacked(s, s.(pending := pending, ready := ready));
    }
  }

  lemma {:induction false} StartPendingTold(s: State, w: Topic)
    requires Inv(s) && Told(s, w)
    ensures Told(StartPending(s), w)
    decreases |s.script|, |s.pending|
  {
    hide Inv, Told, StartFirst;
    if s.pending != [] && AtLoop(s) && s.script != [] {
      StartFirstKeeps(s);
      StartFirstTold(s, w);
      var t := StartFirst(s);
      if |t.script| < |s.script| || (t.script == s.script && |t.pending| < |s.pending|) {
        StartPendingTold(t, w);
      }
    }
  }

  /** The part of the state that resuming a fiber within its job leaves alone. */
  lemma UnwindAlone(s: State, f: nat)
    requires f in s.fibers
    ensures var t := Unwind(s, f);
      && t.fibers == s.fibers[f := s.fibers[f].(at := Running)] && t.log == s.log
      && t.waiting == s.waiting && t.live == s.live && t.nextId == s.nextId && SameSight(s, t)
  {
    hide Continue, SameSight;
    match s.fibers[f].at {
      case OnOp(_) => SightAside(s, s.parkedOn - {f}, s.parked, f);
      case InC(ops) => SightAside(s, s.parkedOn, s.parked - ops, f);
      case _ => ContinueAlone(s, f);
    }
  }

  lemma SightAside(s: State, parkedOn: map<nat, nat>, parked: map<nat, nat>, f: nat)
    requires f in s.fibers
    ensures var t := Continue(s.(parkedOn := parkedOn, parked := parked), f);
      && t.fibers == s.fibers[f := s.fibers[f].(at := Running)] && t.log == s.log
      && t.waiting == s.waiting && t.live == s.live && t.nextId == s.nextId && SameSight(s, t)
  {
  }

  lemma ContinueAlone(s: State, f: nat)
    requires f in s.fibers
    ensures var t := Continue(s, f);
      && t.fibers == s.fibers[f := s.fibers[f].(at := Running)] && t.log == s.log
      && t.waiting == s.waiting && t.live == s.live && t.nextId == s.nextId && SameSight(s, t)
  {
  }

  lemma InvBegun(s: State, f: nat)
    requires Inv(s) && f in s.fibers && s.fibers[f].at != Fresh && s.fibers[f].at != Idle
    ensures Begun(s.fibers[f])
  {
    hide Inv;
    JobOf(s, f);
  }

  /** What a topic needs of a transfer that takes ops out of `waiting`. */
  predicate WaitsOn(before: map<nat, nat>, waiting: map<nat, nat>, w: Topic)
  {
    match w
    case Lost(wait) => (wait.op in waiting <==> wait.op in before) && (wait.op in before ==> waiting[wait.op] == before[wait.op])
    case Hears(op, _) => op in waiting ==> op in before
    case _ => true
  }

  /** A fiber resumed with anything but a job, `waiting` having lost at most its own op. */
  lemma ResumedTold(s: State, f: nat, d: Delivery, w: Topic, waiting: map<nat, nat>)
    requires f in s.fibers && Begun(s.fibers[f])
    requires WaitsOn(s.waiting, waiting, w) && !d.Thrown? && CleanStart(d)
    requires Told(if w.Hears? then s.(waiting := waiting) else s, w)
    ensures Told(Unwind(s.(waiting := waiting, log := s.log + [d]), f), w)
  {
    hide Sane, Clean, Marooned, CleanStart, Begun, Unwind, Backed;
    var t := s.(waiting := waiting, log := s.log + [d]);
    UnwindAlone(t, f);
    if w.Lost? {
      MaroonedSnoc(s, Unwind(t, f), d, w.wait);
    }
    GoesOnTold(if w.Hears? then s.(waiting := waiting) else s, Unwind(t, f), f, d, w);
  }

  lemma WaitingLess(s: State, op: nat, w: Topic)
    requires Told(s, w)
    ensures w.Hears? ==> Told(s.(waiting := s.waiting - {op}), w)
    ensures s.(waiting := s.waiting) == s
  {
  }

  lemma ResumeFirstTold(s: State, w: Topic)
    requires Inv(s) && AtLoop(s) && s.ready != [] && Told(s, w)
    ensures Told(ResumeFirst(s), w)
  {
    hide Inv, Told, RunUser, Begin, Unwind, MayBegin;
    ReadyJob(s);
    ResumeTransferKeeps(s);
    var wake, t := s.ready[0], s.(ready := s.ready[1..]);
    var at := s.fibers[wake.fiber].at;
    var d := Resumed(wake.fiber, at, SettledAt(t, at), wake.value, s.fibers[wake.fiber].scope);
    PoppedTold(s, s.pending, s.ready[1..], w);
    if at == Idle {
      BeginTold(t, wake.fiber, wake.value.job, d, w);
    } else {
      InvBegun(s, wake.fiber);
      ResumedTold(s, wake.fiber, d, w, s.waiting);
      PoppedUnwind(s, wake.fiber, d, w);
    }
    UserTold(Resume(t, wake.fiber, wake.value), w);
  }

  /** Popping the queue and resuming a waiter commute. */
  lemma PoppedUnwind(s: State, f: nat, d: Delivery, w: Topic)
    requires s.ready != [] && f in s.fibers && s.fibers[f].at.OnFuture?
    requires Told(Unwind(s.(waiting := s.waiting, log := s.log + [d]), f), w)
    ensures Told(Unwind(s.(ready := s.ready[1..], log := s.log + [d]), f), w)
  {
    hide Told;
    PoppedTold(Unwind(s.(waiting := s.waiting, log := s.log + [d]), f), s.pending, s.ready[1..], w);
  }

  lemma {:induction false} ResumeReadyTold(s: State, w: Topic)
    requires Inv(s) && Told(s, w)
    ensures Told(ResumeReady(s), w)
    decreases |s.script|, |s.ready|
  {
    hide Inv, Told, ResumeFirst;
    if s.ready != [] && AtLoop(s) && s.script != [] {
      ResumeFirstKeeps(s);
      ResumeFirstTold(s, w);
      var t := ResumeFirst(s);
      if |t.script| < |s.script| || (t.script == s.script && |t.ready| < |s.ready|) {
        ResumeReadyTold(t, w);
      }
    }
  }

  // ---------------------------------------------------------------- cancellation

  /** The fiber that parks on an op is the one awaiting it, and nobody else awaits another op for it. */
  lemma WaitsApart(s: State, f: nat, op: nat)
    requires Inv(s) && SitsInPark(s, f)
    ensures s.fibers[f].at.OnOp? ==> s.fibers[f].at.op in s.waiting && s.waiting[s.fibers[f].at.op] == f
    ensures op in s.waiting && s.waiting[op] == f ==> s.fibers[f].at == OnOp(op)
  {
    hide ReadyInv, PendingInv, IdleInv, FutureInv, ParkedInv, JobInv, OwnerInv, DeadlineInv, FreshInv, LogInv;
  }

  /** A throw ends the wait of exactly the fiber it goes to. */
  lemma ThrownMarooned(s: State, f: nat, r: nat, w: Wait)
    requires Inv(s) && Marooned(s, w) && SitsInPark(s, f)
    ensures Marooned(Thrown1(s, f, r), w)
  {
    hide Inv, ThrownSince, Thrown1;
    WaitsApart(s, f, w.op);
    ThrownAlone(s, f, r);
    ThrownSnoc(s.log, Thrown(f, s.fibers[f].at, s.fibers[f].job, r), w.fiber, w.since);
  }

  lemma ThrownAlone(s: State, f: nat, r: nat)
    requires SitsInPark(s, f)
    ensures var t := Thrown1(s, f, r);
      && t.fibers == s.fibers[f := s.fibers[f].(at := Running)]
      && t.log == s.log + [Thrown(f, s.fibers[f].at, s.fibers[f].job, r)]
      && t.waiting == (if s.fibers[f].at.OnOp? then s.waiting - {s.fibers[f].at.op} else s.waiting)
      && t.live == s.live && t.nextId == s.nextId && SameSight(s, t)
  {
    hide Unwind, SameSight;
    var d := Thrown(f, s.fibers[f].at, s.fibers[f].job, r);
    var waiting := if s.fibers[f].at.OnOp? then s.waiting - {s.fibers[f].at.op} else s.waiting;
    var t := s.(waiting := waiting, log := s.log + [d]);
    UnwindAlone(t, f);
    SightTrans(s, t, Unwind(t, f));
  }

  lemma SightTrans(s: State, t: State, u: State)
    requires t == s.(waiting := t.waiting, log := t.log) && SameSight(t, u)
    ensures SameSight(s, u)
  {
  }

  lemma Thrown1Told(s: State, f: nat, r: nat, w: Topic)
    requires Inv(s) && Told(s, w) && SitsInPark(s, f)
    ensures Told(Thrown1(s, f, r), w)
  {
    hide Inv, Sane, Clean, Marooned, Thrown1, BookedRight, Backed;
    ThrownAlone(s, f, r);
    InvBegun(s, f);
    if w.Lost? {
      ThrownMarooned(s, f, r, w.wait);
    } else if w.Origins? {
      SaneAt(s.fibers, Clean(s.log), f);
    }
    GoesOnTold(s, Thrown1(s, f, r), f, Thrown(f, s.fibers[f].at, s.fibers[f].job, r), w);
  }

  lemma ThrowIntoTold(s: State, f: nat, r: nat, w: Topic)
    requires Inv(s) && AtLoop(s) && Told(s, w) && Reachable(s, f, r)
    ensures Told(ThrowInto(s, f, r), w)
  {
    hide Inv, Told, ThrowInto, Thrown1, RunUser;
    ReachableFacts(s, f, r);
    ThrowIntoIs(s, f, r);
    if SitsInPark(s, f) {
      Thrown1Told(s, f, r, w);
      Thrown1Keeps(s, f, r);
      UserTold(Thrown1(s, f, r), w);
    }
  }

  lemma {:induction false} ThrowAllTold(s: State, fs: seq<nat>, r: nat, w: Topic)
    requires Inv(s) && Told(s, w) && NoDup(fs) && forall f :: f in fs ==> Reachable(s, f, r)
    ensures Told(ThrowAll(s, fs, r), w)
    decreases |fs|
  {
    hide Inv, Told, ThrowInto, Undisturbed, Reachable;
    if !AtLoop(s) {
      CutIsFinal(s, fs, r);
    } else if fs != [] {
      var f, rest := fs[0], fs[1..];
      ThrowIntoEffect(s, f, r);
      ThrowIntoTold(s, f, r, w);
      var t := ThrowInto(s, f, r);
      assert forall g :: g in rest ==> g in fs && g != f;
      assert NoDup(rest);
      forall g | g in rest ensures Reachable(t, g, r) {
        ReachableFacts(s, g, r);
        StillReachable(s, t, g, r);
      }
      ThrowAllTold(t, rest, r, w);
    }
  }

  lemma AsideTold(s: State, gate: Admission.Gate, w: Topic)
    requires Told(s, w) && (w.Seen? ==> gate.arrived == s.gate.arrived)
    requires (w.Left? ==> s.gate.gaveUp <= gate.gaveUp) && (w.Backs? ==> forall r :: Holds(gate, r) ==> Holds(s.gate, r))
    ensures Told(s.(gate := gate), w)
  {
    hide Sane, Clean, Backed;
    if w.Backs? {
      GateBacked(s, gate);
    }
  }

  lemma ExpireTold(s: State, op: nat, w: Topic)
    requires Inv(s) && Told(s, w) && op in s.deadlines
    ensures Told(Expire(s, op), w)
  {
    hide Inv, Sane, Clean, Backed;
    if w.Backs? {
      ExpireBacked(s, op);
    }
  }

  lemma CancelTold(s: State, r: nat, w: Topic)
    requires Inv(s) && AtLoop(s) && Told(s, w)
    ensures Told(CancelRequest(s, r), w)
  {
    hide Inv, Told, Victims, Reachable, Undisturbed;
    var gate := Admission.Cancel(s.gate, r);
    var t := s.(gate := gate);
    AsideTold(s, gate, w);
    GateIsSeparate(s, gate);
    CancelIsThrowAll(s, r);
    VictimsAreReachable(s, r);
    forall g | g in Victims(s, r) ensures Reachable(t, g, r) {
      ReachableFacts(s, g, r);
      SameFiber(s, t, g);
      StillReachable(s, t, g, r);
    }
    ThrowAllTold(t, Victims(s, r), r, w);
  }

  // ---------------------------------------------------------------- poll and dispatch

  /** No success of the dropped op is on its way to the loop. */
  predicate Unheard(events: seq<Completion>, w: Topic)
  {
    w.Lost? ==> Done(w.wait.op) !in events
  }

  lemma PolledTold(s: State, live: set<nat>, lost: set<nat>, nextId: nat, requests: set<nat>, w: Topic)
    requires Told(s, w) && live <= s.live && nextId >= s.nextId && (w.Seen? ==> requests == s.requests)
    requires w.Hears? ==> Told(s.(live := live, lost := lost), w)
    ensures Told(s.(live := live, lost := lost, nextId := nextId, requests := requests), w)
  {
    hide Sane, Clean, Backed;
    if w.Backs? {
      SameIsBacked(s, s.(live := live, lost := lost, nextId := nextId, requests := requests));
    }
  }

  lemma ResumeCTold(s: State, op: nat, w: Topic)
    requires Inv(s) && AtLoop(s) && op in s.parked && Told(s, w)
    ensures s.parked[op] in s.fibers && Told(ResumeC(s, op), w)
  {
    hide Inv, Told, RunUser, Unwind;
    ParkedFacts(s, op);
    ResumedCKeeps(s, op);
    var f := s.parked[op];
    var d := Resumed(f, s.fibers[f].at, false, Payload(op), s.fibers[f].scope);
    InvBegun(s, f);
    ResumedTold(s, f, d, w, s.waiting);
    ParkedUnwind(s, f, op, d, w);
    UserTold(Resume(s.(parked := s.parked - {op}), f, Payload(op)), w);
  }

  lemma ParkedUnwind(s: State, f: nat, op: nat, d: Delivery, w: Topic)
    requires f in s.fibers && s.fibers[f].at.InC?
    requires Told(Unwind(s.(waiting := s.waiting, log := s.log + [d]), f), w)
    ensures Told(Unwind(s.(parked := s.parked - {op}, log := s.log + [d]), f), w)
  {
    hide Sane, Clean, Backed;
    if w.Backs? {
      SameIsBacked(Unwind(s.(waiting := s.waiting, log := s.log + [d]), f), Unwind(s.(parked := s.parked - {op}, log := s.log + [d]), f));
    }
  }

  lemma PutUnheard(events: seq<Completion>, id: nat, e: Completion, w: Topic)
    requires Unheard(events, w) && !e.Done?
    ensures Unheard(Put(events, id, e), w)
  {
    if events != [] {
      PutUnheard(events[1..], id, e, w);
    }
  }

  lemma PollOneTold(s: State, events: seq<Completion>, c: Completion, w: Topic)
    requires Inv(s) && Told(s, w) && Unheard(events, w) && (w.Seen? ==> c.Done? || c.Fault?) && !w.Hears?
    ensures var (t, more) := PollOne(s, events, c); Told(t, w) && Unheard(more, w)
  {
    hide Inv, Sane, Clean, ThrownSince, ResumeC, Put, Backed;
    if AtLoop(s) {
      match c {
        case Done(op) => LessLiveTold(s, op, s.lost, w);
        case Fault(op) => LessLiveTold(s, op, s.lost, w); LessLiveTold(s, op, s.lost + {op}, w);
        case Arrived(_, _) => PolledTold(s, s.live, s.lost, s.nextId + 1, s.requests + {s.nextId}, w);
        case Gone(id) =>
          PolledTold(s, s.live, s.lost, s.nextId, s.requests - {id}, w);
          PutUnheard(events, id, c, w);
      }
    }
  }

  lemma LessLiveTold(s: State, op: nat, lost: set<nat>, w: Topic)
    requires Inv(s) && AtLoop(s) && Told(s, w) && (w.Hears? ==> Told(s.(live := s.live - {op}, lost := lost), w))
    ensures var t := s.(live := s.live - {op}, lost := lost);
      Told(t, w) && (op in t.parked ==> t.parked[op] in t.fibers && Told(ResumeC(t, op), w))
  {
    hide Inv, Told, ResumeC;
    PolledTold(s, s.live - {op}, lost, s.nextId, s.requests, w);
    LiveLess(s, op, lost);
    if op in s.parked {
      ResumeCTold(s.(live := s.live - {op}, lost := lost), op, w);
    }
  }

  lemma {:induction false} PollTold(s: State, events: seq<Completion>, cs: seq<Completion>, w: Topic)
    requires Inv(s) && Told(s, w) && Unheard(events, w) && !w.Seen? && !w.Hears?
    ensures var (t, more) := Poll(s, events, cs); Told(t, w) && Unheard(more, w)
    decreases |cs|
  {
    hide Inv, Told, PollOne, Unheard;
    if cs != [] {
      PollOneKeeps(s, events, cs[0]);
      PollOneTold(s, events, cs[0], w);
      var (t, more) := PollOne(s, events, cs[0]);
      PollTold(t, more, cs[1..], w);
    }
  }

  lemma DeliverTold(s: State, op: nat, w: Topic)
    requires Inv(s) && AtLoop(s) && op in s.waiting && (w.Lost? ==> w.wait.op != op)
    requires Told(if w.Hears? then s.(waiting := s.waiting - {op}) else s, w)
    ensures s.waiting[op] in s.fibers
    ensures Told(RunUser(Resume(s.(waiting := s.waiting - {op}), s.waiting[op], Payload(op))), w)
  {
    hide Inv, Told, RunUser, Unwind;
    WaitingFacts(s, op);
    DeliveredKeeps(s, op);
    var f := s.waiting[op];
    InvBegun(s, f);
    ResumedTold(s, f, Resumed(f, OnOp(op), false, Payload(op), s.fibers[f].scope), w, s.waiting - {op});
    UserTold(Resume(s.(waiting := s.waiting - {op}), f, Payload(op)), w);
  }

  lemma HandlerTold(s: State, id: nat, w: Topic)
    requires Inv(s) && Told(s, w) && !w.Backs?
    ensures Told(Spawn(s, None, Some(id)), w)
  {
    hide Inv, Told, Spawn, Sane;
    SpawnTame(s, None, Some(id), Clean(s.log), OpOf(w));
    TameTold(s, Spawn(s, None, Some(id)), w);
  }

  lemma ArrivalBacks(s: State, id: nat, exempt: bool)
    requires Inv(s) && AtLoop(s) && Told(s, Backs)
    ensures Told(DispatchOne(s, Arrived(id, exempt)), Backs)
  {
    ArriveBacked(s, id, exempt);
    hide Inv, Backed, DispatchOne;
  }

  lemma DispatchOneTold(s: State, e: Completion, w: Topic)
    requires Inv(s) && Told(s, w) && Unheard([e], w) && (w.Seen? ==> !e.Arrived?)
    ensures Told(DispatchOne(s, e), w)
  {
    hide Inv, Told, CancelRequest, RunUser, Resume, Spawn;
    if AtLoop(s) {
      match e {
        case Done(op) =>
          assert e in [e];
          if op in s.deadlines {
            ExpireKeeps(s, op);
            ExpireTold(s, op, w);
            CancelTold(Expire(s, op), s.deadlines[op], w);
          } else if op in s.waiting {
            WaitingLess(s, op, w);
            DeliverTold(s, op, w);
          }
        case Fault(_) =>
        case Arrived(id, exempt) =>
          if w.Backs? {
            ArrivalBacks(s, id, exempt);
          } else {
            var (gate, verdict) := Admission.Arrive(s.gate, id, exempt);
            GateIsSeparate(s, gate);
            AsideTold(s, gate, w);
            HandlerTold(s.(gate := gate), id, w);
          }
        case Gone(id) => CancelTold(s, id, w);
      }
    }
  }

  lemma {:induction false} DispatchTold(s: State, events: seq<Completion>, w: Topic)
    requires Inv(s) && Told(s, w) && Unheard(events, w) && !w.Seen? && !w.Hears?
    ensures Told(Dispatch(s, events), w)
    decreases |events|
  {
    hide Inv, Told, DispatchOne;
    if events != [] {
      assert events[0] in events;
      DispatchOneKeeps(s, events[0]);
      DispatchOneTold(s, events[0], w);
      DispatchTold(DispatchOne(s, events[0]), events[1..], w);
    }
  }

  lemma TurnTold(s: State, cs: seq<Completion>, w: Topic)
    requires Inv(s) && Told(s, w) && !w.Seen? && !w.Hears?
    ensures Told(Turn(s, cs), w)
  {
    hide Inv, Told, StartPending, ResumeReady, Poll, Dispatch;
    StartPendingKeeps(s);
    StartPendingTold(s, w);
    ResumeReadyKeeps(StartPending(s));
    ResumeReadyTold(StartPending(s), w);
    var t := ResumeReady(StartPending(s));
    PollKeeps(t, [], cs);
    PollTold(t, [], cs, w);
    DispatchTold(Poll(t, [], cs).0, Poll(t, [], cs).1, w);
  }

  lemma {:induction false} TurnsTold(s: State, feed: seq<seq<Completion>>, w: Topic)
    requires Inv(s) && Told(s, w) && !w.Seen? && !w.Hears?
    ensures Told(Turns(s, feed), w)
    decreases |feed|
  {
    hide Inv, Told, Turn;
    if feed != [] {
      TurnKeeps(s, feed[0]);
      TurnTold(s, feed[0], w);
      TurnsTold(Turn(s, feed[0]), feed[1..], w);
    }
  }
}
