/**
 The userland scheduler of `Ignis\Loop`, `Ignis\Future` and the C-side park table, as a value and the
 functions that step it.  A fiber is the place where its PHP stack stands; user code is an arbitrary
 script of the scheduler's own operations, read until it suspends.  A script that runs out cuts the run
 there, so a statement about every script is a statement about every finite prefix of every run.
 */
module Scheduler {
  import opened Prelude
  import Admission

  /**
   `[callable, arguments, future, requestId]`; `handles` marks the closure that `admitRequest` spawns.
   `origin` is the request the job really works for, handed down from spawner to spawned; the source
   records it nowhere, and no step looks at it.
   */
  datatype Job = Job(future: nat, req: Option<nat>, handles: Option<nat>, origin: Option<nat>)

  datatype At =
    | Fresh                  // constructed, not started: an entry of $pending
    | Idle                   // suspended in nextJob()
    | OnOp(op: nat)          // suspended in parkOn()
    | OnFuture(fut: nat)     // suspended in Future::await()
    | InC(ops: set<nat>)     // suspended inside a C hook on any of these ops
    | Running
    | Dead                   // an exception escaped poolBody()

  /** `scope` is the fiber's `ignis.request` entry of `Ignis\Scope`, `left` what it was when the last job ended. */
  datatype Fiber = Fiber(at: At, job: Option<Job>, scope: Option<nat>, left: Option<nat>)

  datatype Value = GiveJob(job: Job) | Nothing | Payload(op: nat)

  datatype Wake = Wake(fiber: nat, value: Value)

  /** `pooled` futures belong to a spawned job, the others to user code. */
  datatype Future = Future(done: bool, waiters: seq<nat>, pooled: bool)

  /** One control transfer into a fiber, with where the fiber stood and its scope when it happened. */
  datatype Delivery =
    | Started(fiber: nat, at: At, job: Job, scope: Option<nat>)
    | Resumed(fiber: nat, at: At, settled: bool, value: Value, scope: Option<nat>)
    | Thrown(fiber: nat, at: At, owner: Option<Job>, req: nat)

  /** What became of request deadlines. */
  datatype Timer = Armed(op: nat, req: nat) | CalledOff(req: nat) | Fired(op: nat)

  /** What user code can do between two suspensions. */
  datatype Act =
    | Async                  // Ignis\async(): spawn
    | Submit                 // an op nobody awaits
    | Sleep                  // submit an op and await it
    | Await(fut: nat)
    | Block(extra: nat)      // a blocking call inside C, parked on extra + 1 ops
    | NewFuture
    | Settle(fut: nat)
    | Deadline
    | LeaveScope             // the handler returned; its answer may still be produced
    | Finish                 // the job's function returned or threw

  datatype State = State(
    fibers: map<nat, Fiber>,
    futures: map<nat, Future>,
    waiting: map<nat, nat>,        // op -> fiber
    parkedOn: map<nat, nat>,       // fiber -> op
    ready: seq<Wake>,
    pending: seq<Wake>,            // new fibers with their first job
    idle: seq<nat>,
    children: map<nat, seq<nat>>,  // request -> its children in spawn order
    requestFibers: map<nat, nat>,
    deadlines: map<nat, nat>,      // op -> request
    deadlineOf: map<nat, nat>,     // request -> op
    parked: map<nat, nat>,         // PARKED of the C side: op -> fiber
    live: set<nat>,                // ops whose completion has not been polled
    lost: set<nat>,                // ops whose error completion found no C park
    requests: set<nat>,            // delivered requests whose client has not gone
    gate: Admission.Gate,
    current: Option<nat>,          // the active fiber
    script: seq<Act>,
    nextId: nat, nextFiber: nat, nextFuture: nat,
    log: seq<Delivery>,
    timers: seq<Timer>             // history: every deadline armed, called off at the end of its request, or fired
  )

  function Boot(budget: int, depth: int, script: seq<Act>): State
  {
    State(map[], map[], map[], map[], [], [], [], map[], map[], map[], map[], map[], {}, {}, {},
          Admission.Open(budget, depth), None, script, 1, 0, 0, [], [])
  }

  // ---------------------------------------------------------------- spawn

  function Reuse(s: State, f: nat, job: Job): State
    requires f in s.fibers && s.idle != []
  {
    s.(idle := s.idle[..|s.idle| - 1],
       ready := s.ready + [Wake(f, GiveJob(job))],
       fibers := s.fibers[f := s.fibers[f].(job := Some(job))])
  }

  function Create(s: State, job: Job): State
  {
    s.(pending := s.pending + [Wake(s.nextFiber, GiveJob(job))],
       fibers := s.fibers[s.nextFiber := Fiber(Fresh, Some(job), None, None)],
       nextFiber := s.nextFiber + 1)
  }

  /** The last fiber to join the pool gets the job; with an empty pool a new fiber does. */
  function Place(s: State, job: Job): (State, nat)
  {
    if s.idle != [] && s.idle[|s.idle| - 1] in s.fibers then
      (Reuse(s, s.idle[|s.idle| - 1], job), s.idle[|s.idle| - 1])
    else
      (Create(s, job), s.nextFiber)
  }

  function ChildrenOf(s: State, r: nat): seq<nat>
  {
    if r in s.children then s.children[r] else []
  }

  /** Keyed by object id: a fiber already listed keeps its position. */
  function AddChild(s: State, req: Option<nat>, f: nat): State
  {
    if req.None? || f in ChildrenOf(s, req.value) then s
    else s.(children := s.children[req.value := ChildrenOf(s, req.value) + [f]])
  }

  function WithFuture(s: State, pooled: bool): State
  {
    s.(futures := s.futures[s.nextFuture := Future(false, [], pooled)], nextFuture := s.nextFuture + 1)
  }

  /** A handler works for its request, any other job for whom its spawner works; {main} works for nobody. */
  function OriginOf(s: State, handles: Option<nat>): Option<nat>
  {
    if handles.Some? then handles
    else if s.current.Some? && s.current.value in s.fibers && s.fibers[s.current.value].job.Some?
    then s.fibers[s.current.value].job.value.origin
    else None
  }

  function JobFor(s: State, req: Option<nat>, handles: Option<nat>): Job
  {
    Job(s.nextFuture, req, handles, OriginOf(s, handles))
  }

  function Spawn(s: State, req: Option<nat>, handles: Option<nat>): State
  {
    var (placed, f) := Place(WithFuture(s, true), JobFor(s, req, handles));
    AddChild(placed, req, f)
  }

  function SpawnHandlers(s: State, ids: seq<nat>): State
    decreases |ids|
  {
    if ids == [] then s else SpawnHandlers(Spawn(s, None, Some(ids[0])), ids[1..])
  }

  // ---------------------------------------------------------------- what a running fiber does

  function Suspend(s: State, f: nat, at: At): State
    requires f in s.fibers
  {
    s.(fibers := s.fibers[f := s.fibers[f].(at := at)], current := None)
  }

  function ParkOn(s: State, f: nat): State
    requires f in s.fibers
  {
    var op := s.nextId;
    Suspend(s.(waiting := s.waiting[op := f], parkedOn := s.parkedOn[f := op],
               live := s.live + {op}, nextId := op + 1), f, OnOp(op))
  }

  function AwaitFuture(s: State, f: nat, fut: nat): State
    requires f in s.fibers
  {
    if fut !in s.futures || s.futures[fut].done then s
    else Suspend(s.(futures := s.futures[fut := s.futures[fut].(waiters := s.futures[fut].waiters + [f])]), f, OnFuture(fut))
  }

  function OpsFrom(first: nat, extra: nat): (ops: set<nat>)
    ensures forall op :: op in ops <==> first <= op <= first + extra
  {
    if extra == 0 then {first} else OpsFrom(first, extra - 1) + {first + extra}
  }

  function Claims(ops: set<nat>, f: nat): map<nat, nat>
  {
    map op | op in ops :: f
  }

  function ParkInC(s: State, f: nat, extra: nat): State
    requires f in s.fibers
  {
    var ops := OpsFrom(s.nextId, extra);
    Suspend(s.(parked := s.parked + Claims(ops, f),
               live := s.live + ops, nextId := s.nextId + extra + 1), f, InC(ops))
  }

  function Nulls(waiters: seq<nat>): (wakes: seq<Wake>)
    ensures |wakes| == |waiters|
    ensures forall k :: 0 <= k < |wakes| ==> wakes[k] == Wake(waiters[k], Nothing)
  {
    seq(|waiters|, k requires 0 <= k < |waiters| => Wake(waiters[k], Nothing))
  }

  /** `Future::settle`: a settled future refuses, otherwise every waiter is marked ready with null. */
  function SettleFuture(s: State, fut: nat): State
  {
    if fut !in s.futures || s.futures[fut].done then s
    else s.(futures := s.futures[fut := s.futures[fut].(done := true, waiters := [])],
            ready := s.ready + Nulls(s.futures[fut].waiters))
  }

  /** Calls the timer off with an op of its own, which nobody awaits. */
  function Disarm(s: State, r: nat): State
  {
    if r !in s.deadlineOf then s
    else s.(deadlines := s.deadlines - {s.deadlineOf[r]}, deadlineOf := s.deadlineOf - {r},
            live := s.live + {s.nextId}, nextId := s.nextId + 1)
  }

  function Arm(s: State, r: nat): State
  {
    var d := Disarm(s, r);
    var op := d.nextId;
    d.(deadlines := d.deadlines[op := r], deadlineOf := d.deadlineOf[r := op], live := d.live + {op}, nextId := op + 1,
       timers := d.timers + [Armed(op, r)])
  }

  /** `releaseRequest` up to the queue: the request's fiber-scoped state goes. */
  function Forget(s: State, f: nat, r: nat): State
    requires f in s.fibers
  {
    Disarm(s, r).(requestFibers := s.requestFibers - {r}, children := s.children - {r},
                  fibers := s.fibers[f := s.fibers[f].(scope := None)], timers := s.timers + [CalledOff(r)])
  }

  function ReleaseRequest(s: State, f: nat, r: nat): State
    requires f in s.fibers
  {
    var (gate, admitted) := Admission.Release(s.gate, r);
    SpawnHandlers(Forget(s, f, r).(gate := gate), admitted)
  }

  function Without(s: seq<nat>, f: nat): (r: seq<nat>)
  {
    if s == [] then [] else if s[0] == f then s[1..] else [s[0]] + Without(s[1..], f)
  }

  function ForgetChild(s: State, req: Option<nat>, f: nat): State
  {
    if req.None? || req.value !in s.children then s
    else s.(children := s.children[req.value := Without(s.children[req.value], f)])
  }

  /** The rest of poolBody's turn: forget the child, join the pool, suspend in nextJob(). */
  function Retire(s: State, f: nat, req: Option<nat>): State
    requires f in s.fibers
  {
    var t := ForgetChild(s, req, f);
    t.(idle := t.idle + [f], fibers := t.fibers[f := t.fibers[f].(at := Idle, job := None, left := t.fibers[f].scope)], current := None)
  }

  function FinishJob(s: State, f: nat): State
    requires f in s.fibers && s.fibers[f].job.Some?
  {
    var job := s.fibers[f].job.value;
    var t := if job.handles.Some? then ReleaseRequest(s, f, job.handles.value) else s;
    var u := SettleFuture(t, job.future);
    if f in u.fibers then Retire(u, f, job.req) else u
  }

  function SubmitOp(s: State): State
  {
    s.(live := s.live + {s.nextId}, nextId := s.nextId + 1)
  }

  function ClearScope(s: State, f: nat): State
    requires f in s.fibers
  {
    s.(fibers := s.fibers[f := s.fibers[f].(scope := None)])
  }

  /** `leaveRequestScope`: only the closure around a handler calls it. */
  function LeaveRequestScope(s: State, f: nat): State
    requires f in s.fibers && s.fibers[f].job.Some?
  {
    if s.fibers[f].job.value.handles.None? then s else ClearScope(s, f)
  }

  function Perform(s: State, f: nat, act: Act): State
    requires f in s.fibers && s.fibers[f].job.Some?
  {
    var scope := s.fibers[f].scope;
    match act
    case Async => Spawn(s, scope, None)
    case Submit => SubmitOp(s)
    case Sleep => ParkOn(s, f)
    case Await(fut) => AwaitFuture(s, f, fut)
    case Block(extra) => ParkInC(s, f, extra)
    case NewFuture => WithFuture(s, false)
    case Settle(fut) => if fut in s.futures && !s.futures[fut].pooled then SettleFuture(s, fut) else s
    case Deadline => if scope.Some? then Arm(s, scope.value) else s
    case LeaveScope => LeaveRequestScope(s, f)
    case Finish => FinishJob(s, f)
  }

  /** Whether the active fiber has user code left to run. */
  predicate Active(s: State)
  {
    s.current.Some? && s.current.value in s.fibers && s.fibers[s.current.value].job.Some? && s.script != []
  }

  function RunUser(s: State): State
    decreases |s.script|
  {
    if !Active(s) then s
    else
      var t := Perform(s.(script := s.script[1..]), s.current.value, s.script[0]);
      if |t.script| < |s.script| then RunUser(t) else t
  }

  // ---------------------------------------------------------------- control transfers into a fiber

  function Begin(s: State, f: nat, job: Job): State
    requires f in s.fibers
  {
    var scope := if job.handles.Some? then job.handles else if job.req.Some? then job.req else s.fibers[f].scope;
    s.(fibers := s.fibers[f := Fiber(Running, Some(job), scope, s.fibers[f].left)], current := Some(f),
       requestFibers := if job.handles.Some? then s.requestFibers[job.handles.value := f] else s.requestFibers)
  }

  function Continue(s: State, f: nat): State
    requires f in s.fibers
  {
    s.(fibers := s.fibers[f := s.fibers[f].(at := Running)], current := Some(f))
  }

  /** What resuming a suspended fiber undoes on its own stack before user code goes on. */
  function Unwind(s: State, f: nat): State
    requires f in s.fibers
  {
    match s.fibers[f].at
    case OnOp(_) => Continue(s.(parkedOn := s.parkedOn - {f}), f)
    case InC(ops) => Continue(s.(parked := s.parked - ops), f)
    case _ => Continue(s, f)
  }

  predicate SettledAt(s: State, at: At)
  {
    at.OnFuture? && at.fut in s.futures && s.futures[at.fut].done
  }

  /** `Fiber::start` with the job it was created for. */
  function Start(s: State, f: nat, job: Job): State
    requires f in s.fibers
  {
    var at := s.fibers[f].at;
    var t := s.(log := s.log + [Started(f, at, job, s.fibers[f].scope)]);
    if at == Fresh then Begin(t, f, job) else t
  }

  /** `Fiber::resume`: a pool fiber that gets something other than a job dies of a LogicException. */
  function Resume(s: State, f: nat, value: Value): State
    requires f in s.fibers
  {
    var at := s.fibers[f].at;
    var t := s.(log := s.log + [Resumed(f, at, SettledAt(s, at), value, s.fibers[f].scope)]);
    match at
    case Idle => if value.GiveJob? then Begin(t, f, value.job) else t.(fibers := t.fibers[f := t.fibers[f].(at := Dead)])
    case OnOp(_) => Unwind(t, f)
    case OnFuture(_) => Unwind(t, f)
    case InC(_) => Unwind(t, f)
    case _ => t
  }

  function Throw(s: State, f: nat, r: nat): State
    requires f in s.fibers
  {
    Unwind(s.(log := s.log + [Thrown(f, s.fibers[f].at, s.fibers[f].job, r)]), f)
  }

  // ---------------------------------------------------------------- the loop

  /** Nothing runs and the run has not been cut. */
  predicate AtLoop(s: State)
  {
    s.current.None?
  }

  function StartFirst(s: State): State
    requires s.pending != []
  {
    var w, t := s.pending[0], s.(pending := s.pending[1..]);
    if w.fiber in t.fibers && w.value.GiveJob? then RunUser(Start(t, w.fiber, w.value.job)) else t
  }

  function StartPending(s: State): State
    decreases |s.script|, |s.pending|
  {
    if s.pending == [] || !AtLoop(s) || s.script == [] then s
    else
      var t := StartFirst(s);
      if |t.script| < |s.script| || (t.script == s.script && |t.pending| < |s.pending|) then StartPending(t) else t
  }

  function ResumeFirst(s: State): State
    requires s.ready != []
  {
    var w, t := s.ready[0], s.(ready := s.ready[1..]);
    if w.fiber in t.fibers then RunUser(Resume(t, w.fiber, w.value)) else t
  }

  function ResumeReady(s: State): State
    decreases |s.script|, |s.ready|
  {
    if s.ready == [] || !AtLoop(s) || s.script == [] then s
    else
      var t := ResumeFirst(s);
      if |t.script| < |s.script| || (t.script == s.script && |t.ready| < |s.ready|) then ResumeReady(t) else t
  }

  /** An op some fiber is waiting for in userland, if this one is. */
  ghost function WaitingOp(s: State, f: nat): Option<nat>
  {
    if op :| op in s.waiting && s.waiting[op] == f then Some(op) else None
  }

  predicate Suspended(at: At)
  {
    at.Idle? || at.OnOp? || at.OnFuture? || at.InC?
  }

  /** Throws at the fiber's suspension point if the loop or the C side can find one. */
  ghost function ThrowInto(s: State, f: nat, r: nat): State
  {
    if !AtLoop(s) || f !in s.fibers || !Suspended(s.fibers[f].at) then s
    else if f in s.parkedOn then RunUser(Throw(s.(waiting := s.waiting - {s.parkedOn[f]}), f, r))
    else if WaitingOp(s, f).Some? then RunUser(Throw(s.(waiting := s.waiting - {WaitingOp(s, f).value}), f, r))
    else if exists op :: op in s.parked && s.parked[op] == f then RunUser(Throw(s, f, r))
    else s
  }

  ghost function ThrowAll(s: State, fs: seq<nat>, r: nat): State
    decreases |fs|
  {
    if fs == [] then s else ThrowAll(ThrowInto(s, fs[0], r), fs[1..], r)
  }

  function Reverse(s: seq<nat>): (t: seq<nat>)
    ensures |t| == |s|
    ensures forall k :: 0 <= k < |s| ==> t[k] == s[|s| - 1 - k]
  {
    seq(|s|, k requires 0 <= k < |s| => s[|s| - 1 - k])
  }

  /** Children first, last spawned first, over a snapshot; the request's own fiber last. */
  ghost function CancelRequest(s: State, r: nat): State
  {
    var t := s.(gate := Admission.Cancel(s.gate, r));
    var walked := ThrowAll(t, Reverse(ChildrenOf(s, r)), r);
    if r in s.requestFibers then ThrowInto(walked, s.requestFibers[r], r) else walked
  }

  datatype Completion =
    | Done(op: nat)
    | Fault(op: nat)
    | Arrived(id: nat, exempt: bool)
    | Gone(id: nat)

  /** The event array is keyed by id: a later completion replaces an earlier one in its place. */
  function Put(events: seq<Completion>, id: nat, e: Completion): seq<Completion>
  {
    if events == [] then [e]
    else if events[0].Arrived? && events[0].id == id then [e] + events[1..]
    else [events[0]] + Put(events[1..], id, e)
  }

  function ResumeC(s: State, op: nat): State
    requires op in s.parked && s.parked[op] in s.fibers
  {
    RunUser(Resume(s.(parked := s.parked - {op}), s.parked[op], Payload(op)))
  }

  /** `ignis_poll`, one completion: a fiber parked in C is resumed on the spot, the rest is listed. */
  function PollOne(s: State, events: seq<Completion>, c: Completion): (State, seq<Completion>)
  {
    if !AtLoop(s) then (s, events)
    else
      match c
      case Done(op) =>
        if op !in s.live then (s, events)
        else
          var t := s.(live := s.live - {op});
          if op in t.parked && t.parked[op] in t.fibers then (ResumeC(t, op), events)
          else (t, events + [c])
      case Fault(op) =>
        if op !in s.live then (s, events)
        else
          var t := s.(live := s.live - {op});
          if op in t.parked && t.parked[op] in t.fibers then (ResumeC(t, op), events)
          else (t.(lost := t.lost + {op}), events)
      case Arrived(_, exempt) =>
        (s.(nextId := s.nextId + 1, requests := s.requests + {s.nextId}), events + [Arrived(s.nextId, exempt)])
      case Gone(id) =>
        if id !in s.requests then (s, events)
        else (s.(requests := s.requests - {id}), Put(events, id, c))
  }

  function Poll(s: State, events: seq<Completion>, cs: seq<Completion>): (State, seq<Completion>)
    decreases |cs|
  {
    if cs == [] then (s, events)
    else
      var (t, more) := PollOne(s, events, cs[0]);
      Poll(t, more, cs[1..])
  }

  /** A deadline's timer has fired: both arrays forget it. */
  function Expire(s: State, op: nat): State
    requires op in s.deadlines
  {
    s.(deadlines := s.deadlines - {op}, deadlineOf := s.deadlineOf - {s.deadlines[op]}, timers := s.timers + [Fired(op)])
  }

  ghost function DispatchOne(s: State, e: Completion): State
  {
    if !AtLoop(s) then s
    else
      match e
      case Done(op) =>
        if op in s.deadlines then
          CancelRequest(Expire(s, op), s.deadlines[op])
        else if op in s.waiting && s.waiting[op] in s.fibers then
          RunUser(Resume(s.(waiting := s.waiting - {op}), s.waiting[op], Payload(op)))
        else s
      case Fault(_) => s
      case Arrived(id, exempt) =>
        var (gate, verdict) := Admission.Arrive(s.gate, id, exempt);
        if verdict == Admission.Admitted then Spawn(s.(gate := gate), None, Some(id)) else s.(gate := gate)
      case Gone(id) => CancelRequest(s, id)
  }

  ghost function Dispatch(s: State, events: seq<Completion>): State
    decreases |events|
  {
    if events == [] then s else Dispatch(DispatchOne(s, events[0]), events[1..])
  }

  /** A run that has been cut goes no further. */
  predicate Cut(s: State)
  {
    !AtLoop(s) || s.script == []
  }

  /** One turn of `runUntil`; `cs` is whatever the reactor has ready by then. */
  ghost function Turn(s: State, cs: seq<Completion>): State
  {
    var t := ResumeReady(StartPending(s));
    if t.pending != [] || Cut(t) then t
    else
      var (u, events) := Poll(t, [], cs);
      Dispatch(u, events)
  }

  ghost function Turns(s: State, feed: seq<seq<Completion>>): State
    decreases |feed|
  {
    if feed == [] then s else Turns(Turn(s, feed[0]), feed[1..])
  }
}
