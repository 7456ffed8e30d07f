/**
 `Ignis\Loop` and `Ignis\Future` as the source writes them: arrays and counters updated in place by loops.
 `state` is what the fields stand for; each method carries out the step of the same name on it.
 */
module Loop {
  import opened Prelude
  import opened Scheduler
  import opened SchedulerSafety
  import opened SchedulerRuns
  import opened SchedulerSteps
  import Admission

  class Loop {
    ghost var state: State
    ghost var starting: seq<Wake>      // what is left of the batch startPending() took off $pending
    ghost var resuming: seq<Wake>      // and of the one resumeReady() took off $ready

    var waiting: map<nat, nat>
    var parkedOn: map<nat, nat>
    var ready: seq<Wake>
    var pending: seq<Wake>
    var idle: seq<nat>
    var children: map<nat, seq<nat>>
    var requestFibers: map<nat, nat>
    var deadlines: map<nat, nat>
    var deadlineOf: map<nat, nat>

    /** The fibers, the futures, the C side, the reactor and user code; its copies of the arrays above are not read. */
    var world: State

    ghost predicate Valid()
      reads this
    {
      state == world.(waiting := waiting, parkedOn := parkedOn, ready := resuming + ready, pending := starting + pending,
                      idle := idle, children := children, requestFibers := requestFibers,
                      deadlines := deadlines, deadlineOf := deadlineOf)
    }

    constructor (budget: int, depth: int, code: seq<Act>)
      ensures Valid() && state == Boot(budget, depth, code) && starting == [] && resuming == []
    {
      state, world, starting, resuming := Boot(budget, depth, code), Boot(budget, depth, code), [], [];
      waiting, parkedOn, ready, pending, idle, children := map[], map[], [], [], [], map[];
      requestFibers, deadlines, deadlineOf := map[], map[], map[];
    }

    // ---------------------------------------------------------------- what user code calls

    /** The fiber that will run the job: a parked one with the job handed to it, or a new one. */
    method Place(job: Job) returns (fiber: nat)
      requires Valid() && Pooled(state)
      modifies this`ready, this`pending, this`idle, this`world, this`state
      ensures Valid() && (state, fiber) == Scheduler.Place(old(state), job)
    {
      if |idle| > 0 {
        TopOfPool(state);
        fiber := idle[|idle| - 1];
        idle := idle[..|idle| - 1];
        assert resuming + (ready + [Wake(fiber, GiveJob(job))]) == resuming + ready + [Wake(fiber, GiveJob(job))];
        ready := ready + [Wake(fiber, GiveJob(job))];
        world := world.(fibers := world.fibers[fiber := world.fibers[fiber].(job := Some(job))]);
      } else {
        fiber := world.nextFiber;
        assert starting + (pending + [Wake(fiber, GiveJob(job))]) == starting + pending + [Wake(fiber, GiveJob(job))];
        world := world.(fibers := world.fibers[fiber := Fiber(Fresh, Some(job), None, None)], nextFiber := fiber + 1);
        pending := pending + [Wake(fiber, GiveJob(job))];
      }
      state := Scheduler.Place(state, job).0;
    }

    method Spawn(req: Option<nat>, handles: Option<nat>) returns (future: nat)
      requires Valid() && Pooled(state)
      modifies this`ready, this`pending, this`idle, this`children, this`world, this`state
      ensures Valid() && state == Scheduler.Spawn(old(state), req, handles) && future == old(state).nextFuture
    {
      hide Scheduler.Place, AddChild;
      future := world.nextFuture;
      var job := Job(future, req, handles, OriginOf(world, handles));
      world := WithFuture(world, true);
      state := WithFuture(state, true);
      var fiber := Place(job);
      ListChild(req, fiber);
    }

    method ListChild(req: Option<nat>, fiber: nat)
      requires Valid()
      modifies this`children, this`state
      ensures Valid() && state == AddChild(old(state), req, fiber)
    {
      if req.Some? {
        var listed := if req.value in children then children[req.value] else [];
        if fiber !in listed {
          children := children[req.value := listed + [fiber]];
        }
      }
      state := AddChild(state, req, fiber);
    }

    /** Submits an op and parks the fiber on it. */
    method ParkOn(f: nat)
      requires Valid() && f in world.fibers
      modifies this`waiting, this`parkedOn, this`world, this`state
      ensures Valid() && state == Scheduler.ParkOn(old(state), f)
    {
      var op := world.nextId;
      waiting := waiting[op := f];
      parkedOn := parkedOn[f := op];
      world := world.(live := world.live + {op}, nextId := op + 1);
      world := Suspend(world, f, OnOp(op));
      state := Scheduler.ParkOn(state, f);
    }

    /** `Future::await` inside a fiber. */
    method AwaitFuture(f: nat, fut: nat)
      requires Valid() && f in world.fibers
      modifies this`world, this`state
      ensures Valid() && state == Scheduler.AwaitFuture(old(state), f, fut)
    {
      if fut in world.futures && !world.futures[fut].done {
        world := world.(futures := world.futures[fut := world.futures[fut].(waiters := world.futures[fut].waiters + [f])]);
        world := Suspend(world, f, OnFuture(fut));
      }
      state := Scheduler.AwaitFuture(state, f, fut);
    }

    /** `Future::settle`: the waiters are marked ready one by one, in the order they came. */
    method SettleFuture(fut: nat)
      requires Valid()
      modifies this`ready, this`world, this`state
      ensures Valid() && state == Scheduler.SettleFuture(old(state), fut)
    {
      state := Scheduler.SettleFuture(state, fut);
      if fut !in world.futures || world.futures[fut].done {
        return;
      }
      var waiters := world.futures[fut].waiters;
      ghost var before, nulls := ready, Nulls(waiters);
      for k := 0 to |waiters|
        invariant ready == before + nulls[..k]
        modifies this`ready
      {
        ready := ready + [Wake(waiters[k], Nothing)];
        assert nulls[..k + 1] == nulls[..k] + [nulls[k]];
      }
      assert nulls[..|waiters|] == nulls && resuming + (before + nulls) == resuming + before + nulls;
      world := world.(futures := world.futures[fut := world.futures[fut].(done := true, waiters := [])]);
    }

    method DisarmDeadline(r: nat)
      requires Valid()
      modifies this`deadlines, this`deadlineOf, this`world, this`state
      ensures Valid() && state == Disarm(old(state), r)
    {
      if r in deadlineOf {
        var op := deadlineOf[r];
        deadlines := deadlines - {op};
        deadlineOf := deadlineOf - {r};
        world := world.(live := world.live + {world.nextId}, nextId := world.nextId + 1);
      }
      state := Disarm(state, r);
    }

    method Deadline(r: nat)
      requires Valid()
      modifies this`deadlines, this`deadlineOf, this`world, this`state
      ensures Valid() && state == Arm(old(state), r)
    {
      ghost var before := state;
      DisarmDeadline(r);
      var op := world.nextId;
      deadlines := deadlines[op := r];
      deadlineOf := deadlineOf[r := op];
      world := world.(live := world.live + {op}, nextId := op + 1, timers := world.timers + [Armed(op, r)]);
      state := Arm(before, r);
    }

    /** Forgets the request in every array and empties the scope; the slot it held goes to the queue. */
    method ReleaseRequest(f: nat, r: nat)
      requires Valid() && f in world.fibers && Pooled(state)
      modifies this`ready, this`pending, this`idle, this`children, this`requestFibers, this`deadlines, this`deadlineOf
      modifies this`world, this`state
      ensures Valid() && state == Scheduler.ReleaseRequest(old(state), f, r)
    {
      DisarmDeadline(r);
      requestFibers := requestFibers - {r};
      children := children - {r};
      var (after, admitted) := Admission.Release(world.gate, r);
      world := world.(gate := after, fibers := world.fibers[f := world.fibers[f].(scope := None)],
                      timers := world.timers + [CalledOff(r)]);
      state := Forget(old(state), f, r).(gate := after);
      AdmitAll(admitted);
    }

    /** The requests a drain let in, spawned in that order. */
    method AdmitAll(admitted: seq<nat>)
      requires Valid() && Pooled(state)
      modifies this`ready, this`pending, this`idle, this`children, this`world, this`state
      ensures Valid() && state == SpawnHandlers(old(state), admitted)
    {
      for k := 0 to |admitted|
        invariant Valid() && Pooled(state)
        invariant SpawnHandlers(state, admitted[k..]) == SpawnHandlers(old(state), admitted)
      {
        assert admitted[k..][0] == admitted[k] && admitted[k..][1..] == admitted[k + 1..];
        SpawnIsQuiet(state, None, Some(admitted[k]));
        var _ := Spawn(None, Some(admitted[k]));
      }
    }

    /** The tail of `poolBody`: off the request's list first, into the pool second. */
    method Retire(f: nat, req: Option<nat>)
      requires Valid() && f in world.fibers
      modifies this`children, this`idle, this`world, this`state
      ensures Valid() && state == Scheduler.Retire(old(state), f, req)
    {
      if req.Some? && req.value in children {
        children := children[req.value := Without(children[req.value], f)];
      }
      idle := idle + [f];
      world := world.(fibers := world.fibers[f := world.fibers[f].(at := Idle, job := None, left := world.fibers[f].scope)], current := None);
      state := Scheduler.Retire(state, f, req);
    }

    method FinishJob(f: nat)
      requires Valid() && f in world.fibers && world.fibers[f].job.Some? && Pooled(state)
      modifies this
      ensures Valid() && starting == old(starting) && resuming == old(resuming)
      ensures state == Scheduler.FinishJob(old(state), f)
    {
      var job := world.fibers[f].job.value;
      if job.handles.Some? {
        ReleaseIsQuiet(state, f, job.handles.value);
        ReleaseRequest(f, job.handles.value);
      }
      SettleFuture(job.future);
      Retire(f, job.req);
    }

    method LeaveRequestScope(f: nat)
      requires Valid() && f in world.fibers && world.fibers[f].job.Some?
      modifies this`world, this`state
      ensures Valid() && state == Scheduler.LeaveRequestScope(old(state), f)
    {
      ghost var before := state;
      if world.fibers[f].job.value.handles.Some? {
        world := world.(fibers := world.fibers[f := world.fibers[f].(scope := None)]);
      }
      state := Scheduler.LeaveRequestScope(before, f);
    }

    method Perform(f: nat, act: Act)
      requires Valid() && f in world.fibers && world.fibers[f].job.Some? && Pooled(state)
      modifies this
      ensures Valid() && starting == old(starting) && resuming == old(resuming)
      ensures state == Scheduler.Perform(old(state), f, act)
    {
      ghost var before := state;
      var scope := world.fibers[f].scope;
      match act {
        case Async =>
          var _ := Spawn(scope, None);
        case Submit =>
          world := world.(live := world.live + {world.nextId}, nextId := world.nextId + 1);
          state := Scheduler.Perform(before, f, act);
        case Sleep => ParkOn(f);
        case Await(fut) => AwaitFuture(f, fut);
        case Block(extra) =>
          world := ParkInC(world, f, extra);
          state := Scheduler.Perform(before, f, act);
        case NewFuture =>
          world := WithFuture(world, false);
          state := Scheduler.Perform(before, f, act);
        case Settle(fut) =>
          if fut in world.futures && !world.futures[fut].pooled {
            SettleFuture(fut);
          }
        case Deadline =>
          if scope.Some? {
            Deadline(scope.value);
          }
        case LeaveScope => LeaveRequestScope(f);
        case Finish => FinishJob(f);
      }
    }

    /** The active fiber's user code, until it suspends. */
    method RunUser()
      requires Valid() && Inv(state)
      modifies this
      ensures Valid() && Inv(state) && starting == old(starting) && resuming == old(resuming)
      ensures state == Scheduler.RunUser(old(state))
    {
      hide Inv, Scheduler.Perform;
      while world.current.Some? && world.current.value in world.fibers && world.fibers[world.current.value].job.Some? && world.script != []
        invariant Valid() && starting == old(starting) && resuming == old(resuming)
        invariant Inv(state) && Scheduler.RunUser(state) == Scheduler.RunUser(old(state))
        decreases |world.script|
      {
        var f, act := world.current.value, world.script[0];
        ScriptKeeps(state, world.script[1..]);
        state := state.(script := world.script[1..]);
        world := world.(script := world.script[1..]);
        InvIsPooled(state);
        PerformKeeps(state, f, act);
        PerformGrows(state, f, act);
        Perform(f, act);
      }
    }

    // ---------------------------------------------------------------- the loop

    /** `Fiber::start` and `Fiber::resume` with a job: the fiber runs it as its own, in its request's scope. */
    method Begin(f: nat, job: Job)
      requires Valid() && f in world.fibers
      modifies this`requestFibers, this`world, this`state
      ensures Valid() && state == Scheduler.Begin(old(state), f, job)
    {
      hide Scheduler.Begin, SchedulerSteps.RunAs, SchedulerSteps.Enter;
      BeginSplits(state, f, job);
      if job.handles.Some? {
        RunAs(f, job, job.handles);
        Enter(job.handles.value, f);
      } else if job.req.Some? {
        RunAs(f, job, job.req);
      } else {
        RunAs(f, job, world.fibers[f].scope);
      }
    }

    method RunAs(f: nat, job: Job, scope: Option<nat>)
      requires Valid() && f in world.fibers
      modifies this`world, this`state
      ensures f in old(state).fibers && Valid() && state == SchedulerSteps.RunAs(old(state), f, job, scope)
    {
      world := world.(fibers := world.fibers[f := Fiber(Running, Some(job), scope, world.fibers[f].left)], current := Some(f));
      state := SchedulerSteps.RunAs(state, f, job, scope);
    }

    /** `enterRequest`: the fiber by which a cancellation finds the request. */
    method Enter(r: nat, f: nat)
      requires Valid()
      modifies this`requestFibers, this`state
      ensures Valid() && state == SchedulerSteps.Enter(old(state), r, f)
    {
      requestFibers := requestFibers[r := f];
      state := SchedulerSteps.Enter(state, r, f);
    }

    method Continue(f: nat)
      requires Valid() && f in world.fibers
      modifies this`world, this`state
      ensures Valid() && state == Scheduler.Continue(old(state), f)
    {
      world := Scheduler.Continue(world, f);
      state := Scheduler.Continue(state, f);
    }

    /** Control returns into a park: its own `finally` takes its entries out. */
    method Unwind(f: nat)
      requires Valid() && f in world.fibers
      modifies this`parkedOn, this`world, this`state
      ensures Valid() && state == Scheduler.Unwind(old(state), f)
    {
      hide Scheduler.Continue;
      if world.fibers[f].at.OnOp? {
        parkedOn := parkedOn - {f};
        state := state.(parkedOn := parkedOn);
      } else if world.fibers[f].at.InC? {
        world := world.(parked := world.parked - world.fibers[f].at.ops);
        state := state.(parked := world.parked);
      }
      Continue(f);
    }

    method Resume(f: nat, value: Value)
      requires Valid() && f in world.fibers
      modifies this`parkedOn, this`requestFibers, this`world, this`state
      ensures Valid() && state == Scheduler.Resume(old(state), f, value)
    {
      hide Scheduler.Begin, Scheduler.Unwind;
      ghost var before := state;
      var at := world.fibers[f].at;
      var d := Resumed(f, at, SettledAt(world, at), value, world.fibers[f].scope);
      world := world.(log := world.log + [d]);
      state := state.(log := state.log + [d]);
      match at {
        case Idle =>
          if value.GiveJob? {
            Begin(f, value.job);
          } else {
            world := world.(fibers := world.fibers[f := world.fibers[f].(at := Dead)]);
            state := Scheduler.Resume(before, f, value);
          }
        case OnOp(_) => Unwind(f);
        case OnFuture(_) => Unwind(f);
        case InC(_) => Unwind(f);
        case _ =>
      }
    }

    method Start(f: nat, job: Job)
      requires Valid() && f in world.fibers
      modifies this`requestFibers, this`world, this`state
      ensures Valid() && state == Scheduler.Start(old(state), f, job)
    {
      hide Scheduler.Begin;
      var at := world.fibers[f].at;
      var d := Started(f, at, job, world.fibers[f].scope);
      world := world.(log := world.log + [d]);
      state := state.(log := state.log + [d]);
      if at == Fresh {
        Begin(f, job);
      }
    }

    /** One entry of startPending's batch. */
    method StartNext(w: Wake)
      requires Valid() && Inv(state) && starting != [] && w == starting[0] && world.current.None?
      modifies this
      ensures Valid() && Inv(state) && starting == old(starting[1..]) && resuming == old(resuming)
      ensures state == StartFirst(old(state))
    {
      hide Inv, Scheduler.Start, Scheduler.RunUser;
      PendingHead(state);
      StartFirstKeeps(state);
      StartKeeps(state);
      assert (starting + pending)[1..] == starting[1..] + pending;
      starting := starting[1..];
      state := state.(pending := state.pending[1..]);
      Start(w.fiber, w.value.job);
      RunUser();
    }

    method StartBatch(batch: seq<Wake>)
      requires Valid() && Inv(state) && starting == batch != [] && world.current.None? && world.script != []
      modifies this
      ensures Valid() && Inv(state) && resuming == old(resuming)
      ensures starting == [] || world.current.Some? || world.script == []
      ensures Scheduler.StartPending(state) == Scheduler.StartPending(old(state))
      ensures Less(state.script, state.pending, old(state).script, old(state).pending)
    {
      hide Inv, StartFirst;
      var k := 0;
      while k < |batch| && world.current.None? && world.script != []
        invariant 0 <= k <= |batch| && starting == batch[k..]
        invariant Valid() && Inv(state) && resuming == old(resuming)
        invariant Scheduler.StartPending(state) == Scheduler.StartPending(old(state))
        invariant if k == 0 then state == old(state) else Less(state.script, state.pending, old(state).script, old(state).pending)
      {
        StartFirstProgress(state);
        StartNext(batch[k]);
        k := k + 1;
      }
    }

    /** Takes `$pending` batch by batch until it is empty, however much the started jobs add to it. */
    method StartPending()
      requires Valid() && Inv(state) && (starting == [] || world.current.Some? || world.script == [])
      modifies this
      ensures Valid() && Inv(state) && resuming == old(resuming)
      ensures state == Scheduler.StartPending(old(state))
      ensures starting == [] || world.current.Some? || world.script == []
    {
      hide Inv, StartFirst;
      while pending != [] && world.current.None? && world.script != []
        invariant Valid() && Inv(state) && resuming == old(resuming)
        invariant starting == [] || world.current.Some? || world.script == []
        invariant Scheduler.StartPending(state) == Scheduler.StartPending(old(state))
        decreases |world.script|, |state.pending|
      {
        var batch := pending;
        pending, starting := [], batch;
        StartBatch(batch);
      }
    }

    method ResumeNext(w: Wake)
      requires Valid() && Inv(state) && resuming != [] && w == resuming[0] && world.current.None?
      modifies this
      ensures Valid() && Inv(state) && resuming == old(resuming[1..]) && starting == old(starting)
      ensures state == ResumeFirst(old(state))
    {
      hide Inv, Scheduler.Resume, Scheduler.RunUser;
      ResumeTransferKeeps(state);
      ResumeFirstKeeps(state);
      assert (resuming + ready)[1..] == resuming[1..] + ready;
      resuming := resuming[1..];
      state := state.(ready := state.ready[1..]);
      Resume(w.fiber, w.value);
      RunUser();
    }

    method ResumeBatch(batch: seq<Wake>)
      requires Valid() && Inv(state) && resuming == batch != [] && world.current.None? && world.script != []
      modifies this
      ensures Valid() && Inv(state) && starting == old(starting)
      ensures resuming == [] || world.current.Some? || world.script == []
      ensures Scheduler.ResumeReady(state) == Scheduler.ResumeReady(old(state))
      ensures Less(state.script, state.ready, old(state).script, old(state).ready)
    {
      hide Inv, ResumeFirst;
      var k := 0;
      while k < |batch| && world.current.None? && world.script != []
        invariant 0 <= k <= |batch| && resuming == batch[k..]
        invariant Valid() && Inv(state) && starting == old(starting)
        invariant Scheduler.ResumeReady(state) == Scheduler.ResumeReady(old(state))
        invariant if k == 0 then state == old(state) else Less(state.script, state.ready, old(state).script, old(state).ready)
      {
        ResumeFirstProgress(state);
        ResumeNext(batch[k]);
        k := k + 1;
      }
    }

    /** Resumes what became runnable, batch by batch: the order is that of one queue. */
    method ResumeReady()
      requires Valid() && Inv(state) && (resuming == [] || world.current.Some? || world.script == [])
      modifies this
      ensures Valid() && Inv(state) && starting == old(starting)
      ensures state == Scheduler.ResumeReady(old(state)) && (Cut(old(state)) ==> state == old(state))
      ensures resuming == [] || world.current.Some? || world.script == []
    {
      hide Inv, ResumeFirst;
      while ready != [] && world.current.None? && world.script != []
        invariant Valid() && Inv(state) && starting == old(starting)
        invariant resuming == [] || world.current.Some? || world.script == []
        invariant Scheduler.ResumeReady(state) == Scheduler.ResumeReady(old(state))
        decreases |world.script|, |state.ready|
      {
        var batch := ready;
        ready, resuming := [], batch;
        ResumeBatch(batch);
      }
    }

    // ---------------------------------------------------------------- cancellation

    /** The scan of `$waiting` for a fiber `$parkedOn` does not know. */
    method FindWaiter(f: nat) returns (op: Option<nat>)
      requires Valid() && Inv(state)
      ensures op == WaitingOp(state, f)
    {
      hide Inv, WaitingOp;
      var keys := waiting.Keys;
      while keys != {}
        invariant keys <= waiting.Keys
        invariant forall other :: other in waiting && waiting[other] == f ==> other in keys
      {
        var k :| k in keys;
        if waiting[k] == f {
          WaitingIsUnique(state, f, k);
          return Some(k);
        }
        keys := keys - {k};
      }
      NobodyWaits(state, f);
      return None;
    }

    /** `ignis_cancel_parked_any`: the C side searches its own table. */
    method FindParked(f: nat) returns (found: bool)
      requires Valid()
      ensures found <==> exists op :: op in state.parked && state.parked[op] == f
    {
      var keys := world.parked.Keys;
      while keys != {}
        invariant keys <= world.parked.Keys
        invariant forall other :: other in world.parked && world.parked[other] == f ==> other in keys
      {
        var k :| k in keys;
        if world.parked[k] == f {
          return true;
        }
        keys := keys - {k};
      }
      return false;
    }

    method Throw(f: nat, r: nat)
      requires Valid() && f in world.fibers
      modifies this`parkedOn, this`world, this`state
      ensures Valid() && state == Scheduler.Throw(old(state), f, r)
    {
      hide Scheduler.Unwind;
      var d := Thrown(f, world.fibers[f].at, world.fibers[f].job, r);
      world := world.(log := world.log + [d]);
      state := state.(log := state.log + [d]);
      Unwind(f);
    }

    /** Takes the fiber's op out of `$waiting`, throws at its suspension point and lets it run. */
    method ThrowAndAbsorb(f: nat, op: Option<nat>, r: nat)
      requires Valid() && Inv(state) && world.current.None? && f in world.fibers && Belongs(world.fibers[f].job, r)
      requires if world.fibers[f].at.OnOp? then op == Some(world.fibers[f].at.op) else world.fibers[f].at.InC? && op == None
      modifies this
      ensures Valid() && Inv(state) && starting == old(starting) && resuming == old(resuming)
      ensures state == Scheduler.RunUser(Thrown1(old(state), f, r))
    {
      hide Inv, Scheduler.Throw, Scheduler.RunUser, Belongs;
      Thrown1Keeps(state, f, r);
      ghost var thrown := Thrown1(state, f, r);
      if op.Some? {
        waiting := waiting - {op.value};
        state := state.(waiting := waiting);
      }
      Throw(f, r);
      assert state == thrown;
      RunUser();
    }

    method ThrowInto(f: nat, r: nat)
      requires Valid() && Inv(state) && f in world.fibers && (world.current.None? ==> Reachable(state, f, r))
      modifies this
      ensures Valid() && Inv(state) && starting == old(starting) && resuming == old(resuming)
      ensures state == Scheduler.ThrowInto(old(state), f, r)
    {
      hide Inv, Thrown1, Scheduler.RunUser, Belongs, Scheduler.WaitingOp, Scheduler.ThrowInto;
      if world.current.Some? || !Suspended(world.fibers[f].at) {
        ThrowIntoNothing(state, f, r);
        return;
      }
      FindsParked(state, f);
      ThrowIntoIs(state, f, r);
      ReachableOwner(state, f, r);
      if f in parkedOn {
        ThrowAndAbsorb(f, Some(parkedOn[f]), r);
        return;
      }
      var op := FindWaiter(f);
      if op.Some? {
        assert false;                    // only the throwaway fiber of awaitOpFromMain() could be found here
      }
      var found := FindParked(f);
      if found {
        ThrowAndAbsorb(f, None, r);
      }
    }

    /** The walk over a snapshot: each throw may finish jobs, spawn others and refill the pool. */
    method ThrowEach(fs: seq<nat>, r: nat)
      requires Valid() && Inv(state) && NoDup(fs)
      requires world.current.None? ==> forall f :: f in fs ==> Reachable(state, f, r)
      requires forall f :: f in fs ==> f in world.fibers
      modifies this
      ensures Valid() && Inv(state) && starting == old(starting) && resuming == old(resuming)
      ensures state == ThrowAll(old(state), fs, r)
    {
      hide Inv, Reachable, Scheduler.ThrowInto;
      for k := 0 to |fs|
        invariant Valid() && Inv(state) && starting == old(starting) && resuming == old(resuming)
        invariant forall f :: f in fs ==> f in world.fibers
        invariant world.current.None? ==> forall j :: k <= j < |fs| ==> Reachable(state, fs[j], r)
        invariant ThrowAll(state, fs[k..], r) == ThrowAll(old(state), fs, r)
      {
        assert fs[k..][0] == fs[k] && fs[k..][1..] == fs[k + 1..];
        WalkStep(state, fs, k, r);
        ThrowInto(fs[k], r);
      }
    }

    method CancelRequest(r: nat)
      requires Valid() && Inv(state) && world.current.None?
      modifies this
      ensures Valid() && Inv(state) && starting == old(starting) && resuming == old(resuming)
      ensures state == Scheduler.CancelRequest(old(state), r)
    {
      hide Inv, Reachable, ThrowAll, Scheduler.ThrowInto, Admission.Cancel;
      CancelSteps(state, r);
      world := world.(gate := Admission.Cancel(world.gate, r));
      state := state.(gate := world.gate);
      var parent := if r in requestFibers then Some(requestFibers[r]) else None;
      ThrowEach(Reverse(if r in children then children[r] else []), r);
      if parent.Some? {
        ThrowInto(parent.value, r);
      }
    }

    // ---------------------------------------------------------------- poll and dispatch

    /** Hands a completion to the fiber parked on it in C, and lets it run. */
    method ResumeParked(op: nat)
      requires Valid() && Inv(state) && world.current.None? && op in world.parked
      modifies this
      ensures Valid() && Inv(state) && starting == old(starting) && resuming == old(resuming)
      ensures op in old(state).parked && old(state).parked[op] in old(state).fibers && state == ResumeC(old(state), op)
    {
      hide Inv, Scheduler.Resume, Scheduler.RunUser;
      ResumeCKeeps(state, op);
      ResumedCKeeps(state, op);
      var f := world.parked[op];
      world := world.(parked := world.parked - {op});
      state := state.(parked := world.parked);
      Resume(f, Payload(op));
      RunUser();
    }

    /** One completion off the channel. */
    method PollOne(events: seq<Completion>, c: Completion) returns (more: seq<Completion>)
      requires Valid() && Inv(state)
      modifies this
      ensures Valid() && Inv(state) && starting == old(starting) && resuming == old(resuming)
      ensures (state, more) == Scheduler.PollOne(old(state), events, c)
    {
      hide Inv, ResumeC;
      PollOneKeeps(state, events, c);
      more := events;
      if world.current.Some? {
        return;
      }
      ghost var target := Scheduler.PollOne(state, events, c).0;
      match c {
        case Done(op) =>
          if op in world.live {
            world := world.(live := world.live - {op});
            LiveLess(state, op, state.lost);
            state := state.(live := world.live);
            if op in world.parked {
              ParkedFacts(state, op);
              ResumeParked(op);
            } else {
              more := events + [c];
            }
          }
        case Fault(op) =>
          if op in world.live {
            world := world.(live := world.live - {op});
            LiveLess(state, op, state.lost);
            state := state.(live := world.live);
            if op in world.parked {
              ParkedFacts(state, op);
              ResumeParked(op);
            } else {
              world := world.(lost := world.lost + {op});
              state := target;
            }
          }
        case Arrived(_, exempt) =>
          more := events + [Arrived(world.nextId, exempt)];
          world := world.(requests := world.requests + {world.nextId}, nextId := world.nextId + 1);
          state := target;
        case Gone(id) =>
          if id in world.requests {
            world := world.(requests := world.requests - {id});
            more := Put(events, id, c);
            state := target;
          }
      }
    }

    method Poll(cs: seq<Completion>) returns (events: seq<Completion>)
      requires Valid() && Inv(state)
      modifies this
      ensures Valid() && Inv(state) && starting == old(starting) && resuming == old(resuming)
      ensures (state, events) == Scheduler.Poll(old(state), [], cs)
    {
      hide Inv, Scheduler.PollOne;
      events := [];
      for k := 0 to |cs|
        invariant Valid() && Inv(state) && starting == old(starting) && resuming == old(resuming)
        invariant Scheduler.Poll(state, events, cs[k..]) == Scheduler.Poll(old(state), [], cs)
      {
        assert cs[k..][0] == cs[k] && cs[k..][1..] == cs[k + 1..];
        events := PollOne(events, cs[k]);
      }
    }

    /** Resumes the fiber the op's completion is for. */
    method Deliver(op: nat)
      requires Valid() && Inv(state) && world.current.None? && op in waiting
      modifies this
      ensures Valid() && Inv(state) && starting == old(starting) && resuming == old(resuming)
      ensures op in old(state).waiting && old(state).waiting[op] in old(state).fibers
      ensures state == Scheduler.RunUser(Scheduler.Resume(old(state).(waiting := old(state).waiting - {op}), old(state).waiting[op], Payload(op)))
    {
      hide Inv, Scheduler.Resume, Scheduler.RunUser;
      DeliveredKeeps(state, op);
      var f := waiting[op];
      waiting := waiting - {op};
      state := state.(waiting := waiting);
      Resume(f, Payload(op));
      RunUser();
    }

    method DispatchRequest(id: nat, exempt: bool)
      requires Valid() && Inv(state) && world.current.None?
      modifies this
      ensures Valid() && starting == old(starting) && resuming == old(resuming)
      ensures state == Scheduler.DispatchOne(old(state), Arrived(id, exempt))
    {
      hide Inv, Scheduler.Spawn, Admission.Arrive;
      var (gate, verdict) := Admission.Arrive(world.gate, id, exempt);
      GateIsSeparate(state, gate);
      world := world.(gate := gate);
      state := state.(gate := gate);
      if verdict == Admission.Admitted {
        InvIsPooled(state);
        var _ := Spawn(None, Some(id));
      }
    }

    method DispatchOne(e: Completion)
      requires Valid() && Inv(state)
      modifies this
      ensures Valid() && Inv(state) && starting == old(starting) && resuming == old(resuming)
      ensures state == Scheduler.DispatchOne(old(state), e)
    {
      hide Inv, Scheduler.CancelRequest, Scheduler.Resume, Scheduler.RunUser, Scheduler.Spawn, Admission.Arrive;
      DispatchOneKeeps(state, e);
      if world.current.Some? {
        return;
      }
      match e {
        case Done(op) =>
          if op in deadlines {
            ExpireKeeps(state, op);
            var r := deadlines[op];
            deadlines := deadlines - {op};
            deadlineOf := deadlineOf - {r};
            world := world.(timers := world.timers + [Fired(op)]);
            state := Expire(state, op);
            CancelRequest(r);
          } else if op in waiting {
            Deliver(op);
          }
        case Fault(_) =>
        case Arrived(id, exempt) => DispatchRequest(id, exempt);
        case Gone(id) => CancelRequest(id);
      }
    }

    method DispatchEvents(events: seq<Completion>)
      requires Valid() && Inv(state)
      modifies this
      ensures Valid() && Inv(state) && starting == old(starting) && resuming == old(resuming)
      ensures state == Dispatch(old(state), events)
    {
      hide Inv, Scheduler.DispatchOne;
      for k := 0 to |events|
        invariant Valid() && Inv(state) && starting == old(starting) && resuming == old(resuming)
        invariant Dispatch(state, events[k..]) == Dispatch(old(state), events)
      {
        assert events[k..][0] == events[k] && events[k..][1..] == events[k + 1..];
        DispatchOne(events[k]);
      }
    }

    /** One pass of `runUntil`, given what the reactor has ready by the time it polls. */
    method RunTurn(cs: seq<Completion>)
      requires Valid() && Inv(state) && ((starting == [] && resuming == []) || Cut(state))
      modifies this
      ensures Valid() && Inv(state) && state == Turn(old(state), cs)
      ensures (starting == [] && resuming == []) || Cut(state)
    {
      hide Inv, Scheduler.StartPending, Scheduler.ResumeReady, Scheduler.Poll, Dispatch;
      CutTurn(state, cs);
      if world.current.Some? || world.script == [] {
        return;
      }
      StartPending();
      ResumeReady();
      if pending == [] && world.current.None? && world.script != [] {
        var events := Poll(cs);
        DispatchEvents(events);
      }
    }

    method Run(feed: seq<seq<Completion>>)
      requires Valid() && Inv(state) && starting == [] && resuming == []
      modifies this
      ensures Valid() && Inv(state) && state == Turns(old(state), feed)
    {
      hide Inv, Turn;
      for k := 0 to |feed|
        invariant Valid() && Inv(state) && ((starting == [] && resuming == []) || Cut(state))
        invariant Turns(state, feed[k..]) == Turns(old(state), feed)
      {
        assert feed[k..][0] == feed[k] && feed[k..][1..] == feed[k + 1..];
        RunTurn(feed[k]);
      }
    }
  }
}
