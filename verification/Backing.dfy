/**
 What stands behind the scheduler's promises along every run: behind each unsettled future of a job the fiber
 that has the job, behind each admission slot the fiber that handles the request, and behind each deadline
 the code that armed it.
 */
module Backing {
  import opened Prelude
  import opened Scheduler
  import opened SchedulerSafety
  import opened SchedulerRuns
  import opened GracefulStop
  import Admission

  predicate HasFuture(fb: Fiber, u: nat)
  {
    fb.job.Some? && fb.job.value.future == u
  }

  predicate Unsettled(futures: map<nat, Future>, u: nat)
  {
    u in futures && futures[u].pooled && !futures[u].done
  }

  /** Somebody has the job whose result an unsettled future waits for. */
  ghost predicate Held(fibers: Fibers, futures: map<nat, Future>)
  {
    forall u :: Unsettled(futures, u) ==> exists f :: f in fibers && HasFuture(fibers[f], u)
  }

  /** Somebody, not counting the fiber that is about to give its slot back, handles the request. */
  ghost predicate Served(fibers: Fibers, r: nat, leaving: Option<nat>)
  {
    exists f :: f in fibers && leaving != Some(f) && HandlerOf(fibers[f], r)
  }

  /** Every slot, but for those of requests still to be spawned, has its handler. */
  ghost predicate Slots(fibers: Fibers, gate: Admission.Gate, but: seq<nat>, leaving: Option<nat>)
  {
    forall r :: Holds(gate, r) && r !in but ==> Served(fibers, r, leaving)
  }

  function Lapse(standing: map<nat, nat>, op: nat): map<nat, nat>
  {
    map r | r in standing && standing[r] != op :: standing[r]
  }

  function After(standing: map<nat, nat>, m: Timer): map<nat, nat>
  {
    match m
    case Armed(op, r) => standing[r := op]
    case CalledOff(r) => standing - {r}
    case Fired(op) => Lapse(standing, op)
  }

  /** The deadlines that stand after this history: the last one armed for each request, unless its request ended or it fired. */
  function Standing(timers: seq<Timer>): map<nat, nat>
  {
    if timers == [] then map[]
    else
      After(Standing(timers[..|timers| - 1]), timers[|timers| - 1])
  }

  /** Each timer has an op of its own. */
  ghost predicate OwnOps(timers: seq<Timer>, nextId: nat)
  {
    && (forall k :: 0 <= k < |timers| && timers[k].Armed? ==> timers[k].op < nextId)
    && (forall j, k :: 0 <= j < k < |timers| && timers[j].Armed? && timers[k].Armed? ==> timers[j].op != timers[k].op)
  }

  ghost predicate Timed(s: State)
  {
    s.deadlineOf == Standing(s.timers) && OwnOps(s.timers, s.nextId)
  }

  /** The fiber has entered its job. */
  predicate Entered(fb: Fiber)
  {
    fb.at != Fresh && fb.at != Idle
  }

  predicate ChildOf(fb: Fiber, r: nat)
  {
    fb.job.Some? && fb.job.value.req == Some(r)
  }

  predicate Lists(children: map<nat, seq<nat>>, r: nat, f: nat)
  {
    r in children && f in children[r]
  }

  /** Until its request ends, a handler that has begun is entered for it and a child is listed under it. */
  ghost predicate Booked(fibers: Fibers, children: map<nat, seq<nat>>, requestFibers: map<nat, nat>, timers: seq<Timer>)
  {
    && (forall f, r :: f in fibers && HandlerOf(fibers[f], r) && Entered(fibers[f]) && CalledOff(r) !in timers ==> r in requestFibers)
    && (forall f, r :: f in fibers && ChildOf(fibers[f], r) && CalledOff(r) !in timers ==> Lists(children, r, f))
  }

  ghost predicate Backed(s: State)
  {
    && Held(s.fibers, s.futures) && Slots(s.fibers, s.gate, [], None) && Timed(s)
    && Booked(s.fibers, s.children, s.requestFibers, s.timers)
  }

  // ---------------------------------------------------------------- steps that take nothing away

  predicate JobsKept(fibers: Fibers, more: Fibers)
  {
    forall f :: f in fibers && fibers[f].job.Some? ==> f in more && more[f].job == fibers[f].job
  }

  /** Nobody gets or loses a job or enters one. */
  predicate SameJobs(fibers: Fibers, more: Fibers)
  {
    more.Keys == fibers.Keys && forall f :: f in fibers ==> more[f].job == fibers[f].job && (Entered(more[f]) ==> Entered(fibers[f]))
  }

  /** The jobs are where they were, no future of a job is new, and gate, books and deadlines are as they were. */
  ghost predicate SameBacking(s: State, t: State)
  {
    && SameJobs(s.fibers, t.fibers) && t.children == s.children && t.requestFibers == s.requestFibers
    && (forall u :: Unsettled(t.futures, u) ==> Unsettled(s.futures, u))
    && t.gate == s.gate && t.deadlineOf == s.deadlineOf && t.timers == s.timers && t.nextId >= s.nextId
  }

  lemma HeldKept(fibers: Fibers, more: Fibers, futures: map<nat, Future>, later: map<nat, Future>)
    requires Held(fibers, futures) && JobsKept(fibers, more) && forall u :: Unsettled(later, u) ==> Unsettled(futures, u)
    ensures Held(more, later)
  {
    hide Unsettled;
    forall u | Unsettled(later, u) ensures exists f :: f in more && HasFuture(more[f], u) {
      var f :| f in fibers && HasFuture(fibers[f], u);
      assert f in more && HasFuture(more[f], u);
    }
  }

  lemma SlotsKept(fibers: Fibers, more: Fibers, gate: Admission.Gate, but: seq<nat>, leaving: Option<nat>)
    requires Slots(fibers, gate, but, leaving) && JobsKept(fibers, more)
    ensures Slots(more, gate, but, leaving)
  {
    hide Holds;
    forall r | Holds(gate, r) && r !in but ensures Served(more, r, leaving) {
      var f :| f in fibers && leaving != Some(f) && HandlerOf(fibers[f], r);
      assert f in more && HandlerOf(more[f], r);
    }
  }

  lemma TimedLater(timers: seq<Timer>, nextId: nat, later: nat)
    requires OwnOps(timers, nextId) && later >= nextId
    ensures OwnOps(timers, later)
  {
  }

  lemma SameKept(fibers: Fibers, more: Fibers)
    requires SameJobs(fibers, more)
    ensures JobsKept(fibers, more)
  {
  }

  lemma BookedSame(fibers: Fibers, more: Fibers, children: map<nat, seq<nat>>, requestFibers: map<nat, nat>, timers: seq<Timer>)
    requires Booked(fibers, children, requestFibers, timers) && SameJobs(fibers, more)
    ensures Booked(more, children, requestFibers, timers)
  {
    hide Lists;
  }

  lemma SameIsBacked(s: State, t: State)
    requires Backed(s) && SameBacking(s, t)
    ensures Backed(t)
  {
    hide Held, Slots, Standing, OwnOps, JobsKept, SameJobs, Unsettled, Booked;
    SameKept(s.fibers, t.fibers);
    BookedSame(s.fibers, t.fibers, s.children, s.requestFibers, s.timers);
    HeldKept(s.fibers, t.fibers, s.futures, t.futures);
    SlotsKept(s.fibers, t.fibers, s.gate, [], None);
    TimedLater(s.timers, s.nextId, t.nextId);
  }

  lemma GateBacked(s: State, gate: Admission.Gate)
    requires Backed(s) && forall r :: Holds(gate, r) ==> Holds(s.gate, r)
    ensures Backed(s.(gate := gate))
  {
    hide Held, Standing, OwnOps, Holds, Served, Booked;
  }

  lemma ParkOnBacking(s: State, f: nat)
    requires f in s.fibers && Entered(s.fibers[f])
    ensures SameBacking(s, ParkOn(s, f))
  {
  }

  lemma AwaitBacking(s: State, f: nat, u: nat)
    requires f in s.fibers && Entered(s.fibers[f])
    ensures SameBacking(s, AwaitFuture(s, f, u))
  {
  }

  lemma ParkInCBacking(s: State, f: nat, extra: nat)
    requires f in s.fibers && Entered(s.fibers[f])
    ensures SameBacking(s, ParkInC(s, f, extra))
  {
  }

  lemma SettleBacking(s: State, u: nat)
    ensures SameBacking(s, SettleFuture(s, u))
  {
  }

  lemma PlainBacking(s: State)
    ensures SameBacking(s, SubmitOp(s)) && SameBacking(s, s)
  {
  }

  lemma ClearScopeBacking(s: State, f: nat)
    requires f in s.fibers
    ensures SameBacking(s, ClearScope(s, f))
  {
  }

  lemma LeaveScopeBacking(s: State, f: nat)
    requires f in s.fibers && s.fibers[f].job.Some?
    ensures SameBacking(s, LeaveRequestScope(s, f))
  {
    hide SameBacking, ClearScope;
    PlainBacking(s);
    ClearScopeBacking(s, f);
  }

  lemma NewFutureBacking(s: State)
    ensures SameBacking(s, WithFuture(s, false))
  {
  }

  // ---------------------------------------------------------------- spawn

  /** The new job's fiber, which has not begun it, beside everybody who had a job. */
  ghost predicate Gave(s: State, t: State, g: nat, job: Job)
  {
    && JobsKept(s.fibers, t.fibers) && g in t.fibers && t.fibers[g].job == Some(job) && !Entered(t.fibers[g])
    && (g in s.fibers ==> s.fibers[g].at == Idle && s.fibers[g].job == None)
    && forall f :: f in t.fibers && f != g ==> f in s.fibers && t.fibers[f] == s.fibers[f]
  }

  ghost predicate SameBooks(s: State, t: State)
  {
    t.gate == s.gate && t.deadlineOf == s.deadlineOf && t.timers == s.timers && t.nextId == s.nextId && t.requestFibers == s.requestFibers
  }

  /** The lists lose nobody, and the child is on its own. */
  ghost predicate Listing(s: State, t: State, req: Option<nat>, g: nat)
  {
    && (forall r, f :: Lists(s.children, r, f) ==> Lists(t.children, r, f))
    && (req.Some? ==> Lists(t.children, req.value, g))
  }

  lemma PlaceGives(s: State, job: Job)
    requires Inv(s)
    ensures var (t, g) := Place(s, job);
      Gave(s, t, g, job) && t.futures == s.futures && t.children == s.children && SameBooks(s, t)
  {
    hide Inv;
    if s.idle != [] {
      IdleFacts(s);
    } else {
      CreateNew(s, job);
    }
  }

  lemma SpawnGives(s: State, req: Option<nat>, handles: Option<nat>)
    requires Inv(s)
    ensures var t, w := Spawn(s, req, handles), WithFuture(s, true);
      && (exists g :: Gave(s, t, g, JobFor(s, req, handles)) && Listing(s, t, req, g))
      && t.futures == w.futures && SameBooks(s, t)
  {
    hide Inv, Place, Gave, JobFor, Listing;
    var job := JobFor(s, req, handles);
    WithFutureKeeps(s, true);
    PlaceGives(WithFuture(s, true), job);
    var (placed, g) := Place(WithFuture(s, true), job);
    GaveListed(s, placed, req, g, job);
    assert Gave(s, Spawn(s, req, handles), g, job);
  }

  lemma GaveListed(s: State, placed: State, req: Option<nat>, g: nat, job: Job)
    requires Gave(WithFuture(s, true), placed, g, job) && placed.children == s.children
    ensures var t := AddChild(placed, req, g);
      Gave(s, t, g, job) && Listing(s, t, req, g) && t.futures == placed.futures && SameBooks(placed, t)
  {
    hide JobsKept, Listing, AddChild;
    AddChildLists(placed, req, g);
    ListedGave(s, placed, AddChild(placed, req, g), req, g, job);
  }

  lemma ListedGave(s: State, placed: State, t: State, req: Option<nat>, g: nat, job: Job)
    requires Gave(WithFuture(s, true), placed, g, job) && placed.children == s.children && t == placed.(children := t.children)
    requires Listing(placed, t, req, g)
    ensures Gave(s, t, g, job) && Listing(s, t, req, g) && t.futures == placed.futures && SameBooks(placed, t)
  {
    hide JobsKept, Lists;
  }

  lemma AddChildLists(s: State, req: Option<nat>, g: nat)
    ensures var t := AddChild(s, req, g); t == s.(children := t.children) && Listing(s, t, req, g)
  {
    var t := AddChild(s, req, g);
    assert t == s.(children := t.children);
    if req.Some? && g !in ChildrenOf(s, req.value) {
      var r := req.value;
      assert t.children == s.children[r := ChildrenOf(s, r) + [g]];
      hide AddChild;
      assert g in t.children[r];
      forall q, f | Lists(s.children, q, f) ensures Lists(t.children, q, f) {
        assert q == r ==> f in ChildrenOf(s, r);
      }
    }
  }

  lemma SpawnHeld(s: State, req: Option<nat>, handles: Option<nat>)
    requires Inv(s) && Held(s.fibers, s.futures)
    ensures Held(Spawn(s, req, handles).fibers, Spawn(s, req, handles).futures)
  {
    hide Inv, Spawn, OriginOf, Listing;
    SpawnGives(s, req, handles);
    var t := Spawn(s, req, handles);
    var g :| Gave(s, t, g, JobFor(s, req, handles));
    forall u | Unsettled(t.futures, u) ensures exists f :: f in t.fibers && HasFuture(t.fibers[f], u) {
      if u == s.nextFuture {
        assert HasFuture(t.fibers[g], u);
      } else {
        assert Unsettled(s.futures, u);
        var f :| f in s.fibers && HasFuture(s.fibers[f], u);
        assert HasFuture(t.fibers[f], u);
      }
    }
  }

  /** Spawning a handler serves its request; the leaving fiber runs and is not the one that gets the job. */
  lemma SpawnServes(s: State, id: nat, but: seq<nat>, leaving: Option<nat>)
    requires Inv(s) && Slots(s.fibers, s.gate, but, leaving)
    requires leaving.Some? ==> leaving.value in s.fibers && s.fibers[leaving.value].at == Running
    requires but != [] && but[0] == id
    ensures Slots(Spawn(s, None, Some(id)).fibers, Spawn(s, None, Some(id)).gate, but[1..], leaving)
  {
    hide Inv, Spawn, OriginOf, Holds, Listing;
    SpawnGives(s, None, Some(id));
    var t := Spawn(s, None, Some(id));
    var g :| Gave(s, t, g, JobFor(s, None, Some(id)));
    SlotsKept(s.fibers, t.fibers, s.gate, but, leaving);
    assert HandlerOf(t.fibers[g], id);
    assert leaving != Some(g);
    assert forall r :: r in but <==> r == id || r in but[1..];
  }

  lemma GaveBooked(s: State, t: State, req: Option<nat>, g: nat, job: Job)
    requires Booked(s.fibers, s.children, s.requestFibers, s.timers)
    requires Gave(s, t, g, job) && Listing(s, t, req, g) && SameBooks(s, t) && job.req == req
    ensures Booked(t.fibers, t.children, t.requestFibers, t.timers)
  {
    hide Lists, JobsKept;
    forall f, r | f in t.fibers && ChildOf(t.fibers[f], r) && CalledOff(r) !in t.timers ensures Lists(t.children, r, f) {
      if f != g {
        assert Lists(s.children, r, f);
      }
    }
  }

  lemma SpawnBooked(s: State, req: Option<nat>, handles: Option<nat>)
    requires Inv(s) && Booked(s.fibers, s.children, s.requestFibers, s.timers)
    ensures var t := Spawn(s, req, handles); Booked(t.fibers, t.children, t.requestFibers, t.timers)
  {
    hide Inv, Spawn, OriginOf, Listing, Gave, Booked;
    SpawnGives(s, req, handles);
    var t := Spawn(s, req, handles);
    var g :| Gave(s, t, g, JobFor(s, req, handles)) && Listing(s, t, req, g);
    GaveBooked(s, t, req, g, JobFor(s, req, handles));
  }

  lemma SpawnBacked(s: State, req: Option<nat>)
    requires Inv(s) && Backed(s)
    ensures Backed(Spawn(s, req, None))
  {
    hide Inv, Spawn, Held, Slots, Standing, OwnOps, JobFor, Booked, Listing;
    SpawnBooked(s, req, None);
    SpawnHeld(s, req, None);
    SpawnGives(s, req, None);
    var g :| Gave(s, Spawn(s, req, None), g, JobFor(s, req, None));
    SlotsKept(s.fibers, Spawn(s, req, None).fibers, s.gate, [], None);
  }

  lemma {:induction false} HandlersBacked(s: State, ids: seq<nat>, leaving: Option<nat>)
    requires Inv(s) && Held(s.fibers, s.futures) && Slots(s.fibers, s.gate, ids, leaving)
    requires Booked(s.fibers, s.children, s.requestFibers, s.timers)
    requires leaving.Some? ==> leaving.value in s.fibers && s.fibers[leaving.value].at == Running
    ensures var t := SpawnHandlers(s, ids);
      && Held(t.fibers, t.futures) && Slots(t.fibers, t.gate, [], leaving) && Booked(t.fibers, t.children, t.requestFibers, t.timers)
      && t.deadlineOf == s.deadlineOf && t.timers == s.timers && t.nextId == s.nextId
    decreases |ids|
  {
    hide Inv, Held, Slots, Spawn, JobFor, Booked, Gave, Listing;
    if ids != [] {
      SpawnBooked(s, None, Some(ids[0]));
      var t := Spawn(s, None, Some(ids[0]));
      SpawnHeld(s, None, Some(ids[0]));
      SpawnServes(s, ids[0], ids, leaving);
      SpawnGives(s, None, Some(ids[0]));
      SpawnKeeps(s, None, Some(ids[0]));
      if leaving.Some? {
        SpawnUndisturbed(s, None, Some(ids[0]), leaving.value);
      }
      HandlersBacked(t, ids[1..], leaving);
    }
  }

  // ---------------------------------------------------------------- deadlines

  lemma StandingSnoc(timers: seq<Timer>, m: Timer)
    ensures Standing(timers + [m]) == After(Standing(timers), m)
  {
    assert (timers + [m])[..|timers|] == timers;
  }

  lemma OwnOpsSnoc(timers: seq<Timer>, m: Timer, nextId: nat, later: nat)
    requires OwnOps(timers, nextId) && later >= nextId && (m.Armed? ==> nextId <= m.op < later)
    ensures OwnOps(timers + [m], later)
  {
  }

  lemma ArmTimed(s: State, r: nat)
    requires Timed(s)
    ensures Timed(Arm(s, r))
  {
    hide Standing, OwnOps;
    var op := Disarm(s, r).nextId;
    StandingSnoc(s.timers, Armed(op, r));
    OwnOpsSnoc(s.timers, Armed(op, r), s.nextId, op + 1);
    assert (s.deadlineOf - {r})[r := op] == s.deadlineOf[r := op];
  }

  lemma BookedLater(s: State, m: Timer)
    requires Booked(s.fibers, s.children, s.requestFibers, s.timers)
    ensures Booked(s.fibers, s.children, s.requestFibers, s.timers + [m])
  {
    hide HandlerOf, ChildOf, Entered, Lists;
  }

  lemma ArmBacked(s: State, r: nat)
    requires Backed(s)
    ensures Backed(Arm(s, r))
  {
    hide Held, Slots, Timed, Booked;
    ArmTimed(s, r);
    BookedLater(s, Armed(Disarm(s, r).nextId, r));
  }

  lemma ForgetTimed(s: State, f: nat, r: nat)
    requires f in s.fibers && Timed(s)
    ensures Timed(Forget(s, f, r))
  {
    hide Standing, OwnOps;
    StandingSnoc(s.timers, CalledOff(r));
    OwnOpsSnoc(s.timers, CalledOff(r), s.nextId, Disarm(s, r).nextId);
    assert r !in s.deadlineOf ==> s.deadlineOf - {r} == s.deadlineOf;
  }

  lemma ExpireTimed(s: State, op: nat)
    requires Inv(s) && Timed(s) && op in s.deadlines
    ensures Timed(Expire(s, op))
  {
    hide Standing, OwnOps, WaitInv, ReadyInv, PendingInv, IdleInv, FutureInv, ParkedInv, JobInv, OwnerInv, FreshInv, LogInv;
    StandingSnoc(s.timers, Fired(op));
    OwnOpsSnoc(s.timers, Fired(op), s.nextId, s.nextId);
    assert Expire(s, op).deadlineOf == Standing(s.timers + [Fired(op)]);
  }

  lemma ExpireBacked(s: State, op: nat)
    requires Inv(s) && Backed(s) && op in s.deadlines
    ensures Backed(Expire(s, op))
  {
    hide Inv, Held, Slots, Timed, Booked;
    ExpireTimed(s, op);
    BookedLater(s, Fired(op));
  }

  // ---------------------------------------------------------------- the end of a job

  lemma PopHolds(g: Admission.Gate)
    requires g.queue != []
    ensures forall r :: Holds(Admission.Pop(g), r) ==> Holds(g, r) || (r == g.queue[0] && r !in g.queueCancelled)
  {
  }

  lemma LeaveHolds(g: Admission.Gate, id: nat)
    ensures forall r :: Holds(Admission.Leave(g, id), r) ==> Holds(g, r) && r != id
  {
  }

  lemma {:induction false} DrainHolds(g: Admission.Gate)
    ensures var (h, admitted) := Admission.Drain(g); forall r :: Holds(h, r) ==> Holds(g, r) || r in admitted
    decreases |g.queue|
  {
    hide Holds;
    if g.queue != [] && Admission.HasRoom(g) {
      DrainHolds(Admission.Pop(g));
      PopHolds(g);
    }
  }

  /** A slot after a release is one that was held before, by another request, or one of those admitted now. */
  lemma ReleaseHolds(g: Admission.Gate, id: nat)
    ensures var (h, admitted) := Admission.Release(g, id); forall r :: Holds(h, r) ==> (Holds(g, r) && r != id) || r in admitted
  {
    hide Admission.Drain, Holds, Admission.Leave;
    LeaveHolds(g, id);
    DrainHolds(Admission.Leave(g, id));
  }

  lemma ForgetKept(s: State, f: nat, r: nat)
    requires f in s.fibers
    ensures JobsKept(s.fibers, Forget(s, f, r).fibers) && Forget(s, f, r).futures == s.futures
  {
  }

  lemma ForgetBooked(s: State, f: nat, r: nat)
    requires f in s.fibers && Booked(s.fibers, s.children, s.requestFibers, s.timers)
    ensures var t := Forget(s, f, r); Booked(t.fibers, t.children, t.requestFibers, t.timers)
  {
    var t := Forget(s, f, r);
    assert t.timers == s.timers + [CalledOff(r)] && t.requestFibers == s.requestFibers - {r} && t.children == s.children - {r};
    assert t.fibers == s.fibers[f := s.fibers[f].(scope := None)];
    hide Forget;
    assert forall q :: CalledOff(q) !in t.timers ==> CalledOff(q) !in s.timers && q != r;
  }

  /** Giving the slot back: whatever else holds one is served by others, or about to be. */
  lemma LeftSlots(s: State, f: nat, r: nat, gate: Admission.Gate, admitted: seq<nat>)
    requires Slots(s.fibers, s.gate, [], None) && f in s.fibers && HandlerOf(s.fibers[f], r)
    requires forall q :: Holds(gate, q) ==> (Holds(s.gate, q) && q != r) || q in admitted
    ensures Slots(s.fibers, gate, admitted, Some(f))
  {
    hide Holds;
    forall q | Holds(gate, q) && q !in admitted ensures Served(s.fibers, q, Some(f)) {
      assert Served(s.fibers, q, None);
      var g :| g in s.fibers && HandlerOf(s.fibers[g], q);
      assert g != f;
    }
  }

  lemma ReleaseBacked(s: State, f: nat, r: nat)
    requires Runs(s, f) && Backed(s) && HandlerOf(s.fibers[f], r)
    ensures var t := ReleaseRequest(s, f, r);
      && Held(t.fibers, t.futures) && Slots(t.fibers, t.gate, [], Some(f)) && Timed(t)
      && Booked(t.fibers, t.children, t.requestFibers, t.timers)
  {
    hide Inv, Held, Slots, Timed, HandlerOf, Booked;
    RunsFacts(s, f);
    ForgetBooked(s, f, r);
    var (gate, admitted) := Admission.Release(s.gate, r);
    var t := Forget(s, f, r).(gate := gate);
    ReleaseHolds(s.gate, r);
    LeftSlots(s, f, r, gate, admitted);
    ForgetKept(s, f, r);
    HeldKept(s.fibers, t.fibers, s.futures, t.futures);
    SlotsKept(s.fibers, t.fibers, gate, admitted, Some(f));
    ForgetTimed(s, f, r);
    ForgetKeeps(s, f, r);
    GateIsSeparate(Forget(s, f, r), gate);
    RunsFacts(Forget(s, f, r), f);
    HandlersBacked(t, admitted, Some(f));
    TimedSame(Forget(s, f, r), SpawnHandlers(t, admitted));
  }

  lemma TimedSame(s: State, t: State)
    requires Timed(s) && t.deadlineOf == s.deadlineOf && t.timers == s.timers && t.nextId == s.nextId
    ensures Timed(t)
  {
  }

  lemma {:induction false} WithoutKeeps(fs: seq<nat>, f: nat, g: nat)
    requires g in fs && g != f
    ensures g in Without(fs, f)
  {
    if fs[0] != f && fs[0] != g {
      WithoutKeeps(fs[1..], f, g);
    }
  }

  lemma ForgetChildLists(s: State, req: Option<nat>, f: nat)
    ensures var t := ForgetChild(s, req, f);
      forall r, g :: Lists(s.children, r, g) && g != f ==> Lists(t.children, r, g)
  {
    var t := ForgetChild(s, req, f);
    forall r, g | Lists(s.children, r, g) && g != f ensures Lists(t.children, r, g) {
      WithoutKeeps(s.children[r], f, g);
    }
  }

  lemma RetireBooked(s: State, f: nat)
    requires f in s.fibers && s.fibers[f].job.Some? && Booked(s.fibers, s.children, s.requestFibers, s.timers)
    ensures var t := Retire(s, f, s.fibers[f].job.value.req); Booked(t.fibers, t.children, t.requestFibers, t.timers)
  {
    var req := s.fibers[f].job.value.req;
    ForgetChildLists(s, req, f);
    RetiredBooks(s, f, req);
    hide Retire, ForgetChild;
    BookedLess(s, Retire(s, f, req), f);
  }

  lemma RetiredBooks(s: State, f: nat, req: Option<nat>)
    requires f in s.fibers
    ensures var t := Retire(s, f, req);
      && f in t.fibers && t.fibers[f].job.None? && t.timers == s.timers && t.requestFibers == s.requestFibers
      && t.children == ForgetChild(s, req, f).children && forall g :: g in t.fibers && g != f ==> g in s.fibers && t.fibers[g] == s.fibers[g]
  {
  }

  lemma BookedLess(s: State, t: State, f: nat)
    requires Booked(s.fibers, s.children, s.requestFibers, s.timers) && f in t.fibers && t.fibers[f].job.None?
    requires t.timers == s.timers && t.requestFibers == s.requestFibers
    requires forall g :: g in t.fibers && g != f ==> g in s.fibers && t.fibers[g] == s.fibers[g]
    requires forall r, g :: Lists(s.children, r, g) && g != f ==> Lists(t.children, r, g)
    ensures Booked(t.fibers, t.children, t.requestFibers, t.timers)
  {
    hide Lists;
  }

  /** The fiber lets go of its job once the job's future is settled and its slot given back. */
  lemma RetireBacked(s: State, f: nat)
    requires f in s.fibers && s.fibers[f].job.Some? && Held(s.fibers, s.futures) && Slots(s.fibers, s.gate, [], Some(f)) && Timed(s)
    requires Booked(s.fibers, s.children, s.requestFibers, s.timers)
    requires !Unsettled(s.futures, s.fibers[f].job.value.future)
    ensures Backed(Retire(s, f, s.fibers[f].job.value.req))
  {
    var t := Retire(s, f, s.fibers[f].job.value.req);
    assert forall g :: g in s.fibers && g != f ==> g in t.fibers && t.fibers[g] == s.fibers[g];
    assert t.futures == s.futures && t.gate == s.gate && t.timers == s.timers && t.deadlineOf == s.deadlineOf && t.nextId == s.nextId;
    RetireBooked(s, f);
    hide Retire, Standing, OwnOps, Holds, Unsettled, Booked;
    forall u | Unsettled(t.futures, u) ensures exists g :: g in t.fibers && HasFuture(t.fibers[g], u) {
      var g :| g in s.fibers && HasFuture(s.fibers[g], u);
      assert g != f && HasFuture(t.fibers[g], u);
    }
    forall r | Holds(t.gate, r) ensures Served(t.fibers, r, None) {
      assert Served(s.fibers, r, Some(f));
      var g :| g in s.fibers && g != f && HandlerOf(s.fibers[g], r);
      assert HandlerOf(t.fibers[g], r);
    }
  }

  lemma OwnFutureSettled(s: State, f: nat, u: nat)
    requires f in s.fibers && s.fibers[f].job.Some?
    ensures var t := SettleFuture(s, u); t.fibers == s.fibers && t.gate == s.gate && !Unsettled(t.futures, u)
  {
  }

  lemma FinishBacked(s: State, f: nat)
    requires Runs(s, f) && Backed(s) && s.fibers[f].job.Some?
    ensures Backed(FinishJob(s, f))
  {
    hide Inv, Held, Slots, Timed, SettleFuture, Retire, ReleaseRequest, Unsettled, Booked, SameJobs;
    var job := s.fibers[f].job.value;
    var t := if job.handles.Some? then ReleaseRequest(s, f, job.handles.value) else s;
    if job.handles.Some? {
      ReleaseBacked(s, f, job.handles.value);
      ReleaseKeeps(s, f, job.handles.value);
    } else {
      NoHandlerLeaves(s, f);
    }
    var u := SettleFuture(t, job.future);
    OwnFutureSettled(t, f, job.future);
    SettleBacking(t, job.future);
    SameKept(t.fibers, u.fibers);
    BookedSame(t.fibers, u.fibers, t.children, t.requestFibers, t.timers);
    HeldKept(t.fibers, u.fibers, t.futures, u.futures);
    TimedSettled(t, u);
    RetireBacked(u, f);
  }

  lemma TimedSettled(s: State, t: State)
    requires Timed(s) && SameBacking(s, t)
    ensures Timed(t)
  {
    hide Standing, OwnOps;
    TimedLater(s.timers, s.nextId, t.nextId);
  }

  lemma NoHandlerLeaves(s: State, f: nat)
    requires f in s.fibers && s.fibers[f].job.Some? && s.fibers[f].job.value.handles.None? && Slots(s.fibers, s.gate, [], None)
    ensures Slots(s.fibers, s.gate, [], Some(f))
  {
    hide Holds;
    forall r | Holds(s.gate, r) ensures Served(s.fibers, r, Some(f)) {
      assert Served(s.fibers, r, None);
      var g :| g in s.fibers && HandlerOf(s.fibers[g], r);
      assert g != f;
    }
  }

  // ---------------------------------------------------------------- user code, and an arrival

  lemma PerformBacked(s: State, f: nat, act: Act)
    requires Runs(s, f) && Backed(s) && s.fibers[f].job.Some?
    ensures Backed(Perform(s, f, act))
  {
    hide Inv, Backed, SameBacking, ParkOn, AwaitFuture, ParkInC, SettleFuture, Arm, FinishJob, Spawn, SubmitOp, WithFuture, LeaveRequestScope;
    RunsFacts(s, f);
    PlainBacking(s);
    NewFutureBacking(s);
    LeaveScopeBacking(s, f);
    match act {
      case Async => SpawnBacked(s, s.fibers[f].scope);
      case Sleep => ParkOnBacking(s, f);
      case Await(fut) => AwaitBacking(s, f, fut);
      case Block(extra) => ParkInCBacking(s, f, extra);
      case Settle(fut) => SettleBacking(s, fut);
      case Deadline => if s.fibers[f].scope.Some? { ArmBacked(s, s.fibers[f].scope.value); }
      case Finish => FinishBacked(s, f);
      case _ =>
    }
    if !act.Async? && !act.Deadline? && !act.Finish? {
      SameIsBacked(s, Perform(s, f, act));
    }
  }

  lemma ScriptBacking(s: State, script: seq<Act>)
    ensures SameBacking(s, s.(script := script))
  {
  }

  lemma {:induction false} UserBacked(s: State)
    requires Inv(s) && Backed(s)
    ensures Backed(RunUser(s))
    decreases |s.script|
  {
    hide Inv, Backed, SameBacking, Perform;
    if Active(s) {
      var t, f := s.(script := s.script[1..]), s.current.value;
      ScriptKeeps(s, s.script[1..]);
      ScriptBacking(s, s.script[1..]);
      SameIsBacked(s, t);
      PerformKeeps(t, f, s.script[0]);
      PerformBacked(t, f, s.script[0]);
      var u := Perform(t, f, s.script[0]);
      if |u.script| < |s.script| {
        UserBacked(u);
      }
    }
  }

  /** The fiber enters its job; a handler is entered in the books. */
  lemma BeginBacked(s: State, f: nat, job: Job, log: seq<Delivery>)
    requires Backed(s) && f in s.fibers && s.fibers[f].job == Some(job)
    ensures Backed(Begin(s.(log := log), f, job))
  {
    var t := Begin(s.(log := log), f, job);
    assert JobsKept(s.fibers, t.fibers);
    BeginBooked(s, f, job, log);
    hide Held, Slots, Standing, OwnOps, Booked, JobsKept, Unsettled;
    HeldKept(s.fibers, t.fibers, s.futures, t.futures);
    SlotsKept(s.fibers, t.fibers, s.gate, [], None);
  }

  lemma BeginBooked(s: State, f: nat, job: Job, log: seq<Delivery>)
    requires Booked(s.fibers, s.children, s.requestFibers, s.timers) && f in s.fibers && s.fibers[f].job == Some(job)
    ensures var t := Begin(s.(log := log), f, job); Booked(t.fibers, t.children, t.requestFibers, t.timers)
  {
    hide Lists;
  }

  lemma ArriveHolds(g: Admission.Gate, id: nat, exempt: bool)
    ensures var (h, verdict) := Admission.Arrive(g, id, exempt);
      forall r :: Holds(h, r) ==> Holds(g, r) || (r == id && verdict == Admission.Admitted)
  {
  }

  /** An arriving request gets its handler with its slot. */
  lemma ArriveBacked(s: State, id: nat, exempt: bool)
    requires Inv(s) && AtLoop(s) && Backed(s)
    ensures Backed(DispatchOne(s, Arrived(id, exempt)))
  {
    hide Inv, Held, Standing, OwnOps, Spawn, Admission.Arrive, Booked;
    var (gate, verdict) := Admission.Arrive(s.gate, id, exempt);
    var t := s.(gate := gate);
    GateIsSeparate(s, gate);
    ArriveHolds(s.gate, id, exempt);
    if verdict == Admission.Admitted {
      hide Slots;
      ArriveSlots1(s, gate, id);
      HandlersBacked(t, [id], None);
      assert [id][1..] == [];
      assert SpawnHandlers(t, [id]) == SpawnHandlers(Spawn(t, None, Some(id)), []);
    }
  }

  lemma ArriveSlots1(s: State, gate: Admission.Gate, id: nat)
    requires Slots(s.fibers, s.gate, [], None) && forall r :: Holds(gate, r) ==> Holds(s.gate, r) || r == id
    ensures Slots(s.fibers, gate, [id], None)
  {
    hide Holds, Served;
  }
}
