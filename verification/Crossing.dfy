/**
 A run in which a cancellation of request 1 is thrown into work of request 2.  Request 2's handler has
 returned and its response is still being produced; the job it spawns then belongs to no request, is
 handed the fiber on which a child of request 1 has just finished, and what it spawns is listed under 1.
 */
module Crossing {
  import opened Prelude
  import opened Scheduler
  import opened SchedulerSafety
  import opened SchedulerRuns
  import opened GracefulStop
  import opened SchedulerSteps
  import opened SchedulerTheorems
  import Admission

  const CODE: seq<Act> := [
    Async, Sleep,               // request 1's handler spawns a child and waits: op 3
    Sleep,                      // request 2's handler waits: op 4
    Finish,                     // the child is done
    LeaveScope, Async, Sleep,   // request 2's handler returns; its producer spawns a job and waits: op 5
    Async, Sleep,               // that job, on the child's fiber, spawns another and waits: op 6
    Sleep,                      // which waits: op 7
    Sleep, Sleep]               // what the cancellation unwinds waits once more

  const FEED: seq<seq<Completion>> :=
    [[Arrived(0, false), Arrived(0, false)], [Done(4)], [], [Gone(1)]]

  const HANDLER1 := Job(0, None, Some(1), Some(1))
  const HANDLER2 := Job(1, None, Some(2), Some(2))
  const CHILD := Job(2, Some(1), None, Some(1))
  const PRODUCED := Job(3, None, None, Some(2))
  const VICTIM := Job(4, Some(1), None, Some(2))

  const NEW_FUTURE := Future(false, [], true)

  /** The gate after both requests were admitted. */
  function BothIn(): Admission.Gate
  {
    Admission.Arrive(Admission.Arrive(Admission.Open(0, 0), 1, false).0, 2, false).0
  }

  function Accepted(): State
  {
    State(map[0 := Fiber(Fresh, Some(HANDLER1), None, None), 1 := Fiber(Fresh, Some(HANDLER2), None, None)],
          map[0 := NEW_FUTURE, 1 := NEW_FUTURE],
          map[], map[], [], [Wake(0, GiveJob(HANDLER1)), Wake(1, GiveJob(HANDLER2))], [],
          map[], map[], map[], map[], map[], {}, {}, {1, 2}, BothIn(), None, CODE, 3, 2, 2, [], [])
  }

  // ---------------------------------------------------------------- the stages of the run

  /** The loop has control, with so much of the code run and so many ids handed out. */
  predicate Stage(s: State, done: nat, nextId: nat, nextFiber: nat, nextFuture: nat)
  {
    && AtLoop(s) && s.deadlines == map[] && s.parked == map[] && s.requests == {1, 2}
    && done <= |CODE| && s.script == CODE[done..] && s.nextId == nextId && s.nextFiber == nextFiber && s.nextFuture == nextFuture
  }

  predicate Has(s: State, f: nat, fb: Fiber)
  {
    f in s.fibers && s.fibers[f] == fb
  }

  predicate FirstWaits(s: State)
  {
    && Stage(s, 2, 4, 3, 3) && s.pending == [Wake(1, GiveJob(HANDLER2)), Wake(2, GiveJob(CHILD))] && s.ready == [] && s.idle == []
    && Has(s, 1, Fiber(Fresh, Some(HANDLER2), None, None)) && Has(s, 2, Fiber(Fresh, Some(CHILD), None, None))
    && ChildrenOf(s, 1) == [2] && 2 in s.futures && s.futures[2] == NEW_FUTURE
  }

  predicate BothWait(s: State)
  {
    && Stage(s, 3, 5, 3, 3) && s.pending == [Wake(2, GiveJob(CHILD))] && s.ready == [] && s.idle == []
    && Has(s, 1, Fiber(OnOp(4), Some(HANDLER2), Some(2), None)) && Has(s, 2, Fiber(Fresh, Some(CHILD), None, None))
    && ChildrenOf(s, 1) == [2] && 2 in s.futures && s.futures[2] == NEW_FUTURE
    && 4 in s.live && 4 in s.waiting && s.waiting[4] == 1
  }

  /** The child's fiber is back in the pool with request 1 in its scope. */
  predicate ChildDone(s: State)
  {
    && Stage(s, 4, 5, 3, 3) && s.pending == [] && s.ready == [] && s.idle == [2]
    && Has(s, 1, Fiber(OnOp(4), Some(HANDLER2), Some(2), None)) && Has(s, 2, Fiber(Idle, None, Some(1), Some(1)))
    && ChildrenOf(s, 1) == [] && 4 in s.live && 4 in s.waiting && s.waiting[4] == 1
  }

  /** Request 2's producer has spawned a job, which was given that fiber. */
  predicate Produced(s: State)
  {
    && Stage(s, 7, 6, 3, 4) && s.pending == [] && s.ready == [Wake(2, GiveJob(PRODUCED))] && s.idle == []
    && Has(s, 2, Fiber(Idle, Some(PRODUCED), Some(1), Some(1))) && ChildrenOf(s, 1) == []
  }

  /** What that job spawned is listed under request 1. */
  predicate Misfiled(s: State)
  {
    && Stage(s, 9, 7, 4, 5) && s.pending == [Wake(3, GiveJob(VICTIM))] && s.ready == [] && s.idle == []
    && Has(s, 3, Fiber(Fresh, Some(VICTIM), None, None)) && ChildrenOf(s, 1) == [3]
  }

  predicate VictimWaits(s: State)
  {
    && Stage(s, 10, 8, 4, 5) && s.pending == [] && s.ready == [] && s.idle == []
    && Has(s, 3, Fiber(OnOp(7), Some(VICTIM), Some(1), None)) && ChildrenOf(s, 1) == [3]
  }

  // ---------------------------------------------------------------- one act at a time

  predicate AboutTo(s: State, f: nat, act: Act, rest: seq<Act>)
  {
    s.current == Some(f) && f in s.fibers && s.fibers[f].job.Some? && s.script == [act] + rest
  }

  /** Running code performs its next act. */
  lemma OneAct(s: State, f: nat, act: Act, rest: seq<Act>)
    requires AboutTo(s, f, act, rest)
    ensures RunUser(s) == RunUser(Perform(s.(script := rest), f, act))
  {
    hide Perform;
    assert s.script[1..] == rest;
    PerformGrows(s.(script := rest), f, act);
  }

  lemma AsyncAct(s: State, f: nat, rest: seq<Act>)
    requires AboutTo(s, f, Async, rest)
    ensures RunUser(s) == RunUser(Spawn(s.(script := rest), s.fibers[f].scope, None))
  {
    hide RunUser, Spawn;
    OneAct(s, f, Async, rest);
  }

  lemma LeaveAct(s: State, f: nat, rest: seq<Act>)
    requires AboutTo(s, f, LeaveScope, rest) && s.fibers[f].job.value.handles.Some?
    ensures RunUser(s) == RunUser(ClearScope(s.(script := rest), f))
  {
    hide RunUser, ClearScope;
    OneAct(s, f, LeaveScope, rest);
  }

  lemma SleepAct(s: State, f: nat, rest: seq<Act>)
    requires AboutTo(s, f, Sleep, rest)
    ensures RunUser(s) == ParkOn(s.(script := rest), f)
  {
    OneAct(s, f, Sleep, rest);
  }

  lemma FinishAct(s: State, f: nat, rest: seq<Act>)
    requires AboutTo(s, f, Finish, rest) && s.fibers[f].job.value.handles.None?
    ensures RunUser(s) == FinishJob(s.(script := rest), f)
  {
    hide RunUser, FinishJob;
    OneAct(s, f, Finish, rest);
    FinishStops(s.(script := rest), f);
    Stopped(FinishJob(s.(script := rest), f));
  }

  lemma FinishStops(s: State, f: nat)
    requires f in s.fibers && s.fibers[f].job.Some? && s.fibers[f].job.value.handles.None?
    ensures FinishJob(s, f).current == None
  {
    SettleFibers(s, s.fibers[f].job.value.future);
    hide SettleFuture;
  }

  lemma Stopped(s: State)
    requires s.current.None?
    ensures RunUser(s) == s
  {
  }

  // ---------------------------------------------------------------- turn 1: both requests arrive

  /** Both requests have been polled, and one has been dispatched. */
  function Polled(): State
  {
    Boot(0, 0, CODE).(nextId := 3, requests := {1, 2})
  }

  function OneIn(): State
  {
    Polled().(fibers := map[0 := Fiber(Fresh, Some(HANDLER1), None, None)], futures := map[0 := NEW_FUTURE],
              pending := [Wake(0, GiveJob(HANDLER1))], nextFiber := 1, nextFuture := 1,
              gate := Admission.Arrive(Admission.Open(0, 0), 1, false).0)
  }

  lemma Dispatched()
    ensures DispatchOne(Polled(), Arrived(1, false)) == OneIn()
    ensures DispatchOne(OneIn(), Arrived(2, false)) == Accepted()
  {
    assert map[][0 := NEW_FUTURE] == map[0 := NEW_FUTURE];
    assert [] + [Wake(0, GiveJob(HANDLER1))] == [Wake(0, GiveJob(HANDLER1))];
    assert DispatchOne(OneIn(), Arrived(2, false)).fibers == Accepted().fibers;
  }

  lemma PolledBoth()
    ensures Poll(Boot(0, 0, CODE), [], FEED[0]) == (Polled(), [Arrived(1, false), Arrived(2, false)])
  {
    hide Poll;
    var s := Boot(0, 0, CODE);
    var t := s.(nextId := 2, requests := {1});
    PollTwo(s, [], FEED[0]);
    assert s.requests + {1} == {1} && t.requests + {2} == {1, 2};
    assert [] + [Arrived(1, false)] == [Arrived(1, false)];
    assert PollOne(s, [], FEED[0][0]) == (t, [Arrived(1, false)]);
    assert [Arrived(1, false)] + [Arrived(2, false)] == [Arrived(1, false), Arrived(2, false)];
    assert PollOne(t, [Arrived(1, false)], FEED[0][1]) == (Polled(), [Arrived(1, false), Arrived(2, false)]);
  }

  lemma Turn1()
    ensures Turn(Boot(0, 0, CODE), FEED[0]) == Accepted()
  {
    PolledBoth();
    Dispatched();
    DispatchTwo(Polled(), Arrived(1, false), Arrived(2, false));
    hide Accepted, Poll, Dispatch, OneIn, Polled;
  }

  // ---------------------------------------------------------------- turn 2: the child comes and goes

  lemma FirstStarts(s: State)
    requires s == Accepted()
    ensures var t := Start(s.(pending := s.pending[1..]), 0, HANDLER1);
      && StartFirst(s) == RunUser(t) && AboutTo(t, 0, Async, CODE[1..])
      && Has(t, 0, Fiber(Running, Some(HANDLER1), Some(1), None)) && Has(t, 1, Fiber(Fresh, Some(HANDLER2), None, None))
      && Stage(t.(current := None), 0, 3, 2, 2) && t.pending == [Wake(1, GiveJob(HANDLER2))]
      && t.ready == [] && t.idle == [] && t.children == map[]
  {
    hide RunUser;
  }

  lemma FirstSpawns(s: State)
    requires Stage(s.(current := None), 1, 3, 2, 2) && s.current == Some(0)
    requires Has(s, 0, Fiber(Running, Some(HANDLER1), Some(1), None)) && Has(s, 1, Fiber(Fresh, Some(HANDLER2), None, None))
    requires s.pending == [Wake(1, GiveJob(HANDLER2))] && s.ready == [] && s.idle == [] && s.children == map[]
    ensures var t := Spawn(s, Some(1), None);
      && FirstWaits(ParkOn(t.(script := CODE[2..]), 0)) && AboutTo(t, 0, Sleep, CODE[2..])
  {
  }

  lemma FirstRuns(s: State)
    requires s == Accepted()
    ensures FirstWaits(StartFirst(s))
  {
    hide RunUser, StartFirst, Start, ParkOn, Spawn, FirstWaits;
    FirstStarts(s);
    var t := Start(s.(pending := s.pending[1..]), 0, HANDLER1);
    AsyncAct(t, 0, CODE[1..]);
    FirstSpawns(t.(script := CODE[1..]));
    SleepAct(Spawn(t.(script := CODE[1..]), Some(1), None), 0, CODE[2..]);
  }

  /** A fresh fiber with a job of a request starts, submits an op and waits for it. */
  lemma StartThenSleep(s: State, f: nat, job: Job, scope: Option<nat>, left: Option<nat>, rest: seq<Act>)
    requires AtLoop(s) && s.pending != [] && s.pending[0] == Wake(f, GiveJob(job)) && Has(s, f, Fiber(Fresh, Some(job), None, left))
    requires s.script == [Sleep] + rest && scope.Some?
    requires scope == if job.handles.Some? then job.handles else job.req
    ensures var t := StartFirst(s);
      && Has(t, f, Fiber(OnOp(s.nextId), Some(job), scope, left)) && (forall g :: g in s.fibers && g != f ==> Has(t, g, s.fibers[g]))
      && t.pending == s.pending[1..] && t.live == s.live + {s.nextId} && t.waiting == s.waiting[s.nextId := f]
      && t.script == rest && t.nextId == s.nextId + 1 && AtLoop(t)
      && t.ready == s.ready && t.idle == s.idle && t.children == s.children && t.futures == s.futures
      && t.deadlines == s.deadlines && t.parked == s.parked && t.requests == s.requests
      && t.nextFiber == s.nextFiber && t.nextFuture == s.nextFuture
  {
    hide RunUser;
    SleepAct(Start(s.(pending := s.pending[1..]), f, job), f, rest);
  }

  lemma SecondRuns(s: State)
    requires FirstWaits(s)
    ensures BothWait(StartFirst(s))
  {
    hide StartFirst;
    StartThenSleep(s, 1, HANDLER2, Some(2), None, CODE[3..]);
  }

  lemma ChildStarts(s: State)
    requires BothWait(s)
    ensures var t := Start(s.(pending := s.pending[1..]), 2, CHILD);
      && StartFirst(s) == RunUser(t) && AboutTo(t, 2, Finish, CODE[4..])
      && Stage(t.(current := None), 3, 5, 3, 3) && t.pending == [] && t.ready == [] && t.idle == []
      && Has(t, 1, s.fibers[1]) && Has(t, 2, Fiber(Running, Some(CHILD), Some(1), None))
      && t.children == s.children && t.futures == s.futures && t.live == s.live && t.waiting == s.waiting
  {
    hide RunUser;
  }

  lemma ChildFinishes(s: State)
    requires Stage(s.(current := None), 4, 5, 3, 3) && s.pending == [] && s.ready == [] && s.idle == []
    requires Has(s, 1, Fiber(OnOp(4), Some(HANDLER2), Some(2), None)) && Has(s, 2, Fiber(Running, Some(CHILD), Some(1), None))
    requires ChildrenOf(s, 1) == [2] && 2 in s.futures && s.futures[2] == NEW_FUTURE
    requires 4 in s.live && 4 in s.waiting && s.waiting[4] == 1
    ensures ChildDone(FinishJob(s, 2))
  {
  }

  lemma ChildRuns(s: State)
    requires BothWait(s)
    ensures ChildDone(StartFirst(s))
  {
    hide RunUser, StartFirst, Start, FinishJob, ChildDone;
    ChildStarts(s);
    var t := Start(s.(pending := s.pending[1..]), 2, CHILD);
    FinishAct(t, 2, CODE[4..]);
    ChildFinishes(t.(script := CODE[4..]));
  }

  lemma ProducerResumes(s: State)
    requires ChildDone(s)
    ensures var u := s.(live := s.live - {4});
      var t := Resume(u.(waiting := u.waiting - {4}), 1, Payload(4));
      && DispatchOne(u, Done(4)) == RunUser(t) && AboutTo(t, 1, LeaveScope, CODE[5..])
      && Stage(t.(current := None), 4, 5, 3, 3) && t.pending == [] && t.ready == [] && t.idle == [2]
      && Has(t, 1, Fiber(Running, Some(HANDLER2), Some(2), None)) && Has(t, 2, s.fibers[2]) && t.children == s.children
  {
    hide RunUser;
  }

  lemma ProducerSpawns(s: State)
    requires Stage(s.(current := None), 6, 5, 3, 3) && s.current == Some(1) && s.pending == [] && s.ready == [] && s.idle == [2]
    requires Has(s, 1, Fiber(Running, Some(HANDLER2), None, None)) && Has(s, 2, Fiber(Idle, None, Some(1), Some(1)))
    requires ChildrenOf(s, 1) == []
    ensures var t := Spawn(s, None, None);
      AboutTo(t, 1, Sleep, CODE[7..]) && Produced(ParkOn(t.(script := CODE[7..]), 1))
  {
  }

  lemma ProducerRuns(s: State)
    requires ChildDone(s)
    ensures Produced(DispatchOne(s.(live := s.live - {4}), Done(4)))
  {
    hide RunUser, DispatchOne, Resume, Spawn, ParkOn, Produced;
    ProducerResumes(s);
    var u := s.(live := s.live - {4});
    var t := Resume(u.(waiting := u.waiting - {4}), 1, Payload(4));
    LeaveAct(t, 1, CODE[5..]);
    var c := ClearScope(t.(script := CODE[5..]), 1);
    AsyncAct(c, 1, CODE[6..]);
    ProducerSpawns(c.(script := CODE[6..]));
    SleepAct(Spawn(c.(script := CODE[6..]), None, None), 1, CODE[7..]);
  }

  lemma StartEach(s: State)
    requires s.pending != [] && AtLoop(s) && s.script != []
    ensures StartPending(s) == StartPending(StartFirst(s))
  {
    hide StartFirst;
    StartFirstProgress(s);
  }

  lemma Turn2(s: State)
    requires s == Accepted()
    ensures Produced(Turn(s, FEED[1]))
  {
    hide StartFirst, DispatchOne, Produced, Accepted;
    AcceptedFacts();
    FirstRuns(s);
    StartEach(s);
    SecondRuns(StartFirst(s));
    StartEach(StartFirst(s));
    ChildRuns(StartFirst(StartFirst(s)));
    StartEach(StartFirst(StartFirst(s)));
    var t := StartFirst(StartFirst(StartFirst(s)));
    ProducerRuns(t);
    PolledDone(t);
    DispatchSingle(t.(live := t.live - {4}), Done(4));
  }

  lemma AcceptedFacts()
    ensures Accepted().pending != [] && AtLoop(Accepted()) && Accepted().script != []
  {
  }

  lemma PolledDone(s: State)
    requires ChildDone(s)
    ensures Poll(s, [], FEED[1]) == (s.(live := s.live - {4}), [Done(4)])
  {
    hide Poll;
    PollSingle(s, [], FEED[1]);
    assert [] + [Done(4)] == [Done(4)];
  }

  // ---------------------------------------------------------------- turns 3 and 4: filed under the wrong request

  lemma ProducedStarts(s: State)
    requires Produced(s)
    ensures var t := Resume(s.(ready := s.ready[1..]), 2, GiveJob(PRODUCED));
      && ResumeFirst(s) == RunUser(t) && AboutTo(t, 2, Async, CODE[8..])
      && Stage(t.(current := None), 7, 6, 3, 4) && t.pending == [] && t.ready == [] && t.idle == []
      && Has(t, 2, Fiber(Running, Some(PRODUCED), Some(1), Some(1))) && t.children == s.children
  {
    hide RunUser;
  }

  lemma ProducedSpawns(s: State)
    requires Stage(s.(current := None), 8, 6, 3, 4) && s.current == Some(2) && s.pending == [] && s.ready == [] && s.idle == []
    requires Has(s, 2, Fiber(Running, Some(PRODUCED), Some(1), Some(1))) && ChildrenOf(s, 1) == []
    ensures var t := Spawn(s, Some(1), None);
      AboutTo(t, 2, Sleep, CODE[9..]) && Misfiled(ParkOn(t.(script := CODE[9..]), 2))
  {
  }

  lemma Turn3(s: State)
    requires Produced(s)
    ensures Misfiled(Turn(s, FEED[2]))
  {
    hide RunUser, ResumeFirst, Resume, Spawn, ParkOn;
    ProducedStarts(s);
    var t := Resume(s.(ready := s.ready[1..]), 2, GiveJob(PRODUCED));
    AsyncAct(t, 2, CODE[8..]);
    ProducedSpawns(t.(script := CODE[8..]));
    SleepAct(Spawn(t.(script := CODE[8..]), Some(1), None), 2, CODE[9..]);
    ResumeEach(s);
    assert ResumeReady(ResumeFirst(s)) == ResumeFirst(s);
    assert StartPending(s) == s;
  }

  lemma ResumeEach(s: State)
    requires s.ready != [] && AtLoop(s) && s.script != []
    ensures ResumeReady(s) == ResumeReady(ResumeFirst(s))
  {
    hide ResumeFirst;
    ResumeFirstProgress(s);
  }

  lemma VictimRuns(s: State)
    requires Misfiled(s)
    ensures VictimWaits(StartFirst(s))
  {
    hide StartFirst;
    StartThenSleep(s, 3, VICTIM, Some(1), None, CODE[10..]);
  }

  lemma {:induction false} WalkKeepsLog(s: State, fs: seq<nat>, r: nat, d: Delivery)
    requires Inv(s) && NoDup(fs) && (forall f :: f in fs ==> Reachable(s, f, r)) && d in s.log
    ensures d in ThrowAll(s, fs, r).log
    decreases |fs|
  {
    hide Inv, ThrowInto, Undisturbed, Reachable;
    if !AtLoop(s) {
      CutIsFinal(s, fs, r);
    } else if fs != [] {
      var f, rest := fs[0], fs[1..];
      ThrowIntoEffect(s, f, r);
      var t := ThrowInto(s, f, r);
      assert forall g :: g in rest ==> g in fs && g != f;
      assert NoDup(rest);
      forall g | g in rest ensures Reachable(t, g, r) {
        ReachableFacts(s, g, r);
        StillReachable(s, t, g, r);
      }
      WalkKeepsLog(t, rest, r, d);
    }
  }

  /** The first of the walk's victims, if it is parked, has been thrown into when the walk is over. */
  lemma FirstIsHit(s: State, fs: seq<nat>, r: nat)
    requires Inv(s) && AtLoop(s) && NoDup(fs) && (forall f :: f in fs ==> Reachable(s, f, r)) && fs != [] && SitsInPark(s, fs[0])
    ensures Thrown(fs[0], s.fibers[fs[0]].at, s.fibers[fs[0]].job, r) in ThrowAll(s, fs, r).log
  {
    hide Inv, ThrowInto, Undisturbed, Reachable;
    var f, rest := fs[0], fs[1..];
    ThrowIntoEffect(s, f, r);
    var t := ThrowInto(s, f, r);
    assert [f][1..] == [];
    assert forall g :: g in rest ==> g in fs && g != f;
    assert NoDup(rest);
    forall g | g in rest ensures Reachable(t, g, r) {
      ReachableFacts(s, g, r);
      StillReachable(s, t, g, r);
    }
    WalkKeepsLog(t, rest, r, Thrown(f, s.fibers[f].at, s.fibers[f].job, r));
  }

  const HIT := Thrown(3, OnOp(7), Some(VICTIM), 1)

  lemma VictimIsThrown(s: State, requests: set<nat>)
    requires Inv(s) && VictimWaits(s.(requests := requests))
    ensures HIT in CancelRequest(s, 1).log
  {
    hide Inv, ThrowInto, ThrowAll, Undisturbed, Reachable;
    var gate := Admission.Cancel(s.gate, 1);
    var t := s.(gate := gate);
    GateIsSeparate(s, gate);
    CancelIsThrowAll(s, 1);
    VictimsAreReachable(s, 1);
    forall g | g in Victims(s, 1) ensures Reachable(t, g, 1) {
      GateAside(s, gate, g, 1);
    }
    assert Victims(s, 1)[0] == 3;
    FirstIsHit(t, Victims(s, 1), 1);
  }

  lemma Turn4(s: State)
    requires Inv(s) && Misfiled(s)
    ensures HIT in Turn(s, FEED[3]).log
  {
    hide Inv, StartFirst, CancelRequest, VictimWaits;
    VictimRuns(s);
    StartEach(s);
    StartPendingKeeps(s);
    var t := StartFirst(s);
    Settled(t);
    var u := t.(requests := t.requests - {1});
    ArrivedKeeps(t, t.requests - {1});
    VictimIsThrown(u, t.requests);
    DispatchSingle(u, Gone(1));
  }

  lemma Settled(s: State)
    requires VictimWaits(s)
    ensures StartPending(s) == s && ResumeReady(s) == s && s.pending == [] && !Cut(s)
    ensures Poll(s, [], FEED[3]) == (s.(requests := s.requests - {1}), [Gone(1)])
  {
    PollSingle(s, [], FEED[3]);
    hide Poll;
  }

  /**
   Isolation does fail: in this run a cancellation of request 1 is thrown into a job that works for
   request 2.
   */
  lemma CancelledForAnother()
    ensures var s := Reached(0, 0, CODE, 0, FEED);
      exists d :: d in s.log && d.Thrown? && d.req == 1 && d.owner.Some? && d.owner.value.origin == Some(2)
  {
    hide Inv, GateOk, Turn;
    var s0 := Boot(0, 0, CODE);
    Turn1();
    var s1 := Turn(s0, FEED[0]);
    Turn2(s1);
    var s2 := Turn(s1, FEED[1]);
    Turn3(s2);
    var s3 := Turn(s2, FEED[2]);
    FeedTurns(s0);
    ReachedIsSafe(0, 0, CODE, 0, FEED[..3]);
    assert Launch(0, 0, CODE, 0) == s0;
    Turn4(s3);
    assert HIT in Reached(0, 0, CODE, 0, FEED).log;
  }

  lemma FeedTurns(s: State)
    ensures Turns(s, FEED[..3]) == Turn(Turn(Turn(s, FEED[0]), FEED[1]), FEED[2])
    ensures Turns(s, FEED) == Turn(Turns(s, FEED[..3]), FEED[3])
  {
    hide Turn;
    TurnsSnoc(s, [], FEED[0]);
    TurnsSnoc(s, [FEED[0]], FEED[1]);
    TurnsSnoc(s, [FEED[0], FEED[1]], FEED[2]);
    TurnsSnoc(s, FEED[..3], FEED[3]);
    assert [] + [FEED[0]] == [FEED[0]] && [FEED[0]] + [FEED[1]] == [FEED[0], FEED[1]];
    assert [FEED[0], FEED[1]] + [FEED[2]] == FEED[..3] && FEED[..3] + [FEED[3]] == FEED;
  }

  lemma {:induction false} TurnsSnoc(s: State, feed: seq<seq<Completion>>, cs: seq<Completion>)
    ensures Turns(s, feed + [cs]) == Turn(Turns(s, feed), cs)
    decreases |feed|
  {
    hide Turn;
    if feed == [] {
      assert ([] + [cs])[1..] == [];
    } else {
      assert (feed + [cs])[1..] == feed[1..] + [cs];
      TurnsSnoc(Turn(s, feed[0]), feed[1..], cs);
    }
  }
}
