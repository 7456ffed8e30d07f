/**
 What those who wait may count on, over every run: who awaits a job's result, who queues for a slot, who has
 armed a deadline, and who cancels a request.
 */
module Promises {
  import opened Prelude
  import opened Scheduler
  import opened SchedulerSafety
  import opened SchedulerRuns
  import opened GracefulStop
  import opened Backing
  import opened Chronicle
  import opened SchedulerSteps
  import opened Intake
  import opened SchedulerTheorems
  import Admission

  /** The result of a job is outstanding exactly as long as a fiber has the job, and only one fiber ever has it. */
  lemma UnsettledExactly(budget: int, depth: int, script: seq<Act>, jobs: nat, feed: seq<seq<Completion>>, u: nat)
    ensures var s := Reached(budget, depth, script, jobs, feed);
      && (Unsettled(s.futures, u) <==> exists f :: f in s.fibers && HasFuture(s.fibers[f], u))
      && (forall f, g :: f in s.fibers && g in s.fibers && HasFuture(s.fibers[f], u) && HasFuture(s.fibers[g], u) ==> f == g)
  {
    hide Reached, GateOk, Slots, Timed, Booked, Inv;
    var s := Reached(budget, depth, script, jobs, feed);
    ReachedIsSafe(budget, depth, script, jobs, feed);
    ReachedIsBacked(budget, depth, script, jobs, feed);
    JobsHaveFutures(s);
  }

  lemma JobsHaveFutures(s: State)
    requires Inv(s)
    ensures JobInv(s.fibers, s.futures, s.current)
  {
  }

  /** The end of a job settles its result: each fiber that awaited it is owed a wake-up, and nobody has the job any more. */
  lemma FinishSettles(s: State, f: nat)
    requires Runs(s, f) && s.fibers[f].job.Some?
    ensures var t, u := FinishJob(s, f), s.fibers[f].job.value.future;
      && u in t.futures && t.futures[u].done && Inv(t)
      && forall g :: g in s.fibers && s.fibers[g].at == OnFuture(u) ==> Wake(g, Nothing) in t.ready
  {
    hide Inv, FinishJob;
    var t, u := FinishJob(s, f), s.fibers[f].job.value.future;
    FinishKeeps(s, f);
    RunsFacts(s, f);
    forall g | g in s.fibers && s.fibers[g].at == OnFuture(u) ensures Wake(g, Nothing) in t.ready {
      FinishLocal(s, f, g);
      OwedWake(t, g);
    }
  }

  lemma OwedWake(s: State, g: nat)
    requires Inv(s) && g in s.fibers && s.fibers[g].at.OnFuture?
    requires s.fibers[g].at.fut in s.futures && s.futures[s.fibers[g].at.fut].done
    ensures Wake(g, Nothing) in s.ready
  {
  }

  /** Settling a user's future does the same for those who await it, once. */
  lemma SettleWakes(s: State, f: nat, u: nat)
    requires Runs(s, f) && s.fibers[f].job.Some? && u in s.futures && !s.futures[u].pooled
    ensures var t := Perform(s, f, Settle(u));
      && u in t.futures && t.futures[u].done && t.fibers == s.fibers
      && (if s.futures[u].done then t == s else t.ready == s.ready + Nulls(s.futures[u].waiters))
      && forall g :: g in s.fibers && s.fibers[g].at == OnFuture(u) ==> Wake(g, Nothing) in t.ready
  {
    hide Inv, Perform;
    var t := Perform(s, f, Settle(u));
    PerformKeeps(s, f, Settle(u));
    SettledNow(s, f, u);
    forall g | g in s.fibers && s.fibers[g].at == OnFuture(u) ensures Wake(g, Nothing) in t.ready {
      OwedWake(t, g);
    }
  }

  lemma SettledNow(s: State, f: nat, u: nat)
    requires f in s.fibers && s.fibers[f].job.Some? && u in s.futures && !s.futures[u].pooled
    ensures var t := Perform(s, f, Settle(u)); u in t.futures && t.futures[u].done && t.fibers == s.fibers
    ensures Perform(s, f, Settle(u)) == s || (!s.futures[u].done && Perform(s, f, Settle(u)).ready == s.ready + Nulls(s.futures[u].waiters))
  {
  }

  /** A request holds an admission slot exactly if a fiber handles it, and then exactly one does. */
  lemma SlotsExactly(budget: int, depth: int, script: seq<Act>, jobs: nat, feed: seq<seq<Completion>>, r: nat)
    ensures var s := Reached(budget, depth, script, jobs, feed);
      && (Holds(s.gate, r) <==> exists f :: f in s.fibers && HandlerOf(s.fibers[f], r))
      && (forall f, g :: f in s.fibers && g in s.fibers && HandlerOf(s.fibers[f], r) && HandlerOf(s.fibers[g], r) ==> f == g)
  {
    hide Reached, Inv, Held, Timed, Booked, Holds, HandlerOf;
    var s := Reached(budget, depth, script, jobs, feed);
    ReachedIsSafe(budget, depth, script, jobs, feed);
    ReachedIsBacked(budget, depth, script, jobs, feed);
    if Holds(s.gate, r) {
      SlotServed(s, r);
    }
    GateHandled(s);
  }

  lemma SlotServed(s: State, r: nat)
    requires Slots(s.fibers, s.gate, [], None) && Holds(s.gate, r)
    ensures Served(s.fibers, r, None)
  {
  }

  lemma GateHandled(s: State)
    requires GateOk(s, {})
    ensures Handled(s.fibers, s.gate, None)
  {
  }

  /**
   Whom a cancellation is offered to: of the fibers parked anywhere, a request that still has its slot reaches
   exactly those whose job is booked under it, its handler and every child.
   */
  lemma CancellationReachesExactly(budget: int, depth: int, script: seq<Act>, jobs: nat, feed: seq<seq<Completion>>, f: nat, r: nat)
    requires SitsInPark(Reached(budget, depth, script, jobs, feed), f) && Holds(Reached(budget, depth, script, jobs, feed).gate, r)
    ensures var s := Reached(budget, depth, script, jobs, feed);
      f in Victims(s, r) <==> Belongs(s.fibers[f].job, r)
  {
    hide Reached, Inv, Held, Slots, Timed, Victims, Holds, HandlerOf, Belongs;
    var s := Reached(budget, depth, script, jobs, feed);
    ReachedIsSafe(budget, depth, script, jobs, feed);
    ReachedIsBacked(budget, depth, script, jobs, feed);
    GateHandled(s);
    NotEnded(s, r);
    if f in Victims(s, r) {
      VictimsAreBooked(s, f, r);
    }
    if Belongs(s.fibers[f].job, r) {
      BookedIsVictim(s, f, r);
    }
  }

  lemma NotEnded(s: State, r: nat)
    requires GateOk(s, {}) && Holds(s.gate, r)
    ensures CalledOff(r) !in s.timers
  {
  }

  lemma VictimsAreBooked(s: State, f: nat, r: nat)
    requires Inv(s) && SitsInPark(s, f) && f in Victims(s, r)
    ensures Belongs(s.fibers[f].job, r)
  {
    hide Inv, Victims;
    VictimsAreReachable(s, r);
    ReachableFacts(s, f, r);
  }

  lemma BookedIsVictim(s: State, f: nat, r: nat)
    requires Inv(s) && Booked(s.fibers, s.children, s.requestFibers, s.timers) && Handled(s.fibers, s.gate, None)
    requires SitsInPark(s, f) && Belongs(s.fibers[f].job, r) && CalledOff(r) !in s.timers
    ensures f in Victims(s, r)
  {
    hide Inv, Reverse;
    ChildrenFacts(s, r);
    ReverseFacts(ChildrenOf(s, r));
    if ChildOf(s.fibers[f], r) {
      assert Lists(s.children, r, f);
      assert f in Reverse(ChildrenOf(s, r));
    } else {
      assert HandlerOf(s.fibers[f], r) && Entered(s.fibers[f]);
      RequestFiberFacts(s, r);
    }
  }

  lemma RequestFiberFacts(s: State, r: nat)
    requires Inv(s) && r in s.requestFibers
    ensures s.requestFibers[r] in s.fibers && HandlerOf(s.fibers[s.requestFibers[r]], r)
  {
  }

  // ---------------------------------------------------------------- deadlines

  /** The k-th entry armed this op for r, and since then r's deadline was neither replaced nor called off nor fired. */
  ghost predicate ArmedLast(timers: seq<Timer>, k: nat, op: nat, r: nat)
  {
    && k < |timers| && timers[k] == Armed(op, r)
    && forall j :: k < j < |timers| ==> timers[j] != CalledOff(r) && timers[j] != Fired(op) && !(timers[j].Armed? && timers[j].req == r)
  }

  lemma {:induction false} StandsExactly(timers: seq<Timer>, op: nat, r: nat)
    ensures r in Standing(timers) && Standing(timers)[r] == op <==> exists k :: ArmedLast(timers, k, op, r)
  {
    if timers != [] {
      var front, m := timers[..|timers| - 1], timers[|timers| - 1];
      assert timers == front + [m];
      StandsExactly(front, op, r);
      StandingSnoc(front, m);
      forall k: nat | ArmedLast(timers, k, op, r) ensures m == Armed(op, r) || ArmedLast(front, k, op, r) {
        assert k < |front| ==> front[k] == timers[k];
        assert forall j :: k < j < |front| ==> front[j] == timers[j];
      }
      if m == Armed(op, r) {
        assert ArmedLast(timers, |front|, op, r);
      } else if k: nat :| ArmedLast(front, k, op, r) {
        assert timers[k] == front[k];
        assert forall j :: k < j < |timers| ==> timers[j] == if j == |front| then m else front[j];
        assert ArmedLast(timers, k, op, r) <==> m != CalledOff(r) && m != Fired(op) && !(m.Armed? && m.req == r);
      }
    }
  }

  /**
   Which deadlines stand, in every run: an op is a deadline of r exactly if r's last `deadline` call armed it and
   since then r has not ended and the op has not fired.  No op is ever armed for two requests.
   */
  lemma DeadlinesExactly(budget: int, depth: int, script: seq<Act>, jobs: nat, feed: seq<seq<Completion>>, op: nat, r: nat)
    ensures var s := Reached(budget, depth, script, jobs, feed);
      && (op in s.deadlines && s.deadlines[op] == r <==> exists k :: ArmedLast(s.timers, k, op, r))
      && (op in s.deadlines && Armed(op, r) in s.timers ==> s.deadlines[op] == r)
  {
    hide Reached, GateOk, Inv, Held, Slots, Booked, Standing, ArmedLast;
    var s := Reached(budget, depth, script, jobs, feed);
    ReachedIsSafe(budget, depth, script, jobs, feed);
    ReachedIsBacked(budget, depth, script, jobs, feed);
    StandsExactly(s.timers, op, r);
    DeadlineTables(s);
    if op in s.deadlines {
      StandsExactly(s.timers, op, s.deadlines[op]);
      ArmedAlone(s.timers, s.nextId, op, s.deadlines[op], r);
    }
  }

  lemma DeadlineTables(s: State)
    requires Inv(s)
    ensures DeadlineInv(s.deadlines, s.deadlineOf)
  {
  }

  lemma ArmedAlone(timers: seq<Timer>, nextId: nat, op: nat, q: nat, r: nat)
    requires OwnOps(timers, nextId) && exists k :: ArmedLast(timers, k, op, q)
    ensures Armed(op, r) in timers ==> q == r
  {
    var k: nat :| ArmedLast(timers, k, op, q);
    if Armed(op, r) in timers {
      var j :| 0 <= j < |timers| && timers[j] == Armed(op, r);
    }
  }

  /** The op is r's deadline and nothing else, no other deadline has changed, and r's former one has been called off. */
  ghost predicate ArmedAfresh(s: State, t: State, op: nat, r: nat)
  {
    && op >= s.nextId && op in t.live && op !in t.waiting && op !in t.parked
    && t.timers == s.timers + [Armed(op, r)] && t.fibers == s.fibers
    && t.deadlineOf == s.deadlineOf[r := op]
    && (forall p :: p in t.deadlines <==> p == op || (p in s.deadlines && s.deadlines[p] != r))
    && (forall p :: p in t.deadlines ==> t.deadlines[p] == if p == op then r else s.deadlines[p])
    && t.live == (if r in s.deadlineOf then s.live + {s.nextId, op} else s.live + {op})
    && (r in s.deadlineOf ==> s.nextId < op)
  }

  /**
   `deadline` in a request's code arms one op that nothing else uses, in place of the request's former one, and
   disturbs no other request's deadline; outside any request it does nothing.
   */
  lemma DeadlineArms(s: State, f: nat)
    requires Runs(s, f) && s.fibers[f].job.Some?
    ensures var t, scope := Perform(s, f, Deadline), s.fibers[f].scope;
      if scope.None? then t == s else exists op :: ArmedAfresh(s, t, op, scope.value)
  {
    hide Inv, ArmedAfresh;
    if s.fibers[f].scope.Some? {
      var r := s.fibers[f].scope.value;
      ArmsAfresh(s, r);
      assert ArmedAfresh(s, Perform(s, f, Deadline), Disarm(s, r).nextId, r);
    }
  }

  lemma ArmsAfresh(s: State, r: nat)
    requires Inv(s)
    ensures ArmedAfresh(s, Arm(s, r), Disarm(s, r).nextId, r)
  {
    hide Inv, Arm, Disarm;
    DeadlineTables(s);
    OpsAreOld(s);
    DisarmIs(s, r);
    ArmIs(s, r);
  }

  lemma ArmIs(s: State, r: nat)
    ensures var d := Disarm(s, r);
      Arm(s, r) == d.(deadlines := d.deadlines[d.nextId := r], deadlineOf := d.deadlineOf[r := d.nextId], live := d.live + {d.nextId},
                      nextId := d.nextId + 1, timers := d.timers + [Armed(d.nextId, r)])
  {
  }

  lemma DisarmIs(s: State, r: nat)
    ensures var d := Disarm(s, r);
      && d.waiting == s.waiting && d.parked == s.parked && d.timers == s.timers && d.fibers == s.fibers
      && d.deadlines == (if r in s.deadlineOf then s.deadlines - {s.deadlineOf[r]} else s.deadlines)
      && d.deadlineOf == (if r in s.deadlineOf then s.deadlineOf - {r} else s.deadlineOf)
      && d.live == (if r in s.deadlineOf then s.live + {s.nextId} else s.live)
      && d.nextId == (if r in s.deadlineOf then s.nextId + 1 else s.nextId)
  {
  }

  lemma OpsAreOld(s: State)
    requires Inv(s)
    ensures forall op :: op in s.waiting || op in s.parked || op in s.deadlines || op in s.live ==> op < s.nextId
  {
  }

  /**
   A deadline fires, in every run: the completion of its op throws, once, into each parked fiber booked under the
   request that armed it, children in reverse spawn order before the handler, and into nobody else; and whatever
   happens then, that op is no deadline again.
   */
  lemma DeadlineFires(budget: int, depth: int, script: seq<Act>, jobs: nat, feed: seq<seq<Completion>>, op: nat, rest: seq<seq<Completion>>)
    requires var s := Reached(budget, depth, script, jobs, feed);
      AtLoop(s) && op in s.deadlines && AtLoop(DispatchOne(s, Done(op)))
    ensures var s := Reached(budget, depth, script, jobs, feed);
      var t, r := DispatchOne(s, Done(op)), s.deadlines[op];
      && Armed(op, r) in s.timers && t.log == s.log + Throws(s, Victims(s, r), r)
      && op !in t.deadlines && op !in Turns(t, rest).deadlines
  {
    hide Reached, GateOk, Inv, Held, Slots, Timed, Booked, Throws, Victims, DispatchOne, Turns;
    var s := Reached(budget, depth, script, jobs, feed);
    ReachedIsSafe(budget, depth, script, jobs, feed);
    DeadlinesExactly(budget, depth, script, jobs, feed, op, s.deadlines[op]);
    ArmedIsThere(s.timers, op, s.deadlines[op]);
    ExpiryThrows(s, op);
    DispatchOneKeeps(s, Done(op));
    TurnsTold(DispatchOne(s, Done(op)), rest, Spent(op));
  }

  lemma ArmedIsThere(timers: seq<Timer>, op: nat, r: nat)
    requires exists k :: ArmedLast(timers, k, op, r)
    ensures Armed(op, r) in timers
  {
  }

  lemma ExpiryThrows(s: State, op: nat)
    requires Inv(s) && AtLoop(s) && op in s.deadlines
    ensures var t, r := DispatchOne(s, Done(op)), s.deadlines[op];
      Told(t, Spent(op)) && (AtLoop(t) ==> t.log == s.log + Throws(s, Victims(s, r), r))
  {
    hide Inv, CancelRequest, Throws;
    var r := s.deadlines[op];
    OldDeadline(s, op);
    ExpireKeeps(s, op);
    CancellationIsExact(Expire(s, op), r);
    CancelTold(Expire(s, op), r, Spent(op));
    assert Victims(Expire(s, op), r) == Victims(s, r);
    forall g | g in Victims(s, r) ensures Undisturbed(s, Expire(s, op), g) {
      VictimsAreReachable(s, r);
      ReachableFacts(s, g, r);
      SameFiber(s, Expire(s, op), g);
    }
    ThrowsSame(s, Expire(s, op), Victims(s, r), r);
  }

  lemma OldDeadline(s: State, op: nat)
    requires Inv(s) && op in s.deadlines
    ensures op < s.nextId
  {
  }

  // ---------------------------------------------------------------- the end of a request, and of a child

  /** A finished handler's request is forgotten: no deadline, no children, no fiber, and its slot is free or another's. */
  lemma HandlerForgets(s: State, f: nat, r: nat)
    requires Runs(s, f) && s.fibers[f].job.Some? && s.fibers[f].job.value.handles == Some(r)
    ensures var t := FinishJob(s, f);
      && r !in t.deadlineOf && r !in t.children && r !in t.requestFibers && (forall op :: op in t.deadlines ==> t.deadlines[op] != r)
      && t.deadlineOf == s.deadlineOf - {r} && t.children == s.children - {r} && t.requestFibers == s.requestFibers - {r}
  {
    hide Inv, SettleFuture, Retire, ReleaseRequest;
    var job := s.fibers[f].job.value;
    InvOneRole(s, f);
    FinishKeeps(s, f);
    DeadlineTables(FinishJob(s, f));
    ReleaseKeeps(s, f, r);
    var t := ReleaseRequest(s, f, r);
    ReleasedTables(s, f, r);
    SettleTables(t, job.future);
    RetireTables(SettleFuture(t, job.future), f);
  }

  ghost predicate SameTables(s: State, t: State)
  {
    t.deadlineOf == s.deadlineOf && t.children == s.children && t.requestFibers == s.requestFibers
  }

  lemma SettleTables(s: State, u: nat)
    ensures SameTables(s, SettleFuture(s, u)) && SettleFuture(s, u).fibers == s.fibers
  {
  }

  lemma RetireTables(s: State, f: nat)
    requires f in s.fibers
    ensures SameTables(s, Retire(s, f, None))
  {
  }

  lemma ReleasedTables(s: State, f: nat, r: nat)
    requires f in s.fibers
    ensures var t := ReleaseRequest(s, f, r);
      t.deadlineOf == s.deadlineOf - {r} && t.children == s.children - {r} && t.requestFibers == s.requestFibers - {r}
  {
    var (gate, admitted) := Admission.Release(s.gate, r);
    var t := Forget(s, f, r).(gate := gate);
    assert t.deadlineOf == s.deadlineOf - {r} && t.children == s.children - {r} && t.requestFibers == s.requestFibers - {r};
    hide Forget;
    HandlersTables(t, admitted);
  }

  lemma {:induction false} HandlersTables(s: State, ids: seq<nat>)
    ensures SameTables(s, SpawnHandlers(s, ids))
    decreases |ids|
  {
    hide Spawn;
    if ids != [] {
      SpawnTables(s, Some(ids[0]));
      HandlersTables(Spawn(s, None, Some(ids[0])), ids[1..]);
    }
  }

  lemma SpawnTables(s: State, handles: Option<nat>)
    ensures SameTables(s, Spawn(s, None, handles))
  {
    hide OriginOf;
  }

  /** A child that ends leaves its request's list, and the others on it stay in their order. */
  lemma ChildLeaves(s: State, f: nat, r: nat)
    requires Runs(s, f) && s.fibers[f].job.Some? && s.fibers[f].job.value.req == Some(r) && f in ChildrenOf(s, r)
    ensures exists front, back ::
      && ChildrenOf(s, r) == front + [f] + back && f !in front && f !in back
      && FinishJob(s, f).children == s.children[r := front + back]
  {
    hide Inv, Retire, SettleFuture;
    var job := s.fibers[f].job.value;
    InvOneRole(s, f);
    ChildrenFacts(s, r);
    var front, back := WithoutSplits(ChildrenOf(s, r), f);
    SettleTables(s, job.future);
    RetireChild(SettleFuture(s, job.future), f, r);
    assert ChildrenOf(s, r) == front + [f] + back;
  }

  lemma RetireChild(s: State, f: nat, r: nat)
    requires f in s.fibers && r in s.children
    ensures Retire(s, f, Some(r)).children == s.children[r := Without(s.children[r], f)]
  {
  }

  lemma {:induction false} WithoutSplits(fs: seq<nat>, f: nat) returns (front: seq<nat>, back: seq<nat>)
    requires f in fs && NoDup(fs)
    ensures fs == front + [f] + back && f !in front && f !in back && Without(fs, f) == front + back
  {
    if fs[0] == f {
      front, back := [], fs[1..];
      assert f !in back;
    } else {
      assert NoDup(fs[1..]);
      front, back := WithoutSplits(fs[1..], f);
      front := [fs[0]] + front;
    }
  }

  // ---------------------------------------------------------------- a client that leaves the queue

  /**
   A request whose client leaves while it waits for a slot is never handled: not in the rest of that batch, nor in
   any turn after it.
   */
  lemma LeavesTheQueue(s: State, r: nat, events: seq<Completion>, rest: seq<seq<Completion>>)
    requires Inv(s) && AtLoop(s) && r in s.gate.queue
    requires events != [] && events[0] == Gone(r) && Orderly(events) && GateOk(s, Coming(events))
    ensures var t := Turns(Dispatch(s, events), rest);
      !Holds(t.gate, r) && (forall f :: f in t.fibers ==> !HandlerOf(t.fibers[f], r)) && (r in t.gate.queue ==> r in t.gate.queueCancelled)
  {
    hide Inv, GateOk, DispatchOne, Turns, Holds, HandlerOf, Coming, Orderly;
    var t := Turns(Dispatch(s, events), rest);
    DispatchKeeps(s, events);
    DispatchGate(s, events);
    TurnsGate(Dispatch(s, events), rest);
    DispatchOneKeeps(s, events[0]);
    GoneIsNoted(s, r);
    assert Unheard(events[1..], Left(r));
    DispatchTold(DispatchOne(s, events[0]), events[1..], Left(r));
    TurnsTold(Dispatch(s, events), rest, Left(r));
    LeftIsUnhandled(t, r);
  }

  lemma GoneIsNoted(s: State, r: nat)
    requires Inv(s) && AtLoop(s) && r in s.gate.queue
    ensures Told(DispatchOne(s, Gone(r)), Left(r))
  {
    hide Inv, Victims, Undisturbed, Reachable, ThrowAll;
    var t := s.(gate := Admission.Cancel(s.gate, r));
    GateIsSeparate(s, t.gate);
    CancelIsThrowAll(s, r);
    VictimsAreReachable(s, r);
    forall g | g in Victims(s, r) ensures Reachable(t, g, r) {
      ReachableFacts(s, g, r);
      SameFiber(s, t, g);
      StillReachable(s, t, g, r);
    }
    ThrowAllTold(t, Victims(s, r), r, Left(r));
  }

  lemma LeftIsUnhandled(s: State, r: nat)
    requires GateOk(s, {}) && r in s.gate.gaveUp
    ensures !Holds(s.gate, r) && (forall f :: f in s.fibers ==> !HandlerOf(s.fibers[f], r)) && (r in s.gate.queue ==> r in s.gate.queueCancelled)
  {
    hide Admission.Inv;
    Admission.GivenUpHoldsNothing(s.gate, r);
  }

  // ---------------------------------------------------------------- who sleeps

  /**
   Who sleeps on an op in userland, in every run whose turns are completed: its completion is still to come, or it
   was an error, and never both.
   */
  lemma SleepersExactly(budget: int, depth: int, script: seq<Act>, jobs: nat, feed: seq<seq<Completion>>, op: nat)
    requires AtLoop(Reached(budget, depth, script, jobs, feed)) && op in Reached(budget, depth, script, jobs, feed).waiting
    ensures var s := Reached(budget, depth, script, jobs, feed); op in s.live <==> op !in s.lost
  {
    hide Inv, GateOk, Turns, Launch;
    var s := Launch(budget, depth, script, jobs);
    LaunchIsSafe(budget, depth, script, jobs);
    LaunchSleeps(budget, depth, script, jobs);
    TurnsHear(s, feed, op);
  }

  lemma {:induction false} LaunchSleeps(budget: int, depth: int, script: seq<Act>, jobs: nat)
    ensures var s := Launch(budget, depth, script, jobs); s.waiting == map[] && s.lost == {}
  {
    hide Spawn;
    if jobs > 0 {
      LaunchSleeps(budget, depth, script, jobs - 1);
      SpawnLog(Launch(budget, depth, script, jobs - 1), None, None);
    }
  }

  lemma {:induction false} TurnsHear(s: State, feed: seq<seq<Completion>>, op: nat)
    requires Inv(s) && Told(s, Hears(op, false))
    ensures AtLoop(Turns(s, feed)) ==> Told(Turns(s, feed), Hears(op, false))
    decreases |feed|
  {
    hide Inv, Told, Turn;
    if feed != [] {
      TurnKeeps(s, feed[0]);
      TurnHears(s, feed[0], op);
      if AtLoop(Turn(s, feed[0])) {
        TurnsHear(Turn(s, feed[0]), feed[1..], op);
      } else {
        CutTurns(Turn(s, feed[0]), feed[1..]);
      }
    }
  }

  lemma TurnHears(s: State, cs: seq<Completion>, op: nat)
    requires Inv(s) && Told(s, Hears(op, false))
    ensures AtLoop(Turn(s, cs)) ==> Told(Turn(s, cs), Hears(op, false))
  {
    hide Inv, Told, StartPending, ResumeReady, Poll, Dispatch;
    StartPendingKeeps(s);
    StartPendingTold(s, Hears(op, false));
    ResumeReadyKeeps(StartPending(s));
    ResumeReadyTold(StartPending(s), Hears(op, false));
    var t := ResumeReady(StartPending(s));
    PollKeeps(t, [], cs);
    PollHears(t, [], cs, op);
    DispatchHears(Poll(t, [], cs).0, Poll(t, [], cs).1, op);
  }

  lemma {:induction false} PollHears(s: State, events: seq<Completion>, cs: seq<Completion>, op: nat)
    requires Inv(s) && Told(s, Hears(op, Done(op) in events))
    ensures var (t, more) := Poll(s, events, cs); Told(t, Hears(op, Done(op) in more))
    decreases |cs|
  {
    hide Inv, Told, PollOne;
    if cs != [] {
      PollOneKeeps(s, events, cs[0]);
      PollOneHears(s, events, cs[0], op);
      var (t, more) := PollOne(s, events, cs[0]);
      PollHears(t, more, cs[1..], op);
    }
  }

  lemma PollOneHears(s: State, events: seq<Completion>, c: Completion, op: nat)
    requires Inv(s) && Told(s, Hears(op, Done(op) in events))
    ensures var (t, more) := PollOne(s, events, c); Told(t, Hears(op, Done(op) in more))
  {
    hide Inv, ResumeC, Put, Told;
    var w := Hears(op, Done(op) in events);
    if AtLoop(s) {
      HearsAside(s, w);
      match c {
        case Done(o) => PollDoneHears(s, events, o, op);
        case Fault(o) => PollFaultHears(s, events, o, op);
        case Arrived(_, _) => PolledTold(s, s.live, s.lost, s.nextId + 1, s.requests + {s.nextId}, w);
        case Gone(id) =>
          PolledTold(s, s.live, s.lost, s.nextId, s.requests - {id}, w);
          PutDone(events, id, c, op);
      }
    }
  }

  lemma HearsAside(s: State, w: Topic)
    requires Told(s, w) && w.Hears?
    ensures Told(s.(live := s.live, lost := s.lost), w)
  {
  }

  /** A completion that leaves the reactor, as an error or not: only a sleeper on that very op could miss it. */
  lemma LeavesReactor(s: State, o: nat, w: Topic)
    requires Told(s, w) && w.Hears? && (o in s.live ==> o < s.nextId)
    ensures o in s.live ==> Told(s.(live := s.live - {o}, lost := s.lost + {o}), w)
    ensures o != w.op || w.op !in s.waiting || w.heard ==> Told(s.(live := s.live - {o}, lost := s.lost), w)
    ensures Told(s.(live := s.live - {o}), Hears(w.op, true))
  {
  }

  lemma PollDoneHears(s: State, events: seq<Completion>, o: nat, op: nat)
    requires Inv(s) && AtLoop(s) && Told(s, Hears(op, Done(op) in events))
    ensures var (t, more) := PollOne(s, events, Done(o)); Told(t, Hears(op, Done(op) in more))
  {
    hide Inv, ResumeC, Told;
    OpsAreOld(s);
    LeavesReactor(s, o, Hears(op, Done(op) in events));
    if op in s.waiting {
      WaitingIsNotParked(s, op);
    }
    if o != op || op in s.parked {
      LessLiveTold(s, o, s.lost, Hears(op, Done(op) in events));
    }
  }

  lemma PollFaultHears(s: State, events: seq<Completion>, o: nat, op: nat)
    requires Inv(s) && AtLoop(s) && Told(s, Hears(op, Done(op) in events))
    ensures var (t, more) := PollOne(s, events, Fault(o)); Told(t, Hears(op, Done(op) in more))
  {
    hide Inv, ResumeC, Told;
    var w := Hears(op, Done(op) in events);
    OpsAreOld(s);
    LeavesReactor(s, o, w);
    if op in s.waiting {
      WaitingIsNotParked(s, op);
    }
    if o in s.live {
      LessLiveTold(s, o, s.lost + {o}, w);
    }
    if o != op || op in s.parked {
      LessLiveTold(s, o, s.lost, w);
    }
  }

  lemma {:induction false} PutDone(events: seq<Completion>, id: nat, e: Completion, op: nat)
    requires !e.Done?
    ensures Done(op) in Put(events, id, e) <==> Done(op) in events
  {
    if events != [] {
      PutDone(events[1..], id, e, op);
      assert events == [events[0]] + events[1..];
    }
  }

  lemma {:induction false} DispatchHears(s: State, events: seq<Completion>, op: nat)
    requires Inv(s) && Told(s, Hears(op, Done(op) in events))
    ensures AtLoop(Dispatch(s, events)) ==> Told(Dispatch(s, events), Hears(op, false))
    decreases |events|
  {
    hide Inv, Told, DispatchOne;
    if !AtLoop(s) {
      CutDispatch(s, events);
    } else if events != [] {
      var t, rest := DispatchOne(s, events[0]), events[1..];
      assert events == [events[0]] + rest;
      DispatchOneKeeps(s, events[0]);
      if events[0] == Done(op) {
        DispatchDone(s, op);
        HeardOrNot(t, op, Done(op) in rest);
      } else {
        DispatchOneTold(s, events[0], Hears(op, Done(op) in rest));
      }
      DispatchHears(t, rest, op);
    }
  }

  lemma HeardOrNot(s: State, op: nat, heard: bool)
    requires Told(s, Hears(op, false))
    ensures Told(s, Hears(op, heard))
  {
  }

  /** Dispatching its completion ends the wait. */
  lemma DispatchDone(s: State, op: nat)
    requires Inv(s) && AtLoop(s) && Told(s, Hears(op, true))
    ensures Told(DispatchOne(s, Done(op)), Hears(op, false))
  {
    hide Inv, CancelRequest, RunUser, Resume;
    var w := Hears(op, false);
    if op in s.deadlines {
      DeadlineIsNotAwaited(s, op);
      ExpireKeeps(s, op);
      ExpireTold(s, op, w);
      CancelTold(Expire(s, op), s.deadlines[op], w);
    } else if op in s.waiting {
      DeliverTold(s, op, w);
    }
  }

  lemma DeadlineIsNotAwaited(s: State, op: nat)
    requires Inv(s) && op in s.deadlines
    ensures op !in s.waiting
  {
  }

  // ---------------------------------------------------------------- one turn serves everybody

  predicate StartsEntry(d: Delivery, w: Wake)
  {
    d.Started? && d.fiber == w.fiber && w.value == GiveJob(d.job)
  }

  predicate ResumesEntry(d: Delivery, w: Wake)
  {
    d.Resumed? && d.fiber == w.fiber && d.value == w.value
  }

  /** From `from` on, the log starts these pending entries one after the other. */
  ghost predicate StartsAll(log: seq<Delivery>, from: nat, queue: seq<Wake>)
  {
    from + |queue| <= |log| && forall k :: 0 <= k < |queue| ==> StartsEntry(log[from + k], queue[k])
  }

  ghost predicate ResumesAll(log: seq<Delivery>, from: nat, queue: seq<Wake>)
  {
    from + |queue| <= |log| && forall k :: 0 <= k < |queue| ==> ResumesEntry(log[from + k], queue[k])
  }

  lemma StartFirstServes(s: State)
    requires Inv(s) && AtLoop(s) && s.pending != []
    ensures var t := StartFirst(s);
      && |t.log| == |s.log| + 1 && s.log <= t.log && StartsEntry(t.log[|s.log|], s.pending[0])
      && s.pending[1..] <= t.pending && s.ready <= t.ready
  {
    hide Inv, RunUser, Begin;
    StartFacts(s);
    StartKeeps(s);
    var w, popped := s.pending[0], s.(pending := s.pending[1..]);
    var u := Start(popped, w.fiber, w.value.job);
    StartReadsNothing(popped, w.fiber, w.value.job);
    BeginLogs(popped.(log := s.log + [Started(w.fiber, Fresh, w.value.job, s.fibers[w.fiber].scope)]), w.fiber, w.value.job);
    UserUndisturbed(u, 0);
    UserReads(u);
  }

  lemma BeginLogs(s: State, f: nat, job: Job)
    requires f in s.fibers
    ensures Begin(s, f, job).log == s.log
  {
  }

  lemma ResumeFirstServes(s: State)
    requires Inv(s) && AtLoop(s) && s.ready != []
    ensures var t := ResumeFirst(s);
      && |t.log| == |s.log| + 1 && s.log <= t.log && ResumesEntry(t.log[|s.log|], s.ready[0]) && s.ready[1..] <= t.ready
  {
    hide Inv, RunUser, Begin, Unwind;
    ReadyJob(s);
    ResumeTransferKeeps(s);
    var w, popped := s.ready[0], s.(ready := s.ready[1..]);
    var at := s.fibers[w.fiber].at;
    var u := Resume(popped, w.fiber, w.value);
    var t := popped.(log := s.log + [Resumed(w.fiber, at, SettledAt(popped, at), w.value, s.fibers[w.fiber].scope)]);
    ResumeReadsNothing(popped, w.fiber, w.value);
    if at == Idle {
      BeginLogs(t, w.fiber, w.value.job);
    } else {
      UnwindLogs(t, w.fiber);
    }
    UserUndisturbed(u, 0);
    UserReads(u);
  }

  lemma {:induction false} StartPendingServes(s: State)
    requires Inv(s) && !Cut(StartPending(s))
    ensures var t := StartPending(s);
      t.pending == [] && s.log <= t.log && s.ready <= t.ready && StartsAll(t.log, |s.log|, s.pending)
    decreases |s.script|, |s.pending|
  {
    hide Inv, StartFirst, StartsEntry;
    if s.pending != [] && !Cut(s) {
      StartFirstKeeps(s);
      StartFirstProgress(s);
      StartFirstServes(s);
      var u, t := StartFirst(s), StartPending(s);
      StartPendingServes(u);
      assert t.log[|s.log|] == u.log[|s.log|];
      forall k | 0 <= k < |s.pending| ensures StartsEntry(t.log[|s.log| + k], s.pending[k]) {
        if k > 0 {
          assert s.pending[k] == s.pending[1..][k - 1] == u.pending[k - 1];
          assert StartsEntry(t.log[|u.log| + (k - 1)], u.pending[k - 1]);
        }
      }
    }
  }

  lemma {:induction false} ResumeReadyServes(s: State)
    requires Inv(s) && !Cut(ResumeReady(s))
    ensures var t := ResumeReady(s); t.ready == [] && s.log <= t.log && ResumesAll(t.log, |s.log|, s.ready)
    decreases |s.script|, |s.ready|
  {
    hide Inv, ResumeFirst, ResumesEntry;
    if s.ready != [] && !Cut(s) {
      ResumeFirstKeeps(s);
      ResumeFirstProgress(s);
      ResumeFirstServes(s);
      var u, t := ResumeFirst(s), ResumeReady(s);
      ResumeReadyServes(u);
      assert t.log[|s.log|] == u.log[|s.log|];
      forall k | 0 <= k < |s.ready| ensures ResumesEntry(t.log[|s.log| + k], s.ready[k]) {
        if k > 0 {
          assert s.ready[k] == s.ready[1..][k - 1] == u.ready[k - 1];
          assert ResumesEntry(t.log[|u.log| + (k - 1)], u.ready[k - 1]);
        }
      }
    }
  }

  /** A part of a turn that is not cut was not cut before, and only adds to the log. */
  lemma RestOfTurn(s: State, cs: seq<Completion>)
    requires Inv(s) && AtLoop(s)
    ensures var (u, events) := Poll(s, [], cs); var v := Dispatch(u, events);
      s.log <= v.log && (s.script == [] ==> v.script == [])
  {
    hide Inv, Poll, Dispatch;
    var w := Past(s.log, s.script == []);
    PollTold(s, [], cs, w);
    PollKeeps(s, [], cs);
    DispatchTold(Poll(s, [], cs).0, Poll(s, [], cs).1, w);
  }

  lemma ReadyWasCut(s: State)
    ensures Cut(s) ==> ResumeReady(s) == s
  {
  }

  /**
   In every run, a turn that user code lets finish starts every pending fiber and resumes every ready one, each with
   its own entry, in the order of the queues and the pending ones first.
   */
  lemma TurnServesEverybody(budget: int, depth: int, script: seq<Act>, jobs: nat, feed: seq<seq<Completion>>, cs: seq<Completion>)
    requires !Cut(Turn(Reached(budget, depth, script, jobs, feed), cs))
    ensures var s := Reached(budget, depth, script, jobs, feed); var v := Turn(s, cs);
      && s.log <= v.log && StartsAll(v.log, |s.log|, s.pending)
      && exists from :: from >= |s.log| + |s.pending| && ResumesAll(v.log, from, s.ready)
  {
    hide Reached, Inv, GateOk, StartPending, ResumeReady, Poll, Dispatch, StartsEntry, ResumesEntry;
    var s := Reached(budget, depth, script, jobs, feed);
    ReachedIsSafe(budget, depth, script, jobs, feed);
    var a, b, v := StartPending(s), ResumeReady(StartPending(s)), Turn(s, cs);
    StartPendingKeeps(s);
    ResumeReadyKeeps(a);
    ReadyWasCut(a);
    if AtLoop(b) {
      RestOfTurn(b, cs);
    }
    StartPendingServes(s);
    ResumeReadyServes(a);
    Earlier(a.log, b.log, v.log, |s.log|, s.pending);
    ResumesLater(b.log, v.log, |a.log|, a.ready, s.ready);
    assert ResumesAll(v.log, |a.log|, s.ready);
  }

  lemma Earlier(a: seq<Delivery>, b: seq<Delivery>, v: seq<Delivery>, from: nat, queue: seq<Wake>)
    requires StartsAll(a, from, queue) && a <= b && b <= v
    ensures StartsAll(v, from, queue)
  {
    hide StartsEntry;
  }

  lemma ResumesLater(b: seq<Delivery>, v: seq<Delivery>, from: nat, queue: seq<Wake>, front: seq<Wake>)
    requires ResumesAll(b, from, queue) && b <= v && front <= queue
    ensures ResumesAll(v, from, front)
  {
    hide ResumesEntry;
  }

  // ---------------------------------------------------------------- ops, scopes and children

  /** What user code submits is counted as in flight until it completes, and the loop does not stop before. */
  lemma SubmitsLive(s: State, f: nat, act: Act)
    requires Runs(s, f) && s.fibers[f].job.Some? && (act.Submit? || act.Sleep?)
    ensures var t, op := Perform(s, f, act), s.nextId;
      && op !in s.live && t.live == s.live + {op} && !WindingDown(t)
      && (act.Submit? ==> t.fibers == s.fibers && t.waiting == s.waiting && t.parked == s.parked)
      && (act.Sleep? ==> f in t.fibers && t.fibers[f].at == OnOp(op) && t.waiting == s.waiting[op := f])
  {
    hide Inv;
    OpsAreOld(s);
    assert s.nextId in Perform(s, f, act).live;
  }

  /** Leaving the scope takes a handler's code, and nobody else's, out of its request: only its own scope changes. */
  lemma LeaveScopeDetaches(s: State, f: nat)
    requires Runs(s, f) && s.fibers[f].job.Some?
    ensures var t := Perform(s, f, LeaveScope);
      if s.fibers[f].job.value.handles.None? then t == s
      else Inv(t) && t == s.(fibers := s.fibers[f := s.fibers[f].(scope := None)])
  {
    hide Inv;
    PerformKeeps(s, f, LeaveScope);
  }

  /** The request's children with the new one at the end; nobody else's have changed. */
  ghost predicate ListedLast(s: State, t: State, req: Option<nat>, g: nat)
  {
    if req.None? then t.children == s.children else t.children == s.children[req.value := ChildrenOf(s, req.value) + [g]]
  }

  /**
   What running code spawns is charged to the request in its scope, last among that one's children, and works for
   whom the spawner works; with nothing in scope it is nobody's child.
   */
  lemma SpawnListsLast(s: State, f: nat)
    requires Runs(s, f) && s.fibers[f].job.Some?
    ensures var fb, t := s.fibers[f], Perform(s, f, Async);
      exists g :: Charged(t, g, Job(s.nextFuture, fb.scope, None, fb.job.value.origin)) && ListedLast(s, t, fb.scope, g)
  {
    hide Inv, Place, Charged;
    RunsFacts(s, f);
    WithFutureKeeps(s, true);
    var w, req, job := WithFuture(s, true), s.fibers[f].scope, JobFor(s, s.fibers[f].scope, None);
    var (placed, g) := Place(w, job);
    PlaceGives(w, job);
    if req.Some? {
      NotYetListed(w, req.value, g);
    }
    PlacedLast(s, placed, req, g, job);
    assert Perform(s, f, Async) == AddChild(placed, req, g);
  }

  lemma PlacedLast(s: State, placed: State, req: Option<nat>, g: nat, job: Job)
    requires placed.children == s.children && g in placed.fibers && placed.fibers[g].job == Some(job) && job.req == req
    requires req.Some? ==> g !in ChildrenOf(s, req.value)
    ensures var t := AddChild(placed, req, g); Charged(t, g, job) && ListedLast(s, t, req, g)
  {
    var t := AddChild(placed, req, g);
    assert t.fibers == placed.fibers;
    if req.Some? {
      var more := ChildrenOf(s, req.value) + [g];
      assert ChildrenOf(placed, req.value) == ChildrenOf(s, req.value);
      assert t.children == s.children[req.value := more];
      assert more[|more| - 1] == g;
    }
    hide AddChild;
  }

  /** A fiber that is new or rests in the pool is nobody's child. */
  lemma NotYetListed(s: State, r: nat, g: nat)
    requires Inv(s) && (g in s.fibers ==> s.fibers[g].at == Idle && s.fibers[g].job == None)
    ensures g !in ChildrenOf(s, r)
  {
    hide Inv;
    ChildrenFacts(s, r);
  }
}
