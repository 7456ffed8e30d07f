/**
 What the scheduler's tables keep, over every run: each suspended fiber has exactly one reason to be
 suspended and exactly the wake-up entries for that reason, and each control transfer carries what the
 fiber is suspended for.
 */
module SchedulerSafety {
  import opened Prelude
  import opened Scheduler
  import Admission

  type Fibers = map<nat, Fiber>

  /** `$waiting` and `$parkedOn` hold exactly the fibers suspended in parkOn(). */
  ghost predicate WaitInv(fibers: Fibers, waiting: map<nat, nat>, parkedOn: map<nat, nat>)
  {
    && (forall op :: op in waiting ==> waiting[op] in fibers && fibers[waiting[op]].at == OnOp(op))
    && (forall f :: f in parkedOn ==> f in fibers && fibers[f].at == OnOp(parkedOn[f]))
    && (forall f :: f in fibers && fibers[f].at.OnOp? ==>
          f in parkedOn && fibers[f].at.op in waiting && waiting[fibers[f].at.op] == f)
  }

  /** What `$ready` owes a fiber, if anything. */
  ghost function Owed(fb: Fiber, futures: map<nat, Future>): Option<Value>
  {
    if fb.at == Idle && fb.job.Some? then Some(GiveJob(fb.job.value))
    else if fb.at.OnFuture? && fb.at.fut in futures && futures[fb.at.fut].done then Some(Nothing)
    else None
  }

  ghost predicate Distinct(wakes: seq<Wake>)
  {
    forall i, j :: 0 <= i < j < |wakes| ==> wakes[i].fiber != wakes[j].fiber
  }

  ghost predicate ReadyInv(fibers: Fibers, futures: map<nat, Future>, ready: seq<Wake>)
  {
    && Distinct(ready)
    && (forall w :: w in ready ==> w.fiber in fibers && Owed(fibers[w.fiber], futures) == Some(w.value))
    && (forall f :: f in fibers && Owed(fibers[f], futures).Some? ==> Wake(f, Owed(fibers[f], futures).value) in ready)
  }

  ghost predicate PendingInv(fibers: Fibers, pending: seq<Wake>)
  {
    && Distinct(pending)
    && (forall w :: w in pending ==>
          w.fiber in fibers && fibers[w.fiber].at == Fresh && fibers[w.fiber].job.Some? && w.value == GiveJob(fibers[w.fiber].job.value))
    && (forall f :: f in fibers && fibers[f].at == Fresh ==> fibers[f].job.Some? && Wake(f, GiveJob(fibers[f].job.value)) in pending)
  }

  ghost predicate IdleInv(fibers: Fibers, idle: seq<nat>)
  {
    && NoDup(idle)
    && (forall f :: f in idle <==> f in fibers && fibers[f].at == Idle && fibers[f].job == None)
  }

  /** A future's waiters are suspended on it, and a settled one has none. */
  ghost predicate WaitersInv(fibers: Fibers, u: nat, future: Future)
  {
    && NoDup(future.waiters)
    && (forall f :: f in future.waiters ==> f in fibers && fibers[f].at == OnFuture(u))
    && (future.done ==> future.waiters == [])
  }

  ghost predicate FutureInv(fibers: Fibers, futures: map<nat, Future>)
  {
    && (forall u :: u in futures ==> WaitersInv(fibers, u, futures[u]))
    && (forall f :: f in fibers && fibers[f].at.OnFuture? ==>
          fibers[f].at.fut in futures && (!futures[fibers[f].at.fut].done ==> f in futures[fibers[f].at.fut].waiters))
  }

  /** The C side's PARKED: the keys of a fiber are exactly the ops of its current await. */
  ghost predicate ParkedInv(fibers: Fibers, parked: map<nat, nat>)
  {
    && (forall op :: op in parked ==> parked[op] in fibers && fibers[parked[op]].at.InC? && op in fibers[parked[op]].at.ops)
    && (forall f, op :: f in fibers && fibers[f].at.InC? && op in fibers[f].at.ops ==> op in parked && parked[op] == f)
    && (forall f :: f in fibers && fibers[f].at.InC? ==> fibers[f].at.ops != {})
  }

  /** Every job in hand has its own unsettled future; only a fiber in the pool has none. */
  ghost predicate JobInv(fibers: Fibers, futures: map<nat, Future>, current: Option<nat>)
  {
    && (forall f :: f in fibers ==> fibers[f].at != Dead && (fibers[f].job.None? ==> fibers[f].at == Idle))
    && (forall f :: f in fibers && fibers[f].job.Some? ==>
          var u := fibers[f].job.value.future; u in futures && futures[u].pooled && !futures[u].done)
    && (forall f, g :: f in fibers && g in fibers && f != g && fibers[f].job.Some? && fibers[g].job.Some? ==>
          fibers[f].job.value.future != fibers[g].job.value.future)
    && (forall f :: f in fibers ==> (fibers[f].at == Running <==> current == Some(f)))
    && (current.Some? ==> current.value in fibers)
  }

  predicate Belongs(job: Option<Job>, r: nat)
  {
    job.Some? && (job.value.req == Some(r) || job.value.handles == Some(r))
  }

  /** A handler's closure is spawned outside any request: it is nobody's child. */
  predicate OneRole(job: Option<Job>)
  {
    job.Some? && job.value.handles.Some? ==> job.value.req.None?
  }

  /** Every fiber a cancellation of r can reach is booked under r. */
  ghost predicate OwnerInv(fibers: Fibers, children: map<nat, seq<nat>>, requestFibers: map<nat, nat>)
  {
    && (forall r :: r in children ==> NoDup(children[r]))
    && (forall r, f :: r in children && f in children[r] ==>
          f in fibers && fibers[f].job.Some? && fibers[f].job.value.req == Some(r))
    && (forall r :: r in requestFibers ==>
          requestFibers[r] in fibers && fibers[requestFibers[r]].job.Some? && fibers[requestFibers[r]].job.value.handles == Some(r))
    && (forall f :: f in fibers ==> OneRole(fibers[f].job))
  }

  ghost predicate DeadlineInv(deadlines: map<nat, nat>, deadlineOf: map<nat, nat>)
  {
    && (forall op :: op in deadlines ==> deadlines[op] in deadlineOf && deadlineOf[deadlines[op]] == op)
    && (forall r :: r in deadlineOf ==> deadlineOf[r] in deadlines && deadlines[deadlineOf[r]] == r)
  }

  /** Ids not handed out yet appear nowhere, and no op is awaited in two ways. */
  ghost predicate FreshInv(s: State)
  {
    && (forall f :: f in s.fibers ==> f < s.nextFiber)
    && (forall u :: u in s.futures ==> u < s.nextFuture)
    && (forall op :: op in s.waiting || op in s.parked || op in s.deadlines || op in s.live ==> op < s.nextId)
    && (forall op :: op in s.waiting ==> op !in s.parked && op !in s.deadlines)
    && (forall op :: op in s.parked ==> op !in s.deadlines)
  }

  /** The transfer handed the fiber what it was suspended for; a cancellation found it booked under its request. */
  predicate Matches(d: Delivery)
  {
    match d
    case Started(_, at, _, _) => at == Fresh
    case Resumed(_, at, settled, value, _) =>
      (match at
       case Idle => value.GiveJob?
       case OnOp(op) => value == Payload(op)
       case OnFuture(_) => settled && value == Nothing
       case InC(ops) => value.Payload? && value.op in ops
       case _ => false)
    case Thrown(_, at, owner, r) => (at.OnOp? || at.InC?) && Belongs(owner, r)
  }

  ghost predicate LogInv(log: seq<Delivery>)
  {
    forall d :: d in log ==> Matches(d)
  }

  ghost predicate Wakes(s: State)
  {
    && WaitInv(s.fibers, s.waiting, s.parkedOn)
    && ReadyInv(s.fibers, s.futures, s.ready)
    && PendingInv(s.fibers, s.pending)
    && IdleInv(s.fibers, s.idle)
    && FutureInv(s.fibers, s.futures)
    && ParkedInv(s.fibers, s.parked)
  }

  ghost predicate Books(s: State)
  {
    && JobInv(s.fibers, s.futures, s.current)
    && OwnerInv(s.fibers, s.children, s.requestFibers)
    && DeadlineInv(s.deadlines, s.deadlineOf)
    && FreshInv(s)
    && LogInv(s.log)
  }

  ghost predicate Inv(s: State)
  {
    Wakes(s) && Books(s)
  }

  // ---------------------------------------------------------------- one fiber changes, table by table

  ghost predicate Waits(fibers: Fibers, f: nat) { f in fibers && fibers[f].at.OnOp? }
  ghost predicate Starts(fibers: Fibers, f: nat) { f in fibers && fibers[f].at == Fresh }
  ghost predicate Rests(fibers: Fibers, f: nat) { f in fibers && fibers[f].at == Idle && fibers[f].job == None }
  ghost predicate Awaits(fibers: Fibers, f: nat) { f in fibers && fibers[f].at.OnFuture? }
  ghost predicate Blocks(fibers: Fibers, f: nat) { f in fibers && fibers[f].at.InC? }
  ghost predicate Expects(fibers: Fibers, futures: map<nat, Future>, f: nat) { f in fibers && Owed(fibers[f], futures).Some? }

  lemma WaitFrame(fibers: Fibers, waiting: map<nat, nat>, parkedOn: map<nat, nat>, f: nat, fb: Fiber)
    requires WaitInv(fibers, waiting, parkedOn) && !Waits(fibers, f) && !fb.at.OnOp?
    ensures WaitInv(fibers[f := fb], waiting, parkedOn)
  {
  }

  lemma WaitEnter(fibers: Fibers, waiting: map<nat, nat>, parkedOn: map<nat, nat>, f: nat, op: nat, fb: Fiber)
    requires WaitInv(fibers, waiting, parkedOn) && !Waits(fibers, f) && op !in waiting && fb.at == OnOp(op)
    ensures WaitInv(fibers[f := fb], waiting[op := f], parkedOn[f := op])
  {
  }

  lemma WaitLeave(fibers: Fibers, waiting: map<nat, nat>, parkedOn: map<nat, nat>, f: nat, fb: Fiber)
    requires WaitInv(fibers, waiting, parkedOn) && Waits(fibers, f) && !fb.at.OnOp?
    ensures f in parkedOn && parkedOn[f] == fibers[f].at.op
    ensures WaitInv(fibers[f := fb], waiting - {fibers[f].at.op}, parkedOn - {f})
  {
  }

  lemma ReadyFrame(fibers: Fibers, futures: map<nat, Future>, ready: seq<Wake>, f: nat, fb: Fiber)
    requires ReadyInv(fibers, futures, ready) && !Expects(fibers, futures, f) && Owed(fb, futures).None?
    ensures ReadyInv(fibers[f := fb], futures, ready)
  {
  }

  lemma ReadyEnter(fibers: Fibers, futures: map<nat, Future>, ready: seq<Wake>, f: nat, fb: Fiber)
    requires ReadyInv(fibers, futures, ready) && !Expects(fibers, futures, f) && Owed(fb, futures).Some?
    ensures ReadyInv(fibers[f := fb], futures, ready + [Wake(f, Owed(fb, futures).value)])
  {
    assert forall w :: w in ready ==> w.fiber != f;
  }

  lemma ReadyLeave(fibers: Fibers, futures: map<nat, Future>, ready: seq<Wake>, fb: Fiber)
    requires ReadyInv(fibers, futures, ready) && ready != [] && Owed(fb, futures).None?
    ensures Expects(fibers, futures, ready[0].fiber) && Owed(fibers[ready[0].fiber], futures).value == ready[0].value
    ensures ReadyInv(fibers[ready[0].fiber := fb], futures, ready[1..])
  {
    assert ready[0] in ready;
    assert forall w :: w in ready[1..] ==> w in ready && w.fiber != ready[0].fiber;
    assert forall w :: w in ready && w != ready[0] ==> w in ready[1..];
  }

  lemma PendingFrame(fibers: Fibers, pending: seq<Wake>, f: nat, fb: Fiber)
    requires PendingInv(fibers, pending) && !Starts(fibers, f) && fb.at != Fresh
    ensures PendingInv(fibers[f := fb], pending)
  {
  }

  lemma PendingEnter(fibers: Fibers, pending: seq<Wake>, f: nat, fb: Fiber)
    requires PendingInv(fibers, pending) && !Starts(fibers, f) && fb.at == Fresh && fb.job.Some?
    ensures PendingInv(fibers[f := fb], pending + [Wake(f, GiveJob(fb.job.value))])
  {
    assert forall w :: w in pending ==> w.fiber != f;
  }

  lemma PendingLeave(fibers: Fibers, pending: seq<Wake>, fb: Fiber)
    requires PendingInv(fibers, pending) && pending != [] && fb.at != Fresh
    ensures var w := pending[0]; Starts(fibers, w.fiber) && fibers[w.fiber].job.Some? && w.value == GiveJob(fibers[w.fiber].job.value)
    ensures PendingInv(fibers[pending[0].fiber := fb], pending[1..])
  {
    assert pending[0] in pending;
    assert forall w :: w in pending[1..] ==> w in pending && w.fiber != pending[0].fiber;
    assert forall w :: w in pending && w != pending[0] ==> w in pending[1..];
  }

  lemma IdleFrame(fibers: Fibers, idle: seq<nat>, f: nat, fb: Fiber)
    requires IdleInv(fibers, idle) && !Rests(fibers, f) && !(fb.at == Idle && fb.job == None)
    ensures IdleInv(fibers[f := fb], idle)
  {
  }

  lemma IdleEnter(fibers: Fibers, idle: seq<nat>, f: nat, fb: Fiber)
    requires IdleInv(fibers, idle) && !Rests(fibers, f) && fb.at == Idle && fb.job == None
    ensures IdleInv(fibers[f := fb], idle + [f])
  {
  }

  lemma IdleLeave(fibers: Fibers, idle: seq<nat>, fb: Fiber)
    requires IdleInv(fibers, idle) && idle != [] && !(fb.at == Idle && fb.job == None)
    ensures Rests(fibers, idle[|idle| - 1])
    ensures IdleInv(fibers[idle[|idle| - 1] := fb], idle[..|idle| - 1])
  {
    var f := idle[|idle| - 1];
    assert f in idle;
    assert forall g :: g in idle[..|idle| - 1] <==> g in idle && g != f;
  }

  lemma FutureFrame(fibers: Fibers, futures: map<nat, Future>, f: nat, fb: Fiber)
    requires FutureInv(fibers, futures) && !Awaits(fibers, f) && !fb.at.OnFuture?
    ensures FutureInv(fibers[f := fb], futures)
  {
    assert forall u :: u in futures ==> WaitersInv(fibers, u, futures[u]);
  }

  lemma FutureEnter(fibers: Fibers, futures: map<nat, Future>, f: nat, u: nat, fb: Fiber)
    requires FutureInv(fibers, futures) && !Awaits(fibers, f) && u in futures && !futures[u].done && fb.at == OnFuture(u)
    ensures FutureInv(fibers[f := fb], futures[u := futures[u].(waiters := futures[u].waiters + [f])])
  {
    assert WaitersInv(fibers, u, futures[u]);
    assert forall v :: v in futures ==> WaitersInv(fibers, v, futures[v]);
  }

  /** A waiter leaves only once its future is settled, when no list names it any more. */
  lemma FutureLeave(fibers: Fibers, futures: map<nat, Future>, f: nat, fb: Fiber)
    requires FutureInv(fibers, futures) && Awaits(fibers, f) && fibers[f].at.fut in futures && futures[fibers[f].at.fut].done
    requires !fb.at.OnFuture?
    ensures FutureInv(fibers[f := fb], futures)
  {
    assert forall u :: u in futures ==> WaitersInv(fibers, u, futures[u]);
  }

  lemma ParkedFrame(fibers: Fibers, parked: map<nat, nat>, f: nat, fb: Fiber)
    requires ParkedInv(fibers, parked) && !Blocks(fibers, f) && !fb.at.InC?
    ensures ParkedInv(fibers[f := fb], parked)
  {
  }

  lemma ParkedEnter(fibers: Fibers, parked: map<nat, nat>, f: nat, ops: set<nat>, fb: Fiber)
    requires ParkedInv(fibers, parked) && !Blocks(fibers, f) && ops != {} && ops !! parked.Keys && fb.at == InC(ops)
    ensures ParkedInv(fibers[f := fb], parked + Claims(ops, f))
  {
  }

  /** Waking takes every key of the await with it, whichever of them fired. */
  lemma ParkedLeave(fibers: Fibers, parked: map<nat, nat>, f: nat, fb: Fiber, fired: set<nat>)
    requires ParkedInv(fibers, parked) && Blocks(fibers, f) && !fb.at.InC? && fired <= fibers[f].at.ops
    ensures ParkedInv(fibers[f := fb], parked - fired - fibers[f].at.ops)
  {
    assert forall op :: op in fibers[f].at.ops ==> op in parked && parked[op] == f;
  }

  lemma SettleKeepsReady(fibers: Fibers, futures: map<nat, Future>, ready: seq<Wake>, u: nat)
    requires ReadyInv(fibers, futures, ready) && FutureInv(fibers, futures) && u in futures && !futures[u].done
    ensures ReadyInv(fibers, futures[u := futures[u].(done := true, waiters := [])], ready + Nulls(futures[u].waiters))
  {
    var waiters, nulls := futures[u].waiters, Nulls(futures[u].waiters);
    var settled := futures[u := futures[u].(done := true, waiters := [])];
    assert WaitersInv(fibers, u, futures[u]);
    forall w | w in ready ensures w.fiber !in waiters && Owed(fibers[w.fiber], settled) == Some(w.value) {
    }
    forall w | w in nulls ensures w.fiber in waiters && w.value == Nothing {
    }
    forall f | f in waiters ensures Wake(f, Nothing) in nulls {
      var k :| 0 <= k < |waiters| && waiters[k] == f;
      assert nulls[k] == Wake(f, Nothing);
    }
    forall i, j | 0 <= i < j < |ready + nulls| ensures (ready + nulls)[i].fiber != (ready + nulls)[j].fiber {
      if i < |ready| <= j {
        assert ready[i] in ready && nulls[j - |ready|] in nulls;
      }
    }
  }

  lemma SettleKeepsFutures(fibers: Fibers, futures: map<nat, Future>, u: nat)
    requires FutureInv(fibers, futures) && u in futures && !futures[u].done
    ensures FutureInv(fibers, futures[u := futures[u].(done := true, waiters := [])])
  {
    assert forall v :: v in futures ==> WaitersInv(fibers, v, futures[v]);
  }

  /** Registering a running fiber as a waiter owes nobody anything yet. */
  lemma ReadyMoreWaiters(fibers: Fibers, futures: map<nat, Future>, ready: seq<Wake>, u: nat, f: nat)
    requires ReadyInv(fibers, futures, ready) && u in futures && !futures[u].done && f in fibers && fibers[f].at == Running
    ensures var fb := fibers[f].(at := OnFuture(u));
      ReadyInv(fibers[f := fb], futures[u := futures[u].(waiters := futures[u].waiters + [f])], ready)
  {
    var fb := fibers[f].(at := OnFuture(u));
    var more := futures[u := futures[u].(waiters := futures[u].waiters + [f])];
    assert forall g :: g in fibers ==> Owed(fibers[g], more) == Owed(fibers[g], futures);
    assert Owed(fb, more) == None && Owed(fibers[f], futures) == None;
  }

  // ---------------------------------------------------------------- the other books

  lemma JobMoreWaiters(fibers: Fibers, futures: map<nat, Future>, current: Option<nat>, u: nat, f: nat)
    requires JobInv(fibers, futures, current) && u in futures
    ensures JobInv(fibers, futures[u := futures[u].(waiters := futures[u].waiters + [f])], current)
  {
  }

  lemma JobMove(fibers: Fibers, futures: map<nat, Future>, current: Option<nat>, f: nat, fb: Fiber, next: Option<nat>)
    requires JobInv(fibers, futures, current) && f in fibers && fb.job == fibers[f].job
    requires fb.at != Dead && (fb.job.None? ==> fb.at == Idle)
    requires (current.None? || current == Some(f)) && next == if fb.at == Running then Some(f) else None
    ensures JobInv(fibers[f := fb], futures, next)
  {
  }

  lemma JobAssign(fibers: Fibers, futures: map<nat, Future>, current: Option<nat>, f: nat, fb: Fiber)
    requires JobInv(fibers, futures, current) && (f in fibers ==> fibers[f].job.None?) && (fb.at == Fresh || fb.at == Idle)
    requires fb.job.Some? && var u := fb.job.value.future;
      && u in futures && futures[u].pooled && !futures[u].done
      && forall g :: g in fibers && fibers[g].job.Some? ==> fibers[g].job.value.future != u
    ensures JobInv(fibers[f := fb], futures, current)
  {
  }

  lemma JobRetire(fibers: Fibers, futures: map<nat, Future>, f: nat, fb: Fiber)
    requires JobInv(fibers, futures, Some(f)) && f in fibers && fibers[f].job.Some? && fb.at == Idle && fb.job.None?
    ensures var u := fibers[f].job.value.future;
      JobInv(fibers[f := fb], futures[u := futures[u].(done := true, waiters := [])], None)
  {
  }

  lemma OwnerMove(fibers: Fibers, children: map<nat, seq<nat>>, requestFibers: map<nat, nat>, f: nat, fb: Fiber)
    requires OwnerInv(fibers, children, requestFibers)
    requires (f in fibers && fb.job == fibers[f].job) || ((f in fibers ==> fibers[f].job.None?) && OneRole(fb.job))
    ensures OwnerInv(fibers[f := fb], children, requestFibers)
  {
  }

  lemma OwnerForget(fibers: Fibers, children: map<nat, seq<nat>>, requestFibers: map<nat, nat>, r: nat)
    requires OwnerInv(fibers, children, requestFibers)
    ensures OwnerInv(fibers, children - {r}, requestFibers - {r})
  {
  }

  lemma {:induction false} WithoutIs(s: seq<nat>, f: nat)
    requires NoDup(s)
    ensures NoDup(Without(s, f)) && forall g :: g in Without(s, f) <==> g in s && g != f
  {
    if s != [] {
      assert NoDup(s[1..]) by {
        assert forall i, j :: 0 <= i < j < |s[1..]| ==> s[1..][i] != s[1..][j];
      }
      WithoutIs(s[1..], f);
      assert forall g :: g in s <==> g == s[0] || g in s[1..];
      assert s[0] !in s[1..];
    }
  }

  lemma OwnerRetire(s: State, f: nat, fb: Fiber)
    requires OwnerInv(s.fibers, s.children, s.requestFibers) && f in s.fibers && s.fibers[f].job.Some? && fb.job.None?
    requires forall r :: r in s.requestFibers ==> s.requestFibers[r] != f
    ensures OwnerInv(s.fibers[f := fb], ForgetChild(s, s.fibers[f].job.value.req, f).children, s.requestFibers)
  {
    var req := s.fibers[f].job.value.req;
    if req.Some? && req.value in s.children {
      WithoutIs(s.children[req.value], f);
    }
  }

  // ---------------------------------------------------------------- one fiber changes, all tables

  datatype Table = Waiting | Ready | Pending | IdlePool | Futures | Parked

  /** The tables that do not concern the fiber before or after the change are unaffected by it. */
  lemma OtherTables(s: State, f: nat, fb: Fiber, touched: set<Table>)
    requires Wakes(s)
    requires Waiting !in touched ==> !Waits(s.fibers, f) && !fb.at.OnOp?
    requires Ready !in touched ==> !Expects(s.fibers, s.futures, f) && Owed(fb, s.futures).None?
    requires Pending !in touched ==> !Starts(s.fibers, f) && fb.at != Fresh
    requires IdlePool !in touched ==> !Rests(s.fibers, f) && !(fb.at == Idle && fb.job == None)
    requires Futures !in touched ==> !Awaits(s.fibers, f) && !fb.at.OnFuture?
    requires Parked !in touched ==> !Blocks(s.fibers, f) && !fb.at.InC?
    ensures Waiting !in touched ==> WaitInv(s.fibers[f := fb], s.waiting, s.parkedOn)
    ensures Ready !in touched ==> ReadyInv(s.fibers[f := fb], s.futures, s.ready)
    ensures Pending !in touched ==> PendingInv(s.fibers[f := fb], s.pending)
    ensures IdlePool !in touched ==> IdleInv(s.fibers[f := fb], s.idle)
    ensures Futures !in touched ==> FutureInv(s.fibers[f := fb], s.futures)
    ensures Parked !in touched ==> ParkedInv(s.fibers[f := fb], s.parked)
  {
    if Waiting !in touched { WaitFrame(s.fibers, s.waiting, s.parkedOn, f, fb); }
    if Ready !in touched { ReadyFrame(s.fibers, s.futures, s.ready, f, fb); }
    if Pending !in touched { PendingFrame(s.fibers, s.pending, f, fb); }
    if IdlePool !in touched { IdleFrame(s.fibers, s.idle, f, fb); }
    if Futures !in touched { FutureFrame(s.fibers, s.futures, f, fb); }
    if Parked !in touched { ParkedFrame(s.fibers, s.parked, f, fb); }
  }

  // ---------------------------------------------------------------- suspensions

  ghost predicate Runs(s: State, f: nat)
  {
    Inv(s) && s.current == Some(f) && f in s.fibers
  }

  lemma RunsFacts(s: State, f: nat)
    requires Runs(s, f)
    ensures s.fibers[f].at == Running && s.fibers[f].job.Some?
    ensures s.nextId !in s.waiting && forall op :: op >= s.nextId ==> op !in s.parked
  {
  }

  lemma ParkOnFresh(s: State, f: nat)
    requires FreshInv(s) && f in s.fibers
    ensures FreshInv(ParkOn(s, f))
  {
  }

  lemma ParkOnKeeps(s: State, f: nat)
    requires Runs(s, f)
    ensures Inv(ParkOn(s, f))
  {
    hide WaitInv, ReadyInv, PendingInv, IdleInv, FutureInv, ParkedInv, JobInv, OwnerInv, DeadlineInv, FreshInv, LogInv;
    RunsFacts(s, f);
    ParkOnFresh(s, f);
    var fb := s.fibers[f].(at := OnOp(s.nextId));
    OtherTables(s, f, fb, {Waiting});
    WaitEnter(s.fibers, s.waiting, s.parkedOn, f, s.nextId, fb);
    JobMove(s.fibers, s.futures, s.current, f, fb, None);
    OwnerMove(s.fibers, s.children, s.requestFibers, f, fb);
  }

  lemma AwaitFresh(s: State, f: nat, u: nat)
    requires FreshInv(s) && f in s.fibers
    ensures FreshInv(AwaitFuture(s, f, u))
  {
  }

  lemma AwaitKeeps(s: State, f: nat, u: nat)
    requires Runs(s, f)
    ensures Inv(AwaitFuture(s, f, u))
    ensures AwaitFuture(s, f, u).current == None <==> u in s.futures && !s.futures[u].done
    ensures u in s.futures && !s.futures[u].done ==>
      s.futures[u].waiters < AwaitFuture(s, f, u).futures[u].waiters && f in AwaitFuture(s, f, u).futures[u].waiters
  {
    hide WaitInv, ReadyInv, PendingInv, IdleInv, FutureInv, ParkedInv, JobInv, OwnerInv, DeadlineInv, FreshInv, LogInv;
    RunsFacts(s, f);
    AwaitFresh(s, f, u);
    if u in s.futures && !s.futures[u].done {
      var fb := s.fibers[f].(at := OnFuture(u));
      OtherTables(s, f, fb, {Futures, Ready});
      FutureEnter(s.fibers, s.futures, f, u, fb);
      ReadyMoreWaiters(s.fibers, s.futures, s.ready, u, f);
      JobMove(s.fibers, s.futures, s.current, f, fb, None);
      JobMoreWaiters(s.fibers[f := fb], s.futures, None, u, f);
      OwnerMove(s.fibers, s.children, s.requestFibers, f, fb);
    }
  }

  lemma ParkInCFresh(s: State, f: nat, extra: nat)
    requires FreshInv(s) && f in s.fibers
    ensures FreshInv(ParkInC(s, f, extra))
  {
  }

  lemma ParkInCKeeps(s: State, f: nat, extra: nat)
    requires Runs(s, f)
    ensures Inv(ParkInC(s, f, extra))
  {
    hide WaitInv, ReadyInv, PendingInv, IdleInv, FutureInv, ParkedInv, JobInv, OwnerInv, DeadlineInv, FreshInv, LogInv;
    RunsFacts(s, f);
    ParkInCFresh(s, f, extra);
    var ops := OpsFrom(s.nextId, extra);
    var fb := s.fibers[f].(at := InC(ops));
    assert s.nextId in ops;
    OtherTables(s, f, fb, {Parked});
    ParkedEnter(s.fibers, s.parked, f, ops, fb);
    JobMove(s.fibers, s.futures, s.current, f, fb, None);
    OwnerMove(s.fibers, s.children, s.requestFibers, f, fb);
  }

  // ---------------------------------------------------------------- futures and spawn

  lemma NewFutureTables(fibers: Fibers, futures: map<nat, Future>, ready: seq<Wake>, current: Option<nat>, u: nat, pooled: bool)
    requires ReadyInv(fibers, futures, ready) && FutureInv(fibers, futures) && JobInv(fibers, futures, current) && u !in futures
    ensures var more := futures[u := Future(false, [], pooled)];
      ReadyInv(fibers, more, ready) && FutureInv(fibers, more) && JobInv(fibers, more, current)
    ensures forall f :: f in fibers && fibers[f].job.Some? ==> fibers[f].job.value.future != u
  {
    var more := futures[u := Future(false, [], pooled)];
    assert forall v :: v in futures ==> WaitersInv(fibers, v, futures[v]);
    assert forall f :: f in fibers ==> Owed(fibers[f], more) == Owed(fibers[f], futures);
  }

  lemma WithFutureFresh(s: State, pooled: bool)
    requires FreshInv(s)
    ensures FreshInv(WithFuture(s, pooled)) && s.nextFuture !in s.futures
  {
  }

  lemma WithFutureKeeps(s: State, pooled: bool)
    requires Inv(s)
    ensures Inv(WithFuture(s, pooled))
    ensures forall f :: f in s.fibers && s.fibers[f].job.Some? ==> s.fibers[f].job.value.future != s.nextFuture
  {
    hide WaitInv, ReadyInv, PendingInv, IdleInv, FutureInv, ParkedInv, JobInv, OwnerInv, DeadlineInv, FreshInv, LogInv;
    WithFutureFresh(s, pooled);
    NewFutureTables(s.fibers, s.futures, s.ready, s.current, s.nextFuture, pooled);
  }

  ghost predicate Unassigned(s: State, job: Job)
  {
    && job.future in s.futures && s.futures[job.future].pooled && !s.futures[job.future].done
    && OneRole(Some(job))
    && forall f :: f in s.fibers && s.fibers[f].job.Some? ==> s.fibers[f].job.value.future != job.future
  }

  lemma IdleFacts(s: State)
    requires Inv(s) && s.idle != []
    ensures Rests(s.fibers, s.idle[|s.idle| - 1])
  {
    assert s.idle[|s.idle| - 1] in s.idle;
  }

  lemma ReuseKeeps(s: State, job: Job)
    requires Inv(s) && Unassigned(s, job) && s.idle != []
    ensures var f := s.idle[|s.idle| - 1]; Rests(s.fibers, f) && Inv(Reuse(s, f, job))
  {
    hide WaitInv, ReadyInv, PendingInv, IdleInv, FutureInv, ParkedInv, JobInv, OwnerInv, DeadlineInv, FreshInv, LogInv;
    IdleFacts(s);
    var f := s.idle[|s.idle| - 1];
    var fb := s.fibers[f].(job := Some(job));
    FreshSame(s, Reuse(s, f, job));
    OtherTables(s, f, fb, {IdlePool, Ready});
    IdleLeave(s.fibers, s.idle, fb);
    ReadyEnter(s.fibers, s.futures, s.ready, f, fb);
    JobAssign(s.fibers, s.futures, s.current, f, fb);
    OwnerMove(s.fibers, s.children, s.requestFibers, f, fb);
  }

  lemma CreateFresh(s: State, job: Job)
    requires FreshInv(s)
    ensures FreshInv(Create(s, job)) && s.nextFiber !in s.fibers
  {
  }

  lemma CreateKeeps(s: State, job: Job)
    requires Inv(s) && Unassigned(s, job)
    ensures Inv(Create(s, job)) && s.nextFiber !in s.fibers
  {
    hide WaitInv, ReadyInv, PendingInv, IdleInv, FutureInv, ParkedInv, JobInv, OwnerInv, DeadlineInv, FreshInv, LogInv;
    CreateFresh(s, job);
    var f, fb := s.nextFiber, Fiber(Fresh, Some(job), None, None);
    OtherTables(s, f, fb, {Pending});
    PendingEnter(s.fibers, s.pending, f, fb);
    JobAssign(s.fibers, s.futures, s.current, f, fb);
    OwnerMove(s.fibers, s.children, s.requestFibers, f, fb);
  }

  lemma PlaceKeeps(s: State, job: Job)
    requires Inv(s) && Unassigned(s, job)
    ensures var (t, f) := Place(s, job); Inv(t) && f in t.fibers && t.fibers[f].job == Some(job)
  {
    hide Inv, Unassigned;
    if s.idle != [] {
      ReuseKeeps(s, job);
    } else {
      CreateKeeps(s, job);
    }
  }

  lemma AddChildOwner(fibers: Fibers, children: map<nat, seq<nat>>, requestFibers: map<nat, nat>, r: nat, listed: seq<nat>, f: nat)
    requires OwnerInv(fibers, children, requestFibers) && listed == (if r in children then children[r] else []) && f !in listed
    requires f in fibers && fibers[f].job.Some? && fibers[f].job.value.req == Some(r)
    ensures OwnerInv(fibers, children[r := listed + [f]], requestFibers)
  {
  }

  lemma AddChildFresh(s: State, req: Option<nat>, f: nat)
    requires FreshInv(s)
    ensures FreshInv(AddChild(s, req, f))
  {
  }

  lemma AddChildKeeps(s: State, req: Option<nat>, f: nat)
    requires Inv(s) && f in s.fibers && s.fibers[f].job.Some? && s.fibers[f].job.value.req == req
    ensures Inv(AddChild(s, req, f))
  {
    hide WaitInv, ReadyInv, PendingInv, IdleInv, FutureInv, ParkedInv, JobInv, OwnerInv, DeadlineInv, FreshInv, LogInv;
    AddChildFresh(s, req, f);
    if req.Some? && f !in ChildrenOf(s, req.value) {
      AddChildOwner(s.fibers, s.children, s.requestFibers, req.value, ChildrenOf(s, req.value), f);
    }
  }

  /** FreshInv speaks only of the tables keyed by ids. */
  lemma FreshSame(s: State, t: State)
    requires FreshInv(s)
    requires forall f :: f in t.fibers ==> f in s.fibers
    requires forall u :: u in t.futures ==> u in s.futures
    requires forall op :: op in t.waiting ==> op in s.waiting
    requires forall op :: op in t.parked ==> op in s.parked
    requires forall op :: op in t.deadlines ==> op in s.deadlines
    requires t.live <= s.live && t.nextId >= s.nextId && t.nextFiber == s.nextFiber && t.nextFuture == s.nextFuture
    ensures FreshInv(t)
  {
  }

  lemma SpawnKeeps(s: State, req: Option<nat>, handles: Option<nat>)
    requires Inv(s) && (handles.Some? ==> req.None?)
    ensures Inv(Spawn(s, req, handles))
  {
    hide WaitInv, ReadyInv, PendingInv, IdleInv, FutureInv, ParkedInv, JobInv, OwnerInv, DeadlineInv, FreshInv, LogInv;
    var job := JobFor(s, req, handles);
    WithFutureKeeps(s, true);
    PlaceKeeps(WithFuture(s, true), job);
    AddChildKeeps(Place(WithFuture(s, true), job).0, req, Place(WithFuture(s, true), job).1);
  }

  lemma {:induction false} SpawnHandlersKeep(s: State, ids: seq<nat>)
    requires Inv(s)
    ensures Inv(SpawnHandlers(s, ids)) && SpawnHandlers(s, ids).current == s.current
    ensures SpawnHandlers(s, ids).requestFibers == s.requestFibers
    decreases |ids|
  {
    hide WaitInv, ReadyInv, PendingInv, IdleInv, FutureInv, ParkedInv, JobInv, OwnerInv, DeadlineInv, FreshInv, LogInv;
    if ids != [] {
      SpawnKeeps(s, None, Some(ids[0]));
      SpawnHandlersKeep(Spawn(s, None, Some(ids[0])), ids[1..]);
    }
  }

  // ---------------------------------------------------------------- settling and finishing

  lemma SettleFresh(s: State, u: nat)
    requires FreshInv(s)
    ensures FreshInv(SettleFuture(s, u))
  {
  }

  lemma SettleWakes(s: State, u: nat)
    requires Wakes(s) && FreshInv(s)
    ensures Wakes(SettleFuture(s, u)) && FreshInv(SettleFuture(s, u))
  {
    hide WaitInv, ReadyInv, PendingInv, IdleInv, FutureInv, ParkedInv, JobInv, OwnerInv, DeadlineInv, FreshInv, LogInv;
    SettleFresh(s, u);
    if u in s.futures && !s.futures[u].done {
      SettleKeepsReady(s.fibers, s.futures, s.ready, u);
      SettleKeepsFutures(s.fibers, s.futures, u);
    }
  }

  lemma JobSettleOther(fibers: Fibers, futures: map<nat, Future>, current: Option<nat>, u: nat)
    requires JobInv(fibers, futures, current) && u in futures && !futures[u].pooled
    ensures JobInv(fibers, futures[u := futures[u].(done := true, waiters := [])], current)
  {
  }

  lemma SettleKeeps(s: State, u: nat)
    requires Inv(s) && u in s.futures && !s.futures[u].pooled
    ensures Inv(SettleFuture(s, u))
  {
    hide WaitInv, ReadyInv, PendingInv, IdleInv, FutureInv, ParkedInv, JobInv, OwnerInv, DeadlineInv, FreshInv, LogInv;
    SettleWakes(s, u);
    JobSettleOther(s.fibers, s.futures, s.current, u);
  }

  lemma DisarmDeadlines(deadlines: map<nat, nat>, deadlineOf: map<nat, nat>, r: nat)
    requires DeadlineInv(deadlines, deadlineOf)
    ensures r in deadlineOf ==> DeadlineInv(deadlines - {deadlineOf[r]}, deadlineOf - {r})
    ensures r !in deadlineOf ==> forall op :: op in deadlines ==> deadlines[op] != r
  {
  }

  lemma ArmDeadlines(deadlines: map<nat, nat>, deadlineOf: map<nat, nat>, op: nat, r: nat)
    requires DeadlineInv(deadlines, deadlineOf) && r !in deadlineOf && op !in deadlines
    ensures DeadlineInv(deadlines[op := r], deadlineOf[r := op])
  {
  }

  lemma IdFresh(s: State, n: nat)
    requires FreshInv(s)
    ensures FreshInv(s.(nextId := s.nextId + n))
    ensures n > 0 ==> FreshInv(s.(live := s.live + {s.nextId}, nextId := s.nextId + n))
  {
  }

  lemma DisarmKeeps(s: State, r: nat)
    requires Inv(s)
    ensures Inv(Disarm(s, r))
  {
    hide WaitInv, ReadyInv, PendingInv, IdleInv, FutureInv, ParkedInv, JobInv, OwnerInv, DeadlineInv, FreshInv, LogInv;
    var t := if r in s.deadlineOf then DisarmQuietly(s, r) else s;
    FreshSame(s, t);
    IdFresh(t, 1);
    DisarmDeadlines(s.deadlines, s.deadlineOf, r);
  }

  /** The two arrays without the request's deadline. */
  function DisarmQuietly(s: State, r: nat): State
    requires r in s.deadlineOf
  {
    s.(deadlines := s.deadlines - {s.deadlineOf[r]}, deadlineOf := s.deadlineOf - {r})
  }

  lemma DisarmQuietlyKeeps(s: State, r: nat)
    requires Inv(s) && r in s.deadlineOf
    ensures Inv(DisarmQuietly(s, r))
  {
    hide WaitInv, ReadyInv, PendingInv, IdleInv, FutureInv, ParkedInv, JobInv, OwnerInv, DeadlineInv, FreshInv, LogInv;
    FreshSame(s, DisarmQuietly(s, r));
    DisarmDeadlines(s.deadlines, s.deadlineOf, r);
  }

  lemma DeadlineFresh(s: State, r: nat)
    requires FreshInv(s)
    ensures s.nextId !in s.deadlines
    ensures FreshInv(s.(deadlines := s.deadlines[s.nextId := r], deadlineOf := s.deadlineOf[r := s.nextId],
                        live := s.live + {s.nextId}, nextId := s.nextId + 1, timers := s.timers + [Armed(s.nextId, r)]))
  {
  }

  lemma ArmKeeps(s: State, r: nat)
    requires Inv(s)
    ensures Inv(Arm(s, r))
  {
    hide WaitInv, ReadyInv, PendingInv, IdleInv, FutureInv, ParkedInv, JobInv, OwnerInv, DeadlineInv, FreshInv, LogInv;
    DisarmKeeps(s, r);
    DeadlineFresh(Disarm(s, r), r);
    ArmDeadlines(Disarm(s, r).deadlines, Disarm(s, r).deadlineOf, Disarm(s, r).nextId, r);
  }

  lemma ScopeKeeps(s: State, f: nat, scope: Option<nat>)
    requires Runs(s, f)
    ensures Inv(s.(fibers := s.fibers[f := s.fibers[f].(scope := scope)]))
  {
    hide WaitInv, ReadyInv, PendingInv, IdleInv, FutureInv, ParkedInv, JobInv, OwnerInv, DeadlineInv, FreshInv, LogInv;
    RunsFacts(s, f);
    var fb := s.fibers[f].(scope := scope);
    FreshSame(s, s.(fibers := s.fibers[f := fb]));
    OtherTables(s, f, fb, {});
    JobMove(s.fibers, s.futures, s.current, f, fb, s.current);
    OwnerMove(s.fibers, s.children, s.requestFibers, f, fb);
  }

  lemma ForgetKeeps(s: State, f: nat, r: nat)
    requires Runs(s, f)
    ensures Runs(Forget(s, f, r), f)
  {
    hide WaitInv, ReadyInv, PendingInv, IdleInv, FutureInv, ParkedInv, JobInv, OwnerInv, DeadlineInv, FreshInv, LogInv;
    ScopeKeeps(s, f, None);
    var t := s.(fibers := s.fibers[f := s.fibers[f].(scope := None)]);
    DisarmKeeps(t, r);
    OwnerForget(t.fibers, t.children, t.requestFibers, r);
    assert Forget(s, f, r) ==
      Disarm(t, r).(requestFibers := s.requestFibers - {r}, children := s.children - {r}, timers := s.timers + [CalledOff(r)]);
    FreshSame(Disarm(t, r), Forget(s, f, r));
  }

  lemma ReleaseKeeps(s: State, f: nat, r: nat)
    requires Runs(s, f) && s.fibers[f].job.Some? && s.fibers[f].job.value.handles == Some(r)
    ensures var t := ReleaseRequest(s, f, r);
      Runs(t, f) && t.fibers[f].job == s.fibers[f].job && forall q :: q in t.requestFibers ==> t.requestFibers[q] != f
  {
    var (gate, admitted) := Admission.Release(s.gate, r);
    ForgetKeeps(s, f, r);
    var t := Forget(s, f, r).(gate := gate);
    assert Runs(t, f);
    SpawnHandlersKeep(t, admitted);
    SpawnHandlersUndisturbed(t, admitted, f);
    RunsFacts(t, f);
  }

  /** A fiber that is not the running one stays where it is, and keeps its job unless it rests in the pool. */
  ghost predicate Undisturbed(s: State, t: State, g: nat)
  {
    && g in s.fibers && g in t.fibers && t.fibers[g].at == s.fibers[g].at
    && (s.fibers[g].at != Idle ==> t.fibers[g].job == s.fibers[g].job)
  }

  lemma SpawnUndisturbed(s: State, req: Option<nat>, handles: Option<nat>, g: nat)
    requires Inv(s) && g in s.fibers
    ensures Undisturbed(s, Spawn(s, req, handles), g)
  {
    hide WaitInv, ReadyInv, PendingInv, IdleInv, FutureInv, ParkedInv, JobInv, OwnerInv, DeadlineInv, FreshInv, LogInv;
    if s.idle != [] {
      IdleFacts(s);
    } else {
      WithFutureFresh(s, true);
      CreateFresh(WithFuture(s, true), JobFor(s, req, handles));
    }
  }

  lemma {:induction false} SpawnHandlersUndisturbed(s: State, ids: seq<nat>, g: nat)
    requires Inv(s) && g in s.fibers
    ensures Undisturbed(s, SpawnHandlers(s, ids), g)
    decreases |ids|
  {
    hide Inv;
    if ids != [] {
      SpawnUndisturbed(s, None, Some(ids[0]), g);
      SpawnKeeps(s, None, Some(ids[0]));
      SpawnHandlersUndisturbed(Spawn(s, None, Some(ids[0])), ids[1..], g);
    }
  }

  lemma RetireWakes(s: State, f: nat, req: Option<nat>)
    requires Wakes(s) && FreshInv(s) && f in s.fibers && s.fibers[f].at == Running
    ensures Wakes(Retire(s, f, req)) && FreshInv(Retire(s, f, req))
  {
    hide WaitInv, ReadyInv, PendingInv, IdleInv, FutureInv, ParkedInv, JobInv, OwnerInv, DeadlineInv, FreshInv, LogInv;
    var fb := s.fibers[f].(at := Idle, job := None, left := s.fibers[f].scope);
    FreshSame(s, Retire(s, f, req));
    OtherTables(s, f, fb, {IdlePool});
    IdleEnter(s.fibers, s.idle, f, fb);
  }

  /** Settle the job's future, forget the child, join the pool: the books balance again at the end. */
  lemma SettleAndRetireKeeps(s: State, f: nat)
    requires Runs(s, f) && s.fibers[f].job.Some? && forall q :: q in s.requestFibers ==> s.requestFibers[q] != f
    ensures var t := SettleFuture(s, s.fibers[f].job.value.future);
      f in t.fibers && Inv(Retire(t, f, s.fibers[f].job.value.req))
  {
    hide WaitInv, ReadyInv, PendingInv, IdleInv, FutureInv, ParkedInv, JobInv, OwnerInv, DeadlineInv, FreshInv, LogInv;
    RunsFacts(s, f);
    JobFacts(s, f);
    var job := s.fibers[f].job.value;
    var fb := s.fibers[f].(at := Idle, job := None, left := s.fibers[f].scope);
    SettleWakes(s, job.future);
    RetireWakes(SettleFuture(s, job.future), f, job.req);
    JobRetire(s.fibers, s.futures, f, fb);
    OwnerRetire(s, f, fb);
  }

  lemma JobFacts(s: State, f: nat)
    requires Inv(s) && f in s.fibers && s.fibers[f].job.Some?
    ensures var u := s.fibers[f].job.value.future; u in s.futures && !s.futures[u].done && s.futures[u].pooled
    ensures s.fibers[f].job.value.handles.None? ==> forall q :: q in s.requestFibers ==> s.requestFibers[q] != f
  {
  }

  /** The end of a job: its result is settled, its fiber is the last to join the pool, and all tables agree. */
  lemma FinishKeeps(s: State, f: nat)
    requires Runs(s, f) && s.fibers[f].job.Some?
    ensures var t, u := FinishJob(s, f), s.fibers[f].job.value.future;
      && Inv(t) && u in t.futures && t.futures[u].done
      && f in t.fibers && t.fibers[f].at == Idle && t.fibers[f].job == None && t.idle != [] && t.idle[|t.idle| - 1] == f
  {
    hide Inv, ReleaseRequest, SettleFuture, Retire;
    var job := s.fibers[f].job.value;
    JobFacts(s, f);
    if job.handles.Some? {
      ReleaseKeeps(s, f, job.handles.value);
    }
    var t := if job.handles.Some? then ReleaseRequest(s, f, job.handles.value) else s;
    JobFacts(t, f);
    SettleAndRetireKeeps(t, f);
    NowSettled(t, job.future);
    Retired(SettleFuture(t, job.future), f, job.req);
  }

  lemma NowSettled(s: State, u: nat)
    requires u in s.futures
    ensures var t := SettleFuture(s, u); u in t.futures && t.futures[u].done && t.fibers == s.fibers
  {
  }

  lemma Retired(s: State, f: nat, req: Option<nat>)
    requires f in s.fibers
    ensures var t := Retire(s, f, req);
      && t.futures == s.futures && f in t.fibers && t.fibers[f].at == Idle && t.fibers[f].job == None
      && t.idle != [] && t.idle[|t.idle| - 1] == f
  {
  }

  lemma SubmitKeeps(s: State)
    requires Inv(s)
    ensures Inv(SubmitOp(s))
  {
    hide WaitInv, ReadyInv, PendingInv, IdleInv, FutureInv, ParkedInv, JobInv, OwnerInv, DeadlineInv, FreshInv, LogInv;
    IdFresh(s, 1);
  }

  // ---------------------------------------------------------------- user code

  lemma PerformKeeps(s: State, f: nat, act: Act)
    requires Runs(s, f) && s.fibers[f].job.Some?
    ensures Inv(Perform(s, f, act))
  {
    hide Inv;
    var scope := s.fibers[f].scope;
    assert Inv(s);
    match act
    case Async => SpawnKeeps(s, scope, None);
    case Submit => SubmitKeeps(s);
    case Sleep => ParkOnKeeps(s, f);
    case Await(fut) => AwaitKeeps(s, f, fut);
    case Block(extra) => ParkInCKeeps(s, f, extra);
    case NewFuture => WithFutureKeeps(s, false);
    case Settle(fut) => if fut in s.futures && !s.futures[fut].pooled { SettleKeeps(s, fut); }
    case Deadline => if scope.Some? { ArmKeeps(s, scope.value); }
    case LeaveScope => ScopeKeeps(s, f, None);
    case Finish => FinishKeeps(s, f);
  }

  lemma ScriptKeeps(s: State, script: seq<Act>)
    requires Inv(s)
    ensures Inv(s.(script := script))
  {
    hide WaitInv, ReadyInv, PendingInv, IdleInv, FutureInv, ParkedInv, JobInv, OwnerInv, DeadlineInv, FreshInv, LogInv;
    ScriptFresh(s, script);
  }

  lemma ScriptFresh(s: State, script: seq<Act>)
    requires FreshInv(s)
    ensures FreshInv(s.(script := script))
  {
  }

  /** Arbitrary user code keeps every table. */
  lemma {:induction false} UserKeeps(s: State)
    requires Inv(s)
    ensures Inv(RunUser(s))
    decreases |s.script|
  {
    hide Inv;
    if Active(s) {
      var t := s.(script := s.script[1..]);
      ScriptKeeps(s, s.script[1..]);
      PerformKeeps(t, s.current.value, s.script[0]);
      var u := Perform(t, s.current.value, s.script[0]);
      if |u.script| < |s.script| {
        UserKeeps(u);
      }
    }
  }

  // ---------------------------------------------------------------- control transfers

  lemma LogSnoc(log: seq<Delivery>, d: Delivery)
    requires LogInv(log) && Matches(d)
    ensures LogInv(log + [d])
  {
  }

  lemma OwnerBegin(fibers: Fibers, children: map<nat, seq<nat>>, requestFibers: map<nat, nat>, f: nat, fb: Fiber)
    requires OwnerInv(fibers, children, requestFibers) && f in fibers && fb.job.Some? && fb.job == fibers[f].job
    ensures OwnerInv(fibers[f := fb], children,
                     if fb.job.value.handles.Some? then requestFibers[fb.job.value.handles.value := f] else requestFibers)
  {
  }

  ghost function BegunFiber(s: State, f: nat, job: Job): Fiber
    requires f in s.fibers
  {
    Begin(s, f, job).fibers[f]
  }

  lemma StartKeeps(s: State)
    requires Inv(s) && AtLoop(s) && s.pending != []
    ensures var w := s.pending[0];
      && w.fiber in s.fibers && w.value.GiveJob?
      && var t := Start(s.(pending := s.pending[1..]), w.fiber, w.value.job); Inv(t) && t.current == Some(w.fiber)
  {
    hide WaitInv, ReadyInv, PendingInv, IdleInv, FutureInv, ParkedInv, JobInv, OwnerInv, DeadlineInv, FreshInv, LogInv;
    var w, t := s.pending[0], s.(pending := s.pending[1..]);
    PendingLeave(s.fibers, s.pending, Fiber(Running, None, None, None));
    var fb := BegunFiber(s, w.fiber, w.value.job);
    PendingLeave(s.fibers, s.pending, fb);
    OtherTables(s, w.fiber, fb, {Pending});
    JobMove(s.fibers, s.futures, s.current, w.fiber, fb, Some(w.fiber));
    OwnerBegin(s.fibers, s.children, s.requestFibers, w.fiber, fb);
    LogSnoc(s.log, Started(w.fiber, Fresh, w.value.job, s.fibers[w.fiber].scope));
    FreshSame(s, Start(t, w.fiber, w.value.job));
  }

  lemma ReadyFacts(s: State)
    requires Inv(s) && s.ready != []
    ensures var w := s.ready[0];
      && w.fiber in s.fibers && Owed(s.fibers[w.fiber], s.futures) == Some(w.value)
  {
    assert s.ready[0] in s.ready;
  }

  lemma TakeJobKeeps(s: State)
    requires Inv(s) && AtLoop(s) && s.ready != [] && s.ready[0].fiber in s.fibers && s.fibers[s.ready[0].fiber].at == Idle
    ensures var w := s.ready[0];
      var t := Resume(s.(ready := s.ready[1..]), w.fiber, w.value); Inv(t) && t.current == Some(w.fiber)
  {
    hide WaitInv, ReadyInv, PendingInv, IdleInv, FutureInv, ParkedInv, JobInv, OwnerInv, DeadlineInv, FreshInv, LogInv;
    var w, t := s.ready[0], s.(ready := s.ready[1..]);
    ReadyFacts(s);
    var fb := BegunFiber(s, w.fiber, w.value.job);
    OtherTables(s, w.fiber, fb, {Ready});
    ReadyLeave(s.fibers, s.futures, s.ready, fb);
    JobMove(s.fibers, s.futures, s.current, w.fiber, fb, Some(w.fiber));
    OwnerBegin(s.fibers, s.children, s.requestFibers, w.fiber, fb);
    LogSnoc(s.log, Resumed(w.fiber, Idle, false, w.value, s.fibers[w.fiber].scope));
    FreshSame(s, Resume(t, w.fiber, w.value));
  }

  lemma WakeWaiterKeeps(s: State)
    requires Inv(s) && AtLoop(s) && s.ready != [] && s.ready[0].fiber in s.fibers && s.fibers[s.ready[0].fiber].at != Idle
    ensures var w := s.ready[0];
      var t := Resume(s.(ready := s.ready[1..]), w.fiber, w.value); Inv(t) && t.current == Some(w.fiber)
  {
    hide WaitInv, ReadyInv, PendingInv, IdleInv, FutureInv, ParkedInv, JobInv, OwnerInv, DeadlineInv, FreshInv, LogInv;
    var w, t := s.ready[0], s.(ready := s.ready[1..]);
    ReadyFacts(s);
    var fb := s.fibers[w.fiber].(at := Running);
    JobOf(s, w.fiber);
    OtherTables(s, w.fiber, fb, {Ready, Futures});
    ReadyLeave(s.fibers, s.futures, s.ready, fb);
    FutureLeave(s.fibers, s.futures, w.fiber, fb);
    JobMove(s.fibers, s.futures, s.current, w.fiber, fb, Some(w.fiber));
    OwnerMove(s.fibers, s.children, s.requestFibers, w.fiber, fb);
    LogSnoc(s.log, Resumed(w.fiber, s.fibers[w.fiber].at, true, w.value, s.fibers[w.fiber].scope));
    FreshSame(s, Resume(t, w.fiber, w.value));
  }

  lemma JobOf(s: State, f: nat)
    requires Inv(s) && f in s.fibers && s.fibers[f].at != Idle
    ensures s.fibers[f].job.Some?
  {
  }

  /** Leaving a userland park, by completion or by a throw: both tables forget the fiber. */
  lemma LeaveOpKeeps(s: State, f: nat, d: Delivery)
    requires Inv(s) && AtLoop(s) && f in s.fibers && s.fibers[f].at.OnOp? && Matches(d)
    ensures var t := Unwind(s.(waiting := s.waiting - {s.fibers[f].at.op}, log := s.log + [d]), f);
      Inv(t) && t.current == Some(f)
    ensures f in s.parkedOn && s.parkedOn[f] == s.fibers[f].at.op
  {
    hide WaitInv, ReadyInv, PendingInv, IdleInv, FutureInv, ParkedInv, JobInv, OwnerInv, DeadlineInv, FreshInv, LogInv;
    var fb := s.fibers[f].(at := Running);
    JobOf(s, f);
    WaitLeave(s.fibers, s.waiting, s.parkedOn, f, fb);
    OtherTables(s, f, fb, {Waiting});
    JobMove(s.fibers, s.futures, s.current, f, fb, Some(f));
    OwnerMove(s.fibers, s.children, s.requestFibers, f, fb);
    LogSnoc(s.log, d);
    FreshSame(s, Unwind(s.(waiting := s.waiting - {s.fibers[f].at.op}, log := s.log + [d]), f));
  }

  /** Leaving a C park takes every key of the await along. */
  lemma LeaveCKeeps(s: State, f: nat, fired: set<nat>, d: Delivery)
    requires Inv(s) && AtLoop(s) && f in s.fibers && s.fibers[f].at.InC? && fired <= s.fibers[f].at.ops && Matches(d)
    ensures var t := Unwind(s.(parked := s.parked - fired, log := s.log + [d]), f); Inv(t) && t.current == Some(f)
  {
    hide WaitInv, ReadyInv, PendingInv, IdleInv, FutureInv, ParkedInv, JobInv, OwnerInv, DeadlineInv, FreshInv, LogInv;
    var fb := s.fibers[f].(at := Running);
    JobOf(s, f);
    ParkedLeave(s.fibers, s.parked, f, fb, fired);
    OtherTables(s, f, fb, {Parked});
    JobMove(s.fibers, s.futures, s.current, f, fb, Some(f));
    OwnerMove(s.fibers, s.children, s.requestFibers, f, fb);
    LogSnoc(s.log, d);
    FreshSame(s, Unwind(s.(parked := s.parked - fired, log := s.log + [d]), f));
  }
}
