/**
 The reload turn: workers that notice a new generation, take one of the reload slots and come back, and
 the threads that wake them.  One access to GENERATION, RELOADING, RESET_GENERATION, the registry or a
 mailbox a step.
 */
module Reload {
  import opened Prelude

  /** Where a worker stands in its turn of the loop. */
  datatype Pc =
    | Booting                    // registered; `$watchGeneration` not read yet
    | Booted                     // read it; about to call ignis_watch_end_reload()
    | Turning                    // about to compare generations
    | Stale                      // found a newer one; about to ask for a slot
    | Polling                    // about to enter ignis_poll(-1)
    | Asleep
    | Leaving                    // got the slot: stops accepting and winds down

  /** `own` is `$watchGeneration`; `mail` counts the completions waiting in its channel. */
  datatype Worker = Worker(pc: Pc, own: nat, mail: nat, registered: bool)

  /** A thread on its way to wake everybody, or in the middle of it. */
  datatype Waker = Changed | Freed | Calling(todo: set<nat>) | Finished

  datatype State = State(
    generation: nat,
    away: nat,                   // RELOADING
    workers: map<nat, Worker>,
    wakers: map<nat, Waker>,
    holders: set<nat>            // workers that took a slot and whose successor has not said it is up
  )

  datatype Step =
    | Change(waker: nat)                           // GENERATION.fetch_add: a settled save, or a signal
    | Join(worker: nat)                            // a fresh incarnation registers its reactor
    | ReadOwn(worker: nat)
    | EndReload(worker: nat, waker: nat)           // RELOADING.fetch_update(saturating_sub)
    | CheckWake(waker: nat)                        // end_reload's `GENERATION > 0`
    | Lock(waker: nat)                             // wake_all takes the registry
    | Inject(waker: nat, worker: nat)
    | Compare(worker: nat)
    | BeginReload(worker: nat)
    | Sleep(worker: nat)                           // poll finds the channel empty, or drains it
    | WakeUp(worker: nat)
    | Traffic(worker: nat)                         // any other completion
    | Leave(worker: nat)                           // out of dispatch
    | Crash(worker: nat)

  /** wake_all holds the registry's lock while it goes through the reactors. */
  predicate Unlocked(s: State)
  {
    forall t :: t in s.wakers && s.wakers[t].Calling? ==> s.wakers[t].todo == {}
  }

  predicate Is(s: State, w: nat, pc: Pc)
  {
    w in s.workers && s.workers[w].pc == pc
  }

  predicate Enabled(s: State, step: Step)
  {
    match step
    case Change(t) => t !in s.wakers
    case Join(w) => Unlocked(s) && (w !in s.workers || !s.workers[w].registered)
    case ReadOwn(w) => Is(s, w, Booting)
    case EndReload(w, t) => Is(s, w, Booted) && t !in s.wakers
    case CheckWake(t) => t in s.wakers && s.wakers[t] == Freed
    case Lock(t) => t in s.wakers && s.wakers[t] == Changed && Unlocked(s)
    case Inject(t, w) => t in s.wakers && s.wakers[t].Calling? && w in s.wakers[t].todo && w in s.workers
    case Compare(w) => Is(s, w, Turning)
    case BeginReload(w) => Is(s, w, Stale)
    case Sleep(w) => Is(s, w, Polling)
    case WakeUp(w) => Is(s, w, Asleep) && s.workers[w].mail > 0
    case Traffic(w) => w in s.workers
    case Leave(w) => Is(s, w, Leaving) && Unlocked(s)
    case Crash(w) => w in s.workers && Unlocked(s)
  }

  function At(s: State, w: nat, pc: Pc): State
    requires w in s.workers
  {
    s.(workers := s.workers[w := s.workers[w].(pc := pc)])
  }

  function Registered(s: State): set<nat>
  {
    set w | w in s.workers && s.workers[w].registered
  }

  function SaturatingSub(n: nat): nat
  {
    if n == 0 then 0 else n - 1
  }

  function Next(s: State, step: Step, limit: nat): State
    requires Enabled(s, step)
  {
    match step
    case Change(t) => s.(generation := s.generation + 1, wakers := s.wakers[t := Changed])
    case Join(w) => s.(workers := s.workers[w := Worker(Booting, 0, 0, true)])
    case ReadOwn(w) => s.(workers := s.workers[w := s.workers[w].(pc := Booted, own := s.generation)])
    case EndReload(w, t) =>
      At(s, w, Turning).(away := SaturatingSub(s.away), wakers := s.wakers[t := Freed], holders := s.holders - {w})
    case CheckWake(t) => s.(wakers := s.wakers[t := if s.generation > 0 then Changed else Finished])
    case Lock(t) => s.(wakers := s.wakers[t := Calling(Registered(s))])
    case Inject(t, w) =>
      s.(workers := s.workers[w := s.workers[w].(mail := s.workers[w].mail + 1)],
         wakers := s.wakers[t := Calling(s.wakers[t].todo - {w})])
    case Compare(w) => At(s, w, if s.generation > s.workers[w].own then Stale else Polling)
    case BeginReload(w) =>
      if s.away < limit then At(s, w, Leaving).(away := s.away + 1, holders := s.holders + {w}) else At(s, w, Polling)
    case Sleep(w) =>
      if s.workers[w].mail > 0 then s.(workers := s.workers[w := s.workers[w].(pc := Turning, mail := 0)]) else At(s, w, Asleep)
    case WakeUp(w) => s.(workers := s.workers[w := s.workers[w].(pc := Turning, mail := 0)])
    case Traffic(w) => s.(workers := s.workers[w := s.workers[w].(mail := s.workers[w].mail + 1)])
    case Leave(w) => s.(workers := s.workers[w := s.workers[w].(registered := false)])
    case Crash(w) => s.(workers := s.workers - {w})
  }

  function Initial(): State
  {
    State(0, 0, map[], map[], {})
  }

  function Run(limit: nat, steps: seq<Step>): State
  {
    if steps == [] then Initial()
    else
      var t, last := Run(limit, steps[..|steps| - 1]), steps[|steps| - 1];
      if Enabled(t, last) then Next(t, last, limit) else t
  }

  // ---------------------------------------------------------------- no lost turn

  /** A thread between its counter update and this worker's turn in its wake_all. */
  ghost predicate WakeComing(s: State, w: nat)
  {
    exists t :: t in s.wakers && Reaches(s, s.wakers[t], w)
  }

  predicate Reaches(s: State, waker: Waker, w: nat)
  {
    match waker
    case Changed => true
    case Freed => s.generation > 0
    case Calling(todo) => w in todo
    case Finished => false
  }

  predicate Settled(pc: Pc)
  {
    pc.Polling? || pc.Asleep?
  }

  /** Why a worker may rest: it is up to date, about to be woken, or no slot is free. */
  ghost predicate MayRest(s: State, w: nat, limit: nat)
  {
    w in s.workers && s.workers[w].registered && Settled(s.workers[w].pc) ==>
      s.workers[w].mail > 0 || s.workers[w].own >= s.generation || s.away >= limit || WakeComing(s, w)
  }

  /** Only an injection into w ends a wake that was coming for it, and w cannot be unlisted under the lock. */
  lemma ComingStays(s: State, step: Step, limit: nat, w: nat)
    requires Enabled(s, step) && WakeComing(s, w)
    ensures var t := Next(s, step, limit);
      WakeComing(t, w) || (step.Inject? && step.worker == w) || w !in t.workers || !t.workers[w].registered
  {
    var k :| k in s.wakers && Reaches(s, s.wakers[k], w);
    var t := Next(s, step, limit);
    if k in t.wakers && Reaches(t, t.wakers[k], w) {
      assert WakeComing(t, w);
    }
  }

  lemma RestStep(s: State, step: Step, limit: nat, w: nat)
    requires Enabled(s, step) && MayRest(s, w, limit)
    ensures MayRest(Next(s, step, limit), w, limit)
  {
    var t := Next(s, step, limit);
    if WakeComing(s, w) {
      ComingStays(s, step, limit, w);
    }
    if step.Change? || step.EndReload? {
      assert step.waker in t.wakers;
      assert t.generation > 0 ==> WakeComing(t, w);
    }
  }

  lemma {:induction false} RunKeeps(limit: nat, steps: seq<Step>, w: nat)
    ensures MayRest(Run(limit, steps), w, limit)
  {
    hide Next, Enabled, MayRest;
    if steps == [] {
      NobodyThere(limit, w);
    } else {
      var t, last := Run(limit, steps[..|steps| - 1]), steps[|steps| - 1];
      RunKeeps(limit, steps[..|steps| - 1], w);
      if Enabled(t, last) {
        RestStep(t, last, limit, w);
      }
    }
  }

  lemma NobodyThere(limit: nat, w: nat)
    ensures MayRest(Initial(), w, limit)
  {
  }

  /**
   No reload turn is lost: under every schedule a worker asleep in poll on an empty channel with old
   code has a wake coming, or every slot is taken.
   */
  lemma NoLostTurn(limit: nat, steps: seq<Step>, w: nat)
    requires var s := Run(limit, steps);
      Is(s, w, Asleep) && s.workers[w].registered && s.workers[w].mail == 0 && s.workers[w].own < s.generation
    ensures Run(limit, steps).away >= limit || WakeComing(Run(limit, steps), w)
  {
    RunKeeps(limit, steps, w);
  }

  /** RELOADING never leaves 0..limit. */
  lemma {:induction false} CounterInRange(limit: nat, steps: seq<Step>)
    ensures Run(limit, steps).away <= limit
  {
    if steps != [] {
      CounterInRange(limit, steps[..|steps| - 1]);
    }
  }

  // ---------------------------------------------------------------- what the counter means

  /** RELOADING counts the workers that are away. */
  predicate Exact(s: State)
  {
    s.away == |s.holders|
  }

  /** A worker that never took a slot, say a first boot or the successor of a crash, gives one back. */
  predicate GivesAwayAnothers(s: State, step: Step)
  {
    step.EndReload? && step.worker !in s.holders && s.away > 0
  }

  /** Ids of workers that hold a slot are away: a successor gives it back before it can take one again. */
  predicate HoldersAway(s: State)
  {
    forall w :: w in s.holders ==> w !in s.workers || s.workers[w].pc in {Booting, Booted, Leaving}
  }

  lemma HoldersStep(s: State, step: Step, limit: nat)
    requires Enabled(s, step) && HoldersAway(s)
    ensures HoldersAway(Next(s, step, limit))
  {
  }

  lemma {:induction false} HoldersRun(limit: nat, steps: seq<Step>)
    ensures HoldersAway(Run(limit, steps))
  {
    hide Next, Enabled, HoldersAway;
    if steps == [] {
      NoHolders();
    } else {
      var t, last := Run(limit, steps[..|steps| - 1]), steps[|steps| - 1];
      HoldersRun(limit, steps[..|steps| - 1]);
      if Enabled(t, last) {
        HoldersStep(t, last, limit);
      }
    }
  }

  lemma NoHolders()
    ensures HoldersAway(Initial())
  {
  }

  /**
   `end_reload` gives back a slot whoever calls it.  A counter that is exact stays exact precisely when
   the step is not a boot that gives away another worker's slot.
   */
  lemma ExactUnlessGivenAway(s: State, step: Step, limit: nat)
    requires Enabled(s, step) && Exact(s) && HoldersAway(s)
    ensures Exact(Next(s, step, limit)) <==> !GivesAwayAnothers(s, step)
  {
    if step.EndReload? {
      var w := step.worker;
      if w in s.holders {
        assert |s.holders| == |s.holders - {w}| + 1;
      } else {
        assert s.holders - {w} == s.holders;
      }
    }
  }

  /** Nobody in this run gives away a slot it does not hold. */
  predicate NoneGivenAway(limit: nat, steps: seq<Step>)
  {
    forall k :: 0 <= k < |steps| && Enabled(Run(limit, steps[..k]), steps[k]) ==> !GivesAwayAnothers(Run(limit, steps[..k]), steps[k])
  }

  /** Then at most `limit` workers are ever away at once. */
  lemma {:induction false} AtMostLimitAway(limit: nat, steps: seq<Step>)
    requires NoneGivenAway(limit, steps)
    ensures Exact(Run(limit, steps)) && |Run(limit, steps).holders| <= limit
  {
    hide Next, Enabled, GivesAwayAnothers;
    CounterInRange(limit, steps);
    if steps != [] {
      var n := |steps| - 1;
      forall k | 0 <= k < n && Enabled(Run(limit, steps[..n][..k]), steps[..n][k])
        ensures !GivesAwayAnothers(Run(limit, steps[..n][..k]), steps[..n][k])
      {
        assert steps[..n][..k] == steps[..k];
      }
      AtMostLimitAway(limit, steps[..n]);
      HoldersRun(limit, steps[..n]);
      var t := Run(limit, steps[..n]);
      if Enabled(t, steps[n]) {
        ExactUnlessGivenAway(t, steps[n], limit);
      }
    }
  }

  lemma RunSnoc(limit: nat, steps: seq<Step>, last: Step)
    requires Enabled(Run(limit, steps), last)
    ensures Run(limit, steps + [last]) == Next(Run(limit, steps), last, limit)
  {
    assert (steps + [last])[..|steps|] == steps;
  }

  /** A worker boots: it reads the generation and says it is up. */
  lemma BootRun(limit: nat, steps: seq<Step>, w: nat, waker: nat)
    requires var s := Run(limit, steps); w !in s.workers && waker !in s.wakers && Unlocked(s)
    ensures var s, t := Run(limit, steps), Run(limit, steps + [Join(w), ReadOwn(w), EndReload(w, waker)]);
      && t.generation == s.generation && t.away == SaturatingSub(s.away) && t.holders == s.holders - {w}
      && t.workers == s.workers[w := Worker(Turning, s.generation, 0, true)] && t.wakers == s.wakers[waker := Freed]
  {
    var a, b := steps + [Join(w)], steps + [Join(w)] + [ReadOwn(w)];
    RunSnoc(limit, steps, Join(w));
    RunSnoc(limit, a, ReadOwn(w));
    RunSnoc(limit, b, EndReload(w, waker));
    assert steps + [Join(w), ReadOwn(w), EndReload(w, waker)] == b + [EndReload(w, waker)];
    assert Run(limit, b).workers[w] == Worker(Booted, Run(limit, steps).generation, 0, true);
  }

  /** The generation grows, and a worker that is not away notices and takes a free slot. */
  lemma ReloadRun(limit: nat, steps: seq<Step>, w: nat, waker: nat)
    requires var s := Run(limit, steps); Is(s, w, Turning) && s.workers[w].own <= s.generation && s.away < limit && waker !in s.wakers
    ensures var s, t := Run(limit, steps), Run(limit, steps + [Change(waker), Compare(w), BeginReload(w)]);
      && t.generation == s.generation + 1 && t.away == s.away + 1 && t.holders == s.holders + {w}
      && t.workers == s.workers[w := s.workers[w].(pc := Leaving)] && t.wakers == s.wakers[waker := Changed]
  {
    var a, b := steps + [Change(waker)], steps + [Change(waker)] + [Compare(w)];
    RunSnoc(limit, steps, Change(waker));
    RunSnoc(limit, a, Compare(w));
    RunSnoc(limit, b, BeginReload(w));
    assert steps + [Change(waker), Compare(w), BeginReload(w)] == b + [BeginReload(w)];
  }

  /** Otherwise the bound fails: with one slot, a worker that boots while another reloads lets a second one go. */
  lemma TwoAwayWithOneSlot()
    ensures exists steps :: |Run(1, steps).holders| == 2 && Run(1, steps).away == 1
  {
    BootRun(1, [], 0, 100);
    var a := [] + [Join(0), ReadOwn(0), EndReload(0, 100)];
    ReloadRun(1, a, 0, 101);
    var b := a + [Change(101), Compare(0), BeginReload(0)];
    BootRun(1, b, 1, 102);
    var c := b + [Join(1), ReadOwn(1), EndReload(1, 102)];
    ReloadRun(1, c, 1, 103);
    var d := c + [Change(103), Compare(1), BeginReload(1)];
    assert Run(1, d).holders == {0, 1} && Run(1, d).away == 1;
  }

  // ---------------------------------------------------------------- one reset per generation

  /** RESET_GENERATION and the claims under way: each has read GENERATION and not yet called fetch_max. */
  datatype Claims = Claims(generation: nat, reset: nat, reading: map<nat, nat>, granted: seq<nat>)

  datatype ClaimStep = Grow | Read(thread: nat) | FetchMax(thread: nat)

  function Claim(c: Claims, step: ClaimStep): Claims
  {
    match step
    case Grow => c.(generation := c.generation + 1)
    case Read(t) => c.(reading := c.reading[t := c.generation])
    case FetchMax(t) =>
      if t !in c.reading then c
      else c.(reset := Max(c.reset, c.reading[t]), reading := c.reading - {t},
              granted := if c.reset < c.reading[t] then c.granted + [c.reading[t]] else c.granted)
  }

  function ClaimRun(steps: seq<ClaimStep>): Claims
  {
    if steps == [] then Claims(0, 0, map[], []) else Claim(ClaimRun(steps[..|steps| - 1]), steps[|steps| - 1])
  }

  /** Resets are granted for strictly growing generations: at most one each, however the claims interleave. */
  lemma {:induction false} OneResetPerGeneration(steps: seq<ClaimStep>)
    ensures var c := ClaimRun(steps);
      && (forall i, j :: 0 <= i < j < |c.granted| ==> c.granted[i] < c.granted[j])
      && (forall i :: 0 <= i < |c.granted| ==> 0 < c.granted[i] <= c.reset <= c.generation)
      && c.reset <= c.generation && (forall t :: t in c.reading ==> c.reading[t] <= c.generation)
      && (if c.granted == [] then c.reset == 0 else c.reset == c.granted[|c.granted| - 1])
  {
    if steps != [] {
      OneResetPerGeneration(steps[..|steps| - 1]);
    }
  }
}
