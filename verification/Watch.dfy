/**
 The waker of the development reload: event handlers and waker tasks interleaving over LAST_EVENT,
 WAKE_SCHEDULED and GENERATION, one atomic access a step.  The tokio runtime is there before any file is
 watched.
 */
module Watch {
  import opened Prelude

  /** Where one call of `schedule_wake`, or the task it spawned, stands. */
  datatype Pc =
    | Swapping                 // a handler that has stored its event, or a task scheduling anew
    | Arming                   // took WAKE_SCHEDULED; the task is not spawned yet
    | Sleeping                 // the settle window
    | Loaded(last: nat)
    | Settled(last: nat)       // about to compare-and-swap
    | Bumping                  // took LAST_EVENT; GENERATION not bumped yet
    | Waking
    | Releasing
    | Rechecking
    | Gone

  datatype Mark = Stored | Bumped

  datatype State = State(
    last: nat,                 // LAST_EVENT
    scheduled: bool,           // WAKE_SCHEDULED
    generation: nat,
    procs: map<nat, Pc>,
    history: seq<Mark>,
    wakes: nat                 // how often wake_all() has been called
  )

  datatype Step = Event(proc: nat, at: nat) | Go(proc: nat, now: nat)

  function Initial(): State
  {
    State(0, false, 0, map[], [], 0)
  }

  predicate Enabled(s: State, step: Step)
  {
    match step
    case Event(p, at) => p !in s.procs && at > 0
    case Go(p, _) => p in s.procs && s.procs[p] != Gone
  }

  function At(s: State, p: nat, pc: Pc): State
  {
    s.(procs := s.procs[p := pc])
  }

  function Next(s: State, step: Step, settle: nat): State
    requires Enabled(s, step)
  {
    match step
    case Event(p, at) => At(s, p, Swapping).(last := at, history := s.history + [Stored])
    case Go(p, now) =>
      match s.procs[p]
      case Swapping => At(s, p, if s.scheduled then Gone else Arming).(scheduled := true)
      case Arming => At(s, p, Sleeping)
      case Sleeping => At(s, p, Loaded(s.last))
      case Loaded(last) =>
        At(s, p, if last == 0 then Releasing else if now - last >= settle then Settled(last) else Sleeping)
      case Settled(last) => if s.last == last then At(s, p, Bumping).(last := 0) else At(s, p, Sleeping)
      case Bumping => At(s, p, Waking).(generation := s.generation + 1, history := s.history + [Bumped])
      case Waking => At(s, p, Releasing).(wakes := s.wakes + 1)
      case Releasing => At(s, p, Rechecking).(scheduled := false)
      case Rechecking => At(s, p, if s.last != 0 then Swapping else Gone)
      case Gone => s
  }

  /** Any schedule; a step that is not enabled when its turn comes does nothing. */
  function Run(settle: nat, steps: seq<Step>): State
  {
    if steps == [] then Initial()
    else
      var t, last := Run(settle, steps[..|steps| - 1]), steps[|steps| - 1];
      if Enabled(t, last) then Next(t, last, settle) else t
  }

  // ---------------------------------------------------------------- invariant

  /** Between taking WAKE_SCHEDULED and giving it back. */
  predicate Holds(pc: Pc)
  {
    !(pc.Swapping? || pc.Rechecking? || pc.Gone?)
  }

  /** WAKE_SCHEDULED is set exactly while one process holds it. */
  ghost predicate OneHolder(s: State)
  {
    && (s.scheduled <==> exists p :: p in s.procs && Holds(s.procs[p]))
    && (forall p, q :: p in s.procs && q in s.procs && Holds(s.procs[p]) && Holds(s.procs[q]) ==> p == q)
  }

  ghost predicate SomeoneLeft(s: State)
  {
    exists p :: p in s.procs && s.procs[p] != Gone
  }

  predicate IsBumping(s: State, p: nat)
  {
    p in s.procs && s.procs[p] == Bumping
  }

  predicate BumpedAfter(h: seq<Mark>, i: nat)
  {
    exists j :: i < j < |h| && h[j] == Bumped
  }

  /** Every save in the history is followed by a bump of GENERATION. */
  predicate AllBumped(h: seq<Mark>)
  {
    forall i :: 0 <= i < |h| && h[i] == Stored ==> BumpedAfter(h, i)
  }

  function Bumps(h: seq<Mark>): nat
  {
    if h == [] then 0 else Bumps(h[..|h| - 1]) + if h[|h| - 1] == Bumped then 1 else 0
  }

  /** No save waits without somebody left to see it: a waker, a handler about to swap, or a task about to re-check. */
  ghost predicate Covered(s: State)
  {
    s.last != 0 ==> SomeoneLeft(s)
  }

  ghost predicate Owed(s: State)
  {
    AllBumped(s.history) || s.last != 0 || exists p :: IsBumping(s, p)
  }

  ghost predicate Inv(s: State)
  {
    && OneHolder(s)
    && Covered(s)
    && Owed(s)
    && (forall p :: p in s.procs && s.procs[p].Settled? ==> s.procs[p].last != 0)
    && s.generation == Bumps(s.history)
  }

  /** What a step does to the flag and to its own process, seen by who holds the flag. */
  lemma HolderMove(s: State, step: Step, settle: nat)
    requires Enabled(s, step) && (step.proc in s.procs && Holds(s.procs[step.proc]) ==> s.scheduled)
    ensures var t, p := Next(s, step, settle), step.proc;
      var held := p in s.procs && Holds(s.procs[p]);
      && p in t.procs
      && (forall q :: q != p ==> (q in s.procs <==> q in t.procs) && (q in s.procs ==> t.procs[q] == s.procs[q]))
      && (held ==> (Holds(t.procs[p]) <==> t.scheduled))
      && (!held ==> if Holds(t.procs[p]) then t.scheduled && !s.scheduled else t.scheduled == s.scheduled)
  {
  }

  lemma HolderStep(s: State, step: Step, settle: nat)
    requires Enabled(s, step) && OneHolder(s)
    ensures OneHolder(Next(s, step, settle))
  {
    hide Next, Enabled, Holds;
    HolderMove(s, step, settle);
    var t, p := Next(s, step, settle), step.proc;
    if s.scheduled {
      var h :| h in s.procs && Holds(s.procs[h]);
      assert h != p ==> h in t.procs && Holds(t.procs[h]);
    }
  }

  lemma CoveredStep(s: State, step: Step, settle: nat)
    requires Enabled(s, step) && Covered(s) && OneHolder(s)
    ensures Covered(Next(s, step, settle))
  {
    var t, p := Next(s, step, settle), step.proc;
    assert forall q :: q in s.procs && q != p ==> q in t.procs && t.procs[q] == s.procs[q];
    if s.scheduled {
      var h :| h in s.procs && Holds(s.procs[h]);
      assert h != p ==> t.procs[h] != Gone;
    }
    assert p in t.procs && (t.procs[p] != Gone ==> SomeoneLeft(t));
  }

  lemma OwedStep(s: State, step: Step, settle: nat)
    requires Enabled(s, step) && Owed(s)
    ensures Owed(Next(s, step, settle))
  {
    var t, p := Next(s, step, settle), step.proc;
    assert forall q :: IsBumping(s, q) && q != p ==> IsBumping(t, q);
    if step.Go? && s.procs[p] == Bumping {
      assert t.history[|s.history|] == Bumped;
      assert forall i :: 0 <= i < |t.history| && t.history[i] == Stored ==> i < |s.history| && BumpedAfter(t.history, i);
    } else if step.Go? && s.procs[p].Settled? && s.last == s.procs[p].last {
      assert IsBumping(t, p);
    }
  }

  lemma BumpsSnoc(h: seq<Mark>, m: Mark)
    ensures Bumps(h + [m]) == Bumps(h) + if m == Bumped then 1 else 0
  {
    assert (h + [m])[..|h|] == h;
  }

  lemma StepKeeps(s: State, step: Step, settle: nat)
    requires Enabled(s, step) && Inv(s)
    ensures Inv(Next(s, step, settle))
  {
    hide OneHolder, Covered, Owed, Bumps, SomeoneLeft;
    HolderStep(s, step, settle);
    CoveredStep(s, step, settle);
    OwedStep(s, step, settle);
    BumpsSnoc(s.history, Bumped);
    BumpsSnoc(s.history, Stored);
  }

  lemma {:induction false} RunKeeps(settle: nat, steps: seq<Step>)
    ensures Inv(Run(settle, steps))
  {
    if steps != [] {
      RunKeeps(settle, steps[..|steps| - 1]);
      var t, last := Run(settle, steps[..|steps| - 1]), steps[|steps| - 1];
      if Enabled(t, last) {
        StepKeeps(t, last, settle);
      }
    }
  }

  // ---------------------------------------------------------------- what a schedule guarantees

  /** Under every schedule at most one waker is in its loop, and an unseen save always has somebody left to see it. */
  lemma OneWaker(settle: nat, steps: seq<Step>)
    ensures var s := Run(settle, steps);
      && (forall p, q :: p in s.procs && q in s.procs && Holds(s.procs[p]) && Holds(s.procs[q]) ==> p == q)
      && (s.last != 0 ==> SomeoneLeft(s))
  {
    RunKeeps(settle, steps);
  }

  ghost predicate Quiet(s: State)
  {
    forall p :: p in s.procs ==> s.procs[p] == Gone
  }

  /** No save is lost: when every handler and task has finished, each save was followed by a bump. */
  lemma NoSaveIsLost(settle: nat, steps: seq<Step>)
    requires Quiet(Run(settle, steps))
    ensures var s := Run(settle, steps);
      && s.last == 0 && !s.scheduled && AllBumped(s.history) && (s.history != [] ==> s.generation > 0)
  {
    var s := Run(settle, steps);
    RunKeeps(settle, steps);
    if s.history != [] {
      FirstMark(settle, steps);
      assert BumpedAfter(s.history, 0);
      var j :| 0 < j < |s.history| && s.history[j] == Bumped;
      BumpCounts(s.history, j);
    }
  }

  lemma {:induction false} BumpCounts(h: seq<Mark>, j: nat)
    requires j < |h| && h[j] == Bumped
    ensures Bumps(h) > 0
  {
    if j < |h| - 1 {
      BumpCounts(h[..|h| - 1], j);
    }
  }

  /** A bump needs a save before it: the history starts with one. */
  ghost predicate SavesFirst(s: State)
  {
    && (s.history != [] ==> s.history[0] == Stored)
    && (s.history == [] ==> s.last == 0 && forall p :: !IsBumping(s, p))
    && (forall p :: p in s.procs && s.procs[p].Settled? ==> s.procs[p].last != 0)
  }

  lemma {:induction false} FirstMark(settle: nat, steps: seq<Step>)
    ensures SavesFirst(Run(settle, steps))
  {
    if steps != [] {
      FirstMark(settle, steps[..|steps| - 1]);
      var t, last := Run(settle, steps[..|steps| - 1]), steps[|steps| - 1];
      if Enabled(t, last) {
        FirstMarkStep(t, last, settle);
      }
    }
  }

  lemma FirstMarkStep(s: State, step: Step, settle: nat)
    requires Enabled(s, step) && SavesFirst(s)
    ensures SavesFirst(Next(s, step, settle))
  {
    var t := Next(s, step, settle);
    assert s.history == [] ==> !IsBumping(s, step.proc);
    forall q | t.history == [] ensures !IsBumping(t, q) {
      assert s.history == [] && !IsBumping(s, q);
      assert step.Go? && s.procs[step.proc].Settled? ==> s.procs[step.proc].last != 0 == s.last;
    }
  }

  // ---------------------------------------------------------------- what a bump waits for

  /** Step k of the schedule looked at the clock for p and found its save at least `settle` old. */
  ghost predicate LookedAt(settle: nat, steps: seq<Step>, k: nat, p: nat, last: nat)
  {
    && k < |steps| && steps[k].Go? && steps[k].proc == p && steps[k].now - last >= settle
    && p in Run(settle, steps[..k]).procs && Run(settle, steps[..k]).procs[p] == Loaded(last)
  }

  lemma {:induction false} SettledHasLooked(settle: nat, steps: seq<Step>, p: nat, last: nat)
    requires var s := Run(settle, steps); p in s.procs && s.procs[p] == Settled(last)
    ensures exists k: nat :: LookedAt(settle, steps, k, p, last)
  {
    hide Run;
    if steps == [] {
      RunNothing(settle);
    } else {
      var n := |steps| - 1;
      var front := steps[..n];
      RunSnoc(settle, steps);
      BecomesSettled(Run(settle, front), steps[n], settle, p, last);
      if p in Run(settle, front).procs && Run(settle, front).procs[p] == Settled(last) {
        SettledHasLooked(settle, front, p, last);
        var k: nat :| LookedAt(settle, front, k, p, last);
        assert front[..k] == steps[..k];
        assert LookedAt(settle, steps, k, p, last);
      } else {
        assert LookedAt(settle, steps, n, p, last);
      }
    }
  }

  lemma RunNothing(settle: nat)
    ensures Run(settle, []) == Initial()
  {
  }

  lemma RunSnoc(settle: nat, steps: seq<Step>)
    requires steps != []
    ensures var t, last := Run(settle, steps[..|steps| - 1]), steps[|steps| - 1];
      Run(settle, steps) == if Enabled(t, last) then Next(t, last, settle) else t
  {
  }

  /** Only a look at the clock settles a process. */
  lemma BecomesSettled(s: State, step: Step, settle: nat, p: nat, last: nat)
    requires var t := if Enabled(s, step) then Next(s, step, settle) else s; p in t.procs && t.procs[p] == Settled(last)
    ensures p in s.procs
    ensures s.procs[p] == Settled(last)
            || (s.procs[p] == Loaded(last) && step.Go? && step.proc == p && step.now - last >= settle)
  {
  }

  /**
   GENERATION is bumped only for a save that had been left alone for the settle time: under every schedule, whoever
   has taken LAST_EVENT looked at the clock before, found that save old enough, and took it while it was still the
   newest.
   */
  lemma {:induction false} BumpHasSettled(settle: nat, steps: seq<Step>, p: nat)
    requires IsBumping(Run(settle, steps), p)
    ensures exists k: nat, m: nat, last: nat ::
      && k < m < |steps| && LookedAt(settle, steps, k, p, last)
      && steps[m].Go? && steps[m].proc == p && last > 0 && Run(settle, steps[..m]).last == last
  {
    hide Run;
    if steps == [] {
      RunNothing(settle);
    } else {
      var n := |steps| - 1;
      var front := steps[..n];
      RunSnoc(settle, steps);
      if IsBumping(Run(settle, front), p) {
        BumpHasSettled(settle, front, p);
        var k: nat, m: nat, last: nat :|
          && k < m < |front| && LookedAt(settle, front, k, p, last)
          && front[m].Go? && front[m].proc == p && last > 0 && Run(settle, front[..m]).last == last;
        assert front[..k] == steps[..k] && front[..m] == steps[..m];
        assert LookedAt(settle, steps, k, p, last);
      } else {
        RunKeeps(settle, front);
        var last := BecomesBumping(Run(settle, front), steps[n], settle, p);
        SettledHasLooked(settle, front, p, last);
        var k: nat :| LookedAt(settle, front, k, p, last);
        assert front[..k] == steps[..k];
        assert LookedAt(settle, steps, k, p, last);
      }
    }
  }

  lemma BecomesBumping(s: State, step: Step, settle: nat, p: nat) returns (last: nat)
    requires Inv(s) && !IsBumping(s, p) && IsBumping(if Enabled(s, step) then Next(s, step, settle) else s, p)
    ensures step.Go? && step.proc == p && p in s.procs && s.procs[p] == Settled(last) && s.last == last && last > 0
  {
    last := s.last;
  }

  /** Each bump is followed by a wake of everybody who waits for it. */
  lemma EachBumpWakes(settle: nat, steps: seq<Step>)
    requires Quiet(Run(settle, steps))
    ensures Run(settle, steps).wakes == Run(settle, steps).generation
  {
    RunWakes(settle, steps);
  }

  predicate IsWaking(s: State, p: nat)
  {
    p in s.procs && s.procs[p] == Waking
  }

  ghost predicate WakesCount(s: State)
  {
    s.generation == s.wakes + if exists p :: IsWaking(s, p) then 1 else 0
  }

  lemma {:induction false} RunWakes(settle: nat, steps: seq<Step>)
    ensures WakesCount(Run(settle, steps))
  {
    hide Run, Inv, WakesCount;
    if steps == [] {
      RunNothing(settle);
      NobodyWakes();
    } else {
      var front := steps[..|steps| - 1];
      RunSnoc(settle, steps);
      RunKeeps(settle, front);
      RunWakes(settle, front);
      if Enabled(Run(settle, front), steps[|steps| - 1]) {
        WakesStep(Run(settle, front), steps[|steps| - 1], settle);
      }
    }
  }

  lemma NobodyWakes()
    ensures WakesCount(Initial())
  {
    assert forall p :: !IsWaking(Initial(), p);
  }

  lemma WakesStep(s: State, step: Step, settle: nat)
    requires Enabled(s, step) && Inv(s) && WakesCount(s)
    ensures WakesCount(Next(s, step, settle))
  {
    hide Covered, Owed, Bumps;
    var t, p := Next(s, step, settle), step.proc;
    assert forall q :: q != p ==> (IsWaking(t, q) <==> IsWaking(s, q));
    assert forall q :: IsWaking(s, q) && p in s.procs && Holds(s.procs[p]) ==> q == p;
    if IsWaking(t, p) {
      assert exists q :: IsWaking(t, q);
    }
    if IsWaking(s, p) {
      assert exists q :: IsWaking(s, q);
    }
  }

  /** A waker that finds no save and is not disturbed gives the flag back and is gone, however long it takes over it. */
  lemma IdleWakerStops(settle: nat, steps: seq<Step>, p: nat, now: nat)
    requires var s := Run(settle, steps); p in s.procs && s.procs[p] == Loaded(0) && s.last == 0
    ensures var t := Run(settle, steps + [Go(p, now)] + [Go(p, now)] + [Go(p, now)]);
      && t.procs == Run(settle, steps).procs[p := Gone] && !t.scheduled && t.last == 0
      && t.history == Run(settle, steps).history
  {
    hide Run;
    var go := Go(p, now);
    var one, two, three := steps + [go], steps + [go] + [go], steps + [go] + [go] + [go];
    assert one[..|one| - 1] == steps && two[..|two| - 1] == one && three[..|three| - 1] == two;
    RunSnoc(settle, one);
    RunSnoc(settle, two);
    RunSnoc(settle, three);
    var s := Run(settle, steps);
    assert Run(settle, one) == At(s, p, Releasing);
    assert Run(settle, two) == At(At(s, p, Releasing), p, Rechecking).(scheduled := false);
  }
}
