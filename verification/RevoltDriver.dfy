/**
 The Revolt driver's one-shot watches: `$pendingWatch` leads from an op on the reactor to a callback,
 `$watchOf` from a callback to its op.
 */
module RevoltDriver {
  import opened Prelude

  datatype State = State(
    callbacks: set<nat>,                 // $streamCallbacks: enabled stream callbacks
    open: set<nat>,                      // callbacks whose stream is still a resource
    pendingWatch: map<nat, nat>,
    watchOf: map<nat, nat>,
    nextOp: nat,
    onReactor: set<nat>,                 // watches the reactor has not completed
    queue: seq<nat>                      // enqueueCallback
  )

  datatype Event =
    | Activate(callback: nat)
    | Deactivate(callback: nat)
    | Rearm                              // the first loop of dispatch()
    | Complete(op: nat)                  // one entry of ignis_poll()'s array
    | Fail(op: nat)                      // an error completion: ignis_poll() lists none
    | Close(callback: nat)               // the stream is closed under the callback

  function Initial(open: set<nat>): State
  {
    State({}, open, map[], map[], 1, {}, [])
  }

  function Arm(s: State, c: nat): State
  {
    if c in s.watchOf || c !in s.open then s
    else s.(pendingWatch := s.pendingWatch[s.nextOp := c], watchOf := s.watchOf[c := s.nextOp],
            onReactor := s.onReactor + {s.nextOp}, nextOp := s.nextOp + 1)
  }

  function ArmAll(s: State, cs: seq<nat>): State
  {
    if cs == [] then s else Arm(ArmAll(s, cs[..|cs| - 1]), cs[|cs| - 1])
  }

  function Drop(s: State, c: nat): State
  {
    var t := s.(callbacks := s.callbacks - {c});
    if c !in s.watchOf then t
    else t.(pendingWatch := s.pendingWatch - {s.watchOf[c]}, watchOf := s.watchOf - {c})
  }

  function Finish(s: State, op: nat): State
  {
    var t := s.(onReactor := s.onReactor - {op});
    if op !in s.pendingWatch then t
    else
      var c := s.pendingWatch[op];
      var u := t.(pendingWatch := s.pendingWatch - {op}, watchOf := s.watchOf - {c});
      if c in s.callbacks then u.(queue := s.queue + [c]) else u
  }

  /** The order in which `dispatch` walks the enabled callbacks is an input. */
  function Next(s: State, e: Event, order: seq<nat>): State
  {
    match e
    case Activate(c) => Arm(s.(callbacks := s.callbacks + {c}), c)
    case Deactivate(c) => Drop(s, c)
    case Rearm => ArmAll(s, order)
    case Complete(op) => Finish(s, op)
    case Fail(op) => s.(onReactor := s.onReactor - {op})
    case Close(c) => s.(open := s.open - {c})
  }

  predicate Enabled(s: State, e: Event, order: seq<nat>)
  {
    match e
    case Rearm => forall c :: c in order ==> c in s.callbacks
    case Complete(op) => op in s.onReactor
    case Fail(op) => op in s.onReactor
    case _ => true
  }

  /** The two maps are inverse, and only enabled callbacks have a watch. */
  ghost predicate Inv(s: State)
  {
    && (forall op :: op in s.pendingWatch ==> op < s.nextOp && s.pendingWatch[op] in s.watchOf && s.watchOf[s.pendingWatch[op]] == op)
    && (forall c :: c in s.watchOf ==> c in s.callbacks && s.watchOf[c] in s.pendingWatch && s.pendingWatch[s.watchOf[c]] == c)
    && (forall op :: op in s.onReactor ==> op < s.nextOp)
  }

  lemma ArmKeeps(s: State, c: nat)
    requires Inv(s) && c in s.callbacks
    ensures Inv(Arm(s, c)) && Arm(s, c).callbacks == s.callbacks && Arm(s, c).open == s.open && Arm(s, c).queue == s.queue
    ensures forall d :: d in s.watchOf ==> d in Arm(s, c).watchOf && Arm(s, c).watchOf[d] == s.watchOf[d]
    ensures c in s.open ==> c in Arm(s, c).watchOf
  {
  }

  lemma {:induction false} ArmAllKeeps(s: State, cs: seq<nat>)
    requires Inv(s) && forall c :: c in cs ==> c in s.callbacks
    ensures var t := ArmAll(s, cs);
      && Inv(t) && t.callbacks == s.callbacks && t.open == s.open && t.queue == s.queue
      && (forall d :: d in s.watchOf ==> d in t.watchOf && t.watchOf[d] == s.watchOf[d])
      && (forall c :: c in cs && c in s.open ==> c in t.watchOf)
  {
    if cs != [] {
      hide Arm, Inv;
      assert forall c :: c in cs[..|cs| - 1] ==> c in cs;
      ArmAllKeeps(s, cs[..|cs| - 1]);
      ArmKeeps(ArmAll(s, cs[..|cs| - 1]), cs[|cs| - 1]);
      assert forall c :: c in cs ==> c in cs[..|cs| - 1] || c == cs[|cs| - 1];
    }
  }

  lemma StepKeeps(s: State, e: Event, order: seq<nat>)
    requires Inv(s) && Enabled(s, e, order)
    ensures Inv(Next(s, e, order))
  {
    match e {
      case Activate(c) => ArmKeeps(s.(callbacks := s.callbacks + {c}), c);
      case Rearm => ArmAllKeeps(s, order);
      case _ =>
    }
    hide Arm, ArmAll;
  }

  type Schedule = seq<(Event, seq<nat>)>

  function Run(open: set<nat>, events: Schedule): State
  {
    if events == [] then Initial(open)
    else
      var s, (e, order) := Run(open, events[..|events| - 1]), events[|events| - 1];
      if Enabled(s, e, order) then Next(s, e, order) else s
  }

  lemma {:induction false} RunKeeps(open: set<nat>, events: Schedule)
    ensures Inv(Run(open, events))
  {
    hide Next, Enabled;
    if events != [] {
      var s := Run(open, events[..|events| - 1]);
      var (e, order) := events[|events| - 1];
      RunKeeps(open, events[..|events| - 1]);
      if Enabled(s, e, order) {
        StepKeeps(s, e, order);
      }
    }
  }

  /**
   After any events: the maps are inverse, so a callback has at most one outstanding watch, and only an
   enabled callback has one.
   */
  lemma OneWatchEach(open: set<nat>, events: Schedule)
    ensures var s := Run(open, events);
      && (forall op, c :: (op in s.pendingWatch && s.pendingWatch[op] == c) <==> (c in s.watchOf && s.watchOf[c] == op))
      && (forall c :: c in s.watchOf ==> c in s.callbacks)
  {
    RunKeeps(open, events);
    hide Run;
  }

  /** A completion enqueues exactly the enabled callback whose current watch it is, and nothing otherwise. */
  lemma OnlyTheCurrentWatchFires(open: set<nat>, events: Schedule, op: nat)
    ensures var s := Run(open, events);
      && (forall c :: c in s.watchOf && s.watchOf[c] == op ==> Finish(s, op).queue == s.queue + [c] && c in s.callbacks)
      && ((forall c :: c in s.watchOf ==> s.watchOf[c] != op) ==> Finish(s, op) == s.(onReactor := s.onReactor - {op}))
  {
    RunKeeps(open, events);
    hide Run;
  }

  /** A watch that was cancelled or has been replaced stays dead, whatever happens later: its late completion finds nobody. */
  lemma StaleStaysStale(s: State, e: Event, order: seq<nat>, op: nat)
    requires Inv(s) && Enabled(s, e, order) && op < s.nextOp && op !in s.pendingWatch
    ensures op < Next(s, e, order).nextOp && op !in Next(s, e, order).pendingWatch
  {
    if e.Rearm? {
      ArmAllKeepsStale(s, order, op);
    }
    hide ArmAll;
  }

  lemma {:induction false} ArmAllKeepsStale(s: State, cs: seq<nat>, op: nat)
    requires op < s.nextOp && op !in s.pendingWatch
    ensures op < ArmAll(s, cs).nextOp && op !in ArmAll(s, cs).pendingWatch
  {
    if cs != [] {
      ArmAllKeepsStale(s, cs[..|cs| - 1], op);
    }
  }

  /** Deactivating makes the callback's watch stale at once. */
  lemma DeactivateStales(s: State, c: nat)
    requires Inv(s) && c in s.watchOf
    ensures s.watchOf[c] !in Drop(s, c).pendingWatch && s.watchOf[c] < s.nextOp
  {
  }

  /** A callback that is off: not enabled, and without a watch. */
  predicate Off(s: State, c: nat)
  {
    c !in s.callbacks && c !in s.watchOf
  }

  lemma {:induction false} ArmAllLeavesOff(s: State, cs: seq<nat>, c: nat)
    requires Off(s, c) && c !in cs
    ensures Off(ArmAll(s, cs), c) && ArmAll(s, cs).queue == s.queue
  {
    if cs != [] {
      ArmAllLeavesOff(s, cs[..|cs| - 1], c);
    }
  }

  lemma OffStep(s: State, e: Event, order: seq<nat>, c: nat)
    requires Inv(s) && Enabled(s, e, order) && Off(s, c) && e != Activate(c)
    ensures var t := Next(s, e, order); Off(t, c) && (t.queue == s.queue || exists d :: d != c && t.queue == s.queue + [d])
  {
    if e.Rearm? {
      ArmAllLeavesOff(s, order, c);
    }
    hide ArmAll;
  }

  /**
   Over any further events, a deactivated callback is neither armed nor enqueued before it is activated again,
   however its old watch completes.
   */
  lemma {:induction false} DeactivatedIsLeftAlone(open: set<nat>, events: Schedule, more: Schedule, c: nat)
    requires forall k :: 0 <= k < |more| ==> more[k].0 != Activate(c)
    ensures var s, t := Run(open, events), Run(open, events + [(Deactivate(c), [])] + more);
      && Off(t, c) && s.queue <= t.queue && c !in t.queue[|s.queue|..]
  {
    hide Next, Enabled, Inv, Off;
    var off := events + [(Deactivate(c), [])];
    if more == [] {
      assert off + more == off && off[..|events|] == events;
      RunKeeps(open, events);
      DropsOff(Run(open, events), c);
    } else {
      var front := more[..|more| - 1];
      var (e, order) := more[|more| - 1];
      assert (off + more)[..|off + more| - 1] == off + front;
      DeactivatedIsLeftAlone(open, events, front, c);
      var t := Run(open, off + front);
      RunKeeps(open, off + front);
      if Enabled(t, e, order) {
        OffStep(t, e, order, c);
      }
    }
  }

  lemma DropsOff(s: State, c: nat)
    requires Inv(s)
    ensures Enabled(s, Deactivate(c), []) && Off(Next(s, Deactivate(c), []), c) && Next(s, Deactivate(c), []).queue == s.queue
  {
  }

  /** A watch the reactor still has. */
  predicate Served(s: State, c: nat)
  {
    c in s.watchOf && s.watchOf[c] in s.onReactor
  }

  /** A watch the reactor is done with although the driver still waits for it: `ignis_poll` lists no error. */
  predicate Stranded(s: State, c: nat)
  {
    c in s.watchOf && s.watchOf[c] !in s.onReactor
  }

  lemma {:induction false} ArmAllStrandsNone(s: State, cs: seq<nat>, c: nat)
    requires Inv(s) && forall d :: d in cs ==> d in s.callbacks
    ensures Stranded(s, c) <==> Stranded(ArmAll(s, cs), c)
  {
    if cs != [] {
      var front := cs[..|cs| - 1];
      assert forall d :: d in front ==> d in cs;
      ArmAllKeeps(s, front);
      ArmAllStrandsNone(s, front, c);
      ArmStrandsNone(ArmAll(s, front), cs[|cs| - 1], c);
      hide Arm, Inv, Stranded;
    }
  }

  lemma ArmStrandsNone(s: State, d: nat, c: nat)
    requires Inv(s)
    ensures Stranded(s, c) <==> Stranded(Arm(s, d), c)
  {
    if c in s.watchOf {
      assert s.watchOf[c] in s.pendingWatch;
    }
  }

  // ---------------------------------------------------------------- watches that fail

  /** The watches that have completed with an error. */
  function FailedOps(open: set<nat>, events: Schedule): set<nat>
  {
    if events == [] then {}
    else
      var front, (e, order) := events[..|events| - 1], events[|events| - 1];
      FailedOps(open, front) + if e.Fail? && Enabled(Run(open, front), e, order) then {e.op} else {}
  }

  /** What the driver waits for is on the reactor or has failed. */
  ghost predicate FailInv(s: State, failed: set<nat>)
  {
    && (forall op :: op in s.pendingWatch ==> op in s.onReactor || op in failed)
    && (forall op :: op in failed ==> op < s.nextOp && op !in s.onReactor)
  }

  lemma ArmFails(s: State, c: nat, failed: set<nat>)
    requires FailInv(s, failed)
    ensures FailInv(Arm(s, c), failed)
  {
  }

  lemma {:induction false} ArmAllFails(s: State, cs: seq<nat>, failed: set<nat>)
    requires FailInv(s, failed)
    ensures FailInv(ArmAll(s, cs), failed)
  {
    if cs != [] {
      hide Arm, FailInv;
      ArmAllFails(s, cs[..|cs| - 1], failed);
      ArmFails(ArmAll(s, cs[..|cs| - 1]), cs[|cs| - 1], failed);
    }
  }

  lemma StepFails(s: State, e: Event, order: seq<nat>, failed: set<nat>)
    requires Inv(s) && Enabled(s, e, order) && FailInv(s, failed)
    ensures FailInv(Next(s, e, order), failed + if e.Fail? then {e.op} else {})
  {
    match e {
      case Activate(c) => ArmFails(s.(callbacks := s.callbacks + {c}), c, failed);
      case Rearm => ArmAllFails(s, order, failed);
      case _ =>
    }
    assert failed + {} == failed;
    hide Arm, ArmAll;
  }

  lemma {:induction false} RunFails(open: set<nat>, events: Schedule)
    ensures FailInv(Run(open, events), FailedOps(open, events))
  {
    hide Next, Enabled, FailInv, Inv;
    if events == [] {
      NothingFailed(open);
    } else {
      var front := events[..|events| - 1];
      var (e, order) := events[|events| - 1];
      RunFails(open, front);
      RunKeeps(open, front);
      if Enabled(Run(open, front), e, order) {
        StepFails(Run(open, front), e, order, FailedOps(open, front));
      } else {
        assert FailedOps(open, front) + {} == FailedOps(open, front);
      }
    }
  }

  lemma NothingFailed(open: set<nat>)
    ensures FailInv(Initial(open), {})
  {
  }

  /** Over every run, a callback waits for a watch the reactor has given up exactly if its current watch has failed. */
  lemma StrandedExactly(open: set<nat>, events: Schedule, c: nat)
    ensures var s := Run(open, events); Stranded(s, c) <==> c in s.watchOf && s.watchOf[c] in FailedOps(open, events)
  {
    RunFails(open, events);
    RunKeeps(open, events);
    hide Run, FailedOps;
  }

  /**
   Over every run, re-arming gives an enabled callback with an open stream a watch the reactor serves
   exactly unless the watch it has has failed.
   */
  lemma RearmServesExactly(open: set<nat>, events: Schedule, order: seq<nat>, c: nat)
    requires var s := Run(open, events); Enabled(s, Rearm, order) && c in order && c in s.open
    ensures var s := Run(open, events);
      Served(Next(s, Rearm, order), c) <==> !(c in s.watchOf && s.watchOf[c] in FailedOps(open, events))
  {
    var s := Run(open, events);
    RunKeeps(open, events);
    StrandedExactly(open, events, c);
    ArmAllKeeps(s, order);
    ArmAllStrandsNone(s, order, c);
    hide ArmAll, Run, FailedOps;
  }

  /** Only deactivating the callback ends its stranding; until then it keeps the dead watch and is enqueued by nothing. */
  lemma StrandedStep(s: State, e: Event, order: seq<nat>, c: nat)
    requires Inv(s) && Enabled(s, e, order) && Stranded(s, c)
    ensures var t := Next(s, e, order);
      && (Stranded(t, c) <==> e != Deactivate(c))
      && (Stranded(t, c) ==> t.watchOf[c] == s.watchOf[c])
      && (t.queue == s.queue || exists d :: d != c && t.queue == s.queue + [d])
  {
    match e {
      case Activate(d) => ArmStrandsNone(s.(callbacks := s.callbacks + {d}), d, c);
      case Rearm =>
        ArmAllStrandsNone(s, order, c);
        ArmAllKeeps(s, order);
      case _ =>
    }
    hide ArmAll;
  }

  /** Over any further events without a deactivation of the callback, a stranded one stays so and is never enqueued. */
  lemma {:induction false} StrandedUntilDeactivated(open: set<nat>, events: Schedule, more: Schedule, c: nat)
    requires Stranded(Run(open, events), c) && forall k :: 0 <= k < |more| ==> more[k].0 != Deactivate(c)
    ensures var s, t := Run(open, events), Run(open, events + more);
      && Stranded(t, c) && t.watchOf[c] == s.watchOf[c]
      && s.queue <= t.queue && c !in t.queue[|s.queue|..]
  {
    hide Next, Enabled, Stranded, Inv;
    if more == [] {
      assert events + more == events;
    } else {
      var front := more[..|more| - 1];
      var (e, order) := more[|more| - 1];
      assert (events + more)[..|events + more| - 1] == events + front;
      StrandedUntilDeactivated(open, events, front, c);
      var t := Run(open, events + front);
      RunKeeps(open, events + front);
      if Enabled(t, e, order) {
        StrandedStep(t, e, order, c);
      }
    }
  }

  /** Deactivated and activated again, the callback gets a new watch, which the reactor serves. */
  lemma ReactivatedIsServed(s: State, c: nat)
    requires Inv(s) && Stranded(s, c) && c in s.open
    ensures var t := Next(Next(s, Deactivate(c), []), Activate(c), []); Served(t, c) && t.watchOf[c] != s.watchOf[c]
  {
  }

  // ---------------------------------------------------------------- as the source writes it

  class IgnisDriver {
    var callbacks: set<nat>
    var open: set<nat>
    var pendingWatch: map<nat, nat>
    var watchOf: map<nat, nat>
    var nextOp: nat
    var onReactor: set<nat>
    var queue: seq<nat>

    ghost function Model(): State
      reads this
    {
      State(callbacks, open, pendingWatch, watchOf, nextOp, onReactor, queue)
    }

    constructor (streams: set<nat>)
      ensures Model() == Initial(streams)
    {
      callbacks, open, pendingWatch, watchOf, nextOp, onReactor, queue := {}, streams, map[], map[], 1, {}, [];
    }

    method ArmCallback(c: nat)
      modifies this`pendingWatch, this`watchOf, this`nextOp, this`onReactor
      ensures Model() == Arm(old(Model()), c)
    {
      if c in watchOf || c !in open {
        return;
      }
      var op := nextOp;
      nextOp := nextOp + 1;
      onReactor := onReactor + {op};
      pendingWatch := pendingWatch[op := c];
      watchOf := watchOf[c := op];
    }

    method ActivateAll(cs: seq<nat>)
      modifies this
      ensures Model() == Activated(old(Model()), cs)
    {
      for k := 0 to |cs|
        invariant Model() == Activated(old(Model()), cs[..k])
      {
        assert cs[..k + 1][..k] == cs[..k];
        callbacks := callbacks + {cs[k]};
        ArmCallback(cs[k]);
      }
      assert cs[..|cs|] == cs;
    }

    method DeactivateCallback(c: nat)
      modifies this`callbacks, this`pendingWatch, this`watchOf
      ensures Model() == Drop(old(Model()), c)
    {
      callbacks := callbacks - {c};
      if c in watchOf {
        var op := watchOf[c];
        pendingWatch := pendingWatch - {op};
        watchOf := watchOf - {c};
      }
    }

    /** Re-arms what has no watch, then hands each completion to its callback, if it still has one. */
    method Dispatch(order: seq<nat>, events: seq<nat>)
      requires Inv(Model()) && forall c :: c in order ==> c in callbacks
      modifies this
      ensures Inv(Model()) && Model() == FinishAll(ArmAll(old(Model()), order), events)
    {
      ArmAllKeeps(Model(), order);
      ghost var start := Model();
      for k := 0 to |order|
        invariant Model() == ArmAll(start, order[..k])
      {
        assert order[..k + 1][..k] == order[..k];
        ArmCallback(order[k]);
      }
      assert order[..|order|] == order;
      ghost var armed := Model();
      for k := 0 to |events|
        invariant Inv(Model()) && Model() == FinishAll(armed, events[..k])
      {
        assert events[..k + 1][..k] == events[..k];
        FinishOne(events[k]);
      }
      assert events[..|events|] == events;
    }

    method FinishOne(op: nat)
      requires Inv(Model())
      modifies this
      ensures Inv(Model()) && Model() == Finish(old(Model()), op)
    {
      onReactor := onReactor - {op};
      if op !in pendingWatch {
        return;                              // deactivated meanwhile, or not ours
      }
      var c := pendingWatch[op];
      pendingWatch := pendingWatch - {op};
      watchOf := watchOf - {c};
      if c in callbacks {
        queue := queue + [c];
      }
    }
  }

  function Activated(s: State, cs: seq<nat>): State
  {
    if cs == [] then s else Next(Activated(s, cs[..|cs| - 1]), Activate(cs[|cs| - 1]), [])
  }

  function FinishAll(s: State, ops: seq<nat>): State
  {
    if ops == [] then s else Finish(FinishAll(s, ops[..|ops| - 1]), ops[|ops| - 1])
  }
}
