/**
 Which of the requests a poll returns reach the gate.  The event array is keyed by id, so a cancellation
 polled in the same batch as its request takes the request's place in it.
 */
module Intake {
  import opened Prelude
  import opened Scheduler
  import opened SchedulerSafety
  import opened SchedulerRuns
  import opened GracefulStop
  import opened SchedulerSteps
  import opened Chronicle
  import Admission

  /** The requests among these completions, by the ids they are polled under; a run that is cut polls no further. */
  function Arrivals(s: State, cs: seq<Completion>): set<nat>
    decreases |cs|
  {
    if cs == [] || !AtLoop(s) then {}
    else (if cs[0].Arrived? then {s.nextId} else {}) + Arrivals(PollOne(s, [], cs[0]).0, cs[1..])
  }

  /** Those whose cancellation comes behind them in the same batch. */
  function Withdrawals(s: State, cs: seq<Completion>): set<nat>
    decreases |cs|
  {
    if cs == [] || !AtLoop(s) then {}
    else
      (if cs[0].Arrived? && Gone(s.nextId) in cs[1..] then {s.nextId} else {})
      + Withdrawals(PollOne(s, [], cs[0]).0, cs[1..])
  }

  /** Where a turn stands when it polls, and what it polls then. */
  function BeforePoll(s: State): State
  {
    ResumeReady(StartPending(s))
  }

  function Batch(s: State, cs: seq<Completion>): seq<Completion>
  {
    if BeforePoll(s).pending != [] || Cut(BeforePoll(s)) then [] else cs
  }

  /** Every request polled over these turns. */
  ghost function Delivered(s: State, feed: seq<seq<Completion>>): set<nat>
    decreases |feed|
  {
    if feed == [] then {}
    else Arrivals(BeforePoll(s), Batch(s, feed[0])) + Delivered(Turn(s, feed[0]), feed[1..])
  }

  /** Every request polled together with its cancellation. */
  ghost function Withdrawn(s: State, feed: seq<seq<Completion>>): set<nat>
    decreases |feed|
  {
    if feed == [] then {}
    else Withdrawals(BeforePoll(s), Batch(s, feed[0])) + Withdrawn(Turn(s, feed[0]), feed[1..])
  }

  // ---------------------------------------------------------------- the event array

  lemma ComingCons(e: Completion, rest: seq<Completion>)
    ensures Coming([e] + rest) == Coming(rest) + if e.Arrived? then {e.id} else {}
  {
    var events := [e] + rest;
    forall id | id in Coming(rest) ensures id in Coming(events) {
      var k :| 0 <= k < |rest| && rest[k].Arrived? && rest[k].id == id;
      assert events[k + 1] == rest[k];
    }
    assert events[0] == e;
    assert forall k :: 0 < k < |events| ==> events[k] == rest[k - 1];
  }

  lemma OrderlyTail(events: seq<Completion>)
    requires Orderly(events) && events != []
    ensures Orderly(events[1..]) && (events[0].Arrived? ==> events[0].id !in Coming(events[1..]))
  {
  }

  /** Putting a cancellation under an id takes the request with this id out, and no other. */
  lemma {:induction false} PutExactly(events: seq<Completion>, id: nat, e: Completion)
    requires Orderly(events) && !e.Arrived?
    ensures Coming(Put(events, id, e)) == Coming(events) - {id}
  {
    if events == [] {
      assert Coming([e]) == {};
    } else {
      var head, rest := events[0], events[1..];
      assert events == [head] + rest;
      OrderlyTail(events);
      ComingCons(head, rest);
      if head.Arrived? && head.id == id {
        ComingCons(e, rest);
      } else {
        PutExactly(rest, id, e);
        ComingCons(head, Put(rest, id, e));
      }
    }
  }

  /** The array fits the state: one entry for each request in it, whose client is still there and whose id is taken. */
  ghost predicate Fits(s: State, events: seq<Completion>)
  {
    Orderly(events) && forall id :: id in Coming(events) ==> id in s.requests && id < s.nextId
  }

  lemma AnyEvents(s: State, events: seq<Completion>, c: Completion)
    ensures PollOne(s, events, c).0 == PollOne(s, [], c).0
  {
    hide ResumeC, Put;
  }

  lemma OpIds(s: State, events: seq<Completion>, c: Completion)
    requires Inv(s) && AtLoop(s) && Fits(s, events) && (c.Done? || c.Fault?)
    ensures var (t, more) := PollOne(s, events, c);
      && Fits(t, more) && Coming(more) == Coming(events)
      && t.gate.arrived == s.gate.arrived && t.nextId >= s.nextId
  {
    hide Inv, ResumeC, Put, Coming, Orderly;
    PollOneTold(s, events, c, Seen(s.gate.arrived, s.requests, s.nextId));
    SnocKeeps(events, c);
  }

  lemma ArrivedIds(s: State, events: seq<Completion>, exempt: bool)
    requires Fits(s, events)
    ensures var more := events + [Arrived(s.nextId, exempt)];
      && Fits(s.(nextId := s.nextId + 1, requests := s.requests + {s.nextId}), more)
      && Coming(more) == Coming(events) + {s.nextId}
  {
    hide Coming, Orderly;
    SnocKeeps(events, Arrived(s.nextId, exempt));
  }

  lemma GoneIds(s: State, events: seq<Completion>, id: nat)
    requires Fits(s, events)
    ensures Fits(s.(requests := s.requests - {id}), Put(events, id, Gone(id)))
    ensures Coming(Put(events, id, Gone(id))) == Coming(events) - {id}
  {
    hide Coming, Orderly, Put;
    PutKeeps(events, id, Gone(id));
    PutExactly(events, id, Gone(id));
  }

  lemma RequestIds(s: State, events: seq<Completion>, c: Completion)
    requires AtLoop(s) && Fits(s, events) && (c.Arrived? || c.Gone?)
    ensures var (t, more) := PollOne(s, events, c);
      && Fits(t, more) && t.gate.arrived == s.gate.arrived && t.nextId == (if c.Arrived? then s.nextId + 1 else s.nextId)
      && Coming(more) == (if c.Arrived? then Coming(events) + {s.nextId} else Coming(events) - {c.id})
  {
    hide ResumeC, Put, Coming, Orderly, Fits;
    match c {
      case Arrived(_, exempt) => ArrivedIds(s, events, exempt);
      case Gone(id) =>
        GoneIds(s, events, id);
        FitsTaken(s, events);
    }
  }

  lemma CutPoll(s: State, events: seq<Completion>, cs: seq<Completion>)
    requires !AtLoop(s)
    ensures Poll(s, events, cs) == (s, events)
    decreases |cs|
  {
  }

  /** A request stays in the array exactly if its cancellation does not come behind it. */
  lemma {:induction false} PolledIds(s: State, events: seq<Completion>, cs: seq<Completion>)
    requires Inv(s) && Fits(s, events) && AtLoop(Poll(s, events, cs).0)
    ensures var (u, more) := Poll(s, events, cs);
      && (forall id :: id in Coming(more) <==>
            (id in Coming(events) && Gone(id) !in cs) || (id in Arrivals(s, cs) && id !in Withdrawals(s, cs)))
      && Withdrawals(s, cs) <= Arrivals(s, cs)
      && (forall id :: id in Arrivals(s, cs) ==> s.nextId <= id < u.nextId)
      && u.gate.arrived == s.gate.arrived && u.nextId >= s.nextId
    decreases |cs|
  {
    hide Inv, Fits, PollOne, Coming, Orderly;
    if cs != [] {
      var c, rest := cs[0], cs[1..];
      if !AtLoop(s) {
        CutPoll(s, events, cs);
        assert false;
      }
      var (t, more) := PollOne(s, events, c);
      AnyEvents(s, events, c);
      PollOneKeeps(s, events, c);
      FitsTaken(s, events);
      if c.Done? || c.Fault? {
        OpIds(s, events, c);
      } else {
        RequestIds(s, events, c);
      }
      PolledIds(t, more, rest);
      assert forall id :: Gone(id) in cs <==> c == Gone(id) || Gone(id) in rest;
    }
  }

  lemma FitsTaken(s: State, events: seq<Completion>)
    requires Fits(s, events)
    ensures forall id :: id in Coming(events) ==> id in s.requests && id < s.nextId
  {
  }

  // ---------------------------------------------------------------- dispatch

  lemma ArrivedSees(s: State, id: nat, exempt: bool)
    requires AtLoop(s)
    ensures var t := DispatchOne(s, Arrived(id, exempt)); t.gate.arrived == s.gate.arrived + {id} && t.nextId == s.nextId
  {
    hide Spawn;
    SpawnLog(s.(gate := Admission.Arrive(s.gate, id, exempt).0), None, Some(id));
  }

  lemma OtherSees(s: State, e: Completion)
    requires Inv(s) && !e.Arrived?
    ensures var t := DispatchOne(s, e); t.gate.arrived == s.gate.arrived && t.nextId >= s.nextId
  {
    hide Inv, DispatchOne;
    DispatchOneTold(s, e, Seen(s.gate.arrived, s.requests, s.nextId));
  }

  lemma CutDispatch(s: State, events: seq<Completion>)
    requires !AtLoop(s)
    ensures Dispatch(s, events) == s
    decreases |events|
  {
  }

  /** Dispatching shows the gate every request in the array. */
  lemma {:induction false} DispatchedIds(s: State, events: seq<Completion>)
    requires Inv(s) && AtLoop(Dispatch(s, events))
    ensures var t := Dispatch(s, events); t.gate.arrived == s.gate.arrived + Coming(events) && t.nextId >= s.nextId
    decreases |events|
  {
    hide Inv, DispatchOne, Coming;
    if events == [] {
      NothingComes();
    } else {
      var e, rest := events[0], events[1..];
      if !AtLoop(s) {
        CutDispatch(s, events);
        assert false;
      }
      DispatchOneKeeps(s, e);
      if e.Arrived? {
        ArrivedSees(s, e.id, e.exempt);
      } else {
        OtherSees(s, e);
      }
      DispatchedIds(DispatchOne(s, e), rest);
      assert events == [e] + rest;
      ComingCons(e, rest);
    }
  }

  lemma NothingComes()
    ensures Coming([]) == {} && Orderly([])
  {
  }

  // ---------------------------------------------------------------- turns

  lemma BeforePollSees(s: State)
    requires Inv(s)
    ensures var t := BeforePoll(s); Inv(t) && t.gate.arrived == s.gate.arrived && t.nextId >= s.nextId
  {
    hide Inv, StartPending, ResumeReady;
    var w := Seen(s.gate.arrived, s.requests, s.nextId);
    StartPendingKeeps(s);
    StartPendingTold(s, w);
    ResumeReadyKeeps(StartPending(s));
    ResumeReadyTold(StartPending(s), w);
  }

  /** What one completed turn shows the gate. */
  lemma TurnIds(s: State, cs: seq<Completion>)
    requires Inv(s) && AtLoop(Turn(s, cs))
    ensures var t, polled, u := BeforePoll(s), Batch(s, cs), Turn(s, cs);
      && u.gate.arrived == s.gate.arrived + (Arrivals(t, polled) - Withdrawals(t, polled))
      && Withdrawals(t, polled) <= Arrivals(t, polled)
      && (forall id :: id in Arrivals(t, polled) ==> s.nextId <= id < u.nextId)
      && u.nextId >= s.nextId
  {
    hide Inv, Poll, Dispatch, StartPending, ResumeReady, Coming, PollOne;
    BeforePollSees(s);
    var t := BeforePoll(s);
    if t.pending == [] && !Cut(t) {
      var (u, events) := Poll(t, [], cs);
      PollKeeps(t, [], cs);
      NothingComes();
      if !AtLoop(u) {
        CutDispatch(u, events);
        assert false;
      }
      PolledIds(t, [], cs);
      DispatchedIds(u, events);
      assert Coming(events) == Arrivals(t, cs) - Withdrawals(t, cs);
    }
  }

  lemma {:induction false} CutTurns(s: State, feed: seq<seq<Completion>>)
    requires !AtLoop(s)
    ensures Turns(s, feed) == s
    decreases |feed|
  {
    hide Turn;
    if feed != [] {
      CutTurn(s, feed[0]);
      CutTurns(s, feed[1..]);
    }
  }

  /**
   Over any number of completed turns: the gate comes to see exactly the requests that were polled without
   their cancellation behind them in the same batch.
   */
  lemma {:induction false} RunIds(s: State, feed: seq<seq<Completion>>)
    requires Inv(s) && (forall id :: id in s.gate.arrived ==> id < s.nextId) && AtLoop(Turns(s, feed))
    ensures var u := Turns(s, feed);
      && u.gate.arrived == s.gate.arrived + (Delivered(s, feed) - Withdrawn(s, feed))
      && Withdrawn(s, feed) <= Delivered(s, feed)
      && (forall id :: id in Delivered(s, feed) ==> id >= s.nextId)
    decreases |feed|
  {
    hide Inv, Turn, Arrivals, Withdrawals, BeforePoll, Batch;
    if feed != [] {
      var t := Turn(s, feed[0]);
      if !AtLoop(t) {
        CutTurns(t, feed[1..]);
        assert false;
      }
      TurnKeeps(s, feed[0]);
      TurnIds(s, feed[0]);
      RunIds(t, feed[1..]);
    }
  }
}
