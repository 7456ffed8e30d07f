/**
 Admission control of `Ignis\Loop`: a request is admitted, queued or shed, and a finished request
 hands its slot to the queue.  `Gate` is the loop's bookkeeping as a value, together with the history
 that the ordering and conservation theorems speak about; `RequestGate` keeps the same state the way
 the loop does, with a FIFO that is read by index and compacted when it runs empty.
 */
module Admission {
  import opened Prelude

  /** What became of a request that had been accepted for the FIFO discipline. */
  datatype Fate = Fate(id: nat, admitted: bool)

  datatype Gate = Gate(
    budget: int,             // 0 or less: unlimited
    depth: int,              // 0 or less: unbounded queue
    inflight: int,           // Loop::$inflightRequests
    queue: seq<nat>,         // waiting ids, oldest first
    queueCancelled: set<nat>,// ids whose client left while they waited
    rejected: nat,
    handled: nat,
    admittedAfterQueue: nat,
    queuedPeak: nat,
    // history
    arrived: set<nat>,       // every id seen
    inside: set<nat>,        // non-exempt ids holding a slot
    exempt: set<nat>,        // exempt ids holding a slot
    accepted: seq<nat>,      // non-exempt ids not rejected, in arrival order
    fates: seq<Fate>,        // what the gate decided for them, in decision order
    gaveUp: set<nat>         // ids cancelled while queued
  )

  function Open(budget: int, depth: int): Gate
  {
    Gate(budget, depth, 0, [], {}, 0, 0, 0, 0, {}, {}, {}, [], [], {})
  }

  predicate HasRoom(g: Gate)
  {
    g.budget <= 0 || g.inflight < g.budget
  }

  /** The slot taken by `admitRequest`; `exempt` tells which side of the budget it counts on. */
  function Admit(g: Gate, id: nat, exempt: bool): Gate
  {
    if exempt then g.(inflight := g.inflight + 1, exempt := g.exempt + {id})
    else g.(inflight := g.inflight + 1, inside := g.inside + {id}, fates := g.fates + [Fate(id, true)])
  }

  datatype Verdict = Admitted | Queued | Rejected

  function Arrive(g: Gate, id: nat, exempt: bool): (Gate, Verdict)
  {
    var g := g.(arrived := g.arrived + {id});
    if g.budget > 0 && g.inflight >= g.budget && !exempt then
      if g.depth > 0 && |g.queue| >= g.depth then (g.(rejected := g.rejected + 1), Rejected)
      else (g.(queue := g.queue + [id],
               accepted := g.accepted + [id],
               queuedPeak := Max(g.queuedPeak, |g.queue| + 1)), Queued)
    else if exempt then (Admit(g, id, true), Admitted)
    else (Admit(g.(accepted := g.accepted + [id]), id, false), Admitted)
  }

  /** A cancellation is remembered only for an id that is still waiting. */
  function Cancel(g: Gate, id: nat): Gate
  {
    if id in g.queue then g.(queueCancelled := g.queueCancelled + {id}, gaveUp := g.gaveUp + {id}) else g
  }

  /** One turn of the draining loop: the oldest waiting id is dropped or admitted. */
  function Pop(g: Gate): Gate
    requires g.queue != []
  {
    var id := g.queue[0];
    var rest := g.(queue := g.queue[1..]);
    if id in g.queueCancelled then
      rest.(queueCancelled := g.queueCancelled - {id}, fates := g.fates + [Fate(id, false)])
    else
      Admit(rest.(admittedAfterQueue := g.admittedAfterQueue + 1), id, false)
  }

  /** Drops or admits from the head of the queue until it is empty or the budget is spent; the admitted ids in order. */
  function Drain(g: Gate): (Gate, seq<nat>)
    decreases |g.queue|
  {
    if g.queue == [] || !HasRoom(g) then (g, [])
    else
      var (h, more) := Drain(Pop(g));
      (h, if g.queue[0] in g.queueCancelled then more else [g.queue[0]] + more)
  }

  /** `releaseRequest`: the slot is returned before the queue is drained. */
  function Leave(g: Gate, id: nat): Gate
  {
    g.(inflight := g.inflight - 1, handled := g.handled + 1, inside := g.inside - {id}, exempt := g.exempt - {id})
  }

  function Release(g: Gate, id: nat): (Gate, seq<nat>)
  {
    Drain(Leave(g, id))
  }

  datatype Event = Arrival(id: nat, exempt: bool) | ClientLeft(id: nat) | Finished(id: nat)

  /** What the rest of the system guarantees: ids are fresh, and only an admitted request finishes. */
  predicate Enabled(g: Gate, e: Event)
  {
    match e
    case Arrival(id, _) => id !in g.arrived
    case ClientLeft(_) => true
    case Finished(id) => id in g.inside || id in g.exempt
  }

  function Step(g: Gate, e: Event): Gate
  {
    match e
    case Arrival(id, exempt) => Arrive(g, id, exempt).0
    case ClientLeft(id) => Cancel(g, id)
    case Finished(id) => Release(g, id).0
  }

  function Run(g: Gate, events: seq<Event>): Gate
  {
    if events == [] then g else Step(Run(g, events[..|events| - 1]), events[|events| - 1])
  }

  ghost predicate EnabledRun(g: Gate, events: seq<Event>)
  {
    forall k :: 0 <= k < |events| ==> Enabled(Run(g, events[..k]), events[k])
  }

  function FateIds(fates: seq<Fate>): (ids: seq<nat>)
    ensures |ids| == |fates|
    ensures forall k :: 0 <= k < |ids| ==> ids[k] == fates[k].id
  {
    seq(|fates|, k requires 0 <= k < |fates| => fates[k].id)
  }

  function DroppedCount(fates: seq<Fate>): nat
  {
    if fates == [] then 0
    else DroppedCount(fates[..|fates| - 1]) + if fates[|fates| - 1].admitted then 0 else 1
  }

  // ---------------------------------------------------------------- the invariant

  /** Who is where: the id sets are disjoint, and everything accepted is decided or still waiting. */
  ghost predicate Placed(g: Gate)
  {
    && g.inside <= g.arrived && g.exempt <= g.arrived
    && g.inside !! g.exempt
    && NoDup(g.queue)
    && (forall id :: id in g.queue ==> id in g.arrived && id !in g.inside && id !in g.exempt)
    && g.accepted == FateIds(g.fates) + g.queue
    && (forall id :: id in g.accepted ==> id in g.arrived)
  }

  /** The cancelled bookkeeping: exactly the waiting ids whose client left, and no decided id. */
  ghost predicate Honoured(g: Gate)
  {
    && g.queueCancelled == g.gaveUp * Elements(g.queue)
    && g.gaveUp <= g.arrived
    && (forall k :: 0 <= k < |g.fates| ==> (g.fates[k].admitted <==> g.fates[k].id !in g.gaveUp))
    && (forall k :: 0 <= k < |g.fates| ==> g.fates[k].id !in g.queue)
  }

  /** A slot was granted to an exempt request, or to one that the gate decided to admit; only an accepted one gives up. */
  ghost predicate Granted(g: Gate)
  {
    && (forall id :: id in g.inside ==> Fate(id, true) in g.fates)
    && (forall id :: id in g.exempt ==> id !in g.accepted)
    && (forall id :: id in g.gaveUp ==> id in g.accepted)
  }

  ghost predicate Balanced(g: Gate)
  {
    && g.inflight == |g.inside| + |g.exempt|
    && |g.arrived| == g.rejected + |g.queue| + DroppedCount(g.fates) + g.inflight + g.handled
  }

  ghost predicate WithinBudget(g: Gate)
  {
    && (g.budget > 0 ==> |g.inside| <= g.budget)
    && (g.depth > 0 ==> |g.queue| <= g.depth)
  }

  /** Nobody waits while there is room. */
  ghost predicate Settled(g: Gate)
  {
    g.queue == [] || !HasRoom(g)
  }

  ghost predicate Core(g: Gate)
  {
    Placed(g) && Honoured(g) && Granted(g) && Balanced(g) && WithinBudget(g)
  }

  ghost predicate Inv(g: Gate)
  {
    Core(g) && Settled(g)
  }

  lemma DroppedSnoc(fates: seq<Fate>, f: Fate)
    ensures DroppedCount(fates + [f]) == DroppedCount(fates) + if f.admitted then 0 else 1
  {
    assert (fates + [f])[..|fates|] == fates;
  }

  lemma FateIdsSnoc(fates: seq<Fate>, f: Fate)
    ensures FateIds(fates + [f]) == FateIds(fates) + [f.id]
  {
  }

  lemma PopPlaced(g: Gate)
    requires Placed(g) && g.queue != []
    ensures Placed(Pop(g))
  {
    var id, rest := g.queue[0], g.queue[1..];
    var fate := Fate(id, id !in g.queueCancelled);
    FateIdsSnoc(g.fates, fate);
    assert g.accepted == FateIds(g.fates + [fate]) + rest;
    assert forall x :: x in rest ==> x in g.queue;
  }

  lemma PopHonoured(g: Gate)
    requires NoDup(g.queue) && Honoured(g) && g.queue != []
    ensures Honoured(Pop(g))
  {
    var id, rest := g.queue[0], g.queue[1..];
    assert Elements(g.queue) == {id} + Elements(rest);
    assert id !in rest;
    assert id in g.queueCancelled <==> id in g.gaveUp;
  }

  lemma PopGranted(g: Gate)
    requires Granted(g) && g.queue != []
    ensures Granted(Pop(g))
  {
    assert forall fate :: fate in g.fates ==> fate in Pop(g).fates;
    assert Pop(g).fates[|g.fates|] in Pop(g).fates;
  }

  lemma PopBalanced(g: Gate)
    requires Placed(g) && Balanced(g) && WithinBudget(g) && g.queue != [] && HasRoom(g)
    ensures Balanced(Pop(g)) && WithinBudget(Pop(g))
  {
    var id := g.queue[0];
    assert id in g.queue;
    DroppedSnoc(g.fates, Fate(id, id !in g.queueCancelled));
  }

  lemma PopKeeps(g: Gate)
    requires Core(g) && g.queue != [] && HasRoom(g)
    ensures Core(Pop(g))
  {
    hide Placed, Honoured, Granted, Balanced, WithinBudget, Pop;
    NoneTwice(g);
    PopPlaced(g);
    PopHonoured(g);
    PopGranted(g);
    PopBalanced(g);
  }

  lemma NoneTwice(g: Gate)
    requires Placed(g)
    ensures NoDup(g.queue)
  {
  }

  lemma PopMoves(g: Gate)
    requires Core(g) && g.queue != []
    ensures g.queue[0] !in g.queue[1..]
  {
  }

  lemma {:induction false} DrainKeeps(g: Gate)
    requires Core(g)
    ensures Inv(Drain(g).0)
    decreases |g.queue|
  {
    if g.queue != [] && HasRoom(g) {
      PopKeeps(g);
      DrainKeeps(Pop(g));
    }
  }

  /** Draining admits only waiting ids, each once, and takes no slot away. */
  lemma {:induction false} DrainAdmits(g: Gate)
    requires Core(g)
    ensures var (h, ids) := Drain(g);
      && NoDup(ids) && (forall id :: id in ids ==> id in g.queue && id in h.inside)
      && g.inside <= h.inside && h.exempt == g.exempt && h.arrived == g.arrived
    decreases |g.queue|
  {
    hide Core;
    if g.queue != [] && HasRoom(g) {
      PopKeeps(g);
      PopMoves(g);
      DrainAdmits(Pop(g));
      assert forall id :: id in Drain(Pop(g)).1 ==> id in g.queue[1..];
    }
  }

  lemma ArrivePlaced(g: Gate, id: nat, exempt: bool)
    requires Placed(g) && Settled(g) && id !in g.arrived
    ensures Placed(Arrive(g, id, exempt).0)
  {
    if !exempt && Arrive(g, id, exempt).1 == Admitted {
      FateIdsSnoc(g.fates, Fate(id, true));
    }
  }

  lemma ArriveHonoured(g: Gate, id: nat, exempt: bool)
    requires Placed(g) && Honoured(g) && Settled(g) && id !in g.arrived
    ensures Honoured(Arrive(g, id, exempt).0)
  {
    var h := Arrive(g, id, exempt).0;
    assert Elements(h.queue) == Elements(g.queue) + if h.queue == g.queue then {} else {id};
    assert forall k :: 0 <= k < |g.fates| ==> FateIds(g.fates)[k] in g.accepted;
  }

  lemma ArriveGranted(g: Gate, id: nat, exempt: bool)
    requires Placed(g) && Granted(g) && id !in g.arrived
    ensures Granted(Arrive(g, id, exempt).0)
  {
    var h := Arrive(g, id, exempt).0;
    assert forall fate :: fate in g.fates ==> fate in h.fates;
    assert forall x :: x in h.accepted <==> x in g.accepted || (x == id && h.accepted != g.accepted);
    if id in h.inside {
      assert h.fates[|g.fates|] in h.fates;
    }
  }

  lemma CancelGranted(g: Gate, id: nat)
    requires Placed(g) && Granted(g)
    ensures Granted(Cancel(g, id))
  {
    if id in g.queue {
      var k :| 0 <= k < |g.queue| && g.queue[k] == id;
      assert g.accepted[|g.fates| + k] == id;
    }
  }

  lemma ArriveBalanced(g: Gate, id: nat, exempt: bool)
    requires Placed(g) && Balanced(g) && WithinBudget(g) && Settled(g) && id !in g.arrived
    ensures Balanced(Arrive(g, id, exempt).0) && WithinBudget(Arrive(g, id, exempt).0)
  {
    if !exempt && Arrive(g, id, exempt).1 == Admitted {
      DroppedSnoc(g.fates, Fate(id, true));
    }
  }

  lemma StepKeeps(g: Gate, e: Event)
    requires Inv(g) && Enabled(g, e)
    ensures Inv(Step(g, e))
  {
    match e
    case Arrival(id, exempt) =>
      ArrivePlaced(g, id, exempt);
      ArriveHonoured(g, id, exempt);
      ArriveGranted(g, id, exempt);
      ArriveBalanced(g, id, exempt);
    case ClientLeft(id) => CancelGranted(g, id);
    case Finished(id) => DrainKeeps(Leave(g, id));
  }

  lemma {:induction false} RunKeeps(budget: int, depth: int, events: seq<Event>)
    requires EnabledRun(Open(budget, depth), events)
    ensures Inv(Run(Open(budget, depth), events))
  {
    var g := Open(budget, depth);
    if events != [] {
      var n := |events| - 1;
      forall k | 0 <= k < n ensures Enabled(Run(g, events[..n][..k]), events[..n][k]) {
        assert events[..n][..k] == events[..k];
      }
      RunKeeps(budget, depth, events[..n]);
      assert Enabled(Run(g, events[..n]), events[n]);
      StepKeeps(Run(g, events[..n]), events[n]);
    }
  }

  // ---------------------------------------------------------------- what a run guarantees

  /**
   After any run: the non-exempt requests holding a slot fit the budget, nobody waits while there is
   room, a remembered cancellation is for a waiting id, and every arrival is accounted for.
   */
  lemma AdmissionIsSafe(budget: int, depth: int, events: seq<Event>)
    requires EnabledRun(Open(budget, depth), events)
    ensures var g := Run(Open(budget, depth), events);
      && (g.budget > 0 ==> |g.inside| <= g.budget)
      && (g.queue != [] ==> 0 < g.budget <= g.inflight)
      && g.queueCancelled <= Elements(g.queue)
      && |g.arrived| == g.rejected + |g.queue| + DroppedCount(g.fates) + g.inflight + g.handled
  {
    RunKeeps(budget, depth, events);
  }

  /** The non-exempt requests the gate did not shed, in the order the events brought them. */
  ghost function Accepted(g: Gate, events: seq<Event>): seq<nat>
  {
    if events == [] then g.accepted
    else
      var front, last := events[..|events| - 1], events[|events| - 1];
      Accepted(g, front) +
      if last.Arrival? && !last.exempt && Arrive(Run(g, front), last.id, false).1 != Rejected then [last.id] else []
  }

  lemma {:induction false} DrainKeepsAccepted(g: Gate)
    ensures Drain(g).0.accepted == g.accepted && Drain(g).0.budget == g.budget && Drain(g).0.arrived == g.arrived
    decreases |g.queue|
  {
    if g.queue != [] && HasRoom(g) {
      DrainKeepsAccepted(Pop(g));
    }
  }

  lemma {:induction false} AcceptedInArrivalOrder(g: Gate, events: seq<Event>)
    ensures Run(g, events).accepted == Accepted(g, events)
  {
    if events != [] {
      var front, last := events[..|events| - 1], events[|events| - 1];
      AcceptedInArrivalOrder(g, front);
      if last.Finished? {
        DrainKeepsAccepted(Leave(Run(g, front), last.id));
      }
    }
  }

  /**
   No overtaking: of two accepted requests the later one is decided only after the earlier one, and
   each is admitted exactly when its client was still there when its turn came.
   */
  lemma NoOvertaking(budget: int, depth: int, events: seq<Event>, k: nat)
    requires EnabledRun(Open(budget, depth), events)
    requires k < |Run(Open(budget, depth), events).fates|
    ensures var g := Run(Open(budget, depth), events);
      && k < |Accepted(Open(budget, depth), events)|
      && g.fates[k].id == Accepted(Open(budget, depth), events)[k]
      && (g.fates[k].admitted <==> g.fates[k].id !in g.gaveUp)
  {
    RunKeeps(budget, depth, events);
    AcceptedInArrivalOrder(Open(budget, depth), events);
  }

  /** The queue needs no mention in the stopping condition: an idle gate has nobody waiting. */
  lemma IdleGateIsEmpty(g: Gate)
    requires Inv(g) && g.inflight == 0
    ensures g.queue == [] && g.inside == {} && g.exempt == {} && g.queueCancelled == {}
    ensures |g.arrived| == g.rejected + DroppedCount(g.fates) + g.handled
  {
  }

  /** A request whose client left while it waited holds no slot, then or later. */
  lemma GivenUpHoldsNothing(g: Gate, id: nat)
    requires Inv(g) && id in g.gaveUp
    ensures id !in g.inside && id !in g.exempt
    ensures id in g.queue ==> id in g.queueCancelled
  {
    assert Honoured(g) && Granted(g);
    assert id in g.inside ==> Fate(id, true) in g.fates;
  }

  /**
   Over any run, an arrival is shed exactly if it is bound by the budget, the slots in use fill the budget and
   as many requests wait as may.
   */
  lemma ShedsExactly(budget: int, depth: int, events: seq<Event>, id: nat, exempt: bool)
    requires EnabledRun(Open(budget, depth), events) && id !in Run(Open(budget, depth), events).arrived
    ensures var g, h := Run(Open(budget, depth), events), Run(Open(budget, depth), events + [Arrival(id, exempt)]);
      && (h.rejected > g.rejected <==>
            !exempt && 0 < budget <= |g.inside| + |g.exempt| && depth > 0 && |g.queue| == depth)
      && (h.rejected == g.rejected <==> id in h.inside || id in h.exempt || id in h.queue)
  {
    var front := events + [Arrival(id, exempt)];
    assert front[..|events|] == events;
    RunKeeps(budget, depth, events);
    KeepsLimits(budget, depth, events);
  }

  lemma {:induction false} KeepsLimits(budget: int, depth: int, events: seq<Event>)
    ensures var g := Run(Open(budget, depth), events); g.budget == budget && g.depth == depth
  {
    if events != [] {
      var last := events[|events| - 1];
      KeepsLimits(budget, depth, events[..|events| - 1]);
      if last.Finished? {
        DrainKeepsLimits(Leave(Run(Open(budget, depth), events[..|events| - 1]), last.id));
      }
    }
  }

  lemma {:induction false} DrainKeepsLimits(g: Gate)
    ensures Drain(g).0.budget == g.budget && Drain(g).0.depth == g.depth
    decreases |g.queue|
  {
    if g.queue != [] && HasRoom(g) {
      DrainKeepsLimits(Pop(g));
    }
  }

  // ---------------------------------------------------------------- the loop's own representation

  class RequestGate {
    ghost var gate: Gate                  // what the fields below stand for
    var fiberBudget: int
    var queueDepth: int
    var budgetExempt: seq<string>
    var inflightRequests: int
    var handled: nat
    var rejected: nat
    var admittedAfterQueue: nat
    var queuedPeak: nat
    var requestQueue: seq<(nat, string)>  // FIFO of (id, uri), read through queueHead
    var queueHead: nat
    var queued: set<nat>
    var queueCancelled: set<nat>
    var spawned: seq<(nat, string)>       // the fibers `admitRequest` asked for, in order

    static function Ids(slots: seq<(nat, string)>): (ids: seq<nat>)
      ensures |ids| == |slots|
      ensures forall k :: 0 <= k < |ids| ==> ids[k] == slots[k].0
    {
      seq(|slots|, k requires 0 <= k < |slots| => slots[k].0)
    }

    static lemma HeadAndRest(slots: seq<(nat, string)>)
      requires slots != [] && NoDup(Ids(slots))
      ensures Ids(slots) == [slots[0].0] + Ids(slots[1..]) && Ids(slots)[1..] == Ids(slots[1..])
      ensures NoDup(Ids(slots[1..]))
      ensures Elements(Ids(slots[1..])) == Elements(Ids(slots)) - {slots[0].0}
    {
      assert Ids(slots) == [slots[0].0] + Ids(slots[1..]);
      assert forall k :: 0 <= k < |slots| - 1 ==> Ids(slots[1..])[k] == Ids(slots)[k + 1];
    }

    static lemma IdsSnoc(slots: seq<(nat, string)>, slot: (nat, string))
      ensures Ids(slots + [slot]) == Ids(slots) + [slot.0]
    {
    }

    ghost predicate Counted()
      reads this
    {
      && gate.budget == fiberBudget && gate.depth == queueDepth && gate.inflight == inflightRequests
      && gate.rejected == rejected && gate.handled == handled
      && gate.admittedAfterQueue == admittedAfterQueue && gate.queuedPeak == queuedPeak
    }

    ghost predicate Listed()
      reads this
    {
      && queueHead <= |requestQueue|
      && gate.queue == Ids(requestQueue[queueHead..]) && NoDup(gate.queue)
      && queued == Elements(gate.queue) && gate.queueCancelled == queueCancelled
    }

    ghost predicate Valid()
      reads this
    {
      Counted() && Listed()
    }

    ghost predicate Exempts(uri: string)
      reads this
    {
      exists k :: 0 <= k < |budgetExempt| && budgetExempt[k] <= uri
    }

    constructor (budget: int, depth: int, exemptPrefixes: seq<string>)
      ensures Valid() && gate == Open(budget, depth) && spawned == [] && budgetExempt == exemptPrefixes
    {
      fiberBudget, queueDepth, budgetExempt := budget, depth, exemptPrefixes;
      inflightRequests, handled, rejected, admittedAfterQueue, queuedPeak := 0, 0, 0, 0, 0;
      requestQueue, queueHead, queued, queueCancelled, spawned := [], 0, {}, {}, [];
      gate := Open(budget, depth);
    }

    method IsExempt(uri: string) returns (yes: bool)
      ensures yes == Exempts(uri)
    {
      for k := 0 to |budgetExempt|
        invariant forall j :: 0 <= j < k ==> !(budgetExempt[j] <= uri)
      {
        if budgetExempt[k] <= uri {
          return true;
        }
      }
      return false;
    }

    method AdmitRequest(id: nat, uri: string, ghost isExempt: bool)
      requires Valid()
      modifies this`inflightRequests, this`spawned, this`gate
      ensures Valid() && gate == Admit(old(gate), id, isExempt)
      ensures spawned == old(spawned) + [(id, uri)]
    {
      inflightRequests := inflightRequests + 1;
      spawned := spawned + [(id, uri)];
      gate := Admit(gate, id, isExempt);
    }

    method QueueRequest(id: nat, uri: string) returns (verdict: Verdict)
      requires Valid() && id !in queued
      requires fiberBudget > 0 && inflightRequests >= fiberBudget
      modifies this`rejected, this`requestQueue, this`queued, this`queuedPeak, this`gate
      ensures Valid() && (gate, verdict) == Arrive(old(gate), id, false)
      ensures requestQueue == old(requestQueue) + if verdict == Queued then [(id, uri)] else []
    {
      gate := Arrive(gate, id, false).0;
      var waiting := |requestQueue| - queueHead;
      if queueDepth > 0 && waiting >= queueDepth {
        rejected := rejected + 1;
        return Rejected;
      }
      IdsSnoc(requestQueue[queueHead..], (id, uri));
      assert (requestQueue + [(id, uri)])[queueHead..] == requestQueue[queueHead..] + [(id, uri)];
      requestQueue := requestQueue + [(id, uri)];
      queued := queued + {id};
      if waiting + 1 > queuedPeak {
        queuedPeak := waiting + 1;
      }
      return Queued;
    }

    method DispatchRequest(id: nat, uri: string) returns (verdict: Verdict)
      requires Valid() && id !in queued
      modifies this
      ensures Valid() && budgetExempt == old(budgetExempt)
      ensures (gate, verdict) == Arrive(old(gate), id, old(Exempts(uri)))
      ensures spawned == old(spawned) + if verdict == Admitted then [(id, uri)] else []
    {
      var isExempt := IsExempt(uri);
      if fiberBudget > 0 && inflightRequests >= fiberBudget && !isExempt {
        verdict := QueueRequest(id, uri);
      } else {
        gate := gate.(arrived := gate.arrived + {id}, accepted := if isExempt then gate.accepted else gate.accepted + [id]);
        AdmitRequest(id, uri, isExempt);
        verdict := Admitted;
      }
    }

    /** What `cancelRequest` does for an id that is only queued. */
    method CancelQueued(id: nat)
      requires Valid()
      modifies this`queueCancelled, this`gate
      ensures Valid() && gate == Cancel(old(gate), id)
    {
      if id in queued {
        queueCancelled := queueCancelled + {id};
      }
      gate := Cancel(gate, id);
    }

    /** One turn of `drainQueue`: read the slot, forget its body, then drop or admit the request. */
    method TakeSlot()
      requires Valid() && queueHead < |requestQueue|
      modifies this`requestQueue, this`queueHead, this`queued, this`queueCancelled, this`admittedAfterQueue
      modifies this`inflightRequests, this`spawned, this`gate
      ensures Valid() && requestQueue[queueHead..] == old(requestQueue[queueHead..])[1..]
      ensures gate == Pop(old(gate))
      ensures var slot := old(requestQueue[queueHead]);
        spawned == old(spawned) + if slot.0 in old(queueCancelled) then [] else [slot]
    {
      HeadAndRest(requestQueue[queueHead..]);
      ghost var popped, rest := Pop(gate), requestQueue[queueHead..][1..];
      var (id, uri) := requestQueue[queueHead];
      requestQueue := requestQueue[queueHead := (id, "")];
      queueHead := queueHead + 1;
      assert requestQueue[queueHead..] == rest;
      queued := queued - {id};
      if id in queueCancelled {
        queueCancelled := queueCancelled - {id};
        gate := popped;
      } else {
        admittedAfterQueue := admittedAfterQueue + 1;
        gate := gate.(queue := gate.queue[1..], admittedAfterQueue := admittedAfterQueue);
        AdmitRequest(id, uri, false);
      }
    }

    method DrainQueue()
      requires Valid()
      modifies this`requestQueue, this`queueHead, this`queued, this`queueCancelled, this`admittedAfterQueue
      modifies this`inflightRequests, this`spawned, this`gate
      ensures Valid() && gate == Drain(old(gate)).0
      ensures Ids(spawned) == old(Ids(spawned)) + Drain(old(gate)).1
    {
      ghost var total := Ids(spawned) + Drain(gate).1;
      while queueHead < |requestQueue| && (fiberBudget <= 0 || inflightRequests < fiberBudget)
        invariant Valid()
        invariant Drain(old(gate)).0 == Drain(gate).0
        invariant Ids(spawned) + Drain(gate).1 == total
        decreases |requestQueue[queueHead..]|
      {
        IdsSnoc(spawned, requestQueue[queueHead]);
        TakeSlot();
      }
      Compact();
    }

    method Compact()
      requires Valid()
      modifies this`requestQueue, this`queueHead
      ensures Valid() && requestQueue[queueHead..] == old(requestQueue[queueHead..])
      ensures requestQueue == [] || queueHead < |requestQueue|
    {
      if queueHead > 0 && queueHead == |requestQueue| {
        requestQueue, queueHead := [], 0;
      }
    }

    /** The admission half of `releaseRequest`: return the slot, then let the queue move up. */
    method ReleaseRequest(ghost id: nat)
      requires Valid()
      modifies this
      ensures Valid() && budgetExempt == old(budgetExempt) && gate == Release(old(gate), id).0
      ensures Ids(spawned) == old(Ids(spawned)) + Release(old(gate), id).1
    {
      inflightRequests := inflightRequests - 1;
      handled := handled + 1;
      gate := Leave(gate, id);
      DrainQueue();
    }
  }
}
