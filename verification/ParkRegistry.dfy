/**
 The C-side park registry: `PARKED` leads from an op to the fiber suspended on it, `RESULTS` hands an
 outcome across the fiber switch.  The reference is what each fiber awaits, and nothing else.
 */
module ParkRegistry {
  import opened Prelude

  type Outcome = int

  datatype Registry = Registry(
    parked: map<nat, nat>,               // PARKED: op -> fiber
    results: map<nat, Outcome>,          // RESULTS
    awaiting: map<nat, seq<nat>>         // the ids in the await frame of each suspended fiber
  )

  /** What the loop, or a fiber it runs, can do. */
  datatype Event =
    | Await(fiber: nat, ids: seq<nat>)
    | Complete(id: nat, outcome: Outcome)
    | Cancel(fiber: nat)

  /** What an await frame gives back: an op with its outcome, or None when the fiber is unwound. */
  type Woken = Option<(nat, Outcome)>

  function Claims(fiber: nat, ids: seq<nat>): map<nat, nat>
  {
    map id | id in ids :: fiber
  }

  /** The first of `ids` with an outcome waiting. */
  function FirstResult(results: map<nat, Outcome>, ids: seq<nat>): Woken
  {
    if ids == [] then None
    else if ids[0] in results then Some((ids[0], results[ids[0]]))
    else FirstResult(results, ids[1..])
  }

  /** The rest of `await_any` after its suspension. */
  function Wake(r: Registry, fiber: nat, thrown: bool): (Registry, Woken)
    requires fiber in r.awaiting
  {
    var ids := r.awaiting[fiber];
    var t := r.(parked := r.parked - Elements(ids), awaiting := r.awaiting - {fiber});
    if thrown then (t.(results := t.results - Elements(ids)), None)
    else
      var woken := FirstResult(t.results, ids);
      (if woken.Some? then t.(results := t.results - {woken.value.0}) else t, woken)
  }

  ghost predicate Inv(r: Registry)
  {
    && r.results == map[]
    && (forall f :: f in r.awaiting ==> r.awaiting[f] != [])
    && (forall f, id :: f in r.awaiting && id in r.awaiting[f] ==> id in r.parked && r.parked[id] == f)
    && (forall id :: id in r.parked ==> r.parked[id] in r.awaiting && id in r.awaiting[r.parked[id]])
  }

  predicate Enabled(r: Registry, e: Event)
  {
    match e
    case Await(f, ids) => f !in r.awaiting && forall id :: id in ids ==> id !in r.parked
    case _ => true
  }

  function Next(r: Registry, e: Event): (Registry, Woken)
    requires Enabled(r, e)
  {
    match e
    case Await(f, ids) =>
      if ids == [] then (r, None) else (r.(parked := r.parked + Claims(f, ids), awaiting := r.awaiting[f := ids]), None)
    case Complete(id, outcome) =>
      if id !in r.parked || r.parked[id] !in r.awaiting then (r, None)
      else Wake(r.(parked := r.parked - {id}, results := r.results[id := outcome]), r.parked[id], false)
    case Cancel(f) => if f in r.awaiting then Wake(r, f, true) else (r, None)
  }

  // ---------------------------------------------------------------- the reference: who awaits what

  /** The one fiber that awaits this op, if any. */
  ghost predicate AwaitedBy(awaiting: map<nat, seq<nat>>, f: nat, id: nat)
  {
    f in awaiting && id in awaiting[f]
  }

  function Step(awaiting: map<nat, seq<nat>>, parked: map<nat, nat>, e: Event): map<nat, seq<nat>>
  {
    match e
    case Await(f, ids) => if ids == [] then awaiting else awaiting[f := ids]
    case Complete(id, _) => if id in parked then awaiting - {parked[id]} else awaiting
    case Cancel(f) => awaiting - {f}
  }

  lemma {:induction false} OnlyResult(id: nat, outcome: Outcome, ids: seq<nat>)
    requires id in ids
    ensures FirstResult(map[id := outcome], ids) == Some((id, outcome))
  {
    if ids[0] != id {
      OnlyResult(id, outcome, ids[1..]);
    }
  }

  /** What is left of PARKED without one await's ids leads to the other awaits. */
  lemma OthersStay(r: Registry, f: nat, parked: map<nat, nat>)
    requires Inv(r) && f in r.awaiting
    requires forall id :: id in parked <==> id in r.parked && id !in Elements(r.awaiting[f])
    requires forall id :: id in parked ==> parked[id] == r.parked[id]
    ensures Inv(Registry(parked, map[], r.awaiting - {f}))
  {
    forall id | id in parked ensures r.parked[id] != f {
      assert id in r.awaiting[r.parked[id]];
    }
    forall g, id | g in r.awaiting && g != f && id in r.awaiting[g] ensures id in parked {
      assert r.parked[id] == g;
    }
  }

  lemma WakeKeeps(r: Registry, f: nat, id: nat, outcome: Outcome)
    requires Inv(r) && f in r.awaiting && id in r.awaiting[f]
    ensures var (t, woken) := Wake(r.(parked := r.parked - {id}, results := r.results[id := outcome]), f, false);
      && Inv(t) && woken == Some((id, outcome)) && t.awaiting == r.awaiting - {f}
  {
    OnlyResult(id, outcome, r.awaiting[f]);
    OthersStay(r, f, r.parked - {id} - Elements(r.awaiting[f]));
    assert r.results[id := outcome] == map[id := outcome];
    assert map[id := outcome] - {id} == map[];
  }

  lemma CancelKeeps(r: Registry, f: nat)
    requires Inv(r) && f in r.awaiting
    ensures Inv(Wake(r, f, true).0) && Wake(r, f, true).0.awaiting == r.awaiting - {f}
  {
    OthersStay(r, f, r.parked - Elements(r.awaiting[f]));
    assert r.results - Elements(r.awaiting[f]) == map[];
  }

  /**
   Every event keeps the tables what they are for: PARKED holds exactly the ids of the current awaits and
   RESULTS is empty again; a completion wakes precisely the fiber that awaits it, with that op and that
   outcome, and takes all ids of that await along; one nobody awaits changes nothing.
   */
  lemma EventIsExact(r: Registry, e: Event)
    requires Inv(r) && Enabled(r, e)
    ensures Inv(Next(r, e).0)
    ensures Next(r, e).0.awaiting == Step(r.awaiting, r.parked, e)
    ensures e.Complete? ==> if e.id in r.parked then Next(r, e).1 == Some((e.id, e.outcome)) else Next(r, e) == (r, None)
    ensures !e.Complete? ==> Next(r, e).1 == None
    ensures e.Complete? ==> (e.id in r.parked <==> exists f :: AwaitedBy(r.awaiting, f, e.id))
  {
    match e {
      case Await(f, ids) => AwaitKeeps(r, f, ids);
      case Complete(id, outcome) =>
        if id in r.parked {
          assert AwaitedBy(r.awaiting, r.parked[id], id);
          WakeKeeps(r, r.parked[id], id, outcome);
        } else {
          assert forall f :: !AwaitedBy(r.awaiting, f, id);
        }
      case Cancel(f) =>
        if f in r.awaiting {
          CancelKeeps(r, f);
        } else {
          assert r.awaiting - {f} == r.awaiting;
        }
    }
    hide Inv, Wake;
  }

  lemma AwaitKeeps(r: Registry, f: nat, ids: seq<nat>)
    requires Inv(r) && Enabled(r, Await(f, ids))
    ensures Inv(Next(r, Await(f, ids)).0)
  {
  }

  lemma HasKey(r: Registry, f: nat)
    requires Inv(r)
    ensures f in r.awaiting <==> exists k :: k in r.parked && r.parked[k] == f
  {
    if f in r.awaiting {
      var k := r.awaiting[f][0];
      assert k in r.awaiting[f] && k in r.parked && r.parked[k] == f;
    }
  }

  /** Taking one of the await's keys out early makes no difference to the unwinding. */
  lemma OneKeyFirst(r: Registry, f: nat, key: nat)
    requires Inv(r) && key in r.parked && r.parked[key] == f
    ensures Wake(r.(parked := r.parked - {key}), f, true) == Wake(r, f, true)
  {
    assert key in Elements(r.awaiting[f]);
    assert r.parked - {key} - Elements(r.awaiting[f]) == r.parked - Elements(r.awaiting[f]);
  }

  function Run(events: seq<Event>): Registry
  {
    if events == [] then Registry(map[], map[], map[])
    else
      var r, last := Run(events[..|events| - 1]), events[|events| - 1];
      if Enabled(r, last) then Next(r, last).0 else r
  }

  lemma {:induction false} RunKeeps(events: seq<Event>)
    ensures Inv(Run(events))
  {
    hide Next, Enabled;
    if events != [] {
      hide Inv;
      var r, last := Run(events[..|events| - 1]), events[|events| - 1];
      RunKeeps(events[..|events| - 1]);
      if Enabled(r, last) {
        EventIsExact(r, last);
      }
    }
  }

  /**
   Nothing stale survives, whatever happened before: whenever control is outside these calls RESULTS is
   empty, and an op leads to a fiber exactly if that fiber awaits it now.
   */
  lemma NothingStale(events: seq<Event>, f: nat, id: nat)
    ensures Run(events).results == map[]
    ensures (id in Run(events).parked && Run(events).parked[id] == f) <==> AwaitedBy(Run(events).awaiting, f, id)
  {
    RunKeeps(events);
    hide Run;
  }

  /** A wake uses the await up: a second completion in the same batch finds nobody, and neither does a cancellation. */
  lemma WokenOnce(events: seq<Event>, id: nat, outcome: Outcome, other: nat, late: Outcome)
    requires var r := Run(events); id in r.parked && other in r.parked && r.parked[other] == r.parked[id]
    ensures var r := Run(events);
      var t := Next(r, Complete(id, outcome)).0;
      Next(t, Complete(other, late)) == (t, None) && Next(t, Cancel(r.parked[id])) == (t, None)
  {
    hide Run;
    RunKeeps(events);
    var r := Run(events);
    WakeKeeps(r, r.parked[id], id, outcome);
    hide Wake;
  }

  // ---------------------------------------------------------------- as the source writes it

  class Tables {
    var parked: map<nat, nat>
    var results: map<nat, Outcome>
    var awaiting: map<nat, seq<nat>>             // the arguments on each suspended fiber's own stack

    ghost function Model(): Registry
      reads this
    {
      Registry(parked, results, awaiting)
    }

    constructor ()
      ensures Model() == Run([])
    {
      parked, results, awaiting := map[], map[], map[];
    }

    /** `await_any` up to its suspension; false means it returns None at once. */
    method Park(fiber: nat, ids: seq<nat>) returns (suspends: bool)
      requires Enabled(Model(), Await(fiber, ids))
      modifies this
      ensures Model() == Next(old(Model()), Await(fiber, ids)).0 && (suspends <==> ids != [])
    {
      if ids == [] {
        return false;
      }
      for k := 0 to |ids|
        invariant parked == old(parked) + Claims(fiber, ids[..k])
        modifies this`parked
      {
        assert ids[..k + 1] == ids[..k] + [ids[k]];
        parked := parked[ids[k] := fiber];
      }
      assert ids[..|ids|] == ids;
      awaiting := awaiting[fiber := ids];
      suspends := true;
    }

    method Unpark(ids: seq<nat>)
      modifies this`parked
      ensures parked == old(parked) - Elements(ids)
    {
      for k := 0 to |ids|
        invariant parked == old(parked) - Elements(ids[..k])
      {
        assert ids[..k + 1] == ids[..k] + [ids[k]];
        parked := parked - {ids[k]};
      }
      assert ids[..|ids|] == ids;
    }

    /** `await_any` from its suspension on. */
    method Wakened(fiber: nat, ids: seq<nat>, thrown: bool) returns (woken: Woken)
      requires fiber in awaiting && ids == awaiting[fiber]
      modifies this
      ensures (Model(), woken) == Wake(old(Model()), fiber, thrown)
    {
      Unpark(ids);
      awaiting := awaiting - {fiber};
      if thrown {
        for k := 0 to |ids|
          invariant results == old(results) - Elements(ids[..k])
          modifies this`results
        {
          assert ids[..k + 1] == ids[..k] + [ids[k]];
          results := results - {ids[k]};
        }
        assert ids[..|ids|] == ids;
        return None;
      }
      for k := 0 to |ids|
        invariant FirstResult(results, ids[k..]) == FirstResult(old(results), ids)
      {
        if ids[k] in results {
          woken := Some((ids[k], results[ids[k]]));
          results := results - {ids[k]};
          return;
        }
      }
      return None;
    }

    /** `resume_parked`: leaves the outcome in RESULTS for the frame of the await, which runs to its end. */
    method ResumeParked(id: nat, outcome: Outcome) returns (consumed: bool, woken: Woken)
      requires Inv(Model())
      modifies this
      ensures Inv(Model()) && (Model(), woken) == Next(old(Model()), Complete(id, outcome))
      ensures consumed <==> old(exists f :: AwaitedBy(awaiting, f, id))
      ensures consumed ==> woken == Some((id, outcome))
    {
      EventIsExact(Model(), Complete(id, outcome));
      if id !in parked {
        return false, None;
      }
      var fiber := parked[id];
      parked := parked - {id};
      results := results[id := outcome];
      woken := Wakened(fiber, awaiting[fiber], false);
      consumed := true;
    }

    /** `ignis_cancel_parked_any`: any one key of the fiber is enough, its own unwinding removes the others. */
    method CancelParkedAny(fiber: nat) returns (found: bool)
      requires Inv(Model())
      modifies this
      ensures Inv(Model()) && Model() == Next(old(Model()), Cancel(fiber)).0
      ensures found <==> fiber in old(awaiting)
    {
      hide Inv, Wake;
      EventIsExact(Model(), Cancel(fiber));
      HasKey(Model(), fiber);
      var key := FindKey(fiber);
      if key.None? {
        return false;
      }
      var ids := awaiting[fiber];
      OneKeyFirst(Model(), fiber, key.value);
      parked := parked - {key.value};
      var _ := Wakened(fiber, ids, true);
      found := true;
    }

    method FindKey(fiber: nat) returns (key: Option<nat>)
      ensures key.Some? ==> key.value in parked && parked[key.value] == fiber
      ensures key.None? ==> forall k :: k in parked ==> parked[k] != fiber
    {
      var keys := parked.Keys;
      while keys != {}
        invariant keys <= parked.Keys
        invariant forall k :: k in parked && parked[k] == fiber ==> k in keys
      {
        var k :| k in keys;
        if parked[k] == fiber {
          return Some(k);
        }
        keys := keys - {k};
      }
      return None;
    }
  }
}
