/**
 Fiber-scoped superglobals: the four entries of one symbol table are saved and installed lazily, only when
 the view's owner changes.  The reference is a store with one row per owner, of which the symbol table is
 the row of whoever's view is installed.
 */
module Superglobals {
  import opened Prelude

  type Entry = Option<int>                       // None: the key is missing, or the saved zval is UNDEF

  const KEYS: nat := 4                           // _SERVER, _GET, _POST, _COOKIE

  type Row = r: seq<Entry> | |r| == KEYS witness [None, None, None, None]

  /** The thread's state; `view` is the context whose entries the table holds, or None for the base world. */
  datatype State = State(table: Row, base: Option<Row>, view: Option<nat>, slots: map<nat, Row>)

  /** What runs next, and what running code does to the four globals. */
  datatype Event =
    | SwitchTo(ctx: nat)                         // a fiber
    | SwitchToMain
    | Set(fiber: Option<nat>, vals: Row)           // ignis_set_superglobals by the active fiber, or by {main}
    | Write(key: nat, entry: Entry)              // a plain assignment or unset by whatever runs
    | Destroy(ctx: nat)

  // ---------------------------------------------------------------- the swap

  /** Missing values leave the current entry in place. */
  function Install(vals: Row, table: Row): (t: Row)
    ensures forall k :: 0 <= k < KEYS ==> t[k] == if vals[k].None? then table[k] else vals[k]
  {
    seq(KEYS, k requires 0 <= k < KEYS => if vals[k].None? then table[k] else vals[k])
  }

  function Save(s: State): State
  {
    match s.view
    case None => s.(base := Some(s.table))
    case Some(owner) => s.(slots := s.slots[owner := s.table])
  }

  function Isolate(s: State, ctx: Option<nat>): State
  {
    if ctx.None? || ctx.value in s.slots then s
    else Save(s).(slots := Save(s).slots[ctx.value := [None, None, None, None]], view := ctx)
  }

  function Next(s: State, e: Event): State
  {
    match e
    case SwitchTo(to) =>
      if to !in s.slots || s.view == Some(to) then s
      else Save(s).(table := Install(s.slots[to], s.table), view := Some(to))
    case SwitchToMain =>
      if s.view.None? then s
      else Save(s).(table := if s.base.Some? then Install(s.base.value, s.table) else s.table, view := None)
    case Set(ctx, vals) => Isolate(s, ctx).(table := Install(vals, s.table))
    case Write(key, entry) => if key < KEYS then s.(table := s.table[key := entry]) else s
    case Destroy(ctx) => s.(slots := s.slots - {ctx}, view := if s.view == Some(ctx) then None else s.view)
  }

  function Replay(s: State, events: seq<Event>): State
  {
    if events == [] then s else Next(Replay(s, events[..|events| - 1]), events[|events| - 1])
  }

  // ---------------------------------------------------------------- the reference store

  /** One row per owner; whose row running code reads and writes. */
  datatype Store = Store(main: Row, rows: map<nat, Row>, view: Option<nat>)

  ghost predicate Sound(st: Store)
  {
    st.view.Some? ==> st.view.value in st.rows
  }

  function Visible(st: Store): Row
  {
    if st.view.Some? && st.view.value in st.rows then st.rows[st.view.value] else st.main
  }

  function Put(st: Store, row: Row): Store
  {
    if st.view.Some? then st.(rows := st.rows[st.view.value := row]) else st.(main := row)
  }

  function Step(st: Store, e: Event): Store
  {
    match e
    case SwitchTo(to) => if to in st.rows then st.(view := Some(to)) else st
    case SwitchToMain => st.(view := None)
    case Set(ctx, vals) =>
      var owner := if ctx.None? || ctx.value in st.rows then st else st.(rows := st.rows[ctx.value := Visible(st)], view := ctx);
      Put(owner, Install(vals, Visible(owner)))
    case Write(key, entry) => if key < KEYS then Put(st, Visible(st)[key := entry]) else st
    case Destroy(ctx) => Store(st.main, st.rows - {ctx}, if st.view == Some(ctx) then None else st.view)
  }

  function Track(st: Store, events: seq<Event>): Store
  {
    if events == [] then st else Step(Track(st, events[..|events| - 1]), events[|events| - 1])
  }

  /** The symbol table shows the installed view's row, and every other row is where it was saved. */
  ghost predicate Refines(s: State, st: Store)
  {
    && s.view == st.view && Sound(st) && s.table == Visible(st)
    && (forall c :: c in s.slots <==> c in st.rows)
    && (forall c :: c in s.slots && s.view != Some(c) ==> s.slots[c] == st.rows[c])
    && (s.view.Some? ==> s.base == Some(st.main))
  }

  /** No key missing from what is installed is present in the table. */
  ghost predicate Covers(vals: Row, table: Row)
  {
    forall k :: 0 <= k < KEYS && vals[k].None? ==> table[k].None?
  }

  lemma InstallIsExact(vals: Row, table: Row)
    ensures Install(vals, table) == vals <==> Covers(vals, table)
  {
    if Covers(vals, table) {
      assert Install(vals, table) == vals;
    }
  }

  /** What a caller can check before the event: it installs no row with a key missing, and destroys no view in use. */
  ghost predicate Clean(s: State, e: Event)
  {
    match e
    case SwitchTo(to) => to in s.slots && s.view != Some(to) ==> Covers(s.slots[to], s.table)
    case SwitchToMain => s.view.Some? && s.base.Some? ==> Covers(s.base.value, s.table)
    case Destroy(ctx) => s.view == Some(ctx) ==> s.base == Some(s.table)
    case _ => true
  }

  /** The swap follows the store exactly while the events are clean, and departs from it at the first that is not. */
  lemma CleanExactly(s: State, st: Store, e: Event)
    requires Refines(s, st)
    ensures Refines(Next(s, e), Step(st, e)) <==> Clean(s, e)
  {
    match e {
      case SwitchTo(to) =>
        if to in s.slots {
          InstallIsExact(s.slots[to], s.table);
        }
      case SwitchToMain =>
        if s.base.Some? {
          InstallIsExact(s.base.value, s.table);
        }
      case Set(_, _) =>
      case Write(_, _) =>
      case Destroy(_) =>
    }
  }

  ghost predicate AllClean(s: State, events: seq<Event>)
  {
    forall k :: 0 <= k < |events| ==> Clean(Replay(s, events[..k]), events[k])
  }

  function Fresh(table: Row): State
  {
    State(table, None, None, map[])
  }

  lemma {:induction false} CleanRunsRefine(table: Row, events: seq<Event>)
    requires AllClean(Fresh(table), events)
    ensures Refines(Replay(Fresh(table), events), Track(Store(table, map[], None), events))
  {
    if events != [] {
      var n := |events| - 1;
      forall k | 0 <= k < n ensures Clean(Replay(Fresh(table), events[..n][..k]), events[..n][k]) {
        assert events[..n][..k] == events[..k];
      }
      CleanRunsRefine(table, events[..n]);
      CleanExactly(Replay(Fresh(table), events[..n]), Track(Store(table, map[], None), events[..n]), events[n]);
    }
  }

  // ---------------------------------------------------------------- what the store promises

  lemma ReplaySnoc(s: State, st: Store, events: seq<Event>, e: Event)
    ensures Replay(s, events + [e]) == Next(Replay(s, events), e) && Track(st, events + [e]) == Step(Track(st, events), e)
    ensures Replay(s, []) == s && Track(st, []) == st
  {
    hide Next, Step;
    assert (events + [e])[..|events|] == events;
  }

  /** A fiber's four globals: in the symbol table while its view is installed, and in its slot otherwise. */
  function RowOf(s: State, fiber: nat): Option<Row>
  {
    if s.view == Some(fiber) then Some(s.table)
    else if fiber in s.slots then Some(s.slots[fiber])
    else None
  }

  /** Nothing in this event brings the fiber's view back, writes to it or ends it. */
  predicate Elsewhere(e: Event, fiber: nat)
  {
    e != SwitchTo(fiber) && e != Destroy(fiber) && !(e.Set? && e.fiber == Some(fiber))
  }

  lemma RowStays(st: Store, e: Event, fiber: nat)
    requires Sound(st) && fiber in st.rows && st.view != Some(fiber) && Elsewhere(e, fiber)
    ensures var t := Step(st, e); fiber in t.rows && t.rows[fiber] == st.rows[fiber] && t.view != Some(fiber)
  {
  }

  lemma RowIsKept(s: State, st: Store, fiber: nat)
    requires Refines(s, st)
    ensures Sound(st) && s.view == st.view
    ensures RowOf(s, fiber) == if fiber in st.rows then Some(st.rows[fiber]) else None
  {
  }

  /**
   An isolated fiber's globals stay what they are while its view is not installed, whatever the code that runs
   meanwhile writes, sets, switches or destroys.
   */
  lemma {:induction false} OnlyOwnWrites(table: Row, events: seq<Event>, more: seq<Event>, fiber: nat)
    requires AllClean(Fresh(table), events + more)
    requires var s := Replay(Fresh(table), events); RowOf(s, fiber).Some? && s.view != Some(fiber)
    requires forall e :: e in more ==> Elsewhere(e, fiber)
    ensures var s, t := Replay(Fresh(table), events), Replay(Fresh(table), events + more);
      RowOf(t, fiber) == RowOf(s, fiber) && t.view != Some(fiber)
    decreases |more|
  {
    hide Next, Step, Clean, Refines, RowOf, Elsewhere, Replay, Track, Sound;
    if more == [] {
      assert events + more == events;
    } else {
      var front, e := more[..|more| - 1], more[|more| - 1];
      assert events + more == events + front + [e];
      assert forall x :: x in front ==> x in more;
      CleanFront(table, events + front, e);
      OnlyOwnWrites(table, events, front, fiber);
      var s, st := Replay(Fresh(table), events + front), Track(Store(table, map[], None), events + front);
      ReplaySnoc(Fresh(table), Store(table, map[], None), events + front, e);
      CleanRunsRefine(table, events + front);
      RowIsKept(s, st, fiber);
      RowStays(st, e, fiber);
      CleanExactly(s, st, e);
      RowIsKept(Next(s, e), Step(st, e), fiber);
    }
  }

  lemma CleanFront(table: Row, events: seq<Event>, e: Event)
    requires AllClean(Fresh(table), events + [e])
    ensures AllClean(Fresh(table), events) && Clean(Replay(Fresh(table), events), e)
  {
    hide Clean, Replay;
    forall k | 0 <= k < |events| ensures Clean(Replay(Fresh(table), events[..k]), events[k]) {
      assert (events + [e])[..k] == events[..k] && (events + [e])[k] == events[k];
    }
    assert (events + [e])[..|events|] == events && (events + [e])[|events|] == e;
  }

  /** {main}'s four globals: the symbol table while nobody's view is installed, and the base row otherwise. */
  function MainRow(s: State): Option<Row>
  {
    if s.view.None? then Some(s.table) else s.base
  }

  /** While a fiber's view is installed, no clean event changes what {main} has, not even the one that leaves the view. */
  lemma MainRowStays(table: Row, events: seq<Event>, e: Event)
    requires AllClean(Fresh(table), events + [e]) && Replay(Fresh(table), events).view.Some?
    ensures MainRow(Replay(Fresh(table), events + [e])) == MainRow(Replay(Fresh(table), events))
  {
    hide Next, Clean, Replay, Track;
    var s, st := Replay(Fresh(table), events), Track(Store(table, map[], None), events);
    CleanFront(table, events, e);
    CleanRunsRefine(table, events);
    ReplaySnoc(Fresh(table), Store(table, map[], None), events, e);
    CleanExactly(s, st, e);
  }

  /** After a clean run, a switch shows {main} the base row and an isolated fiber its own. */
  lemma SwitchShowsOwnRow(table: Row, events: seq<Event>, to: nat)
    requires AllClean(Fresh(table), events)
    ensures var s, st := Replay(Fresh(table), events), Track(Store(table, map[], None), events);
      && (Clean(s, SwitchToMain) ==> Next(s, SwitchToMain).table == st.main)
      && (to in s.slots && Clean(s, SwitchTo(to)) ==> to in st.rows && Next(s, SwitchTo(to)).table == st.rows[to])
  {
    CleanRunsRefine(table, events);
    var s, st := Replay(Fresh(table), events), Track(Store(table, map[], None), events);
    CleanExactly(s, st, SwitchToMain);
    CleanExactly(s, st, SwitchTo(to));
  }

  ghost predicate Full(row: Row)
  {
    forall k :: 0 <= k < KEYS ==> row[k].Some?
  }

  ghost predicate AllFull(s: State)
  {
    Full(s.table) && (forall c :: c in s.slots && s.view != Some(c) ==> Full(s.slots[c])) && (s.base.Some? ==> Full(s.base.value))
  }

  /** Running code unsets nothing, sets arrays, and no context dies while its view is installed. */
  ghost predicate Ordinary(s: State, e: Event)
  {
    match e
    case Write(_, entry) => entry.Some?
    case Set(_, vals) => Full(vals)
    case Destroy(ctx) => s.view != Some(ctx)
    case _ => true
  }

  ghost predicate AllOrdinary(s: State, events: seq<Event>)
  {
    forall k :: 0 <= k < |events| ==> Ordinary(Replay(s, events[..k]), events[k])
  }

  lemma {:induction false} OrdinaryRun(table: Row, events: seq<Event>)
    requires Full(table) && AllOrdinary(Fresh(table), events)
    ensures AllFull(Replay(Fresh(table), events))
  {
    hide Ordinary, AllFull, Next;
    if events == [] {
      FreshIsFull(table);
    } else {
      var n := |events| - 1;
      forall k | 0 <= k < n ensures Ordinary(Replay(Fresh(table), events[..n][..k]), events[..n][k]) {
        assert events[..n][..k] == events[..k];
      }
      OrdinaryRun(table, events[..n]);
      FullStays(Replay(Fresh(table), events[..n]), events[n]);
    }
  }

  lemma FreshIsFull(table: Row)
    requires Full(table)
    ensures AllFull(Fresh(table))
  {
  }

  /** With all four keys in the base view, ordinary code only ever produces clean events. */
  lemma OrdinaryIsClean(table: Row, events: seq<Event>)
    requires Full(table) && AllOrdinary(Fresh(table), events)
    ensures AllClean(Fresh(table), events)
  {
    hide Ordinary, AllFull, Next, Clean, Replay;
    forall k | 0 <= k < |events| ensures Clean(Replay(Fresh(table), events[..k]), events[k]) {
      assert AllOrdinary(Fresh(table), events[..k]) by {
        assert forall j :: 0 <= j < k ==> events[..k][..j] == events[..j];
      }
      OrdinaryRun(table, events[..k]);
      FullStays(Replay(Fresh(table), events[..k]), events[k]);
    }
  }

  lemma FullStays(s: State, e: Event)
    requires AllFull(s) && Ordinary(s, e)
    ensures AllFull(Next(s, e)) && Clean(s, e)
  {
  }

  // ---------------------------------------------------------------- where the code falls short

  /**
   A context destroyed while its view is installed: the next switch to main finds no owner and returns
   early, so {main} goes on reading the dead fiber's globals, and the next isolation makes them the base row.
   */
  lemma DeadViewStays(s: State, ctx: nat, other: nat, vals: Row)
    requires s.view == Some(ctx) && other !in s.slots && Full(s.table)
    ensures var t := Next(Next(s, Destroy(ctx)), SwitchToMain); t.view == None && t.table == s.table
    ensures var u := Next(Next(Next(Next(s, Destroy(ctx)), SwitchToMain), Set(Some(other), vals)), SwitchToMain);
      u.base == Some(s.table) && u.table == s.table
  {
    assert Covers(s.table, Install(vals, s.table));
    InstallIsExact(s.table, Install(vals, s.table));
  }

  /** Such a run: a fiber sets its globals, dies while they are installed, and {main} runs next. */
  lemma DeadViewIsReached(row: Row, vals: Row)
    ensures var events := [Set(Some(1), vals), Destroy(1), SwitchToMain];
      && Replay(Fresh(row), events).view == None
      && Replay(Fresh(row), events).table == Install(vals, row)
      && Visible(Track(Store(row, map[], None), events)) == row
  {
    hide Replay, Track;
    var a, b, c := Set(Some(1), vals), Destroy(1), SwitchToMain;
    ReplaySnoc(Fresh(row), Store(row, map[], None), [], a);
    ReplaySnoc(Fresh(row), Store(row, map[], None), [a], b);
    ReplaySnoc(Fresh(row), Store(row, map[], None), [a, b], c);
    assert [] + [a] == [a] && [a] + [b] == [a, b] && [a, b] + [c] == [a, b, c];
  }

  /**
   After a clean run with a fiber's view installed, {main} gets its own globals back exactly if no key it
   lacks is set in the table, and each such key keeps the fiber's value.
   */
  lemma MissingKeyLeaks(table: Row, events: seq<Event>)
    requires AllClean(Fresh(table), events) && Replay(Fresh(table), events).view.Some?
    ensures var s, main := Replay(Fresh(table), events), Track(Store(table, map[], None), events).main;
      var t := Next(s, SwitchToMain);
      && (t.table == main <==> forall k :: 0 <= k < KEYS && main[k].None? ==> s.table[k].None?)
      && (forall k :: 0 <= k < KEYS && main[k].None? ==> t.table[k] == s.table[k])
  {
    CleanRunsRefine(table, events);
    var s, main := Replay(Fresh(table), events), Track(Store(table, map[], None), events).main;
    InstallIsExact(main, s.table);
    hide Replay, Track, AllClean;
  }

  // ---------------------------------------------------------------- as the source writes it

  class Superglobals {
    var table: Row
    var base: Option<Row>
    var view: Option<nat>
    var slots: map<nat, Row>

    ghost function Model(): State
      reads this
    {
      State(table, base, view, slots)
    }

    constructor (initial: Row)
      ensures Model() == Fresh(initial)
    {
      table, base, view, slots := initial, None, None, map[];
    }

    /** Copies the four entries out of the symbol table. */
    method Snapshot() returns (out: Row)
      ensures out == table
    {
      out := [None, None, None, None];
      for k := 0 to KEYS
        invariant forall j :: 0 <= j < k ==> out[j] == table[j]
        invariant forall j :: k <= j < KEYS ==> out[j] == None
      {
        if table[k].Some? {
          out := out[k := table[k]];
        }
      }
    }

    method InstallRow(vals: Row)
      modifies this`table
      ensures table == Install(vals, old(table))
    {
      for k := 0 to KEYS
        invariant forall j :: 0 <= j < k ==> table[j] == Install(vals, old(table))[j]
        invariant forall j :: k <= j < KEYS ==> table[j] == old(table)[j]
      {
        if vals[k].None? {
          continue;
        }
        table := table[k := vals[k]];
      }
    }

    /** The installed view goes to its owner's slot, or to BASE. */
    method SaveCurrentView()
      modifies this`base, this`slots
      ensures Model() == Save(old(Model()))
    {
      var snap := Snapshot();
      match view {
        case None => base := Some(snap);
        case Some(owner) => slots := slots[owner := snap];
      }
    }

    method IsolateCurrent(active: Option<nat>)
      modifies this
      ensures Model() == Isolate(old(Model()), active)
    {
      if active.None? {
        return;                                  // {main}: the base world itself
      }
      if active.value !in slots {
        SaveCurrentView();
        slots := slots[active.value := [None, None, None, None]];
        view := active;
      }
    }

    method SetSuperglobals(active: Option<nat>, vals: Row)
      modifies this
      ensures Model() == Next(old(Model()), Set(active, vals))
    {
      IsolateCurrent(active);
      InstallRow(vals);
    }

    method OnSwitch(to: nat)
      modifies this
      ensures Model() == Next(old(Model()), SwitchTo(to))
    {
      if to in slots {
        if view == Some(to) {
          return;                                // a child returned to it
        }
        SaveCurrentView();
        InstallRow(slots[to]);
        view := Some(to);
      }
    }

    method OnSwitchToMain()
      modifies this
      ensures Model() == Next(old(Model()), SwitchToMain)
    {
      if view.None? {
        return;                                  // base world to base world
      }
      SaveCurrentView();
      if base.Some? {
        InstallRow(base.value);
      }
      view := None;
    }

    method OnDestroy(ctx: nat)
      modifies this`slots, this`view
      ensures Model() == Next(old(Model()), Destroy(ctx))
    {
      slots := slots - {ctx};
      if view == Some(ctx) {
        view := None;
      }
    }
  }
}
