/**
 Scoped objects: the declared properties of an object hold the current scope's values, and each fiber
 switch moves them between scopes.  The reference is a store with one row per scope and object, in which
 a scope that meets an object for the first time takes a copy of row zero.
 */
module Scoped {
  import opened Prelude

  type Row = seq<Option<int>>                    // the declared slots; None is IS_UNDEF

  const ROW_ZERO: nat := 0                       // the scope of {main}, and what the others inherit from

  type Key = (nat, nat)                          // scope, object handle

  datatype State = State(
    current: nat,                                // the running scope
    slots: map<nat, Row>,                        // live object -> what its own properties table holds
    tables: map<Key, Row>
  )

  datatype Event =
    | Switch(to: nat)
    | Allocate(handle: nat, defaults: Row)
    | Seal(handle: nat)
    | Write(handle: nat, index: nat, value: Option<int>)
    | RowsClear
    | Free(handle: nat)
    | Reuse(scope: nat)                          // a fiber ended and another got its context's address

  predicate Enabled(s: State, e: Event)
  {
    match e
    case Switch(_) => true
    case Allocate(h, _) => h !in s.slots
    case Seal(h) => h in s.slots
    case Write(h, index, _) => h in s.slots && index < |s.slots[h]|
    case RowsClear => true
    case Free(h) => h in s.slots
    case Reuse(scope) => scope != s.current && scope != ROW_ZERO
  }

  // ---------------------------------------------------------------- the swap

  function Undef(count: nat): Row
  {
    seq(count, _ => None)
  }

  /** What `TABLES` has of row zero. */
  function Defaults(tables: map<Key, Row>, h: nat, count: nat): Row
  {
    if (ROW_ZERO, h) in tables then tables[(ROW_ZERO, h)] else Undef(count)
  }

  function Rows(scope: nat, slots: map<nat, Row>): map<Key, Row>
  {
    map h | h in slots :: (scope, h) := slots[h]
  }

  function Keys(scope: nat, slots: map<nat, Row>): set<Key>
  {
    set h | h in slots :: (scope, h)
  }

  function SwitchTo(s: State, to: nat): State
  {
    var saved := s.tables + Rows(s.current, s.slots);
    State(to,
          map h | h in s.slots :: if (to, h) in saved then saved[(to, h)] else Defaults(saved, h, |s.slots[h]|),
          saved - Keys(to, s.slots))
  }

  function Clear(s: State): State
  {
    s.(slots := map h | h in s.slots :: Defaults(s.tables, h, |s.slots[h]|),
       tables := map k | k in s.tables && k.0 != s.current :: s.tables[k])
  }

  function Next(s: State, e: Event): State
    requires Enabled(s, e)
  {
    match e
    case Switch(to) => if to == s.current then s else SwitchTo(s, to)
    case Allocate(h, defaults) => s.(slots := s.slots[h := defaults])
    case Seal(h) => s.(tables := s.tables[(ROW_ZERO, h) := s.slots[h]])
    case Write(h, index, value) => s.(slots := s.slots[h := s.slots[h][index := value]])
    case RowsClear => if s.current == ROW_ZERO then s else Clear(s)
    case Free(h) => s.(slots := s.slots - {h}, tables := map k | k in s.tables && k.1 != h :: s.tables[k])
    case Reuse(_) => s                           // nothing here hears of it
  }

  // ---------------------------------------------------------------- the reference store

  datatype Store = Store(current: nat, live: set<nat>, cells: map<Key, Row>)

  /** A copy of row zero for every object that has one. */
  function Inherited(st: Store, scope: nat): map<Key, Row>
  {
    map h | h in st.live && (ROW_ZERO, h) in st.cells :: (scope, h) := st.cells[(ROW_ZERO, h)]
  }

  function Step(st: Store, e: Event): Store
  {
    match e
    case Switch(to) =>
      st.(current := to, cells := Inherited(st, to) + st.cells)
    case Allocate(h, defaults) => st.(live := st.live + {h}, cells := st.cells[(st.current, h) := defaults])
    case Seal(h) => if (st.current, h) in st.cells then st.(cells := st.cells[(ROW_ZERO, h) := st.cells[(st.current, h)]]) else st
    case Write(h, index, value) =>
      if (st.current, h) in st.cells && index < |st.cells[(st.current, h)]|
      then st.(cells := st.cells[(st.current, h) := st.cells[(st.current, h)][index := value]]) else st
    case RowsClear =>
      st.(cells := map k | k in st.cells :: if k.0 == st.current && (ROW_ZERO, k.1) in st.cells then st.cells[(ROW_ZERO, k.1)] else st.cells[k])
    case Free(h) => st.(live := st.live - {h}, cells := map k | k in st.cells && k.1 != h :: st.cells[k])
    case Reuse(scope) => st.(cells := map k | k in st.cells && k.0 != scope :: st.cells[k])
  }

  /** The object shows the running scope's row, and every other scope's row is in the tables. */
  ghost predicate Refines(s: State, st: Store)
  {
    && s.current == st.current
    && (forall h :: h in s.slots <==> h in st.live)
    && (forall h :: h in s.slots ==> (s.current, h) in st.cells && st.cells[(s.current, h)] == s.slots[h])
    && (forall k :: k in s.tables ==> k.1 in s.slots)
    && (forall k :: k in st.cells ==> k.1 in s.slots)
    && (forall k: Key :: k.0 != s.current ==> (k in s.tables <==> k in st.cells))
    && (forall k: Key :: k.0 != s.current && k in s.tables ==> s.tables[k] == st.cells[k])
  }

  predicate Sealed(s: State, h: nat)
  {
    s.current == ROW_ZERO || (ROW_ZERO, h) in s.tables
  }

  /** What a caller can check: no switch or clear before the seal, and no context address handed out with rows left on it. */
  ghost predicate Clean(s: State, e: Event)
  {
    match e
    case Switch(to) => to != s.current ==> forall h :: h in s.slots ==> Sealed(s, h) || (to, h) in s.tables
    case RowsClear => forall h :: h in s.slots ==> Sealed(s, h) || s.slots[h] == Undef(|s.slots[h]|)
    case Reuse(scope) => forall h :: (scope, h) !in s.tables
    case _ => true
  }

  // ---------------------------------------------------------------- event by event

  lemma SwitchedTables(s: State, to: nat, k: Key)
    requires to != s.current
    ensures k in SwitchTo(s, to).tables <==> (k in s.tables || (k.0 == s.current && k.1 in s.slots)) && !(k.0 == to && k.1 in s.slots)
    ensures k in SwitchTo(s, to).tables ==>
              SwitchTo(s, to).tables[k] == if k.0 == s.current && k.1 in s.slots then s.slots[k.1] else s.tables[k]
  {
    var rows := Rows(s.current, s.slots);
    assert k in rows <==> k.0 == s.current && k.1 in s.slots;
    assert k in Keys(to, s.slots) <==> k.0 == to && k.1 in s.slots;
    if k in rows {
      assert (s.current, k.1) == k && rows[k] == s.slots[k.1];
    }
  }

  lemma SwitchedSlots(s: State, to: nat, h: nat)
    requires to != s.current
    ensures h in SwitchTo(s, to).slots <==> h in s.slots
    ensures h in s.slots ==>
              SwitchTo(s, to).slots[h] ==
              if (to, h) in s.tables then s.tables[(to, h)]
              else if s.current == ROW_ZERO then s.slots[h]
              else Defaults(s.tables, h, |s.slots[h]|)
  {
    var saved := s.tables + Rows(s.current, s.slots);
    assert (s.current, h) in saved <==> (s.current, h) in s.tables || h in s.slots;
    assert (to, h) in saved <==> (to, h) in s.tables;
    if h in s.slots {
      assert Rows(s.current, s.slots)[(s.current, h)] == s.slots[h];
    }
  }

  lemma SwitchedCells(st: Store, to: nat, k: Key)
    ensures var u := Step(st, Switch(to));
      && (k in u.cells <==> k in st.cells || (k.0 == to && k.1 in st.live && (ROW_ZERO, k.1) in st.cells))
      && (k in u.cells ==> u.cells[k] == if k in st.cells then st.cells[k] else st.cells[(ROW_ZERO, k.1)])
  {
    var more := Inherited(st, to);
    assert k in more <==> k.0 == to && k.1 in st.live && (ROW_ZERO, k.1) in st.cells;
    if k in more {
      assert (to, k.1) == k && more[k] == st.cells[(ROW_ZERO, k.1)];
    }
  }

  /** Row zero of an object that is not running in {main} is in the tables exactly when the store has it. */
  lemma ZeroRow(s: State, st: Store, h: nat)
    requires Refines(s, st) && h in s.slots
    ensures Sealed(s, h) <==> (ROW_ZERO, h) in st.cells
    ensures Sealed(s, h) ==> st.cells[(ROW_ZERO, h)] == if s.current == ROW_ZERO then s.slots[h] else s.tables[(ROW_ZERO, h)]
  {
  }

  lemma SwitchClean(s: State, st: Store, to: nat)
    requires Refines(s, st) && to != s.current && Clean(s, Switch(to))
    ensures Refines(SwitchTo(s, to), Step(st, Switch(to)))
  {
    hide SwitchTo, Step, Sealed;
    var t, u := SwitchTo(s, to), Step(st, Switch(to));
    SwitchScopes(s, st, to);
    forall h | h in s.slots ensures h in t.slots && (to, h) in u.cells && u.cells[(to, h)] == t.slots[h] {
      SwitchedSlots(s, to, h);
      SwitchedCells(st, to, (to, h));
      ZeroRow(s, st, h);
    }
    forall h ensures h in t.slots <==> h in s.slots {
      SwitchedSlots(s, to, h);
    }
    forall k: Key
      ensures k in t.tables ==> k.1 in s.slots
      ensures k in u.cells ==> k.1 in s.slots
      ensures k.0 != to ==> (k in t.tables <==> k in u.cells)
      ensures k.0 != to && k in t.tables ==> t.tables[k] == u.cells[k]
    {
      SwitchedTables(s, to, k);
      SwitchedCells(st, to, k);
    }
  }

  lemma SwitchScopes(s: State, st: Store, to: nat)
    ensures SwitchTo(s, to).current == to == Step(st, Switch(to)).current && Step(st, Switch(to)).live == st.live
  {
  }

  /** The swap follows the store over a switch exactly when it is clean. */
  lemma SwitchExactly(s: State, st: Store, to: nat)
    requires Refines(s, st) && to != s.current
    ensures Refines(SwitchTo(s, to), Step(st, Switch(to))) <==> Clean(s, Switch(to))
  {
    if Clean(s, Switch(to)) {
      SwitchClean(s, st, to);
    } else {
      hide SwitchTo, Step, Sealed;
      var h :| h in s.slots && !Sealed(s, h) && (to, h) !in s.tables;
      SwitchScopes(s, st, to);
      SwitchedSlots(s, to, h);
      SwitchedCells(st, to, (to, h));
      ZeroRow(s, st, h);
    }
  }

  lemma ClearedRow(s: State, st: Store, h: nat)
    requires Refines(s, st) && s.current != ROW_ZERO && h in s.slots
    ensures var t, u := Clear(s), Step(st, RowsClear);
      && h in t.slots && (s.current, h) in u.cells
      && (u.cells[(s.current, h)] == t.slots[h] <==> Sealed(s, h) || s.slots[h] == Undef(|s.slots[h]|))
  {
    ZeroRow(s, st, h);
  }

  lemma ClearedElsewhere(s: State, st: Store, k: Key)
    requires s.current == st.current
    ensures var t, u := Clear(s), Step(st, RowsClear);
      && (k in u.cells <==> k in st.cells) && (k.0 != s.current ==> (k in t.tables <==> k in s.tables))
      && (k.0 != s.current && k in st.cells ==> u.cells[k] == st.cells[k])
      && (k.0 != s.current && k in s.tables ==> t.tables[k] == s.tables[k])
      && (k in t.tables ==> k in s.tables)
  {
  }

  lemma ClearedScopes(s: State, st: Store)
    ensures Clear(s).current == s.current && Step(st, RowsClear).current == st.current && Step(st, RowsClear).live == st.live
    ensures forall h :: h in Clear(s).slots <==> h in s.slots
  {
  }

  lemma ClearExactly(s: State, st: Store)
    requires Refines(s, st) && s.current != ROW_ZERO
    ensures Refines(Clear(s), Step(st, RowsClear)) <==> Clean(s, RowsClear)
  {
    hide Clear, Step, Sealed;
    var t, u := Clear(s), Step(st, RowsClear);
    ClearedScopes(s, st);
    forall h | h in s.slots
      ensures (s.current, h) in u.cells
      ensures u.cells[(s.current, h)] == t.slots[h] <==> Sealed(s, h) || s.slots[h] == Undef(|s.slots[h]|)
    {
      ClearedRow(s, st, h);
    }
    forall k: Key
      ensures k in t.tables ==> k.1 in s.slots
      ensures k in u.cells ==> k.1 in s.slots
      ensures k.0 != s.current ==> (k in t.tables <==> k in u.cells) && (k in t.tables ==> t.tables[k] == u.cells[k])
    {
      ClearedElsewhere(s, st, k);
    }
  }

  lemma OthersExactly(s: State, st: Store, e: Event)
    requires Refines(s, st) && Enabled(s, e) && !e.Switch? && !e.RowsClear?
    ensures Refines(Next(s, e), Step(st, e)) <==> Clean(s, e)
  {
  }

  lemma CleanExactly(s: State, st: Store, e: Event)
    requires Refines(s, st) && Enabled(s, e)
    ensures Refines(Next(s, e), Step(st, e)) <==> Clean(s, e)
  {
    match e {
      case Switch(to) => if to == s.current { StaySwitch(s, st); } else { SwitchExactly(s, st, to); }
      case RowsClear => if s.current == ROW_ZERO { ClearInMain(s, st); } else { ClearExactly(s, st); }
      case _ => OthersExactly(s, st, e);
    }
    hide Refines, Step, SwitchTo, Clear;
  }

  lemma StaySwitch(s: State, st: Store)
    requires Refines(s, st)
    ensures Refines(s, Step(st, Switch(s.current)))
  {
    forall k: Key ensures k in Step(st, Switch(s.current)).cells <==> k in st.cells {
      SwitchedCells(st, s.current, k);
    }
    assert Step(st, Switch(s.current)).cells == st.cells;
  }

  lemma ClearInMain(s: State, st: Store)
    requires Refines(s, st) && s.current == ROW_ZERO
    ensures Refines(s, Step(st, RowsClear)) && Clean(s, RowsClear)
  {
    assert Step(st, RowsClear).cells == st.cells;
  }

  // ---------------------------------------------------------------- every run

  function Replay(events: seq<Event>): State
  {
    if events == [] then State(ROW_ZERO, map[], map[])
    else
      var s, last := Replay(events[..|events| - 1]), events[|events| - 1];
      if Enabled(s, last) then Next(s, last) else s
  }

  function Track(events: seq<Event>): Store
  {
    if events == [] then Store(ROW_ZERO, {}, map[])
    else
      var last := events[|events| - 1];
      if Enabled(Replay(events[..|events| - 1]), last) then Step(Track(events[..|events| - 1]), last) else Track(events[..|events| - 1])
  }

  ghost predicate AllClean(events: seq<Event>)
  {
    forall k :: 0 <= k < |events| && Enabled(Replay(events[..k]), events[k]) ==> Clean(Replay(events[..k]), events[k])
  }

  /** As long as every event is clean, each scope reads what the store holds for it. */
  lemma {:induction false} CleanRunsRefine(events: seq<Event>)
    requires AllClean(events)
    ensures Refines(Replay(events), Track(events))
  {
    hide Next, Step, Enabled, Clean;
    if events != [] {
      var n := |events| - 1;
      forall k | 0 <= k < n && Enabled(Replay(events[..n][..k]), events[..n][k]) ensures Clean(Replay(events[..n][..k]), events[..n][k]) {
        assert events[..n][..k] == events[..k];
      }
      CleanRunsRefine(events[..n]);
      if Enabled(Replay(events[..n]), events[n]) {
        CleanExactly(Replay(events[..n]), Track(events[..n]), events[n]);
      }
    }
  }

  // ---------------------------------------------------------------- what the store promises

  lemma ReplaySnoc(events: seq<Event>, e: Event)
    ensures Replay(events + [e]) == if Enabled(Replay(events), e) then Next(Replay(events), e) else Replay(events)
    ensures Track(events + [e]) == if Enabled(Replay(events), e) then Step(Track(events), e) else Track(events)
    ensures Replay([]) == State(ROW_ZERO, map[], map[]) && Track([]) == Store(ROW_ZERO, {}, map[])
  {
    hide Next, Step, Enabled;
    assert (events + [e])[..|events|] == events;
  }

  /** The row a scope has of an object: on the object itself while the scope runs, and in the tables otherwise. */
  function RowAt(s: State, k: Key): Option<Row>
  {
    if k.0 == s.current then (if k.1 in s.slots then Some(s.slots[k.1]) else None)
    else if k in s.tables then Some(s.tables[k]) else None
  }

  lemma RowIsCell(s: State, st: Store, k: Key)
    requires Refines(s, st)
    ensures RowAt(s, k) == if k in st.cells then Some(st.cells[k]) else None
  {
  }

  /** Nothing in this event gives the scope of this row the thread, or ends the object or the scope. */
  predicate Elsewhere(e: Event, k: Key)
  {
    && e != Switch(k.0) && e != Free(k.1) && e != Reuse(k.0)
    && (k.0 == ROW_ZERO ==> e != Seal(k.1))
  }

  lemma CellStays(st: Store, e: Event, k: Key)
    requires k in st.cells && k.0 != st.current && Elsewhere(e, k)
    ensures k in Step(st, e).cells && Step(st, e).cells[k] == st.cells[k] && Step(st, e).current != k.0
  {
    if e.Switch? {
      SwitchedCells(st, e.to, k);
    }
  }

  /**
   A scope's row of an object stays what it is while others run, whatever they do to the object: only its own
   scope, a seal of row zero, or the end of object or scope can change it.
   */
  lemma {:induction false} OthersCannotWrite(events: seq<Event>, more: seq<Event>, k: Key)
    requires AllClean(events + more)
    requires RowAt(Replay(events), k).Some? && k.0 != Replay(events).current && forall e :: e in more ==> Elsewhere(e, k)
    ensures RowAt(Replay(events + more), k) == RowAt(Replay(events), k) && Replay(events + more).current != k.0
    decreases |more|
  {
    hide Next, Step, Enabled, Clean, Refines, RowAt, Elsewhere, Replay, Track;
    if more == [] {
      assert events + more == events;
    } else {
      var front, e := more[..|more| - 1], more[|more| - 1];
      assert events + more == events + front + [e];
      assert forall x :: x in front ==> x in more;
      CleanFront(events + front, [e]);
      OthersCannotWrite(events, front, k);
      var s, st := Replay(events + front), Track(events + front);
      ReplaySnoc(events + front, e);
      CleanRunsRefine(events + front);
      RowIsCell(s, st, k);
      SameCurrent(s, st);
      if Enabled(s, e) {
        CellStays(st, e, k);
        LastIsClean(events + front, e);
        CleanExactly(s, st, e);
        RowIsCell(Next(s, e), Step(st, e), k);
        SameCurrent(Next(s, e), Step(st, e));
      }
    }
  }

  lemma SameCurrent(s: State, st: Store)
    requires Refines(s, st)
    ensures s.current == st.current
  {
  }

  lemma CleanFront(events: seq<Event>, more: seq<Event>)
    requires AllClean(events + more)
    ensures AllClean(events)
  {
    hide Clean, Enabled, Replay;
    forall k | 0 <= k < |events| && Enabled(Replay(events[..k]), events[k]) ensures Clean(Replay(events[..k]), events[k]) {
      assert (events + more)[..k] == events[..k] && (events + more)[k] == events[k];
    }
  }

  lemma LastIsClean(events: seq<Event>, e: Event)
    requires AllClean(events + [e]) && Enabled(Replay(events), e)
    ensures Clean(Replay(events), e)
  {
    hide Clean, Enabled, Replay;
    assert (events + [e])[..|events|] == events && (events + [e])[|events|] == e;
  }

  /** A scope that has never held the object finds on it, when it first runs, row zero as it is then. */
  lemma FirstSwitchInherits(events: seq<Event>, to: nat, h: nat)
    requires AllClean(events) && Clean(Replay(events), Switch(to))
    requires var s := Replay(events);
      h in s.slots && to != s.current && RowAt(s, (to, h)).None? && RowAt(s, (ROW_ZERO, h)).Some?
    ensures var s := Replay(events);
      var t := Next(s, Switch(to));
      h in t.slots && t.slots[h] == RowAt(s, (ROW_ZERO, h)).value
  {
    var s, st := Replay(events), Track(events);
    CleanRunsRefine(events);
    hide Replay, Track, AllClean, Next, Step;
    CleanExactly(s, st, Switch(to));
    RowIsCell(s, st, (to, h));
    RowIsCell(s, st, (ROW_ZERO, h));
    SwitchedCells(st, to, (to, h));
    LiveIsHeld(s, st, h);
    RowIsCell(Next(s, Switch(to)), Step(st, Switch(to)), (to, h));
    SwitchRuns(s, to);
    hide Refines, Clean;
  }

  lemma LiveIsHeld(s: State, st: Store, h: nat)
    requires Refines(s, st)
    ensures h in s.slots <==> h in st.live
  {
  }

  lemma SwitchRuns(s: State, to: nat)
    ensures Next(s, Switch(to)).current == to
  {
  }

  /** After a clear the scope reads row zero as it was then, whatever it had written. */
  lemma ClearRestoresRowZero(events: seq<Event>, h: nat)
    requires var s := Replay(events); h in s.slots && s.current != ROW_ZERO && Sealed(s, h) && Clean(s, RowsClear)
    requires AllClean(events)
    ensures (ROW_ZERO, h) in Track(events).cells
    ensures h in Next(Replay(events), RowsClear).slots
    ensures Next(Replay(events), RowsClear).slots[h] == Track(events).cells[(ROW_ZERO, h)]
  {
    CleanRunsRefine(events);
    ZeroRow(Replay(events), Track(events), h);
  }

  /**
   A context address handed out again with rows left on it: the new fiber reads its predecessor's row,
   where a scope that is new would have inherited row zero.
   */
  lemma ReusedAddressInherits(s: State, st: Store, scope: nat, h: nat)
    requires Refines(s, st) && Enabled(s, Reuse(scope)) && (scope, h) in s.tables && (ROW_ZERO, h) in st.cells
    ensures var t := Next(Next(s, Reuse(scope)), Switch(scope)); h in t.slots && t.slots[h] == s.tables[(scope, h)]
    ensures var u := Step(Step(st, Reuse(scope)), Switch(scope)); (scope, h) in u.cells && u.cells[(scope, h)] == st.cells[(ROW_ZERO, h)]
  {
    SwitchedSlots(s, scope, h);
    SwitchedCells(Step(st, Reuse(scope)), scope, (scope, h));
  }

  /** One object, handle 1 of one slot: what the swap holds, and what the store holds. */
  function Held(current: nat, own: Row, tables: map<Key, Row>): State
  {
    State(current, map[1 := own], tables)
  }

  function Kept(current: nat, cells: map<Key, Row>): Store
  {
    Store(current, {1}, cells)
  }

  lemma SharedFirst(a: Row)
    ensures Next(Held(0, a, map[(0, 1) := a]), Switch(1)) == Held(1, a, map[(0, 1) := a])
    ensures Step(Kept(0, map[(0, 1) := a]), Switch(1)) == Kept(1, map[(0, 1) := a, (1, 1) := a])
  {
    hide SwitchTo;
    var s, st := Held(0, a, map[(0, 1) := a]), Kept(0, map[(0, 1) := a]);
    forall k ensures k in SwitchTo(s, 1).tables <==> k == (0, 1) {
      SwitchedTables(s, 1, k);
    }
    SwitchedTables(s, 1, (0, 1));
    SwitchedSlots(s, 1, 1);
    assert SwitchTo(s, 1).tables == map[(0, 1) := a];
    forall h ensures h in SwitchTo(s, 1).slots <==> h == 1 {
      SwitchedSlots(s, 1, h);
    }
    assert SwitchTo(s, 1).slots == map[1 := a];
    SwitchedTo(s, 1);
    forall k ensures k in Step(st, Switch(1)).cells <==> k == (0, 1) || k == (1, 1) {
      SwitchedCells(st, 1, k);
    }
    SwitchedCells(st, 1, (0, 1));
    SwitchedCells(st, 1, (1, 1));
    assert Step(st, Switch(1)).cells == map[(0, 1) := a, (1, 1) := a];
  }

  lemma SwitchedTo(s: State, to: nat)
    ensures SwitchTo(s, to).current == to
  {
  }

  lemma BackToMain(a: Row, b: Row)
    ensures Next(Held(1, b, map[(0, 1) := a]), Switch(0)) == Held(0, a, map[(1, 1) := b])
    ensures Step(Kept(1, map[(0, 1) := a, (1, 1) := b]), Switch(0)) == Kept(0, map[(0, 1) := a, (1, 1) := b])
  {
    hide SwitchTo;
    var s, st := Held(1, b, map[(0, 1) := a]), Kept(1, map[(0, 1) := a, (1, 1) := b]);
    forall k ensures k in SwitchTo(s, 0).tables <==> k == (1, 1) {
      SwitchedTables(s, 0, k);
    }
    SwitchedTables(s, 0, (1, 1));
    SwitchedSlots(s, 0, 1);
    assert SwitchTo(s, 0).tables == map[(1, 1) := b];
    forall h ensures h in SwitchTo(s, 0).slots <==> h == 1 {
      SwitchedSlots(s, 0, h);
    }
    assert SwitchTo(s, 0).slots == map[1 := a];
    SwitchedTo(s, 0);
    forall k ensures k in Step(st, Switch(0)).cells <==> k in st.cells {
      SwitchedCells(st, 0, k);
    }
    SwitchedCells(st, 0, (0, 1));
    SwitchedCells(st, 0, (1, 1));
    assert Step(st, Switch(0)).cells == st.cells;
  }

  /** The next fiber at the address, after the first one ended. */
  lemma NextAtAddress(a: Row, b: Row)
    ensures var s := Held(0, a, map[(1, 1) := b]); 1 in Next(s, Switch(1)).slots && Next(s, Switch(1)).slots[1] == b
    ensures var st := Step(Kept(0, map[(0, 1) := a, (1, 1) := b]), Reuse(1));
      (1, 1) in Step(st, Switch(1)).cells && Step(st, Switch(1)).cells[(1, 1)] == a
  {
    hide SwitchTo;
    SwitchedSlots(Held(0, a, map[(1, 1) := b]), 1, 1);
    SwitchedCells(Step(Kept(0, map[(0, 1) := a, (1, 1) := b]), Reuse(1)), 1, (1, 1));
  }

  /**
   Such a run: {main} shares an object whose slot holds a, a fiber changes its own to b and ends, and the
   next fiber at its address reads b, where the store has a for it.
   */
  lemma ReuseIsReached(a: Option<int>, b: Option<int>)
    ensures var events := [Allocate(1, [a]), Seal(1), Switch(1), Write(1, 0, b), Switch(0), Reuse(1), Switch(1)];
      && 1 in Replay(events).slots && Replay(events).slots[1] == [b]
      && (1, 1) in Track(events).cells && Track(events).cells[(1, 1)] == [a]
  {
    hide Replay, Track, Next, Step, Enabled, Held, Kept;
    ReplaySnoc([], Allocate(1, [a]));
    Allocated([a]);
    var one := [] + [Allocate(1, [a])];
    ReplaySnoc(one, Seal(1));
    ReplaySnoc(one + [Seal(1)], Switch(1));
    SharedFirst([a]);
    var three := one + [Seal(1)] + [Switch(1)];
    Written(a, b);
    ReplaySnoc(three, Write(1, 0, b));
    ReplaySnoc(three + [Write(1, 0, b)], Switch(0));
    BackToMain([a], [b]);
    var five := three + [Write(1, 0, b)] + [Switch(0)];
    ReplaySnoc(five, Reuse(1));
    ReplaySnoc(five + [Reuse(1)], Switch(1));
    NextAtAddress([a], [b]);
    assert five + [Reuse(1)] + [Switch(1)] ==
           [Allocate(1, [a]), Seal(1), Switch(1), Write(1, 0, b), Switch(0), Reuse(1), Switch(1)];
  }

  lemma Allocated(row: Row)
    ensures Enabled(State(ROW_ZERO, map[], map[]), Allocate(1, row)) && Enabled(Held(0, row, map[]), Seal(1))
    ensures Enabled(Held(0, row, map[(0, 1) := row]), Switch(1))
    ensures Next(State(ROW_ZERO, map[], map[]), Allocate(1, row)) == Held(0, row, map[])
    ensures Step(Store(ROW_ZERO, {}, map[]), Allocate(1, row)) == Kept(0, map[(0, 1) := row])
    ensures Next(Held(0, row, map[]), Seal(1)) == Held(0, row, map[(0, 1) := row])
    ensures Step(Kept(0, map[(0, 1) := row]), Seal(1)) == Kept(0, map[(0, 1) := row])
  {
  }

  lemma Written(a: Option<int>, b: Option<int>)
    ensures Enabled(Held(1, [a], map[(0, 1) := [a]]), Write(1, 0, b))
    ensures Next(Held(1, [a], map[(0, 1) := [a]]), Write(1, 0, b)) == Held(1, [b], map[(0, 1) := [a]])
    ensures Step(Kept(1, map[(0, 1) := [a], (1, 1) := [a]]), Write(1, 0, b)) == Kept(1, map[(0, 1) := [a], (1, 1) := [b]])
    ensures Enabled(Held(0, [a], map[(1, 1) := [b]]), Reuse(1)) && Enabled(Held(0, [a], map[(1, 1) := [b]]), Switch(1))
    ensures Enabled(Held(1, [b], map[(0, 1) := [a]]), Switch(0))
    ensures Next(Held(0, [a], map[(1, 1) := [b]]), Reuse(1)) == Held(0, [a], map[(1, 1) := [b]])
  {
    assert [a][0 := b] == [b];
  }

  // ---------------------------------------------------------------- as the source writes it

  class Objects {
    var current: nat
    var slots: map<nat, Row>
    var tables: map<Key, Row>

    ghost function Model(): State
      reads this
    {
      State(current, slots, tables)
    }

    constructor ()
      ensures Model() == State(ROW_ZERO, map[], map[])
    {
      current, slots, tables := ROW_ZERO, map[], map[];
    }

    method Allocate(handle: nat, defaults: Row)
      requires Enabled(Model(), Event.Allocate(handle, defaults))
      modifies this`slots
      ensures Model() == Next(old(Model()), Event.Allocate(handle, defaults))
    {
      slots := slots[handle := defaults];
    }

    /** Row zero of the object becomes its present slots; the running scope makes no difference. */
    method Seal(handle: nat)
      requires Enabled(Model(), Event.Seal(handle))
      modifies this`tables
      ensures Model() == Next(old(Model()), Event.Seal(handle))
    {
      tables := tables[(ROW_ZERO, handle) := slots[handle]];
    }

    /** Swaps the rows of all live objects; the walk takes them in whatever order they come. */
    method OnSwitch(entering: nat)
      modifies this
      ensures Model() == Next(old(Model()), Switch(entering))
    {
      hide Moved, Untouched, SwitchTo;
      var leaving := current;
      if leaving == entering {
        return;
      }
      ghost var before := Model();
      forall h ensures Untouched(before, Model(), h) {
        NothingMoved(before, h);
      }
      var todo := slots.Keys;
      while todo != {}
        invariant todo <= slots.Keys == before.slots.Keys && current == leaving
        invariant forall h :: if h in slots && h !in todo then Moved(before, Model(), h, entering) else Untouched(before, Model(), h)
        decreases |todo|
      {
        var h :| h in todo;
        ghost var mid := Model();
        SwitchObject(h, entering);
        forall g ensures if g in slots && g !in todo - {h} then Moved(before, Model(), g, entering) else Untouched(before, Model(), g) {
          MovesCompose(before, mid, Model(), h, g, entering);
        }
        todo := todo - {h};
      }
      AllMoved(before, Model(), entering);
      current := entering;
    }

    method SwitchObject(h: nat, entering: nat)
      requires h in slots && current != entering
      modifies this`slots, this`tables
      ensures slots.Keys == old(slots).Keys && Moved(old(Model()), Model(), h, entering)
      ensures forall g :: g != h ==> Untouched(old(Model()), Model(), g)
    {
      tables := tables[(current, h) := slots[h]];
      if (entering, h) in tables {
        slots := slots[h := tables[(entering, h)]];
        tables := tables - {(entering, h)};
      } else {
        slots := slots[h := Defaults(tables, h, |slots[h]|)];
      }
    }

    /** The objects go back to row zero first: the next switch out would save the dying request's values again. */
    method RowsClear()
      modifies this`slots, this`tables
      ensures Model() == Next(old(Model()), Event.RowsClear)
    {
      if current == ROW_ZERO {
        return;
      }
      var todo := slots.Keys;
      while todo != {}
        invariant todo <= slots.Keys == old(slots).Keys && tables == old(tables)
        invariant forall h :: h in slots ==>
                    slots[h] == if h in todo then old(slots)[h] else Defaults(tables, h, |old(slots)[h]|)
        decreases |todo|
      {
        var h :| h in todo;
        slots := slots[h := Defaults(tables, h, |slots[h]|)];
        todo := todo - {h};
      }
      tables := map k | k in tables && k.0 != current :: tables[k];
    }

    method FreeObj(handle: nat)
      requires Enabled(Model(), Free(handle))
      modifies this`slots, this`tables
      ensures Model() == Next(old(Model()), Free(handle))
    {
      slots := slots - {handle};
      tables := map k | k in tables && k.1 != handle :: tables[k];
    }
  }

  // ---------------------------------------------------------------- how the walk adds up

  ghost predicate SameRow(s: State, t: State, k: Key)
  {
    (k in s.tables <==> k in t.tables) && (k in s.tables ==> s.tables[k] == t.tables[k])
  }

  ghost predicate Untouched(s: State, t: State, h: nat)
  {
    && (h in s.slots <==> h in t.slots) && (h in s.slots ==> s.slots[h] == t.slots[h])
    && forall scope :: SameRow(s, t, (scope, h))
  }

  /** This object's rows have changed places: the outgoing scope's is stored, the incoming one's is in the object. */
  ghost predicate Moved(s: State, t: State, h: nat, to: nat)
  {
    && h in s.slots && h in t.slots
    && t.slots[h] == (if (to, h) in s.tables then s.tables[(to, h)]
                      else if s.current == ROW_ZERO then s.slots[h]
                      else Defaults(s.tables, h, |s.slots[h]|))
    && (s.current, h) in t.tables && t.tables[(s.current, h)] == s.slots[h] && (to, h) !in t.tables
    && forall scope :: scope != s.current && scope != to ==> SameRow(s, t, (scope, h))
  }

  lemma NothingMoved(s: State, h: nat)
    ensures Untouched(s, s, h)
  {
  }

  lemma MovesCompose(s: State, t: State, u: State, h: nat, g: nat, to: nat)
    requires t.current == s.current == u.current && Moved(t, u, h, to) && (g != h ==> Untouched(t, u, g))
    ensures g != h && Untouched(s, t, g) ==> Untouched(s, u, g)
    ensures g != h && Moved(s, t, g, to) ==> Moved(s, u, g, to)
    ensures Untouched(s, t, h) ==> Moved(s, u, h, to)
  {
    if g != h {
      assert forall scope :: SameRow(t, u, (scope, g));
    }
    if Untouched(s, t, h) {
      assert SameRow(s, t, (to, h)) && SameRow(s, t, (ROW_ZERO, h));
      assert forall scope :: SameRow(s, t, (scope, h));
    }
  }

  lemma AllMoved(s: State, t: State, to: nat)
    requires s.current != to && s.slots.Keys == t.slots.Keys
    requires forall h :: if h in s.slots then Moved(s, t, h, to) else Untouched(s, t, h)
    ensures SwitchTo(s, to) == t.(current := to)
  {
    hide SwitchTo;
    var u := SwitchTo(s, to);
    forall h ensures h in u.slots <==> h in t.slots
      ensures h in t.slots ==> u.slots[h] == t.slots[h]
    {
      SwitchedSlots(s, to, h);
      assert h in s.slots ==> Moved(s, t, h, to);
    }
    assert u.slots == t.slots;
    forall k: Key ensures k in u.tables <==> k in t.tables
      ensures k in u.tables ==> u.tables[k] == t.tables[k]
    {
      SwitchedTables(s, to, k);
      if k.1 in s.slots {
        assert Moved(s, t, k.1, to) && (k.0 != s.current && k.0 != to ==> SameRow(s, t, (k.0, k.1)));
      } else {
        assert Untouched(s, t, k.1) && SameRow(s, t, (k.0, k.1));
      }
      assert k == (k.0, k.1);
    }
    assert u.tables == t.tables;
    SwitchScopes(s, Store(0, {}, map[]), to);
  }
}
