/**
 A streamed response: what the bound fiber echoes and writes travels through a pending buffer, a bounded
 channel and, when the channel is full, an op the fiber awaits.  The op's send is a task of its own: it
 first asks the channel for a permit, waits its turn for one if there is none, and then puts its chunk in.
 The client reads, and tasks run, at any point between two steps.
 */
module Output {
  import opened Prelude

  type Bytes = seq<int>

  /** A chunk the runtime has taken; `no` counts them in the order they were taken. */
  datatype Frame = Frame(no: nat, bytes: Bytes)

  /** The request's entry in the reactor's answer map. */
  datatype Answer = Whole | Streaming | Gone

  /** What the client has been sent besides body bytes. */
  datatype Sent = Head | Full(status: int, body: Bytes) | End

  datatype State = State(
    frameBytes: nat,             // IGNIS_STREAM_FRAME_BYTES
    capacity: nat,               // chunks between PHP and the socket
    bound: bool,                 // the fiber is in BOUND
    pending: Bytes,
    started: bool,
    hand: Bytes,                 // left over from a push, on its way into send_chunk
    submitted: seq<Frame>,       // ops whose task has not asked for a permit yet
    waiting: seq<Frame>,         // ops in the queue for a permit
    granted: seq<Frame>,         // ops that hold a permit and have not used it yet
    awaited: Option<nat>,        // the frame whose op the fiber awaits
    answer: Answer,
    alive: bool,                 // the client still reads
    channel: seq<Frame>,
    received: seq<Frame>,
    wire: seq<Sent>,
    pushed: bool,                // some frame has been pushed, even an empty one
    taken: seq<Bytes>,           // every chunk the runtime has taken, into the channel or as an op
    written: Bytes               // everything the fiber wrote while bound
  )

  datatype Event =
    | Echo(bytes: Bytes)         // ub_write
    | Flush
    | Write(bytes: Bytes)        // ignis_stream_write up to its send_chunk
    | SendHand                   // send_chunk on what did not fit
    | Unbind                     // ignis_stream_unbind: the tail is in hand
    | Finish(status: int)        // endStream, or produce's 500, once nothing is in hand or awaited any more
    | Read                       // the client takes a chunk
    | Ask(op: nat)               // one of the submitted ops asks for a permit
    | Place(op: nat)             // one of the granted ops puts its chunk in
    | Refuse                     // the op at the head of the queue learns that the client is gone
    | Interrupt                  // an exception, a deadline's say, is thrown into the fiber awaiting an op
    | HangUp
    | Cancel                     // cancel_request: the answer leaves the map

  function Open(frameBytes: nat, cap: nat): State
  {
    State(frameBytes, Max(cap, 1), true, [], false, [], [], [], [], None, Whole, true, [], [], [], false, [], [])
  }

  function Concat(chunks: seq<Bytes>): Bytes
  {
    if chunks == [] then [] else chunks[0] + Concat(chunks[1..])
  }

  function BytesOf(frames: seq<Frame>): Bytes
  {
    if frames == [] then [] else frames[0].bytes + BytesOf(frames[1..])
  }

  /** The fiber runs: it neither awaits an op nor is inside one of these calls. */
  predicate Runs(s: State)
  {
    s.awaited.None? && s.hand == []
  }

  predicate Enabled(s: State, e: Event)
  {
    match e
    case Echo(_) => s.bound && Runs(s)
    case Flush => s.bound && Runs(s)
    case Write(_) => s.bound && Runs(s)
    case SendHand => s.hand != [] && s.awaited.None?
    case Unbind => s.bound && Runs(s)
    case Finish(_) => !s.bound && Runs(s)
    case Read => s.alive && s.channel != []
    case Ask(k) => k < |s.submitted|
    case Place(k) => k < |s.granted|
    case Refuse => !s.alive && s.waiting != []
    case Interrupt => s.awaited.Some?
    case HangUp => s.alive
    case Cancel => !s.alive
  }

  // ---------------------------------------------------------------- Bound::push and its callers

  /** `respond_start`: the head goes out and the answer turns from whole to streaming. */
  function RespondStart(s: State): (State, bool)
  {
    if s.answer != Whole then (s, false)
    else if !s.alive then (s.(answer := Gone), false)
    else (s.(answer := Streaming, wire := s.wire + [Head], started := true), true)
  }

  /** A permit is to be had: a slot of the channel that neither a chunk nor a granted op has. */
  predicate Free(s: State)
  {
    |s.channel| + |s.granted| < s.capacity
  }

  function Enter(s: State, f: Frame): State
  {
    s.(channel := s.channel + [f])
  }

  /** Offers a chunk to the channel; what comes back did not fit.  It looks at permits only, not at ops under way. */
  function TrySend(s: State, chunk: Bytes): (State, Bytes)
  {
    if s.answer != Streaming || !s.alive then (s, [])
    else if Free(s) then (Enter(s, Frame(|s.taken|, chunk)).(taken := s.taken + [chunk]), [])
    else (s, chunk)
  }

  function Push(s: State, chunk: Bytes): (State, Bytes)
  {
    var p := s.(pushed := true);
    if s.started then TrySend(p, chunk)
    else
      var (t, ok) := RespondStart(p);
      if ok then TrySend(t, chunk) else (t, [])
  }

  /** The pending bytes go out as one frame; what did not fit is pending again. */
  function PushPending(s: State): State
  {
    var (t, back) := Push(s.(pending := []), s.pending);
    t.(pending := back)
  }

  function UbWrite(s: State, bytes: Bytes): State
  {
    var t := s.(pending := s.pending + bytes, written := s.written + bytes);
    if bytes != [] && |t.pending| >= s.frameBytes then PushPending(t) else t
  }

  function StreamWrite(s: State, bytes: Bytes): State
  {
    var (t, back) := Push(s.(pending := [], written := s.written + bytes), s.pending + bytes);
    t.(hand := back)
  }

  /** `send_chunk`: the channel if there is room by now, an op to await otherwise. */
  function SendChunk(s: State): State
  {
    var t := s.(hand := []);
    var f := Frame(|s.taken|, s.hand);
    if s.answer != Streaming || !s.alive then t
    else if Free(s) then Enter(t, f).(taken := s.taken + [s.hand])
    else t.(submitted := s.submitted + [f], awaited := Some(f.no), taken := s.taken + [s.hand])
  }

  function StreamUnbind(s: State): State
  {
    var t := if s.pending == [] then s else PushPending(s);
    t.(bound := false, hand := t.pending, pending := [])
  }

  /** Nothing started and no tail: an ordinary response.  Otherwise the body ends. */
  function EndStream(s: State, status: int): State
  {
    if !s.started then
      if s.answer == Whole then s.(answer := Gone, wire := if s.alive then s.wire + [Full(status, [])] else s.wire) else s
    else if s.answer == Streaming then s.(answer := Gone, wire := s.wire + [End])
    else s
  }

  // ---------------------------------------------------------------- the tasks of the ops

  function Without(frames: seq<Frame>, k: nat): seq<Frame>
    requires k < |frames|
  {
    frames[..k] + frames[k + 1..]
  }

  /** The op of this frame is over; its fiber is woken if it still awaits it. */
  function Completed(s: State, f: Frame): State
  {
    s.(awaited := if s.awaited == Some(f.no) then None else s.awaited)
  }

  function AskOp(s: State, k: nat): State
    requires k < |s.submitted|
  {
    var f, t := s.submitted[k], s.(submitted := Without(s.submitted, k));
    if !s.alive then Completed(t, f)
    else if Free(s) then Completed(Enter(t, f), f)
    else t.(waiting := s.waiting + [f])
  }

  function PlaceOp(s: State, k: nat): State
    requires k < |s.granted|
  {
    var f, t := s.granted[k], s.(granted := Without(s.granted, k));
    Completed(if s.alive then Enter(t, f) else t, f)
  }

  /** The slot a read frees goes to the head of the queue, if there is one. */
  function ReadChunk(s: State): State
    requires s.channel != []
  {
    var t := s.(received := s.received + [s.channel[0]], channel := s.channel[1..]);
    if s.waiting == [] then t else t.(granted := s.granted + [s.waiting[0]], waiting := s.waiting[1..])
  }

  function Next(s: State, e: Event): State
    requires Enabled(s, e)
  {
    match e
    case Echo(bytes) => UbWrite(s, bytes)
    case Flush => if s.pending == [] then s else PushPending(s)
    case Write(bytes) => StreamWrite(s, bytes)
    case SendHand => SendChunk(s)
    case Unbind => StreamUnbind(s)
    case Finish(status) => EndStream(s, status)
    case Read => ReadChunk(s)
    case Ask(k) => AskOp(s, k)
    case Place(k) => PlaceOp(s, k)
    case Refuse => Completed(s.(waiting := s.waiting[1..]), s.waiting[0])
    case Interrupt => s.(awaited := None)
    case HangUp => s.(alive := false)
    case Cancel => s.(answer := Gone)
  }

  function Run(frameBytes: nat, cap: nat, events: seq<Event>): State
  {
    if events == [] then Open(frameBytes, cap)
    else
      var s, last := Run(frameBytes, cap, events[..|events| - 1]), events[|events| - 1];
      if Enabled(s, last) then Next(s, last) else s
  }

  // ---------------------------------------------------------------- what every event keeps

  /** The taken chunks with their numbers. */
  function Numbered(taken: seq<Bytes>): (frames: seq<Frame>)
    ensures |frames| == |taken|
  {
    seq(|taken|, k requires 0 <= k < |taken| => Frame(k, taken[k]))
  }

  /** Where the frames are: with the client, in the channel, and with the ops, those closest to the channel first. */
  function Line(s: State): seq<Frame>
  {
    s.received + s.channel + (s.granted + s.waiting + s.submitted)
  }

  predicate IsPrefix(a: Bytes, b: Bytes)
  {
    |a| <= |b| && a == b[..|a|]
  }

  /** For a client that reads, each taken chunk is somewhere, once, and together with what the fiber holds they are what it wrote. */
  ghost predicate Conserved(s: State)
  {
    && (s.alive ==> multiset(Line(s)) == multiset(Numbered(s.taken)) && Concat(s.taken) + s.hand + s.pending == s.written)
    && multiset(s.received) <= multiset(Numbered(s.taken))
    && IsPrefix(Concat(s.taken), s.written)
  }

  /** Every frame stands in line in the order it was taken. */
  ghost predicate InOrder(s: State)
  {
    Line(s) == Numbered(s.taken)
  }

  /** Which part of the machine may hold something when. */
  ghost predicate Shape(s: State)
  {
    && s.capacity >= 1 && |s.channel| + |s.granted| <= s.capacity
    && (s.alive && s.waiting != [] ==> !Free(s))
    && (s.awaited.Some? ==> s.hand == [] && s.pending == [])
    && (s.hand != [] ==> s.pending == [])
    && (!s.bound ==> s.pending == [])
    && (s.alive && s.bound ==> s.answer != Gone)
    && (s.alive && (s.hand != [] || s.awaited.Some?) ==> s.answer == Streaming)
    && (s.alive ==> (s.started <==> s.pushed))
  }

  /** Bytes only after the head. */
  ghost predicate HeadFirst(s: State)
  {
    && WellFormedWire(s.wire)
    && (s.answer == Whole ==> !s.started && s.wire == [])
    && (s.answer == Streaming ==> s.started && s.wire == [Head])
    && (s.started <==> Head in s.wire)
    && (!s.started ==> s.taken == [] && s.channel == [] && s.received == [] && s.hand == [])
    && (!s.started ==> s.submitted == [] && s.waiting == [] && s.granted == [])
  }

  /** At most one head, before everything else; an end only after it; a whole response only instead of it. */
  predicate WellFormedWire(wire: seq<Sent>)
  {
    || wire == [] || wire == [Head] || wire == [Head, End] || (|wire| == 1 && wire[0].Full? && wire[0].body == [])
  }

  ghost predicate Inv(s: State)
  {
    Shape(s) && HeadFirst(s) && Conserved(s)
  }

  // ---------------------------------------------------------------- sequences

  lemma {:induction false} ConcatSnoc(chunks: seq<Bytes>, c: Bytes)
    ensures Concat(chunks + [c]) == Concat(chunks) + c
  {
    if chunks == [] {
      assert [] + [c] == [c] && [c][1..] == [];
    } else {
      assert (chunks + [c])[0] == chunks[0] && (chunks + [c])[1..] == chunks[1..] + [c];
      ConcatSnoc(chunks[1..], c);
      assert chunks[0] + (Concat(chunks[1..]) + c) == chunks[0] + Concat(chunks[1..]) + c;
    }
  }

  lemma {:induction false} BytesJoin(a: seq<Frame>, b: seq<Frame>)
    ensures BytesOf(a + b) == BytesOf(a) + BytesOf(b)
  {
    if a == [] {
      assert [] + b == b;
    } else {
      assert (a + b)[0] == a[0] && (a + b)[1..] == a[1..] + b;
      BytesJoin(a[1..], b);
    }
  }

  lemma NumberedSnoc(taken: seq<Bytes>, c: Bytes)
    ensures Numbered(taken + [c]) == Numbered(taken) + [Frame(|taken|, c)]
  {
  }

  lemma {:induction false} NumberedBytes(taken: seq<Bytes>)
    ensures BytesOf(Numbered(taken)) == Concat(taken)
  {
    if taken != [] {
      var front, last := taken[..|taken| - 1], taken[|taken| - 1];
      assert taken == front + [last];
      NumberedBytes(front);
      NumberedSnoc(front, last);
      ConcatSnoc(front, last);
      BytesJoin(Numbered(front), [Frame(|front|, last)]);
      assert [Frame(|front|, last)][1..] == [];
    }
  }

  /** Moving a frame up past others loses nothing, and leaves a numbered line numbered exactly if there is nobody to pass. */
  lemma MoveUp(a: seq<Frame>, b: seq<Frame>, f: Frame, c: seq<Frame>, taken: seq<Bytes>)
    ensures multiset(a + [f] + b + c) == multiset(a + b + [f] + c)
    ensures a + b + [f] + c == Numbered(taken) ==> (a + [f] + b + c == Numbered(taken) <==> b == [])
  {
    if a + b + [f] + c == Numbered(taken) {
      assert (a + b + [f] + c)[|a| + |b|] == f;
      assert (a + [f] + b + c)[|a|] == f;
      if b == [] {
        assert a + [f] + b + c == a + b + [f] + c;
      }
    }
  }

  lemma PrefixGrows(a: Bytes, b: Bytes, more: Bytes)
    requires IsPrefix(a, b)
    ensures IsPrefix(a, b + more)
  {
  }

  lemma PrefixOf(a: Bytes, rest: Bytes, b: Bytes)
    requires a + rest == b
    ensures IsPrefix(a, b)
  {
  }

  // ---------------------------------------------------------------- frames

  /** The frames are where they were. */
  ghost predicate SameFrames(s: State, t: State)
  {
    && t.received == s.received && t.channel == s.channel && t.granted == s.granted && t.waiting == s.waiting
    && t.submitted == s.submitted && t.taken == s.taken
  }

  /** One more chunk was taken, into the channel. */
  ghost predicate Took(s: State, t: State, chunk: Bytes)
  {
    && t.received == s.received && t.granted == s.granted && t.waiting == s.waiting && t.submitted == s.submitted
    && t.taken == s.taken + [chunk] && t.channel == s.channel + [Frame(|s.taken|, chunk)]
  }

  ghost predicate Accounted(s: State)
  {
    multiset(Line(s)) == multiset(Numbered(s.taken))
  }

  /** A chunk that enters the channel keeps the order exactly if no op is under way. */
  lemma TookExactly(s: State, t: State, chunk: Bytes)
    requires Took(s, t, chunk)
    ensures Accounted(s) ==> Accounted(t)
    ensures InOrder(s) ==> (InOrder(t) <==> s.granted + s.waiting + s.submitted == [])
  {
    var a, b, f := s.received + s.channel, s.granted + s.waiting + s.submitted, Frame(|s.taken|, chunk);
    NumberedSnoc(s.taken, chunk);
    MoveUp(a, b, f, [], t.taken);
    assert a + b + [f] + [] == Line(s) + [f];
    assert a + [f] + b + [] == Line(t);
    hide Numbered;
  }

  /** A push moves the chunk to the end of the channel, or hands it back whole. */
  lemma PushMoves(s: State, chunk: Bytes)
    requires Shape(s) && HeadFirst(s) && s.bound && Runs(s) && s.pending == []
    ensures var (t, back) := Push(s, chunk);
      && t == s.(pushed := true, started := t.started, answer := t.answer, wire := t.wire, channel := t.channel, taken := t.taken)
      && (s.alive && Free(s) ==> Took(s, t, chunk) && back == [])
      && (s.alive && !Free(s) ==> SameFrames(s, t) && back == chunk)
      && (s.alive ==> t.answer == Streaming && t.started)
      && (!s.alive ==> SameFrames(s, t) && back == [])
      && HeadFirst(t) && (back != [] ==> t.started)
  {
    var p := s.(pushed := true);
    var (t, ok) := RespondStart(p);
    hide WellFormedWire;
    assert WellFormedWire([Head]) by { HeadAlone(); }
    assert [] + [Head] == [Head];
  }

  lemma HeadAlone()
    ensures WellFormedWire([Head])
  {
  }

  /** Changes to the pending bytes and the ghost of what was written do not touch the head. */
  lemma HeadFirstIgnores(s: State, t: State)
    requires HeadFirst(s) && t == s.(pending := t.pending, written := t.written)
    ensures HeadFirst(t)
  {
  }

  lemma HandIsStreamed(t: State, back: Bytes)
    requires HeadFirst(t) && (back != [] ==> t.started)
    ensures HeadFirst(t.(hand := back))
  {
  }

  /** What a push of the bytes the fiber holds does: they are taken, or they stay with the fiber. */
  lemma Regroup(s: State, t: State, held: Bytes, kept: Bytes)
    requires (SameFrames(s, t) && kept == held) || (Took(s, t, held) && kept == [])
    ensures Concat(t.taken) + kept == Concat(s.taken) + held
  {
    if Took(s, t, held) {
      ConcatSnoc(s.taken, held);
    }
  }

  lemma PushPendingMoves(s: State)
    requires Shape(s) && HeadFirst(s) && s.bound && Runs(s)
    ensures var t := PushPending(s);
      && Shape(t) && HeadFirst(t) && t.bound && Runs(t) && t.alive == s.alive && t.written == s.written
      && (s.alive && Free(s) ==> Took(s, t, s.pending) && t.pending == [])
      && (s.alive && !Free(s) ==> SameFrames(s, t) && t.pending == s.pending)
      && (!s.alive ==> SameFrames(s, t))
      && (t.pending != [] ==> t.started && (t.alive ==> t.answer == Streaming))
  {
    hide Push, HeadFirst;
    var p := s.(pending := []);
    HeadFirstIgnores(s, p);
    PushMoves(p, s.pending);
    var (t, back) := Push(p, s.pending);
    HeadFirstIgnores(t, t.(pending := back));
  }

  lemma ReceivedAccounted(s: State)
    ensures multiset(s.received) <= multiset(Line(s))
  {
    var rest := s.channel + (s.granted + s.waiting + s.submitted);
    assert Line(s) == s.received + rest;
  }

  /** The books after a push of `held`, of which the fiber still has `kept`. */
  lemma BooksKeep(s: State, t: State, held: Bytes, kept: Bytes)
    requires Conserved(s) && t.alive == s.alive
    requires (Took(s, t, held) && kept == []) || (SameFrames(s, t) && (s.alive ==> kept == held))
    requires s.alive ==> Concat(s.taken) + held == t.written && t.hand + t.pending == kept
    requires !s.alive ==> SameFrames(s, t)
    requires IsPrefix(s.written, t.written)
    ensures Conserved(t)
  {
    hide Concat, Numbered, Line;
    if s.alive {
      Regroup(s, t, held, kept);
      if Took(s, t, held) {
        TookExactly(s, t, held);
      } else {
        SameLine(s, t);
      }
      ReceivedAccounted(t);
      assert Concat(t.taken) + t.hand + t.pending == Concat(t.taken) + kept;
      PrefixOf(Concat(t.taken), kept, t.written);
    }
  }

  lemma SameLine(s: State, t: State)
    requires SameFrames(s, t)
    ensures Line(t) == Line(s)
  {
  }

  /** Which events offer a chunk to the channel. */
  predicate Offers(s: State, e: Event)
  {
    match e
    case Echo(bytes) => bytes != [] && |s.pending + bytes| >= s.frameBytes
    case Flush => s.pending != []
    case Write(_) => true
    case SendHand => true
    case Unbind => s.pending != []
    case _ => false
  }

  lemma EchoMoves(s: State, bytes: Bytes)
    requires Shape(s) && HeadFirst(s) && Enabled(s, Echo(bytes))
    ensures var t := Next(s, Echo(bytes));
      && Shape(t) && HeadFirst(t) && t.bound && Runs(t) && t.alive == s.alive && t.written == s.written + bytes
      && (s.alive && Free(s) && Offers(s, Echo(bytes)) ==> Took(s, t, s.pending + bytes) && t.pending == [])
      && (s.alive && !(Free(s) && Offers(s, Echo(bytes))) ==> SameFrames(s, t) && t.pending == s.pending + bytes)
      && (!s.alive ==> SameFrames(s, t))
  {
    hide HeadFirst, PushPending;
    var t := s.(pending := s.pending + bytes, written := s.written + bytes);
    HeadFirstIgnores(s, t);
    PushPendingMoves(t);
  }

  lemma EchoKeeps(s: State, bytes: Bytes)
    requires Inv(s) && Enabled(s, Echo(bytes))
    ensures Inv(Next(s, Echo(bytes)))
  {
    hide HeadFirst, Shape, UbWrite, Conserved;
    EchoMoves(s, bytes);
    var t := Next(s, Echo(bytes));
    HeldWritten(s, bytes);
    BooksKeep(s, t, s.pending + bytes, t.pending);
  }

  /** What the fiber holds while it runs is the rest of what it wrote. */
  lemma HeldWritten(s: State, more: Bytes)
    requires Conserved(s) && s.hand == []
    ensures s.alive ==> Concat(s.taken) + (s.pending + more) == s.written + more
    ensures s.alive ==> Concat(s.taken) + s.pending == s.written
    ensures IsPrefix(s.written, s.written + more) && IsPrefix(s.written, s.written)
  {
    hide Concat, Numbered;
    assert s.alive ==> Concat(s.taken) + (s.pending + more) == Concat(s.taken) + s.hand + s.pending + more;
  }

  lemma FlushKeeps(s: State)
    requires Inv(s) && Enabled(s, Flush)
    ensures Inv(Next(s, Flush))
  {
    hide HeadFirst, Shape, PushPending, Conserved;
    if s.pending != [] {
      PushPendingMoves(s);
      var t := Next(s, Flush);
      HeldWritten(s, []);
      BooksKeep(s, t, s.pending, t.pending);
    }
  }

  lemma WriteMoves(s: State, bytes: Bytes)
    requires Shape(s) && HeadFirst(s) && Enabled(s, Write(bytes))
    ensures var t := Next(s, Write(bytes));
      && Shape(t) && HeadFirst(t) && t.alive == s.alive && t.written == s.written + bytes && t.pending == []
      && (s.alive && Free(s) ==> Took(s, t, s.pending + bytes) && t.hand == [])
      && (s.alive && !Free(s) ==> SameFrames(s, t) && t.hand == s.pending + bytes)
      && (!s.alive ==> SameFrames(s, t))
  {
    hide Push, HeadFirst;
    var p := s.(pending := [], written := s.written + bytes);
    HeadFirstIgnores(s, p);
    PushMoves(p, s.pending + bytes);
    var (t, back) := Push(p, s.pending + bytes);
    HandIsStreamed(t, back);
  }

  lemma WriteKeeps(s: State, bytes: Bytes)
    requires Inv(s) && Enabled(s, Write(bytes))
    ensures Inv(Next(s, Write(bytes)))
  {
    hide HeadFirst, Shape, StreamWrite, Conserved;
    WriteMoves(s, bytes);
    var t := Next(s, Write(bytes));
    HeldWritten(s, bytes);
    assert t.hand + t.pending == t.hand;
    BooksKeep(s, t, s.pending + bytes, t.hand);
  }

  lemma UnbindMoves(s: State)
    requires Shape(s) && HeadFirst(s) && Enabled(s, Unbind)
    ensures var t := Next(s, Unbind);
      && Shape(t) && HeadFirst(t) && t.alive == s.alive && t.written == s.written && t.pending == []
      && (s.alive && Free(s) && s.pending != [] ==> Took(s, t, s.pending) && t.hand == [])
      && (s.alive && !(Free(s) && s.pending != []) ==> SameFrames(s, t) && t.hand == s.pending)
      && (!s.alive ==> SameFrames(s, t))
  {
    hide HeadFirst, PushPending;
    var t := if s.pending == [] then s else PushPending(s);
    if s.pending != [] {
      PushPendingMoves(s);
    }
    HeadFirstIgnores(t, t.(pending := []));
    HandIsStreamed(t.(pending := []), t.pending);
    UnbindHead(t);
  }

  lemma UnbindHead(t: State)
    ensures HeadFirst(t.(pending := [], hand := t.pending)) ==> HeadFirst(t.(bound := false, hand := t.pending, pending := []))
  {
  }

  /** The tail is what did not fit, and nothing is lost on the way. */
  lemma UnbindKeeps(s: State)
    requires Inv(s) && Enabled(s, Unbind)
    ensures Inv(Next(s, Unbind))
  {
    hide HeadFirst, Shape, StreamUnbind, Conserved;
    UnbindMoves(s);
    var t := Next(s, Unbind);
    HeldWritten(s, []);
    assert t.hand + t.pending == t.hand;
    BooksKeep(s, t, s.pending, t.hand);
  }

  // ---------------------------------------------------------------- ops

  /** A chunk that becomes an op goes to the end of the line. */
  lemma SubmittedLast(s: State, t: State, chunk: Bytes)
    requires t.received == s.received && t.channel == s.channel && t.granted == s.granted && t.waiting == s.waiting
    requires t.taken == s.taken + [chunk] && t.submitted == s.submitted + [Frame(|s.taken|, chunk)]
    ensures Accounted(s) ==> Accounted(t)
    ensures InOrder(s) ==> InOrder(t)
  {
    NumberedSnoc(s.taken, chunk);
    assert Line(t) == Line(s) + [Frame(|s.taken|, chunk)];
    hide Numbered;
  }

  lemma SendHandMoves(s: State)
    requires Shape(s) && HeadFirst(s) && Enabled(s, SendHand)
    ensures var t := Next(s, SendHand);
      && Shape(t) && HeadFirst(t) && t.alive == s.alive && t.written == s.written
      && s.pending == [] && t.pending == [] && t.hand == []
      && (s.alive && Free(s) ==> Took(s, t, s.hand))
      && (s.alive && !Free(s) ==>
            && t.received == s.received && t.channel == s.channel && t.granted == s.granted && t.waiting == s.waiting
            && t.taken == s.taken + [s.hand] && t.submitted == s.submitted + [Frame(|s.taken|, s.hand)])
      && (!s.alive ==> SameFrames(s, t))
  {
    hide WellFormedWire;
  }

  lemma SendHandKeeps(s: State)
    requires Inv(s) && Enabled(s, SendHand)
    ensures Inv(Next(s, SendHand))
  {
    hide HeadFirst, Shape, SendChunk, Concat, Numbered, Line;
    SendHandMoves(s);
    var t := Next(s, SendHand);
    if s.alive {
      ConcatSnoc(s.taken, s.hand);
      if Free(s) {
        TookExactly(s, t, s.hand);
      } else {
        SubmittedLast(s, t, s.hand);
      }
      ReceivedAccounted(t);
      assert Concat(s.taken) + s.hand + [] == Concat(t.taken) && Concat(t.taken) + [] + [] == Concat(t.taken);
      PrefixOf(Concat(t.taken), [], s.written);
    }
  }

  lemma AskedFrames(s: State, k: nat)
    requires s.alive && k < |s.submitted|
    ensures var t, f := AskOp(s, k), s.submitted[k];
      && t.received == s.received && t.taken == s.taken && t.granted == s.granted && t.submitted == Without(s.submitted, k)
      && t.channel == (if Free(s) then s.channel + [f] else s.channel)
      && t.waiting == (if Free(s) then s.waiting else s.waiting + [f])
  {
  }

  /** Taking the k-th frame of the last part of a line to before or behind the middle part. */
  lemma TakenOut(a: seq<Frame>, b: seq<Frame>, c: seq<Frame>, k: nat)
    requires k < |c|
    ensures a + (b + c) == a + (b + c[..k]) + [c[k]] + c[k + 1..] == (a + b) + c[..k] + [c[k]] + c[k + 1..]
    ensures (a + [c[k]]) + (b + Without(c, k)) == a + [c[k]] + (b + c[..k]) + c[k + 1..]
    ensures a + ((b + [c[k]]) + Without(c, k)) == (a + b) + [c[k]] + c[..k] + c[k + 1..]
  {
    assert c == c[..k] + [c[k]] + c[k + 1..];
  }

  lemma GoesIn(s: State, t: State, k: nat)
    requires k < |s.submitted| && t.received == s.received && t.taken == s.taken && t.granted == s.granted && t.waiting == s.waiting
    requires t.submitted == Without(s.submitted, k) && t.channel == s.channel + [s.submitted[k]]
    ensures Accounted(s) ==> Accounted(t)
    ensures InOrder(s) ==> (InOrder(t) <==> s.granted + s.waiting + s.submitted[..k] == [])
  {
    hide Numbered, Without;
    var a, b, f := s.received + s.channel, s.granted + s.waiting, s.submitted[k];
    TakenOut(a, b, s.submitted, k);
    MoveUp(a, b + s.submitted[..k], f, s.submitted[k + 1..], s.taken);
    assert Line(t) == (a + [f]) + (b + Without(s.submitted, k));
  }

  lemma Queues(s: State, t: State, k: nat)
    requires k < |s.submitted| && t.received == s.received && t.taken == s.taken && t.granted == s.granted && t.channel == s.channel
    requires t.submitted == Without(s.submitted, k) && t.waiting == s.waiting + [s.submitted[k]]
    ensures Accounted(s) ==> Accounted(t)
    ensures InOrder(s) ==> (InOrder(t) <==> s.submitted[..k] == [])
  {
    hide Numbered, Without;
    var a, b, f := s.received + s.channel, s.granted + s.waiting, s.submitted[k];
    TakenOut(a, b, s.submitted, k);
    MoveUp(a + b, s.submitted[..k], f, s.submitted[k + 1..], s.taken);
    assert s.granted + (s.waiting + [f]) == b + [f];
  }

  /** An op that finds a permit goes ahead of all others; one that does not, behind those already queued. */
  lemma AskExactly(s: State, k: nat)
    requires Shape(s) && s.alive && k < |s.submitted|
    ensures var t := AskOp(s, k);
      && t.received == s.received && t.taken == s.taken
      && (Accounted(s) ==> Accounted(t))
      && (InOrder(s) ==> (InOrder(t) <==> k == 0 && (Free(s) ==> s.granted == [])))
  {
    hide AskOp, Accounted, InOrder, Without;
    AskedFrames(s, k);
    if Free(s) {
      GoesIn(s, AskOp(s, k), k);
      assert |s.granted + s.waiting + s.submitted[..k]| == |s.granted| + |s.waiting| + k;
    } else {
      Queues(s, AskOp(s, k), k);
      assert |s.submitted[..k]| == k;
    }
  }

  /** Whoever was granted a permit first need not use it first. */
  lemma PlaceExactly(s: State, k: nat)
    requires s.alive && k < |s.granted|
    ensures var t := PlaceOp(s, k);
      && t.received == s.received && t.taken == s.taken
      && (Accounted(s) ==> Accounted(t))
      && (InOrder(s) ==> (InOrder(t) <==> k == 0))
  {
    hide Numbered;
    var t, f, a := PlaceOp(s, k), s.granted[k], s.received + s.channel;
    var before, after := s.granted[..k], s.granted[k + 1..];
    assert s.granted == before + [f] + after;
    var rest := after + s.waiting + s.submitted;
    assert Line(s) == a + before + [f] + rest;
    assert Line(t) == a + [f] + before + rest;
    MoveUp(a, before, f, rest, s.taken);
  }

  lemma ReadMoves(s: State)
    requires s.channel != []
    ensures Line(ReadChunk(s)) == Line(s) && ReadChunk(s).taken == s.taken
  {
    if s.waiting != [] {
      assert s.granted + s.waiting == s.granted + [s.waiting[0]] + s.waiting[1..];
    }
  }

  lemma TaskShape(s: State, e: Event)
    requires Shape(s) && HeadFirst(s) && Enabled(s, e) && (e.Ask? || e.Place? || e.Refuse? || e.Read?)
    ensures var t := Next(s, e);
      && Shape(t) && HeadFirst(t) && t.alive == s.alive && t.written == s.written && t.hand == s.hand && t.pending == s.pending
      && t.taken == s.taken && (!s.alive ==> t.received == s.received)
  {
    hide WellFormedWire;
  }

  /** The tasks and the client move frames; they lose none and make none. */
  lemma TaskKeeps(s: State, e: Event)
    requires Inv(s) && Enabled(s, e) && (e.Ask? || e.Place? || e.Refuse? || e.Read?)
    ensures Inv(Next(s, e))
  {
    hide HeadFirst, Shape, Concat, Numbered, Line, AskOp, PlaceOp, ReadChunk;
    TaskShape(s, e);
    if s.alive {
      match e {
        case Ask(k) => AskExactly(s, k);
        case Place(k) => PlaceExactly(s, k);
        case Read => ReadMoves(s);
        case _ =>
      }
      ReceivedAccounted(Next(s, e));
    }
  }

  lemma OtherShape(s: State, e: Event)
    requires Shape(s) && HeadFirst(s) && Enabled(s, e) && (e.HangUp? || e.Cancel? || e.Finish? || e.Interrupt?)
    ensures var t := Next(s, e);
      && Shape(t) && HeadFirst(t) && SameFrames(s, t) && (t.alive ==> s.alive)
      && t.written == s.written && t.hand == s.hand && t.pending == s.pending
  {
  }

  lemma OtherKeeps(s: State, e: Event)
    requires Inv(s) && Enabled(s, e) && (e.HangUp? || e.Cancel? || e.Finish? || e.Interrupt?)
    ensures Inv(Next(s, e))
  {
    hide Concat, Numbered, Line, Shape, HeadFirst, Next, Enabled;
    OtherShape(s, e);
    SameLine(s, Next(s, e));
  }

  lemma StepKeeps(s: State, e: Event)
    requires Inv(s) && Enabled(s, e)
    ensures Inv(Next(s, e))
  {
    hide Inv, Next, Enabled;
    match e {
      case Echo(bytes) => EchoKeeps(s, bytes);
      case Flush => FlushKeeps(s);
      case Write(bytes) => WriteKeeps(s, bytes);
      case SendHand => SendHandKeeps(s);
      case Unbind => UnbindKeeps(s);
      case Ask(_) => TaskKeeps(s, e);
      case Place(_) => TaskKeeps(s, e);
      case Refuse => TaskKeeps(s, e);
      case Read => TaskKeeps(s, e);
      case _ => OtherKeeps(s, e);
    }
  }

  lemma {:induction false} RunKeeps(frameBytes: nat, cap: nat, events: seq<Event>)
    ensures Inv(Run(frameBytes, cap, events))
  {
    hide Inv, Next, Enabled, Open;
    if events == [] {
      OpenIsSafe(frameBytes, cap);
    } else {
      var s, last := Run(frameBytes, cap, events[..|events| - 1]), events[|events| - 1];
      RunKeeps(frameBytes, cap, events[..|events| - 1]);
      if Enabled(s, last) {
        StepKeeps(s, last);
      }
    }
  }

  lemma OpenIsSafe(frameBytes: nat, cap: nat)
    ensures Inv(Open(frameBytes, cap))
  {
  }

  // ---------------------------------------------------------------- order

  /**
   What it takes to keep the order, readable off the state before the event: a chunk enters the channel only
   while no op is under way, and ops ask, and use their permits, in the order they were submitted.
   */
  predicate OrderKept(s: State, e: Event)
  {
    match e
    case Ask(k) => k == 0 && (Free(s) ==> s.granted == [])
    case Place(k) => k == 0
    case _ => Offers(s, e) && Free(s) ==> s.submitted == [] && s.granted == []
  }

  /** While the client reads, an event keeps the frames in order exactly then. */
  lemma OrderExactly(s: State, e: Event)
    requires Shape(s) && HeadFirst(s) && Enabled(s, e) && s.alive && InOrder(s)
    ensures InOrder(Next(s, e)) <==> OrderKept(s, e)
  {
    hide HeadFirst, InOrder, UbWrite, PushPending, StreamWrite, SendChunk, StreamUnbind, EndStream, AskOp, PlaceOp, ReadChunk;
    var t := Next(s, e);
    match e {
      case Echo(bytes) =>
        EchoMoves(s, bytes);
        MovedExactly(s, t, s.pending + bytes, Free(s) && Offers(s, e));
      case Flush =>
        if s.pending != [] {
          PushPendingMoves(s);
        }
        MovedExactly(s, t, s.pending, Free(s) && Offers(s, e));
      case Write(bytes) =>
        WriteMoves(s, bytes);
        MovedExactly(s, t, s.pending + bytes, Free(s));
      case SendHand =>
        SendHandMoves(s);
        if Free(s) {
          MovedExactly(s, t, s.hand, true);
        } else {
          SubmittedLast(s, t, s.hand);
        }
      case Unbind =>
        UnbindMoves(s);
        MovedExactly(s, t, s.pending, Free(s) && Offers(s, e));
      case Ask(k) => AskExactly(s, k);
      case Place(k) => PlaceExactly(s, k);
      case Read => ReadInOrder(s);
      case _ => RestInOrder(s, e);
    }
  }

  lemma MovedExactly(s: State, t: State, chunk: Bytes, took: bool)
    requires Shape(s) && s.alive && InOrder(s) && (took ==> Free(s) && Took(s, t, chunk)) && (!took ==> SameFrames(s, t))
    ensures InOrder(t) <==> (took ==> s.submitted == [] && s.granted == [])
  {
    if took {
      TookExactly(s, t, chunk);
      assert s.granted + s.waiting + s.submitted == [] <==> s.granted == [] && s.submitted == [];
    }
  }

  lemma ReadInOrder(s: State)
    requires s.channel != [] && InOrder(s)
    ensures InOrder(ReadChunk(s))
  {
    ReadMoves(s);
    hide Line, Numbered, ReadChunk;
  }

  lemma RestInOrder(s: State, e: Event)
    requires Enabled(s, e) && s.alive && InOrder(s) && (e.HangUp? || e.Cancel? || e.Finish? || e.Interrupt?)
    ensures InOrder(Next(s, e))
  {
  }

  // ---------------------------------------------------------------- every run

  /** Every event that happens while the client reads keeps the order. */
  predicate AllKept(frameBytes: nat, cap: nat, events: seq<Event>)
  {
    forall k :: 0 <= k < |events| ==>
      var s := Run(frameBytes, cap, events[..k]);
      Enabled(s, events[k]) && s.alive ==> OrderKept(s, events[k])
  }

  lemma KeptFront(frameBytes: nat, cap: nat, events: seq<Event>)
    requires AllKept(frameBytes, cap, events) && events != []
    ensures AllKept(frameBytes, cap, events[..|events| - 1])
  {
    hide Run;
    var front := events[..|events| - 1];
    forall k | 0 <= k < |front|
      ensures var s := Run(frameBytes, cap, front[..k]); Enabled(s, front[k]) && s.alive ==> OrderKept(s, front[k])
    {
      assert front[..k] == events[..k] && front[k] == events[k];
    }
  }

  /** A client that has left received the first frames, in order. */
  ghost predicate Ordered(s: State)
  {
    (s.alive ==> InOrder(s)) && s.received <= Numbered(s.taken)
  }

  lemma OrderedStep(s: State, e: Event)
    requires Inv(s) && Enabled(s, e) && Ordered(s) && (s.alive ==> OrderKept(s, e))
    ensures Ordered(Next(s, e))
  {
    hide Shape, HeadFirst, Conserved, Next, Enabled, OrderKept, Line, Numbered;
    var t := Next(s, e);
    if s.alive {
      OrderExactly(s, e);
      StepKeeps(s, e);
      if t.alive {
        ReceivedFirst(t);
      } else {
        LeftAtOnce(s, e);
      }
    } else {
      DeadStill(s, e);
    }
  }

  lemma ReceivedFirst(s: State)
    requires InOrder(s)
    ensures s.received <= Numbered(s.taken)
  {
    assert Line(s) == s.received + (s.channel + (s.granted + s.waiting + s.submitted));
    hide Numbered;
  }

  lemma LeftAtOnce(s: State, e: Event)
    requires Shape(s) && HeadFirst(s) && Enabled(s, e) && s.alive && !Next(s, e).alive
    ensures SameFrames(s, Next(s, e))
  {
    hide HeadFirst, PushPending, StreamWrite, UbWrite, StreamUnbind;
    match e {
      case Echo(bytes) => EchoMoves(s, bytes);
      case Flush => if s.pending != [] { PushPendingMoves(s); }
      case Write(bytes) => WriteMoves(s, bytes);
      case Unbind => UnbindMoves(s);
      case _ =>
    }
  }

  lemma DeadStill(s: State, e: Event)
    requires Shape(s) && HeadFirst(s) && Enabled(s, e) && !s.alive
    ensures var t := Next(s, e); !t.alive && t.received == s.received && t.taken == s.taken
  {
    hide HeadFirst, PushPending, StreamWrite, UbWrite, StreamUnbind;
    match e {
      case Echo(bytes) => EchoMoves(s, bytes);
      case Flush => if s.pending != [] { PushPendingMoves(s); }
      case Write(bytes) => WriteMoves(s, bytes);
      case Unbind => UnbindMoves(s);
      case _ =>
    }
  }

  lemma {:induction false} KeptIsOrdered(frameBytes: nat, cap: nat, events: seq<Event>)
    requires AllKept(frameBytes, cap, events)
    ensures Ordered(Run(frameBytes, cap, events))
  {
    hide Inv, Next, Enabled, Open, OrderKept, Ordered;
    if events == [] {
      OpenIsOrdered(frameBytes, cap);
    } else {
      var n := |events| - 1;
      var s := Run(frameBytes, cap, events[..n]);
      KeptFront(frameBytes, cap, events);
      KeptIsOrdered(frameBytes, cap, events[..n]);
      RunKeeps(frameBytes, cap, events[..n]);
      if Enabled(s, events[n]) {
        OrderedStep(s, events[n]);
      }
    }
  }

  lemma OpenIsOrdered(frameBytes: nat, cap: nat)
    ensures Ordered(Open(frameBytes, cap))
  {
  }

  /**
   Whatever interrupts the fiber and however the tasks run: for a client that reads, each chunk the runtime
   has taken is with the client, in the channel or with one op, once, and the taken chunks followed by what
   the fiber holds are what it wrote.
   */
  lemma NothingLostOrDoubled(frameBytes: nat, cap: nat, events: seq<Event>)
    ensures var s := Run(frameBytes, cap, events);
      && (s.alive ==>
            && multiset(s.received + s.channel + (s.granted + s.waiting + s.submitted)) == multiset(Numbered(s.taken))
            && Concat(s.taken) + s.hand + s.pending == s.written)
      && multiset(s.received) <= multiset(Numbered(s.taken)) && IsPrefix(Concat(s.taken), s.written)
      && |s.channel| <= s.capacity
  {
    hide Run, Concat, HeadFirst, Numbered;
    RunKeeps(frameBytes, cap, events);
  }

  /** Where every event keeps the order: a client that reads gets exactly what was written, one that left had read a prefix of it. */
  lemma StreamIsExact(frameBytes: nat, cap: nat, events: seq<Event>)
    requires AllKept(frameBytes, cap, events)
    ensures var s := Run(frameBytes, cap, events);
      && (s.alive ==>
            BytesOf(s.received) + BytesOf(s.channel) + BytesOf(s.granted + s.waiting + s.submitted) + s.hand + s.pending == s.written)
      && IsPrefix(BytesOf(s.received), s.written)
  {
    hide Run, AllKept, Concat, HeadFirst, Shape, Numbered, BytesOf;
    KeptIsOrdered(frameBytes, cap, events);
    RunKeeps(frameBytes, cap, events);
    var s := Run(frameBytes, cap, events);
    NumberedBytes(s.taken);
    if s.alive {
      LineBytes(s);
    }
    ReceivedBytes(s.received, Numbered(s.taken));
  }

  lemma LineBytes(s: State)
    ensures BytesOf(Line(s)) == BytesOf(s.received) + BytesOf(s.channel) + BytesOf(s.granted + s.waiting + s.submitted)
  {
    BytesJoin(s.received, s.channel);
    BytesJoin(s.received + s.channel, s.granted + s.waiting + s.submitted);
  }

  lemma ReceivedBytes(a: seq<Frame>, b: seq<Frame>)
    requires a <= b
    ensures IsPrefix(BytesOf(a), BytesOf(b))
  {
    assert b == a + b[|a|..];
    BytesJoin(a, b[|a|..]);
  }

  // ---------------------------------------------------------------- who keeps the order, and who does not

  /** While nothing interrupts the fiber, at most the op it awaits is under way. */
  ghost predicate Solo(s: State)
  {
    var ops := s.granted + s.waiting + s.submitted;
    s.alive ==> if s.awaited.None? then ops == [] else |ops| == 1 && ops[0].no == s.awaited.value
  }

  lemma SoloIsKept(s: State, e: Event)
    requires Solo(s) && Enabled(s, e) && s.alive
    ensures OrderKept(s, e)
  {
    assert s.awaited.None? ==> |s.granted + s.waiting + s.submitted| == 0;
    assert |s.granted + s.waiting + s.submitted| == |s.granted| + |s.waiting| + |s.submitted|;
  }

  lemma SoloAsk(s: State, k: nat)
    requires Solo(s) && s.alive && k < |s.submitted|
    ensures Solo(AskOp(s, k))
  {
    assert |s.granted + s.waiting + s.submitted| == |s.granted| + |s.waiting| + |s.submitted|;
    assert (s.granted + s.waiting + s.submitted)[0] == s.submitted[0] && Without(s.submitted, k) == [];
  }

  lemma SoloPlace(s: State, k: nat)
    requires Solo(s) && s.alive && k < |s.granted|
    ensures Solo(PlaceOp(s, k))
  {
    assert |s.granted + s.waiting + s.submitted| == |s.granted| + |s.waiting| + |s.submitted|;
    assert (s.granted + s.waiting + s.submitted)[0] == s.granted[0] && Without(s.granted, k) == [];
  }

  lemma SoloRead(s: State)
    requires Solo(s) && s.channel != []
    ensures Solo(ReadChunk(s))
  {
    if s.waiting != [] {
      assert s.granted + s.waiting == s.granted + [s.waiting[0]] + s.waiting[1..];
    }
  }

  lemma SoloStep(s: State, e: Event)
    requires Inv(s) && Solo(s) && Enabled(s, e) && e != Interrupt
    ensures Solo(Next(s, e))
  {
    hide HeadFirst, Conserved, PushPending, StreamWrite, UbWrite, StreamUnbind, AskOp, PlaceOp, ReadChunk;
    if s.alive {
      match e {
        case Echo(bytes) => EchoMoves(s, bytes);
        case Flush => if s.pending != [] { PushPendingMoves(s); }
        case Write(bytes) => WriteMoves(s, bytes); WriteAwaits(s, bytes);
        case Unbind => UnbindMoves(s); UnbindAwaits(s);
        case Ask(k) => SoloAsk(s, k);
        case Place(k) => SoloPlace(s, k);
        case Read => SoloRead(s);
        case _ =>
      }
    } else {
      DeadStill(s, e);
    }
  }

  lemma WriteAwaits(s: State, bytes: Bytes)
    ensures StreamWrite(s, bytes).awaited == s.awaited
  {
  }

  lemma UnbindAwaits(s: State)
    ensures StreamUnbind(s).awaited == s.awaited
  {
  }

  lemma {:induction false} SoloRun(frameBytes: nat, cap: nat, events: seq<Event>)
    requires Interrupt !in events
    ensures Solo(Run(frameBytes, cap, events))
  {
    hide Inv, Next, Enabled, Solo, Open;
    if events == [] {
      OpenIsSolo(frameBytes, cap);
    } else {
      var n := |events| - 1;
      var s := Run(frameBytes, cap, events[..n]);
      assert events[n] in events;
      SoloRun(frameBytes, cap, events[..n]);
      RunKeeps(frameBytes, cap, events[..n]);
      if Enabled(s, events[n]) {
        SoloStep(s, events[n]);
      }
    }
  }

  lemma OpenIsSolo(frameBytes: nat, cap: nat)
    ensures Solo(Open(frameBytes, cap))
  {
  }

  /** A fiber whose waits are not interrupted keeps the order, however the tasks and the client interleave with it. */
  lemma UninterruptedKeepsOrder(frameBytes: nat, cap: nat, events: seq<Event>)
    requires Interrupt !in events
    ensures AllKept(frameBytes, cap, events)
  {
    hide Run, Solo, OrderKept, Enabled;
    forall k | 0 <= k < |events|
      ensures var s := Run(frameBytes, cap, events[..k]); Enabled(s, events[k]) && s.alive ==> OrderKept(s, events[k])
    {
      SoloRun(frameBytes, cap, events[..k]);
      var s := Run(frameBytes, cap, events[..k]);
      if Enabled(s, events[k]) && s.alive {
        SoloIsKept(s, events[k]);
      }
    }
  }

  lemma RunSnoc(frameBytes: nat, cap: nat, events: seq<Event>, e: Event)
    ensures var s := Run(frameBytes, cap, events);
      Run(frameBytes, cap, events + [e]) == if Enabled(s, e) then Next(s, e) else s
  {
    hide Next, Enabled, Open;
    assert (events + [e])[..|events|] == events;
  }

  /** The head is out; the channel, the client, the ops and the hand hold this much of three chunks of one byte each. */
  function Stage(received: seq<Frame>, channel: seq<Frame>, submitted: seq<Frame>, waiting: seq<Frame>, granted: seq<Frame>,
                 awaited: Option<nat>, hand: Bytes, taken: seq<Bytes>, written: Bytes): State
  {
    State(0, 1, true, [], true, hand, submitted, waiting, granted, awaited, Streaming, true, channel, received, [Head], true,
          taken, written)
  }

  const F0 := Frame(0, [1])
  const F1 := Frame(1, [2])
  const F2 := Frame(2, [3])

  lemma FirstWrite()
    ensures Enabled(Open(0, 1), Write([1])) && Next(Open(0, 1), Write([1])) == Stage([], [F0], [], [], [], None, [], [[1]], [1])
  {
    assert [] + [Head] == [Head] && [] + [1] == [1] && [] + [F0] == [F0] && [] + [[1]] == [[1]];
  }

  /** The channel is full: 2 becomes an op, and the fiber is interrupted before the op's task has run. */
  lemma SecondWrite()
    ensures var s := Stage([], [F0], [], [], [], None, [], [[1]], [1]);
      var t := Stage([], [F0], [], [], [], None, [2], [[1]], [1, 2]);
      var u := Stage([], [F0], [F1], [], [], Some(1), [], [[1], [2]], [1, 2]);
      && Enabled(s, Write([2])) && Next(s, Write([2])) == t
      && Enabled(t, SendHand) && Next(t, SendHand) == u
      && Enabled(u, Interrupt) && Next(u, Interrupt) == u.(awaited := None)
  {
    assert [1] + [2] == [1, 2] && [] + [2] == [2] && [[1]] + [[2]] == [[1], [2]] && [] + [F1] == [F1];
  }

  /** The client takes 1; the fiber writes 3 and finds the slot; only then does the op ask for one. */
  lemma ThirdWrite()
    ensures var s := Stage([], [F0], [F1], [], [], None, [], [[1], [2]], [1, 2]);
      var t := Stage([F0], [], [F1], [], [], None, [], [[1], [2]], [1, 2]);
      var u := Stage([F0], [F2], [F1], [], [], None, [], [[1], [2], [3]], [1, 2, 3]);
      var v := Stage([F0], [F2], [], [F1], [], None, [], [[1], [2], [3]], [1, 2, 3]);
      && Enabled(s, Read) && Next(s, Read) == t
      && Enabled(t, Write([3])) && Next(t, Write([3])) == u
      && Enabled(u, Ask(0)) && Next(u, Ask(0)) == v
  {
    assert [1, 2] + [3] == [1, 2, 3] && [] + [3] == [3] && [[1], [2]] + [[3]] == [[1], [2], [3]];
    assert [] + [F0] == [F0] && [] + [F1] == [F1] && [] + [F2] == [F2];
    assert [F0][1..] == [] && [F1][..0] == [] && [F1][1..] == [];
  }

  lemma LastReads()
    ensures var s := Stage([F0], [F2], [], [F1], [], None, [], [[1], [2], [3]], [1, 2, 3]);
      var t := Stage([F0, F2], [], [], [], [F1], None, [], [[1], [2], [3]], [1, 2, 3]);
      var u := Stage([F0, F2], [F1], [], [], [], None, [], [[1], [2], [3]], [1, 2, 3]);
      var v := Stage([F0, F2, F1], [], [], [], [], None, [], [[1], [2], [3]], [1, 2, 3]);
      && Enabled(s, Read) && Next(s, Read) == t
      && Enabled(t, Place(0)) && Next(t, Place(0)) == u
      && Enabled(u, Read) && Next(u, Read) == v
  {
    assert [F0] + [F2] == [F0, F2] && [F0, F2] + [F1] == [F0, F2, F1] && [] + [F1] == [F1];
    assert [F2][1..] == [] && [F1][1..] == [] && [F1][..0] == [];
  }

  lemma ThreeBytes()
    ensures BytesOf([F0, F2, F1]) == [1, 3, 2]
  {
    BytesJoin([F0], [F2]);
    BytesJoin([F0, F2], [F1]);
    assert [F0] + [F2] == [F0, F2] && [F0, F2] + [F1] == [F0, F2, F1];
    assert [F0][1..] == [] && [F1][1..] == [] && [F2][1..] == [];
  }

  lemma RunThree(events: seq<Event>, a: Event, b: Event, c: Event)
    ensures var s := Run(0, 1, events);
      Enabled(s, a) && Enabled(Next(s, a), b) && Enabled(Next(Next(s, a), b), c) ==>
        Run(0, 1, events + [a, b, c]) == Next(Next(Next(s, a), b), c)
  {
    hide Run, Next, Enabled;
    RunSnoc(0, 1, events, a);
    RunSnoc(0, 1, events + [a], b);
    RunSnoc(0, 1, events + [a] + [b], c);
    assert events + [a] + [b] + [c] == events + [a, b, c];
  }

  lemma NoEvents(frameBytes: nat, cap: nat)
    ensures Run(frameBytes, cap, []) == Open(frameBytes, cap)
  {
  }

  /**
   After an interrupted wait the order can be lost: the channel holds 1, the op that carries 2 has not asked
   for a permit when its fiber is interrupted, and 3, written next, takes the slot that 1 frees.
   */
  lemma OvertakenAfterInterrupt()
    ensures var s := Run(0, 1, [Write([1]), Write([2]), SendHand, Interrupt, Read, Write([3]), Ask(0), Read, Place(0), Read]);
      && s.alive && s.written == [1, 2, 3] && BytesOf(s.received) == [1, 3, 2]
  {
    hide Run, Next, Enabled, Open;
    NoEvents(0, 1);
    RunSnoc(0, 1, [], Write([1]));
    FirstWrite();
    var one := [] + [Write([1])];
    RunThree(one, Write([2]), SendHand, Interrupt);
    SecondWrite();
    var four := one + [Write([2]), SendHand, Interrupt];
    RunThree(four, Read, Write([3]), Ask(0));
    ThirdWrite();
    var seven := four + [Read, Write([3]), Ask(0)];
    RunThree(seven, Read, Place(0), Read);
    LastReads();
    ThreeBytes();
    assert seven + [Read, Place(0), Read] ==
           [Write([1]), Write([2]), SendHand, Interrupt, Read, Write([3]), Ask(0), Read, Place(0), Read];
  }

  // ---------------------------------------------------------------- head and ending

  /** The head goes out at most once, and before the first byte. */
  lemma HeadOnceAndFirst(frameBytes: nat, cap: nat, events: seq<Event>)
    ensures var s := Run(frameBytes, cap, events);
      && WellFormedWire(s.wire)
      && (s.taken != [] || s.received != [] || s.channel != [] || s.granted + s.waiting + s.submitted != [] ==>
            s.wire != [] && s.wire[0] == Head)
  {
    hide Run, Conserved;
    RunKeeps(frameBytes, cap, events);
  }

  /**
   How a body ends for a client that reads: a whole response exactly when no frame was ever pushed, and
   then nothing was written; otherwise the end of a stream that carries all of it, each chunk once, and in
   order where every event kept it.
   */
  lemma BodyEndsOnce(frameBytes: nat, cap: nat, events: seq<Event>, status: int)
    requires var s := Run(frameBytes, cap, events); Enabled(s, Finish(status)) && s.alive && s.answer != Gone
    ensures var s := Run(frameBytes, cap, events);
      var t := Next(s, Finish(status));
      && (!s.pushed ==> s.written == [] && t.wire == [Full(status, [])])
      && (s.pushed ==>
            t.wire == [Head, End] && Concat(t.taken) == t.written && multiset(Line(t)) == multiset(Numbered(t.taken)))
      && (s.pushed && AllKept(frameBytes, cap, events) ==> BytesOf(Line(t)) == t.written)
      && t.answer == Gone
  {
    hide Run, Concat, Open, Inv, AllKept, Ordered, BytesOf, Numbered;
    RunKeeps(frameBytes, cap, events);
    var s := Run(frameBytes, cap, events);
    Ends(s, status);
    if AllKept(frameBytes, cap, events) {
      KeptIsOrdered(frameBytes, cap, events);
      EndsInOrder(s, status);
    }
  }

  lemma Ends(s: State, status: int)
    requires Inv(s) && Enabled(s, Finish(status)) && s.alive && s.answer != Gone
    ensures var t := Next(s, Finish(status));
      && (!s.pushed ==> s.written == [] && t.wire == [Full(status, [])])
      && (s.pushed ==>
            t.wire == [Head, End] && Concat(t.taken) == t.written && multiset(Line(t)) == multiset(Numbered(t.taken)))
      && t.answer == Gone
  {
    assert Concat([]) == [];
    assert Concat(s.taken) + [] + [] == Concat(s.taken);
    SameLine(s, Next(s, Finish(status)));
    hide Concat, Numbered, Line;
  }

  lemma EndsInOrder(s: State, status: int)
    requires Inv(s) && Ordered(s) && Enabled(s, Finish(status)) && s.alive && s.answer != Gone
    ensures BytesOf(Line(Next(s, Finish(status)))) == s.written
  {
    hide Concat, Numbered, Line, HeadFirst, BytesOf;
    SameLine(s, Next(s, Finish(status)));
    NumberedBytes(s.taken);
    assert Concat(s.taken) + [] + [] == Concat(s.taken);
  }

  /** Even an empty `ignis_stream_write` sends the head: a producer that fails after it can only truncate. */
  lemma EmptyWriteCommits(frameBytes: nat, cap: nat)
    ensures var s := Next(Open(frameBytes, cap), Write([]));
      s.written == [] && s.wire == [Head] && s.started && Next(Next(s, Unbind), Finish(500)).wire == [Head, End]
  {
    var s := Next(Open(frameBytes, cap), Write([]));
    assert [] + [Head] == [Head] && [Head] + [End] == [Head, End];
  }

  // ---------------------------------------------------------------- captures

  /** What a fiber does to its own stack of capture buffers. */
  datatype Capture = Start | Put(bytes: Bytes) | Take | Reset

  type Stack = seq<Bytes>

  function OnStack(stack: Stack, c: Capture): Stack
  {
    match c
    case Start => stack + [[]]
    case Put(bytes) => if stack == [] then stack else stack[|stack| - 1 := stack[|stack| - 1] + bytes]
    case Take => if stack == [] then stack else stack[..|stack| - 1]
    case Reset => []
  }

  function Own(stack: Stack, cs: seq<Capture>): Stack
  {
    if cs == [] then stack else OnStack(Own(stack, cs[..|cs| - 1]), cs[|cs| - 1])
  }

  /** `SINKS`: a fiber whose stack becomes empty has no entry. */
  function StackOf(sinks: map<nat, Stack>, fiber: nat): Stack
  {
    if fiber in sinks then sinks[fiber] else []
  }

  function Touch(sinks: map<nat, Stack>, fiber: nat, c: Capture): map<nat, Stack>
  {
    var after := OnStack(StackOf(sinks, fiber), c);
    if after == [] then sinks - {fiber} else sinks[fiber := after]
  }

  function Interleaved(events: seq<(nat, Capture)>): map<nat, Stack>
  {
    if events == [] then map[]
    else Touch(Interleaved(events[..|events| - 1]), events[|events| - 1].0, events[|events| - 1].1)
  }

  function Of(fiber: nat, events: seq<(nat, Capture)>): seq<Capture>
  {
    if events == [] then []
    else Of(fiber, events[..|events| - 1]) + if events[|events| - 1].0 == fiber then [events[|events| - 1].1] else []
  }

  /** However fibers interleave, each one's buffers hold what its own calls alone would leave in them. */
  lemma {:induction false} CapturesDoNotMix(fiber: nat, events: seq<(nat, Capture)>)
    ensures StackOf(Interleaved(events), fiber) == Own([], Of(fiber, events))
  {
    if events != [] {
      var front, last := events[..|events| - 1], events[|events| - 1];
      CapturesDoNotMix(fiber, front);
      if last.0 == fiber {
        assert (Of(fiber, front) + [last.1])[..|Of(fiber, front)|] == Of(fiber, front);
      } else {
        assert Of(fiber, events) == Of(fiber, front);
      }
    }
  }

  function Depth(cs: seq<Capture>): int
  {
    if cs == [] then 0
    else Depth(cs[..|cs| - 1]) + match cs[|cs| - 1] case Start => 1 case Take => -1 case _ => 0
  }

  /** Calls between a start and its take: nested captures close again, and nothing is reset. */
  ghost predicate Nested(cs: seq<Capture>)
  {
    && (forall k :: 0 <= k < |cs| ==> !cs[k].Reset?)
    && (forall k :: 0 <= k <= |cs| ==> Depth(cs[..k]) >= 0)
  }

  /** What is written at the outermost level. */
  function Outermost(cs: seq<Capture>): Bytes
  {
    if cs == [] then []
    else
      var front, last := cs[..|cs| - 1], cs[|cs| - 1];
      Outermost(front) + if last.Put? && Depth(front) == 0 then last.bytes else []
  }

  /** The outer buffers stay as they were, and the innermost open one collects its own level. */
  lemma {:induction false} OuterBuffersKept(outer: Stack, cs: seq<Capture>)
    requires Nested(cs)
    ensures var stack := Own(outer + [[]], cs);
      && Depth(cs) >= 0 && |stack| == |outer| + 1 + Depth(cs)
      && stack[..|outer|] == outer && stack[|outer|] == Outermost(cs)
  {
    if cs != [] {
      var n := |cs| - 1;
      var front := cs[..n];
      assert forall k :: 0 <= k <= n ==> front[..k] == cs[..k];
      assert cs[..|cs|] == cs;
      OuterBuffersKept(outer, front);
      assert Depth(cs[..n]) >= 0 && Depth(cs[..|cs|]) >= 0;
    }
  }

  /** A take returns its own level's bytes, no more and no less, and leaves the captures around it alone. */
  lemma TakeMatchesStart(outer: Stack, cs: seq<Capture>)
    requires Nested(cs) && Depth(cs) == 0
    ensures Own(outer + [[]], cs) == outer + [Outermost(cs)]
    ensures OnStack(Own(outer + [[]], cs), Take) == outer
  {
    OuterBuffersKept(outer, cs);
    var stack := Own(outer + [[]], cs);
    assert stack == stack[..|outer|] + [stack[|outer|]];
  }

  // ---------------------------------------------------------------- whom an op wakes

  /** The ops whose tasks have not ended. */
  function UnderWay(s: State): seq<Frame>
  {
    s.submitted + s.waiting + s.granted
  }

  ghost predicate IsUnderWay(s: State, no: nat)
  {
    exists f :: f in UnderWay(s) && f.no == no
  }

  ghost predicate AwaitsAnOp(s: State)
  {
    s.awaited.Some? ==> IsUnderWay(s, s.awaited.value)
  }

  lemma WithoutHas(frames: seq<Frame>, k: nat, f: Frame)
    requires k < |frames| && f in frames && f != frames[k]
    ensures f in Without(frames, k)
  {
    var i :| 0 <= i < |frames| && frames[i] == f;
    if i < k {
      assert Without(frames, k)[i] == f;
    } else {
      assert Without(frames, k)[i - 1] == f;
    }
  }

  /** A task that ends takes its own frame away, and the fiber that awaits another goes on doing so. */
  lemma AskAwaits(s: State, k: nat)
    requires Enabled(s, Ask(k)) && AwaitsAnOp(s)
    ensures AwaitsAnOp(AskOp(s, k))
  {
    var t := AskOp(s, k);
    if t.awaited.Some? {
      var f :| f in UnderWay(s) && f.no == s.awaited.value;
      if f in s.submitted && f != s.submitted[k] {
        WithoutHas(s.submitted, k, f);
      }
      hide Without;
      assert f in UnderWay(t);
    }
  }

  lemma PlaceAwaits(s: State, k: nat)
    requires Enabled(s, Place(k)) && AwaitsAnOp(s)
    ensures AwaitsAnOp(PlaceOp(s, k))
  {
    var t := PlaceOp(s, k);
    if t.awaited.Some? {
      var f :| f in UnderWay(s) && f.no == s.awaited.value;
      if f in s.granted {
        WithoutHas(s.granted, k, f);
      }
      hide Without;
      assert f in UnderWay(t);
    }
  }

  /** The head of the queue is refused, or gets the slot that a read has freed. */
  lemma QueueAwaits(s: State, e: Event)
    requires Enabled(s, e) && AwaitsAnOp(s) && (e.Refuse? || e.Read?)
    ensures AwaitsAnOp(Next(s, e))
  {
    var t := Next(s, e);
    if t.awaited.Some? {
      var f :| f in UnderWay(s) && f.no == s.awaited.value;
      if s.waiting != [] {
        assert s.waiting == [s.waiting[0]] + s.waiting[1..];
      }
      assert f in UnderWay(t);
    }
  }

  lemma PushAwaits(s: State, chunk: Bytes)
    ensures Push(s, chunk).0.awaited == s.awaited
  {
  }

  lemma FiberAwaits(s: State, e: Event)
    requires Enabled(s, e) && !(e.Ask? || e.Place? || e.Refuse? || e.Read?) && AwaitsAnOp(s)
    ensures AwaitsAnOp(Next(s, e))
  {
    hide Push;
    var t := Next(s, e);
    match e {
      case Echo(bytes) => PushAwaits(s.(pending := [], written := s.written + bytes), s.pending + bytes);
      case Flush => PushAwaits(s.(pending := []), s.pending);
      case Write(bytes) => PushAwaits(s.(pending := [], written := s.written + bytes), s.pending + bytes);
      case Unbind => PushAwaits(s.(pending := []), s.pending);
      case SendHand =>
        if t.awaited.Some? {
          var f := Frame(|s.taken|, s.hand);
          assert t.submitted[|s.submitted|] == f;
          assert f in UnderWay(t);
        }
      case _ =>
    }
  }

  /**
   Over every run, a fiber that awaits an op awaits one whose task has not ended, whether the client reads on or
   has gone: once no task is left, no fiber is.
   */
  lemma NobodyAwaitsNothing(frameBytes: nat, cap: nat, events: seq<Event>)
    ensures var s := Run(frameBytes, cap, events);
      s.awaited.Some? ==> exists f :: f in s.submitted + s.waiting + s.granted && f.no == s.awaited.value
  {
    RunAwaits(frameBytes, cap, events);
    hide Run;
    var s := Run(frameBytes, cap, events);
    if s.awaited.Some? {
      var f :| f in UnderWay(s) && f.no == s.awaited.value;
    }
  }

  lemma StepAwaits(s: State, e: Event)
    requires Enabled(s, e) && AwaitsAnOp(s)
    ensures AwaitsAnOp(Next(s, e))
  {
    hide AwaitsAnOp, AskOp, PlaceOp;
    match e {
      case Ask(k) => AskAwaits(s, k);
      case Place(k) => PlaceAwaits(s, k);
      case Refuse => QueueAwaits(s, e);
      case Read => QueueAwaits(s, e);
      case _ => FiberAwaits(s, e);
    }
  }

  lemma {:induction false} RunAwaits(frameBytes: nat, cap: nat, events: seq<Event>)
    ensures AwaitsAnOp(Run(frameBytes, cap, events))
  {
    hide Next, Enabled, AwaitsAnOp;
    if events == [] {
      OpenAwaits(frameBytes, cap);
    } else {
      var s, last := Run(frameBytes, cap, events[..|events| - 1]), events[|events| - 1];
      RunAwaits(frameBytes, cap, events[..|events| - 1]);
      if Enabled(s, last) {
        StepAwaits(s, last);
      }
    }
  }

  lemma OpenAwaits(frameBytes: nat, cap: nat)
    ensures AwaitsAnOp(Open(frameBytes, cap))
  {
  }

  // ---------------------------------------------------------------- as the source writes it

  class Stream {
    const frameBytes: nat
    const capacity: nat
    var bound: bool
    var pending: Bytes
    var started: bool
    var hand: Bytes
    var submitted: seq<Frame>
    var waiting: seq<Frame>
    var granted: seq<Frame>
    var awaited: Option<nat>
    var answer: Answer
    var alive: bool
    var channel: seq<Frame>
    var received: seq<Frame>
    var wire: seq<Sent>
    var taken: seq<Bytes>                    // what the numbers count; the source keeps neither
    ghost var pushed: bool
    ghost var written: Bytes

    ghost function Model(): State
      reads this
    {
      State(frameBytes, capacity, bound, pending, started, hand, submitted, waiting, granted, awaited,
            answer, alive, channel, received, wire, pushed, taken, written)
    }

    constructor (frame: nat, chunks: nat)
      ensures Model() == Open(frame, chunks)
    {
      frameBytes, capacity := frame, Max(chunks, 1);
      bound, pending, started, hand, answer, alive := true, [], false, [], Whole, true;
      submitted, waiting, granted, awaited, taken := [], [], [], None, [];
      channel, received, wire, pushed, written := [], [], [], false, [];
    }

    /** Into the channel if the stream is there and a permit is free; the chunk comes back only for want of a permit. */
    method OfferChunk(chunk: Bytes) returns (back: Bytes)
      modifies this`channel, this`taken
      ensures (Model(), back) == TrySend(old(Model()), chunk)
    {
      if answer != Streaming || !alive {
        return [];
      }
      if |channel| + |granted| >= capacity {
        return chunk;
      }
      channel := channel + [Frame(|taken|, chunk)];
      taken := taken + [chunk];
      return [];
    }

    method PushFrame(frame: Bytes) returns (back: Bytes)
      modifies this`started, this`answer, this`wire, this`channel, this`taken, this`pushed
      ensures (Model(), back) == Push(old(Model()), frame)
    {
      hide TrySend;
      pushed := true;
      if !started {
        if answer != Whole {
          return [];
        }
        if !alive {
          answer := Gone;
          return [];                           // the client is already gone
        }
        answer := Streaming;
        wire := wire + [Head];
        started := true;
      }
      back := OfferChunk(frame);
    }

    /** What is pending goes out as one frame, or stays pending. */
    method PushHeld()
      modifies this`pending, this`started, this`answer, this`wire, this`channel, this`taken, this`pushed
      ensures Model() == PushPending(old(Model()))
    {
      hide Push;
      var frame := pending;
      pending := [];
      pending := PushFrame(frame);
    }

    method UbWrite(bytes: Bytes)
      requires Enabled(Model(), Echo(bytes))
      modifies this
      ensures Model() == Next(old(Model()), Echo(bytes))
    {
      hide PushPending;
      written := written + bytes;
      if |bytes| == 0 {
        assert pending + bytes == pending;
        return;
      }
      pending := pending + bytes;
      if |pending| >= frameBytes {
        PushHeld();
      }
    }

    method Flush()
      requires Enabled(Model(), Event.Flush)
      modifies this
      ensures Model() == Next(old(Model()), Event.Flush)
    {
      hide PushPending;
      if |pending| == 0 {
        return;
      }
      PushHeld();
    }

    /** What `echo` left goes first, in the same frame. */
    method StreamWrite(bytes: Bytes)
      requires Enabled(Model(), Write(bytes))
      modifies this
      ensures Model() == Next(old(Model()), Write(bytes))
    {
      hide Push;
      written := written + bytes;
      var frame := pending + bytes;
      pending := [];
      hand := PushFrame(frame);
    }

    /** Whether the chunk is in the channel (0), waits with an op (1), or has nowhere to go (-1). */
    method SendChunk() returns (r: int)
      requires Enabled(Model(), SendHand)
      modifies this`hand, this`channel, this`taken, this`submitted, this`awaited
      ensures Model() == Next(old(Model()), SendHand)
      ensures r == 1 <==> awaited.Some?
      ensures r == -1 <==> answer != Streaming || !alive
    {
      var chunk := hand;
      hand := [];
      if answer != Streaming || !alive {
        return -1;
      }
      var frame := Frame(|taken|, chunk);
      taken := taken + [chunk];
      if |channel| + |granted| < capacity {
        channel := channel + [frame];
        return 0;
      }
      submitted, awaited := submitted + [frame], Some(frame.no);
      return 1;
    }

    method StreamUnbind() returns (hasStarted: bool)
      requires Enabled(Model(), Unbind)
      modifies this
      ensures Model() == Next(old(Model()), Unbind) && hasStarted == started
    {
      hide PushPending;
      if |pending| != 0 {
        PushHeld();
      }
      hand := pending;
      pending := [];
      bound := false;
      hasStarted := started;
    }

    /** `endStream` once the tail is sent, or `produce` answering for a producer that failed early. */
    method EndStream(status: int)
      requires Enabled(Model(), Finish(status))
      modifies this`answer, this`wire
      ensures Model() == Next(old(Model()), Finish(status))
    {
      if !started {
        if answer == Whole {
          if alive {
            wire := wire + [Full(status, [])];
          }
          answer := Gone;
        }
      } else if answer == Streaming {
        wire := wire + [End];
        answer := Gone;
      }
    }
  }
}
