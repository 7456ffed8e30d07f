/**
 What the reactor still owes its clients: one map from request id to the state of its answer, with what
 each client's transport has been handed, and the guards that turn a client's leaving into a cancellation.
 */
module Answers {
  import opened Prelude

  datatype Answer = Whole | Streaming | Grpc

  /** What a request's transport gets; the last four end it. */
  datatype Msg =
    | Head(status: int)
    | Chunk
    | Message
    | Status(code: int)
    | Full(status: int)
    | Closed                     // the sender was dropped on purpose: end of stream
    | Lost                       // an answer for a client that had left
    | Dropped                    // the request was cancelled, or its PHP thread went away

  datatype Token = Request(id: nat) | Cancelled(id: nat)

  datatype State = State(
    nextId: nat,
    answers: map<nat, Answer>,
    wires: map<nat, seq<Msg>>,   // every request ever delivered
    present: set<nat>,           // clients still holding their receiver
    armed: set<nat>,             // guards that will cancel when dropped
    completions: seq<Token>
  )

  function Initial(): State
  {
    State(1, map[], map[], {}, {}, [])
  }

  datatype Call =
    | Deliver(grpc: bool)
    | Respond(id: nat, status: int)
    | RespondStart(id: nat, status: int)
    | SendChunk(id: nat)
    | RespondEnd(id: nat)
    | StreamSend(id: nat)
    | StreamEnd(id: nat, code: int)
    | FailPending
    | Leave(id: nat)             // the receiver is dropped
    | Observe(id: nat)           // the front door sees the answer is complete
    | DropGuard(id: nat)

  predicate Is(s: State, id: nat, a: Answer)
  {
    id in s.answers && s.answers[id] == a
  }

  function WireOf(s: State, id: nat): seq<Msg>
  {
    if id in s.wires then s.wires[id] else []
  }

  function Tell(s: State, id: nat, msgs: seq<Msg>): State
  {
    s.(wires := s.wires[id := WireOf(s, id) + msgs])
  }

  function Take(s: State, id: nat, msgs: seq<Msg>): State
  {
    Tell(s.(answers := s.answers - {id}), id, msgs)
  }

  /** The gRPC code a whole answer with this status ends the call with; 2 where there is no better one. */
  function GrpcRefusal(status: int): int
  {
    match status
    case 503 => 14
    case 504 => 4
    case 500 => 13
    case _ => 2
  }

  function EndGrpc(s: State, id: nat, code: int): (State, bool)
  {
    if !Is(s, id, Grpc) then (s, false)
    else (Take(s, id, (if code != 0 && id in s.present then [Status(code)] else []) + [Closed]), true)
  }

  function CancelRequest(s: State, id: nat): State
  {
    if id !in s.answers then s
    else Take(s, id, [Dropped]).(completions := s.completions + [Cancelled(id)])
  }

  predicate Ended(wire: seq<Msg>)
  {
    wire != [] && var last := wire[|wire| - 1]; last.Full? || last.Closed? || last.Lost? || last.Dropped?
  }

  function Next(s: State, c: Call): (State, bool)
  {
    match c
    case Deliver(grpc) =>
      (s.(nextId := s.nextId + 1, answers := s.answers[s.nextId := if grpc then Grpc else Whole],
          wires := s.wires[s.nextId := []], present := s.present + {s.nextId}, armed := s.armed + {s.nextId},
          completions := s.completions + [Request(s.nextId)]), true)
    case Respond(id, status) =>
      if status >= 400 && Is(s, id, Grpc) then EndGrpc(s, id, GrpcRefusal(status))
      else if !Is(s, id, Whole) then (s, false)
      else if id in s.present then (Take(s, id, [Full(status)]), true)
      else (Take(s, id, [Lost]), false)
    case RespondStart(id, status) =>
      if !Is(s, id, Whole) then (s, false)
      else if id in s.present then (Tell(s.(answers := s.answers[id := Streaming]), id, [Head(status)]), true)
      else (Take(s, id, [Lost]), false)
    case SendChunk(id) => if Is(s, id, Streaming) && id in s.present then (Tell(s, id, [Chunk]), true) else (s, false)
    case RespondEnd(id) => if Is(s, id, Streaming) then (Take(s, id, [Closed]), true) else (s, false)
    case StreamSend(id) => if Is(s, id, Grpc) && id in s.present then (Tell(s, id, [Message]), true) else (s, false)
    case StreamEnd(id, code) => EndGrpc(s, id, code)
    case FailPending =>
      (s.(answers := map[], wires := map id | id in s.wires :: if id in s.answers then s.wires[id] + [Dropped] else s.wires[id]), true)
    case Leave(id) => (s.(present := s.present - {id}), true)
    case Observe(id) => (if id in s.wires && Ended(s.wires[id]) then s.(armed := s.armed - {id}) else s, true)
    case DropGuard(id) => (if id in s.armed then CancelRequest(s, id).(armed := s.armed - {id}) else s, true)
  }

  function Run(calls: seq<Call>): State
  {
    if calls == [] then Initial() else Next(Run(calls[..|calls| - 1]), calls[|calls| - 1]).0
  }

  // ---------------------------------------------------------------- what a client can be handed

  predicate All(wire: seq<Msg>, m: Msg)
  {
    forall k :: 0 <= k < |wire| ==> wire[k] == m
  }

  /** A whole response, or one head and its chunks, or gRPC messages: never two of them. */
  predicate Partial(wire: seq<Msg>, a: Answer)
  {
    match a
    case Whole => wire == []
    case Streaming => wire != [] && wire[0].Head? && All(wire[1..], Chunk)
    case Grpc => All(wire, Message)
  }

  /** The same with its one ending; only a gRPC stream may carry a terminal status, once, right before it. */
  predicate Finished(wire: seq<Msg>)
  {
    && Ended(wire)
    && var front := wire[..|wire| - 1];
       var last := wire[|wire| - 1];
       || (front == [] && !last.Closed?)
       || (!last.Full? && (Partial(front, Streaming) || Partial(front, Grpc)))
       || (last.Closed? && front != [] && front[|front| - 1].Status? && Partial(front[..|front| - 1], Grpc))
  }

  /** An id is owed in exactly one state, or its answer is finished. */
  predicate WireOk(s: State, id: nat)
  {
    id in s.wires ==> if id in s.answers then Partial(s.wires[id], s.answers[id]) else Finished(s.wires[id])
  }

  ghost predicate Book(s: State)
  {
    && (forall id :: id in s.wires ==> id < s.nextId)
    && (forall id :: id in s.answers ==> id in s.wires)
    && (forall id :: id in s.answers ==> id in s.armed)
    && (forall id :: id in s.present || id in s.armed ==> id < s.nextId)
  }

  /** The completions so far: each request once, and at most one cancellation behind it. */
  ghost predicate Announced(s: State)
  {
    && NoDup(s.completions)
    && (forall t :: t in s.completions ==> t.id in s.wires)
    && (forall id :: id in s.wires ==> Request(id) in s.completions)
    && (forall t :: t in s.completions && t.Cancelled? ==> t.id !in s.answers)
    && (forall j :: 0 <= j < |s.completions| && s.completions[j].Cancelled? ==> Request(s.completions[j].id) in s.completions[..j])
  }

  ghost predicate Inv(s: State)
  {
    (forall id :: id in s.wires ==> WireOk(s, id)) && Book(s) && Announced(s)
  }

  lemma ChunkOn(wire: seq<Msg>, a: Answer)
    ensures Partial(wire, Streaming) ==> Partial(wire + [Chunk], Streaming)
    ensures Partial(wire, Grpc) ==> Partial(wire + [Message], Grpc)
  {
    if wire != [] {
      assert (wire + [Chunk])[1..] == wire[1..] + [Chunk];
    }
  }

  lemma EndOne(wire: seq<Msg>, a: Answer, m: Msg)
    requires Partial(wire, a)
    requires m.Dropped? || (m.Closed? && a != Whole) || (a == Whole && (m.Full? || m.Lost?))
    ensures Finished(wire + [m])
  {
    assert (wire + [m])[..|wire|] == wire;
  }

  lemma EndStatus(wire: seq<Msg>, code: int)
    requires Partial(wire, Grpc)
    ensures Finished(wire + ([Status(code)] + [Closed]))
  {
    var told := wire + [Status(code)];
    assert wire + ([Status(code)] + [Closed]) == told + [Closed];
    assert (told + [Closed])[..|told|] == told && told[..|wire|] == wire;
  }

  lemma EndOn(wire: seq<Msg>, a: Answer, status: int, code: int)
    requires Partial(wire, a)
    ensures a == Whole ==> Finished(wire + [Full(status)]) && Finished(wire + [Lost])
    ensures Finished(wire + [Dropped])
    ensures a != Whole ==> Finished(wire + [Closed])
    ensures a == Grpc ==> Finished(wire + ([Status(code)] + [Closed])) && Finished(wire + ([] + [Closed]))
  {
    hide Partial, Finished;
    EndOne(wire, a, Dropped);
    if a == Whole {
      EndOne(wire, a, Full(status));
      EndOne(wire, a, Lost);
    } else {
      EndOne(wire, a, Closed);
    }
    if a == Grpc {
      EndStatus(wire, code);
      assert [] + [Closed] == [Closed];
    }
  }

  lemma StartOn(wire: seq<Msg>, status: int)
    requires Partial(wire, Whole)
    ensures Partial(wire + [Head(status)], Streaming)
    ensures forall a: Answer :: a != Streaming ==> Partial([], a)
  {
  }

  lemma WireKeeps(s: State, c: Call, id: nat)
    requires Book(s) && (id in s.wires ==> WireOk(s, id))
    ensures WireOk(Next(s, c).0, id)
  {
    hide Partial, Finished;
    StartOn([], 0);
    WholeIsEmpty(s, id);
    if id in s.answers {
      ChunkOn(s.wires[id], s.answers[id]);
      EndOn(s.wires[id], s.answers[id], if c.Respond? then c.status else 0,
            if c.StreamEnd? then c.code else if c.Respond? then GrpcRefusal(c.status) else 0);
      if s.answers[id] == Whole {
        StartOn(s.wires[id], if c.RespondStart? then c.status else 0);
      }
    }
  }

  lemma WholeIsEmpty(s: State, id: nat)
    requires Book(s)
    ensures id in s.answers ==> id in s.wires
    ensures s.nextId !in s.wires
  {
  }

  lemma BookKeeps(s: State, c: Call)
    requires Book(s) && forall id :: id in s.wires ==> WireOk(s, id)
    ensures Book(Next(s, c).0)
  {
  }

  /** What a call announces. */
  function News(s: State, c: Call): seq<Token>
  {
    match c
    case Deliver(_) => [Request(s.nextId)]
    case DropGuard(id) => if id in s.armed && id in s.answers then [Cancelled(id)] else []
    case _ => []
  }

  lemma NewsIs(s: State, c: Call)
    ensures Next(s, c).0.completions == s.completions + News(s, c)
  {
    hide EndGrpc;
    EndGrpcQuiet(s, if c.Respond? || c.StreamEnd? then c.id else 0, if c.StreamEnd? then c.code else if c.Respond? then GrpcRefusal(c.status) else 0);
  }

  lemma EndGrpcQuiet(s: State, id: nat, code: int)
    ensures EndGrpc(s, id, code).0.completions == s.completions
  {
  }

  /** Answers only ever leave the map, except for the one a delivery adds. */
  lemma AnswersShrink(s: State, c: Call)
    ensures forall id :: id in Next(s, c).0.answers ==> id in s.answers || (c.Deliver? && id == s.nextId)
    ensures forall id :: id in s.wires ==> id in Next(s, c).0.wires
    ensures forall id :: id in Next(s, c).0.wires ==> id in s.wires || (c.Deliver? && id == s.nextId) || (id in s.answers)
    ensures c.Deliver? ==> s.nextId in Next(s, c).0.wires
    ensures c.DropGuard? && c.id in s.armed ==> c.id !in Next(s, c).0.answers
  {
  }

  lemma AnnouncedKeeps(s: State, c: Call)
    requires Book(s) && Announced(s)
    ensures Announced(Next(s, c).0)
  {
    hide Next;
    NewsIs(s, c);
    AnswersShrink(s, c);
    var t := Next(s, c).0;
    assert forall j :: 0 <= j <= |s.completions| ==> t.completions[..j] == s.completions[..j];
    if c.DropGuard? && News(s, c) != [] {
      assert Request(c.id) in s.completions;
    }
  }

  lemma StepKeeps(s: State, c: Call)
    requires Inv(s)
    ensures Inv(Next(s, c).0)
  {
    hide Next, Book, Announced, WireOk;
    forall id | id in Next(s, c).0.wires ensures WireOk(Next(s, c).0, id) {
      WireKeeps(s, c, id);
    }
    BookKeeps(s, c);
    AnnouncedKeeps(s, c);
  }

  lemma {:induction false} RunKeeps(calls: seq<Call>)
    ensures Inv(Run(calls))
  {
    hide Next, Inv, Initial;
    if calls == [] {
      InitialIsSafe();
    } else {
      RunKeeps(calls[..|calls| - 1]);
      StepKeeps(Run(calls[..|calls| - 1]), calls[|calls| - 1]);
    }
  }

  lemma InitialIsSafe()
    ensures Inv(Initial())
  {
  }

  // ---------------------------------------------------------------- what a run guarantees

  /**
   After any calls: every delivered request is owed in one state or finished, and what its client was
   handed has that state's shape, so nobody gets two answers.
   */
  lemma OneAnswerEach(calls: seq<Call>, id: nat)
    requires id in Run(calls).wires
    ensures var s := Run(calls);
      if id in s.answers then Partial(s.wires[id], s.answers[id]) else Finished(s.wires[id])
  {
    RunKeeps(calls);
    hide Run;
  }

  lemma PartialGoesOn(wire: seq<Msg>, a: Answer)
    requires Partial(wire, a)
    ensures !Ended(wire)
  {
  }

  /** `pending_requests` counts exactly the requests whose answer has not ended. */
  lemma PendingIsWhatIsOwed(calls: seq<Call>)
    ensures var s := Run(calls);
      && s.answers.Keys == (set id | id in s.wires && !Ended(s.wires[id]))
      && |s.answers| == |set id | id in s.wires && !Ended(s.wires[id])|
  {
    var s := Run(calls);
    hide Run, Partial;
    RunKeeps(calls);
    forall id | id in s.wires ensures id in s.answers <==> !Ended(s.wires[id]) {
      assert WireOk(s, id);
      if id in s.answers {
        PartialGoesOn(s.wires[id], s.answers[id]);
      }
    }
    assert s.answers.Keys == (set id | id in s.wires && !Ended(s.wires[id]));
    KeysCount(s.answers);
  }

  lemma {:induction false} KeysCount(m: map<nat, Answer>)
    ensures |m| == |m.Keys|
    decreases m.Keys
  {
    if m != map[] {
      var k :| k in m;
      KeysCount(m - {k});
      assert (m - {k}).Keys == m.Keys - {k};
      assert m == (m - {k})[k := m[k]];
    }
  }

  /** Body messages a client has been handed. */
  function Bodies(wire: seq<Msg>): nat
  {
    if wire == [] then 0 else Bodies(wire[..|wire| - 1]) + if wire[|wire| - 1] == Chunk || wire[|wire| - 1] == Message then 1 else 0
  }

  /** Chunks and messages for this id that were accepted. */
  function AcceptedSends(calls: seq<Call>, id: nat): nat
  {
    if calls == [] then 0
    else
      var front, c := calls[..|calls| - 1], calls[|calls| - 1];
      AcceptedSends(front, id) + if (c == SendChunk(id) || c == StreamSend(id)) && Next(Run(front), c).1 then 1 else 0
  }

  /** Over any calls, each accepted chunk or message reaches its client, once, and nothing else does. */
  lemma {:induction false} AcceptedIsHandedOver(calls: seq<Call>, id: nat)
    ensures Bodies(WireOf(Run(calls), id)) == AcceptedSends(calls, id)
  {
    hide Run, Next, WireOf;
    if calls == [] {
      NothingHanded(id);
    } else {
      var front, c := calls[..|calls| - 1], calls[|calls| - 1];
      AcceptedIsHandedOver(front, id);
      RunKeeps(front);
      RunNext(calls);
      StepHands(Run(front), c, id);
    }
  }

  lemma NothingHanded(id: nat)
    ensures Run([]) == Initial() && WireOf(Initial(), id) == []
  {
  }

  lemma RunNext(calls: seq<Call>)
    requires calls != []
    ensures Run(calls) == Next(Run(calls[..|calls| - 1]), calls[|calls| - 1]).0
  {
  }

  lemma BodiesSnoc(wire: seq<Msg>, m: Msg)
    ensures Bodies(wire + [m]) == Bodies(wire) + if m == Chunk || m == Message then 1 else 0
  {
    assert (wire + [m])[..|wire|] == wire;
  }

  lemma BodiesEnd(wire: seq<Msg>, code: int)
    ensures Bodies(wire + ([Status(code)] + [Closed])) == Bodies(wire) && Bodies(wire + ([] + [Closed])) == Bodies(wire)
    ensures Bodies(wire + []) == Bodies(wire)
  {
    assert wire + ([Status(code)] + [Closed]) == wire + [Status(code)] + [Closed] && wire + ([] + [Closed]) == wire + [Closed];
    assert wire + [] == wire;
    BodiesSnoc(wire, Status(code));
    BodiesSnoc(wire + [Status(code)], Closed);
    BodiesSnoc(wire, Closed);
  }

  lemma StepHands(s: State, c: Call, id: nat)
    requires Inv(s)
    ensures Bodies(WireOf(Next(s, c).0, id)) ==
      Bodies(WireOf(s, id)) + if (c == SendChunk(id) || c == StreamSend(id)) && Next(s, c).1 then 1 else 0
  {
    hide Bodies, Partial, Finished, Announced, WireOk;
    var wire := WireOf(s, id);
    var status := if c.Respond? || c.RespondStart? then c.status else 0;
    var code := if c.StreamEnd? then c.code else if c.Respond? then GrpcRefusal(c.status) else 0;
    BodiesSnoc(wire, Chunk);
    BodiesSnoc(wire, Message);
    BodiesSnoc(wire, Head(status));
    BodiesSnoc(wire, Full(status));
    BodiesSnoc(wire, Lost);
    BodiesSnoc(wire, Dropped);
    BodiesSnoc(wire, Closed);
    BodiesEnd(wire, code);
  }

  /** Failing everything pending ends what is owed as dropped, and nothing is owed any more; finished answers stay. */
  lemma FailPendingEndsAll(calls: seq<Call>, id: nat)
    requires id in Run(calls).wires
    ensures var s, t := Run(calls), Next(Run(calls), FailPending).0;
      && t.answers == map[] && id in t.wires
      && (if id in s.answers then t.wires[id] == s.wires[id] + [Dropped] && !Ended(s.wires[id]) else t.wires[id] == s.wires[id] && Ended(s.wires[id]))
  {
    RunKeeps(calls);
    hide Run;
    assert WireOk(Run(calls), id);
    if id in Run(calls).answers {
      PartialGoesOn(Run(calls).wires[id], Run(calls).answers[id]);
    }
  }

  const CODE_UNKNOWN: int := 2
  const CODE_DEADLINE_EXCEEDED: int := 4
  const CODE_INTERNAL: int := 13
  const CODE_UNAVAILABLE: int := 14

  /** The call ends a gRPC stream with this code: by itself, or because PHP refused it with an HTTP status. */
  predicate EndsWith(c: Call, id: nat, code: int)
  {
    || c == StreamEnd(id, code)
    || (c.Respond? && c.id == id && c.status >= 400 &&
        if c.status == 503 then code == CODE_UNAVAILABLE
        else if c.status == 504 then code == CODE_DEADLINE_EXCEEDED
        else if c.status == 500 then code == CODE_INTERNAL
        else code == CODE_UNKNOWN)
  }

  /**
   After any calls: the next one ends a gRPC call that is still owed exactly if it carries a code for it, the
   client reads that code, once and last, unless it is 0 or the client has left, and the stream is closed.
   */
  lemma GrpcEndsExactly(calls: seq<Call>, c: Call, id: nat, code: int)
    requires Is(Run(calls), id, Grpc) && EndsWith(c, id, code)
    ensures var s, t := Run(calls), Next(Run(calls), c).0;
      && id !in t.answers && id in s.wires && id in t.wires
      && t.wires[id] == s.wires[id] + (if code != 0 && id in s.present then [Status(code), Closed] else [Closed])
      && (forall k :: 0 <= k < |s.wires[id]| ==> s.wires[id][k] == Message)
  {
    RunKeeps(calls);
    hide Run;
    assert WireOk(Run(calls), id);
    assert [Status(code)] + [Closed] == [Status(code), Closed] && [] + [Closed] == [Closed];
  }

  /** A cancellation comes at most once, behind its request, and only if a client left before the end. */
  lemma CancelledOnceBehindRequest(calls: seq<Call>, id: nat)
    requires Cancelled(id) in Run(calls).completions
    ensures var s := Run(calls);
      && NoDup(s.completions)
      && (exists i, j :: 0 <= i < j < |s.completions| && s.completions[i] == Request(id) && s.completions[j] == Cancelled(id))
      && id !in s.answers
  {
    RunKeeps(calls);
    hide Run;
    var s := Run(calls);
    var j :| 0 <= j < |s.completions| && s.completions[j] == Cancelled(id);
    assert Request(id) in s.completions[..j];
    var i :| 0 <= i < j && s.completions[..j][i] == Request(id);
    assert s.completions[i] == Request(id);
  }

  /** The state a call of PHP's is for. */
  predicate Fits(s: State, c: Call)
  {
    match c
    case Respond(id, status) => Is(s, id, Whole) || (status >= 400 && Is(s, id, Grpc))
    case RespondStart(id, _) => Is(s, id, Whole)
    case SendChunk(id) => Is(s, id, Streaming)
    case RespondEnd(id) => Is(s, id, Streaming)
    case StreamSend(id) => Is(s, id, Grpc)
    case StreamEnd(id, _) => Is(s, id, Grpc)
    case _ => true
  }

  /** A call for another state is refused and changes nothing; so is every call on a finished or cancelled id. */
  lemma WrongStateChangesNothing(s: State, c: Call)
    requires !Fits(s, c)
    ensures Next(s, c) == (s, false)
  {
  }

  /** Refused in the right state means the client had left, and then nothing reaches it. */
  lemma RefusedMeansGone(s: State, c: Call)
    requires Fits(s, c) && !Next(s, c).1 && !c.Leave? && !c.Observe? && !c.DropGuard?
    ensures c.Respond? || c.RespondStart? || c.SendChunk? || c.StreamSend?
    ensures c.id !in s.present && (WireOf(Next(s, c).0, c.id) == WireOf(s, c.id) || WireOf(Next(s, c).0, c.id) == WireOf(s, c.id) + [Lost])
  {
  }

  /** The guard stays armed for as long as anything is owed: a client that leaves before the end, mid-stream too, is always noticed. */
  lemma LeavingIsNoticed(calls: seq<Call>, id: nat)
    requires id in Run(calls).answers
    ensures var t := Next(Run(calls), DropGuard(id)).0; t.completions == Run(calls).completions + [Cancelled(id)] && id !in t.answers
  {
    RunKeeps(calls);
    hide Run;
  }

  // ---------------------------------------------------------------- as the source writes it

  class AnswerMap {
    var nextId: nat
    var answers: map<nat, Answer>
    ghost var wires: map<nat, seq<Msg>>
    var present: set<nat>
    var armed: set<nat>
    ghost var completions: seq<Token>

    ghost function Model(): State
      reads this
    {
      State(nextId, answers, wires, present, armed, completions)
    }

    constructor ()
      ensures Model() == Initial()
    {
      nextId, answers, wires, present, armed, completions := 1, map[], map[], {}, {}, [];
    }

    /** Looks before it removes: an answer in another state is left alone. */
    method TakeAnswer(id: nat, expected: Answer) returns (taken: bool)
      modifies this`answers
      ensures taken <==> Is(old(Model()), id, expected)
      ensures answers == if taken then old(answers) - {id} else old(answers)
    {
      taken := id in answers && answers[id] == expected;
      if taken {
        answers := answers - {id};
      }
    }

    method Respond(id: nat, status: int) returns (ok: bool)
      modifies this`answers, this`wires
      ensures (Model(), ok) == Next(old(Model()), Call.Respond(id, status))
    {
      if status >= 400 && id in answers && answers[id] == Grpc {
        ok := StreamEnd(id, GrpcRefusal(status));
        return;
      }
      var taken := TakeAnswer(id, Whole);
      if !taken {
        return false;
      }
      ok := id in present;
      wires := wires[id := WireOf(Model(), id) + [if ok then Full(status) else Lost]];
    }

    /** Takes the answer out and, if its client is there, puts it back in the next state. */
    method RespondStart(id: nat, status: int) returns (ok: bool)
      modifies this`answers, this`wires
      ensures (Model(), ok) == Next(old(Model()), Call.RespondStart(id, status))
    {
      if id !in answers {
        return false;
      }
      var found := answers[id];
      answers := answers - {id};
      if found != Whole {
        answers := answers[id := found];         // a stream or a gRPC call stays what it was
        assert answers == old(answers);
        return false;
      }
      if id !in present {
        wires := wires[id := WireOf(Model(), id) + [Lost]];
        return false;
      }
      answers := answers[id := Streaming];
      assert answers == old(answers)[id := Streaming];
      wires := wires[id := WireOf(Model(), id) + [Head(status)]];
      ok := true;
    }

    method StreamEnd(id: nat, code: int) returns (ok: bool)
      modifies this`answers, this`wires
      ensures (Model(), ok) == EndGrpc(old(Model()), id, code)
    {
      ok := TakeAnswer(id, Grpc);
      if ok {
        wires := wires[id := WireOf(Model(), id) + ((if code != 0 && id in present then [Status(code)] else []) + [Closed])];
      }
    }

    method RespondEnd(id: nat) returns (ok: bool)
      modifies this`answers, this`wires
      ensures (Model(), ok) == Next(old(Model()), Call.RespondEnd(id))
    {
      ok := TakeAnswer(id, Streaming);
      if ok {
        wires := wires[id := WireOf(Model(), id) + [Closed]];
      }
    }

    method Cancel(id: nat)
      modifies this`answers, this`wires, this`completions
      ensures Model() == CancelRequest(old(Model()), id)
    {
      if id in answers {
        answers := answers - {id};
        wires := wires[id := WireOf(Model(), id) + [Dropped]];
        completions := completions + [Cancelled(id)];
      }
    }
  }
}
