/**
 Correlation in the Temporal core transport: core names what it schedules by sequence number, sdk-php by
 request id.  The reference for one run is the list of what it scheduled and which of it has resolved.
 */
module CoreCodec {
  import opened Prelude

  datatype Kind = Activity | LocalActivity | Timer | Child

  datatype BySeq = BySeq(id: nat, kind: Kind)
  datatype ById = ById(seqno: nat, kind: Kind)

  /** One entry of `$runs`. */
  datatype Run = Run(
    seqno: nat,
    bySeq: map<nat, BySeq>,
    byId: map<nat, ById>,
    childStart: map<nat, nat>,           // sequence number -> the request waiting for the child's start
    queries: seq<nat>,
    updates: map<nat, nat>               // update id -> protocol instance
  )

  const EMPTY: Run := Run(0, map[], map[], map[], [], map[])

  /** What core puts in an activation, as far as correlation goes. */
  datatype Job =
    | Initialize
    | FireTimer(seqno: nat)
    | ResolveActivity(seqno: nat)
    | ResolveChild(seqno: nat)
    | ResolveChildStart(seqno: nat)
    | Query(query: nat)
    | Update(update: nat, instance: nat)
    | Notify                             // a signal or a cancellation
    | RemoveFromCache
    | Ignored

  /** What sdk-php is handed; a request carries the place of its job in the activation, and an update its id. */
  datatype Message = Request(tag: nat, update: Option<nat>) | Response(id: nat)

  /** What sdk-php answers with. */
  datatype Command =
    | Schedule(id: nat, kind: Kind)
    | GetChild(child: nat, id: nat)
    | Cancel(ids: seq<nat>)
    | Close                              // complete, fail or panic
    | UpdateReply(update: nat)
    | Ack(tag: nat)                      // the response to the request with this tag
    | Untranslated

  datatype Order =
    | Start(kind: Kind, seqno: nat)
    | RequestCancel(kind: Kind, seqno: nat)
    | AnswerQuery(query: nat, tag: nat)
    | AnswerUpdate(instance: nat)
    | CloseRun

  // ---------------------------------------------------------------- one run

  function NextSeq(r: Run, id: nat, kind: Kind): Run
  {
    var n := r.seqno + 1;
    r.(seqno := n, bySeq := r.bySeq[n := BySeq(id, kind)], byId := r.byId[id := ById(n, kind)])
  }

  function TakeId(r: Run, n: nat): (Run, Option<nat>)
  {
    if n !in r.bySeq then (r, None)
    else (r.(bySeq := r.bySeq - {n}, byId := r.byId - {r.bySeq[n].id}), Some(r.bySeq[n].id))
  }

  function Told(id: Option<nat>): seq<Message>
  {
    if id.Some? then [Response(id.value)] else []
  }

  /** `tag` is the place of the job in its activation. */
  function DecodeJob(r: Run, job: Job, tag: nat): (Run, seq<Message>)
  {
    match job
    case Initialize => (EMPTY, [Request(tag, None)])
    case FireTimer(n) => (TakeId(r, n).0, Told(TakeId(r, n).1))
    case ResolveActivity(n) => (TakeId(r, n).0, Told(TakeId(r, n).1))
    case ResolveChild(n) => (TakeId(r, n).0, Told(TakeId(r, n).1))
    case ResolveChildStart(n) =>
      (r.(childStart := r.childStart - {n}), if n in r.childStart then [Response(r.childStart[n])] else [])
    case Query(q) => (r.(queries := r.queries + [q]), [Request(tag, None)])
    case Update(u, instance) => (r.(updates := r.updates[u := instance]), [Request(tag, Some(u))])
    case Notify => (r, [Request(tag, None)])
    case RemoveFromCache => (EMPTY, [Request(tag, None)])
    case Ignored => (r, [])
  }

  function Decode(r: Run, jobs: seq<Job>): (Run, seq<Message>)
  {
    if jobs == [] then (r, [])
    else
      var (t, out) := Decode(r, jobs[..|jobs| - 1]);
      var (u, more) := DecodeJob(t, jobs[|jobs| - 1], |jobs| - 1);
      (u, out + more)
  }

  function CancelOf(r: Run, id: nat): Option<Order>
  {
    if id in r.byId then Some(RequestCancel(r.byId[id].kind, r.byId[id].seqno)) else None
  }

  function Cancels(r: Run, ids: seq<nat>): seq<Order>
  {
    if ids == [] then []
    else Cancels(r, ids[..|ids| - 1]) + match CancelOf(r, ids[|ids| - 1]) case Some(o) => [o] case None => []
  }

  /** None: the command has no translation. */
  function EncodeOne(r: Run, c: Command): Option<(Run, seq<Order>)>
  {
    match c
    case Schedule(id, kind) => Some((NextSeq(r, id, kind), [Start(kind, r.seqno + 1)]))
    case GetChild(child, id) => Some((if child in r.byId then r.(childStart := r.childStart[r.byId[child].seqno := id]) else r, []))
    case Cancel(ids) => Some((r, Cancels(r, ids)))
    case Close => Some((r, [CloseRun]))
    case UpdateReply(u) => Some((r, [AnswerUpdate(if u in r.updates then r.updates[u] else u)]))
    case Ack(tag) =>
      if r.queries == [] then Some((r, [])) else Some((r.(queries := r.queries[1..]), [AnswerQuery(r.queries[0], tag)]))
    case Untranslated => None
  }

  /** A command without translation refuses the whole completion; what the ones before it did to the run stays. */
  function Encode(r: Run, cs: seq<Command>): (Run, Option<seq<Order>>)
  {
    if cs == [] then (r, Some([]))
    else
      var (t, out) := Encode(r, cs[..|cs| - 1]);
      if out.None? then (t, None)
      else
        match EncodeOne(t, cs[|cs| - 1])
        case None => (t, None)
        case Some((u, more)) => (u, Some(out.value + more))
  }

  // ---------------------------------------------------------------- the reference: what was scheduled

  /**
   Everything scheduled since the run began, number n at index n - 1, the numbers resolved so far, and who
   asked to be told about the start of which number.
   */
  datatype History = History(issued: seq<BySeq>, resolved: seq<nat>, asked: map<nat, nat>)

  const BLANK: History := History([], [], map[])

  predicate Outstanding(h: History, n: nat)
  {
    1 <= n <= |h.issued| && n !in h.resolved
  }

  function Resolve(h: History, n: nat): History
  {
    if Outstanding(h, n) then h.(resolved := h.resolved + [n]) else h
  }

  /** The latest of the first n numbers that is outstanding under this id, or 0. */
  function NumberOf(h: History, id: nat, n: nat): nat
    requires n <= |h.issued|
  {
    if n == 0 then 0
    else if Outstanding(h, n) && h.issued[n - 1].id == id then n
    else NumberOf(h, id, n - 1)
  }

  function Ask(h: History, child: nat, id: nat): History
  {
    var n := NumberOf(h, child, |h.issued|);
    if n == 0 then h else h.(asked := h.asked[n := id])
  }

  function NoteJob(h: History, job: Job): History
  {
    match job
    case Initialize => BLANK
    case RemoveFromCache => BLANK
    case FireTimer(n) => Resolve(h, n)
    case ResolveActivity(n) => Resolve(h, n)
    case ResolveChild(n) => Resolve(h, n)
    case ResolveChildStart(n) => h.(asked := h.asked - {n})
    case _ => h
  }

  function NoteCommand(h: History, c: Command): History
  {
    match c
    case Schedule(id, kind) => h.(issued := h.issued + [BySeq(id, kind)])
    case GetChild(child, id) => Ask(h, child, id)
    case _ => h
  }

  /** The two maps are inverse, and hold exactly what is outstanding. */
  ghost predicate Matches(r: Run, h: History)
  {
    && r.seqno == |h.issued| && NoDup(h.resolved) && r.childStart == h.asked
    && (forall n :: n in h.resolved ==> 1 <= n <= |h.issued|)
    && (forall n :: n in r.bySeq <==> Outstanding(h, n))
    && (forall n :: n in r.bySeq ==> r.bySeq[n] == h.issued[n - 1])
    && (forall n :: n in r.bySeq ==> r.bySeq[n].id in r.byId && r.byId[r.bySeq[n].id] == ById(n, r.bySeq[n].kind))
    && (forall id :: id in r.byId ==> r.byId[id].seqno in r.bySeq && r.bySeq[r.byId[id].seqno] == BySeq(id, r.byId[id].kind))
  }

  /** The request's id does not name another request that is still outstanding. */
  predicate FreshId(r: Run, c: Command)
  {
    c.Schedule? ==> c.id !in r.byId
  }

  lemma TakeKeeps(r: Run, h: History, n: nat)
    requires Matches(r, h)
    ensures Matches(TakeId(r, n).0, Resolve(h, n))
    ensures TakeId(r, n).1 == if Outstanding(h, n) then Some(h.issued[n - 1].id) else None
  {
  }

  lemma JobKeeps(r: Run, h: History, job: Job, tag: nat)
    requires Matches(r, h)
    ensures Matches(DecodeJob(r, job, tag).0, NoteJob(h, job))
  {
    match job {
      case FireTimer(n) => TakeKeeps(r, h, n);
      case ResolveActivity(n) => TakeKeeps(r, h, n);
      case ResolveChild(n) => TakeKeeps(r, h, n);
      case _ =>
    }
    hide TakeId, Resolve;
  }

  /** Scheduling keeps the maps inverse exactly when its id is fresh. */
  lemma ScheduleExactly(r: Run, h: History, id: nat, kind: Kind)
    requires Matches(r, h)
    ensures Matches(NextSeq(r, id, kind), NoteCommand(h, Schedule(id, kind))) <==> FreshId(r, Schedule(id, kind))
  {
    var t, g := NextSeq(r, id, kind), NoteCommand(h, Schedule(id, kind));
    var n := r.seqno + 1;
    assert n !in r.bySeq && n !in h.resolved;
    assert forall m :: Outstanding(g, m) <==> Outstanding(h, m) || m == n;
    if id in r.byId {
      var was := r.byId[id].seqno;
      assert was in t.bySeq && t.bySeq[was].id == id && t.byId[id].seqno == n != was;
    } else {
      assert forall m :: m in r.bySeq ==> r.bySeq[m].id != id;
    }
  }

  lemma CommandKeeps(r: Run, h: History, c: Command)
    requires Matches(r, h) && FreshId(r, c) && EncodeOne(r, c).Some?
    ensures Matches(EncodeOne(r, c).value.0, NoteCommand(h, c))
  {
    if c.Schedule? {
      ScheduleExactly(r, h, c.id, c.kind);
    }
    if c.GetChild? {
      NumberIs(r, h, c.child, |h.issued|);
    }
    hide NextSeq;
  }

  /** The reference finds the number the maps hold for an id. */
  lemma {:induction false} NumberIs(r: Run, h: History, id: nat, n: nat)
    requires Matches(r, h) && n <= |h.issued| && (id in r.byId ==> r.byId[id].seqno <= n)
    ensures NumberOf(h, id, n) == if id in r.byId then r.byId[id].seqno else 0
  {
    if n > 0 && !(Outstanding(h, n) && h.issued[n - 1].id == id) {
      NumberIs(r, h, id, n - 1);
    }
  }

  // ---------------------------------------------------------------- a run's whole life

  datatype Event = Given(job: Job, tag: nat) | Said(command: Command)

  /** A run's jobs and commands in the order they come; a refused command leaves it as it was. */
  function Life(events: seq<Event>): (Run, History)
  {
    if events == [] then (EMPTY, BLANK)
    else
      var (r, h) := Life(events[..|events| - 1]);
      match events[|events| - 1]
      case Given(job, tag) => (DecodeJob(r, job, tag).0, NoteJob(h, job))
      case Said(c) => if EncodeOne(r, c).None? then (r, h) else (EncodeOne(r, c).value.0, NoteCommand(h, c))
  }

  predicate AllFresh(events: seq<Event>)
  {
    forall k :: 0 <= k < |events| && events[k].Said? ==> FreshId(Life(events[..k]).0, events[k].command)
  }

  lemma {:induction false} LifeMatches(events: seq<Event>)
    requires AllFresh(events)
    ensures Matches(Life(events).0, Life(events).1)
  {
    hide Matches, FreshId, NoteJob, NoteCommand, DecodeJob, EncodeOne;
    if events == [] {
      BlankMatches();
    } else {
      var n := |events| - 1;
      forall k | 0 <= k < n && events[..n][k].Said? ensures FreshId(Life(events[..n][..k]).0, events[..n][k].command) {
        assert events[..n][..k] == events[..k];
      }
      LifeMatches(events[..n]);
      var (r, h) := Life(events[..n]);
      match events[n] {
        case Given(job, tag) => JobKeeps(r, h, job, tag);
        case Said(c) => if EncodeOne(r, c).Some? { CommandKeeps(r, h, c); }
      }
    }
  }

  lemma BlankMatches()
    ensures Matches(EMPTY, BLANK)
  {
  }

  /** The three jobs with which core reports what became of number n. */
  predicate Resolves(job: Job, n: nat)
  {
    job == FireTimer(n) || job == ResolveActivity(n) || job == ResolveChild(n)
  }

  /**
   With fresh ids: a resolution of a number is told to sdk-php as the response to the request that scheduled the
   number, if that is still outstanding; any other, and any further one, is told to nobody.
   */
  lemma ResolutionAnswersItsRequest(events: seq<Event>, n: nat, job: Job, tag: nat, again: Job, later: nat)
    requires AllFresh(events) && Resolves(job, n) && Resolves(again, n)
    ensures var (r, h) := Life(events);
      var (t, out) := DecodeJob(r, job, tag);
      && out == (if Outstanding(h, n) then [Response(h.issued[n - 1].id)] else [])
      && DecodeJob(t, again, later).1 == []
      && NoDup(h.resolved) && TakeId(r, n).1 == (if Outstanding(h, n) then Some(h.issued[n - 1].id) else None)
      && TakeId(TakeId(r, n).0, n).1 == None
  {
    LifeMatches(events);
    var (r, h) := Life(events);
    TakeKeeps(r, h, n);
    hide Life;
  }

  // ---------------------------------------------------------------- messages and orders, from the history alone

  /** What sdk-php is to be told of a job, by what was scheduled and asked before it. */
  function Tells(h: History, job: Job, tag: nat): seq<Message>
  {
    match job
    case FireTimer(n) => if Outstanding(h, n) then [Response(h.issued[n - 1].id)] else []
    case ResolveActivity(n) => if Outstanding(h, n) then [Response(h.issued[n - 1].id)] else []
    case ResolveChild(n) => if Outstanding(h, n) then [Response(h.issued[n - 1].id)] else []
    case ResolveChildStart(n) => if n in h.asked then [Response(h.asked[n])] else []
    case Update(u, _) => [Request(tag, Some(u))]
    case Ignored => []
    case _ => [Request(tag, None)]
  }

  function NoteJobs(h: History, jobs: seq<Job>): History
  {
    if jobs == [] then h else NoteJob(NoteJobs(h, jobs[..|jobs| - 1]), jobs[|jobs| - 1])
  }

  function TellsAll(h: History, jobs: seq<Job>): seq<Message>
  {
    if jobs == [] then []
    else
      var n := |jobs| - 1;
      TellsAll(h, jobs[..n]) + Tells(NoteJobs(h, jobs[..n]), jobs[n], n)
  }

  /** A whole activation tells sdk-php exactly what the history says, whatever happened to the run before. */
  lemma ActivationTells(events: seq<Event>, jobs: seq<Job>)
    requires AllFresh(events)
    ensures var (r, h) := Life(events); Decode(r, jobs).1 == TellsAll(h, jobs)
  {
    hide Matches, Decode, TellsAll;
    LifeMatches(events);
    DecodeTells(Life(events).0, Life(events).1, jobs);
  }

  lemma {:induction false} DecodeTells(r: Run, h: History, jobs: seq<Job>)
    requires Matches(r, h)
    ensures Decode(r, jobs).1 == TellsAll(h, jobs) && Matches(Decode(r, jobs).0, NoteJobs(h, jobs))
  {
    hide Matches, DecodeJob, NoteJob, Tells;
    if jobs != [] {
      var n := |jobs| - 1;
      DecodeTells(r, h, jobs[..n]);
      JobTells(Decode(r, jobs[..n]).0, NoteJobs(h, jobs[..n]), jobs[n], n);
      JobKeeps(Decode(r, jobs[..n]).0, NoteJobs(h, jobs[..n]), jobs[n], n);
    }
  }

  lemma JobTells(r: Run, h: History, job: Job, tag: nat)
    requires Matches(r, h)
    ensures DecodeJob(r, job, tag).1 == Tells(h, job, tag)
  {
    match job {
      case FireTimer(n) => TakeKeeps(r, h, n);
      case ResolveActivity(n) => TakeKeeps(r, h, n);
      case ResolveChild(n) => TakeKeeps(r, h, n);
      case _ =>
    }
    hide TakeId;
  }

  /** The instance that last asked for the update, unless the run was reset since; an unknown update names itself. */
  function InstanceOf(events: seq<Event>, u: nat): nat
  {
    if events == [] then u
    else
      match events[|events| - 1]
      case Given(Initialize, _) => u
      case Given(RemoveFromCache, _) => u
      case Given(Update(v, instance), _) => if v == u then instance else InstanceOf(events[..|events| - 1], u)
      case _ => InstanceOf(events[..|events| - 1], u)
  }

  /** The cancellations for these ids: of each its outstanding number with the kind it was scheduled as. */
  function CancelsNumbers(h: History, ids: seq<nat>): seq<Order>
  {
    if ids == [] then []
    else
      var m := |ids| - 1;
      var n := NumberOf(h, ids[m], |h.issued|);
      CancelsNumbers(h, ids[..m]) + if 1 <= n <= |h.issued| then [RequestCancel(h.issued[n - 1].kind, n)] else []
  }

  /** What core is to be ordered by a command, from the run's life alone; responses to queries aside. */
  function OrdersFor(events: seq<Event>, c: Command): seq<Order>
  {
    match c
    case Schedule(_, kind) => [Start(kind, |Life(events).1.issued| + 1)]
    case Cancel(ids) => CancelsNumbers(Life(events).1, ids)
    case UpdateReply(u) => [AnswerUpdate(InstanceOf(events, u))]
    case Close => [CloseRun]
    case _ => []
  }

  /** Each translated command orders exactly what the history says. */
  lemma CommandOrders(events: seq<Event>, c: Command)
    requires AllFresh(events) && !c.Ack?
    ensures var (r, h) := Life(events);
      && (EncodeOne(r, c).None? <==> c == Untranslated)
      && (c != Untranslated ==> EncodeOne(r, c).value.1 == OrdersFor(events, c))
  {
    hide Matches, Cancels, CancelsNumbers, NextSeq;
    LifeMatches(events);
    var (r, h) := Life(events);
    MatchesCounts(r, h);
    UpdatesAre(events);
    if c.Cancel? {
      CancelsAre(r, h, c.ids);
    }
    hide Life;
  }

  lemma MatchesCounts(r: Run, h: History)
    requires Matches(r, h)
    ensures r.seqno == |h.issued|
  {
  }

  lemma {:induction false} UpdatesAre(events: seq<Event>)
    ensures var r := Life(events).0; forall u: nat :: (if u in r.updates then r.updates[u] else u) == InstanceOf(events, u)
  {
    hide TakeId, NextSeq;
    if events != [] {
      var front, e := events[..|events| - 1], events[|events| - 1];
      UpdatesAre(front);
      UpdatesStep(Life(front).0, e);
    }
  }

  /** Only an update's job and a reset change who asked for what. */
  lemma UpdatesStep(r: Run, e: Event)
    ensures e.Given? ==>
      DecodeJob(r, e.job, e.tag).0.updates ==
        if e.job.Initialize? || e.job.RemoveFromCache? then map[] else if e.job.Update? then r.updates[e.job.update := e.job.instance] else r.updates
    ensures e.Said? && EncodeOne(r, e.command).Some? ==> EncodeOne(r, e.command).value.0.updates == r.updates
  {
  }

  lemma {:induction false} CancelsAre(r: Run, h: History, ids: seq<nat>)
    requires Matches(r, h)
    ensures Cancels(r, ids) == CancelsNumbers(h, ids)
  {
    if ids != [] {
      CancelsAre(r, h, ids[..|ids| - 1]);
      NumberIs(r, h, ids[|ids| - 1], |h.issued|);
    }
  }

  /** A cancel names the number and kind its own request was scheduled with, and nothing once it has resolved. */
  lemma CancelNamesItsRequest(events: seq<Event>, id: nat)
    requires AllFresh(events)
    ensures var (r, h) := Life(events);
      && (forall n :: Outstanding(h, n) && h.issued[n - 1].id == id ==> CancelOf(r, id) == Some(RequestCancel(h.issued[n - 1].kind, n)))
      && ((forall n :: Outstanding(h, n) ==> h.issued[n - 1].id != id) ==> CancelOf(r, id) == None)
  {
    LifeMatches(events);
    hide Life;
  }

  /**
   With fresh ids: the start of a child answers the request that last asked about the number, that request
   asked about the id the number was scheduled under, and a second start answers nobody.
   */
  lemma ChildStartAnswersItsAsker(events: seq<Event>, n: nat, tag: nat)
    requires AllFresh(events)
    ensures var (r, h) := Life(events);
      var (t, out) := DecodeJob(r, ResolveChildStart(n), tag);
      && out == (if n in h.asked then [Response(h.asked[n])] else [])
      && (n in h.asked ==> 1 <= n <= |h.issued| && Said(GetChild(h.issued[n - 1].id, h.asked[n])) in events)
      && DecodeJob(t, ResolveChildStart(n), tag).1 == []
  {
    LifeMatches(events);
    Asked(events);
    hide Life;
  }

  /** Who is on record as having asked about a number did ask, about the id it was scheduled under. */
  ghost predicate AskedIn(h: History, events: seq<Event>)
  {
    forall n :: n in h.asked ==> 1 <= n <= |h.issued| && Said(GetChild(h.issued[n - 1].id, h.asked[n])) in events
  }

  lemma {:induction false} Asked(events: seq<Event>)
    ensures AskedIn(Life(events).1, events)
  {
    if events != [] {
      var front, e := events[..|events| - 1], events[|events| - 1];
      Asked(front);
      var (r, h) := Life(front);
      assert AskedIn(h, front);
      assert events == front + [e];
      assert forall x :: x in front ==> x in events;
      assert e in events;
      if e.Said? {
        AskedCommand(h, e.command);
      } else {
        AskedJob(h, e.job);
      }
    }
  }

  lemma AskedCommand(h: History, c: Command)
    requires forall n :: n in h.asked ==> 1 <= n <= |h.issued|
    ensures var g := NoteCommand(h, c);
      forall n :: n in g.asked ==>
        && 1 <= n <= |g.issued|
        && (c == GetChild(g.issued[n - 1].id, g.asked[n])
            || (n in h.asked && g.asked[n] == h.asked[n] && g.issued[n - 1] == h.issued[n - 1]))
  {
    if c.GetChild? {
      NumberFound(h, c.child, |h.issued|);
    }
    hide NumberOf;
  }

  lemma AskedJob(h: History, job: Job)
    ensures var g := NoteJob(h, job);
      forall n :: n in g.asked ==> n in h.asked && g.asked[n] == h.asked[n] && g.issued == h.issued
  {
  }

  lemma {:induction false} NumberFound(h: History, id: nat, n: nat)
    requires n <= |h.issued|
    ensures NumberOf(h, id, n) <= n
    ensures NumberOf(h, id, n) > 0 ==> h.issued[NumberOf(h, id, n) - 1].id == id
  {
    if n > 0 {
      NumberFound(h, id, n - 1);
    }
  }

  /** Numbers grow by one with each scheduling and never repeat within a run, even with ids used twice. */
  lemma {:induction false} NumbersCountUp(events: seq<Event>)
    ensures Life(events).0.seqno == |Life(events).1.issued|
  {
    if events != [] {
      NumbersCountUp(events[..|events| - 1]);
    }
  }

  // ---------------------------------------------------------------- queries

  function Acks(tags: seq<nat>): seq<Command>
  {
    seq(|tags|, k requires 0 <= k < |tags| => Ack(tags[k]))
  }

  function Answers(queries: seq<nat>, tags: seq<nat>): seq<Order>
  {
    seq(Min(|queries|, |tags|), k requires 0 <= k < Min(|queries|, |tags|) => AnswerQuery(queries[k], tags[k]))
  }

  /** One more response after n of them. */
  lemma NextAnswer(r: Run, tags: seq<nat>, n: nat)
    requires n < |tags|
    ensures var m := Min(|r.queries|, n);
      EncodeOne(r.(queries := r.queries[m..]), Ack(tags[n])) ==
      Some((r.(queries := r.queries[Min(|r.queries|, n + 1)..]), if n < |r.queries| then [AnswerQuery(r.queries[n], tags[n])] else []))
  {
    if n < |r.queries| {
      assert r.queries[n..][1..] == r.queries[n + 1..];
    }
  }

  lemma AnswersGrow(queries: seq<nat>, tags: seq<nat>, n: nat)
    requires n < |tags|
    ensures Answers(queries, tags[..n + 1]) == Answers(queries, tags[..n]) + if n < |queries| then [AnswerQuery(queries[n], tags[n])] else []
  {
  }

  /** Responses are matched to the queries waiting, first in first out. */
  lemma {:induction false} QueriesInOrder(r: Run, tags: seq<nat>)
    ensures Encode(r, Acks(tags)) == (r.(queries := r.queries[Min(|r.queries|, |tags|)..]), Some(Answers(r.queries, tags)))
  {
    hide EncodeOne, Answers;
    if tags == [] {
      assert r.queries[0..] == r.queries && Acks(tags) == [];
      NoAnswers(r.queries);
    } else {
      var n := |tags| - 1;
      assert Acks(tags)[..n] == Acks(tags[..n]) && Acks(tags)[n] == Ack(tags[n]);
      QueriesInOrder(r, tags[..n]);
      NextAnswer(r, tags, n);
      AnswersGrow(r.queries, tags, n);
      assert tags[..n + 1] == tags;
    }
  }

  lemma NoAnswers(queries: seq<nat>)
    ensures Answers(queries, []) == []
  {
  }

  // ---------------------------------------------------------------- which query gets which response

  /** sdk-php's replies to what an activation handed it, in order: an update answers under its own id. */
  function Replies(out: seq<Message>): seq<Command>
  {
    if out == [] then []
    else
      Replies(out[..|out| - 1]) +
      match out[|out| - 1]
      case Request(tag, None) => [Ack(tag)]
      case Request(_, Some(u)) => [UpdateReply(u)]
      case Response(_) => []
  }

  /** sdk-php acknowledges the job with a response that carries nothing but itself. */
  predicate Acked(job: Job)
  {
    job.Initialize? || job.Query? || job.Notify? || job.RemoveFromCache?
  }

  predicate Resets(job: Job)
  {
    job.Initialize? || job.RemoveFromCache?
  }

  /** No other acknowledged request stands before a query, and nothing resets the run behind one. */
  predicate Orderly(jobs: seq<Job>)
  {
    forall i, j :: 0 <= i < j < |jobs| ==>
      && (jobs[j].Query? && Acked(jobs[i]) ==> jobs[i].Query?)
      && (jobs[i].Query? ==> !Resets(jobs[j]))
  }

  /** What core should be sent: each query of the activation with the response to its own request. */
  function OwnAnswers(jobs: seq<Job>): seq<Order>
  {
    if jobs == [] then []
    else
      var n := |jobs| - 1;
      OwnAnswers(jobs[..n]) + if jobs[n].Query? then [AnswerQuery(jobs[n].query, n)] else []
  }

  function QueryAnswers(orders: seq<Order>): seq<Order>
  {
    if orders == [] then []
    else
      var n := |orders| - 1;
      QueryAnswers(orders[..n]) + if orders[n].AnswerQuery? then [orders[n]] else []
  }

  /** The queries an activation leaves waiting, and the tags of the requests it has acknowledged. */
  function Waiting(jobs: seq<Job>): seq<nat>
  {
    if jobs == [] then []
    else
      var n := |jobs| - 1;
      if Resets(jobs[n]) then [] else Waiting(jobs[..n]) + if jobs[n].Query? then [jobs[n].query] else []
  }

  function AckTags(jobs: seq<Job>): (tags: seq<nat>)
    ensures forall k :: 0 <= k < |tags| ==> tags[k] < |jobs|
  {
    if jobs == [] then []
    else
      var n := |jobs| - 1;
      AckTags(jobs[..n]) + if Acked(jobs[n]) then [n] else []
  }

  function TagsOf(cs: seq<Command>): seq<nat>
  {
    if cs == [] then []
    else
      var n := |cs| - 1;
      TagsOf(cs[..n]) + if cs[n].Ack? then [cs[n].tag] else []
  }

  predicate IsReply(c: Command)
  {
    c.Ack? || c.UpdateReply?
  }

  lemma {:induction false} RepliesSnoc(out: seq<Message>, more: seq<Message>)
    requires |more| <= 1
    ensures Replies(out + more) == Replies(out) + Replies(more)
    ensures forall c :: c in Replies(more) ==> IsReply(c)
  {
    if more == [] {
      assert out + more == out;
    } else {
      assert (out + more)[..|out|] == out && more[..0] == [];
    }
  }

  lemma {:induction false} TagsSnoc(cs: seq<Command>, more: seq<Command>)
    requires |more| <= 1
    ensures TagsOf(cs + more) == TagsOf(cs) + TagsOf(more)
  {
    if more == [] {
      assert cs + more == cs;
    } else {
      assert (cs + more)[..|cs|] == cs && more[..0] == [];
    }
  }

  /** One job of an activation: what waits after it, and what it is answered with. */
  lemma JobReplies(r: Run, job: Job, tag: nat)
    ensures var (t, out) := DecodeJob(r, job, tag);
      && t.queries == (if Resets(job) then [] else r.queries + if job.Query? then [job.query] else [])
      && |out| <= 1 && |Replies(out)| <= 1 && TagsOf(Replies(out)) == (if Acked(job) then [tag] else [])
  {
    hide TakeId, Replies, TagsOf;
    var out := DecodeJob(r, job, tag).1;
    assert r.queries + [] == r.queries;
    if job.FireTimer? || job.ResolveActivity? || job.ResolveChild? {
      TakeAsksNothing(r, job.seqno);
    }
    if |out| == 1 {
      OneReply(out[0]);
      assert out == [out[0]];
    } else {
      assert out == [];
      NoReply();
    }
  }

  lemma TakeAsksNothing(r: Run, n: nat)
    ensures TakeId(r, n).0.queries == r.queries
  {
  }

  lemma OneReply(m: Message)
    ensures Replies([m]) == match m case Request(tag, None) => [Ack(tag)] case Request(_, Some(u)) => [UpdateReply(u)] case Response(_) => []
    ensures TagsOf(Replies([m])) == if m.Request? && m.update.None? then [m.tag] else []
  {
    assert [m][..0] == [];
    if m.Request? {
      var c := if m.update.None? then Ack(m.tag) else UpdateReply(m.update.value);
      assert Replies([m]) == [c];
      assert [c][..0] == [];
    }
  }

  lemma NoReply()
    ensures Replies([]) == [] && TagsOf([]) == []
  {
  }

  lemma {:induction false} ActivationReplies(r: Run, jobs: seq<Job>)
    requires r.queries == []
    ensures var (t, out) := Decode(r, jobs);
      t.queries == Waiting(jobs) && TagsOf(Replies(out)) == AckTags(jobs) && forall c :: c in Replies(out) ==> IsReply(c)
  {
    hide DecodeJob;
    if jobs != [] {
      var n := |jobs| - 1;
      ActivationReplies(r, jobs[..n]);
      var (t, out) := Decode(r, jobs[..n]);
      var (u, more) := DecodeJob(t, jobs[n], n);
      JobReplies(t, jobs[n], n);
      RepliesSnoc(out, more);
      TagsSnoc(Replies(out), Replies(more));
    }
  }

  lemma {:induction false} QueryAnswersSnoc(orders: seq<Order>, more: seq<Order>)
    requires |more| <= 1
    ensures QueryAnswers(orders + more) == QueryAnswers(orders) + if more != [] && more[0].AnswerQuery? then more else []
  {
    if more == [] {
      assert orders + more == orders;
    } else {
      assert (orders + more)[..|orders|] == orders;
    }
  }

  /** Replies of both kinds: the responses among them are matched to the waiting queries, first in first out. */
  lemma {:induction false} RepliesAnswerInOrder(r: Run, cs: seq<Command>)
    requires forall c :: c in cs ==> IsReply(c)
    ensures var (t, out) := Encode(r, cs); var tags := TagsOf(cs);
      && out.Some? && t == r.(queries := r.queries[Min(|r.queries|, |tags|)..])
      && QueryAnswers(out.value) == Answers(r.queries, tags)
  {
    hide EncodeOne, Answers;
    if cs == [] {
      assert r.queries[0..] == r.queries;
      NoAnswers(r.queries);
    } else {
      var n := |cs| - 1;
      assert forall c :: c in cs[..n] ==> c in cs;
      RepliesAnswerInOrder(r, cs[..n]);
      var (t, out) := Encode(r, cs[..n]);
      assert cs[n] in cs;
      ReplyStep(r, TagsOf(cs[..n]), out.value, cs[n]);
    }
  }

  lemma ReplyStep(r: Run, tags: seq<nat>, orders: seq<Order>, c: Command)
    requires IsReply(c) && QueryAnswers(orders) == Answers(r.queries, tags)
    ensures var t := r.(queries := r.queries[Min(|r.queries|, |tags|)..]);
      var more := tags + if c.Ack? then [c.tag] else [];
      && EncodeOne(t, c).Some?
      && EncodeOne(t, c).value.0 == r.(queries := r.queries[Min(|r.queries|, |more|)..])
      && QueryAnswers(orders + EncodeOne(t, c).value.1) == Answers(r.queries, more)
  {
    hide Answers;
    var t := r.(queries := r.queries[Min(|r.queries|, |tags|)..]);
    assert tags + [] == tags && forall answers: seq<Order> :: answers + [] == answers;
    if c.Ack? {
      var more := tags + [c.tag];
      assert more[..|tags|] == tags && more[..|tags| + 1] == more;
      NextAnswer(r, more, |tags|);
      AnswersGrow(r.queries, more, |tags|);
    }
    QueryAnswersSnoc(orders, EncodeOne(t, c).value.1);
  }

  // ---------------------------------------------------------------- when each query gets its own

  lemma {:induction false} OwnIsQueries(jobs: seq<Job>)
    ensures |Waiting(jobs)| <= |OwnAnswers(jobs)| <= |AckTags(jobs)|
    ensures OwnAnswers(jobs) == [] <==> forall i :: 0 <= i < |jobs| ==> !jobs[i].Query?
    ensures |OwnAnswers(jobs)| == |AckTags(jobs)| <==> forall i :: 0 <= i < |jobs| && Acked(jobs[i]) ==> jobs[i].Query?
  {
    if jobs != [] {
      var n := |jobs| - 1;
      OwnIsQueries(jobs[..n]);
      assert forall i :: 0 <= i < n ==> jobs[..n][i] == jobs[i];
    }
  }

  lemma OrderlyGrows(jobs: seq<Job>)
    requires jobs != []
    ensures var n := |jobs| - 1;
      Orderly(jobs) <==>
        && Orderly(jobs[..n])
        && (jobs[n].Query? ==> |OwnAnswers(jobs[..n])| == |AckTags(jobs[..n])|)
        && (Resets(jobs[n]) ==> OwnAnswers(jobs[..n]) == [])
  {
    var n := |jobs| - 1;
    var front := jobs[..n];
    OwnIsQueries(front);
    hide OwnAnswers, AckTags, Acked, Resets;
    assert forall i :: 0 <= i < n ==> front[i] == jobs[i];
    if Orderly(jobs) {
      assert forall i :: 0 <= i < n && jobs[n].Query? && Acked(front[i]) ==> jobs[i].Query?;
      assert forall i :: 0 <= i < n && Resets(jobs[n]) ==> !jobs[i].Query?;
    }
  }

  /** The queries that wait, paired with the acknowledgements, are the own answers exactly in an orderly activation. */
  lemma {:induction false} PairedExactly(jobs: seq<Job>)
    ensures Answers(Waiting(jobs), AckTags(jobs)) == OwnAnswers(jobs) <==> Orderly(jobs)
  {
    if jobs == [] {
      NoAnswers([]);
    } else {
      var n := |jobs| - 1;
      var front, job := jobs[..n], jobs[n];
      PairedExactly(front);
      OrderlyGrows(jobs);
      OwnIsQueries(front);
      PairedStep(Waiting(front), AckTags(front), OwnAnswers(front), job, n);
      hide Answers, Orderly;
      assert Waiting(front) + [] == Waiting(front) && OwnAnswers(front) + [] == OwnAnswers(front);
      if Resets(job) {
        NothingWaits(AckTags(jobs));
        if OwnAnswers(front) == [] {
          assert Waiting(front) == [];
          NothingWaits(AckTags(front));
        }
      }
    }
  }

  lemma NothingWaits(tags: seq<nat>)
    ensures Answers([], tags) == []
  {
  }

  /** One more job that does not reset the run. */
  lemma PairedStep(waiting: seq<nat>, tags: seq<nat>, own: seq<Order>, job: Job, n: nat)
    requires |waiting| <= |own| <= |tags| && forall k :: 0 <= k < |tags| ==> tags[k] < n
    ensures !job.Query? ==> Answers(waiting, tags + if Acked(job) then [n] else []) == Answers(waiting, tags)
    ensures job.Query? ==>
      (Answers(waiting + [job.query], tags + [n]) == own + [AnswerQuery(job.query, n)]
       <==> Answers(waiting, tags) == own && |own| == |tags|)
  {
    if job.Query? {
      var more := Answers(waiting + [job.query], tags + [n]);
      assert more[..|waiting|] == Answers(waiting, tags);
      if more == own + [AnswerQuery(job.query, n)] {
        assert more[|waiting|] == AnswerQuery(job.query, n);
        assert (own + [AnswerQuery(job.query, n)])[..|own|] == own;
      }
    }
  }

  /**
   An activation on a run with no query waiting, answered in full and in order: no query is left waiting,
   and each query is answered with the response to its own request exactly if the activation is orderly.
   */
  lemma QueriesGetTheirOwnAnswer(r: Run, jobs: seq<Job>)
    requires r.queries == []
    ensures var (t, out) := Decode(r, jobs);
      var (u, orders) := Encode(t, Replies(out));
      && u.queries == [] && orders.Some?
      && (QueryAnswers(orders.value) == OwnAnswers(jobs) <==> Orderly(jobs))
  {
    ActivationReplies(r, jobs);
    var (t, out) := Decode(r, jobs);
    RepliesAnswerInOrder(t, Replies(out));
    OwnIsQueries(jobs);
    PairedExactly(jobs);
    hide Answers, Orderly, Decode, Encode;
  }

  /** A signal before a query: the query is answered with the acknowledgement of the signal. */
  lemma SignalAnswersTheQuery(r: Run, q: nat)
    requires r.queries == []
    ensures var (t, out) := Decode(r, [Notify, Query(q)]);
      && Replies(out) == [Ack(0), Ack(1)]
      && Encode(t, Replies(out)).1 == Some([AnswerQuery(q, 0)]) && OwnAnswers([Notify, Query(q)]) == [AnswerQuery(q, 1)]
  {
    hide Decode, Replies, Encode, OwnAnswers;
    DecodeTwo(r, Notify, Query(q));
    var out := [Request(0, None)] + [Request(1, None)];
    RepliesSnoc([Request(0, None)], [Request(1, None)]);
    OneReply(Request(0, None));
    OneReply(Request(1, None));
    assert [] + [q] == [q] && [q][1..] == [] && [Ack(0)] + [Ack(1)] == [Ack(0), Ack(1)];
    assert Decode(r, [Notify, Query(q)]) == (r.(queries := [q]), out);
    EncodeTwo(r.(queries := [q]), Ack(0), Ack(1));
    OwnOfTwo(Notify, Query(q));
    assert [AnswerQuery(q, 0)] + [] == [AnswerQuery(q, 0)];
  }

  lemma OwnOfTwo(a: Job, b: Job)
    requires !a.Query? && b.Query?
    ensures OwnAnswers([a, b]) == [AnswerQuery(b.query, 1)]
  {
    assert [a, b][..1] == [a] && [a][..0] == [];
    assert OwnAnswers([a]) == [];
  }

  lemma DecodeTwo(r: Run, a: Job, b: Job)
    ensures Decode(r, [a, b]) ==
      var (t, x) := DecodeJob(r, a, 0); var (u, y) := DecodeJob(t, b, 1); (u, x + y)
  {
    hide DecodeJob;
    assert [a, b][..1] == [a] && [a][..0] == [];
    var (t, x) := DecodeJob(r, a, 0);
    assert [] + x == x;
    assert Decode(r, [a]) == (t, x);
  }

  lemma EncodeTwo(r: Run, a: Command, b: Command)
    requires EncodeOne(r, a).Some? && EncodeOne(EncodeOne(r, a).value.0, b).Some?
    ensures Encode(r, [a, b]) ==
      var (t, x) := EncodeOne(r, a).value; var (u, y) := EncodeOne(t, b).value; (u, Some(x + y))
  {
    hide EncodeOne;
    assert [a, b][..1] == [a] && [a][..0] == [];
    var (t, x) := EncodeOne(r, a).value;
    assert [] + x == x;
    assert Encode(r, [a]) == (t, Some(x));
  }

  // ---------------------------------------------------------------- as the source writes it

  class Codec {
    var runs: map<nat, Run>

    constructor ()
      ensures runs == map[]
    {
      runs := map[];
    }

    function RunOf(runId: nat): Run
      reads this
    {
      if runId in runs then runs[runId] else EMPTY
    }

    ghost predicate OthersUnchanged(was: map<nat, Run>, runId: nat)
      reads this
    {
      forall other :: other != runId ==> (other in runs <==> other in was) && (other in was ==> runs[other] == was[other])
    }

    method NextNumber(runId: nat, id: nat, kind: Kind) returns (n: nat)
      modifies this
      ensures RunOf(runId) == NextSeq(old(RunOf(runId)), id, kind) && n == RunOf(runId).seqno
      ensures OthersUnchanged(old(runs), runId)
    {
      var r := RunOf(runId);
      n := r.seqno + 1;
      runs := runs[runId := r.(seqno := n, bySeq := r.bySeq[n := BySeq(id, kind)], byId := r.byId[id := ById(n, kind)])];
    }

    method Take(runId: nat, n: nat) returns (id: Option<nat>)
      modifies this
      ensures (RunOf(runId), id) == TakeId(old(RunOf(runId)), n) && OthersUnchanged(old(runs), runId)
    {
      var r := RunOf(runId);
      if n !in r.bySeq {
        return None;
      }
      id := Some(r.bySeq[n].id);
      runs := runs[runId := r.(bySeq := r.bySeq - {n}, byId := r.byId - {id.value})];
    }

    /** One job of an activation. */
    method DecodeOne(runId: nat, job: Job, tag: nat) returns (out: seq<Message>)
      modifies this
      ensures (RunOf(runId), out) == DecodeJob(old(RunOf(runId)), job, tag) && OthersUnchanged(old(runs), runId)
    {
      var r := RunOf(runId);
      match job {
        case Initialize =>
          runs := runs[runId := EMPTY];
          out := [Request(tag, None)];
        case FireTimer(n) =>
          var id := Take(runId, n);
          out := Told(id);
        case ResolveActivity(n) =>
          var id := Take(runId, n);
          out := Told(id);
        case ResolveChild(n) =>
          var id := Take(runId, n);
          out := Told(id);
        case ResolveChildStart(n) =>
          runs := runs[runId := r.(childStart := r.childStart - {n})];
          out := if n in r.childStart then [Response(r.childStart[n])] else [];
        case Query(q) =>
          runs := runs[runId := r.(queries := r.queries + [q])];
          out := [Request(tag, None)];
        case Update(u, instance) =>
          runs := runs[runId := r.(updates := r.updates[u := instance])];
          out := [Request(tag, Some(u))];
        case Notify => out := [Request(tag, None)];
        case RemoveFromCache =>
          runs := runs - {runId};
          out := [Request(tag, None)];
        case Ignored => out := [];
      }
    }

    method DecodeActivation(runId: nat, jobs: seq<Job>) returns (out: seq<Message>)
      modifies this
      ensures (RunOf(runId), out) == Decode(old(RunOf(runId)), jobs) && OthersUnchanged(old(runs), runId)
    {
      hide DecodeJob;
      out := [];
      for k := 0 to |jobs|
        invariant (RunOf(runId), out) == Decode(old(RunOf(runId)), jobs[..k]) && OthersUnchanged(old(runs), runId)
      {
        assert jobs[..k + 1][..k] == jobs[..k];
        var more := DecodeOne(runId, jobs[k], k);
        out := out + more;
      }
      assert jobs[..|jobs|] == jobs;
    }

    method CancelAll(runId: nat, ids: seq<nat>) returns (out: seq<Order>)
      ensures out == Cancels(RunOf(runId), ids)
    {
      out := [];
      for k := 0 to |ids|
        invariant out == Cancels(RunOf(runId), ids[..k])
      {
        assert ids[..k + 1][..k] == ids[..k];
        var order := CancelOf(RunOf(runId), ids[k]);
        if order.Some? {
          out := out + [order.value];
        }
      }
      assert ids[..|ids|] == ids;
    }

    method EncodeCommand(runId: nat, c: Command) returns (out: Option<seq<Order>>)
      modifies this
      ensures OthersUnchanged(old(runs), runId)
      ensures match EncodeOne(old(RunOf(runId)), c)
              case None => out == None && RunOf(runId) == old(RunOf(runId))
              case Some((r, orders)) => out == Some(orders) && RunOf(runId) == r
    {
      var r := RunOf(runId);
      match c {
        case Schedule(id, kind) =>
          var n := NextNumber(runId, id, kind);
          out := Some([Start(kind, n)]);
        case GetChild(child, id) =>
          if child in r.byId {
            runs := runs[runId := r.(childStart := r.childStart[r.byId[child].seqno := id])];
          }
          out := Some([]);
        case Cancel(ids) =>
          var orders := CancelAll(runId, ids);
          out := Some(orders);
        case Close => out := Some([CloseRun]);
        case UpdateReply(u) => out := Some([AnswerUpdate(if u in r.updates then r.updates[u] else u)]);
        case Ack(tag) =>
          if r.queries == [] {
            return Some([]);
          }
          runs := runs[runId := r.(queries := r.queries[1..])];
          out := Some([AnswerQuery(r.queries[0], tag)]);
        case Untranslated => out := None;
      }
    }

    /** The commands in order, up to the first that has no translation. */
    method EncodeCompletion(runId: nat, cs: seq<Command>) returns (out: Option<seq<Order>>)
      modifies this
      ensures (RunOf(runId), out) == Encode(old(RunOf(runId)), cs) && OthersUnchanged(old(runs), runId)
    {
      hide EncodeOne;
      var orders := [];
      for k := 0 to |cs|
        invariant Encode(old(RunOf(runId)), cs[..k]) == (RunOf(runId), Some(orders)) && OthersUnchanged(old(runs), runId)
      {
        assert cs[..k + 1][..k] == cs[..k];
        var more := EncodeCommand(runId, cs[k]);
        if more.None? {
          RefusedStays(old(RunOf(runId)), cs, k + 1);
          return None;
        }
        orders := orders + more.value;
      }
      assert cs[..|cs|] == cs;
      return Some(orders);
    }
  }

  lemma {:induction false} RefusedStays(r: Run, cs: seq<Command>, k: nat)
    requires k <= |cs| && Encode(r, cs[..k]).1 == None
    ensures Encode(r, cs) == Encode(r, cs[..k])
  {
    if k == |cs| {
      assert cs[..k] == cs;
    } else {
      assert cs[..|cs| - 1][..k] == cs[..k];
      RefusedStays(r, cs[..|cs| - 1], k);
    }
  }
}
