/**
 The reactor as an interleaving of its threads: one PHP thread, the dispatcher task, timer and watch tasks,
 threads that complete reserved ops, and the front door's deliveries and cancellations.  Each step is one
 access to something shared (an atomic, a channel, a locked map), sequentially consistent.
 */
module Reactor {
  import opened Prelude

  datatype Op = Yield | Timer | Custom | CancelWatch(target: nat)      // Yield is a sleep of 0 us

  /** What a completion announces: an op's outcome, a request's arrival, or that its client has gone. */
  datatype Token = OpDone(op: nat) | Request(id: nat) | Cancelled(id: nat)

  datatype TaskPc = AtAwait | Woke | Removed | Won | Ended | Stopped

  datatype Task = Task(pc: TaskPc, completed: bool, aborted: bool)

  datatype Dispatcher =
    | Waiting
    | Got(id: nat)
    | Inserting(id: nat)                     // the task runs already; its entry is not in the map yet
    | Took(id: nat, target: nat)
    | Aborted(id: nat, target: nat)
    | Claimed(id: nat, target: nat)
    | Replying(id: nat)

  datatype Php = InPhp | Counting(id: nat) | Sending(id: nat) | Polling

  datatype Door = Allocated | Inserted | Counted | Delivered

  datatype Cancel = Taken | Announcing | Done

  datatype State = State(
    nextId: nat,
    inflight: nat,
    kinds: map<nat, Op>,
    queue: seq<nat>,                         // to_tokio
    channel: seq<Token>,                     // from_tokio
    out: seq<Token>,                         // drained by the current poll, not subtracted yet
    consumed: seq<Token>,                    // returned by the polls so far
    php: Php,
    disp: Dispatcher,
    entries: set<nat>,                       // keys of cancellable_tasks_by_op
    tasks: map<nat, Task>,
    customs: set<nat>,
    reserving: set<nat>,
    reserved: set<nat>,
    doors: map<nat, Door>,
    answers: set<nat>,
    cancels: map<nat, Cancel>,
    issued: set<Token>                       // every token ever counted into inflight
  )

  function Initial(): State
  {
    State(1, 0, map[], [], [], [], [], InPhp, Waiting, {}, map[], {}, {}, {}, map[], {}, map[], {})
  }

  datatype Step =
    | SubmitAlloc(op: Op) | SubmitCount | SubmitSend
    | PollEnter | PollRecv | PollReturn
    | ReserveAlloc | ReserveCount(id: nat) | Complete(id: nat)
    | DoorAlloc | DoorInsert(id: nat) | DoorCount(id: nat) | DoorSend(id: nat)
    | Answer(id: nat) | CancelTake(id: nat) | CancelCount(id: nat) | CancelSend(id: nat)
    | Recv | Handle | Insert | Abort | Claim | SendTarget | Reply
    | Wake(id: nat) | Remove(id: nat) | Swap(id: nat) | Send(id: nat) | Stop(id: nat) | CustomDone(id: nat)

  predicate TaskAt(s: State, k: nat, pc: TaskPc)
  {
    k in s.tasks && s.tasks[k].pc == pc
  }

  predicate DoorAt(s: State, id: nat, at: Door)
  {
    id in s.doors && s.doors[id] == at
  }

  predicate CancelAt(s: State, id: nat, at: Cancel)
  {
    id in s.cancels && s.cancels[id] == at
  }

  predicate Enabled(s: State, step: Step)
  {
    match step
    case SubmitAlloc(_) => s.php.InPhp?
    case SubmitCount => s.php.Counting?
    case SubmitSend => s.php.Sending?
    case PollEnter => s.php.InPhp?
    case PollRecv => s.php.Polling? && s.channel != []
    case PollReturn => s.php.Polling?
    case ReserveAlloc => true
    case ReserveCount(id) => id in s.reserving
    case Complete(id) => id in s.reserved
    case DoorAlloc => true
    case DoorInsert(id) => DoorAt(s, id, Allocated)
    case DoorCount(id) => DoorAt(s, id, Inserted)
    case DoorSend(id) => DoorAt(s, id, Counted)
    case Answer(id) => DoorAt(s, id, Delivered)
    case CancelTake(id) => DoorAt(s, id, Delivered)
    case CancelCount(id) => CancelAt(s, id, Taken)
    case CancelSend(id) => CancelAt(s, id, Announcing)
    case Recv => s.disp.Waiting? && s.queue != []
    case Handle => s.disp.Got? && s.disp.id in s.kinds
    case Insert => s.disp.Inserting?
    case Abort => s.disp.Took? && s.disp.target in s.tasks
    case Claim => s.disp.Aborted? && s.disp.target in s.tasks
    case SendTarget => s.disp.Claimed?
    case Reply => s.disp.Replying?
    case Wake(id) => TaskAt(s, id, AtAwait)
    case Remove(id) => TaskAt(s, id, Woke)
    case Swap(id) => TaskAt(s, id, Removed)
    case Send(id) => TaskAt(s, id, Won)
    case Stop(id) => TaskAt(s, id, AtAwait) && s.tasks[id].aborted
    case CustomDone(id) => id in s.customs
  }

  function Announce(s: State, t: Token): State
  {
    s.(channel := s.channel + [t])
  }

  function Count(s: State, t: Token): State
  {
    s.(inflight := s.inflight + 1, issued := s.issued + {t})
  }

  function SetTask(s: State, k: nat, task: Task): State
  {
    s.(tasks := s.tasks[k := task])
  }

  /** The dispatcher's `match op`. */
  function HandleOp(s: State): State
    requires Enabled(s, Handle)
  {
    var id := s.disp.id;
    match s.kinds[id]
    case Yield => Announce(s, OpDone(id)).(disp := Waiting)
    case Timer => SetTask(s, id, Task(AtAwait, false, false)).(disp := Inserting(id))
    case Custom => s.(customs := s.customs + {id}, disp := Waiting)
    case CancelWatch(target) =>
      if target in s.entries then s.(entries := s.entries - {target}, disp := Took(id, target)) else s.(disp := Replying(id))
  }

  /** Whoever finds the flag unset sets it and announces the op; the other stays quiet. */
  function ClaimTarget(s: State): State
    requires Enabled(s, Claim)
  {
    var d := s.disp;
    if s.tasks[d.target].completed then s.(disp := Replying(d.id))
    else SetTask(s, d.target, s.tasks[d.target].(completed := true)).(disp := Claimed(d.id, d.target))
  }

  function SwapTask(s: State, k: nat): State
    requires k in s.tasks
  {
    if s.tasks[k].completed then SetTask(s, k, s.tasks[k].(pc := Ended))
    else SetTask(s, k, s.tasks[k].(pc := Won, completed := true))
  }

  function SaturatingSub(a: nat, b: nat): nat
  {
    if b <= a then a - b else 0
  }

  function Next(s: State, step: Step): State
    requires Enabled(s, step)
  {
    match step
    case SubmitAlloc(op) => s.(nextId := s.nextId + 1, kinds := s.kinds[s.nextId := op], php := Counting(s.nextId))
    case SubmitCount => Count(s, OpDone(s.php.id)).(php := Sending(s.php.id))
    case SubmitSend => s.(queue := s.queue + [s.php.id], php := InPhp)
    case PollEnter => s.(php := Polling)
    case PollRecv => s.(out := s.out + [s.channel[0]], channel := s.channel[1..])
    case PollReturn =>
      s.(inflight := SaturatingSub(s.inflight, |s.out|), consumed := s.consumed + s.out, out := [], php := InPhp)
    case ReserveAlloc => s.(nextId := s.nextId + 1, reserving := s.reserving + {s.nextId})
    case ReserveCount(id) => Count(s, OpDone(id)).(reserving := s.reserving - {id}, reserved := s.reserved + {id})
    case Complete(id) => Announce(s, OpDone(id)).(reserved := s.reserved - {id})
    case DoorAlloc => s.(nextId := s.nextId + 1, doors := s.doors[s.nextId := Allocated])
    case DoorInsert(id) => s.(answers := s.answers + {id}, doors := s.doors[id := Inserted])
    case DoorCount(id) => Count(s, Request(id)).(doors := s.doors[id := Counted])
    case DoorSend(id) => Announce(s, Request(id)).(doors := s.doors[id := Delivered])
    case Answer(id) => s.(answers := s.answers - {id})
    case CancelTake(id) => if id in s.answers then s.(answers := s.answers - {id}, cancels := s.cancels[id := Taken]) else s
    case CancelCount(id) => Count(s, Cancelled(id)).(cancels := s.cancels[id := Announcing])
    case CancelSend(id) => Announce(s, Cancelled(id)).(cancels := s.cancels[id := Done])
    case Recv => s.(queue := s.queue[1..], disp := Got(s.queue[0]))
    case Handle => HandleOp(s)
    case Insert => s.(entries := s.entries + {s.disp.id}, disp := Waiting)
    case Abort => SetTask(s, s.disp.target, s.tasks[s.disp.target].(aborted := true)).(disp := Aborted(s.disp.id, s.disp.target))
    case Claim => ClaimTarget(s)
    case SendTarget => Announce(s, OpDone(s.disp.target)).(disp := Replying(s.disp.id))
    case Reply => Announce(s, OpDone(s.disp.id)).(disp := Waiting)
    case Wake(id) => SetTask(s, id, s.tasks[id].(pc := Woke))
    case Remove(id) => SetTask(s, id, s.tasks[id].(pc := Removed)).(entries := s.entries - {id})
    case Swap(id) => SwapTask(s, id)
    case Send(id) => SetTask(Announce(s, OpDone(id)), id, s.tasks[id].(pc := Ended))
    case Stop(id) => SetTask(s, id, s.tasks[id].(pc := Stopped))
    case CustomDone(id) => Announce(s, OpDone(id)).(customs := s.customs - {id})
  }

  /** The state after a schedule; a step that is not enabled when its turn comes does nothing. */
  function Run(steps: seq<Step>): State
  {
    if steps == [] then Initial()
    else
      var t, last := Run(steps[..|steps| - 1]), steps[|steps| - 1];
      if Enabled(t, last) then Next(t, last) else t
  }

  // ---------------------------------------------------------------- one token for one count

  function Flag(b: bool): nat
  {
    if b then 1 else 0
  }

  /** Everything announced so far, in the order it was. */
  function Sent(s: State): seq<Token>
  {
    s.consumed + s.out + s.channel
  }

  /** How often this has been announced. */
  function Announced(s: State, t: Token): nat
  {
    multiset(Sent(s))[t]
  }

  function Queued(queue: seq<nat>, k: nat): nat
  {
    multiset(queue)[k]
  }

  /** The dispatcher still owes this op its own answer. */
  predicate Answers(d: Dispatcher, k: nat)
  {
    match d
    case Waiting => false
    case Inserting(_) => false
    case Got(id) => id == k
    case Took(id, _) => id == k
    case Aborted(id, _) => id == k
    case Claimed(id, _) => id == k
    case Replying(id) => id == k
  }

  /** The task, or a canceller about to take its flag, still owes the announcement. */
  predicate TaskOwes(s: State, k: nat)
  {
    k in s.tasks && (s.tasks[k].pc == Won || !s.tasks[k].completed)
  }

  /** How many places in the system will still announce op k. */
  function Holders(s: State, k: nat): nat
  {
    Flag(s.php == Sending(k)) + Queued(s.queue, k) + Flag(Answers(s.disp, k)) + Flag(TaskOwes(s, k))
    + Flag(s.disp.Claimed? && s.disp.target == k) + Flag(k in s.customs) + Flag(k in s.reserved)
  }

  /** Each counted op is owed by one holder or announced once, never both. */
  predicate OpLine(s: State, k: nat)
  {
    Holders(s, k) + Announced(s, OpDone(k)) == Flag(OpDone(k) in s.issued)
  }

  predicate RequestLine(s: State, id: nat)
  {
    Flag(DoorAt(s, id, Counted)) + Announced(s, Request(id)) == Flag(Request(id) in s.issued)
  }

  predicate CancelLine(s: State, id: nat)
  {
    Flag(CancelAt(s, id, Announcing)) + Announced(s, Cancelled(id)) == Flag(Cancelled(id) in s.issued)
  }

  /**
   The claim flag and the abort: only a canceller about to swap leaves an aborted task unclaimed, and a task that
   has lost its flag before it ran its course has been aborted.
   */
  predicate TaskOk(s: State, k: nat)
  {
    k in s.tasks ==>
      var t := s.tasks[k];
      && (t.pc == Won || t.pc == Ended ==> t.completed)
      && (t.pc == Stopped ==> t.aborted)
      && (t.aborted && !t.completed ==> s.disp.Aborted? && s.disp.target == k)
      && (t.completed && t.pc != Won && t.pc != Ended ==> t.aborted)
  }

  ghost predicate EntriesOk(s: State)
  {
    && (forall k :: k in s.entries ==> k in s.tasks)
    && (s.disp.Inserting? ==> s.disp.id in s.tasks)
    && (s.disp.Took? || s.disp.Aborted? ==> s.disp.target in s.tasks)
    && (s.disp.Aborted? ==> s.tasks[s.disp.target].aborted)
  }

  /** Ids are handed out once; an op not counted yet is in the hands of the one thread that will count it. */
  ghost predicate OpsFresh(s: State)
  {
    && (forall k: nat :: OpDone(k) in s.issued ==> k < s.nextId)
    && (s.php.Counting? ==> s.php.id < s.nextId && OpDone(s.php.id) !in s.issued && s.php.id !in s.reserving)
    && (forall k :: k in s.reserving ==> k < s.nextId && OpDone(k) !in s.issued)
  }

  ghost predicate DoorsFresh(s: State)
  {
    && (forall id :: id in s.doors ==> id < s.nextId)
    && (forall id: nat :: Request(id) in s.issued <==> DoorAt(s, id, Counted) || DoorAt(s, id, Delivered))
    && (forall id :: id in s.answers ==> id in s.doors)
  }

  /** A cancellation exists only for a delivered request whose answer it removed. */
  ghost predicate CancelOk(s: State)
  {
    && (forall id :: id in s.cancels ==> DoorAt(s, id, Delivered) && id !in s.answers)
    && (forall id: nat :: Cancelled(id) in s.issued <==> CancelAt(s, id, Announcing) || CancelAt(s, id, Done))
  }

  ghost predicate Lines(s: State)
  {
    && (forall k: nat :: OpLine(s, k))
    && (forall id: nat :: RequestLine(s, id))
    && (forall id: nat :: CancelLine(s, id))
  }

  /** inflight is what has been counted and not yet handed to PHP. */
  predicate Counts(s: State)
  {
    s.inflight + |s.consumed| == |s.issued|
  }

  ghost predicate Inv(s: State)
  {
    Lines(s) && (forall k: nat :: TaskOk(s, k)) && EntriesOk(s) && OpsFresh(s) && DoorsFresh(s) && CancelOk(s) && Counts(s)
  }

  // ---------------------------------------------------------------- what one step does to the history

  lemma AnnounceOne(s: State, t: State, told: Token, u: Token)
    requires t.consumed == s.consumed && t.out == s.out && t.channel == s.channel + [told]
    ensures Sent(t) == Sent(s) + [told]
    ensures Announced(t, u) == Announced(s, u) + Flag(told == u)
  {
    assert Sent(t) == Sent(s) + [told];
  }

  lemma AnnounceNone(s: State, t: State, u: Token)
    requires t.consumed + t.out + t.channel == s.consumed + s.out + s.channel
    ensures Announced(t, u) == Announced(s, u)
  {
  }

  lemma PollMoves(s: State)
    ensures s.channel != [] ==> s.consumed + (s.out + [s.channel[0]]) + s.channel[1..] == s.consumed + s.out + s.channel
    ensures s.consumed + s.out + [] + s.channel == s.consumed + s.out + s.channel
  {
    if s.channel != [] {
      assert s.channel == [s.channel[0]] + s.channel[1..];
    }
  }

  lemma QueueCounts(queue: seq<nat>, id: nat, k: nat)
    ensures Queued(queue + [id], k) == Queued(queue, k) + Flag(id == k)
    ensures queue != [] ==> Queued(queue, k) == Flag(queue[0] == k) + Queued(queue[1..], k)
  {
    if queue != [] {
      assert queue == [queue[0]] + queue[1..];
    }
  }

  // ---------------------------------------------------------------- ops: one line per op, step by step

  lemma SubmitCountOp(s: State, k: nat)
    requires Enabled(s, SubmitCount) && OpLine(s, k) && OpsFresh(s)
    ensures OpLine(Next(s, SubmitCount), k)
  {
    hide Announced, Queued, Sent;
    AnnounceNone(s, Next(s, SubmitCount), OpDone(k));
  }

  lemma SubmitSendOp(s: State, k: nat)
    requires Enabled(s, SubmitSend) && OpLine(s, k)
    ensures OpLine(Next(s, SubmitSend), k)
  {
    hide Announced, Queued, Sent;
    QueueCounts(s.queue, s.php.id, k);
    AnnounceNone(s, Next(s, SubmitSend), OpDone(k));
  }

  lemma PollRecvOp(s: State, k: nat)
    requires Enabled(s, PollRecv) && OpLine(s, k)
    ensures OpLine(Next(s, PollRecv), k)
  {
    hide Announced, Queued, Sent;
    PollMoves(s);
    AnnounceNone(s, Next(s, PollRecv), OpDone(k));
  }

  lemma PollReturnOp(s: State, k: nat)
    requires Enabled(s, PollReturn) && OpLine(s, k)
    ensures OpLine(Next(s, PollReturn), k)
  {
    hide Announced, Queued, Sent;
    PollMoves(s);
    AnnounceNone(s, Next(s, PollReturn), OpDone(k));
  }

  lemma ReserveCountOp(s: State, id: nat, k: nat)
    requires Enabled(s, ReserveCount(id)) && OpLine(s, k) && OpsFresh(s)
    ensures OpLine(Next(s, ReserveCount(id)), k)
  {
    hide Announced, Queued, Sent;
    AnnounceNone(s, Next(s, ReserveCount(id)), OpDone(k));
  }

  lemma CompleteOp(s: State, id: nat, k: nat)
    requires Enabled(s, Complete(id)) && OpLine(s, k)
    ensures OpLine(Next(s, Complete(id)), k)
  {
    hide Announced, Queued, Sent;
    AnnounceOne(s, Next(s, Complete(id)), OpDone(id), OpDone(k));
  }

  lemma RecvOp(s: State, k: nat)
    requires Enabled(s, Recv) && OpLine(s, k)
    ensures OpLine(Next(s, Recv), k)
  {
    hide Announced, Queued, Sent;
    QueueCounts(s.queue, 0, k);
    AnnounceNone(s, Next(s, Recv), OpDone(k));
  }

  lemma YieldOp(s: State, k: nat)
    requires Enabled(s, Handle) && s.kinds[s.disp.id].Yield? && OpLine(s, k)
    ensures OpLine(Next(s, Handle), k)
  {
    hide Announced, Queued, Sent;
    AnnounceOne(s, Next(s, Handle), OpDone(s.disp.id), OpDone(k));
  }

  lemma TimerOp(s: State, k: nat)
    requires Enabled(s, Handle) && s.kinds[s.disp.id].Timer? && OpLine(s, k)
    ensures OpLine(Next(s, Handle), k)
  {
    hide Announced, Queued, Sent;
    AnnounceNone(s, Next(s, Handle), OpDone(k));
  }

  lemma HandleStepOp(s: State, k: nat)
    requires Enabled(s, Handle) && OpLine(s, k)
    ensures OpLine(Next(s, Handle), k)
  {
    hide Announced, Queued, Sent, OpLine, TaskOwes;
    match s.kinds[s.disp.id] {
      case Yield => YieldOp(s, k);
      case Timer => TimerOp(s, k);
      case Custom => CustomOp(s, k);
      case CancelWatch(_) => CancelWatchOp(s, k);
    }
  }

  lemma CustomOp(s: State, k: nat)
    requires Enabled(s, Handle) && s.kinds[s.disp.id].Custom? && OpLine(s, k)
    ensures OpLine(Next(s, Handle), k)
  {
    hide Announced, Queued, Sent, TaskOwes;
    SameTaskOwes(s, Next(s, Handle), k);
    AnnounceNone(s, Next(s, Handle), OpDone(k));
  }

  lemma CancelWatchOp(s: State, k: nat)
    requires Enabled(s, Handle) && s.kinds[s.disp.id].CancelWatch? && OpLine(s, k)
    ensures OpLine(Next(s, Handle), k)
  {
    hide Announced, Queued, Sent, TaskOwes;
    SameTaskOwes(s, Next(s, Handle), k);
    AnnounceNone(s, Next(s, Handle), OpDone(k));
  }

  lemma SameTaskOwes(s: State, t: State, k: nat)
    requires s.tasks == t.tasks
    ensures TaskOwes(s, k) == TaskOwes(t, k)
  {
  }

  lemma AbortOp(s: State, k: nat)
    requires Enabled(s, Abort) && OpLine(s, k)
    ensures OpLine(Next(s, Abort), k)
  {
    hide Announced, Queued, Sent;
    AnnounceNone(s, Next(s, Abort), OpDone(k));
  }

  /** The swap changes one task: it has its flag, and has won if nobody had taken that before. */
  lemma SwapIs(s: State, id: nat)
    requires TaskAt(s, id, Removed)
    ensures var t := SwapTask(s, id);
      && t == s.(tasks := t.tasks) && t.tasks.Keys == s.tasks.Keys && (forall k :: k in s.tasks && k != id ==> t.tasks[k] == s.tasks[k])
      && t.tasks[id] == Task(if s.tasks[id].completed then Ended else Won, true, s.tasks[id].aborted)
  {
  }

  /** The canceller's swap changes at most its target's flag, and goes on to announce it or to its own answer. */
  lemma ClaimIs(s: State)
    requires Enabled(s, Claim)
    ensures var t, d := ClaimTarget(s), s.disp;
      && t == s.(tasks := t.tasks, disp := t.disp) && t.tasks == s.tasks[d.target := s.tasks[d.target].(completed := true)]
      && t.disp == if s.tasks[d.target].completed then Replying(d.id) else Claimed(d.id, d.target)
  {
    if s.tasks[s.disp.target].completed {
      assert s.tasks[s.disp.target := s.tasks[s.disp.target]] == s.tasks;
    }
  }

  lemma ClaimOp(s: State, k: nat)
    requires Enabled(s, Claim) && OpLine(s, k) && TaskOk(s, s.disp.target)
    ensures OpLine(Next(s, Claim), k)
  {
    hide Announced, Queued, Sent, ClaimTarget;
    ClaimIs(s);
    AnnounceNone(s, Next(s, Claim), OpDone(k));
  }

  lemma SendTargetOp(s: State, k: nat)
    requires Enabled(s, SendTarget) && OpLine(s, k)
    ensures OpLine(Next(s, SendTarget), k)
  {
    hide Announced, Queued, Sent;
    AnnounceOne(s, Next(s, SendTarget), OpDone(s.disp.target), OpDone(k));
  }

  lemma ReplyOp(s: State, k: nat)
    requires Enabled(s, Reply) && OpLine(s, k)
    ensures OpLine(Next(s, Reply), k)
  {
    hide Announced, Queued, Sent;
    AnnounceOne(s, Next(s, Reply), OpDone(s.disp.id), OpDone(k));
  }

  lemma SwapOp(s: State, id: nat, k: nat)
    requires Enabled(s, Swap(id)) && OpLine(s, k)
    ensures OpLine(Next(s, Swap(id)), k)
  {
    hide Announced, Queued, Sent, SwapTask;
    SwapIs(s, id);
    AnnounceNone(s, Next(s, Swap(id)), OpDone(k));
  }

  lemma SendOp(s: State, id: nat, k: nat)
    requires Enabled(s, Send(id)) && OpLine(s, k) && TaskOk(s, id)
    ensures OpLine(Next(s, Send(id)), k)
  {
    hide Announced, Queued, Sent;
    AnnounceOne(s, Next(s, Send(id)), OpDone(id), OpDone(k));
  }

  lemma StopOp(s: State, id: nat, k: nat)
    requires Enabled(s, Stop(id)) && OpLine(s, k)
    ensures OpLine(Next(s, Stop(id)), k)
  {
    hide Announced, Queued, Sent;
    AnnounceNone(s, Next(s, Stop(id)), OpDone(k));
  }

  lemma WakeOp(s: State, id: nat, k: nat)
    requires Enabled(s, Wake(id)) && OpLine(s, k)
    ensures OpLine(Next(s, Wake(id)), k)
  {
    hide Announced, Queued, Sent;
    AnnounceNone(s, Next(s, Wake(id)), OpDone(k));
  }

  lemma RemoveOp(s: State, id: nat, k: nat)
    requires Enabled(s, Remove(id)) && OpLine(s, k)
    ensures OpLine(Next(s, Remove(id)), k)
  {
    hide Announced, Queued, Sent;
    AnnounceNone(s, Next(s, Remove(id)), OpDone(k));
  }

  lemma CustomDoneOp(s: State, id: nat, k: nat)
    requires Enabled(s, CustomDone(id)) && OpLine(s, k)
    ensures OpLine(Next(s, CustomDone(id)), k)
  {
    hide Announced, Queued, Sent;
    AnnounceOne(s, Next(s, CustomDone(id)), OpDone(id), OpDone(k));
  }

  predicate Aside(step: Step)
  {
    || step.SubmitAlloc? || step.PollEnter? || step.ReserveAlloc? || step.DoorAlloc? || step.DoorInsert? || step.DoorCount?
    || step.DoorSend? || step.Answer? || step.CancelTake? || step.CancelCount? || step.CancelSend? || step.Insert?
  }

  lemma AsideOp(s: State, step: Step, k: nat)
    requires Enabled(s, step) && OpLine(s, k) && Aside(step)
    ensures OpLine(Next(s, step), k)
  {
    hide Announced, Queued, Sent, HandleOp, ClaimTarget, SwapTask, SetTask;
    if step.DoorSend? {
      AnnounceOne(s, Next(s, step), Request(step.id), OpDone(k));
    } else if step.CancelSend? {
      AnnounceOne(s, Next(s, step), Cancelled(step.id), OpDone(k));
    } else {
      AnnounceNone(s, Next(s, step), OpDone(k));
    }
  }

  lemma StepKeepsOp(s: State, step: Step, k: nat)
    requires Enabled(s, step) && OpLine(s, k) && (forall j: nat :: TaskOk(s, j)) && OpsFresh(s)
    ensures OpLine(Next(s, step), k)
  {
    hide Next, OpLine, TaskOk, OpsFresh;
    match step {
      case SubmitCount => SubmitCountOp(s, k);
      case SubmitSend => SubmitSendOp(s, k);
      case PollRecv => PollRecvOp(s, k);
      case PollReturn => PollReturnOp(s, k);
      case ReserveCount(id) => ReserveCountOp(s, id, k);
      case Complete(id) => CompleteOp(s, id, k);
      case Recv => RecvOp(s, k);
      case Handle => HandleStepOp(s, k);
      case Abort => AbortOp(s, k);
      case Claim => ClaimOp(s, k);
      case SendTarget => SendTargetOp(s, k);
      case Reply => ReplyOp(s, k);
      case Swap(id) => SwapOp(s, id, k);
      case Send(id) => SendOp(s, id, k);
      case Stop(id) => StopOp(s, id, k);
      case Wake(id) => WakeOp(s, id, k);
      case Remove(id) => RemoveOp(s, id, k);
      case CustomDone(id) => CustomDoneOp(s, id, k);
      case _ => AsideOp(s, step, k);
    }
  }

  // ---------------------------------------------------------------- the rest of the invariant

  predicate OfDispatcher(step: Step)
  {
    step.Recv? || step.Handle? || step.Insert? || step.Abort? || step.Claim? || step.SendTarget? || step.Reply?
  }

  predicate OfTask(step: Step)
  {
    step.Wake? || step.Remove? || step.Swap? || step.Send? || step.Stop?
  }

  predicate OfTasks(step: Step)
  {
    OfDispatcher(step) || OfTask(step)
  }

  predicate SameIds(s: State, t: State)
  {
    && t.issued == s.issued && t.nextId == s.nextId && t.php == s.php && t.reserving == s.reserving
    && t.doors == s.doors && t.cancels == s.cancels && t.answers == s.answers && t.inflight == s.inflight
  }

  lemma OutsideTasks(s: State, step: Step)
    requires Enabled(s, step) && !OfTasks(step)
    ensures var t := Next(s, step); t.tasks == s.tasks && t.disp == s.disp && t.entries == s.entries
  {
  }

  lemma HandleSameIds(s: State)
    requires Enabled(s, Handle)
    ensures SameIds(s, Next(s, Handle))
  {
  }

  lemma DispatcherSameIds(s: State, step: Step)
    requires Enabled(s, step) && OfDispatcher(step)
    ensures SameIds(s, Next(s, step))
  {
    hide HandleOp, SameIds;
    match step {
      case Recv => SameIdsAre(s, Next(s, step));
      case Handle => HandleSameIds(s);
      case Insert => SameIdsAre(s, Next(s, step));
      case Abort => SameIdsAre(s, Next(s, step));
      case Claim => SameIdsAre(s, Next(s, step));
      case SendTarget => SameIdsAre(s, Next(s, step));
      case Reply => SameIdsAre(s, Next(s, step));
    }
  }

  lemma SameIdsAre(s: State, t: State)
    requires t.issued == s.issued && t.nextId == s.nextId && t.php == s.php && t.reserving == s.reserving
    requires t.doors == s.doors && t.cancels == s.cancels && t.answers == s.answers && t.inflight == s.inflight
    ensures SameIds(s, t)
  {
  }

  lemma TaskSameIds(s: State, step: Step)
    requires Enabled(s, step) && OfTask(step)
    ensures SameIds(s, Next(s, step))
  {
    hide HandleOp, ClaimTarget, SwapTask;
    if step.Swap? {
      SwapIs(s, step.id);
    }
  }

  lemma HandleKeepsTasks(s: State, k: nat)
    requires Enabled(s, Handle) && EntriesOk(s)
    ensures EntriesOk(Next(s, Handle))
    ensures TaskOk(s, k) ==> TaskOk(Next(s, Handle), k)
  {
  }

  lemma DispatcherKeepsEntries(s: State, step: Step)
    requires Enabled(s, step) && OfDispatcher(step) && !step.Handle? && EntriesOk(s)
    ensures EntriesOk(Next(s, step))
  {
  }

  lemma DispatcherKeepsTask(s: State, step: Step, k: nat)
    requires Enabled(s, step) && OfDispatcher(step) && !step.Handle? && EntriesOk(s) && TaskOk(s, k)
    ensures TaskOk(Next(s, step), k)
  {
  }

  lemma TaskKeepsEntries(s: State, step: Step)
    requires Enabled(s, step) && OfTask(step) && EntriesOk(s)
    ensures EntriesOk(Next(s, step))
  {
    hide HandleOp, ClaimTarget, SwapTask;
    if step.Swap? {
      SwapIs(s, step.id);
    }
  }

  lemma TaskKeepsTask(s: State, step: Step, k: nat)
    requires Enabled(s, step) && OfTask(step) && EntriesOk(s) && TaskOk(s, k)
    ensures TaskOk(Next(s, step), k)
  {
    hide HandleOp, ClaimTarget, SwapTask, EntriesOk;
    if step.Swap? {
      SwapIs(s, step.id);
    }
  }

  lemma StepKeepsTasks(s: State, step: Step)
    requires Enabled(s, step) && (forall k: nat :: TaskOk(s, k)) && EntriesOk(s)
    ensures (forall k: nat :: TaskOk(Next(s, step), k)) && EntriesOk(Next(s, step))
  {
    hide Next;
    if OfTasks(step) {
      forall k: nat ensures TaskOk(Next(s, step), k) && EntriesOk(Next(s, step)) {
        if step.Handle? {
          HandleKeepsTasks(s, k);
        } else if OfDispatcher(step) {
          DispatcherKeepsEntries(s, step);
          DispatcherKeepsTask(s, step, k);
        } else {
          TaskKeepsEntries(s, step);
          TaskKeepsTask(s, step, k);
        }
      }
      assert TaskOk(Next(s, step), 0);
    } else {
      OutsideTasks(s, step);
      assert forall k: nat :: TaskOk(s, k) ==> TaskOk(Next(s, step), k);
    }
  }

  lemma OthersKeepOpsFresh(s: State, step: Step)
    requires Enabled(s, step) && !OfTasks(step) && OpsFresh(s)
    ensures OpsFresh(Next(s, step))
  {
  }

  lemma OthersKeepDoorsFresh(s: State, step: Step)
    requires Enabled(s, step) && !OfTasks(step) && DoorsFresh(s)
    ensures DoorsFresh(Next(s, step))
  {
  }

  lemma OthersKeepCancels(s: State, step: Step)
    requires Enabled(s, step) && !OfTasks(step) && CancelOk(s) && DoorsFresh(s)
    ensures CancelOk(Next(s, step))
  {
  }

  lemma StepKeepsIds(s: State, step: Step)
    requires Enabled(s, step) && OpsFresh(s) && DoorsFresh(s) && CancelOk(s)
    ensures OpsFresh(Next(s, step)) && DoorsFresh(Next(s, step)) && CancelOk(Next(s, step))
  {
    hide Next;
    if OfDispatcher(step) {
      DispatcherSameIds(s, step);
    } else if OfTask(step) {
      TaskSameIds(s, step);
    } else {
      OthersKeepOpsFresh(s, step);
      OthersKeepDoorsFresh(s, step);
      OthersKeepCancels(s, step);
    }
  }

  /** What the step announces, if anything. */
  function Told(s: State, step: Step): Option<Token>
    requires Enabled(s, step)
  {
    match step
    case Complete(id) => Some(OpDone(id))
    case DoorSend(id) => Some(Request(id))
    case CancelSend(id) => Some(Cancelled(id))
    case Handle => if s.kinds[s.disp.id].Yield? then Some(OpDone(s.disp.id)) else None
    case SendTarget => Some(OpDone(s.disp.target))
    case Reply => Some(OpDone(s.disp.id))
    case Send(id) => Some(OpDone(id))
    case CustomDone(id) => Some(OpDone(id))
    case _ => None
  }

  function Listed<T>(o: Option<T>): seq<T>
  {
    if o.Some? then [o.value] else []
  }

  /** Polling moves the history along; every other step appends at most one announcement to it. */
  lemma StepTells(s: State, step: Step)
    requires Enabled(s, step)
    ensures Sent(Next(s, step)) == Sent(s) + Listed(Told(s, step))
  {
    hide HandleOp, ClaimTarget, SwapTask;
    PollMoves(s);
    if step.Handle? {
      HandleTells(s);
    } else if step.Claim? || step.Swap? {
      ClaimTells(s, step);
    } else if Told(s, step).Some? {
      assert s.consumed + s.out + (s.channel + [Told(s, step).value]) == Sent(s) + [Told(s, step).value];
    }
  }

  lemma HandleTells(s: State)
    requires Enabled(s, Handle)
    ensures Sent(Next(s, Handle)) == Sent(s) + Listed(Told(s, Handle))
  {
  }

  lemma ClaimTells(s: State, step: Step)
    requires Enabled(s, step) && (step.Claim? || step.Swap?)
    ensures Sent(Next(s, step)) == Sent(s)
  {
  }

  lemma Appended(s: State, t: State, o: Option<Token>, u: Token)
    requires Sent(t) == Sent(s) + Listed(o)
    ensures Announced(t, u) == Announced(s, u) + Flag(o == Some(u))
  {
    if o.None? {
      assert Sent(t) == Sent(s);
    }
  }

  lemma StepKeepsRequest(s: State, step: Step, id: nat)
    requires Enabled(s, step) && RequestLine(s, id) && CancelLine(s, id) && DoorsFresh(s) && CancelOk(s)
    ensures RequestLine(Next(s, step), id) && CancelLine(Next(s, step), id)
  {
    hide Announced, Sent, Next, DoorsFresh, CancelOk;
    StepTells(s, step);
    Appended(s, Next(s, step), Told(s, step), Request(id));
    Appended(s, Next(s, step), Told(s, step), Cancelled(id));
    if OfDispatcher(step) {
      DispatcherSameIds(s, step);
    } else if OfTask(step) {
      TaskSameIds(s, step);
    } else {
      DoorKeepsRequest(s, step, id);
      CancellerKeepsRequest(s, step, id);
    }
  }

  /** A door that announces its request gives it up, one that counts it takes it on. */
  lemma DoorKeepsRequest(s: State, step: Step, id: nat)
    requires Enabled(s, step) && !OfTasks(step) && DoorsFresh(s)
    ensures var t := Next(s, step);
      Flag(DoorAt(t, id, Counted)) + Flag(Told(s, step) == Some(Request(id))) + Flag(Request(id) in s.issued)
      == Flag(DoorAt(s, id, Counted)) + Flag(Request(id) in t.issued)
  {
    hide HandleOp, ClaimTarget, SwapTask;
  }

  lemma CancellerKeepsRequest(s: State, step: Step, id: nat)
    requires Enabled(s, step) && !OfTasks(step) && CancelOk(s)
    ensures var t := Next(s, step);
      Flag(CancelAt(t, id, Announcing)) + Flag(Told(s, step) == Some(Cancelled(id))) + Flag(Cancelled(id) in s.issued)
      == Flag(CancelAt(s, id, Announcing)) + Flag(Cancelled(id) in t.issued)
  {
    hide HandleOp, ClaimTarget, SwapTask;
  }

  // ---------------------------------------------------------------- counting

  lemma OnceEach(q: seq<Token>)
    requires forall t :: multiset(q)[t] <= 1
    ensures NoDup(q)
  {
    forall i, j | 0 <= i < j < |q| ensures q[i] != q[j] {
      assert q == q[..j] + q[j..] && multiset(q) == multiset(q[..j]) + multiset(q[j..]);
      assert q[..j][i] == q[i] && q[j..][0] == q[j];
      assert multiset(q[..j])[q[i]] >= 1 && multiset(q[j..])[q[j]] >= 1;
      assert multiset(q)[q[i]] <= 1;
    }
  }

  lemma LineBounds(s: State, t: Token)
    requires Lines(s)
    ensures Announced(s, t) <= Flag(t in s.issued)
  {
    match t {
      case OpDone(k) => assert OpLine(s, k);
      case Request(id) => assert RequestLine(s, id);
      case Cancelled(id) => assert CancelLine(s, id);
    }
  }

  lemma SentOnce(s: State)
    requires Lines(s)
    ensures NoDup(Sent(s)) && Elements(Sent(s)) <= s.issued && |Sent(s)| == |Elements(Sent(s))| <= |s.issued|
  {
    forall t ensures multiset(Sent(s))[t] <= Flag(t in s.issued) {
      LineBounds(s, t);
    }
    OnceEach(Sent(s));
    NoDupSize(Sent(s));
    assert forall t :: t in Sent(s) ==> multiset(Sent(s))[t] > 0;
    SubsetSize(Elements(Sent(s)), s.issued);
  }

  lemma SubsetSize(a: set<Token>, b: set<Token>)
    requires a <= b
    ensures |a| + |b - a| == |b|
  {
    assert b == a + (b - a);
  }

  /** The token a step counts into inflight. */
  function Issues(s: State, step: Step): Option<Token>
    requires Enabled(s, step)
  {
    match step
    case SubmitCount => Some(OpDone(s.php.id))
    case ReserveCount(id) => Some(OpDone(id))
    case DoorCount(id) => Some(Request(id))
    case CancelCount(id) => Some(Cancelled(id))
    case _ => None
  }

  lemma IssuesFresh(s: State, step: Step)
    requires Enabled(s, step) && OpsFresh(s) && DoorsFresh(s) && CancelOk(s)
    ensures Issues(s, step).Some? ==> Issues(s, step).value !in s.issued
  {
  }

  lemma OthersCount(s: State, step: Step)
    requires Enabled(s, step) && !OfTasks(step)
    ensures var t := Next(s, step);
      && t.issued == s.issued + Elements(Listed(Issues(s, step)))
      && (!step.PollReturn? ==> t.inflight == s.inflight + |Listed(Issues(s, step))| && t.consumed == s.consumed)
  {
    assert s.issued + {} == s.issued;
  }

  lemma TasksCount(s: State, step: Step)
    requires Enabled(s, step) && OfTasks(step)
    ensures Next(s, step).issued == s.issued && Next(s, step).inflight == s.inflight && Next(s, step).consumed == s.consumed
  {
    hide HandleOp, ClaimTarget, SwapTask;
    if step.Handle? {
      HandleCount(s);
    } else if step.Claim? || step.Swap? {
      ClaimCount(s, step);
    }
  }

  lemma HandleCount(s: State)
    requires Enabled(s, Handle)
    ensures Next(s, Handle).issued == s.issued && Next(s, Handle).inflight == s.inflight && Next(s, Handle).consumed == s.consumed
  {
  }

  lemma ClaimCount(s: State, step: Step)
    requires Enabled(s, step) && (step.Claim? || step.Swap?)
    ensures Next(s, step).issued == s.issued && Next(s, step).inflight == s.inflight && Next(s, step).consumed == s.consumed
  {
  }

  lemma StepKeepsCounts(s: State, step: Step)
    requires Enabled(s, step) && Inv(s)
    ensures Counts(Next(s, step))
  {
    hide Next, Enabled, Lines, TaskOk, EntriesOk, OpsFresh, DoorsFresh, CancelOk, Issues;
    SentOnce(s);
    if OfTasks(step) {
      TasksCount(s, step);
    } else {
      OthersCount(s, step);
      IssuesFresh(s, step);
      OneMore(s.issued, Issues(s, step));
      if step.PollReturn? {
        PollReturns(s);
      }
    }
  }

  lemma OneMore(a: set<Token>, o: Option<Token>)
    requires o.Some? ==> o.value !in a
    ensures |a + Elements(Listed(o))| == |a| + |Listed(o)|
  {
    if o.Some? {
      assert Elements(Listed(o)) == {o.value};
    } else {
      assert a + Elements(Listed(o)) == a;
    }
  }

  lemma PollReturns(s: State)
    requires Enabled(s, PollReturn) && |s.out| <= s.inflight
    ensures Next(s, PollReturn).inflight == s.inflight - |s.out| && Next(s, PollReturn).consumed == s.consumed + s.out
    ensures Next(s, PollReturn).issued == s.issued
  {
  }

  // ---------------------------------------------------------------- every schedule

  lemma StepKeeps(s: State, step: Step)
    requires Enabled(s, step) && Inv(s)
    ensures Inv(Next(s, step))
  {
    hide Next, Enabled, TaskOk, EntriesOk, OpsFresh, DoorsFresh, CancelOk, Counts, OpLine, RequestLine, CancelLine;
    StepKeepsTasks(s, step);
    StepKeepsIds(s, step);
    StepKeepsCounts(s, step);
    forall k: nat ensures OpLine(Next(s, step), k) && RequestLine(Next(s, step), k) && CancelLine(Next(s, step), k) {
      StepKeepsOp(s, step, k);
      StepKeepsRequest(s, step, k);
    }
  }

  lemma InitialIsSafe()
    ensures Inv(Initial())
  {
  }

  lemma {:induction false} RunKeeps(steps: seq<Step>)
    ensures Inv(Run(steps))
  {
    hide Inv, Next, Enabled, Initial;
    if steps == [] {
      InitialIsSafe();
    } else {
      var t, last := Run(steps[..|steps| - 1]), steps[|steps| - 1];
      RunKeeps(steps[..|steps| - 1]);
      if Enabled(t, last) {
        StepKeeps(t, last);
      }
    }
  }

  /**
   Under every schedule: nothing is announced twice or without having been counted, and inflight is
   exactly what is still owed, waits in the channel, or sits in the poll under way.
   */
  lemma EveryCompletionOnce(steps: seq<Step>)
    ensures var s := Run(steps);
      && NoDup(Sent(s)) && Elements(Sent(s)) <= s.issued
      && s.inflight == |s.issued - Elements(Sent(s))| + |s.channel| + |s.out|
  {
    hide Run, Initial, Next, Enabled, TaskOk, EntriesOk, OpsFresh, DoorsFresh, CancelOk;
    RunKeeps(steps);
    SentOnce(Run(steps));
    SubsetSize(Elements(Sent(Run(steps))), Run(steps).issued);
  }

  /** So `poll` never subtracts more than is there: the saturation in it is never used. */
  lemma SubtractionIsExact(steps: seq<Step>)
    requires Enabled(Run(steps), PollReturn)
    ensures Next(Run(steps), PollReturn).inflight + |Run(steps).out| == Run(steps).inflight
  {
    hide Run;
    EveryCompletionOnce(steps);
    PollReturns(Run(steps));
  }

  /** Nothing in the reactor is about to announce anything. */
  ghost predicate Quiet(s: State)
  {
    && !s.php.Sending? && s.queue == [] && s.disp.Waiting? && s.customs == {} && s.reserved == {}
    && (forall k :: k in s.tasks ==> s.tasks[k].pc == Ended || s.tasks[k].pc == Stopped)
    && (forall id :: id in s.doors ==> s.doors[id] != Counted)
    && (forall id :: id in s.cancels ==> s.cancels[id] != Announcing)
  }

  /** Once the reactor is quiet every op counted has been announced, exactly once, however its race with a cancel went. */
  lemma NothingIsLost(steps: seq<Step>)
    requires Quiet(Run(steps))
    ensures Elements(Sent(Run(steps))) == Run(steps).issued
  {
    var s := Run(steps);
    hide Run, Initial;
    RunKeeps(steps);
    forall t | t in s.issued ensures t in Sent(s) {
      QuietLine(s, t);
      assert multiset(Sent(s))[t] > 0;
    }
    SentOnce(s);
  }

  lemma QuietLine(s: State, t: Token)
    requires Inv(s) && Quiet(s) && t in s.issued
    ensures Announced(s, t) == 1
  {
    hide Announced, Sent;
    match t {
      case OpDone(k) => assert OpLine(s, k) && TaskOk(s, k);
      case Request(id) => assert RequestLine(s, id);
      case Cancelled(id) => assert CancelLine(s, id);
    }
  }

  /** The early return of `poll` on a zero count leaves nothing behind: nobody owes anything and the channel is empty. */
  lemma ZeroMeansEmpty(steps: seq<Step>)
    requires Run(steps).inflight == 0
    ensures var s := Run(steps);
      && s.channel == [] && s.out == [] && Elements(Sent(s)) == s.issued
      && forall k: nat :: Holders(s, k) == 0 && !DoorAt(s, k, Counted) && !CancelAt(s, k, Announcing)
  {
    var s := Run(steps);
    hide Run, Initial, Holders;
    RunKeeps(steps);
    EveryCompletionOnce(steps);
    assert s.issued - Elements(Sent(s)) == {};
    forall k: nat ensures Holders(s, k) == 0 && !DoorAt(s, k, Counted) && !CancelAt(s, k, Announcing) {
      assert OpLine(s, k) && RequestLine(s, k) && CancelLine(s, k);
      ListedIsAnnounced(s, OpDone(k));
      ListedIsAnnounced(s, Request(k));
      ListedIsAnnounced(s, Cancelled(k));
    }
  }

  lemma ListedIsAnnounced(s: State, t: Token)
    requires Elements(Sent(s)) == s.issued
    ensures t in s.issued ==> Announced(s, t) >= 1
  {
    if t in s.issued {
      assert t in Sent(s);
    }
  }

  // ---------------------------------------------------------------- requests and their cancellation

  /** Each cancellation in the history stands behind its request. */
  ghost predicate Ordered(q: seq<Token>)
  {
    forall j :: 0 <= j < |q| && q[j].Cancelled? ==> Request(q[j].id) in q[..j]
  }

  lemma DeliveredIsAnnounced(s: State, id: nat)
    requires Lines(s) && DoorsFresh(s) && DoorAt(s, id, Delivered)
    ensures Request(id) in Sent(s)
  {
    assert RequestLine(s, id);
    assert multiset(Sent(s))[Request(id)] > 0;
  }

  lemma {:induction false} RequestBeforeCancel(steps: seq<Step>)
    ensures Ordered(Sent(Run(steps)))
  {
    hide Inv, Next, Enabled, Told, Sent;
    if steps == [] {
      NothingSent();
    } else {
      var t, last := Run(steps[..|steps| - 1]), steps[|steps| - 1];
      RequestBeforeCancel(steps[..|steps| - 1]);
      if Enabled(t, last) {
        RunKeeps(steps[..|steps| - 1]);
        StepTells(t, last);
        TellsInOrder(t, last);
        var q := Sent(t);
        assert forall j :: 0 <= j < |q| ==> (q + Listed(Told(t, last)))[..j] == q[..j];
        assert (q + Listed(Told(t, last)))[..|q|] == q;
      }
    }
  }

  lemma NothingSent()
    ensures Sent(Initial()) == []
  {
  }

  lemma TellsInOrder(s: State, step: Step)
    requires Enabled(s, step) && Inv(s)
    ensures Told(s, step).Some? && Told(s, step).value.Cancelled? ==> Request(Told(s, step).value.id) in Sent(s)
  {
    if step.CancelSend? {
      DeliveredIsAnnounced(s, step.id);
    }
  }

  /** An answered request is never cancelled any more: its answer left the map, and no id comes back. */
  lemma AnsweredIsFinal(s: State, step: Step, id: nat)
    requires Inv(s) && Enabled(s, step) && DoorAt(s, id, Delivered) && id !in s.answers && id !in s.cancels
    ensures var t := Next(s, step); DoorAt(t, id, Delivered) && id !in t.answers && id !in t.cancels && Cancelled(id) !in t.issued
  {
    hide HandleOp, ClaimTarget, SwapTask, Lines, EntriesOk, OpsFresh, Counts;
    StepKeepsIds(s, step);
    if OfDispatcher(step) {
      DispatcherSameIds(s, step);
    } else if OfTask(step) {
      TaskSameIds(s, step);
    }
  }

  lemma RunStep(steps: seq<Step>)
    requires steps != []
    ensures var t, last := Run(steps[..|steps| - 1]), steps[|steps| - 1]; Run(steps) == if Enabled(t, last) then Next(t, last) else t
  {
  }

  /** Over any further schedule, a request that was answered is never cancelled. */
  lemma {:induction false} AnsweredIsNeverCancelled(steps: seq<Step>, more: seq<Step>, id: nat)
    requires Enabled(Run(steps), Answer(id)) && id in Run(steps).answers
    ensures var s := Run(steps + [Answer(id)] + more);
      DoorAt(s, id, Delivered) && id !in s.answers && id !in s.cancels && Cancelled(id) !in Sent(s)
  {
    hide Run, Inv, Next, Enabled, Sent;
    var answered := steps + [Answer(id)];
    if more == [] {
      assert answered + more == answered && answered[..|steps|] == steps;
      RunStep(answered);
      RunKeeps(steps);
      AnswersNow(Run(steps), id);
      RunKeeps(answered);
      NotCancelled(Run(answered), id);
    } else {
      var front := more[..|more| - 1];
      assert (answered + more)[..|answered + more| - 1] == answered + front;
      AnsweredIsNeverCancelled(steps, front, id);
      RunStep(answered + more);
      RunKeeps(answered + front);
      if Enabled(Run(answered + front), more[|more| - 1]) {
        AnsweredIsFinal(Run(answered + front), more[|more| - 1], id);
      }
      RunKeeps(answered + more);
      NotCancelled(Run(answered + more), id);
    }
  }

  lemma AnswersNow(s: State, id: nat)
    requires Inv(s) && Enabled(s, Answer(id)) && id in s.answers
    ensures var t := Next(s, Answer(id)); DoorAt(t, id, Delivered) && id !in t.answers && id !in t.cancels
  {
  }

  lemma NotCancelled(s: State, id: nat)
    requires Inv(s) && id !in s.cancels
    ensures Cancelled(id) !in Sent(s)
  {
    hide TaskOk, EntriesOk, OpsFresh, DoorsFresh, Counts, OpLine, RequestLine, CancelLine;
    SentOnce(s);
    assert Cancelled(id) in Sent(s) ==> Cancelled(id) in Elements(Sent(s));
  }

  /** The cancellation of a delivered request that still owes its answer: on its way, or announced. */
  ghost predicate Cancelling(s: State, id: nat)
  {
    id !in s.answers && id in s.cancels && (s.cancels[id] == Done ==> Cancelled(id) in Sent(s))
  }

  /**
   Over any further schedule, a client that leaves before its answer is cancelled: the answer is gone for good and
   the canceller announces it.
   */
  lemma {:induction false} LeavingIsCancelled(steps: seq<Step>, more: seq<Step>, id: nat)
    requires Enabled(Run(steps), CancelTake(id)) && id in Run(steps).answers
    ensures var s := Run(steps + [CancelTake(id)] + more);
      id !in s.answers && id in s.cancels && (s.cancels[id] == Done ==> Cancelled(id) in Sent(s))
  {
    hide Run, Inv, Next, Enabled, Sent, CancelOk;
    var taken := steps + [CancelTake(id)];
    if more == [] {
      assert taken + more == taken && taken[..|steps|] == steps;
      RunStep(taken);
      RunKeeps(steps);
      TakesNow(Run(steps), id);
    } else {
      var front := more[..|more| - 1];
      assert (taken + more)[..|taken + more| - 1] == taken + front;
      LeavingIsCancelled(steps, front, id);
      RunStep(taken + more);
      RunKeeps(taken + front);
      if Enabled(Run(taken + front), more[|more| - 1]) {
        CancellingStays(Run(taken + front), more[|more| - 1], id);
      }
    }
  }

  lemma TakesNow(s: State, id: nat)
    requires Enabled(s, CancelTake(id)) && id in s.answers
    ensures Cancelling(Next(s, CancelTake(id)), id)
  {
  }

  lemma CancellingStays(s: State, step: Step, id: nat)
    requires Inv(s) && Enabled(s, step) && Cancelling(s, id)
    ensures Cancelling(Next(s, step), id)
  {
    hide Inv, Sent, HandleOp, ClaimTarget, SwapTask;
    StepTells(s, step);
    CancelsDelivered(s, id);
    if OfDispatcher(step) {
      DispatcherSameIds(s, step);
    } else if OfTask(step) {
      TaskSameIds(s, step);
    }
  }

  lemma CancelsDelivered(s: State, id: nat)
    requires Inv(s) && id in s.cancels
    ensures DoorAt(s, id, Delivered)
  {
  }
}
