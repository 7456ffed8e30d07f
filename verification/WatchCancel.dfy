/**
 What the answer to a cancellation promises: by the time the reactor announces a `CancelWatch` op, the watch it
 names has been claimed, by the canceller or by its own task.
 */
module WatchCancel {
  import opened Prelude
  import opened Reactor

  /** The task has been claimed, or is on its way to claim itself. */
  predicate Settled(t: Task)
  {
    t.completed || t.pc == Removed
  }

  predicate Submitting(php: Php)
  {
    php.Counting? || php.Sending?
  }

  /** Everything still on its way to the dispatcher came after op k. */
  ghost predicate Behind(s: State, k: nat)
  {
    && (forall q :: q in s.queue ==> k < q)
    && (Submitting(s.php) ==> k < s.php.id)
    && (s.disp.Got? ==> k < s.disp.id)
  }

  ghost predicate Increasing(queue: seq<nat>)
  {
    forall i, j :: 0 <= i < j < |queue| ==> queue[i] < queue[j]
  }

  /** Ops reach the dispatcher in the order their ids were handed out. */
  ghost predicate InLine(s: State)
  {
    && Increasing(s.queue)
    && (forall q :: q in s.queue ==> q < s.nextId && (Submitting(s.php) ==> q < s.php.id))
    && (Submitting(s.php) ==> s.php.id < s.nextId)
    && (!s.disp.Waiting? ==> s.disp.id < s.nextId && (forall q :: q in s.queue ==> s.disp.id < q) && (Submitting(s.php) ==> s.disp.id < s.php.id))
  }

  /** What the dispatcher has let go of lies behind everything still to come. */
  ghost predicate Past(s: State)
  {
    && (forall k :: k in s.tasks || k in s.customs ==> k < s.nextId && Behind(s, k))
    && (forall k :: k in s.kinds && OpDone(k) in Sent(s) ==> Behind(s, k))
    && (forall k :: k in s.tasks ==> OpDone(k) in s.issued)
  }

  /** Which ops can be where. */
  ghost predicate KindsOk(s: State)
  {
    && (forall k :: k in s.kinds ==> k < s.nextId)
    && (forall k :: k in s.tasks ==> k in s.kinds && s.kinds[k].Timer?)
    && (forall k :: k in s.customs ==> k in s.kinds && s.kinds[k].Custom?)
    && (forall k :: k in s.reserving || k in s.reserved ==> k !in s.kinds && k < s.nextId)
    && (s.disp.Took? || s.disp.Aborted? || s.disp.Claimed? ==>
          s.disp.target in s.tasks && s.disp.id in s.kinds && s.kinds[s.disp.id] == CancelWatch(s.disp.target))
    && (s.disp.Replying? ==> s.disp.id in s.kinds && s.kinds[s.disp.id].CancelWatch?)
  }

  predicate Aims(d: Dispatcher, k: nat)
  {
    (d.Took? || d.Aborted?) && d.target == k
  }

  /** A task without an entry in the map is settled, or about to be. */
  ghost predicate EntriesTell(s: State)
  {
    && (forall k :: k in s.tasks && k !in s.entries && s.disp != Inserting(k) ==> Settled(s.tasks[k]) || Aims(s.disp, k))
    && (s.disp.Claimed? && s.disp.target in s.tasks ==> s.tasks[s.disp.target].completed)
  }

  /** The watch that c cancels, if it ever was one, is settled. */
  predicate Served(s: State, c: nat)
  {
    c in s.kinds && s.kinds[c].CancelWatch? && s.kinds[c].target < c && s.kinds[c].target in s.tasks ==> Settled(s.tasks[s.kinds[c].target])
  }

  ghost predicate Answered(s: State)
  {
    && (s.disp.Replying? ==> Served(s, s.disp.id))
    && (forall c: nat :: OpDone(c) in Sent(s) ==> Served(s, c))
  }

  ghost predicate CancelInv(s: State)
  {
    InLine(s) && Past(s) && KindsOk(s) && EntriesTell(s) && Answered(s)
  }

  // ---------------------------------------------------------------- one step

  lemma SentGrows(s: State, step: Step, t: Token)
    requires Enabled(s, step)
    ensures t in Sent(Next(s, step)) <==> t in Sent(s) || Reactor.Told(s, step) == Some(t)
  {
    hide Next, Enabled, Reactor.Told, Sent;
    StepTells(s, step);
  }

  /** Nothing new is on its way to the dispatcher, and nothing new is in its hands. */
  ghost predicate SameLine(s: State, t: State)
  {
    && t.queue == s.queue && t.nextId >= s.nextId
    && (Submitting(t.php) ==> Submitting(s.php) && t.php.id == s.php.id)
    && (!t.disp.Waiting? ==> !s.disp.Waiting? && t.disp.id == s.disp.id)
    && (t.disp.Got? ==> s.disp.Got?)
  }

  predicate MovesLine(step: Step)
  {
    step.SubmitAlloc? || step.SubmitSend? || step.Recv?
  }

  lemma HandleSameLine(s: State)
    requires Enabled(s, Handle)
    ensures SameLine(s, Next(s, Handle))
  {
  }

  lemma StepSameLine(s: State, step: Step)
    requires Enabled(s, step) && !MovesLine(step)
    ensures SameLine(s, Next(s, step))
  {
    hide HandleOp, ClaimTarget, SwapTask;
    if step.Handle? {
      HandleSameLine(s);
    } else if step.Claim? || step.Swap? {
      ClaimSameLine(s, step);
    }
  }

  lemma ClaimSameLine(s: State, step: Step)
    requires Enabled(s, step) && (step.Claim? || step.Swap?)
    ensures SameLine(s, Next(s, step))
  {
  }

  lemma AllocInLine(s: State, op: Op)
    requires Enabled(s, SubmitAlloc(op)) && InLine(s)
    ensures InLine(Next(s, SubmitAlloc(op)))
    ensures forall k: nat :: k < s.nextId && Behind(s, k) ==> Behind(Next(s, SubmitAlloc(op)), k)
  {
    var t := Next(s, SubmitAlloc(op));
    assert t.queue == s.queue && t.disp == s.disp && t.php.id == s.nextId;
  }

  lemma SendInLine(s: State)
    requires Enabled(s, SubmitSend) && InLine(s)
    ensures InLine(Next(s, SubmitSend)) && forall k: nat :: Behind(s, k) ==> Behind(Next(s, SubmitSend), k)
  {
    hide Increasing;
    IncreasesOn(s.queue, s.php.id);
  }

  lemma IncreasesOn(queue: seq<nat>, id: nat)
    requires Increasing(queue) && forall q :: q in queue ==> q < id
    ensures Increasing(queue + [id]) && forall q :: q in queue + [id] <==> q in queue || q == id
  {
    assert forall j :: 0 <= j < |queue| ==> queue[j] in queue;
  }

  lemma RecvInLine(s: State)
    requires Enabled(s, Recv) && InLine(s)
    ensures InLine(Next(s, Recv)) && forall k: nat :: Behind(s, k) ==> Behind(Next(s, Recv), k)
  {
    var t := Next(s, Recv);
    assert forall q :: q in t.queue ==> q in s.queue;
    assert s.queue[0] in s.queue;
    forall j | 0 <= j < |t.queue| ensures s.queue[0] < t.queue[j] {
      assert t.queue[j] == s.queue[j + 1];
    }
  }

  lemma MovedInLine(s: State, step: Step)
    requires Enabled(s, step) && InLine(s) && MovesLine(step)
    ensures InLine(Next(s, step))
    ensures forall k: nat :: k < s.nextId && Behind(s, k) ==> Behind(Next(s, step), k)
  {
    hide Next, InLine, Behind;
    match step {
      case SubmitAlloc(op) => AllocInLine(s, op);
      case SubmitSend => SendInLine(s);
      case Recv => RecvInLine(s);
    }
  }

  lemma StaysInLine(s: State, t: State)
    requires InLine(s) && SameLine(s, t)
    ensures InLine(t) && forall k: nat :: Behind(s, k) ==> Behind(t, k)
  {
  }

  /** Every step keeps the line, and what was past it stays past it. */
  lemma StepInLine(s: State, step: Step)
    requires Enabled(s, step) && InLine(s)
    ensures InLine(Next(s, step)) && forall k: nat :: k < s.nextId && Behind(s, k) ==> Behind(Next(s, step), k)
  {
    hide Next, InLine, SameLine, Behind;
    if MovesLine(step) {
      MovedInLine(s, step);
    } else {
      StepSameLine(s, step);
      StaysInLine(s, Next(s, step));
    }
  }

  // ---------------------------------------------------------------- who can be where

  lemma HandleIs(s: State)
    requires Enabled(s, Handle)
    ensures var t, id := Next(s, Handle), s.disp.id;
      && t.kinds == s.kinds && t.nextId == s.nextId && t.reserving == s.reserving && t.reserved == s.reserved
      && (forall k :: k in t.tasks <==> k in s.tasks || (k == id && s.kinds[id].Timer?))
      && (forall k :: k in t.customs <==> k in s.customs || (k == id && s.kinds[id].Custom?))
      && (t.disp.Took? ==> t.disp.target in s.entries && s.kinds[id] == CancelWatch(t.disp.target) && t.disp.id == id)
      && (t.disp.Replying? ==> t.disp.id == id && s.kinds[id].CancelWatch?)
      && !t.disp.Aborted? && !t.disp.Claimed?
  {
  }

  /** Only the dispatcher's `match op` puts an op among the tasks or the reserved ops of an interpreter. */
  lemma HandleKinds(s: State)
    requires Enabled(s, Handle) && KindsOk(s) && EntriesOk(s)
    ensures KindsOk(Next(s, Handle)) && Next(s, Handle).kinds == s.kinds
    ensures forall k :: k in Next(s, Handle).tasks || k in Next(s, Handle).customs ==> k in s.tasks || k in s.customs || k == s.disp.id
  {
    hide Next;
    HandleIs(s);
  }

  predicate SameKinds(s: State, t: State)
  {
    && t.kinds == s.kinds && t.tasks.Keys == s.tasks.Keys && t.customs <= s.customs && t.nextId == s.nextId
    && t.reserving == s.reserving && t.reserved == s.reserved
  }

  lemma TasksKinds(s: State, step: Step)
    requires Enabled(s, step) && OfTasks(step) && !step.Handle? && !step.Claim? && !step.Swap?
    ensures SameKinds(s, Next(s, step))
  {
    hide HandleOp, ClaimTarget, SwapTask;
  }

  lemma ClaimKinds(s: State, step: Step)
    requires Enabled(s, step) && (step.Claim? || step.Swap?)
    ensures SameKinds(s, Next(s, step))
    ensures step.Claim? ==> var d := Next(s, step).disp; d == Replying(s.disp.id) || d == Claimed(s.disp.id, s.disp.target)
  {
  }

  lemma DispatcherKinds(s: State, t: State)
    requires KindsOk(s) && SameKinds(s, t) && EntriesOk(s)
    requires
      || t.disp == s.disp || t.disp.Waiting? || t.disp.Got?
      || (t.disp.Aborted? && s.disp.Took? && t.disp.id == s.disp.id && t.disp.target == s.disp.target)
      || (s.disp.Aborted? && (t.disp == Replying(s.disp.id) || t.disp == Claimed(s.disp.id, s.disp.target)))
      || (s.disp.Claimed? && t.disp == Replying(s.disp.id))
    ensures KindsOk(t)
  {
  }

  lemma OthersKinds(s: State, step: Step)
    requires Enabled(s, step) && !OfTasks(step) && KindsOk(s)
    ensures KindsOk(Next(s, step))
    ensures Next(s, step).tasks == s.tasks && Next(s, step).customs <= s.customs
    ensures Next(s, step).kinds == if step.SubmitAlloc? then s.kinds[s.nextId := step.op] else s.kinds
  {
    hide HandleOp, ClaimTarget, SwapTask;
  }

  lemma DispatcherMoves(s: State, step: Step)
    requires Enabled(s, step) && OfTasks(step) && !step.Handle? && !step.Claim? && !step.Swap?
    ensures var t := Next(s, step);
      || t.disp == s.disp || t.disp.Waiting? || t.disp.Got?
      || (t.disp.Aborted? && s.disp.Took? && t.disp.id == s.disp.id && t.disp.target == s.disp.target)
      || (s.disp.Claimed? && t.disp == Replying(s.disp.id))
  {
    hide HandleOp, ClaimTarget, SwapTask;
  }

  lemma SwapMoves(s: State, id: nat)
    requires Enabled(s, Swap(id))
    ensures Next(s, Swap(id)).disp == s.disp
  {
  }

  lemma StepKinds(s: State, step: Step)
    requires Enabled(s, step) && KindsOk(s) && EntriesOk(s)
    ensures KindsOk(Next(s, step))
    ensures var t := Next(s, step);
      && t.kinds == (if step.SubmitAlloc? then s.kinds[s.nextId := step.op] else s.kinds)
      && (forall k :: k in t.tasks || k in t.customs ==> k in s.tasks || k in s.customs || (step.Handle? && k == s.disp.id))
  {
    hide Next, KindsOk, EntriesOk;
    if step.Handle? {
      HandleKinds(s);
    } else if step.Claim? || step.Swap? {
      ClaimKinds(s, step);
      if step.Swap? {
        SwapMoves(s, step.id);
      }
      DispatcherKinds(s, Next(s, step));
    } else if OfTasks(step) {
      TasksKinds(s, step);
      DispatcherMoves(s, step);
      DispatcherKinds(s, Next(s, step));
    } else {
      OthersKinds(s, step);
    }
  }

  // ---------------------------------------------------------------- what is past

  lemma SentIsOld(s: State, k: nat)
    requires Inv(s) && OpDone(k) in Sent(s)
    ensures k < s.nextId
  {
    hide TaskOk, EntriesOk, DoorsFresh, CancelOk, Counts, OpLine, RequestLine, CancelLine, Sent;
    SentOnce(s);
    assert OpDone(k) in Elements(Sent(s));
  }

  /** Who announces an op has had it in hand. */
  lemma TellsPast(s: State, step: Step, k: nat)
    requires Enabled(s, step) && InLine(s) && Past(s) && KindsOk(s) && k in s.kinds && Reactor.Told(s, step) == Some(OpDone(k))
    ensures k in s.tasks || k in s.customs || (k == s.disp.id && (step.Handle? || step.Reply?))
  {
    hide InLine, Past, Next;
  }

  /** Once the dispatcher has put an op down, it is past the line. */
  lemma PutDown(s: State, step: Step)
    requires Enabled(s, step) && InLine(s) && (step.Handle? || step.Reply?)
    ensures s.disp.id < s.nextId && Behind(Next(s, step), s.disp.id)
  {
    hide InLine, Next, SameLine;
    PutDownLine(s, step);
    StepSameLine(s, step);
    NoLongerGot(s, Next(s, step));
    NotGot(s, step);
  }

  lemma NotGot(s: State, step: Step)
    requires Enabled(s, step) && (step.Handle? || step.Reply?)
    ensures !Next(s, step).disp.Got?
  {
  }

  lemma PutDownLine(s: State, step: Step)
    requires Enabled(s, step) && InLine(s) && (step.Handle? || step.Reply?)
    ensures s.disp.id < s.nextId && (forall q :: q in s.queue ==> s.disp.id < q) && (Submitting(s.php) ==> s.disp.id < s.php.id)
  {
  }

  lemma NoLongerGot(s: State, t: State)
    requires SameLine(s, t)
    ensures t.queue == s.queue && (Submitting(t.php) ==> Submitting(s.php) && t.php.id == s.php.id)
  {
  }

  lemma StepPast(s: State, step: Step)
    requires Enabled(s, step) && Inv(s) && InLine(s) && Past(s) && KindsOk(s)
    ensures Past(Next(s, step))
  {
    hide Next, Inv, InLine, KindsOk, Behind, Sent, Reactor.Told, Enabled;
    var t := Next(s, step);
    InvParts(s);
    StepInLine(s, step);
    StepKinds(s, step);
    NewTasks(s, step);
    if step.Handle? || step.Reply? {
      PutDown(s, step);
    }
    IdsGrow(s, step);
    IssuedGrows(s, step);
    if step.Handle? {
      GotIsCounted(s);
    }
    forall k | k in t.kinds && OpDone(k) in Sent(t) ensures Behind(t, k) {
      SentGrows(s, step, OpDone(k));
      if OpDone(k) in Sent(s) {
        SentIsOld(s, k);
        assert k in s.kinds;
      } else {
        TellsOld(s, step, k);
        TellsPast(s, step, k);
      }
    }
  }

  lemma InvParts(s: State)
    requires Inv(s)
    ensures EntriesOk(s) && OpsFresh(s)
  {
  }

  lemma NewTasks(s: State, step: Step)
    requires Enabled(s, step)
    ensures forall k :: k in Next(s, step).tasks ==> k in s.tasks || (step.Handle? && k == s.disp.id)
  {
    hide Next;
    forall k | k in Next(s, step).tasks ensures k in s.tasks || (step.Handle? && k == s.disp.id) {
      NewTask(s, step, k);
    }
  }

  lemma IssuedGrows(s: State, step: Step)
    requires Enabled(s, step)
    ensures s.issued <= Next(s, step).issued
  {
    hide Next, Enabled;
    if OfTasks(step) {
      TasksCount(s, step);
    } else {
      OthersCount(s, step);
    }
  }

  lemma GotIsCounted(s: State)
    requires Inv(s) && Enabled(s, Handle)
    ensures OpDone(s.disp.id) in s.issued
  {
    hide EntriesOk, TaskOk, OpsFresh, DoorsFresh, CancelOk, Counts, Announced;
    assert OpLine(s, s.disp.id);
  }

  lemma IdsGrow(s: State, step: Step)
    requires Enabled(s, step)
    ensures Next(s, step).nextId >= s.nextId
  {
    hide HandleOp, ClaimTarget, SwapTask;
    if step.Handle? {
      HandleSameIds(s);
    } else if step.Claim? || step.Swap? {
      ClaimKinds(s, step);
    }
  }

  lemma TellsOld(s: State, step: Step, k: nat)
    requires Enabled(s, step) && Reactor.Told(s, step) == Some(OpDone(k))
    ensures !step.SubmitAlloc?
  {
  }

  // ---------------------------------------------------------------- tasks without an entry

  lemma TaskStays(s: State, step: Step, k: nat)
    requires Enabled(s, step) && k in s.tasks && TaskOk(s, k) && (step.Handle? ==> k != s.disp.id)
    ensures k in Next(s, step).tasks && (Settled(s.tasks[k]) ==> Settled(Next(s, step).tasks[k]))
    ensures s.tasks[k].completed ==> Next(s, step).tasks[k].completed
  {
    hide HandleOp, ClaimTarget, SwapTask;
    if step.Handle? {
      HandleStays(s, k);
    } else if step.Claim? || step.Swap? {
      ClaimStays(s, step, k);
    }
  }

  lemma HandleStays(s: State, k: nat)
    requires Enabled(s, Handle) && k in s.tasks && k != s.disp.id
    ensures k in Next(s, Handle).tasks && Next(s, Handle).tasks[k] == s.tasks[k]
  {
  }

  lemma ClaimStays(s: State, step: Step, k: nat)
    requires Enabled(s, step) && (step.Claim? || step.Swap?) && k in s.tasks && TaskOk(s, k)
    ensures k in Next(s, step).tasks && (Settled(s.tasks[k]) ==> Settled(Next(s, step).tasks[k]))
    ensures s.tasks[k].completed ==> Next(s, step).tasks[k].completed
    ensures step.Claim? && k == s.disp.target ==> Next(s, step).tasks[k].completed
  {
    hide ClaimTarget, SwapTask;
    if step.Claim? {
      ClaimedTask(s, k);
    } else {
      SwappedTask(s, step.id, k);
    }
  }

  lemma ClaimedTask(s: State, k: nat)
    requires Enabled(s, Claim) && k in s.tasks
    ensures var t := ClaimTarget(s); k in t.tasks && t.tasks[k].pc == s.tasks[k].pc
    ensures ClaimTarget(s).tasks[k].completed <==> s.tasks[k].completed || k == s.disp.target
  {
  }

  lemma SwappedTask(s: State, id: nat, k: nat)
    requires TaskAt(s, id, Removed) && k in s.tasks
    ensures var t := SwapTask(s, id); k in t.tasks && (k != id ==> t.tasks[k] == s.tasks[k]) && (k == id ==> t.tasks[k].completed)
  {
  }

  /** What a step does to the map's entries and to the dispatcher's aim. */
  ghost predicate Drops(s: State, step: Step, t: State, k: nat)
  {
    || (k in s.entries ==> k in t.entries)
    || (step.Remove? && step.id == k)
    || Aims(t.disp, k)
  }

  lemma HandleDrops(s: State, k: nat)
    requires Enabled(s, Handle)
    ensures var t := Next(s, Handle);
      && Drops(s, Handle, t, k)
      && (k in t.tasks && k !in s.tasks ==> t.disp == Inserting(k))
      && (t.disp.Replying? ==>
            && s.kinds[s.disp.id].CancelWatch? && s.kinds[s.disp.id].target !in s.entries
            && t.tasks == s.tasks && t.disp.id == s.disp.id)
  {
  }

  lemma TasksDrop(s: State, step: Step, k: nat)
    requires Enabled(s, step) && !step.Handle?
    ensures var t := Next(s, step);
      && Drops(s, step, t, k)
      && (k in t.tasks ==> k in s.tasks)
      && (s.disp == Inserting(k) ==> t.disp == s.disp || k in t.entries)
      && (Aims(s.disp, k) ==> Aims(t.disp, k) || (step.Claim? && k == s.disp.target))
  {
    hide HandleOp, SwapTask, ClaimTarget;
    if step.Swap? {
      SwapIs(s, step.id);
    } else if step.Claim? {
      ClaimDrops(s);
    } else if !OfTasks(step) {
      OutsideTasks(s, step);
    }
  }

  lemma ClaimDrops(s: State)
    requires Enabled(s, Claim)
    ensures var t := Next(s, Claim); t.entries == s.entries && t.tasks.Keys == s.tasks.Keys && !t.disp.Aborted? && !t.disp.Took?
  {
  }

  lemma Removes(s: State, id: nat)
    requires Enabled(s, Remove(id))
    ensures id in Next(s, Remove(id)).tasks && Settled(Next(s, Remove(id)).tasks[id])
  {
  }

  lemma StepTells1(s: State, step: Step, k: nat)
    requires Enabled(s, step) && EntriesTell(s) && TaskOk(s, k) && k in Next(s, step).tasks
    requires step.Handle? ==> s.disp.id !in s.tasks
    ensures var t := Next(s, step); k !in t.entries && t.disp != Inserting(k) ==> Settled(t.tasks[k]) || Aims(t.disp, k)
  {
    hide Next, TaskOk, Settled;
    if step.Handle? {
      HandleDrops(s, k);
    } else {
      TasksDrop(s, step, k);
    }
    if k in s.tasks {
      TaskStays(s, step, k);
      if step.Remove? {
        Removes(s, step.id);
      }
      if step.Claim? {
        ClaimStays(s, step, k);
        ClaimSettles(Next(s, step).tasks[k]);
      }
    }
  }

  lemma ClaimSettles(t: Task)
    ensures t.completed ==> Settled(t)
  {
  }

  lemma StepClaims(s: State, step: Step)
    requires Enabled(s, step) && KindsOk(s) && EntriesTell(s) && forall k: nat :: TaskOk(s, k)
    ensures var t := Next(s, step); t.disp.Claimed? && t.disp.target in t.tasks ==> t.tasks[t.disp.target].completed
  {
    hide Next, EntriesTell, KindsOk, TaskOk;
    ClaimedIs(s, step);
    var t := Next(s, step);
    if t.disp.Claimed? {
      var k := t.disp.target;
      assert TaskOk(s, k);
      if step.Claim? {
        ClaimStays(s, step, k);
      } else {
        ClaimedBefore(s);
        TaskStays(s, step, k);
      }
    }
  }

  lemma ClaimedBefore(s: State)
    requires KindsOk(s) && EntriesTell(s) && s.disp.Claimed?
    ensures s.disp.target in s.tasks && s.tasks[s.disp.target].completed
  {
  }

  lemma ClaimedIs(s: State, step: Step)
    requires Enabled(s, step)
    ensures Next(s, step).disp.Claimed? ==>
      if step.Claim? then s.disp.target in s.tasks && Next(s, step).disp.target == s.disp.target else !step.Handle? && Next(s, step).disp == s.disp
  {
    hide SwapTask;
    if step.Swap? {
      SwapMoves(s, step.id);
    }
  }

  /** The op in the dispatcher's hands is not yet a task. */
  lemma GotIsNew(s: State)
    requires Past(s) && s.disp.Got?
    ensures s.disp.id !in s.tasks
  {
  }

  lemma StepEntries(s: State, step: Step)
    requires Enabled(s, step) && Inv(s) && CancelInv(s)
    ensures EntriesTell(Next(s, step))
  {
    hide Next, Inv, InLine, Past, KindsOk, EntriesTell, Answered, TaskOk, Settled;
    InvTasks(s);
    StepClaims(s, step);
    if step.Handle? {
      GotIsNew(s);
    }
    forall k | k in Next(s, step).tasks && k !in Next(s, step).entries && Next(s, step).disp != Inserting(k)
      ensures Settled(Next(s, step).tasks[k]) || Aims(Next(s, step).disp, k)
    {
      assert TaskOk(s, k);
      StepTells1(s, step, k);
    }
    AllTell(Next(s, step));
  }

  lemma AllTell(s: State)
    requires forall k :: k in s.tasks && k !in s.entries && s.disp != Inserting(k) ==> Settled(s.tasks[k]) || Aims(s.disp, k)
    requires s.disp.Claimed? && s.disp.target in s.tasks ==> s.tasks[s.disp.target].completed
    ensures EntriesTell(s)
  {
  }

  lemma InvTasks(s: State)
    requires Inv(s)
    ensures forall k: nat :: TaskOk(s, k)
  {
  }

  // ---------------------------------------------------------------- what has been answered

  /** A watch that was served stays served: its task stays settled, and no earlier op becomes a task any more. */
  lemma ServedStays(s: State, step: Step, c: nat)
    requires Enabled(s, step) && Inv(s) && KindsOk(s) && Served(s, c) && c in s.kinds
    requires step.Handle? ==> s.disp.id !in s.tasks && c <= s.disp.id
    ensures Served(Next(s, step), c)
  {
    hide Next, Inv, KindsOk, TaskOk, Settled;
    InvTasks(s);
    InvParts(s);
    StepKinds(s, step);
    KindIsOld(s, c);
    var t := Next(s, step);
    if s.kinds[c].CancelWatch? {
      var k := s.kinds[c].target;
      assert TaskOk(s, k);
      NewTask(s, step, k);
      if k in s.tasks && k < c {
        TaskStays(s, step, k);
      }
    }
  }

  lemma KindIsOld(s: State, c: nat)
    requires KindsOk(s) && c in s.kinds
    ensures c < s.nextId
  {
  }

  lemma NewTask(s: State, step: Step, k: nat)
    requires Enabled(s, step)
    ensures k in Next(s, step).tasks ==> k in s.tasks || (step.Handle? && k == s.disp.id)
  {
    hide Next;
    if step.Handle? {
      HandleDrops(s, k);
      InsertsOwn(s);
    } else {
      TasksDrop(s, step, k);
    }
  }

  lemma InsertsOwn(s: State)
    requires Enabled(s, Handle)
    ensures Next(s, Handle).disp.Inserting? ==> Next(s, Handle).disp.id == s.disp.id
  {
  }

  lemma OldAnswers(s: State, step: Step, c: nat)
    requires Enabled(s, step) && Inv(s) && CancelInv(s) && c in s.kinds && OpDone(c) in Sent(s)
    ensures Served(Next(s, step), c)
  {
    hide Next, Inv, KindsOk, Sent, Served, InLine, EntriesTell;
    if step.Handle? {
      GotIsNew(s);
      assert Behind(s, c);
    }
    assert Served(s, c);
    ServedStays(s, step, c);
  }

  /** An op that the dispatcher answers for a `CancelWatch` was served when it turned to the reply. */
  lemma RepliesServed(s: State, step: Step)
    requires Enabled(s, step) && Inv(s) && CancelInv(s) && Next(s, step).disp.Replying?
    ensures Served(Next(s, step), Next(s, step).disp.id)
  {
    hide Next, Inv, InLine, Past, Sent, Settled, TaskOk, Enabled;
    var t := Next(s, step);
    InvTasks(s);
    ReplyFrom(s, step);
    if step.Handle? {
      HandleReplies(s);
    } else if step.Claim? {
      ClaimReplies(s);
    } else if step.SendTarget? {
      SendReplies(s);
    } else {
      ReplyIsKind(s);
      ServedStays(s, step, s.disp.id);
    }
  }

  lemma ReplyIsKind(s: State)
    requires KindsOk(s) && s.disp.Replying?
    ensures s.disp.id in s.kinds
  {
  }

  lemma ReplyFrom(s: State, step: Step)
    requires Enabled(s, step)
    ensures Next(s, step).disp.Replying? ==> step.Handle? || step.Claim? || step.SendTarget? || Next(s, step).disp == s.disp
  {
    hide HandleOp, SwapTask, ClaimTarget;
    if step.Swap? {
      SwapMoves(s, step.id);
    }
  }

  lemma HandleReplies(s: State)
    requires Enabled(s, Handle) && Inv(s) && CancelInv(s) && Next(s, Handle).disp.Replying?
    ensures Served(Next(s, Handle), Next(s, Handle).disp.id)
  {
    hide Next, Inv, InLine, Past, Sent, Settled, Answered;
    InvParts(s);
    StepKinds(s, Handle);
    HandleDrops(s, 0);
  }

  lemma ClaimReplies(s: State)
    requires Enabled(s, Claim) && Inv(s) && CancelInv(s) && Next(s, Claim).disp.Replying?
    ensures Served(Next(s, Claim), Next(s, Claim).disp.id)
  {
    hide Next, Inv, InLine, Past, Sent, Answered, EntriesTell;
    InvParts(s);
    InvTasks(s);
    StepKinds(s, Claim);
    ClaimKinds(s, Claim);
    assert TaskOk(s, s.disp.target);
    ClaimStays(s, Claim, s.disp.target);
  }

  lemma SendReplies(s: State)
    requires Enabled(s, SendTarget) && Inv(s) && CancelInv(s)
    ensures Served(Next(s, SendTarget), s.disp.id) && Next(s, SendTarget).disp == Replying(s.disp.id)
  {
    hide Inv, InLine, Past, Sent, Answered;
    ClaimedBefore(s);
  }

  lemma StepAnswers(s: State, step: Step)
    requires Enabled(s, step) && Inv(s) && CancelInv(s)
    ensures Answered(Next(s, step))
  {
    hide Next, Inv, InLine, Past, KindsOk, EntriesTell, Sent, Served, Enabled, Reactor.Told;
    var t := Next(s, step);
    if t.disp.Replying? {
      RepliesServed(s, step);
    }
    InvParts(s);
    StepKinds(s, step);
    forall c: nat | OpDone(c) in Sent(t) ensures Served(t, c) {
      SentGrows(s, step, OpDone(c));
      if c !in t.kinds {
        NoKind(t, c);
      } else if OpDone(c) in Sent(s) {
        SentIsOld(s, c);
        OldAnswers(s, step, c);
      } else {
        TellsOld(s, step, c);
        NewAnswer(s, step, c);
      }
    }
  }

  lemma NoKind(s: State, c: nat)
    requires c !in s.kinds || !s.kinds[c].CancelWatch?
    ensures Served(s, c)
  {
  }

  lemma NewAnswer(s: State, step: Step, c: nat)
    requires Enabled(s, step) && Inv(s) && CancelInv(s) && c in s.kinds && Reactor.Told(s, step) == Some(OpDone(c))
    ensures Served(Next(s, step), c)
  {
    hide Next, Inv, InLine, Past, EntriesTell, Sent, Served;
    TellsPast(s, step, c);
    InvParts(s);
    TellsOld(s, step, c);
    StepKinds(s, step);
    if s.kinds[c].CancelWatch? {
      assert step.Reply? && c == s.disp.id;
      ServedStays(s, step, c);
    } else {
      NoKind(Next(s, step), c);
    }
  }

  // ---------------------------------------------------------------- every schedule

  lemma StepKeepsCancels(s: State, step: Step)
    requires Enabled(s, step) && Inv(s) && CancelInv(s)
    ensures CancelInv(Next(s, step))
  {
    hide Next, Inv, InLine, Past, KindsOk, EntriesTell, Answered;
    InvParts(s);
    StepInLine(s, step);
    StepKinds(s, step);
    StepPast(s, step);
    StepEntries(s, step);
    StepAnswers(s, step);
  }

  lemma InitialCancels()
    ensures CancelInv(Initial())
  {
  }

  lemma {:induction false} RunKeepsCancels(steps: seq<Step>)
    ensures CancelInv(Run(steps))
  {
    hide Inv, CancelInv, Next, Enabled, Initial;
    if steps == [] {
      InitialCancels();
    } else {
      var t, last := Run(steps[..|steps| - 1]), steps[|steps| - 1];
      RunKeeps(steps[..|steps| - 1]);
      RunKeepsCancels(steps[..|steps| - 1]);
      if Enabled(t, last) {
        StepKeepsCancels(t, last);
      }
    }
  }

  /**
   Under every schedule: once the cancellation of an earlier watch has been announced, that watch has been claimed,
   so that it is announced too, or its task is at the swap that claims it.  One that has not run its course by
   itself has been aborted.
   */
  lemma CancelledIsSettled(steps: seq<Step>, c: nat, k: nat)
    requires var s := Run(steps);
      OpDone(c) in Sent(s) && c in s.kinds && s.kinds[c] == CancelWatch(k) && k < c && k in s.tasks
    ensures var s := Run(steps);
      && (s.tasks[k].completed || s.tasks[k].pc == Removed)
      && (s.tasks[k].aborted || s.tasks[k].pc == Removed || s.tasks[k].pc == Won || s.tasks[k].pc == Ended)
      && (OpDone(k) in Sent(s) || s.tasks[k].pc == Removed || s.tasks[k].pc == Won || (s.disp.Claimed? && s.disp.target == k))
  {
    hide Run, Inv, InLine, Past, KindsOk, EntriesTell, Sent;
    var s := Run(steps);
    RunKeeps(steps);
    RunKeepsCancels(steps);
    assert Served(s, c);
    InvTasks(s);
    assert TaskOk(s, k);
    if s.tasks[k].completed && s.tasks[k].pc != Won {
      TaskIsAnnounced(s, k);
    }
  }

  /** Nobody but the task, or a canceller that has claimed it, can still owe its announcement. */
  lemma TaskIsAnnounced(s: State, k: nat)
    requires Inv(s) && CancelInv(s) && k in s.tasks && s.tasks[k].completed && s.tasks[k].pc != Won
    ensures OpDone(k) in Sent(s) || (s.disp.Claimed? && s.disp.target == k)
  {
    hide EntriesOk, TaskOk, OpsFresh, DoorsFresh, CancelOk, Counts, EntriesTell, Answered, InLine, Sent;
    assert OpLine(s, k);
    assert Behind(s, k);
    assert k !in s.queue;
    AnnouncedIsSent(s, OpDone(k));
  }

  lemma AnnouncedIsSent(s: State, t: Token)
    ensures Announced(s, t) > 0 ==> t in Sent(s)
  {
  }

  // ---------------------------------------------------------------- what is left in the map

  predicate PastAwait(s: State, k: nat)
  {
    k in s.tasks && (s.tasks[k].pc == Removed || s.tasks[k].pc == Won || s.tasks[k].pc == Ended)
  }

  /** Step j inserted the entry of op k when its task had already removed it. */
  ghost predicate InsertedLate(steps: seq<Step>, j: nat, k: nat)
  {
    j < |steps| && steps[j] == Insert && Run(steps[..j]).disp == Inserting(k) && PastAwait(Run(steps[..j]), k)
  }

  lemma EntryStep(s: State, step: Step, k: nat)
    requires Enabled(s, step) && KindsOk(s) && k in Next(s, step).entries && PastAwait(Next(s, step), k)
    ensures (k in s.entries && PastAwait(s, k)) || (step == Insert && s.disp == Inserting(k) && PastAwait(s, k))
  {
    hide HandleOp, ClaimTarget, SwapTask, KindsOk;
    if step.Handle? {
      HandleEntries(s, k);
    } else if step.Claim? {
      ClaimEntries(s, k);
    } else if step.Swap? {
      SwapIs(s, step.id);
    }
  }

  lemma HandleEntries(s: State, k: nat)
    requires Enabled(s, Handle)
    ensures var t := Next(s, Handle); (k in t.entries ==> k in s.entries) && (PastAwait(t, k) ==> PastAwait(s, k))
  {
  }

  lemma ClaimEntries(s: State, k: nat)
    requires Enabled(s, Claim)
    ensures var t := Next(s, Claim); t.entries == s.entries && (PastAwait(t, k) ==> PastAwait(s, k))
  {
  }

  /**
   What can stay behind in the map of cancellable tasks: under every schedule, the entry of a task past its await is
   one that the dispatcher put in only after the task had taken it out.
   */
  lemma {:induction false} StaleEntryIsLate(steps: seq<Step>, k: nat)
    requires k in Run(steps).entries && PastAwait(Run(steps), k)
    ensures exists j: nat :: InsertedLate(steps, j, k)
  {
    hide Run, Next, Enabled, PastAwait, KindsOk, InLine, Past, EntriesTell, Answered;
    if steps == [] {
      NothingYet(k);
    } else {
      var front, last := steps[..|steps| - 1], steps[|steps| - 1];
      RunStep(steps);
      RunKeepsCancels(front);
      if Enabled(Run(front), last) {
        EntryStep(Run(front), last, k);
      }
      if k in Run(front).entries && PastAwait(Run(front), k) {
        StaleEntryIsLate(front, k);
        var j: nat :| InsertedLate(front, j, k);
        assert front[..j] == steps[..j];
        assert InsertedLate(steps, j, k);
      } else {
        assert InsertedLate(steps, |front|, k);
      }
    }
  }

  lemma NothingYet(k: nat)
    ensures k !in Run([]).entries
  {
  }

  function Steps(s: State, steps: seq<Step>): State
    decreases |steps|
  {
    if steps == [] then s
    else Steps(if Enabled(s, steps[0]) then Next(s, steps[0]) else s, steps[1..])
  }

  lemma {:induction false} RunOn(front: seq<Step>, rest: seq<Step>)
    ensures Run(front + rest) == Steps(Run(front), rest)
    decreases |rest|
  {
    hide Next, Enabled;
    if rest == [] {
      assert front + rest == front;
    } else {
      var one := front + [rest[0]];
      assert one[..|one| - 1] == front && front + rest == one + rest[1..];
      RunStep(one);
      RunOn(one, rest[1..]);
    }
  }

  const SUBMIT: seq<Step> := [SubmitAlloc(Timer), SubmitCount, SubmitSend, Recv, Handle]
  const RACE: seq<Step> := [Wake(1), Remove(1), Swap(1), Send(1), Insert]

  /** The dispatcher has spawned the timer's task, whose entry is not in the map yet. */
  function Spawned(task: Task, channel: seq<Token>): State
  {
    State(2, 1, map[1 := Timer], [], channel, [], [], InPhp, Inserting(1), {}, map[1 := task], {}, {}, {}, map[], {}, map[], {OpDone(1)})
  }

  /** The first five steps leave these states behind. */
  function Submitted(n: nat): State
  {
    var a := Initial().(nextId := 2, kinds := map[1 := Timer], php := Counting(1));
    var c := a.(inflight := 1, issued := {OpDone(1)}, php := InPhp);
    if n == 0 then Initial() else if n == 1 then a else if n == 2 then c.(php := Sending(1))
    else if n == 3 then c.(queue := [1]) else c.(disp := Got(1))
  }

  lemma SubmitsOne()
    ensures forall k :: 0 <= k < 2 ==> Enabled(Submitted(k), SUBMIT[k]) && Next(Submitted(k), SUBMIT[k]) == Submitted(k + 1)
  {
    assert Next(Submitted(0), SUBMIT[0]) == Submitted(1);
    assert Submitted(1).issued + {OpDone(1)} == {OpDone(1)};
    assert Next(Submitted(1), SUBMIT[1]) == Submitted(2);
  }

  lemma SubmitsTwo()
    ensures forall k :: 2 <= k < 4 ==> Enabled(Submitted(k), SUBMIT[k]) && Next(Submitted(k), SUBMIT[k]) == Submitted(k + 1)
  {
    assert Next(Submitted(2), SUBMIT[2]) == Submitted(3);
    assert Next(Submitted(3), SUBMIT[3]) == Submitted(4);
  }

  lemma SubmitsThree()
    ensures Enabled(Submitted(4), SUBMIT[4]) && Next(Submitted(4), SUBMIT[4]) == Spawned(Task(AtAwait, false, false), [])
  {
  }

  lemma SubmitsTimer()
    ensures Steps(Initial(), SUBMIT) == Spawned(Task(AtAwait, false, false), [])
  {
    hide Next, Enabled, Steps, Submitted, Spawned, Initial;
    SubmitsOne();
    SubmitsTwo();
    SubmitsThree();
    StartsEmpty();
    FiveSteps(Submitted(0), Submitted(1), Submitted(2), Submitted(3), Submitted(4), SUBMIT);
  }

  lemma StartsEmpty()
    ensures Submitted(0) == Initial()
  {
  }

  lemma FiveSteps(s: State, a: State, b: State, c: State, d: State, steps: seq<Step>)
    requires |steps| == 5 && Enabled(s, steps[0]) && Next(s, steps[0]) == a && Enabled(a, steps[1]) && Next(a, steps[1]) == b
    requires Enabled(b, steps[2]) && Next(b, steps[2]) == c && Enabled(c, steps[3]) && Next(c, steps[3]) == d && Enabled(d, steps[4])
    ensures Steps(s, steps) == Next(d, steps[4])
  {
    hide Next, Enabled;
    assert Steps(a, steps[1..]) == Steps(b, steps[1..][1..]) && steps[1..][1..] == steps[2..];
    assert Steps(b, steps[2..]) == Steps(c, steps[2..][1..]) && steps[2..][1..] == steps[3..];
    assert Steps(c, steps[3..]) == Steps(d, steps[3..][1..]) && steps[3..][1..] == steps[4..];
    assert Steps(d, steps[4..]) == Steps(Next(d, steps[4]), []) && steps[4..][1..] == [];
  }

  lemma RacesOne()
    ensures var s := Spawned(Task(AtAwait, false, false), []);
      var a, b := Spawned(Task(Woke, false, false), []), Spawned(Task(Removed, false, false), []);
      Enabled(s, RACE[0]) && Next(s, RACE[0]) == a && Enabled(a, RACE[1]) && Next(a, RACE[1]) == b
  {
  }

  lemma RacesTwo()
    ensures var b, c := Spawned(Task(Removed, false, false), []), Spawned(Task(Won, true, false), []);
      var d := Spawned(Task(Ended, true, false), [OpDone(1)]);
      Enabled(b, RACE[2]) && Next(b, RACE[2]) == c && Enabled(c, RACE[3]) && Next(c, RACE[3]) == d
  {
  }

  lemma RacesThree()
    ensures var d := Spawned(Task(Ended, true, false), [OpDone(1)]); Enabled(d, RACE[4]) && Next(d, RACE[4]) == d.(entries := {1}, disp := Waiting)
  {
  }

  lemma RacesAhead()
    ensures Steps(Spawned(Task(AtAwait, false, false), []), RACE) == Spawned(Task(Ended, true, false), [OpDone(1)]).(entries := {1}, disp := Waiting)
  {
    hide Next, Enabled, Steps, Spawned;
    RacesOne();
    RacesTwo();
    RacesThree();
    FiveSteps(Spawned(Task(AtAwait, false, false), []), Spawned(Task(Woke, false, false), []), Spawned(Task(Removed, false, false), []),
              Spawned(Task(Won, true, false), []), Spawned(Task(Ended, true, false), [OpDone(1)]), RACE);
  }

  /** A timer whose task is done before the dispatcher has put its entry in: announced, and still in the map. */
  lemma StaleEntryIsReached()
    ensures var s := Run(SUBMIT + RACE); 1 in s.entries && PastAwait(s, 1) && s.channel == [OpDone(1)]
  {
    hide Steps;
    RunOn([], SUBMIT);
    assert [] + SUBMIT == SUBMIT;
    SubmitsTimer();
    RunOn(SUBMIT, RACE);
    RacesAhead();
    NothingRun();
  }

  lemma NothingRun()
    ensures Run([]) == Initial()
  {
  }
}
