/**
 Timeouts of parked waits: the saturating conversions between C's time types, and the loop that parks a
 `poll` again after a wake the kernel then denies.  What the clock, the reactor and the kernel answer is
 an input, and the properties are about every honest one.
 */
module ParkTimeout {
  import opened Prelude

  const I64_MIN: int := -0x8000_0000_0000_0000
  const I64_MAX: int := 0x7fff_ffff_ffff_ffff
  const U64_MAX: int := 0xffff_ffff_ffff_ffff
  const INT_MAX: int := 0x7fff_ffff
  const UINT_MAX: int := 0xffff_ffff

  predicate I64(x: int)
  {
    I64_MIN <= x <= I64_MAX
  }

  function Clamp(x: int, low: int, high: int): int
  {
    if x < low then low else if x > high then high else x
  }

  /** `saturating_add` and `saturating_mul` on i64. */
  function Saturate(x: int): int
  {
    Clamp(x, I64_MIN, I64_MAX)
  }

  /** Division that truncates toward zero. */
  function Quotient(a: int, b: int): int
    requires b > 0
  {
    if a >= 0 then a / b else -((-a) / b)
  }

  function MillisecondsCeil(seconds: int, subSecond: int, unitsPerMillisecond: int): int
    requires unitsPerMillisecond > 0
  {
    var whole := Saturate(seconds * 1000);
    var remainder := Quotient(Saturate(subSecond + (unitsPerMillisecond - 1)), unitsPerMillisecond);
    Clamp(Saturate(whole + remainder), 0, INT_MAX)
  }

  /** The least number of milliseconds not below this many units. */
  ghost predicate IsCeiling(ms: int, units: int, unitsPerMillisecond: int)
  {
    (ms - 1) * unitsPerMillisecond < units <= ms * unitsPerMillisecond
  }

  /** For every i64 second and valid sub-second part: the mathematical ceiling, clamped to what a C int can say. */
  lemma CeilingIsExact(seconds: int, subSecond: int, unit: int)
    requires I64(seconds) && 0 < unit <= 1_000_000 && 0 <= subSecond < 1000 * unit
    ensures exists ms :: IsCeiling(ms, seconds * 1000 * unit + subSecond, unit) && MillisecondsCeil(seconds, subSecond, unit) == Clamp(ms, 0, INT_MAX)
  {
    var part := (subSecond + (unit - 1)) / unit;
    PartIsCeiling(subSecond, unit);
    var ms := seconds * 1000 + part;
    assert (ms - 1) * unit == seconds * 1000 * unit + (part - 1) * unit;
    assert ms * unit == seconds * 1000 * unit + part * unit;
    assert Saturate(subSecond + (unit - 1)) == subSecond + (unit - 1);
    assert MillisecondsCeil(seconds, subSecond, unit) == Clamp(Saturate(Saturate(seconds * 1000) + part), 0, INT_MAX);
    assert IsCeiling(ms, seconds * 1000 * unit + subSecond, unit) && MillisecondsCeil(seconds, subSecond, unit) == Clamp(ms, 0, INT_MAX);
  }

  lemma PartIsCeiling(subSecond: int, unit: int)
    requires 0 < unit && 0 <= subSecond < 1000 * unit
    ensures var part := (subSecond + (unit - 1)) / unit; 0 <= part <= 1000 && IsCeiling(part, subSecond, unit)
  {
    var part := (subSecond + (unit - 1)) / unit;
    var rest := (subSecond + (unit - 1)) % unit;
    assert part * unit + rest == subSecond + (unit - 1);
    Cancels(part, 1001, unit);
  }

  lemma Cancels(a: int, b: int, unit: int)
    requires unit > 0
    ensures a * unit < b * unit ==> a < b
  {
    if a >= b {
      assert a * unit >= b * unit;
    }
  }

  /** For `nanosleep`: None hands an interval POSIX refuses to the system call. */
  function MicrosecondsOf(seconds: int, nanoseconds: int): Option<int>
  {
    if seconds < 0 || !(0 <= nanoseconds < 1_000_000_000) then None
    else Some(Min(Min(seconds * 1_000_000, U64_MAX) + nanoseconds / 1000, U64_MAX))
  }

  /** Every interval an i64 of seconds can express that is valid and below 2^64 us is slept to the microsecond. */
  lemma MicrosecondsAreExact(seconds: int, nanoseconds: int)
    requires I64(seconds)
    ensures MicrosecondsOf(seconds, nanoseconds).Some? <==> seconds >= 0 && 0 <= nanoseconds < 1_000_000_000
    ensures MicrosecondsOf(seconds, nanoseconds).Some? ==>
      var us, total := MicrosecondsOf(seconds, nanoseconds).value, seconds * 1_000_000_000 + nanoseconds;
      && us <= U64_MAX && us * 1000 <= total
      && (us < U64_MAX ==> total < us * 1000 + 1000)
  {
  }

  function UnsleptSeconds(result: int, seconds: int, nanoseconds: int): int
  {
    if result == 0 then 0
    else
      var whole := Max(seconds, 0);
      Clamp(if nanoseconds > 0 then Saturate(whole + 1) else whole, 0, UINT_MAX)
  }

  /** An interrupted sleep owes the rest rounded up, as far as an unsigned int can say, and never claims to be done. */
  lemma UnsleptRoundsUp(result: int, seconds: int, nanoseconds: int)
    requires I64(seconds) && 0 <= seconds && 0 <= nanoseconds < 1_000_000_000
    ensures var owed := UnsleptSeconds(result, seconds, nanoseconds);
      && (result == 0 ==> owed == 0)
      && (result != 0 ==> (owed == 0 <==> seconds == 0 && nanoseconds == 0))
      && (result != 0 && owed < UINT_MAX ==>
            (owed - 1) * 1_000_000_000 < seconds * 1_000_000_000 + nanoseconds <= owed * 1_000_000_000)
      && (result != 0 && owed == UINT_MAX ==> seconds * 1_000_000_000 + nanoseconds > (UINT_MAX - 1) * 1_000_000_000)
  {
  }

  // ---------------------------------------------------------------- poll

  /** What ended a park: a descriptor, the timer, or parking was not possible and the kernel blocked instead. */
  datatype Wake = ByFd | ByTimer | NoPark

  /** What a system call answered, and how many microseconds after the start of the clock. */
  datatype Reply = Reply(answer: int, at: nat)

  /** One pass of the loop: the microseconds elapsed at its head, then what happened and what the kernel said. */
  datatype Round = Round(now: nat, wake: Wake, reply: Reply)

  /**
   What one call meets: whether this call site parks, the kernel's reply to the call as it was made, its
   reply to the first probe, when the loop's own clock was started, and the rounds, timed by that clock.
   */
  datatype Calls = Calls(parks: bool, forwarded: Reply, probe: Reply, started: nat, rounds: seq<Round>)

  /** The wait the loop asks for. */
  function Left(timeout: int, now: nat): int
  {
    if timeout < 0 then -1 else Min(timeout - now / 1000, INT_MAX)
  }

  predicate Expired(timeout: int, now: nat)
  {
    timeout >= 0 && timeout - now / 1000 <= 0
  }

  /** A blocking `poll` answers 0 only after its timeout. */
  predicate HonestBlock(timeout: int, reply: Reply)
  {
    reply.answer == 0 ==> timeout >= 0 && reply.at >= timeout * 1000
  }

  /** A timer never fires early, nor does a blocking call, and time does not run back. */
  predicate HonestRound(timeout: int, r: Round, since: nat)
  {
    && since <= r.now <= r.reply.at
    && (!Expired(timeout, r.now) && r.wake == ByTimer ==> Left(timeout, r.now) > 0 && r.reply.at >= r.now + Left(timeout, r.now) * 1000)
    && (!Expired(timeout, r.now) && r.wake == NoPark && r.reply.answer == 0 ==>
          Left(timeout, r.now) >= 0 && r.reply.at >= r.now + Left(timeout, r.now) * 1000)
  }

  predicate HonestRounds(timeout: int, rounds: seq<Round>, since: nat)
  {
    rounds != [] ==> HonestRound(timeout, rounds[0], since) && HonestRounds(timeout, rounds[1..], rounds[0].reply.at)
  }

  predicate Honest(timeout: int, calls: Calls)
  {
    HonestBlock(timeout, calls.forwarded) && HonestRounds(timeout, calls.rounds, 0)
  }

  /** The loop's reply; None while it is still parked when the rounds run out. */
  function Looped(timeout: int, rounds: seq<Round>): Option<Reply>
  {
    if rounds == [] then None
    else
      var r := rounds[0];
      if Expired(timeout, r.now) || r.wake != ByFd || r.reply.answer != 0 then Some(r.reply) else Looped(timeout, rounds[1..])
  }

  function Later(reply: Option<Reply>, start: nat): Option<Reply>
  {
    if reply.None? then None else Some(Reply(reply.value.answer, start + reply.value.at))
  }

  /** A call over n descriptors: forwarded as it is, answered by the probe, or parked. */
  function Poll(n: nat, timeout: int, calls: Calls): Option<Reply>
  {
    if !calls.parks || timeout == 0 || n == 0 then Some(calls.forwarded)
    else if calls.probe.answer != 0 then Some(calls.probe)
    else Later(Looped(timeout, calls.rounds), calls.started)
  }

  method PollImpl(n: nat, timeout: int, calls: Calls) returns (reply: Option<Reply>)
    ensures reply == Poll(n, timeout, calls)
  {
    if !calls.parks {
      return Some(calls.forwarded);
    }
    if timeout == 0 || n == 0 {
      return Some(calls.forwarded);
    }
    if calls.probe.answer != 0 {
      return Some(calls.probe);
    }
    var k := 0;
    while k < |calls.rounds|
      invariant k <= |calls.rounds| && Looped(timeout, calls.rounds[k..]) == Looped(timeout, calls.rounds)
    {
      var round := calls.rounds[k];
      var answered := Later(Some(round.reply), calls.started);
      if timeout >= 0 {
        var remaining := timeout - round.now / 1000;
        if remaining <= 0 {
          return answered;
        }
      }
      match round.wake {
        case ByFd =>
          if round.reply.answer != 0 {
            return answered;
          }
        case ByTimer => return answered;
        case NoPark => return answered;
      }
      k := k + 1;
    }
    return None;
  }

  /** Whatever wakes it however often, 0 is answered only once the timeout is over, and never without one. */
  lemma NeverEarly(n: nat, timeout: int, calls: Calls)
    requires -INT_MAX - 1 <= timeout <= INT_MAX && Honest(timeout, calls)
    requires Poll(n, timeout, calls).Some? && Poll(n, timeout, calls).value.answer == 0
    ensures timeout >= 0 && Poll(n, timeout, calls).value.at >= timeout * 1000
  {
    if calls.parks && timeout != 0 && n != 0 {
      LoopNeverEarly(timeout, calls.rounds, 0);
    }
  }

  lemma {:induction false} LoopNeverEarly(timeout: int, rounds: seq<Round>, since: nat)
    requires timeout != 0 && -INT_MAX - 1 <= timeout <= INT_MAX && HonestRounds(timeout, rounds, since)
    requires Looped(timeout, rounds).Some? && Looped(timeout, rounds).value.answer == 0
    ensures timeout > 0 && Looped(timeout, rounds).value.at >= timeout * 1000
  {
    var r := rounds[0];
    if !Expired(timeout, r.now) && r.wake == ByFd && r.reply.answer == 0 {
      LoopNeverEarly(timeout, rounds[1..], r.reply.at);
    } else {
      FloorBelow(r.now);
    }
  }

  lemma FloorBelow(us: nat)
    ensures us / 1000 * 1000 <= us < us / 1000 * 1000 + 1000
  {
  }

  /** The reply is the kernel's own: to the call as it was made, to the probe, or after nothing but wakes it denied. */
  lemma AnswerIsTheKernels(n: nat, timeout: int, calls: Calls)
    requires Poll(n, timeout, calls).Some?
    ensures var reply := Poll(n, timeout, calls).value;
      || reply == calls.forwarded
      || (reply == calls.probe && reply.answer != 0)
      || exists k :: 0 <= k < |calls.rounds| && reply == Reply(calls.rounds[k].reply.answer, calls.started + calls.rounds[k].reply.at)
                     && forall j :: 0 <= j < k ==> calls.rounds[j].wake == ByFd && calls.rounds[j].reply.answer == 0
  {
    if calls.parks && timeout != 0 && n != 0 && calls.probe.answer == 0 {
      LoopAnswersAsTheKernel(timeout, calls.rounds);
    }
  }

  lemma {:induction false} LoopAnswersAsTheKernel(timeout: int, rounds: seq<Round>)
    requires Looped(timeout, rounds).Some?
    ensures exists k :: 0 <= k < |rounds| && Looped(timeout, rounds).value == rounds[k].reply
                     && forall j :: 0 <= j < k ==> rounds[j].wake == ByFd && rounds[j].reply.answer == 0
  {
    var r := rounds[0];
    if !Expired(timeout, r.now) && r.wake == ByFd && r.reply.answer == 0 {
      LoopAnswersAsTheKernel(timeout, rounds[1..]);
      var k :| 0 <= k < |rounds[1..]| && Looped(timeout, rounds[1..]).value == rounds[1..][k].reply
            && forall j :: 0 <= j < k ==> rounds[1..][j].wake == ByFd && rounds[1..][j].reply.answer == 0;
      forall j | 0 <= j < k + 1 ensures rounds[j].wake == ByFd && rounds[j].reply.answer == 0 {
        assert j > 0 ==> rounds[j] == rounds[1..][j - 1];
      }
      assert rounds[k + 1] == rounds[1..][k];
    } else {
      assert Looped(timeout, rounds).value == rounds[0].reply;
    }
  }

  /**
   A call that waits at a site that parks never leaves the wait to the kernel, and is answered unless every wake so
   far came before the deadline and was denied.
   */
  lemma WaitsAreParkedExactly(n: nat, timeout: int, calls: Calls)
    ensures (forall other: Reply :: Poll(n, timeout, calls.(forwarded := other)) == Poll(n, timeout, calls))
            <==> calls.parks && timeout != 0 && n != 0
    ensures Poll(n, timeout, calls) == None <==>
            && calls.parks && timeout != 0 && n != 0 && calls.probe.answer == 0
            && forall k :: 0 <= k < |calls.rounds| ==> Denied(timeout, calls.rounds[k])
  {
    var other := Reply(calls.forwarded.answer + 1, 0);
    if !calls.parks || timeout == 0 || n == 0 {
      assert Poll(n, timeout, calls.(forwarded := other)) != Poll(n, timeout, calls);
    }
    LoopsExactly(timeout, calls.rounds);
  }

  /** A wake before the deadline by a descriptor that the kernel then finds unready. */
  predicate Denied(timeout: int, r: Round)
  {
    !Expired(timeout, r.now) && r.wake == ByFd && r.reply.answer == 0
  }

  lemma {:induction false} LoopsExactly(timeout: int, rounds: seq<Round>)
    ensures Looped(timeout, rounds) == None <==> forall k :: 0 <= k < |rounds| ==> Denied(timeout, rounds[k])
  {
    if rounds != [] {
      LoopsExactly(timeout, rounds[1..]);
      assert forall k :: 0 <= k < |rounds| ==> rounds[k] == if k == 0 then rounds[0] else rounds[1..][k - 1];
    }
  }

  /** Parking again neither shortens nor stretches the wait: every timer is due within a millisecond after the deadline. */
  lemma TimerDueAtDeadline(timeout: int, now: nat)
    requires 0 < timeout <= INT_MAX && !Expired(timeout, now)
    ensures Left(timeout, now) > 0
    ensures timeout * 1000 <= now + Left(timeout, now) * 1000 < timeout * 1000 + 1000
  {
    FloorBelow(now);
  }

  // ---------------------------------------------------------------- ppoll

  /** A valid `timespec`. */
  datatype Interval = Interval(seconds: int, nanoseconds: int)

  predicate Valid(i: Interval)
  {
    I64(i.seconds) && 0 <= i.seconds && 0 <= i.nanoseconds < 1_000_000_000
  }

  /** With a signal mask the wait stays the kernel's; otherwise the interval is turned into milliseconds. */
  function Ppoll(n: nat, interval: Option<Interval>, kernel: Option<Reply>, calls: Calls): Option<Reply>
  {
    if kernel.Some? then kernel else Poll(n, TimeoutOf(interval), calls)
  }

  function TimeoutOf(interval: Option<Interval>): int
  {
    if interval.None? then -1 else MillisecondsCeil(interval.value.seconds, interval.value.nanoseconds, 1_000_000)
  }

  /** The whole interval is over, or the longest wait a C int of milliseconds holds. */
  predicate OnTime(interval: Option<Interval>, at: nat)
  {
    interval.Some? && at * 1000 >= Min(interval.value.seconds * 1_000_000_000 + interval.value.nanoseconds, INT_MAX * 1_000_000)
  }

  lemma TimeoutCovers(interval: Option<Interval>, at: nat)
    requires interval.Some? ==> Valid(interval.value)
    ensures TimeoutOf(interval) >= 0 && at >= TimeoutOf(interval) * 1000 ==> OnTime(interval, at)
    ensures -1 <= TimeoutOf(interval) <= INT_MAX
    ensures TimeoutOf(interval) == 0 <==> interval == Some(Interval(0, 0))
  {
    if interval.Some? {
      var i := interval.value;
      CeilingIsExact(i.seconds, i.nanoseconds, 1_000_000);
      var ms :| IsCeiling(ms, i.seconds * 1000 * 1_000_000 + i.nanoseconds, 1_000_000) && TimeoutOf(interval) == Clamp(ms, 0, INT_MAX);
    }
  }

  lemma PpollNeverEarly(n: nat, interval: Option<Interval>, kernel: Option<Reply>, calls: Calls)
    requires interval.Some? ==> Valid(interval.value)
    requires Honest(TimeoutOf(interval), calls)
    requires kernel.Some? && kernel.value.answer == 0 ==> OnTime(interval, kernel.value.at)
    requires var p := Ppoll(n, interval, kernel, calls); p.Some? && p.value.answer == 0
    ensures OnTime(interval, Ppoll(n, interval, kernel, calls).value.at)
  {
    TimeoutCovers(interval, Ppoll(n, interval, kernel, calls).value.at);
    if kernel.None? {
      NeverEarly(n, TimeoutOf(interval), calls);
    }
  }

  // ---------------------------------------------------------------- select

  /** Which of the caller's three sets a descriptor is in. */
  datatype Interest = Interest(read: bool, write: bool, except: bool)

  predicate Watched(i: Interest)
  {
    i.read || i.write
  }

  predicate OnlyExceptions(i: Interest)
  {
    !Watched(i) && i.except
  }

  /** What one call meets: `blocked` is the reply to the call as it was made, made after the first probe. */
  datatype SelectCalls = SelectCalls(parks: bool, forwarded: Reply, probe: Reply, blocked: Reply, wake: Wake, filled: Reply)

  /** The descriptors to watch; None if one of them is wanted for exceptions only. */
  function Collect(interests: seq<Interest>): Option<seq<nat>>
  {
    if interests == [] then Some([])
    else
      var n := |interests| - 1;
      match Collect(interests[..n])
      case None => None
      case Some(fds) =>
        if OnlyExceptions(interests[n]) then None
        else Some(fds + if Watched(interests[n]) then [n] else [])
  }

  /** `select` over the descriptors 0 to |interests| - 1: it parks at most once, and its last probe is the answer. */
  function Select(interests: seq<Interest>, timeout: int, calls: SelectCalls): Reply
  {
    if !calls.parks || interests == [] || timeout == 0 then calls.forwarded
    else if calls.probe.answer != 0 then calls.probe
    else
      match Collect(interests)
      case None => calls.blocked
      case Some(fds) =>
        // park_pollfds: nothing to wait for is no park
        if (fds == [] && timeout <= 0) || calls.wake == NoPark then calls.blocked else calls.filled
  }

  method SelectImpl(interests: seq<Interest>, timeout: int, calls: SelectCalls) returns (reply: Reply)
    ensures reply == Select(interests, timeout, calls)
  {
    if !calls.parks {
      return calls.forwarded;
    }
    if interests == [] || timeout == 0 {
      return calls.forwarded;
    }
    if calls.probe.answer != 0 {
      return calls.probe;
    }
    var fds := [];
    for fd := 0 to |interests|
      invariant Collect(interests[..fd]) == Some(fds)
    {
      assert interests[..fd + 1][..fd] == interests[..fd] && fds + [] == fds;
      var events := interests[fd].read || interests[fd].write;
      if !events && interests[fd].except {
        ExceptionStays(interests, fd + 1);
        return calls.blocked;
      }
      if events {
        fds := fds + [fd];
      }
    }
    assert interests[..|interests|] == interests;
    if fds == [] && timeout <= 0 {
      return calls.blocked;
    }
    match calls.wake {
      case ByFd => return calls.filled;
      case ByTimer => return calls.filled;
      case NoPark => return calls.blocked;
    }
  }

  lemma {:induction false} ExceptionStays(interests: seq<Interest>, k: nat)
    requires k <= |interests| && Collect(interests[..k]) == None
    ensures Collect(interests) == None
  {
    if k == |interests| {
      assert interests[..k] == interests;
    } else {
      assert interests[..|interests| - 1][..k] == interests[..k];
      ExceptionStays(interests[..|interests| - 1], k);
    }
  }

  lemma {:induction false} CollectExactly(interests: seq<Interest>)
    ensures Collect(interests).None? <==> exists k :: 0 <= k < |interests| && OnlyExceptions(interests[k])
    ensures Collect(interests).Some? ==>
      (Collect(interests).value == [] <==> forall k :: 0 <= k < |interests| ==> !Watched(interests[k]))
  {
    hide Watched, OnlyExceptions;
    if interests != [] {
      var n := |interests| - 1;
      CollectExactly(interests[..n]);
      assert forall k :: 0 <= k < n ==> interests[..n][k] == interests[k];
    }
  }

  /**
   The kernel answers 0 to a blocking call only when its time is up, a timer is set only with a timeout and
   never fires early, and a descriptor can only end a park that watches one.
   */
  ghost predicate HonestSelect(interests: seq<Interest>, interval: Option<Interval>, calls: SelectCalls)
  {
    && (calls.forwarded.answer == 0 ==> OnTime(interval, calls.forwarded.at))
    && (calls.blocked.answer == 0 ==> OnTime(interval, calls.blocked.at))
    && (calls.wake == ByTimer ==> TimeoutOf(interval) > 0 && calls.filled.at >= TimeoutOf(interval) * 1000)
    && (calls.wake == ByFd ==> exists k :: 0 <= k < |interests| && Watched(interests[k]))
  }

  ghost predicate MayBeEarly(parks: bool, interests: seq<Interest>, interval: Option<Interval>)
  {
    exists calls: SelectCalls ::
      && calls.parks == parks && HonestSelect(interests, interval, calls)
      && var reply := Select(interests, TimeoutOf(interval), calls); reply.answer == 0 && !OnTime(interval, reply.at)
  }

  /**
   Unlike `poll`, `select` does not park again: it can answer 0 before its time is up exactly when the call
   site parks, the caller is prepared to wait, some descriptor is watched for reading or writing, and none is
   wanted for exceptions only.
   */
  lemma SelectIsEarlyExactly(parks: bool, interests: seq<Interest>, interval: Option<Interval>)
    requires interval.Some? ==> Valid(interval.value)
    ensures MayBeEarly(parks, interests, interval) <==>
      && parks && interval != Some(Interval(0, 0))
      && (exists k :: 0 <= k < |interests| && Watched(interests[k]))
      && (forall k :: 0 <= k < |interests| ==> !OnlyExceptions(interests[k]))
  {
    CollectExactly(interests);
    TimeoutCovers(interval, 0);
    var early := SelectCalls(parks, Reply(-1, 0), Reply(0, 0), Reply(-1, 0), ByFd, Reply(0, 0));
    var condition :=
      && parks && interval != Some(Interval(0, 0))
      && (exists k :: 0 <= k < |interests| && Watched(interests[k]))
      && (forall k :: 0 <= k < |interests| ==> !OnlyExceptions(interests[k]));
    if condition {
      assert HonestSelect(interests, interval, early) && !OnTime(interval, 0);
      assert Select(interests, TimeoutOf(interval), early) == Reply(0, 0);
    }
    if MayBeEarly(parks, interests, interval) {
      var calls: SelectCalls :| calls.parks == parks && HonestSelect(interests, interval, calls)
        && var reply := Select(interests, TimeoutOf(interval), calls); reply.answer == 0 && !OnTime(interval, reply.at);
      EarlyIsByFd(interests, interval, calls);
    }
  }

  /** An early 0 is always the last probe's, after a wake by a descriptor the kernel then denied. */
  lemma EarlyIsByFd(interests: seq<Interest>, interval: Option<Interval>, calls: SelectCalls)
    requires interval.Some? ==> Valid(interval.value)
    requires HonestSelect(interests, interval, calls)
    requires var reply := Select(interests, TimeoutOf(interval), calls); reply.answer == 0 && !OnTime(interval, reply.at)
    ensures calls.parks && calls.probe.answer == 0 && calls.wake == ByFd && TimeoutOf(interval) != 0 && Collect(interests).Some?
    ensures Select(interests, TimeoutOf(interval), calls) == calls.filled
  {
    TimeoutCovers(interval, calls.filled.at);
    TimeoutCovers(interval, calls.forwarded.at);
  }
}
