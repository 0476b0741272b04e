/** `IpcBase::signalWait`'s deadline and the polling `sem_timedwait` for systems without one. */
module TimedWait {
  import opened Wrappers

  const NANO: nat := 1_000_000_000
  const MILLI: nat := 1_000_000 // nanoseconds in a millisecond
  const WORD: nat := 0x1_0000_0000

  datatype Timespec = Timespec(sec: nat, nsec: nat)
  {
    predicate Normal() { nsec < NANO }
    function Total(): nat { sec * NANO + nsec }
  }

  class Clockwork {
    var tv_sec: nat
    var tv_nsec: nat

    constructor (now: Timespec)
      ensures tv_sec == now.sec && tv_nsec == now.nsec
    {
      tv_sec, tv_nsec := now.sec, now.nsec;
    }

    /** The deadline signalWait computes in place from the current time. */
    method AddTimeout(timeout: nat)
      modifies this
      ensures Timespec(tv_sec, tv_nsec) == Deadline(old(Timespec(tv_sec, tv_nsec)), timeout)
    {
      tv_sec := tv_sec + timeout / 1000;
      tv_sec := tv_sec + timeout / 1000;
      tv_nsec := tv_nsec + timeout % 1000 * 1000000;
    }
  }

  // The whole seconds of the timeout are added twice.
  function Deadline(now: Timespec, timeout: nat): Timespec {
    Timespec(now.sec + 2 * (timeout / 1000), now.nsec + timeout % 1000 * MILLI)
  }

  /** The deadline is the timeout after now, plus its whole seconds once more: never early,
      exact below one second and only there, and at most twice too late.  Its nanoseconds
      are not carried, so POSIX accepts it exactly when they do not reach one second. */
  lemma DeadlineBound(now: Timespec, timeout: nat)
    requires now.Normal()
    ensures var d := Deadline(now, timeout);
      && d.Total() == now.Total() + timeout * MILLI + (timeout / 1000) * NANO
      && (d.Total() == now.Total() + timeout * MILLI <==> timeout < 1000)
      && now.Total() + timeout * MILLI <= d.Total() <= now.Total() + 2 * timeout * MILLI
      && d.nsec < 2 * NANO
      && (d.Normal() <==> now.nsec < NANO - timeout % 1000 * MILLI)
  {
    var s, ms := timeout / 1000, timeout % 1000;
    assert timeout == 1000 * s + ms;
  }

  // ------------------------------------------------------- signalWait on POSIX semaphores

  /** sem_timedwait on a conforming system, for a token that can be taken from the time
      `arrival` on, if ever.  A call that has to block is refused if the nanoseconds of the
      deadline overflow; one that need not block may be, or not: `checksFirst` is the system's
      choice (section sem_timedwait of IEEE Std 1003.1-2008). */
  function PosixTimedWait(now: Timespec, deadline: Timespec, arrival: Option<nat>, checksFirst: bool): bool {
    if !deadline.Normal() && (checksFirst || arrival.None? || arrival.value > now.Total()) then false
    else arrival.Some? && (arrival.value <= now.Total() || arrival.value <= deadline.Total())
  }

  /** signalWait: without a timeout it returns with a token.  With one, and no overflow of the
      nanoseconds, it takes every token that arrives within the timeout and none after twice
      the timeout, and below one second the limit is exact; with an overflow it takes at most
      a token that is there already. */
  method SignalWait(now: Timespec, timeout: nat, arrival: Option<nat>, checksFirst: bool) returns (success: bool)
    requires now.Normal() && (timeout == 0 ==> arrival.Some?)
    ensures timeout == 0 ==> success
    ensures success ==> arrival.Some?
    ensures timeout > 0 && now.nsec < NANO - timeout % 1000 * MILLI && arrival.Some? ==>
      && (arrival.value <= now.Total() + timeout * MILLI ==> success)
      && (success ==> arrival.value <= now.Total() + 2 * timeout * MILLI)
      && (timeout < 1000 ==> (success <==> arrival.value <= now.Total() + timeout * MILLI))
    ensures timeout > 0 && now.nsec >= NANO - timeout % 1000 * MILLI ==>
      && (success ==> arrival.value <= now.Total())
      && (!checksFirst && arrival.Some? && arrival.value <= now.Total() ==> success)
  {
    if timeout == 0 {
      success := true;
    } else {
      var ts := new Clockwork(now);
      ts.AddTimeout(timeout);
      DeadlineBound(now, timeout);
      success := PosixTimedWait(now, Timespec(ts.tv_sec, ts.tv_nsec), arrival, checksFirst);
    }
  }

  // ---------------------------------------------------------------------- the polling wait

  // round() of a non-negative number of nanoseconds to milliseconds.
  function RoundedMilli(nsec: nat): nat { (nsec + MILLI / 2) / MILLI }

  // Milliseconds, before and after truncation to the 32 bits of useconds_t.
  function WideMilli(t: Timespec): nat { t.sec * 1000 + RoundedMilli(t.nsec) }
  function Milli(t: Timespec): nat { WideMilli(t) % WORD }

  /** Rounding is to the nearest millisecond, the upper one at half. */
  lemma RoundingBound(t: Timespec)
    ensures t.Total() - MILLI / 2 < WideMilli(t) * MILLI <= t.Total() + MILLI / 2
  {
    var n := t.nsec + MILLI / 2;
    assert n == n / MILLI * MILLI + n % MILLI;
    assert WideMilli(t) * MILLI == t.sec * NANO + n / MILLI * MILLI;
  }

  lemma RoundingOrder(a: Timespec, b: Timespec)
    ensures WideMilli(a) < WideMilli(b) ==> a.Total() < b.Total()
    ensures WideMilli(a) >= WideMilli(b) ==> a.Total() > b.Total() - MILLI
  {
    RoundingBound(a);
    RoundingBound(b);
    if WideMilli(a) < WideMilli(b) { assert (WideMilli(a) + 1) * MILLI <= WideMilli(b) * MILLI; }
    if WideMilli(a) >= WideMilli(b) { assert WideMilli(a) * MILLI >= WideMilli(b) * MILLI; }
  }

  // One turn of the loop: what sem_trywait says, and the clock read if the loop goes on.
  datatype Try = Taken | Again | OtherError
  datatype Poll = Poll(try: Try, clock: Timespec)

  // 0, -1, or still looping when the polls end.
  datatype Verdict = Zero | MinusOne | Looping

  predicate Stops(p: Poll, deadline: Timespec) {
    !p.try.Again? || Milli(deadline) <= Milli(p.clock)
  }

  // The first poll that ends the loop.
  function FirstStop(polls: seq<Poll>, deadline: Timespec): Option<nat> {
    if polls == [] then None
    else match FirstStop(polls[..|polls| - 1], deadline)
      case Some(k) => Some(k)
      case None => if Stops(polls[|polls| - 1], deadline) then Some(|polls| - 1) else None
  }

  lemma {:induction false} FirstStopIsFirst(polls: seq<Poll>, deadline: Timespec)
    ensures match FirstStop(polls, deadline)
      case None => forall i :: 0 <= i < |polls| ==> !Stops(polls[i], deadline)
      case Some(k) => k < |polls| && Stops(polls[k], deadline) && forall i :: 0 <= i < k ==> !Stops(polls[i], deadline)
  {
    if polls != [] {
      var front := polls[..|polls| - 1];
      FirstStopIsFirst(front, deadline);
      assert forall i :: 0 <= i < |front| ==> polls[i] == front[i];
    }
  }

  lemma FirstStopAt(polls: seq<Poll>, deadline: Timespec, k: nat)
    requires k < |polls| && Stops(polls[k], deadline)
    requires forall i :: 0 <= i < k ==> !Stops(polls[i], deadline)
    ensures FirstStop(polls, deadline) == Some(k)
  {
    FirstStopIsFirst(polls, deadline);
  }

  /** sem_timedwait over any sequence of polls: the first poll that ends the loop decides.
      Any failure of sem_trywait other than EAGAIN is reported as success. */
  method SemTimedWait(polls: seq<Poll>, deadline: Timespec) returns (verdict: Verdict, used: nat)
    ensures match FirstStop(polls, deadline)
      case None => verdict == Looping && used == |polls|
      case Some(k) => k < |polls| && used == k + 1 && verdict == if polls[k].try.Again? then MinusOne else Zero
  {
    FirstStopIsFirst(polls, deadline);
    used := 0;
    while used < |polls|
      invariant used <= |polls|
      invariant forall i :: 0 <= i < used ==> !Stops(polls[i], deadline)
    {
      var p := polls[used];
      used := used + 1;
      if !p.try.Again? {
        FirstStopAt(polls, deadline, used - 1);
        return Zero, used;
      }
      var now := Milli(p.clock);
      var delay := Milli(deadline);
      if delay > now {
        var ms := delay - now; // the sleep before the next poll
      } else {
        FirstStopAt(polls, deadline, used - 1);
        return MinusOne, used;
      }
    }
    verdict := Looping;
  }

  // The 2^32 ms window a time lies in.
  function Window(t: Timespec): nat { WideMilli(t) / WORD }

  /** The 32-bit comparison is right whenever both times lie in one window.  If the deadline
      is ahead by less than a window but in the next one, the loop gives up at once. */
  lemma ComparisonIsRightInOneWindow(clock: Timespec, deadline: Timespec)
    ensures Window(clock) == Window(deadline) ==>
      (Milli(deadline) > Milli(clock) <==> WideMilli(deadline) > WideMilli(clock))
    ensures WideMilli(clock) < WideMilli(deadline) < WideMilli(clock) + WORD ==>
      (Milli(deadline) > Milli(clock) <==> Window(clock) == Window(deadline))
  {
    var c, d := WideMilli(clock), WideMilli(deadline);
    assert c == c / WORD * WORD + c % WORD && d == d / WORD * WORD + d % WORD;
    if c / WORD < d / WORD { assert (c / WORD + 1) * WORD <= d / WORD * WORD; }
    if d / WORD < c / WORD { assert (d / WORD + 1) * WORD <= c / WORD * WORD; }
  }

  predicate OneWindow(polls: seq<Poll>, deadline: Timespec) {
    forall i :: 0 <= i < |polls| ==> Window(polls[i].clock) == Window(deadline)
  }

  /** With all clock readings and the deadline in one window, the wait ends with the first
      poll that got a token or an error, or that found the rounded clock at the rounded
      deadline, less than a millisecond early; until then every poll was told to try again
      before the deadline. */
  lemma PollingMeaning(polls: seq<Poll>, deadline: Timespec)
    requires OneWindow(polls, deadline)
    ensures match FirstStop(polls, deadline)
      case None =>
        forall i :: 0 <= i < |polls| ==> polls[i].try.Again? && WideMilli(polls[i].clock) < WideMilli(deadline)
      case Some(k) =>
        && k < |polls|
        && (forall i :: 0 <= i < k ==> polls[i].try.Again? && WideMilli(polls[i].clock) < WideMilli(deadline))
        && (polls[k].try.Again? ==> WideMilli(polls[k].clock) >= WideMilli(deadline))
        && (polls[k].try.Again? ==> polls[k].clock.Total() > deadline.Total() - MILLI)
        && forall i :: 0 <= i < k ==> polls[i].clock.Total() < deadline.Total()
  {
    FirstStopIsFirst(polls, deadline);
    forall i | 0 <= i < |polls|
      ensures Stops(polls[i], deadline) <==> !polls[i].try.Again? || WideMilli(deadline) <= WideMilli(polls[i].clock)
    {
      ComparisonIsRightInOneWindow(polls[i].clock, deadline);
    }
    forall i | 0 <= i < |polls|
      ensures WideMilli(polls[i].clock) < WideMilli(deadline) ==> polls[i].clock.Total() < deadline.Total()
      ensures WideMilli(polls[i].clock) >= WideMilli(deadline) ==> polls[i].clock.Total() > deadline.Total() - MILLI
    {
      RoundingOrder(polls[i].clock, deadline);
    }
  }
}
