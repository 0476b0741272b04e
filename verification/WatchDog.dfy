/** The connection watchdog: IpcServer::connWatchDog posts at least every `period` ms, and
    ProtocolDriver.setWatchDog frees the instance when no post arrives for `alive` ms. */
module WatchDog {
  import opened Wrappers

  // Bounds in milliseconds: between two posts of a living server; the wait of future.get;
  // and for the watchdog thread to react to a token or to the end of its wait.
  datatype Bounds = Bounds(period: nat, alive: nat, reaction: nat)

  datatype World = World(
    now: nat,
    serverAlive: bool,
    lastPost: nat,
    tokens: nat,
    running: bool,     // the watchdog thread is in its loop
    connected: bool,
    since: nat,        // when the current wait began
    ready: nat,        // since when that wait has had a token to take
    frees: nat)        // FreeInstantiate calls by the watchdog

  datatype Event =
    | Tick(d: nat)     // time passes
    | Post             // signalPost(m_hConnWatchDogSignal)
    | Dies             // the server stops posting
    | Take             // the wait gets a token; the loop test follows
    | Declare          // future.get times out: handleTimeout
    | Close            // ProtocolDriver.close

  function Start(now: nat, lastPost: nat, backlog: nat): World {
    World(now, true, lastPost, backlog, true, true, now, now, 0)
  }

  function Do(b: Bounds, w: World, e: Event): Option<World> {
    match e
    case Tick(d) =>
      var t := w.now + d;
      if (w.serverAlive ==> t <= w.lastPost + b.period)
        && (w.running && w.tokens > 0 ==> t <= w.ready + b.reaction)
        && (w.running ==> t <= w.since + b.alive + b.reaction)
      then Some(w.(now := t)) else None
    case Post =>
      if w.serverAlive then
        Some(w.(tokens := w.tokens + 1, lastPost := w.now, ready := if w.tokens == 0 then w.now else w.ready))
      else None
    case Dies => Some(w.(serverAlive := false))
    case Take =>
      if w.running && w.tokens > 0 then
        Some(w.(tokens := w.tokens - 1, since := w.now, ready := w.now, running := w.connected))
      else None
    case Declare =>
      if w.running && w.now >= w.since + b.alive then
        Some(w.(connected := false, frees := w.frees + 1, running := false))
      else None
    case Close => Some(w.(connected := false))
  }

  function Play(b: Bounds, w: World, events: seq<Event>): Option<World> {
    if events == [] then Some(w) else
    match Play(b, w, events[..|events| - 1])
    case None => None
    case Some(v) => Do(b, v, events[|events| - 1])
  }

  // ------------------------------------------------------------------- invariant

  // The interval is long enough, or no time passes at all while the server posts.
  predicate LongEnough(b: Bounds) { b.alive > b.period + b.reaction || (b.period == 0 && b.alive > 0) }

  ghost predicate Timely(b: Bounds, w: World) {
    && w.since <= w.now && w.since <= w.ready <= w.now && w.lastPost <= w.now
    && (w.serverAlive ==> w.now <= w.lastPost + b.period)
    && (w.running ==> w.now <= w.since + b.alive + b.reaction)
    && (w.running && w.tokens > 0 ==> w.now <= w.ready + b.reaction && w.ready <= w.since + b.period)
    && (w.running && w.tokens == 0 ==> w.lastPost <= w.since)
    && w.frees <= 1
    && (w.frees == 1 ==> !w.running && !w.connected)
    && (w.serverAlive && b.period == 0 ==> w.now == w.since)
    && (LongEnough(b) && w.serverAlive ==> w.frees == 0)
  }

  lemma TimelyTick(b: Bounds, w: World, d: nat)
    requires Timely(b, w) && Do(b, w, Tick(d)).Some?
    ensures Timely(b, Do(b, w, Tick(d)).value)
  {
  }

  lemma TimelyDo(b: Bounds, w: World, e: Event)
    requires Timely(b, w) && Do(b, w, e).Some?
    ensures Timely(b, Do(b, w, e).value)
  {
    if e.Tick? { TimelyTick(b, w, e.d); }
  }

  lemma {:induction false} TimelyPlay(b: Bounds, w: World, events: seq<Event>)
    requires Timely(b, w) && Play(b, w, events).Some?
    ensures Timely(b, Play(b, w, events).value)
  {
    if events != [] {
      TimelyPlay(b, w, events[..|events| - 1]);
      TimelyDo(b, Play(b, w, events[..|events| - 1]).value, events[|events| - 1]);
    }
  }

  /** In every timed run at most one FreeInstantiate is ever issued, and after it the
      connection stays down and the thread is gone. */
  lemma AtMostOneFree(b: Bounds, now: nat, lastPost: nat, backlog: nat, events: seq<Event>)
    requires lastPost <= now <= lastPost + b.period
    requires Play(b, Start(now, lastPost, backlog), events).Some?
    ensures var w := Play(b, Start(now, lastPost, backlog), events).value;
      w.frees <= 1 && (w.frees == 1 ==> !w.connected && !w.running)
  {
    TimelyPlay(b, Start(now, lastPost, backlog), events);
  }

  // --------------------------------------------------------------------- false alarms

  // In no timed run is a timeout declared while the server posts.
  ghost predicate NoFalseAlarm(b: Bounds) {
    forall now: nat, lastPost: nat, backlog: nat, events: seq<Event> ::
      lastPost <= now <= lastPost + b.period && Play(b, Start(now, lastPost, backlog), events).Some? ==>
        var w := Play(b, Start(now, lastPost, backlog), events).value; w.serverAlive ==> w.frees == 0
  }

  lemma Snoc(b: Bounds, w: World, events: seq<Event>, e: Event)
    ensures Play(b, w, events + [e]) == match Play(b, w, events) case None => None case Some(v) => Do(b, v, e)
  {
    assert (events + [e])[..|events|] == events;
  }

  // n posts, one each period; nothing is taken.
  function Posts(b: Bounds, n: nat): seq<Event> {
    if n == 0 then [] else Posts(b, n - 1) + [Tick(b.period)] + [Post]
  }

  lemma {:induction false} PostsPlay(b: Bounds, n: nat)
    requires n * b.period <= b.alive && n * b.period <= b.period + b.reaction
    ensures Play(b, Start(0, 0, 0), Posts(b, n)).Some?
    ensures var w := Play(b, Start(0, 0, 0), Posts(b, n)).value;
      && w.now == w.lastPost == n * b.period && w.tokens == n
      && w.serverAlive && w.running && w.since == 0 && w.frees == 0
      && (n > 0 ==> w.ready == b.period)
  {
    if n > 0 {
      assert n * b.period == (n - 1) * b.period + b.period;
      PostsPlay(b, n - 1);
      Snoc(b, Start(0, 0, 0), Posts(b, n - 1), Tick(b.period));
      Snoc(b, Start(0, 0, 0), Posts(b, n - 1) + [Tick(b.period)], Post);
    }
  }

  // How many periods are over before the interval is.
  function PostsBefore(b: Bounds): (n: nat)
    requires !LongEnough(b)
    ensures n * b.period <= b.alive <= n * b.period + b.period
  {
    if b.alive == 0 then 0 else (b.alive - 1) / b.period
  }

  // The server posts once a period until the interval is over, and the thread takes nothing.
  function FalseAlarm(b: Bounds): seq<Event>
    requires !LongEnough(b)
  {
    var n := PostsBefore(b);
    Posts(b, n) + [Tick(b.alive - n * b.period)] + [Declare]
  }

  lemma ShortIntervalRaisesFalseAlarm(b: Bounds)
    requires !LongEnough(b)
    ensures Play(b, Start(0, 0, 0), FalseAlarm(b)).Some?
    ensures var w := Play(b, Start(0, 0, 0), FalseAlarm(b)).value; w.serverAlive && w.frees == 1
  {
    var n := PostsBefore(b);
    PostsPlay(b, n);
    var rest := Tick(b.alive - n * b.period);
    Snoc(b, Start(0, 0, 0), Posts(b, n), rest);
    Snoc(b, Start(0, 0, 0), Posts(b, n) + [rest], Declare);
  }

  /** The watchdog is sound if and only if the interval exceeds post period plus reaction time
      (or is positive while posts are instantaneous): otherwise some timed run declares a
      living server dead. */
  lemma SoundIffLongEnough(b: Bounds)
    ensures NoFalseAlarm(b) <==> LongEnough(b)
  {
    if LongEnough(b) {
      forall now: nat, lastPost: nat, backlog: nat, events: seq<Event> |
          lastPost <= now <= lastPost + b.period && Play(b, Start(now, lastPost, backlog), events).Some?
        ensures var w := Play(b, Start(now, lastPost, backlog), events).value; w.serverAlive ==> w.frees == 0
      {
        TimelyPlay(b, Start(now, lastPost, backlog), events);
      }
    } else {
      ShortIntervalRaisesFalseAlarm(b);
    }
  }

  // ------------------------------------------------------------------------ detection

  // After the server's death each token taken restarts the wait, a reaction time later at most.
  ghost predicate Draining(b: Bounds, death: nat, backlog: nat, w: World) {
    && !w.serverAlive && w.tokens <= backlog
    && w.since <= death + (backlog - w.tokens) * b.reaction
    && (w.running ==> w.ready <= death + (backlog - w.tokens) * b.reaction)
  }

  lemma DrainingDo(b: Bounds, death: nat, backlog: nat, w: World, e: Event)
    requires Draining(b, death, backlog, w) && Timely(b, w) && Do(b, w, e).Some?
    ensures Draining(b, death, backlog, Do(b, w, e).value)
  {
    if e.Take? {
      assert (backlog - (w.tokens - 1)) * b.reaction == (backlog - w.tokens) * b.reaction + b.reaction;
    }
  }

  lemma {:induction false} DrainingPlay(b: Bounds, w: World, events: seq<Event>)
    requires Timely(b, w) && !w.serverAlive && Play(b, w, events).Some?
    ensures Draining(b, w.now, w.tokens, Play(b, w, events).value)
  {
    if events != [] {
      var front := events[..|events| - 1];
      DrainingPlay(b, w, front);
      TimelyPlay(b, w, front);
      DrainingDo(b, w.now, w.tokens, Play(b, w, front).value, events[|events| - 1]);
    }
  }

  predicate Unclosed(events: seq<Event>) { forall i :: 0 <= i < |events| ==> !events[i].Close? }

  ghost predicate Watching(w: World) {
    if w.running then w.connected && w.frees == 0 else !w.connected && w.frees == 1
  }

  lemma WatchingDo(b: Bounds, w: World, e: Event)
    requires Watching(w) && !e.Close? && Do(b, w, e).Some?
    ensures Watching(Do(b, w, e).value)
  {
  }

  lemma {:induction false} OnlyDeclareEnds(b: Bounds, w: World, events: seq<Event>)
    requires Watching(w) && Unclosed(events) && Play(b, w, events).Some?
    ensures Watching(Play(b, w, events).value)
  {
    if events != [] {
      var front := events[..|events| - 1];
      OnlyDeclareEnds(b, w, front);
      WatchingDo(b, Play(b, w, front).value, events[|events| - 1]);
    }
  }

  lemma WaitBound(b: Bounds, death: nat, backlog: nat, w: World)
    requires Draining(b, death, backlog, w)
    ensures w.since <= death + backlog * b.reaction
  {
    assert backlog * b.reaction == (backlog - w.tokens) * b.reaction + w.tokens * b.reaction;
  }

  /** Detection: in every timed run, once the server is dead, the watchdog's loop ends within
      one reaction time for each token left, plus the interval and one more reaction time; and
      unless the driver is closed, it ends by declaring the timeout: one FreeInstantiate, and
      the connection down. */
  lemma DeathIsDetected(b: Bounds, now: nat, lastPost: nat, backlog: nat, before: seq<Event>, after: seq<Event>)
    requires lastPost <= now <= lastPost + b.period
    requires Play(b, Start(now, lastPost, backlog), before).Some?
    requires var w := Play(b, Start(now, lastPost, backlog), before).value; !w.serverAlive && Play(b, w, after).Some?
    ensures var w := Play(b, Start(now, lastPost, backlog), before).value;
      var v := Play(b, w, after).value;
      v.now > w.now + w.tokens * b.reaction + b.alive + b.reaction ==>
        && !v.running
        && (w.running && w.connected && Unclosed(after) ==> v.frees == 1 && !v.connected)
  {
    TimelyPlay(b, Start(now, lastPost, backlog), before);
    var w := Play(b, Start(now, lastPost, backlog), before).value;
    TimelyPlay(b, w, after);
    DrainingPlay(b, w, after);
    WaitBound(b, w.now, w.tokens, Play(b, w, after).value);
    if w.running && w.connected && Unclosed(after) {
      OnlyDeclareEnds(b, w, after);
    }
  }

  lemma {:induction false} NoRestartWithoutTokens(b: Bounds, w: World, events: seq<Event>)
    requires !w.serverAlive && w.tokens == 0 && Play(b, w, events).Some?
    ensures var v := Play(b, w, events).value;
      && !v.serverAlive && v.tokens == 0 && v.since == w.since
      && (w.running && !v.running ==> v.frees == w.frees + 1 && !v.connected)
      && (v.running ==> v.frees == w.frees && w.running)
      && (v.frees == w.frees ==> v.running == w.running)
      && (!w.running ==> !v.running && v.frees == w.frees)
  {
    if events != [] {
      NoRestartWithoutTokens(b, w, events[..|events| - 1]);
    }
  }

  /** With the server dead and the backlog drained, nothing restarts the wait and nothing else
      ends it, not even a close: past the interval and the reaction time a timeout has been
      declared, exactly one FreeInstantiate, and the connection is down. */
  lemma LastWaitIsDeclared(b: Bounds, now: nat, lastPost: nat, backlog: nat, before: seq<Event>, after: seq<Event>)
    requires lastPost <= now <= lastPost + b.period
    requires Play(b, Start(now, lastPost, backlog), before).Some?
    requires var w := Play(b, Start(now, lastPost, backlog), before).value;
      !w.serverAlive && w.tokens == 0 && w.running && Play(b, w, after).Some?
    ensures var w := Play(b, Start(now, lastPost, backlog), before).value;
      var v := Play(b, w, after).value;
      && (v.now > w.since + b.alive + b.reaction ==> v.frees == 1 && !v.connected)
      && (v.now < w.since + b.alive ==> v.frees == 0 && v.running)
  {
    TimelyPlay(b, Start(now, lastPost, backlog), before);
    var w := Play(b, Start(now, lastPost, backlog), before).value;
    TimelyPlay(b, w, after);
    NoRestartWithoutTokens(b, w, after);
    if Play(b, w, after).value.now < w.since + b.alive { NotBeforeTheInterval(b, w, after); }
  }

  lemma {:induction false} NotBeforeTheInterval(b: Bounds, w: World, events: seq<Event>)
    requires !w.serverAlive && w.tokens == 0 && w.running && Play(b, w, events).Some?
    requires Play(b, w, events).value.now < w.since + b.alive
    ensures Play(b, w, events).value.running && Play(b, w, events).value.since == w.since
  {
    if events != [] {
      var front := events[..|events| - 1];
      NoRestartWithoutTokens(b, w, front);
      NotBeforeTheInterval(b, w, front);
    }
  }

  predicate Takes(events: seq<Event>) { exists i :: 0 <= i < |events| && events[i].Take? }

  /** A close ends the loop as well: whenever the connection is down, the next token taken is the
      last, and the loop ends. */
  lemma {:induction false} CloseEndsTheLoop(b: Bounds, w: World, events: seq<Event>)
    requires !w.connected && Takes(events) && Play(b, w, events).Some?
    ensures !Play(b, w, events).value.running && !Play(b, w, events).value.connected
  {
    var front, last := events[..|events| - 1], events[|events| - 1];
    StaysDown(b, w, front);
    if !last.Take? {
      var i :| 0 <= i < |events| && events[i].Take?;
      assert front[i].Take?;
      CloseEndsTheLoop(b, w, front);
    }
  }

  lemma {:induction false} StaysDown(b: Bounds, w: World, events: seq<Event>)
    requires !w.connected && Play(b, w, events).Some?
    ensures !Play(b, w, events).value.connected
  {
    if events != [] {
      StaysDown(b, w, events[..|events| - 1]);
    }
  }

  lemma {:induction false} Cons(b: Bounds, w: World, e: Event, events: seq<Event>)
    requires Do(b, w, e).Some?
    ensures Play(b, w, [e] + events) == Play(b, Do(b, w, e).value, events)
  {
    if events == [] {
      assert [e] + events == [e] && [e][..0] == [];
    } else {
      var front, last := events[..|events| - 1], events[|events| - 1];
      Cons(b, w, e, front);
      Snoc(b, w, [e] + front, last);
      assert [e] + events == [e] + front + [last];
    }
  }

  lemma {:induction false} TimePasses(b: Bounds, w: World, t: nat) returns (after: seq<Event>)
    requires Timely(b, w) && !w.serverAlive
    ensures Play(b, w, after).Some? && Play(b, w, after).value.now >= t && Unclosed(after)
    decreases w.running, w.tokens, w.since + b.alive - w.now
  {
    var e;
    if !w.running {
      Snoc(b, w, [], Tick(t));
      return [] + [Tick(t)];
    } else if w.tokens > 0 {
      e := Take;
    } else if w.now >= w.since + b.alive {
      e := Declare;
    } else {
      e := Tick(w.since + b.alive - w.now);
    }
    var v := Do(b, w, e).value;
    TimelyDo(b, w, e);
    var rest := TimePasses(b, v, t);
    Cons(b, w, e, rest);
    after := [e] + rest;
  }

  /** The bounds never meet their promise by blocking time: from every reachable state with the
      server dead, any time t is reached in some continuation, so the deadlines of detection
      do pass. */
  lemma DeadlinesPass(b: Bounds, now: nat, lastPost: nat, backlog: nat, before: seq<Event>, t: nat) returns (after: seq<Event>)
    requires lastPost <= now <= lastPost + b.period
    requires Play(b, Start(now, lastPost, backlog), before).Some?
    requires !Play(b, Start(now, lastPost, backlog), before).value.serverAlive
    ensures var w := Play(b, Start(now, lastPost, backlog), before).value;
      Play(b, w, after).Some? && Play(b, w, after).value.now >= t && Unclosed(after)
  {
    TimelyPlay(b, Start(now, lastPost, backlog), before);
    after := TimePasses(b, Play(b, Start(now, lastPost, backlog), before).value, t);
  }

  // --------------------------------------------------------------------- the loop as code

  // One turn of setWatchDog: the loop test, and how future.get ends.
  datatype Wait = Event | NoClient | TimedOut | Interrupted | Failed
  datatype Turn = Turn(connected: bool, wait: Wait)

  class Driver {
    var connected: bool
    var frees: nat

    constructor ()
      ensures connected && frees == 0
    {
      connected, frees := true, 0;
    }

    method HandleTimeout()
      modifies this
      ensures !connected && frees == old(frees) + 1
    {
      connected := false;
      frees := frees + 1;
    }

    /** setWatchDog: events, interrupts and exceptions start another wait; the first alarm
        handles the timeout, once, and ends the loop. */
    method SetWatchDog(turns: seq<Turn>) returns (used: nat)
      modifies this
      ensures used <= |turns|
      ensures forall i :: 0 <= i < used - 1 ==>
        turns[i].connected && (turns[i].wait.Event? || turns[i].wait.Interrupted? || turns[i].wait.Failed?)
      ensures used < |turns| ==> used > 0
      ensures 0 < used < |turns| ==>
        !turns[used - 1].connected || turns[used - 1].wait.NoClient? || turns[used - 1].wait.TimedOut?
      ensures if used > 0 && turns[used - 1].connected && (turns[used - 1].wait.NoClient? || turns[used - 1].wait.TimedOut?)
              then !connected && frees == old(frees) + 1
              else connected == old(connected) && frees == old(frees)
    {
      used := 0;
      while used < |turns|
        invariant used <= |turns| && frees == old(frees) && connected == old(connected)
        invariant forall i :: 0 <= i < used ==>
          turns[i].connected && (turns[i].wait.Event? || turns[i].wait.Interrupted? || turns[i].wait.Failed?)
      {
        var t := turns[used];
        used := used + 1;
        if !t.connected {
          return;
        }
        if t.wait.NoClient? || t.wait.TimedOut? {
          HandleTimeout();
          return;
        }
      }
    }
  }
}
