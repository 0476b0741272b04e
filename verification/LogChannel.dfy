/** The callback channel: the FMU side sends log messages with a 20 ms timeout, and a thread
    of libshmfmu polls for them, calls the logger, and replies, until the instance is freed. */
module LogChannel {
  import opened Wrappers
  import opened Rendezvous
  import opened FmiValues

  // A message of the channel: its command code, and the Fmi2LogReply its bytes parse as.
  datatype LogMessage = LogMessage(cmd: int, status: int, text: string)
  datatype Line = Line(status: Status, text: string)

  // The empty message the thread replies with; it parses as status Ok and no text.
  const REPLY := LogMessage(LOG, 0, "")

  function ToLine(m: LogMessage): Line {
    Line(match m.status
         case 0 => OK case 1 => Warning case 2 => Discard
         case 3 => Error case 4 => Fatal case 5 => Pending
         case _ => Error,
         m.text)
  }

  // fmi2Status by the number of Fmi2LogReply's status.
  const STATUSES := [OK, Warning, Discard, Error, Fatal, Pending]

  /** A line reports its message: the same text, and the same status, or fmi2Error if the status
      is none of the six. */
  lemma LineReports(m: LogMessage)
    ensures ToLine(m).text == m.text
    ensures ToLine(m).status == if 0 <= m.status < |STATUSES| then STATUSES[m.status] else Error
  {
  }

  // Where callbackThreadFunc is: testing its first loop's condition, in connect, testing the
  // second loop's condition, in getMessage, holding a message, about to call the logger with
  // what it parsed, replying, or finished.
  datatype Thread =
    | TestingConnect | Trying | Testing | Polling | Reading | Logging(line: Line) | Responding | Done

  datatype Log = Log(
    channel: Channel<LogMessage>,
    thread: Thread,
    active: bool,
    joined: bool,
    lines: seq<Line>,   // what the logger was called with
    sources: seq<int>)  // for each log message parsed, the number of the request it was, or -1

  datatype Event =
    | Server(step: Step<LogMessage>)
    | TestConnect | ConnectFails | ConnectWorks
    | Test | Wakes | TimesOut | Reads | CallsLogger | Begins | Copies | Posts
    | Deactivates | Joins
  {
    predicate ByThread() { !Server? && !Deactivates? && !Joins? }
  }

  function Start(slot: LogMessage): Log { Log(Fresh(slot), TestingConnect, true, false, [], []) }

  function On(l: Log, step: Step<LogMessage>, thread: Thread): Option<Log> {
    match Next(l.channel, step)
    case None => None
    case Some(c) => Some(l.(channel := c, thread := thread))
  }

  function Do(l: Log, e: Event): Option<Log> {
    match e
    case Server(step) => if step.ByServer() then On(l, step, l.thread) else None
    case TestConnect =>
      if l.thread.TestingConnect? then Some(l.(thread := if l.active then Trying else Done)) else None
    case ConnectFails => if l.thread.Trying? then Some(l.(thread := TestingConnect)) else None
    case ConnectWorks => if l.thread.Trying? then Some(l.(thread := Testing)) else None
    case Test =>
      if l.thread.Testing? then
        if l.active then On(l, ClientListens, Polling) else Some(l.(thread := Done))
      else None
    case Wakes => if l.thread.Polling? then On(l, ClientWakes, Reading) else None
    case TimesOut => if l.thread.Polling? then On(l, ClientTimesOut, Testing) else None
    case Reads =>
      if l.thread.Reading? then
        if l.channel.slot.cmd == LOG then
          Some(l.(thread := Logging(ToLine(l.channel.slot)), sources := l.sources + [l.channel.origin]))
        else On(l, ClientDrops, Testing)
      else None
    case CallsLogger =>
      if l.thread.Logging? then Some(l.(thread := Responding, lines := l.lines + [l.thread.line])) else None
    case Begins => if l.thread.Responding? then On(l, ClientBegins(REPLY), Responding) else None
    case Copies => if l.thread.Responding? then On(l, ClientCopies, Responding) else None
    case Posts => if l.thread.Responding? then On(l, ClientPosts, Testing) else None
    case Deactivates => Some(l.(active := false))
    case Joins => if !l.active && l.thread.Done? then Some(l.(joined := true)) else None
  }

  function Play(l: Log, events: seq<Event>): Option<Log> {
    if events == [] then Some(l) else
    match Play(l, events[..|events| - 1])
    case None => None
    case Some(k) => Do(k, events[|events| - 1])
  }

  // ------------------------------------------------------------------- accounting

  // Where the channel's client is while the thread is at each point.
  predicate Placed(thread: Thread, client: ClientPc<LogMessage>) {
    match thread
    case Polling => client.Listening?
    case Reading => client.Holding?
    case Logging(_) => client.Holding?
    case Responding => client.Holding? || client.Replying? || client.Replied?
    case _ => client.Away?
  }

  ghost predicate Balanced(l: Log) {
    var c := l.channel;
    && Counted(c)
    && Placed(l.thread, c.client)
    && (forall i :: 0 <= i < |c.replies| ==> c.replies[i] == REPLY)
    && (c.client.Replying? ==> c.client.reply == REPLY)
    && |l.lines| == |c.replies| + One(l.thread.Responding? && !c.client.Replied?)
  }

  // A channel step that copies no reply keeps the balance, if the thread moves along.
  lemma BalancedOn(l: Log, step: Step<LogMessage>, thread: Thread)
    requires Balanced(l) && On(l, step, thread).Some?
    requires !step.ClientBegins? && !step.ClientCopies?
    requires Placed(thread, On(l, step, thread).value.channel.client)
    requires step.ClientPosts? || (thread.Responding? <==> l.thread.Responding?)
    requires step.ClientPosts? ==> l.thread.Responding? && !thread.Responding?
    ensures Balanced(On(l, step, thread).value)
  {
    CountedNext(l.channel, step);
  }

  lemma BalancedReply(l: Log)
    requires Balanced(l) && l.thread.Responding?
    ensures Do(l, Begins).Some? ==> Balanced(Do(l, Begins).value)
    ensures Do(l, Copies).Some? ==> Balanced(Do(l, Copies).value)
  {
    if Do(l, Begins).Some? { CountedNext(l.channel, ClientBegins(REPLY)); }
    if Do(l, Copies).Some? { CountedNext(l.channel, ClientCopies); }
  }

  // The thread moves, or a flag is set, and the channel stays as it is.
  lemma BalancedQuiet(l: Log, e: Event)
    requires Balanced(l) && Do(l, e).Some? && Do(l, e).value.channel == l.channel
    requires !e.Server? && !e.Begins? && !e.Copies? && !e.Posts?
    ensures Balanced(Do(l, e).value)
  {
  }

  lemma BalancedDo(l: Log, e: Event)
    requires Balanced(l) && Do(l, e).Some?
    ensures Balanced(Do(l, e).value)
  {
    match e {
      case Server(step) => BalancedOn(l, step, l.thread);
      case Test => if l.active { BalancedOn(l, ClientListens, Polling); } else { BalancedQuiet(l, e); }
      case Wakes => BalancedOn(l, ClientWakes, Reading);
      case TimesOut => BalancedOn(l, ClientTimesOut, Testing);
      case Reads => if l.channel.slot.cmd != LOG { BalancedOn(l, ClientDrops, Testing); } else { BalancedQuiet(l, e); }
      case Begins => BalancedReply(l);
      case Copies => BalancedReply(l);
      case Posts => BalancedOn(l, ClientPosts, Testing);
      case _ => BalancedQuiet(l, e);
    }
  }

  lemma {:induction false} BalancedPlay(slot: LogMessage, events: seq<Event>)
    requires Play(Start(slot), events).Some?
    ensures Balanced(Play(Start(slot), events).value)
  {
    if events != [] {
      BalancedPlay(slot, events[..|events| - 1]);
      BalancedDo(Play(Start(slot), events[..|events| - 1]).value, events[|events| - 1]);
    }
  }

  /** In every reachable state, with any number of timed-out sends: between messages the
      logger was called exactly once for each reply posted and for each message consumed that
      was not dropped; during a message the counts differ by at most that message. */
  lemma LoggerCallsMatchReplies(slot: LogMessage, events: seq<Event>)
    requires Play(Start(slot), events).Some?
    ensures var l := Play(Start(slot), events).value;
      var c := l.channel;
      && |c.replies| <= |l.lines| <= |c.replies| + 1
      && (c.client.Away? || c.client.Listening? ==>
            && |l.lines| == |c.replies|
            && |c.taken| == |l.lines| + c.dropped)
  {
    BalancedPlay(slot, events);
  }

  // ------------------------------------------------------------------ termination

  // Thread actions left once `active` is false, at most.
  function Rank(l: Log): nat {
    match l.thread
    case Done => 0
    case Testing => 1
    case TestingConnect => 1
    case Trying => 2
    case Responding =>
      if l.channel.client.Replied? then 2 else if l.channel.client.Replying? then 3 else 4
    case Logging(_) => 5
    case Reading => 6
    case Polling => 7
  }

  function CountThread(events: seq<Event>): nat {
    if events == [] then 0
    else CountThread(events[..|events| - 1]) + One(events[|events| - 1].ByThread())
  }

  lemma RankDo(l: Log, e: Event)
    requires Balanced(l) && !l.active && Do(l, e).Some?
    ensures !Do(l, e).value.active
    ensures Rank(Do(l, e).value) + One(e.ByThread()) <= Rank(l)
  {
  }

  lemma {:induction false} RankPlay(l: Log, events: seq<Event>)
    requires Balanced(l) && !l.active && Play(l, events).Some?
    ensures Balanced(Play(l, events).value) && !Play(l, events).value.active
    ensures Rank(Play(l, events).value) + CountThread(events) <= Rank(l)
  {
    if events != [] {
      var before := events[..|events| - 1];
      RankPlay(l, before);
      BalancedDo(Play(l, before).value, events[|events| - 1]);
      RankDo(Play(l, before).value, events[|events| - 1]);
    }
  }

  function NextOfThread(l: Log): Event {
    match l.thread
    case TestingConnect => TestConnect
    case Trying => ConnectFails
    case Testing => Test
    case Polling => TimesOut
    case Reading => Reads
    case Logging(_) => CallsLogger
    case Responding =>
      if l.channel.client.Replied? then Posts else if l.channel.client.Replying? then Copies else Begins
    case Done => Test
  }

  /** The join in fmi2FreeInstance returns: from any reachable state, once `active` is false
      the thread takes at most 7 more actions, whatever the sender does meanwhile, and until
      it is done one of its actions is always possible; when it is done, so is the join. */
  lemma JoinReturns(slot: LogMessage, before: seq<Event>, after: seq<Event>)
    requires Play(Start(slot), before).Some? && !Play(Start(slot), before).value.active
    requires Play(Play(Start(slot), before).value, after).Some?
    ensures CountThread(after) <= 7
    ensures var l := Play(Play(Start(slot), before).value, after).value;
      if l.thread.Done? then Do(l, Joins).Some?
      else NextOfThread(l).ByThread() && Do(l, NextOfThread(l)).Some?
  {
    BalancedPlay(slot, before);
    var l := Play(Start(slot), before).value;
    RankPlay(l, after);
    CanMove(Play(l, after).value);
  }

  lemma CanMove(l: Log)
    requires Balanced(l) && !l.active
    ensures if l.thread.Done? then Do(l, Joins).Some?
      else NextOfThread(l).ByThread() && Do(l, NextOfThread(l)).Some?
  {
  }

  predicate Connects(events: seq<Event>) { exists i :: 0 <= i < |events| && events[i].ConnectWorks? }

  lemma {:induction false} ConnectsSnoc(events: seq<Event>)
    requires events != []
    ensures Connects(events) <==> Connects(events[..|events| - 1]) || events[|events| - 1].ConnectWorks?
  {
    var front := events[..|events| - 1];
    if Connects(front) {
      var i :| 0 <= i < |front| && front[i].ConnectWorks?;
      assert events[i].ConnectWorks?;
    }
  }

  // Where the thread is without a connection.
  predicate Unconnected(t: Thread) { t.TestingConnect? || t.Trying? || t.Done? }

  /** In every run: until an attempt to connect has worked the thread neither polls nor logs; and
      the join is over only when the thread is done, after which it does nothing more, so the
      container is deleted behind its back in no run. */
  lemma {:induction false} ThreadLife(slot: LogMessage, events: seq<Event>)
    requires Play(Start(slot), events).Some?
    ensures var l := Play(Start(slot), events).value;
      && (!Connects(events) ==> Unconnected(l.thread) && l.lines == [] && l.channel.taken == [])
      && (l.joined ==> l.thread.Done? && !l.active)
      && (l.thread.Done? ==> forall e: Event :: e.ByThread() ==> Do(l, e) == None)
  {
    if events != [] {
      var front, e := events[..|events| - 1], events[|events| - 1];
      ThreadLife(slot, front);
      ConnectsSnoc(events);
      ThreadLives(Play(Start(slot), front).value, e, Connects(events));
    }
  }

  lemma {:induction false} ThreadLives(l: Log, e: Event, connects: bool)
    requires Do(l, e).Some? && (e.ConnectWorks? ==> connects)
    requires !connects ==> Unconnected(l.thread) && l.lines == [] && l.channel.taken == []
    requires l.joined ==> l.thread.Done? && !l.active
    ensures var k := Do(l, e).value;
      && (!connects ==> Unconnected(k.thread) && k.lines == [] && k.channel.taken == [])
      && (k.joined ==> k.thread.Done? && !k.active)
  {
  }

  // ----------------------------------------------------------------- the loop as code

  // One turn: whether `active` still holds at the loop test, and what getMessage returns.
  datatype Turn = Turn(active: bool, message: Option<LogMessage>)

  function LineOf(turn: Turn): seq<Line> {
    match turn.message
    case Some(m) => if m.cmd == LOG then [ToLine(m)] else []
    case None => []
  }

  // The logger's calls from the i-th turn on.
  function LinesFrom(turns: seq<Turn>, i: nat): seq<Line>
    requires i <= |turns|
    decreases |turns| - i
  {
    if i == |turns| || !turns[i].active then [] else LineOf(turns[i]) + LinesFrom(turns, i + 1)
  }

  /** The second loop of callbackThreadFunc, for any sequence of turns. */
  method CallbackLoop(turns: seq<Turn>) returns (lines: seq<Line>, replies: seq<LogMessage>, ended: bool)
    ensures lines == LinesFrom(turns, 0)
    ensures |replies| == |lines| && forall i :: 0 <= i < |replies| ==> replies[i] == REPLY
    ensures ended <==> exists i :: 0 <= i < |turns| && !turns[i].active
  {
    lines, replies := [], [];
    var i := 0;
    while i < |turns| && turns[i].active
      invariant i <= |turns| && forall k :: 0 <= k < i ==> turns[k].active
      invariant LinesFrom(turns, 0) == lines + LinesFrom(turns, i)
      invariant |replies| == |lines| && forall k :: 0 <= k < |replies| ==> replies[k] == REPLY
    {
      var message := turns[i].message;
      ghost var rest := LinesFrom(turns, i + 1);
      if message.Some? && message.value.cmd == LOG {
        assert lines + ([ToLine(message.value)] + rest) == lines + [ToLine(message.value)] + rest;
        lines, replies := lines + [ToLine(message.value)], replies + [REPLY];
      } else {
        assert LinesFrom(turns, i) == [] + rest == rest;
      }
      i := i + 1;
    }
    ended := i < |turns|;
  }
}
