/** What the logger is called with: in every run the lines that come from messages sent are
    distinct and in sending order; and exactly which timing of the sends guarantees that the
    lines are the messages sent. */
module LogOrder {
  import opened Wrappers
  import opened Rendezvous
  import opened Timing
  import opened FmiValues
  import opened LogChannel

  // ---------------------------------------------------------- order, whatever times out

  // A line with source n: the n-th message sent, or else the thread's own empty reply or what
  // the slot held at first.
  ghost predicate ComesFrom(line: Line, n: int, slot: LogMessage, requests: seq<LogMessage>) {
    if n >= 0 then n < |requests| && line == ToLine(requests[n])
    else n == -1 && (line == ToLine(REPLY) || line == ToLine(slot))
  }

  // The slot holds the message its origin names.
  ghost predicate Labelled(c: Channel<LogMessage>, slot: LogMessage) {
    && -1 <= c.origin < |c.requests|
    && (if c.origin >= 0 then c.slot == c.requests[c.origin] else c.slot == REPLY || c.slot == slot)
    && (c.client.Replying? ==> c.client.reply == REPLY)
  }

  ghost predicate Sourced(l: Log, slot: LogMessage) {
    var c := l.channel;
    && |l.sources| == |l.lines| + One(l.thread.Logging?)
    && (forall i :: 0 <= i < |l.lines| ==> ComesFrom(l.lines[i], l.sources[i], slot, c.requests))
    && (l.thread.Logging? ==> ComesFrom(l.thread.line, l.sources[|l.lines|], slot, c.requests))
  }

  predicate Increasing(sources: seq<int>) {
    forall i, j :: 0 <= i < j < |sources| && sources[i] >= 0 && sources[j] >= 0 ==> sources[i] < sources[j]
  }

  predicate Below(sources: seq<int>, n: int) { forall i :: 0 <= i < |sources| ==> sources[i] < n }

  // The message parsed last may still be in the slot.
  predicate Unanswered(l: Log) {
    l.thread.Logging? || (l.thread.Responding? && !l.channel.client.Replied?)
  }

  // The message in the slot comes after all those parsed, except that it may be the last.
  ghost predicate Ahead(l: Log) {
    var n, last := l.channel.origin, |l.sources| - 1;
    && Below(l.sources, |l.channel.requests|)
    && (n >= 0 ==>
          || Below(l.sources, n)
          || (Unanswered(l) && last >= 0 && l.sources[last] <= n && Below(l.sources[..last], n)))
  }

  ghost predicate Chronicle(l: Log, slot: LogMessage) {
    Labelled(l.channel, slot) && Sourced(l, slot) && Increasing(l.sources) && Ahead(l)
  }

  lemma StepKeepsRequests(l: Log, e: Event)
    requires Do(l, e).Some?
    ensures l.channel.requests <= Do(l, e).value.channel.requests
  {
  }

  lemma LabelledServer(c: Channel<LogMessage>, slot: LogMessage, step: Step<LogMessage>)
    requires Labelled(c, slot) && step.ByServer() && Next(c, step).Some?
    ensures Labelled(Next(c, step).value, slot)
  {
  }

  lemma LabelledDo(l: Log, slot: LogMessage, e: Event)
    requires Labelled(l.channel, slot) && Do(l, e).Some?
    ensures Labelled(Do(l, e).value.channel, slot)
  {
    if e.Server? { LabelledServer(l.channel, slot, e.step); }
  }

  lemma SourcedDo(l: Log, slot: LogMessage, e: Event)
    requires Labelled(l.channel, slot) && Sourced(l, slot) && Do(l, e).Some?
    ensures Sourced(Do(l, e).value, slot)
  {
    StepKeepsRequests(l, e);
    var k := Do(l, e).value;
    match e {
      case Reads =>
      case CallsLogger => assert k.sources == l.sources && k.lines == l.lines + [l.thread.line];
      case _ => assert k.sources == l.sources && k.lines == l.lines;
    }
  }

  lemma AppendedStaysIncreasing(sources: seq<int>, n: int, limit: int)
    requires Increasing(sources) && Below(sources, limit) && n < limit && (n >= 0 ==> Below(sources, n))
    ensures Increasing(sources + [n]) && Below(sources + [n], limit) && (sources + [n])[..|sources|] == sources
  {
  }

  lemma ParsedIsAhead(l: Log, k: Log)
    requires Increasing(l.sources) && Ahead(l) && !Unanswered(l)
    requires -1 <= l.channel.origin < |l.channel.requests|
    requires k.channel == l.channel && k.thread.Logging? && k.sources == l.sources + [l.channel.origin]
    ensures Increasing(k.sources) && Ahead(k)
  {
    AppendedStaysIncreasing(l.sources, l.channel.origin, |l.channel.requests|);
  }

  // Without a message in hand, only the numbers count.
  lemma SameIsAhead(l: Log, k: Log)
    requires Ahead(l) && !Unanswered(l) && k.sources == l.sources
    requires k.channel.origin == l.channel.origin && k.channel.requests == l.channel.requests
    ensures Ahead(k)
  {
  }

  lemma ReadsIsAhead(l: Log)
    requires Increasing(l.sources) && Ahead(l) && -1 <= l.channel.origin < |l.channel.requests|
    requires Do(l, Reads).Some?
    ensures Increasing(Do(l, Reads).value.sources) && Ahead(Do(l, Reads).value)
  {
    if l.channel.slot.cmd == LOG { ParsedIsAhead(l, Do(l, Reads).value); } else { SameIsAhead(l, Do(l, Reads).value); }
  }

  lemma ServerIsAhead(l: Log, step: Step<LogMessage>)
    requires Ahead(l) && Do(l, Server(step)).Some?
    ensures Ahead(Do(l, Server(step)).value)
  {
    if step == ServerCopies { assert Below(l.sources, |l.channel.requests|); }
  }

  lemma ThreadIsAhead(l: Log, e: Event)
    requires Balanced(l) && Ahead(l) && Do(l, e).Some? && !e.Server? && !e.Reads?
    ensures Ahead(Do(l, e).value) && Do(l, e).value.sources == l.sources
  {
  }

  lemma ChronicleDo(l: Log, slot: LogMessage, e: Event)
    requires Balanced(l) && Chronicle(l, slot) && Do(l, e).Some?
    ensures Chronicle(Do(l, e).value, slot)
  {
    LabelledDo(l, slot, e);
    SourcedDo(l, slot, e);
    match e {
      case Reads => ReadsIsAhead(l);
      case Server(step) => ServerIsAhead(l, step);
      case _ => ThreadIsAhead(l, e);
    }
  }

  lemma {:induction false} ChroniclePlay(slot: LogMessage, events: seq<Event>)
    requires Play(Start(slot), events).Some?
    ensures Chronicle(Play(Start(slot), events).value, slot)
  {
    if events != [] {
      var before := events[..|events| - 1];
      ChroniclePlay(slot, before);
      BalancedPlay(slot, before);
      ChronicleDo(Play(Start(slot), before).value, slot, events[|events| - 1]);
    }
  }

  /** In every run, whatever times out and whatever is sent: each line is a message that was
      sent, the thread's own empty reply, or the slot's initial contents; and the lines that
      are messages sent are distinct and in sending order. */
  lemma LinesInSendingOrder(slot: LogMessage, events: seq<Event>)
    requires Play(Start(slot), events).Some?
    ensures var l := Play(Start(slot), events).value;
      && |l.lines| <= |l.sources| <= |l.lines| + 1
      && (forall i :: 0 <= i < |l.lines| ==> ComesFrom(l.lines[i], l.sources[i], slot, l.channel.requests))
      && Increasing(l.sources)
  {
    ChroniclePlay(slot, events);
  }

  // --------------------------------------------------------------------- timed runs

  // An event of a run on which the sends are timed as `flags` says.
  function TimedDo(flags: seq<bool>, l: Log, e: Event): Option<Log> {
    if e.Server? && !Permitted(flags, l.channel, e.step) then None else Do(l, e)
  }

  function TimedPlay(flags: seq<bool>, l: Log, events: seq<Event>): Option<Log> {
    if events == [] then Some(l) else
    match TimedPlay(flags, l, events[..|events| - 1])
    case None => None
    case Some(k) => TimedDo(flags, k, events[|events| - 1])
  }

  lemma {:induction false} TimedIsPlay(flags: seq<bool>, l: Log, events: seq<Event>)
    requires TimedPlay(flags, l, events).Some?
    ensures Play(l, events) == TimedPlay(flags, l, events)
  {
    if events != [] {
      TimedIsPlay(flags, l, events[..|events| - 1]);
    }
  }

  predicate AllLogs(requests: seq<LogMessage>) {
    forall i :: 0 <= i < |requests| ==> requests[i].cmd == LOG
  }

  // The lines so far are the messages read so far, but for the one in hand.
  ghost predicate InStep(l: Log) {
    var c := l.channel;
    && c.dropped == 0
    && |l.lines| <= |c.taken|
    && (forall i :: 0 <= i < |l.lines| ==> l.lines[i] == ToLine(c.taken[i]))
    && (l.thread.Reading? ==> c.taken != [] && c.slot == c.taken[|c.taken| - 1])
    && (l.thread.Logging? ==> c.taken != [] && l.thread.line == ToLine(c.taken[|c.taken| - 1]))
  }

  ghost predicate Transcribing(flags: seq<bool>, l: Log) {
    Balanced(l) && Orderly(flags, l.channel) && (AllLogs(l.channel.requests) ==> InStep(l))
  }

  lemma OrderlyOn(flags: seq<bool>, l: Log, step: Step<LogMessage>, thread: Thread)
    requires NoSendAfterTimed(flags) && Orderly(flags, l.channel) && On(l, step, thread).Some?
    requires Permitted(flags, l.channel, step)
    ensures Orderly(flags, On(l, step, thread).value.channel)
  {
    OrderlyNext(flags, l.channel, step);
  }

  lemma OrderlyDo(flags: seq<bool>, l: Log, e: Event)
    requires NoSendAfterTimed(flags) && Orderly(flags, l.channel) && TimedDo(flags, l, e).Some?
    ensures Orderly(flags, TimedDo(flags, l, e).value.channel)
  {
    match e {
      case Server(step) => OrderlyOn(flags, l, step, l.thread);
      case Test => if l.active { OrderlyOn(flags, l, ClientListens, Polling); }
      case Wakes => OrderlyOn(flags, l, ClientWakes, Reading);
      case TimesOut => OrderlyOn(flags, l, ClientTimesOut, Testing);
      case Reads => if l.channel.slot.cmd != LOG { OrderlyOn(flags, l, ClientDrops, Testing); }
      case Begins => OrderlyOn(flags, l, ClientBegins(REPLY), Responding);
      case Copies => OrderlyOn(flags, l, ClientCopies, Responding);
      case Posts => OrderlyOn(flags, l, ClientPosts, Testing);
      case _ =>
    }
  }

  // While a message is in hand, the server neither begins nor goes on with a send.
  lemma ServerKeepsInStep(flags: seq<bool>, l: Log, step: Step<LogMessage>)
    requires Balanced(l) && Orderly(flags, l.channel) && InStep(l) && TimedDo(flags, l, Server(step)).Some?
    ensures InStep(Do(l, Server(step)).value)
  {
    OneToken(flags, l.channel);
  }

  // A message in hand is one of the requests, so it is a log message.
  lemma HeldIsALog(flags: seq<bool>, l: Log)
    requires Balanced(l) && Orderly(flags, l.channel) && InStep(l) && l.thread.Reading?
    requires AllLogs(l.channel.requests)
    ensures l.channel.slot.cmd == LOG
  {
    var c := l.channel;
    assert c.slot == c.requests[|c.taken| - 1];
  }

  lemma ThreadKeepsInStep(flags: seq<bool>, l: Log, e: Event)
    requires Balanced(l) && Orderly(flags, l.channel) && InStep(l) && AllLogs(l.channel.requests)
    requires !e.Server? && Do(l, e).Some?
    ensures InStep(Do(l, e).value)
  {
    match e {
      case Reads => HeldIsALog(flags, l);
      case Wakes => WakesKeepsInStep(l);
      case CallsLogger => LoggerKeepsInStep(l);
      case _ => QuietKeepsInStep(l, e);
    }
  }

  lemma QuietKeepsInStep(l: Log, e: Event)
    requires InStep(l) && Do(l, e).Some?
    requires !e.Server? && !e.Wakes? && !e.Reads? && !e.CallsLogger?
    ensures InStep(Do(l, e).value)
  {
    assert Do(l, e).value.lines == l.lines && Do(l, e).value.channel.taken == l.channel.taken;
  }

  lemma WakesKeepsInStep(l: Log)
    requires InStep(l) && Do(l, Wakes).Some?
    ensures InStep(Do(l, Wakes).value)
  {
  }

  lemma LoggerKeepsInStep(l: Log)
    requires Balanced(l) && InStep(l) && Do(l, CallsLogger).Some?
    ensures InStep(Do(l, CallsLogger).value)
  {
  }

  lemma PrefixOfLogs(a: seq<LogMessage>, b: seq<LogMessage>)
    requires a <= b && AllLogs(b)
    ensures AllLogs(a)
  {
    assert forall i :: 0 <= i < |a| ==> a[i] == b[i];
  }

  lemma TranscribingDo(flags: seq<bool>, l: Log, e: Event)
    requires NoSendAfterTimed(flags) && Transcribing(flags, l) && TimedDo(flags, l, e).Some?
    ensures Transcribing(flags, TimedDo(flags, l, e).value)
  {
    BalancedDo(l, e);
    OrderlyDo(flags, l, e);
    var k := Do(l, e).value;
    if AllLogs(k.channel.requests) {
      StepKeepsRequests(l, e);
      PrefixOfLogs(l.channel.requests, k.channel.requests);
      match e {
        case Server(step) => ServerKeepsInStep(flags, l, step);
        case _ => ThreadKeepsInStep(flags, l, e);
      }
    }
  }

  lemma {:induction false} TranscribingPlay(flags: seq<bool>, slot: LogMessage, events: seq<Event>)
    requires NoSendAfterTimed(flags) && TimedPlay(flags, Start(slot), events).Some?
    ensures Transcribing(flags, TimedPlay(flags, Start(slot), events).value)
  {
    if events != [] {
      var before := events[..|events| - 1];
      TranscribingPlay(flags, slot, before);
      TranscribingDo(flags, TimedPlay(flags, Start(slot), before).value, events[|events| - 1]);
    }
  }

  // Every line is the message sent with its number.
  ghost predicate Transcribed(l: Log) {
    |l.lines| <= |l.channel.requests|
    && forall i :: 0 <= i < |l.lines| ==> l.lines[i] == ToLine(l.channel.requests[i])
  }

  /** If no send follows a timed one and only log messages are sent, the logger's calls are the
      messages sent so far, in order and with their own status, but for the last one while it
      is under way. */
  lemma LinesAreTheMessagesSent(flags: seq<bool>, slot: LogMessage, events: seq<Event>)
    requires NoSendAfterTimed(flags) && TimedPlay(flags, Start(slot), events).Some?
    requires AllLogs(TimedPlay(flags, Start(slot), events).value.channel.requests)
    ensures var l := TimedPlay(flags, Start(slot), events).value;
      Transcribed(l) && |l.channel.requests| <= |l.lines| + 1
  {
    TranscribingPlay(flags, slot, events);
    var l := TimedPlay(flags, Start(slot), events).value;
    OneToken(flags, l.channel);
  }

  // ------------------------------------------------------------- a send after a timed one

  lemma TimedSnoc(flags: seq<bool>, l: Log, events: seq<Event>, e: Event)
    ensures TimedPlay(flags, l, events + [e]) ==
      match TimedPlay(flags, l, events) case None => None case Some(k) => TimedDo(flags, k, e)
  {
    assert (events + [e])[..|events|] == events;
  }

  lemma {:induction false} TimedConcat(flags: seq<bool>, l: Log, a: seq<Event>, b: seq<Event>)
    requires TimedPlay(flags, l, a).Some?
    ensures TimedPlay(flags, l, a + b) == TimedPlay(flags, TimedPlay(flags, l, a).value, b)
  {
    if b == [] {
      assert a + b == a;
    } else {
      var front, last := b[..|b| - 1], b[|b| - 1];
      TimedConcat(flags, l, a, front);
      TimedSnoc(flags, l, a + front, last);
      TimedSnoc(flags, TimedPlay(flags, l, a).value, front, last);
      assert a + b == a + front + [last] && b == front + [last];
    }
  }

  lemma TimedOne(flags: seq<bool>, l: Log, e: Event)
    ensures TimedPlay(flags, l, [e]) == TimedDo(flags, l, e)
  {
    TimedSnoc(flags, l, [], e);
    assert [] + [e] == [e];
  }

  lemma Three(flags: seq<bool>, l: Log, e1: Event, e2: Event, e3: Event)
    requires TimedDo(flags, l, e1).Some? && TimedDo(flags, TimedDo(flags, l, e1).value, e2).Some?
    ensures TimedPlay(flags, l, [e1, e2, e3])
         == TimedDo(flags, TimedDo(flags, TimedDo(flags, l, e1).value, e2).value, e3)
  {
    TimedOne(flags, l, e1);
    TimedSnoc(flags, l, [e1], e2);
    TimedSnoc(flags, l, [e1, e2], e3);
    assert [e1] + [e2] == [e1, e2] && [e1, e2] + [e3] == [e1, e2, e3];
  }

  function Sends(m: LogMessage): seq<Event> {
    [Server(ServerBegins(m)), Server(ServerCopies), Server(ServerPosts)]
  }

  lemma SendsBlock(flags: seq<bool>, l: Log, m: LogMessage)
    requires l.channel.server.Idle? && |l.channel.requests| < |flags|
    ensures TimedPlay(flags, l, Sends(m)) == Some(l.(channel := Sent(l.channel, m)))
  {
    Three(flags, l, Server(ServerBegins(m)), Server(ServerCopies), Server(ServerPosts));
  }

  // A send that gives up before its message is read.
  function GivenUp(c: Channel<LogMessage>, m: LogMessage): Channel<LogMessage> {
    Sent(c, m).(server := Idle, timeouts := c.timeouts + 1)
  }

  lemma GivenUpBlock(flags: seq<bool>, l: Log, m: LogMessage)
    requires l.channel.server.Idle? && |l.channel.requests| < |flags| && flags[|l.channel.requests|]
    ensures TimedPlay(flags, l, Sends(m) + [Server(ServerTimesOut)]) == Some(l.(channel := GivenUp(l.channel, m)))
  {
    SendsBlock(flags, l, m);
    TimedOne(flags, l.(channel := Sent(l.channel, m)), Server(ServerTimesOut));
    TimedConcat(flags, l, Sends(m), [Server(ServerTimesOut)]);
  }

  function Logs(): seq<Event> { [Test, Wakes, Reads] + [CallsLogger] }

  // The thread has logged the message in the slot.
  function Logged(l: Log): Log
    requires l.channel.avail > 0
  {
    l.(channel := Read(l.channel), thread := Responding,
       lines := l.lines + [ToLine(l.channel.slot)], sources := l.sources + [l.channel.origin])
  }

  predicate Ready(l: Log) { l.thread.Testing? && l.active && l.channel.client.Away? }

  lemma LogsBlock(flags: seq<bool>, l: Log)
    requires Ready(l) && l.channel.avail > 0 && l.channel.slot.cmd == LOG
    ensures TimedPlay(flags, l, Logs()) == Some(Logged(l))
  {
    var polling := l.(channel := l.channel.(client := Listening), thread := Polling);
    var reading := l.(channel := Read(l.channel), thread := Reading);
    assert TimedDo(flags, l, Test) == Some(polling);
    assert TimedDo(flags, polling, Wakes) == Some(reading);
    Three(flags, l, Test, Wakes, Reads);
    var parsed := TimedDo(flags, reading, Reads).value;
    TimedOne(flags, parsed, CallsLogger);
    TimedConcat(flags, l, [Test, Wakes, Reads], [CallsLogger]);
  }

  function Replies(): seq<Event> { [Begins, Copies, Posts] }

  lemma RepliesBlock(flags: seq<bool>, l: Log)
    requires l.thread.Responding? && l.channel.client.Holding?
    ensures TimedPlay(flags, l, Replies()) == Some(l.(channel := Answered(l.channel, REPLY), thread := Testing))
  {
    Three(flags, l, Begins, Copies, Posts);
  }

  function Round(m: LogMessage): seq<Event> { Sends(m) + Logs() + Replies() + [Server(ServerWakes)] }

  // Between messages.
  predicate Resting(l: Log) { Quiet(l.channel) && Ready(l) && |l.lines| == |l.channel.requests| }

  lemma RoundBlock(flags: seq<bool>, l: Log, m: LogMessage)
    requires Resting(l) && |l.channel.requests| < |flags| && m.cmd == LOG
    ensures TimedPlay(flags, l, Round(m)).Some?
    ensures var k := TimedPlay(flags, l, Round(m)).value;
      Resting(k) && k.channel.requests == l.channel.requests + [m]
  {
    SendsBlock(flags, l, m);
    var sent := l.(channel := Sent(l.channel, m));
    LogsBlock(flags, sent);
    TimedConcat(flags, l, Sends(m), Logs());
    RepliesBlock(flags, Logged(sent));
    TimedConcat(flags, l, Sends(m) + Logs(), Replies());
    var replied := TimedPlay(flags, Logged(sent), Replies()).value;
    TimedOne(flags, replied, Server(ServerWakes));
    TimedConcat(flags, l, Sends(m) + Logs() + Replies(), [Server(ServerWakes)]);
  }

  function Rounds(k: nat, m: LogMessage): seq<Event> {
    if k == 0 then [TestConnect] + [ConnectWorks] else Rounds(k - 1, m) + Round(m)
  }

  lemma ConnectsBlock(flags: seq<bool>, slot: LogMessage)
    ensures TimedPlay(flags, Start(slot), [TestConnect] + [ConnectWorks]) == Some(Start(slot).(thread := Testing))
  {
    TimedOne(flags, Start(slot), TestConnect);
    TimedSnoc(flags, Start(slot), [TestConnect], ConnectWorks);
  }

  lemma {:induction false} RoundsBlock(flags: seq<bool>, slot: LogMessage, k: nat, m: LogMessage)
    requires k <= |flags| && m.cmd == LOG
    ensures TimedPlay(flags, Start(slot), Rounds(k, m)).Some?
    ensures var l := TimedPlay(flags, Start(slot), Rounds(k, m)).value;
      Resting(l) && |l.channel.requests| == k && AllLogs(l.channel.requests)
  {
    if k == 0 {
      ConnectsBlock(flags, slot);
    } else {
      RoundsBlock(flags, slot, k - 1, m);
      RoundBlock(flags, TimedPlay(flags, Start(slot), Rounds(k - 1, m)).value, m);
      TimedConcat(flags, Start(slot), Rounds(k - 1, m), Round(m));
    }
  }

  function TwoSends(q1: LogMessage, q2: LogMessage): seq<Event> { Sends(q1) + [Server(ServerTimesOut)] + Sends(q2) }

  // Two messages on their way, the first given up.
  function TwoSent(l: Log, q1: LogMessage, q2: LogMessage): Log {
    l.(channel := Sent(GivenUp(l.channel, q1), q2))
  }

  lemma TwoSendsBlock(flags: seq<bool>, l: Log, q1: LogMessage, q2: LogMessage)
    requires Resting(l) && |l.channel.requests| + 1 < |flags| && flags[|l.channel.requests|]
    ensures TimedPlay(flags, l, TwoSends(q1, q2)) == Some(TwoSent(l, q1, q2))
  {
    GivenUpBlock(flags, l, q1);
    SendsBlock(flags, l.(channel := GivenUp(l.channel, q1)), q2);
    TimedConcat(flags, l, Sends(q1) + [Server(ServerTimesOut)], Sends(q2));
  }

  function LostMessage(k: nat, m: LogMessage, q1: LogMessage, q2: LogMessage): seq<Event> {
    Rounds(k, m) + TwoSends(q1, q2) + Logs()
  }

  /** After any number k of answered messages, a send that gives up before the thread wakes,
      followed by another, loses its message: the logger's next line is the later message. */
  lemma MessageLostAfterTimeout(flags: seq<bool>, slot: LogMessage, k: nat, m: LogMessage, q1: LogMessage, q2: LogMessage)
    requires k + 1 < |flags| && flags[k] && m.cmd == LOG && q1.cmd == LOG && q2.cmd == LOG
    ensures TimedPlay(flags, Start(slot), LostMessage(k, m, q1, q2)).Some?
    ensures var l := TimedPlay(flags, Start(slot), LostMessage(k, m, q1, q2)).value;
      && AllLogs(l.channel.requests) && |l.channel.requests| == k + 2 && |l.lines| == k + 1
      && l.channel.requests[k] == q1 && l.lines[k] == ToLine(q2)
  {
    RoundsBlock(flags, slot, k, m);
    var l := TimedPlay(flags, Start(slot), Rounds(k, m)).value;
    TwoSendsBlock(flags, l, q1, q2);
    TimedConcat(flags, Start(slot), Rounds(k, m), TwoSends(q1, q2));
    LogsBlock(flags, TwoSent(l, q1, q2));
    TimedConcat(flags, Start(slot), Rounds(k, m) + TwoSends(q1, q2), Logs());
  }

  // In every run so timed, as long as only log messages are sent.
  ghost predicate AlwaysTranscribed(flags: seq<bool>) {
    forall slot: LogMessage, events: seq<Event> ::
      TimedPlay(flags, Start(slot), events).Some? ==>
        var l := TimedPlay(flags, Start(slot), events).value; AllLogs(l.channel.requests) ==> Transcribed(l)
  }

  /** A timing of the sends guarantees that the log lines are the messages sent, in order and
      with their own status, in every run, if and only if no send follows a timed one.  Every
      send on this channel is timed, so the guarantee ends with the second message. */
  lemma LinesInOrderIffNoSendAfterTimed(flags: seq<bool>)
    ensures AlwaysTranscribed(flags) <==> NoSendAfterTimed(flags)
  {
    if NoSendAfterTimed(flags) {
      forall slot: LogMessage, events: seq<Event> | TimedPlay(flags, Start(slot), events).Some?
        ensures var l := TimedPlay(flags, Start(slot), events).value; AllLogs(l.channel.requests) ==> Transcribed(l)
      {
        if AllLogs(TimedPlay(flags, Start(slot), events).value.channel.requests) {
          LinesAreTheMessagesSent(flags, slot, events);
        }
      }
    } else {
      var k :| 0 <= k < |flags| - 1 && flags[k];
      var a, b := LogMessage(LOG, 0, "a"), LogMessage(LOG, 0, "b");
      MessageLostAfterTimeout(flags, REPLY, k, REPLY, a, b);
    }
  }

  function TwoLate(q1: LogMessage, q2: LogMessage): seq<Event> {
    Rounds(0, q1) + TwoSends(q1, q2) + [Server(ServerTimesOut)] + Logs() + Replies() + Logs()
  }

  /** Two sends given up before the thread wakes become one line, of the second message, and one
      empty line: the thread logs its own reply as if it were a message. */
  lemma LateThreadLogsItsOwnReply(slot: LogMessage, q1: LogMessage, q2: LogMessage)
    requires q1.cmd == LOG && q2.cmd == LOG
    ensures TimedPlay([true, true], Start(slot), TwoLate(q1, q2)).Some?
    ensures var l := TimedPlay([true, true], Start(slot), TwoLate(q1, q2)).value;
      l.channel.requests == [q1, q2] && l.lines == [ToLine(q2), ToLine(REPLY)] && l.sources == [1, -1]
  {
    var f := Start(slot);
    TwoLateBlock(slot, q1, q2);
    var sends := Rounds(0, q1) + TwoSends(q1, q2) + [Server(ServerTimesOut)];
    OwnReplyBlock([true, true], TimedPlay([true, true], f, sends).value);
    TimedConcat([true, true], f, sends, Logs() + Replies() + Logs());
    assert TwoLate(q1, q2) == sends + (Logs() + Replies() + Logs());
  }

  lemma TwoLateBlock(slot: LogMessage, q1: LogMessage, q2: LogMessage)
    ensures var sends := Rounds(0, q1) + TwoSends(q1, q2) + [Server(ServerTimesOut)];
      && TimedPlay([true, true], Start(slot), sends).Some?
      && var l := TimedPlay([true, true], Start(slot), sends).value;
         && Ready(l) && l.channel.avail == 2 && l.channel.slot == q2 && l.channel.origin == 1
         && l.channel.requests == [q1, q2] && l.lines == [] && l.sources == []
  {
    var flags, f := [true, true], Start(slot);
    ConnectsBlock(flags, slot);
    var ready := f.(thread := Testing);
    TwoSendsBlock(flags, ready, q1, q2);
    TimedConcat(flags, f, Rounds(0, q1), TwoSends(q1, q2));
    TimedOne(flags, TwoSent(ready, q1, q2), Server(ServerTimesOut));
    TimedConcat(flags, f, Rounds(0, q1) + TwoSends(q1, q2), [Server(ServerTimesOut)]);
  }

  // With a token to spare, the thread's reply to a message is its next message.
  lemma OwnReplyBlock(flags: seq<bool>, l: Log)
    requires Ready(l) && l.channel.avail > 1 && l.channel.slot.cmd == LOG
    ensures TimedPlay(flags, l, Logs() + Replies() + Logs()).Some?
    ensures var k := TimedPlay(flags, l, Logs() + Replies() + Logs()).value;
      && k.channel.requests == l.channel.requests
      && k.lines == l.lines + [ToLine(l.channel.slot), ToLine(REPLY)]
      && k.sources == l.sources + [l.channel.origin, -1]
  {
    LogsBlock(flags, l);
    RepliesBlock(flags, Logged(l));
    TimedConcat(flags, l, Logs(), Replies());
    LogsBlock(flags, TimedPlay(flags, Logged(l), Replies()).value);
    TimedConcat(flags, l, Logs() + Replies(), Logs());
  }

  // --------------------------------------------------------------- the loop and the thread

  // The thread's part and the sender's for one turn of the loop that is not the last.
  function TurnEvents(turn: Turn): seq<Event> {
    match turn.message
    case None => [Test] + [TimesOut]
    case Some(m) =>
      if m.cmd == LOG then Round(m)
      else Sends(m) + [Test, Wakes, Reads] + [Server(ServerTimesOut)]
  }

  predicate AllTimed(flags: seq<bool>, from: nat) { forall i :: from <= i < |flags| ==> flags[i] }

  // The thread has consumed a message that is no log message.
  function Dropped(l: Log): Log
    requires l.channel.avail > 0
  {
    l.(channel := Read(l.channel).(client := Away, dropped := l.channel.dropped + 1))
  }

  lemma DropsBlock(flags: seq<bool>, l: Log)
    requires Ready(l) && l.channel.avail > 0 && l.channel.slot.cmd != LOG
    ensures TimedPlay(flags, l, [Test, Wakes, Reads]) == Some(Dropped(l))
  {
    var polling := l.(channel := l.channel.(client := Listening), thread := Polling);
    var reading := l.(channel := Read(l.channel), thread := Reading);
    assert TimedDo(flags, l, Test) == Some(polling) && TimedDo(flags, polling, Wakes) == Some(reading);
    assert TimedDo(flags, reading, Reads) == Some(Dropped(l));
    Three(flags, l, Test, Wakes, Reads);
  }

  lemma DropBlock(flags: seq<bool>, l: Log, m: LogMessage)
    requires Quiet(l.channel) && Ready(l) && |l.channel.requests| < |flags| && flags[|l.channel.requests|]
    requires m.cmd != LOG
    ensures TimedPlay(flags, l, Sends(m) + [Test, Wakes, Reads] + [Server(ServerTimesOut)]).Some?
    ensures var k := TimedPlay(flags, l, Sends(m) + [Test, Wakes, Reads] + [Server(ServerTimesOut)]).value;
      && Quiet(k.channel) && Ready(k) && k.lines == l.lines && k.channel.replies == l.channel.replies
      && |k.channel.requests| == |l.channel.requests| + 1
  {
    SendsBlock(flags, l, m);
    var sent := l.(channel := Sent(l.channel, m));
    DropsBlock(flags, sent);
    TimedConcat(flags, l, Sends(m), [Test, Wakes, Reads]);
    TimedOne(flags, Dropped(sent), Server(ServerTimesOut));
    TimedConcat(flags, l, Sends(m) + [Test, Wakes, Reads], [Server(ServerTimesOut)]);
  }

  lemma LogBlock(flags: seq<bool>, l: Log, m: LogMessage)
    requires Quiet(l.channel) && Ready(l) && |l.channel.requests| < |flags| && m.cmd == LOG
    ensures TimedPlay(flags, l, Round(m)).Some?
    ensures var k := TimedPlay(flags, l, Round(m)).value;
      && Quiet(k.channel) && Ready(k) && k.lines == l.lines + [ToLine(m)]
      && k.channel.replies == l.channel.replies + [REPLY] && |k.channel.requests| == |l.channel.requests| + 1
  {
    SendsBlock(flags, l, m);
    var sent := l.(channel := Sent(l.channel, m));
    LogsBlock(flags, sent);
    TimedConcat(flags, l, Sends(m), Logs());
    RepliesBlock(flags, Logged(sent));
    TimedConcat(flags, l, Sends(m) + Logs(), Replies());
    var replied := TimedPlay(flags, Logged(sent), Replies()).value;
    TimedOne(flags, replied, Server(ServerWakes));
    TimedConcat(flags, l, Sends(m) + Logs() + Replies(), [Server(ServerWakes)]);
  }

  lemma IdleBlock(flags: seq<bool>, l: Log)
    requires Quiet(l.channel) && Ready(l)
    ensures TimedPlay(flags, l, [Test] + [TimesOut]) == Some(l)
    ensures TimedPlay(flags, l, [Deactivates] + [Test]) == Some(l.(active := false, thread := Done))
  {
    TimedOne(flags, l, Test);
    TimedSnoc(flags, l, [Test], TimesOut);
    TimedOne(flags, l, Deactivates);
    TimedSnoc(flags, l, [Deactivates], Test);
  }

  lemma TurnBlock(flags: seq<bool>, l: Log, turn: Turn)
    requires turn.active && Quiet(l.channel) && Ready(l)
    requires |l.channel.requests| < |flags| && flags[|l.channel.requests|]
    ensures TimedPlay(flags, l, TurnEvents(turn)).Some?
    ensures var k := TimedPlay(flags, l, TurnEvents(turn)).value;
      && Quiet(k.channel) && Ready(k) && k.lines == l.lines + LineOf(turn)
      && |k.channel.replies| == |l.channel.replies| + |LineOf(turn)|
      && |l.channel.requests| <= |k.channel.requests| <= |l.channel.requests| + 1
  {
    match turn.message
    case None =>
      IdleBlock(flags, l);
      assert l.lines + [] == l.lines;
    case Some(m) =>
      if m.cmd == LOG { LogBlock(flags, l, m); } else { DropBlock(flags, l, m); }
  }

  // The thread has made these calls of the logger and ended or not.
  ghost predicate Looped(l: Log, k: Log, turns: seq<Turn>, i: nat)
    requires i <= |turns|
  {
    && k.lines == l.lines + LinesFrom(turns, i)
    && |k.channel.replies| == |l.channel.replies| + |LinesFrom(turns, i)|
    && (k.thread.Done? <==> exists j :: i <= j < |turns| && !turns[j].active)
  }

  lemma LoopedMore(l: Log, k: Log, end: Log, turns: seq<Turn>, i: nat)
    requires i < |turns| && turns[i].active && Looped(k, end, turns, i + 1)
    requires k.lines == l.lines + LineOf(turns[i]) && |k.channel.replies| == |l.channel.replies| + |LineOf(turns[i])|
    ensures Looped(l, end, turns, i)
  {
    assert l.lines + (LineOf(turns[i]) + LinesFrom(turns, i + 1)) == l.lines + LineOf(turns[i]) + LinesFrom(turns, i + 1);
  }

  /** The loop as code is the thread of the machine: for any turns there is a run in which the
      thread, fed their messages, makes the same calls of the logger, as many replies, and
      ends when the loop does. */
  lemma {:induction false} LoopIsARun(flags: seq<bool>, l: Log, turns: seq<Turn>, i: nat) returns (events: seq<Event>)
    requires i <= |turns| && Quiet(l.channel) && Ready(l)
    requires AllTimed(flags, |l.channel.requests|) && |l.channel.requests| + |turns| - i <= |flags|
    ensures TimedPlay(flags, l, events).Some? && Looped(l, TimedPlay(flags, l, events).value, turns, i)
    decreases |turns| - i
  {
    if i == |turns| {
      events := [];
      assert l.lines + [] == l.lines;
    } else if !turns[i].active {
      events := [Deactivates] + [Test];
      IdleBlock(flags, l);
      assert l.lines + [] == l.lines;
    } else {
      TurnBlock(flags, l, turns[i]);
      var k := TimedPlay(flags, l, TurnEvents(turns[i])).value;
      var rest := LoopIsARun(flags, k, turns, i + 1);
      TimedConcat(flags, l, TurnEvents(turns[i]), rest);
      LoopedMore(l, k, TimedPlay(flags, k, rest).value, turns, i);
      events := TurnEvents(turns[i]) + rest;
    }
  }
}
