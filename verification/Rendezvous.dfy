/** The shared-memory rendezvous of libshmipc: one message slot and two counting
    semaphores connect a server process (IpcServer) and a client process (IpcClient).
    Nothing locks the slot.  Every atomic action of the two processes is one `Step`;
    the lemmas range over all interleavings, with timed and untimed server waits. */
module Rendezvous {
  import opened Wrappers

  // Where the server process is inside `IpcServer::send`; `Idle` is outside it.
  datatype ServerPc<+M> = Idle | Copying(message: M) | Copied | Waiting

  // Where the client process is: outside, inside `getMessage`, between `getMessage`
  // and `sendReply` (it owns a pointer into the slot), or inside `sendReply`.
  datatype ClientPc<+M> = Away | Listening | Holding | Replying(reply: M) | Replied

  /** The shared state, the two program positions, and the history of the run. */
  datatype Channel<+M> = Channel(
    slot: M,
    avail: nat,
    signal: nat,
    server: ServerPc<M>,
    client: ClientPc<M>,
    requests: seq<M>,      // messages the server copied into the slot
    taken: seq<M>,         // slot contents when the client consumed `avail`
    replies: seq<M>,       // messages the client copied into the slot
    returned: seq<M>,      // slot contents when the server consumed `signal`
    timeouts: nat,         // sends that gave up waiting
    dropped: nat,          // messages the client consumed and never answered
    origin: int,           // index of the request now in the slot, or -1
    origins: seq<int>)     // `origin` when each message was taken

  datatype Step<+M> =
    | ServerBegins(message: M) // enter send
    | ServerCopies             // m_pBuf->message = *message
    | ServerPosts              // signalPost(m_hAvail)
    | ServerWakes              // signalWait(m_hSignal) succeeds
    | ServerTimesOut           // signalWait(m_hSignal, t) fails, t != 0
    | ClientListens            // enter getMessage
    | ClientWakes              // signalWait(m_hAvail) succeeds
    | ClientTimesOut           // signalWait(m_hAvail, t) fails
    | ClientEdits(edited: M)   // write through the pointer getMessage returned
    | ClientDrops              // call getMessage again without replying
    | ClientBegins(reply: M)   // enter sendReply
    | ClientCopies             // m_pBuf->message = *reply
    | ClientPosts              // signalPost(m_hSignal)
  {
    predicate ByServer() {
      ServerBegins? || ServerCopies? || ServerPosts? || ServerWakes? || ServerTimesOut?
    }
  }

  function Fresh<M>(slot: M): Channel<M> {
    Channel(slot, 0, 0, Idle, Away, [], [], [], [], 0, 0, -1, [])
  }

  /** One atomic action; None when the process is not at that point. */
  function Next<M>(c: Channel<M>, step: Step<M>): Option<Channel<M>> {
    match step
    case ServerBegins(m) =>
      if c.server.Idle? then Some(c.(server := Copying(m))) else None
    case ServerCopies =>
      if c.server.Copying? then
        Some(c.(slot := c.server.message, server := Copied,
                requests := c.requests + [c.server.message], origin := |c.requests|))
      else None
    case ServerPosts =>
      if c.server.Copied? then Some(c.(avail := c.avail + 1, server := Waiting)) else None
    case ServerWakes =>
      if c.server.Waiting? && c.signal > 0 then
        Some(c.(signal := c.signal - 1, server := Idle, returned := c.returned + [c.slot]))
      else None
    case ServerTimesOut =>
      if c.server.Waiting? then Some(c.(server := Idle, timeouts := c.timeouts + 1)) else None
    case ClientListens =>
      if c.client.Away? then Some(c.(client := Listening)) else None
    case ClientWakes =>
      if c.client.Listening? && c.avail > 0 then
        Some(c.(avail := c.avail - 1, client := Holding,
                taken := c.taken + [c.slot], origins := c.origins + [c.origin]))
      else None
    case ClientTimesOut =>
      if c.client.Listening? then Some(c.(client := Away)) else None
    case ClientEdits(m) =>
      if c.client.Holding? then Some(c.(slot := m, origin := -1)) else None
    case ClientDrops =>
      if c.client.Holding? then Some(c.(client := Away, dropped := c.dropped + 1)) else None
    case ClientBegins(m) =>
      if c.client.Holding? then Some(c.(client := Replying(m))) else None
    case ClientCopies =>
      if c.client.Replying? then
        Some(c.(slot := c.client.reply, client := Replied,
                replies := c.replies + [c.client.reply], origin := -1))
      else None
    case ClientPosts =>
      if c.client.Replied? then Some(c.(signal := c.signal + 1, client := Away)) else None
  }

  /** A finite run: the steps are taken one after the other. */
  function Run<M>(c: Channel<M>, steps: seq<Step<M>>): Option<Channel<M>> {
    if steps == [] then Some(c) else
    match Run(c, steps[..|steps| - 1])
    case None => None
    case Some(d) => Next(d, steps[|steps| - 1])
  }

  lemma Snoc<M>(c: Channel<M>, steps: seq<Step<M>>, step: Step<M>)
    ensures Run(c, steps + [step]) == match Run(c, steps) case None => None case Some(d) => Next(d, step)
  {
    assert (steps + [step])[..|steps|] == steps;
  }

  lemma Extend<M>(c: Channel<M>, steps: seq<Step<M>>, step: Step<M>)
    requires Run(c, steps).Some?
    ensures Run(c, steps + [step]) == Next(Run(c, steps).value, step)
  {
    assert (steps + [step])[..|steps|] == steps;
  }

  lemma {:induction false} RunConcat<M>(c: Channel<M>, a: seq<Step<M>>, b: seq<Step<M>>)
    ensures Run(c, a + b) == match Run(c, a) case None => None case Some(d) => Run(d, b)
  {
    if b == [] {
      assert a + b == a;
    } else {
      var front, last := b[..|b| - 1], b[|b| - 1];
      RunConcat(c, a, front);
      Snoc(c, a + front, last);
      assert a + b == a + front + [last];
    }
  }

  // ---------------------------------------------------------------- conservation

  function One(b: bool): nat { if b then 1 else 0 }

  // The server may touch the slot whenever it does not wait: outside `send` it still
  // holds the pointer `send` returned, and inside it is about to overwrite the slot.
  predicate ServerOwns<M>(c: Channel<M>) { !c.server.Waiting? }

  predicate ClientOwns<M>(c: Channel<M>) {
    c.client.Holding? || c.client.Replying? || c.client.Replied?
  }

  /** What relates the history to the semaphores after every step. */
  ghost predicate Counted<M>(c: Channel<M>) {
    && |c.requests| == |c.returned| + c.timeouts + One(c.server.Copied? || c.server.Waiting?)
    && |c.requests| == |c.taken| + c.avail + One(c.server.Copied?)
    && |c.taken| == |c.replies| + c.dropped + One(c.client.Holding? || c.client.Replying?)
    && |c.replies| == |c.returned| + c.signal + One(c.client.Replied?)
  }

  lemma CountedServer<M>(c: Channel<M>, step: Step<M>)
    requires Counted(c) && step.ByServer() && Next(c, step).Some?
    ensures Counted(Next(c, step).value)
  {
  }

  lemma CountedClient<M>(c: Channel<M>, step: Step<M>)
    requires Counted(c) && !step.ByServer() && Next(c, step).Some?
    ensures Counted(Next(c, step).value)
  {
  }

  lemma CountedNext<M>(c: Channel<M>, step: Step<M>)
    requires Counted(c) && Next(c, step).Some?
    ensures Counted(Next(c, step).value)
  {
    if step.ByServer() { CountedServer(c, step); } else { CountedClient(c, step); }
  }

  lemma {:induction false} CountedRun<M>(slot: M, steps: seq<Step<M>>)
    requires Run(Fresh(slot), steps).Some?
    ensures Counted(Run(Fresh(slot), steps).value)
  {
    if steps != [] {
      var before := steps[..|steps| - 1];
      CountedRun(slot, before);
      CountedNext(Run(Fresh(slot), before).value, steps[|steps| - 1]);
    }
  }

  /** Tokens are conserved: every timed-out send leaves one extra token behind and every
      unanswered message consumes one.  So `avail` and the client's backlog stay below
      1 + timeouts, and the reply the next successful wait consumes is the one numbered
      (sends so far) - (timeouts). */
  lemma TokenConservation<M>(slot: M, steps: seq<Step<M>>)
    requires Run(Fresh(slot), steps).Some?
    ensures var c := Run(Fresh(slot), steps).value;
      && c.avail + c.signal + One(ServerOwns(c)) + One(ClientOwns(c)) + c.dropped == 1 + c.timeouts
      && c.avail <= 1 + c.timeouts
      && |c.requests| - |c.taken| <= 1 + c.timeouts
      && (c.server.Waiting? ==> |c.returned| + 1 == |c.requests| - c.timeouts)
  {
    CountedRun(slot, steps);
  }

  /** As long as every timed-out send is matched by an unanswered message, at most one
      process may touch the slot, and no semaphore ever holds more than one token. */
  lemma ExclusiveOwnership<M>(slot: M, steps: seq<Step<M>>)
    requires Run(Fresh(slot), steps).Some?
    requires var c := Run(Fresh(slot), steps).value; c.timeouts == c.dropped
    ensures var c := Run(Fresh(slot), steps).value;
      && !(ServerOwns(c) && ClientOwns(c))
      && c.avail + c.signal <= 1
      && (c.avail + c.signal == 1 ==> !ServerOwns(c) && !ClientOwns(c))
  {
    TokenConservation(slot, steps);
  }

  // ------------------------------------------------------------- correspondence

  /** With no timeout so far, the histories match up. */
  ghost predicate Faithful<M>(c: Channel<M>) {
    c.timeouts == 0 && Counted(c) ==>
      && c.taken <= c.requests
      && c.returned <= c.replies
      && (c.server.Copied? || c.avail > 0 ==> c.requests != [] && c.slot == c.requests[|c.requests| - 1])
      && (c.client.Replied? || c.signal > 0 ==> c.replies != [] && c.slot == c.replies[|c.replies| - 1])
      && (!c.server.Waiting? && !c.server.Copied? && c.returned != [] ==>
            c.slot == c.returned[|c.returned| - 1])
  }

  lemma FaithfulServer<M>(c: Channel<M>, step: Step<M>)
    requires Counted(c) && Faithful(c) && step.ByServer() && Next(c, step).Some?
    ensures Faithful(Next(c, step).value)
  {
    CountedNext(c, step);
  }

  // The client's waiting and posting leave slot and histories alone.
  lemma FaithfulIdleClient<M>(c: Channel<M>, step: Step<M>)
    requires step.ClientListens? || step.ClientTimesOut? || step.ClientBegins? || step.ClientPosts?
    requires Counted(c) && Faithful(c) && Next(c, step).Some?
    ensures Faithful(Next(c, step).value)
  {
    CountedNext(c, step);
  }

  lemma FaithfulWakes<M>(c: Channel<M>)
    requires Counted(c) && Faithful(c) && Next(c, ClientWakes).Some?
    ensures Faithful(Next(c, ClientWakes).value)
  {
    CountedNext(c, ClientWakes);
  }

  // The client has the slot to itself while it edits, drops or answers a message.
  lemma FaithfulOwner<M>(c: Channel<M>, step: Step<M>)
    requires step.ClientEdits? || step.ClientDrops? || step.ClientCopies?
    requires Counted(c) && Faithful(c) && Next(c, step).Some?
    ensures Faithful(Next(c, step).value)
  {
    CountedNext(c, step);
    assert c.timeouts == 0 ==> c.server.Waiting? && c.avail == 0 && c.signal == 0;
  }

  lemma FaithfulNext<M>(c: Channel<M>, step: Step<M>)
    requires Counted(c) && Faithful(c) && Next(c, step).Some?
    ensures Faithful(Next(c, step).value)
  {
    if step.ByServer() { FaithfulServer(c, step); }
    else if step.ClientWakes? { FaithfulWakes(c); }
    else if step.ClientEdits? || step.ClientDrops? || step.ClientCopies? { FaithfulOwner(c, step); }
    else { FaithfulIdleClient(c, step); }
  }

  lemma {:induction false} FaithfulRun<M>(slot: M, steps: seq<Step<M>>)
    requires Run(Fresh(slot), steps).Some?
    ensures Faithful(Run(Fresh(slot), steps).value)
  {
    if steps != [] {
      var before := steps[..|steps| - 1];
      FaithfulRun(slot, before);
      CountedRun(slot, before);
      FaithfulNext(Run(Fresh(slot), before).value, steps[|steps| - 1]);
    }
  }

  lemma FaithfulMeans<M>(c: Channel<M>)
    requires Counted(c) && Faithful(c) && c.timeouts == 0
    ensures c.returned <= c.replies && c.taken <= c.requests
    ensures |c.returned| <= |c.replies| <= |c.taken| <= |c.requests| <= |c.returned| + 1
    ensures c.dropped <= 1
    ensures c.dropped == 1 ==> c.server.Waiting? && c.avail == 0 && c.signal == 0 && c.taken == c.requests
    ensures (c.server.Idle? || c.server.Copying?) && c.returned != [] ==> c.slot == c.returned[|c.returned| - 1]
  {
    if c.dropped == 1 { assert |c.taken| == |c.requests|; }
  }

  /** Untimed sends: the n-th completed send returns the n-th reply, the n-th message the
      client reads is the n-th request unaltered, and nothing is duplicated or reordered.  A
      message the client leaves unanswered is the last one: its send waits for ever.  The
      pointer a completed send returned keeps showing its reply until the server copies its
      next message. */
  lemma CallCorrespondence<M>(slot: M, steps: seq<Step<M>>)
    requires Run(Fresh(slot), steps).Some?
    requires Run(Fresh(slot), steps).value.timeouts == 0
    ensures var c := Run(Fresh(slot), steps).value;
      && c.returned <= c.replies
      && c.taken <= c.requests
      && |c.returned| <= |c.replies| <= |c.taken| <= |c.requests| <= |c.returned| + 1
      && c.dropped <= 1
      && (c.dropped == 1 ==> c.server.Waiting? && c.avail == 0 && c.signal == 0 && c.taken == c.requests)
      && ((c.server.Idle? || c.server.Copying?) && c.returned != [] ==>
            c.slot == c.returned[|c.returned| - 1])
  {
    CountedRun(slot, steps);
    FaithfulRun(slot, steps);
    FaithfulMeans(Run(Fresh(slot), steps).value);
  }

  lemma {:induction false} NoSendNoReturn<M>(c: Channel<M>, steps: seq<Step<M>>)
    requires c.server.Idle? && Run(c, steps).Some?
    requires forall i :: 0 <= i < |steps| ==> !steps[i].ServerBegins?
    ensures Run(c, steps).value.server.Idle?
    ensures Run(c, steps).value.returned == c.returned
    ensures Run(c, steps).value.requests == c.requests
  {
    if steps != [] {
      NoSendNoReturn(c, steps[..|steps| - 1]);
    }
  }

  /** A timed send that ends the life of a channel does no harm: when the only timeout is
      that of the last send, every value any send returned is the reply to that very send,
      whatever the client does with the last message, before or after the timeout. */
  lemma CorrespondenceUntilTeardown<M>(slot: M, calls: seq<Step<M>>, after: seq<Step<M>>)
    requires Run(Fresh(slot), calls).Some?
    requires var c := Run(Fresh(slot), calls).value;
      c.server.Waiting? && c.timeouts == 0
    requires forall i :: 0 <= i < |after| ==> !after[i].ServerBegins?
    requires Run(Fresh(slot), calls + [ServerTimesOut] + after).Some?
    ensures var c := Run(Fresh(slot), calls).value;
      var d := Run(Fresh(slot), calls + [ServerTimesOut] + after).value;
      && d.returned == c.returned && d.requests == c.requests
      && c.returned <= c.replies && c.taken <= c.requests
      && |d.returned| == |d.requests| - 1
  {
    CallCorrespondence(slot, calls);
    CountedRun(slot, calls);
    var closing := calls + [ServerTimesOut];
    assert closing[..|closing| - 1] == calls;
    RunConcat(Fresh(slot), closing, after);
    NoSendNoReturn(Run(Fresh(slot), closing).value, after);
  }

  // -------------------------------------------------------- timed sends in general

  ghost predicate Ordered<M>(c: Channel<M>) {
    && |c.origins| == |c.taken|
    && -1 <= c.origin < |c.requests|
    && (c.origin >= 0 ==> c.slot == c.requests[c.origin])
    && (forall i :: 0 <= i < |c.origins| ==> -1 <= c.origins[i] < |c.requests|)
    && (forall i :: 0 <= i < |c.origins| && c.origins[i] >= 0 ==> c.taken[i] == c.requests[c.origins[i]])
    && (c.dropped == 0 ==>
          && (forall i, j :: 0 <= i < j < |c.origins| && c.origins[i] >= 0 && c.origins[j] >= 0 ==>
                c.origins[i] < c.origins[j])
          && (forall i :: 0 <= i < |c.origins| && c.origin >= 0 ==>
                c.origins[i] < c.origin
                || (i == |c.origins| - 1 && c.origins[i] == c.origin && (c.client.Holding? || c.client.Replying?))))
  }

  // Steps that neither read nor write the slot.
  lemma OrderedQuiet<M>(c: Channel<M>, step: Step<M>)
    requires Ordered(c) && Next(c, step).Some?
    requires !step.ServerCopies? && !step.ClientWakes? && !step.ClientEdits? && !step.ClientCopies?
    ensures Ordered(Next(c, step).value)
  {
    var d := Next(c, step).value;
    assert d.origin == c.origin && d.origins == c.origins && d.taken == c.taken && d.requests == c.requests;
  }

  lemma OrderedCopies<M>(c: Channel<M>)
    requires Ordered(c) && Next(c, ServerCopies).Some?
    ensures Ordered(Next(c, ServerCopies).value)
  {
    var d := Next(c, ServerCopies).value;
    assert d.origin == |c.requests| && d.origins == c.origins && d.taken == c.taken;
  }

  lemma OrderedWakes<M>(c: Channel<M>)
    requires Ordered(c) && Next(c, ClientWakes).Some?
    ensures Ordered(Next(c, ClientWakes).value)
  {
    var d := Next(c, ClientWakes).value;
    assert d.origin == c.origin && d.origins == c.origins + [c.origin] && d.requests == c.requests;
  }

  // The client's own text is in the slot.
  lemma OrderedOverwrites<M>(c: Channel<M>, step: Step<M>)
    requires step.ClientEdits? || step.ClientCopies?
    requires Ordered(c) && Next(c, step).Some?
    ensures Ordered(Next(c, step).value)
  {
    var d := Next(c, step).value;
    assert d.origin == -1 && d.origins == c.origins && d.taken == c.taken && d.requests == c.requests;
  }

  lemma OrderedNext<M>(c: Channel<M>, step: Step<M>)
    requires Ordered(c) && Next(c, step).Some?
    ensures Ordered(Next(c, step).value)
  {
    match step {
      case ServerCopies => OrderedCopies(c);
      case ClientWakes => OrderedWakes(c);
      case ClientEdits(_) => OrderedOverwrites(c, step);
      case ClientCopies => OrderedOverwrites(c, step);
      case _ => OrderedQuiet(c, step);
    }
  }

  lemma {:induction false} OrderedRun<M>(slot: M, steps: seq<Step<M>>)
    requires Run(Fresh(slot), steps).Some?
    ensures Ordered(Run(Fresh(slot), steps).value)
  {
    if steps != [] {
      var before := steps[..|steps| - 1];
      OrderedRun(slot, before);
      OrderedNext(Run(Fresh(slot), before).value, steps[|steps| - 1]);
    }
  }

  /** Any number of timed-out sends can lose messages but never duplicates or reorders them:
      if the client answers everything, the requests it reads are distinct and in sending
      order.  What it reads besides (origin -1) is text of its own or the initial slot.  This
      is about the slot when the client wakes; after a timeout the server may overwrite it
      before the client looks, for which see `LogOrder.LinesInSendingOrder`. */
  lemma LateClientReadsInOrder<M>(slot: M, steps: seq<Step<M>>)
    requires Run(Fresh(slot), steps).Some?
    requires Run(Fresh(slot), steps).value.dropped == 0
    ensures var c := Run(Fresh(slot), steps).value;
      && |c.origins| == |c.taken|
      && (forall i :: 0 <= i < |c.origins| && c.origins[i] >= 0 ==>
            c.origins[i] < |c.requests| && c.taken[i] == c.requests[c.origins[i]])
      && (forall i, j :: 0 <= i < j < |c.origins| && c.origins[i] >= 0 && c.origins[j] >= 0 ==>
            c.origins[i] < c.origins[j])
  {
    OrderedRun(slot, steps);
  }

  // A send of `m` up to the wait, and a served message, as step sequences.
  function SendSteps<M>(m: M): seq<Step<M>> { [ServerBegins(m), ServerCopies, ServerPosts] }
  function ReplySteps<M>(r: M): seq<Step<M>> { [ClientBegins(r), ClientCopies, ClientPosts] }

  lemma ThreeSteps<M>(c: Channel<M>, steps: seq<Step<M>>, s1: Step<M>, s2: Step<M>, s3: Step<M>)
    requires Run(c, steps).Some? && Next(Run(c, steps).value, s1).Some?
    requires Next(Next(Run(c, steps).value, s1).value, s2).Some?
    ensures Run(c, steps + [s1, s2, s3]) == Next(Next(Next(Run(c, steps).value, s1).value, s2).value, s3)
  {
    Extend(c, steps, s1);
    Extend(c, steps + [s1], s2);
    Extend(c, steps + [s1] + [s2], s3);
    assert steps + [s1, s2, s3] == steps + [s1] + [s2] + [s3];
  }

  function EchoRun<M>(q1: M, r1: M, q2: M): seq<Step<M>> {
    SendSteps(q1) + [ServerTimesOut, ClientListens, ClientWakes] + ReplySteps(r1) + SendSteps(q2) + [ServerWakes]
  }

  /** If the late reply is complete before the next send, that send overwrites it and then
      finds the left-over token: it returns its own request as if it were the reply. */
  lemma EchoAfterTimeout<M>(slot: M, q1: M, r1: M, q2: M)
    ensures Run(Fresh(slot), EchoRun(q1, r1, q2)).Some?
    ensures var c := Run(Fresh(slot), EchoRun(q1, r1, q2)).value;
      && c.timeouts == 1 && c.dropped == 0 && c.server.Idle? && c.avail == 1
      && c.requests == [q1, q2] && c.taken == [q1] && c.replies == [r1] && c.returned == [q2]
  {
    var f := Fresh(slot);
    ThreeSteps(f, [], ServerBegins(q1), ServerCopies, ServerPosts);
    assert [] + SendSteps(q1) == SendSteps(q1);
    var a := SendSteps(q1);
    ThreeSteps(f, a, ServerTimesOut, ClientListens, ClientWakes);
    var b := a + [ServerTimesOut, ClientListens, ClientWakes];
    ThreeSteps(f, b, ClientBegins(r1), ClientCopies, ClientPosts);
    ThreeSteps(f, b + ReplySteps(r1), ServerBegins(q2), ServerCopies, ServerPosts);
    Extend(f, b + ReplySteps(r1) + SendSteps(q2), ServerWakes);
  }
}
