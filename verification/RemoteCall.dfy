/** Remote calls over the rendezvous: a caller (FmuProxy) issues a list of calls, a driver
    loop on the other side answers them with a state of its own, and the two processes
    interleave freely.  The machine is generic in the payload `P`, its serialized size, and
    the driver, so it covers both driver loops of the repository. */
module RemoteCall {
  import opened Rendezvous
  import opened Wrappers

  const BUFFER_SIZE: nat := 10000 // SharedFmiBufferSize

  // SharedFmiMessage, with the payload in place of its bytes.
  datatype Message<+P> = Message(cmd: int, payload: P, size: nat)
  datatype Call<+P> = Call(cmd: int, payload: P)

  // A driver: its initial state, its answer to a call (None: it sends no reply), and
  // whether it edits the message in the shared slot or replies from a private buffer.
  datatype Driver<!S, !P> = Driver(start: S, answer: (S, Call<P>) -> (S, Option<P>), inPlace: bool)

  // `served`: the driver edited the slot in place and has yet to call sendReply.
  datatype Session<S, +P> = Session(
    channel: Channel<Message<P>>,
    issued: nat,
    results: seq<Option<P>>, // what FmuProxy::send returned to each call; None is NULL
    state: S,
    served: bool)

  datatype Event =
    | CallerCalls | CallerCopies | CallerPosts | CallerReturns
    | DriverListens | DriverWakes | DriverTimesOut | DriverServes | DriverSendsBack
    | DriverCopies | DriverPosts

  datatype Setup<!S, !P> = Setup(driver: Driver<S, P>, size: P -> nat, calls: seq<Call<P>>)
  {
    predicate Oversize(c: Call<P>) { size(c.payload) > BUFFER_SIZE }

    function Marshal(c: Call<P>): Message<P> { Message(c.cmd, c.payload, size(c.payload)) }

    // The driver's reply keeps the command code of the request.
    function Reply(cmd: int, p: P): Message<P> { Message(cmd, p, size(p)) }
  }

  function Begin<S, P>(u: Setup<S, P>, slot: Message<P>): Session<S, P> {
    Session(Fresh(slot), 0, [], u.driver.start, false)
  }

  function OnChannel<S, P>(s: Session<S, P>, step: Step<Message<P>>): Option<Session<S, P>> {
    match Next(s.channel, step)
    case None => None
    case Some(c) => Some(s.(channel := c))
  }

  function Do<S, P>(u: Setup<S, P>, s: Session<S, P>, e: Event): Option<Session<S, P>> {
    match e
    case CallerCalls =>
      if s.channel.server.Idle? && s.issued < |u.calls| then
        var call := u.calls[s.issued];
        if u.Oversize(call) then
          Some(s.(issued := s.issued + 1, results := s.results + [None]))
        else
          OnChannel(s.(issued := s.issued + 1), ServerBegins(u.Marshal(call)))
      else None
    case CallerCopies => OnChannel(s, ServerCopies)
    case CallerPosts => OnChannel(s, ServerPosts)
    case CallerReturns =>
      OnChannel(s.(results := s.results + [Some(s.channel.slot.payload)]), ServerWakes)
    case DriverListens => OnChannel(s, ClientListens)
    case DriverWakes => OnChannel(s, ClientWakes)
    case DriverTimesOut => OnChannel(s, ClientTimesOut)
    case DriverServes =>
      if s.channel.client.Holding? && !s.served then
        var m := s.channel.slot;
        var (state', answer) := u.driver.answer(s.state, Call(m.cmd, m.payload));
        match answer
        case None => OnChannel(s.(state := state'), ClientDrops)
        case Some(p) =>
          if u.driver.inPlace then
            OnChannel(s.(state := state', served := true), ClientEdits(u.Reply(m.cmd, p)))
          else
            OnChannel(s.(state := state', served := true), ClientBegins(u.Reply(m.cmd, p)))
      else None
    case DriverSendsBack =>
      if u.driver.inPlace && s.served then OnChannel(s, ClientBegins(s.channel.slot)) else None
    case DriverCopies => OnChannel(s, ClientCopies)
    case DriverPosts => OnChannel(s.(served := false), ClientPosts)
  }

  function Play<S, P>(u: Setup<S, P>, s: Session<S, P>, events: seq<Event>): Option<Session<S, P>> {
    if events == [] then Some(s) else
    match Play(u, s, events[..|events| - 1])
    case None => None
    case Some(t) => Do(u, t, events[|events| - 1])
  }

  // ------------------------------------------------------------- reference: direct calls

  /** The driver's state after the first n calls were made directly, one after the other;
      an oversize call never reaches it. */
  function DirectState<S, P>(u: Setup<S, P>, n: nat): S
    requires n <= |u.calls|
  {
    if n == 0 then u.driver.start
    else if u.Oversize(u.calls[n - 1]) then DirectState(u, n - 1)
    else u.driver.answer(DirectState(u, n - 1), u.calls[n - 1]).0
  }

  function DirectResult<S, P>(u: Setup<S, P>, n: nat): Option<P>
    requires n < |u.calls|
  {
    if u.Oversize(u.calls[n]) then None else u.driver.answer(DirectState(u, n), u.calls[n]).1
  }

  predicate Answered<S, P>(u: Setup<S, P>) {
    forall n :: 0 <= n < |u.calls| && !u.Oversize(u.calls[n]) ==> DirectResult(u, n).Some?
  }

  // ------------------------------------------------------------------ invariant

  ghost predicate Progressed<S, P>(u: Setup<S, P>, s: Session<S, P>, n: nat, state: nat)
    requires n <= |u.calls| && state <= |u.calls|
  {
    && |s.results| == n
    && (forall i :: 0 <= i < n ==> s.results[i] == DirectResult(u, i))
    && s.state == DirectState(u, state)
  }

  ghost predicate Consistent<S, P>(u: Setup<S, P>, s: Session<S, P>) {
    var c := s.channel;
    && c.avail + c.signal + One(ServerOwns(c)) + One(ClientOwns(c)) + c.dropped == 1
    && c.timeouts == 0
    && s.issued <= |u.calls|
    && (s.served ==> ClientOwns(c))
    && (c.client.Replying? || c.client.Replied? ==> s.served)
    && (c.client.Holding? && s.served ==> u.driver.inPlace)
    && if c.server.Idle? then Progressed(u, s, s.issued, s.issued)
       else
         && s.issued > 0
         && var call := u.calls[s.issued - 1];
            && !u.Oversize(call)
            && (c.server.Copying? ==> c.server.message == u.Marshal(call))
            && (c.server.Copied? ==> c.slot == u.Marshal(call))
            && if c.dropped > 0 then
                 && Progressed(u, s, s.issued - 1, s.issued) && DirectResult(u, s.issued - 1) == None
                 && c.slot == u.Marshal(call)
               else if c.signal > 0 || s.served then
                 && Progressed(u, s, s.issued - 1, s.issued)
                 && DirectResult(u, s.issued - 1).Some?
                 && var reply := u.Reply(call.cmd, DirectResult(u, s.issued - 1).value);
                    && (c.client.Replying? ==> c.client.reply == reply)
                    && (!c.client.Replying? ==> c.slot == reply)
               else
                 && Progressed(u, s, s.issued - 1, s.issued - 1)
                 && (c.server.Waiting? ==> c.slot == u.Marshal(call))
  }

  // -------------------------------------------------------------------- work still due

  // Actions that move a call forward.  The others are the driver's polling loop.
  predicate Productive(e: Event) { !e.DriverListens? && !e.DriverTimesOut? }

  // Productive actions still due for the outstanding call.
  function Outstanding<S, P>(u: Setup<S, P>, s: Session<S, P>): nat {
    var extra := One(u.driver.inPlace);
    var c := s.channel;
    if c.server.Idle? then 0
    else if c.server.Copying? then 7 + extra
    else if c.server.Copied? then 6 + extra
    else if c.signal > 0 then 1
    else if c.client.Replied? then 2
    else if c.client.Replying? then 3
    else if c.client.Holding? then if s.served then 4 else 4 + extra
    else 5 + extra
  }

  function CallsWork<S, P>(u: Setup<S, P>, n: nat): nat
    requires n <= |u.calls|
    decreases |u.calls| - n
  {
    if n == |u.calls| then 0
    else (if u.Oversize(u.calls[n]) then 1 else 8 + One(u.driver.inPlace)) + CallsWork(u, n + 1)
  }

  function Work<S, P>(u: Setup<S, P>, s: Session<S, P>): nat
    requires s.issued <= |u.calls|
  {
    Outstanding(u, s) + CallsWork(u, s.issued)
  }

  // An event keeps the invariant, and is paid for if productive, unless the driver has left a
  // call unanswered.
  ghost predicate Steady<S, P>(u: Setup<S, P>, s: Session<S, P>, e: Event)
    requires Consistent(u, s) && Do(u, s, e).Some?
  {
    var t := Do(u, s, e).value;
    Consistent(u, t) && (t.channel.dropped == 0 ==> Work(u, t) + One(Productive(e)) == Work(u, s))
  }

  lemma CallerCallsKeeps<S, P>(u: Setup<S, P>, s: Session<S, P>)
    requires Consistent(u, s) && Do(u, s, CallerCalls).Some?
    ensures Steady(u, s, CallerCalls)
  {
    if u.Oversize(u.calls[s.issued]) { OversizeKeeps(u, s); } else { BeginKeeps(u, s); }
  }

  lemma BeginKeeps<S, P>(u: Setup<S, P>, s: Session<S, P>)
    requires Consistent(u, s) && s.channel.server.Idle?
    requires s.issued < |u.calls| && !u.Oversize(u.calls[s.issued])
    ensures Steady(u, s, CallerCalls)
  {
    var t := s.(issued := s.issued + 1, channel := s.channel.(server := Copying(u.Marshal(u.calls[s.issued]))));
    assert Do(u, s, CallerCalls) == Some(t);
    assert Progressed(u, t, s.issued, s.issued);
  }

  lemma OversizeKeeps<S, P>(u: Setup<S, P>, s: Session<S, P>)
    requires Consistent(u, s) && s.channel.server.Idle? && s.issued < |u.calls| && u.Oversize(u.calls[s.issued])
    ensures Steady(u, s, CallerCalls)
  {
    var t := s.(issued := s.issued + 1, results := s.results + [None]);
    assert Do(u, s, CallerCalls) == Some(t);
    assert Progressed(u, t, t.issued, t.issued);
  }

  lemma CallerCopiesKeeps<S, P>(u: Setup<S, P>, s: Session<S, P>)
    requires Consistent(u, s) && Do(u, s, CallerCopies).Some?
    ensures Steady(u, s, CallerCopies)
  {
  }

  lemma CallerPostsKeeps<S, P>(u: Setup<S, P>, s: Session<S, P>)
    requires Consistent(u, s) && Do(u, s, CallerPosts).Some?
    ensures Steady(u, s, CallerPosts)
  {
    assert Do(u, s, CallerPosts).value == s.(channel := s.channel.(avail := s.channel.avail + 1, server := Waiting));
  }

  lemma CallerReturnsKeeps<S, P>(u: Setup<S, P>, s: Session<S, P>)
    requires Consistent(u, s) && Do(u, s, CallerReturns).Some?
    ensures Steady(u, s, CallerReturns)
  {
  }

  lemma DriverListensKeeps<S, P>(u: Setup<S, P>, s: Session<S, P>)
    requires Consistent(u, s) && Do(u, s, DriverListens).Some?
    ensures Steady(u, s, DriverListens)
  {
    assert Do(u, s, DriverListens).value == s.(channel := s.channel.(client := Listening));
  }

  lemma DriverWakesKeeps<S, P>(u: Setup<S, P>, s: Session<S, P>)
    requires Consistent(u, s) && Do(u, s, DriverWakes).Some?
    ensures Steady(u, s, DriverWakes)
  {
  }

  lemma DriverTimesOutKeeps<S, P>(u: Setup<S, P>, s: Session<S, P>)
    requires Consistent(u, s) && Do(u, s, DriverTimesOut).Some?
    ensures Steady(u, s, DriverTimesOut)
  {
    assert Do(u, s, DriverTimesOut).value == s.(channel := s.channel.(client := Away));
  }

  // What the driver has in hand is the outstanding call.
  lemma ServesTheCall<S, P>(u: Setup<S, P>, s: Session<S, P>)
    requires Consistent(u, s) && s.channel.client.Holding? && !s.served
    ensures s.channel.server.Waiting? && s.channel.signal == 0 && s.channel.dropped == 0 && s.issued > 0
    ensures var call := u.calls[s.issued - 1];
      && Call(s.channel.slot.cmd, s.channel.slot.payload) == call
      && u.driver.answer(s.state, call) == (DirectState(u, s.issued), DirectResult(u, s.issued - 1))
  {
  }

  lemma DriverDropsKeeps<S, P>(u: Setup<S, P>, s: Session<S, P>)
    requires Consistent(u, s) && Do(u, s, DriverServes).Some?
    requires DirectResult(u, s.issued - 1) == None
    ensures Steady(u, s, DriverServes)
  {
    ServesTheCall(u, s);
    assert Do(u, s, DriverServes).value ==
      s.(state := DirectState(u, s.issued), channel := s.channel.(client := Away, dropped := s.channel.dropped + 1));
  }

  lemma DriverServesKeeps<S, P>(u: Setup<S, P>, s: Session<S, P>)
    requires Consistent(u, s) && Do(u, s, DriverServes).Some?
    ensures Steady(u, s, DriverServes)
  {
    ServesTheCall(u, s);
    if DirectResult(u, s.issued - 1) == None {
      DriverDropsKeeps(u, s);
    } else {
      var reply := u.Reply(u.calls[s.issued - 1].cmd, DirectResult(u, s.issued - 1).value);
      var step := if u.driver.inPlace then ClientEdits(reply) else ClientBegins(reply);
      assert Do(u, s, DriverServes).value ==
        s.(state := DirectState(u, s.issued), served := true, channel := Next(s.channel, step).value);
    }
  }

  lemma DriverSendsBackKeeps<S, P>(u: Setup<S, P>, s: Session<S, P>)
    requires Consistent(u, s) && Do(u, s, DriverSendsBack).Some?
    ensures Steady(u, s, DriverSendsBack)
  {
    assert s.channel.server.Waiting? && s.channel.signal == 0;
    assert Do(u, s, DriverSendsBack).value == s.(channel := s.channel.(client := Replying(s.channel.slot)));
  }

  lemma DriverCopiesKeeps<S, P>(u: Setup<S, P>, s: Session<S, P>)
    requires Consistent(u, s) && Do(u, s, DriverCopies).Some?
    ensures Steady(u, s, DriverCopies)
  {
    assert s.served && s.channel.server.Waiting? && s.channel.signal == 0;
  }

  lemma DriverPostsKeeps<S, P>(u: Setup<S, P>, s: Session<S, P>)
    requires Consistent(u, s) && Do(u, s, DriverPosts).Some?
    ensures Steady(u, s, DriverPosts)
  {
    assert s.channel.server.Waiting? && s.channel.signal == 0 && s.served;
    assert Do(u, s, DriverPosts).value ==
      s.(served := false, channel := s.channel.(signal := s.channel.signal + 1, client := Away));
  }

  lemma StepIsSteady<S, P>(u: Setup<S, P>, s: Session<S, P>, e: Event)
    requires Consistent(u, s) && Do(u, s, e).Some?
    ensures Steady(u, s, e)
  {
    match e
    case CallerCalls => CallerCallsKeeps(u, s);
    case CallerCopies => CallerCopiesKeeps(u, s);
    case CallerPosts => CallerPostsKeeps(u, s);
    case CallerReturns => CallerReturnsKeeps(u, s);
    case DriverListens => DriverListensKeeps(u, s);
    case DriverWakes => DriverWakesKeeps(u, s);
    case DriverTimesOut => DriverTimesOutKeeps(u, s);
    case DriverServes => DriverServesKeeps(u, s);
    case DriverSendsBack => DriverSendsBackKeeps(u, s);
    case DriverCopies => DriverCopiesKeeps(u, s);
    case DriverPosts => DriverPostsKeeps(u, s);
  }

  lemma {:induction false} ConsistentPlay<S, P>(u: Setup<S, P>, slot: Message<P>, events: seq<Event>)
    requires Play(u, Begin(u, slot), events).Some?
    ensures Consistent(u, Play(u, Begin(u, slot), events).value)
  {
    if events != [] {
      ConsistentPlay(u, slot, events[..|events| - 1]);
      StepIsSteady(u, Play(u, Begin(u, slot), events[..|events| - 1]).value, events[|events| - 1]);
    }
  }

  /** Refinement: under every interleaving, what the calls returned so far is what direct
      calls on the driver's state return, in the order they were made; oversize calls return
      NULL and reach nobody.  Between calls the driver's state is the direct one.  A call the
      driver does not answer is the last: its caller waits for ever. */
  lemma CallsRefineDirectCalls<S, P>(u: Setup<S, P>, slot: Message<P>, events: seq<Event>)
    requires Play(u, Begin(u, slot), events).Some?
    ensures var s := Play(u, Begin(u, slot), events).value;
      && |s.results| <= s.issued <= |u.calls| && s.issued <= |s.results| + 1
      && (forall i :: 0 <= i < |s.results| ==> s.results[i] == DirectResult(u, i))
      && (s.channel.server.Idle? ==> |s.results| == s.issued && s.state == DirectState(u, s.issued))
      && (s.channel.dropped > 0 ==>
            && s.channel.server.Waiting? && s.channel.avail == 0 && s.channel.signal == 0
            && s.issued > 0 && DirectResult(u, s.issued - 1) == None)
  {
    ConsistentPlay(u, slot, events);
  }

  ghost predicate Labelled<S, P>(u: Setup<S, P>, s: Session<S, P>) {
    var c := s.channel;
    && s.issued <= |u.calls| && (!c.server.Idle? || c.client.Replying? ==> s.issued > 0)
    && (c.server.Copying? ==>
          var m, call := c.server.message, u.calls[s.issued - 1];
          m.cmd == call.cmd && m.payload == call.payload && m.size == u.size(call.payload))
    && ((c.server.Copied? || c.server.Waiting?) && !c.client.Replying? ==>
          c.slot.cmd == u.calls[s.issued - 1].cmd && c.slot.size == u.size(c.slot.payload))
    && (c.client.Replying? ==>
          c.client.reply.cmd == u.calls[s.issued - 1].cmd && c.client.reply.size == u.size(c.client.reply.payload))
  }

  lemma ConsistentIsLabelled<S, P>(u: Setup<S, P>, s: Session<S, P>)
    requires Consistent(u, s)
    ensures Labelled(u, s)
  {
    if s.channel.client.Replying? { assert s.channel.server.Waiting? && s.served; }
  }

  /** What the slot holds while a call is under way: once the message is copied, the command of
      that call and the true size of the payload, be it the request or the reply; and before
      the copy, the message is the call. */
  lemma SlotIsLabelled<S, P>(u: Setup<S, P>, slot: Message<P>, events: seq<Event>)
    requires Play(u, Begin(u, slot), events).Some?
    ensures Labelled(u, Play(u, Begin(u, slot), events).value)
  {
    ConsistentPlay(u, slot, events);
    ConsistentIsLabelled(u, Play(u, Begin(u, slot), events).value);
  }

  // A call that returned was oversize or answered.
  lemma {:induction false} ReturnedWasAnswered<S, P>(u: Setup<S, P>, slot: Message<P>, events: seq<Event>)
    requires Play(u, Begin(u, slot), events).Some?
    ensures var s := Play(u, Begin(u, slot), events).value;
      && |s.results| <= |u.calls|
      && forall i :: 0 <= i < |s.results| ==> u.Oversize(u.calls[i]) || s.results[i].Some?
  {
    CallsRefineDirectCalls(u, slot, events);
    if events != [] {
      var before := events[..|events| - 1];
      ReturnedWasAnswered(u, slot, before);
      ConsistentPlay(u, slot, before);
      ReturnsAnswered(u, Play(u, Begin(u, slot), before).value, events[|events| - 1]);
    }
  }

  lemma ReturnsAnswered<S, P>(u: Setup<S, P>, s: Session<S, P>, e: Event)
    requires Consistent(u, s) && Do(u, s, e).Some? && |Do(u, s, e).value.results| <= |u.calls|
    ensures var t := Do(u, s, e).value;
      s.results <= t.results
      && forall i :: |s.results| <= i < |t.results| ==> u.Oversize(u.calls[i]) || t.results[i].Some?
  {
  }

  // -------------------------------------------------------------------- progress

  function CountProductive(events: seq<Event>): nat {
    if events == [] then 0
    else CountProductive(events[..|events| - 1]) + One(Productive(events[|events| - 1]))
  }

  /** Every call costs exactly 8 productive actions (9 when the driver edits in place, 1 when
      it is oversize), in every interleaving: productive actions are never wasted, and after
      that many all calls have returned. */
  lemma {:induction false} WorkIsConserved<S, P>(u: Setup<S, P>, slot: Message<P>, events: seq<Event>)
    requires Answered(u) && Play(u, Begin(u, slot), events).Some?
    ensures var s := Play(u, Begin(u, slot), events).value;
      && s.issued <= |u.calls|
      && Work(u, s) + CountProductive(events) == CallsWork(u, 0)
      && (CountProductive(events) == CallsWork(u, 0) ==>
            s.channel.server.Idle? && |s.results| == |u.calls|)
  {
    if events != [] {
      var before := events[..|events| - 1];
      WorkIsConserved(u, slot, before);
      ConsistentPlay(u, slot, before);
      StepIsSteady(u, Play(u, Begin(u, slot), before).value, events[|events| - 1]);
    }
    ConsistentPlay(u, slot, events);
    var s := Play(u, Begin(u, slot), events).value;
  }

  predicate Enabled<S, P>(u: Setup<S, P>, s: Session<S, P>, e: Event) { Do(u, s, e).Some? }

  // The productive action an unfinished session is waiting for.
  function Due<S, P>(s: Session<S, P>): Event {
    var c := s.channel;
    if c.server.Idle? then CallerCalls
    else if c.server.Copying? then CallerCopies
    else if c.server.Copied? then CallerPosts
    else if c.signal > 0 then CallerReturns
    else if c.client.Replied? then DriverPosts
    else if c.client.Replying? then DriverCopies
    else if c.client.Holding? then if s.served then DriverSendsBack else DriverServes
    else DriverWakes
  }

  /** The composed system never deadlocks: while some call has not returned, the action due
      is possible now, or the driver is outside getMessage and its next poll finds the
      message.  A waiting caller with both semaphores empty has its message in the hands of
      the driver. */
  lemma NeverStuck<S, P>(u: Setup<S, P>, slot: Message<P>, events: seq<Event>)
    requires Answered(u) && Play(u, Begin(u, slot), events).Some?
    requires |Play(u, Begin(u, slot), events).value.results| < |u.calls|
    ensures var s := Play(u, Begin(u, slot), events).value;
      && Productive(Due(s))
      && (Enabled(u, s, Due(s))
          || (Enabled(u, s, DriverListens) && Enabled(u, Do(u, s, DriverListens).value, Due(s))))
      && (s.channel.server.Waiting? && s.channel.avail == 0 && s.channel.signal == 0 ==>
            ClientOwns(s.channel))
  {
    ConsistentPlay(u, slot, events);
    DueIsEnabled(u, Play(u, Begin(u, slot), events).value);
  }

  // A driver that answers every call drops none.
  lemma NothingDropped<S, P>(u: Setup<S, P>, s: Session<S, P>)
    requires Answered(u) && Consistent(u, s)
    ensures s.channel.dropped == 0
  {
  }

  lemma DueIsEnabled<S, P>(u: Setup<S, P>, s: Session<S, P>)
    requires Answered(u) && Consistent(u, s) && |s.results| < |u.calls|
    ensures Enabled(u, s, Due(s))
      || (Enabled(u, s, DriverListens) && Enabled(u, Do(u, s, DriverListens).value, Due(s)))
  {
    NothingDropped(u, s);
    if s.channel.server.Waiting? && s.channel.signal == 0 { DriverIsDue(u, s); }
  }

  // While the caller waits for a reply, it is the driver's turn.
  lemma DriverIsDue<S, P>(u: Setup<S, P>, s: Session<S, P>)
    requires Consistent(u, s) && s.channel.dropped == 0 && s.channel.server.Waiting? && s.channel.signal == 0
    ensures Enabled(u, s, Due(s))
      || (Enabled(u, s, DriverListens) && Enabled(u, Do(u, s, DriverListens).value, Due(s)))
  {
    var c := s.channel;
    if !ClientOwns(c) {
      assert c.avail == 1 && Due(s) == DriverWakes;
      if c.client.Away? {
        assert Do(u, s, DriverListens) == Some(s.(channel := c.(client := Listening)));
      }
    }
  }

  // ---------------------------------------------------------- relation to the rendezvous

  /** A session is a run of the rendezvous: its lemmas hold of the session's channel. */
  lemma {:induction false} SessionIsRun<S, P>(u: Setup<S, P>, slot: Message<P>, events: seq<Event>)
    returns (steps: seq<Step<Message<P>>>)
    requires Play(u, Begin(u, slot), events).Some?
    ensures Run(Fresh(slot), steps) == Some(Play(u, Begin(u, slot), events).value.channel)
  {
    if events == [] {
      steps := [];
    } else {
      var before := events[..|events| - 1];
      steps := SessionIsRun(u, slot, before);
      var s := Play(u, Begin(u, slot), before).value;
      var t := Play(u, Begin(u, slot), events).value;
      if s.channel != t.channel {
        var step := StepOf(u, s, events[|events| - 1]);
        Extend(Fresh(slot), steps, step);
        steps := steps + [step];
      }
    }
  }

  lemma StepOf<S, P>(u: Setup<S, P>, s: Session<S, P>, e: Event) returns (step: Step<Message<P>>)
    requires Do(u, s, e).Some? && Do(u, s, e).value.channel != s.channel
    ensures Next(s.channel, step) == Some(Do(u, s, e).value.channel)
  {
    match e {
      case CallerCalls => step := ServerBegins(u.Marshal(u.calls[s.issued]));
      case CallerCopies => step := ServerCopies;
      case CallerPosts => step := ServerPosts;
      case CallerReturns => step := ServerWakes;
      case DriverListens => step := ClientListens;
      case DriverWakes => step := ClientWakes;
      case DriverTimesOut => step := ClientTimesOut;
      case DriverServes =>
        var m := s.channel.slot;
        match u.driver.answer(s.state, Call(m.cmd, m.payload)).1 {
          case None => step := ClientDrops;
          case Some(p) =>
            step := if u.driver.inPlace then ClientEdits(u.Reply(m.cmd, p)) else ClientBegins(u.Reply(m.cmd, p));
        }
      case DriverSendsBack => step := ClientBegins(s.channel.slot);
      case DriverCopies => step := ClientCopies;
      case DriverPosts => step := ClientPosts;
    }
  }

  // ------------------------------------------------------------------------ sizes

  // Every reply the first n calls ask for fits the buffer.
  predicate RepliesFit<S, P>(u: Setup<S, P>, n: nat)
    requires n <= |u.calls|
  {
    forall i :: 0 <= i < n && DirectResult(u, i).Some? ==> u.size(DirectResult(u, i).value) <= BUFFER_SIZE
  }

  ghost predicate Sized<S, P>(s: Session<S, P>) {
    && s.channel.slot.size <= BUFFER_SIZE
    && (s.channel.server.Copying? ==> s.channel.server.message.size <= BUFFER_SIZE)
    && (s.channel.client.Replying? ==> s.channel.client.reply.size <= BUFFER_SIZE)
  }

  // No state of the run records a payload larger than the buffer.
  ghost predicate AlwaysSized<S, P>(u: Setup<S, P>, s: Session<S, P>, events: seq<Event>)
    requires Play(u, s, events).Some?
  {
    Sized(Play(u, s, events).value) && (events != [] ==> AlwaysSized(u, s, events[..|events| - 1]))
  }

  lemma ServesSized<S, P>(u: Setup<S, P>, s: Session<S, P>)
    requires Consistent(u, s) && RepliesFit(u, s.issued) && Sized(s) && Do(u, s, DriverServes).Some?
    ensures Sized(Do(u, s, DriverServes).value)
  {
    ServesTheCall(u, s);
  }

  lemma CallerSized<S, P>(u: Setup<S, P>, s: Session<S, P>, e: Event)
    requires e == CallerCalls || e == CallerCopies
    requires Consistent(u, s) && Sized(s) && Do(u, s, e).Some?
    ensures Sized(Do(u, s, e).value)
  {
  }

  lemma SizedDo<S, P>(u: Setup<S, P>, s: Session<S, P>, e: Event)
    requires Consistent(u, s) && RepliesFit(u, s.issued) && Sized(s) && Do(u, s, e).Some?
    ensures Sized(Do(u, s, e).value)
  {
    match e {
      case CallerCalls => CallerSized(u, s, e);
      case CallerCopies => CallerSized(u, s, e);
      case DriverServes => ServesSized(u, s);
      case _ => OthersSized(s, Do(u, s, e).value);
    }
  }

  // Whatever else happens puts nothing new into the slot or before it.
  lemma OthersSized<S, P>(s: Session<S, P>, t: Session<S, P>)
    requires Sized(s)
    requires t.channel.server == s.channel.server || !t.channel.server.Copying?
    requires t.channel.client == s.channel.client || !t.channel.client.Replying? || t.channel.client.reply == s.channel.slot
    requires t.channel.slot == s.channel.slot || (s.channel.client.Replying? && t.channel.slot == s.channel.client.reply)
    ensures Sized(t)
  {
  }

  lemma IssuedGrows<S, P>(u: Setup<S, P>, s: Session<S, P>, e: Event)
    requires Do(u, s, e).Some?
    ensures Do(u, s, e).value.issued >= s.issued
  {
  }

  lemma {:induction false} FittingRepliesStaySized<S, P>(u: Setup<S, P>, slot: Message<P>, events: seq<Event>)
    requires slot.size <= BUFFER_SIZE && Play(u, Begin(u, slot), events).Some?
    requires var s := Play(u, Begin(u, slot), events).value; s.issued <= |u.calls| && RepliesFit(u, s.issued)
    ensures AlwaysSized(u, Begin(u, slot), events)
  {
    if events != [] {
      var before := events[..|events| - 1];
      var s := Play(u, Begin(u, slot), before).value;
      IssuedGrows(u, s, events[|events| - 1]);
      FittingRepliesStaySized(u, slot, before);
      ConsistentPlay(u, slot, before);
      SizedDo(u, s, events[|events| - 1]);
    }
  }

  // The result a step adds was in the slot.
  lemma NewResultWasInSlot<S, P>(u: Setup<S, P>, s: Session<S, P>, e: Event)
    requires Consistent(u, s) && Sized(s) && |s.results| <= |u.calls| && RepliesFit(u, |s.results|)
    requires Do(u, s, e).Some? && |Do(u, s, e).value.results| <= |u.calls|
    ensures RepliesFit(u, |Do(u, s, e).value.results|)
  {
    if e == CallerReturns {
      assert |s.results| == s.issued - 1;
      assert s.channel.slot == u.Reply(u.calls[s.issued - 1].cmd, DirectResult(u, s.issued - 1).value);
    }
  }

  lemma {:induction false} SizedRepliesFit<S, P>(u: Setup<S, P>, slot: Message<P>, events: seq<Event>)
    requires Play(u, Begin(u, slot), events).Some? && AlwaysSized(u, Begin(u, slot), events)
    ensures var s := Play(u, Begin(u, slot), events).value; |s.results| <= |u.calls| && RepliesFit(u, |s.results|)
  {
    CallsRefineDirectCalls(u, slot, events);
    if events != [] {
      var before := events[..|events| - 1];
      SizedRepliesFit(u, slot, before);
      ConsistentPlay(u, slot, before);
      NewResultWasInSlot(u, Play(u, Begin(u, slot), before).value, events[|events| - 1]);
    }
  }

  /** The recorded payload size stays within the buffer, whatever calls are made, as long as the
      driver's replies to them fit; and only then: between calls the two are equivalent.
      Oversize requests never matter. */
  lemma SlotNeverOverflows<S, P>(u: Setup<S, P>, slot: Message<P>, events: seq<Event>)
    requires slot.size <= BUFFER_SIZE && Play(u, Begin(u, slot), events).Some?
    ensures var s := Play(u, Begin(u, slot), events).value;
      && |s.results| <= s.issued <= |u.calls|
      && (RepliesFit(u, s.issued) ==> AlwaysSized(u, Begin(u, slot), events))
      && (AlwaysSized(u, Begin(u, slot), events) ==> RepliesFit(u, |s.results|))
      && (s.channel.server.Idle? ==> |s.results| == s.issued)
  {
    CallsRefineDirectCalls(u, slot, events);
    var s := Play(u, Begin(u, slot), events).value;
    if RepliesFit(u, s.issued) { FittingRepliesStaySized(u, slot, events); }
    if AlwaysSized(u, Begin(u, slot), events) { SizedRepliesFit(u, slot, events); }
  }

  // ------------------------------------------------------------------ oversize calls

  // The first n calls without the oversize ones.
  function SmallCalls<S, P>(u: Setup<S, P>, n: nat): seq<Call<P>>
    requires n <= |u.calls|
  {
    if n == 0 then []
    else SmallCalls(u, n - 1) + if u.Oversize(u.calls[n - 1]) then [] else [u.calls[n - 1]]
  }

  // The results of those calls.
  function SmallResults<S, P>(u: Setup<S, P>, results: seq<Option<P>>): seq<Option<P>>
    requires |results| <= |u.calls|
  {
    if results == [] then []
    else
      var last := |results| - 1;
      SmallResults(u, results[..last]) + if u.Oversize(u.calls[last]) then [] else [results[last]]
  }

  // The same session, seen by somebody who never heard of the oversize calls.
  function WithoutOversize<S, P>(u: Setup<S, P>, s: Session<S, P>): Session<S, P>
    requires s.issued <= |u.calls| && |s.results| <= |u.calls|
  {
    s.(issued := |SmallCalls(u, s.issued)|, results := SmallResults(u, s.results))
  }

  function SmallSetup<S, P>(u: Setup<S, P>): Setup<S, P> { u.(calls := SmallCalls(u, |u.calls|)) }

  lemma {:induction false} SmallPrefix<S, P>(u: Setup<S, P>, n: nat, m: nat)
    requires n <= m <= |u.calls|
    ensures SmallCalls(u, n) <= SmallCalls(u, m)
  {
    if n < m { SmallPrefix(u, n, m - 1); }
  }

  // Where a call that fits stands among those that fit.
  lemma SmallAt<S, P>(u: Setup<S, P>, n: nat)
    requires n < |u.calls| && !u.Oversize(u.calls[n])
    ensures |SmallCalls(u, n)| < |SmallSetup(u).calls| && SmallSetup(u).calls[|SmallCalls(u, n)|] == u.calls[n]
  {
    SmallPrefix(u, n + 1, |u.calls|);
    assert SmallCalls(u, n + 1)[|SmallCalls(u, n)|] == u.calls[n];
  }

  lemma OversizeIsInvisible<S, P>(u: Setup<S, P>, s: Session<S, P>)
    requires Consistent(u, s) && |s.results| <= |u.calls| && Do(u, s, CallerCalls).Some?
    requires u.Oversize(u.calls[s.issued])
    ensures var t := Do(u, s, CallerCalls).value;
      t.issued <= |u.calls| && |t.results| <= |u.calls| && WithoutOversize(u, t) == WithoutOversize(u, s)
  {
    assert (s.results + [None])[..|s.results|] == s.results;
  }

  lemma FittingCallIsMatched<S, P>(u: Setup<S, P>, s: Session<S, P>)
    requires Consistent(u, s) && |s.results| <= |u.calls| && Do(u, s, CallerCalls).Some?
    requires !u.Oversize(u.calls[s.issued])
    ensures var t := Do(u, s, CallerCalls).value;
      && t.issued <= |u.calls| && |t.results| <= |u.calls|
      && Do(SmallSetup(u), WithoutOversize(u, s), CallerCalls) == Some(WithoutOversize(u, t))
  {
    SmallAt(u, s.issued);
  }

  lemma ReturnIsMatched<S, P>(u: Setup<S, P>, s: Session<S, P>)
    requires Consistent(u, s) && |s.results| <= |u.calls| && Do(u, s, CallerReturns).Some?
    ensures var t := Do(u, s, CallerReturns).value;
      && t.issued <= |u.calls| && |t.results| <= |u.calls|
      && Do(SmallSetup(u), WithoutOversize(u, s), CallerReturns) == Some(WithoutOversize(u, t))
  {
    var result := Some(s.channel.slot.payload);
    assert |s.results| == s.issued - 1 && !u.Oversize(u.calls[|s.results|]);
    assert (s.results + [result])[..|s.results|] == s.results;
    assert SmallResults(u, s.results + [result]) == SmallResults(u, s.results) + [result];
  }

  lemma OthersAreMatched<S, P>(u: Setup<S, P>, s: Session<S, P>, e: Event)
    requires Consistent(u, s) && |s.results| <= |u.calls| && Do(u, s, e).Some?
    requires e == CallerCalls ==> !u.Oversize(u.calls[s.issued])
    ensures var t := Do(u, s, e).value;
      && t.issued <= |u.calls| && |t.results| <= |u.calls|
      && Do(SmallSetup(u), WithoutOversize(u, s), e) == Some(WithoutOversize(u, t))
  {
    match e {
      case CallerCalls => FittingCallIsMatched(u, s);
      case CallerReturns => ReturnIsMatched(u, s);
      case _ => assert Do(u, s, e).value.issued == s.issued && Do(u, s, e).value.results == s.results;
    }
  }

  /** Oversize calls leave no trace: for every session there is one in which they were never
      made, with the same channel, the same driver state and the same results to all other
      calls. */
  lemma {:induction false} OversizeCallsAreInvisible<S, P>(u: Setup<S, P>, slot: Message<P>, events: seq<Event>)
    returns (small: seq<Event>)
    requires Play(u, Begin(u, slot), events).Some?
    ensures var s := Play(u, Begin(u, slot), events).value;
      && s.issued <= |u.calls| && |s.results| <= |u.calls|
      && Play(SmallSetup(u), Begin(SmallSetup(u), slot), small) == Some(WithoutOversize(u, s))
  {
    if events == [] {
      small := [];
    } else {
      var before, e := events[..|events| - 1], events[|events| - 1];
      small := OversizeCallsAreInvisible(u, slot, before);
      ConsistentPlay(u, slot, before);
      var s := Play(u, Begin(u, slot), before).value;
      if e == CallerCalls && u.Oversize(u.calls[s.issued]) {
        OversizeIsInvisible(u, s);
      } else {
        OthersAreMatched(u, s, e);
        assert (small + [e])[..|small|] == small;
        small := small + [e];
      }
    }
  }
}
