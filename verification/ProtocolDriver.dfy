/** The Java driver loop (ProtocolDriver.run): dispatch by command code, at most one reply per
    message, and substitutes for replies that do not fit the buffer.  The service behind it
    is arbitrary. */
module ProtocolDriver {
  import opened Wrappers
  import opened RemoteCall
  import opened FmiValues

  // IServiceProtocol: the operations that return a reply, and FreeInstantiate, both with the
  // state they leave the service in; and whether the bytes of a message parse as the request
  // its command asks for.
  datatype Service<!S> = Service(
    serve: (S, Call<Payload>) -> Response<S>, free: S -> Response<S>, parses: Call<Payload> -> bool)

  // An operation returns a reply, returns null or nothing, or throws.
  datatype Response<+S> = Replies(state: S, reply: Payload) | Silent(state: S) | Throws(state: S)

  // Dies: an operation throws, or the switch on a null command or the use of a null reply
  // does, and the thread ends.
  datatype Reaction<+S> = Reaction(state: S, reply: Option<Payload>) | Dies(state: S)

  // The JNI layer stores the int command in a signed byte.
  function ToByte(cmd: int): int {
    var b := cmd % 256;
    if b < 128 then b else b - 256
  }

  predicate Known(code: int) { SET_DEBUG_LOGGING <= code <= FREE_INSTANCE }

  // The commands a public FmuProxy method sends with INFINITE.
  predicate Blocking(cmd: int) { SET_DEBUG_LOGGING <= cmd <= GET_STRING_STATUS }

  function Fitting(size: Payload -> nat, code: int, reply: Payload): Payload {
    Bounded(size, if code == GET_STRING && size(reply) > BUFFER_SIZE then Strings(false, []) else reply)
  }

  function Bounded(size: Payload -> nat, reply: Payload): Payload {
    if size(reply) > BUFFER_SIZE then ZeroBytes else reply
  }

  /** What one iteration of the loop does with a message. */
  function React<S>(service: Service<S>, size: Payload -> nat, s: S, message: Call<Payload>): Reaction<S> {
    var code := ToByte(message.cmd);
    if !Known(code) then Dies(s)
    else if code == LOG then Reaction(s, None)
    else if !service.parses(Call(code, message.payload)) then Reaction(s, Some(Bounded(size, StatusReply(Fatal))))
    else if code == FREE_INSTANCE then
      match service.free(s)
      case Throws(t) => Dies(t)
      case r => Reaction(r.state, None)
    else
      match service.serve(s, Call(code, message.payload))
      case Throws(t) => Dies(t)
      case Silent(t) => if code == GET_STRING then Dies(t) else Reaction(t, None)
      case Replies(t, reply) => Reaction(t, Some(Fitting(size, code, reply)))
  }

  // ------------------------------------------------------------------- the loop itself

  // One turn: what the loop test reads, and what `read` then returns.
  datatype Turn = Turn(connected: bool, message: Option<Call<Payload>>)

  // Everything the loop sends for a sequence of turns, and whether it is still running.
  datatype Served<+S> = Served(state: S, sent: seq<Call<Payload>>, running: bool)

  function Serve<S>(service: Service<S>, size: Payload -> nat, s: S, turns: seq<Turn>): Served<S> {
    if turns == [] then Served(s, [], true)
    else if !turns[0].connected then Served(s, [], false)
    else match turns[0].message
      case None => Serve(service, size, s, turns[1..])
      case Some(m) =>
        match React(service, size, s, m)
        case Dies(t) => Served(t, [], false)
        case Reaction(t, reply) =>
          var rest := Serve(service, size, t, turns[1..]);
          match reply
          case None => rest
          case Some(p) => rest.(sent := [Call(ToByte(m.cmd), p)] + rest.sent)
  }

  class DriverLoop<S> {
    const service: Service<S>
    const size: Payload -> nat
    var state: S

    constructor (service: Service<S>, size: Payload -> nat, start: S)
      ensures this.service == service && this.size == size && state == start
    {
      this.service, this.size, state := service, size, start;
    }

    /** ProtocolDriver.run, for any sequence of turns; other threads clear `connected`. */
    method Run(turns: seq<Turn>) returns (sent: seq<Call<Payload>>, running: bool)
      modifies this
      ensures Served(state, sent, running) == Serve(service, size, old(state), turns)
      ensures InByte(Received(turns)) ==> (running <==> Runs(service, old(state), turns))
      ensures InByte(Received(turns)) && running ==>
        && state == StateAfter(service, old(state), Received(turns))
        && AnswersSent(service, size, old(state), Received(turns), sent)
    {
      if InByte(Received(turns)) { LoopIsService(service, size, state, turns); }
      ghost var start := state;
      sent, running := [], true;
      for i := 0 to |turns|
        invariant running
        invariant var all := Serve(service, size, start, turns);
          var rest := Serve(service, size, state, turns[i..]);
          all.state == rest.state && all.running == rest.running && all.sent == sent + rest.sent
      {
        assert turns[i..][1..] == turns[i + 1..];
        if !turns[i].connected {
          running := false;
          return;
        }
        match turns[i].message {
          case None => // read timed out
          case Some(m) =>
            match React(service, size, state, m) {
              case Dies(t) =>
                state, running := t, false;
                return;
              case Reaction(t, reply) =>
                state := t;
                match reply {
                  case None =>
                  case Some(p) => sent := sent + [Call(ToByte(m.cmd), p)];
                }
            }
        }
      }
      assert turns[|turns|..] == [];
    }
  }

  /** A message is answered exactly when it carries a command FmuProxy blocks on, and does not
      parse or gets a reply from the service, or is a free message that does not parse.  It
      is consumed in silence exactly when it is a log message, a free message that works, or a
      call other than a string get for which the service returns null. */
  lemma AnsweredIff<S>(service: Service<S>, size: Payload -> nat, s: S, message: Call<Payload>)
    requires -128 <= message.cmd < 128
    ensures var r, parses := React(service, size, s, message), service.parses(message);
      && (r.Reaction? && r.reply.Some? <==>
            || (Blocking(message.cmd) && (!parses || service.serve(s, message).Replies?))
            || (message.cmd == FREE_INSTANCE && !parses))
      && (r.Reaction? && r.reply.None? <==>
            || message.cmd == LOG
            || (message.cmd == FREE_INSTANCE && parses && !service.free(s).Throws?)
            || (Blocking(message.cmd) && message.cmd != GET_STRING && parses && service.serve(s, message).Silent?))
  {
    assert ToByte(message.cmd) == message.cmd && Call(message.cmd, message.payload) == message;
  }

  // ------------------------------------------------------- what the service itself does

  predicate InByte(messages: seq<Call<Payload>>) {
    forall i :: 0 <= i < |messages| ==> -128 <= messages[i].cmd < 128
  }

  /** The state in which the messages leave the service: each operation called finds the state
      the one before left. */
  function StateAfter<S>(service: Service<S>, s: S, messages: seq<Call<Payload>>): S {
    if messages == [] then s
    else
      var t, m := StateAfter(service, s, messages[..|messages| - 1]), messages[|messages| - 1];
      if !service.parses(m) then t
      else if m.cmd == FREE_INSTANCE then service.free(t).state
      else if Blocking(m.cmd) then service.serve(t, m).state
      else t
  }

  // In state t the service has a reply to the message, or the loop has one to bytes that do
  // not parse.
  predicate IsAnswered<S>(service: Service<S>, t: S, m: Call<Payload>) {
    || (Blocking(m.cmd) && (!service.parses(m) || service.serve(t, m).Replies?))
    || (m.cmd == FREE_INSTANCE && !service.parses(m))
  }

  // An unknown command, an operation that throws, and a string get answered with null.
  predicate IsFatal<S>(service: Service<S>, t: S, m: Call<Payload>) {
    || !(SET_DEBUG_LOGGING <= m.cmd <= FREE_INSTANCE)
    || (service.parses(m) && m.cmd == FREE_INSTANCE && service.free(t).Throws?)
    || (service.parses(m) && Blocking(m.cmd) && service.serve(t, m).Throws?)
    || (service.parses(m) && m.cmd == GET_STRING && service.serve(t, m).Silent?)
  }

  // The answer p is the service's own reply if that fits; else a failure, for a string get, or
  // nothing; and status Fatal to bytes that do not parse.
  predicate OwnAnswer<S>(service: Service<S>, size: Payload -> nat, t: S, m: Call<Payload>, p: Payload) {
    if !service.parses(m) then
      p == if size(StatusReply(Fatal)) <= BUFFER_SIZE then StatusReply(Fatal) else ZeroBytes
    else
      service.serve(t, m).Replies? &&
      var own := service.serve(t, m).reply;
      if size(own) <= BUFFER_SIZE then p == own
      else p == if m.cmd == GET_STRING && size(Strings(false, [])) <= BUFFER_SIZE then Strings(false, []) else ZeroBytes
  }

  // How many of the messages are answered.
  function Answers<S>(service: Service<S>, s: S, messages: seq<Call<Payload>>): nat {
    if messages == [] then 0
    else
      var front, last := messages[..|messages| - 1], messages[|messages| - 1];
      Answers(service, s, front) + if IsAnswered(service, StateAfter(service, s, front), last) then 1 else 0
  }

  // The n-th message, if it is answered, has its answer among those sent: the one after as many
  // as there were answered messages before it, under the command of the message.
  ghost predicate AnswerSent<S>(service: Service<S>, size: Payload -> nat, s: S, messages: seq<Call<Payload>>, sent: seq<Call<Payload>>, n: nat)
    requires n < |messages|
  {
    var t, k := StateAfter(service, s, messages[..n]), Answers(service, s, messages[..n]);
    IsAnswered(service, t, messages[n]) ==>
      k < |sent| && sent[k].cmd == messages[n].cmd && OwnAnswer(service, size, t, messages[n], sent[k].payload)
  }

  // Exactly the answered messages are answered, in order.
  ghost predicate AnswersSent<S>(service: Service<S>, size: Payload -> nat, s: S, messages: seq<Call<Payload>>, sent: seq<Call<Payload>>) {
    && |sent| == Answers(service, s, messages)
    && forall n :: 0 <= n < |messages| ==> AnswerSent(service, size, s, messages, sent, n)
  }

  // The messages read.
  function Received(turns: seq<Turn>): seq<Call<Payload>> {
    if turns == [] then []
    else
      var last := turns[|turns| - 1];
      Received(turns[..|turns| - 1]) + if last.message.Some? then [last.message.value] else []
  }

  // Connected all the time, and no message was fatal.
  predicate Runs<S>(service: Service<S>, s: S, turns: seq<Turn>) {
    turns == [] ||
    var front, last := turns[..|turns| - 1], turns[|turns| - 1];
    && Runs(service, s, front) && last.connected
    && (last.message.Some? ==> !IsFatal(service, StateAfter(service, s, Received(front)), last.message.value))
  }

  lemma {:induction false} ServeConcat<S>(service: Service<S>, size: Payload -> nat, s: S, a: seq<Turn>, b: seq<Turn>)
    ensures var first := Serve(service, size, s, a);
      Serve(service, size, s, a + b) ==
        if !first.running then first
        else
          var rest := Serve(service, size, first.state, b);
          rest.(sent := first.sent + rest.sent)
  {
    if a == [] {
      assert a + b == b;
      var rest := Serve(service, size, s, b);
      assert [] + rest.sent == rest.sent;
    } else {
      assert (a + b)[1..] == a[1..] + b;
      match a[0].message {
        case None => ServeConcat(service, size, s, a[1..], b);
        case Some(m) => ServeConcat(service, size, React(service, size, s, m).state, a[1..], b);
      }
    }
  }

  lemma ReactIsService<S>(service: Service<S>, size: Payload -> nat, s: S, m: Call<Payload>)
    requires -128 <= m.cmd < 128
    ensures var r := React(service, size, s, m);
      && (r.Dies? <==> IsFatal(service, s, m))
      && (r.Reaction? ==> (r.reply.Some? <==> IsAnswered(service, s, m)))
      && r.state == StateAfter(service, s, [m])
      && (r.Reaction? && r.reply.Some? ==> OwnAnswer(service, size, s, m, r.reply.value))
  {
    assert ToByte(m.cmd) == m.cmd && Call(m.cmd, m.payload) == m;
    assert [m][..0] == [];
  }

  lemma StateSnoc<S>(service: Service<S>, s: S, messages: seq<Call<Payload>>, m: Call<Payload>)
    ensures var t := StateAfter(service, s, messages);
      && StateAfter(service, s, messages + [m]) == StateAfter(service, t, [m])
      && Answers(service, s, messages + [m]) ==
           Answers(service, s, messages) + if IsAnswered(service, t, m) then 1 else 0
  {
    assert (messages + [m])[..|messages|] == messages && [m][..0] == [];
  }

  lemma {:induction false} AnswerStays<S>(service: Service<S>, size: Payload -> nat, s: S, messages: seq<Call<Payload>>,
                                          m: Call<Payload>, sent: seq<Call<Payload>>, more: seq<Call<Payload>>, n: nat)
    requires n < |messages| && AnswerSent(service, size, s, messages, sent, n)
    ensures AnswerSent(service, size, s, messages + [m], sent + more, n)
  {
    assert (messages + [m])[..n] == messages[..n];
  }

  lemma {:induction false} AnswersSnoc<S>(service: Service<S>, size: Payload -> nat, s: S, messages: seq<Call<Payload>>,
                                          m: Call<Payload>, sent: seq<Call<Payload>>, more: seq<Call<Payload>>)
    requires AnswersSent(service, size, s, messages, sent)
    requires var t := StateAfter(service, s, messages);
      if IsAnswered(service, t, m) then
        |more| == 1 && more[0].cmd == m.cmd && OwnAnswer(service, size, t, m, more[0].payload)
      else more == []
    ensures AnswersSent(service, size, s, messages + [m], sent + more)
  {
    StateSnoc(service, s, messages, m);
    forall n | 0 <= n < |messages| + 1
      ensures AnswerSent(service, size, s, messages + [m], sent + more, n)
    {
      if n < |messages| {
        AnswerStays(service, size, s, messages, m, sent, more, n);
      } else {
        assert (messages + [m])[..n] == messages;
      }
    }
  }

  // The loop has run, or not, as it should, and has left the service and sent what it should.
  ghost predicate Faithful<S>(service: Service<S>, size: Payload -> nat, s: S, turns: seq<Turn>) {
    var spec := Serve(service, size, s, turns);
    && (spec.running <==> Runs(service, s, turns))
    && (spec.running ==>
          && spec.state == StateAfter(service, s, Received(turns))
          && AnswersSent(service, size, s, Received(turns), spec.sent))
  }

  lemma {:induction false} TurnSnoc<S>(service: Service<S>, s: S, turns: seq<Turn>, turn: Turn)
    ensures Received(turns + [turn]) == Received(turns) + if turn.message.Some? then [turn.message.value] else []
    ensures Runs(service, s, turns + [turn]) <==>
      && Runs(service, s, turns) && turn.connected
      && (turn.message.Some? ==> !IsFatal(service, StateAfter(service, s, Received(turns)), turn.message.value))
  {
    assert (turns + [turn])[..|turns|] == turns;
  }

  lemma {:induction false} FaithfulSnoc<S>(service: Service<S>, size: Payload -> nat, s: S, turns: seq<Turn>, turn: Turn)
    requires Faithful(service, size, s, turns)
    requires turn.message.Some? ==> -128 <= turn.message.value.cmd < 128
    ensures Faithful(service, size, s, turns + [turn])
  {
    var spec := Serve(service, size, s, turns);
    ServeConcat(service, size, s, turns, [turn]);
    TurnSnoc(service, s, turns, turn);
    if spec.running {
      ServeOne(service, size, spec.state, turn);
      var one := Serve(service, size, spec.state, [turn]);
      if one.running && turn.message.Some? {
        StateSnoc(service, s, Received(turns), turn.message.value);
        AnswersSnoc(service, size, s, Received(turns), turn.message.value, spec.sent, one.sent);
      } else {
        assert Received(turns) + [] == Received(turns) && spec.sent + [] == spec.sent;
      }
    }
  }

  lemma {:induction false} LoopIsService<S>(service: Service<S>, size: Payload -> nat, s: S, turns: seq<Turn>)
    requires InByte(Received(turns))
    ensures Faithful(service, size, s, turns)
  {
    if turns != [] {
      var front, last := turns[..|turns| - 1], turns[|turns| - 1];
      InByteFront(turns);
      LoopIsService(service, size, s, front);
      FaithfulSnoc(service, size, s, front, last);
      assert turns == front + [last];
    }
  }

  lemma {:induction false} InByteFront(turns: seq<Turn>)
    requires turns != [] && InByte(Received(turns))
    ensures InByte(Received(turns[..|turns| - 1]))
    ensures turns[|turns| - 1].message.Some? ==> -128 <= turns[|turns| - 1].message.value.cmd < 128
  {
    var front, all := Received(turns[..|turns| - 1]), Received(turns);
    forall i | 0 <= i < |front|
      ensures -128 <= front[i].cmd < 128
    {
      assert front[i] == all[i];
    }
    if turns[|turns| - 1].message.Some? { assert all[|front|] == turns[|turns| - 1].message.value; }
  }

  lemma ServeOne<S>(service: Service<S>, size: Payload -> nat, s: S, turn: Turn)
    requires turn.message.Some? ==> -128 <= turn.message.value.cmd < 128
    ensures var spec := Serve(service, size, s, [turn]);
      && (spec.running <==> turn.connected && (turn.message.Some? ==> !IsFatal(service, s, turn.message.value)))
      && spec.state == (if turn.connected && turn.message.Some? then StateAfter(service, s, [turn.message.value]) else s)
      && if spec.running && turn.message.Some? && IsAnswered(service, s, turn.message.value) then
           && |spec.sent| == 1 && spec.sent[0].cmd == turn.message.value.cmd
           && OwnAnswer(service, size, s, turn.message.value, spec.sent[0].payload)
         else spec.sent == []
  {
    assert [turn][1..] == [];
    if turn.message.Some? {
      var m := turn.message.value;
      ReactIsService(service, size, s, m);
      assert ToByte(m.cmd) == m.cmd;
    }
  }

  /** The loop against the service: it runs exactly as long as it is connected and no message is
      fatal; then the service is in the state its operations left one after the other, and
      exactly the answered messages have been answered, in order, with the service's own
      replies as far as they fit.  When it stops, the fatal message is the last the service
      has seen, and no later turn matters. */
  lemma LoopServes<S>(service: Service<S>, size: Payload -> nat, s: S, turns: seq<Turn>, stop: Turn, later: seq<Turn>)
    requires InByte(Received(turns + [stop]))
    ensures Serve(service, size, s, turns).running <==> Runs(service, s, turns)
    ensures Runs(service, s, turns) ==>
      var spec := Serve(service, size, s, turns);
      && spec.state == StateAfter(service, s, Received(turns))
      && AnswersSent(service, size, s, Received(turns), spec.sent)
    ensures Runs(service, s, turns) && !Runs(service, s, turns + [stop]) ==>
      var spec := Serve(service, size, s, turns + [stop] + later);
      && !spec.running && spec.sent == Serve(service, size, s, turns).sent
      && spec.state == StateAfter(service, s, Received(if stop.connected then turns + [stop] else turns))
  {
    assert (turns + [stop])[..|turns|] == turns;
    InByteFront(turns + [stop]);
    LoopIsService(service, size, s, turns);
    if Runs(service, s, turns) && !Runs(service, s, turns + [stop]) {
      LoopStops(service, size, s, turns, stop);
      ServeConcat(service, size, s, turns + [stop], later);
    }
  }

  lemma LoopStops<S>(service: Service<S>, size: Payload -> nat, s: S, turns: seq<Turn>, stop: Turn)
    requires Faithful(service, size, s, turns) && Runs(service, s, turns) && !Runs(service, s, turns + [stop])
    requires stop.message.Some? ==> -128 <= stop.message.value.cmd < 128
    ensures var spec := Serve(service, size, s, turns + [stop]);
      && !spec.running && spec.sent == Serve(service, size, s, turns).sent
      && spec.state == StateAfter(service, s, Received(if stop.connected then turns + [stop] else turns))
  {
    var spec := Serve(service, size, s, turns);
    ServeConcat(service, size, s, turns, [stop]);
    TurnSnoc(service, s, turns, stop);
    ServeOne(service, size, spec.state, stop);
    if stop.message.Some? { StateSnoc(service, s, Received(turns), stop.message.value); }
    assert spec.sent + [] == spec.sent;
  }

  // Every operation returns a reply.
  ghost predicate Reliable<S(!new)>(service: Service<S>) {
    forall s: S, c: Call<Payload> :: service.serve(s, c).Replies?
  }

  /** While connected, fed blocking commands only and served reliably, the loop keeps running
      and sends exactly one reply per message, in order, under the command of its request and
      within the buffer: the service's own reply as far as it fits. */
  lemma OneReplyEach<S(!new)>(service: Service<S>, size: Payload -> nat, s: S, turns: seq<Turn>)
    requires size(ZeroBytes) == 0 && Reliable(service)
    requires forall i :: 0 <= i < |turns| ==> turns[i].connected
    requires forall i :: 0 <= i < |turns| && turns[i].message.Some? ==> Blocking(turns[i].message.value.cmd)
    ensures var spec, messages := Serve(service, size, s, turns), Received(turns);
      && spec.running && |spec.sent| == |messages|
      && forall n :: 0 <= n < |messages| ==> NthAnswered(service, size, s, messages, spec.sent, n)
  {
    AllBlocking(service, s, turns);
    LoopIsService(service, size, s, turns);
    var messages := Received(turns);
    AllAnswered(service, s, messages);
    forall n | 0 <= n < |messages|
      ensures NthAnswered(service, size, s, messages, Serve(service, size, s, turns).sent, n)
    {
      AllAnswered(service, s, messages[..n]);
      AnswerFits(service, size, s, messages, Serve(service, size, s, turns).sent, n);
    }
  }

  // The n-th answer is to the n-th message, is its own, and fits.
  ghost predicate NthAnswered<S>(service: Service<S>, size: Payload -> nat, s: S, messages: seq<Call<Payload>>, sent: seq<Call<Payload>>, n: nat)
    requires n < |messages| && n < |sent|
  {
    && sent[n].cmd == messages[n].cmd && size(sent[n].payload) <= BUFFER_SIZE
    && OwnAnswer(service, size, StateAfter(service, s, messages[..n]), messages[n], sent[n].payload)
  }

  lemma {:induction false} AnswerFits<S(!new)>(service: Service<S>, size: Payload -> nat, s: S, messages: seq<Call<Payload>>, sent: seq<Call<Payload>>, n: nat)
    requires size(ZeroBytes) == 0 && Reliable(service) && n < |messages| && Blocking(messages[n].cmd)
    requires AnswerSent(service, size, s, messages, sent, n) && Answers(service, s, messages[..n]) == n
    ensures n < |sent| && NthAnswered(service, size, s, messages, sent, n)
  {
    var t := StateAfter(service, s, messages[..n]);
    assert service.serve(t, messages[n]).Replies?;
    assert IsAnswered(service, t, messages[n]);
  }

  lemma {:induction false} AllAnswered<S(!new)>(service: Service<S>, s: S, messages: seq<Call<Payload>>)
    requires Reliable(service) && forall i :: 0 <= i < |messages| ==> Blocking(messages[i].cmd)
    ensures Answers(service, s, messages) == |messages|
  {
    if messages != [] {
      AllAnswered(service, s, messages[..|messages| - 1]);
    }
  }

  lemma {:induction false} AllBlocking<S(!new)>(service: Service<S>, s: S, turns: seq<Turn>)
    requires Reliable(service) && forall i :: 0 <= i < |turns| ==> turns[i].connected
    requires forall i :: 0 <= i < |turns| && turns[i].message.Some? ==> Blocking(turns[i].message.value.cmd)
    ensures forall i :: 0 <= i < |Received(turns)| ==> Blocking(Received(turns)[i].cmd)
    ensures InByte(Received(turns)) && Runs(service, s, turns)
  {
    if turns != [] {
      AllBlocking(service, s, turns[..|turns| - 1]);
    }
  }

  // ---------------------------------------------------------- the loop as a session driver

  // After its death the loop answers nothing more; nothing more reaches it, either, since a
  // call it leaves unanswered is the last.
  function JavaSetup<S>(service: Service<S>, start: S, size: Payload -> nat, calls: seq<Call<Payload>>): Setup<S, Payload> {
    var answer := (s: S, c: Call<Payload>) =>
      match React(service, size, s, c)
      case Dies(t) => (t, None)
      case Reaction(t, reply) => (t, reply);
    Setup(Driver(start, answer, false), size, calls)
  }

  // What the loop answers to a call FmuProxy blocks on.
  function JavaAnswer<S>(service: Service<S>, size: Payload -> nat, s: S, call: Call<Payload>): Option<Payload> {
    if !service.parses(call) then Some(Bounded(size, StatusReply(Fatal)))
    else match service.serve(s, call)
      case Replies(_, reply) => Some(Fitting(size, call.cmd, reply))
      case _ => None
  }

  lemma JavaResult<S>(service: Service<S>, start: S, size: Payload -> nat, calls: seq<Call<Payload>>, n: nat)
    requires n < |calls| && Blocking(calls[n].cmd)
    ensures var u := JavaSetup(service, start, size, calls);
      !u.Oversize(calls[n]) ==>
        DirectResult(u, n) == JavaAnswer(service, size, DirectState(u, n), calls[n])
  {
    var u := JavaSetup(service, start, size, calls);
    AnsweredIff(service, size, DirectState(u, n), calls[n]);
  }

  // The driver moves as the service does.
  ghost predicate Drives<S(!new)>(u: Setup<S, Payload>, service: Service<S>) {
    forall t: S, c: Call<Payload> :: Blocking(c.cmd) ==> u.driver.answer(t, c).0 == StateAfter(service, t, [c])
  }

  lemma JavaDrives<S(!new)>(service: Service<S>, start: S, size: Payload -> nat, calls: seq<Call<Payload>>)
    ensures Drives(JavaSetup(service, start, size, calls), service)
  {
    forall t: S, c: Call<Payload> | Blocking(c.cmd)
      ensures JavaSetup(service, start, size, calls).driver.answer(t, c).0 == StateAfter(service, t, [c])
    {
      ReactIsService(service, size, t, c);
    }
  }

  lemma {:induction false} DrivenState<S(!new)>(u: Setup<S, Payload>, service: Service<S>, n: nat)
    requires Drives(u, service) && n <= |u.calls| && forall i :: 0 <= i < |u.calls| ==> Blocking(u.calls[i].cmd)
    ensures DirectState(u, n) == StateAfter(service, u.driver.start, SmallCalls(u, n))
  {
    if n > 0 {
      DrivenState(u, service, n - 1);
      var call, front := u.calls[n - 1], SmallCalls(u, n - 1);
      if !u.Oversize(call) {
        StateSnoc(service, u.driver.start, front, call);
        assert SmallCalls(u, n) == front + [call];
        assert u.driver.answer(DirectState(u, n - 1), call).0 == StateAfter(service, DirectState(u, n - 1), [call]);
      } else {
        assert SmallCalls(u, n) == front + [] == front;
      }
    }
  }

  lemma JavaState<S(!new)>(service: Service<S>, start: S, size: Payload -> nat, calls: seq<Call<Payload>>, n: nat)
    requires n <= |calls| && forall i :: 0 <= i < |calls| ==> Blocking(calls[i].cmd)
    ensures var u := JavaSetup(service, start, size, calls);
      DirectState(u, n) == StateAfter(service, start, SmallCalls(u, n))
  {
    JavaDrives(service, start, size, calls);
    DrivenState(JavaSetup(service, start, size, calls), service, n);
  }

  // One returned call, made with the service in state t: NULL, or its answer.
  ghost predicate Returned<S>(service: Service<S>, size: Payload -> nat, t: S, call: Call<Payload>, result: Option<Payload>) {
    && (result == None <==> size(call.payload) > BUFFER_SIZE)
    && (result.Some? ==> OwnAnswer(service, size, t, call, result.value))
  }

  // A call returned by the loop is one it answered.
  lemma JavaReturned<S>(service: Service<S>, start: S, size: Payload -> nat, calls: seq<Call<Payload>>, n: nat, result: Option<Payload>)
    requires size(ZeroBytes) == 0 && n < |calls| && Blocking(calls[n].cmd)
    requires var u := JavaSetup(service, start, size, calls);
      result == DirectResult(u, n) && (u.Oversize(calls[n]) || result.Some?)
    ensures Returned(service, size, DirectState(JavaSetup(service, start, size, calls), n), calls[n], result)
  {
    JavaResult(service, start, size, calls, n);
    ReactIsService(service, size, DirectState(JavaSetup(service, start, size, calls), n), calls[n]);
  }

  lemma JavaRepliesFit<S>(service: Service<S>, start: S, size: Payload -> nat, calls: seq<Call<Payload>>)
    requires size(ZeroBytes) == 0 && forall i :: 0 <= i < |calls| ==> Blocking(calls[i].cmd)
    ensures RepliesFit(JavaSetup(service, start, size, calls), |calls|)
  {
    forall n | 0 <= n < |calls|
      ensures var r := DirectResult(JavaSetup(service, start, size, calls), n); r.Some? ==> size(r.value) <= BUFFER_SIZE
    {
      JavaResult(service, start, size, calls, n);
    }
  }

  lemma JavaAnswers<S(!new)>(service: Service<S>, start: S, size: Payload -> nat, calls: seq<Call<Payload>>)
    requires Reliable(service) && forall i :: 0 <= i < |calls| ==> Blocking(calls[i].cmd)
    ensures Answered(JavaSetup(service, start, size, calls))
  {
    var u := JavaSetup(service, start, size, calls);
    forall n | 0 <= n < |calls| && !u.Oversize(calls[n])
      ensures DirectResult(u, n).Some?
    {
      JavaResult(service, start, size, calls, n);
    }
  }

  /** FmuProxy against the Java driver, for any service, any calls FmuProxy blocks on and any
      interleaving: a call returns NULL exactly when its request is oversize; otherwise it
      returns the answer to it of the service in the state the accepted calls before it left,
      the service's own reply if the request parses and the reply fits.  The slot never
      overflows; and if the service always replies, the system can move while a call is
      outstanding. */
  lemma JavaStack<S(!new)>(
    service: Service<S>, start: S, size: Payload -> nat, calls: seq<Call<Payload>>, slot: Message<Payload>, events: seq<Event>)
    requires size(ZeroBytes) == 0 && slot.size <= BUFFER_SIZE
    requires forall i :: 0 <= i < |calls| ==> Blocking(calls[i].cmd)
    requires Play(JavaSetup(service, start, size, calls), Begin(JavaSetup(service, start, size, calls), slot), events).Some?
    ensures var u := JavaSetup(service, start, size, calls);
      var s := Play(u, Begin(u, slot), events).value;
      && |s.results| <= |calls|
      && (forall i :: 0 <= i < |s.results| ==>
            Returned(service, size, StateAfter(service, start, SmallCalls(u, i)), calls[i], s.results[i]))
      && AlwaysSized(u, Begin(u, slot), events)
      && (Reliable(service) && |s.results| < |calls| ==>
            Enabled(u, s, Due(s))
            || (Enabled(u, s, DriverListens) && Enabled(u, Do(u, s, DriverListens).value, Due(s))))
  {
    var u := JavaSetup(service, start, size, calls);
    CallsRefineDirectCalls(u, slot, events);
    ReturnedWasAnswered(u, slot, events);
    var s := Play(u, Begin(u, slot), events).value;
    forall i | 0 <= i < |s.results|
      ensures Returned(service, size, StateAfter(service, start, SmallCalls(u, i)), calls[i], s.results[i])
    {
      JavaState(service, start, size, calls, i);
      JavaReturned(service, start, size, calls, i, s.results[i]);
    }
    JavaRepliesFit(service, start, size, calls);
    SlotNeverOverflows(u, slot, events);
    if Reliable(service) && |s.results| < |calls| {
      JavaAnswers(service, start, size, calls);
      NeverStuck(u, slot, events);
    }
  }

  /** What the caller of FmuProxy gets from the Java driver: refused calls are fatal; and if the
      request parses and the service's reply fits and is of the expected type, its status or
      values arrive unaltered. */
  lemma JavaCallerGets<S(!new)>(
    service: Service<S>, start: S, size: Payload -> nat, apis: seq<Api>, slot: Message<Payload>, events: seq<Event>, i: nat)
    requires size(ZeroBytes) == 0 && slot.size <= BUFFER_SIZE
    requires forall k :: 0 <= k < |apis| ==> Blocking(Marshal(apis[k]).cmd)
    requires var u := JavaSetup(service, start, size, Map(Marshal, apis));
      Play(u, Begin(u, slot), events).Some? && i < |Play(u, Begin(u, slot), events).value.results| <= |apis|
    ensures var u := JavaSetup(service, start, size, Map(Marshal, apis));
      var outcome := Unmarshal(apis[i], Play(u, Begin(u, slot), events).value.results[i]);
      var call, t := Marshal(apis[i]), StateAfter(service, start, SmallCalls(u, i));
      if size(call.payload) > BUFFER_SIZE then Refused(outcome)
      else service.parses(call) ==>
        && service.serve(t, call).Replies?
        && var own := service.serve(t, call).reply;
           Fits(apis[i], own) && size(own) <= BUFFER_SIZE ==> Delivered(own, outcome)
  {
    var u := JavaSetup(service, start, size, Map(Marshal, apis));
    JavaStack(service, start, size, Map(Marshal, apis), slot, events);
    var result := Play(u, Begin(u, slot), events).value.results[i];
    UnmarshalDelivers(apis[i], if result.Some? then result.value else ZeroBytes);
  }

  /** An oversize reply: a numeric get reports fmi2OK and writes nothing, a string get reports
      fmi2Fatal, and a status call reports fmi2OK, because zero bytes parse as the default. */
  lemma OversizeReplyOutcome(size: Payload -> nat, api: Api, reply: Payload)
    requires size(reply) > BUFFER_SIZE
    ensures var got := Unmarshal(api, Some(Fitting(size, Marshal(api).cmd, reply)));
      && (api.GetReal? ==> got == GotReals(OK, []))
      && (api.GetInteger? ==> got == GotIntegers(OK, []))
      && (api.GetBoolean? ==> got == GotBooleans(OK, []))
      && (api.GetString? ==> got == GotStrings(Fatal, []))
      && (api.Plain? ==> got == Outcome(OK))
  {
    if api.GetBoolean? {
      assert Map(ToBoolean, []) == [];
    }
  }
}
