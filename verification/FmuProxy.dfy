/** FmuProxy: marshalling loops, the size check, the untimed send, and the copy of a reply
    into the caller's array.  The integer variants are literal copies of the real ones. */
module FmuProxy {
  import opened Rendezvous
  import opened Ipc
  import opened RemoteCall
  import opened FmiValues
  import opened Timing

  // Null: the request was too big.  Blocked: no reply before the schedule ended.
  datatype Sent = Null | Parsed(payload: Payload) | Blocked

  // Overrun: the reply holds more values than the caller's array, which the original
  // writes past.
  datatype Return = Returned(status: Status) | Waits | Overrun

  type Gaps = g: seq<seq<Step<Message<Payload>>>> | |g| >= 2 witness [[], []]

  class FmuProxy {
    const server: Segment<Message<Payload>>
    const size: Payload -> nat

    constructor (server: Segment<Message<Payload>>, size: Payload -> nat)
      ensures this.server == server && this.size == size
    {
      this.server, this.size := server, size;
    }

    ghost predicate Ready()
      reads server
    {
      server.Valid() && server.server.Idle?
    }

    // The message is the call, command, payload and recorded size.
    ghost predicate Carries(m: Message<Payload>, call: Call<Payload>) {
      m.cmd == call.cmd && m.payload == call.payload && m.size == size(call.payload)
    }

    // One more request is on the channel, and it is the call.
    twostate predicate Requested(call: Call<Payload>)
      reads server
    {
      var before, after := old(server.model.requests), server.model.requests;
      |after| == |before| + 1 && before <= after && Carries(after[|before|], call)
    }

    // What a send of `call` did to the channel, given the reply it returned.
    twostate predicate SentOnce(call: Call<Payload>, sent: Sent)
      reads server
    {
      && server.Valid()
      && (sent.Null? <==> size(call.payload) > BUFFER_SIZE)
      && (sent.Null? ==> unchanged(server))
      && (!sent.Null? ==> Requested(call))
      && (sent.Parsed? ==>
            && server.server.Idle? && server.slot.payload == sent.payload
            && server.model.returned == old(server.model.returned) + [server.slot])
      && (sent.Blocked? ==>
            && server.server.Waiting? && server.signal == 0
            && server.model.returned == old(server.model.returned))
      && server.model.timeouts == old(server.model.timeouts)
    }

    /** FmuProxy::send: refuse an oversize message, else call the server untimed.  If the peer,
        quiet before, serves the message in some gap, its reply is returned. */
    method Send(call: Call<Payload>, gaps: Gaps) returns (sent: Sent)
      requires Ready()
      modifies server
      ensures SentOnce(call, sent)
      ensures forall k: nat, r: Message<Payload> ::
        !sent.Null? && old(Quiet(server.model)) && 2 <= k && IdleUntil(gaps, k) && gaps[k] == Serves(r) ==>
          sent == Parsed(r.payload)
    {
      if size(call.payload) > BUFFER_SIZE {
        return Null;
      }
      var message := Message(call.cmd, call.payload, size(call.payload));
      var outcome, trace := server.Send(message, 0, gaps);
      forall k: nat, r: Message<Payload> |
          old(Quiet(server.model)) && 2 <= k && IdleUntil(gaps, k) && gaps[k] == Serves(r)
        ensures outcome == Answered(r)
      {
        SendIsServed(old(server.model), message, 0, gaps, k, r);
      }
      match outcome {
        case Answered(m) => sent := Parsed(m.payload);
        case Pending => sent := Blocked;
      }
    }

    // The request loops: append the first n elements of an array one by one.
    static method Repeated<T>(a: array<T>, n: nat) returns (s: seq<T>)
      requires n <= a.Length
      ensures s == a[..n]
    {
      s := [];
      for i := 0 to n
        invariant s == a[..i]
      {
        s := s + [a[i]];
      }
    }

    // The reply loops: value[i] = reply->values(i).
    static method CopyOut<T>(vals: seq<T>, value: array<T>)
      requires |vals| <= value.Length
      modifies value
      ensures value[..] == vals + old(value[..])[|vals|..]
    {
      for i := 0 to |vals|
        invariant value[..i] == vals[..i]
        invariant value[i..] == old(value[..])[i..]
      {
        value[i] := vals[i];
        assert value[..i + 1] == value[..i] + [vals[i]];
      }
      assert value[..] == value[..|vals|] + value[|vals|..];
    }

    static function StatusOf(sent: Sent): Return {
      match sent
      case Null => Returned(Fatal)
      case Parsed(p) => Returned(AsStatus(p))
      case Blocked => Waits
    }

    // fmi2Fatal for a refused message, the status replied, and fmi2OK for an empty reply.
    static ghost predicate Reports(result: Return, sent: Sent) {
      && (sent.Null? ==> result == Returned(Fatal))
      && (sent.Blocked? <==> result == Waits)
      && (sent.Parsed? && sent.payload.StatusReply? ==> result == Returned(sent.payload.status))
      && (sent == Parsed(ZeroBytes) ==> result == Returned(OK))
    }

    method SetReal(vr: array<nat>, nvr: nat, value: array<real>, gaps: Gaps)
      returns (result: Return, ghost sent: Sent)
      requires Ready() && nvr <= vr.Length && nvr <= value.Length
      modifies server
      ensures SentOnce(Marshal(Api.SetReal(vr[..nvr], value[..nvr])), sent)
      ensures Reports(result, sent)
    {
      var refs := Repeated(vr, nvr);
      var vals := Repeated(value, nvr);
      var r := Send(Call(SET_REAL, SetReals(refs, vals)), gaps);
      result, sent := StatusOf(r), r;
    }

    method SetBoolean(vr: array<nat>, nvr: nat, value: array<int>, gaps: Gaps)
      returns (result: Return, ghost sent: Sent)
      requires Ready() && nvr <= vr.Length && nvr <= value.Length
      modifies server
      ensures SentOnce(Marshal(Api.SetBoolean(vr[..nvr], value[..nvr])), sent)
      ensures Reports(result, sent)
    {
      var refs := Repeated(vr, nvr);
      var vals: seq<bool> := [];
      for i := 0 to nvr
        invariant vals == Map(FromBoolean, value[..i])
      {
        vals := vals + [FromBoolean(value[i])];
      }
      var r := Send(Call(SET_BOOLEAN, SetBooleans(refs, vals)), gaps);
      result, sent := StatusOf(r), r;
    }

    method SetString(vr: array<nat>, nvr: nat, value: array<CString>, gaps: Gaps)
      returns (result: Return, ghost sent: Sent)
      requires Ready() && nvr <= vr.Length && nvr <= value.Length
      modifies server
      ensures SentOnce(Marshal(Api.SetString(vr[..nvr], value[..nvr])), sent)
      ensures Reports(result, sent)
    {
      var refs := Repeated(vr, nvr);
      var vals := Repeated<CString>(value, nvr);
      var r := Send(Call(SET_STRING, SetStrings(refs, vals)), gaps);
      result, sent := StatusOf(r), r;
    }

    /** The reply's values go to the front of `value`; the rest, and everything on an
        oversize request or an empty reply, stays as it was. */
    method GetReal(vr: array<nat>, nvr: nat, value: array<real>, gaps: Gaps)
      returns (result: Return, ghost sent: Sent)
      requires Ready() && nvr <= vr.Length
      modifies server, value
      ensures SentOnce(Marshal(Api.GetReal(vr[..nvr])), sent)
      ensures match sent
        case Null => result == Returned(Fatal) && value[..] == old(value[..])
        case Blocked => result == Waits && value[..] == old(value[..])
        case Parsed(p) =>
          if |AsReals(p)| > value.Length then result == Overrun
          else result == Returned(OK) && value[..] == AsReals(p) + old(value[..])[|AsReals(p)|..]
    {
      var refs := Repeated(vr, nvr);
      var r := Send(Call(GET_REAL, GetRequest(refs)), gaps);
      sent := r;
      match r {
        case Null => result := Returned(Fatal);
        case Blocked => result := Waits;
        case Parsed(p) =>
          if |AsReals(p)| > value.Length { return Overrun, sent; }
          CopyOut(AsReals(p), value);
          result := Returned(OK);
      }
    }

    /** A reply that is not marked valid yields fmi2Fatal and writes nothing. */
    method GetString(vr: array<nat>, nvr: nat, value: array<CString>, gaps: Gaps)
      returns (result: Return, ghost sent: Sent)
      requires Ready() && nvr <= vr.Length
      modifies server, value
      ensures SentOnce(Marshal(Api.GetString(vr[..nvr])), sent)
      ensures match sent
        case Null => result == Returned(Fatal) && value[..] == old(value[..])
        case Blocked => result == Waits && value[..] == old(value[..])
        case Parsed(p) =>
          if !AsValid(p) then result == Returned(Fatal) && value[..] == old(value[..])
          else if |AsStrings(p)| > value.Length then result == Overrun
          else result == Returned(OK) && value[..] == AsStrings(p) + old(value[..])[|AsStrings(p)|..]
    {
      var refs := Repeated(vr, nvr);
      var r := Send(Call(GET_STRING, GetRequest(refs)), gaps);
      sent := r;
      match r {
        case Null => result := Returned(Fatal);
        case Blocked => result := Waits;
        case Parsed(p) =>
          if !AsValid(p) { return Returned(Fatal), sent; }
          if |AsStrings(p)| > value.Length { return Overrun, sent; }
          CopyOut<CString>(AsStrings(p), value);
          result := Returned(OK);
      }
    }

    /** fmi2FreeInstance: one send of the free message, timed with 1 ms, whose outcome is
        ignored.  It never blocks, and it is the only send of the proxy that can time out. */
    method FreeInstance(gaps: Gaps)
      requires Ready()
      modifies server
      ensures Ready()
      ensures Requested(Call(FREE_INSTANCE, Empty))
      ensures server.model.timeouts + |server.model.returned|
           == old(server.model.timeouts + |server.model.returned|) + 1
    {
      var message := Message(FREE_INSTANCE, Empty, size(Empty));
      var outcome, trace := server.Send(message, 1, gaps);
    }
  }
}
