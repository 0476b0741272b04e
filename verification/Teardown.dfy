/** Timed sends and correspondence: exactly which timing of the sends of a channel guarantees
    that every send that returns a value returns the reply to its own request, and that
    requests are read in order; and, with the registry, that every command channel the caller
    ever uses has such a timing. */
module Teardown {
  import opened Wrappers
  import opened Rendezvous
  import opened Timing
  import Registry

  /** A channel under observation.  `answers` is the number of the request that the last reply
      answers, and `own` whether every value returned so far was the last reply, made to the
      very request whose send returned it. */
  datatype Monitor<+M> = Monitor(channel: Channel<M>, answers: int, own: bool)

  function Begin<M>(slot: M): Monitor<M> { Monitor(Fresh(slot), -1, true) }

  ghost predicate ReturnsOwn<M>(w: Monitor<M>) {
    var c := w.channel;
    c.replies != [] && c.slot == c.replies[|c.replies| - 1] && w.answers == |c.requests| - 1
  }

  ghost function Observe<M>(flags: seq<bool>, w: Monitor<M>, step: Step<M>): Option<Monitor<M>> {
    var c := w.channel;
    if !Permitted(flags, c, step) then None
    else match Next(c, step)
      case None => None
      case Some(d) =>
        Some(Monitor(d,
          if step.ClientCopies? then (if c.origins == [] then -1 else c.origins[|c.origins| - 1]) else w.answers,
          w.own && (step.ServerWakes? ==> ReturnsOwn(w))))
  }

  /** A run of the channel on which the sends are timed as `flags` says. */
  ghost function Watch<M>(flags: seq<bool>, w: Monitor<M>, steps: seq<Step<M>>): Option<Monitor<M>> {
    if steps == [] then Some(w) else
    match Watch(flags, w, steps[..|steps| - 1])
    case None => None
    case Some(v) => Observe(flags, v, steps[|steps| - 1])
  }

  lemma {:induction false} WatchIsRun<M>(flags: seq<bool>, w: Monitor<M>, steps: seq<Step<M>>)
    requires Watch(flags, w, steps).Some?
    ensures Run(w.channel, steps) == Some(Watch(flags, w, steps).value.channel)
  {
    if steps != [] {
      WatchIsRun(flags, w, steps[..|steps| - 1]);
    }
  }

  // ------------------------------------------------------- no send after a timed one

  // While nothing has timed out, requests are read and answered in order.
  ghost predicate Traced<M>(c: Channel<M>, answers: int) {
    && |c.origins| == |c.taken|
    && (c.timeouts == 0 ==>
          && (c.server.Copied? || c.avail > 0 ==> c.origin == |c.requests| - 1)
          && (forall i :: 0 <= i < |c.origins| ==> c.origins[i] == i)
          && (c.client.Replied? || c.signal > 0 ==> answers == |c.requests| - 1))
  }

  // The n-th value returned is the n-th reply, and the n-th message read the n-th request.
  ghost predicate Matched<M>(c: Channel<M>) {
    && c.returned <= c.replies
    && |c.returned| <= |c.taken| && |c.returned| <= |c.requests|
    && c.taken[..|c.returned|] == c.requests[..|c.returned|]
  }

  ghost predicate Settled<M>(flags: seq<bool>, w: Monitor<M>) {
    var c := w.channel;
    w.own && Orderly(flags, c) && Faithful(c) && Traced(c, w.answers) && Matched(c)
  }

  lemma TracedServer<M>(c: Channel<M>, step: Step<M>, answers: int)
    requires Counted(c) && Traced(c, answers) && step.ByServer() && Next(c, step).Some?
    ensures Traced(Next(c, step).value, answers)
  {
  }

  lemma TracedClient<M>(c: Channel<M>, step: Step<M>, answers: int)
    requires !step.ByServer() && !step.ClientCopies?
    requires Counted(c) && Traced(c, answers) && Next(c, step).Some?
    ensures Traced(Next(c, step).value, answers)
  {
  }

  lemma TracedCopies<M>(c: Channel<M>, answers: int)
    requires Counted(c) && Traced(c, answers) && Next(c, ClientCopies).Some?
    ensures c.origins != [] && Traced(Next(c, ClientCopies).value, c.origins[|c.origins| - 1])
  {
  }

  // The histories only grow.
  lemma HistoriesGrow<M>(c: Channel<M>, step: Step<M>)
    requires Next(c, step).Some?
    ensures var d := Next(c, step).value;
      c.returned <= d.returned && c.replies <= d.replies && c.taken <= d.taken && c.requests <= d.requests
  {
  }

  lemma MatchedStays<M>(c: Channel<M>, step: Step<M>)
    requires Matched(c) && Next(c, step).Some? && !step.ServerWakes?
    ensures Matched(Next(c, step).value)
  {
    HistoriesGrow(c, step);
    var d, k := Next(c, step).value, |c.returned|;
    assert d.returned == c.returned;
    assert d.taken[..k] == c.taken[..k] && d.requests[..k] == c.requests[..k];
  }

  lemma FaithfulIsMatched<M>(c: Channel<M>)
    requires Counted(c) && Faithful(c) && c.timeouts == 0
    ensures Matched(c)
  {
    assert c.taken[..|c.returned|] == c.requests[..|c.returned|];
  }

  lemma TracedObserve<M>(flags: seq<bool>, w: Monitor<M>, step: Step<M>)
    requires Counted(w.channel) && Traced(w.channel, w.answers) && Observe(flags, w, step).Some?
    ensures var v := Observe(flags, w, step).value; Traced(v.channel, v.answers)
  {
    var c := w.channel;
    if step.ByServer() { TracedServer(c, step, w.answers); }
    else if step.ClientCopies? { TracedCopies(c, w.answers); }
    else { TracedClient(c, step, w.answers); }
  }

  // Before a send returns, its own reply is in the slot.
  lemma OwnObserve<M>(w: Monitor<M>)
    requires w.channel.timeouts == 0 && w.channel.server.Waiting? && w.channel.signal > 0
    requires Counted(w.channel) && Faithful(w.channel) && Traced(w.channel, w.answers)
    ensures ReturnsOwn(w)
  {
  }

  lemma SettledObserve<M>(flags: seq<bool>, w: Monitor<M>, step: Step<M>)
    requires NoSendAfterTimed(flags) && Settled(flags, w) && Observe(flags, w, step).Some?
    ensures Settled(flags, Observe(flags, w, step).value)
  {
    var c := w.channel;
    OrderlyNext(flags, c, step);
    FaithfulNext(c, step);
    TracedObserve(flags, w, step);
    if step.ServerWakes? {
      OwnObserve(w);
      FaithfulIsMatched(Next(c, step).value);
    } else {
      MatchedStays(c, step);
    }
  }

  lemma {:induction false} SettledWatch<M>(flags: seq<bool>, slot: M, steps: seq<Step<M>>)
    requires NoSendAfterTimed(flags) && Watch(flags, Begin(slot), steps).Some?
    ensures Settled(flags, Watch(flags, Begin(slot), steps).value)
  {
    if steps != [] {
      var before := steps[..|steps| - 1];
      SettledWatch(flags, slot, before);
      SettledObserve(flags, Watch(flags, Begin(slot), before).value, steps[|steps| - 1]);
    }
  }

  // --------------------------------------------------------------- a send after a timed one

  lemma WatchSnoc<M>(flags: seq<bool>, w: Monitor<M>, steps: seq<Step<M>>, step: Step<M>)
    ensures Watch(flags, w, steps + [step]) ==
      match Watch(flags, w, steps) case None => None case Some(v) => Observe(flags, v, step)
  {
    assert (steps + [step])[..|steps|] == steps;
  }

  lemma {:induction false} WatchConcat<M>(flags: seq<bool>, w: Monitor<M>, a: seq<Step<M>>, b: seq<Step<M>>)
    requires Watch(flags, w, a).Some?
    ensures Watch(flags, w, a + b) == Watch(flags, Watch(flags, w, a).value, b)
  {
    if b == [] {
      assert a + b == a;
    } else {
      var front, last := b[..|b| - 1], b[|b| - 1];
      WatchConcat(flags, w, a, front);
      WatchSnoc(flags, w, a + front, last);
      assert a + b == a + front + [last];
    }
  }

  lemma WatchOne<M>(flags: seq<bool>, w: Monitor<M>, step: Step<M>)
    ensures Watch(flags, w, [step]) == Observe(flags, w, step)
  {
    assert [step][..0] == [];
  }

  lemma WatchThree<M>(flags: seq<bool>, w: Monitor<M>, s1: Step<M>, s2: Step<M>, s3: Step<M>)
    requires Observe(flags, w, s1).Some? && Observe(flags, Observe(flags, w, s1).value, s2).Some?
    ensures Watch(flags, w, [s1, s2, s3])
         == Observe(flags, Observe(flags, Observe(flags, w, s1).value, s2).value, s3)
  {
    WatchOne(flags, w, s1);
    assert [s1, s2][..1] == [s1] && [s1, s2, s3][..2] == [s1, s2];
  }

  lemma SendBlock<M>(flags: seq<bool>, w: Monitor<M>, m: M)
    requires w.channel.server.Idle? && |w.channel.requests| < |flags|
    ensures Watch(flags, w, SendSteps(m)) == Some(w.(channel := Sent(w.channel, m)))
  {
    WatchThree(flags, w, ServerBegins(m), ServerCopies, ServerPosts);
  }

  lemma ReplyBlock<M>(flags: seq<bool>, w: Monitor<M>, r: M)
    requires w.channel.client.Holding? && w.channel.origins != []
    ensures Watch(flags, w, ReplySteps(r))
         == Some(w.(channel := Answered(w.channel, r), answers := w.channel.origins[|w.channel.origins| - 1]))
  {
    WatchThree(flags, w, ClientBegins(r), ClientCopies, ClientPosts);
  }

  function Round<M>(m: M, r: M): seq<Step<M>> {
    SendSteps(m) + [ClientListens, ClientWakes] + ReplySteps(r) + [ServerWakes]
  }

  lemma ReadBlock<M>(flags: seq<bool>, w: Monitor<M>)
    requires w.channel.client.Away? && w.channel.avail > 0
    ensures Watch(flags, w, [ClientListens, ClientWakes]) == Some(w.(channel := Read(w.channel)))
  {
    var listening := w.(channel := w.channel.(client := Listening));
    assert [Step<M>.ClientListens] + [ClientWakes] == [ClientListens, ClientWakes];
    WatchOne(flags, w, ClientListens);
    WatchOne(flags, listening, ClientWakes);
    WatchConcat(flags, w, [ClientListens], [ClientWakes]);
  }

  // An answered call.
  lemma RoundBlock<M>(flags: seq<bool>, w: Monitor<M>, m: M, r: M)
    requires Quiet(w.channel) && |w.channel.requests| < |flags|
    ensures Watch(flags, w, Round(m, r)).Some?
    ensures var d := Watch(flags, w, Round(m, r)).value.channel;
      && Quiet(d) && d.requests == w.channel.requests + [m] && d.returned == w.channel.returned + [r]
      && |d.taken| == |w.channel.taken| + 1
  {
    var sent := w.(channel := Sent(w.channel, m));
    SendBlock(flags, w, m);
    ReadBlock(flags, sent);
    WatchConcat(flags, w, SendSteps(m), [ClientListens, ClientWakes]);
    var held := w.(channel := Read(sent.channel));
    ReplyBlock(flags, held, r);
    WatchConcat(flags, w, SendSteps(m) + [ClientListens, ClientWakes], ReplySteps(r));
    var replied := Watch(flags, held, ReplySteps(r)).value;
    WatchOne(flags, replied, ServerWakes);
    WatchConcat(flags, w, SendSteps(m) + [ClientListens, ClientWakes] + ReplySteps(r), [ServerWakes]);
  }

  function Rounds<M>(k: nat, m: M): seq<Step<M>> {
    if k == 0 then [] else Rounds(k - 1, m) + Round(m, m)
  }

  lemma {:induction false} RoundsBlock<M>(flags: seq<bool>, slot: M, k: nat, m: M)
    requires k <= |flags|
    ensures Watch(flags, Begin(slot), Rounds(k, m)).Some?
    ensures var d := Watch(flags, Begin(slot), Rounds(k, m)).value.channel;
      Quiet(d) && |d.requests| == k && |d.returned| == k && |d.taken| == k
  {
    if k > 0 {
      RoundsBlock(flags, slot, k - 1, m);
      RoundBlock(flags, Watch(flags, Begin(slot), Rounds(k - 1, m)).value, m, m);
      WatchConcat(flags, Begin(slot), Rounds(k - 1, m), Round(m, m));
    }
  }

  function LateReply<M>(q1: M, r1: M, q2: M): seq<Step<M>> {
    SendSteps(q1) + [ClientListens, ClientWakes, ServerTimesOut] + SendSteps(q2) + ReplySteps(r1) + [ServerWakes]
  }

  // The client has read the message of a send that then gave up.
  function Expired<M>(c: Channel<M>, m: M): Channel<M> {
    Read(Sent(c, m)).(server := Idle, timeouts := c.timeouts + 1)
  }

  lemma ExpiredBlock<M>(flags: seq<bool>, w: Monitor<M>, m: M)
    requires Quiet(w.channel) && |w.channel.requests| < |flags| && flags[|w.channel.requests|]
    ensures Watch(flags, w, SendSteps(m) + [ClientListens, ClientWakes, ServerTimesOut])
         == Some(w.(channel := Expired(w.channel, m)))
  {
    var sent := w.(channel := Sent(w.channel, m));
    SendBlock(flags, w, m);
    var listening := w.(channel := sent.channel.(client := Listening));
    var held := w.(channel := Read(sent.channel));
    assert Observe(flags, sent, ClientListens) == Some(listening);
    assert Observe(flags, listening, ClientWakes) == Some(held);
    WatchThree(flags, sent, ClientListens, ClientWakes, ServerTimesOut);
    WatchConcat(flags, w, SendSteps(m), [ClientListens, ClientWakes, ServerTimesOut]);
  }

  // A reply to an earlier request, made while another send waits.
  lemma StaleBlock<M>(flags: seq<bool>, w: Monitor<M>, r: M)
    requires w.channel.server.Waiting? && w.channel.client.Holding? && w.channel.origins != []
    requires w.channel.origins[|w.channel.origins| - 1] != |w.channel.requests| - 1
    ensures Watch(flags, w, ReplySteps(r) + [ServerWakes]).Some?
    ensures var v := Watch(flags, w, ReplySteps(r) + [ServerWakes]).value;
      && !v.own && v.channel.requests == w.channel.requests && v.channel.taken == w.channel.taken
      && v.channel.returned == w.channel.returned + [r]
  {
    ReplyBlock(flags, w, r);
    var replied := Watch(flags, w, ReplySteps(r)).value;
    WatchOne(flags, replied, ServerWakes);
    WatchConcat(flags, w, ReplySteps(r), [ServerWakes]);
  }

  lemma LateReplyBlock<M>(flags: seq<bool>, w: Monitor<M>, q1: M, r1: M, q2: M)
    requires Quiet(w.channel) && |w.channel.requests| + 1 < |flags| && flags[|w.channel.requests|]
    ensures Watch(flags, w, LateReply(q1, r1, q2)).Some?
    ensures var v := Watch(flags, w, LateReply(q1, r1, q2)).value;
      && !v.own
      && v.channel.requests == w.channel.requests + [q1, q2]
      && v.channel.taken == w.channel.taken + [q1]
      && v.channel.returned == w.channel.returned + [r1]
  {
    var a := SendSteps(q1) + [ClientListens, ClientWakes, ServerTimesOut];
    var expired := w.(channel := Expired(w.channel, q1));
    ExpiredBlock(flags, w, q1);
    SendBlock(flags, expired, q2);
    WatchConcat(flags, w, a, SendSteps(q2));
    StaleBlock(flags, expired.(channel := Sent(expired.channel, q2)), r1);
    WatchConcat(flags, w, a + SendSteps(q2), ReplySteps(r1) + [ServerWakes]);
    assert LateReply(q1, r1, q2) == a + SendSteps(q2) + (ReplySteps(r1) + [ServerWakes]);
    assert w.channel.requests + [q1] + [q2] == w.channel.requests + [q1, q2];
  }

  /** One timed-out send breaks correspondence wherever it stands, if another send follows:
      after any number k of answered calls, a client that has read `q1` can reply to it so
      late that the send of `q2` returns that reply, and `q2` is never read. */
  lemma StaleReplyAfterTimeout<M>(flags: seq<bool>, slot: M, k: nat, m: M, q1: M, r1: M, q2: M)
    requires k + 1 < |flags| && flags[k]
    ensures var steps := Rounds(k, m) + LateReply(q1, r1, q2);
      && Watch(flags, Begin(slot), steps).Some?
      && Run(Fresh(slot), steps).Some?
      && !Watch(flags, Begin(slot), steps).value.own
      && var c := Run(Fresh(slot), steps).value;
         && |c.requests| == k + 2 && c.requests[k..] == [q1, q2]
         && |c.returned| == k + 1 && c.returned[k] == r1
         && c.taken != [] && c.taken[|c.taken| - 1] == q1
  {
    RoundsBlock(flags, slot, k, m);
    var w := Watch(flags, Begin(slot), Rounds(k, m)).value;
    LateReplyBlock(flags, w, q1, r1, q2);
    WatchConcat(flags, Begin(slot), Rounds(k, m), LateReply(q1, r1, q2));
    WatchIsRun(flags, Begin(slot), Rounds(k, m) + LateReply(q1, r1, q2));
  }

  // --------------------------------------------------------------------- the exact condition

  // In every run so timed, every value returned is the reply to its own request.
  ghost predicate Guaranteed<M(!new)>(flags: seq<bool>) {
    forall slot: M, steps: seq<Step<M>> ::
      Watch(flags, Begin(slot), steps).Some? ==> Watch(flags, Begin(slot), steps).value.own
  }

  /** A timing of the sends guarantees every send that returns its own reply, in every run, if
      and only if no send follows a timed one. */
  lemma OwnRepliesIffNoSendAfterTimed<M(!new)>(flags: seq<bool>, m: M)
    ensures Guaranteed<M>(flags) <==> NoSendAfterTimed(flags)
  {
    if NoSendAfterTimed(flags) {
      forall slot: M, steps: seq<Step<M>> | Watch(flags, Begin(slot), steps).Some?
        ensures Watch(flags, Begin(slot), steps).value.own
      {
        SettledWatch(flags, slot, steps);
      }
    } else {
      var k :| 0 <= k < |flags| - 1 && flags[k];
      StaleReplyAfterTimeout(flags, m, k, m, m, m, m);
    }
  }

  // In every run so timed, the client reads the requests unaltered and in order.
  ghost predicate AlwaysReadInOrder<M(!new)>(flags: seq<bool>) {
    forall slot: M, steps: seq<Step<M>> ::
      Watch(flags, Begin(slot), steps).Some? ==>
        var c := Watch(flags, Begin(slot), steps).value.channel; c.taken <= c.requests
  }

  function SkippedRequest<M>(q1: M, q2: M): seq<Step<M>> {
    SendSteps(q1) + [ServerTimesOut] + SendSteps(q2) + [ClientListens, ClientWakes]
  }

  // A send that gave up before its message was read.
  function Lapsed<M>(c: Channel<M>, m: M): Channel<M> {
    Sent(c, m).(server := Idle, timeouts := c.timeouts + 1)
  }

  lemma LapsedBlock<M>(flags: seq<bool>, w: Monitor<M>, m: M)
    requires w.channel.server.Idle? && |w.channel.requests| < |flags| && flags[|w.channel.requests|]
    ensures Watch(flags, w, SendSteps(m) + [ServerTimesOut]) == Some(w.(channel := Lapsed(w.channel, m)))
  {
    SendBlock(flags, w, m);
    WatchOne(flags, w.(channel := Sent(w.channel, m)), ServerTimesOut);
    WatchConcat(flags, w, SendSteps(m), [ServerTimesOut]);
  }

  lemma SkippedBlock<M>(flags: seq<bool>, w: Monitor<M>, q1: M, q2: M)
    requires Quiet(w.channel) && |w.channel.requests| + 1 < |flags| && flags[|w.channel.requests|]
    ensures Watch(flags, w, SkippedRequest(q1, q2)).Some?
    ensures var d := Watch(flags, w, SkippedRequest(q1, q2)).value.channel;
      d.requests == w.channel.requests + [q1, q2] && d.taken == w.channel.taken + [q2]
  {
    var a := SendSteps(q1) + [ServerTimesOut];
    LapsedBlock(flags, w, q1);
    var lapsed := w.(channel := Lapsed(w.channel, q1));
    SendBlock(flags, lapsed, q2);
    WatchConcat(flags, w, a, SendSteps(q2));
    ReadBlock(flags, lapsed.(channel := Sent(lapsed.channel, q2)));
    WatchConcat(flags, w, a + SendSteps(q2), [ClientListens, ClientWakes]);
    assert w.channel.requests + [q1] + [q2] == w.channel.requests + [q1, q2];
  }

  // A request that timed out before it was read is overwritten by the next one.
  lemma SkippedAfterTimeout<M>(flags: seq<bool>, slot: M, k: nat, m: M, q1: M, q2: M)
    requires k + 1 < |flags| && flags[k] && q1 != q2
    ensures var steps := Rounds(k, m) + SkippedRequest(q1, q2);
      && Watch(flags, Begin(slot), steps).Some?
      && var c := Watch(flags, Begin(slot), steps).value.channel; !(c.taken <= c.requests)
  {
    RoundsBlock(flags, slot, k, m);
    var w := Watch(flags, Begin(slot), Rounds(k, m)).value;
    SkippedBlock(flags, w, q1, q2);
    WatchConcat(flags, Begin(slot), Rounds(k, m), SkippedRequest(q1, q2));
    var c := Watch(flags, Begin(slot), Rounds(k, m) + SkippedRequest(q1, q2)).value.channel;
    assert c.taken[k] == q2 && c.requests[k] == q1;
  }

  /** A timing of the sends guarantees that the client reads the requests unaltered and in
      order, the last one included, if and only if no send follows a timed one. */
  lemma ReadInOrderIffNoSendAfterTimed<M(!new)>(flags: seq<bool>, a: M, b: M)
    requires a != b
    ensures AlwaysReadInOrder<M>(flags) <==> NoSendAfterTimed(flags)
  {
    if NoSendAfterTimed(flags) {
      forall slot: M, steps: seq<Step<M>> | Watch(flags, Begin(slot), steps).Some?
        ensures var c := Watch(flags, Begin(slot), steps).value.channel; c.taken <= c.requests
      {
        SettledWatch(flags, slot, steps);
      }
    } else {
      var k :| 0 <= k < |flags| - 1 && flags[k];
      SkippedAfterTimeout(flags, a, k, a, a, b);
    }
  }

  /** For every history of API calls and every channel: in any run of that channel in which
      sends are timed as the history says, whatever the client leaves unanswered, every value
      returned is the reply to the call that returned it, and the n-th is the n-th reply; the
      messages read are the requests unaltered and in order, the free message included. */
  lemma EveryReturnedCallIsItsOwn<M>(ops: seq<Registry.Op>, id: nat, flags: seq<bool>, slot: M, steps: seq<Step<M>>)
    requires Registry.Lawful(ops) && flags == Registry.OnChannel(Registry.History(ops).sends, id)
    requires Watch(flags, Begin(slot), steps).Some?
    ensures Watch(flags, Begin(slot), steps).value.own
    ensures Run(Fresh(slot), steps).Some?
    ensures var c := Run(Fresh(slot), steps).value; Matched(c) && c.taken <= c.requests
  {
    Registry.TimedSendIsLast(ops, id);
    WatchIsRun(flags, Begin(slot), steps);
    FreedIsTimed(flags, id in Registry.History(ops).freed);
    SettledWatch(flags, slot, steps);
  }

  lemma FreedIsTimed(flags: seq<bool>, freed: bool)
    requires Registry.OnlyLastTimed(flags, freed)
    ensures NoSendAfterTimed(flags)
  {
  }
}
