/** `IpcServer::send`, `IpcClient::getMessage` and `IpcClient::sendReply` as methods on the
    mapped segment.  The other process runs between any two atomic actions: each method is
    given the actions the other side attempts in each gap, for an arbitrary schedule.  What
    each does to the channel is a function of the schedule; the lemmas say that it is a run
    of the rendezvous, which actions it takes, and that a wait ends with a token exactly if
    there is one at some moment it looks. */
module Ipc {
  import opened Rendezvous
  import opened Wrappers

  // Answered: the pointer into the slot.  TimedOut: NULL.  Pending: still blocked when the
  // schedule ends, possible only without a timeout.
  datatype Outcome<+M> = Answered(message: M) | TimedOut | Pending

  // What a call comes to: its outcome and the channel afterwards.
  datatype Ended<+M> = Ended(outcome: Outcome<M>, channel: Channel<M>)

  // ------------------------------------------------------------------ the other process

  function Attempt<M>(c: Channel<M>, step: Step<M>): Channel<M> {
    match Next(c, step) case None => c case Some(d) => d
  }

  // The process `byServer` names makes its attempts; those not possible are skipped.
  function Attempts<M>(c: Channel<M>, steps: seq<Step<M>>, byServer: bool): Channel<M> {
    if steps == [] then c
    else
      var before, last := Attempts(c, steps[..|steps| - 1], byServer), steps[|steps| - 1];
      if last.ByServer() == byServer then Attempt(before, last) else before
  }

  // The part of a run that one of the two processes takes.
  function Side<M>(steps: seq<Step<M>>, server: bool): seq<Step<M>> {
    if steps == [] then []
    else
      var last := steps[|steps| - 1];
      Side(steps[..|steps| - 1], server) + if last.ByServer() == server then [last] else []
  }

  lemma SideSnoc<M>(a: seq<Step<M>>, step: Step<M>, server: bool)
    ensures Side(a + [step], server) == Side(a, server) + if step.ByServer() == server then [step] else []
  {
    assert (a + [step])[..|a|] == a;
  }

  lemma {:induction false} SideConcat<M>(a: seq<Step<M>>, b: seq<Step<M>>, server: bool)
    ensures Side(a + b, server) == Side(a, server) + Side(b, server)
  {
    if b == [] {
      assert a + b == a;
    } else {
      var front, last := b[..|b| - 1], b[|b| - 1];
      SideConcat(a, front, server);
      SideSnoc(a + front, last, server);
      assert a + b == a + front + [last];
    }
  }

  // What one process keeps while the other runs.
  ghost predicate Undisturbed<M>(c: Channel<M>, d: Channel<M>, byServer: bool) {
    if byServer then
      d.client == c.client && d.taken == c.taken && d.replies == c.replies && d.dropped == c.dropped
    else
      d.server == c.server && d.requests == c.requests && d.returned == c.returned && d.timeouts == c.timeouts
  }

  lemma NextUndisturbed<M>(c: Channel<M>, step: Step<M>)
    requires Next(c, step).Some?
    ensures Undisturbed(c, Next(c, step).value, step.ByServer())
  {
  }

  lemma {:induction false} AttemptsUndisturbed<M>(c: Channel<M>, steps: seq<Step<M>>, byServer: bool)
    ensures Undisturbed(c, Attempts(c, steps, byServer), byServer)
  {
    if steps != [] {
      var before, last := Attempts(c, steps[..|steps| - 1], byServer), steps[|steps| - 1];
      AttemptsUndisturbed(c, steps[..|steps| - 1], byServer);
      if last.ByServer() == byServer && Next(before, last).Some? { NextUndisturbed(before, last); }
    }
  }

  // A run from c to d in which the process `server` names takes the steps `own`.
  ghost predicate Witness<M>(c: Channel<M>, d: Channel<M>, trace: seq<Step<M>>, server: bool, own: seq<Step<M>>) {
    Run(c, trace) == Some(d) && Side(trace, server) == own
  }

  lemma StepWitness<M>(c: Channel<M>, d: Channel<M>, trace: seq<Step<M>>, server: bool, own: seq<Step<M>>, step: Step<M>)
    requires Witness(c, d, trace, server, own) && Next(d, step).Some?
    ensures Witness(c, Next(d, step).value, trace + [step], server,
              own + if step.ByServer() == server then [step] else [])
  {
    Extend(c, trace, step);
    SideSnoc(trace, step, server);
  }

  lemma {:induction false} AttemptsWitness<M>(c: Channel<M>, steps: seq<Step<M>>, server: bool) returns (trace: seq<Step<M>>)
    ensures Witness(c, Attempts(c, steps, !server), trace, server, [])
  {
    trace := [];
    if steps != [] {
      var last := steps[|steps| - 1];
      trace := AttemptsWitness(c, steps[..|steps| - 1], server);
      var before := Attempts(c, steps[..|steps| - 1], !server);
      if last.ByServer() == !server && Next(before, last).Some? {
        StepWitness(c, before, trace, server, [], last);
        trace := trace + [last];
      }
    }
  }

  lemma JoinWitness<M>(c: Channel<M>, d: Channel<M>, e: Channel<M>, a: seq<Step<M>>, b: seq<Step<M>>,
                       server: bool, own1: seq<Step<M>>, own2: seq<Step<M>>)
    requires Witness(c, d, a, server, own1) && Witness(d, e, b, server, own2)
    ensures Witness(c, e, a + b, server, own1 + own2)
  {
    RunConcat(c, a, b);
    SideConcat(a, b, server);
  }

  // One action of a process, after whatever the other attempts.
  function ActAfter<M>(c: Channel<M>, gap: seq<Step<M>>, step: Step<M>): Channel<M> {
    Attempt(Attempts(c, gap, !step.ByServer()), step)
  }

  lemma ActWitness<M>(c: Channel<M>, gap: seq<Step<M>>, step: Step<M>) returns (trace: seq<Step<M>>)
    requires Next(Attempts(c, gap, !step.ByServer()), step).Some?
    ensures Witness(c, ActAfter(c, gap, step), trace, step.ByServer(), [step])
  {
    trace := AttemptsWitness(c, gap, step.ByServer());
    StepWitness(c, Attempts(c, gap, !step.ByServer()), trace, step.ByServer(), [], step);
    trace := trace + [step];
  }

  // ------------------------------------------------------------------------- the wait

  function Wake<M>(server: bool): Step<M> { if server then ServerWakes else ClientWakes }
  function GiveUp<M>(server: bool): Step<M> { if server then ServerTimesOut else ClientTimesOut }
  function Tokens<M>(c: Channel<M>, server: bool): nat { if server then c.signal else c.avail }
  predicate InWait<M>(c: Channel<M>, server: bool) { if server then c.server.Waiting? else c.client.Listening? }

  // signalWait: the semaphore is tried at once and after every gap; timeout 0 waits for ever.
  function Await<M>(c: Channel<M>, server: bool, timeout: nat, gaps: seq<seq<Step<M>>>): Ended<M>
    decreases |gaps|
  {
    match Next(c, Wake(server))
    case Some(d) => Ended(Answered(d.slot), d)
    case None =>
      if gaps != [] then Await(Attempts(c, gaps[0], !server), server, timeout, gaps[1..])
      else if timeout == 0 then Ended(Pending, c)
      else Ended(TimedOut, Attempt(c, GiveUp(server)))
  }

  // The channel after the first k gaps of a wait.
  function AfterGaps<M>(c: Channel<M>, server: bool, gaps: seq<seq<Step<M>>>, k: nat): Channel<M>
    requires k <= |gaps|
    decreases k
  {
    if k == 0 then c else AfterGaps(Attempts(c, gaps[0], !server), server, gaps[1..], k - 1)
  }

  lemma {:induction false} AwaitAt<M>(c: Channel<M>, server: bool, timeout: nat, gaps: seq<seq<Step<M>>>, k: nat)
    requires k <= |gaps| && Tokens(AfterGaps(c, server, gaps, k), server) > 0 && InWait(c, server)
    requires forall i :: 0 <= i < k ==> Tokens(AfterGaps(c, server, gaps, i), server) == 0
    ensures Await(c, server, timeout, gaps).outcome == Answered(AfterGaps(c, server, gaps, k).slot)
    decreases k
  {
    if k > 0 {
      var d := Attempts(c, gaps[0], !server);
      AttemptsUndisturbed(c, gaps[0], !server);
      assert Tokens(AfterGaps(c, server, gaps, 0), server) == 0;
      forall i | 0 <= i < k - 1
        ensures Tokens(AfterGaps(d, server, gaps[1..], i), server) == 0
      {
        assert AfterGaps(c, server, gaps, i + 1) == AfterGaps(d, server, gaps[1..], i);
      }
      AwaitAt(d, server, timeout, gaps[1..], k - 1);
    }
  }

  lemma {:induction false} AwaitInVain<M>(c: Channel<M>, server: bool, timeout: nat, gaps: seq<seq<Step<M>>>)
    requires InWait(c, server)
    requires forall k :: 0 <= k <= |gaps| ==> Tokens(AfterGaps(c, server, gaps, k), server) == 0
    ensures var r := Await(c, server, timeout, gaps); !r.outcome.Answered? && Tokens(r.channel, server) == 0
    decreases |gaps|
  {
    assert Tokens(AfterGaps(c, server, gaps, 0), server) == 0;
    if gaps != [] {
      var d := Attempts(c, gaps[0], !server);
      AttemptsUndisturbed(c, gaps[0], !server);
      forall k | 0 <= k <= |gaps| - 1
        ensures Tokens(AfterGaps(d, server, gaps[1..], k), server) == 0
      {
        assert AfterGaps(c, server, gaps, k + 1) == AfterGaps(d, server, gaps[1..], k);
      }
      AwaitInVain(d, server, timeout, gaps[1..]);
    }
  }

  /** A wait ends with a token if and only if there is one at some moment it looks, and then
      with what the slot holds at the first such moment; if it does not, no token is there
      when it ends. */
  lemma AwaitFindsToken<M>(c: Channel<M>, server: bool, timeout: nat, gaps: seq<seq<Step<M>>>)
    returns (k: nat)
    requires InWait(c, server)
    ensures forall i :: 0 <= i < k <= |gaps| + 1 ==> Tokens(AfterGaps(c, server, gaps, i), server) == 0
    ensures var r := Await(c, server, timeout, gaps);
      if k <= |gaps| then
        Tokens(AfterGaps(c, server, gaps, k), server) > 0 && r.outcome == Answered(AfterGaps(c, server, gaps, k).slot)
      else
        k == |gaps| + 1 && !r.outcome.Answered? && Tokens(r.channel, server) == 0
  {
    k := 0;
    while k <= |gaps| && Tokens(AfterGaps(c, server, gaps, k), server) == 0
      invariant k <= |gaps| + 1
      invariant forall i :: 0 <= i < k ==> Tokens(AfterGaps(c, server, gaps, i), server) == 0
    {
      k := k + 1;
    }
    if k <= |gaps| { AwaitAt(c, server, timeout, gaps, k); } else { AwaitInVain(c, server, timeout, gaps); }
  }

  function Ending<M>(server: bool, outcome: Outcome<M>): seq<Step<M>> {
    match outcome
    case Answered(_) => [Wake(server)]
    case TimedOut => [GiveUp(server)]
    case Pending => []
  }

  lemma {:induction false} AwaitWitness<M>(c: Channel<M>, server: bool, timeout: nat, gaps: seq<seq<Step<M>>>)
    returns (trace: seq<Step<M>>)
    requires InWait(c, server)
    ensures var r := Await(c, server, timeout, gaps); Witness(c, r.channel, trace, server, Ending(server, r.outcome))
    decreases |gaps|
  {
    var r := Await(c, server, timeout, gaps);
    if Tokens(c, server) > 0 {
      trace := [Wake(server)];
      StepWitness(c, c, [], server, [], Wake(server));
      assert [] + [Wake(server)] == trace;
    } else if gaps != [] {
      var d := Attempts(c, gaps[0], !server);
      AttemptsUndisturbed(c, gaps[0], !server);
      var first := AttemptsWitness(c, gaps[0], server);
      var rest := AwaitWitness(d, server, timeout, gaps[1..]);
      JoinWitness(c, d, r.channel, first, rest, server, [], Ending(server, r.outcome));
      assert [] + Ending(server, r.outcome) == Ending(server, r.outcome);
      trace := first + rest;
    } else if timeout == 0 {
      trace := [];
    } else {
      trace := [GiveUp(server)];
      StepWitness(c, c, [], server, [], GiveUp(server));
      assert [] + [GiveUp(server)] == trace;
    }
  }

  // What a wait of the server does to its own side.
  ghost predicate ServerWaited<M>(c: Channel<M>, timeout: nat, r: Ended<M>) {
    var d := r.channel;
    && d.requests == c.requests
    && match r.outcome
       case Answered(m) =>
         d.server.Idle? && d.slot == m && d.returned == c.returned + [m] && d.timeouts == c.timeouts
       case TimedOut =>
         timeout != 0 && d.server.Idle? && d.returned == c.returned && d.timeouts == c.timeouts + 1
       case Pending =>
         timeout == 0 && d.server.Waiting? && d.returned == c.returned && d.timeouts == c.timeouts
  }

  lemma {:induction false} AwaitServer<M>(c: Channel<M>, timeout: nat, gaps: seq<seq<Step<M>>>)
    requires c.server.Waiting?
    ensures ServerWaited(c, timeout, Await(c, true, timeout, gaps))
    decreases |gaps|
  {
    if c.signal == 0 && gaps != [] {
      AttemptsUndisturbed(c, gaps[0], false);
      AwaitServer(Attempts(c, gaps[0], false), timeout, gaps[1..]);
    }
  }

  ghost predicate ClientWaited<M>(c: Channel<M>, timeout: nat, r: Ended<M>) {
    var d := r.channel;
    && d.replies == c.replies && d.dropped == c.dropped
    && match r.outcome
       case Answered(m) => d.client.Holding? && d.slot == m && d.taken == c.taken + [m]
       case TimedOut => timeout != 0 && d.client.Away? && d.taken == c.taken
       case Pending => timeout == 0 && d.client.Listening? && d.taken == c.taken
  }

  lemma {:induction false} AwaitClient<M>(c: Channel<M>, timeout: nat, gaps: seq<seq<Step<M>>>)
    requires c.client.Listening?
    ensures ClientWaited(c, timeout, Await(c, false, timeout, gaps))
    decreases |gaps|
  {
    if c.avail == 0 && gaps != [] {
      AttemptsUndisturbed(c, gaps[0], true);
      AwaitClient(Attempts(c, gaps[0], true), timeout, gaps[1..]);
    }
  }

  // ------------------------------------------------------------------------- send

  // send up to its wait: gaps[0] before the copy, gaps[1] before the post.
  function Posting<M>(c: Channel<M>, m: M, gaps: seq<seq<Step<M>>>): Channel<M>
    requires |gaps| >= 2
  {
    ActAfter(ActAfter(Attempt(c, ServerBegins(m)), gaps[0], ServerCopies), gaps[1], ServerPosts)
  }

  function Sending<M>(c: Channel<M>, m: M, timeout: nat, gaps: seq<seq<Step<M>>>): Ended<M>
    requires |gaps| >= 2
  {
    Await(Posting(c, m, gaps), true, timeout, gaps[2..])
  }

  lemma PostingEffect<M>(c: Channel<M>, m: M, gaps: seq<seq<Step<M>>>) returns (trace: seq<Step<M>>)
    requires c.server.Idle? && |gaps| >= 2
    ensures var d := Posting(c, m, gaps);
      && d.server.Waiting? && d.requests == c.requests + [m] && d.returned == c.returned && d.timeouts == c.timeouts
      && Witness(c, d, trace, true, SendSteps(m))
  {
    var begun := Attempt(c, ServerBegins(m));
    StepWitness(c, c, [], true, [], ServerBegins(m));
    assert [] + [ServerBegins(m)] == [ServerBegins(m)];
    AttemptsUndisturbed(begun, gaps[0], false);
    var t1 := ActWitness(begun, gaps[0], ServerCopies);
    var copied := ActAfter(begun, gaps[0], ServerCopies);
    JoinWitness(c, begun, copied, [ServerBegins(m)], t1, true, [ServerBegins(m)], [ServerCopies]);
    AttemptsUndisturbed(copied, gaps[1], false);
    var t2 := ActWitness(copied, gaps[1], ServerPosts);
    trace := [ServerBegins(m)] + t1 + t2;
    JoinWitness(c, copied, Posting(c, m, gaps), [ServerBegins(m)] + t1, t2, true,
      [ServerBegins(m)] + [ServerCopies], [ServerPosts]);
    assert [ServerBegins(m)] + [ServerCopies] + [ServerPosts] == SendSteps(m);
  }

  /** send is a run of the rendezvous in which the server copies, posts and waits, in this
      order; it adds its message to the requests, and what it returns is what was read. */
  lemma SendingEffect<M>(c: Channel<M>, m: M, timeout: nat, gaps: seq<seq<Step<M>>>) returns (trace: seq<Step<M>>)
    requires c.server.Idle? && |gaps| >= 2
    ensures var r := Sending(c, m, timeout, gaps);
      && Witness(c, r.channel, trace, true, SendSteps(m) + Ending(true, r.outcome))
      && ServerWaited(c.(requests := c.requests + [m]), timeout, r)
      && (!r.outcome.Answered? ==> r.channel.signal == 0)
  {
    var posted := Posting(c, m, gaps);
    var r := Sending(c, m, timeout, gaps);
    var t1 := PostingEffect(c, m, gaps);
    var t2 := AwaitWitness(posted, true, timeout, gaps[2..]);
    JoinWitness(c, posted, r.channel, t1, t2, true, SendSteps(m), Ending(true, r.outcome));
    AwaitServer(posted, timeout, gaps[2..]);
    var _ := AwaitFindsToken(posted, true, timeout, gaps[2..]);
    trace := t1 + t2;
  }

  // ------------------------------------------------------------------- getMessage, sendReply

  function Getting<M>(c: Channel<M>, timeout: nat, gaps: seq<seq<Step<M>>>): Ended<M> {
    Await(Attempt(c, ClientListens), false, timeout, gaps)
  }

  /** getMessage is a run in which the client only waits; it takes what the slot holds. */
  lemma GettingEffect<M>(c: Channel<M>, timeout: nat, gaps: seq<seq<Step<M>>>) returns (trace: seq<Step<M>>)
    requires c.client.Away?
    ensures var r := Getting(c, timeout, gaps);
      && Witness(c, r.channel, trace, false, [ClientListens] + Ending(false, r.outcome))
      && ClientWaited(c, timeout, r)
      && (!r.outcome.Answered? ==> r.channel.avail == 0)
  {
    var listening := Attempt(c, ClientListens);
    var r := Getting(c, timeout, gaps);
    StepWitness(c, c, [], false, [], ClientListens);
    assert [] + [Step<M>.ClientListens] == [ClientListens];
    var rest := AwaitWitness(listening, false, timeout, gaps);
    JoinWitness(c, listening, r.channel, [ClientListens], rest, false, [ClientListens], Ending(false, r.outcome));
    AwaitClient(listening, timeout, gaps);
    var _ := AwaitFindsToken(listening, false, timeout, gaps);
    trace := [ClientListens] + rest;
  }

  function Responding<M>(c: Channel<M>, r: M, gaps: seq<seq<Step<M>>>): Channel<M>
    requires |gaps| >= 2
  {
    ActAfter(ActAfter(Attempt(c, ClientBegins(r)), gaps[0], ClientCopies), gaps[1], ClientPosts)
  }

  /** sendReply is a run in which the client copies, then posts. */
  lemma ReplyingEffect<M>(c: Channel<M>, r: M, gaps: seq<seq<Step<M>>>) returns (trace: seq<Step<M>>)
    requires c.client.Holding? && |gaps| >= 2
    ensures var d := Responding(c, r, gaps);
      && d.client.Away? && d.replies == c.replies + [r] && d.taken == c.taken && d.dropped == c.dropped
      && Witness(c, d, trace, false, ReplySteps(r))
  {
    var begun := Attempt(c, ClientBegins(r));
    StepWitness(c, c, [], false, [], ClientBegins(r));
    assert [] + [ClientBegins(r)] == [ClientBegins(r)];
    AttemptsUndisturbed(begun, gaps[0], true);
    var t1 := ActWitness(begun, gaps[0], ClientCopies);
    var copied := ActAfter(begun, gaps[0], ClientCopies);
    JoinWitness(c, begun, copied, [ClientBegins(r)], t1, false, [ClientBegins(r)], [ClientCopies]);
    AttemptsUndisturbed(copied, gaps[1], true);
    var t2 := ActWitness(copied, gaps[1], ClientPosts);
    trace := [ClientBegins(r)] + t1 + t2;
    JoinWitness(c, copied, Responding(c, r, gaps), [ClientBegins(r)] + t1, t2, false,
      [ClientBegins(r)] + [ClientCopies], [ClientPosts]);
    assert [ClientBegins(r)] + [ClientCopies] + [ClientPosts] == ReplySteps(r);
  }

  // ---------------------------------------------------- two processes that do their part

  // The whole service of one message by a client.
  function Serves<M>(r: M): seq<Step<M>> { [ClientListens, ClientWakes] + ReplySteps(r) }

  lemma AttemptsSnoc<M>(c: Channel<M>, steps: seq<Step<M>>, step: Step<M>, byServer: bool)
    ensures Attempts(c, steps + [step], byServer) ==
      var before := Attempts(c, steps, byServer);
      if step.ByServer() == byServer then Attempt(before, step) else before
  {
    assert (steps + [step])[..|steps|] == steps;
  }

  function Served<M>(c: Channel<M>, r: M): Channel<M>
    requires c.avail > 0
  {
    c.(slot := r, avail := c.avail - 1, signal := c.signal + 1, taken := c.taken + [c.slot],
       origins := c.origins + [c.origin], replies := c.replies + [r], origin := -1)
  }

  lemma AttemptsTwo<M>(c: Channel<M>, s1: Step<M>, s2: Step<M>, byServer: bool)
    requires s1.ByServer() == s2.ByServer() == byServer
    ensures Attempts(c, [s1, s2], byServer) == Attempt(Attempt(c, s1), s2)
  {
    AttemptsSnoc(c, [], s1, byServer);
    AttemptsSnoc(c, [s1], s2, byServer);
    assert [] + [s1] == [s1] && [s1] + [s2] == [s1, s2];
  }

  lemma AttemptsThree<M>(c: Channel<M>, s1: Step<M>, s2: Step<M>, s3: Step<M>, byServer: bool)
    requires s1.ByServer() == s2.ByServer() == s3.ByServer() == byServer
    ensures Attempts(c, [s1, s2, s3], byServer) == Attempt(Attempt(Attempt(c, s1), s2), s3)
  {
    AttemptsTwo(c, s1, s2, byServer);
    AttemptsSnoc(c, [s1, s2], s3, byServer);
    assert [s1, s2] + [s3] == [s1, s2, s3];
  }

  lemma {:induction false} AttemptsConcat<M>(c: Channel<M>, a: seq<Step<M>>, b: seq<Step<M>>, byServer: bool)
    ensures Attempts(c, a + b, byServer) == Attempts(Attempts(c, a, byServer), b, byServer)
  {
    if b == [] {
      assert a + b == a;
    } else {
      var front, last := b[..|b| - 1], b[|b| - 1];
      AttemptsConcat(c, a, front, byServer);
      AttemptsSnoc(c, a + front, last, byServer);
      assert a + b == a + front + [last];
    }
  }

  lemma ReplyRun<M>(c: Channel<M>, r: M)
    requires c.client.Holding?
    ensures Attempts(c, ReplySteps(r), false)
         == c.(slot := r, signal := c.signal + 1, client := Away, replies := c.replies + [r], origin := -1)
  {
    AttemptsThree(c, ClientBegins(r), ClientCopies, ClientPosts, false);
    var begun := c.(client := Replying(r));
    var copied := c.(slot := r, client := Replied, replies := c.replies + [r], origin := -1);
    assert Attempt(c, ClientBegins(r)) == begun && Attempt(begun, ClientCopies) == copied;
  }

  lemma ServesRun<M>(c: Channel<M>, r: M)
    requires c.client.Away? && c.avail > 0
    ensures Attempts(c, Serves(r), false) == Served(c, r)
  {
    var held := c.(avail := c.avail - 1, client := Holding, taken := c.taken + [c.slot], origins := c.origins + [c.origin]);
    var listening := c.(client := Listening);
    AttemptsTwo(c, ClientListens, ClientWakes, false);
    assert Attempt(c, ClientListens) == listening && Attempt(listening, ClientWakes) == held;
    ReplyRun(held, r);
    AttemptsConcat(c, [ClientListens, ClientWakes], ReplySteps(r), false);
  }

  predicate IdleUntil<M>(gaps: seq<seq<Step<M>>>, k: nat) { k < |gaps| && forall i :: 0 <= i < k ==> gaps[i] == [] }

  lemma {:induction false} WaitIsServed<M>(c: Channel<M>, timeout: nat, gaps: seq<seq<Step<M>>>, k: nat, r: M)
    requires c.server.Waiting? && c.signal == 0 && c.client.Away? && c.avail > 0
    requires IdleUntil(gaps, k) && gaps[k] == Serves(r)
    ensures Await(c, true, timeout, gaps).outcome == Answered(r)
    decreases |gaps|
  {
    if k == 0 {
      ServesRun(c, r);
      var d := Served(c, r);
      assert Await(d, true, timeout, gaps[1..]).outcome == Answered(r);
    } else {
      assert Attempts(c, gaps[0], false) == c;
      WaitIsServed(c, timeout, gaps[1..], k - 1, r);
    }
  }

  /** Liveness of send: if the channel is quiet and, after any number of idle gaps, the client
      serves the message in one, send returns the reply, whatever the timeout and whatever
      is attempted later. */
  lemma SendIsServed<M>(c: Channel<M>, m: M, timeout: nat, gaps: seq<seq<Step<M>>>, k: nat, r: M)
    requires c.server.Idle? && c.client.Away? && c.avail == 0 && c.signal == 0
    requires k >= 2 && IdleUntil(gaps, k) && gaps[k] == Serves(r)
    ensures Sending(c, m, timeout, gaps).outcome == Answered(r)
    ensures Sending(c, m, timeout, gaps).channel.taken == c.taken + [m]
  {
    var begun := c.(server := Copying(m));
    assert Attempt(c, ServerBegins(m)) == begun && Attempts(begun, gaps[0], false) == begun;
    var copied := ActAfter(begun, gaps[0], ServerCopies);
    assert Attempts(copied, gaps[1], false) == copied;
    var posted := Posting(c, m, gaps);
    assert posted.slot == m && posted.avail == 1;
    WaitIsServed(posted, timeout, gaps[2..], k - 2, r);
    WaitTakes(posted, timeout, gaps[2..], k - 2, r);
  }

  lemma {:induction false} WaitTakes<M>(c: Channel<M>, timeout: nat, gaps: seq<seq<Step<M>>>, k: nat, r: M)
    requires c.server.Waiting? && c.signal == 0 && c.client.Away? && c.avail > 0
    requires IdleUntil(gaps, k) && gaps[k] == Serves(r)
    ensures Await(c, true, timeout, gaps).channel.taken == c.taken + [c.slot]
    decreases |gaps|
  {
    if k == 0 {
      ServesRun(c, r);
    } else {
      assert Attempts(c, gaps[0], false) == c;
      WaitTakes(c, timeout, gaps[1..], k - 1, r);
    }
  }

  lemma SendsRun<M>(c: Channel<M>, m: M)
    requires c.server.Idle?
    ensures var d := Attempts(c, SendSteps(m), true);
      d.slot == m && d.avail == c.avail + 1 && d.client == c.client && d.taken == c.taken
  {
    AttemptsThree(c, ServerBegins(m), ServerCopies, ServerPosts, true);
  }

  lemma {:induction false} WaitIsGiven<M>(c: Channel<M>, timeout: nat, gaps: seq<seq<Step<M>>>, k: nat, m: M)
    requires c.client.Listening? && c.avail == 0 && c.server.Idle?
    requires IdleUntil(gaps, k) && gaps[k] == SendSteps(m)
    ensures Await(c, false, timeout, gaps).outcome == Answered(m)
    decreases |gaps|
  {
    if k == 0 {
      SendsRun(c, m);
      var d := Attempts(c, gaps[0], true);
      assert Await(d, false, timeout, gaps[1..]).outcome == Answered(m);
    } else {
      assert Attempts(c, gaps[0], true) == c;
      WaitIsGiven(c, timeout, gaps[1..], k - 1, m);
    }
  }

  /** Liveness of getMessage: a message posted after any number of idle gaps is returned, and so
      is one that was posted before. */
  lemma GetIsGiven<M>(c: Channel<M>, timeout: nat, gaps: seq<seq<Step<M>>>, k: nat, m: M)
    requires c.client.Away?
    ensures c.avail > 0 ==> Getting(c, timeout, gaps).outcome == Answered(c.slot)
    ensures c.avail == 0 && c.server.Idle? && IdleUntil(gaps, k) && gaps[k] == SendSteps(m) ==>
      Getting(c, timeout, gaps).outcome == Answered(m)
  {
    if c.avail == 0 && c.server.Idle? && IdleUntil(gaps, k) && gaps[k] == SendSteps(m) {
      WaitIsGiven(Attempt(c, ClientListens), timeout, gaps, k, m);
    }
  }

  class Segment<M> {
    var slot: M
    var avail: nat
    var signal: nat
    var server: ServerPc<M>
    var client: ClientPc<M>
    ghost var model: Channel<M>

    ghost predicate Valid()
      reads this
    {
      && model.slot == slot && model.avail == avail && model.signal == signal
      && model.server == server && model.client == client
    }

    constructor (initial: M)
      ensures Valid() && model == Fresh(initial)
    {
      slot, avail, signal, server, client := initial, 0, 0, Idle, Away;
      model := Fresh(initial);
    }

    /** One atomic action of either process, if that process is at that point. */
    method Execute(step: Step<M>) returns (done: bool)
      requires Valid()
      modifies this
      ensures Valid()
      ensures done == Next(old(model), step).Some?
      ensures model == if done then Next(old(model), step).value else old(model)
    {
      done := true;
      match step {
        case ServerBegins(m) =>
          if server.Idle? { server := Copying(m); } else { done := false; }
        case ServerCopies =>
          if server.Copying? { slot, server := server.message, Copied; } else { done := false; }
        case ServerPosts =>
          if server.Copied? { avail, server := avail + 1, Waiting; } else { done := false; }
        case ServerWakes =>
          if server.Waiting? && signal > 0 { signal, server := signal - 1, Idle; } else { done := false; }
        case ServerTimesOut =>
          if server.Waiting? { server := Idle; } else { done := false; }
        case ClientListens =>
          if client.Away? { client := Listening; } else { done := false; }
        case ClientWakes =>
          if client.Listening? && avail > 0 { avail, client := avail - 1, Holding; } else { done := false; }
        case ClientTimesOut =>
          if client.Listening? { client := Away; } else { done := false; }
        case ClientEdits(m) =>
          if client.Holding? { slot := m; } else { done := false; }
        case ClientDrops =>
          if client.Holding? { client := Away; } else { done := false; }
        case ClientBegins(m) =>
          if client.Holding? { client := Replying(m); } else { done := false; }
        case ClientCopies =>
          if client.Replying? { slot, client := client.reply, Replied; } else { done := false; }
        case ClientPosts =>
          if client.Replied? { signal, client := signal + 1, Away; } else { done := false; }
      }
      if done {
        model := Next(model, step).value;
      }
    }

    /** The process `byServer` names runs; attempts that are not possible are skipped. */
    method Interfere(attempts: seq<Step<M>>, byServer: bool)
      requires Valid()
      modifies this
      ensures Valid() && model == Attempts(old(model), attempts, byServer)
    {
      for i := 0 to |attempts|
        invariant Valid() && model == Attempts(old(model), attempts[..i], byServer)
      {
        AttemptsSnoc(old(model), attempts[..i], attempts[i], byServer);
        assert attempts[..i + 1] == attempts[..i] + [attempts[i]];
        if attempts[i].ByServer() == byServer {
          var done := Execute(attempts[i]);
        }
      }
      assert attempts[..|attempts|] == attempts;
    }

    /** `IpcBase::signalWait` on the semaphore of the server or of the client, the other process
        running in every gap; timeout 0 waits for ever. */
    method Wait(byServer: bool, timeout: nat, gaps: seq<seq<Step<M>>>) returns (outcome: Outcome<M>)
      requires Valid() && InWait(model, byServer)
      modifies this
      ensures Valid() && Ended(outcome, model) == Await(old(model), byServer, timeout, gaps)
    {
      ghost var whole := Await(model, byServer, timeout, gaps);
      var i := 0;
      assert gaps[0..] == gaps;
      var woken := Execute(Wake(byServer));
      while !woken && i < |gaps|
        invariant i <= |gaps| && Valid()
        invariant woken ==> whole == Ended(Answered(slot), model)
        invariant !woken ==> InWait(model, byServer) && Tokens(model, byServer) == 0
        invariant !woken ==> whole == Await(model, byServer, timeout, gaps[i..])
      {
        AttemptsUndisturbed(model, gaps[i], !byServer);
        assert gaps[i..][1..] == gaps[i + 1..];
        Interfere(gaps[i], !byServer);
        woken := Execute(Wake(byServer));
        i := i + 1;
      }
      if woken {
        return Answered(slot);
      }
      if timeout == 0 {
        return Pending;
      }
      var done := Execute(GiveUp(byServer));
      outcome := TimedOut;
    }

    /** `IpcServer::send`: copy, post, wait, in this order, whatever the client does in
        between.  `gaps[k]` is what the client attempts in the k-th gap. */
    method Send(message: M, timeout: nat, gaps: seq<seq<Step<M>>>)
      returns (outcome: Outcome<M>, ghost trace: seq<Step<M>>)
      requires Valid() && server.Idle? && |gaps| >= 2
      modifies this
      ensures Valid() && Ended(outcome, model) == Sending(old(model), message, timeout, gaps)
      ensures Run(old(model), trace) == Some(model)
      ensures Side(trace, true) == SendSteps(message) + Ending(true, outcome)
      ensures ServerWaited(old(model).(requests := old(model).requests + [message]), timeout, Ended(outcome, model))
      ensures !outcome.Answered? ==> signal == 0
    {
      trace := SendingEffect(model, message, timeout, gaps);
      ghost var posting := PostingEffect(model, message, gaps);
      var done := Execute(ServerBegins(message));
      AttemptsUndisturbed(model, gaps[0], false);
      Interfere(gaps[0], false);
      done := Execute(ServerCopies);
      AttemptsUndisturbed(model, gaps[1], false);
      Interfere(gaps[1], false);
      done := Execute(ServerPosts);
      outcome := Wait(true, timeout, gaps[2..]);
    }

    /** `IpcClient::getMessage`: wait for `avail`, hand out the slot. */
    method GetMessage(timeout: nat, gaps: seq<seq<Step<M>>>)
      returns (outcome: Outcome<M>, ghost trace: seq<Step<M>>)
      requires Valid() && client.Away?
      modifies this
      ensures Valid() && Ended(outcome, model) == Getting(old(model), timeout, gaps)
      ensures Run(old(model), trace) == Some(model)
      ensures Side(trace, false) == [ClientListens] + Ending(false, outcome)
      ensures ClientWaited(old(model), timeout, Ended(outcome, model))
      ensures !outcome.Answered? ==> avail == 0
    {
      trace := GettingEffect(model, timeout, gaps);
      var done := Execute(ClientListens);
      outcome := Wait(false, timeout, gaps);
    }

    /** `IpcClient::sendReply`: copy, then post. */
    method SendReply(reply: M, gaps: seq<seq<Step<M>>>) returns (ghost trace: seq<Step<M>>)
      requires Valid() && client.Holding? && |gaps| >= 2
      modifies this
      ensures Valid() && model == Responding(old(model), reply, gaps)
      ensures Run(old(model), trace) == Some(model)
      ensures Side(trace, false) == ReplySteps(reply)
      ensures client.Away? && model.replies == old(model.replies) + [reply]
      ensures model.taken == old(model.taken) && model.dropped == old(model.dropped)
    {
      trace := ReplyingEffect(model, reply, gaps);
      var done := Execute(ClientBegins(reply));
      AttemptsUndisturbed(model, gaps[0], true);
      Interfere(gaps[0], true);
      done := Execute(ClientCopies);
      AttemptsUndisturbed(model, gaps[1], true);
      Interfere(gaps[1], true);
      done := Execute(ClientPosts);
    }
  }
}
