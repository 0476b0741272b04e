/** `IpcServer::create` and `IpcClient::connect` as code over the shared name space: each
    runs its actions in the order of the original while everybody else acts in the gaps. */
module Startup {
  import opened Wrappers
  import opened Handshake

  // Whose action a step is: the server's (None) or that of one client object.
  function Actor(step: Step): Option<nat> {
    match step
    case ServerOpens => None
    case ServerSizes => None
    case ServerCreates(_) => None
    case _ => Some(step.id)
  }

  function PartOf(steps: seq<Step>, who: Option<nat>): seq<Step> {
    if steps == [] then []
    else
      var last := steps[|steps| - 1];
      PartOf(steps[..|steps| - 1], who) + if Actor(last) == who then [last] else []
  }

  lemma PartSnoc(steps: seq<Step>, step: Step, who: Option<nat>)
    ensures PartOf(steps + [step], who) == PartOf(steps, who) + if Actor(step) == who then [step] else []
  {
    assert (steps + [step])[..|steps|] == steps;
  }

  // The server's stage and handles, or one client object.
  datatype Share = ServerShare(stage: nat, handles: map<Name, nat>) | ClientShare(client: Option<Client>)

  // What everybody else leaves alone.
  function ShareOf(h: Host, who: Option<nat>): Share {
    match who
    case None => ServerShare(h.stage, h.handles)
    case Some(id) => ClientShare(if id in h.clients then Some(h.clients[id]) else None)
  }

  lemma OthersKeepShare(h: Host, step: Step, who: Option<nat>)
    requires Actor(step) != who && Next(h, step).Some?
    ensures ShareOf(Next(h, step).value, who) == ShareOf(h, who)
  {
  }

  // --------------------------------------------------------------- a whole attempt

  function Attempt(id: nat): seq<Step> { [ClientStarts(id)] + ConnectSteps(id) }

  predicate HasDeath(steps: seq<Step>) { exists i :: 0 <= i < |steps| && steps[i].ClientDies? }

  // Client `id` tried to open the segment after some client object was destroyed, `dead` being
  // whether one was before these steps.
  predicate OpenedAfterDeath(dead: bool, steps: seq<Step>, id: nat) {
    steps != [] &&
    (OpenedAfterDeath(dead, steps[..|steps| - 1], id)
     || (steps[|steps| - 1] == ClientOpens(id) && (dead || HasDeath(steps[..|steps| - 1]))))
  }

  // How far the attempt of client `id` has come: what it has taken of its six actions.
  function Progress(h: Host, id: nat): nat { if id in h.clients then h.clients[id].stage + 1 else 0 }

  // The attempt has taken the actions `part`, from the one numbered `from`.
  ghost predicate Underway(h: Host, id: nat, part: seq<Step>, from: nat, late: bool) {
    var k := Progress(h, id);
    && from <= k <= 6 && (late ==> k == 1 && from <= 1)
    && (id in h.clients ==>
          && (h.clients[id].status.Failed? <==> late)
          && (h.clients[id].status.Connected? <==> k == 6))
    && (id !in h.clients ==> !late)
    && part == Attempt(id)[from..if late then 2 else k]
  }

  lemma OwnStep(h: Host, step: Step, id: nat, from: nat, part: seq<Step>, late: bool)
    requires NamesOk(h) && h.stage == 5 && Underway(h, id, part, from, late)
    requires Actor(step) == Some(id) && step != ClientDies(id) && Next(h, step).Some?
    ensures Underway(Next(h, step).value, id, part + [step], from, late || (step == ClientOpens(id) && h.unlinked))
  {
    var k := Progress(h, id);
    assert step == Attempt(id)[k];
    assert Attempt(id)[from..k + 1] == Attempt(id)[from..k] + [step];
    if k > 0 {
      var c := Next(h, step).value.clients[id];
      assert step == ClientOpens(id) && h.unlinked <==> c.status.Failed?;
    }
  }

  lemma OthersKeepUnderway(h: Host, step: Step, id: nat, from: nat, part: seq<Step>, late: bool)
    requires Underway(h, id, part, from, late)
    requires Actor(step) != Some(id) && Next(h, step).Some?
    ensures Underway(Next(h, step).value, id, part, from, late)
  {
    OthersKeepShare(h, step, Some(id));
    assert ShareOf(h, Some(id)).client == ShareOf(Next(h, step).value, Some(id)).client;
  }

  lemma DeathSnoc(steps: seq<Step>)
    requires steps != []
    ensures HasDeath(steps) <==> HasDeath(steps[..|steps| - 1]) || steps[|steps| - 1].ClientDies?
  {
    var front := steps[..|steps| - 1];
    if HasDeath(front) {
      var i :| 0 <= i < |front| && front[i].ClientDies?;
      assert steps[i].ClientDies?;
    }
  }

  // After create, the server stands still, and only a destroyed client unlinks the segment.
  lemma UnlinkedByDeath(h: Host, step: Step)
    requires h.stage == 5 && Next(h, step).Some?
    ensures Next(h, step).value.stage == 5 && Next(h, step).value.handles == h.handles
    ensures Next(h, step).value.unlinked <==> h.unlinked || step.ClientDies?
  {
  }

  // g is reached from h, with the attempt of client `id` where its actions have brought it.
  ghost predicate Attempting(h: Host, g: Host, id: nat, steps: seq<Step>) {
    && g.stage == 5 && g.handles == h.handles
    && (g.unlinked <==> h.unlinked || HasDeath(steps))
    && Underway(g, id, PartOf(steps, Some(id)), Progress(h, id), OpenedAfterDeath(h.unlinked, steps, id))
  }

  lemma AttemptStep(h: Host, g: Host, id: nat, before: seq<Step>, step: Step)
    requires Attempting(h, g, id, before) && Sound(g) && Next(g, step).Some? && step != ClientDies(id)
    ensures Attempting(h, Next(g, step).value, id, before + [step])
  {
    var steps := before + [step];
    assert steps[..|steps| - 1] == before;
    DeathSnoc(steps);
    UnlinkedByDeath(g, step);
    PartSnoc(before, step, Some(id));
    var part, late := PartOf(before, Some(id)), OpenedAfterDeath(h.unlinked, before, id);
    if Actor(step) == Some(id) {
      OwnStep(g, step, id, Progress(h, id), part, late);
    } else {
      OthersKeepUnderway(g, step, id, Progress(h, id), part, late);
      assert step != ClientOpens(id) && part + [] == part;
    }
  }

  lemma {:induction false} SoundFrom(h: Host, steps: seq<Step>)
    requires Sound(h) && Run(h, steps).Some?
    ensures Sound(Run(h, steps).value)
  {
    if steps != [] {
      SoundFrom(h, steps[..|steps| - 1]);
      SoundNext(Run(h, steps[..|steps| - 1]).value, steps[|steps| - 1]);
    }
  }

  lemma AttemptBegins(h: Host, id: nat)
    requires h.stage == 5
    requires id in h.clients ==> h.clients[id].status.Connecting? && ClientOk(h, h.clients[id])
    ensures Attempting(h, h, id, [])
  {
    var k := Progress(h, id);
    assert Attempt(id)[k..k] == [];
  }

  predicate Spares(steps: seq<Step>, id: nat) { forall i :: 0 <= i < |steps| ==> steps[i] != ClientDies(id) }

  lemma {:induction false} AttemptRun(h: Host, id: nat, steps: seq<Step>)
    requires Sound(h) && Run(h, steps).Some? && Attempting(h, h, id, []) && Spares(steps, id)
    ensures Attempting(h, Run(h, steps).value, id, steps)
  {
    if steps != [] {
      var before, step := steps[..|steps| - 1], steps[|steps| - 1];
      AttemptRun(h, id, before);
      SoundFrom(h, before);
      AttemptStep(h, Run(h, before).value, id, before, step);
      assert steps == before + [step];
    }
  }

  // What became of the attempt of client `id`.
  ghost predicate Outcome(h: Host, g: Host, id: nat, steps: seq<Step>)
    requires id in g.clients
  {
    var c := g.clients[id];
    && (c.status.Failed? <==> OpenedAfterDeath(h.unlinked, steps, id))
    && (c.status.Failed? ==> h.unlinked || HasDeath(steps))
    && (c.status.Connected? <==> Progress(h, id) + |PartOf(steps, Some(id))| == 6)
    && (c.status.Connected? ==> c.handles == h.handles)
  }

  lemma AttemptOutcome(h: Host, id: nat, steps: seq<Step>)
    requires Sound(h) && h.stage == 5 && Run(h, steps).Some?
    requires id in h.clients ==> h.clients[id].status.Connecting?
    requires Spares(steps, id)
    ensures var g := Run(h, steps).value; id in g.clients ==> Outcome(h, g, id, steps)
  {
    if id in h.clients { assert ClientOk(h, h.clients[id]); }
    AttemptBegins(h, id);
    AttemptRun(h, id, steps);
    SoundFrom(h, steps);
    if OpenedAfterDeath(h.unlinked, steps, id) { DeathFirst(h.unlinked, steps, id); }
    var g := Run(h, steps).value;
    if id in g.clients && g.clients[id].status.Connected? {
      assert ClientOk(g, g.clients[id]);
      SameHandles(g, g.clients[id]);
    }
  }

  /** An attempt to connect, begun or not when create finishes, under any interleaving with
      other clients: it fails if and only if it opens the segment after some client object was
      destroyed since the server opened it; it has succeeded once all six actions are taken,
      and only then; and its handles are then the server's own.  So the first attempt after
      create succeeds as long as no client object is destroyed. */
  lemma AttemptFailsIffAfterDeath(nextObject: nat, past: seq<Step>, id: nat, steps: seq<Step>)
    requires Run(Start(map[], nextObject), past).Some?
    requires var h := Run(Start(map[], nextObject), past).value;
      h.stage == 5 && (id in h.clients ==> h.clients[id].status.Connecting?) && Run(h, steps).Some?
    requires Spares(steps, id)
    ensures var h := Run(Start(map[], nextObject), past).value;
      var g := Run(h, steps).value;
      id in g.clients ==> Outcome(h, g, id, steps)
  {
    SoundRun(nextObject, past);
    AttemptOutcome(Run(Start(map[], nextObject), past).value, id, steps);
  }

  // A client in the middle of connect is not destroyed.
  lemma ConnectOutcome(h: Host, g: Host, id: nat, steps: seq<Step>)
    requires id in h.clients && h.clients[id] == Client(0, Connecting, map[]) && id in g.clients
    requires Sound(h) && h.stage == 5
    requires Run(h, steps) == Some(g) && PartOf(steps, Some(id)) <= ConnectSteps(id)
    ensures Outcome(h, g, id, steps)
  {
    PartHolds(steps, ClientDies(id));
    assert ClientDies(id) !in ConnectSteps(id);
    AttemptOutcome(h, id, steps);
  }

  lemma {:induction false} PartHolds(steps: seq<Step>, step: Step)
    ensures step in PartOf(steps, Actor(step)) <==> step in steps
  {
    if steps != [] {
      PartHolds(steps[..|steps| - 1], step);
      assert steps == steps[..|steps| - 1] + [steps[|steps| - 1]];
    }
  }

  lemma {:induction false} DeathFirst(dead: bool, steps: seq<Step>, id: nat)
    requires OpenedAfterDeath(dead, steps, id)
    ensures dead || HasDeath(steps)
  {
    DeathSnoc(steps);
    if OpenedAfterDeath(dead, steps[..|steps| - 1], id) { DeathFirst(dead, steps[..|steps| - 1], id); }
  }

  class NameSpace {
    var host: Host
    ghost var origin: Host      // where the recorded run began
    ghost var trace: seq<Step>  // the run so far

    ghost predicate Valid()
      reads this
    {
      Run(origin, trace) == Some(host)
    }

    constructor (host: Host)
      ensures Valid() && this.host == host && origin == host && trace == []
    {
      this.host, origin, trace := host, host, [];
    }

    method Execute(step: Step) returns (done: bool)
      requires Valid()
      modifies this
      ensures Valid() && origin == old(origin)
      ensures done == Next(old(host), step).Some?
      ensures host == if done then Next(old(host), step).value else old(host)
      ensures trace == if done then old(trace) + [step] else old(trace)
    {
      match Next(host, step) {
        case None => done := false;
        case Some(g) =>
          Extend(origin, trace, step);
          host, trace, done := g, trace + [step], true;
      }
    }

    /** Everybody but `who` acts; attempts that are not possible are skipped. */
    method Interfere(attempts: seq<Step>, who: Option<nat>)
      requires Valid()
      modifies this
      ensures Valid() && origin == old(origin)
      ensures ShareOf(host, who) == ShareOf(old(host), who)
      ensures PartOf(trace, who) == old(PartOf(trace, who))
    {
      for i := 0 to |attempts|
        invariant Valid() && origin == old(origin)
        invariant ShareOf(host, who) == ShareOf(old(host), who)
        invariant PartOf(trace, who) == old(PartOf(trace, who))
      {
        if Actor(attempts[i]) != who {
          PartSnoc(trace, attempts[i], who);
          ghost var before := host;
          var done := Execute(attempts[i]);
          if done { OthersKeepShare(before, attempts[i], who); }
        }
      }
    }

    // One action of the server, preceded by whatever the others do.
    method ActServer(others: seq<Step>, step: Step)
      requires Valid()
      requires match step
        case ServerOpens => host.stage == 0
        case ServerSizes => host.stage == 1 && Shm in host.handles
        case ServerCreates(n) => n != Shm && host.stage == Stage(n)
        case _ => false
      modifies this
      ensures Valid() && origin == old(origin)
      ensures PartOf(trace, None) == old(PartOf(trace, None)) + [step]
      ensures host.stage == old(host.stage) + 1
      ensures step.ServerOpens? || Shm in old(host.handles) ==> Shm in host.handles
    {
      Interfere(others, None);
      PartSnoc(trace, step, None);
      var done := Execute(step);
    }

    static lemma ConnectStep(h: Host, id: nat, stage: nat)
      requires id in h.clients && h.clients[id].status.Connecting? && h.clients[id].stage == stage < 5
      ensures Next(h, ConnectSteps(id)[stage]).Some? && id in Next(h, ConnectSteps(id)[stage]).value.clients
      ensures var d := Next(h, ConnectSteps(id)[stage]).value.clients[id];
        d.status.Failed? || (d.stage == stage + 1 && d.status == if stage == 4 then Connected else Connecting)
    {
    }

    // The action of a connecting client that is due at its stage, preceded by the others'.
    method ActClient(others: seq<Step>, id: nat, stage: nat, step: Step)
      requires Valid() && id in host.clients && stage < 5 && step == ConnectSteps(id)[stage]
      requires host.clients[id].status.Connecting? && host.clients[id].stage == stage
      requires PartOf(trace, Some(id)) == ConnectSteps(id)[..stage]
      modifies this
      ensures Valid() && origin == old(origin) && id in host.clients
      ensures PartOf(trace, Some(id)) == ConnectSteps(id)[..stage + 1]
      ensures var d := host.clients[id];
        d.status.Failed? || (d.stage == stage + 1 && d.status == if stage == 4 then Connected else Connecting)
    {
      Interfere(others, Some(id));
      PartSnoc(trace, step, Some(id));
      ConnectStep(host, id, stage);
      var done := Execute(step);
      assert ConnectSteps(id)[..stage + 1] == ConnectSteps(id)[..stage] + [step];
    }

    /** IpcServer::create: the segment, its size, then the three semaphores. */
    method Create(gaps: seq<seq<Step>>) returns (success: bool)
      requires Valid() && trace == [] && |gaps| == 5 && host.stage == 0
      modifies this
      ensures Valid() && origin == old(origin)
      ensures success && host.stage == 5
      ensures PartOf(trace, None) == CreateSteps()
    {
      ActServer(gaps[0], ServerOpens);
      ActServer(gaps[1], ServerSizes);
      ActServer(gaps[2], ServerCreates(Signal));
      ActServer(gaps[3], ServerCreates(Avail));
      ActServer(gaps[4], ServerCreates(WatchDog));
      success := true;
    }

    // The actions of connect, giving up at the first failure.
    method ConnectActions(id: nat, gaps: seq<seq<Step>>) returns (success: bool)
      requires Valid() && trace == [] && |gaps| == 5
      requires id in host.clients && host.clients[id] == Client(0, Connecting, map[])
      modifies this
      ensures Valid() && origin == old(origin) && id in host.clients
      ensures success <==> host.clients[id].status.Connected?
      ensures !success ==> host.clients[id].status.Failed?
      ensures PartOf(trace, Some(id)) <= ConnectSteps(id)
      ensures success ==> |PartOf(trace, Some(id))| == 5
    {
      ActClient(gaps[0], id, 0, ClientOpens(id));
      if host.clients[id].status.Failed? { return false; }
      ActClient(gaps[1], id, 1, ClientMaps(id));
      if host.clients[id].status.Failed? { return false; }
      ActClient(gaps[2], id, 2, ClientTakes(id, Signal));
      if host.clients[id].status.Failed? { return false; }
      ActClient(gaps[3], id, 3, ClientTakes(id, Avail));
      if host.clients[id].status.Failed? { return false; }
      ActClient(gaps[4], id, 4, ClientTakes(id, WatchDog));
      success := !host.clients[id].status.Failed?;
    }

    /** IpcClient::connect: open, map, then the three semaphores.  Called after create has
        finished on a fresh key (`SoundRun`), it succeeds if and only if no client object was
        destroyed before it opened the segment. */
    method Connect(id: nat, gaps: seq<seq<Step>>) returns (success: bool)
      requires Valid() && trace == [] && |gaps| == 5
      requires id in host.clients && host.clients[id] == Client(0, Connecting, map[])
      modifies this
      ensures Valid() && origin == old(origin) && id in host.clients
      ensures success <==> host.clients[id].status.Connected?
      ensures !success ==> host.clients[id].status.Failed?
      ensures PartOf(trace, Some(id)) <= ConnectSteps(id)
      ensures success ==> |PartOf(trace, Some(id))| == 5
      ensures Sound(old(host)) && old(host).stage == 5 ==>
        && (success <==> !OpenedAfterDeath(old(host).unlinked, trace, id))
        && (success ==> host.clients[id].handles == old(host).handles)
    {
      success := ConnectActions(id, gaps);
      if Sound(old(host)) && old(host).stage == 5 {
        ConnectOutcome(old(host), host, id, trace);
      }
    }
  }
}
