/** Start-up: `IpcServer::create` makes four named objects while any number of client objects
    run `IpcClient::connect`, fail, and are destroyed.  Only names, object identities and
    the size of the segment are modelled; the names outlive the processes. */
module Handshake {
  import opened Wrappers

  datatype Name = Shm | Signal | Avail | WatchDog

  // Connect succeeded, failed, or is still under way; `stage` counts completed actions.
  datatype Status = Connecting | Connected | Failed
  datatype Client = Client(stage: nat, status: Status, handles: map<Name, nat>)

  datatype Host = Host(
    names: map<Name, nat>,   // named objects
    nextObject: nat,
    sized: set<nat>,         // segments given their size by ftruncate
    stage: nat,              // completed actions of create; 5 is all of them
    handles: map<Name, nat>, // the server's own handles
    clients: map<nat, Client>,
    unlinked: bool)          // a client object was destroyed since the server opened the segment

  datatype Step =
    | ServerOpens            // shm_open(O_CREAT | O_TRUNC)
    | ServerSizes            // ftruncate and mmap
    | ServerCreates(n: Name) // sem_unlink and sem_open(O_CREAT)
    | ClientStarts(id: nat)
    | ClientOpens(id: nat)   // shm_open without O_CREAT
    | ClientMaps(id: nat)    // mmap succeeds even on a segment not yet sized
    | ClientTakes(id: nat, n: Name) // sem_open without O_CREAT
    | ClientDies(id: nat)    // the destructor; it unlinks the segment name even when
                             // opening it failed, the handle then being -1 and not 0

  // The stage at which each semaphore is created and opened.
  function Stage(n: Name): nat {
    match n case Shm => 0 case Signal => 2 case Avail => 3 case WatchDog => 4
  }

  function Start(names: map<Name, nat>, nextObject: nat): Host {
    Host(names, nextObject, {}, 0, map[], map[], false)
  }

  function Advance(h: Host, id: nat, c: Client): Host {
    h.(clients := h.clients[id := c])
  }

  function Next(h: Host, step: Step): Option<Host> {
    match step
    case ServerOpens =>
      if h.stage == 0 then
        var o := if Shm in h.names then h.names[Shm] else h.nextObject;
        Some(h.(names := h.names[Shm := o], nextObject := h.nextObject + 1,
                handles := h.handles[Shm := o], stage := 1, unlinked := false))
      else None
    case ServerSizes =>
      if h.stage == 1 && Shm in h.handles then
        Some(h.(sized := h.sized + {h.handles[Shm]}, stage := 2))
      else None
    case ServerCreates(n) =>
      if n != Shm && h.stage == Stage(n) then
        Some(h.(names := h.names[n := h.nextObject], nextObject := h.nextObject + 1,
                handles := h.handles[n := h.nextObject], stage := h.stage + 1))
      else None
    case ClientStarts(id) =>
      if id !in h.clients then Some(Advance(h, id, Client(0, Connecting, map[]))) else None
    case ClientOpens(id) =>
      if id in h.clients && h.clients[id].status.Connecting? && h.clients[id].stage == 0 then
        var c := h.clients[id];
        Some(Advance(h, id,
          if Shm in h.names then c.(stage := 1, handles := c.handles[Shm := h.names[Shm]])
          else c.(status := Failed)))
      else None
    case ClientMaps(id) =>
      if id in h.clients && h.clients[id].status.Connecting? && h.clients[id].stage == 1 then
        Some(Advance(h, id, h.clients[id].(stage := 2)))
      else None
    case ClientTakes(id, n) =>
      if id in h.clients && h.clients[id].status.Connecting? && n != Shm && h.clients[id].stage == Stage(n) then
        var c := h.clients[id];
        Some(Advance(h, id,
          if n in h.names then
            c.(stage := c.stage + 1, handles := c.handles[n := h.names[n]],
               status := if n == WatchDog then Connected else Connecting)
          else c.(status := Failed)))
      else None
    case ClientDies(id) =>
      if id in h.clients && !h.clients[id].status.Connecting? then
        Some(h.(clients := h.clients - {id}, names := h.names - {Shm}, unlinked := true))
      else None
  }

  function Run(h: Host, steps: seq<Step>): Option<Host> {
    if steps == [] then Some(h) else
    match Run(h, steps[..|steps| - 1])
    case None => None
    case Some(g) => Next(g, steps[|steps| - 1])
  }

  lemma Snoc(h: Host, steps: seq<Step>, step: Step)
    ensures Run(h, steps + [step]) == match Run(h, steps) case None => None case Some(g) => Next(g, step)
  {
    assert (steps + [step])[..|steps|] == steps;
  }

  lemma Extend(h: Host, steps: seq<Step>, step: Step)
    requires Run(h, steps).Some?
    ensures Run(h, steps + [step]) == Next(Run(h, steps).value, step)
  {
    assert (steps + [step])[..|steps|] == steps;
  }

  lemma RunOne(h: Host, step: Step)
    ensures Run(h, [step]) == Next(h, step)
  {
    assert [step][..0] == [];
  }

  lemma {:induction false} RunConcat(h: Host, a: seq<Step>, b: seq<Step>)
    ensures Run(h, a + b) == match Run(h, a) case None => None case Some(g) => Run(g, b)
  {
    if b == [] {
      assert a + b == a;
    } else {
      var front, last := b[..|b| - 1], b[|b| - 1];
      RunConcat(h, a, front);
      Snoc(h, a + front, last);
      assert a + b == a + front + [last];
    }
  }

  // ------------------------------------------------------------------- invariant

  // A name is bound exactly once the server has created it, and to the server's object; the
  // segment's name is gone once a client object has been destroyed since.
  ghost predicate NamesOk(h: Host) {
    && h.stage <= 5
    && (Shm in h.names <==> h.stage >= 1 && !h.unlinked)
    && (forall n :: n != Shm ==> (n in h.names <==> h.stage > Stage(n)))
    && (forall n :: n in h.names ==> n in h.handles && h.handles[n] == h.names[n])
    && (forall n :: n in h.handles <==> h.stage > Stage(n))
    && (h.stage >= 2 ==> h.handles[Shm] in h.sized)
  }

  ghost predicate ClientOk(h: Host, c: Client) {
    && (c.status.Connected? <==> c.stage == 5)
    && c.stage <= 5
    && (forall n :: n in c.handles ==> n in h.handles && h.handles[n] == c.handles[n])
    && (forall n :: c.stage > Stage(n) ==> n in c.handles)
  }

  ghost predicate Sound(h: Host) {
    NamesOk(h) && forall id :: id in h.clients ==> ClientOk(h, h.clients[id])
  }

  // The server only ever adds handles, so a sound client stays sound.
  lemma ClientStaysOk(h: Host, g: Host, c: Client)
    requires ClientOk(h, c)
    requires forall n :: n in h.handles ==> n in g.handles && g.handles[n] == h.handles[n]
    ensures ClientOk(g, c)
  {
  }

  lemma ServerKeepsSound(h: Host, step: Step)
    requires step.ServerOpens? || step.ServerSizes? || step.ServerCreates?
    requires Sound(h) && Next(h, step).Some?
    ensures Sound(Next(h, step).value)
  {
    var g := Next(h, step).value;
    assert NamesOk(g);
    forall id | id in g.clients
      ensures ClientOk(g, g.clients[id])
    {
      ClientStaysOk(h, g, h.clients[id]);
    }
  }

  // One client moves on; its new state is sound, and nobody else is affected.
  lemma AdvanceKeepsSound(h: Host, id: nat, c: Client)
    requires Sound(h) && ClientOk(h, c)
    ensures Sound(Advance(h, id, c))
  {
    var g := Advance(h, id, c);
    assert NamesOk(g);
    forall k | k in g.clients
      ensures ClientOk(g, g.clients[k])
    {
      ClientStaysOk(h, g, if k == id then c else h.clients[k]);
    }
  }

  lemma DeathKeepsSound(h: Host, id: nat)
    requires Sound(h) && Next(h, ClientDies(id)).Some?
    ensures Sound(Next(h, ClientDies(id)).value)
  {
    var g := Next(h, ClientDies(id)).value;
    assert NamesOk(g);
    forall k | k in g.clients
      ensures ClientOk(g, g.clients[k])
    {
      ClientStaysOk(h, g, h.clients[k]);
    }
  }

  lemma TakeKeepsOk(h: Host, id: nat, n: Name)
    requires NamesOk(h) && Next(h, ClientTakes(id, n)).Some? && ClientOk(h, h.clients[id])
    ensures ClientOk(h, Next(h, ClientTakes(id, n)).value.clients[id])
  {
    var c := h.clients[id];
    var d := Next(h, ClientTakes(id, n)).value.clients[id];
    if n !in h.names {
      assert d == c.(status := Failed);
    } else {
      assert h.names[n] == h.handles[n];
      forall m: Name | d.stage > Stage(m)
        ensures m in d.handles
      {
        assert m == n || c.stage > Stage(m);
      }
    }
  }

  lemma OpensKeepsOk(h: Host, id: nat)
    requires NamesOk(h) && Next(h, ClientOpens(id)).Some? && ClientOk(h, h.clients[id])
    ensures ClientOk(h, Next(h, ClientOpens(id)).value.clients[id])
  {
  }

  lemma MapsKeepsOk(h: Host, id: nat)
    requires NamesOk(h) && Next(h, ClientMaps(id)).Some? && ClientOk(h, h.clients[id])
    ensures ClientOk(h, Next(h, ClientMaps(id)).value.clients[id])
  {
  }

  lemma ClientKeepsSound(h: Host, step: Step)
    requires !(step.ServerOpens? || step.ServerSizes? || step.ServerCreates?)
    requires Sound(h) && Next(h, step).Some?
    ensures Sound(Next(h, step).value)
  {
    if step.ClientDies? {
      DeathKeepsSound(h, step.id);
    } else {
      var c := Next(h, step).value.clients[step.id];
      if step.id in h.clients { assert ClientOk(h, h.clients[step.id]); }
      match step {
        case ClientStarts(_) =>
        case ClientOpens(id) => OpensKeepsOk(h, id);
        case ClientMaps(id) => MapsKeepsOk(h, id);
        case ClientTakes(id, n) => TakeKeepsOk(h, id, n);
      }
      assert Next(h, step).value == Advance(h, step.id, c);
      AdvanceKeepsSound(h, step.id, c);
    }
  }

  lemma SoundNext(h: Host, step: Step)
    requires Sound(h) && Next(h, step).Some?
    ensures Sound(Next(h, step).value)
  {
    if step.ServerOpens? || step.ServerSizes? || step.ServerCreates? {
      ServerKeepsSound(h, step);
    } else {
      ClientKeepsSound(h, step);
    }
  }

  lemma {:induction false} SoundRun(nextObject: nat, steps: seq<Step>)
    requires Run(Start(map[], nextObject), steps).Some?
    ensures Sound(Run(Start(map[], nextObject), steps).value)
  {
    if steps != [] {
      var before := steps[..|steps| - 1];
      SoundRun(nextObject, before);
      SoundNext(Run(Start(map[], nextObject), before).value, steps[|steps| - 1]);
    }
  }

  lemma SameHandles(h: Host, c: Client)
    requires NamesOk(h) && ClientOk(h, c) && c.status.Connected?
    ensures c.handles == h.handles && h.stage == 5 && h.handles.Keys == {Shm, Signal, Avail, WatchDog}
  {
    forall n: Name
      ensures n in h.handles && n in c.handles && h.handles[n] == c.handles[n]
    {
      assert Stage(n) < 5;
    }
    assert WatchDog in h.handles && c.handles.Keys == h.handles.Keys;
  }

  /** On a fresh key, a connect that reports success does so only after the server has sized
      the segment and created all three semaphores, and its handles are the server's objects,
      whatever other client objects did in the meantime. */
  lemma ConnectedMeansCreated(nextObject: nat, steps: seq<Step>, id: nat)
    requires Run(Start(map[], nextObject), steps).Some?
    requires var h := Run(Start(map[], nextObject), steps).value;
      id in h.clients && h.clients[id].status.Connected?
    ensures var h := Run(Start(map[], nextObject), steps).value;
      && h.stage == 5
      && h.clients[id].handles == h.handles
      && h.handles.Keys == {Shm, Signal, Avail, WatchDog}
      && h.handles[Shm] in h.sized
  {
    SoundRun(nextObject, steps);
    var h := Run(Start(map[], nextObject), steps).value;
    assert ClientOk(h, h.clients[id]);
    SameHandles(h, h.clients[id]);
  }

  // ---------------------------------------------------------- a key that is lost for good

  ghost predicate Doomed(h: Host, earlier: set<nat>) {
    && h.stage >= 1 && Shm !in h.names
    && forall id :: id in h.clients && id !in earlier ==>
         h.clients[id].stage == 0 && !h.clients[id].status.Connected?
  }

  lemma DoomedNext(h: Host, earlier: set<nat>, step: Step)
    requires Doomed(h, earlier) && Next(h, step).Some?
    ensures Doomed(Next(h, step).value, earlier)
  {
    var g := Next(h, step).value;
    forall id | id in g.clients && id !in earlier
      ensures g.clients[id].stage == 0 && !g.clients[id].status.Connected?
    {
      if id in h.clients {
        assert h.clients[id].stage == 0;
      }
    }
  }

  /** One client object destroyed after the server opened the segment, even one that never
      managed to open it, dooms the key: no client object created later ever connects. */
  lemma {:induction false} UnlinkedKeyIsLost(h: Host, steps: seq<Step>)
    requires h.stage >= 1 && Shm !in h.names && Run(h, steps).Some?
    ensures Doomed(Run(h, steps).value, h.clients.Keys)
  {
    if steps != [] {
      var before := steps[..|steps| - 1];
      UnlinkedKeyIsLost(h, before);
      DoomedNext(Run(h, before).value, h.clients.Keys, steps[|steps| - 1]);
    }
  }

  function CreateSteps(): seq<Step> {
    [ServerOpens, ServerSizes, ServerCreates(Signal), ServerCreates(Avail), ServerCreates(WatchDog)]
  }

  function ConnectSteps(id: nat): seq<Step> {
    [ClientOpens(id), ClientMaps(id), ClientTakes(id, Signal), ClientTakes(id, Avail), ClientTakes(id, WatchDog)]
  }

  // g is h after the actions of create numbered from..to.
  ghost predicate Created(h: Host, g: Host, from: nat, to: nat) {
    && g.stage == to && g.clients == h.clients && g.nextObject >= h.nextObject
    && (forall n :: n in h.names || from <= Stage(n) < to <==> n in g.names)
    && (forall n :: n in h.names && !(from <= Stage(n) < to) ==> g.names[n] == h.names[n])
    && (forall n :: n in h.handles && !(from <= Stage(n) < to) ==> n in g.handles && g.handles[n] == h.handles[n])
    && (forall n :: from <= Stage(n) < to ==> n in g.handles && g.handles[n] == g.names[n])
    && (forall n :: n != Shm && from <= Stage(n) < to ==> g.handles[n] >= h.nextObject)
    && (from == 0 < to && Shm !in h.names ==> g.handles[Shm] >= h.nextObject)
    && (to > 0 ==> Shm in g.handles)
    && g.unlinked == (h.unlinked && !(from == 0 < to))
  }

  lemma SliceSnoc(s: seq<Step>, from: nat, to: nat)
    requires from < to <= |s|
    ensures s[from..to] == s[from..to - 1] + [s[to - 1]]
  {
  }

  // The semaphore made, or opened, by the action numbered k.
  function SemaphoreAt(k: nat): (n: Name)
    requires 2 <= k < 5
    ensures n != Shm && Stage(n) == k
  {
    if k == 2 then Signal else if k == 3 then Avail else WatchDog
  }

  lemma OnlyAt(n: Name, k: nat)
    requires n != Shm && Stage(n) == k
    ensures forall m :: Stage(m) == k <==> m == n
  {
  }

  lemma CreatedSemaphore(h: Host, g: Host, from: nat, n: Name)
    requires n != Shm && from <= Stage(n) && Created(h, g, from, Stage(n))
    ensures Next(g, ServerCreates(n)).Some? && Created(h, Next(g, ServerCreates(n)).value, from, Stage(n) + 1)
  {
    OnlyAt(n, Stage(n));
    var k := g.(names := g.names[n := g.nextObject], nextObject := g.nextObject + 1,
                handles := g.handles[n := g.nextObject], stage := g.stage + 1);
    assert Next(g, ServerCreates(n)) == Some(k);
    forall m
      ensures from <= Stage(m) < Stage(n) + 1 <==> from <= Stage(m) < Stage(n) || m == n
    {
    }
    assert Created(h, k, from, Stage(n) + 1);
  }

  lemma CreatedSegment(h: Host, g: Host)
    requires Created(h, g, 0, 0)
    ensures Next(g, ServerOpens).Some? && Created(h, Next(g, ServerOpens).value, 0, 1)
  {
    OnlyShm();
    var o := if Shm in g.names then g.names[Shm] else g.nextObject;
    var k := g.(names := g.names[Shm := o], nextObject := g.nextObject + 1,
                handles := g.handles[Shm := o], stage := 1, unlinked := false);
    assert Next(g, ServerOpens) == Some(k);
    assert Created(h, k, 0, 1);
  }

  lemma OnlyShm()
    ensures forall m :: Stage(m) < 2 <==> m == Shm
    ensures Stage(Shm) == 0
  {
  }

  lemma CreatedSize(h: Host, g: Host, from: nat)
    requires from <= 1 && Created(h, g, from, 1)
    ensures Next(g, ServerSizes).Some? && Created(h, Next(g, ServerSizes).value, from, 2)
  {
    OnlyShm();
    var k := g.(sized := g.sized + {g.handles[Shm]}, stage := 2);
    assert Next(g, ServerSizes) == Some(k);
    assert Created(h, k, from, 2);
  }

  lemma CreatedMore(h: Host, g: Host, from: nat, to: nat)
    requires from <= to < 5 && Created(h, g, from, to)
    ensures Next(g, CreateSteps()[to]).Some? && Created(h, Next(g, CreateSteps()[to]).value, from, to + 1)
  {
    if to == 0 { CreatedSegment(h, g); }
    else if to == 1 { CreatedSize(h, g, from); }
    else { CreatedSemaphore(h, g, from, SemaphoreAt(to)); }
  }

  lemma CreatedNone(h: Host, from: nat)
    requires h.stage == from && (from > 0 ==> Shm in h.handles)
    ensures Created(h, h, from, from)
  {
  }

  lemma {:induction false} CreatePart(h: Host, from: nat, to: nat)
    requires from <= to <= 5 && h.stage == from && (from > 0 ==> Shm in h.handles)
    ensures Run(h, CreateSteps()[from..to]).Some? && Created(h, Run(h, CreateSteps()[from..to]).value, from, to)
  {
    if from == to {
      CreatedNone(h, from);
    } else {
      var s := CreateSteps();
      CreatePart(h, from, to - 1);
      CreatedMore(h, Run(h, s[from..to - 1]).value, from, to - 1);
      Extend(h, s[from..to - 1], s[to - 1]);
      SliceSnoc(s, from, to);
    }
  }

  // g is h after the actions of connect numbered from..to of client `id`, all successful.
  ghost predicate Opened(h: Host, g: Host, id: nat, from: nat, to: nat)
    requires id in h.clients
  {
    id in g.clients &&
    var c, d := h.clients[id], g.clients[id];
    && g == Advance(h, id, d)
    && d.stage == to && d.status == (if to == 5 then Connected else Connecting)
    && (forall n :: from <= Stage(n) < to ==> n in h.names && n in d.handles && d.handles[n] == h.names[n])
    && (forall n :: !(from <= Stage(n) < to) ==>
          (n in c.handles <==> n in d.handles) && (n in c.handles ==> d.handles[n] == c.handles[n]))
  }

  lemma OpenedSemaphore(h: Host, g: Host, id: nat, from: nat, n: Name)
    requires n != Shm && n in h.names && from <= Stage(n)
    requires id in h.clients && Opened(h, g, id, from, Stage(n))
    ensures Next(g, ClientTakes(id, n)).Some?
    ensures Opened(h, Next(g, ClientTakes(id, n)).value, id, from, Stage(n) + 1)
  {
    OnlyAt(n, Stage(n));
    var d := g.clients[id];
    var e := Client(Stage(n) + 1, if n == WatchDog then Connected else Connecting, d.handles[n := h.names[n]]);
    assert Next(g, ClientTakes(id, n)) == Some(Advance(g, id, e));
    assert h.clients[id := d][id := e] == h.clients[id := e];
    assert Opened(h, Advance(h, id, e), id, from, Stage(n) + 1);
  }

  lemma OpenedSegment(h: Host, g: Host, id: nat)
    requires Shm in h.names && id in h.clients && Opened(h, g, id, 0, 0)
    ensures Next(g, ClientOpens(id)).Some? && Opened(h, Next(g, ClientOpens(id)).value, id, 0, 1)
  {
    OnlyShm();
    var d := g.clients[id];
    var e := Client(1, Connecting, d.handles[Shm := h.names[Shm]]);
    assert Next(g, ClientOpens(id)) == Some(Advance(g, id, e));
    assert h.clients[id := d][id := e] == h.clients[id := e];
    assert Opened(h, Advance(h, id, e), id, 0, 1);
  }

  lemma OpenedMap(h: Host, g: Host, id: nat, from: nat)
    requires from <= 1 && id in h.clients && Opened(h, g, id, from, 1)
    ensures Next(g, ClientMaps(id)).Some? && Opened(h, Next(g, ClientMaps(id)).value, id, from, 2)
  {
    OnlyShm();
    var d := g.clients[id];
    var e := d.(stage := 2);
    assert Next(g, ClientMaps(id)) == Some(Advance(g, id, e));
    assert h.clients[id := d][id := e] == h.clients[id := e];
    assert Opened(h, Advance(h, id, e), id, from, 2);
  }

  lemma OpenedMore(h: Host, g: Host, id: nat, from: nat, to: nat)
    requires from <= to < 5 && id in h.clients && Opened(h, g, id, from, to)
    requires forall n :: Stage(n) == to ==> n in h.names
    ensures Next(g, ConnectSteps(id)[to]).Some? && Opened(h, Next(g, ConnectSteps(id)[to]).value, id, from, to + 1)
  {
    if to == 0 { OpenedSegment(h, g, id); }
    else if to == 1 { OpenedMap(h, g, id, from); }
    else { OpenedSemaphore(h, g, id, from, SemaphoreAt(to)); }
  }

  lemma {:induction false} ConnectPart(h: Host, id: nat, from: nat, to: nat)
    requires from <= to <= 5 && from < 5 && id in h.clients
    requires h.clients[id].status.Connecting? && h.clients[id].stage == from
    requires forall n :: from <= Stage(n) < to ==> n in h.names
    ensures Run(h, ConnectSteps(id)[from..to]).Some?
    ensures Opened(h, Run(h, ConnectSteps(id)[from..to]).value, id, from, to)
  {
    if from == to {
      assert h == Advance(h, id, h.clients[id]);
    } else {
      var s := ConnectSteps(id);
      ConnectPart(h, id, from, to - 1);
      OpenedMore(h, Run(h, s[from..to - 1]).value, id, from, to - 1);
      Extend(h, s[from..to - 1], s[to - 1]);
      SliceSnoc(s, from, to);
    }
  }

  /** The restriction on destroyed clients is needed: a client that looked too early, and is
      destroyed after create has finished, takes the segment's name with it. */
  lemma EarlyClientLosesTheKey(nextObject: nat, id: nat)
    ensures var steps := [ClientStarts(id), ClientOpens(id)] + CreateSteps() + [ClientDies(id)];
      && Run(Start(map[], nextObject), steps).Some?
      && var h := Run(Start(map[], nextObject), steps).value;
         h.stage == 5 && h.unlinked && Shm !in h.names
  {
    var f := Start(map[], nextObject);
    Extend(f, [], ClientStarts(id));
    assert [] + [ClientStarts(id)] == [ClientStarts(id)];
    Extend(f, [ClientStarts(id)], ClientOpens(id));
    var early := [ClientStarts(id), ClientOpens(id)];
    assert [ClientStarts(id)] + [ClientOpens(id)] == early;
    RunConcat(f, early, CreateSteps());
    assert CreateSteps() == CreateSteps()[0..5];
    CreatePart(Run(f, early).value, 0, 5);
    Extend(f, early + CreateSteps(), ClientDies(id));
  }
}
