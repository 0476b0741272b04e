/** Keys whose names are left over from an earlier run: exactly which leftovers let a connect
    succeed too early, or with objects that are not the server's. */
module StaleKeys {
  import opened Wrappers
  import opened Handshake

  // What connect promises: success comes after create, with the server's objects.
  ghost predicate Kept(h: Host) {
    forall id :: id in h.clients && h.clients[id].status.Connected? ==>
      h.stage == 5 && h.clients[id].handles == h.handles
  }

  ghost predicate SafeKey(names: map<Name, nat>, nextObject: nat) {
    forall steps: seq<Step> ::
      Run(Start(names, nextObject), steps).Some? ==> Kept(Run(Start(names, nextObject), steps).value)
  }

  // The same for the semaphores alone.
  ghost predicate SameSemaphores(h: Host, c: Client) {
    forall n :: n != Shm ==> n in h.handles && n in c.handles && h.handles[n] == c.handles[n]
  }

  ghost predicate SemaphoresKept(h: Host) {
    forall id :: id in h.clients && h.clients[id].status.Connected? ==>
      h.stage == 5 && SameSemaphores(h, h.clients[id])
  }

  ghost predicate SafeSemaphores(names: map<Name, nat>, nextObject: nat) {
    forall steps: seq<Step> ::
      Run(Start(names, nextObject), steps).Some? ==> SemaphoresKept(Run(Start(names, nextObject), steps).value)
  }

  // Left-over objects are older than any new one.
  predicate Older(names: map<Name, nat>, nextObject: nat) { forall n :: n in names ==> names[n] < nextObject }

  // -------------------------------------------------------------- a leftover semaphore

  function Begins(id: nat): seq<Step> { [ClientStarts(id)] }

  lemma StartRun(h: Host, id: nat)
    requires id !in h.clients
    ensures Run(h, Begins(id)) == Some(Advance(h, id, Client(0, Connecting, map[])))
  {
    RunOne(h, ClientStarts(id));
  }

  lemma BeginsAndOpens(h: Host, id: nat, to: nat)
    requires id !in h.clients && to < 5 && forall m :: Stage(m) < to ==> m in h.names
    ensures Run(h, Begins(id) + ConnectSteps(id)[0..to]).Some?
    ensures var g := Run(h, Begins(id) + ConnectSteps(id)[0..to]).value;
      && id in g.clients && g == Advance(h, id, g.clients[id])
      && g.clients[id].stage == to && g.clients[id].status == Connecting
      && forall m :: Stage(m) < to ==> m in g.clients[id].handles && g.clients[id].handles[m] == h.names[m]
  {
    StartRun(h, id);
    RunConcat(h, Begins(id), ConnectSteps(id)[0..to]);
    var g := Advance(h, id, Client(0, Connecting, map[]));
    ConnectPart(g, id, 0, to);
    var d := Run(g, ConnectSteps(id)[0..to]).value.clients[id];
    assert g.clients[id := d] == h.clients[id := d];
  }

  // The server stops short of making n, and a client opens what there is so far.
  function OpensEarly(id: nat, n: Name): seq<Step> {
    CreateSteps()[0..Stage(n)] + (Begins(id) + ConnectSteps(id)[0..Stage(n)])
  }

  // The server is about to make n, and the client to open it.
  ghost predicate Racing(h: Host, id: nat, n: Name) {
    && h.stage == Stage(n) && Shm in h.handles && (forall m :: Stage(m) < Stage(n) ==> m in h.names)
    && id in h.clients && h.clients[id].stage == Stage(n) && h.clients[id].status == Connecting
  }

  lemma OpensEarlyRun(names: map<Name, nat>, nextObject: nat, id: nat, n: Name)
    requires n != Shm && n in names
    ensures Run(Start(names, nextObject), OpensEarly(id, n)).Some?
    ensures var h := Run(Start(names, nextObject), OpensEarly(id, n)).value;
      Racing(h, id, n) && h.nextObject >= nextObject && n in h.names && h.names[n] == names[n]
  {
    var f, s := Start(names, nextObject), CreateSteps()[0..Stage(n)];
    CreatePart(f, 0, Stage(n));
    BeginsAndOpens(Run(f, s).value, id, Stage(n));
    RunConcat(f, s, Begins(id) + ConnectSteps(id)[0..Stage(n)]);
  }

  function TakesStale(id: nat, n: Name): seq<Step> { OpensEarly(id, n) + [ClientTakes(id, n)] }

  lemma TakesStaleRun(names: map<Name, nat>, nextObject: nat, id: nat, n: Name)
    requires n != Shm && n in names
    ensures Run(Start(names, nextObject), TakesStale(id, n)).Some?
    ensures var h := Run(Start(names, nextObject), TakesStale(id, n)).value;
      && h.stage == Stage(n) && h.nextObject >= nextObject && Shm in h.handles
      && (forall m :: Stage(m) < Stage(n) ==> m in h.names)
      && id in h.clients && h.clients[id].stage == Stage(n) + 1
      && h.clients[id].status == (if n == WatchDog then Connected else Connecting)
      && n in h.clients[id].handles && h.clients[id].handles[n] == names[n]
  {
    OpensEarlyRun(names, nextObject, id, n);
    Extend(Start(names, nextObject), OpensEarly(id, n), ClientTakes(id, n));
  }

  // The server then finishes, and so does the client.
  function StaleSemaphore(id: nat, n: Name): seq<Step> {
    TakesStale(id, n) + CreateSteps()[Stage(n)..5] + ConnectSteps(id)[Stage(n) + 1..5]
  }

  /** One leftover semaphore is enough: a client that takes it just before the server makes its
      own connects successfully and waits on the wrong one. */
  lemma StaleSemaphoreIsTaken(names: map<Name, nat>, nextObject: nat, id: nat, n: Name)
    requires Older(names, nextObject) && n != Shm && n in names
    ensures Run(Start(names, nextObject), StaleSemaphore(id, n)).Some?
    ensures var h := Run(Start(names, nextObject), StaleSemaphore(id, n)).value;
      && id in h.clients && h.clients[id].status.Connected?
      && n in h.handles && n in h.clients[id].handles && h.handles[n] != h.clients[id].handles[n]
  {
    var f, k := Start(names, nextObject), Stage(n);
    TakesStaleRun(names, nextObject, id, n);
    var h1 := Run(f, TakesStale(id, n)).value;
    CreatePart(h1, k, 5);
    RunConcat(f, TakesStale(id, n), CreateSteps()[k..5]);
    RunConcat(f, TakesStale(id, n) + CreateSteps()[k..5], ConnectSteps(id)[k + 1..5]);
    if n != WatchDog {
      ConnectPart(Run(h1, CreateSteps()[k..5]).value, id, k + 1, 5);
    }
  }

  // ---------------------------------------------------------------- a leftover segment

  function OpensStale(id: nat): seq<Step> { Begins(id) + ConnectSteps(id)[0..2] }

  function FailsAndDies(b: nat): seq<Step> { OpensStale(b) + [ClientTakes(b, Signal)] + [ClientDies(b)] }

  // A client that finds no semaphore fails, and its destruction unlinks the segment.
  lemma FailsAndDiesRun(h: Host, b: nat)
    requires b !in h.clients && Shm in h.names && Signal !in h.names
    ensures Run(h, FailsAndDies(b)) == Some(h.(names := h.names - {Shm}, unlinked := true))
  {
    BeginsAndOpens(h, b, 2);
    var g := Run(h, OpensStale(b)).value;
    Extend(h, OpensStale(b), ClientTakes(b, Signal));
    Extend(h, OpensStale(b) + [ClientTakes(b, Signal)], ClientDies(b));
    var failed := Next(g, ClientTakes(b, Signal)).value;
    assert failed.clients[b].status.Failed?;
    assert failed.clients - {b} == h.clients;
  }

  function StaleSegment(a: nat, b: nat): seq<Step> {
    OpensStale(a) + FailsAndDies(b) + CreateSteps()[0..5] + ConnectSteps(a)[2..5]
  }

  /** A leftover segment alone is enough as well: one client opens it, another fails on the
      missing semaphores and unlinks it, and the server then makes a new one; the first client
      connects successfully, to the old. */
  lemma StaleSegmentIsOpened(names: map<Name, nat>, nextObject: nat, a: nat, b: nat)
    requires Older(names, nextObject) && Shm in names && Signal !in names && a != b
    ensures Run(Start(names, nextObject), StaleSegment(a, b)).Some?
    ensures var h := Run(Start(names, nextObject), StaleSegment(a, b)).value;
      && a in h.clients && h.clients[a].status.Connected?
      && Shm in h.handles && Shm in h.clients[a].handles && h.handles[Shm] != h.clients[a].handles[Shm]
  {
    var f := Start(names, nextObject);
    BeginsAndOpens(f, a, 2);
    var h1 := Run(f, OpensStale(a)).value;
    FailsAndDiesRun(h1, b);
    RunConcat(f, OpensStale(a), FailsAndDies(b));
    var h2 := h1.(names := h1.names - {Shm}, unlinked := true);
    CreatePart(h2, 0, 5);
    RunConcat(f, OpensStale(a) + FailsAndDies(b), CreateSteps()[0..5]);
    var h3 := Run(h2, CreateSteps()[0..5]).value;
    ConnectPart(h3, a, 2, 5);
    RunConcat(f, OpensStale(a) + FailsAndDies(b) + CreateSteps()[0..5], ConnectSteps(a)[2..5]);
  }

  // ------------------------------------------------------------------ no leftover semaphore

  // Of the semaphores, only the server's own exist, and clients hold no others.
  ghost predicate SemaphoresOk(h: Host) {
    && h.stage <= 5
    && (forall n :: n != Shm ==> (n in h.names <==> h.stage > Stage(n)))
    && (forall n :: n != Shm && n in h.names ==> n in h.handles && h.handles[n] == h.names[n])
  }

  ghost predicate HoldsOwn(h: Host, c: Client) {
    && c.stage <= 5 && (c.status.Connected? <==> c.stage == 5)
    && (forall n :: n != Shm && c.stage > Stage(n) ==>
          n in h.names && n in c.handles && c.handles[n] == h.names[n])
  }

  ghost predicate SemaphoresSound(h: Host) {
    SemaphoresOk(h) && forall id :: id in h.clients ==> HoldsOwn(h, h.clients[id])
  }

  lemma SemaphoresOkNext(h: Host, step: Step)
    requires SemaphoresOk(h) && Next(h, step).Some?
    ensures SemaphoresOk(Next(h, step).value)
    ensures forall n :: n != Shm && n in h.names ==> n in Next(h, step).value.names && Next(h, step).value.names[n] == h.names[n]
  {
  }

  lemma HoldsOwnStays(h: Host, g: Host, c: Client)
    requires HoldsOwn(h, c)
    requires forall n :: n != Shm && n in h.names ==> n in g.names && g.names[n] == h.names[n]
    ensures HoldsOwn(g, c)
  {
  }

  // The client that acts holds the server's own semaphores afterwards.
  lemma ActorHoldsOwn(h: Host, step: Step)
    requires step.ClientStarts? || step.ClientOpens? || step.ClientMaps? || step.ClientTakes?
    requires Next(h, step).Some? && (step.id in h.clients ==> HoldsOwn(h, h.clients[step.id]))
    ensures HoldsOwn(h, Next(h, step).value.clients[step.id])
    ensures forall id :: id in Next(h, step).value.clients && id != step.id ==>
      id in h.clients && Next(h, step).value.clients[id] == h.clients[id]
    ensures Next(h, step).value.names == h.names
  {
  }

  lemma SemaphoresSoundNext(h: Host, step: Step)
    requires SemaphoresSound(h) && Next(h, step).Some?
    ensures SemaphoresSound(Next(h, step).value)
  {
    var g := Next(h, step).value;
    SemaphoresOkNext(h, step);
    if step.ClientStarts? || step.ClientOpens? || step.ClientMaps? || step.ClientTakes? {
      if step.id in h.clients { assert HoldsOwn(h, h.clients[step.id]); }
      ActorHoldsOwn(h, step);
      forall id | id in g.clients
        ensures HoldsOwn(g, g.clients[id])
      {
        HoldsOwnStays(h, g, g.clients[id]);
      }
    } else {
      forall id | id in g.clients
        ensures HoldsOwn(g, g.clients[id])
      {
        assert g.clients[id] == h.clients[id];
        HoldsOwnStays(h, g, h.clients[id]);
      }
    }
  }

  lemma {:induction false} SemaphoresSoundRun(names: map<Name, nat>, nextObject: nat, steps: seq<Step>)
    requires (forall n :: n in names ==> n == Shm) && Run(Start(names, nextObject), steps).Some?
    ensures SemaphoresSound(Run(Start(names, nextObject), steps).value)
  {
    if steps != [] {
      var before := steps[..|steps| - 1];
      SemaphoresSoundRun(names, nextObject, before);
      SemaphoresSoundNext(Run(Start(names, nextObject), before).value, steps[|steps| - 1]);
    }
  }

  lemma SoundIsKept(h: Host)
    requires SemaphoresSound(h)
    ensures SemaphoresKept(h)
  {
    forall id | id in h.clients && h.clients[id].status.Connected?
      ensures h.stage == 5 && SameSemaphores(h, h.clients[id])
    {
      assert HoldsOwn(h, h.clients[id]);
      assert WatchDog in h.names;
    }
  }

  // -------------------------------------------------------- a leftover segment, no deaths

  predicate NoDeaths(steps: seq<Step>) { forall i :: 0 <= i < |steps| ==> !steps[i].ClientDies? }

  // Whoever has opened the segment has the one that has the name.
  ghost predicate OneSegment(h: Host) {
    && (h.stage > 0 <==> Shm in h.handles)
    && (Shm in h.handles ==> Shm in h.names && h.handles[Shm] == h.names[Shm])
    && (forall id :: id in h.clients && h.clients[id].stage > 0 ==>
          Shm in h.clients[id].handles && Shm in h.names && h.clients[id].handles[Shm] == h.names[Shm])
  }

  lemma OneSegmentNext(h: Host, step: Step)
    requires OneSegment(h) && !step.ClientDies? && Next(h, step).Some?
    ensures OneSegment(Next(h, step).value)
  {
  }

  lemma {:induction false} OneSegmentRun(names: map<Name, nat>, nextObject: nat, steps: seq<Step>)
    requires NoDeaths(steps) && Run(Start(names, nextObject), steps).Some?
    ensures OneSegment(Run(Start(names, nextObject), steps).value)
  {
    if steps != [] {
      var before := steps[..|steps| - 1];
      OneSegmentRun(names, nextObject, before);
      OneSegmentNext(Run(Start(names, nextObject), before).value, steps[|steps| - 1]);
    }
  }

  /** As long as no client object is destroyed, a leftover segment does no harm: the server
      reuses it, and a successful connect comes after create and shares the segment and the
      semaphores with the server. */
  lemma LeftSegmentIsReused(names: map<Name, nat>, nextObject: nat, steps: seq<Step>, id: nat)
    requires (forall n :: n in names ==> n == Shm) && NoDeaths(steps) && Run(Start(names, nextObject), steps).Some?
    requires var h := Run(Start(names, nextObject), steps).value;
      id in h.clients && h.clients[id].status.Connected?
    ensures var h := Run(Start(names, nextObject), steps).value;
      && h.stage == 5
      && forall n: Name :: n in h.handles && n in h.clients[id].handles && h.handles[n] == h.clients[id].handles[n]
  {
    OneSegmentRun(names, nextObject, steps);
    SemaphoresSoundRun(names, nextObject, steps);
    var h := Run(Start(names, nextObject), steps).value;
    assert HoldsOwn(h, h.clients[id]);
    SoundIsKept(h);
  }

  // ---------------------------------------------------------------- the exact conditions

  /** A successful connect comes after create and has the server's semaphores, in every run, if
      and only if no semaphore is left over; a leftover segment does not matter for that. */
  lemma SafeSemaphoresIffNoneLeft(names: map<Name, nat>, nextObject: nat)
    requires Older(names, nextObject)
    ensures SafeSemaphores(names, nextObject) <==> forall n :: n in names ==> n == Shm
  {
    if n :| n in names && n != Shm {
      StaleSemaphoreIsTaken(names, nextObject, 0, n);
    } else {
      forall steps: seq<Step> | Run(Start(names, nextObject), steps).Some?
        ensures SemaphoresKept(Run(Start(names, nextObject), steps).value)
      {
        SemaphoresSoundRun(names, nextObject, steps);
        SoundIsKept(Run(Start(names, nextObject), steps).value);
      }
    }
  }

  /** A successful connect comes after create and has exactly the server's objects, in every
      run, if and only if no name at all is left over.  Destructors unlink only the segment, so
      a key that was used before is not safe. */
  lemma SafeKeyIffFresh(names: map<Name, nat>, nextObject: nat)
    requires Older(names, nextObject)
    ensures SafeKey(names, nextObject) <==> names == map[]
  {
    if names == map[] {
      forall steps: seq<Step> | Run(Start(names, nextObject), steps).Some?
        ensures Kept(Run(Start(names, nextObject), steps).value)
      {
        SoundRun(nextObject, steps);
        SoundKeeps(Run(Start(names, nextObject), steps).value);
      }
    } else if n :| n in names && n != Shm {
      StaleSemaphoreIsTaken(names, nextObject, 0, n);
    } else {
      assert Shm in names by { assert names.Keys != {}; }
      StaleSegmentIsOpened(names, nextObject, 0, 1);
    }
  }

  lemma SoundKeeps(h: Host)
    requires Sound(h)
    ensures Kept(h)
  {
    forall id | id in h.clients && h.clients[id].status.Connected?
      ensures h.stage == 5 && h.clients[id].handles == h.handles
    {
      assert ClientOk(h, h.clients[id]);
      SameHandles(h, h.clients[id]);
    }
  }

  /** With all four names left over, connect reports success before create has done anything,
      and create then makes new semaphores that are none of the client's. */
  lemma StaleKeyConnectsTooEarly(stale: map<Name, nat>, nextObject: nat, id: nat)
    requires Older(stale, nextObject) && forall n: Name :: n in stale
    ensures var connected := Begins(id) + ConnectSteps(id)[0..5];
      && Run(Start(stale, nextObject), connected).Some?
      && Run(Start(stale, nextObject), connected).value.stage == 0
      && id in Run(Start(stale, nextObject), connected).value.clients
      && Run(Start(stale, nextObject), connected).value.clients[id].status.Connected?
      && Run(Start(stale, nextObject), connected + CreateSteps()[0..5]).Some?
      && var h := Run(Start(stale, nextObject), connected + CreateSteps()[0..5]).value;
         && id in h.clients
         && forall n :: n != Shm ==>
              n in h.handles && n in h.clients[id].handles && h.handles[n] != h.clients[id].handles[n]
  {
    var f := Start(stale, nextObject);
    StartRun(f, id);
    RunConcat(f, Begins(id), ConnectSteps(id)[0..5]);
    var h1 := Run(f, Begins(id)).value;
    ConnectPart(h1, id, 0, 5);
    var connected := Begins(id) + ConnectSteps(id)[0..5];
    RunConcat(f, connected, CreateSteps()[0..5]);
    CreatePart(Run(f, connected).value, 0, 5);
  }
}
