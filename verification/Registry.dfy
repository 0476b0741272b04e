/** The instance registry of libshmfmu: `g_clients`, `currentId`, handle lookup, and which
    channel each API call sends on.  Handles are addresses, and the allocator may hand out
    the address of a deleted container again. */
module Registry {
  import opened Wrappers

  // A slot of g_clients: the NULL dummy, or a container at an address with its channel id.
  datatype Entry = Dummy | Container(handle: nat, id: nat)

  // A message on the command channel of instance `id`; only fmi2FreeInstance times it.
  datatype Send = Send(id: nat, timed: bool)

  datatype World = World(
    currentId: nat,
    clients: seq<Entry>,
    sends: seq<Send>,
    returned: set<nat>, // ids whose handle was returned to the caller
    stranded: set<nat>, // ids whose `initialize` failed
    freed: set<nat>)    // ids that went through fmi2FreeInstance

  // What the caller and the environment decide: the address of the new container, whether
  // `initialize` succeeds, whether the request fits the buffer (if not, FmuProxy sends
  // nothing), and whether the remote instantiate is then accepted.  0 is NULL.
  datatype Op =
    | Instantiate(handle: nat, created: bool, fits: bool, accepted: bool)
    | Free(component: nat)
    | Api(component: nat, fits: bool)

  const START := World(0, [], [], {}, {}, {})

  function Find(clients: seq<Entry>, c: nat): Option<nat> {
    if clients == [] then None
    else match Find(clients[..|clients| - 1], c)
      case Some(i) => Some(i)
      case None =>
        var last := |clients| - 1;
        if clients[last].Container? && clients[last].handle == c then Some(last) else None
  }

  lemma {:induction false} FindIsFirst(clients: seq<Entry>, c: nat)
    ensures match Find(clients, c)
      case Some(i) =>
        && i < |clients| && clients[i].Container? && clients[i].handle == c
        && forall j :: 0 <= j < i ==> clients[j].Container? ==> clients[j].handle != c
      case None => forall j :: 0 <= j < |clients| ==> clients[j].Container? ==> clients[j].handle != c
  {
    if clients != [] {
      var front := clients[..|clients| - 1];
      FindIsFirst(front, c);
      forall j | 0 <= j < |clients|
        ensures j < |front| ==> clients[j] == front[j]
      {
      }
    }
  }

  function FreeAt(w: World, i: nat): World
    requires i < |w.clients| && w.clients[i].Container?
  {
    w.(sends := w.sends + [Send(w.clients[i].id, true)],
       freed := w.freed + {w.clients[i].id},
       clients := w.clients[..i] + w.clients[i + 1..])
  }

  // The dummy on first use, then the new container under the next id.
  function Push(w: World, handle: nat): World {
    w.(currentId := w.currentId + 1,
       clients := (if w.clients == [] then [Dummy] else w.clients) + [Container(handle, w.currentId + 1)])
  }

  function Untimed(w: World, id: nat): World {
    w.(sends := w.sends + [Send(id, false)])
  }

  // An untimed send, if the request is small enough to be sent.
  function Request(w: World, id: nat, fits: bool): World { if fits then Untimed(w, id) else w }

  function FreeHandle(w: World, c: nat): World {
    FindIsFirst(w.clients, c);
    match Find(w.clients, c) case Some(i) => FreeAt(w, i) case None => w
  }

  /** One API call of a single-threaded caller. */
  function Perform(w: World, op: Op): World {
    match op
    case Instantiate(handle, created, fits, accepted) =>
      var id := w.currentId + 1;
      var pushed := Push(w, handle);
      if !created then pushed.(stranded := w.stranded + {id})
      else if fits && accepted then Untimed(pushed, id).(returned := w.returned + {id})
      else FreeHandle(Request(pushed, id, fits), handle)
    case Free(c) => FreeHandle(w, c)
    case Api(c, fits) =>
      FindIsFirst(w.clients, c);
      match Find(w.clients, c)
      case Some(i) => Request(w, w.clients[i].id, fits)
      case None => w
  }

  // The allocator never returns NULL or the address of a container that still exists.
  predicate Allocated(w: World, op: Op) {
    op.Instantiate? ==> op.handle != 0 && Find(w.clients, op.handle) == None
  }

  /** A history of API calls from program start. */
  function History(ops: seq<Op>): World {
    if ops == [] then START else Perform(History(ops[..|ops| - 1]), ops[|ops| - 1])
  }

  predicate Lawful(ops: seq<Op>) {
    ops == [] || (Lawful(ops[..|ops| - 1]) && Allocated(History(ops[..|ops| - 1]), ops[|ops| - 1]))
  }

  // ----------------------------------------------------------------------- invariant

  ghost predicate Ordered(w: World) {
    && (w.clients == [] ==> w.currentId == 0)
    && (w.clients != [] ==> w.clients[0].Dummy?)
    && (forall i :: 1 <= i < |w.clients| ==>
          w.clients[i].Container? && w.clients[i].handle != 0 && 0 < w.clients[i].id <= w.currentId)
    && (forall i, j :: 1 <= i < j < |w.clients| ==>
          w.clients[i].id < w.clients[j].id && w.clients[i].handle != w.clients[j].handle)
  }

  ghost predicate Present(clients: seq<Entry>, id: nat) {
    exists i :: 1 <= i < |clients| && clients[i].Container? && clients[i].id == id
  }

  ghost predicate Accounted(w: World) {
    && (forall id :: id in w.returned || id in w.stranded || id in w.freed ==> 0 < id <= w.currentId)
    && (forall id :: Present(w.clients, id) <==> (id in w.returned || id in w.stranded) && id !in w.freed)
  }

  ghost predicate TimedLast(w: World) {
    && (forall i :: 0 <= i < |w.sends| ==> 0 < w.sends[i].id <= w.currentId)
    && (forall i, j :: 0 <= i < j < |w.sends| && w.sends[i].id == w.sends[j].id ==> !w.sends[i].timed)
    && (forall i :: 0 <= i < |w.sends| && w.sends[i].timed ==> w.sends[i].id in w.freed)
    && (forall id :: id in w.freed ==> Send(id, true) in w.sends)
  }

  lemma PushOrdered(w: World, handle: nat)
    requires Ordered(w) && handle != 0 && Find(w.clients, handle) == None
    ensures Ordered(Push(w, handle))
    ensures var v := Push(w, handle);
      && Find(v.clients, handle) == Some(|v.clients| - 1)
      && (forall k :: Present(v.clients, k) <==> Present(w.clients, k) || k == w.currentId + 1)
  {
    FindIsFirst(w.clients, handle);
    var v := Push(w, handle);
    var last := |v.clients| - 1;
    assert v.clients[last] == Container(handle, w.currentId + 1);
    FindIsFirst(v.clients, handle);
    forall k
      ensures Present(v.clients, k) <==> Present(w.clients, k) || k == w.currentId + 1
    {
      if Present(w.clients, k) {
        var i :| 1 <= i < |w.clients| && w.clients[i].Container? && w.clients[i].id == k;
        assert v.clients[i] == w.clients[i];
      }
      if Present(v.clients, k) && k != w.currentId + 1 {
        var i :| 1 <= i < |v.clients| && v.clients[i].Container? && v.clients[i].id == k;
        assert w.clients[i] == v.clients[i];
      }
    }
  }

  lemma EraseOrdered(w: World, i: nat)
    requires Ordered(w) && 1 <= i < |w.clients|
    ensures Ordered(FreeAt(w, i))
    ensures forall k :: Present(FreeAt(w, i).clients, k) <==> Present(w.clients, k) && k != w.clients[i].id
  {
    var v := FreeAt(w, i);
    forall j | 1 <= j < |v.clients|
      ensures v.clients[j] == w.clients[if j < i then j else j + 1]
    {
    }
    forall k
      ensures Present(v.clients, k) <==> Present(w.clients, k) && k != w.clients[i].id
    {
      if Present(w.clients, k) && k != w.clients[i].id {
        var j :| 1 <= j < |w.clients| && w.clients[j].Container? && w.clients[j].id == k;
        assert v.clients[if j < i then j else j - 1] == w.clients[j];
      }
    }
  }

  lemma UntimedKeeps(w: World, id: nat)
    requires TimedLast(w) && 0 < id <= w.currentId && id !in w.freed
    ensures TimedLast(Untimed(w, id))
  {
  }

  lemma FreeTimedLast(w: World, i: nat)
    requires TimedLast(w) && i < |w.clients| && w.clients[i].Container?
    requires 0 < w.clients[i].id <= w.currentId && w.clients[i].id !in w.freed
    ensures TimedLast(FreeAt(w, i))
  {
    var v := FreeAt(w, i);
    forall id | id in v.freed
      ensures Send(id, true) in v.sends
    {
      if id == w.clients[i].id { assert v.sends[|w.sends|] == Send(id, true); }
    }
  }

  ghost predicate Kept(w: World) { Ordered(w) && Accounted(w) && TimedLast(w) }

  lemma PushTimed(w: World, handle: nat)
    requires TimedLast(w)
    ensures TimedLast(Push(w, handle))
  {
  }

  lemma RequestKeeps(w: World, id: nat, fits: bool)
    requires Ordered(w) && TimedLast(w) && 0 < id <= w.currentId && id !in w.freed
    ensures Ordered(Request(w, id, fits)) && TimedLast(Request(w, id, fits))
  {
    UntimedKeeps(w, id);
  }

  // A new instance is accounted for, returned or stranded.
  lemma NewAccounted(w: World, v: World)
    requires Accounted(w) && v.currentId == w.currentId + 1 && v.freed == w.freed
    requires v.returned + v.stranded == w.returned + w.stranded + {v.currentId}
    requires forall k :: Present(v.clients, k) <==> Present(w.clients, k) || k == v.currentId
    ensures Accounted(v)
  {
    forall id
      ensures id in v.returned || id in v.stranded <==> id in w.returned || id in w.stranded || id == v.currentId
    {
      assert id in v.returned + v.stranded <==> id in w.returned + w.stranded + {v.currentId};
    }
  }

  lemma StrandKeeps(w: World, handle: nat)
    requires Kept(w) && handle != 0 && Find(w.clients, handle) == None
    ensures Kept(Perform(w, Instantiate(handle, false, false, false)))
  {
    PushOrdered(w, handle);
    PushTimed(w, handle);
    NewAccounted(w, Perform(w, Instantiate(handle, false, false, false)));
  }

  // An instance that came and went is accounted for.
  lemma RejectAccounted(w: World, v: World)
    requires Accounted(w) && v.currentId == w.currentId + 1
    requires v.returned == w.returned && v.stranded == w.stranded && v.freed == w.freed + {v.currentId}
    requires forall k :: Present(v.clients, k) <==> (Present(w.clients, k) || k == v.currentId) && k != v.currentId
    ensures Accounted(v)
  {
  }

  // w with a new container at the end, its request sent or not.
  ghost predicate Called(w: World, called: World) {
    && Ordered(called) && TimedLast(called) && |called.clients| >= 2
    && called.currentId == w.currentId + 1 && called.clients[|called.clients| - 1].id == called.currentId
    && called.returned == w.returned && called.stranded == w.stranded && called.freed == w.freed
    && forall k :: Present(called.clients, k) <==> Present(w.clients, k) || k == called.currentId
  }

  lemma RequestIsCalled(w: World, handle: nat, fits: bool)
    requires Kept(w) && handle != 0 && Find(w.clients, handle) == None
    ensures Called(w, Request(Push(w, handle), w.currentId + 1, fits))
  {
    PushOrdered(w, handle);
    PushTimed(w, handle);
    RequestKeeps(Push(w, handle), w.currentId + 1, fits);
  }

  lemma FreeingCalledKeeps(w: World, called: World)
    requires Kept(w) && Called(w, called)
    ensures Kept(FreeAt(called, |called.clients| - 1))
  {
    var last := |called.clients| - 1;
    EraseOrdered(called, last);
    FreeTimedLast(called, last);
    RejectAccounted(w, FreeAt(called, last));
  }

  lemma ReturningCalledKeeps(w: World, called: World)
    requires Kept(w) && Called(w, called)
    ensures Kept(called.(returned := w.returned + {called.currentId}))
  {
    NewAccounted(w, called.(returned := w.returned + {called.currentId}));
  }

  lemma AcceptKeeps(w: World, handle: nat)
    requires Kept(w) && handle != 0 && Find(w.clients, handle) == None
    ensures Kept(Perform(w, Instantiate(handle, true, true, true)))
  {
    RequestIsCalled(w, handle, true);
    var called := Request(Push(w, handle), w.currentId + 1, true);
    ReturningCalledKeeps(w, called);
    assert Perform(w, Instantiate(handle, true, true, true)) == called.(returned := w.returned + {w.currentId + 1});
  }

  // A refused instantiate frees the container it pushed.
  lemma RejectFreesLast(w: World, handle: nat, fits: bool)
    requires Ordered(w) && handle != 0 && Find(w.clients, handle) == None
    ensures var called := Request(Push(w, handle), w.currentId + 1, fits);
      && |called.clients| >= 2 && called.clients[|called.clients| - 1].Container?
      && Perform(w, Instantiate(handle, true, fits, false)) == FreeAt(called, |called.clients| - 1)
  {
    PushOrdered(w, handle);
  }

  lemma RejectKeeps(w: World, handle: nat, fits: bool)
    requires Kept(w) && handle != 0 && Find(w.clients, handle) == None
    ensures Kept(Perform(w, Instantiate(handle, true, fits, false)))
  {
    RequestIsCalled(w, handle, fits);
    FreeingCalledKeeps(w, Request(Push(w, handle), w.currentId + 1, fits));
    RejectFreesLast(w, handle, fits);
  }

  lemma FreeKeeps(w: World, c: nat)
    requires Kept(w)
    ensures Kept(Perform(w, Free(c)))
  {
    FindIsFirst(w.clients, c);
    if Find(w.clients, c).Some? {
      var i := Find(w.clients, c).value;
      assert Present(w.clients, w.clients[i].id);
      EraseOrdered(w, i);
      FreeTimedLast(w, i);
    }
  }

  lemma ApiKeeps(w: World, c: nat, fits: bool)
    requires Kept(w)
    ensures Kept(Perform(w, Api(c, fits)))
  {
    FindIsFirst(w.clients, c);
    if Find(w.clients, c).Some? {
      var i := Find(w.clients, c).value;
      assert Present(w.clients, w.clients[i].id);
      UntimedKeeps(w, w.clients[i].id);
    }
  }

  /** After any history of API calls: the registry is the dummy followed by distinct
      containers with increasing ids; they are exactly the instances returned to the caller
      or stranded by a failed `initialize`, less the freed ones; and on every channel only
      the last send can be timed, which happens exactly when the instance was freed. */
  lemma {:induction false} RegistryInvariant(ops: seq<Op>)
    requires Lawful(ops)
    ensures var w := History(ops); Ordered(w) && Accounted(w) && TimedLast(w)
  {
    if ops != [] {
      var before := ops[..|ops| - 1];
      RegistryInvariant(before);
      match ops[|ops| - 1]
      case Instantiate(handle, created, fits, accepted) =>
        var w := History(before);
        if !created {
          StrandKeeps(w, handle);
          assert Perform(w, ops[|ops| - 1]) == Perform(w, Instantiate(handle, false, false, false));
        } else if fits && accepted {
          AcceptKeeps(w, handle);
        } else {
          RejectKeeps(w, handle, fits);
          assert Perform(w, ops[|ops| - 1]) == Perform(w, Instantiate(handle, true, fits, false));
        }
      case Free(c) => FreeKeeps(History(before), c);
      case Api(c, fits) => ApiKeeps(History(before), c, fits);
    }
  }

  // -------------------------------------------------------- teardown, channel by channel

  function OnChannel(sends: seq<Send>, id: nat): seq<bool> {
    if sends == [] then []
    else
      var last := sends[|sends| - 1];
      OnChannel(sends[..|sends| - 1], id) + if last.id == id then [last.timed] else []
  }

  lemma {:induction false} OnChannelTimed(sends: seq<Send>, id: nat)
    ensures true in OnChannel(sends, id) <==> Send(id, true) in sends
  {
    if sends != [] {
      var last := |sends| - 1;
      OnChannelTimed(sends[..last], id);
      assert sends == sends[..last] + [sends[last]];
    }
  }

  lemma {:induction false} OnChannelLast(sends: seq<Send>, id: nat)
    requires forall i, j :: 0 <= i < j < |sends| && sends[i].id == sends[j].id ==> !sends[i].timed
    ensures var c := OnChannel(sends, id); forall k :: 0 <= k < |c| - 1 ==> !c[k]
  {
    if sends != [] {
      var last := |sends| - 1;
      var front := sends[..last];
      OnChannelLast(front, id);
      OnChannelTimed(front, id);
      if sends[last].id == id {
        assert Send(id, true) !in front by {
          forall i | 0 <= i < |front|
            ensures front[i] != Send(id, true)
          {
            assert front[i] == sends[i];
          }
        }
      }
    }
  }

  // All sends but the last are untimed; the last is timed exactly when the instance was freed.
  predicate OnlyLastTimed(flags: seq<bool>, freed: bool) {
    && (forall k :: 0 <= k < |flags| - 1 ==> !flags[k])
    && (flags != [] && flags[|flags| - 1] <==> freed)
  }

  lemma OnChannelOnlyLast(sends: seq<Send>, id: nat, freed: bool)
    requires forall i, j :: 0 <= i < j < |sends| && sends[i].id == sends[j].id ==> !sends[i].timed
    requires Send(id, true) in sends <==> freed
    ensures OnlyLastTimed(OnChannel(sends, id), freed)
  {
    OnChannelLast(sends, id);
    OnChannelTimed(sends, id);
  }

  /** Desynchronisation is confined to teardown: the sends on a channel are untimed, except
      possibly the last, which is timed exactly when the instance was freed.  This is the
      hypothesis of the rendezvous' teardown lemma. */
  lemma TimedSendIsLast(ops: seq<Op>, id: nat)
    requires Lawful(ops)
    ensures OnlyLastTimed(OnChannel(History(ops).sends, id), id in History(ops).freed)
  {
    RegistryInvariant(ops);
    OnChannelOnlyLast(History(ops).sends, id, id in History(ops).freed);
  }

  // ---------------------------------------------------------------------- handles

  // c is no container's address.
  ghost predicate Unknown(clients: seq<Entry>, c: nat) {
    forall j :: 0 <= j < |clients| ==> clients[j].Container? ==> clients[j].handle != c
  }

  lemma UnknownIffNotFound(clients: seq<Entry>, c: nat)
    ensures Find(clients, c) == None <==> Unknown(clients, c)
  {
    FindIsFirst(clients, c);
  }

  // Erasing the container at h makes h unknown and leaves every other address as it was.
  lemma FreeForgets(w: World, h: nat, c: nat)
    requires Ordered(w)
    ensures Unknown(FreeHandle(w, h).clients, c) <==> c == h || Unknown(w.clients, c)
  {
    FindIsFirst(w.clients, h);
    if Find(w.clients, h).Some? {
      var i, v := Find(w.clients, h).value, FreeHandle(w, h);
      forall j | 0 <= j < |w.clients| && j != i
        ensures v.clients[if j < i then j else j - 1] == w.clients[j]
      {
      }
    }
  }

  lemma PushKnows(w: World, h: nat, c: nat)
    ensures Unknown(Push(w, h).clients, c) <==> c != h && Unknown(w.clients, c)
  {
    var v := Push(w, h);
    var last := |v.clients| - 1;
    assert v.clients[last] == Container(h, w.currentId + 1);
    assert w.clients != [] ==> v.clients[..last] == w.clients;
    forall j | 0 <= j < |w.clients|
      ensures v.clients[j] == w.clients[j]
    {
    }
  }

  // What one call does to an address: Some(true) makes it known, Some(false) unknown.
  function Effect(op: Op, c: nat): Option<bool> {
    match op
    case Instantiate(handle, created, fits, accepted) =>
      if handle == c then Some(!created || (fits && accepted)) else None
    case Free(component) => if component == c then Some(false) else None
    case Api(_, _) => None
  }

  lemma RequestOrdered(w: World, id: nat, fits: bool)
    requires Ordered(w)
    ensures Ordered(Request(w, id, fits)) && Request(w, id, fits).clients == w.clients
  {
  }

  lemma RefusedForgets(w: World, handle: nat, fits: bool, c: nat)
    requires Ordered(w) && handle != 0 && Find(w.clients, handle) == None
    ensures Unknown(FreeHandle(Request(Push(w, handle), w.currentId + 1, fits), handle).clients, c)
      <==> Unknown(w.clients, c)
  {
    PushOrdered(w, handle);
    PushKnows(w, handle, c);
    RequestOrdered(Push(w, handle), w.currentId + 1, fits);
    FreeForgets(Request(Push(w, handle), w.currentId + 1, fits), handle, c);
    UnknownIffNotFound(w.clients, handle);
  }

  lemma InstantiateIsExact(w: World, op: Op, c: nat)
    requires op.Instantiate? && Ordered(w) && Allocated(w, op)
    ensures Unknown(Perform(w, op).clients, c) <==>
      if op.handle != c then Unknown(w.clients, c) else op.created && !(op.fits && op.accepted)
  {
    UnknownIffNotFound(w.clients, op.handle);
    if op.created && !(op.fits && op.accepted) {
      RefusedForgets(w, op.handle, op.fits, c);
    } else {
      PushKnows(w, op.handle, c);
      assert Perform(w, op).clients == Push(w, op.handle).clients;
    }
  }

  lemma EffectIsExact(w: World, op: Op, c: nat)
    requires Ordered(w) && Allocated(w, op)
    ensures Find(Perform(w, op).clients, c).Some? <==>
      match Effect(op, c) case Some(known) => known case None => Find(w.clients, c).Some?
  {
    UnknownIffNotFound(w.clients, c);
    UnknownIffNotFound(Perform(w, op).clients, c);
    match op
    case Instantiate(_, _, _, _) => InstantiateIsExact(w, op, c);
    case Free(h) => FreeForgets(w, h, c);
    case Api(_, _) =>
  }

  // The last call that concerns address c left a container there.
  predicate Live(ops: seq<Op>, c: nat) {
    ops != [] &&
    match Effect(ops[|ops| - 1], c)
    case Some(known) => known
    case None => Live(ops[..|ops| - 1], c)
  }

  /** When a handle is known: after any history, exactly if the last instantiate or free at its
      address was an instantiate that was not refused (it succeeded, or it failed to initialize
      and left its container behind). */
  lemma {:induction false} HandleIsKnownIffLive(ops: seq<Op>, c: nat)
    requires Lawful(ops)
    ensures Find(History(ops).clients, c).Some? <==> Live(ops, c)
  {
    if ops != [] {
      var before := ops[..|ops| - 1];
      HandleIsKnownIffLive(before, c);
      RegistryInvariant(before);
      EffectIsExact(History(before), ops[|ops| - 1], c);
    }
  }

  lemma {:induction false} LiveSince(ops: seq<Op>, c: nat, later: seq<Op>)
    ensures Live(ops + [Free(c)] + later, c) <==> Live(later, c)
  {
    var all := ops + [Free(c)] + later;
    if later != [] {
      assert all[..|all| - 1] == ops + [Free(c)] + later[..|later| - 1];
      LiveSince(ops, c, later[..|later| - 1]);
    }
  }

  lemma {:induction false} LiveNeedsInstantiate(ops: seq<Op>, c: nat)
    requires Live(ops, c)
    ensures exists k :: 0 <= k < |ops| && ops[k].Instantiate? && ops[k].handle == c && Effect(ops[k], c) == Some(true)
  {
    if Effect(ops[|ops| - 1], c) == None { LiveNeedsInstantiate(ops[..|ops| - 1], c); }
  }

  /** A freed handle comes back to life exactly if a later instantiate is given its address, is
      not refused, and is not freed in turn; with none at the address but refused ones, it
      stays dead. */
  lemma FreedHandleRevives(ops: seq<Op>, c: nat, later: seq<Op>)
    requires Lawful(ops + [Free(c)] + later)
    ensures Find(History(ops + [Free(c)] + later).clients, c).Some? <==> Live(later, c)
    ensures (forall k :: 0 <= k < |later| && later[k].Instantiate? && later[k].handle == c ==>
              later[k].created && !(later[k].fits && later[k].accepted)) ==> !Live(later, c)
  {
    HandleIsKnownIffLive(ops + [Free(c)] + later, c);
    LiveSince(ops, c, later);
    if Live(later, c) { LiveNeedsInstantiate(later, c); }
  }

  // -------------------------------------------------------------- what each channel carries

  // Instances created so far; the next one gets the next number as its id.
  function Created(ops: seq<Op>): nat {
    if ops == [] then 0
    else Created(ops[..|ops| - 1]) + if ops[|ops| - 1].Instantiate? then 1 else 0
  }

  /** The instance that lives at address c after the calls: the one last created there, unless it
      was refused or has been freed. */
  function Owner(ops: seq<Op>, c: nat): Option<nat> {
    if ops == [] then None
    else
      match Effect(ops[|ops| - 1], c)
      case Some(known) => if known then Some(Created(ops)) else None
      case None => Owner(ops[..|ops| - 1], c)
  }

  // The sends the last call of `ops` makes on channel `id`: an instantiate that gets as far and
  // fits sends one, a refused one frees the instance; an API call that fits sends one to the
  // instance living at its address; a free frees that instance with a timed send.
  function SendsOf(ops: seq<Op>, id: nat): seq<bool>
    requires ops != []
  {
    var front := ops[..|ops| - 1];
    match ops[|ops| - 1]
    case Instantiate(_, created, fits, accepted) =>
      if !created || Created(ops) != id then []
      else (if fits then [false] else []) + (if fits && accepted then [] else [true])
    case Api(c, fits) => if fits && Owner(front, c) == Some(id) then [false] else []
    case Free(c) => if Owner(front, c) == Some(id) then [true] else []
  }

  function Traffic(ops: seq<Op>, id: nat): seq<bool> {
    if ops == [] then [] else Traffic(ops[..|ops| - 1], id) + SendsOf(ops, id)
  }

  // The container at an address, by its id.
  function IdAt(clients: seq<Entry>, c: nat): Option<nat> {
    FindIsFirst(clients, c);
    match Find(clients, c) case Some(i) => Some(clients[i].id) case None => None
  }

  lemma {:induction false} FindOnly(w: World, c: nat, i: nat)
    requires Ordered(w) && i < |w.clients| && w.clients[i].Container? && w.clients[i].handle == c
    ensures Find(w.clients, c) == Some(i) && IdAt(w.clients, c) == Some(w.clients[i].id)
  {
    FindIsFirst(w.clients, c);
  }

  lemma {:induction false} FreeIds(w: World, h: nat, c: nat)
    requires Ordered(w)
    ensures IdAt(FreeHandle(w, h).clients, c) == if c == h then None else IdAt(w.clients, c)
  {
    FreeForgets(w, h, c);
    UnknownIffNotFound(w.clients, c);
    UnknownIffNotFound(FreeHandle(w, h).clients, c);
    FindIsFirst(w.clients, h);
    FindIsFirst(w.clients, c);
    if c != h && Find(w.clients, c).Some? && Find(w.clients, h).Some? {
      var i, j := Find(w.clients, h).value, Find(w.clients, c).value;
      EraseOrdered(w, i);
      FindOnly(FreeHandle(w, h), c, if j < i then j else j - 1);
    }
  }

  lemma {:induction false} PushIds(w: World, h: nat, c: nat)
    requires Ordered(w) && h != 0 && Find(w.clients, h) == None
    ensures IdAt(Push(w, h).clients, c) == if c == h then Some(w.currentId + 1) else IdAt(w.clients, c)
  {
    PushOrdered(w, h);
    PushKnows(w, h, c);
    UnknownIffNotFound(w.clients, c);
    UnknownIffNotFound(Push(w, h).clients, c);
    FindIsFirst(w.clients, c);
    var v := Push(w, h);
    if c == h {
      FindOnly(v, c, |v.clients| - 1);
    } else if Find(w.clients, c).Some? {
      FindOnly(v, c, Find(w.clients, c).value);
    }
  }

  // A call changes who lives at an address as Effect says.
  lemma {:induction false} EffectOnIds(w: World, op: Op, c: nat)
    requires Ordered(w) && Allocated(w, op)
    ensures IdAt(Perform(w, op).clients, c) ==
      match Effect(op, c)
      case Some(known) => if known then Some(w.currentId + 1) else None
      case None => IdAt(w.clients, c)
  {
    match op
    case Instantiate(handle, created, fits, accepted) =>
      PushIds(w, handle, c);
      PushOrdered(w, handle);
      var called := Request(Push(w, handle), w.currentId + 1, fits);
      RequestOrdered(Push(w, handle), w.currentId + 1, fits);
      FreeIds(called, handle, c);
    case Free(h) => FreeIds(w, h, c);
    case Api(_, _) =>
  }

  // The sends of an instantiate that got as far: its request, and the freeing of a refused one.
  function InstantiateSends(n: nat, fits: bool, accepted: bool): seq<Send> {
    (if fits then [Send(n, false)] else []) + (if fits && accepted then [] else [Send(n, true)])
  }

  // The sends a call adds to the world.
  function Added(w: World, op: Op): seq<Send> {
    match op
    case Instantiate(_, created, fits, accepted) =>
      if created then InstantiateSends(w.currentId + 1, fits, accepted) else []
    case Api(c, fits) => if fits && IdAt(w.clients, c).Some? then [Send(IdAt(w.clients, c).value, false)] else []
    case Free(c) => if IdAt(w.clients, c).Some? then [Send(IdAt(w.clients, c).value, true)] else []
  }

  lemma {:induction false} LastPushed(w: World, handle: nat, fits: bool)
    ensures var called := Request(Push(w, handle), w.currentId + 1, fits);
      && called.clients != [] && called.clients[|called.clients| - 1] == Container(handle, w.currentId + 1)
      && called.currentId == w.currentId + 1
      && called.sends == w.sends + if fits then [Send(w.currentId + 1, false)] else []
  {
    if !fits { assert w.sends + [] == w.sends; }
  }

  lemma {:induction false} FreeAtSends(w: World, i: nat, id: nat)
    requires i < |w.clients| && w.clients[i].Container? && w.clients[i].id == id
    ensures FreeAt(w, i).sends == w.sends + [Send(id, true)] && FreeAt(w, i).currentId == w.currentId
  {
  }

  lemma {:induction false} RefusedSends(w: World, handle: nat, fits: bool)
    requires Ordered(w) && handle != 0 && Find(w.clients, handle) == None
    ensures var v := Perform(w, Instantiate(handle, true, fits, false));
      v.currentId == w.currentId + 1 && v.sends == w.sends + InstantiateSends(w.currentId + 1, fits, false)
  {
    RejectFreesLast(w, handle, fits);
    LastPushed(w, handle, fits);
    var called, n := Request(Push(w, handle), w.currentId + 1, fits), w.currentId + 1;
    FreeAtSends(called, |called.clients| - 1, n);
    var first := if fits then [Send(n, false)] else [];
    assert w.sends + first + [Send(n, true)] == w.sends + (first + [Send(n, true)]);
  }

  lemma {:induction false} PerformSends(w: World, op: Op)
    requires Ordered(w) && Allocated(w, op)
    ensures Perform(w, op).currentId == w.currentId + if op.Instantiate? then 1 else 0
    ensures Perform(w, op).sends == w.sends + Added(w, op)
  {
    match op
    case Instantiate(handle, created, fits, accepted) =>
      if created && !(fits && accepted) {
        RefusedSends(w, handle, fits);
        assert Perform(w, op) == Perform(w, Instantiate(handle, true, fits, false));
        assert InstantiateSends(w.currentId + 1, fits, accepted) == InstantiateSends(w.currentId + 1, fits, false);
      } else {
        assert created ==> InstantiateSends(w.currentId + 1, fits, accepted) == [Send(w.currentId + 1, false)];
      }
    case Api(_, _) =>
    case Free(_) =>
  }

  lemma {:induction false} OnChannelSnoc(sends: seq<Send>, send: Send, id: nat)
    ensures OnChannel(sends + [send], id) == OnChannel(sends, id) + if send.id == id then [send.timed] else []
  {
    assert (sends + [send])[..|sends|] == sends;
  }

  lemma {:induction false} OnChannelTwo(sends: seq<Send>, a: Send, b: Send, id: nat)
    ensures OnChannel(sends + [a, b], id) == OnChannel(sends, id)
      + (if a.id == id then [a.timed] else []) + (if b.id == id then [b.timed] else [])
  {
    OnChannelSnoc(sends, a, id);
    OnChannelSnoc(sends + [a], b, id);
    assert sends + [a, b] == sends + [a] + [b];
  }

  // World and calls agree on the number of instances and on who lives where.
  ghost predicate Agrees(ops: seq<Op>, w: World) {
    && w.currentId == Created(ops)
    && forall c :: IdAt(w.clients, c) == Owner(ops, c)
  }

  lemma {:induction false} AgreesPerform(ops: seq<Op>, w: World)
    requires ops != [] && Ordered(w) && Allocated(w, ops[|ops| - 1]) && Agrees(ops[..|ops| - 1], w)
    ensures Agrees(ops, Perform(w, ops[|ops| - 1]))
  {
    var op := ops[|ops| - 1];
    PerformSends(w, op);
    forall c
      ensures IdAt(Perform(w, op).clients, c) == Owner(ops, c)
    {
      EffectOnIds(w, op, c);
    }
  }

  lemma {:induction false} ChannelPerform(ops: seq<Op>, w: World, id: nat)
    requires ops != [] && Ordered(w) && Allocated(w, ops[|ops| - 1]) && Agrees(ops[..|ops| - 1], w)
    ensures OnChannel(Perform(w, ops[|ops| - 1]).sends, id) == OnChannel(w.sends, id) + SendsOf(ops, id)
  {
    var op := ops[|ops| - 1];
    PerformSends(w, op);
    match op
    case Instantiate(_, created, fits, accepted) =>
      InstantiateTraffic(w.sends, w.currentId + 1, fits, accepted, id);
      if !created { assert w.sends + [] == w.sends; }
    case Api(c, fits) => OneSend(w, fits && IdAt(w.clients, c).Some?, IdAt(w.clients, c), false, id);
    case Free(c) => OneSend(w, IdAt(w.clients, c).Some?, IdAt(w.clients, c), true, id);
  }

  lemma {:induction false} OneSend(w: World, sends: bool, to: Option<nat>, timed: bool, id: nat)
    requires sends ==> to.Some?
    ensures OnChannel(w.sends + (if sends then [Send(to.value, timed)] else []), id)
         == OnChannel(w.sends, id) + (if sends && to == Some(id) then [timed] else [])
  {
    if sends { OnChannelSnoc(w.sends, Send(to.value, timed), id); } else { assert w.sends + [] == w.sends; }
  }

  lemma {:induction false} InstantiateTraffic(sends: seq<Send>, n: nat, fits: bool, accepted: bool, id: nat)
    ensures OnChannel(sends + InstantiateSends(n, fits, accepted), id) == OnChannel(sends, id) +
      if n != id then [] else (if fits then [false] else []) + (if fits && accepted then [] else [true])
  {
    if !fits {
      OnChannelSnoc(sends, Send(n, true), id);
      assert InstantiateSends(n, fits, accepted) == [Send(n, true)];
    } else if accepted {
      OnChannelSnoc(sends, Send(n, false), id);
      assert InstantiateSends(n, fits, accepted) == [Send(n, false)];
    } else {
      OnChannelTwo(sends, Send(n, false), Send(n, true), id);
      assert InstantiateSends(n, fits, accepted) == [Send(n, false), Send(n, true)];
    }
  }

  lemma {:induction false} HistoryAgrees(ops: seq<Op>, id: nat)
    requires Lawful(ops)
    ensures Agrees(ops, History(ops)) && OnChannel(History(ops).sends, id) == Traffic(ops, id)
  {
    if ops != [] {
      var front := ops[..|ops| - 1];
      HistoryAgrees(front, id);
      RegistryInvariant(front);
      AgreesPerform(ops, History(front));
      ChannelPerform(ops, History(front), id);
    }
  }

  // The calls that send an untimed message on channel `id`.
  function Calls(ops: seq<Op>, id: nat): nat {
    if ops == [] then 0
    else
      var front, op := ops[..|ops| - 1], ops[|ops| - 1];
      Calls(front, id) +
        if || (op.Instantiate? && op.created && op.fits && Created(ops) == id)
           || (op.Api? && op.fits && Owner(front, op.component) == Some(id))
        then 1 else 0
  }

  // Instance `id` was refused, or freed while it lived.
  predicate IsFreed(ops: seq<Op>, id: nat) {
    ops != [] &&
    var front, op := ops[..|ops| - 1], ops[|ops| - 1];
    || IsFreed(front, id)
    || (op.Instantiate? && op.created && !(op.fits && op.accepted) && Created(ops) == id)
    || (op.Free? && Owner(front, op.component) == Some(id))
  }

  // How many of the flags are b.
  function Count(flags: seq<bool>, b: bool): nat {
    if flags == [] then 0 else Count(flags[..|flags| - 1], b) + if flags[|flags| - 1] == b then 1 else 0
  }

  lemma {:induction false} CountConcat(a: seq<bool>, c: seq<bool>, b: bool)
    ensures Count(a + c, b) == Count(a, b) + Count(c, b)
  {
    if c == [] {
      assert a + c == a;
    } else {
      CountConcat(a, c[..|c| - 1], b);
      assert (a + c)[..|a + c| - 1] == a + c[..|c| - 1];
    }
  }

  lemma {:induction false} CountSplits(flags: seq<bool>)
    ensures |flags| == Count(flags, false) + Count(flags, true)
    ensures true in flags <==> Count(flags, true) > 0
  {
    if flags != [] {
      CountSplits(flags[..|flags| - 1]);
      assert flags == flags[..|flags| - 1] + [flags[|flags| - 1]];
    }
  }

  lemma {:induction false} TrafficCounts(ops: seq<Op>, id: nat)
    ensures Count(Traffic(ops, id), false) == Calls(ops, id)
    ensures Count(Traffic(ops, id), true) > 0 <==> IsFreed(ops, id)
  {
    if ops != [] {
      var front := ops[..|ops| - 1];
      TrafficCounts(front, id);
      CountConcat(Traffic(front, id), SendsOf(ops, id), false);
      CountConcat(Traffic(front, id), SendsOf(ops, id), true);
      CountSends(ops, id);
    }
  }

  lemma {:induction false} CountSends(ops: seq<Op>, id: nat)
    requires ops != []
    ensures Calls(ops, id) == Calls(ops[..|ops| - 1], id) + Count(SendsOf(ops, id), false)
    ensures IsFreed(ops, id) <==> IsFreed(ops[..|ops| - 1], id) || Count(SendsOf(ops, id), true) > 0
  {
    FewSends(ops, id);
    CountFew(SendsOf(ops, id));
  }

  lemma {:induction false} FewSends(ops: seq<Op>, id: nat)
    requires ops != []
    ensures var flags := SendsOf(ops, id); flags == [] || flags == [false] || flags == [true] || flags == [false, true]
  {
  }

  lemma {:induction false} CountFew(flags: seq<bool>)
    requires flags == [] || flags == [false] || flags == [true] || flags == [false, true]
    ensures Count(flags, false) == (if flags == [] || flags == [true] then 0 else 1)
    ensures Count(flags, true) == (if flags == [] || flags == [false] then 0 else 1)
  {
    assert [false][..0] == [] && [true][..0] == [] && [false, true][..1] == [false];
  }

  lemma {:induction false} OneTimedAtMost(flags: seq<bool>)
    requires forall k :: 0 <= k < |flags| - 1 ==> !flags[k]
    ensures Count(flags, true) <= 1
  {
    if flags != [] {
      var front := flags[..|flags| - 1];
      CountSplits(front);
    }
  }

  /** What is sent: after any history, channel `id` has carried one untimed message for each
      instantiate and API call that fitted and was made at the address of the instance while
      it lived, and one timed message more exactly if the instance was refused or freed. */
  lemma MessagesAreCalls(ops: seq<Op>, id: nat)
    requires Lawful(ops)
    ensures var flags := OnChannel(History(ops).sends, id);
      && |flags| == Calls(ops, id) + (if IsFreed(ops, id) then 1 else 0)
      && Count(flags, false) == Calls(ops, id)
    ensures IsFreed(ops, id) <==> id in History(ops).freed
  {
    HistoryAgrees(ops, id);
    TrafficCounts(ops, id);
    TimedSendIsLast(ops, id);
    TimedEnd(Traffic(ops, id), id in History(ops).freed);
  }

  lemma {:induction false} TimedEnd(flags: seq<bool>, freed: bool)
    requires OnlyLastTimed(flags, freed)
    ensures |flags| == Count(flags, false) + (if freed then 1 else 0)
    ensures Count(flags, true) > 0 <==> freed
  {
    CountSplits(flags);
    OneTimedAtMost(flags);
  }

  // The call that created instance `id`.
  function Creation(ops: seq<Op>, id: nat): Option<Op> {
    if ops == [] then None
    else if ops[|ops| - 1].Instantiate? && Created(ops) == id then Some(ops[|ops| - 1])
    else Creation(ops[..|ops| - 1], id)
  }

  /** Whose handle the caller has: exactly the instances whose instantiate succeeded; and those
      left behind are exactly the ones that failed to initialize. */
  lemma {:induction false} ReturnedIffCreated(ops: seq<Op>, id: nat)
    requires Lawful(ops)
    ensures History(ops).currentId == Created(ops)
    ensures Creation(ops, id).Some? ==> Creation(ops, id).value.Instantiate? && id <= Created(ops)
    ensures var made := Creation(ops, id);
      && (id in History(ops).returned <==> made.Some? && made.value.created && made.value.fits && made.value.accepted)
      && (id in History(ops).stranded <==> made.Some? && !made.value.created)
  {
    if ops != [] {
      var front := ops[..|ops| - 1];
      ReturnedIffCreated(front, id);
      RegistryInvariant(front);
      ReturnedPerform(History(front), ops[|ops| - 1]);
    }
  }

  lemma {:induction false} ReturnedPerform(w: World, op: Op)
    requires Ordered(w) && Allocated(w, op)
    ensures var v, n := Perform(w, op), w.currentId + 1;
      && v.currentId == w.currentId + (if op.Instantiate? then 1 else 0)
      && v.returned == w.returned + (if op.Instantiate? && op.created && op.fits && op.accepted then {n} else {})
      && v.stranded == w.stranded + (if op.Instantiate? && !op.created then {n} else {})
  {
    PerformSends(w, op);
  }

  /** A concrete history in which the allocator reuses the address and the stale handle names
      the new instance. */
  lemma ReusedAddressRevivesHandle(c: nat)
    requires c != 0
    ensures var new_ := Instantiate(c, true, true, true);
      var ops := [new_, Free(c), new_];
      && Lawful(ops)
      && History(ops).clients == [Dummy, Container(c, 2)]
      && Find(History(ops).clients, c) == Some(1)
  {
    var new_ := Instantiate(c, true, true, true);
    var one := [new_];
    var two := one + [Free(c)];
    var ops := two + [new_];
    assert one[..0] == [] && two[..1] == one && ops[..2] == two;
    var w1 := Perform(START, new_);
    assert History(one) == w1 && w1.clients == [Dummy, Container(c, 1)];
    assert Lawful([]) && History([]) == START && Allocated(START, new_);
    assert Lawful(one);
    FindIsFirst(w1.clients, c);
    var w2 := Perform(w1, Free(c));
    assert History(two) == w2 && w2.clients == [Dummy];
    assert Lawful(two);
    FindIsFirst(w2.clients, c);
    FindIsFirst(History(ops).clients, c);
    assert ops == [new_, Free(c), new_];
  }

  // ------------------------------------------------------------------ the registry, in place

  class Clients {
    var currentId: nat
    var clients: seq<Entry>
    var sends: seq<Send>
    ghost var returned: set<nat>
    ghost var stranded: set<nat>
    ghost var freed: set<nat>

    ghost function View(): World
      reads this
    {
      World(currentId, clients, sends, returned, stranded, freed)
    }

    constructor ()
      ensures View() == START
    {
      currentId, clients, sends, returned, stranded, freed := 0, [], [], {}, {}, {};
    }

    /** getFmuContainer: the position of the container at address c. */
    method Lookup(c: nat) returns (found: Option<nat>)
      ensures found == Find(clients, c)
    {
      for i := 0 to |clients|
        invariant Find(clients[..i], c) == None
      {
        assert clients[..i + 1][..i] == clients[..i];
        if clients[i].Container? && clients[i].handle == c {
          FirstHit(i, c);
          return Some(i);
        }
      }
      assert clients[..|clients|] == clients;
      found := None;
    }

    lemma FirstHit(i: nat, c: nat)
      requires i < |clients| && clients[i].Container? && clients[i].handle == c
      requires Find(clients[..i], c) == None
      ensures Find(clients, c) == Some(i)
    {
      FindIsFirst(clients[..i], c);
      FindIsFirst(clients, c);
      forall j | 0 <= j < i
        ensures clients[j] == clients[..i][j]
      {
      }
    }

    /** fmi2FreeInstance: the timed send, then the erase loop. */
    method FreeInstance(c: nat)
      modifies this
      ensures View() == Perform(old(View()), Free(c))
    {
      var found := Lookup(c);
      FindIsFirst(clients, c);
      match found {
        case None =>
        case Some(fmu) =>
          sends := sends + [Send(clients[fmu].id, true)];
          freed := freed + {clients[fmu].id};
          var it := 0;
          while it < |clients|
            invariant 0 <= it <= fmu
            invariant unchanged(this`clients)
          {
            if clients[it].Container? && clients[it].handle == c {
              break;
            }
            it := it + 1;
          }
          clients := clients[..it] + clients[it + 1..];
      }
    }

    /** fmi2Instantiate up to the registry's part in it; 0 is NULL. */
    method Instantiate(handle: nat, created: bool, fits: bool, accepted: bool) returns (component: nat)
      requires Allocated(View(), Op.Instantiate(handle, created, fits, accepted))
      modifies this
      ensures View() == Perform(old(View()), Op.Instantiate(handle, created, fits, accepted))
      ensures component == if created && fits && accepted then handle else 0
    {
      if |clients| == 0 {
        clients := clients + [Dummy];
      }
      currentId := currentId + 1;
      clients := clients + [Container(handle, currentId)];
      assert View() == Push(old(View()), handle);
      if !created {
        stranded := stranded + {currentId};
        return 0;
      }
      if fits {
        sends := sends + [Send(currentId, false)];
      }
      assert View() == Request(Push(old(View()), handle), currentId, fits);
      if fits && accepted {
        returned := returned + {currentId};
        return handle;
      }
      FreeInstance(handle);
      component := 0;
    }

    /** Every other API function: look up, then one untimed send if the handle is known and
        the request fits. */
    method Call(c: nat, fits: bool) returns (sent: bool)
      modifies this
      ensures View() == Perform(old(View()), Api(c, fits))
      ensures sent == (fits && Find(old(clients), c).Some?)
    {
      var found := Lookup(c);
      FindIsFirst(clients, c);
      match found {
        case None => sent := false;
        case Some(i) =>
          sent := fits;
          if fits {
            sends := sends + [Send(clients[i].id, false)];
          }
      }
    }

    /** fmuInternalDebugPrint: the container whose channel has the sender's id. */
    method DebugRoute(sender: nat) returns (found: Option<nat>)
      requires Ordered(View())
      ensures match found
        case None => !Present(clients, sender)
        case Some(i) =>
          && 1 <= i < |clients| && clients[i].Container? && clients[i].id == sender
          && forall j :: 1 <= j < |clients| && clients[j].id == sender ==> j == i
    {
      for i := 0 to |clients|
        invariant forall j :: 1 <= j < i ==> clients[j].id != sender
      {
        if clients[i].Container? && clients[i].id == sender {
          return Some(i);
        }
      }
      found := None;
    }
  }
}
