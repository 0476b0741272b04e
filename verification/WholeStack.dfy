/** Set and get calls through FmuProxy, the shared slot and the test driver, against the
    reference meaning of the calls made so far. */
module WholeStack {
  import opened Wrappers
  import opened RemoteCall
  import opened FmiValues
  import opened TestDriver

  function TestSetup(size: Payload -> nat, apis: seq<Api>): Setup<Arrays, Payload> {
    Setup(Driver<Arrays, Payload>.Driver(Blank(), Answer, true), size, Map(Marshal, apis))
  }

  // The calls that were small enough to be sent.
  function Accepted(size: Payload -> nat, apis: seq<Api>): seq<Api> {
    if apis == [] then []
    else
      var last := apis[|apis| - 1];
      Accepted(size, apis[..|apis| - 1]) +
        if size(Marshal(last).payload) > BUFFER_SIZE then [] else [last]
  }

  // What a get call reads: the last value written, except at the id the driver resets
  // before every message.
  function Seen<T>(writes: Api -> Writes<T>, initial: T, pin: nat, pinned: T, history: seq<Api>, refs: seq<nat>): (r: seq<T>)
    ensures |r| == |refs|
  {
    seq(|refs|, k requires 0 <= k < |refs| =>
      if refs[k] == pin then pinned else ValueOf(writes, initial, history, refs[k]))
  }

  /** The outcome of a call, from the history of accepted calls before it. */
  function Expected(history: seq<Api>, api: Api): Outcome {
    match api
    case GetReal(refs) => GotReals(OK, Seen(RealWrites, 0.0, REAL_ID, 9.9, history, refs))
    case GetInteger(refs) => GotIntegers(OK, Seen(IntegerWrites, 0, INTEGER_ID, 1, history, refs))
    case GetBoolean(refs) =>
      GotBooleans(OK, Map(ToBoolean, Seen(BooleanWrites, false, BOOLEAN_ID, true, history, refs)))
    case GetString(refs) =>
      GotStrings(OK, Seen<CString>(StringWrites, "", STRING_ID, "undefined", history, refs))
    case _ => Outcome(OK)
  }

  // ---------------------------------------------------------- arrays against histories

  lemma {:induction false} AssignMeaning<T>(a: seq<T>, refs: seq<nat>, vals: seq<T>, id: nat)
    requires |refs| <= |vals| && id < |a|
    ensures Assign(a, refs, vals)[id] ==
      match LastMention(refs, vals, id) case None => a[id] case Some(v) => v
  {
    if refs != [] {
      AssignMeaning(a, refs[..|refs| - 1], vals, id);
    }
  }

  // An array holds the value of every id but the pinned one.
  ghost predicate Holds<T(!new)>(a: seq<T>, writes: Api -> Writes<T>, initial: T, pin: nat, history: seq<Api>) {
    forall id: nat :: id < |a| && id != pin ==> a[id] == ValueOf(writes, initial, history, id)
  }

  lemma HoldsAfter<T(!new)>(a: seq<T>, writes: Api -> Writes<T>, initial: T, pin: nat, pinned: T, history: seq<Api>, api: Api)
    requires Holds(a, writes, initial, pin, history) && pin < |a|
    requires |writes(api).refs| == |writes(api).vals|
    ensures Holds(Assign(a[pin := pinned], writes(api).refs, writes(api).vals), writes, initial, pin, history + [api])
  {
    var b := a[pin := pinned];
    var w := writes(api);
    var h := history + [api];
    assert h[..|h| - 1] == history;
    forall id: nat | id < |a| && id != pin
      ensures Assign(b, w.refs, w.vals)[id] == ValueOf(writes, initial, h, id)
    {
      AssignMeaning(b, w.refs, w.vals, id);
    }
  }

  ghost predicate StoreHolds(s: Arrays, history: seq<Api>) {
    && Holds(s.reals, RealWrites, 0.0, REAL_ID, history)
    && Holds(s.integers, IntegerWrites, 0, INTEGER_ID, history)
    && Holds(s.booleans, BooleanWrites, false, BOOLEAN_ID, history)
    && Holds<CString>(s.strings, StringWrites, "", STRING_ID, history)
  }

  /** One message served keeps all four arrays in step with the history. */
  lemma ServeKeepsStore(s: Arrays, history: seq<Api>, api: Api)
    requires StoreHolds(s, history) && api.Proper(TD_SIZE)
    ensures StoreHolds(Answer(s, Marshal(api)).0, history + [api])
  {
    HoldsAfter(s.reals, RealWrites, 0.0, REAL_ID, 9.9, history, api);
    HoldsAfter(s.integers, IntegerWrites, 0, INTEGER_ID, 1, history, api);
    HoldsAfter(s.booleans, BooleanWrites, false, BOOLEAN_ID, true, history, api);
    HoldsAfter<CString>(s.strings, StringWrites, "", STRING_ID, "undefined", history, api);
    var t := Answer(s, Marshal(api)).0;
    var p := Pin(s);
    assert t.reals == Assign(p.reals, RealWrites(api).refs, RealWrites(api).vals);
    assert t.integers == Assign(p.integers, IntegerWrites(api).refs, IntegerWrites(api).vals);
    assert t.booleans == Assign(p.booleans, BooleanWrites(api).refs, BooleanWrites(api).vals);
    assert t.strings == Assign<CString>(p.strings, StringWrites(api).refs, StringWrites(api).vals);
  }

  lemma DirectStateStep(size: Payload -> nat, apis: seq<Api>, n: nat)
    requires 0 < n <= |apis|
    ensures var u := TestSetup(size, apis);
      var before := Accepted(size, apis[..n - 1]);
      if size(Marshal(apis[n - 1]).payload) > BUFFER_SIZE then
        DirectState(u, n) == DirectState(u, n - 1) && Accepted(size, apis[..n]) == before
      else
        && DirectState(u, n) == Answer(DirectState(u, n - 1), Marshal(apis[n - 1])).0
        && Accepted(size, apis[..n]) == before + [apis[n - 1]]
  {
    assert apis[..n][..n - 1] == apis[..n - 1];
    assert TestSetup(size, apis).calls[n - 1] == Marshal(apis[n - 1]);
  }

  lemma {:induction false} DirectStateHolds(size: Payload -> nat, apis: seq<Api>, n: nat)
    requires n <= |apis|
    requires forall i :: 0 <= i < |apis| ==> apis[i].Proper(TD_SIZE)
    ensures StoreHolds(DirectState(TestSetup(size, apis), n), Accepted(size, apis[..n]))
  {
    if n > 0 {
      DirectStateHolds(size, apis, n - 1);
      DirectStateStep(size, apis, n);
      if size(Marshal(apis[n - 1]).payload) <= BUFFER_SIZE {
        ServeKeepsStore(DirectState(TestSetup(size, apis), n - 1), Accepted(size, apis[..n - 1]), apis[n - 1]);
      }
    }
  }

  /** What the driver answers is what the history says. */
  lemma AnswerMeaning(s: Arrays, history: seq<Api>, api: Api)
    requires StoreHolds(s, history) && api.Proper(TD_SIZE)
    ensures Answer(s, Marshal(api)).1.Some?
    ensures Unmarshal(api, Answer(s, Marshal(api)).1) == Expected(history, api)
  {
    var p := Pin(s);
    match api {
      case GetReal(refs) =>
        assert Gather(p.reals, refs, 0.0) == Seen(RealWrites, 0.0, REAL_ID, 9.9, history, refs);
      case GetInteger(refs) =>
        assert Gather(p.integers, refs, 0) == Seen(IntegerWrites, 0, INTEGER_ID, 1, history, refs);
      case GetBoolean(refs) =>
        assert Gather(p.booleans, refs, false) == Seen(BooleanWrites, false, BOOLEAN_ID, true, history, refs);
      case GetString(refs) =>
        assert Gather<CString>(p.strings, refs, "") == Seen<CString>(StringWrites, "", STRING_ID, "undefined", history, refs);
      case _ =>
    }
  }

  lemma TestSetupAnswers(size: Payload -> nat, apis: seq<Api>)
    requires forall i :: 0 <= i < |apis| ==> apis[i].Proper(TD_SIZE)
    ensures Answered(TestSetup(size, apis))
  {
    var u := TestSetup(size, apis);
    forall n | 0 <= n < |u.calls| && !u.Oversize(u.calls[n])
      ensures DirectResult(u, n).Some?
    {
      DirectStateHolds(size, apis, n);
      AnswerMeaning(DirectState(u, n), Accepted(size, apis[..n]), apis[n]);
    }
  }

  // The result gives the caller of the i-th call what the history of accepted calls before it
  // says; that of an oversize call, fmi2Fatal and no data.
  predicate CallGives(size: Payload -> nat, apis: seq<Api>, i: nat, result: Option<Payload>)
    requires i < |apis|
  {
    var outcome := Unmarshal(apis[i], result);
    if size(Marshal(apis[i]).payload) > BUFFER_SIZE then result == None && Refused(outcome)
    else outcome == Expected(Accepted(size, apis[..i]), apis[i])
  }

  lemma DirectGives(size: Payload -> nat, apis: seq<Api>, i: nat)
    requires i < |apis| && forall k :: 0 <= k < |apis| ==> apis[k].Proper(TD_SIZE)
    ensures CallGives(size, apis, i, DirectResult(TestSetup(size, apis), i))
  {
    DirectStateHolds(size, apis, i);
    AnswerMeaning(DirectState(TestSetup(size, apis), i), Accepted(size, apis[..i]), apis[i]);
    UnmarshalDelivers(apis[i], Empty);
  }

  /** The whole stack: for every list of set and get calls with references below TD_SIZE and
      every interleaving of the two processes, each call that has returned gave its caller
      what the history of accepted calls says; an oversize call yields fmi2Fatal and no data.
      The slot's recorded size never exceeds the buffer as long as the replies fit it. */
  lemma StackRefinesHistory(size: Payload -> nat, apis: seq<Api>, slot: Message<Payload>, events: seq<Event>)
    requires forall i :: 0 <= i < |apis| ==> apis[i].Proper(TD_SIZE)
    requires Play(TestSetup(size, apis), Begin(TestSetup(size, apis), slot), events).Some?
    ensures var u := TestSetup(size, apis);
      var s := Play(u, Begin(u, slot), events).value;
      && |s.results| <= s.issued <= |apis|
      && (forall i :: 0 <= i < |s.results| ==> CallGives(size, apis, i, s.results[i]))
      && (slot.size <= BUFFER_SIZE && RepliesFit(u, s.issued) ==> AlwaysSized(u, Begin(u, slot), events))
  {
    var u := TestSetup(size, apis);
    CallsRefineDirectCalls(u, slot, events);
    if slot.size <= BUFFER_SIZE { SlotNeverOverflows(u, slot, events); }
    var s := Play(u, Begin(u, slot), events).value;
    forall i | 0 <= i < |s.results|
      ensures CallGives(size, apis, i, s.results[i])
    {
      DirectGives(size, apis, i);
    }
  }

  /** No set or get call is left waiting: while one has not returned, an action that advances it
      is possible now or after the driver's next poll. */
  lemma StackNeverStuck(size: Payload -> nat, apis: seq<Api>, slot: Message<Payload>, events: seq<Event>)
    requires forall i :: 0 <= i < |apis| ==> apis[i].Proper(TD_SIZE)
    requires Play(TestSetup(size, apis), Begin(TestSetup(size, apis), slot), events).Some?
    requires |Play(TestSetup(size, apis), Begin(TestSetup(size, apis), slot), events).value.results| < |apis|
    ensures var u := TestSetup(size, apis);
      var s := Play(u, Begin(u, slot), events).value;
      && Productive(Due(s))
      && (Enabled(u, s, Due(s))
          || (Enabled(u, s, DriverListens) && Enabled(u, Do(u, s, DriverListens).value, Due(s))))
  {
    TestSetupAnswers(size, apis);
    NeverStuck(TestSetup(size, apis), slot, events);
  }

  // --------------------------------------------------------- reading back what was set

  predicate Apart<T>(writes: Api -> Writes<T>, api: Api, refs: seq<nat>) {
    forall r :: r in refs ==> r !in writes(api).refs
  }

  predicate Paired<T>(writes: Api -> Writes<T>, apis: seq<Api>) {
    forall i :: 0 <= i < |apis| ==> |writes(apis[i]).refs| == |writes(apis[i]).vals|
  }

  // What is read does not change while nothing is written to it.
  lemma {:induction false} StillReads<T>(
    writes: Api -> Writes<T>, initial: T, pin: nat, pinned: T, size: Payload -> nat, apis: seq<Api>, i: nat, j: nat, refs: seq<nat>)
    requires i <= j <= |apis| && Paired(writes, apis)
    requires forall k :: i <= k < j ==> Apart(writes, apis[k], refs)
    ensures Seen(writes, initial, pin, pinned, Accepted(size, apis[..j]), refs)
         == Seen(writes, initial, pin, pinned, Accepted(size, apis[..i]), refs)
  {
    if i < j {
      StillReads(writes, initial, pin, pinned, size, apis, i, j - 1, refs);
      DirectStateStep(size, apis, j);
      Unchanged(writes, initial, pin, pinned, Accepted(size, apis[..j - 1]), apis[j - 1], refs);
    }
  }

  lemma Unchanged<T>(writes: Api -> Writes<T>, initial: T, pin: nat, pinned: T, history: seq<Api>, api: Api, refs: seq<nat>)
    requires |writes(api).refs| == |writes(api).vals| && Apart(writes, api, refs)
    ensures Seen(writes, initial, pin, pinned, history + [api], refs) == Seen(writes, initial, pin, pinned, history, refs)
  {
    forall k | 0 <= k < |refs|
      ensures Seen(writes, initial, pin, pinned, history + [api], refs)[k] == Seen(writes, initial, pin, pinned, history, refs)[k]
    {
      ReadAfterWrite(writes, initial, history, api, refs[k]);
    }
  }

  predicate Distinct(refs: seq<nat>) { forall i, j :: 0 <= i < j < |refs| ==> refs[i] != refs[j] }

  lemma ReadsWhatWasSet<T>(writes: Api -> Writes<T>, initial: T, pin: nat, pinned: T, history: seq<Api>, api: Api)
    requires var w := writes(api); |w.refs| == |w.vals| && Distinct(w.refs) && pin !in w.refs
    ensures Seen(writes, initial, pin, pinned, history + [api], writes(api).refs) == writes(api).vals
  {
    var w := writes(api);
    forall k | 0 <= k < |w.refs|
      ensures Seen(writes, initial, pin, pinned, history + [api], w.refs)[k] == w.vals[k]
    {
      assert LastAt(w.refs, w.refs[k], k);
      ReadAfterWrite(writes, initial, history, api, w.refs[k]);
    }
  }

  lemma SetIsRead<T>(writes: Api -> Writes<T>, initial: T, pin: nat, pinned: T, size: Payload -> nat, apis: seq<Api>, i: nat, j: nat)
    requires i < j <= |apis| && Paired(writes, apis) && size(Marshal(apis[i]).payload) <= BUFFER_SIZE
    requires Distinct(writes(apis[i]).refs) && pin !in writes(apis[i]).refs
    requires forall k :: i < k < j ==> Apart(writes, apis[k], writes(apis[i]).refs)
    ensures Seen(writes, initial, pin, pinned, Accepted(size, apis[..j]), writes(apis[i]).refs) == writes(apis[i]).vals
  {
    DirectStateStep(size, apis, i + 1);
    ReadsWhatWasSet(writes, initial, pin, pinned, Accepted(size, apis[..i]), apis[i]);
    StillReads(writes, initial, pin, pinned, size, apis, i + 1, j, writes(apis[i]).refs);
  }

  // What a later get of the references of a set call should give; booleans come back as 0 or 1.
  function Echo(call: Api): Outcome {
    match call
    case SetReal(_, vals) => GotReals(OK, vals)
    case SetInteger(_, vals) => GotIntegers(OK, vals)
    case SetBoolean(_, vals) => GotBooleans(OK, Map((b: int) => if b != 0 then 1 else 0, vals))
    case SetString(_, vals) => GotStrings(OK, vals)
    case _ => Outcome(OK)
  }

  // `get` reads just what `call` sets, none of it a reset id, each reference once.
  predicate ReadsBack(call: Api, get: Api) {
    match call
    case SetReal(refs, _) => get == GetReal(refs) && Distinct(refs) && REAL_ID !in refs
    case SetInteger(refs, _) => get == GetInteger(refs) && Distinct(refs) && INTEGER_ID !in refs
    case SetBoolean(refs, _) => get == GetBoolean(refs) && Distinct(refs) && BOOLEAN_ID !in refs
    case SetString(refs, _) => get == GetString(refs) && Distinct(refs) && STRING_ID !in refs
    case _ => false
  }

  // A set call of the same type on some of the same references.
  predicate Disturbs(api: Api, get: Api) {
    match get
    case GetReal(refs) => !Apart(RealWrites, api, refs)
    case GetInteger(refs) => !Apart(IntegerWrites, api, refs)
    case GetBoolean(refs) => !Apart(BooleanWrites, api, refs)
    case GetString(refs) => !Apart<CString>(StringWrites, api, refs)
    case _ => false
  }

  lemma AllPaired(apis: seq<Api>)
    requires forall i :: 0 <= i < |apis| ==> apis[i].Proper(TD_SIZE)
    ensures Paired(RealWrites, apis) && Paired(IntegerWrites, apis) && Paired(BooleanWrites, apis)
    ensures Paired<CString>(StringWrites, apis)
  {
  }

  lemma ExpectedEcho(size: Payload -> nat, apis: seq<Api>, i: nat, j: nat)
    requires forall k :: 0 <= k < |apis| ==> apis[k].Proper(TD_SIZE)
    requires i < j < |apis| && ReadsBack(apis[i], apis[j]) && size(Marshal(apis[i]).payload) <= BUFFER_SIZE
    requires forall k :: i < k < j ==> !Disturbs(apis[k], apis[j])
    ensures Expected(Accepted(size, apis[..j]), apis[j]) == Echo(apis[i])
  {
    AllPaired(apis);
    match apis[i]
    case SetReal(_, _) => SetIsRead(RealWrites, 0.0, REAL_ID, 9.9, size, apis, i, j);
    case SetInteger(_, _) => SetIsRead(IntegerWrites, 0, INTEGER_ID, 1, size, apis, i, j);
    case SetBoolean(_, vals) =>
      SetIsRead(BooleanWrites, false, BOOLEAN_ID, true, size, apis, i, j);
      assert Map(ToBoolean, Map(FromBoolean, vals)) == Map((b: int) => if b != 0 then 1 else 0, vals);
    case SetString(_, _) => SetIsRead<CString>(StringWrites, "", STRING_ID, "undefined", size, apis, i, j);
  }

  /** Set, then get, through the whole stack: values set at distinct references that the
      driver does not reset come back from a later get of them, whatever other calls, oversize
      or not, lie between, as long as none sets those references again. */
  lemma SetThenGet(size: Payload -> nat, apis: seq<Api>, slot: Message<Payload>, events: seq<Event>, i: nat, j: nat)
    requires forall k :: 0 <= k < |apis| ==> apis[k].Proper(TD_SIZE)
    requires Play(TestSetup(size, apis), Begin(TestSetup(size, apis), slot), events).Some?
    requires i < j < |Play(TestSetup(size, apis), Begin(TestSetup(size, apis), slot), events).value.results| <= |apis|
    requires size(Marshal(apis[i]).payload) <= BUFFER_SIZE && size(Marshal(apis[j]).payload) <= BUFFER_SIZE
    requires ReadsBack(apis[i], apis[j]) && forall k :: i < k < j ==> !Disturbs(apis[k], apis[j])
    ensures var s := Play(TestSetup(size, apis), Begin(TestSetup(size, apis), slot), events).value;
      Unmarshal(apis[j], s.results[j]) == Echo(apis[i])
  {
    StackRefinesHistory(size, apis, slot, events);
    ExpectedEcho(size, apis, i, j);
  }

  lemma ExpectedAgain(size: Payload -> nat, apis: seq<Api>, i: nat, j: nat)
    requires forall k :: 0 <= k < |apis| ==> apis[k].Proper(TD_SIZE)
    requires i < j < |apis| && apis[i] == apis[j] && forall k :: i < k < j ==> !Disturbs(apis[k], apis[j])
    ensures Expected(Accepted(size, apis[..j]), apis[j]) == Expected(Accepted(size, apis[..i]), apis[i])
  {
    AllPaired(apis);
    match apis[j]
    case GetReal(refs) => StillReads(RealWrites, 0.0, REAL_ID, 9.9, size, apis, i, j, refs);
    case GetInteger(refs) => StillReads(IntegerWrites, 0, INTEGER_ID, 1, size, apis, i, j, refs);
    case GetBoolean(refs) => StillReads(BooleanWrites, false, BOOLEAN_ID, true, size, apis, i, j, refs);
    case GetString(refs) => StillReads<CString>(StringWrites, "", STRING_ID, "undefined", size, apis, i, j, refs);
    case _ =>
  }

  /** Two equal gets return the same unless a call between them sets one of their references:
      calls of another type or on other references change nothing. */
  lemma UnsetReferencesKeepTheirValues(size: Payload -> nat, apis: seq<Api>, slot: Message<Payload>, events: seq<Event>, i: nat, j: nat)
    requires forall k :: 0 <= k < |apis| ==> apis[k].Proper(TD_SIZE)
    requires Play(TestSetup(size, apis), Begin(TestSetup(size, apis), slot), events).Some?
    requires i < j < |Play(TestSetup(size, apis), Begin(TestSetup(size, apis), slot), events).value.results| <= |apis|
    requires apis[i] == apis[j] && forall k :: i < k < j ==> !Disturbs(apis[k], apis[j])
    ensures var s := Play(TestSetup(size, apis), Begin(TestSetup(size, apis), slot), events).value;
      Unmarshal(apis[j], s.results[j]) == Unmarshal(apis[i], s.results[i])
  {
    StackRefinesHistory(size, apis, slot, events);
    ExpectedAgain(size, apis, i, j);
  }

  // ------------------------------------------------------------- four plain maps

  // One set call on a plain map, element by element.
  function Put<T>(m: map<nat, T>, refs: seq<nat>, vals: seq<T>): map<nat, T> {
    if refs == [] || |refs| > |vals| then m
    else
      var last := |refs| - 1;
      Put(m, refs[..last], vals)[refs[last] := vals[last]]
  }

  // A map after direct calls of the whole history.
  function Contents<T>(writes: Api -> Writes<T>, history: seq<Api>): map<nat, T> {
    if history == [] then map[]
    else
      var last := |history| - 1;
      Put(Contents(writes, history[..last]), writes(history[last]).refs, writes(history[last]).vals)
  }

  function Get<T>(m: map<nat, T>, id: nat, otherwise: T): T { if id in m then m[id] else otherwise }

  lemma {:induction false} PutMeaning<T>(m: map<nat, T>, refs: seq<nat>, vals: seq<T>, id: nat, otherwise: T)
    requires |refs| <= |vals|
    ensures Get(Put(m, refs, vals), id, otherwise) ==
      match LastMention(refs, vals, id) case None => Get(m, id, otherwise) case Some(v) => v
  {
    if refs != [] {
      PutMeaning(m, refs[..|refs| - 1], vals, id, otherwise);
    }
  }

  lemma {:induction false} ContentsMeaning<T>(writes: Api -> Writes<T>, history: seq<Api>, id: nat, otherwise: T)
    ensures Get(Contents(writes, history), id, otherwise) == ValueOf(writes, otherwise, history, id)
  {
    if history != [] {
      var front, w := history[..|history| - 1], writes(history[|history| - 1]);
      ContentsMeaning(writes, front, id, otherwise);
      if |w.refs| <= |w.vals| { PutMeaning(Contents(writes, front), w.refs, w.vals, id, otherwise); }
    }
  }

  // What a get call reads from such a map, with the driver's initial contents.
  function PlainSeen<T>(writes: Api -> Writes<T>, initial: T, pin: nat, pinned: T, history: seq<Api>, refs: seq<nat>): (r: seq<T>)
    ensures |r| == |refs|
  {
    seq(|refs|, k requires 0 <= k < |refs| =>
      Get(Contents(writes, history), refs[k], if refs[k] == pin then pinned else initial))
  }

  // The call made directly on four maps.
  function Direct(history: seq<Api>, api: Api): Outcome {
    match api
    case GetReal(refs) => GotReals(OK, PlainSeen(RealWrites, 0.0, REAL_ID, 9.9, history, refs))
    case GetInteger(refs) => GotIntegers(OK, PlainSeen(IntegerWrites, 0, INTEGER_ID, 1, history, refs))
    case GetBoolean(refs) =>
      GotBooleans(OK, Map(ToBoolean, PlainSeen(BooleanWrites, false, BOOLEAN_ID, true, history, refs)))
    case GetString(refs) =>
      GotStrings(OK, PlainSeen<CString>(StringWrites, "", STRING_ID, "undefined", history, refs))
    case _ => Outcome(OK)
  }

  // A reset id, if the call names it, is unset or was last set to its reset value.
  predicate Kept<T(==)>(m: map<nat, T>, pin: nat, pinned: T, refs: seq<nat>) {
    pin in refs && pin in m ==> m[pin] == pinned
  }

  predicate ResetKept(history: seq<Api>, api: Api) {
    match api
    case GetReal(refs) => Kept(Contents(RealWrites, history), REAL_ID, 9.9, refs)
    case GetInteger(refs) => Kept(Contents(IntegerWrites, history), INTEGER_ID, 1, refs)
    case GetBoolean(refs) => Kept(Contents(BooleanWrites, history), BOOLEAN_ID, true, refs)
    case GetString(refs) => Kept<CString>(Contents<CString>(StringWrites, history), STRING_ID, "undefined", refs)
    case _ => true
  }

  lemma AgreesWithPlainMap<T>(writes: Api -> Writes<T>, initial: T, pin: nat, pinned: T, history: seq<Api>, refs: seq<nat>)
    ensures Seen(writes, initial, pin, pinned, history, refs) == PlainSeen(writes, initial, pin, pinned, history, refs)
      <==> (pin in refs && pin in Contents(writes, history) ==> Contents(writes, history)[pin] == pinned)
  {
    var s := Seen(writes, initial, pin, pinned, history, refs);
    var p := PlainSeen(writes, initial, pin, pinned, history, refs);
    forall k | 0 <= k < |refs|
      ensures refs[k] != pin ==> s[k] == p[k]
    {
      ContentsMeaning(writes, history, refs[k], initial);
    }
    if pin in refs {
      var k :| 0 <= k < |refs| && refs[k] == pin;
      assert s[k] == pinned && p[k] == Get(Contents(writes, history), pin, pinned);
    }
  }

  lemma ToBooleanInjective(a: seq<bool>, b: seq<bool>)
    ensures Map(ToBoolean, a) == Map(ToBoolean, b) <==> a == b
  {
    if Map(ToBoolean, a) == Map(ToBoolean, b) {
      assert |a| == |Map(ToBoolean, a)| == |b|;
      forall i | 0 <= i < |a|
        ensures a[i] == b[i]
      {
        assert ToBoolean(a[i]) == Map(ToBoolean, a)[i] == Map(ToBoolean, b)[i] == ToBoolean(b[i]);
      }
    }
  }

  lemma ExpectedIsDirect(history: seq<Api>, api: Api)
    ensures Expected(history, api) == Direct(history, api) <==> ResetKept(history, api)
  {
    match api
    case GetReal(refs) => AgreesWithPlainMap(RealWrites, 0.0, REAL_ID, 9.9, history, refs);
    case GetInteger(refs) => AgreesWithPlainMap(IntegerWrites, 0, INTEGER_ID, 1, history, refs);
    case GetBoolean(refs) =>
      AgreesWithPlainMap(BooleanWrites, false, BOOLEAN_ID, true, history, refs);
      ToBooleanInjective(Seen(BooleanWrites, false, BOOLEAN_ID, true, history, refs),
        PlainSeen(BooleanWrites, false, BOOLEAN_ID, true, history, refs));
    case GetString(refs) => AgreesWithPlainMap<CString>(StringWrites, "", STRING_ID, "undefined", history, refs);
    case _ =>
  }

  /** The whole stack against four independent maps: for every list of set and get calls and
      every interleaving, an accepted call that has returned gave its caller exactly what the
      same call made directly on the maps gives, if and only if no reset id it names was last
      given a value other than its reset value. */
  lemma StackIsFourMaps(size: Payload -> nat, apis: seq<Api>, slot: Message<Payload>, events: seq<Event>)
    requires forall i :: 0 <= i < |apis| ==> apis[i].Proper(TD_SIZE)
    requires Play(TestSetup(size, apis), Begin(TestSetup(size, apis), slot), events).Some?
    ensures var s := Play(TestSetup(size, apis), Begin(TestSetup(size, apis), slot), events).value;
      && |s.results| <= |apis|
      && forall i :: 0 <= i < |s.results| && size(Marshal(apis[i]).payload) <= BUFFER_SIZE ==>
           var before := Accepted(size, apis[..i]);
           Unmarshal(apis[i], s.results[i]) == Direct(before, apis[i]) <==> ResetKept(before, apis[i])
  {
    StackRefinesHistory(size, apis, slot, events);
    forall i | 0 <= i < |apis|
      ensures var h := Accepted(size, apis[..i]); Expected(h, apis[i]) == Direct(h, apis[i]) <==> ResetKept(h, apis[i])
    {
      ExpectedIsDirect(Accepted(size, apis[..i]), apis[i]);
    }
  }

  /** A value set at a reset id is forgotten before it can be read. */
  lemma ResetIdForgetsItsValue(v: real)
    ensures Expected([SetReal([REAL_ID], [v])], GetReal([REAL_ID])) == GotReals(OK, [9.9])
    ensures Direct([SetReal([REAL_ID], [v])], GetReal([REAL_ID])) == GotReals(OK, [v])
  {
    var h := [SetReal([REAL_ID], [v])];
    assert RealWrites(h[0]) == Writes([REAL_ID], [v]);
    ContentsMeaning(RealWrites, h, REAL_ID, 9.9);
    assert LastMention([REAL_ID], [v], REAL_ID) == Some(v);
  }

  /** An fmi2Boolean comes back as 1 if it is not 0, so unchanged exactly when it is fmi2False
      or fmi2True. */
  lemma BooleanRoundTrip(b: int)
    ensures ToBoolean(FromBoolean(b)) == if b != 0 then 1 else 0
    ensures ToBoolean(FromBoolean(b)) == b <==> b == 0 || b == 1
  {
  }
}
