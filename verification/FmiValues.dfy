/** FMI 2.0 set and get calls as FmuProxy marshals them, and what they mean: a reference
    reading of a history of calls, independent of any store. */
module FmiValues {
  import opened Wrappers
  import opened RemoteCall

  // SharedFmiMessage.h
  const SET_DEBUG_LOGGING := 0
  const DO_STEP := 7
  const GET_REAL := 8
  const GET_INTEGER := 9
  const GET_BOOLEAN := 10
  const GET_STRING := 11
  const SET_REAL := 12
  const SET_INTEGER := 13
  const SET_BOOLEAN := 14
  const SET_STRING := 15
  const GET_MAX_STEP_SIZE := 16
  const GET_STATUS := 17
  const GET_REAL_STATUS := 18
  const GET_INTEGER_STATUS := 19
  const GET_BOOLEAN_STATUS := 20
  const GET_STRING_STATUS := 21
  const LOG := 22
  const FREE_INSTANCE := 23

  // A C string holds no NUL before its end.
  type CString = s: string | '\0' !in s

  datatype Status = OK | Warning | Discard | Error | Fatal | Pending

  datatype StatusKind = DoStepStatus | PendingStatus | LastSuccessfulTime | Terminated

  // The protobuf messages of service.proto that these calls use.
  datatype Payload =
    | ZeroBytes // parses as the default message of whatever type is expected
    | Empty
    | Control(token: int) // requests whose fields the test driver does not read
    | GetRequest(refs: seq<nat>)
    | SetReals(refs: seq<nat>, reals: seq<real>)
    | SetIntegers(refs: seq<nat>, integers: seq<int>)
    | SetBooleans(refs: seq<nat>, booleans: seq<bool>)
    | SetStrings(refs: seq<nat>, strings: seq<CString>)
    | StatusRequest(kind: StatusKind)
    | StatusReply(status: Status)
    | Reals(reals: seq<real>)
    | Integers(integers: seq<int>)
    | Booleans(booleans: seq<bool>)
    | Strings(valid: bool, strings: seq<CString>)
    | MaxStepSize(step: real)
    | RealStatus(amount: real)
    | IntegerStatus(integer: int)
    | BooleanStatus(boolean: bool)
    | StringStatus(text: CString)

  // fmi2Boolean is an int: any non-zero value is sent as true, and true comes back as 1.
  function FromBoolean(b: int): bool { b != 0 }
  function ToBoolean(b: bool): int { if b then 1 else 0 }
  function Map<A, B>(f: A -> B, s: seq<A>): (r: seq<B>)
    ensures |r| == |s| && forall i :: 0 <= i < |s| ==> r[i] == f(s[i])
  {
    seq(|s|, i requires 0 <= i < |s| => f(s[i]))
  }

  datatype Api =
    | Plain(cmd: int, token: int) // SetDebugLogging .. DoStep, GetStatus
    | SetReal(refs: seq<nat>, reals: seq<real>)
    | SetInteger(refs: seq<nat>, integers: seq<int>)
    | SetBoolean(refs: seq<nat>, booleans: seq<int>)
    | SetString(refs: seq<nat>, strings: seq<CString>)
    | GetReal(refs: seq<nat>)
    | GetInteger(refs: seq<nat>)
    | GetBoolean(refs: seq<nat>)
    | GetString(refs: seq<nat>)
  {
    // Every reference comes with a value, and names an element of the driver's arrays.
    predicate Proper(limit: nat) {
      if Plain? then SET_DEBUG_LOGGING <= cmd <= DO_STEP || cmd == GET_STATUS
      else
        && (forall i :: 0 <= i < |refs| ==> refs[i] < limit)
        && (SetReal? ==> |reals| == |refs|)
        && (SetInteger? ==> |integers| == |refs|)
        && (SetBoolean? ==> |booleans| == |refs|)
        && (SetString? ==> |strings| == |refs|)
    }
  }

  /** The request FmuProxy builds for a call. */
  function Marshal(api: Api): Call<Payload> {
    match api
    case Plain(cmd, token) => Call(cmd, Control(token))
    case SetReal(refs, vals) => Call(SET_REAL, SetReals(refs, vals))
    case SetInteger(refs, vals) => Call(SET_INTEGER, SetIntegers(refs, vals))
    case SetBoolean(refs, vals) => Call(SET_BOOLEAN, SetBooleans(refs, Map(FromBoolean, vals)))
    case SetString(refs, vals) => Call(SET_STRING, SetStrings(refs, vals))
    case GetReal(refs) => Call(GET_REAL, GetRequest(refs))
    case GetInteger(refs) => Call(GET_INTEGER, GetRequest(refs))
    case GetBoolean(refs) => Call(GET_BOOLEAN, GetRequest(refs))
    case GetString(refs) => Call(GET_STRING, GetRequest(refs))
  }

  // The message types ParseFromArray fills in; zero bytes give the proto3 defaults.
  function AsStatus(p: Payload): Status { if p.StatusReply? then p.status else OK }
  function AsReals(p: Payload): seq<real> { if p.Reals? then p.reals else [] }
  function AsIntegers(p: Payload): seq<int> { if p.Integers? then p.integers else [] }
  function AsBooleans(p: Payload): seq<bool> { if p.Booleans? then p.booleans else [] }
  function AsStrings(p: Payload): seq<CString> { if p.Strings? then p.strings else [] }
  function AsValid(p: Payload): bool { p.Strings? && p.valid }

  // What a call gives its caller: a status, and the elements written to `value`.
  datatype Outcome =
    | Outcome(status: Status)
    | GotReals(status: Status, reals: seq<real>)
    | GotIntegers(status: Status, integers: seq<int>)
    | GotBooleans(status: Status, booleans: seq<int>)
    | GotStrings(status: Status, strings: seq<CString>)

  /** How FmuProxy turns what `send` returned into the outcome of the call. */
  function Unmarshal(api: Api, reply: Option<Payload>): Outcome {
    match (api, reply)
    case (GetReal(_), None) => GotReals(Fatal, [])
    case (GetInteger(_), None) => GotIntegers(Fatal, [])
    case (GetBoolean(_), None) => GotBooleans(Fatal, [])
    case (GetString(_), None) => GotStrings(Fatal, [])
    case (_, None) => Outcome(Fatal)
    case (GetReal(_), Some(p)) => GotReals(OK, AsReals(p))
    case (GetInteger(_), Some(p)) => GotIntegers(OK, AsIntegers(p))
    case (GetBoolean(_), Some(p)) => GotBooleans(OK, Map(ToBoolean, AsBooleans(p)))
    case (GetString(_), Some(p)) =>
      if AsValid(p) then GotStrings(OK, AsStrings(p)) else GotStrings(Fatal, [])
    case (_, Some(p)) => Outcome(AsStatus(p))
  }

  // fmi2Fatal, and nothing written for the caller.
  predicate Refused(o: Outcome) {
    && o.status == Fatal
    && (o.GotReals? ==> o.reals == []) && (o.GotIntegers? ==> o.integers == [])
    && (o.GotBooleans? ==> o.booleans == []) && (o.GotStrings? ==> o.strings == [])
  }

  // The reply is of the type the call expects.
  predicate Fits(api: Api, p: Payload) {
    match api
    case GetReal(_) => p.Reals?
    case GetInteger(_) => p.Integers?
    case GetBoolean(_) => p.Booleans?
    case GetString(_) => p.Strings?
    case _ => p.StatusReply?
  }

  // Such a reply reaches the caller as it is: status, or values with status OK; booleans as 0
  // or 1; strings not marked valid as a failure.
  predicate Delivered(p: Payload, o: Outcome) {
    match p
    case StatusReply(status) => o == Outcome(status)
    case Reals(vals) => o == GotReals(OK, vals)
    case Integers(vals) => o == GotIntegers(OK, vals)
    case Booleans(vals) =>
      o.GotBooleans? && o.status == OK && |o.booleans| == |vals|
      && forall i :: 0 <= i < |vals| ==> o.booleans[i] == if vals[i] then 1 else 0
    case Strings(valid, vals) => o == if valid then GotStrings(OK, vals) else GotStrings(Fatal, [])
    case _ => true
  }

  lemma UnmarshalDelivers(api: Api, p: Payload)
    ensures Refused(Unmarshal(api, None))
    ensures Fits(api, p) ==> Delivered(p, Unmarshal(api, Some(p)))
  {
  }

  // ------------------------------------------------------------------- reference meaning

  // The value the last mention of `id` in `refs` is given, if there is one.
  function LastMention<T>(refs: seq<nat>, vals: seq<T>, id: nat): Option<T>
    requires |refs| <= |vals|
  {
    if refs == [] then None
    else
      var last := |refs| - 1;
      if refs[last] == id then Some(vals[last]) else LastMention(refs[..last], vals, id)
  }

  // What a call writes, for each of the four types.
  datatype Writes<+T> = Writes(refs: seq<nat>, vals: seq<T>)

  function RealWrites(api: Api): Writes<real> {
    if api.SetReal? then Writes(api.refs, api.reals) else Writes([], [])
  }
  function IntegerWrites(api: Api): Writes<int> {
    if api.SetInteger? then Writes(api.refs, api.integers) else Writes([], [])
  }
  function BooleanWrites(api: Api): Writes<bool> {
    if api.SetBoolean? then Writes(api.refs, Map(FromBoolean, api.booleans)) else Writes([], [])
  }
  function StringWrites(api: Api): Writes<CString> {
    if api.SetString? then Writes(api.refs, api.strings) else Writes([], [])
  }

  /** The value of `id` after a history of calls: the last one written to it, scanning back
      through the calls, and through each call's references. */
  function ValueOf<T>(writes: Api -> Writes<T>, initial: T, history: seq<Api>, id: nat): T {
    if history == [] then initial
    else
      var w := writes(history[|history| - 1]);
      var before := history[..|history| - 1];
      if |w.refs| > |w.vals| then ValueOf(writes, initial, before, id)
      else match LastMention(w.refs, w.vals, id)
        case Some(v) => v
        case None => ValueOf(writes, initial, before, id)
  }

  predicate LastAt(refs: seq<nat>, id: nat, k: nat) {
    k < |refs| && refs[k] == id && forall j :: k < j < |refs| ==> refs[j] != id
  }

  // The last of several mentions decides.
  lemma {:induction false} LastMentionIsLast<T>(refs: seq<nat>, vals: seq<T>, id: nat)
    requires |refs| <= |vals|
    ensures LastMention(refs, vals, id) == None <==> id !in refs
    ensures forall k: nat :: LastAt(refs, id, k) ==> LastMention(refs, vals, id) == Some(vals[k])
  {
    if refs != [] {
      var last := |refs| - 1;
      assert refs == refs[..last] + [refs[last]];
      LastMentionIsLast(refs[..last], vals, id);
      forall k: nat | LastAt(refs, id, k)
        ensures LastMention(refs, vals, id) == Some(vals[k])
      {
        if k < last { assert LastAt(refs[..last], id, k); }
      }
    }
  }

  /** Reading after a set call: a reference it names has the value at its last mention in the
      call; every other reference keeps the value it had. */
  lemma ReadAfterWrite<T>(writes: Api -> Writes<T>, initial: T, history: seq<Api>, api: Api, id: nat)
    requires |writes(api).refs| == |writes(api).vals|
    ensures var refs, vals, after := writes(api).refs, writes(api).vals, history + [api];
      && (id !in refs ==> ValueOf(writes, initial, after, id) == ValueOf(writes, initial, history, id))
      && forall k: nat :: LastAt(refs, id, k) ==> ValueOf(writes, initial, after, id) == vals[k]
  {
    var after := history + [api];
    assert after[..|after| - 1] == history;
    LastMentionIsLast(writes(api).refs, writes(api).vals, id);
  }
}
