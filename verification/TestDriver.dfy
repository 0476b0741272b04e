/** The driver of the integration tests (testfmu-integration/RemoteTestDriver.cpp): four
    arrays of TD_SIZE elements, one message served per call of `remoteTestDriver`. */
module TestDriver {
  import opened Wrappers
  import opened RemoteCall
  import opened FmiValues

  const TD_SIZE: nat := 100
  const REAL_ID: nat := 10
  const INTEGER_ID: nat := 11
  const BOOLEAN_ID: nat := 12
  const STRING_ID: nat := 13

  datatype Store = Store(reals: seq<real>, integers: seq<int>, booleans: seq<bool>, strings: seq<CString>)
  {
    predicate Sized() {
      |reals| == TD_SIZE && |integers| == TD_SIZE && |booleans| == TD_SIZE && |strings| == TD_SIZE
    }
  }

  type Arrays = s: Store | s.Sized() witness Blank()

  function Blank(): Store {
    Store(seq(TD_SIZE, _ => 0.0), seq(TD_SIZE, _ => 0), seq(TD_SIZE, _ => false), seq(TD_SIZE, _ => ""))
  }

  // Every call of remoteTestDriver first resets one element of each array.
  function Pin(s: Arrays): Arrays {
    Store(s.reals[REAL_ID := 9.9], s.integers[INTEGER_ID := 1],
          s.booleans[BOOLEAN_ID := true], s.strings[STRING_ID := "undefined"])
  }

  // c_str(): the characters before the first NUL.
  function CStr(s: string): (r: CString)
    ensures r <= s
  {
    if s == [] || s[0] == '\0' then "" else [s[0]] + CStr(s[1..])
  }

  lemma {:induction false} CStrOfCString(s: CString)
    ensures CStr(s) == s
  {
    if s != [] {
      CStrOfCString(s[1..]);
      assert s == [s[0]] + s[1..];
    }
  }

  /** The element-by-element assignment of a set request; a reference outside the array is
      undefined in the original and has no effect here. */
  function Assign<T>(a: seq<T>, refs: seq<nat>, vals: seq<T>): (r: seq<T>)
    ensures |r| == |a|
  {
    if refs == [] || |refs| > |vals| then a
    else
      var last := |refs| - 1;
      var b := Assign(a, refs[..last], vals);
      if refs[last] < |b| then b[refs[last] := vals[last]] else b
  }

  function Gather<T>(a: seq<T>, refs: seq<nat>, outside: T): (r: seq<T>)
    ensures |r| == |refs|
    ensures forall k :: 0 <= k < |refs| && refs[k] < |a| ==> r[k] == a[refs[k]]
  {
    seq(|refs|, k requires 0 <= k < |refs| => if refs[k] < |a| then a[refs[k]] else outside)
  }

  function Refs(p: Payload): seq<nat> {
    if p.GetRequest? || p.SetReals? || p.SetIntegers? || p.SetBooleans? || p.SetStrings? then p.refs else []
  }

  function Kind(p: Payload): StatusKind { if p.StatusRequest? then p.kind else DoStepStatus }

  /** What one call of remoteTestDriver does to the arrays and replies. */
  function Answer(store: Arrays, call: Call<Payload>): (Arrays, Option<Payload>) {
    var s: Arrays := Pin(store);
    var p := call.payload;
    if call.cmd == FREE_INSTANCE then (s, None)
    else if SET_DEBUG_LOGGING <= call.cmd <= DO_STEP || call.cmd == GET_STATUS then (s, Some(StatusReply(OK)))
    else if call.cmd == SET_REAL then
      (if p.SetReals? then s.(reals := Assign(s.reals, p.refs, p.reals)) else s, Some(StatusReply(OK)))
    else if call.cmd == SET_INTEGER then
      (if p.SetIntegers? then s.(integers := Assign(s.integers, p.refs, p.integers)) else s, Some(StatusReply(OK)))
    else if call.cmd == SET_BOOLEAN then
      (if p.SetBooleans? then s.(booleans := Assign(s.booleans, p.refs, p.booleans)) else s, Some(StatusReply(OK)))
    else if call.cmd == SET_STRING then
      (if p.SetStrings? then s.(strings := Assign(s.strings, p.refs, p.strings)) else s, Some(StatusReply(OK)))
    else if call.cmd == GET_REAL then (s, Some(Reals(Gather(s.reals, Refs(p), 0.0))))
    else if call.cmd == GET_INTEGER then (s, Some(Integers(Gather(s.integers, Refs(p), 0))))
    else if call.cmd == GET_BOOLEAN then (s, Some(Booleans(Gather(s.booleans, Refs(p), false))))
    else if call.cmd == GET_STRING then (s, Some(Strings(true, Gather<CString>(s.strings, Refs(p), ""))))
    else if call.cmd == GET_MAX_STEP_SIZE then (s, Some(MaxStepSize(100.0)))
    else if call.cmd == GET_REAL_STATUS then
      (s, Some(RealStatus(if Kind(p).LastSuccessfulTime? then 100.5 else 0.0)))
    else if call.cmd == GET_INTEGER_STATUS then
      (s, Some(IntegerStatus(if Kind(p).LastSuccessfulTime? then 100 else 0)))
    else if call.cmd == GET_BOOLEAN_STATUS then (s, Some(BooleanStatus(Kind(p).Terminated?)))
    else if call.cmd == GET_STRING_STATUS then
      (s, Some(StringStatus(if Kind(p).DoStepStatus? then "waiting" else "")))
    else (s, Some(p)) // unknown command: the message goes back as it came
  }

  /** The driver answers every command but fmi2FreeInstance, the one call nobody waits for; and
      whatever the command, each array keeps its elements except at the reset id and at the
      references of a set request of its type. */
  lemma AnsweredIffNotFree(store: Arrays, call: Call<Payload>)
    ensures Answer(store, call).1 == None <==> call.cmd == FREE_INSTANCE
    ensures var s := Answer(store, call).0;
      && (call.cmd != SET_REAL ==> s.reals == store.reals[REAL_ID := 9.9])
      && (call.cmd != SET_INTEGER ==> s.integers == store.integers[INTEGER_ID := 1])
      && (call.cmd != SET_BOOLEAN ==> s.booleans == store.booleans[BOOLEAN_ID := true])
      && (call.cmd != SET_STRING ==> s.strings == store.strings[STRING_ID := "undefined"])
  {
  }

  // ------------------------------------------------------------ the arrays, in place

  class Arena {
    const reals: array<real>
    const integers: array<int>
    const booleans: array<bool>
    const strings: array<CString>

    ghost predicate Valid() {
      && reals.Length == TD_SIZE && integers.Length == TD_SIZE
      && booleans.Length == TD_SIZE && strings.Length == TD_SIZE
    }

    ghost function View(): Arrays
      requires Valid()
      reads reals, integers, booleans, strings
    {
      Store(reals[..], integers[..], booleans[..], strings[..])
    }

    constructor ()
      ensures Valid() && View() == Blank()
      ensures fresh(reals) && fresh(integers) && fresh(booleans) && fresh(strings)
    {
      reals := new real[TD_SIZE](_ => 0.0);
      integers := new int[TD_SIZE](_ => 0);
      booleans := new bool[TD_SIZE](_ => false);
      strings := new CString[TD_SIZE](_ => "");
    }

    static method AssignAll<T>(a: array<T>, refs: seq<nat>, vals: seq<T>)
      requires |refs| <= |vals|
      requires forall i :: 0 <= i < |refs| ==> refs[i] < a.Length
      modifies a
      ensures a[..] == Assign(old(a[..]), refs, vals)
    {
      for i := 0 to |refs|
        invariant a[..] == Assign(old(a[..]), refs[..i], vals)
      {
        a[refs[i]] := vals[i];
        assert refs[..i + 1][..i] == refs[..i];
      }
      assert refs[..|refs|] == refs;
    }

    // The string branch copies each value through c_str().
    method StoreStrings(refs: seq<nat>, vals: seq<CString>)
      requires |refs| <= |vals|
      requires forall i :: 0 <= i < |refs| ==> refs[i] < strings.Length
      modifies strings
      ensures strings[..] == Assign(old(strings[..]), refs, vals)
    {
      for i := 0 to |refs|
        invariant strings[..] == Assign(old(strings[..]), refs[..i], vals)
      {
        CStrOfCString(vals[i]);
        strings[refs[i]] := CStr(vals[i]);
        assert refs[..i + 1][..i] == refs[..i];
      }
      assert refs[..|refs|] == refs;
    }

    static method Collect<T>(a: array<T>, refs: seq<nat>, outside: T) returns (vals: seq<T>)
      requires forall i :: 0 <= i < |refs| ==> refs[i] < a.Length
      ensures vals == Gather(a[..], refs, outside)
    {
      vals := [];
      for i := 0 to |refs|
        invariant vals == Gather(a[..], refs[..i], outside)
      {
        vals := vals + [a[refs[i]]];
      }
      assert refs[..|refs|] == refs;
    }

    /** One call of remoteTestDriver: reset, dispatch, edit the message in place.  The result
        is the payload now in the slot, or None when the driver exits. */
    method Serve(call: Call<Payload>) returns (reply: Option<Payload>)
      requires Valid()
      requires forall i :: 0 <= i < |Refs(call.payload)| ==> Refs(call.payload)[i] < TD_SIZE
      requires call.payload.SetReals? ==> |call.payload.reals| == |call.payload.refs|
      requires call.payload.SetIntegers? ==> |call.payload.integers| == |call.payload.refs|
      requires call.payload.SetBooleans? ==> |call.payload.booleans| == |call.payload.refs|
      requires call.payload.SetStrings? ==> |call.payload.strings| == |call.payload.refs|
      modifies reals, integers, booleans, strings
      ensures (View(), reply) == Answer(old(View()), call)
    {
      reals[REAL_ID] := 9.9;
      integers[INTEGER_ID] := 1;
      booleans[BOOLEAN_ID] := true;
      strings[STRING_ID] := "undefined";
      assert View() == Pin(old(View()));
      var p := call.payload;
      if call.cmd == FREE_INSTANCE {
        reply := None;
      } else if SET_DEBUG_LOGGING <= call.cmd <= DO_STEP || call.cmd == GET_STATUS {
        reply := Some(StatusReply(OK));
      } else if call.cmd == SET_REAL {
        if p.SetReals? { AssignAll(reals, Refs(p), p.reals); }
        reply := Some(StatusReply(OK));
      } else if call.cmd == SET_INTEGER {
        if p.SetIntegers? { AssignAll(integers, Refs(p), p.integers); }
        reply := Some(StatusReply(OK));
      } else if call.cmd == SET_BOOLEAN {
        if p.SetBooleans? { AssignAll(booleans, Refs(p), p.booleans); }
        reply := Some(StatusReply(OK));
      } else if call.cmd == SET_STRING {
        if p.SetStrings? { StoreStrings(Refs(p), p.strings); }
        reply := Some(StatusReply(OK));
      } else if call.cmd == GET_REAL {
        var vals := Collect(reals, Refs(p), 0.0);
        reply := Some(Reals(vals));
      } else if call.cmd == GET_INTEGER {
        var vals := Collect(integers, Refs(p), 0);
        reply := Some(Integers(vals));
      } else if call.cmd == GET_BOOLEAN {
        var vals := Collect(booleans, Refs(p), false);
        reply := Some(Booleans(vals));
      } else if call.cmd == GET_STRING {
        var vals := Collect<CString>(strings, Refs(p), "");
        reply := Some(Strings(true, vals));
      } else if call.cmd == GET_MAX_STEP_SIZE {
        reply := Some(MaxStepSize(100.0));
      } else if call.cmd == GET_REAL_STATUS {
        reply := Some(RealStatus(if Kind(p).LastSuccessfulTime? then 100.5 else 0.0));
      } else if call.cmd == GET_INTEGER_STATUS {
        reply := Some(IntegerStatus(if Kind(p).LastSuccessfulTime? then 100 else 0));
      } else if call.cmd == GET_BOOLEAN_STATUS {
        reply := Some(BooleanStatus(Kind(p).Terminated?));
      } else if call.cmd == GET_STRING_STATUS {
        reply := Some(StringStatus(if Kind(p).DoStepStatus? then "waiting" else ""));
      } else {
        reply := Some(p);
      }
    }
  }
}
