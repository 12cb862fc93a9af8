/**
 * The trampoline that src/import.rs wraps around every registered callable,
 * and the value marshalling it performs on each call: engine values to host
 * values on the way in, the callable's return value normalised to a tuple
 * and converted back to tagged values, one per declared output type.
 */
module Trampoline {
  import opened Wrappers
  import opened WasmTypes
  import opened HostObjects

  /** What the engine registers for one import: the effective signature and the callable it calls. */
  datatype Func = Func(signature: FuncType, callable: HostFunction)

  /** What one call of the host callable does. */
  datatype CallOutcome = Returned(value: HostValue) | Raised

  /** Why a trampoline call trapped: the callable raised, or a result did not convert. */
  datatype Trap = HostCallRaised | ResultNotConvertible(expected: WasmType)

  /** Engine to host: integers and 128-bit vectors become Python ints, floats Python floats. */
  function ToHost(v: Value): (h: HostValue)
    ensures h.PyInt? <==> v.I32? || v.I64? || v.V128?
    ensures h.PyFloat? <==> v.F32? || v.F64?
  {
    match v
    case I32(x) => PyInt(x)
    case I64(x) => PyInt(x)
    case F32(x) => PyFloat(x)
    case F64(x) => PyFloat(x)
    case V128(x) => PyInt(x)
  }

  /**
   * Host to engine for one expected type: a Python int within the type's
   * range for I32, I64 and V128, a Python float for F32 and F64; anything
   * else is the failed downcast or extraction that traps. A converted value
   * carries the expected tag and maps back to the same host value.
   */
  function FromHost(h: HostValue, expected: WasmType): (r: Result<Value, Trap>)
    ensures r.Ok? ==> TypeOf(r.value) == expected && ToHost(r.value) == h
    ensures r.Err? ==> r.error == ResultNotConvertible(expected)
  {
    match expected
    case I32 =>
      if h.PyInt? && -0x8000_0000 <= h.n < 0x8000_0000 then Ok(Value.I32(h.n))
      else Err(ResultNotConvertible(expected))
    case I64 =>
      if h.PyInt? && -0x8000_0000_0000_0000 <= h.n < 0x8000_0000_0000_0000 then Ok(Value.I64(h.n))
      else Err(ResultNotConvertible(expected))
    case F32 =>
      if h.PyFloat? then Ok(Value.F32(h.f)) else Err(ResultNotConvertible(expected))
    case F64 =>
      if h.PyFloat? then Ok(Value.F64(h.f)) else Err(ResultNotConvertible(expected))
    case V128 =>
      if h.PyInt? && 0 <= h.n < 0x1_0000_0000_0000_0000_0000_0000_0000_0000 then Ok(Value.V128(h.n))
      else Err(ResultNotConvertible(expected))
  }

  /** Round trip: a tagged value sent to the host and converted back at its own type is unchanged. */
  lemma MarshalRoundTrip(v: Value)
    ensures FromHost(ToHost(v), TypeOf(v)) == Ok(v)
  {
  }

  /** Conversion succeeds exactly on the host images of values of the expected type. */
  lemma FromHostSucceedsIff(h: HostValue, expected: WasmType)
    ensures FromHost(h, expected).Ok? <==> exists v :: TypeOf(v) == expected && ToHost(v) == h
  {
    if exists v :: TypeOf(v) == expected && ToHost(v) == h {
      var v :| TypeOf(v) == expected && ToHost(v) == h;
      MarshalRoundTrip(v);
    }
  }

  /** The arguments of a call, converted one by one, in order. */
  function ArgumentsToHost(inputs: seq<Value>): (r: seq<HostValue>)
    ensures |r| == |inputs|
    ensures forall i :: 0 <= i < |inputs| ==> r[i] == ToHost(inputs[i])
    decreases |inputs|
  {
    if |inputs| == 0 then [] else [ToHost(inputs[0])] + ArgumentsToHost(inputs[1..])
  }

  /** A tuple returned by the callable is taken as is; any other value as a 1-tuple. */
  function Normalize(returned: HostValue): (results: seq<HostValue>)
    ensures returned.PyTuple? ==> results == returned.items
    ensures !returned.PyTuple? ==> results == [returned]
  {
    if returned.PyTuple? then returned.items else [returned]
  }

  /**
   * The results zipped with the output types: as many values as the
   * shorter of the two, the first unconvertible result trapping. Result `k`
   * carries the tag of output type `k` and the payload of result `k`.
   */
  function ResultsFromHost(results: seq<HostValue>, outputTypes: seq<WasmType>): (r: Result<seq<Value>, Trap>)
    ensures r.Ok? ==> |r.value| == Min(|results|, |outputTypes|)
    ensures r.Ok? ==> forall k :: 0 <= k < |r.value| ==>
                        TypeOf(r.value[k]) == outputTypes[k] && ToHost(r.value[k]) == results[k]
    decreases |results|
  {
    if |results| == 0 || |outputTypes| == 0 then Ok([])
    else
      var first :- FromHost(results[0], outputTypes[0]);
      var rest :- ResultsFromHost(results[1..], outputTypes[1..]);
      Ok([first] + rest)
  }

  /** Converting back fails exactly when some zipped result does not convert at its type. */
  lemma {:induction false} ResultsFromHostFailsIff(results: seq<HostValue>, outputTypes: seq<WasmType>)
    ensures ResultsFromHost(results, outputTypes).Err? <==>
            exists k :: 0 <= k < Min(|results|, |outputTypes|) && FromHost(results[k], outputTypes[k]).Err?
    decreases |results|
  {
    if |results| > 0 && |outputTypes| > 0 {
      ResultsFromHostFailsIff(results[1..], outputTypes[1..]);
      if ResultsFromHost(results[1..], outputTypes[1..]).Err? {
        var k :| 0 <= k < Min(|results| - 1, |outputTypes| - 1) && FromHost(results[1..][k], outputTypes[1..][k]).Err?;
        assert FromHost(results[k + 1], outputTypes[k + 1]).Err?;
      }
      if exists k :: 0 <= k < Min(|results|, |outputTypes|) && FromHost(results[k], outputTypes[k]).Err? {
        var k :| 0 <= k < Min(|results|, |outputTypes|) && FromHost(results[k], outputTypes[k]).Err?;
        if k > 0 {
          assert FromHost(results[1..][k - 1], outputTypes[1..][k - 1]).Err?;
        }
      }
    }
  }

  /** The host images and tags of a non-empty vector split into head and tail. */
  lemma ArgumentsTail(vs: seq<Value>)
    requires |vs| > 0
    ensures ArgumentsToHost(vs)[0] == ToHost(vs[0]) && TypesOf(vs)[0] == TypeOf(vs[0])
    ensures ArgumentsToHost(vs)[1..] == ArgumentsToHost(vs[1..])
    ensures TypesOf(vs)[1..] == TypesOf(vs[1..])
  {
    var rest := ArgumentsToHost(vs[1..]);
    assert ArgumentsToHost(vs) == [ToHost(vs[0])] + rest;
    assert ([ToHost(vs[0])] + rest)[1..] == rest;
    var types, tail := TypesOf(vs), vs[1..];
    assert |types[1..]| == |TypesOf(tail)|;
    forall i | 0 <= i < |tail|
      ensures types[1..][i] == TypesOf(tail)[i]
    {
      assert tail[i] == vs[i + 1];
    }
  }

  /** Round trip over a whole argument vector: host images convert back at their own types. */
  lemma {:induction false} ArgumentsRoundTrip(vs: seq<Value>)
    ensures ResultsFromHost(ArgumentsToHost(vs), TypesOf(vs)) == Ok(vs)
    decreases |vs|
  {
    if |vs| > 0 {
      var hosts, types := ArgumentsToHost(vs), TypesOf(vs);
      ArgumentsTail(vs);
      ArgumentsRoundTrip(vs[1..]);
      MarshalRoundTrip(vs[0]);
      assert FromHost(hosts[0], types[0]) == Ok(vs[0]);
      assert ResultsFromHost(hosts[1..], types[1..]) == Ok(vs[1..]);
      assert [vs[0]] + vs[1..] == vs;
    }
  }

  /**
   * One call through a trampoline with output types `outputTypes`: the
   * callable sees the converted arguments; if it raises, the call traps;
   * otherwise its normalised return value is converted back.
   */
  function Invoke(outputTypes: seq<WasmType>, call: seq<HostValue> -> CallOutcome, inputs: seq<Value>)
    : (r: Result<seq<Value>, Trap>)
    ensures call(ArgumentsToHost(inputs)).Raised? ==> r == Err(HostCallRaised)
    ensures r.Ok? ==> |r.value| <= |outputTypes|
    ensures r.Ok? ==> forall k :: 0 <= k < |r.value| ==> TypeOf(r.value[k]) == outputTypes[k]
    ensures r.Ok? ==> call(ArgumentsToHost(inputs)).Returned?
    ensures call(ArgumentsToHost(inputs)).Returned? && r.Ok? ==>
              var returned := Normalize(call(ArgumentsToHost(inputs)).value);
              && |r.value| == Min(|returned|, |outputTypes|)
              && forall k :: 0 <= k < |r.value| ==> ToHost(r.value[k]) == returned[k]
  {
    match call(ArgumentsToHost(inputs))
    case Raised => Err(HostCallRaised)
    case Returned(v) => ResultsFromHost(Normalize(v), outputTypes)
  }

  /**
   * A call through a registered trampoline: the closure captures the
   * effective output types and calls its own callable through `host`.
   */
  function Call(f: Func, host: (HostFunction, seq<HostValue>) -> CallOutcome, inputs: seq<Value>)
    : (r: Result<seq<Value>, Trap>)
    ensures host(f.callable, ArgumentsToHost(inputs)).Raised? ==> r == Err(HostCallRaised)
    ensures r.Ok? ==> |r.value| <= |f.signature.results|
    ensures r.Ok? ==> forall k :: 0 <= k < |r.value| ==> TypeOf(r.value[k]) == f.signature.results[k]
    ensures r.Ok? ==> host(f.callable, ArgumentsToHost(inputs)).Returned?
    ensures host(f.callable, ArgumentsToHost(inputs)).Returned? && r.Ok? ==>
              var returned := Normalize(host(f.callable, ArgumentsToHost(inputs)).value);
              && |r.value| == Min(|returned|, |f.signature.results|)
              && forall k :: 0 <= k < |r.value| ==> ToHost(r.value[k]) == returned[k]
  {
    Invoke(f.signature.results, args => host(f.callable, args), inputs)
  }

  /** A trampoline without declared results ignores whatever the callable returns. */
  lemma InvokeWithoutResults(call: seq<HostValue> -> CallOutcome, inputs: seq<Value>)
    requires call(ArgumentsToHost(inputs)).Returned?
    ensures Invoke([], call, inputs) == Ok([])
  {
  }

  /**
   * With one declared result, a non-tuple return value is the single result:
   * the call yields exactly its conversion at that type, and never fails for
   * arity.
   */
  lemma InvokeSingleValue(t: WasmType, call: seq<HostValue> -> CallOutcome, inputs: seq<Value>)
    requires call(ArgumentsToHost(inputs)).Returned?
    requires !call(ArgumentsToHost(inputs)).value.PyTuple?
    ensures var h := call(ArgumentsToHost(inputs)).value;
            Invoke([t], call, inputs) == if FromHost(h, t).Ok? then Ok([FromHost(h, t).value]) else Err(ResultNotConvertible(t))
  {
    var h := call(ArgumentsToHost(inputs)).value;
    assert Normalize(h) == [h];
    assert ResultsFromHost([h][1..], [t][1..]) == Ok([]);
    if FromHost(h, t).Ok? {
      assert [FromHost(h, t).value] + [] == [FromHost(h, t).value];
    }
  }
}
