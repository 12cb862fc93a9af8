/**
 * The Python `Value` class (src/value.rs): one static constructor per type
 * tag, each wrapping its argument in the engine's tagged value union. No
 * constructor fails.
 */
module Values {
  import opened Wrappers
  import opened WasmTypes
  import opened HostObjects
  import opened Trampoline

  /** The Python object: one tagged engine value. */
  datatype ValueObject = ValueObject(value: Value)

  /** `Value.i32(v)`: tag I32, and the payload seen by the host is `v`. */
  function NewI32(v: Int32): (r: Result<ValueObject, string>)
    ensures r.Ok? && TypeOf(r.value.value) == WasmType.I32 && ToHost(r.value.value) == PyInt(v)
  {
    Ok(ValueObject(Value.I32(v)))
  }

  /** `Value.i64(v)`: tag I64, and the payload seen by the host is `v`. */
  function NewI64(v: Int64): (r: Result<ValueObject, string>)
    ensures r.Ok? && TypeOf(r.value.value) == WasmType.I64 && ToHost(r.value.value) == PyInt(v)
  {
    Ok(ValueObject(Value.I64(v)))
  }

  /** `Value.f32(v)`: tag F32 around the float payload. */
  function NewF32(v: Float): (r: Result<ValueObject, string>)
    ensures r.Ok? && TypeOf(r.value.value) == WasmType.F32 && ToHost(r.value.value) == PyFloat(v)
  {
    Ok(ValueObject(Value.F32(v)))
  }

  /** `Value.f64(v)`: tag F64 around the float payload. */
  function NewF64(v: Float): (r: Result<ValueObject, string>)
    ensures r.Ok? && TypeOf(r.value.value) == WasmType.F64 && ToHost(r.value.value) == PyFloat(v)
  {
    Ok(ValueObject(Value.F64(v)))
  }

  /** `Value.v128(v)` for an unsigned 128-bit `v`: tag V128, and the host sees `v`. */
  function NewV128(v: UInt128): (r: Result<ValueObject, string>)
    ensures r.Ok? && TypeOf(r.value.value) == WasmType.V128 && ToHost(r.value.value) == PyInt(v)
  {
    Ok(ValueObject(Value.V128(v)))
  }

  /**
   * A value built by a constructor is exactly what the trampoline produces
   * when the host hands back the same payload for that type.
   */
  lemma ConstructorsAgreeWithMarshalling(i: Int32, l: Int64, f: Float, u: UInt128)
    ensures FromHost(PyInt(i), WasmType.I32) == Ok(NewI32(i).value.value)
    ensures FromHost(PyInt(l), WasmType.I64) == Ok(NewI64(l).value.value)
    ensures FromHost(PyFloat(f), WasmType.F32) == Ok(NewF32(f).value.value)
    ensures FromHost(PyFloat(f), WasmType.F64) == Ok(NewF64(f).value.value)
    ensures FromHost(PyInt(u), WasmType.V128) == Ok(NewV128(u).value.value)
  {
    MarshalRoundTrip(NewI32(i).value.value);
    MarshalRoundTrip(NewI64(l).value.value);
    MarshalRoundTrip(NewF32(f).value.value);
    MarshalRoundTrip(NewF64(f).value.value);
    MarshalRoundTrip(NewV128(u).value.value);
  }
}
