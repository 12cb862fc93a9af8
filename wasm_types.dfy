/**
 * The WebAssembly-side vocabulary shared by every component: value types,
 * the engine's tagged value union, function signatures and the import and
 * export descriptors a compiled module exposes.
 */
module WasmTypes {
  import opened Wrappers

  type Int32 = x: int | -0x8000_0000 <= x < 0x8000_0000
  type Int64 = x: int | -0x8000_0000_0000_0000 <= x < 0x8000_0000_0000_0000
  type UInt32 = x: int | 0 <= x < 0x1_0000_0000
  type UInt128 = x: int | 0 <= x < 0x1_0000_0000_0000_0000_0000_0000_0000_0000
  newtype Byte = x: int | 0 <= x < 256

  /** A floating-point payload, kept opaque: the bridge never computes with floats. */
  datatype Float = Float(bits: nat)

  /** The closed set of value types; there is no implicit widening between them. */
  datatype WasmType = I32 | I64 | F32 | F64 | V128

  /** The engine's tagged value union: a type tag with its payload. */
  datatype Value =
    | I32(i32: Int32)
    | I64(i64: Int64)
    | F32(f32: Float)
    | F64(f64: Float)
    | V128(v128: UInt128)

  /** The tag of a tagged value. */
  function TypeOf(v: Value): WasmType {
    match v
    case I32(_) => WasmType.I32
    case I64(_) => WasmType.I64
    case F32(_) => WasmType.F32
    case F64(_) => WasmType.F64
    case V128(_) => WasmType.V128
  }

  /** The tags of a sequence of tagged values, position by position. */
  function TypesOf(vs: seq<Value>): seq<WasmType> {
    seq(|vs|, k requires 0 <= k < |vs| => TypeOf(vs[k]))
  }

  /** A function signature: ordered parameter types and result types. */
  datatype FuncType = FuncType(params: seq<WasmType>, results: seq<WasmType>)

  /** What an import asks for, per kind (the engine's extern descriptor). */
  datatype Extern =
    | FunctionImport(signature: FuncType)
    | MemoryImport(minimumPages: UInt32, maximumPages: Option<UInt32>)
    | GlobalImport(mutable: bool, globalType: WasmType)
    | TableImport(minimumElements: UInt32, maximumElements: Option<UInt32>, elementType: WasmType)

  /** One import slot of a module: (namespace, name) and what it expects. */
  datatype ImportDescriptor = ImportDescriptor(namespace: string, name: string, ty: Extern)

  /** The index an export refers to, per kind; the number also stands for the runtime object. */
  datatype ExportIndex =
    | FunctionIndex(index: nat)
    | MemoryIndex(index: nat)
    | GlobalIndex(index: nat)
    | TableIndex(index: nat)

  datatype Export = Export(name: string, index: ExportIndex)

  /**
   * What the engine reports about a compiled module: its imports in order,
   * its exports in order (the engine keys them by name) and its custom
   * sections (a name may occur several times).
   */
  datatype ModuleInfo = ModuleInfo(
    imports: seq<ImportDescriptor>,
    exports: seq<Export>,
    customSections: map<string, seq<seq<Byte>>>)

  /** A running engine instance, seen through the exports it lists. */
  datatype EngineInstance = EngineInstance(exports: seq<Export>)

  /** Export names are unique: the engine stores exports in a map keyed by name. */
  ghost predicate UniqueExportNames(exports: seq<Export>) {
    forall i, j :: 0 <= i < j < |exports| ==> exports[i].name != exports[j].name
  }
}
