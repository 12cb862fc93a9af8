/**
 * The `Module` class (src/module.rs): a compiled module seen through the
 * records its `exports` and `imports` getters list, its custom sections,
 * `validate` and `instantiate` (with an empty import object).
 */
module ModuleMetadata {
  import opened Wrappers
  import opened WasmTypes
  import opened HostObjects
  import opened ImportObjects
  import opened Instances

  /** The `ExportKind` / `ImportKind` enumeration shared by both getters. */
  datatype ExportKind = Function | Memory | Global | Table

  /** The integer value of each kind. */
  function KindCode(kind: ExportKind): (code: int)
    ensures 1 <= code <= 4
  {
    match kind
    case Function => 1
    case Memory => 2
    case Global => 3
    case Table => 4
  }

  /** The kind an integer denotes, if any. */
  function KindFromCode(code: int): (kind: Option<ExportKind>)
    ensures kind.Some? <==> 1 <= code <= 4
  {
    if code == 1 then Some(Function)
    else if code == 2 then Some(Memory)
    else if code == 3 then Some(Global)
    else if code == 4 then Some(Table)
    else None
  }

  /** Every kind is recovered from its code. */
  lemma KindCodeRoundTrip(kind: ExportKind)
    ensures KindFromCode(KindCode(kind)) == Some(kind)
  {
  }

  /** The codes are exactly 1, 2, 3 and 4, one per kind: the enumeration has four members. */
  lemma KindCodesAreFourDistinct(kind: ExportKind, code: int)
    ensures KindFromCode(code) == Some(kind) <==> KindCode(kind) == code
  {
  }

  /** A value stored in one of the getters' Python dicts. */
  datatype Field =
    | IntField(n: int)
    | BoolField(b: bool)
    | StrField(s: string)
    | KindField(kind: ExportKind)
    | NoneField

  type Record = map<string, Field>

  // ---------------------------------------------------------------------
  // exports

  /** The kind of an export, by its index variant. */
  function KindOfIndex(index: ExportIndex): ExportKind {
    match index
    case FunctionIndex(_) => Function
    case MemoryIndex(_) => Memory
    case GlobalIndex(_) => Global
    case TableIndex(_) => Table
  }

  /** An export record: a `kind` holding the enumeration member and a `name`. */
  function ExportRecord(e: Export): (r: Record)
    ensures r.Keys == {"kind", "name"}
    ensures r["name"] == StrField(e.name)
    ensures r["kind"].KindField?
    ensures r["kind"].kind == Function <==> e.index.FunctionIndex?
    ensures r["kind"].kind == Memory <==> e.index.MemoryIndex?
    ensures r["kind"].kind == Global <==> e.index.GlobalIndex?
    ensures r["kind"].kind == Table <==> e.index.TableIndex?
  {
    map["kind" := KindField(KindOfIndex(e.index)), "name" := StrField(e.name)]
  }

  /** The `exports` getter: one record per export, in the module's order. */
  method Exports(info: ModuleInfo) returns (items: seq<Record>)
    ensures |items| == |info.exports|
    ensures forall k :: 0 <= k < |items| ==> items[k] == ExportRecord(info.exports[k])
  {
    items := [];
    for k := 0 to |info.exports|
      invariant |items| == k
      invariant forall j :: 0 <= j < k ==> items[j] == ExportRecord(info.exports[j])
    {
      items := items + [ExportRecord(info.exports[k])];
    }
  }

  // ---------------------------------------------------------------------
  // imports

  /** The type -> string map of global and table import records. */
  function TypeName(t: WasmType): string {
    match t
    case I32 => "i32"
    case I64 => "i64"
    case F32 => "f32"
    case F64 => "f64"
    case V128 => "v128"
  }

  /** The inverse of `TypeName`. */
  function TypeFromName(s: string): (t: Option<WasmType>)
    ensures t.Some? <==> s in {"i32", "i64", "f32", "f64", "v128"}
  {
    if s == "i32" then Some(WasmType.I32)
    else if s == "i64" then Some(WasmType.I64)
    else if s == "f32" then Some(WasmType.F32)
    else if s == "f64" then Some(WasmType.F64)
    else if s == "v128" then Some(WasmType.V128)
    else None
  }

  lemma TypeNameRoundTrip(t: WasmType)
    ensures TypeFromName(TypeName(t)) == Some(t)
  {
  }

  lemma TypeFromNameSound(s: string, t: WasmType)
    requires TypeFromName(s) == Some(t)
    ensures TypeName(t) == s
  {
  }

  /** Distinct types get distinct names. */
  lemma TypeNameInjective(t: WasmType, u: WasmType)
    ensures TypeName(t) == TypeName(u) ==> t == u
  {
  }

  function ImportKindOf(ty: Extern): ExportKind {
    match ty
    case FunctionImport(_) => Function
    case MemoryImport(_, _) => Memory
    case GlobalImport(_, _) => Global
    case TableImport(_, _, _) => Table
  }

  /** An optional limit: the number, or Python's `None` when absent. */
  function OptionalLimit(limit: Option<UInt32>): (f: Field)
    ensures f.NoneField? <==> limit.None?
    ensures limit.Some? ==> f == IntField(limit.value)
  {
    match limit
    case Some(n) => IntField(n)
    case None => NoneField
  }

  /**
   * An import record: `kind` (the kind's integer code), `namespace` and
   * `name`, plus the pairs of its kind.
   */
  function ImportRecord(d: ImportDescriptor): (r: Record)
    ensures {"kind", "namespace", "name"} <= r.Keys
    ensures r["kind"] == IntField(KindCode(ImportKindOf(d.ty)))
    ensures r["namespace"] == StrField(d.namespace) && r["name"] == StrField(d.name)
    ensures d.ty.FunctionImport? ==> r.Keys == {"kind", "namespace", "name"}
    ensures d.ty.MemoryImport? ==>
              && r.Keys == {"kind", "namespace", "name", "minimum_pages", "maximum_pages"}
              && r["minimum_pages"] == IntField(d.ty.minimumPages)
              && (r["maximum_pages"].NoneField? <==> d.ty.maximumPages.None?)
              && (d.ty.maximumPages.Some? ==> r["maximum_pages"] == IntField(d.ty.maximumPages.value))
    ensures d.ty.GlobalImport? ==>
              && r.Keys == {"kind", "namespace", "name", "mutable", "type"}
              && r["mutable"] == BoolField(d.ty.mutable)
              && r["type"].StrField?
              && TypeFromName(r["type"].s) == Some(d.ty.globalType)
    ensures d.ty.TableImport? ==>
              && r.Keys == {"kind", "namespace", "name", "minimum_elements", "maximum_elements", "element_type"}
              && r["minimum_elements"] == IntField(d.ty.minimumElements)
              && (r["maximum_elements"].NoneField? <==> d.ty.maximumElements.None?)
              && (d.ty.maximumElements.Some? ==> r["maximum_elements"] == IntField(d.ty.maximumElements.value))
              && r["element_type"].StrField?
              && TypeFromName(r["element_type"].s) == Some(d.ty.elementType)
  {
    var common := map["kind" := IntField(KindCode(ImportKindOf(d.ty))),
                      "namespace" := StrField(d.namespace),
                      "name" := StrField(d.name)];
    match d.ty
    case FunctionImport(_) => common
    case MemoryImport(minimum, maximum) =>
      common["minimum_pages" := IntField(minimum)]["maximum_pages" := OptionalLimit(maximum)]
    case GlobalImport(mutable, t) =>
      TypeNameRoundTrip(t);
      common["mutable" := BoolField(mutable)]["type" := StrField(TypeName(t))]
    case TableImport(minimum, maximum, t) =>
      TypeNameRoundTrip(t);
      common["minimum_elements" := IntField(minimum)]["maximum_elements" := OptionalLimit(maximum)]
            ["element_type" := StrField(TypeName(t))]
  }

  /**
   * A record determines its descriptor, except for a function import's
   * signature, which the record does not show.
   */
  lemma ImportRecordDeterminesDescriptor(d: ImportDescriptor, e: ImportDescriptor)
    requires ImportRecord(d) == ImportRecord(e)
    ensures d.namespace == e.namespace && d.name == e.name
    ensures ImportKindOf(d.ty) == ImportKindOf(e.ty)
    ensures !d.ty.FunctionImport? ==> d == e
  {
  }

  /** The `imports` getter: one record per import descriptor, in order. */
  method Imports(info: ModuleInfo) returns (items: seq<Record>)
    ensures |items| == |info.imports|
    ensures forall k :: 0 <= k < |items| ==> items[k] == ImportRecord(info.imports[k])
  {
    items := [];
    for k := 0 to |info.imports|
      invariant |items| == k
      invariant forall j :: 0 <= j < k ==> items[j] == ImportRecord(info.imports[j])
    {
      items := items + [ImportRecord(info.imports[k])];
    }
  }

  // ---------------------------------------------------------------------
  // custom sections, validate, new, instantiate

  /** `custom_section(name, index=0)`: the bytes of that occurrence of the section, or `None`. */
  function CustomSection(info: ModuleInfo, name: string, index: nat := 0): (r: Option<seq<Byte>>)
    ensures r.Some? <==> name in info.customSections && index < |info.customSections[name]|
    ensures r.Some? ==> r.value == info.customSections[name][index]
  {
    if name in info.customSections then
      var sections := info.customSections[name];
      if index < |sections| then Some(sections[index]) else None
    else None
  }

  /** Without an index, the first section so named is returned. */
  lemma CustomSectionDefaultIsFirst(info: ModuleInfo, name: string)
    requires name in info.customSections && |info.customSections[name]| > 0
    ensures CustomSection(info, name) == Some(info.customSections[name][0])
  {
  }

  /** `validate`: a non-bytes argument is invalid rather than an error; bytes go to the engine. */
  function Validate(argument: BytesArgument, engineValidate: seq<Byte> -> bool): (r: bool)
    ensures !argument.PyBytes? ==> !r
    ensures argument.PyBytes? ==> r == engineValidate(argument.bytes)
  {
    match argument
    case PyBytes(bytes) => engineValidate(bytes)
    case NotBytes => false
  }

  /** The `Module` object: the compiled module the engine reports on. */
  datatype Module = Module(info: ModuleInfo)

  /** The constructor: the argument must be bytes, which must compile. */
  function NewModule(bytes: BytesArgument, compile: seq<Byte> -> Option<ModuleInfo>): (r: Result<Module, InstanceError>)
    ensures !bytes.PyBytes? ==> r == Err(BytesExpected)
    ensures bytes.PyBytes? ==> (r.Ok? <==> compile(bytes.bytes).Some?)
    ensures bytes.PyBytes? && r.Ok? ==> r.value.info == compile(bytes.bytes).value
    ensures bytes.PyBytes? && r.Err? ==> r.error == CompileFailed
  {
    match bytes
    case NotBytes => Err(BytesExpected)
    case PyBytes(b) =>
      (match compile(b)
       case Some(info) => Ok(Module(info))
       case None => Err(CompileFailed))
  }

  /**
   * `instantiate`: the module is instantiated with an empty import object,
   * then the exports are collected as the `Instance` constructor does.
   */
  method Instantiate(m: Module, instantiate: (ModuleInfo, ImportObject) -> Option<EngineInstance>)
    returns (r: Result<Instance, InstanceError>)
    ensures instantiate(m.info, ImportObject(map[])).None? ==> r == Err(InstantiationFailed)
    ensures instantiate(m.info, ImportObject(map[])).Some? ==>
              && r.Ok? && fresh(r.value)
              && r.value.instance == instantiate(m.info, ImportObject(map[])).value
              && r.value.ExportsCollected() && r.value.exportsIndexToName.None? && r.value.Valid()
  {
    var engineInstance := instantiate(m.info, ImportObject(map[]));
    if engineInstance.None? {
      return Err(InstantiationFailed);
    }
    var collected := CollectExports(engineInstance.value.exports);
    var memory := match collected.memory
                  case Some(mem) => Some(MemoryObject(mem))
                  case None => None;
    var created := new Instance.InnerNew(engineInstance.value,
                                         ExportedFunctions(engineInstance.value, collected.functions),
                                         memory, ExportedGlobals(collected.globals));
    return Ok(created);
  }
}
