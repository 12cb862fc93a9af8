/**
 * The `Instance` class (src/instance/mod.rs): how its import argument is
 * dispatched, how the exports of the engine instance are collected into the
 * exported functions, globals and memory, and the lazily filled cache from
 * function index to export name behind `resolve_exported_function`.
 */
module Instances {
  import opened Wrappers
  import opened WasmTypes
  import opened HostObjects
  import opened ImportSignatures
  import opened ImportObjects

  /** The `exports` object: the engine instance and the exported function names. */
  datatype ExportedFunctions = ExportedFunctions(instance: EngineInstance, functions: seq<string>)

  /** The `globals` object: each exported global with its name. */
  datatype ExportedGlobals = ExportedGlobals(globals: seq<(string, nat)>)

  /** The `memory` object around one exported memory. */
  datatype MemoryObject = MemoryObject(memory: nat)

  datatype InstanceError =
    | BytesExpected                   // the bytes argument is not Python `bytes`
    | CompileFailed                   // "Failed to compile the module: ..."
    | ImportBuildFailed(cause: BuildError)
    | UnknownImportValue              // "The `imported_functions` parameter contains an unknown value. ..."
    | InstantiationFailed             // "Failed to instantiate the module: ..."
    | FunctionIndexMissing(index: nat)  // "Function at index `i` does not exist."

  // ---------------------------------------------------------------------
  // Export collection

  /** Names of the function exports, in export order. */
  function FunctionNames(exports: seq<Export>): seq<string>
    decreases |exports|
  {
    if |exports| == 0 then []
    else
      var last := exports[|exports| - 1];
      FunctionNames(exports[..|exports| - 1]) + (if last.index.FunctionIndex? then [last.name] else [])
  }

  /** The global exports with their names, in export order. */
  function Globals(exports: seq<Export>): seq<(string, nat)>
    decreases |exports|
  {
    if |exports| == 0 then []
    else
      var last := exports[|exports| - 1];
      Globals(exports[..|exports| - 1]) + (if last.index.GlobalIndex? then [(last.name, last.index.index)] else [])
  }

  /** The memory exported first, if any; later memory exports are ignored. */
  function FirstMemory(exports: seq<Export>): Option<nat>
    decreases |exports|
  {
    if |exports| == 0 then None
    else
      var earlier := FirstMemory(exports[..|exports| - 1]);
      var last := exports[|exports| - 1];
      if last.index.MemoryIndex? && earlier.None? then Some(last.index.index) else earlier
  }

  datatype CollectedExports = CollectedExports(functions: seq<string>, globals: seq<(string, nat)>, memory: Option<nat>)

  /**
   * The loop over the instance's exports (src/instance/mod.rs and, identically,
   * src/module.rs): function names and globals are pushed in order, the
   * memory is taken only while none has been taken yet.
   */
  method CollectExports(exports: seq<Export>) returns (collected: CollectedExports)
    ensures collected == CollectedExports(FunctionNames(exports), Globals(exports), FirstMemory(exports))
  {
    var exportedFunctions: seq<string> := [];
    var exportedGlobals: seq<(string, nat)> := [];
    var exportedMemory: Option<nat> := None;
    for k := 0 to |exports|
      invariant exportedFunctions == FunctionNames(exports[..k])
      invariant exportedGlobals == Globals(exports[..k])
      invariant exportedMemory == FirstMemory(exports[..k])
    {
      assert exports[..k + 1][..k] == exports[..k];
      var e := exports[k];
      match e.index
      case FunctionIndex(_) =>
        exportedFunctions := exportedFunctions + [e.name];
      case GlobalIndex(g) =>
        exportedGlobals := exportedGlobals + [(e.name, g)];
      case MemoryIndex(m) =>
        if exportedMemory.None? {
          exportedMemory := Some(m);
        }
      case TableIndex(_) =>
    }
    assert exports[..|exports|] == exports;
    return CollectedExports(exportedFunctions, exportedGlobals, exportedMemory);
  }

  /** Function names are collected in order: the names of a concatenation concatenate. */
  lemma {:induction false} FunctionNamesAppend(a: seq<Export>, b: seq<Export>)
    ensures FunctionNames(a + b) == FunctionNames(a) + FunctionNames(b)
    decreases |b|
  {
    if |b| == 0 {
      assert a + b == a;
    } else {
      FunctionNamesAppend(a, b[..|b| - 1]);
      assert (a + b)[..|a + b| - 1] == a + b[..|b| - 1];
    }
  }

  /** A name is collected exactly when some function export carries it. */
  lemma {:induction false} FunctionNamesMembership(exports: seq<Export>, name: string)
    ensures name in FunctionNames(exports) <==>
            exists k :: 0 <= k < |exports| && exports[k].index.FunctionIndex? && exports[k].name == name
    decreases |exports|
  {
    if |exports| > 0 {
      var front := exports[..|exports| - 1];
      FunctionNamesMembership(front, name);
      assert forall k :: 0 <= k < |front| ==> front[k] == exports[k];
    }
  }

  /** Globals are collected in order: the globals of a concatenation concatenate. */
  lemma {:induction false} GlobalsAppend(a: seq<Export>, b: seq<Export>)
    ensures Globals(a + b) == Globals(a) + Globals(b)
    decreases |b|
  {
    if |b| == 0 {
      assert a + b == a;
    } else {
      GlobalsAppend(a, b[..|b| - 1]);
      assert (a + b)[..|a + b| - 1] == a + b[..|b| - 1];
    }
  }

  /** No memory is collected exactly when no memory is exported. */
  lemma {:induction false} FirstMemoryNone(exports: seq<Export>)
    ensures FirstMemory(exports).None? <==> forall k :: 0 <= k < |exports| ==> !exports[k].index.MemoryIndex?
    decreases |exports|
  {
    if |exports| > 0 {
      var front := exports[..|exports| - 1];
      FirstMemoryNone(front);
      assert forall k :: 0 <= k < |front| ==> front[k] == exports[k];
    }
  }

  /** The collected memory is that of the first memory export. */
  lemma {:induction false} FirstMemoryIsFirst(exports: seq<Export>)
    requires FirstMemory(exports).Some?
    ensures exists k :: 0 <= k < |exports| && exports[k].index == MemoryIndex(FirstMemory(exports).value)
                        && forall j :: 0 <= j < k ==> !exports[j].index.MemoryIndex?
    decreases |exports|
  {
    var front := exports[..|exports| - 1];
    assert forall k :: 0 <= k < |front| ==> front[k] == exports[k];
    if FirstMemory(front).Some? {
      FirstMemoryIsFirst(front);
    } else {
      FirstMemoryNone(front);
    }
  }

  /** Only the first memory counts: memories exported later are ignored. */
  lemma {:induction false} FirstMemoryAppend(a: seq<Export>, b: seq<Export>)
    ensures FirstMemory(a + b) == if FirstMemory(a).Some? then FirstMemory(a) else FirstMemory(b)
    decreases |b|
  {
    if |b| == 0 {
      assert a + b == a;
    } else {
      FirstMemoryAppend(a, b[..|b| - 1]);
      assert (a + b)[..|a + b| - 1] == a + b[..|b| - 1];
    }
  }

  // ---------------------------------------------------------------------
  // Index to name

  /**
   * The engine's `resolve_func(name)`: the export of that name must be a
   * function, whose index it returns. Exports are looked up by name, so the
   * first one so named answers.
   */
  function ResolveFunc(exports: seq<Export>, name: string): (r: Option<nat>)
    ensures (forall k :: 0 <= k < |exports| ==> exports[k].name != name) ==> r.None?
    ensures forall k :: 0 <= k < |exports| && exports[k].name == name &&
                        (forall j :: 0 <= j < k ==> exports[j].name != name) ==>
                          r == (if exports[k].index.FunctionIndex? then Some(exports[k].index.index) else None)
    decreases |exports|
  {
    if |exports| == 0 then None
    else if exports[0].name == name then
      (if exports[0].index.FunctionIndex? then Some(exports[0].index.index) else None)
    else ResolveFunc(exports[1..], name)
  }

  /** With unique names, a function export resolves to its own index. */
  lemma {:induction false} ResolveFuncOwnIndex(exports: seq<Export>, k: nat)
    requires UniqueExportNames(exports)
    requires k < |exports| && exports[k].index.FunctionIndex?
    ensures ResolveFunc(exports, exports[k].name) == Some(exports[k].index.index)
    decreases |exports|
  {
    if k > 0 {
      assert exports[0].name != exports[k].name;
      assert exports[1..][k - 1] == exports[k];
      ResolveFuncOwnIndex(exports[1..], k - 1);
    }
  }

  /**
   * The first `k` exports folded into the index -> name map: each function
   * export is keyed by `resolve_func` of its name; a later entry for the same
   * index replaces an earlier one. The `None` arm is the source's `unwrap`
   * panic, which unique export names rule out.
   */
  function IndexToNamePrefix(exports: seq<Export>, k: nat): map<nat, string>
    requires k <= |exports|
  {
    if k == 0 then map[]
    else
      var m := IndexToNamePrefix(exports, k - 1);
      var e := exports[k - 1];
      if e.index.FunctionIndex? then
        match ResolveFunc(exports, e.name)
        case Some(i) => m[i := e.name]
        case None => m
      else m
  }

  function IndexToName(exports: seq<Export>): map<nat, string> {
    IndexToNamePrefix(exports, |exports|)
  }

  lemma {:induction false} IndexToNamePrefixCharacterized(exports: seq<Export>, k: nat, i: nat)
    requires UniqueExportNames(exports)
    requires k <= |exports|
    ensures i in IndexToNamePrefix(exports, k) <==>
            exists j :: 0 <= j < k && exports[j].index == FunctionIndex(i)
    ensures i in IndexToNamePrefix(exports, k) ==>
            exists j :: 0 <= j < k && exports[j].index == FunctionIndex(i)
                       && exports[j].name == IndexToNamePrefix(exports, k)[i]
  {
    if k > 0 {
      IndexToNamePrefixCharacterized(exports, k - 1, i);
      if exports[k - 1].index.FunctionIndex? {
        ResolveFuncOwnIndex(exports, k - 1);
      }
    }
  }

  /**
   * The cache holds exactly the indices of the function exports, each mapped
   * to the name of a function export with that index.
   */
  lemma IndexToNameCharacterized(exports: seq<Export>, i: nat)
    requires UniqueExportNames(exports)
    ensures i in IndexToName(exports) <==> exists j :: 0 <= j < |exports| && exports[j].index == FunctionIndex(i)
    ensures i in IndexToName(exports) ==>
            exists j :: 0 <= j < |exports| && exports[j].index == FunctionIndex(i)
                       && exports[j].name == IndexToName(exports)[i]
  {
    IndexToNamePrefixCharacterized(exports, |exports|, i);
  }

  /** A lookup in a filled cache: the mapped name, or the missing-index error. */
  function LookupFunctionName(indexToName: map<nat, string>, index: nat): (r: Result<string, InstanceError>)
    ensures r.Ok? <==> index in indexToName
    ensures r.Ok? ==> r.value == indexToName[index]
    ensures r.Err? ==> r.error == FunctionIndexMissing(index)
  {
    if index in indexToName then Ok(indexToName[index]) else Err(FunctionIndexMissing(index))
  }

  // ---------------------------------------------------------------------
  // Import dispatch

  /** The `import_object` argument of the constructor. */
  datatype ImportArgument =
    | ImportObjectArgument(importObject: ImportObject)
    | DictArgument(registry: Registry)
    | OtherArgument

  /**
   * An import object is used as is, a dict is first built into an import
   * object against the module's imports, anything else is rejected.
   */
  function ImportObjectFor(argument: ImportArgument, imports: seq<ImportDescriptor>): (r: Result<ImportObject, InstanceError>)
    ensures argument.ImportObjectArgument? ==> r == Ok(argument.importObject)
    ensures argument.OtherArgument? ==> r == Err(UnknownImportValue)
    ensures argument.DictArgument? ==>
              && (r.Ok? <==> ImportObjectOf(imports, argument.registry).Ok?)
              && (r.Ok? ==> r.value == ImportObjectOf(imports, argument.registry).value.0)
              && (r.Err? ==> r.error == ImportBuildFailed(ImportObjectOf(imports, argument.registry).error))
  {
    match argument
    case ImportObjectArgument(importObject) => Ok(importObject)
    case DictArgument(registry) =>
      (match ImportObjectOf(imports, registry)
       case Ok(built) => Ok(built.0)
       case Err(e) => Err(ImportBuildFailed(e)))
    case OtherArgument => Err(UnknownImportValue)
  }

  // ---------------------------------------------------------------------
  // The Instance class

  class Instance {
    const instance: EngineInstance
    const exports: ExportedFunctions
    const memory: Option<MemoryObject>
    const globals: ExportedGlobals
    /** Filled on the first call of `ResolveExportedFunction`, then only read. */
    var exportsIndexToName: Option<map<nat, string>>

    /** A filled cache is the index -> name map of the instance's exports. */
    ghost predicate Valid()
      reads this
    {
      exportsIndexToName.Some? ==> exportsIndexToName.value == IndexToName(instance.exports)
    }

    /** The exported functions, globals and memory are those collected from the instance. */
    ghost predicate ExportsCollected()
      reads this
    {
      && exports == ExportedFunctions(instance, FunctionNames(instance.exports))
      && globals == ExportedGlobals(Globals(instance.exports))
      && memory == (match FirstMemory(instance.exports)
                    case Some(m) => Some(MemoryObject(m))
                    case None => None)
    }

    /** `inner_new`: the arguments are stored unchanged and the cache starts empty. */
    constructor InnerNew(instance: EngineInstance, exports: ExportedFunctions, memory: Option<MemoryObject>,
                         globals: ExportedGlobals)
      ensures this.instance == instance && this.exports == exports
      ensures this.memory == memory && this.globals == globals
      ensures exportsIndexToName == None
      ensures Valid()
    {
      this.instance := instance;
      this.exports := exports;
      this.memory := memory;
      this.globals := globals;
      this.exportsIndexToName := None;
    }

    /** The `memory` getter: nothing exactly when the instance exports no memory. */
    function Memory(): (r: Option<MemoryObject>)
      reads this
      requires ExportsCollected()
      ensures r.None? <==> forall k :: 0 <= k < |instance.exports| ==> !instance.exports[k].index.MemoryIndex?
    {
      FirstMemoryNone(instance.exports);
      memory
    }

    /**
     * `resolve_exported_function(index)`: fills the cache on first use,
     * then answers from it. The answer does not depend on whether the cache
     * was filled before the call.
     */
    method ResolveExportedFunction(index: nat) returns (r: Result<string, InstanceError>)
      requires Valid()
      modifies this
      ensures Valid()
      ensures exportsIndexToName == Some(IndexToName(instance.exports))
      ensures r == LookupFunctionName(IndexToName(instance.exports), index)
      decreases if exportsIndexToName.None? then 1 else 0
    {
      match exportsIndexToName
      case Some(indexToName) =>
        r := LookupFunctionName(indexToName, index);
      case None =>
        exportsIndexToName := Some(IndexToName(instance.exports));
        r := ResolveExportedFunction(index);
    }

    /**
     * The constructor: read the bytes, compile them, build or take the
     * import object, instantiate, then collect the exports. Compilation and
     * instantiation belong to the engine and are parameters here.
     */
    static method New(bytes: BytesArgument, importArgument: ImportArgument := DictArgument([]),
                      compile: seq<Byte> -> Option<ModuleInfo>,
                      instantiate: (ModuleInfo, ImportObject) -> Option<EngineInstance>)
      returns (r: Result<Instance, InstanceError>)
      ensures !bytes.PyBytes? ==> r == Err(BytesExpected)
      ensures bytes.PyBytes? && compile(bytes.bytes).None? ==> r == Err(CompileFailed)
      ensures bytes.PyBytes? && compile(bytes.bytes).Some? ==>
                var imports := ImportObjectFor(importArgument, compile(bytes.bytes).value.imports);
                && (imports.Err? ==> r == Err(imports.error))
                && (imports.Ok? && instantiate(compile(bytes.bytes).value, imports.value).None? ==>
                      r == Err(InstantiationFailed))
                && (imports.Ok? && instantiate(compile(bytes.bytes).value, imports.value).Some? ==>
                      && r.Ok? && fresh(r.value)
                      && r.value.instance == instantiate(compile(bytes.bytes).value, imports.value).value
                      && r.value.ExportsCollected() && r.value.exportsIndexToName.None? && r.value.Valid())
    {
      if !bytes.PyBytes? {
        return Err(BytesExpected);
      }
      var compiled := compile(bytes.bytes);
      if compiled.None? {
        return Err(CompileFailed);
      }
      var importObject := ImportObjectFor(importArgument, compiled.value.imports);
      if importObject.Err? {
        return Err(importObject.error);
      }
      var engineInstance := instantiate(compiled.value, importObject.value);
      if engineInstance.None? {
        return Err(InstantiationFailed);
      }
      var collected := CollectExports(engineInstance.value.exports);
      var memory := match collected.memory
                    case Some(m) => Some(MemoryObject(m))
                    case None => None;
      var created := new Instance.InnerNew(engineInstance.value,
                                           ExportedFunctions(engineInstance.value, collected.functions),
                                           memory, ExportedGlobals(collected.globals));
      return Ok(created);
    }
  }
}
