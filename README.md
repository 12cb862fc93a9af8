# python-ext-wasm bridge core, modelled in Dafny

This project models the bookkeeping core of the `wasmer` Python extension, which is written in Rust with pyo3:

- **Host-function import bridge** (src/import.rs, `build_import_object`). A registry `namespace -> name -> callable` is checked against the module's declared function imports. Each callable's effective signature is resolved from its `__annotations__`. Each callable is then wrapped in a trampoline that marshals tagged WebAssembly values to host values and back.
- **`Module` metadata** (src/module.rs): the `exports` and `imports` records, the kind codes and the type-to-string map, `custom_section`, `validate`'s non-bytes path, and `instantiate` with an empty import object.
- **`Instance` bookkeeping** (src/instance/mod.rs): the three-way dispatch of the import argument, the export-collection loop (function names in order, globals, only the first memory), the `memory` getter, and the lazily filled index-to-name cache behind `resolve_exported_function`.
- **`Value` constructors** (src/value.rs) of the tagged value union.

The engine's jobs are parameters: compilation, instantiation, validation of bytes, and calling a host callable (`call: seq<HostValue> -> CallOutcome`). The one exception is the engine's `resolve_func`, which is defined as a lookup by name in the export list. Python dicts are modelled as sequences of key/value pairs in iteration order, and their keys may be non-strings. Float payloads are opaque tokens.

Files, in import order:

- `wrappers.dfy`: `Option` and `Result`.
- `wasm_types.dfy`: value types, the tagged value, and the import/export descriptors.
- `host_objects.dfy`: the Python-side values.
- `import_signatures.dfy`: the signature lookup and the annotation resolver.
- `trampoline.dfy`: marshalling.
- `import_object.dfy`: the build loops.
- `values.dfy`: the `Value` constructors.
- `instances.dfy`: `Instance`.
- `module_metadata.dfy`: `Module`.

## Model

| member | source | states |
|---|---|---|
| ImportObjects.BuildImportObjectUnsupported | src/import.rs:7-20 | Off x86_64 unix, the build succeeds exactly when the registry is empty. It then gives an empty import object and no references; otherwise it fails with the unsupported-platform error. |
| ImportSignatures.SignatureTable | src/import.rs:39-54 | Defined as a fold over the imports. A function import is stored under (namespace, name) with its signature, a later one overwriting an earlier one, and other kinds are skipped. `SignatureTableKeys` and `SignatureTableValue` characterise it. |
| ImportSignatures.SignatureTableKeys | src/import.rs:39-54 | A (namespace, name) key is in the signature lookup exactly when some function import declares it. Memory, global and table imports contribute nothing. |
| ImportSignatures.SignatureTableValue | src/import.rs:39-54 | The looked-up signature is that of the last function import declaring the key, because collecting into a map lets later entries win. |
| ImportSignatures.AcceptedTokens | src/import.rs:122-126 | Defined as the accepted token sets: "i32", "I32" and "<class 'int'>" for I32; "i64", "I64" and "<class 'int'>" for I64; "f32", "F32" and "<class 'float'>" for F32; "f64", "F64" and "<class 'float'>" for F64; nothing for V128. |
| ImportSignatures.MatchAnnotation | src/import.rs:122-133 | A token is accepted exactly when it is in the accepted set of the expected type. The accepted type is then the expected type, and V128 accepts nothing. |
| ImportSignatures.ResolvePrefix | src/import.rs:116-139 | Defined as a left fold over the first k zipped (annotation, expected type) pairs. It fails at the first rejected token and otherwise appends the type to the outputs for the name "return" and to the inputs for any other name. `ResolvePrefixCharacterized` characterises it. |
| ImportSignatures.ResolvePrefixCharacterized | src/import.rs:116-139 | A prefix of the zipped annotations resolves exactly when every paired token is accepted. The inputs and outputs are then the paired types routed by the name "return", in order. On failure, the first rejected position is named. |
| ImportSignatures.PrefixFailurePersists | src/import.rs:127-132 | Once a pairing is rejected, no later pairing changes the error, because the resolver fails fast. |
| ImportSignatures.ResolvePrefixStep | src/import.rs:122-138 | After an accepted prefix, the next pair either fails with that token's error or appends its type to the outputs for "return" and to the inputs otherwise. |
| ImportSignatures.ResolveSignature | src/import.rs:146-149 | An empty annotations dict yields the declared params and results verbatim. |
| ImportSignatures.ResolveSignatureCharacterized | src/import.rs:115-145 | With annotations present, resolution pairs only min(annotations, params+results) positions. It succeeds exactly when all paired tokens are accepted and at most one goes to the outputs, and the signature is then the routed types. |
| ImportSignatures.InconsistentAnnotationRejected | src/import.rs:122-132 | A single incompatible token at a paired position rejects the callable. |
| ImportSignatures.RoutedSplit | src/import.rs:135-138 | When exactly the positions past the params are named "return", routing splits the declared sequence back into params and results. |
| ImportSignatures.FullyAnnotatedYieldsDeclared | src/import.rs:115-145 | A full, consistent annotation with at most one result reproduces the declared signature. |
| ImportSignatures.EffectiveSignature | src/import.rs:95-149 | Computes exactly `ResolveSignature`. It copies the declared types for an empty annotations dict; otherwise it routes the annotations and rejects more than one output type. |
| ImportSignatures.RouteAnnotations | src/import.rs:116-139 | The loop over the zipped pairs, with its pushes and its early return on a rejected token, computes exactly `ResolvePrefix` over min(annotations, params+results) pairs. |
| Trampoline.ToHost | src/import.rs:162-171 | A value becomes a Python int exactly when it is I32, I64 or V128, and a Python float exactly when it is F32 or F64. |
| Trampoline.FromHost | src/import.rs:186-226 | A converted result carries the expected tag and marshals back to the host value. A failed conversion is the trap for that type. |
| Trampoline.MarshalRoundTrip | src/import.rs:162-171 | Converting a value to the host and back at its own type gives the value. |
| Trampoline.FromHostSucceedsIff | src/import.rs:189-225 | Conversion at a type succeeds exactly when the host value is the image of some value of that type: an int in range for I32/I64/V128, a float for F32/F64. |
| Trampoline.ArgumentsToHost | src/import.rs:162-171 | Arguments are converted one-to-one, preserving length, order and payload. |
| Trampoline.Normalize | src/import.rs:181-184 | A returned tuple is taken as is; any other return value becomes a 1-tuple. |
| Trampoline.ResultsFromHost | src/import.rs:186-226 | Zipping results with output types gives min(results, outputs) values, and output k carries the tag of output type k. |
| Trampoline.ResultsFromHostFailsIff | src/import.rs:186-226 | Result conversion fails exactly when some zipped position does not convert. |
| Trampoline.ArgumentsRoundTrip | src/import.rs:162-226 | Values converted to host values and converted back at their own tags are the original sequence. |
| Trampoline.Invoke | src/import.rs:156-227 | A raising callable traps. A successful call returned a value, and its outputs number exactly the minimum of the normalised results and the output types; output k carries the tag of output type k and the payload of result k. |
| Trampoline.Call | src/import.rs:154-188 | A registered trampoline calls its own callable and converts back at the output types it captured. A raising callable traps. A successful call returned a value, and its outputs number exactly the minimum of the normalised results and the signature's results; output k has the tag of result type k and the payload of returned result k. |
| Trampoline.InvokeWithoutResults | src/import.rs:181-188 | With no declared result, any return value yields no outputs. |
| Trampoline.InvokeSingleValue | src/import.rs:181-226 | A non-tuple return is wrapped as a 1-tuple. With one output type, the single result is its conversion at that type. |
| ImportObjects.BuildFunction | src/import.rs:72-154 | The per-entry checks fail in source order: a non-string name, a non-callable, a missing signature, a missing `__annotations__`, then non-dict annotations. Once those pass, a resolver error is returned unchanged. The build succeeds exactly when all five checks pass and the resolution succeeds, and the entry then becomes a trampoline of the resolved signature around that callable. |
| ImportObjects.RegisteredTrampolineCall | src/import.rs:151-226 | The trampoline built for an entry calls that entry's callable, traps when it raises, and tags its outputs with the effective result types. |
| ImportObjects.PassthroughTrampolineSingleResult | src/import.rs:146-226 | For an unannotated callable declared with a single result type that returns a non-tuple value, the trampoline yields exactly that value converted at that type, or the conversion trap. |
| ImportObjects.BuildNamespace | src/import.rs:67-231 | Defined as a left fold over a namespace's entries. The first failing entry aborts it; otherwise each trampoline is inserted under its name and its callable appended to the references. |
| ImportObjects.BuildNamespaces | src/import.rs:59-234 | Defined as a left fold over the registry. It checks that the name is a string and the namespace a dict, builds the namespace, and registers it under its name. |
| ImportObjects.ImportObjectOf | src/import.rs:39-236 | Defined as the registry built against the signature lookup of the module's imports, giving the import object and the references. `BuildSucceedsIff`, `ReferencesInRegistryOrder` and `ImportObjectRegistersEveryFunction` characterise it. |
| ImportObjects.NamespaceFailurePersists | src/import.rs:67-93 | An error in one namespace's entry aborts the rest of that namespace unchanged. |
| ImportObjects.NamespacesFailurePersists | src/import.rs:59-69 | An error aborts the rest of the registry, so there is no partial result. |
| ImportObjects.NamespaceStep | src/import.rs:72-230 | After a namespace prefix that built, the next entry either aborts with its error or inserts its trampoline under its name and appends its callable. |
| ImportObjects.NamespacesStep | src/import.rs:59-233 | After a registry prefix that built, the next namespace aborts on a non-string name, a non-dict value or a failing entry. Otherwise it is registered under its name and its references are appended. |
| ImportObjects.BuildNamespaceOkIff | src/import.rs:67-231 | A namespace builds exactly when each of its entries passes its checks. |
| ImportObjects.BuildNamespacesOkIff | src/import.rs:59-234 | A registry prefix builds exactly when each namespace has a string name, is a dict, and has only accepted entries. |
| ImportObjects.BuildSucceedsIff | src/import.rs:39-236 | The whole build succeeds exactly when every namespace is accepted against the module's signature lookup. |
| ImportObjects.NamespaceReferences | src/import.rs:151-153 | The references retained by a namespace are its callables, in entry order. |
| ImportObjects.NamespacesReferences | src/import.rs:151-233 | The references retained by a registry prefix are its callables, in iteration order. |
| ImportObjects.ReferencesInRegistryOrder | src/import.rs:57-236 | There is one retained reference per registered function, in iteration order. |
| ImportObjects.NamespaceContents | src/import.rs:151-230 | With distinct names, each namespace maps exactly its function names to their trampolines. |
| ImportObjects.NamespaceKeys | src/import.rs:72-230 | A namespace prefix registers exactly the string keys of its entries. |
| ImportObjects.NamespaceValues | src/import.rs:151-230 | With distinct keys, each entry of a namespace prefix is accepted, and its name maps to its own trampoline. |
| ImportObjects.NamespacesContents | src/import.rs:233 | With distinct names, each namespace is registered once under its name. |
| ImportObjects.NamespacesKeys | src/import.rs:59-233 | A registry prefix registers exactly its string namespace names. |
| ImportObjects.NamespacesValues | src/import.rs:59-233 | With distinct keys, each namespace of a registry prefix is a dict with a string name that built, and its name maps to that namespace. |
| ImportObjects.ImportObjectRegistersEveryFunction | src/import.rs:59-236 | The import object's namespaces are exactly the registry's names. Every entry is registered as a trampoline of its callable with its effective signature. |
| ImportObjects.BuildEntry | src/import.rs:72-154 | The straight-line checks for one entry compute `BuildFunction`. |
| ImportObjects.BuildNamespaceEntries | src/import.rs:67-231 | The inner loop computes `BuildNamespace` and appends its callables to the shared references. |
| ImportObjects.BuildImportObject | src/import.rs:22-237 | The nested loops compute `ImportObjectOf`. |
| Values.NewI32 | src/value.rs:16-23 | `Value.i32(v)` never fails, has tag I32 and payload v. |
| Values.NewI64 | src/value.rs:25-32 | `Value.i64(v)` never fails, has tag I64 and payload v. |
| Values.NewF32 | src/value.rs:34-41 | `Value.f32(v)` never fails and has tag F32. |
| Values.NewF64 | src/value.rs:43-50 | `Value.f64(v)` never fails and has tag F64. |
| Values.NewV128 | src/value.rs:52-59 | `Value.v128(v)` never fails, has tag V128 and an unsigned 128-bit payload v. |
| Values.ConstructorsAgreeWithMarshalling | src/value.rs:19-59 | Each constructor's value is the one the trampoline unmarshals from its payload at that tag. |
| Instances.FunctionNames | src/instance/mod.rs:125-127 | Defined as the names of the function exports, in export order. |
| Instances.Globals | src/instance/mod.rs:128-130 | Defined as the global exports with their names, in export order. |
| Instances.FirstMemory | src/instance/mod.rs:131-133 | Defined as a fold that takes a memory export only while none was taken yet. |
| Instances.CollectExports | src/instance/mod.rs:117-136 | The loop computes the function names, the globals and the first memory of the exports. |
| Instances.FunctionNamesAppend | src/instance/mod.rs:125-127 | Function names are collected in export order. |
| Instances.FunctionNamesMembership | src/instance/mod.rs:125-127 | A name is collected exactly when a function export carries it. |
| Instances.GlobalsAppend | src/instance/mod.rs:128-130 | Globals are collected in export order. |
| Instances.FirstMemoryNone | src/instance/mod.rs:131-133 | No memory is collected exactly when no memory is exported. |
| Instances.FirstMemoryIsFirst | src/instance/mod.rs:131-133 | The collected memory is that of the first memory export. |
| Instances.FirstMemoryAppend | src/instance/mod.rs:131-133 | Memories exported after the first are ignored. |
| Instances.ResolveFunc | src/instance/mod.rs:199 | The engine's `resolve_func`: a name no export carries gives `None`; otherwise the first export with that name decides, giving its index if it is a function export and `None` if not. |
| Instances.ResolveFuncOwnIndex | src/instance/mod.rs:199 | With unique export names, `resolve_func` of a function export's name gives its own index, so the `unwrap` never panics. |
| Instances.IndexToNamePrefix | src/instance/mod.rs:192-201 | Defined as a fold over the first k exports that keys each function export by `resolve_func` of its name. |
| Instances.IndexToName | src/instance/mod.rs:192-201 | Defined as the map over all exports that fills the cache. `IndexToNameCharacterized` characterises it. |
| Instances.IndexToNamePrefixCharacterized | src/instance/mod.rs:192-201 | A prefix of the cache holds exactly the indices of function exports in that prefix, each mapped to such an export's name. |
| Instances.IndexToNameCharacterized | src/instance/mod.rs:192-201 | The filled cache holds exactly the function exports' indices, each mapped to the name of a function export with that index. |
| Instances.LookupFunctionName | src/instance/mod.rs:184-189 | A filled cache returns the mapped name, or the "does not exist" error for an absent index. |
| Instances.ImportObjectFor | src/instance/mod.rs:96-111 | An import object is used directly. A dict is built first, and its build error propagates. Anything else is the unknown-value error. |
| Instances.Instance.InnerNew | src/instance/mod.rs:64-77 | Stores its arguments unchanged, and the cache starts as None. |
| Instances.Instance.Memory | src/instance/mod.rs:166-173 | The memory getter gives None exactly when no memory was exported. |
| Instances.Instance.ResolveExportedFunction | src/instance/mod.rs:181-205 | The cache is filled with the index-to-name map and is never recomputed. The result is the lookup in that map, whether or not the cache was filled before, so repeated calls agree. |
| Instances.Instance.New | src/instance/mod.rs:85-158 | The import argument defaults to an empty dict. The constructor fails for non-bytes input, on compilation errors, on import errors, and on instantiation errors, in that order. On success it yields a fresh instance over the engine instance, with collected exports and an empty cache. |
| ModuleMetadata.KindCode | tests/test_module.py:29-43 | Every kind has a code between 1 and 4. |
| ModuleMetadata.KindFromCode | tests/test_module.py:29-43 | An integer names a kind exactly when it is between 1 and 4. |
| ModuleMetadata.KindCodeRoundTrip | tests/test_module.py:29-43 | A kind is recovered from its code. |
| ModuleMetadata.KindCodesAreFourDistinct | tests/test_module.py:29-35 | The kinds and the codes 1..4 are in one-to-one correspondence: a code names a kind exactly when it is that kind's code. |
| ModuleMetadata.KindOfIndex | src/module.rs:131-136 | Defined as the kind of an export index variant: Function, Memory, Global or Table. |
| ModuleMetadata.ExportRecord | src/module.rs:126-140 | An export record has exactly `kind` and `name`. The kind is Function, Memory, Global or Table exactly as the export index variant. |
| ModuleMetadata.Exports | src/module.rs:121-144 | One record per export, in the module's order. |
| ModuleMetadata.TypeName | src/module.rs:203-235 | Defined as I32 to "i32", I64 to "i64", F32 to "f32", F64 to "f64" and V128 to "v128". This map is shared by global and table records. |
| ModuleMetadata.TypeFromName | src/module.rs:203-210 | Exactly the five names "i32", "i64", "f32", "f64" and "v128" denote a type. |
| ModuleMetadata.TypeNameRoundTrip | src/module.rs:203-235 | A type is recovered from its name. |
| ModuleMetadata.TypeFromNameSound | src/module.rs:203-210 | The name of a recovered type is the name it came from. |
| ModuleMetadata.TypeNameInjective | src/module.rs:203-235 | The type-to-string map is injective. |
| ModuleMetadata.ImportKindOf | src/module.rs:173-238 | Defined as the kind of an import descriptor variant. |
| ModuleMetadata.OptionalLimit | src/module.rs:185-225 | A maximum becomes Python `None` exactly when it is absent, and is the number otherwise. |
| ModuleMetadata.ImportRecord | src/module.rs:167-238 | Every record has `kind` (the kind code), `namespace` and `name`. Memory adds `minimum_pages` and `maximum_pages` (None when absent). Global adds `mutable` and `type`. Table adds `minimum_elements`, `maximum_elements` (None when absent) and `element_type`. No other key appears. |
| ModuleMetadata.ImportRecordDeterminesDescriptor | src/module.rs:173-238 | Two descriptors with the same record agree on namespace, name and kind. They are equal unless both are function imports, whose signature the record does not show. |
| ModuleMetadata.Imports | src/module.rs:163-244 | One record per import descriptor, in order. |
| ModuleMetadata.CustomSection | src/module.rs:255-265 | Gives the bytes at `index` when the section exists and `index` is in range, and None otherwise. |
| ModuleMetadata.CustomSectionDefaultIsFirst | src/module.rs:255-257 | Without an index, the first section of that name is returned. |
| ModuleMetadata.Validate | src/module.rs:305-313 | A non-bytes argument gives false rather than an error. Bytes are the engine's verdict. |
| ModuleMetadata.NewModule | src/module.rs:37-50 | Non-bytes input and compilation errors fail. Otherwise the module holds the compiled module. |
| ModuleMetadata.Instantiate | src/module.rs:52-114 | Instantiates with an empty import object and fails with the instantiation error if the engine refuses. On success it collects exports as `Instance` does and yields a fresh instance with an empty cache. |

## Left out

- Compilation, instantiation, byte validation, `serialize`, `deserialize` (with `Artifact::deserialize` and `load_cache_with`) and calling a host callable all belong to the wasmer engine or to Python. They appear only as function parameters, or are not modelled (`serialize`, `deserialize`).
- Instances.ResolveFunc: the engine's `resolve_func` (called at src/instance/mod.rs:199) is not a parameter. It is modelled as a lookup by name in the instance's export list, returning the index of a function export.
- `Module.custom_section_names` and the `exports`/`globals` getters of `Instance` only return stored objects. They are not modelled beyond the stored fields.
- GIL acquisition in the trampoline (src/import.rs:159) is execution-lock plumbing and is not modelled.
- The panic on a null host-function object (src/import.rs:173-175) is assumed away.
- The `expect` on the host call and the `unwrap`s on result conversion (src/import.rs:177-224) are modelled as the trap outcomes `HostCallRaised` and `ResultNotConvertible`, not as process aborts.
- Trampoline.FromHost: Python's own coercions inside `extract` are not modelled. An int converts at I32/I64/V128 exactly when it is in range; a float converts at F32/F64, and its f32 rounding is not modelled because payloads are opaque.
- Errors raised by Python itself while reading names or annotations (`to_string`, `hasattr`, `getattr` raising) are not modelled.
- A table import whose element type is not one of the five numeric types hits `unimplemented!` in src/module.rs:234, while tests/test_module.py:134 expects `'funcref'`. The two disagree, so the model's table element type is always a numeric type.
- `ImportObject::new(module)` and `extend_with_pydict` (the crate's `ImportObject` wrapper used by src/instance/mod.rs:101-106) are not part of this model. The dict path is modelled as `build_import_object` against the module's imports.
- src/module.rs:92-112 calls `inner_new` with a fifth, empty-vector argument. This differs from the four-parameter `inner_new` in src/instance/mod.rs:64-77. The four-parameter version is modelled, and the extra argument is dropped.
- Instances.Instance.ResolveExportedFunction: the engine's exports are assumed to have unique names (they are a map keyed by name). The characterization of the cache relies on this.
- Python object creation (`Py::new`, dicts, lists) is modelled as plain records, and `__repr__` of `Value` is not modelled.
- The compiler packages (packages/compiler-*/src/lib.rs) are thin wrappers around the engine and are not modelled.
- Behaviour kept as the code has it:
  - A callable without `__annotations__` is an error; only an empty dict copies the declared signature.
  - Partial annotation is not rejected, because pairing stops at the shorter side.
  - A callable whose key has no declared signature is an error, while a declared import missing from the registry is not detected by the build.
