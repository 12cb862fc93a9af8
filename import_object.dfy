/**
 * `build_import_object` (src/import.rs): walks the registry
 * namespace -> function name -> callable, resolves each callable's effective
 * signature against the module's declared imports, wraps it in a trampoline
 * and registers it; it returns the import object together with one retained
 * reference per registered callable. The first error aborts the whole build.
 */
module ImportObjects {
  import opened Wrappers
  import opened WasmTypes
  import opened HostObjects
  import opened ImportSignatures
  import opened Trampoline

  /** What the engine consumes: namespace -> function name -> trampoline. */
  datatype ImportObject = ImportObject(namespaces: map<string, map<string, Func>>)

  type SignatureLookup = map<ImportKey, FuncType>

  /**
   * The checks and the resolution for one (function name, value) entry of
   * namespace `namespaceName`, in the order the source makes them.
   */
  function BuildFunction(table: SignatureLookup, namespaceName: string, entry: (PyKey, FunctionValue))
    : (r: Result<(string, Func), BuildError>)
    ensures !entry.0.PyStr? ==> r == Err(FunctionNameNotString)
    ensures entry.0.PyStr? && !entry.1.Callable? ==> r == Err(FunctionNotCallable(entry.0.s))
    ensures entry.0.PyStr? && entry.1.Callable? && (namespaceName, entry.0.s) !in table ==>
              r == Err(MissingSignature(namespaceName, entry.0.s))
    ensures entry.0.PyStr? && entry.1.Callable? && (namespaceName, entry.0.s) in table ==>
              && (entry.1.callable.annotations.NoAnnotationsAttribute? ==> r == Err(MissingAnnotations(entry.0.s)))
              && (entry.1.callable.annotations.AnnotationsNotADict? ==> r == Err(UnreadableAnnotations(entry.0.s)))
    ensures r.Ok? ==> && entry.0.PyStr? && entry.1.Callable?
                      && entry.1.callable.annotations.AnnotationsDict?
                      && (namespaceName, entry.0.s) in table
                      && ResolveSignature(table[(namespaceName, entry.0.s)], entry.1.callable.annotations.entries).Ok?
                      && r.value == (entry.0.s, Func(ResolveSignature(table[(namespaceName, entry.0.s)],
                                                                      entry.1.callable.annotations.entries).value,
                                                     entry.1.callable))
    ensures entry.0.PyStr? && entry.1.Callable? && (namespaceName, entry.0.s) in table
            && entry.1.callable.annotations.AnnotationsDict? ==>
              var resolved := ResolveSignature(table[(namespaceName, entry.0.s)], entry.1.callable.annotations.entries);
              && (resolved.Ok? ==> r.Ok?)
              && (resolved.Err? ==> r == Err(resolved.error))
    ensures r.Ok? <==> && entry.0.PyStr? && entry.1.Callable?
                       && (namespaceName, entry.0.s) in table
                       && entry.1.callable.annotations.AnnotationsDict?
                       && ResolveSignature(table[(namespaceName, entry.0.s)], entry.1.callable.annotations.entries).Ok?
  {
    var (key, value) := entry;
    if !key.PyStr? then Err(FunctionNameNotString)
    else if !value.Callable? then Err(FunctionNotCallable(key.s))
    else if (namespaceName, key.s) !in table then Err(MissingSignature(namespaceName, key.s))
    else
      match value.callable.annotations
      case NoAnnotationsAttribute => Err(MissingAnnotations(key.s))
      case AnnotationsNotADict => Err(UnreadableAnnotations(key.s))
      case AnnotationsDict(annotations) =>
        var signature :- ResolveSignature(table[(namespaceName, key.s)], annotations);
        Ok((key.s, Func(signature, value.callable)))
  }

  /** The first `k` entries of one namespace: its trampolines and the callables retained for them. */
  function BuildNamespace(table: SignatureLookup, namespaceName: string, entries: seq<(PyKey, FunctionValue)>, k: nat)
    : Result<(map<string, Func>, seq<HostFunction>), BuildError>
    requires k <= |entries|
  {
    if k == 0 then Ok((map[], []))
    else
      var built :- BuildNamespace(table, namespaceName, entries, k - 1);
      var f :- BuildFunction(table, namespaceName, entries[k - 1]);
      Ok((built.0[f.0 := f.1], built.1 + [f.1.callable]))
  }

  /** The first `k` namespaces of the registry, each registered under its name. */
  function BuildNamespaces(table: SignatureLookup, registry: Registry, k: nat)
    : Result<(map<string, map<string, Func>>, seq<HostFunction>), BuildError>
    requires k <= |registry|
  {
    if k == 0 then Ok((map[], []))
    else
      var built :- BuildNamespaces(table, registry, k - 1);
      var (key, value) := registry[k - 1];
      if !key.PyStr? then Err(NamespaceNameNotString)
      else if !value.NamespaceDict? then Err(NamespaceNotADict)
      else
        var ns :- BuildNamespace(table, key.s, value.entries, |value.entries|);
        Ok((built.0[key.s := ns.0], built.1 + ns.1))
  }

  /** The import object and the retained references for a module's imports and a registry. */
  function ImportObjectOf(imports: seq<ImportDescriptor>, registry: Registry)
    : Result<(ImportObject, seq<HostFunction>), BuildError>
  {
    var built :- BuildNamespaces(SignatureTable(imports), registry, |registry|);
    Ok((ImportObject(built.0), built.1))
  }

  /**
   * The build on platforms other than x86_64 unix: only an empty registry is
   * accepted, giving an empty import object and no references.
   */
  function BuildImportObjectUnsupported(registry: Registry): (r: Result<(ImportObject, seq<HostFunction>), BuildError>)
    ensures r.Ok? <==> |registry| == 0
    ensures r.Ok? ==> r.value == (ImportObject(map[]), [])
    ensures r.Err? ==> r.error == UnsupportedPlatform
  {
    if |registry| == 0 then Ok((ImportObject(map[]), [])) else Err(UnsupportedPlatform)
  }

  lemma {:induction false} NamespaceFailurePersists(table: SignatureLookup, namespaceName: string,
                                                    entries: seq<(PyKey, FunctionValue)>, k: nat, n: nat)
    requires k <= n <= |entries|
    requires BuildNamespace(table, namespaceName, entries, k).Err?
    ensures BuildNamespace(table, namespaceName, entries, n) == BuildNamespace(table, namespaceName, entries, k)
    decreases n - k
  {
    if k < n {
      NamespaceFailurePersists(table, namespaceName, entries, k, n - 1);
    }
  }

  lemma {:induction false} NamespacesFailurePersists(table: SignatureLookup, registry: Registry, k: nat, n: nat)
    requires k <= n <= |registry|
    requires BuildNamespaces(table, registry, k).Err?
    ensures BuildNamespaces(table, registry, n) == BuildNamespaces(table, registry, k)
    decreases n - k
  {
    if k < n {
      NamespacesFailurePersists(table, registry, k, n - 1);
    }
  }

  /** A registry entry whose name, shape and every function entry pass the checks. */
  ghost predicate NamespaceAccepted(table: SignatureLookup, entry: (PyKey, NamespaceValue)) {
    && entry.0.PyStr? && entry.1.NamespaceDict?
    && forall j :: 0 <= j < |entry.1.entries| ==> BuildFunction(table, entry.0.s, entry.1.entries[j]).Ok?
  }

  lemma {:induction false} BuildNamespaceOkIff(table: SignatureLookup, namespaceName: string,
                                               entries: seq<(PyKey, FunctionValue)>, k: nat)
    requires k <= |entries|
    ensures BuildNamespace(table, namespaceName, entries, k).Ok? <==>
            forall j :: 0 <= j < k ==> BuildFunction(table, namespaceName, entries[j]).Ok?
  {
    if k > 0 {
      BuildNamespaceOkIff(table, namespaceName, entries, k - 1);
    }
  }

  lemma {:induction false} BuildNamespacesOkIff(table: SignatureLookup, registry: Registry, k: nat)
    requires k <= |registry|
    ensures BuildNamespaces(table, registry, k).Ok? <==>
            forall i :: 0 <= i < k ==> NamespaceAccepted(table, registry[i])
  {
    if k > 0 {
      BuildNamespacesOkIff(table, registry, k - 1);
      var (key, value) := registry[k - 1];
      if key.PyStr? && value.NamespaceDict? {
        BuildNamespaceOkIff(table, key.s, value.entries, |value.entries|);
      }
    }
  }

  /**
   * No partial result: the build succeeds exactly when every namespace name
   * is a string, every namespace a dict, and every entry passes its checks:
   * a string name, a callable, a declared signature, a readable annotations
   * dict and a successful resolution.
   */
  lemma BuildSucceedsIff(imports: seq<ImportDescriptor>, registry: Registry)
    ensures ImportObjectOf(imports, registry).Ok? <==>
            forall i :: 0 <= i < |registry| ==> NamespaceAccepted(SignatureTable(imports), registry[i])
  {
    BuildNamespacesOkIff(SignatureTable(imports), registry, |registry|);
  }

  /** The callables of a namespace's entries, in iteration order. */
  function EntryCallables(entries: seq<(PyKey, FunctionValue)>): seq<HostFunction>
    decreases |entries|
  {
    if |entries| == 0 then []
    else
      var last := entries[|entries| - 1];
      EntryCallables(entries[..|entries| - 1]) + (if last.1.Callable? then [last.1.callable] else [])
  }

  /** The callables of the whole registry, namespace by namespace, in iteration order. */
  function RegisteredCallables(registry: Registry): seq<HostFunction>
    decreases |registry|
  {
    if |registry| == 0 then []
    else
      var last := registry[|registry| - 1];
      RegisteredCallables(registry[..|registry| - 1])
        + (if last.1.NamespaceDict? then EntryCallables(last.1.entries) else [])
  }

  lemma {:induction false} NamespaceReferences(table: SignatureLookup, namespaceName: string,
                                               entries: seq<(PyKey, FunctionValue)>, k: nat)
    requires k <= |entries|
    requires BuildNamespace(table, namespaceName, entries, k).Ok?
    ensures BuildNamespace(table, namespaceName, entries, k).value.1 == EntryCallables(entries[..k])
  {
    if k > 0 {
      NamespaceReferences(table, namespaceName, entries, k - 1);
      assert entries[..k][..k - 1] == entries[..k - 1];
    }
  }

  lemma {:induction false} NamespacesReferences(table: SignatureLookup, registry: Registry, k: nat)
    requires k <= |registry|
    requires BuildNamespaces(table, registry, k).Ok?
    ensures BuildNamespaces(table, registry, k).value.1 == RegisteredCallables(registry[..k])
  {
    if k > 0 {
      NamespacesReferences(table, registry, k - 1);
      assert registry[..k][..k - 1] == registry[..k - 1];
      var value := registry[k - 1].1;
      NamespaceReferences(table, registry[k - 1].0.s, value.entries, |value.entries|);
      assert value.entries[..|value.entries|] == value.entries;
    }
  }

  /**
   * On success the retained references are the registered callables, one
   * per function entry, namespace by namespace, in iteration order.
   */
  lemma ReferencesInRegistryOrder(imports: seq<ImportDescriptor>, registry: Registry)
    requires ImportObjectOf(imports, registry).Ok?
    ensures ImportObjectOf(imports, registry).value.1 == RegisteredCallables(registry)
  {
    NamespacesReferences(SignatureTable(imports), registry, |registry|);
    assert registry[..|registry|] == registry;
  }

  /** Python dict keys are distinct. */
  ghost predicate DistinctKeys<V>(entries: seq<(PyKey, V)>) {
    forall i, j :: 0 <= i < j < |entries| ==> entries[i].0 != entries[j].0
  }

  /** The string keys among the first `k` entries grow by the `k`-th one. */
  lemma KeySetStep<V>(entries: seq<(PyKey, V)>, k: nat)
    requires 0 < k <= |entries| && entries[k - 1].0.PyStr?
    ensures (set j | 0 <= j < k && entries[j].0.PyStr? :: entries[j].0.s)
            == (set j | 0 <= j < k - 1 && entries[j].0.PyStr? :: entries[j].0.s) + {entries[k - 1].0.s}
  {
  }

  /** The names a namespace prefix registers are its string keys. */
  lemma {:induction false} NamespaceKeys(table: SignatureLookup, namespaceName: string,
                                         entries: seq<(PyKey, FunctionValue)>, k: nat)
    requires k <= |entries|
    requires BuildNamespace(table, namespaceName, entries, k).Ok?
    ensures BuildNamespace(table, namespaceName, entries, k).value.0.Keys
            == (set j | 0 <= j < k && entries[j].0.PyStr? :: entries[j].0.s)
  {
    if k > 0 {
      NamespaceKeys(table, namespaceName, entries, k - 1);
      var f := BuildFunction(table, namespaceName, entries[k - 1]).value;
      assert BuildNamespace(table, namespaceName, entries, k).value.0
          == BuildNamespace(table, namespaceName, entries, k - 1).value.0[f.0 := f.1];
      KeySetStep(entries, k);
    }
  }

  /** With distinct keys, each name of a namespace prefix maps to its own trampoline. */
  lemma {:induction false} NamespaceValues(table: SignatureLookup, namespaceName: string,
                                           entries: seq<(PyKey, FunctionValue)>, k: nat)
    requires k <= |entries|
    requires BuildNamespace(table, namespaceName, entries, k).Ok?
    requires DistinctKeys(entries)
    ensures var m := BuildNamespace(table, namespaceName, entries, k).value.0;
            forall j :: 0 <= j < k ==>
              BuildFunction(table, namespaceName, entries[j]).Ok?
              && entries[j].0.s in m
              && m[entries[j].0.s] == BuildFunction(table, namespaceName, entries[j]).value.1
  {
    if k > 0 {
      NamespaceValues(table, namespaceName, entries, k - 1);
      var before := BuildNamespace(table, namespaceName, entries, k - 1).value.0;
      var f := BuildFunction(table, namespaceName, entries[k - 1]).value;
      var m := BuildNamespace(table, namespaceName, entries, k).value.0;
      assert m == before[f.0 := f.1];
      forall j | 0 <= j < k - 1
        ensures m[entries[j].0.s] == before[entries[j].0.s]
      {
        assert entries[j].0 != entries[k - 1].0;
      }
    }
  }

  lemma NamespaceContents(table: SignatureLookup, namespaceName: string,
                          entries: seq<(PyKey, FunctionValue)>, k: nat)
    requires k <= |entries|
    requires BuildNamespace(table, namespaceName, entries, k).Ok?
    ensures var m := BuildNamespace(table, namespaceName, entries, k).value.0;
            && m.Keys == (set j | 0 <= j < k && entries[j].0.PyStr? :: entries[j].0.s)
            && (DistinctKeys(entries) ==>
                  forall j :: 0 <= j < k ==>
                    BuildFunction(table, namespaceName, entries[j]).Ok?
                    && m[entries[j].0.s] == BuildFunction(table, namespaceName, entries[j]).value.1)
  {
    NamespaceKeys(table, namespaceName, entries, k);
    if DistinctKeys(entries) {
      NamespaceValues(table, namespaceName, entries, k);
    }
  }

  /** The namespaces a registry prefix registers are its string keys. */
  lemma {:induction false} NamespacesKeys(table: SignatureLookup, registry: Registry, k: nat)
    requires k <= |registry|
    requires BuildNamespaces(table, registry, k).Ok?
    ensures BuildNamespaces(table, registry, k).value.0.Keys
            == (set i | 0 <= i < k && registry[i].0.PyStr? :: registry[i].0.s)
  {
    if k > 0 {
      NamespacesKeys(table, registry, k - 1);
      var (key, value) := registry[k - 1];
      var ns := BuildNamespace(table, key.s, value.entries, |value.entries|).value.0;
      assert BuildNamespaces(table, registry, k).value.0 == BuildNamespaces(table, registry, k - 1).value.0[key.s := ns];
      KeySetStep(registry, k);
    }
  }

  /** With distinct keys, each namespace name maps to its own built namespace. */
  lemma {:induction false} NamespacesValues(table: SignatureLookup, registry: Registry, k: nat)
    requires k <= |registry|
    requires BuildNamespaces(table, registry, k).Ok?
    requires DistinctKeys(registry)
    ensures var m := BuildNamespaces(table, registry, k).value.0;
            forall i :: 0 <= i < k ==>
              && registry[i].0.PyStr? && registry[i].1.NamespaceDict?
              && BuildNamespace(table, registry[i].0.s, registry[i].1.entries, |registry[i].1.entries|).Ok?
              && registry[i].0.s in m
              && m[registry[i].0.s]
                   == BuildNamespace(table, registry[i].0.s, registry[i].1.entries, |registry[i].1.entries|).value.0
  {
    if k > 0 {
      NamespacesValues(table, registry, k - 1);
      NamespacesStep(table, registry, k - 1);
      var (key, value) := registry[k - 1];
      var ns := BuildNamespace(table, key.s, value.entries, |value.entries|);
      assert key.PyStr? && value.NamespaceDict? && ns.Ok?;
      var before := BuildNamespaces(table, registry, k - 1).value.0;
      var m := BuildNamespaces(table, registry, k).value.0;
      assert m == before[key.s := ns.value.0];
      forall i | 0 <= i < k - 1
        ensures m[registry[i].0.s] == before[registry[i].0.s]
      {
        assert registry[i].0 != registry[k - 1].0;
      }
    }
  }

  lemma NamespacesContents(table: SignatureLookup, registry: Registry, k: nat)
    requires k <= |registry|
    requires BuildNamespaces(table, registry, k).Ok?
    ensures var m := BuildNamespaces(table, registry, k).value.0;
            && m.Keys == (set i | 0 <= i < k && registry[i].0.PyStr? :: registry[i].0.s)
            && (DistinctKeys(registry) ==>
                  forall i :: 0 <= i < k ==>
                    && registry[i].0.PyStr? && registry[i].1.NamespaceDict?
                    && BuildNamespace(table, registry[i].0.s, registry[i].1.entries, |registry[i].1.entries|).Ok?
                    && m[registry[i].0.s]
                         == BuildNamespace(table, registry[i].0.s, registry[i].1.entries, |registry[i].1.entries|).value.0)
  {
    NamespacesKeys(table, registry, k);
    if DistinctKeys(registry) {
      NamespacesValues(table, registry, k);
    }
  }

  /** Function entry `entry` of namespace `namespaceKey` is registered with its resolved trampoline. */
  ghost predicate Registered(importObject: ImportObject, table: SignatureLookup, namespaceKey: PyKey,
                             entry: (PyKey, FunctionValue))
  {
    && namespaceKey.PyStr? && entry.0.PyStr? && entry.1.Callable?
    && entry.1.callable.annotations.AnnotationsDict?
    && (namespaceKey.s, entry.0.s) in table
    && var resolved := ResolveSignature(table[(namespaceKey.s, entry.0.s)], entry.1.callable.annotations.entries);
       && resolved.Ok?
       && namespaceKey.s in importObject.namespaces
       && entry.0.s in importObject.namespaces[namespaceKey.s]
       && importObject.namespaces[namespaceKey.s][entry.0.s] == Func(resolved.value, entry.1.callable)
  }

  /**
   * On success every namespace of the registry is registered once, under
   * its name, and every function entry is registered once in it, as a
   * trampoline with that callable and its resolved effective signature.
   */
  lemma ImportObjectRegistersEveryFunction(imports: seq<ImportDescriptor>, registry: Registry)
    requires ImportObjectOf(imports, registry).Ok?
    requires DistinctKeys(registry)
    requires forall i :: 0 <= i < |registry| && registry[i].1.NamespaceDict? ==> DistinctKeys(registry[i].1.entries)
    ensures var importObject := ImportObjectOf(imports, registry).value.0;
            && importObject.namespaces.Keys == (set i | 0 <= i < |registry| && registry[i].0.PyStr? :: registry[i].0.s)
            && forall i, j :: 0 <= i < |registry| && registry[i].1.NamespaceDict? && 0 <= j < |registry[i].1.entries| ==>
                 Registered(importObject, SignatureTable(imports), registry[i].0, registry[i].1.entries[j])
  {
    var table := SignatureTable(imports);
    var importObject := ImportObjectOf(imports, registry).value.0;
    NamespacesContents(table, registry, |registry|);
    forall i, j | 0 <= i < |registry| && registry[i].1.NamespaceDict? && 0 <= j < |registry[i].1.entries|
      ensures Registered(importObject, table, registry[i].0, registry[i].1.entries[j])
    {
      var entries := registry[i].1.entries;
      NamespaceContents(table, registry[i].0.s, entries, |entries|);
    }
  }

  /**
   * Calling a registered trampoline: the host callable called is the
   * entry's own, and the outputs carry the tags of the effective result
   * types the closure captured.
   */
  lemma RegisteredTrampolineCall(table: SignatureLookup, namespaceName: string, entry: (PyKey, FunctionValue),
                                 host: (HostFunction, seq<HostValue>) -> CallOutcome, inputs: seq<Value>)
    requires BuildFunction(table, namespaceName, entry).Ok?
    ensures var f := BuildFunction(table, namespaceName, entry).value.1;
            var effective := ResolveSignature(table[(namespaceName, entry.0.s)], entry.1.callable.annotations.entries).value;
            && f.callable == entry.1.callable
            && (host(entry.1.callable, ArgumentsToHost(inputs)).Raised? ==> Call(f, host, inputs) == Err(HostCallRaised))
            && (Call(f, host, inputs).Ok? ==>
                  forall k :: 0 <= k < |Call(f, host, inputs).value| ==>
                    TypeOf(Call(f, host, inputs).value[k]) == effective.results[k])
  {
  }

  /**
   * An unannotated callable declared with a single result `t` that returns
   * a non-tuple value yields exactly that value converted at `t`.
   */
  lemma PassthroughTrampolineSingleResult(table: SignatureLookup, namespaceName: string, entry: (PyKey, FunctionValue),
                                          t: WasmType, host: (HostFunction, seq<HostValue>) -> CallOutcome,
                                          inputs: seq<Value>)
    requires BuildFunction(table, namespaceName, entry).Ok?
    requires entry.1.callable.annotations.entries == []
    requires table[(namespaceName, entry.0.s)].results == [t]
    requires host(entry.1.callable, ArgumentsToHost(inputs)).Returned?
    requires !host(entry.1.callable, ArgumentsToHost(inputs)).value.PyTuple?
    ensures var f := BuildFunction(table, namespaceName, entry).value.1;
            var h := host(entry.1.callable, ArgumentsToHost(inputs)).value;
            Call(f, host, inputs) == if FromHost(h, t).Ok? then Ok([FromHost(h, t).value]) else Err(ResultNotConvertible(t))
  {
    InvokeSingleValue(t, args => host(entry.1.callable, args), inputs);
  }

  /**
   * The checks of src/import.rs on one (function name, value) entry, each an
   * early error return, then the resolution of its effective signature.
   */
  method BuildEntry(table: SignatureLookup, namespaceName: string, entry: (PyKey, FunctionValue))
    returns (r: Result<(string, Func), BuildError>)
    ensures r == BuildFunction(table, namespaceName, entry)
  {
    var (functionKey, functionValue) := entry;
    if !functionKey.PyStr? {
      return Err(FunctionNameNotString);
    }
    var functionName := functionKey.s;
    if !functionValue.Callable? {
      return Err(FunctionNotCallable(functionName));
    }
    if (namespaceName, functionName) !in table {
      return Err(MissingSignature(namespaceName, functionName));
    }
    var declared := table[(namespaceName, functionName)];
    var callable := functionValue.callable;
    if callable.annotations.NoAnnotationsAttribute? {
      return Err(MissingAnnotations(functionName));
    }
    if callable.annotations.AnnotationsNotADict? {
      return Err(UnreadableAnnotations(functionName));
    }
    var signature := EffectiveSignature(declared, callable.annotations.entries);
    if signature.Err? {
      return Err(signature.error);
    }
    return Ok((functionName, Func(signature.value, callable)));
  }

  /** One more entry after a namespace prefix that built. */
  lemma NamespaceStep(table: SignatureLookup, namespaceName: string, entries: seq<(PyKey, FunctionValue)>, k: nat)
    requires k < |entries|
    requires BuildNamespace(table, namespaceName, entries, k).Ok?
    ensures var built := BuildNamespace(table, namespaceName, entries, k).value;
            var f := BuildFunction(table, namespaceName, entries[k]);
            && (f.Err? ==> BuildNamespace(table, namespaceName, entries, k + 1) == Err(f.error))
            && (f.Ok? ==> BuildNamespace(table, namespaceName, entries, k + 1)
                            == Ok((built.0[f.value.0 := f.value.1], built.1 + [f.value.1.callable])))
  {
  }

  /** One more namespace after a registry prefix that built. */
  lemma NamespacesStep(table: SignatureLookup, registry: Registry, k: nat)
    requires k < |registry|
    requires BuildNamespaces(table, registry, k).Ok?
    ensures var built := BuildNamespaces(table, registry, k).value;
            var key := registry[k].0;
            var value := registry[k].1;
            && (!key.PyStr? ==> BuildNamespaces(table, registry, k + 1) == Err(NamespaceNameNotString))
            && (key.PyStr? && !value.NamespaceDict? ==> BuildNamespaces(table, registry, k + 1) == Err(NamespaceNotADict))
            && (key.PyStr? && value.NamespaceDict? ==>
                  var ns := BuildNamespace(table, key.s, value.entries, |value.entries|);
                  && (ns.Err? ==> BuildNamespaces(table, registry, k + 1) == Err(ns.error))
                  && (ns.Ok? ==> BuildNamespaces(table, registry, k + 1)
                                   == Ok((built.0[key.s := ns.value.0], built.1 + ns.value.1))))
  {
  }

  /**
   * The inner loop of src/import.rs over one namespace's entries: each
   * trampoline is inserted into the namespace and its callable pushed onto
   * the shared `references`.
   */
  method BuildNamespaceEntries(table: SignatureLookup, namespaceName: string, entries: seq<(PyKey, FunctionValue)>,
                               references: seq<HostFunction>)
    returns (r: Result<(map<string, Func>, seq<HostFunction>), BuildError>)
    ensures var spec := BuildNamespace(table, namespaceName, entries, |entries|);
            && (r.Ok? <==> spec.Ok?)
            && (r.Ok? ==> r.value == (spec.value.0, references + spec.value.1))
            && (r.Err? ==> r.error == spec.error)
  {
    var importNamespace: map<string, Func> := map[];
    var pushed := references;
    ghost var namespaceReferences: seq<HostFunction> := [];
    var j := 0;
    while j < |entries|
      invariant 0 <= j <= |entries|
      invariant BuildNamespace(table, namespaceName, entries, j) == Ok((importNamespace, namespaceReferences))
      invariant pushed == references + namespaceReferences
    {
      var f := BuildEntry(table, namespaceName, entries[j]);
      NamespaceStep(table, namespaceName, entries, j);
      if f.Err? {
        NamespaceFailurePersists(table, namespaceName, entries, j + 1, |entries|);
        return Err(f.error);
      }
      var (functionName, trampoline) := f.value;
      pushed := pushed + [trampoline.callable];
      namespaceReferences := namespaceReferences + [trampoline.callable];
      importNamespace := importNamespace[functionName := trampoline];
      j := j + 1;
    }
    return Ok((importNamespace, pushed));
  }

  /**
   * The outer loop of src/import.rs: for each namespace, check its name and
   * its shape, fill it, then register it. Returns early on the first error.
   */
  method BuildImportObject(imports: seq<ImportDescriptor>, registry: Registry)
    returns (r: Result<(ImportObject, seq<HostFunction>), BuildError>)
    ensures r == ImportObjectOf(imports, registry)
  {
    var table := SignatureTable(imports);
    var importObject: map<string, map<string, Func>> := map[];
    var references: seq<HostFunction> := [];
    var i := 0;
    while i < |registry|
      invariant 0 <= i <= |registry|
      invariant BuildNamespaces(table, registry, i) == Ok((importObject, references))
    {
      var (namespaceKey, namespace) := registry[i];
      NamespacesStep(table, registry, i);
      if !namespaceKey.PyStr? {
        NamespacesFailurePersists(table, registry, i + 1, |registry|);
        return Err(NamespaceNameNotString);
      }
      var namespaceName := namespaceKey.s;
      if !namespace.NamespaceDict? {
        NamespacesFailurePersists(table, registry, i + 1, |registry|);
        return Err(NamespaceNotADict);
      }
      var filled := BuildNamespaceEntries(table, namespaceName, namespace.entries, references);
      if filled.Err? {
        NamespacesFailurePersists(table, registry, i + 1, |registry|);
        return Err(filled.error);
      }
      importObject := importObject[namespaceName := filled.value.0];
      references := filled.value.1;
      i := i + 1;
    }
    return Ok((ImportObject(importObject), references));
  }
}
