/**
 * The two pure halves of the import bridge's signature handling
 * (src/import.rs): the lookup table from (namespace, name) to the declared
 * function signature, and the resolver that turns a callable's
 * `__annotations__` into the effective signature of its trampoline.
 */
module ImportSignatures {
  import opened Wrappers
  import opened WasmTypes
  import opened HostObjects

  /** Why building the import object stopped. Each aborts the whole build. */
  datatype BuildError =
    | UnsupportedPlatform                            // "Imported functions are not yet supported for this platform and architecture."
    | NamespaceNameNotString                         // "Namespace name must be a string."
    | NamespaceNotADict                              // "Namespace must be a dictionnary."
    | FunctionNameNotString                          // "Function name must be a string."
    | FunctionNotCallable(functionName: string)          // "Function for `f` is not callable."
    | MissingSignature(namespace: string, functionName: string)  // "The imported function `ns.f` does not have a signature ..."
    | MissingAnnotations(functionName: string)           // "Function `f` must have type annotations ..."
    | UnreadableAnnotations(functionName: string)        // "Failed to read annotations of function `f`."
    | UnsupportedType(token: string, expected: WasmType)  // "Type `t` is not a supported type, or is not the expected type ..."
    | ManyResults                                    // "Function must return only one type, many given."

  type ImportKey = (string, string)

  predicate DeclaresFunction(d: ImportDescriptor, key: ImportKey) {
    d.ty.FunctionImport? && (d.namespace, d.name) == key
  }

  /**
   * The lookup table: every function-kind import keyed by (namespace, name);
   * other kinds are dropped. Collecting into a hash map keeps the last
   * signature of a repeated key.
   */
  function SignatureTable(imports: seq<ImportDescriptor>): map<ImportKey, FuncType>
    decreases |imports|
  {
    if |imports| == 0 then map[]
    else
      var table := SignatureTable(imports[..|imports| - 1]);
      var last := imports[|imports| - 1];
      if last.ty.FunctionImport? then table[(last.namespace, last.name) := last.ty.signature]
      else table
  }

  /** A key is in the table exactly when some function import declares it. */
  lemma {:induction false} SignatureTableKeys(imports: seq<ImportDescriptor>, key: ImportKey)
    ensures key in SignatureTable(imports) <==>
            exists i :: 0 <= i < |imports| && DeclaresFunction(imports[i], key)
    decreases |imports|
  {
    if |imports| > 0 {
      var front := imports[..|imports| - 1];
      SignatureTableKeys(front, key);
      assert forall i :: 0 <= i < |front| ==> front[i] == imports[i];
      if key in SignatureTable(imports) && !DeclaresFunction(imports[|imports| - 1], key) {
        var i :| 0 <= i < |front| && DeclaresFunction(front[i], key);
        assert DeclaresFunction(imports[i], key);
      }
    }
  }

  /** The table holds the signature of the last function import with that key. */
  lemma {:induction false} SignatureTableValue(imports: seq<ImportDescriptor>, key: ImportKey)
    requires key in SignatureTable(imports)
    ensures exists i :: 0 <= i < |imports| && DeclaresFunction(imports[i], key)
              && imports[i].ty.signature == SignatureTable(imports)[key]
              && forall j :: i < j < |imports| ==> !DeclaresFunction(imports[j], key)
    decreases |imports|
  {
    var n := |imports|;
    var front := imports[..n - 1];
    if DeclaresFunction(imports[n - 1], key) {
      assert imports[n - 1].ty.signature == SignatureTable(imports)[key];
    } else {
      SignatureTableValue(front, key);
      var i :| 0 <= i < |front| && DeclaresFunction(front[i], key)
                && front[i].ty.signature == SignatureTable(front)[key]
                && forall j :: i < j < |front| ==> !DeclaresFunction(front[j], key);
      assert imports[i] == front[i];
      assert forall j :: i < j < n - 1 ==> imports[j] == front[j];
    }
  }

  /** The annotation tokens accepted for each type. No token names V128. */
  function AcceptedTokens(t: WasmType): set<string> {
    match t
    case I32 => {"i32", "I32", "<class 'int'>"}
    case I64 => {"i64", "I64", "<class 'int'>"}
    case F32 => {"f32", "F32", "<class 'float'>"}
    case F64 => {"f64", "F64", "<class 'float'>"}
    case V128 => {}
  }

  /**
   * The guarded match of one annotation token against the type expected at
   * its position: it yields a type only for an accepted token, and then the
   * expected type itself.
   */
  function MatchAnnotation(token: string, expected: WasmType): (r: Option<WasmType>)
    ensures r.Some? <==> token in AcceptedTokens(expected)
    ensures r.Some? ==> r.value == expected
  {
    if (token == "i32" || token == "I32" || token == "<class 'int'>") && expected == WasmType.I32 then
      Some(WasmType.I32)
    else if (token == "i64" || token == "I64" || token == "<class 'int'>") && expected == WasmType.I64 then
      Some(WasmType.I64)
    else if (token == "f32" || token == "F32" || token == "<class 'float'>") && expected == WasmType.F32 then
      Some(WasmType.F32)
    else if (token == "f64" || token == "F64" || token == "<class 'float'>") && expected == WasmType.F64 then
      Some(WasmType.F64)
    else
      None
  }

  /**
   * The first `k` steps of pairing annotations with expected types: each
   * accepted type goes to the results when its annotation is named "return",
   * to the parameters otherwise; the first rejected token stops everything.
   */
  function ResolvePrefix(annotations: seq<Annotation>, expected: seq<WasmType>, k: nat)
    : Result<(seq<WasmType>, seq<WasmType>), BuildError>
    requires k <= |annotations| && k <= |expected|
  {
    if k == 0 then Ok(([], []))
    else
      var routed :- ResolvePrefix(annotations, expected, k - 1);
      var a := annotations[k - 1];
      match MatchAnnotation(a.token, expected[k - 1])
      case None => Err(UnsupportedType(a.token, expected[k - 1]))
      case Some(ty) =>
        if a.name == "return" then Ok((routed.0, routed.1 + [ty]))
        else Ok((routed.0 + [ty], routed.1))
  }

  /**
   * The effective signature of a callable. An empty annotations dict trusts
   * the declared signature verbatim. Otherwise annotations are zipped with
   * the declared parameters followed by the declared results (the shorter
   * side decides how many pairs there are), and more than one "return"
   * type is an error.
   */
  function ResolveSignature(declared: FuncType, annotations: seq<Annotation>): (r: Result<FuncType, BuildError>)
    ensures |annotations| == 0 ==> r == Ok(declared)
  {
    if |annotations| == 0 then Ok(declared)
    else
      var expected := declared.params + declared.results;
      var routed :- ResolvePrefix(annotations, expected, Min(|annotations|, |expected|));
      if |routed.1| > 1 then Err(ManyResults) else Ok(FuncType(routed.0, routed.1))
  }

  /** Every token among the first `k` pairs is accepted for its position. */
  ghost predicate AllAccepted(annotations: seq<Annotation>, types: seq<WasmType>, k: nat)
    requires k <= |annotations| && k <= |types|
  {
    forall i :: 0 <= i < k ==> annotations[i].token in AcceptedTokens(types[i])
  }

  /**
   * Reference routing: the types among the first `k` positions whose
   * annotation is named "return" (`toResults`) or not, in order.
   */
  function Routed(annotations: seq<Annotation>, types: seq<WasmType>, k: nat, toResults: bool): seq<WasmType>
    requires k <= |annotations| && k <= |types|
  {
    if k == 0 then []
    else
      Routed(annotations, types, k - 1, toResults)
        + (if (annotations[k - 1].name == "return") == toResults then [types[k - 1]] else [])
  }

  /**
   * Pairing succeeds exactly when every paired token is accepted; it then
   * yields the declared types themselves, routed by annotation name and in
   * order; otherwise the error names the first rejected token.
   */
  lemma {:induction false} ResolvePrefixCharacterized(annotations: seq<Annotation>, types: seq<WasmType>, k: nat)
    requires k <= |annotations| && k <= |types|
    ensures ResolvePrefix(annotations, types, k).Ok? <==> AllAccepted(annotations, types, k)
    ensures ResolvePrefix(annotations, types, k).Ok? ==>
              ResolvePrefix(annotations, types, k).value
                == (Routed(annotations, types, k, false), Routed(annotations, types, k, true))
    ensures ResolvePrefix(annotations, types, k).Err? ==>
              exists i :: 0 <= i < k && AllAccepted(annotations, types, i)
                && annotations[i].token !in AcceptedTokens(types[i])
                && ResolvePrefix(annotations, types, k).error == UnsupportedType(annotations[i].token, types[i])
  {
    if k > 0 {
      ResolvePrefixCharacterized(annotations, types, k - 1);
      var a := annotations[k - 1];
      if AllAccepted(annotations, types, k) {
        assert AllAccepted(annotations, types, k - 1);
        var before := ResolvePrefix(annotations, types, k - 1).value;
        var ty := types[k - 1];
        assert MatchAnnotation(a.token, ty) == Some(ty);
        if a.name == "return" {
          assert Routed(annotations, types, k, false) == before.0 + [] == before.0;
          assert ResolvePrefix(annotations, types, k).value
              == (before.0, before.1 + [ty])
              == (Routed(annotations, types, k, false), Routed(annotations, types, k, true));
        } else {
          assert Routed(annotations, types, k, true) == before.1 + [] == before.1;
          assert ResolvePrefix(annotations, types, k).value
              == (before.0 + [ty], before.1)
              == (Routed(annotations, types, k, false), Routed(annotations, types, k, true));
        }
      }
    }
  }

  /** Once the pairing has failed, later steps keep that same error. */
  lemma {:induction false} PrefixFailurePersists(annotations: seq<Annotation>, types: seq<WasmType>, k: nat, n: nat)
    requires k <= n <= |annotations| && n <= |types|
    requires ResolvePrefix(annotations, types, k).Err?
    ensures ResolvePrefix(annotations, types, n) == ResolvePrefix(annotations, types, k)
    decreases n - k
  {
    if k < n {
      PrefixFailurePersists(annotations, types, k, n - 1);
    }
  }

  /**
   * With annotations present, resolution succeeds exactly when every paired
   * token is accepted and at most one paired annotation is named "return";
   * the effective signature is then the declared types routed by name.
   */
  lemma ResolveSignatureCharacterized(declared: FuncType, annotations: seq<Annotation>)
    requires |annotations| > 0
    ensures var expected := declared.params + declared.results;
            var n := Min(|annotations|, |expected|);
            && (ResolveSignature(declared, annotations).Ok? <==>
                  AllAccepted(annotations, expected, n) && |Routed(annotations, expected, n, true)| <= 1)
            && (ResolveSignature(declared, annotations).Ok? ==>
                  ResolveSignature(declared, annotations).value
                    == FuncType(Routed(annotations, expected, n, false), Routed(annotations, expected, n, true)))
  {
    var expected := declared.params + declared.results;
    ResolvePrefixCharacterized(annotations, expected, Min(|annotations|, |expected|));
  }

  /** One rejected token among the paired positions rejects the whole callable. */
  lemma InconsistentAnnotationRejected(declared: FuncType, annotations: seq<Annotation>, i: nat)
    requires i < |annotations| && i < |declared.params| + |declared.results|
    requires annotations[i].token !in AcceptedTokens((declared.params + declared.results)[i])
    ensures ResolveSignature(declared, annotations).Err?
  {
    ResolveSignatureCharacterized(declared, annotations);
  }

  /** Routing the declared types when exactly the positions past the parameters are named "return". */
  lemma {:induction false} RoutedSplit(annotations: seq<Annotation>, params: seq<WasmType>, results: seq<WasmType>, k: nat)
    requires k <= |annotations| && k <= |params| + |results|
    requires forall i :: 0 <= i < |annotations| ==> (annotations[i].name == "return" <==> i >= |params|)
    ensures k <= |params| ==> Routed(annotations, params + results, k, false) == params[..k]
                              && Routed(annotations, params + results, k, true) == []
    ensures k >= |params| ==> Routed(annotations, params + results, k, false) == params
                              && Routed(annotations, params + results, k, true) == results[..k - |params|]
  {
    if k > 0 {
      RoutedSplit(annotations, params, results, k - 1);
      var types := params + results;
      if k <= |params| {
        assert types[k - 1] == params[k - 1];
        assert params[..k] == params[..k - 1] + [params[k - 1]];
      } else {
        assert types[k - 1] == results[k - 1 - |params|];
        assert results[..k - |params|] == results[..k - 1 - |params|] + [results[k - 1 - |params|]];
        if k - 1 == |params| {
          assert params[..k - 1] == params;
        }
      }
    }
  }

  /**
   * A callable annotated consistently with its declared signature (one
   * accepted token per parameter and per result, the result annotations
   * named "return", at most one result) resolves to exactly that signature.
   */
  lemma FullyAnnotatedYieldsDeclared(declared: FuncType, annotations: seq<Annotation>)
    requires |annotations| == |declared.params| + |declared.results|
    requires |declared.results| <= 1
    requires AllAccepted(annotations, declared.params + declared.results, |annotations|)
    requires forall i :: 0 <= i < |annotations| ==> (annotations[i].name == "return" <==> i >= |declared.params|)
    ensures ResolveSignature(declared, annotations) == Ok(declared)
  {
    if |annotations| > 0 {
      ResolveSignatureCharacterized(declared, annotations);
      RoutedSplit(annotations, declared.params, declared.results, |annotations|);
      assert declared.results[..|annotations| - |declared.params|] == declared.results;
    }
  }

  /** One more pairing step after an accepted prefix. */
  lemma ResolvePrefixStep(annotations: seq<Annotation>, expected: seq<WasmType>, k: nat)
    requires k < |annotations| && k < |expected|
    requires ResolvePrefix(annotations, expected, k).Ok?
    ensures var routed := ResolvePrefix(annotations, expected, k).value;
            var ty := MatchAnnotation(annotations[k].token, expected[k]);
            && (ty.None? ==> ResolvePrefix(annotations, expected, k + 1) == Err(UnsupportedType(annotations[k].token, expected[k])))
            && (ty.Some? && annotations[k].name == "return" ==>
                  ResolvePrefix(annotations, expected, k + 1) == Ok((routed.0, routed.1 + [ty.value])))
            && (ty.Some? && annotations[k].name != "return" ==>
                  ResolvePrefix(annotations, expected, k + 1) == Ok((routed.0 + [ty.value], routed.1)))
  {
  }

  /**
   * The loop of src/import.rs over the zipped (annotation, expected type)
   * pairs: each accepted type is pushed onto the outputs for "return" and
   * onto the inputs otherwise; the first rejected token returns the error.
   */
  method RouteAnnotations(annotations: seq<Annotation>, expected: seq<WasmType>)
    returns (r: Result<(seq<WasmType>, seq<WasmType>), BuildError>)
    ensures r == ResolvePrefix(annotations, expected, Min(|annotations|, |expected|))
  {
    var inputTypes: seq<WasmType> := [];
    var outputTypes: seq<WasmType> := [];
    var n := Min(|annotations|, |expected|);
    var k := 0;
    while k < n
      invariant 0 <= k <= n
      invariant ResolvePrefix(annotations, expected, k) == Ok((inputTypes, outputTypes))
    {
      var ty := MatchAnnotation(annotations[k].token, expected[k]);
      ResolvePrefixStep(annotations, expected, k);
      if ty.None? {
        PrefixFailurePersists(annotations, expected, k + 1, n);
        return Err(UnsupportedType(annotations[k].token, expected[k]));
      }
      if annotations[k].name == "return" {
        outputTypes := outputTypes + [ty.value];
      } else {
        inputTypes := inputTypes + [ty.value];
      }
      k := k + 1;
    }
    return Ok((inputTypes, outputTypes));
  }

  /**
   * The effective signature of one callable as src/import.rs builds it:
   * the declared types copied for an empty annotations dict, otherwise the
   * routed annotations, rejecting more than one output type.
   */
  method EffectiveSignature(declared: FuncType, annotations: seq<Annotation>) returns (r: Result<FuncType, BuildError>)
    ensures r == ResolveSignature(declared, annotations)
  {
    if |annotations| != 0 {
      var routed := RouteAnnotations(annotations, declared.params + declared.results);
      if routed.Err? {
        return Err(routed.error);
      }
      var (inputTypes, outputTypes) := routed.value;
      if |outputTypes| > 1 {
        return Err(ManyResults);
      }
      return Ok(FuncType(inputTypes, outputTypes));
    }
    var inputTypes: seq<WasmType> := [];
    var outputTypes: seq<WasmType> := [];
    inputTypes := inputTypes + declared.params;
    outputTypes := outputTypes + declared.results;
    assert inputTypes == declared.params && outputTypes == declared.results;
    return Ok(FuncType(inputTypes, outputTypes));
  }
}
