/**
 * The Python objects the bridge reads: host values crossing a call, the
 * callables registered for imports with their `__annotations__`, the
 * nested registry of namespaces, and arguments that may or may not be bytes.
 * A Python dict is a sequence of (key, value) pairs in iteration order.
 */
module HostObjects {
  import opened WasmTypes

  /** A host value as the trampoline sees it. Python booleans are integers. */
  datatype HostValue =
    | PyInt(n: int)
    | PyFloat(f: Float)
    | PyTuple(items: seq<HostValue>)
    | PyOther

  /** One entry of a callable's `__annotations__` dict: its key and the `str()` of its value. */
  datatype Annotation = Annotation(name: string, token: string)

  /** The `__annotations__` attribute of a callable. */
  datatype Annotations =
    | NoAnnotationsAttribute
    | AnnotationsNotADict
    | AnnotationsDict(entries: seq<Annotation>)

  /** A host callable, identified by `id`; the trampoline retains a reference to it. */
  datatype HostFunction = HostFunction(id: nat, annotations: Annotations)

  /** A dict key: a Python string or some other object. */
  datatype PyKey = PyStr(s: string) | PyNonStr(id: nat)

  /** A value registered under a function name. */
  datatype FunctionValue = Callable(callable: HostFunction) | NotCallable(id: nat)

  /** A value registered under a namespace name. */
  datatype NamespaceValue =
    | NamespaceDict(entries: seq<(PyKey, FunctionValue)>)
    | NotADict(id: nat)

  /** The embedder's registry: namespace -> function name -> callable. */
  type Registry = seq<(PyKey, NamespaceValue)>

  /** An argument that must be Python `bytes`. */
  datatype BytesArgument = PyBytes(bytes: seq<Byte>) | NotBytes
}
