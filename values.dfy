/** The Python values the core stores in its dictionaries and lists, the
    exceptions its code can raise, and the Option/Result wrappers used to
    model `None` and raised exceptions. */
module Values {

  datatype Option<+T> = None | Some(value: T)

  datatype Result<+T, +E> = Success(value: T) | Failure(error: E) {
    predicate IsFailure() { Failure? }

    function PropagateFailure<U>(): Result<U, E>
      requires Failure?
    {
      Failure(error)
    }

    function Extract(): T
      requires Success?
    {
      value
    }
  }

  /** The message classes of the chat history (`HumanMessage`, `AIMessage`,
      `SystemMessage`). */
  datatype MessageKind = Human | AI | System

  /** A Python value as it can appear inside a state dictionary: JSON-like
      data, plus chat message objects, which are not dictionaries. */
  datatype Value =
    | VNone
    | VBool(b: bool)
    | VInt(i: int)
    | VReal(x: real)
    | VStr(s: string)
    | VList(items: seq<Value>)
    | VDict(entries: map<string, Value>)
    | VMessage(kind: MessageKind, content: string)

  type Dict = map<string, Value>

  /** `d.get(key, default)` */
  function Get(d: Dict, key: string, default: Value): (v: Value)
    ensures key in d ==> v == d[key]
    ensures key !in d ==> v == default
  {
    if key in d then d[key] else default
  }

  /** Python truthiness: `bool(v)`. */
  predicate Truthy(v: Value) {
    match v
    case VNone => false
    case VBool(b) => b
    case VInt(i) => i != 0
    case VReal(x) => x != 0.0
    case VStr(s) => s != ""
    case VList(items) => items != []
    case VDict(entries) => entries != map[]
    case VMessage(_, _) => true
  }

  /** `type(v).__name__` */
  function TypeName(v: Value): string {
    match v
    case VNone => "NoneType"
    case VBool(_) => "bool"
    case VInt(_) => "int"
    case VReal(_) => "float"
    case VStr(_) => "str"
    case VList(_) => "list"
    case VDict(_) => "dict"
    case VMessage(Human, _) => "HumanMessage"
    case VMessage(AI, _) => "AIMessage"
    case VMessage(System, _) => "SystemMessage"
  }

  /** An exception raised by the core's own code or by a collaborator. */
  datatype Fault =
    | KeyError(key: string)
    | AttributeError(typeName: string, attribute: string)
    | NotSubscriptable(typeName: string)
    | External(text: string)

  /** `str(e)` of the exception. */
  function FaultText(f: Fault): string {
    match f
    case KeyError(k) => "'" + k + "'"
    case AttributeError(t, a) => "'" + t + "' object has no attribute '" + a + "'"
    case NotSubscriptable(t) => "'" + t + "' object is not subscriptable"
    case External(text) => text
  }

  /** `data[key]` where `data` may be `None`. */
  function Index(data: Option<Dict>, key: string): (r: Result<Value, Fault>)
    ensures r.Success? <==> data.Some? && key in data.value
    ensures r.Success? ==> r.value == data.value[key]
  {
    match data
    case None => Failure(NotSubscriptable("NoneType"))
    case Some(d) => if key in d then Success(d[key]) else Failure(KeyError(key))
  }

  /** `data.get(key, default)` where `data` may be `None`. */
  function GetFrom(data: Option<Dict>, key: string, default: Value): (r: Result<Value, Fault>)
    ensures r.Success? <==> data.Some?
    ensures r.Success? ==> r.value == Get(data.value, key, default)
  {
    match data
    case None => Failure(AttributeError("NoneType", "get"))
    case Some(d) => Success(Get(d, key, default))
  }
}
