/** The slice of Python's data model that the agent loop relies on: JSON-like
    values as the Bedrock SDK hands them over (dicts, lists, strings, numbers,
    None), the exceptions the loop can raise on them, and the built-in
    operations it applies (`dict.get`, `in`, iteration, `str.join`,
    truthiness, `list.append`). */
module Py {

  datatype Option<T> = None | Some(value: T)

  /** The exceptions the modelled code can raise. `External` stands for any
      exception that escapes a tool implementation (network, lookup, parsing). */
  datatype PyError = AttributeError | TypeError | UnboundLocalError | External(kind: string)

  /** A computation that either returns a value or raises. */
  datatype Result<T> = Ok(value: T) | Err(error: PyError) {
    predicate IsFailure() { Err? }
    function PropagateFailure<U>(): Result<U>
      requires Err?
    {
      Err(error)
    }
    function Extract(): T
      requires Ok?
    {
      value
    }
  }

  /** A Python value. `Null` is Python's `None`. A dict is its mapping
      together with its keys in insertion order, the order in which Python
      iterates it. */
  datatype Value =
    | Null
    | Bool(b: bool)
    | Int(i: int)
    | Float(r: real)
    | Str(s: string)
    | List(items: seq<Value>)
    | Dict(keys: seq<string>, fields: map<string, Value>)

  /** The empty dict `{}`. */
  const EmptyDict := Dict([], map[])

  /** `v[key]` when `v` is a dict holding `key`. */
  function Field(v: Value, key: string): (r: Option<Value>)
    ensures r.Some? <==> v.Dict? && key in v.fields
    ensures r.Some? ==> r.value == v.fields[key]
  {
    if v.Dict? && key in v.fields then Some(v.fields[key]) else None
  }

  /** `v[key]` when `v` is a dict holding `key`, otherwise `default`. */
  function FieldOr(v: Value, key: string, default: Value): Value
  {
    match Field(v, key)
    case Some(x) => x
    case None => default
  }

  /** `v.get(key, default)`: only dicts have a `get` attribute. */
  function Get(v: Value, key: string, default: Value): (r: Result<Value>)
    ensures r.Err? <==> !v.Dict?
    ensures r.Err? ==> r.error == AttributeError
    ensures v.Dict? && key !in v.fields ==> r == Ok(default)
    ensures v.Dict? && key in v.fields ==> r == Ok(v.fields[key])
  {
    if !v.Dict? then Err(AttributeError) else Ok(FieldOr(v, key, default))
  }

  /** Python's `p in s` on strings: `p` occurs as a contiguous part of `s`. */
  predicate IsSubstring(p: string, s: string)
  {
    p <= s || (s != [] && IsSubstring(p, s[1..]))
  }

  /** `key in container` for a string `key`: key membership for a dict,
      element equality for a list, substring for a string; anything else is
      not a container. */
  function Contains(container: Value, key: string): (r: Result<bool>)
    ensures r.Err? <==> !(container.Dict? || container.List? || container.Str?)
    ensures r.Err? ==> r.error == TypeError
    ensures container.Dict? ==> r == Ok(key in container.fields)
    ensures container.List? ==> r == Ok(Str(key) in container.items)
    ensures container.Str? ==> r == Ok(IsSubstring(key, container.s))
  {
    match container
    case Dict(_, fields) => Ok(key in fields)
    case List(items) => Ok(Str(key) in items)
    case Str(s) => Ok(IsSubstring(key, s))
    case _ => Err(TypeError)
  }

  /** The elements a `for` loop visits: a list's items, a dict's keys, a
      string's one-character strings. */
  function Iterate(v: Value): (r: Result<seq<Value>>)
    ensures r.Err? <==> !(v.Dict? || v.List? || v.Str?)
    ensures r.Err? ==> r.error == TypeError
    ensures v.List? ==> r == Ok(v.items)
    ensures v.Dict? ==> (|r.value| == |v.keys| &&
      forall i :: 0 <= i < |v.keys| ==> r.value[i] == Str(v.keys[i]))
    ensures v.Str? ==> (|r.value| == |v.s| &&
      forall i :: 0 <= i < |v.s| ==> r.value[i] == Str([v.s[i]]))
  {
    match v
    case List(items) => Ok(items)
    case Dict(keys, _) => Ok(seq(|keys|, i requires 0 <= i < |keys| => Str(keys[i])))
    case Str(s) => Ok(seq(|s|, i requires 0 <= i < |s| => Str([s[i]])))
    case _ => Err(TypeError)
  }

  /** `''.join(parts)`: the strings glued together with no separator; a
      part that is not a string raises TypeError. */
  function Join(parts: seq<Value>): (r: Result<string>)
    ensures r.Ok? <==> forall i :: 0 <= i < |parts| ==> parts[i].Str?
    ensures r.Err? ==> r.error == TypeError
  {
    if parts == [] then Ok("")
    else if !parts[0].Str? then Err(TypeError)
    else
      var rest :- Join(parts[1..]);
      Ok(parts[0].s + rest)
  }

  /** Python truthiness: None, False, zero, and empty strings, lists and
      dicts are false; everything else is true. */
  predicate Truthy(v: Value)
  {
    match v
    case Null => false
    case Bool(b) => b
    case Int(i) => i != 0
    case Float(r) => r != 0.0
    case Str(s) => s != ""
    case List(items) => items != []
    case Dict(_, fields) => fields != map[]
  }

  /** A Python list object: callers that hold the same reference see each
      other's appends. */
  class PyList {
    var items: seq<Value>

    constructor (init: seq<Value>)
      ensures items == init
    {
      items := init;
    }

    /** `list.append(x)`. */
    method Append(x: Value)
      modifies this
      ensures items == old(items) + [x]
    {
      items := items + [x];
    }
  }
}
