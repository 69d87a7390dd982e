/** Dynamic payloads as the pipeline's Python code sees them: decoded JSON
    values, string-keyed mappings, Python truthiness and `dict.get`. */
module Values {

  datatype Option<+T> = None | Some(value: T)

  datatype Result<+T, +E> = Ok(value: T) | Err(error: E)

  /** A decoded JSON value (numbers with a fraction are not represented). */
  datatype Value =
    | Null
    | Bool(b: bool)
    | Int(i: int)
    | Str(s: string)
    | List(items: seq<Value>)
    | Map(fields: map<string, Value>)

  /** The contents of an alert dict. */
  type Payload = map<string, Value>

  /** Python truthiness: None, False, 0 and empty containers are falsy. */
  predicate Truthy(v: Value) {
    match v
    case Null => false
    case Bool(b) => b
    case Int(i) => i != 0
    case Str(s) => |s| > 0
    case List(items) => |items| > 0
    case Map(fields) => |fields| > 0
  }

  /** `p.get(key, default)` */
  function Get(p: Payload, key: string, default: Value): Value {
    if key in p then p[key] else default
  }

  /** `{**p, key: v}`: a new mapping with every entry of `p` and `key` set
      to `v`. */
  function Put(p: Payload, key: string, v: Value): (q: Payload)
    ensures q.Keys == p.Keys + {key}
    ensures q[key] == v
    ensures forall k :: k in p && k != key ==> q[k] == p[k]
  {
    p[key := v]
  }

  /** A mapping with a key is truthy. */
  lemma NonEmptyWithKey(p: Payload, key: string)
    requires key in p
    ensures Truthy(Map(p))
  {
  }

  /** A Python dict object: an identity on the heap whose entries can be
      changed in place by whoever holds a reference to it. */
  class Dict {
    var entries: Payload

    constructor (entries: Payload)
      ensures this.entries == entries
    {
      this.entries := entries;
    }
  }
}
