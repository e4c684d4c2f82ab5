/**
 * The dictionaries that request data travels in: a serializer's `validated_data`
 * and the rows built from it. Values are the few Python value kinds the core
 * stores or tests for truthiness.
 */
module Fields {
  import opened Wrappers

  type Email = string

  datatype Value =
    | Null
    | Str(s: string)
    | Int(i: int)
    | Bool(b: bool)
    | UserRef(email: Email)   // a foreign key to a user, identified by its unique email

  /** Python truthiness of a stored value. */
  predicate Truthy(v: Value) {
    match v
    case Null => false
    case Str(s) => s != ""
    case Int(i) => i != 0
    case Bool(b) => b
    case UserRef(_) => true
  }

  type Record = map<string, Value>

  /** A `validated_data` dict that a serializer edits in place before saving. */
  class ValidatedData {
    var fields: Record

    constructor (initial: Record)
      ensures fields == initial
    {
      fields := initial;
    }

    /** `dict.pop(key, None)`: removes the key and returns what it held. */
    method Pop(key: string) returns (v: Option<Value>)
      modifies this
      ensures fields == old(fields) - {key}
      ensures key in old(fields) ==> v == Some(old(fields)[key])
      ensures key !in old(fields) ==> v == None
    {
      if key in fields {
        v := Some(fields[key]);
        fields := fields - {key};
      } else {
        v := None;
      }
    }

    /** `dict[key] = value`. */
    method Put(key: string, value: Value)
      modifies this
      ensures fields == old(fields)[key := value]
    {
      fields := fields[key := value];
    }
  }
}
