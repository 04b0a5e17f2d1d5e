/** The dynamically typed JSON value the client receives from its parser
    (serde_json's `Value`), reduced to what the client inspects. */
module Json {

  /** An IEEE-754 double kept as its bit pattern; the client never computes with it. */
  datatype F64 = F64(bits: bv64)

  /** A JSON number as the parser stores it: an unsigned 64-bit integer, a negative
      64-bit integer (two's complement bits) or a double. */
  datatype Number = PosInt(u: bv64) | NegInt(i: bv64) | Float(f: F64)

  /** An object maps each key to one value (the parser's map has unique keys). */
  datatype Value =
    | Null
    | Bool(b: bool)
    | Num(n: Number)
    | String(s: string)
    | Array(items: seq<Value>)
    | Object(fields: map<string, Value>)

  /** Indexing a value by a key, as `value["key"]` does: the member when the value
      is an object holding that key, and `Null` for a missing key or a non-object. */
  function Index(v: Value, key: string): (r: Value)
    ensures v.Object? && key in v.fields ==> r == v.fields[key]
    ensures r != Null ==> v.Object? && key in v.fields
  {
    match v
    case Object(fields) => if key in fields then fields[key] else Null
    case _ => Null
  }

  /** `v` is an object whose member `key` is a string. */
  predicate HasStringMember(v: Value, key: string)
  {
    v.Object? && key in v.fields && v.fields[key].String?
  }

  /** The string held by member `key` of `v`. */
  function StringMember(v: Value, key: string): string
    requires HasStringMember(v, key)
  {
    v.fields[key].s
  }
}
