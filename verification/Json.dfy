/** JSON documents, as payloads of records and as answers of a backend. */
module Json {

  /** A number is a decimal numeral: `mantissa` times ten to the `exponent`. */
  datatype Value =
    | Null
    | Flag(flag: bool)
    | Number(mantissa: int, exponent: int)
    | Text(text: string)
    | Listing(items: seq<Value>)
    | Object(fields: map<string, Value>)

  type Document = map<string, Value>

  /** `document.get(key)`. */
  function Get(d: Document, key: string): Value {
    if key in d then d[key] else Null
  }

  predicate Truthy(v: Value) {
    match v
    case Null => false
    case Flag(b) => b
    case Number(m, _) => m != 0
    case Text(s) => s != ""
    case Listing(items) => items != []
    case Object(fields) => fields != map[]
  }

  /** `v == 0`, which a false flag also satisfies. */
  predicate IsZero(v: Value) {
    (v.Number? && v.mantissa == 0) || v == Flag(false)
  }
}
