/** JSON values as the Python code holds them, and the equalities and hashes it applies to them. */
module Json {
  import opened Wrappers

  // `JDec` is a `Decimal` read from a database column; floats and decimals are exact numbers here.
  datatype Json =
    | JNull
    | JBool(b: bool)
    | JInt(i: int)
    | JFloat(r: real)
    | JDec(d: real)
    | JStr(s: string)
    | JArr(items: seq<Json>)
    | JObj(fields: map<string, Json>)

  // `value.get(key)`: a missing key reads as None.
  function Get(fields: map<string, Json>, key: string): Json {
    if key in fields then fields[key] else JNull
  }

  function GetOr(fields: map<string, Json>, key: string, default: Json): Json {
    if key in fields then fields[key] else default
  }

  // Python's truth of a value.
  predicate Truthy(j: Json) {
    match j
    case JNull => false
    case JBool(b) => b
    case JInt(i) => i != 0
    case JFloat(r) => r != 0.0
    case JDec(d) => d != 0.0
    case JStr(s) => s != ""
    case JArr(items) => items != []
    case JObj(fields) => fields != map[]
  }

  // What a value contributes to a Python set. Numbers hash and compare by value, and True and False are 1 and 0.
  datatype HashKey = KNull | KNum(x: real) | KStr(s: string)

  function Hash(j: Json): Option<HashKey> {
    match j
    case JNull => Some(KNull)
    case JBool(b) => Some(KNum(if b then 1.0 else 0.0))
    case JInt(i) => Some(KNum(i as real))
    case JFloat(r) => Some(KNum(r))
    case JDec(d) => Some(KNum(d))
    case JStr(s) => Some(KStr(s))
    case JArr(_) => None
    case JObj(_) => None
  }
}
