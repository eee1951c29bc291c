/**
 JSON values with the conversions and errors of the JSON library. Printing and
 parsing JSON text are parameters; `Faithful` says that parsing undoes printing.
 */
module Json {
  import opened Wrappers
  import opened Bytes

  type JsonInt = x: int | -0x8000_0000_0000_0000 <= x < 0x1_0000_0000_0000_0000

  datatype Json =
    | JNull
    | JBool(b: bool)
    | JInt(n: JsonInt)
    | JStr(s: ByteString)
    | JArr(items: seq<Json>)
    | JObj(fields: map<string, Json>)

  datatype JsonText = JsonText(
    dump: Json -> ByteString,
    parse: ByteString -> Option<Json>,
    members: map<string, Json> -> seq<Json>)   // the order in which an object is iterated

  ghost predicate Faithful(t: JsonText) {
    forall j :: t.parse(t.dump(j)) == Some(j)
  }

  function Parse(t: JsonText, text: ByteString): Result<Json> {
    match t.parse(text)
    case None => Err("parse_error")
    case Some(j) => Ok(j)
  }

  // ----------------------------------------------------------------- element access

  predicate Contains(j: Json, key: string) {
    j.JObj? && key in j.fields
  }

  function At(j: Json, key: string): Result<Json> {
    if !j.JObj? then Err("type_error") else
    if key !in j.fields then Err("out_of_range") else Ok(j.fields[key])
  }

  /** `j.value(key, fallback)`: the fallback only for a missing key of an object. */
  function ValueOr(j: Json, key: string, fallback: Json): Result<Json> {
    if !j.JObj? then Err("type_error") else
    if key !in j.fields then Ok(fallback) else Ok(j.fields[key])
  }

  /** `j[key] = v`: null becomes an object, any other non-object is an error. */
  function SetKey(j: Json, key: string, v: Json): Result<Json> {
    match j
    case JNull => Ok(JObj(map[key := v]))
    case JObj(fields) => Ok(JObj(fields[key := v]))
    case _ => Err("type_error")
  }

  function SetIfMissing(j: Json, key: string, v: Json): Result<Json> {
    if Contains(j, key) then Ok(j) else SetKey(j, key, v)
  }

  function EraseKey(j: Json, key: string): Result<Json> {
    match j
    case JObj(fields) => Ok(JObj(fields - {key}))
    case _ => Err("type_error")
  }

  /** Range-for over a value: null is empty, a scalar is its own one element. */
  function Elements(t: JsonText, j: Json): seq<Json> {
    match j
    case JNull => []
    case JArr(items) => items
    case JObj(fields) => t.members(fields)
    case _ => [j]
  }

  // ------------------------------------------------------------------- conversions

  function AsStr(j: Json): Result<ByteString> {
    if j.JStr? then Ok(j.s) else Err("type_error")
  }

  function AsBool(j: Json): Result<bool> {
    if j.JBool? then Ok(j.b) else Err("type_error")
  }

  /** Integers convert by cast, so a negative number wraps. */
  function AsU64(j: Json): Result<U64> {
    if j.JInt? then Ok(ToU64(j.n)) else Err("type_error")
  }

  function AsI64(j: Json): Result<I64> {
    if j.JInt? then Ok(ToI64(j.n)) else Err("type_error")
  }

  /** The 32-bit conversion also takes booleans. */
  function AsU32(j: Json): Result<U32> {
    match j
    case JInt(n) => Ok(ToU32(n))
    case JBool(b) => Ok(if b then 1 else 0)
    case _ => Err("type_error")
  }

  lemma IntsConvertBack(u: U64, v: U32, i: I64)
    ensures AsU64(JInt(u)) == Ok(u) && AsU32(JInt(v)) == Ok(v) && AsI64(JInt(i)) == Ok(i)
  {
    I64RoundTrip(i);
  }

  // ------------------------------------------------------------- getters by key

  function StrAt(j: Json, key: string): Result<ByteString> {
    var v :- At(j, key);
    AsStr(v)
  }

  function U64At(j: Json, key: string): Result<U64> {
    var v :- At(j, key);
    AsU64(v)
  }

  function I64At(j: Json, key: string): Result<I64> {
    var v :- At(j, key);
    AsI64(v)
  }

  function U32At(j: Json, key: string): Result<U32> {
    var v :- At(j, key);
    AsU32(v)
  }

  function StrOr(j: Json, key: string, fallback: ByteString): Result<ByteString> {
    var v :- ValueOr(j, key, JStr(fallback));
    AsStr(v)
  }

  function BoolOr(j: Json, key: string, fallback: bool): Result<bool> {
    var v :- ValueOr(j, key, JBool(fallback));
    AsBool(v)
  }

  function I64Or(j: Json, key: string, fallback: I64): Result<I64> {
    var v :- ValueOr(j, key, JInt(fallback));
    AsI64(v)
  }

  function U32Or(j: Json, key: string, fallback: U32): Result<U32> {
    var v :- ValueOr(j, key, JInt(fallback));
    AsU32(v)
  }

  /** A key that may be absent, as an optional string. */
  function OptStrAt(j: Json, key: string): Result<Option<ByteString>> {
    if !Contains(j, key) then Ok(None) else
    var s :- StrAt(j, key);
    Ok(Some(s))
  }
}
