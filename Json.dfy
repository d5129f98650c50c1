/** JSON values as exchanged between the Python backend and the Swift client,
    and the scalar conversions Swift's JSONDecoder performs on them. */
module JsonValues {
  import opened Wrappers

  /** One JSON value. Python's int and float, and JSON numbers, are all `JNum`. */
  datatype Json =
    | JNull
    | JBool(b: bool)
    | JNum(n: real)
    | JStr(s: string)
    | JArr(items: seq<Json>)
    | JObj(fields: map<string, Json>)

  /** A Python dict as the backend sees it. */
  type Dict = map<string, Json>

  const UInt64Bound: int := 0x1_0000_0000_0000_0000
  const Int64Min: int := -0x8000_0000_0000_0000
  const Int64Bound: int := 0x8000_0000_0000_0000

  predicate IsIntegral(r: real) {
    r.Floor as real == r
  }

  /** Decoding a Swift `String`. */
  function AsString(j: Json): Option<string> {
    if j.JStr? then Some(j.s) else None
  }

  /** Decoding a Swift `Bool`. */
  function AsBool(j: Json): Option<bool> {
    if j.JBool? then Some(j.b) else None
  }

  /** Decoding a Swift `Double`. */
  function AsDouble(j: Json): Option<real> {
    if j.JNum? then Some(j.n) else None
  }

  /** Decoding a Swift `Int` (64-bit): the number must be integral and in range. */
  function AsInt(j: Json): (r: Option<int>)
    ensures r.Some? ==> Int64Min <= r.value < Int64Bound
  {
    if j.JNum? && IsIntegral(j.n) && Int64Min <= j.n.Floor < Int64Bound then Some(j.n.Floor) else None
  }

  /** Decoding a Swift `UInt` (64-bit): integral, non-negative and below 2^64. */
  function AsUInt(j: Json): (r: Option<nat>)
    ensures r.Some? ==> r.value < UInt64Bound
    ensures r.Some? <==> j.JNum? && IsIntegral(j.n) && 0.0 <= j.n < UInt64Bound as real
  {
    if j.JNum? && IsIntegral(j.n) && 0 <= j.n.Floor < UInt64Bound then Some(j.n.Floor) else None
  }

  /** Decoding a Swift `URL`. Foundation turns the string into a URL with `URL(string:)`;
      the one rule of that parser modelled here is that the empty string is not a URL. */
  function AsUrl(j: Json): Option<string> {
    if j.JStr? && j.s != "" then Some(j.s) else None
  }

  /** Decoding an optional field with `decodeIfPresent`: absent or `null` gives `nil`. */
  function OptionalField<T>(obj: Dict, key: string, decode: Json -> Option<T>): Option<Option<T>> {
    if key !in obj || obj[key] == JNull then Some(None)
    else match decode(obj[key])
      case Some(v) => Some(Some(v))
      case None => None
  }

  /** Decoding a required field with `decode`: absent is `keyNotFound`. */
  function RequiredField<T>(obj: Dict, key: string, decode: Json -> Option<T>): Option<T> {
    if key in obj then decode(obj[key]) else None
  }

  /** Decoding a Swift array `[T]`: a JSON array whose every element decodes, in order. */
  function DecodeEach<T>(j: Json, decode: Json -> Option<T>): (r: Option<seq<T>>)
    ensures r.Some? ==> j.JArr? && |r.value| == |j.items|
    ensures r.Some? ==> forall i :: 0 <= i < |j.items| ==> decode(j.items[i]) == Some(r.value[i])
    ensures r.None? && j.JArr? ==> exists i :: 0 <= i < |j.items| && decode(j.items[i]).None?
    decreases if j.JArr? then |j.items| else 0
  {
    if !j.JArr? then None
    else if j.items == [] then Some([])
    else
      match (decode(j.items[0]), DecodeEach(JArr(j.items[1..]), decode))
      case (Some(x), Some(xs)) => Some([x] + xs)
      case (None, _) => None
      case (_, None) => None
  }
}
