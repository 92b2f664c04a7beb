/**
 * JSON values as `serde_json::Value` holds them. The textual encoding and
 * decoding done by serde_json is not part of this model: it reaches the model
 * as the `render`/`parse` functions of `Messages.Serde`.
 */
module Json {
  import opened Wrappers
  import opened Bytes

  /** `Value`: integers and non-integral numbers are kept apart because `as_u64` only accepts the former. */
  datatype Json =
    | Null
    | Bool(b: bool)
    | Int(i: int)
    | Float(f: real)
    | Str(s: Text)
    | Array(elems: seq<Json>)
    | Object(fields: map<Text, Json>)

  /** What serde reports when text or a value does not have the expected shape. */
  datatype JsonError =
    | Syntax
    | InvalidType
    | MissingField(name: Text)
    | InvalidLength(len: nat)

  /** `Value::as_u64`: a non-negative integer that fits in 64 bits. */
  function AsU64(v: Json): (r: Option<nat>)
    ensures r.Some? <==> v.Int? && 0 <= v.i <= USIZE_MAX
    ensures r.Some? ==> r.value == v.i
  {
    if v.Int? && 0 <= v.i <= USIZE_MAX then Some(v.i) else None
  }

  /** `{}`, how `Empty {}` serialises. */
  const EMPTY_OBJECT: Json := Object(map[])
}
