/** JSON values as Python holds them after `json.loads`. Integers and floats are different
    Python types, so they are different constructors; floats are the finite ones. */
module JsonValues {
  datatype Json =
    | Null
    | Bool(b: bool)
    | Int(i: int)
    | Float(r: real)
    | Str(s: string)
    | Arr(items: seq<Json>)
    | Obj(fields: map<string, Json>)

  /** A SHA-256 of canonical JSON text. Both are taken as injective, so the digest is
      represented by the value it is computed from. */
  datatype Digest = Sha256(of: Json)
}
