/**
 * JSON values as the routes see them after `JSON.parse`. The parser itself is an
 * oracle: a `Parser` returns `None` where `JSON.parse` throws a SyntaxError.
 */
module Json {
  import opened Common

  datatype Json =
    | Null
    | Bool(b: bool)
    | Number(n: int)
    | Str(s: string)
    | Array(items: seq<Json>)
    | Object(members: seq<(string, Json)>)

  /** `JSON.parse`, None standing for a thrown SyntaxError. */
  type Parser = string -> Option<Json>

  /** `Array.isArray(v) ? v : [v]`: the wrap rule shared by the idea routes. */
  function AsList(v: Json): seq<Json> {
    if v.Array? then v.items else [v]
  }
}
