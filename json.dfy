/**
 * JavaScript values as far as the application inspects them, and JSON kept
 * abstract: a codec is a pair of a total `serialize` (`JSON.stringify`) and a
 * partial `parse` (`JSON.parse`, which throws on malformed text).
 */
module Json {
  import opened Wrappers

  /** A JSON-representable JavaScript value; `Null` also stands for `null`. */
  datatype Value =
    | Null
    | Bool(b: bool)
    | Num(n: int)
    | Str(s: string)
    | Arr(items: seq<Value>)
    | Obj(fields: seq<(string, Value)>)

  /** JavaScript truthiness: `null`, `false`, `0` and `''` are falsy; arrays and objects never are. */
  predicate Truthy(v: Value) {
    match v
    case Null => false
    case Bool(b) => b
    case Num(n) => n != 0
    case Str(s) => s != ""
    case Arr(_) => true
    case Obj(_) => true
  }

  /** `JSON.stringify` and `JSON.parse`; `None` from `parse` is a thrown `SyntaxError`. */
  datatype Codec = Codec(serialize: Value -> string, parse: string -> Option<Value>)

  /**
   * The two facts about JSON the model relies on: the empty text is not JSON,
   * and parsing what was serialized gives back the value.
   */
  ghost predicate Lawful(c: Codec) {
    && c.parse("") == None
    && forall v :: c.parse(c.serialize(v)) == Some(v)
  }
}
