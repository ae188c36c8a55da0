/** Values the relay passes around: the result of parsing a request body and
    the records it builds for its responses. The relay never interprets a
    number beyond copying it, so a floating-point number is kept as the text
    of its literal. */
module JsonValues {

  /** A JSON document as a parser yields it. Object key order is not kept. */
  datatype Value =
    | Null
    | Bool(b: bool)
    | Int(i: int)
    | Number(literal: string)
    | Str(s: string)
    | Arr(elems: seq<Value>)
    | Obj(fields: map<string, Value>)
}
