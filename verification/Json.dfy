/** Decoded JSON. Numbers keep Go's distinction between integers (cluster objects)
    and floats (encoding/json into an empty interface). */
module Json {
  import opened Options

  datatype Json =
    | Null
    | Bool(b: bool)
    | Int(i: int)
    | Float(x: real)
    | Str(s: string)
    | Arr(items: seq<Json>)
    | Obj(fields: map<string, Json>)

  /** fmt.Sprintf("%v", ...); on strings it is the identity. */
  type Renderer = render: Json -> string | forall s: string :: render(Str(s)) == s
    ghost witness (j: Json) => if j.Str? then j.s else ""

  /** A non-empty string under this key, if there is one. */
  function StringAt(fields: map<string, Json>, key: string): Option<string> {
    if key in fields && fields[key].Str? && fields[key].s != "" then Some(fields[key].s) else None
  }

  function Strings(items: seq<string>): Json {
    Arr(seq(|items|, i requires 0 <= i < |items| => Str(items[i])))
  }

  /** The fields with one more, unless it would be empty. */
  function WithText(fields: map<string, Json>, key: string, text: string): map<string, Json> {
    if text != "" then fields[key := Str(text)] else fields
  }

  function WithTexts(fields: map<string, Json>, key: string, texts: seq<string>): map<string, Json> {
    if texts != [] then fields[key := Strings(texts)] else fields
  }

  function FieldAt(fields: map<string, Json>, key: string): Option<Json> {
    if key in fields then Some(fields[key]) else None
  }

  /** Reading a key that is not there gives nil. */
  function Field(fields: map<string, Json>, key: string): Json {
    if key in fields then fields[key] else Null
  }

  /** Adding a field leaves the others. */
  lemma AddedField(fields: map<string, Json>, key: string, text: string, texts: seq<string>, other: string)
    ensures FieldAt(WithText(fields, key, text), other) ==
              if other == key && text != "" then Some(Str(text)) else FieldAt(fields, other)
    ensures FieldAt(WithTexts(fields, key, texts), other) ==
              if other == key && texts != [] then Some(Strings(texts)) else FieldAt(fields, other)
  {
  }
}
