/** Decoded JSON objects, as far as the services look into them. */
module Json {
  type Fields = map<string, Value>

  /** `Other` is a number or null. Objects, arrays and others carry the text `fmt.Sprint` gives them (""
      for null). */
  datatype Value =
    | Str(s: string) | Bool(b: bool) | Obj(fields: Fields, text: string) | Arr(items: seq<Value>, text: string) | Other(text: string)

  /** `asString` */
  function AsString(v: Value): string {
    match v
    case Str(s) => s
    case Bool(b) => if b then "true" else "false"
    case Obj(_, text) => text
    case Arr(_, text) => text
    case Other(text) => text
  }

  function TextAt(m: Fields, key: string): string { if key in m then AsString(m[key]) else "" }

  /** A key that is missing reads like an empty text; truth values and everything else read as they are shown. */
  lemma TextReads(m: Fields, key: string)
    ensures key !in m ==> TextAt(m, key) == ""
    ensures key in m && m[key].Str? ==> TextAt(m, key) == m[key].s
    ensures key in m && m[key] == Bool(true) ==> TextAt(m, key) == "true"
    ensures key in m && m[key] == Bool(false) ==> TextAt(m, key) == "false"
    ensures key in m && (m[key].Obj? || m[key].Arr? || m[key].Other?) ==> TextAt(m, key) == m[key].text
  {
  }
}
