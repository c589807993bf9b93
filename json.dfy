/**
  Raw values as the document store returns them, before schema validation.
  A key missing from an object stands for the JavaScript `undefined`
  ("absent"); numbers are only type-checked by the feed, so `int` suffices.
 */
module Json {
  import opened Wrappers

  datatype Json =
    | JNull
    | JBool(b: bool)
    | JNum(n: int)
    | JStr(s: string)
    | JArr(items: seq<Json>)
    | JObj(fields: map<string, Json>)

  /** One step along a path of object keys: absent when `o` is absent,
      is not an object, or has no such key. */
  function Field(o: Option<Json>, key: string): Option<Json>
  {
    match o
    case Some(JObj(m)) => if key in m then Some(m[key]) else None
    case _ => None
  }
}
