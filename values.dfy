/**
 * The values the adapter puts into its request dictionaries, and the few
 * pieces of Python semantics the field mapping relies on: a record field that
 * may be `None`, truthiness, `a or b`, and `str()` inside an f-string.
 */
module Values {
  import opened Wrappers

  /** A JSON value as `json.dumps` would see the request dictionaries. */
  datatype Json =
    | JNull
    | JStr(str: string)
    | JNum(num: real)
    | JObj(fields: map<string, Json>)
    | JArr(elems: seq<Json>)

  /** A record field copied into a dictionary as it is: `None` becomes `null`. */
  function Raw(field: Option<string>): (j: Json)
    ensures j.JNull? <==> field.None?
  {
    match field
    case None => JNull
    case Some(s) => JStr(s)
  }

  /** Python truthiness of a string field: neither `None` nor `""`. */
  predicate Truthy(field: Option<string>) {
    field.Some? && field.value != ""
  }

  /** `field or ""`: the field when it is truthy, otherwise the empty string. */
  function OrEmpty(field: Option<string>): (s: string)
    ensures s == "" <==> !Truthy(field)
    ensures Truthy(field) ==> s == field.value
  {
    if Truthy(field) then field.value else ""
  }

  /** `f"{field}"`: the text of the field, and `"None"` when it is `None`. */
  function Show(field: Option<string>): string {
    match field
    case None => "None"
    case Some(s) => s
  }
}
