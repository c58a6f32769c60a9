/** JSON values as the JavaScript code sees them, with the few JavaScript
    operations the node relies on: truthiness, property reads that may be
    `undefined`, assignment of a possibly-undefined value, and object spread. */
module JsonValues {

  datatype Option<+T> = None | Some(value: T)

  /** A computation that either yields a value or throws (a JavaScript TypeError). */
  datatype Result<+T> = Ok(value: T) | Failure(reason: string)

  /** The reason of every TypeError the code can throw. */
  const Thrown := "TypeError"

  /** Numbers are integers here; floating point is not part of the model. */
  datatype Json =
    | JNull
    | JStr(s: string)
    | JNum(n: int)
    | JBool(b: bool)
    | JArr(elems: seq<Json>)
    | JObj(fields: map<string, Json>)

  /** A plain JavaScript object (`IDataObject`). A key whose value is `undefined`
      is modelled as an absent key: serialising the object drops it. */
  type Props = map<string, Json>

  /** JavaScript truthiness: `null`, `""`, `0` and `false` are falsy; every
      array and every object, even an empty one, is truthy. */
  predicate Truthy(j: Json)
  {
    match j
    case JNull => false
    case JStr(s) => s != ""
    case JNum(n) => n != 0
    case JBool(b) => b
    case JArr(_) => true
    case JObj(_) => true
  }

  /** `obj.key`: None stands for `undefined`. */
  function Get(m: Props, k: string): (r: Option<Json>)
    ensures r.Some? <==> k in m
    ensures r.Some? ==> r.value == m[k]
  {
    if k in m then Some(m[k]) else None
  }

  /** `!!obj.key`: the key is there and its value is truthy. */
  predicate TruthyAt(m: Props, k: string)
  {
    k in m && Truthy(m[k])
  }

  /** `value.key` for an arbitrary value: only objects have fields. */
  function Field(j: Json, k: string): (r: Option<Json>)
    ensures r.Some? ==> j.JObj? && k in j.fields && r.value == j.fields[k]
  {
    if j.JObj? then Get(j.fields, k) else None
  }

  /** The keys a spread `{...v}` contributes; a non-object contributes none. */
  function Spread(v: Option<Json>): (r: Props)
    ensures v.Some? && v.value.JObj? ==> r == v.value.fields
    ensures !(v.Some? && v.value.JObj?) ==> r == map[]
  {
    if v.Some? && v.value.JObj? then v.value.fields else map[]
  }

  /** `m[k] = v` (or `{..., k: v}`) where `v` may be `undefined`: an
      undefined value leaves no key behind. */
  function PutOpt(m: Props, k: string, v: Option<Json>): (r: Props)
    ensures v.Some? ==> k in r && r[k] == v.value
    ensures v.None? ==> k !in r
  {
    if v.Some? then m[k := v.value] else m - {k}
  }

  /** `{...}` cast of a parameter value to an object; a non-object reads as `{}`. */
  function AsObject(j: Json): (r: Props)
    ensures j.JObj? ==> r == j.fields
  {
    if j.JObj? then j.fields else map[]
  }
}
