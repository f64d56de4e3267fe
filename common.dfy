/**
 * Values shared by every part of the model: optional values and results,
 * the dynamic values carried by mutation arguments and records, the
 * structured error record, and the request a resolver receives.
 */
module Common {
  import opened Wrappers
  import opened Text

  /** A value held by a keyword argument, an uploaded form part or a record attribute. */
  datatype Value =
    | Null
    | Bool(b: bool)
    | Int(i: int)
    | Str(s: string)
    | Upload(fileName: string)
    | Nested(fields: map<string, Value>)
    | Items(values: seq<Value>)

  /** A stored record, as the mapping from attribute name to value. */
  type Record = map<string, Value>

  /** The backing store: records by the value of the mutation's lookup field. */
  type Rows = map<Value, Record>

  /** graphene_django's ErrorType: an optional field name and its messages. */
  datatype MutationError = MutationError(field: Option<string>, messages: seq<string>)

  datatype User = User(isAuthenticated: bool, isSuperuser: bool, isStaff: bool)

  /**
   * The request in `info.context`: its user, its CONTENT_TYPE header
   * (the empty string when the header is absent) and its uploaded files.
   */
  datatype Request = Request(user: User, contentType: string, files: map<string, Value>)

  /** Python's truthiness of an optional string (`None` and `""` are falsy). */
  predicate StringIsSet(s: Option<string>)
  {
    s.Some? && s.value != ""
  }

  /** Python's truthiness of a value: `None`, `False`, `0`, `""` and empty containers are falsy. */
  predicate Truthy(v: Value)
  {
    match v
    case Null => false
    case Bool(b) => b
    case Int(i) => i != 0
    case Str(s) => s != ""
    case Upload(_) => true
    case Nested(fields) => fields != map[]
    case Items(values) => values != []
  }

  /** `d.get(k)`: the value under `k`, or `None` when `k` is absent. */
  function GetOrNull(d: map<string, Value>, k: string): (v: Value)
    ensures k !in d ==> v == Null
    ensures k in d ==> v == d[k]
  {
    if k in d then d[k] else Null
  }

  /** Python's `str()` of a value, as used when an id is formatted into a message. */
  function Render(v: Value): (r: string)
    ensures v.Str? ==> r == v.s
    ensures v.Int? && v.i >= 0 ==> ParseDigits(r) == Some(v.i as nat)
  {
    match v
    case Null => "None"
    case Bool(b) => if b then "True" else "False"
    case Int(i) =>
      ParseNatToString(if i >= 0 then i else 0);
      if i >= 0 then NatToString(i) else "-" + NatToString(-i)
    case Str(s) => s
    case Upload(name) => name
    case Nested(_) => "{...}"
    case Items(_) => "[...]"
  }
}
