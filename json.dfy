/** Decoded JSON values, as `json.loads` hands them to the message model,
    and the textual rendering Python's f-strings give them when an error
    message names a value (`str()` of a decoded value). */
module JsonData {

  /** A decoded JSON value. Numbers are integers only; objects keep their
      members in insertion order, as a Python dict does. */
  datatype Json =
    | JNull
    | JBool(b: bool)
    | JNum(n: int)
    | JStr(s: string)
    | JArr(items: seq<Json>)
    | JObj(members: seq<Member>)

  datatype Member = Member(key: string, value: Json)

  /** The object `{key: value}` with one member. */
  function Single(key: string, value: Json): (j: Json)
    ensures j.JObj? && |j.members| == 1
    ensures j.members[0].key == key && j.members[0].value == value
  {
    JObj([Member(key, value)])
  }

  /** The empty object `{}`. */
  const EmptyObject: Json := JObj([])

  function Digit(d: nat): (c: char)
    requires d < 10
    ensures '0' <= c <= '9'
  {
    "0123456789"[d]
  }

  /** Decimal digits of a natural number, most significant first. */
  function NatToString(n: nat): (s: string)
    ensures |s| > 0
    ensures forall i :: 0 <= i < |s| ==> '0' <= s[i] <= '9'
  {
    if n < 10 then [Digit(n)] else NatToString(n / 10) + [Digit(n % 10)]
  }

  function IntToString(n: int): (s: string)
    ensures |s| > 0
    ensures s[0] == '-' <==> n < 0
  {
    if n < 0 then "-" + NatToString(-n) else NatToString(n)
  }

  /** The items of a list rendering, separated by ", ". */
  function JoinItems(parts: seq<string>): string
  {
    if parts == [] then ""
    else if |parts| == 1 then parts[0]
    else parts[0] + ", " + JoinItems(parts[1..])
  }

  /** Python's `repr()` of a decoded value. Quotes and backslashes inside
      strings are not escaped. */
  function Repr(j: Json): string
  {
    match j
    case JNull => "None"
    case JBool(b) => if b then "True" else "False"
    case JNum(n) => IntToString(n)
    case JStr(s) => "'" + s + "'"
    case JArr(xs) =>
      "[" + JoinItems(seq(|xs|, i requires 0 <= i < |xs| => Repr(xs[i]))) + "]"
    case JObj(ms) =>
      "{" + JoinItems(seq(|ms|, i requires 0 <= i < |ms| =>
                            "'" + ms[i].key + "': " + Repr(ms[i].value))) + "}"
  }

  /** Python's `str()` of a decoded value, which is what `{x}` in an
      f-string inserts: a string is inserted as it is, anything else as its
      `repr()`. */
  function Str(j: Json): (s: string)
    ensures j.JStr? ==> s == j.s
    ensures j.JNull? ==> s == "None"
    ensures j.JNum? ==> s == IntToString(j.n)
  {
    match j
    case JStr(s) => s
    case _ => Repr(j)
  }

  /** Python's name for the type of a decoded value, as type errors print it. */
  function TypeName(j: Json): string
  {
    match j
    case JNull => "NoneType"
    case JBool(_) => "bool"
    case JNum(_) => "int"
    case JStr(_) => "str"
    case JArr(_) => "list"
    case JObj(_) => "dict"
  }
}
