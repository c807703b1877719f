/**
 * The values `json.loads` produces, Python's truth value of them, and
 * `dict.get`. The decoder itself and Python's `str()` of a decoded value
 * are oracles (function-typed parameters) constrained by two predicates.
 */
module JsonValue {
  import opened Wrappers

  /** A decoded number: `json.loads` gives an `int` for a literal without fraction
      or exponent and a `float` otherwise, and also accepts `NaN` and `Infinity`.
      `Int(1)` and `Float(1.0)` stay apart, as `str()` renders them differently. */
  datatype Number = Int(i: int) | Float(r: real) | NaN | Infinity(negative: bool)

  datatype Json =
    | JNull
    | JBool(b: bool)
    | JNumber(n: Number)
    | JString(s: string)
    | JArray(items: seq<Json>)
    | JObject(members: seq<Member>)

  /** One `"key": value` pair of an object, in the order of the text. */
  datatype Member = Member(key: string, value: Json)

  /** `json.JSONDecodeError`: a message and the position it refers to. */
  datatype DecodeError = DecodeError(msg: string, pos: nat)

  /** `json.loads` on a string. */
  type Decoder = string -> Result<Json, DecodeError>

  /** `f"{x}"` (that is `format(x, "")`, the same as `str(x)`) on a decoded value. */
  type Formatter = Json -> string

  /** What this model relies on about `json.loads`, from RFC 8259 and Python's decoder:
      the empty text is not JSON, and a text that starts with `{` can only decode to an object. */
  ghost predicate ValidDecoder(decode: Decoder)
  {
    && decode("").Failure?
    && forall t :: |t| > 0 && t[0] == '{' && decode(t).Success? ==> decode(t).value.JObject?
  }

  /** What this model relies on about `str()`: a string shows as itself and `None` as "None". */
  ghost predicate FormatsLikePython(show: Formatter)
  {
    && (forall s :: show(JString(s)) == s)
    && show(JNull) == "None"
  }

  /** Python's truth value of a decoded value (`if x:`). A dict built from
      the members is empty exactly when there are no members. */
  predicate Truthy(j: Json): (b: bool)
    ensures !b <==> j in {JNull, JBool(false), JNumber(Int(0)), JNumber(Float(0.0)), JString(""), JArray([]), JObject([])}
  {
    match j
    case JNull => false
    case JBool(b) => b
    case JNumber(n) => n != Int(0) && n != Float(0.0)
    case JString(s) => |s| > 0
    case JArray(items) => |items| > 0
    case JObject(members) => |members| > 0
  }

  /** The position of the last member whose key is `key`, or -1: a Python dict
      built from the members keeps, for a repeated key, its last occurrence. */
  function LastIndexOf(members: seq<Member>, key: string): (r: int)
    ensures -1 <= r < |members|
    ensures r == -1 <==> forall i :: 0 <= i < |members| ==> members[i].key != key
    ensures r >= 0 ==> members[r].key == key && forall k :: r < k < |members| ==> members[k].key != key
  {
    if |members| == 0 then -1
    else if members[|members| - 1].key == key then |members| - 1
    else
      var prefix := members[..|members| - 1];
      assert forall i :: 0 <= i < |prefix| ==> prefix[i] == members[i];
      LastIndexOf(prefix, key)
  }

  /** The value a Python dict built from `members` holds for `key`, if any. */
  function Get(members: seq<Member>, key: string): (r: Option<Json>)
    ensures r.None? <==> forall i :: 0 <= i < |members| ==> members[i].key != key
    ensures r.Some? ==> LastIndexOf(members, key) >= 0 && r.value == members[LastIndexOf(members, key)].value
  {
    var i := LastIndexOf(members, key);
    if i == -1 then None else Some(members[i].value)
  }

  /** `d.get(key, default)`. */
  function GetOr(members: seq<Member>, key: string, default: Json): (r: Json)
    ensures (forall i :: 0 <= i < |members| ==> members[i].key != key) ==> r == default
    ensures Get(members, key).Some? ==> r == Get(members, key).value
  {
    match Get(members, key)
    case Some(v) => v
    case None => default
  }
}
