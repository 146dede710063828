/**
 The values `json_decode` produces (objects decoded as `stdClass`, not as
 associative arrays), and PHP's `empty()` test on them.
 */
module Json {

  /** A decoded JSON value. An object is a map because `json_decode` keeps
      one value per key; numbers with a fraction or exponent become PHP floats,
      modelled here as exact reals. */
  datatype Value =
    | Null
    | Bool(b: bool)
    | Int(i: int)
    | Float(x: real)
    | Str(s: string)
    | Arr(items: seq<Value>)
    | Obj(members: map<string, Value>)

  /** The values PHP's `empty()` calls empty: null, false, 0, 0.0, "", "0"
      and the empty array. An object is never empty, even one without
      properties. */
  const EmptyValues: set<Value> :=
    {Null, Bool(false), Int(0), Float(0.0), Str(""), Str("0"), Arr([])}

  /** PHP `empty($v)` on a decoded value, decided by the value's kind. */
  function IsEmpty(v: Value): (empty: bool)
    ensures empty <==> v in EmptyValues
  {
    match v
    case Null => true
    case Bool(b) => !b
    case Int(i) => i == 0
    case Float(x) => x == 0.0
    case Str(s) => s == "" || s == "0"
    case Arr(items) => |items| == 0
    case Obj(_) => false
  }
}
