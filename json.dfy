/** The JSON values a request body can carry, and the three JavaScript
    operations the route handlers apply to them: truthiness (`!x`), property
    access (`x[key]`, `x.length`) and template-literal conversion
    (`${x}`). Numbers are modelled as integers. */
module Json {
  import opened Wrappers
  import Text

  datatype Json =
    | Null
    | Bool(b: bool)
    | Num(n: int)
    | Str(s: string)
    | Arr(items: seq<Json>)
    | Obj(fields: map<string, Json>)

  /** A property read off a parsed body: `None` is `undefined` (key absent). */
  type Field = Option<Json>

  /** JavaScript truthiness: `undefined`, `null`, `false`, `0` and `""` are
      falsy; every other value, including `[]` and `{}`, is truthy. */
  function Truthy(v: Field): (b: bool)
    ensures !b <==> v.None? || v.value in {Null, Bool(false), Num(0), Str("")}
  {
    match v
    case None => false
    case Some(Null) => false
    case Some(Bool(b)) => b
    case Some(Num(n)) => n != 0
    case Some(Str(s)) => s != ""
    case Some(_) => true
  }

  /** `v[key]` on a value that is neither `undefined` nor `null` (on those the
      access throws). Own properties of objects, and `length` of strings and
      arrays; numeric indexing and inherited properties are not modelled. */
  function Property(v: Field, key: string): (r: Field)
    requires v.Some? && !v.value.Null?
    ensures v.value.Obj? ==> (r.Some? <==> key in v.value.fields)
    ensures v.value.Obj? && key in v.value.fields ==> r == Some(v.value.fields[key])
    ensures (v.value.Arr? || v.value.Str?) && key != "length" ==> r.None?
    ensures v.value.Arr? && key == "length" ==> r == Some(Num(|v.value.items|))
    ensures v.value.Str? && key == "length" ==> r == Some(Num(|v.value.s|))
    ensures (v.value.Bool? || v.value.Num?) ==> r.None?
  {
    match v.value
    case Obj(fields) => if key in fields then Some(fields[key]) else None
    case Arr(items) => if key == "length" then Some(Num(|items|)) else None
    case Str(s) => if key == "length" then Some(Num(|s|)) else None
    case _ => None
  }

  /** `,`-joined strings, as `Array.prototype.join` produces them. */
  function JoinWithCommas(parts: seq<string>): string
  {
    if parts == [] then ""
    else if |parts| == 1 then parts[0]
    else parts[0] + "," + JoinWithCommas(parts[1..])
  }

  /** `${v}` for a JSON value whose conversion does not throw: array
      elements that are `null` render as the empty string and an object as
      `[object Object]`. An object with its own `toString` key, on which the
      conversion throws, and numbers in exponent notation are not modelled. */
  function ToJsString(v: Json): (r: string)
    ensures v.Null? ==> r == "null"
    ensures v.Bool? ==> r == if v.b then "true" else "false"
    ensures v.Str? ==> r == v.s
    ensures v.Num? && v.n >= 0 ==> r == Text.NatToDecimal(v.n)
    ensures v.Num? && v.n < 0 ==> r == "-" + Text.NatToDecimal(-v.n)
    ensures v.Obj? ==> r == "[object Object]"
    ensures v.Arr? && v.items == [] ==> r == ""
    decreases v
  {
    match v
    case Null => "null"
    case Bool(b) => if b then "true" else "false"
    case Num(n) => Text.IntToDecimal(n)
    case Str(s) => s
    case Arr(items) =>
      JoinWithCommas(seq(|items|, i requires 0 <= i < |items| =>
        if items[i].Null? then "" else ToJsString(items[i])))
    case Obj(_) => "[object Object]"
  }
}
