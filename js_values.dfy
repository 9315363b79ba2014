/** JavaScript values as the client receives them from JSON and from its own state, and the
    operators the client applies to them: truthiness, `||` chains, `??`, optional chaining
    and the `String(...)` conversion. Numbers are integers only. */
module JsValues {

  datatype Js =
    | Undef
    | Null
    | Bool(b: bool)
    | Num(n: int)
    | Str(s: string)
    | Arr(items: seq<Js>)
    | Obj(fields: map<string, Js>)

  /** A value that may be `null` or absent. */
  datatype Option<T> = None | Some(value: T)

  /** The outcome of a JavaScript call that may throw an `Error` carrying a message. */
  datatype Throws<T> = Returned(value: T) | Threw(message: string)

  /** JavaScript truthiness: `!!v`. */
  predicate Truthy(v: Js) {
    match v
    case Undef => false
    case Null => false
    case Bool(b) => b
    case Num(n) => n != 0
    case Str(s) => s != ""
    case Arr(_) => true
    case Obj(_) => true
  }

  /** `null` or `undefined`, the two values `??` and `?.` react to. */
  predicate IsNullish(v: Js) {
    v.Undef? || v.Null?
  }

  /** `a ?? b` */
  function Coalesce(a: Js, b: Js): Js {
    if IsNullish(a) then b else a
  }

  /** `v?.[key]`: the property of an object, `undefined` for anything else or a missing key. */
  function Get(v: Js, key: string): Js {
    if v.Obj? && key in v.fields then v.fields[key] else Undef
  }

  /** `Array.isArray(v) ? v : [v]` */
  function AsArray(v: Js): (r: seq<Js>)
    ensures v.Arr? ==> r == v.items
    ensures !v.Arr? ==> r == [v]
  {
    if v.Arr? then v.items else [v]
  }

  /** `Array.isArray(v) ? v : []`, for a payload read as a list (`None` when it is not an
      array). */
  function ArrayOrEmpty<T>(v: Option<seq<T>>): (r: seq<T>)
    ensures v.Some? ==> r == v.value
    ensures v.None? ==> r == []
  {
    if v.Some? then v.value else []
  }

  /** `a || b`: the left operand when it is truthy, otherwise the right one. */
  function Or(a: Js, b: Js): (r: Js)
    ensures Truthy(r) <==> Truthy(a) || Truthy(b)
    ensures r == a || r == b
    ensures !Truthy(a) ==> r == b
  {
    if Truthy(a) then a else b
  }

  // ----- String(v) -----

  function DigitChar(d: int): char
    requires 0 <= d < 10
  {
    "0123456789"[d]
  }

  function DigitValue(c: char): int {
    if '0' <= c <= '9' then c as int - '0' as int else 0
  }

  /** Decimal digits of a natural number, most significant first, without leading zeros. */
  function NatToDecimal(n: nat): (r: string)
    ensures |r| > 0
    ensures forall i :: 0 <= i < |r| ==> '0' <= r[i] <= '9'
    ensures |r| > 1 ==> r[0] != '0'
  {
    if n < 10 then [DigitChar(n)] else NatToDecimal(n / 10) + [DigitChar(n % 10)]
  }

  /** `String(n)` for an integer. */
  function IntToDecimal(n: int): string {
    if n < 0 then "-" + NatToDecimal(-n) else NatToDecimal(n)
  }

  /** Reads a string of decimal digits back as a number. */
  function ParseDecimal(s: string): nat {
    if |s| == 0 then 0 else ParseDecimal(s[..|s| - 1]) * 10 + (if '0' <= s[|s| - 1] <= '9' then DigitValue(s[|s| - 1]) else 0)
  }

  function ParseInt(s: string): int {
    if |s| > 0 && s[0] == '-' then 0 - ParseDecimal(s[1..]) as int else ParseDecimal(s) as int
  }

  lemma {:induction false} NatToDecimalRoundTrip(n: nat)
    ensures ParseDecimal(NatToDecimal(n)) == n
  {
    if n >= 10 {
      NatToDecimalRoundTrip(n / 10);
      var s := NatToDecimal(n);
      assert s[..|s| - 1] == NatToDecimal(n / 10);
    }
  }

  /** `String(n)` loses nothing: it parses back to `n`. */
  lemma {:induction false} IntToDecimalRoundTrip(n: int)
    ensures ParseInt(IntToDecimal(n)) == n
  {
    if n < 0 {
      var digits := NatToDecimal(-n);
      NatToDecimalRoundTrip(-n);
      var printed := "-" + digits;
      assert printed[0] == '-' && printed[1..] == digits;
      assert ParseInt(printed) == 0 - ParseDecimal(digits) as int;
    } else {
      var digits := NatToDecimal(n);
      NatToDecimalRoundTrip(n);
      assert digits[0] != '-';
      assert ParseInt(digits) == ParseDecimal(digits) as int;
    }
  }

  /** Two numbers print the same only when they are equal. */
  lemma IntToDecimalInjective(m: int, n: int)
    requires IntToDecimal(m) == IntToDecimal(n)
    ensures m == n
  {
    IntToDecimalRoundTrip(m);
    IntToDecimalRoundTrip(n);
  }

  /** `String(v)` */
  function ToStr(v: Js): string
    decreases v, 1, 0
  {
    match v
    case Undef => "undefined"
    case Null => "null"
    case Bool(b) => if b then "true" else "false"
    case Num(n) => IntToDecimal(n)
    case Str(s) => s
    case Arr(items) => JoinFrom(v, items, 0)
    case Obj(_) => "[object Object]"
  }

  /** `items.slice(i).join(",")`, where `null` and `undefined` elements print as "". */
  function JoinFrom(whole: Js, items: seq<Js>, i: nat): string
    requires whole == Arr(items) && i <= |items|
    decreases whole, 0, |items| - i
  {
    if i == |items| then ""
    else
      var head := if IsNullish(items[i]) then "" else ToStr(items[i]);
      if i + 1 == |items| then head else head + "," + JoinFrom(whole, items, i + 1)
  }
}
