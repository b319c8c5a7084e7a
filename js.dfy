/**
 * The JavaScript values the plugin handles: JSON payloads decoded from the
 * device, and the few coercions of the language that the plugin relies on
 * (truthiness, `x || d`, template-string conversion, `Number(s)` inside
 * `==`, `>` and `>=`, and `parseInt`).
 *
 * Numbers are integers: the device's fields that the plugin inspects are
 * integral codes, and floating point is not modelled.
 */
module Js {

  datatype Option<+T> = None | Some(value: T)

  /** A call that returns a value or throws (a rejected promise, a failed
      request, a `TypeError`). */
  datatype Result<+T> = Ok(value: T) | Fail

  /** A decoded JSON value (the device never sends `undefined`; an absent
      property is `None` from `Field`). */
  datatype Json =
    | Null
    | Bool(b: bool)
    | Num(n: int)
    | Str(s: string)
    | Arr(elems: seq<Json>)
    | Obj(fields: map<string, Json>)

  /** JavaScript truthiness: `null`, `false`, `0` and `""` are falsy. */
  predicate Truthy(v: Json) {
    match v
    case Null => false
    case Bool(b) => b
    case Num(n) => n != 0
    case Str(s) => s != ""
    case Arr(_) => true
    case Obj(_) => true
  }

  /** Truthiness of a property that may be `undefined`. */
  predicate Present(o: Option<Json>) {
    o.Some? && Truthy(o.value)
  }

  /** Property access `v.k`; `None` stands for `undefined`. Only objects
      carry named properties here. */
  function Field(v: Json, k: string): Option<Json> {
    if v.Obj? && k in v.fields then Some(v.fields[k]) else None
  }

  /** A property of a plain object used as a dictionary; `None` when absent. */
  function Lookup(m: map<string, Json>, k: string): Option<Json> {
    if k in m then Some(m[k]) else None
  }

  /** Element access `v[i]`: an array's element, a string's character, or
      an object's property named by the decimal digits of `i`. */
  function Index(v: Json, i: nat): Option<Json> {
    match v
    case Arr(e) => if i < |e| then Some(e[i]) else None
    case Str(s) => if i < |s| then Some(Str([s[i]])) else None
    case Obj(f) => Lookup(f, IntToString(i))
    case _ => None
  }

  /** The idiom `x || d`: the value when it is present and truthy, else `d`. */
  function OrElse(o: Option<Json>, d: Json): (r: Json)
    ensures Present(o) ==> r == o.value
    ensures !Present(o) ==> r == d
  {
    if Present(o) then o.value else d
  }

  /** Template-string interpolation of a property that may be `undefined`. */
  function Interpolate(o: Option<Json>): string {
    if o.None? then "undefined" else ToString(o.value)
  }

  /** `v.k || d` */
  function FieldOr(v: Json, k: string, d: Json): Json {
    OrElse(Field(v, k), d)
  }

  /** `resp.k || resp`: unwrap an envelope such as `{ stats: {...} }`. */
  function Unwrap(resp: Json, k: string): Json {
    OrElse(Field(resp, k), resp)
  }

  /** `v.k ? yes : no` */
  function YesNo(v: Json, k: string): Json {
    if Present(Field(v, k)) then Str("Yes") else Str("No")
  }

  // ---------------------------------------------------------------------
  // Decimal text

  predicate IsDigit(c: char) {
    '0' <= c <= '9'
  }

  function DigitChar(d: nat): (c: char)
    requires d < 10
    ensures IsDigit(c) && c as int - '0' as int == d
  {
    (d + '0' as int) as char
  }

  /** Decimal digits of a natural number, without leading zeros. */
  function NatToString(n: nat): (s: string)
    ensures |s| > 0
    ensures forall i :: 0 <= i < |s| ==> IsDigit(s[i])
    decreases n
  {
    if n < 10 then [DigitChar(n)] else NatToString(n / 10) + [DigitChar(n % 10)]
  }

  /** `String(n)` for an integer. */
  function IntToString(n: int): string {
    if n < 0 then "-" + NatToString(-n) else NatToString(n)
  }

  /** The value of a non-empty string of decimal digits. */
  function DigitsValue(s: string): nat
    requires forall i :: 0 <= i < |s| ==> IsDigit(s[i])
    decreases |s|
  {
    if s == [] then 0
    else
      assert IsDigit(s[|s| - 1]);
      10 * DigitsValue(s[..|s| - 1]) + (s[|s| - 1] as int - '0' as int)
  }

  predicate AllDigits(s: string) {
    |s| > 0 && forall i :: 0 <= i < |s| ==> IsDigit(s[i])
  }

  /** Optional sign and at least one digit, nothing else. */
  function SignedDecimal(s: string): Option<int> {
    if AllDigits(s) then Some(DigitsValue(s) as int)
    else if |s| > 1 && s[0] == '-' && AllDigits(s[1..]) then Some(0 - DigitsValue(s[1..]))
    else if |s| > 1 && s[0] == '+' && AllDigits(s[1..]) then Some(DigitsValue(s[1..]) as int)
    else None
  }

  /** The white space and line terminators that `trim`, `Number` and
      `parseInt` skip: tab, line feed, vertical tab, form feed, carriage
      return, space, U+00A0, U+1680, U+2000-U+200A, U+2028, U+2029, U+202F,
      U+205F, U+3000 and U+FEFF. */
  predicate IsSpace(c: char) {
    || c == '\t' || c == '\n' || c == '\U{B}' || c == '\U{C}' || c == '\r' || c == ' '
    || c == '\U{A0}' || c == '\U{1680}' || ('\U{2000}' <= c <= '\U{200A}')
    || c == '\U{2028}' || c == '\U{2029}' || c == '\U{202F}' || c == '\U{205F}'
    || c == '\U{3000}' || c == '\U{FEFF}'
  }

  function TrimStart(s: string): (r: string)
    ensures |r| <= |s| && r == s[|s| - |r|..]
    ensures r != [] ==> !IsSpace(r[0])
    decreases |s|
  {
    if s != [] && IsSpace(s[0]) then TrimStart(s[1..]) else s
  }

  function TrimEnd(s: string): (r: string)
    ensures |r| <= |s| && r == s[..|r|]
    ensures r != [] ==> !IsSpace(r[|r| - 1])
    decreases |s|
  {
    if s != [] && IsSpace(s[|s| - 1]) then TrimEnd(s[..|s| - 1]) else s
  }

  /** `Number(s)`: surrounding white space is ignored, the empty string is 0,
      and a signed decimal integer is its value; everything else is `None`
      (NaN, or a number that is not an integer). */
  function StringToNumber(s: string): Option<int> {
    var t := TrimEnd(TrimStart(s));
    if t == "" then Some(0) else SignedDecimal(t)
  }

  /** The longest prefix of decimal digits. */
  function LeadingDigits(s: string): (r: string)
    ensures r <= s
    ensures forall i :: 0 <= i < |r| ==> IsDigit(r[i])
    ensures |r| < |s| ==> !IsDigit(s[|r|])
    decreases |s|
  {
    if s != [] && IsDigit(s[0]) then [s[0]] + LeadingDigits(s[1..]) else []
  }

  /** `parseInt(s)` in base 10: leading white space, an optional sign, then the
      longest run of digits; `None` (NaN) when there is no digit. */
  function ParseInt(s: string): Option<int> {
    ParseSigned(TrimStart(s))
  }

  /** `parseInt` after the white space: an optional sign, then digits. */
  function ParseSigned(t: string): Option<int> {
    if t != [] && t[0] == '-' then Negate(ParseDigits(t[1..]))
    else if t != [] && t[0] == '+' then Widen(ParseDigits(t[1..]))
    else Widen(ParseDigits(t))
  }

  /** The value of the leading run of digits, `None` when there is none. */
  function ParseDigits(body: string): Option<nat> {
    var d := LeadingDigits(body);
    if d == [] then None else Some(DigitsValue(d))
  }

  function Negate(o: Option<nat>): Option<int> {
    if o.Some? then Some(0 - o.value) else None
  }

  function Widen(o: Option<nat>): Option<int> {
    if o.Some? then Some(o.value as int) else None
  }

  /** `JSON.stringify` writes NaN as `null`. */
  function NumberOrNull(o: Option<int>): Json {
    if o.Some? then Num(o.value) else Null
  }

  // ---------------------------------------------------------------------
  // Coercions

  /** `String(v)` and template-string interpolation `${v}`. */
  function ToString(v: Json): string
    decreases v, 1
  {
    match v
    case Null => "null"
    case Bool(b) => if b then "true" else "false"
    case Num(n) => IntToString(n)
    case Str(s) => s
    case Arr(e) => JoinElements(e)
    case Obj(_) => "[object Object]"
  }

  /** `Array.prototype.join(",")`, where `null` elements print as "". */
  function JoinElements(e: seq<Json>): string
    decreases e, 0
  {
    if e == [] then ""
    else
      var first := if e[0].Null? then "" else ToString(e[0]);
      if |e| == 1 then first else first + "," + JoinElements(e[1..])
  }

  /** `Number(v)` as used by `>`, `>=` and `==`; `None` is NaN (or a value
      that is not an integer). `undefined` is written `None` in the argument. */
  function ToNumber(o: Option<Json>): Option<int> {
    if o.None? then None
    else match o.value
      case Null => Some(0)
      case Bool(b) => Some(if b then 1 else 0)
      case Num(n) => Some(n)
      case Str(s) => StringToNumber(s)
      case Arr(_) => StringToNumber(ToString(o.value))
      case Obj(_) => None
  }

  /** `v > 0` */
  predicate Positive(o: Option<Json>) {
    var n := ToNumber(o); n.Some? && n.value > 0
  }

  /** `v >= 0` */
  predicate NonNegative(o: Option<Json>) {
    var n := ToNumber(o); n.Some? && n.value >= 0
  }

  /** Loose equality `v == s` against a string `s`. */
  predicate LooseEqualsString(o: Option<Json>, s: string) {
    if o.None? then false
    else match o.value
      case Null => false
      case Bool(b) => StringToNumber(s) == Some(if b then 1 else 0)
      case Num(n) => StringToNumber(s) == Some(n)
      case Str(t) => t == s
      case Arr(_) => ToString(o.value) == s
      case Obj(_) => ToString(o.value) == s
  }

  predicate EndsWith(s: string, suffix: string) {
    |suffix| <= |s| && s[|s| - |suffix|..] == suffix
  }

  predicate StartsWith(s: string, prefix: string) {
    |prefix| <= |s| && s[..|prefix|] == prefix
  }

  // ---------------------------------------------------------------------
  // Lemmas

  lemma {:induction false} DigitsValueSnoc(s: string, c: char)
    requires forall i :: 0 <= i < |s| ==> IsDigit(s[i])
    requires IsDigit(c)
    ensures DigitsValue(s + [c]) == 10 * DigitsValue(s) + (c as int - '0' as int)
  {
    assert (s + [c])[..|s + [c]| - 1] == s;
  }

  /** Reading back the digits of `n` gives `n`. */
  lemma {:induction false} NatToStringRoundTrip(n: nat)
    ensures DigitsValue(NatToString(n)) == n
    decreases n
  {
    if n >= 10 {
      NatToStringRoundTrip(n / 10);
      DigitsValueSnoc(NatToString(n / 10), DigitChar(n % 10));
    }
  }

  /** Text that does not start with white space is its own `trimStart()`. */
  lemma TrimStartKeeps(s: string)
    requires s != [] && !IsSpace(s[0])
    ensures TrimStart(s) == s
  {
  }

  /** Text that does not end with white space is its own `trimEnd()`. */
  lemma TrimEndKeeps(s: string)
    requires s != [] && !IsSpace(s[|s| - 1])
    ensures TrimEnd(s) == s
  {
  }

  /** No white space in printed integers, so trimming leaves them alone. */
  lemma IntToStringTrimmed(n: int)
    ensures TrimStart(IntToString(n)) == IntToString(n)
    ensures TrimEnd(IntToString(n)) == IntToString(n)
  {
    var s := IntToString(n);
    var body := NatToString(if n < 0 then -n else n);
    assert IsDigit(body[0]) && IsDigit(body[|body| - 1]);
    if n < 0 {
      assert s == "-" + body;
      assert s[0] == '-';
      assert s[|s| - 1] == body[|body| - 1];
    } else {
      assert s == body;
    }
    TrimStartKeeps(s);
    TrimEndKeeps(s);
  }

  /** `Number(String(n)) == n` */
  lemma IntToStringNumber(n: int)
    ensures StringToNumber(IntToString(n)) == Some(n)
  {
    IntToStringTrimmed(n);
    var s := IntToString(n);
    if n < 0 {
      NatToStringRoundTrip(-n);
      assert s[1..] == NatToString(-n);
      assert !AllDigits(s);
    } else {
      NatToStringRoundTrip(n);
    }
  }

  /** The leading digits of a run of digits are all of it. */
  lemma {:induction false} ParseDigitsAll(s: string)
    requires AllDigits(s)
    ensures ParseDigits(s) == Some(DigitsValue(s))
  {
    LeadingDigitsAll(s);
  }

  /** `parseInt` of a run of digits is its value. */
  lemma {:induction false} ParseIntDigits(s: string)
    requires AllDigits(s)
    ensures ParseInt(s) == Some(DigitsValue(s) as int)
  {
    assert IsDigit(s[0]);
    TrimStartKeeps(s);
    assert ParseInt(s) == ParseSigned(s);
    assert ParseSigned(s) == Widen(ParseDigits(s));
    ParseDigitsAll(s);
  }

  /** `parseInt` of a minus sign and a run of digits is the negated value. */
  lemma {:induction false} ParseIntNegated(s: string)
    requires AllDigits(s)
    ensures ParseInt("-" + s) == Some(0 - DigitsValue(s))
  {
    var t := "-" + s;
    assert t[0] == '-' && t[1..] == s;
    TrimStartKeeps(t);
    assert ParseInt(t) == ParseSigned(t);
    assert ParseSigned(t) == Negate(ParseDigits(s));
    ParseDigitsAll(s);
  }

  /** A sign for negative values, then the digits of the magnitude. */
  lemma {:induction false} SignedDigitsParse(n: int, body: string)
    requires AllDigits(body) && DigitsValue(body) == (if n < 0 then -n else n)
    ensures ParseInt(if n < 0 then "-" + body else body) == Some(n)
  {
    if n < 0 {
      ParseIntNegated(body);
    } else {
      ParseIntDigits(body);
    }
  }

  /** `parseInt(String(n)) == n` */
  lemma {:induction false} IntToStringParseInt(n: int)
    ensures ParseInt(IntToString(n)) == Some(n)
  {
    var m: nat := if n < 0 then -n else n;
    var body := NatToString(m);
    NatToStringRoundTrip(m);
    assert IntToString(n) == if n < 0 then "-" + body else body;
    SignedDigitsParse(n, body);
  }

  lemma {:induction false} LeadingDigitsAll(s: string)
    requires forall i :: 0 <= i < |s| ==> IsDigit(s[i])
    ensures LeadingDigits(s) == s
    decreases |s|
  {
    if s != [] {
      LeadingDigitsAll(s[1..]);
    }
  }

  /** Distinct integers print differently. */
  lemma IntToStringInjective(m: int, n: int)
    requires IntToString(m) == IntToString(n)
    ensures m == n
  {
    IntToStringNumber(m);
    IntToStringNumber(n);
  }
}
