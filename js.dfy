/**
 * The slice of JavaScript semantics the handlers depend on: the values that arrive in
 * request bodies and socket payloads, truthiness, property reads, the `\s` character class
 * and the `Number(...)` conversion.
 */
module Js {
  import opened Wrappers

  /**
   * A JavaScript value as the handlers see it: JSON data, plus NaN (which `typeof`
   * calls a number) and Date objects. Infinity and negative zero are not represented.
   */
  datatype JsValue =
    | Undefined
    | Null
    | Bool(b: bool)
    | Num(n: real)
    | NaN
    | Str(s: string)
    | Date(time: int)
    | Arr(elems: seq<JsValue>)
    | Obj(fields: map<string, JsValue>)

  /** The value `if (v)` tests (ToBoolean). */
  predicate Truthy(v: JsValue) {
    match v
    case Undefined => false
    case Null => false
    case NaN => false
    case Bool(b) => b
    case Num(n) => n != 0.0
    case Str(s) => s != ""
    case Date(_) => true
    case Arr(_) => true
    case Obj(_) => true
  }

  /** null or undefined: the two values whose properties cannot be read. */
  predicate Nullish(v: JsValue) {
    v.Undefined? || v.Null?
  }

  /** `typeof v === "number"` */
  predicate IsNumber(v: JsValue) {
    v.Num? || v.NaN?
  }

  /** `Math.abs(v) <= bound` for a value that `typeof` calls a number; false for NaN. */
  predicate AbsAtMost(v: JsValue, bound: real) {
    v.Num? && -bound <= v.n <= bound
  }

  /** What a thrown exception carries. */
  datatype Thrown =
    | TypeErr(base: JsValue, property: string)  // reading `property` of null or undefined
    | DestructureErr(base: JsValue, property: string, source: string)
                                                // `const { property } = source` on null or undefined
    | RefErr(name: string)                      // evaluating an identifier that is not declared
    | NotAFunction(callee: string)              // calling a property that holds no function
    | Error(message: string)                    // `throw new Error(message)`

  /**
   * `v.key` for a `v` that is not null or undefined: an own field of an object, and
   * undefined for every other value. The built-in properties of strings, arrays and numbers
   * (`length` and the like) are not looked up here; where the code uses one it is written out.
   */
  function Field(v: JsValue, key: string): JsValue {
    if v.Obj? && key in v.fields then v.fields[key] else Undefined
  }

  /**
   * The fields `{...v}` copies: an object's own fields. Other values contribute none here
   * (a string's characters, which spread as indexed fields, are not modelled).
   */
  function Spread(v: JsValue): map<string, JsValue> {
    if v.Obj? then v.fields else map[]
  }

  /** `v.key` with JavaScript's TypeError when `v` is null or undefined. */
  function Get(v: JsValue, key: string): (r: Result<JsValue, Thrown>)
    ensures r.Err? <==> Nullish(v)
    ensures r.Ok? ==> r.value == Field(v, key)
    ensures r.Err? ==> r.error == TypeErr(v, key)
  {
    if Nullish(v) then Err(TypeErr(v, key)) else Ok(Field(v, key))
  }

  /** `a === b` on primitive values; two objects or arrays are compared by content here. */
  predicate StrictEquals(a: JsValue, b: JsValue) {
    !a.NaN? && a == b
  }

  /** The message a thrown value carries, in V8's wording for the two built-in errors. */
  function Message(t: Thrown): string {
    match t
    case TypeErr(base, property) =>
      "Cannot read properties of " + (if base.Null? then "null" else "undefined") + " (reading '" + property + "')"
    case DestructureErr(base, property, source) =>
      "Cannot destructure property '" + property + "' of '" + source + "' as it is "
      + (if base.Null? then "null" else "undefined") + "."
    case RefErr(name) => name + " is not defined"
    case NotAFunction(callee) => callee + " is not a function"
    case Error(message) => message
  }

  /** The index of the first `c` in `s`, or `|s|` when there is none. */
  function FirstIndex(s: string, c: char): (k: nat)
    ensures k <= |s|
    ensures k < |s| ==> s[k] == c
    ensures forall i :: 0 <= i < k ==> s[i] != c
  {
    if s == [] || s[0] == c then 0 else 1 + FirstIndex(s[1..], c)
  }

  /** A position holding `c` with no `c` before it is the first index. */
  lemma {:induction false} FirstIndexIs(s: string, c: char, k: nat)
    requires k <= |s| && (k < |s| ==> s[k] == c)
    requires forall i :: 0 <= i < k ==> s[i] != c
    ensures FirstIndex(s, c) == k
  {
    if k > 0 {
      FirstIndexIs(s[1..], c, k - 1);
    }
  }

  /** `s.split(sep)` for a one-character separator: the pieces between separators, in order. */
  function Split(s: string, sep: char): (r: seq<string>)
    ensures |r| >= 1
    decreases |s|
  {
    var k := FirstIndex(s, sep);
    if k == |s| then [s] else [s[..k]] + Split(s[k + 1..], sep)
  }

  /** The `\d` class: an ASCII digit. */
  predicate IsDigit(c: char) {
    '0' <= c <= '9'
  }

  predicate AllDigits(s: string) {
    forall i :: 0 <= i < |s| ==> IsDigit(s[i])
  }

  /**
   * The `\s` class of JavaScript regular expressions: white space and line terminators.
   * It is also the set of characters `Number(...)` trims from both ends of a string.
   */
  predicate IsSpace(c: char) {
    c == '\t' || c == '\n' || c == '\U{B}' || c == '\U{C}' || c == '\r' || c == ' '
    || c == '\U{A0}' || c == '\U{1680}' || ('\U{2000}' <= c <= '\U{200A}')
    || c == '\U{2028}' || c == '\U{2029}' || c == '\U{202F}' || c == '\U{205F}'
    || c == '\U{3000}' || c == '\U{FEFF}'
  }

  /** Length of the longest prefix of `s` made of digits. */
  function DigitRun(s: string): (k: nat)
    ensures k <= |s|
    ensures AllDigits(s[..k])
    ensures k < |s| ==> !IsDigit(s[k])
  {
    if s == [] || !IsDigit(s[0]) then 0
    else
      var k := 1 + DigitRun(s[1..]);
      assert s[..k] == [s[0]] + s[1..][..k - 1];
      k
  }

  /** A digit prefix that is followed by a non-digit (or the end) is the longest one. */
  lemma {:induction false} DigitRunIs(s: string, k: nat)
    requires k <= |s| && AllDigits(s[..k])
    requires k < |s| ==> !IsDigit(s[k])
    ensures DigitRun(s) == k
  {
    if k > 0 {
      assert s[1..][..k - 1] == s[1..k];
      DigitRunIs(s[1..], k - 1);
    }
  }

  /** Length of the longest prefix of `s` made of `\s` characters. */
  function SpaceRun(s: string): (k: nat)
    ensures k <= |s|
    ensures forall i :: 0 <= i < k ==> IsSpace(s[i])
    ensures k < |s| ==> !IsSpace(s[k])
  {
    if s == [] || !IsSpace(s[0]) then 0 else 1 + SpaceRun(s[1..])
  }

  /** A space prefix that is followed by a non-space (or the end) is the longest one. */
  lemma {:induction false} SpaceRunIs(s: string, k: nat)
    requires k <= |s| && forall i :: 0 <= i < k ==> IsSpace(s[i])
    requires k < |s| ==> !IsSpace(s[k])
    ensures SpaceRun(s) == k
  {
    if k > 0 {
      SpaceRunIs(s[1..], k - 1);
    }
  }

  /** `s` without the `\s` characters at its end. */
  function TrimEnd(s: string): (r: string)
    ensures |r| <= |s| && r == s[..|r|]
    ensures r != [] ==> !IsSpace(r[|r| - 1])
  {
    if s == [] || !IsSpace(s[|s| - 1]) then s else TrimEnd(s[..|s| - 1])
  }

  /** `String.prototype.trim`. */
  function Trim(s: string): string {
    TrimEnd(s[SpaceRun(s)..])
  }

  function DigitValue(c: char): nat
    requires IsDigit(c)
  {
    (c as int - '0' as int) as nat
  }

  /** The value of a string of decimal digits (0 for the empty string). */
  function IntegerValue(d: string): nat
    requires AllDigits(d)
  {
    if d == [] then 0 else 10 * IntegerValue(d[..|d| - 1]) + DigitValue(d[|d| - 1])
  }

  /** The value of the digits after a decimal point. */
  function FractionValue(d: string): real
    requires AllDigits(d)
  {
    if d == [] then 0.0 else (DigitValue(d[0]) as real + FractionValue(d[1..])) / 10.0
  }

  /** A fraction is at least 0 and less than 1. */
  lemma {:induction false} FractionBounds(d: string)
    requires AllDigits(d)
    ensures 0.0 <= FractionValue(d) < 1.0
  {
    if d != [] {
      FractionBounds(d[1..]);
    }
  }

  /** A fraction of zeros only is 0. */
  lemma {:induction false} FractionOfZeros(d: string)
    requires forall i :: 0 <= i < |d| ==> d[i] == '0'
    ensures AllDigits(d) && FractionValue(d) == 0.0
  {
    if d != [] {
      FractionOfZeros(d[1..]);
    }
  }

  /** 1 for a leading `+` or `-`, 0 otherwise. */
  function SignLength(t: string): (k: nat)
    ensures k <= |t|
  {
    if |t| > 0 && (t[0] == '-' || t[0] == '+') then 1 else 0
  }

  /** Digits, a point with optional digits after it, or a point followed by digits. */
  predicate UnsignedDecimal(t: string) {
    var k := DigitRun(t);
    (k == |t| && k > 0)
    || (k < |t| && t[k] == '.' && AllDigits(t[k + 1..]) && (k > 0 || k + 1 < |t|))
  }

  function UnsignedValue(t: string): real
    requires UnsignedDecimal(t)
  {
    var k := DigitRun(t);
    IntegerValue(t[..k]) as real + (if k == |t| then 0.0 else FractionValue(t[k + 1..]))
  }

  /** A decimal literal without exponent, optionally signed. */
  predicate DecimalText(t: string) {
    UnsignedDecimal(t[SignLength(t)..])
  }

  function DecimalValue(t: string): real
    requires DecimalText(t)
  {
    var v := UnsignedValue(t[SignLength(t)..]);
    if |t| > 0 && t[0] == '-' then -v else v
  }

  /**
   * `Number(s)` for a string: surrounding white space is trimmed, the empty string is 0 and a
   * decimal literal has its exact value. Exponents, `0x`/`0o`/`0b` prefixes and `Infinity` are
   * not recognised (they read as NaN here), and binary rounding is not modelled.
   */
  function StringToNumber(s: string): JsValue {
    var t := Trim(s);
    if t == "" then Num(0.0)
    else if DecimalText(t) then Num(DecimalValue(t))
    else NaN
  }

  /**
   * `Number(v)`. An array converts through its string form, which for one element is that
   * element's string form and for two or more holds a comma, so it is never numeric.
   */
  function ToNumber(v: JsValue): JsValue {
    match v
    case Undefined => NaN
    case Null => Num(0.0)
    case Bool(b) => Num(if b then 1.0 else 0.0)
    case Num(n) => v
    case NaN => NaN
    case Str(s) => StringToNumber(s)
    case Date(t) => Num(t as real)
    case Obj(_) => NaN
    case Arr(e) =>
      if |e| == 0 then Num(0.0)
      else if |e| > 1 then NaN
      else match e[0]
        case Undefined => Num(0.0)
        case Null => Num(0.0)
        case Num(n) => e[0]
        case NaN => NaN
        case Str(s) => StringToNumber(s)
        case Arr(_) => ToNumber(e[0])
        case Bool(_) => NaN
        case Date(_) => NaN
        case Obj(_) => NaN
  }

  /** `Number` always returns a number (possibly NaN). */
  lemma {:induction false} ToNumberIsNumber(v: JsValue)
    ensures IsNumber(ToNumber(v))
  {
    if v.Arr? && |v.elems| == 1 && v.elems[0].Arr? {
      ToNumberIsNumber(v.elems[0]);
    }
  }
}
