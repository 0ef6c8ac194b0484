/** The JavaScript values that reach the parameter parser, and the parts of the
    JavaScript runtime that the parser relies on. */
module JsValues {
  import opened Errors

  /** A JavaScript number (an IEEE-754 double): its mathematical value when it is
      finite, or one of the three non-finite numbers. Rounding to doubles is not
      modelled. */
  datatype Num = Finite(r: real) | NaN | PositiveInfinity | NegativeInfinity

  /** The global `isFinite` applied to a number: false for NaN and for both
      infinities, true for every other number. */
  predicate IsFinite(n: Num)
    ensures IsFinite(n) <==> n != NaN && n != PositiveInfinity && n != NegativeInfinity
  {
    n.Finite?
  }

  /** ToIntegerOrInfinity on a finite number: the integer part, rounding
      toward zero. */
  function Truncate(x: real): (i: int)
    ensures x >= 0.0 ==> i as real <= x < i as real + 1.0
    ensures x < 0.0 ==> i as real - 1.0 < x <= i as real
  {
    if x >= 0.0 then x.Floor else -((-x).Floor)
  }

  /** The largest distance from the epoch, in milliseconds, that a `Date` can
      hold. */
  const MAX_TIME_VALUE: real := 8640000000000000.0

  /** TimeClip, which `new Date(x)` applies to a number: NaN for a non-finite
      time or one beyond the range, and otherwise the time rounded toward
      zero. */
  function TimeClip(t: Num): (r: Num)
    ensures IsFinite(r) <==> IsFinite(t) && -MAX_TIME_VALUE <= t.r <= MAX_TIME_VALUE
    ensures IsFinite(r) ==> r.r == Truncate(t.r) as real && -MAX_TIME_VALUE <= r.r <= MAX_TIME_VALUE
  {
    if IsFinite(t) && -MAX_TIME_VALUE <= t.r <= MAX_TIME_VALUE then Finite(Truncate(t.r) as real) else NaN
  }

  /** What `typeof` reports for a value that is none of the kinds the parser
      switches on. */
  datatype OtherKind = ObjectKind | FunctionKind | SymbolKind | BigIntKind

  /** A JavaScript value. A `DateObject` is a `Date` instance, given by its time
      value (milliseconds since the epoch, NaN for an invalid date). `Other` is
      any other value (arrays, plain objects, functions, symbols, big integers),
      told apart by an identity. */
  datatype JsValue =
    | Undefined
    | Null
    | Bool(b: bool)
    | Number(n: Num)
    | Str(s: string)
    | DateObject(time: Num)
    | Other(kind: OtherKind, id: nat)

  /** The `typeof` operator. */
  function TypeOf(v: JsValue): (t: string)
    ensures t == "string" <==> v.Str?
    ensures t == "number" <==> v.Number?
    ensures t == "boolean" <==> v.Bool?
    ensures t == "undefined" <==> v.Undefined?
    ensures t == "object" <==> v.Null? || v.DateObject? || (v.Other? && v.kind == ObjectKind)
    ensures t == "function" <==> v.Other? && v.kind == FunctionKind
    ensures t == "symbol" <==> IsSymbol(v)
    ensures t == "bigint" <==> IsBigInt(v)
  {
    match v
    case Undefined => "undefined"
    case Null => "object"
    case Bool(_) => "boolean"
    case Number(_) => "number"
    case Str(_) => "string"
    case DateObject(_) => "object"
    case Other(kind, _) =>
      match kind
      case ObjectKind => "object"
      case FunctionKind => "function"
      case SymbolKind => "symbol"
      case BigIntKind => "bigint"
  }

  /** A symbol: `Number(v)` and `${v}` throw a `TypeError` on it. */
  predicate IsSymbol(v: JsValue) {
    v.Other? && v.kind == SymbolKind
  }

  /** A big integer: `new Date(v)` throws a `TypeError` on it, since its
      primitive value is not a string and cannot be converted to a number. */
  predicate IsBigInt(v: JsValue) {
    v.Other? && v.kind == BigIntKind
  }

  /** The behaviour of the JavaScript runtime that the parser takes as given:
      the grammar of `Number(s)`, the date-string formats `new Date(s)`
      accepts, the conversion of objects and big integers, and the text a
      template string produces for numbers, dates and such values. */
  datatype Host = Host(
    stringToNumber: string -> Num,
    otherToNumber: JsValue -> Num,
    dateOfString: string -> Num,
    dateOfOther: JsValue -> Num,
    numberText: Num -> string,
    dateText: Num -> string,
    otherText: JsValue -> string
  )

  /** `Number(v)`: the ToNumber conversion, which throws on a symbol. A `Date`
      converts to its time value, `null` to zero and a boolean to zero or one. */
  function ToNumber(host: Host, v: JsValue): (r: Result<Num>)
    ensures r.Err? <==> IsSymbol(v)
    ensures r.Err? ==> r.error == TypeError
    ensures v.Null? ==> r == Ok(Finite(0.0))
    ensures v.Bool? ==> r == Ok(Finite(if v.b then 1.0 else 0.0))
    ensures v.Number? ==> r == Ok(v.n)
    ensures v.DateObject? ==> r == Ok(v.time)
  {
    match v
    case Undefined => Ok(NaN)
    case Null => Ok(Finite(0.0))
    case Bool(b) => Ok(Finite(if b then 1.0 else 0.0))
    case Number(n) => Ok(n)
    case Str(s) => Ok(host.stringToNumber(s))
    case DateObject(t) => Ok(t)
    case Other(kind, _) => if kind == SymbolKind then Err(TypeError) else Ok(host.otherToNumber(v))
  }

  /** The time value of `new Date(v)`: a `Date` is copied, a string is parsed,
      an object is converted, and any other primitive is first converted to a
      number, which throws on a symbol or a big integer, and then clipped. */
  function DateTime(host: Host, v: JsValue): (r: Result<Num>)
    ensures r.Err? <==> IsSymbol(v) || IsBigInt(v)
    ensures r.Err? ==> r.error == TypeError
    ensures v.DateObject? ==> r == Ok(v.time)
    ensures v.Str? ==> r == Ok(host.dateOfString(v.s))
    ensures v.Number? ==> r == Ok(TimeClip(v.n))
  {
    match v
    case DateObject(t) => Ok(t)
    case Str(s) => Ok(host.dateOfString(s))
    case Other(kind, _) =>
      if kind == SymbolKind || kind == BigIntKind then Err(TypeError) else Ok(host.dateOfOther(v))
    case _ => Ok(TimeClip(ToNumber(host, v).value))
  }

  /** The text that `${v}` produces inside a template string, which throws on
      a symbol. A string is its own text. */
  function Display(host: Host, v: JsValue): (r: Result<string>)
    ensures r.Err? <==> IsSymbol(v)
    ensures r.Err? ==> r.error == TypeError
    ensures v.Str? ==> r == Ok(v.s)
  {
    match v
    case Undefined => Ok("undefined")
    case Null => Ok("null")
    case Bool(b) => Ok(if b then "true" else "false")
    case Number(n) => Ok(host.numberText(n))
    case Str(s) => Ok(s)
    case DateObject(t) => Ok(host.dateText(t))
    case Other(kind, _) => if kind == SymbolKind then Err(TypeError) else Ok(host.otherText(v))
  }

  /** The lower-case mapping of one letter of the ASCII alphabet. */
  function LowerChar(c: char): char {
    if 'A' <= c <= 'Z' then (c as int + 32) as char else c
  }

  /** The upper-case mapping of one letter of the ASCII alphabet. */
  function UpperChar(c: char): char {
    if 'a' <= c <= 'z' then (c as int - 32) as char else c
  }

  /** `String.prototype.toLowerCase`, on the ASCII letters. */
  function ToLower(s: string): (r: string)
    ensures |r| == |s|
    ensures forall i :: 0 <= i < |s| ==> r[i] == LowerChar(s[i])
  {
    if s == [] then [] else [LowerChar(s[0])] + ToLower(s[1..])
  }

  /** A word made only of the lower-case letters a to z. */
  predicate IsLowerWord(word: string) {
    forall i :: 0 <= i < |word| ==> 'a' <= word[i] <= 'z'
  }

  /** `s` spells `word` with every letter in either case. */
  predicate SpelledIgnoringCase(s: string, word: string) {
    |s| == |word| && forall i :: 0 <= i < |s| ==> s[i] == word[i] || s[i] == UpperChar(word[i])
  }

  /** Lower-casing a string gives a lower-case word exactly when the string
      spells that word in any mix of cases. */
  lemma LowerIsWordIff(s: string, word: string)
    requires IsLowerWord(word)
    ensures ToLower(s) == word <==> SpelledIgnoringCase(s, word)
  {
  }
}
