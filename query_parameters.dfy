/** The states of the coercion chain: a raw value not yet given a type, an
    absent parameter, a present value that can still be re-coerced
    (`QueryParameter`), and a typed value that cannot (`TypedQueryParameter`). */
module QueryParameters {
  import opened JsValues
  import opened Errors

  /** A value other than `undefined`: every present state holds one, since
      absence is a state of its own. */
  type Defined = v: JsValue | !v.Undefined? witness Null

  const UNDEFINED_VALUE := "Value cannot be undefined"
  const REQUIRED_MISSING := "Required parameter is missing"

  /** `s` is the string `"true"` or `"false"` in any mix of cases. */
  predicate IsBooleanToken(s: string) {
    SpelledIgnoringCase(s, "true") || SpelledIgnoringCase(s, "false")
  }

  // ---------------------------------------------------------------------------
  // The raw state

  /** `RawQueryParameter`: a value that was found, before any type is asserted. */
  datatype RawQueryParameter = RawQueryParameter(name: string, value: Defined) {

    /** `asNumber`: a number passes through, finite or not; a string must
        convert to a finite number; every other kind is refused. */
    function AsNumber(host: Host): (r: Result<TypedQueryParameter>)
      ensures r.Ok? ==> r.value.name == name && r.value.value.Number?
      ensures r.Err? ==> r.error.ParserError?
      ensures value.Number? ==> r == Ok(TypedQueryParameter(name, value))
      ensures value.Str? ==> (r.Ok? <==> IsFinite(host.stringToNumber(value.s)))
      ensures value.Str? && r.Ok? ==> r.value.value == Number(host.stringToNumber(value.s))
      ensures value.Str? && r.Err? ==>
                r.error == MakeError(name, "Cannot parse string " + value.s + " as number")
      ensures !value.Number? && !value.Str? ==>
                r == Err(MakeError(name, "Cannot parse value of type " + TypeOf(value) + " as number"))
    {
      match value
      case Number(_) => CreateTyped(value)
      case Str(s) =>
        var n := host.stringToNumber(s);
        if IsFinite(n) then CreateTyped(Number(n))
        else Err(MakeError(name, "Cannot parse string " + s + " as number"))
      case _ => Err(MakeError(name, "Cannot parse value of type " + TypeOf(value) + " as number"))
    }

    /** `asDate`: a number or a string succeeds when `new Date` of it is a valid
        date; every other kind is refused. */
    function AsDate(host: Host): (r: Result<TypedQueryParameter>)
      ensures r.Ok? ==> r.value.name == name && r.value.value.DateObject?
      ensures r.Err? ==> r.error.ParserError?
      ensures (value.Number? || value.Str?) ==> (r.Ok? <==> IsFinite(DateTime(host, value).value))
      ensures (value.Number? || value.Str?) && r.Ok? ==> r.value.value == DateObject(DateTime(host, value).value)
      ensures (value.Number? || value.Str?) && r.Err? ==>
                r.error == MakeError(name, "Cannot parse value " + Display(host, value).value + " as Date")
      ensures !value.Number? && !value.Str? ==>
                r == Err(MakeError(name, "Cannot parse value of type " + TypeOf(value) + " as Date"))
    {
      match value
      case Number(_) | Str(_) =>
        var t := DateTime(host, value).value;
        if IsFinite(t) then CreateTyped(DateObject(t))
        else Err(MakeError(name, "Cannot parse value " + Display(host, value).value + " as Date"))
      case _ => Err(MakeError(name, "Cannot parse value of type " + TypeOf(value) + " as Date"))
    }

    /** `asString`: succeeds exactly on a string, which is kept as it is. */
    function AsString(): (r: Result<TypedQueryParameter>)
      ensures r.Ok? <==> value.Str?
      ensures r.Ok? ==> r.value == TypedQueryParameter(name, value)
      ensures r.Err? ==>
                r.error == MakeError(name, "Cannot parse value of type " + TypeOf(value) + " as string")
    {
      match value
      case Str(_) => CreateTyped(value)
      case _ => Err(MakeError(name, "Cannot parse value of type " + TypeOf(value) + " as string"))
    }

    /** `asBoolean`: a boolean passes through; a string is lower-cased and must
        then be `"true"` or `"false"`; every other kind is refused. The message
        for a refused string quotes its lower-cased form. */
    function AsBoolean(): (r: Result<TypedQueryParameter>)
      ensures r.Ok? ==> r.value.name == name && r.value.value.Bool?
      ensures r.Err? ==> r.error.ParserError?
      ensures value.Bool? ==> r == Ok(TypedQueryParameter(name, value))
      ensures value.Str? ==> (r.Ok? <==> ToLower(value.s) in {"true", "false"})
      ensures value.Str? && r.Ok? ==> r.value.value == Bool(ToLower(value.s) == "true")
      ensures value.Str? && r.Err? ==>
                r.error == MakeError(name, "Cannot parse string " + ToLower(value.s) + " as boolean")
      ensures !value.Bool? && !value.Str? ==>
                r == Err(MakeError(name, "Cannot parse value of type " + TypeOf(value) + " as boolean"))
    {
      match value
      case Bool(_) => CreateTyped(value)
      case Str(s) =>
        var lower := ToLower(s);
        if lower == "true" then CreateTyped(Bool(true))
        else if lower == "false" then CreateTyped(Bool(false))
        else Err(MakeError(name, "Cannot parse string " + lower + " as boolean"))
      case _ => Err(MakeError(name, "Cannot parse value of type " + TypeOf(value) + " as boolean"))
    }

    /** `createTypedQueryParameter`: the typed state under the same name, built
        by the `TypedQueryParameter` constructor. */
    function CreateTyped(v: JsValue): (r: Result<TypedQueryParameter>)
      ensures r.Ok? <==> !v.Undefined?
      ensures r.Ok? ==> r.value.name == name && r.value.GetValue() == v
      ensures r.Err? ==> r.error == PlainError(UNDEFINED_VALUE)
    {
      NewTypedQueryParameter(name, v)
    }
  }

  /** The `RawQueryParameter` constructor, which throws a plain `Error` on
      `undefined`. */
  function NewRawQueryParameter(name: string, value: JsValue): (r: Result<RawQueryParameter>)
    ensures r.Ok? <==> !value.Undefined?
    ensures r.Ok? ==> r.value.name == name && r.value.value == value
    ensures r.Err? ==> r.error == PlainError(UNDEFINED_VALUE)
  {
    if value.Undefined? then Err(PlainError(UNDEFINED_VALUE)) else Ok(RawQueryParameter(name, value))
  }

  // ---------------------------------------------------------------------------
  // The typed state reached from a raw value

  /** `TypedQueryParameter`: a typed value that admits presence policy, a
      predicate and extraction, but no further coercion. */
  datatype TypedQueryParameter = TypedQueryParameter(name: string, value: Defined) {

    /** `optional`: the value is already there, so the receiver is returned. */
    function Optional(): (r: TypedQueryParameter)
      ensures r == this
    {
      this
    }

    /** `defaultValue`: ignores the default and returns the receiver. */
    function DefaultValue(default: JsValue): (r: TypedQueryParameter)
      ensures r == this && r.GetValue() == value
    {
      this
    }

    /** `predicate`: evaluated on the held value at once. */
    function Predicate(f: JsValue -> bool, message: string): (r: Result<TypedQueryParameter>)
      ensures r.Ok? <==> f(value)
      ensures r.Ok? ==> r.value == this
      ensures r.Err? ==> r.error == MakeError(name, message)
    {
      if f(value) then Ok(this) else Err(MakeError(name, message))
    }

    /** `getValue`: always the held value. */
    function GetValue(): (r: Defined)
      ensures r == value
    {
      value
    }
  }

  /** The `TypedQueryParameter` constructor, which throws a plain `Error` on
      `undefined`. */
  function NewTypedQueryParameter(name: string, value: JsValue): (r: Result<TypedQueryParameter>)
    ensures r.Ok? <==> !value.Undefined?
    ensures r.Ok? ==> r.value.name == name && r.value.GetValue() == value
    ensures r.Err? ==> r.error == PlainError(UNDEFINED_VALUE)
  {
    if value.Undefined? then Err(PlainError(UNDEFINED_VALUE)) else Ok(TypedQueryParameter(name, value))
  }

  // ---------------------------------------------------------------------------
  // The present state that can be re-coerced

  /** `QueryParameter`: a present value, reached through `defaultValue` on an
      absent parameter, that can be coerced again to another type. */
  datatype QueryParameter = QueryParameter(value: Defined, name: string) {

    /** `optional`: the value is already there, so the receiver is returned. */
    function Optional(): (r: QueryParameter)
      ensures r == this
    {
      this
    }

    /** `defaultValue`: ignores the default and returns the receiver. */
    function DefaultValue(default: JsValue): (r: QueryParameter)
      ensures r == this && r.GetValue() == value
    {
      this
    }

    /** `asNumber`: succeeds when `Number(value)` is finite; a symbol makes
        `Number` throw. */
    function AsNumber(host: Host): (r: Result<QueryParameter>)
      ensures IsSymbol(value) ==> r == Err(TypeError)
      ensures !IsSymbol(value) ==> (r.Ok? <==> IsFinite(ToNumber(host, value).value))
      ensures !IsSymbol(value) && r.Ok? ==> r.value == QueryParameter(Number(ToNumber(host, value).value), name)
      ensures !IsSymbol(value) && r.Err? ==>
                r.error == MakeError(name, "Cannot parse value " + Display(host, value).value + " as number")
    {
      match ToNumber(host, value)
      case Err(e) => Err(e)
      case Ok(n) =>
        if IsFinite(n) then ChangeValueType(Number(n))
        else Err(MakeError(name, "Cannot parse value " + Display(host, value).value + " as number"))
    }

    /** `asDate`: succeeds when `new Date(value)` is a valid date; a symbol or
        a big integer makes `new Date` throw. */
    function AsDate(host: Host): (r: Result<QueryParameter>)
      ensures IsSymbol(value) || IsBigInt(value) ==> r == Err(TypeError)
      ensures !IsSymbol(value) && !IsBigInt(value) ==> (r.Ok? <==> IsFinite(DateTime(host, value).value))
      ensures !IsSymbol(value) && !IsBigInt(value) && r.Ok? ==>
                r.value == QueryParameter(DateObject(DateTime(host, value).value), name)
      ensures !IsSymbol(value) && !IsBigInt(value) && r.Err? ==>
                r.error == MakeError(name, "Cannot parse value " + Display(host, value).value + " as Date")
    {
      match DateTime(host, value)
      case Err(e) => Err(e)
      case Ok(t) =>
        if IsFinite(t) then ChangeValueType(DateObject(t))
        else Err(MakeError(name, "Cannot parse value " + Display(host, value).value + " as Date"))
    }

    /** `asString`: succeeds only when the value already is a string. Quoting a
        symbol in the message throws. */
    function AsString(host: Host): (r: Result<QueryParameter>)
      ensures r.Ok? <==> value.Str?
      ensures r.Ok? ==> r.value == this
      ensures IsSymbol(value) ==> r == Err(TypeError)
      ensures !value.Str? && !IsSymbol(value) ==>
                r == Err(MakeError(name, "Cannot parse value " + Display(host, value).value + " as string"))
    {
      if value.Str? then ChangeValueType(value)
      else match Display(host, value)
        case Err(e) => Err(e)
        case Ok(text) => Err(MakeError(name, "Cannot parse value " + text + " as string"))
    }

    /** `asBoolean`: a boolean passes through; a string must be `"true"` or
        `"false"` once lower-cased. The message for a refused string quotes it
        as it was given. */
    function AsBoolean(): (r: Result<QueryParameter>)
      ensures r.Ok? ==> r.value.name == name && r.value.value.Bool?
      ensures r.Err? ==> r.error.ParserError?
      ensures value.Bool? ==> r == Ok(this)
      ensures value.Str? ==> (r.Ok? <==> ToLower(value.s) in {"true", "false"})
      ensures value.Str? && r.Ok? ==> r.value.value == Bool(ToLower(value.s) == "true")
      ensures value.Str? && r.Err? ==>
                r.error == MakeError(name, "Cannot parse string " + value.s + " as boolean")
      ensures !value.Bool? && !value.Str? ==>
                r == Err(MakeError(name, "Cannot parse value of type " + TypeOf(value) + " as boolean"))
    {
      match value
      case Bool(_) => ChangeValueType(value)
      case Str(s) =>
        if ToLower(s) == "true" then ChangeValueType(Bool(true))
        else if ToLower(s) == "false" then ChangeValueType(Bool(false))
        else Err(MakeError(name, "Cannot parse string " + s + " as boolean"))
      case _ => Err(MakeError(name, "Cannot parse value of type " + TypeOf(value) + " as boolean"))
    }

    /** `predicate`: evaluated on the held value at once. */
    function Predicate(f: JsValue -> bool, message: string): (r: Result<QueryParameter>)
      ensures r.Ok? <==> f(value)
      ensures r.Ok? ==> r.value == this
      ensures r.Err? ==> r.error == MakeError(name, message)
    {
      if f(value) then Ok(this) else Err(MakeError(name, message))
    }

    /** `getValue`: always the held value. */
    function GetValue(): (r: Defined)
      ensures r == value
    {
      value
    }

    /** `changeValueType`: the re-coercing state under the same name, built by
        the `QueryParameter` constructor. */
    function ChangeValueType(v: JsValue): (r: Result<QueryParameter>)
      ensures r.Ok? <==> !v.Undefined?
      ensures r.Ok? ==> r.value.name == name && r.value.GetValue() == v
      ensures r.Err? ==> r.error == PlainError(UNDEFINED_VALUE)
    {
      NewQueryParameter(v, name)
    }
  }

  /** The `QueryParameter` constructor, which throws a plain `Error` on
      `undefined`. */
  function NewQueryParameter(value: JsValue, name: string): (r: Result<QueryParameter>)
    ensures r.Ok? <==> !value.Undefined?
    ensures r.Ok? ==> r.value.name == name && r.value.GetValue() == value
    ensures r.Err? ==> r.error == PlainError(UNDEFINED_VALUE)
  {
    if value.Undefined? then Err(PlainError(UNDEFINED_VALUE)) else Ok(QueryParameter(value, name))
  }

  // ---------------------------------------------------------------------------
  // The absent state

  /** `UndefinedQueryParameter`: no value was supplied. Its only state is the
      `isOptional` flag, which `optional` and `defaultValue` set in place. */
  class UndefinedQueryParameter {
    const name: string
    var isOptional: bool

    constructor (name: string)
      ensures this.name == name && !isOptional
    {
      this.name := name;
      isOptional := false;
    }

    /** `optional`: marks this very object optional and returns it. */
    method Optional() returns (self: UndefinedQueryParameter)
      modifies this
      ensures self == this && isOptional
    {
      isOptional := true;
      self := this;
    }

    /** `asNumber`: a new absent state, which is required again. */
    method AsNumber() returns (next: UndefinedQueryParameter)
      ensures fresh(next) && next.name == name && !next.isOptional
    {
      next := new UndefinedQueryParameter(name);
    }

    /** `asDate`: a new absent state, which is required again. */
    method AsDate() returns (next: UndefinedQueryParameter)
      ensures fresh(next) && next.name == name && !next.isOptional
    {
      next := new UndefinedQueryParameter(name);
    }

    /** `asString`: a new absent state, which is required again. */
    method AsString() returns (next: UndefinedQueryParameter)
      ensures fresh(next) && next.name == name && !next.isOptional
    {
      next := new UndefinedQueryParameter(name);
    }

    /** `asBoolean`: a new absent state, which is required again. */
    method AsBoolean() returns (next: UndefinedQueryParameter)
      ensures fresh(next) && next.name == name && !next.isOptional
    {
      next := new UndefinedQueryParameter(name);
    }

    /** `defaultValue`: marks this object optional, then builds a present
        state holding the default. The flag is set even when that construction
        throws because the default is `undefined`. */
    method DefaultValue(default: JsValue) returns (r: Result<QueryParameter>)
      modifies this
      ensures isOptional
      ensures r == NewQueryParameter(default, name)
    {
      isOptional := true;
      r := NewQueryParameter(default, name);
    }

    /** `predicate`: there is no value to test, so the function is not applied
        and the receiver is returned. */
    function Predicate(f: JsValue -> bool, message: string): (r: UndefinedQueryParameter)
      ensures r == this
    {
      this
    }

    /** `getValue`: `undefined` when marked optional, otherwise the error that
        the parameter is required. */
    function GetValue(): (r: Result<JsValue>)
      reads this
      ensures r.Ok? <==> isOptional
      ensures r.Ok? ==> r.value == Undefined
      ensures r.Err? ==> r.error == MakeError(name, REQUIRED_MISSING)
    {
      if isOptional then Ok(Undefined) else Err(MakeError(name, REQUIRED_MISSING))
    }
  }

  // ---------------------------------------------------------------------------
  // Properties of the chain

  /** On a `QueryParameter` the presence policy changes nothing and the value
      can always be extracted. */
  lemma QueryParameterPolicyIsNoOp(p: QueryParameter, default: JsValue)
    ensures p.Optional() == p && p.DefaultValue(default) == p
    ensures p.Optional().DefaultValue(default).GetValue() == p.value
  {
  }

  /** On a `TypedQueryParameter` the presence policy changes nothing and the
      value can always be extracted. */
  lemma TypedPolicyIsNoOp(t: TypedQueryParameter, default: JsValue)
    ensures t.Optional() == t && t.DefaultValue(default) == t
    ensures t.Optional().DefaultValue(default).GetValue() == t.value
  {
  }

  /** Raw `asBoolean` on a string succeeds exactly on the two tokens, spelled
      in any mix of cases, and yields the token's truth value. */
  lemma RawBooleanTokens(name: string, s: string)
    ensures RawQueryParameter(name, Str(s)).AsBoolean().Ok? <==> IsBooleanToken(s)
    ensures RawQueryParameter(name, Str(s)).AsBoolean().Ok? ==>
              RawQueryParameter(name, Str(s)).AsBoolean().value.GetValue() == Bool(SpelledIgnoringCase(s, "true"))
  {
  }

  /** `asBoolean` on a `QueryParameter` holding a string accepts the same
      tokens as the raw state. */
  lemma RecoercedBooleanTokens(name: string, s: string)
    ensures QueryParameter(Str(s), name).AsBoolean().Ok? <==> IsBooleanToken(s)
    ensures QueryParameter(Str(s), name).AsBoolean().Ok? ==>
              QueryParameter(Str(s), name).AsBoolean().value.GetValue() == Bool(SpelledIgnoringCase(s, "true"))
  {
  }

  /** On a string, the raw state and the re-coercing state apply the same
      conversion rules: each coercion succeeds in one exactly when it succeeds
      in the other, with the same value and the same parameter name. */
  lemma CoercionsAgreeOnStrings(host: Host, name: string, s: string)
    ensures var raw, p := RawQueryParameter(name, Str(s)), QueryParameter(Str(s), name);
      && (raw.AsNumber(host).Ok? <==> p.AsNumber(host).Ok?)
      && (raw.AsNumber(host).Ok? ==> raw.AsNumber(host).value.value == p.AsNumber(host).value.value)
      && (raw.AsDate(host).Ok? <==> p.AsDate(host).Ok?)
      && (raw.AsDate(host).Ok? ==> raw.AsDate(host).value.value == p.AsDate(host).value.value)
      && raw.AsString().Ok? && p.AsString(host).Ok?
      && (raw.AsBoolean().Ok? <==> p.AsBoolean().Ok?)
      && (raw.AsBoolean().Ok? ==> raw.AsBoolean().value.value == p.AsBoolean().value.value)
  {
  }

  /** The two states differ on numbers: the raw state lets a non-finite number
      through, while re-coercion refuses it. */
  lemma NonFiniteNumberPassesRawOnly(host: Host, name: string, n: Num)
    requires !IsFinite(n)
    ensures RawQueryParameter(name, Number(n)).AsNumber(host) == Ok(TypedQueryParameter(name, Number(n)))
    ensures QueryParameter(Number(n), name).AsNumber(host).Err?
  {
  }

  /** The two states also differ on `null`, booleans and dates: the raw state
      refuses them by their `typeof`, while re-coercion converts them as
      `Number` and `new Date` do. */
  lemma RecoercionAcceptsMoreKinds(host: Host, name: string, v: Defined)
    requires v.Null? || v.Bool? || v.DateObject?
    ensures RawQueryParameter(name, v).AsNumber(host) ==
              Err(MakeError(name, "Cannot parse value of type " + TypeOf(v) + " as number"))
    ensures RawQueryParameter(name, v).AsDate(host) ==
              Err(MakeError(name, "Cannot parse value of type " + TypeOf(v) + " as Date"))
    ensures v.Null? ==> QueryParameter(v, name).AsNumber(host) == Ok(QueryParameter(Number(Finite(0.0)), name))
    ensures v.Bool? ==>
              QueryParameter(v, name).AsNumber(host) == Ok(QueryParameter(Number(Finite(if v.b then 1.0 else 0.0)), name))
    ensures v.DateObject? ==> (QueryParameter(v, name).AsNumber(host).Ok? <==> IsFinite(v.time))
    ensures v.DateObject? ==> (QueryParameter(v, name).AsDate(host).Ok? <==> IsFinite(v.time))
  {
  }

  /** For a string that is not a boolean token, the raw and the re-coercing
      `asBoolean` report the same error exactly when the string is already in
      lower case: the first quotes the lower-cased string, the second the
      string as given. */
  lemma BooleanErrorsQuoteDifferently(name: string, s: string)
    requires ToLower(s) != "true" && ToLower(s) != "false"
    ensures RawQueryParameter(name, Str(s)).AsBoolean().Err?
    ensures QueryParameter(Str(s), name).AsBoolean().Err?
    ensures (RawQueryParameter(name, Str(s)).AsBoolean().error == QueryParameter(Str(s), name).AsBoolean().error)
              <==> ToLower(s) == s
  {
    var prefix := "Cannot parse string ";
    var lowered := prefix + ToLower(s) + " as boolean";
    var given := prefix + s + " as boolean";
    if MakeError(name, lowered) == MakeError(name, given) {
      MakeErrorInjective(name, lowered, given);
      assert ToLower(s) == lowered[|prefix|..|prefix| + |s|];
      assert s == given[|prefix|..|prefix| + |s|];
    }
  }

  /** Raw `asDate` refuses NaN and both infinities: `new Date` clips a
      non-finite time to an invalid date. */
  lemma RawDateRefusesNonFinite(host: Host, name: string, n: Num)
    requires !IsFinite(n)
    ensures RawQueryParameter(name, Number(n)).AsDate(host).Err?
    ensures RawQueryParameter(name, Number(n)).AsDate(host).error ==
              MakeError(name, "Cannot parse value " + host.numberText(n) + " as Date")
  {
  }

  /** Raw `asDate` accepts a whole number of milliseconds within the range of
      a `Date`, and the date holds exactly that time. */
  lemma RawDateKeepsWholeTimes(host: Host, name: string, k: int)
    requires -MAX_TIME_VALUE <= k as real <= MAX_TIME_VALUE
    ensures RawQueryParameter(name, Number(Finite(k as real))).AsDate(host) ==
              Ok(TypedQueryParameter(name, DateObject(Finite(k as real))))
  {
    TruncateWhole(k);
  }

  /** Truncating a whole number gives it back. */
  lemma TruncateWhole(k: int)
    ensures Truncate(k as real) == k
  {
  }

  /** A number cannot be re-coerced to a string: `asString` on a
      `QueryParameter` refuses everything that is not already a string. */
  lemma NumberNeverBecomesString(host: Host, name: string, n: Num)
    ensures QueryParameter(Number(n), name).AsString(host).Err?
  {
  }
}
