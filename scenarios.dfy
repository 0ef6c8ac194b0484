/** Whole chains, from the raw input to the extracted value, as a caller of the
    parser writes them. */
module Scenarios {
  import opened JsValues
  import opened Errors
  import opened QueryParameters
  import opened QueryParsers

  /** `getValue` at the end of a chain whose last step may have thrown. */
  function ThenGetValue(r: Result<TypedQueryParameter>): (v: Result<JsValue>)
    ensures r.Ok? ==> v == Ok(r.value.GetValue())
    ensures r.Err? ==> v == Err(r.error)
  {
    match r
    case Ok(t) => Ok(t.GetValue())
    case Err(e) => Err(e)
  }

  /** `new QueryParser({value: 'foo'}).parse('value').asString().getValue()`. */
  method ParseString() returns (v: Result<JsValue>)
    ensures v == Ok(Str("foo"))
  {
    var input := new QueryObject(map["value" := Str("foo")]);
    var parser := new QueryParser(input);
    var p := parser.Parse("value");
    v := ThenGetValue(p.value.raw.AsString());
  }

  /** `new QueryParser({value: '1'}).parse('value').asNumber().getValue()`,
      where `Number("1")` is one. */
  method ParseNumber(host: Host) returns (v: Result<JsValue>)
    requires host.stringToNumber("1") == Finite(1.0)
    ensures v == Ok(Number(Finite(1.0)))
  {
    var input := new QueryObject(map["value" := Str("1")]);
    var parser := new QueryParser(input);
    var p := parser.Parse("value");
    v := ThenGetValue(p.value.raw.AsNumber(host));
  }

  /** A string the host cannot read as a number is refused, naming the
      parameter. */
  method ParseNotANumber(host: Host) returns (v: Result<JsValue>)
    requires !IsFinite(host.stringToNumber("not-a-number"))
    ensures v == Err(MakeError("value", "Cannot parse string not-a-number as number"))
  {
    var input := new QueryObject(map["value" := Str("not-a-number")]);
    var p := CreateParameterParser(input, "value");
    assert "Cannot parse string " + "not-a-number" + " as number" == "Cannot parse string not-a-number as number";
    v := ThenGetValue(p.value.raw.AsNumber(host));
  }

  /** An ISO date string is parsed to the instant the host reads in it. */
  method ParseIsoDate(host: Host, iso: string, instant: real) returns (v: Result<JsValue>)
    requires host.dateOfString(iso) == Finite(instant)
    ensures v == Ok(DateObject(Finite(instant)))
  {
    var input := new QueryObject(map["value" := Str(iso)]);
    var parser := new QueryParser(input);
    var p := parser.Parse("value");
    v := ThenGetValue(p.value.raw.AsDate(host));
  }

  /** `createParameterParser({value: 'true'}, 'value').asBoolean().getValue()`. */
  method ParseTrue() returns (v: Result<JsValue>)
    ensures v == Ok(Bool(true))
  {
    var input := new QueryObject(map["value" := Str("true")]);
    var p := CreateParameterParser(input, "value");
    RawBooleanTokens("value", "true");
    assert SpelledIgnoringCase("true", "true");
    v := ThenGetValue(p.value.raw.AsBoolean());
  }

  /** `createParameterParser({value: 'FalSe'}, 'value').asBoolean().getValue()`. */
  method ParseMixedCaseFalse() returns (v: Result<JsValue>)
    ensures v == Ok(Bool(false))
  {
    var input := new QueryObject(map["value" := Str("FalSe")]);
    var p := CreateParameterParser(input, "value");
    RawBooleanTokens("value", "FalSe");
    assert SpelledIgnoringCase("FalSe", "false") by {
      assert "FalSe"[0] == UpperChar("false"[0]) && "FalSe"[3] == UpperChar("false"[3]);
    }
    v := ThenGetValue(p.value.raw.AsBoolean());
  }

  /** A missing parameter that is neither optional nor defaulted fails when its
      value is extracted. */
  method MissingRequired() returns (v: Result<JsValue>)
    ensures v == Err(MakeError("value", REQUIRED_MISSING))
  {
    var input := new QueryObject(map[]);
    var p := CreateParameterParser(input, "value");
    var s := p.value.absent.AsString();
    v := s.GetValue();
  }

  /** A missing parameter marked optional extracts as `undefined`, and a
      predicate attached to it is not applied. */
  method MissingOptional(f: JsValue -> bool) returns (v: Result<JsValue>)
    ensures v == Ok(Undefined)
  {
    var input := new QueryObject(map[]);
    var p := CreateParameterParser(input, "value");
    var s := p.value.absent.AsString();
    var o := s.Optional();
    v := o.Predicate(f, "never reported").GetValue();
  }

  /** `new UndefinedQueryParameter('value').optional().asString().getValue()`:
      marking an absent parameter optional and then asserting a type loses the
      mark, since the new state is required again. The chain starts from the
      exported class, whose own type offers `optional` before `asString`. */
  method OptionalBeforeTypeIsLost() returns (v: Result<JsValue>)
    ensures v == Err(MakeError("value", REQUIRED_MISSING))
  {
    var absent := new UndefinedQueryParameter("value");
    var o := absent.Optional();
    var s := o.AsString();
    v := s.GetValue();
  }

  /** A missing parameter given a default extracts as exactly that default,
      whatever types were asserted before; an `undefined` default is a
      contract violation. */
  method DefaultAfterRetyping(absent: UndefinedQueryParameter, default: JsValue) returns (v: Result<JsValue>)
    ensures !default.Undefined? ==> v == Ok(default)
    ensures default.Undefined? ==> v == Err(PlainError(UNDEFINED_VALUE))
  {
    var n := absent.AsNumber();
    var d := n.AsDate();
    var q := d.DefaultValue(default);
    v := match q
      case Ok(present) => Ok(present.GetValue())
      case Err(e) => Err(e);
  }

  /** `createParameterParser({}, 'value').asNumber().defaultValue(5).getValue()`. */
  method MissingWithDefault() returns (v: Result<JsValue>)
    ensures v == Ok(Number(Finite(5.0)))
  {
    var input := new QueryObject(map[]);
    var p := CreateParameterParser(input, "value");
    var n := p.value.absent.AsNumber();
    var q := n.DefaultValue(Number(Finite(5.0)));
    v := Ok(q.value.GetValue());
  }

  /** `createParameterParser(queryParams, name).asString()`, then `optional()`
      when `markOptional` holds, then `getValue()`, for every input: a missing
      parameter fails exactly when it is required, a string comes back
      unchanged, and any other value is refused by its `typeof`. */
  method StringChain(queryParams: QueryObject?, name: string, markOptional: bool) returns (v: Result<JsValue>)
    ensures queryParams == null ==> v == Err(TypeError)
    ensures queryParams != null && Lookup(queryParams.properties, name).Undefined? ==>
              v == if markOptional then Ok(Undefined) else Err(MakeError(name, REQUIRED_MISSING))
    ensures queryParams != null && Lookup(queryParams.properties, name).Str? ==>
              v == Ok(Lookup(queryParams.properties, name))
    ensures queryParams != null && !Lookup(queryParams.properties, name).Undefined? &&
            !Lookup(queryParams.properties, name).Str? ==>
              v == Err(MakeError(name, "Cannot parse value of type " + TypeOf(Lookup(queryParams.properties, name)) + " as string"))
  {
    var p := CreateParameterParser(queryParams, name);
    if p.Err? {
      return Err(p.error);
    }
    match p.value
    case Missing(absent) =>
      var s := absent.AsString();
      if markOptional {
        s := s.Optional();
      }
      v := s.GetValue();
    case Found(raw) =>
      var t := raw.AsString();
      if markOptional && t.Ok? {
        t := Ok(t.value.Optional());
      }
      v := ThenGetValue(t);
  }

  /** `createParameterParser(queryParams, name).asBoolean().getValue()` for
      every input: a missing parameter is required, a boolean comes back
      unchanged, a string must spell `true` or `false` in any mix of cases, and
      any other value is refused by its `typeof`. */
  method BooleanChain(queryParams: QueryObject?, name: string) returns (v: Result<JsValue>)
    ensures queryParams == null ==> v == Err(TypeError)
    ensures queryParams != null && Lookup(queryParams.properties, name).Undefined? ==>
              v == Err(MakeError(name, REQUIRED_MISSING))
    ensures queryParams != null && Lookup(queryParams.properties, name).Bool? ==>
              v == Ok(Lookup(queryParams.properties, name))
    ensures queryParams != null && Lookup(queryParams.properties, name).Str? ==>
              var s := Lookup(queryParams.properties, name).s;
              && (v.Ok? <==> IsBooleanToken(s))
              && (v.Ok? ==> v.value == Bool(SpelledIgnoringCase(s, "true")))
              && (v.Err? ==> v.error == MakeError(name, "Cannot parse string " + ToLower(s) + " as boolean"))
    ensures queryParams != null && !Lookup(queryParams.properties, name).Undefined? &&
            !Lookup(queryParams.properties, name).Bool? && !Lookup(queryParams.properties, name).Str? ==>
              v == Err(MakeError(name, "Cannot parse value of type " + TypeOf(Lookup(queryParams.properties, name)) + " as boolean"))
  {
    var p := CreateParameterParser(queryParams, name);
    if p.Err? {
      return Err(p.error);
    }
    match p.value
    case Missing(absent) =>
      var b := absent.AsBoolean();
      v := b.GetValue();
    case Found(raw) =>
      if raw.value.Str? {
        RawBooleanTokens(name, raw.value.s);
      }
      v := ThenGetValue(raw.AsBoolean());
  }

  /** The parser keeps the caller's object, not a copy: a property the caller
      adds after a first `parse` is found by the next one. */
  method ParseSeesLaterChange() returns (before: Result<JsValue>, after: Result<JsValue>)
    ensures before == Err(MakeError("value", REQUIRED_MISSING))
    ensures after == Ok(Str("foo"))
  {
    var input := new QueryObject(map[]);
    var parser := new QueryParser(input);
    var first := parser.Parse("value");
    before := first.value.absent.GetValue();
    input.properties := map["value" := Str("foo")];
    var second := parser.Parse("value");
    after := ThenGetValue(second.value.raw.AsString());
  }

  /** Over a `null` input, `parse` records the name and then throws the
      `TypeError` of reading a property of `null`. */
  method ParseNullInput() returns (r: Result<ParameterParser>, recorded: set<string>)
    ensures r == Err(TypeError)
    ensures recorded == {"value"}
  {
    var parser := new QueryParser(null);
    r := parser.Parse("value");
    recorded := parser.parsedParameters;
  }
}
