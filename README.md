# simple-typed-validator: the parameter-coercion chain in Dafny

This project models `src/core.ts` of simple-typed-validator. That file holds a
fluent chain that takes one named parameter from the caller's input object,
coerces it to a string, number, date or boolean, applies presence policy
(`optional`, `defaultValue`) and a caller's predicate, and extracts the value.
A failed coercion, a failed predicate and a missing required value are each a
`ParameterParserError` whose message names the parameter. Building a state
around `undefined` and deserializing an unknown enum string throw a plain
`Error` that names no parameter. A value JavaScript cannot convert (a symbol,
or a big integer given to `new Date`) and a `null` or `undefined` input throw
the runtime's `TypeError`. The chain has four kinds of state:

- `RawQueryParameter` holds a value that was found, before a type is asserted.
- `UndefinedQueryParameter` stands for a parameter that was not supplied. Its
  `isOptional` flag is updated in place.
- `QueryParameter` holds a present value that can still be coerced again. It is
  reached through `defaultValue`.
- `TypedQueryParameter` holds a typed value that cannot be coerced again.

The file also holds `EnumApiParameter`, a codec between the member names of a
numeric TypeScript enum and its numbers.

Layout, one module per file:

- `js_values.dfy` (`JsValues`) covers JavaScript values, `typeof`, `Number(v)`,
  `new Date(v)`, template-string text and ASCII lower-casing. The parts of the
  runtime the code takes as given are the fields of a `Host` record.
- `errors.dfy` (`Errors`) holds the three error kinds, `Result`, and
  `makeError`'s message format.
- `query_parameters.dfy` (`QueryParameters`) holds the four states. The three
  immutable ones are datatypes. The absent state is a class whose flag the
  methods assign.
- `query_parsers.dfy` (`QueryParsers`) holds the caller's input object, as a
  class whose properties the caller may change, `createParameterParser`, and
  the `QueryParser` session class. The session keeps the input object by
  reference and records requested names in a set field.
- `enum_parameters.dfy` (`EnumParameters`) holds `EnumApiParameter`. It also
  holds the object a numeric enum compiles to, with round-trip lemmas.
- `scenarios.dfy` (`Scenarios`) holds whole chains as a caller writes them. They
  mirror the cases of `src/__tests__/public_interface.test.ts`.

Behaviour of the code that the model keeps:

- Raw `asNumber` lets any number through unchanged, including NaN and the
  infinities (src/core.ts:98-99). Only strings are checked for finiteness.
  Re-coercion on a `QueryParameter` checks every value, so the two paths
  differ on non-finite numbers (`NonFiniteNumberPassesRawOnly`). A design in
  which both paths reject non-finite numbers is not what the code does, and
  the model follows the code.
- The two paths also differ on `null`, booleans and dates. Raw `asNumber` and
  `asDate` refuse them by their `typeof` (src/core.ts:109-110, 125-126), while
  re-coercion converts them as `Number` and `new Date` do
  (`RecoercionAcceptsMoreKinds`). The messages for a refused string differ
  too: the raw `asNumber` says `Cannot parse string …`, the re-coercing one
  `Cannot parse value …`.
- A chain cannot turn a number into a string and back: `asString` on a
  `QueryParameter` refuses every value that is not already a string
  (`NumberNeverBecomesString`).
- `optional()` on an absent parameter sets the flag on that object and
  returns it. Each `as*` call builds a new, required absent state, so
  `optional().asString()` is required again (`OptionalBeforeTypeIsLost`).
- `defaultValue` sets the receiver's flag before it builds the present state.
  The flag is therefore set even when an `undefined` default makes that
  construction throw.
- The raw `asBoolean` error message quotes the lower-cased string. The
  `QueryParameter` message quotes the string as given. The two are the same
  error exactly when the string is already lower-case
  (`BooleanErrorsQuoteDifferently`).
- `QueryParser` keeps the caller's object, not a copy, and reads it again on
  every `parse` (src/core.ts:346, 352), so it sees properties the caller adds
  later (`ParseSeesLaterChange`). Over a `null` input, `parse` records the
  name before the lookup throws (`ParseNullInput`).
- `deserialize` looks up any property of the enum object. Given the decimal
  text of a member's number, it returns a member NAME, a string. With distinct
  numbers that is the name of the member (`DeserializeAcceptsNumberText`).
  When several members share a number, it is the name of the last of them
  declared, whose reverse assignment is the one that stays.
- The test at src/__tests__/public_interface.test.ts:67 calls `.require()`.
  No class in src/core.ts defines it. The model follows src/core.ts, where a
  missing required parameter fails at `getValue` (`MissingRequired`).

## Model

| member | source | states |
|---|---|---|
| `JsValues.IsFinite` | src/core.ts:103 | the global `isFinite` on a number: false exactly for NaN and the two infinities (also at src/core.ts:119, 231, 240) |
| `JsValues.TypeOf` | src/core.ts:97-110 | `typeof` is `"string"`, `"number"`, `"boolean"` or `"undefined"` exactly for values of that kind, so each `switch` sees exactly those kinds; `"object"` exactly for `null`, dates and plain objects, and `"function"`, `"symbol"` or `"bigint"` exactly for those, as the error texts quote |
| `JsValues.ToLower` | src/core.ts:146 | lower-casing keeps the length and maps each character by the ASCII lower-case mapping |
| `JsValues.ToNumber` | src/core.ts:230 | `Number(v)` throws a `TypeError` exactly on a symbol; `null` is 0, a boolean 0 or 1, a number itself and a date its time value |
| `JsValues.TimeClip` | src/core.ts:118 | the time `new Date(n)` holds is valid exactly when `n` is finite and at most 8.64e15 from the epoch, and is then `n` rounded toward zero |
| `JsValues.DateTime` | src/core.ts:239 | `new Date(v)` throws a `TypeError` exactly on a symbol or a big integer; a date is copied, a string is parsed, and a number is clipped by `TimeClip` |
| `JsValues.Display` | src/core.ts:252 | the template text of a value throws a `TypeError` exactly on a symbol, and a string is its own text |
| `JsValues.LowerIsWordIff` | src/core.ts:146-151 | a string lower-cases to a lower-case word iff it spells that word with each letter in either case |
| `Errors.MakeError` | src/core.ts:82-84 | the error is a `ParameterParserError` whose message is `Error parsing parameter `, the name, `: `, then the detail |
| `Errors.MakeErrorInjective` | src/core.ts:82-84 | for one parameter name, two errors are equal only if their details are equal |
| `QueryParameters.RawQueryParameter.AsNumber` | src/core.ts:96-112 | a number passes through unchanged, finite or not; a string succeeds iff `Number(s)` is finite, giving that number; anything else, `null` included, is a `ParameterParserError` naming its `typeof`; a success keeps the name and holds a number |
| `QueryParameters.RawQueryParameter.AsDate` | src/core.ts:114-128 | a number or string succeeds iff `new Date(v)` has a finite time value, giving that date; the failure quotes the value; every other kind is refused by `typeof` |
| `QueryParameters.RawQueryParameter.AsString` | src/core.ts:130-138 | succeeds exactly on a string and keeps it unchanged; otherwise the error names the `typeof` |
| `QueryParameters.RawQueryParameter.AsBoolean` | src/core.ts:140-159 | a boolean passes through; a string succeeds iff its lower-case form is `true` or `false`, giving that boolean; the error quotes the lower-cased string; other kinds are refused by `typeof` |
| `QueryParameters.RawQueryParameter.CreateTyped` | src/core.ts:161-163 | builds the typed state under the receiver's name through its constructor: a plain `Error` exactly on `undefined`, and otherwise `getValue` gives back exactly the value |
| `QueryParameters.NewRawQueryParameter` | src/core.ts:88-94 | construction fails with a plain `Error`, not a `ParameterParserError`, exactly when the value is `undefined`; otherwise it holds the name and the value |
| `QueryParameters.TypedQueryParameter.Predicate` | src/core.ts:320-326 | returns the receiver iff `f(value)` holds; otherwise a `ParameterParserError` whose detail is the caller's message |
| `QueryParameters.NewTypedQueryParameter` | src/core.ts:304-310 | fails with a plain `Error` exactly on `undefined`; otherwise `getValue` gives back exactly the value |
| `QueryParameters.TypedQueryParameter.Optional` | src/core.ts:312-314 | returns the receiver unchanged (with `DefaultValue` and `GetValue`, also stated by `TypedPolicyIsNoOp`) |
| `QueryParameters.TypedQueryParameter.DefaultValue` | src/core.ts:316-318 | ignores the default: returns the receiver, whose value is still the held one |
| `QueryParameters.TypedQueryParameter.GetValue` | src/core.ts:328-330 | gives exactly the held value, never `undefined` |
| `QueryParameters.TypedPolicyIsNoOp` | src/core.ts:312-330 | on a typed state, `optional` and `defaultValue` return the receiver, and `getValue` after them is the held value |
| `QueryParameters.QueryParameter.AsNumber` | src/core.ts:229-236 | a symbol gives the `TypeError` of `Number`; otherwise succeeds iff `Number(value)` is finite, giving a new `QueryParameter` with that number and the same name, and the error quotes the value |
| `QueryParameters.QueryParameter.AsDate` | src/core.ts:238-245 | a symbol or a big integer gives the `TypeError` of `new Date`; otherwise succeeds iff `new Date(value)` has a finite time value, giving that date under the same name, and the error quotes the value |
| `QueryParameters.QueryParameter.AsString` | src/core.ts:247-254 | succeeds iff the value already is a string, leaving it unchanged; otherwise the error quotes the value, and quoting a symbol throws a `TypeError` |
| `QueryParameters.QueryParameter.AsBoolean` | src/core.ts:267-280 | a boolean passes through; a string succeeds iff its lower-case form is `true` or `false`; the error quotes the string as given; other kinds are refused by `typeof` |
| `QueryParameters.QueryParameter.Predicate` | src/core.ts:286-292 | returns the receiver iff `f(value)` holds; otherwise a `ParameterParserError` with the caller's message |
| `QueryParameters.QueryParameter.Optional` | src/core.ts:225-227 | returns the receiver unchanged (with `DefaultValue` and `GetValue`, also stated by `QueryParameterPolicyIsNoOp`) |
| `QueryParameters.QueryParameter.DefaultValue` | src/core.ts:282-284 | ignores the default: returns the receiver, whose value is still the held one |
| `QueryParameters.QueryParameter.GetValue` | src/core.ts:294-296 | gives exactly the held value, never `undefined` |
| `QueryParameters.QueryParameter.ChangeValueType` | src/core.ts:298-300 | builds the re-coercing state under the receiver's name through its constructor: a plain `Error` exactly on `undefined`, and otherwise `getValue` gives back exactly the value |
| `QueryParameters.NewQueryParameter` | src/core.ts:217-223 | fails with a plain `Error` exactly on `undefined`; otherwise `getValue` gives back exactly the value, under the given name |
| `QueryParameters.QueryParameterPolicyIsNoOp` | src/core.ts:225-296 | on a `QueryParameter`, `optional` and `defaultValue` return the receiver, and `getValue` after them is the held value |
| `QueryParameters.UndefinedQueryParameter.constructor` | src/core.ts:166-171 | a new absent state carries the name and starts required |
| `QueryParameters.UndefinedQueryParameter.Optional` | src/core.ts:173-176 | sets `isOptional` on this very object and returns it |
| `QueryParameters.UndefinedQueryParameter.AsNumber` | src/core.ts:178-180 | returns a new absent state with the same name that is required again, and leaves the receiver unchanged |
| `QueryParameters.UndefinedQueryParameter.AsDate` | src/core.ts:182-184 | returns a new required absent state with the same name, and leaves the receiver unchanged |
| `QueryParameters.UndefinedQueryParameter.AsString` | src/core.ts:186-188 | returns a new required absent state with the same name, and leaves the receiver unchanged |
| `QueryParameters.UndefinedQueryParameter.AsBoolean` | src/core.ts:194-196 | returns a new required absent state with the same name, and leaves the receiver unchanged |
| `QueryParameters.UndefinedQueryParameter.DefaultValue` | src/core.ts:198-201 | sets the receiver's `isOptional` and returns the present state built from the default; `getValue` on it is exactly the default, and an `undefined` default is a plain `Error` |
| `QueryParameters.UndefinedQueryParameter.Predicate` | src/core.ts:203-205 | returns the receiver itself; the predicate is not applied |
| `QueryParameters.UndefinedQueryParameter.GetValue` | src/core.ts:207-213 | gives `undefined` iff the object is marked optional; otherwise `Required parameter is missing` for that name |
| `QueryParameters.RawBooleanTokens` | src/core.ts:140-159 | raw `asBoolean` on a string succeeds iff it spells `true` or `false` in any mix of cases, and gives true iff it spells `true` |
| `QueryParameters.RecoercedBooleanTokens` | src/core.ts:267-280 | `QueryParameter.asBoolean` on a string accepts exactly the same case-insensitive tokens, with the same truth value |
| `QueryParameters.CoercionsAgreeOnStrings` | src/core.ts:229-280 | on a string, raw coercion and re-coercion to number, date, string and boolean succeed together and give the same value |
| `QueryParameters.NonFiniteNumberPassesRawOnly` | src/core.ts:98-99 | a non-finite number passes raw `asNumber` unchanged but is refused by `QueryParameter.asNumber` |
| `QueryParameters.RecoercionAcceptsMoreKinds` | src/core.ts:96-128 | raw `asNumber` and `asDate` refuse `null`, booleans and dates by `typeof`, while re-coercion turns `null` into 0, a boolean into 0 or 1, and accepts a date iff its time value is finite |
| `QueryParameters.BooleanErrorsQuoteDifferently` | src/core.ts:153 | for a string that is no boolean token, both `asBoolean`s fail, with the same error iff the string is already lower-case |
| `QueryParameters.RawDateRefusesNonFinite` | src/core.ts:116-123 | raw `asDate` refuses NaN and both infinities, quoting the number's text, since `new Date` clips them to an invalid date |
| `QueryParameters.RawDateKeepsWholeTimes` | src/core.ts:116-120 | raw `asDate` accepts a whole number of milliseconds within the `Date` range, and the date holds exactly that time |
| `QueryParameters.NumberNeverBecomesString` | src/core.ts:247-254 | a `QueryParameter` holding a number cannot be coerced to a string |
| `QueryParsers.Lookup` | src/core.ts:334 | the lookup gives the property's value when the name is an own property, and `undefined` otherwise |
| `QueryParsers.CreateParameterParser` | src/core.ts:333-340 | a `null` input throws a `TypeError`; otherwise returns a new, required absent state iff the lookup gives `undefined`, and else a raw state holding exactly the value found under that name |
| `QueryParsers.QueryParser.constructor` | src/core.ts:342-348 | a session starts over the caller's object itself, with no names recorded |
| `QueryParsers.QueryParser.Parse` | src/core.ts:350-353 | adds the name to `parsedParameters`, removes none, and then starts the chain exactly as `createParameterParser` does over the object's properties as they are now, throwing the same `TypeError` on a `null` input |
| `EnumParameters.EnumApiParameter.Deserialize` | src/core.ts:19-31 | with `allowNull`, the empty string gives `null`; otherwise it succeeds iff the enum object defines that property, giving it; the failure is a plain `Error` `Invalid enum string "…"` |
| `EnumParameters.EnumApiParameter.Serialize` | src/core.ts:33-35 | gives the enum object's property named by the number's decimal text, or `undefined` when there is none |
| `EnumParameters.IntText` | src/core.ts:34 | the property key an integer names: its decimal text, starting with `-` exactly for a negative number; different integers give different keys (`IntTextInjective`) |
| `EnumParameters.EnumObjectKeys` | src/core.ts:24 | the enum object's properties are exactly the member names and the decimal texts of their numbers |
| `EnumParameters.NameMapsToValue` | src/core.ts:24-27 | in a well-formed enum each member name maps to the member's number |
| `EnumParameters.SerializeRoundTrip` | src/core.ts:19-35 | serializing a member's number gives the name of a member with that number, and deserializing that name gives the number back |
| `EnumParameters.DeserializeRoundTrip` | src/core.ts:19-35 | with distinct numbers, each member name deserializes to its number, and that number serializes back to the name |
| `EnumParameters.DeserializeAcceptsNumberText` | src/core.ts:24-27 | with distinct numbers, `deserialize` of a member number's decimal text succeeds and gives that member's name, a string |
| `EnumParameters.DeserializeRejects` | src/core.ts:24-30 | `deserialize` fails iff the string is neither a member name nor the text of a member number (the empty string with `allowNull` aside) |
| `Scenarios.ParseString` | src/__tests__/public_interface.test.ts:14-22 | `parse('value').asString().getValue()` on `{value: 'foo'}` is `'foo'` |
| `Scenarios.ParseNumber` | src/__tests__/public_interface.test.ts:24-32 | `parse('value').asNumber().getValue()` on `{value: '1'}` is 1 |
| `Scenarios.ParseNotANumber` | src/core.ts:101-107 | a string that is not a finite number is refused with `Cannot parse string not-a-number as number` for parameter `value` |
| `Scenarios.ParseIsoDate` | src/__tests__/public_interface.test.ts:34-44 | an ISO date string parses to the instant the runtime reads in it |
| `Scenarios.ParseTrue` | src/__tests__/public_interface.test.ts:49-53 | `'true'` gives true |
| `Scenarios.ParseMixedCaseFalse` | src/__tests__/public_interface.test.ts:55-59 | `'FalSe'` gives false |
| `Scenarios.MissingRequired` | src/__tests__/public_interface.test.ts:63-71 | on `{}`, `asString().getValue()` fails with `Required parameter is missing` for `value` |
| `Scenarios.MissingOptional` | src/core.ts:203-213 | on `{}`, `asString().optional()` with a predicate attached extracts as `undefined` |
| `Scenarios.OptionalBeforeTypeIsLost` | src/core.ts:173-188 | `new UndefinedQueryParameter('value').optional().asString().getValue()` fails as required |
| `Scenarios.DefaultAfterRetyping` | src/core.ts:178-201 | on any absent state, after `asNumber().asDate()`, `defaultValue(v).getValue()` is exactly `v`, or a plain `Error` when `v` is `undefined` |
| `Scenarios.MissingWithDefault` | src/core.ts:178-201 | on `{}`, `asNumber().defaultValue(5).getValue()` is 5 |
| `Scenarios.StringChain` | src/core.ts:130-138 | for every input and name, `asString()`, an optional `optional()`, then `getValue()`: a missing parameter fails iff it is required, a string comes back unchanged, other values are refused by `typeof`, and a `null` input is a `TypeError` |
| `Scenarios.BooleanChain` | src/core.ts:140-159 | for every input and name, `asBoolean().getValue()`: a missing parameter is required, a boolean comes back, a string succeeds iff it spells `true` or `false` in any mix of cases, other values are refused by `typeof` |
| `Scenarios.ParseSeesLaterChange` | src/core.ts:345-353 | a property the caller adds to its object after a first `parse` is found by the next `parse` |
| `Scenarios.ParseNullInput` | src/core.ts:350-353 | over a `null` input, `parse` records the name and throws a `TypeError` |

## Left out

- Runtime behaviour: a `Host` record stands for four things the code takes from the runtime. They are the grammar of `Number(s)`, the date-string formats `new Date(s)` accepts, the conversion of objects to numbers and dates and of big integers to numbers, and the text JavaScript prints for numbers, dates and other objects. They are floating-point or implementation-defined, so the model takes them as given and states no grammar for them. `TimeClip`, which `new Date` applies to a number, is modelled exactly.
- JavaScript numbers are modelled as reals plus NaN and the two infinities. Rounding to doubles and the sign of zero are not modelled.
- Number text is modelled twice. `Host.numberText` gives the text that error messages quote, and `EnumParameters.IntText` gives the property keys of the enum object. Nothing ties the two together, so the model does not promise that an error message quotes an integer the way the enum keys spell it.
- Strings are Dafny strings, sequences of Unicode scalar values. A JavaScript string is a sequence of UTF-16 code units, so lone surrogates cannot be represented, and `|s|` differs from `.length` for characters outside the Basic Multilingual Plane. Only the length in `Errors.MakeError`'s contract depends on this.
- `JsValues.ToLower`: maps only the ASCII letters. Full Unicode lower-casing changes only the text that raw `asBoolean`'s error message quotes, since no non-ASCII character lower-cases to a letter of `true` or `false`.
- `QueryParsers.Lookup`: the input is its own properties only. Inherited properties such as `toString` or `constructor`, which `queryParams[name]` also finds, are not modelled. The input is an object, or `null` standing for both `null` and `undefined`; a primitive input such as a string, whose properties the lookup would also read, is not modelled.
- `EnumParameters.EnumApiParameter.Deserialize`: the enum object is its own properties only. Inherited `Object.prototype` members, which the lookup would also find and return, are not modelled. `allowNull` with a falsy value covers only the empty string, the one falsy string.
- `EnumParameters.EnumApiParameter.Serialize`: numbers are integers, whose keys are written in decimal. Non-integer enum numbers and the exponent form JavaScript uses from 10^21 up are not modelled.
- The `EnumApiParameter` constructor and `getValues` (src/core.ts:5-17) are not modelled. They depend on the key layout of the JavaScript enum object, `parseInt`, and a `.sort()` without comparator, which sorts numbers as strings.
- `CustomError` (src/core.ts:38-45): the stack capture and the `name` taken from the constructor are runtime plumbing. Only the error's kind and message are kept.
- The TypeScript interfaces and the `ValueType` parameter (src/core.ts:53-77) only shape types at compile time. A state holds any JavaScript value, and which datatype or class holds the chain stands for its static type.
- `toStringList` (src/core.ts:58, 190-192, 256-265) is commented out in the source.
- `QueryParameters.QueryParameter.AsDate`, `AsNumber` and `AsString`: the `TypeError` is modelled for symbols, and for big integers given to `new Date`. An object whose `valueOf`, `toString` or `Symbol.toPrimitive` throws, or yields a symbol or a big integer, is left to the `Host`, which gives a time value, number or text for it instead of throwing. The text of a `TypeError` is not modelled.
- Predicates are total, side-effect-free Dafny functions supplied by the caller. That `predicate` calls a JavaScript callback once, and what the callback does, are not observable in the model.
- The three immutable states are datatypes, so "returns `this`" is stated as equality of values. Object identity is modelled only for the absent state, which is a class.
- The test harness (chai and mocha) is not modelled. Its cases appear as the `Scenarios` methods, and the `.require()` call of src/__tests__/public_interface.test.ts:67 is dropped.
