/** The entry points of the chain: `createParameterParser`, which looks a name
    up in the raw input, and `QueryParser`, which also records every name it
    was asked for. */
module QueryParsers {
  import opened JsValues
  import opened Errors
  import opened QueryParameters

  /** The caller's input object. Its own properties can be changed by the
      caller at any time, and a `QueryParser` holding it sees each change. */
  class QueryObject {
    var properties: map<string, JsValue>

    constructor (properties: map<string, JsValue>)
      ensures this.properties == properties
    {
      this.properties := properties;
    }
  }

  /** `queryParams[name]`: the value of an own property, `undefined` when there
      is none. */
  function Lookup(properties: map<string, JsValue>, name: string): (v: JsValue)
    ensures name in properties ==> v == properties[name]
    ensures name !in properties ==> v == Undefined
  {
    if name in properties then properties[name] else Undefined
  }

  /** The state a chain starts in. */
  datatype ParameterParser = Missing(absent: UndefinedQueryParameter) | Found(raw: RawQueryParameter)

  /** `p` is the state `createParameterParser` starts with over an object with
      these properties: absent, required and named `name` when the lookup
      gives `undefined`, and otherwise raw, holding exactly the value found. */
  ghost predicate StartsChain(p: ParameterParser, properties: map<string, JsValue>, name: string)
    reads if p.Missing? then {p.absent} else {}
  {
    match p
    case Missing(a) => Lookup(properties, name) == Undefined && a.name == name && !a.isOptional
    case Found(r) => Lookup(properties, name) != Undefined && r.name == name && r.value == Lookup(properties, name)
  }

  /** `createParameterParser`. A `null` or `undefined` input (`null` here)
      makes the property read throw a `TypeError`. */
  method CreateParameterParser(queryParams: QueryObject?, name: string) returns (r: Result<ParameterParser>)
    ensures r.Err? <==> queryParams == null
    ensures r.Err? ==> r.error == TypeError
    ensures r.Ok? ==> (r.value.Missing? <==> Lookup(queryParams.properties, name) == Undefined)
    ensures r.Ok? && r.value.Missing? ==> fresh(r.value.absent)
    ensures r.Ok? ==> StartsChain(r.value, queryParams.properties, name)
  {
    if queryParams == null {
      return Err(TypeError);
    }
    var value := Lookup(queryParams.properties, name);
    if value == Undefined {
      var absent := new UndefinedQueryParameter(name);
      r := Ok(Missing(absent));
    } else {
      r := Ok(Found(NewRawQueryParameter(name, value).value));
    }
  }

  /** `QueryParser`: one parsing session over the caller's input object, which
      it keeps by reference and reads again on every `parse`. */
  class QueryParser {
    const queryParams: QueryObject?
    var parsedParameters: set<string>

    constructor (queryParams: QueryObject?)
      ensures this.queryParams == queryParams && parsedParameters == {}
    {
      this.queryParams := queryParams;
      parsedParameters := {};
    }

    /** `parse`: records the name, then starts a chain for it exactly as
        `createParameterParser` does over the input as it is now. The name is
        recorded even when the input is `null` and the lookup throws. */
    method Parse(name: string) returns (r: Result<ParameterParser>)
      modifies this
      ensures parsedParameters == old(parsedParameters) + {name}
      ensures r.Err? <==> queryParams == null
      ensures r.Err? ==> r.error == TypeError
      ensures r.Ok? ==> (r.value.Missing? <==> Lookup(queryParams.properties, name) == Undefined)
      ensures r.Ok? && r.value.Missing? ==> fresh(r.value.absent)
      ensures r.Ok? ==> StartsChain(r.value, queryParams.properties, name)
    {
      parsedParameters := parsedParameters + {name};
      r := CreateParameterParser(queryParams, name);
    }
  }
}
