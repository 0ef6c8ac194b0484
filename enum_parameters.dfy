/** `EnumApiParameter`: a codec between the member names of a numeric
    TypeScript enum and its numbers, working on the object the enum compiles
    to. */
module EnumParameters {
  import opened JsValues
  import opened Errors

  /** One member of a numeric enum: `name = value`. */
  datatype EnumMember = EnumMember(name: string, value: int)

  function Digit(d: nat): char
    requires d < 10
  {
    ('0' as int + d) as char
  }

  /** The decimal text of a natural number. */
  function NatText(n: nat): (s: string)
    ensures 1 <= |s|
    ensures '0' <= s[0] <= '9'
    ensures n < 10 <==> |s| == 1
  {
    if n < 10 then [Digit(n)] else NatText(n / 10) + [Digit(n % 10)]
  }

  /** `String(n)` for an integer, which is also the property key `n` names. */
  function IntText(n: int): (s: string)
    ensures 1 <= |s| && (s[0] == '-' <==> n < 0)
  {
    if n < 0 then "-" + NatText(-n) else NatText(n)
  }

  lemma {:induction false} NatTextInjective(a: nat, b: nat)
    requires NatText(a) == NatText(b)
    ensures a == b
  {
    if a >= 10 && b >= 10 {
      var sa := NatText(a);
      assert sa[..|sa| - 1] == NatText(a / 10) && sa[|sa| - 1] == Digit(a % 10);
      assert sa[..|sa| - 1] == NatText(b / 10) && sa[|sa| - 1] == Digit(b % 10);
      NatTextInjective(a / 10, b / 10);
    }
  }

  /** Different integers name different property keys. */
  lemma IntTextInjective(a: int, b: int)
    requires IntText(a) == IntText(b)
    ensures a == b
  {
    if a < 0 && b < 0 {
      assert NatText(-a) == IntText(a)[1..];
      NatTextInjective(-a, -b);
    } else if a >= 0 && b >= 0 {
      NatTextInjective(a, b);
    }
  }

  /** The number value of an enum member. */
  function NumberOf(value: int): JsValue {
    Number(Finite(value as real))
  }

  /** The two assignments TypeScript emits for one member: `E[name] = value`,
      then the reverse entry `E[String(value)] = name`. */
  function Step(obj: map<string, JsValue>, m: EnumMember): map<string, JsValue> {
    obj[m.name := NumberOf(m.value)][IntText(m.value) := Str(m.name)]
  }

  /** The object a numeric enum compiles to: the members' steps in order. */
  function EnumObject(members: seq<EnumMember>): map<string, JsValue> {
    if members == [] then map[] else Step(EnumObject(members[..|members| - 1]), members[|members| - 1])
  }

  /** A step leaves every other key as it was. */
  lemma StepKeeps(obj: map<string, JsValue>, m: EnumMember, key: string)
    requires key != m.name && key != IntText(m.value)
    ensures key in Step(obj, m) <==> key in obj
    ensures key in obj ==> Step(obj, m)[key] == obj[key]
  {
  }

  /** What the TypeScript compiler guarantees of an enum: member names differ,
      and no name is the decimal text of a member's number. */
  ghost predicate WellFormed(members: seq<EnumMember>) {
    && (forall i, j :: 0 <= i < j < |members| ==> members[i].name != members[j].name)
    && (forall i, j :: 0 <= i < |members| && 0 <= j < |members| ==> members[i].name != IntText(members[j].value))
  }

  ghost predicate DistinctValues(members: seq<EnumMember>) {
    forall i, j :: 0 <= i < j < |members| ==> members[i].value != members[j].value
  }

  /** `key` is the name of `m` or the text of its number. */
  predicate KeyOfMember(m: EnumMember, key: string) {
    key == m.name || key == IntText(m.value)
  }

  ghost predicate IsKeyOf(members: seq<EnumMember>, key: string) {
    exists i :: 0 <= i < |members| && KeyOfMember(members[i], key)
  }

  /** The keys of the enum object are the member names and the texts of the
      member numbers. */
  lemma {:induction false} EnumObjectKeys(members: seq<EnumMember>, key: string)
    ensures key in EnumObject(members) <==> IsKeyOf(members, key)
  {
    if members != [] {
      var last := |members| - 1;
      var init := members[..last];
      EnumObjectKeys(init, key);
      if IsKeyOf(init, key) {
        var i :| 0 <= i < |init| && KeyOfMember(init[i], key);
        assert members[i] == init[i];
      }
      if IsKeyOf(members, key) {
        var i :| 0 <= i < |members| && KeyOfMember(members[i], key);
        if i < last {
          assert init[i] == members[i];
        }
      }
      if !KeyOfMember(members[last], key) {
        StepKeeps(EnumObject(init), members[last], key);
      }
    }
  }

  /** In a well-formed enum, each member name maps to the member's number. */
  lemma {:induction false} NameMapsToValue(members: seq<EnumMember>, k: nat)
    requires WellFormed(members) && k < |members|
    ensures members[k].name in EnumObject(members)
    ensures EnumObject(members)[members[k].name] == NumberOf(members[k].value)
  {
    var last := |members| - 1;
    var init := members[..last];
    var m := members[last];
    assert members[k].name != IntText(m.value);
    if k < last {
      InitWellFormed(members);
      NameMapsToValue(init, k);
      assert init[k] == members[k];
      assert members[k].name != m.name;
      StepKeeps(EnumObject(init), m, members[k].name);
    }
  }

  /** Dropping the last member keeps an enum well-formed. */
  lemma {:induction false} InitWellFormed(members: seq<EnumMember>)
    requires WellFormed(members) && members != []
    ensures WellFormed(members[..|members| - 1])
  {
    var init := members[..|members| - 1];
    forall i, j | 0 <= i < |init| && 0 <= j < |init| ensures init[i].name != IntText(init[j].value) {
      assert init[i] == members[i] && init[j] == members[j];
    }
  }

  /** In a well-formed enum, the text of a member's number maps to the name
      of a member with that number. */
  lemma {:induction false} ValueKeyNamesMember(members: seq<EnumMember>, v: int, j: nat) returns (k: nat)
    requires WellFormed(members) && j < |members| && members[j].value == v
    ensures k < |members| && members[k].value == v
    ensures IntText(v) in EnumObject(members)
    ensures EnumObject(members)[IntText(v)] == Str(members[k].name)
  {
    var last := |members| - 1;
    var init := members[..last];
    var m := members[last];
    if m.value == v {
      k := last;
    } else {
      InitWellFormed(members);
      assert init[j] == members[j];
      k := ValueKeyNamesMember(init, v, j);
      assert init[k] == members[k];
      assert m.name != IntText(members[j].value);
      if IntText(m.value) == IntText(v) {
        IntTextInjective(m.value, v);
      }
      StepKeeps(EnumObject(init), m, IntText(v));
    }
  }

  /** `EnumApiParameter`, holding the enum object it was built from. */
  datatype EnumApiParameter = EnumApiParameter(enumType: map<string, JsValue>) {

    /** `deserialize`: with `allowNull`, the empty string gives `null`;
        otherwise the property of that name, which must be defined. */
    function Deserialize(value: string, allowNull: bool): (r: Result<JsValue>)
      ensures allowNull && value == "" ==> r == Ok(Null)
      ensures !(allowNull && value == "") ==>
                (r.Ok? <==> value in enumType && !enumType[value].Undefined?)
      ensures !(allowNull && value == "") && r.Ok? ==> r.value == enumType[value]
      ensures r.Err? ==> r.error == PlainError("Invalid enum string \"" + value + "\"")
    {
      if allowNull && value == "" then Ok(Null)
      else if value in enumType && !enumType[value].Undefined? then Ok(enumType[value])
      else Err(PlainError("Invalid enum string \"" + value + "\""))
    }

    /** `serialize`: the property named by the number, `undefined` when there
        is none. */
    function Serialize(value: int): (r: JsValue)
      ensures IntText(value) in enumType ==> r == enumType[IntText(value)]
      ensures IntText(value) !in enumType ==> r == Undefined
    {
      if IntText(value) in enumType then enumType[IntText(value)] else Undefined
    }
  }

  /** Serializing the number of any member and deserializing the name that
      comes back gives the number again. */
  lemma {:induction false} SerializeRoundTrip(members: seq<EnumMember>, j: nat, allowNull: bool)
    requires WellFormed(members) && j < |members|
    ensures var codec := EnumApiParameter(EnumObject(members));
      var text := codec.Serialize(members[j].value);
      && text.Str?
      && (exists k :: 0 <= k < |members| && text == Str(members[k].name) && members[k].value == members[j].value)
      && (!(allowNull && text.s == "") ==> codec.Deserialize(text.s, allowNull) == Ok(NumberOf(members[j].value)))
  {
    var k := ValueKeyNamesMember(members, members[j].value, j);
    NameMapsToValue(members, k);
  }

  /** With distinct numbers, every member name deserializes to its number,
      which serializes back to the name. */
  lemma {:induction false} DeserializeRoundTrip(members: seq<EnumMember>, j: nat)
    requires WellFormed(members) && DistinctValues(members) && j < |members|
    ensures var codec := EnumApiParameter(EnumObject(members));
      && codec.Deserialize(members[j].name, false) == Ok(NumberOf(members[j].value))
      && codec.Serialize(members[j].value) == Str(members[j].name)
  {
    NameMapsToValue(members, j);
    var k := ValueKeyNamesMember(members, members[j].value, j);
    assert k == j;
  }

  /** `deserialize` also accepts the decimal text of a member's number, and
      then returns the member's NAME, a string, rather than a number. */
  lemma {:induction false} DeserializeAcceptsNumberText(members: seq<EnumMember>, j: nat, allowNull: bool)
    requires WellFormed(members) && DistinctValues(members) && j < |members|
    ensures EnumApiParameter(EnumObject(members)).Deserialize(IntText(members[j].value), allowNull)
              == Ok(Str(members[j].name))
  {
    var k := ValueKeyNamesMember(members, members[j].value, j);
    assert k == j;
    assert IntText(members[j].value) != "";
  }

  /** `deserialize` refuses exactly the strings that are neither a member name
      nor the text of a member number (apart from the empty string, which
      gives `null` when allowed). */
  lemma {:induction false} DeserializeRejects(members: seq<EnumMember>, value: string, allowNull: bool)
    requires !(allowNull && value == "")
    ensures EnumApiParameter(EnumObject(members)).Deserialize(value, allowNull).Err? <==>
              forall i :: 0 <= i < |members| ==> !KeyOfMember(members[i], value)
  {
    EnumObjectKeys(members, value);
    EnumObjectDefined(members, value);
  }

  /** No entry of the enum object is `undefined`. */
  lemma {:induction false} EnumObjectDefined(members: seq<EnumMember>, key: string)
    ensures key in EnumObject(members) ==> !EnumObject(members)[key].Undefined?
  {
    if members != [] {
      EnumObjectDefined(members[..|members| - 1], key);
    }
  }
}
