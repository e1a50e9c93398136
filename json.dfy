/** The JSON collaborators of the topic converter: the value tree that `JsonDocument` parses
    into (RFC 8259 values), `JsonElement`'s lookups and typed getters, and `Utf8JsonWriter`
    as a recorder of the calls made on it. */
module Json {
  import opened Wrappers
  import opened Bytes
  import opened DotNet

  /** A JSON value. Numbers are told apart by their literal: an integer literal, or one
      with a fraction or an exponent (kept as its text). */
  datatype Value =
    | JNull
    | JBool(b: bool)
    | JInteger(i: int)
    | JDecimal(text: string)
    | JString(s: string)
    | JArray(items: seq<Value>)
    | JObject(members: seq<(string, Value)>)

  /** `JsonValueKind`. `Undefined` is the kind of the default element that
      `TryGetProperty` hands back when the key is missing. */
  datatype ValueKind = Undefined | Object | Array | String | Number | True | False | Null

  function KindOf(v: Value): ValueKind {
    match v
    case JNull => Null
    case JBool(b) => if b then True else False
    case JInteger(_) => Number
    case JDecimal(_) => Number
    case JString(_) => String
    case JArray(_) => Array
    case JObject(_) => Object
  }

  /** The keys of an object's members, in order. */
  function Keys(members: seq<(string, Value)>): (r: seq<string>)
    ensures |r| == |members|
    ensures forall i :: 0 <= i < |members| ==> r[i] == members[i].0
  {
    seq(|members|, i requires 0 <= i < |members| => members[i].0)
  }

  /** Property lookup as `JsonDocument` performs it: when a key occurs more than once the
      last occurrence wins. */
  function Lookup(members: seq<(string, Value)>, key: string): Option<Value>
  {
    if |members| == 0 then None
    else if members[|members| - 1].0 == key then Some(members[|members| - 1].1)
    else Lookup(members[..|members| - 1], key)
  }

  /** Lookup finds a key exactly when it occurs, and then yields its last occurrence. */
  lemma {:induction false} LookupIsLast(members: seq<(string, Value)>, key: string)
    ensures Lookup(members, key).None? <==> forall i :: 0 <= i < |members| ==> members[i].0 != key
    ensures Lookup(members, key).Some? ==>
              exists i :: 0 <= i < |members| && members[i] == (key, Lookup(members, key).value) &&
                          forall j :: i < j < |members| ==> members[j].0 != key
  {
    if |members| > 0 && members[|members| - 1].0 != key {
      var init := members[..|members| - 1];
      LookupIsLast(init, key);
      if Lookup(init, key).Some? {
        var i :| 0 <= i < |init| && init[i] == (key, Lookup(init, key).value) &&
                 forall j :: i < j < |init| ==> init[j].0 != key;
        assert members[i] == init[i];
      }
    }
  }

  /** A member appended to an object is found under its key and hides no other key. */
  lemma LookupSnoc(members: seq<(string, Value)>, m: (string, Value), key: string)
    ensures Lookup(members + [m], key) == if m.0 == key then Some(m.1) else Lookup(members, key)
  {
    assert (members + [m])[..|members|] == members;
  }

  /** `element.GetProperty(key)`. */
  function GetProperty(element: Value, key: string): (r: Result<Value, Exception>)
    ensures r.Ok? <==> element.JObject? && Lookup(element.members, key).Some?
  {
    if !element.JObject? then Err(InvalidOperation(key))
    else match Lookup(element.members, key)
      case None => Err(KeyNotFound(key))
      case Some(v) => Ok(v)
  }

  /** `element.TryGetProperty(key, out var v)`, with `v` the Undefined element (None) on a miss. */
  function TryGetProperty(element: Value, key: string): (r: Result<Option<Value>, Exception>)
    ensures r.Ok? <==> element.JObject?
    ensures r.Ok? ==> r.value == Lookup(element.members, key)
  {
    if !element.JObject? then Err(InvalidOperation(key)) else Ok(Lookup(element.members, key))
  }

  /** The integer getters: an integer literal within [lo, hi] is returned; any other number
      is a FormatException; a value that is not a number is an InvalidOperationException. */
  function GetInteger(v: Value, lo: int, hi: int, site: string): (r: Result<int, Exception>)
    ensures r.Ok? <==> v.JInteger? && lo <= v.i <= hi
    ensures r.Ok? ==> r.value == v.i
    ensures r.Err? ==> r.error == (if KindOf(v) == Number then Format(site) else InvalidOperation(site))
  {
    match v
    case JInteger(i) => if lo <= i <= hi then Ok(i) else Err(Format(site))
    case JDecimal(_) => Err(Format(site))
    case _ => Err(InvalidOperation(site))
  }

  function GetInt32(v: Value, site: string): Result<i32, Exception> {
    var i :- GetInteger(v, -0x8000_0000, 0x7FFF_FFFF, site);
    Ok(i)
  }

  function GetUInt16(v: Value, site: string): Result<u16, Exception> {
    var i :- GetInteger(v, 0, 0xFFFF, site);
    Ok(i)
  }

  function GetUInt64(v: Value, site: string): Result<u64, Exception> {
    var i :- GetInteger(v, 0, 0xFFFF_FFFF_FFFF_FFFF, site);
    Ok(i)
  }

  /** `element.GetString()`: the text of a string, null (None) for JSON null, and an
      InvalidOperationException for any other kind. */
  function GetString(v: Value, site: string): (r: Result<Option<string>, Exception>)
    ensures r.Ok? <==> v.JString? || v.JNull?
    ensures r == Ok(None) <==> v.JNull?
    ensures v.JString? ==> r == Ok(Some(v.s))
  {
    match v
    case JString(s) => Ok(Some(s))
    case JNull => Ok(None)
    case _ => Err(InvalidOperation(site))
  }

  // ---------------------------------------------------------------- writing

  /** One call made on a `Utf8JsonWriter`. */
  datatype Token =
    | StartObject
    | EndObject
    | StartArray(key: string)
    | EndArray
    | NumberProperty(key: string, n: int)
    | StringProperty(key: string, s: string)
    | NullProperty(key: string)
    | PropertyName(key: string)
    | RawValue(v: Value)

  /** The calls that write the items of an array, one raw value each. */
  function RawValues(items: seq<Value>): (r: seq<Token>)
    ensures |r| == |items|
  {
    if |items| == 0 then [] else [RawValue(items[0])] + RawValues(items[1..])
  }

  /** Writing one more raw value appends one token. */
  lemma {:induction false} RawValuesSnoc(items: seq<Value>, v: Value)
    ensures RawValues(items + [v]) == RawValues(items) + [RawValue(v)]
  {
    if |items| == 0 {
      assert items + [v] == [v];
    } else {
      assert (items + [v])[1..] == items[1..] + [v];
      RawValuesSnoc(items[1..], v);
    }
  }

  /** The calls that write the property `key: v`. */
  function PropertyTokens(key: string, v: Value): seq<Token> {
    match v
    case JInteger(n) => [NumberProperty(key, n)]
    case JString(s) => [StringProperty(key, s)]
    case JNull => [NullProperty(key)]
    case JArray(items) => [StartArray(key)] + RawValues(items) + [EndArray]
    case _ => [PropertyName(key), RawValue(v)]
  }

  function MembersTokens(members: seq<(string, Value)>): seq<Token> {
    if |members| == 0 then [] else PropertyTokens(members[0].0, members[0].1) + MembersTokens(members[1..])
  }

  lemma {:induction false} MembersTokensConcat(a: seq<(string, Value)>, b: seq<(string, Value)>)
    ensures MembersTokens(a + b) == MembersTokens(a) + MembersTokens(b)
  {
    if |a| == 0 {
      assert a + b == b;
    } else {
      assert (a + b)[0] == a[0] && (a + b)[1..] == a[1..] + b;
      MembersTokensConcat(a[1..], b);
    }
  }

  lemma MembersTokensOne(member: (string, Value))
    ensures MembersTokens([member]) == PropertyTokens(member.0, member.1)
  {
    assert [member][1..] == [];
  }

  /** The calls that write the object with these members, in order. */
  function ObjectTokens(members: seq<(string, Value)>): seq<Token> {
    [StartObject] + MembersTokens(members) + [EndObject]
  }

  /** Reads the raw values of an array up to its EndArray; returns them and what follows. */
  function ReadRawValues(ts: seq<Token>): Option<(seq<Value>, seq<Token>)>
    decreases |ts|
  {
    if |ts| == 0 then None
    else match ts[0]
      case EndArray => Some(([], ts[1..]))
      case RawValue(v) =>
        (match ReadRawValues(ts[1..])
         case None => None
         case Some(p) => Some(([v] + p.0, p.1)))
      case _ => None
  }

  /** Reads the one property at the front of `ts`; returns it and what follows. */
  function ReadProperty(ts: seq<Token>): Option<((string, Value), seq<Token>)>
    requires |ts| > 0
  {
    match ts[0]
    case NumberProperty(k, n) => Some(((k, JInteger(n)), ts[1..]))
    case StringProperty(k, s) => Some(((k, JString(s)), ts[1..]))
    case NullProperty(k) => Some(((k, JNull), ts[1..]))
    case PropertyName(k) =>
      if |ts| >= 2 && ts[1].RawValue? then Some(((k, ts[1].v), ts[2..])) else None
    case StartArray(k) =>
      (match ReadRawValues(ts[1..])
       case None => None
       case Some(p) => Some(((k, JArray(p.0)), p.1)))
    case _ => None
  }

  /** Reads properties up to the EndObject that closes them; returns them and what follows. */
  function ReadMembers(ts: seq<Token>): Option<(seq<(string, Value)>, seq<Token>)>
    decreases |ts|
  {
    if |ts| == 0 then None
    else if ts[0] == EndObject then Some(([], ts[1..]))
    else match ReadProperty(ts)
      case None => None
      case Some(h) =>
        if |h.1| < |ts| then
          match ReadMembers(h.1)
          case None => None
          case Some(m) => Some(([h.0] + m.0, m.1))
        else None
  }

  /** The object a complete sequence of writer calls denotes, if it denotes one. */
  function Assemble(ts: seq<Token>): (r: Option<Value>)
    ensures r.Some? ==> r.value.JObject? && |ts| >= 2 && ts[0] == StartObject
  {
    if |ts| > 0 && ts[0] == StartObject then
      match ReadMembers(ts[1..])
      case Some(m) => if m.1 == [] then Some(JObject(m.0)) else None
      case None => None
    else None
  }

  lemma {:induction false} ReadRawValuesOf(items: seq<Value>, rest: seq<Token>)
    ensures ReadRawValues(RawValues(items) + [EndArray] + rest) == Some((items, rest))
  {
    var ts := RawValues(items) + [EndArray] + rest;
    if |items| == 0 {
      assert ts == [EndArray] + rest;
    } else {
      assert ts[0] == RawValue(items[0]);
      assert ts[1..] == RawValues(items[1..]) + [EndArray] + rest;
      ReadRawValuesOf(items[1..], rest);
      assert [items[0]] + items[1..] == items;
    }
  }

  /** The calls that write one property read back as that property. */
  lemma ReadPropertyTokens(key: string, v: Value, rest: seq<Token>)
    ensures |PropertyTokens(key, v) + rest| > 0
    ensures ReadProperty(PropertyTokens(key, v) + rest) == Some(((key, v), rest))
  {
    var ts := PropertyTokens(key, v) + rest;
    match v
    case JArray(items) =>
      assert ts[1..] == RawValues(items) + [EndArray] + rest;
      ReadRawValuesOf(items, rest);
    case JInteger(_) =>
      assert ts[1..] == rest;
    case JString(_) =>
      assert ts[1..] == rest;
    case JNull =>
      assert ts[1..] == rest;
    case _ =>
      assert ts[2..] == rest;
  }

  lemma ReadPropertyOf(key: string, v: Value, rest: seq<Token>)
    ensures ReadMembers(PropertyTokens(key, v) + rest) ==
            match ReadMembers(rest)
            case None => None
            case Some(m) => Some(([(key, v)] + m.0, m.1))
  {
    var ts := PropertyTokens(key, v) + rest;
    ReadPropertyTokens(key, v, rest);
    assert ts[0] != EndObject;
  }

  lemma {:induction false} ReadMembersOf(members: seq<(string, Value)>, rest: seq<Token>)
    ensures ReadMembers(MembersTokens(members) + [EndObject] + rest) == Some((members, rest))
  {
    if |members| == 0 {
      assert MembersTokens(members) + [EndObject] + rest == [EndObject] + rest;
    } else {
      var tail := MembersTokens(members[1..]) + [EndObject] + rest;
      assert MembersTokens(members) + [EndObject] + rest == PropertyTokens(members[0].0, members[0].1) + tail;
      ReadPropertyOf(members[0].0, members[0].1, tail);
      ReadMembersOf(members[1..], rest);
      assert [members[0]] + members[1..] == members;
    }
  }

  /** The calls that write an object denote exactly that object: nothing is lost or reordered. */
  lemma AssembleObjectTokens(members: seq<(string, Value)>)
    ensures Assemble(ObjectTokens(members)) == Some(JObject(members))
  {
    var ts := ObjectTokens(members);
    assert ts[1..] == MembersTokens(members) + [EndObject] + [];
    ReadMembersOf(members, []);
  }

  /** `Utf8JsonWriter`, modelled by the sequence of calls made on it so far. */
  class Utf8JsonWriter {
    var tokens: seq<Token>

    constructor ()
      ensures tokens == []
    {
      tokens := [];
    }

    method WriteStartObject()
      modifies this
      ensures tokens == old(tokens) + [StartObject]
    {
      tokens := tokens + [StartObject];
    }

    method WriteEndObject()
      modifies this
      ensures tokens == old(tokens) + [EndObject]
    {
      tokens := tokens + [EndObject];
    }

    method WriteStartArray(key: string)
      modifies this
      ensures tokens == old(tokens) + [StartArray(key)]
    {
      tokens := tokens + [StartArray(key)];
    }

    method WriteEndArray()
      modifies this
      ensures tokens == old(tokens) + [EndArray]
    {
      tokens := tokens + [EndArray];
    }

    method WriteNumber(key: string, n: int)
      modifies this
      ensures tokens == old(tokens) + [NumberProperty(key, n)]
    {
      tokens := tokens + [NumberProperty(key, n)];
    }

    /** `WriteString(key, value)`; a null value is written as JSON null. */
    method WriteString(key: string, value: Option<string>)
      modifies this
      ensures tokens == old(tokens) + [if value.Some? then StringProperty(key, value.value) else NullProperty(key)]
    {
      tokens := tokens + [if value.Some? then StringProperty(key, value.value) else NullProperty(key)];
    }

    method WriteRawValue(v: Value)
      modifies this
      ensures tokens == old(tokens) + [RawValue(v)]
    {
      tokens := tokens + [RawValue(v)];
    }
  }
}
