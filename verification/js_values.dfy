/**
  The slice of JavaScript the debugger consoles rely on: plain values, thrown
  errors, property access on records, `String(...)` coercion, decimal printing
  of integers, and the JSON/SDK helpers the model treats as uninterpreted.
 */
module Js {

  datatype Option<+T> = None | Some(value: T)

  /** A JavaScript value the model can look into. Values the consoles never
      inspect (SDK results, parsed JSON, deserialized transactions) range over
      all of these. */
  datatype Value =
    | Undefined
    | Null
    | Bool(b: bool)
    | Num(n: int)
    | Str(s: string)
    | Arr(items: seq<Value>)
    | Obj(props: seq<Prop>)

  /** One own enumerable property of an object, in insertion order. */
  datatype Prop = Prop(key: string, val: Value)

  /** A thrown `Error` (or subclass): its `name` and `message`. */
  datatype JsError = JsError(name: string, message: string)

  /** What a synchronous evaluation or a settled promise produced. */
  datatype Outcome<+T> = Ok(value: T) | Thrown(error: JsError) {
    predicate IsFailure() {
      Thrown?
    }

    function PropagateFailure<U>(): Outcome<U>
      requires Thrown?
    {
      Thrown(error)
    }

    function Extract(): T
      requires Ok?
    {
      value
    }
  }

  /** JavaScript truthiness (`if (x)`). */
  predicate Truthy(v: Value) {
    match v
    case Undefined => false
    case Null => false
    case Bool(b) => b
    case Num(n) => n != 0
    case Str(s) => s != ""
    case Arr(_) => true
    case Obj(_) => true
  }

  function Keys(props: seq<Prop>): (ks: seq<string>)
    ensures |ks| == |props|
    ensures forall i :: 0 <= i < |props| ==> ks[i] == props[i].key
  {
    if props == [] then [] else [props[0].key] + Keys(props[1..])
  }

  /** The value stored under `key`; the first property wins. */
  function Lookup(props: seq<Prop>, key: string): (r: Option<Value>)
    ensures r.None? <==> key !in Keys(props)
    ensures r.Some? ==> Prop(key, r.value) in props
  {
    if props == [] then None
    else if props[0].key == key then Some(props[0].val)
    else Lookup(props[1..], key)
  }

  /** `{...props, [key]: v}`: an existing key keeps its position and takes the
      new value, a new key goes last. */
  function SetProp(props: seq<Prop>, key: string, v: Value): seq<Prop>
  {
    if props == [] then [Prop(key, v)]
    else if props[0].key == key then [Prop(key, v)] + props[1..]
    else [props[0]] + SetProp(props[1..], key, v)
  }

  lemma {:induction false} SetPropLookup(props: seq<Prop>, key: string, v: Value, other: string)
    ensures Lookup(SetProp(props, key, v), key) == Some(v)
    ensures other != key ==> Lookup(SetProp(props, key, v), other) == Lookup(props, other)
  {
    if props != [] && props[0].key != key {
      SetPropLookup(props[1..], key, v, other);
      assert SetProp(props, key, v) == [props[0]] + SetProp(props[1..], key, v);
    }
  }

  /** `SetProp` at every other key at once. */
  lemma SetPropLookupAll(props: seq<Prop>, key: string, v: Value)
    ensures Lookup(SetProp(props, key, v), key) == Some(v)
    ensures forall other :: other != key ==> Lookup(SetProp(props, key, v), other) == Lookup(props, other)
  {
    SetPropLookup(props, key, v, key);
    forall other | other != key
      ensures Lookup(SetProp(props, key, v), other) == Lookup(props, other)
    {
      SetPropLookup(props, key, v, other);
    }
  }

  lemma {:induction false} SetPropKeys(props: seq<Prop>, key: string, v: Value)
    ensures key in Keys(props) ==> Keys(SetProp(props, key, v)) == Keys(props)
    ensures key !in Keys(props) ==> Keys(SetProp(props, key, v)) == Keys(props) + [key]
  {
    if props == [] {
    } else if props[0].key == key {
      var t := SetProp(props, key, v);
      assert t == [Prop(key, v)] + props[1..];
      assert Keys(t) == [key] + Keys(t[1..]);
      assert t[1..] == props[1..];
      assert Keys(props) == [key] + Keys(props[1..]);
    } else {
      SetPropKeys(props[1..], key, v);
      var t := SetProp(props, key, v);
      assert t == [props[0]] + SetProp(props[1..], key, v);
      assert t[1..] == SetProp(props[1..], key, v);
      assert Keys(t) == [props[0].key] + Keys(t[1..]);
      assert Keys(props) == [props[0].key] + Keys(props[1..]);
    }
  }

  /** V8's message for reading a property of `null` or `undefined`. */
  function NullPropertyError(holder: string, key: string): JsError {
    JsError("TypeError", "Cannot read properties of " + holder + " (reading '" + key + "')")
  }

  /** `v.key` for a named property: `undefined` and `null` throw a TypeError;
      primitives and arrays carry no named properties the consoles read. */
  function GetProp(v: Value, key: string): (r: Outcome<Value>)
    ensures r.Thrown? <==> v.Undefined? || v.Null?
    ensures v.Obj? && key in Keys(v.props) ==> r == Ok(Lookup(v.props, key).value)
    ensures v.Obj? && key !in Keys(v.props) ==> r == Ok(Undefined)
  {
    match v
    case Undefined => Thrown(NullPropertyError("undefined", key))
    case Null => Thrown(NullPropertyError("null", key))
    case Obj(props) =>
      (match Lookup(props, key)
       case Some(x) => Ok(x)
       case None => Ok(Undefined))
    case _ => Ok(Undefined)
  }

  predicate IsDigit(c: char) {
    '0' <= c <= '9'
  }

  function DigitChar(d: nat): (c: char)
    requires d < 10
    ensures IsDigit(c)
  {
    ['0', '1', '2', '3', '4', '5', '6', '7', '8', '9'][d]
  }

  function DigitValue(c: char): (d: nat)
    requires IsDigit(c)
    ensures d < 10
  {
    (c as int - '0' as int) as nat
  }

  /** The decimal text of a natural number, as `${n}` prints it. */
  function NatToDecimal(n: nat): (s: string)
    ensures |s| >= 1
    ensures forall i :: 0 <= i < |s| ==> IsDigit(s[i])
    ensures s[0] == '0' ==> n == 0 && s == "0"
  {
    if n < 10 then [DigitChar(n)] else NatToDecimal(n / 10) + [DigitChar(n % 10)]
  }

  /** The number a string of decimal digits denotes. */
  function DecimalValue(s: string): nat
    requires forall i :: 0 <= i < |s| ==> IsDigit(s[i])
  {
    if s == [] then 0 else DecimalValue(s[..|s| - 1]) * 10 + DigitValue(s[|s| - 1])
  }

  lemma {:induction false} DecimalRoundTrip(n: nat)
    ensures DecimalValue(NatToDecimal(n)) == n
  {
    var s := NatToDecimal(n);
    if n < 10 {
      assert s[..|s| - 1] == [];
    } else {
      DecimalRoundTrip(n / 10);
      assert s[..|s| - 1] == NatToDecimal(n / 10);
      assert s[|s| - 1] == DigitChar(n % 10);
    }
  }

  function IntToDecimal(i: int): string {
    if i < 0 then "-" + NatToDecimal(-i) else NatToDecimal(i)
  }

  function Join(parts: seq<string>, sep: string): string {
    if parts == [] then ""
    else if |parts| == 1 then parts[0]
    else parts[0] + sep + Join(parts[1..], sep)
  }

  /** `String(v)`; array elements that are `null` or `undefined` print empty. */
  function ToJsString(v: Value): string
    decreases v
  {
    match v
    case Undefined => "undefined"
    case Null => "null"
    case Bool(b) => if b then "true" else "false"
    case Num(n) => IntToDecimal(n)
    case Str(s) => s
    case Arr(items) => Join(ElementStrings(items), ",")
    case Obj(_) => "[object Object]"
  }

  function ElementStrings(items: seq<Value>): seq<string>
    decreases items
  {
    if items == [] then []
    else [if items[0].Undefined? || items[0].Null? then "" else ToJsString(items[0])] + ElementStrings(items[1..])
  }

  /** `String(error)` for an Error, following `Error.prototype.toString`. */
  function ErrorToString(e: JsError): (s: string)
    ensures e.name != "" && e.message != "" ==> s == e.name + ": " + e.message
    ensures e.name == "" ==> s == e.message
    ensures e.message == "" ==> s == e.name
  {
    if e.name == "" then e.message
    else if e.message == "" then e.name
    else e.name + ": " + e.message
  }

  /** The helpers the consoles call but this model does not interpret. */
  datatype Env = Env(
    parseText: string -> Outcome<Value>,      // JSON.parse on a non-empty text
    deserialize: Value -> Outcome<Value>,     // deserializeTransaction
    stringify: (Value, nat) -> string)        // JSON.stringify(v, null, indent)

  const EmptyJsonError := JsError("SyntaxError", "Unexpected end of JSON input")

  /** `JSON.parse(text)`: the empty text never parses. */
  function ParseJson(env: Env, text: string): (r: Outcome<Value>)
    ensures text == "" ==> r.Thrown?
    ensures text != "" ==> r == env.parseText(text)
  {
    if text == "" then Thrown(EmptyJsonError) else env.parseText(text)
  }

  /** `JSON.parse(v)` for any value: its argument is first coerced to a string. */
  function ParseJsonValue(env: Env, v: Value): Outcome<Value> {
    ParseJson(env, ToJsString(v))
  }
}
