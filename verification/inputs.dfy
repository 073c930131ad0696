/**
  The per-method slot vector of the second-generation console: reset to the
  descriptors' defaults, edited one slot at a time, and turned into the
  argument vector by applying each slot's modifier.
 */
module Inputs {
  import opened Js
  import opened Types

  /** The raw value a slot starts from: its default text, or `undefined`. */
  function DefaultOf(p: Parameter): Value {
    match p.defaultValue
    case Some(text) => Str(text)
    case None => Undefined
  }

  /** `handler.inputs.map((input) => input.defaultValue)`. */
  function DefaultValues(inputs: seq<Parameter>): (vs: seq<Value>)
    ensures |vs| == |inputs|
    ensures forall k :: 0 <= k < |inputs| ==> vs[k] == DefaultOf(inputs[k])
  {
    if inputs == [] then [] else [DefaultOf(inputs[0])] + DefaultValues(inputs[1..])
  }

  /** `newValues[i] = v` on a copy: an index past the end grows the vector,
      and the gap reads as `undefined`. */
  function EditSlot(values: seq<Value>, i: nat, v: Value): (r: seq<Value>)
    ensures |r| == if i < |values| then |values| else i + 1
    ensures r[i] == v
    ensures forall j :: 0 <= j < |values| && j != i ==> r[j] == values[j]
    ensures forall j :: |values| <= j < i ==> r[j] == Undefined
  {
    if i < |values| then values[i := v]
    else values + seq(i - |values|, _ => Undefined) + [v]
  }

  /** One modifier applied to one raw value; an absent modifier passes it on. */
  function ApplyModifier(env: Env, m: Option<Modifier>, v: Value): (r: Outcome<Value>)
    ensures m.None? || m == Some(Identity) ==> r == Ok(v)
    ensures m == Some(JsonParse) ==> r == ParseJsonValue(env, v)
    ensures m == Some(ParseTransaction) && ParseJsonValue(env, v).Thrown? ==> r == ParseJsonValue(env, v)
    ensures m == Some(ParseTransaction) && ParseJsonValue(env, v).Ok? ==>
              r == env.deserialize(ParseJsonValue(env, v).value)
  {
    match m
    case None => Ok(v)
    case Some(Identity) => Ok(v)
    case Some(JsonParse) => ParseJsonValue(env, v)
    case Some(ParseTransaction) =>
      var parsed :- ParseJsonValue(env, v);
      env.deserialize(parsed)
  }

  /** Reading `inputs[index].modifier` past the descriptors. */
  const MissingSlotError := NullPropertyError("undefined", "modifier")

  /** What slot `k` contributes to the argument vector. */
  function SlotArgument(env: Env, inputs: seq<Parameter>, values: seq<Value>, k: nat): Outcome<Value>
    requires k < |values|
  {
    if k < |inputs| then ApplyModifier(env, inputs[k].modifier, values[k]) else Thrown(MissingSlotError)
  }

  /** The argument vector of the first `n` slots, or the first slot failure. */
  function ComposePrefix(env: Env, inputs: seq<Parameter>, values: seq<Value>, n: nat): (r: Outcome<seq<Value>>)
    requires n <= |values|
    ensures r.Ok? <==> forall k :: 0 <= k < n ==> SlotArgument(env, inputs, values, k).Ok?
    ensures r.Ok? ==> |r.value| == n
    ensures r.Ok? ==> forall k :: 0 <= k < n ==> SlotArgument(env, inputs, values, k) == Ok(r.value[k])
    ensures r.Thrown? ==> exists k :: 0 <= k < n && SlotArgument(env, inputs, values, k) == Thrown(r.error) &&
                                      forall j :: 0 <= j < k ==> SlotArgument(env, inputs, values, j).Ok?
  {
    if n == 0 then Ok([])
    else
      match ComposePrefix(env, inputs, values, n - 1)
      case Thrown(e) => Thrown(e)
      case Ok(args) =>
        match SlotArgument(env, inputs, values, n - 1)
        case Thrown(e) => Thrown(e)
        case Ok(a) => Ok(args + [a])
  }

  /** `values.map((value, index) => modifier ? modifier(value) : value)`: all
      slots transformed in order, or the failure of the first slot that fails. */
  function Compose(env: Env, inputs: seq<Parameter>, values: seq<Value>): (r: Outcome<seq<Value>>)
    ensures r.Ok? <==> forall k :: 0 <= k < |values| ==> SlotArgument(env, inputs, values, k).Ok?
    ensures r.Ok? ==> |r.value| == |values|
    ensures r.Ok? ==> forall k :: 0 <= k < |values| ==> SlotArgument(env, inputs, values, k) == Ok(r.value[k])
    ensures r.Thrown? ==> exists k :: 0 <= k < |values| && SlotArgument(env, inputs, values, k) == Thrown(r.error) &&
                                      forall j :: 0 <= j < k ==> SlotArgument(env, inputs, values, j).Ok?
  {
    ComposePrefix(env, inputs, values, |values|)
  }

  /** Slots without a transforming modifier hand their raw values straight to
      the call: a vector no longer than the descriptors composes to itself. */
  lemma ComposeWithoutModifiers(env: Env, inputs: seq<Parameter>, values: seq<Value>)
    requires |values| <= |inputs|
    requires forall k :: 0 <= k < |inputs| ==> inputs[k].modifier.None? || inputs[k].modifier == Some(Identity)
    ensures Compose(env, inputs, values) == Ok(values)
  {
    var r := Compose(env, inputs, values);
    assert forall k :: 0 <= k < |values| ==> SlotArgument(env, inputs, values, k) == Ok(values[k]);
    assert r.value == values;
  }

  /** A vector longer than the descriptors never reaches the call: the first
      extra slot fails unless an earlier slot already did. */
  lemma ComposeOverlongFails(env: Env, inputs: seq<Parameter>, values: seq<Value>)
    requires |values| > |inputs|
    ensures Compose(env, inputs, values).Thrown?
  {
    assert SlotArgument(env, inputs, values, |inputs|).Thrown?;
  }
}
