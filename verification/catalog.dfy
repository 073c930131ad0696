/**
  The static method catalog of the second-generation console (`getHandlers`):
  nine SDK methods, their input slots, default texts and modifiers, with an
  extra trailing "mock" slot on three of them when the mock flag is set.
 */
module Catalog {
  import opened Js
  import opened Types

  /** The constants the catalog captures but this model does not look into:
      each JSON fixture pretty-printed with three-space indentation, and the
      SDK's three `ExchangeType` values. */
  datatype Fixtures = Fixtures(
    listCurrencyParameters: string,
    requestAccountParameters: string,
    signTransactionTransaction: string,
    signTransactionParameters: string,
    signTransactionMock: string,
    broadcastSignedTransaction: string,
    broadcastSignedTransactionMock: string,
    completeExchangeParameters: string,
    signMessageMock: string,
    swap: Value,
    fund: Value,
    sell: Value)

  /** A JSON editor slot with a default text and a modifier. */
  function JsonInput(name: string, modifier: Modifier, defaultText: string): Parameter {
    Parameter(name, JsonTextArea, Some(defaultText), None, Some(modifier))
  }

  /** An account selector slot: no default, no modifier. */
  const AccountInput := Parameter("account", AccountSelector, None, None, None)

  function MockInput(defaultText: string): Parameter {
    JsonInput("mock", JsonParse, defaultText)
  }

  function SignTransactionBaseInputs(fx: Fixtures): seq<Parameter> {
    [ AccountInput,
      JsonInput("transaction", ParseTransaction, fx.signTransactionTransaction),
      JsonInput("parameters", JsonParse, fx.signTransactionParameters) ]
  }

  function BroadcastSignedTransactionBaseInputs(fx: Fixtures): seq<Parameter> {
    [ AccountInput,
      JsonInput("signed transaction", JsonParse, fx.broadcastSignedTransaction) ]
  }

  function SignMessageBaseInputs(): seq<Parameter> {
    [ AccountInput,
      JsonInput("message", Identity, "Message de test") ]
  }

  function ExchangeTypeOptions(fx: Fixtures): seq<SelectOption> {
    [ SelectOption(fx.swap, "Swap"), SelectOption(fx.fund, "Fund"), SelectOption(fx.sell, "Sell") ]
  }

  /** `inputs` of a mock-capable method: the base slots, plus "mock" when the flag is set. */
  function WithMock(base: seq<Parameter>, isMock: bool, mockText: string): seq<Parameter> {
    if !isMock then base else base + [MockInput(mockText)]
  }

  ghost predicate IdsDistinct(hs: seq<MethodHandler>) {
    forall i, j :: 0 <= i < j < |hs| ==> hs[i].id != hs[j].id
  }

  /** Slot `k` of `h` is an account selector only when bare, carries a default
      text only when a JSON editor, and has a modifier only when a JSON editor;
      that modifier is the identity exactly for the message of `signMessage`,
      deserializes exactly for the transaction of `signTransaction`, and
      otherwise parses JSON. */
  ghost predicate SlotOk(h: MethodHandler, k: nat)
    requires k < |h.inputs|
  {
    var p := h.inputs[k];
    (p.component == AccountSelector ==> p.defaultValue.None? && p.modifier.None?) &&
    (p.defaultValue.Some? ==> p.component == JsonTextArea) &&
    (p.modifier.Some? ==>
       p.component == JsonTextArea &&
       (p.modifier.value == Identity <==> h.id == "signMessage" && p.name == "message") &&
       (p.modifier.value == ParseTransaction <==> h.id == "signTransaction" && p.name == "transaction"))
  }

  ghost predicate AllSlotsOk(hs: seq<MethodHandler>) {
    forall i, k :: 0 <= i < |hs| && 0 <= k < |hs[i].inputs| ==> SlotOk(hs[i], k)
  }

  /** The catalog's ids, in catalog order. */
  const MethodIds: seq<string> := [
    "listCurrencies", "listAccounts", "requestAccount", "verifyAddress", "signTransaction",
    "broadcastSignedTransaction", "startExchange", "completeExchange", "signMessage"]

  const SignTransactionIndex := 4
  const BroadcastSignedTransactionIndex := 5
  const StartExchangeIndex := 6
  const SignMessageIndex := 8

  /** The methods with a "mock" slot under the mock flag. */
  predicate MockCapable(i: nat) {
    i == SignTransactionIndex || i == BroadcastSignedTransactionIndex || i == SignMessageIndex
  }

  /** `getHandlers(sdk, isMock)`. */
  function GetHandlers(fx: Fixtures, isMock: bool): (hs: seq<MethodHandler>)
    ensures |hs| == 9
    ensures forall i :: 0 <= i < 9 ==> hs[i].id == MethodIds[i]
    ensures hs[1].inputs == []
    ensures hs[3].inputs == [AccountInput]
  {
    [ MethodHandler("listCurrencies", "List currencies", "List all supported currencies",
        [JsonInput("parameters", JsonParse, fx.listCurrencyParameters)],
        Bound("listCurrencies")),
      MethodHandler("listAccounts", "List accounts", "List all user accounts",
        [],
        Bound("listAccounts")),
      MethodHandler("requestAccount", "Request an Account",
        "Display a Native UI and have the user select an account",
        [JsonInput("parameters", JsonParse, fx.requestAccountParameters)],
        Bound("requestAccount")),
      MethodHandler("verifyAddress", "Verify an address",
        "Display a Native UI and have the user verifying an address using his Hardware Wallet",
        [AccountInput],
        Bound("receive")),
      MethodHandler("signTransaction", "Sign a transaction",
        "Display a Native UI and have the user signing a transaction using his Hardware Wallet",
        WithMock(SignTransactionBaseInputs(fx), isMock, fx.signTransactionMock),
        Bound("signTransaction")),
      MethodHandler("broadcastSignedTransaction", "Broadcast a signed transaction",
        "Broadcast a transaction signed with the `signTransaction` method",
        WithMock(BroadcastSignedTransactionBaseInputs(fx), isMock, fx.broadcastSignedTransactionMock),
        Bound("broadcastSignedTransaction")),
      MethodHandler("startExchange", "Start an Exchange Process",
        "Start a secure end to end process with a trusted third party",
        [Parameter("Exchange Type", ValueSelector, None, Some(ExchangeTypeOptions(fx)), None)],
        WrapExchangeType),
      MethodHandler("completeExchange", "Complete an Exchange Process",
        "Complete a secure end to end process with a trusted third party",
        [JsonInput("parameters", JsonParse, fx.completeExchangeParameters)],
        Bound("completeExchange")),
      MethodHandler("signMessage", "Sign a message",
        "Display a Native UI and have the user signing a message using his Hardware Wallet",
        WithMock(SignMessageBaseInputs(), isMock, fx.signMessageMock),
        Bound("signMessage")) ]
  }

  /** `handlers.find(h => h.id === id)`, as the position of the first match. */
  function FindHandler(hs: seq<MethodHandler>, id: string): (r: Option<nat>)
    ensures r.Some? ==> r.value < |hs| && hs[r.value].id == id
    ensures r.Some? ==> forall j :: 0 <= j < r.value ==> hs[j].id != id
    ensures r.None? <==> forall j :: 0 <= j < |hs| ==> hs[j].id != id
  {
    FindFrom(hs, id, 0)
  }

  function FindFrom(hs: seq<MethodHandler>, id: string, from: nat): (r: Option<nat>)
    requires from <= |hs|
    requires forall j :: 0 <= j < from ==> hs[j].id != id
    ensures r.Some? ==> from <= r.value < |hs| && hs[r.value].id == id
    ensures r.Some? ==> forall j :: 0 <= j < r.value ==> hs[j].id != id
    ensures r.None? <==> forall j :: 0 <= j < |hs| ==> hs[j].id != id
    decreases |hs| - from
  {
    if from == |hs| then None
    else if hs[from].id == id then Some(from)
    else FindFrom(hs, id, from + 1)
  }

  /** With distinct ids, looking up the id of the method at position `i` finds `i`. */
  lemma FindHandlerOfOwnId(hs: seq<MethodHandler>, i: nat)
    requires IdsDistinct(hs)
    requires i < |hs|
    ensures FindHandler(hs, hs[i].id) == Some(i)
  {
  }

  /** The catalog's ids are pairwise distinct, its first method (the console's
      initial selection) is `listCurrencies`, `listAccounts` takes no slot and
      `verifyAddress` takes one bare account selector. */
  lemma CatalogShape(fx: Fixtures, isMock: bool)
    ensures var hs := GetHandlers(fx, isMock);
            IdsDistinct(hs) &&
            hs[0].id == "listCurrencies" &&
            hs[1].id == "listAccounts" && hs[1].inputs == [] &&
            hs[3].id == "verifyAddress" && |hs[3].inputs| == 1 &&
            hs[3].inputs[0].component == AccountSelector &&
            hs[3].inputs[0].defaultValue.None? && hs[3].inputs[0].modifier.None?
  {
    var hs := GetHandlers(fx, isMock);
    forall i, j | 0 <= i < j < |hs|
      ensures hs[i].id != hs[j].id
    {
      assert hs[i].id == MethodIds[i] && hs[j].id == MethodIds[j];
    }
  }

  /** Account selectors are bare, only JSON editors carry default texts, and
      the modifiers are exactly the declared ones. */
  lemma CatalogSlots(fx: Fixtures, isMock: bool)
    ensures AllSlotsOk(GetHandlers(fx, isMock))
  {
    var hs := GetHandlers(fx, isMock);
    forall i, k | 0 <= i < |hs| && 0 <= k < |hs[i].inputs|
      ensures SlotOk(hs[i], k)
    {
      if i == SignTransactionIndex {
        assert k < 3 || (isMock && k == 3);
      } else if i == BroadcastSignedTransactionIndex || i == SignMessageIndex {
        assert k < 2 || (isMock && k == 2);
      }
    }
  }

  /** Under the mock flag, exactly the three mock-capable methods gain one
      trailing "mock" slot parsed as JSON; their base slots are an unchanged
      prefix and every other method's slots do not depend on the flag. */
  lemma MockExtendsThreeMethods(fx: Fixtures, i: nat)
    requires i < 9
    ensures var live := GetHandlers(fx, false)[i];
            var mock := GetHandlers(fx, true)[i];
            live.id == mock.id &&
            (MockCapable(i) ==>
               |mock.inputs| == |live.inputs| + 1 &&
               mock.inputs[..|live.inputs|] == live.inputs &&
               mock.inputs[|live.inputs|].name == "mock" &&
               mock.inputs[|live.inputs|].modifier == Some(JsonParse)) &&
            (!MockCapable(i) ==> mock.inputs == live.inputs)
  {
    var live := GetHandlers(fx, false)[i];
    var mock := GetHandlers(fx, true)[i];
    if MockCapable(i) {
      assert mock.inputs == live.inputs + [mock.inputs[|live.inputs|]];
    }
  }

  /** Without the mock flag, `signTransaction` takes account, transaction and
      parameters, in that order. */
  lemma SignTransactionSlots(fx: Fixtures)
    ensures var h := GetHandlers(fx, false)[SignTransactionIndex];
            h.id == "signTransaction" &&
            |h.inputs| == 3 &&
            h.inputs[0].name == "account" && h.inputs[0].component == AccountSelector &&
            h.inputs[1].name == "transaction" && h.inputs[2].name == "parameters"
  {
  }

  /** `startExchange` has one select slot offering Swap, Fund and Sell in that
      order, with no modifier, and forwards its raw value as `{exchangeType}`. */
  lemma StartExchangeSlot(fx: Fixtures, isMock: bool, raw: Value)
    ensures var h := GetHandlers(fx, isMock)[StartExchangeIndex];
            h.id == "startExchange" &&
            |h.inputs| == 1 &&
            h.inputs[0].modifier.None? &&
            h.inputs[0].component == ValueSelector &&
            h.inputs[0].options == Some([SelectOption(fx.swap, "Swap"), SelectOption(fx.fund, "Fund"),
                                         SelectOption(fx.sell, "Sell")]) &&
            Invoke(h.handler, [raw]) == SdkRequest("startExchange", [Obj([Prop("exchangeType", raw)])])
  {
  }
}
