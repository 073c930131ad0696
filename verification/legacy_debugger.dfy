/**
  The first-generation, single-shot debugger page: pick one of six actions,
  optionally an account and a JSON payload, execute it, and show the last
  answer with its status (none, pending, success or error).
 */
module Legacy {
  import opened Js
  import opened Types
  import Placeholder

  /** An action's `usePayload`: absent, `true` (an editable payload), or an
      object that is written into the editor when the action is chosen. */
  datatype UsePayload = NoPayload | EditablePayload | PresetPayload(preset: Value)

  datatype Action = Action(value: string, caption: string, useAccount: bool, usePayload: UsePayload)

  /** `PAYLOAD_BROADCAST`. */
  const PayloadBroadcast: Value :=
    Obj([Prop("accountId", Str("ACCOUNT_ID")),
         Prop("signedTransaction", Obj([Prop("operation", Obj([])),
                                        Prop("signature", Str("SIGNATURE")),
                                        Prop("expirationDate", Null)]))])

  /** `ACTIONS`, in menu order. */
  const Actions: seq<Action> := [
    Action("account.list", "List Accounts", false, NoPayload),
    Action("account.request", "Request Account", false, EditablePayload),
    Action("account.receive", "Verify Address", true, NoPayload),
    Action("transaction.sign", "Sign Transaction", true, EditablePayload),
    Action("transaction.broadcast", "Broadcast Transaction", true, PresetPayload(PayloadBroadcast)),
    Action("currency.list", "List Currencies", false, EditablePayload)
  ]

  const SignAction := "transaction.sign"

  /** The `answerType` strings "none", "pending", "success" and "error". */
  datatype AnswerType = AnswerNone | AnswerPending | AnswerSuccess | AnswerError

  /** The page's state: whether the SDK client is connected (`api.current`),
      the last answer and its type, the chosen action, the listed accounts,
      the selected account, the payload text and the full-transaction switch. */
  datatype Page = Page(
    connected: bool,
    lastAnswer: Value,
    answerType: AnswerType,
    action: Action,
    accounts: Value,
    account: Value,
    rawPayload: string,
    useFullTx: bool)

  /** The page on first render, before the mount effect has connected. */
  const InitialPage := Page(false, Undefined, AnswerNone, Actions[0], Arr([]), Null, "", false)

  /** The mount effect: a client is created and connected. */
  function Connect(page: Page): (p: Page)
    ensures p.connected && p.(connected := page.connected) == page
  {
    page.(connected := true)
  }

  /** The unmount cleanup: the client reference is cleared. */
  function Disconnect(page: Page): (p: Page)
    ensures !p.connected && p.(connected := page.connected) == page
  {
    page.(connected := false)
  }

  /** The promise `execute` awaits: an already rejected one, an SDK call, or
      `Promise.resolve()`. */
  datatype Pending = Rejects(error: JsError) | Calls(request: SdkRequest) | ResolvesUndefined

  const NoAccountError := JsError("Error", "No accountId selected")

  /** `rawPayload ? JSON.parse(rawPayload) : undefined`. */
  function ParseOptionalPayload(env: Env, raw: string): (r: Outcome<Value>)
    ensures raw == "" ==> r == Ok(Undefined)
    ensures raw != "" ==> r == env.parseText(raw)
  {
    if raw == "" then Ok(Undefined) else ParseJson(env, raw)
  }

  /** `v?.key`: a nullish holder gives `undefined` instead of throwing. */
  function OptionalGet(v: Value, key: string): (r: Outcome<Value>)
    ensures r.Ok?
    ensures !(v.Undefined? || v.Null?) ==> r == GetProp(v, key)
  {
    if v.Undefined? || v.Null? then Ok(Undefined) else GetProp(v, key)
  }

  /** A `try` block around building the call: whatever it throws becomes
      `Promise.reject(error)`. */
  function Caught(o: Outcome<SdkRequest>): (p: Pending)
    ensures o.Ok? <==> p.Calls?
    ensures o.Ok? ==> p == Calls(o.value)
    ensures o.Thrown? ==> p == Rejects(o.error)
  {
    match o
    case Ok(req) => Calls(req)
    case Thrown(e) => Rejects(e)
  }

  /** The `transaction.sign` branch, in JavaScript's evaluation order:
      parse, `.transaction`, deserialise, `account.id`, `payload?.params`. */
  function SignRequest(env: Env, page: Page): Outcome<SdkRequest> {
    var payload :- ParseJson(env, page.rawPayload);
    var rawTx :- GetProp(payload, "transaction");
    var tx :- env.deserialize(rawTx);
    var id :- GetProp(page.account, "id");
    var params :- OptionalGet(payload, "params");
    Ok(SdkRequest("signTransaction", [id, tx, params]))
  }

  /** The `transaction.broadcast` branch: parse, then `account.id`. */
  function BroadcastRequest(env: Env, page: Page): Outcome<SdkRequest> {
    var signed :- ParseJson(env, page.rawPayload);
    var id :- GetProp(page.account, "id");
    Ok(SdkRequest("broadcastSignedTransaction", [id, signed]))
  }

  /** An SDK method taking the optional parsed payload as its only argument. */
  function OptionalPayloadRequest(env: Env, page: Page, sdkMethod: string): Outcome<SdkRequest> {
    var payload :- ParseOptionalPayload(env, page.rawPayload);
    Ok(SdkRequest(sdkMethod, [payload]))
  }

  /** The SDK method each action reaches when its call goes out. */
  function SdkMethodOf(actionValue: string): Option<string> {
    match actionValue
    case "account.list" => Some("listAccounts")
    case "account.request" => Some("requestAccount")
    case "account.receive" => Some("receive")
    case "transaction.sign" => Some("signTransaction")
    case "transaction.broadcast" => Some("broadcastSignedTransaction")
    case "currency.list" => Some("listCurrencies")
    case _ => None
  }

  /** The `switch (method.value)` of `execute`: a call goes only to the
      action's own SDK method, a value outside the table resolves without a
      call, and the parameterless listing is never rejected. */
  function Dispatch(env: Env, page: Page): (d: Pending)
    ensures d.Calls? ==> SdkMethodOf(page.action.value) == Some(d.request.sdkMethod)
    ensures d.ResolvesUndefined? <==> SdkMethodOf(page.action.value).None?
    ensures page.action.value == "account.list" ==> d.Calls? && d.request.args == []
  {
    var m := page.action.value;
    if m == "account.list" then Calls(SdkRequest("listAccounts", []))
    else if m == "account.request" then Caught(OptionalPayloadRequest(env, page, "requestAccount"))
    else if m == "account.receive" then
      (if Truthy(page.account) then Calls(SdkRequest("receive", [GetProp(page.account, "id").value]))
       else Rejects(NoAccountError))
    else if m == SignAction then Caught(SignRequest(env, page))
    else if m == "transaction.broadcast" then Caught(BroadcastRequest(env, page))
    else if m == "currency.list" then Caught(OptionalPayloadRequest(env, page, "listCurrencies"))
    else ResolvesUndefined
  }

  /** An `execute` in flight: the action value its closure captured and the
      promise it awaits. */
  datatype Execution = Execution(actionValue: string, pending: Pending)

  /** `execute` up to its `await`: without a client nothing happens;
      otherwise the answer becomes pending with "Waiting...". */
  function ExecuteStart(env: Env, page: Page): (r: (Page, Option<Execution>))
    ensures !page.connected ==> r == (page, None)
    ensures page.connected ==>
              r.0.answerType == AnswerPending && r.0.lastAnswer == Str("Waiting...") &&
              r.0.(answerType := page.answerType, lastAnswer := page.lastAnswer) == page &&
              r.1 == Some(Execution(page.action.value, Dispatch(env, page)))
  {
    if !page.connected then (page, None)
    else (page.(answerType := AnswerPending, lastAnswer := Str("Waiting...")),
          Some(Execution(page.action.value, Dispatch(env, page))))
  }

  /** How the awaited promise settles, given what the SDK answers when it is
      called. */
  function Settlement(pending: Pending, sdkReply: Outcome<Value>): (r: Outcome<Value>)
    ensures pending.Rejects? ==> r == Thrown(pending.error)
    ensures pending.ResolvesUndefined? ==> r == Ok(Undefined)
    ensures pending.Calls? ==> r == sdkReply
  {
    match pending
    case Rejects(e) => Thrown(e)
    case Calls(_) => sdkReply
    case ResolvesUndefined => Ok(Undefined)
  }

  /** `{ message: err.message }`. */
  function ErrorAnswer(e: JsError): Value {
    Obj([Prop("message", Str(e.message))])
  }

  /** The placeholder effect (dependencies: method, account, full-tx switch):
      on the sign action with an account selected, the payload becomes the
      pretty-printed placeholder for the account's currency family. */
  function PlaceholderEffect(env: Env, mocks: Placeholder.TxMocks, page: Page): (p: Page)
    ensures p.(rawPayload := page.rawPayload) == page
    ensures p != page ==> page.action.value == SignAction && Truthy(page.account)
  {
    if page.action.value != SignAction || !Truthy(page.account) then page
    else match GetProp(page.account, "currency")
      case Ok(Str(family)) =>
        var placeholder := Placeholder.GetPayloadSignTxPlaceholder(mocks, family, Some(page.useFullTx));
        page.(rawPayload := env.stringify(placeholder.ToValue(), 2))
      case _ => page
  }

  /** `execute` after its `await`. A success records the result; after a
      successful listing the accounts become the result and, when it is a
      non-empty array, the selection becomes its first element (a fresh object,
      so the placeholder effect runs again). A failure records `{message}`. */
  function ExecuteFinish(env: Env, mocks: Placeholder.TxMocks, page: Page, ex: Execution, settled: Outcome<Value>): (p: Page)
    ensures p.answerType == AnswerSuccess <==> settled.Ok?
    ensures p.answerType == AnswerError <==> settled.Thrown?
    ensures p.connected == page.connected && p.action == page.action && p.useFullTx == page.useFullTx
  {
    match settled
    case Thrown(e) => page.(lastAnswer := ErrorAnswer(e), answerType := AnswerError)
    case Ok(result) =>
      var answered := page.(answerType := AnswerSuccess, lastAnswer := result);
      if ex.actionValue != "account.list" then answered
      else if result.Arr? && |result.items| > 0 then
        PlaceholderEffect(env, mocks, answered.(accounts := result, account := result.items[0]))
      else answered.(accounts := result)
  }

  /** `handleMethodChange`: an object preset is pretty-printed into the
      payload; then the placeholder effect runs if the action changed. */
  function OnActionChosen(env: Env, mocks: Placeholder.TxMocks, page: Page, i: nat): (p: Page)
    requires i < |Actions|
    ensures p.action == Actions[i]
    ensures p.(action := page.action, rawPayload := page.rawPayload) == page
  {
    var a := Actions[i];
    var chosen := page.(action := a,
                        rawPayload := if a.usePayload.PresetPayload? then env.stringify(a.usePayload.preset, 2)
                                      else page.rawPayload);
    if a != page.action then PlaceholderEffect(env, mocks, chosen) else chosen
  }

  /** `handleAccountChange`, then the placeholder effect if the selection changed. */
  function OnAccountChosen(env: Env, mocks: Placeholder.TxMocks, page: Page, option: Value): (p: Page)
    ensures p.(rawPayload := page.rawPayload) == page.(account := option)
    ensures option == page.account ==> p == page
  {
    var chosen := page.(account := option);
    if option != page.account then PlaceholderEffect(env, mocks, chosen) else chosen
  }

  /** The full-transaction switch, then the placeholder effect if it flipped. */
  function OnFullTxToggled(env: Env, mocks: Placeholder.TxMocks, page: Page, on: bool): (p: Page)
    ensures p.(rawPayload := page.rawPayload) == page.(useFullTx := on)
    ensures on == page.useFullTx ==> p == page
  {
    var toggled := page.(useFullTx := on);
    if on != page.useFullTx then PlaceholderEffect(env, mocks, toggled) else toggled
  }

  /** `handlePayloadChange`. */
  function OnPayloadChanged(page: Page, text: string): (p: Page)
    ensures p.rawPayload == text && p.(rawPayload := page.rawPayload) == page
  {
    page.(rawPayload := text)
  }

  /** `handlePayloadBlur`: the text the blur event carries is reformatted
      with two-space indentation when it parses; a parse error is swallowed. */
  function OnPayloadBlur(env: Env, page: Page, text: string): (p: Page)
    ensures p.(rawPayload := page.rawPayload) == page
    ensures p != page ==> ParseJson(env, text).Ok? && p.rawPayload == env.stringify(ParseJson(env, text).value, 2)
    ensures text == "" ==> p == page
  {
    match ParseJson(env, text)
    case Ok(v) => page.(rawPayload := env.stringify(v, 2))
    case Thrown(_) => page
  }

  /** The output panel's text: nothing while the answer is undefined,
      otherwise the pretty-printed answer. */
  function OutputText(env: Env, page: Page): (text: string)
    ensures page.lastAnswer.Undefined? ==> text == ""
    ensures !page.lastAnswer.Undefined? ==> text == env.stringify(page.lastAnswer, 2)
  {
    if page.lastAnswer.Undefined? then "" else env.stringify(page.lastAnswer, 2)
  }

  // ---------------------------------------------------------------------
  // Properties
  // ---------------------------------------------------------------------

  /** Six actions with distinct values; the account-using ones are receive,
      sign and broadcast; only broadcast carries a preset payload, and it is
      `PAYLOAD_BROADCAST`. The page starts on the listing action. */
  lemma ActionsShape()
    ensures |Actions| == 6
    ensures forall i, j :: 0 <= i < j < |Actions| ==> Actions[i].value != Actions[j].value
    ensures forall i :: 0 <= i < |Actions| ==> (Actions[i].useAccount <==> i in {2, 3, 4})
    ensures forall i :: 0 <= i < |Actions| ==>
              (Actions[i].usePayload.PresetPayload? <==> i == 4)
    ensures Actions[4].usePayload == PresetPayload(PayloadBroadcast)
    ensures Actions[3].value == SignAction
    ensures InitialPage.action.value == "account.list" && InitialPage.answerType == AnswerNone
  {
  }

  /** Without a client, `execute` changes nothing and issues nothing. */
  lemma ExecuteNeedsClient(env: Env, page: Page)
    requires !page.connected
    ensures ExecuteStart(env, page) == (page, None)
  {
  }

  /** Verify Address without a selected account is rejected with
      "No accountId selected" and never reaches the SDK; with one, the SDK
      is asked to verify exactly that account's id. */
  lemma ReceiveNeedsAccount(env: Env, page: Page)
    requires page.action.value == "account.receive"
    ensures !Truthy(page.account) ==> Dispatch(env, page) == Rejects(NoAccountError)
    ensures Truthy(page.account) ==>
              exists id :: GetProp(page.account, "id") == Ok(id) &&
                           Dispatch(env, page) == Calls(SdkRequest("receive", [id]))
  {
    if Truthy(page.account) {
      var id := GetProp(page.account, "id").value;
      assert GetProp(page.account, "id") == Ok(id);
    }
  }

  /** Request Account and List Currencies: an empty payload calls the SDK
      with `undefined`, a parsed payload calls it with the parsed value, and
      an unparsable one is rejected with the parse error. */
  lemma OptionalPayloadDispatch(env: Env, page: Page)
    requires page.action.value in {"account.request", "currency.list"}
    ensures var sdkMethod := if page.action.value == "account.request" then "requestAccount" else "listCurrencies";
            var d := Dispatch(env, page);
            (page.rawPayload == "" ==> d == Calls(SdkRequest(sdkMethod, [Undefined]))) &&
            (page.rawPayload != "" && env.parseText(page.rawPayload).Ok? ==>
               d == Calls(SdkRequest(sdkMethod, [env.parseText(page.rawPayload).value]))) &&
            (page.rawPayload != "" && env.parseText(page.rawPayload).Thrown? ==>
               d == Rejects(env.parseText(page.rawPayload).error))
  {
  }

  /** Sign Transaction reaches the SDK exactly when the payload parses, its
      `transaction` deserialises and an account is selected; every other
      case — an empty payload, a `null` payload, no account — is a
      rejection, never an exception out of `execute`. */
  lemma SignDispatch(env: Env, page: Page)
    requires page.action.value == SignAction
    ensures page.rawPayload == "" ==> Dispatch(env, page) == Rejects(EmptyJsonError)
    ensures page.account.Null? || page.account.Undefined? ==> Dispatch(env, page).Rejects?
    ensures Dispatch(env, page).Calls? <==>
              var payload := ParseJson(env, page.rawPayload);
              payload.Ok? && GetProp(payload.value, "transaction").Ok? &&
              env.deserialize(GetProp(payload.value, "transaction").value).Ok? &&
              !(page.account.Null? || page.account.Undefined?)
    ensures Dispatch(env, page).Calls? ==>
              var payload := ParseJson(env, page.rawPayload).value;
              Dispatch(env, page).request ==
                SdkRequest("signTransaction",
                           [GetProp(page.account, "id").value,
                            env.deserialize(GetProp(payload, "transaction").value).value,
                            GetProp(payload, "params").value])
  {
  }

  /** Broadcast reaches the SDK exactly when the payload parses and an
      account is selected, with the account id and the parsed payload. */
  lemma BroadcastDispatch(env: Env, page: Page)
    requires page.action.value == "transaction.broadcast"
    ensures page.rawPayload == "" ==> Dispatch(env, page) == Rejects(EmptyJsonError)
    ensures Dispatch(env, page).Calls? <==>
              ParseJson(env, page.rawPayload).Ok? && !(page.account.Null? || page.account.Undefined?)
    ensures Dispatch(env, page).Calls? ==>
              Dispatch(env, page).request ==
                SdkRequest("broadcastSignedTransaction",
                           [GetProp(page.account, "id").value, ParseJson(env, page.rawPayload).value])
    ensures ParseJson(env, page.rawPayload).Ok? && page.account.Null? ==>
              Dispatch(env, page) == Rejects(NullPropertyError("null", "id"))
  {
  }

  /** Listing accounts always calls the SDK; an action value outside the six
      resolves to `undefined` without a call. */
  lemma ListAndUnknownDispatch(env: Env, page: Page)
    ensures page.action.value == "account.list" ==> Dispatch(env, page) == Calls(SdkRequest("listAccounts", []))
    ensures (forall i :: 0 <= i < |Actions| ==> Actions[i].value != page.action.value) ==>
              Dispatch(env, page) == ResolvesUndefined
  {
    if forall i :: 0 <= i < |Actions| ==> Actions[i].value != page.action.value {
      assert Actions[0].value != page.action.value;
      assert Actions[1].value != page.action.value;
      assert Actions[2].value != page.action.value;
      assert Actions[3].value != page.action.value;
      assert Actions[4].value != page.action.value;
      assert Actions[5].value != page.action.value;
    }
  }

  /** Before the `await` a connected page shows a pending "Waiting..." and
      nothing else changes; the execution remembers the action it was
      started for and the promise of the dispatch. */
  lemma ExecuteGoesPending(env: Env, page: Page)
    requires page.connected
    ensures var (p, ex) := ExecuteStart(env, page);
            p.answerType == AnswerPending && p.lastAnswer == Str("Waiting...") &&
            p.(answerType := page.answerType, lastAnswer := page.lastAnswer) == page &&
            ex == Some(Execution(page.action.value, Dispatch(env, page)))
  {
  }

  /** After the `await` the answer is exactly one of success with the result
      or error with `{message}`; no other field but the accounts, the
      selection and (through the effect) the payload can change. */
  lemma ExecuteSettles(env: Env, mocks: Placeholder.TxMocks, page: Page, ex: Execution, settled: Outcome<Value>)
    ensures var p := ExecuteFinish(env, mocks, page, ex, settled);
            (p.answerType == AnswerSuccess <==> settled.Ok?) &&
            (p.answerType == AnswerError <==> settled.Thrown?) &&
            (settled.Ok? ==> p.lastAnswer == settled.value) &&
            (settled.Thrown? ==> p.lastAnswer == ErrorAnswer(settled.error) &&
                                 GetProp(p.lastAnswer, "message") == Ok(Str(settled.error.message))) &&
            p.connected == page.connected && p.action == page.action && p.useFullTx == page.useFullTx
    ensures settled.Thrown? || ex.actionValue != "account.list" ==>
              var p := ExecuteFinish(env, mocks, page, ex, settled);
              p.accounts == page.accounts && p.account == page.account && p.rawPayload == page.rawPayload
  {
    var p := ExecuteFinish(env, mocks, page, ex, settled);
    if settled.Ok? && ex.actionValue == "account.list" {
      var result := settled.value;
      var answered := page.(answerType := AnswerSuccess, lastAnswer := result);
      if result.Arr? && |result.items| > 0 {
        PlaceholderEffectOnlyPayload(env, mocks, answered.(accounts := result, account := result.items[0]));
      }
    }
  }

  /** A successful listing replaces the accounts with the result; the
      selection becomes the first element only when the result is a
      non-empty array, and is kept otherwise. */
  lemma ListingUpdatesAccounts(env: Env, mocks: Placeholder.TxMocks, page: Page, result: Value)
    ensures var p := ExecuteFinish(env, mocks, page, Execution("account.list", Calls(SdkRequest("listAccounts", []))), Ok(result));
            p.accounts == result &&
            (result.Arr? && |result.items| > 0 ==> p.account == result.items[0]) &&
            (!(result.Arr? && |result.items| > 0) ==> p.account == page.account && p.rawPayload == page.rawPayload)
  {
    if result.Arr? && |result.items| > 0 {
      var answered := page.(answerType := AnswerSuccess, lastAnswer := result);
      PlaceholderEffectOnlyPayload(env, mocks, answered.(accounts := result, account := result.items[0]));
    }
  }

  /** The placeholder effect touches the payload and nothing else, and it
      touches it only on the sign action with an account selected; when the
      account's currency is a string, the payload becomes the pretty-printed
      placeholder of that family under the current switch. */
  lemma PlaceholderEffectOnlyPayload(env: Env, mocks: Placeholder.TxMocks, page: Page)
    ensures PlaceholderEffect(env, mocks, page).(rawPayload := page.rawPayload) == page
    ensures PlaceholderEffect(env, mocks, page) != page ==> page.action.value == SignAction && Truthy(page.account)
    ensures page.action.value == SignAction && page.account.Obj? ==>
              forall family :: GetProp(page.account, "currency") == Ok(Str(family)) ==>
                PlaceholderEffect(env, mocks, page).rawPayload ==
                  env.stringify(Placeholder.GetPayloadSignTxPlaceholder(mocks, family, Some(page.useFullTx)).ToValue(), 2)
  {
  }

  /** Choosing an action other than Sign Transaction overwrites the payload
      only with the broadcast preset, and only for the broadcast action;
      choosing the sign action keeps the payload unless the effect writes
      the placeholder. The chosen action is always recorded. */
  lemma ActionChangePayload(env: Env, mocks: Placeholder.TxMocks, page: Page, i: nat)
    requires i < |Actions|
    ensures OnActionChosen(env, mocks, page, i).action == Actions[i]
    ensures i != 3 ==>
              OnActionChosen(env, mocks, page, i).rawPayload ==
                (if i == 4 then env.stringify(PayloadBroadcast, 2) else page.rawPayload)
    ensures i == 3 ==>
              OnActionChosen(env, mocks, page, i) ==
                (if page.action != Actions[3] then PlaceholderEffect(env, mocks, page.(action := Actions[3]))
                 else page)
    ensures OnActionChosen(env, mocks, page, i).(action := page.action, rawPayload := page.rawPayload) == page
  {
    var a := Actions[i];
    var chosen := page.(action := a,
                        rawPayload := if a.usePayload.PresetPayload? then env.stringify(a.usePayload.preset, 2)
                                      else page.rawPayload);
    PlaceholderEffectOnlyPayload(env, mocks, chosen);
  }

  /** Picking an account or flipping the switch changes that field and, on
      the sign action with an account, may rewrite the payload; choosing the
      same value again changes nothing. */
  lemma SelectionEffects(env: Env, mocks: Placeholder.TxMocks, page: Page, option: Value, on: bool)
    ensures OnAccountChosen(env, mocks, page, option).(rawPayload := page.rawPayload) == page.(account := option)
    ensures OnAccountChosen(env, mocks, page, page.account) == page
    ensures OnFullTxToggled(env, mocks, page, on).(rawPayload := page.rawPayload) == page.(useFullTx := on)
    ensures OnFullTxToggled(env, mocks, page, page.useFullTx) == page
    ensures page.action.value != SignAction ==>
              OnAccountChosen(env, mocks, page, option) == page.(account := option) &&
              OnFullTxToggled(env, mocks, page, on) == page.(useFullTx := on)
  {
    PlaceholderEffectOnlyPayload(env, mocks, page.(account := option));
    PlaceholderEffectOnlyPayload(env, mocks, page.(useFullTx := on));
  }

  /** Blur reformats the payload exactly when the text parses, and leaves
      the page untouched otherwise. */
  lemma BlurReformatsOnlyParsable(env: Env, page: Page, text: string)
    ensures ParseJson(env, text).Ok? ==>
              OnPayloadBlur(env, page, text) == page.(rawPayload := env.stringify(ParseJson(env, text).value, 2))
    ensures ParseJson(env, text).Thrown? ==> OnPayloadBlur(env, page, text) == page
    ensures text == "" ==> OnPayloadBlur(env, page, text) == page
  {
  }

  /** Typing replaces the payload with the text and nothing else. */
  lemma PayloadEditReplaces(page: Page, text: string)
    ensures OnPayloadChanged(page, text).rawPayload == text
    ensures OnPayloadChanged(page, text).(rawPayload := page.rawPayload) == page
  {
  }

  /** A whole round from a connected page: the answer is pending in between
      and ends in success iff the settled promise fulfilled; a rejection
      built by the dispatch surfaces as its message. */
  lemma ExecuteRound(env: Env, mocks: Placeholder.TxMocks, page: Page, sdkReply: Outcome<Value>)
    requires page.connected
    ensures var (mid, ex) := ExecuteStart(env, page);
            ex.Some? && mid.answerType == AnswerPending &&
            var settled := Settlement(ex.value.pending, sdkReply);
            var done := ExecuteFinish(env, mocks, mid, ex.value, settled);
            (done.answerType == AnswerSuccess <==> settled.Ok?) &&
            (Dispatch(env, page).Rejects? ==>
               done.answerType == AnswerError && done.lastAnswer == ErrorAnswer(Dispatch(env, page).error))
  {
    var (mid, ex) := ExecuteStart(env, page);
    ExecuteSettles(env, mocks, mid, ex.value, Settlement(ex.value.pending, sdkReply));
  }

  /** The output panel shows nothing only while the answer is undefined,
      which is the page's state before the first execution. */
  lemma OutputBeforeFirstAnswer(env: Env)
    ensures OutputText(env, InitialPage) == ""
    ensures OutputText(env, Connect(InitialPage)) == ""
  {
  }
}
