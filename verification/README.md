# Platform app debugger — a Dafny model

This project models the logic inside the Ledger Live platform-app debugger. The debugger is a web page for calling the wallet SDK's methods by hand and looking at their answers. It has two generations.

* **The second-generation console** (`DebuggerV2`):
  * **The method catalog** (`getHandlers`): nine SDK methods. Each has input slots, default texts and per-slot modifiers. Under the mock flag, three of them gain a trailing "mock" slot.
  * **The console's state and events.** The console keeps a vector of raw slot values per method, reset to the method's defaults when the method changes.
    * **Send** composes the argument vector by running each slot's modifier. A failing modifier becomes an ERROR result at once. A successful composition issues one SDK call.
    * **Settlement.** A success is appended to a history of at most ten entries; past ten, the oldest entry is dropped. An error is appended without evicting anything.
    * **Clear** empties the history and cancels nothing.
  * **The account selector**: its options, and the raw id it reports.
  * **The results panel**: elapsed-time units, status colours, entry bodies and rendering order.
* **The first-generation page** (`pages/index.tsx`):
  * a dispatch over six actions whose every failure becomes a rejected promise;
  * the answer's status machine (none → pending → success | error);
  * the account and payload bookkeeping, including the sign-transaction placeholder effect (`getPayloadSignTxPlaceholder`).

JavaScript values appear as a small `Value` datatype (`Js`), and thrown errors as `JsError(name, message)`. Three helpers are left uninterpreted: `JSON.parse`, `JSON.stringify` and `deserializeTransaction`. They are fields of an `Env` record that every operation receives. The one fact fixed about them is that `JSON.parse("")` throws.

React's effects are written out as explicit functions that run when their dependencies change. Promises are not modelled. A call in flight is a record, and a later settlement event completes it. Each event is one call of a pure reducer (`Console.Step`, `Legacy.ExecuteStart` / `Legacy.ExecuteFinish`).

Two points where the code is weaker than the usual description of the console:

* The history is bounded by ten only on the success path. An ERROR result is appended with no eviction, so errors alone take the history past ten (`History.ErrorsNeverEvict`, `Console.FailedSendsAccumulate`). The model follows the code.
* No PENDING result is ever recorded. The type has the variant and the panel maps it to a colour and a "[...]" body, but Send appends nothing until the call settles. The console's pending state is only its loading flag.

Files, one module each:

* `js_values.dfy` (`Js`): values, property access, `Outcome`, string coercion, decimal text.
* `types.dfy` (`Types`): the records of `types.ts`.
* `catalog.dfy` (`Catalog`): `handlers.tsx`.
* `inputs.dfy` (`Inputs`): the slot vector and argument composition.
* `history.dfy` (`History`): the result-history updates.
* `console.dfy` (`Console`): the second-generation console as an event reducer.
* `account_selector.dfy` (`AccountOptions`).
* `output_console.dfy` (`Output`).
* `placeholder.dfy` (`Placeholder`).
* `legacy_debugger.dfy` (`Legacy`).
* `scenarios.dfy` (`Scenarios`): end-to-end runs of the console.

## Model

| member | source | states |
|---|---|---|
| Types.Invoke | src/components/DebuggerV2/handlers.tsx:178 | A bound SDK method receives the composed arguments unchanged. The exchange starter sends one `{exchangeType}` object built from its first argument. |
| Catalog.GetHandlers | src/components/DebuggerV2/handlers.tsx:80-239 | The catalog has nine methods with the documented ids, in catalog order. `listAccounts` has no slot. `verifyAddress` has exactly the bare account slot. |
| Catalog.FindHandler | src/components/DebuggerV2/index.tsx:216-218 | `find` by id returns the first method with that id, or nothing exactly when no method has it. |
| Catalog.FindHandlerOfOwnId | src/components/DebuggerV2/index.tsx:216-218 | With distinct ids, looking up the id of the method at a position finds that position. |
| Catalog.CatalogShape | src/components/DebuggerV2/handlers.tsx:80-132 | The ids are pairwise distinct, and the first method is `listCurrencies` (the initial selection). `listAccounts` has zero slots. `verifyAddress` has one account selector with no default and no modifier. |
| Catalog.CatalogSlots | src/components/DebuggerV2/handlers.tsx:27-74 | Account selectors never have a default or a modifier, and every slot with a default is a JSON editor. The only identity modifier is `signMessage`'s message. The only deserialising one is `signTransaction`'s transaction. Every other modifier parses JSON. |
| Catalog.MockExtendsThreeMethods | src/components/DebuggerV2/handlers.tsx:139-237 | Under the mock flag, exactly `signTransaction`, `broadcastSignedTransaction` and `signMessage` gain one trailing "mock" slot that parses JSON. Their base slots stay an unchanged prefix, and every other method's slots are unchanged. |
| Catalog.SignTransactionSlots | src/components/DebuggerV2/handlers.tsx:27-44 | Without the mock flag, `signTransaction` takes account, transaction and parameters, in that order. |
| Catalog.StartExchangeSlot | src/components/DebuggerV2/handlers.tsx:173-200 | `startExchange` has one select slot. Its options are Swap, Fund and Sell, in that order, and it has no modifier. Its handler sends the raw value wrapped as `{exchangeType}`. |
| Inputs.DefaultValues | src/components/DebuggerV2/index.tsx:224-229 | One value per input, each the input's default text, or undefined when it has none. |
| Inputs.EditSlot | src/components/DebuggerV2/index.tsx:291-297 | Only index i is replaced, and the length is kept when i is inside the vector. An index past the end grows the vector, and the gap reads as undefined. |
| Inputs.ApplyModifier | src/components/DebuggerV2/index.tsx:314-316 | An absent or identity modifier passes the value through. A parse modifier is `JSON.parse` of the value's string form. The transaction modifier deserialises the parsed value, and its parse failure propagates. |
| Inputs.Compose | src/components/DebuggerV2/index.tsx:313-317 | The arguments have the same length as the slot vector. Element k is slot k's modifier applied to value k. If any slot fails, the result is the failure of the first failing slot. |
| Inputs.ComposeWithoutModifiers | src/components/DebuggerV2/index.tsx:313-317 | Slots without a transforming modifier hand their raw values to the call unchanged. |
| Inputs.ComposeOverlongFails | src/components/DebuggerV2/index.tsx:314 | A slot vector longer than the method's inputs never composes. Reading the missing descriptor's modifier throws. |
| History.AppendSuccess | src/components/DebuggerV2/index.tsx:331-339 | A success is appended at the end. Past ten entries exactly the front one is dropped, and the survivors keep their order. |
| History.AppendError | src/components/DebuggerV2/index.tsx:352 | An error is appended at the end and nothing is evicted. |
| History.SuccessKeepsBound | src/components/DebuggerV2/index.tsx:331-339 | A history of at most ten stays at most ten across a success. |
| History.SuccessWindow | src/components/DebuggerV2/index.tsx:331-339 | Successes alone keep exactly the last ten results of everything appended, in completion order. |
| History.ErrorsNeverEvict | src/components/DebuggerV2/index.tsx:352 | Errors alone append every result, so the history can grow past ten. |
| History.SuccessPastCapacityDropsFront | src/components/DebuggerV2/index.tsx:331-339 | Over ten entries (after errors), a success keeps the length and drops only the front entry. |
| Console.Init | src/components/DebuggerV2/index.tsx:198-229 | The mounted console selects `listCurrencies`, holds its defaults, and starts with an empty history, no call in flight and the empty context. |
| Console.OnMethodChosen | src/components/DebuggerV2/index.tsx:212-229 | The slots reset to the new method's defaults exactly when the chosen id resolves to a different method. The history and the calls in flight are untouched. |
| Console.OnSlotChanged | src/components/DebuggerV2/index.tsx:291-297 | A widget's report replaces only its own slot and nothing else in the state. |
| Console.OnSend | src/components/DebuggerV2/index.tsx:307-353 | With no method resolved, nothing happens. A failing composition appends exactly one ERROR result, which holds the raw values, the method id and the failure, calls nothing and clears loading. A successful one issues exactly one request with the composed arguments and leaves the history alone. |
| Console.Settled | src/components/DebuggerV2/index.tsx:319-349 | The recorded result carries the raw inputs, the method id and the send time captured at Send, plus the settlement time. It is SUCCESS with the data exactly when the call fulfilled, and ERROR with the error otherwise. |
| Console.OnSettled | src/components/DebuggerV2/index.tsx:318-352 | The settled call leaves the calls in flight and loading drops. Its result is appended to the current history, capped on success and uncapped on error. |
| Console.OnClear | src/components/DebuggerV2/index.tsx:375 | Clear empties the history and changes nothing else. |
| Console.Step | src/components/DebuggerV2/index.tsx:204-375 | No event changes the catalog. Only a context load replaces the context. The history grows by at most one entry per event. |
| Console.Run | src/components/DebuggerV2/index.tsx:204-375 | Over any sequence of events, the catalog stays the mounted one and the history grows by at most one entry per event. |
| Console.StepGrowth | src/components/DebuggerV2/index.tsx:331-352 | One event grows the history by at most one. It takes a history past ten only by appending an ERROR result. |
| Console.LateSettlementAfterClear | src/components/DebuggerV2/index.tsx:375 | A call in flight across Clear still lands: it becomes the only entry of the emptied history. |
| Console.AppendKeepsPreviousLast | src/components/DebuggerV2/index.tsx:331-352 | Either update puts the new result last, with the previous last entry right before it. |
| Console.SendIssuesCall | src/components/DebuggerV2/index.tsx:307-318 | A composing Send adds one call with its id at the end of the calls in flight, and keeps the method, the slots and the history. |
| Console.SettleRecords | src/components/DebuggerV2/index.tsx:318-352 | Settling a call removes exactly that call and appends its result last. |
| Console.SettleInReverse | src/components/DebuggerV2/index.tsx:318-352 | Two calls settled in reverse order are recorded in settlement order, and both leave the calls in flight. |
| Console.CompletionOrder | src/components/DebuggerV2/index.tsx:307-352 | A call sent before another but settling after it is recorded after it. History order is completion order. |
| Console.FailedSendStep | src/components/DebuggerV2/index.tsx:340-352 | A Send whose composition fails appends one ERROR result and keeps the method, the slots and the calls in flight. |
| Console.FailedSendsAccumulate | src/components/DebuggerV2/index.tsx:340-352 | n Sends whose composition fails append n ERROR results after the old history. They evict nothing and issue no call. |
| AccountOptions.AccountsToOptions | src/components/DebuggerV2/inputs/AccountSelector.tsx:7-14 | One option per account, in order, valued by the account id and captioned by its name. |
| AccountOptions.OnOptionPicked | src/components/DebuggerV2/inputs/AccountSelector.tsx:21-23 | The widget reports the picked option's value. The contract is carried by `AccountOptions.PickReportsAccountId`: picking option k reports account k's id. |
| AccountOptions.OptionsPreserveOrder | src/components/DebuggerV2/inputs/AccountSelector.tsx:10 | The options of concatenated account lists are the concatenated options. |
| AccountOptions.PickReportsAccountId | src/components/DebuggerV2/inputs/AccountSelector.tsx:21-28 | Picking option k reports account k's id, not the account record. |
| AccountOptions.InitialContextOffersNothing | src/components/DebuggerV2/index.tsx:183 | Before the context loads, the selector offers no option. |
| Output.FormatDistance | src/components/DebuggerV2/OutputConsole.tsx:42-49 | The distance is the absolute difference, in milliseconds exactly when it is at most 1000 (1000 included). |
| Output.MillisecondsText | src/components/DebuggerV2/OutputConsole.tsx:45-48 | The text is decimal digits followed by " milliseconds", and the digits denote exactly the distance in milliseconds. |
| Output.FormatDistanceSymmetric | src/components/DebuggerV2/OutputConsole.tsx:42-43 | Swapping the two instants changes nothing. |
| Output.MillisecondsTextExact | src/components/DebuggerV2/OutputConsole.tsx:45-48 | In milliseconds, the printed number is exactly the integer difference, followed by " milliseconds". |
| Output.StatusColor | src/components/DebuggerV2/OutputConsole.tsx:77-83 | SUCCESS maps to success, PENDING to warning, and the rest to error, in both directions. |
| Output.Body | src/components/DebuggerV2/OutputConsole.tsx:96-100 | SUCCESS shows the data printed with four-space indentation, PENDING shows "[...]", and ERROR shows `String(error)`. |
| Output.RenderOne | src/components/DebuggerV2/OutputConsole.tsx:62-100 | The entry is keyed by the result's uuid and shows its method. The colour is success exactly for a success and warning exactly for a pending result. The elapsed time is the absolute difference of the two timestamps. |
| Output.Render | src/components/DebuggerV2/OutputConsole.tsx:62-66 | One entry per result, in history order, each rendered from its own result. |
| Output.RenderEntries | src/components/DebuggerV2/OutputConsole.tsx:62-100 | Entry k is keyed by result k's uuid and shows that result's method, status colour, elapsed time and body. |
| Output.RenderAppend | src/components/DebuggerV2/OutputConsole.tsx:62 | Rendering a grown history leaves the earlier entries as they were. |
| Placeholder.KnownFamilyOf | src/utils/getPayloadSignTxPlaceholder.ts:34-105 | The switch selects a known family exactly when the string is that family's name. |
| Placeholder.CapitalizeFirstLetter | src/utils/getPayloadSignTxPlaceholder.ts:15-17 | The length is kept, only the first character is upper-cased and the rest is unchanged. "" maps to "". |
| Placeholder.GenerateDefaultTx | src/utils/getPayloadSignTxPlaceholder.ts:19-24 | The default transaction is an object whose `family` is the given family, and every other field is the common mock's. |
| Placeholder.GetPayloadSignTxPlaceholder | src/utils/getPayloadSignTxPlaceholder.ts:33-113 | For the name of a known family, the transaction is that family's full mock exactly when the flag is `true` and its short mock otherwise, and the app is that family's app. For any other string, the app is the capitalised string and the transaction's `family` is the string. |
| Placeholder.KnownFamilyPlaceholder | src/utils/getPayloadSignTxPlaceholder.ts:33-105 | For a known family, the transaction is its full mock exactly when `useFullTx` is set, and its short mock otherwise. The app name is fixed per family. A missing flag means false. |
| Placeholder.AppNamesFollowFamilies | src/utils/getPayloadSignTxPlaceholder.ts:34-105 | Every known family's app is its capitalised name, except Ripple's, which is "XRP". |
| Placeholder.OtherFamilyPlaceholder | src/utils/getPayloadSignTxPlaceholder.ts:107-113 | Any other family gets the common transaction with `family` set to it and every other field kept. Its app name is the capitalised family, and the flag is ignored. |
| Placeholder.PayloadShape | src/utils/getPayloadSignTxPlaceholder.ts:34-113 | The payload has exactly `transaction` and `params`, and `params` has exactly `useApp`. |
| Legacy.ActionsShape | pages/index.tsx:71-97 | There are six actions with distinct values. Receive, sign and broadcast use an account, and only broadcast has a preset payload, `PAYLOAD_BROADCAST`. The page starts on the listing action with answer "none". |
| Legacy.Connect | pages/index.tsx:112-116 | Mounting sets the client and changes nothing else. |
| Legacy.Disconnect | pages/index.tsx:117-120 | Unmounting clears the client and changes nothing else. |
| Legacy.Dispatch | pages/index.tsx:128-182 | A call goes only to the SDK method that the action's value names. A value outside the six resolves to undefined, and it is the only one that does. The listing always calls, with no arguments. |
| Legacy.ExecuteStart | pages/index.tsx:123-187 | Without a client, nothing changes and nothing is issued. With one, the answer becomes a pending "Waiting..." and nothing else changes. The execution records the action's value and its dispatch. |
| Legacy.ExecuteFinish | pages/index.tsx:187-200 | The answer is success exactly when the promise fulfilled, and error exactly when it rejected. The client, the action and the switch are kept. |
| Legacy.PlaceholderEffect | pages/index.tsx:203-213 | The effect can change only the payload, and only on the sign action with a truthy account. |
| Legacy.OnActionChosen | pages/index.tsx:215-223 | The chosen action is recorded, and nothing but the action and the payload changes. |
| Legacy.OnAccountChosen | pages/index.tsx:225-230 | Apart from the payload, only the selection changes. Picking the current selection again changes nothing. |
| Legacy.OnFullTxToggled | pages/index.tsx:285 | Apart from the payload, only the switch changes. Setting it to its current value changes nothing. |
| Legacy.OnPayloadChanged | pages/index.tsx:232-237 | The payload becomes the typed text and nothing else changes. |
| Legacy.OnPayloadBlur | pages/index.tsx:239-249 | Only the payload can change. It changes only to the printed parse of a text that parses, and an empty text changes nothing. |
| Legacy.OutputText | pages/index.tsx:301-303 | The panel is empty while the answer is undefined. Otherwise it shows the answer printed with two-space indentation. |
| Legacy.ExecuteNeedsClient | pages/index.tsx:124-126 | Without a client, `execute` changes nothing and issues nothing. |
| Legacy.ReceiveNeedsAccount | pages/index.tsx:141-147 | With no account, Verify Address is rejected with "No accountId selected" and the SDK is not called. With an account, the SDK is asked about that account's id. |
| Legacy.OptionalPayloadDispatch | pages/index.tsx:133-139 | For Request Account and List Currencies:<br>• an empty payload calls the SDK with undefined;<br>• a parsed payload calls it with the value;<br>• an unparsable payload is rejected with the parse error. |
| Legacy.SignDispatch | pages/index.tsx:148-160 | Sign reaches the SDK exactly when four things hold: the payload parses, its `transaction` can be read, that transaction deserialises, and an account is selected. The call carries the account id, the transaction and `params`. An empty payload or a missing account becomes a rejection. |
| Legacy.BroadcastDispatch | pages/index.tsx:161-171 | Broadcast reaches the SDK exactly when the payload parses and an account is selected. The call carries the id and the parsed payload. With a null account it is rejected with the TypeError. |
| Legacy.ListAndUnknownDispatch | pages/index.tsx:129-182 | Listing accounts always calls the SDK. An action outside the six resolves to undefined without a call. |
| Legacy.ExecuteGoesPending | pages/index.tsx:184-186 | Before the await, a connected page shows pending with "Waiting...", and nothing else changes. |
| Legacy.ExecuteSettles | pages/index.tsx:184-200 | After the await, the answer is success with the result exactly when the promise fulfilled, and error with `{message}` exactly when it rejected. Only a listing can change the accounts, the selection and the payload. |
| Legacy.ListingUpdatesAccounts | pages/index.tsx:190-195 | A successful listing sets the accounts to the result. The selection becomes the first element only when the result is a non-empty array, and is unchanged otherwise. |
| Legacy.PlaceholderEffectOnlyPayload | pages/index.tsx:203-213 | The effect changes only the payload, and only on the sign action with an account selected. There it writes the printed placeholder for the account's currency family and the switch. |
| Legacy.ActionChangePayload | pages/index.tsx:215-223 | Choosing an action records it. The payload is overwritten with the printed preset only for broadcast. Other non-sign actions keep the payload, and sign leaves it to the effect. |
| Legacy.SelectionEffects | pages/index.tsx:225-230 | Picking an account or flipping the switch changes only that field and possibly the payload. Picking the same value again changes nothing. Off the sign action, the payload is untouched. |
| Legacy.BlurReformatsOnlyParsable | pages/index.tsx:239-249 | Blur reformats the payload exactly when the text parses, and leaves the page untouched otherwise, including for "". |
| Legacy.PayloadEditReplaces | pages/index.tsx:232-237 | Typing replaces the payload and nothing else. |
| Legacy.ExecuteRound | pages/index.tsx:123-201 | A full round goes through pending and ends in success exactly when the settled promise fulfilled. A dispatch rejection surfaces as its message. |
| Legacy.OutputBeforeFirstAnswer | pages/index.tsx:301-303 | Before the first execution the panel shows nothing. |
| Scenarios.VerifyAddressFlow | src/components/DebuggerV2/handlers.tsx:120-132 | Choose `verifyAddress`, load the context, pick account k and press Send. This issues exactly one `receive` call with that account's id, records the raw id as its inputs, and leaves the history empty. |
| Scenarios.UnparsableParametersFail | src/components/DebuggerV2/index.tsx:340-352 | An unparsable text in the first method's slot gives exactly one ERROR result carrying the parse error and the raw text, and no call. |
| Scenarios.DefaultListCurrencies | src/components/DebuggerV2/handlers.tsx:81-94 | Send right after mounting lists the currencies with the parsed default parameters. |

## Left out

- Rendering: React components, styled-components, layout, tabs, CSS transitions, the scroll effect, labels, and the disabled/read-only flags of widgets. These are presentation only.
- Promises and concurrency: calls in flight are records and settlements are events applied one at a time. `Promise.all` in the context fetch becomes one `ContextFetched` event that replaces the context wholesale. A failed fetch is no event at all.
- `JSON.parse`, `JSON.stringify` and `deserializeTransaction` are uninterpreted functions of `Env`, apart from `JSON.parse("")` throwing. The SDK is left out the same way: its methods are the request they receive, and their answers are event parameters. The fixture texts, the family mocks, `rawTxCommon` and the `ExchangeType` values are opaque parameters.
- `uuidv4` and `Date`: ids and instants are event parameters (integer milliseconds). When composition fails, the model uses the same instant for `queriedAt` and `respondedAt`; the source takes two readings a moment apart.
- Output.FormatDistance: the fractional seconds value printed above one second is not modelled, only the unit choice and the integer milliseconds.
- Placeholder.CapitalizeFirstLetter: only ASCII letters are upper-cased. JavaScript's full Unicode case mapping is not modelled.
- Placeholder.KnownFamilyOf: the SDK's `FAMILIES` enum is not part of this model. Its values are taken to be the lower-case family names.
- Legacy.PlaceholderEffect: when the selected account's `currency` is not a string, the source's `capitalizeFirstLetter` throws inside the effect and React aborts the render. The model leaves the payload unchanged instead.
- Legacy.OnPayloadBlur takes the text the blur event carries as a parameter. What the Ace editor puts in `event.target.value` is not modelled.
- Legacy.ExecuteFinish: an SDK rejection is taken to be an `Error`-like object with a `message`. A non-object rejection is not modelled.
- Output.Body: a thrown or rejected value is always an `Error`-like `JsError` with a name and a message. A rejection with a string or a plain object cannot be represented, so neither can the `String(error)` the panel would print for it.
- Console.Settled: for the same reason, only `Error`-like rejections can be recorded as an ERROR result.
- Js.Value: `Num(n: int)` holds integers only. Fractional numbers, `NaN` and `-0` are not represented, because the modelled logic never branches on a number's value.
- Legacy.Connect and Legacy.Disconnect only set or clear the client reference. The transport's handshake is not modelled.
- `console.log`, and the `description`, `mode` and `props` fields of `Parameter` beyond a select slot's options, are not modelled. The extra fields of SDK accounts and currencies are left out too. None of these influence the modelled logic.
- `JSON.stringify(undefined)` returning `undefined` rather than a string: every pretty-printed value is passed to `Env.stringify` as it is.
- Console.OnMethodChosen compares methods by catalog position, where React compares the `find` result by identity. These agree because the catalog is built once.
- Legacy.OnAccountChosen compares accounts structurally, where React compares object identity. Two distinct but equal account objects would re-run the effect in the source.
