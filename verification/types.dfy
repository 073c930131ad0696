/**
  The records the second-generation debugger console is built from: input
  descriptors, method descriptors, the reference context and the results kept
  in the history.
 */
module Types {
  import opened Js

  /** The widget that edits a slot. */
  datatype Component = JsonTextArea | AccountSelector | ValueSelector

  /** One choice of a select widget: the value it emits and what it shows. */
  datatype SelectOption = SelectOption(value: Value, caption: string)

  /** The transform a slot applies to its raw value before the call:
      `JSON.parse`, `deserializeTransaction(JSON.parse(...))`, or the identity. */
  datatype Modifier = JsonParse | ParseTransaction | Identity

  /** `Parameter`: name and component are required; the default text, the
      widget's option list (its `props`) and the modifier are optional. */
  datatype Parameter = Parameter(
    name: string,
    component: Component,
    defaultValue: Option<string>,
    options: Option<seq<SelectOption>>,
    modifier: Option<Modifier>)

  /** How a method forwards its argument vector to the SDK: a bound SDK method
      receives the arguments as they are; the exchange starter wraps its first
      argument as `{exchangeType}`. */
  datatype Invoker = Bound(sdkMethod: string) | WrapExchangeType

  /** The call the SDK receives. */
  datatype SdkRequest = SdkRequest(sdkMethod: string, args: seq<Value>)

  /** `MethodHandler`. */
  datatype MethodHandler = MethodHandler(
    id: string,
    name: string,
    description: string,
    inputs: seq<Parameter>,
    handler: Invoker)

  /** `handler(...args)`: the request a method sends for a composed argument vector. */
  function Invoke(h: Invoker, args: seq<Value>): (req: SdkRequest)
    ensures h.Bound? ==> req.sdkMethod == h.sdkMethod && req.args == args
    ensures h.WrapExchangeType? ==> req.sdkMethod == "startExchange" && |req.args| == 1 && req.args[0].Obj?
    ensures h.WrapExchangeType? && |args| > 0 ==> req.args[0] == Obj([Prop("exchangeType", args[0])])
  {
    match h
    case Bound(m) => SdkRequest(m, args)
    case WrapExchangeType =>
      SdkRequest("startExchange", [Obj([Prop("exchangeType", if |args| > 0 then args[0] else Undefined)])])
  }

  datatype Account = Account(id: string, name: string, address: string, currency: string)

  datatype Currency = Currency(id: string, name: string)

  /** `DebuggerContext`: the accounts and currencies the widgets may offer. */
  datatype DebuggerContext = DebuggerContext(accounts: seq<Account>, currencies: seq<Currency>)

  /** The context before the first load has completed. */
  const InitialContext := DebuggerContext([], [])

  datatype ResultStatus = PENDING | SUCCESS | ERROR

  /** `Result`: every variant carries the call's id, method, raw inputs and
      both timestamps (milliseconds); success and pending carry `data`, an
      error carries `error` instead. */
  datatype Result =
    | ResultSuccess(uuid: string, methodId: string, inputs: seq<Value>, queriedAt: int, respondedAt: int, data: Value)
    | ResultPending(uuid: string, methodId: string, inputs: seq<Value>, queriedAt: int, respondedAt: int, data: Value)
    | ResultError(uuid: string, methodId: string, inputs: seq<Value>, queriedAt: int, respondedAt: int, error: JsError)
  {
    function Status(): ResultStatus {
      match this
      case ResultSuccess(_, _, _, _, _, _) => SUCCESS
      case ResultPending(_, _, _, _, _, _) => PENDING
      case ResultError(_, _, _, _, _, _) => ERROR
    }
  }
}
