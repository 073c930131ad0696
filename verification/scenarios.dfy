/**
  End-to-end runs of the second-generation console from its mounted state,
  connecting the catalog, the slot vector, the account selector, composition
  and the history.
 */
module Scenarios {
  import opened Js
  import opened Types
  import opened Catalog
  import opened Inputs
  import opened Console
  import opened AccountOptions

  /** Verify Address: after the method is chosen and the context has loaded,
      picking the account at position `k` and pressing Send issues exactly
      one `receive` call with that account's id, records the raw slot as the
      call's inputs, and leaves the history empty until it settles. */
  lemma VerifyAddressFlow(fx: Fixtures, env: Env, ctx: DebuggerContext, k: nat, uuid: string, now: int)
    requires k < |ctx.accounts|
    ensures var id := Str(ctx.accounts[k].id);
            var s := Run(Init(fx), env, [MethodChosen("verifyAddress"), ContextFetched(ctx),
                                         SlotChanged(0, OnOptionPicked(ContextOptions(ctx)[k])),
                                         SendPressed(uuid, now)]);
            s.inFlight == [Call(uuid, "verifyAddress", [id], now, SdkRequest("receive", [id]))] &&
            s.loading && s.results == []
  {
    var id := Str(ctx.accounts[k].id);
    var s0 := Init(fx);
    var hs := s0.handlers;
    CatalogShape(fx, false);
    FindHandlerOfOwnId(hs, 3);
    var s1 := Step(s0, env, MethodChosen("verifyAddress"));
    assert Selected(s1) == Some(3);
    assert s1.values == [Undefined];
    var s2 := Step(s1, env, ContextFetched(ctx));
    PickReportsAccountId(ctx, k);
    var s3 := Step(s2, env, SlotChanged(0, OnOptionPicked(ContextOptions(ctx)[k])));
    assert s3.values == [id];
    assert Selected(s3) == Some(3);
    ComposeWithoutModifiers(env, hs[3].inputs, s3.values);
    var s4 := Step(s3, env, SendPressed(uuid, now));
    assert s4.inFlight == [Call(uuid, "verifyAddress", [id], now, SdkRequest("receive", [id]))];
    var events := [MethodChosen("verifyAddress"), ContextFetched(ctx),
                   SlotChanged(0, OnOptionPicked(ContextOptions(ctx)[k])), SendPressed(uuid, now)];
    assert Run(s3, env, events[3..]) == s4 by { assert events[3..][1..] == []; }
    assert Run(s2, env, events[2..]) == s4 by { assert events[2..][1..] == events[3..]; }
    assert Run(s1, env, events[1..]) == s4 by { assert events[1..][1..] == events[2..]; }
  }

  /** A text that does not parse in the first method's only slot: Send records
      exactly one ERROR result carrying the parse failure, with the raw text
      as its inputs and the same instant for both timestamps, and calls
      nothing. */
  lemma UnparsableParametersFail(fx: Fixtures, env: Env, text: string, uuid: string, now: int)
    requires ParseJson(env, text).Thrown?
    ensures var s := Run(Init(fx), env, [SlotChanged(0, Str(text)), SendPressed(uuid, now)]);
            s.results == [ResultError(uuid, "listCurrencies", [Str(text)], now, now, ParseJson(env, text).error)] &&
            s.inFlight == [] && !s.loading
  {
    var s0 := Init(fx);
    CatalogShape(fx, false);
    var s1 := Step(s0, env, SlotChanged(0, Str(text)));
    assert s1.values == [Str(text)];
    assert ToJsString(Str(text)) == text;
    assert SlotArgument(env, s0.handlers[0].inputs, s1.values, 0) == Thrown(ParseJson(env, text).error);
    var s2 := Step(s1, env, SendPressed(uuid, now));
    var events := [SlotChanged(0, Str(text)), SendPressed(uuid, now)];
    assert Run(s1, env, events[1..]) == s2 by { assert events[1..][1..] == []; }
  }

  /** Pressing Send right after mounting lists the currencies with the parsed
      default parameters when the fixture text parses. */
  lemma DefaultListCurrencies(fx: Fixtures, env: Env, uuid: string, now: int)
    requires ParseJson(env, fx.listCurrencyParameters).Ok?
    ensures var s := Step(Init(fx), env, SendPressed(uuid, now));
            var parsed := ParseJson(env, fx.listCurrencyParameters).value;
            s.inFlight == [Call(uuid, "listCurrencies", [Str(fx.listCurrencyParameters)], now,
                                SdkRequest("listCurrencies", [parsed]))] &&
            s.results == [] && s.loading
  {
    var s0 := Init(fx);
    CatalogShape(fx, false);
    assert s0.values == [Str(fx.listCurrencyParameters)];
    assert ToJsString(Str(fx.listCurrencyParameters)) == fx.listCurrencyParameters;
    assert SlotArgument(env, s0.handlers[0].inputs, s0.values, 0) == ParseJson(env, fx.listCurrencyParameters);
    var args := Compose(env, s0.handlers[0].inputs, s0.values);
    assert args.Ok? && args.value == [ParseJson(env, fx.listCurrencyParameters).value];
    assert s0.handlers[0].handler == Bound("listCurrencies");
  }
}
