/**
  The account selector widget: the options it offers for the accounts of the
  current context, and the raw value it reports when one is picked.
 */
module AccountOptions {
  import opened Js
  import opened Types

  /** `accountsToOptions`: one option per account, valued by its id and
      captioned by its name. */
  function AccountsToOptions(accounts: seq<Account>): (opts: seq<SelectOption>)
    ensures |opts| == |accounts|
    ensures forall k :: 0 <= k < |accounts| ==>
              opts[k].value == Str(accounts[k].id) && opts[k].caption == accounts[k].name
  {
    if accounts == [] then []
    else [SelectOption(Str(accounts[0].id), accounts[0].name)] + AccountsToOptions(accounts[1..])
  }

  /** The options the selector offers under a context. */
  function ContextOptions(context: DebuggerContext): seq<SelectOption> {
    AccountsToOptions(context.accounts)
  }

  /** `handleChange`: only the option's value reaches the slot. */
  function OnOptionPicked(opt: SelectOption): Value {
    opt.value
  }

  /** Options follow the accounts' order: the options of two account lists
      one after the other are the options of the first, then of the second. */
  lemma {:induction false} OptionsPreserveOrder(a: seq<Account>, b: seq<Account>)
    ensures AccountsToOptions(a + b) == AccountsToOptions(a) + AccountsToOptions(b)
  {
    if a != [] {
      assert (a + b)[1..] == a[1..] + b;
      OptionsPreserveOrder(a[1..], b);
    }
  }

  /** Picking the option at position `k` reports the id of account `k` — a
      string, never the account record. */
  lemma PickReportsAccountId(context: DebuggerContext, k: nat)
    requires k < |context.accounts|
    ensures k < |ContextOptions(context)|
    ensures OnOptionPicked(ContextOptions(context)[k]) == Str(context.accounts[k].id)
  {
  }

  /** Before the context has loaded the selector offers nothing. */
  lemma InitialContextOffersNothing()
    ensures ContextOptions(InitialContext) == []
  {
  }
}
