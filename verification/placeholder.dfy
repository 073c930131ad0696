/**
  The sign-transaction payload the legacy console proposes for an account's
  currency family: the SDK's mock transaction of a known family with its
  device app name, or a generic transaction tagged with the family for any
  other.
 */
module Placeholder {
  import opened Js

  /** The nine families with their own mock transactions. */
  datatype KnownFamily = Algorand | Bitcoin | Cosmos | Ethereum | Polkadot | Ripple | Stellar | Tezos | Tron

  /** The string value of the SDK's `FAMILIES` member. */
  function FamilyName(k: KnownFamily): string {
    match k
    case Algorand => "algorand"
    case Bitcoin => "bitcoin"
    case Cosmos => "cosmos"
    case Ethereum => "ethereum"
    case Polkadot => "polkadot"
    case Ripple => "ripple"
    case Stellar => "stellar"
    case Tezos => "tezos"
    case Tron => "tron"
  }

  /** The device app each known family signs with. */
  function AppName(k: KnownFamily): string {
    match k
    case Algorand => "Algorand"
    case Bitcoin => "Bitcoin"
    case Cosmos => "Cosmos"
    case Ethereum => "Ethereum"
    case Polkadot => "Polkadot"
    case Ripple => "XRP"
    case Stellar => "Stellar"
    case Tezos => "Tezos"
    case Tron => "Tron"
  }

  /** The `switch (family)`: which case, if any, a family string selects. */
  function KnownFamilyOf(family: string): (r: Option<KnownFamily>)
    ensures r.Some? ==> FamilyName(r.value) == family
    ensures r.None? ==> forall k: KnownFamily :: FamilyName(k) != family
  {
    if family == "algorand" then Some(Algorand)
    else if family == "bitcoin" then Some(Bitcoin)
    else if family == "cosmos" then Some(Cosmos)
    else if family == "ethereum" then Some(Ethereum)
    else if family == "polkadot" then Some(Polkadot)
    else if family == "ripple" then Some(Ripple)
    else if family == "stellar" then Some(Stellar)
    else if family == "tezos" then Some(Tezos)
    else if family == "tron" then Some(Tron)
    else None
  }

  /** The SDK mocks the placeholder is built from, which this model does not
      look into: each known family's short and full raw transactions, and the
      common transaction fields. */
  datatype TxMocks = TxMocks(rawTx: KnownFamily -> Value, rawTxFull: KnownFamily -> Value, rawTxCommon: seq<Prop>)

  /** `{transaction, params: {useApp}}`. */
  datatype SignTxPayload = SignTxPayload(transaction: Value, useApp: string) {
    /** The payload as the object that gets pretty-printed. */
    function ToValue(): Value {
      Obj([Prop("transaction", transaction), Prop("params", Obj([Prop("useApp", Str(useApp))]))])
    }
  }

  /** Distinct families have distinct names. */
  lemma FamilyNameInjective()
    ensures forall k, j: KnownFamily :: FamilyName(k) == FamilyName(j) ==> k == j
  {
  }

  function ToUpperAscii(c: char): char {
    if 'a' <= c <= 'z' then (c as int - 'a' as int + 'A' as int) as char else c
  }

  /** `capitalizeFirstLetter`: the first character upper-cased, the rest kept. */
  function CapitalizeFirstLetter(s: string): (r: string)
    ensures |r| == |s|
    ensures s != [] ==> r[0] == ToUpperAscii(s[0]) && r[1..] == s[1..]
  {
    if s == [] then [] else [ToUpperAscii(s[0])] + s[1..]
  }

  /** `generateDefaultTx`: the common fields with `family` set to the family. */
  function GenerateDefaultTx(mocks: TxMocks, family: string): (tx: Value)
    ensures tx.Obj? && GetProp(tx, "family") == Ok(Str(family))
    ensures forall key :: key != "family" ==> Lookup(tx.props, key) == Lookup(mocks.rawTxCommon, key)
  {
    SetPropLookupAll(mocks.rawTxCommon, "family", Str(family));
    Obj(SetProp(mocks.rawTxCommon, "family", Str(family)))
  }

  /** `getPayloadSignTxPlaceholder({family, useFullTx})`; an absent flag means false. */
  function GetPayloadSignTxPlaceholder(mocks: TxMocks, family: string, useFullTx: Option<bool>): (p: SignTxPayload)
    ensures forall k: KnownFamily :: FamilyName(k) == family ==>
              p.useApp == AppName(k) &&
              p.transaction == (if useFullTx == Some(true) then mocks.rawTxFull(k) else mocks.rawTx(k))
    ensures (forall k: KnownFamily :: FamilyName(k) != family) ==>
              p.useApp == CapitalizeFirstLetter(family) && GetProp(p.transaction, "family") == Ok(Str(family))
  {
    FamilyNameInjective();
    var full := match useFullTx case Some(b) => b case None => false;
    match KnownFamilyOf(family)
    case Some(k) => SignTxPayload(if full then mocks.rawTxFull(k) else mocks.rawTx(k), AppName(k))
    case None => SignTxPayload(GenerateDefaultTx(mocks, family), CapitalizeFirstLetter(family))
  }

  /** A known family gets its full mock transaction exactly when the flag is
      set, and its own app name; leaving the flag out is the same as false. */
  lemma KnownFamilyPlaceholder(mocks: TxMocks, k: KnownFamily, useFullTx: bool)
    ensures var p := GetPayloadSignTxPlaceholder(mocks, FamilyName(k), Some(useFullTx));
            p.transaction == (if useFullTx then mocks.rawTxFull(k) else mocks.rawTx(k)) &&
            p.useApp == AppName(k)
    ensures GetPayloadSignTxPlaceholder(mocks, FamilyName(k), None) ==
            GetPayloadSignTxPlaceholder(mocks, FamilyName(k), Some(false))
  {
  }

  /** Every known family's app is its capitalised name, except Ripple's,
      which is "XRP". */
  lemma AppNamesFollowFamilies(k: KnownFamily)
    ensures k != Ripple ==> AppName(k) == CapitalizeFirstLetter(FamilyName(k))
    ensures AppName(Ripple) == "XRP" && CapitalizeFirstLetter(FamilyName(Ripple)) == "Ripple"
  {
    var name := FamilyName(k);
    var cap := CapitalizeFirstLetter(name);
    assert cap == [ToUpperAscii(name[0])] + name[1..];
    assert ToUpperAscii('r') == 'R';
    assert CapitalizeFirstLetter("ripple") == "R" + "ipple";
    match k {
      case Algorand => assert ToUpperAscii('a') == 'A';
      case Bitcoin => assert ToUpperAscii('b') == 'B';
      case Cosmos => assert ToUpperAscii('c') == 'C';
      case Ethereum => assert ToUpperAscii('e') == 'E';
      case Polkadot => assert ToUpperAscii('p') == 'P';
      case Ripple =>
      case Stellar => assert ToUpperAscii('s') == 'S';
      case Tezos => assert ToUpperAscii('t') == 'T';
      case Tron => assert ToUpperAscii('t') == 'T';
    }
  }

  /** Any other family gets the common transaction tagged with that family,
      the family capitalised as app name, and ignores the flag. */
  lemma OtherFamilyPlaceholder(mocks: TxMocks, family: string, useFullTx: Option<bool>)
    requires KnownFamilyOf(family).None?
    ensures var p := GetPayloadSignTxPlaceholder(mocks, family, useFullTx);
            p.useApp == CapitalizeFirstLetter(family) &&
            p.transaction.Obj? &&
            GetProp(p.transaction, "family") == Ok(Str(family)) &&
            (forall key :: key != "family" ==>
               Lookup(p.transaction.props, key) == Lookup(mocks.rawTxCommon, key)) &&
            p == GetPayloadSignTxPlaceholder(mocks, family, None)
  {
    var p := GetPayloadSignTxPlaceholder(mocks, family, useFullTx);
    SetPropLookup(mocks.rawTxCommon, "family", Str(family), "family");
    forall key | key != "family"
      ensures Lookup(p.transaction.props, key) == Lookup(mocks.rawTxCommon, key)
    {
      SetPropLookup(mocks.rawTxCommon, "family", Str(family), key);
    }
  }

  /** The pretty-printed object has exactly `transaction` and `params`, and
      `params` has exactly `useApp`. */
  lemma PayloadShape(p: SignTxPayload)
    ensures p.ToValue().Obj? && Keys(p.ToValue().props) == ["transaction", "params"]
    ensures GetProp(p.ToValue(), "transaction") == Ok(p.transaction)
    ensures var params := GetProp(p.ToValue(), "params");
            params.Ok? && params.value.Obj? && Keys(params.value.props) == ["useApp"] &&
            GetProp(params.value, "useApp") == Ok(Str(p.useApp))
  {
  }
}
