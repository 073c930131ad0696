/**
  The second-generation debugger console as a reducer over discrete events:
  choosing a method, editing a slot, pressing Send, a call settling, Clear,
  and the reference context arriving. Promises are not modelled; a call in
  flight is a record that a later settlement event completes.
 */
module Console {
  import opened Js
  import opened Types
  import opened Catalog
  import opened Inputs
  import opened History

  /** A call whose promise has not settled yet, with what was captured when
      Send was pressed. */
  datatype Call = Call(uuid: string, methodId: string, inputs: seq<Value>, queriedAt: int, request: SdkRequest)

  datatype State = State(
    handlers: seq<MethodHandler>,
    chosen: string,            // the id of the chosen option
    values: seq<Value>,        // raw slot values
    results: seq<Result>,
    loading: bool,
    context: DebuggerContext,
    inFlight: seq<Call>)

  datatype Event =
    | MethodChosen(id: string)
    | SlotChanged(slot: nat, value: Value)
    | SendPressed(uuid: string, now: int)
    | CallSettled(uuid: string, outcome: Outcome<Value>, now: int)
    | ClearPressed
    | ContextFetched(context: DebuggerContext)

  /** The position of the method the chosen id resolves to, if any. */
  function Selected(s: State): Option<nat> {
    FindHandler(s.handlers, s.chosen)
  }

  /** The console once mounted: the live catalog (the mock flag is never
      passed), its first method chosen and its defaults loaded, an empty
      history and the empty context. */
  function Init(fx: Fixtures): (s: State)
    ensures s.chosen == "listCurrencies" && Selected(s) == Some(0)
    ensures s.values == DefaultValues(s.handlers[0].inputs)
    ensures s.results == [] && s.inFlight == [] && !s.loading
    ensures s.context.accounts == [] && s.context.currencies == []
  {
    var hs := GetHandlers(fx, false);
    CatalogShape(fx, false);
    FindHandlerOfOwnId(hs, 0);
    State(hs, hs[0].id, DefaultValues(hs[0].inputs), [], false, InitialContext, [])
  }

  /** Choosing a method: the slot vector is reset to the new method's defaults
      when the chosen id resolves to a different method than before; choosing
      the same method again, or an unknown id, leaves the slots alone. */
  function OnMethodChosen(s: State, id: string): (s': State)
    ensures s'.chosen == id
    ensures s'.handlers == s.handlers && s'.results == s.results && s'.inFlight == s.inFlight
    ensures s'.loading == s.loading && s'.context == s.context
    ensures Selected(s').Some? && Selected(s') != Selected(s) ==>
              var inputs := s.handlers[Selected(s').value].inputs;
              |s'.values| == |inputs| &&
              forall k :: 0 <= k < |inputs| ==> s'.values[k] == DefaultOf(inputs[k])
    ensures Selected(s').None? || Selected(s') == Selected(s) ==> s'.values == s.values
  {
    var before := Selected(s);
    var s1 := s.(chosen := id);
    match Selected(s1)
    case Some(i) => if Some(i) != before then s1.(values := DefaultValues(s.handlers[i].inputs)) else s1
    case None => s1
  }

  /** A slot's widget reporting a new raw value. */
  function OnSlotChanged(s: State, i: nat, v: Value): (s': State)
    ensures s' == s.(values := s'.values)
    ensures i < |s.values| ==> |s'.values| == |s.values|
    ensures i < |s'.values| && s'.values[i] == v
    ensures forall j :: 0 <= j < |s.values| && j != i ==> s'.values[j] == s.values[j]
  {
    s.(values := EditSlot(s.values, i, v))
  }

  /** Send: with no method resolved nothing happens. Otherwise the argument
      vector is composed from the current raw values; a failing modifier
      records one ERROR result at once and calls nothing, while a composed
      vector issues exactly one request and leaves the history as it is. */
  function OnSend(s: State, env: Env, uuid: string, now: int): (s': State)
    ensures s'.handlers == s.handlers && s'.chosen == s.chosen && s'.values == s.values
    ensures s'.context == s.context
    ensures Selected(s).None? ==> s' == s
    ensures Selected(s).Some? ==>
              var h := s.handlers[Selected(s).value];
              match Compose(env, h.inputs, s.values)
              case Thrown(e) =>
                s'.results == s.results + [ResultError(uuid, h.id, s.values, now, now, e)] &&
                s'.inFlight == s.inFlight && !s'.loading
              case Ok(args) =>
                s'.results == s.results && s'.loading &&
                s'.inFlight == s.inFlight + [Call(uuid, h.id, s.values, now, Invoke(h.handler, args))]
  {
    match Selected(s)
    case None => s
    case Some(i) =>
      var h := s.handlers[i];
      match Compose(env, h.inputs, s.values)
      case Thrown(e) =>
        s.(results := AppendError(s.results, ResultError(uuid, h.id, s.values, now, now, e)), loading := false)
      case Ok(args) =>
        s.(loading := true, inFlight := s.inFlight + [Call(uuid, h.id, s.values, now, Invoke(h.handler, args))])
  }

  /** The position of the first call in flight with the given id. */
  function FindCall(calls: seq<Call>, uuid: string): (r: Option<nat>)
    ensures r.Some? ==> r.value < |calls| && calls[r.value].uuid == uuid
    ensures r.None? <==> forall k :: 0 <= k < |calls| ==> calls[k].uuid != uuid
  {
    if calls == [] then None
    else if calls[0].uuid == uuid then Some(0)
    else match FindCall(calls[1..], uuid)
      case None => None
      case Some(k) => Some(k + 1)
  }

  /** The result a settled call records: the raw inputs, method id and
      submission time captured at Send, and the settlement time. */
  function Settled(c: Call, outcome: Outcome<Value>, now: int): (r: Result)
    ensures r.uuid == c.uuid && r.methodId == c.methodId && r.inputs == c.inputs
    ensures r.queriedAt == c.queriedAt && r.respondedAt == now
    ensures outcome.Ok? <==> r.Status() == SUCCESS
    ensures outcome.Ok? ==> r.data == outcome.value
    ensures outcome.Thrown? ==> r.Status() == ERROR && r.error == outcome.error
  {
    match outcome
    case Ok(data) => ResultSuccess(c.uuid, c.methodId, c.inputs, c.queriedAt, now, data)
    case Thrown(e) => ResultError(c.uuid, c.methodId, c.inputs, c.queriedAt, now, e)
  }

  /** A call settling: it leaves the calls in flight, the loading flag drops,
      and its result is appended to whatever the history is now — with the
      capped update on success and the uncapped one on error. */
  function OnSettled(s: State, uuid: string, outcome: Outcome<Value>, now: int): (s': State)
    ensures s'.handlers == s.handlers && s'.chosen == s.chosen && s'.values == s.values
    ensures s'.context == s.context
    ensures FindCall(s.inFlight, uuid).None? ==> s' == s
    ensures FindCall(s.inFlight, uuid).Some? ==>
              var k := FindCall(s.inFlight, uuid).value;
              var r := Settled(s.inFlight[k], outcome, now);
              !s'.loading &&
              s'.inFlight == s.inFlight[..k] + s.inFlight[k + 1..] &&
              s'.results == (if outcome.Ok? then AppendSuccess(s.results, r) else AppendError(s.results, r))
  {
    match FindCall(s.inFlight, uuid)
    case None => s
    case Some(k) =>
      var r := Settled(s.inFlight[k], outcome, now);
      var rest := s.inFlight[..k] + s.inFlight[k + 1..];
      if outcome.Ok? then s.(loading := false, results := AppendSuccess(s.results, r), inFlight := rest)
      else s.(loading := false, results := AppendError(s.results, r), inFlight := rest)
  }

  /** Clear empties the history and cancels nothing. */
  function OnClear(s: State): (s': State)
    ensures s'.results == []
    ensures s' == s.(results := s'.results)
  {
    s.(results := Cleared)
  }

  /** One event: the catalog never changes, only a context load replaces the
      context, and the history grows by at most one entry. */
  function Step(s: State, env: Env, e: Event): (r: State)
    ensures r.handlers == s.handlers
    ensures !e.ContextFetched? ==> r.context == s.context
    ensures |r.results| <= |s.results| + 1
  {
    match e
    case MethodChosen(id) => OnMethodChosen(s, id)
    case SlotChanged(i, v) => OnSlotChanged(s, i, v)
    case SendPressed(uuid, now) => OnSend(s, env, uuid, now)
    case CallSettled(uuid, outcome, now) => OnSettled(s, uuid, outcome, now)
    case ClearPressed => OnClear(s)
    case ContextFetched(ctx) => s.(context := ctx)
  }

  /** A sequence of events, oldest first: the catalog stays the one mounted
      and the history grows by at most one entry per event. */
  function Run(s: State, env: Env, events: seq<Event>): (r: State)
    ensures r.handlers == s.handlers
    ensures |r.results| <= |s.results| + |events|
    decreases |events|
  {
    if events == [] then s else Run(Step(s, env, events[0]), env, events[1..])
  }

  /** One event grows the history by at most one entry, and takes a history
      within the capacity past it only by appending an ERROR result. */
  lemma StepGrowth(s: State, env: Env, e: Event)
    ensures |Step(s, env, e).results| <= |s.results| + 1
    ensures |s.results| <= Capacity < |Step(s, env, e).results| ==>
              Step(s, env, e).results[..|s.results|] == s.results &&
              Step(s, env, e).results[|s.results|].Status() == ERROR
  {
  }

  /** A call still in flight when Clear is pressed is not cancelled: its
      settlement lands in the emptied history as its only entry. */
  lemma LateSettlementAfterClear(s: State, uuid: string, outcome: Outcome<Value>, now: int)
    requires FindCall(s.inFlight, uuid).Some?
    ensures var s' := OnSettled(OnClear(s), uuid, outcome, now);
            |s'.results| == 1 &&
            s'.results[0] == Settled(s.inFlight[FindCall(s.inFlight, uuid).value], outcome, now)
  {
  }

  lemma FindCallAfterAppend(calls: seq<Call>, c: Call, uuid: string)
    ensures c.uuid != uuid ==> FindCall(calls + [c], uuid) == FindCall(calls, uuid)
    ensures c.uuid == uuid && FindCall(calls, uuid).None? ==> FindCall(calls + [c], uuid) == Some(|calls|)
  {
    if calls != [] {
      assert (calls + [c])[1..] == calls[1..] + [c];
      FindCallAfterAppend(calls[1..], c, uuid);
    }
  }

  /** Either history update puts the new result last and the previous last
      entry right before it. */
  lemma AppendKeepsPreviousLast(h: seq<Result>, r: Result, success: bool)
    requires h != []
    ensures var h' := if success then AppendSuccess(h, r) else AppendError(h, r);
            |h'| >= 2 && h'[|h'| - 1] == r && h'[|h'| - 2] == h[|h| - 1]
  {
    var h' := if success then AppendSuccess(h, r) else AppendError(h, r);
    assert h'[..|h'| - 1] == h || h'[..|h'| - 1] == h[1..];
  }

  /** A Send whose composition succeeds adds one call with its id at the end
      of the calls in flight, and leaves the method and slots as they were. */
  lemma SendIssuesCall(s: State, env: Env, uuid: string, now: int)
    requires Selected(s).Some?
    requires Compose(env, s.handlers[Selected(s).value].inputs, s.values).Ok?
    ensures var s' := OnSend(s, env, uuid, now);
            s'.handlers == s.handlers && s'.chosen == s.chosen && s'.values == s.values &&
            s'.results == s.results &&
            |s'.inFlight| == |s.inFlight| + 1 &&
            s'.inFlight == s.inFlight + [s'.inFlight[|s.inFlight|]] &&
            s'.inFlight[|s.inFlight|].uuid == uuid
  {
  }

  /** Settling the call at position `k` removes exactly it and appends its result last. */
  lemma SettleRecords(s: State, uuid: string, outcome: Outcome<Value>, now: int, k: nat)
    requires FindCall(s.inFlight, uuid) == Some(k)
    ensures var s' := OnSettled(s, uuid, outcome, now);
            s'.inFlight == s.inFlight[..k] + s.inFlight[k + 1..] &&
            |s'.results| >= 1 &&
            s'.results[|s'.results| - 1] == Settled(s.inFlight[k], outcome, now) &&
            (s.results != [] ==> |s'.results| >= 2 && s'.results[|s'.results| - 2] == s.results[|s.results| - 1])
  {
    var r := Settled(s.inFlight[k], outcome, now);
    var s' := OnSettled(s, uuid, outcome, now);
    if outcome.Ok? {
      assert s'.results == AppendSuccess(s.results, r);
    } else {
      assert s'.results == AppendError(s.results, r);
    }
    if s.results != [] {
      AppendKeepsPreviousLast(s.results, r, outcome.Ok?);
    }
  }

  /** Two calls in flight at the end, settled in reverse order: the later
      one's result lands first, and both leave the set in flight. */
  lemma SettleInReverse(s: State, base: seq<Call>, cA: Call, cB: Call,
                        outA: Outcome<Value>, outB: Outcome<Value>, sB: int, sA: int)
    requires s.inFlight == base + [cA] + [cB]
    requires cA.uuid != cB.uuid
    requires FindCall(base, cA.uuid).None? && FindCall(base, cB.uuid).None?
    ensures var s4 := OnSettled(OnSettled(s, cB.uuid, outB, sB), cA.uuid, outA, sA);
            |s4.results| >= 2 &&
            s4.results[|s4.results| - 1].uuid == cA.uuid &&
            s4.results[|s4.results| - 2].uuid == cB.uuid &&
            s4.inFlight == base
  {
    var n := |base|;
    assert FindCall(s.inFlight, cB.uuid) == Some(n + 1) by {
      FindCallAfterAppend(base, cA, cB.uuid);
      FindCallAfterAppend(base + [cA], cB, cB.uuid);
    }
    var s3 := OnSettled(s, cB.uuid, outB, sB);
    SettleRecords(s, cB.uuid, outB, sB, n + 1);
    assert s3.inFlight == base + [cA] by {
      assert s.inFlight[..n + 1] == base + [cA];
    }
    assert FindCall(s3.inFlight, cA.uuid) == Some(n) by {
      FindCallAfterAppend(base, cA, cA.uuid);
    }
    SettleRecords(s3, cA.uuid, outA, sA, n);
    assert (base + [cA])[..n] == base;
  }

  /** Results are ordered by completion: A sent before B but settling after it
      ends up after B, and both calls have left the set in flight. */
  lemma CompletionOrder(s: State, env: Env, a: string, b: string, tA: int, tB: int,
                        outA: Outcome<Value>, outB: Outcome<Value>, sB: int, sA: int)
    requires Selected(s).Some?
    requires Compose(env, s.handlers[Selected(s).value].inputs, s.values).Ok?
    requires a != b
    requires FindCall(s.inFlight, a).None? && FindCall(s.inFlight, b).None?
    ensures var s2 := OnSend(OnSend(s, env, a, tA), env, b, tB);
            var s4 := OnSettled(OnSettled(s2, b, outB, sB), a, outA, sA);
            |s4.results| >= 2 &&
            s4.results[|s4.results| - 1].uuid == a &&
            s4.results[|s4.results| - 2].uuid == b &&
            s4.inFlight == s.inFlight
  {
    var n := |s.inFlight|;
    var s1 := OnSend(s, env, a, tA);
    SendIssuesCall(s, env, a, tA);
    var s2 := OnSend(s1, env, b, tB);
    SendIssuesCall(s1, env, b, tB);
    SettleInReverse(s2, s.inFlight, s1.inFlight[n], s2.inFlight[n + 1], outA, outB, sB, sA);
  }

  /** One Send press per id, all at the same instant. */
  function SendPresses(uuids: seq<string>, now: int): (events: seq<Event>)
    ensures |events| == |uuids|
    ensures forall k :: 0 <= k < |uuids| ==> events[k] == SendPressed(uuids[k], now)
    decreases |uuids|
  {
    if uuids == [] then [] else [SendPressed(uuids[0], now)] + SendPresses(uuids[1..], now)
  }

  /** A Send whose composition fails appends one ERROR result and keeps the
      method, the slots and the calls in flight, so the next Send fails too. */
  lemma FailedSendStep(s: State, env: Env, uuid: string, now: int)
    requires Selected(s).Some?
    requires Compose(env, s.handlers[Selected(s).value].inputs, s.values).Thrown?
    ensures var s1 := Step(s, env, SendPressed(uuid, now));
            s1.handlers == s.handlers && s1.chosen == s.chosen && s1.values == s.values &&
            s1.inFlight == s.inFlight &&
            |s1.results| == |s.results| + 1 &&
            s1.results[..|s.results|] == s.results &&
            s1.results[|s.results|].Status() == ERROR
  {
  }

  /** `n` presses of Send whose composition fails append `n` ERROR results and
      evict nothing, so failures alone grow the history past ten entries. */
  lemma {:induction false} FailedSendsAccumulate(s: State, env: Env, uuids: seq<string>, now: int)
    requires Selected(s).Some?
    requires Compose(env, s.handlers[Selected(s).value].inputs, s.values).Thrown?
    ensures var s' := Run(s, env, SendPresses(uuids, now));
            |s'.results| == |s.results| + |uuids| &&
            s'.results[..|s.results|] == s.results &&
            (forall k :: |s.results| <= k < |s'.results| ==> s'.results[k].Status() == ERROR) &&
            s'.inFlight == s.inFlight
    decreases |uuids|
  {
    if uuids != [] {
      var events := SendPresses(uuids, now);
      var s1 := Step(s, env, SendPressed(uuids[0], now));
      FailedSendStep(s, env, uuids[0], now);
      assert Selected(s1) == Selected(s);
      FailedSendsAccumulate(s1, env, uuids[1..], now);
      assert events[0] == SendPressed(uuids[0], now) && events[1..] == SendPresses(uuids[1..], now);
      var s' := Run(s1, env, SendPresses(uuids[1..], now));
      assert Run(s, env, events) == s';
      assert s'.results[..|s.results|] == s1.results[..|s.results|];
      forall k | |s.results| <= k < |s'.results|
        ensures s'.results[k].Status() == ERROR
      {
        if k == |s.results| {
          assert s'.results[k] == s1.results[..|s1.results|][k];
        }
      }
    }
  }
}
