/**
  The results panel: one entry per result in history order, keyed by the
  result's id, with a status colour, the elapsed time and a body.
 */
module Output {
  import opened Js
  import opened Types

  datatype Unit = Milliseconds | Seconds

  /** The elapsed time between two instants: the unit `formatDistance` picks
      and the absolute difference in milliseconds it starts from. */
  datatype Distance = Distance(unit: Unit, diffMs: nat)

  function Abs(x: int): nat {
    if x < 0 then -x else x
  }

  /** `formatDistance(date, baseDate)`: milliseconds up to and including one
      second, seconds beyond. */
  function FormatDistance(date: int, baseDate: int): (d: Distance)
    ensures d.diffMs == Abs(date - baseDate)
    ensures d.unit == Milliseconds <==> Abs(date - baseDate) <= 1000
  {
    var diff := Abs(date - baseDate);
    if diff > 1000 then Distance(Seconds, diff) else Distance(Milliseconds, diff)
  }

  /** The printed distance when it is in milliseconds. */
  function MillisecondsText(d: Distance): (t: string)
    requires d.unit == Milliseconds
    ensures |t| > 13 && t[|t| - 13..] == " milliseconds"
    ensures forall i :: 0 <= i < |t| - 13 ==> IsDigit(t[i])
    ensures DecimalValue(t[..|t| - 13]) == d.diffMs
  {
    DecimalRoundTrip(d.diffMs);
    var t := NatToDecimal(d.diffMs) + " milliseconds";
    assert t[..|t| - 13] == NatToDecimal(d.diffMs);
    t
  }

  /** Swapping the two instants changes nothing. */
  lemma FormatDistanceSymmetric(a: int, b: int)
    ensures FormatDistance(a, b) == FormatDistance(b, a)
  {
  }

  /** In milliseconds the number printed before the unit is exactly the
      integer difference. */
  lemma MillisecondsTextExact(date: int, baseDate: int)
    requires Abs(date - baseDate) <= 1000
    ensures var t := MillisecondsText(FormatDistance(date, baseDate));
            |t| > 13 && t[|t| - 13..] == " milliseconds" &&
            (forall i :: 0 <= i < |t| - 13 ==> IsDigit(t[i])) &&
            DecimalValue(t[..|t| - 13]) == Abs(date - baseDate)
  {
    var n := Abs(date - baseDate);
    var t := MillisecondsText(FormatDistance(date, baseDate));
    assert t[..|t| - 13] == NatToDecimal(n);
    DecimalRoundTrip(n);
  }

  datatype Color = SuccessColor | WarningColor | ErrorColor

  /** The method name's colour: success for SUCCESS, warning for PENDING,
      error for anything else. */
  function StatusColor(status: ResultStatus): (c: Color)
    ensures c == SuccessColor <==> status == SUCCESS
    ensures c == WarningColor <==> status == PENDING
    ensures c == ErrorColor <==> status == ERROR
  {
    if status.SUCCESS? then SuccessColor
    else if status.PENDING? then WarningColor
    else ErrorColor
  }

  /** The code block: the data pretty-printed with four spaces on success,
      "[...]" while pending, `String(error)` otherwise. */
  function Body(env: Env, r: Result): (text: string)
    ensures r.Status() == SUCCESS ==> text == env.stringify(r.data, 4)
    ensures r.Status() == PENDING ==> text == "[...]"
    ensures r.Status() == ERROR ==> text == ErrorToString(r.error)
  {
    match r
    case ResultSuccess(_, _, _, _, _, data) => env.stringify(data, 4)
    case ResultPending(_, _, _, _, _, _) => "[...]"
    case ResultError(_, _, _, _, _, error) => ErrorToString(error)
  }

  datatype Entry = Entry(key: string, color: Color, methodId: string, elapsed: Distance, body: string)

  /** One result's entry. */
  function RenderOne(env: Env, r: Result): (e: Entry)
    ensures e.key == r.uuid && e.methodId == r.methodId
    ensures e.color == SuccessColor <==> r.ResultSuccess?
    ensures e.color == WarningColor <==> r.ResultPending?
    ensures e.elapsed.diffMs == Abs(r.respondedAt - r.queriedAt)
  {
    Entry(r.uuid, StatusColor(r.Status()), r.methodId, FormatDistance(r.respondedAt, r.queriedAt), Body(env, r))
  }

  /** `results.map(...)`: one entry per result, in history order. */
  function Render(env: Env, results: seq<Result>): (entries: seq<Entry>)
    ensures |entries| == |results|
    ensures forall k :: 0 <= k < |results| ==> entries[k] == RenderOne(env, results[k])
  {
    if results == [] then [] else [RenderOne(env, results[0])] + Render(env, results[1..])
  }

  /** Each entry is keyed by its result's id and shows that result's method,
      status colour, elapsed time and body. */
  lemma RenderEntries(env: Env, results: seq<Result>, k: nat)
    requires k < |results|
    ensures var e := Render(env, results)[k];
            e.key == results[k].uuid &&
            e.methodId == results[k].methodId &&
            e.color == StatusColor(results[k].Status()) &&
            e.elapsed == FormatDistance(results[k].respondedAt, results[k].queriedAt) &&
            e.body == Body(env, results[k])
  {
  }

  /** Rendering a history that grew at the end leaves the earlier entries as they were. */
  lemma {:induction false} RenderAppend(env: Env, a: seq<Result>, b: seq<Result>)
    ensures Render(env, a + b) == Render(env, a) + Render(env, b)
  {
    if a == [] {
      assert a + b == b;
    } else {
      assert (a + b)[0] == a[0];
      assert (a + b)[1..] == a[1..] + b;
      RenderAppend(env, a[1..], b);
    }
  }
}
