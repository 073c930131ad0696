/**
  The result history of the second-generation console as a reducer: a
  success appends and then drops the oldest entry once the list is longer
  than ten, an error appends without any eviction, and Clear empties it.
 */
module History {
  import opened Types

  /** The length past which a success append evicts the oldest entry. */
  const Capacity: nat := 10

  /** The success path's functional update: append, then `shift()` when the
      list has grown past the capacity. */
  function AppendSuccess(h: seq<Result>, r: Result): (h': seq<Result>)
    ensures |h'| == if |h| < Capacity then |h| + 1 else |h|
    ensures h'[|h'| - 1] == r
    ensures |h| < Capacity ==> h'[..|h'| - 1] == h
    ensures |h| >= Capacity ==> h'[..|h'| - 1] == h[1..]
  {
    var grown := h + [r];
    if |grown| > Capacity then grown[1..] else grown
  }

  /** The error path's functional update: append, never evict. */
  function AppendError(h: seq<Result>, r: Result): (h': seq<Result>)
    ensures |h'| == |h| + 1
    ensures h'[..|h|] == h && h'[|h|] == r
  {
    h + [r]
  }

  /** The history after the Clear button. */
  const Cleared: seq<Result> := []

  /** A history within the capacity stays within it across a success append. */
  lemma SuccessKeepsBound(h: seq<Result>, r: Result)
    requires |h| <= Capacity
    ensures |AppendSuccess(h, r)| <= Capacity
  {
  }

  /** The last `n` entries of `s` (all of them when there are fewer). */
  function LastN<T>(s: seq<T>, n: nat): (t: seq<T>)
    ensures |t| == if |s| <= n then |s| else n
    ensures t == s[|s| - |t|..]
  {
    if |s| <= n then s else s[|s| - n..]
  }

  function AppendSuccesses(h: seq<Result>, rs: seq<Result>): seq<Result>
    decreases |rs|
  {
    if rs == [] then h else AppendSuccesses(AppendSuccess(h, rs[0]), rs[1..])
  }

  function AppendErrors(h: seq<Result>, rs: seq<Result>): seq<Result>
    decreases |rs|
  {
    if rs == [] then h else AppendErrors(AppendError(h, rs[0]), rs[1..])
  }

  lemma LastNOfSuffix<T>(s: seq<T>, d: nat, n: nat)
    requires d <= |s|
    requires |s| - d >= n || d == 0
    ensures LastN(s[d..], n) == LastN(s, n)
  {
    if d > 0 {
      assert s[d..][|s[d..]| - |LastN(s[d..], n)|..] == s[|s| - |LastN(s[d..], n)|..];
    }
  }

  /** Trimming to the last `n` before appending more loses nothing the final
      trim would keep. */
  lemma {:induction false} LastNAbsorbs<T>(a: seq<T>, b: seq<T>, n: nat)
    ensures LastN(LastN(a, n) + b, n) == LastN(a + b, n)
  {
    if |a| > n {
      var d := |a| - n;
      assert LastN(a, n) + b == (a + b)[d..];
      LastNOfSuffix(a + b, d, n);
    }
  }

  lemma AppendSuccessIsWindow(h: seq<Result>, r: Result)
    requires |h| <= Capacity
    ensures AppendSuccess(h, r) == LastN(h + [r], Capacity)
  {
  }

  /** Successes alone behave as a window over the ten most recent results:
      from a history within the capacity, the entries kept are exactly the
      last ten of everything appended, in completion order. */
  lemma {:induction false} SuccessWindow(h: seq<Result>, rs: seq<Result>)
    requires |h| <= Capacity
    ensures AppendSuccesses(h, rs) == LastN(h + rs, Capacity)
    decreases |rs|
  {
    if rs == [] {
      assert h + rs == h;
    } else {
      var h1 := AppendSuccess(h, rs[0]);
      AppendSuccessIsWindow(h, rs[0]);
      SuccessWindow(h1, rs[1..]);
      WindowAbsorbsOne(h, rs);
    }
  }

  lemma WindowAbsorbsOne(h: seq<Result>, rs: seq<Result>)
    requires rs != []
    ensures LastN(LastN(h + [rs[0]], Capacity) + rs[1..], Capacity) == LastN(h + rs, Capacity)
  {
    LastNAbsorbs(h + [rs[0]], rs[1..], Capacity);
    assert h + [rs[0]] + rs[1..] == h + rs;
  }

  /** Errors alone never evict: every error lands after the existing entries,
      so a run of them can take the history past the capacity. */
  lemma {:induction false} ErrorsNeverEvict(h: seq<Result>, rs: seq<Result>)
    ensures AppendErrors(h, rs) == h + rs
    ensures |AppendErrors(h, rs)| == |h| + |rs|
    decreases |rs|
  {
    if rs != [] {
      ErrorsNeverEvict(h + [rs[0]], rs[1..]);
      assert h + [rs[0]] + rs[1..] == h + rs;
    }
  }

  /** Over the capacity (after errors), a success keeps the length and drops
      exactly the front entry. */
  lemma SuccessPastCapacityDropsFront(h: seq<Result>, r: Result)
    requires |h| > Capacity
    ensures AppendSuccess(h, r) == h[1..] + [r]
    ensures |AppendSuccess(h, r)| == |h|
  {
  }
}
