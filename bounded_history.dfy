/**
 * Histories capped by `push` followed by one `shift` when too long: the
 * selector's bandwidth trend and switch history, and the monitor's
 * moving-average window.
 */
module BoundedHistory {

  /** `s.push(x); if (s.length > cap) s.shift();` */
  function PushBounded<T>(s: seq<T>, x: T, cap: int): (r: seq<T>)
    ensures r == s + [x] || r == (s + [x])[1..]
    ensures 0 <= cap && |s| <= cap ==> |r| == if |s| < cap then |s| + 1 else cap
    ensures 1 <= cap ==> |r| >= 1 && r[|r| - 1] == x
  {
    var t := s + [x];
    if |t| > cap then t[1..] else t
  }

  /** The history after pushing every value of `xs`, in order. */
  function PushAll<T>(s: seq<T>, xs: seq<T>, cap: int): seq<T>
    decreases |xs|
  {
    if xs == [] then s else PushAll(PushBounded(s, xs[0], cap), xs[1..], cap)
  }

  /** The last `cap` values of `all` (all of them when there are fewer). */
  function Recent<T>(all: seq<T>, cap: nat): seq<T> {
    if |all| < cap then all else all[|all| - cap..]
  }

  /**
   * Starting from any window no longer than `cap`, after any number of pushes
   * the window holds exactly the most recent `cap` values, in arrival order.
   */
  lemma {:induction false} PushAllKeepsMostRecent<T>(s: seq<T>, xs: seq<T>, cap: nat)
    requires |s| <= cap
    ensures PushAll(s, xs, cap) == Recent(s + xs, cap)
    decreases |xs|
  {
    if xs == [] {
      assert s + xs == s;
    } else {
      var t := s + [xs[0]];
      var s' := PushBounded(s, xs[0], cap);
      PushAllKeepsMostRecent(s', xs[1..], cap);
      var all := s + xs;
      assert t + xs[1..] == all;
      if |t| > cap {
        assert s' == t[1..];
        assert s' + xs[1..] == all[1..];
        assert all[1..][|all| - 1 - cap..] == all[|all| - cap..];
      } else {
        assert s' == t;
      }
    }
  }

  /** `reduce((a, b) => a + b, 0)` */
  function Sum(values: seq<real>): real {
    if values == [] then 0.0 else values[0] + Sum(values[1..])
  }

  /** The arithmetic mean of a window, 0 for an empty one. */
  function Mean(values: seq<real>): real {
    if values == [] then 0.0 else Sum(values) / |values| as real
  }

  lemma {:induction false} SumBetween(values: seq<real>, lo: real, hi: real)
    requires forall i :: 0 <= i < |values| ==> lo <= values[i] <= hi
    ensures |values| as real * lo <= Sum(values) <= |values| as real * hi
    decreases |values|
  {
    if values != [] {
      SumBetween(values[1..], lo, hi);
    }
  }

  /** The mean of a non-empty window lies between any bounds on its values. */
  lemma MeanBetween(values: seq<real>, lo: real, hi: real)
    requires values != []
    requires forall i :: 0 <= i < |values| ==> lo <= values[i] <= hi
    ensures lo <= Mean(values) <= hi
  {
    SumBetween(values, lo, hi);
    var n := |values| as real;
    var m := Sum(values) / n;
    assert Mean(values) == m;
    QuotientBetween(Sum(values), n, lo, hi);
  }

  lemma QuotientBetween(total: real, n: real, lo: real, hi: real)
    requires n > 0.0 && n * lo <= total <= n * hi
    ensures lo <= total / n <= hi
  {
    assert total / n - lo == (total - n * lo) / n;
    assert hi - total / n == (n * hi - total) / n;
  }

  /** A window of equal values averages to that value. */
  lemma MeanOfConstant(values: seq<real>, c: real)
    requires values != []
    requires forall i :: 0 <= i < |values| ==> values[i] == c
    ensures Mean(values) == c
  {
    MeanBetween(values, c, c);
  }

  /** The smallest value of a non-empty window. */
  function MinOf(values: seq<real>): (m: real)
    requires values != []
    ensures m in values
    ensures forall i :: 0 <= i < |values| ==> m <= values[i]
  {
    if |values| == 1 then values[0]
    else
      var rest := MinOf(values[1..]);
      assert forall i :: 1 <= i < |values| ==> values[i] == values[1..][i - 1];
      if values[0] <= rest then values[0] else rest
  }

  /** The largest value of a non-empty window. */
  function MaxOf(values: seq<real>): (m: real)
    requires values != []
    ensures m in values
    ensures forall i :: 0 <= i < |values| ==> values[i] <= m
  {
    if |values| == 1 then values[0]
    else
      var rest := MaxOf(values[1..]);
      assert forall i :: 1 <= i < |values| ==> values[i] == values[1..][i - 1];
      if values[0] >= rest then values[0] else rest
  }
}
