/**
 Counting events in windows of time.  Times are whole microseconds, the resolution of the clock.
 */
module Windows {

  const SECOND := 1_000_000
  const MINUTE := 60 * SECOND

  predicate Ordered(times: seq<int>) {
    forall i, j :: 0 <= i < j < |times| ==> times[i] <= times[j]
  }

  lemma OrderedSnoc(times: seq<int>, t: int)
    requires Ordered(times) && (times != [] ==> times[|times| - 1] <= t)
    ensures Ordered(times + [t])
  {
    forall i, j | 0 <= i < j < |times| + 1 ensures (times + [t])[i] <= (times + [t])[j] {
      if j == |times| && i < |times| - 1 {
        assert times[i] <= times[|times| - 1];
      }
    }
  }

  /** The number of events at lo or later and before hi. */
  function CountIn(times: seq<int>, lo: int, hi: int): nat {
    if times == [] then 0
    else
      var last := times[|times| - 1];
      CountIn(times[..|times| - 1], lo, hi) + if lo <= last < hi then 1 else 0
  }

  /** The events in a window lie between a first and a last one. */
  lemma {:induction false} CountSpan(times: seq<int>, lo: int, hi: int) returns (i: nat, j: nat)
    requires Ordered(times) && CountIn(times, lo, hi) > 0
    ensures i <= j < |times| && lo <= times[i] && times[j] < hi && CountIn(times, lo, hi) <= j - i + 1
  {
    var n := |times| - 1;
    if CountIn(times[..n], lo, hi) == 0 {
      i, j := n, n;
    } else {
      i, j := CountSpan(times[..n], lo, hi);
      if lo <= times[n] < hi {
        j := n;
      }
    }
  }
}
