/** The sliding window of the shake sprint: the list of shake timestamps is filtered so that
    only those strictly after a cutoff (one second before now) remain, in their original order. */
module ShakeWindow {

  /** Timestamps in the order they were recorded, never going back in time. */
  predicate Sorted(times: seq<real>)
  {
    forall i, j :: 0 <= i <= j < |times| ==> times[i] <= times[j]
  }

  /** `filter { $0 > cutoff }`: the timestamps later than `cutoff`, in order. */
  function KeepAfter(times: seq<real>, cutoff: real): (kept: seq<real>)
    ensures |kept| <= |times|
    ensures forall i :: 0 <= i < |kept| ==> kept[i] > cutoff
  {
    if |times| == 0 then []
    else (if times[0] > cutoff then [times[0]] else []) + KeepAfter(times[1..], cutoff)
  }

  /** Every timestamp after the cutoff is kept as often as it occurs; none other is. */
  lemma {:induction false} KeepAfterCounts(times: seq<real>, cutoff: real, x: real)
    ensures multiset(KeepAfter(times, cutoff))[x] == if x > cutoff then multiset(times)[x] else 0
  {
    if |times| > 0 {
      KeepAfterCounts(times[1..], cutoff, x);
      assert times == [times[0]] + times[1..];
    }
  }

  /** The filter works element by element: filtering a concatenation concatenates the filtered
      parts, so the kept timestamps keep their relative order. */
  lemma {:induction false} KeepAfterDistributes(a: seq<real>, b: seq<real>, cutoff: real)
    ensures KeepAfter(a + b, cutoff) == KeepAfter(a, cutoff) + KeepAfter(b, cutoff)
  {
    if |a| > 0 {
      assert (a + b)[1..] == a[1..] + b;
      KeepAfterDistributes(a[1..], b, cutoff);
    } else {
      assert a + b == b;
    }
  }

  /** Over a time-ordered list the filter evicts a prefix: what remains is a suffix, and
      everything evicted lies at or before the cutoff. */
  lemma {:induction false} SortedKeepsSuffix(times: seq<real>, cutoff: real)
    requires Sorted(times)
    ensures var kept := KeepAfter(times, cutoff);
      kept == times[|times| - |kept|..] &&
      forall i :: 0 <= i < |times| - |kept| ==> times[i] <= cutoff
  {
    if |times| > 0 {
      var rest := times[1..];
      SortedKeepsSuffix(rest, cutoff);
      var keptRest := KeepAfter(rest, cutoff);
      if times[0] > cutoff {
        assert forall i :: 0 <= i < |rest| ==> rest[i] > cutoff;
        assert keptRest == rest;
        assert KeepAfter(times, cutoff) == [times[0]] + rest;
      } else {
        assert KeepAfter(times, cutoff) == keptRest;
      }
    }
  }

  /** The filter keeps a time-ordered list in time order. */
  lemma KeepAfterKeepsOrder(times: seq<real>, cutoff: real)
    ensures Sorted(times) ==> Sorted(KeepAfter(times, cutoff))
  {
    if Sorted(times) {
      SortedKeepsSuffix(times, cutoff);
      SuffixOfSortedIsSorted(times, |times| - |KeepAfter(times, cutoff)|);
    }
  }

  /** Recording a timestamp no earlier than all retained ones keeps the list in time order. */
  lemma AppendLatestKeepsOrder(times: seq<real>, latest: real)
    ensures Sorted(times) && (forall i :: 0 <= i < |times| ==> times[i] <= latest) ==>
      Sorted(times + [latest])
  {
    if Sorted(times) && (forall i :: 0 <= i < |times| ==> times[i] <= latest) {
      var extended := times + [latest];
      forall i, j | 0 <= i <= j < |extended| ensures extended[i] <= extended[j] {
        if j == |times| {
          assert extended[j] == latest;
        }
      }
    }
  }

  /** A suffix of a time-ordered list is time-ordered. */
  lemma SuffixOfSortedIsSorted(times: seq<real>, k: nat)
    requires Sorted(times) && k <= |times|
    ensures Sorted(times[k..])
  {
  }
}
