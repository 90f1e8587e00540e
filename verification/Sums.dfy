/** Sums over sequences of integers. */
module Sums {

  function Sum(v: seq<int>): int {
    if v == [] then 0 else Sum(v[..|v| - 1]) + v[|v| - 1]
  }

  lemma {:induction false} SumPoint(v: seq<int>, w: seq<int>, j: nat)
    requires |v| == |w| && j < |v|
    requires forall k :: 0 <= k < |v| && k != j ==> v[k] == w[k]
    ensures Sum(w) - Sum(v) == w[j] - v[j]
    decreases |v|
  {
    var last := |v| - 1;
    if j < last {
      SumPoint(v[..last], w[..last], j);
    } else {
      assert v[..last] == w[..last];
    }
  }

  lemma {:induction false} SumRise(v: seq<int>, w: seq<int>)
    requires |v| == |w|
    requires forall k :: 0 <= k < |v| ==> w[k] <= v[k] + 1
    ensures Sum(w) <= Sum(v) + |v|
    decreases |v|
  {
    if v != [] {
      var last := |v| - 1;
      assert forall k :: 0 <= k < last ==> w[..last][k] <= v[..last][k] + 1;
      SumRise(v[..last], w[..last]);
    }
  }

  lemma {:induction false} SumLow(v: seq<int>)
    requires forall k :: 0 <= k < |v| ==> v[k] >= 0
    ensures Sum(v) >= 0
    decreases |v|
  {
    if v != [] {
      SumLow(v[..|v| - 1]);
    }
  }
}
