/** Sums of natural numbers, one weight per row of a table. */
module Sums {

  function Sum(w: seq<nat>): nat {
    if w == [] then 0 else Sum(w[..|w| - 1]) + w[|w| - 1]
  }

  /** Lowering some weights and adding rows of weight zero cannot raise the sum. */
  lemma {:induction false} SumDominated(w: seq<nat>, v: seq<nat>)
    requires |w| <= |v|
    requires forall i :: 0 <= i < |w| ==> v[i] <= w[i]
    requires forall i :: |w| <= i < |v| ==> v[i] == 0
    ensures Sum(v) <= Sum(w)
  {
    if |v| == 0 {
    } else if |w| < |v| {
      SumDominated(w, v[..|v| - 1]);
    } else {
      SumDominated(w[..|w| - 1], v[..|v| - 1]);
    }
  }

  /** Changing one weight changes the sum by exactly that much. */
  lemma {:induction false} SumChange(w: seq<nat>, v: seq<nat>, k: nat)
    requires |w| == |v| && k < |w|
    requires forall i :: 0 <= i < |w| && i != k ==> v[i] == w[i]
    ensures Sum(v) + w[k] == Sum(w) + v[k]
  {
    var n := |w| - 1;
    if k == n {
      assert w[..n] == v[..n];
    } else {
      SumChange(w[..n], v[..n], k);
    }
  }

  /** Rows of weight zero do not count. */
  lemma SumSame(w: seq<nat>, v: seq<nat>)
    requires |w| <= |v|
    requires forall i :: 0 <= i < |w| ==> v[i] == w[i]
    requires forall i :: |w| <= i < |v| ==> v[i] == 0
    ensures Sum(v) == Sum(w)
    decreases |v|
  {
  }

  /** A bound that holds row by row holds for the sums. */
  lemma {:induction false} SumPairs(a: seq<nat>, b: seq<nat>, c: seq<nat>, d: seq<nat>)
    requires |a| == |b| == |c| == |d|
    requires forall i :: 0 <= i < |a| ==> a[i] + b[i] <= c[i] + d[i]
    ensures Sum(a) + Sum(b) <= Sum(c) + Sum(d)
  {
    if |a| > 0 {
      var n := |a| - 1;
      SumPairs(a[..n], b[..n], c[..n], d[..n]);
    }
  }

  lemma {:induction false} SumMember(w: seq<nat>, k: nat)
    requires k < |w|
    ensures w[k] <= Sum(w)
  {
    if k < |w| - 1 {
      SumMember(w[..|w| - 1], k);
    }
  }

  lemma {:induction false} SumZero(w: seq<nat>)
    requires forall i :: 0 <= i < |w| ==> w[i] == 0
    ensures Sum(w) == 0
  {
    if |w| > 0 {
      SumZero(w[..|w| - 1]);
    }
  }

  /** Lowering some weights, one of them strictly, lowers the sum. */
  lemma OneLighter(w: seq<nat>, v: seq<nat>, k: nat)
    requires |w| == |v| && k < |w| && v[k] < w[k]
    requires forall i :: 0 <= i < |w| ==> v[i] <= w[i]
    ensures Sum(v) < Sum(w)
  {
    SumChange(w, w[k := v[k]], k);
    SumDominated(w[k := v[k]], v);
  }
}
