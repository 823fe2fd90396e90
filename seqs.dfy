/** `Array.prototype.filter`: the order-preserving selection the list screens are built on. */
module Seqs {

  function Filter<T>(s: seq<T>, p: T -> bool): (r: seq<T>)
    ensures |r| <= |s|
    ensures forall x :: x in r ==> x in s && p(x)
  {
    if s == [] then [] else (if p(s[0]) then [s[0]] else []) + Filter(s[1..], p)
  }

  /** The indices of `s` whose elements satisfy `p`, in increasing order. */
  function KeptIndices<T>(s: seq<T>, p: T -> bool): seq<nat>
  {
    if s == [] then [] else (if p(s[0]) then [0] else []) + Shifted(KeptIndices(s[1..], p))
  }

  function Shifted(xs: seq<nat>): seq<nat>
  {
    seq(|xs|, k requires 0 <= k < |xs| => xs[k] + 1)
  }

  lemma ShiftedMembers(xs: seq<nat>, i: nat)
    ensures i in Shifted(xs) <==> i > 0 && i - 1 in xs
  {
    if i > 0 && i - 1 in xs {
      var k :| 0 <= k < |xs| && xs[k] == i - 1;
      assert Shifted(xs)[k] == i;
    }
  }

  /** The kept indices lie in range, increase strictly, and are exactly the indices
      whose elements satisfy the predicate. */
  lemma {:induction false} KeptIndicesSpec<T>(s: seq<T>, p: T -> bool)
    ensures var ks := KeptIndices(s, p);
      (forall k :: 0 <= k < |ks| ==> ks[k] < |s|)
      && (forall k, l :: 0 <= k < l < |ks| ==> ks[k] < ks[l])
      && (forall i :: 0 <= i < |s| ==> (p(s[i]) <==> i in ks))
  {
    if s != [] {
      var t := s[1..];
      KeptIndicesSpec(t, p);
      var kt := KeptIndices(t, p);
      var sh := Shifted(kt);
      assert forall k :: 0 <= k < |sh| ==> sh[k] == kt[k] + 1;
      forall i | 0 <= i < |s|
        ensures p(s[i]) <==> i in KeptIndices(s, p)
      {
        ShiftedMembers(kt, i);
        if i > 0 {
          assert s[i] == t[i - 1];
        }
      }
    }
  }

  /** The filtered list holds, position by position, the elements at the kept indices. */
  lemma {:induction false} FilterAtKept<T>(s: seq<T>, p: T -> bool)
    ensures var ks := KeptIndices(s, p);
      |Filter(s, p)| == |ks|
      && forall k :: 0 <= k < |ks| ==> ks[k] < |s| && Filter(s, p)[k] == s[ks[k]]
  {
    if s != [] {
      FilterAtKept(s[1..], p);
      FilterAtKeptStep(s, p);
    }
  }

  /** One step of FilterAtKept: the property for `s[1..]` carries over to `s`. */
  lemma FilterAtKeptStep<T>(s: seq<T>, p: T -> bool)
    requires s != []
    requires var kt := KeptIndices(s[1..], p);
      |Filter(s[1..], p)| == |kt|
      && forall k :: 0 <= k < |kt| ==> kt[k] < |s[1..]| && Filter(s[1..], p)[k] == s[1..][kt[k]]
    ensures var ks := KeptIndices(s, p);
      |Filter(s, p)| == |ks|
      && forall k :: 0 <= k < |ks| ==> ks[k] < |s| && Filter(s, p)[k] == s[ks[k]]
  {
    var t := s[1..];
    var kt := KeptIndices(t, p);
    var ft := Filter(t, p);
    var ks := KeptIndices(s, p);
    var fs := Filter(s, p);
    var d := if p(s[0]) then 1 else 0;
    assert |fs| == |ks| == |kt| + d;
    forall k | 0 <= k < |ks|
      ensures ks[k] < |s| && fs[k] == s[ks[k]]
    {
      if k >= d {
        assert ks[k] == kt[k - d] + 1 && fs[k] == ft[k - d];
        assert s[kt[k - d] + 1] == t[kt[k - d]];
      }
    }
  }

  /** The filtered list is exactly the elements at the kept indices: increasing indices
      (nothing reordered or duplicated), each element taken from the input (nothing invented),
      and an index is kept exactly when its element satisfies the predicate. */
  lemma FilterSelectsKept<T>(s: seq<T>, p: T -> bool)
    ensures var ks := KeptIndices(s, p);
      |Filter(s, p)| == |ks|
      && (forall k :: 0 <= k < |ks| ==> ks[k] < |s| && Filter(s, p)[k] == s[ks[k]])
      && (forall k, l :: 0 <= k < l < |ks| ==> ks[k] < ks[l])
      && (forall i :: 0 <= i < |s| ==> (p(s[i]) <==> i in ks))
  {
    KeptIndicesSpec(s, p);
    FilterAtKept(s, p);
  }

  /** Filtering with a predicate every element satisfies keeps the whole list. */
  lemma {:induction false} FilterAll<T>(s: seq<T>, p: T -> bool)
    requires forall i :: 0 <= i < |s| ==> p(s[i])
    ensures Filter(s, p) == s
  {
    if s != [] {
      FilterAll(s[1..], p);
    }
  }
}
