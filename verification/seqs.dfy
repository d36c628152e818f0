/**
 * The two array operations the core uses on lists of records:
 * `Array.prototype.filter` and `Array.prototype.find`.
 */
module Seqs {
  import opened Wrappers

  /** `s.filter(keep)`: the elements that satisfy `keep`, in their original order. */
  function Filter<T>(s: seq<T>, keep: T -> bool): (r: seq<T>)
    ensures |r| <= |s|
    ensures forall i | 0 <= i < |r| :: r[i] in s && keep(r[i])
    ensures forall i | 0 <= i < |s| :: keep(s[i]) ==> s[i] in r
  {
    if s == [] then []
    else if keep(s[0]) then [s[0]] + Filter(s[1..], keep)
    else Filter(s[1..], keep)
  }

  /** Filtering a concatenation filters each part: the survivors keep their relative order. */
  lemma {:induction false} FilterAppend<T>(a: seq<T>, b: seq<T>, keep: T -> bool)
    ensures Filter(a + b, keep) == Filter(a, keep) + Filter(b, keep)
  {
    if a != [] {
      assert (a + b)[0] == a[0];
      assert (a + b)[1..] == a[1..] + b;
      FilterAppend(a[1..], b, keep);
    } else {
      assert a + b == b;
    }
  }

  /** Filtering a one-element list keeps the element exactly when it satisfies `keep`. */
  lemma FilterSingleton<T>(x: T, keep: T -> bool)
    ensures Filter([x], keep) == if keep(x) then [x] else []
  {
    assert [x][1..] == [];
  }

  /** A filter that keeps every element changes nothing. */
  lemma {:induction false} FilterKeepsAll<T>(s: seq<T>, keep: T -> bool)
    requires forall i | 0 <= i < |s| :: keep(s[i])
    ensures Filter(s, keep) == s
  {
    if s != [] {
      FilterKeepsAll(s[1..], keep);
    }
  }

  /** Two complementary filters split a list: every element survives exactly one of them. */
  lemma {:induction false} FilterComplement<T>(s: seq<T>, keep: T -> bool, other: T -> bool)
    requires forall i | 0 <= i < |s| :: keep(s[i]) != other(s[i])
    ensures |Filter(s, keep)| + |Filter(s, other)| == |s|
  {
    if s != [] {
      assert forall i | 0 <= i < |s[1..]| :: s[1..][i] == s[i + 1];
      FilterComplement(s[1..], keep, other);
    }
  }

  /**
   * The positions, from `from` on, of the elements that `keep` accepts, in
   * increasing order: the elements `Filter` keeps, named by where they stood.
   */
  function KeptIndices<T>(s: seq<T>, keep: T -> bool, from: nat): (r: seq<nat>)
    requires from <= |s|
    ensures forall k | 0 <= k < |r| :: from <= r[k] < |s| && keep(s[r[k]])
    ensures forall k, l | 0 <= k < l < |r| :: r[k] < r[l]
    ensures forall i | from <= i < |s| && keep(s[i]) :: i in r
    decreases |s| - from
  {
    if from == |s| then []
    else
      var rest := KeptIndices(s, keep, from + 1);
      if keep(s[from]) then [from] + rest else rest
  }

  /** `Filter` picks exactly the elements at the kept positions, in that order. */
  lemma {:induction false} FilterAtKeptIndices<T>(s: seq<T>, keep: T -> bool, from: nat)
    requires from <= |s|
    ensures |Filter(s[from..], keep)| == |KeptIndices(s, keep, from)|
    ensures forall k | 0 <= k < |Filter(s[from..], keep)| :: Filter(s[from..], keep)[k] == s[KeptIndices(s, keep, from)[k]]
    decreases |s| - from
  {
    if from < |s| {
      var tail := Filter(s[from + 1..], keep);
      var tailIndices := KeptIndices(s, keep, from + 1);
      FilterAtKeptIndices(s, keep, from + 1);
      assert s[from..][0] == s[from];
      assert s[from..][1..] == s[from + 1..];
      if keep(s[from]) {
        var all := Filter(s[from..], keep);
        var allIndices := KeptIndices(s, keep, from);
        assert all == [s[from]] + tail;
        assert allIndices == [from] + tailIndices;
        forall k | 0 <= k < |all|
          ensures all[k] == s[allIndices[k]]
        {
          if k > 0 {
            assert all[k] == tail[k - 1];
            assert allIndices[k] == tailIndices[k - 1];
          }
        }
      } else {
        assert Filter(s[from..], keep) == tail;
        assert KeptIndices(s, keep, from) == tailIndices;
      }
    }
  }

  /** `s.find(p)`: the first element satisfying `p`, if any. */
  function Find<T>(s: seq<T>, p: T -> bool): (r: Option<T>)
    ensures r.Some? ==> exists i | 0 <= i < |s| :: s[i] == r.value && p(s[i]) && forall j | 0 <= j < i :: !p(s[j])
    ensures r.None? <==> forall i | 0 <= i < |s| :: !p(s[i])
  {
    if s == [] then None
    else if p(s[0]) then Some(s[0])
    else
      var r := Find(s[1..], p);
      assert forall i | 1 <= i < |s| :: s[i] == s[1..][i - 1];
      r
  }

  /** One step of `find`: the head when it matches, otherwise the search of the tail. */
  lemma FindStep<T>(s: seq<T>, p: T -> bool)
    requires s != []
    ensures Find(s, p) == if p(s[0]) then Some(s[0]) else Find(s[1..], p)
  {
  }
}
