/** The stable ascending sort of tax brackets by threshold that
    `calculateProgressiveTax` applies to its copy of the bracket list
    (`[...brackets].sort((a, b) => a.threshold - b.threshold)`). The
    comparator returns 0 for equal thresholds and `Array.prototype.sort` is
    stable, so tied brackets keep their input order. */
module BracketSort {
  import opened TaxConfig

  predicate SortedByThreshold(s: seq<TaxBracket>)
  {
    forall i, j :: 0 <= i < j < |s| ==> s[i].threshold <= s[j].threshold
  }

  /** Places `b` after every bracket whose threshold does not exceed its own,
      shifting from the right as an insertion sort does. */
  function Insert(b: TaxBracket, s: seq<TaxBracket>): (r: seq<TaxBracket>)
    ensures |r| == |s| + 1
  {
    if |s| == 0 then [b]
    else if b.threshold < s[|s| - 1].threshold then Insert(b, s[..|s| - 1]) + [s[|s| - 1]]
    else s + [b]
  }

  lemma {:induction false} InsertPermutes(b: TaxBracket, s: seq<TaxBracket>)
    ensures multiset(Insert(b, s)) == multiset(s) + multiset{b}
  {
    if |s| > 0 && b.threshold < s[|s| - 1].threshold {
      InsertPermutes(b, s[..|s| - 1]);
      assert s == s[..|s| - 1] + [s[|s| - 1]];
    }
  }

  /** The specification of the copy-and-sort: a stable insertion sort. */
  function SortByThreshold(s: seq<TaxBracket>): (r: seq<TaxBracket>)
    ensures |r| == |s|
  {
    if |s| == 0 then [] else Insert(s[|s| - 1], SortByThreshold(s[..|s| - 1]))
  }

  lemma {:induction false} InsertSorted(b: TaxBracket, s: seq<TaxBracket>)
    requires SortedByThreshold(s)
    ensures SortedByThreshold(Insert(b, s))
  {
    if |s| > 0 && b.threshold < s[|s| - 1].threshold {
      var front := s[..|s| - 1];
      var last := s[|s| - 1];
      InsertSorted(b, front);
      InsertPermutes(b, front);
      var r := Insert(b, front);
      forall k | 0 <= k < |r|
        ensures r[k].threshold <= last.threshold
      {
        assert r[k] in multiset(front) + multiset{b};
        if r[k] != b {
          assert r[k] in front;
        }
      }
    }
  }

  /** The sort's result is ordered by threshold and is a permutation of its input. */
  lemma {:induction false} SortByThresholdSorted(s: seq<TaxBracket>)
    ensures SortedByThreshold(SortByThreshold(s))
    ensures multiset(SortByThreshold(s)) == multiset(s)
  {
    if |s| > 0 {
      SortByThresholdSorted(s[..|s| - 1]);
      InsertSorted(s[|s| - 1], SortByThreshold(s[..|s| - 1]));
      InsertPermutes(s[|s| - 1], SortByThreshold(s[..|s| - 1]));
      assert s == s[..|s| - 1] + [s[|s| - 1]];
    }
  }

  /** A list that is already in order comes back unchanged. */
  lemma {:induction false} SortByThresholdOfSorted(s: seq<TaxBracket>)
    requires SortedByThreshold(s)
    ensures SortByThreshold(s) == s
  {
    if |s| > 0 {
      SortByThresholdOfSorted(s[..|s| - 1]);
      assert s == s[..|s| - 1] + [s[|s| - 1]];
    }
  }

  // ---------------------------------------------------------------------------
  // Stability: brackets with the same threshold keep their relative order
  // ---------------------------------------------------------------------------

  /** The brackets of `s` whose threshold is `t`, in their order in `s`. */
  function WithThreshold(s: seq<TaxBracket>, t: real): (r: seq<TaxBracket>)
    ensures |r| <= |s|
  {
    if |s| == 0 then []
    else (if s[0].threshold == t then [s[0]] else []) + WithThreshold(s[1..], t)
  }

  lemma {:induction false} WithThresholdMembers(s: seq<TaxBracket>, t: real)
    ensures forall x :: x in WithThreshold(s, t) <==> x in s && x.threshold == t
  {
    if |s| > 0 {
      WithThresholdMembers(s[1..], t);
      assert s == [s[0]] + s[1..];
    }
  }

  lemma {:induction false} WithThresholdAppend(a: seq<TaxBracket>, b: seq<TaxBracket>, t: real)
    ensures WithThreshold(a + b, t) == WithThreshold(a, t) + WithThreshold(b, t)
  {
    if |a| == 0 {
      assert a + b == b;
    } else {
      WithThresholdAppend(a[1..], b, t);
      var head := if a[0].threshold == t then [a[0]] else [];
      assert (a + b)[0] == a[0];
      assert (a + b)[1..] == a[1..] + b;
      calc {
        WithThreshold(a + b, t);
        head + WithThreshold(a[1..] + b, t);
        head + (WithThreshold(a[1..], t) + WithThreshold(b, t));
        (head + WithThreshold(a[1..], t)) + WithThreshold(b, t);
        WithThreshold(a, t) + WithThreshold(b, t);
      }
    }
  }

  lemma {:induction false} InsertStable(b: TaxBracket, s: seq<TaxBracket>, t: real)
    ensures WithThreshold(Insert(b, s), t) == WithThreshold(s, t) + WithThreshold([b], t)
  {
    if |s| == 0 {
      assert [] + [b] == [b];
    } else if b.threshold < s[|s| - 1].threshold {
      var front, last := s[..|s| - 1], s[|s| - 1];
      InsertStable(b, front, t);
      WithThresholdAppend(Insert(b, front), [last], t);
      WithThresholdAppend(front, [last], t);
      assert s == front + [last];
      assert WithThreshold([b], t) == [] || WithThreshold([last], t) == [];
    } else {
      WithThresholdAppend(s, [b], t);
    }
  }

  /** The sort is stable: for every threshold, the brackets carrying it appear
      in the same order before and after sorting. */
  lemma {:induction false} SortByThresholdStable(s: seq<TaxBracket>, t: real)
    ensures WithThreshold(SortByThreshold(s), t) == WithThreshold(s, t)
  {
    if |s| > 0 {
      var front, last := s[..|s| - 1], s[|s| - 1];
      SortByThresholdStable(front, t);
      InsertStable(last, SortByThreshold(front), t);
      WithThresholdAppend(front, [last], t);
      assert s == front + [last];
    }
  }

  lemma WithThresholdTail(s: seq<TaxBracket>, t: real)
    requires |s| > 0
    ensures s[0].threshold == t ==> WithThreshold(s, t) == [s[0]] + WithThreshold(s[1..], t)
    ensures s[0].threshold != t ==> WithThreshold(s, t) == WithThreshold(s[1..], t)
  {
  }

  /** Two ordered lists that agree, threshold by threshold, on which brackets
      they hold and in which order, are the same list. */
  lemma {:induction false} SortedUnique(a: seq<TaxBracket>, b: seq<TaxBracket>)
    requires SortedByThreshold(a) && SortedByThreshold(b)
    requires forall t :: WithThreshold(a, t) == WithThreshold(b, t)
    ensures a == b
    decreases |a|
  {
    if |a| > 0 {
      WithThresholdTail(a, a[0].threshold);
    }
    if |b| > 0 {
      WithThresholdTail(b, b[0].threshold);
    }
    if |a| == 0 || |b| == 0 {
      assert |a| == 0 && |b| == 0;
    } else {
      SortedHeadsEqual(a, b);
      TailsAgree(a, b);
      SortedUnique(a[1..], b[1..]);
      assert a == [a[0]] + a[1..];
      assert b == [b[0]] + b[1..];
    }
  }

  lemma SortedHeadsEqual(a: seq<TaxBracket>, b: seq<TaxBracket>)
    requires SortedByThreshold(a) && SortedByThreshold(b) && |a| > 0 && |b| > 0
    requires forall t :: WithThreshold(a, t) == WithThreshold(b, t)
    ensures a[0] == b[0]
  {
    var ta, tb := a[0].threshold, b[0].threshold;
    WithThresholdMembers(a, tb);
    WithThresholdMembers(b, ta);
    WithThresholdTail(a, ta);
    WithThresholdTail(b, tb);
    assert a[0] in WithThreshold(b, ta);
    var k :| 0 <= k < |b| && b[k] == a[0];
    assert b[0] in WithThreshold(a, tb);
    var m :| 0 <= m < |a| && a[m] == b[0];
    assert tb <= ta && ta <= tb;
    assert a[0] == WithThreshold(a, ta)[0] == WithThreshold(b, ta)[0] == b[0];
  }

  lemma TailsAgree(a: seq<TaxBracket>, b: seq<TaxBracket>)
    requires |a| > 0 && |b| > 0 && a[0] == b[0]
    requires forall t :: WithThreshold(a, t) == WithThreshold(b, t)
    ensures forall t :: WithThreshold(a[1..], t) == WithThreshold(b[1..], t)
  {
    forall t
      ensures WithThreshold(a[1..], t) == WithThreshold(b[1..], t)
    {
      WithThresholdTail(a, t);
      WithThresholdTail(b, t);
      assert WithThreshold(a, t) == WithThreshold(b, t);
      if t == a[0].threshold {
        assert WithThreshold(a[1..], t) == WithThreshold(a, t)[1..];
        assert WithThreshold(b[1..], t) == WithThreshold(b, t)[1..];
      }
    }
  }

  /** Reordering the input changes nothing as long as tied brackets keep
      their relative order. */
  lemma SortIgnoresInputOrder(s1: seq<TaxBracket>, s2: seq<TaxBracket>)
    requires forall t :: WithThreshold(s1, t) == WithThreshold(s2, t)
    ensures SortByThreshold(s1) == SortByThreshold(s2)
  {
    SortByThresholdSorted(s1);
    SortByThresholdSorted(s2);
    forall t
      ensures WithThreshold(SortByThreshold(s1), t) == WithThreshold(SortByThreshold(s2), t)
    {
      SortByThresholdStable(s1, t);
      SortByThresholdStable(s2, t);
    }
    SortedUnique(SortByThreshold(s1), SortByThreshold(s2));
  }

  // ---------------------------------------------------------------------------
  // Distinct thresholds: every permutation sorts to the same list
  // ---------------------------------------------------------------------------

  predicate DistinctThresholds(s: seq<TaxBracket>)
  {
    forall i, j :: 0 <= i < j < |s| ==> s[i].threshold != s[j].threshold
  }

  lemma {:induction false} WithThresholdCount(s: seq<TaxBracket>, t: real, x: TaxBracket)
    ensures multiset(WithThreshold(s, t))[x] == if x.threshold == t then multiset(s)[x] else 0
  {
    if |s| > 0 {
      WithThresholdCount(s[1..], t, x);
      WithThresholdTail(s, t);
      assert s == [s[0]] + s[1..];
    }
  }

  lemma WithThresholdPermutation(s1: seq<TaxBracket>, s2: seq<TaxBracket>, t: real)
    requires multiset(s1) == multiset(s2)
    ensures multiset(WithThreshold(s1, t)) == multiset(WithThreshold(s2, t))
  {
    forall x
      ensures multiset(WithThreshold(s1, t))[x] == multiset(WithThreshold(s2, t))[x]
    {
      WithThresholdCount(s1, t, x);
      WithThresholdCount(s2, t, x);
    }
  }

  lemma {:induction false} WithThresholdAbsent(s: seq<TaxBracket>, t: real)
    requires forall i :: 0 <= i < |s| ==> s[i].threshold != t
    ensures WithThreshold(s, t) == []
  {
    if |s| > 0 {
      WithThresholdAbsent(s[1..], t);
    }
  }

  lemma {:induction false} DistinctAtMostOne(s: seq<TaxBracket>, t: real)
    requires DistinctThresholds(s)
    ensures |WithThreshold(s, t)| <= 1
  {
    if |s| > 0 {
      assert DistinctThresholds(s[1..]);
      DistinctAtMostOne(s[1..], t);
      WithThresholdTail(s, t);
      if s[0].threshold == t {
        WithThresholdAbsent(s[1..], t);
      }
    }
  }

  /** When no two brackets share a threshold, the order in which the
      brackets are given does not matter at all. */
  lemma SortIgnoresPermutation(s1: seq<TaxBracket>, s2: seq<TaxBracket>)
    requires DistinctThresholds(s1)
    requires multiset(s1) == multiset(s2)
    ensures SortByThreshold(s1) == SortByThreshold(s2)
  {
    forall t
      ensures WithThreshold(s1, t) == WithThreshold(s2, t)
    {
      WithThresholdPermutation(s1, s2, t);
      DistinctAtMostOne(s1, t);
      var w1, w2 := WithThreshold(s1, t), WithThreshold(s2, t);
      assert |w1| == |multiset(w1)| == |multiset(w2)| == |w2|;
      if |w1| == 1 {
        assert w1 == [w1[0]] && w2 == [w2[0]];
        assert multiset(w1) == multiset{w1[0]};
        assert w1[0] in multiset(w2);
      }
    }
    SortIgnoresInputOrder(s1, s2);
  }

  // ---------------------------------------------------------------------------
  // The in-place sort of the copied array
  // ---------------------------------------------------------------------------

  /** Where `Insert` puts `x`: after the last bracket whose threshold does
      not exceed its own, when every bracket after that one exceeds it. */
  lemma {:induction false} InsertPlacement(x: TaxBracket, prefix: seq<TaxBracket>, j: nat)
    requires j <= |prefix|
    requires j == 0 || prefix[j - 1].threshold <= x.threshold
    requires forall k :: j <= k < |prefix| ==> prefix[k].threshold > x.threshold
    ensures Insert(x, prefix) == prefix[..j] + [x] + prefix[j..]
    decreases |prefix|
  {
    if j < |prefix| {
      var front := prefix[..|prefix| - 1];
      InsertPlacement(x, front, j);
      assert front[..j] == prefix[..j];
      assert front[j..] + [prefix[|prefix| - 1]] == prefix[j..];
    } else {
      assert prefix[..j] == prefix && prefix[j..] == [];
    }
  }

  /** Moves `a[i]` left past every bracket of the prefix `a[..i]` whose
      threshold is larger; the prefix is sorted when `SortInPlace` calls it,
      but the step is the insertion `Insert` describes whatever the prefix. */
  method InsertAt(a: array<TaxBracket>, i: nat)
    requires i < a.Length
    modifies a
    ensures a[..i + 1] == Insert(old(a[i]), old(a[..i]))
    ensures forall k :: i < k < a.Length ==> a[k] == old(a[k])
  {
    ghost var prefix := a[..i];
    var x := a[i];
    var j := i;
    while j > 0 && a[j - 1].threshold > x.threshold
      invariant 0 <= j <= i
      invariant forall k :: 0 <= k < j ==> a[k] == prefix[k]
      invariant forall k :: j < k <= i ==> a[k] == prefix[k - 1]
      invariant forall k :: j <= k < i ==> prefix[k].threshold > x.threshold
      invariant forall k :: i < k < a.Length ==> a[k] == old(a[k])
    {
      a[j] := a[j - 1];
      j := j - 1;
    }
    a[j] := x;
    InsertPlacement(x, prefix, j);
    ghost var result := prefix[..j] + [x] + prefix[j..];
    forall k | 0 <= k <= i
      ensures a[k] == result[k]
    {
      if k > j {
        assert result[k] == prefix[j..][k - j - 1];
      }
    }
    assert a[..i + 1] == result;
  }

  /** Stable insertion sort of `a` by threshold. */
  method SortInPlace(a: array<TaxBracket>)
    modifies a
    ensures a[..] == SortByThreshold(old(a[..]))
  {
    ghost var input := a[..];
    var i := 0;
    while i < a.Length
      invariant 0 <= i <= a.Length
      invariant a[..i] == SortByThreshold(input[..i])
      invariant forall k :: i <= k < a.Length ==> a[k] == input[k]
    {
      assert input[..i + 1][..i] == input[..i];
      InsertAt(a, i);
      i := i + 1;
    }
    assert a[..] == a[..a.Length];
    assert input[..a.Length] == input;
  }
}
