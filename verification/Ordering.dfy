/** The order discounts' odd paise are handed out in: largest key first, and the earlier index first among equals. */
module Ordering {
  import opened Rounding
  import opened Sums

  ghost predicate Before(keys: seq<int>, i: nat, j: nat)
    requires i < |keys| && j < |keys|
  {
    keys[i] > keys[j] || (keys[i] == keys[j] && i < j)
  }

  predicate InRange(idxs: seq<nat>, n: nat) {
    forall p :: 0 <= p < |idxs| ==> idxs[p] < n
  }

  predicate Distinct(idxs: seq<nat>) {
    forall p, q :: 0 <= p < q < |idxs| ==> idxs[p] != idxs[q]
  }

  predicate Ascending(idxs: seq<nat>) {
    forall p, q :: 0 <= p < q < |idxs| ==> idxs[p] < idxs[q]
  }

  ghost predicate Sorted(keys: seq<int>, idxs: seq<nat>)
    requires InRange(idxs, |keys|)
  {
    forall p, q :: 0 <= p < q < |idxs| ==> Before(keys, idxs[p], idxs[q])
  }

  /** `i` put in after every index whose key is at least its own. */
  function InsertDescending(keys: seq<int>, sorted: seq<nat>, i: nat): (r: seq<nat>)
    requires i < |keys| && InRange(sorted, |keys|)
    ensures InRange(r, |keys|) && |r| == |sorted| + 1
    ensures multiset(r) == multiset(sorted) + multiset{i}
  {
    if sorted == [] || keys[sorted[|sorted| - 1]] >= keys[i] then sorted + [i]
    else
      var n := |sorted| - 1;
      assert sorted == sorted[..n] + [sorted[n]];
      InsertDescending(keys, sorted[..n], i) + [sorted[n]]
  }

  lemma {:induction false} InsertDescendingSorted(keys: seq<int>, sorted: seq<nat>, i: nat)
    requires i < |keys| && InRange(sorted, |keys|) && Sorted(keys, sorted)
    requires forall p :: 0 <= p < |sorted| ==> sorted[p] < i
    ensures Sorted(keys, InsertDescending(keys, sorted, i))
  {
    if sorted != [] && keys[sorted[|sorted| - 1]] < keys[i] {
      var n := |sorted| - 1;
      var front := InsertDescending(keys, sorted[..n], i);
      InsertDescendingSorted(keys, sorted[..n], i);
      forall p | 0 <= p < |front| ensures Before(keys, front[p], sorted[n]) {
        assert front[p] in multiset(sorted[..n]) + multiset{i};
      }
    }
  }

  /** The indices `idxs`, by their keys from the largest down. */
  function SortDescending(keys: seq<int>, idxs: seq<nat>): (r: seq<nat>)
    requires InRange(idxs, |keys|)
    ensures InRange(r, |keys|) && |r| == |idxs|
    ensures multiset(r) == multiset(idxs)
  {
    if idxs == [] then []
    else
      var n := |idxs| - 1;
      assert idxs == idxs[..n] + [idxs[n]];
      InsertDescending(keys, SortDescending(keys, idxs[..n]), idxs[n])
  }

  lemma {:induction false} SortDescendingSorted(keys: seq<int>, idxs: seq<nat>)
    requires InRange(idxs, |keys|) && Ascending(idxs)
    ensures Sorted(keys, SortDescending(keys, idxs))
    ensures Distinct(SortDescending(keys, idxs))
  {
    if idxs != [] {
      var n := |idxs| - 1;
      var front := SortDescending(keys, idxs[..n]);
      SortDescendingSorted(keys, idxs[..n]);
      forall p | 0 <= p < |front| ensures front[p] < idxs[n] {
        assert front[p] in multiset(idxs[..n]);
      }
      InsertDescendingSorted(keys, front, idxs[n]);
    }
    SortedDistinct(keys, SortDescending(keys, idxs));
  }

  lemma SortedDistinct(keys: seq<int>, idxs: seq<nat>)
    requires InRange(idxs, |keys|) && Sorted(keys, idxs)
    ensures Distinct(idxs)
  {
    forall p, q | 0 <= p < q < |idxs| ensures idxs[p] != idxs[q] {
      assert Before(keys, idxs[p], idxs[q]);
    }
  }

  /** The keys of the indices, in their order. */
  function Pick(keys: seq<int>, idxs: seq<nat>): (r: seq<int>)
    requires InRange(idxs, |keys|)
    ensures |r| == |idxs|
  {
    seq(|idxs|, p requires 0 <= p < |idxs| => keys[idxs[p]])
  }

  function Indices(n: nat): (r: seq<nat>)
    ensures |r| == n && InRange(r, n) && Ascending(r)
  {
    seq(n, i => i)
  }

  lemma PickAppend(keys: seq<int>, idxs: seq<nat>, i: nat)
    requires InRange(idxs, |keys|) && i < |keys|
    ensures Sum(Pick(keys, idxs + [i])) == Sum(Pick(keys, idxs)) + keys[i]
  {
    assert Pick(keys, idxs + [i])[..|idxs|] == Pick(keys, idxs);
  }

  lemma {:induction false} InsertDescendingSum(keys: seq<int>, vals: seq<int>, sorted: seq<nat>, i: nat)
    requires |vals| == |keys| && i < |keys| && InRange(sorted, |keys|)
    ensures Sum(Pick(vals, InsertDescending(keys, sorted, i))) == Sum(Pick(vals, sorted)) + vals[i]
  {
    if sorted == [] || keys[sorted[|sorted| - 1]] >= keys[i] {
      PickAppend(vals, sorted, i);
    } else {
      var n := |sorted| - 1;
      InsertDescendingSum(keys, vals, sorted[..n], i);
      assert sorted == sorted[..n] + [sorted[n]];
      PickAppend(vals, sorted[..n], sorted[n]);
      PickAppend(vals, InsertDescending(keys, sorted[..n], i), sorted[n]);
    }
  }

  /** Sorting by a key keeps the sum of anything kept by index. */
  lemma {:induction false} SortedSum(keys: seq<int>, vals: seq<int>, idxs: seq<nat>)
    requires |vals| == |keys| && InRange(idxs, |keys|)
    ensures Sum(Pick(vals, SortDescending(keys, idxs))) == Sum(Pick(vals, idxs))
  {
    if idxs != [] {
      var n := |idxs| - 1;
      assert idxs == idxs[..n] + [idxs[n]];
      SortedSum(keys, vals, idxs[..n]);
      InsertDescendingSum(keys, vals, SortDescending(keys, idxs[..n]), idxs[n]);
      PickAppend(vals, idxs[..n], idxs[n]);
    }
  }

  /** Numbers at most `c` in the first `k` places and at most 0 after them. */
  lemma {:induction false} SumFirst(s: seq<int>, k: nat, c: nat)
    requires k <= |s|
    requires forall p :: 0 <= p < k ==> s[p] <= c
    requires forall p :: k <= p < |s| ==> s[p] <= 0
    ensures Sum(s) <= c * k
  {
    if s != [] {
      var n := |s| - 1;
      if k == |s| {
        SumFirst(s[..n], k - 1, c);
        assert c * k == c * (k - 1) + c;
      } else {
        SumFirst(s[..n], k, c);
      }
    }
  }

  lemma AtMostSoMany(keys: seq<int>, order: seq<nat>, k: nat, d: nat)
    requires InRange(order, |keys|) && Sorted(keys, order) && k <= |order|
    requires forall i :: 0 <= i < |keys| ==> keys[i] < d
    requires k < |order| ==> keys[order[k]] <= 0
    ensures Sum(Pick(keys, order)) <= d * k
  {
    forall p | k < p < |order| ensures keys[order[p]] <= 0 {
      assert Before(keys, order[k], order[p]);
    }
    SumFirst(Pick(keys, order), k, d);
  }

  /**
   * Remainders below d that add up to n·d: the first n of them in descending order are all
   * above zero, so one paisa on each of those n uses the n paise up.
   */
  lemma LargestRemainders(keys: seq<int>, order: seq<nat>, n: nat, d: nat)
    requires d > 0 && InRange(order, |keys|) && Sorted(keys, order)
    requires forall i :: 0 <= i < |keys| ==> keys[i] < d
    requires Sum(Pick(keys, order)) == d * n
    ensures n <= |order|
    ensures forall p :: 0 <= p < n ==> keys[order[p]] > 0
  {
    AtMostSoMany(keys, order, |order|, d);
    StrictlyBelow(d, |order|, n);
    forall p | 0 <= p < n ensures keys[order[p]] > 0 {
      StrictlyBelow(d, p, n);
      if keys[order[p]] <= 0 {
        AtMostSoMany(keys, order, p, d);
      }
    }
  }
}
