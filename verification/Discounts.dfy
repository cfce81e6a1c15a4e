/**
 * Discounts (packages/contracts/src/pricing.ts): capping a list of discounts to their base and
 * splitting one discount over the lines it applies to, both to the paisa. Money is in paise,
 * percentages in hundredths of a percent.
 */
module Discounts {
  import opened Ordering
  import opened Rounding
  import opened Sums

  datatype DiscountKind = Percentage | Fixed
  datatype Discount = Discount(kind: DiscountKind, value: int)

  /** `step` more paise on each chosen index. */
  function MoveEach(amounts: seq<int>, chosen: seq<nat>, step: int): (r: seq<int>)
    ensures |r| == |amounts|
  {
    seq(|amounts|, j requires 0 <= j < |amounts| => if j in chosen then amounts[j] + step else amounts[j])
  }

  lemma MoveEachMore(amounts: seq<int>, chosen: seq<nat>, next: nat, step: int)
    requires next < |amounts| && next !in chosen
    ensures var moved := MoveEach(amounts, chosen, step);
            && MoveEach(amounts, chosen + [next], step) == moved[next := amounts[next] + step]
            && moved[next] == amounts[next]
  {
  }

  lemma MoveEachMoreSum(amounts: seq<int>, chosen: seq<nat>, next: nat, step: int)
    requires next < |amounts| && next !in chosen
    ensures Sum(MoveEach(amounts, chosen + [next], step)) == Sum(MoveEach(amounts, chosen, step)) + step
  {
    MoveEachMore(amounts, chosen, next, step);
    SumUpdate(MoveEach(amounts, chosen, step), next, amounts[next] + step);
  }

  lemma MoveNone(amounts: seq<int>, step: int)
    ensures MoveEach(amounts, [], step) == amounts
  {
  }

  lemma {:induction false} MoveEachSum(amounts: seq<int>, chosen: seq<nat>, step: int)
    requires InRange(chosen, |amounts|) && Distinct(chosen)
    ensures Sum(MoveEach(amounts, chosen, step)) == Sum(amounts) + step * |chosen|
  {
    hide MoveEach;
    if chosen == [] {
      MoveNone(amounts, step);
    } else {
      var n := |chosen| - 1;
      MoveEachSum(amounts, chosen[..n], step);
      MoveEachMoreSum(amounts, chosen[..n], chosen[n], step);
      assert chosen == chosen[..n] + [chosen[n]];
    }
  }

  // ----- Capping discounts to their base

  function RawAmount(discount: Discount, base: nat): (amount: nat) {
    if discount.kind.Percentage? then RoundDiv(base * Max(0, discount.value), 10000) else Max(0, discount.value)
  }

  function RawAmounts(discounts: seq<Discount>, base: nat): (r: seq<nat>)
    ensures |r| == |discounts|
  {
    seq(|discounts|, i requires 0 <= i < |discounts| => RawAmount(discounts[i], base))
  }

  function Scaled(raw: seq<nat>, base: nat): (r: seq<nat>)
    requires Sum(raw) > 0
    ensures |r| == |raw|
  {
    seq(|raw|, i requires 0 <= i < |raw| => RoundDiv(raw[i] * base, Sum(raw)))
  }

  /** What rounding left off each scaled amount, in units of one over the raw total. */
  function Left(raw: seq<nat>, scaled: seq<int>, base: nat): (r: seq<int>)
    requires |raw| == |scaled|
    ensures |r| == |raw|
  {
    seq(|raw|, i requires 0 <= i < |raw| => raw[i] * base - scaled[i] * Sum(raw))
  }

  /** `change` paise put on the largest remainders, or taken off the largest amounts when it is negative. */
  function Correct(scaled: seq<int>, left: seq<int>, change: int): (r: seq<int>)
    requires |left| == |scaled|
    ensures |r| == |scaled|
  {
    if change < 0 then MoveEach(scaled, Leading(scaled, -change), -1)
    else MoveEach(scaled, Leading(left, change), 1)
  }

  /** Amounts scaled down to the base, with the paise that rounding gained or lost corrected. */
  function Corrected(raw: seq<nat>, base: nat): (r: seq<int>)
    requires Sum(raw) > 0
    ensures |r| == |raw|
  {
    var scaled := Scaled(raw, base);
    Correct(scaled, Left(raw, scaled, base), base - Sum(scaled))
  }

  /** The indices of the n largest keys (all of them when there are fewer). */
  function Leading(keys: seq<int>, n: nat): (r: seq<nat>)
    ensures InRange(r, |keys|)
  {
    var order := SortDescending(keys, Indices(|keys|));
    order[..Min(n, |order|)]
  }

  /** What several discounts together take off one amount. */
  function DiscountAmounts(discounts: seq<Discount>, base: int): (r: seq<int>)
    ensures |r| == if base <= 0 then 0 else |discounts|
  {
    if base <= 0 then []
    else
      var raw := RawAmounts(discounts, base);
      if Sum(raw) <= base then raw else Corrected(raw, base)
  }

  lemma {:induction false} LeftSum(raw: seq<nat>, scaled: seq<int>, left: seq<int>, base: nat, total: nat)
    requires |raw| == |scaled| == |left|
    requires forall i :: 0 <= i < |raw| ==> left[i] == raw[i] * base - scaled[i] * total
    ensures Sum(left) == base * Sum(raw) - total * Sum(scaled)
  {
    if raw != [] {
      var n := |raw| - 1;
      LeftSum(raw[..n], scaled[..n], left[..n], base, total);
      assert base * Sum(raw) == base * Sum(raw[..n]) + base * raw[n];
      assert total * Sum(scaled) == total * Sum(scaled[..n]) + total * scaled[n];
    }
  }

  lemma LeftRange(raw: nat, base: nat, total: nat)
    requires total > 0
    ensures -(total as int) <= 2 * (raw * base - RoundDiv(raw * base, total) * total) < total
  {
    var r := RoundDiv(raw * base, total);
    assert r * total == total * r;
  }

  lemma RemainderRange(raw: seq<nat>, base: nat)
    requires Sum(raw) > 0
    ensures forall i :: 0 <= i < |raw| ==> -Sum(raw) <= 2 * Left(raw, Scaled(raw, base), base)[i] < Sum(raw)
  {
    forall i | 0 <= i < |raw| ensures -Sum(raw) <= 2 * Left(raw, Scaled(raw, base), base)[i] < Sum(raw) {
      LeftRange(raw[i], base, Sum(raw));
    }
  }

  lemma RemainderSum(raw: seq<nat>, base: nat)
    requires Sum(raw) > 0
    ensures Sum(Left(raw, Scaled(raw, base), base)) == Sum(raw) * (base - Sum(Scaled(raw, base)))
  {
    LeftSum(raw, Scaled(raw, base), Left(raw, Scaled(raw, base), base), base, Sum(raw));
    Distribute(Sum(raw), base, Sum(Scaled(raw, base)));
  }

  lemma Distribute(total: int, a: int, b: int)
    ensures total * (a - b) == a * total - total * b
  {
  }

  lemma LeadingSorted(keys: seq<int>, n: nat)
    requires n <= |keys|
    ensures |Leading(keys, n)| == n && Distinct(Leading(keys, n))
    ensures Sorted(keys, SortDescending(keys, Indices(|keys|)))
    ensures Leading(keys, n) == SortDescending(keys, Indices(|keys|))[..n]
  {
    SortDescendingSorted(keys, Indices(|keys|));
  }

  lemma LeadingAgain(keys: seq<int>, n: nat)
    requires n <= |keys| && forall i :: i in Leading(keys, n) ==> keys[i] > 0
    ensures var order := SortDescending(keys, Indices(|keys|));
            forall p :: 0 <= p < n ==> keys[order[p]] > 0
  {
    var order := SortDescending(keys, Indices(|keys|));
    forall p | 0 <= p < n ensures keys[order[p]] > 0 {
      assert order[p] == Leading(keys, n)[p];
    }
  }

  lemma SumInOrder(keys: seq<int>, vals: seq<int>)
    requires |keys| == |vals|
    ensures Sum(Pick(vals, SortDescending(keys, Indices(|keys|)))) == Sum(vals)
  {
    SortedSum(keys, vals, Indices(|keys|));
    assert Pick(vals, Indices(|keys|)) == vals;
  }

  /** The n largest of remainders below d that add up to n·d are all above zero. */
  lemma LeadingRemainders(left: seq<int>, n: nat, d: nat)
    requires d > 0 && Sum(left) == d * n
    requires forall i :: 0 <= i < |left| ==> left[i] < d
    ensures n <= |left| && forall i :: i in Leading(left, n) ==> left[i] > 0
  {
    LeadingSorted(left, 0);
    SumInOrder(left, left);
    LargestRemainders(left, SortDescending(left, Indices(|left|)), n, d);
  }

  function Positive(vals: seq<int>): (r: seq<int>)
    ensures |r| == |vals|
  {
    seq(|vals|, i requires 0 <= i < |vals| => if vals[i] > 0 then 1 else 0)
  }

  /** Sorted down, the values above zero come first. */
  lemma PositiveFirst(vals: seq<int>, order: seq<nat>, p: nat)
    requires InRange(order, |vals|) && Sorted(vals, order) && p < |order| && vals[order[p]] <= 0
    ensures Sum(Pick(Positive(vals), order)) <= p
  {
    forall q | p < q < |order| ensures vals[order[q]] <= 0 {
      assert Before(vals, order[p], order[q]);
    }
    SumFirst(Pick(Positive(vals), order), p, 1);
  }

  /** When at least n values are above zero, the n largest are. */
  lemma LeadingPositive(vals: seq<int>, n: nat)
    requires Sum(Positive(vals)) >= n
    ensures n <= |vals| && forall i :: i in Leading(vals, n) ==> vals[i] > 0
  {
    var order := SortDescending(vals, Indices(|vals|));
    SumFirst(Positive(vals), |vals|, 1);
    LeadingSorted(vals, n);
    SumInOrder(vals, Positive(vals));
    forall p | 0 <= p < n ensures vals[order[p]] > 0 {
      if vals[order[p]] <= 0 { PositiveFirst(vals, order, p); }
    }
  }

  /** Rounding lost paise: as many remainders above zero are there to take them. */
  lemma ShortfallFits(raw: seq<nat>, base: nat)
    requires Sum(raw) > 0 && Sum(Scaled(raw, base)) <= base
    ensures Fits(Scaled(raw, base), Left(raw, Scaled(raw, base), base), base - Sum(Scaled(raw, base)))
  {
    RemainderSum(raw, base);
    RemainderRange(raw, base);
    ShortfallFitsIn(Scaled(raw, base), Left(raw, Scaled(raw, base), base), base - Sum(Scaled(raw, base)), Sum(raw));
  }

  lemma ShortfallFitsIn(scaled: seq<int>, left: seq<int>, change: nat, total: nat)
    requires |left| == |scaled| && total > 0 && Sum(left) == total * change
    requires forall i :: 0 <= i < |left| ==> 2 * left[i] < total
    ensures Fits(scaled, left, change)
  {
    LeadingRemainders(left, change, total);
  }

  /** There are amounts to take the paise off, or remainders to put them on. */
  ghost predicate Fits(scaled: seq<int>, left: seq<int>, change: int)
    requires |left| == |scaled|
  {
    && Abs(change) <= |scaled|
    && (change < 0 ==> forall i :: i in Leading(scaled, -change) ==> scaled[i] > 0)
    && (change >= 0 ==> forall i :: i in Leading(left, change) ==> left[i] > 0)
  }

  lemma {:induction false} PositiveCovers(left: seq<int>, positive: seq<int>, total: nat)
    requires |left| == |positive|
    requires forall i :: 0 <= i < |left| ==> -2 * left[i] <= total * positive[i]
    ensures -2 * Sum(left) <= total * Sum(positive)
  {
    if left != [] {
      var n := |left| - 1;
      PositiveCovers(left[..n], positive[..n], total);
      assert total * Sum(positive) == total * Sum(positive[..n]) + total * positive[n];
    }
  }

  lemma ExcessCovered(raw: seq<nat>, base: nat)
    requires Sum(raw) > 0 && Sum(Scaled(raw, base)) > base
    ensures 2 * (Sum(Scaled(raw, base)) - base) <= Sum(Positive(Scaled(raw, base)))
  {
    hide Sum, Scaled, Left, Positive;
    var scaled, total := Scaled(raw, base), Sum(raw);
    var left, positive := Left(raw, scaled, base), Positive(scaled);
    EachCovered(raw, base);
    PositiveCovers(left, positive, total);
    RemainderSum(raw, base);
    StrictlyBelowSum(total, Sum(positive), base - Sum(scaled), Sum(left));
  }

  lemma EachCovered(raw: seq<nat>, base: nat)
    requires Sum(raw) > 0
    ensures var scaled := Scaled(raw, base);
            var left, positive := Left(raw, scaled, base), Positive(scaled);
            |left| == |positive| == |raw| && forall i :: 0 <= i < |raw| ==> -2 * left[i] <= Sum(raw) * positive[i]
  {
    hide Sum;
    var scaled, total := Scaled(raw, base), Sum(raw);
    var left, positive := Left(raw, scaled, base), Positive(scaled);
    RemainderRange(raw, base);
    forall i | 0 <= i < |raw| ensures -2 * left[i] <= total * positive[i] {
      if scaled[i] == 0 {
        assert left[i] == raw[i] * base;
        assert raw[i] * base >= 0;
      }
    }
  }

  lemma StrictlyBelowSum(total: nat, positives: int, change: int, left: int)
    requires total > 0 && -2 * left <= total * positives && left == total * change
    ensures -2 * change <= positives
  {
    StrictlyBelow(total, positives, -2 * change);
    assert total * (-2 * change) == -2 * left;
  }

  /** Rounding gained paise: there are amounts enough to give them back. */
  lemma ExcessFits(raw: seq<nat>, base: nat)
    requires Sum(raw) > 0 && Sum(Scaled(raw, base)) > base
    ensures Fits(Scaled(raw, base), Left(raw, Scaled(raw, base), base), base - Sum(Scaled(raw, base)))
  {
    ExcessCovered(raw, base);
    LeadingPositive(Scaled(raw, base), Sum(Scaled(raw, base)) - base);
  }

  lemma CorrectSum(scaled: seq<int>, left: seq<int>, change: int)
    requires |left| == |scaled| && Fits(scaled, left, change)
    ensures Sum(Correct(scaled, left, change)) == Sum(scaled) + change
  {
    if change < 0 {
      LeadingSorted(scaled, -change);
      MoveEachSum(scaled, Leading(scaled, -change), -1);
    } else {
      LeadingSorted(left, change);
      MoveEachSum(scaled, Leading(left, change), 1);
    }
  }

  lemma CorrectEach(scaled: seq<int>, left: seq<int>, change: int, i: nat)
    requires |left| == |scaled| && Fits(scaled, left, change) && i < |scaled|
    ensures var r := Correct(scaled, left, change)[i];
            r == scaled[i] || (r == scaled[i] - 1 && scaled[i] > 0) || (r == scaled[i] + 1 && left[i] > 0)
  {
  }

  /** An amount cut from `asked` to between nothing and `asked`, within 1.5 paise of its share of the base. */
  ghost predicate FairCut(cut: int, asked: nat, base: nat, total: nat) {
    0 <= cut <= asked && 2 * Abs(cut * total - asked * base) <= 3 * total
  }

  lemma ScaledAtMost(asked: nat, base: nat, total: nat, scaled: nat)
    requires base < total && 2 * (scaled * total - asked * base) <= total
    ensures scaled <= asked
    ensures asked * base - scaled * total > 0 ==> scaled < asked
  {
    MulMonotone(asked, base, total);
    StrictlyBelow(total, asked, scaled);
    assert scaled == asked ==> scaled * total == asked * total;
  }

  /** Its scaled value moved by at most a paisa, up only when it was rounded down. */
  lemma CutWithin(asked: nat, base: nat, total: nat, scaled: nat, cut: int)
    requires base < total
    requires -(total as int) <= 2 * (asked * base - scaled * total) < total
    requires cut == scaled || (cut == scaled - 1 && scaled > 0) || (cut == scaled + 1 && asked * base - scaled * total > 0)
    ensures FairCut(cut, asked, base, total)
  {
    ScaledAtMost(asked, base, total, scaled);
    if cut == scaled - 1 {
      assert cut * total == scaled * total - total;
    } else if cut == scaled + 1 {
      assert cut * total == scaled * total + total;
    }
  }

  lemma CorrectedFair(raw: seq<nat>, base: nat, i: nat)
    requires Sum(raw) > base && i < |raw|
    requires Fits(Scaled(raw, base), Left(raw, Scaled(raw, base), base), base - Sum(Scaled(raw, base)))
    ensures FairCut(Corrected(raw, base)[i], raw[i], base, Sum(raw))
  {
    var scaled := Scaled(raw, base);
    LeftRange(raw[i], base, Sum(raw));
    CorrectEach(scaled, Left(raw, scaled, base), base - Sum(scaled), i);
    CutWithin(raw[i], base, Sum(raw), scaled[i], Corrected(raw, base)[i]);
  }

  /**
   * Discounts that together exceed their base are cut to exactly the base, each to between
   * nothing and what was asked, and to within 1.5 paise of its proportional share.
   */
  lemma CorrectedToBase(raw: seq<nat>, base: nat)
    requires Sum(raw) > base
    ensures Sum(Corrected(raw, base)) == base
    ensures forall i :: 0 <= i < |raw| ==> FairCut(Corrected(raw, base)[i], raw[i], base, Sum(raw))
  {
    hide Sum, Scaled, Left, Fits, FairCut, Correct;
    var scaled := Scaled(raw, base);
    if Sum(scaled) > base { ExcessFits(raw, base); } else { ShortfallFits(raw, base); }
    CorrectSum(scaled, Left(raw, scaled, base), base - Sum(scaled));
    forall i | 0 <= i < |raw| ensures FairCut(Corrected(raw, base)[i], raw[i], base, Sum(raw)) {
      CorrectedFair(raw, base, i);
    }
  }

  /** However many discounts there are, they never take off more than the base, and each is between 0 and what it asks for. */
  lemma DiscountsWithinBase(discounts: seq<Discount>, base: int)
    requires base > 0
    ensures var amounts, raw := DiscountAmounts(discounts, base), RawAmounts(discounts, base);
            && Sum(amounts) == Min(base, Sum(raw))
            && forall i :: 0 <= i < |discounts| ==> 0 <= amounts[i] <= raw[i]
  {
    var raw := RawAmounts(discounts, base);
    if Sum(raw) > base {
      CorrectedToBase(raw, base);
    }
  }

  /**
   * The correction loop of amounts that are above their base: a paisa off each in turn, skipping
   * those with none left. One round is always enough.
   */
  method TakeExcess(amounts: array<int>, descending: seq<nat>, paise: nat)
    requires InRange(descending, amounts.Length) && Distinct(descending) && paise <= |descending|
    requires forall p :: 0 <= p < paise ==> amounts[descending[p]] > 0
    modifies amounts
    ensures amounts[..] == MoveEach(old(amounts[..]), descending[..paise], -1)
  {
    var excess := paise;
    ghost var start := amounts[..];
    while excess > 0 && descending != []
      invariant excess == 0 || (excess == paise && amounts[..] == start)
      invariant excess == 0 ==> amounts[..] == MoveEach(start, descending[..paise], -1)
    {
      for k := 0 to |descending|
        invariant excess == paise - k && excess >= 0
        invariant amounts[..] == MoveEach(start, descending[..k], -1)
      {
        if excess <= 0 { break; }
        assert descending[..k + 1] == descending[..k] + [descending[k]];
        MoveEachMore(start, descending[..k], descending[k], -1);
        if amounts[descending[k]] < 1 { continue; }
        amounts[descending[k]] := amounts[descending[k]] - 1;
        excess := excess - 1;
      }
    }
    assert paise == 0 ==> MoveEach(start, [], -1) == start;
  }

  /** The correction loop of amounts that are below their base: a paisa onto each in turn. */
  method GiveRemaining(amounts: array<int>, order: seq<nat>, paise: nat)
    requires InRange(order, amounts.Length) && Distinct(order) && paise <= |order|
    modifies amounts
    ensures amounts[..] == MoveEach(old(amounts[..]), order[..paise], 1)
  {
    var remaining := paise;
    ghost var start := amounts[..];
    while remaining > 0 && order != []
      invariant remaining == 0 || (remaining == paise && amounts[..] == start)
      invariant remaining == 0 ==> amounts[..] == MoveEach(start, order[..paise], 1)
    {
      for k := 0 to |order|
        invariant remaining == paise - k && remaining >= 0
        invariant amounts[..] == MoveEach(start, order[..k], 1)
      {
        if remaining <= 0 { break; }
        assert order[..k + 1] == order[..k] + [order[k]];
        MoveEachMore(start, order[..k], order[k], 1);
        amounts[order[k]] := amounts[order[k]] + 1;
        remaining := remaining - 1;
      }
    }
    assert paise == 0 ==> MoveEach(start, [], 1) == start;
  }

  /** The amounts for a list of discounts, cut to the base by the two correction loops. */
  method ResolveDiscountAmounts(discounts: seq<Discount>, base: int) returns (amounts: seq<int>)
    ensures amounts == DiscountAmounts(discounts, base)
  {
    if base <= 0 || discounts == [] {
      return [];
    }
    var raw := RawAmounts(discounts, base);
    if Sum(raw) <= base {
      return raw;
    }
    amounts := ScaleToBase(raw, base);
  }

  method ScaleToBase(raw: seq<nat>, base: nat) returns (amounts: seq<int>)
    requires Sum(raw) > base
    ensures amounts == Corrected(raw, base)
  {
    var scaled := Scaled(raw, base);
    if Sum(scaled) > base { ExcessFits(raw, base); } else { ShortfallFits(raw, base); }
    amounts := CorrectPaise(scaled, Left(raw, scaled, base), base);
  }

  method ArrayOf(s: seq<int>) returns (a: array<int>)
    ensures fresh(a) && a[..] == s
  {
    a := new int[|s|](i requires 0 <= i < |s| => s[i]);
  }

  lemma OrderDistinct(keys: seq<int>)
    ensures var order := SortDescending(keys, Indices(|keys|)); InRange(order, |keys|) && Distinct(order) && |order| == |keys|
  {
    SortDescendingSorted(keys, Indices(|keys|));
  }

  method TakeExcessOver(scaled: array<int>, base: nat)
    requires Sum(scaled[..]) - base <= scaled.Length
    requires forall i :: i in Leading(scaled[..], Max(0, Sum(scaled[..]) - base)) ==> scaled[i] > 0
    modifies scaled
    ensures scaled[..] == MoveEach(old(scaled[..]), Leading(old(scaled[..]), Max(0, Sum(old(scaled[..])) - base)), -1)
  {
    hide Sum, Leading, MoveEach, SortDescending, Sorted, Before;
    ghost var start := scaled[..];
    var excess := Max(0, Sum(scaled[..]) - base);
    LeadingSorted(start, excess);
    LeadingAgain(start, excess);
    OrderDistinct(start);
    TakeExcess(scaled, SortDescending(scaled[..], Indices(scaled.Length)), excess);
  }

  method CorrectPaise(start: seq<int>, fractions: seq<int>, base: nat) returns (amounts: seq<int>)
    requires |fractions| == |start| && Fits(start, fractions, base - Sum(start))
    ensures amounts == Correct(start, fractions, base - Sum(start))
  {
    hide MoveEach, Correct, Sum, Leading, SortDescending, Fits, Sorted, Before;
    FitsToTake(start, fractions, base);
    var scaled := ArrayOf(start);
    TakeExcessOver(scaled, base);
    ghost var lowered := scaled[..];
    CorrectSum(start, fractions, base - Sum(start));
    Lowered(start, fractions, lowered, base);
    var remaining := base - Sum(scaled[..]);
    LeadingSorted(fractions, remaining);
    var order := SortDescending(fractions, Indices(|fractions|));
    OrderDistinct(fractions);
    GiveRemaining(scaled, order, remaining);
    amounts := scaled[..];
  }

  /** What the correction loops need of amounts that can be corrected. */
  lemma FitsToTake(start: seq<int>, fractions: seq<int>, base: nat)
    requires |fractions| == |start| && Fits(start, fractions, base - Sum(start))
    ensures Sum(start) - base <= |start| && base - Sum(start) <= |start|
    ensures forall i :: i in Leading(start, Max(0, Sum(start) - base)) ==> start[i] > 0
  {
    hide Leading, Sum;
    LeadingNone(start);
  }

  lemma LeadingNone(keys: seq<int>)
    ensures Leading(keys, 0) == []
  {
  }

  /** After the first loop: either it gave everything back and nothing is left to hand out, or there was nothing for it to do. */
  lemma Lowered(start: seq<int>, fractions: seq<int>, lowered: seq<int>, base: nat)
    requires |fractions| == |start| && Sum(Correct(start, fractions, base - Sum(start))) == base
    requires base - Sum(start) <= |start|
    requires lowered == MoveEach(start, Leading(start, Max(0, Sum(start) - base)), -1)
    ensures Sum(lowered) <= base && base - Sum(lowered) <= |start|
    ensures MoveEach(lowered, Leading(fractions, base - Sum(lowered)), 1) == Correct(start, fractions, base - Sum(start))
  {
    hide MoveEach, Leading;
    LeadingNone(start);
    LeadingNone(fractions);
    MoveNone(lowered, 1);
    MoveNone(start, 1);
    MoveNone(start, -1);
  }

  // ----- Splitting one discount over lines

  function Shares(bases: seq<nat>, capped: nat, total: nat): (r: seq<int>)
    requires total > 0
    ensures |r| == |bases|
  {
    seq(|bases|, i requires 0 <= i < |bases| => bases[i] * capped / total)
  }

  /** What flooring left off each share, in units of one over the total. */
  function Remainders(bases: seq<nat>, capped: nat, total: nat): (r: seq<int>)
    requires total > 0
    ensures |r| == |bases|
  {
    seq(|bases|, i requires 0 <= i < |bases| => bases[i] * capped % total)
  }

  /** The lines that can take another paisa. */
  function WithHeadroom(bases: seq<nat>, shares: seq<int>, n: nat): (r: seq<nat>)
    requires n <= |bases| == |shares|
    ensures InRange(r, n) && Ascending(r)
  {
    if n == 0 then []
    else
      var before := WithHeadroom(bases, shares, n - 1);
      if bases[n - 1] - shares[n - 1] >= 1 then before + [n - 1] else before
  }

  function CappedDiscount(bases: seq<nat>, discount: int): (r: int) {
    Min(Max(0, discount), Sum(bases))
  }

  function OddPaiseOrder(bases: seq<nat>, capped: nat): (r: seq<nat>)
    requires Sum(bases) > 0
    ensures InRange(r, |bases|)
  {
    SortDescending(Remainders(bases, capped, Sum(bases)), WithHeadroom(bases, Shares(bases, capped, Sum(bases)), |bases|))
  }

  /** Each line's part of a discount: its share floored, and a paisa more on the largest remainders. */
  function Allocation(bases: seq<nat>, discount: int): (r: seq<int>)
    ensures |r| == |bases|
  {
    var total, capped := Sum(bases), CappedDiscount(bases, discount);
    if total <= 0 || capped <= 0 then seq(|bases|, i => 0)
    else
      var shares, order := Shares(bases, capped, total), OddPaiseOrder(bases, capped);
      MoveEach(shares, order[..Min(Max(0, capped - Sum(shares)), |order|)], 1)
  }

  lemma DivideExact(a: nat, d: nat)
    requires d > 0
    ensures a % d == a - (a / d) * d && 0 <= a % d < d && a / d >= 0
  {
    assert a == d * (a / d) + a % d;
  }

  lemma SharesRemaindersSum(bases: seq<nat>, capped: nat)
    requires Sum(bases) > 0
    ensures Sum(Remainders(bases, capped, Sum(bases))) == Sum(bases) * (capped - Sum(Shares(bases, capped, Sum(bases))))
  {
    var total := Sum(bases);
    forall i | 0 <= i < |bases|
      ensures Remainders(bases, capped, total)[i] == bases[i] * capped - Shares(bases, capped, total)[i] * total
    {
      DivideExact(bases[i] * capped, total);
    }
    LeftSum(bases, Shares(bases, capped, total), Remainders(bases, capped, total), capped, total);
    Distribute(total, capped, Sum(Shares(bases, capped, total)));
  }

  /** One line: the floored share is within its base, with room for a paisa more when anything was floored off. */
  lemma ShareWithinBase(base: nat, capped: nat, total: nat)
    requires 0 < total && capped <= total
    ensures 0 <= base * capped / total <= base
    ensures base * capped % total > 0 ==> base * capped / total < base
  {
    DivideExact(base * capped, total);
    MulMonotone(base, capped, total);
    StrictlyBelow(total, base, base * capped / total);
    if base * capped / total == base {
      assert (base * capped / total) * total == base * total;
    }
  }

  lemma {:induction false} HeadroomRemainders(bases: seq<nat>, shares: seq<int>, rems: seq<int>, n: nat)
    requires n <= |bases| == |shares| == |rems|
    requires forall i :: 0 <= i < |bases| ==> rems[i] >= 0 && (rems[i] > 0 ==> shares[i] < bases[i])
    ensures Sum(Pick(rems, WithHeadroom(bases, shares, n))) == Sum(rems[..n])
  {
    hide Sum, Pick, WithHeadroom;
    if n > 0 {
      HeadroomRemainders(bases, shares, rems, n - 1);
      SumPrefix(rems, n - 1);
      NextHeadroom(bases, shares, n);
      PickAppend(rems, WithHeadroom(bases, shares, n - 1), n - 1);
    } else {
      NoHeadroom(bases, shares, rems);
    }
  }

  lemma NextHeadroom(bases: seq<nat>, shares: seq<int>, n: nat)
    requires 0 < n <= |bases| == |shares|
    ensures var before := WithHeadroom(bases, shares, n - 1);
            WithHeadroom(bases, shares, n) == if shares[n - 1] < bases[n - 1] then before + [n - 1] else before
  {
  }

  lemma NoHeadroom(bases: seq<nat>, shares: seq<int>, rems: seq<int>)
    requires |bases| == |shares| == |rems|
    ensures Sum(Pick(rems, WithHeadroom(bases, shares, 0))) == Sum(rems[..0]) == 0
  {
  }

  /** The odd paise left by flooring are fewer than the lines with a remainder, all of which can take one. */
  lemma OddPaiseFit(bases: seq<nat>, capped: nat)
    requires Sum(bases) > 0 && capped <= Sum(bases)
    ensures var odd := capped - Sum(Shares(bases, capped, Sum(bases)));
            && 0 <= odd <= |OddPaiseOrder(bases, capped)|
            && Distinct(OddPaiseOrder(bases, capped))
            && forall p :: 0 <= p < odd ==> Remainders(bases, capped, Sum(bases))[OddPaiseOrder(bases, capped)[p]] > 0
  {
    var total := Sum(bases);
    var shares, rems := Shares(bases, capped, total), Remainders(bases, capped, total);
    hide Sum, Shares, Remainders, WithHeadroom, SortDescending, Distinct;
    SharesHaveRoom(bases, capped, total);
    SharesRemaindersSum(bases, capped);
    OddPaiseFitIn(bases, shares, rems, capped - Sum(shares), total);
  }

  lemma SharesHaveRoom(bases: seq<nat>, capped: nat, total: nat)
    requires 0 < total && capped <= total
    ensures var shares, rems := Shares(bases, capped, total), Remainders(bases, capped, total);
            forall i :: 0 <= i < |bases| ==> 0 <= rems[i] < total && (rems[i] > 0 ==> shares[i] < bases[i])
  {
    var shares, rems := Shares(bases, capped, total), Remainders(bases, capped, total);
    forall i | 0 <= i < |bases| ensures 0 <= rems[i] < total && (rems[i] > 0 ==> shares[i] < bases[i]) {
      DivideExact(bases[i] * capped, total);
      ShareWithinBase(bases[i], capped, total);
    }
  }

  lemma OddPaiseFitIn(bases: seq<nat>, shares: seq<int>, rems: seq<int>, odd: int, total: nat)
    requires total > 0 && |bases| == |shares| == |rems|
    requires Sum(rems) == total * odd
    requires forall i :: 0 <= i < |bases| ==> 0 <= rems[i] < total && (rems[i] > 0 ==> shares[i] < bases[i])
    ensures var order := SortDescending(rems, WithHeadroom(bases, shares, |bases|));
            0 <= odd <= |order| && Distinct(order) && forall p :: 0 <= p < odd ==> rems[order[p]] > 0
  {
    var room := WithHeadroom(bases, shares, |bases|);
    SumNonNegative(rems);
    StrictlyBelow(total, odd, 0);
    HeadroomRemainders(bases, shares, rems, |bases|);
    assert rems[..|bases|] == rems;
    SortDescendingSorted(rems, room);
    SortedSum(rems, rems, room);
    LargestRemainders(rems, SortDescending(rems, room), odd, total);
  }

  /** A line's part of a discount: its exact share rounded down or up, and never more than the line's base. */
  ghost predicate FairShare(part: int, base: nat, capped: nat, total: nat) {
    && 0 <= part <= base
    && part * total < base * capped + total
    && base * capped < part * total + total
  }

  lemma FairPart(base: nat, capped: nat, total: nat, part: int)
    requires 0 < total && capped <= total
    requires part == base * capped / total || (part == base * capped / total + 1 && base * capped % total > 0)
    ensures FairShare(part, base, capped, total)
  {
    ShareWithinBase(base, capped, total);
    DivideExact(base * capped, total);
    if part != base * capped / total {
      assert part * total == (base * capped / total) * total + total;
    }
  }

  lemma AllocationSum(bases: seq<nat>, discount: int)
    ensures Sum(Allocation(bases, discount)) == CappedDiscount(bases, discount)
  {
    var total, capped := Sum(bases), CappedDiscount(bases, discount);
    SumNonNegative(bases);
    if total <= 0 || capped <= 0 {
      SumConstant(seq(|bases|, i => 0), 0);
    } else {
      OddPaiseFit(bases, capped);
      var odd := capped - Sum(Shares(bases, capped, total));
      MoveEachSum(Shares(bases, capped, total), OddPaiseOrder(bases, capped)[..odd], 1);
    }
  }

  lemma MovedOnlyAbove(shares: seq<int>, rems: seq<int>, order: seq<nat>, odd: nat, i: nat)
    requires |shares| == |rems| && i < |shares| && InRange(order, |shares|) && odd <= |order|
    requires forall p :: 0 <= p < odd ==> rems[order[p]] > 0
    ensures var part := MoveEach(shares, order[..odd], 1)[i];
            part == shares[i] || (part == shares[i] + 1 && rems[i] > 0)
  {
  }

  lemma AllocationFair(bases: seq<nat>, discount: int, i: nat)
    requires i < |bases| && Sum(bases) > 0
    ensures FairShare(Allocation(bases, discount)[i], bases[i], CappedDiscount(bases, discount), Sum(bases))
  {
    var total, capped := Sum(bases), CappedDiscount(bases, discount);
    if capped > 0 {
      var shares, order := Shares(bases, capped, total), OddPaiseOrder(bases, capped);
      OddPaiseFit(bases, capped);
      MovedOnlyAbove(shares, Remainders(bases, capped, total), order, capped - Sum(shares), i);
      FairPart(bases[i], capped, total, Allocation(bases, discount)[i]);
    }
  }

  /** Of two indices sorted, one among the first n and one not, the first has the larger key, or as large and comes first. */
  lemma FirstOnes(keys: seq<int>, idxs: seq<nat>, n: nat, i: nat, j: nat)
    requires InRange(idxs, |keys|) && Ascending(idxs)
    requires n <= |SortDescending(keys, idxs)| && i in SortDescending(keys, idxs)[..n]
    requires j in idxs && j !in SortDescending(keys, idxs)[..n]
    ensures Before(keys, i, j)
  {
    hide SortDescending, Before;
    var order := SortDescending(keys, idxs);
    SortDescendingSorted(keys, idxs);
    assert j in multiset(order);
    assert forall q :: 0 <= q < n ==> order[q] == order[..n][q];
    var p :| 0 <= p < n && order[p] == i;
    var q :| 0 <= q < |order| && order[q] == j;
  }

  /** So of two amounts of which `step` went on the first n only, the one moved comes first. */
  lemma MovedFirst(start: seq<int>, keys: seq<int>, idxs: seq<nat>, n: nat, step: int, i: nat, j: nat)
    requires |start| == |keys| && InRange(idxs, |keys|) && Ascending(idxs) && n <= |SortDescending(keys, idxs)| && step != 0
    requires i < |start| && j < |start| && j in idxs
    requires var moved := MoveEach(start, SortDescending(keys, idxs)[..n], step); moved[i] != start[i] && moved[j] == start[j]
    ensures Before(keys, i, j)
  {
    hide SortDescending;
    FirstOnes(keys, idxs, n, i, j);
  }

  lemma {:induction false} AllWithHeadroom(bases: seq<nat>, shares: seq<int>, n: nat, i: nat)
    requires i < n <= |bases| == |shares| && shares[i] < bases[i]
    ensures i in WithHeadroom(bases, shares, n)
  {
    if i < n - 1 {
      AllWithHeadroom(bases, shares, n - 1, i);
      var before := WithHeadroom(bases, shares, n - 1);
      assert i in before + [n - 1];
    }
  }

  /** The odd paise go to the largest remainders, of equal ones to the first: a line rounded up comes before one rounded down. */
  lemma OddPaiseToLargest(bases: seq<nat>, discount: int, i: nat, j: nat)
    requires i < |bases| && j < |bases| && Sum(bases) > 0
    requires var total, capped, parts := Sum(bases), CappedDiscount(bases, discount), Allocation(bases, discount);
             parts[i] * total > bases[i] * capped && parts[j] * total < bases[j] * capped
    ensures var total, capped := Sum(bases), CappedDiscount(bases, discount);
            Before(Remainders(bases, capped, total), i, j)
  {
    hide Sum, SortDescending, WithHeadroom, Allocation, MoveEach, Shares, Remainders, Before;
    var total, capped, parts := Sum(bases), CappedDiscount(bases, discount), Allocation(bases, discount);
    AllocatedUp(bases, discount, i);
    AllocatedUp(bases, discount, j);
    var shares, order := Shares(bases, capped, total), OddPaiseOrder(bases, capped);
    OddPaiseFit(bases, capped);
    AllWithHeadroom(bases, shares, |bases|, j);
    AllocatedAs(bases, discount);
    MovedFirst(shares, Remainders(bases, capped, total), WithHeadroom(bases, shares, |bases|), capped - Sum(shares), 1, i, j);
  }

  lemma AllocatedAs(bases: seq<nat>, discount: int)
    requires Sum(bases) > 0 && CappedDiscount(bases, discount) > 0
    ensures var total, capped := Sum(bases), CappedDiscount(bases, discount);
            var odd := capped - Sum(Shares(bases, capped, total));
            0 <= odd <= |OddPaiseOrder(bases, capped)|
            && Allocation(bases, discount) == MoveEach(Shares(bases, capped, total), OddPaiseOrder(bases, capped)[..odd], 1)
  {
    hide Sum, SortDescending, WithHeadroom, MoveEach, Shares;
    OddPaiseFit(bases, CappedDiscount(bases, discount));
  }

  /** A part is above its exact share when its floored share got an odd paisa; below it, it didn't, and could have. */
  lemma AllocatedUp(bases: seq<nat>, discount: int, i: nat)
    requires i < |bases| && Sum(bases) > 0
    requires Allocation(bases, discount)[i] * Sum(bases) != bases[i] * CappedDiscount(bases, discount)
    ensures var total, capped, part := Sum(bases), CappedDiscount(bases, discount), Allocation(bases, discount)[i];
            && capped > 0
            && (part * total > bases[i] * capped ==> part != Shares(bases, capped, total)[i])
            && (part * total < bases[i] * capped ==> part == Shares(bases, capped, total)[i] < bases[i])
  {
    hide Sum, SortDescending, WithHeadroom, MoveEach, Shares, Remainders, Allocation, OddPaiseOrder;
    var total, capped := Sum(bases), CappedDiscount(bases, discount);
    if capped > 0 {
      OddPaiseFit(bases, capped);
      AllocatedAs(bases, discount);
      MovedOnlyAbove(Shares(bases, capped, total), Remainders(bases, capped, total), OddPaiseOrder(bases, capped), capped - Sum(Shares(bases, capped, total)), i);
      ShareAt(bases, capped, total, i);
      UpOrDown(bases[i], capped, total, Allocation(bases, discount)[i]);
    } else {
      NoneAllocated(bases, discount, i);
    }
  }

  lemma ShareAt(bases: seq<nat>, capped: nat, total: nat, i: nat)
    requires total > 0 && i < |bases|
    ensures Shares(bases, capped, total)[i] == bases[i] * capped / total && Remainders(bases, capped, total)[i] == bases[i] * capped % total
  {
  }

  lemma NoneAllocated(bases: seq<nat>, discount: int, i: nat)
    requires i < |bases| && CappedDiscount(bases, discount) <= 0
    ensures Allocation(bases, discount)[i] * Sum(bases) == 0 == bases[i] * CappedDiscount(bases, discount)
  {
    hide SortDescending, WithHeadroom, MoveEach, Shares;
    SumNonNegative(bases);
  }

  lemma UpOrDown(base: nat, capped: nat, total: nat, part: int)
    requires 0 < total && capped <= total && part * total != base * capped
    requires part == base * capped / total || (part == base * capped / total + 1 && base * capped % total > 0)
    ensures part * total > base * capped ==> part != base * capped / total
    ensures part * total < base * capped ==> part == base * capped / total < base
  {
    DivideExact(base * capped, total);
    ShareWithinBase(base, capped, total);
    if part != base * capped / total { assert part * total == (base * capped / total) * total + total; }
  }

  /**
   * Cut to their base, the paise that rounding gained come off the largest amounts, and those it lost go to the largest
   * remainders: of two amounts, one moved and one not, the one moved comes first.
   */
  lemma CorrectedLargest(raw: seq<nat>, base: nat, i: nat, j: nat)
    requires Sum(raw) > base && i < |raw| && j < |raw|
    requires Corrected(raw, base)[i] != Scaled(raw, base)[i] && Corrected(raw, base)[j] == Scaled(raw, base)[j]
    ensures var scaled := Scaled(raw, base);
            if Corrected(raw, base)[i] < scaled[i] then Before(scaled, i, j) else Before(Left(raw, scaled, base), i, j)
  {
    hide Sum, SortDescending, Scaled, Left, MoveEach;
    var scaled := Scaled(raw, base);
    if Sum(scaled) > base { ExcessFits(raw, base); } else { ShortfallFits(raw, base); }
    CorrectLargest(scaled, Left(raw, scaled, base), base - Sum(scaled), i, j);
  }

  lemma CorrectLargest(scaled: seq<int>, left: seq<int>, change: int, i: nat, j: nat)
    requires |left| == |scaled| && Fits(scaled, left, change) && i < |scaled| && j < |scaled|
    requires Correct(scaled, left, change)[i] != scaled[i] && Correct(scaled, left, change)[j] == scaled[j]
    ensures if Correct(scaled, left, change)[i] < scaled[i] then Before(scaled, i, j) else Before(left, i, j)
  {
    hide SortDescending;
    CorrectEach(scaled, left, change, i);
    assert Indices(|scaled|)[j] == j;
    if change < 0 {
      MovedFirst(scaled, scaled, Indices(|scaled|), -change, -1, i, j);
    } else {
      MovedFirst(scaled, left, Indices(|left|), change, 1, i, j);
    }
  }

  /**
   * The parts of a discount over non-negative bases add up to the capped discount exactly, and
   * each is the exact proportional share rounded down or up by less than a paisa, never above its base.
   */
  lemma AllocationExact(bases: seq<nat>, discount: int)
    ensures Sum(Allocation(bases, discount)) == CappedDiscount(bases, discount)
    ensures Sum(bases) > 0 ==> forall i :: 0 <= i < |bases| ==>
              FairShare(Allocation(bases, discount)[i], bases[i], CappedDiscount(bases, discount), Sum(bases))
  {
    AllocationSum(bases, discount);
    if Sum(bases) > 0 {
      forall i | 0 <= i < |bases|
        ensures FairShare(Allocation(bases, discount)[i], bases[i], CappedDiscount(bases, discount), Sum(bases))
      {
        AllocationFair(bases, discount, i);
      }
    }
  }

  lemma {:induction false} OnlyWithHeadroom(bases: seq<nat>, shares: seq<int>, n: nat)
    requires n <= |bases| == |shares|
    ensures forall i :: i in WithHeadroom(bases, shares, n) ==> i < |bases| && shares[i] < bases[i]
  {
    if n > 0 { OnlyWithHeadroom(bases, shares, n - 1); }
  }

  lemma OrderHasRoom(bases: seq<nat>, capped: nat)
    requires Sum(bases) > 0
    ensures forall p :: 0 <= p < |OddPaiseOrder(bases, capped)| ==>
              var i := OddPaiseOrder(bases, capped)[p]; Shares(bases, capped, Sum(bases))[i] < bases[i]
  {
    var shares, order := Shares(bases, capped, Sum(bases)), OddPaiseOrder(bases, capped);
    var room := WithHeadroom(bases, shares, |bases|);
    OnlyWithHeadroom(bases, shares, |bases|);
    forall p | 0 <= p < |order| ensures shares[order[p]] < bases[order[p]] {
      assert order[p] in multiset(room);
    }
  }

  /** Splits one discount over the lines, with the source's leftover loop. */
  method AllocateDiscountAcrossBases(bases: seq<nat>, discount: int) returns (shares: seq<int>)
    ensures shares == Allocation(bases, discount)
  {
    var totalBase, capped := Sum(bases), CappedDiscount(bases, discount);
    if totalBase <= 0 || capped <= 0 {
      return seq(|bases|, i => 0);
    }
    OddPaiseFit(bases, capped);
    OrderHasRoom(bases, capped);
    var start := Shares(bases, capped, totalBase);
    shares := GiveOddPaise(start, bases, OddPaiseOrder(bases, capped), capped - Sum(start));
  }

  /** The leftover loop: one round over the lines with room gives every odd paisa out. */
  method GiveOddPaise(start: seq<int>, bases: seq<nat>, order: seq<nat>, paise: nat) returns (shares: seq<int>)
    requires |start| == |bases| && InRange(order, |bases|) && Distinct(order) && paise <= |order|
    requires forall p :: 0 <= p < |order| ==> start[order[p]] < bases[order[p]]
    ensures shares == MoveEach(start, order[..paise], 1)
  {
    var floored := ArrayOf(start);
    var remaining := paise;
    while remaining > 0 && order != []
      invariant remaining == 0 || (remaining == paise && floored[..] == start)
      invariant remaining == 0 ==> floored[..] == MoveEach(start, order[..paise], 1)
    {
      remaining := OddPaiseRound(floored, bases, order, remaining);
    }
    MoveNone(start, 1);
    assert order[..0] == [];
    shares := floored[..];
  }

  /** One round: a paisa to each line in turn that has room for one, until none are left. */
  method OddPaiseRound(floored: array<int>, bases: seq<nat>, order: seq<nat>, paise: nat) returns (remaining: nat)
    requires floored.Length == |bases| && InRange(order, |bases|) && Distinct(order) && paise <= |order|
    requires forall p :: 0 <= p < |order| ==> floored[order[p]] < bases[order[p]]
    modifies floored
    ensures remaining == 0
    ensures floored[..] == MoveEach(old(floored[..]), order[..paise], 1)
  {
    remaining := paise;
    ghost var start := floored[..];
    for k := 0 to |order|
      invariant remaining == paise - k
      invariant floored[..] == MoveEach(start, order[..k], 1)
    {
      if remaining <= 0 { break; }
      assert order[..k + 1] == order[..k] + [order[k]];
      MoveEachMore(start, order[..k], order[k], 1);
      assert floored[order[k]] == start[order[k]];
      if bases[order[k]] - floored[order[k]] < 1 { continue; }
      floored[order[k]] := floored[order[k]] + 1;
      remaining := remaining - 1;
    }
  }
}
