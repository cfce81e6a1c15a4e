/**
 * Returning goods (packages/contracts/src/pricing.ts, receiptDocuments.ts): what giving back part of
 * a sale line refunds, line by line and step by step. Quantities are in thousandths.
 */
module Returns {
  import opened Rounding
  import opened Sums

  datatype GstAmounts = GstAmounts(taxable: nat, cgst: nat, sgst: nat, igst: nat) {
    function Tax(): nat { cgst + sgst + igst }
    function Total(): nat { taxable + Tax() }

    function Plus(other: GstAmounts): GstAmounts {
      GstAmounts(taxable + other.taxable, cgst + other.cgst, sgst + other.sgst, igst + other.igst)
    }

    predicate AtMost(other: GstAmounts) {
      taxable <= other.taxable && cgst <= other.cgst && sgst <= other.sgst && igst <= other.igst
    }
  }

  const NOTHING := GstAmounts(0, 0, 0, 0)

  /** A part's share of some of the units, to the paisa. */
  function Prorated(amount: nat, qty: nat, soldQty: nat): (share: nat)
    requires soldQty > 0
  {
    assert amount * qty >= 0;
    RoundDiv(amount * qty, soldQty)
  }

  /** What a step owes of a part: its share up to and with the step, but for what went back before. */
  function Due(amount: nat, returnedQty: nat, soldQty: nat, before: nat): (due: nat)
    requires soldQty > 0
  {
    Max(0, Prorated(amount, returnedQty, soldQty) - before)
  }

  function Remaining(part: nat, before: nat): (left: nat) {
    Max(0, part - before)
  }

  /** The refund of one step, of `qty` units, part by part. */
  function ReturnLineAmounts(line: GstAmounts, soldQty: int, alreadyQty: nat, already: GstAmounts, qty: int): (parts: GstAmounts) {
    if soldQty <= 0 || qty <= 0 then NOTHING
    else
      var returnedQty := alreadyQty + qty;
      if returnedQty == soldQty then
        GstAmounts(Remaining(line.taxable, already.taxable), Remaining(line.cgst, already.cgst),
          Remaining(line.sgst, already.sgst), Remaining(line.igst, already.igst))
      else
        var cgst := Min(Remaining(line.cgst, already.cgst), Due(line.cgst, returnedQty, soldQty, already.cgst));
        var sgst := Min(Remaining(line.sgst, already.sgst), Due(line.sgst, returnedQty, soldQty, already.sgst));
        var igst := Min(Remaining(line.igst, already.igst), Due(line.igst, returnedQty, soldQty, already.igst));
        var amount := Due(line.Total(), returnedQty, soldQty, already.Total());
        GstAmounts(Min(Remaining(line.taxable, already.taxable), Max(0, amount - cgst - sgst - igst)), cgst, sgst, igst)
  }

  // ----- One line, in any steps

  datatype LineReturned = LineReturned(qty: nat, amounts: GstAmounts)

  const NONE_RETURNED := LineReturned(0, NOTHING)

  function ReturnMore(line: GstAmounts, soldQty: nat, before: LineReturned, qty: nat): (after: LineReturned) {
    LineReturned(before.qty + qty, before.amounts.Plus(ReturnLineAmounts(line, soldQty, before.qty, before.amounts, qty)))
  }

  /** What has come back after returning the line in these steps. */
  function AfterSteps(line: GstAmounts, soldQty: nat, steps: seq<nat>): (after: LineReturned) {
    if steps == [] then NONE_RETURNED
    else ReturnMore(line, soldQty, AfterSteps(line, soldQty, steps[..|steps| - 1]), steps[|steps| - 1])
  }

  /** Every tax part is its exact share of the units back so far, the taxable value is within the line's, and nothing is left once all is back. */
  ghost predicate OnTrack(line: GstAmounts, soldQty: nat, returned: LineReturned) {
    && 0 < soldQty && returned.qty <= soldQty
    && returned.amounts.cgst == Prorated(line.cgst, returned.qty, soldQty)
    && returned.amounts.sgst == Prorated(line.sgst, returned.qty, soldQty)
    && returned.amounts.igst == Prorated(line.igst, returned.qty, soldQty)
    && returned.amounts.taxable <= line.taxable
    && (returned.qty == 0 ==> returned.amounts == NOTHING)
    && (returned.qty == soldQty ==> returned.amounts == line)
  }

  lemma NothingOnTrack(line: GstAmounts, soldQty: nat)
    requires soldQty > 0
    ensures OnTrack(line, soldQty, NONE_RETURNED)
  {
    RoundDivWhole(0, soldQty);
  }

  lemma OnTrackAtMost(line: GstAmounts, soldQty: nat, returned: LineReturned)
    requires OnTrack(line, soldQty, returned)
    ensures returned.amounts.AtMost(line)
  {
    RoundDivAtMost(line.cgst, returned.qty, soldQty);
    RoundDivAtMost(line.sgst, returned.qty, soldQty);
    RoundDivAtMost(line.igst, returned.qty, soldQty);
  }

  /** A tax part's step: neither clamp binds. */
  lemma PartStep(part: nat, soldQty: nat, before: nat, qty: nat)
    requires soldQty > 0 && before + qty <= soldQty
    ensures var had := Prorated(part, before, soldQty);
            && 0 <= had <= Prorated(part, before + qty, soldQty) <= part
            && had + Min(Remaining(part, had), Due(part, before + qty, soldQty, had)) == Prorated(part, before + qty, soldQty)
  {
    MulMonotone(part, before, before + qty);
    RoundDivMonotone(part * before, part * (before + qty), soldQty);
    RoundDivAtMost(part, before + qty, soldQty);
  }

  lemma WholePart(part: nat, soldQty: nat)
    requires soldQty > 0
    ensures Prorated(part, soldQty, soldQty) == part
  {
    assert part * soldQty == soldQty * part;
    RoundDivWhole(part, soldQty);
  }

  lemma StaysOnTrack(line: GstAmounts, soldQty: nat, before: LineReturned, qty: nat)
    requires OnTrack(line, soldQty, before) && 0 < qty && before.qty + qty <= soldQty
    ensures OnTrack(line, soldQty, ReturnMore(line, soldQty, before, qty))
  {
    hide Prorated;
    OnTrackAtMost(line, soldQty, before);
    PartStep(line.cgst, soldQty, before.qty, qty);
    PartStep(line.sgst, soldQty, before.qty, qty);
    PartStep(line.igst, soldQty, before.qty, qty);
    if before.qty + qty == soldQty {
      WholePart(line.cgst, soldQty);
      WholePart(line.sgst, soldQty);
      WholePart(line.igst, soldQty);
    }
  }

  /**
   * However a line's return is cut into steps: after k of S units each tax part given back is
   * exactly round(part·k/S), no part is ever more than the line's, and returning all S gives
   * every part back exactly.
   */
  lemma {:induction false} ReturnedInSteps(line: GstAmounts, soldQty: nat, steps: seq<nat>)
    requires soldQty > 0 && Sum(steps) <= soldQty
    requires forall i :: 0 <= i < |steps| ==> steps[i] > 0
    ensures AfterSteps(line, soldQty, steps).qty == Sum(steps)
    ensures OnTrack(line, soldQty, AfterSteps(line, soldQty, steps))
    ensures AfterSteps(line, soldQty, steps).amounts.AtMost(line)
  {
    hide OnTrack, ReturnMore;
    if steps == [] {
      NothingOnTrack(line, soldQty);
    } else {
      var n := |steps| - 1;
      ReturnedInSteps(line, soldQty, steps[..n]);
      StepQty(line, soldQty, AfterSteps(line, soldQty, steps[..n]), steps[n]);
      StaysOnTrack(line, soldQty, AfterSteps(line, soldQty, steps[..n]), steps[n]);
    }
    OnTrackAtMost(line, soldQty, AfterSteps(line, soldQty, steps));
  }

  lemma StepQty(line: GstAmounts, soldQty: nat, before: LineReturned, qty: nat)
    ensures ReturnMore(line, soldQty, before, qty).qty == before.qty + qty
  {
  }

  // ----- The refund's total

  /** The total refunded is the line's total's share of the units back. */
  ghost predicate TotalOnTrack(line: GstAmounts, soldQty: nat, returned: LineReturned)
    requires soldQty > 0
  {
    returned.amounts.Total() == Prorated(line.Total(), returned.qty, soldQty)
  }

  /** This step's taxable share is at least 4 paise, and so much stays behind (2 paise are enough) unless it is the last. */
  ghost predicate BigEnough(line: GstAmounts, soldQty: nat, before: int, qty: nat) {
    && line.taxable * qty >= 4 * soldQty
    && (before + qty == soldQty || line.taxable * (soldQty - (before + qty)) >= 2 * soldQty)
  }

  /** The taxable value a step takes before it is held between nothing and what remains. */
  function UnclampedTaxable(line: GstAmounts, soldQty: nat, before: nat, qty: nat): (r: int)
    requires soldQty > 0
  {
    TaxableUpTo(line, soldQty, before + qty) - TaxableUpTo(line, soldQty, before)
  }

  function TaxableUpTo(line: GstAmounts, soldQty: nat, k: nat): (r: int)
    requires soldQty > 0
  {
    Prorated(line.Total(), k, soldQty)
    - Prorated(line.cgst, k, soldQty) - Prorated(line.sgst, k, soldQty) - Prorated(line.igst, k, soldQty)
  }

  /** Four roundings are at most two paise off in all. */
  lemma TaxableUpToNear(line: GstAmounts, soldQty: nat, k: nat)
    requires soldQty > 0
    ensures -2 * soldQty <= soldQty * TaxableUpTo(line, soldQty, k) - line.taxable * k <= 2 * soldQty
  {
    var t, c, s, i := Prorated(line.Total(), k, soldQty), Prorated(line.cgst, k, soldQty),
      Prorated(line.sgst, k, soldQty), Prorated(line.igst, k, soldQty);
    hide Prorated;
    ShareNear(line.Total(), k, soldQty);
    ShareNear(line.cgst, k, soldQty);
    ShareNear(line.sgst, k, soldQty);
    ShareNear(line.igst, k, soldQty);
    SharesAdd(line, k);
    FourShares(soldQty, t, c, s, i);
  }

  lemma ShareNear(amount: nat, k: nat, soldQty: nat)
    requires soldQty > 0
    ensures 2 * (amount * k) <= 2 * (soldQty * Prorated(amount, k, soldQty)) + soldQty
    ensures 2 * (soldQty * Prorated(amount, k, soldQty)) <= 2 * (amount * k) + soldQty
  {
  }

  lemma FourShares(d: int, t: int, c: int, s: int, i: int)
    ensures d * (t - c - s - i) == d * t - d * c - d * s - d * i
  {
  }

  lemma SharesAdd(line: GstAmounts, k: nat)
    ensures line.Total() * k == line.taxable * k + line.cgst * k + line.sgst * k + line.igst * k
    ensures line.Total() * k >= 0 && line.cgst * k >= 0 && line.sgst * k >= 0 && line.igst * k >= 0
  {
  }

  /** A step keeps the total on track exactly when its taxable value needs no clamping. */
  lemma TotalStaysOnTrack(line: GstAmounts, soldQty: nat, before: LineReturned, qty: nat)
    requires OnTrack(line, soldQty, before) && TotalOnTrack(line, soldQty, before)
    requires 0 < qty && before.qty + qty < soldQty
    ensures TotalOnTrack(line, soldQty, ReturnMore(line, soldQty, before, qty))
       <==> 0 <= UnclampedTaxable(line, soldQty, before.qty, qty) <= line.taxable - before.amounts.taxable
  {
    hide Prorated;
    PartStep(line.cgst, soldQty, before.qty, qty);
    PartStep(line.sgst, soldQty, before.qty, qty);
    PartStep(line.igst, soldQty, before.qty, qty);
    PartStep(line.Total(), soldQty, before.qty, qty);
    var after := ReturnMore(line, soldQty, before, qty);
    assert after.amounts.cgst == Prorated(line.cgst, after.qty, soldQty);
    assert after.amounts.sgst == Prorated(line.sgst, after.qty, soldQty);
    assert after.amounts.igst == Prorated(line.igst, after.qty, soldQty);
  }

  lemma BigEnoughUnclamped(line: GstAmounts, soldQty: nat, before: LineReturned, qty: nat)
    requires OnTrack(line, soldQty, before) && TotalOnTrack(line, soldQty, before)
    requires BigEnough(line, soldQty, before.qty, qty) && 0 < qty && before.qty + qty < soldQty
    ensures 0 <= UnclampedTaxable(line, soldQty, before.qty, qty) <= line.taxable - before.amounts.taxable
  {
    hide Prorated, TaxableUpTo;
    var k := before.qty + qty;
    var had, has := TaxableUpTo(line, soldQty, before.qty), TaxableUpTo(line, soldQty, k);
    TaxableUpToNear(line, soldQty, before.qty);
    TaxableUpToNear(line, soldQty, k);
    TaxableSoFar(line, soldQty, before);
    Spread(line.taxable, soldQty, before.qty, qty, had, has);
  }

  lemma TaxableSoFar(line: GstAmounts, soldQty: nat, returned: LineReturned)
    requires OnTrack(line, soldQty, returned) && TotalOnTrack(line, soldQty, returned)
    ensures TaxableUpTo(line, soldQty, returned.qty) == returned.amounts.taxable
  {
    hide Prorated;
  }

  lemma Zeros(line: GstAmounts, soldQty: nat)
    requires soldQty > 0
    ensures Prorated(line.Total(), 0, soldQty) == 0
  {
    RoundDivWhole(0, soldQty);
  }

  lemma Spread(taxable: nat, soldQty: nat, before: nat, qty: nat, had: int, has: int)
    requires soldQty > 0 && before + qty < soldQty
    requires -2 * soldQty <= soldQty * had - taxable * before <= 2 * soldQty
    requires -2 * soldQty <= soldQty * has - taxable * (before + qty) <= 2 * soldQty
    requires taxable * qty >= 4 * soldQty && taxable * (soldQty - (before + qty)) >= 2 * soldQty
    ensures had <= has <= taxable
  {
    assert taxable * (before + qty) == taxable * before + taxable * qty;
    assert taxable * (soldQty - (before + qty)) == soldQty * taxable - taxable * (before + qty);
    StrictlyBelow(soldQty, has, had);
    StrictlyBelow(soldQty, taxable, has);
  }

  /** The steps so far were each big enough. */
  ghost predicate AllBigEnough(line: GstAmounts, soldQty: nat, steps: seq<nat>) {
    forall n :: 0 <= n < |steps| ==> BigEnough(line, soldQty, Sum(steps[..n]), steps[n])
  }

  /**
   * The refund's total after k of S units is round(total·k/S) however the steps were cut, as long
   * as each step's taxable share is at least 4 paise and what stays behind at least 2.
   */
  lemma {:induction false} RefundTotalInSteps(line: GstAmounts, soldQty: nat, steps: seq<nat>)
    requires soldQty > 0 && Sum(steps) <= soldQty && AllBigEnough(line, soldQty, steps)
    requires forall i :: 0 <= i < |steps| ==> steps[i] > 0
    ensures TotalOnTrack(line, soldQty, AfterSteps(line, soldQty, steps))
  {
    hide OnTrack, ReturnMore, Prorated;
    if steps == [] {
      WholePart(0, soldQty);
      Zeros(line, soldQty);
    } else {
      var n := |steps| - 1;
      assert forall m :: 0 <= m < n ==> steps[..n][..m] == steps[..m];
      RefundTotalInSteps(line, soldQty, steps[..n]);
      ReturnedInSteps(line, soldQty, steps[..n]);
      var before := AfterSteps(line, soldQty, steps[..n]);
      StepQty(line, soldQty, before, steps[n]);
      if before.qty + steps[n] == soldQty {
        ReturnedInSteps(line, soldQty, steps);
        AllBack(line, soldQty, AfterSteps(line, soldQty, steps));
      } else {
        BigEnoughUnclamped(line, soldQty, before, steps[n]);
        TotalStaysOnTrack(line, soldQty, before, steps[n]);
      }
    }
  }

  lemma AllBack(line: GstAmounts, soldQty: nat, returned: LineReturned)
    requires OnTrack(line, soldQty, returned) && returned.qty == soldQty
    ensures TotalOnTrack(line, soldQty, returned)
  {
    WholePart(line.Total(), soldQty);
  }

  /**
   * Without that the total can run ahead: two steps refund more than the share of both, by as much as the taxable value
   * up to the second is less than that up to the first.
   */
  lemma RunsAhead(line: GstAmounts, soldQty: nat, a: nat, b: nat)
    requires 0 < a && 0 < b && a + b < soldQty
    requires 0 <= TaxableUpTo(line, soldQty, a) <= line.taxable && TaxableUpTo(line, soldQty, a + b) < TaxableUpTo(line, soldQty, a)
    ensures TotalOnTrack(line, soldQty, AfterSteps(line, soldQty, [a])) && !TotalOnTrack(line, soldQty, AfterSteps(line, soldQty, [a, b]))
    ensures AfterSteps(line, soldQty, [a, b]).amounts.Total()
         == Prorated(line.Total(), a + b, soldQty) + TaxableUpTo(line, soldQty, a) - TaxableUpTo(line, soldQty, a + b)
  {
    hide ReturnMore, Prorated, TaxableUpTo, OnTrack, TotalOnTrack, Sum;
    assert [a, b][..1] == [a] && [a][..0] == [];
    SumSingle(a);
    TwoSteps(a, b);
    ReturnedInSteps(line, soldQty, []);
    ReturnedInSteps(line, soldQty, [a]);
    ReturnedInSteps(line, soldQty, [a, b]);
    RefundTotalInSteps(line, soldQty, []);
    NoneTaxable(line, soldQty);
    var first := AfterSteps(line, soldQty, [a]);
    TotalStaysOnTrack(line, soldQty, NONE_RETURNED, a);
    TaxableSoFar(line, soldQty, first);
    TotalStaysOnTrack(line, soldQty, first, b);
    SecondTakesNoTaxable(line, soldQty, first, b);
  }

  lemma TwoSteps(a: nat, b: nat)
    ensures Sum([]) == 0 && Sum([a, b]) == a + b
  {
    assert [a, b][..1] == [a];
    SumSingle(a);
  }

  lemma NoneTaxable(line: GstAmounts, soldQty: nat)
    requires soldQty > 0
    ensures TaxableUpTo(line, soldQty, 0) == 0
  {
    hide Prorated;
    NothingOnTrack(line, soldQty);
    Zeros(line, soldQty);
  }

  lemma SecondTakesNoTaxable(line: GstAmounts, soldQty: nat, first: LineReturned, qty: nat)
    requires OnTrack(line, soldQty, first) && TotalOnTrack(line, soldQty, first) && 0 < qty && first.qty + qty < soldQty
    requires TaxableUpTo(line, soldQty, first.qty + qty) < first.amounts.taxable == TaxableUpTo(line, soldQty, first.qty)
    ensures var total, before := Prorated(line.Total(), first.qty + qty, soldQty), first.amounts.taxable;
            ReturnMore(line, soldQty, first, qty).amounts.Total() == total + before - TaxableUpTo(line, soldQty, first.qty + qty)
  {
    hide Prorated;
    PartStep(line.cgst, soldQty, first.qty, qty);
    PartStep(line.sgst, soldQty, first.qty, qty);
    PartStep(line.igst, soldQty, first.qty, qty);
    PartStep(line.Total(), soldQty, first.qty, qty);
  }
}
