/**
 * Every figure of a priced sale against what was asked for (packages/contracts/src/pricing.ts): each is the only
 * number that fits its line's quantity, rate, tax and discounts.
 */
module SaleFigures {
  import opened Discounts
  import opened Rounding
  import opened SaleTotals
  import opened Sums

  /** The whole number nearest to n/d, of two as near the one further from zero. */
  predicate Nearest(r: int, n: int, d: nat) {
    if n >= 0 then 2 * n - d < 2 * (d * r) <= 2 * n + d else 2 * n - d <= 2 * (d * r) < 2 * n + d
  }

  // ----- One line

  /** What a line is priced by: its sale unit's quantity when it is sold in one, else its own. */
  function PricedQty(line: LineInput): (r: nat) {
    match line.saleUom
    case InBaseUnits => line.qty
    case InSaleUnits(qty) => qty
  }

  /** Gross, and what of it is before tax: all of it, but for a taxed line whose rate includes its tax. */
  ghost predicate BaseFits(line: LineInput, chargeTax: bool, p: PricedLine) {
    && Nearest(p.gross, PricedQty(line) * line.rate, 1000)
    && (if chargeTax && line.taxMode.Inclusive? && line.taxRate > 0 then Nearest(p.baseExclusive, p.gross * 10000, 10000 + line.taxRate)
        else p.baseExclusive == p.gross)
  }

  /** The tax on what is left after discounts; an inclusive line's price shrinks in proportion with it. */
  ghost predicate TaxFits(line: LineInput, chargeTax: bool, p: PricedLine) {
    if !chargeTax || line.taxRate == 0 || p.baseExclusive == 0 then p.tax == 0
    else if line.taxMode.Exclusive? then Nearest(p.tax, p.taxable * line.taxRate, 10000)
    else Nearest(p.taxable + p.tax, p.gross * p.taxable, p.baseExclusive)
  }

  ghost predicate KindsFit(interState: bool, p: PricedLine) {
    && p.gst.cgst + p.gst.sgst + p.gst.igst == p.tax
    && (if interState then p.gst.cgst == 0 == p.gst.sgst else p.gst.igst == 0 && p.gst.cgst <= p.gst.sgst <= p.gst.cgst + 1)
  }

  /** A discount asks for its percentage of the base, to the nearest paisa, or for its amount; one below zero for nothing. */
  ghost predicate AsksFor(discount: Discount, base: nat, asked: int) {
    if discount.value <= 0 then asked == 0
    else match discount.kind
      case Percentage => Nearest(asked, base * discount.value, 10000)
      case Fixed => asked == discount.value
  }

  /** Discounts of one base: what each asks for when all together stay within it, and else cut to it, each fairly. */
  ghost predicate TakeOff(discounts: seq<Discount>, base: int, asked: seq<nat>, amounts: seq<int>) {
    && base >= 0 && |asked| == |discounts| && (forall i :: 0 <= i < |discounts| ==> AsksFor(discounts[i], base, asked[i]))
    && (base == 0 ==> amounts == [])
    && (base > 0 && Sum(asked) <= base ==> amounts == asked)
    && (base > 0 && Sum(asked) > base ==>
          && |amounts| == |asked| && Sum(amounts) == base
          && forall i :: 0 <= i < |asked| ==> FairCut(amounts[i], asked[i], base, Sum(asked)))
  }

  ghost predicate LineFits(line: LineInput, chargeTax: bool, interState: bool, p: PricedLine) {
    && BaseFits(line, chargeTax, p)
    && (exists asked: seq<nat>, amounts: seq<int> ::
          TakeOff(line.discounts, p.baseExclusive, asked, amounts) && p.itemDiscount == Sum(amounts) == Min(p.baseExclusive, Sum(asked)))
    && p.taxable == Max(0, p.baseExclusive - p.itemDiscount - p.orderDiscount)
    && TaxFits(line, chargeTax, p) && KindsFit(interState, p)
  }

  lemma AmountsAsked(discounts: seq<Discount>, base: nat)
    ensures TakeOff(discounts, base, RawAmounts(discounts, base), DiscountAmounts(discounts, base))
    ensures Sum(DiscountAmounts(discounts, base)) == Min(base, Sum(RawAmounts(discounts, base)))
  {
    hide Sum, Corrected;
    var raw := RawAmounts(discounts, base);
    forall i | 0 <= i < |discounts| ensures AsksFor(discounts[i], base, raw[i]) { Asked(discounts[i], base); }
    if base > 0 {
      DiscountsWithinBase(discounts, base);
      if Sum(raw) > base { CorrectedToBase(raw, base); }
    } else {
      NothingAsked(discounts);
    }
  }

  lemma Asked(discount: Discount, base: nat)
    ensures AsksFor(discount, base, RawAmount(discount, base))
  {
    if discount.value <= 0 { RoundDivWhole(0, 10000); }
  }

  lemma NothingAsked(discounts: seq<Discount>)
    ensures Sum(DiscountAmounts(discounts, 0)) == 0 <= Sum(RawAmounts(discounts, 0))
  {
    SumNonNegative(RawAmounts(discounts, 0));
  }

  lemma PricedBase(line: LineInput, chargeTax: bool, orderDiscount: int, interState: bool)
    ensures BaseFits(line, chargeTax, Priced(Charged(line, chargeTax), orderDiscount, interState))
  {
    hide ItemDiscount, LineTax, SplitGst;
  }

  lemma PricedTax(line: LineInput, chargeTax: bool, orderDiscount: nat, interState: bool)
    ensures TaxFits(line, chargeTax, Priced(Charged(line, chargeTax), orderDiscount, interState))
  {
    hide ItemDiscount, SplitGst, Gross;
    var charged := Charged(line, chargeTax);
    var p := Priced(charged, orderDiscount, interState);
    ItemDiscountWithinBase(charged);
    RoundDivWhole(0, 10000);
    if p.baseExclusive > 0 && charged.taxMode.Inclusive? && charged.taxRate > 0 {
      AtLeastTaxable(p.gross, p.baseExclusive, p.taxable);
    }
  }

  /** A line's price never shrinks below its taxable value. */
  lemma AtLeastTaxable(gross: nat, base: nat, taxable: nat)
    requires 0 < base <= gross
    ensures RoundDiv(gross * taxable, base) >= taxable
  {
    MulMonotone(taxable, base, gross);
    RoundDivMonotone(base * taxable, gross * taxable, base);
    RoundDivWhole(taxable, base);
  }

  lemma PricedFits(line: LineInput, chargeTax: bool, orderDiscount: nat, interState: bool)
    ensures LineFits(line, chargeTax, interState, Priced(Charged(line, chargeTax), orderDiscount, interState))
  {
    hide BaseFits, TaxFits, TakeOff, Sum, LineTax, Base, Gross;
    var charged := Charged(line, chargeTax);
    PricedBase(line, chargeTax, orderDiscount, interState);
    PricedTax(line, chargeTax, orderDiscount, interState);
    AmountsAsked(line.discounts, Base(charged));
  }

  /** With its order discount given, these are the only figures that fit a line. */
  lemma OnlyOneFits(line: LineInput, chargeTax: bool, interState: bool, p: PricedLine, q: PricedLine)
    requires LineFits(line, chargeTax, interState, p) && LineFits(line, chargeTax, interState, q)
    requires p.orderDiscount == q.orderDiscount
    ensures p == q
  {
    hide TakeOff, Sum, Nearest, PricedQty;
    OneNearest(PricedQty(line) * line.rate, 1000, p.gross, q.gross);
    OneNearest(p.gross * 10000, 10000 + line.taxRate, p.baseExclusive, q.baseExclusive);
    var asked: seq<nat>, amounts: seq<int> :|
      TakeOff(line.discounts, p.baseExclusive, asked, amounts) && p.itemDiscount == Sum(amounts) == Min(p.baseExclusive, Sum(asked));
    var asked': seq<nat>, amounts': seq<int> :|
      TakeOff(line.discounts, q.baseExclusive, asked', amounts') && q.itemDiscount == Sum(amounts') == Min(q.baseExclusive, Sum(asked'));
    OneAsked(line.discounts, p.baseExclusive, asked, amounts, asked', amounts');
    if p.baseExclusive > 0 { OneNearest(p.gross * p.taxable, p.baseExclusive, p.taxable + p.tax, q.taxable + q.tax); }
    OneNearest(p.taxable * line.taxRate, 10000, p.tax, q.tax);
  }

  lemma OneNearest(n: int, d: nat, a: int, b: int)
    requires d > 0
    ensures Nearest(a, n, d) && Nearest(b, n, d) ==> a == b
  {
    StrictlyBelow(d, a, b);
    StrictlyBelow(d, b, a);
  }

  lemma OneAsked(discounts: seq<Discount>, base: nat, asked: seq<nat>, amounts: seq<int>, asked': seq<nat>, amounts': seq<int>)
    requires TakeOff(discounts, base, asked, amounts) && TakeOff(discounts, base, asked', amounts')
    ensures asked == asked'
  {
    hide FairCut, Sum;
    forall i | 0 <= i < |discounts| ensures asked[i] == asked'[i] {
      assert AsksFor(discounts[i], base, asked[i]) && AsksFor(discounts[i], base, asked'[i]);
      if discounts[i].value > 0 { OneNearest(base * discounts[i].value, 10000, asked[i], asked'[i]); }
    }
  }

  // ----- The order's discounts over the lines

  /** Each order discount is given out whole, over the lines' values after their own discounts. */
  ghost predicate OrderFits(sale: Totals, orderDiscounts: seq<Discount>) {
    var left := LeftOver(sale.lines);
    && (exists asked: seq<nat> :: TakeOff(orderDiscounts, Sum(left), asked, sale.orderDiscounts))
    && Sum(OrderParts(sale.lines)) == Sum(sale.orderDiscounts)
    && (Sum(left) > 0 ==> forall i :: 0 <= i < |sale.lines| ==>
          NearShare(sale.lines[i].orderDiscount, left[i], Sum(sale.orderDiscounts), Sum(left), |sale.orderDiscounts|))
    && (Sum(left) == 0 ==> forall i :: 0 <= i < |sale.lines| ==> sale.lines[i].orderDiscount == 0)
  }

  /** Less than a paisa for each discount away from the share of all of them. */
  ghost predicate NearShare(part: int, base: int, all: int, total: int, count: nat) {
    Abs(part * total - base * all) <= (total - 1) * count
  }

  /** A line's value before tax, its own discounts taken off. */
  function LeftOver(lines: seq<PricedLine>): (r: seq<int>) ensures |r| == |lines| {
    seq(|lines|, i requires 0 <= i < |lines| => lines[i].baseExclusive - lines[i].itemDiscount)
  }

  function OrderParts(lines: seq<PricedLine>): (r: seq<int>) ensures |r| == |lines| {
    seq(|lines|, i requires 0 <= i < |lines| => lines[i].orderDiscount)
  }

  lemma {:induction false} SumsBetween(parts: seq<int>, amounts: seq<int>, base: nat, total: nat)
    requires |parts| == |amounts| && total > 0
    requires forall p :: 0 <= p < |parts| ==> Abs(parts[p] * total - base * amounts[p]) <= total - 1
    ensures Abs(Sum(parts) * total - base * Sum(amounts)) <= (total - 1) * |parts|
  {
    if parts != [] {
      var n := |parts| - 1;
      SumsBetween(parts[..n], amounts[..n], base, total);
      BetweenOneMore(Sum(parts[..n]), parts[n], Sum(amounts[..n]), amounts[n], base, total, n);
    }
  }

  lemma BetweenOneMore(parts: int, part: int, amounts: int, amount: int, base: nat, total: nat, n: nat)
    requires total > 0 && Abs(parts * total - base * amounts) <= (total - 1) * n && Abs(part * total - base * amount) <= total - 1
    ensures Abs((parts + part) * total - base * (amounts + amount)) <= (total - 1) * (n + 1)
  {
    assert (parts + part) * total == parts * total + part * total;
    assert base * (amounts + amount) == base * amounts + base * amount;
    assert (total - 1) * (n + 1) == (total - 1) * n + total - 1;
  }

  /** Each discount within the value it is of, and each part of it fair. */
  lemma PartsNear(bases: seq<nat>, amounts: seq<int>, i: nat)
    requires i < |bases| && Sum(bases) > 0
    requires forall p :: 0 <= p < |amounts| ==> 0 <= amounts[p] <= Sum(bases)
    ensures NearShare(Sum(Parts(bases, amounts, i)), bases[i], Sum(amounts), Sum(bases), |amounts|)
  {
    hide Allocation, Sum;
    var parts := Parts(bases, amounts, i);
    forall p | 0 <= p < |amounts| ensures Abs(parts[p] * Sum(bases) - bases[i] * amounts[p]) <= Sum(bases) - 1 {
      AllocationFair(bases, amounts[p], i);
    }
    SumsBetween(parts, amounts, bases[i], Sum(bases));
  }

  /** What the lines are given of the discounts, all together. */
  function Given(bases: seq<nat>, amounts: seq<int>): (r: seq<int>) ensures |r| == |bases| {
    seq(|bases|, i requires 0 <= i < |bases| => Sum(Parts(bases, amounts, i)))
  }

  /** All of every discount is given out. */
  lemma {:induction false} AllGiven(bases: seq<nat>, amounts: seq<int>)
    requires forall p :: 0 <= p < |amounts| ==> 0 <= amounts[p] <= Sum(bases)
    ensures Sum(Given(bases, amounts)) == Sum(amounts)
  {
    hide Allocation, Sum;
    if amounts == [] {
      NoneGiven(bases);
    } else {
      var n := |amounts| - 1;
      AllGiven(bases, amounts[..n]);
      OneMoreGiven(bases, amounts);
      AllocationSum(bases, amounts[n]);
      AddedUp(Given(bases, amounts[..n]), Allocation(bases, amounts[n]), Given(bases, amounts));
      SumPrefix(amounts, n);
      assert amounts[..|amounts|] == amounts;
    }
  }

  lemma NoneGiven(bases: seq<nat>)
    ensures Sum(Given(bases, [])) == Sum([])
  {
    forall i | 0 <= i < |bases| ensures Given(bases, [])[i] == 0 { assert Parts(bases, [], i) == []; }
    SumConstant(Given(bases, []), 0);
  }

  lemma OneMoreGiven(bases: seq<nat>, amounts: seq<int>)
    requires amounts != []
    ensures var n := |amounts| - 1;
            forall i :: 0 <= i < |bases| ==> Given(bases, amounts)[i] == Given(bases, amounts[..n])[i] + Allocation(bases, amounts[n])[i]
  {
    hide Allocation;
    var n := |amounts| - 1;
    forall i | 0 <= i < |bases| ensures Given(bases, amounts)[i] == Given(bases, amounts[..n])[i] + Allocation(bases, amounts[n])[i] {
      assert Parts(bases, amounts, i)[..n] == Parts(bases, amounts[..n], i);
    }
  }

  lemma {:induction false} AddedUp(a: seq<int>, b: seq<int>, c: seq<int>)
    requires |a| == |b| == |c| && forall i :: 0 <= i < |a| ==> c[i] == a[i] + b[i]
    ensures Sum(c) == Sum(a) + Sum(b)
  {
    if a != [] {
      var n := |a| - 1;
      AddedUp(a[..n], b[..n], c[..n]);
    }
  }

  // ----- The sale

  /** The bill's totals are its lines', one by one, and its total is rounded as asked. */
  ghost predicate TotalsFit(sale: Totals, roundOff: RoundOffMode) {
    && sale.subTotal == Total(sale.lines, (line: PricedLine) => line.baseExclusive as int)
    && sale.discountTotal == Total(sale.lines, (line: PricedLine) => line.itemDiscount + line.orderDiscount)
    && sale.orderDiscountTotal == Total(sale.lines, (line: PricedLine) => line.orderDiscount)
    && sale.taxTotal == Total(sale.lines, (line: PricedLine) => line.tax as int)
    && sale.cgstTotal == Total(sale.lines, (line: PricedLine) => line.gst.cgst as int)
    && sale.sgstTotal == Total(sale.lines, (line: PricedLine) => line.gst.sgst as int)
    && sale.igstTotal == Total(sale.lines, (line: PricedLine) => line.gst.igst as int)
    && sale.netTotal == Total(sale.lines, (line: PricedLine) => line.taxable + line.tax)
    && sale.grandTotal == sale.netTotal + sale.roundOff
    && (if roundOff.NoRounding? || sale.netTotal <= 0 then sale.roundOff == 0
        else sale.grandTotal % Step(roundOff) == 0 && -Step(roundOff) < 2 * sale.roundOff <= Step(roundOff))
  }

  function Step(roundOff: RoundOffMode): (r: int) ensures r > 0 { if roundOff.NearestHalfRupee? then 50 else 100 }

  /**
   * Every line's figures are the only ones that fit its quantity, rate, tax and discounts; the order's discounts are
   * given out whole, each line's within less than a paisa for each of them of its share; and the totals are the lines'.
   */
  lemma FiguresFit(
    lines: seq<LineInput>, orderDiscounts: seq<Discount>, chargeTax: bool, interState: bool, roundOff: RoundOffMode)
    ensures var sale := ComputeSaleTotals(lines, orderDiscounts, chargeTax, interState, roundOff);
            && (forall i :: 0 <= i < |lines| ==> LineFits(lines[i], chargeTax, interState, sale.lines[i]))
            && OrderFits(sale, orderDiscounts) && TotalsFit(sale, roundOff)
  {
    hide LineFits, OrderFits, TotalsFit, Sum, DiscountAmounts, Priced, Bases, RoundOffFor, Total;
    var charged := ChargedLines(lines, chargeTax);
    var amounts := DiscountAmounts(orderDiscounts, Sum(Bases(charged)));
    var sale := ComputeSaleTotals(lines, orderDiscounts, chargeTax, interState, roundOff);
    forall i | 0 <= i < |lines| ensures LineFits(lines[i], chargeTax, interState, sale.lines[i]) {
      OrderDiscountBound(Bases(charged), orderDiscounts, i);
      PricedFits(lines[i], chargeTax, Sum(Parts(Bases(charged), amounts, i)), interState);
    }
    OrderGiven(charged, orderDiscounts, interState, sale);
    SaleAddsUp(lines, orderDiscounts, chargeTax, interState, roundOff);
  }

  lemma OrderGiven(charged: seq<LineInput>, orderDiscounts: seq<Discount>, interState: bool, sale: Totals)
    requires sale.orderDiscounts == DiscountAmounts(orderDiscounts, Sum(Bases(charged)))
    requires sale.lines == PricedLines(charged, sale.orderDiscounts, interState)
    ensures OrderFits(sale, orderDiscounts)
  {
    hide Sum, DiscountAmounts, TakeOff, LineTax, Gross, Base, ItemDiscount, NearShare, Allocation;
    var bases, amounts := Bases(charged), sale.orderDiscounts;
    forall i | 0 <= i < |charged| ensures LeftOver(sale.lines)[i] == bases[i] { ItemDiscountWithinBase(charged[i]); }
    assert LeftOver(sale.lines) == bases;
    SumNonNegative(bases);
    AmountsAsked(orderDiscounts, Sum(bases));
    AmountsWithin(orderDiscounts, Sum(bases));
    assert OrderParts(sale.lines) == Given(bases, amounts);
    AllGiven(bases, amounts);
    forall i | 0 <= i < |bases| && Sum(bases) > 0 ensures NearShare(sale.lines[i].orderDiscount, bases[i], Sum(amounts), Sum(bases), |amounts|) {
      PartsNear(bases, amounts, i);
    }
    forall i | 0 <= i < |bases| && Sum(bases) == 0 ensures sale.lines[i].orderDiscount == 0 {
      OrderDiscountBound(bases, orderDiscounts, i);
    }
  }

  lemma AmountsWithin(discounts: seq<Discount>, base: nat)
    ensures forall p :: 0 <= p < |DiscountAmounts(discounts, base)| ==> 0 <= DiscountAmounts(discounts, base)[p] <= base
  {
    hide Sum;
    if base > 0 {
      DiscountsWithinBase(discounts, base);
      SumNonNegative(DiscountAmounts(discounts, base));
    }
  }

  lemma SaleAddsUp(
    lines: seq<LineInput>, orderDiscounts: seq<Discount>, chargeTax: bool, interState: bool, roundOff: RoundOffMode)
    ensures TotalsFit(ComputeSaleTotals(lines, orderDiscounts, chargeTax, interState, roundOff), roundOff)
  {
    hide Sum, DiscountAmounts, PricedLines, Bases, RoundOffFor, ChargedLines, Total;
    var priced := ComputeSaleTotals(lines, orderDiscounts, chargeTax, interState, roundOff).lines;
    SameTotal(priced, OF_BASE, (line: PricedLine) => line.baseExclusive as int);
    SameTotal(priced, OF_DISCOUNT, (line: PricedLine) => line.itemDiscount + line.orderDiscount);
    SameTotal(priced, OF_ORDER_DISCOUNT, (line: PricedLine) => line.orderDiscount);
    SameTotal(priced, OF_TAX, (line: PricedLine) => line.tax as int);
    SameTotal(priced, OF_CGST, (line: PricedLine) => line.gst.cgst as int);
    SameTotal(priced, OF_SGST, (line: PricedLine) => line.gst.sgst as int);
    SameTotal(priced, OF_IGST, (line: PricedLine) => line.gst.igst as int);
    SameTotal(priced, OF_NET, (line: PricedLine) => line.taxable + line.tax);
  }

  lemma {:induction false} SameTotal(lines: seq<PricedLine>, f: PricedLine -> int, g: PricedLine -> int)
    requires forall line: PricedLine :: f(line) == g(line)
    ensures Total(lines, f) == Total(lines, g)
  {
    if lines != [] {
      SameTotal(lines[..|lines| - 1], f, g);
      TotalStep(lines, f);
      TotalStep(lines, g);
    }
  }
}
