/**
 * The whole sale (packages/contracts/src/pricing.ts): each line's base, discounts, taxable amount
 * and GST, and the bill's totals. Quantities are in thousandths, tax rates in hundredths of a
 * percent, money in paise.
 */
module SaleTotals {
  import opened Discounts
  import opened Ordering
  import opened Rounding
  import opened Sums

  datatype TaxMode = Inclusive | Exclusive
  datatype RoundOffMode = NoRounding | NearestRupee | NearestHalfRupee
  datatype Quantity = InBaseUnits | InSaleUnits(qty: nat)

  datatype LineInput = LineInput(
    qty: nat, saleUom: Quantity, rate: nat, taxRate: nat, taxMode: TaxMode, discounts: seq<Discount>)

  datatype Gst = Gst(cgst: nat, sgst: nat, igst: nat)

  datatype PricedLine = PricedLine(
    gross: nat, baseExclusive: nat, itemDiscount: int, orderDiscount: int, taxable: nat, tax: nat, gst: Gst)
  {
    function DiscountAmount(): int { itemDiscount + orderDiscount }
    function Net(): int { taxable + tax }
  }

  datatype Totals = Totals(
    lines: seq<PricedLine>, orderDiscounts: seq<int>, subTotal: int, discountTotal: int, orderDiscountTotal: int,
    taxTotal: int, cgstTotal: int, sgstTotal: int, igstTotal: int, netTotal: int, roundOff: int, grandTotal: int)

  // ----- One line

  /** The amount before tax in a gross line amount. */
  function ExclusiveBase(gross: nat, taxMode: TaxMode, taxRate: nat): (base: nat)
    ensures base <= gross
  {
    if taxMode.Inclusive? && taxRate > 0 then
      RoundDivAtMost(gross, 10000, 10000 + taxRate);
      RoundDiv(gross * 10000, 10000 + taxRate)
    else gross
  }

  function LineTax(gross: nat, baseExclusive: nat, taxable: nat, taxMode: TaxMode, taxRate: nat): (tax: nat) {
    if taxMode.Inclusive? && taxRate > 0 then
      if baseExclusive > 0 then Max(0, RoundDiv(gross * taxable, baseExclusive) - taxable) else 0
    else RoundDiv(taxable * taxRate, 10000)
  }

  /** Inter-state tax is all IGST; within a state CGST is the half rounded down and SGST the rest. */
  function SplitGst(tax: nat, interState: bool): (gst: Gst)
    ensures gst.cgst + gst.sgst + gst.igst == tax
    ensures if interState then gst.igst == tax else gst.igst == 0 && gst.cgst <= gst.sgst <= gst.cgst + 1
  {
    if interState then Gst(0, 0, tax) else Gst(tax / 2, tax - tax / 2, 0)
  }

  function Gross(line: LineInput): (gross: nat) {
    RoundDiv((if line.saleUom.InSaleUnits? then line.saleUom.qty else line.qty) * line.rate, 1000)
  }

  function Charged(line: LineInput, chargeTax: bool): (r: LineInput) {
    if chargeTax then line else line.(taxRate := 0, taxMode := Exclusive)
  }

  function ChargedLines(lines: seq<LineInput>, chargeTax: bool): (r: seq<LineInput>)
    ensures |r| == |lines|
  {
    seq(|lines|, i requires 0 <= i < |lines| => Charged(lines[i], chargeTax))
  }

  function Base(line: LineInput): (base: nat) {
    ExclusiveBase(Gross(line), line.taxMode, line.taxRate)
  }

  function ItemDiscount(line: LineInput): (discount: int) {
    Sum(DiscountAmounts(line.discounts, Base(line)))
  }

  lemma ItemDiscountWithinBase(line: LineInput)
    ensures 0 <= ItemDiscount(line) <= Base(line)
  {
    if Base(line) > 0 {
      DiscountsWithinBase(line.discounts, Base(line));
      SumNonNegative(RawAmounts(line.discounts, Base(line)));
    }
  }

  function BaseAfterItem(line: LineInput): (base: nat) {
    Max(0, Base(line) - ItemDiscount(line))
  }

  function Priced(line: LineInput, orderDiscount: int, interState: bool): (priced: PricedLine) {
    var base, itemDiscount := Base(line), ItemDiscount(line);
    var taxable := Max(0, base - (itemDiscount + orderDiscount));
    var tax := LineTax(Gross(line), base, taxable, line.taxMode, line.taxRate);
    PricedLine(Gross(line), base, itemDiscount, orderDiscount, taxable, tax, SplitGst(tax, interState))
  }

  // ----- The sale

  function Bases(lines: seq<LineInput>): (r: seq<nat>)
    ensures |r| == |lines|
  {
    seq(|lines|, i requires 0 <= i < |lines| => BaseAfterItem(lines[i]))
  }

  /** Line i's part of each order discount; every discount is split on its own. */
  function Parts(bases: seq<nat>, amounts: seq<int>, i: nat): (r: seq<int>)
    requires i < |bases|
    ensures |r| == |amounts|
  {
    seq(|amounts|, p requires 0 <= p < |amounts| => Allocation(bases, amounts[p])[i])
  }

  function PricedLines(lines: seq<LineInput>, amounts: seq<int>, interState: bool): (r: seq<PricedLine>)
    ensures |r| == |lines|
  {
    seq(|lines|, i requires 0 <= i < |lines| => Priced(lines[i], Sum(Parts(Bases(lines), amounts, i)), interState))
  }

  function Total(lines: seq<PricedLine>, of: PricedLine -> int): (r: int) {
    Sum(seq(|lines|, i requires 0 <= i < |lines| => of(lines[i])))
  }

  /** Added to a total, it makes the nearest whole step, the higher of two as near. */
  function RoundOffFor(total: int, mode: RoundOffMode): (r: int)
    ensures -50 < r <= 50
    ensures mode.NoRounding? || total <= 0 ==> r == 0
    ensures total > 0 ==> total + r >= 0
    ensures total > 0 && mode.NearestRupee? ==> (total + r) % 100 == 0
    ensures total > 0 && mode.NearestHalfRupee? ==> (total + r) % 50 == 0 && -25 < r <= 25
  {
    if mode.NoRounding? || total <= 0 then 0
    else if mode.NearestRupee? then RoundDiv(total, 100) * 100 - total
    else RoundDiv(total, 50) * 50 - total
  }

  const OF_BASE := (line: PricedLine) => line.baseExclusive as int
  const OF_DISCOUNT := (line: PricedLine) => line.DiscountAmount()
  const OF_ORDER_DISCOUNT := (line: PricedLine) => line.orderDiscount
  const OF_TAXABLE := (line: PricedLine) => line.taxable as int
  const OF_TAX := (line: PricedLine) => line.tax as int
  const OF_CGST := (line: PricedLine) => line.gst.cgst as int
  const OF_SGST := (line: PricedLine) => line.gst.sgst as int
  const OF_IGST := (line: PricedLine) => line.gst.igst as int
  const OF_NET := (line: PricedLine) => line.Net()

  function ComputeSaleTotals(
    lines: seq<LineInput>, orderDiscounts: seq<Discount>, chargeTax: bool, interState: bool, roundOff: RoundOffMode): (r: Totals)
    ensures |r.lines| == |lines|
  {
    var charged := ChargedLines(lines, chargeTax);
    var amounts := DiscountAmounts(orderDiscounts, Sum(Bases(charged)));
    var priced := PricedLines(charged, amounts, interState);
    var net := Total(priced, OF_NET);
    Totals(priced, amounts, Total(priced, OF_BASE), Total(priced, OF_DISCOUNT), Total(priced, OF_ORDER_DISCOUNT),
      Total(priced, OF_TAX), Total(priced, OF_CGST), Total(priced, OF_SGST), Total(priced, OF_IGST),
      net, RoundOffFor(net, roundOff), net + RoundOffFor(net, roundOff))
  }

  lemma {:induction false} TotalsAdd(lines: seq<PricedLine>)
    requires forall i :: 0 <= i < |lines| ==> lines[i].gst.cgst + lines[i].gst.sgst + lines[i].gst.igst == lines[i].tax
    ensures Total(lines, OF_NET) == Total(lines, OF_TAXABLE) + Total(lines, OF_TAX)
    ensures Total(lines, OF_TAX) == Total(lines, OF_CGST) + Total(lines, OF_SGST) + Total(lines, OF_IGST)
  {
    if lines != [] {
      TotalsAdd(lines[..|lines| - 1]);
      TotalStep(lines, OF_NET);
      TotalStep(lines, OF_TAXABLE);
      TotalStep(lines, OF_TAX);
      TotalStep(lines, OF_CGST);
      TotalStep(lines, OF_SGST);
      TotalStep(lines, OF_IGST);
    }
  }

  lemma TotalStep(lines: seq<PricedLine>, of: PricedLine -> int)
    requires lines != []
    ensures Total(lines, of) == Total(lines[..|lines| - 1], of) + of(lines[|lines| - 1])
  {
    var n := |lines| - 1;
    var all := seq(|lines|, i requires 0 <= i < |lines| => of(lines[i]));
    assert all[..n] == seq(n, i requires 0 <= i < n => of(lines[..n][i]));
  }

  /** The bill's total is its lines' taxable values and taxes, plus the round-off. */
  lemma GrandTotalAddsUp(
    lines: seq<LineInput>, orderDiscounts: seq<Discount>, chargeTax: bool, interState: bool, roundOff: RoundOffMode)
    ensures var sale := ComputeSaleTotals(lines, orderDiscounts, chargeTax, interState, roundOff);
            && sale.grandTotal == Total(sale.lines, OF_TAXABLE) + sale.cgstTotal + sale.sgstTotal + sale.igstTotal + sale.roundOff
            && sale.taxTotal == sale.cgstTotal + sale.sgstTotal + sale.igstTotal
            && (interState ==> sale.cgstTotal == 0 == sale.sgstTotal)
            && (!interState ==> sale.igstTotal == 0)
  {
    hide Total, PricedLines, DiscountAmounts, Bases, ChargedLines, RoundOffFor, Sum;
    var sale := ComputeSaleTotals(lines, orderDiscounts, chargeTax, interState, roundOff);
    PricedGst(ChargedLines(lines, chargeTax), sale.orderDiscounts, interState);
    TotalsAdd(sale.lines);
    if interState {
      TotalZero(sale.lines, OF_CGST);
      TotalZero(sale.lines, OF_SGST);
    } else {
      TotalZero(sale.lines, OF_IGST);
    }
  }

  lemma PricedGst(lines: seq<LineInput>, amounts: seq<int>, interState: bool)
    ensures var priced := PricedLines(lines, amounts, interState);
            forall i :: 0 <= i < |priced| ==>
              && priced[i].gst.cgst + priced[i].gst.sgst + priced[i].gst.igst == priced[i].tax
              && (if interState then priced[i].gst.cgst == 0 == priced[i].gst.sgst else priced[i].gst.igst == 0)
  {
    hide Sum, Parts, Bases, LineTax, Base, ItemDiscount, Gross;
  }

  lemma TotalZero(lines: seq<PricedLine>, of: PricedLine -> int)
    requires forall i :: 0 <= i < |lines| ==> of(lines[i]) == 0
    ensures Total(lines, of) == 0
  {
    SumConstant(seq(|lines|, i requires 0 <= i < |lines| => of(lines[i])), 0);
  }

  // ----- Discounts against the sale's value

  lemma PartBound(bases: seq<nat>, amount: nat, i: nat)
    requires i < |bases| && Sum(bases) > 0
    ensures 0 <= Allocation(bases, amount)[i]
    ensures Allocation(bases, amount)[i] * Sum(bases) <= bases[i] * amount + Sum(bases) - 1
  {
    AllocationFair(bases, amount, i);
    MulMonotone(bases[i], CappedDiscount(bases, amount), amount);
  }

  lemma BoundsAddOne(parts: int, part: int, amounts: int, amount: int, base: nat, total: nat, n: nat)
    requires parts * total <= base * amounts + (total - 1) * n
    requires part * total <= base * amount + total - 1
    ensures (parts + part) * total <= base * (amounts + amount) + (total - 1) * (n + 1)
  {
    assert (parts + part) * total == parts * total + part * total;
    assert base * (amounts + amount) == base * amounts + base * amount;
    assert (total - 1) * (n + 1) == (total - 1) * n + total - 1;
  }

  lemma {:induction false} BoundsAdd(parts: seq<int>, amounts: seq<int>, base: nat, total: nat)
    requires |parts| == |amounts|
    requires forall p :: 0 <= p < |parts| ==> 0 <= parts[p] && parts[p] * total <= base * amounts[p] + total - 1
    ensures 0 <= Sum(parts)
    ensures Sum(parts) * total <= base * Sum(amounts) + (total - 1) * |parts|
  {
    if parts != [] {
      var n := |parts| - 1;
      BoundsAdd(parts[..n], amounts[..n], base, total);
      BoundsAddOne(Sum(parts[..n]), parts[n], Sum(amounts[..n]), amounts[n], base, total, n);
    }
  }

  lemma PartsBound(bases: seq<nat>, amounts: seq<int>, i: nat)
    requires i < |bases| && Sum(bases) > 0
    requires forall p :: 0 <= p < |amounts| ==> amounts[p] >= 0
    ensures 0 <= Sum(Parts(bases, amounts, i))
    ensures Sum(Parts(bases, amounts, i)) * Sum(bases) <= bases[i] * Sum(amounts) + (Sum(bases) - 1) * |amounts|
  {
    hide Allocation;
    var parts := Parts(bases, amounts, i);
    forall p | 0 <= p < |amounts|
      ensures 0 <= parts[p] && parts[p] * Sum(bases) <= bases[i] * amounts[p] + Sum(bases) - 1
    {
      PartBound(bases, amounts[p], i);
    }
    BoundsAdd(parts, amounts, bases[i], Sum(bases));
  }

  /** P order discounts, each split on its own, take at most P - 1 paise more than its base off a line. */
  lemma OrderDiscountBound(bases: seq<nat>, discounts: seq<Discount>, i: nat)
    requires i < |bases|
    ensures var amounts := DiscountAmounts(discounts, Sum(bases));
            0 <= Sum(Parts(bases, amounts, i)) <= bases[i] + Max(0, |amounts| - 1)
  {
    hide Allocation, DiscountAmounts;
    var amounts := DiscountAmounts(discounts, Sum(bases));
    if amounts != [] {
      DiscountsWithinBase(discounts, Sum(bases));
      PartsBound(bases, amounts, i);
      WithinTotal(Sum(Parts(bases, amounts, i)), Sum(bases), bases[i], Sum(amounts), |amounts|);
    } else {
      assert Parts(bases, amounts, i) == [];
    }
  }

  lemma WithinTotal(parts: int, total: int, base: nat, amounts: int, n: nat)
    requires total > 0 && n > 0 && amounts <= total
    requires parts * total <= base * amounts + (total - 1) * n
    ensures parts <= base + n - 1
  {
    MulMonotone(base, amounts, total);
    assert base * total + (total - 1) * n == total * (base + n) - n;
    StrictlyBelow(total, base + n - 1, parts);
    assert total * (base + n - 1) + total == total * (base + n);
  }

  /** How much more than a line's base its discounts and taxable value come to. */
  function Overshoot(line: PricedLine): (r: int) {
    line.DiscountAmount() + line.taxable - line.baseExclusive
  }

  lemma LineOvershoot(lines: seq<LineInput>, discounts: seq<Discount>, interState: bool, i: nat)
    requires i < |lines|
    ensures var amounts := DiscountAmounts(discounts, Sum(Bases(lines)));
            0 <= Overshoot(PricedLines(lines, amounts, interState)[i]) <= Max(0, |amounts| - 1)
  {
    ItemDiscountWithinBase(lines[i]);
    OrderDiscountBound(Bases(lines), discounts, i);
  }

  lemma {:induction false} OvershootTotal(lines: seq<PricedLine>, most: nat)
    requires OvershootAtMost(lines, most)
    ensures 0 <= Total(lines, OF_DISCOUNT) + Total(lines, OF_TAXABLE) - Total(lines, OF_BASE) <= most * |lines|
    ensures Total(lines, OF_DISCOUNT) + Total(lines, OF_TAXABLE) == Total(lines, OF_BASE)
       <==> forall i :: 0 <= i < |lines| ==> Overshoot(lines[i]) == 0
  {
    if lines != [] {
      var n := |lines| - 1;
      OvershootTotal(lines[..n], most);
      TotalStep(lines, OF_DISCOUNT);
      TotalStep(lines, OF_TAXABLE);
      TotalStep(lines, OF_BASE);
      assert most * |lines| == most * n + most;
      assert forall i :: 0 <= i < n ==> lines[..n][i] == lines[i];
      assert lines[n] == lines[|lines| - 1];
    }
  }

  ghost predicate OvershootAtMost(lines: seq<PricedLine>, most: int) {
    forall i :: 0 <= i < |lines| ==> 0 <= Overshoot(lines[i]) <= most
  }

  lemma PricedOvershoot(lines: seq<LineInput>, discounts: seq<Discount>, interState: bool, amounts: seq<int>)
    requires amounts == DiscountAmounts(discounts, Sum(Bases(lines)))
    ensures OvershootAtMost(PricedLines(lines, amounts, interState), Max(0, |amounts| - 1))
  {
    hide DiscountAmounts, Bases, Parts;
    forall i | 0 <= i < |lines|
      ensures 0 <= Overshoot(PricedLines(lines, amounts, interState)[i]) <= Max(0, |amounts| - 1)
    {
      LineOvershoot(lines, discounts, interState, i);
    }
  }

  /**
   * The sale's value is its discounts plus its taxable value, exactly with at most one order
   * discount; with P of them the two come to at most P - 1 paise a line more. They agree exactly
   * when no line was given more discount than its base.
   */
  lemma DiscountsAndTaxableMakeTheSale(
    lines: seq<LineInput>, orderDiscounts: seq<Discount>, chargeTax: bool, interState: bool, roundOff: RoundOffMode)
    ensures var sale := ComputeSaleTotals(lines, orderDiscounts, chargeTax, interState, roundOff);
            var taxable := Total(sale.lines, OF_TAXABLE);
            && 0 <= sale.discountTotal + taxable - sale.subTotal <= Max(0, |sale.orderDiscounts| - 1) * |lines|
            && (|sale.orderDiscounts| <= 1 ==> sale.discountTotal + taxable == sale.subTotal)
            && (sale.discountTotal + taxable == sale.subTotal <==>
                forall i :: 0 <= i < |lines| ==> Overshoot(sale.lines[i]) == 0)
  {
    hide DiscountAmounts, Bases, PricedLines, Total, ChargedLines, OvershootAtMost;
    var charged := ChargedLines(lines, chargeTax);
    var amounts := DiscountAmounts(orderDiscounts, Sum(Bases(charged)));
    PricedOvershoot(charged, orderDiscounts, interState, amounts);
    OvershootTotal(PricedLines(charged, amounts, interState), Max(0, |amounts| - 1));
  }

  /** A line overshoots its base exactly when its discounts are more than it. */
  lemma OvershootsWhen(lines: seq<LineInput>, amounts: seq<int>, interState: bool, i: nat)
    requires i < |lines|
    ensures var line := PricedLines(lines, amounts, interState)[i];
            Overshoot(line) == 0 <==> line.DiscountAmount() <= line.baseExclusive
  {
  }

  lemma SumOfTwo(s: seq<int>)
    requires |s| == 2
    ensures Sum(s) == s[0] + s[1]
  {
    assert Sum(s[..1]) == Sum(s[..1][..0]) + s[0];
  }

  lemma OrderOfTwo(keys: seq<int>)
    requires keys == [101, 101]
    ensures SortDescending(keys, [0, 1]) == [0, 1]
  {
    hide SortDescending;
    var order := SortDescending(keys, [0, 1]);
    SortDescendingSorted(keys, [0, 1]);
    assert order[0] in multiset([0, 1]) && order[1] in multiset([0, 1]);
    assert Before(keys, order[0], order[1]);
  }

  lemma HalfOfTwo(bases: seq<nat>)
    requires bases == [101, 101]
    ensures Sum(bases) == 202 && Allocation(bases, 101) == [51, 50]
  {
    hide SortDescending, Sum;
    SumOfTwo(bases);
    assert Shares(bases, 101, 202) == [50, 50];
    SumOfTwo([50, 50]);
    assert Remainders(bases, 101, 202) == [101, 101];
    assert WithHeadroom(bases, [50, 50], 1) == [0];
    assert WithHeadroom(bases, [50, 50], 2) == [0, 1];
    OrderOfTwo(Remainders(bases, 101, 202));
    assert MoveEach([50, 50], [0], 1) == [51, 50];
  }

  lemma TwoHalves()
    ensures DiscountAmounts([Discount(Percentage, 5000), Discount(Percentage, 5000)], 202) == [101, 101]
  {
    hide Corrected;
    var half := Discount(Percentage, 5000);
    assert RawAmounts([half, half], 202) == [101, 101];
    SumOfTwo([101, 101]);
  }

  lemma PlainBase(line: LineInput)
    requires line == LineInput(1000, InBaseUnits, 101, 0, Exclusive, [])
    ensures Gross(line) == Base(line) == 101 && ItemDiscount(line) == 0
  {
    assert RawAmounts([], 101) == [];
  }

  lemma PartsOfHalves()
    ensures Sum([101, 101]) == 202
    ensures Sum(Parts([101, 101], [101, 101], 0)) == 102
    ensures Sum(Parts([101, 101], [101, 101], 1)) == 100
  {
    hide Allocation, Sum;
    HalfOfTwo([101, 101]);
    assert Parts([101, 101], [101, 101], 0) == [51, 51];
    assert Parts([101, 101], [101, 101], 1) == [50, 50];
    SumOfTwo([51, 51]);
    SumOfTwo([50, 50]);
  }

  lemma PricedHalves(line: LineInput)
    requires line == LineInput(1000, InBaseUnits, 101, 0, Exclusive, [])
    ensures Bases([line, line]) == [101, 101]
    ensures var priced := PricedLines([line, line], [101, 101], false);
            priced[0].orderDiscount == 102 && priced[1].taxable == 1
  {
    hide Parts, Sum, Gross, ItemDiscount, Base;
    PlainBase(line);
    assert Bases([line, line]) == [101, 101];
    PartsOfHalves();
  }

  /**
   * Two order discounts of half the sale each, over two lines of 1.01: each gives its odd paisa
   * to the first line, so that line is discounted by 1.02 and a paisa of the second stays taxable.
   */
  lemma TwoHalvesLeaveAPaisa()
    ensures var line := LineInput(1000, InBaseUnits, 101, 0, Exclusive, []);
            var half := Discount(Percentage, 5000);
            var sale := ComputeSaleTotals([line, line], [half, half], true, false, NoRounding);
            sale.lines[0].orderDiscount == 102 && sale.lines[1].taxable == 1
  {
    hide DiscountAmounts, Sum, Bases, PricedLines, Total;
    var line := LineInput(1000, InBaseUnits, 101, 0, Exclusive, []);
    assert ChargedLines([line, line], true) == [line, line];
    PricedHalves(line);
    PartsOfHalves();
    TwoHalves();
  }

  // ----- Tax-inclusive prices

  lemma SomethingLeft(gross: nat, taxRate: nat)
    requires gross > 0 && taxRate <= 10000
    ensures ExclusiveBase(gross, Inclusive, taxRate) > 0
  {
    RoundDivNonZero(gross * 10000, 10000 + taxRate);
  }

  /** An undiscounted tax-inclusive line costs exactly its shelf price, at every rate of tax there can be: 0 to 100%. */
  lemma ShelfPriceKept(gross: nat, taxRate: nat)
    requires taxRate <= 10000
    ensures var base := ExclusiveBase(gross, Inclusive, taxRate);
            base + LineTax(gross, base, base, Inclusive, taxRate) == gross
  {
    var base := ExclusiveBase(gross, Inclusive, taxRate);
    if gross > 0 {
      SomethingLeft(gross, taxRate);
      assert gross * base == base * gross;
      RoundDivWhole(gross, base);
      RoundDivWhole(0, 10000);
    }
  }
}
