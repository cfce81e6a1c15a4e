/**
 * What the server's check of a bill finds, in terms of the bill alone (apps/api/src/fallback/verify-outbox.ts): each
 * problem exactly when there is that thing wrong with it.
 */
module BillsChecked {
  import opened Discounts
  import opened OutboxRows
  import opened Rounding
  import opened SaleFigures
  import opened SaleTotals
  import opened Sums
  import opened VerifyOutbox
  import opened VerifySoundness

  ghost predicate Within(stored: int, worked: int, paise: nat) { worked - paise <= stored <= worked + paise }

  // ----- What a right bill is

  ghost predicate Possible(entry: InvoiceEntry) {
    entry.lines != [] && forall row :: row in entry.lines ==> row.qty > 0 && row.rate >= 0 && row.taxRate >= 0
  }

  /** A regular taxpayer issues tax invoices, a composition taxpayer bills of supply, anyone else plain invoices. */
  ghost predicate DocumentFits(invoice: InvoiceRow) {
    && (invoice.taxpayerType.Regular? <==> invoice.documentType.TaxInvoice?)
    && (invoice.taxpayerType.Composition? <==> invoice.documentType.BillOfSupply?)
    && (invoice.taxpayerType.Unregistered? <==> invoice.documentType.PlainInvoice?)
  }

  ghost predicate GstinFits(invoice: InvoiceRow) {
    if invoice.taxpayerType.Unregistered? then invoice.sellerGstin == NoGstin else invoice.sellerGstin == ValidGstin
  }

  /** Only a regular taxpayer charges GST. */
  ghost predicate MayCharge(entry: InvoiceEntry) {
    entry.invoice.taxpayerType.Regular? || forall row :: row in entry.lines ==> row.taxRate == 0 && row.tax == 0
  }

  ghost predicate WithinList(entry: InvoiceEntry) {
    forall row :: row in entry.lines && row.listRate.Some? ==> row.rate <= row.listRate.value
  }

  /** A line's figures within five paise of pricing it anew, and within a paisa of each other. */
  ghost predicate LineStored(row: SaleLineRow, p: PricedLine) {
    && Within(row.discount, p.itemDiscount + p.orderDiscount, 5) && Within(row.taxable, p.taxable, 5) && Within(row.tax, p.tax, 5)
    && Within(row.cgst, p.gst.cgst, 5) && Within(row.sgst, p.gst.sgst, 5) && Within(row.igst, p.gst.igst, 5)
    && Within(row.net, p.taxable + p.tax, 5)
    && Within(row.net, row.taxable + row.tax, 1) && Within(row.tax, row.cgst + row.sgst + row.igst, 1)
  }

  function Column(lines: seq<SaleLineRow>, of: SaleLineRow -> int): (r: int) {
    if lines == [] then 0 else Column(lines[..|lines| - 1], of) + of(lines[|lines| - 1])
  }

  /** The bill's totals within a paisa of its lines' and within five of pricing it anew; rounded by at most 50 paise. */
  ghost predicate TotalsStored(invoice: InvoiceRow, lines: seq<SaleLineRow>, sale: Totals) {
    && -50 <= invoice.roundOff <= 50
    && Within(invoice.taxTotal, Column(lines, (row: SaleLineRow) => row.tax), 1) && Within(invoice.taxTotal, sale.taxTotal, 5)
    && Within(invoice.cgstTotal, Column(lines, (row: SaleLineRow) => row.cgst), 1) && Within(invoice.cgstTotal, sale.cgstTotal, 5)
    && Within(invoice.sgstTotal, Column(lines, (row: SaleLineRow) => row.sgst), 1) && Within(invoice.sgstTotal, sale.sgstTotal, 5)
    && Within(invoice.igstTotal, Column(lines, (row: SaleLineRow) => row.igst), 1) && Within(invoice.igstTotal, sale.igstTotal, 5)
    && Within(invoice.grandTotal - invoice.roundOff, Column(lines, (row: SaleLineRow) => row.net), 1)
    && Within(invoice.grandTotal - invoice.roundOff, sale.netTotal, 5)
    && Within(invoice.discountTotal, Column(lines, (row: SaleLineRow) => row.discount), 1) && Within(invoice.discountTotal, sale.discountTotal, 5)
    && Within(invoice.subTotal, sale.subTotal, 5) && Within(invoice.orderDiscount, sale.orderDiscountTotal, 5)
  }

  /** The sale priced anew from what the bill stores of each line and of its discounts, taxed, between the states it names. */
  function Anew(entry: InvoiceEntry): (r: Totals)
    ensures |r.lines| == |entry.lines|
  {
    var invoice := entry.invoice;
    ComputeSaleTotals(Inputs(entry.lines, entry.discounts, entry.allocations), OrderDiscounts(entry.discounts), true,
      invoice.sellerState != "" && invoice.placeOfSupply != "" && invoice.sellerState != invoice.placeOfSupply, NoRounding)
  }

  ghost predicate Stored(entry: InvoiceEntry) {
    var sale := Anew(entry);
    && (forall i :: 0 <= i < |entry.lines| ==> LineStored(entry.lines[i], sale.lines[i]))
    && TotalsStored(entry.invoice, entry.lines, sale)
  }

  /** Its quantity, in the unit priced, at its list price. */
  function ListGross(row: SaleLineRow): (r: int) {
    (match row.saleUom case InBaseUnits => row.qty case InSaleUnits(qty) => qty)
    * (match row.listRate case None => row.rate case Some(rate) => rate)
  }

  /** What a line comes to at its list price, before the tax that price includes when tax is charged. */
  ghost predicate ListFits(row: SaleLineRow, chargeTax: bool, value: int) {
    exists gross: int ::
      && Nearest(gross, ListGross(row), 1000)
      && if chargeTax && row.taxMode.Inclusive? && row.taxRate > 0 then Nearest(value, gross * 10000, 10000 + row.taxRate) else value == gross
  }

  /** What the price changes and discounts take off the list prices is at most the user's percentage of them, and a paisa. */
  ghost predicate DiscountAllowed(entry: InvoiceEntry, percent: Option<int>) {
    percent.Some? ==>
      exists list: seq<int>, most: int ::
        && |list| == |entry.lines| && (forall i :: 0 <= i < |list| ==> ListFits(entry.lines[i], entry.invoice.taxpayerType.Regular?, list[i]))
        && Nearest(most, Sum(list) * percent.value, 10000)
        && (Sum(list) > 0 ==> Sum(list) - Total(Anew(entry).lines, OF_TAXABLE) <= most + 1)
  }

  /** No payment is one only the server can take. */
  ghost predicate PaidHere(entry: InvoiceEntry) {
    forall row :: row in entry.payments ==> row.amount > 0 && row.mode != Wallet
  }

  ghost predicate PaidRight(entry: InvoiceEntry) {
    Within(entry.invoice.paidTotal, PaidBy(entry.payments), 1) && PaidBy(entry.payments) <= entry.invoice.grandTotal
  }

  ghost predicate StatusRight(invoice: InvoiceRow) {
    var towards := invoice.paidTotal + invoice.creditedTotal;
    match invoice.status
    case Settled => towards >= invoice.grandTotal
    case PartiallySettled => 0 < towards < invoice.grandTotal
    case Draft => towards <= 0 && towards < invoice.grandTotal
    case Cancelled => false
  }

  /** Nothing but sales, and of every item as much as was sold. */
  ghost predicate StockRight(entry: InvoiceEntry) {
    && (forall row :: row in entry.ledger ==> row.txnType == SaleTxn && row.qtyIn == 0)
    && forall item: Id :: OutQty(entry.ledger, item) == SoldQty(entry.lines, item)
  }

  ghost predicate RightBill(entry: InvoiceEntry, percent: Option<int>) {
    && Possible(entry) && DocumentFits(entry.invoice) && GstinFits(entry.invoice) && MayCharge(entry) && WithinList(entry)
    && Stored(entry) && DiscountAllowed(entry, percent)
    && PaidHere(entry) && PaidRight(entry) && StatusRight(entry.invoice) && StockRight(entry)
  }

  // ----- The check finds it

  lemma AnewIs(entry: InvoiceEntry)
    ensures Recompute(entry) == Anew(entry)
  {
    hide ComputeSaleTotals;
  }

  lemma {:induction false} ColumnIs(lines: seq<SaleLineRow>, f: SaleLineRow -> int, g: SaleLineRow -> int)
    requires forall row: SaleLineRow :: f(row) == g(row)
    ensures LineSum(lines, f) == Column(lines, g)
  {
    if lines != [] {
      var n := |lines| - 1;
      ColumnIs(lines[..n], f, g);
      var all := seq(|lines|, i requires 0 <= i < |lines| => f(lines[i]));
      assert all[..n] == seq(n, i requires 0 <= i < n => f(lines[..n][i]));
    }
  }

  lemma LinesAgree(row: SaleLineRow, p: PricedLine)
    ensures LineAgrees(row, p) <==> LineStored(row, p)
  {
  }

  lemma TotalsAgree(entry: InvoiceEntry)
    ensures AmountsAgree(entry.invoice, entry.lines, Anew(entry)) <==> Stored(entry)
  {
    hide LineAgrees, LineStored, LineSum, Column, Anew;
    var lines, sale := entry.lines, Anew(entry);
    forall i | 0 <= i < |lines| ensures LineAgrees(lines[i], sale.lines[i]) <==> LineStored(lines[i], sale.lines[i]) {
      LinesAgree(lines[i], sale.lines[i]);
    }
    AnewNet(entry);
    ColumnIs(lines, LINE_TAX, (row: SaleLineRow) => row.tax);
    ColumnIs(lines, LINE_CGST, (row: SaleLineRow) => row.cgst);
    ColumnIs(lines, LINE_SGST, (row: SaleLineRow) => row.sgst);
    ColumnIs(lines, LINE_IGST, (row: SaleLineRow) => row.igst);
    ColumnIs(lines, LINE_NET, (row: SaleLineRow) => row.net);
    ColumnIs(lines, LINE_DISCOUNT, (row: SaleLineRow) => row.discount);
  }

  lemma AnewNet(entry: InvoiceEntry)
    ensures Anew(entry).grandTotal == Anew(entry).netTotal
  {
    hide Total, DiscountAmounts, PricedLines, ChargedLines, Bases, Inputs, OrderDiscounts;
  }

  lemma ListValueIs(row: SaleLineRow, chargeTax: bool)
    requires row.qty > 0
    ensures var gross := RoundDiv(ListGross(row), 1000);
            ListValue(row, chargeTax)
              == if chargeTax && row.taxMode.Inclusive? && row.taxRate > 0 then RoundDiv(gross * 10000, 10000 + row.taxRate) else gross
  {
    hide RoundDiv;
  }

  lemma ListValueFits(row: SaleLineRow, chargeTax: bool)
    requires row.qty > 0
    ensures ListFits(row, chargeTax, ListValue(row, chargeTax))
  {
    hide RoundDiv, ListValue, Nearest;
    var gross := RoundDiv(ListGross(row), 1000);
    ListValueIs(row, chargeTax);
    NearestOf(ListGross(row), 1000);
    if chargeTax && row.taxMode.Inclusive? && row.taxRate > 0 { NearestOf(gross * 10000, 10000 + row.taxRate); }
    assert Nearest(gross, ListGross(row), 1000);
  }

  lemma NearestOf(n: int, d: nat)
    requires d > 0
    ensures Nearest(RoundDiv(n, d), n, d)
  {
  }

  lemma OneListValue(row: SaleLineRow, chargeTax: bool, a: int, b: int)
    requires ListFits(row, chargeTax, a) && ListFits(row, chargeTax, b)
    ensures a == b
  {
    hide Nearest;
    var gross: int :| Nearest(gross, ListGross(row), 1000)
      && if chargeTax && row.taxMode.Inclusive? && row.taxRate > 0 then Nearest(a, gross * 10000, 10000 + row.taxRate) else a == gross;
    var gross': int :| Nearest(gross', ListGross(row), 1000)
      && if chargeTax && row.taxMode.Inclusive? && row.taxRate > 0 then Nearest(b, gross' * 10000, 10000 + row.taxRate) else b == gross';
    OneNearest(ListGross(row), 1000, gross, gross');
    if chargeTax && row.taxMode.Inclusive? && row.taxRate > 0 { OneNearest(gross * 10000, 10000 + row.taxRate, a, b); }
  }

  function ListValues(lines: seq<SaleLineRow>, chargeTax: bool): (r: seq<int>) ensures |r| == |lines| {
    seq(|lines|, i requires 0 <= i < |lines| => ListValue(lines[i], chargeTax))
  }

  lemma DiscountFound(entry: InvoiceEntry, percent: Option<int>)
    requires Possible(entry)
    ensures DiscountsTooHigh(ListTotal(entry.lines, entry.invoice.taxpayerType.Regular?), Total(Recompute(entry).lines, OF_TAXABLE), percent)
       <==> !DiscountAllowed(entry, percent)
  {
    hide Recompute, ListValue, ListFits, Total, Sum, Nearest;
    AnewIs(entry);
    if percent.Some? {
      var chargeTax := entry.invoice.taxpayerType.Regular?;
      var values := ListValues(entry.lines, chargeTax);
      forall i | 0 <= i < |values| ensures ListFits(entry.lines[i], chargeTax, values[i]) { ListValueFits(entry.lines[i], chargeTax); }
      NearestOf(Sum(values) * percent.value, 10000);
      if DiscountAllowed(entry, percent) {
        var list: seq<int>, most: int :| |list| == |entry.lines| && (forall i :: 0 <= i < |list| ==> ListFits(entry.lines[i], chargeTax, list[i]))
          && Nearest(most, Sum(list) * percent.value, 10000)
          && (Sum(list) > 0 ==> Sum(list) - Total(Anew(entry).lines, OF_TAXABLE) <= most + 1);
        forall i | 0 <= i < |list| ensures list[i] == values[i] { OneListValue(entry.lines[i], chargeTax, list[i], values[i]); }
        assert list == values;
        OneNearest(Sum(list) * percent.value, 10000, most, RoundDiv(Sum(values) * percent.value, 10000));
      }
    }
  }

  lemma HeadFound(entry: InvoiceEntry)
    ensures var found := HeadProblems(entry.invoice, entry.lines);
            && (WrongDocumentType in found <==> !DocumentFits(entry.invoice))
            && (WrongGstin in found <==> !GstinFits(entry.invoice))
            && (ChargesGst in found <==> !MayCharge(entry))
            && (AboveListPrice in found <==> !WithinList(entry))
            && forall problem :: problem in found ==>
                 problem == WrongDocumentType || problem == WrongGstin || problem == ChargesGst || problem == AboveListPrice
  {
    var lines := entry.lines;
    if exists i :: 0 <= i < |lines| && (lines[i].taxRate != 0 || lines[i].tax != 0) {
      var i :| 0 <= i < |lines| && (lines[i].taxRate != 0 || lines[i].tax != 0);
      assert lines[i] in lines;
    }
    if exists i :: 0 <= i < |lines| && lines[i].listRate.Some? && lines[i].rate > lines[i].listRate.value {
      var i :| 0 <= i < |lines| && lines[i].listRate.Some? && lines[i].rate > lines[i].listRate.value;
      assert lines[i] in lines;
    }
  }

  lemma PaymentFound(entry: InvoiceEntry)
    ensures var found := PaymentProblems(entry.invoice, entry.payments);
            && (NeedsServer in found <==> !PaidHere(entry))
            && (PaymentsDontMatch in found <==> PaidHere(entry) && !PaidRight(entry))
            && (WrongStatus in found <==> PaidHere(entry) && PaidRight(entry) && !StatusRight(entry.invoice))
            && forall problem :: problem in found ==> problem == NeedsServer || problem == PaymentsDontMatch || problem == WrongStatus
  {
    hide PaidBy;
    if PaymentsNeedServer(entry.payments) {
      var i :| 0 <= i < |entry.payments| && (entry.payments[i].mode.Wallet? || entry.payments[i].amount <= 0);
      assert entry.payments[i] in entry.payments;
    }
  }

  lemma StockFound(entry: InvoiceEntry)
    ensures StockMatches(entry.ledger, entry.lines) <==> StockRight(entry)
  {
    hide OutQty, SoldQty, SameQuantities, QtyIn;
    SameEverywhere(OutByItem(entry.ledger), SoldByItem(entry.lines));
    forall item: Id ensures QtyIn(OutByItem(entry.ledger), item) == OutQty(entry.ledger, item) && QtyIn(SoldByItem(entry.lines), item) == SoldQty(entry.lines, item) {
      OutByItemIs(entry.ledger, item);
      SoldByItemIs(entry.lines, item);
    }
    if OnlySales(entry.ledger) {
      forall row | row in entry.ledger ensures row.txnType == SaleTxn && row.qtyIn == 0 {
        var i :| 0 <= i < |entry.ledger| && entry.ledger[i] == row;
      }
    }
  }

  lemma PossibleFound(entry: InvoiceEntry)
    ensures entry.lines == [] || (exists i :: 0 <= i < |entry.lines| && ImpossibleRow(entry.lines[i])) <==> !Possible(entry)
  {
    if !Possible(entry) && entry.lines != [] {
      var row :| row in entry.lines && !(row.qty > 0 && row.rate >= 0 && row.taxRate >= 0);
      var i :| 0 <= i < |entry.lines| && entry.lines[i] == row;
      assert ImpossibleRow(entry.lines[i]);
    }
    if exists i :: 0 <= i < |entry.lines| && ImpossibleRow(entry.lines[i]) {
      var i :| 0 <= i < |entry.lines| && ImpossibleRow(entry.lines[i]);
      assert entry.lines[i] in entry.lines;
    }
  }

  /** The check's problems, in its order. */
  lemma InOrder(entry: InvoiceEntry, percent: Option<int>)
    ensures var found := InvoiceProblems(entry, percent);
            && (entry.lines == [] ==> found == [NoLines])
            && (entry.lines != [] && !Possible(entry) ==> found == [ImpossibleLine])
            && (Possible(entry) && !Stored(entry) ==> found == HeadProblems(entry.invoice, entry.lines) + [AmountsDontAddUp])
            && (Possible(entry) && Stored(entry) ==>
                  found == HeadProblems(entry.invoice, entry.lines)
                         + (When(!DiscountAllowed(entry, percent), DiscountTooHigh) + PaymentProblems(entry.invoice, entry.payments)
                            + When(!StockRight(entry), StockDoesntMatch)))
  {
    hide HeadProblems, PaymentProblems, StockMatches, DiscountsTooHigh, AmountsAgree, Recompute, ListTotal, Possible, Stored, DiscountAllowed,
      StockRight, ImpossibleRow, Total, When;
    PossibleFound(entry);
    AnewIs(entry);
    TotalsAgree(entry);
    StockFound(entry);
    PossibleLines(entry);
    if Possible(entry) { DiscountFound(entry, percent); }
  }

  lemma PossibleLines(entry: InvoiceEntry)
    ensures Possible(entry) ==> entry.lines != []
  {
  }

  /** What of a bill is found before its amounts, with them, and after them. */
  ghost predicate AmountsFound(entry: InvoiceEntry, found: seq<Problem>) {
    && (NoLines in found <==> entry.lines == [])
    && (ImpossibleLine in found <==> entry.lines != [] && !Possible(entry))
    && (WrongDocumentType in found <==> Possible(entry) && !DocumentFits(entry.invoice))
    && (WrongGstin in found <==> Possible(entry) && !GstinFits(entry.invoice))
    && (ChargesGst in found <==> Possible(entry) && !MayCharge(entry))
    && (AboveListPrice in found <==> Possible(entry) && !WithinList(entry))
    && (AmountsDontAddUp in found <==> Possible(entry) && !Stored(entry))
  }

  ghost predicate RestFound(entry: InvoiceEntry, percent: Option<int>, found: seq<Problem>) {
    var read := Possible(entry) && Stored(entry);
    && (DiscountTooHigh in found <==> read && !DiscountAllowed(entry, percent))
    && (NeedsServer in found <==> read && !PaidHere(entry))
    && (PaymentsDontMatch in found <==> read && PaidHere(entry) && !PaidRight(entry))
    && (WrongStatus in found <==> read && PaidHere(entry) && PaidRight(entry) && !StatusRight(entry.invoice))
    && (StockDoesntMatch in found <==> read && !StockRight(entry))
  }

  /**
   * Each problem is found exactly when there is that wrong with the bill: of an impossible bill nothing else, of one whose
   * amounts don't add up nothing after them. Nothing is found of a right bill alone.
   */
  lemma ProblemsFound(entry: InvoiceEntry, percent: Option<int>)
    ensures AmountsFound(entry, InvoiceProblems(entry, percent)) && RestFound(entry, percent, InvoiceProblems(entry, percent))
    ensures InvoiceProblems(entry, percent) == [] <==> RightBill(entry, percent)
  {
    hide AmountsFound, RestFound, RightBill, InvoiceProblems;
    AmountsAreFound(entry, percent);
    RestIsFound(entry, percent);
    NothingFound(entry, InvoiceProblems(entry, percent), percent);
  }

  /** Where a problem found is from. */
  lemma FoundIn(entry: InvoiceEntry, percent: Option<int>, problem: Problem)
    ensures problem in InvoiceProblems(entry, percent) <==>
            || (problem == NoLines && entry.lines == [])
            || (problem == ImpossibleLine && entry.lines != [] && !Possible(entry))
            || (Possible(entry) && problem in HeadProblems(entry.invoice, entry.lines))
            || (problem == AmountsDontAddUp && Possible(entry) && !Stored(entry))
            || (Possible(entry) && Stored(entry) && ((problem == DiscountTooHigh && !DiscountAllowed(entry, percent))
                                                     || problem in PaymentProblems(entry.invoice, entry.payments)
                                                     || (problem == StockDoesntMatch && !StockRight(entry))))
  {
    hide HeadProblems, PaymentProblems, InvoiceProblems, Possible, Stored, DiscountAllowed, StockRight;
    InOrder(entry, percent);
    PossibleLines(entry);
  }

  lemma AmountsAreFound(entry: InvoiceEntry, percent: Option<int>)
    ensures AmountsFound(entry, InvoiceProblems(entry, percent))
  {
    hide HeadProblems, PaymentProblems, InvoiceProblems, Possible, DocumentFits, GstinFits, MayCharge, WithinList, Stored, DiscountAllowed,
      PaidHere, PaidRight, StatusRight, StockRight;
    HeadFound(entry);
    PaymentFound(entry);
    PossibleLines(entry);
    FoundIn(entry, percent, NoLines);
    FoundIn(entry, percent, ImpossibleLine);
    FoundIn(entry, percent, WrongDocumentType);
    FoundIn(entry, percent, WrongGstin);
    FoundIn(entry, percent, ChargesGst);
    FoundIn(entry, percent, AboveListPrice);
    FoundIn(entry, percent, AmountsDontAddUp);
  }

  lemma RestIsFound(entry: InvoiceEntry, percent: Option<int>)
    ensures RestFound(entry, percent, InvoiceProblems(entry, percent))
  {
    hide HeadProblems, PaymentProblems, InvoiceProblems, Possible, DocumentFits, GstinFits, MayCharge, WithinList, Stored, DiscountAllowed,
      PaidHere, PaidRight, StatusRight, StockRight;
    HeadFound(entry);
    PaymentFound(entry);
    FoundIn(entry, percent, DiscountTooHigh);
    FoundIn(entry, percent, NeedsServer);
    FoundIn(entry, percent, PaymentsDontMatch);
    FoundIn(entry, percent, WrongStatus);
    FoundIn(entry, percent, StockDoesntMatch);
  }

  /** With each found when it is there, none is found exactly when none is there. */
  lemma NothingFound(entry: InvoiceEntry, found: seq<Problem>, percent: Option<int>)
    requires found == InvoiceProblems(entry, percent) && AmountsFound(entry, found) && RestFound(entry, percent, found)
    ensures found == [] <==> RightBill(entry, percent)
  {
    hide HeadProblems, PaymentProblems, InvoiceProblems, Possible, DocumentFits, GstinFits, MayCharge, WithinList, Stored, DiscountAllowed,
      PaidHere, PaidRight, StatusRight, StockRight;
    if found != [] {
      assert found[0] in found;
      FoundIn(entry, percent, found[0]);
      HeadFound(entry);
      PaymentFound(entry);
    }
    PossibleLines(entry);
  }
}
