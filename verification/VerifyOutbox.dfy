/**
 * What the server checks of an outbox by itself (apps/api/src/fallback/verify-outbox.ts):
 * the money worked out again, stock and payments against it, and returns against what was sold.
 */
module VerifyOutbox {
  import opened Discounts
  import opened OutboxRows
  import opened Rounding
  import opened SaleTotals
  import opened Sums

  datatype Problem =
    | NoLines | ImpossibleLine | WrongDocumentType | WrongGstin | ChargesGst | AboveListPrice | AmountsDontAddUp
    | DiscountTooHigh | NeedsServer | PaymentsDontMatch | WrongStatus | StockDoesntMatch
    | RefundNeedsServer | MoreThanSold(line: Id) | LinesDontMatch | RoundingReversesMore | TotalDoesntMatch | StockBackDoesntMatch

  datatype Conflict = OnInvoice(invoice: Id, problem: Problem) | OnReturn(ret: Id, problem: Problem)

  /** A quantity and the money that goes with it. */
  datatype Parts = Parts(qty: int, taxable: int, cgst: int, sgst: int, igst: int) {
    function Plus(other: Parts): Parts {
      Parts(qty + other.qty, taxable + other.taxable, cgst + other.cgst, sgst + other.sgst, igst + other.igst)
    }

    /** No more units than were sold, and no part of the money more than a paisa above the line's. */
    predicate WithinSold(sold: Parts) {
      qty <= sold.qty && taxable <= sold.taxable + 1 && cgst <= sold.cgst + 1 && sgst <= sold.sgst + 1 && igst <= sold.igst + 1
    }
  }

  const NO_PARTS := Parts(0, 0, 0, 0, 0)

  datatype SoldLine = SoldLine(itemId: Id, parts: Parts)
  datatype BillRounding = BillRounding(roundOff: int, returned: int)

  /** What the caller looks up on the server. */
  datatype OutboxContext = OutboxContext(
    maxDiscountPercent: map<Id, int>, serverLines: map<Id, SoldLine>, serverReturned: map<Id, Parts>, serverRounding: map<Id, BillRounding>)

  /** A paisa apart is the same; amounts worked out anew may be five paise apart. */
  predicate Same(a: int, b: int) { Abs(a - b) <= 1 }
  predicate Close(a: int, b: int) { Abs(a - b) <= 5 }

  // ----- One bill

  function DiscountById(discounts: seq<DiscountRow>, id: Id): (r: Option<DiscountRow>) {
    if discounts == [] then None
    else if discounts[|discounts| - 1].id == id then Some(discounts[|discounts| - 1])
    else DiscountById(discounts[..|discounts| - 1], id)
  }

  function ItemDiscountsOf(discounts: seq<DiscountRow>, allocations: seq<AllocationRow>, lineId: Id): (r: seq<Discount>) {
    if allocations == [] then []
    else
      var last := allocations[|allocations| - 1];
      var found := DiscountById(discounts, last.discountId);
      ItemDiscountsOf(discounts, allocations[..|allocations| - 1], lineId) +
      if last.lineId == lineId && found.Some? && found.value.scope.ItemScope? then [found.value.discount] else []
  }

  function OrderDiscounts(discounts: seq<DiscountRow>): (r: seq<Discount>) {
    if discounts == [] then []
    else
      var last := discounts[|discounts| - 1];
      OrderDiscounts(discounts[..|discounts| - 1]) + if last.scope.OrderScope? then [last.discount] else []
  }

  function InputOf(line: SaleLineRow, discounts: seq<Discount>): (r: LineInput) {
    LineInput(Max(0, line.qty), line.saleUom, Max(0, line.rate), Max(0, line.taxRate), line.taxMode, discounts)
  }

  function Inputs(lines: seq<SaleLineRow>, discounts: seq<DiscountRow>, allocations: seq<AllocationRow>): (r: seq<LineInput>)
    ensures |r| == |lines|
  {
    seq(|lines|, i requires 0 <= i < |lines| => InputOf(lines[i], ItemDiscountsOf(discounts, allocations, lines[i].id)))
  }

  predicate GoesInterState(invoice: InvoiceRow) {
    invoice.sellerState != "" && invoice.placeOfSupply != "" && invoice.sellerState != invoice.placeOfSupply
  }

  /** Pricing the stored lines and discounts anew, without rounding the total. */
  function Recompute(entry: InvoiceEntry): (r: Totals)
    ensures |r.lines| == |entry.lines|
  {
    ComputeSaleTotals(Inputs(entry.lines, entry.discounts, entry.allocations), OrderDiscounts(entry.discounts),
      true, GoesInterState(entry.invoice), NoRounding)
  }

  predicate LineAgrees(line: SaleLineRow, computed: PricedLine) {
    && Close(line.discount, computed.DiscountAmount()) && Close(line.taxable, computed.taxable) && Close(line.tax, computed.tax)
    && Close(line.cgst, computed.gst.cgst) && Close(line.sgst, computed.gst.sgst) && Close(line.igst, computed.gst.igst)
    && Close(line.net, computed.Net())
    && Same(line.net, line.taxable + line.tax)
    && Same(line.tax, line.cgst + line.sgst + line.igst)
  }

  function LineSum(lines: seq<SaleLineRow>, of: SaleLineRow -> int): (r: int) {
    Sum(seq(|lines|, i requires 0 <= i < |lines| => of(lines[i])))
  }

  const LINE_TAX := (line: SaleLineRow) => line.tax
  const LINE_CGST := (line: SaleLineRow) => line.cgst
  const LINE_SGST := (line: SaleLineRow) => line.sgst
  const LINE_IGST := (line: SaleLineRow) => line.igst
  const LINE_NET := (line: SaleLineRow) => line.net
  const LINE_DISCOUNT := (line: SaleLineRow) => line.discount

  /** The bill's totals are its own lines', and the total is rounded by at most 50 paise. */
  predicate TotalsAreItsLines(invoice: InvoiceRow, lines: seq<SaleLineRow>) {
    && Abs(invoice.roundOff) <= 50
    && Same(invoice.taxTotal, LineSum(lines, LINE_TAX))
    && Same(invoice.cgstTotal, LineSum(lines, LINE_CGST))
    && Same(invoice.sgstTotal, LineSum(lines, LINE_SGST))
    && Same(invoice.igstTotal, LineSum(lines, LINE_IGST))
    && Same(invoice.grandTotal, LineSum(lines, LINE_NET) + invoice.roundOff)
    && Same(invoice.discountTotal, LineSum(lines, LINE_DISCOUNT))
  }

  predicate AmountsAgree(invoice: InvoiceRow, lines: seq<SaleLineRow>, totals: Totals)
    requires |totals.lines| == |lines|
  {
    && (forall i :: 0 <= i < |lines| ==> LineAgrees(lines[i], totals.lines[i]))
    && TotalsAreItsLines(invoice, lines)
    && Close(invoice.subTotal, totals.subTotal) && Close(invoice.discountTotal, totals.discountTotal)
    && Close(invoice.orderDiscount, totals.orderDiscountTotal) && Close(invoice.taxTotal, totals.taxTotal)
    && Close(invoice.cgstTotal, totals.cgstTotal) && Close(invoice.sgstTotal, totals.sgstTotal)
    && Close(invoice.igstTotal, totals.igstTotal) && Close(invoice.grandTotal - invoice.roundOff, totals.grandTotal)
  }

  function DocumentTypeFor(taxpayerType: TaxpayerType): (r: DocumentType) {
    match taxpayerType
    case Unregistered => PlainInvoice
    case Composition => BillOfSupply
    case Regular => TaxInvoice
  }

  predicate ImpossibleRow(line: SaleLineRow) { line.qty <= 0 || line.rate < 0 || line.taxRate < 0 }

  /** What a line comes to at its list price, before tax. */
  function ListValue(line: SaleLineRow, chargeTax: bool): (r: int) {
    var listRate := if line.listRate.Some? then line.listRate.value else line.rate;
    var pricingQty := if line.saleUom.InSaleUnits? then line.saleUom.qty else Max(0, line.qty);
    var gross := RoundDiv(pricingQty * listRate, 1000);
    if chargeTax && line.taxMode.Inclusive? && line.taxRate > 0 then RoundDiv(gross * 10000, 10000 + line.taxRate) else gross
  }

  function ListTotal(lines: seq<SaleLineRow>, chargeTax: bool): (r: int) {
    Sum(seq(|lines|, i requires 0 <= i < |lines| => ListValue(lines[i], chargeTax)))
  }

  predicate DiscountsTooHigh(listTotal: int, finalTotal: int, maxPercent: Option<int>) {
    maxPercent.Some? && listTotal > 0 && listTotal - finalTotal > RoundDiv(listTotal * maxPercent.value, 10000) + 1
  }

  function PaidBy(payments: seq<PaymentRow>): (r: int) {
    if payments == [] then 0 else PaidBy(payments[..|payments| - 1]) + payments[|payments| - 1].amount
  }

  predicate PaymentsNeedServer(payments: seq<PaymentRow>) {
    exists i :: 0 <= i < |payments| && (payments[i].mode.Wallet? || payments[i].amount <= 0)
  }

  function ExpectedStatus(invoice: InvoiceRow): (r: Status) {
    var settled := invoice.paidTotal + invoice.creditedTotal;
    if settled >= invoice.grandTotal then Settled else if settled > 0 then PartiallySettled else Draft
  }

  function PaymentProblems(invoice: InvoiceRow, payments: seq<PaymentRow>): (r: seq<Problem>) {
    if PaymentsNeedServer(payments) then [NeedsServer]
    else if !Same(PaidBy(payments), invoice.paidTotal) || PaidBy(payments) > invoice.grandTotal then [PaymentsDontMatch]
    else if invoice.status != ExpectedStatus(invoice) then [WrongStatus]
    else []
  }

  // ----- Stock

  /** Quantities added up by item. */
  function AddQty(totals: map<Id, int>, itemId: Id, qty: int): (r: map<Id, int>) {
    totals[itemId := (if itemId in totals then totals[itemId] else 0) + qty]
  }

  function QtyIn(totals: map<Id, int>, itemId: Id): (r: int) { if itemId in totals then totals[itemId] else 0 }

  function SoldByItem(lines: seq<SaleLineRow>): (r: map<Id, int>) {
    if lines == [] then map[] else AddQty(SoldByItem(lines[..|lines| - 1]), lines[|lines| - 1].itemId, lines[|lines| - 1].qty)
  }

  function OutByItem(rows: seq<LedgerRow>): (r: map<Id, int>) {
    if rows == [] then map[] else AddQty(OutByItem(rows[..|rows| - 1]), rows[|rows| - 1].itemId, rows[|rows| - 1].qtyOut)
  }

  function InByItem(rows: seq<LedgerRow>): (r: map<Id, int>) {
    if rows == [] then map[] else AddQty(InByItem(rows[..|rows| - 1]), rows[|rows| - 1].itemId, rows[|rows| - 1].qtyIn)
  }

  predicate SameQuantities(a: map<Id, int>, b: map<Id, int>) {
    forall item :: item in a.Keys + b.Keys ==> QtyIn(a, item) == QtyIn(b, item)
  }

  predicate OnlySales(rows: seq<LedgerRow>) {
    forall i :: 0 <= i < |rows| ==> rows[i].txnType.SaleTxn? && rows[i].qtyIn == 0
  }

  predicate OnlyReturns(rows: seq<LedgerRow>) {
    forall i :: 0 <= i < |rows| ==> rows[i].txnType.ReturnTxn? && rows[i].qtyOut == 0
  }

  predicate StockMatches(ledger: seq<LedgerRow>, lines: seq<SaleLineRow>) {
    OnlySales(ledger) && SameQuantities(OutByItem(ledger), SoldByItem(lines))
  }

  function When(holds: bool, problem: Problem): (r: seq<Problem>) { if holds then [problem] else [] }

  /** Everything wrong with one bill; some problems end its check early. */
  function InvoiceProblems(entry: InvoiceEntry, maxPercent: Option<int>): (r: seq<Problem>) {
    var invoice := entry.invoice;
    if entry.lines == [] then [NoLines]
    else if exists i :: 0 <= i < |entry.lines| && ImpossibleRow(entry.lines[i]) then [ImpossibleLine]
    else
      HeadProblems(invoice, entry.lines) +
      var totals := Recompute(entry);
      if !AmountsAgree(invoice, entry.lines, totals) then [AmountsDontAddUp]
      else
        When(DiscountsTooHigh(ListTotal(entry.lines, invoice.taxpayerType.Regular?), Total(totals.lines, OF_TAXABLE), maxPercent), DiscountTooHigh)
        + PaymentProblems(invoice, entry.payments)
        + When(!StockMatches(entry.ledger, entry.lines), StockDoesntMatch)
  }

  function HeadProblems(invoice: InvoiceRow, lines: seq<SaleLineRow>): (r: seq<Problem>) {
    When(invoice.documentType != DocumentTypeFor(invoice.taxpayerType), WrongDocumentType)
    + When(if invoice.taxpayerType.Unregistered? then !invoice.sellerGstin.NoGstin? else !invoice.sellerGstin.ValidGstin?, WrongGstin)
    + When(!invoice.taxpayerType.Regular? &&
           exists i :: 0 <= i < |lines| && (lines[i].taxRate != 0 || lines[i].tax != 0), ChargesGst)
    + When(exists i :: 0 <= i < |lines| && lines[i].listRate.Some? && lines[i].rate > lines[i].listRate.value, AboveListPrice)
  }

  // ----- Returns

  function SoldOf(line: SaleLineRow): (r: SoldLine) {
    SoldLine(line.itemId, Parts(line.qty, line.taxable, line.cgst, line.sgst, line.igst))
  }

  function AddLines(sold: map<Id, SoldLine>, lines: seq<SaleLineRow>): (r: map<Id, SoldLine>) {
    if lines == [] then sold else AddLines(sold, lines[..|lines| - 1])[lines[|lines| - 1].id := SoldOf(lines[|lines| - 1])]
  }

  /** The lines sold offline, over those the server already had. */
  function SoldLines(server: map<Id, SoldLine>, invoices: seq<InvoiceEntry>): (r: map<Id, SoldLine>) {
    if invoices == [] then server else AddLines(SoldLines(server, invoices[..|invoices| - 1]), invoices[|invoices| - 1].lines)
  }

  function StartRounding(server: map<Id, BillRounding>, invoices: seq<InvoiceEntry>): (r: map<Id, BillRounding>) {
    if invoices == [] then server
    else
      var last := invoices[|invoices| - 1].invoice;
      StartRounding(server, invoices[..|invoices| - 1])[last.id := BillRounding(last.roundOff, 0)]
  }

  function PartsOf(row: ReturnLineRow): (r: Parts) { Parts(row.qty, row.taxable, row.cgst, row.sgst, row.igst) }
  function PartsAt(taken: map<Id, Parts>, line: Id): (r: Parts) { if line in taken then taken[line] else NO_PARTS }

  predicate RowOk(sold: map<Id, SoldLine>, row: ReturnLineRow) {
    row.saleLineId in sold && row.qty > 0 && Same(row.amount, row.taxable + row.cgst + row.sgst + row.igst)
  }

  datatype LineCheck = LineCheck(taken: map<Id, Parts>, ok: bool, problems: seq<Problem>)

  function CheckRow(sold: map<Id, SoldLine>, c: LineCheck, row: ReturnLineRow): (r: LineCheck) {
    if !RowOk(sold, row) then c.(ok := false)
    else
      var after := PartsAt(c.taken, row.saleLineId).Plus(PartsOf(row));
      LineCheck(c.taken[row.saleLineId := after], c.ok,
        c.problems + When(!after.WithinSold(sold[row.saleLineId].parts), MoreThanSold(row.saleLineId)))
  }

  function CheckRows(sold: map<Id, SoldLine>, taken: map<Id, Parts>, rows: seq<ReturnLineRow>): (r: LineCheck) {
    if rows == [] then LineCheck(taken, true, []) else CheckRow(sold, CheckRows(sold, taken, rows[..|rows| - 1]), rows[|rows| - 1])
  }

  function BackByItem(sold: map<Id, SoldLine>, rows: seq<ReturnLineRow>): (r: map<Id, int>) {
    if rows == [] then map[]
    else
      var last := rows[|rows| - 1];
      AddQty(BackByItem(sold, rows[..|rows| - 1]), if last.saleLineId in sold then sold[last.saleLineId].itemId else 0, last.qty)
  }

  function AmountOf(rows: seq<ReturnLineRow>): (r: int) {
    if rows == [] then 0 else AmountOf(rows[..|rows| - 1]) + rows[|rows| - 1].amount
  }

  predicate RoundingOk(roundOff: int, bill: BillRounding) {
    roundOff * bill.roundOff >= 0 && Abs(bill.returned + roundOff) <= Abs(bill.roundOff)
  }

  predicate RoundingFine(ret: ReturnRow, rounding: map<Id, BillRounding>) {
    Abs(ret.roundOff) <= 50 && (ret.saleInvoiceId in rounding ==> RoundingOk(ret.roundOff, rounding[ret.saleInvoiceId]))
  }

  function AddRounding(rounding: map<Id, BillRounding>, ret: ReturnRow): (r: map<Id, BillRounding>) {
    if ret.saleInvoiceId in rounding then
      var bill := rounding[ret.saleInvoiceId];
      rounding[ret.saleInvoiceId := bill.(returned := bill.returned + ret.roundOff)]
    else rounding
  }

  predicate StockBackMatches(sold: map<Id, SoldLine>, ledger: seq<LedgerRow>, lines: seq<ReturnLineRow>) {
    OnlyReturns(ledger) && SameQuantities(InByItem(ledger), BackByItem(sold, lines))
  }

  datatype ReturnCheck = ReturnCheck(taken: map<Id, Parts>, rounding: map<Id, BillRounding>, conflicts: seq<Conflict>)

  function TotalProblems(ret: ReturnRow, lines: seq<ReturnLineRow>): (r: seq<Problem>) {
    When(!Same(ret.totalAmount, AmountOf(lines) + ret.roundOff) || !Same(ret.totalAmount, ret.dueAdjusted + ret.refundAmount), TotalDoesntMatch)
  }

  function OnReturns(ret: Id, problems: seq<Problem>): (r: seq<Conflict>)
    ensures |r| == |problems|
  {
    seq(|problems|, i requires 0 <= i < |problems| => OnReturn(ret, problems[i]))
  }

  function OnInvoices(invoice: Id, problems: seq<Problem>): (r: seq<Conflict>)
    ensures |r| == |problems|
  {
    seq(|problems|, i requires 0 <= i < |problems| => OnInvoice(invoice, problems[i]))
  }

  function CheckReturn(sold: map<Id, SoldLine>, c: ReturnCheck, entry: ReturnEntry): (r: ReturnCheck) {
    var ret := entry.ret;
    var head := When(!ret.refundMode.Cash? && ret.refundAmount > 0, RefundNeedsServer);
    var rows := CheckRows(sold, c.taken, entry.lines);
    if !rows.ok then ReturnCheck(rows.taken, c.rounding, c.conflicts + OnReturns(ret.id, head + rows.problems + [LinesDontMatch]))
    else
      ReturnCheck(rows.taken, AddRounding(c.rounding, ret),
        c.conflicts + OnReturns(ret.id, head + rows.problems
          + When(!RoundingFine(ret, c.rounding), RoundingReversesMore)
          + TotalProblems(ret, entry.lines)
          + When(!StockBackMatches(sold, entry.ledger, entry.lines), StockBackDoesntMatch)))
  }

  function CheckReturns(sold: map<Id, SoldLine>, start: ReturnCheck, entries: seq<ReturnEntry>): (r: ReturnCheck) {
    if entries == [] then start else CheckReturn(sold, CheckReturns(sold, start, entries[..|entries| - 1]), entries[|entries| - 1])
  }

  function CashierLimit(ctx: OutboxContext, user: Id): (r: Option<int>) {
    if user in ctx.maxDiscountPercent then Some(ctx.maxDiscountPercent[user]) else None
  }

  function InvoiceConflicts(ctx: OutboxContext, invoices: seq<InvoiceEntry>): (r: seq<Conflict>) {
    if invoices == [] then []
    else
      var last := invoices[|invoices| - 1];
      InvoiceConflicts(ctx, invoices[..|invoices| - 1])
      + OnInvoices(last.invoice.id, InvoiceProblems(last, CashierLimit(ctx, last.invoice.createdBy)))
  }

  function Start(ctx: OutboxContext, invoices: seq<InvoiceEntry>): (r: ReturnCheck) {
    ReturnCheck(ctx.serverReturned, StartRounding(ctx.serverRounding, invoices), [])
  }

  /** Everything that disagrees: the bills' conflicts, then the returns'. */
  function Conflicts(ctx: OutboxContext, invoices: seq<InvoiceEntry>, givenBack: seq<ReturnEntry>): (r: seq<Conflict>) {
    InvoiceConflicts(ctx, invoices) + CheckReturns(SoldLines(ctx.serverLines, invoices), Start(ctx, invoices), givenBack).conflicts
  }

  method VerifyOutbox(ctx: OutboxContext, invoices: seq<InvoiceEntry>, givenBack: seq<ReturnEntry>) returns (conflicts: seq<Conflict>)
    ensures conflicts == Conflicts(ctx, invoices, givenBack)
  {
    hide InvoiceProblems, CheckRows, CheckRow, AddLines, OnReturns, TotalProblems, When, RoundingFine, AddRounding, StockBackMatches;
    conflicts := [];
    var sold := ctx.serverLines;
    var rounding := ctx.serverRounding;
    for i := 0 to |invoices|
      invariant conflicts == InvoiceConflicts(ctx, invoices[..i])
      invariant sold == SoldLines(ctx.serverLines, invoices[..i])
      invariant rounding == StartRounding(ctx.serverRounding, invoices[..i])
    {
      assert invoices[..i + 1][..i] == invoices[..i];
      var entry := invoices[i];
      sold := RecordLines(sold, entry.lines);
      rounding := rounding[entry.invoice.id := BillRounding(entry.invoice.roundOff, 0)];
      conflicts := conflicts + OnInvoices(entry.invoice.id, InvoiceProblems(entry, CashierLimit(ctx, entry.invoice.createdBy)));
    }
    assert invoices[..|invoices|] == invoices;
    var check := VerifyReturns(sold, Start(ctx, invoices), givenBack);
    conflicts := conflicts + check.conflicts;
  }

  method RecordLines(start: map<Id, SoldLine>, lines: seq<SaleLineRow>) returns (sold: map<Id, SoldLine>)
    ensures sold == AddLines(start, lines)
  {
    sold := start;
    for i := 0 to |lines|
      invariant sold == AddLines(start, lines[..i])
    {
      assert lines[..i + 1][..i] == lines[..i];
      sold := sold[lines[i].id := SoldOf(lines[i])];
    }
    assert lines[..|lines|] == lines;
  }

  /** The returns in turn, keeping what each sale line and each bill's round-off has given back so far. */
  method VerifyReturns(sold: map<Id, SoldLine>, start: ReturnCheck, entries: seq<ReturnEntry>) returns (check: ReturnCheck)
    ensures check == CheckReturns(sold, start, entries)
  {
    hide CheckRows, OnReturns, TotalProblems, RoundingFine, AddRounding, StockBackMatches;
    var taken: map<Id, Parts> := start.taken;
    var rounding: map<Id, BillRounding> := start.rounding;
    var conflicts := start.conflicts;
    for i := 0 to |entries|
      invariant ReturnCheck(taken, rounding, conflicts) == CheckReturns(sold, start, entries[..i])
    {
      assert entries[..i + 1][..i] == entries[..i];
      var entry := entries[i];
      var problems := When(!entry.ret.refundMode.Cash? && entry.ret.refundAmount > 0, RefundNeedsServer);
      var rows := VerifyRows(sold, taken, entry.lines);
      taken := rows.taken;
      problems := problems + rows.problems;
      if !rows.ok {
        conflicts := conflicts + OnReturns(entry.ret.id, problems + [LinesDontMatch]);
        continue;
      }
      problems := problems + When(!RoundingFine(entry.ret, rounding), RoundingReversesMore);
      rounding := AddRounding(rounding, entry.ret);
      problems := problems + TotalProblems(entry.ret, entry.lines);
      problems := problems + When(!StockBackMatches(sold, entry.ledger, entry.lines), StockBackDoesntMatch);
      conflicts := conflicts + OnReturns(entry.ret.id, problems);
    }
    assert entries[..|entries|] == entries;
    check := ReturnCheck(taken, rounding, conflicts);
  }

  method VerifyRows(sold: map<Id, SoldLine>, start: map<Id, Parts>, rows: seq<ReturnLineRow>) returns (check: LineCheck)
    ensures check == CheckRows(sold, start, rows)
  {
    var taken: map<Id, Parts> := start;
    var ok, problems: seq<Problem> := true, [];
    for i := 0 to |rows|
      invariant LineCheck(taken, ok, problems) == CheckRows(sold, start, rows[..i])
    {
      assert rows[..i + 1][..i] == rows[..i];
      var row := rows[i];
      if !RowOk(sold, row) {
        ok := false;
        continue;
      }
      var after := PartsAt(taken, row.saleLineId).Plus(PartsOf(row));
      taken := taken[row.saleLineId := after];
      problems := problems + When(!after.WithinSold(sold[row.saleLineId].parts), MoreThanSold(row.saleLineId));
    }
    assert rows[..|rows|] == rows;
    check := LineCheck(taken, ok, problems);
  }
}
