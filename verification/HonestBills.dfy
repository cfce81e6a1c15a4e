/**
 * A bill as the till writes it (apps/api/src/sales/sale-lines.ts), read back and priced anew by the server's check
 * (apps/api/src/fallback/verify-outbox.ts): it comes to what was written, and nothing is found wrong with it.
 */
module HonestBills {
  import opened BillsChecked
  import opened Discounts
  import opened OutboxRows
  import opened Rounding
  import opened SaleTotals
  import opened Sums
  import opened VerifyOutbox

  /** A line of a sale: what it is priced by, and the item. */
  datatype Good = Good(line: LineInput, itemId: Id, listRate: Option<int>, id: Id)

  /** Ids drawn for discounts (of a line, or of the order) and their allocations. */
  datatype Ids = Ids(discount: (nat, nat) -> Id, allocation: (nat, nat) -> Id)

  function LinesOf(goods: seq<Good>): (r: seq<LineInput>) ensures |r| == |goods| {
    seq(|goods|, i requires 0 <= i < |goods| => goods[i].line)
  }

  // ----- The rows written

  function LineRow(invoiceId: Id, good: Good, chargeTax: bool, p: PricedLine): (r: SaleLineRow) {
    var line := Charged(good.line, chargeTax);
    SaleLineRow(good.id, invoiceId, good.itemId, line.qty, line.saleUom, line.rate, good.listRate, line.taxRate, line.taxMode,
      p.DiscountAmount(), p.taxable, p.tax, p.gst.cgst, p.gst.sgst, p.gst.igst, p.Net())
  }

  function LineRows(invoiceId: Id, goods: seq<Good>, chargeTax: bool, priced: seq<PricedLine>): (r: seq<SaleLineRow>)
    requires |goods| == |priced|
    ensures |r| == |goods|
  {
    seq(|goods|, i requires 0 <= i < |goods| => LineRow(invoiceId, goods[i], chargeTax, priced[i]))
  }

  /** A discount as it is kept: one below zero as none. */
  function Kept(discount: Discount): (r: Discount) { Discount(discount.kind, Max(0, discount.value)) }

  function KeptAll(discounts: seq<Discount>): (r: seq<Discount>) ensures |r| == |discounts| {
    seq(|discounts|, k requires 0 <= k < |discounts| => Kept(discounts[k]))
  }

  /** The discounts that are written: none when there is nothing to discount. */
  function Written(discounts: seq<Discount>, base: int): (r: seq<Discount>) {
    if base > 0 then KeptAll(discounts) else []
  }

  function DiscountRows(invoiceId: Id, ids: Ids, at: nat, scope: DiscountScope, discounts: seq<Discount>): (r: seq<DiscountRow>)
    ensures |r| == |discounts|
  {
    seq(|discounts|, k requires 0 <= k < |discounts| => DiscountRow(ids.discount(at, k), invoiceId, scope, discounts[k]))
  }

  /** Line i's own discounts, as written. */
  function OwnDiscounts(lines: seq<LineInput>, i: nat): (r: seq<Discount>)
    requires i < |lines|
  {
    Written(lines[i].discounts, Base(lines[i]))
  }

  function ItemRows(invoiceId: Id, ids: Ids, lines: seq<LineInput>, n: nat): (r: seq<DiscountRow>)
    requires n <= |lines|
  {
    if n == 0 then []
    else ItemRows(invoiceId, ids, lines, n - 1) + DiscountRows(invoiceId, ids, n - 1, ItemScope, OwnDiscounts(lines, n - 1))
  }

  function LineAllocations(ids: Ids, at: nat, lineId: Id, count: nat): (r: seq<AllocationRow>) ensures |r| == count {
    seq(count, k requires 0 <= k < count => AllocationRow(ids.allocation(at, k), ids.discount(at, k), lineId))
  }

  function ItemAllocations(ids: Ids, goods: seq<Good>, lines: seq<LineInput>, n: nat): (r: seq<AllocationRow>)
    requires n <= |lines| == |goods|
  {
    if n == 0 then []
    else ItemAllocations(ids, goods, lines, n - 1) + LineAllocations(ids, n - 1, goods[n - 1].id, |OwnDiscounts(lines, n - 1)|)
  }

  /** One order discount's allocations: to each line that gets some of it. */
  function PartAllocations(ids: Ids, goods: seq<Good>, k: nat, parts: seq<int>, n: nat): (r: seq<AllocationRow>)
    requires n <= |parts| == |goods|
  {
    if n == 0 then []
    else PartAllocations(ids, goods, k, parts, n - 1)
         + if parts[n - 1] > 0 then [AllocationRow(ids.allocation(|goods| + k, n - 1), ids.discount(|goods|, k), goods[n - 1].id)] else []
  }

  function OrderAllocations(ids: Ids, goods: seq<Good>, bases: seq<nat>, amounts: seq<int>): (r: seq<AllocationRow>)
    requires |bases| == |goods|
  {
    if amounts == [] then []
    else
      var k := |amounts| - 1;
      OrderAllocations(ids, goods, bases, amounts[..k]) + PartAllocations(ids, goods, k, Allocation(bases, amounts[k]), |goods|)
  }

  /** The bill of a sale: its rows and totals; `head` has the rest of it. */
  function BillOf(
    head: InvoiceRow, goods: seq<Good>, orderDiscounts: seq<Discount>, chargeTax: bool, interState: bool, roundOff: RoundOffMode,
    ids: Ids, payments: seq<PaymentRow>, receipts: seq<ReceiptRow>, ledger: seq<LedgerRow>): (r: InvoiceEntry)
  {
    var lines, sale := ChargedLines(LinesOf(goods), chargeTax), ComputeSaleTotals(LinesOf(goods), orderDiscounts, chargeTax, interState, roundOff);
    var bases := Bases(lines);
    InvoiceEntry(
      head.(subTotal := sale.subTotal, discountTotal := sale.discountTotal, orderDiscount := sale.orderDiscountTotal, taxTotal := sale.taxTotal,
            cgstTotal := sale.cgstTotal, sgstTotal := sale.sgstTotal, igstTotal := sale.igstTotal, roundOff := sale.roundOff,
            grandTotal := sale.grandTotal),
      LineRows(head.id, goods, chargeTax, sale.lines),
      ItemRows(head.id, ids, lines, |lines|) + DiscountRows(head.id, ids, |goods|, OrderScope, Written(orderDiscounts, Sum(bases))),
      ItemAllocations(ids, goods, lines, |lines|) + OrderAllocations(ids, goods, bases, sale.orderDiscounts),
      payments, receipts, ledger)
  }

  // ----- Reading the discounts back

  ghost predicate DistinctDraws(ids: Ids) {
    forall i: nat, k: nat, i': nat, k': nat :: ids.discount(i, k) == ids.discount(i', k') ==> i == i' && k == k'
  }

  ghost predicate DistinctGoods(goods: seq<Good>) { forall i, j :: 0 <= i < j < |goods| ==> goods[i].id != goods[j].id }

  lemma {:induction false} DiscountsConcat(d: seq<DiscountRow>, a: seq<AllocationRow>, b: seq<AllocationRow>, line: Id)
    ensures ItemDiscountsOf(d, a + b, line) == ItemDiscountsOf(d, a, line) + ItemDiscountsOf(d, b, line)
  {
    if b == [] {
      assert a + b == a;
    } else {
      assert (a + b)[..|a + b| - 1] == a + b[..|b| - 1];
      DiscountsConcat(d, a, b[..|b| - 1], line);
    }
  }

  lemma {:induction false} OrderConcat(a: seq<DiscountRow>, b: seq<DiscountRow>)
    ensures OrderDiscounts(a + b) == OrderDiscounts(a) + OrderDiscounts(b)
  {
    if b == [] {
      assert a + b == a;
    } else {
      assert (a + b)[..|a + b| - 1] == a + b[..|b| - 1];
      OrderConcat(a, b[..|b| - 1]);
    }
  }

  lemma {:induction false} FoundById(rows: seq<DiscountRow>, row: DiscountRow)
    requires row in rows && forall other :: other in rows && other.id == row.id ==> other == row
    ensures DiscountById(rows, row.id) == Some(row)
  {
    var n := |rows| - 1;
    if rows[n].id != row.id {
      assert rows == rows[..n] + [rows[n]];
      FoundById(rows[..n], row);
    } else {
      assert rows[n] in rows;
    }
  }

  /** The rows of a bill's discounts: the k-th of line i, or of the order after the last line. */
  function RowOf(invoiceId: Id, ids: Ids, lines: seq<LineInput>, order: seq<Discount>, i: nat, k: nat): (r: DiscountRow)
    requires if i < |lines| then k < |OwnDiscounts(lines, i)| else k < |order|
  {
    DiscountRow(ids.discount(i, k), invoiceId, if i < |lines| then ItemScope else OrderScope, if i < |lines| then OwnDiscounts(lines, i)[k] else order[k])
  }

  ghost predicate IsRow(invoiceId: Id, ids: Ids, lines: seq<LineInput>, order: seq<Discount>, row: DiscountRow) {
    || (exists i: nat, k: nat :: i < |lines| && k < |OwnDiscounts(lines, i)| && row == RowOf(invoiceId, ids, lines, order, i, k))
    || (exists k: nat :: k < |order| && row == RowOf(invoiceId, ids, lines, order, |lines|, k))
  }

  function AllRows(invoiceId: Id, ids: Ids, lines: seq<LineInput>, order: seq<Discount>): (r: seq<DiscountRow>) {
    ItemRows(invoiceId, ids, lines, |lines|) + DiscountRows(invoiceId, ids, |lines|, OrderScope, order)
  }

  lemma {:induction false} ItemRowsAre(invoiceId: Id, ids: Ids, lines: seq<LineInput>, order: seq<Discount>, n: nat)
    requires n <= |lines|
    ensures forall row :: row in ItemRows(invoiceId, ids, lines, n) ==> IsRow(invoiceId, ids, lines, order, row)
    ensures forall i: nat, k: nat :: i < n && k < |OwnDiscounts(lines, i)| ==> RowOf(invoiceId, ids, lines, order, i, k) in ItemRows(invoiceId, ids, lines, n)
  {
    hide OwnDiscounts;
    if n > 0 {
      var m := n - 1;
      ItemRowsAre(invoiceId, ids, lines, order, m);
      var last := DiscountRows(invoiceId, ids, m, ItemScope, OwnDiscounts(lines, m));
      forall row | row in last ensures IsRow(invoiceId, ids, lines, order, row) {
        var k :| 0 <= k < |last| && last[k] == row;
        assert row == RowOf(invoiceId, ids, lines, order, m, k);
      }
      forall k: nat | k < |last| ensures RowOf(invoiceId, ids, lines, order, m, k) in last {
        assert last[k] == RowOf(invoiceId, ids, lines, order, m, k);
      }
    }
  }

  lemma AllRowsAre(invoiceId: Id, ids: Ids, lines: seq<LineInput>, order: seq<Discount>)
    ensures forall row :: row in AllRows(invoiceId, ids, lines, order) ==> IsRow(invoiceId, ids, lines, order, row)
    ensures forall i: nat, k: nat :: (if i < |lines| then k < |OwnDiscounts(lines, i)| else i == |lines| && k < |order|) ==>
              RowOf(invoiceId, ids, lines, order, i, k) in AllRows(invoiceId, ids, lines, order)
  {
    hide OwnDiscounts, ItemRows;
    ItemRowsAre(invoiceId, ids, lines, order, |lines|);
    var last := DiscountRows(invoiceId, ids, |lines|, OrderScope, order);
    forall row | row in last ensures IsRow(invoiceId, ids, lines, order, row) {
      var k :| 0 <= k < |last| && last[k] == row;
      assert row == RowOf(invoiceId, ids, lines, order, |lines|, k);
    }
    forall k: nat | k < |order| ensures RowOf(invoiceId, ids, lines, order, |lines|, k) in last {
      assert last[k] == RowOf(invoiceId, ids, lines, order, |lines|, k);
    }
  }

  lemma RowFound(invoiceId: Id, ids: Ids, lines: seq<LineInput>, order: seq<Discount>, i: nat, k: nat)
    requires DistinctDraws(ids) && if i < |lines| then k < |OwnDiscounts(lines, i)| else i == |lines| && k < |order|
    ensures DiscountById(AllRows(invoiceId, ids, lines, order), ids.discount(i, k)) == Some(RowOf(invoiceId, ids, lines, order, i, k))
  {
    hide OwnDiscounts, AllRows, DiscountById;
    AllRowsAre(invoiceId, ids, lines, order);
    var rows, row := AllRows(invoiceId, ids, lines, order), RowOf(invoiceId, ids, lines, order, i, k);
    forall other | other in rows && other.id == row.id ensures other == row {
      assert IsRow(invoiceId, ids, lines, order, other);
    }
    FoundById(rows, row);
  }

  lemma NoOrder()
    ensures OrderDiscounts([]) == []
  {
  }

  lemma {:induction false} ItemRowsNoOrder(invoiceId: Id, ids: Ids, lines: seq<LineInput>, n: nat)
    requires n <= |lines|
    ensures OrderDiscounts(ItemRows(invoiceId, ids, lines, n)) == []
  {
    hide OwnDiscounts, OrderDiscounts, DiscountRows;
    assert OrderDiscounts([]) == [] by { NoOrder(); }
    if n > 0 {
      ItemRowsNoOrder(invoiceId, ids, lines, n - 1);
      OrderConcat(ItemRows(invoiceId, ids, lines, n - 1), DiscountRows(invoiceId, ids, n - 1, ItemScope, OwnDiscounts(lines, n - 1)));
      OfScope(invoiceId, ids, n - 1, ItemScope, OwnDiscounts(lines, n - 1));
    }
  }

  lemma {:induction false} OfScope(invoiceId: Id, ids: Ids, at: nat, scope: DiscountScope, discounts: seq<Discount>)
    ensures OrderDiscounts(DiscountRows(invoiceId, ids, at, scope, discounts)) == if scope.OrderScope? then discounts else []
  {
    if discounts != [] {
      var n := |discounts| - 1;
      OfScope(invoiceId, ids, at, scope, discounts[..n]);
      assert DiscountRows(invoiceId, ids, at, scope, discounts)[..n] == DiscountRows(invoiceId, ids, at, scope, discounts[..n]);
    }
  }

  /** The order's discounts are read back. */
  lemma OrderReadBack(invoiceId: Id, ids: Ids, lines: seq<LineInput>, order: seq<Discount>)
    ensures OrderDiscounts(AllRows(invoiceId, ids, lines, order)) == order
  {
    hide OrderDiscounts, ItemRows, DiscountRows;
    OrderConcat(ItemRows(invoiceId, ids, lines, |lines|), DiscountRows(invoiceId, ids, |lines|, OrderScope, order));
    ItemRowsNoOrder(invoiceId, ids, lines, |lines|);
    OfScope(invoiceId, ids, |lines|, OrderScope, order);
  }

  lemma {:induction false} LineReadBack(
    invoiceId: Id, ids: Ids, lines: seq<LineInput>, order: seq<Discount>, at: nat, lineId: Id, count: nat, line: Id)
    requires DistinctDraws(ids) && at < |lines| && count <= |OwnDiscounts(lines, at)|
    ensures ItemDiscountsOf(AllRows(invoiceId, ids, lines, order), LineAllocations(ids, at, lineId, count), line)
         == if lineId == line then OwnDiscounts(lines, at)[..count] else []
  {
    hide OwnDiscounts, AllRows, DiscountById, DistinctDraws;
    if count > 0 {
      LineReadBack(invoiceId, ids, lines, order, at, lineId, count - 1, line);
      assert LineAllocations(ids, at, lineId, count)[..count - 1] == LineAllocations(ids, at, lineId, count - 1);
      RowFound(invoiceId, ids, lines, order, at, count - 1);
    }
  }

  lemma {:induction false} OwnReadBack(
    invoiceId: Id, ids: Ids, goods: seq<Good>, lines: seq<LineInput>, order: seq<Discount>, n: nat, i: nat)
    requires DistinctDraws(ids) && DistinctGoods(goods) && n <= |lines| == |goods| && i < |lines|
    ensures ItemDiscountsOf(AllRows(invoiceId, ids, lines, order), ItemAllocations(ids, goods, lines, n), goods[i].id)
         == if i < n then OwnDiscounts(lines, i) else []
  {
    hide OwnDiscounts, AllRows, DistinctDraws, ItemDiscountsOf, LineAllocations;
    var rows := AllRows(invoiceId, ids, lines, order);
    if n > 0 {
      var count := |OwnDiscounts(lines, n - 1)|;
      OwnReadBack(invoiceId, ids, goods, lines, order, n - 1, i);
      DiscountsConcat(rows, ItemAllocations(ids, goods, lines, n - 1), LineAllocations(ids, n - 1, goods[n - 1].id, count), goods[i].id);
      LineReadBack(invoiceId, ids, lines, order, n - 1, goods[n - 1].id, count, goods[i].id);
      assert OwnDiscounts(lines, n - 1)[..count] == OwnDiscounts(lines, n - 1);
      if i != n - 1 { assert goods[i].id != goods[n - 1].id; }
    } else {
      NoneAllocated(rows, goods[i].id);
    }
  }

  lemma NoneAllocated(rows: seq<DiscountRow>, line: Id)
    ensures ItemDiscountsOf(rows, [], line) == []
  {
  }

  /** An order discount's allocations make it no line's own. */
  lemma {:induction false} PartsReadBack(
    invoiceId: Id, ids: Ids, goods: seq<Good>, lines: seq<LineInput>, order: seq<Discount>, k: nat, parts: seq<int>, n: nat, line: Id)
    requires DistinctDraws(ids) && |lines| == |goods| && k < |order| && n <= |parts| == |goods|
    ensures ItemDiscountsOf(AllRows(invoiceId, ids, lines, order), PartAllocations(ids, goods, k, parts, n), line) == []
  {
    hide AllRows, DistinctDraws, DiscountById, OwnDiscounts;
    if n > 0 {
      PartsReadBack(invoiceId, ids, goods, lines, order, k, parts, n - 1, line);
      RowFound(invoiceId, ids, lines, order, |lines|, k);
      var before, all := PartAllocations(ids, goods, k, parts, n - 1), PartAllocations(ids, goods, k, parts, n);
      if parts[n - 1] > 0 { assert all[..|all| - 1] == before; } else { assert all == before; }
    }
  }

  lemma {:induction false} OrderNotOwn(
    invoiceId: Id, ids: Ids, goods: seq<Good>, lines: seq<LineInput>, order: seq<Discount>, bases: seq<nat>, amounts: seq<int>, line: Id)
    requires DistinctDraws(ids) && |lines| == |goods| == |bases| && |amounts| <= |order|
    ensures ItemDiscountsOf(AllRows(invoiceId, ids, lines, order), OrderAllocations(ids, goods, bases, amounts), line) == []
  {
    hide AllRows, DistinctDraws, ItemDiscountsOf, PartAllocations, Allocation;
    var rows := AllRows(invoiceId, ids, lines, order);
    if amounts != [] {
      var k := |amounts| - 1;
      OrderNotOwn(invoiceId, ids, goods, lines, order, bases, amounts[..k], line);
      PartsReadBack(invoiceId, ids, goods, lines, order, k, Allocation(bases, amounts[k]), |goods|, line);
      DiscountsConcat(rows, OrderAllocations(ids, goods, bases, amounts[..k]), PartAllocations(ids, goods, k, Allocation(bases, amounts[k]), |goods|), line);
    } else {
      NoneAllocated(rows, line);
    }
  }

  // ----- The sale priced anew

  lemma WrittenSame(discounts: seq<Discount>, base: int)
    ensures DiscountAmounts(Written(discounts, base), base) == DiscountAmounts(discounts, base)
  {
    if base > 0 { assert RawAmounts(KeptAll(discounts), base) == RawAmounts(discounts, base); }
  }

  /** The lines read back: charged as they were, with the discounts that were written. */
  ghost predicate ReadAs(lines: seq<LineInput>, read: seq<LineInput>) {
    |read| == |lines| && forall i :: 0 <= i < |lines| ==> read[i] == lines[i].(discounts := OwnDiscounts(lines, i))
  }

  lemma PricedSame(line: LineInput, orderDiscount: int, interState: bool)
    ensures var read := line.(discounts := Written(line.discounts, Base(line)));
            BaseAfterItem(read) == BaseAfterItem(line) && Priced(read, orderDiscount, interState) == Priced(line, orderDiscount, interState)
  {
    hide DiscountAmounts, Sum, Written, LineTax, SplitGst, ExclusiveBase;
    WrittenSame(line.discounts, Base(line));
    assert Gross(line.(discounts := Written(line.discounts, Base(line)))) == Gross(line);
  }

  lemma SalePricedSame(lines: seq<LineInput>, read: seq<LineInput>, order: seq<Discount>, interState: bool)
    requires ReadAs(lines, read)
    ensures Bases(read) == Bases(lines)
    ensures var amounts := DiscountAmounts(order, Sum(Bases(lines)));
            DiscountAmounts(Written(order, Sum(Bases(lines))), Sum(Bases(read))) == amounts && PricedLines(read, amounts, interState) == PricedLines(lines, amounts, interState)
  {
    hide DiscountAmounts, Sum, Written, Priced, SaleTotals.Parts, Base, BaseAfterItem;
    forall i | 0 <= i < |lines| ensures BaseAfterItem(read[i]) == BaseAfterItem(lines[i]) { PricedSame(lines[i], 0, interState); }
    assert Bases(read) == Bases(lines);
    var amounts := DiscountAmounts(order, Sum(Bases(lines)));
    WrittenSame(order, Sum(Bases(lines)));
    forall i | 0 <= i < |lines| ensures PricedLines(read, amounts, interState)[i] == PricedLines(lines, amounts, interState)[i] {
      PricedSame(lines[i], Sum(SaleTotals.Parts(Bases(lines), amounts, i)), interState);
    }
  }

  lemma ChargedTwice(lines: seq<LineInput>)
    ensures ChargedLines(lines, true) == lines
  {
  }

  lemma InputsReadBack(entry: InvoiceEntry, goods: seq<Good>, lines: seq<LineInput>, chargeTax: bool, priced: seq<PricedLine>)
    requires |goods| == |priced| && lines == ChargedLines(LinesOf(goods), chargeTax)
    requires entry.lines == LineRows(entry.invoice.id, goods, chargeTax, priced)
    requires forall i :: 0 <= i < |goods| ==> ItemDiscountsOf(entry.discounts, entry.allocations, goods[i].id) == OwnDiscounts(lines, i)
    ensures ReadAs(lines, Inputs(entry.lines, entry.discounts, entry.allocations))
  {
    hide OwnDiscounts, ItemDiscountsOf;
  }

  lemma DiscountsReadBack(
    invoiceId: Id, ids: Ids, goods: seq<Good>, lines: seq<LineInput>, order: seq<Discount>, bases: seq<nat>, amounts: seq<int>, i: nat)
    requires DistinctDraws(ids) && DistinctGoods(goods) && |lines| == |goods| == |bases| && |amounts| <= |order| && i < |goods|
    ensures ItemDiscountsOf(AllRows(invoiceId, ids, lines, order),
              ItemAllocations(ids, goods, lines, |lines|) + OrderAllocations(ids, goods, bases, amounts), goods[i].id) == OwnDiscounts(lines, i)
  {
    hide AllRows, ItemDiscountsOf, OwnDiscounts, ItemAllocations, OrderAllocations;
    var rows := AllRows(invoiceId, ids, lines, order);
    DiscountsConcat(rows, ItemAllocations(ids, goods, lines, |lines|), OrderAllocations(ids, goods, bases, amounts), goods[i].id);
    OwnReadBack(invoiceId, ids, goods, lines, order, |lines|, i);
    OrderNotOwn(invoiceId, ids, goods, lines, order, bases, amounts, goods[i].id);
  }

  ghost predicate StatesDiffer(invoice: InvoiceRow) {
    invoice.sellerState != "" && invoice.placeOfSupply != "" && invoice.sellerState != invoice.placeOfSupply
  }

  /** Priced anew from its rows, a bill comes to the sale it was written from, before its total was rounded. */
  lemma BillReadBack(
    head: InvoiceRow, goods: seq<Good>, orderDiscounts: seq<Discount>, chargeTax: bool, roundOff: RoundOffMode,
    ids: Ids, payments: seq<PaymentRow>, receipts: seq<ReceiptRow>, ledger: seq<LedgerRow>)
    requires DistinctDraws(ids) && DistinctGoods(goods)
    ensures var interState := StatesDiffer(head);
            var sale := ComputeSaleTotals(LinesOf(goods), orderDiscounts, chargeTax, interState, roundOff);
            Anew(BillOf(head, goods, orderDiscounts, chargeTax, interState, roundOff, ids, payments, receipts, ledger))
              == sale.(roundOff := 0, grandTotal := sale.netTotal)
  {
    hide ItemRows, DiscountRows, ItemAllocations, OrderAllocations, Written, DiscountAmounts, Sum, PricedLines, Bases, Total, ItemDiscountsOf,
      OrderDiscounts, OwnDiscounts, LineRows, ChargedLines, DistinctDraws, RoundOffFor;
    var interState := StatesDiffer(head);
    var entry := BillOf(head, goods, orderDiscounts, chargeTax, interState, roundOff, ids, payments, receipts, ledger);
    var lines := ChargedLines(LinesOf(goods), chargeTax);
    var bases := Bases(lines);
    var amounts, order := DiscountAmounts(orderDiscounts, Sum(bases)), Written(orderDiscounts, Sum(bases));
    assert entry.discounts == AllRows(head.id, ids, lines, order);
    WrittenAsMany(orderDiscounts, Sum(bases));
    forall i | 0 <= i < |goods| ensures ItemDiscountsOf(entry.discounts, entry.allocations, goods[i].id) == OwnDiscounts(lines, i) {
      DiscountsReadBack(head.id, ids, goods, lines, order, bases, amounts, i);
    }
    InputsReadBack(entry, goods, lines, chargeTax, PricedLines(lines, amounts, interState));
    OrderReadBack(head.id, ids, lines, order);
    var read := Inputs(entry.lines, entry.discounts, entry.allocations);
    SalePricedSame(lines, read, orderDiscounts, interState);
    ChargedTwice(read);
  }

  lemma WrittenAsMany(discounts: seq<Discount>, base: int)
    ensures |Written(discounts, base)| == |DiscountAmounts(discounts, base)|
  {
  }

  // ----- Nothing is wrong with it

  lemma LineStoredAs(invoiceId: Id, good: Good, chargeTax: bool, interState: bool, orderDiscount: int)
    ensures var p := Priced(Charged(good.line, chargeTax), orderDiscount, interState);
            LineStored(LineRow(invoiceId, good, chargeTax, p), p)
  {
    hide Base, ItemDiscount, Gross, LineTax;
  }

  lemma {:induction false} ColumnAs(rows: seq<SaleLineRow>, priced: seq<PricedLine>, f: SaleLineRow -> int, g: PricedLine -> int)
    requires |rows| == |priced| && forall i :: 0 <= i < |rows| ==> f(rows[i]) == g(priced[i])
    ensures Column(rows, f) == Total(priced, g)
  {
    if rows != [] {
      var n := |rows| - 1;
      ColumnAs(rows[..n], priced[..n], f, g);
      TotalStep(priced, g);
    } else {
      NoTotal(g);
    }
  }

  lemma NoTotal(g: PricedLine -> int)
    ensures Total([], g) == 0
  {
  }

  lemma ColumnsAs(invoiceId: Id, goods: seq<Good>, chargeTax: bool, priced: seq<PricedLine>)
    requires |goods| == |priced|
    ensures var rows := LineRows(invoiceId, goods, chargeTax, priced);
            && Column(rows, (row: SaleLineRow) => row.tax) == Total(priced, OF_TAX)
            && Column(rows, (row: SaleLineRow) => row.cgst) == Total(priced, OF_CGST)
            && Column(rows, (row: SaleLineRow) => row.sgst) == Total(priced, OF_SGST)
            && Column(rows, (row: SaleLineRow) => row.igst) == Total(priced, OF_IGST)
            && Column(rows, (row: SaleLineRow) => row.net) == Total(priced, OF_NET)
            && Column(rows, (row: SaleLineRow) => row.discount) == Total(priced, OF_DISCOUNT)
  {
    hide Column, Total;
    var rows := LineRows(invoiceId, goods, chargeTax, priced);
    ColumnAs(rows, priced, (row: SaleLineRow) => row.tax, OF_TAX);
    ColumnAs(rows, priced, (row: SaleLineRow) => row.cgst, OF_CGST);
    ColumnAs(rows, priced, (row: SaleLineRow) => row.sgst, OF_SGST);
    ColumnAs(rows, priced, (row: SaleLineRow) => row.igst, OF_IGST);
    ColumnAs(rows, priced, (row: SaleLineRow) => row.net, OF_NET);
    ColumnAs(rows, priced, (row: SaleLineRow) => row.discount, OF_DISCOUNT);
  }

  lemma TotalsStoredAs(
    head: InvoiceRow, goods: seq<Good>, orderDiscounts: seq<Discount>, chargeTax: bool, interState: bool, roundOff: RoundOffMode,
    ids: Ids, payments: seq<PaymentRow>, receipts: seq<ReceiptRow>, ledger: seq<LedgerRow>)
    ensures var entry := BillOf(head, goods, orderDiscounts, chargeTax, interState, roundOff, ids, payments, receipts, ledger);
            var sale := ComputeSaleTotals(LinesOf(goods), orderDiscounts, chargeTax, interState, roundOff);
            TotalsStored(entry.invoice, entry.lines, sale)
  {
    hide ItemRows, DiscountRows, ItemAllocations, OrderAllocations, Written, DiscountAmounts, Sum, PricedLines, Bases, Total, LineRows,
      ChargedLines, RoundOffFor, Column;
    var sale := ComputeSaleTotals(LinesOf(goods), orderDiscounts, chargeTax, interState, roundOff);
    ColumnsAs(head.id, goods, chargeTax, sale.lines);
  }

  lemma AmountsStored(
    head: InvoiceRow, goods: seq<Good>, orderDiscounts: seq<Discount>, chargeTax: bool, roundOff: RoundOffMode,
    ids: Ids, payments: seq<PaymentRow>, receipts: seq<ReceiptRow>, ledger: seq<LedgerRow>)
    requires DistinctDraws(ids) && DistinctGoods(goods)
    ensures Stored(BillOf(head, goods, orderDiscounts, chargeTax, StatesDiffer(head), roundOff, ids, payments, receipts, ledger))
  {
    hide ItemRows, DiscountRows, ItemAllocations, OrderAllocations, Written, DiscountAmounts, Sum, Priced, Bases, Total, LineRow, LineStored,
      RoundOffFor, Column, Anew, DistinctDraws, ComputeSaleTotals;
    var interState := StatesDiffer(head);
    var entry := BillOf(head, goods, orderDiscounts, chargeTax, interState, roundOff, ids, payments, receipts, ledger);
    var sale := ComputeSaleTotals(LinesOf(goods), orderDiscounts, chargeTax, interState, roundOff);
    BillReadBack(head, goods, orderDiscounts, chargeTax, roundOff, ids, payments, receipts, ledger);
    TotalsStoredAs(head, goods, orderDiscounts, chargeTax, interState, roundOff, ids, payments, receipts, ledger);
    forall i | 0 <= i < |goods| ensures LineStored(entry.lines[i], sale.lines[i]) {
      LineOfSale(goods, orderDiscounts, chargeTax, interState, roundOff, i);
      var orderDiscount: int :| sale.lines[i] == Priced(Charged(goods[i].line, chargeTax), orderDiscount, interState);
      LineStoredAs(head.id, goods[i], chargeTax, interState, orderDiscount);
    }
  }

  lemma LineOfSale(
    goods: seq<Good>, orderDiscounts: seq<Discount>, chargeTax: bool, interState: bool, roundOff: RoundOffMode, i: nat)
    requires i < |goods|
    ensures exists orderDiscount: int ::
              ComputeSaleTotals(LinesOf(goods), orderDiscounts, chargeTax, interState, roundOff).lines[i]
                == Priced(Charged(goods[i].line, chargeTax), orderDiscount, interState)
  {
    hide Sum, DiscountAmounts, Priced, Bases, Total, RoundOffFor, SaleTotals.Parts;
    var charged := ChargedLines(LinesOf(goods), chargeTax);
    var amounts := DiscountAmounts(orderDiscounts, Sum(Bases(charged)));
    assert charged[i] == Charged(goods[i].line, chargeTax);
    assert PricedLines(charged, amounts, interState)[i] == Priced(charged[i], Sum(SaleTotals.Parts(Bases(charged), amounts, i)), interState);
  }

  /**
   * A bill as the till writes it is never refused for its lines, prices, tax or amounts: something is found wrong with it
   * if and only if its seller, discounts, payments, status or stock are not as the till keeps them.
   */
  lemma HonestBillPasses(
    head: InvoiceRow, goods: seq<Good>, orderDiscounts: seq<Discount>, roundOff: RoundOffMode,
    ids: Ids, payments: seq<PaymentRow>, receipts: seq<ReceiptRow>, ledger: seq<LedgerRow>, percent: Option<int>)
    requires DistinctDraws(ids) && DistinctGoods(goods) && goods != []
    requires forall i :: 0 <= i < |goods| ==>
               goods[i].line.qty > 0 && (goods[i].listRate.Some? ==> goods[i].line.rate <= goods[i].listRate.value)
    ensures var entry := BillOf(head, goods, orderDiscounts, head.taxpayerType.Regular?, StatesDiffer(head), roundOff, ids, payments, receipts, ledger);
            InvoiceProblems(entry, percent) == [] <==>
              && DocumentFits(entry.invoice) && GstinFits(entry.invoice) && DiscountAllowed(entry, percent)
              && PaidHere(entry) && PaidRight(entry) && StatusRight(entry.invoice) && StockRight(entry)
  {
    hide ItemRows, DiscountRows, ItemAllocations, OrderAllocations, Written, DiscountAmounts, Sum, ComputeSaleTotals, Bases,
      InvoiceProblems, Stored, DocumentFits, GstinFits, DiscountAllowed, PaidHere, PaidRight, StatusRight, StockRight, AmountsFound, RestFound,
      DistinctDraws;
    var chargeTax := head.taxpayerType.Regular?;
    var entry := BillOf(head, goods, orderDiscounts, chargeTax, StatesDiffer(head), roundOff, ids, payments, receipts, ledger);
    AmountsStored(head, goods, orderDiscounts, chargeTax, roundOff, ids, payments, receipts, ledger);
    ProblemsFound(entry, percent);
    RowsArePossible(head, goods, orderDiscounts, chargeTax, StatesDiffer(head), roundOff, ids, payments, receipts, ledger);
  }

  lemma RowsArePossible(
    head: InvoiceRow, goods: seq<Good>, orderDiscounts: seq<Discount>, chargeTax: bool, interState: bool, roundOff: RoundOffMode,
    ids: Ids, payments: seq<PaymentRow>, receipts: seq<ReceiptRow>, ledger: seq<LedgerRow>)
    requires goods != [] && chargeTax == head.taxpayerType.Regular?
    requires forall i :: 0 <= i < |goods| ==>
               goods[i].line.qty > 0 && (goods[i].listRate.Some? ==> goods[i].line.rate <= goods[i].listRate.value)
    ensures var entry := BillOf(head, goods, orderDiscounts, chargeTax, interState, roundOff, ids, payments, receipts, ledger);
            Possible(entry) && MayCharge(entry) && WithinList(entry)
  {
    hide ItemRows, DiscountRows, ItemAllocations, OrderAllocations, Written, DiscountAmounts, Sum, Bases, ComputeSaleTotals, Priced;
    var entry := BillOf(head, goods, orderDiscounts, chargeTax, interState, roundOff, ids, payments, receipts, ledger);
    forall row | row in entry.lines
      ensures row.qty > 0 && row.rate >= 0 && row.taxRate >= 0 && (row.listRate.Some? ==> row.rate <= row.listRate.value)
      ensures !chargeTax ==> row.taxRate == 0 && row.tax == 0
    {
      var i :| 0 <= i < |entry.lines| && entry.lines[i] == row;
      LineOfSale(goods, orderDiscounts, chargeTax, interState, roundOff, i);
      UntaxedIsNone(goods, orderDiscounts, chargeTax, interState, roundOff, i);
    }
  }

  lemma UntaxedIsNone(
    goods: seq<Good>, orderDiscounts: seq<Discount>, chargeTax: bool, interState: bool, roundOff: RoundOffMode, i: nat)
    requires i < |goods|
    ensures !chargeTax ==> ComputeSaleTotals(LinesOf(goods), orderDiscounts, chargeTax, interState, roundOff).lines[i].tax == 0
  {
    hide ComputeSaleTotals, Base, ItemDiscount, Gross;
    LineOfSale(goods, orderDiscounts, chargeTax, interState, roundOff, i);
    var orderDiscount: int :| ComputeSaleTotals(LinesOf(goods), orderDiscounts, chargeTax, interState, roundOff).lines[i]
      == Priced(Charged(goods[i].line, chargeTax), orderDiscount, interState);
    RoundDivWhole(0, 10000);
  }
}
