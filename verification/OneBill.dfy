/**
 * Outboxes the server takes that show where a sync does less than it might: one bill, of one unit at 80 paise
 * rounded up to a rupee and paid in cash, and at most one return of it.
 */
module OneBill {
  import opened AcceptedOutbox
  import opened BatchesAfterSync
  import opened BatchShortfalls
  import opened Discounts
  import opened GrownLedger
  import opened GrownPlacing
  import opened GrownSync
  import opened OutboxRows
  import RegisterCash
  import opened ResentOutbox
  import opened ReturnsAfterSync
  import opened Rounding
  import opened SaleTotals
  import opened ServerTables
  import opened Sums
  import opened Sync
  import opened SyncChecks
  import opened Tables
  import VO = VerifyOutbox
  import VS = VerifySoundness

  const TILL := Counter(1, 1, "I", "R")
  const REGISTER := RegisterRow(1, 1, 1, 1, 0, 0, None, None, None, None)

  const UNIT := SaleLineRow(1, 1, 1, 1000, InBaseUnits, 80, None, 0, Exclusive, 0, 80, 0, 0, 0, 0, 80)
  const GOODS := LedgerRow(1, 1, 1, None, SaleTxn, 0, 1000, SaleTxn, 1, 0)
  const CASH := PaymentRow(1, 1, Some(1), Cash, 100)

  /** The bill, paid or still owed. */
  function Bill(paid: bool): (r: InvoiceRow) {
    InvoiceRow(1, 1, "I", "I/1", 1, 1, 0, Unregistered, PlainInvoice, NoGstin, "", "", if paid then Settled else Draft,
      80, 0, 0, 0, 0, 0, 0, 20, 100, if paid then 100 else 0, 0)
  }

  const SALE := InvoiceEntry(Bill(true), [UNIT], [], [], [CASH], [], [GOODS])

  /** A return of it, and the line it gives back. */
  function Return(id: Id, no: string): (r: ReturnRow) { ReturnRow(id, 1, no, "R", Some(1), 1, 100, 20, 0, 100, Cash) }
  function Given(id: Id): (r: ReturnLineRow) { ReturnLineRow(id, id, 1, 1000, 80, 80, 0, 0, 0) }
  function Reversed(ledger: seq<LedgerRow>): (r: ReturnEntry) { ReturnEntry(Return(8, "R/1"), [Given(8)], ledger) }

  const BACK := LedgerRow(8, 1, 1, None, ReturnTxn, 1000, 0, ReturnTxn, 8, 1)

  function Sent(givenBack: seq<ReturnEntry>): (r: Outbox) { Outbox("1", [REGISTER], [SALE], [], 0, [], givenBack) }

  const CATALOG := Catalog("1", false, 10, {1}, map[1 := BatchInfo(1, None), 2 := BatchInfo(1, None)], map[1 := true], (at: Instant) => 0, map[])
  const PEOPLE := People(map[1 := CustomerRow(1, 1, true, false, "Walk-in", None)], map[], map[], map[])
  const NOTHING := Documents(map[], map[], map[], map[], map[], map[], map[], map[])

  function With(d: Documents, ledger: map<Id, LedgerRow>): (r: Server) {
    Server(CATALOG, d, Stock(ledger, map[], map[]), map[], map[1 := REGISTER], PEOPLE, Numbers(map[], map[]))
  }

  // ----- The money check

  lemma Priced1()
    ensures var line := LineInput(1000, InBaseUnits, 80, 0, Exclusive, []);
            Gross(line) == Base(line) == 80 && ItemDiscount(line) == 0 && BaseAfterItem(line) == 80
            && Priced(line, 0, false) == PricedLine(80, 80, 0, 0, 80, 0, Gst(0, 0, 0))
  {
    assert RawAmounts([], 80) == [];
    assert RoundDiv(0, 10000) == 0;
  }

  lemma Totals1()
    ensures var sale := VO.Recompute(SALE);
            && sale.lines == [PricedLine(80, 80, 0, 0, 80, 0, Gst(0, 0, 0))]
            && sale.subTotal == 80 && sale.discountTotal == 0 && sale.orderDiscountTotal == 0 && sale.taxTotal == 0
            && sale.cgstTotal == 0 && sale.sgstTotal == 0 && sale.igstTotal == 0 && sale.grandTotal == 80
  {
    hide Priced, BaseAfterItem, Sum, DiscountAmounts, Total;
    var line := LineInput(1000, InBaseUnits, 80, 0, Exclusive, []);
    Priced1();
    assert VO.Inputs(SALE.lines, SALE.discounts, SALE.allocations) == [line];
    assert VO.OrderDiscounts([]) == [];
    NoDiscounts(80);
    Single(80);
    assert ChargedLines([line], true) == [line] && Bases([line]) == [80];
    assert PricedLines([line], [], false) == [PricedLine(80, 80, 0, 0, 80, 0, Gst(0, 0, 0))] by { assert Parts([80], [], 0) == []; NoneSum(); }
    TotalsOf(PricedLine(80, 80, 0, 0, 80, 0, Gst(0, 0, 0)));
  }

  lemma NoneSum()
    ensures Sum([]) == 0
  {
  }

  lemma NoDiscounts(base: nat)
    ensures DiscountAmounts([], base) == []
  {
    assert RawAmounts([], base) == [];
  }

  lemma Single(x: int)
    ensures Sum([x]) == x
  {
    assert [x][..0] == [];
  }

  lemma TotalsOf(line: PricedLine)
    ensures forall f: PricedLine -> int :: Total([line], f) == f(line)
  {
    forall f: PricedLine -> int ensures Total([line], f) == f(line) {
      assert seq(1, i requires 0 <= i < 1 => f([line][i])) == [f(line)];
      Single(f(line));
    }
  }

  lemma LineSumOf(line: SaleLineRow)
    ensures forall f: SaleLineRow -> int :: VO.LineSum([line], f) == f(line)
  {
    forall f: SaleLineRow -> int ensures VO.LineSum([line], f) == f(line) {
      assert seq(1, i requires 0 <= i < 1 => f([line][i])) == [f(line)];
      Single(f(line));
    }
  }

  lemma AmountsFine()
    ensures VO.AmountsAgree(SALE.invoice, SALE.lines, VO.Recompute(SALE))
  {
    hide VO.Recompute, VO.LineSum;
    Totals1();
    LineSumOf(UNIT);
    assert VO.TotalsAreItsLines(SALE.invoice, SALE.lines);
    assert VO.LineAgrees(UNIT, VO.Recompute(SALE).lines[0]);
  }

  lemma StockFine()
    ensures VO.StockMatches(SALE.ledger, SALE.lines)
  {
    assert [GOODS][..0] == [] && [UNIT][..0] == [];
    assert VO.OutByItem([]) == map[] && VO.SoldByItem([]) == map[];
    assert VO.OutByItem([GOODS]) == map[1 := 1000];
    assert VO.SoldByItem([UNIT]) == VO.AddQty(VO.SoldByItem([UNIT][..0]), 1, 1000);
    assert VO.SoldByItem([UNIT]) == map[1 := 1000];
  }

  lemma PaymentFine()
    ensures VO.PaymentProblems(SALE.invoice, SALE.payments) == []
  {
    assert [CASH][..0] == [];
    assert VO.PaidBy([CASH]) == 100;
  }

  /** Nothing is wrong with the bill. */
  lemma SaleFine()
    ensures VO.InvoiceProblems(SALE, None) == []
  {
    hide VO.Recompute, VO.AmountsAgree, VO.StockMatches, VO.PaymentProblems, VO.ListTotal, Total;
    AmountsFine();
    StockFine();
    PaymentFine();
    assert !VO.ImpossibleRow(UNIT);
  }

  const NO_CONTEXT := VO.OutboxContext(map[], map[], map[], map[])

  lemma RowFine()
    ensures var sold := map[1 := VO.SoldOf(UNIT)];
            VO.CheckRow(sold, VO.LineCheck(map[], true, []), Given(8)) == VO.LineCheck(map[1 := VO.Parts(1000, 80, 0, 0, 0)], true, [])
  {
    var sold := map[1 := VO.SoldOf(UNIT)];
    assert VO.RowOk(sold, Given(8));
    assert VO.PartsAt(map[], 1).Plus(VO.PartsOf(Given(8))) == VO.Parts(1000, 80, 0, 0, 0);
  }

  lemma BackFine()
    ensures VO.BackByItem(map[1 := VO.SoldOf(UNIT)], [Given(8)]) == map[1 := 1000] && VO.AmountOf([Given(8)]) == 80
  {
    var sold := map[1 := VO.SoldOf(UNIT)];
    assert [Given(8)][..0] == [];
    assert VO.BackByItem(sold, []) == map[] && VO.AmountOf([]) == 0;
    assert VO.BackByItem(sold, [Given(8)]) == VO.AddQty(map[], 1, 1000);
  }

  lemma RowsFine()
    ensures var sold := map[1 := VO.SoldOf(UNIT)];
            && VO.CheckRows(sold, map[], [Given(8)]).ok && VO.CheckRows(sold, map[], [Given(8)]).problems == []
            && VO.BackByItem(sold, [Given(8)]) == map[1 := 1000] && VO.AmountOf([Given(8)]) == 80
  {
    hide VO.CheckRows, VO.CheckRow, VO.SoldOf, VO.BackByItem, VO.AmountOf;
    var sold := map[1 := VO.SoldOf(UNIT)];
    assert [Given(8)][..0] == [];
    VS.RowsStep(sold, map[], [], 1);
    VS.RowsStep(sold, map[], [Given(8)], 1);
    RowFine();
    BackFine();
  }

  lemma ReturnFine(ledger: seq<LedgerRow>)
    requires VO.OnlyReturns(ledger) && VO.InByItem(ledger) == map[1 := 1000]
    ensures VO.CheckReturns(map[1 := VO.SoldOf(UNIT)], VO.ReturnCheck(map[], map[1 := VO.BillRounding(20, 0)], []), [Reversed(ledger)]).conflicts == []
  {
    hide VO.CheckRows, VO.BackByItem, VO.AmountOf, VO.InByItem, VO.OnlyReturns, VO.SoldOf;
    var entry, sold := Reversed(ledger), map[1 := VO.SoldOf(UNIT)];
    var start := VO.ReturnCheck(map[], map[1 := VO.BillRounding(20, 0)], []);
    RowsFine();
    NextReturn(sold, start, [], [entry], entry);
    VS.NoReturns(sold, start);
  }

  lemma NothingWrong(givenBack: seq<ReturnEntry>)
    requires givenBack == [] || (|givenBack| == 1 && givenBack[0] == Reversed(givenBack[0].ledger)
                                 && VO.OnlyReturns(givenBack[0].ledger) && VO.InByItem(givenBack[0].ledger) == map[1 := 1000])
    ensures VO.Conflicts(NO_CONTEXT, [SALE], givenBack) == []
  {
    hide VO.InvoiceProblems, VO.CheckReturn;
    SaleFine();
    assert [SALE][..0] == [] && [UNIT][..0] == [];
    assert VO.AddLines(map[], []) == map[] && VO.SoldLines(map[], []) == map[];
    assert VO.AddLines(map[], [UNIT]) == VO.AddLines(map[], [UNIT][..0])[1 := VO.SoldOf(UNIT)];
    assert VO.SoldLines(map[], [SALE]) == VO.AddLines(VO.SoldLines(map[], [SALE][..0]), SALE.lines);
    assert VO.SoldLines(map[], [SALE]) == map[1 := VO.SoldOf(UNIT)];
    assert VO.StartRounding(map[], [SALE]) == map[1 := VO.BillRounding(20, 0)];
    assert VO.InvoiceConflicts(NO_CONTEXT, []) == [];
    if givenBack != [] {
      assert givenBack == [Reversed(givenBack[0].ledger)];
      ReturnFine(givenBack[0].ledger);
    }
  }

  // ----- Nothing else stops it

  /** A ledger of the return: its own rows, of batches of the item. */
  ghost predicate OwnLedger(ledger: seq<LedgerRow>) {
    && VO.OnlyReturns(ledger) && VO.InByItem(ledger) == map[1 := 1000]
    && forall row :: row in ledger ==>
         && row.branchId == 1 && row.referenceId == 8 && row.referenceType.ReturnTxn? && row.txnType.ReturnTxn? && row.itemId == 1
         && (row.batchId.Some? ==> row.batchId.value == 1 || row.batchId.value == 2)
  }

  ghost predicate MaySend(givenBack: seq<ReturnEntry>) {
    givenBack == [] || exists ledger :: OwnLedger(ledger) && givenBack == [Reversed(ledger)]
  }

  lemma IsOwned(givenBack: seq<ReturnEntry>)
    requires MaySend(givenBack)
    ensures Owned(TILL, Sent(givenBack))
  {
    hide VO.OnlyReturns, VO.InByItem;
    assert IdsOf([REGISTER]) == {1};
    assert OwnInvoice(TILL, {1}, SALE);
    if givenBack != [] {
      var ledger :| OwnLedger(ledger) && givenBack == [Reversed(ledger)];
      assert OwnReturn(TILL, {1}, Reversed(ledger));
    }
  }

  lemma NoneServerBills(givenBack: seq<ReturnEntry>)
    requires MaySend(givenBack)
    ensures ServerBills(Sent(givenBack)) == {} && BillIds([SALE]) == {1}
  {
    hide OwnLedger;
    assert BillIds([SALE]) == {1};
    if givenBack != [] {
      var ledger :| OwnLedger(ledger) && givenBack == [Reversed(ledger)];
      assert ServerBills(Sent(givenBack)) == {};
    }
  }

  lemma {:induction false} NoCuts(ctx: BatchContext, rows: seq<LedgerRow>)
    requires forall row :: row in rows ==> !TakesOut(row)
    ensures PlaceRows(ctx, rows).replaced == map[]
  {
    if rows != [] {
      var n := |rows| - 1;
      assert rows == rows[..n] + [rows[n]];
      NoCuts(ctx, rows[..n]);
      assert rows[n] in rows;
    }
  }

  lemma MovementsAre(givenBack: seq<ReturnEntry>, row: LedgerRow)
    requires MaySend(givenBack) && row in Movements([SALE], givenBack)
    ensures row == GOODS || (givenBack != [] && row in givenBack[0].ledger && OwnLedger(givenBack[0].ledger))
  {
    hide OwnLedger;
    assert [SALE][..0] == [] && InvoiceMovements([]) == [];
    assert InvoiceMovements([SALE]) == [GOODS];
    if givenBack != [] { assert givenBack[..0] == [] && ReturnMovements([]) == []; }
  }

  lemma PreparedAs(d: Documents, ledger: map<Id, LedgerRow>, givenBack: seq<ReturnEntry>, newId: Id -> Id)
    requires MaySend(givenBack)
    ensures var p := Prepare(With(d, ledger), TILL, Sent(givenBack), newId);
            p.created == [] && p.invoices == [SALE] && p.givenBack == givenBack
    ensures PlaceCustomers(With(d, ledger), TILL, []) == Placed(map[], [])
  {
    hide PlaceRows, Ordered, Movements, MaySend;
    var s, o := With(d, ledger), Sent(givenBack);
    var ctx := ContextOf(s, newId);
    forall row | row in Ordered(ctx, o.invoices, o.givenBack) ensures !TakesOut(row) {
      OrderedRows(ctx, o.invoices, o.givenBack, row);
      MovementsAre(givenBack, row);
    }
    NoCuts(ctx, Ordered(ctx, o.invoices, o.givenBack));
    NothingCut([SALE], givenBack);
    assert WithCustomers([SALE], map[]) == [SALE];
  }

  lemma NoContext(d: Documents, ledger: map<Id, LedgerRow>, givenBack: seq<ReturnEntry>)
    requires MaySend(givenBack)
    ensures VerificationContext(With(d, ledger), Sent(givenBack)) == NO_CONTEXT
  {
    hide TakenByOthers, RoundingOf, TableTotal, MaySend, VO.SoldOf;
    NoneServerBills(givenBack);
    assert Sellers([SALE]) == {1};
  }

  lemma NoneNew(d: Documents, givenBack: seq<ReturnEntry>)
    requires MaySend(givenBack)
    ensures NewReturns(d, {1}, givenBack) == []
  {
    if givenBack != [] { assert givenBack[..0] == []; }
  }

  lemma NoReturnClashesHere(d: Documents, givenBack: seq<ReturnEntry>)
    requires MaySend(givenBack)
    ensures ReturnClashes(d, Sent(givenBack)) == {}
  {
    hide MaySend, NewReturns;
    NoneServerBills(givenBack);
    NoneNew(d, givenBack);
    assert BillsOf([]) == {};
  }

  lemma NoBatchClashesHere(d: Documents, ledger: map<Id, LedgerRow>, givenBack: seq<ReturnEntry>)
    requires MaySend(givenBack)
    ensures BatchClashes(With(d, ledger), Movements([SALE], givenBack)) == {}
  {
    hide Movements, MaySend, VO.OnlyReturns, VO.InByItem;
    forall row | row in Movements([SALE], givenBack) && row.batchId.Some?
      ensures OfRightBatch(CATALOG, row) && !Expired(CATALOG, row)
    {
      MovementsAre(givenBack, row);
    }
  }

  lemma NoneMissing(d: Documents, ledger: map<Id, LedgerRow>, givenBack: seq<ReturnEntry>)
    ensures MissingClashes(With(d, ledger), Sent(givenBack), [SALE], {}) == {}
  {
    assert [SALE][..0] == [] && Flat([], LINES) == [];
    assert Flat([SALE], LINES) == [UNIT];
  }

  /** Documents on the server that nothing sent clashes with: at most the bill itself, and returns under other numbers. */
  ghost predicate Fits(d: Documents) {
    && d.invoices.Keys <= {1} && d.receipts == map[]
    && (forall id :: id in d.givenBack ==> id != 8 && d.givenBack[id].returnNo != "R/1")
    && (forall a, b :: a in d.givenBack && b in d.givenBack && a != b ==> d.givenBack[a].returnNo != d.givenBack[b].returnNo)
  }

  lemma NoNumbersUsed(d: Documents, givenBack: seq<ReturnEntry>)
    requires MaySend(givenBack) && Fits(d)
    ensures NumberClashes(d, Sent(givenBack)) == {}
  {
    hide OwnLedger;
    NoneServerBills(givenBack);
    assert [SALE][..0] == [] && Flat([], RECEIPTS) == [];
    assert Flat([SALE], RECEIPTS) == [];
    if givenBack != [] {
      var ledger :| OwnLedger(ledger) && givenBack == [Reversed(ledger)];
      assert ReturnNos(givenBack) == {"R/1"};
    } else {
      assert ReturnNos(givenBack) == {};
    }
  }

  /** The documents afterwards. */
  lemma DocumentsAfter(d: Documents, ledger: map<Id, LedgerRow>, givenBack: seq<ReturnEntry>, newId: Id -> Id)
    requires MaySend(givenBack)
    ensures var after := Taken(With(d, ledger), TILL, Sent(givenBack), newId).documents;
            && after.invoices == map[1 := Bill(true)] + d.invoices
            && after.saleLines == map[1 := UNIT] + d.saleLines
            && after.payments == map[1 := CASH] + d.payments
            && after.receipts == d.receipts
            && after.givenBack == (if givenBack == [] then map[] else map[8 := Return(8, "R/1")]) + d.givenBack
            && after.returnLines == (if givenBack == [] then map[] else map[8 := Given(8)]) + d.returnLines
  {
    hide Taken, MaySend, Heads, ReturnHeads, Flat, ById, PlaceCustomers, Prepare;
    TakenDocuments(With(d, ledger), TILL, Sent(givenBack), newId);
    PreparedAs(d, ledger, givenBack, newId);
    assert WithCustomers([SALE], map[]) == [SALE];
    BillRows();
    ReturnRows(givenBack);
  }

  lemma BillRows()
    ensures ById(Heads([SALE]), INVOICE_ID) == map[1 := Bill(true)] && ById(Flat([SALE], LINES), SALE_LINE_ID) == map[1 := UNIT]
    ensures ById(Flat([SALE], PAYMENTS), PAYMENT_ID) == map[1 := CASH] && ById(Flat([SALE], RECEIPTS), RECEIPT_ID) == map[]
  {
    hide Flat, ById;
    assert Heads([SALE]) == [Bill(true)];
    FlatOne(SALE, LINES);
    FlatOne(SALE, PAYMENTS);
    FlatOne(SALE, RECEIPTS);
    ByIdOne(Bill(true), INVOICE_ID);
    ByIdOne(UNIT, SALE_LINE_ID);
    ByIdOne(CASH, PAYMENT_ID);
    ByIdNone(RECEIPT_ID);
  }

  lemma ReturnRows(givenBack: seq<ReturnEntry>)
    requires MaySend(givenBack)
    ensures ById(ReturnHeads(givenBack), RETURN_ID) == if givenBack == [] then map[] else map[8 := Return(8, "R/1")]
    ensures ById(Flat(givenBack, RETURN_LINES), RETURN_LINE_ID) == if givenBack == [] then map[] else map[8 := Given(8)]
  {
    hide OwnLedger, Flat, ById;
    if givenBack == [] {
      assert ReturnHeads([]) == [];
      FlatNone<ReturnEntry, ReturnLineRow>(RETURN_LINES);
      ByIdNone(RETURN_ID);
      ByIdNone(RETURN_LINE_ID);
    } else {
      var moved :| OwnLedger(moved) && givenBack == [Reversed(moved)];
      FlatOne(Reversed(moved), RETURN_LINES);
      assert ReturnHeads(givenBack) == [Return(8, "R/1")];
      ByIdOne(Return(8, "R/1"), RETURN_ID);
      ByIdOne(Given(8), RETURN_LINE_ID);
    }
  }

  lemma FlatNone<E, R>(of: E -> seq<R>)
    ensures Flat([], of) == []
  {
  }

  lemma ByIdNone<R>(idOf: R -> Id)
    ensures ById([], idOf) == map[]
  {
  }

  lemma FlatOne<E, R>(entry: E, of: E -> seq<R>)
    ensures Flat([entry], of) == of(entry)
  {
    assert [entry][..0] == [];
  }

  lemma ByIdOne<R>(row: R, idOf: R -> Id)
    ensures ById([row], idOf) == map[idOf(row) := row]
  {
    assert [row][..0] == [];
  }

  lemma UniqueAfterwards(d: Documents, ledger: map<Id, LedgerRow>, givenBack: seq<ReturnEntry>, newId: Id -> Id)
    requires MaySend(givenBack) && Fits(d)
    ensures UniqueNumbers(Taken(With(d, ledger), TILL, Sent(givenBack), newId).documents)
  {
    hide Taken, MaySend;
    DocumentsAfter(d, ledger, givenBack, newId);
  }

  /** The server takes it. */
  lemma IsTaken(d: Documents, ledger: map<Id, LedgerRow>, givenBack: seq<ReturnEntry>, newId: Id -> Id)
    requires MaySend(givenBack) && Fits(d)
    ensures Accepts(With(d, ledger), TILL, Sent(givenBack), newId)
  {
    hide Taken, Prepare, MaySend, Fits, BatchClashes, NumberClashes, MissingClashes, ReturnClashes, VO.Conflicts, VerificationContext, Movements,
      PlaceCustomers, Owned, UniqueNumbers;
    var s, o := With(d, ledger), Sent(givenBack);
    IsOwned(givenBack);
    NoneServerBills(givenBack);
    PreparedAs(d, ledger, givenBack, newId);
    ClashesAre(s, TILL, o, newId);
    NoBatchClashesHere(d, ledger, givenBack);
    NoNumbersUsed(d, givenBack);
    NoneMissing(d, ledger, givenBack);
    NoReturnClashesHere(d, givenBack);
    NoContext(d, ledger, givenBack);
    SendsFine(givenBack);
    NothingWrong(givenBack);
    NoConflicts([]);
    UniqueAfterwards(d, ledger, givenBack, newId);
    assert CreatedIds([]) == {};
  }

  lemma SendsFine(givenBack: seq<ReturnEntry>)
    requires MaySend(givenBack)
    ensures givenBack == [] || (|givenBack| == 1 && givenBack[0] == Reversed(givenBack[0].ledger)
                                && VO.OnlyReturns(givenBack[0].ledger) && VO.InByItem(givenBack[0].ledger) == map[1 := 1000])
  {
  }

  // ----- Where a sync does less than it might

  /**
   * Paid off between two sendings: the server has the bill as still owed, and takes the outbox that has it paid. The
   * payment is added, and the bill still shows the rupee owed, though its payments come to all of it.
   */
  lemma PaidOffButOwed(newId: Id -> Id)
    ensures var d := NOTHING.(invoices := map[1 := Bill(false)], saleLines := map[1 := UNIT]);
            var s, o := With(d, map[1 := GOODS]), Sent([]);
            var after := Taken(s, TILL, o, newId).documents;
            && Accepts(s, TILL, o, newId)
            && after.payments == map[1 := CASH] && after.invoices[1] == Bill(false) != o.invoices[0].invoice
            && after.invoices[1].grandTotal - after.invoices[1].paidTotal == 100
  {
    hide Taken, Accepts, With;
    var d := NOTHING.(invoices := map[1 := Bill(false)], saleLines := map[1 := UNIT]);
    IsTaken(d, map[1 := GOODS], [], newId);
    DocumentsAfter(d, map[1 := GOODS], [], newId);
  }

  /** The register, closed online with nothing in the drawer. */
  const CLOSED := REGISTER.(closedAt := Some(9), closingBalance := Some(0), expectedCash := Some(0), cashDifference := Some(0))

  lemma CashOnIt()
    ensures RegisterCash.Sums(RegisterCash.CashRows(map[1 := CASH], map[], map[]), 1) == RegisterCash.NO_BALANCE.(cashSales := 100)
  {
    hide TableTotal;
    forall w: PaymentRow -> int ensures TableTotal(map[], w) == 0 && TableTotal(map[1 := CASH], w) == w(CASH) {
      TotalNone<PaymentRow>(w);
      assert map[][1 := CASH] == map[1 := CASH];
      TotalInsert(map[], w, 1, CASH);
    }
    forall w: ReturnRow -> int ensures TableTotal(map[], w) == 0 { TotalNone<ReturnRow>(w); }
    forall w: RegisterCash.DrawerRow -> int ensures TableTotal(map[], w) == 0 { TotalNone<RegisterCash.DrawerRow>(w); }
  }

  /**
   * The register closed online with an empty drawer while the copy still has it open: the server takes the rupee paid
   * on it, and the register goes on expecting nothing.
   */
  lemma RegisterShort(newId: Id -> Id)
    ensures var s, o := With(NOTHING, map[]).(registers := map[1 := CLOSED]), Sent([]);
            var after := Taken(s, TILL, o, newId);
            && Accepts(s, TILL, o, newId)
            && after.documents.payments == map[1 := CASH] && after.registers == map[1 := CLOSED]
            && RegisterCash.ExpectedCash(0, RegisterCash.Sums(CashRowsOf(s.catalog, after.documents), 1)) == 100
            && after.registers[1].expectedCash == Some(0)
  {
    hide Taken, Accepts, SyncRegisters, RegisterCash.Sums, UniqueNumbers;
    var s, o := With(NOTHING, map[]).(registers := map[1 := CLOSED]), Sent([]);
    IsTaken(NOTHING, map[], [], newId);
    TakenWhateverRegisters(With(NOTHING, map[]), map[1 := CLOSED], TILL, o, newId);
    SamePrepared(With(NOTHING, map[]), map[1 := CLOSED], TILL, o, newId);
    DocumentsAfter(NOTHING, map[], [], newId);
    CashOnIt();
    TakenPeople(s, TILL, o, newId);
    StaysClosed(CashRowsOf(s.catalog, Taken(s, TILL, o, newId).documents));
  }

  lemma StaysClosed(cash: RegisterCash.CashRows)
    ensures SyncRegisters(map[1 := CLOSED], TILL, [REGISTER], cash) == map[1 := CLOSED]
  {
    hide RegisterCash.Sums;
    assert [REGISTER][..0] == [];
    assert Unknown(map[1 := CLOSED], [REGISTER]) == [];
    ByIdOne(REGISTER, REGISTER_ID);
    assert ClosedIds([REGISTER]) == {} && IdsOf([REGISTER]) == {1};
  }

  lemma BackMoves()
    ensures OwnLedger([BACK])
  {
    assert [BACK][..0] == [];
    assert VO.InByItem([]) == map[];
    assert VO.InByItem([BACK]) == map[1 := 1000];
  }

  /**
   * Sent before with its answer lost, given back online, and given back again on the copy: the server takes the
   * outbox, and its tables have two units back of a line that sold one, and twice the bill's round-off.
   */
  lemma GivenBackTwice(newId: Id -> Id)
    ensures var online := Return(9, "X/1");
            var d := NOTHING.(invoices := map[1 := Bill(true)], saleLines := map[1 := UNIT], payments := map[1 := CASH],
                              givenBack := map[9 := online], returnLines := map[9 := Given(9)]);
            var s, o := With(d, map[1 := GOODS]), Sent([Reversed([BACK])]);
            var after := Taken(s, TILL, o, newId).documents;
            && Accepts(s, TILL, o, newId) && WithinSoldAll(d)
            && BackOf(after.returnLines, 1).qty == 2000 && after.saleLines[1].qty == 1000 && !WithinSoldAll(after)
            && WithinRoundOffs(d) && RoundOffBack(after.givenBack, 1) == 40 && after.invoices[1].roundOff == 20
  {
    hide Taken, Accepts, With, OwnLedger, TableTotal;
    var online := Return(9, "X/1");
    var d := NOTHING.(invoices := map[1 := Bill(true)], saleLines := map[1 := UNIT], payments := map[1 := CASH],
                      givenBack := map[9 := online], returnLines := map[9 := Given(9)]);
    BackMoves();
    IsTaken(d, map[1 := GOODS], [Reversed([BACK])], newId);
    DocumentsAfter(d, map[1 := GOODS], [Reversed([BACK])], newId);
    var after := Taken(With(d, map[1 := GOODS]), TILL, Sent([Reversed([BACK])]), newId).documents;
    BackOnce(d);
    BackTwice(after);
  }

  lemma BackOnce(d: Documents)
    requires d.saleLines == map[1 := UNIT] && d.returnLines == map[9 := Given(9)]
    requires d.invoices == map[1 := Bill(true)] && d.givenBack == map[9 := Return(9, "X/1")]
    ensures WithinSoldAll(d) && WithinRoundOffs(d)
  {
    hide BackOf, RoundOffBack;
    OneBack(9);
    RoundedBack("X/1");
  }

  lemma BackTwice(d: Documents)
    requires d.saleLines == map[1 := UNIT] + map[1 := UNIT] && d.returnLines == map[8 := Given(8)] + map[9 := Given(9)]
    requires d.invoices == map[1 := Bill(true)] + map[1 := Bill(true)] && d.givenBack == map[8 := Return(8, "R/1")] + map[9 := Return(9, "X/1")]
    ensures BackOf(d.returnLines, 1).qty == 2000 && d.saleLines[1].qty == 1000 && !WithinSoldAll(d)
    ensures RoundOffBack(d.givenBack, 1) == 40 && d.invoices[1].roundOff == 20
  {
    hide BackOf, RoundOffBack;
    TwoBack();
    RoundedBack("X/1");
    assert 1 in d.saleLines && !LineWithinSold(d, 1);
  }

  lemma RoundedBack(no: string)
    ensures RoundOffBack(map[9 := Return(9, no)], 1) == 20
    ensures RoundOffBack(map[8 := Return(8, "R/1")] + map[9 := Return(9, no)], 1) == 40
  {
    hide TableTotal;
    var w := RoundingOf(1, {});
    var first, second := map[8 := Return(8, "R/1")], map[9 := Return(9, no)];
    TotalNone<ReturnRow>(w);
    TotalInsert(map[], w, 8, Return(8, "R/1"));
    TotalInsert(map[], w, 9, Return(9, no));
    assert map[][8 := Return(8, "R/1")] == first && map[][9 := Return(9, no)] == second;
    TotalMerge(first, second, w);
  }

  lemma OneBack(id: Id)
    ensures BackOf(map[id := Given(id)], 1) == VO.Parts(1000, 80, 0, 0, 0)
  {
    hide TableTotal;
    forall w: ReturnLineRow -> int ensures TableTotal(map[id := Given(id)], w) == w(Given(id)) {
      TotalNone<ReturnLineRow>(w);
      assert map[][id := Given(id)] == map[id := Given(id)];
      TotalInsert(map[], w, id, Given(id));
    }
  }

  lemma TwoBack()
    ensures BackOf(map[8 := Given(8)] + map[9 := Given(9)], 1).qty == 2000
  {
    hide TableTotal;
    var w := PartOf(1, {}, BACK_QTY);
    TotalMerge(map[8 := Given(8)], map[9 := Given(9)], w);
    OneBack(8);
    OneBack(9);
  }

  // ----- A return that takes out

  const FROM1 := LedgerRow(8, 1, 1, Some(1), ReturnTxn, 6000, 0, ReturnTxn, 8, 1)
  const FROM2 := LedgerRow(9, 1, 1, Some(2), ReturnTxn, -5000, 0, ReturnTxn, 8, 1)

  lemma TwoMoves()
    ensures OwnLedger([FROM1, FROM2])
  {
    var rows := [FROM1, FROM2];
    assert rows[..1] == [FROM1] && [FROM1][..0] == [];
    assert VO.InByItem([]) == map[];
    assert VO.InByItem([FROM1]) == map[1 := 6000];
    assert VO.InByItem(rows) == map[1 := 1000];
  }

  /**
   * One unit given back as six into one batch and five less than none into another: per item that is one, and the
   * server takes it. The other batch, which had none, has five less than none.
   */
  lemma BatchBelowNothing(newId: Id -> Id)
    requires Cuts.NewIdsApart(newId, {}, Movements([SALE], [Reversed([FROM1, FROM2])]))
    ensures var s, o := With(NOTHING, map[]), Sent([Reversed([FROM1, FROM2])]);
            && Accepts(s, TILL, o, newId) && At(s.stock.batches, BatchKey(1, 2), 0) == 0
            && At(Taken(s, TILL, o, newId).stock.batches, BatchKey(1, 2), 0) == -5000
  {
    hide Taken, Accepts, OwnLedger, PlaceRows, Ordered, Cuts.NewIdsApart;
    var s, o := With(NOTHING, map[]), Sent([Reversed([FROM1, FROM2])]);
    TwoMoves();
    IsTaken(NOTHING, map[], [Reversed([FROM1, FROM2])], newId);
    ThreeMovements();
    ItsTables(newId);
    BatchAfter(s, TILL, o, newId, BatchKey(1, 2));
    PlacedAre(newId);
  }

  lemma ItsTables(newId: Id -> Id)
    requires Cuts.NewIdsApart(newId, {}, Movements([SALE], [Reversed([FROM1, FROM2])]))
    ensures FromTables(With(NOTHING, map[]), newId, Sent([Reversed([FROM1, FROM2])]))
  {
    hide Movements, DistinctIds, Cuts.NewIdsApart;
    ThreeMovements();
    var none: map<Id, LedgerRow> := map[];
    assert none.Keys == {};
  }

  lemma ThreeMovements()
    ensures Movements([SALE], [Reversed([FROM1, FROM2])]) == [GOODS, FROM1, FROM2]
    ensures DistinctIds(Movements([SALE], [Reversed([FROM1, FROM2])]))
  {
    hide InvoiceMovements, ReturnMovements;
    OneSaleMoves();
    OneReturnMoves([FROM1, FROM2]);
    var all := [GOODS, FROM1, FROM2];
    assert Movements([SALE], [Reversed([FROM1, FROM2])]) == all;
    assert all[0].id == 1 && all[1].id == 8 && all[2].id == 9;
  }

  lemma OneSaleMoves()
    ensures InvoiceMovements([SALE]) == [GOODS]
  {
    assert [SALE][..0] == [] && InvoiceMovements([]) == [];
  }

  lemma OneReturnMoves(ledger: seq<LedgerRow>)
    ensures ReturnMovements([Reversed(ledger)]) == ledger
  {
    assert [Reversed(ledger)][..0] == [] && ReturnMovements([]) == [];
  }

  lemma PlacedAre(newId: Id -> Id)
    ensures var s, o := With(NOTHING, map[]), Sent([Reversed([FROM1, FROM2])]);
            OnHand(ContextOf(s, newId), PlaceRows(ContextOf(s, newId), ToPlace(s, o, newId)), BatchKey(1, 2)) == -5000
  {
    hide PlaceRows, Ordered;
    InOrderOfTime(newId);
    TwoPlaced(ContextOf(With(NOTHING, map[]), newId), FROM1, FROM2, BatchKey(1, 2));
    TwoPlaced(ContextOf(With(NOTHING, map[]), newId), FROM2, FROM1, BatchKey(1, 2));
  }

  lemma TwoPlaced(ctx: BatchContext, first: LedgerRow, second: LedgerRow, key: BatchKey)
    requires OfItsBatch(ctx, first) && !TakesOut(first) && OfItsBatch(ctx, second) && !TakesOut(second)
    ensures OnHand(ctx, PlaceRows(ctx, [first, second]), key) == At(ctx.stock, key, 0)
            + (if KeyOf(first) == key then first.Change() else 0) + if KeyOf(second) == key then second.Change() else 0
  {
    hide PlaceRows, OfItsBatch, TakesOut;
    var rows := [first, second];
    assert rows[..1][..0] == rows[..0] && rows[..2] == rows;
    NothingPlacedYet(ctx, rows, key);
    OneMorePlaced(ctx, rows, 0, key);
    OneMorePlaced(ctx, rows, 1, key);
  }

  lemma OneMorePlaced(ctx: BatchContext, rows: seq<LedgerRow>, k: nat, key: BatchKey)
    requires k < |rows| && OfItsBatch(ctx, rows[k]) && !TakesOut(rows[k])
    ensures OnHand(ctx, PlaceRows(ctx, rows[..k + 1]), key)
         == OnHand(ctx, PlaceRows(ctx, rows[..k]), key) + if KeyOf(rows[k]) == key then rows[k].Change() else 0
  {
    hide PlaceRow;
    assert rows[..k + 1][..k] == rows[..k];
    PlaceRowAt(ctx, PlaceRows(ctx, rows[..k]), rows[k], key);
  }

  lemma InOrderOfTime(newId: Id -> Id)
    ensures var rows := ToPlace(With(NOTHING, map[]), Sent([Reversed([FROM1, FROM2])]), newId);
            rows == [FROM1, FROM2] || rows == [FROM2, FROM1]
  {
    hide Movements, Fresh, SortByTime;
    ThreeMovements();
    var none: map<Id, LedgerRow> := map[];
    assert none.Keys == {};
    FreshAre();
    TwoInOrder(SortByTime([FROM1, FROM2]));
  }

  lemma FreshAre()
    ensures Fresh({}, [GOODS, FROM1, FROM2]) == [FROM1, FROM2]
  {
    var all := [GOODS, FROM1, FROM2];
    assert all[..2] == [GOODS, FROM1] && all[..2][..1] == [GOODS] && [GOODS][..0] == [];
    assert [GOODS, FROM1][..1] == [GOODS];
    assert Fresh({}, []) == [];
    assert Fresh({}, [GOODS]) == [];
    assert Fresh({}, [GOODS, FROM1]) == [FROM1];
  }

  lemma TwoInOrder(rows: seq<LedgerRow>)
    requires multiset(rows) == multiset([FROM1, FROM2])
    ensures rows == [FROM1, FROM2] || rows == [FROM2, FROM1]
  {
    assert |rows| == |multiset(rows)| == 2;
    assert rows[0] in multiset(rows) && rows[1] in multiset(rows);
    assert rows == [rows[0], rows[1]];
    assert multiset(rows)[FROM1] == 1;
  }
}
