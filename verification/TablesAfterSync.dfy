/**
 * What the server's tables hold after a sync, row by row, in terms of what it had and what was sent
 * (apps/api/src/fallback/fallback.service.ts, apps/api/src/fallback/sync-checks.ts).
 */
module TablesAfterSync {
  import opened AcceptedOutbox
  import opened GrownAccepted
  import opened GrownReturns
  import opened GrownSync
  import opened OutboxRows
  import opened ResentOutbox
  import opened ReturnsAfterSync
  import opened ServerTables
  import opened SettledCustomers
  import opened Sync
  import opened SyncChecks
  import opened Tables
  import VO = VerifyOutbox

  // ----- Rows added

  /**
   * Every row sent has its id in the table; rows there before stay as they were; and what is new is a row sent, under its
   * own id: the row itself, when no other was sent with that id.
   */
  ghost predicate RowsAdded<R(!new)>(before: map<Id, R>, after: map<Id, R>, sent: iset<R>, idOf: R -> Id) {
    && (forall row :: row in sent ==> idOf(row) in after)
    && (forall id :: id in before ==> id in after && after[id] == before[id])
    && (forall id :: id in after && id !in before ==> after[id] in sent && idOf(after[id]) == id)
    && (forall row :: row in sent && idOf(row) !in before && (forall other :: other in sent && idOf(other) == idOf(row) ==> other == row) ==>
          after[idOf(row)] == row)
  }

  /** A row of one of the entries. */
  ghost predicate InSome<E(!new), R>(entries: seq<E>, of: E -> seq<R>, row: R) { exists entry :: entry in entries && row in of(entry) }

  ghost function RowsOf<E(!new), R(!new)>(entries: seq<E>, of: E -> seq<R>): (r: iset<R>) { iset row: R | InSome(entries, of, row) }

  lemma InsertAdds<R(!new)>(table: map<Id, R>, rows: seq<R>, key: R -> Id, sent: iset<R>, idOf: R -> Id)
    requires (forall row :: row in rows <==> row in sent) && forall row :: key(row) == idOf(row)
    ensures RowsAdded(table, Insert(table, rows, key), sent, idOf)
  {
    hide Insert;
    InsertedAre(table, rows, key);
  }

  lemma {:induction false} InFlatRows<E(!new), R(!new)>(entries: seq<E>, of: E -> seq<R>, row: R)
    ensures row in Flat(entries, of) <==> InSome(entries, of, row)
  {
    if entries != [] {
      var n := |entries| - 1;
      assert entries == entries[..n] + [entries[n]];
      InFlatRows(entries[..n], of, row);
      assert entries[n] in entries;
    }
  }

  lemma FlatAdds<E(!new), R(!new)>(table: map<Id, R>, entries: seq<E>, of: E -> seq<R>, key: R -> Id, sent: iset<R>, idOf: R -> Id)
    requires (forall row :: InSome(entries, of, row) <==> row in sent) && forall row :: key(row) == idOf(row)
    ensures RowsAdded(table, Insert(table, Flat(entries, of), key), sent, idOf)
  {
    hide Insert, Flat, RowsAdded;
    forall row ensures row in Flat(entries, of) <==> row in sent { InFlatRows(entries, of, row); }
    InsertAdds(table, Flat(entries, of), key, sent, idOf);
  }

  /** A bill as it is kept: on the customer its own was settled on. */
  ghost predicate SettledBill(p: Placed, o: Outbox, row: InvoiceRow) {
    exists entry :: entry in o.invoices && row == entry.invoice.(customerId := SettledOn(p, entry.invoice.customerId))
  }

  ghost function BillsSettled(p: Placed, o: Outbox): (r: iset<InvoiceRow>) { iset row: InvoiceRow | SettledBill(p, o, row) }

  lemma InHeads(p: Placed, o: Outbox, row: InvoiceRow)
    ensures row in Heads(WithCustomers(o.invoices, p.sameAs)) <==> SettledBill(p, o, row)
  {
    var heads := Heads(WithCustomers(o.invoices, p.sameAs));
    if row in heads {
      var k :| 0 <= k < |heads| && heads[k] == row;
      assert o.invoices[k] in o.invoices && row == o.invoices[k].invoice.(customerId := SettledOn(p, o.invoices[k].invoice.customerId));
    }
    if SettledBill(p, o, row) {
      var entry :| entry in o.invoices && row == entry.invoice.(customerId := SettledOn(p, entry.invoice.customerId));
      var k :| 0 <= k < |o.invoices| && o.invoices[k] == entry;
      assert heads[k] == row;
    }
  }

  lemma InReturnHeads(givenBack: seq<ReturnEntry>, row: ReturnRow)
    ensures row in ReturnHeads(givenBack) <==> InSome(givenBack, (entry: ReturnEntry) => [entry.ret], row)
  {
    var heads := ReturnHeads(givenBack);
    if row in heads {
      var k :| 0 <= k < |heads| && heads[k] == row;
      assert givenBack[k] in givenBack;
    }
    if InSome(givenBack, (entry: ReturnEntry) => [entry.ret], row) {
      var entry :| entry in givenBack && row == entry.ret;
      var k :| 0 <= k < |givenBack| && givenBack[k] == entry;
      assert heads[k] == row;
    }
  }

  /** The bills' rows, table by table. */
  ghost predicate BillsAdded(d: Documents, after: Documents, p: Placed, o: Outbox) {
    && RowsAdded(d.invoices, after.invoices, BillsSettled(p, o), (row: InvoiceRow) => row.id)
    && RowsAdded(d.saleLines, after.saleLines, RowsOf(o.invoices, (entry: InvoiceEntry) => entry.lines), (row: SaleLineRow) => row.id)
    && RowsAdded(d.discounts, after.discounts, RowsOf(o.invoices, (entry: InvoiceEntry) => entry.discounts), (row: DiscountRow) => row.id)
    && RowsAdded(d.allocations, after.allocations, RowsOf(o.invoices, (entry: InvoiceEntry) => entry.allocations),
             (row: AllocationRow) => row.id)
    && RowsAdded(d.payments, after.payments, RowsOf(o.invoices, (entry: InvoiceEntry) => entry.payments), (row: PaymentRow) => row.id)
    && RowsAdded(d.receipts, after.receipts, RowsOf(o.invoices, (entry: InvoiceEntry) => entry.receipts), (row: ReceiptRow) => row.id)
  }

  ghost predicate ReturnsAdded(d: Documents, after: Documents, o: Outbox) {
    && RowsAdded(d.givenBack, after.givenBack, RowsOf(o.givenBack, (entry: ReturnEntry) => [entry.ret]), (row: ReturnRow) => row.id)
    && RowsAdded(d.returnLines, after.returnLines, RowsOf(o.givenBack, (entry: ReturnEntry) => entry.lines),
             (row: ReturnLineRow) => row.id)
  }

  lemma SettledRows<R(!new)>(o: Outbox, sameAs: map<Id, Id>, f: InvoiceEntry -> seq<R>, row: R)
    requires forall entry: InvoiceEntry, customer: Id :: f(OnCustomer(entry, customer)) == f(entry)
    ensures InSome(WithCustomers(o.invoices, sameAs), f, row) <==> InSome(o.invoices, f, row)
  {
    var settled := WithCustomers(o.invoices, sameAs);
    forall k | 0 <= k < |settled| ensures f(settled[k]) == f(o.invoices[k]) { SettledEntry(o.invoices[k], sameAs); }
    if InSome(settled, f, row) {
      var entry :| entry in settled && row in f(entry);
      var k :| 0 <= k < |settled| && settled[k] == entry;
      assert o.invoices[k] in o.invoices;
    }
    if InSome(o.invoices, f, row) {
      var entry :| entry in o.invoices && row in f(entry);
      var k :| 0 <= k < |o.invoices| && o.invoices[k] == entry;
      assert settled[k] in settled;
    }
  }

  lemma RowsOfBills<R(!new)>(
    table: map<Id, R>, o: Outbox, sameAs: map<Id, Id>, of: InvoiceEntry -> seq<R>, key: R -> Id, f: InvoiceEntry -> seq<R>, idOf: R -> Id)
    requires forall entry: InvoiceEntry :: of(entry) == f(entry)
    requires forall entry: InvoiceEntry, customer: Id :: f(OnCustomer(entry, customer)) == f(entry)
    requires forall row :: key(row) == idOf(row)
    ensures RowsAdded(table, Insert(table, Flat(WithCustomers(o.invoices, sameAs), of), key), RowsOf(o.invoices, f), idOf)
  {
    hide Insert, Flat, RowsAdded, WithCustomers;
    var settled := WithCustomers(o.invoices, sameAs);
    forall row ensures InSome(settled, of, row) <==> row in RowsOf(o.invoices, f) {
      SettledRows(o, sameAs, f, row);
      assert InSome(settled, of, row) <==> InSome(settled, f, row);
    }
    FlatAdds(table, settled, of, key, RowsOf(o.invoices, f), idOf);
  }

  /** After a sync each of the eight tables of documents holds what it held and what was sent, and nothing else. */
  lemma DocumentsAdded(s: Server, ctr: Counter, o: Outbox, newId: Id -> Id)
    ensures var after := Taken(s, ctr, o, newId).documents;
            BillsAdded(s.documents, after, PlaceCustomers(s, ctr, o.customers), o) && ReturnsAdded(s.documents, after, o)
  {
    hide Taken, Insert, Flat, WithCustomers, PlaceCustomers, RowsAdded, Heads, ReturnHeads, SettledBill;
    var d, p := s.documents, PlaceCustomers(s, ctr, o.customers);
    TakenDocuments(s, ctr, o, newId);
    forall row: InvoiceRow ensures row in Heads(WithCustomers(o.invoices, p.sameAs)) <==> SettledBill(p, o, row) { InHeads(p, o, row); }
    InsertAdds(d.invoices, Heads(WithCustomers(o.invoices, p.sameAs)), INVOICE_ID, BillsSettled(p, o), (row: InvoiceRow) => row.id);
    RowsOfBills(d.saleLines, o, p.sameAs, LINES, SALE_LINE_ID, (entry: InvoiceEntry) => entry.lines, (row: SaleLineRow) => row.id);
    RowsOfBills(d.discounts, o, p.sameAs, DISCOUNTS, DISCOUNT_ID, (entry: InvoiceEntry) => entry.discounts, (row: DiscountRow) => row.id);
    RowsOfBills(d.allocations, o, p.sameAs, ALLOCATIONS, ALLOCATION_ID, (entry: InvoiceEntry) => entry.allocations, (row: AllocationRow) => row.id);
    RowsOfBills(d.payments, o, p.sameAs, PAYMENTS, PAYMENT_ID, (entry: InvoiceEntry) => entry.payments, (row: PaymentRow) => row.id);
    RowsOfBills(d.receipts, o, p.sameAs, RECEIPTS, RECEIPT_ID, (entry: InvoiceEntry) => entry.receipts, (row: ReceiptRow) => row.id);
    ReturnsAreAdded(d, Taken(s, ctr, o, newId).documents, o);
  }

  lemma ReturnsAreAdded(d: Documents, after: Documents, o: Outbox)
    requires after.givenBack == Insert(d.givenBack, ReturnHeads(o.givenBack), RETURN_ID)
    requires after.returnLines == Insert(d.returnLines, Flat(o.givenBack, RETURN_LINES), RETURN_LINE_ID)
    ensures ReturnsAdded(d, after, o)
  {
    hide Insert, Flat, RowsAdded, ReturnHeads;
    forall row: ReturnRow ensures row in ReturnHeads(o.givenBack) <==> InSome(o.givenBack, (entry: ReturnEntry) => [entry.ret], row) {
      InReturnHeads(o.givenBack, row);
    }
    InsertAdds(d.givenBack, ReturnHeads(o.givenBack), RETURN_ID,
      RowsOf(o.givenBack, (entry: ReturnEntry) => [entry.ret]), (row: ReturnRow) => row.id);
    FlatAdds(d.returnLines, o.givenBack, RETURN_LINES, RETURN_LINE_ID,
      RowsOf(o.givenBack, (entry: ReturnEntry) => entry.lines), (row: ReturnLineRow) => row.id);
  }

  // ----- Returns of the server's own bills

  /** A return sent of a bill the server had: one it doesn't have, and of no bill sent. */
  ghost predicate NewReturnOf(d: Documents, o: Outbox, entry: ReturnEntry, bill: Id) {
    entry in o.givenBack && entry.ret.id !in d.givenBack && entry.ret.saleInvoiceId == bill && forall sale :: sale in o.invoices ==> sale.invoice.id != bill
  }

  ghost predicate ReturnedNow(d: Documents, o: Outbox, bill: Id) { exists entry :: NewReturnOf(d, o, entry, bill) }

  ghost function QtyBack(rows: map<Id, ReturnLineRow>, line: Id): (r: int) {
    TableTotal(rows, (row: ReturnLineRow) => if row.saleLineId == line then row.qty else 0)
  }

  ghost function HandedBackOn(rows: map<Id, ReturnRow>, bill: Id): (r: int) {
    TableTotal(rows, (row: ReturnRow) => if row.saleInvoiceId == bill then row.refundAmount else 0)
  }

  /** On the server's tables: no new return lowers a due, no line has more back than was sold, no bill more money than was paid or due. */
  ghost predicate BillsKeepReturns(d: Documents, after: Documents, o: Outbox) {
    && (forall entry, bill :: bill in d.invoices && NewReturnOf(d, o, entry, bill) ==> entry.ret.dueAdjusted <= 0)
    && (forall line :: line in d.saleLines && ReturnedNow(d, o, d.saleLines[line].invoiceId) && QtyBack(after.returnLines, line) > QtyBack(d.returnLines, line) ==>
          QtyBack(after.returnLines, line) <= d.saleLines[line].qty)
    && (forall bill :: bill in d.invoices && ReturnedNow(d, o, bill) ==>
          HandedBackOn(after.givenBack, bill) <= d.invoices[bill].paidTotal && HandedBackOn(after.givenBack, bill) <= d.invoices[bill].grandTotal)
  }

  lemma {:induction false} NewWhen(d: Documents, bills: set<Id>, entries: seq<ReturnEntry>, entry: ReturnEntry)
    ensures entry in NewReturns(d, bills, entries) <==> entry in entries && entry.ret.saleInvoiceId !in bills && entry.ret.id !in d.givenBack
  {
    if entries != [] {
      var n := |entries| - 1;
      assert entries == entries[..n] + [entries[n]];
      NewWhen(d, bills, entries[..n], entry);
    }
  }

  lemma NewAre(d: Documents, o: Outbox)
    ensures var mine := NewReturns(d, BillIds(o.invoices), o.givenBack);
            && (forall entry, bill :: NewReturnOf(d, o, entry, bill) <==> entry in mine && entry.ret.saleInvoiceId == bill)
            && (forall bill :: ReturnedNow(d, o, bill) <==> bill in BillsOf(mine))
  {
    hide NewReturns;
    var mine := NewReturns(d, BillIds(o.invoices), o.givenBack);
    forall entry, bill ensures NewReturnOf(d, o, entry, bill) <==> entry in mine && entry.ret.saleInvoiceId == bill {
      NewWhen(d, BillIds(o.invoices), o.givenBack, entry);
    }
    forall bill ensures ReturnedNow(d, o, bill) <==> bill in BillsOf(mine) {
      if bill in BillsOf(mine) {
        var entry :| entry in mine && entry.ret.saleInvoiceId == bill;
        assert NewReturnOf(d, o, entry, bill);
      }
    }
  }

  lemma BackTotals(rows: map<Id, ReturnLineRow>, heads: map<Id, ReturnRow>, id: Id)
    ensures QtyBack(rows, id) == TableTotal(rows, QtyOf(id)) && HandedBackOn(heads, id) == TableTotal(heads, RefundOf(id))
  {
    TotalSame(rows, (row: ReturnLineRow) => if row.saleLineId == id then row.qty else 0, QtyOf(id));
    TotalSame(heads, (row: ReturnRow) => if row.saleInvoiceId == id then row.refundAmount else 0, RefundOf(id));
  }

  /**
   * Nothing clashes of the returns exactly when, with them on the server's tables, its own bills keep within what was
   * sold and paid.
   */
  lemma ReturnClashesWhen(s: Server, ctr: Counter, o: Outbox, newId: Id -> Id)
    requires Owned(ctr, o) && WholeReturns(s.documents, o.givenBack)
    ensures ReturnClashes(s.documents, o) == {} <==> BillsKeepReturns(s.documents, Taken(s, ctr, o, newId).documents, o)
  {
    hide Taken, NewReturns, BillIds, NewReturnOf, ReturnedNow, WholeReturns, Owned, ReturnClashes, QtyBack, HandedBackOn, ReturnsIn, RowsTotal, TableTotal,
      BillsOf;
    var d, after, bills := s.documents, Taken(s, ctr, o, newId).documents, BillIds(o.invoices);
    var mine := NewReturns(d, bills, o.givenBack);
    FirstReturnsIn(s, ctr, o, o, newId);
    ReturnClashesAre(d, o);
    NewAre(d, o);
    forall line | line in d.saleLines && d.saleLines[line].invoiceId in BillsOf(mine)
      ensures TooMany(d, mine, line) <==>
              QtyBack(after.returnLines, line) > QtyBack(d.returnLines, line) && QtyBack(after.returnLines, line) > d.saleLines[line].qty
    {
      NotSentBill(d, o, d.saleLines[line].invoiceId);
      BackTotals(d.returnLines, d.givenBack, line);
      BackTotals(after.returnLines, after.givenBack, line);
      LineTotals(d, after, o.givenBack, bills, line);
    }
    forall bill | bill in d.invoices && bill in BillsOf(mine)
      ensures TooMuch(d, mine, bill) <==>
              HandedBackOn(after.givenBack, bill) > d.invoices[bill].paidTotal || HandedBackOn(after.givenBack, bill) > d.invoices[bill].grandTotal
    {
      NotSentBill(d, o, bill);
      BackTotals(d.returnLines, d.givenBack, bill);
      BackTotals(after.returnLines, after.givenBack, bill);
      BillTotals(d, after, o.givenBack, bills, bill);
    }
  }

  lemma NotSentBill(d: Documents, o: Outbox, bill: Id)
    requires bill in BillsOf(NewReturns(d, BillIds(o.invoices), o.givenBack))
    ensures bill !in BillIds(o.invoices)
  {
    hide NewReturns, BillIds;
    var entry :| entry in NewReturns(d, BillIds(o.invoices), o.givenBack) && entry.ret.saleInvoiceId == bill;
    NewWhen(d, BillIds(o.invoices), o.givenBack, entry);
  }

  /** So after a sync that is taken no bill the server had has more handed back by it than was paid, or than it came to. */
  lemma BillsAfterReturns(s: Server, ctr: Counter, o: Outbox, newId: Id -> Id)
    requires Accepts(s, ctr, o, newId) && WholeReturns(s.documents, o.givenBack)
    ensures BillsKeepReturns(s.documents, Taken(s, ctr, o, newId).documents, o)
  {
    hide Accepts, Taken, WholeReturns, Prepare, BatchClashes, NumberClashes, MissingClashes, ReturnClashes, VO.Conflicts, VerificationContext,
      BillsKeepReturns, Owned, UniqueNumbers;
    AcceptedOwned(s, ctr, o, newId);
    NothingClashes(s, ctr, o, newId);
    ReturnClashesWhen(s, ctr, o, newId);
  }
}
