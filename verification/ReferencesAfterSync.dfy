/**
 * A sync that is taken keeps the server's tables whole: every row added is the counter's own, and whatever a row points at
 * is there (apps/api/src/fallback/fallback.service.ts, apps/api/src/fallback/sync-checks.ts).
 */
module ReferencesAfterSync {
  import opened AcceptedOutbox
  import opened BatchShortfalls
  import opened Cuts
  import opened GrownCustomers
  import opened GrownLedger
  import opened GrownRegisters
  import opened GrownStock
  import opened GrownSync
  import opened OutboxRows
  import RegisterCash
  import opened ResentOutbox
  import opened ReturnsAfterSync
  import opened ServerTables
  import opened SettledCustomers
  import opened Sync
  import opened SyncChecks
  import opened Tables
  import opened TablesAfterSync
  import VO = VerifyOutbox
  import VS = VerifySoundness

  // ----- The counter's own rows

  ghost predicate OwnBill(ctr: Counter, o: Outbox, entry: InvoiceEntry) {
    var id := entry.invoice.id;
    && entry.invoice.branchId == ctr.branchId && entry.invoice.documentSeries == ctr.invoiceSeries
    && (forall row :: row in entry.payments && row.registerId.Some? ==> exists register :: register in o.registers && register.id == row.registerId.value)
    && (forall row :: row in entry.payments ==> row.invoiceId == id) && (forall row :: row in entry.lines ==> row.invoiceId == id)
    && (forall row :: row in entry.discounts ==> row.invoiceId == id) && (forall row :: row in entry.receipts ==> row.invoiceId == id)
    && (forall row :: row in entry.ledger ==> row.branchId == ctr.branchId && row.referenceType == SaleTxn && row.referenceId == id)
  }

  ghost predicate OwnGivenBack(ctr: Counter, o: Outbox, entry: ReturnEntry) {
    && entry.ret.documentSeries == ctr.returnSeries
    && (exists register :: register in o.registers && entry.ret.registerId == Some(register.id))
    && (forall row :: row in entry.lines ==> row.returnId == entry.ret.id)
    && (forall row :: row in entry.ledger ==> row.branchId == ctr.branchId && row.referenceType == ReturnTxn && row.referenceId == entry.ret.id)
  }

  /** Nothing of another counter, and nothing that belongs to a document it isn't sent with. */
  ghost predicate OwnRows(ctr: Counter, o: Outbox) {
    && (forall row :: row in o.registers ==> row.counterId == ctr.id && row.branchId == ctr.branchId)
    && (forall entry :: entry in o.invoices ==> OwnBill(ctr, o, entry))
    && (forall entry :: entry in o.givenBack ==> OwnGivenBack(ctr, o, entry))
    && (forall row :: row in o.customers ==> row.branchId == ctr.branchId && !row.walkIn && row.offlineCode)
    && (forall row :: row in o.sequences ==> row.series == match row.kind case InvoiceKind => ctr.invoiceSeries case ReturnKind => ctr.returnSeries)
  }

  /** An outbox is turned away as another's exactly when some row of it isn't the counter's own. */
  lemma OwnedWhen(ctr: Counter, o: Outbox)
    ensures Owned(ctr, o) <==> OwnRows(ctr, o)
  {
    forall id: Id ensures id in IdsOf(o.registers) <==> exists register :: register in o.registers && register.id == id {
    }
    forall entry | entry in o.invoices ensures OwnInvoice(ctr, IdsOf(o.registers), entry) <==> OwnBill(ctr, o, entry) { OwnBillWhen(ctr, o, entry); }
    forall entry | entry in o.givenBack ensures OwnReturn(ctr, IdsOf(o.registers), entry) <==> OwnGivenBack(ctr, o, entry) { OwnBackWhen(ctr, o, entry); }
    hide OwnInvoice, OwnReturn, OwnBill, OwnGivenBack, IdsOf;
  }

  lemma OwnBillWhen(ctr: Counter, o: Outbox, entry: InvoiceEntry)
    ensures OwnInvoice(ctr, IdsOf(o.registers), entry) <==> OwnBill(ctr, o, entry)
  {
  }

  lemma OwnBackWhen(ctr: Counter, o: Outbox, entry: ReturnEntry)
    ensures OwnReturn(ctr, IdsOf(o.registers), entry) <==> OwnGivenBack(ctr, o, entry)
  {
  }

  // ----- Whatever a row points at

  /** The bills' tables: lines, discounts, payments and receipts of bills, lines of items, bills of customers, payments on registers. */
  ghost predicate BillsWhole(s: Server) {
    var d := s.documents;
    && (forall id :: id in d.invoices ==> d.invoices[id].customerId in s.people.customers)
    && (forall id :: id in d.saleLines ==> d.saleLines[id].invoiceId in d.invoices && d.saleLines[id].itemId in s.catalog.items)
    && (forall id :: id in d.discounts ==> d.discounts[id].invoiceId in d.invoices)
    && (forall id :: id in d.receipts ==> d.receipts[id].invoiceId in d.invoices)
    && (forall id :: id in d.payments ==>
          d.payments[id].invoiceId in d.invoices && (d.payments[id].registerId.Some? ==> d.payments[id].registerId.value in s.registers))
  }

  /** The returns': of bills, on registers, their lines of sale lines. */
  ghost predicate ReturnsWhole(s: Server) {
    var d := s.documents;
    && (forall id :: id in d.givenBack ==>
          d.givenBack[id].saleInvoiceId in d.invoices && (d.givenBack[id].registerId.Some? ==> d.givenBack[id].registerId.value in s.registers))
    && (forall id :: id in d.returnLines ==> d.returnLines[id].returnId in d.givenBack && d.returnLines[id].saleLineId in d.saleLines)
  }

  /** Registers of users; movements of a batch of the item's own, and of the bill or return they say they are of. */
  ghost predicate RestWhole(s: Server) {
    && (forall id :: id in s.registers ==> s.registers[id].userId in s.catalog.users)
    && (forall id :: id in s.stock.ledger ==> MovementWhole(s.catalog, s.documents, s.stock.ledger[id]))
  }

  ghost predicate MovementWhole(catalog: Catalog, d: Documents, row: LedgerRow) {
    && (row.batchId.Some? ==> row.batchId.value in catalog.batches && catalog.batches[row.batchId.value].itemId == row.itemId)
    && (row.referenceType.SaleTxn? ==> row.referenceId in d.invoices)
    && (row.referenceType.ReturnTxn? ==> row.referenceId in d.givenBack)
  }

  ghost predicate Whole(s: Server) { BillsWhole(s) && ReturnsWhole(s) && RestWhole(s) }

  lemma TablesGrow(s: Server, ctr: Counter, o: Outbox, newId: Id -> Id)
    requires DistinctRegisters(o.registers)
    ensures var after := Taken(s, ctr, o, newId);
            && s.documents.invoices.Keys + BillIds(o.invoices) <= after.documents.invoices.Keys
            && s.documents.saleLines.Keys <= after.documents.saleLines.Keys
            && s.documents.givenBack.Keys + ReturnIds(o.givenBack) <= after.documents.givenBack.Keys
            && s.registers.Keys + IdsOf(o.registers) == after.registers.Keys
            && s.people.customers.Keys <= after.people.customers.Keys
            && after.catalog == s.catalog
  {
    hide Taken, PlaceCustomers, SyncRegisters, AddCustomers, ById, DistinctRegisters;
    TakenPeople(s, ctr, o, newId);
    AddedAre(s.people, ctr.branchId, PlaceCustomers(s, ctr, o.customers).created);
    DocumentsGrow(s, ctr, o, newId);
    var after := Taken(s, ctr, o, newId);
    forall id ensures id in after.registers <==> id in s.registers.Keys + IdsOf(o.registers) {
      SyncRegisterIs(s.registers, ctr, o.registers, CashRowsOf(s.catalog, after.documents), id);
      SentIds(o.registers, id);
    }
  }

  lemma DocumentsGrow(s: Server, ctr: Counter, o: Outbox, newId: Id -> Id)
    ensures var after := Taken(s, ctr, o, newId).documents;
            && s.documents.invoices.Keys + BillIds(o.invoices) <= after.invoices.Keys
            && s.documents.saleLines.Keys <= after.saleLines.Keys
            && s.documents.givenBack.Keys + ReturnIds(o.givenBack) <= after.givenBack.Keys
  {
    hide Taken, PlaceCustomers, RowsAdded, SettledBill;
    DocumentsAdded(s, ctr, o, newId);
    var after, p := Taken(s, ctr, o, newId).documents, PlaceCustomers(s, ctr, o.customers);
    Grows(s.documents.invoices, after.invoices, BillsSettled(p, o), (row: InvoiceRow) => row.id);
    Grows(s.documents.saleLines, after.saleLines, RowsOf(o.invoices, (entry: InvoiceEntry) => entry.lines), (row: SaleLineRow) => row.id);
    Grows(s.documents.givenBack, after.givenBack, RowsOf(o.givenBack, (entry: ReturnEntry) => [entry.ret]), (row: ReturnRow) => row.id);
    forall id | id in BillIds(o.invoices) ensures id in after.invoices { BillIsThere(o, p, after, id); }
    forall id | id in ReturnIds(o.givenBack) ensures id in after.givenBack { ReturnIsThere(o, after, id); }
  }

  lemma Grows<R(!new)>(before: map<Id, R>, after: map<Id, R>, sent: iset<R>, idOf: R -> Id)
    requires RowsAdded(before, after, sent, idOf)
    ensures before.Keys <= after.Keys && (forall row :: row in sent ==> idOf(row) in after)
    ensures forall id :: id in before ==> after[id] == before[id]
    ensures forall id :: id in after && id !in before ==> after[id] in sent && idOf(after[id]) == id
  {
  }

  lemma BillIsThere(o: Outbox, p: Placed, after: Documents, id: Id)
    requires id in BillIds(o.invoices) && forall row: InvoiceRow :: row in BillsSettled(p, o) ==> row.id in after.invoices
    ensures id in after.invoices
  {
    var entry :| entry in o.invoices && entry.invoice.id == id;
    var row := entry.invoice.(customerId := SettledOn(p, entry.invoice.customerId));
    assert SettledBill(p, o, row);
    assert row in BillsSettled(p, o);
  }

  lemma ReturnIsThere(o: Outbox, after: Documents, id: Id)
    requires id in ReturnIds(o.givenBack)
    requires forall row: ReturnRow :: row in RowsOf(o.givenBack, (entry: ReturnEntry) => [entry.ret]) ==> row.id in after.givenBack
    ensures id in after.givenBack
  {
    var entry :| entry in o.givenBack && entry.ret.id == id;
    assert entry.ret in [entry.ret];
    assert InSome(o.givenBack, (entry: ReturnEntry) => [entry.ret], entry.ret);
  }

  // ----- The bills

  /** Every customer a bill is settled on is on the server afterwards. */
  lemma CustomerThere(s: Server, ctr: Counter, o: Outbox, newId: Id -> Id, row: InvoiceRow)
    requires Accepts(s, ctr, o, newId) && SettledBill(PlaceCustomers(s, ctr, o.customers), o, row)
    ensures row.customerId in Taken(s, ctr, o, newId).people.customers
  {
    hide Accepts, Taken, PlaceCustomers, AddCustomers, CreatedIds;
    var p := PlaceCustomers(s, ctr, o.customers);
    var entry :| entry in o.invoices && row == entry.invoice.(customerId := SettledOn(p, entry.invoice.customerId));
    AcceptedCustomers(s, ctr, o, newId, entry);
    MergedAreKnown(s, ctr, o.customers);
    TakenPeople(s, ctr, o, newId);
    AddedAre(s.people, ctr.branchId, p.created);
    assert CreatedIds(p.created) == CustomerIds(p.created) by { SameIds(p.created); }
  }

  lemma SameIds(rows: seq<CustomerRow>)
    ensures CreatedIds(rows) == CustomerIds(rows)
  {
  }

  lemma ItemsThere(s: Server, ctr: Counter, o: Outbox, newId: Id -> Id)
    requires Accepts(s, ctr, o, newId)
    ensures forall entry, row :: entry in o.invoices && row in entry.lines ==> row.itemId in s.catalog.items
    ensures forall row :: row in o.registers ==> row.userId in s.catalog.users
  {
    hide Accepts, Prepare, BatchClashes, NumberClashes, ReturnClashes, MissingClashes, VO.Conflicts, VerificationContext, Flat;
    NothingClashes(s, ctr, o, newId);
    var p := Prepare(s, ctr, o, newId);
    MissingAre(s, o, p.invoices, CreatedIds(p.created));
    forall entry, row | entry in o.invoices && row in entry.lines ensures row.itemId in s.catalog.items {
      InFlatRows(o.invoices, LINES, row);
      assert row in LINES(entry);
      assert InSome(o.invoices, LINES, row);
    }
  }

  /** A row sent is a bill's, and belongs to it. */
  lemma SentRow(ctr: Counter, o: Outbox)
    requires OwnRows(ctr, o)
    ensures forall row :: row in RowsOf(o.invoices, (entry: InvoiceEntry) => entry.lines) ==> row.invoiceId in BillIds(o.invoices)
    ensures forall row :: row in RowsOf(o.invoices, (entry: InvoiceEntry) => entry.discounts) ==> row.invoiceId in BillIds(o.invoices)
    ensures forall row :: row in RowsOf(o.invoices, (entry: InvoiceEntry) => entry.receipts) ==> row.invoiceId in BillIds(o.invoices)
    ensures forall row :: row in RowsOf(o.invoices, (entry: InvoiceEntry) => entry.payments) ==>
              row.invoiceId in BillIds(o.invoices) && (row.registerId.Some? ==> row.registerId.value in IdsOf(o.registers))
  {
  }

  lemma TakenBillsWhole(s: Server, ctr: Counter, o: Outbox, newId: Id -> Id)
    requires BillsWhole(s) && Accepts(s, ctr, o, newId) && DistinctRegisters(o.registers)
    ensures BillsWhole(Taken(s, ctr, o, newId))
  {
    hide Accepts, Taken, PlaceCustomers, RowsAdded, SettledBill, BillIds, IdsOf, DistinctRegisters, OwnRows;
    var d, after, p := s.documents, Taken(s, ctr, o, newId), PlaceCustomers(s, ctr, o.customers);
    TablesGrow(s, ctr, o, newId);
    DocumentsAdded(s, ctr, o, newId);
    AcceptedOwned(s, ctr, o, newId);
    OwnedWhen(ctr, o);
    SentRow(ctr, o);
    ItemsThere(s, ctr, o, newId);
    Grows(d.invoices, after.documents.invoices, BillsSettled(p, o), (row: InvoiceRow) => row.id);
    Grows(d.saleLines, after.documents.saleLines, RowsOf(o.invoices, (entry: InvoiceEntry) => entry.lines), (row: SaleLineRow) => row.id);
    Grows(d.discounts, after.documents.discounts, RowsOf(o.invoices, (entry: InvoiceEntry) => entry.discounts), (row: DiscountRow) => row.id);
    Grows(d.payments, after.documents.payments, RowsOf(o.invoices, (entry: InvoiceEntry) => entry.payments), (row: PaymentRow) => row.id);
    Grows(d.receipts, after.documents.receipts, RowsOf(o.invoices, (entry: InvoiceEntry) => entry.receipts), (row: ReceiptRow) => row.id);
    forall id | id in after.documents.invoices ensures after.documents.invoices[id].customerId in after.people.customers {
      if id !in d.invoices { CustomerThere(s, ctr, o, newId, after.documents.invoices[id]); }
    }
    forall id | id in after.documents.saleLines
      ensures after.documents.saleLines[id].invoiceId in after.documents.invoices && after.documents.saleLines[id].itemId in s.catalog.items
    {
      if id !in d.saleLines { LineOfItem(o, s.catalog.items, after.documents.saleLines[id]); }
    }
  }

  lemma LineOfItem(o: Outbox, items: set<Id>, row: SaleLineRow)
    requires row in RowsOf(o.invoices, (entry: InvoiceEntry) => entry.lines)
    requires forall entry, row :: entry in o.invoices && row in entry.lines ==> row.itemId in items
    ensures row.itemId in items
  {
  }

  // ----- The returns

  lemma SentBackRows(ctr: Counter, o: Outbox)
    requires OwnRows(ctr, o)
    ensures forall row :: row in RowsOf(o.givenBack, (entry: ReturnEntry) => entry.lines) ==> row.returnId in ReturnIds(o.givenBack)
  {
  }

  lemma SentReturn(ctr: Counter, o: Outbox, row: ReturnRow)
    requires OwnRows(ctr, o) && row in RowsOf(o.givenBack, (entry: ReturnEntry) => [entry.ret])
    ensures (row.registerId.Some? ==> row.registerId.value in IdsOf(o.registers)) && exists entry :: entry in o.givenBack && entry.ret == row
  {
    var f := (entry: ReturnEntry) => [entry.ret];
    assert InSome(o.givenBack, f, row);
    var entry :| entry in o.givenBack && row in f(entry);
    assert f(entry) == [entry.ret] && entry.ret == row;
    assert OwnGivenBack(ctr, o, entry);
  }

  lemma BillThere(s: Server, ctr: Counter, o: Outbox, newId: Id -> Id, entry: ReturnEntry)
    requires Accepts(s, ctr, o, newId) && entry in o.givenBack
    ensures entry.ret.saleInvoiceId in s.documents.invoices || entry.ret.saleInvoiceId in BillIds(o.invoices)
  {
    hide Accepts, BillIds, Owned, UniqueNumbers, Taken;
    AcceptedOwned(s, ctr, o, newId);
    if entry.ret.saleInvoiceId !in BillIds(o.invoices) { assert entry.ret.saleInvoiceId in ServerBills(o); }
  }

  /** The line a row gives back is one the server has afterwards. */
  lemma LineThere(s: Server, ctr: Counter, o: Outbox, newId: Id -> Id, row: ReturnLineRow)
    requires Accepts(s, ctr, o, newId) && row in RowsOf(o.givenBack, (entry: ReturnEntry) => entry.lines)
    ensures row.saleLineId in Taken(s, ctr, o, newId).documents.saleLines
  {
    hide Accepts, Taken, Flat, VO.SoldLines, VO.AddLines, VerificationContext, VS.Mentioned, Insert, WithCustomers, PlaceCustomers;
    var entry :| entry in o.givenBack && row in entry.lines;
    assert VS.Mentioned(o.givenBack, row.saleLineId) by { IsMentioned(o.givenBack, entry, row); }
    MentionedIsSold(s, ctr, o, newId, row.saleLineId);
    var ctx := VerificationContext(s, o);
    SoldLinesAre(ctx.serverLines, o.invoices);
    AddedLine(ctx.serverLines, ReturnsAfterSync.SentLines(o), row.saleLineId);
    TakenDocuments(s, ctr, o, newId);
    SettledBills(o.invoices, PlaceCustomers(s, ctr, o.customers).sameAs);
    InsertedAre(s.documents.saleLines, ReturnsAfterSync.SentLines(o), SALE_LINE_ID);
    ServerLinesThere(s, o, row.saleLineId);
  }

  lemma ServerLinesThere(s: Server, o: Outbox, line: Id)
    ensures line in VerificationContext(s, o).serverLines ==> line in s.documents.saleLines
  {
    hide TakenByOthers, VO.SoldOf, ServerBills, TableTotal, RoundingOf;
  }

  lemma IsMentioned(entries: seq<ReturnEntry>, entry: ReturnEntry, row: ReturnLineRow)
    requires entry in entries && row in entry.lines
    ensures VS.Mentioned(entries, row.saleLineId)
  {
    var k :| 0 <= k < |entries| && entries[k] == entry;
    var i :| 0 <= i < |entry.lines| && entry.lines[i] == row;
    assert VS.MentionedIn(entries[k].lines, row.saleLineId);
  }

  lemma TakenReturnsWhole(s: Server, ctr: Counter, o: Outbox, newId: Id -> Id)
    requires ReturnsWhole(s) && Accepts(s, ctr, o, newId) && DistinctRegisters(o.registers)
    ensures ReturnsWhole(Taken(s, ctr, o, newId))
  {
    hide Accepts, Taken, PlaceCustomers, RowsAdded, BillIds, ReturnIds, IdsOf, DistinctRegisters, OwnRows, InSome;
    var d, after := s.documents, Taken(s, ctr, o, newId);
    TablesGrow(s, ctr, o, newId);
    DocumentsAdded(s, ctr, o, newId);
    AcceptedOwned(s, ctr, o, newId);
    OwnedWhen(ctr, o);
    SentBackRows(ctr, o);
    Grows(d.givenBack, after.documents.givenBack, RowsOf(o.givenBack, (entry: ReturnEntry) => [entry.ret]), (row: ReturnRow) => row.id);
    Grows(d.returnLines, after.documents.returnLines, RowsOf(o.givenBack, (entry: ReturnEntry) => entry.lines), (row: ReturnLineRow) => row.id);
    forall id | id in after.documents.givenBack && id !in d.givenBack
      ensures var row := after.documents.givenBack[id];
              row.saleInvoiceId in after.documents.invoices && (row.registerId.Some? ==> row.registerId.value in after.registers)
    {
      SentReturn(ctr, o, after.documents.givenBack[id]);
      var entry :| entry in o.givenBack && entry.ret == after.documents.givenBack[id];
      BillThere(s, ctr, o, newId, entry);
    }
    forall id | id in after.documents.returnLines && id !in d.returnLines ensures after.documents.returnLines[id].saleLineId in after.documents.saleLines {
      LineThere(s, ctr, o, newId, after.documents.returnLines[id]);
    }
  }

  // ----- Registers and movements

  lemma {:induction false} InMovements(invoices: seq<InvoiceEntry>, givenBack: seq<ReturnEntry>, row: LedgerRow)
    requires row in Movements(invoices, givenBack)
    ensures (exists entry :: entry in invoices && row in entry.ledger) || (exists entry :: entry in givenBack && row in entry.ledger)
  {
    if row in InvoiceMovements(invoices) {
      FromInvoice(invoices, row);
      var k :| 0 <= k < |invoices| && row in invoices[k].ledger;
      assert invoices[k] in invoices;
    } else {
      FromReturn(givenBack, row);
      var k :| 0 <= k < |givenBack| && row in givenBack[k].ledger;
      assert givenBack[k] in givenBack;
    }
  }

  /** A piece of a movement is of its branch and item, of what it was of, at the time it was made. */
  lemma PieceOf(s: Server, o: Outbox, newId: Id -> Id, piece: LedgerRow)
    requires DistinctIds(Movements(o.invoices, o.givenBack)) && piece in Split(Replaced(s, o, newId), Movements(o.invoices, o.givenBack))
    ensures exists row :: row in Movements(o.invoices, o.givenBack) && SameOrigin(row, piece)
  {
    hide Movements, Replaced, Split, DistinctIds;
    ReplacedAreCuts(s, o, newId);
    SplitHas(Replaced(s, o, newId), Movements(o.invoices, o.givenBack), piece);
    var row :| row in Movements(o.invoices, o.givenBack) && piece in Replacement(Replaced(s, o, newId), row);
    if row.id in Replaced(s, o, newId) {
      PieceOrigin(row, Replaced(s, o, newId)[row.id], piece);
    }
  }

  ghost predicate SameOrigin(row: LedgerRow, piece: LedgerRow) {
    && piece.branchId == row.branchId && piece.itemId == row.itemId && piece.txnType == row.txnType && piece.createdAt == row.createdAt
    && piece.referenceType == row.referenceType && piece.referenceId == row.referenceId
    && (piece.batchId == row.batchId || piece.batchId == None)
  }

  lemma PieceOrigin(row: LedgerRow, pieces: seq<LedgerRow>, piece: LedgerRow)
    requires IsSplit(row, pieces) && piece in pieces
    ensures SameOrigin(row, piece)
  {
    var taken, newId :| 0 <= taken < row.qtyOut && pieces == SplitRow(row, taken, newId);
  }

  /** What is new in the ledger is a piece of a movement sent, of the counter's own branch, of a bill or return sent. */
  ghost predicate NewMovement(s: Server, ctr: Counter, o: Outbox, piece: LedgerRow) {
    && piece.branchId == ctr.branchId
    && (if piece.referenceType.SaleTxn? then piece.referenceId in BillIds(o.invoices)
        else piece.referenceType.ReturnTxn? && piece.referenceId in ReturnIds(o.givenBack))
    && (piece.batchId.Some? ==>
          && piece.batchId.value in s.catalog.batches && s.catalog.batches[piece.batchId.value].itemId == piece.itemId
          && !(piece.txnType.SaleTxn? && SoldTooLate(s.catalog, piece)))
  }

  /** Sold after its batch's last day. */
  ghost predicate SoldTooLate(catalog: Catalog, row: LedgerRow)
    requires row.batchId.Some? && row.batchId.value in catalog.batches
  {
    catalog.batches[row.batchId.value].lastDay.Some? && catalog.dayOf(row.createdAt) > catalog.batches[row.batchId.value].lastDay.value
  }

  lemma MovementOwn(ctr: Counter, o: Outbox, row: LedgerRow)
    requires OwnRows(ctr, o) && row in Movements(o.invoices, o.givenBack)
    ensures row.branchId == ctr.branchId
    ensures if row.referenceType.SaleTxn? then row.referenceId in BillIds(o.invoices)
            else row.referenceType.ReturnTxn? && row.referenceId in ReturnIds(o.givenBack)
  {
    hide Movements;
    InMovements(o.invoices, o.givenBack, row);
    if exists entry :: entry in o.invoices && row in entry.ledger {
      var entry :| entry in o.invoices && row in entry.ledger;
      assert OwnBill(ctr, o, entry);
    } else {
      var entry :| entry in o.givenBack && row in entry.ledger;
      assert OwnGivenBack(ctr, o, entry);
    }
  }

  lemma MovementsAre(s: Server, ctr: Counter, o: Outbox, newId: Id -> Id, id: Id)
    requires Accepts(s, ctr, o, newId) && DistinctIds(Movements(o.invoices, o.givenBack))
    requires id in Taken(s, ctr, o, newId).stock.ledger
    ensures var after := Taken(s, ctr, o, newId).stock.ledger;
            if id in s.stock.ledger then after[id] == s.stock.ledger[id] else after[id].id == id && NewMovement(s, ctr, o, after[id])
    ensures forall id :: id in s.stock.ledger ==> id in Taken(s, ctr, o, newId).stock.ledger
  {
    hide Accepts, Taken, Movements, Split, RecordAll, Insert, DistinctIds, OwnRows, Replaced, Prepare, BatchClashes, NumberClashes, MissingClashes,
      ReturnClashes, VO.Conflicts, VerificationContext, SameOrigin, BillIds, ReturnIds;
    AcceptedOwned(s, ctr, o, newId);
    OwnedWhen(ctr, o);
    NothingClashes(s, ctr, o, newId);
    PreparedMovements(s, ctr, o, newId);
    var pieces := Split(Replaced(s, o, newId), Movements(o.invoices, o.givenBack));
    LedgerIs(s, ctr, o, newId);
    InsertedAre(s.stock.ledger, pieces, LEDGER_ID);
    if id !in s.stock.ledger {
      var piece := Taken(s, ctr, o, newId).stock.ledger[id];
      PieceOf(s, o, newId, piece);
      var row :| row in Movements(o.invoices, o.givenBack) && SameOrigin(row, piece);
      MovementOwn(ctr, o, row);
      BatchFits(s, pieces, piece);
      OriginOwn(s, ctr, o, row, piece);
    }
  }

  lemma OriginOwn(s: Server, ctr: Counter, o: Outbox, row: LedgerRow, piece: LedgerRow)
    requires SameOrigin(row, piece) && row.branchId == ctr.branchId
    requires if row.referenceType.SaleTxn? then row.referenceId in BillIds(o.invoices)
             else row.referenceType.ReturnTxn? && row.referenceId in ReturnIds(o.givenBack)
    requires piece.batchId.Some? ==> OfRightBatch(s.catalog, piece) && !Expired(s.catalog, piece)
    ensures NewMovement(s, ctr, o, piece)
  {
    hide BillIds, ReturnIds;
  }

  lemma LedgerIs(s: Server, ctr: Counter, o: Outbox, newId: Id -> Id)
    ensures Taken(s, ctr, o, newId).stock.ledger
         == Insert(s.stock.ledger, Split(Replaced(s, o, newId), Movements(o.invoices, o.givenBack)), LEDGER_ID)
  {
    hide PlaceRows, Ordered, PlaceCustomers, Split, RecordAll, AddFlags, AddDocuments, SyncRegisters, AddCustomers, Insert, Movements;
    PreparedMovements(s, ctr, o, newId);
    RecordedLedger(s.stock, Split(Replaced(s, o, newId), Movements(o.invoices, o.givenBack)));
  }

  lemma BatchFits(s: Server, movements: seq<LedgerRow>, row: LedgerRow)
    requires BatchClashes(s, movements) == {} && row in movements && row.id !in s.stock.ledger
    ensures row.batchId.Some? ==> OfRightBatch(s.catalog, row) && !Expired(s.catalog, row)
  {
    if row.batchId.Some? {
      if !OfRightBatch(s.catalog, row) {
        WrongBatchClashes(s, movements, row);
      } else if Expired(s.catalog, row) {
        ExpiredBatchClashes(s, movements, row);
      }
    }
  }

  lemma ExpiredBatchClashes(s: Server, movements: seq<LedgerRow>, row: LedgerRow)
    requires row in movements && row.id !in s.stock.ledger && row.batchId.Some? && OfRightBatch(s.catalog, row) && Expired(s.catalog, row)
    ensures ExpiredBatch(row.id) in BatchClashes(s, movements)
  {
  }

  /** And of batches: clashes exactly when one is of another item's batch, or a sale after its batch's last day. */
  lemma BatchClashesWhen(s: Server, movements: seq<LedgerRow>)
    ensures BatchClashes(s, movements) == {} <==>
            forall row :: row in movements && row.id !in s.stock.ledger && row.batchId.Some? ==>
              && row.batchId.value in s.catalog.batches && s.catalog.batches[row.batchId.value].itemId == row.itemId
              && !(row.txnType.SaleTxn? && SoldTooLate(s.catalog, row))
  {
    if BatchClashes(s, movements) == {} {
      forall row | row in movements && row.id !in s.stock.ledger && row.batchId.Some?
        ensures OfRightBatch(s.catalog, row) && !Expired(s.catalog, row)
      {
        BatchFits(s, movements, row);
      }
    }
  }

  /** A register afterwards is one the server had, or one sent, on the counter it was on. */
  lemma RegisterOwn(s: Server, ctr: Counter, o: Outbox, newId: Id -> Id, id: Id)
    requires OwnRows(ctr, o) && DistinctRegisters(o.registers) && id in Taken(s, ctr, o, newId).registers
    ensures var row := Taken(s, ctr, o, newId).registers[id];
            if id in s.registers then row.userId == s.registers[id].userId && row.counterId == s.registers[id].counterId
            else row.counterId == ctr.id && row.branchId == ctr.branchId && exists sent :: sent in o.registers && sent.id == id && sent.userId == row.userId
  {
    hide Taken, ById, Unknown, FirstAfter, Replaces, OwnRows, RegisterCash.Sums, DistinctRegisters;
    TakenPeople(s, ctr, o, newId);
    var cash := CashRowsOf(s.catalog, Taken(s, ctr, o, newId).documents);
    SyncRegisterIs(s.registers, ctr, o.registers, cash, id);
    ByIdHolds(o.registers, REGISTER_ID);
    RegistersOwn(ctr, o);
  }

  lemma RegistersOwn(ctr: Counter, o: Outbox)
    requires OwnRows(ctr, o)
    ensures forall row :: row in o.registers ==> row.counterId == ctr.id && row.branchId == ctr.branchId
  {
  }

  lemma TakenRestWhole(s: Server, ctr: Counter, o: Outbox, newId: Id -> Id)
    requires RestWhole(s) && Accepts(s, ctr, o, newId) && DistinctRegisters(o.registers) && DistinctIds(Movements(o.invoices, o.givenBack))
    ensures RestWhole(Taken(s, ctr, o, newId))
  {
    hide Accepts, Taken, OwnRows, BillIds, ReturnIds, Movements, DistinctIds, DistinctRegisters, IdsOf;
    var after := Taken(s, ctr, o, newId);
    TablesGrow(s, ctr, o, newId);
    AcceptedOwned(s, ctr, o, newId);
    OwnedWhen(ctr, o);
    ItemsThere(s, ctr, o, newId);
    forall id | id in after.registers ensures after.registers[id].userId in s.catalog.users { RegisterOwn(s, ctr, o, newId, id); }
    forall id | id in after.stock.ledger ensures MovementWhole(s.catalog, after.documents, after.stock.ledger[id]) {
      MovementsAre(s, ctr, o, newId, id);
    }
  }

  /** A sync that is taken leaves no row pointing at one that isn't there, if none was before. */
  lemma TakenStaysWhole(s: Server, ctr: Counter, o: Outbox, newId: Id -> Id)
    requires Whole(s) && Accepts(s, ctr, o, newId) && DistinctRegisters(o.registers) && DistinctIds(Movements(o.invoices, o.givenBack))
    ensures Whole(Taken(s, ctr, o, newId))
  {
    hide Accepts, Taken, BillsWhole, ReturnsWhole, RestWhole, Movements, DistinctIds, DistinctRegisters;
    TakenBillsWhole(s, ctr, o, newId);
    TakenReturnsWhole(s, ctr, o, newId);
    TakenRestWhole(s, ctr, o, newId);
  }

  // ----- Only what belongs to the counter is added

  /** New bills are of its branch, in its own series; new rows of them were sent with them. */
  ghost predicate OwnBillsAdded(d: Documents, d1: Documents, ctr: Counter, o: Outbox) {
    && (forall id :: id in d1.invoices && id !in d.invoices ==> d1.invoices[id].branchId == ctr.branchId && d1.invoices[id].documentSeries == ctr.invoiceSeries)
    && (forall id :: id in d1.saleLines && id !in d.saleLines ==> SentWith(o, d1.saleLines[id].invoiceId, (entry: InvoiceEntry) => entry.lines, d1.saleLines[id]))
    && (forall id :: id in d1.discounts && id !in d.discounts ==> SentWith(o, d1.discounts[id].invoiceId, (entry: InvoiceEntry) => entry.discounts, d1.discounts[id]))
    && (forall id :: id in d1.payments && id !in d.payments ==> SentWith(o, d1.payments[id].invoiceId, (entry: InvoiceEntry) => entry.payments, d1.payments[id]))
    && (forall id :: id in d1.receipts && id !in d.receipts ==> SentWith(o, d1.receipts[id].invoiceId, (entry: InvoiceEntry) => entry.receipts, d1.receipts[id]))
  }

  /** New returns are in its own series, of bills in its own series; new rows of them were sent with them. */
  ghost predicate OwnReturnsAdded(d: Documents, d1: Documents, ctr: Counter, o: Outbox) {
    && (forall id :: id in d1.givenBack && id !in d.givenBack ==>
          && d1.givenBack[id].documentSeries == ctr.returnSeries
          && d1.givenBack[id].saleInvoiceId in d1.invoices
          && (d1.givenBack[id].saleInvoiceId in d.invoices && d1.givenBack[id].saleInvoiceId !in BillIds(o.invoices) ==>
                d1.invoices[d1.givenBack[id].saleInvoiceId].documentSeries == ctr.invoiceSeries))
    && (forall id :: id in d1.returnLines && id !in d.returnLines ==> SentBackWith(o, d1.returnLines[id]))
  }

  /** New registers are on the counter, new customers of its branch, and new movements of what was sent. */
  ghost predicate OwnRestAdded(s: Server, after: Server, ctr: Counter, o: Outbox) {
    && (forall id :: id in after.registers && id !in s.registers ==> after.registers[id].counterId == ctr.id && after.registers[id].branchId == ctr.branchId)
    && (forall id :: id in after.people.customers && id !in s.people.customers ==> after.people.customers[id].branchId == ctr.branchId && !after.people.customers[id].walkIn)
    && (forall id :: id in after.stock.ledger && id !in s.stock.ledger ==> NewMovement(s, ctr, o, after.stock.ledger[id]))
  }

  /** A row sent with the bill it is of. */
  ghost predicate SentWith<R>(o: Outbox, bill: Id, of: InvoiceEntry -> seq<R>, row: R) {
    exists entry :: entry in o.invoices && entry.invoice.id == bill && row in of(entry)
  }

  ghost predicate SentBackWith(o: Outbox, row: ReturnLineRow) {
    exists entry :: entry in o.givenBack && entry.ret.id == row.returnId && row in entry.lines
  }

  lemma RowsWith<R(!new)>(ctr: Counter, o: Outbox, of: InvoiceEntry -> seq<R>, billOf: R -> Id)
    requires forall entry, row :: entry in o.invoices && row in of(entry) ==> billOf(row) == entry.invoice.id
    ensures forall row :: row in RowsOf(o.invoices, of) ==> SentWith(o, billOf(row), of, row)
  {
    forall row | row in RowsOf(o.invoices, of) ensures SentWith(o, billOf(row), of, row) {
      assert InSome(o.invoices, of, row);
    }
  }

  lemma OwnBillsAreAdded(s: Server, ctr: Counter, o: Outbox, newId: Id -> Id)
    requires OwnRows(ctr, o)
    ensures OwnBillsAdded(s.documents, Taken(s, ctr, o, newId).documents, ctr, o)
  {
    hide Taken, PlaceCustomers, RowsAdded, InSome, SentWith, SettledBill, OwnRows;
    var d, after, p := s.documents, Taken(s, ctr, o, newId), PlaceCustomers(s, ctr, o.customers);
    DocumentsAdded(s, ctr, o, newId);
    RowsBelong(ctr, o);
    RowsWith(ctr, o, (entry: InvoiceEntry) => entry.lines, (row: SaleLineRow) => row.invoiceId);
    RowsWith(ctr, o, (entry: InvoiceEntry) => entry.discounts, (row: DiscountRow) => row.invoiceId);
    RowsWith(ctr, o, (entry: InvoiceEntry) => entry.payments, (row: PaymentRow) => row.invoiceId);
    RowsWith(ctr, o, (entry: InvoiceEntry) => entry.receipts, (row: ReceiptRow) => row.invoiceId);
    Grows(d.invoices, after.documents.invoices, BillsSettled(p, o), (row: InvoiceRow) => row.id);
    Grows(d.saleLines, after.documents.saleLines, RowsOf(o.invoices, (entry: InvoiceEntry) => entry.lines), (row: SaleLineRow) => row.id);
    Grows(d.discounts, after.documents.discounts, RowsOf(o.invoices, (entry: InvoiceEntry) => entry.discounts), (row: DiscountRow) => row.id);
    Grows(d.payments, after.documents.payments, RowsOf(o.invoices, (entry: InvoiceEntry) => entry.payments), (row: PaymentRow) => row.id);
    Grows(d.receipts, after.documents.receipts, RowsOf(o.invoices, (entry: InvoiceEntry) => entry.receipts), (row: ReceiptRow) => row.id);
    BillsInSeries(ctr, o, p);
  }

  lemma RowsBelong(ctr: Counter, o: Outbox)
    requires OwnRows(ctr, o)
    ensures forall entry, row :: entry in o.invoices && row in entry.lines ==> row.invoiceId == entry.invoice.id
    ensures forall entry, row :: entry in o.invoices && row in entry.discounts ==> row.invoiceId == entry.invoice.id
    ensures forall entry, row :: entry in o.invoices && row in entry.payments ==> row.invoiceId == entry.invoice.id
    ensures forall entry, row :: entry in o.invoices && row in entry.receipts ==> row.invoiceId == entry.invoice.id
  {
  }

  lemma BillsInSeries(ctr: Counter, o: Outbox, p: Placed)
    requires OwnRows(ctr, o)
    ensures forall row :: row in BillsSettled(p, o) ==> row.branchId == ctr.branchId && row.documentSeries == ctr.invoiceSeries
  {
  }

  lemma ReturnInSeries(ctr: Counter, o: Outbox, row: ReturnRow)
    requires OwnRows(ctr, o) && row in RowsOf(o.givenBack, (entry: ReturnEntry) => [entry.ret])
    ensures row.documentSeries == ctr.returnSeries
  {
    SentReturn(ctr, o, row);
    var entry :| entry in o.givenBack && entry.ret == row;
    assert OwnGivenBack(ctr, o, entry);
  }

  lemma ReturnRowWith(ctr: Counter, o: Outbox, row: ReturnLineRow)
    requires OwnRows(ctr, o) && row in RowsOf(o.givenBack, (entry: ReturnEntry) => entry.lines)
    ensures SentBackWith(o, row)
  {
    var entry :| entry in o.givenBack && row in entry.lines;
    assert OwnGivenBack(ctr, o, entry);
  }

  lemma ReturnOfOwnBill(s: Server, ctr: Counter, o: Outbox, newId: Id -> Id, row: ReturnRow)
    requires Accepts(s, ctr, o, newId) && row in RowsOf(o.givenBack, (entry: ReturnEntry) => [entry.ret])
    ensures var after := Taken(s, ctr, o, newId).documents.invoices;
            && row.saleInvoiceId in after
            && (row.saleInvoiceId in s.documents.invoices && row.saleInvoiceId !in BillIds(o.invoices) ==>
                  after[row.saleInvoiceId].documentSeries == ctr.invoiceSeries)
  {
    hide Accepts, Taken, BillIds, OwnRows, RowsAdded, PlaceCustomers, SettledBill, Owned, UniqueNumbers;
    AcceptedOwned(s, ctr, o, newId);
    OwnedWhen(ctr, o);
    SentReturn(ctr, o, row);
    var entry :| entry in o.givenBack && entry.ret == row;
    BillThere(s, ctr, o, newId, entry);
    DocumentsGrow(s, ctr, o, newId);
    DocumentsAdded(s, ctr, o, newId);
    Grows(s.documents.invoices, Taken(s, ctr, o, newId).documents.invoices, BillsSettled(PlaceCustomers(s, ctr, o.customers), o), (row: InvoiceRow) => row.id);
    if row.saleInvoiceId !in BillIds(o.invoices) { assert row.saleInvoiceId in ServerBills(o); }
  }

  lemma OwnReturnsAreAdded(s: Server, ctr: Counter, o: Outbox, newId: Id -> Id)
    requires Accepts(s, ctr, o, newId) && OwnRows(ctr, o)
    ensures OwnReturnsAdded(s.documents, Taken(s, ctr, o, newId).documents, ctr, o)
  {
    hide Accepts, Taken, RowsAdded, InSome, SentBackWith, OwnRows, BillIds, RowsOf;
    var d, after := s.documents, Taken(s, ctr, o, newId);
    DocumentsAdded(s, ctr, o, newId);
    Grows(d.givenBack, after.documents.givenBack, RowsOf(o.givenBack, (entry: ReturnEntry) => [entry.ret]), (row: ReturnRow) => row.id);
    Grows(d.returnLines, after.documents.returnLines, RowsOf(o.givenBack, (entry: ReturnEntry) => entry.lines), (row: ReturnLineRow) => row.id);
    forall id | id in after.documents.givenBack && id !in d.givenBack
      ensures var row := after.documents.givenBack[id];
              && row.documentSeries == ctr.returnSeries && row.saleInvoiceId in after.documents.invoices
              && (row.saleInvoiceId in d.invoices && row.saleInvoiceId !in BillIds(o.invoices) ==>
                    after.documents.invoices[row.saleInvoiceId].documentSeries == ctr.invoiceSeries)
    {
      ReturnInSeries(ctr, o, after.documents.givenBack[id]);
      ReturnOfOwnBill(s, ctr, o, newId, after.documents.givenBack[id]);
    }
    forall id | id in after.documents.returnLines && id !in d.returnLines ensures SentBackWith(o, after.documents.returnLines[id]) {
      ReturnRowWith(ctr, o, after.documents.returnLines[id]);
    }
  }

  /** Whatever a sync that is taken adds is the counter's own, and was sent with the document it belongs to. */
  lemma OnlyOwnIsAdded(s: Server, ctr: Counter, o: Outbox, newId: Id -> Id)
    requires Accepts(s, ctr, o, newId) && DistinctRegisters(o.registers) && DistinctIds(Movements(o.invoices, o.givenBack))
    ensures var after := Taken(s, ctr, o, newId);
            OwnBillsAdded(s.documents, after.documents, ctr, o) && OwnReturnsAdded(s.documents, after.documents, ctr, o) && OwnRestAdded(s, after, ctr, o)
  {
    hide Accepts, Taken, OwnRows, Movements, DistinctIds, DistinctRegisters, OwnBillsAdded, OwnReturnsAdded, OwnRestAdded;
    AcceptedOwned(s, ctr, o, newId);
    OwnedWhen(ctr, o);
    OwnBillsAreAdded(s, ctr, o, newId);
    OwnReturnsAreAdded(s, ctr, o, newId);
    OwnRestIsAdded(s, ctr, o, newId);
  }

  lemma NewCustomersOwn(s: Server, ctr: Counter, o: Outbox, newId: Id -> Id)
    ensures var customers := Taken(s, ctr, o, newId).people.customers;
            forall id :: id in customers && id !in s.people.customers ==> customers[id].branchId == ctr.branchId && !customers[id].walkIn
  {
    hide Taken, PlaceCustomers, AddCustomers;
    TakenPeople(s, ctr, o, newId);
    AddedAre(s.people, ctr.branchId, PlaceCustomers(s, ctr, o.customers).created);
  }

  lemma OwnRestIsAdded(s: Server, ctr: Counter, o: Outbox, newId: Id -> Id)
    requires Accepts(s, ctr, o, newId) && OwnRows(ctr, o) && DistinctRegisters(o.registers) && DistinctIds(Movements(o.invoices, o.givenBack))
    ensures OwnRestAdded(s, Taken(s, ctr, o, newId), ctr, o)
  {
    hide Accepts, Taken, PlaceCustomers, OwnRows, Movements, DistinctIds, DistinctRegisters, AddCustomers, NewMovement;
    var after := Taken(s, ctr, o, newId);
    forall id | id in after.registers && id !in s.registers
      ensures after.registers[id].counterId == ctr.id && after.registers[id].branchId == ctr.branchId
    {
      RegisterOwn(s, ctr, o, newId, id);
    }
    NewCustomersOwn(s, ctr, o, newId);
    forall id | id in after.stock.ledger && id !in s.stock.ledger ensures NewMovement(s, ctr, o, after.stock.ledger[id]) {
      MovementsAre(s, ctr, o, newId, id);
    }
  }
}
