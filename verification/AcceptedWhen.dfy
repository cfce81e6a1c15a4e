/**
 * Exactly when the server takes an outbox (apps/api/src/fallback/fallback.service.ts, apps/api/src/fallback/sync-checks.ts,
 * apps/api/src/fallback/verify-outbox.ts): what must be so of its rows, and of the tables with them in.
 */
module AcceptedWhen {
  import opened AcceptedOutbox
  import opened BatchShortfalls
  import opened BillsChecked
  import opened GrownAccepted
  import opened GrownReturns
  import opened OutboxRows
  import opened ReferencesAfterSync
  import opened ResentOutbox
  import opened ReturnsChecked
  import opened ServerTables
  import opened Sync
  import opened SyncChecks
  import opened TablesAfterSync
  import VO = VerifyOutbox

  /** How much off list prices a user may give: an admin anything, anyone else the cashiers' percentage. */
  ghost function PercentOf(catalog: Catalog, user: Id): (r: Option<int>) {
    if user in catalog.users && catalog.users[user] then None else Some(catalog.cashierLimit)
  }

  /** A bill the returns sent are of, that isn't sent itself. */
  ghost predicate ReturnedOnly(o: Outbox, bill: Id) {
    (exists entry :: entry in o.givenBack && entry.ret.saleInvoiceId == bill) && forall entry :: entry in o.invoices ==> entry.invoice.id != bill
  }

  lemma LimitsAre(s: Server, o: Outbox, k: nat)
    requires k < |o.invoices|
    ensures VO.CashierLimit(VerificationContext(s, o), o.invoices[k].invoice.createdBy) == PercentOf(s.catalog, o.invoices[k].invoice.createdBy)
  {
    hide TakenByOthers, RoundingOf, VO.SoldOf, ServerBills, ReturnIds;
    var ctx, user := VerificationContext(s, o), o.invoices[k].invoice.createdBy;
    assert o.invoices[k] in o.invoices;
    assert user in Sellers(o.invoices);
  }

  /** What the check is told of bills the server had: their lines, and what returns other than those sent took back. */
  lemma ContextIs(s: Server, o: Outbox)
    ensures var ctx, d := VerificationContext(s, o), s.documents;
            && (forall line :: line in ctx.serverLines <==> line in d.saleLines && ReturnedOnly(o, d.saleLines[line].invoiceId))
            && (forall line :: line in ctx.serverLines ==>
                  ctx.serverLines[line].itemId == d.saleLines[line].itemId
                  && ctx.serverLines[line].parts == VO.Parts(d.saleLines[line].qty, d.saleLines[line].taxable, d.saleLines[line].cgst, d.saleLines[line].sgst, d.saleLines[line].igst))
            && (forall bill :: bill in ctx.serverRounding <==> bill in d.invoices && ReturnedOnly(o, bill))
            && (forall bill :: bill in ctx.serverRounding ==> ctx.serverRounding[bill].roundOff == d.invoices[bill].roundOff)
  {
    hide TakenByOthers, RoundingOf, BillIds, Sellers, ReturnIds;
    forall bill: Id ensures bill in ServerBills(o) <==> ReturnedOnly(o, bill) { ServerBillWhen(o, bill); }
  }

  lemma ServerBillWhen(o: Outbox, bill: Id)
    ensures bill in ServerBills(o) <==> ReturnedOnly(o, bill)
  {
  }

  /** Every bill sent is right, for what its seller may take off, and every return after those before it. */
  ghost predicate DocumentsRight(s: Server, o: Outbox) {
    var ctx := VerificationContext(s, o);
    && (forall entry :: entry in o.invoices ==> RightBill(entry, PercentOf(s.catalog, entry.invoice.createdBy)))
    && RightReturns(VO.SoldLines(ctx.serverLines, o.invoices), VO.Start(ctx, o.invoices), o.givenBack)
  }

  lemma MoneyWhen(s: Server, ctr: Counter, o: Outbox, newId: Id -> Id)
    requires DistinctIds(Movements(o.invoices, o.givenBack))
    ensures var p := Prepare(s, ctr, o, newId);
            VO.Conflicts(VerificationContext(s, o), p.invoices, p.givenBack) == [] <==> DocumentsRight(s, o)
  {
    hide Prepare, VO.Conflicts, VerificationContext, Movements, DistinctIds, RightBill, RightReturns, VO.SoldLines, VO.Start, PercentOf, VO.CashierLimit;
    var ctx := VerificationContext(s, o);
    CheckedAsSent(s, ctr, o, newId, ctx);
    NothingFoundWhen(ctx, o.invoices, o.givenBack);
    forall k: nat | k < |o.invoices|
      ensures VO.CashierLimit(ctx, o.invoices[k].invoice.createdBy) == PercentOf(s.catalog, o.invoices[k].invoice.createdBy)
    {
      LimitsAre(s, o, k);
    }
    if forall k :: 0 <= k < |o.invoices| ==> RightBill(o.invoices[k], VO.CashierLimit(ctx, o.invoices[k].invoice.createdBy)) {
      forall entry | entry in o.invoices ensures RightBill(entry, PercentOf(s.catalog, entry.invoice.createdBy)) {
        var k: nat :| k < |o.invoices| && o.invoices[k] == entry;
      }
    }
  }

  /** No number sent is that of another document on the server. */
  ghost predicate NumbersFree(d: Documents, o: Outbox) {
    && (forall entry, id :: entry in o.invoices && id in d.invoices && d.invoices[id].invoiceNo == entry.invoice.invoiceNo ==>
          exists sent :: sent in o.invoices && sent.invoice.id == id)
    && (forall entry, row, id :: entry in o.invoices && row in entry.receipts && id in d.receipts && d.receipts[id].receiptNo == row.receiptNo ==>
          exists sent, other :: sent in o.invoices && other in sent.receipts && other.id == id)
    && (forall entry, id :: entry in o.givenBack && id in d.givenBack && d.givenBack[id].returnNo == entry.ret.returnNo ==>
          exists sent :: sent in o.givenBack && sent.ret.id == id)
  }

  lemma SentReceipts(o: Outbox)
    ensures forall no: string :: no in ReceiptNos(Flat(o.invoices, RECEIPTS)) <==> exists entry, row :: entry in o.invoices && row in entry.receipts && row.receiptNo == no
    ensures forall id: Id :: id in ReceiptIds(Flat(o.invoices, RECEIPTS)) <==> exists entry, row :: entry in o.invoices && row in entry.receipts && row.id == id
  {
    hide Flat;
    forall row: ReceiptRow ensures row in Flat(o.invoices, RECEIPTS) <==> exists entry :: entry in o.invoices && row in entry.receipts {
      InFlatRows(o.invoices, RECEIPTS, row);
      ReceiptsIn(o.invoices, row);
    }
  }

  lemma ReceiptsIn(invoices: seq<InvoiceEntry>, row: ReceiptRow)
    ensures InSome(invoices, RECEIPTS, row) <==> exists entry :: entry in invoices && row in entry.receipts
  {
    if exists entry :: entry in invoices && row in entry.receipts {
      var entry :| entry in invoices && row in entry.receipts;
      assert row in RECEIPTS(entry);
    }
  }

  lemma NumbersWhen(d: Documents, o: Outbox)
    ensures NumberClashes(d, o) == {} <==> NumbersFree(d, o)
  {
    hide Flat, ReceiptNos, ReceiptIds;
    SentReceipts(o);
    UsedNumbersClash(d, o);
  }

  /** The counter's own series, of any bill of the server's that is returned. */
  ghost predicate OwnBillsReturned(d: Documents, ctr: Counter, o: Outbox) {
    forall bill :: ReturnedOnly(o, bill) ==> bill in d.invoices && d.invoices[bill].documentSeries == ctr.invoiceSeries
  }

  lemma OwnBillsWhen(d: Documents, ctr: Counter, o: Outbox)
    ensures ServerBillsAreOwn(d, ctr, o) <==> OwnBillsReturned(d, ctr, o)
  {
    hide ServerBills, ReturnedOnly;
    forall bill: Id ensures bill in ServerBills(o) <==> ReturnedOnly(o, bill) { ServerBillWhen(o, bill); }
  }

  ghost predicate BatchesFit(s: Server, movements: seq<LedgerRow>) {
    forall row :: row in movements && row.id !in s.stock.ledger && row.batchId.Some? ==>
      && row.batchId.value in s.catalog.batches && s.catalog.batches[row.batchId.value].itemId == row.itemId
      && !(row.txnType.SaleTxn? && SoldTooLate(s.catalog, row))
  }

  /**
   * The server takes an outbox exactly when it is of its own version, every row is the counter's own and of nothing missing,
   * no number or batch is another's, its bills and returns are right, and with it in the tables its own bills keep within
   * what was sold and paid, and every number is one document's.
   */
  lemma AcceptedExactlyWhen(s: Server, ctr: Counter, o: Outbox, newId: Id -> Id)
    requires DistinctIds(Movements(o.invoices, o.givenBack)) && WholeReturns(s.documents, o.givenBack)
    ensures Accepts(s, ctr, o, newId) <==>
            && o.schemaVersion == s.catalog.schemaVersion
            && OwnRows(ctr, o) && OwnBillsReturned(s.documents, ctr, o) && NoneGoneOf(s, o)
            && NumbersFree(s.documents, o)
            && BatchesFit(s, Split(Replaced(s, o, newId), Movements(o.invoices, o.givenBack)))
            && DocumentsRight(s, o)
            && BillsKeepReturns(s.documents, Taken(s, ctr, o, newId).documents, o)
            && WritesOnce(o, PlaceCustomers(s, ctr, o.customers).created)
            && UniqueNumbers(Taken(s, ctr, o, newId).documents)
  {
    hide Owned, ServerBillsAreOwn, ClashesOf, WritesOnce, UniqueNumbers, Taken, PlaceCustomers, Clear, OwnRows, OwnBillsReturned, NoneGoneOf, NumbersFree,
      BatchesFit, DocumentsRight, BillsKeepReturns, Movements, DistinctIds, WholeReturns, Split, Replaced;
    OwnedWhen(ctr, o);
    OwnBillsWhen(s.documents, ctr, o);
    ClearIs(s, ctr, o, newId);
    if Owned(ctr, o) { ClearWhen(s, ctr, o, newId); }
  }

  lemma ClearWhen(s: Server, ctr: Counter, o: Outbox, newId: Id -> Id)
    requires Owned(ctr, o) && DistinctIds(Movements(o.invoices, o.givenBack)) && WholeReturns(s.documents, o.givenBack)
    ensures Clear(s, ctr, o, newId) <==>
            && NoneGoneOf(s, o) && NumbersFree(s.documents, o)
            && BatchesFit(s, Split(Replaced(s, o, newId), Movements(o.invoices, o.givenBack)))
            && DocumentsRight(s, o) && BillsKeepReturns(s.documents, Taken(s, ctr, o, newId).documents, o)
  {
    hide Owned, Taken, Prepare, NoneGoneOf, NumbersFree, BatchClashes, NumberClashes, MissingClashes, ReturnClashes, VO.Conflicts, VerificationContext,
      DocumentsRight, BillsKeepReturns, Movements, DistinctIds, WholeReturns, Split, Replaced, CreatedIds;
    NoneMissingIs(s, ctr, o, newId);
    NumbersWhen(s.documents, o);
    BatchClashesWhen(s, Split(Replaced(s, o, newId), Movements(o.invoices, o.givenBack)));
    MoneyWhen(s, ctr, o, newId);
    ReturnClashesWhen(s, ctr, o, newId);
  }
}
