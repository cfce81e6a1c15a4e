/**
 * What stops offline rows going in as they are: rows that aren't the counter's own, and clashes with
 * what the server has (apps/api/src/fallback/sync-checks.ts, apps/api/src/fallback/fallback.service.ts).
 */
module SyncChecks {
  import opened BatchShortfalls
  import opened OutboxRows
  import opened Rounding
  import opened ServerTables
  import opened Tables
  import VO = VerifyOutbox

  // ----- The counter's own rows

  predicate OwnInvoice(ctr: Counter, registers: set<Id>, entry: InvoiceEntry) {
    var id := entry.invoice.id;
    && entry.invoice.branchId == ctr.branchId && entry.invoice.documentSeries == ctr.invoiceSeries
    && (forall row :: row in entry.payments ==>
          row.invoiceId == id && (row.registerId.Some? ==> row.registerId.value in registers))
    && (forall row :: row in entry.lines ==> row.invoiceId == id)
    && (forall row :: row in entry.discounts ==> row.invoiceId == id)
    && (forall row :: row in entry.receipts ==> row.invoiceId == id)
    && (forall row :: row in entry.ledger ==> row.branchId == ctr.branchId && row.referenceId == id && row.referenceType.SaleTxn?)
  }

  predicate OwnReturn(ctr: Counter, registers: set<Id>, entry: ReturnEntry) {
    && entry.ret.documentSeries == ctr.returnSeries
    && entry.ret.registerId.Some? && entry.ret.registerId.value in registers
    && (forall row :: row in entry.lines ==> row.returnId == entry.ret.id)
    && (forall row :: row in entry.ledger ==>
          row.branchId == ctr.branchId && row.referenceId == entry.ret.id && row.referenceType.ReturnTxn?)
  }

  predicate OwnSequence(ctr: Counter, row: SequenceRow) {
    if row.kind.InvoiceKind? then row.series == ctr.invoiceSeries else row.series == ctr.returnSeries
  }

  predicate Owned(ctr: Counter, o: Outbox) {
    && (forall row :: row in o.registers ==> row.counterId == ctr.id && row.branchId == ctr.branchId)
    && (forall entry :: entry in o.invoices ==> OwnInvoice(ctr, IdsOf(o.registers), entry))
    && (forall row :: row in o.customers ==> row.branchId == ctr.branchId && !row.walkIn && row.offlineCode)
    && (forall entry :: entry in o.givenBack ==> OwnReturn(ctr, IdsOf(o.registers), entry))
    && (forall row :: row in o.sequences ==> OwnSequence(ctr, row))
  }

  function BillIds(invoices: seq<InvoiceEntry>): (r: set<Id>) { set entry | entry in invoices :: entry.invoice.id }
  function ReturnIds(givenBack: seq<ReturnEntry>): (r: set<Id>) { set entry | entry in givenBack :: entry.ret.id }

  /** The bills returned that weren't made offline. */
  function ServerBills(o: Outbox): (r: set<Id>) {
    (set entry | entry in o.givenBack :: entry.ret.saleInvoiceId) - BillIds(o.invoices)
  }

  predicate ServerBillsAreOwn(d: Documents, ctr: Counter, o: Outbox) {
    forall id :: id in ServerBills(o) ==> id in d.invoices && d.invoices[id].documentSeries == ctr.invoiceSeries
  }

  // ----- Clashes

  datatype Clash =
    | WrongBatch(movement: Id) | ExpiredBatch(movement: Id)
    | InvoiceNumberUsed(other: Id) | ReceiptNumberUsed(other: Id) | ReturnNumberUsed(other: Id)
    | ItemGone(line: Id) | CustomerGone(invoice: Id) | UserGone(register: Id)
    | LowersDue(bill: Id) | ReturnsTooMany(line: Id) | RefundsTooMuch(bill: Id)
    | DoesNotAddUp(conflict: VO.Conflict)

  predicate OfRightBatch(catalog: Catalog, row: LedgerRow)
    requires row.batchId.Some?
  {
    row.batchId.value in catalog.batches && catalog.batches[row.batchId.value].itemId == row.itemId
  }

  predicate Expired(catalog: Catalog, row: LedgerRow)
    requires row.batchId.Some? && OfRightBatch(catalog, row)
  {
    var last := catalog.batches[row.batchId.value].lastDay;
    row.txnType.SaleTxn? && last.Some? && last.value < catalog.dayOf(row.createdAt)
  }

  /** Movements of a batch the server hasn't recorded: the batch is the item's, and could be sold then. */
  function BatchClashes(s: Server, movements: seq<LedgerRow>): (r: set<Clash>) {
    var rows := set row | row in movements && row.id !in s.stock.ledger && row.batchId.Some?;
    (set row | row in rows && !OfRightBatch(s.catalog, row) :: WrongBatch(row.id))
    + (set row | row in rows && OfRightBatch(s.catalog, row) && Expired(s.catalog, row) :: ExpiredBatch(row.id))
  }

  function InvoiceNos(invoices: seq<InvoiceEntry>): (r: set<string>) { set entry | entry in invoices :: entry.invoice.invoiceNo }
  function ReturnNos(givenBack: seq<ReturnEntry>): (r: set<string>) { set entry | entry in givenBack :: entry.ret.returnNo }
  function ReceiptNos(receipts: seq<ReceiptRow>): (r: set<string>) { set row | row in receipts :: row.receiptNo }
  function ReceiptIds(receipts: seq<ReceiptRow>): (r: set<Id>) { set row | row in receipts :: row.id }

  /** Numbers sent that are, on the server, of documents not sent. */
  function NumberClashes(d: Documents, o: Outbox): (r: set<Clash>) {
    var receipts := Flat(o.invoices, RECEIPTS);
    (set id | id in d.invoices && d.invoices[id].invoiceNo in InvoiceNos(o.invoices) && id !in BillIds(o.invoices) :: InvoiceNumberUsed(id))
    + (set id | id in d.receipts && d.receipts[id].receiptNo in ReceiptNos(receipts) && id !in ReceiptIds(receipts) :: ReceiptNumberUsed(id))
    + (set id | id in d.givenBack && d.givenBack[id].returnNo in ReturnNos(o.givenBack) && id !in ReturnIds(o.givenBack) :: ReturnNumberUsed(id))
  }

  /** References to items, customers and staff that are not on the server any more. */
  function MissingClashes(s: Server, o: Outbox, invoices: seq<InvoiceEntry>, created: set<Id>): (r: set<Clash>) {
    (set row | row in Flat(o.invoices, LINES) && row.itemId !in s.catalog.items :: ItemGone(row.id))
    + (set entry | entry in invoices && entry.invoice.customerId !in s.people.customers && entry.invoice.customerId !in created
       :: CustomerGone(entry.invoice.id))
    + (set row | row in o.registers && row.userId !in s.catalog.users :: UserGone(row.id))
  }

  // ----- Returns of bills the server had

  /** Returns the server doesn't have yet, of bills that weren't made offline. */
  function NewReturns(d: Documents, bills: set<Id>, givenBack: seq<ReturnEntry>): (r: seq<ReturnEntry>) {
    if givenBack == [] then []
    else
      var last := givenBack[|givenBack| - 1];
      NewReturns(d, bills, givenBack[..|givenBack| - 1])
      + if last.ret.id in d.givenBack || last.ret.saleInvoiceId in bills then [] else [last]
  }

  function QtyOf(line: Id): ReturnLineRow -> int {
    (row: ReturnLineRow) => if row.saleLineId == line then row.qty else 0
  }

  function RefundOf(bill: Id): ReturnRow -> int {
    (row: ReturnRow) => if row.saleInvoiceId == bill then row.refundAmount else 0
  }

  /** What the offline returns of a line's bill take back of it. */
  function TakenBack(bill: Id, line: Id): ReturnEntry -> int {
    (entry: ReturnEntry) => if entry.ret.saleInvoiceId == bill then RowsTotal(entry.lines, QtyOf(line)) else 0
  }

  function HandedBack(bill: Id): ReturnEntry -> int {
    (entry: ReturnEntry) => RefundOf(bill)(entry.ret)
  }

  predicate TooMany(d: Documents, mine: seq<ReturnEntry>, line: Id)
    requires line in d.saleLines
  {
    var row := d.saleLines[line];
    var back := RowsTotal(mine, TakenBack(row.invoiceId, line));
    back > 0 && TableTotal(d.returnLines, QtyOf(line)) + back > row.qty
  }

  predicate TooMuch(d: Documents, mine: seq<ReturnEntry>, bill: Id)
    requires bill in d.invoices
  {
    TableTotal(d.givenBack, RefundOf(bill)) + RowsTotal(mine, HandedBack(bill))
      > Min(d.invoices[bill].paidTotal, d.invoices[bill].grandTotal)
  }

  function BillsOf(mine: seq<ReturnEntry>): (r: set<Id>) { set entry | entry in mine :: entry.ret.saleInvoiceId }

  function ReturnClashes(d: Documents, o: Outbox): (r: set<Clash>) {
    var mine := NewReturns(d, BillIds(o.invoices), o.givenBack);
    (set entry | entry in mine && entry.ret.saleInvoiceId in d.invoices && entry.ret.dueAdjusted > 0 :: LowersDue(entry.ret.saleInvoiceId))
    + (set line | line in d.saleLines && d.saleLines[line].invoiceId in BillsOf(mine) && TooMany(d, mine, line) :: ReturnsTooMany(line))
    + (set bill | bill in d.invoices && bill in BillsOf(mine) && TooMuch(d, mine, bill) :: RefundsTooMuch(bill))
  }

  // ----- What the check of the rest needs

  function PartOf(line: Id, but: set<Id>, part: ReturnLineRow -> int): ReturnLineRow -> int {
    (row: ReturnLineRow) => if row.saleLineId == line && row.returnId !in but then part(row) else 0
  }

  const BACK_QTY := (row: ReturnLineRow) => row.qty
  const BACK_TAXABLE := (row: ReturnLineRow) => row.taxable
  const BACK_CGST := (row: ReturnLineRow) => row.cgst
  const BACK_SGST := (row: ReturnLineRow) => row.sgst
  const BACK_IGST := (row: ReturnLineRow) => row.igst

  /** What returns other than those sent took of a line. */
  function TakenByOthers(rows: map<Id, ReturnLineRow>, line: Id, but: set<Id>): (r: VO.Parts) {
    VO.Parts(
      TableTotal(rows, PartOf(line, but, BACK_QTY)), TableTotal(rows, PartOf(line, but, BACK_TAXABLE)),
      TableTotal(rows, PartOf(line, but, BACK_CGST)), TableTotal(rows, PartOf(line, but, BACK_SGST)),
      TableTotal(rows, PartOf(line, but, BACK_IGST)))
  }

  function RoundingOf(bill: Id, but: set<Id>): ReturnRow -> int {
    (row: ReturnRow) => if row.saleInvoiceId == bill && row.id !in but then row.roundOff else 0
  }

  function VerificationContext(s: Server, o: Outbox): (r: VO.OutboxContext) {
    var d, bills, but := s.documents, ServerBills(o), ReturnIds(o.givenBack);
    VO.OutboxContext(
      map user | user in Sellers(o.invoices) && !(user in s.catalog.users && s.catalog.users[user]) :: s.catalog.cashierLimit,
      map line | line in d.saleLines && d.saleLines[line].invoiceId in bills :: VO.SoldOf(d.saleLines[line]),
      map line | line in d.saleLines && d.saleLines[line].invoiceId in bills :: TakenByOthers(d.returnLines, line, but),
      map bill | bill in d.invoices && bill in bills ::
        VO.BillRounding(d.invoices[bill].roundOff, TableTotal(d.givenBack, RoundingOf(bill, but))))
  }

  function Sellers(invoices: seq<InvoiceEntry>): (r: set<Id>) { set entry | entry in invoices :: entry.invoice.createdBy }

  function AsClashes(conflicts: seq<VO.Conflict>): (r: set<Clash>) { set conflict | conflict in conflicts :: DoesNotAddUp(conflict) }

  /** Every clash: with what the server has, and of the rows with themselves. */
  function Clashes(s: Server, o: Outbox, created: set<Id>, invoices: seq<InvoiceEntry>, givenBack: seq<ReturnEntry>): (r: set<Clash>) {
    BatchClashes(s, Movements(invoices, givenBack)) + NumberClashes(s.documents, o)
    + MissingClashes(s, o, invoices, created) + ReturnClashes(s.documents, o)
    + AsClashes(VO.Conflicts(VerificationContext(s, o), invoices, givenBack))
  }
}
