/**
 * The online server's tables, and how rows made offline are added to them
 * (apps/api/src/fallback/fallback.service.ts). Tables are maps by id.
 */
module ServerTables {
  import opened BatchShortfalls
  import opened OutboxRows
  import RegisterCash
  import opened Tables

  datatype Counter = Counter(id: Id, branchId: Id, invoiceSeries: string, returnSeries: string)

  /** A batch's item, and the day after which it is expired. */
  datatype BatchInfo = BatchInfo(itemId: Id, lastDay: Option<int>)

  /** What a sync reads and never changes. Users are marked whether they are admins. */
  datatype Catalog = Catalog(
    schemaVersion: string, customersPerBranch: bool, cashierLimit: int,
    items: set<Id>, batches: map<Id, BatchInfo>, users: map<Id, bool>, dayOf: Instant -> int,
    drawer: map<Id, RegisterCash.DrawerRow>)

  datatype Documents = Documents(
    invoices: map<Id, InvoiceRow>, saleLines: map<Id, SaleLineRow>, discounts: map<Id, DiscountRow>,
    allocations: map<Id, AllocationRow>, payments: map<Id, PaymentRow>, receipts: map<Id, ReceiptRow>,
    givenBack: map<Id, ReturnRow>, returnLines: map<Id, ReturnLineRow>)

  datatype ItemKey = ItemKey(branchId: Id, itemId: Id)
  datatype Stock = Stock(ledger: map<Id, LedgerRow>, items: map<ItemKey, int>, batches: map<BatchKey, int>)

  datatype People = People(
    customers: map<Id, CustomerRow>, codes: map<Id, nat>, wallets: map<Id, int>, lastCode: map<Id, nat>)

  datatype SeqKey = SeqKey(kind: DocumentKind, series: string, fiscalYear: int)
  datatype Numbers = Numbers(sequences: map<SeqKey, nat>, receiptSeq: map<Id, nat>)

  /** `flagged`: how much of each batch sales were ever counted without, for an admin to check. */
  datatype Server = Server(
    catalog: Catalog, documents: Documents, stock: Stock, flagged: map<BatchKey, int>,
    registers: map<Id, RegisterRow>, people: People, numbers: Numbers)

  // ----- Ids

  const INVOICE_ID := (row: InvoiceRow) => row.id
  const SALE_LINE_ID := (row: SaleLineRow) => row.id
  const DISCOUNT_ID := (row: DiscountRow) => row.id
  const ALLOCATION_ID := (row: AllocationRow) => row.id
  const PAYMENT_ID := (row: PaymentRow) => row.id
  const RECEIPT_ID := (row: ReceiptRow) => row.id
  const RETURN_ID := (row: ReturnRow) => row.id
  const RETURN_LINE_ID := (row: ReturnLineRow) => row.id
  const LEDGER_ID := (row: LedgerRow) => row.id
  const REGISTER_ID := (row: RegisterRow) => row.id

  // ----- Customers

  /** Customers made offline: those the server has under another id, and those to add. */
  datatype Placed = Placed(sameAs: map<Id, Id>, created: seq<CustomerRow>)

  predicate HasPhone(row: CustomerRow) { row.phone.Some? && row.phone.value != "" }

  function WithPhone(people: People, perBranch: bool, branchId: Id, phone: Option<string>): (r: set<Id>) {
    set id | id in people.customers && people.customers[id].phone == phone && !people.customers[id].walkIn
             && (perBranch ==> people.customers[id].branchId == branchId)
  }

  function PlaceCustomer(s: Server, ctr: Counter, p: Placed, row: CustomerRow): (r: Placed) {
    if row.id in s.people.customers then p
    else
      var same := WithPhone(s.people, s.catalog.customersPerBranch, ctr.branchId, row.phone);
      if HasPhone(row) && same != {} then p.(sameAs := p.sameAs[row.id := Smallest(same)])
      else p.(created := p.created + [row])
  }

  function PlaceCustomers(s: Server, ctr: Counter, rows: seq<CustomerRow>): (r: Placed) {
    if rows == [] then Placed(map[], []) else PlaceCustomer(s, ctr, PlaceCustomers(s, ctr, rows[..|rows| - 1]), rows[|rows| - 1])
  }

  function WithCustomer(entry: InvoiceEntry, sameAs: map<Id, Id>): (r: InvoiceEntry) {
    if entry.invoice.customerId in sameAs then entry.(invoice := entry.invoice.(customerId := sameAs[entry.invoice.customerId])) else entry
  }

  function WithCustomers(invoices: seq<InvoiceEntry>, sameAs: map<Id, Id>): (r: seq<InvoiceEntry>)
    ensures |r| == |invoices|
  {
    seq(|invoices|, i requires 0 <= i < |invoices| => WithCustomer(invoices[i], sameAs))
  }

  function LastCode(people: People, branchId: Id): (r: nat) {
    if branchId in people.lastCode then people.lastCode[branchId] else 0
  }

  /** A customer added offline: the branch's next code, and an empty wallet. */
  function AddCustomer(people: People, branchId: Id, row: CustomerRow): (r: People) {
    var code := LastCode(people, branchId) + 1;
    People(people.customers[row.id := CustomerRow(row.id, branchId, false, false, row.name, row.phone)],
      people.codes[row.id := code], people.wallets[row.id := 0], people.lastCode[branchId := code])
  }

  function AddCustomers(people: People, branchId: Id, rows: seq<CustomerRow>): (r: People) {
    if rows == [] then people else AddCustomer(AddCustomers(people, branchId, rows[..|rows| - 1]), branchId, rows[|rows| - 1])
  }

  // ----- Documents

  function Heads(invoices: seq<InvoiceEntry>): (r: seq<InvoiceRow>) ensures |r| == |invoices| {
    seq(|invoices|, i requires 0 <= i < |invoices| => invoices[i].invoice)
  }

  function ReturnHeads(givenBack: seq<ReturnEntry>): (r: seq<ReturnRow>) ensures |r| == |givenBack| {
    seq(|givenBack|, i requires 0 <= i < |givenBack| => givenBack[i].ret)
  }

  /** Every entry's rows, one after another. */
  function Flat<E, R>(entries: seq<E>, of: E -> seq<R>): (r: seq<R>) {
    if entries == [] then [] else Flat(entries[..|entries| - 1], of) + of(entries[|entries| - 1])
  }

  const LINES := (entry: InvoiceEntry) => entry.lines
  const DISCOUNTS := (entry: InvoiceEntry) => entry.discounts
  const ALLOCATIONS := (entry: InvoiceEntry) => entry.allocations
  const PAYMENTS := (entry: InvoiceEntry) => entry.payments
  const RECEIPTS := (entry: InvoiceEntry) => entry.receipts
  const RETURN_LINES := (entry: ReturnEntry) => entry.lines

  function AddDocuments(d: Documents, invoices: seq<InvoiceEntry>, givenBack: seq<ReturnEntry>): (r: Documents) {
    Documents(
      Insert(d.invoices, Heads(invoices), INVOICE_ID),
      Insert(d.saleLines, Flat(invoices, LINES), SALE_LINE_ID),
      Insert(d.discounts, Flat(invoices, DISCOUNTS), DISCOUNT_ID),
      Insert(d.allocations, Flat(invoices, ALLOCATIONS), ALLOCATION_ID),
      Insert(d.payments, Flat(invoices, PAYMENTS), PAYMENT_ID),
      Insert(d.receipts, Flat(invoices, RECEIPTS), RECEIPT_ID),
      Insert(d.givenBack, ReturnHeads(givenBack), RETURN_ID),
      Insert(d.returnLines, Flat(givenBack, RETURN_LINES), RETURN_LINE_ID))
  }

  // ----- Stock

  function ItemKeyOf(row: LedgerRow): (r: ItemKey) { ItemKey(row.branchId, row.itemId) }

  function ItemQty(m: map<ItemKey, int>, key: ItemKey): (r: int) { if key in m then m[key] else 0 }

  /** A movement: recorded, and its item's and its batch's stock moved, unless it is there already. */
  function Record(s: Stock, row: LedgerRow): (r: Stock) {
    if row.id in s.ledger then s
    else Stock(
      s.ledger[row.id := row],
      s.items[ItemKeyOf(row) := ItemQty(s.items, ItemKeyOf(row)) + row.Change()],
      if row.batchId.Some? then s.batches[KeyOf(row) := At(s.batches, KeyOf(row), 0) + row.Change()] else s.batches)
  }

  function RecordAll(s: Stock, rows: seq<LedgerRow>): (r: Stock) {
    if rows == [] then s else Record(RecordAll(s, rows[..|rows| - 1]), rows[|rows| - 1])
  }

  function AddFlags(flagged: map<BatchKey, int>, more: map<BatchKey, int>): (r: map<BatchKey, int>) {
    map key | key in flagged.Keys + more.Keys :: At(flagged, key, 0) + At(more, key, 0)
  }

  // ----- Numbers

  function SeqKeyOf(row: SequenceRow): (r: SeqKey) { SeqKey(row.kind, row.series, row.fiscalYear) }

  function Raise<K(==)>(m: map<K, nat>, key: K, last: nat): (r: map<K, nat>) {
    m[key := if key in m && m[key] > last then m[key] else last]
  }

  function RaiseAll(m: map<SeqKey, nat>, rows: seq<SequenceRow>): (r: map<SeqKey, nat>) {
    if rows == [] then m else Raise(RaiseAll(m, rows[..|rows| - 1]), SeqKeyOf(rows[|rows| - 1]), rows[|rows| - 1].lastSeq)
  }

  // ----- Registers

  /** When the first of some registers opened after `openedAt` did. */
  function FirstAfter(unknown: seq<RegisterRow>, openedAt: Instant): (r: Option<Instant>) {
    if unknown == [] then None
    else
      var n := |unknown| - 1;
      var before := FirstAfter(unknown[..n], openedAt);
      if before.Some? then before else if openedAt < unknown[n].openedAt then Some(unknown[n].openedAt) else None
  }

  function Unknown(registers: map<Id, RegisterRow>, sent: seq<RegisterRow>): (r: seq<RegisterRow>) {
    if sent == [] then []
    else Unknown(registers, sent[..|sent| - 1]) + if sent[|sent| - 1].id in registers then [] else [sent[|sent| - 1]]
  }

  /** A register open on the counter that isn't in the outbox ended when one opened offline began. */
  predicate Replaces(ctr: Counter, sentIds: set<Id>, unknown: seq<RegisterRow>, id: Id, row: RegisterRow) {
    row.counterId == ctr.id && row.closedAt.None? && id !in sentIds && FirstAfter(unknown, row.openedAt).Some?
  }

  function CloseReplaced(registers: map<Id, RegisterRow>, ctr: Counter, sentIds: set<Id>, unknown: seq<RegisterRow>): (r: map<Id, RegisterRow>) {
    map id | id in registers ::
      if Replaces(ctr, sentIds, unknown, id, registers[id])
      then registers[id].(closedAt := FirstAfter(unknown, registers[id].openedAt)) else registers[id]
  }

  /** One sent is added; one open on the server takes its closing. */
  function Upserted(registers: map<Id, RegisterRow>, sent: map<Id, RegisterRow>): (r: map<Id, RegisterRow>) {
    map id | id in registers.Keys + sent.Keys ::
      if id !in registers then sent[id]
      else if id in sent && registers[id].closedAt.None? then
        registers[id].(closingBalance := sent[id].closingBalance, expectedCash := sent[id].expectedCash,
                       cashDifference := sent[id].cashDifference, closedAt := sent[id].closedAt)
      else registers[id]
  }

  function CashRowsOf(catalog: Catalog, d: Documents): (r: RegisterCash.CashRows) {
    RegisterCash.CashRows(d.payments, d.givenBack, catalog.drawer)
  }

  /** Expected cash worked out from everything recorded on the register, and what the count differs by. */
  function Reconciled(row: RegisterRow, cash: RegisterCash.CashRows, id: Id): (r: RegisterRow) {
    var expected := RegisterCash.ExpectedCash(row.openingBalance, RegisterCash.Sums(cash, id));
    row.(expectedCash := Some(expected),
         cashDifference := if row.closingBalance.Some? then Some(row.closingBalance.value - expected) else None)
  }

  function ReconcileAll(registers: map<Id, RegisterRow>, ids: set<Id>, cash: RegisterCash.CashRows): (r: map<Id, RegisterRow>) {
    map id | id in registers :: if id in ids then Reconciled(registers[id], cash, id) else registers[id]
  }

  function IdsOf(rows: seq<RegisterRow>): (r: set<Id>) { set row | row in rows :: row.id }

  function ClosedIds(rows: seq<RegisterRow>): (r: set<Id>) { set row | row in rows && row.closedAt.Some? :: row.id }

  function ReplacedIds(registers: map<Id, RegisterRow>, ctr: Counter, sentIds: set<Id>, unknown: seq<RegisterRow>): (r: set<Id>) {
    set id | id in registers && Replaces(ctr, sentIds, unknown, id, registers[id])
  }

  function SyncRegisters(registers: map<Id, RegisterRow>, ctr: Counter, sent: seq<RegisterRow>, cash: RegisterCash.CashRows): (r: map<Id, RegisterRow>) {
    var unknown := Unknown(registers, sent);
    ReconcileAll(
      Upserted(CloseReplaced(registers, ctr, IdsOf(sent), unknown), ById(sent, REGISTER_ID)),
      ClosedIds(sent) + ReplacedIds(registers, ctr, IdsOf(sent), unknown), cash)
  }
}
