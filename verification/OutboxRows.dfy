/**
 * The rows a fallback counter made offline, as they are sent (apps/api/src/fallback/fallback.service.ts).
 * Ids are whole numbers here: only whether they are equal, and one fixed order of them, matters.
 */
module OutboxRows {
  import opened Discounts
  import opened SaleTotals

  type Id = nat
  type Instant = int

  datatype Option<+T> = None | Some(value: T)

  datatype TxnType = SaleTxn | ReturnTxn | OtherTxn
  datatype LedgerRow = LedgerRow(
    id: Id, branchId: Id, itemId: Id, batchId: Option<Id>, txnType: TxnType, qtyIn: int, qtyOut: int,
    referenceType: TxnType, referenceId: Id, createdAt: Instant)
  {
    function Change(): int { qtyIn - qtyOut }
  }

  datatype TaxpayerType = Regular | Composition | Unregistered
  datatype DocumentType = TaxInvoice | BillOfSupply | PlainInvoice
  datatype Gstin = NoGstin | ValidGstin | InvalidGstin
  datatype Status = Draft | PartiallySettled | Settled | Cancelled
  datatype PaymentMode = Cash | Card | Upi | Wallet

  datatype InvoiceRow = InvoiceRow(
    id: Id, branchId: Id, documentSeries: string, invoiceNo: string, customerId: Id, createdBy: Id, createdAt: Instant,
    taxpayerType: TaxpayerType, documentType: DocumentType, sellerGstin: Gstin,
    sellerState: string, placeOfSupply: string, status: Status,
    subTotal: int, discountTotal: int, orderDiscount: int, taxTotal: int, cgstTotal: int, sgstTotal: int, igstTotal: int,
    roundOff: int, grandTotal: int, paidTotal: int, creditedTotal: int)

  datatype SaleLineRow = SaleLineRow(
    id: Id, invoiceId: Id, itemId: Id, qty: int, saleUom: Quantity, rate: int, listRate: Option<int>, taxRate: int, taxMode: TaxMode,
    discount: int, taxable: int, tax: int, cgst: int, sgst: int, igst: int, net: int)

  datatype DiscountScope = ItemScope | OrderScope
  datatype DiscountRow = DiscountRow(id: Id, invoiceId: Id, scope: DiscountScope, discount: Discount)
  datatype AllocationRow = AllocationRow(id: Id, discountId: Id, lineId: Id)
  datatype PaymentRow = PaymentRow(id: Id, invoiceId: Id, registerId: Option<Id>, mode: PaymentMode, amount: int)
  datatype ReceiptRow = ReceiptRow(id: Id, invoiceId: Id, receiptNo: string)

  datatype InvoiceEntry = InvoiceEntry(
    invoice: InvoiceRow, lines: seq<SaleLineRow>, discounts: seq<DiscountRow>, allocations: seq<AllocationRow>,
    payments: seq<PaymentRow>, receipts: seq<ReceiptRow>, ledger: seq<LedgerRow>)

  datatype ReturnRow = ReturnRow(
    id: Id, saleInvoiceId: Id, returnNo: string, documentSeries: string, registerId: Option<Id>, createdAt: Instant,
    totalAmount: int, roundOff: int, dueAdjusted: int, refundAmount: int, refundMode: PaymentMode)

  datatype ReturnLineRow = ReturnLineRow(
    id: Id, returnId: Id, saleLineId: Id, qty: int, amount: int, taxable: int, cgst: int, sgst: int, igst: int)

  datatype ReturnEntry = ReturnEntry(ret: ReturnRow, lines: seq<ReturnLineRow>, ledger: seq<LedgerRow>)

  datatype RegisterRow = RegisterRow(
    id: Id, counterId: Id, branchId: Id, userId: Id, openingBalance: int, openedAt: Instant, closedAt: Option<Instant>,
    closingBalance: Option<int>, expectedCash: Option<int>, cashDifference: Option<int>)

  datatype CustomerRow = CustomerRow(id: Id, branchId: Id, walkIn: bool, offlineCode: bool, name: string, phone: Option<string>)

  datatype DocumentKind = InvoiceKind | ReturnKind
  datatype SequenceRow = SequenceRow(kind: DocumentKind, series: string, fiscalYear: int, lastSeq: nat)

  datatype Outbox = Outbox(
    schemaVersion: string, registers: seq<RegisterRow>, invoices: seq<InvoiceEntry>, sequences: seq<SequenceRow>,
    receiptSeq: nat, customers: seq<CustomerRow>, givenBack: seq<ReturnEntry>)

  /** All the outbox's stock movements, the bills' first. */
  function Movements(invoices: seq<InvoiceEntry>, givenBack: seq<ReturnEntry>): (r: seq<LedgerRow>) {
    InvoiceMovements(invoices) + ReturnMovements(givenBack)
  }

  function InvoiceMovements(invoices: seq<InvoiceEntry>): (r: seq<LedgerRow>) {
    if invoices == [] then [] else InvoiceMovements(invoices[..|invoices| - 1]) + invoices[|invoices| - 1].ledger
  }

  function ReturnMovements(givenBack: seq<ReturnEntry>): (r: seq<LedgerRow>) {
    if givenBack == [] then [] else ReturnMovements(givenBack[..|givenBack| - 1]) + givenBack[|givenBack| - 1].ledger
  }
}
