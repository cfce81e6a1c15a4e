/**
 * A register's expected cash (apps/api/src/registers/registers.service.ts), on
 * the server and on a fallback counter's copy, which starts from the server's sums when it was made.
 */
module RegisterCash {
  import opened OutboxRows
  import opened Tables

  /** Money through the drawer that is neither a sale's payment nor a refund; none of it is recorded offline. */
  datatype DrawerKind = Topup(mode: PaymentMode) | SupplierPaid | PutIn | TakenOut | Spent
  datatype DrawerRow = DrawerRow(registerId: Option<Id>, kind: DrawerKind, amount: int)

  /** The rows a register's sums are of. */
  datatype CashRows = CashRows(payments: map<Id, PaymentRow>, refunds: map<Id, ReturnRow>, drawer: map<Id, DrawerRow>) {
    function Plus(more: CashRows): CashRows {
      CashRows(payments + more.payments, refunds + more.refunds, drawer + more.drawer)
    }

    ghost predicate Apart(more: CashRows) {
      payments.Keys !! more.payments.Keys && refunds.Keys !! more.refunds.Keys && drawer.Keys !! more.drawer.Keys
    }
  }

  datatype Balance = Balance(
    cashSales: int, cashTopups: int, cashRefunds: int, cashPaidOut: int, cashIn: int, cashOut: int, cashExpenses: int,
    cardSales: int, upiSales: int)
  {
    function Plus(more: Balance): Balance {
      Balance(cashSales + more.cashSales, cashTopups + more.cashTopups, cashRefunds + more.cashRefunds,
        cashPaidOut + more.cashPaidOut, cashIn + more.cashIn, cashOut + more.cashOut, cashExpenses + more.cashExpenses,
        cardSales + more.cardSales, upiSales + more.upiSales)
    }

    /** What it adds to the drawer. */
    function Net(): int {
      cashSales + cashTopups + cashIn - cashRefunds - cashPaidOut - cashOut - cashExpenses
    }
  }

  const NO_BALANCE := Balance(0, 0, 0, 0, 0, 0, 0, 0, 0)

  function PaidBy(register: Id, mode: PaymentMode): PaymentRow -> int {
    (row: PaymentRow) => if row.registerId == Some(register) && row.mode == mode then row.amount else 0
  }

  function Refunded(register: Id): ReturnRow -> int {
    (row: ReturnRow) => if row.registerId == Some(register) && row.refundMode.Cash? then row.refundAmount else 0
  }

  function Through(register: Id, kind: DrawerKind): DrawerRow -> int {
    (row: DrawerRow) => if row.registerId == Some(register) && row.kind == kind then row.amount else 0
  }

  /** The server's sums over a register's rows. */
  function Sums(rows: CashRows, register: Id): (r: Balance) {
    Balance(
      TableTotal(rows.payments, PaidBy(register, Cash)),
      TableTotal(rows.drawer, Through(register, Topup(Cash))),
      TableTotal(rows.refunds, Refunded(register)),
      TableTotal(rows.drawer, Through(register, SupplierPaid)),
      TableTotal(rows.drawer, Through(register, PutIn)),
      TableTotal(rows.drawer, Through(register, TakenOut)),
      TableTotal(rows.drawer, Through(register, Spent)),
      TableTotal(rows.payments, PaidBy(register, Card)) + TableTotal(rows.drawer, Through(register, Topup(Card))),
      TableTotal(rows.payments, PaidBy(register, Upi)) + TableTotal(rows.drawer, Through(register, Topup(Upi))))
  }

  function ExpectedCash(opening: int, sums: Balance): (r: int) { opening + sums.Net() }

  /** What came with a copy: the sums of the register open then, and the documents it brought. */
  datatype CopyStart = CopyStart(baseline: map<Id, Balance>, copied: set<Id>)

  /** The copy's sums: its baseline, and its own rows but for the refunds that came with it. */
  function CopySums(start: CopyStart, rows: CashRows, register: Id): (r: Balance) {
    (if register in start.baseline then start.baseline[register] else NO_BALANCE)
      .Plus(Sums(rows.(refunds := rows.refunds - start.copied), register))
  }

  // ----- What each row does to the drawer

  /** A payment puts in what was paid in cash on this register; by card or UPI it is counted as such. */
  lemma PaymentPutsIn(rows: CashRows, register: Id, id: Id, row: PaymentRow)
    requires id !in rows.payments
    ensures var after, before := Sums(rows.(payments := rows.payments[id := row]), register), Sums(rows, register);
            && after.cardSales == before.cardSales + (if row.registerId == Some(register) && row.mode == Card then row.amount else 0)
            && after.upiSales == before.upiSales + (if row.registerId == Some(register) && row.mode == Upi then row.amount else 0)
    ensures Sums(rows.(payments := rows.payments[id := row]), register).Net()
         == Sums(rows, register).Net() + if row.registerId == Some(register) && row.mode == Cash then row.amount else 0
  {
    hide TableTotal;
    TotalInsert(rows.payments, PaidBy(register, Cash), id, row);
    TotalInsert(rows.payments, PaidBy(register, Card), id, row);
    TotalInsert(rows.payments, PaidBy(register, Upi), id, row);
  }

  /** A return takes out what was handed back in cash on it. */
  lemma RefundTakesOut(rows: CashRows, register: Id, id: Id, row: ReturnRow)
    requires id !in rows.refunds
    ensures Sums(rows.(refunds := rows.refunds[id := row]), register).Net()
         == Sums(rows, register).Net() - if row.registerId == Some(register) && row.refundMode == Cash then row.refundAmount else 0
  {
    hide TableTotal;
    TotalInsert(rows.refunds, Refunded(register), id, row);
  }

  function Moved(kind: DrawerKind, amount: int): (r: int) {
    match kind
    case Topup(mode) => if mode == Cash then amount else 0
    case PutIn => amount
    case SupplierPaid => -amount
    case TakenOut => -amount
    case Spent => -amount
  }

  /** A wallet topped up in cash and cash put in fill the drawer; suppliers paid, cash taken out and expenses empty it. */
  lemma DrawerMoves(rows: CashRows, register: Id, id: Id, row: DrawerRow)
    requires id !in rows.drawer
    ensures var after, before := Sums(rows.(drawer := rows.drawer[id := row]), register), Sums(rows, register);
            && after.cardSales == before.cardSales + (if row.registerId == Some(register) && row.kind == Topup(Card) then row.amount else 0)
            && after.upiSales == before.upiSales + (if row.registerId == Some(register) && row.kind == Topup(Upi) then row.amount else 0)
    ensures Sums(rows.(drawer := rows.drawer[id := row]), register).Net()
         == Sums(rows, register).Net() + if row.registerId == Some(register) then Moved(row.kind, row.amount) else 0
  {
    hide TableTotal;
    TotalInsert(rows.drawer, Through(register, Topup(Cash)), id, row);
    TotalInsert(rows.drawer, Through(register, SupplierPaid), id, row);
    TotalInsert(rows.drawer, Through(register, PutIn), id, row);
    TotalInsert(rows.drawer, Through(register, TakenOut), id, row);
    TotalInsert(rows.drawer, Through(register, Spent), id, row);
    TotalInsert(rows.drawer, Through(register, Topup(Card)), id, row);
    TotalInsert(rows.drawer, Through(register, Topup(Upi)), id, row);
  }

  /** With nothing recorded nothing is expected but what it opened with. */
  lemma NothingMoved(register: Id, opening: int)
    ensures ExpectedCash(opening, Sums(CashRows(map[], map[], map[]), register)) == opening
  {
    hide TableTotal;
    TotalNone<PaymentRow>(PaidBy(register, Cash));
    TotalNone<ReturnRow>(Refunded(register));
    TotalNone<DrawerRow>(Through(register, Topup(Cash)));
    TotalNone<DrawerRow>(Through(register, SupplierPaid));
    TotalNone<DrawerRow>(Through(register, PutIn));
    TotalNone<DrawerRow>(Through(register, TakenOut));
    TotalNone<DrawerRow>(Through(register, Spent));
  }

  // ----- The copy agrees with the server

  lemma SumsMerge(a: CashRows, b: CashRows, register: Id)
    requires a.Apart(b)
    ensures Sums(a.Plus(b), register) == Sums(a, register).Plus(Sums(b, register))
  {
    hide TableTotal, PaidBy, Refunded, Through;
    PaymentsMerge(a, b, register, Cash);
    PaymentsMerge(a, b, register, Card);
    PaymentsMerge(a, b, register, Upi);
    TotalMerge(a.refunds, b.refunds, Refunded(register));
    DrawerMerge(a, b, register, Topup(Cash));
    DrawerMerge(a, b, register, Topup(Card));
    DrawerMerge(a, b, register, Topup(Upi));
    DrawerMerge(a, b, register, SupplierPaid);
    DrawerMerge(a, b, register, PutIn);
    DrawerMerge(a, b, register, TakenOut);
    DrawerMerge(a, b, register, Spent);
  }

  lemma PaymentsMerge(a: CashRows, b: CashRows, register: Id, mode: PaymentMode)
    requires a.Apart(b)
    ensures TableTotal(a.Plus(b).payments, PaidBy(register, mode))
         == TableTotal(a.payments, PaidBy(register, mode)) + TableTotal(b.payments, PaidBy(register, mode))
  {
    TotalMerge(a.payments, b.payments, PaidBy(register, mode));
  }

  lemma DrawerMerge(a: CashRows, b: CashRows, register: Id, kind: DrawerKind)
    requires a.Apart(b)
    ensures TableTotal(a.Plus(b).drawer, Through(register, kind))
         == TableTotal(a.drawer, Through(register, kind)) + TableTotal(b.drawer, Through(register, kind))
  {
    TotalMerge(a.drawer, b.drawer, Through(register, kind));
  }

  /** A copy of the server as `register` stood: nothing but its own bills' returns, and the sums of the rest. */
  ghost predicate CopyOf(server: CashRows, start: CopyStart, copy: CashRows, register: Id) {
    && copy.payments == map[] && copy.drawer == map[]
    && copy.refunds.Keys <= start.copied
    && (if register in start.baseline then start.baseline[register] == Sums(server, register)
        else Sums(server, register) == NO_BALANCE)
  }

  lemma OnlyOffline(server: CashRows, start: CopyStart, copy: CashRows, offline: CashRows, register: Id)
    requires CopyOf(server, start, copy, register)
    requires offline.drawer == map[] && offline.refunds.Keys !! start.copied
    ensures copy.Plus(offline).(refunds := copy.Plus(offline).refunds - start.copied) == offline
  {
    hide Sums;
    assert copy.Plus(offline).payments == offline.payments;
    assert copy.Plus(offline).refunds - start.copied == offline.refunds;
    assert copy.Plus(offline).drawer == offline.drawer;
  }

  /** The copy's sums are the server's when it was made, and those of the offline rows. */
  lemma CopySumsAre(server: CashRows, start: CopyStart, copy: CashRows, offline: CashRows, register: Id)
    requires CopyOf(server, start, copy, register)
    requires offline.drawer == map[] && offline.refunds.Keys !! start.copied
    ensures CopySums(start, copy.Plus(offline), register) == Sums(server, register).Plus(Sums(offline, register))
  {
    hide Sums, CashRows.Plus, Balance.Plus;
    OnlyOffline(server, start, copy, offline, register);
  }

  lemma PlusSwap(a: Balance, b: Balance, c: Balance)
    ensures a.Plus(b).Plus(c) == a.Plus(c).Plus(b)
    ensures a.Plus(b).Net() == a.Net() + b.Net()
  {
  }

  /**
   * After the offline rows are sent, the server's sums for a register are the copy's, and those of the
   * rows recorded online since the copy was made: sales and refunds, top-ups, card and UPI takings alike.
   */
  lemma CopyAgrees(
    server: CashRows, start: CopyStart, copy: CashRows, online: CashRows, offline: CashRows, register: Id, opening: int)
    requires CopyOf(server, start, copy, register)
    requires server.Apart(online) && server.Plus(online).Apart(offline)
    requires offline.drawer == map[] && offline.refunds.Keys !! start.copied
    ensures var after := server.Plus(online).Plus(offline);
            && Sums(after, register) == CopySums(start, copy.Plus(offline), register).Plus(Sums(online, register))
            && ExpectedCash(opening, Sums(after, register))
                 == ExpectedCash(opening, CopySums(start, copy.Plus(offline), register)) + Sums(online, register).Net()
  {
    hide Sums, CashRows.Plus, CashRows.Apart, CopyOf, CopySums, Balance.Plus, Balance.Net;
    SumsMerge(server.Plus(online), offline, register);
    SumsMerge(server, online, register);
    CopySumsAre(server, start, copy, offline, register);
    PlusSwap(Sums(server, register), Sums(online, register), Sums(offline, register));
    PlusSwap(CopySums(start, copy.Plus(offline), register), Sums(online, register), NO_BALANCE);
  }
}
