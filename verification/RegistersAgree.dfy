/** A register's expected cash after a sync, beside what the fallback counter's copy expected. */
module RegistersAgree {
  import opened GrownRegisters
  import opened GrownSync
  import opened OutboxRows
  import opened RegisterCash
  import opened ServerTables
  import opened Sync
  import opened Tables

  /** The outbox's payments and refunds. */
  function OfflineRows(o: Outbox): (r: CashRows) {
    CashRows(ById(Flat(o.invoices, PAYMENTS), PAYMENT_ID), ById(ReturnHeads(o.givenBack), RETURN_ID), map[])
  }

  /** Rows the server doesn't have yet are added to its own. */
  lemma CashAfter(s: Server, ctr: Counter, o: Outbox, newId: Id -> Id)
    requires CashRowsOf(s.catalog, s.documents).Apart(OfflineRows(o))
    ensures CashRowsOf(s.catalog, Taken(s, ctr, o, newId).documents) == CashRowsOf(s.catalog, s.documents).Plus(OfflineRows(o))
  {
    hide Taken, PlaceCustomers, WithCustomers, Flat, ById, Heads, ReturnHeads, AddDocuments;
    TakenDocuments(s, ctr, o, newId);
    var sameAs := PlaceCustomers(s, ctr, o.customers).sameAs;
    FlatSettled(o.invoices, sameAs);
    CashAdded(s.documents, WithCustomers(o.invoices, sameAs), o.givenBack);
    var offline := OfflineRows(o);
    InsertApart(s.documents.payments, offline.payments);
    InsertApart(s.documents.givenBack, offline.refunds);
    assert s.catalog.drawer + map[] == s.catalog.drawer;
  }

  lemma CashAdded(d: Documents, invoices: seq<InvoiceEntry>, givenBack: seq<ReturnEntry>)
    ensures var r := AddDocuments(d, invoices, givenBack);
            && r.payments == ById(Flat(invoices, PAYMENTS), PAYMENT_ID) + d.payments
            && r.givenBack == ById(ReturnHeads(givenBack), RETURN_ID) + d.givenBack
  {
    hide Flat, ById, Heads, ReturnHeads;
  }

  lemma FlatSettled(invoices: seq<InvoiceEntry>, sameAs: map<Id, Id>)
    ensures Flat(WithCustomers(invoices, sameAs), PAYMENTS) == Flat(invoices, PAYMENTS)
  {
    FlatSame(WithCustomers(invoices, sameAs), invoices, PAYMENTS);
  }

  lemma InsertApart<R>(table: map<Id, R>, rows: map<Id, R>)
    requires table.Keys !! rows.Keys
    ensures rows + table == table + rows
  {
  }

  /** A register sent as closed is reconciled with every row on it. */
  lemma ClosedIsReconciled(s: Server, ctr: Counter, o: Outbox, newId: Id -> Id, row: RegisterRow)
    requires DistinctRegisters(o.registers) && row in o.registers && row.closedAt.Some?
    requires row.id in s.registers ==> s.registers[row.id].openingBalance == row.openingBalance
    ensures var after := Taken(s, ctr, o, newId);
            && row.id in after.registers
            && after.registers[row.id].expectedCash
                 == Some(ExpectedCash(row.openingBalance, Sums(CashRowsOf(s.catalog, after.documents), row.id)))
  {
    hide Taken, SyncRegisters, RegisterCash.Sums, Unknown, FirstAfter, ById, CashRowsOf;
    TakenPeople(s, ctr, o, newId);
    SyncRegisterIs(s.registers, ctr, o.registers, CashRowsOf(s.catalog, Taken(s, ctr, o, newId).documents), row.id);
    var i :| 0 <= i < |o.registers| && o.registers[i] == row;
    ByIdAt(o.registers, i);
  }

  /**
   * The cash the server expects of a register closed offline, once its rows are in, is what the copy
   * expected, and the net cash of the rows recorded online on it after the copy was made.
   */
  lemma SyncAgreesWithCopy(
    atCopy: CashRows, start: CopyStart, copy: CashRows, online: CashRows,
    s: Server, ctr: Counter, o: Outbox, newId: Id -> Id, row: RegisterRow)
    requires CopyOf(atCopy, start, copy, row.id)
    requires atCopy.Apart(online) && CashRowsOf(s.catalog, s.documents) == atCopy.Plus(online)
    requires atCopy.Plus(online).Apart(OfflineRows(o)) && OfflineRows(o).refunds.Keys !! start.copied
    requires DistinctRegisters(o.registers) && row in o.registers && row.closedAt.Some?
    requires row.id in s.registers ==> s.registers[row.id].openingBalance == row.openingBalance
    ensures row.id in Taken(s, ctr, o, newId).registers
    ensures Taken(s, ctr, o, newId).registers[row.id].expectedCash
         == Some(ExpectedCash(row.openingBalance, CopySums(start, copy.Plus(OfflineRows(o)), row.id)) + Sums(online, row.id).Net())
  {
    hide Taken, RegisterCash.Sums, CopySums, CopyOf, CashRows.Apart, CashRows.Plus, DistinctRegisters, CashRowsOf;
    ClosedIsReconciled(s, ctr, o, newId, row);
    CashAfter(s, ctr, o, newId);
    assert OfflineRows(o).drawer == map[];
    CopyAgrees(atCopy, start, copy, online, OfflineRows(o), row.id, row.openingBalance);
  }

  /**
   * A register closed on the server while the copy still had it open stays as it was closed: its
   * expected cash was worked out without the offline rows and then lacks exactly their net cash.
   */
  lemma ClosedMeanwhileLacksOfflineCash(s: Server, ctr: Counter, o: Outbox, newId: Id -> Id, row: RegisterRow)
    requires DistinctRegisters(o.registers) && row in o.registers && row.closedAt.None?
    requires row.id in s.registers && s.registers[row.id].closedAt.Some?
    requires s.registers[row.id].expectedCash
          == Some(ExpectedCash(s.registers[row.id].openingBalance, Sums(CashRowsOf(s.catalog, s.documents), row.id)))
    requires CashRowsOf(s.catalog, s.documents).Apart(OfflineRows(o))
    ensures var after := Taken(s, ctr, o, newId);
            && row.id in after.registers && after.registers[row.id] == s.registers[row.id]
            && ExpectedCash(s.registers[row.id].openingBalance, Sums(CashRowsOf(s.catalog, after.documents), row.id))
                 == s.registers[row.id].expectedCash.value + Sums(OfflineRows(o), row.id).Net()
  {
    hide Taken, SyncRegisters, RegisterCash.Sums, Unknown, FirstAfter, ById, CashRows.Apart, CashRows.Plus, CashRowsOf, Balance.Plus, Balance.Net;
    TakenPeople(s, ctr, o, newId);
    SyncRegisterIs(s.registers, ctr, o.registers, CashRowsOf(s.catalog, Taken(s, ctr, o, newId).documents), row.id);
    var i :| 0 <= i < |o.registers| && o.registers[i] == row;
    ByIdAt(o.registers, i);
    CashAfter(s, ctr, o, newId);
    SumsMerge(CashRowsOf(s.catalog, s.documents), OfflineRows(o), row.id);
    PlusSwap(Sums(CashRowsOf(s.catalog, s.documents), row.id), Sums(OfflineRows(o), row.id), NO_BALANCE);
  }
}
