/** What follows from the server having taken an outbox: its movements could all be placed, and its customers found. */
module AcceptedOutbox {
  import opened BatchShortfalls
  import opened Cuts
  import opened GrownPlacing
  import opened OutboxRows
  import opened ServerTables
  import opened Sync
  import opened SyncChecks
  import opened Tables
  import VO = VerifyOutbox
  import VS = VerifySoundness

  function Replaced(s: Server, o: Outbox, newId: Id -> Id): (r: map<Id, seq<LedgerRow>>) {
    PlaceRows(ContextOf(s, newId), Ordered(ContextOf(s, newId), o.invoices, o.givenBack)).replaced
  }

  // ----- Nothing clashes

  lemma NothingClashes(s: Server, ctr: Counter, o: Outbox, newId: Id -> Id)
    requires Accepts(s, ctr, o, newId)
    ensures var p := Prepare(s, ctr, o, newId);
            && BatchClashes(s, Movements(p.invoices, p.givenBack)) == {}
            && NumberClashes(s.documents, o) == {}
            && MissingClashes(s, o, p.invoices, CreatedIds(p.created)) == {}
            && ReturnClashes(s.documents, o) == {}
            && VO.Conflicts(VerificationContext(s, o), p.invoices, p.givenBack) == []
  {
    hide BatchClashes, NumberClashes, MissingClashes, ReturnClashes, VO.Conflicts, VerificationContext, Prepare, Taken, Owned, ServerBillsAreOwn;
    var p := Prepare(s, ctr, o, newId);
    NoConflicts(VO.Conflicts(VerificationContext(s, o), p.invoices, p.givenBack));
  }

  lemma NoConflicts(conflicts: seq<VO.Conflict>)
    ensures AsClashes(conflicts) == {} <==> conflicts == []
  {
    if conflicts != [] { assert DoesNotAddUp(conflicts[0]) in AsClashes(conflicts); }
  }

  // ----- Each bill's and each return's movements

  lemma {:induction false} BillsOnlySell(ctx: VO.OutboxContext, invoices: seq<InvoiceEntry>, k: nat)
    requires VO.InvoiceConflicts(ctx, invoices) == [] && k < |invoices|
    ensures VO.OnlySales(invoices[k].ledger)
  {
    hide VO.OnlySales, VO.InvoiceProblems, VO.InvoiceConflicts;
    VS.EachInvoiceClear(ctx, invoices, k);
    VS.NoProblemsSound(invoices[k], VO.CashierLimit(ctx, invoices[k].invoice.createdBy));
  }

  lemma {:induction false} ReturnsOnlyReturn(sold: map<Id, VO.SoldLine>, start: VO.ReturnCheck, entries: seq<ReturnEntry>, k: nat)
    requires VO.CheckReturns(sold, start, entries).conflicts == [] && k < |entries|
    ensures VO.OnlyReturns(entries[k].ledger)
  {
    hide VO.CheckReturns, VO.OnlyReturns;
    VS.CleanBefore(sold, start, entries);
    if k < |entries| - 1 { ReturnsOnlyReturn(sold, start, entries[..|entries| - 1], k); }
  }

  lemma {:induction false} FromInvoice(invoices: seq<InvoiceEntry>, row: LedgerRow)
    ensures row in InvoiceMovements(invoices) ==> exists k :: 0 <= k < |invoices| && row in invoices[k].ledger
  {
    if invoices != [] { FromInvoice(invoices[..|invoices| - 1], row); }
  }

  lemma {:induction false} FromReturn(givenBack: seq<ReturnEntry>, row: LedgerRow)
    ensures row in ReturnMovements(givenBack) ==> exists k :: 0 <= k < |givenBack| && row in givenBack[k].ledger
  {
    if givenBack != [] { FromReturn(givenBack[..|givenBack| - 1], row); }
  }

  lemma {:induction false} ToMovements(invoices: seq<InvoiceEntry>, givenBack: seq<ReturnEntry>, row: LedgerRow)
    ensures forall k :: 0 <= k < |invoices| && row in invoices[k].ledger ==> row in InvoiceMovements(invoices)
    ensures forall k :: 0 <= k < |givenBack| && row in givenBack[k].ledger ==> row in ReturnMovements(givenBack)
    decreases |invoices| + |givenBack|
  {
    if invoices != [] { ToMovements(invoices[..|invoices| - 1], [], row); }
    if givenBack != [] { ToMovements([], givenBack[..|givenBack| - 1], row); }
  }

  /** However a movement is cut, a piece of its own kind is left, which brings in what it did. */
  lemma PieceOfItsKind(replaced: map<Id, seq<LedgerRow>>, ledger: seq<LedgerRow>, row: LedgerRow)
    requires row in ledger && SplitsOf(replaced, ledger)
    ensures exists piece :: piece in Split(replaced, ledger) && piece.txnType == row.txnType && piece.qtyIn == row.qtyIn
  {
    hide Split, IsSplit;
    var piece := Replacement(replaced, row);
    if row.id in replaced { PiecesOfItsKind(row, replaced[row.id]); }
    SplitHas(replaced, ledger, piece[0]);
  }

  lemma PiecesOfItsKind(row: LedgerRow, pieces: seq<LedgerRow>)
    requires IsSplit(row, pieces)
    ensures pieces != [] && pieces[0].txnType == row.txnType && pieces[0].qtyIn == row.qtyIn
  {
  }

  lemma ReplacedAreCuts(s: Server, o: Outbox, newId: Id -> Id)
    requires DistinctIds(Movements(o.invoices, o.givenBack))
    ensures SplitsOf(Replaced(s, o, newId), Movements(o.invoices, o.givenBack))
    ensures forall row :: row in Movements(o.invoices, o.givenBack) && row.id in Replaced(s, o, newId) ==> TakesOut(row)
  {
    hide PlaceRows, Ordered, Movements, DistinctIds, SplitsOf;
    OrderedFrom(ContextOf(s, newId), o.invoices, o.givenBack);
    PlacedSplits(ContextOf(s, newId), Ordered(ContextOf(s, newId), o.invoices, o.givenBack), Movements(o.invoices, o.givenBack));
  }

  lemma AcceptedSale(s: Server, ctr: Counter, o: Outbox, newId: Id -> Id, k: nat, row: LedgerRow)
    requires k < |o.invoices| && row in o.invoices[k].ledger
    requires SplitsOf(Replaced(s, o, newId), Movements(o.invoices, o.givenBack)) && Accepts(s, ctr, o, newId)
    ensures row.txnType.SaleTxn? && row.qtyIn == 0
  {
    hide Accepts, PlaceRows, Ordered, VO.Conflicts, VerificationContext, Split, SplitsOf, Movements, VO.CheckReturns, VO.InvoiceConflicts, PlaceCustomers;
    NothingClashes(s, ctr, o, newId);
    var p, ctx := Prepare(s, ctr, o, newId), VerificationContext(s, o);
    VS.BothClear(ctx, p.invoices, p.givenBack);
    BillsOnlySell(ctx, p.invoices, k);
    CutPart(s, o, newId, o.invoices[k].ledger);
    PieceOfItsKind(Replaced(s, o, newId), o.invoices[k].ledger, row);
  }

  lemma AcceptedReturn(s: Server, ctr: Counter, o: Outbox, newId: Id -> Id, k: nat, row: LedgerRow)
    requires k < |o.givenBack| && row in o.givenBack[k].ledger
    requires SplitsOf(Replaced(s, o, newId), Movements(o.invoices, o.givenBack)) && Accepts(s, ctr, o, newId)
    requires row.id in Replaced(s, o, newId) ==> TakesOut(row)
    ensures row.txnType.ReturnTxn? && row.qtyOut == 0
  {
    hide Accepts, PlaceRows, Ordered, VO.Conflicts, VerificationContext, Split, SplitsOf, Movements, VO.CheckReturns, VO.InvoiceConflicts, PlaceCustomers;
    NothingClashes(s, ctr, o, newId);
    var p, ctx := Prepare(s, ctr, o, newId), VerificationContext(s, o);
    VS.BothClear(ctx, p.invoices, p.givenBack);
    ReturnsOnlyReturn(VO.SoldLines(ctx.serverLines, p.invoices), VO.Start(ctx, p.invoices), p.givenBack, k);
    CutPart(s, o, newId, o.givenBack[k].ledger);
    PieceOfItsKind(Replaced(s, o, newId), o.givenBack[k].ledger, row);
    SplitHas(Replaced(s, o, newId), o.givenBack[k].ledger, row);
  }

  /** Sales taken bring nothing in. */
  lemma AcceptedSales(s: Server, ctr: Counter, o: Outbox, newId: Id -> Id)
    requires Accepts(s, ctr, o, newId) && DistinctIds(Movements(o.invoices, o.givenBack))
    ensures SalesBringNothingIn(Movements(o.invoices, o.givenBack))
  {
    hide Accepts, DistinctIds, SplitsOf, Movements, InvoiceMovements, ReturnMovements, Replaced;
    ReplacedAreCuts(s, o, newId);
    forall row | row in Movements(o.invoices, o.givenBack) && row.txnType.SaleTxn? ensures row.qtyIn == 0 {
      InvoiceOrReturn(o, row);
      if row in InvoiceMovements(o.invoices) {
        FromInvoice(o.invoices, row);
        var k :| 0 <= k < |o.invoices| && row in o.invoices[k].ledger;
        AcceptedSale(s, ctr, o, newId, k, row);
      } else {
        FromReturn(o.givenBack, row);
        var k :| 0 <= k < |o.givenBack| && row in o.givenBack[k].ledger;
        AcceptedReturn(s, ctr, o, newId, k, row);
      }
    }
  }

  lemma InvoiceOrReturn(o: Outbox, row: LedgerRow)
    ensures row in Movements(o.invoices, o.givenBack) <==> row in InvoiceMovements(o.invoices) || row in ReturnMovements(o.givenBack)
  {
  }

  lemma CutPart(s: Server, o: Outbox, newId: Id -> Id, ledger: seq<LedgerRow>)
    requires SplitsOf(Replaced(s, o, newId), Movements(o.invoices, o.givenBack))
    requires (exists k :: 0 <= k < |o.invoices| && ledger == o.invoices[k].ledger) || (exists k :: 0 <= k < |o.givenBack| && ledger == o.givenBack[k].ledger)
    ensures SplitsOf(Replaced(s, o, newId), ledger)
  {
    hide IsSplit, Replaced, Movements;
    forall row | row in ledger ensures row in Movements(o.invoices, o.givenBack) {
      ToMovements(o.invoices, o.givenBack, row);
      InvoiceOrReturn(o, row);
    }
  }

  // ----- Every movement placed is of a batch of its item

  lemma {:induction false} ReplacedOfBatch(ctx: BatchContext, rows: seq<LedgerRow>)
    ensures forall id :: id in PlaceRows(ctx, rows).replaced ==> exists row :: row in rows && row.id == id && OfItsBatch(ctx, row)
  {
    if rows != [] {
      var n := |rows| - 1;
      assert rows == rows[..n] + [rows[n]];
      ReplacedOfBatch(ctx, rows[..n]);
      PlaceRowIs(ctx, PlaceRows(ctx, rows[..n]), rows[n]);
      assert rows[n] in rows;
    }
  }

  lemma UnreplacedMoves(s: Server, o: Outbox, newId: Id -> Id, row: LedgerRow)
    requires DistinctIds(Movements(o.invoices, o.givenBack))
    requires row in Ordered(ContextOf(s, newId), o.invoices, o.givenBack) && !OfItsBatch(ContextOf(s, newId), row)
    ensures row in Split(Replaced(s, o, newId), Movements(o.invoices, o.givenBack))
  {
    hide PlaceRows, Ordered, Movements, DistinctIds, Split, OfItsBatch;
    var ctx := ContextOf(s, newId);
    ReplacedOfBatch(ctx, Ordered(ctx, o.invoices, o.givenBack));
    OrderedFrom(ctx, o.invoices, o.givenBack);
    if row.id in Replaced(s, o, newId) {
      var other :| other in Ordered(ctx, o.invoices, o.givenBack) && other.id == row.id && OfItsBatch(ctx, other);
      OneOfEach(Movements(o.invoices, o.givenBack), other, row);
    }
    SplitHas(Replaced(s, o, newId), Movements(o.invoices, o.givenBack), row);
  }

  lemma PreparedMovements(s: Server, ctr: Counter, o: Outbox, newId: Id -> Id)
    ensures var p := Prepare(s, ctr, o, newId);
            Movements(p.invoices, p.givenBack) == Split(Replaced(s, o, newId), Movements(o.invoices, o.givenBack))
  {
    hide PlaceRows, Ordered, PlaceCustomers, Split;
    var sameAs := PlaceCustomers(s, ctr, o.customers).sameAs;
    SplitMovements(Replaced(s, o, newId), WithCustomers(o.invoices, sameAs), o.givenBack);
    CustomersKeepMovements(o.invoices, sameAs);
  }

  lemma AcceptedPlaceable(s: Server, ctr: Counter, o: Outbox, newId: Id -> Id)
    requires Accepts(s, ctr, o, newId) && DistinctIds(Movements(o.invoices, o.givenBack))
    ensures Placeable(ContextOf(s, newId), Ordered(ContextOf(s, newId), o.invoices, o.givenBack))
  {
    hide Accepts, PlaceRows, Ordered, DistinctIds, Split, Movements, Prepare;
    NothingClashes(s, ctr, o, newId);
    AcceptedSales(s, ctr, o, newId);
    PreparedMovements(s, ctr, o, newId);
    var ctx := ContextOf(s, newId);
    var rows := Ordered(ctx, o.invoices, o.givenBack);
    forall i | 0 <= i < |rows| ensures OfItsBatch(ctx, rows[i]) && (TakesOut(rows[i]) ==> rows[i].qtyIn == 0) {
      OrderedRows(ctx, o.invoices, o.givenBack, rows[i]);
      if !OfItsBatch(ctx, rows[i]) {
        UnreplacedMoves(s, o, newId, rows[i]);
        WrongBatchClashes(s, Split(Replaced(s, o, newId), Movements(o.invoices, o.givenBack)), rows[i]);
      }
    }
  }

  lemma WrongBatchClashes(s: Server, movements: seq<LedgerRow>, row: LedgerRow)
    requires row in movements && row.id !in s.stock.ledger && row.batchId.Some? && !OfRightBatch(s.catalog, row)
    ensures WrongBatch(row.id) in BatchClashes(s, movements)
  {
  }

  // ----- Every bill's customer is found

  ghost predicate CustomerFound(s: Server, placed: Placed, customer: Id) {
    customer in placed.sameAs || customer in s.people.customers || customer in CreatedIds(placed.created)
  }

  lemma MissingCustomerClashes(s: Server, o: Outbox, invoices: seq<InvoiceEntry>, created: set<Id>, entry: InvoiceEntry)
    requires entry in invoices && entry.invoice.customerId !in s.people.customers && entry.invoice.customerId !in created
    ensures CustomerGone(entry.invoice.id) in MissingClashes(s, o, invoices, created)
  {
  }

  lemma PreparedFor(s: Server, ctr: Counter, o: Outbox, newId: Id -> Id, k: nat)
    requires k < |o.invoices|
    ensures var p, people := Prepare(s, ctr, o, newId), PlaceCustomers(s, ctr, o.customers);
            && p.created == people.created && |p.invoices| == |o.invoices|
            && p.invoices[k].invoice == WithCustomer(o.invoices[k], people.sameAs).invoice
  {
    hide PlaceRows, Ordered, PlaceCustomers, Split;
  }

  lemma AcceptedCustomers(s: Server, ctr: Counter, o: Outbox, newId: Id -> Id, entry: InvoiceEntry)
    requires Accepts(s, ctr, o, newId) && entry in o.invoices
    ensures CustomerFound(s, PlaceCustomers(s, ctr, o.customers), entry.invoice.customerId)
  {
    hide Accepts, Prepare, PlaceCustomers, MissingClashes;
    NothingClashes(s, ctr, o, newId);
    var p := Prepare(s, ctr, o, newId);
    var k :| 0 <= k < |o.invoices| && o.invoices[k] == entry;
    PreparedFor(s, ctr, o, newId, k);
    if !CustomerFound(s, PlaceCustomers(s, ctr, o.customers), entry.invoice.customerId) {
      MissingCustomerClashes(s, o, p.invoices, CreatedIds(p.created), p.invoices[k]);
    }
  }

  // ----- Whether a sync is taken has nothing to do with the server's registers

  lemma {:induction false} SameCustomers(s: Server, registers: map<Id, RegisterRow>, ctr: Counter, rows: seq<CustomerRow>)
    ensures PlaceCustomers(s.(registers := registers), ctr, rows) == PlaceCustomers(s, ctr, rows)
  {
    if rows != [] { SameCustomers(s, registers, ctr, rows[..|rows| - 1]); }
  }

  lemma SamePrepared(s: Server, registers: map<Id, RegisterRow>, ctr: Counter, o: Outbox, newId: Id -> Id)
    ensures Prepare(s.(registers := registers), ctr, o, newId) == Prepare(s, ctr, o, newId)
    ensures Taken(s.(registers := registers), ctr, o, newId).documents == Taken(s, ctr, o, newId).documents
  {
    hide PlaceCustomers, PlaceRows, Ordered, SplitInvoices, SplitReturns, WithCustomers, AddDocuments, RecordAll, SyncRegisters, AddCustomers,
      AddFlags, RaiseAll, Raise;
    SameCustomers(s, registers, ctr, o.customers);
  }

  lemma SameClashes(s: Server, registers: map<Id, RegisterRow>, ctr: Counter, o: Outbox, newId: Id -> Id)
    ensures ClashesOf(s.(registers := registers), ctr, o, newId) == ClashesOf(s, ctr, o, newId)
  {
    hide Prepare, BatchClashes, NumberClashes, MissingClashes, ReturnClashes, VO.Conflicts, VerificationContext;
    SamePrepared(s, registers, ctr, o, newId);
    OfBatches(s, registers, Prepare(s, ctr, o, newId));
    OfRest(s, registers, o, Prepare(s, ctr, o, newId));
  }

  lemma OfBatches(s: Server, registers: map<Id, RegisterRow>, p: Prepared)
    ensures BatchClashes(s.(registers := registers), Movements(p.invoices, p.givenBack)) == BatchClashes(s, Movements(p.invoices, p.givenBack))
  {
    hide Movements, OfRightBatch, Expired;
  }

  lemma OfRest(s: Server, registers: map<Id, RegisterRow>, o: Outbox, p: Prepared)
    ensures MissingClashes(s.(registers := registers), o, p.invoices, CreatedIds(p.created)) == MissingClashes(s, o, p.invoices, CreatedIds(p.created))
    ensures VerificationContext(s.(registers := registers), o) == VerificationContext(s, o)
  {
    hide Flat, CreatedIds, TakenByOthers, TableTotal, VO.SoldOf;
  }

  lemma TakenWhateverRegisters(s: Server, registers: map<Id, RegisterRow>, ctr: Counter, o: Outbox, newId: Id -> Id)
    ensures Accepts(s.(registers := registers), ctr, o, newId) <==> Accepts(s, ctr, o, newId)
  {
    hide PlaceCustomers, ClashesOf, Taken, Owned, UniqueNumbers, ServerBillsAreOwn;
    SameCustomers(s, registers, ctr, o.customers);
    SamePrepared(s, registers, ctr, o, newId);
    SameClashes(s, registers, ctr, o, newId);
  }
}
