/**
 * Sending an outbox and then the same outbox grown by later documents leaves the server as sending the
 * grown outbox alone would; sending the same outbox again changes nothing.
 */
module GrownSync {
  import opened AcceptedOutbox
  import opened BatchShortfalls
  import opened Cuts
  import opened GrownCustomers
  import opened GrownLedger
  import opened GrownPlacing
  import opened GrownRegisters
  import opened OutboxRows
  import RegisterCash
  import opened ServerTables
  import opened Sync
  import opened SyncChecks
  import opened Tables

  // ----- Documents

  lemma {:induction false} FlatConcat<E, R>(a: seq<E>, b: seq<E>, of: E -> seq<R>)
    ensures Flat(a + b, of) == Flat(a, of) + Flat(b, of)
  {
    if b == [] {
      assert a + b == a;
    } else {
      assert (a + b)[..|a + b| - 1] == a + b[..|b| - 1];
      FlatConcat(a, b[..|b| - 1], of);
    }
  }

  lemma {:induction false} FlatSame<E, R>(a: seq<E>, b: seq<E>, of: E -> seq<R>)
    requires |a| == |b| && forall i :: 0 <= i < |a| ==> of(a[i]) == of(b[i])
    ensures Flat(a, of) == Flat(b, of)
  {
    if a != [] { FlatSame(a[..|a| - 1], b[..|b| - 1], of); }
  }

  /** Cutting movements changes no document. */
  lemma CutDocuments(d: Documents, replaced: map<Id, seq<LedgerRow>>, invoices: seq<InvoiceEntry>, givenBack: seq<ReturnEntry>)
    ensures AddDocuments(d, SplitInvoices(replaced, invoices), givenBack) == AddDocuments(d, invoices, givenBack)
  {
    hide Split, Insert;
    var cut := SplitInvoices(replaced, invoices);
    FlatSame(cut, invoices, LINES);
    FlatSame(cut, invoices, DISCOUNTS);
    FlatSame(cut, invoices, ALLOCATIONS);
    FlatSame(cut, invoices, PAYMENTS);
    FlatSame(cut, invoices, RECEIPTS);
    assert Heads(cut) == Heads(invoices);
  }

  lemma DocumentsInTwo(d: Documents, a: seq<InvoiceEntry>, more: seq<InvoiceEntry>, b: seq<ReturnEntry>, moreBack: seq<ReturnEntry>)
    ensures AddDocuments(AddDocuments(d, a, b), a + more, b + moreBack) == AddDocuments(d, a + more, b + moreBack)
  {
    hide Insert, Flat;
    FlatConcat(a, more, LINES);
    FlatConcat(a, more, DISCOUNTS);
    FlatConcat(a, more, ALLOCATIONS);
    FlatConcat(a, more, PAYMENTS);
    FlatConcat(a, more, RECEIPTS);
    FlatConcat(b, moreBack, RETURN_LINES);
    assert Heads(a + more) == Heads(a) + Heads(more);
    assert ReturnHeads(b + moreBack) == ReturnHeads(b) + ReturnHeads(moreBack);
    InsertGrown(d.invoices, Heads(a), Heads(more), INVOICE_ID);
    InsertGrown(d.saleLines, Flat(a, LINES), Flat(more, LINES), SALE_LINE_ID);
    InsertGrown(d.discounts, Flat(a, DISCOUNTS), Flat(more, DISCOUNTS), DISCOUNT_ID);
    InsertGrown(d.allocations, Flat(a, ALLOCATIONS), Flat(more, ALLOCATIONS), ALLOCATION_ID);
    InsertGrown(d.payments, Flat(a, PAYMENTS), Flat(more, PAYMENTS), PAYMENT_ID);
    InsertGrown(d.receipts, Flat(a, RECEIPTS), Flat(more, RECEIPTS), RECEIPT_ID);
    InsertGrown(d.givenBack, ReturnHeads(b), ReturnHeads(moreBack), RETURN_ID);
    InsertGrown(d.returnLines, Flat(b, RETURN_LINES), Flat(moreBack, RETURN_LINES), RETURN_LINE_ID);
  }

  // ----- Bills' customers

  lemma {:induction false} MergedIs(s: Server, ctr: Counter, rows: seq<CustomerRow>, id: Id)
    requires DistinctCustomers(rows)
    ensures id in PlaceCustomers(s, ctr, rows).sameAs <==> exists row :: row in rows && row.id == id && IsMerged(s, ctr, row)
    ensures forall row :: row in rows && row.id == id && IsMerged(s, ctr, row) ==>
              id in PlaceCustomers(s, ctr, rows).sameAs
              && PlaceCustomers(s, ctr, rows).sameAs[id] == Smallest(WithPhone(s.people, s.catalog.customersPerBranch, ctr.branchId, row.phone))
  {
    hide IsNew, IsMerged, PlaceCustomer, WithPhone, PlaceCustomers, DistinctCustomers;
    if rows == [] {
      NonePlaced(s, ctr);
    } else {
      var n := |rows| - 1;
      LastApart(rows);
      MergedIs(s, ctr, rows[..n], id);
      LastPlaced(s, ctr, rows);
      PlaceCustomerIs(s, ctr, PlaceCustomers(s, ctr, rows[..n]), rows[n]);
      OneOfThree(s, ctr, rows[n]);
    }
  }

  lemma NonePlaced(s: Server, ctr: Counter)
    ensures PlaceCustomers(s, ctr, []) == Placed(map[], [])
  {
  }

  lemma LastPlaced(s: Server, ctr: Counter, rows: seq<CustomerRow>)
    requires rows != []
    ensures PlaceCustomers(s, ctr, rows) == PlaceCustomer(s, ctr, PlaceCustomers(s, ctr, rows[..|rows| - 1]), rows[|rows| - 1])
  {
    hide PlaceCustomer;
  }

  lemma LastApart(rows: seq<CustomerRow>)
    requires DistinctCustomers(rows) && rows != []
    ensures var front, last := rows[..|rows| - 1], rows[|rows| - 1];
            && DistinctCustomers(front) && (forall row :: row in rows <==> row in front || row == last)
            && forall row :: row in front ==> row.id != last.id
  {
    var n := |rows| - 1;
    assert rows == rows[..n] + [rows[n]];
    forall row | row in rows[..n] ensures row.id != rows[n].id {
      var i :| 0 <= i < n && rows[..n][i] == row;
      assert rows[i].id != rows[n].id;
    }
  }

  /** A bill of the first outbox keeps the customer it was settled on. */
  lemma FirstCustomerSame(s: Server, ctr: Counter, first: seq<CustomerRow>, later: seq<CustomerRow>, customer: Id)
    requires DistinctCustomers(first + later) && CustomerFound(s, PlaceCustomers(s, ctr, first), customer)
    ensures var a, b := PlaceCustomers(s, ctr, first).sameAs, PlaceCustomers(s, ctr, first + later).sameAs;
            (customer in a <==> customer in b) && (customer in a ==> a[customer] == b[customer])
  {
    hide PlaceCustomers, IsMerged, IsNew, WithPhone, DistinctCustomers;
    FirstDistinct(first, later);
    MergedIs(s, ctr, first, customer);
    MergedIs(s, ctr, first + later, customer);
    CreatedAre(s, ctr, first);
    assert forall row :: row in first ==> row in first + later;
    forall row | row in first + later && row.id == customer && IsMerged(s, ctr, row)
      ensures row in first
    {
      OneOfThree(s, ctr, row);
      if row in later { LaterNotCreated(s, ctr, first, later, row); LaterNotFirst(first, later, row); }
    }
  }

  lemma LaterNotFirst(first: seq<CustomerRow>, later: seq<CustomerRow>, row: CustomerRow)
    requires DistinctCustomers(first + later) && row in later
    ensures forall other :: other in first ==> other.id != row.id
  {
    var j :| 0 <= j < |later| && later[j] == row;
    forall other | other in first ensures other.id != row.id {
      var i :| 0 <= i < |first| && first[i] == other;
      assert (first + later)[i] == other && (first + later)[|first| + j] == row;
    }
  }

  // ----- Numbers

  /** Every series of the first outbox is in the later one, no lower. */
  ghost predicate SequencesGrown(first: seq<SequenceRow>, later: seq<SequenceRow>) {
    forall a :: a in first ==> exists b :: b in later && SeqKeyOf(b) == SeqKeyOf(a) && b.lastSeq >= a.lastSeq
  }

  /** A raised number is the highest of what was there and what was sent. */
  lemma {:induction false} RaisedIs(m: map<SeqKey, nat>, rows: seq<SequenceRow>, key: SeqKey)
    ensures var r := RaiseAll(m, rows);
            && (key in m ==> key in r && r[key] >= m[key])
            && (forall row :: row in rows && SeqKeyOf(row) == key ==> key in r && r[key] >= row.lastSeq)
            && (key in r ==> (key in m && r[key] == m[key]) || exists row :: row in rows && SeqKeyOf(row) == key && r[key] == row.lastSeq)
  {
    if rows != [] {
      var n := |rows| - 1;
      assert rows == rows[..n] + [rows[n]];
      RaisedIs(m, rows[..n], key);
      assert rows[n] in rows;
    }
  }

  lemma SequenceInTwo(m: map<SeqKey, nat>, first: seq<SequenceRow>, later: seq<SequenceRow>, key: SeqKey)
    requires SequencesGrown(first, later)
    ensures var twice, once := RaiseAll(RaiseAll(m, first), later), RaiseAll(m, later);
            (key in twice <==> key in once) && (key in once ==> twice[key] == once[key])
  {
    hide RaiseAll;
    RaisedIs(m, first, key);
    RaisedIs(RaiseAll(m, first), later, key);
    RaisedIs(m, later, key);
  }

  lemma SequencesInTwo(m: map<SeqKey, nat>, first: seq<SequenceRow>, later: seq<SequenceRow>)
    requires SequencesGrown(first, later)
    ensures RaiseAll(RaiseAll(m, first), later) == RaiseAll(m, later)
  {
    hide RaiseAll, SequencesGrown;
    var twice, once := RaiseAll(RaiseAll(m, first), later), RaiseAll(m, later);
    forall key: SeqKey ensures (key in twice <==> key in once) && (key in once ==> twice[key] == once[key]) {
      SequenceInTwo(m, first, later, key);
    }
    assert twice.Keys == once.Keys;
  }

  lemma ReceiptsInTwo(m: map<Id, nat>, counter: Id, first: nat, later: nat)
    requires first <= later
    ensures Raise(Raise(m, counter, first), counter, later) == Raise(m, counter, later)
  {
  }

  lemma FlagsInTwo(flagged: map<BatchKey, int>, all: Placing, first: Placing, later: Placing)
    requires Follows(all, first, later)
    ensures AddFlags(AddFlags(flagged, first.shortfalls), later.shortfalls) == AddFlags(flagged, all.shortfalls)
  {
    var twice, once := AddFlags(AddFlags(flagged, first.shortfalls), later.shortfalls), AddFlags(flagged, all.shortfalls);
    forall key: BatchKey | key in once ensures key in twice && twice[key] == once[key] {
      assert Short(all, key) == Short(first, key) + Short(later, key);
    }
    assert twice.Keys == once.Keys;
  }

  // ----- Cash of registers that aren't in the outbox

  /** Money in the outbox is on its own registers, or on none. */
  lemma {:induction false} OwnPayments(ctr: Counter, registers: set<Id>, invoices: seq<InvoiceEntry>)
    requires forall entry :: entry in invoices ==> OwnInvoice(ctr, registers, entry)
    ensures forall row :: row in Flat(invoices, PAYMENTS) ==> row.registerId.None? || row.registerId.value in registers
  {
    if invoices != [] {
      var n := |invoices| - 1;
      assert invoices == invoices[..n] + [invoices[n]];
      OwnPayments(ctr, registers, invoices[..n]);
      assert invoices[n] in invoices;
    }
  }

  lemma OtherPayments(table: map<Id, PaymentRow>, rows: seq<PaymentRow>, registers: set<Id>, register: Id, mode: PaymentMode)
    requires register !in registers && forall row :: row in rows ==> row.registerId.None? || row.registerId.value in registers
    ensures TableTotal(Insert(table, rows, PAYMENT_ID), RegisterCash.PaidBy(register, mode)) == TableTotal(table, RegisterCash.PaidBy(register, mode))
  {
    hide TableTotal;
    ByIdHolds(rows, PAYMENT_ID);
    TotalExtra(table, Insert(table, rows, PAYMENT_ID), RegisterCash.PaidBy(register, mode));
  }

  lemma OtherRefunds(table: map<Id, ReturnRow>, rows: seq<ReturnRow>, registers: set<Id>, register: Id)
    requires register !in registers && forall row :: row in rows ==> row.registerId.None? || row.registerId.value in registers
    ensures TableTotal(Insert(table, rows, RETURN_ID), RegisterCash.Refunded(register)) == TableTotal(table, RegisterCash.Refunded(register))
  {
    hide TableTotal;
    ByIdHolds(rows, RETURN_ID);
    TotalExtra(table, Insert(table, rows, RETURN_ID), RegisterCash.Refunded(register));
  }

  lemma OthersCash(catalog: Catalog, d: Documents, ctr: Counter, o: Outbox, registers: set<Id>, register: Id)
    requires register !in registers
    requires forall entry :: entry in o.invoices ==> OwnInvoice(ctr, registers, entry)
    requires forall entry :: entry in o.givenBack ==> OwnReturn(ctr, registers, entry)
    ensures RegisterCash.Sums(CashRowsOf(catalog, AddDocuments(d, o.invoices, o.givenBack)), register)
         == RegisterCash.Sums(CashRowsOf(catalog, d), register)
  {
    hide TableTotal, Insert, Flat, RegisterCash.PaidBy, RegisterCash.Refunded, RegisterCash.Through, OwnInvoice;
    OwnPayments(ctr, registers, o.invoices);
    OtherPayments(d.payments, Flat(o.invoices, PAYMENTS), registers, register, Cash);
    OtherPayments(d.payments, Flat(o.invoices, PAYMENTS), registers, register, Card);
    OtherPayments(d.payments, Flat(o.invoices, PAYMENTS), registers, register, Upi);
    OwnRefunds(ctr, registers, o.givenBack);
    OtherRefunds(d.givenBack, ReturnHeads(o.givenBack), registers, register);
  }

  lemma OwnRefunds(ctr: Counter, registers: set<Id>, givenBack: seq<ReturnEntry>)
    requires forall entry :: entry in givenBack ==> OwnReturn(ctr, registers, entry)
    ensures forall row :: row in ReturnHeads(givenBack) ==> row.registerId.None? || row.registerId.value in registers
  {
    forall row | row in ReturnHeads(givenBack) ensures row.registerId.None? || row.registerId.value in registers {
      var i :| 0 <= i < |givenBack| && ReturnHeads(givenBack)[i] == row;
      assert OwnReturn(ctr, registers, givenBack[i]);
    }
  }

  // ----- The whole server

  /** The later outbox is the earlier one with more documents and customers, registers further on, and numbers no lower. */
  ghost predicate Grown(s: Server, a: Outbox, b: Outbox) {
    && a.invoices <= b.invoices && a.givenBack <= b.givenBack && a.customers <= b.customers
    && DistinctCustomers(b.customers)
    && RegistersGrown(s.registers, a.registers, b.registers)
    && SequencesGrown(a.sequences, b.sequences) && a.receiptSeq <= b.receiptSeq
  }

  function GrowthOf(a: Outbox, b: Outbox): (r: Growth)
    requires a.invoices <= b.invoices && a.givenBack <= b.givenBack
  {
    Growth(a.invoices, a.givenBack, b.invoices[|a.invoices|..], b.givenBack[|a.givenBack|..])
  }

  /** Movements have ids of their own, drawn ids are new ones, and the movements added came after the first. */
  ghost predicate MovementsGrown(s: Server, newId: Id -> Id, a: Outbox, b: Outbox)
    requires a.invoices <= b.invoices && a.givenBack <= b.givenBack
  {
    var g := GrowthOf(a, b);
    DistinctIds(g.All()) && NewIdsApart(newId, s.stock.ledger.Keys, g.All()) && LaterInTime(g)
  }

  lemma GrowthParts(a: Outbox, b: Outbox)
    requires a.invoices <= b.invoices && a.givenBack <= b.givenBack
    ensures var g := GrowthOf(a, b); g.invoices + g.moreInvoices == b.invoices && g.givenBack + g.moreBack == b.givenBack
  {
  }

  function ItemOf(catalog: Catalog): (r: map<Id, Id>) { map id | id in catalog.batches :: catalog.batches[id].itemId }

  lemma TakenStock(s: Server, ctr: Counter, o: Outbox, newId: Id -> Id)
    ensures Taken(s, ctr, o, newId).stock == Sent(s.stock, ItemOf(s.catalog), newId, o.invoices, o.givenBack)
    ensures Taken(s, ctr, o, newId).flagged
         == AddFlags(s.flagged, PlacedFor(s.stock, ItemOf(s.catalog), newId, o.invoices, o.givenBack).shortfalls)
  {
    hide PlaceRows, Ordered, PlaceCustomers, Split, RecordAll, AddFlags, AddDocuments, SyncRegisters, AddCustomers;
    PreparedMovements(s, ctr, o, newId);
  }

  lemma TakenDocuments(s: Server, ctr: Counter, o: Outbox, newId: Id -> Id)
    ensures Taken(s, ctr, o, newId).documents
         == AddDocuments(s.documents, WithCustomers(o.invoices, PlaceCustomers(s, ctr, o.customers).sameAs), o.givenBack)
  {
    hide PlaceRows, Ordered, PlaceCustomers, Split, RecordAll, AddFlags, AddDocuments, SyncRegisters, AddCustomers, WithCustomers, SplitInvoices;
    CutDocuments(s.documents, Replaced(s, o, newId), WithCustomers(o.invoices, PlaceCustomers(s, ctr, o.customers).sameAs), o.givenBack);
  }

  lemma TakenPeople(s: Server, ctr: Counter, o: Outbox, newId: Id -> Id)
    ensures Taken(s, ctr, o, newId).people == AddCustomers(s.people, ctr.branchId, PlaceCustomers(s, ctr, o.customers).created)
    ensures Taken(s, ctr, o, newId).catalog == s.catalog
    ensures Taken(s, ctr, o, newId).registers
         == SyncRegisters(s.registers, ctr, o.registers, CashRowsOf(s.catalog, Taken(s, ctr, o, newId).documents))
    ensures Taken(s, ctr, o, newId).numbers
         == Numbers(RaiseAll(s.numbers.sequences, o.sequences), Raise(s.numbers.receiptSeq, ctr.id, o.receiptSeq))
  {
    hide PlaceRows, Ordered, PlaceCustomers, Split, RecordAll, AddFlags, AddDocuments, SyncRegisters, AddCustomers, WithCustomers, SplitInvoices, RaiseAll, Raise;
  }

  lemma StocksInTwo(s: Server, ctr: Counter, a: Outbox, b: Outbox, newId: Id -> Id)
    requires Grown(s, a, b) && MovementsGrown(s, newId, a, b) && Accepts(s, ctr, a, newId)
    ensures var once, twice := Taken(s, ctr, b, newId), Taken(Taken(s, ctr, a, newId), ctr, b, newId);
            twice.stock == once.stock && twice.flagged == once.flagged
  {
    hide Accepts, Taken, Sent, PlacedFor, NewIdsApart, DistinctIds, LaterInTime, Growth.All, Growth.First, AddFlags, Placeable, Follows, ContextOf, PlacingContext, CutsApart, Ordered;
    var s1, g := Taken(s, ctr, a, newId), GrowthOf(a, b);
    TakenPeople(s, ctr, a, newId);
    TakenStock(s, ctr, a, newId);
    TakenStock(s1, ctr, b, newId);
    TakenStock(s, ctr, b, newId);
    GrowthParts(a, b);
    FirstDistinctMovements(a, b);
    AcceptedPlaceable(s, ctr, a, newId);
    SameContext(s, newId);
    StockInTwo(s.stock, ItemOf(s.catalog), newId, g);
    PlacedInTwo(s.stock, ItemOf(s.catalog), newId, g);
    FlagsInTwo(s.flagged, PlacedFor(s.stock, ItemOf(s.catalog), newId, b.invoices, b.givenBack),
      PlacedFor(s.stock, ItemOf(s.catalog), newId, a.invoices, a.givenBack),
      PlacedFor(s1.stock, ItemOf(s.catalog), newId, b.invoices, b.givenBack));
  }

  lemma FirstDistinctMovements(a: Outbox, b: Outbox)
    requires a.invoices <= b.invoices && a.givenBack <= b.givenBack && DistinctIds(GrowthOf(a, b).All())
    ensures DistinctIds(Movements(a.invoices, a.givenBack))
  {
    hide Movements, DistinctIds;
    FirstAndLater(GrowthOf(a, b));
  }

  lemma SameContext(s: Server, newId: Id -> Id)
    ensures ContextOf(s, newId) == PlacingContext(s.stock, ItemOf(s.catalog), newId)
  {
  }

  lemma CustomersSame(s: Server, ctr: Counter, a: Outbox, b: Outbox, newId: Id -> Id)
    requires a.invoices <= b.invoices && a.customers <= b.customers && DistinctCustomers(b.customers) && Accepts(s, ctr, a, newId)
    ensures WithCustomers(a.invoices, PlaceCustomers(s, ctr, b.customers).sameAs)
         == WithCustomers(a.invoices, PlaceCustomers(s, ctr, a.customers).sameAs)
  {
    hide Accepts, PlaceCustomers, DistinctCustomers;
    var first, later := a.customers, b.customers[|a.customers|..];
    assert b.customers == first + later;
    forall k | 0 <= k < |a.invoices|
      ensures WithCustomer(a.invoices[k], PlaceCustomers(s, ctr, b.customers).sameAs) == WithCustomer(a.invoices[k], PlaceCustomers(s, ctr, first).sameAs)
    {
      AcceptedCustomers(s, ctr, a, newId, a.invoices[k]);
      FirstCustomerSame(s, ctr, first, later, a.invoices[k].invoice.customerId);
    }
  }

  lemma WithMore(invoices: seq<InvoiceEntry>, more: seq<InvoiceEntry>, sameAs: map<Id, Id>)
    ensures WithCustomers(invoices + more, sameAs) == WithCustomers(invoices, sameAs) + WithCustomers(more, sameAs)
  {
  }

  lemma TakenDocumentsInTwo(s: Server, ctr: Counter, a: Outbox, b: Outbox, newId: Id -> Id)
    requires Grown(s, a, b) && PhonesApart(s, ctr, a.customers, b.customers[|a.customers|..]) && Accepts(s, ctr, a, newId)
    ensures Taken(Taken(s, ctr, a, newId), ctr, b, newId).documents == Taken(s, ctr, b, newId).documents
  {
    hide Accepts, Taken, PlaceCustomers, DistinctCustomers, PhonesApart, AddCustomers, AddDocuments, WithCustomers;
    var s1 := Taken(s, ctr, a, newId);
    var first, later, more := a.customers, b.customers[|a.customers|..], b.invoices[|a.invoices|..];
    assert b.customers == first + later && b.invoices == a.invoices + more;
    TakenPeople(s, ctr, a, newId);
    TakenDocuments(s, ctr, a, newId);
    TakenDocuments(s1, ctr, b, newId);
    TakenDocuments(s, ctr, b, newId);
    LaterSettled(s, s1, ctr, first, later, |later|);
    assert later[..|later|] == later;
    CustomersSame(s, ctr, a, b, newId);
    var sameAs := PlaceCustomers(s, ctr, b.customers).sameAs;
    WithMore(a.invoices, more, sameAs);
    assert b.givenBack == a.givenBack + b.givenBack[|a.givenBack|..];
    DocumentsInTwo(s.documents, WithCustomers(a.invoices, sameAs), WithCustomers(more, sameAs), a.givenBack, b.givenBack[|a.givenBack|..]);
  }

  /** Neither sending moves the cash of a register that isn't in the later outbox. */
  lemma SameOthersCash(s: Server, ctr: Counter, a: Outbox, b: Outbox, newId: Id -> Id, register: Id)
    requires a.invoices <= b.invoices && a.givenBack <= b.givenBack && Owned(ctr, b) && register !in IdsOf(b.registers)
    ensures RegisterCash.Sums(CashRowsOf(s.catalog, Taken(s, ctr, a, newId).documents), register)
         == RegisterCash.Sums(CashRowsOf(s.catalog, Taken(s, ctr, b, newId).documents), register)
  {
    hide Taken, PlaceCustomers, AddDocuments, OwnInvoice, OwnReturn, RegisterCash.Sums, CashRowsOf, WithCustomers;
    TakenOthersCash(s, ctr, a, b, newId, register);
    TakenOthersCash(s, ctr, b, b, newId, register);
  }

  lemma TakenOthersCash(s: Server, ctr: Counter, a: Outbox, b: Outbox, newId: Id -> Id, register: Id)
    requires a.invoices <= b.invoices && a.givenBack <= b.givenBack && Owned(ctr, b) && register !in IdsOf(b.registers)
    ensures RegisterCash.Sums(CashRowsOf(s.catalog, Taken(s, ctr, a, newId).documents), register)
         == RegisterCash.Sums(CashRowsOf(s.catalog, s.documents), register)
  {
    hide Taken, PlaceCustomers, AddDocuments, OwnReturn, RegisterCash.Sums, CashRowsOf;
    TakenDocuments(s, ctr, a, newId);
    var sameAs := PlaceCustomers(s, ctr, a.customers).sameAs;
    var settled := a.(invoices := WithCustomers(a.invoices, sameAs));
    forall entry | entry in settled.invoices ensures OwnInvoice(ctr, IdsOf(b.registers), entry) {
      var k :| 0 <= k < |settled.invoices| && settled.invoices[k] == entry;
      assert b.invoices[k] in b.invoices;
      assert OwnInvoice(ctr, IdsOf(b.registers), b.invoices[k]);
    }
    OthersCash(s.catalog, s.documents, ctr, settled, IdsOf(b.registers), register);
  }

  lemma TakenRegistersInTwo(s: Server, ctr: Counter, a: Outbox, b: Outbox, newId: Id -> Id)
    requires Grown(s, a, b) && Owned(ctr, b)
    requires Taken(Taken(s, ctr, a, newId), ctr, b, newId).documents == Taken(s, ctr, b, newId).documents
    ensures Taken(Taken(s, ctr, a, newId), ctr, b, newId).registers == Taken(s, ctr, b, newId).registers
  {
    hide Taken, SyncRegisters, Owned, RegistersGrown, RegisterCash.Sums, CashRowsOf;
    var s1 := Taken(s, ctr, a, newId);
    TakenPeople(s, ctr, a, newId);
    TakenPeople(s1, ctr, b, newId);
    TakenPeople(s, ctr, b, newId);
    forall id | id !in IdsOf(b.registers)
      ensures RegisterCash.Sums(CashRowsOf(s.catalog, s1.documents), id)
           == RegisterCash.Sums(CashRowsOf(s.catalog, Taken(s, ctr, b, newId).documents), id)
    {
      SameOthersCash(s, ctr, a, b, newId, id);
    }
    RegistersInTwo(s.registers, ctr, a.registers, b.registers,
      CashRowsOf(s.catalog, s1.documents), CashRowsOf(s.catalog, Taken(s, ctr, b, newId).documents));
  }

  /**
   * An outbox taken, and then taken again grown by later documents, leaves the whole server (documents,
   * stock of items and batches, registers with their expected cash, customers with codes and wallets,
   * and numbers) as taking the grown one alone does, if and only if no customer added since has the
   * phone number of one the first sending added.
   */
  lemma GrownOutbox(s: Server, ctr: Counter, a: Outbox, b: Outbox, newId: Id -> Id)
    requires Grown(s, a, b) && MovementsGrown(s, newId, a, b) && Owned(ctr, b) && Accepts(s, ctr, a, newId)
    ensures Taken(Taken(s, ctr, a, newId), ctr, b, newId) == Taken(s, ctr, b, newId)
            <==> PhonesApart(s, ctr, a.customers, b.customers[|a.customers|..])
  {
    hide Accepts, Taken, MovementsGrown, Owned, AddCustomers, PlaceCustomers, PhonesApart, RaiseAll, Raise, RegistersGrown, SequencesGrown, DistinctCustomers;
    var s1 := Taken(s, ctr, a, newId);
    var first, later := a.customers, b.customers[|a.customers|..];
    assert b.customers == first + later;
    TakenPeople(s, ctr, a, newId);
    TakenPeople(s1, ctr, b, newId);
    TakenPeople(s, ctr, b, newId);
    CustomersAddedInTwo(s, s1, ctr, first, later);
    if PhonesApart(s, ctr, first, later) {
      StocksInTwo(s, ctr, a, b, newId);
      TakenDocumentsInTwo(s, ctr, a, b, newId);
      TakenRegistersInTwo(s, ctr, a, b, newId);
      SequencesInTwo(s.numbers.sequences, a.sequences, b.sequences);
      ReceiptsInTwo(s.numbers.receiptSeq, ctr.id, a.receiptSeq, b.receiptSeq);
    }
  }
}
