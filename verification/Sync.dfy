/**
 * The online server taking what a fallback counter made offline, in one transaction
 * (apps/api/src/fallback/fallback.service.ts).
 */
module Sync {
  import opened BatchShortfalls
  import opened OutboxRows
  import RegisterCash
  import opened ServerTables
  import opened SyncChecks
  import opened Tables

  /** The outbox with its customers settled and its batch shortfalls placed. */
  datatype Prepared = Prepared(
    created: seq<CustomerRow>, invoices: seq<InvoiceEntry>, givenBack: seq<ReturnEntry>, shortfalls: map<BatchKey, int>)

  function ContextOf(s: Server, newId: Id -> Id): (r: BatchContext) {
    BatchContext(s.stock.ledger.Keys, map id | id in s.catalog.batches :: s.catalog.batches[id].itemId, s.stock.batches, newId)
  }

  function Prepare(s: Server, ctr: Counter, o: Outbox, newId: Id -> Id): (r: Prepared) {
    var people := PlaceCustomers(s, ctr, o.customers);
    var p := PlaceRows(ContextOf(s, newId), Ordered(ContextOf(s, newId), o.invoices, o.givenBack));
    Prepared(people.created, SplitInvoices(p.replaced, WithCustomers(o.invoices, people.sameAs)),
      SplitReturns(p.replaced, o.givenBack), p.shortfalls)
  }

  function CreatedIds(created: seq<CustomerRow>): (r: set<Id>) { set row | row in created :: row.id }

  function ClashesOf(s: Server, ctr: Counter, o: Outbox, newId: Id -> Id): (r: set<Clash>) {
    var p := Prepare(s, ctr, o, newId);
    Clashes(s, o, CreatedIds(p.created), p.invoices, p.givenBack)
  }

  /** The tables' unique columns: no number twice, and no id twice in what one statement writes. */
  predicate UniqueNumbers(d: Documents) {
    && (forall a, b :: a in d.invoices && b in d.invoices && a != b ==> d.invoices[a].invoiceNo != d.invoices[b].invoiceNo)
    && (forall a, b :: a in d.receipts && b in d.receipts && a != b ==> d.receipts[a].receiptNo != d.receipts[b].receiptNo)
    && (forall a, b :: a in d.givenBack && b in d.givenBack && a != b ==> d.givenBack[a].returnNo != d.givenBack[b].returnNo)
  }

  predicate WritesOnce(o: Outbox, created: seq<CustomerRow>) {
    && (forall i, j :: 0 <= i < j < |o.registers| ==> o.registers[i].id != o.registers[j].id)
    && (forall i, j :: 0 <= i < j < |created| ==> created[i].id != created[j].id)
  }

  function Taken(s: Server, ctr: Counter, o: Outbox, newId: Id -> Id): (r: Server) {
    var p := Prepare(s, ctr, o, newId);
    var documents := AddDocuments(s.documents, p.invoices, o.givenBack);
    Server(s.catalog, documents,
      RecordAll(s.stock, Movements(p.invoices, p.givenBack)),
      AddFlags(s.flagged, p.shortfalls),
      SyncRegisters(s.registers, ctr, o.registers, CashRowsOf(s.catalog, documents)),
      AddCustomers(s.people, ctr.branchId, p.created),
      Numbers(RaiseAll(s.numbers.sequences, o.sequences), Raise(s.numbers.receiptSeq, ctr.id, o.receiptSeq)))
  }

  /** Whether the rows are the counter's own, clash with nothing, and fit the tables. */
  predicate Accepts(s: Server, ctr: Counter, o: Outbox, newId: Id -> Id) {
    && o.schemaVersion == s.catalog.schemaVersion
    && Owned(ctr, o) && ServerBillsAreOwn(s.documents, ctr, o)
    && ClashesOf(s, ctr, o, newId) == {}
    && WritesOnce(o, PlaceCustomers(s, ctr, o.customers).created)
    && UniqueNumbers(Taken(s, ctr, o, newId).documents)
  }

  datatype Answer =
    | Added(invoices: int, registers: nat, customers: nat, givenBack: int)
    | OtherVersion | NotItsOwn | Clashing(clashes: set<Clash>) | DatabaseRefused

  /** The server's database. A sync works on what it read and writes all of its changes, or none. */
  class FallbackServer {
    var db: Server

    constructor (start: Server)
      ensures db == start
    {
      db := start;
    }

    method Sync(ctr: Counter, o: Outbox, newId: Id -> Id) returns (answer: Answer)
      modifies this
      ensures answer.Added? <==> Accepts(old(db), ctr, o, newId)
      ensures db == if answer.Added? then Taken(old(db), ctr, o, newId) else old(db)
      ensures answer.Clashing? ==> answer.clashes == ClashesOf(old(db), ctr, o, newId) != {}
    {
      hide PlaceCustomers, PlaceRows, Ordered, Clashes, Owned, ServerBillsAreOwn, SyncRegisters, AddDocuments, RecordAll,
        AddCustomers, AddFlags, RaiseAll, Raise, UniqueNumbers, WritesOnce, SplitInvoices, SplitReturns, WithCustomers, ContextOf;
      var tx := db;
      if o.schemaVersion != tx.catalog.schemaVersion { return OtherVersion; }
      if !Owned(ctr, o) || !ServerBillsAreOwn(tx.documents, ctr, o) { return NotItsOwn; }
      var people := PlaceOfflineCustomers(tx, ctr, o.customers);
      var invoices, givenBack, shortfalls :=
        PlaceBatchShortfalls(ContextOf(tx, newId), WithCustomers(o.invoices, people.sameAs), o.givenBack);
      SamePlacing(ContextOf(tx, newId), o.invoices, people.sameAs, o.givenBack);
      assert Prepare(tx, ctr, o, newId) == Prepared(people.created, invoices, givenBack, shortfalls);
      var clashes := Clashes(tx, o, CreatedIds(people.created), invoices, givenBack);
      if clashes != {} { return Clashing(clashes); }
      if !WritesOnce(o, people.created) { return DatabaseRefused; }
      var documents := AddDocuments(tx.documents, invoices, o.givenBack);
      if !UniqueNumbers(documents) { return DatabaseRefused; }
      var registers := TakeRegisters(tx.registers, ctr, o.registers, CashRowsOf(tx.catalog, documents));
      var added := AddOfflineCustomers(tx.people, ctr.branchId, people.created);
      var stock := RecordMovements(tx.stock, Movements(invoices, givenBack));
      var sequences := RaiseSequences(tx.numbers.sequences, o.sequences);
      var receiptSeq := Raise(tx.numbers.receiptSeq, ctr.id, o.receiptSeq);
      db := Server(tx.catalog, documents, stock, AddFlags(tx.flagged, shortfalls), registers, added, Numbers(sequences, receiptSeq));
      answer := Added(|documents.invoices| - |tx.documents.invoices|, |o.registers|, |people.created|,
        |documents.givenBack| - |tx.documents.givenBack|);
    }
  }

  lemma SamePlacing(ctx: BatchContext, invoices: seq<InvoiceEntry>, sameAs: map<Id, Id>, givenBack: seq<ReturnEntry>)
    ensures Ordered(ctx, WithCustomers(invoices, sameAs), givenBack) == Ordered(ctx, invoices, givenBack)
  {
    CustomersKeepMovements(invoices, sameAs);
  }

  lemma {:induction false} CustomersKeepMovements(invoices: seq<InvoiceEntry>, sameAs: map<Id, Id>)
    ensures InvoiceMovements(WithCustomers(invoices, sameAs)) == InvoiceMovements(invoices)
  {
    if invoices != [] {
      var n := |invoices| - 1;
      CustomersKeepMovements(invoices[..n], sameAs);
      assert WithCustomers(invoices, sameAs)[..n] == WithCustomers(invoices[..n], sameAs);
    }
  }

  method PlaceOfflineCustomers(s: Server, ctr: Counter, rows: seq<CustomerRow>) returns (p: Placed)
    ensures p == PlaceCustomers(s, ctr, rows)
  {
    var sameAs: map<Id, Id> := map[];
    var created: seq<CustomerRow> := [];
    for i := 0 to |rows|
      invariant Placed(sameAs, created) == PlaceCustomers(s, ctr, rows[..i])
    {
      assert rows[..i + 1][..i] == rows[..i];
      var row := rows[i];
      if row.id in s.people.customers { continue; }
      var same: set<Id> := {};
      if HasPhone(row) { same := WithPhone(s.people, s.catalog.customersPerBranch, ctr.branchId, row.phone); }
      if same != {} { sameAs := sameAs[row.id := Smallest(same)]; } else { created := created + [row]; }
    }
    assert rows[..|rows|] == rows;
    p := Placed(sameAs, created);
  }

  method AddOfflineCustomers(start: People, branchId: Id, rows: seq<CustomerRow>) returns (people: People)
    ensures people == AddCustomers(start, branchId, rows)
  {
    people := start;
    for i := 0 to |rows|
      invariant people == AddCustomers(start, branchId, rows[..i])
    {
      assert rows[..i + 1][..i] == rows[..i];
      people := AddCustomer(people, branchId, rows[i]);
    }
    assert rows[..|rows|] == rows;
  }

  method RecordMovements(start: Stock, rows: seq<LedgerRow>) returns (stock: Stock)
    ensures stock == RecordAll(start, rows)
  {
    stock := start;
    for i := 0 to |rows|
      invariant stock == RecordAll(start, rows[..i])
    {
      assert rows[..i + 1][..i] == rows[..i];
      stock := Record(stock, rows[i]);
    }
    assert rows[..|rows|] == rows;
  }

  method RaiseSequences(start: map<SeqKey, nat>, rows: seq<SequenceRow>) returns (sequences: map<SeqKey, nat>)
    ensures sequences == RaiseAll(start, rows)
  {
    sequences := start;
    for i := 0 to |rows|
      invariant sequences == RaiseAll(start, rows[..i])
    {
      assert rows[..i + 1][..i] == rows[..i];
      sequences := Raise(sequences, SeqKeyOf(rows[i]), rows[i].lastSeq);
    }
    assert rows[..|rows|] == rows;
  }

  // ----- Registers, one at a time

  lemma FirstAfterNext(unknown: seq<RegisterRow>, i: nat, openedAt: Instant)
    requires i < |unknown|
    ensures FirstAfter(unknown[..i + 1], openedAt) ==
            if FirstAfter(unknown[..i], openedAt).Some? then FirstAfter(unknown[..i], openedAt)
            else if openedAt < unknown[i].openedAt then Some(unknown[i].openedAt) else None
  {
    assert unknown[..i + 1][..i] == unknown[..i];
  }

  /** The registers on the counter still open, opened before `at` and not in the outbox. */
  function OpenBefore(registers: map<Id, RegisterRow>, ctr: Counter, sentIds: set<Id>, at: Instant): (r: set<Id>) {
    set id | id in registers && registers[id].counterId == ctr.id && registers[id].closedAt.None? && id !in sentIds
             && registers[id].openedAt < at
  }

  function ClosedAt(registers: map<Id, RegisterRow>, ids: set<Id>, at: Instant): (r: map<Id, RegisterRow>) {
    map id | id in registers :: if id in ids then registers[id].(closedAt := Some(at)) else registers[id]
  }

  lemma CloseNext(start: map<Id, RegisterRow>, ctr: Counter, sentIds: set<Id>, unknown: seq<RegisterRow>, i: nat)
    requires i < |unknown|
    ensures var before := CloseReplaced(start, ctr, sentIds, unknown[..i]);
            var replaced := OpenBefore(before, ctr, sentIds, unknown[i].openedAt);
            && CloseReplaced(start, ctr, sentIds, unknown[..i + 1]) == ClosedAt(before, replaced, unknown[i].openedAt)
            && ReplacedIds(start, ctr, sentIds, unknown[..i + 1]) == ReplacedIds(start, ctr, sentIds, unknown[..i]) + replaced
  {
    hide FirstAfter;
    forall id | id in start
      ensures FirstAfter(unknown[..i + 1], start[id].openedAt) ==
              if FirstAfter(unknown[..i], start[id].openedAt).Some? then FirstAfter(unknown[..i], start[id].openedAt)
              else if start[id].openedAt < unknown[i].openedAt then Some(unknown[i].openedAt) else None
    {
      FirstAfterNext(unknown, i, start[id].openedAt);
    }
  }

  lemma CloseNone(start: map<Id, RegisterRow>, ctr: Counter, sentIds: set<Id>)
    ensures CloseReplaced(start, ctr, sentIds, []) == start && ReplacedIds(start, ctr, sentIds, []) == {}
  {
  }

  /** Registers in turn: one opened offline ends the one open before it; then all are written, and cash reconciled. */
  method TakeRegisters(start: map<Id, RegisterRow>, ctr: Counter, sent: seq<RegisterRow>, cash: RegisterCash.CashRows)
    returns (registers: map<Id, RegisterRow>)
    ensures registers == SyncRegisters(start, ctr, sent, cash)
  {
    hide CloseReplaced, ReplacedIds, OpenBefore, ClosedAt, Upserted, ById, Unknown, Reconciled, ClosedIds;
    registers := start;
    var reconcile := ClosedIds(sent);
    var sentIds := IdsOf(sent);
    var unknown := Unknown(start, sent);
    CloseNone(start, ctr, sentIds);
    assert unknown[..0] == [];
    for i := 0 to |unknown|
      invariant registers == CloseReplaced(start, ctr, sentIds, unknown[..i])
      invariant reconcile == ClosedIds(sent) + ReplacedIds(start, ctr, sentIds, unknown[..i])
    {
      var replaced := OpenBefore(registers, ctr, sentIds, unknown[i].openedAt);
      CloseNext(start, ctr, sentIds, unknown, i);
      reconcile := reconcile + replaced;
      registers := ClosedAt(registers, replaced, unknown[i].openedAt);
    }
    assert unknown[..|unknown|] == unknown;
    registers := Upserted(registers, ById(sent, REGISTER_ID));
    registers := ReconcileRegisters(registers, reconcile, cash);
  }

  method ReconcileRegisters(start: map<Id, RegisterRow>, ids: set<Id>, cash: RegisterCash.CashRows) returns (registers: map<Id, RegisterRow>)
    ensures registers == ReconcileAll(start, ids, cash)
  {
    hide Reconciled;
    registers := start;
    var todo := ids * start.Keys;
    while todo != {}
      invariant todo <= ids * start.Keys
      invariant registers == ReconcileAll(start, ids - todo, cash)
      decreases |todo|
    {
      var id := Smallest(todo);
      registers := registers[id := Reconciled(registers[id], cash, id)];
      todo := todo - {id};
    }
  }
}
