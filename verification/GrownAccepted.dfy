/**
 * Whether the server takes a grown outbox doesn't depend on its first part having been taken before; so sending
 * an outbox and then sending it grown comes to what sending it grown alone comes to.
 */
module GrownAccepted {
  import opened AcceptedOutbox
  import opened BatchShortfalls
  import opened Cuts
  import opened GrownCustomers
  import opened GrownLedger
  import opened GrownPlacing
  import opened GrownRegisters
  import opened GrownReturns
  import opened GrownStock
  import opened GrownSync
  import opened OutboxRows
  import opened ResentOutbox
  import opened ServerTables
  import opened SettledCustomers
  import opened Sync
  import opened SyncChecks
  import opened Tables
  import VO = VerifyOutbox
  import VS = VerifySoundness

  /**
   * The later outbox is the earlier one grown: as far as the server's state goes, and its returns made whole, of
   * lines of their own bills, none of the earlier ones of a bill made later.
   */
  ghost predicate Later(s: Server, newId: Id -> Id, a: Outbox, b: Outbox) {
    && Grown(s, a, b) && MovementsGrown(s, newId, a, b) && b.schemaVersion == a.schemaVersion
    && WholeReturns(s.documents, a.givenBack) && DistinctKeys(ReturnHeads(b.givenBack), RETURN_ID)
    && (forall entry :: entry in a.givenBack && entry.ret.saleInvoiceId in BillIds(b.invoices) ==> entry.ret.saleInvoiceId in BillIds(a.invoices))
  }

  // ----- Batches

  predicate OkMove(s: Server, row: LedgerRow) {
    row.id !in s.stock.ledger && row.batchId.Some? ==> OfRightBatch(s.catalog, row) && !Expired(s.catalog, row)
  }

  lemma BatchClashesAre(s: Server, movements: seq<LedgerRow>)
    ensures BatchClashes(s, movements) == {} <==> forall row :: row in movements ==> OkMove(s, row)
  {
    BatchClashesThere(s, movements);
  }

  lemma BatchClashesThere(s: Server, movements: seq<LedgerRow>)
    ensures forall row :: row in movements && row.id !in s.stock.ledger && row.batchId.Some? && !OfRightBatch(s.catalog, row) ==>
              WrongBatch(row.id) in BatchClashes(s, movements)
    ensures forall row :: row in movements && row.id !in s.stock.ledger && row.batchId.Some? && OfRightBatch(s.catalog, row) && Expired(s.catalog, row) ==>
              ExpiredBatch(row.id) in BatchClashes(s, movements)
  {
  }

  /** A piece of a later movement is recorded after the first sending exactly when it was before. */
  lemma LaterPieceKnown(st: Stock, first: map<Id, seq<LedgerRow>>, later: map<Id, seq<LedgerRow>>, newId: Id -> Id, g: Growth, piece: LedgerRow)
    requires CutWell(first, newId) && CutWell(later, newId) && DistinctIds(g.All()) && NewIdsApart(newId, st.ledger.Keys, g.All())
    requires piece in Split(later, g.Later())
    ensures piece.id in RecordAll(st, Split(first, g.First())).ledger <==> piece.id in st.ledger
  {
    hide RecordAll, CutWell, Split, DistinctIds, NewIdsApart, DistinctKeys, Growth.First, Growth.Later, Growth.All, Insert;
    SplitHas(later, g.Later(), piece);
    var row :| row in g.Later() && piece in Replacement(later, row);
    PieceIds(later, newId, row);
    FirstAndLater(g);
    FewerIdsApart(newId, st.ledger.Keys, g);
    PiecesDistinct(first, newId, st.ledger.Keys, g.First());
    RecordedLedger(st, Split(first, g.First()));
    PieceApart(newId, st.ledger.Keys, g, row, piece.id);
    LaterKnown(st.ledger, first, newId, g.First(), piece.id);
  }

  lemma PieceApart(newId: Id -> Id, taken: set<Id>, g: Growth, row: LedgerRow, id: Id)
    requires DistinctIds(g.All()) && NewIdsApart(newId, taken, g.All()) && row in g.Later() && (id == row.id || id == newId(row.id))
    ensures forall other :: other in g.First() ==> other.id != id && newId(other.id) != id
  {
    hide Movements, DistinctIds;
    AllMovements(g);
    FirstAndLater(g);
  }

  lemma MovesSame(s: Server, s1: Server, newId: Id -> Id, g: Growth, first: map<Id, seq<LedgerRow>>, later: map<Id, seq<LedgerRow>>)
    requires s1.catalog == s.catalog && s1.stock == RecordAll(s.stock, Split(first, g.First()))
    requires CutsApart(g, first, later) && CutWell(first, newId) && CutWell(later, newId)
    requires DistinctIds(g.All()) && NewIdsApart(newId, s.stock.ledger.Keys, g.All())
    requires forall piece :: piece in Split(first, g.First()) ==> OkMove(s, piece)
    ensures (forall piece :: piece in Split(first + later, g.All()) ==> OkMove(s, piece))
       <==> (forall piece :: piece in Split(later, g.All()) ==> OkMove(s1, piece))
  {
    hide RecordAll, CutWell, Split, DistinctIds, NewIdsApart, Growth.First, Growth.Later, Growth.All, CutsApart;
    KnownThen(s.stock, first, newId, g);
    forall piece: LedgerRow
      ensures piece in Split(first + later, g.All()) <==> piece in Split(first, g.First()) || piece in Split(later, g.Later())
      ensures piece in Split(later, g.All()) <==> piece in g.First() || piece in Split(later, g.Later())
    {
      PieceOf(g, first, later, piece);
      PieceAgain(g, first, later, piece);
    }
    forall piece | piece in Split(later, g.Later()) ensures OkMove(s, piece) <==> OkMove(s1, piece) {
      LaterPieceKnown(s.stock, first, later, newId, g, piece);
    }
    forall row | row in g.First() ensures OkMove(s1, row) {
      assert row.id in s1.stock.ledger.Keys;
    }
  }

  ghost predicate MovesFine(s: Server, o: Outbox, newId: Id -> Id) {
    BatchClashes(s, Split(Replaced(s, o, newId), Movements(o.invoices, o.givenBack))) == {}
  }

  lemma BatchesSame(s: Server, ctr: Counter, a: Outbox, b: Outbox, newId: Id -> Id)
    requires Later(s, newId, a, b) && Accepts(s, ctr, a, newId)
    ensures MovesFine(s, b, newId) <==> MovesFine(Taken(s, ctr, a, newId), b, newId)
  {
    hide Accepts, Taken, PlaceRows, Ordered, Movements, DistinctIds, Split, RecordAll, NewIdsApart, CutWell, LaterInTime, BatchClashes, OkMove,
      WholeReturns, CutsApart, Placeable, Prepare;
    var s1, g := Taken(s, ctr, a, newId), GrowthOf(a, b);
    TakenPeople(s, ctr, a, newId);
    TakenStock(s, ctr, a, newId);
    GrowthParts(a, b);
    FirstDistinctMovements(a, b);
    AcceptedPlaceable(s, ctr, a, newId);
    GrownSync.SameContext(s, newId);
    GrownSync.SameContext(s1, newId);
    PlacedInTwo(s.stock, ItemOf(s.catalog), newId, g);
    CutsFine(s.stock, ItemOf(s.catalog), newId, a.invoices, a.givenBack);
    CutsFine(s1.stock, ItemOf(s.catalog), newId, b.invoices, b.givenBack);
    NothingClashes(s, ctr, a, newId);
    PreparedMovements(s, ctr, a, newId);
    var first, later := Replaced(s, a, newId), Replaced(s1, b, newId);
    BatchClashesAre(s, Split(first, g.First()));
    MovesSame(s, s1, newId, g, first, later);
    BatchClashesAre(s, Split(first + later, g.All()));
    BatchClashesAre(s1, Split(later, g.All()));
  }

  // ----- Numbers, and what is no longer on the server

  lemma BillsAmong(a: Outbox, b: Outbox)
    requires a.invoices <= b.invoices && a.givenBack <= b.givenBack
    ensures BillIds(a.invoices) <= BillIds(b.invoices) && ReturnIds(a.givenBack) <= ReturnIds(b.givenBack)
    ensures ReceiptIds(Flat(a.invoices, RECEIPTS)) <= ReceiptIds(Flat(b.invoices, RECEIPTS))
  {
    hide Flat;
    assert b.invoices == a.invoices + b.invoices[|a.invoices|..] && b.givenBack == a.givenBack + b.givenBack[|a.givenBack|..];
    FlatConcat(a.invoices, b.invoices[|a.invoices|..], RECEIPTS);
  }

  lemma SentAmong(s: Server, ctr: Counter, a: Outbox, b: Outbox, newId: Id -> Id)
    requires a.invoices <= b.invoices && a.givenBack <= b.givenBack && Owned(ctr, a)
    ensures NewAreAmong(s.documents, Taken(s, ctr, a, newId).documents, b)
    ensures NewLinesAreSent(s.documents, Taken(s, ctr, a, newId).documents, b)
  {
    hide Taken, Owned, Flat, BillIds, ReturnIds, ReceiptIds;
    BillsAmong(a, b);
    SentDocuments(s, ctr, a, newId);
    SentLines(s, ctr, a, newId);
  }

  lemma NumbersSame(d: Documents, d1: Documents, b: Outbox)
    requires NewAreAmong(d, d1, b)
    ensures NumberClashes(d, b) == {} <==> NumberClashes(d1, b) == {}
  {
    hide BillIds, ReturnIds, ReceiptIds, InvoiceNos, ReturnNos, ReceiptNos, Flat;
    UsedNumbersClash(d, b);
    UsedNumbersClash(d1, b);
  }

  /** Every customer, item and user the outbox points at is there, or was just added. */
  ghost predicate NoneGone(s: Server, o: Outbox, invoices: seq<InvoiceEntry>, created: set<Id>) {
    && (forall row :: row in Flat(o.invoices, LINES) ==> row.itemId in s.catalog.items)
    && (forall row :: row in o.registers ==> row.userId in s.catalog.users)
    && (forall entry :: entry in invoices ==> entry.invoice.customerId in s.people.customers || entry.invoice.customerId in created)
  }

  lemma NoneGoneIs(s: Server, o: Outbox, invoices: seq<InvoiceEntry>, created: set<Id>)
    ensures MissingClashes(s, o, invoices, created) == {} <==> NoneGone(s, o, invoices, created)
  {
    hide Flat;
    MissingAre(s, o, invoices, created);
  }

  /** Settled, every bill's customer is there or to be added exactly when it was there or is among those sent. */
  lemma BillsFoundWhen(s: Server, ctr: Counter, o: Outbox, invoices: seq<InvoiceEntry>)
    requires |invoices| == |o.invoices|
    requires forall k :: 0 <= k < |invoices| ==>
               invoices[k].invoice.customerId == SettledOn(PlaceCustomers(s, ctr, o.customers), o.invoices[k].invoice.customerId)
    ensures (forall entry :: entry in invoices ==>
               entry.invoice.customerId in s.people.customers || entry.invoice.customerId in CreatedIds(PlaceCustomers(s, ctr, o.customers).created))
       <==> (forall entry :: entry in o.invoices ==>
               entry.invoice.customerId in s.people.customers || entry.invoice.customerId in CustomerIds(o.customers))
  {
    hide PlaceCustomers, SettledOn, CustomerIds, CreatedIds;
    var p := PlaceCustomers(s, ctr, o.customers);
    forall customer: Id
      ensures SettledOn(p, customer) in s.people.customers || SettledOn(p, customer) in CreatedIds(p.created)
         <==> customer in s.people.customers || customer in CustomerIds(o.customers)
    {
      FoundWhen(s, ctr, o.customers, customer);
    }
    if forall entry :: entry in invoices ==> entry.invoice.customerId in s.people.customers || entry.invoice.customerId in CreatedIds(p.created) {
      forall entry | entry in o.invoices ensures entry.invoice.customerId in s.people.customers || entry.invoice.customerId in CustomerIds(o.customers) {
        var k :| 0 <= k < |o.invoices| && o.invoices[k] == entry;
        assert invoices[k] in invoices;
      }
    }
    if forall entry :: entry in o.invoices ==> entry.invoice.customerId in s.people.customers || entry.invoice.customerId in CustomerIds(o.customers) {
      forall entry | entry in invoices ensures entry.invoice.customerId in s.people.customers || entry.invoice.customerId in CreatedIds(p.created) {
        var k :| 0 <= k < |invoices| && invoices[k] == entry;
        assert o.invoices[k] in o.invoices;
      }
    }
  }

  ghost predicate NoneGoneOf(s: Server, o: Outbox) {
    && (forall row :: row in Flat(o.invoices, LINES) ==> row.itemId in s.catalog.items)
    && (forall row :: row in o.registers ==> row.userId in s.catalog.users)
    && (forall entry :: entry in o.invoices ==> entry.invoice.customerId in s.people.customers || entry.invoice.customerId in CustomerIds(o.customers))
  }

  /** Nothing is missing exactly when the server has, or is sent, all the rows as made point at. */
  lemma NoneMissingIs(s: Server, ctr: Counter, o: Outbox, newId: Id -> Id)
    ensures var p := Prepare(s, ctr, o, newId);
            MissingClashes(s, o, p.invoices, CreatedIds(p.created)) == {} <==> NoneGoneOf(s, o)
  {
    hide PlaceCustomers, Prepare, Flat, MissingClashes, CreatedIds, CustomerIds;
    var p := Prepare(s, ctr, o, newId);
    PreparedBills(s, ctr, o, newId);
    NoneGoneIs(s, o, p.invoices, CreatedIds(p.created));
    BillsFoundWhen(s, ctr, o, p.invoices);
  }

  lemma MissingSame(s: Server, ctr: Counter, a: Outbox, b: Outbox, newId: Id -> Id)
    requires a.customers <= b.customers
    ensures var s1 := Taken(s, ctr, a, newId);
            var p, p1 := Prepare(s, ctr, b, newId), Prepare(s1, ctr, b, newId);
            (MissingClashes(s, b, p.invoices, CreatedIds(p.created)) == {} <==> MissingClashes(s1, b, p1.invoices, CreatedIds(p1.created)) == {})
  {
    hide Taken, PlaceCustomers, Prepare, Flat, MissingClashes, AddCustomers, CustomerIds, CreatedIds;
    NoneMissingIs(s, ctr, b, newId);
    NoneMissingIs(Taken(s, ctr, a, newId), ctr, b, newId);
    TakenPeople(s, ctr, a, newId);
    forall customer: Id
      ensures customer in Taken(s, ctr, a, newId).people.customers || customer in CustomerIds(b.customers)
         <==> customer in s.people.customers || customer in CustomerIds(b.customers)
    {
      KnownOrSent(s, ctr, a.customers, b.customers, customer);
    }
  }

  // ----- Returns

  lemma {:induction false} RowsBringBack(sold: map<Id, VO.SoldLine>, taken: map<Id, VO.Parts>, rows: seq<ReturnLineRow>, row: ReturnLineRow)
    requires VO.CheckRows(sold, taken, rows).ok && row in rows
    ensures row.qty > 0
  {
    var n := |rows| - 1;
    assert rows == rows[..n] + [rows[n]];
    if row in rows[..n] { RowsBringBack(sold, taken, rows[..n], row); }
  }

  lemma {:induction false} ReturnsBringBack(sold: map<Id, VO.SoldLine>, start: VO.ReturnCheck, entries: seq<ReturnEntry>)
    requires VO.CheckReturns(sold, start, entries).conflicts == []
    ensures OnlyBack(entries)
  {
    hide VO.CheckReturns, VO.CheckRows;
    if entries != [] {
      var n := |entries| - 1;
      assert entries == entries[..n] + [entries[n]];
      VS.CleanBefore(sold, start, entries);
      ReturnsBringBack(sold, start, entries[..n]);
      forall row | row in entries[n].lines ensures row.qty > 0 {
        RowsBringBack(sold, VO.CheckReturns(sold, start, entries[..n]).taken, entries[n].lines, row);
      }
    }
  }

  /** What the tables are of the returns once the first outbox is in. */
  lemma FirstReturnsIn(s: Server, ctr: Counter, a: Outbox, b: Outbox, newId: Id -> Id)
    requires a.invoices <= b.invoices && a.givenBack <= b.givenBack && Owned(ctr, a)
    ensures ReturnsIn(s.documents, Taken(s, ctr, a, newId).documents, a.givenBack, BillIds(b.invoices))
  {
    hide Taken, Owned, Flat, BillIds, ReturnIds, ReceiptIds, Insert, PlaceCustomers, WithCustomers;
    SentAmong(s, ctr, a, b, newId);
    TakenDocuments(s, ctr, a, newId);
  }

  lemma NewOnce(d: Documents, d1: Documents, a: Outbox, b: Outbox)
    requires a.givenBack <= b.givenBack && NewAreSent(d, d1, a) && DistinctKeys(ReturnHeads(b.givenBack), RETURN_ID)
    requires forall entry :: entry in a.givenBack && entry.ret.saleInvoiceId in BillIds(b.invoices) ==> entry.ret.saleInvoiceId in BillIds(a.invoices)
    requires BillIds(a.invoices) <= BillIds(b.invoices)
    ensures var bills, more := BillIds(b.invoices), b.givenBack[|a.givenBack|..];
            && NewReturns(d, bills, b.givenBack) == NewReturns(d, BillIds(a.invoices), a.givenBack) + NewReturns(d, bills, more)
            && NewReturns(d, bills, a.givenBack) == NewReturns(d, BillIds(a.invoices), a.givenBack)
            && NewReturns(d1, bills, b.givenBack) == NewReturns(d, bills, more)
  {
    hide BillIds, NewReturns;
    var bills, more := BillIds(b.invoices), b.givenBack[|a.givenBack|..];
    assert b.givenBack == a.givenBack + more;
    NewReturnsConcat(d, bills, a.givenBack, more);
    NewReturnsConcat(d1, bills, a.givenBack, more);
    NewReturnsSame(d, d, bills, BillIds(a.invoices), a.givenBack);
    NoNewReturns(d1, bills, a.givenBack);
    forall entry | entry in more ensures entry.ret.id in d.givenBack <==> entry.ret.id in d1.givenBack {
      MoreApart(a.givenBack, more, entry);
    }
    NewReturnsSame(d, d1, bills, bills, more);
    assert [] + NewReturns(d1, bills, more) == NewReturns(d1, bills, more);
  }

  lemma MoreApart(first: seq<ReturnEntry>, more: seq<ReturnEntry>, entry: ReturnEntry)
    requires DistinctKeys(ReturnHeads(first + more), RETURN_ID) && entry in more
    ensures entry.ret.id !in ReturnIds(first)
  {
    var i :| 0 <= i < |more| && more[i] == entry;
    assert ReturnHeads(first + more)[|first| + i] == entry.ret;
    forall other | other in first ensures other.ret.id != entry.ret.id {
      var k :| 0 <= k < |first| && first[k] == other;
      assert ReturnHeads(first + more)[k] == other.ret;
    }
  }

  lemma NewAreParted(d: Documents, bills: set<Id>, first: seq<ReturnEntry>, more: seq<ReturnEntry>)
    requires OnlyBack(first) && OnlyBack(more)
    ensures Parted(bills, NewReturns(d, bills, first), NewReturns(d, bills, more))
  {
    hide NewReturns;
    forall entry: ReturnEntry
      ensures entry in NewReturns(d, bills, first) ==> entry in first && entry.ret.saleInvoiceId !in bills
      ensures entry in NewReturns(d, bills, more) ==> entry in more && entry.ret.saleInvoiceId !in bills
    {
      NewReturnsAre(d, bills, first, entry);
      NewReturnsAre(d, bills, more, entry);
    }
  }

  lemma ReturnsSame(s: Server, ctr: Counter, a: Outbox, b: Outbox, newId: Id -> Id)
    requires Later(s, newId, a, b) && Accepts(s, ctr, a, newId) && OnlyBack(b.givenBack)
    ensures ReturnClashes(s.documents, b) == {} <==> ReturnClashes(Taken(s, ctr, a, newId).documents, b) == {}
  {
    hide Accepts, Taken, BillIds, NewReturns, ReturnIds, WholeReturns, Grown, MovementsGrown, OnlyBack, Owned, ReturnClashes, ReturnsIn, Parted,
      NoDueLowered, NoneTooMany, NoneTooMuch, Prepare, BatchClashes, NumberClashes, MissingClashes, VO.Conflicts, VerificationContext, NewAreAmong;
    GrownParts(s, a, b);
    var d, d1, bills, more := s.documents, Taken(s, ctr, a, newId).documents, BillIds(b.invoices), b.givenBack[|a.givenBack|..];
    AcceptedOwned(s, ctr, a, newId);
    NothingClashes(s, ctr, a, newId);
    BillsAmong(a, b);
    SentDocuments(s, ctr, a, newId);
    FirstReturnsIn(s, ctr, a, b, newId);
    NewOnce(d, d1, a, b);
    BackParts(a.givenBack, more);
    NewAreParted(d, bills, a.givenBack, more);
    ReturnClashesAre(d, a);
    ReturnClashesAre(d, b);
    ReturnClashesAre(d1, b);
    ClashesSame(d, d1, a.givenBack, bills, NewReturns(d, bills, a.givenBack), NewReturns(d, bills, more));
  }

  lemma GrownParts(s: Server, a: Outbox, b: Outbox)
    requires Grown(s, a, b)
    ensures a.invoices <= b.invoices && a.givenBack <= b.givenBack && a.customers <= b.customers && DistinctCustomers(b.customers)
    ensures b.givenBack == a.givenBack + b.givenBack[|a.givenBack|..]
  {
  }

  lemma BackParts(a: seq<ReturnEntry>, more: seq<ReturnEntry>)
    requires OnlyBack(a + more)
    ensures OnlyBack(a) && OnlyBack(more)
  {
    assert forall entry :: entry in a || entry in more ==> entry in a + more;
  }

  // ----- The money

  /** The check of an outbox prepared is the check of it as it was sent. */
  lemma CheckedAsSent(s: Server, ctr: Counter, o: Outbox, newId: Id -> Id, ctx: VO.OutboxContext)
    requires DistinctIds(Movements(o.invoices, o.givenBack))
    ensures var p := Prepare(s, ctr, o, newId); VO.Conflicts(ctx, p.invoices, p.givenBack) == VO.Conflicts(ctx, o.invoices, o.givenBack)
  {
    hide Prepare, VO.Conflicts, DistinctIds, Movements, PlaceCustomers, WithCustomers;
    CutConflictsSame(s, ctr, o, newId, ctx);
    SameConflicts(ctx, o.invoices, PlaceCustomers(s, ctr, o.customers).sameAs, o.givenBack);
  }

  lemma MoneySame(s: Server, ctr: Counter, a: Outbox, b: Outbox, newId: Id -> Id)
    requires Later(s, newId, a, b) && Accepts(s, ctr, a, newId)
    ensures var s1 := Taken(s, ctr, a, newId);
            var p, p1 := Prepare(s, ctr, b, newId), Prepare(s1, ctr, b, newId);
            VO.Conflicts(VerificationContext(s, b), p.invoices, p.givenBack) == VO.Conflicts(VerificationContext(s1, b), p1.invoices, p1.givenBack)
  {
    hide Accepts, Taken, Prepare, PlaceCustomers, WholeReturns, DistinctCustomers, Owned, NewAreAmong, NewLinesAreSent,
      VerificationContext, VO.Conflicts, DistinctIds, Movements, WithCustomers, RegistersGrown, SequencesGrown, LaterInTime, NewIdsApart;
    var s1 := Taken(s, ctr, a, newId);
    AcceptedOwned(s, ctr, a, newId);
    SentAmong(s, ctr, a, b, newId);
    TakenPeople(s, ctr, a, newId);
    ResentOutbox.SameContext(s, s1, b);
    GrowthParts(a, b);
    CheckedAsSent(s, ctr, b, newId, VerificationContext(s, b));
    CheckedAsSent(s1, ctr, b, newId, VerificationContext(s, b));
  }

  lemma CleanBringsBack(s: Server, ctr: Counter, b: Outbox, newId: Id -> Id)
    requires var p := Prepare(s, ctr, b, newId); VO.Conflicts(VerificationContext(s, b), p.invoices, p.givenBack) == []
    ensures OnlyBack(b.givenBack)
  {
    hide Prepare, VO.Conflicts, VerificationContext, VO.CheckReturns, VO.SoldLines, VO.Start;
    var p, ctx := Prepare(s, ctr, b, newId), VerificationContext(s, b);
    VS.BothClear(ctx, p.invoices, p.givenBack);
    ReturnsBringBack(VO.SoldLines(ctx.serverLines, p.invoices), VO.Start(ctx, p.invoices), p.givenBack);
    PreparedBack(s, ctr, b, newId);
    forall entry, row | entry in b.givenBack && row in entry.lines ensures row.qty > 0 {
      var k :| 0 <= k < |b.givenBack| && b.givenBack[k] == entry;
      assert p.givenBack[k] in p.givenBack;
    }
  }

  lemma PreparedBack(s: Server, ctr: Counter, b: Outbox, newId: Id -> Id)
    ensures var p := Prepare(s, ctr, b, newId);
            |p.givenBack| == |b.givenBack| && forall k :: 0 <= k < |b.givenBack| ==> p.givenBack[k].lines == b.givenBack[k].lines
  {
    hide PlaceCustomers, PlaceRows, Ordered, Split;
  }

  // ----- The whole

  /** Nothing clashes, kind by kind. */
  ghost predicate Clear(s: Server, ctr: Counter, o: Outbox, newId: Id -> Id) {
    var p := Prepare(s, ctr, o, newId);
    && MovesFine(s, o, newId) && NumberClashes(s.documents, o) == {}
    && MissingClashes(s, o, p.invoices, CreatedIds(p.created)) == {} && ReturnClashes(s.documents, o) == {}
    && VO.Conflicts(VerificationContext(s, o), p.invoices, p.givenBack) == []
  }

  lemma ClearIs(s: Server, ctr: Counter, o: Outbox, newId: Id -> Id)
    ensures ClashesOf(s, ctr, o, newId) == {} <==> Clear(s, ctr, o, newId)
  {
    hide Prepare, BatchClashes, NumberClashes, MissingClashes, ReturnClashes, VO.Conflicts, VerificationContext, ClashesOf, Split, Movements, Replaced;
    ClashesAre(s, ctr, o, newId);
    PreparedMovements(s, ctr, o, newId);
    var p := Prepare(s, ctr, o, newId);
    NoConflicts(VO.Conflicts(VerificationContext(s, o), p.invoices, p.givenBack));
  }

  lemma ClearSame(s: Server, ctr: Counter, a: Outbox, b: Outbox, newId: Id -> Id)
    requires Later(s, newId, a, b) && Accepts(s, ctr, a, newId)
    ensures Clear(s, ctr, b, newId) <==> Clear(Taken(s, ctr, a, newId), ctr, b, newId)
  {
    hide Accepts, Taken, Prepare, MovesFine, NumberClashes, MissingClashes, ReturnClashes, VO.Conflicts, VerificationContext, Owned,
      MovementsGrown, WholeReturns, DistinctCustomers, NewAreAmong, NewLinesAreSent, OnlyBack, BillIds;
    var s1 := Taken(s, ctr, a, newId);
    AcceptedOwned(s, ctr, a, newId);
    BatchesSame(s, ctr, a, b, newId);
    SentAmong(s, ctr, a, b, newId);
    NumbersSame(s.documents, s1.documents, b);
    MissingSame(s, ctr, a, b, newId);
    MoneySame(s, ctr, a, b, newId);
    var p := Prepare(s, ctr, b, newId);
    if VO.Conflicts(VerificationContext(s, b), p.invoices, p.givenBack) == [] {
      CleanBringsBack(s, ctr, b, newId);
      ReturnsSame(s, ctr, a, b, newId);
    }
  }

  lemma OwnBillsSame(d: Documents, d1: Documents, ctr: Counter, b: Outbox)
    requires NewAreAmong(d, d1, b)
    ensures ServerBillsAreOwn(d, ctr, b) <==> ServerBillsAreOwn(d1, ctr, b)
  {
    hide ReturnIds, ReceiptIds, Flat, BillIds;
  }

  lemma WrittenOnce(s: Server, ctr: Counter, b: Outbox)
    requires DistinctCustomers(b.customers)
    ensures WritesOnce(b, PlaceCustomers(s, ctr, b.customers).created) <==> WritesOnce(b, [])
  {
    hide PlaceCustomers;
    CreatedDistinctOf(s, ctr, b.customers);
  }

  /** The documents after both sendings have each number once exactly when those after the later one alone have. */
  lemma NumbersInTwo(s: Server, ctr: Counter, a: Outbox, b: Outbox, newId: Id -> Id)
    requires a.invoices <= b.invoices && a.givenBack <= b.givenBack
    ensures UniqueNumbers(Taken(Taken(s, ctr, a, newId), ctr, b, newId).documents) <==> UniqueNumbers(Taken(s, ctr, b, newId).documents)
  {
    hide Taken, PlaceCustomers, WithCustomers, Insert, Flat, Heads, ReturnHeads, UniqueNumbers, BareTable;
    var s1 := Taken(s, ctr, a, newId);
    TakenDocuments(s, ctr, a, newId);
    TakenDocuments(s1, ctr, b, newId);
    TakenDocuments(s, ctr, b, newId);
    var first, next, once := PlaceCustomers(s, ctr, a.customers).sameAs, PlaceCustomers(s1, ctr, b.customers).sameAs, PlaceCustomers(s, ctr, b.customers).sameAs;
    BareInTwo(s.documents.invoices, a.invoices, b.invoices, first, next, once);
    SettledBills(a.invoices, first);
    SettledBills(b.invoices, next);
    SettledBills(b.invoices, once);
    ReceiptsAndReturnsInTwo(s.documents, a, b);
    NumbersOfBare(Taken(s1, ctr, b, newId).documents, Taken(s, ctr, b, newId).documents);
  }

  lemma ReceiptsAndReturnsInTwo(d: Documents, a: Outbox, b: Outbox)
    requires a.invoices <= b.invoices && a.givenBack <= b.givenBack
    ensures Insert(Insert(d.receipts, Flat(a.invoices, RECEIPTS), RECEIPT_ID), Flat(b.invoices, RECEIPTS), RECEIPT_ID)
         == Insert(d.receipts, Flat(b.invoices, RECEIPTS), RECEIPT_ID)
    ensures Insert(Insert(d.givenBack, ReturnHeads(a.givenBack), RETURN_ID), ReturnHeads(b.givenBack), RETURN_ID)
         == Insert(d.givenBack, ReturnHeads(b.givenBack), RETURN_ID)
  {
    hide Insert, Flat;
    var more, moreBack := b.invoices[|a.invoices|..], b.givenBack[|a.givenBack|..];
    assert b.invoices == a.invoices + more && b.givenBack == a.givenBack + moreBack;
    FlatConcat(a.invoices, more, RECEIPTS);
    assert ReturnHeads(b.givenBack) == ReturnHeads(a.givenBack) + ReturnHeads(moreBack);
    InsertGrown(d.receipts, Flat(a.invoices, RECEIPTS), Flat(more, RECEIPTS), RECEIPT_ID);
    InsertGrown(d.givenBack, ReturnHeads(a.givenBack), ReturnHeads(moreBack), RETURN_ID);
  }

  /** The server takes the grown outbox after its first part exactly when it takes the grown outbox alone. */
  lemma GrownAccepts(s: Server, ctr: Counter, a: Outbox, b: Outbox, newId: Id -> Id)
    requires Later(s, newId, a, b) && Accepts(s, ctr, a, newId)
    ensures Accepts(s, ctr, b, newId) <==> Accepts(Taken(s, ctr, a, newId), ctr, b, newId)
  {
    hide Taken, Owned, ClashesOf, UniqueNumbers, ServerBillsAreOwn, PlaceCustomers, MovementsGrown, WholeReturns, DistinctCustomers,
      Clear, WritesOnce, NewAreAmong, NewLinesAreSent, BillIds, SequencesGrown, RegistersGrown;
    var s1 := Taken(s, ctr, a, newId);
    AcceptedOwned(s, ctr, a, newId);
    SentAmong(s, ctr, a, b, newId);
    TakenPeople(s, ctr, a, newId);
    OwnBillsSame(s.documents, s1.documents, ctr, b);
    ClearIs(s, ctr, b, newId);
    ClearIs(s1, ctr, b, newId);
    ClearSame(s, ctr, a, b, newId);
    WrittenOnce(s, ctr, b);
    WrittenOnce(s1, ctr, b);
    NumbersInTwo(s, ctr, a, b, newId);
  }

  /** What a sync leaves of the server, taken or refused. */
  ghost function Synced(s: Server, ctr: Counter, o: Outbox, newId: Id -> Id): (r: Server) {
    if Accepts(s, ctr, o, newId) then Taken(s, ctr, o, newId) else s
  }

  /**
   * Sending an outbox that is taken, and then sending it grown: if the server would take the grown one alone, it
   * ends as after that one alone if and only if no customer added since has the phone number of one the first
   * sending added. If it wouldn't, the grown one is refused after its first part too, and what was sent first stays.
   */
  lemma SendingGrown(s: Server, ctr: Counter, a: Outbox, b: Outbox, newId: Id -> Id)
    requires Later(s, newId, a, b) && Accepts(s, ctr, a, newId)
    ensures var apart, twice := PhonesApart(s, ctr, a.customers, b.customers[|a.customers|..]), Synced(Synced(s, ctr, a, newId), ctr, b, newId);
            && (Accepts(s, ctr, b, newId) ==> (twice == Synced(s, ctr, b, newId) <==> apart))
            && (!Accepts(s, ctr, b, newId) ==> twice == Synced(s, ctr, a, newId))
  {
    hide Accepts, Taken, PhonesApart, MovementsGrown, WholeReturns, Owned, DistinctCustomers, RegistersGrown, SequencesGrown;
    GrownAccepts(s, ctr, a, b, newId);
    if Accepts(s, ctr, b, newId) {
      AcceptedOwned(s, ctr, b, newId);
      GrownOutbox(s, ctr, a, b, newId);
    }
  }
}
