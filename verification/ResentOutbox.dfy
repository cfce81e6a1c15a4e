/** An outbox the server has taken is taken again, and changes nothing: a lost answer can be followed by sending it anew. */
module ResentOutbox {
  import opened AcceptedOutbox
  import opened BatchShortfalls
  import opened GrownCustomers
  import opened GrownLedger
  import opened GrownPlacing
  import opened GrownRegisters
  import opened GrownSync
  import opened OutboxRows
  import opened ServerTables
  import opened Sync
  import opened SyncChecks
  import opened Tables
  import VO = VerifyOutbox
  import VS = VerifySoundness

  /** Rows read from tables: each id once, movements and customers alike; and the ids drawn for cut movements are new. */
  ghost predicate FromTables(s: Server, newId: Id -> Id, o: Outbox) {
    && DistinctCustomers(o.customers) && DistinctIds(Movements(o.invoices, o.givenBack))
    && Cuts.NewIdsApart(newId, s.stock.ledger.Keys, Movements(o.invoices, o.givenBack))
  }

  // ----- The state is the same

  lemma GrownItself(s: Server, ctr: Counter, o: Outbox, newId: Id -> Id)
    requires FromTables(s, newId, o) && Accepts(s, ctr, o, newId)
    ensures Grown(s, o, o) && MovementsGrown(s, newId, o, o) && PhonesApart(s, ctr, o.customers, o.customers[|o.customers|..])
  {
    hide DistinctCustomers, DistinctIds, Movements, Cuts.NewIdsApart, PlaceCustomers, ClashesOf, Taken, Owned, ServerBillsAreOwn, UniqueNumbers;
    var g := GrowthOf(o, o);
    GrowthParts(o, o);
    NoLater(g);
    assert g.All() == Movements(o.invoices, o.givenBack);
    assert RegistersGrown(s.registers, o.registers, o.registers) by {
      assert WritesOnce(o, PlaceCustomers(s, ctr, o.customers).created);
    }
  }

  lemma NoLater(g: Growth)
    requires g.moreInvoices == [] && g.moreBack == []
    ensures g.Later() == [] && LaterInTime(g)
  {
  }

  lemma ResentSame(s: Server, ctr: Counter, o: Outbox, newId: Id -> Id)
    requires FromTables(s, newId, o) && Accepts(s, ctr, o, newId)
    ensures Taken(Taken(s, ctr, o, newId), ctr, o, newId) == Taken(s, ctr, o, newId)
  {
    hide FromTables, Taken, ClashesOf, Owned, ServerBillsAreOwn, UniqueNumbers, WritesOnce, Grown, MovementsGrown, PhonesApart;
    GrownItself(s, ctr, o, newId);
    GrownOutbox(s, ctr, o, o, newId);
  }

  // ----- What is prepared the second time

  lemma KnownAgain(s: Server, ctr: Counter, o: Outbox, newId: Id -> Id)
    requires FromTables(s, newId, o)
    ensures forall row :: row in Movements(o.invoices, o.givenBack) ==> row.id in Taken(s, ctr, o, newId).stock.ledger
  {
    hide Taken, Cuts.NewIdsApart, DistinctIds, Movements, PlaceRows, RecordAll, Cuts.CutWell, Split, DistinctCustomers, Ordered;
    var g := Growth(o.invoices, o.givenBack, [], []);
    assert g.invoices + g.moreInvoices == o.invoices && g.givenBack + g.moreBack == o.givenBack;
    CutsFine(s.stock, ItemOf(s.catalog), newId, o.invoices, o.givenBack);
    KnownThen(s.stock, PlacedFor(s.stock, ItemOf(s.catalog), newId, o.invoices, o.givenBack).replaced, newId, g);
    TakenStock(s, ctr, o, newId);
  }

  lemma NothingPlaced(ctx: BatchContext, invoices: seq<InvoiceEntry>, givenBack: seq<ReturnEntry>)
    requires forall row :: row in Movements(invoices, givenBack) ==> row.id in ctx.known
    ensures PlaceRows(ctx, Ordered(ctx, invoices, givenBack)) == NOTHING_PLACED
  {
    NoneFresh(ctx.known, Movements(invoices, givenBack));
  }

  lemma NothingCut(invoices: seq<InvoiceEntry>, givenBack: seq<ReturnEntry>)
    ensures SplitInvoices(map[], invoices) == invoices && SplitReturns(map[], givenBack) == givenBack
  {
    forall i | 0 <= i < |invoices| ensures SplitInvoices(map[], invoices)[i] == invoices[i] {
      VS.SplitNone(map[], invoices[i].ledger);
    }
    forall i | 0 <= i < |givenBack| ensures SplitReturns(map[], givenBack)[i] == givenBack[i] {
      VS.SplitNone(map[], givenBack[i].ledger);
    }
  }

  /** Sent again, no customer is added and no movement cut. */
  lemma PreparedAgain(s: Server, ctr: Counter, o: Outbox, newId: Id -> Id)
    requires FromTables(s, newId, o)
    ensures Prepare(Taken(s, ctr, o, newId), ctr, o, newId)
         == Prepared([], WithCustomers(o.invoices, PlaceCustomers(s, ctr, o.customers).sameAs), o.givenBack, map[])
  {
    hide Taken, DistinctIds, Movements, PlaceRows, DistinctCustomers, Ordered, PlaceCustomers, WithCustomers, Cuts.NewIdsApart, SplitInvoices, SplitReturns;
    var s1 := Taken(s, ctr, o, newId);
    KnownAgain(s, ctr, o, newId);
    NothingPlaced(ContextOf(s1, newId), o.invoices, o.givenBack);
    TakenPeople(s, ctr, o, newId);
    FirstAgain(s, s1, ctr, o.customers, |o.customers|);
    assert o.customers[..|o.customers|] == o.customers;
    NothingCut(WithCustomers(o.invoices, PlaceCustomers(s, ctr, o.customers).sameAs), o.givenBack);
  }

  // ----- The server's tables after the first sending

  lemma {:induction false} FromFlat<E, R>(entries: seq<E>, of: E -> seq<R>, row: R)
    ensures row in Flat(entries, of) ==> exists k :: 0 <= k < |entries| && row in of(entries[k])
  {
    if entries != [] { FromFlat(entries[..|entries| - 1], of, row); }
  }

  /** Settling customers keeps everything of a bill but its customer. */
  lemma SettledBills(invoices: seq<InvoiceEntry>, sameAs: map<Id, Id>)
    ensures Flat(WithCustomers(invoices, sameAs), LINES) == Flat(invoices, LINES)
    ensures Flat(WithCustomers(invoices, sameAs), RECEIPTS) == Flat(invoices, RECEIPTS)
    ensures forall row :: row in Heads(WithCustomers(invoices, sameAs)) ==> row.id in BillIds(invoices)
  {
    var settled := WithCustomers(invoices, sameAs);
    FlatSame(settled, invoices, LINES);
    FlatSame(settled, invoices, RECEIPTS);
    forall row | row in Heads(settled) ensures row.id in BillIds(invoices) {
      var k :| 0 <= k < |settled| && Heads(settled)[k] == row;
      assert invoices[k] in invoices;
    }
  }

  /** What is new in the documents is the outbox's, and all of its returns are there. */
  ghost predicate NewAreSent(d: Documents, d1: Documents, o: Outbox) {
    NewAreAmong(d, d1, o) && forall id :: id in ReturnIds(o.givenBack) ==> id in d1.givenBack
  }

  /** What is new in the documents is among the outbox's. */
  ghost predicate NewAreAmong(d: Documents, d1: Documents, o: Outbox) {
    && (forall id :: id in d.invoices ==> id in d1.invoices && d1.invoices[id] == d.invoices[id])
    && (forall id :: id in d1.invoices && id !in d.invoices ==> id in BillIds(o.invoices))
    && (forall id :: id in d.receipts ==> id in d1.receipts && d1.receipts[id] == d.receipts[id])
    && (forall id :: id in d1.receipts && id !in d.receipts ==> id in ReceiptIds(Flat(o.invoices, RECEIPTS)))
    && (forall id :: id in d.givenBack ==> id in d1.givenBack && d1.givenBack[id] == d.givenBack[id])
    && (forall id :: id in d1.givenBack && id !in d.givenBack ==> id in ReturnIds(o.givenBack) && d1.givenBack[id].id == id)
  }

  /** New lines belong to the outbox's bills and returns. */
  ghost predicate NewLinesAreSent(d: Documents, d1: Documents, o: Outbox) {
    && (forall id :: id in d.saleLines ==> id in d1.saleLines && d1.saleLines[id] == d.saleLines[id])
    && (forall id :: id in d1.saleLines && id !in d.saleLines ==> d1.saleLines[id].invoiceId in BillIds(o.invoices))
    && (forall id :: id in d.returnLines ==> id in d1.returnLines && d1.returnLines[id] == d.returnLines[id])
    && (forall id :: id in d1.returnLines && id !in d.returnLines ==> d1.returnLines[id].returnId in ReturnIds(o.givenBack))
  }

  lemma ReturnHeadIds(givenBack: seq<ReturnEntry>)
    ensures forall row :: row in ReturnHeads(givenBack) ==> row.id in ReturnIds(givenBack)
    ensures forall id :: id in ReturnIds(givenBack) ==> exists row :: row in ReturnHeads(givenBack) && row.id == id
  {
    forall row | row in ReturnHeads(givenBack) ensures row.id in ReturnIds(givenBack) {
      var k :| 0 <= k < |givenBack| && ReturnHeads(givenBack)[k] == row;
      assert givenBack[k] in givenBack;
    }
    forall id | id in ReturnIds(givenBack) ensures exists row :: row in ReturnHeads(givenBack) && row.id == id {
      var entry :| entry in givenBack && entry.ret.id == id;
      var k :| 0 <= k < |givenBack| && givenBack[k] == entry;
      assert ReturnHeads(givenBack)[k] in ReturnHeads(givenBack);
    }
  }

  lemma SentDocuments(s: Server, ctr: Counter, o: Outbox, newId: Id -> Id)
    ensures NewAreSent(s.documents, Taken(s, ctr, o, newId).documents, o)
  {
    hide Taken, PlaceCustomers, WithCustomers, Insert, Flat, BillIds, ReturnIds, ReceiptIds, Heads, ReturnHeads;
    TakenDocuments(s, ctr, o, newId);
    var d, sameAs := s.documents, PlaceCustomers(s, ctr, o.customers).sameAs;
    SettledBills(o.invoices, sameAs);
    SentBills(d.invoices, Heads(WithCustomers(o.invoices, sameAs)), BillIds(o.invoices));
    SentReturns(d.givenBack, o.givenBack);
    SentReceipts(d.receipts, Flat(o.invoices, RECEIPTS));
  }

  lemma SentBills(table: map<Id, InvoiceRow>, rows: seq<InvoiceRow>, ids: set<Id>)
    requires forall row :: row in rows ==> row.id in ids
    ensures var r := Insert(table, rows, INVOICE_ID);
            && (forall id :: id in table ==> id in r && r[id] == table[id])
            && (forall id :: id in r && id !in table ==> id in ids)
  {
    hide Insert;
    InsertedAre(table, rows, INVOICE_ID);
  }

  lemma SentReturns(table: map<Id, ReturnRow>, givenBack: seq<ReturnEntry>)
    ensures var r := Insert(table, ReturnHeads(givenBack), RETURN_ID);
            && (forall id :: id in table ==> id in r && r[id] == table[id])
            && (forall id :: id in r && id !in table ==> id in ReturnIds(givenBack) && r[id].id == id)
            && (forall id :: id in ReturnIds(givenBack) ==> id in r)
  {
    hide Insert, ReturnIds, ReturnHeads;
    InsertedAre(table, ReturnHeads(givenBack), RETURN_ID);
    ReturnHeadIds(givenBack);
  }

  lemma SentReceipts(table: map<Id, ReceiptRow>, rows: seq<ReceiptRow>)
    ensures var r := Insert(table, rows, RECEIPT_ID);
            && (forall id :: id in table ==> id in r && r[id] == table[id])
            && (forall id :: id in r && id !in table ==> id in ReceiptIds(rows))
  {
    hide Insert;
    InsertedAre(table, rows, RECEIPT_ID);
  }

  lemma SentLines(s: Server, ctr: Counter, o: Outbox, newId: Id -> Id)
    requires Owned(ctr, o)
    ensures NewLinesAreSent(s.documents, Taken(s, ctr, o, newId).documents, o)
  {
    hide Taken, PlaceCustomers, WithCustomers, Insert, Flat, Owned, BillIds, ReturnIds;
    TakenDocuments(s, ctr, o, newId);
    var d, sameAs := s.documents, PlaceCustomers(s, ctr, o.customers).sameAs;
    SettledBills(o.invoices, sameAs);
    InsertedAre(d.saleLines, Flat(o.invoices, LINES), SALE_LINE_ID);
    InsertedAre(d.returnLines, Flat(o.givenBack, RETURN_LINES), RETURN_LINE_ID);
    OwnLines(ctr, o);
  }

  lemma OwnLines(ctr: Counter, o: Outbox)
    requires Owned(ctr, o)
    ensures forall row :: row in Flat(o.invoices, LINES) ==> row.invoiceId in BillIds(o.invoices)
    ensures forall row :: row in Flat(o.givenBack, RETURN_LINES) ==> row.returnId in ReturnIds(o.givenBack)
  {
    hide Flat;
    forall row | row in Flat(o.invoices, LINES) ensures row.invoiceId in BillIds(o.invoices) {
      FromFlat(o.invoices, LINES, row);
      var k :| 0 <= k < |o.invoices| && row in LINES(o.invoices[k]);
      assert OwnInvoice(ctr, IdsOf(o.registers), o.invoices[k]);
      assert o.invoices[k] in o.invoices;
    }
    forall row | row in Flat(o.givenBack, RETURN_LINES) ensures row.returnId in ReturnIds(o.givenBack) {
      FromFlat(o.givenBack, RETURN_LINES, row);
      var k :| 0 <= k < |o.givenBack| && row in RETURN_LINES(o.givenBack[k]);
      assert OwnReturn(ctr, IdsOf(o.registers), o.givenBack[k]);
      assert o.givenBack[k] in o.givenBack;
    }
  }

  // ----- Nothing clashes the second time

  lemma UsedNumbersClash(d: Documents, o: Outbox)
    ensures forall id :: id in d.invoices && d.invoices[id].invoiceNo in InvoiceNos(o.invoices) && id !in BillIds(o.invoices) ==>
              InvoiceNumberUsed(id) in NumberClashes(d, o)
    ensures var rows := Flat(o.invoices, RECEIPTS);
            forall id :: id in d.receipts && d.receipts[id].receiptNo in ReceiptNos(rows) && id !in ReceiptIds(rows) ==>
              ReceiptNumberUsed(id) in NumberClashes(d, o)
    ensures forall id :: id in d.givenBack && d.givenBack[id].returnNo in ReturnNos(o.givenBack) && id !in ReturnIds(o.givenBack) ==>
              ReturnNumberUsed(id) in NumberClashes(d, o)
  {
    hide BillIds, ReturnIds, ReceiptIds, InvoiceNos, ReturnNos, ReceiptNos, Flat;
  }

  lemma NoNumberClashes(d: Documents, d1: Documents, o: Outbox)
    requires NewAreSent(d, d1, o) && NumberClashes(d, o) == {}
    ensures NumberClashes(d1, o) == {}
  {
    hide BillIds, ReturnIds, ReceiptIds, InvoiceNos, ReturnNos, ReceiptNos, Flat;
    UsedNumbersClash(d, o);
  }

  lemma {:induction false} NoNewReturns(d: Documents, bills: set<Id>, givenBack: seq<ReturnEntry>)
    requires forall id :: id in ReturnIds(givenBack) ==> id in d.givenBack
    ensures NewReturns(d, bills, givenBack) == []
  {
    if givenBack != [] {
      var n := |givenBack| - 1;
      assert givenBack == givenBack[..n] + [givenBack[n]];
      assert givenBack[n] in givenBack && forall entry :: entry in givenBack[..n] ==> entry in givenBack;
      NoNewReturns(d, bills, givenBack[..n]);
    }
  }

  lemma NoReturnClashes(d: Documents, d1: Documents, o: Outbox)
    requires NewAreSent(d, d1, o)
    ensures ReturnClashes(d1, o) == {}
  {
    NoNewReturns(d1, BillIds(o.invoices), o.givenBack);
  }

  lemma NoBatchClashes(s: Server, movements: seq<LedgerRow>)
    requires forall row :: row in movements ==> row.id in s.stock.ledger
    ensures BatchClashes(s, movements) == {}
  {
  }

  lemma SameServerLines(s: Server, s1: Server, o: Outbox)
    requires NewLinesAreSent(s.documents, s1.documents, o)
    ensures VerificationContext(s1, o).serverLines == VerificationContext(s, o).serverLines
    ensures VerificationContext(s1, o).serverReturned == VerificationContext(s, o).serverReturned
  {
    hide TakenByOthers, TableTotal, Sellers, BillIds, ReturnIds, VO.SoldOf;
    var but := ReturnIds(o.givenBack);
    forall line ensures TakenByOthers(s1.documents.returnLines, line, but) == TakenByOthers(s.documents.returnLines, line, but) {
      SameTaken(s.documents.returnLines, s1.documents.returnLines, line, but);
    }
    SameLines(s.documents.saleLines, s1.documents.saleLines, BillIds(o.invoices), ServerBills(o));
  }

  lemma SameLines(rows: map<Id, SaleLineRow>, more: map<Id, SaleLineRow>, sent: set<Id>, bills: set<Id>)
    requires forall id :: id in rows ==> id in more && more[id] == rows[id]
    requires forall id :: id in more && id !in rows ==> more[id].invoiceId in sent
    requires bills !! sent
    ensures forall id :: (id in more && more[id].invoiceId in bills) <==> (id in rows && rows[id].invoiceId in bills)
  {
  }

  lemma SameServerRounding(s: Server, s1: Server, o: Outbox)
    requires NewAreAmong(s.documents, s1.documents, o)
    ensures VerificationContext(s1, o).serverRounding == VerificationContext(s, o).serverRounding
  {
    hide TakenByOthers, RoundingOf, TableTotal, Sellers, BillIds, ReturnIds, VO.SoldOf;
    var but := ReturnIds(o.givenBack);
    forall bill ensures TableTotal(s1.documents.givenBack, RoundingOf(bill, but)) == TableTotal(s.documents.givenBack, RoundingOf(bill, but)) {
      SameRounding(s.documents.givenBack, s1.documents.givenBack, bill, but);
    }
  }

  /** The server looks the same to the check as before the first sending. */
  lemma SameContext(s: Server, s1: Server, o: Outbox)
    requires s1.catalog == s.catalog
    requires NewAreAmong(s.documents, s1.documents, o) && NewLinesAreSent(s.documents, s1.documents, o)
    ensures VerificationContext(s1, o) == VerificationContext(s, o)
  {
    hide TakenByOthers, RoundingOf, TableTotal, Sellers, BillIds, ReturnIds, VO.SoldOf, NewAreAmong, NewLinesAreSent;
    SameServerLines(s, s1, o);
    SameServerRounding(s, s1, o);
    assert VerificationContext(s1, o).maxDiscountPercent == VerificationContext(s, o).maxDiscountPercent;
  }

  lemma SameTaken(rows: map<Id, ReturnLineRow>, more: map<Id, ReturnLineRow>, line: Id, but: set<Id>)
    requires forall id :: id in rows ==> id in more && more[id] == rows[id]
    requires forall id :: id in more && id !in rows ==> more[id].returnId in but
    ensures TakenByOthers(more, line, but) == TakenByOthers(rows, line, but)
  {
    hide TableTotal;
    TotalExtra(rows, more, PartOf(line, but, BACK_QTY));
    TotalExtra(rows, more, PartOf(line, but, BACK_TAXABLE));
    TotalExtra(rows, more, PartOf(line, but, BACK_CGST));
    TotalExtra(rows, more, PartOf(line, but, BACK_SGST));
    TotalExtra(rows, more, PartOf(line, but, BACK_IGST));
  }

  lemma SameRounding(rows: map<Id, ReturnRow>, more: map<Id, ReturnRow>, bill: Id, but: set<Id>)
    requires forall id :: id in rows ==> id in more && more[id] == rows[id]
    requires forall id :: id in more && id !in rows ==> id in but && more[id].id in but
    ensures TableTotal(more, RoundingOf(bill, but)) == TableTotal(rows, RoundingOf(bill, but))
  {
    hide TableTotal;
    TotalExtra(rows, more, RoundingOf(bill, but));
  }

  // ----- The check finds nothing

  lemma NextInvoice(ctx: VO.OutboxContext, before: seq<InvoiceEntry>, invoices: seq<InvoiceEntry>, entry: InvoiceEntry)
    requires invoices != [] && invoices[..|invoices| - 1] == before && invoices[|invoices| - 1] == entry
    ensures VO.InvoiceConflicts(ctx, invoices)
         == VO.InvoiceConflicts(ctx, before) + VO.OnInvoices(entry.invoice.id, VO.InvoiceProblems(entry, VO.CashierLimit(ctx, entry.invoice.createdBy)))
    ensures VO.SoldLines(ctx.serverLines, invoices) == VO.AddLines(VO.SoldLines(ctx.serverLines, before), entry.lines)
    ensures VO.StartRounding(ctx.serverRounding, invoices)
         == VO.StartRounding(ctx.serverRounding, before)[entry.invoice.id := VO.BillRounding(entry.invoice.roundOff, 0)]
  {
    hide VO.InvoiceProblems, VO.AddLines, VO.OnInvoices;
  }

  lemma {:induction false} CutInvoicesSame(ctx: VO.OutboxContext, replaced: map<Id, seq<LedgerRow>>, invoices: seq<InvoiceEntry>)
    requires forall k :: 0 <= k < |invoices| ==> SplitsOf(replaced, invoices[k].ledger)
    ensures VO.InvoiceConflicts(ctx, SplitInvoices(replaced, invoices)) == VO.InvoiceConflicts(ctx, invoices)
    ensures VO.SoldLines(ctx.serverLines, SplitInvoices(replaced, invoices)) == VO.SoldLines(ctx.serverLines, invoices)
    ensures VO.StartRounding(ctx.serverRounding, SplitInvoices(replaced, invoices)) == VO.StartRounding(ctx.serverRounding, invoices)
  {
    hide VO.InvoiceProblems, SplitsOf, Split, VO.AddLines, VO.OnInvoices, VO.InvoiceConflicts, VO.SoldLines, VO.StartRounding;
    var cut := SplitInvoices(replaced, invoices);
    if invoices == [] {
      assert cut == invoices;
    } else {
      var n := |invoices| - 1;
      CutInvoicesSame(ctx, replaced, invoices[..n]);
      assert cut[..n] == SplitInvoices(replaced, invoices[..n]);
      VS.SplitSameProblems(replaced, invoices[n], VO.CashierLimit(ctx, invoices[n].invoice.createdBy));
      NextInvoice(ctx, invoices[..n], invoices, invoices[n]);
      NextInvoice(ctx, SplitInvoices(replaced, invoices[..n]), cut, cut[n]);
    }
  }

  lemma CutReturnSame(sold: map<Id, VO.SoldLine>, c: VO.ReturnCheck, replaced: map<Id, seq<LedgerRow>>, entry: ReturnEntry)
    requires SplitsOf(replaced, entry.ledger) && forall row :: row in entry.ledger && row.id in replaced ==> TakesOut(row)
    ensures VO.CheckReturn(sold, c, entry.(ledger := Split(replaced, entry.ledger))) == VO.CheckReturn(sold, c, entry)
  {
    hide SplitsOf, Split, TakesOut, VO.CheckRows, VO.StockBackMatches, VO.RoundingFine, VO.AddRounding, VO.TotalProblems, VO.OnReturns, VO.When;
    VS.SplitSameBackVerdict(replaced, entry.ledger, sold, entry.lines);
  }

  lemma NextReturn(sold: map<Id, VO.SoldLine>, start: VO.ReturnCheck, before: seq<ReturnEntry>, entries: seq<ReturnEntry>, entry: ReturnEntry)
    requires entries != [] && entries[..|entries| - 1] == before && entries[|entries| - 1] == entry
    ensures VO.CheckReturns(sold, start, entries) == VO.CheckReturn(sold, VO.CheckReturns(sold, start, before), entry)
  {
    hide VO.CheckReturn;
  }

  lemma {:induction false} CutReturnsSame(sold: map<Id, VO.SoldLine>, start: VO.ReturnCheck, replaced: map<Id, seq<LedgerRow>>, entries: seq<ReturnEntry>)
    requires forall k :: 0 <= k < |entries| ==> SplitsOf(replaced, entries[k].ledger)
    requires forall k, row :: 0 <= k < |entries| && row in entries[k].ledger && row.id in replaced ==> TakesOut(row)
    ensures VO.CheckReturns(sold, start, SplitReturns(replaced, entries)) == VO.CheckReturns(sold, start, entries)
  {
    hide SplitsOf, Split, TakesOut, VO.CheckReturn, VO.CheckReturns;
    var cut := SplitReturns(replaced, entries);
    if entries == [] {
      assert cut == entries;
    } else {
      var n := |entries| - 1;
      CutReturnsSame(sold, start, replaced, entries[..n]);
      assert cut[..n] == SplitReturns(replaced, entries[..n]);
      CutReturnSame(sold, VO.CheckReturns(sold, start, entries[..n]), replaced, entries[n]);
      NextReturn(sold, start, entries[..n], entries, entries[n]);
      NextReturn(sold, start, SplitReturns(replaced, entries[..n]), cut, cut[n]);
    }
  }

  /** Cut for shortfalls or not, the same is found. */
  lemma CutConflictsSame(s: Server, ctr: Counter, o: Outbox, newId: Id -> Id, ctx: VO.OutboxContext)
    requires DistinctIds(Movements(o.invoices, o.givenBack))
    ensures var p, sameAs := Prepare(s, ctr, o, newId), PlaceCustomers(s, ctr, o.customers).sameAs;
            VO.Conflicts(ctx, p.invoices, p.givenBack) == VO.Conflicts(ctx, WithCustomers(o.invoices, sameAs), o.givenBack)
  {
    hide PlaceCustomers, PlaceRows, Ordered, Movements, SplitsOf, TakesOut, DistinctIds, VO.InvoiceConflicts, VO.CheckReturns, VO.SoldLines, VO.StartRounding, SplitInvoices, SplitReturns, Split;
    var replaced, sameAs := Replaced(s, o, newId), PlaceCustomers(s, ctr, o.customers).sameAs;
    var settled := WithCustomers(o.invoices, sameAs);
    ReplacedAreCuts(s, o, newId);
    forall k | 0 <= k < |settled| ensures SplitsOf(replaced, settled[k].ledger) {
      assert settled[k].ledger == o.invoices[k].ledger;
      CutPart(s, o, newId, o.invoices[k].ledger);
    }
    forall k | 0 <= k < |o.givenBack| ensures SplitsOf(replaced, o.givenBack[k].ledger) {
      CutPart(s, o, newId, o.givenBack[k].ledger);
    }
    forall k, row | 0 <= k < |o.givenBack| && row in o.givenBack[k].ledger && row.id in replaced ensures TakesOut(row) {
      ToMovements(o.invoices, o.givenBack, row);
      InvoiceOrReturn(o, row);
    }
    CutInvoicesSame(ctx, replaced, settled);
    CutReturnsSame(VO.SoldLines(ctx.serverLines, settled), VO.Start(ctx, settled), replaced, o.givenBack);
  }

  lemma PreparedBills(s: Server, ctr: Counter, o: Outbox, newId: Id -> Id)
    ensures var p, settled := Prepare(s, ctr, o, newId), WithCustomers(o.invoices, PlaceCustomers(s, ctr, o.customers).sameAs);
            && p.created == PlaceCustomers(s, ctr, o.customers).created
            && |p.invoices| == |settled| && forall k :: 0 <= k < |settled| ==> p.invoices[k].invoice == settled[k].invoice
  {
    hide PlaceCustomers, PlaceRows, Ordered, Split, WithCustomers;
  }

  lemma FoundCustomers(s: Server, ctr: Counter, o: Outbox, newId: Id -> Id)
    requires Accepts(s, ctr, o, newId)
    ensures MissingClashes(Taken(s, ctr, o, newId), o, WithCustomers(o.invoices, PlaceCustomers(s, ctr, o.customers).sameAs), {}) == {}
  {
    hide PlaceCustomers, Prepare, Accepts, AddCustomers, Taken, Flat, MissingClashes, WithCustomers,
      BatchClashes, NumberClashes, ReturnClashes, VO.Conflicts, VerificationContext;
    NothingClashes(s, ctr, o, newId);
    TakenPeople(s, ctr, o, newId);
    PreparedBills(s, ctr, o, newId);
    var p, placed := Prepare(s, ctr, o, newId), PlaceCustomers(s, ctr, o.customers);
    AddedAre(s.people, ctr.branchId, placed.created);
    MissingLess(s, Taken(s, ctr, o, newId), o, p.invoices, WithCustomers(o.invoices, placed.sameAs), CreatedIds(placed.created));
  }

  lemma MissingLess(s: Server, s1: Server, o: Outbox, cut: seq<InvoiceEntry>, invoices: seq<InvoiceEntry>, created: set<Id>)
    requires MissingClashes(s, o, cut, created) == {} && s1.catalog == s.catalog
    requires |cut| == |invoices| && forall k :: 0 <= k < |cut| ==> cut[k].invoice == invoices[k].invoice
    requires s.people.customers.Keys + created <= s1.people.customers.Keys
    ensures MissingClashes(s1, o, invoices, {}) == {}
  {
    hide Flat;
    MissingAre(s, o, cut, created);
    forall entry | entry in invoices ensures entry.invoice.customerId in s1.people.customers {
      var k :| 0 <= k < |invoices| && invoices[k] == entry;
      assert cut[k] in cut;
    }
  }

  lemma MissingAre(s: Server, o: Outbox, invoices: seq<InvoiceEntry>, created: set<Id>)
    ensures forall row :: row in Flat(o.invoices, LINES) && row.itemId !in s.catalog.items ==> ItemGone(row.id) in MissingClashes(s, o, invoices, created)
    ensures forall row :: row in o.registers && row.userId !in s.catalog.users ==> UserGone(row.id) in MissingClashes(s, o, invoices, created)
    ensures forall entry :: entry in invoices && entry.invoice.customerId !in s.people.customers && entry.invoice.customerId !in created ==>
              CustomerGone(entry.invoice.id) in MissingClashes(s, o, invoices, created)
  {
    hide Flat;
  }

  // ----- Taken again

  lemma ClashesAre(s: Server, ctr: Counter, o: Outbox, newId: Id -> Id)
    ensures var p := Prepare(s, ctr, o, newId);
            ClashesOf(s, ctr, o, newId) ==
              BatchClashes(s, Movements(p.invoices, p.givenBack)) + NumberClashes(s.documents, o)
              + MissingClashes(s, o, p.invoices, CreatedIds(p.created)) + ReturnClashes(s.documents, o)
              + AsClashes(VO.Conflicts(VerificationContext(s, o), p.invoices, p.givenBack))
  {
    hide Prepare, BatchClashes, NumberClashes, MissingClashes, ReturnClashes, VO.Conflicts, VerificationContext;
  }

  lemma SettledMovements(o: Outbox, sameAs: map<Id, Id>)
    ensures Movements(WithCustomers(o.invoices, sameAs), o.givenBack) == Movements(o.invoices, o.givenBack)
  {
    CustomersKeepMovements(o.invoices, sameAs);
  }

  lemma NothingClashesAgain(s: Server, ctr: Counter, o: Outbox, newId: Id -> Id)
    requires FromTables(s, newId, o) && Accepts(s, ctr, o, newId)
    ensures ClashesOf(Taken(s, ctr, o, newId), ctr, o, newId) == {}
  {
    hide Taken, Accepts, Prepare, BatchClashes, NumberClashes, MissingClashes, ReturnClashes, VO.Conflicts, VerificationContext, PlaceCustomers,
      WithCustomers, Movements, ClashesOf, NewAreAmong, NewLinesAreSent, ReturnIds, DistinctCustomers, DistinctIds, Cuts.NewIdsApart;
    var s1, sameAs := Taken(s, ctr, o, newId), PlaceCustomers(s, ctr, o.customers).sameAs;
    var settled := WithCustomers(o.invoices, sameAs);
    NothingClashes(s, ctr, o, newId);
    AcceptedOwned(s, ctr, o, newId);
    ClashesAre(s1, ctr, o, newId);
    PreparedAgain(s, ctr, o, newId);
    SettledMovements(o, sameAs);
    KnownAgain(s, ctr, o, newId);
    NoBatchClashes(s1, Movements(settled, o.givenBack));
    SentDocuments(s, ctr, o, newId);
    SentLines(s, ctr, o, newId);
    NoNumberClashes(s.documents, s1.documents, o);
    FoundCustomers(s, ctr, o, newId);
    NoReturnClashes(s.documents, s1.documents, o);
    TakenPeople(s, ctr, o, newId);
    SameContext(s, s1, o);
    CutConflictsSame(s, ctr, o, newId, VerificationContext(s, o));
    NoConflicts(VO.Conflicts(VerificationContext(s1, o), settled, o.givenBack));
    assert CreatedIds([]) == {};
  }

  lemma AcceptedOwned(s: Server, ctr: Counter, o: Outbox, newId: Id -> Id)
    requires Accepts(s, ctr, o, newId)
    ensures Owned(ctr, o) && ServerBillsAreOwn(s.documents, ctr, o) && UniqueNumbers(Taken(s, ctr, o, newId).documents)
    ensures o.schemaVersion == s.catalog.schemaVersion && WritesOnce(o, [])
  {
    hide Owned, ServerBillsAreOwn, UniqueNumbers, Taken, ClashesOf, PlaceCustomers;
  }

  /** An outbox that was taken is taken again, as often as it is sent, and the server stays as it is. */
  lemma ResendChangesNothing(s: Server, ctr: Counter, o: Outbox, newId: Id -> Id)
    requires FromTables(s, newId, o) && Accepts(s, ctr, o, newId)
    ensures Accepts(Taken(s, ctr, o, newId), ctr, o, newId)
    ensures Taken(Taken(s, ctr, o, newId), ctr, o, newId) == Taken(s, ctr, o, newId)
  {
    hide Taken, FromTables, Owned, ClashesOf, UniqueNumbers, PlaceCustomers, NewAreSent, BillIds;
    var s1 := Taken(s, ctr, o, newId);
    ResentSame(s, ctr, o, newId);
    NothingClashesAgain(s, ctr, o, newId);
    AcceptedOwned(s, ctr, o, newId);
    TakenPeople(s, ctr, o, newId);
    SentDocuments(s, ctr, o, newId);
    OwnBillsAgain(s.documents, s1.documents, ctr, o);
    NoneCreatedAgain(s, ctr, o, newId);
  }

  lemma OwnBillsAgain(d: Documents, d1: Documents, ctr: Counter, o: Outbox)
    requires ServerBillsAreOwn(d, ctr, o) && NewAreSent(d, d1, o)
    ensures ServerBillsAreOwn(d1, ctr, o)
  {
    hide ServerBills, BillIds, ReturnIds, ReceiptIds, Flat;
  }

  lemma NoneCreatedAgain(s: Server, ctr: Counter, o: Outbox, newId: Id -> Id)
    requires FromTables(s, newId, o)
    ensures PlaceCustomers(Taken(s, ctr, o, newId), ctr, o.customers).created == []
  {
    hide Taken, PlaceCustomers, DistinctCustomers, DistinctIds, Movements, Cuts.NewIdsApart, AddCustomers;
    TakenPeople(s, ctr, o, newId);
    FirstAgain(s, Taken(s, ctr, o, newId), ctr, o.customers, |o.customers|);
    assert o.customers[..|o.customers|] == o.customers;
  }

  // ----- What a sync leaves as it is

  /**
   * A bill sent is on the server as it was sent, its customer settled, if and only if the server didn't have it, or
   * had it so already: a row the server has stays as it is. Its payments are there either way.
   */
  lemma BillUpToDate(s: Server, ctr: Counter, o: Outbox, newId: Id -> Id, k: nat)
    requires DistinctKeys(Heads(o.invoices), INVOICE_ID) && k < |o.invoices|
    ensures var row := WithCustomer(o.invoices[k], PlaceCustomers(s, ctr, o.customers).sameAs).invoice;
            var d := Taken(s, ctr, o, newId).documents;
            && row.id in d.invoices
            && (d.invoices[row.id] == row <==> row.id !in s.documents.invoices || s.documents.invoices[row.id] == row)
            && (row.id in s.documents.invoices ==> d.invoices[row.id] == s.documents.invoices[row.id])
            && forall payment :: payment in o.invoices[k].payments ==> payment.id in d.payments
  {
    hide Taken, PlaceCustomers, Insert, Flat;
    TakenDocuments(s, ctr, o, newId);
    var sameAs := PlaceCustomers(s, ctr, o.customers).sameAs;
    var heads := Heads(WithCustomers(o.invoices, sameAs));
    InsertedAre(s.documents.invoices, heads, INVOICE_ID);
    SettledDistinct(o.invoices, sameAs);
    assert heads[k] in heads;
    if heads[k].id !in s.documents.invoices {
      DistinctSame(heads, INVOICE_ID, heads[k], Insert(s.documents.invoices, heads, INVOICE_ID)[heads[k].id]);
    }
    SettledPayments(o.invoices, sameAs);
    InsertedAre(s.documents.payments, Flat(o.invoices, PAYMENTS), PAYMENT_ID);
    forall payment | payment in o.invoices[k].payments ensures payment in Flat(o.invoices, PAYMENTS) {
      InFlat(o.invoices, PAYMENTS, o.invoices[k], payment);
    }
  }

  lemma SettledDistinct(invoices: seq<InvoiceEntry>, sameAs: map<Id, Id>)
    requires DistinctKeys(Heads(invoices), INVOICE_ID)
    ensures DistinctKeys(Heads(WithCustomers(invoices, sameAs)), INVOICE_ID)
  {
    var heads := Heads(WithCustomers(invoices, sameAs));
    forall i, j | 0 <= i < j < |heads| ensures heads[i].id != heads[j].id {
      assert Heads(invoices)[i].id != Heads(invoices)[j].id;
    }
  }

  lemma SettledPayments(invoices: seq<InvoiceEntry>, sameAs: map<Id, Id>)
    ensures Flat(WithCustomers(invoices, sameAs), PAYMENTS) == Flat(invoices, PAYMENTS)
  {
    FlatSame(WithCustomers(invoices, sameAs), invoices, PAYMENTS);
  }

  lemma {:induction false} InFlat<E(!new), R>(entries: seq<E>, of: E -> seq<R>, entry: E, row: R)
    requires entry in entries && row in of(entry)
    ensures row in Flat(entries, of)
  {
    var n := |entries| - 1;
    assert entries == entries[..n] + [entries[n]];
    if entry in entries[..n] { InFlat(entries[..n], of, entry, row); }
  }

  // ----- Numbers stay unique

  /** The outbox's own numbers are each one document's. */
  ghost predicate OwnNumbersUnique(o: Outbox) {
    && (forall a, b :: a in o.invoices && b in o.invoices && a.invoice.invoiceNo == b.invoice.invoiceNo ==> a.invoice.id == b.invoice.id)
    && (forall a, b :: a in o.givenBack && b in o.givenBack && a.ret.returnNo == b.ret.returnNo ==> a.ret.id == b.ret.id)
  }

  ghost predicate UniqueDocuments(d: Documents) {
    && (forall a, b :: a in d.invoices && b in d.invoices && a != b ==> d.invoices[a].invoiceNo != d.invoices[b].invoiceNo)
    && (forall a, b :: a in d.givenBack && b in d.givenBack && a != b ==> d.givenBack[a].returnNo != d.givenBack[b].returnNo)
  }

  /** What is new in a table of bills carries the number the outbox gave it. */
  ghost predicate NumbersAsSent(d: Documents, d1: Documents, o: Outbox) {
    && (forall id :: id in d1.invoices && id !in d.invoices ==>
          exists entry :: entry in o.invoices && entry.invoice.id == id && d1.invoices[id].invoiceNo == entry.invoice.invoiceNo)
    && (forall id :: id in d1.givenBack && id !in d.givenBack ==>
          exists entry :: entry in o.givenBack && entry.ret.id == id && d1.givenBack[id] == entry.ret)
  }

  lemma SentNumbers(s: Server, ctr: Counter, o: Outbox, newId: Id -> Id)
    ensures NumbersAsSent(s.documents, Taken(s, ctr, o, newId).documents, o)
  {
    hide Taken, PlaceCustomers, Insert, Flat;
    TakenDocuments(s, ctr, o, newId);
    var sameAs := PlaceCustomers(s, ctr, o.customers).sameAs;
    var settled := WithCustomers(o.invoices, sameAs);
    InsertedAre(s.documents.invoices, Heads(settled), INVOICE_ID);
    InsertedAre(s.documents.givenBack, ReturnHeads(o.givenBack), RETURN_ID);
    SettledNumbers(o.invoices, sameAs);
    forall row | row in ReturnHeads(o.givenBack) ensures exists entry :: entry in o.givenBack && entry.ret == row {
      var k :| 0 <= k < |o.givenBack| && ReturnHeads(o.givenBack)[k] == row;
      assert o.givenBack[k] in o.givenBack;
    }
  }

  lemma SettledNumbers(invoices: seq<InvoiceEntry>, sameAs: map<Id, Id>)
    ensures forall row :: row in Heads(WithCustomers(invoices, sameAs)) ==>
              exists entry :: entry in invoices && entry.invoice.id == row.id && entry.invoice.invoiceNo == row.invoiceNo
  {
    var settled := WithCustomers(invoices, sameAs);
    forall row | row in Heads(settled)
      ensures exists entry :: entry in invoices && entry.invoice.id == row.id && entry.invoice.invoiceNo == row.invoiceNo
    {
      var k :| 0 <= k < |settled| && Heads(settled)[k] == row;
      assert invoices[k] in invoices;
    }
  }

  /** Documents the server has already keep their numbers. */
  ghost predicate SameNumbers(d: Documents, o: Outbox) {
    && (forall entry :: entry in o.invoices && entry.invoice.id in d.invoices ==> d.invoices[entry.invoice.id].invoiceNo == entry.invoice.invoiceNo)
    && (forall entry :: entry in o.givenBack && entry.ret.id in d.givenBack ==> d.givenBack[entry.ret.id].returnNo == entry.ret.returnNo)
  }

  /**
   * A sync that reports no number as used leaves every invoice and return number one document's: the
   * clash check alone keeps them unique, without the table's own constraint.
   */
  lemma NumbersStayUnique(s: Server, ctr: Counter, o: Outbox, newId: Id -> Id)
    requires UniqueDocuments(s.documents) && OwnNumbersUnique(o) && SameNumbers(s.documents, o) && NumberClashes(s.documents, o) == {}
    ensures UniqueDocuments(Taken(s, ctr, o, newId).documents)
  {
    hide Taken, Flat, OwnNumbersUnique, UniqueDocuments, NumbersAsSent, NewAreSent, NumberClashes, SameNumbers;
    SentNumbers(s, ctr, o, newId);
    SentDocuments(s, ctr, o, newId);
    UsedNumbersClash(s.documents, o);
    UniqueAfter(s.documents, Taken(s, ctr, o, newId).documents, o);
  }

  lemma UniqueAfter(d: Documents, d1: Documents, o: Outbox)
    requires UniqueDocuments(d) && OwnNumbersUnique(o) && SameNumbers(d, o) && NumbersAsSent(d, d1, o) && NewAreSent(d, d1, o)
    requires forall id :: id in d.invoices && d.invoices[id].invoiceNo in InvoiceNos(o.invoices) ==> id in BillIds(o.invoices)
    requires forall id :: id in d.givenBack && d.givenBack[id].returnNo in ReturnNos(o.givenBack) ==> id in ReturnIds(o.givenBack)
    ensures UniqueDocuments(d1)
  {
    hide UniqueDocuments, SameNumbers, NumbersAsSent, OwnNumbersUnique, NewAreSent;
    forall a, b | a in d1.invoices && b in d1.invoices && d1.invoices[a].invoiceNo == d1.invoices[b].invoiceNo ensures a == b {
      OneBillPerNumber(d, d1, o, a, b);
    }
    forall a, b | a in d1.givenBack && b in d1.givenBack && d1.givenBack[a].returnNo == d1.givenBack[b].returnNo ensures a == b {
      OneReturnPerNumber(d, d1, o, a, b);
    }
    EachOnce(d1);
  }

  lemma EachOnce(d: Documents)
    requires forall a, b :: a in d.invoices && b in d.invoices && d.invoices[a].invoiceNo == d.invoices[b].invoiceNo ==> a == b
    requires forall a, b :: a in d.givenBack && b in d.givenBack && d.givenBack[a].returnNo == d.givenBack[b].returnNo ==> a == b
    ensures UniqueDocuments(d)
  {
  }

  /** A bill with the number of one just added is in the outbox, under that number. */
  lemma SentUnderNumber(d: Documents, d1: Documents, o: Outbox, entry: InvoiceEntry, other: Id)
    requires SameNumbers(d, o) && NumbersAsSent(d, d1, o) && NewAreSent(d, d1, o)
    requires forall id :: id in d.invoices && d.invoices[id].invoiceNo in InvoiceNos(o.invoices) ==> id in BillIds(o.invoices)
    requires entry in o.invoices && other in d1.invoices && d1.invoices[other].invoiceNo == entry.invoice.invoiceNo
    ensures exists e :: e in o.invoices && e.invoice.id == other && e.invoice.invoiceNo == entry.invoice.invoiceNo
  {
    if other in d.invoices {
      assert entry.invoice.invoiceNo in InvoiceNos(o.invoices);
      assert other in BillIds(o.invoices);
      var e :| e in o.invoices && e.invoice.id == other;
      assert d.invoices[other].invoiceNo == e.invoice.invoiceNo;
    }
  }

  lemma OneBillPerNumber(d: Documents, d1: Documents, o: Outbox, a: Id, b: Id)
    requires UniqueDocuments(d) && OwnNumbersUnique(o) && SameNumbers(d, o) && NumbersAsSent(d, d1, o) && NewAreSent(d, d1, o)
    requires forall id :: id in d.invoices && d.invoices[id].invoiceNo in InvoiceNos(o.invoices) ==> id in BillIds(o.invoices)
    requires a in d1.invoices && b in d1.invoices && d1.invoices[a].invoiceNo == d1.invoices[b].invoiceNo
    ensures a == b
  {
    hide SameNumbers, InvoiceNos, BillIds;
    if a !in d.invoices {
      var entry :| entry in o.invoices && entry.invoice.id == a && d1.invoices[a].invoiceNo == entry.invoice.invoiceNo;
      SentUnderNumber(d, d1, o, entry, b);
    } else if b !in d.invoices {
      var entry :| entry in o.invoices && entry.invoice.id == b && d1.invoices[b].invoiceNo == entry.invoice.invoiceNo;
      SentUnderNumber(d, d1, o, entry, a);
    }
  }

  lemma SentReturnUnderNumber(d: Documents, d1: Documents, o: Outbox, entry: ReturnEntry, other: Id)
    requires SameNumbers(d, o) && NumbersAsSent(d, d1, o) && NewAreSent(d, d1, o)
    requires forall id :: id in d.givenBack && d.givenBack[id].returnNo in ReturnNos(o.givenBack) ==> id in ReturnIds(o.givenBack)
    requires entry in o.givenBack && other in d1.givenBack && d1.givenBack[other].returnNo == entry.ret.returnNo
    ensures exists e :: e in o.givenBack && e.ret.id == other && e.ret.returnNo == entry.ret.returnNo
  {
    if other in d.givenBack {
      assert entry.ret.returnNo in ReturnNos(o.givenBack);
      assert other in ReturnIds(o.givenBack);
      var e :| e in o.givenBack && e.ret.id == other;
      assert d.givenBack[other].returnNo == e.ret.returnNo;
    }
  }

  lemma OneReturnPerNumber(d: Documents, d1: Documents, o: Outbox, a: Id, b: Id)
    requires UniqueDocuments(d) && OwnNumbersUnique(o) && SameNumbers(d, o) && NumbersAsSent(d, d1, o) && NewAreSent(d, d1, o)
    requires forall id :: id in d.givenBack && d.givenBack[id].returnNo in ReturnNos(o.givenBack) ==> id in ReturnIds(o.givenBack)
    requires a in d1.givenBack && b in d1.givenBack && d1.givenBack[a].returnNo == d1.givenBack[b].returnNo
    ensures a == b
  {
    hide SameNumbers, ReturnNos, ReturnIds;
    if a !in d.givenBack {
      var entry :| entry in o.givenBack && entry.ret.id == a && d1.givenBack[a] == entry.ret;
      SentReturnUnderNumber(d, d1, o, entry, b);
    } else if b !in d.givenBack {
      var entry :| entry in o.givenBack && entry.ret.id == b && d1.givenBack[b] == entry.ret;
      SentReturnUnderNumber(d, d1, o, entry, a);
    }
  }

  // ----- Receipts' numbers

  ghost predicate UniqueReceipts(receipts: map<Id, ReceiptRow>) {
    forall a, b :: a in receipts && b in receipts && receipts[a].receiptNo == receipts[b].receiptNo ==> a == b
  }

  /** The receipts sent carry a number each, and those the server has already the number they have there. */
  ghost predicate ReceiptsNumbered(receipts: map<Id, ReceiptRow>, rows: seq<ReceiptRow>) {
    && (forall a, b :: a in rows && b in rows && a.receiptNo == b.receiptNo ==> a.id == b.id)
    && (forall row :: row in rows && row.id in receipts ==> receipts[row.id].receiptNo == row.receiptNo)
  }

  lemma InsertedReceipts(receipts: map<Id, ReceiptRow>, rows: seq<ReceiptRow>)
    requires UniqueReceipts(receipts) && ReceiptsNumbered(receipts, rows)
    requires forall id :: id in receipts && receipts[id].receiptNo in ReceiptNos(rows) ==> id in ReceiptIds(rows)
    ensures UniqueReceipts(Insert(receipts, rows, RECEIPT_ID))
  {
    hide ReceiptNos, ReceiptIds, Insert;
    var all := Insert(receipts, rows, RECEIPT_ID);
    InsertedAre(receipts, rows, RECEIPT_ID);
    forall a, b | a in all && b in all && all[a].receiptNo == all[b].receiptNo ensures a == b {
      if a !in receipts {
        SentReceipt(receipts, rows, all[a], all, b);
      } else if b !in receipts {
        SentReceipt(receipts, rows, all[b], all, a);
      }
    }
  }

  /** A receipt with the number of one sent goes by that one's id. */
  lemma SentReceipt(receipts: map<Id, ReceiptRow>, rows: seq<ReceiptRow>, sent: ReceiptRow, all: map<Id, ReceiptRow>, other: Id)
    requires ReceiptsNumbered(receipts, rows) && sent in rows
    requires forall id :: id in receipts && receipts[id].receiptNo in ReceiptNos(rows) ==> id in ReceiptIds(rows)
    requires other in all && all[other].receiptNo == sent.receiptNo
    requires other in receipts ==> all[other] == receipts[other]
    requires other !in receipts ==> all[other] in rows && all[other].id == other
    ensures other == sent.id
  {
    if other in receipts {
      assert sent.receiptNo in ReceiptNos(rows);
      var row :| row in rows && row.id == other;
      assert row.receiptNo == sent.receiptNo;
    }
  }

  /** Receipts' numbers stay unique by the clash check too. */
  lemma ReceiptsStayUnique(s: Server, ctr: Counter, o: Outbox, newId: Id -> Id)
    requires UniqueReceipts(s.documents.receipts) && ReceiptsNumbered(s.documents.receipts, Flat(o.invoices, RECEIPTS))
    requires NumberClashes(s.documents, o) == {}
    ensures UniqueReceipts(Taken(s, ctr, o, newId).documents.receipts)
  {
    hide Taken, Flat, PlaceCustomers, Insert, NumberClashes, UniqueReceipts, ReceiptsNumbered;
    var sameAs := PlaceCustomers(s, ctr, o.customers).sameAs;
    TakenDocuments(s, ctr, o, newId);
    SettledBills(o.invoices, sameAs);
    UsedNumbersClash(s.documents, o);
    InsertedReceipts(s.documents.receipts, Flat(o.invoices, RECEIPTS));
  }
}
