/**
 * What the server's own tables say after a sync of how much of each sale line, and of each bill's round-off,
 * has been given back (apps/api/src/fallback/sync-checks.ts, apps/api/src/fallback/verify-outbox.ts).
 */
module ReturnsAfterSync {
  import opened AcceptedOutbox
  import opened BatchShortfalls
  import opened GrownSync
  import opened OutboxRows
  import opened ResentOutbox
  import opened Rounding
  import opened ServerTables
  import opened Sync
  import opened SyncChecks
  import opened Tables
  import VO = VerifyOutbox
  import VS = VerifySoundness

  // ----- What has come back of a line

  /** All that the returns in a table took of a line. */
  function BackOf(rows: map<Id, ReturnLineRow>, line: Id): (r: VO.Parts) { TakenByOthers(rows, line, {}) }

  function SentLines(o: Outbox): (r: seq<SaleLineRow>) { Flat(o.invoices, LINES) }
  function SentBack(o: Outbox): (r: seq<ReturnLineRow>) { Flat(o.givenBack, RETURN_LINES) }

  /** Rows never change once made: those sent have ids of their own, and the server, if it has them, has them as sent. */
  ghost predicate AsSent<R(!new)>(table: map<Id, R>, rows: seq<R>, idOf: R -> Id) {
    DistinctKeys(rows, idOf) && forall row :: row in rows && idOf(row) in table ==> table[idOf(row)] == row
  }

  /** A return the server has of those sent came with its lines. */
  ghost predicate LinesSent(rows: map<Id, ReturnLineRow>, o: Outbox) {
    forall id :: id in rows && rows[id].returnId in ReturnIds(o.givenBack) ==> rows[id] in SentBack(o) && rows[id].id == id
  }

  ghost predicate RowsAsSent(d: Documents, o: Outbox) {
    AsSent(d.saleLines, SentLines(o), SALE_LINE_ID) && AsSent(d.returnLines, SentBack(o), RETURN_LINE_ID) && LinesSent(d.returnLines, o)
  }

  // ----- Totals in parts

  lemma {:induction false} TotalSame<R>(table: map<Key, R>, v: R -> int, w: R -> int)
    requires forall id :: id in table ==> v(table[id]) == w(table[id])
    ensures TableTotal(table, v) == TableTotal(table, w)
    decreases |table.Keys|
  {
    if table != map[] {
      EmptyKeys(table);
      var id := Smallest(table.Keys);
      FewerKeys(table, id);
      TotalWithout(table, v, id);
      TotalWithout(table, w, id);
      TotalSame(table - {id}, v, w);
    }
  }

  /** A table's rows of some kind, and what rows inserted come to, when the table's other rows are among those inserted. */
  lemma TotalInTwo<R(!new)>(table: map<Key, R>, rows: seq<R>, idOf: R -> Key, others: set<Key>, v: R -> int, w: R -> int)
    requires AsSent(table, rows, idOf) && others <= table.Keys
    requires forall id :: id in table && id !in others ==> table[id] in rows && idOf(table[id]) == id && v(table[id]) == 0
    requires forall row :: row in rows ==> idOf(row) !in others
    requires forall id :: id in others ==> v(table[id]) == w(table[id])
    ensures TableTotal(Insert(table, rows, idOf), w) == TableTotal(table, v) + RowsTotal(rows, w)
  {
    hide TableTotal;
    var kept := map id | id in others :: table[id];
    ByIdHolds(rows, idOf);
    assert Insert(table, rows, idOf) == kept + ById(rows, idOf) by { InsertedParts(table, rows, idOf, others); }
    TotalMerge(kept, ById(rows, idOf), w);
    TotalExtra(kept, table, v);
    TotalSame(kept, v, w);
    TotalOfInserted(map[], rows, idOf, w);
    TotalNone<R>(w);
    assert Insert(map[], rows, idOf) == ById(rows, idOf);
  }

  lemma InsertedParts<R(!new)>(table: map<Key, R>, rows: seq<R>, idOf: R -> Key, others: set<Key>)
    requires AsSent(table, rows, idOf) && others <= table.Keys
    requires forall id :: id in table && id !in others ==> table[id] in rows && idOf(table[id]) == id
    requires forall row :: row in rows ==> idOf(row) !in others
    ensures Insert(table, rows, idOf) == (map id | id in others :: table[id]) + ById(rows, idOf)
  {
    ByIdHolds(rows, idOf);
    var all, parts := Insert(table, rows, idOf), (map id | id in others :: table[id]) + ById(rows, idOf);
    forall id | id in table && id !in others ensures id in ById(rows, idOf) && ById(rows, idOf)[id] == table[id] {
      DistinctSame(rows, idOf, ById(rows, idOf)[id], table[id]);
    }
    assert all.Keys == parts.Keys;
  }

  lemma PartInTwo(d: Documents, ctr: Counter, o: Outbox, line: Id, part: ReturnLineRow -> int)
    requires Owned(ctr, o) && AsSent(d.returnLines, SentBack(o), RETURN_LINE_ID) && LinesSent(d.returnLines, o)
    ensures TableTotal(Insert(d.returnLines, SentBack(o), RETURN_LINE_ID), PartOf(line, {}, part))
         == TableTotal(d.returnLines, PartOf(line, ReturnIds(o.givenBack), part)) + RowsTotal(SentBack(o), PartOf(line, {}, part))
  {
    hide TableTotal, Insert, Flat, ReturnIds, Owned;
    var but := ReturnIds(o.givenBack);
    OwnLines(ctr, o);
    var others := set id | id in d.returnLines && d.returnLines[id].returnId !in but;
    TotalInTwo(d.returnLines, SentBack(o), RETURN_LINE_ID, others, PartOf(line, but, part), PartOf(line, {}, part));
  }

  // ----- What the returns sent take, row by row

  function RowsBack(rows: seq<ReturnLineRow>, line: Id): (r: VO.Parts) {
    VO.Parts(RowsTotal(rows, PartOf(line, {}, BACK_QTY)), RowsTotal(rows, PartOf(line, {}, BACK_TAXABLE)),
      RowsTotal(rows, PartOf(line, {}, BACK_CGST)), RowsTotal(rows, PartOf(line, {}, BACK_SGST)), RowsTotal(rows, PartOf(line, {}, BACK_IGST)))
  }

  lemma {:induction false} RowsBackAre(rows: seq<ReturnLineRow>, line: Id)
    ensures RowsBack(rows, line) == VS.RowsTaken(rows, line)
  {
    if rows != [] { RowsBackAre(rows[..|rows| - 1], line); }
  }

  lemma RowsBackConcat(a: seq<ReturnLineRow>, b: seq<ReturnLineRow>, line: Id)
    ensures RowsBack(a + b, line) == RowsBack(a, line).Plus(RowsBack(b, line))
  {
    hide RowsTotal;
    RowsTotalConcat(a, b, PartOf(line, {}, BACK_QTY));
    RowsTotalConcat(a, b, PartOf(line, {}, BACK_TAXABLE));
    RowsTotalConcat(a, b, PartOf(line, {}, BACK_CGST));
    RowsTotalConcat(a, b, PartOf(line, {}, BACK_SGST));
    RowsTotalConcat(a, b, PartOf(line, {}, BACK_IGST));
  }

  lemma {:induction false} TakenIs(entries: seq<ReturnEntry>, line: Id)
    ensures VS.Taken(entries, line) == RowsBack(Flat(entries, RETURN_LINES), line)
  {
    hide RowsBack, VS.RowsTaken;
    if entries == [] {
      RowsBackAre([], line);
      VS.RowsStep(map[], map[], [], line);
    } else {
      var n := |entries| - 1;
      TakenIs(entries[..n], line);
      RowsBackConcat(Flat(entries[..n], RETURN_LINES), entries[n].lines, line);
      RowsBackAre(entries[n].lines, line);
    }
  }

  /** After the sync a line's returns are those the server had other than those sent, and those sent. */
  lemma BackAfter(s: Server, ctr: Counter, o: Outbox, newId: Id -> Id, line: Id)
    requires Owned(ctr, o) && RowsAsSent(s.documents, o)
    ensures BackOf(Taken(s, ctr, o, newId).documents.returnLines, line)
         == TakenByOthers(s.documents.returnLines, line, ReturnIds(o.givenBack)).Plus(VS.Taken(o.givenBack, line))
  {
    hide Taken, PlaceCustomers, Owned, AsSent, LinesSent, ReturnIds, VS.Taken, WithCustomers, Insert, Flat, TableTotal, RowsTotal;
    TakenDocuments(s, ctr, o, newId);
    TakenIs(o.givenBack, line);
    PartInTwo(s.documents, ctr, o, line, BACK_QTY);
    PartInTwo(s.documents, ctr, o, line, BACK_TAXABLE);
    PartInTwo(s.documents, ctr, o, line, BACK_CGST);
    PartInTwo(s.documents, ctr, o, line, BACK_SGST);
    PartInTwo(s.documents, ctr, o, line, BACK_IGST);
  }

  // ----- What was sold

  lemma {:induction false} AddLinesConcat(sold: map<Id, VO.SoldLine>, a: seq<SaleLineRow>, b: seq<SaleLineRow>)
    ensures VO.AddLines(sold, a + b) == VO.AddLines(VO.AddLines(sold, a), b)
  {
    if b == [] {
      assert a + b == a;
    } else {
      assert (a + b)[..|a + b| - 1] == a + b[..|b| - 1];
      AddLinesConcat(sold, a, b[..|b| - 1]);
    }
  }

  lemma {:induction false} SoldLinesAre(server: map<Id, VO.SoldLine>, invoices: seq<InvoiceEntry>)
    ensures VO.SoldLines(server, invoices) == VO.AddLines(server, Flat(invoices, LINES))
  {
    hide VO.AddLines;
    if invoices == [] {
      NoLinesAdded(server);
    } else {
      var n := |invoices| - 1;
      SoldLinesAre(server, invoices[..n]);
      AddLinesConcat(server, Flat(invoices[..n], LINES), invoices[n].lines);
    }
  }

  lemma NoLinesAdded(server: map<Id, VO.SoldLine>)
    ensures VO.AddLines(server, []) == server
  {
  }

  predicate FromServer(server: map<Id, VO.SoldLine>, rows: seq<SaleLineRow>, line: Id, sold: VO.SoldLine) {
    line in server && sold == server[line] && forall row :: row in rows ==> row.id != line
  }

  lemma {:induction false} AddedLine(server: map<Id, VO.SoldLine>, rows: seq<SaleLineRow>, line: Id)
    ensures var sold := VO.AddLines(server, rows);
            line in sold ==> FromServer(server, rows, line, sold[line]) || exists row :: row in rows && row.id == line && sold[line] == VO.SoldOf(row)
    ensures (exists row :: row in rows && row.id == line) ==> line in VO.AddLines(server, rows)
  {
    hide VO.SoldOf;
    if rows != [] {
      var n := |rows| - 1;
      assert rows == rows[..n] + [rows[n]];
      AddedLine(server, rows[..n], line);
      assert rows[n] in rows;
    }
  }

  /** What the check takes as sold of a line is what the server has as sold of it afterwards. */
  lemma SoldAfter(s: Server, ctr: Counter, o: Outbox, newId: Id -> Id, line: Id)
    requires AsSent(s.documents.saleLines, SentLines(o), SALE_LINE_ID)
    requires line in VO.SoldLines(VerificationContext(s, o).serverLines, o.invoices)
    ensures var after := Taken(s, ctr, o, newId).documents.saleLines;
            line in after && VO.SoldLines(VerificationContext(s, o).serverLines, o.invoices)[line] == VO.SoldOf(after[line])
  {
    hide Taken, PlaceCustomers, WithCustomers, Insert, Flat, VO.SoldOf, ServerBills, VO.AddLines, VO.SoldLines, TakenByOthers, TableTotal;
    var server := VerificationContext(s, o).serverLines;
    TakenDocuments(s, ctr, o, newId);
    SettledBills(o.invoices, PlaceCustomers(s, ctr, o.customers).sameAs);
    InsertedAre(s.documents.saleLines, SentLines(o), SALE_LINE_ID);
    SoldLinesAre(server, o.invoices);
    AddedLine(server, SentLines(o), line);
    var after := Insert(s.documents.saleLines, SentLines(o), SALE_LINE_ID);
    if line !in s.documents.saleLines {
      var row :| row in SentLines(o) && row.id == line && VO.AddLines(server, SentLines(o))[line] == VO.SoldOf(row);
      DistinctSame(SentLines(o), SALE_LINE_ID, row, after[line]);
    }
  }

  // ----- What the check counts, and what it doesn't see

  ghost predicate IsSent(o: Outbox, line: Id) { exists row :: row in SentLines(o) && row.id == line }

  /** Returns the server has of a line whose bill is in the outbox, other than those sent: the check starts such a bill from nothing. */
  ghost function Unseen(s: Server, o: Outbox, line: Id): (r: VO.Parts) {
    if IsSent(o, line) then TakenByOthers(s.documents.returnLines, line, ReturnIds(o.givenBack)) else VO.NO_PARTS
  }

  /** What the check has counted of a line when it is through. */
  function Counted(s: Server, o: Outbox, line: Id): (r: VO.Parts) {
    VO.PartsAt(VerificationContext(s, o).serverReturned, line).Plus(VS.Taken(o.givenBack, line))
  }

  lemma SentNotServer(s: Server, ctr: Counter, o: Outbox, line: Id)
    requires Owned(ctr, o) && AsSent(s.documents.saleLines, SentLines(o), SALE_LINE_ID) && IsSent(o, line)
    ensures line !in VerificationContext(s, o).serverReturned
  {
    hide Flat, TakenByOthers, Owned, VO.SoldOf;
    OwnLines(ctr, o);
  }

  lemma ServerReturnedAre(s: Server, o: Outbox, line: Id)
    ensures var ctx := VerificationContext(s, o);
            && (line in ctx.serverLines <==> line in ctx.serverReturned)
            && (line in ctx.serverReturned ==> ctx.serverReturned[line] == TakenByOthers(s.documents.returnLines, line, ReturnIds(o.givenBack)))
  {
    hide Flat, TakenByOthers, VO.SoldOf, ReturnIds, ServerBills;
  }

  lemma MentionedIsSold(s: Server, ctr: Counter, o: Outbox, newId: Id -> Id, line: Id)
    requires Accepts(s, ctr, o, newId) && VS.Mentioned(o.givenBack, line)
    ensures var sold := VO.SoldLines(VerificationContext(s, o).serverLines, o.invoices);
            line in sold && Counted(s, o, line).WithinSold(sold[line].parts)
  {
    hide Accepts, Prepare, VO.Conflicts, VerificationContext, VS.Mentioned, Flat, VO.SoldLines, VS.Taken, VO.AddLines, VO.Parts.WithinSold, VO.Parts.Plus;
    NothingClashes(s, ctr, o, newId);
    var p, ctx := Prepare(s, ctr, o, newId), VerificationContext(s, o);
    PreparedRows(s, ctr, o, newId);
    MentionedCut(o.givenBack, p.givenBack, line);
    VS.ReturnsAreWithinSold(ctx, p.invoices, p.givenBack, line);
    SoldLinesAre(ctx.serverLines, p.invoices);
    SoldLinesAre(ctx.serverLines, o.invoices);
    TakenIs(p.givenBack, line);
    TakenIs(o.givenBack, line);
  }

  lemma PreparedRows(s: Server, ctr: Counter, o: Outbox, newId: Id -> Id)
    ensures var p := Prepare(s, ctr, o, newId);
            && |p.givenBack| == |o.givenBack| && (forall k :: 0 <= k < |o.givenBack| ==> p.givenBack[k].lines == o.givenBack[k].lines)
            && (forall k :: 0 <= k < |o.givenBack| ==> p.givenBack[k].ret == o.givenBack[k].ret)
            && |p.invoices| == |o.invoices|
            && (forall k :: 0 <= k < |o.invoices| ==> p.invoices[k].invoice.id == o.invoices[k].invoice.id)
            && (forall k :: 0 <= k < |o.invoices| ==> p.invoices[k].invoice.roundOff == o.invoices[k].invoice.roundOff)
            && Flat(p.invoices, LINES) == SentLines(o) && Flat(p.givenBack, RETURN_LINES) == SentBack(o)
  {
    hide PlaceCustomers, PlaceRows, Ordered, Split, Flat;
    var p := Prepare(s, ctr, o, newId);
    FlatSame(p.invoices, o.invoices, LINES);
    FlatSame(p.givenBack, o.givenBack, RETURN_LINES);
  }

  lemma MentionedCut(a: seq<ReturnEntry>, b: seq<ReturnEntry>, line: Id)
    requires |a| == |b| && forall k :: 0 <= k < |a| ==> b[k].lines == a[k].lines
    ensures VS.Mentioned(a, line) <==> VS.Mentioned(b, line)
  {
    hide VS.MentionedIn;
    if VS.Mentioned(a, line) {
      var k :| 0 <= k < |a| && VS.MentionedIn(a[k].lines, line);
      assert VS.MentionedIn(b[k].lines, line);
    }
    if VS.Mentioned(b, line) {
      var k :| 0 <= k < |b| && VS.MentionedIn(b[k].lines, line);
      assert VS.MentionedIn(a[k].lines, line);
    }
  }

  /**
   * An outbox taken that gives a line back: what the check counted of it is within what was sold, and the server's
   * tables have that and what the check doesn't see, so the check saw all if and only if no other return on the
   * server is of a line sent.
   */
  lemma ReturnsAfter(s: Server, ctr: Counter, o: Outbox, newId: Id -> Id, line: Id)
    requires Accepts(s, ctr, o, newId) && RowsAsSent(s.documents, o) && VS.Mentioned(o.givenBack, line)
    ensures var after := Taken(s, ctr, o, newId).documents;
            && line in after.saleLines
            && Counted(s, o, line).WithinSold(VO.SoldOf(after.saleLines[line]).parts)
            && BackOf(after.returnLines, line) == Counted(s, o, line).Plus(Unseen(s, o, line))
            && (BackOf(after.returnLines, line) == Counted(s, o, line) <==> Unseen(s, o, line) == VO.NO_PARTS)
  {
    hide Accepts, Taken, VerificationContext, TakenByOthers, VS.Taken, Owned, AsSent, LinesSent, IsSent, VO.SoldLines, VO.SoldOf,
      VS.Mentioned, Flat, VO.Parts.WithinSold, VO.AddLines;
    AcceptedOwned(s, ctr, o, newId);
    MentionedIsSold(s, ctr, o, newId, line);
    SoldAfter(s, ctr, o, newId, line);
    BackAfter(s, ctr, o, newId, line);
    ServerReturnedAre(s, o, line);
    if IsSent(o, line) {
      SentNotServer(s, ctr, o, line);
    } else {
      SoldLinesAre(VerificationContext(s, o).serverLines, o.invoices);
      AddedLine(VerificationContext(s, o).serverLines, SentLines(o), line);
      NotSentRow(o, line);
    }
  }

  lemma NotSentRow(o: Outbox, line: Id)
    requires !IsSent(o, line)
    ensures forall row :: row in SentLines(o) ==> row.id != line
  {
  }

  // ----- Every line of the server

  /** Of no line more has come back than was sold, nor a part of its money by more than a paisa. */
  ghost predicate WithinSoldAll(d: Documents) {
    forall line :: line in d.saleLines ==> LineWithinSold(d, line)
  }

  ghost predicate LineWithinSold(d: Documents, line: Id)
    requires line in d.saleLines
  {
    BackOf(d.returnLines, line) == VO.NO_PARTS || BackOf(d.returnLines, line).WithinSold(VO.SoldOf(d.saleLines[line]).parts)
  }

  /** No return on the server, other than those sent, is of a line of a bill sent. */
  ghost predicate NoOtherReturns(d: Documents, o: Outbox) {
    forall id :: id in d.returnLines && IsSent(o, d.returnLines[id].saleLineId) ==> d.returnLines[id].returnId in ReturnIds(o.givenBack)
  }

  lemma {:induction false} NoneTaken(rows: map<Id, ReturnLineRow>, line: Id, but: set<Id>)
    requires forall id :: id in rows && rows[id].saleLineId == line ==> rows[id].returnId in but
    ensures TakenByOthers(rows, line, but) == VO.NO_PARTS
  {
    hide TableTotal;
    forall part: ReturnLineRow -> int ensures TableTotal(rows, PartOf(line, but, part)) == 0 {
      TotalExtra(map[], rows, PartOf(line, but, part));
      TotalNone<ReturnLineRow>(PartOf(line, but, part));
    }
  }

  lemma NothingUnseen(s: Server, o: Outbox, line: Id)
    requires NoOtherReturns(s.documents, o)
    ensures Unseen(s, o, line) == VO.NO_PARTS
  {
    hide TakenByOthers, IsSent, ReturnIds;
    if IsSent(o, line) { NoneTaken(s.documents.returnLines, line, ReturnIds(o.givenBack)); }
  }

  lemma {:induction false} TotalAtLeast<R>(table: map<Key, R>, w: R -> int, id: Key)
    requires id in table && forall other :: other in table ==> w(table[other]) >= 0
    ensures TableTotal(table, w) >= w(table[id])
  {
    TotalWithout(table, w, id);
    TotalNonNegative(table - {id}, w);
  }

  lemma {:induction false} TotalNonNegative<R>(table: map<Key, R>, w: R -> int)
    requires forall id :: id in table ==> w(table[id]) >= 0
    ensures TableTotal(table, w) >= 0
    decreases |table.Keys|
  {
    if table != map[] {
      EmptyKeys(table);
      var id := Smallest(table.Keys);
      FewerKeys(table, id);
      TotalNonNegative(table - {id}, w);
    }
  }

  /** Nothing is unseen of any line if and only if no return on the server, other than those sent, is of a line of a bill sent. */
  lemma AllSeen(s: Server, o: Outbox)
    requires forall id :: id in s.documents.returnLines ==> s.documents.returnLines[id].qty > 0
    ensures (forall line :: Unseen(s, o, line) == VO.NO_PARTS) <==> NoOtherReturns(s.documents, o)
  {
    hide TableTotal, IsSent, ReturnIds;
    var d, but := s.documents, ReturnIds(o.givenBack);
    if NoOtherReturns(d, o) {
      forall line ensures Unseen(s, o, line) == VO.NO_PARTS { NothingUnseen(s, o, line); }
    }
    forall id | id in d.returnLines && IsSent(o, d.returnLines[id].saleLineId) && d.returnLines[id].returnId !in but
      ensures Unseen(s, o, d.returnLines[id].saleLineId) != VO.NO_PARTS
    {
      TotalAtLeast(d.returnLines, PartOf(d.returnLines[id].saleLineId, but, BACK_QTY), id);
    }
  }

  lemma {:induction false} NotMentionedTakes(entries: seq<ReturnEntry>, line: Id)
    requires !VS.Mentioned(entries, line)
    ensures VS.Taken(entries, line) == VO.NO_PARTS
  {
    hide VS.Mentioned, VS.MentionedIn, VS.RowsTaken, VS.Taken, VO.Parts.Plus;
    VS.TakenStep(entries, line);
    VS.PlusNone(VO.NO_PARTS);
    if entries != [] {
      VS.MentionedLastReturn(entries, line);
      NotMentionedTakes(entries[..|entries| - 1], line);
      VS.NotTaken(entries[|entries| - 1].lines, line);
    }
  }

  /** With nothing sent of the line, its returns are what they were. */
  lemma LeftAlone(s: Server, ctr: Counter, o: Outbox, newId: Id -> Id, line: Id)
    requires Owned(ctr, o) && RowsAsSent(s.documents, o) && !VS.Mentioned(o.givenBack, line)
    ensures BackOf(Taken(s, ctr, o, newId).documents.returnLines, line) == BackOf(s.documents.returnLines, line)
  {
    hide Taken, TakenByOthers, VS.Taken, Owned, AsSent, LinesSent, VS.Mentioned, ReturnIds;
    BackAfter(s, ctr, o, newId, line);
    NotMentionedTakes(o.givenBack, line);
    SameWithout(s.documents, o, line);
  }

  lemma SameWithout(d: Documents, o: Outbox, line: Id)
    requires LinesSent(d.returnLines, o) && !VS.Mentioned(o.givenBack, line)
    ensures TakenByOthers(d.returnLines, line, ReturnIds(o.givenBack)) == BackOf(d.returnLines, line)
  {
    hide TableTotal, Flat, VS.Mentioned, ReturnIds;
    var but := ReturnIds(o.givenBack);
    forall id | id in d.returnLines && d.returnLines[id].returnId in but ensures d.returnLines[id].saleLineId != line {
      MentionedRow(o, line, d.returnLines[id]);
    }
    forall part: ReturnLineRow -> int ensures TableTotal(d.returnLines, PartOf(line, but, part)) == TableTotal(d.returnLines, PartOf(line, {}, part)) {
      TotalSame(d.returnLines, PartOf(line, but, part), PartOf(line, {}, part));
    }
  }

  lemma MentionedRow(o: Outbox, line: Id, row: ReturnLineRow)
    requires row in SentBack(o)
    ensures row.saleLineId == line ==> VS.Mentioned(o.givenBack, line)
  {
    hide Flat;
    FromFlat(o.givenBack, RETURN_LINES, row);
    var k :| 0 <= k < |o.givenBack| && row in RETURN_LINES(o.givenBack[k]);
    var i :| 0 <= i < |o.givenBack[k].lines| && o.givenBack[k].lines[i] == row;
    if row.saleLineId == line { assert VS.MentionedIn(o.givenBack[k].lines, line); }
  }

  /**
   * On the server's own tables: of no sale line has more come back after a sync than was sold, nor any part of its
   * money by more than a paisa, if that held before and no return on the server, other than those sent, is of a
   * line of a bill sent.
   */
  lemma EveryLineWithinSold(s: Server, ctr: Counter, o: Outbox, newId: Id -> Id)
    requires Accepts(s, ctr, o, newId) && RowsAsSent(s.documents, o)
    requires WithinSoldAll(s.documents) && NoOtherReturns(s.documents, o)
    ensures WithinSoldAll(Taken(s, ctr, o, newId).documents)
  {
    hide Accepts, Taken, RowsAsSent, NoOtherReturns, VS.Mentioned, BackOf, VO.SoldOf, Owned, Counted, Unseen;
    var after := Taken(s, ctr, o, newId).documents;
    AcceptedOwned(s, ctr, o, newId);
    ServerLinesStay(s, ctr, o, newId);
    forall line | line in after.saleLines ensures LineWithinSold(after, line) {
      if VS.Mentioned(o.givenBack, line) {
        ReturnsAfter(s, ctr, o, newId, line);
        NothingUnseen(s, o, line);
      } else {
        LeftAlone(s, ctr, o, newId, line);
        if line !in s.documents.saleLines { NewLine(s, ctr, o, newId, line); }
      }
    }
  }

  lemma ServerLinesStay(s: Server, ctr: Counter, o: Outbox, newId: Id -> Id)
    requires Owned(ctr, o)
    ensures var d, after := s.documents, Taken(s, ctr, o, newId).documents;
            forall line :: line in d.saleLines ==> line in after.saleLines && after.saleLines[line] == d.saleLines[line]
  {
    hide Taken, Owned, Flat, BillIds, ReturnIds;
    ResentOutbox.SentLines(s, ctr, o, newId);
  }

  lemma NewLine(s: Server, ctr: Counter, o: Outbox, newId: Id -> Id, line: Id)
    requires Accepts(s, ctr, o, newId) && RowsAsSent(s.documents, o) && NoOtherReturns(s.documents, o) && !VS.Mentioned(o.givenBack, line)
    requires line in Taken(s, ctr, o, newId).documents.saleLines && line !in s.documents.saleLines
    ensures BackOf(s.documents.returnLines, line) == VO.NO_PARTS
  {
    hide Accepts, Taken, VS.Mentioned, TakenByOthers, Flat, WithCustomers, Insert, AsSent, ReturnIds, PlaceCustomers;
    TakenDocuments(s, ctr, o, newId);
    SettledBills(o.invoices, PlaceCustomers(s, ctr, o.customers).sameAs);
    InsertedAre(s.documents.saleLines, SentLines(o), SALE_LINE_ID);
    var row := Insert(s.documents.saleLines, SentLines(o), SALE_LINE_ID)[line];
    assert row in SentLines(o) && row.id == line;
    SameWithout(s.documents, o, line);
    NoneTaken(s.documents.returnLines, line, ReturnIds(o.givenBack));
  }

  // ----- The round-off

  /** All the round-off that returns in a table took back of a bill. */
  function RoundOffBack(rows: map<Id, ReturnRow>, bill: Id): (r: int) { TableTotal(rows, RoundingOf(bill, {})) }

  /** Returns, and the round-off of bills, never change once made. */
  ghost predicate HeadsAsSent(d: Documents, o: Outbox) {
    && AsSent(d.givenBack, ReturnHeads(o.givenBack), RETURN_ID)
    && (forall id :: id in d.givenBack ==> d.givenBack[id].id == id)
    && DistinctKeys(Heads(o.invoices), INVOICE_ID)
    && (forall entry :: entry in o.invoices && entry.invoice.id in d.invoices ==> d.invoices[entry.invoice.id].roundOff == entry.invoice.roundOff)
  }

  lemma {:induction false} RoundingTakenIs(entries: seq<ReturnEntry>, bill: Id)
    ensures VS.RoundingTaken(entries, bill) == RowsTotal(ReturnHeads(entries), RoundingOf(bill, {}))
  {
    if entries != [] {
      var n := |entries| - 1;
      RoundingTakenIs(entries[..n], bill);
      assert ReturnHeads(entries)[..n] == ReturnHeads(entries[..n]);
    }
  }

  lemma RoundOffAfter(s: Server, ctr: Counter, o: Outbox, newId: Id -> Id, bill: Id)
    requires HeadsAsSent(s.documents, o)
    ensures RoundOffBack(Taken(s, ctr, o, newId).documents.givenBack, bill)
         == TableTotal(s.documents.givenBack, RoundingOf(bill, ReturnIds(o.givenBack))) + VS.RoundingTaken(o.givenBack, bill)
  {
    hide Taken, PlaceCustomers, TableTotal, Insert, RowsTotal, WithCustomers, ReturnHeads, ReturnIds, VS.RoundingTaken;
    var d, but := s.documents, ReturnIds(o.givenBack);
    TakenDocuments(s, ctr, o, newId);
    ReturnHeadIds(o.givenBack);
    var others := set id | id in d.givenBack && id !in but;
    forall id | id in d.givenBack && id !in others ensures d.givenBack[id] in ReturnHeads(o.givenBack) && d.givenBack[id].id == id {
      var row :| row in ReturnHeads(o.givenBack) && row.id == id;
    }
    TotalInTwo(d.givenBack, ReturnHeads(o.givenBack), RETURN_ID, others, RoundingOf(bill, but), RoundingOf(bill, {}));
    RoundingTakenIs(o.givenBack, bill);
  }

  ghost predicate IsSentBill(o: Outbox, bill: Id) { exists entry :: entry in o.invoices && entry.invoice.id == bill }

  /** Round-off taken back by returns the server has of a bill in the outbox, other than those sent. */
  ghost function UnseenRoundOff(s: Server, o: Outbox, bill: Id): (r: int) {
    if IsSentBill(o, bill) then TableTotal(s.documents.givenBack, RoundingOf(bill, ReturnIds(o.givenBack))) else 0
  }

  lemma {:induction false} StartRoundingIs(server: map<Id, VO.BillRounding>, invoices: seq<InvoiceEntry>, bill: Id)
    ensures var start := VO.StartRounding(server, invoices);
            if exists k :: 0 <= k < |invoices| && invoices[k].invoice.id == bill then
              bill in start && exists k :: 0 <= k < |invoices| && invoices[k].invoice.id == bill
                                        && start[bill] == VO.BillRounding(invoices[k].invoice.roundOff, 0)
            else (bill in start <==> bill in server) && (bill in start ==> start[bill] == server[bill])
  {
    if invoices != [] {
      var n := |invoices| - 1;
      StartRoundingIs(server, invoices[..n], bill);
      if exists k :: 0 <= k < n && invoices[..n][k].invoice.id == bill {
        var k :| 0 <= k < n && invoices[..n][k].invoice.id == bill
              && VO.StartRounding(server, invoices[..n])[bill] == VO.BillRounding(invoices[..n][k].invoice.roundOff, 0);
        assert invoices[k].invoice.id == bill;
      }
    }
  }

  /** What the check starts a bill's round-off from, and what the server has of the bill afterwards. */
  lemma StartOf(s: Server, ctr: Counter, o: Outbox, newId: Id -> Id, bill: Id)
    requires HeadsAsSent(s.documents, o)
    requires bill in VO.StartRounding(VerificationContext(s, o).serverRounding, Prepare(s, ctr, o, newId).invoices)
    ensures var after, start := Taken(s, ctr, o, newId).documents, VO.StartRounding(VerificationContext(s, o).serverRounding, Prepare(s, ctr, o, newId).invoices)[bill];
            && bill in after.invoices && after.invoices[bill].roundOff == start.roundOff
            && start.returned + UnseenRoundOff(s, o, bill) == TableTotal(s.documents.givenBack, RoundingOf(bill, ReturnIds(o.givenBack)))
  {
    hide Taken, PlaceCustomers, TableTotal, Prepare, WithCustomers, ReturnIds, VO.StartRounding, TakenByOthers;
    var p := Prepare(s, ctr, o, newId);
    PreparedRows(s, ctr, o, newId);
    StartRoundingIs(VerificationContext(s, o).serverRounding, p.invoices, bill);
    if IsSentBill(o, bill) {
      var entry :| entry in o.invoices && entry.invoice.id == bill;
      var j :| 0 <= j < |o.invoices| && o.invoices[j] == entry;
      assert p.invoices[j].invoice.id == bill;
      var k :| 0 <= k < |p.invoices| && p.invoices[k].invoice.id == bill
            && VO.StartRounding(VerificationContext(s, o).serverRounding, p.invoices)[bill] == VO.BillRounding(p.invoices[k].invoice.roundOff, 0);
      SentBill(s, ctr, o, newId, k);
    } else {
      forall k | 0 <= k < |p.invoices| ensures p.invoices[k].invoice.id != bill {
        assert o.invoices[k] in o.invoices;
      }
      SentDocuments(s, ctr, o, newId);
    }
  }

  lemma SentBill(s: Server, ctr: Counter, o: Outbox, newId: Id -> Id, k: nat)
    requires HeadsAsSent(s.documents, o) && k < |o.invoices|
    ensures var after, row := Taken(s, ctr, o, newId).documents, o.invoices[k].invoice;
            row.id in after.invoices && after.invoices[row.id].roundOff == row.roundOff
  {
    hide Taken, PlaceCustomers, Insert, AsSent, WithCustomers, Heads;
    TakenDocuments(s, ctr, o, newId);
    var settled := WithCustomers(o.invoices, PlaceCustomers(s, ctr, o.customers).sameAs);
    InsertedAre(s.documents.invoices, Heads(settled), INVOICE_ID);
    SettledHead(o.invoices, PlaceCustomers(s, ctr, o.customers).sameAs, k);
    assert o.invoices[k] in o.invoices;
  }

  lemma SettledHead(invoices: seq<InvoiceEntry>, sameAs: map<Id, Id>, k: nat)
    requires DistinctKeys(Heads(invoices), INVOICE_ID) && k < |invoices|
    ensures var heads := Heads(WithCustomers(invoices, sameAs));
            && (exists row :: row in heads && row.id == invoices[k].invoice.id)
            && forall row :: row in heads && row.id == invoices[k].invoice.id ==> row.roundOff == invoices[k].invoice.roundOff
  {
    var heads := Heads(WithCustomers(invoices, sameAs));
    assert heads[k] in heads;
    forall row | row in heads && row.id == invoices[k].invoice.id ensures row.roundOff == invoices[k].invoice.roundOff {
      var i :| 0 <= i < |heads| && heads[i] == row;
      assert Heads(invoices)[i].id == Heads(invoices)[k].id;
    }
  }

  /**
   * An outbox taken that gives goods of a bill back: each of its returns reverses the bill's round-off in its own
   * direction, and on the server's tables no more of it is reversed than there is, but for what the check doesn't
   * see: returns the server has of a bill sent, other than those sent.
   */
  lemma RoundOffsAfter(s: Server, ctr: Counter, o: Outbox, newId: Id -> Id, k: nat)
    requires Accepts(s, ctr, o, newId) && HeadsAsSent(s.documents, o) && k < |o.givenBack|
    ensures var bill, after := o.givenBack[k].ret.saleInvoiceId, Taken(s, ctr, o, newId).documents;
            && bill in after.invoices
            && o.givenBack[k].ret.roundOff * after.invoices[bill].roundOff >= 0
            && Abs(RoundOffBack(after.givenBack, bill) - UnseenRoundOff(s, o, bill)) <= Abs(after.invoices[bill].roundOff)
  {
    hide Accepts, Taken, Prepare, VerificationContext, VO.StartRounding, HeadsAsSent, VS.RoundingTaken, TableTotal, ReturnIds, IsSentBill;
    var bill := o.givenBack[k].ret.saleInvoiceId;
    CheckedRoundOff(s, ctr, o, newId, k);
    StartOf(s, ctr, o, newId, bill);
    RoundOffAfter(s, ctr, o, newId, bill);
  }

  lemma CheckedRoundOff(s: Server, ctr: Counter, o: Outbox, newId: Id -> Id, k: nat)
    requires Accepts(s, ctr, o, newId) && k < |o.givenBack|
    ensures var bill, start := o.givenBack[k].ret.saleInvoiceId, VO.StartRounding(VerificationContext(s, o).serverRounding, Prepare(s, ctr, o, newId).invoices);
            && bill in start && o.givenBack[k].ret.roundOff * start[bill].roundOff >= 0
            && Abs(start[bill].returned + VS.RoundingTaken(o.givenBack, bill)) <= Abs(start[bill].roundOff)
  {
    hide Accepts, Prepare, VO.Conflicts, VerificationContext, VO.StartRounding, VS.RoundingTaken, BatchClashes, NumberClashes, MissingClashes,
      ReturnClashes, Flat;
    NothingClashes(s, ctr, o, newId);
    var p := Prepare(s, ctr, o, newId);
    PreparedRows(s, ctr, o, newId);
    BillIsThere(s, ctr, o, newId, k);
    VS.RoundOffIsWithinBill(VerificationContext(s, o), p.invoices, p.givenBack, k);
    SameRoundingTaken(o.givenBack, p.givenBack, o.givenBack[k].ret.saleInvoiceId);
  }

  lemma {:induction false} SameRoundingTaken(a: seq<ReturnEntry>, b: seq<ReturnEntry>, bill: Id)
    requires |a| == |b| && forall k :: 0 <= k < |a| ==> b[k].ret == a[k].ret
    ensures VS.RoundingTaken(a, bill) == VS.RoundingTaken(b, bill)
  {
    if a != [] { SameRoundingTaken(a[..|a| - 1], b[..|b| - 1], bill); }
  }

  lemma BillIsThere(s: Server, ctr: Counter, o: Outbox, newId: Id -> Id, k: nat)
    requires Accepts(s, ctr, o, newId) && k < |o.givenBack|
    ensures o.givenBack[k].ret.saleInvoiceId in VO.StartRounding(VerificationContext(s, o).serverRounding, Prepare(s, ctr, o, newId).invoices)
  {
    hide Accepts, Prepare, VerificationContext, VO.StartRounding, BillIds, Owned, UniqueNumbers, Taken, ServerBillsAreOwn, Flat;
    AcceptedOwned(s, ctr, o, newId);
    PreparedRows(s, ctr, o, newId);
    BillKnown(s, ctr, o, k);
    StartHas(VerificationContext(s, o).serverRounding, o.invoices, Prepare(s, ctr, o, newId).invoices, o.givenBack[k].ret.saleInvoiceId);
  }

  lemma StartHas(server: map<Id, VO.BillRounding>, sent: seq<InvoiceEntry>, prepared: seq<InvoiceEntry>, bill: Id)
    requires |prepared| == |sent| && forall k :: 0 <= k < |sent| ==> prepared[k].invoice.id == sent[k].invoice.id
    requires bill in BillIds(sent) || bill in server
    ensures bill in VO.StartRounding(server, prepared)
  {
    hide VO.StartRounding;
    StartRoundingIs(server, prepared, bill);
    if bill in BillIds(sent) {
      var entry :| entry in sent && entry.invoice.id == bill;
      var j :| 0 <= j < |sent| && sent[j] == entry;
      assert prepared[j].invoice.id == bill;
    }
  }

  lemma BillKnown(s: Server, ctr: Counter, o: Outbox, k: nat)
    requires ServerBillsAreOwn(s.documents, ctr, o) && k < |o.givenBack|
    ensures var bill := o.givenBack[k].ret.saleInvoiceId; bill in BillIds(o.invoices) || bill in VerificationContext(s, o).serverRounding
  {
    hide BillIds, TakenByOthers, RoundingOf, TableTotal;
    assert o.givenBack[k] in o.givenBack;
    if o.givenBack[k].ret.saleInvoiceId !in BillIds(o.invoices) { assert o.givenBack[k].ret.saleInvoiceId in ServerBills(o); }
  }

  /** No return on the server, other than those sent, is of a bill sent. */
  ghost predicate NoOtherBillsReturns(d: Documents, o: Outbox) {
    forall id :: id in d.givenBack && IsSentBill(o, d.givenBack[id].saleInvoiceId) ==> id in ReturnIds(o.givenBack)
  }

  lemma RoundOffSeen(s: Server, o: Outbox, bill: Id)
    requires HeadsAsSent(s.documents, o) && NoOtherBillsReturns(s.documents, o)
    ensures UnseenRoundOff(s, o, bill) == 0
  {
    hide TableTotal, IsSentBill, ReturnIds, AsSent;
    if IsSentBill(o, bill) {
      var w := RoundingOf(bill, ReturnIds(o.givenBack));
      TotalExtra(map[], s.documents.givenBack, w);
      TotalNone<ReturnRow>(w);
    }
  }

  /** Of no bill's round-off is more taken back than there is. */
  ghost predicate WithinRoundOffs(d: Documents) {
    forall bill :: bill in d.invoices ==> Abs(RoundOffBack(d.givenBack, bill)) <= Abs(d.invoices[bill].roundOff)
  }

  ghost predicate GivenBack(entries: seq<ReturnEntry>, bill: Id) { exists k :: 0 <= k < |entries| && entries[k].ret.saleInvoiceId == bill }

  lemma {:induction false} NoRoundingTaken(entries: seq<ReturnEntry>, bill: Id)
    requires forall k :: 0 <= k < |entries| ==> entries[k].ret.saleInvoiceId != bill
    ensures VS.RoundingTaken(entries, bill) == 0
  {
    if entries != [] { NoRoundingTaken(entries[..|entries| - 1], bill); }
  }

  lemma RoundOffLeftAlone(s: Server, ctr: Counter, o: Outbox, newId: Id -> Id, bill: Id)
    requires HeadsAsSent(s.documents, o) && !GivenBack(o.givenBack, bill)
    ensures RoundOffBack(Taken(s, ctr, o, newId).documents.givenBack, bill) == RoundOffBack(s.documents.givenBack, bill)
  {
    hide Taken, TableTotal, ReturnIds, VS.RoundingTaken;
    RoundOffAfter(s, ctr, o, newId, bill);
    NoRoundingTaken(o.givenBack, bill);
    var table, but := s.documents.givenBack, ReturnIds(o.givenBack);
    ReturnHeadIds(o.givenBack);
    forall id | id in table && table[id].id in but ensures table[id].saleInvoiceId != bill {
      var row :| row in ReturnHeads(o.givenBack) && row.id == id;
      var k :| 0 <= k < |o.givenBack| && ReturnHeads(o.givenBack)[k] == row;
      assert o.givenBack[k].ret.saleInvoiceId != bill;
    }
    TotalSame(table, RoundingOf(bill, but), RoundingOf(bill, {}));
  }

  lemma NotGivenBack(s: Server, ctr: Counter, o: Outbox, newId: Id -> Id, bill: Id)
    requires HeadsAsSent(s.documents, o) && WithinRoundOffs(s.documents) && NoOtherBillsReturns(s.documents, o)
    requires !GivenBack(o.givenBack, bill) && bill in Taken(s, ctr, o, newId).documents.invoices
    ensures Abs(RoundOffBack(Taken(s, ctr, o, newId).documents.givenBack, bill)) <= Abs(Taken(s, ctr, o, newId).documents.invoices[bill].roundOff)
  {
    hide Taken, TableTotal, ReturnIds, GivenBack, AsSent, IsSentBill;
    RoundOffLeftAlone(s, ctr, o, newId, bill);
    SentDocuments(s, ctr, o, newId);
    if bill !in s.documents.invoices {
      var w := RoundingOf(bill, {});
      NewBill(s.documents, o, bill);
      TotalExtra(map[], s.documents.givenBack, w);
      TotalNone<ReturnRow>(w);
    }
  }

  /** A bill sent that nothing sent is of, and no other return either: nothing on the server is of it. */
  lemma NewBill(d: Documents, o: Outbox, bill: Id)
    requires HeadsAsSent(d, o) && NoOtherBillsReturns(d, o) && !GivenBack(o.givenBack, bill) && bill in BillIds(o.invoices)
    ensures forall id :: id in d.givenBack ==> d.givenBack[id].saleInvoiceId != bill
  {
    assert IsSentBill(o, bill);
    ReturnHeadIds(o.givenBack);
    forall id | id in d.givenBack && id in ReturnIds(o.givenBack) ensures d.givenBack[id].saleInvoiceId != bill {
      var row :| row in ReturnHeads(o.givenBack) && row.id == id;
      var k :| 0 <= k < |o.givenBack| && ReturnHeads(o.givenBack)[k] == row;
      assert o.givenBack[k].ret.saleInvoiceId != bill;
    }
  }

  /**
   * On the server's own tables: of no bill's round-off is more taken back after a sync than there is, if that held
   * before and no return on the server, other than those sent, is of a bill sent.
   */
  lemma EveryRoundOffWithin(s: Server, ctr: Counter, o: Outbox, newId: Id -> Id)
    requires Accepts(s, ctr, o, newId) && HeadsAsSent(s.documents, o)
    requires WithinRoundOffs(s.documents) && NoOtherBillsReturns(s.documents, o)
    ensures WithinRoundOffs(Taken(s, ctr, o, newId).documents)
  {
    hide Accepts, Taken, HeadsAsSent, NoOtherBillsReturns, RoundOffBack, UnseenRoundOff;
    var after := Taken(s, ctr, o, newId).documents;
    forall bill | bill in after.invoices ensures Abs(RoundOffBack(after.givenBack, bill)) <= Abs(after.invoices[bill].roundOff) {
      if GivenBack(o.givenBack, bill) {
        var k :| 0 <= k < |o.givenBack| && o.givenBack[k].ret.saleInvoiceId == bill;
        RoundOffsAfter(s, ctr, o, newId, k);
        RoundOffSeen(s, o, bill);
      } else {
        NotGivenBack(s, ctr, o, newId, bill);
      }
    }
  }
}
