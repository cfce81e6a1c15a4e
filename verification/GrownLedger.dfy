/**
 * The ledger and the stock after an outbox is sent, and sent again with later movements: the same as
 * after sending the grown outbox alone.
 */
module GrownLedger {
  import opened BatchShortfalls
  import opened Cuts
  import opened GrownPlacing
  import opened GrownStock
  import opened OutboxRows
  import opened ServerTables
  import opened Tables

  lemma InsertHas(table: map<Id, LedgerRow>, rows: seq<LedgerRow>, id: Id)
    requires DistinctKeys(rows, LEDGER_ID)
    ensures id in table ==> id in Insert(table, rows, LEDGER_ID) && Insert(table, rows, LEDGER_ID)[id] == table[id]
    ensures id !in table ==>
              (id in Insert(table, rows, LEDGER_ID) <==> exists row :: row in rows && row.id == id)
              && forall row :: row in rows && row.id == id ==> id in Insert(table, rows, LEDGER_ID) && Insert(table, rows, LEDGER_ID)[id] == row
  {
    ByIdHolds(rows, LEDGER_ID);
    var found := ById(rows, LEDGER_ID);
    if id !in table {
      forall row | row in rows && row.id == id ensures id in found && found[id] == row {
        DistinctSame(rows, LEDGER_ID, found[id], row);
      }
    }
  }

  /** A later ledger keeps an earlier one's rows, and the others do nothing to a batch. */
  lemma UnbatchedExtra(table: map<Id, LedgerRow>, some: seq<LedgerRow>, all: seq<LedgerRow>, key: BatchKey)
    requires DistinctKeys(some, LEDGER_ID) && DistinctKeys(all, LEDGER_ID)
    requires forall piece :: piece in some ==> piece in all
    requires forall piece :: piece in all ==> piece in some || piece.id in table || piece.batchId.None?
    ensures TableTotal(Insert(table, all, LEDGER_ID), BatchMoves(key)) == TableTotal(Insert(table, some, LEDGER_ID), BatchMoves(key))
  {
    hide TableTotal, Insert, DistinctKeys;
    var small, big := Insert(table, some, LEDGER_ID), Insert(table, all, LEDGER_ID);
    forall id | id in small ensures id in big && big[id] == small[id] {
      InsertHas(table, some, id);
      InsertHas(table, all, id);
    }
    forall id | id in big && id !in small ensures BatchMoves(key)(big[id]) == 0 {
      InsertHas(table, some, id);
      InsertHas(table, all, id);
      var piece :| piece in all && piece.id == id;
    }
    TotalExtra(small, big, BatchMoves(key));
  }

  /** After the first movements are recorded, a batch's stock is what placing them left of it. */
  lemma StockLeft(st: Stock, ctx: BatchContext, invoices: seq<InvoiceEntry>, givenBack: seq<ReturnEntry>, key: BatchKey)
    requires ctx.known == st.ledger.Keys && ctx.stock == st.batches
    requires DistinctIds(Movements(invoices, givenBack)) && NewIdsApart(ctx.newId, ctx.known, Movements(invoices, givenBack))
    requires Placeable(ctx, Ordered(ctx, invoices, givenBack))
    ensures var p := PlaceRows(ctx, Ordered(ctx, invoices, givenBack));
            At(RecordAll(st, Split(p.replaced, Movements(invoices, givenBack))).batches, key, 0) == OnHand(ctx, p, key)
  {
    hide TableTotal, Insert, RecordAll, PlaceRows, Ordered, Movements, DistinctIds, DistinctKeys, CutWell, Split, NewIdsApart, Placeable, BatchMoves;
    var ordered, rows := Ordered(ctx, invoices, givenBack), Movements(invoices, givenBack);
    var replaced := PlaceRows(ctx, ordered).replaced;
    var some, all := Split(replaced, ordered), Split(replaced, rows);
    OrderedDistinct(ctx, invoices, givenBack);
    OrderedApart(ctx, invoices, givenBack);
    PlacedCutWell(ctx, ordered);
    PiecesDistinct(replaced, ctx.newId, ctx.known, ordered);
    PiecesDistinct(replaced, ctx.newId, ctx.known, rows);
    forall piece: LedgerRow ensures piece in some ==> piece in all && piece.id !in st.ledger
                 ensures piece in all ==> piece in some || piece.id in st.ledger || piece.batchId.None?
    {
      PlacedPieces(ctx, invoices, givenBack, piece);
      PiecesUnrecorded(ctx, invoices, givenBack, piece);
    }
    UnbatchedExtra(st.ledger, some, all, key);
    assert forall i :: 0 <= i < |some| ==> some[i] in some;
    TotalOfInserted(st.ledger, some, LEDGER_ID, BatchMoves(key));
    PlacedMoves(ctx, ordered, key);
    StockFollowsLedger(st, all, ItemKey(0, 0), key);
    RecordedLedger(st, all);
  }

  lemma OrderedApart(ctx: BatchContext, invoices: seq<InvoiceEntry>, givenBack: seq<ReturnEntry>)
    requires NewIdsApart(ctx.newId, ctx.known, Movements(invoices, givenBack))
    ensures NewIdsApart(ctx.newId, ctx.known, Ordered(ctx, invoices, givenBack))
  {
    hide Movements, Ordered;
    OrderedFrom(ctx, invoices, givenBack);
  }

  // ----- The ledger in two sendings

  /** Cuts of the first movements and of the later ones are of different movements. */
  ghost predicate CutsApart(g: Growth, first: map<Id, seq<LedgerRow>>, later: map<Id, seq<LedgerRow>>) {
    && (forall row :: row in g.First() ==> row.id !in later)
    && (forall row :: row in g.Later() ==> row.id !in first)
  }

  lemma PieceOf(g: Growth, first: map<Id, seq<LedgerRow>>, later: map<Id, seq<LedgerRow>>, piece: LedgerRow)
    requires CutsApart(g, first, later)
    ensures piece in Split(first + later, g.All()) <==>
            piece in Split(first, g.First()) || piece in Split(later, g.Later())
  {
    hide Movements, InvoiceMovements, ReturnMovements;
    SplitHas(first + later, g.All(), piece);
    SplitHas(first, g.First(), piece);
    SplitHas(later, g.Later(), piece);
    AllMovements(g);
  }

  lemma PieceAgain(g: Growth, first: map<Id, seq<LedgerRow>>, later: map<Id, seq<LedgerRow>>, piece: LedgerRow)
    requires CutsApart(g, first, later)
    ensures piece in Split(later, g.All()) <==> piece in g.First() || piece in Split(later, g.Later())
  {
    hide Movements, InvoiceMovements, ReturnMovements;
    SplitHas(later, g.All(), piece);
    SplitHas(later, g.Later(), piece);
    AllMovements(g);
  }

  lemma FirstPiece(replaced: map<Id, seq<LedgerRow>>, newId: Id -> Id, rows: seq<LedgerRow>, row: LedgerRow)
    requires CutWell(replaced, newId) && row in rows
    ensures exists piece :: piece in Split(replaced, rows) && piece.id == row.id
  {
    hide CutWell, Split;
    PieceIds(replaced, newId, row);
    var piece := Replacement(replaced, row)[0];
    SplitHas(replaced, rows, piece);
  }

  lemma SameInTwo(ledger: map<Id, LedgerRow>, g: Growth, first: map<Id, seq<LedgerRow>>, later: map<Id, seq<LedgerRow>>, newId: Id -> Id)
    requires CutsApart(g, first, later) && CutWell(first, newId)
    requires DistinctKeys(Split(first + later, g.All()), LEDGER_ID)
    requires DistinctKeys(Split(first, g.First()), LEDGER_ID) && DistinctKeys(Split(later, g.All()), LEDGER_ID)
    ensures Insert(Insert(ledger, Split(first, g.First()), LEDGER_ID), Split(later, g.All()), LEDGER_ID)
         == Insert(ledger, Split(first + later, g.All()), LEDGER_ID)
  {
    hide Insert, DistinctKeys, CutsApart, CutWell, Split, Growth.First, Growth.Later, Growth.All;
    var mid := Insert(ledger, Split(first, g.First()), LEDGER_ID);
    var twice, once := Insert(mid, Split(later, g.All()), LEDGER_ID), Insert(ledger, Split(first + later, g.All()), LEDGER_ID);
    forall id: Id ensures (id in twice <==> id in once) && (id in once ==> twice[id] == once[id]) {
      SameAt(ledger, g, first, later, newId, id);
    }
    assert twice.Keys == once.Keys;
  }

  lemma SameAt(ledger: map<Id, LedgerRow>, g: Growth, first: map<Id, seq<LedgerRow>>, later: map<Id, seq<LedgerRow>>, newId: Id -> Id, id: Id)
    requires CutsApart(g, first, later) && CutWell(first, newId)
    requires DistinctKeys(Split(first + later, g.All()), LEDGER_ID)
    requires DistinctKeys(Split(first, g.First()), LEDGER_ID) && DistinctKeys(Split(later, g.All()), LEDGER_ID)
    ensures var mid := Insert(ledger, Split(first, g.First()), LEDGER_ID);
            var twice, once := Insert(mid, Split(later, g.All()), LEDGER_ID), Insert(ledger, Split(first + later, g.All()), LEDGER_ID);
            (id in twice <==> id in once) && (id in once ==> twice[id] == once[id])
  {
    hide Insert, DistinctKeys, CutsApart, CutWell, Split, Growth.First, Growth.Later, Growth.All;
    var mid := Insert(ledger, Split(first, g.First()), LEDGER_ID);
    InsertHas(ledger, Split(first, g.First()), id);
    InsertHas(mid, Split(later, g.All()), id);
    InsertHas(ledger, Split(first + later, g.All()), id);
    if id !in ledger {
      if exists row :: row in Split(first, g.First()) && row.id == id {
        var row :| row in Split(first, g.First()) && row.id == id;
        PieceOf(g, first, later, row);
      } else {
        forall piece: LedgerRow | piece.id == id
          ensures piece in Split(later, g.All()) <==> piece in Split(first + later, g.All())
        {
          PieceOf(g, first, later, piece);
          PieceAgain(g, first, later, piece);
          if piece in g.First() { FirstPiece(first, newId, g.First(), piece); }
        }
      }
    }
  }

  // ----- Both sendings together

  lemma FirstAndLater(g: Growth)
    requires DistinctIds(g.All())
    ensures DistinctIds(g.First())
    ensures forall a, b :: a in g.First() && b in g.Later() ==> a.id != b.id
  {
    hide Movements, DistinctIds;
    AllMovements(g);
    DistinctCounts(g.All());
    forall row: LedgerRow ensures multiset(g.First())[row] <= 1 {
      assert multiset(g.All())[row] == multiset(g.First())[row] + multiset(g.Later())[row];
    }
    CountsDistinct(g.First());
    forall a, b | a in g.First() && b in g.Later() ensures a.id != b.id {
      assert a in multiset(g.First()) && b in multiset(g.Later());
      assert multiset(g.All())[a] <= 1;
    }
  }

  lemma FewerIdsApart(newId: Id -> Id, taken: set<Id>, g: Growth)
    requires NewIdsApart(newId, taken, g.All())
    ensures NewIdsApart(newId, taken, g.First())
    ensures forall a, b :: a in g.First() && b in g.Later() ==> newId(a.id) != b.id
  {
    hide Movements;
    AllMovements(g);
  }

  lemma FirstKnown(ledger: map<Id, LedgerRow>, replaced: map<Id, seq<LedgerRow>>, newId: Id -> Id, rows: seq<LedgerRow>, row: LedgerRow)
    requires CutWell(replaced, newId) && DistinctKeys(Split(replaced, rows), LEDGER_ID) && row in rows
    ensures row.id in Insert(ledger, Split(replaced, rows), LEDGER_ID)
  {
    hide Insert, CutWell, Split, DistinctKeys;
    FirstPiece(replaced, newId, rows, row);
    InsertHas(ledger, Split(replaced, rows), row.id);
  }

  lemma LaterKnown(ledger: map<Id, LedgerRow>, replaced: map<Id, seq<LedgerRow>>, newId: Id -> Id, rows: seq<LedgerRow>, id: Id)
    requires CutWell(replaced, newId) && DistinctKeys(Split(replaced, rows), LEDGER_ID)
    requires forall row :: row in rows ==> row.id != id && newId(row.id) != id
    ensures id in Insert(ledger, Split(replaced, rows), LEDGER_ID) <==> id in ledger
  {
    hide Insert, CutWell, Split, DistinctKeys;
    InsertHas(ledger, Split(replaced, rows), id);
    forall piece: LedgerRow | piece in Split(replaced, rows) ensures piece.id != id {
      SplitHas(replaced, rows, piece);
      var row :| row in rows && piece in Replacement(replaced, row);
      PieceIds(replaced, newId, row);
    }
  }

  /** After the first sending the first movements are known, and the later ones are as known as before. */
  lemma KnownThen(st: Stock, replaced: map<Id, seq<LedgerRow>>, newId: Id -> Id, g: Growth)
    requires CutWell(replaced, newId) && DistinctIds(g.All()) && NewIdsApart(newId, st.ledger.Keys, g.All())
    ensures var known := RecordAll(st, Split(replaced, g.First())).ledger.Keys;
            && (forall row :: row in g.First() ==> row.id in known)
            && (forall row :: row in g.Later() ==> (row.id in known <==> row.id in st.ledger.Keys))
  {
    hide Insert, RecordAll, CutWell, Split, DistinctIds, NewIdsApart, DistinctKeys, Growth.First, Growth.Later, Growth.All;
    RecordedLedger(st, Split(replaced, g.First()));
    FirstAndLater(g);
    FewerIdsApart(newId, st.ledger.Keys, g);
    PiecesDistinct(replaced, newId, st.ledger.Keys, g.First());
    forall row | row in g.First() ensures row.id in RecordAll(st, Split(replaced, g.First())).ledger {
      FirstKnown(st.ledger, replaced, newId, g.First(), row);
    }
    forall row | row in g.Later() ensures row.id in RecordAll(st, Split(replaced, g.First())).ledger <==> row.id in st.ledger {
      LaterKnown(st.ledger, replaced, newId, g.First(), row.id);
    }
  }

  lemma PlacedApart(ctx: BatchContext, ctx1: BatchContext, g: Growth)
    requires DistinctIds(g.All())
    ensures CutsApart(g, PlaceRows(ctx, Ordered(ctx, g.invoices, g.givenBack)).replaced,
                      PlaceRows(ctx1, Ordered(ctx, g.moreInvoices, g.moreBack)).replaced)
  {
    hide PlaceRows, Ordered, Movements, DistinctIds;
    FirstAndLater(g);
    PlacedCutWell(ctx, Ordered(ctx, g.invoices, g.givenBack));
    PlacedCutWell(ctx1, Ordered(ctx, g.moreInvoices, g.moreBack));
    OrderedFrom(ctx, g.invoices, g.givenBack);
    OrderedFrom(ctx, g.moreInvoices, g.moreBack);
  }

  /** What a server's stock and ledger are for placing. */
  function PlacingContext(st: Stock, itemOf: map<Id, Id>, newId: Id -> Id): (r: BatchContext) {
    BatchContext(st.ledger.Keys, itemOf, st.batches, newId)
  }

  function PlacedFor(st: Stock, itemOf: map<Id, Id>, newId: Id -> Id, invoices: seq<InvoiceEntry>, givenBack: seq<ReturnEntry>): (r: Placing) {
    PlaceRows(PlacingContext(st, itemOf, newId), Ordered(PlacingContext(st, itemOf, newId), invoices, givenBack))
  }

  function Sent(st: Stock, itemOf: map<Id, Id>, newId: Id -> Id, invoices: seq<InvoiceEntry>, givenBack: seq<ReturnEntry>): (r: Stock) {
    RecordAll(st, Split(PlacedFor(st, itemOf, newId, invoices, givenBack).replaced, Movements(invoices, givenBack)))
  }

  lemma PlacedInTwo(st: Stock, itemOf: map<Id, Id>, newId: Id -> Id, g: Growth)
    requires DistinctIds(g.All()) && NewIdsApart(newId, st.ledger.Keys, g.All()) && LaterInTime(g)
    requires Placeable(PlacingContext(st, itemOf, newId), Ordered(PlacingContext(st, itemOf, newId), g.invoices, g.givenBack))
    ensures var st1 := Sent(st, itemOf, newId, g.invoices, g.givenBack);
            var first := PlacedFor(st, itemOf, newId, g.invoices, g.givenBack);
            var later := PlacedFor(st1, itemOf, newId, g.invoices + g.moreInvoices, g.givenBack + g.moreBack);
            && Follows(PlacedFor(st, itemOf, newId, g.invoices + g.moreInvoices, g.givenBack + g.moreBack), first, later)
            && CutsApart(g, first.replaced, later.replaced)
  {
    hide TableTotal, RecordAll, PlaceRows, Ordered, Movements, DistinctIds, CutWell, Split, NewIdsApart, Placeable, LaterInTime, Follows, CutsApart, StocksAgree;
    var ctx := PlacingContext(st, itemOf, newId);
    var a, n := Ordered(ctx, g.invoices, g.givenBack), Ordered(ctx, g.moreInvoices, g.moreBack);
    var st1 := Sent(st, itemOf, newId, g.invoices, g.givenBack);
    var ctx1 := PlacingContext(st1, itemOf, newId);
    FirstAndLater(g);
    FewerIdsApart(newId, st.ledger.Keys, g);
    PlacedCutWell(ctx, a);
    KnownThen(st, PlaceRows(ctx, a).replaced, newId, g);
    PlacedInTurn(ctx, g);
    OnlyLaterPlaced(ctx, ctx1, g);
    forall key: BatchKey ensures At(ctx1.stock, key, 0) == OnHand(ctx, PlaceRows(ctx, a), key) {
      StockLeft(st, ctx, g.invoices, g.givenBack, key);
    }
    PlacingGoesOn(ctx, ctx1, a, n, |n|);
    assert n[..|n|] == n;
    PlacedApart(ctx, ctx1, g);
  }

  /**
   * The ledger, every item's stock and every batch's are the same after the first sending and then the
   * grown one as after the grown one alone; and so is, batch by batch, what sales were counted without.
   */
  lemma StockInTwo(st: Stock, itemOf: map<Id, Id>, newId: Id -> Id, g: Growth)
    requires DistinctIds(g.All()) && NewIdsApart(newId, st.ledger.Keys, g.All()) && LaterInTime(g)
    requires Placeable(PlacingContext(st, itemOf, newId), Ordered(PlacingContext(st, itemOf, newId), g.invoices, g.givenBack))
    ensures var st1 := Sent(st, itemOf, newId, g.invoices, g.givenBack);
            var invoices, givenBack := g.invoices + g.moreInvoices, g.givenBack + g.moreBack;
            Sent(st1, itemOf, newId, invoices, givenBack) == Sent(st, itemOf, newId, invoices, givenBack)
  {
    hide RecordAll, PlaceRows, Ordered, Movements, DistinctIds, CutWell, Split, NewIdsApart, Placeable, LaterInTime, CutsApart, DistinctKeys, Insert;
    PlacedInTwo(st, itemOf, newId, g);
    var st1 := Sent(st, itemOf, newId, g.invoices, g.givenBack);
    var first := PlacedFor(st, itemOf, newId, g.invoices, g.givenBack).replaced;
    var later := PlacedFor(st1, itemOf, newId, g.invoices + g.moreInvoices, g.givenBack + g.moreBack).replaced;
    assert PlacedFor(st, itemOf, newId, g.invoices + g.moreInvoices, g.givenBack + g.moreBack).replaced == first + later;
    CutsFine(st, itemOf, newId, g.invoices, g.givenBack);
    CutsFine(st1, itemOf, newId, g.invoices + g.moreInvoices, g.givenBack + g.moreBack);
    CutsFine(st, itemOf, newId, g.invoices + g.moreInvoices, g.givenBack + g.moreBack);
    FirstAndLater(g);
    FewerIdsApart(newId, st.ledger.Keys, g);
    PiecesDistinct(first, newId, st.ledger.Keys, g.First());
    PiecesDistinct(first + later, newId, st.ledger.Keys, g.All());
    PiecesDistinct(later, newId, st.ledger.Keys, g.All());
    SameInTwo(st.ledger, g, first, later, newId);
    RecordedLedger(st, Split(first, g.First()));
    RecordedLedger(st1, Split(later, g.All()));
    RecordedLedger(st, Split(first + later, g.All()));
    SameLedgerSameStock(st, Split(first + later, g.All()), Split(first, g.First()), Split(later, g.All()));
  }

  lemma CutsFine(st: Stock, itemOf: map<Id, Id>, newId: Id -> Id, invoices: seq<InvoiceEntry>, givenBack: seq<ReturnEntry>)
    ensures CutWell(PlacedFor(st, itemOf, newId, invoices, givenBack).replaced, newId)
  {
    hide PlaceRows, Ordered, CutWell;
    PlacedCutWell(PlacingContext(st, itemOf, newId), Ordered(PlacingContext(st, itemOf, newId), invoices, givenBack));
  }
}
