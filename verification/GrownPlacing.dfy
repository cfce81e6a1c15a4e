/** Batch shortfalls placed for an outbox, and for the same outbox with later movements added. */
module GrownPlacing {
  import opened BatchShortfalls
  import opened Cuts
  import opened OutboxRows
  import opened Rounding
  import opened ServerTables

  // ----- Which movements are placed

  lemma {:induction false} InvoiceMovementsConcat(a: seq<InvoiceEntry>, b: seq<InvoiceEntry>)
    ensures InvoiceMovements(a + b) == InvoiceMovements(a) + InvoiceMovements(b)
  {
    if b == [] {
      assert a + b == a;
    } else {
      assert (a + b)[..|a + b| - 1] == a + b[..|b| - 1];
      InvoiceMovementsConcat(a, b[..|b| - 1]);
    }
  }

  lemma {:induction false} ReturnMovementsConcat(a: seq<ReturnEntry>, b: seq<ReturnEntry>)
    ensures ReturnMovements(a + b) == ReturnMovements(a) + ReturnMovements(b)
  {
    if b == [] {
      assert a + b == a;
    } else {
      assert (a + b)[..|a + b| - 1] == a + b[..|b| - 1];
      ReturnMovementsConcat(a, b[..|b| - 1]);
    }
  }

  lemma {:induction false} FreshConcat(known: set<Id>, a: seq<LedgerRow>, b: seq<LedgerRow>)
    ensures Fresh(known, a + b) == Fresh(known, a) + Fresh(known, b)
  {
    if b == [] {
      assert a + b == a;
    } else {
      assert (a + b)[..|a + b| - 1] == a + b[..|b| - 1];
      FreshConcat(known, a, b[..|b| - 1]);
    }
  }

  lemma {:induction false} FreshSame(known: set<Id>, other: set<Id>, rows: seq<LedgerRow>)
    requires forall i :: 0 <= i < |rows| ==> (rows[i].id in known <==> rows[i].id in other)
    ensures Fresh(known, rows) == Fresh(other, rows)
  {
    if rows != [] { FreshSame(known, other, rows[..|rows| - 1]); }
  }

  lemma NoneFresh(known: set<Id>, rows: seq<LedgerRow>)
    requires forall row :: row in rows ==> row.id in known
    ensures Fresh(known, rows) == []
  {
    if Fresh(known, rows) != [] {
      assert Fresh(known, rows)[0] in Fresh(known, rows);
    }
  }

  /** An outbox with more at the end of its bills and of its returns. */
  datatype Growth = Growth(invoices: seq<InvoiceEntry>, givenBack: seq<ReturnEntry>, moreInvoices: seq<InvoiceEntry>, moreBack: seq<ReturnEntry>) {
    function First(): seq<LedgerRow> { Movements(invoices, givenBack) }
    function Later(): seq<LedgerRow> { Movements(moreInvoices, moreBack) }
    function All(): seq<LedgerRow> { Movements(invoices + moreInvoices, givenBack + moreBack) }
  }

  /** The movements added were made after the first ones. */
  ghost predicate LaterInTime(g: Growth) {
    forall a, b :: a in g.First() && b in g.Later() ==> NotAfter(a, b)
  }

  lemma AllMovements(g: Growth)
    ensures multiset(g.All()) == multiset(g.First()) + multiset(g.Later())
    ensures forall row :: row in g.All() <==> row in g.First() || row in g.Later()
  {
    InvoiceMovementsConcat(g.invoices, g.moreInvoices);
    ReturnMovementsConcat(g.givenBack, g.moreBack);
    assert forall row :: row in g.All() <==> row in multiset(g.All());
    assert forall row :: row in g.First() <==> row in multiset(g.First());
    assert forall row :: row in g.Later() <==> row in multiset(g.Later());
  }

  lemma FreshAll(known: set<Id>, g: Growth)
    ensures multiset(Fresh(known, g.All())) == multiset(Fresh(known, g.First())) + multiset(Fresh(known, g.Later()))
  {
    hide Fresh;
    InvoiceMovementsConcat(g.invoices, g.moreInvoices);
    ReturnMovementsConcat(g.givenBack, g.moreBack);
    var i1, i2 := InvoiceMovements(g.invoices), InvoiceMovements(g.moreInvoices);
    var t1, t2 := ReturnMovements(g.givenBack), ReturnMovements(g.moreBack);
    FreshConcat(known, i1 + i2, t1 + t2);
    FreshConcat(known, i1, i2);
    FreshConcat(known, t1, t2);
    FreshConcat(known, i1, t1);
    FreshConcat(known, i2, t2);
  }

  lemma SortedRows(rows: seq<LedgerRow>, row: LedgerRow)
    ensures row in SortByTime(rows) <==> row in rows
  {
    assert row in multiset(SortByTime(rows)) <==> row in multiset(rows);
  }

  lemma OrderedRows(ctx: BatchContext, invoices: seq<InvoiceEntry>, givenBack: seq<ReturnEntry>, row: LedgerRow)
    ensures row in Ordered(ctx, invoices, givenBack) <==>
            row in Movements(invoices, givenBack) && row.batchId.Some? && row.id !in ctx.known
  {
    SortedRows(Fresh(ctx.known, Movements(invoices, givenBack)), row);
  }

  /** What is placed are the unrecorded movements of a batch, each as often as it was sent, from the earliest on, by id at one time. */
  lemma PlacedInTime(ctx: BatchContext, invoices: seq<InvoiceEntry>, givenBack: seq<ReturnEntry>)
    ensures var rows := Ordered(ctx, invoices, givenBack);
            && (forall i, j :: 0 <= i < j < |rows| ==>
                  rows[i].createdAt < rows[j].createdAt || (rows[i].createdAt == rows[j].createdAt && rows[i].id <= rows[j].id))
            && (forall row: LedgerRow :: multiset(rows)[row]
                  == if row.batchId.Some? && row.id !in ctx.known then multiset(Movements(invoices, givenBack))[row] else 0)
  {
    hide Movements;
    SortSorted(Fresh(ctx.known, Movements(invoices, givenBack)));
    forall row: LedgerRow
      ensures multiset(Fresh(ctx.known, Movements(invoices, givenBack)))[row]
           == if row.batchId.Some? && row.id !in ctx.known then multiset(Movements(invoices, givenBack))[row] else 0
    {
      FreshAsOften(ctx.known, Movements(invoices, givenBack), row);
    }
  }

  lemma {:induction false} FreshAsOften(known: set<Id>, rows: seq<LedgerRow>, row: LedgerRow)
    ensures multiset(Fresh(known, rows))[row] == if row.batchId.Some? && row.id !in known then multiset(rows)[row] else 0
  {
    if rows != [] {
      var n := |rows| - 1;
      assert rows == rows[..n] + [rows[n]];
      FreshAsOften(known, rows[..n], row);
    }
  }

  lemma SortedAppend(a: seq<LedgerRow>, b: seq<LedgerRow>)
    requires Sorted(a) && Sorted(b) && forall x, y :: x in a && y in b ==> NotAfter(x, y)
    ensures Sorted(a + b)
  {
    hide NotAfter;
  }

  /** The first movements are placed first, then the later ones. */
  lemma PlacedInTurn(ctx: BatchContext, g: Growth)
    requires DistinctIds(g.All()) && LaterInTime(g)
    ensures Ordered(ctx, g.invoices + g.moreInvoices, g.givenBack + g.moreBack)
         == Ordered(ctx, g.invoices, g.givenBack) + Ordered(ctx, g.moreInvoices, g.moreBack)
  {
    hide Fresh, Movements, NotAfter, DistinctIds, SortByTime, Sorted;
    var all, first, later := Fresh(ctx.known, g.All()), Fresh(ctx.known, g.First()), Fresh(ctx.known, g.Later());
    FreshAll(ctx.known, g);
    SortSorted(all);
    SortSorted(first);
    SortSorted(later);
    forall x, y | x in SortByTime(first) && y in SortByTime(later) ensures NotAfter(x, y) {
      SortedRows(first, x);
      SortedRows(later, y);
    }
    SortedAppend(SortByTime(first), SortByTime(later));
    DistinctCounts(g.All());
    forall a, b | a in SortByTime(all) && b in SortByTime(all) && a.id == b.id ensures a == b {
      SortedRows(all, a);
      SortedRows(all, b);
    }
    SortedOnce(SortByTime(all), SortByTime(first) + SortByTime(later));
  }

  /** Once the first are known, only the later ones are placed. */
  lemma OnlyLaterPlaced(ctx: BatchContext, ctx1: BatchContext, g: Growth)
    requires forall row :: row in g.First() ==> row.id in ctx1.known
    requires forall row :: row in g.Later() ==> (row.id in ctx1.known <==> row.id in ctx.known)
    ensures Ordered(ctx1, g.invoices + g.moreInvoices, g.givenBack + g.moreBack) == Ordered(ctx, g.moreInvoices, g.moreBack)
  {
    hide Fresh, InvoiceMovements, ReturnMovements, SortByTime;
    InvoiceMovementsConcat(g.invoices, g.moreInvoices);
    ReturnMovementsConcat(g.givenBack, g.moreBack);
    var i1, i2 := InvoiceMovements(g.invoices), InvoiceMovements(g.moreInvoices);
    var t1, t2 := ReturnMovements(g.givenBack), ReturnMovements(g.moreBack);
    FreshConcat(ctx1.known, i1 + i2, t1 + t2);
    FreshConcat(ctx1.known, i1, i2);
    FreshConcat(ctx1.known, t1, t2);
    FreshConcat(ctx.known, i2, t2);
    assert forall row :: row in i1 || row in t1 ==> row in g.First();
    NoneFresh(ctx1.known, i1);
    NoneFresh(ctx1.known, t1);
    assert forall k :: 0 <= k < |i2| ==> i2[k] in g.Later();
    assert forall k :: 0 <= k < |t2| ==> t2[k] in g.Later();
    FreshSame(ctx1.known, ctx.known, i2);
    FreshSame(ctx1.known, ctx.known, t2);
    assert Fresh(ctx1.known, g.All()) == Fresh(ctx.known, g.Later());
  }

  // ----- Placing goes on from where it was left

  ghost predicate StocksAgree(ctx: BatchContext, p: Placing, ctx1: BatchContext, q: Placing) {
    forall key: BatchKey :: OnHand(ctx, p, key) == OnHand(ctx1, q, key)
  }

  /** One placing is another followed by a third. */
  ghost predicate Follows(all: Placing, first: Placing, later: Placing) {
    && all.replaced == first.replaced + later.replaced
    && all.shortfalls.Keys == first.shortfalls.Keys + later.shortfalls.Keys
    && forall key: BatchKey :: Short(all, key) == Short(first, key) + Short(later, key)
  }

  lemma PlaceRowStocks(ctx: BatchContext, p: Placing, ctx1: BatchContext, q: Placing, first: Placing, row: LedgerRow, key: BatchKey)
    requires ctx1.itemOf == ctx.itemOf && OnHand(ctx, p, key) == OnHand(ctx1, q, key)
    requires Short(p, key) == Short(first, key) + Short(q, key)
    ensures var p', q' := PlaceRow(ctx, p, row), PlaceRow(ctx1, q, row);
            OnHand(ctx, p', key) == OnHand(ctx1, q', key) && Short(p', key) == Short(first, key) + Short(q', key)
  {
    hide PlaceRow, TakesOut, OnHand, Short;
    PlaceRowAt(ctx, p, row, key);
    PlaceRowAt(ctx1, q, row, key);
  }

  /** Whether a movement is cut with so much of its batch on hand, and how much of it is left in. */
  predicate IsCut(row: LedgerRow, onHand: int) { TakesOut(row) && Max(onHand, 0) < row.qtyOut }

  lemma PlaceRowIs(ctx: BatchContext, p: Placing, row: LedgerRow)
    ensures !OfItsBatch(ctx, row) ==> PlaceRow(ctx, p, row) == p
    ensures OfItsBatch(ctx, row) ==>
              var onHand, r := OnHand(ctx, p, KeyOf(row)), PlaceRow(ctx, p, row);
              if IsCut(row, onHand) then
                r.replaced == p.replaced[row.id := SplitRow(row, Max(onHand, 0), ctx.newId(row.id))]
                && r.shortfalls.Keys == p.shortfalls.Keys + {KeyOf(row)}
              else r.replaced == p.replaced && r.shortfalls == p.shortfalls
  {
    hide SplitRow, At;
  }

  lemma PlaceRowCut(ctx: BatchContext, p: Placing, ctx1: BatchContext, q: Placing, first: Placing, row: LedgerRow)
    requires ctx1.itemOf == ctx.itemOf && ctx1.newId == ctx.newId
    requires OfItsBatch(ctx, row) ==> OnHand(ctx, p, KeyOf(row)) == OnHand(ctx1, q, KeyOf(row))
    requires p.replaced == first.replaced + q.replaced && p.shortfalls.Keys == first.shortfalls.Keys + q.shortfalls.Keys
    ensures var p', q' := PlaceRow(ctx, p, row), PlaceRow(ctx1, q, row);
            p'.replaced == first.replaced + q'.replaced && p'.shortfalls.Keys == first.shortfalls.Keys + q'.shortfalls.Keys
  {
    hide SplitRow, IsCut, OnHand, Max, PlaceRow;
    PlaceRowIs(ctx, p, row);
    PlaceRowIs(ctx1, q, row);
  }

  lemma PlaceRowGrown(ctx: BatchContext, p: Placing, ctx1: BatchContext, q: Placing, first: Placing, row: LedgerRow)
    requires ctx1.itemOf == ctx.itemOf && ctx1.newId == ctx.newId
    requires StocksAgree(ctx, p, ctx1, q) && Follows(p, first, q)
    ensures StocksAgree(ctx, PlaceRow(ctx, p, row), ctx1, PlaceRow(ctx1, q, row))
    ensures Follows(PlaceRow(ctx, p, row), first, PlaceRow(ctx1, q, row))
  {
    hide PlaceRow, OnHand, Short, TakesOut;
    PlaceRowCut(ctx, p, ctx1, q, first, row);
    forall key: BatchKey
      ensures OnHand(ctx, PlaceRow(ctx, p, row), key) == OnHand(ctx1, PlaceRow(ctx1, q, row), key)
      ensures Short(PlaceRow(ctx, p, row), key) == Short(first, key) + Short(PlaceRow(ctx1, q, row), key)
    {
      PlaceRowStocks(ctx, p, ctx1, q, first, row, key);
    }
  }

  lemma {:induction false} PlacingGoesOn(ctx: BatchContext, ctx1: BatchContext, a: seq<LedgerRow>, b: seq<LedgerRow>, k: nat)
    requires ctx1.itemOf == ctx.itemOf && ctx1.newId == ctx.newId && k <= |b|
    requires forall key: BatchKey :: At(ctx1.stock, key, 0) == OnHand(ctx, PlaceRows(ctx, a), key)
    ensures StocksAgree(ctx, PlaceRows(ctx, a + b[..k]), ctx1, PlaceRows(ctx1, b[..k]))
    ensures Follows(PlaceRows(ctx, a + b[..k]), PlaceRows(ctx, a), PlaceRows(ctx1, b[..k]))
  {
    hide PlaceRow, StocksAgree, Follows;
    if k == 0 {
      assert a + b[..0] == a;
      GoesOnFrom(ctx, ctx1, a);
      assert b[..0] == [];
    } else {
      PlacingGoesOn(ctx, ctx1, a, b, k - 1);
      assert (a + b[..k])[..|a + b[..k]| - 1] == a + b[..k - 1];
      assert b[..k][..k - 1] == b[..k - 1];
      PlaceRowGrown(ctx, PlaceRows(ctx, a + b[..k - 1]), ctx1, PlaceRows(ctx1, b[..k - 1]), PlaceRows(ctx, a), b[k - 1]);
    }
  }

  lemma GoesOnFrom(ctx: BatchContext, ctx1: BatchContext, a: seq<LedgerRow>)
    requires forall key: BatchKey :: At(ctx1.stock, key, 0) == OnHand(ctx, PlaceRows(ctx, a), key)
    ensures StocksAgree(ctx, PlaceRows(ctx, a), ctx1, PlaceRows(ctx1, []))
    ensures Follows(PlaceRows(ctx, a), PlaceRows(ctx, a), PlaceRows(ctx1, []))
  {
    hide PlaceRow;
  }

  // ----- The stock the first movements leave

  lemma {:induction false} KnownNotReplaced(ctx: BatchContext, invoices: seq<InvoiceEntry>, givenBack: seq<ReturnEntry>, row: LedgerRow)
    requires DistinctIds(Movements(invoices, givenBack)) && row in Movements(invoices, givenBack)
    ensures row.id in PlaceRows(ctx, Ordered(ctx, invoices, givenBack)).replaced ==> row in Ordered(ctx, invoices, givenBack)
  {
    hide PlaceRows, Ordered, Movements, DistinctIds;
    var rows := Ordered(ctx, invoices, givenBack);
    PlacedCutWell(ctx, rows);
    if row.id in PlaceRows(ctx, rows).replaced {
      var i :| 0 <= i < |rows| && rows[i].id == row.id;
      OrderedFrom(ctx, invoices, givenBack);
      OneOfEach(Movements(invoices, givenBack), rows[i], row);
    }
  }

  lemma OrderedDistinct(ctx: BatchContext, invoices: seq<InvoiceEntry>, givenBack: seq<ReturnEntry>)
    requires DistinctIds(Movements(invoices, givenBack))
    ensures DistinctIds(Ordered(ctx, invoices, givenBack))
  {
    hide SortByTime, Movements, DistinctIds;
    var rows := Movements(invoices, givenBack);
    DistinctCounts(rows);
    FreshCounts(ctx.known, rows);
    forall a, b | a in Ordered(ctx, invoices, givenBack) && b in Ordered(ctx, invoices, givenBack) && a.id == b.id ensures a == b {
      OrderedRows(ctx, invoices, givenBack, a);
      OrderedRows(ctx, invoices, givenBack, b);
    }
    CountsDistinct(Ordered(ctx, invoices, givenBack));
  }

  lemma {:induction false} FreshCounts(known: set<Id>, rows: seq<LedgerRow>)
    ensures forall row :: multiset(Fresh(known, rows))[row] <= multiset(rows)[row]
  {
    if rows != [] {
      var n := |rows| - 1;
      FreshCounts(known, rows[..n]);
      assert rows == rows[..n] + [rows[n]];
    }
  }

  /** The pieces of the movements placed, among those of all: the rest are recorded already, or have no batch. */
  lemma PlacedPieces(ctx: BatchContext, invoices: seq<InvoiceEntry>, givenBack: seq<ReturnEntry>, piece: LedgerRow)
    requires DistinctIds(Movements(invoices, givenBack))
    ensures var ordered := Ordered(ctx, invoices, givenBack);
            var replaced := PlaceRows(ctx, ordered).replaced;
            && (piece in Split(replaced, ordered) ==> piece in Split(replaced, Movements(invoices, givenBack)))
            && (piece in Split(replaced, Movements(invoices, givenBack)) ==>
                  piece in Split(replaced, ordered) || piece.id in ctx.known || piece.batchId.None?)
  {
    hide PlaceRows, Ordered, Movements, DistinctIds, Split;
    var ordered, rows := Ordered(ctx, invoices, givenBack), Movements(invoices, givenBack);
    var replaced := PlaceRows(ctx, ordered).replaced;
    SplitHas(replaced, ordered, piece);
    SplitHas(replaced, rows, piece);
    OrderedFrom(ctx, invoices, givenBack);
    if piece in Split(replaced, rows) {
      var row :| row in rows && piece in Replacement(replaced, row);
      KnownNotReplaced(ctx, invoices, givenBack, row);
      OrderedRows(ctx, invoices, givenBack, row);
    }
  }

  /** No piece placed has an id the ledger has. */
  lemma PiecesUnrecorded(ctx: BatchContext, invoices: seq<InvoiceEntry>, givenBack: seq<ReturnEntry>, piece: LedgerRow)
    requires NewIdsApart(ctx.newId, ctx.known, Movements(invoices, givenBack))
    ensures var ordered := Ordered(ctx, invoices, givenBack);
            piece in Split(PlaceRows(ctx, ordered).replaced, ordered) ==> piece.id !in ctx.known
  {
    hide PlaceRows, Ordered, Movements, Split, CutWell;
    var ordered := Ordered(ctx, invoices, givenBack);
    var replaced := PlaceRows(ctx, ordered).replaced;
    SplitHas(replaced, ordered, piece);
    PlacedCutWell(ctx, ordered);
    if piece in Split(replaced, ordered) {
      var row :| row in ordered && piece in Replacement(replaced, row);
      PieceIds(replaced, ctx.newId, row);
      OrderedRows(ctx, invoices, givenBack, row);
    }
  }
}
