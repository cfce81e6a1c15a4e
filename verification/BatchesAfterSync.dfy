/**
 * What the server's tables say of a batch after a sync: its stock, and how much of it sales were counted
 * without (apps/api/src/fallback/batch-shortfalls.ts, apps/api/src/fallback/fallback.service.ts).
 */
module BatchesAfterSync {
  import opened AcceptedOutbox
  import opened BatchShortfalls
  import opened Cuts
  import opened GrownLedger
  import opened GrownPlacing
  import opened GrownSync
  import opened OutboxRows
  import opened ResentOutbox
  import opened ServerTables
  import opened Sums
  import opened Sync

  /** The movements placed, in time order: those of a batch the server hasn't recorded. */
  function ToPlace(s: Server, o: Outbox, newId: Id -> Id): (r: seq<LedgerRow>) { Ordered(ContextOf(s, newId), o.invoices, o.givenBack) }

  /** No return of the outbox takes out of this batch what the server hasn't recorded yet: each brings in. */
  ghost predicate ReturnsBringIn(s: Server, o: Outbox, newId: Id -> Id, key: BatchKey) {
    forall row :: row in ToPlace(s, o, newId) && row.txnType.ReturnTxn? && row.batchId.Some? && KeyOf(row) == key ==> row.qtyIn >= 0
  }

  /** A sale taken brings nothing in; a return taken takes nothing out, though what it brings in may be negative. */
  lemma AcceptedKinds(s: Server, ctr: Counter, o: Outbox, newId: Id -> Id, row: LedgerRow)
    requires Accepts(s, ctr, o, newId) && DistinctIds(Movements(o.invoices, o.givenBack)) && row in Movements(o.invoices, o.givenBack)
    ensures (row.txnType.SaleTxn? && row.qtyIn == 0) || (row.txnType.ReturnTxn? && row.qtyOut == 0)
  {
    hide Accepts, DistinctIds, SplitsOf, Movements, InvoiceMovements, ReturnMovements, Replaced;
    ReplacedAreCuts(s, o, newId);
    InvoiceOrReturn(o, row);
    if row in InvoiceMovements(o.invoices) {
      FromInvoice(o.invoices, row);
      var k :| 0 <= k < |o.invoices| && row in o.invoices[k].ledger;
      AcceptedSale(s, ctr, o, newId, k, row);
    } else {
      FromReturn(o.givenBack, row);
      var k :| 0 <= k < |o.givenBack| && row in o.givenBack[k].ledger;
      AcceptedReturn(s, ctr, o, newId, k, row);
    }
  }

  /** So the only movements of a batch that take out otherwise than by a sale are returns that bring in less than nothing. */
  lemma OthersAre(s: Server, ctr: Counter, o: Outbox, newId: Id -> Id, key: BatchKey)
    requires Accepts(s, ctr, o, newId) && DistinctIds(Movements(o.invoices, o.givenBack))
    ensures forall row :: row in ToPlace(s, o, newId) && OtherMove(ContextOf(s, newId), row, key) && row.Change() < 0 ==>
              row.txnType.ReturnTxn? && row.qtyIn < 0
    ensures ReturnsBringIn(s, o, newId, key) ==> OthersBringIn(ContextOf(s, newId), ToPlace(s, o, newId), key)
  {
    hide Accepts, DistinctIds, Movements, Ordered;
    var ctx := ContextOf(s, newId);
    forall row | row in ToPlace(s, o, newId) && OtherMove(ctx, row, key) && row.Change() < 0
      ensures row.txnType.ReturnTxn? && row.qtyIn < 0
    {
      OrderedFrom(ctx, o.invoices, o.givenBack);
      AcceptedKinds(s, ctr, o, newId, row);
    }
  }

  lemma BatchAfter(s: Server, ctr: Counter, o: Outbox, newId: Id -> Id, key: BatchKey)
    requires Accepts(s, ctr, o, newId) && FromTables(s, newId, o)
    ensures var after, p := Taken(s, ctr, o, newId), PlaceRows(ContextOf(s, newId), ToPlace(s, o, newId));
            At(after.stock.batches, key, 0) == OnHand(ContextOf(s, newId), p, key)
            && At(after.flagged, key, 0) == At(s.flagged, key, 0) + Short(p, key)
  {
    hide Accepts, Taken, PlaceRows, Ordered, Movements, DistinctIds, Cuts.NewIdsApart, Placeable, RecordAll, Split;
    TakenStock(s, ctr, o, newId);
    GrownSync.SameContext(s, newId);
    AcceptedPlaceable(s, ctr, o, newId);
    StockLeft(s.stock, ContextOf(s, newId), o.invoices, o.givenBack, key);
  }

  /**
   * After a sync a batch that had no less than nothing has no less than nothing, if no return sent takes out of it:
   * it has what its movements, sales in full, leave of it and the deepest they went below; and that is what is flagged.
   */
  lemma BatchesStayUp(s: Server, ctr: Counter, o: Outbox, newId: Id -> Id, key: BatchKey)
    requires Accepts(s, ctr, o, newId) && FromTables(s, newId, o)
    requires At(s.stock.batches, key, 0) >= 0 && ReturnsBringIn(s, o, newId, key)
    ensures var after, start, moves := Taken(s, ctr, o, newId), At(s.stock.batches, key, 0), Moves(ContextOf(s, newId), ToPlace(s, o, newId), key);
            && At(after.stock.batches, key, 0) == start + Sum(moves) + Deficit(start, moves) >= 0
            && At(after.flagged, key, 0) == At(s.flagged, key, 0) + Deficit(start, moves)
  {
    hide Accepts, Taken, PlaceRows, Ordered, Movements, DistinctIds, Cuts.NewIdsApart, OthersBringIn, ReturnsBringIn, Moves;
    BatchAfter(s, ctr, o, newId, key);
    OthersAre(s, ctr, o, newId, key);
    ShortfallIsDeepestDeficit(ContextOf(s, newId), ToPlace(s, o, newId), key);
  }

  /** Each return that takes out of the batch is covered by what it starts with and the movements sent before. */
  ghost predicate ReturnsCovered(s: Server, o: Outbox, newId: Id -> Id, key: BatchKey) {
    var ctx, rows := ContextOf(s, newId), ToPlace(s, o, newId);
    forall k :: 0 <= k < |rows| && rows[k].txnType.ReturnTxn? && rows[k].qtyIn < 0 ==> Covered(ctx, rows, k, key)
  }

  /**
   * Placing the movements of an outbox taken never has the batch below nothing if and only if each return sent
   * with a negative quantity is covered; and then the tables have what the lemma above says.
   */
  lemma BatchNeverBelow(s: Server, ctr: Counter, o: Outbox, newId: Id -> Id, key: BatchKey)
    requires Accepts(s, ctr, o, newId) && FromTables(s, newId, o) && At(s.stock.batches, key, 0) >= 0
    ensures NeverBelow(ContextOf(s, newId), ToPlace(s, o, newId), key) <==> ReturnsCovered(s, o, newId, key)
    ensures var after, start, moves := Taken(s, ctr, o, newId), At(s.stock.batches, key, 0), Moves(ContextOf(s, newId), ToPlace(s, o, newId), key);
            ReturnsCovered(s, o, newId, key) ==>
              && At(after.stock.batches, key, 0) == start + Sum(moves) + Deficit(start, moves) >= 0
              && At(after.flagged, key, 0) == At(s.flagged, key, 0) + Deficit(start, moves)
  {
    hide Accepts, Taken, PlaceRows, Ordered, Movements, DistinctIds, Cuts.NewIdsApart, Moves, NeverBelow;
    var ctx, rows := ContextOf(s, newId), ToPlace(s, o, newId);
    BatchAfter(s, ctr, o, newId, key);
    OthersAre(s, ctr, o, newId, key);
    NeverBelowWhen(ctx, rows, key);
    if ReturnsCovered(s, o, newId, key) {
      forall k | 0 <= k < |rows| ensures Covered(ctx, rows, k, key) { assert rows[k] in rows; }
    }
  }
}
