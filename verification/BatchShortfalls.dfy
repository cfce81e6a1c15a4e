/**
 * Offline sales of a batch another till emptied meanwhile (apps/api/src/fallback/batch-shortfalls.ts):
 * as much as is left comes from the batch, what is missing is moved off it and reported as short.
 */
module BatchShortfalls {
  import opened OutboxRows
  import opened Rounding
  import opened Sums

  datatype BatchKey = BatchKey(branchId: Id, batchId: Id)

  /** What the server knows: its recorded movements, each batch's item, and each batch's stock at each branch. */
  datatype BatchContext = BatchContext(known: set<Id>, itemOf: map<Id, Id>, stock: map<BatchKey, int>, newId: Id -> Id)

  // ----- Time order

  predicate NotAfter(a: LedgerRow, b: LedgerRow) {
    a.createdAt < b.createdAt || (a.createdAt == b.createdAt && a.id <= b.id)
  }

  function InsertByTime(sorted: seq<LedgerRow>, row: LedgerRow): (r: seq<LedgerRow>)
    ensures multiset(r) == multiset(sorted) + multiset{row}
  {
    if sorted == [] || NotAfter(sorted[|sorted| - 1], row) then sorted + [row]
    else
      var n := |sorted| - 1;
      assert sorted == sorted[..n] + [sorted[n]];
      InsertByTime(sorted[..n], row) + [sorted[n]]
  }

  function SortByTime(rows: seq<LedgerRow>): (r: seq<LedgerRow>)
    ensures multiset(r) == multiset(rows)
  {
    if rows == [] then []
    else
      assert rows == rows[..|rows| - 1] + [rows[|rows| - 1]];
      InsertByTime(SortByTime(rows[..|rows| - 1]), rows[|rows| - 1])
  }

  /** Movements of a batch the server hasn't recorded. */
  function Fresh(known: set<Id>, rows: seq<LedgerRow>): (r: seq<LedgerRow>)
    ensures forall row :: row in r <==> row in rows && row.batchId.Some? && row.id !in known
  {
    if rows == [] then []
    else
      var n := |rows| - 1;
      assert rows == rows[..n] + [rows[n]];
      Fresh(known, rows[..n]) + if rows[n].batchId.Some? && rows[n].id !in known then [rows[n]] else []
  }

  // ----- Placing the movements

  datatype Placing = Placing(balance: map<BatchKey, int>, replaced: map<Id, seq<LedgerRow>>, shortfalls: map<BatchKey, int>)

  const NOTHING_PLACED := Placing(map[], map[], map[])

  function KeyOf(row: LedgerRow): (key: BatchKey)
    requires row.batchId.Some?
  {
    BatchKey(row.branchId, row.batchId.value)
  }

  function At(m: map<BatchKey, int>, key: BatchKey, otherwise: int): (r: int) {
    if key in m then m[key] else otherwise
  }

  function OnHand(ctx: BatchContext, p: Placing, key: BatchKey): (r: int) {
    At(p.balance, key, At(ctx.stock, key, 0))
  }

  predicate OfItsBatch(ctx: BatchContext, row: LedgerRow) {
    row.batchId.Some? && row.batchId.value in ctx.itemOf && ctx.itemOf[row.batchId.value] == row.itemId
  }

  predicate TakesOut(row: LedgerRow) {
    row.txnType.SaleTxn? && row.qtyOut > 0
  }

  /** A movement with `taken` of it from its batch and the rest without one. */
  function SplitRow(row: LedgerRow, taken: int, newId: Id): (r: seq<LedgerRow>) {
    var unbatched := row.(batchId := None, qtyOut := row.qtyOut - taken);
    if taken > 0 then [row.(qtyOut := taken), unbatched.(id := newId)] else [unbatched]
  }

  function PlaceRow(ctx: BatchContext, p: Placing, row: LedgerRow): (r: Placing) {
    if !OfItsBatch(ctx, row) then p
    else
      var key := KeyOf(row);
      var onHand := OnHand(ctx, p, key);
      if !TakesOut(row) then p.(balance := p.balance[key := onHand + row.qtyIn - row.qtyOut])
      else
        var fromBatch := Min(row.qtyOut, Max(onHand, 0));
        var short := row.qtyOut - fromBatch;
        var moved := p.(balance := p.balance[key := onHand - fromBatch]);
        if short <= 0 then moved
        else moved.(
          replaced := p.replaced[row.id := SplitRow(row, fromBatch, ctx.newId(row.id))],
          shortfalls := p.shortfalls[key := At(p.shortfalls, key, 0) + short])
  }

  function PlaceRows(ctx: BatchContext, rows: seq<LedgerRow>): (r: Placing) {
    if rows == [] then NOTHING_PLACED else PlaceRow(ctx, PlaceRows(ctx, rows[..|rows| - 1]), rows[|rows| - 1])
  }

  function Replacement(replaced: map<Id, seq<LedgerRow>>, row: LedgerRow): (r: seq<LedgerRow>) {
    if row.id in replaced then replaced[row.id] else [row]
  }

  function Split(replaced: map<Id, seq<LedgerRow>>, ledger: seq<LedgerRow>): (r: seq<LedgerRow>) {
    if ledger == [] then []
    else Split(replaced, ledger[..|ledger| - 1]) + Replacement(replaced, ledger[|ledger| - 1])
  }

  function SplitInvoices(replaced: map<Id, seq<LedgerRow>>, invoices: seq<InvoiceEntry>): (r: seq<InvoiceEntry>)
    ensures |r| == |invoices|
  {
    seq(|invoices|, i requires 0 <= i < |invoices| => invoices[i].(ledger := Split(replaced, invoices[i].ledger)))
  }

  function SplitReturns(replaced: map<Id, seq<LedgerRow>>, givenBack: seq<ReturnEntry>): (r: seq<ReturnEntry>)
    ensures |r| == |givenBack|
  {
    seq(|givenBack|, i requires 0 <= i < |givenBack| => givenBack[i].(ledger := Split(replaced, givenBack[i].ledger)))
  }

  /** The movements placed: unrecorded ones of a batch, in time order. */
  function Ordered(ctx: BatchContext, invoices: seq<InvoiceEntry>, givenBack: seq<ReturnEntry>): (r: seq<LedgerRow>) {
    SortByTime(Fresh(ctx.known, Movements(invoices, givenBack)))
  }

  lemma PlaceNext(ctx: BatchContext, rows: seq<LedgerRow>, i: nat)
    requires i < |rows|
    ensures PlaceRows(ctx, rows[..i + 1]) == PlaceRow(ctx, PlaceRows(ctx, rows[..i]), rows[i])
  {
    hide PlaceRow;
    assert rows[..i + 1][..i] == rows[..i];
  }

  method PlaceBatchShortfalls(ctx: BatchContext, invoices: seq<InvoiceEntry>, givenBack: seq<ReturnEntry>)
    returns (placed: seq<InvoiceEntry>, placedReturns: seq<ReturnEntry>, shortfalls: map<BatchKey, int>)
    ensures var p := PlaceRows(ctx, Ordered(ctx, invoices, givenBack));
            && placed == SplitInvoices(p.replaced, invoices)
            && placedReturns == SplitReturns(p.replaced, givenBack)
            && shortfalls == p.shortfalls
  {
    hide PlaceRows, SortByTime, Fresh, SplitRow, SplitInvoices, SplitReturns, Min, Max;
    var unplaced := Ordered(ctx, invoices, givenBack);
    var balance: map<BatchKey, int> := map[];
    var replaced: map<Id, seq<LedgerRow>> := map[];
    shortfalls := map[];
    PlaceNone(ctx, unplaced);
    for i := 0 to |unplaced|
      invariant Placing(balance, replaced, shortfalls) == PlaceRows(ctx, unplaced[..i])
    {
      var row := unplaced[i];
      PlaceNext(ctx, unplaced, i);
      if !OfItsBatch(ctx, row) { continue; }
      var key := KeyOf(row);
      var onHand := At(balance, key, At(ctx.stock, key, 0));
      if !row.txnType.SaleTxn? || row.qtyOut <= 0 {
        balance := balance[key := onHand + row.qtyIn - row.qtyOut];
        continue;
      }
      var fromBatch := Min(row.qtyOut, Max(onHand, 0));
      var short := row.qtyOut - fromBatch;
      balance := balance[key := onHand - fromBatch];
      if short <= 0 { continue; }
      replaced := replaced[row.id := SplitRow(row, fromBatch, ctx.newId(row.id))];
      shortfalls := shortfalls[key := At(shortfalls, key, 0) + short];
    }
    assert unplaced[..|unplaced|] == unplaced;
    placed := SplitInvoices(replaced, invoices);
    placedReturns := SplitReturns(replaced, givenBack);
  }

  lemma PlaceNone(ctx: BatchContext, rows: seq<LedgerRow>)
    ensures PlaceRows(ctx, rows[..0]) == NOTHING_PLACED
  {
  }

  // ----- Every item's stock moves by what was sold

  /** What movements change of an item's stock at a branch. */
  function ItemChange(rows: seq<LedgerRow>, branchId: Id, itemId: Id): (r: int) {
    if rows == [] then 0
    else
      var row := rows[|rows| - 1];
      ItemChange(rows[..|rows| - 1], branchId, itemId) + if row.branchId == branchId && row.itemId == itemId then row.Change() else 0
  }

  lemma {:induction false} ItemChangeConcat(a: seq<LedgerRow>, b: seq<LedgerRow>, branchId: Id, itemId: Id)
    ensures ItemChange(a + b, branchId, itemId) == ItemChange(a, branchId, itemId) + ItemChange(b, branchId, itemId)
  {
    if b == [] {
      assert a + b == a;
    } else {
      assert (a + b)[..|a + b| - 1] == a + b[..|b| - 1];
      ItemChangeConcat(a, b[..|b| - 1], branchId, itemId);
    }
  }

  /** A row cut in two at `taken`, or moved off its batch whole. */
  ghost predicate IsSplit(row: LedgerRow, pieces: seq<LedgerRow>) {
    exists taken, newId :: 0 <= taken < row.qtyOut && pieces == SplitRow(row, taken, newId)
  }

  ghost predicate SplitsOf(replaced: map<Id, seq<LedgerRow>>, rows: seq<LedgerRow>) {
    forall row :: row in rows && row.id in replaced ==> IsSplit(row, replaced[row.id])
  }

  /** Primary keys: a row's id is no other row's. */
  ghost predicate DistinctIds(rows: seq<LedgerRow>) {
    forall i, j :: 0 <= i < j < |rows| ==> rows[i].id != rows[j].id
  }

  /** As verifyOutbox requires of a bill's movements: a sale brings nothing in. */
  ghost predicate SalesBringNothingIn(rows: seq<LedgerRow>) {
    forall row :: row in rows && row.txnType.SaleTxn? ==> row.qtyIn == 0
  }

  lemma PieceChange(row: LedgerRow, pieces: seq<LedgerRow>, branchId: Id, itemId: Id)
    requires IsSplit(row, pieces) && row.qtyIn == 0
    ensures ItemChange(pieces, branchId, itemId) == ItemChange([row], branchId, itemId)
  {
    var taken, newId :| 0 <= taken < row.qtyOut && pieces == SplitRow(row, taken, newId);
    assert [row][..0] == [];
    if taken > 0 {
      assert pieces == [pieces[0]] + [pieces[1]];
      ItemChangeConcat([pieces[0]], [pieces[1]], branchId, itemId);
      assert [pieces[0]][..0] == [] && [pieces[1]][..0] == [];
    }
  }

  lemma {:induction false} SplitKeepsChange(replaced: map<Id, seq<LedgerRow>>, ledger: seq<LedgerRow>, branchId: Id, itemId: Id)
    requires SplitsOf(replaced, ledger)
    requires forall row :: row in ledger && row.id in replaced ==> row.qtyIn == 0
    ensures ItemChange(Split(replaced, ledger), branchId, itemId) == ItemChange(ledger, branchId, itemId)
  {
    hide IsSplit;
    if ledger != [] {
      var n := |ledger| - 1;
      var row := ledger[n];
      assert ledger == ledger[..n] + [row];
      assert forall r :: r in ledger[..n] ==> r in ledger;
      assert row in ledger;
      SplitKeepsChange(replaced, ledger[..n], branchId, itemId);
      ItemChangeConcat(Split(replaced, ledger[..n]), Replacement(replaced, row), branchId, itemId);
      ItemChangeConcat(ledger[..n], [row], branchId, itemId);
      if row.id in replaced { PieceChange(row, replaced[row.id], branchId, itemId); }
    }
  }

  /** Every replacement is a cut of one of the movements placed, a sale's. */
  lemma {:induction false} ReplacedAreSplits(ctx: BatchContext, rows: seq<LedgerRow>)
    ensures forall id :: id in PlaceRows(ctx, rows).replaced ==>
              exists row :: row in rows && row.id == id && TakesOut(row) && IsSplit(row, PlaceRows(ctx, rows).replaced[id])
  {
    if rows != [] {
      var n := |rows| - 1;
      var row := rows[n];
      ReplacedAreSplits(ctx, rows[..n]);
      var before, after := PlaceRows(ctx, rows[..n]).replaced, PlaceRows(ctx, rows).replaced;
      forall id | id in after
        ensures exists r :: r in rows && r.id == id && TakesOut(r) && IsSplit(r, after[id])
      {
        if id !in before || after[id] != before[id] {
          PlaceRowSplits(ctx, PlaceRows(ctx, rows[..n]), row);
          assert row in rows;
        } else {
          var r :| r in rows[..n] && r.id == id && TakesOut(r) && IsSplit(r, before[id]);
          assert r in rows;
        }
      }
    }
  }

  lemma PlaceRowSplits(ctx: BatchContext, p: Placing, row: LedgerRow)
    ensures var r := PlaceRow(ctx, p, row);
            r.replaced == p.replaced ||
            (TakesOut(row) && row.id in r.replaced && IsSplit(row, r.replaced[row.id]) && r.replaced == p.replaced[row.id := r.replaced[row.id]])
  {
    if OfItsBatch(ctx, row) && TakesOut(row) {
      var fromBatch := Min(row.qtyOut, Max(OnHand(ctx, p, KeyOf(row)), 0));
      if fromBatch < row.qtyOut {
        assert IsSplit(row, SplitRow(row, fromBatch, ctx.newId(row.id)));
      }
    }
  }

  lemma OneOfEach(rows: seq<LedgerRow>, a: LedgerRow, b: LedgerRow)
    requires DistinctIds(rows) && a in rows && b in rows && a.id == b.id
    ensures a == b
  {
    var i :| 0 <= i < |rows| && rows[i] == a;
    var j :| 0 <= j < |rows| && rows[j] == b;
  }

  /** What placing replaces of rows with ids of their own is a cut of the row itself. */
  lemma PlacedSplits(ctx: BatchContext, rows: seq<LedgerRow>, all: seq<LedgerRow>)
    requires DistinctIds(all) && forall row :: row in rows ==> row in all
    ensures SplitsOf(PlaceRows(ctx, rows).replaced, all)
    ensures forall row :: row in all && row.id in PlaceRows(ctx, rows).replaced ==> TakesOut(row)
  {
    hide PlaceRows, IsSplit, DistinctIds;
    var replaced := PlaceRows(ctx, rows).replaced;
    ReplacedAreSplits(ctx, rows);
    forall row | row in all && row.id in replaced ensures IsSplit(row, replaced[row.id]) && TakesOut(row) {
      var r :| r in rows && r.id == row.id && TakesOut(r) && IsSplit(r, replaced[row.id]);
      OneOfEach(all, r, row);
    }
  }

  lemma OrderedFrom(ctx: BatchContext, invoices: seq<InvoiceEntry>, givenBack: seq<ReturnEntry>)
    ensures forall row :: row in Ordered(ctx, invoices, givenBack) ==> row in Movements(invoices, givenBack)
  {
    var rows := Fresh(ctx.known, Movements(invoices, givenBack));
    forall row | row in Ordered(ctx, invoices, givenBack) ensures row in Movements(invoices, givenBack) {
      assert row in multiset(SortByTime(rows));
      assert row in multiset(rows);
    }
  }

  lemma {:induction false} SplitConcat(replaced: map<Id, seq<LedgerRow>>, a: seq<LedgerRow>, b: seq<LedgerRow>)
    ensures Split(replaced, a + b) == Split(replaced, a) + Split(replaced, b)
  {
    if b == [] {
      assert a + b == a;
    } else {
      assert (a + b)[..|a + b| - 1] == a + b[..|b| - 1];
      SplitConcat(replaced, a, b[..|b| - 1]);
    }
  }

  lemma {:induction false} SplitInvoiceMovements(replaced: map<Id, seq<LedgerRow>>, invoices: seq<InvoiceEntry>)
    ensures InvoiceMovements(SplitInvoices(replaced, invoices)) == Split(replaced, InvoiceMovements(invoices))
  {
    if invoices != [] {
      var n := |invoices| - 1;
      SplitInvoiceMovements(replaced, invoices[..n]);
      assert SplitInvoices(replaced, invoices)[..n] == SplitInvoices(replaced, invoices[..n]);
      SplitConcat(replaced, InvoiceMovements(invoices[..n]), invoices[n].ledger);
    }
  }

  lemma {:induction false} SplitReturnMovements(replaced: map<Id, seq<LedgerRow>>, givenBack: seq<ReturnEntry>)
    ensures ReturnMovements(SplitReturns(replaced, givenBack)) == Split(replaced, ReturnMovements(givenBack))
  {
    if givenBack != [] {
      var n := |givenBack| - 1;
      SplitReturnMovements(replaced, givenBack[..n]);
      assert SplitReturns(replaced, givenBack)[..n] == SplitReturns(replaced, givenBack[..n]);
      SplitConcat(replaced, ReturnMovements(givenBack[..n]), givenBack[n].ledger);
    }
  }

  lemma SplitMovements(replaced: map<Id, seq<LedgerRow>>, invoices: seq<InvoiceEntry>, givenBack: seq<ReturnEntry>)
    ensures Movements(SplitInvoices(replaced, invoices), SplitReturns(replaced, givenBack)) == Split(replaced, Movements(invoices, givenBack))
  {
    SplitInvoiceMovements(replaced, invoices);
    SplitReturnMovements(replaced, givenBack);
    SplitConcat(replaced, InvoiceMovements(invoices), ReturnMovements(givenBack));
  }

  /** Placing the shortfalls keeps every branch's change of every item's stock. */
  lemma PlacingKeepsItemStock(ctx: BatchContext, invoices: seq<InvoiceEntry>, givenBack: seq<ReturnEntry>, branchId: Id, itemId: Id)
    requires DistinctIds(Movements(invoices, givenBack)) && SalesBringNothingIn(Movements(invoices, givenBack))
    ensures var replaced := PlaceRows(ctx, Ordered(ctx, invoices, givenBack)).replaced;
            ItemChange(Movements(SplitInvoices(replaced, invoices), SplitReturns(replaced, givenBack)), branchId, itemId)
              == ItemChange(Movements(invoices, givenBack), branchId, itemId)
  {
    hide Movements, Ordered, PlaceRows, DistinctIds, SplitsOf, Split;
    var replaced := PlaceRows(ctx, Ordered(ctx, invoices, givenBack)).replaced;
    OrderedFrom(ctx, invoices, givenBack);
    PlacedSplits(ctx, Ordered(ctx, invoices, givenBack), Movements(invoices, givenBack));
    SplitMovements(replaced, invoices, givenBack);
    SplitKeepsChange(replaced, Movements(invoices, givenBack), branchId, itemId);
  }

  // ----- A batch's stock and its shortfall

  /** What a batch's movements would do to it, sales in full. */
  function Moves(ctx: BatchContext, rows: seq<LedgerRow>, key: BatchKey): (r: seq<int>) {
    if rows == [] then []
    else
      var row := rows[|rows| - 1];
      var before := Moves(ctx, rows[..|rows| - 1], key);
      if OfItsBatch(ctx, row) && KeyOf(row) == key then before + [MoveOf(row)] else before
  }

  function MoveOf(row: LedgerRow): (r: int) { if TakesOut(row) then -row.qtyOut else row.Change() }

  /** The most the movements, taken up to any one of them, go below the stock they start from. */
  function Deficit(start: int, moves: seq<int>): (r: nat) {
    if moves == [] then Max(0, -start) else Max(Deficit(start, moves[..|moves| - 1]), -(start + Sum(moves)))
  }

  /** Movements of a batch other than sales bring in at least what they take out. */
  ghost predicate OthersBringIn(ctx: BatchContext, rows: seq<LedgerRow>, key: BatchKey) {
    forall row :: row in rows && OtherMove(ctx, row, key) ==> row.Change() >= 0
  }

  predicate OtherMove(ctx: BatchContext, row: LedgerRow, key: BatchKey) { OfItsBatch(ctx, row) && KeyOf(row) == key && !TakesOut(row) }

  function Short(p: Placing, key: BatchKey): (r: int) { At(p.shortfalls, key, 0) }

  /** One movement, seen from one batch. */
  lemma PlaceRowAt(ctx: BatchContext, p: Placing, row: LedgerRow, key: BatchKey)
    ensures var r := PlaceRow(ctx, p, row);
            if OfItsBatch(ctx, row) && KeyOf(row) == key then
              var onHand := OnHand(ctx, p, key);
              var short := if TakesOut(row) then row.qtyOut - Min(row.qtyOut, Max(onHand, 0)) else 0;
              && OnHand(ctx, r, key) == onHand + MoveOf(row) + short
              && Short(r, key) == Short(p, key) + short
            else OnHand(ctx, r, key) == OnHand(ctx, p, key) && Short(r, key) == Short(p, key)
  {
  }

  lemma DeficitStep(start: int, moves: seq<int>, move: int)
    ensures Sum(moves + [move]) == Sum(moves) + move
    ensures Deficit(start, moves + [move]) == Max(Deficit(start, moves), -(start + Sum(moves) + move))
  {
    assert (moves + [move])[..|moves|] == moves;
  }

  /** No other way of keeping the batch from going below nothing leaves less of its sales out of it. */
  lemma {:induction false} NoSmallerShortfall(start: nat, moves: seq<int>, left: seq<nat>)
    requires |left| == |moves|
    requires forall k :: 0 <= k <= |moves| ==> start + Sum(moves[..k]) + Sum(left[..k]) >= 0
    ensures Sum(left) >= Deficit(start, moves)
  {
    if moves != [] {
      var n := |moves| - 1;
      forall k | 0 <= k <= n ensures start + Sum(moves[..n][..k]) + Sum(left[..n][..k]) >= 0 {
        assert moves[..n][..k] == moves[..k] && left[..n][..k] == left[..k];
      }
      NoSmallerShortfall(start, moves[..n], left[..n]);
      assert moves[..|moves|] == moves && left[..|left|] == left;
    }
  }

  /** What placing leaves of a batch that has not been below nothing so far: its shortfall is the deepest deficit so far. */
  ghost predicate AsDeficit(ctx: BatchContext, rows: seq<LedgerRow>, key: BatchKey) {
    var p, start, moves := PlaceRows(ctx, rows), At(ctx.stock, key, 0), Moves(ctx, rows, key);
    Short(p, key) == Deficit(start, moves) && OnHand(ctx, p, key) == start + Sum(moves) + Short(p, key)
  }

  /**
   * A movement of the batch that takes out, other than a sale, takes no more than its start, the movements before it,
   * sales in full, and the deepest those went below leave.
   */
  ghost predicate Covered(ctx: BatchContext, rows: seq<LedgerRow>, k: nat, key: BatchKey)
    requires k < |rows|
  {
    var start, moves := At(ctx.stock, key, 0), Moves(ctx, rows[..k], key);
    OtherMove(ctx, rows[k], key) && rows[k].Change() < 0 ==> start + Sum(moves) + Deficit(start, moves) + rows[k].Change() >= 0
  }

  /** The batch never has less than nothing, however many of the movements are placed. */
  ghost predicate NeverBelow(ctx: BatchContext, rows: seq<LedgerRow>, key: BatchKey) {
    forall k :: 0 <= k <= |rows| ==> OnHand(ctx, PlaceRows(ctx, rows[..k]), key) >= 0
  }

  lemma NothingPlacedYet(ctx: BatchContext, rows: seq<LedgerRow>, key: BatchKey)
    ensures OnHand(ctx, PlaceRows(ctx, rows[..0]), key) == At(ctx.stock, key, 0)
    ensures At(ctx.stock, key, 0) >= 0 ==> AsDeficit(ctx, rows[..0], key)
  {
  }

  lemma NextMove(ctx: BatchContext, rows: seq<LedgerRow>, k: nat, key: BatchKey)
    requires k < |rows|
    ensures var before := Moves(ctx, rows[..k], key);
            Moves(ctx, rows[..k + 1], key) == if OfItsBatch(ctx, rows[k]) && KeyOf(rows[k]) == key then before + [MoveOf(rows[k])] else before
  {
    hide OfItsBatch, MoveOf;
    assert rows[..k + 1][..k] == rows[..k];
  }

  /** One movement more: the batch is not below nothing exactly when the movement is covered, and then the deficit is kept up. */
  lemma NextPlaced(ctx: BatchContext, rows: seq<LedgerRow>, k: nat, key: BatchKey)
    requires k < |rows| && AsDeficit(ctx, rows[..k], key) && OnHand(ctx, PlaceRows(ctx, rows[..k]), key) >= 0
    ensures OnHand(ctx, PlaceRows(ctx, rows[..k + 1]), key) >= 0 <==> Covered(ctx, rows, k, key)
    ensures Covered(ctx, rows, k, key) ==> AsDeficit(ctx, rows[..k + 1], key)
  {
    hide PlaceRow, TakesOut, PlaceRows, Deficit, Moves, OfItsBatch, Sum, OnHand, Short;
    PlaceNext(ctx, rows, k);
    PlaceRowAt(ctx, PlaceRows(ctx, rows[..k]), rows[k], key);
    NextMove(ctx, rows, k, key);
    DeficitStep(At(ctx.stock, key, 0), Moves(ctx, rows[..k], key), MoveOf(rows[k]));
  }

  /** So far so good: as long as the batch has not been below nothing, what is left and short is as its movements have it. */
  lemma {:induction false} DeficitSoFar(ctx: BatchContext, rows: seq<LedgerRow>, k: nat, key: BatchKey)
    requires k <= |rows| && forall j :: 0 <= j <= k ==> OnHand(ctx, PlaceRows(ctx, rows[..j]), key) >= 0
    ensures AsDeficit(ctx, rows[..k], key) && forall j :: 0 <= j < k ==> Covered(ctx, rows, j, key)
  {
    hide PlaceRows, AsDeficit, Covered;
    NothingPlacedYet(ctx, rows, key);
    if k > 0 {
      DeficitSoFar(ctx, rows, k - 1, key);
      NextPlaced(ctx, rows, k - 1, key);
    }
  }

  lemma {:induction false} UpSoFar(ctx: BatchContext, rows: seq<LedgerRow>, k: nat, key: BatchKey)
    requires At(ctx.stock, key, 0) >= 0 && k <= |rows| && forall j :: 0 <= j < k ==> Covered(ctx, rows, j, key)
    ensures AsDeficit(ctx, rows[..k], key) && forall j :: 0 <= j <= k ==> OnHand(ctx, PlaceRows(ctx, rows[..j]), key) >= 0
  {
    hide PlaceRows, AsDeficit, Covered;
    NothingPlacedYet(ctx, rows, key);
    if k > 0 {
      UpSoFar(ctx, rows, k - 1, key);
      NextPlaced(ctx, rows, k - 1, key);
    }
  }

  /**
   * A batch that starts with no less than nothing is never below it if and only if each movement other than a sale
   * that takes out is covered: sales never take it below. Then its shortfall is exactly the deepest its movements, in
   * time order, would have taken it below, and it has what they leave and that.
   */
  lemma NeverBelowWhen(ctx: BatchContext, rows: seq<LedgerRow>, key: BatchKey)
    requires At(ctx.stock, key, 0) >= 0
    ensures NeverBelow(ctx, rows, key) <==> forall k :: 0 <= k < |rows| ==> Covered(ctx, rows, k, key)
    ensures NeverBelow(ctx, rows, key) ==> AsDeficit(ctx, rows, key) && OnHand(ctx, PlaceRows(ctx, rows), key) >= 0
  {
    hide PlaceRows, AsDeficit, Covered;
    assert rows[..|rows|] == rows;
    if NeverBelow(ctx, rows, key) { DeficitSoFar(ctx, rows, |rows|, key); }
    if forall k :: 0 <= k < |rows| ==> Covered(ctx, rows, k, key) { UpSoFar(ctx, rows, |rows|, key); }
  }

  /** With movements other than sales bringing in, it never ends below nothing, and so much is its shortfall. */
  lemma ShortfallIsDeepestDeficit(ctx: BatchContext, rows: seq<LedgerRow>, key: BatchKey)
    requires At(ctx.stock, key, 0) >= 0 && OthersBringIn(ctx, rows, key)
    ensures var p, start, moves := PlaceRows(ctx, rows), At(ctx.stock, key, 0), Moves(ctx, rows, key);
            && Short(p, key) == Deficit(start, moves)
            && OnHand(ctx, p, key) == start + Sum(moves) + Short(p, key) >= 0
  {
    hide PlaceRows, Deficit, Moves, OtherMove;
    forall k | 0 <= k < |rows| ensures Covered(ctx, rows, k, key) { assert rows[k] in rows; }
    NeverBelowWhen(ctx, rows, key);
  }
}
