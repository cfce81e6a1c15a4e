/** The movements of an outbox once cut for batch shortfalls: their ids, and what they do to a batch. */
module Cuts {
  import opened BatchShortfalls
  import opened GrownStock
  import opened OutboxRows
  import opened Rounding
  import opened ServerTables
  import opened Tables

  // ----- The pieces of a movement

  /** A cut leaves a piece under the movement's own id, and at most one more, under a new id. */
  ghost predicate CutWell(replaced: map<Id, seq<LedgerRow>>, newId: Id -> Id) {
    forall id :: id in replaced ==>
      && 1 <= |replaced[id]| <= 2 && replaced[id][0].id == id
      && (|replaced[id]| == 2 ==> replaced[id][1].id == newId(id))
  }

  lemma {:induction false} PlacedCutWell(ctx: BatchContext, rows: seq<LedgerRow>)
    ensures CutWell(PlaceRows(ctx, rows).replaced, ctx.newId)
    ensures forall id :: id in PlaceRows(ctx, rows).replaced ==> exists i :: 0 <= i < |rows| && rows[i].id == id
  {
    if rows != [] {
      var n := |rows| - 1;
      PlacedCutWell(ctx, rows[..n]);
      PlaceRowCuts(ctx, PlaceRows(ctx, rows[..n]), rows[n]);
      forall id | id in PlaceRows(ctx, rows[..n]).replaced ensures exists i :: 0 <= i < |rows| && rows[i].id == id {
        var i :| 0 <= i < n && rows[..n][i].id == id;
        assert rows[i].id == id;
      }
    }
  }

  lemma PlaceRowCuts(ctx: BatchContext, p: Placing, row: LedgerRow)
    requires CutWell(p.replaced, ctx.newId)
    ensures CutWell(PlaceRow(ctx, p, row).replaced, ctx.newId)
    ensures forall id :: id in PlaceRow(ctx, p, row).replaced ==> id in p.replaced || id == row.id
  {
  }

  lemma {:induction false} SplitHas(replaced: map<Id, seq<LedgerRow>>, rows: seq<LedgerRow>, piece: LedgerRow)
    ensures piece in Split(replaced, rows) <==> exists row :: row in rows && piece in Replacement(replaced, row)
  {
    if rows != [] {
      var n := |rows| - 1;
      assert rows == rows[..n] + [rows[n]];
      SplitHas(replaced, rows[..n], piece);
      assert rows[n] in rows;
      if piece in Replacement(replaced, rows[n]) { assert piece in Split(replaced, rows); }
    }
  }

  /** Ids drawn for the pieces are no other movement's, and no two alike. */
  ghost predicate NewIdsApart(newId: Id -> Id, taken: set<Id>, rows: seq<LedgerRow>) {
    && (forall row :: row in rows ==> newId(row.id) !in taken)
    && (forall a, b :: a in rows && b in rows ==> newId(a.id) != b.id && (newId(a.id) == newId(b.id) ==> a.id == b.id))
  }

  lemma PieceIds(replaced: map<Id, seq<LedgerRow>>, newId: Id -> Id, row: LedgerRow)
    requires CutWell(replaced, newId)
    ensures var pieces := Replacement(replaced, row);
            && 1 <= |pieces| <= 2 && pieces[0].id == row.id && (|pieces| == 2 ==> pieces[1].id == newId(row.id))
  {
  }

  /** Pieces of different movements have different ids, and so do the two of one. */
  lemma {:induction false} PiecesDistinct(replaced: map<Id, seq<LedgerRow>>, newId: Id -> Id, taken: set<Id>, rows: seq<LedgerRow>)
    requires CutWell(replaced, newId) && DistinctIds(rows) && NewIdsApart(newId, taken, rows)
    ensures DistinctKeys(Split(replaced, rows), LEDGER_ID)
  {
    hide CutWell, NewIdsApart, Replacement;
    if rows != [] {
      var n := |rows| - 1;
      FewerApart(newId, taken, rows);
      PiecesDistinct(replaced, newId, taken, rows[..n]);
      var front, back := Split(replaced, rows[..n]), Replacement(replaced, rows[n]);
      PieceIds(replaced, newId, rows[n]);
      forall i, j | 0 <= i < |front| && 0 <= j < |back| ensures front[i].id != back[j].id {
        SplitHas(replaced, rows[..n], front[i]);
        var row :| row in rows[..n] && front[i] in Replacement(replaced, row);
        PieceIds(replaced, newId, row);
        OtherRow(newId, taken, rows, row);
      }
      assert back[0].id == rows[n].id;
      OtherRow(newId, taken, rows, rows[n]);
      DistinctJoin(front, back);
    }
  }

  lemma FewerApart(newId: Id -> Id, taken: set<Id>, rows: seq<LedgerRow>)
    requires NewIdsApart(newId, taken, rows) && DistinctIds(rows) && rows != []
    ensures NewIdsApart(newId, taken, rows[..|rows| - 1]) && DistinctIds(rows[..|rows| - 1])
  {
  }

  lemma OtherRow(newId: Id -> Id, taken: set<Id>, rows: seq<LedgerRow>, row: LedgerRow)
    requires NewIdsApart(newId, taken, rows) && DistinctIds(rows) && rows != [] && row in rows
    ensures var last := rows[|rows| - 1];
            && newId(row.id) != last.id && newId(last.id) != row.id
            && (row in rows[..|rows| - 1] ==> row.id != last.id && newId(row.id) != newId(last.id))
  {
    assert rows[|rows| - 1] in rows;
  }

  lemma DistinctJoin(a: seq<LedgerRow>, b: seq<LedgerRow>)
    requires DistinctKeys(a, LEDGER_ID) && |b| <= 2 && (|b| == 2 ==> b[0].id != b[1].id)
    requires forall i, j :: 0 <= i < |a| && 0 <= j < |b| ==> a[i].id != b[j].id
    ensures DistinctKeys(a + b, LEDGER_ID)
  {
  }

  // ----- What the pieces do to a batch

  lemma {:induction false} SplitSame(a: map<Id, seq<LedgerRow>>, b: map<Id, seq<LedgerRow>>, rows: seq<LedgerRow>)
    requires forall i :: 0 <= i < |rows| ==> Replacement(a, rows[i]) == Replacement(b, rows[i])
    ensures Split(a, rows) == Split(b, rows)
  {
    hide Replacement;
    if rows != [] { SplitSame(a, b, rows[..|rows| - 1]); }
  }

  lemma SplitRowMoves(row: LedgerRow, taken: int, newId: Id, key: BatchKey)
    requires row.batchId.Some? && row.qtyIn == 0 && 0 <= taken
    ensures RowsTotal(SplitRow(row, taken, newId), BatchMoves(key)) == if KeyOf(row) == key then -taken else 0
  {
    var pieces := SplitRow(row, taken, newId);
    assert pieces[..|pieces| - 1][..0] == [];
    if |pieces| == 2 {
      RowsTotalConcat([pieces[0]], [pieces[1]], BatchMoves(key));
      assert pieces == [pieces[0]] + [pieces[1]];
      assert [pieces[0]][..0] == [] && [pieces[1]][..0] == [];
    }
  }

  lemma PlacedRowMoves(ctx: BatchContext, p: Placing, row: LedgerRow, key: BatchKey)
    requires OfItsBatch(ctx, row) && (TakesOut(row) ==> row.qtyIn == 0) && row.id !in p.replaced
    ensures OnHand(ctx, PlaceRow(ctx, p, row), key) - OnHand(ctx, p, key)
         == RowsTotal(Replacement(PlaceRow(ctx, p, row).replaced, row), BatchMoves(key))
  {
    hide SplitRow;
    var fromBatch := Min(row.qtyOut, Max(OnHand(ctx, p, KeyOf(row)), 0));
    if TakesOut(row) && fromBatch < row.qtyOut {
      SplitRowMoves(row, fromBatch, ctx.newId(row.id), key);
    } else {
      assert [row][..0] == [];
    }
  }

  ghost predicate Placeable(ctx: BatchContext, rows: seq<LedgerRow>) {
    forall i :: 0 <= i < |rows| ==> OfItsBatch(ctx, rows[i]) && (TakesOut(rows[i]) ==> rows[i].qtyIn == 0)
  }

  /** A batch's balance after placing moved by exactly what the pieces move. */
  lemma {:induction false} PlacedMoves(ctx: BatchContext, rows: seq<LedgerRow>, key: BatchKey)
    requires Placeable(ctx, rows) && DistinctIds(rows)
    ensures OnHand(ctx, PlaceRows(ctx, rows), key) - At(ctx.stock, key, 0)
         == RowsTotal(Split(PlaceRows(ctx, rows).replaced, rows), BatchMoves(key))
  {
    hide PlaceRow, OfItsBatch, TakesOut, BatchMoves, Replacement;
    if rows != [] {
      var n := |rows| - 1;
      PlacedMoves(ctx, rows[..n], key);
      var before, after := PlaceRows(ctx, rows[..n]), PlaceRows(ctx, rows);
      NotYetReplaced(ctx, rows);
      PlacedRowMoves(ctx, before, rows[n], key);
      forall i | 0 <= i < n ensures Replacement(before.replaced, rows[..n][i]) == Replacement(after.replaced, rows[..n][i]) {
        OnlyItsOwn(ctx, before, rows[n], rows[i]);
      }
      SplitSame(before.replaced, after.replaced, rows[..n]);
      RowsTotalConcat(Split(after.replaced, rows[..n]), Replacement(after.replaced, rows[n]), BatchMoves(key));
    }
  }

  lemma NotYetReplaced(ctx: BatchContext, rows: seq<LedgerRow>)
    requires rows != [] && DistinctIds(rows)
    ensures rows[|rows| - 1].id !in PlaceRows(ctx, rows[..|rows| - 1]).replaced
  {
    hide PlaceRows;
    PlacedCutWell(ctx, rows[..|rows| - 1]);
  }

  lemma OnlyItsOwn(ctx: BatchContext, p: Placing, row: LedgerRow, other: LedgerRow)
    requires other.id != row.id
    ensures Replacement(PlaceRow(ctx, p, row).replaced, other) == Replacement(p.replaced, other)
  {
  }

  // ----- Time order

  ghost predicate Sorted(rows: seq<LedgerRow>) {
    forall i, j :: 0 <= i < j < |rows| ==> NotAfter(rows[i], rows[j])
  }

  lemma SortedJoin(front: seq<LedgerRow>, last: LedgerRow)
    requires Sorted(front) && forall row :: row in front ==> NotAfter(row, last)
    ensures Sorted(front + [last])
  {
    hide NotAfter;
  }

  lemma SortedFront(rows: seq<LedgerRow>, row: LedgerRow)
    requires Sorted(rows) && rows != []
    ensures Sorted(rows[..|rows| - 1])
    ensures row in rows ==> row == rows[|rows| - 1] || NotAfter(row, rows[|rows| - 1])
  {
    hide NotAfter;
  }

  lemma InTime(a: LedgerRow, b: LedgerRow, c: LedgerRow)
    ensures NotAfter(a, b) || NotAfter(b, a)
    ensures NotAfter(a, b) && NotAfter(b, c) ==> NotAfter(a, c)
  {
  }

  lemma Inserted(sorted: seq<LedgerRow>, row: LedgerRow, other: LedgerRow)
    ensures other in InsertByTime(sorted, row) <==> other in sorted || other == row
  {
    assert other in multiset(InsertByTime(sorted, row)) <==> other in multiset(sorted) + multiset{row};
  }

  lemma {:induction false} InsertedSorted(sorted: seq<LedgerRow>, row: LedgerRow)
    requires Sorted(sorted)
    ensures Sorted(InsertByTime(sorted, row))
  {
    hide Sorted, NotAfter;
    if sorted == [] {
      SortedOne(row);
    } else {
      var n := |sorted| - 1;
      SortedFront(sorted, row);
      InTime(sorted[n], row, row);
      if NotAfter(sorted[n], row) {
        forall other | other in sorted ensures NotAfter(other, row) {
          SortedFront(sorted, other);
          InTime(other, sorted[n], row);
        }
        SortedJoin(sorted, row);
      } else {
        InsertedSorted(sorted[..n], row);
        forall other | other in InsertByTime(sorted[..n], row) ensures NotAfter(other, sorted[n]) {
          Inserted(sorted[..n], row, other);
          if other != row { FrontNotAfter(sorted, other); }
        }
        SortedJoin(InsertByTime(sorted[..n], row), sorted[n]);
      }
    }
  }

  lemma SortedOne(row: LedgerRow)
    ensures Sorted([] + [row])
  {
  }

  lemma FrontNotAfter(rows: seq<LedgerRow>, row: LedgerRow)
    requires Sorted(rows) && rows != [] && row in rows[..|rows| - 1]
    ensures NotAfter(row, rows[|rows| - 1])
  {
    hide NotAfter;
  }

  lemma {:induction false} SortSorted(rows: seq<LedgerRow>)
    ensures Sorted(SortByTime(rows))
  {
    if rows != [] {
      SortSorted(rows[..|rows| - 1]);
      InsertedSorted(SortByTime(rows[..|rows| - 1]), rows[|rows| - 1]);
    }
  }

  /** Movements in time order are in one order only. */
  lemma {:induction false} SortedOnce(a: seq<LedgerRow>, b: seq<LedgerRow>)
    requires Sorted(a) && Sorted(b) && multiset(a) == multiset(b) && OnePerId(a)
    ensures a == b
  {
    hide Sorted, NotAfter, OnePerId;
    assert |a| == |multiset(a)| == |multiset(b)| == |b|;
    if a != [] {
      var n := |a| - 1;
      LastSame(a, b);
      SortedFront(a, a[n]);
      SortedFront(b, b[n]);
      OneFront(a);
      FrontSame(a, b);
      SortedOnce(a[..n], b[..n]);
      assert a == a[..n] + [a[n]] && b == b[..n] + [b[n]];
    }
  }

  lemma FrontSame(a: seq<LedgerRow>, b: seq<LedgerRow>)
    requires |a| == |b| && a != [] && multiset(a) == multiset(b) && a[|a| - 1] == b[|b| - 1]
    ensures multiset(a[..|a| - 1]) == multiset(b[..|b| - 1])
  {
    var n := |a| - 1;
    assert a == a[..n] + [a[n]] && b == b[..n] + [b[n]];
    assert multiset(a[..n]) == multiset(a) - multiset{a[n]};
    assert multiset(b[..n]) == multiset(b) - multiset{b[n]};
  }

  /** An id is one row's only, which may be listed twice. */
  ghost predicate OnePerId(rows: seq<LedgerRow>) {
    forall a, b :: a in rows && b in rows && a.id == b.id ==> a == b
  }

  lemma OneFront(rows: seq<LedgerRow>)
    requires OnePerId(rows) && rows != []
    ensures OnePerId(rows[..|rows| - 1])
  {
  }

  lemma LastSame(a: seq<LedgerRow>, b: seq<LedgerRow>)
    requires Sorted(a) && Sorted(b) && multiset(a) == multiset(b) && OnePerId(a) && a != [] && |a| == |b|
    ensures a[|a| - 1] == b[|b| - 1]
  {
    hide Sorted;
    var n := |a| - 1;
    assert a[n] in multiset(a) && a[n] in multiset(b) && b[n] in multiset(b) && b[n] in multiset(a);
    SortedFront(b, a[n]);
    SortedFront(a, b[n]);
  }

  // ----- Rows with ids of their own, in any order

  /** Each row once, and each id one row's. */
  lemma DistinctCounts(rows: seq<LedgerRow>)
    ensures DistinctIds(rows) ==> OnePerId(rows) && forall row :: multiset(rows)[row] <= 1
  {
    if DistinctIds(rows) {
      forall row ensures multiset(rows)[row] <= 1 { DistinctOnce(rows, row); }
    }
  }

  lemma {:induction false} DistinctOnce(rows: seq<LedgerRow>, row: LedgerRow)
    requires DistinctIds(rows)
    ensures multiset(rows)[row] <= 1
  {
    if rows != [] {
      var n := |rows| - 1;
      assert rows == rows[..n] + [rows[n]];
      DistinctOnce(rows[..n], row);
      if row == rows[n] {
        assert rows[n] !in rows[..n];
        assert multiset(rows[..n])[row] == 0;
      }
    }
  }

  lemma {:induction false} CountsDistinct(rows: seq<LedgerRow>)
    requires OnePerId(rows) && forall row :: multiset(rows)[row] <= 1
    ensures DistinctIds(rows)
  {
    forall i, j | 0 <= i < j < |rows| ensures rows[i].id != rows[j].id {
      CountTwice(rows, i, j);
    }
  }

  lemma CountTwice(rows: seq<LedgerRow>, i: nat, j: nat)
    requires i < j < |rows|
    ensures rows[i] == rows[j] ==> multiset(rows)[rows[i]] >= 2
  {
    assert rows == rows[..j] + [rows[j]] + rows[j + 1..];
    assert rows[..j][i] == rows[i];
    assert rows[i] in multiset(rows[..j]);
  }
}
