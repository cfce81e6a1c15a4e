/**
 * Stock and batch shortfalls when an outbox is sent, and sent again with more movements: the first
 * movements are left alone, and the later ones go on from the stock they left.
 */
module GrownStock {
  import opened BatchShortfalls
  import opened OutboxRows
  import opened ServerTables
  import opened Tables

  // ----- Stock follows the ledger

  function ItemMoves(key: ItemKey): LedgerRow -> int {
    (row: LedgerRow) => if ItemKeyOf(row) == key then row.Change() else 0
  }

  function BatchMoves(key: BatchKey): LedgerRow -> int {
    (row: LedgerRow) => if row.batchId.Some? && KeyOf(row) == key then row.Change() else 0
  }

  lemma {:induction false} RecordedLedger(st: Stock, rows: seq<LedgerRow>)
    ensures RecordAll(st, rows).ledger == Insert(st.ledger, rows, LEDGER_ID)
  {
    if rows == [] {
      InsertNone(st.ledger, LEDGER_ID);
    } else {
      RecordedLedger(st, rows[..|rows| - 1]);
      InsertStep(st.ledger, rows, LEDGER_ID);
    }
  }

  /** What an item and a batch have beyond what the ledger comes to never changes. */
  lemma {:induction false} StockFollowsLedger(st: Stock, rows: seq<LedgerRow>, item: ItemKey, batch: BatchKey)
    ensures var r := RecordAll(st, rows);
            && ItemQty(r.items, item) - TableTotal(r.ledger, ItemMoves(item)) == ItemQty(st.items, item) - TableTotal(st.ledger, ItemMoves(item))
            && At(r.batches, batch, 0) - TableTotal(r.ledger, BatchMoves(batch)) == At(st.batches, batch, 0) - TableTotal(st.ledger, BatchMoves(batch))
  {
    hide TableTotal;
    if rows != [] {
      var n := |rows| - 1;
      StockFollowsLedger(st, rows[..n], item, batch);
      var before := RecordAll(st, rows[..n]);
      if rows[n].id !in before.ledger {
        TotalInsert(before.ledger, ItemMoves(item), rows[n].id, rows[n]);
        TotalInsert(before.ledger, BatchMoves(batch), rows[n].id, rows[n]);
      }
    }
  }

  ghost predicate TouchesItem(old': map<Id, LedgerRow>, new': map<Id, LedgerRow>, item: ItemKey) {
    exists id :: id in new' && id !in old' && ItemKeyOf(new'[id]) == item
  }

  ghost predicate TouchesBatch(old': map<Id, LedgerRow>, new': map<Id, LedgerRow>, batch: BatchKey) {
    exists id :: id in new' && id !in old' && new'[id].batchId.Some? && KeyOf(new'[id]) == batch
  }

  lemma TouchesMore(old': map<Id, LedgerRow>, before: map<Id, LedgerRow>, row: LedgerRow, item: ItemKey, batch: BatchKey)
    requires row.id !in before && old'.Keys <= before.Keys
    ensures TouchesItem(old', before[row.id := row], item) <==> TouchesItem(old', before, item) || ItemKeyOf(row) == item
    ensures TouchesBatch(old', before[row.id := row], batch)
            <==> TouchesBatch(old', before, batch) || (row.batchId.Some? && KeyOf(row) == batch)
  {
    var after := before[row.id := row];
    assert after[row.id] == row && row.id in after && row.id !in old';
    forall id | id in before ensures id in after && after[id] == before[id] {}
  }

  lemma {:induction false} StockKeys(st: Stock, rows: seq<LedgerRow>, item: ItemKey, batch: BatchKey)
    ensures var r := RecordAll(st, rows);
            && st.ledger.Keys <= r.ledger.Keys
            && (item in r.items <==> item in st.items || TouchesItem(st.ledger, r.ledger, item))
            && (batch in r.batches <==> batch in st.batches || TouchesBatch(st.ledger, r.ledger, batch))
  {
    hide TouchesItem, TouchesBatch;
    if rows == [] {
      NothingTouched(st.ledger, item, batch);
    } else {
      var n := |rows| - 1;
      StockKeys(st, rows[..n], item, batch);
      var before := RecordAll(st, rows[..n]);
      if rows[n].id !in before.ledger { TouchesMore(st.ledger, before.ledger, rows[n], item, batch); }
    }
  }

  lemma NothingTouched(ledger: map<Id, LedgerRow>, item: ItemKey, batch: BatchKey)
    ensures !TouchesItem(ledger, ledger, item) && !TouchesBatch(ledger, ledger, batch)
  {
  }

  /** Stock depends only on the stock before and on what the ledger comes to hold. */
  lemma SameLedgerSameStock(st: Stock, direct: seq<LedgerRow>, first: seq<LedgerRow>, second: seq<LedgerRow>)
    requires RecordAll(RecordAll(st, first), second).ledger == RecordAll(st, direct).ledger
    ensures RecordAll(RecordAll(st, first), second) == RecordAll(st, direct)
  {
    hide RecordAll, TableTotal, TouchesItem, TouchesBatch;
    var a, mid, b := RecordAll(st, direct), RecordAll(st, first), RecordAll(RecordAll(st, first), second);
    forall item: ItemKey ensures (item in a.items <==> item in b.items) && ItemQty(a.items, item) == ItemQty(b.items, item) {
      SameItem(st, direct, first, second, item, BatchKey(0, 0));
    }
    forall batch: BatchKey ensures (batch in a.batches <==> batch in b.batches) && At(a.batches, batch, 0) == At(b.batches, batch, 0) {
      SameItem(st, direct, first, second, ItemKey(0, 0), batch);
    }
    SameItems(a.items, b.items);
    SameBatches(a.batches, b.batches);
  }

  lemma SameItems(a: map<ItemKey, int>, b: map<ItemKey, int>)
    requires forall key: ItemKey :: (key in a <==> key in b) && ItemQty(a, key) == ItemQty(b, key)
    ensures a == b
  {
    forall key: ItemKey | key in a ensures key in b && a[key] == b[key] {
      assert ItemQty(a, key) == ItemQty(b, key);
    }
    assert a.Keys == b.Keys;
  }

  lemma SameBatches(a: map<BatchKey, int>, b: map<BatchKey, int>)
    requires forall key: BatchKey :: (key in a <==> key in b) && At(a, key, 0) == At(b, key, 0)
    ensures a == b
  {
    forall key: BatchKey | key in a ensures key in b && a[key] == b[key] {
      assert At(a, key, 0) == At(b, key, 0);
    }
    assert a.Keys == b.Keys;
  }

  lemma SameItem(st: Stock, direct: seq<LedgerRow>, first: seq<LedgerRow>, second: seq<LedgerRow>, item: ItemKey, batch: BatchKey)
    requires RecordAll(RecordAll(st, first), second).ledger == RecordAll(st, direct).ledger
    ensures var a, b := RecordAll(st, direct), RecordAll(RecordAll(st, first), second);
            && (item in a.items <==> item in b.items) && ItemQty(a.items, item) == ItemQty(b.items, item)
            && (batch in a.batches <==> batch in b.batches) && At(a.batches, batch, 0) == At(b.batches, batch, 0)
  {
    hide RecordAll, TableTotal;
    var mid := RecordAll(st, first);
    StockFollowsLedger(st, direct, item, batch);
    StockFollowsLedger(st, first, item, batch);
    StockFollowsLedger(mid, second, item, batch);
    StockKeys(st, direct, item, batch);
    StockKeys(st, first, item, batch);
    StockKeys(mid, second, item, batch);
    RecordedLedger(st, first);
    RecordedLedger(mid, second);
    TouchesInTwo(st.ledger, mid.ledger, RecordAll(mid, second).ledger, item, batch);
  }

  lemma TouchesInTwo(a: map<Id, LedgerRow>, b: map<Id, LedgerRow>, c: map<Id, LedgerRow>, item: ItemKey, batch: BatchKey)
    requires forall id :: id in a ==> id in b && b[id] == a[id]
    requires forall id :: id in b ==> id in c && c[id] == b[id]
    ensures TouchesItem(a, c, item) <==> TouchesItem(a, b, item) || TouchesItem(b, c, item)
    ensures TouchesBatch(a, c, batch) <==> TouchesBatch(a, b, batch) || TouchesBatch(b, c, batch)
  {
    if TouchesItem(a, c, item) {
      var id :| id in c && id !in a && ItemKeyOf(c[id]) == item;
      assert id in b || id !in b;
    }
    if TouchesBatch(a, c, batch) {
      var id :| id in c && id !in a && c[id].batchId.Some? && KeyOf(c[id]) == batch;
      assert id in b || id !in b;
    }
  }
}
