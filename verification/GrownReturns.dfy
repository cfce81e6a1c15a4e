/**
 * Returns of bills the server had, checked when an outbox is sent and again when it has grown: what was taken the
 * first time is counted as the server's the second (apps/api/src/fallback/sync-checks.ts).
 */
module GrownReturns {
  import opened GrownSync
  import opened OutboxRows
  import opened ServerTables
  import opened SyncChecks
  import opened Tables

  // ----- Which returns are new

  /** Returns the server doesn't have. */
  function NotThere(table: map<Id, ReturnRow>, entries: seq<ReturnEntry>): (r: seq<ReturnEntry>) {
    if entries == [] then []
    else
      var last := entries[|entries| - 1];
      NotThere(table, entries[..|entries| - 1]) + if last.ret.id in table then [] else [last]
  }

  lemma {:induction false} NewReturnsConcat(d: Documents, bills: set<Id>, a: seq<ReturnEntry>, b: seq<ReturnEntry>)
    ensures NewReturns(d, bills, a + b) == NewReturns(d, bills, a) + NewReturns(d, bills, b)
  {
    if b == [] {
      assert a + b == a;
    } else {
      assert (a + b)[..|a + b| - 1] == a + b[..|b| - 1];
      NewReturnsConcat(d, bills, a, b[..|b| - 1]);
    }
  }

  lemma {:induction false} NewReturnsSame(d: Documents, d1: Documents, bills: set<Id>, bills1: set<Id>, entries: seq<ReturnEntry>)
    requires forall entry :: entry in entries ==> (entry.ret.id in d.givenBack <==> entry.ret.id in d1.givenBack)
    requires forall entry :: entry in entries ==> (entry.ret.saleInvoiceId in bills <==> entry.ret.saleInvoiceId in bills1)
    ensures NewReturns(d, bills, entries) == NewReturns(d1, bills1, entries)
  {
    if entries != [] {
      var n := |entries| - 1;
      assert entries == entries[..n] + [entries[n]];
      NewReturnsSame(d, d1, bills, bills1, entries[..n]);
      assert entries[n] in entries;
    }
  }

  lemma {:induction false} NewReturnsAre(d: Documents, bills: set<Id>, entries: seq<ReturnEntry>, entry: ReturnEntry)
    ensures entry in NewReturns(d, bills, entries) ==> entry in entries && entry.ret.saleInvoiceId !in bills && entry.ret.id !in d.givenBack
  {
    if entries != [] {
      var n := |entries| - 1;
      assert entries == entries[..n] + [entries[n]];
      NewReturnsAre(d, bills, entries[..n], entry);
    }
  }

  // ----- What recording them adds to the tables

  /** A return and its lines are made together, with ids of their own, of lines of its own bill. */
  ghost predicate WholeReturns(d: Documents, entries: seq<ReturnEntry>) {
    && DistinctKeys(ReturnHeads(entries), RETURN_ID) && DistinctKeys(Flat(entries, RETURN_LINES), RETURN_LINE_ID)
    && (forall entry, row :: entry in entries && row in entry.lines ==>
          && (row.id in d.returnLines <==> entry.ret.id in d.givenBack)
          && (row.saleLineId in d.saleLines ==> d.saleLines[row.saleLineId].invoiceId == entry.ret.saleInvoiceId))
  }

  lemma WholeFirst(d: Documents, entries: seq<ReturnEntry>)
    requires WholeReturns(d, entries) && entries != []
    ensures WholeReturns(d, entries[..|entries| - 1])
  {
    hide Flat;
    var n := |entries| - 1;
    DistinctFront(ReturnHeads(entries), ReturnHeads(entries[..n]), RETURN_ID);
    LastFlat(entries, RETURN_LINES);
    DistinctFront(Flat(entries, RETURN_LINES), Flat(entries[..n], RETURN_LINES), RETURN_LINE_ID);
    assert entries == entries[..n] + [entries[n]];
  }

  lemma LastFlat<E, R>(entries: seq<E>, of: E -> seq<R>)
    requires entries != []
    ensures Flat(entries, of) == Flat(entries[..|entries| - 1], of) + of(entries[|entries| - 1])
  {
  }

  lemma DistinctFront<R>(all: seq<R>, front: seq<R>, idOf: R -> Id)
    requires DistinctKeys(all, idOf) && |front| <= |all| && all[..|front|] == front
    ensures DistinctKeys(front, idOf)
  {
    forall i, j | 0 <= i < j < |front| ensures idOf(front[i]) != idOf(front[j]) {
      assert front[i] == all[i] && front[j] == all[j];
    }
  }

  lemma {:induction false} InsertKnown<R(!new)>(table: map<Id, R>, a: seq<R>, b: seq<R>, idOf: R -> Id)
    requires forall row :: row in b ==> idOf(row) in table
    ensures Insert(table, a + b, idOf) == Insert(table, a, idOf)
  {
    ByIdConcat(a, b, idOf);
    ByIdHolds(b, idOf);
    var x, y := Insert(table, a + b, idOf), Insert(table, a, idOf);
    assert x.Keys == y.Keys;
  }

  lemma InsertMore<R(!new)>(table: map<Id, R>, a: seq<R>, b: seq<R>, idOf: R -> Id, w: R -> int)
    requires DistinctKeys(a + b, idOf) && forall row :: row in b ==> idOf(row) !in table
    ensures TableTotal(Insert(table, a + b, idOf), w) == TableTotal(Insert(table, a, idOf), w) + RowsTotal(b, w)
  {
    hide TableTotal, Insert, RowsTotal;
    var first := Insert(table, a, idOf);
    InsertedTwice(table, a, b, idOf);
    InsertedAre(table, a, idOf);
    forall i | 0 <= i < |b| ensures idOf(b[i]) !in first {
      assert b[i] in b;
      ApartFrom(a, b, idOf, i);
    }
    assert DistinctKeys(b, idOf) by {
      forall i, j | 0 <= i < j < |b| ensures idOf(b[i]) != idOf(b[j]) { assert (a + b)[|a| + i] == b[i] && (a + b)[|a| + j] == b[j]; }
    }
    TotalOfInserted(first, b, idOf, w);
  }

  lemma ApartFrom<R>(a: seq<R>, b: seq<R>, idOf: R -> Id, i: nat)
    requires DistinctKeys(a + b, idOf) && i < |b|
    ensures forall row :: row in a ==> idOf(row) != idOf(b[i])
  {
    forall row | row in a ensures idOf(row) != idOf(b[i]) {
      var k :| 0 <= k < |a| && a[k] == row;
      assert (a + b)[k] == row && (a + b)[|a| + i] == b[i];
    }
  }

  lemma InsertedTwice<R(!new)>(table: map<Id, R>, a: seq<R>, b: seq<R>, idOf: R -> Id)
    ensures Insert(table, a + b, idOf) == Insert(Insert(table, a, idOf), b, idOf)
  {
    ByIdConcat(a, b, idOf);
  }

  /** The quantity of a line that returns bring back, and the money of a bill they hand back, among entries the server doesn't have. */
  lemma {:induction false} LinesAdded(d: Documents, entries: seq<ReturnEntry>, w: ReturnLineRow -> int)
    requires WholeReturns(d, entries)
    ensures TableTotal(Insert(d.returnLines, Flat(entries, RETURN_LINES), RETURN_LINE_ID), w)
         == TableTotal(d.returnLines, w) + RowsTotal(Flat(NotThere(d.givenBack, entries), RETURN_LINES), w)
  {
    hide TableTotal, Insert, WholeReturns, RowsTotal, Flat;
    if entries == [] {
      FlatNothing<ReturnEntry, ReturnLineRow>(RETURN_LINES);
      InsertNone(d.returnLines, RETURN_LINE_ID);
      RowsNone<ReturnLineRow>(w);
    } else {
      var n := |entries| - 1;
      var last := entries[n];
      WholeFirst(d, entries);
      LinesAdded(d, entries[..n], w);
      LastFlat(entries, RETURN_LINES);
      LastWhole(d, entries);
      var front := NotThere(d.givenBack, entries[..n]);
      if last.ret.id in d.givenBack {
        InsertKnown(d.returnLines, Flat(entries[..n], RETURN_LINES), last.lines, RETURN_LINE_ID);
        assert NotThere(d.givenBack, entries) == front;
      } else {
        InsertMore(d.returnLines, Flat(entries[..n], RETURN_LINES), last.lines, RETURN_LINE_ID, w);
        assert NotThere(d.givenBack, entries) == front + [last];
        FlatConcat(front, [last], RETURN_LINES);
        FlatJust(last, RETURN_LINES);
        RowsTotalConcat(Flat(front, RETURN_LINES), last.lines, w);
      }
    }
  }

  lemma FlatNothing<E, R>(of: E -> seq<R>)
    ensures Flat([], of) == []
  {
  }

  lemma FlatJust<E, R>(entry: E, of: E -> seq<R>)
    ensures Flat([entry], of) == of(entry)
  {
    assert [entry][..0] == [];
  }

  lemma RowsNone<R>(w: R -> int)
    ensures RowsTotal([], w) == 0
  {
  }

  lemma LastWhole(d: Documents, entries: seq<ReturnEntry>)
    requires WholeReturns(d, entries) && entries != []
    ensures var last := entries[|entries| - 1];
            && (forall row :: row in last.lines ==> (row.id in d.returnLines <==> last.ret.id in d.givenBack))
            && DistinctKeys(Flat(entries[..|entries| - 1], RETURN_LINES) + last.lines, RETURN_LINE_ID)
            && DistinctKeys(ReturnHeads(entries[..|entries| - 1]) + [last.ret], RETURN_ID)
  {
    hide Flat;
    LastFlat(entries, RETURN_LINES);
    assert entries[|entries| - 1] in entries;
    assert ReturnHeads(entries) == ReturnHeads(entries[..|entries| - 1]) + [entries[|entries| - 1].ret];
  }

  lemma {:induction false} HeadsAdded(d: Documents, entries: seq<ReturnEntry>, w: ReturnRow -> int)
    requires WholeReturns(d, entries)
    ensures TableTotal(Insert(d.givenBack, ReturnHeads(entries), RETURN_ID), w)
         == TableTotal(d.givenBack, w) + RowsTotal(ReturnHeads(NotThere(d.givenBack, entries)), w)
  {
    hide TableTotal, Insert, WholeReturns, RowsTotal;
    if entries == [] {
      assert ReturnHeads([]) == [] && NotThere(d.givenBack, []) == [];
      InsertNone(d.givenBack, RETURN_ID);
      RowsNone<ReturnRow>(w);
    } else {
      var n := |entries| - 1;
      var last := entries[n];
      WholeFirst(d, entries);
      HeadsAdded(d, entries[..n], w);
      LastWhole(d, entries);
      assert ReturnHeads(entries) == ReturnHeads(entries[..n]) + [last.ret];
      var front := NotThere(d.givenBack, entries[..n]);
      if last.ret.id in d.givenBack {
        InsertKnown(d.givenBack, ReturnHeads(entries[..n]), [last.ret], RETURN_ID);
        assert NotThere(d.givenBack, entries) == front;
      } else {
        InsertMore(d.givenBack, ReturnHeads(entries[..n]), [last.ret], RETURN_ID, w);
        assert NotThere(d.givenBack, entries) == front + [last];
        assert ReturnHeads(front + [last]) == ReturnHeads(front) + [last.ret];
        RowsTotalConcat(ReturnHeads(front), [last.ret], w);
      }
    }
  }

  // ----- As the check counts them

  /** What new returns bring back of a line of a bill that wasn't made offline is counted with that bill. */
  lemma {:induction false} LinesCounted(d: Documents, bills: set<Id>, entries: seq<ReturnEntry>, line: Id)
    requires WholeReturns(d, entries) && line in d.saleLines && d.saleLines[line].invoiceId !in bills
    ensures RowsTotal(Flat(NotThere(d.givenBack, entries), RETURN_LINES), QtyOf(line))
         == RowsTotal(NewReturns(d, bills, entries), TakenBack(d.saleLines[line].invoiceId, line))
  {
    hide WholeReturns, Flat, RowsTotal;
    if entries == [] {
      FlatNothing<ReturnEntry, ReturnLineRow>(RETURN_LINES);
      RowsNone<ReturnLineRow>(QtyOf(line));
      RowsNone<ReturnEntry>(TakenBack(d.saleLines[line].invoiceId, line));
    } else {
      var n := |entries| - 1;
      var last, bill := entries[n], d.saleLines[line].invoiceId;
      WholeFirst(d, entries);
      LinesCounted(d, bills, entries[..n], line);
      OtherBillsLines(d, entries, line);
      if last.ret.id !in d.givenBack {
        var front := NotThere(d.givenBack, entries[..n]);
        FlatConcat(front, [last], RETURN_LINES);
        FlatJust(last, RETURN_LINES);
        RowsTotalConcat(Flat(front, RETURN_LINES), last.lines, QtyOf(line));
        OneMoreEntry(NewReturns(d, bills, entries[..n]), last, TakenBack(bill, line));
      }
      LastNew(d, bills, entries);
    }
  }

  lemma OneMoreEntry<R>(rows: seq<R>, row: R, w: R -> int)
    ensures RowsTotal(rows + [row], w) == RowsTotal(rows, w) + w(row)
  {
    assert (rows + [row])[..|rows|] == rows;
  }

  lemma LastNew(d: Documents, bills: set<Id>, entries: seq<ReturnEntry>)
    requires entries != []
    ensures var front, last := entries[..|entries| - 1], entries[|entries| - 1];
            && NotThere(d.givenBack, entries) == (if last.ret.id in d.givenBack then NotThere(d.givenBack, front) else NotThere(d.givenBack, front) + [last])
            && NewReturns(d, bills, entries)
                 == (if last.ret.id in d.givenBack || last.ret.saleInvoiceId in bills then NewReturns(d, bills, front)
                     else NewReturns(d, bills, front) + [last])
  {
  }

  lemma OtherBillsLines(d: Documents, entries: seq<ReturnEntry>, line: Id)
    requires WholeReturns(d, entries) && entries != [] && line in d.saleLines
    ensures var last := entries[|entries| - 1];
            last.ret.saleInvoiceId != d.saleLines[line].invoiceId ==> RowsTotal(last.lines, QtyOf(line)) == 0
  {
    var last := entries[|entries| - 1];
    assert last in entries;
    if last.ret.saleInvoiceId != d.saleLines[line].invoiceId {
      forall row | row in last.lines ensures row.saleLineId != line {
        assert row.saleLineId in d.saleLines ==> d.saleLines[row.saleLineId].invoiceId == last.ret.saleInvoiceId;
      }
      NoneOfLine(last.lines, line);
    }
  }

  lemma {:induction false} NoneOfLine(rows: seq<ReturnLineRow>, line: Id)
    requires forall row :: row in rows ==> row.saleLineId != line
    ensures RowsTotal(rows, QtyOf(line)) == 0
  {
    if rows != [] {
      var n := |rows| - 1;
      assert rows == rows[..n] + [rows[n]];
      NoneOfLine(rows[..n], line);
    }
  }

  lemma {:induction false} HeadsCounted(d: Documents, bills: set<Id>, entries: seq<ReturnEntry>, bill: Id)
    requires bill !in bills
    ensures RowsTotal(ReturnHeads(NotThere(d.givenBack, entries)), RefundOf(bill)) == RowsTotal(NewReturns(d, bills, entries), HandedBack(bill))
  {
    hide RowsTotal;
    if entries == [] {
      assert ReturnHeads([]) == [];
      RowsNone<ReturnRow>(RefundOf(bill));
      RowsNone<ReturnEntry>(HandedBack(bill));
    } else {
      var n := |entries| - 1;
      HeadsCounted(d, bills, entries[..n], bill);
      if entries[n].ret.id !in d.givenBack {
        var front := NotThere(d.givenBack, entries[..n]);
        assert ReturnHeads(front + [entries[n]]) == ReturnHeads(front) + [entries[n].ret];
        OneMoreEntry(ReturnHeads(front), entries[n].ret, RefundOf(bill));
        OneMoreEntry(NewReturns(d, bills, entries[..n]), entries[n], HandedBack(bill));
      }
      LastNew(d, bills, entries);
    }
  }

  // ----- Both sendings

  /** The tables once the first returns are in. */
  ghost predicate ReturnsIn(d: Documents, d1: Documents, first: seq<ReturnEntry>, bills: set<Id>) {
    && d1.returnLines == Insert(d.returnLines, Flat(first, RETURN_LINES), RETURN_LINE_ID)
    && d1.givenBack == Insert(d.givenBack, ReturnHeads(first), RETURN_ID)
    && (forall id :: id in d.saleLines ==> id in d1.saleLines && d1.saleLines[id] == d.saleLines[id])
    && (forall id :: id in d1.saleLines && id !in d.saleLines ==> d1.saleLines[id].invoiceId in bills)
    && (forall id :: id in d.invoices ==> id in d1.invoices && d1.invoices[id] == d.invoices[id])
    && (forall id :: id in d1.invoices && id !in d.invoices ==> id in bills)
  }

  lemma LineTotals(d: Documents, d1: Documents, first: seq<ReturnEntry>, bills: set<Id>, line: Id)
    requires WholeReturns(d, first) && ReturnsIn(d, d1, first, bills) && line in d.saleLines && d.saleLines[line].invoiceId !in bills
    ensures TableTotal(d1.returnLines, QtyOf(line))
         == TableTotal(d.returnLines, QtyOf(line)) + RowsTotal(NewReturns(d, bills, first), TakenBack(d.saleLines[line].invoiceId, line))
  {
    hide TableTotal, Insert, RowsTotal, WholeReturns, Flat;
    LinesAdded(d, first, QtyOf(line));
    LinesCounted(d, bills, first, line);
  }

  lemma BillTotals(d: Documents, d1: Documents, first: seq<ReturnEntry>, bills: set<Id>, bill: Id)
    requires WholeReturns(d, first) && ReturnsIn(d, d1, first, bills) && bill !in bills
    ensures TableTotal(d1.givenBack, RefundOf(bill))
         == TableTotal(d.givenBack, RefundOf(bill)) + RowsTotal(NewReturns(d, bills, first), HandedBack(bill))
  {
    hide TableTotal, Insert, RowsTotal, WholeReturns;
    HeadsAdded(d, first, RefundOf(bill));
    HeadsCounted(d, bills, first, bill);
  }

  // ----- The clashes one by one

  ghost predicate NoDueLowered(d: Documents, mine: seq<ReturnEntry>) {
    forall entry :: entry in mine && entry.ret.saleInvoiceId in d.invoices ==> entry.ret.dueAdjusted <= 0
  }

  ghost predicate NoneTooMany(d: Documents, mine: seq<ReturnEntry>) {
    forall line :: line in d.saleLines && d.saleLines[line].invoiceId in BillsOf(mine) ==> !TooMany(d, mine, line)
  }

  ghost predicate NoneTooMuch(d: Documents, mine: seq<ReturnEntry>) {
    forall bill :: bill in d.invoices && bill in BillsOf(mine) ==> !TooMuch(d, mine, bill)
  }

  lemma ClashesThere(d: Documents, o: Outbox)
    ensures var mine := NewReturns(d, BillIds(o.invoices), o.givenBack);
            && (forall entry :: entry in mine && entry.ret.saleInvoiceId in d.invoices && entry.ret.dueAdjusted > 0 ==>
                  LowersDue(entry.ret.saleInvoiceId) in ReturnClashes(d, o))
            && (forall line :: line in d.saleLines && d.saleLines[line].invoiceId in BillsOf(mine) && TooMany(d, mine, line) ==>
                  ReturnsTooMany(line) in ReturnClashes(d, o))
            && (forall bill :: bill in d.invoices && bill in BillsOf(mine) && TooMuch(d, mine, bill) ==>
                  RefundsTooMuch(bill) in ReturnClashes(d, o))
  {
    hide BillIds, NewReturns, TooMany, TooMuch;
  }

  lemma ReturnClashesAre(d: Documents, o: Outbox)
    ensures var mine := NewReturns(d, BillIds(o.invoices), o.givenBack);
            ReturnClashes(d, o) == {} <==> NoDueLowered(d, mine) && NoneTooMany(d, mine) && NoneTooMuch(d, mine)
  {
    hide BillIds, NewReturns, TooMany, TooMuch;
    ClashesThere(d, o);
  }

  ghost predicate OnlyBack(entries: seq<ReturnEntry>) {
    forall entry, row :: entry in entries && row in entry.lines ==> row.qty > 0
  }

  lemma {:induction false} BackNonNegative(entries: seq<ReturnEntry>, bill: Id, line: Id)
    requires OnlyBack(entries)
    ensures RowsTotal(entries, TakenBack(bill, line)) >= 0
    ensures RowsTotal(entries, TakenBack(bill, line)) > 0 ==> bill in BillsOf(entries)
  {
    if entries != [] {
      var n := |entries| - 1;
      assert entries == entries[..n] + [entries[n]];
      assert entries[n] in entries;
      BackNonNegative(entries[..n], bill, line);
      RowsNonNegative(entries[n].lines, line);
    }
  }

  lemma {:induction false} RowsNonNegative(rows: seq<ReturnLineRow>, line: Id)
    requires forall row :: row in rows ==> row.qty > 0
    ensures RowsTotal(rows, QtyOf(line)) >= 0
  {
    if rows != [] {
      var n := |rows| - 1;
      assert rows == rows[..n] + [rows[n]];
      RowsNonNegative(rows[..n], line);
    }
  }

  lemma BillsOfBoth(a: seq<ReturnEntry>, b: seq<ReturnEntry>)
    ensures BillsOf(a + b) == BillsOf(a) + BillsOf(b)
  {
  }

  lemma {:induction false} NothingHandedBack(entries: seq<ReturnEntry>, bill: Id)
    requires bill !in BillsOf(entries)
    ensures RowsTotal(entries, HandedBack(bill)) == 0
  {
    if entries != [] {
      var n := |entries| - 1;
      assert entries == entries[..n] + [entries[n]];
      BillsOfBoth(entries[..n], [entries[n]]);
      assert entries[n].ret.saleInvoiceId in BillsOf([entries[n]]);
      NothingHandedBack(entries[..n], bill);
      assert HandedBack(bill)(entries[n]) == RefundOf(bill)(entries[n].ret) == 0;
    }
  }

  /** What is new in the outbox, the first part's and the rest's, and their bills, none of which were made offline. */
  ghost predicate Parted(bills: set<Id>, first: seq<ReturnEntry>, later: seq<ReturnEntry>) {
    BillsOf(first) !! bills && BillsOf(later) !! bills && OnlyBack(first) && OnlyBack(later)
  }

  lemma TooManySame(d: Documents, d1: Documents, entries: seq<ReturnEntry>, bills: set<Id>, first: seq<ReturnEntry>, later: seq<ReturnEntry>, line: Id)
    requires WholeReturns(d, entries) && ReturnsIn(d, d1, entries, bills) && first == NewReturns(d, bills, entries) && Parted(bills, first, later)
    requires line in d.saleLines && d.saleLines[line].invoiceId in BillsOf(first + later) && NoneTooMany(d, first)
    ensures TooMany(d, first + later, line) <==> d.saleLines[line].invoiceId in BillsOf(later) && TooMany(d1, later, line)
  {
    hide TableTotal, WholeReturns, NewReturns, OnlyBack, RowsTotal;
    var bill := d.saleLines[line].invoiceId;
    BillsOfBoth(first, later);
    LineTotals(d, d1, entries, bills, line);
    RowsTotalConcat(first, later, TakenBack(bill, line));
    BackNonNegative(first, bill, line);
    BackNonNegative(later, bill, line);
  }

  lemma TooMuchSame(d: Documents, d1: Documents, entries: seq<ReturnEntry>, bills: set<Id>, first: seq<ReturnEntry>, later: seq<ReturnEntry>, bill: Id)
    requires WholeReturns(d, entries) && ReturnsIn(d, d1, entries, bills) && first == NewReturns(d, bills, entries) && Parted(bills, first, later)
    requires bill in d.invoices && bill in BillsOf(first + later) && NoneTooMuch(d, first)
    ensures TooMuch(d, first + later, bill) <==> bill in BillsOf(later) && TooMuch(d1, later, bill)
  {
    hide TableTotal, WholeReturns, NewReturns, OnlyBack, RowsTotal;
    BillsOfBoth(first, later);
    BillTotals(d, d1, entries, bills, bill);
    RowsTotalConcat(first, later, HandedBack(bill));
    if bill !in BillsOf(later) { NothingHandedBack(later, bill); }
  }

  /** The first part clashing with nothing, the whole clashes with nothing if and only if the rest doesn't once the first is in. */
  lemma ClashesSame(d: Documents, d1: Documents, entries: seq<ReturnEntry>, bills: set<Id>, first: seq<ReturnEntry>, later: seq<ReturnEntry>)
    requires WholeReturns(d, entries) && ReturnsIn(d, d1, entries, bills) && first == NewReturns(d, bills, entries) && Parted(bills, first, later)
    requires NoDueLowered(d, first) && NoneTooMany(d, first) && NoneTooMuch(d, first)
    ensures NoDueLowered(d, first + later) <==> NoDueLowered(d1, later)
    ensures NoneTooMany(d, first + later) <==> NoneTooMany(d1, later)
    ensures NoneTooMuch(d, first + later) <==> NoneTooMuch(d1, later)
  {
    hide WholeReturns, NewReturns, OnlyBack, TooMany, TooMuch, Insert, Flat;
    BillsOfBoth(first, later);
    DueSame(d, d1, entries, bills, first, later);
    forall line | line in d.saleLines && d.saleLines[line].invoiceId in BillsOf(first + later)
      ensures TooMany(d, first + later, line) <==> d.saleLines[line].invoiceId in BillsOf(later) && TooMany(d1, later, line)
    {
      TooManySame(d, d1, entries, bills, first, later, line);
    }
    forall bill | bill in d.invoices && bill in BillsOf(first + later)
      ensures TooMuch(d, first + later, bill) <==> bill in BillsOf(later) && TooMuch(d1, later, bill)
    {
      TooMuchSame(d, d1, entries, bills, first, later, bill);
    }
  }

  lemma DueSame(d: Documents, d1: Documents, entries: seq<ReturnEntry>, bills: set<Id>, first: seq<ReturnEntry>, later: seq<ReturnEntry>)
    requires ReturnsIn(d, d1, entries, bills) && BillsOf(later) !! bills && NoDueLowered(d, first)
    ensures NoDueLowered(d, first + later) <==> NoDueLowered(d1, later)
  {
    hide Insert, Flat;
    forall entry | entry in later ensures entry.ret.saleInvoiceId in d1.invoices <==> entry.ret.saleInvoiceId in d.invoices {
      assert entry.ret.saleInvoiceId in BillsOf(later);
    }
  }
}
