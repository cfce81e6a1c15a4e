/**
 * Returns made the way the app makes them, in any number of steps, pass the server's check
 * whatever order their rows come back in.
 */
module HonestReturns {
  import opened BillReturns
  import opened OutboxRows
  import opened Returns
  import opened Rounding
  import opened VerifyOutbox
  import opened VerifySoundness

  /** A bill's round-off and net total, and what has come back of them. */
  datatype BillInfo = BillInfo(roundOff: int, net: nat)
  datatype BillSoFar = BillSoFar(net: nat, roundOff: int)

  /** Everything given back so far, line by line and bill by bill. */
  datatype SoFar = SoFar(lines: map<Id, LineReturned>, bills: map<Id, BillSoFar>)

  /** The lines and bills that returns are made of. */
  datatype Books = Books(lines: map<Id, BillLine>, bills: map<Id, BillInfo>)

  function GstParts(qty: nat, amounts: GstAmounts): (r: Parts) {
    Parts(qty, amounts.taxable, amounts.cgst, amounts.sgst, amounts.igst)
  }

  ghost predicate AtMost(a: Parts, b: Parts) {
    a.qty <= b.qty && a.taxable <= b.taxable && a.cgst <= b.cgst && a.sgst <= b.sgst && a.igst <= b.igst
  }

  // ----- How the app makes a return

  /** One line of a return: `returnLineAmounts` on what has come back of the sale line so far. */
  ghost predicate MadeRow(books: Books, lines: map<Id, LineReturned>, row: ReturnLineRow) {
    && row.saleLineId in books.lines && row.saleLineId in lines
    && var line, before := books.lines[row.saleLineId], lines[row.saleLineId];
       && 0 < row.qty && before.qty + row.qty <= line.sold
       && var amounts := ReturnLineAmounts(line.amounts, line.sold, before.qty, before.amounts, row.qty);
          PartsOf(row) == GstParts(row.qty, amounts) && row.amount == amounts.Total()
  }

  ghost function AfterRow(books: Books, lines: map<Id, LineReturned>, row: ReturnLineRow): (r: map<Id, LineReturned>) {
    if MadeRow(books, lines, row) then
      var line := books.lines[row.saleLineId];
      lines[row.saleLineId := ReturnMore(line.amounts, line.sold, lines[row.saleLineId], row.qty)]
    else lines
  }

  ghost function AfterRows(books: Books, lines: map<Id, LineReturned>, rows: seq<ReturnLineRow>): (r: map<Id, LineReturned>) {
    if rows == [] then lines else AfterRow(books, AfterRows(books, lines, rows[..|rows| - 1]), rows[|rows| - 1])
  }

  ghost predicate MadeRows(books: Books, lines: map<Id, LineReturned>, rows: seq<ReturnLineRow>) {
    forall i :: 0 <= i < |rows| ==> MadeRow(books, AfterRows(books, lines, rows[..i]), rows[i])
  }

  /** The return's share of the bill's round-off, as `returnRoundOff` gives it. */
  ghost predicate MadeRounding(books: Books, bills: map<Id, BillSoFar>, entry: ReturnEntry) {
    && entry.ret.saleInvoiceId in books.bills && entry.ret.saleInvoiceId in bills
    && var bill, before := books.bills[entry.ret.saleInvoiceId], bills[entry.ret.saleInvoiceId];
       entry.ret.roundOff == ReturnRoundOff(bill.roundOff, bill.net, before.net, before.roundOff, AmountOf(entry.lines))
  }

  /** A whole return: its lines, its rounding, paid back in cash or off the due, and its stock. */
  ghost predicate MadeReturn(books: Books, sold: map<Id, SoldLine>, s: SoFar, entry: ReturnEntry) {
    && MadeRows(books, s.lines, entry.lines)
    && MadeRounding(books, s.bills, entry)
    && entry.ret.totalAmount == AmountOf(entry.lines) + entry.ret.roundOff == entry.ret.dueAdjusted + entry.ret.refundAmount
    && (entry.ret.refundMode.Cash? || entry.ret.refundAmount <= 0)
    && StockBackMatches(sold, entry.ledger, entry.lines)
  }

  ghost function AfterReturn(books: Books, s: SoFar, entry: ReturnEntry): (r: SoFar) {
    var bill := entry.ret.saleInvoiceId;
    SoFar(AfterRows(books, s.lines, entry.lines),
      if bill in s.bills then
        s.bills[bill := BillSoFar(s.bills[bill].net + Max(0, AmountOf(entry.lines)), s.bills[bill].roundOff + entry.ret.roundOff)]
      else s.bills)
  }

  ghost function AfterReturns(books: Books, s: SoFar, entries: seq<ReturnEntry>): (r: SoFar) {
    if entries == [] then s else AfterReturn(books, AfterReturns(books, s, entries[..|entries| - 1]), entries[|entries| - 1])
  }

  ghost predicate MadeReturns(books: Books, sold: map<Id, SoldLine>, s: SoFar, entries: seq<ReturnEntry>) {
    forall k :: 0 <= k < |entries| ==> MadeReturn(books, sold, AfterReturns(books, s, entries[..k]), entries[k])
  }

  // ----- What the returns come to, line by line

  ghost predicate LinesOnTrackIn(books: Books, lines: map<Id, LineReturned>) {
    forall id :: id in books.lines ==>
      id in lines && OnTrack(books.lines[id].amounts, books.lines[id].sold, lines[id])
  }

  ghost predicate NonNegative(row: ReturnLineRow) {
    row.qty >= 0 && row.taxable >= 0 && row.cgst >= 0 && row.sgst >= 0 && row.igst >= 0 && row.amount >= 0
  }

  lemma RowKeepsTrack(books: Books, lines: map<Id, LineReturned>, row: ReturnLineRow, id: Id)
    requires LinesOnTrackIn(books, lines) && MadeRow(books, lines, row) && id in books.lines
    ensures LinesOnTrackIn(books, AfterRow(books, lines, row)) && NonNegative(row)
    ensures var before, after := lines[id], AfterRow(books, lines, row)[id];
            GstParts(after.qty, after.amounts) ==
              if row.saleLineId == id then GstParts(before.qty, before.amounts).Plus(PartsOf(row)) else GstParts(before.qty, before.amounts)
  {
    hide OnTrack, ReturnLineAmounts;
    var line := books.lines[row.saleLineId];
    NextOnTrack(line, lines[row.saleLineId], row.qty);
  }

  lemma {:induction false} RowsKeepTrack(books: Books, lines: map<Id, LineReturned>, rows: seq<ReturnLineRow>, id: Id)
    requires LinesOnTrackIn(books, lines) && MadeRows(books, lines, rows) && id in books.lines
    ensures LinesOnTrackIn(books, AfterRows(books, lines, rows))
    ensures forall i :: 0 <= i < |rows| ==> NonNegative(rows[i])
    ensures var before, after := lines[id], AfterRows(books, lines, rows)[id];
            GstParts(after.qty, after.amounts) == GstParts(before.qty, before.amounts).Plus(RowsTaken(rows, id))
  {
    hide LinesOnTrackIn, MadeRow, AfterRow, NonNegative, GstParts, Parts.Plus, PartsOf;
    InTrack(books, lines, id);
    PlusNone(GstParts(lines[id].qty, lines[id].amounts));
    if rows != [] {
      var n := |rows| - 1;
      PrefixMade(books, lines, rows);
      RowsKeepTrack(books, lines, rows[..n], id);
      var before := AfterRows(books, lines, rows[..n]);
      InTrack(books, before, id);
      RowKeepsTrack(books, before, rows[n], id);
      InTrack(books, AfterRow(books, before, rows[n]), id);
      PlusAssociates(GstParts(lines[id].qty, lines[id].amounts), RowsTaken(rows[..n], id), PartsOf(rows[n]));
      assert forall i :: 0 <= i < n ==> rows[..n][i] == rows[i];
    }
  }

  lemma InTrack(books: Books, lines: map<Id, LineReturned>, id: Id)
    requires LinesOnTrackIn(books, lines) && id in books.lines
    ensures id in lines
  {
  }

  lemma PrefixMade(books: Books, lines: map<Id, LineReturned>, rows: seq<ReturnLineRow>)
    requires MadeRows(books, lines, rows) && rows != []
    ensures MadeRows(books, lines, rows[..|rows| - 1])
    ensures MadeRow(books, AfterRows(books, lines, rows[..|rows| - 1]), rows[|rows| - 1])
  {
    hide MadeRow;
    var n := |rows| - 1;
    forall i | 0 <= i < n ensures MadeRow(books, AfterRows(books, lines, rows[..n][..i]), rows[..n][i]) {
      assert rows[..n][..i] == rows[..i];
    }
  }

  lemma PrefixMadeReturns(books: Books, sold: map<Id, SoldLine>, s: SoFar, entries: seq<ReturnEntry>)
    requires MadeReturns(books, sold, s, entries) && entries != []
    ensures MadeReturns(books, sold, s, entries[..|entries| - 1])
    ensures MadeReturn(books, sold, AfterReturns(books, s, entries[..|entries| - 1]), entries[|entries| - 1])
  {
    hide MadeReturn;
    var n := |entries| - 1;
    forall k | 0 <= k < n ensures MadeReturn(books, sold, AfterReturns(books, s, entries[..n][..k]), entries[..n][k]) {
      assert entries[..n][..k] == entries[..k];
    }
  }

  lemma {:induction false} ReturnsKeepTrack(books: Books, sold: map<Id, SoldLine>, s: SoFar, entries: seq<ReturnEntry>, id: Id)
    requires LinesOnTrackIn(books, s.lines) && MadeReturns(books, sold, s, entries) && id in books.lines
    ensures LinesOnTrackIn(books, AfterReturns(books, s, entries).lines)
    ensures var before, after := s.lines[id], AfterReturns(books, s, entries).lines[id];
            GstParts(after.qty, after.amounts) == GstParts(before.qty, before.amounts).Plus(Taken(entries, id))
  {
    hide LinesOnTrackIn, MadeRows, AfterRows, GstParts, Parts.Plus, RowsTaken, AmountOf, ReturnRoundOff, StockBackMatches;
    InTrack(books, s.lines, id);
    PlusNone(GstParts(s.lines[id].qty, s.lines[id].amounts));
    if entries != [] {
      var n := |entries| - 1;
      PrefixMadeReturns(books, sold, s, entries);
      ReturnsKeepTrack(books, sold, s, entries[..n], id);
      var before := AfterReturns(books, s, entries[..n]);
      InTrack(books, before.lines, id);
      RowsKeepTrack(books, before.lines, entries[n].lines, id);
      InTrack(books, AfterRows(books, before.lines, entries[n].lines), id);
      PlusAssociates(GstParts(s.lines[id].qty, s.lines[id].amounts), Taken(entries[..n], id), RowsTaken(entries[n].lines, id));
    }
  }

  /** In all, no more of any part than was sold. */
  lemma MadeWithinSold(books: Books, sold: map<Id, SoldLine>, s: SoFar, entries: seq<ReturnEntry>, id: Id)
    requires LinesOnTrackIn(books, s.lines) && MadeReturns(books, sold, s, entries) && id in books.lines
    ensures id in s.lines
    ensures var line, before := books.lines[id], s.lines[id];
            AtMost(GstParts(before.qty, before.amounts).Plus(Taken(entries, id)), GstParts(line.sold, line.amounts))
  {
    hide MadeReturns, OnTrack, AfterReturns, Taken, Parts.Plus;
    ReturnsKeepTrack(books, sold, s, entries, id);
    var line, after := books.lines[id], AfterReturns(books, s, entries).lines[id];
    OnTrackAtMost(line.amounts, line.sold, after);
    OnTrackQty(line, after);
  }

  lemma OnTrackQty(line: BillLine, returned: LineReturned)
    requires OnTrack(line.amounts, line.sold, returned)
    ensures returned.qty <= line.sold
  {
  }

  // ----- In whatever order they come back

  lemma {:induction false} TakenConcat(a: seq<ReturnEntry>, b: seq<ReturnEntry>, id: Id)
    ensures Taken(a + b, id) == Taken(a, id).Plus(Taken(b, id))
  {
    hide RowsTaken, Parts.Plus, Taken;
    TakenStep(b, id);
    TakenStep(a + b, id);
    if b == [] {
      assert a + b == a;
      PlusNone(Taken(a, id));
    } else {
      var n := |b| - 1;
      assert (a + b)[..|a + b| - 1] == a + b[..n];
      TakenConcat(a, b[..n], id);
      PlusAssociates(Taken(a, id), Taken(b[..n], id), RowsTaken(b[n].lines, id));
    }
  }

  lemma {:induction false} RoundingConcat(a: seq<ReturnEntry>, b: seq<ReturnEntry>, bill: Id)
    ensures RoundingTaken(a + b, bill) == RoundingTaken(a, bill) + RoundingTaken(b, bill)
  {
    if b == [] {
      assert a + b == a;
    } else {
      assert (a + b)[..|a + b| - 1] == a + b[..|b| - 1];
      RoundingConcat(a, b[..|b| - 1], bill);
    }
  }

  lemma TakenSwap(a: seq<ReturnEntry>, e: ReturnEntry, b: seq<ReturnEntry>, id: Id)
    ensures Taken(a + [e] + b, id) == Taken(a + b + [e], id)
    ensures forall bill :: RoundingTaken(a + [e] + b, bill) == RoundingTaken(a + b + [e], bill)
  {
    hide Taken, RoundingTaken;
    TakenConcat(a + [e], b, id);
    TakenConcat(a, [e], id);
    TakenConcat(a + b, [e], id);
    TakenConcat(a, b, id);
    forall bill ensures RoundingTaken(a + [e] + b, bill) == RoundingTaken(a + b + [e], bill) {
      RoundingConcat(a + [e], b, bill);
      RoundingConcat(a, [e], bill);
      RoundingConcat(a + b, [e], bill);
      RoundingConcat(a, b, bill);
    }
  }

  /** The same returns in another order take the same. */
  lemma {:induction false} TakenInAnyOrder(s: seq<ReturnEntry>, t: seq<ReturnEntry>, id: Id)
    requires multiset(s) == multiset(t)
    ensures Taken(s, id) == Taken(t, id)
    ensures forall bill :: RoundingTaken(s, bill) == RoundingTaken(t, bill)
  {
    hide RowsTaken;
    if s == [] {
      assert |multiset(t)| == 0;
      assert t == [];
    } else {
      var n := |s| - 1;
      assert s == s[..n] + [s[n]];
      assert s[n] in multiset(t);
      var i :| 0 <= i < |t| && t[i] == s[n];
      var rest := t[..i] + t[i + 1..];
      assert t == t[..i] + [s[n]] + t[i + 1..];
      RestMultiset(s, t, i);
      TakenInAnyOrder(s[..n], rest, id);
      TakenSwap(t[..i], s[n], t[i + 1..], id);
      assert (rest + [s[n]])[..|rest|] == rest;
    }
  }

  lemma RestMultiset(s: seq<ReturnEntry>, t: seq<ReturnEntry>, i: nat)
    requires s != [] && i < |t| && t[i] == s[|s| - 1] && multiset(s) == multiset(t)
    ensures multiset(s[..|s| - 1]) == multiset(t[..i] + t[i + 1..])
  {
    var x := t[i];
    assert s == s[..|s| - 1] + [x];
    assert t == t[..i] + [x] + t[i + 1..];
    assert multiset(t[..i] + t[i + 1..]) == multiset(t) - multiset{x};
    assert multiset(s[..|s| - 1]) == multiset(s) - multiset{x};
  }

  lemma AtMostMore(a: Parts, b: Parts, more: Parts)
    requires AtMost(a, b) && AtMost(NO_PARTS, more)
    ensures AtMost(a, b.Plus(more))
  {
  }

  lemma AtMostItself(a: Parts)
    ensures AtMost(a, a)
  {
  }

  ghost predicate NothingNegative(entries: seq<ReturnEntry>) {
    forall k :: 0 <= k < |entries| ==> RowsNothingNegative(entries[k].lines)
  }

  ghost predicate RowsNothingNegative(rows: seq<ReturnLineRow>) {
    forall i :: 0 <= i < |rows| ==> NonNegative(rows[i])
  }

  /** A prefix of returns that give nothing negative back takes no more than all of them. */
  lemma {:induction false} PrefixTakes(entries: seq<ReturnEntry>, k: nat, id: Id)
    requires k <= |entries| && NothingNegative(entries)
    ensures AtMost(Taken(entries[..k], id), Taken(entries, id))
  {
    hide RowsNothingNegative, AtMost, Taken, Parts.Plus, RowsTaken;
    if k == |entries| {
      assert entries[..k] == entries;
      AtMostItself(Taken(entries, id));
    } else {
      var n := |entries| - 1;
      assert entries[..n][..k] == entries[..k];
      PrefixTakes(entries[..n], k, id);
      RowsNonNegative(entries[n].lines, id);
      TakenStep(entries, id);
      AtMostMore(Taken(entries[..k], id), Taken(entries[..n], id), RowsTaken(entries[n].lines, id));
    }
  }

  lemma {:induction false} RowsNonNegative(rows: seq<ReturnLineRow>, id: Id)
    requires RowsNothingNegative(rows)
    ensures AtMost(NO_PARTS, RowsTaken(rows, id))
    ensures forall i :: 0 <= i <= |rows| ==> AtMost(RowsTaken(rows[..i], id), RowsTaken(rows, id))
  {
    if rows != [] {
      var n := |rows| - 1;
      RowsNonNegative(rows[..n], id);
      forall i | 0 <= i <= |rows| ensures AtMost(RowsTaken(rows[..i], id), RowsTaken(rows, id)) {
        if i <= n { assert rows[..n][..i] == rows[..i]; } else { assert rows[..i] == rows; }
      }
    } else {
      assert rows[..0] == [];
    }
  }

  // ----- The check finds nothing

  ghost predicate RowsFit(sold: map<Id, SoldLine>, taken: map<Id, Parts>, rows: seq<ReturnLineRow>) {
    forall i :: 0 <= i < |rows| ==>
      && RowOk(sold, rows[i])
      && PartsAt(taken, rows[i].saleLineId).Plus(RowsTaken(rows[..i + 1], rows[i].saleLineId)).WithinSold(sold[rows[i].saleLineId].parts)
  }

  lemma {:induction false} FittingRowsPass(sold: map<Id, SoldLine>, taken: map<Id, Parts>, rows: seq<ReturnLineRow>)
    requires RowsFit(sold, taken, rows)
    ensures CheckRows(sold, taken, rows).ok && CheckRows(sold, taken, rows).problems == []
  {
    hide RowOk, PartsOf, Parts.Plus, Parts.WithinSold, RowsTaken;
    if rows != [] {
      var n := |rows| - 1;
      assert forall i :: 0 <= i < n ==> rows[..n][i] == rows[i] && rows[..n][..i + 1] == rows[..i + 1];
      FittingRowsPass(sold, taken, rows[..n]);
      var id := rows[n].saleLineId;
      CleanRows(sold, taken, rows[..n], id);
      RowsStep(sold, taken, rows, id);
      assert rows[..n + 1] == rows;
      PlusAssociates(PartsAt(taken, id), RowsTaken(rows[..n], id), PartsOf(rows[n]));
    }
  }

  /** The lines and bills the server checks against are those the returns were made of, as far as they had come back. */
  ghost predicate SameBooks(books: Books, s: SoFar, sold: map<Id, SoldLine>, start: ReturnCheck) {
    && LinesOnTrackIn(books, s.lines)
    && (forall id :: id in books.lines ==>
          && id in sold && sold[id].parts == GstParts(books.lines[id].sold, books.lines[id].amounts)
          && id in s.lines && PartsAt(start.taken, id) == GstParts(s.lines[id].qty, s.lines[id].amounts))
    && (forall bill :: bill in books.bills ==>
          && bill in start.rounding && start.rounding[bill].roundOff == books.bills[bill].roundOff
          && bill in s.bills && start.rounding[bill].returned == s.bills[bill].roundOff
          && RoundingOnTrack(books.bills[bill], s.bills[bill]))
  }

  // ----- Round-off

  /** What was reversed of a bill's round-off is its share for what came back (at most the whole bill). */
  ghost predicate RoundingOnTrack(bill: BillInfo, soFar: BillSoFar) {
    && (bill.net == 0 ==> bill.roundOff == 0) && bill.net + bill.roundOff >= 0 && Abs(bill.roundOff) <= 50
    && soFar.roundOff == ShareOf(bill.roundOff, bill.net, Min(bill.net, soFar.net))
  }

  /** Of the whole's sign, or nothing. */
  ghost predicate Towards(part: int, whole: int) {
    (whole >= 0 ==> part >= 0) && (whole <= 0 ==> part <= 0)
  }

  /** A step reverses in the bill's own direction and stays on track. */
  lemma RoundingStep(bill: BillInfo, before: BillSoFar, amount: nat, roundOff: int)
    requires RoundingOnTrack(bill, before)
    requires roundOff == ReturnRoundOff(bill.roundOff, bill.net, before.net, before.roundOff, amount)
    ensures RoundingOnTrack(bill, BillSoFar(before.net + amount, before.roundOff + roundOff))
    ensures Towards(roundOff, bill.roundOff) && Abs(roundOff) <= 50
    ensures Abs(before.roundOff + roundOff) <= Abs(bill.roundOff)
  {
    hide ShareOf;
    var n, n' := Min(bill.net, before.net), Min(bill.net, before.net + amount);
    ShareSteps(bill.roundOff, bill.net, n, n');
    ShareSteps(bill.roundOff, bill.net, n, n);
    StepIsShare(bill, before, amount);
  }

  lemma StepIsShare(bill: BillInfo, before: BillSoFar, amount: nat)
    requires RoundingOnTrack(bill, before)
    ensures before.roundOff + ReturnRoundOff(bill.roundOff, bill.net, before.net, before.roundOff, amount)
         == ShareOf(bill.roundOff, bill.net, Min(bill.net, before.net + amount))
  {
    hide RoundDiv;
  }

  ghost predicate GoodRow(books: Books, sold: map<Id, SoldLine>, row: ReturnLineRow) {
    NonNegative(row) && RowOk(sold, row) && row.saleLineId in books.lines
  }

  /** What is right about a made return on its own, wherever it stands among the others. */
  ghost predicate GoodReturn(books: Books, sold: map<Id, SoldLine>, entry: ReturnEntry) {
    && (forall i :: 0 <= i < |entry.lines| ==> GoodRow(books, sold, entry.lines[i]))
    && entry.ret.saleInvoiceId in books.bills
    && Abs(entry.ret.roundOff) <= 50 && Towards(entry.ret.roundOff, books.bills[entry.ret.saleInvoiceId].roundOff)
    && TotalProblems(entry.ret, entry.lines) == []
    && (entry.ret.refundMode.Cash? || entry.ret.refundAmount <= 0)
    && StockBackMatches(sold, entry.ledger, entry.lines)
  }

  lemma MadeRowGood(books: Books, sold: map<Id, SoldLine>, lines: map<Id, LineReturned>, row: ReturnLineRow)
    requires LinesOnTrackIn(books, lines) && MadeRow(books, lines, row)
    requires forall id :: id in books.lines ==> id in sold
    ensures GoodRow(books, sold, row) && row.amount >= 0
    ensures LinesOnTrackIn(books, AfterRow(books, lines, row))
  {
    hide ReturnLineAmounts, OnTrack;
    RowKeepsTrack(books, lines, row, row.saleLineId);
  }

  lemma {:induction false} MadeRowsGood(books: Books, sold: map<Id, SoldLine>, lines: map<Id, LineReturned>, rows: seq<ReturnLineRow>)
    requires LinesOnTrackIn(books, lines) && MadeRows(books, lines, rows)
    requires forall id :: id in books.lines ==> id in sold
    ensures forall i :: 0 <= i < |rows| ==> GoodRow(books, sold, rows[i])
    ensures AmountOf(rows) >= 0
    ensures LinesOnTrackIn(books, AfterRows(books, lines, rows))
  {
    hide LinesOnTrackIn, AfterRow, GoodRow, MadeRows, MadeRow;
    if rows != [] {
      var n := |rows| - 1;
      PrefixMade(books, lines, rows);
      MadeRowsGood(books, sold, lines, rows[..n]);
      MadeRowGood(books, sold, AfterRows(books, lines, rows[..n]), rows[n]);
      assert forall i :: 0 <= i < n ==> rows[..n][i] == rows[i];
    }
  }

  lemma MadeReturnGood(books: Books, sold: map<Id, SoldLine>, s: SoFar, entry: ReturnEntry)
    requires LinesOnTrackIn(books, s.lines) && MadeReturn(books, sold, s, entry)
    requires forall id :: id in books.lines ==> id in sold
    requires var bill := entry.ret.saleInvoiceId; bill in books.bills && bill in s.bills ==> RoundingOnTrack(books.bills[bill], s.bills[bill])
    ensures GoodReturn(books, sold, entry)
    ensures var bill, after := entry.ret.saleInvoiceId, AfterReturn(books, s, entry).bills;
            bill in after && RoundingOnTrack(books.bills[bill], after[bill])
  {
    hide LinesOnTrackIn, MadeRows, AfterRows, RoundingOnTrack, GoodRow, StockBackMatches, AmountOf, ReturnRoundOff, Towards;
    MadeRowsGood(books, sold, s.lines, entry.lines);
    var bill := entry.ret.saleInvoiceId;
    RoundingStep(books.bills[bill], s.bills[bill], AmountOf(entry.lines), entry.ret.roundOff);
  }

  ghost predicate BillsOnTrack(books: Books, s: SoFar, after: SoFar, entries: seq<ReturnEntry>) {
    forall bill :: bill in books.bills ==>
      && bill in s.bills && bill in after.bills && RoundingOnTrack(books.bills[bill], after.bills[bill])
      && after.bills[bill].roundOff == s.bills[bill].roundOff + RoundingTaken(entries, bill)
  }

  lemma NextBills(books: Books, s: SoFar, before: SoFar, entries: seq<ReturnEntry>)
    requires entries != [] && BillsOnTrack(books, s, before, entries[..|entries| - 1])
    requires var entry := entries[|entries| - 1];
             entry.ret.saleInvoiceId in books.bills
             && RoundingOnTrack(books.bills[entry.ret.saleInvoiceId], AfterReturn(books, before, entry).bills[entry.ret.saleInvoiceId])
    ensures BillsOnTrack(books, s, AfterReturn(books, before, entries[|entries| - 1]), entries)
  {
    hide RoundingOnTrack, AfterRows, AmountOf;
  }

  /** The bills' round-offs stay on track through all the returns made, and each return is right on its own. */
  lemma {:induction false} MadeReturnsGood(books: Books, sold: map<Id, SoldLine>, s: SoFar, start: ReturnCheck, made: seq<ReturnEntry>)
    requires SameBooks(books, s, sold, start) && MadeReturns(books, sold, s, made)
    ensures AllGood(books, sold, made)
    ensures BillsOnTrack(books, s, AfterReturns(books, s, made), made)
  {
    hide LinesOnTrackIn, MadeReturn, RoundingOnTrack, AfterReturn, GoodReturn, BillsOnTrack, SameBooks, MadeReturns;
    BooksBasics(books, s, sold, start);
    if made != [] {
      var n := |made| - 1;
      PrefixMadeReturns(books, sold, s, made);
      MadeReturnsGood(books, sold, s, start, made[..n]);
      LinesStayOnTrack(books, sold, s, made[..n]);
      var before := AfterReturns(books, s, made[..n]);
      InBills(books, s, before, made[..n]);
      MadeReturnGood(books, sold, before, made[n]);
      GoodHasBill(books, sold, made[n]);
      NextBills(books, s, before, made);
      assert forall k :: 0 <= k < n ==> made[..n][k] == made[k];
    } else {
      NoneMade(books, s, sold, start);
    }
  }

  lemma InBills(books: Books, s: SoFar, after: SoFar, entries: seq<ReturnEntry>)
    requires BillsOnTrack(books, s, after, entries)
    ensures forall bill :: bill in books.bills ==> bill in after.bills && RoundingOnTrack(books.bills[bill], after.bills[bill])
  {
  }

  lemma GoodHasBill(books: Books, sold: map<Id, SoldLine>, entry: ReturnEntry)
    requires GoodReturn(books, sold, entry)
    ensures entry.ret.saleInvoiceId in books.bills
  {
  }

  lemma BooksBasics(books: Books, s: SoFar, sold: map<Id, SoldLine>, start: ReturnCheck)
    requires SameBooks(books, s, sold, start)
    ensures LinesOnTrackIn(books, s.lines) && forall id :: id in books.lines ==> id in sold
  {
    hide LinesOnTrackIn;
  }

  lemma NoneMade(books: Books, s: SoFar, sold: map<Id, SoldLine>, start: ReturnCheck)
    requires SameBooks(books, s, sold, start)
    ensures BillsOnTrack(books, s, s, [])
  {
  }

  lemma LinesStayOnTrack(books: Books, sold: map<Id, SoldLine>, s: SoFar, entries: seq<ReturnEntry>)
    requires LinesOnTrackIn(books, s.lines) && MadeReturns(books, sold, s, entries)
    ensures LinesOnTrackIn(books, AfterReturns(books, s, entries).lines)
  {
    hide MadeReturns, OnTrack, AfterReturns;
    forall id | id in books.lines
      ensures id in AfterReturns(books, s, entries).lines
      ensures OnTrack(books.lines[id].amounts, books.lines[id].sold, AfterReturns(books, s, entries).lines[id])
    {
      ReturnsKeepTrack(books, sold, s, entries, id);
    }
  }

  // ----- Any order

  ghost predicate AllGood(books: Books, sold: map<Id, SoldLine>, entries: seq<ReturnEntry>) {
    forall k :: 0 <= k < |entries| ==> GoodReturn(books, sold, entries[k])
  }

  lemma GoodInAnyOrder(books: Books, sold: map<Id, SoldLine>, made: seq<ReturnEntry>, listed: seq<ReturnEntry>)
    requires AllGood(books, sold, made) && multiset(listed) == multiset(made)
    ensures AllGood(books, sold, listed)
  {
    hide GoodReturn;
    forall k | 0 <= k < |listed| ensures GoodReturn(books, sold, listed[k]) {
      assert listed[k] in multiset(made);
    }
  }

  lemma AllGoodNothingNegative(books: Books, sold: map<Id, SoldLine>, entries: seq<ReturnEntry>)
    requires AllGood(books, sold, entries)
    ensures NothingNegative(entries)
  {
    hide StockBackMatches, TotalProblems, RowOk;
    forall k | 0 <= k < |entries| ensures RowsNothingNegative(entries[k].lines) {
      assert GoodReturn(books, sold, entries[k]);
    }
  }

  /** All the returns listed together take no more than the lines sold and the bills' round-offs allow. */
  ghost predicate WithinBooks(books: Books, sold: map<Id, SoldLine>, start: ReturnCheck, listed: seq<ReturnEntry>) {
    && (forall id :: id in books.lines ==>
          id in sold && AtMost(PartsAt(start.taken, id).Plus(Taken(listed, id)), sold[id].parts))
    && (forall bill :: bill in books.bills ==>
          && bill in start.rounding && start.rounding[bill].roundOff == books.bills[bill].roundOff
          && RoundingWithin(start.rounding[bill], RoundingTaken(listed, bill)))
  }

  /** What came back before, and with `more` of it, lies between nothing and the whole round-off. */
  ghost predicate RoundingWithin(bill: BillRounding, more: int) {
    if bill.roundOff >= 0 then 0 <= bill.returned <= bill.returned + more <= bill.roundOff
    else bill.roundOff <= bill.returned + more <= bill.returned <= 0
  }

  lemma {:induction false} RoundingPrefix(books: Books, sold: map<Id, SoldLine>, entries: seq<ReturnEntry>, k: nat, bill: Id)
    requires AllGood(books, sold, entries) && k <= |entries| && bill in books.bills
    ensures var whole, part, all := books.bills[bill].roundOff, RoundingTaken(entries[..k], bill), RoundingTaken(entries, bill);
            (whole >= 0 ==> 0 <= part <= all) && (whole <= 0 ==> all <= part <= 0)
  {
    hide StockBackMatches, TotalProblems, GoodRow;
    if entries != [] {
      var n := |entries| - 1;
      assert forall j :: 0 <= j < n ==> entries[..n][j] == entries[j];
      if k == |entries| {
        assert entries[..k] == entries && entries[..n][..n] == entries[..n];
        RoundingPrefix(books, sold, entries[..n], n, bill);
      } else {
        assert entries[..n][..k] == entries[..k];
        RoundingPrefix(books, sold, entries[..n], k, bill);
      }
      assert GoodReturn(books, sold, entries[n]);
    }
  }

  lemma MadeWithinBooks(books: Books, sold: map<Id, SoldLine>, s: SoFar, start: ReturnCheck, made: seq<ReturnEntry>)
    requires SameBooks(books, s, sold, start) && MadeReturns(books, sold, s, made)
    ensures WithinBooks(books, sold, start, made)
  {
    hide MadeReturns, OnTrack, AfterReturns, Taken, RoundingTaken, RoundingOnTrack, GstParts, AtMost, AllGood;
    MadeReturnsGood(books, sold, s, start, made);
    forall id | id in books.lines
      ensures id in sold && AtMost(PartsAt(start.taken, id).Plus(Taken(made, id)), sold[id].parts)
    {
      MadeWithinSold(books, sold, s, made, id);
    }
    forall bill | bill in books.bills
      ensures bill in start.rounding && start.rounding[bill].roundOff == books.bills[bill].roundOff
      ensures RoundingWithin(start.rounding[bill], RoundingTaken(made, bill))
    {
      OnTrackWithin(books.bills[bill], s.bills[bill]);
      OnTrackWithin(books.bills[bill], AfterReturns(books, s, made).bills[bill]);
      RoundingPrefix(books, sold, made, |made|, bill);
      assert made[..|made|] == made;
    }
  }

  lemma OnTrackWithin(bill: BillInfo, soFar: BillSoFar)
    requires RoundingOnTrack(bill, soFar)
    ensures (bill.roundOff >= 0 ==> 0 <= soFar.roundOff <= bill.roundOff) && (bill.roundOff <= 0 ==> bill.roundOff <= soFar.roundOff <= 0)
  {
    hide ShareOf;
    var n := Min(bill.net, soFar.net);
    ShareSteps(bill.roundOff, bill.net, n, n);
  }

  lemma WithinInAnyOrder(books: Books, sold: map<Id, SoldLine>, start: ReturnCheck, made: seq<ReturnEntry>, listed: seq<ReturnEntry>)
    requires WithinBooks(books, sold, start, made) && multiset(listed) == multiset(made)
    ensures WithinBooks(books, sold, start, listed)
  {
    hide Taken, RoundingTaken, AtMost, RoundingWithin;
    TakenInAnyOrder(made, listed, 0);
    forall id | id in books.lines ensures AtMost(PartsAt(start.taken, id).Plus(Taken(listed, id)), sold[id].parts) {
      TakenInAnyOrder(made, listed, id);
    }
  }

  // ----- Nothing is found

  lemma NextRowsFit(books: Books, sold: map<Id, SoldLine>, taken: map<Id, Parts>, entry: ReturnEntry)
    requires GoodReturn(books, sold, entry)
    requires forall id :: id in books.lines ==>
               id in sold && AtMost(PartsAt(taken, id).Plus(RowsTaken(entry.lines, id)), sold[id].parts)
    ensures RowsFit(sold, taken, entry.lines)
  {
    hide StockBackMatches, TotalProblems, RowsTaken, RowOk;
    forall i | 0 <= i < |entry.lines|
      ensures RowOk(sold, entry.lines[i])
      ensures var id := entry.lines[i].saleLineId;
              PartsAt(taken, id).Plus(RowsTaken(entry.lines[..i + 1], id)).WithinSold(sold[id].parts)
    {
      assert GoodRow(books, sold, entry.lines[i]);
      assert RowsNothingNegative(entry.lines) by {
        assert forall j :: 0 <= j < |entry.lines| ==> GoodRow(books, sold, entry.lines[j]);
      }
      var id := entry.lines[i].saleLineId;
      RowsNonNegative(entry.lines, id);
    }
  }

  /** One more good return that fits what is left: the check adds nothing to its list. */
  lemma GoodReturnPasses(books: Books, sold: map<Id, SoldLine>, c: ReturnCheck, entry: ReturnEntry)
    requires GoodReturn(books, sold, entry) && RowsFit(sold, c.taken, entry.lines)
    requires RoundingFine(entry.ret, c.rounding)
    ensures CheckReturn(sold, c, entry).conflicts == c.conflicts
  {
    hide RowsFit, CheckRows, RoundingFine, AddRounding, StockBackMatches, TotalProblems, GoodRow;
    FittingRowsPass(sold, c.taken, entry.lines);
  }

  lemma {:induction false} ListedPass(books: Books, sold: map<Id, SoldLine>, start: ReturnCheck, listed: seq<ReturnEntry>, k: nat)
    requires AllGood(books, sold, listed) && WithinBooks(books, sold, start, listed)
    requires start.conflicts == [] && k <= |listed|
    ensures CheckReturns(sold, start, listed[..k]).conflicts == []
  {
    hide GoodReturn, CheckReturn, RowsTaken, Taken, RoundingTaken, AtMost, RoundingWithin, Parts.Plus, RowsFit, RoundingFine;
    if k == 0 {
      NoReturns(sold, start);
      assert listed[..0] == [];
    } else {
      var n := k - 1;
      var before, entry := CheckReturns(sold, start, listed[..n]), listed[n];
      assert listed[..k][..n] == listed[..n] && listed[..k][n] == entry;
      ListedPass(books, sold, start, listed, n);
      AllGoodNothingNegative(books, sold, listed);
      forall id | id in books.lines
        ensures id in sold && AtMost(PartsAt(before.taken, id).Plus(RowsTaken(entry.lines, id)), sold[id].parts)
      {
        CleanReturns(sold, start, listed[..n], id);
        TakenStep(listed[..k], id);
        PrefixTakes(listed, k, id);
        FitsWith(PartsAt(start.taken, id), Taken(listed[..n], id), RowsTaken(entry.lines, id), Taken(listed, id), sold[id].parts);
      }
      assert GoodReturn(books, sold, entry);
      NextRowsFit(books, sold, before.taken, entry);
      ListedRoundingFine(books, sold, start, listed, n);
      GoodReturnPasses(books, sold, before, entry);
    }
  }

  lemma FitsWith(start: Parts, before: Parts, more: Parts, all: Parts, sold: Parts)
    requires AtMost(before.Plus(more), all) && AtMost(start.Plus(all), sold)
    ensures AtMost(start.Plus(before).Plus(more), sold)
  {
  }

  lemma ListedRoundingFine(books: Books, sold: map<Id, SoldLine>, start: ReturnCheck, listed: seq<ReturnEntry>, n: nat)
    requires AllGood(books, sold, listed) && WithinBooks(books, sold, start, listed) && n < |listed|
    requires CheckReturns(sold, start, listed[..n]).conflicts == []
    ensures RoundingFine(listed[n].ret, CheckReturns(sold, start, listed[..n]).rounding)
  {
    hide CheckReturns, AtMost, Taken, GoodRow, StockBackMatches, TotalProblems;
    var ret := listed[n].ret;
    var bill := ret.saleInvoiceId;
    assert GoodReturn(books, sold, listed[n]);
    CleanRounding(sold, start, listed[..n], bill);
    assert listed[..n + 1][..n] == listed[..n];
    RoundingPrefix(books, sold, listed, n, bill);
    RoundingPrefix(books, sold, listed, n + 1, bill);
    SameSign(ret.roundOff, books.bills[bill].roundOff);
  }

  lemma SameSign(a: int, b: int)
    requires Towards(a, b)
    ensures a * b >= 0
  {
  }

  /**
   * Returns made one after another the way the app makes them pass the server's check in whatever
   * order they are listed: no line or bill is found to give back more than was sold, or anything else.
   */
  lemma HonestReturnsPass(
    books: Books, sold: map<Id, SoldLine>, s: SoFar, start: ReturnCheck, made: seq<ReturnEntry>, listed: seq<ReturnEntry>)
    requires SameBooks(books, s, sold, start) && MadeReturns(books, sold, s, made)
    requires start.conflicts == [] && multiset(listed) == multiset(made)
    ensures CheckReturns(sold, start, listed).conflicts == []
  {
    hide MadeReturns, SameBooks, AllGood, WithinBooks, CheckReturns;
    MadeReturnsGood(books, sold, s, start, made);
    MadeWithinBooks(books, sold, s, start, made);
    GoodInAnyOrder(books, sold, made, listed);
    WithinInAnyOrder(books, sold, start, made, listed);
    ListedPass(books, sold, start, listed, |listed|);
    assert listed[..|listed|] == listed;
  }
}
