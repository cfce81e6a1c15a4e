/** What it means that the server's check of offline sales found nothing wrong. */
module VerifySoundness {
  import opened BatchShortfalls
  import opened OutboxRows
  import opened Rounding
  import opened SaleTotals
  import opened VerifyOutbox

  // ----- Stock by item

  function SoldQty(lines: seq<SaleLineRow>, item: Id): (r: int) {
    if lines == [] then 0
    else SoldQty(lines[..|lines| - 1], item) + if lines[|lines| - 1].itemId == item then lines[|lines| - 1].qty else 0
  }

  function OutQty(rows: seq<LedgerRow>, item: Id): (r: int) {
    if rows == [] then 0
    else OutQty(rows[..|rows| - 1], item) + if rows[|rows| - 1].itemId == item then rows[|rows| - 1].qtyOut else 0
  }

  function InQty(rows: seq<LedgerRow>, item: Id): (r: int) {
    if rows == [] then 0
    else InQty(rows[..|rows| - 1], item) + if rows[|rows| - 1].itemId == item then rows[|rows| - 1].qtyIn else 0
  }

  lemma {:induction false} SoldByItemIs(lines: seq<SaleLineRow>, item: Id)
    ensures QtyIn(SoldByItem(lines), item) == SoldQty(lines, item)
  {
    if lines != [] { SoldByItemIs(lines[..|lines| - 1], item); }
  }

  lemma {:induction false} OutByItemIs(rows: seq<LedgerRow>, item: Id)
    ensures QtyIn(OutByItem(rows), item) == OutQty(rows, item)
  {
    if rows != [] { OutByItemIs(rows[..|rows| - 1], item); }
  }

  lemma {:induction false} InByItemIs(rows: seq<LedgerRow>, item: Id)
    ensures QtyIn(InByItem(rows), item) == InQty(rows, item)
  {
    if rows != [] { InByItemIs(rows[..|rows| - 1], item); }
  }

  lemma SameEverywhere(a: map<Id, int>, b: map<Id, int>)
    ensures SameQuantities(a, b) <==> forall item: Id :: QtyIn(a, item) == QtyIn(b, item)
  {
    if SameQuantities(a, b) {
      forall item: Id ensures QtyIn(a, item) == QtyIn(b, item) {
        if item in a || item in b { assert item in a.Keys + b.Keys; }
      }
    }
  }

  // ----- A bill nothing is wrong with

  /** The stock out is what was sold, the payments are what was paid and no more than the total, and the totals are the lines'. */
  ghost predicate SoundBill(entry: InvoiceEntry) {
    && entry.lines != []
    && (forall i :: 0 <= i < |entry.lines| ==> entry.lines[i].qty > 0 && Same(entry.lines[i].net, entry.lines[i].taxable + entry.lines[i].tax))
    && OnlySales(entry.ledger)
    && (forall item: Id :: OutQty(entry.ledger, item) == SoldQty(entry.lines, item))
    && (forall i :: 0 <= i < |entry.payments| ==> entry.payments[i].amount > 0 && !entry.payments[i].mode.Wallet?)
    && Same(PaidBy(entry.payments), entry.invoice.paidTotal)
    && PaidBy(entry.payments) <= entry.invoice.grandTotal
    && entry.invoice.status == ExpectedStatus(entry.invoice)
    && TotalsAreItsLines(entry.invoice, entry.lines)
  }

  lemma StockSound(ledger: seq<LedgerRow>, lines: seq<SaleLineRow>)
    requires StockMatches(ledger, lines)
    ensures OnlySales(ledger) && forall item: Id :: OutQty(ledger, item) == SoldQty(lines, item)
  {
    SameEverywhere(OutByItem(ledger), SoldByItem(lines));
    forall item: Id ensures OutQty(ledger, item) == SoldQty(lines, item) {
      OutByItemIs(ledger, item);
      SoldByItemIs(lines, item);
    }
  }

  lemma NoProblemsSound(entry: InvoiceEntry, maxPercent: Option<int>)
    requires InvoiceProblems(entry, maxPercent) == []
    ensures SoundBill(entry)
  {
    hide Recompute, DiscountsTooHigh, ListTotal, Total, StockMatches, HeadProblems, PaidBy, LineSum, ExpectedStatus, OnlySales, OutQty, SoldQty;
    assert entry.lines != [];
    assert forall i :: 0 <= i < |entry.lines| ==> !ImpossibleRow(entry.lines[i]);
    assert AmountsAgree(entry.invoice, entry.lines, Recompute(entry));
    assert PaymentProblems(entry.invoice, entry.payments) == [];
    assert StockMatches(entry.ledger, entry.lines);
    StockSound(entry.ledger, entry.lines);
  }

  lemma {:induction false} EachInvoiceClear(ctx: OutboxContext, invoices: seq<InvoiceEntry>, k: nat)
    requires InvoiceConflicts(ctx, invoices) == [] && k < |invoices|
    ensures InvoiceProblems(invoices[k], CashierLimit(ctx, invoices[k].invoice.createdBy)) == []
  {
    hide InvoiceProblems;
    var n := |invoices| - 1;
    if k < n { EachInvoiceClear(ctx, invoices[..n], k); }
  }

  // ----- Returns nothing is wrong with

  function RowsTaken(rows: seq<ReturnLineRow>, line: Id): (r: Parts) {
    if rows == [] then NO_PARTS
    else
      var last := rows[|rows| - 1];
      if last.saleLineId == line then RowsTaken(rows[..|rows| - 1], line).Plus(PartsOf(last)) else RowsTaken(rows[..|rows| - 1], line)
  }

  /** All that the returns took of one sale line. */
  function Taken(entries: seq<ReturnEntry>, line: Id): (r: Parts) {
    if entries == [] then NO_PARTS else Taken(entries[..|entries| - 1], line).Plus(RowsTaken(entries[|entries| - 1].lines, line))
  }

  ghost predicate MentionedIn(rows: seq<ReturnLineRow>, line: Id) {
    exists i :: 0 <= i < |rows| && rows[i].saleLineId == line
  }

  ghost predicate Mentioned(entries: seq<ReturnEntry>, line: Id) {
    exists k :: 0 <= k < |entries| && MentionedIn(entries[k].lines, line)
  }

  lemma MentionedLast(rows: seq<ReturnLineRow>, line: Id)
    requires rows != []
    ensures var n := |rows| - 1; MentionedIn(rows, line) <==> MentionedIn(rows[..n], line) || rows[n].saleLineId == line
  {
    var n := |rows| - 1;
    if MentionedIn(rows[..n], line) {
      var i :| 0 <= i < n && rows[..n][i].saleLineId == line;
      assert rows[i].saleLineId == line;
    }
    if MentionedIn(rows, line) && rows[n].saleLineId != line {
      var i :| 0 <= i < |rows| && rows[i].saleLineId == line;
      assert rows[..n][i].saleLineId == line;
    }
  }

  lemma CleanRow(sold: map<Id, SoldLine>, c: LineCheck, row: ReturnLineRow)
    requires CheckRow(sold, c, row).ok && CheckRow(sold, c, row).problems == []
    ensures c.ok && c.problems == [] && row.saleLineId in sold
    ensures var after := PartsAt(c.taken, row.saleLineId).Plus(PartsOf(row));
            && CheckRow(sold, c, row).taken == c.taken[row.saleLineId := after]
            && after.WithinSold(sold[row.saleLineId].parts)
  {
  }

  lemma {:induction false} CleanRows(sold: map<Id, SoldLine>, taken: map<Id, Parts>, rows: seq<ReturnLineRow>, line: Id)
    requires CheckRows(sold, taken, rows).ok && CheckRows(sold, taken, rows).problems == []
    ensures PartsAt(CheckRows(sold, taken, rows).taken, line) == PartsAt(taken, line).Plus(RowsTaken(rows, line))
    ensures MentionedIn(rows, line) ==> line in sold && PartsAt(CheckRows(sold, taken, rows).taken, line).WithinSold(sold[line].parts)
  {
    hide CheckRow, CheckRows, MentionedIn, PartsOf, RowsTaken, Parts.Plus, Parts.WithinSold;
    RowsStep(sold, taken, rows, line);
    PlusNone(PartsAt(taken, line));
    if rows != [] {
      var n := |rows| - 1;
      PlusAssociates(PartsAt(taken, line), RowsTaken(rows[..n], line), PartsOf(rows[n]));
      CleanRow(sold, CheckRows(sold, taken, rows[..n]), rows[n]);
      CleanRows(sold, taken, rows[..n], line);
      MentionedLast(rows, line);
    } else {
      NotMentioned(line);
    }
  }

  lemma PlusNone(a: Parts)
    ensures a.Plus(NO_PARTS) == a && NO_PARTS.Plus(a) == a
  {
  }

  lemma PlusAssociates(a: Parts, b: Parts, c: Parts)
    ensures a.Plus(b).Plus(c) == a.Plus(b.Plus(c))
  {
  }

  lemma RowsStep(sold: map<Id, SoldLine>, taken: map<Id, Parts>, rows: seq<ReturnLineRow>, line: Id)
    ensures rows == [] ==> CheckRows(sold, taken, rows) == LineCheck(taken, true, []) && RowsTaken(rows, line) == NO_PARTS
    ensures rows != [] ==>
              var n := |rows| - 1;
              && CheckRows(sold, taken, rows) == CheckRow(sold, CheckRows(sold, taken, rows[..n]), rows[n])
              && RowsTaken(rows, line) ==
                   if rows[n].saleLineId == line then RowsTaken(rows[..n], line).Plus(PartsOf(rows[n])) else RowsTaken(rows[..n], line)
  {
  }

  lemma NotMentioned(line: Id)
    ensures !MentionedIn([], line) && !Mentioned([], line)
  {
  }

  lemma CleanBefore(sold: map<Id, SoldLine>, start: ReturnCheck, entries: seq<ReturnEntry>)
    requires entries != [] && CheckReturns(sold, start, entries).conflicts == []
    ensures var n := |entries| - 1;
            var before := CheckReturns(sold, start, entries[..n]);
            var rows := CheckRows(sold, before.taken, entries[n].lines);
            && before.conflicts == []
            && rows.ok && rows.problems == []
            && CheckReturns(sold, start, entries) == ReturnCheck(rows.taken, AddRounding(before.rounding, entries[n].ret), [])
            && RoundingFine(entries[n].ret, before.rounding)
            && !(!entries[n].ret.refundMode.Cash? && entries[n].ret.refundAmount > 0)
            && TotalProblems(entries[n].ret, entries[n].lines) == []
            && StockBackMatches(sold, entries[n].ledger, entries[n].lines)
  {
    hide CheckRows, RoundingFine, AddRounding, TotalProblems, StockBackMatches;
    var n := |entries| - 1;
    var before := CheckReturns(sold, start, entries[..n]);
    assert |CheckReturns(sold, start, entries).conflicts| >= |before.conflicts|;
  }

  lemma MentionedLastReturn(entries: seq<ReturnEntry>, line: Id)
    requires entries != []
    ensures var n := |entries| - 1; Mentioned(entries, line) <==> Mentioned(entries[..n], line) || MentionedIn(entries[n].lines, line)
  {
    hide MentionedIn;
    var n := |entries| - 1;
    if Mentioned(entries[..n], line) {
      var k :| 0 <= k < n && MentionedIn(entries[..n][k].lines, line);
      assert MentionedIn(entries[k].lines, line);
    }
    if Mentioned(entries, line) && !MentionedIn(entries[n].lines, line) {
      var k :| 0 <= k < |entries| && MentionedIn(entries[k].lines, line);
      assert MentionedIn(entries[..n][k].lines, line);
    }
  }

  /** Returns recorded before plus all those in the outbox never take more of a line than was sold. */
  lemma {:induction false} CleanReturns(sold: map<Id, SoldLine>, start: ReturnCheck, entries: seq<ReturnEntry>, line: Id)
    requires CheckReturns(sold, start, entries).conflicts == []
    ensures PartsAt(CheckReturns(sold, start, entries).taken, line) == PartsAt(start.taken, line).Plus(Taken(entries, line))
    ensures Mentioned(entries, line) ==>
              line in sold && PartsAt(start.taken, line).Plus(Taken(entries, line)).WithinSold(sold[line].parts)
  {
    hide CheckRows, RowsTaken, CheckReturn, CheckReturns, Mentioned, MentionedIn, RoundingFine, AddRounding, TotalProblems, StockBackMatches,
      Taken, Parts.Plus, Parts.WithinSold;
    TakenStep(entries, line);
    PlusNone(PartsAt(start.taken, line));
    if entries != [] {
      var n := |entries| - 1;
      PlusAssociates(PartsAt(start.taken, line), Taken(entries[..n], line), RowsTaken(entries[n].lines, line));
      PlusNone(Taken(entries[..n], line));
      CleanBefore(sold, start, entries);
      CleanReturns(sold, start, entries[..n], line);
      CleanRows(sold, CheckReturns(sold, start, entries[..n]).taken, entries[n].lines, line);
      MentionedLastReturn(entries, line);
      NotTaken(entries[n].lines, line);
    } else {
      NoReturns(sold, start);
      NotMentioned(line);
    }
  }

  lemma TakenStep(entries: seq<ReturnEntry>, line: Id)
    ensures Taken(entries, line) ==
              if entries == [] then NO_PARTS else Taken(entries[..|entries| - 1], line).Plus(RowsTaken(entries[|entries| - 1].lines, line))
  {
  }

  lemma NoReturns(sold: map<Id, SoldLine>, start: ReturnCheck)
    ensures CheckReturns(sold, start, []) == start
  {
  }

  lemma {:induction false} NotTaken(rows: seq<ReturnLineRow>, line: Id)
    ensures !MentionedIn(rows, line) ==> RowsTaken(rows, line) == NO_PARTS
  {
    if rows != [] {
      MentionedLast(rows, line);
      NotTaken(rows[..|rows| - 1], line);
    }
  }

  /** All the round-off that the returns took back of one bill. */
  function RoundingTaken(entries: seq<ReturnEntry>, bill: Id): (r: int) {
    if entries == [] then 0
    else
      var last := entries[|entries| - 1].ret;
      RoundingTaken(entries[..|entries| - 1], bill) + if last.saleInvoiceId == bill then last.roundOff else 0
  }

  lemma {:induction false} CleanRounding(sold: map<Id, SoldLine>, start: ReturnCheck, entries: seq<ReturnEntry>, bill: Id)
    requires CheckReturns(sold, start, entries).conflicts == [] && bill in start.rounding
    ensures var end := CheckReturns(sold, start, entries).rounding;
            && bill in end && end[bill].roundOff == start.rounding[bill].roundOff
            && end[bill].returned == start.rounding[bill].returned + RoundingTaken(entries, bill)
    ensures forall k :: 0 <= k < |entries| && entries[k].ret.saleInvoiceId == bill ==>
              entries[k].ret.roundOff * start.rounding[bill].roundOff >= 0
    ensures (exists k :: 0 <= k < |entries| && entries[k].ret.saleInvoiceId == bill) ==>
              Abs(start.rounding[bill].returned + RoundingTaken(entries, bill)) <= Abs(start.rounding[bill].roundOff)
  {
    hide CheckRows, CheckReturn, CheckReturns, TotalProblems, StockBackMatches;
    if entries != [] {
      var n := |entries| - 1;
      CleanBefore(sold, start, entries);
      CleanRounding(sold, start, entries[..n], bill);
      assert forall k :: 0 <= k < n ==> entries[..n][k] == entries[k];
      if entries[n].ret.saleInvoiceId != bill {
        assert forall k :: 0 <= k < |entries| && entries[k].ret.saleInvoiceId == bill ==> k < n && entries[..n][k].ret.saleInvoiceId == bill;
      }
    } else {
      NoReturns(sold, start);
    }
  }

  lemma BothClear(ctx: OutboxContext, invoices: seq<InvoiceEntry>, givenBack: seq<ReturnEntry>)
    requires Conflicts(ctx, invoices, givenBack) == []
    ensures InvoiceConflicts(ctx, invoices) == []
    ensures CheckReturns(SoldLines(ctx.serverLines, invoices), Start(ctx, invoices), givenBack).conflicts == []
  {
    hide InvoiceConflicts, CheckReturns, SoldLines, Start;
  }

  /** The check found nothing. Then every bill is sound. */
  lemma BillsAreSound(ctx: OutboxContext, invoices: seq<InvoiceEntry>, givenBack: seq<ReturnEntry>)
    requires Conflicts(ctx, invoices, givenBack) == []
    ensures forall k :: 0 <= k < |invoices| ==> SoundBill(invoices[k])
  {
    hide Conflicts, InvoiceConflicts, InvoiceProblems, SoundBill;
    BothClear(ctx, invoices, givenBack);
    forall k | 0 <= k < |invoices| ensures SoundBill(invoices[k]) {
      EachInvoiceClear(ctx, invoices, k);
      NoProblemsSound(invoices[k], CashierLimit(ctx, invoices[k].invoice.createdBy));
    }
  }

  /**
   * The check found nothing. Then of every sale line given back offline, what the server had
   * recorded and all the returns sent come to no more units than were sold, and no more than a
   * paisa above any part of its money.
   */
  lemma ReturnsAreWithinSold(ctx: OutboxContext, invoices: seq<InvoiceEntry>, givenBack: seq<ReturnEntry>, line: Id)
    requires Conflicts(ctx, invoices, givenBack) == [] && Mentioned(givenBack, line)
    ensures var sold := SoldLines(ctx.serverLines, invoices);
            line in sold && PartsAt(ctx.serverReturned, line).Plus(Taken(givenBack, line)).WithinSold(sold[line].parts)
  {
    hide Conflicts, CheckReturns, Taken, Mentioned, SoldLines;
    BothClear(ctx, invoices, givenBack);
    CleanReturns(SoldLines(ctx.serverLines, invoices), Start(ctx, invoices), givenBack, line);
  }

  /**
   * The check found nothing. Then the returns of a bill take its round-off back in its own
   * direction, and with those the server had recorded never more of it than there was.
   */
  lemma RoundOffIsWithinBill(ctx: OutboxContext, invoices: seq<InvoiceEntry>, givenBack: seq<ReturnEntry>, k: nat)
    requires Conflicts(ctx, invoices, givenBack) == [] && k < |givenBack|
    requires givenBack[k].ret.saleInvoiceId in StartRounding(ctx.serverRounding, invoices)
    ensures var bill := givenBack[k].ret.saleInvoiceId;
            var rounding := StartRounding(ctx.serverRounding, invoices)[bill];
            && givenBack[k].ret.roundOff * rounding.roundOff >= 0
            && Abs(rounding.returned + RoundingTaken(givenBack, bill)) <= Abs(rounding.roundOff)
  {
    hide Conflicts, CheckReturns, RoundingTaken, SoldLines, StartRounding;
    BothClear(ctx, invoices, givenBack);
    CleanRounding(SoldLines(ctx.serverLines, invoices), Start(ctx, invoices), givenBack, givenBack[k].ret.saleInvoiceId);
  }

  // ----- Splitting movements never changes the verdict

  lemma {:induction false} OutConcat(a: seq<LedgerRow>, b: seq<LedgerRow>, item: Id)
    ensures OutQty(a + b, item) == OutQty(a, item) + OutQty(b, item)
  {
    if b == [] {
      assert a + b == a;
    } else {
      assert (a + b)[..|a + b| - 1] == a + b[..|b| - 1];
      OutConcat(a, b[..|b| - 1], item);
    }
  }

  lemma PiecesSame(row: LedgerRow, pieces: seq<LedgerRow>, item: Id)
    requires IsSplit(row, pieces)
    ensures OutQty(pieces, item) == OutQty([row], item)
    ensures OnlySales(pieces) <==> OnlySales([row])
    ensures OnlyReturns(pieces) ==> row.txnType.ReturnTxn?
  {
    var taken, newId :| 0 <= taken < row.qtyOut && pieces == SplitRow(row, taken, newId);
    assert [row][..0] == [];
    assert pieces[0].txnType == row.txnType && pieces[0].qtyIn == row.qtyIn && [row][0] == row;
    if taken > 0 {
      assert pieces == [pieces[0]] + [pieces[1]];
      OutConcat([pieces[0]], [pieces[1]], item);
      assert [pieces[0]][..0] == [] && [pieces[1]][..0] == [];
    }
  }

  lemma {:induction false} SplitSameOut(replaced: map<Id, seq<LedgerRow>>, ledger: seq<LedgerRow>, item: Id)
    requires SplitsOf(replaced, ledger)
    ensures OutQty(Split(replaced, ledger), item) == OutQty(ledger, item)
    ensures OnlySales(Split(replaced, ledger)) <==> OnlySales(ledger)
  {
    hide IsSplit;
    if ledger != [] {
      var n := |ledger| - 1;
      var row := ledger[n];
      assert ledger == ledger[..n] + [row];
      assert row in ledger && forall r :: r in ledger[..n] ==> r in ledger;
      SplitSameOut(replaced, ledger[..n], item);
      OutConcat(Split(replaced, ledger[..n]), Replacement(replaced, row), item);
      OutConcat(ledger[..n], [row], item);
      OnlySalesConcat(Split(replaced, ledger[..n]), Replacement(replaced, row));
      OnlySalesConcat(ledger[..n], [row]);
      if row.id in replaced { PiecesSame(row, replaced[row.id], item); }
    }
  }

  lemma OnlySalesConcat(a: seq<LedgerRow>, b: seq<LedgerRow>)
    ensures OnlySales(a + b) <==> OnlySales(a) && OnlySales(b)
  {
    if OnlySales(a + b) {
      forall i | 0 <= i < |a| ensures a[i].txnType.SaleTxn? && a[i].qtyIn == 0 { assert (a + b)[i] == a[i]; }
      forall i | 0 <= i < |b| ensures b[i].txnType.SaleTxn? && b[i].qtyIn == 0 { assert (a + b)[|a| + i] == b[i]; }
    }
  }

  lemma SplitSameStockVerdict(replaced: map<Id, seq<LedgerRow>>, ledger: seq<LedgerRow>, lines: seq<SaleLineRow>)
    requires SplitsOf(replaced, ledger)
    ensures StockMatches(Split(replaced, ledger), lines) <==> StockMatches(ledger, lines)
  {
    hide OnlySales, Split, SplitsOf, SameQuantities;
    SplitSameOut(replaced, ledger, 0);
    forall item: Id ensures QtyIn(OutByItem(Split(replaced, ledger)), item) == QtyIn(OutByItem(ledger), item) {
      SplitSameOut(replaced, ledger, item);
      OutByItemIs(Split(replaced, ledger), item);
      OutByItemIs(ledger, item);
    }
    SameEverywhere(OutByItem(Split(replaced, ledger)), SoldByItem(lines));
    SameEverywhere(OutByItem(ledger), SoldByItem(lines));
  }

  /** Cutting a bill's movements for batch shortfalls leaves every problem found with it, and none new. */
  lemma SplitSameProblems(replaced: map<Id, seq<LedgerRow>>, entry: InvoiceEntry, maxPercent: Option<int>)
    requires SplitsOf(replaced, entry.ledger)
    ensures InvoiceProblems(entry.(ledger := Split(replaced, entry.ledger)), maxPercent) == InvoiceProblems(entry, maxPercent)
  {
    hide StockMatches, HeadProblems, AmountsAgree, DiscountsTooHigh, PaymentProblems, Split, ComputeSaleTotals, When, ListTotal;
    SplitSameStockVerdict(replaced, entry.ledger, entry.lines);
    var cut := entry.(ledger := Split(replaced, entry.ledger));
    assert Recompute(cut) == Recompute(entry);
  }

  /** A return's movements are never cut: cutting takes sales only, which a return may not hold. */
  lemma SplitSameBackVerdict(replaced: map<Id, seq<LedgerRow>>, ledger: seq<LedgerRow>, sold: map<Id, SoldLine>, lines: seq<ReturnLineRow>)
    requires SplitsOf(replaced, ledger)
    requires forall row :: row in ledger && row.id in replaced ==> TakesOut(row)
    ensures StockBackMatches(sold, Split(replaced, ledger), lines) <==> StockBackMatches(sold, ledger, lines)
  {
    if forall row :: row in ledger ==> row.id !in replaced {
      SplitNone(replaced, ledger);
    } else {
      var row :| row in ledger && row.id in replaced;
      SplitHasSale(replaced, ledger, row);
    }
  }

  lemma {:induction false} SplitNone(replaced: map<Id, seq<LedgerRow>>, ledger: seq<LedgerRow>)
    requires forall row :: row in ledger ==> row.id !in replaced
    ensures Split(replaced, ledger) == ledger
  {
    if ledger != [] {
      var n := |ledger| - 1;
      assert ledger == ledger[..n] + [ledger[n]];
      SplitNone(replaced, ledger[..n]);
    }
  }

  lemma {:induction false} SplitHasSale(replaced: map<Id, seq<LedgerRow>>, ledger: seq<LedgerRow>, row: LedgerRow)
    requires row in ledger && row.id in replaced && IsSplit(row, replaced[row.id]) && TakesOut(row)
    ensures !OnlyReturns(ledger) && !OnlyReturns(Split(replaced, ledger))
  {
    var n := |ledger| - 1;
    var i :| 0 <= i < |ledger| && ledger[i] == row;
    assert !ledger[i].txnType.ReturnTxn?;
    var front, back := Split(replaced, ledger[..n]), Replacement(replaced, ledger[n]);
    if i == n {
      PiecesSale(row, replaced[row.id]);
      assert (front + back)[|front|] == back[0];
    } else {
      assert row in ledger[..n] by { assert ledger[..n][i] == row; }
      SplitHasSale(replaced, ledger[..n], row);
      var j :| 0 <= j < |front| && !(front[j].txnType.ReturnTxn? && front[j].qtyOut == 0);
      assert (front + back)[j] == front[j];
    }
  }

  lemma PiecesSale(row: LedgerRow, pieces: seq<LedgerRow>)
    requires IsSplit(row, pieces)
    ensures pieces != [] && pieces[0].txnType == row.txnType
  {
    var taken, newId :| 0 <= taken < row.qtyOut && pieces == SplitRow(row, taken, newId);
  }
}
