/**
 * What the server's check of the returns finds, in terms of the returns alone, what was sold and what the server had back
 * already (apps/api/src/fallback/verify-outbox.ts).
 */
module ReturnsChecked {
  import opened BillsChecked
  import opened OutboxRows
  import opened Rounding
  import opened VerifyOutbox
  import opened VerifySoundness

  // ----- What right returns are

  /** A row gives back some of a line that is known, and its amount is its parts'. */
  ghost predicate RowRight(sold: map<Id, SoldLine>, row: ReturnLineRow) {
    row.saleLineId in sold && row.qty > 0 && Within(row.amount, row.taxable + row.cgst + row.sgst + row.igst, 1)
  }

  /** No more units than were sold, nor any part of the money by more than a paisa. */
  ghost predicate NotMore(back: Parts, sold: Parts) {
    back.qty <= sold.qty && back.taxable <= sold.taxable + 1 && back.cgst <= sold.cgst + 1 && back.sgst <= sold.sgst + 1 && back.igst <= sold.igst + 1
  }

  /** With what was taken before, the row and those before it keep within what its line sold. */
  ghost predicate RowWithin(sold: map<Id, SoldLine>, before: Id -> Parts, earlier: seq<ReturnLineRow>, row: ReturnLineRow) {
    row.saleLineId in sold && NotMore(before(row.saleLineId).Plus(RowsTaken(earlier, row.saleLineId).Plus(PartsOf(row))), sold[row.saleLineId].parts)
  }

  ghost predicate RowsRight(sold: map<Id, SoldLine>, before: Id -> Parts, rows: seq<ReturnLineRow>) {
    forall j :: 0 <= j < |rows| ==> RowRight(sold, rows[j]) && RowWithin(sold, before, rows[..j], rows[j])
  }

  /** Of a bill whose round-off is known, some back in its own direction, and never more than there is. */
  ghost predicate RoundOffRight(ret: ReturnRow, rounding: map<Id, BillRounding>, before: int) {
    && -50 <= ret.roundOff <= 50
    && (ret.saleInvoiceId in rounding ==>
          var bill := rounding[ret.saleInvoiceId];
          && (ret.roundOff > 0 ==> bill.roundOff >= 0) && (ret.roundOff < 0 ==> bill.roundOff <= 0)
          && Abs(bill.returned + before + ret.roundOff) <= Abs(bill.roundOff))
  }

  function AmountsBack(rows: seq<ReturnLineRow>): (r: int) {
    if rows == [] then 0 else AmountsBack(rows[..|rows| - 1]) + rows[|rows| - 1].amount
  }

  /** Its total is its rows' and the round-off, all of it taken off the due or handed back, in cash. */
  ghost predicate MoneyRight(entry: ReturnEntry) {
    && Within(entry.ret.totalAmount, AmountsBack(entry.lines) + entry.ret.roundOff, 1)
    && Within(entry.ret.totalAmount, entry.ret.dueAdjusted + entry.ret.refundAmount, 1)
    && (entry.ret.refundAmount > 0 ==> entry.ret.refundMode == Cash)
  }

  function BackQty(sold: map<Id, SoldLine>, rows: seq<ReturnLineRow>, item: Id): (r: int) {
    if rows == [] then 0
    else
      var last := rows[|rows| - 1];
      BackQty(sold, rows[..|rows| - 1], item) + if last.saleLineId in sold && sold[last.saleLineId].itemId == item then last.qty else 0
  }

  /** Nothing but returns, and of every item as much as was given back. */
  ghost predicate StockBackRight(sold: map<Id, SoldLine>, entry: ReturnEntry) {
    && (forall row :: row in entry.ledger ==> row.txnType == ReturnTxn && row.qtyOut == 0)
    && forall item: Id :: InQty(entry.ledger, item) == BackQty(sold, entry.lines, item)
  }

  ghost predicate RightReturn(sold: map<Id, SoldLine>, start: ReturnCheck, earlier: seq<ReturnEntry>, entry: ReturnEntry) {
    && RowsRight(sold, (line: Id) => PartsAt(start.taken, line).Plus(Taken(earlier, line)), entry.lines)
    && RoundOffRight(entry.ret, start.rounding, RoundingTaken(earlier, entry.ret.saleInvoiceId))
    && MoneyRight(entry) && StockBackRight(sold, entry)
  }

  /** Each return is right after those before it. */
  ghost predicate RightReturns(sold: map<Id, SoldLine>, start: ReturnCheck, entries: seq<ReturnEntry>) {
    forall k :: 0 <= k < |entries| ==> RightReturn(sold, start, entries[..k], entries[k])
  }

  // ----- The check finds it

  lemma RowsNext(sold: map<Id, SoldLine>, before: Id -> Parts, rows: seq<ReturnLineRow>)
    requires rows != []
    ensures var n := |rows| - 1;
            RowsRight(sold, before, rows) <==>
            RowsRight(sold, before, rows[..n]) && RowRight(sold, rows[n]) && RowWithin(sold, before, rows[..n], rows[n])
  {
    hide RowRight, RowWithin;
    var n := |rows| - 1;
    if RowsRight(sold, before, rows) {
      forall j | 0 <= j < n ensures RowRight(sold, rows[..n][j]) && RowWithin(sold, before, rows[..n][..j], rows[..n][j]) {
        assert rows[..n][..j] == rows[..j];
      }
    }
    if RowsRight(sold, before, rows[..n]) && RowRight(sold, rows[n]) && RowWithin(sold, before, rows[..n], rows[n]) {
      forall j | 0 <= j < |rows| ensures RowRight(sold, rows[j]) && RowWithin(sold, before, rows[..j], rows[j]) {
        if j < n { assert rows[..n][..j] == rows[..j] && rows[..n][j] == rows[j]; }
      }
    }
  }

  lemma RowStep(sold: map<Id, SoldLine>, c: LineCheck, before: Id -> Parts, earlier: seq<ReturnLineRow>, row: ReturnLineRow)
    requires c.ok && c.problems == []
    requires PartsAt(c.taken, row.saleLineId) == before(row.saleLineId).Plus(RowsTaken(earlier, row.saleLineId))
    ensures CheckRow(sold, c, row).ok && CheckRow(sold, c, row).problems == [] <==> RowRight(sold, row) && RowWithin(sold, before, earlier, row)
  {
    hide RowsTaken, PartsAt;
    PlusAssociates(before(row.saleLineId), RowsTaken(earlier, row.saleLineId), PartsOf(row));
  }

  lemma {:induction false} RowsFound(sold: map<Id, SoldLine>, taken: map<Id, Parts>, before: Id -> Parts, rows: seq<ReturnLineRow>)
    requires forall line: Id :: before(line) == PartsAt(taken, line)
    ensures CheckRows(sold, taken, rows).ok && CheckRows(sold, taken, rows).problems == [] <==> RowsRight(sold, before, rows)
  {
    hide CheckRow, CheckRows, RowsRight, RowRight, RowWithin, RowsTaken, PartsAt, Parts.Plus, PartsOf;
    RowsStep(sold, taken, rows, 0);
    if rows != [] {
      var n := |rows| - 1;
      var c, line := CheckRows(sold, taken, rows[..n]), rows[n].saleLineId;
      RowsFound(sold, taken, before, rows[..n]);
      RowsNext(sold, before, rows);
      if c.ok && c.problems == [] {
        CleanRows(sold, taken, rows[..n], line);
        RowStep(sold, c, before, rows[..n], rows[n]);
      } else {
        OnlyWorse(sold, c, rows[n]);
      }
    } else {
      NoRows(sold, before);
    }
  }

  lemma NoRows(sold: map<Id, SoldLine>, before: Id -> Parts)
    ensures RowsRight(sold, before, [])
  {
  }

  lemma OnlyWorse(sold: map<Id, SoldLine>, c: LineCheck, row: ReturnLineRow)
    requires !(c.ok && c.problems == [])
    ensures !(CheckRow(sold, c, row).ok && CheckRow(sold, c, row).problems == [])
  {
  }

  lemma RoundOffFound(ret: ReturnRow, start: map<Id, BillRounding>, rounding: map<Id, BillRounding>, before: int)
    requires ret.saleInvoiceId in start <==> ret.saleInvoiceId in rounding
    requires ret.saleInvoiceId in start ==> rounding[ret.saleInvoiceId] == start[ret.saleInvoiceId].(returned := start[ret.saleInvoiceId].returned + before)
    ensures RoundingFine(ret, rounding) <==> RoundOffRight(ret, start, before)
  {
    if ret.saleInvoiceId in start { SameSign(ret.roundOff, start[ret.saleInvoiceId].roundOff); }
  }

  lemma SameSign(a: int, b: int)
    ensures a * b >= 0 <==> (a > 0 ==> b >= 0) && (a < 0 ==> b <= 0)
  {
    if (a > 0 && b >= 0) || (a < 0 && b <= 0) { assert a * b >= 0; }
    if (a > 0 && b < 0) || (a < 0 && b > 0) { assert a * b < 0; }
  }

  lemma {:induction false} AmountsBackIs(rows: seq<ReturnLineRow>)
    ensures AmountOf(rows) == AmountsBack(rows)
  {
    if rows != [] { AmountsBackIs(rows[..|rows| - 1]); }
  }

  lemma {:induction false} BackByItemIs(sold: map<Id, SoldLine>, rows: seq<ReturnLineRow>, item: Id)
    requires forall row :: row in rows ==> row.saleLineId in sold
    ensures QtyIn(BackByItem(sold, rows), item) == BackQty(sold, rows, item)
  {
    if rows != [] {
      var n := |rows| - 1;
      assert rows == rows[..n] + [rows[n]];
      BackByItemIs(sold, rows[..n], item);
    }
  }

  lemma StockBackFound(sold: map<Id, SoldLine>, entry: ReturnEntry)
    requires forall row :: row in entry.lines ==> row.saleLineId in sold
    ensures StockBackMatches(sold, entry.ledger, entry.lines) <==> StockBackRight(sold, entry)
  {
    hide InQty, BackQty, SameQuantities, QtyIn;
    SameEverywhere(InByItem(entry.ledger), BackByItem(sold, entry.lines));
    forall item: Id ensures QtyIn(InByItem(entry.ledger), item) == InQty(entry.ledger, item)
                         && QtyIn(BackByItem(sold, entry.lines), item) == BackQty(sold, entry.lines, item) {
      InByItemIs(entry.ledger, item);
      BackByItemIs(sold, entry.lines, item);
    }
    if OnlyReturns(entry.ledger) {
      forall row | row in entry.ledger ensures row.txnType == ReturnTxn && row.qtyOut == 0 {
        var i :| 0 <= i < |entry.ledger| && entry.ledger[i] == row;
      }
    }
  }

  /** What was found of the returns before says nothing of this one alone. */
  lemma ReturnFound(sold: map<Id, SoldLine>, start: ReturnCheck, earlier: seq<ReturnEntry>, entry: ReturnEntry)
    requires CheckReturns(sold, start, earlier).conflicts == []
    ensures CheckReturn(sold, CheckReturns(sold, start, earlier), entry).conflicts == [] <==> RightReturn(sold, start, earlier, entry)
  {
    hide CheckReturns, CheckRows, RowsRight, RoundingFine, StockBackMatches, StockBackRight, Taken, RoundingTaken, PartsAt, RoundOffRight, Parts.Plus,
      TotalProblems, MoneyRight;
    var c := CheckReturns(sold, start, earlier);
    var before := (line: Id) => PartsAt(start.taken, line).Plus(Taken(earlier, line));
    forall line: Id ensures before(line) == PartsAt(c.taken, line) { CleanReturns(sold, start, earlier, line); }
    RowsFound(sold, c.taken, before, entry.lines);
    RoundOffSoFar(sold, start, earlier, entry.ret);
    MoneyFound(entry);
    if RowsRight(sold, before, entry.lines) {
      KnownRows(sold, before, entry.lines);
      StockBackFound(sold, entry);
    }
  }

  lemma KnownRows(sold: map<Id, SoldLine>, before: Id -> Parts, rows: seq<ReturnLineRow>)
    requires RowsRight(sold, before, rows)
    ensures forall row :: row in rows ==> row.saleLineId in sold
  {
    hide RowWithin;
    forall row | row in rows ensures row.saleLineId in sold {
      var j :| 0 <= j < |rows| && rows[j] == row;
    }
  }

  lemma MoneyFound(entry: ReturnEntry)
    ensures MoneyRight(entry) <==> TotalProblems(entry.ret, entry.lines) == [] && !(!entry.ret.refundMode.Cash? && entry.ret.refundAmount > 0)
  {
    AmountsBackIs(entry.lines);
  }

  lemma RoundOffSoFar(sold: map<Id, SoldLine>, start: ReturnCheck, earlier: seq<ReturnEntry>, ret: ReturnRow)
    requires CheckReturns(sold, start, earlier).conflicts == []
    ensures RoundingFine(ret, CheckReturns(sold, start, earlier).rounding) <==>
            RoundOffRight(ret, start.rounding, RoundingTaken(earlier, ret.saleInvoiceId))
  {
    hide CheckReturns, RoundingFine, RoundOffRight, RoundingTaken;
    SameBills(sold, start, earlier);
    if ret.saleInvoiceId in start.rounding { CleanRounding(sold, start, earlier, ret.saleInvoiceId); }
    RoundOffFound(ret, start.rounding, CheckReturns(sold, start, earlier).rounding, RoundingTaken(earlier, ret.saleInvoiceId));
  }

  lemma {:induction false} SameBills(sold: map<Id, SoldLine>, start: ReturnCheck, entries: seq<ReturnEntry>)
    ensures CheckReturns(sold, start, entries).rounding.Keys == start.rounding.Keys
  {
    hide CheckRows, RoundingFine, StockBackMatches, TotalProblems;
    if entries != [] { SameBills(sold, start, entries[..|entries| - 1]); }
  }

  lemma RightNext(sold: map<Id, SoldLine>, start: ReturnCheck, entries: seq<ReturnEntry>)
    requires entries != []
    ensures var n := |entries| - 1;
            RightReturns(sold, start, entries) <==> RightReturns(sold, start, entries[..n]) && RightReturn(sold, start, entries[..n], entries[n])
  {
    hide RightReturn;
    var n := |entries| - 1;
    assert forall k :: 0 <= k < n ==> entries[..n][..k] == entries[..k] && entries[..n][k] == entries[k];
    if RightReturns(sold, start, entries) {
      forall k | 0 <= k < n ensures RightReturn(sold, start, entries[..n][..k], entries[..n][k]) {
        assert RightReturn(sold, start, entries[..k], entries[k]);
      }
    }
  }

  /** Nothing is found of the returns exactly when each is right after those before it. */
  lemma {:induction false} ReturnsFound(sold: map<Id, SoldLine>, start: ReturnCheck, entries: seq<ReturnEntry>)
    requires start.conflicts == []
    ensures CheckReturns(sold, start, entries).conflicts == [] <==> RightReturns(sold, start, entries)
  {
    hide CheckReturn, CheckReturns, RightReturn, RightReturns;
    if entries == [] {
      NoReturns(sold, start);
      NoneWrong(sold, start);
    } else {
      var n := |entries| - 1;
      ReturnsFound(sold, start, entries[..n]);
      RightNext(sold, start, entries);
      LastChecked(sold, start, entries);
      if CheckReturns(sold, start, entries).conflicts == [] { CleanBefore(sold, start, entries); }
      if CheckReturns(sold, start, entries[..n]).conflicts == [] { ReturnFound(sold, start, entries[..n], entries[n]); }
    }
  }

  lemma NoneWrong(sold: map<Id, SoldLine>, start: ReturnCheck)
    ensures RightReturns(sold, start, [])
  {
  }

  lemma LastChecked(sold: map<Id, SoldLine>, start: ReturnCheck, entries: seq<ReturnEntry>)
    requires entries != []
    ensures CheckReturns(sold, start, entries) == CheckReturn(sold, CheckReturns(sold, start, entries[..|entries| - 1]), entries[|entries| - 1])
  {
    hide CheckReturn;
  }

  // ----- The whole outbox

  lemma {:induction false} BillsFound(ctx: OutboxContext, invoices: seq<InvoiceEntry>)
    ensures InvoiceConflicts(ctx, invoices) == [] <==>
            forall k :: 0 <= k < |invoices| ==> RightBill(invoices[k], CashierLimit(ctx, invoices[k].invoice.createdBy))
  {
    hide InvoiceProblems, RightBill, AmountsFound, RestFound;
    if invoices != [] {
      var n := |invoices| - 1;
      BillsFound(ctx, invoices[..n]);
      ProblemsFound(invoices[n], CashierLimit(ctx, invoices[n].invoice.createdBy));
      assert forall k :: 0 <= k < n ==> invoices[..n][k] == invoices[k];
    }
  }

  /** The check finds nothing exactly when every bill is right, and every return is right after those before it. */
  lemma NothingFoundWhen(ctx: OutboxContext, invoices: seq<InvoiceEntry>, givenBack: seq<ReturnEntry>)
    ensures Conflicts(ctx, invoices, givenBack) == [] <==>
            && (forall k :: 0 <= k < |invoices| ==> RightBill(invoices[k], CashierLimit(ctx, invoices[k].invoice.createdBy)))
            && RightReturns(SoldLines(ctx.serverLines, invoices), Start(ctx, invoices), givenBack)
  {
    hide InvoiceConflicts, CheckReturns, RightReturns, RightBill, SoldLines, StartRounding;
    BillsFound(ctx, invoices);
    ReturnsFound(SoldLines(ctx.serverLines, invoices), Start(ctx, invoices), givenBack);
  }

  // ----- What is reported, and of which document

  /** A problem of a bill is reported under the bill's id, exactly when it is found of a bill with that id. */
  lemma {:induction false} ReportedOfBill(ctx: OutboxContext, invoices: seq<InvoiceEntry>, id: Id, problem: Problem)
    ensures OnInvoice(id, problem) in InvoiceConflicts(ctx, invoices) <==>
            exists entry :: entry in invoices && entry.invoice.id == id && problem in InvoiceProblems(entry, CashierLimit(ctx, entry.invoice.createdBy))
    ensures forall ret :: OnReturn(ret, problem) !in InvoiceConflicts(ctx, invoices)
  {
    hide InvoiceProblems, OnInvoices;
    if invoices != [] {
      var n := |invoices| - 1;
      assert invoices == invoices[..n] + [invoices[n]];
      ReportedOfBill(ctx, invoices[..n], id, problem);
      UnderId(invoices[n].invoice.id, InvoiceProblems(invoices[n], CashierLimit(ctx, invoices[n].invoice.createdBy)), id, problem);
      assert invoices[n] in invoices;
    }
  }

  lemma UnderId(of: Id, problems: seq<Problem>, id: Id, problem: Problem)
    ensures OnInvoice(id, problem) in OnInvoices(of, problems) <==> id == of && problem in problems
    ensures OnReturn(id, problem) in OnReturns(of, problems) <==> id == of && problem in problems
    ensures OnReturn(id, problem) !in OnInvoices(of, problems) && OnInvoice(id, problem) !in OnReturns(of, problems)
    ensures forall ret :: OnReturn(ret, problem) !in OnInvoices(of, problems)
  {
    if id == of && problem in problems {
      var i :| 0 <= i < |problems| && problems[i] == problem;
      assert OnInvoices(of, problems)[i] == OnInvoice(id, problem) && OnReturns(of, problems)[i] == OnReturn(id, problem);
    }
  }

  /**
   * What checking one return adds to what was found before, all under its own id: each problem exactly when there is that
   * wrong with it after those before. Of one whose rows don't fit their sale lines only the rows' own are said.
   */
  lemma ProblemsOfReturn(sold: map<Id, SoldLine>, start: ReturnCheck, earlier: seq<ReturnEntry>, entry: ReturnEntry, problem: Problem)
    requires CheckReturns(sold, start, earlier).conflicts == []
    ensures var found := CheckReturn(sold, CheckReturns(sold, start, earlier), entry).conflicts;
            var rows := CheckRows(sold, CheckReturns(sold, start, earlier).taken, entry.lines);
            && (forall conflict :: conflict in found ==> conflict.OnReturn? && conflict.ret == entry.ret.id)
            && (OnReturn(entry.ret.id, RefundNeedsServer) in found <==> entry.ret.refundMode != Cash && entry.ret.refundAmount > 0)
            && (OnReturn(entry.ret.id, LinesDontMatch) in found <==> exists row :: row in entry.lines && !RowRight(sold, row))
            && (OnReturn(entry.ret.id, RoundingReversesMore) in found <==>
                  rows.ok && !RoundOffRight(entry.ret, start.rounding, RoundingTaken(earlier, entry.ret.saleInvoiceId)))
            && (OnReturn(entry.ret.id, TotalDoesntMatch) in found <==>
                  rows.ok && !(Within(entry.ret.totalAmount, AmountsBack(entry.lines) + entry.ret.roundOff, 1)
                               && Within(entry.ret.totalAmount, entry.ret.dueAdjusted + entry.ret.refundAmount, 1)))
            && (OnReturn(entry.ret.id, StockBackDoesntMatch) in found <==> rows.ok && !StockBackRight(sold, entry))
  {
    hide CheckReturn, CheckReturns, CheckRows, RoundingFine, StockBackMatches, StockBackRight, RoundingTaken, RoundOffRight, OnReturns, RowRight, AmountsBack,
      AmountOf, TotalProblems, Within;
    var c := CheckReturns(sold, start, earlier);
    var rows := CheckRows(sold, c.taken, entry.lines);
    OkWhen(sold, c.taken, entry.lines);
    RowsProblems(sold, c.taken, entry.lines);
    RoundOffSoFar(sold, start, earlier, entry.ret);
    TotalFound(entry);
    if rows.ok {
      KnownWhenOk(sold, entry.lines);
      StockBackFound(sold, entry);
    }
    ReturnProblems(sold, c, entry);
  }

  lemma TotalFound(entry: ReturnEntry)
    ensures forall problem :: problem in TotalProblems(entry.ret, entry.lines) <==>
              problem == TotalDoesntMatch && !(Within(entry.ret.totalAmount, AmountsBack(entry.lines) + entry.ret.roundOff, 1)
                                               && Within(entry.ret.totalAmount, entry.ret.dueAdjusted + entry.ret.refundAmount, 1))
  {
    AmountsBackIs(entry.lines);
  }

  lemma KnownWhenOk(sold: map<Id, SoldLine>, rows: seq<ReturnLineRow>)
    requires forall row :: row in rows ==> RowRight(sold, row)
    ensures forall row :: row in rows ==> row.saleLineId in sold
  {
  }

  lemma {:induction false} OkWhen(sold: map<Id, SoldLine>, taken: map<Id, Parts>, rows: seq<ReturnLineRow>)
    ensures CheckRows(sold, taken, rows).ok <==> forall row :: row in rows ==> RowRight(sold, row)
  {
    hide Parts.WithinSold;
    if rows != [] {
      var n := |rows| - 1;
      assert rows == rows[..n] + [rows[n]];
      OkWhen(sold, taken, rows[..n]);
      assert rows[n] in rows;
    }
  }

  lemma {:induction false} RowsProblems(sold: map<Id, SoldLine>, taken: map<Id, Parts>, rows: seq<ReturnLineRow>)
    ensures forall problem :: problem in CheckRows(sold, taken, rows).problems ==>
              problem.MoreThanSold? && exists row :: row in rows && row.saleLineId == problem.line
  {
    hide Parts.WithinSold, RowOk;
    if rows != [] {
      var n := |rows| - 1;
      assert rows == rows[..n] + [rows[n]];
      RowsProblems(sold, taken, rows[..n]);
      assert rows[n] in rows;
    }
  }

  /** A problem found of a return, part by part of its check. */
  lemma ReturnProblems(sold: map<Id, SoldLine>, c: ReturnCheck, entry: ReturnEntry)
    requires c.conflicts == []
    ensures var rows := CheckRows(sold, c.taken, entry.lines);
            var found, id := CheckReturn(sold, c, entry).conflicts, entry.ret.id;
            && (forall conflict :: conflict in found ==> conflict.OnReturn? && conflict.ret == id)
            && forall problem :: OnReturn(id, problem) in found <==>
                 || (problem == RefundNeedsServer && !entry.ret.refundMode.Cash? && entry.ret.refundAmount > 0)
                 || problem in rows.problems
                 || (problem == LinesDontMatch && !rows.ok)
                 || (problem == RoundingReversesMore && rows.ok && !RoundingFine(entry.ret, c.rounding))
                 || (rows.ok && problem in TotalProblems(entry.ret, entry.lines))
                 || (problem == StockBackDoesntMatch && rows.ok && !StockBackMatches(sold, entry.ledger, entry.lines))
  {
    hide CheckRows, RoundingFine, StockBackMatches, AddRounding, TotalProblems, OnReturns, When;
    var problems := ProblemsInOrder(sold, c, entry);
    assert CheckReturn(sold, c, entry).conflicts == OnReturns(entry.ret.id, problems);
    OnlyReturnsIn(entry.ret.id, problems);
    forall problem ensures OnReturn(entry.ret.id, problem) in OnReturns(entry.ret.id, problems) <==> problem in problems {
      UnderId(entry.ret.id, problems, entry.ret.id, problem);
    }
    InProblems(sold, c, entry);
  }

  function ProblemsInOrder(sold: map<Id, SoldLine>, c: ReturnCheck, entry: ReturnEntry): (r: seq<Problem>) {
    var rows, ret := CheckRows(sold, c.taken, entry.lines), entry.ret;
    var head := When(!ret.refundMode.Cash? && ret.refundAmount > 0, RefundNeedsServer) + rows.problems;
    if !rows.ok then head + [LinesDontMatch]
    else head + When(!RoundingFine(ret, c.rounding), RoundingReversesMore) + TotalProblems(ret, entry.lines)
         + When(!StockBackMatches(sold, entry.ledger, entry.lines), StockBackDoesntMatch)
  }

  lemma InProblems(sold: map<Id, SoldLine>, c: ReturnCheck, entry: ReturnEntry)
    ensures var rows := CheckRows(sold, c.taken, entry.lines);
            forall problem :: problem in ProblemsInOrder(sold, c, entry) <==>
                 || (problem == RefundNeedsServer && !entry.ret.refundMode.Cash? && entry.ret.refundAmount > 0)
                 || problem in rows.problems
                 || (problem == LinesDontMatch && !rows.ok)
                 || (problem == RoundingReversesMore && rows.ok && !RoundingFine(entry.ret, c.rounding))
                 || (rows.ok && problem in TotalProblems(entry.ret, entry.lines))
                 || (problem == StockBackDoesntMatch && rows.ok && !StockBackMatches(sold, entry.ledger, entry.lines))
  {
    hide CheckRows, RoundingFine, StockBackMatches, TotalProblems;
  }

  lemma OnlyReturnsIn(id: Id, problems: seq<Problem>)
    ensures forall conflict :: conflict in OnReturns(id, problems) ==> conflict.OnReturn? && conflict.ret == id
  {
  }
}
