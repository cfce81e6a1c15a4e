/**
 * A whole bill given back by any sequence of partial returns, mixed with payments: its lines
 * (apps/api/src/returns/returns.service.ts), its round-off and what is due (packages/contracts).
 */
module BillReturns {
  import opened Returns
  import opened Rounding
  import opened Sums
  import Discounts
  import SaleTotals

  datatype BillLine = BillLine(amounts: GstAmounts, sold: nat)
  datatype Bill = Bill(lines: seq<BillLine>, roundOff: int)

  function LineTotals(lines: seq<BillLine>): (r: seq<int>)
    ensures |r| == |lines|
  {
    seq(|lines|, i requires 0 <= i < |lines| => lines[i].amounts.Total())
  }

  function NetTotal(bill: Bill): (net: int) { Sum(LineTotals(bill.lines)) }
  function GrandTotal(bill: Bill): (total: int) { NetTotal(bill) + bill.roundOff }

  ghost predicate ValidBill(bill: Bill) {
    && (forall i :: 0 <= i < |bill.lines| ==> bill.lines[i].sold > 0)
    && GrandTotal(bill) >= 0
    && (NetTotal(bill) == 0 ==> bill.roundOff == 0)
  }

  /** What has come back, what was paid, what returns took off the amount due and what they handed back. */
  datatype BillState = BillState(returned: seq<LineReturned>, roundOff: int, paid: int, credited: int, refunded: int)

  function ReturnedTotals(returned: seq<LineReturned>): (r: seq<int>)
    ensures |r| == |returned|
  {
    seq(|returned|, i requires 0 <= i < |returned| => returned[i].amounts.Total())
  }

  function ReturnedNet(s: BillState): (net: int) { Sum(ReturnedTotals(s.returned)) }

  // ----- Round-off shares

  /** A return's cumulative share of the bill's round-off, less what was already reversed. */
  function ReturnRoundOff(invoiceRoundOff: int, invoiceNet: int, returnedNet: int, returnedRoundOff: int, amount: int): (share: int) {
    if invoiceNet <= 0 || amount <= 0 then 0
    else RoundDiv(invoiceRoundOff * Min(invoiceNet, returnedNet + amount), invoiceNet) - returnedRoundOff
  }

  function ShareOf(roundOff: int, net: int, part: int): (share: int) {
    if net <= 0 then 0 else RoundDiv(roundOff * part, net)
  }

  /** A share of the round-off is its size prorated, with its sign. */
  lemma ShareSigned(roundOff: int, net: nat, part: nat)
    requires net > 0
    ensures ShareOf(roundOff, net, part) ==
              if roundOff >= 0 then Prorated(roundOff, part, net) else 0 - Prorated(-roundOff, part, net)
  {
    if roundOff < 0 {
      assert -roundOff * part == -(roundOff * part);
      RoundDivNegate(-roundOff * part, net);
    }
  }

  /** A share grows with its part, and, of no more than the whole, no faster than it. */
  lemma ShareSlope(m: nat, net: nat, n: nat, n': nat)
    requires 0 < net && m <= net && n <= n'
    ensures Prorated(m, n', net) - Prorated(m, n, net) <= n' - n
  {
    assert m * n >= 0 && m * n' >= 0;
    RoundDivShift(m * n, n' - n, net);
    MulMonotone(n' - n, m, net);
    assert m * n' == m * n + (n' - n) * m;
    assert net * (n' - n) == (n' - n) * net;
    RoundDivMonotone(m * n', m * n + net * (n' - n), net);
  }

  lemma ShareEnds(m: nat, net: nat)
    requires 0 < net
    ensures Prorated(m, 0, net) == 0 && Prorated(m, net, net) == m
  {
    WholePart(m, net);
    assert m * 0 == 0;
    RoundDivWhole(0, net);
  }

  /**
   * Shares only ever move towards the whole round-off, so each return's share has its sign, and
   * (the bill's total being no less than nothing) never turns a refund negative.
   */
  lemma ShareSteps(roundOff: int, net: nat, n: nat, n': nat)
    requires n <= n' <= net && net + roundOff >= 0 && (net == 0 ==> roundOff == 0)
    ensures var step := ShareOf(roundOff, net, n') - ShareOf(roundOff, net, n);
            && (roundOff >= 0 ==> 0 <= step && 0 <= ShareOf(roundOff, net, n') <= roundOff)
            && (roundOff <= 0 ==> step <= 0 && roundOff <= ShareOf(roundOff, net, n') <= 0)
            && n' - n + step >= 0
    ensures ShareOf(roundOff, net, 0) == 0 && ShareOf(roundOff, net, net) == roundOff
  {
    if net > 0 {
      hide Prorated, ShareOf;
      ShareSigned(roundOff, net, n);
      ShareSigned(roundOff, net, n');
      ShareSigned(roundOff, net, 0);
      ShareSigned(roundOff, net, net);
      ShareEnds(Abs(roundOff), net);
      PartStep(Abs(roundOff), net, n, n' - n);
      PartStep(Abs(roundOff), net, n', 0);
      if roundOff < 0 { ShareSlope(-roundOff, net, n, n'); }
    }
  }

  // ----- One return

  function InvoiceDue(grandTotal: int, paid: int, credited: int): (due: nat) { Max(0, grandTotal - paid - credited) }

  /** A return first lowers the amount owed; only what is left of it is handed back. */
  function SplitReturn(amount: int, due: int): (split: (int, int))
    ensures split.0 + split.1 == amount
    ensures amount >= 0 ==> 0 <= split.0 <= Max(0, due) && split.1 >= 0
    ensures split.1 > 0 ==> split.0 == Max(0, due)
  {
    var dueAdjusted := Min(amount, Max(0, due));
    (dueAdjusted, amount - dueAdjusted)
  }

  datatype Refusal = MoreThanSold | RoundOffAhead | MoreThanPaid
  datatype Outcome = Refused(why: Refusal) | Given(state: BillState, total: int)

  predicate Within(bill: Bill, s: BillState, qtys: seq<nat>)
    requires |qtys| == |s.returned| == |bill.lines|
  {
    forall i :: 0 <= i < |qtys| ==> s.returned[i].qty + qtys[i] <= bill.lines[i].sold
  }

  /** The lines after giving back `qtys` more of each. */
  function Back(bill: Bill, returned: seq<LineReturned>, qtys: seq<nat>): (r: seq<LineReturned>)
    requires |qtys| == |returned| == |bill.lines|
    ensures |r| == |qtys|
  {
    seq(|qtys|, i requires 0 <= i < |qtys| => ReturnMore(bill.lines[i].amounts, bill.lines[i].sold, returned[i], qtys[i]))
  }

  function Amounts(bill: Bill, returned: seq<LineReturned>, qtys: seq<nat>): (r: seq<int>)
    requires |qtys| == |returned| == |bill.lines|
    ensures |r| == |qtys|
  {
    seq(|qtys|, i requires 0 <= i < |qtys| =>
      ReturnLineAmounts(bill.lines[i].amounts, bill.lines[i].sold, returned[i].qty, returned[i].amounts, qtys[i]).Total())
  }

  /** A return on the bill, as the service makes it. */
  function GiveBack(bill: Bill, s: BillState, qtys: seq<nat>): (r: Outcome)
    requires |qtys| == |s.returned| == |bill.lines|
  {
    if !Within(bill, s, qtys) then Refused(MoreThanSold)
    else Settle(bill, s, Back(bill, s.returned, qtys), Sum(Amounts(bill, s.returned, qtys)))
  }

  /** The money side of a return: its round-off, and what it takes off the due and hands back. */
  function Settle(bill: Bill, s: BillState, returned: seq<LineReturned>, lineTotal: int): (r: Outcome) {
    var roundOff := ReturnRoundOff(bill.roundOff, NetTotal(bill), ReturnedNet(s), s.roundOff, lineTotal);
    var total := lineTotal + roundOff;
    if total < 0 then Refused(RoundOffAhead)
    else
      var split := SplitReturn(total, InvoiceDue(GrandTotal(bill), s.paid, s.credited));
      if split.1 > Min(s.paid, GrandTotal(bill)) - s.refunded then Refused(MoreThanPaid)
      else Given(BillState(returned, s.roundOff + roundOff, s.paid, s.credited + split.0, s.refunded + split.1), total)
  }

  /** A payment: what is due of it goes on the bill. */
  function Pay(bill: Bill, s: BillState, amount: nat): (r: BillState) {
    s.(paid := s.paid + Min(amount, InvoiceDue(GrandTotal(bill), s.paid, s.credited)))
  }

  // ----- What every step keeps

  ghost predicate LinesOnTrack(bill: Bill, returned: seq<LineReturned>) {
    && |returned| == |bill.lines|
    && forall i :: 0 <= i < |returned| ==> OnTrack(bill.lines[i].amounts, bill.lines[i].sold, returned[i])
  }

  ghost predicate MoneyInv(bill: Bill, s: BillState) {
    && s.roundOff == ShareOf(bill.roundOff, NetTotal(bill), ReturnedNet(s))
    && s.credited + s.refunded == ReturnedNet(s) + s.roundOff
    && 0 <= s.credited && 0 <= s.refunded <= s.paid
    && s.paid + s.credited <= GrandTotal(bill)
    && (s.refunded > 0 ==> s.paid + s.credited == GrandTotal(bill))
  }

  ghost predicate Inv(bill: Bill, s: BillState) {
    LinesOnTrack(bill, s.returned) && MoneyInv(bill, s)
  }

  /** What is back of the lines is within what was sold, and all of it once every unit is back. */
  lemma {:induction false} BackWithinBill(lines: seq<BillLine>, returned: seq<LineReturned>)
    requires LinesOnTrack(Bill(lines, 0), returned)
    ensures 0 <= Sum(ReturnedTotals(returned)) <= Sum(LineTotals(lines))
    ensures (forall i :: 0 <= i < |lines| ==> returned[i].qty == lines[i].sold) ==>
              Sum(ReturnedTotals(returned)) == Sum(LineTotals(lines))
  {
    hide OnTrack;
    forall i | 0 <= i < |lines|
      ensures returned[i].amounts.AtMost(lines[i].amounts)
      ensures returned[i].qty == lines[i].sold ==> returned[i].amounts == lines[i].amounts
    {
      OnTrackAtMost(lines[i].amounts, lines[i].sold, returned[i]);
      WholeLine(lines[i].amounts, lines[i].sold, returned[i]);
    }
    SumMonotone(ReturnedTotals(returned), LineTotals(lines));
    SumNonNegative(ReturnedTotals(returned));
    if forall i :: 0 <= i < |lines| ==> returned[i].qty == lines[i].sold {
      assert ReturnedTotals(returned) == LineTotals(lines);
    }
  }

  lemma WholeLine(line: GstAmounts, soldQty: nat, returned: LineReturned)
    requires OnTrack(line, soldQty, returned)
    ensures returned.qty == soldQty ==> returned.amounts == line
  {
  }

  lemma BackOnTrack(bill: Bill, s: BillState, qtys: seq<nat>)
    requires LinesOnTrack(bill, s.returned) && |qtys| == |bill.lines| && Within(bill, s, qtys)
    ensures LinesOnTrack(bill, Back(bill, s.returned, qtys))
    ensures Sum(ReturnedTotals(Back(bill, s.returned, qtys))) == ReturnedNet(s) + Sum(Amounts(bill, s.returned, qtys))
    ensures Sum(Amounts(bill, s.returned, qtys)) >= 0
  {
    hide OnTrack, ReturnLineAmounts;
    var back, amounts := Back(bill, s.returned, qtys), Amounts(bill, s.returned, qtys);
    forall i | 0 <= i < |qtys|
      ensures OnTrack(bill.lines[i].amounts, bill.lines[i].sold, back[i])
    {
      NextOnTrack(bill.lines[i], s.returned[i], qtys[i]);
    }
    SumLinear(ReturnedTotals(back), ReturnedTotals(s.returned), amounts, 1);
    SumNonNegative(amounts);
  }

  lemma NextOnTrack(line: BillLine, before: LineReturned, qty: nat)
    requires OnTrack(line.amounts, line.sold, before) && before.qty + qty <= line.sold
    ensures OnTrack(line.amounts, line.sold, ReturnMore(line.amounts, line.sold, before, qty))
  {
    hide OnTrack;
    if qty > 0 {
      StaysOnTrack(line.amounts, line.sold, before, qty);
    } else {
      assert ReturnMore(line.amounts, line.sold, before, qty) == before;
    }
  }

  /** The money side of a return of `n' - n` more: never refused, and every money law is kept. */
  lemma SettleKeeps(bill: Bill, s: BillState, returned: seq<LineReturned>, lineTotal: nat)
    requires ValidBill(bill) && MoneyInv(bill, s) && NetTotal(bill) >= 0
    requires 0 <= ReturnedNet(s) && Sum(ReturnedTotals(returned)) == ReturnedNet(s) + lineTotal <= NetTotal(bill)
    ensures Settle(bill, s, returned, lineTotal).Given?
    ensures var r := Settle(bill, s, returned, lineTotal);
            && MoneyInv(bill, r.state) && r.state.returned == returned
            && r.total == r.state.credited - s.credited + r.state.refunded - s.refunded >= 0
            && (bill.roundOff >= 0 ==> r.state.roundOff >= s.roundOff)
            && (bill.roundOff <= 0 ==> r.state.roundOff <= s.roundOff)
  {
    hide NetTotal, ReturnedTotals, Sum, ShareOf, ReturnRoundOff;
    var n, net := ReturnedNet(s), NetTotal(bill);
    ShareSteps(bill.roundOff, net, n, n + lineTotal);
    ShareSteps(bill.roundOff, net, n + lineTotal, net);
    NextShare(bill.roundOff, net, n, lineTotal);
  }

  lemma NextShare(roundOff: int, net: nat, n: nat, lineTotal: nat)
    requires n + lineTotal <= net && (net == 0 ==> roundOff == 0)
    ensures ShareOf(roundOff, net, n) + ReturnRoundOff(roundOff, net, n, ShareOf(roundOff, net, n), lineTotal)
         == ShareOf(roundOff, net, n + lineTotal)
  {
    hide RoundDiv;
  }

  /**
   * A return is refused only when it is for more than was sold: neither money guard ever fires.
   * It keeps every law of the bill, hands out or takes off the due exactly its total, which is
   * never negative, and moves the round-off only in the bill's own direction.
   */
  lemma GiveBackKeeps(bill: Bill, s: BillState, qtys: seq<nat>)
    requires ValidBill(bill) && Inv(bill, s) && |qtys| == |bill.lines|
    ensures GiveBack(bill, s, qtys).Given? <==> Within(bill, s, qtys)
    ensures GiveBack(bill, s, qtys).Given? ==>
              var r := GiveBack(bill, s, qtys);
              && Inv(bill, r.state)
              && r.total == r.state.credited - s.credited + r.state.refunded - s.refunded >= 0
              && (bill.roundOff >= 0 ==> r.state.roundOff >= s.roundOff)
              && (bill.roundOff <= 0 ==> r.state.roundOff <= s.roundOff)
  {
    hide ValidBill, MoneyInv, LinesOnTrack, Settle, Back, Amounts, ReturnedTotals, Sum, LineTotals;
    BackOfBill(bill, s.returned);
    if Within(bill, s, qtys) {
      BackOnTrack(bill, s, qtys);
      BackOfBill(bill, Back(bill, s.returned, qtys));
      SettleKeeps(bill, s, Back(bill, s.returned, qtys), Sum(Amounts(bill, s.returned, qtys)));
    }
  }

  lemma BackOfBill(bill: Bill, returned: seq<LineReturned>)
    requires LinesOnTrack(bill, returned)
    ensures 0 <= Sum(ReturnedTotals(returned)) <= NetTotal(bill)
    ensures |returned| == |bill.lines|
    ensures (forall i :: 0 <= i < |bill.lines| ==> returned[i].qty == bill.lines[i].sold) ==>
              Sum(ReturnedTotals(returned)) == NetTotal(bill)
  {
    BackWithinBill(bill.lines, returned);
  }

  // ----- Any run of returns and payments

  datatype Step = ReturnStep(qtys: seq<nat>) | PayStep(amount: nat)

  ghost predicate ForBill(bill: Bill, steps: seq<Step>) {
    forall i :: 0 <= i < |steps| && steps[i].ReturnStep? ==> |steps[i].qtys| == |bill.lines|
  }

  function NoneBack(n: nat): (r: seq<LineReturned>)
    ensures |r| == n && forall i :: 0 <= i < n ==> r[i] == NONE_RETURNED
  {
    seq(n, i => NONE_RETURNED)
  }

  function Fresh(bill: Bill, paid: int): (s: BillState) {
    BillState(NoneBack(|bill.lines|), 0, paid, 0, 0)
  }

  function Next(bill: Bill, s: BillState, step: Step): (r: BillState) {
    match step
    case PayStep(amount) => Pay(bill, s, amount)
    case ReturnStep(qtys) =>
      if |qtys| != |bill.lines| || |s.returned| != |bill.lines| then s
      else match GiveBack(bill, s, qtys)
        case Refused(_) => s
        case Given(after, _) => after
  }

  function Run(bill: Bill, s: BillState, steps: seq<Step>): (r: BillState) {
    if steps == [] then s else Next(bill, Run(bill, s, steps[..|steps| - 1]), steps[|steps| - 1])
  }

  /**
   * What one step does to a bill that keeps its laws: a return of no more than was sold brings back just those units, of
   * those lines alone, and what it comes to lowers what is owed first; any other return does nothing; a payment counts up
   * to what is owed and moves nothing else.
   */
  lemma StepDoes(bill: Bill, s: BillState, step: Step)
    requires ValidBill(bill) && Inv(bill, s) && (step.ReturnStep? ==> |step.qtys| == |bill.lines|)
    ensures var after, owed := Next(bill, s, step), GrandTotal(bill) - s.paid - s.credited;
            && Inv(bill, after)
            && (step.PayStep? ==> after == s.(paid := s.paid + Min(step.amount, owed)))
            && (step.ReturnStep? ==>
                  var total := ReturnedNet(after) - ReturnedNet(s) + after.roundOff - s.roundOff;
                  if exists i :: 0 <= i < |bill.lines| && s.returned[i].qty + step.qtys[i] > bill.lines[i].sold then after == s
                  else
                    && after.paid == s.paid && after.credited == s.credited + Min(total, owed)
                    && after.refunded == s.refunded + Max(0, total - owed)
                    && forall i :: 0 <= i < |bill.lines| ==>
                         && after.returned[i].qty == s.returned[i].qty + step.qtys[i]
                         && (step.qtys[i] == 0 ==> after.returned[i] == s.returned[i]))
  {
    hide ValidBill, LinesOnTrack, Sum, LineTotals, ReturnedTotals, ReturnRoundOff, ReturnLineAmounts, ShareOf;
    BackOfBill(bill, s.returned);
    if step.ReturnStep? {
      GiveBackKeeps(bill, s, step.qtys);
      if Within(bill, s, step.qtys) {
        UnitsBack(bill, s.returned, step.qtys);
      }
    }
  }

  lemma UnitsBack(bill: Bill, returned: seq<LineReturned>, qtys: seq<nat>)
    requires |qtys| == |returned| == |bill.lines|
    ensures forall i :: 0 <= i < |qtys| ==>
              && Back(bill, returned, qtys)[i].qty == returned[i].qty + qtys[i]
              && (qtys[i] == 0 ==> Back(bill, returned, qtys)[i] == returned[i])
  {
  }

  lemma NoneBackOnTrack(bill: Bill)
    requires ValidBill(bill)
    ensures LinesOnTrack(bill, NoneBack(|bill.lines|))
  {
    hide OnTrack, NoneBack, NetTotal;
    var returned := NoneBack(|bill.lines|);
    forall i | 0 <= i < |bill.lines| ensures OnTrack(bill.lines[i].amounts, bill.lines[i].sold, returned[i]) {
      NothingOnTrack(bill.lines[i].amounts, bill.lines[i].sold);
    }
  }

  lemma NoneBackNet(n: nat)
    ensures Sum(ReturnedTotals(NoneBack(n))) == 0
  {
    hide NoneBack;
    SumConstant(ReturnedTotals(NoneBack(n)), 0);
  }

  lemma FreshInv(bill: Bill, paid: nat)
    requires ValidBill(bill) && paid <= GrandTotal(bill)
    ensures Inv(bill, Fresh(bill, paid))
  {
    hide LinesOnTrack, NetTotal, ShareOf, NoneBack, ReturnedTotals, Sum;
    NoneBackOnTrack(bill);
    NoneBackNet(|bill.lines|);
    BackOfBill(bill, NoneBack(|bill.lines|));
    ShareSteps(bill.roundOff, NetTotal(bill), 0, 0);
  }

  lemma {:induction false} RunKeeps(bill: Bill, paid: nat, steps: seq<Step>)
    requires ValidBill(bill) && paid <= GrandTotal(bill) && ForBill(bill, steps)
    ensures Inv(bill, Run(bill, Fresh(bill, paid), steps))
  {
    hide GiveBack, ValidBill;
    if steps == [] {
      FreshInv(bill, paid);
    } else {
      var n := |steps| - 1;
      RunKeeps(bill, paid, steps[..n]);
      if steps[n].ReturnStep? {
        GiveBackKeeps(bill, Run(bill, Fresh(bill, paid), steps[..n]), steps[n].qtys);
      }
    }
  }

  /**
   * However a bill is given back, in any steps over its lines and with payments in between, what
   * came off the due plus what was handed back is exactly the bill's grand total once every unit
   * is back; before that it is never more, and what was handed back is never more than was paid.
   */
  lemma WholeBillBack(bill: Bill, paid: nat, steps: seq<Step>)
    requires ValidBill(bill) && paid <= GrandTotal(bill) && ForBill(bill, steps)
    ensures var s := Run(bill, Fresh(bill, paid), steps);
            && |s.returned| == |bill.lines|
            && s.credited + s.refunded <= GrandTotal(bill) && s.refunded <= s.paid
            && ((forall i :: 0 <= i < |bill.lines| ==> s.returned[i].qty == bill.lines[i].sold) ==>
                s.credited + s.refunded == GrandTotal(bill) && s.roundOff == bill.roundOff)
  {
    hide Run, Fresh, LinesOnTrack;
    RunKeeps(bill, paid, steps);
    var s := Run(bill, Fresh(bill, paid), steps);
    BackOfBill(bill, s.returned);
    ShareSteps(bill.roundOff, NetTotal(bill), ReturnedNet(s), NetTotal(bill));
  }

  // ----- Bills as the sale makes them

  function GstOf(line: SaleTotals.PricedLine): (amounts: GstAmounts) {
    GstAmounts(line.taxable, line.gst.cgst, line.gst.sgst, line.gst.igst)
  }

  function BillLines(lines: seq<SaleTotals.PricedLine>, sold: seq<nat>): (r: seq<BillLine>)
    requires |sold| == |lines|
    ensures |r| == |lines|
  {
    seq(|lines|, i requires 0 <= i < |lines| => BillLine(GstOf(lines[i]), sold[i]))
  }

  /** Every sale's bill, with quantities sold above zero, is one the theorem above speaks of. */
  lemma SaleMakesValidBill(
    lines: seq<SaleTotals.LineInput>, orderDiscounts: seq<Discounts.Discount>, chargeTax: bool, interState: bool,
    roundOff: SaleTotals.RoundOffMode, sold: seq<nat>)
    requires |sold| == |lines| && forall i :: 0 <= i < |sold| ==> sold[i] > 0
    ensures var sale := SaleTotals.ComputeSaleTotals(lines, orderDiscounts, chargeTax, interState, roundOff);
            var bill := Bill(BillLines(sale.lines, sold), sale.roundOff);
            ValidBill(bill) && GrandTotal(bill) == sale.grandTotal
  {
    hide SaleTotals.Total, Discounts.DiscountAmounts, SaleTotals.Bases, SaleTotals.ChargedLines, Sum, LineTotals;
    var sale := SaleTotals.ComputeSaleTotals(lines, orderDiscounts, chargeTax, interState, roundOff);
    forall i | 0 <= i < |sale.lines| ensures GstOf(sale.lines[i]).Tax() == sale.lines[i].tax {
      PricedTax(sale.lines[i], lines, orderDiscounts, chargeTax, interState, roundOff, i);
    }
    NetOfLines(sale.lines, sold);
  }

  /** A pack of nine, sold at 0.03 and 18% GST, each of the nine returned by itself. */
  const PACK := SaleTotals.LineInput(9000, SaleTotals.InSaleUnits(1000), 3, 1800, SaleTotals.Exclusive, [])

  lemma PackPriced()
    ensures GstOf(SaleTotals.Priced(PACK, 0, false)) == GstAmounts(3, 0, 1, 0)
  {
    hide RoundDiv;
    assert Discounts.DiscountAmounts([], 3) == [] by { assert Discounts.RawAmounts([], 3) == []; }
    RoundsTo(3000, 1000, 3);
    RoundsTo(5400, 10000, 1);
  }

  lemma ShareIs(amount: nat, qty: nat, sold: nat, share: int)
    requires sold > 0 && 2 * (amount * qty) - sold < 2 * (sold * share) <= 2 * (amount * qty) + sold
    ensures Prorated(amount, qty, sold) == share
  {
    assert amount * qty >= 0;
    RoundsTo(amount * qty, sold, share);
  }

  /** Of nine that cost 0.03 with 0.01 of SGST, the taxable value up to the fourth is 0.02 and up to the fifth 0.01. */
  lemma NineAt(line: GstAmounts, sold: nat, four: nat, five: nat)
    requires line == GstAmounts(3, 0, 1, 0) && sold == 9000 && four == 4000 && five == 5000
    ensures TaxableUpTo(line, sold, four) == 2 && TaxableUpTo(line, sold, five) == 1 && Prorated(line.Total(), five, sold) == 2
  {
    hide Prorated;
    ShareIs(line.Total(), four, sold, 2);
    ShareIs(line.cgst, four, sold, 0);
    ShareIs(line.sgst, four, sold, 0);
    ShareIs(line.igst, four, sold, 0);
    ShareIs(line.Total(), five, sold, 2);
    ShareIs(line.cgst, five, sold, 0);
    ShareIs(line.sgst, five, sold, 1);
    ShareIs(line.igst, five, sold, 0);
  }

  /**
   * A sale of the pack, given back four and then one at a time, refunds a paisa more than its share: five of the nine
   * cost two paise, and three are refunded.
   */
  lemma PackRunsAhead(line: GstAmounts, steps: seq<nat>)
    requires line == GstOf(SaleTotals.Priced(PACK, 0, false)) && steps == [4000, 1000]
    ensures var back := AfterSteps(line, PACK.qty, steps);
            back.amounts.Total() == 3 && Prorated(line.Total(), back.qty, PACK.qty) == 2 && !TotalOnTrack(line, PACK.qty, back)
  {
    hide SaleTotals.Priced, Prorated, AfterSteps, TotalOnTrack, TaxableUpTo, Sum;
    PackPriced();
    NineAt(line, PACK.qty, 4000, 5000);
    TwoSteps(4000, 1000);
    ReturnedInSteps(line, PACK.qty, steps);
    RunsAhead(line, PACK.qty, 4000, 1000);
  }

  lemma PricedTax(
    line: SaleTotals.PricedLine, lines: seq<SaleTotals.LineInput>, orderDiscounts: seq<Discounts.Discount>,
    chargeTax: bool, interState: bool, roundOff: SaleTotals.RoundOffMode, i: nat)
    requires i < |lines|
    requires line == SaleTotals.ComputeSaleTotals(lines, orderDiscounts, chargeTax, interState, roundOff).lines[i]
    ensures GstOf(line).Tax() == line.tax
  {
    hide SaleTotals.Total, Discounts.DiscountAmounts, SaleTotals.Bases, SaleTotals.Parts, SaleTotals.Base, SaleTotals.ItemDiscount,
      SaleTotals.Gross, SaleTotals.LineTax, SaleTotals.RoundOffFor, Sum;
  }

  lemma NetOfLines(lines: seq<SaleTotals.PricedLine>, sold: seq<nat>)
    requires |sold| == |lines|
    requires forall i :: 0 <= i < |lines| ==> GstOf(lines[i]).Tax() == lines[i].tax
    ensures Sum(LineTotals(BillLines(lines, sold))) == SaleTotals.Total(lines, SaleTotals.OF_NET) >= 0
  {
    hide Sum;
    assert LineTotals(BillLines(lines, sold)) ==
      seq(|lines|, i requires 0 <= i < |lines| => SaleTotals.OF_NET(lines[i]));
    SumNonNegative(LineTotals(BillLines(lines, sold)));
  }

  // ----- The service's bill, updated in place

  class SaleBill {
    const bill: Bill
    var returned: seq<LineReturned>
    var roundOff: int
    var paid: int
    var credited: int
    var refunded: int

    function State(): (s: BillState)
      reads this
    {
      BillState(returned, roundOff, paid, credited, refunded)
    }

    ghost predicate Valid()
      reads this
    {
      ValidBill(bill) && Inv(bill, State())
    }

    constructor (bill: Bill, paid: nat)
      requires ValidBill(bill) && paid <= GrandTotal(bill)
      ensures Valid() && this.bill == bill && State() == Fresh(bill, paid)
    {
      this.bill := bill;
      returned := NoneBack(|bill.lines|);
      roundOff, this.paid, credited, refunded := 0, paid, 0, 0;
      new;
      FreshInv(bill, paid);
    }

    /** Takes a payment: only what is due of it counts towards the bill. */
    method TakePayment(amount: nat)
      requires Valid()
      modifies this`paid
      ensures Valid() && State() == Pay(bill, old(State()), amount)
    {
      paid := paid + Min(amount, InvoiceDue(GrandTotal(bill), paid, credited));
    }

    /** Works out each line's refund; stops at a line of which more would come back than was sold. */
    method RefundLines(qtys: seq<nat>) returns (ok: bool, back: seq<LineReturned>, lineTotal: int)
      requires |qtys| == |returned| == |bill.lines|
      ensures ok <==> Within(bill, State(), qtys)
      ensures ok ==> back == Back(bill, returned, qtys) && lineTotal == Sum(Amounts(bill, returned, qtys))
    {
      hide ReturnLineAmounts;
      back, lineTotal := [], 0;
      var amounts: seq<int> := [];
      for i := 0 to |qtys|
        invariant back == Back(bill, returned, qtys)[..i]
        invariant amounts == Amounts(bill, returned, qtys)[..i]
        invariant forall j :: 0 <= j < i ==> returned[j].qty + qtys[j] <= bill.lines[j].sold
      {
        if returned[i].qty + qtys[i] > bill.lines[i].sold {
          return false, [], 0;
        }
        var refund := ReturnLineAmounts(bill.lines[i].amounts, bill.lines[i].sold, returned[i].qty, returned[i].amounts, qtys[i]);
        back := back + [LineReturned(returned[i].qty + qtys[i], returned[i].amounts.Plus(refund))];
        amounts := amounts + [refund.Total()];
      }
      assert amounts == Amounts(bill, returned, qtys);
      return true, back, Sum(amounts);
    }

    /** The money side of a return, once its lines are worked out. */
    method SettleReturn(back: seq<LineReturned>, lineTotal: int) returns (r: Outcome)
      modifies this`returned, this`roundOff, this`credited, this`refunded
      ensures r == Settle(bill, old(State()), back, lineTotal)
      ensures State() == if r.Given? then r.state else old(State())
    {
      hide NetTotal, ReturnedNet, ReturnRoundOff;
      var share := ReturnRoundOff(bill.roundOff, NetTotal(bill), ReturnedNet(State()), roundOff, lineTotal);
      var total := lineTotal + share;
      if total < 0 { return Refused(RoundOffAhead); }
      var split := SplitReturn(total, InvoiceDue(GrandTotal(bill), paid, credited));
      if split.1 > Min(paid, GrandTotal(bill)) - refunded { return Refused(MoreThanPaid); }
      returned := back;
      roundOff := roundOff + share;
      credited := credited + split.0;
      refunded := refunded + split.1;
      r := Given(State(), total);
    }

    /** Takes goods back: refused, changing nothing, exactly when more would come back than was sold. */
    method CreateReturn(qtys: seq<nat>) returns (r: Outcome)
      requires Valid() && |qtys| == |bill.lines|
      modifies this`returned, this`roundOff, this`credited, this`refunded
      ensures Valid()
      ensures r == GiveBack(bill, old(State()), qtys)
      ensures r.Given? <==> Within(bill, old(State()), qtys)
      ensures State() == if r.Given? then r.state else old(State())
    {
      hide MoneyInv, LinesOnTrack, ValidBill, Settle;
      BackOfBill(bill, returned);
      GiveBackKeeps(bill, State(), qtys);
      var ok, back, lineTotal := RefundLines(qtys);
      if !ok { return Refused(MoreThanSold); }
      r := SettleReturn(back, lineTotal);
    }
  }
}
