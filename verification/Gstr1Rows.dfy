/**
 * GSTR-1 row by row (apps/api/src/gst/gstr1.ts): every document listed, with its items by rate, and every row of the
 * summaries, in terms of the invoices and credit notes alone.
 */
module Gstr1Rows {
  import opened Gstr1
  import opened OutboxRows

  // ----- Where an invoice belongs

  function StateOf(invoice: GstInvoice, gstin: string): (r: string) {
    match invoice.sellerState
    case Some(state) => state
    case None => if |gstin| >= 2 then gstin[..2] else gstin
  }

  function PlaceOf(invoice: GstInvoice, gstin: string): (r: string) {
    match invoice.placeOfSupply
    case Some(place) => place
    case None => StateOf(invoice, gstin)
  }

  ghost predicate Registered(invoice: GstInvoice) { invoice.buyerGstin != "" }
  ghost predicate Crosses(invoice: GstInvoice, gstin: string) { PlaceOf(invoice, gstin) != StateOf(invoice, gstin) }

  /** An unregistered buyer's invoice to another state for more than a lakh. */
  ghost predicate Large(invoice: GstInvoice, gstin: string) { !Registered(invoice) && Crosses(invoice, gstin) && invoice.grandTotal > 100000 * 100 }

  /** Reported: made as a regular taxpayer, and not cancelled. A credit note is, when its invoice was made as one. */
  ghost predicate IsReported(invoice: GstInvoice) { invoice.taxpayerType == Regular && !invoice.cancelled }
  ghost predicate NoteReported(ret: GstReturn) { ret.invoice.taxpayerType == Regular }

  lemma Belongs(invoice: GstInvoice, gstin: string)
    ensures IsB2b(invoice) <==> Registered(invoice)
    ensures IsInterState(invoice, gstin) <==> Crosses(invoice, gstin)
    ensures IsB2cl(invoice, gstin) <==> Large(invoice, gstin)
    ensures PlaceOfSupply(invoice, gstin) == PlaceOf(invoice, gstin)
  {
  }

  // ----- Items by rate

  /** A line's kind of supply, rate and money, sold or given back. */
  datatype Supplied = Supplied(supply: SupplyType, rate: TaxRate, amounts: Amounts)

  function Sold(lines: seq<GstLine>): (r: seq<Supplied>) ensures |r| == |lines| {
    seq(|lines|, i requires 0 <= i < |lines| => Supplied(lines[i].supplyType, lines[i].taxRate, lines[i].amounts))
  }

  function GivenBack(lines: seq<GstReturnLine>): (r: seq<Supplied>) ensures |r| == |lines| {
    seq(|lines|, i requires 0 <= i < |lines| => Supplied(lines[i].saleLine.supplyType, lines[i].saleLine.taxRate, lines[i].amounts))
  }

  /** What the taxable lines at a rate come to. */
  function AtRate(lines: seq<Supplied>, rate: TaxRate): (r: Amounts) {
    if lines == [] then Amounts(0, 0, 0, 0)
    else
      var before, last := AtRate(lines[..|lines| - 1], rate), lines[|lines| - 1];
      if last.supply == Taxable && last.rate == rate then
        Amounts(before.txval + last.amounts.txval, before.iamt + last.amounts.iamt, before.camt + last.amounts.camt, before.samt + last.amounts.samt)
      else before
  }

  ghost predicate HasRate(lines: seq<Supplied>, rate: TaxRate) { exists line :: line in lines && line.supply == Taxable && line.rate == rate }

  /** One item for each rate of the taxable lines, with their value and taxes; only IGST where `narrow`. */
  ghost predicate ItemsFit(items: Items, lines: seq<Supplied>, narrow: bool) { forall rate :: ItemFits(items, lines, narrow, rate) }

  ghost predicate ItemFits(items: Items, lines: seq<Supplied>, narrow: bool, rate: TaxRate) {
    && (rate in items <==> HasRate(lines, rate))
    && (rate in items ==>
          var sum := AtRate(lines, rate);
          items[rate] == if narrow then Amounts(sum.txval, sum.iamt, 0, 0) else sum)
  }

  lemma RateNext(lines: seq<Supplied>, rate: TaxRate)
    requires lines != []
    ensures var n := |lines| - 1; HasRate(lines, rate) <==> HasRate(lines[..n], rate) || (lines[n].supply == Taxable && lines[n].rate == rate)
  {
    var n := |lines| - 1;
    assert lines == lines[..n] + [lines[n]];
    assert lines[n] in lines;
  }

  lemma {:induction false} SoldItems(lines: seq<GstLine>)
    ensures ItemsFit(ItemsByRate(TaxableLines(lines)), Sold(lines), false)
  {
    if lines != [] {
      var n := |lines| - 1;
      SoldItems(lines[..n]);
      assert Sold(lines)[..n] == Sold(lines[..n]);
      ItemsNext(TaxableLines(lines[..n]), TaxableLines(lines), Sold(lines));
    }
  }

  lemma {:induction false} BackItems(lines: seq<GstReturnLine>)
    ensures ItemsFit(ItemsByRate(TaxableReturned(lines)), GivenBack(lines), false)
  {
    if lines != [] {
      var n := |lines| - 1;
      BackItems(lines[..n]);
      assert GivenBack(lines)[..n] == GivenBack(lines[..n]);
      ItemsNext(TaxableReturned(lines[..n]), TaxableReturned(lines), GivenBack(lines));
    }
  }

  lemma ItemsNext(front: seq<Rated>, all: seq<Rated>, lines: seq<Supplied>)
    requires lines != [] && ItemsFit(ItemsByRate(front), lines[..|lines| - 1], false)
    requires var last := lines[|lines| - 1]; all == front + if last.supply == Taxable then [Rated(last.rate, last.amounts)] else []
    ensures ItemsFit(ItemsByRate(all), lines, false)
  {
    hide HasRate, AtRate, ItemsByRate;
    var n := |lines| - 1;
    forall rate ensures ItemFits(ItemsByRate(all), lines, false, rate) {
      assert ItemFits(ItemsByRate(front), lines[..n], false, rate);
      RateNext(lines, rate);
      AtRateNext(lines, rate);
      if !HasRate(lines[..n], rate) { NoneAtRate(lines[..n], rate); }
      if lines[n].supply == Taxable { PutAtRate(front, Rated(lines[n].rate, lines[n].amounts), rate); } else { assert all == front; }
    }
  }

  lemma AtRateNext(lines: seq<Supplied>, rate: TaxRate)
    requires lines != []
    ensures var n := |lines| - 1;
            AtRate(lines, rate) == if lines[n].supply == Taxable && lines[n].rate == rate then AtRate(lines[..n], rate).Plus(lines[n].amounts) else AtRate(lines[..n], rate)
  {
  }

  lemma PutAtRate(front: seq<Rated>, last: Rated, rate: TaxRate)
    ensures var before, items := ItemsByRate(front), ItemsByRate(front + [last]);
            && (rate in items <==> rate in before || rate == last.rate)
            && (rate in items ==> items[rate] == if rate == last.rate then AmountsAt(before, rate).Plus(last.amounts) else before[rate])
  {
    assert (front + [last])[..|front|] == front;
  }

  lemma {:induction false} NoneAtRate(lines: seq<Supplied>, rate: TaxRate)
    requires !HasRate(lines, rate)
    ensures AtRate(lines, rate) == Amounts(0, 0, 0, 0)
  {
    if lines != [] {
      RateNext(lines, rate);
      NoneAtRate(lines[..|lines| - 1], rate);
    }
  }

  lemma Narrowed(items: Items, lines: seq<Supplied>)
    requires ItemsFit(items, lines, false)
    ensures ItemsFit(NarrowItems(items), lines, true)
  {
    hide HasRate, AtRate;
    forall rate ensures ItemFits(NarrowItems(items), lines, true, rate) { assert ItemFits(items, lines, false, rate); }
  }

  // ----- The documents listed

  function Chosen<T>(all: seq<T>, keep: T -> bool): (r: seq<T>) {
    if all == [] then []
    else Chosen(all[..|all| - 1], keep) + if keep(all[|all| - 1]) then [all[|all| - 1]] else []
  }

  lemma ChosenNext<T>(all: seq<T>, keep: T -> bool)
    requires all != []
    ensures var n := |all| - 1; Chosen(all, keep) == if keep(all[n]) then Chosen(all[..n], keep) + [all[n]] else Chosen(all[..n], keep)
  {
  }

  ghost predicate InvoiceListed(doc: Doc, invoice: GstInvoice, gstin: string, narrow: bool) {
    && doc.number == invoice.invoiceNo && doc.pos == PlaceOf(invoice, gstin) && doc.val == invoice.grandTotal
    && ItemsFit(doc.items, Sold(invoice.lines), narrow)
  }

  ghost predicate NoteListed(doc: Doc, ret: GstReturn, gstin: string, narrow: bool) {
    && doc.number == ret.returnNo && doc.pos == PlaceOf(ret.invoice, gstin) && doc.val == ret.totalAmount
    && ItemsFit(doc.items, GivenBack(ret.lines), narrow)
  }

  /** The list is of these invoices, in their order. */
  ghost predicate InvoicesListed(docs: seq<Doc>, invoices: seq<GstInvoice>, gstin: string, narrow: bool) {
    |docs| == |invoices| && forall i :: 0 <= i < |docs| ==> InvoiceListed(docs[i], invoices[i], gstin, narrow)
  }

  ghost predicate NotesListed(docs: seq<Doc>, notes: seq<GstReturn>, gstin: string, narrow: bool) {
    |docs| == |notes| && forall i :: 0 <= i < |docs| ==> NoteListed(docs[i], notes[i], gstin, narrow)
  }

  ghost function B2bOf(buyer: string): GstInvoice -> bool { (invoice: GstInvoice) => IsReported(invoice) && Registered(invoice) && invoice.buyerGstin == buyer }
  ghost function LargeTo(gstin: string, place: string): GstInvoice -> bool {
    (invoice: GstInvoice) => IsReported(invoice) && Large(invoice, gstin) && PlaceOf(invoice, gstin) == place
  }
  ghost function NotesOf(buyer: string): GstReturn -> bool { (ret: GstReturn) => NoteReported(ret) && Registered(ret.invoice) && ret.invoice.buyerGstin == buyer }
  ghost function LargeNotes(gstin: string): GstReturn -> bool { (ret: GstReturn) => NoteReported(ret) && Large(ret.invoice, gstin) }

  /** Summing lines up touches none of the lists. */
  lemma {:induction false} LinesUnlisted(gstin: string, s: Sections, invoice: GstInvoice, lines: seq<GstLine>)
    ensures var r := AddLines(gstin, s, invoice, lines); r.b2b == s.b2b && r.b2cl == s.b2cl && r.cdnr == s.cdnr && r.cdnur == s.cdnur
  {
    if lines != [] { LinesUnlisted(gstin, s, invoice, lines[..|lines| - 1]); }
  }

  lemma {:induction false} ReturnedUnlisted(gstin: string, s: Sections, invoice: GstInvoice, lines: seq<GstReturnLine>)
    ensures var r := AddReturned(gstin, s, invoice, lines); r.b2b == s.b2b && r.b2cl == s.b2cl && r.cdnr == s.cdnr && r.cdnur == s.cdnur
  {
    if lines != [] { ReturnedUnlisted(gstin, s, invoice, lines[..|lines| - 1]); }
  }

  lemma ReportedNext(invoices: seq<GstInvoice>)
    requires invoices != []
    ensures var n := |invoices| - 1;
            Reported(invoices) == if IsReported(invoices[n]) then Reported(invoices[..n]) + [invoices[n]] else Reported(invoices[..n])
  {
  }

  lemma NotesNext(notes: seq<GstReturn>)
    requires notes != []
    ensures var n := |notes| - 1;
            ReportedReturns(notes) == if NoteReported(notes[n]) then ReportedReturns(notes[..n]) + [notes[n]] else ReportedReturns(notes[..n])
  {
  }

  lemma AddNext(gstin: string, s: Sections, invoices: seq<GstInvoice>, last: GstInvoice)
    ensures AddInvoices(gstin, s, invoices + [last]) == AddLines(gstin, ListInvoice(gstin, AddInvoices(gstin, s, invoices), last), last, last.lines)
  {
    hide AddLines, ListInvoice;
    assert (invoices + [last])[..|invoices|] == invoices;
  }

  lemma AddNoteNext(gstin: string, s: Sections, notes: seq<GstReturn>, last: GstReturn)
    ensures AddReturns(gstin, s, notes + [last]) == AddReturned(gstin, ListReturn(gstin, AddReturns(gstin, s, notes), last), last.invoice, last.lines)
  {
    hide AddReturned, ListReturn;
    assert (notes + [last])[..|notes|] == notes;
  }

  /** One list with one document more, or as it was. */
  ghost predicate OneMore(before: seq<Doc>, after: seq<Doc>, listed: bool) {
    if listed then |after| == |before| + 1 && after[..|before|] == before else after == before
  }

  lemma InvoiceDocs(gstin: string, invoice: GstInvoice)
    ensures var items, pos := ItemsByRate(TaxableLines(invoice.lines)), PlaceOfSupply(invoice, gstin);
            && InvoiceListed(Doc(invoice.invoiceNo, pos, invoice.grandTotal, items), invoice, gstin, false)
            && InvoiceListed(Doc(invoice.invoiceNo, pos, invoice.grandTotal, NarrowItems(items)), invoice, gstin, true)
  {
    hide ItemsByRate, TaxableLines, NarrowItems, ItemsFit, Sold, IsB2b, IsB2cl, IsInterState, PlaceOfSupply;
    Belongs(invoice, gstin);
    SoldItems(invoice.lines);
    Narrowed(ItemsByRate(TaxableLines(invoice.lines)), Sold(invoice.lines));
  }

  /** What listing one invoice adds to the lists: it goes under its buyer, or under its place, or nowhere. */
  lemma InvoiceStep(gstin: string, s: Sections, invoice: GstInvoice, key: string)
    requires IsReported(invoice)
    ensures var r := ListInvoice(gstin, s, invoice);
            var b2b, b2cl := DocsAt(r.b2b, key), DocsAt(r.b2cl, key);
            && OneMore(DocsAt(s.b2b, key), b2b, B2bOf(key)(invoice)) && OneMore(DocsAt(s.b2cl, key), b2cl, LargeTo(gstin, key)(invoice))
            && (B2bOf(key)(invoice) ==> InvoiceListed(b2b[|b2b| - 1], invoice, gstin, false))
            && (LargeTo(gstin, key)(invoice) ==> InvoiceListed(b2cl[|b2cl| - 1], invoice, gstin, true))
            && (key in r.b2b <==> key in s.b2b || B2bOf(key)(invoice)) && (key in r.b2cl <==> key in s.b2cl || LargeTo(gstin, key)(invoice))
            && r.cdnr == s.cdnr && r.cdnur == s.cdnur
  {
    hide ItemsByRate, TaxableLines, NarrowItems, IsB2b, IsB2cl, IsInterState, PlaceOfSupply, InvoiceListed, Large, Registered, PlaceOf;
    Belongs(invoice, gstin);
    InvoiceDocs(gstin, invoice);
    NotBoth(invoice, gstin);
  }

  lemma NotBoth(invoice: GstInvoice, gstin: string)
    ensures !(Registered(invoice) && Large(invoice, gstin))
  {
  }

  lemma NoteDocs(gstin: string, ret: GstReturn)
    ensures var items, pos := ItemsByRate(TaxableReturned(ret.lines)), PlaceOfSupply(ret.invoice, gstin);
            && NoteListed(Doc(ret.returnNo, pos, ret.totalAmount, items), ret, gstin, false)
            && NoteListed(Doc(ret.returnNo, pos, ret.totalAmount, NarrowItems(items)), ret, gstin, true)
  {
    hide ItemsByRate, TaxableReturned, NarrowItems, ItemsFit, GivenBack, IsB2b, IsB2cl, IsInterState, PlaceOfSupply;
    Belongs(ret.invoice, gstin);
    BackItems(ret.lines);
    Narrowed(ItemsByRate(TaxableReturned(ret.lines)), GivenBack(ret.lines));
  }

  lemma NoteStep(gstin: string, s: Sections, ret: GstReturn, key: string)
    requires NoteReported(ret)
    ensures var r := ListReturn(gstin, s, ret);
            var cdnr := DocsAt(r.cdnr, key);
            && OneMore(DocsAt(s.cdnr, key), cdnr, NotesOf(key)(ret)) && OneMore(s.cdnur, r.cdnur, LargeNotes(gstin)(ret))
            && (NotesOf(key)(ret) ==> NoteListed(cdnr[|cdnr| - 1], ret, gstin, false))
            && (LargeNotes(gstin)(ret) ==> NoteListed(r.cdnur[|r.cdnur| - 1], ret, gstin, true))
            && (key in r.cdnr <==> key in s.cdnr || NotesOf(key)(ret))
            && r.b2b == s.b2b && r.b2cl == s.b2cl
  {
    hide ItemsByRate, TaxableReturned, NarrowItems, IsB2b, IsB2cl, IsInterState, PlaceOfSupply, NoteListed, Large, Registered, PlaceOf;
    Belongs(ret.invoice, gstin);
    NoteDocs(gstin, ret);
    NotBoth(ret.invoice, gstin);
  }

  lemma MoreListed(before: seq<Doc>, after: seq<Doc>, front: seq<GstInvoice>, last: GstInvoice, listed: bool, gstin: string, narrow: bool)
    requires InvoicesListed(before, front, gstin, narrow) && OneMore(before, after, listed)
    requires listed ==> InvoiceListed(after[|after| - 1], last, gstin, narrow)
    ensures InvoicesListed(after, if listed then front + [last] else front, gstin, narrow)
  {
    hide InvoiceListed;
    if listed { assert forall i :: 0 <= i < |before| ==> after[i] == after[..|before|][i]; }
  }

  lemma MoreNotes(before: seq<Doc>, after: seq<Doc>, front: seq<GstReturn>, last: GstReturn, listed: bool, gstin: string, narrow: bool)
    requires NotesListed(before, front, gstin, narrow) && OneMore(before, after, listed)
    requires listed ==> NoteListed(after[|after| - 1], last, gstin, narrow)
    ensures NotesListed(after, if listed then front + [last] else front, gstin, narrow)
  {
    hide NoteListed;
    if listed { assert forall i :: 0 <= i < |before| ==> after[i] == after[..|before|][i]; }
  }

  /** The lists of invoices once the sales are in. */
  ghost predicate SalesListed(s: Sections, gstin: string, invoices: seq<GstInvoice>, key: string) {
    && InvoicesListed(DocsAt(s.b2b, key), Chosen(invoices, B2bOf(key)), gstin, false)
    && InvoicesListed(DocsAt(s.b2cl, key), Chosen(invoices, LargeTo(gstin, key)), gstin, true)
    && (key in s.b2b <==> Chosen(invoices, B2bOf(key)) != []) && (key in s.b2cl <==> Chosen(invoices, LargeTo(gstin, key)) != [])
  }

  lemma {:induction false} SalesAreListed(gstin: string, invoices: seq<GstInvoice>, key: string)
    ensures var s := AddInvoices(gstin, NO_SECTIONS, Reported(invoices)); SalesListed(s, gstin, invoices, key) && s.cdnr == map[] && s.cdnur == []
  {
    hide Chosen, AddInvoices, AddLines, ListInvoice, Reported, B2bOf, LargeTo, InvoicesListed, InvoiceListed, OneMore;
    if invoices == [] {
      NothingListed(gstin, key);
    } else {
      var n := |invoices| - 1;
      var last, before := invoices[n], AddInvoices(gstin, NO_SECTIONS, Reported(invoices[..n]));
      SalesAreListed(gstin, invoices[..n], key);
      ReportedNext(invoices);
      OnlyReported(gstin, last, key);
      ChosenNext(invoices, B2bOf(key));
      ChosenNext(invoices, LargeTo(gstin, key));
      if IsReported(last) {
        AddNext(gstin, NO_SECTIONS, Reported(invoices[..n]), last);
        InvoiceStep(gstin, before, last, key);
        var listed := ListInvoice(gstin, before, last);
        LinesUnlisted(gstin, listed, last, last.lines);
        MoreListed(DocsAt(before.b2b, key), DocsAt(listed.b2b, key), Chosen(invoices[..n], B2bOf(key)), last, B2bOf(key)(last), gstin, false);
        MoreListed(DocsAt(before.b2cl, key), DocsAt(listed.b2cl, key), Chosen(invoices[..n], LargeTo(gstin, key)), last, LargeTo(gstin, key)(last), gstin, true);
      }
    }
  }

  lemma NothingListed(gstin: string, key: string)
    ensures var s := AddInvoices(gstin, NO_SECTIONS, Reported([])); SalesListed(s, gstin, [], key) && s.cdnr == map[] && s.cdnur == []
  {
  }

  lemma OnlyReported(gstin: string, invoice: GstInvoice, key: string)
    ensures B2bOf(key)(invoice) || LargeTo(gstin, key)(invoice) ==> IsReported(invoice)
  {
  }

  lemma OnlyNotesReported(gstin: string, ret: GstReturn, key: string)
    ensures NotesOf(key)(ret) || LargeNotes(gstin)(ret) ==> NoteReported(ret)
  {
  }

  ghost predicate ReturnsListed(s: Sections, gstin: string, notes: seq<GstReturn>, key: string) {
    && NotesListed(DocsAt(s.cdnr, key), Chosen(notes, NotesOf(key)), gstin, false)
    && NotesListed(s.cdnur, Chosen(notes, LargeNotes(gstin)), gstin, true)
    && (key in s.cdnr <==> Chosen(notes, NotesOf(key)) != [])
  }

  lemma {:induction false} ReturnsAreListed(gstin: string, s: Sections, notes: seq<GstReturn>, key: string)
    requires s.cdnr == map[] && s.cdnur == []
    ensures var r := AddReturns(gstin, s, ReportedReturns(notes)); ReturnsListed(r, gstin, notes, key) && r.b2b == s.b2b && r.b2cl == s.b2cl
  {
    hide Chosen, AddReturns, AddReturned, ListReturn, ReportedReturns, NotesOf, LargeNotes, NotesListed, NoteListed, OneMore;
    if notes == [] {
      NoNotesListed(gstin, s, key);
    } else {
      var n := |notes| - 1;
      var last, before := notes[n], AddReturns(gstin, s, ReportedReturns(notes[..n]));
      ReturnsAreListed(gstin, s, notes[..n], key);
      NotesNext(notes);
      OnlyNotesReported(gstin, last, key);
      ChosenNext(notes, NotesOf(key));
      ChosenNext(notes, LargeNotes(gstin));
      if NoteReported(last) {
        AddNoteNext(gstin, s, ReportedReturns(notes[..n]), last);
        NoteStep(gstin, before, last, key);
        var listed := ListReturn(gstin, before, last);
        ReturnedUnlisted(gstin, listed, last.invoice, last.lines);
        MoreNotes(DocsAt(before.cdnr, key), DocsAt(listed.cdnr, key), Chosen(notes[..n], NotesOf(key)), last, NotesOf(key)(last), gstin, false);
        MoreNotes(before.cdnur, listed.cdnur, Chosen(notes[..n], LargeNotes(gstin)), last, LargeNotes(gstin)(last), gstin, true);
      }
    }
  }

  lemma NoNotesListed(gstin: string, s: Sections, key: string)
    requires s.cdnr == map[] && s.cdnur == []
    ensures var r := AddReturns(gstin, s, ReportedReturns([])); ReturnsListed(r, gstin, [], key) && r.b2b == s.b2b && r.b2cl == s.b2cl
  {
  }

  lemma {:induction false} HsnLinesBeside(s: Sections, invoice: GstInvoice, lines: seq<GstLine>)
    ensures AddHsnLines(s, invoice, lines) == s.(hsn := AddHsnLines(s, invoice, lines).hsn)
  {
    if lines != [] { HsnLinesBeside(s, invoice, lines[..|lines| - 1]); }
  }

  lemma {:induction false} HsnReturnedBeside(s: Sections, invoice: GstInvoice, lines: seq<GstReturnLine>)
    ensures AddHsnReturned(s, invoice, lines) == s.(hsn := AddHsnReturned(s, invoice, lines).hsn)
  {
    if lines != [] { HsnReturnedBeside(s, invoice, lines[..|lines| - 1]); }
  }

  lemma {:induction false} HsnSalesBeside(s: Sections, sales: seq<GstInvoice>)
    ensures AddHsnInvoices(s, sales) == s.(hsn := AddHsnInvoices(s, sales).hsn)
  {
    hide AddHsnLines;
    if sales != [] {
      var n := |sales| - 1;
      HsnSalesBeside(s, sales[..n]);
      HsnLinesBeside(AddHsnInvoices(s, sales[..n]), sales[n], sales[n].lines);
    }
  }

  lemma {:induction false} HsnNotesBeside(s: Sections, back: seq<GstReturn>)
    ensures AddHsnReturns(s, back) == s.(hsn := AddHsnReturns(s, back).hsn)
  {
    hide AddHsnReturned;
    if back != [] {
      var n := |back| - 1;
      HsnNotesBeside(s, back[..n]);
      HsnReturnedBeside(AddHsnReturns(s, back[..n]), back[n].invoice, back[n].lines);
    }
  }

  /**
   * Each registered buyer has exactly their own invoices and credit notes listed, each large inter-state sale stands under
   * its place, with its credit notes apart: in their order, with number, place, value and one item a rate.
   */
  lemma DocumentsListed(gstin: string, invoices: seq<GstInvoice>, notes: seq<GstReturn>, key: string)
    ensures SalesListed(Built(gstin, invoices, notes), gstin, invoices, key) && ReturnsListed(Built(gstin, invoices, notes), gstin, notes, key)
  {
    hide AddInvoices, AddReturns, AddHsnInvoices, AddHsnReturns, B2bOf, LargeTo, NotesOf, LargeNotes, Chosen, Reported, ReportedReturns, InvoicesListed, NotesListed;
    var sales, back := Reported(invoices), ReportedReturns(notes);
    var sold := AddInvoices(gstin, NO_SECTIONS, sales);
    SalesAreListed(gstin, invoices, key);
    ReturnsAreListed(gstin, sold, notes, key);
    var listed := AddReturns(gstin, sold, back);
    HsnSalesBeside(listed, sales);
    HsnNotesBeside(AddHsnInvoices(listed, sales), back);
  }
}
