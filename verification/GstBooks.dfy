/**
 * GSTR-1's sections and GSTR-3B's tables (apps/api/src/gst/gstr3b.ts) against the books: what every
 * section comes to is a sum over the lines of the invoices and returns themselves.
 */
module GstBooks {
  import opened Gstr1
  import opened OutboxRows

  // ----- Totals over maps

  ghost function MapTotal<K, V>(m: map<K, V>, w: (K, V) -> int): (r: int)
    decreases |m|
  {
    if m == map[] then 0
    else
      var key :| key in m;
      assert |m - {key}| < |m| by { Fewer(m, key); }
      w(key, m[key]) + MapTotal(m - {key}, w)
  }

  lemma Fewer<K, V>(m: map<K, V>, key: K)
    requires key in m
    ensures |m - {key}| < |m|
  {
    assert (m - {key}).Keys == m.Keys - {key};
    assert |m.Keys| == |m| && |(m - {key}).Keys| == |m - {key}|;
  }

  lemma {:induction false} MapWithout<K, V>(m: map<K, V>, w: (K, V) -> int, key: K)
    requires key in m
    ensures MapTotal(m, w) == w(key, m[key]) + MapTotal(m - {key}, w)
    decreases |m|
  {
    var first :| first in m && MapTotal(m, w) == w(first, m[first]) + MapTotal(m - {first}, w);
    if first != key {
      Fewer(m, first);
      Fewer(m, key);
      MapWithout(m - {first}, w, key);
      MapWithout(m - {key}, w, first);
      assert m - {first} - {key} == m - {key} - {first};
    }
  }

  /** What writing one entry changes of the total. */
  lemma MapPut<K, V>(m: map<K, V>, w: (K, V) -> int, key: K, value: V)
    ensures MapTotal(m[key := value], w) == MapTotal(m, w) - (if key in m then w(key, m[key]) else 0) + w(key, value)
  {
    var m' := m[key := value];
    MapWithout(m', w, key);
    if key in m {
      MapWithout(m, w, key);
      assert m' - {key} == m - {key};
    } else {
      assert m' - {key} == m;
    }
  }

  // ----- Amounts measured one way

  const OF_TXVAL := (a: Amounts) => a.txval
  const OF_IGST := (a: Amounts) => a.iamt
  const OF_CGST := (a: Amounts) => a.camt
  const OF_SGST := (a: Amounts) => a.samt

  ghost predicate Linear(f: Amounts -> int) {
    && f(ZERO) == 0
    && (forall a: Amounts, b: Amounts :: f(a.Plus(b)) == f(a) + f(b))
    && (forall a: Amounts :: f(a.Signed(true)) == -f(a))
  }

  lemma Measures()
    ensures Linear(OF_TXVAL) && Linear(OF_IGST) && Linear(OF_CGST) && Linear(OF_SGST)
  {
  }

  ghost function Each<K>(f: Amounts -> int): (K, Amounts) -> int { (key: K, a: Amounts) => f(a) }

  // ----- What the sections come to

  ghost function ItemsSum(items: Items, f: Amounts -> int): (r: int) { MapTotal(items, Each<TaxRate>(f)) }

  ghost function DocsSum(docs: seq<Doc>, f: Amounts -> int): (r: int) {
    if docs == [] then 0 else DocsSum(docs[..|docs| - 1], f) + ItemsSum(docs[|docs| - 1].items, f)
  }

  ghost function DocsOf(f: Amounts -> int): (string, seq<Doc>) -> int { (key: string, docs: seq<Doc>) => DocsSum(docs, f) }

  ghost function SectionSum(m: map<string, seq<Doc>>, f: Amounts -> int): (r: int) { MapTotal(m, DocsOf(f)) }

  ghost function B2csSum(m: map<B2csKey, Amounts>, f: Amounts -> int): (r: int) { MapTotal(m, Each<B2csKey>(f)) }

  /** Table 3.1(a): outward taxable supplies. */
  ghost function OutwardTaxable(s: Sections, f: Amounts -> int): (r: int) {
    SectionSum(s.b2b, f) - SectionSum(s.cdnr, f) + B2csSum(s.b2cs, f) + SectionSum(s.b2cl, f) - DocsSum(s.cdnur, f)
  }

  ghost function NilOf(nonGst: bool): (NilKey, NilRow) -> int {
    (key: NilKey, row: NilRow) => if nonGst then row.nonGst else row.nilRated + row.exempt
  }

  /** Table 3.1(e), non-GST supplies, or 3.1(c), nil-rated and exempt ones. */
  ghost function OutwardUntaxed(s: Sections, nonGst: bool): (r: int) { MapTotal(s.nilRows, NilOf(nonGst)) }

  ghost function InterAt(pos: string, f: Amounts -> int): (B2csKey, Amounts) -> int {
    (key: B2csKey, a: Amounts) => if key.inter && key.pos == pos then f(a) else 0
  }

  ghost function NotesAt(docs: seq<Doc>, pos: string, f: Amounts -> int): (r: int) {
    if docs == [] then 0
    else NotesAt(docs[..|docs| - 1], pos, f) + if docs[|docs| - 1].pos == pos then ItemsSum(docs[|docs| - 1].items, f) else 0
  }

  /** Table 3.2: inter-state supplies to unregistered persons, at one place of supply. */
  ghost function InterState(s: Sections, pos: string, f: Amounts -> int): (r: int) {
    MapTotal(s.b2cs, InterAt(pos, f)) + DocsSum(DocsAt(s.b2cl, pos), f) - NotesAt(s.cdnur, pos, f)
  }

  ghost function HsnOf(f: Amounts -> int): (HsnKey, HsnRow) -> int { (key: HsnKey, row: HsnRow) => f(row.amounts) }

  /** Both tables of the HSN summary together. */
  ghost function HsnSum(s: Sections, f: Amounts -> int): (r: int) { MapTotal(s.hsn, HsnOf(f)) }

  // ----- What the books come to

  type Weight = (GstInvoice, GstLine, Amounts) -> int

  ghost function SoldSum(invoice: GstInvoice, lines: seq<GstLine>, w: Weight): (r: int) {
    if lines == [] then 0
    else SoldSum(invoice, lines[..|lines| - 1], w) + w(invoice, lines[|lines| - 1], lines[|lines| - 1].amounts)
  }

  ghost function ReturnedSum(invoice: GstInvoice, lines: seq<GstReturnLine>, w: Weight): (r: int) {
    if lines == [] then 0
    else ReturnedSum(invoice, lines[..|lines| - 1], w) + w(invoice, lines[|lines| - 1].saleLine, lines[|lines| - 1].amounts)
  }

  ghost function SalesSum(invoices: seq<GstInvoice>, w: Weight): (r: int) {
    if invoices == [] then 0
    else SalesSum(invoices[..|invoices| - 1], w) + SoldSum(invoices[|invoices| - 1], invoices[|invoices| - 1].lines, w)
  }

  ghost function ReturnsSum(givenBack: seq<GstReturn>, w: Weight): (r: int) {
    if givenBack == [] then 0
    else ReturnsSum(givenBack[..|givenBack| - 1], w) + ReturnedSum(givenBack[|givenBack| - 1].invoice, givenBack[|givenBack| - 1].lines, w)
  }

  /** Every line of a reported bill, less every returned line, each weighed. */
  ghost function Books(invoices: seq<GstInvoice>, givenBack: seq<GstReturn>, w: Weight): (r: int) {
    SalesSum(Reported(invoices), w) - ReturnsSum(ReportedReturns(givenBack), w)
  }

  /** Taxable lines, at what the sections show of them: of a large inter-state bill, only value and IGST. */
  ghost function TaxableShown(gstin: string, f: Amounts -> int): Weight {
    (invoice: GstInvoice, line: GstLine, a: Amounts) =>
      if !line.supplyType.Taxable? then 0 else if IsB2cl(invoice, gstin) then f(Narrow(a)) else f(a)
  }

  ghost function TaxableOf(f: Amounts -> int): Weight {
    (invoice: GstInvoice, line: GstLine, a: Amounts) => if line.supplyType.Taxable? then f(a) else 0
  }

  ghost function UntaxedLines(nonGst: bool): Weight {
    (invoice: GstInvoice, line: GstLine, a: Amounts) =>
      if line.supplyType.Taxable? || line.supplyType.NonGst? != nonGst then 0 else a.txval
  }

  ghost function InterLines(gstin: string, pos: string, f: Amounts -> int): Weight {
    (invoice: GstInvoice, line: GstLine, a: Amounts) =>
      if line.supplyType.Taxable? && !IsB2b(invoice) && IsInterState(invoice, gstin) && PlaceOfSupply(invoice, gstin) == pos then f(a) else 0
  }

  ghost function CodedLines(f: Amounts -> int): Weight {
    (invoice: GstInvoice, line: GstLine, a: Amounts) => if line.hsnCode == "" || line.uqc == "" then 0 else f(a)
  }

  // ----- Items by rate

  lemma {:induction false} ItemsAre(lines: seq<Rated>, f: Amounts -> int)
    requires Linear(f)
    ensures ItemsSum(ItemsByRate(lines), f) == RatedSum(lines, f)
  {
    hide MapTotal;
    if lines != [] {
      var before, last := ItemsByRate(lines[..|lines| - 1]), lines[|lines| - 1];
      ItemsAre(lines[..|lines| - 1], f);
      MapPut(before, Each<TaxRate>(f), last.rate, AmountsAt(before, last.rate).Plus(last.amounts));
    } else {
      NoneTotal(Each<TaxRate>(f));
    }
  }

  lemma NoneTotal<K, V>(w: (K, V) -> int)
    ensures MapTotal(map[], w) == 0
  {
  }

  ghost function RatedSum(lines: seq<Rated>, f: Amounts -> int): (r: int) {
    if lines == [] then 0 else RatedSum(lines[..|lines| - 1], f) + f(lines[|lines| - 1].amounts)
  }

  function NarrowLines(lines: seq<Rated>): (r: seq<Rated>) {
    if lines == [] then [] else NarrowLines(lines[..|lines| - 1]) + [Rated(lines[|lines| - 1].rate, Narrow(lines[|lines| - 1].amounts))]
  }

  lemma {:induction false} NarrowItemsAre(lines: seq<Rated>)
    ensures NarrowItems(ItemsByRate(lines)) == ItemsByRate(NarrowLines(lines))
  {
    if lines != [] {
      var n := |lines| - 1;
      NarrowItemsAre(lines[..n]);
      assert NarrowLines(lines)[..|NarrowLines(lines)| - 1] == NarrowLines(lines[..n]);
    }
  }

  /** A listed document's items come to what its taxable lines do. */
  lemma {:induction false} TaxableSum(gstin: string, invoice: GstInvoice, lines: seq<GstLine>, f: Amounts -> int)
    requires Linear(f)
    ensures !IsB2cl(invoice, gstin) ==> RatedSum(TaxableLines(lines), f) == SoldSum(invoice, lines, TaxableShown(gstin, f))
    ensures IsB2cl(invoice, gstin) ==> RatedSum(NarrowLines(TaxableLines(lines)), f) == SoldSum(invoice, lines, TaxableShown(gstin, f))
  {
    hide IsB2cl, Narrow;
    if lines != [] {
      var n := |lines| - 1;
      TaxableSum(gstin, invoice, lines[..n], f);
      assert TaxableLines(lines[..n]) + [] == TaxableLines(lines[..n]);
      LastRated(TaxableLines(lines[..n]), Rated(lines[n].taxRate, lines[n].amounts), f);
    }
  }

  lemma LastRated(lines: seq<Rated>, last: Rated, f: Amounts -> int)
    ensures RatedSum(lines + [last], f) == RatedSum(lines, f) + f(last.amounts)
    ensures NarrowLines(lines + [last]) == NarrowLines(lines) + [Rated(last.rate, Narrow(last.amounts))]
    ensures RatedSum(NarrowLines(lines + [last]), f) == RatedSum(NarrowLines(lines), f) + f(Narrow(last.amounts))
  {
    assert (lines + [last])[..|lines|] == lines;
    var narrow := NarrowLines(lines);
    assert (narrow + [Rated(last.rate, Narrow(last.amounts))])[..|narrow|] == narrow;
  }

  lemma {:induction false} TaxableReturnedSum(gstin: string, invoice: GstInvoice, lines: seq<GstReturnLine>, f: Amounts -> int)
    requires Linear(f)
    ensures !IsB2cl(invoice, gstin) ==> RatedSum(TaxableReturned(lines), f) == ReturnedSum(invoice, lines, TaxableShown(gstin, f))
    ensures IsB2cl(invoice, gstin) ==> RatedSum(NarrowLines(TaxableReturned(lines)), f) == ReturnedSum(invoice, lines, TaxableShown(gstin, f))
  {
    hide IsB2cl, Narrow;
    if lines != [] {
      var n := |lines| - 1;
      TaxableReturnedSum(gstin, invoice, lines[..n], f);
      assert TaxableReturned(lines[..n]) + [] == TaxableReturned(lines[..n]);
      LastRated(TaxableReturned(lines[..n]), Rated(lines[n].saleLine.taxRate, lines[n].amounts), f);
    }
  }

  // ----- Table 3.1(a)

  /** A line in the summaries adds its money to the taxable table when it is taxable, and nothing otherwise. */
  lemma LineTaxable(gstin: string, s: Sections, invoice: GstInvoice, line: GstLine, amounts: Amounts, back: bool, f: Amounts -> int)
    requires Linear(f)
    ensures OutwardTaxable(AddLine(gstin, s, invoice, line, amounts, back), f)
         == OutwardTaxable(s, f) + if line.supplyType.Taxable? then (if back then -f(amounts) else f(amounts)) else 0
  {
    hide MapTotal, SectionSum, DocsSum, PlaceOfSupply, IsInterState, AddNil;
    if line.supplyType.Taxable? {
      var key := B2csKey(IsInterState(invoice, gstin), PlaceOfSupply(invoice, gstin), line.taxRate);
      MapPut(s.b2cs, Each<B2csKey>(f), key, AmountsAt(s.b2cs, key).Plus(amounts.Signed(back)));
    }
  }

  lemma {:induction false} LinesTaxable(gstin: string, s: Sections, invoice: GstInvoice, lines: seq<GstLine>, f: Amounts -> int)
    requires Linear(f)
    ensures OutwardTaxable(AddLines(gstin, s, invoice, lines), f)
         == OutwardTaxable(s, f) + if IsListed(gstin, invoice) then 0 else SoldSum(invoice, lines, TaxableShown(gstin, f))
  {
    hide OutwardTaxable, AddLine, IsB2cl, IsB2b;
    if lines != [] {
      var n := |lines| - 1;
      LinesTaxable(gstin, s, invoice, lines[..n], f);
      LineTaxable(gstin, AddLines(gstin, s, invoice, lines[..n]), invoice, lines[n], lines[n].amounts, false, f);
    }
  }

  lemma {:induction false} ReturnedTaxable(gstin: string, s: Sections, invoice: GstInvoice, lines: seq<GstReturnLine>, f: Amounts -> int)
    requires Linear(f)
    ensures OutwardTaxable(AddReturned(gstin, s, invoice, lines), f)
         == OutwardTaxable(s, f) - if IsListed(gstin, invoice) then 0 else ReturnedSum(invoice, lines, TaxableShown(gstin, f))
  {
    hide OutwardTaxable, AddLine, IsB2cl, IsB2b;
    if lines != [] {
      var n := |lines| - 1;
      ReturnedTaxable(gstin, s, invoice, lines[..n], f);
      LineTaxable(gstin, AddReturned(gstin, s, invoice, lines[..n]), invoice, lines[n].saleLine, lines[n].amounts, true, f);
    }
  }

  lemma DocAdded(m: map<string, seq<Doc>>, key: string, doc: Doc, f: Amounts -> int)
    ensures SectionSum(m[key := DocsAt(m, key) + [doc]], f) == SectionSum(m, f) + ItemsSum(doc.items, f)
  {
    hide MapTotal, ItemsSum;
    MapPut(m, DocsOf(f), key, DocsAt(m, key) + [doc]);
    NoteAdded(DocsAt(m, key), doc, f);
  }

  lemma ListedTaxable(gstin: string, s: Sections, invoice: GstInvoice, f: Amounts -> int)
    requires Linear(f)
    ensures OutwardTaxable(ListInvoice(gstin, s, invoice), f)
         == OutwardTaxable(s, f) + if IsListed(gstin, invoice) then SoldSum(invoice, invoice.lines, TaxableShown(gstin, f)) else 0
  {
    hide SectionSum, DocsSum, B2csSum, ItemsSum, IsInterState, PlaceOfSupply, RatedSum, SoldSum, ItemsByRate, NarrowItems, TaxableLines;
    var rated := TaxableLines(invoice.lines);
    TaxableSum(gstin, invoice, invoice.lines, f);
    ItemsAre(rated, f);
    ItemsAre(NarrowLines(rated), f);
    NarrowItemsAre(rated);
    var items, pos := ItemsByRate(rated), PlaceOfSupply(invoice, gstin);
    DocAdded(s.b2b, invoice.buyerGstin, Doc(invoice.invoiceNo, pos, invoice.grandTotal, items), f);
    DocAdded(s.b2cl, pos, Doc(invoice.invoiceNo, pos, invoice.grandTotal, NarrowItems(items)), f);
  }

  lemma ListedReturnTaxable(gstin: string, s: Sections, ret: GstReturn, f: Amounts -> int)
    requires Linear(f)
    ensures OutwardTaxable(ListReturn(gstin, s, ret), f)
         == OutwardTaxable(s, f) - if IsListed(gstin, ret.invoice) then ReturnedSum(ret.invoice, ret.lines, TaxableShown(gstin, f)) else 0
  {
    hide SectionSum, B2csSum, ItemsSum, IsInterState, PlaceOfSupply, RatedSum, ReturnedSum, ItemsByRate, NarrowItems, TaxableReturned;
    var rated := TaxableReturned(ret.lines);
    TaxableReturnedSum(gstin, ret.invoice, ret.lines, f);
    ItemsAre(rated, f);
    ItemsAre(NarrowLines(rated), f);
    NarrowItemsAre(rated);
    var items, pos := ItemsByRate(rated), PlaceOfSupply(ret.invoice, gstin);
    DocAdded(s.cdnr, ret.invoice.buyerGstin, Doc(ret.returnNo, pos, ret.totalAmount, items), f);
    NoteAdded(s.cdnur, Doc(ret.returnNo, pos, ret.totalAmount, NarrowItems(items)), f);
  }

  lemma NoteAdded(docs: seq<Doc>, doc: Doc, f: Amounts -> int)
    ensures DocsSum(docs + [doc], f) == DocsSum(docs, f) + ItemsSum(doc.items, f)
    ensures forall pos :: NotesAt(docs + [doc], pos, f) == NotesAt(docs, pos, f) + if doc.pos == pos then ItemsSum(doc.items, f) else 0
  {
    assert (docs + [doc])[..|docs|] == docs;
  }

  lemma {:induction false} SalesTaxable(gstin: string, s: Sections, invoices: seq<GstInvoice>, f: Amounts -> int)
    requires Linear(f)
    ensures OutwardTaxable(AddInvoices(gstin, s, invoices), f) == OutwardTaxable(s, f) + SalesSum(invoices, TaxableShown(gstin, f))
  {
    hide OutwardTaxable, ListInvoice, AddLines, SoldSum, TaxableShown, IsListed;
    if invoices != [] {
      var n := |invoices| - 1;
      var before := AddInvoices(gstin, s, invoices[..n]);
      SalesTaxable(gstin, s, invoices[..n], f);
      ListedTaxable(gstin, before, invoices[n], f);
      LinesTaxable(gstin, ListInvoice(gstin, before, invoices[n]), invoices[n], invoices[n].lines, f);
    }
  }

  lemma {:induction false} BackTaxable(gstin: string, s: Sections, givenBack: seq<GstReturn>, f: Amounts -> int)
    requires Linear(f)
    ensures OutwardTaxable(AddReturns(gstin, s, givenBack), f) == OutwardTaxable(s, f) - ReturnsSum(givenBack, TaxableShown(gstin, f))
  {
    hide OutwardTaxable, ListReturn, AddReturned, ReturnedSum, TaxableShown, IsListed;
    if givenBack != [] {
      var n := |givenBack| - 1;
      var before := AddReturns(gstin, s, givenBack[..n]);
      BackTaxable(gstin, s, givenBack[..n], f);
      ListedReturnTaxable(gstin, before, givenBack[n], f);
      ReturnedTaxable(gstin, ListReturn(gstin, before, givenBack[n]), givenBack[n].invoice, givenBack[n].lines, f);
    }
  }

  /** The HSN summary is beside the sections, and changes none of them. */
  lemma {:induction false} HsnBeside(s: Sections, invoices: seq<GstInvoice>, givenBack: seq<GstReturn>)
    ensures AddHsnReturns(AddHsnInvoices(s, invoices), givenBack) ==
            s.(hsn := AddHsnReturns(AddHsnInvoices(s, invoices), givenBack).hsn)
  {
    HsnSalesBeside(s, invoices);
    HsnBackBeside(AddHsnInvoices(s, invoices), givenBack);
  }

  lemma {:induction false} HsnSalesBeside(s: Sections, invoices: seq<GstInvoice>)
    ensures AddHsnInvoices(s, invoices) == s.(hsn := AddHsnInvoices(s, invoices).hsn)
  {
    if invoices != [] {
      HsnSalesBeside(s, invoices[..|invoices| - 1]);
      HsnLinesBeside(AddHsnInvoices(s, invoices[..|invoices| - 1]), invoices[|invoices| - 1], invoices[|invoices| - 1].lines);
    }
  }

  lemma {:induction false} HsnLinesBeside(s: Sections, invoice: GstInvoice, lines: seq<GstLine>)
    ensures AddHsnLines(s, invoice, lines) == s.(hsn := AddHsnLines(s, invoice, lines).hsn)
  {
    if lines != [] { HsnLinesBeside(s, invoice, lines[..|lines| - 1]); }
  }

  lemma {:induction false} HsnBackBeside(s: Sections, givenBack: seq<GstReturn>)
    ensures AddHsnReturns(s, givenBack) == s.(hsn := AddHsnReturns(s, givenBack).hsn)
  {
    if givenBack != [] {
      HsnBackBeside(s, givenBack[..|givenBack| - 1]);
      HsnReturnedBeside(AddHsnReturns(s, givenBack[..|givenBack| - 1]), givenBack[|givenBack| - 1].invoice, givenBack[|givenBack| - 1].lines);
    }
  }

  lemma {:induction false} HsnReturnedBeside(s: Sections, invoice: GstInvoice, lines: seq<GstReturnLine>)
    ensures AddHsnReturned(s, invoice, lines) == s.(hsn := AddHsnReturned(s, invoice, lines).hsn)
  {
    if lines != [] { HsnReturnedBeside(s, invoice, lines[..|lines| - 1]); }
  }

  /** The sections partition the taxable lines of the books: each is shown once, returns taken off. */
  lemma TaxableIsBooks(gstin: string, invoices: seq<GstInvoice>, givenBack: seq<GstReturn>, f: Amounts -> int)
    requires Linear(f)
    ensures OutwardTaxable(Built(gstin, invoices, givenBack), f) == Books(invoices, givenBack, TaxableShown(gstin, f))
  {
    hide AddInvoices, AddReturns, AddHsnInvoices, AddHsnReturns, SalesSum, ReturnsSum, MapTotal, TaxableShown;
    var sales, back := Reported(invoices), ReportedReturns(givenBack);
    var listed := AddReturns(gstin, AddInvoices(gstin, NO_SECTIONS, sales), back);
    SalesTaxable(gstin, NO_SECTIONS, sales, f);
    BackTaxable(gstin, AddInvoices(gstin, NO_SECTIONS, sales), back, f);
    HsnBeside(listed, sales, back);
    NoneTotal(DocsOf(f));
    NoneTotal(Each<B2csKey>(f));
  }

  // ----- Tables 3.1(c) and 3.1(e)

  lemma LineUntaxed(gstin: string, s: Sections, invoice: GstInvoice, line: GstLine, amounts: Amounts, back: bool, nonGst: bool)
    ensures OutwardUntaxed(AddLine(gstin, s, invoice, line, amounts, back), nonGst)
         == OutwardUntaxed(s, nonGst)
            + (if back then -UntaxedLines(nonGst)(invoice, line, amounts) else UntaxedLines(nonGst)(invoice, line, amounts))
  {
    hide MapTotal, IsInterState, PlaceOfSupply;
    if !line.supplyType.Taxable? {
      var key := NilKey(IsB2b(invoice), IsInterState(invoice, gstin));
      MapPut(s.nilRows, NilOf(nonGst), key, AddNil(NilAt(s, key), line.supplyType, amounts.Signed(back).txval));
    }
  }

  lemma {:induction false} LinesUntaxed(gstin: string, s: Sections, invoice: GstInvoice, lines: seq<GstLine>, nonGst: bool)
    ensures OutwardUntaxed(AddLines(gstin, s, invoice, lines), nonGst)
         == OutwardUntaxed(s, nonGst) + SoldSum(invoice, lines, UntaxedLines(nonGst))
  {
    hide OutwardUntaxed, AddLine, IsListed;
    if lines != [] {
      var n := |lines| - 1;
      LinesUntaxed(gstin, s, invoice, lines[..n], nonGst);
      LineUntaxed(gstin, AddLines(gstin, s, invoice, lines[..n]), invoice, lines[n], lines[n].amounts, false, nonGst);
    }
  }

  lemma {:induction false} ReturnedUntaxed(gstin: string, s: Sections, invoice: GstInvoice, lines: seq<GstReturnLine>, nonGst: bool)
    ensures OutwardUntaxed(AddReturned(gstin, s, invoice, lines), nonGst)
         == OutwardUntaxed(s, nonGst) - ReturnedSum(invoice, lines, UntaxedLines(nonGst))
  {
    hide OutwardUntaxed, AddLine, IsListed;
    if lines != [] {
      var n := |lines| - 1;
      ReturnedUntaxed(gstin, s, invoice, lines[..n], nonGst);
      LineUntaxed(gstin, AddReturned(gstin, s, invoice, lines[..n]), invoice, lines[n].saleLine, lines[n].amounts, true, nonGst);
    }
  }

  lemma {:induction false} SalesUntaxed(gstin: string, s: Sections, invoices: seq<GstInvoice>, nonGst: bool)
    ensures OutwardUntaxed(AddInvoices(gstin, s, invoices), nonGst) == OutwardUntaxed(s, nonGst) + SalesSum(invoices, UntaxedLines(nonGst))
  {
    hide MapTotal, AddLines, SoldSum, UntaxedLines, ItemsByRate, NarrowItems, TaxableLines;
    if invoices != [] {
      var n := |invoices| - 1;
      var before := AddInvoices(gstin, s, invoices[..n]);
      SalesUntaxed(gstin, s, invoices[..n], nonGst);
      LinesUntaxed(gstin, ListInvoice(gstin, before, invoices[n]), invoices[n], invoices[n].lines, nonGst);
    }
  }

  lemma {:induction false} BackUntaxed(gstin: string, s: Sections, givenBack: seq<GstReturn>, nonGst: bool)
    ensures OutwardUntaxed(AddReturns(gstin, s, givenBack), nonGst) == OutwardUntaxed(s, nonGst) - ReturnsSum(givenBack, UntaxedLines(nonGst))
  {
    hide MapTotal, AddReturned, ReturnedSum, UntaxedLines, ItemsByRate, NarrowItems, TaxableReturned;
    if givenBack != [] {
      var n := |givenBack| - 1;
      var before := AddReturns(gstin, s, givenBack[..n]);
      BackUntaxed(gstin, s, givenBack[..n], nonGst);
      ReturnedUntaxed(gstin, ListReturn(gstin, before, givenBack[n]), givenBack[n].invoice, givenBack[n].lines, nonGst);
    }
  }

  /** Nil-rated, exempt and non-GST lines are all in the nil section, whoever bought them. */
  lemma UntaxedIsBooks(gstin: string, invoices: seq<GstInvoice>, givenBack: seq<GstReturn>, nonGst: bool)
    ensures OutwardUntaxed(Built(gstin, invoices, givenBack), nonGst) == Books(invoices, givenBack, UntaxedLines(nonGst))
  {
    hide AddInvoices, AddReturns, AddHsnInvoices, AddHsnReturns, SalesSum, ReturnsSum, MapTotal, UntaxedLines;
    var sales, back := Reported(invoices), ReportedReturns(givenBack);
    SalesUntaxed(gstin, NO_SECTIONS, sales, nonGst);
    BackUntaxed(gstin, AddInvoices(gstin, NO_SECTIONS, sales), back, nonGst);
    HsnBeside(AddReturns(gstin, AddInvoices(gstin, NO_SECTIONS, sales), back), sales, back);
    NoneTotal(NilOf(nonGst));
  }

  // ----- Table 3.2

  /** A measure that large inter-state bills are listed by in full: value and IGST. */
  ghost predicate ShownNarrow(f: Amounts -> int) { Linear(f) && forall a: Amounts :: f(Narrow(a)) == f(a) }

  lemma NarrowMeasures()
    ensures ShownNarrow(OF_TXVAL) && ShownNarrow(OF_IGST)
  {
    Measures();
  }

  predicate GoesTo(gstin: string, invoice: GstInvoice, pos: string) {
    IsInterState(invoice, gstin) && PlaceOfSupply(invoice, gstin) == pos
  }

  lemma LineInter(gstin: string, s: Sections, invoice: GstInvoice, line: GstLine, amounts: Amounts, back: bool, pos: string, f: Amounts -> int)
    requires Linear(f)
    ensures InterState(AddLine(gstin, s, invoice, line, amounts, back), pos, f)
         == InterState(s, pos, f)
            + if line.supplyType.Taxable? && GoesTo(gstin, invoice, pos) then (if back then -f(amounts) else f(amounts)) else 0
  {
    hide MapTotal, DocsSum, NotesAt, PlaceOfSupply, IsInterState, AddNil;
    if line.supplyType.Taxable? {
      var key := B2csKey(IsInterState(invoice, gstin), PlaceOfSupply(invoice, gstin), line.taxRate);
      MapPut(s.b2cs, InterAt(pos, f), key, AmountsAt(s.b2cs, key).Plus(amounts.Signed(back)));
    }
  }

  lemma {:induction false} LinesInter(gstin: string, s: Sections, invoice: GstInvoice, lines: seq<GstLine>, pos: string, f: Amounts -> int)
    requires Linear(f)
    ensures InterState(AddLines(gstin, s, invoice, lines), pos, f)
         == InterState(s, pos, f) + if IsListed(gstin, invoice) then 0 else SoldSum(invoice, lines, InterLines(gstin, pos, f))
  {
    hide InterState, AddLine, IsInterState, PlaceOfSupply;
    if lines != [] {
      var n := |lines| - 1;
      LinesInter(gstin, s, invoice, lines[..n], pos, f);
      LineInter(gstin, AddLines(gstin, s, invoice, lines[..n]), invoice, lines[n], lines[n].amounts, false, pos, f);
    }
  }

  lemma {:induction false} ReturnedInter(gstin: string, s: Sections, invoice: GstInvoice, lines: seq<GstReturnLine>, pos: string, f: Amounts -> int)
    requires Linear(f)
    ensures InterState(AddReturned(gstin, s, invoice, lines), pos, f)
         == InterState(s, pos, f) - if IsListed(gstin, invoice) then 0 else ReturnedSum(invoice, lines, InterLines(gstin, pos, f))
  {
    hide InterState, AddLine, IsInterState, PlaceOfSupply;
    if lines != [] {
      var n := |lines| - 1;
      ReturnedInter(gstin, s, invoice, lines[..n], pos, f);
      LineInter(gstin, AddReturned(gstin, s, invoice, lines[..n]), invoice, lines[n].saleLine, lines[n].amounts, true, pos, f);
    }
  }

  /** The lines that count for a place of supply are a listed bill's taxable ones, if it goes there and its buyer is unregistered. */
  lemma {:induction false} InterSold(gstin: string, invoice: GstInvoice, lines: seq<GstLine>, pos: string, f: Amounts -> int)
    requires ShownNarrow(f)
    ensures SoldSum(invoice, lines, InterLines(gstin, pos, f))
         == if !IsB2b(invoice) && GoesTo(gstin, invoice, pos) then RatedSum(NarrowLines(TaxableLines(lines)), f) else 0
  {
    hide IsInterState, PlaceOfSupply, Narrow;
    if lines != [] {
      var n := |lines| - 1;
      InterSold(gstin, invoice, lines[..n], pos, f);
      assert TaxableLines(lines[..n]) + [] == TaxableLines(lines[..n]);
      LastRated(TaxableLines(lines[..n]), Rated(lines[n].taxRate, lines[n].amounts), f);
    }
  }

  lemma {:induction false} InterReturned(gstin: string, invoice: GstInvoice, lines: seq<GstReturnLine>, pos: string, f: Amounts -> int)
    requires ShownNarrow(f)
    ensures ReturnedSum(invoice, lines, InterLines(gstin, pos, f))
         == if !IsB2b(invoice) && GoesTo(gstin, invoice, pos) then RatedSum(NarrowLines(TaxableReturned(lines)), f) else 0
  {
    hide IsInterState, PlaceOfSupply, Narrow;
    if lines != [] {
      var n := |lines| - 1;
      InterReturned(gstin, invoice, lines[..n], pos, f);
      assert TaxableReturned(lines[..n]) + [] == TaxableReturned(lines[..n]);
      LastRated(TaxableReturned(lines[..n]), Rated(lines[n].saleLine.taxRate, lines[n].amounts), f);
    }
  }

  lemma ListedInter(gstin: string, s: Sections, invoice: GstInvoice, pos: string, f: Amounts -> int)
    requires ShownNarrow(f)
    ensures InterState(ListInvoice(gstin, s, invoice), pos, f)
         == InterState(s, pos, f) + if IsListed(gstin, invoice) then SoldSum(invoice, invoice.lines, InterLines(gstin, pos, f)) else 0
  {
    hide MapTotal, DocsSum, NotesAt, ItemsSum, IsInterState, PlaceOfSupply, RatedSum, SoldSum, ItemsByRate, NarrowItems, TaxableLines, InterLines;
    var rated := TaxableLines(invoice.lines);
    InterSold(gstin, invoice, invoice.lines, pos, f);
    ItemsAre(NarrowLines(rated), f);
    NarrowItemsAre(rated);
    var place := PlaceOfSupply(invoice, gstin);
    NoteAdded(DocsAt(s.b2cl, place), Doc(invoice.invoiceNo, place, invoice.grandTotal, NarrowItems(ItemsByRate(rated))), f);
  }

  lemma ListedReturnInter(gstin: string, s: Sections, ret: GstReturn, pos: string, f: Amounts -> int)
    requires ShownNarrow(f)
    ensures InterState(ListReturn(gstin, s, ret), pos, f)
         == InterState(s, pos, f) - if IsListed(gstin, ret.invoice) then ReturnedSum(ret.invoice, ret.lines, InterLines(gstin, pos, f)) else 0
  {
    hide MapTotal, DocsSum, NotesAt, ItemsSum, IsInterState, PlaceOfSupply, RatedSum, ReturnedSum, ItemsByRate, NarrowItems, TaxableReturned, InterLines;
    var rated := TaxableReturned(ret.lines);
    InterReturned(gstin, ret.invoice, ret.lines, pos, f);
    ItemsAre(NarrowLines(rated), f);
    NarrowItemsAre(rated);
    var place := PlaceOfSupply(ret.invoice, gstin);
    NoteAdded(s.cdnur, Doc(ret.returnNo, place, ret.totalAmount, NarrowItems(ItemsByRate(rated))), f);
  }

  lemma {:induction false} SalesInter(gstin: string, s: Sections, invoices: seq<GstInvoice>, pos: string, f: Amounts -> int)
    requires ShownNarrow(f)
    ensures InterState(AddInvoices(gstin, s, invoices), pos, f) == InterState(s, pos, f) + SalesSum(invoices, InterLines(gstin, pos, f))
  {
    hide InterState, ListInvoice, AddLines, SoldSum, InterLines, IsListed;
    if invoices != [] {
      var n := |invoices| - 1;
      var before := AddInvoices(gstin, s, invoices[..n]);
      SalesInter(gstin, s, invoices[..n], pos, f);
      ListedInter(gstin, before, invoices[n], pos, f);
      LinesInter(gstin, ListInvoice(gstin, before, invoices[n]), invoices[n], invoices[n].lines, pos, f);
    }
  }

  lemma {:induction false} BackInter(gstin: string, s: Sections, givenBack: seq<GstReturn>, pos: string, f: Amounts -> int)
    requires ShownNarrow(f)
    ensures InterState(AddReturns(gstin, s, givenBack), pos, f) == InterState(s, pos, f) - ReturnsSum(givenBack, InterLines(gstin, pos, f))
  {
    hide InterState, ListReturn, AddReturned, ReturnedSum, InterLines, IsListed;
    if givenBack != [] {
      var n := |givenBack| - 1;
      var before := AddReturns(gstin, s, givenBack[..n]);
      BackInter(gstin, s, givenBack[..n], pos, f);
      ListedReturnInter(gstin, before, givenBack[n], pos, f);
      ReturnedInter(gstin, ListReturn(gstin, before, givenBack[n]), givenBack[n].invoice, givenBack[n].lines, pos, f);
    }
  }

  /** Table 3.2 at a place of supply is what unregistered buyers there bought from another state, returns taken off. */
  lemma InterStateIsBooks(gstin: string, invoices: seq<GstInvoice>, givenBack: seq<GstReturn>, pos: string, f: Amounts -> int)
    requires ShownNarrow(f)
    ensures InterState(Built(gstin, invoices, givenBack), pos, f) == Books(invoices, givenBack, InterLines(gstin, pos, f))
  {
    hide AddInvoices, AddReturns, AddHsnInvoices, AddHsnReturns, SalesSum, ReturnsSum, MapTotal, InterLines;
    var sales, back := Reported(invoices), ReportedReturns(givenBack);
    SalesInter(gstin, NO_SECTIONS, sales, pos, f);
    BackInter(gstin, AddInvoices(gstin, NO_SECTIONS, sales), back, pos, f);
    HsnBeside(AddReturns(gstin, AddInvoices(gstin, NO_SECTIONS, sales), back), sales, back);
    NoneTotal(InterAt(pos, f));
  }

  // ----- The HSN summary

  lemma LineHsn(s: Sections, invoice: GstInvoice, line: GstLine, qty: int, amounts: Amounts, back: bool, f: Amounts -> int)
    requires Linear(f)
    ensures HsnSum(AddHsn(s, invoice, line, qty, amounts, back), f)
         == HsnSum(s, f) + (if back then -CodedLines(f)(invoice, line, amounts) else CodedLines(f)(invoice, line, amounts))
  {
    hide MapTotal;
    if line.hsnCode != "" && line.uqc != "" {
      var key := HsnKey(IsB2b(invoice), line.hsnCode, line.uqc, line.taxRate);
      var row := HsnAt(s, key);
      MapPut(s.hsn, HsnOf(f), key, HsnRow(row.qty + (if back then -qty else qty), row.amounts.Plus(amounts.Signed(back))));
    }
  }

  lemma {:induction false} LinesHsn(s: Sections, invoice: GstInvoice, lines: seq<GstLine>, f: Amounts -> int)
    requires Linear(f)
    ensures HsnSum(AddHsnLines(s, invoice, lines), f) == HsnSum(s, f) + SoldSum(invoice, lines, CodedLines(f))
  {
    hide HsnSum, AddHsn, CodedLines;
    if lines != [] {
      var n := |lines| - 1;
      LinesHsn(s, invoice, lines[..n], f);
      LineHsn(AddHsnLines(s, invoice, lines[..n]), invoice, lines[n], lines[n].qty, lines[n].amounts, false, f);
    }
  }

  lemma {:induction false} ReturnedHsn(s: Sections, invoice: GstInvoice, lines: seq<GstReturnLine>, f: Amounts -> int)
    requires Linear(f)
    ensures HsnSum(AddHsnReturned(s, invoice, lines), f) == HsnSum(s, f) - ReturnedSum(invoice, lines, CodedLines(f))
  {
    hide HsnSum, AddHsn, CodedLines;
    if lines != [] {
      var n := |lines| - 1;
      ReturnedHsn(s, invoice, lines[..n], f);
      LineHsn(AddHsnReturned(s, invoice, lines[..n]), invoice, lines[n].saleLine, lines[n].qty, lines[n].amounts, true, f);
    }
  }

  lemma {:induction false} SalesHsn(s: Sections, invoices: seq<GstInvoice>, f: Amounts -> int)
    requires Linear(f)
    ensures HsnSum(AddHsnInvoices(s, invoices), f) == HsnSum(s, f) + SalesSum(invoices, CodedLines(f))
  {
    hide HsnSum, AddHsnLines, SoldSum, CodedLines;
    if invoices != [] {
      var n := |invoices| - 1;
      SalesHsn(s, invoices[..n], f);
      LinesHsn(AddHsnInvoices(s, invoices[..n]), invoices[n], invoices[n].lines, f);
    }
  }

  lemma {:induction false} BackHsn(s: Sections, givenBack: seq<GstReturn>, f: Amounts -> int)
    requires Linear(f)
    ensures HsnSum(AddHsnReturns(s, givenBack), f) == HsnSum(s, f) - ReturnsSum(givenBack, CodedLines(f))
  {
    hide HsnSum, AddHsnReturned, ReturnedSum, CodedLines;
    if givenBack != [] {
      var n := |givenBack| - 1;
      BackHsn(s, givenBack[..n], f);
      ReturnedHsn(AddHsnReturns(s, givenBack[..n]), givenBack[n].invoice, givenBack[n].lines, f);
    }
  }

  lemma {:induction false} SectionsBeside(gstin: string, sales: seq<GstInvoice>, back: seq<GstReturn>)
    ensures AddReturns(gstin, AddInvoices(gstin, NO_SECTIONS, sales), back).hsn == map[]
  {
    SalesBeside(gstin, sales);
    BackBeside(gstin, AddInvoices(gstin, NO_SECTIONS, sales), back);
  }

  lemma {:induction false} SalesBeside(gstin: string, sales: seq<GstInvoice>)
    ensures AddInvoices(gstin, NO_SECTIONS, sales).hsn == map[]
  {
    hide ItemsByRate, NarrowItems, TaxableLines, AddLines;
    if sales != [] {
      var n := |sales| - 1;
      SalesBeside(gstin, sales[..n]);
      LinesBeside(gstin, ListInvoice(gstin, AddInvoices(gstin, NO_SECTIONS, sales[..n]), sales[n]), sales[n], sales[n].lines);
    }
  }

  lemma {:induction false} LinesBeside(gstin: string, s: Sections, invoice: GstInvoice, lines: seq<GstLine>)
    ensures AddLines(gstin, s, invoice, lines).hsn == s.hsn
  {
    if lines != [] { LinesBeside(gstin, s, invoice, lines[..|lines| - 1]); }
  }

  lemma {:induction false} BackBeside(gstin: string, s: Sections, back: seq<GstReturn>)
    ensures AddReturns(gstin, s, back).hsn == s.hsn
  {
    hide ItemsByRate, NarrowItems, TaxableReturned, AddReturned;
    if back != [] {
      var n := |back| - 1;
      BackBeside(gstin, s, back[..n]);
      ReturnedBeside(gstin, ListReturn(gstin, AddReturns(gstin, s, back[..n]), back[n]), back[n].invoice, back[n].lines);
    }
  }

  lemma {:induction false} ReturnedBeside(gstin: string, s: Sections, invoice: GstInvoice, lines: seq<GstReturnLine>)
    ensures AddReturned(gstin, s, invoice, lines).hsn == s.hsn
  {
    if lines != [] { ReturnedBeside(gstin, s, invoice, lines[..|lines| - 1]); }
  }

  lemma HsnIsBooks(gstin: string, invoices: seq<GstInvoice>, givenBack: seq<GstReturn>, f: Amounts -> int)
    requires Linear(f)
    ensures HsnSum(Built(gstin, invoices, givenBack), f) == Books(invoices, givenBack, CodedLines(f))
  {
    hide AddInvoices, AddReturns, AddHsnInvoices, AddHsnReturns, SalesSum, ReturnsSum, MapTotal, CodedLines;
    var sales, back := Reported(invoices), ReportedReturns(givenBack);
    var listed := AddReturns(gstin, AddInvoices(gstin, NO_SECTIONS, sales), back);
    SectionsBeside(gstin, sales, back);
    SalesHsn(listed, sales, f);
    BackHsn(AddHsnInvoices(listed, sales), back, f);
    NoneTotal(HsnOf(f));
  }
}
