/**
 * The GSTR-1 return built from a period's invoices and credit notes (apps/api/src/gst/gstr1.ts): each
 * line lands in one section, by buyer, place of supply and kind of supply.
 */
module Gstr1 {
  import opened OutboxRows

  datatype SupplyType = Taxable | NilRated | Exempt | NonGst

  datatype Amounts = Amounts(txval: int, iamt: int, camt: int, samt: int) {
    function Plus(more: Amounts): Amounts {
      Amounts(txval + more.txval, iamt + more.iamt, camt + more.camt, samt + more.samt)
    }
    function Signed(back: bool): Amounts {
      if back then Amounts(-txval, -iamt, -camt, -samt) else this
    }
  }

  const ZERO := Amounts(0, 0, 0, 0)

  /** A rate of tax, in hundredths of a percent. */
  datatype TaxRate = TaxRate(hundredths: int)

  /** An empty HSN code or unit is a missing one. */
  datatype GstLine = GstLine(hsnCode: string, uqc: string, supplyType: SupplyType, taxRate: TaxRate, qty: int, amounts: Amounts)
  datatype GstInvoice = GstInvoice(
    invoiceNo: string, cancelled: bool, taxpayerType: TaxpayerType, sellerState: Option<string>, placeOfSupply: Option<string>,
    buyerGstin: string, grandTotal: int, lines: seq<GstLine>)
  datatype GstReturnLine = GstReturnLine(saleLine: GstLine, qty: int, amounts: Amounts)
  datatype GstReturn = GstReturn(returnNo: string, totalAmount: int, invoice: GstInvoice, lines: seq<GstReturnLine>)

  /** Rupees 1,00,000, in paise. */
  const B2CL_THRESHOLD := 10000000

  function SellerState(invoice: GstInvoice, gstin: string): (r: string) {
    if invoice.sellerState.Some? then invoice.sellerState.value else if |gstin| >= 2 then gstin[..2] else gstin
  }

  function PlaceOfSupply(invoice: GstInvoice, gstin: string): (r: string) {
    if invoice.placeOfSupply.Some? then invoice.placeOfSupply.value else SellerState(invoice, gstin)
  }

  predicate IsInterState(invoice: GstInvoice, gstin: string) { PlaceOfSupply(invoice, gstin) != SellerState(invoice, gstin) }
  predicate IsB2b(invoice: GstInvoice) { invoice.buyerGstin != "" }
  predicate IsB2cl(invoice: GstInvoice, gstin: string) {
    !IsB2b(invoice) && IsInterState(invoice, gstin) && invoice.grandTotal > B2CL_THRESHOLD
  }

  // ----- The sections

  type Items = map<TaxRate, Amounts>
  datatype Doc = Doc(number: string, pos: string, val: int, items: Items)

  datatype B2csKey = B2csKey(inter: bool, pos: string, rate: TaxRate)
  datatype NilKey = NilKey(registered: bool, inter: bool)
  datatype NilRow = NilRow(nilRated: int, exempt: int, nonGst: int)
  datatype HsnKey = HsnKey(registered: bool, hsn: string, uqc: string, rate: TaxRate)
  datatype HsnRow = HsnRow(qty: int, amounts: Amounts)

  datatype Sections = Sections(
    b2b: map<string, seq<Doc>>, b2cl: map<string, seq<Doc>>, b2cs: map<B2csKey, Amounts>, nilRows: map<NilKey, NilRow>,
    cdnr: map<string, seq<Doc>>, cdnur: seq<Doc>, hsn: map<HsnKey, HsnRow>)

  const NO_SECTIONS := Sections(map[], map[], map[], map[], map[], [], map[])

  function AmountsAt<K>(m: map<K, Amounts>, key: K): (r: Amounts) { if key in m then m[key] else ZERO }

  /** A line's rate and money, as the items of a document take them. */
  datatype Rated = Rated(rate: TaxRate, amounts: Amounts)

  function ItemsByRate(lines: seq<Rated>): (r: Items) {
    if lines == [] then map[]
    else
      var before, last := ItemsByRate(lines[..|lines| - 1]), lines[|lines| - 1];
      before[last.rate := AmountsAt(before, last.rate).Plus(last.amounts)]
  }

  method GroupByRate(lines: seq<Rated>) returns (items: Items)
    ensures items == ItemsByRate(lines)
  {
    items := map[];
    for i := 0 to |lines|
      invariant items == ItemsByRate(lines[..i])
    {
      assert lines[..i + 1][..i] == lines[..i];
      items := items[lines[i].rate := AmountsAt(items, lines[i].rate).Plus(lines[i].amounts)];
    }
    assert lines[..|lines|] == lines;
  }

  /** Inter-state items to unregistered buyers are listed with IGST only. */
  function Narrow(amounts: Amounts): (r: Amounts) { Amounts(amounts.txval, amounts.iamt, 0, 0) }
  function NarrowItems(items: Items): (r: Items) { map rate | rate in items :: Narrow(items[rate]) }

  function TaxableLines(lines: seq<GstLine>): (r: seq<Rated>) {
    if lines == [] then []
    else
      var last := lines[|lines| - 1];
      TaxableLines(lines[..|lines| - 1]) + if last.supplyType.Taxable? then [Rated(last.taxRate, last.amounts)] else []
  }

  function TaxableReturned(lines: seq<GstReturnLine>): (r: seq<Rated>) {
    if lines == [] then []
    else
      var last := lines[|lines| - 1];
      TaxableReturned(lines[..|lines| - 1]) + if last.saleLine.supplyType.Taxable? then [Rated(last.saleLine.taxRate, last.amounts)] else []
  }

  function NilAt(s: Sections, key: NilKey): (r: NilRow) { if key in s.nilRows then s.nilRows[key] else NilRow(0, 0, 0) }

  function AddNil(row: NilRow, supply: SupplyType, txval: int): (r: NilRow) {
    match supply
    case NilRated => row.(nilRated := row.nilRated + txval)
    case Exempt => row.(exempt := row.exempt + txval)
    case _ => row.(nonGst := row.nonGst + txval)
  }

  /** A line in the summaries: nil-rated and the like by kind of buyer, taxable ones by place and rate. */
  function AddLine(gstin: string, s: Sections, invoice: GstInvoice, line: GstLine, amounts: Amounts, back: bool): (r: Sections) {
    var inter := IsInterState(invoice, gstin);
    if !line.supplyType.Taxable? then
      var key := NilKey(IsB2b(invoice), inter);
      s.(nilRows := s.nilRows[key := AddNil(NilAt(s, key), line.supplyType, amounts.Signed(back).txval)])
    else
      var key := B2csKey(inter, PlaceOfSupply(invoice, gstin), line.taxRate);
      s.(b2cs := s.b2cs[key := AmountsAt(s.b2cs, key).Plus(amounts.Signed(back))])
  }

  function DocsAt(m: map<string, seq<Doc>>, key: string): (r: seq<Doc>) { if key in m then m[key] else [] }

  /** Whether an invoice is listed on its own, its taxable lines out of the summaries. */
  predicate IsListed(gstin: string, invoice: GstInvoice) { IsB2b(invoice) || IsB2cl(invoice, gstin) }

  predicate InSummary(gstin: string, invoice: GstInvoice, line: GstLine) {
    !IsListed(gstin, invoice) || !line.supplyType.Taxable?
  }

  function AddLines(gstin: string, s: Sections, invoice: GstInvoice, lines: seq<GstLine>): (r: Sections) {
    if lines == [] then s
    else
      var before, last := AddLines(gstin, s, invoice, lines[..|lines| - 1]), lines[|lines| - 1];
      if InSummary(gstin, invoice, last) then AddLine(gstin, before, invoice, last, last.amounts, false) else before
  }

  function AddReturned(gstin: string, s: Sections, invoice: GstInvoice, lines: seq<GstReturnLine>): (r: Sections) {
    if lines == [] then s
    else
      var before, last := AddReturned(gstin, s, invoice, lines[..|lines| - 1]), lines[|lines| - 1];
      if InSummary(gstin, invoice, last.saleLine) then AddLine(gstin, before, invoice, last.saleLine, last.amounts, true) else before
  }

  function ListInvoice(gstin: string, s: Sections, invoice: GstInvoice): (r: Sections) {
    var items, pos := ItemsByRate(TaxableLines(invoice.lines)), PlaceOfSupply(invoice, gstin);
    if IsB2b(invoice) then
      var ctin := invoice.buyerGstin;
      s.(b2b := s.b2b[ctin := DocsAt(s.b2b, ctin) + [Doc(invoice.invoiceNo, pos, invoice.grandTotal, items)]])
    else if IsB2cl(invoice, gstin) then
      s.(b2cl := s.b2cl[pos := DocsAt(s.b2cl, pos) + [Doc(invoice.invoiceNo, pos, invoice.grandTotal, NarrowItems(items))]])
    else s
  }

  function ListReturn(gstin: string, s: Sections, ret: GstReturn): (r: Sections) {
    var items, pos := ItemsByRate(TaxableReturned(ret.lines)), PlaceOfSupply(ret.invoice, gstin);
    if IsB2b(ret.invoice) then
      var ctin := ret.invoice.buyerGstin;
      s.(cdnr := s.cdnr[ctin := DocsAt(s.cdnr, ctin) + [Doc(ret.returnNo, pos, ret.totalAmount, items)]])
    else if IsB2cl(ret.invoice, gstin) then
      s.(cdnur := s.cdnur + [Doc(ret.returnNo, pos, ret.totalAmount, NarrowItems(items))])
    else s
  }

  function AddInvoices(gstin: string, s: Sections, invoices: seq<GstInvoice>): (r: Sections) {
    if invoices == [] then s
    else
      var last := invoices[|invoices| - 1];
      AddLines(gstin, ListInvoice(gstin, AddInvoices(gstin, s, invoices[..|invoices| - 1]), last), last, last.lines)
  }

  function AddReturns(gstin: string, s: Sections, givenBack: seq<GstReturn>): (r: Sections) {
    if givenBack == [] then s
    else
      var last := givenBack[|givenBack| - 1];
      AddReturned(gstin, ListReturn(gstin, AddReturns(gstin, s, givenBack[..|givenBack| - 1]), last), last.invoice, last.lines)
  }

  // ----- The HSN summary

  function HsnAt(s: Sections, key: HsnKey): (r: HsnRow) { if key in s.hsn then s.hsn[key] else HsnRow(0, ZERO) }

  function AddHsn(s: Sections, invoice: GstInvoice, line: GstLine, qty: int, amounts: Amounts, back: bool): (r: Sections) {
    if line.hsnCode == "" || line.uqc == "" then s
    else
      var key := HsnKey(IsB2b(invoice), line.hsnCode, line.uqc, line.taxRate);
      var row := HsnAt(s, key);
      s.(hsn := s.hsn[key := HsnRow(row.qty + (if back then -qty else qty), row.amounts.Plus(amounts.Signed(back)))])
  }

  function AddHsnLines(s: Sections, invoice: GstInvoice, lines: seq<GstLine>): (r: Sections) {
    if lines == [] then s
    else
      var last := lines[|lines| - 1];
      AddHsn(AddHsnLines(s, invoice, lines[..|lines| - 1]), invoice, last, last.qty, last.amounts, false)
  }

  function AddHsnReturned(s: Sections, invoice: GstInvoice, lines: seq<GstReturnLine>): (r: Sections) {
    if lines == [] then s
    else
      var last := lines[|lines| - 1];
      AddHsn(AddHsnReturned(s, invoice, lines[..|lines| - 1]), invoice, last.saleLine, last.qty, last.amounts, true)
  }

  function AddHsnInvoices(s: Sections, invoices: seq<GstInvoice>): (r: Sections) {
    if invoices == [] then s
    else AddHsnLines(AddHsnInvoices(s, invoices[..|invoices| - 1]), invoices[|invoices| - 1], invoices[|invoices| - 1].lines)
  }

  function AddHsnReturns(s: Sections, givenBack: seq<GstReturn>): (r: Sections) {
    if givenBack == [] then s
    else AddHsnReturned(AddHsnReturns(s, givenBack[..|givenBack| - 1]), givenBack[|givenBack| - 1].invoice, givenBack[|givenBack| - 1].lines)
  }

  // ----- The whole return

  function Reported(invoices: seq<GstInvoice>): (r: seq<GstInvoice>) {
    if invoices == [] then []
    else
      var last := invoices[|invoices| - 1];
      Reported(invoices[..|invoices| - 1]) + if last.taxpayerType.Regular? && !last.cancelled then [last] else []
  }

  function ReportedReturns(givenBack: seq<GstReturn>): (r: seq<GstReturn>) {
    if givenBack == [] then []
    else
      var last := givenBack[|givenBack| - 1];
      ReportedReturns(givenBack[..|givenBack| - 1]) + if last.invoice.taxpayerType.Regular? then [last] else []
  }

  function Built(gstin: string, invoices: seq<GstInvoice>, givenBack: seq<GstReturn>): (r: Sections) {
    var sales, back := Reported(invoices), ReportedReturns(givenBack);
    AddHsnReturns(AddHsnInvoices(AddReturns(gstin, AddInvoices(gstin, NO_SECTIONS, sales), back), sales), back)
  }

  method BuildGstr1(gstin: string, invoices: seq<GstInvoice>, givenBack: seq<GstReturn>) returns (s: Sections)
    ensures s == Built(gstin, invoices, givenBack)
  {
    hide AddLines, AddReturned, ListInvoice, ListReturn, AddHsnLines, AddHsnReturned, Reported, ReportedReturns;
    var sales, back := Reported(invoices), ReportedReturns(givenBack);
    s := NO_SECTIONS;
    for i := 0 to |sales|
      invariant s == AddInvoices(gstin, NO_SECTIONS, sales[..i])
    {
      assert sales[..i + 1][..i] == sales[..i];
      s := ListInvoice(gstin, s, sales[i]);
      s := SummariseLines(gstin, s, sales[i]);
    }
    assert sales[..|sales|] == sales;
    ghost var listed := s;
    for i := 0 to |back|
      invariant s == AddReturns(gstin, listed, back[..i])
    {
      assert back[..i + 1][..i] == back[..i];
      s := ListReturn(gstin, s, back[i]);
      s := SummariseReturned(gstin, s, back[i]);
    }
    assert back[..|back|] == back;
    listed := s;
    for i := 0 to |sales|
      invariant s == AddHsnInvoices(listed, sales[..i])
    {
      assert sales[..i + 1][..i] == sales[..i];
      s := AddHsnLines(s, sales[i], sales[i].lines);
    }
    listed := s;
    for i := 0 to |back|
      invariant s == AddHsnReturns(listed, back[..i])
    {
      assert back[..i + 1][..i] == back[..i];
      s := AddHsnReturned(s, back[i].invoice, back[i].lines);
    }
  }

  method SummariseLines(gstin: string, start: Sections, invoice: GstInvoice) returns (s: Sections)
    ensures s == AddLines(gstin, start, invoice, invoice.lines)
  {
    hide AddLine;
    s := start;
    var lines := invoice.lines;
    for i := 0 to |lines|
      invariant s == AddLines(gstin, start, invoice, lines[..i])
    {
      assert lines[..i + 1][..i] == lines[..i];
      if InSummary(gstin, invoice, lines[i]) { s := AddLine(gstin, s, invoice, lines[i], lines[i].amounts, false); }
    }
    assert lines[..|lines|] == lines;
  }

  method SummariseReturned(gstin: string, start: Sections, ret: GstReturn) returns (s: Sections)
    ensures s == AddReturned(gstin, start, ret.invoice, ret.lines)
  {
    hide AddLine;
    s := start;
    var lines := ret.lines;
    for i := 0 to |lines|
      invariant s == AddReturned(gstin, start, ret.invoice, lines[..i])
    {
      assert lines[..i + 1][..i] == lines[..i];
      if InSummary(gstin, ret.invoice, lines[i].saleLine) {
        s := AddLine(gstin, s, ret.invoice, lines[i].saleLine, lines[i].amounts, true);
      }
    }
    assert lines[..|lines|] == lines;
  }
}
