/** GSTR-1's HSN summary row by row (apps/api/src/gst/gstr1.ts): quantities and money against the books. */
module HsnRows {
  import opened Gstr1
  import opened GstBooks

  /** The row a line belongs in, if it has an HSN code and a unit. */
  predicate InRow(invoice: GstInvoice, line: GstLine, key: HsnKey) {
    line.hsnCode != "" && line.uqc != "" && key == HsnKey(IsB2b(invoice), line.hsnCode, line.uqc, line.taxRate)
  }

  /** A figure that adds up: quantity, value or a tax. */
  ghost predicate Figure(g: HsnRow -> int) {
    && g(HsnRow(0, ZERO)) == 0
    && (forall row: HsnRow, qty: int, a: Amounts ::
          g(HsnRow(row.qty + qty, row.amounts.Plus(a))) == g(row) + g(HsnRow(qty, a)))
    && (forall qty: int, a: Amounts :: g(HsnRow(-qty, a.Signed(true))) == -g(HsnRow(qty, a)))
  }

  const OF_QTY := (row: HsnRow) => row.qty
  ghost function OfMoney(f: Amounts -> int): HsnRow -> int { (row: HsnRow) => f(row.amounts) }

  lemma Figures(f: Amounts -> int)
    requires Linear(f)
    ensures Figure(OF_QTY) && Figure(OfMoney(f))
  {
  }

  ghost function SoldIn(invoice: GstInvoice, lines: seq<GstLine>, key: HsnKey, g: HsnRow -> int): (r: int) {
    if lines == [] then 0
    else
      var last := lines[|lines| - 1];
      SoldIn(invoice, lines[..|lines| - 1], key, g) + if InRow(invoice, last, key) then g(HsnRow(last.qty, last.amounts)) else 0
  }

  ghost function BackIn(invoice: GstInvoice, lines: seq<GstReturnLine>, key: HsnKey, g: HsnRow -> int): (r: int) {
    if lines == [] then 0
    else
      var last := lines[|lines| - 1];
      BackIn(invoice, lines[..|lines| - 1], key, g) + if InRow(invoice, last.saleLine, key) then g(HsnRow(last.qty, last.amounts)) else 0
  }

  ghost function AllSoldIn(invoices: seq<GstInvoice>, key: HsnKey, g: HsnRow -> int): (r: int) {
    if invoices == [] then 0
    else AllSoldIn(invoices[..|invoices| - 1], key, g) + SoldIn(invoices[|invoices| - 1], invoices[|invoices| - 1].lines, key, g)
  }

  ghost function AllBackIn(givenBack: seq<GstReturn>, key: HsnKey, g: HsnRow -> int): (r: int) {
    if givenBack == [] then 0
    else
      AllBackIn(givenBack[..|givenBack| - 1], key, g)
      + BackIn(givenBack[|givenBack| - 1].invoice, givenBack[|givenBack| - 1].lines, key, g)
  }

  lemma OneLine(s: Sections, invoice: GstInvoice, line: GstLine, qty: int, amounts: Amounts, back: bool, key: HsnKey, g: HsnRow -> int)
    requires Figure(g)
    ensures g(HsnAt(AddHsn(s, invoice, line, qty, amounts, back), key)) == g(HsnAt(s, key))
            + if !InRow(invoice, line, key) then 0 else if back then -g(HsnRow(qty, amounts)) else g(HsnRow(qty, amounts))
  {
    if InRow(invoice, line, key) {
      var row, signed := HsnAt(s, key), if back then -qty else qty;
      assert g(HsnRow(row.qty + signed, row.amounts.Plus(amounts.Signed(back)))) == g(row) + g(HsnRow(signed, amounts.Signed(back)));
    }
  }

  lemma {:induction false} LinesIn(s: Sections, invoice: GstInvoice, lines: seq<GstLine>, key: HsnKey, g: HsnRow -> int)
    requires Figure(g)
    ensures g(HsnAt(AddHsnLines(s, invoice, lines), key)) == g(HsnAt(s, key)) + SoldIn(invoice, lines, key, g)
  {
    hide AddHsn, HsnAt, InRow, Figure;
    if lines != [] {
      var n := |lines| - 1;
      LinesIn(s, invoice, lines[..n], key, g);
      OneLine(AddHsnLines(s, invoice, lines[..n]), invoice, lines[n], lines[n].qty, lines[n].amounts, false, key, g);
    }
  }

  lemma {:induction false} ReturnedIn(s: Sections, invoice: GstInvoice, lines: seq<GstReturnLine>, key: HsnKey, g: HsnRow -> int)
    requires Figure(g)
    ensures g(HsnAt(AddHsnReturned(s, invoice, lines), key)) == g(HsnAt(s, key)) - BackIn(invoice, lines, key, g)
  {
    hide AddHsn, HsnAt, InRow, Figure;
    if lines != [] {
      var n := |lines| - 1;
      ReturnedIn(s, invoice, lines[..n], key, g);
      OneLine(AddHsnReturned(s, invoice, lines[..n]), invoice, lines[n].saleLine, lines[n].qty, lines[n].amounts, true, key, g);
    }
  }

  lemma {:induction false} SalesIn(s: Sections, invoices: seq<GstInvoice>, key: HsnKey, g: HsnRow -> int)
    requires Figure(g)
    ensures g(HsnAt(AddHsnInvoices(s, invoices), key)) == g(HsnAt(s, key)) + AllSoldIn(invoices, key, g)
  {
    hide AddHsnLines, HsnAt, SoldIn, Figure;
    if invoices != [] {
      var n := |invoices| - 1;
      SalesIn(s, invoices[..n], key, g);
      LinesIn(AddHsnInvoices(s, invoices[..n]), invoices[n], invoices[n].lines, key, g);
    }
  }

  lemma {:induction false} NotesIn(s: Sections, givenBack: seq<GstReturn>, key: HsnKey, g: HsnRow -> int)
    requires Figure(g)
    ensures g(HsnAt(AddHsnReturns(s, givenBack), key)) == g(HsnAt(s, key)) - AllBackIn(givenBack, key, g)
  {
    hide AddHsnReturned, HsnAt, BackIn, Figure;
    if givenBack != [] {
      var n := |givenBack| - 1;
      NotesIn(s, givenBack[..n], key, g);
      ReturnedIn(AddHsnReturns(s, givenBack[..n]), givenBack[n].invoice, givenBack[n].lines, key, g);
    }
  }

  /**
   * Each row of the summary is the lines of reported bills with its kind of buyer, HSN code, unit and rate,
   * less those returned: in quantity, in value and in each tax.
   */
  lemma HsnRowIsBooks(gstin: string, invoices: seq<GstInvoice>, givenBack: seq<GstReturn>, key: HsnKey, f: Amounts -> int)
    requires Linear(f)
    ensures var row := HsnAt(Built(gstin, invoices, givenBack), key);
            var sales, back := Reported(invoices), ReportedReturns(givenBack);
            && row.qty == AllSoldIn(sales, key, OF_QTY) - AllBackIn(back, key, OF_QTY)
            && f(row.amounts) == AllSoldIn(sales, key, OfMoney(f)) - AllBackIn(back, key, OfMoney(f))
  {
    hide AddInvoices, AddReturns, AddHsnInvoices, AddHsnReturns, AllSoldIn, AllBackIn, Figure;
    var sales, back := Reported(invoices), ReportedReturns(givenBack);
    var listed := AddReturns(gstin, AddInvoices(gstin, NO_SECTIONS, sales), back);
    SectionsBeside(gstin, sales, back);
    Figures(f);
    SalesIn(listed, sales, key, OF_QTY);
    NotesIn(AddHsnInvoices(listed, sales), back, key, OF_QTY);
    SalesIn(listed, sales, key, OfMoney(f));
    NotesIn(AddHsnInvoices(listed, sales), back, key, OfMoney(f));
  }
}
