/** GSTR-1's summaries row by row (apps/api/src/gst/gstr1.ts): small sales by place and rate, and nil-rated and the like by kind. */
module SummaryRows {
  import opened Gstr1
  import opened Gstr1Rows
  import opened OutboxRows

  // ----- Which row a line counts in

  /** Taxable lines of invoices not listed one by one count by place and rate. */
  ghost predicate InSmall(gstin: string, invoice: GstInvoice, line: Supplied, key: B2csKey) {
    && line.supply == Taxable && !Registered(invoice) && !Large(invoice, gstin)
    && (key.inter <==> Crosses(invoice, gstin)) && key.pos == PlaceOf(invoice, gstin) && key.rate == line.rate
  }

  /** Any other line counts by its kind, by who bought it and whether it went to another state. */
  ghost predicate InNil(gstin: string, invoice: GstInvoice, line: Supplied, key: NilKey) {
    line.supply != Taxable && (key.registered <==> Registered(invoice)) && (key.inter <==> Crosses(invoice, gstin))
  }

  // ----- Sums over the books

  /** What an invoice's lines count in a row. */
  ghost function SmallSum(gstin: string, invoice: GstInvoice, lines: seq<Supplied>, key: B2csKey): (r: Amounts) {
    if lines == [] then Amounts(0, 0, 0, 0)
    else
      var before, last := SmallSum(gstin, invoice, lines[..|lines| - 1], key), lines[|lines| - 1];
      if InSmall(gstin, invoice, last, key) then
        Amounts(before.txval + last.amounts.txval, before.iamt + last.amounts.iamt, before.camt + last.amounts.camt, before.samt + last.amounts.samt)
      else before
  }

  ghost function NilSum(gstin: string, invoice: GstInvoice, lines: seq<Supplied>, key: NilKey, supply: SupplyType): (r: int) {
    if lines == [] then 0
    else
      var last := lines[|lines| - 1];
      NilSum(gstin, invoice, lines[..|lines| - 1], key, supply)
      + if InNil(gstin, invoice, last, key) && last.supply == supply then last.amounts.txval else 0
  }

  ghost predicate SomeSmall(gstin: string, invoice: GstInvoice, lines: seq<Supplied>, key: B2csKey) {
    exists line :: line in lines && InSmall(gstin, invoice, line, key)
  }

  ghost predicate SomeNil(gstin: string, invoice: GstInvoice, lines: seq<Supplied>, key: NilKey) {
    exists line :: line in lines && InNil(gstin, invoice, line, key)
  }

  /** Sales less credit notes, of what is reported. */
  ghost function SmallSold(gstin: string, invoices: seq<GstInvoice>, key: B2csKey): (r: Amounts) {
    if invoices == [] then Amounts(0, 0, 0, 0)
    else
      var before, last := SmallSold(gstin, invoices[..|invoices| - 1], key), invoices[|invoices| - 1];
      if IsReported(last) then before.Plus(SmallSum(gstin, last, Sold(last.lines), key)) else before
  }

  ghost function SmallBack(gstin: string, notes: seq<GstReturn>, key: B2csKey): (r: Amounts) {
    if notes == [] then Amounts(0, 0, 0, 0)
    else
      var before, last := SmallBack(gstin, notes[..|notes| - 1], key), notes[|notes| - 1];
      if NoteReported(last) then before.Plus(SmallSum(gstin, last.invoice, GivenBack(last.lines), key)) else before
  }

  ghost function NilSold(gstin: string, invoices: seq<GstInvoice>, key: NilKey, supply: SupplyType): (r: int) {
    if invoices == [] then 0
    else
      var last := invoices[|invoices| - 1];
      NilSold(gstin, invoices[..|invoices| - 1], key, supply) + if IsReported(last) then NilSum(gstin, last, Sold(last.lines), key, supply) else 0
  }

  ghost function NilBack(gstin: string, notes: seq<GstReturn>, key: NilKey, supply: SupplyType): (r: int) {
    if notes == [] then 0
    else
      var last := notes[|notes| - 1];
      NilBack(gstin, notes[..|notes| - 1], key, supply) + if NoteReported(last) then NilSum(gstin, last.invoice, GivenBack(last.lines), key, supply) else 0
  }

  ghost function NilOf(row: NilRow, supply: SupplyType): (r: int) {
    match supply
    case NilRated => row.nilRated
    case Exempt => row.exempt
    case NonGst => row.nonGst
    case Taxable => 0
  }

  function Less(a: Amounts, b: Amounts): (r: Amounts) { Amounts(a.txval - b.txval, a.iamt - b.iamt, a.camt - b.camt, a.samt - b.samt) }

  // ----- One line

  function Kind(line: GstLine, amounts: Amounts): (r: Supplied) { Supplied(line.supplyType, line.taxRate, amounts) }

  /** What summing one line up, or one given back, does to one row of each summary; a line listed elsewhere does nothing. */
  lemma LineCounts(gstin: string, s: Sections, invoice: GstInvoice, line: GstLine, amounts: Amounts, back: bool, small: B2csKey, nil: NilKey, supply: SupplyType)
    ensures var r := if InSummary(gstin, invoice, line) then AddLine(gstin, s, invoice, line, amounts, back) else s;
            var was, row := AmountsAt(s.b2cs, small), AmountsAt(r.b2cs, small);
            && row == (if !InSmall(gstin, invoice, Kind(line, amounts), small) then was else if back then Less(was, amounts) else was.Plus(amounts))
            && (small in r.b2cs <==> small in s.b2cs || InSmall(gstin, invoice, Kind(line, amounts), small))
            && NilOf(NilAt(r, nil), supply) == NilOf(NilAt(s, nil), supply)
                 + (if !InNil(gstin, invoice, Kind(line, amounts), nil) || line.supplyType != supply then 0 else if back then -amounts.txval else amounts.txval)
            && (nil in r.nilRows <==> nil in s.nilRows || InNil(gstin, invoice, Kind(line, amounts), nil))
  {
    hide AddLine, InSummary, InSmall, InNil, NilAt, NilOf, AmountsAt;
    SmallCounts(gstin, s, invoice, line, amounts, back, small);
    NilCounts(gstin, s, invoice, line, amounts, back, nil, supply);
  }

  lemma SmallCounts(gstin: string, s: Sections, invoice: GstInvoice, line: GstLine, amounts: Amounts, back: bool, small: B2csKey)
    ensures var r := if InSummary(gstin, invoice, line) then AddLine(gstin, s, invoice, line, amounts, back) else s;
            var was, row := AmountsAt(s.b2cs, small), AmountsAt(r.b2cs, small);
            && row == (if !InSmall(gstin, invoice, Kind(line, amounts), small) then was else if back then Less(was, amounts) else was.Plus(amounts))
            && (small in r.b2cs <==> small in s.b2cs || InSmall(gstin, invoice, Kind(line, amounts), small))
  {
    hide PlaceOfSupply, IsInterState, IsB2b, IsB2cl, Registered, Large, Crosses, PlaceOf, AddNil;
    Belongs(invoice, gstin);
  }

  lemma NilCounts(gstin: string, s: Sections, invoice: GstInvoice, line: GstLine, amounts: Amounts, back: bool, nil: NilKey, supply: SupplyType)
    ensures var r := if InSummary(gstin, invoice, line) then AddLine(gstin, s, invoice, line, amounts, back) else s;
            && NilOf(NilAt(r, nil), supply) == NilOf(NilAt(s, nil), supply)
                 + (if !InNil(gstin, invoice, Kind(line, amounts), nil) || line.supplyType != supply then 0 else if back then -amounts.txval else amounts.txval)
            && (nil in r.nilRows <==> nil in s.nilRows || InNil(gstin, invoice, Kind(line, amounts), nil))
  {
    hide PlaceOfSupply, IsInterState, IsB2b, IsB2cl, Registered, Large, Crosses, PlaceOf, AmountsAt;
    Belongs(invoice, gstin);
  }

  lemma SomeNext(gstin: string, invoice: GstInvoice, lines: seq<Supplied>, small: B2csKey, nil: NilKey)
    requires lines != []
    ensures var n := |lines| - 1;
            && SmallSum(gstin, invoice, lines, small)
                 == (if InSmall(gstin, invoice, lines[n], small) then SmallSum(gstin, invoice, lines[..n], small).Plus(lines[n].amounts)
                     else SmallSum(gstin, invoice, lines[..n], small))
            && (forall supply :: NilSum(gstin, invoice, lines, nil, supply) == NilSum(gstin, invoice, lines[..n], nil, supply)
                 + if InNil(gstin, invoice, lines[n], nil) && lines[n].supply == supply then lines[n].amounts.txval else 0)
            && (SomeSmall(gstin, invoice, lines, small) <==> SomeSmall(gstin, invoice, lines[..n], small) || InSmall(gstin, invoice, lines[n], small))
            && (SomeNil(gstin, invoice, lines, nil) <==> SomeNil(gstin, invoice, lines[..n], nil) || InNil(gstin, invoice, lines[n], nil))
  {
    hide InSmall, InNil;
    var n := |lines| - 1;
    assert lines == lines[..n] + [lines[n]];
    assert lines[n] in lines;
  }

  // ----- One invoice, one credit note

  lemma {:induction false} LinesCount(gstin: string, s: Sections, invoice: GstInvoice, lines: seq<GstLine>, small: B2csKey, nil: NilKey, supply: SupplyType)
    ensures var r, sold := AddLines(gstin, s, invoice, lines), Sold(lines);
            && AmountsAt(r.b2cs, small) == AmountsAt(s.b2cs, small).Plus(SmallSum(gstin, invoice, sold, small))
            && (small in r.b2cs <==> small in s.b2cs || SomeSmall(gstin, invoice, sold, small))
            && NilOf(NilAt(r, nil), supply) == NilOf(NilAt(s, nil), supply) + NilSum(gstin, invoice, sold, nil, supply)
            && (nil in r.nilRows <==> nil in s.nilRows || SomeNil(gstin, invoice, sold, nil))
  {
    hide AddLine, InSummary, InSmall, InNil, SomeSmall, SomeNil, NilAt, NilOf, AmountsAt, SmallSum, NilSum;
    if lines == [] {
      NoneThere(gstin, invoice, small, nil);
    } else {
      var n := |lines| - 1;
      LinesCount(gstin, s, invoice, lines[..n], small, nil, supply);
      assert Sold(lines)[..n] == Sold(lines[..n]) && Sold(lines)[n] == Kind(lines[n], lines[n].amounts);
      LineCounts(gstin, AddLines(gstin, s, invoice, lines[..n]), invoice, lines[n], lines[n].amounts, false, small, nil, supply);
      SomeNext(gstin, invoice, Sold(lines), small, nil);
    }
  }

  lemma NoneThere(gstin: string, invoice: GstInvoice, small: B2csKey, nil: NilKey)
    ensures !SomeSmall(gstin, invoice, [], small) && !SomeNil(gstin, invoice, [], nil)
    ensures SmallSum(gstin, invoice, [], small) == ZERO && forall supply :: NilSum(gstin, invoice, [], nil, supply) == 0
  {
  }

  lemma {:induction false} ReturnedCount(gstin: string, s: Sections, invoice: GstInvoice, lines: seq<GstReturnLine>, small: B2csKey, nil: NilKey, supply: SupplyType)
    ensures var r, back := AddReturned(gstin, s, invoice, lines), GivenBack(lines);
            && AmountsAt(r.b2cs, small) == Less(AmountsAt(s.b2cs, small), SmallSum(gstin, invoice, back, small))
            && (small in r.b2cs <==> small in s.b2cs || SomeSmall(gstin, invoice, back, small))
            && NilOf(NilAt(r, nil), supply) == NilOf(NilAt(s, nil), supply) - NilSum(gstin, invoice, back, nil, supply)
            && (nil in r.nilRows <==> nil in s.nilRows || SomeNil(gstin, invoice, back, nil))
  {
    hide AddLine, InSummary, InSmall, InNil, SomeSmall, SomeNil, NilAt, NilOf, AmountsAt, SmallSum, NilSum;
    if lines == [] {
      NoneThere(gstin, invoice, small, nil);
    } else {
      var n := |lines| - 1;
      ReturnedCount(gstin, s, invoice, lines[..n], small, nil, supply);
      assert GivenBack(lines)[..n] == GivenBack(lines[..n]) && GivenBack(lines)[n] == Kind(lines[n].saleLine, lines[n].amounts);
      LineCounts(gstin, AddReturned(gstin, s, invoice, lines[..n]), invoice, lines[n].saleLine, lines[n].amounts, true, small, nil, supply);
      SomeNext(gstin, invoice, GivenBack(lines), small, nil);
    }
  }

  lemma InvoiceBeside(gstin: string, s: Sections, invoice: GstInvoice)
    ensures ListInvoice(gstin, s, invoice).b2cs == s.b2cs && ListInvoice(gstin, s, invoice).nilRows == s.nilRows
    ensures forall key :: NilAt(ListInvoice(gstin, s, invoice), key) == NilAt(s, key)
  {
    hide ItemsByRate, TaxableLines, NarrowItems, DocsAt, PlaceOfSupply, IsB2cl;
  }

  lemma NoteBeside(gstin: string, s: Sections, ret: GstReturn)
    ensures ListReturn(gstin, s, ret).b2cs == s.b2cs && ListReturn(gstin, s, ret).nilRows == s.nilRows
    ensures forall key :: NilAt(ListReturn(gstin, s, ret), key) == NilAt(s, key)
  {
    hide ItemsByRate, TaxableReturned, NarrowItems, DocsAt, PlaceOfSupply, IsB2cl;
  }

  // ----- The whole return

  ghost predicate SmallThere(gstin: string, invoices: seq<GstInvoice>, notes: seq<GstReturn>, key: B2csKey) {
    || (exists invoice :: invoice in invoices && IsReported(invoice) && SomeSmall(gstin, invoice, Sold(invoice.lines), key))
    || (exists ret :: ret in notes && NoteReported(ret) && SomeSmall(gstin, ret.invoice, GivenBack(ret.lines), key))
  }

  ghost predicate NilThere(gstin: string, invoices: seq<GstInvoice>, notes: seq<GstReturn>, key: NilKey) {
    || (exists invoice :: invoice in invoices && IsReported(invoice) && SomeNil(gstin, invoice, Sold(invoice.lines), key))
    || (exists ret :: ret in notes && NoteReported(ret) && SomeNil(gstin, ret.invoice, GivenBack(ret.lines), key))
  }

  lemma {:induction false} SalesCount(gstin: string, invoices: seq<GstInvoice>, small: B2csKey, nil: NilKey, supply: SupplyType)
    ensures var r := AddInvoices(gstin, NO_SECTIONS, Reported(invoices));
            && AmountsAt(r.b2cs, small) == SmallSold(gstin, invoices, small) && (small in r.b2cs <==> SmallThere(gstin, invoices, [], small))
            && NilOf(NilAt(r, nil), supply) == NilSold(gstin, invoices, nil, supply) && (nil in r.nilRows <==> NilThere(gstin, invoices, [], nil))
  {
    hide AddLines, ListInvoice, SmallSum, NilSum, SomeSmall, SomeNil, Reported, AddInvoices, IsReported, NilAt, NilOf, AmountsAt, SmallThere, NilThere, Sold;
    if invoices == [] {
      NothingReported(gstin);
    } else {
      var n := |invoices| - 1;
      var last, before := invoices[n], AddInvoices(gstin, NO_SECTIONS, Reported(invoices[..n]));
      assert invoices == invoices[..n] + [last];
      SalesCount(gstin, invoices[..n], small, nil, supply);
      ReportedNext(invoices);
      MoreThere(gstin, invoices[..n], last, small, nil);
      if IsReported(last) {
        AddNext(gstin, NO_SECTIONS, Reported(invoices[..n]), last);
        LinesCount(gstin, ListInvoice(gstin, before, last), last, last.lines, small, nil, supply);
        InvoiceBeside(gstin, before, last);
      }
    }
  }

  lemma NothingReported(gstin: string)
    ensures AddInvoices(gstin, NO_SECTIONS, Reported([])) == NO_SECTIONS
    ensures forall key :: AmountsAt(NO_SECTIONS.b2cs, key) == Amounts(0, 0, 0, 0) && !SmallThere(gstin, [], [], key)
    ensures forall key, supply :: NilOf(NilAt(NO_SECTIONS, key), supply) == 0
    ensures forall key :: !NilThere(gstin, [], [], key)
  {
  }

  lemma MoreThere(gstin: string, invoices: seq<GstInvoice>, last: GstInvoice, small: B2csKey, nil: NilKey)
    ensures SmallThere(gstin, invoices + [last], [], small) <==>
            SmallThere(gstin, invoices, [], small) || (IsReported(last) && SomeSmall(gstin, last, Sold(last.lines), small))
    ensures NilThere(gstin, invoices + [last], [], nil) <==>
            NilThere(gstin, invoices, [], nil) || (IsReported(last) && SomeNil(gstin, last, Sold(last.lines), nil))
  {
    hide SomeSmall, SomeNil, IsReported;
    assert last in invoices + [last];
  }

  lemma MoreNotesThere(gstin: string, invoices: seq<GstInvoice>, notes: seq<GstReturn>, last: GstReturn, small: B2csKey, nil: NilKey)
    ensures SmallThere(gstin, invoices, notes + [last], small) <==>
            SmallThere(gstin, invoices, notes, small) || (NoteReported(last) && SomeSmall(gstin, last.invoice, GivenBack(last.lines), small))
    ensures NilThere(gstin, invoices, notes + [last], nil) <==>
            NilThere(gstin, invoices, notes, nil) || (NoteReported(last) && SomeNil(gstin, last.invoice, GivenBack(last.lines), nil))
  {
    hide SomeSmall, SomeNil, NoteReported;
    assert last in notes + [last];
  }

  lemma {:induction false} NotesCount(gstin: string, invoices: seq<GstInvoice>, notes: seq<GstReturn>, small: B2csKey, nil: NilKey, supply: SupplyType)
    ensures var r := AddReturns(gstin, AddInvoices(gstin, NO_SECTIONS, Reported(invoices)), ReportedReturns(notes));
            && AmountsAt(r.b2cs, small) == Less(SmallSold(gstin, invoices, small), SmallBack(gstin, notes, small))
            && (small in r.b2cs <==> SmallThere(gstin, invoices, notes, small))
            && NilOf(NilAt(r, nil), supply) == NilSold(gstin, invoices, nil, supply) - NilBack(gstin, notes, nil, supply)
            && (nil in r.nilRows <==> NilThere(gstin, invoices, notes, nil))
  {
    hide AddReturned, ListReturn, SmallSum, NilSum, SomeSmall, SomeNil, ReportedReturns, AddReturns, AddInvoices, NoteReported, SmallSold, NilSold, SmallThere, NilThere, NilAt, NilOf, AmountsAt,
      GivenBack;
    var sold := AddInvoices(gstin, NO_SECTIONS, Reported(invoices));
    if notes == [] {
      SalesCount(gstin, invoices, small, nil, supply);
      NoNotesReported(gstin, sold);
    } else {
      var n := |notes| - 1;
      var last, before := notes[n], AddReturns(gstin, sold, ReportedReturns(notes[..n]));
      assert notes == notes[..n] + [last];
      NotesCount(gstin, invoices, notes[..n], small, nil, supply);
      NotesNext(notes);
      MoreNotesThere(gstin, invoices, notes[..n], last, small, nil);
      if NoteReported(last) {
        AddNoteNext(gstin, sold, ReportedReturns(notes[..n]), last);
        ReturnedCount(gstin, ListReturn(gstin, before, last), last.invoice, last.lines, small, nil, supply);
        NoteBeside(gstin, before, last);
      }
    }
  }

  lemma NoNotesReported(gstin: string, s: Sections)
    ensures AddReturns(gstin, s, ReportedReturns([])) == s
  {
  }

  /**
   * Each row of the summary of small sales is its lines less those given back, in value and each tax, and each row of the
   * nil section is its lines' value less what was given back, by kind; and there are no other rows.
   */
  lemma SummaryRowsAre(gstin: string, invoices: seq<GstInvoice>, notes: seq<GstReturn>, small: B2csKey, nil: NilKey)
    ensures var s := Built(gstin, invoices, notes);
            && AmountsAt(s.b2cs, small) == Less(SmallSold(gstin, invoices, small), SmallBack(gstin, notes, small))
            && (small in s.b2cs <==> SmallThere(gstin, invoices, notes, small))
            && NilAt(s, nil).nilRated == NilSold(gstin, invoices, nil, NilRated) - NilBack(gstin, notes, nil, NilRated)
            && NilAt(s, nil).exempt == NilSold(gstin, invoices, nil, Exempt) - NilBack(gstin, notes, nil, Exempt)
            && NilAt(s, nil).nonGst == NilSold(gstin, invoices, nil, NonGst) - NilBack(gstin, notes, nil, NonGst)
            && (nil in s.nilRows <==> NilThere(gstin, invoices, notes, nil))
  {
    hide AddInvoices, AddReturns, AddHsnInvoices, AddHsnReturns, SmallSold, SmallBack, NilSold, NilBack, SmallThere, NilThere;
    NotesCount(gstin, invoices, notes, small, nil, NilRated);
    NotesCount(gstin, invoices, notes, small, nil, Exempt);
    NotesCount(gstin, invoices, notes, small, nil, NonGst);
    var sales, back := Reported(invoices), ReportedReturns(notes);
    var listed := AddReturns(gstin, AddInvoices(gstin, NO_SECTIONS, sales), back);
    HsnSalesBeside(listed, sales);
    HsnNotesBeside(AddHsnInvoices(listed, sales), back);
  }
}
