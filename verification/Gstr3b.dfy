/**
 * GSTR-3B's outward tables from GSTR-1's sections (apps/api/src/gst/gstr3b.ts), and what they come to in
 * terms of the books alone.
 */
module Gstr3b {
  import opened Gstr1
  import opened GstBooks
  import opened OutboxRows

  /** `interState`: by place of supply, value and IGST. */
  datatype Tables = Tables(taxable: Amounts, nilExempt: int, nonGst: int, interState: map<string, Amounts>)

  // ----- Adding up a section, whichever way it is measured

  lemma HasKey<K, V>(m: map<K, V>)
    requires m != map[]
    ensures exists key :: key in m
  {
    assert m.Keys == {} ==> m == map[];
  }

  method SumItems(items: Items) returns (sum: Amounts)
    ensures forall f: Amounts -> int :: Linear(f) ==> f(sum) == ItemsSum(items, f)
  {
    hide MapTotal;
    sum := ZERO;
    var rest := items;
    while rest != map[]
      invariant forall f: Amounts -> int :: Linear(f) ==> f(sum) + ItemsSum(rest, f) == ItemsSum(items, f)
      decreases |rest|
    {
      HasKey(rest);
      var rate :| rate in rest;
      Fewer(rest, rate);
      forall f: Amounts -> int | Linear(f) ensures f(sum.Plus(rest[rate])) + ItemsSum(rest - {rate}, f) == ItemsSum(items, f) {
        MapWithout(rest, Each<TaxRate>(f), rate);
      }
      sum := sum.Plus(rest[rate]);
      rest := rest - {rate};
    }
    forall f: Amounts -> int | Linear(f) ensures ItemsSum(map[], f) == 0 { NoneTotal(Each<TaxRate>(f)); }
  }

  lemma DocsNext(docs: seq<Doc>, i: nat)
    requires i < |docs|
    ensures forall f: Amounts -> int :: DocsSum(docs[..i + 1], f) == DocsSum(docs[..i], f) + ItemsSum(docs[i].items, f)
    ensures forall f: Amounts -> int, pos ::
              NotesAt(docs[..i + 1], pos, f) == NotesAt(docs[..i], pos, f) + if docs[i].pos == pos then ItemsSum(docs[i].items, f) else 0
  {
    assert docs[..i + 1][..i] == docs[..i];
  }

  method SumDocs(docs: seq<Doc>) returns (sum: Amounts)
    ensures forall f: Amounts -> int :: Linear(f) ==> f(sum) == DocsSum(docs, f)
  {
    hide DocsSum, ItemsSum;
    sum := ZERO;
    NoDocs();
    for i := 0 to |docs|
      invariant forall f: Amounts -> int :: Linear(f) ==> f(sum) == DocsSum(docs[..i], f)
    {
      DocsNext(docs, i);
      var items := SumItems(docs[i].items);
      sum := sum.Plus(items);
    }
    assert docs[..|docs|] == docs;
  }

  lemma NoDocs()
    ensures forall f: Amounts -> int :: DocsSum([], f) == 0
    ensures forall f: Amounts -> int, pos :: NotesAt([], pos, f) == 0
  {
  }

  method SumSection(section: map<string, seq<Doc>>) returns (sum: Amounts)
    ensures forall f: Amounts -> int :: Linear(f) ==> f(sum) == SectionSum(section, f)
  {
    hide MapTotal, DocsSum;
    sum := ZERO;
    var rest := section;
    while rest != map[]
      invariant forall f: Amounts -> int :: Linear(f) ==> f(sum) + SectionSum(rest, f) == SectionSum(section, f)
      decreases |rest|
    {
      HasKey(rest);
      var key :| key in rest;
      Fewer(rest, key);
      var docs := SumDocs(rest[key]);
      forall f: Amounts -> int | Linear(f) ensures f(sum.Plus(docs)) + SectionSum(rest - {key}, f) == SectionSum(section, f) {
        MapWithout(rest, DocsOf(f), key);
      }
      sum := sum.Plus(docs);
      rest := rest - {key};
    }
    forall f: Amounts -> int | Linear(f) ensures SectionSum(map[], f) == 0 { NoneTotal(DocsOf(f)); }
  }

  method SumB2cs(b2cs: map<B2csKey, Amounts>) returns (sum: Amounts)
    ensures forall f: Amounts -> int :: Linear(f) ==> f(sum) == B2csSum(b2cs, f)
  {
    hide MapTotal;
    sum := ZERO;
    var rest := b2cs;
    while rest != map[]
      invariant forall f: Amounts -> int :: Linear(f) ==> f(sum) + B2csSum(rest, f) == B2csSum(b2cs, f)
      decreases |rest|
    {
      HasKey(rest);
      var key :| key in rest;
      Fewer(rest, key);
      forall f: Amounts -> int | Linear(f) ensures f(sum.Plus(rest[key])) + B2csSum(rest - {key}, f) == B2csSum(b2cs, f) {
        MapWithout(rest, Each<B2csKey>(f), key);
      }
      sum := sum.Plus(rest[key]);
      rest := rest - {key};
    }
    forall f: Amounts -> int | Linear(f) ensures B2csSum(map[], f) == 0 { NoneTotal(Each<B2csKey>(f)); }
  }

  method SumUntaxed(s: Sections, nonGst: bool) returns (sum: int)
    ensures sum == OutwardUntaxed(s, nonGst)
  {
    hide MapTotal;
    sum := 0;
    var rest := s.nilRows;
    while rest != map[]
      invariant sum + MapTotal(rest, NilOf(nonGst)) == OutwardUntaxed(s, nonGst)
      decreases |rest|
    {
      HasKey(rest);
      var key :| key in rest;
      Fewer(rest, key);
      MapWithout(rest, NilOf(nonGst), key);
      sum := sum + if nonGst then rest[key].nonGst else rest[key].nilRated + rest[key].exempt;
      rest := rest - {key};
    }
    NoneTotal(NilOf(nonGst));
  }

  // ----- Table 3.2

  type Places = map<string, Amounts>

  function AddInter(table: Places, pos: string, amounts: Amounts): (r: Places) {
    table[pos := AmountsAt(table, pos).Plus(Narrow(amounts))]
  }

  lemma AddedInter(table: Places, pos: string, amounts: Amounts, at: string, f: Amounts -> int)
    requires ShownNarrow(f)
    ensures f(AmountsAt(AddInter(table, pos, amounts), at)) == f(AmountsAt(table, at)) + if at == pos then f(amounts) else 0
  {
  }

  method InterFromB2cs(b2cs: map<B2csKey, Amounts>) returns (table: Places)
    ensures forall pos, f: Amounts -> int :: ShownNarrow(f) ==> f(AmountsAt(table, pos)) == MapTotal(b2cs, InterAt(pos, f))
  {
    hide MapTotal, Narrow, AddInter, ShownNarrow;
    table := map[];
    var rest := b2cs;
    NoPlaces();
    while rest != map[]
      invariant forall pos, f: Amounts -> int :: ShownNarrow(f) ==>
        f(AmountsAt(table, pos)) + MapTotal(rest, InterAt(pos, f)) == MapTotal(b2cs, InterAt(pos, f))
      decreases |rest|
    {
      HasKey(rest);
      var key :| key in rest;
      Fewer(rest, key);
      var next := if key.inter then AddInter(table, key.pos, rest[key]) else table;
      forall pos, f: Amounts -> int | ShownNarrow(f)
        ensures f(AmountsAt(next, pos)) + MapTotal(rest - {key}, InterAt(pos, f)) == MapTotal(b2cs, InterAt(pos, f))
      {
        MapWithout(rest, InterAt(pos, f), key);
        AddedInter(table, key.pos, rest[key], pos, f);
      }
      table := next;
      rest := rest - {key};
    }
    forall pos, f: Amounts -> int | ShownNarrow(f) ensures MapTotal(map[], InterAt(pos, f)) == 0 { NoneTotal(InterAt(pos, f)); }
  }

  lemma NoPlaces()
    ensures forall pos: string, f: Amounts -> int :: ShownNarrow(f) ==> f(AmountsAt(map[], pos)) == 0
  {
  }

  method InterFromB2cl(start: Places, b2cl: map<string, seq<Doc>>) returns (table: Places)
    ensures forall pos, f: Amounts -> int :: ShownNarrow(f) ==>
      f(AmountsAt(table, pos)) == f(AmountsAt(start, pos)) + DocsSum(DocsAt(b2cl, pos), f)
  {
    hide DocsSum, Narrow, AddInter;
    table := start;
    var rest := b2cl;
    NoDocs();
    while rest != map[]
      invariant rest.Keys <= b2cl.Keys && forall pos :: pos in rest ==> rest[pos] == b2cl[pos]
      invariant forall pos, f: Amounts -> int :: ShownNarrow(f) ==>
        f(AmountsAt(table, pos)) + DocsSum(DocsAt(rest, pos), f) == f(AmountsAt(start, pos)) + DocsSum(DocsAt(b2cl, pos), f)
      decreases |rest|
    {
      HasKey(rest);
      var key :| key in rest;
      Fewer(rest, key);
      var docs := SumDocs(rest[key]);
      var next := AddInter(table, key, docs);
      forall pos, f: Amounts -> int | ShownNarrow(f)
        ensures f(AmountsAt(next, pos)) + DocsSum(DocsAt(rest - {key}, pos), f) == f(AmountsAt(start, pos)) + DocsSum(DocsAt(b2cl, pos), f)
      {
        AddedInter(table, key, docs, pos, f);
      }
      table := next;
      rest := rest - {key};
    }
  }

  method InterLessNotes(start: Places, notes: seq<Doc>) returns (table: Places)
    ensures forall pos, f: Amounts -> int :: ShownNarrow(f) ==>
      f(AmountsAt(table, pos)) == f(AmountsAt(start, pos)) - NotesAt(notes, pos, f)
  {
    hide NotesAt, ItemsSum, Narrow, AddInter;
    table := start;
    NoDocs();
    for i := 0 to |notes|
      invariant forall pos, f: Amounts -> int :: ShownNarrow(f) ==>
        f(AmountsAt(table, pos)) == f(AmountsAt(start, pos)) - NotesAt(notes[..i], pos, f)
    {
      DocsNext(notes, i);
      var items := SumItems(notes[i].items);
      var next := AddInter(table, notes[i].pos, items.Signed(true));
      forall pos, f: Amounts -> int | ShownNarrow(f)
        ensures f(AmountsAt(next, pos)) == f(AmountsAt(start, pos)) - NotesAt(notes[..i + 1], pos, f)
      {
        AddedInter(table, notes[i].pos, items.Signed(true), pos, f);
      }
      table := next;
    }
    assert notes[..|notes|] == notes;
  }

  /** The outward tables, from the sections. */
  method BuildGstr3b(s: Sections) returns (t: Tables)
    ensures forall f: Amounts -> int :: Linear(f) ==> f(t.taxable) == OutwardTaxable(s, f)
    ensures t.nilExempt == OutwardUntaxed(s, false) && t.nonGst == OutwardUntaxed(s, true)
    ensures forall pos, f: Amounts -> int :: ShownNarrow(f) ==> f(AmountsAt(t.interState, pos)) == InterState(s, pos, f)
  {
    hide SectionSum, B2csSum, DocsSum, MapTotal, NotesAt, ShownNarrow;
    var b2b := SumSection(s.b2b);
    var cdnr := SumSection(s.cdnr);
    var b2cs := SumB2cs(s.b2cs);
    var b2cl := SumSection(s.b2cl);
    var cdnur := SumDocs(s.cdnur);
    var taxable := b2b.Plus(cdnr.Signed(true)).Plus(b2cs).Plus(b2cl).Plus(cdnur.Signed(true));
    var nilExempt := SumUntaxed(s, false);
    var nonGst := SumUntaxed(s, true);
    var table := InterFromB2cs(s.b2cs);
    table := InterFromB2cl(table, s.b2cl);
    table := InterLessNotes(table, s.cdnur);
    t := Tables(taxable, nilExempt, nonGst, table);
  }

  // ----- In terms of the books

  lemma {:induction false} SoldCombine(invoice: GstInvoice, lines: seq<GstLine>, a: Weight, b: Weight, c: Weight)
    requires forall i, l: GstLine, m: Amounts :: c(i, l, m) == a(i, l, m) + b(i, l, m)
    ensures SoldSum(invoice, lines, c) == SoldSum(invoice, lines, a) + SoldSum(invoice, lines, b)
  {
    if lines != [] { SoldCombine(invoice, lines[..|lines| - 1], a, b, c); }
  }

  lemma {:induction false} ReturnedCombine(invoice: GstInvoice, lines: seq<GstReturnLine>, a: Weight, b: Weight, c: Weight)
    requires forall i, l: GstLine, m: Amounts :: c(i, l, m) == a(i, l, m) + b(i, l, m)
    ensures ReturnedSum(invoice, lines, c) == ReturnedSum(invoice, lines, a) + ReturnedSum(invoice, lines, b)
  {
    if lines != [] { ReturnedCombine(invoice, lines[..|lines| - 1], a, b, c); }
  }

  lemma {:induction false} SalesCombine(invoices: seq<GstInvoice>, a: Weight, b: Weight, c: Weight)
    requires forall i, l: GstLine, m: Amounts :: c(i, l, m) == a(i, l, m) + b(i, l, m)
    ensures SalesSum(invoices, c) == SalesSum(invoices, a) + SalesSum(invoices, b)
  {
    if invoices != [] {
      SalesCombine(invoices[..|invoices| - 1], a, b, c);
      SoldCombine(invoices[|invoices| - 1], invoices[|invoices| - 1].lines, a, b, c);
    }
  }

  lemma {:induction false} BackCombine(givenBack: seq<GstReturn>, a: Weight, b: Weight, c: Weight)
    requires forall i, l: GstLine, m: Amounts :: c(i, l, m) == a(i, l, m) + b(i, l, m)
    ensures ReturnsSum(givenBack, c) == ReturnsSum(givenBack, a) + ReturnsSum(givenBack, b)
  {
    if givenBack != [] {
      BackCombine(givenBack[..|givenBack| - 1], a, b, c);
      ReturnedCombine(givenBack[|givenBack| - 1].invoice, givenBack[|givenBack| - 1].lines, a, b, c);
    }
  }

  lemma BooksCombine(invoices: seq<GstInvoice>, givenBack: seq<GstReturn>, a: Weight, b: Weight, c: Weight)
    requires forall i, l: GstLine, m: Amounts :: c(i, l, m) == a(i, l, m) + b(i, l, m)
    ensures Books(invoices, givenBack, c) == Books(invoices, givenBack, a) + Books(invoices, givenBack, b)
  {
    SalesCombine(Reported(invoices), a, b, c);
    BackCombine(ReportedReturns(givenBack), a, b, c);
  }

  /** What the sections leave out of a large inter-state bill's taxable lines. */
  ghost function LeftOut(gstin: string, f: Amounts -> int): Weight {
    (invoice: GstInvoice, line: GstLine, a: Amounts) =>
      if line.supplyType.Taxable? && IsB2cl(invoice, gstin) then f(a) - f(Narrow(a)) else 0
  }

  /**
   * Table 3.1(a) is the sum of the taxable lines of the period's reported bills, less the taxable lines
   * returned, but for what is left out of large inter-state bills. In value and IGST nothing is.
   */
  lemma TableIsDirectSum(gstin: string, invoices: seq<GstInvoice>, givenBack: seq<GstReturn>, f: Amounts -> int)
    requires Linear(f)
    ensures OutwardTaxable(Built(gstin, invoices, givenBack), f)
         == Books(invoices, givenBack, TaxableOf(f)) - Books(invoices, givenBack, LeftOut(gstin, f))
    ensures ShownNarrow(f) ==> Books(invoices, givenBack, LeftOut(gstin, f)) == 0
  {
    TaxableIsBooks(gstin, invoices, givenBack, f);
    BooksCombine(invoices, givenBack, TaxableShown(gstin, f), LeftOut(gstin, f), TaxableOf(f));
    if ShownNarrow(f) { NothingBooked(invoices, givenBack, LeftOut(gstin, f)); }
  }

  lemma NothingBooked(invoices: seq<GstInvoice>, givenBack: seq<GstReturn>, w: Weight)
    requires forall i, l: GstLine, m: Amounts :: w(i, l, m) == 0
    ensures Books(invoices, givenBack, w) == 0
  {
    BooksCombine(invoices, givenBack, w, w, w);
  }

  /** Lines sold into another state carry IGST only. */
  ghost predicate InterStateIgstOnly(gstin: string, invoices: seq<GstInvoice>, givenBack: seq<GstReturn>) {
    && (forall k, i :: 0 <= k < |invoices| && 0 <= i < |invoices[k].lines| && IsInterState(invoices[k], gstin) ==>
          invoices[k].lines[i].amounts.camt == 0 && invoices[k].lines[i].amounts.samt == 0)
    && (forall k, i :: 0 <= k < |givenBack| && 0 <= i < |givenBack[k].lines| && IsInterState(givenBack[k].invoice, gstin) ==>
          givenBack[k].lines[i].amounts.camt == 0 && givenBack[k].lines[i].amounts.samt == 0)
  }

  lemma NoTax(a: Amounts, f: Amounts -> int)
    requires (f == OF_CGST || f == OF_SGST) && a.camt == 0 && a.samt == 0
    ensures f(a) == 0 && f(Narrow(a)) == 0
  {
  }

  lemma LeavesNothing(gstin: string, invoice: GstInvoice, line: GstLine, a: Amounts, f: Amounts -> int)
    requires f == OF_CGST || f == OF_SGST
    requires IsInterState(invoice, gstin) ==> a.camt == 0 && a.samt == 0
    ensures LeftOut(gstin, f)(invoice, line, a) == 0
  {
    assert LeftOut(gstin, f)(invoice, line, a) == if line.supplyType.Taxable? && IsB2cl(invoice, gstin) then f(a) - f(Narrow(a)) else 0;
    assert IsB2cl(invoice, gstin) ==> IsInterState(invoice, gstin);
    if IsInterState(invoice, gstin) { NoTax(a, f); assert f(a) == 0; assert f(Narrow(a)) == 0; }
  }

  lemma {:induction false} SoldLeavesNothing(gstin: string, invoice: GstInvoice, lines: seq<GstLine>, f: Amounts -> int)
    requires f == OF_CGST || f == OF_SGST
    requires IsInterState(invoice, gstin) ==> forall i :: 0 <= i < |lines| ==> lines[i].amounts.camt == 0 && lines[i].amounts.samt == 0
    ensures SoldSum(invoice, lines, LeftOut(gstin, f)) == 0
  {
    if lines != [] {
      var n := |lines| - 1;
      SoldLeavesNothing(gstin, invoice, lines[..n], f);
      LeavesNothing(gstin, invoice, lines[n], lines[n].amounts, f);
    }
  }

  lemma {:induction false} ReturnedLeavesNothing(gstin: string, invoice: GstInvoice, lines: seq<GstReturnLine>, f: Amounts -> int)
    requires f == OF_CGST || f == OF_SGST
    requires IsInterState(invoice, gstin) ==> forall i :: 0 <= i < |lines| ==> lines[i].amounts.camt == 0 && lines[i].amounts.samt == 0
    ensures ReturnedSum(invoice, lines, LeftOut(gstin, f)) == 0
  {
    if lines != [] {
      var n := |lines| - 1;
      ReturnedLeavesNothing(gstin, invoice, lines[..n], f);
      LeavesNothing(gstin, invoice, lines[n].saleLine, lines[n].amounts, f);
    }
  }

  lemma {:induction false} SalesLeaveNothing(gstin: string, invoices: seq<GstInvoice>, f: Amounts -> int)
    requires InterStateIgstOnly(gstin, invoices, []) && (f == OF_CGST || f == OF_SGST)
    ensures SalesSum(Reported(invoices), LeftOut(gstin, f)) == 0
  {
    hide IsInterState, LeftOut, SoldSum;
    if invoices != [] {
      var n := |invoices| - 1;
      SalesLeaveNothing(gstin, invoices[..n], f);
      SoldLeavesNothing(gstin, invoices[n], invoices[n].lines, f);
      LastSale(Reported(invoices[..n]), invoices[n], LeftOut(gstin, f));
      assert Reported(invoices[..n]) + [] == Reported(invoices[..n]);
    }
  }

  lemma LastSale(invoices: seq<GstInvoice>, last: GstInvoice, w: Weight)
    ensures SalesSum(invoices + [last], w) == SalesSum(invoices, w) + SoldSum(last, last.lines, w)
  {
    assert (invoices + [last])[..|invoices|] == invoices;
  }

  lemma LastBack(givenBack: seq<GstReturn>, last: GstReturn, w: Weight)
    ensures ReturnsSum(givenBack + [last], w) == ReturnsSum(givenBack, w) + ReturnedSum(last.invoice, last.lines, w)
  {
    assert (givenBack + [last])[..|givenBack|] == givenBack;
  }

  lemma {:induction false} BackLeavesNothing(gstin: string, givenBack: seq<GstReturn>, f: Amounts -> int)
    requires InterStateIgstOnly(gstin, [], givenBack) && (f == OF_CGST || f == OF_SGST)
    ensures ReturnsSum(ReportedReturns(givenBack), LeftOut(gstin, f)) == 0
  {
    hide IsInterState, LeftOut, ReturnedSum;
    if givenBack != [] {
      var n := |givenBack| - 1;
      BackLeavesNothing(gstin, givenBack[..n], f);
      ReturnedLeavesNothing(gstin, givenBack[n].invoice, givenBack[n].lines, f);
      LastBack(ReportedReturns(givenBack[..n]), givenBack[n], LeftOut(gstin, f));
      assert ReportedReturns(givenBack[..n]) + [] == ReportedReturns(givenBack[..n]);
    }
  }

  /** With IGST alone on inter-state lines, Table 3.1(a) agrees with the books in CGST and SGST too. */
  lemma TableAgreesInEveryTax(gstin: string, invoices: seq<GstInvoice>, givenBack: seq<GstReturn>, f: Amounts -> int)
    requires f == OF_TXVAL || f == OF_IGST || f == OF_CGST || f == OF_SGST
    requires InterStateIgstOnly(gstin, invoices, givenBack)
    ensures OutwardTaxable(Built(gstin, invoices, givenBack), f) == Books(invoices, givenBack, TaxableOf(f))
  {
    hide OutwardTaxable, Built, TaxableOf, LeftOut, Linear, ShownNarrow, Reported, ReportedReturns, IsInterState;
    Measures();
    NarrowMeasures();
    TableIsDirectSum(gstin, invoices, givenBack, f);
    if f == OF_CGST || f == OF_SGST {
      SalesLeaveNothing(gstin, invoices, f);
      BackLeavesNothing(gstin, givenBack, f);
    }
  }

  /** Every line has an HSN code and a unit. */
  ghost predicate AllCoded(invoices: seq<GstInvoice>, givenBack: seq<GstReturn>) {
    && (forall k, i :: 0 <= k < |invoices| && 0 <= i < |invoices[k].lines| ==> Coded(invoices[k].lines[i]))
    && (forall k, i :: 0 <= k < |givenBack| && 0 <= i < |givenBack[k].lines| ==> Coded(givenBack[k].lines[i].saleLine))
  }

  predicate Coded(line: GstLine) { line.hsnCode != "" && line.uqc != "" }

  ghost function Uncoded(): Weight {
    (invoice: GstInvoice, line: GstLine, a: Amounts) => if Coded(line) then 0 else a.txval
  }

  ghost function Value(): Weight { (invoice: GstInvoice, line: GstLine, a: Amounts) => a.txval }

  ghost function Untaxed(): Weight { (invoice: GstInvoice, line: GstLine, a: Amounts) => if line.supplyType.Taxable? then 0 else a.txval }

  lemma {:induction false} SoldAllCoded(invoice: GstInvoice, lines: seq<GstLine>)
    requires forall i :: 0 <= i < |lines| ==> Coded(lines[i])
    ensures SoldSum(invoice, lines, Uncoded()) == 0
  {
    if lines != [] { SoldAllCoded(invoice, lines[..|lines| - 1]); }
  }

  lemma {:induction false} ReturnedAllCoded(invoice: GstInvoice, lines: seq<GstReturnLine>)
    requires forall i :: 0 <= i < |lines| ==> Coded(lines[i].saleLine)
    ensures ReturnedSum(invoice, lines, Uncoded()) == 0
  {
    if lines != [] { ReturnedAllCoded(invoice, lines[..|lines| - 1]); }
  }

  lemma {:induction false} SalesAllCoded(invoices: seq<GstInvoice>)
    requires AllCoded(invoices, [])
    ensures SalesSum(Reported(invoices), Uncoded()) == 0
  {
    hide Uncoded, SoldSum, Coded;
    if invoices != [] {
      var n := |invoices| - 1;
      SalesAllCoded(invoices[..n]);
      SoldAllCoded(invoices[n], invoices[n].lines);
      LastSale(Reported(invoices[..n]), invoices[n], Uncoded());
      assert Reported(invoices[..n]) + [] == Reported(invoices[..n]);
    }
  }

  lemma {:induction false} BackAllCoded(givenBack: seq<GstReturn>)
    requires AllCoded([], givenBack)
    ensures ReturnsSum(ReportedReturns(givenBack), Uncoded()) == 0
  {
    hide Uncoded, ReturnedSum, Coded;
    if givenBack != [] {
      var n := |givenBack| - 1;
      BackAllCoded(givenBack[..n]);
      ReturnedAllCoded(givenBack[n].invoice, givenBack[n].lines);
      LastBack(ReportedReturns(givenBack[..n]), givenBack[n], Uncoded());
      assert ReportedReturns(givenBack[..n]) + [] == ReportedReturns(givenBack[..n]);
    }
  }

  /**
   * With every line's HSN code and unit there, the HSN tables together come to Table 3.1(a), (c) and (e):
   * each line of the books is in exactly one place of either.
   */
  lemma HsnTablesAgree(gstin: string, invoices: seq<GstInvoice>, givenBack: seq<GstReturn>)
    requires AllCoded(invoices, givenBack)
    ensures var s := Built(gstin, invoices, givenBack);
            HsnSum(s, OF_TXVAL) == OutwardTaxable(s, OF_TXVAL) + OutwardUntaxed(s, false) + OutwardUntaxed(s, true)
  {
    hide OutwardTaxable, OutwardUntaxed, HsnSum, Built, Linear, ShownNarrow, Reported, ReportedReturns, LeftOut, AllCoded;
    Measures();
    NarrowMeasures();
    HsnIsBooks(gstin, invoices, givenBack, OF_TXVAL);
    TableIsDirectSum(gstin, invoices, givenBack, OF_TXVAL);
    UntaxedIsBooks(gstin, invoices, givenBack, false);
    UntaxedIsBooks(gstin, invoices, givenBack, true);
    BooksCombine(invoices, givenBack, CodedLines(OF_TXVAL), Uncoded(), Value());
    BooksCombine(invoices, givenBack, UntaxedLines(false), UntaxedLines(true), Untaxed());
    BooksCombine(invoices, givenBack, TaxableOf(OF_TXVAL), Untaxed(), Value());
    CodedParts(invoices, givenBack);
    SalesAllCoded(invoices);
    BackAllCoded(givenBack);
  }

  lemma CodedParts(invoices: seq<GstInvoice>, givenBack: seq<GstReturn>)
    requires AllCoded(invoices, givenBack)
    ensures AllCoded(invoices, []) && AllCoded([], givenBack)
  {
    hide Coded;
  }

  // ----- Table 3.2 in all

  /** Taxable lines sold to unregistered buyers in another state, at some places of supply. */
  ghost function InterAmong(gstin: string, places: set<string>, f: Amounts -> int): Weight {
    (invoice: GstInvoice, line: GstLine, a: Amounts) =>
      if line.supplyType.Taxable? && !IsB2b(invoice) && IsInterState(invoice, gstin) && PlaceOfSupply(invoice, gstin) in places then f(a) else 0
  }

  ghost function InterAnywhere(gstin: string, f: Amounts -> int): Weight {
    (invoice: GstInvoice, line: GstLine, a: Amounts) =>
      if line.supplyType.Taxable? && !IsB2b(invoice) && IsInterState(invoice, gstin) then f(a) else 0
  }

  lemma OnePlaceMore(gstin: string, places: set<string>, pos: string, f: Amounts -> int, invoices: seq<GstInvoice>, givenBack: seq<GstReturn>)
    requires pos in places
    ensures Books(invoices, givenBack, InterAmong(gstin, places, f))
         == Books(invoices, givenBack, InterAmong(gstin, places - {pos}, f)) + Books(invoices, givenBack, InterLines(gstin, pos, f))
  {
    hide IsInterState, PlaceOfSupply, Books;
    BooksCombine(invoices, givenBack, InterAmong(gstin, places - {pos}, f), InterLines(gstin, pos, f), InterAmong(gstin, places, f));
  }

  /** A table with the right figure at every place comes, over any places that include all of its own, to what was sold there. */
  lemma {:induction false} TableAmong(
    gstin: string, invoices: seq<GstInvoice>, givenBack: seq<GstReturn>, table: Places, places: set<string>, f: Amounts -> int)
    requires ShownNarrow(f) && table.Keys <= places
    requires forall pos :: pos in places ==> f(AmountsAt(table, pos)) == Books(invoices, givenBack, InterLines(gstin, pos, f))
    ensures MapTotal(table, Each<string>(f)) == Books(invoices, givenBack, InterAmong(gstin, places, f))
    decreases |places|
  {
    hide MapTotal, Books, InterAmong, InterLines, Narrow;
    if places == {} {
      assert table == map[];
      NoneTotal(Each<string>(f));
      assert forall i: GstInvoice, l: GstLine, m: Amounts :: InterAmong(gstin, {}, f)(i, l, m) == 0 by { NoPlacesAmong(gstin, f); }
      NothingBooked(invoices, givenBack, InterAmong(gstin, {}, f));
    } else {
      var pos :| pos in places;
      OnePlaceMore(gstin, places, pos, f, invoices, givenBack);
      if pos in table { MapWithout(table, Each<string>(f), pos); } else { assert table - {pos} == table; }
      TableAmong(gstin, invoices, givenBack, table - {pos}, places - {pos}, f);
    }
  }

  lemma NoPlacesAmong(gstin: string, f: Amounts -> int)
    ensures forall i: GstInvoice, l: GstLine, m: Amounts :: InterAmong(gstin, {}, f)(i, l, m) == 0
  {
  }

  function PlacesOf(gstin: string, invoices: seq<GstInvoice>, givenBack: seq<GstReturn>): (r: set<string>) {
    (set invoice | invoice in invoices :: PlaceOfSupply(invoice, gstin)) + (set ret | ret in givenBack :: PlaceOfSupply(ret.invoice, gstin))
  }

  lemma {:induction false} SalesAmong(gstin: string, invoices: seq<GstInvoice>, places: set<string>, f: Amounts -> int)
    requires forall k :: 0 <= k < |invoices| ==> PlaceOfSupply(invoices[k], gstin) in places
    ensures SalesSum(invoices, InterAmong(gstin, places, f)) == SalesSum(invoices, InterAnywhere(gstin, f))
  {
    hide PlaceOfSupply, IsInterState, SoldSum;
    if invoices != [] {
      SalesAmong(gstin, invoices[..|invoices| - 1], places, f);
      SoldAmong(gstin, invoices[|invoices| - 1], invoices[|invoices| - 1].lines, places, f);
    }
  }

  lemma {:induction false} SoldAmong(gstin: string, invoice: GstInvoice, lines: seq<GstLine>, places: set<string>, f: Amounts -> int)
    requires PlaceOfSupply(invoice, gstin) in places
    ensures SoldSum(invoice, lines, InterAmong(gstin, places, f)) == SoldSum(invoice, lines, InterAnywhere(gstin, f))
  {
    hide PlaceOfSupply, IsInterState;
    if lines != [] { SoldAmong(gstin, invoice, lines[..|lines| - 1], places, f); }
  }

  lemma {:induction false} BackAmong(gstin: string, givenBack: seq<GstReturn>, places: set<string>, f: Amounts -> int)
    requires forall k :: 0 <= k < |givenBack| ==> PlaceOfSupply(givenBack[k].invoice, gstin) in places
    ensures ReturnsSum(givenBack, InterAmong(gstin, places, f)) == ReturnsSum(givenBack, InterAnywhere(gstin, f))
  {
    hide PlaceOfSupply, IsInterState, ReturnedSum;
    if givenBack != [] {
      BackAmong(gstin, givenBack[..|givenBack| - 1], places, f);
      ReturnedAmong(gstin, givenBack[|givenBack| - 1].invoice, givenBack[|givenBack| - 1].lines, places, f);
    }
  }

  lemma {:induction false} ReturnedAmong(gstin: string, invoice: GstInvoice, lines: seq<GstReturnLine>, places: set<string>, f: Amounts -> int)
    requires PlaceOfSupply(invoice, gstin) in places
    ensures ReturnedSum(invoice, lines, InterAmong(gstin, places, f)) == ReturnedSum(invoice, lines, InterAnywhere(gstin, f))
  {
    hide PlaceOfSupply, IsInterState;
    if lines != [] { ReturnedAmong(gstin, invoice, lines[..|lines| - 1], places, f); }
  }

  /** Table 3.2, over all places of supply, is the net of all inter-state taxable sales to unregistered buyers. */
  lemma InterStateInAll(gstin: string, invoices: seq<GstInvoice>, givenBack: seq<GstReturn>, table: Places, f: Amounts -> int)
    requires ShownNarrow(f)
    requires forall pos :: f(AmountsAt(table, pos)) == InterState(Built(gstin, invoices, givenBack), pos, f)
    ensures MapTotal(table, Each<string>(f)) == Books(invoices, givenBack, InterAnywhere(gstin, f))
  {
    hide MapTotal, InterState, Built, InterAmong, InterAnywhere, InterLines, Narrow, PlaceOfSupply, Reported, ReportedReturns;
    var sales, back := Reported(invoices), ReportedReturns(givenBack);
    var places := table.Keys + PlacesOf(gstin, sales, back);
    forall pos | pos in places ensures f(AmountsAt(table, pos)) == Books(invoices, givenBack, InterLines(gstin, pos, f)) {
      InterStateIsBooks(gstin, invoices, givenBack, pos, f);
    }
    TableAmong(gstin, invoices, givenBack, table, places, f);
    assert forall k :: 0 <= k < |sales| ==> sales[k] in sales;
    assert forall k :: 0 <= k < |back| ==> back[k] in back;
    SalesAmong(gstin, sales, places, f);
    BackAmong(gstin, back, places, f);
  }
}
