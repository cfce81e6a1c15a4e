/**
 * A receipt laid out as fixed-width text (packages/contracts/src/receiptLayout.ts). Money is in paise,
 * quantities in thousandths, rates of tax in hundredths of a percent.
 */
module ReceiptLayout {
  import Code128
  import opened DocumentNumbers
  import opened OutboxRows
  import opened Rounding
  import opened WrapText

  datatype ReceiptLine = ReceiptLine(text: string, strong: bool, large: bool, barcode: Option<string>)

  datatype FieldKey = Cashier | Customer
  datatype Field = Field(key: Option<FieldKey>, caption: string, value: string, fullLine: bool)
  datatype Item = Item(
    name: string, hsn: string, qty: int, qtyLabel: string, rate: int, amount: int, taxRate: int, taxAmount: int,
    discount: int, total: int, taxable: int, batches: string)
  datatype Amount = Amount(caption: string, amount: int)

  /** An empty title, HSN code, list of batches or barcode is none. */
  datatype Document = Document(
    title: string, storeName: string, headerLines: seq<string>, footerLines: seq<string>,
    legalFields: seq<Field>, fields: seq<Field>, barcodeValue: string, items: seq<Item>,
    itemsTotal: Option<int>, orderDiscount: int, roundOff: int, taxTotals: seq<Amount>,
    grandTotalLabel: string, grandTotal: int, payments: seq<Amount>, due: Option<int>, legalFooter: seq<string>)

  datatype Style = Classic | Detailed | Compact | Minimal
  datatype Sections = Sections(
    header: bool, largeStoreName: bool, cashier: bool, customer: bool, hsn: bool, itemTax: bool, itemDiscount: bool,
    lineTotal: bool, taxSummary: bool, itemCount: bool, savings: bool, payments: bool, largeTotal: bool, footer: bool, barcode: bool)

  // ----- Figures

  function Money(paise: int): (r: string) {
    if paise < 0 then "-" + Decimal(-paise / 100) + "." + Padded(-paise % 100, 2)
    else Decimal(paise / 100) + "." + Padded(paise % 100, 2)
  }

  function DropZeros(text: string): (r: string) {
    if text != "" && text[|text| - 1] == '0' then DropZeros(text[..|text| - 1]) else text
  }

  /** A number with as many decimals as it has, up to `places`. */
  function Plain(whole: nat, part: nat, places: nat): (r: string) {
    var decimals := DropZeros(Padded(part, places));
    if decimals == "" then Decimal(whole) else Decimal(whole) + "." + decimals
  }

  function FormatQty(qty: int): (r: string) {
    if qty < 0 then "-" + Plain(-qty / 1000, -qty % 1000, 3) else Plain(qty / 1000, qty % 1000, 3)
  }

  function FormatRate(rate: int): (r: string) {
    if rate < 0 then "-" + Plain(-rate / 100, -rate % 100, 2) else Plain(rate / 100, rate % 100, 2)
  }

  // ----- Lines of one width

  function KeyValue(caption: string, value: string, width: nat, labelWidth: nat): (r: string)
    ensures |r| == width
  {
    var base := FitLeft(Trim(caption), labelWidth) + " : ";
    if |base| >= width then FitLeft(Trim(caption) + " : " + Trim(value), width)
    else base + FitRight(Trim(value), width - |base|)
  }

  function LastAgainst(lines: seq<string>, right: string, room: nat, width: nat): (r: seq<string>)
    requires lines != [] && room + 1 + |right| == width
    ensures |r| == |lines| && forall i :: 0 <= i < |r| ==> |r[i]| == width
  {
    seq(|lines|, i requires 0 <= i < |lines| => if i == |lines| - 1 then FitLeft(lines[i], room) + " " + right else FitLeft(lines[i], width))
  }

  lemma WrappedSome(text: string, width: nat)
    requires width > 0
    ensures Wrapped(text, width) != []
  {
    var words := WordsOf(text);
    if words != [] {
      WordsAreWords(text);
      SomeLine(words, width);
    }
  }

  lemma {:induction false} SomeLine(words: seq<string>, width: nat)
    requires width > 0 && words != [] && AllWords(words)
    ensures LinesOf(AddWords(words, width)) != []
  {
    var word := words[|words| - 1];
    assert IsWord(word);
    var before := AddWords(words[..|words| - 1], width);
    BreakSome(if before.current != "" then Wrapping(before.lines + [before.current], "") else before, word, width);
  }

  lemma {:induction false} BreakSome(w: Wrapping, word: string, width: nat)
    requires width > 0 && (word != "" || w.lines != [])
    ensures LinesOf(BreakWord(w, word, width)) != []
    decreases |word|
  {
    if |word| >= width { BreakSome(Wrapping(w.lines + [word[..width]], ""), word[width..], width); }
  }

  function LeftRight(left: string, right: string, width: nat): (r: seq<string>)
    ensures forall i :: 0 <= i < |r| ==> |r[i]| == width
  {
    if |right| + 1 >= width then [FitLeft(left, width), FitRight(right, width)]
    else
      var room := width - |right| - 1;
      WrappedSome(left, room);
      LastAgainst(Wrapped(left, room), right, room, width)
  }

  datatype Table = Table(item: nat, qty: nat, price: nat, total: nat)

  function TableColumns(width: nat): (r: Table)
    requires width >= 20
    ensures r.item + r.qty + r.price + r.total == width && r.item >= 2
  {
    var total, price, qty := Max(8, (42 * width + 100) / 200), Max(6, (34 * width + 100) / 200), if width < 40 then 4 else 6;
    Table(width - total - price - qty, qty, price, total)
  }

  function DetailRow(caption: string, value: string, width: nat): (r: string)
    ensures |r| == width
  {
    var valueWidth := Min(Max(|value|, width * 22 / 100), width * 45 / 100);
    FitLeft("  " + caption, width - valueWidth) + FitRight(value, valueWidth)
  }

  // ----- Blocks of lines

  /** Every line is as wide as the paper, or half as wide when it prints large. */
  ghost predicate Exact(lines: seq<ReceiptLine>, width: nat) {
    forall i :: 0 <= i < |lines| ==> |lines[i].text| == if lines[i].large then width / 2 else width
  }

  function Line(text: string): (r: ReceiptLine) { ReceiptLine(text, false, false, None) }
  function Strong(text: string): (r: ReceiptLine) { ReceiptLine(text, true, false, None) }

  function Separator(width: nat): (r: seq<ReceiptLine>)
    ensures Exact(r, width)
  {
    [Line(seq(width, i => '-'))]
  }

  function Centered(text: string, strong: bool, width: nat): (r: seq<ReceiptLine>)
    requires width > 0
    ensures Exact(r, width)
  {
    var lines := Wrapped(text, width);
    seq(|lines|, i requires 0 <= i < |lines| => ReceiptLine(FitCenter(lines[i], width), strong, false, None))
  }

  function CenteredAll(texts: seq<string>, width: nat): (r: seq<ReceiptLine>)
    requires width > 0
    ensures Exact(r, width)
  {
    if texts == [] then [] else CenteredAll(texts[..|texts| - 1], width) + Centered(texts[|texts| - 1], false, width)
  }

  function Large(text: string, width: nat): (r: seq<ReceiptLine>)
    requires width >= 2
    ensures Exact(r, width)
  {
    var lines := Wrapped(text, width / 2);
    seq(|lines|, i requires 0 <= i < |lines| => ReceiptLine(FitCenter(lines[i], width / 2), true, true, None))
  }

  /** Text wrapped and set to the left, after `indent`. */
  function Lefts(text: string, indent: string, width: nat): (r: seq<ReceiptLine>)
    requires width > |indent|
    ensures Exact(r, width)
  {
    var lines := Wrapped(text, width - |indent|);
    seq(|lines|, i requires 0 <= i < |lines| => Line(FitLeft(indent + lines[i], width)))
  }

  function When(holds: bool, lines: seq<ReceiptLine>): (r: seq<ReceiptLine>) { if holds then lines else [] }

  // ----- Heading and fields

  function Heading(doc: Document, show: Sections, width: nat): (r: seq<ReceiptLine>)
    requires width >= 2
  {
    (if show.largeStoreName then Large(doc.storeName, width) else Centered(doc.storeName, true, width))
    + When(show.header, CenteredAll(doc.headerLines, width))
    + When(doc.title != "", Centered(doc.title, true, width))
    + Separator(width)
  }

  predicate Shown(field: Field, show: Sections) {
    Trim(field.value) != ""
    && (field.key == Some(Cashier) ==> show.cashier) && (field.key == Some(Customer) ==> show.customer)
  }

  function ShownFields(fields: seq<Field>, show: Sections): (r: seq<Field>) {
    if fields == [] then []
    else ShownFields(fields[..|fields| - 1], show) + if Shown(fields[|fields| - 1], show) then [fields[|fields| - 1]] else []
  }

  function LongestLabel(fields: seq<Field>): (r: nat) {
    if fields == [] then 0
    else Max(LongestLabel(fields[..|fields| - 1]), if fields[|fields| - 1].fullLine then 0 else |fields[|fields| - 1].caption|)
  }

  function FieldLines(field: Field, width: nat, labelWidth: nat): (r: seq<ReceiptLine>)
    requires width > 0
    ensures Exact(r, width)
  {
    if field.fullLine then Lefts(field.caption + ": " + field.value, "", width)
    else [Line(KeyValue(field.caption, field.value, width, labelWidth))]
  }

  function FieldsLines(fields: seq<Field>, width: nat, labelWidth: nat): (r: seq<ReceiptLine>)
    requires width > 0
    ensures Exact(r, width)
  {
    if fields == [] then []
    else FieldsLines(fields[..|fields| - 1], width, labelWidth) + FieldLines(fields[|fields| - 1], width, labelWidth)
  }

  function FieldLabelWidth(fields: seq<Field>, width: nat): (r: nat) { Min(LongestLabel(fields), width * 4 / 10) }

  function Fields(doc: Document, show: Sections, width: nat): (r: seq<ReceiptLine>)
    requires width > 0
    ensures Exact(r, width)
  {
    var fields := ShownFields(doc.fields + doc.legalFields, show);
    if fields == [] then [] else FieldsLines(fields, width, FieldLabelWidth(fields, width)) + Separator(width)
  }

  // ----- Items

  function Discounted(item: Item, show: Sections, width: nat): (r: seq<ReceiptLine>)
    ensures Exact(r, width)
  {
    if show.itemDiscount && item.discount > 0 then [Line(DetailRow("discount", "-" + Money(item.discount), width))] else []
  }

  function Batches(item: Item, width: nat): (r: seq<ReceiptLine>)
    requires width > 2
    ensures Exact(r, width)
  {
    if item.batches != "" then Lefts(item.batches, "  ", width) else []
  }

  function HsnLine(item: Item, show: Sections, width: nat): (r: seq<ReceiptLine>)
    ensures Exact(r, width)
  {
    if show.hsn && item.hsn != "" then [Line(FitLeft("  HSN " + item.hsn, width))] else []
  }

  function UnitPrice(item: Item): (r: int) { if item.qty > 0 then RoundDiv(item.total * 1000, item.qty) else item.total }

  function CompactRow(item: Item, name: string, width: nat): (r: string)
    requires width >= 20
    ensures |r| == width
  {
    var table := TableColumns(width);
    FitLeft(name, table.item) + FitRight(FormatQty(item.qty), table.qty) + FitRight(Money(UnitPrice(item)), table.price)
    + FitRight(Money(item.total), table.total)
  }

  function CompactItem(item: Item, show: Sections, width: nat): (r: seq<ReceiptLine>)
    requires width >= 20
  {
    var names := Wrapped(item.name, TableColumns(width).item - 1);
    seq(|names|, i requires 0 <= i < |names| => Line(if i == 0 then CompactRow(item, names[i], width) else FitLeft(names[i], width)))
    + HsnLine(item, show, width) + Batches(item, width) + Discounted(item, show, width)
  }

  function MinimalItem(item: Item, show: Sections, width: nat): (r: seq<ReceiptLine>)
    requires width >= 20
  {
    var lines := LeftRight(FormatQty(item.qty) + " x " + item.name, Money(item.total), width);
    seq(|lines|, i requires 0 <= i < |lines| => Line(lines[i])) + HsnLine(item, show, width) + Batches(item, width) + Discounted(item, show, width)
  }

  predicate HasTax(item: Item) { item.taxRate > 0 || item.taxAmount > 0 }

  /** In the detailed style, HSN code and tax share a row. */
  predicate OneTaxRow(item: Item, style: Style, show: Sections) {
    style.Detailed? && show.hsn && item.hsn != "" && show.itemTax && HasTax(item)
  }

  function TaxRows(item: Item, style: Style, show: Sections, width: nat): (r: seq<ReceiptLine>)
    ensures Exact(r, width)
  {
    if OneTaxRow(item, style, show) then
      [Line(DetailRow("HSN " + item.hsn + "  GST " + FormatRate(item.taxRate) + "%", Money(item.taxAmount), width))]
    else if show.hsn && item.hsn != "" then [Line(DetailRow("HSN " + item.hsn, "", width))]
    else []
  }

  function BlockItem(item: Item, index: nat, style: Style, show: Sections, width: nat): (r: seq<ReceiptLine>)
    requires width >= 20
  {
    Lefts(if style.Detailed? then Decimal(index + 1) + ". " + item.name else item.name, "", width)
    + TaxRows(item, style, show, width)
    + Batches(item, width)
    + [Line(DetailRow(item.qtyLabel + " x " + Money(item.rate), Money(item.amount), width))]
    + (if show.itemTax && HasTax(item) && !(style.Detailed? && show.hsn && item.hsn != "")
       then [Line(DetailRow("tax " + FormatRate(item.taxRate) + "%", Money(item.taxAmount), width))] else [])
    + Discounted(item, show, width)
    + (if show.lineTotal then [Strong(DetailRow("item total", Money(item.total), width))] else [])
  }

  function ItemLines(item: Item, index: nat, style: Style, show: Sections, width: nat): (r: seq<ReceiptLine>)
    requires width >= 20
  {
    match style
    case Compact => CompactItem(item, show, width)
    case Minimal => MinimalItem(item, show, width)
    case _ => BlockItem(item, index, style, show, width)
  }

  function ItemsLines(items: seq<Item>, style: Style, show: Sections, width: nat): (r: seq<ReceiptLine>)
    requires width >= 20
  {
    if items == [] then []
    else ItemsLines(items[..|items| - 1], style, show, width) + ItemLines(items[|items| - 1], |items| - 1, style, show, width)
  }

  function TableHead(width: nat): (r: seq<ReceiptLine>)
    requires width >= 20
    ensures Exact(r, width)
  {
    var table := TableColumns(width);
    [Line(FitLeft("Item", table.item) + FitRight("Qty", table.qty) + FitRight("Rate", table.price) + FitRight("Amount", table.total))]
    + Separator(width)
  }

  function Items(doc: Document, style: Style, show: Sections, width: nat): (r: seq<ReceiptLine>)
    requires width >= 20
  {
    (if style.Compact? then TableHead(width) else []) + ItemsLines(doc.items, style, show, width) + Separator(width)
  }

  // ----- Totals and payments

  datatype Labelled = Labelled(caption: string, value: string)

  function Amounts(amounts: seq<Amount>): (r: seq<Labelled>)
    ensures |r| == |amounts|
  {
    seq(|amounts|, i requires 0 <= i < |amounts| => Labelled(amounts[i].caption, Money(amounts[i].amount)))
  }

  function TotalRows(doc: Document, style: Style): (r: seq<Labelled>) {
    (if doc.itemsTotal.Some? && (doc.orderDiscount > 0 || !style.Minimal?) then [Labelled("Items Total", Money(doc.itemsTotal.value))] else [])
    + (if doc.orderDiscount > 0 then [Labelled("Order Discount", "- " + Money(doc.orderDiscount))] else [])
    + Amounts(doc.taxTotals)
    + (if doc.roundOff != 0 then [Labelled("Round off", (if doc.roundOff < 0 then "- " else "+ ") + Money(Abs(doc.roundOff)))] else [])
  }

  function LongestOf(rows: seq<Labelled>): (r: nat) {
    if rows == [] then 0 else Max(LongestOf(rows[..|rows| - 1]), |rows[|rows| - 1].caption|)
  }

  function RowLines(rows: seq<Labelled>, width: nat, labelWidth: nat): (r: seq<ReceiptLine>)
    ensures |r| == |rows| && Exact(r, width)
  {
    seq(|rows|, i requires 0 <= i < |rows| => Line(KeyValue(rows[i].caption, rows[i].value, width, labelWidth)))
  }

  function Rows(rows: seq<Labelled>, least: nat, width: nat): (r: seq<ReceiptLine>)
    ensures Exact(r, width)
  {
    if rows == [] then [] else RowLines(rows, width, Min(Max(LongestOf(rows), least), width * 5 / 10)) + Separator(width)
  }

  function GrandTotal(doc: Document, show: Sections, width: nat): (r: seq<ReceiptLine>)
    ensures Exact(r, width)
  {
    if show.largeTotal then
      var lines := LeftRight(doc.grandTotalLabel, Money(doc.grandTotal), width / 2);
      seq(|lines|, i requires 0 <= i < |lines| => ReceiptLine(lines[i], true, true, None))
    else [Strong(KeyValue(doc.grandTotalLabel, Money(doc.grandTotal), width, Max(|doc.grandTotalLabel|, 5)))]
  }

  function PaymentRows(doc: Document, show: Sections): (r: seq<Labelled>) {
    (if show.payments then Amounts(doc.payments) else [])
    + (if doc.due.Some? && (show.payments || doc.due.value > 0) then [Labelled("Remaining Due", Money(doc.due.value))] else [])
  }

  // ----- The GST summary by rate

  datatype RateEntry = RateEntry(rate: int, taxable: int, tax: int)

  /** An item added to its rate's entry, the entries kept in order of rate. */
  function AddRate(entries: seq<RateEntry>, item: Item): (r: seq<RateEntry>) {
    if entries == [] then [RateEntry(item.taxRate, item.taxable, item.taxAmount)]
    else
      var n := |entries| - 1;
      var last := entries[n];
      if last.rate == item.taxRate then entries[..n] + [RateEntry(last.rate, last.taxable + item.taxable, last.tax + item.taxAmount)]
      else if last.rate < item.taxRate then entries + [RateEntry(item.taxRate, item.taxable, item.taxAmount)]
      else AddRate(entries[..n], item) + [last]
  }

  function ByRate(items: seq<Item>): (r: seq<RateEntry>) {
    if items == [] then []
    else
      var before, last := ByRate(items[..|items| - 1]), items[|items| - 1];
      if last.taxRate <= 0 && last.taxAmount <= 0 then before else AddRate(before, last)
  }

  function SummaryRow(rate: string, taxable: string, tax: string, width: nat): (r: string)
    requires width >= 6
    ensures |r| == width
  {
    var amountWidth := (width - 6) / 2;
    FitLeft(rate, 6) + FitRight(taxable, amountWidth) + FitRight(tax, width - 6 - amountWidth)
  }

  function TaxSummary(doc: Document, show: Sections, width: nat): (r: seq<ReceiptLine>)
    requires width >= 6
    ensures Exact(r, width)
  {
    var entries := ByRate(doc.items);
    if !show.taxSummary || entries == [] then []
    else
      [Line(SummaryRow("GST%", "Taxable", "Tax", width))]
      + seq(|entries|, i requires 0 <= i < |entries| =>
          Line(SummaryRow(FormatRate(entries[i].rate) + "%", Money(entries[i].taxable), Money(entries[i].tax), width)))
      + Separator(width)
  }

  // ----- The end of the receipt

  function TotalQty(items: seq<Item>): (r: int) { if items == [] then 0 else TotalQty(items[..|items| - 1]) + items[|items| - 1].qty }
  function TotalDiscount(items: seq<Item>): (r: int) { if items == [] then 0 else TotalDiscount(items[..|items| - 1]) + items[|items| - 1].discount }

  predicate WholeUnits(items: seq<Item>) { forall i :: 0 <= i < |items| ==> items[i].qty % 1000 == 0 }

  function Counts(doc: Document, show: Sections, width: nat): (r: seq<ReceiptLine>)
    requires width > 0
    ensures Exact(r, width)
  {
    var saved := TotalDiscount(doc.items) + doc.orderDiscount;
    (if show.itemCount && doc.items != [] then
       Centered("Items: " + Decimal(|doc.items|) + (if WholeUnits(doc.items) then "   Qty: " + FormatQty(TotalQty(doc.items)) else ""), false, width)
     else [])
    + (if show.savings && saved > 0 then Centered("You saved " + Money(saved), true, width) else [])
  }

  function Ending(doc: Document, show: Sections, width: nat): (r: seq<ReceiptLine>)
    requires width > 0
    ensures Exact(r, width)
  {
    When(show.footer, CenteredAll(doc.footerLines, width))
    + CenteredAll(doc.legalFooter, width)
    + (if show.barcode && Code128.CanEncode(doc.barcodeValue)
       then [ReceiptLine(FitCenter(doc.barcodeValue, width), false, false, Some(doc.barcodeValue))] else [])
  }

  /** The whole receipt. */
  function Rendered(doc: Document, style: Style, show: Sections, width: nat): (r: seq<ReceiptLine>)
    requires width >= 20
  {
    Heading(doc, show, width) + Fields(doc, show, width) + Items(doc, style, show, width)
    + Rows(TotalRows(doc, style), 0, width) + GrandTotal(doc, show, width) + Separator(width)
    + Rows(PaymentRows(doc, show), 7, width) + TaxSummary(doc, show, width) + Counts(doc, show, width) + Ending(doc, show, width)
  }

  // ----- Every line is as wide as the paper

  lemma ExactJoin(a: seq<ReceiptLine>, b: seq<ReceiptLine>, width: nat)
    requires Exact(a, width) && Exact(b, width)
    ensures Exact(a + b, width)
  {
  }

  lemma ExactOne(line: ReceiptLine, width: nat)
    requires |line.text| == width && !line.large
    ensures Exact([line], width) && Exact([], width)
  {
  }

  lemma CompactNamesExact(item: Item, names: seq<string>, width: nat)
    requires width >= 20
    ensures Exact(seq(|names|, i requires 0 <= i < |names| =>
                        Line(if i == 0 then CompactRow(item, names[i], width) else FitLeft(names[i], width))), width)
  {
    hide CompactRow, FitLeft;
  }

  lemma CompactExact(item: Item, show: Sections, width: nat)
    requires width >= 20
    ensures Exact(CompactItem(item, show, width), width)
  {
    hide Exact, CompactRow, HsnLine, Batches, Discounted, FitLeft, TableColumns, Wrapped;
    var names := Wrapped(item.name, TableColumns(width).item - 1);
    var rows := seq(|names|, i requires 0 <= i < |names| => Line(if i == 0 then CompactRow(item, names[i], width) else FitLeft(names[i], width)));
    CompactNamesExact(item, names, width);
    ExactJoin(rows, HsnLine(item, show, width), width);
    ExactJoin(rows + HsnLine(item, show, width), Batches(item, width), width);
    ExactJoin(rows + HsnLine(item, show, width) + Batches(item, width), Discounted(item, show, width), width);
  }

  lemma MinimalExact(item: Item, show: Sections, width: nat)
    requires width >= 20
    ensures Exact(MinimalItem(item, show, width), width)
  {
    hide HsnLine, Batches, Discounted, LeftRight, FormatQty, Money;
    var lines := LeftRight(FormatQty(item.qty) + " x " + item.name, Money(item.total), width);
    var rows := seq(|lines|, i requires 0 <= i < |lines| => Line(lines[i]));
    assert Exact(rows, width);
    ExactJoin(rows, HsnLine(item, show, width), width);
    ExactJoin(rows + HsnLine(item, show, width), Batches(item, width), width);
    ExactJoin(rows + HsnLine(item, show, width) + Batches(item, width), Discounted(item, show, width), width);
  }

  lemma BlockExact(item: Item, index: nat, style: Style, show: Sections, width: nat)
    requires width >= 20
    ensures Exact(BlockItem(item, index, style, show, width), width)
  {
    hide Exact, Lefts, TaxRows, Batches, Discounted, DetailRow, HasTax, Decimal, Money, FormatRate;
    var name := Lefts(if style.Detailed? then Decimal(index + 1) + ". " + item.name else item.name, "", width);
    var price := [Line(DetailRow(item.qtyLabel + " x " + Money(item.rate), Money(item.amount), width))];
    var tax := if show.itemTax && HasTax(item) && !(style.Detailed? && show.hsn && item.hsn != "")
      then [Line(DetailRow("tax " + FormatRate(item.taxRate) + "%", Money(item.taxAmount), width))] else [];
    var total := if show.lineTotal then [Strong(DetailRow("item total", Money(item.total), width))] else [];
    ExactOne(price[0], width);
    ExactOne(Line(DetailRow("tax " + FormatRate(item.taxRate) + "%", Money(item.taxAmount), width)), width);
    ExactOne(Strong(DetailRow("item total", Money(item.total), width)), width);
    ExactJoin(name, TaxRows(item, style, show, width), width);
    ExactJoin(name + TaxRows(item, style, show, width), Batches(item, width), width);
    ExactJoin(name + TaxRows(item, style, show, width) + Batches(item, width), price, width);
    ExactJoin(name + TaxRows(item, style, show, width) + Batches(item, width) + price, tax, width);
    ExactJoin(name + TaxRows(item, style, show, width) + Batches(item, width) + price + tax, Discounted(item, show, width), width);
    ExactJoin(name + TaxRows(item, style, show, width) + Batches(item, width) + price + tax + Discounted(item, show, width), total, width);
  }

  lemma {:induction false} ItemsExact(items: seq<Item>, style: Style, show: Sections, width: nat)
    requires width >= 20
    ensures Exact(ItemsLines(items, style, show, width), width)
  {
    hide Exact, CompactItem, MinimalItem, BlockItem;
    if items == [] {
      NothingExact(width);
    } else {
      var n := |items| - 1;
      ItemsExact(items[..n], style, show, width);
      CompactExact(items[n], show, width);
      MinimalExact(items[n], show, width);
      BlockExact(items[n], n, style, show, width);
      ExactJoin(ItemsLines(items[..n], style, show, width), ItemLines(items[n], n, style, show, width), width);
    }
  }

  lemma NothingExact(width: nat)
    ensures Exact([], width)
  {
  }

  lemma HeadingExact(doc: Document, show: Sections, width: nat)
    requires width >= 2
    ensures Exact(Heading(doc, show, width), width)
  {
    hide Exact, Large, Centered, CenteredAll, Separator;
    NothingExact(width);
    var name := if show.largeStoreName then Large(doc.storeName, width) else Centered(doc.storeName, true, width);
    var header, title := When(show.header, CenteredAll(doc.headerLines, width)), When(doc.title != "", Centered(doc.title, true, width));
    ExactJoin(name, header, width);
    ExactJoin(name + header, title, width);
    ExactJoin(name + header + title, Separator(width), width);
  }

  lemma ItemBlockExact(doc: Document, style: Style, show: Sections, width: nat)
    requires width >= 20
    ensures Exact(Items(doc, style, show, width), width)
  {
    hide Exact, ItemsLines, TableHead, Separator;
    NothingExact(width);
    ItemsExact(doc.items, style, show, width);
    var head := if style.Compact? then TableHead(width) else [];
    ExactJoin(head, ItemsLines(doc.items, style, show, width), width);
    ExactJoin(head + ItemsLines(doc.items, style, show, width), Separator(width), width);
  }

  /** Every line of a receipt is exactly as wide as the paper, or half as wide printed large, whatever the document, style and sections. */
  lemma EveryLineExact(doc: Document, style: Style, show: Sections, width: nat)
    requires width >= 20
    ensures Exact(Rendered(doc, style, show, width), width)
  {
    hide Exact, Heading, Fields, Items, Rows, GrandTotal, Separator, TaxSummary, Counts, Ending, TotalRows, PaymentRows;
    HeadingExact(doc, show, width);
    ItemBlockExact(doc, style, show, width);
    var a := Heading(doc, show, width) + Fields(doc, show, width);
    ExactJoin(Heading(doc, show, width), Fields(doc, show, width), width);
    var b := a + Items(doc, style, show, width);
    ExactJoin(a, Items(doc, style, show, width), width);
    var c := b + Rows(TotalRows(doc, style), 0, width);
    ExactJoin(b, Rows(TotalRows(doc, style), 0, width), width);
    var d := c + GrandTotal(doc, show, width) + Separator(width);
    ExactJoin(c, GrandTotal(doc, show, width), width);
    ExactJoin(c + GrandTotal(doc, show, width), Separator(width), width);
    var e := d + Rows(PaymentRows(doc, show), 7, width) + TaxSummary(doc, show, width);
    ExactJoin(d, Rows(PaymentRows(doc, show), 7, width), width);
    ExactJoin(d + Rows(PaymentRows(doc, show), 7, width), TaxSummary(doc, show, width), width);
    ExactJoin(e, Counts(doc, show, width), width);
    ExactJoin(e + Counts(doc, show, width), Ending(doc, show, width), width);
  }

  /** The items' lines pushed one item after another. */
  method RenderItems(doc: Document, style: Style, show: Sections, width: nat) returns (lines: seq<ReceiptLine>)
    requires width >= 20
    ensures lines == Items(doc, style, show, width)
  {
    hide ItemLines, TableHead, Separator, Exact;
    var head := if style.Compact? then TableHead(width) else [];
    lines := [];
    for i := 0 to |doc.items|
      invariant lines == ItemsLines(doc.items[..i], style, show, width)
    {
      assert doc.items[..i + 1][..i] == doc.items[..i];
      lines := lines + ItemLines(doc.items[i], i, style, show, width);
    }
    assert doc.items[..|doc.items|] == doc.items;
    lines := head + lines + Separator(width);
  }

  /** The receipt's lines pushed one block after another. */
  method RenderReceipt(doc: Document, style: Style, show: Sections, width: nat) returns (lines: seq<ReceiptLine>)
    requires width >= 20
    ensures lines == Rendered(doc, style, show, width) && Exact(lines, width)
  {
    hide Heading, Fields, Items, Rows, GrandTotal, TaxSummary, Counts, Ending, TotalRows, PaymentRows, Separator, Exact;
    EveryLineExact(doc, style, show, width);
    var items := RenderItems(doc, style, show, width);
    lines := Heading(doc, show, width);
    lines := lines + Fields(doc, show, width);
    lines := lines + items;
    lines := lines + Rows(TotalRows(doc, style), 0, width);
    lines := lines + GrandTotal(doc, show, width);
    lines := lines + Separator(width);
    lines := lines + Rows(PaymentRows(doc, show), 7, width);
    lines := lines + TaxSummary(doc, show, width);
    lines := lines + Counts(doc, show, width);
    lines := lines + Ending(doc, show, width);
  }

  // ----- What every receipt prints

  /** The receipt's blocks, in order; each is a stretch of its lines. */
  lemma Blocks(doc: Document, style: Style, show: Sections, width: nat)
    requires width >= 20
    ensures var all := Rendered(doc, style, show, width);
            forall line :: (line in Fields(doc, show, width) ==> line in all)
                        && (line in Rows(TotalRows(doc, style), 0, width) ==> line in all)
                        && (line in GrandTotal(doc, show, width) ==> line in all)
                        && (line in Rows(PaymentRows(doc, show), 7, width) ==> line in all)
                        && (line in Ending(doc, show, width) ==> line in all)
  {
    hide Heading, Fields, Items, Rows, GrandTotal, Separator, TaxSummary, Counts, Ending, TotalRows, PaymentRows, Exact;
  }

  lemma {:induction false} FieldsHold(fields: seq<Field>, width: nat, labelWidth: nat, field: Field)
    requires width > 0 && field in fields
    ensures forall line :: line in FieldLines(field, width, labelWidth) ==> line in FieldsLines(fields, width, labelWidth)
  {
    hide FieldLines, Exact;
    var n := |fields| - 1;
    assert fields == fields[..n] + [fields[n]];
    if field in fields[..n] { FieldsHold(fields[..n], width, labelWidth, field); }
  }

  lemma {:induction false} ShownAre(fields: seq<Field>, show: Sections, field: Field)
    ensures field in ShownFields(fields, show) <==> field in fields && Shown(field, show)
  {
    hide Shown;
    if fields != [] {
      assert fields == fields[..|fields| - 1] + [fields[|fields| - 1]];
      ShownAre(fields[..|fields| - 1], show, field);
    }
  }

  /** A field the law asks for is printed whatever the template shows: one with a value, that is neither cashier nor customer. */
  lemma LegalFieldPrinted(doc: Document, style: Style, show: Sections, width: nat, field: Field)
    requires width >= 20 && field in doc.fields + doc.legalFields && field.key.None? && Trim(field.value) != ""
    ensures var labelWidth := FieldLabelWidth(ShownFields(doc.fields + doc.legalFields, show), width);
            forall line :: line in FieldLines(field, width, labelWidth) ==> line in Rendered(doc, style, show, width)
  {
    hide Rendered, FieldLines, FieldsLines, Separator, LongestLabel, Exact, Rows, Ending, GrandTotal;
    Blocks(doc, style, show, width);
    ShownAre(doc.fields + doc.legalFields, show, field);
    var fields := ShownFields(doc.fields + doc.legalFields, show);
    FieldsHold(fields, width, FieldLabelWidth(fields, width), field);
  }

  /** A field's value is on its line whole exactly when it fits the room left of it. */
  lemma ValueWhole(caption: string, value: string, width: nat, labelWidth: nat)
    requires labelWidth + 3 < width
    ensures var text, room := Trim(value), width - labelWidth - 3;
            |text| <= room ==> KeyValue(caption, value, width, labelWidth)[width - |text|..] == text
    ensures var text, room := Trim(value), width - labelWidth - 3;
            |text| > room ==> KeyValue(caption, value, width, labelWidth)[width - room..] == text[..room]
  {
    hide Trim;
    var line, text, room := KeyValue(caption, value, width, labelWidth), Trim(value), width - labelWidth - 3;
    assert line == (FitLeft(Trim(caption), labelWidth) + " : ") + FitRight(text, room);
    assert line[width - room..] == FitRight(text, room);
    if |text| <= room {
      assert FitRight(text, room)[room - |text|..] == text;
      assert line[width - |text|..] == line[width - room..][room - |text|..];
    }
  }

  /** A GSTIN, 15 characters, is printed whole beside its label on any paper of 30 columns or more. */
  lemma GstinWhole(doc: Document, show: Sections, width: nat, field: Field)
    requires width >= 30 && |Trim(field.value)| == 15
    ensures var labelWidth := FieldLabelWidth(ShownFields(doc.fields + doc.legalFields, show), width);
            KeyValue(field.caption, field.value, width, labelWidth)[width - 15..] == Trim(field.value)
  {
    hide KeyValue, ShownFields, LongestLabel, Trim;
    var labelWidth := FieldLabelWidth(ShownFields(doc.fields + doc.legalFields, show), width);
    assert labelWidth <= width * 4 / 10;
    ValueWhole(field.caption, field.value, width, labelWidth);
  }

  lemma RowPrinted(rows: seq<Labelled>, least: nat, width: nat, i: nat)
    requires i < |rows|
    ensures exists labelWidth :: Line(KeyValue(rows[i].caption, rows[i].value, width, labelWidth)) in Rows(rows, least, width)
  {
    hide KeyValue, Separator, LongestOf;
    var labelWidth := Min(Max(LongestOf(rows), least), width * 5 / 10);
    assert RowLines(rows, width, labelWidth)[i] in RowLines(rows, width, labelWidth);
  }

  /** The tax in the total, kind by kind, is printed whatever the template. */
  lemma TaxTotalPrinted(doc: Document, style: Style, show: Sections, width: nat, i: nat)
    requires width >= 20 && i < |doc.taxTotals|
    ensures exists labelWidth ::
              Line(KeyValue(doc.taxTotals[i].caption, Money(doc.taxTotals[i].amount), width, labelWidth)) in Rendered(doc, style, show, width)
  {
    hide Rendered, KeyValue, Rows, Money, Exact, Fields, Ending, GrandTotal;
    Blocks(doc, style, show, width);
    var rows := TotalRows(doc, style);
    var row := Labelled(doc.taxTotals[i].caption, Money(doc.taxTotals[i].amount));
    assert Amounts(doc.taxTotals)[i] == row;
    assert row in rows;
    var k :| 0 <= k < |rows| && rows[k] == row;
    RowPrinted(rows, 0, width, k);
  }

  /** A balance left to pay is printed whatever the template. */
  lemma DuePrinted(doc: Document, style: Style, show: Sections, width: nat)
    requires width >= 20 && doc.due.Some? && doc.due.value > 0
    ensures exists labelWidth :: Line(KeyValue("Remaining Due", Money(doc.due.value), width, labelWidth)) in Rendered(doc, style, show, width)
  {
    hide Rendered, KeyValue, Rows, Money, Exact, Fields, Ending, GrandTotal, TotalRows;
    Blocks(doc, style, show, width);
    var rows := PaymentRows(doc, show);
    assert rows[|rows| - 1] == Labelled("Remaining Due", Money(doc.due.value));
    RowPrinted(rows, 7, width, |rows| - 1);
  }

  lemma {:induction false} AllCentered(texts: seq<string>, width: nat, text: string)
    requires width > 0 && text in texts
    ensures forall line :: line in Centered(text, false, width) ==> line in CenteredAll(texts, width)
  {
    hide Centered, Exact;
    var n := |texts| - 1;
    assert texts == texts[..n] + [texts[n]];
    if text in texts[..n] { AllCentered(texts[..n], width, text); }
  }

  /** So is the composition declaration, every line of it. */
  lemma LegalFooterPrinted(doc: Document, style: Style, show: Sections, width: nat, text: string)
    requires width >= 20 && text in doc.legalFooter
    ensures forall line :: line in Centered(text, false, width) ==> line in Rendered(doc, style, show, width)
  {
    hide Rendered, Centered, CenteredAll, Exact, Fields, Rows, GrandTotal, TotalRows, PaymentRows;
    Blocks(doc, style, show, width);
    AllCentered(doc.legalFooter, width, text);
  }

  // ----- The GST summary adds up

  function TaxOfEntries(entries: seq<RateEntry>): (r: int) { if entries == [] then 0 else TaxOfEntries(entries[..|entries| - 1]) + entries[|entries| - 1].tax }

  function TaxOfItems(items: seq<Item>): (r: int) {
    if items == [] then 0 else TaxOfItems(items[..|items| - 1]) + if HasTax(items[|items| - 1]) then items[|items| - 1].taxAmount else 0
  }

  ghost predicate InOrder(entries: seq<RateEntry>) { forall i, j :: 0 <= i < j < |entries| ==> entries[i].rate < entries[j].rate }

  lemma LastEntry(entries: seq<RateEntry>, last: RateEntry)
    ensures TaxOfEntries(entries + [last]) == TaxOfEntries(entries) + last.tax
  {
    assert (entries + [last])[..|entries|] == entries;
  }

  lemma {:induction false} AddedTax(entries: seq<RateEntry>, item: Item)
    ensures TaxOfEntries(AddRate(entries, item)) == TaxOfEntries(entries) + item.taxAmount
  {
    hide TaxOfEntries;
    NoEntries();
    LastEntry(entries, RateEntry(item.taxRate, item.taxable, item.taxAmount));
    if entries == [] {
      assert entries + [RateEntry(item.taxRate, item.taxable, item.taxAmount)] == [RateEntry(item.taxRate, item.taxable, item.taxAmount)];
    } else {
      var n := |entries| - 1;
      assert entries == entries[..n] + [entries[n]];
      LastEntry(entries[..n], entries[n]);
      LastEntry(entries[..n], RateEntry(entries[n].rate, entries[n].taxable + item.taxable, entries[n].tax + item.taxAmount));
      AddedTax(entries[..n], item);
      LastEntry(AddRate(entries[..n], item), entries[n]);
    }
  }

  ghost predicate AllBelow(entries: seq<RateEntry>, rate: int) { forall i :: 0 <= i < |entries| ==> entries[i].rate < rate }

  lemma OrderLast(entries: seq<RateEntry>, last: RateEntry)
    ensures InOrder(entries + [last]) <==> InOrder(entries) && AllBelow(entries, last.rate)
  {
    var all := entries + [last];
    if InOrder(all) {
      forall i, j | 0 <= i < j < |entries| ensures entries[i].rate < entries[j].rate { assert all[i].rate < all[j].rate; }
      forall i | 0 <= i < |entries| ensures entries[i].rate < last.rate { assert all[i].rate < all[|entries|].rate; }
    }
  }

  lemma BelowLast(entries: seq<RateEntry>, last: RateEntry, rate: int)
    ensures AllBelow(entries + [last], rate) <==> AllBelow(entries, rate) && last.rate < rate
  {
    var all := entries + [last];
    if AllBelow(all, rate) {
      forall i | 0 <= i < |entries| ensures entries[i].rate < rate { assert all[i].rate < rate; }
      assert all[|entries|].rate < rate;
    }
  }

  lemma NoneBelow(rate: int)
    ensures AllBelow([], rate)
  {
  }

  lemma BelowRaised(entries: seq<RateEntry>, low: int, rate: int)
    requires AllBelow(entries, low) && low <= rate
    ensures AllBelow(entries, rate)
  {
  }

  lemma {:induction false} AddedBelow(entries: seq<RateEntry>, item: Item, rate: int)
    requires AllBelow(entries, rate) && item.taxRate < rate
    ensures AllBelow(AddRate(entries, item), rate)
  {
    hide AllBelow;
    NoneBelow(rate);
    BelowLast(entries, RateEntry(item.taxRate, item.taxable, item.taxAmount), rate);
    if entries == [] {
      assert entries + [RateEntry(item.taxRate, item.taxable, item.taxAmount)] == [RateEntry(item.taxRate, item.taxable, item.taxAmount)];
    } else {
      var n := |entries| - 1;
      assert entries == entries[..n] + [entries[n]];
      BelowLast(entries[..n], entries[n], rate);
      BelowLast(entries[..n], RateEntry(entries[n].rate, entries[n].taxable + item.taxable, entries[n].tax + item.taxAmount), rate);
      AddedBelow(entries[..n], item, rate);
      BelowLast(AddRate(entries[..n], item), entries[n], rate);
    }
  }

  lemma {:induction false} AddedInOrder(entries: seq<RateEntry>, item: Item)
    requires InOrder(entries)
    ensures InOrder(AddRate(entries, item))
  {
    hide AllBelow, InOrder;
    NoEntries();
    NoneBelow(item.taxRate);
    OrderLast(entries, RateEntry(item.taxRate, item.taxable, item.taxAmount));
    if entries == [] {
      assert entries + [RateEntry(item.taxRate, item.taxable, item.taxAmount)] == [RateEntry(item.taxRate, item.taxable, item.taxAmount)];
    } else {
      var n := |entries| - 1;
      var last := entries[n];
      assert entries == entries[..n] + [last];
      OrderLast(entries[..n], last);
      OrderLast(entries[..n], RateEntry(last.rate, last.taxable + item.taxable, last.tax + item.taxAmount));
      if last.rate < item.taxRate {
        BelowRaised(entries[..n], last.rate, item.taxRate);
        BelowLast(entries[..n], last, item.taxRate);
      } else if last.rate > item.taxRate {
        AddedInOrder(entries[..n], item);
        AddedBelow(entries[..n], item, last.rate);
        OrderLast(AddRate(entries[..n], item), last);
      }
    }
  }

  /** The items a rate's entry is of: those of that rate with any tax to show. */
  predicate OfRate(item: Item, rate: int) { item.taxRate == rate && HasTax(item) }

  function TaxableOfRate(items: seq<Item>, rate: int): (r: int) {
    if items == [] then 0 else TaxableOfRate(items[..|items| - 1], rate) + if OfRate(items[|items| - 1], rate) then items[|items| - 1].taxable else 0
  }

  function TaxOfRate(items: seq<Item>, rate: int): (r: int) {
    if items == [] then 0 else TaxOfRate(items[..|items| - 1], rate) + if OfRate(items[|items| - 1], rate) then items[|items| - 1].taxAmount else 0
  }

  ghost predicate IsSumOf(entry: RateEntry, items: seq<Item>) {
    entry.taxable == TaxableOfRate(items, entry.rate) && entry.tax == TaxOfRate(items, entry.rate)
  }

  ghost predicate Lists(entries: seq<RateEntry>, rate: int) { exists i :: 0 <= i < |entries| && entries[i].rate == rate }

  /** An item is added to its rate's entry, begun when there is none; the other entries stay. */
  ghost predicate Added(entries: seq<RateEntry>, item: Item, r: seq<RateEntry>) {
    && (forall i :: 0 <= i < |entries| && entries[i].rate != item.taxRate ==> entries[i] in r)
    && (forall i :: 0 <= i < |r| ==>
          if r[i].rate != item.taxRate then r[i] in entries
          else if Lists(entries, item.taxRate) then RateEntry(item.taxRate, r[i].taxable - item.taxable, r[i].tax - item.taxAmount) in entries
          else r[i] == RateEntry(item.taxRate, item.taxable, item.taxAmount))
    && Lists(r, item.taxRate)
  }

  lemma ListsLast(entries: seq<RateEntry>, last: RateEntry, rate: int)
    ensures Lists(entries + [last], rate) <==> Lists(entries, rate) || last.rate == rate
  {
    var all := entries + [last];
    if Lists(entries, rate) {
      var i :| 0 <= i < |entries| && entries[i].rate == rate;
      assert all[i].rate == rate;
    }
    assert all[|entries|] == last;
    if Lists(all, rate) && last.rate != rate {
      var i :| 0 <= i < |all| && all[i].rate == rate;
      assert entries[i].rate == rate;
    }
  }

  lemma AddedLast(front: seq<RateEntry>, item: Item, r: seq<RateEntry>, last: RateEntry)
    requires Added(front, item, r) && last.rate != item.taxRate
    ensures Added(front + [last], item, r + [last])
  {
    hide Lists;
    ListsLast(front, last, item.taxRate);
    ListsLast(r, last, item.taxRate);
    var all := r + [last];
    forall i | 0 <= i < |all| ensures all[i].rate != item.taxRate ==> all[i] in front + [last] {
      assert i < |r| ==> all[i] == r[i];
    }
  }

  lemma AddedNew(entries: seq<RateEntry>, item: Item)
    requires !Lists(entries, item.taxRate)
    ensures Added(entries, item, entries + [RateEntry(item.taxRate, item.taxable, item.taxAmount)])
  {
    hide Lists;
    ListsLast(entries, RateEntry(item.taxRate, item.taxable, item.taxAmount), item.taxRate);
    NotListed(entries, item.taxRate);
  }

  lemma NotListed(entries: seq<RateEntry>, rate: int)
    requires !Lists(entries, rate)
    ensures forall i :: 0 <= i < |entries| ==> entries[i].rate != rate
  {
  }

  lemma AddedTo(front: seq<RateEntry>, item: Item, last: RateEntry)
    requires last.rate == item.taxRate && AllBelow(front, last.rate)
    ensures Added(front + [last], item, front + [RateEntry(last.rate, last.taxable + item.taxable, last.tax + item.taxAmount)])
  {
    hide Lists;
    ListsLast(front, last, item.taxRate);
    ListsLast(front, RateEntry(last.rate, last.taxable + item.taxable, last.tax + item.taxAmount), item.taxRate);
    assert (front + [last])[|front|] == last;
  }

  lemma BelowNotListed(entries: seq<RateEntry>, rate: int)
    requires AllBelow(entries, rate)
    ensures !Lists(entries, rate)
  {
  }

  lemma {:induction false} AddRateAdds(entries: seq<RateEntry>, item: Item)
    requires InOrder(entries)
    ensures Added(entries, item, AddRate(entries, item))
  {
    hide AllBelow, InOrder, Added, Lists;
    if entries == [] {
      NoneBelow(item.taxRate);
      BelowNotListed([], item.taxRate);
      AddedNew([], item);
      assert [] + [RateEntry(item.taxRate, item.taxable, item.taxAmount)] == [RateEntry(item.taxRate, item.taxable, item.taxAmount)];
    } else {
      var n := |entries| - 1;
      var last := entries[n];
      assert entries == entries[..n] + [last];
      OrderLast(entries[..n], last);
      if last.rate == item.taxRate {
        AddedTo(entries[..n], item, last);
      } else if last.rate < item.taxRate {
        BelowRaised(entries[..n], last.rate, item.taxRate);
        BelowLast(entries[..n], last, item.taxRate);
        BelowNotListed(entries, item.taxRate);
        AddedNew(entries, item);
      } else {
        AddRateAdds(entries[..n], item);
        AddedLast(entries[..n], item, AddRate(entries[..n], item), last);
      }
    }
  }

  /** What an item adds to the sums of one rate. */
  lemma OneMoreOfRate(items: seq<Item>, rate: int)
    requires items != []
    ensures var before, last := items[..|items| - 1], items[|items| - 1];
            && TaxableOfRate(items, rate) == TaxableOfRate(before, rate) + (if OfRate(last, rate) then last.taxable else 0)
            && TaxOfRate(items, rate) == TaxOfRate(before, rate) + (if OfRate(last, rate) then last.taxAmount else 0)
  {
  }

  ghost predicate SumsOf(entries: seq<RateEntry>, items: seq<Item>) {
    && (forall entry :: entry in entries ==> IsSumOf(entry, items))
    && (forall i :: 0 <= i < |items| && HasTax(items[i]) ==> Lists(entries, items[i].taxRate))
    && (forall rate :: !Lists(entries, rate) ==> TaxableOfRate(items, rate) == 0 == TaxOfRate(items, rate))
  }

  lemma AddedSums(before: seq<RateEntry>, items: seq<Item>, after: seq<RateEntry>)
    requires items != [] && SumsOf(before, items[..|items| - 1]) && HasTax(items[|items| - 1]) && Added(before, items[|items| - 1], after)
    ensures SumsOf(after, items)
  {
    hide TaxableOfRate, TaxOfRate, HasTax;
    var n := |items| - 1;
    var last := items[n];
    forall entry | entry in after ensures IsSumOf(entry, items) {
      OneMoreOfRate(items, entry.rate);
      var i :| 0 <= i < |after| && after[i] == entry;
      if entry.rate == last.taxRate && Lists(before, last.taxRate) {
        assert IsSumOf(RateEntry(last.taxRate, entry.taxable - last.taxable, entry.tax - last.taxAmount), items[..n]);
      }
    }
    forall rate | Lists(before, rate) || rate == last.taxRate ensures Lists(after, rate) {
      StillListed(before, last, after, rate);
    }
    forall i | 0 <= i < |items| && HasTax(items[i]) ensures Lists(after, items[i].taxRate) {
      if i < n { assert items[..n][i] == items[i]; }
    }
    forall rate | !Lists(after, rate) ensures TaxableOfRate(items, rate) == 0 == TaxOfRate(items, rate) {
      OneMoreOfRate(items, rate);
    }
  }

  lemma StillListed(before: seq<RateEntry>, item: Item, after: seq<RateEntry>, rate: int)
    requires Added(before, item, after) && (Lists(before, rate) || rate == item.taxRate)
    ensures Lists(after, rate)
  {
    if rate != item.taxRate {
      var i :| 0 <= i < |before| && before[i].rate == rate;
      var j :| 0 <= j < |after| && after[j] == before[i];
    }
  }

  lemma SameSums(entries: seq<RateEntry>, items: seq<Item>)
    requires items != [] && SumsOf(entries, items[..|items| - 1]) && !HasTax(items[|items| - 1])
    ensures SumsOf(entries, items)
  {
    hide TaxableOfRate, TaxOfRate, HasTax, Lists;
    forall rate ensures TaxableOfRate(items, rate) == TaxableOfRate(items[..|items| - 1], rate) && TaxOfRate(items, rate) == TaxOfRate(items[..|items| - 1], rate) {
      OneMoreOfRate(items, rate);
    }
  }

  /**
   * The summary has each rate that any item is taxed at once, in order, with the taxable value and the tax of all
   * the items of that rate; and its tax is all the items' tax.
   */
  lemma {:induction false} SummaryAddsUp(items: seq<Item>)
    ensures InOrder(ByRate(items)) && SumsOf(ByRate(items), items) && TaxOfEntries(ByRate(items)) == TaxOfItems(items)
  {
    hide AddRate, InOrder, TaxOfEntries, SumsOf, Added;
    if items == [] {
      NoEntries();
      NoSums();
    } else {
      var before, last := ByRate(items[..|items| - 1]), items[|items| - 1];
      SummaryAddsUp(items[..|items| - 1]);
      AddedInOrder(before, last);
      AddedTax(before, last);
      if HasTax(last) {
        AddRateAdds(before, last);
        AddedSums(before, items, AddRate(before, last));
      } else {
        SameSums(before, items);
      }
    }
  }

  lemma NoSums()
    ensures SumsOf([], [])
  {
  }

  lemma NoEntries()
    ensures InOrder([]) && TaxOfEntries([]) == 0
  {
  }
}
