/**
 * What a receipt says and what it leaves out (packages/contracts/src/receiptLayout.ts): each of its lines is there for one of
 * these reasons, and whatever there is a reason for is there.
 */
module ReceiptSays {
  import Code128
  import opened DocumentNumbers
  import opened OutboxRows
  import opened ReceiptLayout
  import opened Rounding
  import opened WrapText

  /** Text on lines of its own, in the middle. */
  ghost predicate InMiddle(line: ReceiptLine, text: string, strong: bool, width: nat)
    requires width > 0
  {
    exists part :: part in Wrapped(text, width) && line == ReceiptLine(FitCenter(part, width), strong, false, None)
  }

  ghost predicate LargeInMiddle(line: ReceiptLine, text: string, width: nat)
    requires width >= 2
  {
    exists part :: part in Wrapped(text, width / 2) && line == ReceiptLine(FitCenter(part, width / 2), true, true, None)
  }

  ghost predicate AtLeft(line: ReceiptLine, text: string, indent: string, width: nat)
    requires width > |indent|
  {
    exists part :: part in Wrapped(text, width - |indent|) && line == ReceiptLine(FitLeft(indent + part, width), false, false, None)
  }

  ghost predicate Dashes(line: ReceiptLine, width: nat) {
    |line.text| == width && (forall i :: 0 <= i < width ==> line.text[i] == '-') && !line.strong && !line.large && line.barcode == None
  }

  /** A caption and a figure on one line. */
  ghost predicate Beside(line: ReceiptLine, caption: string, value: string, width: nat, labelWidth: nat) {
    line == ReceiptLine(KeyValue(caption, value, width, labelWidth), false, false, None)
  }

  ghost predicate Detail(line: ReceiptLine, caption: string, value: string, strong: bool, width: nat) {
    line == ReceiptLine(DetailRow(caption, value, width), strong, false, None)
  }

  // ----- Heading, fields and the end

  ghost predicate SaidAtTop(line: ReceiptLine, doc: Document, show: Sections, width: nat)
    requires width >= 2
  {
    || (if show.largeStoreName then LargeInMiddle(line, doc.storeName, width) else InMiddle(line, doc.storeName, true, width))
    || (show.header && exists text :: text in doc.headerLines && InMiddle(line, text, false, width))
    || (doc.title != "" && InMiddle(line, doc.title, true, width))
    || Dashes(line, width)
  }

  /** A field with a value is there, but the cashier or the customer only where they are shown. */
  ghost predicate FieldShown(field: Field, show: Sections) {
    Trim(field.value) != "" && (match field.key case None => true case Some(Cashier) => show.cashier case Some(Customer) => show.customer)
  }

  ghost predicate SaidInFields(line: ReceiptLine, doc: Document, show: Sections, width: nat)
    requires width > 0
  {
    || (exists field :: (field in doc.fields || field in doc.legalFields) && FieldShown(field, show)
          && if field.fullLine then AtLeft(line, field.caption + ": " + field.value, "", width)
             else Beside(line, field.caption, field.value, width, FieldLabelWidth(ShownFields(doc.fields + doc.legalFields, show), width)))
    || (Dashes(line, width) && exists field :: (field in doc.fields || field in doc.legalFields) && FieldShown(field, show))
  }

  ghost predicate SaidAtEnd(line: ReceiptLine, doc: Document, show: Sections, width: nat)
    requires width > 0
  {
    || (show.itemCount && doc.items != []
        && InMiddle(line, "Items: " + Decimal(|doc.items|)
             + (if forall item :: item in doc.items ==> item.qty % 1000 == 0 then "   Qty: " + FormatQty(TotalQty(doc.items)) else ""), false, width))
    || (show.savings && TotalDiscount(doc.items) + doc.orderDiscount > 0
        && InMiddle(line, "You saved " + Money(TotalDiscount(doc.items) + doc.orderDiscount), true, width))
    || (show.footer && exists text :: text in doc.footerLines && InMiddle(line, text, false, width))
    || (exists text :: text in doc.legalFooter && InMiddle(line, text, false, width))
    || (show.barcode && Code128.CanEncode(doc.barcodeValue)
        && line == ReceiptLine(FitCenter(doc.barcodeValue, width), false, false, Some(doc.barcodeValue)))
  }

  lemma CenteredSays(text: string, strong: bool, width: nat, line: ReceiptLine)
    requires width > 0
    ensures line in Centered(text, strong, width) <==> InMiddle(line, text, strong, width)
  {
    hide Wrapped, FitCenter, Exact;
    var lines := Wrapped(text, width);
    if InMiddle(line, text, strong, width) {
      var part :| part in lines && line == ReceiptLine(FitCenter(part, width), strong, false, None);
      var i :| 0 <= i < |lines| && lines[i] == part;
      assert Centered(text, strong, width)[i] == line;
    }
  }

  lemma LargeSays(text: string, width: nat, line: ReceiptLine)
    requires width >= 2
    ensures line in Large(text, width) <==> LargeInMiddle(line, text, width)
  {
    hide Wrapped, FitCenter, Exact;
    var lines := Wrapped(text, width / 2);
    if LargeInMiddle(line, text, width) {
      var part :| part in lines && line == ReceiptLine(FitCenter(part, width / 2), true, true, None);
      var i :| 0 <= i < |lines| && lines[i] == part;
      assert Large(text, width)[i] == line;
    }
  }

  lemma LeftsSays(text: string, indent: string, width: nat, line: ReceiptLine)
    requires width > |indent|
    ensures line in Lefts(text, indent, width) <==> AtLeft(line, text, indent, width)
  {
    hide Wrapped, FitLeft, Exact;
    var lines := Wrapped(text, width - |indent|);
    if AtLeft(line, text, indent, width) {
      var part :| part in lines && line == ReceiptLine(FitLeft(indent + part, width), false, false, None);
      var i :| 0 <= i < |lines| && lines[i] == part;
      assert Lefts(text, indent, width)[i] == line;
    }
  }

  lemma {:induction false} AllCenteredSay(texts: seq<string>, width: nat, line: ReceiptLine)
    requires width > 0
    ensures line in CenteredAll(texts, width) <==> exists text :: text in texts && InMiddle(line, text, false, width)
  {
    hide Centered, InMiddle, Exact;
    if texts != [] {
      var n := |texts| - 1;
      assert texts == texts[..n] + [texts[n]];
      AllCenteredSay(texts[..n], width, line);
      CenteredSays(texts[n], false, width, line);
      assert texts[n] in texts;
    }
  }

  lemma SeparatorSays(width: nat, line: ReceiptLine)
    ensures line in Separator(width) <==> Dashes(line, width)
  {
    if Dashes(line, width) { assert line.text == seq(width, i => '-'); }
  }

  lemma HeadingSays(doc: Document, show: Sections, width: nat, line: ReceiptLine)
    requires width >= 2
    ensures line in Heading(doc, show, width) <==> SaidAtTop(line, doc, show, width)
  {
    hide Centered, CenteredAll, Large, Separator, InMiddle, LargeInMiddle, Dashes, Exact;
    CenteredSays(doc.storeName, true, width, line);
    LargeSays(doc.storeName, width, line);
    AllCenteredSay(doc.headerLines, width, line);
    CenteredSays(doc.title, true, width, line);
    SeparatorSays(width, line);
  }

  lemma ShownWhen(field: Field, show: Sections)
    ensures Shown(field, show) <==> FieldShown(field, show)
  {
    hide Trim;
  }

  lemma {:induction false} FieldsSay(fields: seq<Field>, width: nat, labelWidth: nat, line: ReceiptLine)
    requires width > 0
    ensures line in FieldsLines(fields, width, labelWidth) <==> exists field :: field in fields && line in FieldLines(field, width, labelWidth)
  {
    hide FieldLines, Exact;
    if fields != [] {
      var n := |fields| - 1;
      assert fields == fields[..n] + [fields[n]];
      FieldsSay(fields[..n], width, labelWidth, line);
      assert fields[n] in fields;
    }
  }

  lemma OneFieldSays(field: Field, width: nat, labelWidth: nat, line: ReceiptLine)
    requires width > 0
    ensures line in FieldLines(field, width, labelWidth) <==>
            if field.fullLine then AtLeft(line, field.caption + ": " + field.value, "", width) else Beside(line, field.caption, field.value, width, labelWidth)
  {
    hide Lefts, KeyValue, AtLeft, Exact;
    LeftsSays(field.caption + ": " + field.value, "", width, line);
  }

  lemma FieldBlockSays(doc: Document, show: Sections, width: nat, line: ReceiptLine)
    requires width > 0
    ensures line in Fields(doc, show, width) <==> SaidInFields(line, doc, show, width)
  {
    hide FieldsLines, FieldLines, ShownFields, Shown, FieldShown, Separator, Dashes, AtLeft, Beside, FieldLabelWidth, Exact;
    var all := doc.fields + doc.legalFields;
    var fields := ShownFields(all, show);
    forall field ensures field in fields <==> (field in doc.fields || field in doc.legalFields) && FieldShown(field, show) {
      ShownAre(all, show, field);
      ShownWhen(field, show);
    }
    FieldsSay(fields, width, FieldLabelWidth(fields, width), line);
    forall field ensures line in FieldLines(field, width, FieldLabelWidth(fields, width)) <==>
      if field.fullLine then AtLeft(line, field.caption + ": " + field.value, "", width)
      else Beside(line, field.caption, field.value, width, FieldLabelWidth(fields, width))
    {
      OneFieldSays(field, width, FieldLabelWidth(fields, width), line);
    }
    SeparatorSays(width, line);
    if fields != [] { assert fields[0] in fields; }
  }

  lemma EndSays(doc: Document, show: Sections, width: nat, line: ReceiptLine)
    requires width > 0
    ensures line in Counts(doc, show, width) + Ending(doc, show, width) <==> SaidAtEnd(line, doc, show, width)
  {
    hide Centered, CenteredAll, InMiddle, Exact, FormatQty, Money, Decimal, Code128.CanEncode, TotalQty, TotalDiscount, FitCenter;
    CenteredSays("Items: " + Decimal(|doc.items|) + (if WholeUnits(doc.items) then "   Qty: " + FormatQty(TotalQty(doc.items)) else ""), false, width, line);
    CenteredSays("You saved " + Money(TotalDiscount(doc.items) + doc.orderDiscount), true, width, line);
    AllCenteredSay(doc.footerLines, width, line);
    AllCenteredSay(doc.legalFooter, width, line);
    assert WholeUnits(doc.items) <==> forall item :: item in doc.items ==> item.qty % 1000 == 0 by { WholeWhen(doc.items); }
  }

  lemma WholeWhen(items: seq<Item>)
    ensures WholeUnits(items) <==> forall item :: item in items ==> item.qty % 1000 == 0
  {
  }

  // ----- Items

  /** What any style but the block ones says of an item beside its own row. */
  ghost predicate SaidBelow(line: ReceiptLine, item: Item, show: Sections, width: nat)
    requires width > 2
  {
    || (show.hsn && item.hsn != "" && line == ReceiptLine(FitLeft("  HSN " + item.hsn, width), false, false, None))
    || (item.batches != "" && AtLeft(line, item.batches, "  ", width))
    || (show.itemDiscount && item.discount > 0 && Detail(line, "discount", "-" + Money(item.discount), false, width))
  }

  /** In the table: name, quantity, unit price and total in their columns, the rest of a long name below. */
  ghost predicate SaidInTable(line: ReceiptLine, item: Item, width: nat)
    requires width >= 20
  {
    var table, names := TableColumns(width), Wrapped(item.name, TableColumns(width).item - 1);
    || (names != [] && line == ReceiptLine(FitLeft(names[0], table.item) + FitRight(FormatQty(item.qty), table.qty) + FitRight(Money(UnitPrice(item)), table.price)
                                           + FitRight(Money(item.total), table.total), false, false, None))
    || exists i :: 1 <= i < |names| && line == ReceiptLine(FitLeft(names[i], width), false, false, None)
  }

  ghost predicate SaidInBlock(line: ReceiptLine, item: Item, index: nat, numbered: bool, show: Sections, width: nat)
    requires width >= 20
  {
    var taxed := item.taxRate > 0 || item.taxAmount > 0;
    var together := numbered && show.hsn && item.hsn != "";
    || AtLeft(line, if numbered then Decimal(index + 1) + ". " + item.name else item.name, "", width)
    || (together && show.itemTax && taxed && Detail(line, "HSN " + item.hsn + "  GST " + FormatRate(item.taxRate) + "%", Money(item.taxAmount), false, width))
    || (show.hsn && item.hsn != "" && !(together && show.itemTax && taxed) && Detail(line, "HSN " + item.hsn, "", false, width))
    || (item.batches != "" && AtLeft(line, item.batches, "  ", width))
    || Detail(line, item.qtyLabel + " x " + Money(item.rate), Money(item.amount), false, width)
    || (show.itemTax && taxed && !together && Detail(line, "tax " + FormatRate(item.taxRate) + "%", Money(item.taxAmount), false, width))
    || (show.itemDiscount && item.discount > 0 && Detail(line, "discount", "-" + Money(item.discount), false, width))
    || (show.lineTotal && Detail(line, "item total", Money(item.total), true, width))
  }

  ghost predicate SaidOfItem(line: ReceiptLine, item: Item, index: nat, style: Style, show: Sections, width: nat)
    requires width >= 20
  {
    match style
    case Compact => SaidInTable(line, item, width) || SaidBelow(line, item, show, width)
    case Minimal => (exists text :: text in LeftRight(FormatQty(item.qty) + " x " + item.name, Money(item.total), width) && line == ReceiptLine(text, false, false, None))
                    || SaidBelow(line, item, show, width)
    case Detailed => SaidInBlock(line, item, index, true, show, width)
    case Classic => SaidInBlock(line, item, index, false, show, width)
  }

  ghost predicate SaidOfItems(line: ReceiptLine, doc: Document, style: Style, show: Sections, width: nat)
    requires width >= 20
  {
    || (exists i :: 0 <= i < |doc.items| && SaidOfItem(line, doc.items[i], i, style, show, width))
    || (style == Compact && line == ReceiptLine(FitLeft("Item", TableColumns(width).item) + FitRight("Qty", TableColumns(width).qty)
                                                + FitRight("Rate", TableColumns(width).price) + FitRight("Amount", TableColumns(width).total), false, false, None))
    || Dashes(line, width)
  }

  lemma BelowSays(item: Item, show: Sections, width: nat, line: ReceiptLine)
    requires width > 2
    ensures line in HsnLine(item, show, width) + Batches(item, width) + Discounted(item, show, width) <==> SaidBelow(line, item, show, width)
  {
    hide Lefts, AtLeft, FitLeft, DetailRow, Money, Exact;
    LeftsSays(item.batches, "  ", width, line);
  }

  lemma TableSays(item: Item, width: nat, line: ReceiptLine)
    requires width >= 20
    ensures var names := Wrapped(item.name, TableColumns(width).item - 1);
            line in seq(|names|, i requires 0 <= i < |names| => Line(if i == 0 then CompactRow(item, names[i], width) else FitLeft(names[i], width)))
            <==> SaidInTable(line, item, width)
  {
    hide Wrapped, FitLeft, FitRight, FormatQty, Money, UnitPrice, TableColumns;
    var names := Wrapped(item.name, TableColumns(width).item - 1);
    var rows := seq(|names|, i requires 0 <= i < |names| => Line(if i == 0 then CompactRow(item, names[i], width) else FitLeft(names[i], width)));
    if SaidInTable(line, item, width) {
      if names != [] && line == Line(CompactRow(item, names[0], width)) {
        assert rows[0] == line;
      } else {
        var i :| 1 <= i < |names| && line == ReceiptLine(FitLeft(names[i], width), false, false, None);
        assert rows[i] == line;
      }
    }
  }

  lemma CompactSays(item: Item, show: Sections, width: nat, line: ReceiptLine)
    requires width >= 20
    ensures line in CompactItem(item, show, width) <==> SaidInTable(line, item, width) || SaidBelow(line, item, show, width)
  {
    hide SaidInTable, SaidBelow, HsnLine, Batches, Discounted, CompactRow, FitLeft, Wrapped, TableColumns, Exact;
    TableSays(item, width, line);
    BelowSays(item, show, width, line);
  }

  lemma MinimalSays(item: Item, show: Sections, width: nat, line: ReceiptLine)
    requires width >= 20
    ensures line in MinimalItem(item, show, width) <==>
            (exists text :: text in LeftRight(FormatQty(item.qty) + " x " + item.name, Money(item.total), width) && line == ReceiptLine(text, false, false, None))
            || SaidBelow(line, item, show, width)
  {
    hide SaidBelow, HsnLine, Batches, Discounted, LeftRight, FormatQty, Money, Exact;
    BelowSays(item, show, width, line);
    var texts := LeftRight(FormatQty(item.qty) + " x " + item.name, Money(item.total), width);
    var lines := seq(|texts|, i requires 0 <= i < |texts| => Line(texts[i]));
    forall text | text in texts ensures Line(text) in lines {
      var i :| 0 <= i < |texts| && texts[i] == text;
      assert lines[i] == Line(text);
    }
  }

  lemma BlockSays(item: Item, index: nat, style: Style, show: Sections, width: nat, line: ReceiptLine)
    requires width >= 20
    ensures line in BlockItem(item, index, style, show, width) <==> SaidInBlock(line, item, index, style.Detailed?, show, width)
  {
    hide Lefts, AtLeft, DetailRow, Money, FormatRate, Decimal, Exact;
    LeftsSays(if style.Detailed? then Decimal(index + 1) + ". " + item.name else item.name, "", width, line);
    LeftsSays(item.batches, "  ", width, line);
  }

  lemma {:induction false} ItemsSay(items: seq<Item>, style: Style, show: Sections, width: nat, line: ReceiptLine)
    requires width >= 20
    ensures line in ItemsLines(items, style, show, width) <==> exists i :: 0 <= i < |items| && line in ItemLines(items[i], i, style, show, width)
  {
    hide ItemLines;
    if items != [] {
      var n := |items| - 1;
      ItemsSay(items[..n], style, show, width, line);
      if line in ItemsLines(items[..n], style, show, width) {
        var i :| 0 <= i < n && line in ItemLines(items[..n][i], i, style, show, width);
        assert line in ItemLines(items[i], i, style, show, width);
      }
      if exists i :: 0 <= i < n && line in ItemLines(items[i], i, style, show, width) {
        var i :| 0 <= i < n && line in ItemLines(items[i], i, style, show, width);
        assert line in ItemLines(items[..n][i], i, style, show, width);
      }
    }
  }

  lemma OneItemSays(item: Item, index: nat, style: Style, show: Sections, width: nat, line: ReceiptLine)
    requires width >= 20
    ensures line in ItemLines(item, index, style, show, width) <==> SaidOfItem(line, item, index, style, show, width)
  {
    hide CompactItem, MinimalItem, BlockItem, SaidInTable, SaidBelow, SaidInBlock, LeftRight, FormatQty, Money;
    CompactSays(item, show, width, line);
    MinimalSays(item, show, width, line);
    BlockSays(item, index, style, show, width, line);
  }

  lemma ItemBlockSays(doc: Document, style: Style, show: Sections, width: nat, line: ReceiptLine)
    requires width >= 20
    ensures line in Items(doc, style, show, width) <==> SaidOfItems(line, doc, style, show, width)
  {
    hide ItemsLines, ItemLines, SaidOfItem, Separator, Dashes, FitLeft, FitRight, TableColumns, Exact;
    ItemsSay(doc.items, style, show, width, line);
    SeparatorSays(width, line);
    forall i | 0 <= i < |doc.items|
      ensures line in ItemLines(doc.items[i], i, style, show, width) <==> SaidOfItem(line, doc.items[i], i, style, show, width)
    {
      OneItemSays(doc.items[i], i, style, show, width, line);
    }
  }

  // ----- Totals, payments and the GST summary

  /** The figures between the items and the total. */
  ghost predicate IsTotal(caption: string, value: string, doc: Document, style: Style) {
    || (doc.itemsTotal.Some? && (doc.orderDiscount > 0 || style != Minimal) && caption == "Items Total" && value == Money(doc.itemsTotal.value))
    || (doc.orderDiscount > 0 && caption == "Order Discount" && value == "- " + Money(doc.orderDiscount))
    || (exists tax :: tax in doc.taxTotals && caption == tax.caption && value == Money(tax.amount))
    || (doc.roundOff > 0 && caption == "Round off" && value == "+ " + Money(doc.roundOff))
    || (doc.roundOff < 0 && caption == "Round off" && value == "- " + Money(-doc.roundOff))
  }

  /** What was paid, where payments are shown, and what is due: nothing due only where they are. */
  ghost predicate IsPayment(caption: string, value: string, doc: Document, show: Sections) {
    || (show.payments && exists payment :: payment in doc.payments && caption == payment.caption && value == Money(payment.amount))
    || (doc.due.Some? && (show.payments || doc.due.value > 0) && caption == "Remaining Due" && value == Money(doc.due.value))
  }

  lemma TotalsAre(doc: Document, style: Style, caption: string, value: string)
    ensures Labelled(caption, value) in TotalRows(doc, style) <==> IsTotal(caption, value, doc, style)
  {
    hide Money;
    AmountsAre(doc.taxTotals, caption, value);
  }

  lemma PaymentsAre(doc: Document, show: Sections, caption: string, value: string)
    ensures Labelled(caption, value) in PaymentRows(doc, show) <==> IsPayment(caption, value, doc, show)
  {
    hide Money;
    AmountsAre(doc.payments, caption, value);
  }

  lemma AmountsAre(amounts: seq<Amount>, caption: string, value: string)
    ensures Labelled(caption, value) in Amounts(amounts) <==> exists amount :: amount in amounts && caption == amount.caption && value == Money(amount.amount)
  {
    hide Money;
    if exists amount :: amount in amounts && caption == amount.caption && value == Money(amount.amount) {
      var amount :| amount in amounts && caption == amount.caption && value == Money(amount.amount);
      var i :| 0 <= i < |amounts| && amounts[i] == amount;
      assert Amounts(amounts)[i] == Labelled(caption, value);
    }
  }

  function LabelWidth(rows: seq<Labelled>, least: nat, width: nat): (r: nat) { Min(Max(LongestOf(rows), least), width * 5 / 10) }

  lemma RowsSay(rows: seq<Labelled>, least: nat, width: nat, line: ReceiptLine)
    ensures line in Rows(rows, least, width) <==>
            (exists caption, value :: Labelled(caption, value) in rows && Beside(line, caption, value, width, LabelWidth(rows, least, width)))
            || (rows != [] && Dashes(line, width))
  {
    hide KeyValue, Separator, Dashes, LongestOf, Exact;
    SeparatorSays(width, line);
    var lines := RowLines(rows, width, LabelWidth(rows, least, width));
    if exists caption, value :: Labelled(caption, value) in rows && Beside(line, caption, value, width, LabelWidth(rows, least, width)) {
      var caption, value :| Labelled(caption, value) in rows && Beside(line, caption, value, width, LabelWidth(rows, least, width));
      var i :| 0 <= i < |rows| && rows[i] == Labelled(caption, value);
      assert lines[i] == line;
    }
    if line in lines {
      var i :| 0 <= i < |lines| && lines[i] == line;
      assert rows[i] == Labelled(rows[i].caption, rows[i].value);
    }
  }

  ghost predicate SaidOfMoney(line: ReceiptLine, doc: Document, style: Style, show: Sections, width: nat) {
    || (exists caption, value :: IsTotal(caption, value, doc, style) && Beside(line, caption, value, width, LabelWidth(TotalRows(doc, style), 0, width)))
    || (exists caption, value :: IsPayment(caption, value, doc, show) && Beside(line, caption, value, width, LabelWidth(PaymentRows(doc, show), 7, width)))
    || (if show.largeTotal then
          exists text :: text in LeftRight(doc.grandTotalLabel, Money(doc.grandTotal), width / 2) && line == ReceiptLine(text, true, true, None)
        else line == ReceiptLine(KeyValue(doc.grandTotalLabel, Money(doc.grandTotal), width, Max(|doc.grandTotalLabel|, 5)), true, false, None))
    || Dashes(line, width)
  }

  lemma GrandTotalSays(doc: Document, show: Sections, width: nat, line: ReceiptLine)
    ensures line in GrandTotal(doc, show, width) <==>
            if show.largeTotal then
              exists text :: text in LeftRight(doc.grandTotalLabel, Money(doc.grandTotal), width / 2) && line == ReceiptLine(text, true, true, None)
            else line == ReceiptLine(KeyValue(doc.grandTotalLabel, Money(doc.grandTotal), width, Max(|doc.grandTotalLabel|, 5)), true, false, None)
  {
    hide LeftRight, KeyValue, Money, Exact;
    if show.largeTotal {
      var texts := LeftRight(doc.grandTotalLabel, Money(doc.grandTotal), width / 2);
      forall text | text in texts ensures ReceiptLine(text, true, true, None) in GrandTotal(doc, show, width) {
        var i :| 0 <= i < |texts| && texts[i] == text;
        assert GrandTotal(doc, show, width)[i] == ReceiptLine(text, true, true, None);
      }
    }
  }

  lemma MoneySays(doc: Document, style: Style, show: Sections, width: nat, line: ReceiptLine)
    requires width >= 20
    ensures line in Rows(TotalRows(doc, style), 0, width) || line in GrandTotal(doc, show, width) || line in Separator(width)
            || line in Rows(PaymentRows(doc, show), 7, width)
       <==> SaidOfMoney(line, doc, style, show, width)
  {
    hide Rows, TotalRows, PaymentRows, GrandTotal, Separator, Dashes, KeyValue, LeftRight, Money, IsTotal, IsPayment, Beside, LabelWidth, Exact;
    RowsSay(TotalRows(doc, style), 0, width, line);
    RowsSay(PaymentRows(doc, show), 7, width, line);
    GrandTotalSays(doc, show, width, line);
    SeparatorSays(width, line);
    forall caption: string, value: string ensures Labelled(caption, value) in TotalRows(doc, style) <==> IsTotal(caption, value, doc, style) {
      TotalsAre(doc, style, caption, value);
    }
    forall caption: string, value: string ensures Labelled(caption, value) in PaymentRows(doc, show) <==> IsPayment(caption, value, doc, show) {
      PaymentsAre(doc, show, caption, value);
    }
  }

  /** The summary's head and a row for each rate. */
  ghost predicate SaidOfTax(line: ReceiptLine, doc: Document, show: Sections, width: nat)
    requires width >= 6
  {
    show.taxSummary && ByRate(doc.items) != []
    && (|| line == ReceiptLine(SummaryRow("GST%", "Taxable", "Tax", width), false, false, None)
        || (exists entry :: entry in ByRate(doc.items)
              && line == ReceiptLine(SummaryRow(FormatRate(entry.rate) + "%", Money(entry.taxable), Money(entry.tax), width), false, false, None))
        || Dashes(line, width))
  }

  lemma TaxSays(doc: Document, show: Sections, width: nat, line: ReceiptLine)
    requires width >= 6
    ensures line in TaxSummary(doc, show, width) <==> SaidOfTax(line, doc, show, width)
  {
    hide SummaryRow, FormatRate, Money, Separator, Dashes, ByRate, Exact;
    SeparatorSays(width, line);
    var entries := ByRate(doc.items);
    var rows := seq(|entries|, i requires 0 <= i < |entries| =>
      Line(SummaryRow(FormatRate(entries[i].rate) + "%", Money(entries[i].taxable), Money(entries[i].tax), width)));
    forall entry | entry in entries
      ensures ReceiptLine(SummaryRow(FormatRate(entry.rate) + "%", Money(entry.taxable), Money(entry.tax), width), false, false, None) in rows
    {
      var i :| 0 <= i < |entries| && entries[i] == entry;
      assert rows[i] == Line(SummaryRow(FormatRate(entry.rate) + "%", Money(entry.taxable), Money(entry.tax), width));
    }
  }

  // ----- The whole

  /** A line is on the receipt exactly when there is a reason for it. */
  lemma ReceiptSaysWhen(doc: Document, style: Style, show: Sections, width: nat, line: ReceiptLine)
    requires width >= 20
    ensures line in Rendered(doc, style, show, width) <==>
            || SaidAtTop(line, doc, show, width) || SaidInFields(line, doc, show, width) || SaidOfItems(line, doc, style, show, width)
            || SaidOfMoney(line, doc, style, show, width) || SaidOfTax(line, doc, show, width) || SaidAtEnd(line, doc, show, width)
  {
    hide Heading, Fields, Items, Rows, GrandTotal, Separator, TaxSummary, Counts, Ending, TotalRows, PaymentRows, SaidAtTop, SaidInFields, SaidOfItems,
      SaidOfMoney, SaidOfTax, SaidAtEnd, Exact;
    HeadingSays(doc, show, width, line);
    FieldBlockSays(doc, show, width, line);
    ItemBlockSays(doc, style, show, width, line);
    MoneySays(doc, style, show, width, line);
    TaxSays(doc, show, width, line);
    EndSays(doc, show, width, line);
  }
}
