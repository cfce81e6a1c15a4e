/**
 * The figures on a receipt (packages/contracts/src/receiptLayout.ts): money printed is read back, and the
 * totals of the bill and of each item stand at the end of a line, whole when there is room for them.
 */
module ReceiptFigures {
  import opened DocumentNumbers
  import opened OutboxRows
  import opened ReceiptLayout
  import opened Rounding
  import opened WrapText

  // ----- Money read back

  /** Paise, from rupees with two decimals. */
  function ReadAmount(text: string): (r: Option<nat>) {
    var n := |text|;
    if n >= 4 && text[n - 3] == '.' && AllDigits(text[..n - 3]) && AllDigits(text[n - 2..])
    then Some(Value(text[..n - 3]) * 100 + Value(text[n - 2..])) else None
  }

  function ReadMoney(text: string): (r: Option<int>) {
    if text != "" && text[0] == '-' then
      match ReadAmount(text[1..]) case None => None case Some(paise) => Some(-(paise as int))
    else match ReadAmount(text) case None => None case Some(paise) => Some(paise as int)
  }

  lemma TwoDigits(n: nat)
    requires n < 100
    ensures |Padded(n, 2)| == 2
  {
    if n >= 10 { assert |Decimal(n / 10)| == 1; }
  }

  lemma AmountReadBack(paise: nat)
    ensures ReadAmount(Decimal(paise / 100) + "." + Padded(paise % 100, 2)) == Some(paise)
  {
    hide Padded, Decimal, Value, AllDigits;
    var whole, part := Decimal(paise / 100), Padded(paise % 100, 2);
    TwoDigits(paise % 100);
    DecimalValue(paise / 100);
    PaddedValue(paise % 100, 2);
    var text := whole + "." + part;
    assert text[..|text| - 3] == whole && text[|text| - 2..] == part && text[|text| - 3] == '.';
  }

  /** An amount printed is read back to the paisa: no two amounts print alike. */
  lemma MoneyReadBack(paise: int)
    ensures ReadMoney(Money(paise)) == Some(paise)
  {
    hide ReadAmount, Padded, Decimal;
    if paise < 0 {
      AmountReadBack(-paise);
      assert Money(paise)[1..] == Decimal(-paise / 100) + "." + Padded(-paise % 100, 2);
    } else {
      AmountReadBack(paise);
      assert IsDigit(Decimal(paise / 100)[0]);
      assert Money(paise)[0] == Decimal(paise / 100)[0];
    }
  }

  // ----- Quantities and rates read back

  function DotAt(text: string): (r: nat)
    ensures r <= |text|
  {
    if text == "" || text[0] == '.' then 0 else 1 + DotAt(text[1..])
  }

  /** A number with up to so many decimals, in units of its last place. */
  function ReadPlain(text: string, places: nat): (r: Option<nat>) {
    var at := DotAt(text);
    var whole, part := text[..at], if at == |text| then "" else text[at + 1..];
    if whole != "" && AllDigits(whole) && AllDigits(part) && |part| <= places then Some(Value(whole + part + Zeros(places - |part|))) else None
  }

  function ReadSigned(text: string, places: nat): (r: Option<int>) {
    if text != "" && text[0] == '-' then
      match ReadPlain(text[1..], places) case None => None case Some(n) => Some(-(n as int))
    else match ReadPlain(text, places) case None => None case Some(n) => Some(n as int)
  }

  function Pow10(n: nat): (r: nat) ensures r > 0 { if n == 0 then 1 else 10 * Pow10(n - 1) }

  lemma {:induction false} ValueConcat(a: string, b: string)
    requires AllDigits(a) && AllDigits(b)
    ensures AllDigits(a + b) && Value(a + b) == Value(a) * Pow10(|b|) + Value(b)
  {
    if b == "" {
      assert a + b == a;
    } else {
      var n := |b| - 1;
      assert (a + b)[..|a + b| - 1] == a + b[..n];
      ValueConcat(a, b[..n]);
      ValueNext(a + b);
      ValueNext(b);
      Tenfold(Value(a), Pow10(n));
    }
  }

  lemma ValueNext(text: string)
    requires text != "" && AllDigits(text)
    ensures AllDigits(text[..|text| - 1])
    ensures Value(text) == 10 * Value(text[..|text| - 1]) + (text[|text| - 1] - '0') as int
  {
  }

  lemma Tenfold(a: nat, b: nat)
    ensures a * (10 * b) == 10 * (a * b)
  {
  }

  lemma {:induction false} DotAfter(digits: string, rest: string)
    requires AllDigits(digits) && (rest == "" || rest[0] == '.')
    ensures DotAt(digits + rest) == |digits|
  {
    if digits != "" {
      assert (digits + rest)[1..] == digits[1..] + rest;
      DotAfter(digits[1..], rest);
    } else {
      assert digits + rest == rest;
    }
  }

  /** What is dropped are zeros, and nothing else. */
  lemma {:induction false} ZerosDropped(text: string)
    requires AllDigits(text)
    ensures var kept := DropZeros(text);
            && |kept| <= |text| && AllDigits(kept) && text == kept + Zeros(|text| - |kept|)
            && (kept != "" ==> kept[|kept| - 1] != '0')
  {
    if text != "" && text[|text| - 1] == '0' {
      var n := |text| - 1;
      ZerosDropped(text[..n]);
      var kept := DropZeros(text);
      assert text == text[..n] + "0";
      assert Zeros(|text| - |kept|) == Zeros(n - |kept|) + "0";
    } else {
      assert Zeros(0) == "";
    }
  }

  lemma PlacesOf(n: nat, places: nat)
    requires (places == 2 && n < 100) || (places == 3 && n < 1000)
    ensures |Padded(n, places)| == places
  {
    if n >= 100 {
      assert |Decimal(n / 10 / 10)| == 1;
      assert |Decimal(n / 10)| == 2;
    } else if n >= 10 {
      assert |Decimal(n / 10)| == 1;
    }
  }

  lemma PlainParts(whole: string, decimals: string, places: nat)
    requires AllDigits(whole) && AllDigits(decimals) && whole != "" && |decimals| <= places
    ensures ReadPlain(whole + if decimals == "" then "" else "." + decimals, places) == Some(Value(whole + decimals + Zeros(places - |decimals|)))
  {
    hide Value, DotAt;
    var rest := if decimals == "" then "" else "." + decimals;
    var text := whole + rest;
    DotAfter(whole, rest);
    assert text[..|whole|] == whole;
    if decimals != "" { assert text[|whole| + 1..] == decimals; }
  }

  lemma PlainReadBack(whole: nat, part: nat, places: nat)
    requires (places == 2 && part < 100) || (places == 3 && part < 1000)
    ensures ReadPlain(Plain(whole, part, places), places) == Some(whole * Pow10(places) + part)
    ensures IsDigit(Plain(whole, part, places)[0])
  {
    hide Padded, Decimal, Value, Pow10, DropZeros, ReadPlain;
    var decimals := DropZeros(Padded(part, places));
    PlacesOf(part, places);
    DecimalValue(whole);
    PaddedValue(part, places);
    ZerosDropped(Padded(part, places));
    PlainParts(Decimal(whole), decimals, places);
    assert Plain(whole, part, places) == Decimal(whole) + if decimals == "" then "" else "." + decimals;
    ValueConcat(Decimal(whole), Padded(part, places));
    assert Decimal(whole) + decimals + Zeros(places - |decimals|) == Decimal(whole) + Padded(part, places);
  }

  lemma ThousandParts(n: nat)
    ensures Pow10(2) == 100 && Pow10(3) == 1000
    ensures n / 1000 * 1000 + n % 1000 == n && n / 100 * 100 + n % 100 == n
  {
  }

  /** A quantity printed is read back to the thousandth, and a rate to the hundredth: no two print alike. */
  lemma QtyReadBack(n: int)
    ensures ReadSigned(FormatQty(n), 3) == Some(n) && ReadSigned(FormatRate(n), 2) == Some(n)
  {
    hide ReadPlain, Plain, Pow10;
    var size := Abs(n);
    ThousandParts(size);
    PlainReadBack(size / 1000, size % 1000, 3);
    PlainReadBack(size / 100, size % 100, 2);
    if n < 0 {
      assert FormatQty(n)[1..] == Plain(size / 1000, size % 1000, 3);
      assert FormatRate(n)[1..] == Plain(size / 100, size % 100, 2);
    }
  }

  lemma TrimWhole(text: string)
    requires text != "" && !IsSpace(text[0]) && !IsSpace(text[|text| - 1])
    ensures Trim(text) == text
  {
  }

  lemma MoneyTrimmed(paise: int)
    ensures Trim(Money(paise)) == Money(paise)
  {
    hide Trim, Padded, Decimal;
    var text, size := Money(paise), Abs(paise);
    var part := Padded(size % 100, 2);
    assert text[|text| - 1] == part[|part| - 1] && IsDigit(part[|part| - 1]);
    assert paise >= 0 ==> text[0] == Decimal(size / 100)[0] && IsDigit(Decimal(size / 100)[0]);
    TrimWhole(text);
  }

  /** Its only point is third from its end. */
  lemma MoneyPoint(paise: int)
    ensures var text := Money(paise);
            |text| >= 4 && text[|text| - 3] == '.' && forall i :: 0 <= i < |text| && text[i] == '.' ==> i == |text| - 3
  {
    hide Padded, Decimal;
    var size := Abs(paise);
    var whole, part := Decimal(size / 100), Padded(size % 100, 2);
    TwoDigits(size % 100);
    PointBetween(if paise < 0 then "-" + whole else whole, part);
  }

  lemma PointBetween(whole: string, part: string)
    requires |part| == 2 && whole != ""
    requires (forall i :: 0 <= i < |whole| ==> whole[i] != '.') && (forall i :: 0 <= i < |part| ==> part[i] != '.')
    ensures var text := whole + "." + part;
            |text| >= 4 && text[|text| - 3] == '.' && forall i :: 0 <= i < |text| && text[i] == '.' ==> i == |text| - 3
  {
  }

  // ----- At the end of a line

  predicate EndsWith(text: string, tail: string) { |tail| <= |text| && text[|text| - |tail|..] == tail }

  /** A character that a figure may go on with. */
  predicate InFigure(c: char) { IsDigit(c) || c == '.' || c == '-' }

  /** A figure stands whole at the end of a line, and does not run into another. */
  predicate Stands(text: string, figure: string) {
    EndsWith(text, figure) && (|text| > |figure| ==> !InFigure(text[|text| - |figure| - 1]))
  }

  lemma StandsAfter(before: string, figure: string, width: nat)
    requires |figure| <= width && figure != "" && (before != "" && |figure| == width ==> !InFigure(before[|before| - 1]))
    ensures Stands(before + FitRight(figure, width), figure)
  {
    var right := FitRight(figure, width);
    assert right[width - |figure|..] == figure;
    assert (before + right)[|before| + width - |figure|..] == right[width - |figure|..];
  }

  /** Money cut off at the end of its column is not there whole. */
  lemma CutIsNot(before: string, paise: int, width: nat)
    requires width < |Money(paise)|
    requires width < 3 ==> |before| >= 3 && forall i :: |before| - 3 <= i < |before| ==> before[i] != '.'
    ensures !EndsWith(before + FitRight(Money(paise), width), Money(paise))
  {
    hide Money;
    var figure := Money(paise);
    var text := before + FitRight(figure, width);
    MoneyPoint(paise);
    if |figure| <= |text| {
      assert text[|text| - |figure|..][|figure| - 3] == text[|text| - 3];
      if width >= 3 { assert text[|text| - 3] == figure[width - 3]; }
    }
  }

  /** Money against the right edge stands whole on the last of the lines exactly when the width holds it. */
  lemma LeftRightEnds(left: string, paise: int, width: nat)
    requires width >= 3
    ensures var lines := LeftRight(left, Money(paise), width);
            lines != [] && (Stands(lines[|lines| - 1], Money(paise)) <==> |Money(paise)| <= width)
  {
    hide Wrapped, Money, InFigure;
    var right := Money(paise);
    MoneyPoint(paise);
    if |right| + 1 < width {
      var room := width - |right| - 1;
      WrappedSome(left, room);
      var wrapped := Wrapped(left, room);
      SpaceInNone();
      StandsAfter(FitLeft(wrapped[|wrapped| - 1], room) + " ", right, |right|);
    } else if |right| <= width {
      StandsAfter("", right, width);
      assert "" + FitRight(right, width) == FitRight(right, width);
    } else {
      CutIsNot("", paise, width);
      assert "" + FitRight(right, width) == FitRight(right, width);
    }
  }

  lemma SpaceInNone()
    ensures !InFigure(' ') && !InFigure('a') && !InFigure('l')
  {
  }

  /** Beside a label that leaves any room at all, exactly when that room holds it. */
  lemma KeyValueEnds(caption: string, paise: int, width: nat, labelWidth: nat)
    requires labelWidth + 3 < width
    ensures Stands(KeyValue(caption, Money(paise), width, labelWidth), Money(paise)) <==> |Money(paise)| <= width - labelWidth - 3
  {
    hide Trim, Money, Stands, FitRight, FitLeft;
    MoneyTrimmed(paise);
    AfterColon(FitLeft(Trim(caption), labelWidth), paise, width - labelWidth - 3);
  }

  lemma AfterColon(caption: string, paise: int, room: nat)
    requires room > 0
    ensures Stands(caption + " : " + FitRight(Money(paise), room), Money(paise)) <==> |Money(paise)| <= room
  {
    hide Money, InFigure, FitRight;
    var base := caption + " : ";
    MoneyPoint(paise);
    SpaceInNone();
    assert base[|caption|] == ' ' && base[|caption| + 1] == ':' && base[|caption| + 2] == ' ';
    if |Money(paise)| <= room { StandsAfter(base, Money(paise), room); } else { CutIsNot(base, paise, room); }
  }

  lemma DetailRowEnds(paise: int, width: nat)
    requires width >= 20
    ensures Stands(DetailRow("item total", Money(paise), width), Money(paise)) <==> |Money(paise)| <= width * 45 / 100
  {
    hide Money, Stands, FitLeft, FitRight;
    var size := |Money(paise)|;
    var valueWidth := Min(Max(size, width * 22 / 100), width * 45 / 100);
    ShareOf(size, width);
    DetailColumns(paise, width, valueWidth);
    assert "  " + "item total" == "  item total";
  }

  lemma ShareOf(size: nat, width: nat)
    requires width >= 20
    ensures var valueWidth := Min(Max(size, width * 22 / 100), width * 45 / 100);
            3 <= valueWidth && valueWidth + 11 <= width && (size <= valueWidth <==> size <= width * 45 / 100)
  {
  }

  lemma DetailColumns(paise: int, width: nat, valueWidth: nat)
    requires 3 <= valueWidth && valueWidth + 11 <= width
    ensures Stands(FitLeft("  item total", width - valueWidth) + FitRight(Money(paise), valueWidth), Money(paise)) <==> |Money(paise)| <= valueWidth
  {
    hide Money, InFigure, FitLeft, FitRight;
    var caption := FitLeft("  item total", width - valueWidth);
    MoneyPoint(paise);
    CaptionEnds(width - valueWidth);
    if |Money(paise)| <= valueWidth { StandsAfter(caption, Money(paise), valueWidth); } else { CutIsNot(caption, paise, valueWidth); }
  }

  lemma CaptionEnds(width: nat)
    requires width >= 11
    ensures var caption := FitLeft("  item total", width); caption != "" && !InFigure(caption[|caption| - 1])
  {
  }

  /** In the compact table, exactly when it is narrower than its column: as wide, it runs into the price; wider, it is cut. */
  lemma CompactRowEnds(item: Item, name: string, width: nat)
    requires width >= 20
    ensures Stands(CompactRow(item, name, width), Money(item.total)) <==> |Money(item.total)| < TableColumns(width).total
    ensures EndsWith(CompactRow(item, name, width), Money(item.total)) <==> |Money(item.total)| <= TableColumns(width).total
  {
    hide Money, FormatQty, UnitPrice, InFigure, IsDigit;
    var table, figure := TableColumns(width), Money(item.total);
    var price := FitRight(Money(UnitPrice(item)), table.price);
    var before := FitLeft(name, table.item) + FitRight(FormatQty(item.qty), table.qty) + price;
    MoneyPoint(item.total);
    PriceEnds(UnitPrice(item), table.price);
    assert before[|before| - 1] == price[|price| - 1];
    var row := before + FitRight(figure, table.total);
    if |figure| < table.total {
      StandsAfter(before, figure, table.total);
    } else if |figure| == table.total {
      assert row[|row| - |figure|..] == figure && row[|row| - |figure| - 1] == before[|before| - 1];
    } else {
      CutIsNot(before, item.total, table.total);
    }
  }

  lemma PriceEnds(paise: int, width: nat)
    requires width > 0
    ensures InFigure(FitRight(Money(paise), width)[width - 1])
  {
    hide Padded, Decimal;
    var text := Money(paise);
    MoneyFigures(paise);
    if |text| >= width { assert text[width - 1] == FitRight(text, width)[width - 1]; }
  }

  lemma MoneyFigures(paise: int)
    ensures Money(paise) != "" && forall i :: 0 <= i < |Money(paise)| ==> InFigure(Money(paise)[i])
  {
    hide Padded, Decimal;
    var size := Abs(paise);
    var whole, part := Decimal(size / 100), Padded(size % 100, 2);
    assert AllDigits(whole) && AllDigits(part);
  }

  // ----- The bill's total

  /** A stretch of a receipt. */
  ghost predicate StretchOf(part: seq<ReceiptLine>, whole: seq<ReceiptLine>) { exists k: nat :: StandsAt(part, whole, k) }

  predicate StandsAt(part: seq<ReceiptLine>, whole: seq<ReceiptLine>, k: nat) { k + |part| <= |whole| && whole[k..k + |part|] == part }

  lemma StretchIn(before: seq<ReceiptLine>, part: seq<ReceiptLine>, after: seq<ReceiptLine>)
    ensures StretchOf(part, before + part + after)
  {
    var whole := before + part + after;
    assert StandsAt(part, whole, |before|);
  }

  lemma TotalBlock(doc: Document, style: Style, show: Sections, width: nat)
    requires width >= 20
    ensures StretchOf(GrandTotal(doc, show, width), Rendered(doc, style, show, width))
  {
    hide Heading, Fields, Items, TableHead, Rows, GrandTotal, Separator, TaxSummary, Counts, Ending, TotalRows, PaymentRows, Exact, StretchOf;
    var before := Heading(doc, show, width) + Fields(doc, show, width) + Items(doc, style, show, width) + Rows(TotalRows(doc, style), 0, width);
    var after := Separator(width) + Rows(PaymentRows(doc, show), 7, width) + TaxSummary(doc, show, width)
                 + Counts(doc, show, width) + Ending(doc, show, width);
    StretchIn(before, GrandTotal(doc, show, width), after);
    assert Rendered(doc, style, show, width) == before + GrandTotal(doc, show, width) + after;
  }

  predicate TotalFits(doc: Document, show: Sections, width: nat) {
    |Money(doc.grandTotal)| <= if show.largeTotal then width / 2 else width - Max(|doc.grandTotalLabel|, 5) - 3
  }

  /**
   * Every receipt has its total on bold lines of their own, and the last of them ends with it whole if and only if
   * there is room: half the paper for large print, else what a label shorter than the line leaves.
   */
  lemma GrandTotalPrinted(doc: Document, style: Style, show: Sections, width: nat)
    requires width >= 20 && (!show.largeTotal ==> |doc.grandTotalLabel| + 3 < width)
    ensures StretchOf(GrandTotal(doc, show, width), Rendered(doc, style, show, width))
    ensures var lines := GrandTotal(doc, show, width);
            && lines != [] && (forall line :: line in lines ==> line.strong)
            && (Stands(lines[|lines| - 1].text, Money(doc.grandTotal)) <==> TotalFits(doc, show, width))
  {
    hide Rendered, Money, KeyValue, LeftRight, Stands, Exact, StretchOf;
    TotalBlock(doc, style, show, width);
    if show.largeTotal {
      LeftRightEnds(doc.grandTotalLabel, doc.grandTotal, width / 2);
    } else {
      KeyValueEnds(doc.grandTotalLabel, doc.grandTotal, width, Max(|doc.grandTotalLabel|, 5));
    }
  }

  // ----- Each item's total

  /** Which of an item's lines its total is on, in the styles and sections that print it. */
  predicate PrintsTotal(style: Style, show: Sections) { style.Compact? || style.Minimal? || show.lineTotal }

  function TotalAt(item: Item, index: nat, style: Style, show: Sections, width: nat): (r: int)
    requires width >= 20
  {
    match style
    case Compact => 0
    case Minimal => |LeftRight(FormatQty(item.qty) + " x " + item.name, Money(item.total), width)| - 1
    case _ => |BlockItem(item, index, style, show, width)| - 1
  }

  predicate ItemTotalFits(item: Item, style: Style, width: nat)
    requires width >= 20
  {
    match style
    case Compact => |Money(item.total)| < TableColumns(width).total
    case Minimal => |Money(item.total)| <= width
    case _ => |Money(item.total)| <= width * 45 / 100
  }

  lemma CompactTotal(item: Item, show: Sections, width: nat)
    requires width >= 20
    ensures var lines := CompactItem(item, show, width);
            lines != [] && (Stands(lines[0].text, Money(item.total)) <==> |Money(item.total)| < TableColumns(width).total)
  {
    hide Money, TableColumns, CompactRow, HsnLine, Batches, Discounted, Stands, EndsWith, Wrapped, Exact;
    var names := Wrapped(item.name, TableColumns(width).item - 1);
    WrappedSome(item.name, TableColumns(width).item - 1);
    CompactRowEnds(item, names[0], width);
    assert CompactItem(item, show, width)[0] == Line(CompactRow(item, names[0], width));
  }

  lemma MinimalTotal(item: Item, index: nat, show: Sections, width: nat)
    requires width >= 20
    ensures var lines, at := MinimalItem(item, show, width), TotalAt(item, index, Minimal, show, width);
            0 <= at < |lines| && (Stands(lines[at].text, Money(item.total)) <==> |Money(item.total)| <= width)
  {
    hide Money, LeftRight, HsnLine, Batches, Discounted, Stands, FormatQty, Exact;
    var texts := LeftRight(FormatQty(item.qty) + " x " + item.name, Money(item.total), width);
    LeftRightEnds(FormatQty(item.qty) + " x " + item.name, item.total, width);
    assert MinimalItem(item, show, width)[|texts| - 1] == Line(texts[|texts| - 1]);
  }

  lemma BlockTotal(item: Item, index: nat, style: Style, show: Sections, width: nat)
    requires width >= 20 && show.lineTotal
    ensures var lines := BlockItem(item, index, style, show, width);
            lines != [] && (Stands(lines[|lines| - 1].text, Money(item.total)) <==> |Money(item.total)| <= width * 45 / 100)
  {
    hide Money, DetailRow, Lefts, TaxRows, Batches, Discounted, Stands, FormatRate, Decimal, Exact;
    DetailRowEnds(item.total, width);
    var lines := BlockItem(item, index, style, show, width);
    assert lines[|lines| - 1] == Strong(DetailRow("item total", Money(item.total), width));
  }

  lemma OwnLine(item: Item, index: nat, style: Style, show: Sections, width: nat)
    requires width >= 20 && PrintsTotal(style, show)
    ensures var lines, at := ItemLines(item, index, style, show, width), TotalAt(item, index, style, show, width);
            0 <= at < |lines| && (Stands(lines[at].text, Money(item.total)) <==> ItemTotalFits(item, style, width))
  {
    hide Money, TableColumns, CompactItem, MinimalItem, BlockItem, Stands, LeftRight, FormatQty;
    match style
    case Compact => CompactTotal(item, show, width);
    case Minimal => MinimalTotal(item, index, show, width);
    case _ => BlockTotal(item, index, style, show, width);
  }

  lemma StretchLonger(part: seq<ReceiptLine>, middle: seq<ReceiptLine>, before: seq<ReceiptLine>, after: seq<ReceiptLine>)
    requires StretchOf(part, middle)
    ensures StretchOf(part, before + middle + after)
  {
    var k: nat :| StandsAt(part, middle, k);
    var whole := before + middle + after;
    assert whole[|before|..|before| + |middle|] == middle;
    assert whole[|before| + k..|before| + k + |part|] == middle[k..k + |part|];
    assert StandsAt(part, whole, |before| + k);
  }

  lemma {:induction false} ItemIn(items: seq<Item>, style: Style, show: Sections, width: nat, i: nat)
    requires width >= 20 && i < |items|
    ensures StretchOf(ItemLines(items[i], i, style, show, width), ItemsLines(items, style, show, width))
  {
    hide ItemLines, StretchOf;
    var n := |items| - 1;
    var last, front := ItemLines(items[n], n, style, show, width), ItemsLines(items[..n], style, show, width);
    assert [] + front + last == front + last && front + last + [] == front + last;
    if i < n {
      ItemIn(items[..n], style, show, width, i);
      StretchLonger(ItemLines(items[i], i, style, show, width), front, [], last);
    } else {
      StretchIn(front, last, []);
    }
  }

  lemma ItemsIn(doc: Document, style: Style, show: Sections, width: nat, part: seq<ReceiptLine>)
    requires width >= 20 && StretchOf(part, ItemsLines(doc.items, style, show, width))
    ensures StretchOf(part, Rendered(doc, style, show, width))
  {
    hide Heading, Fields, ItemsLines, TableHead, Rows, GrandTotal, Separator, TaxSummary, Counts, Ending, TotalRows, PaymentRows, Exact, StretchOf;
    var before := Heading(doc, show, width) + Fields(doc, show, width) + if style.Compact? then TableHead(width) else [];
    var after := Separator(width) + Rows(TotalRows(doc, style), 0, width) + GrandTotal(doc, show, width) + Separator(width)
                 + Rows(PaymentRows(doc, show), 7, width) + TaxSummary(doc, show, width) + Counts(doc, show, width) + Ending(doc, show, width);
    StretchLonger(part, ItemsLines(doc.items, style, show, width), before, after);
    assert Rendered(doc, style, show, width) == before + ItemsLines(doc.items, style, show, width) + after;
  }

  /**
   * Every item has its lines on the receipt, and in the styles and sections that print its total, the line it is on
   * ends with it whole, apart from any other figure, if and only if there is room.
   */
  lemma ItemTotalPrinted(doc: Document, style: Style, show: Sections, width: nat, i: nat)
    requires width >= 20 && i < |doc.items|
    ensures StretchOf(ItemLines(doc.items[i], i, style, show, width), Rendered(doc, style, show, width))
    ensures PrintsTotal(style, show) ==>
              var lines, at := ItemLines(doc.items[i], i, style, show, width), TotalAt(doc.items[i], i, style, show, width);
              0 <= at < |lines| && (Stands(lines[at].text, Money(doc.items[i].total)) <==> ItemTotalFits(doc.items[i], style, width))
  {
    hide Rendered, Money, ItemLines, ItemsLines, ItemTotalFits, Stands, StretchOf, TotalAt, PrintsTotal;
    ItemIn(doc.items, style, show, width, i);
    ItemsIn(doc, style, show, width, ItemLines(doc.items[i], i, style, show, width));
    if PrintsTotal(style, show) { OwnLine(doc.items[i], i, style, show, width); }
  }

  /** On paper of 32 columns the compact table cuts a lakh of rupees short of its last digit. */
  lemma LakhIsCut(item: Item, name: string)
    requires item.total == 10000000
    ensures EndsWith(CompactRow(item, name, 32), "100000.0") && !EndsWith(CompactRow(item, name, 32), Money(item.total))
  {
    hide FormatQty, UnitPrice;
    Lakh();
    CompactRowEnds(item, name, 32);
    assert FitRight("100000.00", 8) == "100000.0";
  }

  lemma Lakh()
    ensures Money(10000000) == "100000.00"
  {
    assert Decimal(1) == "1" && Decimal(10) == "10" && Decimal(100) == "100" && Decimal(1000) == "1000" && Decimal(10000) == "10000";
    assert Decimal(100000) == "100000";
    assert Padded(0, 2) == "00";
  }
}
