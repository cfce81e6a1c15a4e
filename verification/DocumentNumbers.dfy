/**
 * Document numbers as printed (packages/contracts/src/gst.ts), as noted from what the server issues
 * (apps/desktop/src/fallback-counter.ts), printed again to catch the copy up (apps/desktop/src/fallback.ts),
 * and as the copy reads them back (apps/api/src/fallback/outbox.ts).
 */
module DocumentNumbers {
  import opened OutboxRows
  import opened Rounding
  import opened ServerTables

  // ----- Whole numbers as text

  predicate IsDigit(c: char) { '0' <= c <= '9' }

  predicate AllDigits(text: string) { forall i :: 0 <= i < |text| ==> IsDigit(text[i]) }

  function DigitOf(d: nat): (r: char)
    requires d < 10
    ensures IsDigit(r)
  {
    '0' + d as char
  }

  function Decimal(n: nat): (r: string)
    ensures r != "" && AllDigits(r)
  {
    if n < 10 then [DigitOf(n)] else Decimal(n / 10) + [DigitOf(n % 10)]
  }

  function Zeros(n: nat): (r: string)
    ensures |r| == n && AllDigits(r)
  {
    seq(n, i => '0')
  }

  function Padded(n: nat, width: nat): (r: string)
    ensures r != "" && AllDigits(r) && |r| >= width
  {
    var text := Decimal(n);
    if |text| >= width then text else Zeros(width - |text|) + text
  }

  /** What digits stand for. */
  function Value(text: string): (r: nat)
    requires AllDigits(text)
  {
    if text == "" then 0 else Value(text[..|text| - 1]) * 10 + (text[|text| - 1] as int - '0' as int)
  }

  lemma {:induction false} DecimalValue(n: nat)
    ensures Value(Decimal(n)) == n
  {
    if n >= 10 {
      DecimalValue(n / 10);
      assert Decimal(n)[..|Decimal(n)| - 1] == Decimal(n / 10);
    } else {
      assert Decimal(n)[..0] == "";
    }
  }

  lemma {:induction false} ZerosValue(k: nat, text: string)
    requires AllDigits(text)
    ensures Value(Zeros(k) + text) == Value(text)
  {
    if text == "" {
      assert Zeros(k) + text == Zeros(k);
      if k > 0 {
        assert Zeros(k)[..k - 1] == Zeros(k - 1);
        ZerosValue(k - 1, "");
        assert Zeros(k - 1) + "" == Zeros(k - 1);
      }
    } else {
      var n := |text| - 1;
      assert (Zeros(k) + text)[..|Zeros(k) + text| - 1] == Zeros(k) + text[..n];
      ZerosValue(k, text[..n]);
    }
  }

  /** A number padded with zeros is read back. */
  lemma PaddedValue(n: nat, width: nat)
    ensures Value(Padded(n, width)) == n
  {
    DecimalValue(n);
    if |Decimal(n)| < width { ZerosValue(width - |Decimal(n)|, Decimal(n)); }
  }

  lemma {:induction false} TwoDigits(n: nat)
    requires n < 100
    ensures |Decimal(n)| <= 2 && |Padded(n, 2)| == 2
  {
    if n >= 10 { assert n / 10 < 10; }
  }

  // ----- Document numbers

  predicate CodeChar(c: char) { 'A' <= c <= 'Z' || IsDigit(c) }

  predicate ValidCode(code: string) { |code| == 3 && forall i :: 0 <= i < 3 ==> CodeChar(code[i]) }

  function DocumentYearCode(startYear: int): (r: string) { Padded(startYear % 100, 2) }

  function DocumentSeries(code: string, counter: nat, kind: DocumentKind): (r: string) {
    code + (if kind.ReturnKind? then "R" else "") + "/" + Decimal(counter)
  }

  function DocumentNumber(series: string, startYear: int, seqNo: nat): (r: string) {
    series + "/" + DocumentYearCode(startYear) + "/" + Padded(seqNo, 5)
  }

  /** A series within a year, as numbers are noted under. */
  function YearPrefix(series: string, yearCode: string): (r: string) { series + "/" + yearCode }

  // ----- Numbers seen issued online

  function LastSlash(text: string): (r: int)
    ensures -1 <= r < |text|
    ensures r >= 0 ==> text[r] == '/'
    ensures forall i :: r < i < |text| ==> text[i] != '/'
  {
    if text == "" then -1
    else if text[|text| - 1] == '/' then |text| - 1
    else LastSlash(text[..|text| - 1])
  }

  /** Digits as the number they stand for, and nothing at all as zero. Other text is no number here. */
  function NumberOf(text: string): (r: Option<nat>) {
    if AllDigits(text) then Some(Value(text)) else None
  }

  function Seen(issued: map<string, nat>, prefix: string): (r: nat) {
    if prefix in issued then issued[prefix] else 0
  }

  function Noted(issued: map<string, nat>, documentNo: string): (r: map<string, nat>) {
    var at := LastSlash(documentNo);
    if at <= 0 then issued
    else
      var prefix, number := documentNo[..at], NumberOf(documentNo[at + 1..]);
      if number.None? || Seen(issued, prefix) >= number.value then issued else issued[prefix := number.value]
  }

  lemma NoSlash(digits: string)
    requires AllDigits(digits)
    ensures forall i :: 0 <= i < |digits| ==> digits[i] != '/'
  {
  }

  lemma LastSlashIs(text: string, i: nat)
    requires i < |text| && text[i] == '/' && forall j :: i < j < |text| ==> text[j] != '/'
    ensures LastSlash(text) == i
  {
    hide LastSlash;
  }

  lemma SlashAt(prefix: string, digits: string)
    requires AllDigits(digits)
    ensures LastSlash(prefix + "/" + digits) == |prefix|
  {
    hide LastSlash, AllDigits;
    NoSlash(digits);
    SlashBetween(prefix, digits);
    LastSlashIs(prefix + "/" + digits, |prefix|);
  }

  lemma SlashBetween(prefix: string, digits: string)
    requires forall i :: 0 <= i < |digits| ==> digits[i] != '/'
    ensures var text := prefix + "/" + digits;
            |prefix| < |text| && text[|prefix|] == '/' && forall j :: |prefix| < j < |text| ==> text[j] != '/'
  {
    var text := prefix + "/" + digits;
    forall j | |prefix| < j < |text| ensures text[j] != '/' {
      assert text[j] == digits[j - |prefix| - 1];
    }
  }

  /** A number the server prints is noted under its series and year, unless a later one was. */
  lemma NotesItsNumber(issued: map<string, nat>, series: string, startYear: int, seqNo: nat)
    ensures var prefix, r := YearPrefix(series, DocumentYearCode(startYear)), Noted(issued, DocumentNumber(series, startYear, seqNo));
            && Seen(r, prefix) == Max(Seen(issued, prefix), seqNo)
            && forall other :: other != prefix ==> Seen(r, other) == Seen(issued, other)
  {
    var prefix, digits := YearPrefix(series, DocumentYearCode(startYear)), Padded(seqNo, 5);
    var text := prefix + "/" + digits;
    assert text == DocumentNumber(series, startYear, seqNo);
    SlashAt(prefix, digits);
    assert text[..|prefix|] == prefix && text[|prefix| + 1..] == digits;
    PaddedValue(seqNo, 5);
  }

  // ----- Read back by the copy

  predicate StartsWith(text: string, start: string) { start <= text }

  /** Two digits, a slash and digits: the year and the count. */
  predicate YearAndCount(text: string) {
    |text| >= 4 && AllDigits(text[..2]) && text[2] == '/' && AllDigits(text[3..])
  }

  datatype Own = Own(invoices: string, givenBack: string)

  function OwnSeries(code: string, counter: nat): (r: Own) {
    Own(DocumentSeries(code, counter, InvoiceKind), DocumentSeries(code, counter, ReturnKind))
  }

  function ReadIn(series: string, kind: DocumentKind, documentNo: string): (r: Option<SequenceRow>)
    requires StartsWith(documentNo, series + "/")
  {
    var rest := documentNo[|series| + 1..];
    if YearAndCount(rest) then Some(SequenceRow(kind, series, 2000 + Value(rest[..2]), Value(rest[3..]))) else None
  }

  /** The series, year and count of one of the counter's own numbers. */
  function ReadNumber(own: Own, documentNo: string): (r: Option<SequenceRow>) {
    if StartsWith(documentNo, own.invoices + "/") then ReadIn(own.invoices, InvoiceKind, documentNo)
    else if StartsWith(documentNo, own.givenBack + "/") then ReadIn(own.givenBack, ReturnKind, documentNo)
    else None
  }

  function SeriesOf(own: Own, kind: DocumentKind): (r: string) {
    if kind.InvoiceKind? then own.invoices else own.givenBack
  }

  /** No number starts with both of a counter's series: the fourth character of one is R, of the other a slash. */
  lemma SeriesApart(code: string, counter: nat, text: string)
    requires ValidCode(code)
    ensures var own := OwnSeries(code, counter);
            !(StartsWith(text, own.invoices + "/") && StartsWith(text, own.givenBack + "/"))
  {
    var own := OwnSeries(code, counter);
    assert (own.invoices + "/")[3] == '/' && (own.givenBack + "/")[3] == 'R';
  }

  /** A prefix that is a series and a year. */
  predicate IsYearOf(series: string, prefix: string) {
    |prefix| == |series| + 3 && StartsWith(prefix, series + "/") && AllDigits(prefix[|series| + 1..])
  }

  lemma ReadsYear(series: string, kind: DocumentKind, prefix: string, digits: string)
    requires AllDigits(digits) && digits != "" && IsYearOf(series, prefix)
    ensures var text := prefix + "/" + digits;
            StartsWith(text, series + "/")
            && ReadIn(series, kind, text) == Some(SequenceRow(kind, series, 2000 + Value(prefix[|series| + 1..]), Value(digits)))
  {
    hide Value, AllDigits;
    var text, year := prefix + "/" + digits, prefix[|series| + 1..];
    var rest := text[|series| + 1..];
    assert prefix <= text;
    assert rest == year + "/" + digits;
    assert rest[..2] == year && rest[3..] == digits && rest[2] == '/';
  }

  lemma OnlyYearsRead(series: string, kind: DocumentKind, prefix: string, digits: string)
    requires AllDigits(digits) && StartsWith(prefix + "/" + digits, series + "/")
    ensures ReadIn(series, kind, prefix + "/" + digits).Some? ==> IsYearOf(series, prefix)
  {
    hide Value, LastSlash, AllDigits;
    var text := prefix + "/" + digits;
    var rest := text[|series| + 1..];
    if YearAndCount(rest) {
      SlashAt(prefix, digits);
      SlashAt(text[..|series| + 3], rest[3..]);
      assert text == text[..|series| + 3] + "/" + rest[3..];
      assert prefix == text[..|series| + 3];
      assert rest[..2] == prefix[|series| + 1..];
      assert prefix[..|series| + 1] == series + "/";
    }
  }

  /**
   * A number of the counter's own, printed, is read back as its series, its year and its count: for every
   * financial year from 2000 to 2099, and no other, since only the year's last two digits are printed.
   */
  lemma NumberReadBack(code: string, counter: nat, kind: DocumentKind, startYear: int, seqNo: nat)
    requires ValidCode(code)
    ensures var own := OwnSeries(code, counter);
            var read := ReadNumber(own, DocumentNumber(SeriesOf(own, kind), startYear, seqNo));
            && read == Some(SequenceRow(kind, SeriesOf(own, kind), 2000 + startYear % 100, seqNo))
            && (read.value.fiscalYear == startYear <==> 2000 <= startYear <= 2099)
  {
    hide Value, Decimal;
    var own := OwnSeries(code, counter);
    var series, year, digits := SeriesOf(own, kind), DocumentYearCode(startYear), Padded(seqNo, 5);
    var prefix := YearPrefix(series, year);
    TwoDigits(startYear % 100);
    PaddedValue(startYear % 100, 2);
    PaddedValue(seqNo, 5);
    assert DocumentNumber(series, startYear, seqNo) == prefix + "/" + digits;
    assert prefix[|series| + 1..] == year && series + "/" <= prefix;
    ReadsYear(series, kind, prefix, digits);
    SeriesApart(code, counter, prefix + "/" + digits);
  }

  // ----- The copy caught up with every number noted

  /** What is printed to catch the copy up: each series and year noted, with its last count. */
  function Printed(entry: (string, nat)): (r: string) { entry.0 + "/" + Padded(entry.1, 5) }

  function RaiseNumber(sequences: map<SeqKey, nat>, own: Own, documentNo: string): (r: map<SeqKey, nat>) {
    var read := ReadNumber(own, documentNo);
    if read.Some? then Raise(sequences, SeqKeyOf(read.value), read.value.lastSeq) else sequences
  }

  function RaiseNumbers(sequences: map<SeqKey, nat>, own: Own, numbers: seq<string>): (r: map<SeqKey, nat>) {
    if numbers == [] then sequences
    else RaiseNumber(RaiseNumbers(sequences, own, numbers[..|numbers| - 1]), own, numbers[|numbers| - 1])
  }

  /** The copy's own loop over the numbers sent to it. */
  method TakeNumbers(start: map<SeqKey, nat>, own: Own, numbers: seq<string>) returns (sequences: map<SeqKey, nat>)
    ensures sequences == RaiseNumbers(start, own, numbers)
  {
    sequences := start;
    for i := 0 to |numbers|
      invariant sequences == RaiseNumbers(start, own, numbers[..i])
    {
      assert numbers[..i + 1][..i] == numbers[..i];
      var read := ReadNumber(own, numbers[i]);
      if read.None? { continue; }
      sequences := Raise(sequences, SeqKeyOf(read.value), read.value.lastSeq);
    }
    assert numbers[..|numbers|] == numbers;
  }

  function LastIn(sequences: map<SeqKey, nat>, key: SeqKey): (r: nat) { if key in sequences then sequences[key] else 0 }

  /** The prefix a series and year of the counter's own are noted under. */
  function PrefixOf(own: Own, kind: DocumentKind, startYear: int): (r: string) {
    YearPrefix(SeriesOf(own, kind), DocumentYearCode(startYear))
  }

  lemma {:induction false} TwoDigitsAre(text: string)
    requires AllDigits(text) && |text| == 2
    ensures Value(text) < 100 && Padded(Value(text), 2) == text
  {
    var a, b := text[0] as int - '0' as int, text[1] as int - '0' as int;
    assert text[..1][..0] == "" && text[..1] == [text[0]];
    assert Value(text[..1]) == a;
    assert Value(text) == a * 10 + b;
    if a == 0 {
      assert Decimal(b) == [text[1]];
      assert Zeros(1) + [text[1]] == text;
    } else {
      assert (a * 10 + b) / 10 == a && (a * 10 + b) % 10 == b;
      assert Decimal(a) == [text[0]];
      assert Decimal(a * 10 + b) == [text[0]] + [text[1]];
      assert [text[0]] + [text[1]] == text;
    }
  }

  /** A prefix that is a series of the counter's and a year is the one that year's numbers are noted under. */
  lemma YearOfPrefix(own: Own, kind: DocumentKind, prefix: string)
    requires IsYearOf(SeriesOf(own, kind), prefix)
    ensures var startYear := 2000 + Value(prefix[|SeriesOf(own, kind)| + 1..]);
            2000 <= startYear <= 2099 && prefix == PrefixOf(own, kind, startYear)
  {
    hide Value, Decimal;
    var series := SeriesOf(own, kind);
    var year := prefix[|series| + 1..];
    TwoDigitsAre(year);
    assert (2000 + Value(year)) % 100 == Value(year);
    assert prefix == prefix[..|series| + 1] + year;
    assert prefix[..|series| + 1] == series + "/";
  }

  /** What one number sent does to one series and year: it counts only under that one's own prefix. */
  lemma RaisedByOne(sequences: map<SeqKey, nat>, code: string, counter: nat, kind: DocumentKind, startYear: int, entry: (string, nat))
    requires ValidCode(code) && 2000 <= startYear <= 2099
    ensures var own := OwnSeries(code, counter);
            var key := SeqKey(kind, SeriesOf(own, kind), startYear);
            LastIn(RaiseNumber(sequences, own, Printed(entry)), key)
              == if entry.0 == PrefixOf(own, kind, startYear) then Max(LastIn(sequences, key), entry.1) else LastIn(sequences, key)
  {
    hide Value, Decimal, LastSlash, ReadIn, IsYearOf;
    var own := OwnSeries(code, counter);
    var key := SeqKey(kind, SeriesOf(own, kind), startYear);
    var prefix, digits := entry.0, Padded(entry.1, 5);
    var text := prefix + "/" + digits;
    SeriesApart(code, counter, text);
    if entry.0 == PrefixOf(own, kind, startYear) {
      NumberReadBack(code, counter, kind, startYear, entry.1);
      assert text == DocumentNumber(SeriesOf(own, kind), startYear, entry.1);
    } else {
      ReadElsewhere(own, InvoiceKind, entry);
      ReadElsewhere(own, ReturnKind, entry);
    }
  }

  lemma ReadElsewhere(own: Own, kind: DocumentKind, entry: (string, nat))
    ensures StartsWith(Printed(entry), SeriesOf(own, kind) + "/") ==>
              var read := ReadIn(SeriesOf(own, kind), kind, Printed(entry));
              read.Some? ==>
                && SeqKeyOf(read.value) == SeqKey(kind, SeriesOf(own, kind), read.value.fiscalYear)
                && entry.0 == PrefixOf(own, kind, read.value.fiscalYear)
  {
    hide Value, Decimal, LastSlash, YearAndCount;
    var series, digits := SeriesOf(own, kind), Padded(entry.1, 5);
    if StartsWith(Printed(entry), series + "/") {
      OnlyYearsRead(series, kind, entry.0, digits);
      if ReadIn(series, kind, Printed(entry)).Some? {
        ReadsYear(series, kind, entry.0, digits);
        YearOfPrefix(own, kind, entry.0);
      }
    }
  }

  /** Entries of a record: each prefix once, with what was noted for it. */
  ghost predicate EntriesOf(issued: map<string, nat>, entries: seq<(string, nat)>) {
    && (forall i, j :: 0 <= i < j < |entries| ==> entries[i].0 != entries[j].0)
    && (forall i :: 0 <= i < |entries| ==> entries[i].0 in issued && issued[entries[i].0] == entries[i].1)
    && (forall prefix :: prefix in issued ==> exists i :: 0 <= i < |entries| && entries[i].0 == prefix)
  }

  function PrintedAll(entries: seq<(string, nat)>): (r: seq<string>)
    ensures |r| == |entries|
  {
    seq(|entries|, i requires 0 <= i < |entries| => Printed(entries[i]))
  }

  ghost function Among(entries: seq<(string, nat)>, prefix: string): (r: nat) {
    if entries == [] then 0
    else Max(Among(entries[..|entries| - 1], prefix), if entries[|entries| - 1].0 == prefix then entries[|entries| - 1].1 else 0)
  }

  lemma {:induction false} RaisedByAll(
    sequences: map<SeqKey, nat>, code: string, counter: nat, kind: DocumentKind, startYear: int, entries: seq<(string, nat)>)
    requires ValidCode(code) && 2000 <= startYear <= 2099
    ensures var own := OwnSeries(code, counter);
            var key := SeqKey(kind, SeriesOf(own, kind), startYear);
            LastIn(RaiseNumbers(sequences, own, PrintedAll(entries)), key)
              == Max(LastIn(sequences, key), Among(entries, PrefixOf(own, kind, startYear)))
  {
    hide RaiseNumber, LastIn, OwnSeries, PrefixOf, Printed;
    if entries != [] {
      var n := |entries| - 1;
      var own := OwnSeries(code, counter);
      assert PrintedAll(entries)[..n] == PrintedAll(entries[..n]);
      RaisedByAll(sequences, code, counter, kind, startYear, entries[..n]);
      RaisedByOne(RaiseNumbers(sequences, own, PrintedAll(entries[..n])), code, counter, kind, startYear, entries[n]);
    }
  }

  lemma {:induction false} AmongIs(entries: seq<(string, nat)>, prefix: string)
    ensures forall i :: 0 <= i < |entries| && entries[i].0 == prefix ==> Among(entries, prefix) >= entries[i].1
    ensures Among(entries, prefix) == 0 || exists i :: 0 <= i < |entries| && entries[i] == (prefix, Among(entries, prefix))
  {
    if entries != [] {
      var n := |entries| - 1;
      AmongIs(entries[..n], prefix);
      forall i | 0 <= i < |entries| && entries[i].0 == prefix ensures Among(entries, prefix) >= entries[i].1 {
        if i < n { assert entries[..n][i] == entries[i]; }
      }
      if Among(entries[..n], prefix) != 0 {
        var i :| 0 <= i < n && entries[..n][i] == (prefix, Among(entries[..n], prefix));
        assert entries[i] == (prefix, Among(entries[..n], prefix));
      }
      assert entries[n].0 == prefix ==> entries[n] == (prefix, entries[n].1);
    }
  }

  /**
   * Catching up carries every number noted into the copy: for each of the counter's series and each
   * financial year from 2000 to 2099, the copy's last count becomes the higher of its own and the one
   * noted, whatever order the notes are listed in and whatever else was noted beside them.
   */
  lemma CaughtUp(
    sequences: map<SeqKey, nat>, code: string, counter: nat, kind: DocumentKind, startYear: int,
    issued: map<string, nat>, entries: seq<(string, nat)>)
    requires ValidCode(code) && 2000 <= startYear <= 2099 && EntriesOf(issued, entries)
    ensures var own := OwnSeries(code, counter);
            var key := SeqKey(kind, SeriesOf(own, kind), startYear);
            LastIn(RaiseNumbers(sequences, own, PrintedAll(entries)), key)
              == Max(LastIn(sequences, key), Seen(issued, PrefixOf(own, kind, startYear)))
  {
    hide RaiseNumbers, LastIn, OwnSeries, PrefixOf, PrintedAll, Among;
    var prefix := PrefixOf(OwnSeries(code, counter), kind, startYear);
    RaisedByAll(sequences, code, counter, kind, startYear, entries);
    AmongIs(entries, prefix);
  }

  /** Two of a counter's documents print alike only if they are of one kind, year and count, within the years printed apart. */
  lemma NumbersApart(code: string, counter: nat, kind: DocumentKind, startYear: int, seqNo: nat,
                     kind': DocumentKind, startYear': int, seqNo': nat)
    requires ValidCode(code) && 2000 <= startYear <= 2099 && 2000 <= startYear' <= 2099
    ensures var own := OwnSeries(code, counter);
            DocumentNumber(SeriesOf(own, kind), startYear, seqNo) == DocumentNumber(SeriesOf(own, kind'), startYear', seqNo') <==>
            kind == kind' && startYear == startYear' && seqNo == seqNo'
  {
    hide DocumentNumber, ReadNumber, OwnSeries;
    NumberReadBack(code, counter, kind, startYear, seqNo);
    NumberReadBack(code, counter, kind', startYear', seqNo');
  }

  // ----- Across counters and branches

  lemma CutAtSlash(a: string, digits: string, b: string, digits': string)
    requires AllDigits(digits) && AllDigits(digits') && a + "/" + digits == b + "/" + digits'
    ensures a == b && digits == digits'
  {
    hide AllDigits, LastSlash;
    SlashAt(a, digits);
    SlashAt(b, digits');
    assert (a + "/" + digits)[..|a|] == a && (b + "/" + digits')[..|b|] == b;
    assert (a + "/" + digits)[|a| + 1..] == digits && (b + "/" + digits')[|b| + 1..] == digits';
  }

  function SeriesCode(code: string, kind: DocumentKind): (r: string) { if kind.ReturnKind? then code + "R" else code }

  lemma CodesApart(code: string, kind: DocumentKind, code': string, kind': DocumentKind)
    requires ValidCode(code) && ValidCode(code') && SeriesCode(code, kind) == SeriesCode(code', kind')
    ensures code == code' && kind == kind'
  {
    assert SeriesCode(code, kind)[..3] == code && SeriesCode(code', kind')[..3] == code';
  }

  lemma NumberParts(code: string, counter: nat, kind: DocumentKind, startYear: int, seqNo: nat)
    ensures DocumentNumber(DocumentSeries(code, counter, kind), startYear, seqNo)
         == SeriesCode(code, kind) + "/" + Decimal(counter) + "/" + Padded(startYear % 100, 2) + "/" + Padded(seqNo, 5)
  {
  }

  /** No two documents of a business print alike, whatever branch, counter, kind, year of a century and count they are of. */
  lemma AllNumbersApart(
    code: string, counter: nat, kind: DocumentKind, startYear: int, seqNo: nat,
    code': string, counter': nat, kind': DocumentKind, startYear': int, seqNo': nat)
    requires ValidCode(code) && ValidCode(code') && 2000 <= startYear <= 2099 && 2000 <= startYear' <= 2099
    ensures DocumentNumber(DocumentSeries(code, counter, kind), startYear, seqNo) == DocumentNumber(DocumentSeries(code', counter', kind'), startYear', seqNo')
       <==> code == code' && counter == counter' && kind == kind' && startYear == startYear' && seqNo == seqNo'
  {
    hide DocumentNumber, DocumentSeries, Decimal, Padded, Value, AllDigits, SeriesCode;
    NumberParts(code, counter, kind, startYear, seqNo);
    NumberParts(code', counter', kind', startYear', seqNo');
    if DocumentNumber(DocumentSeries(code, counter, kind), startYear, seqNo) == DocumentNumber(DocumentSeries(code', counter', kind'), startYear', seqNo') {
      var a, b := SeriesCode(code, kind) + "/" + Decimal(counter), SeriesCode(code', kind') + "/" + Decimal(counter');
      CutAtSlash(a + "/" + Padded(startYear % 100, 2), Padded(seqNo, 5), b + "/" + Padded(startYear' % 100, 2), Padded(seqNo', 5));
      CutAtSlash(a, Padded(startYear % 100, 2), b, Padded(startYear' % 100, 2));
      CutAtSlash(SeriesCode(code, kind), Decimal(counter), SeriesCode(code', kind'), Decimal(counter'));
      CodesApart(code, kind, code', kind');
      PaddedValue(seqNo, 5);
      PaddedValue(seqNo', 5);
      PaddedValue(startYear % 100, 2);
      PaddedValue(startYear' % 100, 2);
      DecimalValue(counter);
      DecimalValue(counter');
    }
  }

  lemma {:induction false} DigitsOf(n: nat, places: nat)
    requires places > 0 && n < Ten(places)
    ensures |Decimal(n)| <= places
  {
    if n >= 10 { DigitsOf(n / 10, places - 1); }
  }

  function Ten(places: nat): (r: nat) ensures r > 0 { if places == 0 then 1 else 10 * Ten(places - 1) }

  /** Up to 99 counters and 99999 documents a year a number has at most sixteen characters, five of them its count. */
  lemma NumberFits(code: string, counter: nat, kind: DocumentKind, startYear: int, seqNo: nat)
    requires ValidCode(code) && counter <= 99 && seqNo <= 99999
    ensures var number := DocumentNumber(DocumentSeries(code, counter, kind), startYear, seqNo);
            |number| <= 16 && |Padded(seqNo, 5)| == 5 && number[|number| - 5..] == Padded(seqNo, 5) && number[|number| - 6] == '/'
  {
    hide Decimal;
    NumberParts(code, counter, kind, startYear, seqNo);
    assert Ten(2) == 100 && Ten(3) == 1000 && Ten(5) == 100000;
    DigitsOf(counter, 2);
    DigitsOf(seqNo, 5);
    TwoDigits(startYear % 100);
  }

  lemma OneMoreDigit(n: nat, text: string)
    requires n >= 10 && Decimal(n / 10) == text
    ensures Decimal(n) == text + [DigitOf(n % 10)]
  {
    hide Decimal;
    AppendsDigit(n);
  }

  lemma AppendsDigit(n: nat)
    requires n >= 10
    ensures Decimal(n) == Decimal(n / 10) + [DigitOf(n % 10)]
  {
  }

  lemma Nines()
    ensures Decimal(1) == "1" && Decimal(26) == "26" && Decimal(99) == "99" && Decimal(99999) == "99999"
  {
    assert Decimal(1) == "1" && Decimal(2) == "2" && Decimal(9) == "9";
    OneMoreDigit(26, "2");
    OneMoreDigit(99, "9");
    OneMoreDigit(999, "99");
    OneMoreDigit(9999, "999");
    OneMoreDigit(99999, "9999");
  }

  lemma Example()
    ensures DocumentNumber(DocumentSeries("MAI", 1, InvoiceKind), 2026, 1) == "MAI/1/26/00001"
    ensures DocumentNumber(DocumentSeries("MAI", 99, ReturnKind), 2026, 99999) == "MAIR/99/26/99999"
  {
    hide Decimal, Zeros;
    Nines();
    FourZeros();
    NumberParts("MAI", 1, InvoiceKind, 2026, 1);
    NumberParts("MAI", 99, ReturnKind, 2026, 99999);
  }

  lemma FourZeros()
    ensures Zeros(4) == "0000"
  {
  }
}
