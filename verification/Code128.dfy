/**
 * Code 128 barcodes (packages/contracts/src/code128.ts), as ISO/IEC 15417 has them: a symbol is three bars
 * and three spaces over 11 modules, the stop symbol four bars and three spaces over 13. The encoder is
 * held against a reader that measures bars and spaces and looks their widths up.
 */
module Code128 {
  import opened OutboxRows
  import opened Sums

  datatype Widths = Widths(a: nat, b: nat, c: nat, d: nat, e: nat, f: nat)

  /** The bar and space widths of each symbol but the stop, in rows of ten. */
  function Row(row: nat): (r: seq<Widths>)
    requires row <= 10
    ensures |r| == if row < 10 then 10 else 6
  {
    match row
    case 0 =>
      [Widths(2, 1, 2, 2, 2, 2), Widths(2, 2, 2, 1, 2, 2), Widths(2, 2, 2, 2, 2, 1), Widths(1, 2, 1, 2, 2, 3), Widths(1, 2, 1, 3, 2, 2),
       Widths(1, 3, 1, 2, 2, 2), Widths(1, 2, 2, 2, 1, 3), Widths(1, 2, 2, 3, 1, 2), Widths(1, 3, 2, 2, 1, 2), Widths(2, 2, 1, 2, 1, 3)]
    case 1 =>
      [Widths(2, 2, 1, 3, 1, 2), Widths(2, 3, 1, 2, 1, 2), Widths(1, 1, 2, 2, 3, 2), Widths(1, 2, 2, 1, 3, 2), Widths(1, 2, 2, 2, 3, 1),
       Widths(1, 1, 3, 2, 2, 2), Widths(1, 2, 3, 1, 2, 2), Widths(1, 2, 3, 2, 2, 1), Widths(2, 2, 3, 2, 1, 1), Widths(2, 2, 1, 1, 3, 2)]
    case 2 =>
      [Widths(2, 2, 1, 2, 3, 1), Widths(2, 1, 3, 2, 1, 2), Widths(2, 2, 3, 1, 1, 2), Widths(3, 1, 2, 1, 3, 1), Widths(3, 1, 1, 2, 2, 2),
       Widths(3, 2, 1, 1, 2, 2), Widths(3, 2, 1, 2, 2, 1), Widths(3, 1, 2, 2, 1, 2), Widths(3, 2, 2, 1, 1, 2), Widths(3, 2, 2, 2, 1, 1)]
    case 3 =>
      [Widths(2, 1, 2, 1, 2, 3), Widths(2, 1, 2, 3, 2, 1), Widths(2, 3, 2, 1, 2, 1), Widths(1, 1, 1, 3, 2, 3), Widths(1, 3, 1, 1, 2, 3),
       Widths(1, 3, 1, 3, 2, 1), Widths(1, 1, 2, 3, 1, 3), Widths(1, 3, 2, 1, 1, 3), Widths(1, 3, 2, 3, 1, 1), Widths(2, 1, 1, 3, 1, 3)]
    case 4 =>
      [Widths(2, 3, 1, 1, 1, 3), Widths(2, 3, 1, 3, 1, 1), Widths(1, 1, 2, 1, 3, 3), Widths(1, 1, 2, 3, 3, 1), Widths(1, 3, 2, 1, 3, 1),
       Widths(1, 1, 3, 1, 2, 3), Widths(1, 1, 3, 3, 2, 1), Widths(1, 3, 3, 1, 2, 1), Widths(3, 1, 3, 1, 2, 1), Widths(2, 1, 1, 3, 3, 1)]
    case 5 =>
      [Widths(2, 3, 1, 1, 3, 1), Widths(2, 1, 3, 1, 1, 3), Widths(2, 1, 3, 3, 1, 1), Widths(2, 1, 3, 1, 3, 1), Widths(3, 1, 1, 1, 2, 3),
       Widths(3, 1, 1, 3, 2, 1), Widths(3, 3, 1, 1, 2, 1), Widths(3, 1, 2, 1, 1, 3), Widths(3, 1, 2, 3, 1, 1), Widths(3, 3, 2, 1, 1, 1)]
    case 6 =>
      [Widths(3, 1, 4, 1, 1, 1), Widths(2, 2, 1, 4, 1, 1), Widths(4, 3, 1, 1, 1, 1), Widths(1, 1, 1, 2, 2, 4), Widths(1, 1, 1, 4, 2, 2),
       Widths(1, 2, 1, 1, 2, 4), Widths(1, 2, 1, 4, 2, 1), Widths(1, 4, 1, 1, 2, 2), Widths(1, 4, 1, 2, 2, 1), Widths(1, 1, 2, 2, 1, 4)]
    case 7 =>
      [Widths(1, 1, 2, 4, 1, 2), Widths(1, 2, 2, 1, 1, 4), Widths(1, 2, 2, 4, 1, 1), Widths(1, 4, 2, 1, 1, 2), Widths(1, 4, 2, 2, 1, 1),
       Widths(2, 4, 1, 2, 1, 1), Widths(2, 2, 1, 1, 1, 4), Widths(4, 1, 3, 1, 1, 1), Widths(2, 4, 1, 1, 1, 2), Widths(1, 3, 4, 1, 1, 1)]
    case 8 =>
      [Widths(1, 1, 1, 2, 4, 2), Widths(1, 2, 1, 1, 4, 2), Widths(1, 2, 1, 2, 4, 1), Widths(1, 1, 4, 2, 1, 2), Widths(1, 2, 4, 1, 1, 2),
       Widths(1, 2, 4, 2, 1, 1), Widths(4, 1, 1, 2, 1, 2), Widths(4, 2, 1, 1, 1, 2), Widths(4, 2, 1, 2, 1, 1), Widths(2, 1, 2, 1, 4, 1)]
    case 9 =>
      [Widths(2, 1, 4, 1, 2, 1), Widths(4, 1, 2, 1, 2, 1), Widths(1, 1, 1, 1, 4, 3), Widths(1, 1, 1, 3, 4, 1), Widths(1, 3, 1, 1, 4, 1),
       Widths(1, 1, 4, 1, 1, 3), Widths(1, 1, 4, 3, 1, 1), Widths(4, 1, 1, 1, 1, 3), Widths(4, 1, 1, 3, 1, 1), Widths(1, 1, 3, 1, 4, 1)]
    case _ =>
      [Widths(1, 1, 4, 1, 3, 1), Widths(3, 1, 1, 1, 4, 1), Widths(4, 1, 1, 1, 3, 1), Widths(2, 1, 1, 4, 1, 2), Widths(2, 1, 1, 2, 1, 4),
       Widths(2, 1, 1, 2, 3, 2)]
  }

  function Pattern(value: nat): (r: Widths)
    requires value < 106
  {
    Row(value / 10)[value % 10]
  }

  const StopWidths: seq<nat> := [2, 3, 3, 1, 1, 1, 2]

  const StartB: nat := 104
  const StartC: nat := 105
  const Stop: nat := 106

  function ListOf(w: Widths): (r: seq<nat>) { [w.a, w.b, w.c, w.d, w.e, w.f] }

  // ----- The encoder

  predicate CanEncode(text: string) { 0 < |text| <= 40 && forall i :: 0 <= i < |text| ==> ' ' <= text[i] <= '~' }

  predicate IsDigit(c: char) { '0' <= c <= '9' }

  /** An even count of digits, and nothing else, uses set C: two digits to a symbol. */
  predicate InPairs(text: string) { |text| % 2 == 0 && forall i :: 0 <= i < |text| ==> IsDigit(text[i]) }

  function PairValues(text: string): (r: seq<nat>)
    requires InPairs(text)
    ensures |r| == |text| / 2 && forall i :: 0 <= i < |r| ==> r[i] < 100
  {
    seq(|text| / 2, i requires 0 <= i < |text| / 2 => (text[2 * i] - '0') as nat * 10 + (text[2 * i + 1] - '0') as nat)
  }

  function CharValues(text: string): (r: seq<nat>)
    requires CanEncode(text)
    ensures |r| == |text| && forall i :: 0 <= i < |r| ==> r[i] < 95
  {
    seq(|text|, i requires 0 <= i < |text| => (text[i] - ' ') as nat)
  }

  function Weighted(data: seq<nat>): (r: nat) {
    if data == [] then 0 else Weighted(data[..|data| - 1]) + data[|data| - 1] * |data|
  }

  function Checksum(start: nat, data: seq<nat>): (r: nat)
    ensures r < 103
  {
    (start + Weighted(data)) % 103
  }

  function StartOf(text: string): (r: nat) { if InPairs(text) then StartC else StartB }

  function DataOf(text: string): (r: seq<nat>)
    requires CanEncode(text)
    ensures 0 < |r| <= 40 && forall i :: 0 <= i < |r| ==> r[i] < 100
  {
    if InPairs(text) then PairValues(text) else CharValues(text)
  }

  /** Start, data, checksum, stop; no text that is not printable ASCII. */
  function Values(text: string): (r: Option<seq<nat>>) {
    if CanEncode(text) then Some([StartOf(text)] + DataOf(text) + [Checksum(StartOf(text), DataOf(text)), Stop]) else None
  }

  /** Bars and spaces by turns, '1' a module of bar and '0' of space. */
  function Bars(widths: seq<nat>, bar: bool): (r: string) {
    if widths == [] then "" else seq(widths[0], i => if bar then '1' else '0') + Bars(widths[1..], !bar)
  }

  function Symbol(value: nat): (r: string)
    requires value <= Stop
  {
    Bars(if value == Stop then StopWidths else ListOf(Pattern(value)), true)
  }

  predicate AreSymbols(values: seq<nat>) { forall i :: 0 <= i < |values| ==> values[i] <= Stop }

  function ModulesOf(values: seq<nat>): (r: string)
    requires AreSymbols(values)
  {
    if values == [] then "" else Symbol(values[0]) + ModulesOf(values[1..])
  }

  function Modules(text: string): (r: Option<string>) {
    match Values(text) case None => None case Some(values) => Some(ModulesOf(values))
  }

  // ----- A reader

  /** How many modules of one kind lead. */
  function Run(modules: string): (r: nat)
    ensures r <= |modules| && (modules != "" ==> r > 0)
  {
    if |modules| <= 1 then |modules|
    else if modules[1] == modules[0] then 1 + Run(modules[1..])
    else 1
  }

  function Runs(modules: string): (r: seq<nat>) {
    if modules == "" then [] else [Run(modules)] + Runs(modules[Run(modules)..])
  }

  /** Where a pattern whose first bar is 1 wide stands in the table. */
  function Place1(w: Widths): (r: nat) {
    if w.b == 1 && w.c == 1 then if w.d == 1 then 92 else if w.d == 2 then (if w.e == 2 then 63 else 80) else if w.d == 3 then (if w.e == 2 then 33 else 93) else 64
    else if w.b == 1 && w.c == 2 then if w.d == 1 then 42 else if w.d == 2 then (if w.e == 1 then 69 else 12) else if w.d == 3 then (if w.e == 1 then 36 else 43) else 70
    else if w.b == 1 && w.c == 3 then if w.d == 1 then (if w.e == 2 then 45 else 99) else if w.d == 2 then 15 else 46
    else if w.b == 1 && w.c == 4 then if w.d == 1 then (if w.e == 1 then 95 else 100) else if w.d == 2 then 83 else 96
    else if w.b == 2 && w.c == 1 then if w.d == 1 then (if w.e == 2 then 65 else 81) else if w.d == 2 then (if w.e == 2 then 3 else 82) else if w.d == 3 then 4 else 66
    else if w.b == 2 && w.c == 2 then if w.d == 1 then (if w.e == 1 then 71 else 13) else if w.d == 2 then (if w.e == 1 then 6 else 14) else if w.d == 3 then 7 else 72
    else if w.b == 2 && w.c == 3 then if w.d == 1 then 16 else 17
    else if w.b == 2 && w.c == 4 then if w.d == 1 then 84 else 85
    else if w.b == 3 && w.c == 1 then if w.d == 1 then (if w.e == 2 then 34 else 94) else if w.d == 2 then 5 else 35
    else if w.b == 3 && w.c == 2 then if w.d == 1 then (if w.e == 1 then 37 else 44) else if w.d == 2 then 8 else 38
    else if w.b == 3 && w.c == 3 then 47
    else if w.b == 3 && w.c == 4 then 79
    else if w.b == 4 && w.c == 1 then if w.d == 1 then 67 else 68
    else if w.d == 1 then 73 else 74
  }

  /** Where a pattern whose first bar is 2 wide stands in the table. */
  function Place2(w: Widths): (r: nat) {
    if w.b == 1 && w.c == 1 then if w.d == 2 then (if w.e == 1 then 104 else 105) else if w.d == 3 then (if w.e == 1 then 39 else 49) else 103
    else if w.b == 1 && w.c == 2 then if w.d == 1 then (if w.e == 2 then 30 else 89) else if w.d == 2 then 0 else 31
    else if w.b == 1 && w.c == 3 then if w.d == 1 then (if w.e == 1 then 51 else 53) else if w.d == 2 then 21 else 52
    else if w.b == 1 && w.c == 4 then 90
    else if w.b == 2 && w.c == 1 then if w.d == 1 then (if w.e == 1 then 76 else 19) else if w.d == 2 then (if w.e == 1 then 9 else 20) else if w.d == 3 then 10 else 61
    else if w.b == 2 && w.c == 2 then if w.d == 1 then 1 else 2
    else if w.b == 2 && w.c == 3 then if w.d == 1 then 22 else 18
    else if w.b == 3 && w.c == 1 then if w.d == 1 then (if w.e == 1 then 40 else 50) else if w.d == 2 then 11 else 41
    else if w.b == 3 && w.c == 2 then 32
    else if w.d == 1 then 78 else 75
  }

  /** Where a pattern whose first bar is 3 wide stands in the table. */
  function Place3(w: Widths): (r: nat) {
    if w.b == 1 && w.c == 1 then if w.d == 1 then (if w.e == 2 then 54 else 101) else if w.d == 2 then 24 else 55
    else if w.b == 1 && w.c == 2 then if w.d == 1 then (if w.e == 1 then 57 else 23) else if w.d == 2 then 27 else 58
    else if w.b == 1 && w.c == 3 then 48
    else if w.b == 1 && w.c == 4 then 60
    else if w.b == 2 && w.c == 1 then if w.d == 1 then 25 else 26
    else if w.b == 2 && w.c == 2 then if w.d == 1 then 28 else 29
    else if w.b == 3 && w.c == 1 then 56
    else 59
  }

  /** Where a pattern whose first bar is 4 wide stands in the table. */
  function Place4(w: Widths): (r: nat) {
    if w.b == 1 && w.c == 1 then if w.d == 1 then (if w.e == 1 then 97 else 102) else if w.d == 2 then 86 else 98
    else if w.b == 1 && w.c == 2 then 91
    else if w.b == 1 && w.c == 3 then 77
    else if w.b == 2 && w.c == 1 then if w.d == 1 then 87 else 88
    else 62
  }

  function Place(w: Widths): (r: nat) {
    if w.a == 1 then Place1(w) else if w.a == 2 then Place2(w) else if w.a == 3 then Place3(w) else Place4(w)
  }

  /** The symbol of widths read, if there is one. */
  function LookUp(widths: seq<nat>): (r: Option<nat>)
    ensures r.Some? ==> r.value < 106 && ListOf(Pattern(r.value)) == widths
  {
    if |widths| != 6 then None
    else
      var w := Widths(widths[0], widths[1], widths[2], widths[3], widths[4], widths[5]);
      if Place(w) < 106 && Pattern(Place(w)) == w then Some(Place(w)) else None
  }

  function ReadSymbol(window: string): (r: Option<nat>)
    ensures r.Some? ==> r.value < 106
  {
    if window != "" && window[0] == '1' then LookUp(Runs(window)) else None
  }

  function ReadStop(window: string): (r: bool) { window != "" && window[0] == '1' && Runs(window) == StopWidths }

  /** The symbols before the stop, in windows of 11 modules. */
  function ReadSymbols(modules: string): (r: Option<seq<nat>>) {
    if |modules| < 13 then None
    else if |modules| == 13 then if ReadStop(modules) then Some([]) else None
    else
      match ReadSymbol(modules[..11])
      case None => None
      case Some(value) => match ReadSymbols(modules[11..]) case None => None case Some(rest) => Some([value] + rest)
  }

  function PairText(data: seq<nat>): (r: string)
    requires forall i :: 0 <= i < |data| ==> data[i] < 100
  {
    if data == [] then "" else [('0' as int + data[0] / 10) as char, ('0' as int + data[0] % 10) as char] + PairText(data[1..])
  }

  function CharText(data: seq<nat>): (r: string)
    requires forall i :: 0 <= i < |data| ==> data[i] < 95
  {
    seq(|data|, i requires 0 <= i < |data| => (data[i] + 32) as char)
  }

  /** What symbols say: a start, data of its set, and the data's checksum; or nothing. */
  function TextOf(symbols: seq<nat>): (r: Option<string>) {
    if |symbols| < 3 then None
    else
      var start, data, check := symbols[0], symbols[1..|symbols| - 1], symbols[|symbols| - 1];
      if check != Checksum(start, data) then None
      else if start == StartC && forall i :: 0 <= i < |data| ==> data[i] < 100 then Some(PairText(data))
      else if start == StartB && forall i :: 0 <= i < |data| ==> data[i] < 95 then Some(CharText(data))
      else None
  }

  function Read(modules: string): (r: Option<string>) {
    match ReadSymbols(modules) case None => None case Some(symbols) => TextOf(symbols)
  }

  // ----- Symbols are read back

  predicate Positive(widths: seq<nat>) { forall i :: 0 <= i < |widths| ==> widths[i] > 0 }

  function Total(widths: seq<nat>): (r: nat) { if widths == [] then 0 else widths[0] + Total(widths[1..]) }

  lemma {:induction false} BarsLength(widths: seq<nat>, bar: bool)
    ensures |Bars(widths, bar)| == Total(widths)
    ensures widths != [] && widths[0] > 0 ==> Bars(widths, bar) != "" && Bars(widths, bar)[0] == if bar then '1' else '0'
  {
    if widths != [] { BarsLength(widths[1..], !bar); }
  }

  lemma {:induction false} RunOf(c: char, n: nat, rest: string)
    requires n > 0 && (rest != "" ==> rest[0] != c)
    ensures Run(seq(n, i => c) + rest) == n
  {
    var all := seq(n, i => c) + rest;
    if n > 1 {
      assert all[1..] == seq(n - 1, i => c) + rest;
      RunOf(c, n - 1, rest);
    }
  }

  /** Measuring bars and spaces gives back the widths they were drawn with. */
  lemma {:induction false} RunsOfBars(widths: seq<nat>, bar: bool)
    requires Positive(widths)
    ensures Runs(Bars(widths, bar)) == widths
  {
    if widths != [] {
      var c := if bar then '1' else '0';
      var rest := Bars(widths[1..], !bar);
      BarsLength(widths[1..], !bar);
      BarsLength(widths, bar);
      assert seq(widths[0], i => if bar then '1' else '0') == seq(widths[0], i => c);
      RunOf(c, widths[0], rest);
      assert Bars(widths, bar)[widths[0]..] == rest;
      RunsOfBars(widths[1..], !bar);
    }
  }

  /** The width's place in the table is its own, and its modules are 11. */
  ghost predicate Fits(w: Widths, value: nat) {
    Place(w) == value && w.a + w.b + w.c + w.d + w.e + w.f == 11
    && w.a > 0 && w.b > 0 && w.c > 0 && w.d > 0 && w.e > 0 && w.f > 0
  }

  lemma TenPlaces(i: nat)
    requires i < 10
    ensures i == 0 || i == 1 || i == 2 || i == 3 || i == 4 || i == 5 || i == 6 || i == 7 || i == 8 || i == 9
  {
  }

  lemma FirstRows(row: nat, i: nat)
    requires (row == 0 || row == 1) && i < |Row(row)|
    ensures Fits(Row(row)[i], 10 * row + i)
  {
    TenPlaces(i);
  }

  lemma ThirdRows(row: nat, i: nat)
    requires (row == 2 || row == 3) && i < |Row(row)|
    ensures Fits(Row(row)[i], 10 * row + i)
  {
    TenPlaces(i);
  }

  lemma FifthRows(row: nat, i: nat)
    requires (row == 4 || row == 5) && i < |Row(row)|
    ensures Fits(Row(row)[i], 10 * row + i)
  {
    TenPlaces(i);
  }

  lemma SeventhRows(row: nat, i: nat)
    requires (row == 6 || row == 7) && i < |Row(row)|
    ensures Fits(Row(row)[i], 10 * row + i)
  {
    TenPlaces(i);
  }

  lemma NinthRows(row: nat, i: nat)
    requires (row == 8 || row == 9) && i < |Row(row)|
    ensures Fits(Row(row)[i], 10 * row + i)
  {
    TenPlaces(i);
  }

  lemma LastRow(row: nat, i: nat)
    requires row == 10 && i < |Row(row)|
    ensures Fits(Row(row)[i], 10 * row + i)
  {
    TenPlaces(i);
  }

  lemma PatternFits(value: nat)
    requires value < 106
    ensures Fits(Pattern(value), value)
  {
    hide Row, Fits;
    var row, i := value / 10, value % 10;
    if row < 2 { FirstRows(row, i); }
    else if row < 4 { ThirdRows(row, i); }
    else if row < 6 { FifthRows(row, i); }
    else if row < 8 { SeventhRows(row, i); }
    else if row < 10 { NinthRows(row, i); }
    else { LastRow(row, i); }
  }

  /** A symbol is 11 modules wide and reads as itself; so no two share a pattern. */
  lemma SymbolRead(value: nat)
    requires value < 106
    ensures |Symbol(value)| == 11 && ReadSymbol(Symbol(value)) == Some(value)
  {
    hide Pattern, Place, Runs, Bars;
    PatternFits(value);
    var w := Pattern(value);
    BarsLength(ListOf(w), true);
    RunsOfBars(ListOf(w), true);
    TotalOf(w);
    assert w == Widths(w.a, w.b, w.c, w.d, w.e, w.f);
  }

  lemma TotalOf(w: Widths)
    ensures Total(ListOf(w)) == w.a + w.b + w.c + w.d + w.e + w.f
  {
    assert [w.f][1..] == [] && [w.e, w.f][1..] == [w.f] && [w.d, w.e, w.f][1..] == [w.e, w.f];
    assert [w.c, w.d, w.e, w.f][1..] == [w.d, w.e, w.f] && [w.b, w.c, w.d, w.e, w.f][1..] == [w.c, w.d, w.e, w.f];
    assert Total([w.f]) == w.f && Total([w.e, w.f]) == w.e + w.f && Total([w.d, w.e, w.f]) == w.d + w.e + w.f;
    assert Total([w.c, w.d, w.e, w.f]) == w.c + w.d + w.e + w.f;
    assert ListOf(w)[1..] == [w.b, w.c, w.d, w.e, w.f];
  }

  lemma StopRead()
    ensures |Symbol(Stop)| == 13 && ReadStop(Symbol(Stop))
  {
    hide Runs, Bars;
    BarsLength(StopWidths, true);
    RunsOfBars(StopWidths, true);
    var l := StopWidths;
    assert l[1..] == [3, 3, 1, 1, 1, 2] && l[1..][1..] == [3, 1, 1, 1, 2] && l[1..][1..][1..] == [1, 1, 1, 2];
    assert l[1..][1..][1..][1..] == [1, 1, 2] && l[1..][1..][1..][1..][1..] == [1, 2] && l[1..][1..][1..][1..][1..][1..] == [2];
  }

  lemma {:induction false} SymbolsRead(values: seq<nat>)
    requires forall i :: 0 <= i < |values| ==> values[i] < 106
    ensures |ModulesOf(values + [Stop])| == 11 * |values| + 13
    ensures ReadSymbols(ModulesOf(values + [Stop])) == Some(values)
  {
    hide Symbol, ReadSymbol, ReadStop;
    var all := values + [Stop];
    if values == [] {
      StopRead();
      assert all[1..] == [];
      assert ModulesOf(all) == Symbol(Stop);
    } else {
      assert all[1..] == values[1..] + [Stop];
      SymbolRead(values[0]);
      SymbolsRead(values[1..]);
      var modules := ModulesOf(all);
      assert modules[..11] == Symbol(values[0]) && modules[11..] == ModulesOf(values[1..] + [Stop]);
      assert [values[0]] + values[1..] == values;
    }
  }

  // ----- The round trip

  lemma RestInPairs(text: string)
    requires InPairs(text) && text != ""
    ensures |text| >= 2 && InPairs(text[2..]) && PairValues(text)[1..] == PairValues(text[2..])
  {
    var rest := text[2..];
    assert forall i :: 0 <= i < |rest| ==> rest[i] == text[i + 2];
    forall i | 0 <= i < |rest| / 2 ensures PairValues(text)[1..][i] == PairValues(rest)[i] {
      assert text[2 * (i + 1)] == rest[2 * i] && text[2 * (i + 1) + 1] == rest[2 * i + 1];
    }
  }

  lemma FirstPair(text: string)
    requires InPairs(text) && text != ""
    ensures var first := PairValues(text)[0];
            ('0' as int + first / 10) as char == text[0] && ('0' as int + first % 10) as char == text[1]
  {
    assert IsDigit(text[0]) && IsDigit(text[1]);
  }

  lemma {:induction false} PairsReadBack(text: string)
    requires InPairs(text)
    ensures PairText(PairValues(text)) == text
  {
    hide PairValues, InPairs;
    if text != "" {
      RestInPairs(text);
      FirstPair(text);
      PairsReadBack(text[2..]);
      assert text == [text[0], text[1]] + text[2..];
    } else {
      NoPairs();
    }
  }

  lemma NoPairs()
    ensures InPairs("") && PairValues("") == []
  {
  }

  lemma CharsReadBack(text: string)
    requires CanEncode(text)
    ensures CharText(CharValues(text)) == text
  {
  }

  lemma TextReadBack(text: string)
    requires CanEncode(text)
    ensures TextOf([StartOf(text)] + DataOf(text) + [Checksum(StartOf(text), DataOf(text))]) == Some(text)
  {
    hide PairText, CharText, PairValues, CharValues, Checksum;
    var start, data := StartOf(text), DataOf(text);
    var all := [start] + data + [Checksum(start, data)];
    assert all[1..|all| - 1] == data && all[|all| - 1] == Checksum(start, data);
    if InPairs(text) { PairsReadBack(text); } else { CharsReadBack(text); }
  }

  /** There are modules exactly for printable ASCII of 1 to 40 characters: 11(n + 3) + 2 for n data symbols. */
  lemma ModuleCount(text: string)
    ensures Modules(text).Some? <==> CanEncode(text)
    ensures Modules(text).Some? ==> |Modules(text).value| == 11 * (|DataOf(text)| + 3) + 2
  {
    hide ModulesOf, Checksum, DataOf, StartOf, CanEncode;
    if CanEncode(text) {
      StartIs(text);
      var values := [StartOf(text)] + DataOf(text) + [Checksum(StartOf(text), DataOf(text))];
      assert values + [Stop] == [StartOf(text)] + DataOf(text) + [Checksum(StartOf(text), DataOf(text)), Stop];
      SymbolsRead(values);
    }
  }

  lemma StartIs(text: string)
    ensures StartOf(text) == StartB || StartOf(text) == StartC
  {
  }

  /** What is printed is read back, in either set. */
  lemma ReadBack(text: string)
    requires CanEncode(text)
    ensures Modules(text).Some? && Read(Modules(text).value) == Some(text)
  {
    hide ModulesOf, Checksum, DataOf, StartOf, CanEncode, ReadSymbols, TextOf;
    StartIs(text);
    var values := [StartOf(text)] + DataOf(text) + [Checksum(StartOf(text), DataOf(text))];
    assert values + [Stop] == [StartOf(text)] + DataOf(text) + [Checksum(StartOf(text), DataOf(text)), Stop];
    SymbolsRead(values);
    TextReadBack(text);
  }

  // ----- The checksum

  lemma NoSmallFactor(b: nat)
    requires 1 < b <= 10
    ensures 103 % b != 0
  {
    assert b == 2 || b == 3 || b == 4 || b == 5 || b == 6 || b == 7 || b == 8 || b == 9 || b == 10;
  }

  lemma NoProduct(q: nat, b: nat)
    requires 10 < b < 103
    ensures q * b != 103
  {
    if q >= 10 {
      assert q * b >= 10 * b;
    } else {
      TenPlaces(q);
      assert q * b == if q == 0 then 0 else if q == 1 then b else if q == 2 then 2 * b else if q == 3 then 3 * b else if q == 4 then 4 * b
                      else if q == 5 then 5 * b else if q == 6 then 6 * b else if q == 7 then 7 * b else if q == 8 then 8 * b else 9 * b;
    }
  }

  /** 103 is prime. */
  lemma NoFactor(b: nat)
    requires 1 < b < 103
    ensures 103 % b != 0
  {
    if b <= 10 {
      NoSmallFactor(b);
    } else {
      NoProduct(103 / b, b);
      assert 103 == 103 / b * b + 103 % b;
    }
  }

  lemma {:induction false} NoMultiple(a: int, b: nat)
    requires a % 103 != 0 && 0 < b < 103
    ensures (a * b) % 103 != 0
    decreases b
  {
    if b > 1 {
      NoFactor(b);
      var q, rest := 103 / b, 103 % b;
      NoMultiple(a, rest);
      assert a * rest == 103 * a - q * (a * b) by { assert rest == 103 - q * b; assert a * (q * b) == q * (a * b); }
      if (a * b) % 103 == 0 {
        var m := (a * b) / 103;
        assert q * (a * b) == 103 * (q * m) by { assert a * b == 103 * m; assert q * (103 * m) == 103 * (q * m); }
        assert a * rest == 103 * (a - q * m);
        Whole(a - q * m);
      }
    }
  }

  lemma Whole(n: int)
    ensures (103 * n) % 103 == 0
  {
  }

  lemma {:induction false} WeightedChange(data: seq<nat>, k: nat, x: nat)
    requires k < |data|
    ensures Weighted(data[k := x]) == Weighted(data) + (x - data[k]) * (k + 1)
  {
    var n := |data| - 1;
    if k == n {
      assert data[k := x][..n] == data[..n];
      assert (x - data[k]) * (k + 1) == x * |data| - data[n] * |data|;
    } else {
      assert data[k := x][..n] == data[..n][k := x];
      WeightedChange(data[..n], k, x);
    }
  }

  lemma ChecksumMoves(start: nat, data: seq<nat>, other: seq<nat>, move: int)
    requires Weighted(other) == Weighted(data) + move && move % 103 != 0
    ensures Checksum(start, other) != Checksum(start, data)
  {
    hide Weighted;
  }

  /** A data symbol read as another changes the checksum. */
  lemma SubstitutionShows(start: nat, data: seq<nat>, k: nat, x: nat)
    requires |data| < 103 && k < |data| && x < 103 && data[k] < 103 && x != data[k]
    ensures Checksum(start, data[k := x]) != Checksum(start, data)
  {
    hide Weighted, Checksum;
    WeightedChange(data, k, x);
    assert (x - data[k]) % 103 != 0;
    NoMultiple(x - data[k], k + 1);
    ChecksumMoves(start, data, data[k := x], (x - data[k]) * (k + 1));
  }

  /** So do two different data symbols changing places, neighbours or not. */
  lemma SwapShows(start: nat, data: seq<nat>, i: nat, j: nat)
    requires |data| < 103 && i < j < |data| && data[i] < 103 && data[j] < 103 && data[i] != data[j]
    ensures Checksum(start, data[i := data[j]][j := data[i]]) != Checksum(start, data)
  {
    hide Weighted, Checksum;
    WeightedChange(data, i, data[j]);
    WeightedChange(data[i := data[j]], j, data[i]);
    var a: int := data[i] as int - data[j];
    assert (data[j] - data[i]) * (i + 1) + a * (j + 1) == a * (j - i);
    NoMultiple(a, j - i);
    ChecksumMoves(start, data, data[i := data[j]][j := data[i]], a * (j - i));
  }

  lemma {:induction false} WrongLength(modules: string)
    requires |modules| % 11 != 2
    ensures ReadSymbols(modules).None?
  {
    hide ReadSymbol, ReadStop;
    if |modules| > 13 { WrongLength(modules[11..]); }
  }

  lemma SymbolLength(value: nat)
    requires value <= Stop
    ensures |Symbol(value)| == if value == Stop then 13 else 11
  {
    hide Symbol;
    if value == Stop { StopRead(); } else { SymbolRead(value); }
  }

  function Stops(values: seq<nat>): (r: nat) { if values == [] then 0 else Stops(values[1..]) + if values[0] == Stop then 1 else 0 }

  lemma {:induction false} LengthOf(values: seq<nat>)
    requires AreSymbols(values)
    ensures |ModulesOf(values)| == 11 * |values| + 2 * Stops(values)
  {
    hide Symbol;
    if values != [] {
      SymbolLength(values[0]);
      LengthOf(values[1..]);
    }
  }

  lemma {:induction false} StopsPut(values: seq<nat>, k: nat, x: nat)
    requires k < |values|
    ensures Stops(values[k := x]) == Stops(values) - (if values[k] == Stop then 1 else 0) + if x == Stop then 1 else 0
  {
    if k == 0 {
      assert values[k := x][1..] == values[1..];
    } else {
      assert values[k := x][1..] == values[1..][k - 1 := x];
      StopsPut(values[1..], k - 1, x);
    }
  }

  lemma {:induction false} OneStop(values: seq<nat>)
    requires forall i :: 0 <= i < |values| ==> values[i] < 106
    ensures Stops(values + [Stop]) == 1
  {
    if values == [] {
      assert (values + [Stop])[1..] == [];
    } else {
      assert (values + [Stop])[1..] == values[1..] + [Stop];
      OneStop(values[1..]);
    }
  }

  /** No stop, or two, and there is nothing to read. */
  lemma StopsAmiss(values: seq<nat>, k: nat, x: nat)
    requires (forall i :: 0 <= i < |values| ==> values[i] < 106) && k <= |values| && x <= Stop
    requires (k < |values| && x == Stop) || (k == |values| && x < Stop)
    ensures AreSymbols((values + [Stop])[k := x]) && Read(ModulesOf((values + [Stop])[k := x])).None?
  {
    hide ModulesOf, ReadSymbols;
    var other := (values + [Stop])[k := x];
    OneStop(values);
    StopsPut(values + [Stop], k, x);
    LengthOf(other);
    WrongLength(ModulesOf(other));
  }

  lemma AllRead(values: seq<nat>)
    requires forall i :: 0 <= i < |values| ==> values[i] < 106
    ensures AreSymbols(values + [Stop]) && Read(ModulesOf(values + [Stop])) == TextOf(values)
  {
    hide ModulesOf, ReadSymbols, TextOf;
    SymbolsRead(values);
  }

  /** A reader takes nothing whose checksum is another. */
  lemma BadChecksum(start: nat, data: seq<nat>, check: nat)
    requires check != Checksum(start, data)
    ensures TextOf([start] + data + [check]).None?
  {
    hide Checksum, PairText, CharText;
    var all := [start] + data + [check];
    assert all[1..|all| - 1] == data && all[|all| - 1] == check;
  }

  lemma BadStart(start: nat, data: seq<nat>, check: nat)
    requires start != StartB && start != StartC
    ensures TextOf([start] + data + [check]).None?
  {
    hide Checksum, PairText, CharText;
    assert ([start] + data + [check])[0] == start;
  }

  lemma BadData(start: nat, data: seq<nat>, check: nat, k: nat)
    requires k < |data| && data[k] >= 100
    ensures TextOf([start] + data + [check]).None?
  {
    hide Checksum, PairText, CharText;
    var all := [start] + data + [check];
    assert all[1..|all| - 1] == data;
  }

  lemma StartShows(data: seq<nat>)
    ensures Checksum(StartB, data) != Checksum(StartC, data)
  {
    hide Weighted;
  }

  predicate IsData(data: seq<nat>) { |data| <= 40 && forall i :: 0 <= i < |data| ==> data[i] < 100 }

  lemma SymbolShows(start: nat, data: seq<nat>, k: nat, x: nat)
    requires IsData(data) && (start == StartB || start == StartC) && k < |data| + 2
    requires var values := [start] + data + [Checksum(start, data)]; x != values[k]
    ensures TextOf(([start] + data + [Checksum(start, data)])[k := x]).None?
  {
    hide Checksum, TextOf;
    var check := Checksum(start, data);
    var other := ([start] + data + [check])[k := x];
    if k == 0 {
      assert other == [x] + data + [check];
      StartShows(data);
      if x == StartB || x == StartC { BadChecksum(x, data, check); } else { BadStart(x, data, check); }
    } else if k <= |data| {
      assert other == [start] + data[k - 1 := x] + [check];
      if x >= 100 {
        BadData(start, data[k - 1 := x], check, k - 1);
      } else {
        SubstitutionShows(start, data, k - 1, x);
        BadChecksum(start, data[k - 1 := x], check);
      }
    } else {
      assert other == [start] + data + [x];
      BadChecksum(start, data, x);
    }
  }

  /** A barcode with any one symbol printed as another, start, data, checksum or stop, is not read at all. */
  lemma WrongSymbol(text: string, k: nat, x: nat)
    requires CanEncode(text) && k < |Values(text).value| && x <= Stop && x != Values(text).value[k]
    ensures AreSymbols(Values(text).value[k := x]) && Read(ModulesOf(Values(text).value[k := x])).None?
  {
    hide Checksum, DataOf, StartOf, CanEncode, Read, TextOf, ModulesOf;
    StartIs(text);
    var start, data := StartOf(text), DataOf(text);
    var values := [start] + data + [Checksum(start, data)];
    assert values + [Stop] == Values(text).value;
    if k == |values| || x == Stop {
      StopsAmiss(values, k, x);
    } else {
      SymbolShows(start, data, k, x);
      AllRead(values[k := x]);
      assert values[k := x] + [Stop] == (values + [Stop])[k := x];
    }
  }

  /** Nor is one with two different data symbols in each other's place. */
  lemma WrongOrder(text: string, i: nat, j: nat)
    requires CanEncode(text) && 1 <= i < j <= |DataOf(text)| && Values(text).value[i] != Values(text).value[j]
    ensures var values := Values(text).value; var other := values[i := values[j]][j := values[i]];
            AreSymbols(other) && Read(ModulesOf(other)).None?
  {
    hide Checksum, DataOf, StartOf, CanEncode, Read, TextOf, ModulesOf;
    StartIs(text);
    var start, data := StartOf(text), DataOf(text);
    var check := Checksum(start, data);
    var swapped := data[i - 1 := data[j - 1]][j - 1 := data[i - 1]];
    assert Values(text).value == [start] + data + [check, Stop];
    SwapShows(start, data, i - 1, j - 1);
    BadChecksum(start, swapped, check);
    AllRead([start] + swapped + [check]);
    assert Values(text).value[i := data[j - 1]][j := data[i - 1]] == [start] + swapped + [check] + [Stop];
  }

  // ----- The symbols themselves

  lemma {:induction false} WeightedSum(data: seq<nat>)
    ensures Weighted(data) == Sum(seq(|data|, i requires 0 <= i < |data| => (i + 1) * data[i]))
  {
    var products := seq(|data|, i requires 0 <= i < |data| => (i + 1) * data[i]);
    if data != [] {
      var n := |data| - 1;
      WeightedSum(data[..n]);
      assert products[..n] == seq(|data[..n]|, i requires 0 <= i < |data[..n]| => (i + 1) * data[..n][i]);
      assert products[n] == data[n] * |data|;
    }
  }

  /**
   * A text of an even count of digits is 105, a symbol for each two digits, and any other is 104 and a symbol for each
   * character, counted from the space; then come the start and every symbol times its place, modulo 103, and 106.
   */
  lemma SymbolsAre(text: string, values: seq<nat>)
    requires CanEncode(text) && values == Values(text).value
    ensures var n, pairs := |values| - 3, |text| % 2 == 0 && forall i :: 0 <= i < |text| ==> '0' <= text[i] <= '9';
            && 0 < n <= 40 && values[n + 2] == 106
            && values[n + 1] == (values[0] + Sum(seq(n, i requires 0 <= i < n => (i + 1) * values[i + 1]))) % 103
            && if pairs then
                 && 2 * n == |text| && values[0] == 105
                 && forall i :: 0 <= i < n ==> values[i + 1] == 10 * (text[2 * i] - '0') as int + (text[2 * i + 1] - '0') as int
               else n == |text| && values[0] == 104 && forall i :: 0 <= i < n ==> values[i + 1] == text[i] as int - 32
  {
    hide Weighted, Sum;
    var data, n := DataOf(text), |values| - 3;
    assert values[1..n + 1] == data;
    WeightedSum(data);
    assert seq(|data|, i requires 0 <= i < |data| => (i + 1) * data[i]) == seq(n, i requires 0 <= i < n => (i + 1) * values[i + 1]);
  }

  lemma ThreeWeighted(a: nat, b: nat, c: nat)
    ensures Weighted([a, b]) == a + 2 * b && Weighted([a, b, c]) == a + 2 * b + 3 * c
  {
    assert [a, b, c][..2] == [a, b] && [a, b][..1] == [a] && [a][..0] == [];
    assert Weighted([a]) == a;
  }

  /** The symbols of a text in letters and of one in digits. */
  lemma KnownSymbols(letters: string, digits: string)
    requires letters == "ABC" && digits == "1234"
    ensures Values(letters) == Some([104, 33, 34, 35, 1, 106]) && Values(digits) == Some([105, 12, 34, 82, 106])
  {
    ThreeWeighted(33, 34, 35);
    ThreeWeighted(12, 34, 0);
    hide Weighted;
    assert !IsDigit(letters[0]) && !InPairs(letters) && InPairs(digits) && CanEncode(letters) && CanEncode(digits);
    assert DataOf(letters) == [33, 34, 35] && DataOf(digits) == [12, 34];
    assert Checksum(104, [33, 34, 35]) == 1 && Checksum(105, [12, 34]) == 82;
    assert [104] + [33, 34, 35] + [1, 106] == [104, 33, 34, 35, 1, 106] && [105] + [12, 34] + [82, 106] == [105, 12, 34, 82, 106];
  }
}
