/**
 * The numbers noted and caught up with as text are the protocol's counts, for the counter's own series and the
 * financial years from 2000 to 2099 (apps/desktop/src/fallback-counter.ts, apps/desktop/src/fallback.ts).
 */
module NumbersRefineProtocol {
  import opened DocumentNumbers
  import opened OutboxRows
  import opened ServerTables
  import FP = FallbackProtocol

  function KeyFor(own: Own, kind: DocumentKind, startYear: int): (r: SeqKey) { SeqKey(kind, SeriesOf(own, kind), startYear) }

  /** What was noted as text stands for these counts. */
  ghost predicate StandsFor(own: Own, issued: map<string, nat>, counts: FP.Counts) {
    forall kind, startYear :: 2000 <= startYear <= 2099 ==>
      FP.Last(counts, KeyFor(own, kind, startYear)) == Seen(issued, PrefixOf(own, kind, startYear))
  }

  /** The copy's table of series has these counts. */
  ghost predicate HasCounts(own: Own, sequences: map<SeqKey, nat>, counts: FP.Counts) {
    forall kind, startYear :: 2000 <= startYear <= 2099 ==>
      FP.Last(counts, KeyFor(own, kind, startYear)) == LastIn(sequences, KeyFor(own, kind, startYear))
  }

  /** Each series and year is noted under a prefix of its own. */
  lemma PrefixesApart(code: string, counter: nat, kind: DocumentKind, startYear: int, kind': DocumentKind, startYear': int)
    requires ValidCode(code) && 2000 <= startYear <= 2099 && 2000 <= startYear' <= 2099
    requires PrefixOf(OwnSeries(code, counter), kind, startYear) == PrefixOf(OwnSeries(code, counter), kind', startYear')
    ensures kind == kind' && startYear == startYear'
  {
    hide OwnSeries, SeriesOf, DocumentYearCode, Padded;
    var own := OwnSeries(code, counter);
    NumberText(own, kind, startYear, 1);
    NumberText(own, kind', startYear', 1);
    NumbersApart(code, counter, kind, startYear, 1, kind', startYear', 1);
  }

  lemma NumberText(own: Own, kind: DocumentKind, startYear: int, seqNo: nat)
    ensures DocumentNumber(SeriesOf(own, kind), startYear, seqNo) == PrefixOf(own, kind, startYear) + "/" + Padded(seqNo, 5)
  {
  }

  /** Noting a number printed by the server is the protocol's noting of it. */
  lemma NotedIsNote(code: string, counter: nat, issued: map<string, nat>, d: FP.Desk, kind: DocumentKind, startYear: int, seqNo: nat)
    requires ValidCode(code) && 2000 <= startYear <= 2099
    requires d.settings.Some? && !d.settings.value.active && StandsFor(OwnSeries(code, counter), issued, d.settings.value.issued)
    ensures var own := OwnSeries(code, counter);
            var noted := FP.Note(d, FP.Number(KeyFor(own, kind, startYear), seqNo));
            noted.settings.Some?
            && StandsFor(own, Noted(issued, DocumentNumber(SeriesOf(own, kind), startYear, seqNo)), noted.settings.value.issued)
  {
    hide OwnSeries, PrefixOf, SeriesOf, Seen, Noted, DocumentNumber;
    var own := OwnSeries(code, counter);
    var prefix, number := PrefixOf(own, kind, startYear), FP.Number(KeyFor(own, kind, startYear), seqNo);
    var after := FP.Note(d, number).settings.value.issued;
    UnderItsPrefix(own, issued, kind, startYear, seqNo);
    forall other, year | 2000 <= year <= 2099
      ensures FP.Last(after, KeyFor(own, other, year))
           == Seen(Noted(issued, DocumentNumber(SeriesOf(own, kind), startYear, seqNo)), PrefixOf(own, other, year))
    {
      if PrefixOf(own, other, year) == prefix {
        PrefixesApart(code, counter, other, year, kind, startYear);
      } else {
        assert KeyFor(own, other, year) != number.key;
      }
    }
  }

  lemma UnderItsPrefix(own: Own, issued: map<string, nat>, kind: DocumentKind, startYear: int, seqNo: nat)
    ensures var r, prefix := Noted(issued, DocumentNumber(SeriesOf(own, kind), startYear, seqNo)), PrefixOf(own, kind, startYear);
            && Seen(r, prefix) == (if Seen(issued, prefix) >= seqNo then Seen(issued, prefix) else seqNo)
            && forall other :: other != prefix ==> Seen(r, other) == Seen(issued, other)
  {
    NotesItsNumber(issued, SeriesOf(own, kind), startYear, seqNo);
  }

  /** Printing what was noted and reading it into the copy's table is the protocol's start of selling offline. */
  lemma CaughtUpIsStart(
    code: string, counter: nat, issued: map<string, nat>, entries: seq<(string, nat)>, sequences: map<SeqKey, nat>, d: FP.Desk)
    requires ValidCode(code) && EntriesOf(issued, entries)
    requires d.settings.Some? && !d.settings.value.active && d.copy.Some?
    requires StandsFor(OwnSeries(code, counter), issued, d.settings.value.issued)
    requires HasCounts(OwnSeries(code, counter), sequences, d.copy.value.last)
    ensures var own, started := OwnSeries(code, counter), FP.Start(d);
            started.copy.Some? && HasCounts(own, RaiseNumbers(sequences, own, PrintedAll(entries)), started.copy.value.last)
  {
    hide OwnSeries, PrefixOf, SeriesOf, Seen, RaiseNumbers, PrintedAll, LastIn, EntriesOf;
    var own, counts := OwnSeries(code, counter), FP.Start(d).copy.value.last;
    forall kind, startYear | 2000 <= startYear <= 2099
      ensures FP.Last(counts, KeyFor(own, kind, startYear))
           == LastIn(RaiseNumbers(sequences, own, PrintedAll(entries)), KeyFor(own, kind, startYear))
    {
      CaughtUp(sequences, code, counter, kind, startYear, issued, entries);
    }
  }
}
