/** Text in a fixed width: cut or padded, and wrapped between words (packages/contracts/src/receiptLayout.ts). */
module WrapText {
  /** White space, as JavaScript's \s and trim have it. */
  predicate IsSpace(c: char) {
    c == ' ' || '\t' <= c <= '\r' || c == '\U{00A0}' || c == '\U{1680}' || '\U{2000}' <= c <= '\U{200A}'
    || c == '\U{2028}' || c == '\U{2029}' || c == '\U{202F}' || c == '\U{205F}' || c == '\U{3000}' || c == '\U{FEFF}'
  }

  function Spaces(n: nat): (r: string)
    ensures |r| == n
  {
    seq(n, i => ' ')
  }

  function FitLeft(text: string, width: nat): (r: string)
    ensures |r| == width
  {
    if |text| >= width then text[..width] else text + Spaces(width - |text|)
  }

  function FitRight(text: string, width: nat): (r: string)
    ensures |r| == width
  {
    if |text| >= width then text[..width] else Spaces(width - |text|) + text
  }

  function FitCenter(text: string, width: nat): (r: string)
    ensures |r| == width
  {
    if |text| >= width then text[..width]
    else
      var left := (width - |text|) / 2;
      Spaces(left) + text + Spaces(width - |text| - left)
  }

  function TrimEnd(text: string): (r: string) {
    if text != "" && IsSpace(text[|text| - 1]) then TrimEnd(text[..|text| - 1]) else text
  }

  function TrimStart(text: string): (r: string) {
    if text != "" && IsSpace(text[0]) then TrimStart(text[1..]) else text
  }

  function Trim(text: string): (r: string) { TrimEnd(TrimStart(text)) }

  // ----- Words

  /** The text's words, and the one still open at its end. */
  datatype Split = Split(words: seq<string>, open': string)

  function SplitWords(text: string): (r: Split) {
    if text == "" then Split([], "")
    else
      var before, c := SplitWords(text[..|text| - 1]), text[|text| - 1];
      if !IsSpace(c) then Split(before.words, before.open' + [c])
      else if before.open' == "" then before
      else Split(before.words + [before.open'], "")
  }

  function WordsOf(text: string): (r: seq<string>) {
    var s := SplitWords(text);
    if s.open' == "" then s.words else s.words + [s.open']
  }

  predicate IsWord(word: string) { word != "" && forall i :: 0 <= i < |word| ==> !IsSpace(word[i]) }

  predicate AllWords(words: seq<string>) { forall i :: 0 <= i < |words| ==> IsWord(words[i]) }

  lemma {:induction false} SplitsIntoWords(text: string)
    ensures AllWords(SplitWords(text).words)
    ensures SplitWords(text).open' != "" ==> IsWord(SplitWords(text).open')
  {
    hide IsSpace;
    if text != "" { SplitsIntoWords(text[..|text| - 1]); }
  }

  lemma WordsAreWords(text: string)
    ensures AllWords(WordsOf(text))
  {
    SplitsIntoWords(text);
  }

  // ----- Wrapping

  /** Lines finished, and the one being filled. */
  datatype Wrapping = Wrapping(lines: seq<string>, current: string)

  /** A word longer than the width is cut into full lines; its remainder begins the line after them. */
  function BreakWord(w: Wrapping, word: string, width: nat): (r: Wrapping)
    requires width > 0
    decreases |word|
  {
    if |word| >= width then BreakWord(Wrapping(w.lines + [word[..width]], ""), word[width..], width)
    else Wrapping(w.lines, word)
  }

  function AddWord(w: Wrapping, word: string, width: nat): (r: Wrapping)
    requires width > 0
  {
    if |word| > width then BreakWord(if w.current != "" then Wrapping(w.lines + [w.current], "") else w, word, width)
    else if w.current == "" then Wrapping(w.lines, word)
    else if |w.current| + 1 + |word| <= width then Wrapping(w.lines, w.current + " " + word)
    else Wrapping(w.lines + [w.current], word)
  }

  function AddWords(words: seq<string>, width: nat): (r: Wrapping)
    requires width > 0
  {
    if words == [] then Wrapping([], "") else AddWord(AddWords(words[..|words| - 1], width), words[|words| - 1], width)
  }

  function LinesOf(w: Wrapping): (r: seq<string>) { if w.current != "" then w.lines + [w.current] else w.lines }

  function Wrapped(text: string, width: nat): (r: seq<string>)
    requires width > 0
  {
    if WordsOf(text) == [] then [""] else LinesOf(AddWords(WordsOf(text), width))
  }

  method WrapText(text: string, width: nat) returns (lines: seq<string>)
    requires width > 0
    ensures lines == Wrapped(text, width)
  {
    var words := WordsOf(text);
    if words == [] { return [""]; }
    lines := [];
    var current := "";
    for n := 0 to |words|
      invariant Wrapping(lines, current) == AddWords(words[..n], width)
    {
      assert words[..n + 1][..n] == words[..n];
      var word := words[n];
      if |word| > width {
        if current != "" { lines := lines + [current]; }
        current := "";
        ghost var whole := BreakWord(Wrapping(lines, current), word, width);
        var rest := word;
        while |rest| >= width
          invariant BreakWord(Wrapping(lines, ""), rest, width) == whole
          decreases |rest|
        {
          lines := lines + [rest[..width]];
          rest := rest[width..];
        }
        current := rest;
        continue;
      }
      if current == "" {
        current := word;
      } else if |current| + 1 + |word| <= width {
        current := current + " " + word;
      } else {
        lines := lines + [current];
        current := word;
      }
    }
    assert words[..|words|] == words;
    if current != "" { lines := lines + [current]; }
  }

  // ----- No line is too long

  ghost predicate Within(w: Wrapping, width: nat) {
    (forall i :: 0 <= i < |w.lines| ==> 0 < |w.lines[i]| <= width) && |w.current| <= width
  }

  lemma {:induction false} BreakWithin(w: Wrapping, word: string, width: nat)
    requires width > 0 && Within(w, width)
    ensures Within(BreakWord(w, word, width), width)
    decreases |word|
  {
    if |word| >= width { BreakWithin(Wrapping(w.lines + [word[..width]], ""), word[width..], width); }
  }

  lemma {:induction false} WordsWithin(words: seq<string>, width: nat)
    requires width > 0
    ensures Within(AddWords(words, width), width)
  {
    if words != [] {
      var w, word := AddWords(words[..|words| - 1], width), words[|words| - 1];
      WordsWithin(words[..|words| - 1], width);
      BreakWithin(if w.current != "" then Wrapping(w.lines + [w.current], "") else w, word, width);
    }
  }

  lemma LinesFit(text: string, width: nat)
    requires width > 0
    ensures forall i :: 0 <= i < |Wrapped(text, width)| ==> |Wrapped(text, width)[i]| <= width
  {
    WordsWithin(WordsOf(text), width);
  }

  // ----- Every character kept

  /** The characters that aren't white space. */
  function Solid(text: string): (r: string) {
    if text == "" then "" else Solid(text[..|text| - 1]) + if IsSpace(text[|text| - 1]) then "" else [text[|text| - 1]]
  }

  function SolidOf(lines: seq<string>): (r: string) {
    if lines == [] then "" else SolidOf(lines[..|lines| - 1]) + Solid(lines[|lines| - 1])
  }

  lemma {:induction false} SolidConcat(a: string, b: string)
    ensures Solid(a + b) == Solid(a) + Solid(b)
  {
    if b == "" {
      assert a + b == a;
    } else {
      assert (a + b)[..|a + b| - 1] == a + b[..|b| - 1];
      SolidConcat(a, b[..|b| - 1]);
    }
  }

  lemma {:induction false} SolidWord(word: string)
    requires forall i :: 0 <= i < |word| ==> !IsSpace(word[i])
    ensures Solid(word) == word
  {
    hide IsSpace;
    if word != "" { SolidWord(word[..|word| - 1]); }
  }

  lemma SolidNext(lines: seq<string>, line: string)
    ensures SolidOf(lines + [line]) == SolidOf(lines) + Solid(line)
  {
    assert (lines + [line])[..|lines|] == lines;
  }

  lemma SolidStep(text: string)
    requires text != ""
    ensures var n := |text| - 1; Solid(text) == Solid(text[..n]) + if IsSpace(text[n]) then "" else [text[n]]
  {
  }

  lemma Associates(a: string, b: string, c: string)
    ensures (a + b) + c == a + (b + c)
  {
  }

  lemma NothingSolid()
    ensures Solid("") == "" && SolidOf([]) == ""
  {
  }

  lemma {:induction false} WordsKeep(text: string)
    ensures SolidOf(SplitWords(text).words) + SplitWords(text).open' == Solid(text)
  {
    hide IsSpace, Solid, SolidOf;
    NothingSolid();
    if text != "" {
      var before, c := SplitWords(text[..|text| - 1]), text[|text| - 1];
      WordsKeep(text[..|text| - 1]);
      SolidStep(text);
      if !IsSpace(c) {
        Associates(SolidOf(before.words), before.open', [c]);
      } else if before.open' != "" {
        SplitsIntoWords(text[..|text| - 1]);
        SolidNext(before.words, before.open');
        SolidWord(before.open');
      }
    }
  }

  lemma WordsKeepText(text: string)
    ensures SolidOf(WordsOf(text)) == Solid(text)
  {
    WordsKeep(text);
    SplitsIntoWords(text);
    var s := SplitWords(text);
    SolidNext(s.words, s.open');
    if s.open' != "" { SolidWord(s.open'); }
  }

  ghost function Text(w: Wrapping): (r: string) { SolidOf(w.lines) + Solid(w.current) }

  lemma {:induction false} BreakKeeps(w: Wrapping, word: string, width: nat)
    requires width > 0 && w.current == ""
    ensures Text(BreakWord(w, word, width)) == Text(w) + Solid(word)
    decreases |word|
  {
    if |word| >= width {
      var next := Wrapping(w.lines + [word[..width]], "");
      BreakKeeps(next, word[width..], width);
      SolidNext(w.lines, word[..width]);
      SolidConcat(word[..width], word[width..]);
      assert word == word[..width] + word[width..];
    }
  }

  lemma JoinKeeps(current: string, word: string)
    ensures Solid(current + " " + word) == Solid(current) + Solid(word)
  {
    hide Solid;
    SolidConcat(current + " ", word);
    SolidConcat(current, " ");
    SolidSpace();
  }

  lemma SolidSpace()
    ensures Solid(" ") == ""
  {
    assert " "[..0] == "";
  }

  lemma AddKeeps(w: Wrapping, word: string, width: nat)
    requires width > 0
    ensures Text(AddWord(w, word, width)) == Text(w) + Solid(word)
  {
    hide Solid, SolidOf, BreakWord;
    NothingSolid();
    SolidNext(w.lines, w.current);
    Associates(SolidOf(w.lines), Solid(w.current), Solid(word));
    if |word| > width {
      BreakKeeps(if w.current != "" then Wrapping(w.lines + [w.current], "") else w, word, width);
    } else if w.current != "" && |w.current| + 1 + |word| <= width {
      JoinKeeps(w.current, word);
    }
  }

  lemma {:induction false} AddAllKeep(words: seq<string>, width: nat)
    requires width > 0
    ensures Text(AddWords(words, width)) == SolidOf(words)
  {
    hide AddWord;
    if words != [] {
      AddAllKeep(words[..|words| - 1], width);
      AddKeeps(AddWords(words[..|words| - 1], width), words[|words| - 1], width);
    }
  }

  /** The lines hold every character of the text that isn't white space, in order. */
  lemma WrapKeepsText(text: string, width: nat)
    requires width > 0
    ensures SolidOf(Wrapped(text, width)) == Solid(text)
  {
    var words := WordsOf(text);
    WordsKeepText(text);
    if words == [] {
      assert [""][..0] == [];
    } else {
      AddAllKeep(words, width);
      var w := AddWords(words, width);
      SolidNext(w.lines, w.current);
    }
  }

  // ----- In the fewest lines

  /** Lines that words of some lengths take, `used` of the first being filled. */
  function CountFrom(used: nat, lengths: seq<nat>, width: nat): (r: nat)
    decreases |lengths|
  {
    if lengths == [] then (if used > 0 then 1 else 0)
    else
      var l := lengths[0];
      if used == 0 then CountFrom(l, lengths[1..], width)
      else if used + 1 + l <= width then CountFrom(used + 1 + l, lengths[1..], width)
      else 1 + CountFrom(l, lengths[1..], width)
  }

  ghost predicate Fitting(lengths: seq<nat>, width: nat) { forall i :: 0 <= i < |lengths| ==> 0 < lengths[i] <= width }

  /** A fuller line takes no fewer lines in all, and at most one more than a new line would. */
  lemma {:induction false} FullerTakesMore(a: nat, b: nat, lengths: seq<nat>, width: nat)
    requires Fitting(lengths, width) && a <= b
    ensures CountFrom(a, lengths, width) <= CountFrom(b, lengths, width) <= 1 + CountFrom(0, lengths, width)
    decreases |lengths|
  {
    if lengths != [] {
      var l, rest := lengths[0], lengths[1..];
      assert Fitting(rest, width);
      FullerTakesMore(l, l, rest, width);
      FullerTakesMore(0, l, rest, width);
      FullerTakesMore(l, b + 1 + l, rest, width);
      FullerTakesMore(l, a + 1 + l, rest, width);
      FullerTakesMore(a + 1 + l, b + 1 + l, rest, width);
    }
  }

  function Joined(lengths: seq<nat>): (r: nat) {
    if lengths == [] then 0 else lengths[0] + (if |lengths| == 1 then 0 else 1 + Joined(lengths[1..]))
  }

  function Flatten(groups: seq<seq<nat>>): (r: seq<nat>) {
    if groups == [] then [] else groups[0] + Flatten(groups[1..])
  }

  /** Words that fit on one line together are not broken. */
  lemma {:induction false} GroupTakesOne(used: nat, group: seq<nat>, rest: seq<nat>, width: nat)
    requires group != [] && Fitting(group, width)
    requires (if used == 0 then Joined(group) else used + 1 + Joined(group)) <= width
    ensures CountFrom(used, group + rest, width)
         == CountFrom(if used == 0 then Joined(group) else used + 1 + Joined(group), rest, width)
    decreases |group|
  {
    var next := if used == 0 then group[0] else used + 1 + group[0];
    assert (group + rest)[1..] == group[1..] + rest;
    if |group| > 1 {
      GroupTakesOne(next, group[1..], rest, width);
    } else {
      assert group[1..] + rest == rest;
    }
  }

  /** However the words are broken into lines that fit, there are no fewer lines than filling each as far as it goes. */
  lemma {:induction false} NoFewerLines(groups: seq<seq<nat>>, width: nat)
    requires forall i :: 0 <= i < |groups| ==> groups[i] != [] && Fitting(groups[i], width) && Joined(groups[i]) <= width
    ensures CountFrom(0, Flatten(groups), width) <= |groups|
    ensures Fitting(Flatten(groups), width)
  {
    hide Joined;
    if groups != [] {
      NoFewerLines(groups[1..], width);
      var rest := Flatten(groups[1..]);
      GroupTakesOne(0, groups[0], rest, width);
      FullerTakesMore(0, Joined(groups[0]), rest, width);
    }
  }

  function Lengths(words: seq<string>): (r: seq<nat>)
    ensures |r| == |words|
  {
    seq(|words|, i requires 0 <= i < |words| => |words[i]|)
  }

  /** Wrapping words that all fit takes as many lines as filling each line as far as it goes. */
  lemma {:induction false} WrapCounts(words: seq<string>, rest: seq<nat>, width: nat)
    requires width > 0 && Fitting(Lengths(words), width)
    ensures var w := AddWords(words, width);
            CountFrom(0, Lengths(words) + rest, width) == |w.lines| + CountFrom(|w.current|, rest, width)
    decreases |words|
  {
    if words == [] {
      assert Lengths(words) + rest == rest;
    } else {
      var n := |words| - 1;
      assert Lengths(words) + rest == Lengths(words[..n]) + ([|words[n]|] + rest);
      assert Fitting(Lengths(words[..n]), width) by {
        assert forall i :: 0 <= i < n ==> Lengths(words[..n])[i] == Lengths(words)[i];
      }
      assert 0 < Lengths(words)[n] <= width;
      WrapCounts(words[..n], [|words[n]|] + rest, width);
      assert ([|words[n]|] + rest)[1..] == rest;
    }
  }

  /**
   * With no word longer than a line, no other way of breaking the text between words that fits the width
   * takes fewer lines.
   */
  lemma FewestLines(text: string, width: nat, groups: seq<seq<nat>>)
    requires width > 0 && WordsOf(text) != [] && Fitting(Lengths(WordsOf(text)), width)
    requires Flatten(groups) == Lengths(WordsOf(text))
    requires forall i :: 0 <= i < |groups| ==> groups[i] != [] && Joined(groups[i]) <= width
    ensures |Wrapped(text, width)| <= |groups|
  {
    hide Joined;
    var words := WordsOf(text);
    GroupsFit(groups, width);
    NoFewerLines(groups, width);
    WrapCounts(words, [], width);
    assert Lengths(words) + [] == Lengths(words);
  }

  lemma {:induction false} GroupsFit(groups: seq<seq<nat>>, width: nat)
    requires Fitting(Flatten(groups), width)
    ensures forall i :: 0 <= i < |groups| ==> Fitting(groups[i], width)
  {
    if groups != [] {
      var rest := Flatten(groups[1..]);
      forall j | 0 <= j < |groups[0]| ensures 0 < groups[0][j] <= width { assert Flatten(groups)[j] == groups[0][j]; }
      forall j | 0 <= j < |rest| ensures 0 < rest[j] <= width { assert Flatten(groups)[|groups[0]| + j] == rest[j]; }
      GroupsFit(groups[1..], width);
      forall i | 0 < i < |groups| ensures Fitting(groups[i], width) { assert groups[1..][i - 1] == groups[i]; }
    }
  }

  // ----- Whole words on every line

  /** Words joined by single spaces. */
  function Spaced(words: seq<string>): (r: string)
    requires words != []
  {
    if |words| == 1 then words[0] else Spaced(words[..|words| - 1]) + " " + words[|words| - 1]
  }

  function Together(groups: seq<seq<string>>): (r: seq<string>) {
    if groups == [] then [] else Together(groups[..|groups| - 1]) + groups[|groups| - 1]
  }

  ghost predicate AreSpaced(lines: seq<string>, groups: seq<seq<string>>) {
    |lines| == |groups| && forall i :: 0 <= i < |lines| ==> groups[i] != [] && lines[i] == Spaced(groups[i])
  }

  lemma SpacedMore(group: seq<string>, word: string)
    requires group != []
    ensures Spaced(group + [word]) == Spaced(group) + " " + word
  {
    assert (group + [word])[..|group|] == group;
  }

  lemma TogetherMore(groups: seq<seq<string>>, group: seq<string>)
    ensures Together(groups + [group]) == Together(groups) + group
  {
    assert (groups + [group])[..|groups|] == groups;
  }

  lemma {:induction false} FillsWithWords(words: seq<string>, width: nat) returns (groups: seq<seq<string>>, last: seq<string>)
    requires width > 0 && words != [] && AllWords(words) && forall i :: 0 <= i < |words| ==> |words[i]| <= width
    ensures var w := AddWords(words, width);
            AreSpaced(w.lines, groups) && last != [] && w.current == Spaced(last) && w.current != ""
    ensures Together(groups) + last == words
  {
    var n := |words| - 1;
    assert words == words[..n] + [words[n]] && IsWord(words[n]);
    if n == 0 {
      assert words[..n] == [];
      groups, last := [], [words[n]];
    } else {
      groups, last := FillsWithWords(words[..n], width);
      var w := AddWords(words[..n], width);
      if |w.current| + 1 + |words[n]| <= width {
        SpacedMore(last, words[n]);
        last := last + [words[n]];
      } else {
        TogetherMore(groups, last);
        groups, last := groups + [last], [words[n]];
      }
    }
  }

  /** With no word longer than a line, the lines are the text's words in order, whole, those on one line joined by single spaces. */
  lemma LinesAreWords(text: string, width: nat) returns (groups: seq<seq<string>>)
    requires width > 0 && WordsOf(text) != [] && forall i :: 0 <= i < |WordsOf(text)| ==> |WordsOf(text)[i]| <= width
    ensures AreSpaced(Wrapped(text, width), groups) && Together(groups) == WordsOf(text)
  {
    WordsAreWords(text);
    var full, last := FillsWithWords(WordsOf(text), width);
    TogetherMore(full, last);
    groups := full + [last];
  }
}
