/** `RepeatedLineInterceptor` of private_gpt/components/code_execution/output_cleaning.py. */
module RepeatedLines {
  import opened Sequences

  /** One line of the output: a line of the input, or the count of how often it comes again. */
  datatype Item = Line(text: string) | Repeated(more: nat)

  /** Python's str.split("\n"). */
  function Split(text: string): (lines: seq<string>)
    ensures lines != []
  {
    if text == "" then [""]
    else
      var rest := Split(text[1..]);
      if text[0] == '\n' then [""] + rest else [[text[0]] + rest[0]] + rest[1..]
  }

  predicate Blank(line: string) {
    forall c | c in line :: IsSpace(c)
  }

  function Digit(d: nat): char
    requires d < 10
  {
    '0' + d as char
  }

  function Decimal(n: nat): (s: string)
    ensures s != ""
  {
    if n < 10 then [Digit(n)] else Decimal(n / 10) + [Digit(n % 10)]
  }

  const COUNT_OPENS := "... [previous line repeated "
  const COUNT_CLOSES := " more times]"

  function CountLine(more: nat): string {
    COUNT_OPENS + Decimal(more) + COUNT_CLOSES
  }

  function TextOf(item: Item): string {
    match item
    case Line(text) => text
    case Repeated(more) => CountLine(more)
  }

  function Texts(items: seq<Item>): (texts: seq<string>)
    ensures |texts| == |items|
    ensures forall k | 0 <= k < |items| :: texts[k] == TextOf(items[k])
  {
    seq(|items|, k requires 0 <= k < |items| => TextOf(items[k]))
  }

  function Copies(line: string, n: nat): seq<string> {
    seq(n, _ => line)
  }

  function AsItems(lines: seq<string>): seq<Item> {
    seq(|lines|, k requires 0 <= k < |lines| => Line(lines[k]))
  }

  /** The output of one run: the line with its count, or the lines themselves. */
  function Collapsed(line: string, run: nat, minRun: int): seq<Item>
    requires run > 0
  {
    if run >= minRun && !Blank(line) then [Line(line), Repeated(run - 1)] else AsItems(Copies(line, run))
  }

  /** Where the lines equal to line i end, from j on. */
  function RunEnd(lines: seq<string>, i: nat, j: nat): (end: nat)
    requires i < j <= |lines|
    ensures j <= end <= |lines| && forall k | j <= k < end :: lines[k] == lines[i]
    ensures end == |lines| || lines[end] != lines[i]
    decreases |lines| - j
  {
    if j < |lines| && lines[j] == lines[i] then RunEnd(lines, i, j + 1) else j
  }

  /** One run after the other. */
  function CollapseFrom(lines: seq<string>, i: nat, minRun: int): seq<Item>
    decreases |lines| - i
  {
    if i >= |lines| then []
    else
      var end := RunEnd(lines, i, i + 1);
      Collapsed(lines[i], end - i, minRun) + CollapseFrom(lines, end, minRun)
  }

  function Collapse(text: string, minRun: int): string {
    JoinLines(Texts(CollapseFrom(Split(text), 0, minRun)))
  }

  /* The loop. */

  lemma TextsConcat(a: seq<Item>, b: seq<Item>)
    ensures Texts(a + b) == Texts(a) + Texts(b)
  {
  }

  lemma CollapseOne(done: seq<string>, lines: seq<string>, i: nat, minRun: int)
    requires i < |lines|
    ensures var end := RunEnd(lines, i, i + 1);
            done + Texts(CollapseFrom(lines, i, minRun))
            == done + Texts(Collapsed(lines[i], end - i, minRun)) + Texts(CollapseFrom(lines, end, minRun))
  {
    hide Collapsed, Texts, RunEnd;
    var end := RunEnd(lines, i, i + 1);
    var here, rest := Collapsed(lines[i], end - i, minRun), CollapseFrom(lines, end, minRun);
    assert CollapseFrom(lines, i, minRun) == here + rest;
    hide CollapseFrom;
    TextsConcat(here, rest);
    Assoc(done, Texts(here), Texts(rest));
  }

  /** What the loop appends for one run. */
  function RunTexts(lines: seq<string>, i: nat, j: nat, minRun: int): seq<string>
    requires i < j <= |lines|
  {
    if j - i >= minRun && !Blank(lines[i]) then [lines[i], CountLine(j - i - 1)] else lines[i..j]
  }

  lemma PutRun(out: seq<string>, lines: seq<string>, i: nat, j: nat, minRun: int)
    requires i < j <= |lines| && RunEnd(lines, i, i + 1) == j && forall k | i <= k < j :: lines[k] == lines[i]
    ensures out + Texts(CollapseFrom(lines, i, minRun))
         == out + RunTexts(lines, i, j, minRun) + Texts(CollapseFrom(lines, j, minRun))
  {
    hide CollapseFrom, RunEnd, CountLine, Blank;
    CollapseOne(out, lines, i, minRun);
    assert Texts(Collapsed(lines[i], j - i, minRun)) == RunTexts(lines, i, j, minRun);
  }

  lemma WhatIsPut(lines: seq<string>, i: nat, j: nat, minRun: int)
    requires i < j <= |lines|
    ensures RunTexts(lines, i, j, minRun)
         == if j - i >= minRun && !Blank(lines[i]) then [lines[i], CountLine(j - i - 1)] else lines[i..j]
  {
  }

  method CollapseRepeatedLines(text: string, minRun: int) returns (result: string)
    ensures result == Collapse(text, minRun)
  {
    hide *;
    var lines := Split(text);
    var out := [];
    var i := 0;
    while i < |lines|
      invariant 0 <= i <= |lines|
      invariant out + Texts(CollapseFrom(lines, i, minRun)) == Texts(CollapseFrom(lines, 0, minRun))
    {
      var j := i;
      while j + 1 < |lines| && lines[j + 1] == lines[i]
        invariant i <= j < |lines| && forall k :: i <= k <= j ==> lines[k] == lines[i]
        invariant RunEnd(lines, i, j + 1) == RunEnd(lines, i, i + 1)
      {
        RunEndStep(lines, i, j + 1);
        j := j + 1;
      }
      RunEndStep(lines, i, j + 1);
      var run := j - i + 1;
      PutRun(out, lines, i, j + 1, minRun);
      WhatIsPut(lines, i, j + 1, minRun);
      if run >= minRun && !Blank(lines[i]) {
        out := out + [lines[i], CountLine(run - 1)];
      } else {
        out := out + lines[i..j + 1];
      }
      i := j + 1;
    }
    AllCollapsed(lines, i, minRun);
    assert out + [] == out;
    result := JoinLines(out);
    CollapsedAsLines(text, minRun);
  }

  lemma CollapsedAsLines(text: string, minRun: int)
    ensures Collapse(text, minRun) == JoinLines(Texts(CollapseFrom(Split(text), 0, minRun)))
  {
  }

  lemma RunEndStep(lines: seq<string>, i: nat, j: nat)
    requires i < j <= |lines|
    ensures RunEnd(lines, i, j) == if j < |lines| && lines[j] == lines[i] then RunEnd(lines, i, j + 1) else j
  {
  }

  lemma AllCollapsed(lines: seq<string>, i: nat, minRun: int)
    ensures i >= |lines| ==> Texts(CollapseFrom(lines, i, minRun)) == []
  {
  }

  /* The lines that the collapsed ones stand for. */

  /** Every count follows the non-blank line it counts, and stands for a run of `minRun` or more. */
  ghost predicate CountsInPlace(items: seq<Item>, minRun: int) {
    forall k | 0 <= k < |items| && items[k].Repeated? ::
      k > 0 && items[k - 1].Line? && !Blank(items[k - 1].text) && items[k].more + 1 >= minRun
  }

  function Extended(lines: seq<string>, item: Item): seq<string> {
    match item
    case Line(text) => lines + [text]
    case Repeated(more) => if lines == [] then [] else lines + Copies(lines[|lines| - 1], more)
  }

  function Expand(items: seq<Item>): seq<string> {
    if items == [] then []
    else
      Extended(Expand(items[..|items| - 1]), items[|items| - 1])
  }

  lemma ExpandOne(items: seq<Item>, last: Item)
    ensures Expand(items + [last]) == Extended(Expand(items), last)
  {
    assert (items + [last])[..|items|] == items;
  }

  lemma {:induction false} ExpandAppendLines(items: seq<Item>, lines: seq<string>)
    ensures Expand(items + AsItems(lines)) == Expand(items) + lines
    decreases |lines|
  {
    hide Expand;
    if lines == [] {
      assert items + AsItems(lines) == items;
    } else {
      var init, last := lines[..|lines| - 1], lines[|lines| - 1];
      assert items + AsItems(lines) == items + AsItems(init) + [Line(last)];
      ExpandAppendLines(items, init);
      ExpandOne(items + AsItems(init), Line(last));
      assert lines == init + [last];
    }
  }

  lemma AppendRun(items: seq<Item>, line: string, run: nat, minRun: int)
    requires run > 0 && CountsInPlace(items, minRun)
    ensures Expand(items + Collapsed(line, run, minRun)) == Expand(items) + Copies(line, run)
    ensures CountsInPlace(items + Collapsed(line, run, minRun), minRun)
  {
    hide Expand;
    if run >= minRun && !Blank(line) {
      assert items + Collapsed(line, run, minRun) == items + [Line(line)] + [Repeated(run - 1)];
      ExpandOne(items, Line(line));
      ExpandOne(items + [Line(line)], Repeated(run - 1));
      assert Copies(line, run) == [line] + Copies(line, run - 1);
    } else {
      ExpandAppendLines(items, Copies(line, run));
    }
  }

  lemma {:induction false} RunIsCopies(lines: seq<string>, i: nat, j: nat)
    requires i < j <= |lines| && lines[..j] == lines[..i] + Copies(lines[i], j - i)
    ensures lines[..RunEnd(lines, i, j)] == lines[..i] + Copies(lines[i], RunEnd(lines, i, j) - i)
    decreases |lines| - j
  {
    if j < |lines| && lines[j] == lines[i] {
      assert lines[..j + 1] == lines[..j] + [lines[j]];
      RunIsCopies(lines, i, j + 1);
    }
  }

  /** One more run put out. */
  lemma RunDone(done: seq<Item>, lines: seq<string>, i: nat, minRun: int) returns (here: seq<Item>)
    requires i < |lines| && Expand(done) == lines[..i] && CountsInPlace(done, minRun)
    ensures var end := RunEnd(lines, i, i + 1);
            && here == Collapsed(lines[i], end - i, minRun)
            && Expand(done + here) == lines[..end] && CountsInPlace(done + here, minRun)
            && done + CollapseFrom(lines, i, minRun) == done + here + CollapseFrom(lines, end, minRun)
  {
    hide Expand, CountsInPlace, Collapsed, RunEnd;
    var end := RunEnd(lines, i, i + 1);
    here := Collapsed(lines[i], end - i, minRun);
    AppendRun(done, lines[i], end - i, minRun);
    assert lines[..i + 1] == lines[..i] + Copies(lines[i], 1);
    RunIsCopies(lines, i, i + 1);
    Assoc(done, here, CollapseFrom(lines, end, minRun));
  }

  /** What is put out for the lines stands for them, and every count stands where it should. */
  lemma {:induction false} CollapsedStandsForAll(done: seq<Item>, lines: seq<string>, i: nat, minRun: int)
    requires i <= |lines| && Expand(done) == lines[..i] && CountsInPlace(done, minRun)
    ensures Expand(done + CollapseFrom(lines, i, minRun)) == lines
    ensures CountsInPlace(done + CollapseFrom(lines, i, minRun), minRun)
    decreases |lines| - i
  {
    hide Expand, CountsInPlace, Collapsed;
    if i == |lines| {
      assert done + [] == done && lines[..i] == lines;
    } else {
      var here := RunDone(done, lines, i, minRun);
      CollapsedStandsForAll(done + here, lines, RunEnd(lines, i, i + 1), minRun);
    }
  }

  ghost predicate IsRun(lines: seq<string>, i: nat, j: nat) {
    && i < j <= |lines| && (forall k | i <= k < j :: lines[k] == lines[i])
    && (i == 0 || lines[i - 1] != lines[i]) && (j == |lines| || lines[j] != lines[i])
  }

  lemma EndOfRun(lines: seq<string>, p: nat, i: nat, j: nat)
    requires IsRun(lines, i, j) && p <= i
    ensures p < i ==> RunEnd(lines, p, p + 1) <= i
    ensures p == i ==> RunEnd(lines, p, p + 1) == j
  {
  }

  lemma {:induction false} RunFrom(done: seq<Item>, lines: seq<string>, p: nat, i: nat, j: nat, minRun: int)
    returns (before: seq<Item>)
    requires IsRun(lines, i, j) && p <= i && Expand(done) == lines[..p] && CountsInPlace(done, minRun)
    ensures Expand(before) == lines[..i]
    ensures done + CollapseFrom(lines, p, minRun)
         == before + (Collapsed(lines[i], j - i, minRun) + CollapseFrom(lines, j, minRun))
    decreases i - p
  {
    hide Expand, CountsInPlace, Collapsed, CollapseFrom, RunEnd;
    EndOfRun(lines, p, i, j);
    var here := RunDone(done, lines, p, minRun);
    if p == i {
      before := done;
      Assoc(done, here, CollapseFrom(lines, j, minRun));
    } else {
      before := RunFrom(done + here, lines, RunEnd(lines, p, p + 1), i, j, minRun);
    }
  }

  /** Each run of equal lines is put out in its place: as one line and its count when it is long enough
      and not blank, line by line when not. */
  lemma RunInPlace(lines: seq<string>, i: nat, j: nat, minRun: int) returns (before: seq<Item>)
    requires IsRun(lines, i, j)
    ensures Expand(before) == lines[..i]
    ensures CollapseFrom(lines, 0, minRun)
         == before + (Collapsed(lines[i], j - i, minRun) + CollapseFrom(lines, j, minRun))
  {
    before := RunFrom([], lines, 0, i, j, minRun);
    assert [] + CollapseFrom(lines, 0, minRun) == CollapseFrom(lines, 0, minRun);
  }

  /* Reading the output back. */

  lemma {:induction false} DecimalIsInjective(a: nat, b: nat)
    requires Decimal(a) == Decimal(b)
    ensures a == b
  {
    var s, t := Decimal(a), Decimal(b);
    assert s[|s| - 1] == Digit(a % 10) && t[|t| - 1] == Digit(b % 10);
    assert a % 10 == b % 10;
    if a >= 10 && b >= 10 {
      assert s[..|s| - 1] == Decimal(a / 10) && t[..|t| - 1] == Decimal(b / 10);
      DecimalIsInjective(a / 10, b / 10);
    } else {
      assert |s| == 1 && |t| == 1;
    }
  }

  lemma CountLineIsInjective(a: nat, b: nat)
    requires CountLine(a) == CountLine(b)
    ensures a == b
  {
    var n := |COUNT_OPENS|;
    assert CountLine(a)[n..|CountLine(a)| - |COUNT_CLOSES|] == Decimal(a);
    assert CountLine(b)[n..|CountLine(b)| - |COUNT_CLOSES|] == Decimal(b);
    DecimalIsInjective(a, b);
  }

  ghost predicate IsCountLine(line: string) {
    exists n: nat :: line == CountLine(n)
  }

  /** A reader takes a line that has the form of a count for one. */
  ghost function Read(line: string): Item {
    if n: nat :| line == CountLine(n) then Repeated(n) else Line(line)
  }

  ghost function ReadAll(lines: seq<string>): seq<Item> {
    seq(|lines|, k requires 0 <= k < |lines| => Read(lines[k]))
  }

  ghost function Restore(text: string): string {
    JoinLines(Expand(ReadAll(Split(text))))
  }

  lemma {:induction false} JoinSplit(text: string)
    ensures JoinLines(Split(text)) == text
    ensures forall line | line in Split(text) :: '\n' !in line
  {
    if text != "" {
      var rest := Split(text[1..]);
      JoinSplit(text[1..]);
      assert text == [text[0]] + text[1..];
      if text[0] == '\n' {
        assert ([""] + rest)[1..] == rest;
      } else {
        assert ([[text[0]] + rest[0]] + rest[1..])[1..] == rest[1..];
      }
    }
  }

  lemma {:induction false} SplitFirst(line: string, text: string)
    requires '\n' !in line
    ensures Split(line) == [line] && Split(line + "\n" + text) == [line] + Split(text)
  {
    var all := line + "\n" + text;
    if line == "" {
      assert all[1..] == text;
    } else {
      assert all[0] == line[0] && all[1..] == line[1..] + "\n" + text;
      SplitFirst(line[1..], text);
      assert [line[0]] + line[1..] == line;
    }
  }

  lemma {:induction false} SplitJoin(lines: seq<string>)
    requires lines != [] && forall line | line in lines :: '\n' !in line
    ensures Split(JoinLines(lines)) == lines
  {
    SplitFirst(lines[0], JoinLines(lines[1..]));
    if |lines| > 1 {
      SplitJoin(lines[1..]);
      assert lines == [lines[0]] + lines[1..];
    } else {
      assert lines == [lines[0]];
    }
  }

  lemma {:induction false} DecimalHasNoBreak(n: nat)
    ensures '\n' !in Decimal(n)
  {
    if n >= 10 { DecimalHasNoBreak(n / 10); }
  }

  lemma TextHasNoBreak(item: Item)
    requires item.Line? ==> '\n' !in item.text
    ensures '\n' !in TextOf(item)
  {
    if item.Repeated? { DecimalHasNoBreak(item.more); }
  }

  lemma {:induction false} LinesOfCollapsed(lines: seq<string>, i: nat, minRun: int)
    requires i <= |lines|
    ensures forall item | item in CollapseFrom(lines, i, minRun) && item.Line? :: item.text in lines
    ensures i < |lines| ==> CollapseFrom(lines, i, minRun) != []
    decreases |lines| - i
  {
    if i < |lines| {
      LinesOfCollapsed(lines, RunEnd(lines, i, i + 1), minRun);
    }
  }

  /** The lines of the collapsed text are those put out. */
  lemma CollapsedLines(text: string, minRun: int)
    ensures Split(Collapse(text, minRun)) == Texts(CollapseFrom(Split(text), 0, minRun))
  {
    var items := CollapseFrom(Split(text), 0, minRun);
    JoinSplit(text);
    LinesOfCollapsed(Split(text), 0, minRun);
    hide *;
    forall line | line in Texts(items) ensures '\n' !in line {
      var k :| 0 <= k < |items| && line == TextOf(items[k]);
      assert items[k] in items;
      TextHasNoBreak(items[k]);
    }
    SplitJoin(Texts(items));
    CollapsedAsLines(text, minRun);
  }

  lemma ReadCount(more: nat)
    ensures Read(CountLine(more)) == Repeated(more)
  {
    hide CountLine;
    var line := CountLine(more);
    var n: nat :| line == CountLine(n) && Read(line) == Repeated(n);
    CountLineIsInjective(n, more);
  }

  lemma ReadBack(items: seq<Item>)
    requires forall item | item in items && item.Line? :: !IsCountLine(item.text)
    ensures ReadAll(Texts(items)) == items
  {
    forall k | 0 <= k < |items| ensures Read(TextOf(items[k])) == items[k] {
      assert items[k] in items;
      if items[k].Repeated? {
        ReadCount(items[k].more);
      }
    }
  }

  lemma {:induction false} ExpandedAreLines(items: seq<Item>)
    ensures forall line | line in Expand(items) :: Line(line) in items
  {
    if items != [] {
      var init, last := items[..|items| - 1], items[|items| - 1];
      assert items == init + [last];
      ExpandedAreLines(init);
      ExpandOne(init, last);
    }
  }

  /** Nothing that is read back has the form of a count. */
  lemma RestoredHasNoCountLine(texts: seq<string>)
    requires forall line | line in texts :: '\n' !in line
    ensures forall line | line in Split(JoinLines(Expand(ReadAll(texts)))) :: !IsCountLine(line)
  {
    hide Expand, CountLine;
    var restored := Expand(ReadAll(texts));
    ExpandedAreLines(ReadAll(texts));
    forall line | line in restored ensures line in texts && !IsCountLine(line) {
      var k :| 0 <= k < |texts| && Read(texts[k]) == Line(line);
      assert texts[k] in texts;
    }
    if restored == [] {
      EmptyIsNoCount();
    } else {
      SplitJoin(restored);
    }
  }

  lemma EmptyIsNoCount()
    ensures !IsCountLine("")
  {
  }

  /** No line has the form of a count. */
  ghost predicate Plain(lines: seq<string>) {
    forall line | line in lines :: !IsCountLine(line)
  }

  /** A reader who takes every line of that form for a count gets the text back exactly when it has none. */
  lemma RestoredIffNoCountLine(text: string, minRun: int)
    ensures Restore(Collapse(text, minRun)) == text <==> Plain(Split(text))
  {
    var lines := Split(text);
    var items := CollapseFrom(lines, 0, minRun);
    CollapsedLines(text, minRun);
    JoinSplit(text);
    if Plain(lines) {
      LinesOfCollapsed(lines, 0, minRun);
      ReadBack(items);
      CollapsedStandsForAll([], lines, 0, minRun);
      assert [] + items == items;
    } else if Restore(Collapse(text, minRun)) == text {
      JoinSplit(Collapse(text, minRun));
      RestoredHasNoCountLine(Texts(items));
    }
  }

  /* Which texts share an output. */

  /** Texts without count lines have outputs of their own. */
  lemma CollapseIsInjective(a: string, b: string, minRun: int)
    requires Plain(Split(a)) && Plain(Split(b)) && Collapse(a, minRun) == Collapse(b, minRun)
    ensures a == b
  {
    hide Restore, Collapse, Split, IsCountLine;
    RestoredIffNoCountLine(a, minRun);
    RestoredIffNoCountLine(b, minRun);
  }

  lemma RunEndIs(lines: seq<string>, i: nat, j: nat)
    requires i < j <= |lines| && forall k | i <= k < j :: lines[k] == lines[i]
    requires j == |lines| || lines[j] != lines[i]
    ensures RunEnd(lines, i, i + 1) == j
  {
    hide RunEnd;
  }

  lemma FirstText(lines: seq<string>, i: nat, minRun: int)
    requires i < |lines|
    ensures CollapseFrom(lines, i, minRun) != [] && Texts(CollapseFrom(lines, i, minRun))[0] == lines[i]
  {
    hide RunEnd, Blank, CountLine;
    assert Copies(lines[i], RunEnd(lines, i, i + 1) - i)[0] == lines[i];
  }

  /** `out`, from p on, is what is put out for `lines` from i on. */
  ghost predicate PutOut(out: seq<string>, p: nat, lines: seq<string>, i: nat, minRun: int)
    requires p <= |out| && i <= |lines|
  {
    out[p..] == Texts(CollapseFrom(lines, i, minRun))
  }

  lemma Parts<T>(s: seq<T>, p: nat, a: seq<T>, b: seq<T>)
    requires p <= |s| && s[p..] == a + b
    ensures p + |a| <= |s| && s[p..p + |a|] == a && s[p + |a|..] == b
    ensures b == [] ==> p + |a| == |s|
    ensures b != [] ==> p + |a| < |s| && s[p + |a|] == b[0]
  {
    assert s[p..][..|a|] == a && s[p..][|a|..] == b;
  }

  lemma PutOutStep(out: seq<string>, p: nat, lines: seq<string>, i: nat, minRun: int)
    requires p <= |out| && i < |lines| && PutOut(out, p, lines, i, minRun)
    ensures var end := RunEnd(lines, i, i + 1);
            var here := RunTexts(lines, i, end, minRun);
            && p + |here| <= |out| && out[p..p + |here|] == here
            && PutOut(out, p + |here|, lines, end, minRun)
            && (end < |lines| ==> p + |here| < |out| && out[p + |here|] == lines[end])
            && (end == |lines| ==> p + |here| == |out|)
  {
    hide Texts, RunTexts, RunEnd, CollapseFrom;
    var end := RunEnd(lines, i, i + 1);
    var here, rest := RunTexts(lines, i, end, minRun), Texts(CollapseFrom(lines, end, minRun));
    PutRun([], lines, i, end, minRun);
    assert [] + out[p..] == out[p..] && [] + here == here;
    Parts(out, p, here, rest);
    if end < |lines| { FirstText(lines, end, minRun); } else { AllCollapsed(lines, end, minRun); }
  }

  lemma OneStays(lines: seq<string>, p: nat, minRun: int)
    requires minRun >= 2 && p < |lines| && (p + 1 == |lines| || lines[p + 1] != lines[p])
    ensures CollapseFrom(lines, p, minRun) == [Line(lines[p])] + CollapseFrom(lines, p + 1, minRun)
  {
    hide Blank;
    RunEndIs(lines, p, p + 1);
  }

  lemma SomeStay(lines: seq<string>, p: nat, q: nat, minRun: int)
    requires p < q <= |lines| && (forall k | p <= k < q :: lines[k] == lines[p])
    requires q == |lines| || lines[q] != lines[p]
    requires q - p < minRun || Blank(lines[p])
    ensures CollapseFrom(lines, p, minRun) == AsItems(lines[p..q]) + CollapseFrom(lines, q, minRun)
  {
    hide Blank, RunEnd;
    RunEndIs(lines, p, q);
    assert Copies(lines[p], q - p) == lines[p..q];
  }

  lemma AsItemsConcat(a: seq<string>, b: seq<string>)
    ensures AsItems(a + b) == AsItems(a) + AsItems(b)
  {
  }

  /** What is put out for lines without a count line is put out again as it is. */
  lemma {:induction false} CollapseAgain(out: seq<string>, p: nat, lines: seq<string>, i: nat, minRun: int)
    requires minRun >= 2 && Plain(lines)
    requires p <= |out| && i <= |lines| && PutOut(out, p, lines, i, minRun)
    ensures CollapseFrom(out, p, minRun) == AsItems(out[p..])
    decreases |lines| - i
  {
    hide CollapseFrom, AsItems, RunEnd, Blank, PutOut, Texts, CountLine, IsCountLine;
    if i == |lines| {
      NothingPutOut(out, p, lines, minRun);
    } else {
      var end := RunEnd(lines, i, i + 1);
      var q := p + |RunTexts(lines, i, end, minRun)|;
      PutOutStep(out, p, lines, i, minRun);
      CollapseAgain(out, q, lines, end, minRun);
      assert lines[i] in lines && (end < |lines| ==> lines[end] in lines);
      if end - i >= minRun && !Blank(lines[i]) {
        assert out[p] == out[p..q][0] && out[p + 1] == out[p..q][1];
        IsCount(end - i - 1);
        OneStays(out, p, minRun);
        OneStays(out, p + 1, minRun);
        TwoItems(out, p);
      } else {
        assert forall k | p <= k < q :: out[k] == out[p..q][k - p];
        SomeStay(out, p, q, minRun);
        AsItemsConcat(out[p..q], out[q..]);
        assert out[p..] == out[p..q] + out[q..];
      }
    }
  }

  lemma NothingPutOut(out: seq<string>, p: nat, lines: seq<string>, minRun: int)
    requires p <= |out| && PutOut(out, p, lines, |lines|, minRun)
    ensures CollapseFrom(out, p, minRun) == AsItems(out[p..])
  {
  }

  lemma IsCount(more: nat)
    ensures IsCountLine(CountLine(more))
  {
  }

  lemma TwoItems(out: seq<string>, p: nat)
    requires p + 2 <= |out|
    ensures AsItems(out[p..]) == [Line(out[p])] + ([Line(out[p + 1])] + AsItems(out[p + 2..]))
  {
  }

  /** Collapsing a second time changes nothing. */
  lemma CollapseTwice(text: string, minRun: int)
    requires minRun >= 2 && Plain(Split(text))
    ensures Collapse(Collapse(text, minRun), minRun) == Collapse(text, minRun)
  {
    var lines := Split(text);
    var out := Texts(CollapseFrom(lines, 0, minRun));
    CollapsedLines(text, minRun);
    assert out[0..] == out;
    CollapseAgain(out, 0, lines, 0, minRun);
    assert Texts(AsItems(out)) == out;
  }

  lemma {:induction false} LinesAppear(out: seq<string>, p: nat, lines: seq<string>, i: nat, minRun: int)
    requires p <= |out| && i <= |lines| && PutOut(out, p, lines, i, minRun)
    ensures forall line | line in lines[i..] :: line in out
    decreases |lines| - i
  {
    hide PutOut, RunEnd, Blank, CountLine;
    if i < |lines| {
      var end := RunEnd(lines, i, i + 1);
      var here := RunTexts(lines, i, end, minRun);
      PutOutStep(out, p, lines, i, minRun);
      LinesAppear(out, p + |here|, lines, end, minRun);
      assert here[0] == lines[i] && out[p..p + |here|][0] == out[p];
      forall line | line in lines[i..] ensures line in out {
        var k :| i <= k < |lines| && lines[k] == line;
        assert k >= end ==> line == lines[end..][k - end];
      }
    }
  }

  lemma PutOutFromStart(text: string, minRun: int)
    ensures PutOut(Split(Collapse(text, minRun)), 0, Split(text), 0, minRun)
  {
    CollapsedLines(text, minRun);
    var out := Split(Collapse(text, minRun));
    assert out[0..] == out;
  }

  lemma ShownAt(out: seq<string>, p: nat, lines: seq<string>, i: nat, minRun: int, k: nat)
    requires p <= |out| && i < |lines| && PutOut(out, p, lines, i, minRun)
    requires k < |RunTexts(lines, i, RunEnd(lines, i, i + 1), minRun)|
    ensures p + k < |out| && out[p + k] == RunTexts(lines, i, RunEnd(lines, i, i + 1), minRun)[k]
  {
    hide *;
    PutOutStep(out, p, lines, i, minRun);
    var here := RunTexts(lines, i, RunEnd(lines, i, i + 1), minRun);
    assert out[p + k] == out[p..p + |here|][k];
  }

  lemma CountShown(out: seq<string>, p: nat, lines: seq<string>, i: nat, minRun: int)
    requires minRun <= 1 && p <= |out| && i < |lines| && PutOut(out, p, lines, i, minRun) && !Blank(lines[i])
    ensures p + 1 < |out| && out[p + 1] == CountLine(RunEnd(lines, i, i + 1) - i - 1)
  {
    hide RunEnd, Blank, CountLine, PutOut;
    ShownAt(out, p, lines, i, minRun, 1);
  }

  lemma BlankShown(out: seq<string>, p: nat, lines: seq<string>, i: nat, minRun: int, k: nat)
    requires p <= |out| && i < |lines| && PutOut(out, p, lines, i, minRun) && Blank(lines[i])
    requires k < RunEnd(lines, i, i + 1) - i
    ensures p + k < |out| && out[p + k] == lines[i]
  {
    hide RunEnd, Blank, CountLine, PutOut;
    ShownAt(out, p, lines, i, minRun, k);
  }

  lemma BlankRunEnds(out: seq<string>, p: nat, lines: seq<string>, i: nat, minRun: int)
    requires p <= |out| && i < |lines| && PutOut(out, p, lines, i, minRun) && Blank(lines[i])
    ensures var q := p + (RunEnd(lines, i, i + 1) - i); q == |out| || (q < |out| && out[q] != lines[i])
  {
    hide RunEnd, Blank, CountLine, PutOut;
    PutOutStep(out, p, lines, i, minRun);
  }

  lemma BlankRunNotShorter(out: seq<string>, p: nat, a: seq<string>, i: nat, b: seq<string>, j: nat, minRun: int)
    requires p <= |out| && i < |a| && j < |b| && a[i] == b[j] && Blank(a[i])
    requires PutOut(out, p, a, i, minRun) && PutOut(out, p, b, j, minRun)
    ensures RunEnd(a, i, i + 1) - i >= RunEnd(b, j, j + 1) - j
  {
    hide *;
    var m := RunEnd(a, i, i + 1) - i;
    BlankRunEnds(out, p, a, i, minRun);
    if m < RunEnd(b, j, j + 1) - j {
      BlankShown(out, p, b, j, minRun, m);
    }
  }

  lemma FirstShown(out: seq<string>, p: nat, lines: seq<string>, i: nat, minRun: int)
    requires p <= |out| && i < |lines| && PutOut(out, p, lines, i, minRun)
    ensures p < |out| && out[p] == lines[i]
  {
    hide CollapseFrom, Texts;
    FirstText(lines, i, minRun);
    assert out[p..][0] == lines[i];
  }

  /** With every line counted, runs put out alike are equally long. */
  lemma RunsAgree(out: seq<string>, p: nat, a: seq<string>, i: nat, b: seq<string>, j: nat, minRun: int)
    requires minRun <= 1 && p <= |out| && i < |a| && j < |b|
    requires PutOut(out, p, a, i, minRun) && PutOut(out, p, b, j, minRun)
    ensures a[i] == b[j] && RunEnd(a, i, i + 1) - i == RunEnd(b, j, j + 1) - j
  {
    hide *;
    FirstShown(out, p, a, i, minRun);
    FirstShown(out, p, b, j, minRun);
    if Blank(a[i]) {
      BlankRunNotShorter(out, p, a, i, b, j, minRun);
      BlankRunNotShorter(out, p, b, j, a, i, minRun);
    } else {
      CountShown(out, p, a, i, minRun);
      CountShown(out, p, b, j, minRun);
      CountLineIsInjective(RunEnd(a, i, i + 1) - i - 1, RunEnd(b, j, j + 1) - j - 1);
    }
  }

  lemma {:induction false} SameLines(out: seq<string>, p: nat, a: seq<string>, i: nat, b: seq<string>, j: nat,
                                     minRun: int)
    requires minRun <= 1 && p <= |out| && i <= |a| && j <= |b|
    requires PutOut(out, p, a, i, minRun) && PutOut(out, p, b, j, minRun)
    ensures a[i..] == b[j..]
    decreases |a| - i
  {
    hide RunEnd, Blank, CountLine, PutOut, CollapseFrom;
    NothingLeft(out, p, a, i, minRun);
    NothingLeft(out, p, b, j, minRun);
    if i < |a| {
      RunsAgree(out, p, a, i, b, j, minRun);
      PutOutStep(out, p, a, i, minRun);
      PutOutStep(out, p, b, j, minRun);
      var k, l := RunEnd(a, i, i + 1), RunEnd(b, j, j + 1);
      SameLines(out, p + |RunTexts(a, i, k, minRun)|, a, k, b, l, minRun);
      assert a[i..k] == b[j..l] && a[i..] == a[i..k] + a[k..] && b[j..] == b[j..l] + b[l..];
    }
  }

  lemma NothingLeft(out: seq<string>, p: nat, lines: seq<string>, i: nat, minRun: int)
    requires p <= |out| && i <= |lines| && PutOut(out, p, lines, i, minRun)
    ensures p == |out| <==> i == |lines|
  {
    if i < |lines| { FirstShown(out, p, lines, i, minRun); }
  }

  /** When every line gets a count, each text has an output of its own, count lines or not. */
  lemma CollapseIsInjectiveWhenAllCount(a: string, b: string, minRun: int)
    requires minRun <= 1 && Collapse(a, minRun) == Collapse(b, minRun)
    ensures a == b
  {
    hide *;
    var out := Split(Collapse(a, minRun));
    PutOutFromStart(a, minRun);
    PutOutFromStart(b, minRun);
    SameLines(out, 0, Split(a), 0, Split(b), 0, minRun);
    assert Split(a)[0..] == Split(a) && Split(b)[0..] == Split(b);
    JoinSplit(a);
    JoinSplit(b);
  }

  ghost predicate Shared(text: string, minRun: int) {
    exists other :: other != text && Collapse(other, minRun) == Collapse(text, minRun)
  }

  lemma OnlySourceOfItself(text: string, other: string, minRun: int)
    requires Plain(Split(text)) && Collapse(text, minRun) == text && Collapse(other, minRun) == text
    ensures other == text
  {
    hide Collapse, PutOut, Split;
    PutOutFromStart(other, minRun);
    LinesAppear(Split(text), 0, Split(other), 0, minRun);
    assert Split(other)[0..] == Split(other);
    CollapseIsInjective(other, text, minRun);
  }

  /** Another text has the output of a text without count lines exactly when that output differs from the
      text, and not every line is counted. */
  lemma SharedIffCollapsed(text: string, minRun: int)
    requires Plain(Split(text))
    ensures Shared(text, minRun) <==> minRun >= 2 && Collapse(text, minRun) != text
  {
    hide Collapse, Plain, Split;
    if minRun <= 1 {
      forall other | Collapse(other, minRun) == Collapse(text, minRun) ensures other == text {
        CollapseIsInjectiveWhenAllCount(other, text, minRun);
      }
    } else if Collapse(text, minRun) != text {
      CollapseTwice(text, minRun);
    } else {
      forall other | Collapse(other, minRun) == text ensures other == text {
        OnlySourceOfItself(text, other, minRun);
      }
    }
  }

  const TWO_MORE := "... [previous line repeated 2 more times]"

  lemma ThreeLinesCollapse()
    ensures Texts(CollapseFrom(["x", "x", "x"], 0, 3)) == ["x", TWO_MORE]
  {
    var lines := ["x", "x", "x"];
    assert RunEnd(lines, 0, 3) == 3 && RunEnd(lines, 0, 2) == 3 && RunEnd(lines, 0, 1) == 3;
    assert 'x' in lines[0] && !Blank(lines[0]);
    assert Decimal(2) == "2" && CountLine(2) == TWO_MORE;
    assert Collapsed(lines[0], 3, 3) == [Line("x"), Repeated(2)];
    assert CollapseFrom(lines, 0, 3) == [Line("x"), Repeated(2)] + [];
  }

  lemma TwoLinesStay(count: string)
    requires count != "x"
    ensures Texts(CollapseFrom(["x", count], 0, 3)) == ["x", count]
  {
    var lines := ["x", count];
    assert RunEnd(lines, 0, 1) == 1 && RunEnd(lines, 1, 2) == 2;
    assert CollapseFrom(lines, 1, 3) == [Line(count)] + [];
    assert CollapseFrom(lines, 0, 3) == [Line("x")] + [Line(count)];
  }

  lemma ThreeSplit()
    ensures Split("x\nx\nx") == ["x", "x", "x"]
  {
    hide Split;
    SplitFirst("x", "x\nx");
    SplitFirst("x", "x");
    assert "x\nx\nx" == "x" + "\n" + "x\nx" && "x\nx" == "x" + "\n" + "x";
    assert ["x"] + (["x"] + ["x"]) == ["x", "x", "x"];
  }

  lemma TwoSplit(count: string)
    requires '\n' !in count
    ensures Split("x\n" + count) == ["x", count]
  {
    hide Split;
    SplitFirst("x", count);
    SplitFirst(count, "");
    assert "x\n" == "x" + "\n" && ["x"] + [count] == ["x", count];
  }

  lemma TwoMore()
    ensures TWO_MORE != "x" && '\n' !in TWO_MORE
  {
  }

  lemma TwoCollapse(count: string)
    requires '\n' !in count && count != "x"
    ensures Collapse("x\n" + count, 3) == JoinLines(["x", count])
  {
    hide *;
    TwoLinesStay(count);
    TwoSplit(count);
    CollapsedAsLines("x\n" + count, 3);
  }

  lemma ThreeCollapse()
    ensures Collapse("x\nx\nx", 3) == JoinLines(["x", TWO_MORE])
  {
    hide *;
    ThreeLinesCollapse();
    ThreeSplit();
    CollapsedAsLines("x\nx\nx", 3);
  }

  /** Two texts with the same output: the second line of one is the count that the other gets. */
  lemma CountLineCollides()
    ensures Collapse("x\nx\nx", 3) == Collapse("x\n" + TWO_MORE, 3)
  {
    hide *;
    TwoMore();
    ThreeCollapse();
    TwoCollapse(TWO_MORE);
  }
}
