/** `truncate_head_tail`, `truncate_lines` and the backspaces of
    private_gpt/components/code_execution/output_cleaning.py. */
module OutputTruncation {
  import opened Sequences
  import opened Utf8
  import opened Wrappers

  /** Python's str.find of one character, with None for -1. */
  function Find(s: string, c: char): (r: Option<nat>)
    ensures r.None? ==> c !in s
    ensures r.Some? ==> r.value < |s| && s[r.value] == c && c !in s[..r.value]
  {
    if s == "" then None
    else if s[0] == c then Some(0)
    else
      var rest := Find(s[1..], c);
      if rest.None? then assert s == [s[0]] + s[1..]; None
      else assert s[..rest.value + 1] == [s[0]] + s[1..][..rest.value]; Some(rest.value + 1)
  }

  /** Python's str.rfind of one character, with None for -1. */
  function RFind(s: string, c: char): (r: Option<nat>)
    ensures r.None? ==> c !in s
    ensures r.Some? ==> r.value < |s| && s[r.value] == c && c !in s[r.value + 1..]
  {
    if s == "" then None
    else if s[|s| - 1] == c then Some(|s| - 1)
    else
      var rest := RFind(s[..|s| - 1], c);
      if rest.None? then assert s == s[..|s| - 1] + [s[|s| - 1]]; None
      else assert s[rest.value + 1..] == s[..|s| - 1][rest.value + 1..] + [s[|s| - 1]]; rest
  }

  datatype Truncated = Whole(text: string) | Cut(head: string, omitted: string, tail: string)

  /** Length of the head after cutting before the last newline when that lies in the second half. */
  function SnapHead(longest: string): (h: nat)
    ensures h <= |longest|
    ensures if h == |longest| then forall i | |longest| / 2 < i < |longest| :: longest[i] != '\n'
            else |longest| / 2 < h && longest[h] == '\n' && '\n' !in longest[h + 1..]
  {
    var cut := RFind(longest, '\n');
    if cut.Some? && cut.value > |longest| / 2 then cut.value
    else
      assert forall i | 0 <= i < |longest| && longest[i] == '\n' ::
          cut.Some? && (i > cut.value ==> longest[cut.value + 1..][i - cut.value - 1] == '\n');
      |longest|
  }

  /** Start of the tail after cutting after the first newline when that lies in the first half. */
  function SnapTail(longest: string): (k: nat)
    ensures k <= |longest|
    ensures if k == 0 then forall i | 0 <= i < |longest| / 2 :: longest[i] != '\n'
            else k - 1 < |longest| / 2 && longest[k - 1] == '\n' && '\n' !in longest[..k - 1]
  {
    var cut := Find(longest, '\n');
    if cut.Some? && cut.value < |longest| / 2 then cut.value + 1
    else
      assert forall i | 0 <= i < |longest| && longest[i] == '\n' ::
          cut.Some? && (i < cut.value ==> longest[..cut.value][i] == '\n');
      0
  }

  /** End of the head: the longest prefix of the text that fits in the budget, snapped to a line. */
  function HeadEnd(text: string, budget: nat): (h: nat)
    ensures h <= |text|
  {
    SnapHead(text[..PrefixLen(text, budget)])
  }

  /** Start of the tail: the longest suffix of the text that fits in the budget, snapped to a line. */
  function TailStart(text: string, budget: nat): (t: nat)
    requires budget <= Size(text)
    ensures t <= |text|
  {
    var first := |text| - SuffixLen(text, Size(text) - budget);
    first + SnapTail(text[first..])
  }

  lemma SplitEncoded(text: string, i: nat)
    requires i <= |text|
    ensures Size(text) == Size(text[..i]) + Size(text[i..])
  {
    hide *;
    assert text == text[..i] + text[i..];
    SizeConcat(text[..i], text[i..]);
  }

  lemma LongerPrefix(text: string, i: nat, j: nat)
    requires i <= j <= |text|
    ensures Size(text[..i]) <= Size(text[..j])
  {
    hide *;
    SplitEncoded(text[..j], i);
    assert text[..j][..i] == text[..i];
  }

  lemma HeadFits(text: string, budget: nat)
    ensures Size(text[..HeadEnd(text, budget)]) <= budget
  {
    hide Size, PrefixLen;
    PrefixFits(text, budget);
    LongerPrefix(text, HeadEnd(text, budget), PrefixLen(text, budget));
  }

  lemma TailFits(text: string, budget: nat)
    requires budget <= Size(text)
    ensures Size(text[TailStart(text, budget)..]) <= budget
  {
    hide Size, SuffixLen;
    var first := |text| - SuffixLen(text, Size(text) - budget);
    var t := TailStart(text, budget);
    SuffixFits(text, Size(text) - budget);
    SplitEncoded(text, first);
    SplitEncoded(text, t);
    LongerPrefix(text, first, t);
  }

  /** A prefix and a suffix whose bytes together are fewer than the text's do not meet. */
  lemma BudgetsKeepApart(text: string, h: nat, t: nat)
    requires h <= |text| && t <= |text| && Size(text[..h]) + Size(text[t..]) < Size(text)
    ensures h < t
  {
    hide *;
    SplitEncoded(text, t);
    if t <= h { LongerPrefix(text, t, h); }
  }

  /** `int(max_bytes * head_ratio)` */
  function HeadShare(maxBytes: nat, ratio: real): (share: nat)
    requires 0.0 <= ratio <= 1.0
    ensures share <= maxBytes && share as real <= maxBytes as real * ratio < share as real + 1.0
  {
    assert 0.0 <= maxBytes as real * ratio <= maxBytes as real;
    (maxBytes as real * ratio).Floor
  }

  /** A budget of zero leaves no tail, so no slice from the end is needed. */
  lemma ZeroTail(text: string)
    ensures text[|text| - SuffixLen(text, Size(text))..] == ""
  {
    SuffixFits(text, Size(text));
  }

  /** The two decoded slices, before snapping. */
  lemma DecodedSlices(text: string, headBytes: nat, tailBytes: nat)
    requires headBytes <= Size(text) && tailBytes <= Size(text)
    ensures DecodeIgnore(Encode(text)[..headBytes]) == text[..PrefixLen(text, headBytes)]
    ensures (if tailBytes != 0 then DecodeIgnore(Encode(text)[Size(text) - tailBytes..]) else "") ==
            text[|text| - SuffixLen(text, Size(text) - tailBytes)..]
  {
    hide *;
    DecodePrefix(text, headBytes);
    DecodeSuffix(text, Size(text) - tailBytes);
    ZeroTail(text);
  }

  /** Where the text is cut: the two ends are apart and together fit in the budget. */
  lemma CutsAreSound(text: string, headBytes: nat, tailBytes: nat)
    requires headBytes + tailBytes < Size(text)
    ensures var h, t := HeadEnd(text, headBytes), TailStart(text, tailBytes);
            h < t && Size(text[..h]) <= headBytes && Size(text[t..]) <= tailBytes
  {
    HeadFits(text, headBytes);
    TailFits(text, tailBytes);
    BudgetsKeepApart(text, HeadEnd(text, headBytes), TailStart(text, tailBytes));
  }

  /** Python's s[a:b] for indices within the string. */
  function Slice(s: string, a: nat, b: nat): string
  {
    if a <= b <= |s| then s[a..b] else ""
  }

  function CutAt(text: string, h: nat, t: nat): Truncated
    requires h <= |text| && t <= |text|
  {
    Cut(text[..h], Slice(text, h, t), text[t..])
  }

  /** The text unchanged, or cut at the end of its head and the start of its tail. */
  function Truncate(text: string, maxBytes: nat, headBytes: nat): Truncated
    requires headBytes <= maxBytes
  {
    if Size(text) <= maxBytes then Whole(text)
    else CutAt(text, HeadEnd(text, headBytes), TailStart(text, maxBytes - headBytes))
  }

  lemma CutPieces(text: string, h: nat, t: nat)
    requires h < t <= |text|
    ensures var r := CutAt(text, h, t); text == r.head + r.omitted + r.tail && r.omitted != ""
  {
  }

  /** Both ends together fit in the budget, each in its share. */
  lemma TruncatedEndsFit(text: string, maxBytes: nat, headBytes: nat)
    requires headBytes <= maxBytes
    ensures var r := Truncate(text, maxBytes, headBytes);
            r.Cut? ==> Size(r.head) <= headBytes && Size(r.tail) <= maxBytes - headBytes
  {
    hide Size, HeadEnd, TailStart, Slice;
    if Size(text) > maxBytes {
      CutsAreSound(text, headBytes, maxBytes - headBytes);
    }
  }

  /** Nothing is lost or kept twice, and something is omitted. */
  lemma TruncatedPiecesRejoin(text: string, maxBytes: nat, headBytes: nat)
    requires headBytes <= maxBytes
    ensures var r := Truncate(text, maxBytes, headBytes);
            r.Cut? ==> r.head + r.omitted + r.tail == text && r.omitted != ""
  {
    hide Size, HeadEnd, TailStart, CutAt;
    if Size(text) > maxBytes {
      CutsAreSound(text, headBytes, maxBytes - headBytes);
      CutPieces(text, HeadEnd(text, headBytes), TailStart(text, maxBytes - headBytes));
    }
  }

  lemma TruncateCases(text: string, maxBytes: nat, headBytes: nat)
    requires headBytes <= maxBytes
    ensures Truncate(text, maxBytes, headBytes) ==
            if Size(text) <= maxBytes then Whole(text)
            else CutAt(text, HeadEnd(text, headBytes), TailStart(text, maxBytes - headBytes))
  {
  }

  /** `headRatio` is the share of the budget given to the head. */
  method TruncateHeadTail(text: string, maxBytes: nat, headRatio: real) returns (r: Truncated)
    requires 0.0 <= headRatio <= 1.0
    ensures r == Truncate(text, maxBytes, HeadShare(maxBytes, headRatio))
  {
    hide *;
    TruncateCases(text, maxBytes, HeadShare(maxBytes, headRatio));
    var encoded := Encode(text);
    if |encoded| <= maxBytes { return Whole(text); }
    var headBytes := HeadShare(maxBytes, headRatio);
    var tailBytes := maxBytes - headBytes;
    var head := DecodeIgnore(encoded[..headBytes]);
    var tail := if tailBytes != 0 then DecodeIgnore(encoded[|encoded| - tailBytes..]) else "";
    DecodedSlices(text, headBytes, tailBytes);
    SnappedAreTheCut(text, headBytes, tailBytes, head, tail);
    head := head[..SnapHead(head)];
    tail := tail[SnapTail(tail)..];
    var omitted := Slice(text, |head|, |text| - |tail|);
    r := Cut(head, omitted, tail);
  }

  lemma SnappedAreTheCut(text: string, headBytes: nat, tailBytes: nat, rawHead: string, rawTail: string)
    requires headBytes + tailBytes < Size(text)
    requires rawHead == text[..PrefixLen(text, headBytes)]
    requires rawTail == text[|text| - SuffixLen(text, Size(text) - tailBytes)..]
    ensures var head, tail := rawHead[..SnapHead(rawHead)], rawTail[SnapTail(rawTail)..];
            && |head| <= |text| && |tail| <= |text|
            && Cut(head, Slice(text, |head|, |text| - |tail|), tail)
               == CutAt(text, HeadEnd(text, headBytes), TailStart(text, tailBytes))
  {
    hide HeadEnd, TailStart, SnapHead, SnapTail, Slice, Size, PrefixLen, SuffixLen;
    SnappedSlices(text, headBytes, tailBytes, rawHead, rawTail);
  }

  lemma SnappedSlices(text: string, headBytes: nat, tailBytes: nat, rawHead: string, rawTail: string)
    requires tailBytes <= Size(text)
    requires rawHead == text[..PrefixLen(text, headBytes)]
    requires rawTail == text[|text| - SuffixLen(text, Size(text) - tailBytes)..]
    ensures var h, t := HeadEnd(text, headBytes), TailStart(text, tailBytes);
            && rawHead[..SnapHead(rawHead)] == text[..h] && |rawHead[..SnapHead(rawHead)]| == h
            && rawTail[SnapTail(rawTail)..] == text[t..] && |text| - |rawTail[SnapTail(rawTail)..]| == t
  {
    hide Size, PrefixLen, SuffixLen, SnapHead, SnapTail;
    TakeTake(text, PrefixLen(text, headBytes), SnapHead(rawHead));
    DropDrop(text, |text| - SuffixLen(text, Size(text) - tailBytes), SnapTail(rawTail));
  }

  lemma TakeTake(s: string, n: nat, m: nat)
    requires m <= n <= |s|
    ensures s[..n][..m] == s[..m]
  {
  }

  lemma DropDrop(s: string, n: nat, m: nat)
    requires n <= |s| && m <= |s| - n
    ensures s[n..][m..] == s[n + m..]
  {
  }

  /* truncate_lines */

  predicate IsBreak(c: char) {
    c in {'\n', '\r', '\U{0B}', '\U{0C}', '\U{1C}', '\U{1D}', '\U{1E}', '\U{85}', '\U{2028}', '\U{2029}'}
  }

  /** Python's str.splitlines: a break ends a line, "\r\n" is one break, and a text that ends
      with a break has no empty line after it. */
  function SplitLines(text: string, line: string := ""): (lines: seq<string>)
    ensures text != "" || line != "" ==> lines != []
    decreases |text|
  {
    if text == "" then (if line == "" then [] else [line])
    else if !IsBreak(text[0]) then SplitLines(text[1..], line + [text[0]])
    else if |text| >= 2 && text[..2] == "\r\n" then [line] + SplitLines(text[2..])
    else [line] + SplitLines(text[1..])
  }

  predicate Unbroken(s: string) {
    forall c | c in s :: !IsBreak(c)
  }

  /** The text is the lines in order: no break is inside a line, and one is after each unless the text ends
      there, with a line that is not empty; a carriage return and a newline are one break. */
  predicate LinesOf(text: string, lines: seq<string>)
    decreases |lines|
  {
    if lines == [] then text == ""
    else
      var n := |lines[0]|;
      && lines[0] <= text && Unbroken(lines[0])
      && if n == |text| then n > 0 && |lines| == 1
         else IsBreak(text[n]) && LinesOf(text[n + (if "\r\n" <= text[n..] then 2 else 1)..], lines[1..])
  }

  lemma {:induction false} SplitLinesAre(text: string, line: string)
    requires Unbroken(line)
    ensures LinesOf(line + text, SplitLines(text, line))
    decreases |text|
  {
    if text == "" {
      assert line + text == line;
    } else if !IsBreak(text[0]) {
      SplitLinesAre(text[1..], line + [text[0]]);
      assert line + text == line + [text[0]] + text[1..];
    } else {
      var n := if |text| >= 2 && text[..2] == "\r\n" then 2 else 1;
      SplitLinesAre(text[n..], "");
      var all := line + text;
      assert all[|line|..] == text && all[|line| + n..] == text[n..] && "" + text[n..] == text[n..];
    }
  }

  lemma {:induction false} SplitGoesOn(run: string, rest: string, line: string)
    requires Unbroken(run)
    ensures SplitLines(run + rest, line) == SplitLines(rest, line + run)
    decreases |run|
  {
    if run == "" {
      assert run + rest == rest && line + run == line;
    } else {
      assert (run + rest)[1..] == run[1..] + rest && line + [run[0]] + run[1..] == line + run;
      SplitGoesOn(run[1..], rest, line + [run[0]]);
    }
  }

  /** Lines joined by newlines are split again, unless the last one is empty. */
  lemma {:induction false} JoinedLinesSplit(lines: seq<string>)
    requires lines != [] && lines[|lines| - 1] != "" && forall line | line in lines :: Unbroken(line)
    ensures SplitLines(JoinLines(lines)) == lines
    decreases |lines|
  {
    assert "" + lines[0] == lines[0];
    if |lines| == 1 {
      SplitGoesOn(lines[0], "", "");
      assert lines[0] + "" == lines[0];
    } else {
      var rest := JoinLines(lines[1..]);
      JoinedLinesSplit(lines[1..]);
      SplitGoesOn(lines[0], "\n" + rest, "");
      assert lines[0] + "\n" + rest == lines[0] + ("\n" + rest) && ("\n" + rest)[1..] == rest;
      assert lines == [lines[0]] + lines[1..];
    }
  }

  /** Bytes of the lines when each is followed by one newline. */
  function Budget(lines: seq<string>): nat {
    if lines == [] then 0 else Budget(lines[..|lines| - 1]) + Size(lines[|lines| - 1]) + 1
  }

  lemma {:induction false} BudgetCons(lines: seq<string>)
    requires lines != []
    ensures Budget(lines) == Size(lines[0]) + 1 + Budget(lines[1..])
  {
    if |lines| > 1 {
      BudgetCons(lines[..|lines| - 1]);
      assert lines[..|lines| - 1][1..] == lines[1..][..|lines| - 2];
    }
  }

  lemma {:induction false} JoinFitsBudget(lines: seq<string>)
    requires lines != []
    ensures Size(JoinLines(lines)) == Budget(lines) - 1
  {
    BudgetCons(lines);
    if |lines| > 1 {
      JoinFitsBudget(lines[1..]);
      SizeConcat(lines[0] + "\n", JoinLines(lines[1..]));
      SizeConcat(lines[0], "\n");
      assert Size("\n") == 1;
    }
  }

  /** Keeps as many whole leading lines as fit, at least one; that one is cut on a character
      boundary when it does not fit. */
  method TruncateLines(text: string, maxBytes: nat) returns (kept: string, count: nat)
    ensures Size(kept) <= maxBytes
    ensures Size(text) <= maxBytes ==> kept == text && count == |SplitLines(text)|
    ensures Size(text) > maxBytes ==>
              var lines := SplitLines(text);
              && 1 <= count <= |lines|
              && (if Budget(lines[..1]) <= maxBytes
                  then kept == JoinLines(lines[..count]) && Budget(lines[..count]) <= maxBytes
                       && (count < |lines| ==> Budget(lines[..count + 1]) > maxBytes)
                  else count == 1 && kept == lines[0][..PrefixLen(lines[0], maxBytes)])
  {
    if Size(text) <= maxBytes {
      return text, |SplitLines(text)|;
    }
    var lines := SplitLines(text);
    var used, n := 0, 0;
    while n < |lines|
      invariant n <= |lines| && used == Budget(lines[..n]) <= maxBytes
      invariant n > 0 ==> Budget(lines[..1]) <= maxBytes
    {
      assert lines[..n + 1][..n] == lines[..n];
      var size := Size(lines[n]) + 1;
      if used + size > maxBytes { break; }
      used := used + size;
      n := n + 1;
    }
    if n == 0 {
      PrefixFits(lines[0], maxBytes);
      DecodePrefix(lines[0], maxBytes);
      assert lines[..1][..0] == [];
      return DecodeIgnore(Encode(lines[0])[..maxBytes]), 1;
    }
    JoinFitsBudget(lines[..n]);
    return JoinLines(lines[..n]), n;
  }

  /* TerminalRenderInterceptor._apply_backspaces */

  /** One character of output on what is already shown: a backspace takes the last character back,
      but not a newline. */
  function Render(shown: string, c: char): string {
    if c != '\U{08}' then shown + [c]
    else if shown != "" && shown[|shown| - 1] != '\n' then shown[..|shown| - 1]
    else shown
  }

  function RenderAll(shown: string, text: string): string
    decreases |text|
  {
    if text == "" then shown else RenderAll(Render(shown, text[0]), text[1..])
  }

  method ApplyBackspaces(text: string) returns (out: string)
    ensures out == RenderAll("", text)
  {
    out := "";
    for n := 0 to |text|
      invariant RenderAll(out, text[n..]) == RenderAll("", text)
    {
      assert text[n..][1..] == text[n + 1..];
      if text[n] != '\U{08}' {
        out := out + [text[n]];
      } else if out != "" && out[|out| - 1] != '\n' {
        out := out[..|out| - 1];
      }
    }
  }

  lemma {:induction false} RenderAllConcat(shown: string, a: string, b: string)
    ensures RenderAll(shown, a + b) == RenderAll(RenderAll(shown, a), b)
    decreases |a|
  {
    if a == "" {
      assert a + b == b;
    } else {
      assert (a + b)[1..] == a[1..] + b;
      RenderAllConcat(Render(shown, a[0]), a[1..], b);
    }
  }

  /** What is before a finished line cannot be reached. */
  lemma {:induction false} RenderBelowLine(above: string, shown: string, text: string)
    requires above != "" && above[|above| - 1] == '\n'
    ensures RenderAll(above + shown, text) == above + RenderAll(shown, text)
    decreases |text|
  {
    if text != "" {
      assert shown == "" ==> (above + shown)[|above + shown| - 1] == '\n';
      assert shown != "" ==> (above + shown)[..|above + shown| - 1] == above + shown[..|shown| - 1];
      assert above + shown + [text[0]] == above + (shown + [text[0]]);
      assert Render(above + shown, text[0]) == above + Render(shown, text[0]);
      RenderBelowLine(above, Render(shown, text[0]), text[1..]);
    }
  }

  /** Lines are rendered one by one: a backspace never reaches into the line above. */
  lemma LinesRenderApart(a: string, b: string)
    ensures RenderAll("", a + "\n" + b) == RenderAll("", a) + "\n" + RenderAll("", b)
  {
    var above := RenderAll("", a) + "\n";
    RenderAllConcat("", a + "\n", b);
    RenderAllConcat("", a, "\n");
    assert RenderAll(RenderAll("", a), "\n") == RenderAll(above, "");
    RenderBelowLine(above, "", b);
    assert above + "" == above;
  }

  /** Overstriking leaves the last character: what is typed and taken back leaves no trace. */
  lemma {:induction false} TakenBackLeavesNoTrace(shown: string, typed: string)
    requires '\n' !in typed && '\U{08}' !in typed
    ensures RenderAll(shown, typed + seq(|typed|, _ => '\U{08}')) == shown
    decreases |typed|
  {
    var n := |typed|;
    if n > 0 {
      var rest := typed[..n - 1];
      var backs := seq(n - 1, _ => '\U{08}');
      TypedStays(shown, typed);
      TypedStays(shown, rest);
      RenderAllConcat(shown, typed, seq(n, _ => '\U{08}'));
      assert seq(n, _ => '\U{08}')[1..] == backs;
      assert (shown + typed)[..|shown + typed| - 1] == shown + rest;
      RenderAllConcat(shown, rest, backs);
      TakenBackLeavesNoTrace(shown, rest);
    }
  }

  lemma {:induction false} TypedStays(shown: string, typed: string)
    requires '\U{08}' !in typed
    ensures RenderAll(shown, typed) == shown + typed
    decreases |typed|
  {
    if typed != "" {
      TypedStays(shown + [typed[0]], typed[1..]);
      assert shown + [typed[0]] + typed[1..] == shown + typed;
    }
  }
}
