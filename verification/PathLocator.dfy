/** `_path_candidates` and `_locate_paths` of
    private_gpt/components/code_execution/sandbox_session.py. */
module PathLocator {
  import opened Sequences
  import opened Wrappers

  /** What the code asks of a character or a word: `\w`, `\s`, whether the word has another Unicode
      form, and whether it looks like a path. The empty word has one form. */
  datatype Lexicon = Lexicon(
    wordChar: char -> bool, space: char -> bool, accented: string -> bool, pathLike: string -> bool)

  ghost predicate Proper(lex: Lexicon) {
    !lex.accented("") && !lex.wordChar('=')
  }

  datatype Candidate = Candidate(start: nat, end: nat, word: string)

  /* _SHELL_WORD: a quoted string on one line, or a run of characters that separate nothing. */

  predicate Plain(lex: Lexicon, c: char) {
    !lex.space(c) && c !in {'\'', '"', '`', ';', '|', '&', '<', '>', '(', ')'}
  }

  /** Where the quote opened before p closes on the same line. */
  function Closing(s: string, quote: char, p: nat): (r: Option<nat>)
    ensures r.Some? ==> p <= r.value < |s| && s[r.value] == quote
    decreases |s| - p
  {
    if p >= |s| || s[p] == '\n' then None
    else if s[p] == quote then Some(p)
    else Closing(s, quote, p + 1)
  }

  function PlainEnd(lex: Lexicon, s: string, p: nat): (e: nat)
    requires p <= |s|
    ensures p <= e <= |s|
    decreases |s| - p
  {
    if p < |s| && Plain(lex, s[p]) then PlainEnd(lex, s, p + 1) else p
  }

  datatype Match = Match(quoted: bool, start: nat, end: nat)

  /** Where finditer goes on: after the closing quote, or after the run. */
  function Resume(m: Match): nat {
    if m.quoted then m.end + 1 else m.end
  }

  predicate Within(m: Match, p: nat, size: nat) {
    p <= m.start <= m.end <= size && p < Resume(m) <= size && (m.quoted ==> p < m.start)
  }

  function MatchAt(lex: Lexicon, s: string, p: nat): (m: Option<Match>)
    requires p < |s|
    ensures m.Some? ==> Within(m.value, p, |s|)
  {
    var close := if s[p] == '"' || s[p] == '\'' then Closing(s, s[p], p + 1) else None;
    if close.Some? then Some(Match(true, p + 1, close.value))
    else if Plain(lex, s[p]) then Some(Match(false, p, PlainEnd(lex, s, p + 1)))
    else None
  }

  /** The first match at or after p, as finditer finds it. */
  function NextMatch(lex: Lexicon, s: string, p: nat): (m: Option<Match>)
    ensures m.Some? ==> Within(m.value, p, |s|)
    decreases |s| - p
  {
    if p >= |s| then None
    else if MatchAt(lex, s, p).Some? then MatchAt(lex, s, p)
    else NextMatch(lex, s, p + 1)
  }

  /* _ASSIGNMENT_PREFIX */

  function WordRun(lex: Lexicon, s: string, p: nat): (e: nat)
    requires p <= |s|
    ensures p <= e <= |s|
    decreases |s| - p
  {
    if p < |s| && (lex.wordChar(s[p]) || s[p] == '-') then WordRun(lex, s, p + 1) else p
  }

  /** Length of a leading `NAME=` or `--flag=`, 0 when there is none. */
  function PrefixLength(lex: Lexicon, word: string): (n: nat)
    ensures n <= |word| && (n > 0 ==> word[n - 1] == '=')
  {
    var dashes := if |word| >= 2 && word[..2] == "--" then 2 else if |word| >= 1 && word[0] == '-' then 1 else 0;
    if dashes < |word| && ('a' <= word[dashes] <= 'z' || 'A' <= word[dashes] <= 'Z' || word[dashes] == '_') then
      var e := WordRun(lex, word, dashes + 1);
      if e < |word| && word[e] == '=' then e + 1 else 0
    else 0
  }

  /** The part of a match that may be a path. */
  function WordStart(lex: Lexicon, s: string, m: Match): (start: nat)
    requires m.start <= m.end <= |s|
    ensures m.start <= start <= m.end
  {
    if m.quoted then m.start else m.start + PrefixLength(lex, s[m.start..m.end])
  }

  /** The matched word itself, when it may be misspelt and looks like a path. */
  function Own(lex: Lexicon, offset: nat, start: nat, end: nat, word: string): seq<Candidate> {
    if lex.accented(word) && lex.pathLike(word) then [Candidate(offset + start, offset + end, word)] else []
  }

  /** The candidates of one match: the word itself, then those inside a quoted string. */
  function OfMatch(lex: Lexicon, s: string, offset: nat, p: nat, m: Match): seq<Candidate>
    requires Within(m, p, |s|)
    decreases |s|, 0
  {
    var start := WordStart(lex, s, m);
    var word := s[start..m.end];
    Own(lex, offset, start, m.end, word)
    + (if lex.accented(word) && m.quoted then Candidates(lex, word, offset + start, 0) else [])
  }

  /** The candidates of the matches at or after p. */
  function Candidates(lex: Lexicon, s: string, offset: nat, p: nat): seq<Candidate>
    decreases |s|, 1, |s| - p
  {
    var m := NextMatch(lex, s, p);
    if m.None? then [] else OfMatch(lex, s, offset, p, m.value) + Candidates(lex, s, offset, Resume(m.value))
  }

  /** Working through one match moves its candidates from what is left to what is done. */
  lemma MatchDone(lex: Lexicon, s: string, offset: nat, p: nat, done: seq<Candidate>, m: Match,
                  own: seq<Candidate>, inner: seq<Candidate>)
    requires NextMatch(lex, s, p) == Some(m) && OfMatch(lex, s, offset, p, m) == own + inner
    ensures done + Candidates(lex, s, offset, p) == (done + own + inner) + Candidates(lex, s, offset, Resume(m))
  {
    var rest := Candidates(lex, s, offset, Resume(m));
    Assoc(done, own, inner);
    Assoc(done, own + inner, rest);
  }

  method PathCandidates(lex: Lexicon, command: string, offset: nat) returns (candidates: seq<Candidate>)
    ensures candidates == Candidates(lex, command, offset, 0)
    decreases |command|
  {
    hide NextMatch, MatchAt, PrefixLength, PlainEnd, Own;
    candidates := [];
    var p := 0;
    var m := NextMatch(lex, command, p);
    while m.Some?
      invariant m == NextMatch(lex, command, p)
      invariant candidates + Candidates(lex, command, offset, p) == Candidates(lex, command, offset, 0)
      decreases |command| - p, if m.Some? then 1 else 0
    {
      ghost var done := candidates;
      var start := WordStart(lex, command, m.value);
      var word := command[start..m.value.end];
      var own, inner := Own(lex, offset, start, m.value.end, word), [];
      if lex.accented(word) && m.value.quoted {
        inner := PathCandidates(lex, word, offset + start);
      }
      candidates := candidates + own + inner;
      MatchDone(lex, command, offset, p, done, m.value, own, inner);
      p := Resume(m.value);
      m := NextMatch(lex, command, p);
    }
  }

  /* Where candidates lie. */

  /** b is inside a, or after it. */
  predicate InsideOrAfter(a: Candidate, b: Candidate) {
    (a.start <= b.start && b.end <= a.end) || a.end <= b.start
  }

  /** c is the text at its place, which is between from and to. */
  predicate LiesIn(s: string, offset: nat, from: nat, to: nat, c: Candidate)
  {
    offset + from <= c.start < c.end <= offset + to <= offset + |s| && s[c.start - offset..c.end - offset] == c.word
  }

  ghost predicate OuterFirst(cs: seq<Candidate>) {
    forall i, j | 0 <= i < j < |cs| :: InsideOrAfter(cs[i], cs[j])
  }

  ghost predicate Placed(s: string, offset: nat, from: nat, to: nat, cs: seq<Candidate>)
  {
    (forall c | c in cs :: LiesIn(s, offset, from, to, c)) && OuterFirst(cs)
  }

  lemma PlacedConcat(s: string, offset: nat, from: nat, mid: nat, to: nat, a: seq<Candidate>, b: seq<Candidate>)
    requires from <= mid <= to <= |s| && Placed(s, offset, from, mid, a) && Placed(s, offset, mid, to, b)
    ensures Placed(s, offset, from, to, a + b)
  {
    forall c | c in a + b ensures LiesIn(s, offset, from, to, c) {
      if c in a { assert LiesIn(s, offset, from, mid, c); } else { assert LiesIn(s, offset, mid, to, c); }
    }
    forall i, j | 0 <= i < j < |a + b| ensures InsideOrAfter((a + b)[i], (a + b)[j]) {
      if i < |a| <= j { assert LiesIn(s, offset, from, mid, a[i]) && LiesIn(s, offset, mid, to, b[j - |a|]); }
    }
  }

  /** Candidates found inside a word are candidates of the whole text, inside that word. */
  lemma PlacedInside(s: string, offset: nat, from: nat, to: nat, cs: seq<Candidate>)
    requires from <= to <= |s| && Placed(s[from..to], offset + from, 0, to - from, cs)
    ensures Placed(s, offset, from, to, cs)
  {
    forall c | c in cs ensures LiesIn(s, offset, from, to, c) {
      assert LiesIn(s[from..to], offset + from, 0, to - from, c);
      var i, j := c.start - offset - from, c.end - offset - from;
      assert forall k | 0 <= k < j - i :: s[from..to][i..j][k] == s[from + i..from + j][k];
    }
  }

  lemma PlacedUnder(s: string, offset: nat, from: nat, to: nat, c: Candidate, cs: seq<Candidate>)
    requires from <= to <= |s| && Placed(s, offset, from, to, cs)
    requires LiesIn(s, offset, from, to, c) && c.start == offset + from && c.end == offset + to
    ensures Placed(s, offset, from, to, [c] + cs)
  {
    forall i, j | 0 <= i < j < |[c] + cs| ensures InsideOrAfter(([c] + cs)[i], ([c] + cs)[j]) {
      assert ([c] + cs)[j] == cs[j - 1] && LiesIn(s, offset, from, to, cs[j - 1]);
      if i > 0 { assert InsideOrAfter(cs[i - 1], cs[j - 1]); }
    }
  }

  lemma PlacedWider(s: string, offset: nat, from: nat, to: nat, wideFrom: nat, wideTo: nat, cs: seq<Candidate>)
    requires wideFrom <= from <= to <= wideTo <= |s| && Placed(s, offset, from, to, cs)
    ensures Placed(s, offset, wideFrom, wideTo, cs)
  {
    forall c | c in cs ensures LiesIn(s, offset, wideFrom, wideTo, c) {
      assert LiesIn(s, offset, from, to, c);
    }
  }

  lemma NonePlaced(s: string, offset: nat, from: nat, to: nat)
    ensures Placed(s, offset, from, to, [])
  {
  }

  lemma OwnPlaced(lex: Lexicon, s: string, offset: nat, from: nat, to: nat, inner: seq<Candidate>)
    requires Proper(lex) && from <= to <= |s| && Placed(s, offset, from, to, inner)
    ensures Placed(s, offset, from, to, Own(lex, offset, from, to, s[from..to]) + inner)
  {
    hide Placed;
    var own := Own(lex, offset, from, to, s[from..to]);
    assert [] + inner == inner;
    assert from == to ==> s[from..to] == "";
    if own != [] {
      PlacedUnder(s, offset, from, to, own[0], inner);
    }
  }

  lemma {:induction false} OfMatchPlaced(lex: Lexicon, s: string, offset: nat, p: nat, m: Match)
    requires Proper(lex) && Within(m, p, |s|)
    ensures Placed(s, offset, p, Resume(m), OfMatch(lex, s, offset, p, m))
    decreases |s|, 0
  {
    hide Candidates, NextMatch, PrefixLength, PlainEnd, Placed, Own;
    var start := WordStart(lex, s, m);
    var word := s[start..m.end];
    var inner := if lex.accented(word) && m.quoted then Candidates(lex, word, offset + start, 0) else [];
    if lex.accented(word) && m.quoted {
      CandidatesPlaced(lex, word, offset + start, 0);
      PlacedInside(s, offset, start, m.end, inner);
    } else {
      NonePlaced(s, offset, start, m.end);
    }
    OwnPlaced(lex, s, offset, start, m.end, inner);
    PlacedWider(s, offset, start, m.end, p, Resume(m), Own(lex, offset, start, m.end, word) + inner);
  }

  /** Every candidate is exactly the text at its place, and any later one is inside it or after it. */
  lemma {:induction false} CandidatesPlaced(lex: Lexicon, s: string, offset: nat, p: nat)
    requires Proper(lex) && p <= |s|
    ensures Placed(s, offset, p, |s|, Candidates(lex, s, offset, p))
    decreases |s|, 1, |s| - p
  {
    var m := NextMatch(lex, s, p);
    if m.Some? {
      OfMatchPlaced(lex, s, offset, p, m.value);
      CandidatesPlaced(lex, s, offset, Resume(m.value));
      var own, rest := OfMatch(lex, s, offset, p, m.value), Candidates(lex, s, offset, Resume(m.value));
      PlacedConcat(s, offset, p, Resume(m.value), |s|, own, rest);
    }
  }

  /* Respelling. */

  datatype Edit = Edit(start: nat, end: nat, text: string)

  predicate Overlaps(e: Edit, start: nat, end: nat) {
    start < e.end && e.start < end
  }

  /** Edits from left to right, none touching another. */
  ghost predicate Ordered(es: seq<Edit>, size: nat) {
    && (forall i | 0 <= i < |es| :: es[i].start < es[i].end <= size)
    && (forall i, j | 0 <= i < j < |es| :: es[i].end <= es[j].start)
  }

  /** All edits at once: what lies between them is copied. */
  function Substitute(s: string, p: nat, es: seq<Edit>): string
    requires p <= |s|
    decreases |es|
  {
    if es == [] then s[p..]
    else if p <= es[0].start <= es[0].end <= |s| then
      s[p..es[0].start] + (es[0].text + Substitute(s, es[0].end, es[1..]))
    else s[p..]
  }

  lemma SubstituteLater(s: string, p: nat, es: seq<Edit>)
    requires p <= |s| && (es != [] ==> p <= es[0].start)
    ensures Substitute(s, 0, es) == s[..p] + Substitute(s, p, es)
  {
    if es == [] || !(es[0].start <= es[0].end <= |s|) {
      assert s[..p] + s[p..] == s[0..];
    } else {
      var start, tail := es[0].start, es[0].text + Substitute(s, es[0].end, es[1..]);
      assert s[0..start] == s[..p] + s[p..start];
      Assoc(s[..p], s[p..start], tail);
    }
  }

  /** Splicing one more edit to the left of those already made. */
  lemma SpliceOne(s: string, e: Edit, rest: seq<Edit>)
    requires e.start <= e.end <= |s| && (rest != [] ==> e.end <= rest[0].start)
    ensures var done := Substitute(s, 0, rest);
            && e.end <= |done|
            && Substitute(s, 0, [e] + rest) == done[..e.start] + e.text + done[e.end..]
  {
    SubstituteLater(s, e.end, rest);
    var tail := Substitute(s, e.end, rest);
    assert ([e] + rest)[1..] == rest;
    Spliced(s, e, tail);
  }

  lemma Spliced(s: string, e: Edit, tail: string)
    requires e.start <= e.end <= |s|
    ensures var done := s[..e.end] + tail;
            s[0..e.start] + (e.text + tail) == done[..e.start] + e.text + done[e.end..]
  {
    var done := s[..e.end] + tail;
    assert done[..e.start] == s[0..e.start];
    assert done[e.end..] == tail;
    Assoc(s[0..e.start], e.text, tail);
  }

  predicate Taken(chosen: seq<Edit>, c: Candidate) {
    exists e | e in chosen :: Overlaps(e, c.start, c.end)
  }

  /** Which candidates are respelled: those that changed, unless inside an earlier one chosen. */
  function Choose(cs: seq<Candidate>, replacements: seq<string>): (chosen: seq<Edit>)
    requires |cs| == |replacements|
    decreases |cs|
  {
    if cs == [] then []
    else
      var n := |cs| - 1;
      var before := Choose(cs[..n], replacements[..n]);
      if replacements[n] == cs[n].word || Taken(before, cs[n]) then before
      else before + [Edit(cs[n].start, cs[n].end, replacements[n])]
  }

  /** The candidate, with its replacement, that an edit carries out. */
  ghost predicate Respells(cs: seq<Candidate>, replacements: seq<string>, e: Edit, k: nat)
  {
    k < |cs| == |replacements| && replacements[k] != cs[k].word && e == Edit(cs[k].start, cs[k].end, replacements[k])
  }

  /** Each chosen edit respells a changed candidate. */
  lemma {:induction false} ChosenRespell(cs: seq<Candidate>, replacements: seq<string>, e: Edit) returns (k: nat)
    requires |cs| == |replacements| && e in Choose(cs, replacements)
    ensures Respells(cs, replacements, e, k)
    decreases |cs|
  {
    var n := |cs| - 1;
    if e in Choose(cs[..n], replacements[..n]) {
      k := ChosenRespell(cs[..n], replacements[..n], e);
    } else {
      k := n;
    }
  }

  ghost predicate Covers(e: Edit, c: Candidate) {
    e.start <= c.start && c.end <= e.end
  }

  /** A changed candidate lies inside a chosen edit. */
  lemma {:induction false} ChosenCover(s: string, cs: seq<Candidate>, replacements: seq<string>, k: nat)
    returns (e: Edit)
    requires |cs| == |replacements| && Placed(s, 0, 0, |s|, cs)
    requires k < |cs| && replacements[k] != cs[k].word
    ensures e in Choose(cs, replacements) && Covers(e, cs[k])
    decreases |cs|
  {
    var n := |cs| - 1;
    var before := Choose(cs[..n], replacements[..n]);
    if k < n {
      e := ChosenCover(s, cs[..n], replacements[..n], k);
    } else if Taken(before, cs[n]) {
      e :| e in before && Overlaps(e, cs[n].start, cs[n].end);
      var i := ChosenRespell(cs[..n], replacements[..n], e);
      assert InsideOrAfter(cs[i], cs[n]);
    } else {
      e := Edit(cs[n].start, cs[n].end, replacements[n]);
    }
  }

  lemma {:induction false} ChosenOrdered(s: string, cs: seq<Candidate>, replacements: seq<string>)
    requires |cs| == |replacements| && Placed(s, 0, 0, |s|, cs)
    ensures Ordered(Choose(cs, replacements), |s|)
    decreases |cs|
  {
    if cs != [] {
      var n := |cs| - 1;
      var before := Choose(cs[..n], replacements[..n]);
      ChosenOrdered(s, cs[..n], replacements[..n]);
      if replacements[n] != cs[n].word && !Taken(before, cs[n]) {
        assert LiesIn(s, 0, 0, |s|, cs[n]);
        forall i | 0 <= i < |before| ensures before[i].end <= cs[n].start {
          assert before[i] in before;
          var k := ChosenRespell(cs[..n], replacements[..n], before[i]);
          assert InsideOrAfter(cs[k], cs[n]) && LiesIn(s, 0, 0, |s|, cs[k]);
        }
      }
    }
  }

  const MAX_PATH_PROBES: nat := 16

  /** The candidates whose words are looked up in the sandbox. */
  function Probed(lex: Lexicon, command: string): (cs: seq<Candidate>) {
    var cs := Candidates(lex, command, 0, 0);
    if |cs| <= MAX_PATH_PROBES then cs else cs[..MAX_PATH_PROBES]
  }

  lemma ProbedPlaced(lex: Lexicon, command: string)
    requires Proper(lex)
    ensures Placed(command, 0, 0, |command|, Probed(lex, command))
  {
    CandidatesPlaced(lex, command, 0, 0);
    assert forall c | c in Probed(lex, command) :: c in Candidates(lex, command, 0, 0);
  }

  /** Respells the command. `replacements` is what looking up each probed word answered. */
  method LocatePaths(lex: Lexicon, command: string, replacements: seq<string>) returns (located: string)
    requires Proper(lex)
    requires |replacements| == |Probed(lex, command)|
    ensures located == Substitute(command, 0, Choose(Probed(lex, command), replacements))
  {
    var candidates := PathCandidates(lex, command, 0);
    if |candidates| > MAX_PATH_PROBES { candidates := candidates[..MAX_PATH_PROBES]; }
    assert candidates == Probed(lex, command);
    ProbedPlaced(lex, command);
    if candidates == [] { return command; }
    var chosen := ChooseOutermost(candidates, replacements);
    ChosenOrdered(command, candidates, replacements);
    located := SpliceAll(command, chosen);
  }

  method ChooseOutermost(candidates: seq<Candidate>, replacements: seq<string>) returns (chosen: seq<Edit>)
    requires |candidates| == |replacements|
    ensures chosen == Choose(candidates, replacements)
  {
    chosen := [];
    for n := 0 to |candidates|
      invariant chosen == Choose(candidates[..n], replacements[..n])
    {
      assert candidates[..n + 1][..n] == candidates[..n] && replacements[..n + 1][..n] == replacements[..n];
      var c := candidates[n];
      if replacements[n] != c.word && !Taken(chosen, c) {
        chosen := chosen + [Edit(c.start, c.end, replacements[n])];
      }
    }
    assert candidates[..|candidates|] == candidates && replacements[..|candidates|] == replacements;
  }

  /** The edits, made one after the other from the right, are all of them at once. */
  method SpliceAll(command: string, chosen: seq<Edit>) returns (located: string)
    requires Ordered(chosen, |command|)
    ensures located == Substitute(command, 0, chosen)
  {
    located := command;
    var n := |chosen|;
    while n > 0
      invariant 0 <= n <= |chosen|
      invariant located == Substitute(command, 0, chosen[n..])
    {
      n := n - 1;
      var e := chosen[n];
      SpliceOne(command, e, chosen[n + 1..]);
      assert [e] + chosen[n + 1..] == chosen[n..];
      located := located[..e.start] + e.text + located[e.end..];
    }
    assert chosen[0..] == chosen;
  }

  /** The respelled command as a whole: of the probed candidates, each the text at its place, exactly
      the outermost changed ones are replaced. */
  lemma LocatedRespellsOutermost(lex: Lexicon, command: string, replacements: seq<string>)
    requires Proper(lex)
    requires |replacements| == |Probed(lex, command)|
    ensures var cs, chosen := Probed(lex, command), Choose(Probed(lex, command), replacements);
            && Ordered(chosen, |command|)
            && (forall e | e in chosen ::
                exists k: nat :: Respells(cs, replacements, e, k) && LiesIn(command, 0, 0, |command|, cs[k]))
            && (forall k | 0 <= k < |cs| && replacements[k] != cs[k].word ::
                exists e :: e in chosen && Covers(e, cs[k]))
  {
    ProbedPlaced(lex, command);
    var cs := Probed(lex, command);
    var chosen := Choose(cs, replacements);
    ChosenOrdered(command, cs, replacements);
    forall e | e in chosen ensures exists k: nat ::
        Respells(cs, replacements, e, k) && LiesIn(command, 0, 0, |command|, cs[k]) {
      var k := ChosenRespell(cs, replacements, e);
      assert cs[k] in cs;
    }
    forall k | 0 <= k < |cs| && replacements[k] != cs[k].word ensures exists e ::
        e in chosen && Covers(e, cs[k]) {
      var e := ChosenCover(command, cs, replacements, k);
    }
  }
}
