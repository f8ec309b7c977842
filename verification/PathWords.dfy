/** Which words of a command `_path_candidates` of
    private_gpt/components/code_execution/sandbox_session.py finds, said by how the text reads. */
module PathWords {
  import opened Wrappers
  import opened PathLocator

  /* What the two expressions match, as conditions on the text. */

  predicate Separates(lex: Lexicon, c: char) {
    lex.space(c) || c in "'\"`;|&<>()"
  }

  /** A quoted string: on one line, and without its quote inside. */
  predicate IsQuoted(s: string, m: Match) {
    && m.quoted && 1 <= m.start <= m.end < |s|
    && s[m.start - 1] in "'\"" && s[m.end] == s[m.start - 1]
    && (forall i | m.start <= i < m.end :: s[i] != '\n' && s[i] != s[m.end])
  }

  /** A run of characters none of which separates, as long as it can be. */
  predicate IsRun(lex: Lexicon, s: string, m: Match) {
    && !m.quoted && m.start < m.end <= |s|
    && (forall i | m.start <= i < m.end :: !Separates(lex, s[i]))
    && (m.end < |s| ==> Separates(lex, s[m.end]))
  }

  predicate IsShellWord(lex: Lexicon, s: string, m: Match) {
    IsQuoted(s, m) || IsRun(lex, s, m)
  }

  /** Where the text of a match begins, its quote included. */
  function Opens(m: Match): int {
    if m.quoted then m.start - 1 else m.start
  }

  /** Where it ends, its quote included. */
  function Closes(m: Match): nat {
    if m.quoted then m.end + 1 else m.end
  }

  /** No shell word begins from `from` up to `to`. */
  ghost predicate Quiet(lex: Lexicon, s: string, from: int, to: int) {
    && 0 <= from <= to <= |s|
    && (forall i | from <= i < to :: Separates(lex, s[i]))
    && (forall m: Match | IsQuoted(s, m) :: !(from <= Opens(m) < to))
  }

  /** Reading s from p on meets the shell words ms and nothing else. */
  ghost predicate Meets(lex: Lexicon, s: string, p: nat, ms: seq<Match>)
    decreases |ms|
  {
    if ms == [] then Quiet(lex, s, p, |s|)
    else IsShellWord(lex, s, ms[0]) && Quiet(lex, s, p, Opens(ms[0])) && Meets(lex, s, Closes(ms[0]), ms[1..])
  }

  /** m is one of the shell words of s. */
  ghost predicate Met(lex: Lexicon, s: string, m: Match) {
    exists ms :: Meets(lex, s, 0, ms) && m in ms
  }

  /** `NAME=`, `-flag=` or `--flag=`. */
  predicate IsAssignment(lex: Lexicon, u: string) {
    exists dashes: nat | dashes <= 2 && dashes + 1 < |u| :: AssignsAfter(lex, u, dashes)
  }

  predicate AssignsAfter(lex: Lexicon, u: string, dashes: nat) {
    && dashes + 1 < |u| && u[|u| - 1] == '='
    && (forall i | 0 <= i < dashes :: u[i] == '-')
    && ('a' <= u[dashes] <= 'z' || 'A' <= u[dashes] <= 'Z' || u[dashes] == '_')
    && (forall i | dashes < i < |u| - 1 :: lex.wordChar(u[i]) || u[i] == '-')
  }

  /** The part of a match that may be a path begins at start. */
  predicate WordBegins(lex: Lexicon, s: string, m: Match, start: int) {
    && 0 <= m.start <= start <= m.end <= |s|
    && (m.quoted ==> start == m.start)
    && (!m.quoted ==>
        if start > m.start then IsAssignment(lex, s[m.start..start])
        else forall k | m.start <= k <= m.end :: !IsAssignment(lex, s[m.start..k]))
  }

  /** c is the word of m, or one found inside m when m is a quoted string with another spelling. */
  ghost predicate Gives(lex: Lexicon, s: string, offset: nat, m: Match, c: Candidate)
    decreases |s|, 0
  {
    || (&& WordBegins(lex, s, m, c.start - offset) && c.end == offset + m.end
        && c.word == s[c.start - offset..m.end] && lex.accented(c.word) && lex.pathLike(c.word))
    || (&& IsQuoted(s, m) && lex.accented(s[m.start..m.end])
        && IsCandidate(lex, s[m.start..m.end], offset + m.start, c))
  }

  ghost predicate IsCandidate(lex: Lexicon, s: string, offset: nat, c: Candidate)
    decreases |s|, 1
  {
    exists m :: Met(lex, s, m) && Gives(lex, s, offset, m, c)
  }

  /* The scan finds these words. */

  lemma {:induction false} ClosingIsFirst(s: string, quote: char, p: nat)
    ensures var r := Closing(s, quote, p);
            r.Some? ==> forall i | p <= i < r.value :: s[i] != '\n' && s[i] != quote
    decreases |s| - p
  {
    if p < |s| && s[p] != '\n' && s[p] != quote { ClosingIsFirst(s, quote, p + 1); }
  }

  lemma {:induction false} QuotedCloses(s: string, m: Match, p: nat)
    requires IsQuoted(s, m) && m.start <= p <= m.end
    ensures Closing(s, s[m.end], p) == Some(m.end)
    decreases m.end - p
  {
    if p < m.end { QuotedCloses(s, m, p + 1); }
  }

  lemma {:induction false} PlainEndIsLast(lex: Lexicon, s: string, p: nat)
    requires p <= |s|
    ensures var e := PlainEnd(lex, s, p);
            && (forall i | p <= i < e :: !Separates(lex, s[i]))
            && (e < |s| ==> Separates(lex, s[e]))
    decreases |s| - p
  {
    if p < |s| && Plain(lex, s[p]) { PlainEndIsLast(lex, s, p + 1); }
  }

  lemma {:induction false} RunEnds(lex: Lexicon, s: string, m: Match, p: nat)
    requires IsRun(lex, s, m) && m.start <= p <= m.end
    ensures PlainEnd(lex, s, p) == m.end
    decreases m.end - p
  {
    if p < m.end { RunEnds(lex, s, m, p + 1); }
  }

  /** Whether a match begins at p, and which. */
  lemma MatchAtIs(lex: Lexicon, s: string, p: nat)
    requires p < |s|
    ensures var r := MatchAt(lex, s, p);
            && (r.Some? ==> IsShellWord(lex, s, r.value) && Opens(r.value) == p)
            && (r.None? ==> Quiet(lex, s, p, p + 1))
  {
    hide Closing, PlainEnd;
    ClosingIsFirst(s, s[p], p + 1);
    PlainEndIsLast(lex, s, p + 1);
    forall m | IsQuoted(s, m) && Opens(m) == p ensures Closing(s, s[p], p + 1).Some? {
      QuotedCloses(s, m, p + 1);
    }
  }

  lemma {:induction false} NextMatchIs(lex: Lexicon, s: string, p: nat)
    requires p <= |s|
    ensures var r := NextMatch(lex, s, p);
            && (r.None? ==> Quiet(lex, s, p, |s|))
            && (r.Some? ==> IsShellWord(lex, s, r.value) && Quiet(lex, s, p, Opens(r.value)))
    decreases |s| - p
  {
    hide MatchAt, IsShellWord;
    if p < |s| {
      MatchAtIs(lex, s, p);
      if MatchAt(lex, s, p).None? { NextMatchIs(lex, s, p + 1); }
    }
  }

  /** No shell word begins where the text is quiet. */
  lemma BeginsLater(lex: Lexicon, s: string, p: nat, m: Match, to: int)
    requires IsShellWord(lex, s, m) && p <= Opens(m) && Quiet(lex, s, p, to)
    ensures to <= Opens(m) < |s|
  {
    assert !m.quoted ==> !Separates(lex, s[m.start]);
  }

  /** Two shell words with nothing before either are the same. */
  lemma FirstIsUnique(lex: Lexicon, s: string, p: nat, a: Match, b: Match)
    requires IsShellWord(lex, s, a) && IsShellWord(lex, s, b)
    requires Quiet(lex, s, p, Opens(a)) && Quiet(lex, s, p, Opens(b))
    ensures a == b
  {
    BeginsLater(lex, s, p, a, Opens(b));
    BeginsLater(lex, s, p, b, Opens(a));
    if a.quoted {
      QuotedCloses(s, a, a.start);
      QuotedCloses(s, b, a.start);
    } else {
      RunEnds(lex, s, a, a.start);
      RunEnds(lex, s, b, a.start);
    }
  }

  /** Reading on from p meets one sequence of shell words. */
  lemma {:induction false} MeetsOnce(lex: Lexicon, s: string, p: nat, a: seq<Match>, b: seq<Match>)
    requires Meets(lex, s, p, a) && Meets(lex, s, p, b)
    ensures a == b
    decreases |a|
  {
    hide IsShellWord;
    if a == [] && b != [] {
      BeginsLater(lex, s, p, b[0], |s|);
    } else if a != [] && b == [] {
      BeginsLater(lex, s, p, a[0], |s|);
    } else if a != [] {
      FirstIsUnique(lex, s, p, a[0], b[0]);
      MeetsOnce(lex, s, Closes(a[0]), a[1..], b[1..]);
      assert a == [a[0]] + a[1..] && b == [b[0]] + b[1..];
    }
  }

  ghost function Words(lex: Lexicon, s: string, p: nat): seq<Match>
    decreases |s| - p
  {
    var m := NextMatch(lex, s, p);
    if m.None? then [] else [m.value] + Words(lex, s, Resume(m.value))
  }

  lemma {:induction false} WordsAreMet(lex: Lexicon, s: string, p: nat)
    requires p <= |s|
    ensures Meets(lex, s, p, Words(lex, s, p))
    decreases |s| - p
  {
    hide IsShellWord, NextMatch;
    NextMatchIs(lex, s, p);
    var m := NextMatch(lex, s, p);
    if m.Some? { WordsAreMet(lex, s, Resume(m.value)); }
  }

  /* The prefix that is cut off. */

  lemma {:induction false} WordRunIsLast(lex: Lexicon, s: string, p: nat)
    requires p <= |s|
    ensures var e := WordRun(lex, s, p);
            && (forall i | p <= i < e :: lex.wordChar(s[i]) || s[i] == '-')
            && (e < |s| ==> !lex.wordChar(s[e]) && s[e] != '-')
    decreases |s| - p
  {
    if p < |s| && (lex.wordChar(s[p]) || s[p] == '-') { WordRunIsLast(lex, s, p + 1); }
  }

  /** The length cut off is that of the leading assignment, if there is one. */
  lemma PrefixLengthIs(lex: Lexicon, word: string, k: nat)
    requires Proper(lex) && k <= |word|
    ensures IsAssignment(lex, word[..k]) <==> 0 < k == PrefixLength(lex, word)
  {
    var dashes := if |word| >= 2 && word[..2] == "--" then 2 else if |word| >= 1 && word[0] == '-' then 1 else 0;
    if dashes < |word| {
      WordRunIsLast(lex, word, dashes + 1);
    }
    if 0 < k == PrefixLength(lex, word) {
      assert AssignsAfter(lex, word[..k], dashes);
    }
    if IsAssignment(lex, word[..k]) {
      var d: nat :| d <= 2 && d + 1 < k && AssignsAfter(lex, word[..k], d);
      AssignsOnce(lex, word, k, d, dashes);
    }
  }

  lemma AssignsOnce(lex: Lexicon, word: string, k: nat, d: nat, dashes: nat)
    requires Proper(lex) && k <= |word| && d <= 2 && d + 1 < k && AssignsAfter(lex, word[..k], d)
    requires dashes == if |word| >= 2 && word[..2] == "--" then 2 else if |word| >= 1 && word[0] == '-' then 1 else 0
    ensures k == PrefixLength(lex, word)
  {
    var u := word[..k];
    assert u[d] == word[d];
    assert forall i | 0 <= i < d :: word[i] == u[i] == '-';
    assert d == 2 ==> word[..2] == "--";
    assert dashes == 2 ==> word[0] == word[..2][0] && word[1] == word[..2][1];
    assert d == dashes;
    WordRunIsLast(lex, word, d + 1);
    var e := WordRun(lex, word, d + 1);
    assert u[k - 1] == word[k - 1] == '=';
    assert forall i | d < i < k - 1 :: u[i] == word[i];
  }

  lemma WordStartIs(lex: Lexicon, s: string, m: Match, start: int)
    requires Proper(lex) && m.start <= m.end <= |s|
    ensures WordBegins(lex, s, m, start) <==> start == WordStart(lex, s, m)
  {
    hide PrefixLength, IsAssignment;
    if !m.quoted {
      var word := s[m.start..m.end];
      forall k | m.start <= k <= m.end
        ensures IsAssignment(lex, s[m.start..k]) <==> 0 < k - m.start == PrefixLength(lex, word)
      {
        PrefixLengthIs(lex, word, k - m.start);
        assert word[..k - m.start] == s[m.start..k];
      }
      var w := WordStart(lex, s, m);
      assert IsAssignment(lex, s[m.start..w]) <==> w > m.start;
    }
  }

  /* The candidates are these words. */

  /** c comes from one of the shell words ms. */
  ghost predicate SomeGives(lex: Lexicon, s: string, offset: nat, ms: seq<Match>, c: Candidate) {
    exists i | 0 <= i < |ms| :: Gives(lex, s, offset, ms[i], c)
  }

  lemma SomeGivesFirst(lex: Lexicon, s: string, offset: nat, ms: seq<Match>, c: Candidate)
    requires ms != []
    ensures SomeGives(lex, s, offset, ms, c)
      <==> Gives(lex, s, offset, ms[0], c) || SomeGives(lex, s, offset, ms[1..], c)
  {
    hide Gives;
    if SomeGives(lex, s, offset, ms, c) && !Gives(lex, s, offset, ms[0], c) {
      var i :| 0 <= i < |ms| && Gives(lex, s, offset, ms[i], c);
      assert ms[1..][i - 1] == ms[i];
    }
    if SomeGives(lex, s, offset, ms[1..], c) {
      var i :| 0 <= i < |ms[1..]| && Gives(lex, s, offset, ms[1..][i], c);
      assert ms[1..][i] == ms[i + 1];
    }
  }

  lemma NextIsFirst(lex: Lexicon, s: string, p: nat, ms: seq<Match>)
    requires p <= |s| && Meets(lex, s, p, ms)
    ensures NextMatch(lex, s, p) == if ms == [] then None else Some(ms[0])
  {
    WordsAreMet(lex, s, p);
    MeetsOnce(lex, s, p, ms, Words(lex, s, p));
  }

  lemma {:induction false} OfMatchGives(lex: Lexicon, s: string, offset: nat, p: nat, m: Match, c: Candidate)
    requires Proper(lex) && Within(m, p, |s|) && IsShellWord(lex, s, m)
    ensures c in OfMatch(lex, s, offset, p, m) <==> Gives(lex, s, offset, m, c)
    decreases |s|, 0
  {
    hide Candidates, IsCandidate, PrefixLength, WordBegins;
    WordStartIs(lex, s, m, c.start - offset);
    WordStartIs(lex, s, m, WordStart(lex, s, m));
    var word := s[WordStart(lex, s, m)..m.end];
    if lex.accented(word) && m.quoted {
      CandidatesExact(lex, word, offset + m.start, c);
    }
  }

  lemma {:induction false} CandidatesFrom(lex: Lexicon, s: string, offset: nat, p: nat, ms: seq<Match>, c: Candidate)
    requires Proper(lex) && p <= |s| && Meets(lex, s, p, ms)
    ensures c in Candidates(lex, s, offset, p) <==> SomeGives(lex, s, offset, ms, c)
    decreases |s|, 1, |ms|
  {
    hide Gives, OfMatch, NextMatch, IsShellWord;
    NextIsFirst(lex, s, p, ms);
    if ms != [] {
      OfMatchGives(lex, s, offset, p, ms[0], c);
      CandidatesFrom(lex, s, offset, Resume(ms[0]), ms[1..], c);
      SomeGivesFirst(lex, s, offset, ms, c);
    }
  }

  /** Exactly the accented, path-like words of the text are candidates: those of its shell words, with a
      leading assignment cut off, and again those inside each accented quoted string. */
  lemma {:induction false} CandidatesExact(lex: Lexicon, s: string, offset: nat, c: Candidate)
    requires Proper(lex)
    ensures c in Candidates(lex, s, offset, 0) <==> IsCandidate(lex, s, offset, c)
    decreases |s|, 2
  {
    hide Gives, Candidates, Meets;
    var ms := Words(lex, s, 0);
    WordsAreMet(lex, s, 0);
    CandidatesFrom(lex, s, offset, 0, ms, c);
    if IsCandidate(lex, s, offset, c) {
      var m :| Met(lex, s, m) && Gives(lex, s, offset, m, c);
      var ns :| Meets(lex, s, 0, ns) && m in ns;
      MeetsOnce(lex, s, 0, ms, ns);
    }
    if SomeGives(lex, s, offset, ms, c) {
      var i :| 0 <= i < |ms| && Gives(lex, s, offset, ms[i], c);
      assert Met(lex, s, ms[i]);
    }
  }
}
