/** `JsonlSpanExporter` of private_gpt/observability/exporters.py. */
module JsonlRotation {
  import opened Wrappers

  /** The log files by number: 0 is the current one, k is the k-th backup. A file is its lines. */
  type Files = map<nat, seq<string>>

  datatype Config = Config(maxBytes: int, backupCount: int)

  /** What is in a file. */
  function TextOf(lines: seq<string>): string {
    if lines == [] then "" else TextOf(lines[..|lines| - 1]) + lines[|lines| - 1] + "\n"
  }

  /** Bytes of a file: JSON escapes all other characters to ASCII, and each line ends in a newline. */
  function Size(lines: seq<string>): nat {
    if lines == [] then 0 else Size(lines[..|lines| - 1]) + |lines[|lines| - 1]| + 1
  }

  lemma {:induction false} SizeIsLength(lines: seq<string>)
    ensures Size(lines) == |TextOf(lines)|
  {
    if lines != [] { SizeIsLength(lines[..|lines| - 1]); }
  }

  predicate MustRotate(files: Files, cfg: Config, incoming: nat) {
    cfg.maxBytes > 0 && 0 in files && Size(files[0]) + incoming > cfg.maxBytes
  }

  /** Which file is found at number k after the backups moved up, the current one becoming number 1. */
  function Origin(files: Files, backups: nat, k: nat): Option<nat> {
    if k == 0 then None
    else if k > backups then if k in files then Some(k) else None
    else if k - 1 in files then Some(k - 1)
    else if k == backups && k in files then Some(k)
    else None
  }

  /** File k is as file `origin` was, or missing when there is no origin. */
  ghost predicate Same(was: Files, origin: Option<nat>, now: Files, k: nat) {
    && (k in now <==> origin.Some?)
    && (k in now && origin.Some? ==> origin.value in was && now[k] == was[origin.value])
  }

  ghost predicate MovedUp(files: Files, backups: nat, moved: Files) {
    forall k: nat :: Same(files, Origin(files, backups, k), moved, k)
  }

  ghost predicate RotatedTo(files: Files, backups: nat, line: string, next: Files) {
    exists moved: Files :: MovedUp(files, backups, moved) && next == moved[0 := [line]]
  }

  /** The files after one line is written. */
  ghost predicate Written(files: Files, cfg: Config, line: string, next: Files) {
    if !MustRotate(files, cfg, |line| + 1) then
      next == files[0 := (if 0 in files then files[0] else []) + [line]]
    else if cfg.backupCount <= 0 then next == files[0 := [line]]
    else RotatedTo(files, cfg.backupCount, line, next)
  }

  class JsonlSpanExporter {
    const cfg: Config
    var files: Files

    constructor (cfg: Config)
      ensures this.cfg == cfg && files == map[]
    {
      this.cfg := cfg;
      files := map[];
    }

    method Export(line: string)
      modifies this`files
      ensures Written(old(files), cfg, line, files)
    {
      ghost var before := files;
      Rotate(|line| + 1);
      ghost var rotated := files;
      files := files[0 := (if 0 in files then files[0] else []) + [line]];
      if MustRotate(before, cfg, |line| + 1) && cfg.backupCount > 0 {
        assert Origin(before, cfg.backupCount, 0).None?;
        assert [] + [line] == [line];
        assert files == rotated[0 := [line]];
      } else if MustRotate(before, cfg, |line| + 1) {
        assert [] + [line] == [line];
        assert (before - {0})[0 := [line]] == before[0 := [line]];
      }
    }

    method Rotate(incoming: nat)
      modifies this`files
      ensures !MustRotate(old(files), cfg, incoming) ==> files == old(files)
      ensures MustRotate(old(files), cfg, incoming) && cfg.backupCount <= 0 ==> files == old(files) - {0}
      ensures MustRotate(old(files), cfg, incoming) && cfg.backupCount > 0 ==>
                MovedUp(old(files), cfg.backupCount, files)
    {
      if cfg.maxBytes <= 0 || 0 !in files { return; }
      if Size(files[0]) + incoming <= cfg.maxBytes { return; }
      if cfg.backupCount <= 0 {
        files := files - {0};
        return;
      }
      ghost var was := files;
      var index := cfg.backupCount - 1;
      while index > 0
        invariant 0 <= index < cfg.backupCount
        invariant Partly(was, cfg.backupCount, index, files)
      {
        PartlyStep(was, cfg.backupCount, index, files);
        if index in files {
          files := files[index + 1 := files[index]] - {index};
        }
        index := index - 1;
      }
      PartlyEnd(was, cfg.backupCount, files);
      files := files[1 := files[0]] - {0};
    }
  }

  /** Where file k comes from when numbers above index have been moved up. */
  function PartlyOrigin(was: Files, backups: nat, index: nat, k: nat): Option<nat> {
    if index + 1 == backups then (if k in was then Some(k) else None) else Origin(was, backups, k)
  }

  /** Half-way: numbers above index have been moved up already. */
  ghost predicate Partly(was: Files, backups: nat, index: nat, now: Files) {
    && (forall k: nat | k <= index ::
        (k in now <==> k in was) && (k in now && k in was ==> now[k] == was[k]))
    && (index + 1 < backups ==> index + 1 !in now)
    && (forall k: nat | index + 1 < k || index + 1 == backups == k ::
          Same(was, PartlyOrigin(was, backups, index, k), now, k))
  }

  lemma PartlyStep(was: Files, backups: nat, index: nat, now: Files)
    requires 0 < index < backups && Partly(was, backups, index, now)
    ensures Partly(was, backups, index - 1, if index in now then now[index + 1 := now[index]] - {index} else now)
  {
    var next := if index in now then now[index + 1 := now[index]] - {index} else now;
    forall k: nat | index < k ensures Same(was, Origin(was, backups, k), next, k) {
      assert index + 1 < k || index + 1 == backups == k ==> Same(was, PartlyOrigin(was, backups, index, k), now, k);
    }
  }

  lemma PartlyEnd(was: Files, backups: nat, now: Files)
    requires 0 < backups && 0 in was && Partly(was, backups, 0, now)
    ensures 0 in now && MovedUp(was, backups, now[1 := now[0]] - {0})
  {
    var next := now[1 := now[0]] - {0};
    forall k: nat ensures Same(was, Origin(was, backups, k), next, k) {
      assert 1 < k || 1 == backups == k ==> Same(was, PartlyOrigin(was, backups, 0, k), now, k);
    }
  }

  /* What the files hold. */

  ghost predicate Contiguous(files: Files, n: nat) {
    forall k: nat :: k in files <==> k < n
  }

  /** All lines kept, oldest first. */
  ghost function Kept(files: Files, n: nat): seq<string>
    requires forall k: nat | k < n :: k in files
  {
    if n == 0 then [] else files[n - 1] + Kept(files, n - 1)
  }

  ghost predicate IsSuffix<T>(a: seq<T>, b: seq<T>) {
    |a| <= |b| && b[|b| - |a|..] == a
  }

  ghost predicate Sized(files: Files, cfg: Config) {
    cfg.maxBytes > 0 ==> forall k | k in files ::
        Size(files[k]) <= cfg.maxBytes || |files[k]| == 1
  }

  function Limit(cfg: Config): nat {
    if cfg.backupCount <= 0 then 1 else cfg.backupCount + 1
  }

  /** The current file and its backups are numbered without gaps, within the limit, hold the last lines
      written, and respect the size limit unless a single line exceeds it. */
  ghost predicate Good(files: Files, cfg: Config, n: nat, history: seq<string>) {
    && n <= Limit(cfg) && Contiguous(files, n)
    && IsSuffix(Kept(files, n), history)
    && Sized(files, cfg)
    && (cfg.maxBytes <= 0 ==> n <= 1 && Kept(files, n) == history)
  }

  /** Appending to the current file appends to all that is kept. */
  lemma {:induction false} KeptAppend(files: Files, next: Files, n: nat, line: string)
    requires n > 0 && forall k: nat | k < n ::
        k in files && k in next && next[k] == if k == 0 then files[0] + [line] else files[k]
    ensures Kept(next, n) == Kept(files, n) + [line]
  {
    if n == 1 {
      assert Kept(next, 0) == [] && Kept(files, 0) == [];
      assert next[0] + [] == next[0] && files[0] + [] == files[0];
    } else {
      KeptAppend(files, next, n - 1, line);
    }
  }

  /** Numbers 1 to m hold what 0 to m - 1 held. */
  ghost predicate UpByOne(files: Files, next: Files, m: nat) {
    0 in next && (forall k: nat | 0 < k <= m ::
        k in next && k - 1 in files && next[k] == files[k - 1])
  }

  /** Moving every file up one number keeps their order. */
  lemma {:induction false} KeptMoved(files: Files, next: Files, m: nat)
    requires UpByOne(files, next, m) && forall k: nat | k < m :: k in files
    ensures forall k: nat | k < m + 1 :: k in next
    ensures Kept(next, m + 1) == Kept(files, m) + next[0]
  {
    if m == 0 {
      assert Kept(next, 0) == [] && next[0] + [] == next[0];
    } else {
      KeptMoved(files, next, m - 1);
    }
  }

  lemma SizeMore(lines: seq<string>, line: string)
    ensures Size(lines + [line]) == Size(lines) + |line| + 1
  {
    assert (lines + [line])[..|lines|] == lines;
  }

  function Count(files: Files, cfg: Config, n: nat, line: string): nat {
    if !MustRotate(files, cfg, |line| + 1) then (if n == 0 then 1 else n)
    else if cfg.backupCount <= 0 then 1
    else if n <= cfg.backupCount then n + 1 else n
  }

  lemma AppendKeepsSized(files: Files, cfg: Config, line: string, next: Files)
    requires Sized(files, cfg) && Written(files, cfg, line, next) && !MustRotate(files, cfg, |line| + 1)
    ensures Sized(next, cfg)
  {
    hide Size;
    if 0 in files { SizeMore(files[0], line); }
    assert [] + [line] == [line];
  }

  lemma AppendIsKept(files: Files, n: nat, line: string, next: Files)
    requires Contiguous(files, n) && next == files[0 := (if 0 in files then files[0] else []) + [line]]
    ensures Contiguous(next, if n == 0 then 1 else n)
    ensures Kept(next, if n == 0 then 1 else n) == Kept(files, n) + [line]
  {
    hide Kept;
    if n == 0 {
      FirstKept(files, next, line);
    } else {
      KeptAppend(files, next, n, line);
    }
  }

  lemma AppendKeepsGood(files: Files, cfg: Config, n: nat, history: seq<string>, line: string, next: Files)
    requires Good(files, cfg, n, history) && Written(files, cfg, line, next) && !MustRotate(files, cfg, |line| + 1)
    ensures Good(next, cfg, if n == 0 then 1 else n, history + [line])
  {
    hide Kept, IsSuffix, Size, Sized, RotatedTo;
    AppendKeepsSized(files, cfg, line, next);
    AppendIsKept(files, n, line, next);
    SuffixMore(Kept(files, n), history, line);
  }

  lemma FirstKept(files: Files, next: Files, line: string)
    requires 0 in next && next[0] == [] + [line]
    ensures Kept(next, 1) == Kept(files, 0) + [line]
  {
    assert Kept(next, 0) == [] && Kept(files, 0) == [];
    assert next[0] + [] == [line];
  }

  lemma SuffixMore<T>(a: seq<T>, b: seq<T>, x: T)
    requires IsSuffix(a, b)
    ensures IsSuffix(a + [x], b + [x])
  {
    assert (b + [x])[|b| - |a|..] == b[|b| - |a|..] + [x];
  }

  lemma RotatedNumbers(files: Files, cfg: Config, n: nat, line: string, next: Files) returns (m: nat)
    requires Contiguous(files, n) && 0 in files && n <= Limit(cfg) && cfg.backupCount > 0
    requires Written(files, cfg, line, next) && MustRotate(files, cfg, |line| + 1)
    ensures m == if n <= cfg.backupCount then n else cfg.backupCount
    ensures m <= n && Contiguous(next, m + 1) && UpByOne(files, next, m) && next[0] == [line]
  {
    m := if n <= cfg.backupCount then n else cfg.backupCount;
    assert RotatedTo(files, cfg.backupCount, line, next);
    var moved: Files :| MovedUp(files, cfg.backupCount, moved) && next == moved[0 := [line]];
    forall k: nat ensures k in next <==> k < m + 1 {
      assert k in moved <==> Origin(files, cfg.backupCount, k).Some?;
    }
    forall k: nat | 0 < k <= m ensures k in next && k - 1 in files && next[k] == files[k - 1] {
      assert Origin(files, cfg.backupCount, k) == Some(k - 1);
    }
  }

  lemma RotateKeepsGood(files: Files, cfg: Config, n: nat, history: seq<string>, line: string, next: Files)
    requires Good(files, cfg, n, history) && Written(files, cfg, line, next) && MustRotate(files, cfg, |line| + 1)
    requires cfg.backupCount > 0
    ensures Good(next, cfg, if n <= cfg.backupCount then n + 1 else n, history + [line])
  {
    var m := RotatedNumbers(files, cfg, n, line, next);
    KeptMoved(files, next, m);
  }

  /** The line fits in the current file. */
  ghost predicate Fits(files: Files, cfg: Config, line: string) {
    cfg.maxBytes <= 0 || 0 !in files || Size(files[0] + [line]) <= cfg.maxBytes
  }

  /** The current file grows exactly when there is room in it, and no other file changes then; otherwise the
      line begins a new current file. */
  lemma RotatesIffFull(files: Files, cfg: Config, line: string, next: Files)
    requires Written(files, cfg, line, next)
    ensures Fits(files, cfg, line) ==> next == files[0 := (if 0 in files then files[0] else []) + [line]]
    ensures !Fits(files, cfg, line) ==> 0 in next && next[0] == [line]
  {
    if 0 in files { SizeMore(files[0], line); }
  }

  /** Every line written keeps the files good. */
  lemma WritingKeepsGood(files: Files, cfg: Config, n: nat, history: seq<string>, line: string, next: Files)
    requires Good(files, cfg, n, history) && Written(files, cfg, line, next)
    ensures Good(next, cfg, Count(files, cfg, n, line), history + [line])
  {
    if !MustRotate(files, cfg, |line| + 1) {
      AppendKeepsGood(files, cfg, n, history, line, next);
    } else if cfg.backupCount > 0 {
      RotateKeepsGood(files, cfg, n, history, line, next);
    } else {
      assert Kept(next, 0) == [] && next[0] + [] == [line];
      assert (history + [line])[|history|..] == [line];
    }
  }

  /** Unless the oldest of a full set of backups makes room, nothing that was kept is dropped. */
  lemma NothingDroppedBeforeFull(files: Files, cfg: Config, n: nat, history: seq<string>, line: string, next: Files)
    requires Good(files, cfg, n, history) && Written(files, cfg, line, next)
    requires !MustRotate(files, cfg, |line| + 1) || n <= cfg.backupCount
    ensures Good(next, cfg, Count(files, cfg, n, line), history + [line])
    ensures Kept(next, Count(files, cfg, n, line)) == Kept(files, n) + [line]
  {
    WritingKeepsGood(files, cfg, n, history, line, next);
    if MustRotate(files, cfg, |line| + 1) {
      var m := RotatedNumbers(files, cfg, n, line, next);
      KeptMoved(files, next, m);
    } else {
      AppendIsKept(files, n, line, next);
    }
  }

  /** The states an exporter goes through while it writes some lines. */
  ghost predicate IsRun(states: seq<Files>, cfg: Config, lines: seq<string>) {
    |states| == |lines| + 1 && forall i | 0 <= i < |lines| ::
        Written(states[i], cfg, lines[i], states[i + 1])
  }

  /** After any number of lines, the backups from the oldest on followed by the current file are a suffix
      of all that was written, numbered without gaps and within the limits. */
  lemma {:induction false} GoodOverRuns(states: seq<Files>, cfg: Config, lines: seq<string>, i: nat) returns (n: nat)
    requires IsRun(states, cfg, lines) && states[0] == map[] && i <= |lines|
    ensures Good(states[i], cfg, n, lines[..i])
    decreases i
  {
    if i == 0 {
      n := 0;
    } else {
      var m := GoodOverRuns(states, cfg, lines, i - 1);
      assert Written(states[i - 1], cfg, lines[i - 1], states[i - 1 + 1]);
      WritingKeepsGood(states[i - 1], cfg, m, lines[..i - 1], lines[i - 1], states[i]);
      n := Count(states[i - 1], cfg, m, lines[i - 1]);
      assert lines[..i - 1] + [lines[i - 1]] == lines[..i];
    }
  }

  /** The line just written is the last one of the current file. */
  lemma LastLineIsCurrent(files: Files, cfg: Config, line: string, next: Files)
    requires Written(files, cfg, line, next)
    ensures 0 in next && next[0] != [] && next[0][|next[0]| - 1] == line
  {
    if MustRotate(files, cfg, |line| + 1) && cfg.backupCount > 0 {
      assert RotatedTo(files, cfg.backupCount, line, next);
    }
  }
}
