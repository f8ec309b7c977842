/** The order in which Python sorts strings and Redis the members of one score. */
module StringOrder {
  predicate ProperPrefix<T(==)>(a: seq<T>, b: seq<T>) {
    |a| < |b| && a == b[..|a|]
  }

  predicate Less(a: string, b: string) {
    if b == "" then false else if a == "" then true
    else if a[0] != b[0] then a[0] < b[0] else Less(a[1..], b[1..])
  }

  /** a ends before b does, or has the smaller character where they first differ. */
  ghost predicate ComesFirst(a: string, b: string) {
    ProperPrefix(a, b) || exists n: nat :: DifferAt(a, b, n) && a[n] < b[n]
  }

  ghost predicate DifferAt(a: string, b: string, n: nat) {
    n < |a| && n < |b| && a[..n] == b[..n] && a[n] != b[n]
  }

  lemma {:induction false} LessIsComingFirst(a: string, b: string)
    ensures Less(a, b) <==> ComesFirst(a, b)
  {
    if a != "" && b != "" {
      LessIsComingFirst(a[1..], b[1..]);
      if a[0] != b[0] {
        assert DifferAt(a, b, 0);
      } else {
        assert ProperPrefix(a, b) <==> ProperPrefix(a[1..], b[1..]);
        if n: nat :| DifferAt(a[1..], b[1..], n) && a[1..][n] < b[1..][n] {
          assert a[..n + 1] == [a[0]] + a[1..][..n] && b[..n + 1] == [b[0]] + b[1..][..n];
          assert DifferAt(a, b, n + 1);
        }
        if n: nat :| DifferAt(a, b, n) && a[n] < b[n] {
          assert a[1..][..n - 1] == a[..n][1..] && b[1..][..n - 1] == b[..n][1..];
          assert DifferAt(a[1..], b[1..], n - 1);
        }
      }
    }
  }

  lemma {:induction false} PrefixIsLess(a: string, b: string)
    requires ProperPrefix(a, b)
    ensures Less(a, b) && !Less(b, a)
  {
    if a != "" {
      PrefixIsLess(a[1..], b[1..]);
    }
  }

  lemma {:induction false} LessIsStrict(a: string)
    ensures !Less(a, a)
  {
    if a != "" { LessIsStrict(a[1..]); }
  }

  lemma {:induction false} LessIsTransitive(a: string, b: string, c: string)
    requires Less(a, b) && Less(b, c)
    ensures Less(a, c)
  {
    if a != "" && a[0] == b[0] && b[0] == c[0] { LessIsTransitive(a[1..], b[1..], c[1..]); }
  }

  lemma {:induction false} LessIsTotal(a: string, b: string)
    requires a != b
    ensures Less(a, b) || Less(b, a)
  {
    if a != "" && b != "" && a[0] == b[0] {
      assert a == [a[0]] + a[1..] && b == [b[0]] + b[1..];
      LessIsTotal(a[1..], b[1..]);
    }
  }
}
