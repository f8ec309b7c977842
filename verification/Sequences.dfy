/** Facts on sequences that proofs here use again and again. */
module Sequences {
  lemma Assoc<T>(a: seq<T>, b: seq<T>, c: seq<T>)
    ensures a + (b + c) == a + b + c
  {
  }

  /** Python's "\n".join. */
  function JoinLines(lines: seq<string>): string {
    if lines == [] then "" else if |lines| == 1 then lines[0] else lines[0] + "\n" + JoinLines(lines[1..])
  }

  /** Python's str.isspace of one character. */
  predicate IsSpace(c: char) {
    '\t' <= c <= '\r' || '\U{1C}' <= c <= ' ' || '\U{2000}' <= c <= '\U{200A}'
    || c in {'\U{85}', '\U{A0}', '\U{1680}', '\U{2028}', '\U{2029}', '\U{202F}', '\U{205F}', '\U{3000}'}
  }

  /** ys are the elements of xs at the indices idx, and these are all at which p holds, in order. */
  ghost predicate Picks<T>(xs: seq<T>, p: T -> bool, idx: seq<nat>, ys: seq<T>) {
    && |idx| == |ys|
    && (forall j | 0 <= j < |idx| :: idx[j] < |xs| && p(xs[idx[j]]) && ys[j] == xs[idx[j]])
    && (forall i, j | 0 <= i < j < |idx| :: idx[i] < idx[j])
    && (forall k | 0 <= k < |xs| && p(xs[k]) :: k in idx)
  }

  lemma PicksMore<T>(xs: seq<T>, x: T, p: T -> bool, idx: seq<nat>, ys: seq<T>)
    requires Picks(xs, p, idx, ys)
    ensures p(x) ==> Picks(xs + [x], p, idx + [|xs|], ys + [x])
    ensures !p(x) ==> Picks(xs + [x], p, idx, ys)
  {
    assert forall k | 0 <= k < |xs| :: (xs + [x])[k] == xs[k];
    assert (idx + [|xs|])[|idx|] == |xs|;
  }
}
