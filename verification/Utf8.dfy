/** UTF-8 as section 3 of RFC 3629 defines it, and the decoder of Python's
    `bytes.decode("utf-8", errors="ignore")`. A Dafny char is a Unicode scalar value. */
module Utf8 {
  import opened Sequences

  type Byte = b: int | 0 <= b < 256

  /** Bytes a character takes. */
  function CharSize(c: char): (n: nat)
    ensures 1 <= n <= 4
  {
    if c as int < 0x80 then 1 else if c as int < 0x800 then 2 else if c as int < 0x1_0000 then 3 else 4
  }

  /** Bytes a text takes, without encoding it. */
  function Size(s: string): (n: nat)
    ensures |s| <= n
  {
    if s == "" then 0 else CharSize(s[0]) + Size(s[1..])
  }

  function EncodeChar(c: char): (bs: seq<Byte>)
    ensures |bs| == CharSize(c)
  {
    var v := c as int;
    if v < 0x80 then [v]
    else if v < 0x800 then [0xC0 + v / 64, 0x80 + v % 64]
    else if v < 0x1_0000 then [0xE0 + v / 4096, 0x80 + v / 64 % 64, 0x80 + v % 64]
    else [0xF0 + v / 262144, 0x80 + v / 4096 % 64, 0x80 + v / 64 % 64, 0x80 + v % 64]
  }

  function Encode(s: string): (bs: seq<Byte>)
    ensures |bs| == Size(s)
  {
    if s == "" then [] else EncodeChar(s[0]) + Encode(s[1..])
  }

  predicate IsTail(b: Byte) {
    0x80 <= b < 0xC0
  }

  function Low6(b: Byte): int {
    b as int - 0x80
  }

  function Value2(b0: Byte, b1: Byte): int {
    (b0 as int - 0xC0) * 64 + Low6(b1)
  }

  function Value3(b0: Byte, b1: Byte, b2: Byte): int {
    (b0 as int - 0xE0) * 4096 + Low6(b1) * 64 + Low6(b2)
  }

  function Value4(b0: Byte, b1: Byte, b2: Byte, b3: Byte): int {
    (b0 as int - 0xF0) * 262144 + Low6(b1) * 4096 + Low6(b2) * 64 + Low6(b3)
  }

  predicate IsScalar(v: int) {
    0 <= v < 0xD800 || 0xE000 <= v < 0x11_0000
  }

  /** Length of the well-formed sequence the bytes start with, 0 if they start with none. */
  function SequenceLength(bs: seq<Byte>): (n: nat)
    requires bs != []
    ensures n <= |bs| && n <= 4
  {
    var b := bs[0];
    if b < 0x80 then 1
    else if 0xC2 <= b < 0xE0 && |bs| >= 2 && IsTail(bs[1]) then 2
    else if 0xE0 <= b < 0xF0 && |bs| >= 3 && IsTail(bs[1]) && IsTail(bs[2])
            && Value3(b, bs[1], bs[2]) >= 0x800 && IsScalar(Value3(b, bs[1], bs[2])) then 3
    else if 0xF0 <= b < 0xF5 && |bs| >= 4 && IsTail(bs[1]) && IsTail(bs[2]) && IsTail(bs[3])
            && Value4(b, bs[1], bs[2], bs[3]) >= 0x1_0000 && IsScalar(Value4(b, bs[1], bs[2], bs[3])) then 4
    else 0
  }

  function CharOf(bs: seq<Byte>): char
    requires bs != [] && SequenceLength(bs) > 0
  {
    match SequenceLength(bs)
    case 1 => bs[0] as char
    case 2 => Value2(bs[0], bs[1]) as char
    case 3 => Value3(bs[0], bs[1], bs[2]) as char
    case _ => Value4(bs[0], bs[1], bs[2], bs[3]) as char
  }

  /** Bytes that start no character are skipped one at a time. */
  function DecodeIgnore(bs: seq<Byte>): string
    decreases |bs|
  {
    if bs == [] then ""
    else
      var n := SequenceLength(bs);
      if n == 0 then DecodeIgnore(bs[1..]) else [CharOf(bs)] + DecodeIgnore(bs[n..])
  }

  lemma Digits(v: nat)
    ensures v / 64 * 64 + v % 64 == v && v / 4096 * 4096 + v / 64 % 64 * 64 + v % 64 == v
    ensures v / 262144 * 262144 + v / 4096 % 64 * 4096 + v / 64 % 64 * 64 + v % 64 == v
  {
    assert v / 4096 == v / 64 / 64 && v / 262144 == v / 4096 / 64;
  }

  lemma DecodeOneOfEncoded(c: char, rest: seq<Byte>)
    ensures SequenceLength(EncodeChar(c) + rest) == |EncodeChar(c)| && CharOf(EncodeChar(c) + rest) == c
  {
    var v := c as int;
    Digits(v);
    var e := EncodeChar(c);
    assert forall k | 0 <= k < |e| :: (e + rest)[k] == e[k];
    if v < 0x80 {
    } else if v < 0x800 {
      assert Value2(e[0], e[1]) == v;
    } else if v < 0x1_0000 {
      assert Value3(e[0], e[1], e[2]) == v;
    } else {
      assert Value4(e[0], e[1], e[2], e[3]) == v;
    }
  }

  lemma DecodeStep(c: char, rest: seq<Byte>)
    ensures DecodeIgnore(EncodeChar(c) + rest) == [c] + DecodeIgnore(rest)
  {
    DecodeOneOfEncoded(c, rest);
    assert (EncodeChar(c) + rest)[|EncodeChar(c)|..] == rest;
  }

  /** Decoding what was encoded gives the text back, whatever follows it. */
  lemma {:induction false} DecodeEncoded(s: string, rest: seq<Byte>)
    ensures DecodeIgnore(Encode(s) + rest) == s + DecodeIgnore(rest)
  {
    if s == "" {
      assert Encode(s) + rest == rest;
    } else {
      assert Encode(s) == EncodeChar(s[0]) + Encode(s[1..]);
      hide *;
      Assoc(EncodeChar(s[0]), Encode(s[1..]), rest);
      DecodeStep(s[0], Encode(s[1..]) + rest);
      DecodeEncoded(s[1..], rest);
      Assoc([s[0]], s[1..], DecodeIgnore(rest));
      assert s == [s[0]] + s[1..];
    }
  }

  lemma RoundTrip(s: string)
    ensures DecodeIgnore(Encode(s)) == s
  {
    DecodeEncoded(s, []);
    assert Encode(s) + [] == Encode(s);
  }

  /** A character cut short decodes to nothing. */
  lemma CutCharVanishes(c: char, k: nat)
    requires k < |EncodeChar(c)|
    ensures DecodeIgnore(EncodeChar(c)[..k]) == ""
  {
    var bs := EncodeChar(c)[..k];
    TailsVanish(if k == 0 then [] else bs[1..], []);
    assert k > 0 ==> bs[1..] + [] == bs[1..];
  }

  /** Trailing bytes of a character, on their own, decode to nothing. */
  lemma {:induction false} TailsVanish(tails: seq<Byte>, rest: seq<Byte>)
    requires forall b | b in tails :: IsTail(b)
    ensures DecodeIgnore(tails + rest) == DecodeIgnore(rest)
    decreases |tails|
  {
    if tails == [] {
      assert tails + rest == rest;
    } else {
      assert IsTail((tails + rest)[0]);
      assert (tails + rest)[1..] == tails[1..] + rest;
      TailsVanish(tails[1..], rest);
    }
  }

  /** How many leading characters fit in k bytes. */
  function PrefixLen(s: string, k: nat): (n: nat)
    ensures n <= |s|
  {
    if s == "" || CharSize(s[0]) > k then 0 else 1 + PrefixLen(s[1..], k - CharSize(s[0]))
  }

  /** How many trailing characters are left when the first i bytes are gone. */
  function SuffixLen(s: string, i: nat): (n: nat)
    ensures n <= |s|
  {
    if s == "" then 0
    else if i == 0 then |s|
    else if i < CharSize(s[0]) then |s| - 1
    else SuffixLen(s[1..], i - CharSize(s[0]))
  }

  lemma {:induction false} SizeConcat(s: string, t: string)
    ensures Size(s + t) == Size(s) + Size(t)
  {
    if s == "" {
      assert s + t == t;
    } else {
      assert (s + t)[1..] == s[1..] + t;
      SizeConcat(s[1..], t);
    }
  }

  lemma {:induction false} PrefixFits(s: string, k: nat)
    ensures Size(s[..PrefixLen(s, k)]) <= k
  {
    var n := PrefixLen(s, k);
    if s != "" && CharSize(s[0]) <= k {
      PrefixFits(s[1..], k - CharSize(s[0]));
      assert s[..n][1..] == s[1..][..n - 1];
    }
  }

  /** No longer prefix fits. */
  lemma {:induction false} PrefixIsLongest(s: string, k: nat, m: nat)
    requires PrefixLen(s, k) < m <= |s|
    ensures Size(s[..m]) > k
  {
    assert s[..m][1..] == s[1..][..m - 1];
    if CharSize(s[0]) <= k {
      PrefixIsLongest(s[1..], k - CharSize(s[0]), m - 1);
    }
  }

  lemma SuffixCases(s: string, i: nat)
    ensures s == "" ==> Size(s) == 0
    ensures s == "" || i == 0 ==> SuffixLen(s, i) == |s|
    ensures s != "" ==> Size(s) == CharSize(s[0]) + Size(s[1..])
    ensures s != "" && 0 < i < CharSize(s[0]) ==> SuffixLen(s, i) == |s| - 1
    ensures s != "" && i >= CharSize(s[0]) ==> SuffixLen(s, i) == SuffixLen(s[1..], i - CharSize(s[0]))
  {
  }

  lemma {:induction false} SuffixFits(s: string, i: nat)
    requires i <= Size(s)
    ensures Size(s[|s| - SuffixLen(s, i)..]) <= Size(s) - i
  {
    hide *;
    SuffixCases(s, i);
    if s == "" || i == 0 {
      assert s[0..] == s;
    } else if i >= CharSize(s[0]) {
      var n := SuffixLen(s, i);
      SuffixFits(s[1..], i - CharSize(s[0]));
      assert s[|s| - n..] == s[1..][|s| - 1 - n..];
    }
  }

  /** No longer suffix fits. */
  lemma {:induction false} SuffixIsLongest(s: string, i: nat, j: nat)
    requires i <= Size(s) && j < |s| - SuffixLen(s, i)
    ensures Size(s[j..]) > Size(s) - i
  {
    if j == 0 {
      assert s[0..] == s;
    } else {
      assert s[j..] == s[1..][j - 1..];
      SuffixIsLongest(s[1..], i - CharSize(s[0]), j - 1);
    }
  }

  lemma DecodePastHead(c: char, rest: seq<Byte>, k: nat)
    requires |EncodeChar(c)| <= k <= |EncodeChar(c)| + |rest|
    ensures DecodeIgnore((EncodeChar(c) + rest)[..k]) == [c] + DecodeIgnore(rest[..k - |EncodeChar(c)|])
  {
    hide *;
    assert (EncodeChar(c) + rest)[..k] == EncodeChar(c) + rest[..k - |EncodeChar(c)|];
    DecodeStep(c, rest[..k - |EncodeChar(c)|]);
  }

  lemma DecodeCutHead(c: char, rest: seq<Byte>, k: nat)
    requires k < |EncodeChar(c)|
    ensures DecodeIgnore((EncodeChar(c) + rest)[..k]) == ""
  {
    hide *;
    assert (EncodeChar(c) + rest)[..k] == EncodeChar(c)[..k];
    CutCharVanishes(c, k);
  }

  /** Decoding the first k bytes of a text gives its longest prefix that fits in k bytes. */
  lemma {:induction false} DecodePrefix(s: string, k: nat)
    requires k <= Size(s)
    ensures DecodeIgnore(Encode(s)[..k]) == s[..PrefixLen(s, k)]
  {
    if s != "" {
      hide EncodeChar, DecodeIgnore, CharSize;
      if CharSize(s[0]) <= k {
        DecodePrefix(s[1..], k - CharSize(s[0]));
        DecodePastHead(s[0], Encode(s[1..]), k);
        assert s[..PrefixLen(s, k)] == [s[0]] + s[1..][..PrefixLen(s, k) - 1];
      } else {
        DecodeCutHead(s[0], Encode(s[1..]), k);
      }
    }
  }

  lemma TailBytes(c: char, i: nat)
    requires 0 < i <= CharSize(c)
    ensures forall b | b in EncodeChar(c)[i..] :: IsTail(b)
  {
  }

  lemma DecodeFromInside(s: string, i: nat)
    requires s != "" && 0 < i < CharSize(s[0])
    ensures DecodeIgnore(Encode(s)[i..]) == s[1..]
  {
    var head, rest := EncodeChar(s[0]), Encode(s[1..]);
    assert Encode(s) == head + rest;
    hide *;
    assert (head + rest)[i..] == head[i..] + rest;
    TailBytes(s[0], i);
    TailsVanish(head[i..], rest);
    RoundTrip(s[1..]);
  }

  /** Decoding a text without its first i bytes gives the characters that start after them. */
  lemma {:induction false} DecodeSuffix(s: string, i: nat)
    requires i <= Size(s)
    ensures DecodeIgnore(Encode(s)[i..]) == s[|s| - SuffixLen(s, i)..]
  {
    if s != "" {
      var head, rest := EncodeChar(s[0]), Encode(s[1..]);
      if i == 0 {
        assert Encode(s)[0..] == Encode(s) && s[0..] == s;
        RoundTrip(s);
      } else if i < |head| {
        DecodeFromInside(s, i);
      } else {
        assert Encode(s)[i..] == rest[i - |head|..];
        DecodeSuffix(s[1..], i - |head|);
        assert s[|s| - SuffixLen(s, i)..] == s[1..][|s| - 1 - SuffixLen(s, i)..];
      }
    }
  }
}
