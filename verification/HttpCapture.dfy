/** `_SseErrorSniffer` and `_CappedBuffer` of private_gpt/observability/http.py. */
module HttpCapture {
  import opened Wrappers

  newtype byte = x: int | 0 <= x < 256

  type Bytes = seq<byte>

  function Concat(chunks: seq<Bytes>): Bytes {
    if chunks == [] then [] else Concat(chunks[..|chunks| - 1]) + chunks[|chunks| - 1]
  }

  /* The sniffer. */

  ghost predicate At(s: Bytes, m: Bytes, i: nat) {
    i + |m| <= |s| && s[i..i + |m|] == m
  }

  ghost predicate Occurs(s: Bytes, m: Bytes) {
    exists i: nat :: At(s, m, i)
  }

  /** `s.find(m, i)` */
  function Find(s: Bytes, m: Bytes, i: nat): (r: Option<nat>)
    ensures r.Some? ==> i <= r.value && At(s, m, r.value)
    ensures forall j | i <= j < (if r.Some? then r.value else |s| + 1) :: !At(s, m, j)
    decreases |s| - i
  {
    if i + |m| > |s| then None
    else if s[i..i + |m|] == m then Some(i)
    else Find(s, m, i + 1)
  }

  const TAIL: nat := 64
  const ERROR_LENGTH: nat := 2000
  const NEWLINE: byte := 10

  /** `event: error`, `"type":"error"` and `"type": "error"`. */
  function Markers(): seq<Bytes> {
    [[101, 118, 101, 110, 116, 58, 32, 101, 114, 114, 111, 114],
     [34, 116, 121, 112, 101, 34, 58, 34, 101, 114, 114, 111, 114, 34],
     [34, 116, 121, 112, 101, 34, 58, 32, 34, 101, 114, 114, 111, 114, 34]]
  }

  ghost predicate Short(markers: seq<Bytes>) {
    forall m | m in markers :: 0 < |m| <= TAIL
  }

  datatype Sniffer = Sniffer(tail: Bytes, error: Option<Bytes>)

  function Slice(s: Bytes, from: nat, to: nat): Bytes
  {
    if from <= to <= |s| then s[from..to] else if from <= |s| < to then s[from..] else []
  }

  function Last(s: Bytes, n: nat): Bytes {
    if |s| <= n then s else s[|s| - n..]
  }

  /** The text from a marker to the end of its event, at most 2000 bytes when the event does not end. */
  function Excerpt(window: Bytes, index: nat): Bytes
    requires index <= |window|
  {
    var end := Find(window, [NEWLINE, NEWLINE], index);
    Slice(window, index, if end.Some? then end.value else index + ERROR_LENGTH)
  }

  function FirstMarker(window: Bytes, markers: seq<Bytes>): (r: Option<nat>)
    ensures r.Some? ==> exists m :: m in markers && At(window, m, r.value)
    ensures r.None? ==> forall m | m in markers :: !Occurs(window, m)
  {
    if markers == [] then None
    else if Find(window, markers[0], 0).Some? then
      assert markers[0] in markers;
      Find(window, markers[0], 0)
    else FirstMarker(window, markers[1..])
  }

  function Fed(st: Sniffer, chunk: Bytes, markers: seq<Bytes>): Sniffer {
    if st.error.Some? || chunk == [] then st
    else
      var window := st.tail + chunk;
      var index := FirstMarker(window, markers);
      if index.Some? then st.(error := Some(Excerpt(window, index.value)))
      else st.(tail := Last(window, TAIL))
  }

  class SseErrorSniffer {
    const markers: seq<Bytes>
    var tail: Bytes
    var error: Option<Bytes>

    function View(): Sniffer
      reads this
    {
      Sniffer(tail, error)
    }

    constructor ()
      ensures View() == Sniffer([], None) && markers == Markers()
    {
      markers, tail, error := Markers(), [], None;
    }

    method Feed(chunk: Bytes)
      modifies this
      ensures View() == Fed(old(View()), chunk, markers)
    {
      if error.Some? || chunk == [] { return; }
      var window := tail + chunk;
      var k := 0;
      while k < |markers|
        invariant 0 <= k <= |markers|
        invariant FirstMarker(window, markers[k..]) == FirstMarker(window, markers)
      {
        var index := Find(window, markers[k], 0);
        assert markers[k..][1..] == markers[k + 1..];
        if index.Some? {
          error := Some(Excerpt(window, index.value));
          return;
        }
        k := k + 1;
      }
      tail := Last(window, TAIL);
    }
  }

  function FedAll(chunks: seq<Bytes>, markers: seq<Bytes>): Sniffer {
    if chunks == [] then Sniffer([], None)
    else Fed(FedAll(chunks[..|chunks| - 1], markers), chunks[|chunks| - 1], markers)
  }

  ghost predicate SomeMarker(s: Bytes, markers: seq<Bytes>) {
    exists m :: m in markers && Occurs(s, m)
  }

  /** What is found in a later part of the stream is found in the stream. */
  lemma OccursInWhole(before: Bytes, s: Bytes, m: Bytes, i: nat)
    requires At(s, m, i)
    ensures At(before + s, m, |before| + i)
  {
    assert (before + s)[|before| + i..|before| + i + |m|] == s[i..i + |m|];
  }

  lemma OccursInPrefix(s: Bytes, after: Bytes, m: Bytes, i: nat)
    requires At(s + after, m, i) && i + |m| <= |s|
    ensures At(s, m, i)
  {
    assert (s + after)[i..i + |m|] == s[i..i + |m|];
  }

  /** A marker that is not within the old stream is within its last bytes and the new chunk. */
  lemma NewOneIsInWindow(stream: Bytes, chunk: Bytes, m: Bytes, i: nat)
    requires |m| <= TAIL && At(stream + chunk, m, i) && i + |m| > |stream|
    ensures Occurs(Last(stream, TAIL) + chunk, m)
  {
    var tail := Last(stream, TAIL);
    var skipped := |stream| - |tail|;
    assert (tail + chunk)[i - skipped..i - skipped + |m|] == (stream + chunk)[i..i + |m|];
    assert At(tail + chunk, m, i - skipped);
  }

  lemma WindowFinds(stream: Bytes, chunk: Bytes, m: Bytes)
    requires |m| <= TAIL && !Occurs(stream, m)
    ensures Occurs(Last(stream, TAIL) + chunk, m) <==> Occurs(stream + chunk, m)
  {
    var tail := Last(stream, TAIL);
    var skipped := stream[..|stream| - |tail|];
    assert skipped + tail == stream;
    if i: nat :| At(tail + chunk, m, i) {
      OccursInWhole(skipped, tail + chunk, m, i);
      assert skipped + (tail + chunk) == stream + chunk;
    }
    if i: nat :| At(stream + chunk, m, i) {
      if i + |m| <= |stream| {
        OccursInPrefix(stream, chunk, m, i);
      } else {
        NewOneIsInWindow(stream, chunk, m, i);
      }
    }
  }

  lemma LastOfLast(stream: Bytes, chunk: Bytes)
    ensures Last(Last(stream, TAIL) + chunk, TAIL) == Last(stream + chunk, TAIL)
  {
  }

  /** However a stream is cut into chunks, an error is noted exactly when some marker occurs in it, and
      until then the tail is the end of the stream. */
  lemma {:induction false} ErrorIffMarker(chunks: seq<Bytes>, markers: seq<Bytes>)
    requires Short(markers)
    ensures FedAll(chunks, markers).error.Some? <==> SomeMarker(Concat(chunks), markers)
    ensures FedAll(chunks, markers).error.None? ==> FedAll(chunks, markers).tail == Last(Concat(chunks), TAIL)
  {
    if chunks == [] {
      assert !SomeMarker([], markers);
    } else {
      var n := |chunks| - 1;
      var stream, chunk, st := Concat(chunks[..n]), chunks[n], FedAll(chunks[..n], markers);
      ErrorIffMarker(chunks[..n], markers);
      if chunk == [] {
        assert stream + chunk == stream;
      } else if st.error.Some? {
        StillOccurs(stream, chunk, markers);
      } else {
        forall m | m in markers ensures Occurs(st.tail + chunk, m) <==> Occurs(stream + chunk, m) {
          WindowFinds(stream, chunk, m);
        }
        var index := FirstMarker(st.tail + chunk, markers);
        if index.Some? {
          var m :| m in markers && At(st.tail + chunk, m, index.value);
          assert Occurs(st.tail + chunk, m);
        }
        LastOfLast(stream, chunk);
      }
    }
  }

  lemma StillOccurs(stream: Bytes, chunk: Bytes, markers: seq<Bytes>)
    requires SomeMarker(stream, markers)
    ensures SomeMarker(stream + chunk, markers)
  {
    var m :| m in markers && Occurs(stream, m);
    var i: nat :| At(stream, m, i);
    assert (stream + chunk)[i..i + |m|] == m;
    assert At(stream + chunk, m, i);
  }

  const BLANK_LINE: Bytes := [NEWLINE, NEWLINE]

  /** The text stays within one event of the stream: it ends where the event does, or after 2000 bytes of an
      event that has not ended, or with all that has come of it. */
  ghost predicate IsExcerpt(stream: Bytes, text: Bytes, i: nat) {
    && At(stream, text, i) && !Occurs(text, BLANK_LINE)
    && (At(stream, BLANK_LINE, i + |text|)
        || (&& !Occurs(stream[i..], BLANK_LINE)
            && |text| == if |stream| - i > ERROR_LENGTH then ERROR_LENGTH else |stream| - i))
  }

  lemma AtInner(s: Bytes, m: Bytes, from: nat, to: nat, i: nat)
    requires from <= to <= |s| && At(s[from..to], m, i)
    ensures At(s, m, from + i)
  {
    var inner, whole := s[from..to][i..i + |m|], s[from + i..from + i + |m|];
    assert forall k | 0 <= k < |m| :: inner[k] == s[from..to][i + k] == whole[k];
    assert inner == whole;
  }

  lemma ExcerptIs(window: Bytes, index: nat)
    requires index <= |window|
    ensures IsExcerpt(window, Excerpt(window, index), index)
  {
    var end, text := Find(window, BLANK_LINE, index), Excerpt(window, index);
    assert index + |text| <= |window| && text == window[index..index + |text|];
    forall j: nat ensures !At(text, BLANK_LINE, j) {
      if At(text, BLANK_LINE, j) { AtInner(window, BLANK_LINE, index, index + |text|, j); }
    }
    if end.None? {
      assert window[index..|window|] == window[index..];
      forall j: nat ensures !At(window[index..], BLANK_LINE, j) {
        if At(window[index..], BLANK_LINE, j) { AtInner(window, BLANK_LINE, index, |window|, j); }
      }
    }
  }

  /** The excerpt at a marker begins with the marker. */
  lemma ExcerptAtMarker(window: Bytes, m: Bytes, index: nat)
    requires At(window, m, index) && |m| <= TAIL && NEWLINE !in m
    ensures m <= Excerpt(window, index)
  {
    var end := Find(window, BLANK_LINE, index);
    forall k | index <= k < index + |m| ensures window[k] != NEWLINE {
      assert window[index..index + |m|][k - index] in m;
    }
    if end.Some? {
      assert window[end.value..end.value + 2][0] == NEWLINE;
      assert end.value >= index + |m|;
    }
  }

  lemma ExcerptInWhole(before: Bytes, window: Bytes, text: Bytes, i: nat)
    requires IsExcerpt(window, text, i)
    ensures IsExcerpt(before + window, text, |before| + i)
  {
    hide Occurs;
    OccursInWhole(before, window, text, i);
    assert (before + window)[|before| + i..] == window[i..];
    if At(window, BLANK_LINE, i + |text|) {
      OccursInWhole(before, window, BLANK_LINE, i + |text|);
    }
  }

  /** The text begins with a marker and stays within its event. */
  ghost predicate Notes(stream: Bytes, text: Bytes, markers: seq<Bytes>) {
    (exists i: nat :: IsExcerpt(stream, text, i)) && exists m :: m in markers && m <= text
  }

  lemma WindowIsSuffix(stream: Bytes, chunk: Bytes)
    ensures stream[..|stream| - |Last(stream, TAIL)|] + (Last(stream, TAIL) + chunk) == stream + chunk
  {
    assert stream[..|stream| - |Last(stream, TAIL)|] + Last(stream, TAIL) == stream;
  }

  lemma NotedNow(stream: Bytes, chunk: Bytes, markers: seq<Bytes>, index: nat)
    requires Short(markers) && (forall m | m in markers :: NEWLINE !in m)
    requires FirstMarker(Last(stream, TAIL) + chunk, markers) == Some(index)
    ensures index <= |Last(stream, TAIL) + chunk|
    ensures Notes(stream + chunk, Excerpt(Last(stream, TAIL) + chunk, index), markers)
  {
    hide Excerpt, IsExcerpt, Last;
    var window := Last(stream, TAIL) + chunk;
    var m :| m in markers && At(window, m, index);
    ExcerptAtMarker(window, m, index);
    ExcerptIs(window, index);
    WindowIsSuffix(stream, chunk);
    var skipped := stream[..|stream| - |Last(stream, TAIL)|];
    ExcerptInWhole(skipped, window, Excerpt(window, index), index);
  }

  /** The error is noted with the first chunk that brings a marker. It begins with a marker, and ends with its
      event, or after 2000 bytes or with that chunk when the event goes on. */
  lemma {:induction false} ErrorIsTheEvent(chunks: seq<Bytes>, markers: seq<Bytes>) returns (n: nat)
    requires Short(markers) && (forall m | m in markers :: NEWLINE !in m) && FedAll(chunks, markers).error.Some?
    ensures n < |chunks| && !SomeMarker(Concat(chunks[..n]), markers)
    ensures Notes(Concat(chunks[..n + 1]), FedAll(chunks, markers).error.value, markers)
  {
    hide Excerpt, Notes, Last, FirstMarker, SomeMarker, Short;
    n := |chunks| - 1;
    var stream, chunk, st := Concat(chunks[..n]), chunks[n], FedAll(chunks[..n], markers);
    ErrorIffMarker(chunks[..n], markers);
    if st.error.Some? {
      var k := ErrorIsTheEvent(chunks[..n], markers);
      assert chunks[..n][..k] == chunks[..k] && chunks[..n][..k + 1] == chunks[..k + 1];
      n := k;
    } else {
      assert chunks[..n + 1] == chunks;
      NotedNow(stream, chunk, markers, FirstMarker(st.tail + chunk, markers).value);
    }
  }

  /** For the program's own markers: two ways to cut up one stream note an error alike, exactly when one
      of the markers is in it. */
  lemma ChunkingDoesNotMatter(a: seq<Bytes>, b: seq<Bytes>)
    requires Concat(a) == Concat(b)
    ensures FedAll(a, Markers()).error.Some? <==> FedAll(b, Markers()).error.Some?
    ensures FedAll(a, Markers()).error.Some? <==> SomeMarker(Concat(a), Markers())
  {
    ErrorIffMarker(a, Markers());
    ErrorIffMarker(b, Markers());
  }

  /* The capped buffer. */

  class CappedBuffer {
    const limit: int
    var chunks: seq<Bytes>
    var kept: nat
    var total: nat
    ghost var stream: Bytes

    ghost predicate Valid()
      reads this
    {
      && total == |stream| && kept == |Concat(chunks)|
      && Concat(chunks) == Capped(limit, stream)
    }

    constructor (limit: int)
      ensures Valid() && this.limit == limit && stream == []
    {
      this.limit := limit;
      chunks, kept, total, stream := [], 0, 0, [];
    }

    method Add(chunk: Bytes)
      requires Valid()
      modifies this
      ensures Valid() && stream == old(stream) + chunk
    {
      total := total + |chunk|;
      var room := limit - kept;
      if room > 0 && chunk != [] {
        var piece := if room < |chunk| then chunk[..room] else chunk;
        ghost var before := chunks;
        chunks := chunks + [piece];
        kept := kept + |piece|;
        assert chunks[..|before|] == before;
      }
      stream := stream + chunk;
    }

    predicate Truncated()
      reads this
    {
      total > kept
    }

    lemma TruncatedIffOverLimit()
      requires Valid()
      ensures Truncated() <==> |stream| > (if limit < 0 then 0 else limit)
      ensures Concat(chunks) <= stream
    {
    }
  }

  /** The first bytes, up to the limit. */
  function Capped(limit: int, s: Bytes): Bytes {
    if limit <= 0 then [] else if |s| <= limit then s else s[..limit]
  }

}
