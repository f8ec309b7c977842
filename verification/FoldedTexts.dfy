/** What tool results hold after `_fold_mid_conv_system_into_tool_results`, said of the blocks themselves. */
module FoldedTexts {
  import opened Sequences
  import opened SystemMessages
  import opened InlineTexts

  /** The strings at `idx`, which are all that are not empty, in order. */
  ghost predicate KeptAt(all: seq<string>, idx: seq<nat>, kept: seq<string>) {
    && |kept| == |idx| && Increasing(idx)
    && (forall j | 0 <= j < |idx| :: idx[j] < |all| && all[idx[j]] != "" && kept[j] == all[idx[j]])
    && (forall k | 0 <= k < |all| && all[k] != "" :: k in idx)
  }

  /** An inline block's text: its texts that are not empty, on lines of their own. */
  ghost predicate Gives(b: Block, text: string) {
    b.Inline? && exists idx, kept :: KeptAt(b.texts, idx, kept) && kept != [] && text == JoinLines(kept)
  }

  /** An inline block with some text. */
  ghost predicate HasInline(b: Block) {
    b.Inline? && exists k :: 0 <= k < |b.texts| && b.texts[k] != ""
  }

  /** The texts of the blocks at `idx`, which are all inline blocks with some text, in order. */
  ghost predicate GivenAt(blocks: seq<Block>, idx: seq<nat>, texts: seq<string>) {
    && |texts| == |idx| && Increasing(idx)
    && (forall j | 0 <= j < |idx| :: idx[j] < |blocks| && Gives(blocks[idx[j]], texts[j]))
    && (forall k | 0 <= k < |blocks| && HasInline(blocks[k]) :: k in idx)
  }

  function Followed(content: string, texts: seq<string>): string {
    if texts == [] then content else Followed(content, texts[..|texts| - 1]) + "\n\n" + texts[|texts| - 1]
  }

  function AsParts(texts: seq<string>): (r: seq<Part>)
    ensures |r| == |texts| && forall k | 0 <= k < |texts| :: r[k] == TextPart(texts[k])
  {
    seq(|texts|, k requires 0 <= k < |texts| => TextPart(texts[k]))
  }

  /** The tool result with `before`, joined by line breaks, in front of its output and each text of `after`
      behind it, all apart from one another. */
  ghost predicate Receives(b: Block, before: seq<string>, after: seq<string>, r: Block) {
    b.ToolResult? && r.ToolResult? && r.id == b.id &&
    match b.output
    case Plain(content) =>
      r.output == Plain(Followed((if before == [] then "" else JoinLines(before) + "\n\n") + content, after))
    case Parts(parts) =>
      r.output == Parts((if before == [] then [] else [TextPart(JoinLines(before))]) + parts + AsParts(after))
  }

  /* A block's own text. */

  function AsTexts(texts: seq<string>): (r: seq<Block>)
    ensures |r| == |texts| && forall k | 0 <= k < |texts| :: r[k] == Text(texts[k])
  {
    seq(|texts|, k requires 0 <= k < |texts| => Text(texts[k]))
  }

  lemma {:induction false} NonEmptyAreTexts(texts: seq<string>)
    ensures NonEmpty(texts) == TextsOf(AsTexts(texts))
  {
    if texts != [] {
      NonEmptyAreTexts(texts[1..]);
      assert AsTexts(texts)[1..] == AsTexts(texts[1..]);
    }
  }

  lemma NonEmptyAreKept(texts: seq<string>) returns (idx: seq<nat>)
    ensures KeptAt(texts, idx, NonEmpty(texts))
  {
    NonEmptyAreTexts(texts);
    idx := TextsOfAt(AsTexts(texts));
    forall k | 0 <= k < |texts| && texts[k] != "" ensures k in idx {
      assert HasText(AsTexts(texts)[k]);
    }
  }

  lemma JoinedIsText(texts: seq<string>)
    requires texts != [] && forall t | t in texts :: t != ""
    ensures JoinLines(texts) != ""
  {
    assert texts[0] in texts;
  }

  lemma OwnIsGiven(b: Block)
    ensures HasInline(b) ==> |Own(b)| == 1 && Gives(b, Own(b)[0])
    ensures !HasInline(b) ==> Own(b) == []
  {
    if b.Inline? {
      var kept := NonEmpty(b.texts);
      var idx := NonEmptyAreKept(b.texts);
      if HasInline(b) {
        var k :| 0 <= k < |b.texts| && b.texts[k] != "";
        assert k in idx;
        JoinedIsText(kept);
      }
    }
  }

  /* The texts of a stretch of blocks. */

  lemma {:induction false} TextsOfOneMore(blocks: seq<Block>, b: Block)
    ensures Texts(blocks + [b]) == Texts(blocks) + Own(b)
  {
    hide Own;
    if blocks == [] {
      assert blocks + [b] == [b] && [b][1..] == [] && [] + Own(b) == Own(b) == Own(b) + [];
    } else {
      assert (blocks + [b])[1..] == blocks[1..] + [b];
      TextsOfOneMore(blocks[1..], b);
      Assoc(Own(blocks[0]), Texts(blocks[1..]), Own(b));
    }
  }

  lemma GivenAtMore(blocks: seq<Block>, b: Block, idx: seq<nat>, texts: seq<string>)
    requires GivenAt(blocks, idx, texts)
    ensures !HasInline(b) ==> GivenAt(blocks + [b], idx, texts)
    ensures forall text | HasInline(b) && Gives(b, text) :: GivenAt(blocks + [b], idx + [|blocks|], texts + [text])
  {
    hide HasInline, Gives;
    assert forall k | 0 <= k < |blocks| :: (blocks + [b])[k] == blocks[k];
    assert (idx + [|blocks|])[|idx|] == |blocks|;
  }

  lemma {:induction false} TextsAreGiven(blocks: seq<Block>) returns (idx: seq<nat>)
    ensures GivenAt(blocks, idx, Texts(blocks))
  {
    hide GivenAt, Texts, HasInline, Gives, Own;
    if blocks == [] {
      idx := [];
      NoneGiven();
    } else {
      var n := |blocks| - 1;
      assert blocks == blocks[..n] + [blocks[n]];
      idx := TextsAreGiven(blocks[..n]);
      TextsOfOneMore(blocks[..n], blocks[n]);
      GivenAtMore(blocks[..n], blocks[n], idx, Texts(blocks[..n]));
      OwnIsGiven(blocks[n]);
      if HasInline(blocks[n]) {
        idx := idx + [n];
        assert Own(blocks[n]) == [Own(blocks[n])[0]];
      } else {
        assert Texts(blocks[..n]) + [] == Texts(blocks[..n]);
      }
    }
  }

  lemma NoneGiven()
    ensures Texts([]) == [] && GivenAt([], [], [])
  {
  }

  /* What a tool result holds in the end. */

  lemma {:induction false} FollowedFirst(content: string, text: string, more: seq<string>)
    ensures Followed(content, [text] + more) == Followed(content + "\n\n" + text, more)
    decreases |more|
  {
    if more == [] {
      assert [text] + more == [text] && [text][..0] == [];
    } else {
      var n := |more| - 1;
      FollowedFirst(content, text, more[..n]);
      assert ([text] + more)[..n + 1] == [text] + more[..n] && ([text] + more)[n + 1] == more[n];
      assert Followed(content, [text] + more) == Followed(content, [text] + more[..n]) + "\n\n" + more[n];
    }
  }

  lemma {:induction false} AppendedPlain(content: string, texts: seq<string>)
    ensures AppendAll(Plain(content), texts) == Plain(Followed(content, texts))
    decreases |texts|
  {
    if texts != [] {
      AppendedPlain(content + "\n\n" + texts[0], texts[1..]);
      FollowedFirst(content, texts[0], texts[1..]);
      assert [texts[0]] + texts[1..] == texts;
    }
  }

  lemma {:induction false} AppendedParts(parts: seq<Part>, texts: seq<string>)
    ensures AppendAll(Parts(parts), texts) == Parts(parts + AsParts(texts))
    decreases |texts|
  {
    if texts == [] {
      assert parts + AsParts(texts) == parts;
    } else {
      AppendedParts(parts + [TextPart(texts[0])], texts[1..]);
      assert [TextPart(texts[0])] + AsParts(texts[1..]) == AsParts(texts);
      Assoc(parts, [TextPart(texts[0])], AsParts(texts[1..]));
    }
  }

  lemma PlacedReceives(b: Block, before: seq<string>, after: seq<string>)
    requires b.ToolResult?
    ensures Receives(b, before, after, Placed(Place(b, before, after)))
  {
    hide Followed, AppendAll, JoinLines;
    match b.output {
      case Plain(content) =>
        assert "" + content == content;
        AppendedPlain((if before == [] then "" else JoinLines(before) + "\n\n") + content, after);
      case Parts(parts) =>
        assert [] + parts == parts;
        AppendedParts((if before == [] then [] else [TextPart(JoinLines(before))]) + parts, after);
    }
  }

  lemma {:induction false} LeadIsTexts(blocks: seq<Block>, n: nat)
    requires n <= |blocks| && NoResult(blocks[..n]) && (n == |blocks| || blocks[n].ToolResult?)
    ensures Lead(blocks) == Texts(blocks[..n])
  {
    if n > 0 {
      assert blocks[..n][0] == blocks[0] && blocks[..n][1..] == blocks[1..][..n - 1];
      LeadIsTexts(blocks[1..], n - 1);
    }
  }

  /** A tool result comes out in its place with the texts of the inline blocks up to the next tool result
      behind its output; the first one also with those before it in front. */
  lemma ToolResultReceives(blocks: seq<Block>, r: nat, end: nat)
    returns (before: seq<string>, atBefore: seq<nat>, after: seq<string>, atAfter: seq<nat>)
    requires r < end <= |blocks| && blocks[r].ToolResult? && NoResult(blocks[r + 1..end])
    requires end == |blocks| || blocks[end].ToolResult?
    ensures if NoResult(blocks[..r]) then GivenAt(blocks[..r], atBefore, before) else before == []
    ensures GivenAt(blocks[r + 1..end], atAfter, after)
    ensures var out, k := Folded(Plan([], false, blocks)), |Stay(blocks[..r])|;
            k < |out| && Receives(blocks[r], before, after, out[k])
  {
    hide Plan, Folded, Stay, Texts, Lead, Receives, Placed, GivenAt, NoResult;
    ResultGets(blocks, r);
    before, atBefore := [], [];
    if NoResult(blocks[..r]) {
      before := Texts(blocks[..r]);
      atBefore := TextsAreGiven(blocks[..r]);
    }
    after := Texts(blocks[r + 1..end]);
    atAfter := TextsAreGiven(blocks[r + 1..end]);
    var rest := blocks[r + 1..];
    assert rest[..end - r - 1] == blocks[r + 1..end];
    LeadIsTexts(rest, end - r - 1);
    PlacedReceives(blocks[r], before, after);
  }

  lemma {:induction false} StaysAt(blocks: seq<Block>, i: nat)
    requires i < |blocks| && !blocks[i].Inline?
    ensures |Stay(blocks[..i])| < |Stay(blocks)| && Stay(blocks)[|Stay(blocks[..i])|] == blocks[i]
  {
    if i > 0 {
      assert blocks[..i] == [blocks[0]] + blocks[1..][..i - 1];
      StaysAt(blocks[1..], i - 1);
    } else {
      assert Stay(blocks[..0]) == [];
    }
  }

  lemma {:induction false} PlacedBlocksAt(plan: seq<Place>, k: nat)
    ensures |PlacedBlocks(plan)| == |plan| == |Folded(plan)|
    ensures k < |plan| ==> PlacedBlocks(plan)[k] == plan[k].block
  {
    if plan != [] {
      PlacedBlocksAt(plan[1..], if k == 0 then 0 else k - 1);
    }
  }

  /** Every other block comes out in its place as it was, and there is nothing else. */
  lemma OthersComeOut(blocks: seq<Block>, i: nat)
    requires i < |blocks| && !blocks[i].Inline? && !blocks[i].ToolResult?
    ensures var out, k := Folded(Plan([], false, blocks)), |Stay(blocks[..i])|;
            |out| == |Stay(blocks)| && k < |out| && out[k] == blocks[i]
  {
    var plan, k := Plan([], false, blocks), |Stay(blocks[..i])|;
    BlocksStay([], false, blocks);
    StaysAt(blocks, i);
    PlacedBlocksAt(plan, k);
    FoldedAt(plan, k);
  }
}
