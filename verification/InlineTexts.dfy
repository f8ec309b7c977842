/** What `SystemMessages` hands on, said of the blocks themselves: which texts, and what a tool result
    holds in the end. */
module InlineTexts {
  import opened Sequences
  import opened SystemMessages

  ghost predicate Increasing(idx: seq<nat>) {
    forall i, j | 0 <= i < j < |idx| :: idx[i] < idx[j]
  }

  ghost predicate HasText(b: Block)
    ensures HasText(b) ==> b.Text?
  {
    b.Text? && b.text != ""
  }

  /** The texts of the blocks at `idx`, which are all text blocks that are not empty, in order. */
  ghost predicate TextsAt(blocks: seq<Block>, idx: seq<nat>, texts: seq<string>) {
    && |texts| == |idx| && Increasing(idx)
    && (forall j | 0 <= j < |idx| :: idx[j] < |blocks| && HasText(blocks[idx[j]]) && texts[j] == blocks[idx[j]].text)
    && (forall k | 0 <= k < |blocks| && HasText(blocks[k]) :: k in idx)
  }

  ghost predicate Says(content: Content, texts: seq<string>) {
    match content
    case Str(text) => texts == (if text == "" then [] else [text])
    case Blocks(blocks) => exists idx :: TextsAt(blocks, idx, texts)
  }

  lemma {:induction false} TextsOfMore(blocks: seq<Block>, b: Block)
    ensures TextsOf(blocks + [b]) == TextsOf(blocks) + (if b.Text? && b.text != "" then [b.text] else [])
  {
    if blocks == [] {
      assert blocks + [b] == [b] && [b][1..] == [];
    } else {
      assert (blocks + [b])[1..] == blocks[1..] + [b];
      TextsOfMore(blocks[1..], b);
    }
  }

  lemma TextsAtMore(blocks: seq<Block>, b: Block, idx: seq<nat>, texts: seq<string>)
    requires TextsAt(blocks, idx, texts)
    ensures !HasText(b) ==> TextsAt(blocks + [b], idx, texts)
    ensures HasText(b) ==> TextsAt(blocks + [b], idx + [|blocks|], texts + [b.text])
  {
    hide HasText;
    assert forall k | 0 <= k < |blocks| :: (blocks + [b])[k] == blocks[k];
    assert (idx + [|blocks|])[|idx|] == |blocks|;
  }

  lemma {:induction false} TextsOfAt(blocks: seq<Block>) returns (idx: seq<nat>)
    ensures TextsAt(blocks, idx, TextsOf(blocks))
  {
    hide TextsAt, TextsOf;
    if blocks == [] {
      idx := [];
      NoTexts();
    } else {
      var n := |blocks| - 1;
      assert blocks == blocks[..n] + [blocks[n]];
      idx := TextsOfAt(blocks[..n]);
      TextsOfMore(blocks[..n], blocks[n]);
      TextsAtMore(blocks[..n], blocks[n], idx, TextsOf(blocks[..n]));
      if HasText(blocks[n]) {
        idx := idx + [n];
      } else {
        assert TextsOf(blocks[..n]) + [] == TextsOf(blocks[..n]);
      }
    }
  }

  lemma NoTexts()
    ensures TextsOf([]) == [] && TextsAt([], [], [])
  {
  }

  lemma SystemTextsAreSaid(content: Content)
    ensures Says(content, SystemTexts(content))
  {
    if content.Blocks? {
      var idx := TextsOfAt(content.blocks);
    }
  }

  /** What one message contributes for the user side: a user's blocks, or a system message's texts as one
      inline block. */
  ghost predicate Reads(m: Message, part: seq<Block>) {
    match m.role
    case User => if m.content.Str? then part == [Text(m.content.text)] else part == m.content.blocks
    case Assistant => part == []
    case System => exists texts :: Says(m.content, texts) && part == if texts == [] then [] else [Inline(texts)]
  }

  ghost predicate AllRead(messages: seq<Message>, parts: seq<seq<Block>>) {
    |parts| == |messages| && forall i | 0 <= i < |messages| :: Reads(messages[i], parts[i])
  }

  function Flat(parts: seq<seq<Block>>): seq<Block> {
    if parts == [] then [] else Flat(parts[..|parts| - 1]) + parts[|parts| - 1]
  }

  lemma ReadingReads(m: Message)
    ensures Reads(m, Reading(m))
  {
    SystemTextsAreSaid(m.content);
  }

  lemma {:induction false} StreamIsRead(messages: seq<Message>) returns (parts: seq<seq<Block>>)
    ensures AllRead(messages, parts) && Flat(parts) == Stream(messages)
  {
    if messages == [] {
      parts := [];
    } else {
      var n := |messages| - 1;
      var before := StreamIsRead(messages[..n]);
      parts := before + [Reading(messages[n])];
      ReadingReads(messages[n]);
      assert parts[..n] == before;
    }
  }

  /** Every system text is kept once and in its place: what goes to the front of the system list, what the
      new messages say to the user side and what goes to the end of the list are, in this order, what the
      old messages said. */
  lemma NoTextIsLost(messages: seq<Message>) returns (olds: seq<seq<Block>>, news: seq<seq<Block>>)
    ensures AllRead(messages, olds) && AllRead(After(messages).messages, news)
    ensures After(messages).lead + (Flat(news) + After(messages).pending) == Flat(olds)
    ensures forall m | m in After(messages).messages :: m.role != System
  {
    NothingLost(messages);
    olds := StreamIsRead(messages);
    news := StreamIsRead(After(messages).messages);
  }

  /** Texts right behind a user message stay with that message. */
  lemma TextsStayWithTheUserBefore(messages: seq<Message>, i: nat) returns (texts: seq<string>)
    requires i < |messages| && messages[i].role == System && EndsWithUser(NonSystem(messages[..i]))
    ensures Says(messages[i].content, texts)
    ensures texts != [] ==> Holds(After(messages), |NonSystem(messages[..i])| - 1, Inline(texts))
  {
    texts := SystemTexts(messages[i].content);
    SystemTextsAreSaid(messages[i].content);
    if texts != [] { StaysWithTheUserBefore(messages, i); }
  }

  /** Texts behind an assistant message go to the next user message. */
  lemma TextsGoToTheUserAfter(messages: seq<Message>, i: nat, j: nat) returns (texts: seq<string>)
    requires i < j < |messages| && messages[i].role == System
    requires NonSystem(messages[..i]) != [] && !EndsWithUser(NonSystem(messages[..i]))
    requires messages[j].role == User && forall k | i < k < j :: messages[k].role != User
    ensures Says(messages[i].content, texts)
    ensures texts != [] ==> Holds(After(messages), |NonSystem(messages[..j])|, Inline(texts))
  {
    texts := SystemTexts(messages[i].content);
    SystemTextsAreSaid(messages[i].content);
    if texts != [] { GoesToTheUserAfter(messages, i, j); }
  }
}
