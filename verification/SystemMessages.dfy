/** Inline system messages of private_gpt/chat/input_models.py: `extract_system_messages` and
    `_fold_mid_conv_system_into_tool_results`. */
module SystemMessages {
  import opened Sequences
  import opened Wrappers

  datatype Role = System | User | Assistant

  datatype Part = TextPart(text: string) | OtherPart(id: nat)

  datatype ResultContent = Plain(text: string) | Parts(parts: seq<Part>)

  /** `Inline` is a MidConvSystemBlock, of which only the text blocks matter. */
  datatype Block =
    | Text(text: string)
    | Inline(texts: seq<string>)
    | ToolResult(id: string, output: ResultContent)
    | Other(other: nat)

  datatype Content = Str(text: string) | Blocks(blocks: seq<Block>)

  datatype Message = Message(role: Role, content: Content)

  /* Texts of a system message. */

  function TextsOf(blocks: seq<Block>): (r: seq<string>)
    ensures forall t | t in r :: t != ""
  {
    if blocks == [] then []
    else
      var rest := TextsOf(blocks[1..]);
      if blocks[0].Text? && blocks[0].text != "" then [blocks[0].text] + rest else rest
  }

  function SystemTexts(content: Content): (r: seq<string>)
    ensures forall t | t in r :: t != ""
  {
    match content
    case Str(text) => if text == "" then [] else [text]
    case Blocks(blocks) => TextsOf(blocks)
  }

  function AsBlocks(content: Content): seq<Block> {
    match content
    case Str(text) => [Text(text)]
    case Blocks(blocks) => blocks
  }

  /* extract_system_messages */

  ghost predicate AllInline(blocks: seq<Block>) {
    forall b | b in blocks :: b.Inline?
  }

  /** The loop's lists. `lead` holds the groups of texts before any other message. */
  datatype Extraction = Extraction(lead: seq<Block>, messages: seq<Message>, pending: seq<Block>)

  predicate EndsWithUser(messages: seq<Message>) {
    messages != [] && messages[|messages| - 1].role == User
  }

  function Step(st: Extraction, m: Message): Extraction {
    if m.role != System then
      if st.pending != [] && m.role == User then
        st.(messages := st.messages + [m.(content := Blocks(st.pending + AsBlocks(m.content)))], pending := [])
      else
        st.(messages := st.messages + [m])
    else
      var texts := SystemTexts(m.content);
      if texts == [] then st
      else if st.messages == [] then st.(lead := st.lead + [Inline(texts)])
      else if EndsWithUser(st.messages) then
        var n := |st.messages| - 1;
        var prev := st.messages[n];
        st.(messages := st.messages[..n] + [prev.(content := Blocks(AsBlocks(prev.content) + [Inline(texts)]))])
      else st.(pending := st.pending + [Inline(texts)])
  }

  function After(messages: seq<Message>): Extraction {
    if messages == [] then Extraction([], [], [])
    else Step(After(messages[..|messages| - 1]), messages[|messages| - 1])
  }

  /** What the groups add to the system list, one entry each. */
  function Entries(groups: seq<Block>): seq<string> {
    if groups == [] then []
    else
      var n := |groups| - 1;
      Entries(groups[..n]) + (if groups[n].Inline? then [JoinLines(groups[n].texts)] else [])
  }

  ghost predicate Reached(done: seq<Message>, out: seq<Message>, pending: seq<Block>,
                          given: seq<string>, system: seq<string>) {
    var st := After(done);
    out == st.messages && pending == st.pending && system == given + Entries(st.lead)
  }

  ghost predicate Took(st: Extraction, m: Message, was: seq<string>,
                       out: seq<Message>, pending: seq<Block>, system: seq<string>) {
    var texts := SystemTexts(m.content);
    && out == Step(st, m).messages && pending == Step(st, m).pending
    && system == if m.role == System && texts != [] && st.messages == [] then was + [JoinLines(texts)] else was
  }

  lemma ReachedStep(all: seq<Message>, i: nat, st: Extraction, given: seq<string>, was: seq<string>,
                    out: seq<Message>, pending: seq<Block>, system: seq<string>)
    requires i < |all| && Reached(all[..i], st.messages, st.pending, given, was)
    requires Took(st, all[i], was, out, pending, system)
    ensures Reached(all[..i + 1], out, pending, given, system)
  {
    hide After, SystemTexts, Entries;
    AfterStep(all, i);
    EntriesStep(given, After(all[..i]).lead, SystemTexts(all[i].content));
  }

  lemma ReachedEnd(all: seq<Message>, out: seq<Message>, pending: seq<Block>, given: seq<string>, system: seq<string>)
    requires Reached(all, out, pending, given, system)
    ensures AllInline(pending) && system + Entries(pending) == given + Entries(After(all).lead + pending)
  {
    PendingAreGroups(all);
    EntriesConcat(After(all).lead, pending);
    Assoc(given, Entries(After(all).lead), Entries(pending));
  }

  class MessagesInput {
    var system: seq<string>
    var messages: seq<Message>

    method ExtractSystemMessages()
      modifies this
      ensures var done := After(old(messages));
              messages == done.messages && system == old(system) + Entries(done.lead + done.pending)
    {
      if forall m | m in messages :: m.role != System {
        NothingToExtract(messages);
        return;
      }
      ghost var all, given := messages, system;
      var out, pending, i := [], [], 0;
      while i < |messages|
        invariant 0 <= i <= |messages| && messages == all
        invariant Reached(all[..i], out, pending, given, system)
      {
        ghost var was := system;
        ghost var st := Extraction([], out, pending);
        out, pending := Take(messages[i], out, pending);
        ReachedStep(all, i, st, given, was, out, pending, system);
        i := i + 1;
      }
      assert all[..|all|] == all;
      ReachedEnd(all, out, pending, given, system);
      AddPending(pending);
      messages := out;
    }

    /** One round of the loop. */
    method Take(msg: Message, out: seq<Message>, pending: seq<Block>)
      returns (newOut: seq<Message>, newPending: seq<Block>)
      modifies this`system
      ensures Took(Extraction([], out, pending), msg, old(system), newOut, newPending, system)
    {
      newOut, newPending := out, pending;
      if msg.role != System {
        if pending != [] && msg.role == User {
          newOut := out + [msg.(content := Blocks(pending + AsBlocks(msg.content)))];
          newPending := [];
        } else {
          newOut := out + [msg];
        }
        return;
      }
      var texts := SystemTexts(msg.content);
      if texts == [] { return; }
      if out == [] {
        system := system + [JoinLines(texts)];
      } else if out[|out| - 1].role == User {
        var prev := out[|out| - 1];
        newOut := out[..|out| - 1] + [prev.(content := Blocks(AsBlocks(prev.content) + [Inline(texts)]))];
      } else {
        newPending := pending + [Inline(texts)];
      }
    }

    /** Texts with no user message after them go to the system list. */
    method AddPending(pending: seq<Block>)
      requires AllInline(pending)
      modifies this`system
      ensures system == old(system) + Entries(pending)
    {
      ghost var given := system;
      for k := 0 to |pending|
        invariant system == given + Entries(pending[..k])
      {
        system := system + [JoinLines(pending[k].texts)];
        EntriesStep(given, pending[..k], pending[k].texts);
        assert pending[..k + 1] == pending[..k] + [Inline(pending[k].texts)];
      }
      assert pending[..|pending|] == pending;
    }
  }

  lemma AfterStep(messages: seq<Message>, i: nat)
    requires i < |messages|
    ensures After(messages[..i + 1]) == Step(After(messages[..i]), messages[i])
  {
    assert messages[..i + 1][..i] == messages[..i];
  }

  lemma EntriesStep(given: seq<string>, groups: seq<Block>, texts: seq<string>)
    ensures given + Entries(groups + [Inline(texts)]) == given + Entries(groups) + [JoinLines(texts)]
  {
    assert (groups + [Inline(texts)])[..|groups|] == groups;
  }

  lemma {:induction false} EntriesConcat(a: seq<Block>, b: seq<Block>)
    ensures Entries(a + b) == Entries(a) + Entries(b)
  {
    if b == [] {
      assert a + b == a;
    } else {
      var n := |b| - 1;
      assert (a + b)[..|a + b| - 1] == a + b[..n] && (a + b)[|a + b| - 1] == b[n];
      EntriesConcat(a, b[..n]);
    }
  }

  lemma {:induction false} PendingAreGroups(messages: seq<Message>)
    ensures AllInline(After(messages).pending)
  {
    if messages != [] {
      PendingAreGroups(messages[..|messages| - 1]);
    }
  }

  lemma {:induction false} NothingToExtract(messages: seq<Message>)
    requires forall m | m in messages :: m.role != System
    ensures After(messages) == Extraction([], messages, [])
  {
    if messages != [] {
      var n := |messages| - 1;
      NothingToExtract(messages[..n]);
      JoinLast(messages);
    }
  }

  lemma JoinLast<T>(s: seq<T>)
    ensures s != [] ==> s[..|s| - 1] + [s[|s| - 1]] == s
  {
  }

  /* Nothing lost, doubled or out of order. */

  /** What the user side reads: user blocks and system texts, in conversation order. */
  function Reading(m: Message): seq<Block> {
    match m.role
    case User => AsBlocks(m.content)
    case Assistant => []
    case System => var texts := SystemTexts(m.content); if texts == [] then [] else [Inline(texts)]
  }

  function Stream(messages: seq<Message>): seq<Block> {
    if messages == [] then [] else Stream(messages[..|messages| - 1]) + Reading(messages[|messages| - 1])
  }

  predicate Settled(st: Extraction) {
    && (st.messages == [] || EndsWithUser(st.messages) ==> st.pending == [])
    && (forall m | m in st.messages :: m.role != System)
  }

  function Whole(st: Extraction): seq<Block> {
    st.lead + (Stream(st.messages) + st.pending)
  }

  lemma ReadMore<T>(lead: seq<T>, read: seq<T>, pending: seq<T>, more: seq<T>)
    ensures lead + (read + pending) + more == lead + (read + (pending + more) + [])
    ensures lead + (read + pending) + more == lead + (read + (pending + more))
  {
    Assoc(read, pending, more);
    assert read + (pending + more) + [] == read + (pending + more);
  }

  lemma StepAssistant(st: Extraction, m: Message)
    requires Settled(st) && m.role == Assistant
    ensures Settled(Step(st, m)) && Whole(Step(st, m)) == Whole(st) + Reading(m)
  {
    assert Stream(st.messages) + [] == Stream(st.messages);
    assert Whole(st) + [] == Whole(st);
  }

  lemma StepInline(st: Extraction, m: Message)
    requires Settled(st) && m.role == System && Reading(m) != [] && st.messages != []
    ensures Settled(Step(st, m)) && Whole(Step(st, m)) == Whole(st) + Reading(m)
  {
    var more := Reading(m);
    ReadMore(st.lead, Stream(st.messages), st.pending, more);
    if EndsWithUser(st.messages) {
      assert [] + more == more;
    }
  }

  lemma StepLead(st: Extraction, m: Message)
    requires Settled(st) && m.role == System && (Reading(m) == [] || st.messages == [])
    ensures Settled(Step(st, m)) && Whole(Step(st, m)) == Whole(st) + Reading(m)
  {
    if Reading(m) == [] {
      assert Whole(st) + [] == Whole(st);
    } else {
      assert Stream(st.messages) + st.pending == [];
    }
  }

  lemma StepUser(st: Extraction, m: Message)
    requires Settled(st) && m.role == User
    ensures Settled(Step(st, m)) && Whole(Step(st, m)) == Whole(st) + Reading(m)
  {
  }

  lemma StepKeepsWhole(st: Extraction, m: Message)
    requires Settled(st)
    ensures Settled(Step(st, m)) && Whole(Step(st, m)) == Whole(st) + Reading(m)
  {
    hide Step, Whole, Settled, Reading;
    if m.role == Assistant {
      StepAssistant(st, m);
    } else if m.role == User {
      StepUser(st, m);
    } else if Reading(m) == [] || st.messages == [] {
      StepLead(st, m);
    } else {
      StepInline(st, m);
    }
  }

  /** Every system text is kept once and in its place: read along the user messages, what went to the
      front of the system list, the new messages and what went to its end are the old conversation. */
  lemma {:induction false} NothingLost(messages: seq<Message>)
    ensures var st := After(messages); Settled(st) && st.lead + (Stream(st.messages) + st.pending) == Stream(messages)
  {
    if messages != [] {
      var n := |messages| - 1;
      NothingLost(messages[..n]);
      StepKeepsWhole(After(messages[..n]), messages[n]);
    }
  }

  /* The messages themselves. */

  function NonSystem(messages: seq<Message>): seq<Message> {
    if messages == [] then []
    else
      var n := |messages| - 1;
      NonSystem(messages[..n]) + (if messages[n].role == System then [] else [messages[n]])
  }

  /** The new message is the old one, or a user message with system texts around its blocks. */
  ghost predicate Dressed(old_: Message, pre: seq<Block>, post: seq<Block>, new_: Message) {
    && AllInline(pre) && AllInline(post)
    && (if pre == [] && post == [] then new_ == old_
        else old_.role == User && new_ == Message(User, Blocks(pre + AsBlocks(old_.content) + post)))
  }

  ghost predicate IsDressed(old_: Message, new_: Message) {
    exists pre, post :: Dressed(old_, pre, post, new_)
  }

  lemma DressedMore(old_: Message, new_: Message, texts: seq<string>)
    requires IsDressed(old_, new_) && new_.role == User
    ensures IsDressed(old_, new_.(content := Blocks(AsBlocks(new_.content) + [Inline(texts)])))
  {
    var pre, post :| Dressed(old_, pre, post, new_);
    var more := post + [Inline(texts)];
    assert AsBlocks(new_.content) + [Inline(texts)] == pre + AsBlocks(old_.content) + more;
    assert Dressed(old_, pre, more, new_.(content := Blocks(AsBlocks(new_.content) + [Inline(texts)])));
  }

  ghost predicate AllDressed(olds: seq<Message>, news: seq<Message>) {
    |olds| == |news| && forall i | 0 <= i < |olds| :: IsDressed(olds[i], news[i])
  }

  lemma StepDresses(olds: seq<Message>, st: Extraction, m: Message)
    requires AllDressed(olds, st.messages) && AllInline(st.pending)
    ensures AllDressed(olds + (if m.role == System then [] else [m]), Step(st, m).messages)
  {
    if m.role == System {
      assert olds + [] == olds;
      if SystemTexts(m.content) != [] && EndsWithUser(st.messages) {
        var n := |olds| - 1;
        DressedMore(olds[n], st.messages[n], SystemTexts(m.content));
      }
    } else {
      var new_ := Step(st, m).messages[|olds|];
      assert st.pending + AsBlocks(m.content) + [] == st.pending + AsBlocks(m.content);
      assert Dressed(m, if m.role == User then st.pending else [], [], new_);
    }
  }

  /** The other messages stay, one for one; only user messages get system texts before or after what
      they hold. */
  lemma {:induction false} OthersKept(messages: seq<Message>)
    ensures AllDressed(NonSystem(messages), After(messages).messages)
  {
    if messages != [] {
      var n := |messages| - 1;
      OthersKept(messages[..n]);
      PendingAreGroups(messages[..n]);
      StepDresses(NonSystem(messages[..n]), After(messages[..n]), messages[n]);
    }
  }

  /** Message k of the result holds the block. */
  ghost predicate Holds(st: Extraction, k: nat, b: Block) {
    k < |st.messages| && st.messages[k].content.Blocks? && b in st.messages[k].content.blocks
  }

  lemma StepHolds(st: Extraction, m: Message, k: nat, b: Block)
    requires Holds(st, k, b)
    ensures Holds(Step(st, m), k, b)
  {
  }

  lemma {:induction false} StaysHeld(messages: seq<Message>, i: nat, j: nat, k: nat, b: Block)
    requires i <= j <= |messages| && Holds(After(messages[..i]), k, b)
    ensures Holds(After(messages[..j]), k, b)
    decreases j
  {
    hide *;
    if i < j {
      StaysHeld(messages, i, j - 1, k, b);
      AfterStep(messages, j - 1);
      StepHolds(After(messages[..j - 1]), messages[j - 1], k, b);
    }
  }

  lemma JoinsTheUserBefore(messages: seq<Message>, i: nat)
    requires i < |messages| && messages[i].role == System && SystemTexts(messages[i].content) != []
    requires EndsWithUser(NonSystem(messages[..i]))
    ensures Holds(After(messages[..i + 1]), |NonSystem(messages[..i])| - 1, Inline(SystemTexts(messages[i].content)))
  {
    var k := |NonSystem(messages[..i])| - 1;
    OthersKept(messages[..i]);
    assert IsDressed(NonSystem(messages[..i])[k], After(messages[..i]).messages[k]);
    AfterStep(messages, i);
  }

  lemma UserIsThere(messages: seq<Message>)
    requires EndsWithUser(messages)
    ensures messages != []
  {
  }

  /** Texts right behind a user message stay with that message. */
  lemma StaysWithTheUserBefore(messages: seq<Message>, i: nat)
    requires i < |messages| && messages[i].role == System && SystemTexts(messages[i].content) != []
    requires EndsWithUser(NonSystem(messages[..i]))
    ensures Holds(After(messages), |NonSystem(messages[..i])| - 1, Inline(SystemTexts(messages[i].content)))
  {
    UserIsThere(NonSystem(messages[..i]));
    hide *;
    var k := |NonSystem(messages[..i])| - 1;
    JoinsTheUserBefore(messages, i);
    StaysHeld(messages, i + 1, |messages|, k, Inline(SystemTexts(messages[i].content)));
    assert messages[..|messages|] == messages;
  }

  lemma {:induction false} StaysPending(messages: seq<Message>, i: nat, j: nat, b: Block)
    requires i <= j <= |messages| && b in After(messages[..i]).pending
    requires forall k | i <= k < j :: messages[k].role != User
    ensures b in After(messages[..j]).pending
    decreases j
  {
    hide After;
    if i < j {
      StaysPending(messages, i, j - 1, b);
      AfterStep(messages, j - 1);
    }
  }

  lemma BecomesPending(messages: seq<Message>, i: nat)
    requires i < |messages| && messages[i].role == System && SystemTexts(messages[i].content) != []
    requires NonSystem(messages[..i]) != [] && !EndsWithUser(NonSystem(messages[..i]))
    ensures Inline(SystemTexts(messages[i].content)) in After(messages[..i + 1]).pending
  {
    var k := |NonSystem(messages[..i])| - 1;
    OthersKept(messages[..i]);
    assert IsDressed(NonSystem(messages[..i])[k], After(messages[..i]).messages[k]);
    AfterStep(messages, i);
  }

  lemma ArrivesAt(messages: seq<Message>, j: nat, b: Block)
    requires j < |messages| && messages[j].role == User && b in After(messages[..j]).pending
    ensures Holds(After(messages[..j + 1]), |NonSystem(messages[..j])|, b)
  {
    hide After, NonSystem;
    OthersKept(messages[..j]);
    AfterStep(messages, j);
  }

  /** Texts behind an assistant message go to the next user message. */
  lemma GoesToTheUserAfter(messages: seq<Message>, i: nat, j: nat)
    requires i < j < |messages| && messages[i].role == System && SystemTexts(messages[i].content) != []
    requires NonSystem(messages[..i]) != [] && !EndsWithUser(NonSystem(messages[..i]))
    requires messages[j].role == User && forall k | i < k < j :: messages[k].role != User
    ensures Holds(After(messages), |NonSystem(messages[..j])|, Inline(SystemTexts(messages[i].content)))
  {
    hide *;
    var b := Inline(SystemTexts(messages[i].content));
    BecomesPending(messages, i);
    StaysPending(messages, i + 1, j, b);
    ArrivesAt(messages, j, b);
    StaysHeld(messages, j + 1, |messages|, |NonSystem(messages[..j])|, b);
    assert messages[..|messages|] == messages;
  }

  /* _fold_mid_conv_system_into_tool_results */

  function NonEmpty(texts: seq<string>): (r: seq<string>)
    ensures forall t | t in r :: t != ""
  {
    if texts == [] then []
    else (if texts[0] == "" then [] else [texts[0]]) + NonEmpty(texts[1..])
  }

  /** The text of an inline block, "" when it has none. */
  function InlineText(b: Block): string
    requires b.Inline?
  {
    JoinLines(NonEmpty(b.texts))
  }

  /** The text a block hands on, if any. */
  function Own(b: Block): seq<string> {
    if b.Inline? && InlineText(b) != "" then [InlineText(b)] else []
  }

  /** `_with_text` */
  function WithText(output: ResultContent, text: string, before: bool): ResultContent {
    match output
    case Plain(content) => Plain(if before then text + "\n\n" + content else content + "\n\n" + text)
    case Parts(parts) => Parts(if before then [TextPart(text)] + parts else parts + [TextPart(text)])
  }

  /** The texts of the inline blocks before the first tool result. */
  function Lead(blocks: seq<Block>): seq<string> {
    if blocks == [] || blocks[0].ToolResult? then []
    else Own(blocks[0]) + Lead(blocks[1..])
  }

  function Texts(blocks: seq<Block>): seq<string> {
    if blocks == [] then []
    else Own(blocks[0]) + Texts(blocks[1..])
  }

  predicate HasResult(blocks: seq<Block>) {
    exists b :: b in blocks && b.ToolResult?
  }

  /** Where the texts go: each block that stays, with the texts put before and after it. */
  datatype Place = Place(block: Block, before: seq<string>, after: seq<string>)

  /** `pre`: texts waiting for the first tool result; `seen`: there has been one. */
  function Plan(pre: seq<string>, seen: bool, blocks: seq<Block>): seq<Place>
    decreases |blocks|
  {
    if blocks == [] then []
    else
      var b, rest := blocks[0], blocks[1..];
      match b
      case Inline(_) => Plan(if seen then pre else pre + Own(b), seen, rest)
      case ToolResult(_, _) => [Place(b, pre, Lead(rest))] + Plan([], true, rest)
      case _ => [Place(b, [], [])] + Plan(pre, seen, rest)
  }

  function AppendAll(output: ResultContent, texts: seq<string>): ResultContent
    decreases |texts|
  {
    if texts == [] then output else AppendAll(WithText(output, texts[0], false), texts[1..])
  }

  function Prepended(b: Block, pending: seq<string>): Block
    requires b.ToolResult?
  {
    if pending == [] then b else b.(output := WithText(b.output, JoinLines(pending), true))
  }

  function Placed(p: Place): Block {
    if p.block.ToolResult? then
      var put := Prepended(p.block, p.before);
      put.(output := AppendAll(put.output, p.after))
    else p.block
  }

  function Folded(plan: seq<Place>): seq<Block> {
    if plan == [] then [] else [Placed(plan[0])] + Folded(plan[1..])
  }

  /** Index of the last tool result. */
  function LastResult(out: seq<Block>): (r: Option<nat>)
    ensures r.Some? ==> r.value < |out| && out[r.value].ToolResult?
  {
    if out == [] then None
    else if out[|out| - 1].ToolResult? then Some(|out| - 1)
    else LastResult(out[..|out| - 1])
  }

  function AppendToLast(out: seq<Block>, texts: seq<string>): seq<Block> {
    var last := LastResult(out);
    if last.None? then out
    else out[last.value := out[last.value].(output := AppendAll(out[last.value].output, texts))]
  }

  /** What the result will be, once the blocks still to come are worked through. */
  function Outcome(out: seq<Block>, pending: seq<string>, rest: seq<Block>): seq<Block> {
    AppendToLast(out, Lead(rest)) + Folded(Plan(pending, LastResult(out).Some?, rest))
  }

  method FoldInlineSystem(blocks: seq<Block>) returns (out: seq<Block>)
    ensures out == Folded(Plan([], false, blocks))
  {
    hide Plan, Folded, WithText, Outcome, JoinLines;
    if forall b | b in blocks :: !b.Inline? {
      NothingToFold([], false, blocks);
      return blocks;
    }
    out := [];
    var pending: seq<string> := [];
    var i := 0;
    assert blocks[0..] == blocks;
    OutcomeNone(blocks);
    while i < |blocks|
      invariant 0 <= i <= |blocks|
      invariant LastResult(out).Some? ==> pending == []
      invariant Outcome(out, pending, blocks[i..]) == Folded(Plan([], false, blocks))
    {
      var block := blocks[i];
      assert blocks[i..] == [block] + blocks[i + 1..];
      if block.Inline? {
        var text := InlineText(block);
        if text != "" {
          var last := LastResult(out);
          if last.None? {
            OutcomePending(out, pending, block, blocks[i + 1..]);
            pending := pending + [text];
          } else {
            OutcomeInline(out, block, blocks[i + 1..]);
            out := out[last.value := out[last.value].(output := WithText(out[last.value].output, text, false))];
          }
        } else {
          OutcomeEmpty(out, pending, block, blocks[i + 1..]);
        }
      } else if pending != [] && block.ToolResult? {
        OutcomeResult(out, pending, block, blocks[i + 1..]);
        out := out + [block.(output := WithText(block.output, JoinLines(pending), true))];
        pending := [];
      } else if block.ToolResult? {
        OutcomeResult(out, pending, block, blocks[i + 1..]);
        out := out + [block];
      } else {
        OutcomeOther(out, pending, block, blocks[i + 1..]);
        out := out + [block];
      }
      i := i + 1;
    }
    assert blocks[i..] == [];
    OutcomeDone(out, pending);
  }

  lemma NothingPlanned(pre: seq<string>, seen: bool)
    ensures Folded(Plan(pre, seen, [])) == []
  {
  }

  lemma PlacedAlone(b: Block)
    ensures Placed(Place(b, [], [])) == b
  {
  }

  lemma {:induction false} NothingToFold(pre: seq<string>, seen: bool, blocks: seq<Block>)
    requires pre == [] && forall b | b in blocks :: !b.Inline?
    ensures Folded(Plan(pre, seen, blocks)) == blocks
    decreases |blocks|
  {
    hide *;
    if blocks == [] {
      NothingPlanned(pre, seen);
    } else {
      var b, rest := blocks[0], blocks[1..];
      assert blocks == [b] + rest;
      PlanCons(pre, seen, b, rest);
      NoLead(rest);
      NothingToFold(pre, seen || b.ToolResult?, rest);
      FoldedCons(Place(b, [], []), Plan(pre, seen || b.ToolResult?, rest));
      PlacedAlone(b);
    }
  }

  lemma {:induction false} NoLead(blocks: seq<Block>)
    requires forall b | b in blocks :: !b.Inline?
    ensures Lead(blocks) == []
  {
    if blocks != [] {
      NoLead(blocks[1..]);
    }
  }

  lemma AppendNothing(out: seq<Block>)
    ensures AppendToLast(out, []) == out
  {
    var last := LastResult(out);
    if last.Some? {
      assert out[last.value := out[last.value]] == out;
    }
  }

  lemma OutcomeNone(blocks: seq<Block>)
    ensures Outcome([], [], blocks) == Folded(Plan([], false, blocks))
  {
    assert [] + Folded(Plan([], false, blocks)) == Folded(Plan([], false, blocks));
  }

  lemma OutcomeDone(out: seq<Block>, pending: seq<string>)
    ensures Outcome(out, pending, []) == out
  {
    AppendNothing(out);
  }

  lemma OutcomeEmpty(out: seq<Block>, pending: seq<string>, b: Block, rest: seq<Block>)
    requires b.Inline? && InlineText(b) == ""
    ensures Outcome(out, pending, [b] + rest) == Outcome(out, pending, rest)
  {
    assert ([b] + rest)[1..] == rest;
    assert [] + Lead(rest) == Lead(rest) && pending + [] == pending;
  }

  lemma OutcomePending(out: seq<Block>, pending: seq<string>, b: Block, rest: seq<Block>)
    requires b.Inline? && LastResult(out).None?
    ensures Outcome(out, pending, [b] + rest) == Outcome(out, pending + Own(b), rest)
  {
    assert ([b] + rest)[1..] == rest;
  }

  lemma {:induction false} LastResultIs(out: seq<Block>, i: nat)
    requires i < |out| && out[i].ToolResult? && forall j | i < j < |out| :: !out[j].ToolResult?
    ensures LastResult(out) == Some(i)
  {
    if i < |out| - 1 {
      LastResultIs(out[..|out| - 1], i);
    }
  }

  lemma {:induction false} NoneLater(out: seq<Block>)
    ensures LastResult(out).None? ==> forall j | 0 <= j < |out| :: !out[j].ToolResult?
    ensures LastResult(out).Some? ==> forall j | LastResult(out).value < j < |out| :: !out[j].ToolResult?
  {
    if out != [] {
      NoneLater(out[..|out| - 1]);
    }
  }

  lemma OutcomeInline(out: seq<Block>, b: Block, rest: seq<Block>)
    requires b.Inline? && InlineText(b) != "" && LastResult(out).Some?
    ensures var last := LastResult(out).value;
            Outcome(out[last := out[last].(output := WithText(out[last].output, InlineText(b), false))], [], rest)
            == Outcome(out, [], [b] + rest)
  {
    assert ([b] + rest)[1..] == rest;
    var last := LastResult(out).value;
    var next := out[last := out[last].(output := WithText(out[last].output, InlineText(b), false))];
    NoneLater(out);
    LastResultIs(next, last);
    assert Lead([b] + rest)[1..] == Lead(rest);
  }

  lemma FoldedCons(place: Place, more: seq<Place>)
    ensures Folded([place] + more) == [Placed(place)] + Folded(more)
  {
    assert ([place] + more)[1..] == more;
  }

  lemma PutResult(out: seq<Block>, put: Block, texts: seq<string>)
    requires put.ToolResult?
    ensures LastResult(out + [put]).Some?
    ensures AppendToLast(out + [put], texts) == out + [put.(output := AppendAll(put.output, texts))]
  {
    LastResultIs(out + [put], |out|);
  }

  lemma PutOther(out: seq<Block>, put: Block, texts: seq<string>)
    requires !put.ToolResult?
    ensures LastResult(out + [put]) == LastResult(out)
    ensures AppendToLast(out + [put], texts) == AppendToLast(out, texts) + [put]
  {
    assert (out + [put])[..|out|] == out;
  }

  lemma PlanCons(pending: seq<string>, seen: bool, b: Block, rest: seq<Block>)
    requires !b.Inline?
    ensures b.ToolResult? ==> Plan(pending, seen, [b] + rest) == [Place(b, pending, Lead(rest))] + Plan([], true, rest)
    ensures b.ToolResult? ==> Lead([b] + rest) == []
    ensures !b.ToolResult? ==> Plan(pending, seen, [b] + rest) == [Place(b, [], [])] + Plan(pending, seen, rest)
    ensures !b.ToolResult? ==> Lead([b] + rest) == Lead(rest)
  {
    assert ([b] + rest)[1..] == rest;
    assert [] + Lead(rest) == Lead(rest);
  }

  lemma OutcomeBefore(out: seq<Block>, pending: seq<string>, b: Block, rest: seq<Block>)
    requires b.ToolResult?
    ensures Outcome(out, pending, [b] + rest)
         == out + ([Placed(Place(b, pending, Lead(rest)))] + Folded(Plan([], true, rest)))
  {
    AppendNothing(out);
    PlanCons(pending, LastResult(out).Some?, b, rest);
    FoldedCons(Place(b, pending, Lead(rest)), Plan([], true, rest));
  }

  lemma OutcomeResult(out: seq<Block>, pending: seq<string>, b: Block, rest: seq<Block>)
    requires b.ToolResult?
    ensures Outcome(out + [Prepended(b, pending)], [], rest) == Outcome(out, pending, [b] + rest)
  {
    OutcomeBefore(out, pending, b, rest);
    PutResult(out, Prepended(b, pending), Lead(rest));
    Assoc(out, [Placed(Place(b, pending, Lead(rest)))], Folded(Plan([], true, rest)));
  }

  lemma OutcomeOther(out: seq<Block>, pending: seq<string>, b: Block, rest: seq<Block>)
    requires !b.ToolResult? && !b.Inline?
    ensures Outcome(out + [b], pending, rest) == Outcome(out, pending, [b] + rest)
  {
    var more := Plan(pending, LastResult(out).Some?, rest);
    PlanCons(pending, LastResult(out).Some?, b, rest);
    FoldedCons(Place(b, [], []), more);
    PutOther(out, b, Lead(rest));
    Assoc(AppendToLast(out, Lead(rest)), [b], Folded(more));
  }

  /* Every text once. */

  function Delivered(plan: seq<Place>): seq<string> {
    if plan == [] then [] else plan[0].before + plan[0].after + Delivered(plan[1..])
  }

  function Stay(blocks: seq<Block>): seq<Block> {
    if blocks == [] then [] else (if blocks[0].Inline? then [] else [blocks[0]]) + Stay(blocks[1..])
  }

  function PlacedBlocks(plan: seq<Place>): seq<Block> {
    if plan == [] then [] else [plan[0].block] + PlacedBlocks(plan[1..])
  }

  /** The blocks that are no inline text stay, in order, and only tool results get texts. */
  lemma {:induction false} BlocksStay(pre: seq<string>, seen: bool, blocks: seq<Block>)
    ensures PlacedBlocks(Plan(pre, seen, blocks)) == Stay(blocks)
    ensures forall p | p in Plan(pre, seen, blocks) ::
        !p.block.ToolResult? ==> p.before == [] && p.after == []
    decreases |blocks|
  {
    if blocks != [] {
      var b, rest := blocks[0], blocks[1..];
      match b
      case Inline(_) => BlocksStay(if seen then pre else pre + Own(b), seen, rest);
      case ToolResult(_, _) =>
        BlocksStay([], true, rest);
        assert Plan(pre, seen, blocks)[1..] == Plan([], true, rest);
      case _ =>
        BlocksStay(pre, seen, rest);
        assert Plan(pre, seen, blocks)[1..] == Plan(pre, seen, rest);
    }
  }

  lemma DeliveredCons(place: Place, more: seq<Place>)
    ensures Delivered([place] + more) == place.before + place.after + Delivered(more)
  {
    assert ([place] + more)[1..] == more;
  }

  /** After a tool result, what precedes the next one is delivered to it, and the rest later on. */
  lemma {:induction false} DeliveredAfterResult(blocks: seq<Block>)
    ensures Lead(blocks) + Delivered(Plan([], true, blocks)) == Texts(blocks)
  {
    if blocks != [] {
      var b, rest := blocks[0], blocks[1..];
      DeliveredAfterResult(rest);
      match b
      case Inline(_) => Assoc(Own(b), Lead(rest), Delivered(Plan([], true, rest)));
      case ToolResult(_, _) => DeliveredCons(Place(b, [], Lead(rest)), Plan([], true, rest));
      case _ => DeliveredCons(Place(b, [], []), Plan([], true, rest));
    }
  }

  predicate NoResult(blocks: seq<Block>) {
    forall b | b in blocks :: !b.ToolResult?
  }

  lemma PlanInline(pre: seq<string>, seen: bool, b: Block, rest: seq<Block>)
    requires b.Inline?
    ensures Plan(pre, seen, [b] + rest) == Plan(if seen then pre else pre + Own(b), seen, rest)
  {
    assert ([b] + rest)[1..] == rest;
  }

  lemma OneFirst(b: Block, rest: seq<Block>)
    ensures NoResult([b] + rest) <==> !b.ToolResult? && NoResult(rest)
    ensures Texts([b] + rest) == Own(b) + Texts(rest)
    ensures |Stay([b] + rest)| == (if b.Inline? then 0 else 1) + |Stay(rest)|
  {
    assert ([b] + rest)[0] == b && ([b] + rest)[1..] == rest;
  }

  lemma {:induction false} DeliveredFrom(pre: seq<string>, blocks: seq<Block>)
    requires HasResult(blocks)
    ensures Delivered(Plan(pre, false, blocks)) == pre + Texts(blocks)
    decreases |blocks|, 1
  {
    assert blocks == [blocks[0]] + blocks[1..];
    hide *;
    DeliveredFromStep(pre, blocks[0], blocks[1..]);
  }

  lemma {:induction false} DeliveredFromStep(pre: seq<string>, b: Block, rest: seq<Block>)
    requires HasResult([b] + rest)
    ensures Delivered(Plan(pre, false, [b] + rest)) == pre + Texts([b] + rest)
    decreases |rest| + 1, 0
  {
    assert b.ToolResult? || HasResult(rest);
    hide *;
    if b.Inline? {
      OneFirst(b, rest);
      PlanInline(pre, false, b, rest);
      DeliveredFrom(pre + Own(b), rest);
      Assoc(pre, Own(b), Texts(rest));
    } else if b.ToolResult? {
      DeliveredFromResult(pre, b, rest);
    } else {
      NoOwn(b, rest);
      PlanCons(pre, false, b, rest);
      DeliveredFrom(pre, rest);
      DeliversNothing(b, Plan(pre, false, rest));
    }
  }

  lemma DeliveredFromResult(pre: seq<string>, b: Block, rest: seq<Block>)
    requires b.ToolResult?
    ensures Delivered(Plan(pre, false, [b] + rest)) == pre + Texts([b] + rest)
  {
    hide *;
    NoOwn(b, rest);
    PlanCons(pre, false, b, rest);
    DeliveredCons(Place(b, pre, Lead(rest)), Plan([], true, rest));
    DeliveredAfterResult(rest);
    Assoc(pre, Lead(rest), Delivered(Plan([], true, rest)));
  }

  lemma NoOwn(b: Block, rest: seq<Block>)
    requires !b.Inline?
    ensures Texts([b] + rest) == Texts(rest)
  {
    OneFirst(b, rest);
    assert [] + Texts(rest) == Texts(rest);
  }

  lemma DeliversNothing(b: Block, more: seq<Place>)
    ensures Delivered([Place(b, [], [])] + more) == Delivered(more)
  {
    DeliveredCons(Place(b, [], []), more);
    assert [] + [] + Delivered(more) == Delivered(more);
  }

  lemma {:induction false} NoneDelivered(pre: seq<string>, blocks: seq<Block>)
    requires !HasResult(blocks)
    ensures Delivered(Plan(pre, false, blocks)) == []
    decreases |blocks|
  {
    if blocks != [] {
      var b, rest := blocks[0], blocks[1..];
      assert b in blocks;
      if b.Inline? {
        NoneDelivered(pre + Own(b), rest);
      } else {
        DeliveredCons(Place(b, [], []), Plan(pre, false, rest));
        NoneDelivered(pre, rest);
      }
    }
  }

  /** Read along the tool results, every non-empty inline text is delivered once and in order exactly
      when there is a tool result, or no such text; with no tool result all texts are dropped. */
  lemma DeliveredIffSomeResult(blocks: seq<Block>)
    ensures Delivered(Plan([], false, blocks)) == Texts(blocks) <==> HasResult(blocks) || Texts(blocks) == []
    ensures !HasResult(blocks) ==> Delivered(Plan([], false, blocks)) == []
  {
    if HasResult(blocks) {
      DeliveredFrom([], blocks);
    } else {
      NoneDelivered([], blocks);
    }
    assert [] + Texts(blocks) == Texts(blocks);
  }

  /* Where each text goes. */

  lemma {:induction false} LeadUpToResult(blocks: seq<Block>, more: seq<Block>)
    requires more != [] && more[0].ToolResult?
    ensures Lead(blocks + more) == Lead(blocks)
  {
    if blocks == [] {
      assert blocks + more == more;
    } else {
      assert (blocks + more)[1..] == blocks[1..] + more;
      LeadUpToResult(blocks[1..], more);
    }
  }

  /** What waits for the first tool result, when the blocks have been passed. */
  function Waiting(pre: seq<string>, seen: bool, blocks: seq<Block>): seq<string> {
    if seen || !NoResult(blocks) then [] else pre + Texts(blocks)
  }

  lemma WaitingStep(pre: seq<string>, seen: bool, b: Block, rest: seq<Block>)
    requires seen ==> pre == []
    ensures b.Inline? ==> Waiting(pre, seen, [b] + rest) == Waiting(if seen then pre else pre + Own(b), seen, rest)
    ensures b.ToolResult? ==> Waiting(pre, seen, [b] + rest) == Waiting([], true, rest)
    ensures !b.Inline? && !b.ToolResult? ==> Waiting(pre, seen, [b] + rest) == Waiting(pre, seen, rest)
  {
    OneFirst(b, rest);
    Assoc(pre, Own(b), Texts(rest));
    assert pre + [] == pre;
  }

  /** The blocks before a tool result are placed apart from it and what follows. */
  lemma {:induction false} PlanSplits(pre: seq<string>, seen: bool, blocks: seq<Block>, more: seq<Block>)
    requires more != [] && more[0].ToolResult? && (seen ==> pre == [])
    ensures Plan(pre, seen, blocks + more)
         == Plan(pre, seen, blocks) + Plan(Waiting(pre, seen, blocks), seen || !NoResult(blocks), more)
    ensures |Plan(pre, seen, blocks)| == |Stay(blocks)|
    decreases |blocks|, 1
  {
    if blocks == [] {
      assert blocks + more == more && pre + [] == pre;
      assert [] + Plan(pre, seen, more) == Plan(pre, seen, more);
    } else {
      PlanSplitsStep(pre, seen, blocks[0], blocks[1..], more);
      assert blocks == [blocks[0]] + blocks[1..];
    }
  }

  lemma {:induction false} PlanSplitsStep(pre: seq<string>, seen: bool, b: Block, rest: seq<Block>, more: seq<Block>)
    requires more != [] && more[0].ToolResult? && (seen ==> pre == [])
    ensures Plan(pre, seen, ([b] + rest) + more)
         == Plan(pre, seen, [b] + rest) + Plan(Waiting(pre, seen, [b] + rest), seen || !NoResult([b] + rest), more)
    ensures |Plan(pre, seen, [b] + rest)| == |Stay([b] + rest)|
    decreases |rest| + 1, 0
  {
    hide *;
    Assoc([b], rest, more);
    OneFirst(b, rest);
    WaitingStep(pre, seen, b, rest);
    if b.Inline? {
      PlanInline(pre, seen, b, rest + more);
      PlanInline(pre, seen, b, rest);
      PlanSplits(if seen then pre else pre + Own(b), seen, rest, more);
    } else {
      PlanCons(pre, seen, b, rest + more);
      PlanCons(pre, seen, b, rest);
      LeadUpToResult(rest, more);
      PlanSplits(if b.ToolResult? then [] else pre, seen || b.ToolResult?, rest, more);
      Assoc([Place(b, if b.ToolResult? then pre else [], if b.ToolResult? then Lead(rest) else [])],
            Plan(if b.ToolResult? then [] else pre, seen || b.ToolResult?, rest),
            Plan(Waiting(pre, seen, [b] + rest), seen || !NoResult([b] + rest), more));
    }
  }

  lemma PlanAt(blocks: seq<Block>, r: nat)
    requires r < |blocks| && blocks[r].ToolResult?
    ensures |Stay(blocks[..r])| < |Plan([], false, blocks)|
    ensures Plan([], false, blocks)[|Stay(blocks[..r])|]
         == Place(blocks[r], if NoResult(blocks[..r]) then Texts(blocks[..r]) else [], Lead(blocks[r + 1..]))
  {
    hide Plan, Lead, Stay, Texts, NoResult;
    var a, z := blocks[..r], blocks[r + 1..];
    assert blocks == a + ([blocks[r]] + z);
    PlanSplits([], false, a, [blocks[r]] + z);
    PlanCons(Waiting([], false, a), !NoResult(a), blocks[r], z);
    assert [] + Texts(a) == Texts(a);
  }

  lemma {:induction false} FoldedAt(plan: seq<Place>, k: nat)
    requires k < |plan|
    ensures k < |Folded(plan)| && Folded(plan)[k] == Placed(plan[k])
  {
    if k > 0 {
      FoldedAt(plan[1..], k - 1);
    }
  }

  /** A tool result keeps its place among the blocks that stay. It gets the texts between it and the next
      tool result behind its output; the first one also gets the texts before it in front. */
  lemma ResultGets(blocks: seq<Block>, r: nat)
    requires r < |blocks| && blocks[r].ToolResult?
    ensures var out, k := Folded(Plan([], false, blocks)), |Stay(blocks[..r])|;
            var before := if NoResult(blocks[..r]) then Texts(blocks[..r]) else [];
            k < |out| && out[k] == Placed(Place(blocks[r], before, Lead(blocks[r + 1..])))
  {
    hide Plan, Lead, Stay, Texts, Folded, NoResult;
    PlanAt(blocks, r);
    FoldedAt(Plan([], false, blocks), |Stay(blocks[..r])|);
  }

  lemma {:induction false} LeadHolds(blocks: seq<Block>, i: nat)
    requires i < |blocks| && NoResult(blocks[..i + 1])
    ensures forall t | t in Own(blocks[i]) :: t in Lead(blocks)
  {
    assert blocks[0] in blocks[..i + 1];
    if i > 0 {
      assert blocks[..i + 1] == [blocks[0]] + blocks[1..][..i];
      LeadHolds(blocks[1..], i - 1);
    }
  }

  lemma {:induction false} TextsHold(blocks: seq<Block>, i: nat)
    requires i < |blocks|
    ensures forall t | t in Own(blocks[i]) :: t in Texts(blocks)
  {
    if i > 0 {
      TextsHold(blocks[1..], i - 1);
    }
  }

  /** The last tool result before block i, or the first of all when none is before. */
  ghost predicate IsNearest(blocks: seq<Block>, i: nat, r: nat) {
    && i < |blocks| && r < |blocks| && i != r && blocks[r].ToolResult?
    && NoResult(if r < i then blocks[r + 1..i + 1] else blocks[..r])
  }

  /** Each inline text goes to the nearest tool result: behind the last one before it, or in front of the
      first one when there is none before it. */
  lemma GoesToTheNearestResult(blocks: seq<Block>, i: nat, r: nat)
    requires IsNearest(blocks, i, r)
    ensures var plan, k := Plan([], false, blocks), |Stay(blocks[..r])|;
            && k < |plan| && plan[k].block == blocks[r]
            && forall t | t in Own(blocks[i]) :: t in (if r < i then plan[k].after else plan[k].before)
  {
    hide Plan, Lead, Stay, Texts, Own, NoResult;
    PlanAt(blocks, r);
    if r < i {
      assert blocks[r + 1..][..i - r] == blocks[r + 1..i + 1];
      LeadHolds(blocks[r + 1..], i - r - 1);
    } else {
      TextsHold(blocks[..r], i);
    }
  }

  lemma {:induction false} FirstResult(blocks: seq<Block>, from: nat, some: nat) returns (r: nat)
    requires from <= some < |blocks| && NoResult(blocks[..from]) && blocks[some].ToolResult?
    ensures from <= r < |blocks| && blocks[r].ToolResult? && NoResult(blocks[..r])
    decreases some - from
  {
    if blocks[from].ToolResult? {
      r := from;
    } else {
      assert blocks[..from + 1] == blocks[..from] + [blocks[from]];
      r := FirstResult(blocks, from + 1, some);
    }
  }

  /** With a tool result among the blocks, every other block has a nearest one. */
  lemma SomeIsNearest(blocks: seq<Block>, i: nat) returns (r: nat)
    requires HasResult(blocks) && i < |blocks| && !blocks[i].ToolResult?
    ensures IsNearest(blocks, i, r)
  {
    var last := LastResult(blocks[..i]);
    NoneLater(blocks[..i]);
    if last.Some? {
      r := last.value;
      forall b | b in blocks[r + 1..i + 1] ensures !b.ToolResult? {
        var k :| r < k <= i && b == blocks[k];
        assert k < i ==> blocks[..i][k] == b;
      }
    } else {
      var some :| 0 <= some < |blocks| && blocks[some].ToolResult?;
      assert forall k | 0 <= k < i :: blocks[..i][k] == blocks[k];
      r := FirstResult(blocks, i, some);
    }
  }
}
