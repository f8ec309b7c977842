/** `_merge_messages` and `_process_messages` of private_gpt/chat/input_models.py. */
module MessageMerge {
  import opened Sequences

  datatype Role = User | Assistant | System

  datatype Block = Text(text: string) | ToolUse(id: string) | ToolResult(id: string) | Other(other: nat)

  datatype Content = Str(text: string) | Blocks(blocks: seq<Block>)

  datatype Message = Message(role: Role, content: Content)

  /* Merging. */

  function Normalized(content: Content): seq<Block> {
    match content
    case Str(text) => [Text(text)]
    case Blocks(blocks) => blocks
  }

  function MergeContent(a: Content, b: Content): Content {
    if a.Str? && b.Str? then Str(a.text + "\n" + b.text)
    else Blocks(Normalized(a) + Normalized(b))
  }

  function MergeRest(current: Message, rest: seq<Message>): seq<Message>
    decreases |rest|
  {
    if rest == [] then [current]
    else if rest[0].role == current.role then
      MergeRest(Message(current.role, MergeContent(current.content, rest[0].content)), rest[1..])
    else [current] + MergeRest(rest[0], rest[1..])
  }

  function Merge(messages: seq<Message>): seq<Message> {
    if messages == [] then [] else MergeRest(messages[0], messages[1..])
  }

  method MergeMessages(messages: seq<Message>) returns (merged: seq<Message>)
    ensures merged == Merge(messages)
  {
    merged := [];
    if messages == [] { return; }
    var current := messages[0];
    var i := 1;
    while i < |messages|
      invariant 1 <= i <= |messages|
      invariant merged + MergeRest(current, messages[i..]) == Merge(messages)
    {
      var msg := messages[i];
      assert messages[i..][1..] == messages[i + 1..];
      if msg.role == current.role {
        current := Message(current.role, MergeContent(current.content, msg.content));
      } else {
        Assoc(merged, [current], MergeRest(msg, messages[i + 1..]));
        merged := merged + [current];
        current := msg;
      }
      i := i + 1;
    }
    merged := merged + [current];
  }

  /* What merging means: one message for each run of one role. */

  function RunsFrom(run: seq<Message>, rest: seq<Message>): seq<seq<Message>>
    requires run != []
    decreases |rest|
  {
    if rest == [] then [run]
    else if rest[0].role == run[0].role then RunsFrom(run + [rest[0]], rest[1..])
    else [run] + RunsFrom([rest[0]], rest[1..])
  }

  function Runs(messages: seq<Message>): seq<seq<Message>> {
    if messages == [] then [] else RunsFrom([messages[0]], messages[1..])
  }

  function Concat<T>(parts: seq<seq<T>>): seq<T> {
    if parts == [] then [] else parts[0] + Concat(parts[1..])
  }

  predicate Uniform(run: seq<Message>) {
    run != [] && forall m | m in run :: m.role == run[0].role
  }

  /** Runs of one role each, two runs that meet having different ones. */
  predicate Maximal(runs: seq<seq<Message>>) {
    runs == []
    || (Uniform(runs[0]) && Maximal(runs[1..])
        && (|runs| > 1 ==> runs[1] != [] && runs[0][0].role != runs[1][0].role))
  }

  lemma {:induction false} RunsFromAreMaximal(run: seq<Message>, rest: seq<Message>)
    requires Uniform(run)
    ensures var runs := RunsFrom(run, rest);
            Concat(runs) == run + rest && Maximal(runs) && runs != [] && runs[0][0] == run[0]
    decreases |rest|
  {
    if rest == [] {
      assert [run][1..] == [];
    } else if rest[0].role == run[0].role {
      RunsFromAreMaximal(run + [rest[0]], rest[1..]);
      assert run + [rest[0]] + rest[1..] == run + rest;
    } else {
      RunsFromAreMaximal([rest[0]], rest[1..]);
      assert ([run] + RunsFrom([rest[0]], rest[1..]))[1..] == RunsFrom([rest[0]], rest[1..]);
      assert [rest[0]] + rest[1..] == rest;
    }
  }

  /** Cutting the messages into runs loses nothing, and the runs are maximal. */
  lemma RunsAreMaximal(messages: seq<Message>)
    ensures Concat(Runs(messages)) == messages && Maximal(Runs(messages))
  {
    if messages != [] {
      RunsFromAreMaximal([messages[0]], messages[1..]);
    }
  }

  /** How many messages the run begins with that are plain strings. */
  function LeadingStrings(run: seq<Message>): (k: nat)
    ensures k <= |run|
  {
    if run == [] || run[0].content.Blocks? then 0 else 1 + LeadingStrings(run[1..])
  }

  /** `"\n".join` of the plain strings. */
  function JoinedStrings(run: seq<Message>): string {
    if run == [] then ""
    else
      var n := |run| - 1;
      var last := if run[n].content.Str? then run[n].content.text else "";
      if n == 0 then last else JoinedStrings(run[..n]) + "\n" + last
  }

  function AllBlocks(run: seq<Message>): seq<Block> {
    if run == [] then [] else AllBlocks(run[..|run| - 1]) + Normalized(run[|run| - 1].content)
  }

  /** The content of a run: its leading strings are one string; if anything else follows, that string
      is one text block and everything after it keeps its own blocks. */
  function RunContent(run: seq<Message>): Content {
    var k := LeadingStrings(run);
    if k == |run| then Str(JoinedStrings(run))
    else Blocks((if k == 0 then [] else [Text(JoinedStrings(run[..k]))]) + AllBlocks(run[k..]))
  }

  function RunMessage(run: seq<Message>): Message
    requires run != []
  {
    Message(run[0].role, RunContent(run))
  }

  function RunMessages(runs: seq<seq<Message>>): seq<Message>
    requires Maximal(runs)
  {
    if runs == [] then [] else [RunMessage(runs[0])] + RunMessages(runs[1..])
  }

  lemma {:induction false} LeadingMore(run: seq<Message>, m: Message)
    ensures LeadingStrings(run + [m])
         == if LeadingStrings(run) == |run| && m.content.Str? then |run| + 1 else LeadingStrings(run)
  {
    if run == [] {
      assert ([] + [m])[1..] == [];
    } else {
      assert (run + [m])[1..] == run[1..] + [m];
      LeadingMore(run[1..], m);
    }
  }

  lemma SuffixMore<T>(s: seq<T>, k: nat, m: T)
    requires k <= |s|
    ensures (s + [m])[k..] == s[k..] + [m] && (s + [m])[..k] == s[..k]
  {
  }

  lemma RunContentMore(run: seq<Message>, m: Message)
    requires run != []
    ensures RunContent(run + [m]) == MergeContent(RunContent(run), m.content)
  {
    var k := LeadingStrings(run);
    LeadingMore(run, m);
    SuffixMore(run, k, m);
    if k == |run| {
      assert run[..k] == run && run[k..] == [];
      assert AllBlocks([]) + Normalized(m.content) == Normalized(m.content);
    } else {
      Assoc(if k == 0 then [] else [Text(JoinedStrings(run[..k]))], AllBlocks(run[k..]), Normalized(m.content));
    }
  }

  lemma {:induction false} MergeRestIsRuns(run: seq<Message>, rest: seq<Message>)
    requires Uniform(run)
    ensures Maximal(RunsFrom(run, rest)) && MergeRest(RunMessage(run), rest) == RunMessages(RunsFrom(run, rest))
    decreases |rest|
  {
    RunsFromAreMaximal(run, rest);
    if rest == [] {
      assert [run][1..] == [];
    } else if rest[0].role == run[0].role {
      RunContentMore(run, rest[0]);
      MergeRestIsRuns(run + [rest[0]], rest[1..]);
    } else {
      OneMessage(rest[0]);
      MergeRestIsRuns([rest[0]], rest[1..]);
      var more := RunsFrom([rest[0]], rest[1..]);
      assert ([run] + more)[1..] == more;
    }
  }

  lemma OneMessage(m: Message)
    ensures RunMessage([m]) == m
  {
    assert [m][1..] == [] && [m][..0] == [] && [m][0..] == [m];
    assert AllBlocks([]) + Normalized(m.content) == Normalized(m.content);
  }

  /** Merging gives one message for each maximal run of one role. */
  lemma MergeIsByRuns(messages: seq<Message>)
    ensures Maximal(Runs(messages)) && Merge(messages) == RunMessages(Runs(messages))
  {
    if messages != [] {
      OneMessage(messages[0]);
      MergeRestIsRuns([messages[0]], messages[1..]);
    }
  }

  predicate Alternating(messages: seq<Message>) {
    |messages| < 2 || (messages[0].role != messages[1].role && Alternating(messages[1..]))
  }

  lemma {:induction false} RunsAlternate(runs: seq<seq<Message>>)
    requires Maximal(runs)
    ensures |RunMessages(runs)| == |runs| && Alternating(RunMessages(runs))
  {
    if runs != [] {
      RunsAlternate(runs[1..]);
      assert RunMessages(runs)[1..] == RunMessages(runs[1..]);
    }
  }

  /** No two neighbours have one role. */
  lemma MergedAlternates(messages: seq<Message>)
    ensures Alternating(Merge(messages))
  {
    MergeIsByRuns(messages);
    RunsAlternate(Runs(messages));
  }

  /* Role-tagged blocks. */

  datatype Tagged = Tagged(role: Role, block: Block)

  function Tag(role: Role, blocks: seq<Block>): seq<Tagged> {
    if blocks == [] then [] else Tag(role, blocks[..|blocks| - 1]) + [Tagged(role, blocks[|blocks| - 1])]
  }

  function TaggedBlocks(messages: seq<Message>): seq<Tagged> {
    if messages == [] then [] else Tag(messages[0].role, Normalized(messages[0].content)) + TaggedBlocks(messages[1..])
  }

  lemma {:induction false} TagConcat(role: Role, a: seq<Block>, b: seq<Block>)
    ensures Tag(role, a + b) == Tag(role, a) + Tag(role, b)
  {
    if b == [] {
      assert a + b == a;
    } else {
      assert a + b[..|b| - 1] + [b[|b| - 1]] == a + b;
      TagConcat(role, a, b[..|b| - 1]);
    }
  }

  lemma {:induction false} TaggedConcat(a: seq<Message>, b: seq<Message>)
    ensures TaggedBlocks(a + b) == TaggedBlocks(a) + TaggedBlocks(b)
  {
    if a == [] {
      assert a + b == b;
    } else {
      assert (a + b)[1..] == a[1..] + b;
      TaggedConcat(a[1..], b);
      Assoc(Tag(a[0].role, Normalized(a[0].content)), TaggedBlocks(a[1..]), TaggedBlocks(b));
    }
  }

  /** Two plain strings are joined on the way. */
  ghost predicate JoinsStrings(current: Message, rest: seq<Message>)
    decreases |rest|
  {
    if rest == [] then false
    else if rest[0].role == current.role then
      (current.content.Str? && rest[0].content.Str?)
      || JoinsStrings(Message(current.role, MergeContent(current.content, rest[0].content)), rest[1..])
    else JoinsStrings(rest[0], rest[1..])
  }

  /** Merging keeps all blocks with their roles in order, one block less for every two strings joined. */
  lemma {:induction false} MergeRestKeepsBlocks(current: Message, rest: seq<Message>)
    ensures |TaggedBlocks(MergeRest(current, rest))| <= |TaggedBlocks([current] + rest)|
    ensures JoinsStrings(current, rest) ==> |TaggedBlocks(MergeRest(current, rest))| < |TaggedBlocks([current] + rest)|
    ensures !JoinsStrings(current, rest) ==> TaggedBlocks(MergeRest(current, rest)) == TaggedBlocks([current] + rest)
    decreases |rest|
  {
    if rest != [] {
      var m := rest[0];
      var tail := TaggedBlocks(rest[1..]);
      if m.role == current.role {
        var merged := Message(current.role, MergeContent(current.content, m.content));
        MergeRestKeepsBlocks(merged, rest[1..]);
        MergeOne(current, m, tail);
      } else {
        MergeRestKeepsBlocks(m, rest[1..]);
        assert [m] + rest[1..] == rest;
      }
    } else {
      assert [current] + [] == [current];
    }
  }

  lemma MergeOne(a: Message, b: Message, tail: seq<Tagged>)
    requires a.role == b.role
    ensures var merged := Tag(a.role, Normalized(MergeContent(a.content, b.content))) + tail;
            var apart := Tag(a.role, Normalized(a.content)) + (Tag(b.role, Normalized(b.content)) + tail);
            if a.content.Str? && b.content.Str? then |merged| + 1 == |apart| else merged == apart
  {
    if a.content.Blocks? || b.content.Blocks? {
      TagConcat(a.role, Normalized(a.content), Normalized(b.content));
      Assoc(Tag(a.role, Normalized(a.content)), Tag(b.role, Normalized(b.content)), tail);
    }
  }

  /** Some run begins with two plain strings. */
  predicate BeginsWithTwoStrings(runs: seq<seq<Message>>) {
    runs != [] && (LeadingStrings(runs[0]) >= 2 || BeginsWithTwoStrings(runs[1..]))
  }

  lemma {:induction false} JoinsIffTwoStrings(run: seq<Message>, rest: seq<Message>)
    requires Uniform(run)
    ensures BeginsWithTwoStrings(RunsFrom(run, rest)) <==>
            LeadingStrings(run) >= 2 || JoinsStrings(RunMessage(run), rest)
    decreases |rest|
  {
    if rest == [] {
      assert [run][1..] == [];
    } else if rest[0].role == run[0].role {
      LeadingMore(run, rest[0]);
      RunContentMore(run, rest[0]);
      JoinsIffTwoStrings(run + [rest[0]], rest[1..]);
    } else {
      OneMessage(rest[0]);
      JoinsIffTwoStrings([rest[0]], rest[1..]);
      assert [rest[0]][1..] == [];
      assert ([run] + RunsFrom([rest[0]], rest[1..]))[1..] == RunsFrom([rest[0]], rest[1..]);
    }
  }

  /** The role-tagged blocks are unchanged exactly when no run begins with two plain strings. */
  lemma MergeKeepsBlocksIff(messages: seq<Message>)
    ensures TaggedBlocks(Merge(messages)) == TaggedBlocks(messages) <==> !BeginsWithTwoStrings(Runs(messages))
  {
    if messages != [] {
      var m, rest := messages[0], messages[1..];
      assert [m] + rest == messages && [m][1..] == [];
      OneMessage(m);
      JoinsIffTwoStrings([m], rest);
      MergeRestKeepsBlocks(m, rest);
    }
  }

  /* Splitting assistant messages. */

  /** The chunks an assistant message is cut into; `current` is the one being filled. */
  function Chunks(current: seq<Block>, blocks: seq<Block>): seq<seq<Block>>
    decreases |blocks|
  {
    if blocks == [] then if current == [] then [] else [current]
    else
      var b, rest := blocks[0], blocks[1..];
      match b
      case ToolUse(_) => [current + [b]] + Chunks([], rest)
      case ToolResult(_) => (if current == [] then [] else [current]) + ([[b]] + Chunks([], rest))
      case _ => Chunks(current + [b], rest)
  }

  function AsMessages(chunks: seq<seq<Block>>): seq<Message> {
    if chunks == [] then [] else AsMessages(chunks[..|chunks| - 1]) + [Message(Assistant, Blocks(chunks[|chunks| - 1]))]
  }

  function Processed(m: Message): seq<Message> {
    if m.role == Assistant then AsMessages(Chunks([], Normalized(m.content))) else [m]
  }

  function Process(messages: seq<Message>): seq<Message> {
    if messages == [] then []
    else
      var n := |messages| - 1;
      Process(messages[..n]) + Processed(messages[n])
  }

  method ProcessMessages(messages: seq<Message>) returns (result: seq<Message>)
    ensures result == Process(messages)
  {
    result := [];
    for i := 0 to |messages|
      invariant result == Process(messages[..i])
    {
      assert messages[..i + 1][..i] == messages[..i];
      if messages[i].role == Assistant {
        var split := SplitAssistant(Normalized(messages[i].content));
        result := result + split;
      } else {
        result := result + [messages[i]];
      }
    }
    assert messages[..|messages|] == messages;
  }

  lemma {:induction false} AsMessagesConcat(a: seq<seq<Block>>, b: seq<seq<Block>>)
    ensures AsMessages(a + b) == AsMessages(a) + AsMessages(b)
  {
    if b == [] {
      assert a + b == a;
    } else {
      assert a + b[..|b| - 1] + [b[|b| - 1]] == a + b;
      AsMessagesConcat(a, b[..|b| - 1]);
    }
  }

  /** The messages out so far, and the blocks being collected, for the blocks up to i. */
  ghost predicate Cut(blocks: seq<Block>, i: nat, result: seq<Message>, current: seq<Block>)
  {
    i <= |blocks| && result + AsMessages(Chunks(current, blocks[i..])) == AsMessages(Chunks([], blocks))
  }

  lemma PutFirst(chunk: seq<Block>, more: seq<seq<Block>>)
    ensures AsMessages([chunk] + more) == [Message(Assistant, Blocks(chunk))] + AsMessages(more)
  {
    AsMessagesConcat([chunk], more);
    assert [] + [chunk] == [chunk];
  }

  lemma CutUse(blocks: seq<Block>, i: nat, result: seq<Message>, current: seq<Block>)
    requires i < |blocks| && blocks[i].ToolUse? && Cut(blocks, i, result, current)
    ensures Cut(blocks, i + 1, result + [Message(Assistant, Blocks(current + [blocks[i]]))], [])
  {
    assert blocks[i..][1..] == blocks[i + 1..];
    PutFirst(current + [blocks[i]], Chunks([], blocks[i + 1..]));
    Assoc(result, [Message(Assistant, Blocks(current + [blocks[i]]))], AsMessages(Chunks([], blocks[i + 1..])));
  }

  lemma CutResult(blocks: seq<Block>, i: nat, result: seq<Message>)
    requires i < |blocks| && blocks[i].ToolResult? && Cut(blocks, i, result, [])
    ensures Cut(blocks, i + 1, result + [Message(Assistant, Blocks([blocks[i]]))], [])
  {
    var more := Chunks([], blocks[i + 1..]);
    assert blocks[i..][1..] == blocks[i + 1..];
    assert [] + ([[blocks[i]]] + more) == [[blocks[i]]] + more;
    PutFirst([blocks[i]], more);
    Assoc(result, [Message(Assistant, Blocks([blocks[i]]))], AsMessages(more));
  }

  lemma CutCurrent(blocks: seq<Block>, i: nat, result: seq<Message>, current: seq<Block>)
    requires i < |blocks| && blocks[i].ToolResult? && current != [] && Cut(blocks, i, result, current)
    ensures Cut(blocks, i, result + [Message(Assistant, Blocks(current))], [])
  {
    var later := Chunks([], blocks[i..]);
    assert later == [[blocks[i]]] + Chunks([], blocks[i..][1..]);
    PutFirst(current, later);
    Assoc(result, [Message(Assistant, Blocks(current))], AsMessages(later));
  }

  method SplitAssistant(blocks: seq<Block>) returns (result: seq<Message>)
    ensures result == AsMessages(Chunks([], blocks))
  {
    result := [];
    var current := [];
    for i := 0 to |blocks|
      invariant Cut(blocks, i, result, current)
    {
      var block := blocks[i];
      if block.ToolUse? {
        CutUse(blocks, i, result, current);
        result := result + [Message(Assistant, Blocks(current + [block]))];
        current := [];
      } else if block.ToolResult? {
        if current != [] {
          CutCurrent(blocks, i, result, current);
          result := result + [Message(Assistant, Blocks(current))];
          current := [];
        }
        CutResult(blocks, i, result);
        result := result + [Message(Assistant, Blocks([block]))];
      } else {
        assert blocks[i..][1..] == blocks[i + 1..];
        current := current + [block];
      }
    }
    if current != [] {
      PutFirst(current, []);
      result := result + [Message(Assistant, Blocks(current))];
    }
  }

  predicate Quiet(b: Block) {
    !b.ToolUse? && !b.ToolResult?
  }

  /** A chunk: a tool result alone, or quiet blocks and at most one tool use, which is last. */
  ghost predicate GoodChunk(chunk: seq<Block>) {
    && chunk != []
    && ((|chunk| == 1 && chunk[0].ToolResult?)
        || ((forall i | 0 <= i < |chunk| - 1 ::
            Quiet(chunk[i])) && !chunk[|chunk| - 1].ToolResult?))
  }

  /** Two chunks that follow each other had to be cut. */
  predicate CutNeeded(a: seq<Block>, b: seq<Block>) {
    a != [] && b != [] && (a[|a| - 1].ToolUse? || a[|a| - 1].ToolResult? || b[0].ToolResult?)
  }

  ghost predicate GoodChunks(chunks: seq<seq<Block>>) {
    chunks == []
    || (GoodChunk(chunks[0]) && GoodChunks(chunks[1..]) && (|chunks| > 1 ==> CutNeeded(chunks[0], chunks[1])))
  }

  lemma {:induction false} FirstChunk(current: seq<Block>, blocks: seq<Block>)
    ensures forall c | c in Chunks(current, blocks) :: c != []
    decreases |blocks|
  {
    if blocks != [] {
      FirstChunk(if blocks[0].ToolUse? || blocks[0].ToolResult? then [] else current + [blocks[0]], blocks[1..]);
    }
  }

  lemma QuietChunk(chunk: seq<Block>)
    requires chunk != [] && forall b | b in chunk :: Quiet(b)
    ensures GoodChunk(chunk)
  {
    assert chunk[|chunk| - 1] in chunk;
  }

  /** The chunks are the blocks cut exactly where they must be. */
  lemma {:induction false} ChunksAreGood(current: seq<Block>, blocks: seq<Block>)
    requires forall b | b in current :: Quiet(b)
    ensures GoodChunks(Chunks(current, blocks)) && Concat(Chunks(current, blocks)) == current + blocks
    decreases |blocks|
  {
    if blocks == [] {
      if current != [] {
        QuietChunk(current);
        assert [current][1..] == [] && current + [] == current;
      }
    } else {
      var b, rest := blocks[0], blocks[1..];
      assert [b] + rest == blocks;
      if Quiet(b) {
        ChunksAreGood(current + [b], rest);
        Assoc(current, [b], rest);
      } else {
        ChunksAreGood([], rest);
        FirstChunk([], rest);
        assert [] + rest == rest;
        CutHere(current, b, rest);
      }
    }
  }

  lemma CutHere(current: seq<Block>, b: Block, rest: seq<Block>)
    requires (forall c | c in current :: Quiet(c)) && !Quiet(b)
    requires GoodChunks(Chunks([], rest)) && Concat(Chunks([], rest)) == rest
    requires forall c | c in Chunks([], rest) :: c != []
    ensures GoodChunks(Chunks(current, [b] + rest)) && Concat(Chunks(current, [b] + rest)) == current + ([b] + rest)
  {
    var more := Chunks([], rest);
    assert ([b] + rest)[1..] == rest;
    if b.ToolUse? {
      assert Chunks(current, [b] + rest) == [current + [b]] + more;
      hide Chunks, Quiet;
      assert ([current + [b]] + more)[1..] == more;
      Assoc(current, [b], rest);
    } else {
      assert ([[b]] + more)[1..] == more;
      if current == [] {
        assert [] + ([[b]] + more) == [[b]] + more;
        assert Chunks(current, [b] + rest) == [[b]] + more;
      } else {
        assert Chunks(current, [b] + rest) == [current] + ([[b]] + more);
        QuietChunk(current);
        hide Chunks, Quiet;
        assert ([current] + ([[b]] + more))[1..] == [[b]] + more;
      }
    }
  }

  lemma {:induction false} TaggedAsMessages(chunks: seq<seq<Block>>)
    ensures TaggedBlocks(AsMessages(chunks)) == Tag(Assistant, Concat(chunks))
  {
    if chunks != [] {
      TaggedAsMessages(chunks[1..]);
      PutFirst(chunks[0], chunks[1..]);
      assert [chunks[0]] + chunks[1..] == chunks;
      TagConcat(Assistant, chunks[0], Concat(chunks[1..]));
    }
  }

  lemma SplitKeepsBlocks(m: Message)
    ensures TaggedBlocks(Processed(m)) == TaggedBlocks([m])
  {
    if m.role == Assistant {
      var blocks := Normalized(m.content);
      ChunksAreGood([], blocks);
      assert [] + blocks == blocks;
      TaggedAsMessages(Chunks([], blocks));
    }
  }

  lemma OneMoreKeepsBlocks(before: seq<Message>, m: Message)
    requires TaggedBlocks(Process(before)) == TaggedBlocks(before)
    ensures TaggedBlocks(Process(before) + Processed(m)) == TaggedBlocks(before + [m])
  {
    hide *;
    SplitKeepsBlocks(m);
    TaggedConcat(Process(before), Processed(m));
    TaggedConcat(before, [m]);
  }

  /** Splitting keeps all blocks, with their roles, in order. */
  lemma {:induction false} ProcessKeepsBlocks(messages: seq<Message>)
    ensures TaggedBlocks(Process(messages)) == TaggedBlocks(messages)
  {
    hide TaggedBlocks, Processed;
    if messages != [] {
      var n := |messages| - 1;
      ProcessKeepsBlocks(messages[..n]);
      OneMoreKeepsBlocks(messages[..n], messages[n]);
      assert messages[..n] + [messages[n]] == messages;
    }
  }

  lemma {:induction false} EachIsGood(chunks: seq<seq<Block>>)
    requires GoodChunks(chunks)
    ensures forall c | c in chunks :: GoodChunk(c)
  {
    if chunks != [] {
      EachIsGood(chunks[1..]);
    }
  }

  lemma {:induction false} AsMessagesGood(chunks: seq<seq<Block>>)
    requires forall c | c in chunks :: GoodChunk(c)
    ensures forall m | m in AsMessages(chunks) ::
        m.role == Assistant && m.content.Blocks? && GoodChunk(m.content.blocks)
  {
    if chunks != [] {
      AsMessagesGood(chunks[..|chunks| - 1]);
    }
  }

  /** Every assistant message is a tool result alone, or blocks with at most one tool use, its last. */
  lemma {:induction false} ProcessedAreGood(messages: seq<Message>)
    ensures forall m | m in Process(messages) && m.role == Assistant ::
        m.content.Blocks? && GoodChunk(m.content.blocks)
  {
    if messages != [] {
      var n := |messages| - 1;
      ProcessedAreGood(messages[..n]);
      ChunksAreGood([], Normalized(messages[n].content));
      EachIsGood(Chunks([], Normalized(messages[n].content)));
      AsMessagesGood(Chunks([], Normalized(messages[n].content)));
    }
  }

  function NonAssistant(messages: seq<Message>): seq<Message> {
    if messages == [] then []
    else
      var n := |messages| - 1;
      NonAssistant(messages[..n]) + (if messages[n].role == Assistant then [] else [messages[n]])
  }

  predicate NotAssistant(m: Message) {
    m.role != Assistant
  }

  /** These are the messages at exactly the indices of other roles, in order. */
  lemma {:induction false} NonAssistantPicks(messages: seq<Message>) returns (idx: seq<nat>)
    ensures Picks(messages, NotAssistant, idx, NonAssistant(messages))
  {
    if messages == [] {
      idx := [];
    } else {
      var n := |messages| - 1;
      idx := NonAssistantPicks(messages[..n]);
      PicksMore(messages[..n], messages[n], NotAssistant, idx, NonAssistant(messages[..n]));
      assert messages[..n] + [messages[n]] == messages;
      if messages[n].role != Assistant { idx := idx + [n]; }
    }
  }

  lemma {:induction false} NonAssistantConcat(a: seq<Message>, b: seq<Message>)
    ensures NonAssistant(a + b) == NonAssistant(a) + NonAssistant(b)
  {
    if b == [] {
      assert a + b == a;
    } else {
      var n := |b| - 1;
      assert a + b[..n] + [b[n]] == a + b;
      NonAssistantConcat(a, b[..n]);
      Assoc(NonAssistant(a), NonAssistant(b[..n]), if b[n].role == Assistant then [] else [b[n]]);
    }
  }

  lemma {:induction false} ChunksAreAssistant(chunks: seq<seq<Block>>)
    ensures NonAssistant(AsMessages(chunks)) == []
  {
    if chunks != [] {
      ChunksAreAssistant(chunks[..|chunks| - 1]);
    }
  }

  /** Other messages pass through untouched. */
  lemma {:induction false} OthersPassThrough(messages: seq<Message>)
    ensures NonAssistant(Process(messages)) == NonAssistant(messages)
  {
    if messages != [] {
      var n := |messages| - 1;
      OthersPassThrough(messages[..n]);
      ChunksAreAssistant(Chunks([], Normalized(messages[n].content)));
      NonAssistantConcat(Process(messages[..n]), Processed(messages[n]));
      assert [] + [messages[n]] == [messages[n]];
    }
  }
}
