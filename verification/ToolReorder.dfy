/** `_reorder_tool_messages` of private_gpt/chat/input_models.py. */
module ToolReorder {
  import opened Sequences
  import opened Wrappers

  datatype Role = System | User | Assistant | Tool

  /** `tldr`: the message carries a "tldr" entry. `calls`: the ids of its tool calls, empty when it
      has none. `answers`: the id of the call a tool message responds to. */
  datatype Message = Message(role: Role, tldr: bool, calls: seq<string>, answers: Option<string>, text: string)

  predicate IsCaller(m: Message) {
    !m.tldr && m.role == Assistant && m.calls != []
  }

  predicate Responds(m: Message, calls: seq<string>) {
    m.role == Tool && m.answers.Some? && m.answers.value in calls
  }

  /** The responses to some calls, wherever they stand, in their own order. */
  function Responses(messages: seq<Message>, calls: seq<string>): (r: seq<Message>)
    ensures forall m | m in r :: m in messages && Responds(m, calls)
  {
    if messages == [] then []
    else
      var n := |messages| - 1;
      Responses(messages[..n], calls) + (if Responds(messages[n], calls) then [messages[n]] else [])
  }

  /** How many of the messages call what m responds to. */
  function Callers(messages: seq<Message>, m: Message): nat {
    if messages == [] then 0
    else
      var n := |messages| - 1;
      Callers(messages[..n], m) + (if IsCaller(messages[n]) && Responds(m, messages[n].calls) then 1 else 0)
  }

  /** What a message puts out, given all messages and those before it. */
  function Emit(all: seq<Message>, before: seq<Message>, m: Message): seq<Message> {
    if IsCaller(m) then [m] + Responses(all, m.calls)
    else if m.role == Tool && (!m.tldr || Callers(before, m) > 0) then []
    else [m]
  }

  function Walk(all: seq<Message>, done: seq<Message>): seq<Message> {
    if done == [] then []
    else
      var n := |done| - 1;
      Walk(all, done[..n]) + Emit(all, done[..n], done[n])
  }

  function Reorder(messages: seq<Message>): seq<Message> {
    Walk(messages, messages)
  }

  /* The loop. */

  /** Of the indices still to come, `used` holds exactly the responses already put out. */
  ghost predicate Uses(messages: seq<Message>, i: nat, used: set<nat>)
  {
    i <= |messages| && forall j | i <= j < |messages| ::
        j in used <==> Callers(messages[..i], messages[j]) > 0
  }

  lemma PrefixStep<T>(s: seq<T>, i: nat)
    requires i < |s|
    ensures s[..i + 1][..i] == s[..i] && s[..i + 1][i] == s[i] && s[..i + 1] == s[..i] + [s[i]]
  {
  }

  lemma UsesStep(messages: seq<Message>, i: nat, used: set<nat>, next: set<nat>)
    requires i < |messages| && Uses(messages, i, used)
    requires forall j | i < j < |messages| ::
      j in next <==> j in used || (IsCaller(messages[i]) && Responds(messages[j], messages[i].calls))
    ensures Uses(messages, i + 1, next)
  {
    PrefixStep(messages, i);
  }

  lemma WalkStep(messages: seq<Message>, i: nat)
    requires i < |messages|
    ensures Walk(messages, messages[..i + 1])
         == Walk(messages, messages[..i]) + Emit(messages, messages[..i], messages[i])
  {
    PrefixStep(messages, i);
  }

  method ReorderToolMessages(messages: seq<Message>) returns (result: seq<Message>)
    ensures result == Reorder(messages)
  {
    result := [];
    var used: set<nat> := {};
    for i := 0 to |messages|
      invariant Uses(messages, i, used)
      invariant result == Walk(messages, messages[..i])
    {
      var message := messages[i];
      ghost var before, wasUsed := result, used;
      if i in used {
      } else if message.tldr {
        result := result + [message];
        used := used + {i};
      } else if message.role == Assistant && message.calls != [] {
        var responses, indices := CollectResponses(messages, i, message.calls);
        result := result + ([message] + responses);
        used := used + indices + {i};
      } else if message.role == Tool {
      } else {
        result := result + [message];
        used := used + {i};
      }
      assert i in wasUsed ==> message.role == Tool by {
        if i in wasUsed { CallersOfOther(messages[..i], message); }
      }
      assert before + [] == before;
      assert result == before + Emit(messages, messages[..i], message);
      WalkStep(messages, i);
      UsesStep(messages, i, wasUsed, used);
    }
    assert messages[..|messages|] == messages;
  }

  lemma {:induction false} CallersOfOther(messages: seq<Message>, m: Message)
    ensures m.role != Tool ==> Callers(messages, m) == 0
  {
    if messages != [] {
      CallersOfOther(messages[..|messages| - 1], m);
    }
  }

  lemma LastResponse(messages: seq<Message>, j: nat, calls: seq<string>)
    requires j <= |messages|
    ensures Responses([], calls) == []
    ensures j < |messages| ==>
      Responses(messages[..j + 1], calls)
      == Responses(messages[..j], calls) + (if Responds(messages[j], calls) then [messages[j]] else [])
  {
    if j < |messages| { PrefixStep(messages, j); }
  }

  method CollectResponses(messages: seq<Message>, i: nat, calls: seq<string>)
    returns (responses: seq<Message>, indices: set<nat>)
    requires i < |messages| && messages[i].role != Tool
    ensures responses == Responses(messages, calls)
    ensures forall j | 0 <= j < |messages| :: j in indices <==> Responds(messages[j], calls)
  {
    hide Responses;
    responses, indices := [], {};
    LastResponse(messages, 0, calls);
    for j := 0 to |messages|
      invariant responses == Responses(messages[..j], calls)
      invariant forall k | 0 <= k < |messages| ::
          k in indices <==> k < j && Responds(messages[k], calls)
    {
      LastResponse(messages, j, calls);
      if j != i && messages[j].role == Tool && messages[j].answers.Some? && messages[j].answers.value in calls {
        responses := responses + [messages[j]];
        indices := indices + {j};
      }
    }
    assert messages[..|messages|] == messages;
  }

  /* What stays. */

  function NonTool(messages: seq<Message>): seq<Message> {
    if messages == [] then []
    else
      var n := |messages| - 1;
      NonTool(messages[..n]) + (if messages[n].role == Tool then [] else [messages[n]])
  }

  lemma LastOfConcat<T>(a: seq<T>, b: seq<T>)
    requires b != []
    ensures (a + b)[..|a + b| - 1] == a + b[..|b| - 1] && (a + b)[|a + b| - 1] == b[|b| - 1]
  {
  }

  lemma {:induction false} NonToolConcat(a: seq<Message>, b: seq<Message>)
    ensures NonTool(a + b) == NonTool(a) + NonTool(b)
  {
    if b == [] {
      assert a + b == a;
    } else {
      LastOfConcat(a, b);
      NonToolConcat(a, b[..|b| - 1]);
    }
  }

  lemma {:induction false} OnlyTools(messages: seq<Message>)
    requires forall m | m in messages :: m.role == Tool
    ensures NonTool(messages) == []
  {
    if messages != [] {
      OnlyTools(messages[..|messages| - 1]);
    }
  }

  lemma EmitKeepsNonTool(all: seq<Message>, before: seq<Message>, m: Message)
    ensures NonTool(Emit(all, before, m)) == if m.role == Tool then [] else [m]
  {
    assert NonTool([]) == [];
    assert [m][..0] == [];
    if IsCaller(m) {
      NonToolConcat([m], Responses(all, m.calls));
      OnlyTools(Responses(all, m.calls));
    }
  }

  /** Every message that is no tool message stays, in order. */
  lemma {:induction false} NonToolKept(all: seq<Message>, done: seq<Message>)
    ensures NonTool(Walk(all, done)) == NonTool(done)
  {
    if done != [] {
      var n := |done| - 1;
      NonToolKept(all, done[..n]);
      EmitKeepsNonTool(all, done[..n], done[n]);
      NonToolConcat(Walk(all, done[..n]), Emit(all, done[..n], done[n]));
    }
  }

  lemma {:induction false} CallersOfNonTool(messages: seq<Message>, m: Message)
    ensures Callers(NonTool(messages), m) == Callers(messages, m)
  {
    if messages != [] {
      var n := |messages| - 1;
      CallersOfNonTool(messages[..n], m);
      if messages[n].role == Tool {
        assert NonTool(messages[..n]) + [] == NonTool(messages[..n]);
      } else {
        LastOfConcat(NonTool(messages[..n]), [messages[n]]);
        assert NonTool(messages[..n]) + [messages[n]][..0] == NonTool(messages[..n]);
      }
    }
  }

  /** The walk meets the same callers in the same order. */
  lemma CallersKept(all: seq<Message>, done: seq<Message>, m: Message)
    ensures Callers(Walk(all, done), m) == Callers(done, m)
  {
    NonToolKept(all, done);
    CallersOfNonTool(done, m);
    CallersOfNonTool(Walk(all, done), m);
  }

  /* Where responses go. */

  lemma {:induction false} WalkPrefix(all: seq<Message>, done: seq<Message>, i: nat)
    requires i <= |done|
    ensures Walk(all, done[..i]) <= Walk(all, done)
    decreases |done|
  {
    if i == |done| {
      assert done[..i] == done;
    } else {
      var n := |done| - 1;
      assert done[..n][..i] == done[..i];
      WalkPrefix(all, done[..n], i);
    }
  }

  /** A caller is followed at once by all responses to its calls, in their original order. */
  lemma ResponsesFollowTheirCall(messages: seq<Message>, i: nat)
    requires i < |messages| && IsCaller(messages[i])
    ensures Walk(messages, messages[..i]) + ([messages[i]] + Responses(messages, messages[i].calls))
         <= Reorder(messages)
    ensures NonTool(Walk(messages, messages[..i])) == NonTool(messages[..i])
  {
    NonToolKept(messages, messages[..i]);
    WalkStep(messages, i);
    WalkPrefix(messages, messages, i + 1);
  }

  /* How often a tool message comes out. */

  /** Occurrences of m that are put out on their own: "tldr" ones before any caller. */
  function Loose(done: seq<Message>, m: Message): nat {
    if done == [] then 0
    else
      var n := |done| - 1;
      Loose(done[..n], m) + (if done[n] == m && m.tldr && Callers(done[..n], m) == 0 then 1 else 0)
  }

  function Count(messages: seq<Message>, m: Message): nat {
    if messages == [] then 0
    else
      var n := |messages| - 1;
      Count(messages[..n], m) + (if messages[n] == m then 1 else 0)
  }

  function Times(k: nat, count: nat): nat {
    if k == 0 then 0 else Times(k - 1, count) + count
  }

  lemma {:induction false} CountConcat(a: seq<Message>, b: seq<Message>, m: Message)
    ensures Count(a + b, m) == Count(a, m) + Count(b, m)
  {
    if b == [] {
      assert a + b == a;
    } else {
      LastOfConcat(a, b);
      CountConcat(a, b[..|b| - 1], m);
    }
  }

  lemma {:induction false} CountInResponses(messages: seq<Message>, calls: seq<string>, m: Message)
    ensures Count(Responses(messages, calls), m) == if Responds(m, calls) then Count(messages, m) else 0
  {
    if messages != [] {
      var n := |messages| - 1;
      var last := if Responds(messages[n], calls) then [messages[n]] else [];
      assert Responses(messages, calls) == Responses(messages[..n], calls) + last;
      assert Count(messages, m) == Count(messages[..n], m) + (if messages[n] == m then 1 else 0);
      assert Count(last, m) == if messages[n] == m && Responds(messages[n], calls) then 1 else 0;
      hide Count, Responses;
      CountInResponses(messages[..n], calls, m);
      CountConcat(Responses(messages[..n], calls), last, m);
    }
  }

  lemma CountInEmit(all: seq<Message>, before: seq<Message>, d: Message, m: Message)
    requires m.role == Tool
    ensures Count(Emit(all, before, d), m)
         == (if IsCaller(d) && Responds(m, d.calls) then Count(all, m) else 0)
            + (if d == m && m.tldr && Callers(before, m) == 0 then 1 else 0)
  {
    if IsCaller(d) {
      CountInResponses(all, d.calls, m);
      CountConcat([d], Responses(all, d.calls), m);
    }
  }

  lemma WalkOne(all: seq<Message>, done: seq<Message>, m: Message)
    ensures Walk(all, done + [m]) == Walk(all, done) + Emit(all, done, m)
  {
    LastOfConcat(done, [m]);
    assert done + [m][..0] == done;
  }

  ghost predicate Counted(all: seq<Message>, done: seq<Message>, m: Message) {
    Count(Walk(all, done), m) == Times(Callers(done, m), Count(all, m)) + Loose(done, m)
  }

  lemma OneMore(done: seq<Message>, d: Message, m: Message)
    ensures Callers(done + [d], m) == Callers(done, m) + (if IsCaller(d) && Responds(m, d.calls) then 1 else 0)
    ensures Loose(done + [d], m) == Loose(done, m) + (if d == m && m.tldr && Callers(done, m) == 0 then 1 else 0)
  {
    assert (done + [d])[..|done|] == done;
  }

  lemma CountedStep(all: seq<Message>, before: seq<Message>, d: Message, m: Message)
    requires m.role == Tool && Counted(all, before, m)
    ensures Counted(all, before + [d], m)
  {
    OneMore(before, d, m);
    hide Walk, Emit, Count, Callers, Loose;
    WalkOne(all, before, d);
    CountInEmit(all, before, d, m);
    CountConcat(Walk(all, before), Emit(all, before, d), m);
  }

  lemma NothingCounted(all: seq<Message>, m: Message)
    ensures Counted(all, [], m)
  {
  }

  lemma {:induction false} AllCounted(all: seq<Message>, n: nat, m: Message)
    requires m.role == Tool && n <= |all|
    ensures Counted(all, all[..n], m)
  {
    hide *;
    if n == 0 {
      assert all[..n] == [];
      NothingCounted(all, m);
    } else {
      AllCounted(all, n - 1, m);
      CountedStep(all, all[..n - 1], all[n - 1], m);
      assert all[..n] == all[..n - 1] + [all[n - 1]];
    }
  }

  /** A tool message comes out once for each of its callers and each time it is in, and no more,
      besides the "tldr" ones that come before their callers. */
  lemma ToolMessageCount(messages: seq<Message>, m: Message)
    requires m.role == Tool
    ensures Count(Reorder(messages), m) == Times(Callers(messages, m), Count(messages, m)) + Loose(messages, m)
  {
    AllCounted(messages, |messages|, m);
    assert messages[..|messages|] == messages;
  }

  /** No call id is used by two callers. */
  ghost predicate DistinctCalls(messages: seq<Message>) {
    forall i, j | 0 <= i < j < |messages| && IsCaller(messages[i]) && IsCaller(messages[j]) ::
      forall id | id in messages[i].calls :: id !in messages[j].calls
  }

  lemma {:induction false} AtMostOneCaller(messages: seq<Message>, m: Message)
    requires DistinctCalls(messages)
    ensures Callers(messages, m) <= 1
    ensures Callers(messages, m) == 1 <==> exists c ::
        c in messages && IsCaller(c) && Responds(m, c.calls)
  {
    if messages != [] {
      var n := |messages| - 1;
      var c := messages[n];
      assert Callers(messages, m) == Callers(messages[..n], m) + (if IsCaller(c) && Responds(m, c.calls) then 1 else 0);
      hide Callers;
      AtMostOneCaller(messages[..n], m);
      assert messages == messages[..n] + [c];
      assert IsCaller(c) && Responds(m, c.calls) ==>
        forall d | d in messages[..n] && IsCaller(d) :: m.answers.value !in d.calls;
    }
  }

  lemma {:induction false} NoLoose(done: seq<Message>, m: Message)
    requires !m.tldr
    ensures Loose(done, m) == 0
  {
    if done != [] {
      NoLoose(done[..|done| - 1], m);
    }
  }

  /** With distinct call ids a tool message that is no "tldr" one comes out as often as it went in
      when some message calls it, and not at all otherwise. */
  lemma ToolMessageKeptIffCalled(messages: seq<Message>, m: Message)
    requires DistinctCalls(messages) && m.role == Tool && !m.tldr
    ensures Count(Reorder(messages), m)
         == if exists c :: c in messages && IsCaller(c) && Responds(m, c.calls) then Count(messages, m) else 0
  {
    AtMostOneCaller(messages, m);
    ToolMessageCount(messages, m);
    NoLoose(messages, m);
  }

  /* Reordering twice. */

  /** No tool message has two callers, and no "tldr" one comes before its caller. */
  ghost predicate Tidy(messages: seq<Message>) {
    forall m | m in messages && m.role == Tool ::
      Callers(messages, m) <= 1 && (Callers(messages, m) == 1 ==> Loose(messages, m) == 0)
  }

  lemma {:induction false} CallersConcat(a: seq<Message>, b: seq<Message>, m: Message)
    ensures Callers(a + b, m) == Callers(a, m) + Callers(b, m)
  {
    if b == [] {
      assert a + b == a;
    } else {
      LastOfConcat(a, b);
      CallersConcat(a, b[..|b| - 1], m);
    }
  }

  lemma {:induction false} CallersIn(s: seq<Message>, i: nat, m: Message)
    requires i < |s| && IsCaller(s[i]) && Responds(m, s[i].calls)
    ensures Callers(s, m) >= 1
  {
    if i < |s| - 1 {
      CallersIn(s[..|s| - 1], i, m);
    }
  }

  lemma TwoCallers(s: seq<Message>, i: nat, j: nat, m: Message)
    requires i < |s| && j < |s| && i != j
    requires IsCaller(s[i]) && Responds(m, s[i].calls) && IsCaller(s[j]) && Responds(m, s[j].calls)
    ensures Callers(s, m) >= 2
  {
    var low, high := if i < j then i else j, if i < j then j else i;
    assert s == s[..high] + s[high..];
    CallersConcat(s[..high], s[high..], m);
    CallersIn(s[..high], low, m);
    CallersIn(s[high..], 0, m);
  }

  lemma {:induction false} LooseIn(s: seq<Message>, i: nat)
    requires i < |s| && s[i].tldr && Callers(s[..i], s[i]) == 0
    ensures Loose(s, s[i]) >= 1
  {
    var n := |s| - 1;
    if i < n {
      assert s[..n][..i] == s[..i];
      LooseIn(s[..n], i);
    }
  }

  lemma {:induction false} ResponsesConcat(a: seq<Message>, b: seq<Message>, calls: seq<string>)
    ensures Responses(a + b, calls) == Responses(a, calls) + Responses(b, calls)
  {
    if b == [] {
      assert a + b == a;
    } else {
      LastOfConcat(a, b);
      ResponsesConcat(a, b[..|b| - 1], calls);
    }
  }

  lemma {:induction false} AllRespond(s: seq<Message>, calls: seq<string>)
    requires forall m | m in s :: Responds(m, calls)
    ensures Responses(s, calls) == s
  {
    if s != [] {
      var n := |s| - 1;
      AllRespond(s[..n], calls);
      assert s[n] in s;
      PrefixStep(s, n);
      assert s[..n + 1] == s;
    }
  }

  lemma {:induction false} NoneResponds(s: seq<Message>, calls: seq<string>)
    requires forall m | m in s :: !Responds(m, calls)
    ensures Responses(s, calls) == []
  {
    if s != [] {
      NoneResponds(s[..|s| - 1], calls);
    }
  }

  /** What another message puts out holds no response to the calls of message c. */
  lemma OthersEmitNoResponse(messages: seq<Message>, c: nat, n: nat)
    requires Tidy(messages) && c < |messages| && IsCaller(messages[c]) && n < |messages| && n != c
    ensures Responses(Emit(messages, messages[..n], messages[n]), messages[c].calls) == []
  {
    var calls, d := messages[c].calls, messages[n];
    var out := Emit(messages, messages[..n], d);
    forall m | m in out ensures !Responds(m, calls) {
      if Responds(m, calls) {
        assert m in messages;
        CallersIn(messages, c, m);
        if IsCaller(d) {
          TwoCallers(messages, c, n, m);
        } else {
          assert m == d;
          LooseIn(messages, n);
        }
      }
    }
    NoneResponds(out, calls);
  }

  lemma OwnEmit(all: seq<Message>, before: seq<Message>, m: Message)
    requires IsCaller(m)
    ensures Responses(Emit(all, before, m), m.calls) == Responses(all, m.calls)
  {
    var own := Responses(all, m.calls);
    ResponsesConcat([m], own, m.calls);
    NoneResponds([m], m.calls);
    AllRespond(own, m.calls);
  }

  lemma NothingOut(all: seq<Message>, calls: seq<string>)
    ensures Responses(Walk(all, []), calls) == []
  {
  }

  /** Up to any point, the responses to the calls of message c are all out once c is, and none before. */
  lemma {:induction false} ResponsesOut(messages: seq<Message>, c: nat, n: nat)
    requires Tidy(messages) && c < |messages| && IsCaller(messages[c]) && n <= |messages|
    ensures Responses(Walk(messages, messages[..n]), messages[c].calls)
         == if n <= c then [] else Responses(messages, messages[c].calls)
  {
    hide *;
    if n == 0 {
      assert messages[..0] == [];
      NothingOut(messages, messages[c].calls);
    } else {
      var calls := messages[c].calls;
      ResponsesOut(messages, c, n - 1);
      WalkStep(messages, n - 1);
      var out := Emit(messages, messages[..n - 1], messages[n - 1]);
      ResponsesConcat(Walk(messages, messages[..n - 1]), out, calls);
      if n - 1 == c {
        OwnEmit(messages, messages[..c], messages[c]);
      } else {
        OthersEmitNoResponse(messages, c, n - 1);
      }
    }
  }

  /** Tool messages that already have a caller put out nothing more. */
  lemma {:induction false} ClaimedAreSkipped(all: seq<Message>, done: seq<Message>, claimed: seq<Message>)
    requires forall m | m in claimed :: m.role == Tool && Callers(done, m) > 0
    ensures Walk(all, done + claimed) == Walk(all, done)
  {
    if claimed == [] {
      assert done + claimed == done;
    } else {
      var n := |claimed| - 1;
      LastOfConcat(done, claimed);
      ClaimedAreSkipped(all, done, claimed[..n]);
      CallersConcat(done, claimed[..n], claimed[n]);
    }
  }

  lemma SkipResponses(all: seq<Message>, out: seq<Message>, m: Message, responses: seq<Message>)
    requires IsCaller(m) && forall r | r in responses :: Responds(r, m.calls)
    ensures Walk(all, out + ([m] + responses)) == Walk(all, out + [m])
  {
    ClaimedAreSkipped(all, out + [m], responses);
    Assoc(out, [m], responses);
  }

  lemma CallerAgain(again: seq<Message>, out: seq<Message>, m: Message)
    requires IsCaller(m)
    ensures Walk(again, out + ([m] + Responses(again, m.calls))) == Walk(again, out) + ([m] + Responses(again, m.calls))
  {
    SkipResponses(again, out, m, Responses(again, m.calls));
    WalkOne(again, out, m);
  }

  lemma OtherAgain(all: seq<Message>, again: seq<Message>, before: seq<Message>, out: seq<Message>, m: Message)
    requires !IsCaller(m) && Callers(out, m) == Callers(before, m)
    ensures Walk(again, out + Emit(all, before, m)) == Walk(again, out) + Emit(all, before, m)
  {
    if Emit(all, before, m) == [] {
      assert out + [] == out && Walk(again, out) + [] == Walk(again, out);
    } else {
      WalkOne(again, out, m);
    }
  }

  /** Walking the reordered messages up to some point puts out what was put out up to there. */
  ghost predicate SameAgain(messages: seq<Message>, done: seq<Message>) {
    Walk(Reorder(messages), Walk(messages, done)) == Walk(messages, done)
  }

  lemma CallerSameAgain(messages: seq<Message>, before: seq<Message>, m: Message)
    requires SameAgain(messages, before) && IsCaller(m)
    requires Responses(Reorder(messages), m.calls) == Responses(messages, m.calls)
    ensures SameAgain(messages, before + [m])
  {
    WalkOne(messages, before, m);
    CallerAgain(Reorder(messages), Walk(messages, before), m);
  }

  lemma OtherSameAgain(messages: seq<Message>, before: seq<Message>, m: Message)
    requires SameAgain(messages, before) && !IsCaller(m)
    ensures SameAgain(messages, before + [m])
  {
    WalkOne(messages, before, m);
    CallersKept(messages, before, m);
    OtherAgain(messages, Reorder(messages), before, Walk(messages, before), m);
  }

  lemma StepSameAgain(messages: seq<Message>, n: nat, done: seq<Message>)
    requires Tidy(messages) && n < |messages| && SameAgain(messages, messages[..n])
    requires done == messages[..n] + [messages[n]]
    ensures SameAgain(messages, done)
  {
    if IsCaller(messages[n]) {
      AllResponsesOut(messages, n);
      CallerSameAgain(messages, messages[..n], messages[n]);
    } else {
      OtherSameAgain(messages, messages[..n], messages[n]);
    }
  }

  lemma NothingAgain(messages: seq<Message>)
    ensures SameAgain(messages, [])
  {
  }

  /** Walking the reordered messages gives back what was put out, step by step. */
  lemma {:induction false} WalkAgain(messages: seq<Message>, n: nat)
    requires Tidy(messages) && n <= |messages|
    ensures SameAgain(messages, messages[..n])
  {
    hide *;
    if n == 0 {
      NothingAgain(messages);
      assert messages[..0] == [];
    } else {
      WalkAgain(messages, n - 1);
      PrefixStep(messages, n - 1);
      StepSameAgain(messages, n - 1, messages[..n]);
    }
  }

  lemma AllResponsesOut(messages: seq<Message>, c: nat)
    requires Tidy(messages) && c < |messages| && IsCaller(messages[c])
    ensures Responses(Reorder(messages), messages[c].calls) == Responses(messages, messages[c].calls)
  {
    ResponsesOut(messages, c, |messages|);
    assert messages[..|messages|] == messages;
  }

  lemma {:induction false} LooseGrows(s: seq<Message>, more: seq<Message>, m: Message)
    ensures Loose(s + more, m) >= Loose(s, m)
  {
    if more == [] {
      assert s + more == s;
    } else {
      LastOfConcat(s, more);
      LooseGrows(s, more[..|more| - 1], m);
    }
  }

  /** A message that came out on its own comes out on its own again. */
  lemma {:induction false} LooseAgain(messages: seq<Message>, done: seq<Message>, m: Message)
    requires Loose(done, m) > 0
    ensures m.role == Tool ==> Loose(Walk(messages, done), m) > 0
    ensures m in done
  {
    var n := |done| - 1;
    var out := Walk(messages, done[..n]);
    if Loose(done[..n], m) > 0 {
      LooseAgain(messages, done[..n], m);
      LooseGrows(out, Emit(messages, done[..n], done[n]), m);
    } else {
      CallersKept(messages, done[..n], m);
      LastOfConcat(out, [m]);
      assert out + [m][..0] == out;
    }
  }

  lemma {:induction false} TimesGrows(k: nat, count: nat)
    requires k >= 1
    ensures Times(k, count) >= count
    ensures k >= 2 && count >= 1 ==> Times(k, count) > count
  {
    if k > 1 {
      TimesGrows(k - 1, count);
    }
  }

  lemma {:induction false} CountIn(s: seq<Message>, m: Message)
    requires m in s
    ensures Count(s, m) >= 1
  {
    var n := |s| - 1;
    if s[n] != m {
      assert s == s[..n] + [s[n]];
      CountIn(s[..n], m);
    }
  }

  /** A tool message with two callers, or a "tldr" one before its caller, multiplies. */
  lemma UntidyMultiplies(messages: seq<Message>, m: Message)
    requires m in messages && m.role == Tool
    requires Callers(messages, m) >= 2 || (Callers(messages, m) == 1 && Loose(messages, m) > 0)
    ensures Count(Reorder(Reorder(messages)), m) > Count(Reorder(messages), m)
  {
    var once, k := Reorder(messages), Callers(messages, m);
    ToolMessageCount(messages, m);
    ToolMessageCount(once, m);
    CallersKept(messages, messages, m);
    CountIn(messages, m);
    TimesGrows(k, Count(messages, m));
    TimesGrows(k, Count(once, m));
    if k == 1 {
      LooseAgain(messages, messages, m);
    }
  }

  /** Reordering twice is reordering once exactly when no tool message has two callers and no "tldr"
      one comes before its caller. */
  lemma IdempotentIffTidy(messages: seq<Message>)
    ensures Reorder(Reorder(messages)) == Reorder(messages) <==> Tidy(messages)
  {
    if Tidy(messages) {
      WalkAgain(messages, |messages|);
      assert messages[..|messages|] == messages;
    } else {
      var m :|
        && m in messages && m.role == Tool
        && !(Callers(messages, m) <= 1 && (Callers(messages, m) == 1 ==> Loose(messages, m) == 0));
      UntidyMultiplies(messages, m);
    }
  }

  /** Distinct call ids and no "tldr" tool message are enough. */
  lemma DistinctCallsAreTidy(messages: seq<Message>)
    requires DistinctCalls(messages) && forall m | m in messages && m.role == Tool :: !m.tldr
    ensures Tidy(messages) && Reorder(Reorder(messages)) == Reorder(messages)
  {
    forall m | m in messages && m.role == Tool
      ensures Callers(messages, m) <= 1 && (Callers(messages, m) == 1 ==> Loose(messages, m) == 0)
    {
      AtMostOneCaller(messages, m);
      NoLoose(messages, m);
    }
    IdempotentIffTidy(messages);
  }
}
