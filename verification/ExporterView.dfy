/** ExporterViewProcessor of private_gpt/observability/processors.py: HTTP roots are held until
    their chat turn has ended, then exported with the turn's attributes. */
module ExporterView {
  import opened Sequences
  import opened Wrappers

  type SpanId = nat

  datatype Value = Str(text: string) | Other(raw: nat)
  type Attributes = map<string, Value>

  /** An ended span. `turnRoute` is what `_is_turn_route` answers for it. */
  datatype Span = Span(
    id: SpanId,
    parent: Option<SpanId>,
    name: string,
    turnRoute: bool,
    error: bool,
    endTime: int,
    attributes: Attributes)

  const TURN_KEYS: set<string> := {
    "output.value", "output.mime_type", "session.id", "user.id", "metadata", "pgpt.output.message"
  }

  datatype State = State(turns: map<SpanId, Attributes>, held: seq<Span>, exported: seq<Span>)

  predicate IsTurn(s: Span) {
    s.name == "chat.turn" && s.parent.Some?
  }

  function TurnOf(s: Span): Attributes {
    map k | k in TURN_KEYS && k in s.attributes :: s.attributes[k]
  }

  /** The root with its response body moved aside and the turn's attributes merged in. */
  function WithTurn(s: Span, turn: Attributes): Span {
    var moved := if "output.value" in s.attributes
                 then s.attributes["pgpt.http.response.body" := s.attributes["output.value"]]
                 else s.attributes;
    var merged := moved + turn;
    var key := "pgpt.output.message";
    var final := if key in turn && turn[key].Str? && turn[key].text != ""
                 then merged["output.value" := turn[key]]["output.mime_type" := Str("application/json")]
                 else merged;
    s.(attributes := final)
  }

  /* The dictionary of held roots, in insertion order. */

  predicate Holds(held: seq<Span>, id: SpanId) {
    held != [] && (held[0].id == id || Holds(held[1..], id))
  }

  function HeldSpan(held: seq<Span>, id: SpanId): (s: Span)
    requires Holds(held, id)
    ensures s.id == id && s in held
  {
    if held[0].id == id then held[0] else HeldSpan(held[1..], id)
  }

  function Drop(held: seq<Span>, id: SpanId): seq<Span> {
    if held == [] then [] else if held[0].id == id then held[1..] else [held[0]] + Drop(held[1..], id)
  }

  /** `held[id] = span`: in place when the id is there, else at the end. */
  function Put(held: seq<Span>, s: Span): seq<Span> {
    if held == [] then [s] else if held[0].id == s.id then [s] + held[1..] else [held[0]] + Put(held[1..], s)
  }

  function Expired(held: seq<Span>, limit: int): seq<Span> {
    if held == [] then []
    else if held[0].endTime < limit then [held[0]] + Expired(held[1..], limit)
    else Expired(held[1..], limit)
  }

  function Unexpired(held: seq<Span>, limit: int): seq<Span> {
    if held == [] then []
    else if held[0].endTime < limit then Unexpired(held[1..], limit)
    else [held[0]] + Unexpired(held[1..], limit)
  }

  /** First half of `on_end`: a finished turn goes to its held root, or waits for it. */
  function TakeTurn(s: State, span: Span): State {
    if !IsTurn(span) then s
    else
      var root := span.parent.value;
      if Holds(s.held, root)
      then State(s.turns, Drop(s.held, root), s.exported + [WithTurn(HeldSpan(s.held, root), TurnOf(span))])
      else s.(turns := s.turns[root := TurnOf(span)])
  }

  /** What happens to the ended span itself: exported (with its turn) now, or held. */
  function TakeSpan(s: State, span: Span): (State, Option<Span>) {
    if !span.turnRoute then (s, Some(span))
    else if span.id in s.turns then (s.(turns := s.turns - {span.id}), Some(WithTurn(span, s.turns[span.id])))
    else if !span.error then (s.(held := Put(s.held, span)), None)
    else (s, Some(span))
  }

  function Sweep(s: State, limit: int): State {
    State(s.turns, Unexpired(s.held, limit), s.exported + Expired(s.held, limit))
  }

  function OnEnd(s: State, span: Span, limit: int): State {
    var (taken, current) := TakeSpan(TakeTurn(s, span), span);
    Released(Sweep(taken, limit), current)
  }

  class ExporterViewProcessor {
    const turnRoot: bool
    const holdNs: int
    var turns: map<SpanId, Attributes>
    var held: seq<Span>
    var exported: seq<Span>

    function Current(): State
      reads this
    {
      State(turns, held, exported)
    }

    constructor (turnRoot: bool, holdNs: int)
      ensures this.turnRoot == turnRoot && this.holdNs == holdNs && Current() == State(map[], [], [])
    {
      this.turnRoot, this.holdNs := turnRoot, holdNs;
      turns, held, exported := map[], [], [];
    }

    method End(span: Span, now: int)
      modifies this
      ensures Current() == if turnRoot then OnEnd(old(Current()), span, now - holdNs)
                           else old(Current()).(exported := old(exported) + [span])
    {
      if !turnRoot {
        exported := exported + [span];
        return;
      }
      var ready: seq<Span> := [];
      var current: Option<Span> := Some(span);
      if span.name == "chat.turn" && span.parent.Some? {
        var turn := TurnOf(span);
        if Holds(held, span.parent.value) {
          ready := ready + [WithTurn(HeldSpan(held, span.parent.value), turn)];
          held := Drop(held, span.parent.value);
        } else {
          turns := turns[span.parent.value := turn];
        }
      }
      ghost var s1 := TakeTurn(old(Current()), span);
      assert s1 == State(turns, held, exported + ready);
      if span.turnRoute {
        if span.id in turns {
          current := Some(WithTurn(span, turns[span.id]));
          turns := turns - {span.id};
        } else if !span.error {
          held := Put(held, span);
          current := None;
        }
      }
      ghost var s2 := State(turns, held, s1.exported);
      assert TakeSpan(s1, span) == (s2, current);
      Assoc(exported, ready, Expired(held, now - holdNs));
      ready := ready + Expired(held, now - holdNs);
      held := Unexpired(held, now - holdNs);
      ghost var s3 := Sweep(s2, now - holdNs);
      assert s3 == State(turns, held, exported + ready);
      if current.Some? {
        Assoc(exported, ready, [current.value]);
        ready := ready + [current.value];
      }
      exported := exported + ready;
    }

    method Shutdown()
      modifies this
      ensures held == [] && turns == old(turns) && exported == old(exported) + old(held)
    {
      exported := exported + held;
      held := [];
    }
  }

  /* Conservation: every span received is exported once or held once. */

  function Ids(spans: seq<Span>): multiset<SpanId> {
    if spans == [] then multiset{} else multiset{spans[0].id} + Ids(spans[1..])
  }

  lemma {:induction false} IdsConcat(a: seq<Span>, b: seq<Span>)
    ensures Ids(a + b) == Ids(a) + Ids(b)
  {
    if a == [] {
      assert a + b == b;
    } else {
      assert (a + b)[1..] == a[1..] + b;
      IdsConcat(a[1..], b);
    }
  }

  lemma {:induction false} HoldsIsCounted(held: seq<Span>, id: SpanId)
    ensures Holds(held, id) <==> id in Ids(held)
  {
    if held != [] { HoldsIsCounted(held[1..], id); }
  }

  lemma {:induction false} DropIds(held: seq<Span>, id: SpanId)
    requires Holds(held, id)
    ensures Ids(held) == Ids(Drop(held, id)) + multiset{id}
  {
    if held[0].id != id {
      DropIds(held[1..], id);
      IdsConcat([held[0]], Drop(held[1..], id));
    }
  }

  lemma {:induction false} PutIds(held: seq<Span>, s: Span)
    requires !Holds(held, s.id)
    ensures Ids(Put(held, s)) == Ids(held) + multiset{s.id}
  {
    if held != [] {
      PutIds(held[1..], s);
      assert Put(held, s)[1..] == Put(held[1..], s);
    }
  }

  lemma {:induction false} SweepIds(held: seq<Span>, limit: int)
    ensures Ids(held) == Ids(Expired(held, limit)) + Ids(Unexpired(held, limit))
  {
    if held != [] {
      SweepIds(held[1..], limit);
    }
  }

  function Accounted(s: State): multiset<SpanId> {
    Ids(s.exported) + Ids(s.held)
  }

  lemma TakeTurnConserves(s: State, span: Span)
    ensures Accounted(TakeTurn(s, span)) == Accounted(s)
  {
    if IsTurn(span) && Holds(s.held, span.parent.value) {
      var merged := WithTurn(HeldSpan(s.held, span.parent.value), TurnOf(span));
      IdsConcat(s.exported, [merged]);
      DropIds(s.held, span.parent.value);
    }
  }

  lemma TakeTurnHoldsLess(s: State, span: Span, id: SpanId)
    requires id !in Ids(s.held)
    ensures id !in Ids(TakeTurn(s, span).held)
  {
    if IsTurn(span) && Holds(s.held, span.parent.value) { DropIds(s.held, span.parent.value); }
  }

  function Pending(current: Option<Span>): multiset<SpanId> {
    if current.Some? then multiset{current.value.id} else multiset{}
  }

  lemma TakeSpanConserves(s: State, span: Span)
    requires span.id !in Ids(s.held)
    ensures var (t, current) := TakeSpan(s, span); Accounted(t) + Pending(current) == Accounted(s) + multiset{span.id}
  {
    HoldsIsCounted(s.held, span.id);
    if TakeSpan(s, span).1.None? { PutIds(s.held, span); }
  }

  lemma SweepConserves(s: State, limit: int)
    ensures Accounted(Sweep(s, limit)) == Accounted(s)
  {
    SweepIds(s.held, limit);
    IdsConcat(s.exported, Expired(s.held, limit));
  }

  /** One received span adds exactly its own id to what is exported or held. */
  lemma OnEndConserves(s: State, span: Span, limit: int)
    requires span.id !in Ids(s.held)
    ensures Accounted(OnEnd(s, span, limit)) == Accounted(s) + multiset{span.id}
  {
    var t := TakeTurn(s, span);
    TakeTurnConserves(s, span);
    TakeTurnHoldsLess(s, span, span.id);
    TakeSpanConserves(t, span);
    SweepConserves(TakeSpan(t, span).0, limit);
    ReleaseCurrent(Sweep(TakeSpan(t, span).0, limit), TakeSpan(t, span).1);
  }

  function Released(s: State, current: Option<Span>): State {
    if current.Some? then s.(exported := s.exported + [current.value]) else s
  }

  lemma ReleaseCurrent(s: State, current: Option<Span>)
    ensures Accounted(Released(s, current)) == Accounted(s) + Pending(current)
  {
    if current.Some? { IdsConcat(s.exported, [current.value]); }
  }

  datatype Ended = Ended(span: Span, limit: int)

  function Run(s: State, es: seq<Ended>): State
    decreases |es|
  {
    if es == [] then s else Run(OnEnd(s, es[0].span, es[0].limit), es[1..])
  }

  function Received(es: seq<Ended>): multiset<SpanId> {
    if es == [] then multiset{} else multiset{es[0].span.id} + Received(es[1..])
  }

  ghost predicate EachEndsOnce(es: seq<Ended>) {
    forall i, j | 0 <= i < j < |es| :: es[i].span.id != es[j].span.id
  }

  lemma {:induction false} RunConserves(s: State, es: seq<Ended>)
    requires EachEndsOnce(es) && forall e | e in es :: e.span.id !in Accounted(s)
    ensures Accounted(Run(s, es)) == Accounted(s) + Received(es)
    decreases |es|
  {
    if es != [] {
      assert es[0] in es;
      OnEndConserves(s, es[0].span, es[0].limit);
      forall e | e in es[1..] ensures e.span.id !in Accounted(OnEnd(s, es[0].span, es[0].limit)) {
        assert e in es;
      }
      RunConserves(OnEnd(s, es[0].span, es[0].limit), es[1..]);
    }
  }

  /** At every moment received = exported + held, so after shutdown every span received has been
      exported exactly once. */
  lemma DeliveredExactlyOnce(es: seq<Ended>)
    requires EachEndsOnce(es)
    ensures var s := Run(State(map[], [], []), es);
            && Received(es) == Ids(s.exported) + Ids(s.held)
            && Ids(s.exported + s.held) == Received(es)
  {
    RunConserves(State(map[], [], []), es);
    var s := Run(State(map[], [], []), es);
    IdsConcat(s.exported, s.held);
  }

  /* A root gets the same attributes whether its turn ends before or after it. */

  /** Spans that have nothing to do with the root: another id, and not a turn of it. */
  predicate Unrelated(span: Span, root: SpanId) {
    span.id != root && !(IsTurn(span) && span.parent.value == root)
  }

  lemma {:induction false} DropOther(held: seq<Span>, id: SpanId, root: Span)
    requires root in held && root.id != id
    ensures root in Drop(held, id)
  {
    if held[0].id != id {
      if root in held[1..] { DropOther(held[1..], id, root); }
    } else {
      assert root in held[1..];
    }
  }

  lemma {:induction false} PutOther(held: seq<Span>, s: Span, root: Span)
    requires root in held && root.id != s.id
    ensures root in Put(held, s)
  {
    if root in held[1..] && held[0].id != s.id { PutOther(held[1..], s, root); }
  }

  lemma {:induction false} PutPresent(held: seq<Span>, s: Span)
    ensures s in Put(held, s)
  {
    if held != [] && held[0].id != s.id { PutPresent(held[1..], s); }
  }

  lemma {:induction false} KeptUnexpired(held: seq<Span>, limit: int, root: Span)
    requires root in held && root.endTime >= limit
    ensures root in Unexpired(held, limit)
  {
    if root in held[1..] { KeptUnexpired(held[1..], limit, root); }
  }

  lemma OthersKeepRoot(s: State, span: Span, limit: int, root: Span)
    requires root in s.held && Unrelated(span, root.id) && root.endTime >= limit
    ensures root in OnEnd(s, span, limit).held
  {
    if IsTurn(span) && Holds(s.held, span.parent.value) { DropOther(s.held, span.parent.value, root); }
    var t := TakeTurn(s, span);
    var (taken, current) := TakeSpan(t, span);
    if current.None? { PutOther(t.held, span, root); }
    KeptUnexpired(taken.held, limit, root);
  }

  lemma {:induction false} OthersKeepTurnOverRuns(s: State, es: seq<Ended>, root: SpanId)
    requires root in s.turns && forall e | e in es :: Unrelated(e.span, root)
    ensures root in Run(s, es).turns && Run(s, es).turns[root] == s.turns[root]
    decreases |es|
  {
    if es != [] {
      assert es[0] in es;
      OthersKeepTurnOverRuns(OnEnd(s, es[0].span, es[0].limit), es[1..], root);
    }
  }

  lemma {:induction false} OthersKeepRootOverRuns(s: State, es: seq<Ended>, root: Span)
    requires root in s.held && forall e | e in es ::
        Unrelated(e.span, root.id) && root.endTime >= e.limit
    ensures root in Run(s, es).held
    decreases |es|
  {
    if es != [] {
      assert es[0] in es;
      OthersKeepRoot(s, es[0].span, es[0].limit, root);
      OthersKeepRootOverRuns(OnEnd(s, es[0].span, es[0].limit), es[1..], root);
    }
  }

  /** A dictionary holds one span per id. */
  predicate DistinctIds(held: seq<Span>) {
    held == [] || (!Holds(held[1..], held[0].id) && DistinctIds(held[1..]))
  }

  lemma {:induction false} HoldsAfter(held: seq<Span>, s: Span, id: SpanId, limit: int)
    ensures Holds(Drop(held, s.id), id) ==> Holds(held, id)
    ensures Holds(Put(held, s), id) <==> Holds(held, id) || id == s.id
    ensures Holds(Unexpired(held, limit), id) ==> Holds(held, id)
  {
    if held != [] {
      HoldsAfter(held[1..], s, id, limit);
      assert held[0].id != s.id ==> Put(held, s)[1..] == Put(held[1..], s);
      assert held[0].id != s.id ==> Drop(held, s.id)[1..] == Drop(held[1..], s.id);
      assert held[0].endTime >= limit ==> Unexpired(held, limit)[1..] == Unexpired(held[1..], limit);
    }
  }

  lemma {:induction false} StaysDistinct(held: seq<Span>, s: Span, limit: int)
    requires DistinctIds(held)
    ensures DistinctIds(Drop(held, s.id)) && DistinctIds(Put(held, s)) && DistinctIds(Unexpired(held, limit))
  {
    if held != [] {
      StaysDistinct(held[1..], s, limit);
      HoldsAfter(held[1..], s, held[0].id, limit);
      assert held[0].id != s.id ==> Put(held, s)[1..] == Put(held[1..], s);
      assert held[0].id != s.id ==> Drop(held, s.id)[1..] == Drop(held[1..], s.id);
      assert held[0].endTime >= limit ==> Unexpired(held, limit)[1..] == Unexpired(held[1..], limit);
    }
  }

  lemma {:induction false} DistinctOverRuns(s: State, es: seq<Ended>)
    requires DistinctIds(s.held)
    ensures DistinctIds(Run(s, es).held)
    decreases |es|
  {
    if es != [] {
      var span, limit := es[0].span, es[0].limit;
      if IsTurn(span) { StaysDistinct(s.held, span.(id := span.parent.value), limit); }
      var t := TakeTurn(s, span);
      StaysDistinct(t.held, span, limit);
      StaysDistinct(TakeSpan(t, span).0.held, span, limit);
      DistinctOverRuns(OnEnd(s, span, limit), es[1..]);
    }
  }

  lemma {:induction false} HeldIsIt(held: seq<Span>, root: Span)
    requires root in held && DistinctIds(held)
    ensures Holds(held, root.id) && HeldSpan(held, root.id) == root
  {
    if held[0] != root {
      HeldIsIt(held[1..], root);
    }
  }

  predicate IsTurnKey(k: string) {
    || k == "output.value" || k == "output.mime_type" || k == "session.id"
    || k == "user.id" || k == "metadata" || k == "pgpt.output.message"
  }

  predicate HasMessage(turn: Span) {
    var key := "pgpt.output.message";
    key in turn.attributes && turn.attributes[key].Str? && turn.attributes[key].text != ""
  }

  predicate SameAt(from: Attributes, to: Attributes, k: string) {
    (k in to <==> k in from) && (k in from && k in to ==> to[k] == from[k])
  }

  /** Attribute k of the exported root: the turn's message stands for its output, other attributes of the
      turn prevail over the root's, whose own output is kept as the response body. */
  predicate MergedAt(root: Span, turn: Span, r: Span, k: string) {
    if HasMessage(turn) && k == "output.value" then
      k in r.attributes && r.attributes[k] == turn.attributes["pgpt.output.message"]
    else if HasMessage(turn) && k == "output.mime_type" then
      k in r.attributes && r.attributes[k] == Str("application/json")
    else if IsTurnKey(k) && k in turn.attributes then SameAt(turn.attributes, r.attributes, k)
    else if k == "pgpt.http.response.body" && "output.value" in root.attributes then
      k in r.attributes && r.attributes[k] == root.attributes["output.value"]
    else SameAt(root.attributes, r.attributes, k)
  }

  /** The exported span is the root in all but its attributes, which are merged. */
  ghost predicate Merged(root: Span, turn: Span, r: Span) {
    r == root.(attributes := r.attributes) && forall k :: MergedAt(root, turn, r, k)
  }

  lemma WithTurnMerges(root: Span, turn: Span)
    ensures Merged(root, turn, WithTurn(root, TurnOf(turn)))
  {
  }

  /** The turn ends first: whatever ends in between, the root leaves with the turn merged in. */
  lemma TurnThenRoot(s: State, turn: Ended, between: seq<Ended>, root: Ended) returns (r: Span)
    requires turn.span.name == "chat.turn" && turn.span.parent == Some(root.span.id)
    requires root.span.turnRoute && (root.span.name != "chat.turn" || root.span.parent.None?)
    requires !Holds(s.held, root.span.id) && !turn.span.turnRoute
    requires forall e | e in between :: Unrelated(e.span, root.span.id)
    ensures var t := OnEnd(Run(OnEnd(s, turn.span, turn.limit), between), root.span, root.limit);
            r in t.exported && Merged(root.span, turn.span, r)
  {
    r := WithTurn(root.span, TurnOf(turn.span));
    WithTurnMerges(root.span, turn.span);
    hide WithTurn, TurnOf, Merged;
    OthersKeepTurnOverRuns(OnEnd(s, turn.span, turn.limit), between, root.span.id);
  }

  /** The root ends first and is not an error: it leaves with the same attributes when its turn
      ends, as long as its hold has not expired by then. */
  lemma RootThenTurn(s: State, root: Ended, between: seq<Ended>, turn: Ended) returns (r: Span)
    requires turn.span.name == "chat.turn" && turn.span.parent == Some(root.span.id)
    requires root.span.turnRoute && (root.span.name != "chat.turn" || root.span.parent.None?)
    requires !root.span.error && root.span.id !in s.turns
    requires forall e | e in between ::
        Unrelated(e.span, root.span.id) && root.span.endTime >= e.limit
    requires root.span.endTime >= root.limit
    requires DistinctIds(s.held)
    ensures var t := OnEnd(Run(OnEnd(s, root.span, root.limit), between), turn.span, turn.limit);
            r in t.exported && Merged(root.span, turn.span, r)
  {
    r := WithTurn(root.span, TurnOf(turn.span));
    WithTurnMerges(root.span, turn.span);
    hide WithTurn, TurnOf, Merged;
    PutPresent(s.held, root.span);
    KeptUnexpired(Put(s.held, root.span), root.limit, root.span);
    var s1 := OnEnd(s, root.span, root.limit);
    OthersKeepRootOverRuns(s1, between, root.span);
    var s2 := Run(s1, between);
    DistinctOverRuns(s, [root]);
    assert [root][1..] == [] && Run(s1, []) == s1;
    DistinctOverRuns(s1, between);
    HeldIsIt(s2.held, root.span);
  }
}
