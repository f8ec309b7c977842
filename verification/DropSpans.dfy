/** DropSpansProcessor of private_gpt/observability/processors.py: children of dropped spans are
    re-attached, and an exported span never loses the ancestor it is attached to. */
module DropSpans {
  import opened Wrappers

  type SpanId = nat
  type Parent = Option<SpanId>

  /** A span as it starts; `dropped` says whether its name matches a pattern, `at` orders starts. */
  datatype Span = Span(id: SpanId, parent: Parent, dropped: bool, at: nat)

  /** What `_idle` looks at when the span ends. */
  datatype Ending = Ending(ok: bool, condensedFalse: bool, changedFalse: bool)

  datatype Delivered = Delivered(id: SpanId, parent: Parent)

  datatype Processor = Processor(reparent: map<SpanId, Parent>, hasChildren: set<SpanId>, delivered: seq<Delivered>)

  /** No recorded parent is itself recorded as dropped, so `_resolve` needs at most one hop. */
  predicate Flat(reparent: map<SpanId, Parent>) {
    forall k | k in reparent :: reparent[k].None? || reparent[k].value !in reparent
  }

  function Resolve(reparent: map<SpanId, Parent>, parent: Parent): Parent {
    if parent.Some? && parent.value in reparent then reparent[parent.value] else parent
  }

  predicate Idle(p: Processor, id: SpanId, e: Ending) {
    e.ok && (e.condensedFalse || (e.changedFalse && id !in p.hasChildren))
  }

  function OnStart(p: Processor, s: Span): Processor {
    if s.dropped then p.(reparent := p.reparent[s.id := Resolve(p.reparent, s.parent)]) else p
  }

  function OnEnd(p: Processor, s: Span, e: Ending): Processor {
    if s.dropped then p.(reparent := p.reparent - {s.id})
    else
      var rest := p.(hasChildren := p.hasChildren - {s.id});
      if Idle(p, s.id, e) then rest
      else
        var parent := Resolve(p.reparent, s.parent);
        Processor(p.reparent,
                  if parent.Some? then rest.hasChildren + {parent.value} else rest.hasChildren,
                  p.delivered + [Delivered(s.id, parent)])
  }

  class DropSpansProcessor {
    var reparent: map<SpanId, Parent>
    var hasChildren: set<SpanId>
    var delivered: seq<Delivered>

    function State(): Processor
      reads this
    {
      Processor(reparent, hasChildren, delivered)
    }

    constructor ()
      ensures State() == Processor(map[], {}, [])
    {
      reparent, hasChildren, delivered := map[], {}, [];
    }

    method ResolveParent(parent: Parent) returns (resolved: Parent)
      requires Flat(reparent)
      ensures resolved == Resolve(reparent, parent)
    {
      resolved := parent;
      while resolved.Some? && resolved.value in reparent
        invariant
          || resolved == parent
          || (resolved == Resolve(reparent, parent) && (resolved.None? || resolved.value !in reparent))
        decreases if resolved.Some? && resolved.value in reparent then 1 else 0
      {
        resolved := reparent[resolved.value];
      }
    }

    method Start(s: Span)
      requires Flat(reparent)
      modifies this
      ensures State() == OnStart(old(State()), s)
    {
      if s.dropped {
        var parent := ResolveParent(s.parent);
        reparent := reparent[s.id := parent];
      }
    }

    method End(s: Span, e: Ending)
      requires Flat(reparent)
      modifies this
      ensures State() == OnEnd(old(State()), s, e)
    {
      if s.dropped {
        reparent := reparent - {s.id};
        return;
      }
      var idle := Idle(State(), s.id, e);
      hasChildren := hasChildren - {s.id};
      if idle { return; }
      var parent := s.parent;
      if parent.Some? {
        if parent.value in reparent { parent := ResolveParent(parent); }
        if parent.Some? { hasChildren := hasChildren + {parent.value}; }
      }
      delivered := delivered + [Delivered(s.id, parent)];
    }
  }

  /* Runs in which children start while their parent is open and end before it. */

  datatype World = World(p: Processor, spans: map<SpanId, Span>, open: set<SpanId>, endings: map<SpanId, Ending>)

  datatype Event = Starts(span: Span) | Ends(id: SpanId, ending: Ending)

  predicate Enabled(w: World, e: Event) {
    match e
    case Starts(s) =>
      && s.id !in w.spans && s.parent != Some(s.id) && s.at == |w.spans|
      && (forall k | k in w.spans :: w.spans[k].parent != Some(s.id))
      && (s.parent.Some? && s.parent.value in w.spans ==> s.parent.value in w.open)
    case Ends(id, _) =>
      && id in w.open && id in w.spans
      && (forall k | k in w.open && k in w.spans :: w.spans[k].parent != Some(id))
  }

  function Next(w: World, e: Event): World {
    match e
    case Starts(s) => World(OnStart(w.p, s), w.spans[s.id := s], w.open + {s.id}, w.endings)
    case Ends(id, ending) =>
      if id !in w.spans then w
      else World(OnEnd(w.p, w.spans[id], ending), w.spans, w.open - {id}, w.endings[id := ending])
  }

  ghost predicate CanRun(w: World, es: seq<Event>)
    decreases |es|
  {
    es == [] || (Enabled(w, es[0]) && CanRun(Next(w, es[0]), es[1..]))
  }

  function Run(w: World, es: seq<Event>): World
    decreases |es|
  {
    if es == [] then w else Run(Next(w, es[0]), es[1..])
  }

  const INITIAL := World(Processor(map[], {}, []), map[], {}, map[])

  /** Parents start before their children; spans whose id never starts here are remote. */
  ghost predicate Ranked(spans: map<SpanId, Span>) {
    forall k | k in spans ::
      && spans[k].id == k
      && (spans[k].parent.Some? && spans[k].parent.value in spans ==> spans[spans[k].parent.value].at < spans[k].at)
  }

  /** The first span at or above `parent` that is not dropped by name. */
  ghost function NearestKept(spans: map<SpanId, Span>, parent: Parent): (kept: Parent)
    requires Ranked(spans)
    ensures kept.Some? && kept.value in spans ==> !spans[kept.value].dropped
    decreases if parent.Some? && parent.value in spans then spans[parent.value].at + 1 else 0
  {
    if parent.Some? && parent.value in spans && spans[parent.value].dropped
    then NearestKept(spans, spans[parent.value].parent)
    else parent
  }

  predicate DroppedAsCondensation(w: World, id: SpanId) {
    id in w.endings && w.endings[id].ok && w.endings[id].condensedFalse
  }

  predicate IsDelivered(w: World, id: SpanId) {
    exists d | d in w.p.delivered :: d.id == id
  }

  ghost predicate Attached(w: World, d: Delivered)
    requires Ranked(w.spans)
  {
    && d.id in w.spans && !w.spans[d.id].dropped
    && d.parent == NearestKept(w.spans, w.spans[d.id].parent)
    && (d.parent.Some? && d.parent.value in w.spans ==>
          if d.parent.value in w.open then d.parent.value in w.p.hasChildren
          else IsDelivered(w, d.parent.value) || DroppedAsCondensation(w, d.parent.value))
  }

  ghost predicate Inv(w: World) {
    && Ranked(w.spans) && w.open <= w.spans.Keys
    && (forall k | k in w.spans :: w.spans[k].at < |w.spans|)
    && (forall k | k in w.open && w.spans[k].parent.Some? && w.spans[k].parent.value in w.spans ::
        w.spans[k].parent.value in w.open)
    && (forall k :: k in w.p.reparent <==> k in w.open && w.spans[k].dropped)
    && (forall k | k in w.p.reparent ::
        w.p.reparent[k] == NearestKept(w.spans, w.spans[k].parent))
    && (forall d | d in w.p.delivered :: Attached(w, d))
  }

  /** A new span changes nobody's nearest kept ancestor. */
  lemma {:induction false} NearestKeptStays(spans: map<SpanId, Span>, s: Span, parent: Parent)
    requires Ranked(spans) && Ranked(spans[s.id := s]) && s.id !in spans
    requires forall k | k in spans :: spans[k].parent != Some(s.id)
    requires parent != Some(s.id)
    ensures NearestKept(spans[s.id := s], parent) == NearestKept(spans, parent)
    decreases if parent.Some? && parent.value in spans then spans[parent.value].at + 1 else 0
  {
    if parent.Some? && parent.value in spans && spans[parent.value].dropped {
      NearestKeptStays(spans, s, spans[parent.value].parent);
    }
  }

  /** While a span is open, so is every local span above it. */
  lemma {:induction false} NearestKeptIsOpen(w: World, parent: Parent)
    requires Inv(w)
    requires parent.Some? && parent.value in w.spans ==> parent.value in w.open
    ensures var kept := NearestKept(w.spans, parent); kept.Some? && kept.value in w.spans ==> kept.value in w.open
    decreases if parent.Some? && parent.value in w.spans then w.spans[parent.value].at + 1 else 0
  {
    if parent.Some? && parent.value in w.spans && w.spans[parent.value].dropped {
      NearestKeptIsOpen(w, w.spans[parent.value].parent);
    }
  }

  lemma StartStep(w: World, s: Span)
    requires Inv(w) && Enabled(w, Starts(s))
    ensures Inv(Next(w, Starts(s)))
  {
    var t := Next(w, Starts(s));
    assert Ranked(t.spans);
    assert |t.spans| == |w.spans| + 1;
    NearestKeptStays(w.spans, s, s.parent);
    forall k | k in t.p.reparent ensures t.p.reparent[k] == NearestKept(t.spans, t.spans[k].parent) {
      if k != s.id { NearestKeptStays(w.spans, s, w.spans[k].parent); }
    }
    forall d | d in t.p.delivered ensures Attached(t, d) {
      assert Attached(w, d);
      NearestKeptStays(w.spans, s, w.spans[d.id].parent);
      NearestKeptNotNew(w.spans, s, w.spans[d.id].parent);
    }
  }

  lemma {:induction false} NearestKeptNotNew(spans: map<SpanId, Span>, s: Span, parent: Parent)
    requires Ranked(spans) && s.id !in spans && (forall k | k in spans ::
        spans[k].parent != Some(s.id))
    requires parent != Some(s.id)
    ensures NearestKept(spans, parent) != Some(s.id)
    decreases if parent.Some? && parent.value in spans then spans[parent.value].at + 1 else 0
  {
    if parent.Some? && parent.value in spans && spans[parent.value].dropped {
      NearestKeptNotNew(spans, s, spans[parent.value].parent);
    }
  }

  lemma EndStep(w: World, id: SpanId, e: Ending)
    requires Inv(w) && Enabled(w, Ends(id, e))
    ensures Inv(Next(w, Ends(id, e)))
  {
    var t := Next(w, Ends(id, e));
    var s := w.spans[id];
    NearestKeptIsOpen(w, s.parent);
    forall d | d in t.p.delivered ensures Attached(t, d) {
      if d in w.p.delivered {
        assert Attached(w, d);
        if IsDelivered(w, d.parent.GetOr(id)) {
          var d' :| d' in w.p.delivered && d'.id == d.parent.GetOr(id);
          assert d' in t.p.delivered;
        }
        if d.parent == Some(id) && t.p.delivered != w.p.delivered {
          assert Delivered(id, Resolve(w.p.reparent, s.parent)) in t.p.delivered;
        }
      }
    }
  }

  lemma InvStep(w: World, e: Event)
    requires Inv(w) && Enabled(w, e)
    ensures Inv(Next(w, e))
  {
    match e
    case Starts(s) => StartStep(w, s);
    case Ends(id, ending) => EndStep(w, id, ending);
  }

  lemma {:induction false} InvOverRuns(w: World, es: seq<Event>)
    requires Inv(w) && CanRun(w, es)
    ensures Inv(Run(w, es))
    decreases |es|
  {
    if es != [] {
      InvStep(w, es[0]);
      InvOverRuns(Next(w, es[0]), es[1..]);
    }
  }

  /** In every run, `_resolve` meets no chain, every exported span hangs from its nearest ancestor
      not dropped by name, and that ancestor, once ended, was exported as well unless it was an
      idle condensation check. */
  lemma ExportedSpansKeepTheirAncestor(es: seq<Event>)
    requires CanRun(INITIAL, es)
    ensures var w := Run(INITIAL, es);
            && Flat(w.p.reparent) && Ranked(w.spans)
            && (forall d | d in w.p.delivered ::
                  && d.id in w.spans && !w.spans[d.id].dropped
                  && d.parent == NearestKept(w.spans, w.spans[d.id].parent)
                  && (d.parent.Some? && d.parent.value in w.spans && d.parent.value !in w.open ==>
                        IsDelivered(w, d.parent.value) || DroppedAsCondensation(w, d.parent.value)))
  {
    InvOverRuns(INITIAL, es);
    var w := Run(INITIAL, es);
    forall d | d in w.p.delivered ensures Attached(w, d) {
    }
  }

  /* Nothing else is lost, and nothing is exported twice. */

  /** Some exported span hangs from this one. */
  predicate HasExportedChild(w: World, id: SpanId) {
    exists d | d in w.p.delivered :: d.parent == Some(id)
  }

  /** An ended span that is to be exported: its name is not dropped, and it was no idle condensation
      check, nor idle without exported children. */
  predicate Wanted(w: World, id: SpanId)
    requires id in w.spans && id in w.endings
  {
    var e := w.endings[id];
    !w.spans[id].dropped && !(e.ok && (e.condensedFalse || (e.changedFalse && !HasExportedChild(w, id))))
  }

  ghost predicate Exact(w: World) {
    && (forall d | d in w.p.delivered :: d.id in w.endings)
    && (forall i, j | 0 <= i < j < |w.p.delivered| :: w.p.delivered[i].id != w.p.delivered[j].id)
    && (forall id | id in w.endings :: id in w.spans && id !in w.open && (IsDelivered(w, id) <==> Wanted(w, id)))
    && (forall h | h in w.p.hasChildren :: HasExportedChild(w, h))
  }

  lemma ExactStart(w: World, s: Span)
    requires Inv(w) && Exact(w) && Enabled(w, Starts(s))
    ensures Exact(Next(w, Starts(s)))
  {
    var t := Next(w, Starts(s));
    assert t.p.delivered == w.p.delivered && t.p.hasChildren == w.p.hasChildren;
    forall h ensures HasExportedChild(t, h) == HasExportedChild(w, h) {
    }
    forall id | id in t.endings ensures id in t.spans && id !in t.open && (IsDelivered(t, id) <==> Wanted(t, id)) {
      assert id in w.endings && t.spans[id] == w.spans[id];
    }
  }

  /** What a kept span adds when it ends: one export, below an open or remote span other than itself. */
  lemma EndAdds(w: World, id: SpanId, e: Ending) returns (more: seq<Delivered>)
    requires Inv(w) && Enabled(w, Ends(id, e))
    ensures Next(w, Ends(id, e)).p.delivered == w.p.delivered + more
    ensures |more| <= 1
    ensures forall d | d in more ::
      d.id == id && d.parent != Some(id) && (d.parent.Some? && d.parent.value in w.spans ==> d.parent.value in w.open)
    ensures more != [] <==> !w.spans[id].dropped && !Idle(w.p, id, e)
    ensures forall h | h in Next(w, Ends(id, e)).p.hasChildren ::
      h in w.p.hasChildren || (more != [] && more[0].parent == Some(h))
  {
    var s := w.spans[id];
    NearestKeptIsOpen(w, s.parent);
    NearestKeptIsAbove(w.spans, s.parent, s.at);
    if s.dropped || Idle(w.p, id, e) {
      more := [];
    } else {
      more := [Delivered(id, Resolve(w.p.reparent, s.parent))];
    }
  }

  lemma {:induction false} NearestKeptIsAbove(spans: map<SpanId, Span>, parent: Parent, at: nat)
    requires Ranked(spans) && (parent.Some? && parent.value in spans ==> spans[parent.value].at < at)
    ensures var kept := NearestKept(spans, parent); kept.Some? && kept.value in spans ==> spans[kept.value].at < at
    decreases if parent.Some? && parent.value in spans then spans[parent.value].at + 1 else 0
  {
    if parent.Some? && parent.value in spans && spans[parent.value].dropped {
      NearestKeptIsAbove(spans, spans[parent.value].parent, at);
    }
  }

  lemma ExactEnd(w: World, id: SpanId, e: Ending)
    requires Inv(w) && Exact(w) && Enabled(w, Ends(id, e))
    ensures Exact(Next(w, Ends(id, e)))
  {
    var t := Next(w, Ends(id, e));
    var more := EndAdds(w, id, e);
    OwnChildren(w, id);
    OthersStay(w, t, more);
    OneMoreDelivered(w, t, id, more);
    hide OnEnd, Inv;
    forall k | k in t.endings ensures k in t.spans && k !in t.open && (IsDelivered(t, k) <==> Wanted(t, k)) {
      assert k != id ==> t.endings[k] == w.endings[k] && (IsDelivered(w, k) <==> Wanted(w, k));
    }
    forall h | h in t.p.hasChildren ensures HasExportedChild(t, h) {
      if h in w.p.hasChildren { assert HasExportedChild(w, h); }
    }
  }

  lemma OwnChildren(w: World, id: SpanId)
    requires Inv(w) && Exact(w) && id in w.open
    ensures id in w.p.hasChildren <==> HasExportedChild(w, id)
    ensures id !in w.endings && !IsDelivered(w, id)
  {
    if d :| d in w.p.delivered && d.parent == Some(id) {
      assert Attached(w, d);
    }
  }

  lemma OthersStay(w: World, t: World, more: seq<Delivered>)
    requires t.p.delivered == w.p.delivered + more
    ensures forall k: SpanId | (forall d | d in more :: d.id != k) :: IsDelivered(t, k) <==> IsDelivered(w, k)
    ensures forall k: SpanId | (forall d | d in more :: d.parent != Some(k)) ::
      HasExportedChild(t, k) <==> HasExportedChild(w, k)
    ensures forall d | d in more :: d.parent.Some? ==> HasExportedChild(t, d.parent.value)
  {
  }

  lemma OneMoreDelivered(w: World, t: World, id: SpanId, more: seq<Delivered>)
    requires t.p.delivered == w.p.delivered + more && |more| <= 1 && forall d | d in more :: d.id == id
    requires Exact(w) && id !in w.endings && !IsDelivered(w, id) && t.endings.Keys == w.endings.Keys + {id}
    ensures IsDelivered(t, id) <==> more != []
    ensures forall d | d in t.p.delivered :: d.id in t.endings
    ensures forall i, j | 0 <= i < j < |t.p.delivered| :: t.p.delivered[i].id != t.p.delivered[j].id
  {
    assert more != [] ==> more[0] in more && more[0] in t.p.delivered;
  }

  /** In every run an ended span is exported exactly once when it is wanted, and not at all otherwise. */
  lemma {:induction false} ExactOverRuns(w: World, es: seq<Event>)
    requires Inv(w) && Exact(w) && CanRun(w, es)
    ensures Exact(Run(w, es))
    decreases |es|
  {
    hide Inv, Exact, Next, Enabled;
    if es != [] {
      InvStep(w, es[0]);
      match es[0] {
        case Starts(s) => ExactStart(w, s);
        case Ends(id, ending) => ExactEnd(w, id, ending);
      }
      ExactOverRuns(Next(w, es[0]), es[1..]);
    }
  }

  /* Every run can be brought to its end. */

  lemma {:induction false} StartedIsRecorded(w: World, es: seq<Event>, s: Span)
    requires CanRun(w, es) && (Starts(s) in es || (s.id in w.spans && w.spans[s.id] == s))
    ensures s.id in Run(w, es).spans && Run(w, es).spans[s.id] == s
    decreases |es|
  {
    hide OnStart, OnEnd;
    if es != [] { StartedIsRecorded(Next(w, es[0]), es[1..], s); }
  }

  /** What has started is open or has ended. */
  ghost predicate Covered(w: World) {
    forall k | k in w.spans :: k in w.open || k in w.endings
  }

  lemma {:induction false} CoveredOverRuns(w: World, es: seq<Event>)
    requires Covered(w) && CanRun(w, es)
    ensures Covered(Run(w, es))
    decreases |es|
  {
    hide OnStart, OnEnd;
    if es != [] { CoveredOverRuns(Next(w, es[0]), es[1..]); }
  }

  lemma {:induction false} RunConcat(w: World, a: seq<Event>, b: seq<Event>)
    requires CanRun(w, a) && CanRun(Run(w, a), b)
    ensures CanRun(w, a + b) && Run(w, a + b) == Run(Run(w, a), b)
    decreases |a|
  {
    hide Enabled, Next;
    if a == [] {
      assert a + b == b;
    } else {
      assert (a + b)[1..] == a[1..] + b;
      RunConcat(Next(w, a[0]), a[1..], b);
    }
  }

  lemma {:induction false} Latest(spans: map<SpanId, Span>, open: set<SpanId>) returns (id: SpanId)
    requires open != {} && open <= spans.Keys
    ensures id in open && forall k | k in open :: spans[k].at <= spans[id].at
    decreases |open|
  {
    id :| id in open;
    if open != {id} {
      var other := Latest(spans, open - {id});
      if spans[other].at > spans[id].at { id := other; }
    }
  }

  lemma {:induction false} CanClose(w: World) returns (more: seq<Event>)
    requires Inv(w)
    ensures CanRun(w, more) && Run(w, more).open == {}
    decreases |w.open|
  {
    hide OnStart, OnEnd;
    if w.open == {} {
      more := [];
    } else {
      var id := Latest(w.spans, w.open);
      var e := Ends(id, Ending(true, false, false));
      InvStep(w, e);
      assert Next(w, e).open == w.open - {id};
      var rest := CanClose(Next(w, e));
      more := [e] + rest;
      assert more[1..] == rest;
    }
  }

  /** Every run can be brought to its end, and then every span that started in it has ended, and was exported
      exactly once when it is wanted, and not at all otherwise. */
  lemma EveryRunCanBeClosed(es: seq<Event>) returns (more: seq<Event>)
    requires CanRun(INITIAL, es)
    ensures CanRun(INITIAL, es + more) && Run(INITIAL, es + more).open == {} && Exact(Run(INITIAL, es + more))
    ensures forall s | Starts(s) in es ::
      && s.id in Run(INITIAL, es + more).spans && Run(INITIAL, es + more).spans[s.id] == s
      && s.id in Run(INITIAL, es + more).endings
  {
    hide Inv, Exact, Enabled, Next;
    assert Inv(INITIAL) && Exact(INITIAL) by { StartsEmpty(); }
    InvOverRuns(INITIAL, es);
    more := CanClose(Run(INITIAL, es));
    RunConcat(INITIAL, es, more);
    ExactOverRuns(INITIAL, es + more);
    CoveredOverRuns(INITIAL, es + more);
    forall s | Starts(s) in es
      ensures s.id in Run(INITIAL, es + more).spans && Run(INITIAL, es + more).spans[s.id] == s
    {
      StartedIsRecorded(INITIAL, es + more, s);
    }
  }

  lemma StartsEmpty()
    ensures Inv(INITIAL) && Exact(INITIAL)
  {
  }

  /* Runs with no rule about ends. */

  /** An id starts once, and after no span that names it as parent. */
  predicate MayHappen(w: World, e: Event) {
    match e
    case Starts(s) =>
      && s.id !in w.spans && s.parent != Some(s.id)
      && (forall k | k in w.spans :: w.spans[k].parent != Some(s.id))
    case Ends(id, _) => id in w.spans
  }

  ghost predicate MayRun(w: World, es: seq<Event>)
    decreases |es|
  {
    es == [] || (MayHappen(w, es[0]) && MayRun(Next(w, es[0]), es[1..]))
  }

  /** Every recorded parent is one that some span named. */
  ghost predicate Named(w: World) {
    forall k | k in w.p.reparent && w.p.reparent[k].Some? ::
      exists j :: j in w.spans && w.spans[j].parent == w.p.reparent[k]
  }

  lemma FlatStep(w: World, e: Event)
    requires Flat(w.p.reparent) && Named(w) && MayHappen(w, e)
    ensures Flat(Next(w, e).p.reparent) && Named(Next(w, e))
  {
    var t := Next(w, e);
    forall k | k in t.p.reparent && t.p.reparent[k].Some?
      ensures exists j :: j in t.spans && t.spans[j].parent == t.p.reparent[k]
    {
      if k in w.p.reparent && t.p.reparent[k] == w.p.reparent[k] {
        var j :| j in w.spans && w.spans[j].parent == w.p.reparent[k];
        assert j in t.spans && t.spans[j] == w.spans[j];
      } else if e.span.parent == t.p.reparent[k] {
        assert t.spans[e.span.id].parent == t.p.reparent[k];
      } else {
        var j :| j in w.spans && w.spans[j].parent == w.p.reparent[e.span.parent.value];
        assert j in t.spans && t.spans[j] == w.spans[j];
      }
    }
  }

  /** In every run, whether or not children outlive their parents, no recorded parent is recorded as
      dropped, so that `_resolve` ends. */
  lemma {:induction false} FlatOverRuns(w: World, es: seq<Event>)
    requires Flat(w.p.reparent) && Named(w) && MayRun(w, es)
    ensures Flat(Run(w, es).p.reparent)
    decreases |es|
  {
    hide Flat, Named, MayHappen, Next;
    if es != [] {
      FlatStep(w, es[0]);
      FlatOverRuns(Next(w, es[0]), es[1..]);
    }
  }

  lemma ResolveAlwaysEnds(es: seq<Event>)
    requires MayRun(INITIAL, es)
    ensures Flat(Run(INITIAL, es).p.reparent)
  {
    FlatOverRuns(INITIAL, es);
  }
}
