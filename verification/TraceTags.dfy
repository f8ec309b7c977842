/** `TraceTagsProcessor` of private_gpt/observability/processors.py. */
module TraceTags {
  type TraceId = nat
  type Tag = string

  /** `tags`: what the rules give for the span as it starts or ends. */
  datatype Event = Start(trace: TraceId, tags: set<Tag>) | End(trace: TraceId, tags: set<Tag>)

  datatype Entry = Entry(open: nat, tags: set<Tag>)

  type Traces = map<TraceId, Entry>

  function EntryOf(traces: Traces, t: TraceId): Entry {
    if t in traces then traces[t] else Entry(0, {})
  }

  /** The entry after an event of its trace; it goes when no span is open. */
  function Next(traces: Traces, e: Event): Traces {
    match e
    case Start(t, tags) => traces[t := Entry(EntryOf(traces, t).open + 1, EntryOf(traces, t).tags + tags)]
    case End(t, tags) =>
      if t !in traces then traces
      else if traces[t].open <= 1 then traces - {t}
      else traces[t := Entry(traces[t].open - 1, traces[t].tags + tags)]
  }

  /** Tags an ending span is exported with. */
  function Carried(traces: Traces, e: Event): set<Tag> {
    EntryOf(traces, e.trace).tags + e.tags
  }

  class TraceTagsProcessor {
    var traces: Traces
    var exported: seq<set<Tag>>

    constructor ()
      ensures traces == map[] && exported == []
    {
      traces, exported := map[], [];
    }

    method OnStart(t: TraceId, tags: set<Tag>)
      modifies this`traces
      ensures traces == Next(old(traces), Start(t, tags))
    {
      if t !in traces { traces := traces[t := Entry(0, {})]; }
      var entry := traces[t];
      entry := entry.(open := entry.open + 1);
      entry := entry.(tags := entry.tags + tags);
      traces := traces[t := entry];
    }

    method OnEnd(t: TraceId, matched: set<Tag>)
      modifies this
      ensures traces == Next(old(traces), End(t, matched))
      ensures exported == old(exported) + [Carried(old(traces), End(t, matched))]
    {
      var tags := matched;
      assert {} + matched == matched;
      if t in traces {
        var entry := traces[t];
        entry := entry.(tags := entry.tags + tags);
        tags := entry.tags;
        if entry.open <= 1 {
          traces := traces - {t};
        } else {
          traces := traces[t := entry.(open := entry.open - 1)];
        }
      }
      exported := exported + [tags];
    }
  }

  function After(es: seq<Event>): Traces {
    if es == [] then map[] else Next(After(es[..|es| - 1]), es[|es| - 1])
  }

  /** Spans of the trace open in this process; an end nobody saw start counts for nothing. */
  function Open(es: seq<Event>, t: TraceId): nat {
    if es == [] then 0
    else
      var before, e := Open(es[..|es| - 1], t), es[|es| - 1];
      if e.trace != t then before else if e.Start? then before + 1 else if before == 0 then 0 else before - 1
  }

  /** From just after event k until just before event j, some span of the trace is open. */
  ghost predicate StaysOpen(es: seq<Event>, t: TraceId, k: nat, j: nat)
    requires k < j <= |es|
  {
    forall m | k < m <= j :: Open(es[..m], t) > 0
  }

  /** Some event of the trace matched the tag, and the trace has been open ever since. */
  ghost predicate Tagged(es: seq<Event>, t: TraceId, tag: Tag) {
    exists k :: 0 <= k < |es| && es[k].trace == t && tag in es[k].tags && StaysOpen(es, t, k, |es|)
  }

  lemma PrefixOfPrefix(es: seq<Event>, n: nat, m: nat)
    requires m <= n <= |es|
    ensures es[..n][..m] == es[..m]
  {
  }

  lemma OpenStep(es: seq<Event>, t: TraceId, k: nat)
    requires k < |es|
    ensures StaysOpen(es, t, k, |es|) <==>
            Open(es, t) > 0 && (k < |es| - 1 ==> StaysOpen(es[..|es| - 1], t, k, |es| - 1))
  {
    hide Open;
    var n := |es| - 1;
    assert es[..|es|] == es;
    forall m | k < m <= n ensures es[..n][..m] == es[..m] {
      PrefixOfPrefix(es, n, m);
    }
  }

  lemma TaggedStep(es: seq<Event>, t: TraceId, tag: Tag)
    requires es != []
    ensures Tagged(es, t, tag)
       <==> (Open(es, t) > 0
             && (Tagged(es[..|es| - 1], t, tag) || (es[|es| - 1].trace == t && tag in es[|es| - 1].tags)))
  {
    hide Open, StaysOpen;
    var n := |es| - 1;
    if k :| 0 <= k < |es| && es[k].trace == t && tag in es[k].tags && StaysOpen(es, t, k, |es|) {
      OpenStep(es, t, k);
    }
    if Open(es, t) > 0 && Tagged(es[..n], t, tag) {
      var k :| 0 <= k < n && es[..n][k].trace == t && tag in es[..n][k].tags && StaysOpen(es[..n], t, k, n);
      OpenStep(es, t, k);
      assert es[k] == es[..n][k];
    }
    if Open(es, t) > 0 && es[n].trace == t && tag in es[n].tags {
      OpenStep(es, t, n);
    }
  }

  /** A trace has an entry exactly while it has open spans; the entry counts them and holds the tags
      matched since the trace was last idle. */
  lemma {:induction false} EntryIsExact(es: seq<Event>, t: TraceId)
    ensures t in After(es) <==> Open(es, t) > 0
    ensures EntryOf(After(es), t).open == Open(es, t)
    ensures forall tag :: tag in EntryOf(After(es), t).tags <==> Tagged(es, t, tag)
  {
    if es != [] {
      var n := |es| - 1;
      EntryIsExact(es[..n], t);
      forall tag ensures tag in EntryOf(After(es), t).tags <==> Tagged(es, t, tag) {
        TaggedStep(es, t, tag);
        if Open(es[..n], t) == 0 && Tagged(es[..n], t, tag) {
          IdleIsUntagged(es[..n], t, tag);
        }
      }
    }
  }

  lemma IdleIsUntagged(es: seq<Event>, t: TraceId, tag: Tag)
    requires Open(es, t) == 0
    ensures !Tagged(es, t, tag)
  {
    assert es[..|es|] == es;
  }

  /** An ending span is exported with exactly the tags it matches itself and those any span of its
      trace matched since the trace was last idle in this process. */
  lemma CarriedIffTagged(es: seq<Event>, e: Event, tag: Tag)
    requires e.End?
    ensures tag in Carried(After(es), e) <==> tag in e.tags || Tagged(es, e.trace, tag)
  {
    EntryIsExact(es, e.trace);
  }

  /** A tag once matched is on every span of the trace that ends while the trace stays open. */
  lemma TagReachesLaterEnds(es: seq<Event>, k: nat, j: nat, tag: Tag)
    requires k < j < |es| && es[j].End? && es[j].trace == es[k].trace && tag in es[k].tags
    requires StaysOpen(es, es[k].trace, k, j)
    ensures tag in Carried(After(es[..j]), es[j])
  {
    var t := es[k].trace;
    forall m | k < m <= j ensures Open(es[..j][..m], t) > 0 {
      PrefixOfPrefix(es, j, m);
    }
    assert StaysOpen(es[..j], t, k, j);
    CarriedIffTagged(es[..j], es[j], tag);
  }

  /** Once no span of the trace is open its tags are gone: the second span of this trace ends without the
      tag that the first one matched. */
  lemma IdleTraceForgetsItsTags(t: TraceId, tag: Tag)
    ensures var es := [Start(t, {tag}), End(t, {tag}), Start(t, {})];
            tag in Carried(After(es[..1]), es[1]) && Carried(After(es), End(t, {})) == {}
  {
    var es := [Start(t, {tag}), End(t, {tag}), Start(t, {})];
    assert es[..2][..1] == es[..1] == [es[0]] && es[..1][..0] == [];
    assert {} + {tag} == {tag};
    assert After(es[..1]) == map[t := Entry(1, {tag})];
    assert After(es[..2]) == map[];
    assert es[..3] == es;
  }
}
