/** Every interleaving of tool callbacks, saves and resume checks on one execution.

    A tool callback runs `record_result` (script, load, hgetall) and then the runner's resume
    check (load, hgetall, claim); a save is followed by the same check. Any actor may step
    between any two commands. */
module CheckpointProtocol {
  import opened Wrappers
  import opened CheckpointStore

  type CallId = nat

  datatype Phase =
    | Fresh
    | Recorded
    | Loaded(expected: set<ToolId>)
    | Returned
    | Checking
    | CheckLoaded(checkpoint: Checkpoint)
    | CheckReady(checkpoint: Checkpoint)
    | Done

  /** `full` is what `record_result` returned. */
  datatype Call = Call(tool: ToolId, response: Response, phase: Phase, full: Option<map<ToolId, Response>>)

  /** `wins` lists the checkpoints for which a claim succeeded since the resumed key was last
      deleted; `acts` the actions whose claim succeeded. */
  datatype State = State(keys: Keys, calls: map<CallId, Call>, wins: seq<Checkpoint>, acts: seq<string>)

  datatype Event =
    | Save(c: CallId, checkpoint: Checkpoint)
    | Arrive(c: CallId, tool: ToolId, response: Response)
    | Record(c: CallId)
    | Load(c: CallId)
    | Collect(c: CallId)
    | StartCheck(c: CallId)
    | CheckLoad(c: CallId)
    | CheckCollect(c: CallId)
    | CheckClaim(c: CallId)
    | ClaimAction(action: string)
    | ReleaseResume
    | MarkTerminal(status: string)
    | Cleanup

  predicate At(s: State, c: CallId, phase: Phase) {
    c in s.calls && s.calls[c].phase == phase
  }

  predicate Enabled(s: State, e: Event) {
    match e
    case Save(c, _) => c !in s.calls
    case Arrive(c, _, _) => c !in s.calls
    case Record(c) => c in s.calls && s.calls[c].phase.Fresh?
    case Load(c) => c in s.calls && s.calls[c].phase.Recorded?
    case Collect(c) => c in s.calls && s.calls[c].phase.Loaded?
    case StartCheck(c) => c in s.calls && s.calls[c].phase.Returned?
    case CheckLoad(c) => c in s.calls && s.calls[c].phase.Checking?
    case CheckCollect(c) => c in s.calls && s.calls[c].phase.CheckLoaded?
    case CheckClaim(c) => c in s.calls && s.calls[c].phase.CheckReady?
    case _ => true
  }

  function Move(s: State, c: CallId, phase: Phase): State
    requires c in s.calls
  {
    s.(calls := s.calls[c := s.calls[c].(phase := phase)])
  }

  function Next(s: State, e: Event): State
    requires Enabled(s, e)
  {
    var k := s.keys;
    match e
    case Save(c, checkpoint) =>
      if k.terminal.Some? then s
      else s.(keys := SaveScript(k, checkpoint), calls := s.calls[c := Call("", "", Checking, None)], wins := [])
    case Arrive(c, tool, response) => s.(calls := s.calls[c := Call(tool, response, Fresh, None)])
    case Record(c) =>
      var call := s.calls[c];
      s.(keys := RecordScript(k, call.tool, call.response),
         calls := s.calls[c := call.(phase := if Accepts(k, call.tool) then Recorded else Returned)])
    case Load(c) =>
      var expects := k.ctx.Some? && s.calls[c].tool in k.ctx.value.pending;
      Move(s, c, if expects then Loaded(k.ctx.value.pending) else Returned)
    case Collect(c) =>
      var full := if s.calls[c].phase.expected <= k.results.Keys then Some(k.results) else None;
      s.(calls := s.calls[c := s.calls[c].(phase := Returned, full := full)])
    case StartCheck(c) => Move(s, c, Checking)
    case CheckLoad(c) => Move(s, c, if k.ctx.Some? then CheckLoaded(k.ctx.value) else Done)
    case CheckCollect(c) =>
      var checkpoint := s.calls[c].phase.checkpoint;
      var ready := checkpoint.pending != {} && checkpoint.pending <= k.results.Keys;
      Move(s, c, if ready then CheckReady(checkpoint) else Done)
    case CheckClaim(c) =>
      var checkpoint := s.calls[c].phase.checkpoint;
      var t := Move(s, c, Done);
      if k.resumed then t else t.(keys := k.(resumed := true), wins := s.wins + [checkpoint])
    case ClaimAction(action) =>
      if action in k.actions then s else s.(keys := k.(actions := k.actions + {action}), acts := s.acts + [action])
    case ReleaseResume => s.(keys := k.(resumed := false), wins := [])
    case MarkTerminal(status) => if k.terminal.None? then s.(keys := k.(terminal := Some(status))) else s
    case Cleanup => s.(keys := Cleaned(k), wins := [])
  }

  ghost predicate CanRun(s: State, es: seq<Event>)
    decreases |es|
  {
    es == [] || (Enabled(s, es[0]) && CanRun(Next(s, es[0]), es[1..]))
  }

  function Run(s: State, es: seq<Event>): State
    requires CanRun(s, es)
    decreases |es|
  {
    if es == [] then s else Run(Next(s, es[0]), es[1..])
  }

  ghost predicate Initial(s: State) {
    s.keys == NO_KEYS && s.calls == map[] && s.wins == [] && s.acts == []
  }

  lemma RunNone(s: State)
    ensures CanRun(s, []) && Segment(s, []) && Run(s, []) == s
  {
  }

  lemma RunOne(s: State, e: Event, es: seq<Event>)
    requires Enabled(s, e) && CanRun(Next(s, e), es)
    ensures CanRun(s, [e] + es) && Run(s, [e] + es) == Run(Next(s, e), es)
    ensures Keeps(e) && Segment(Next(s, e), es) ==> Segment(s, [e] + es)
  {
    assert ([e] + es)[1..] == es;
  }

  /* At most one claim succeeds between two deletions of the resumed key. */

  ghost predicate OneWin(s: State) {
    |s.wins| == if s.keys.resumed then 1 else 0
  }

  lemma {:induction false} AtMostOneClaimPerReset(s: State, es: seq<Event>)
    requires OneWin(s) && CanRun(s, es)
    ensures OneWin(Run(s, es)) && |Run(s, es).wins| <= 1
    decreases |es|
  {
    if es != [] {
      assert OneWin(Next(s, es[0]));
      AtMostOneClaimPerReset(Next(s, es[0]), es[1..]);
    }
  }

  /* An action is claimed at most once, even across cleanups. */

  ghost predicate ActsOnce(s: State) {
    && (forall a :: a in s.acts <==> a in s.keys.actions)
    && (forall i, j | 0 <= i < j < |s.acts| :: s.acts[i] != s.acts[j])
  }

  lemma ActsOnceStep(s: State, e: Event)
    requires ActsOnce(s) && Enabled(s, e)
    ensures ActsOnce(Next(s, e))
  {
  }

  /** Over every interleaving, each action is claimed with success at most once, and once if it is tried. */
  lemma {:induction false} ActionsClaimedOnce(s: State, es: seq<Event>)
    requires ActsOnce(s) && CanRun(s, es)
    ensures ActsOnce(Run(s, es))
    ensures forall a :: a in Run(s, es).acts <==> a in s.acts || ClaimAction(a) in es
    decreases |es|
  {
    if es != [] {
      ActsOnceStep(s, es[0]);
      ActionsClaimedOnce(Next(s, es[0]), es[1..]);
    }
  }

  /* Results: the first one per tool stays until a cleanup, and a terminal execution accepts
     neither a save nor a result. */

  predicate Keeps(e: Event) {
    !e.Save? && !e.Cleanup? && !e.ReleaseResume?
  }

  /** A run after a save, in which the checkpoint is neither replaced nor cleaned up and no
      failed scheduling gives the resume back. */
  ghost predicate Segment(s: State, es: seq<Event>)
    requires CanRun(s, es)
    decreases |es|
  {
    es == [] || (Keeps(es[0]) && Segment(Next(s, es[0]), es[1..]))
  }

  ghost predicate NoCleanup(es: seq<Event>) {
    forall e | e in es :: !e.Cleanup?
  }

  lemma {:induction false} FirstResultStays(s: State, es: seq<Event>, tool: ToolId)
    requires CanRun(s, es) && NoCleanup(es) && tool in s.keys.results
    ensures tool in Run(s, es).keys.results && Run(s, es).keys.results[tool] == s.keys.results[tool]
    decreases |es|
  {
    if es != [] {
      FirstResultStays(Next(s, es[0]), es[1..], tool);
    }
  }

  /** The status of the first `mark_terminal` of a run. */
  function FirstMark(es: seq<Event>): Option<string> {
    if es == [] then None else if es[0].MarkTerminal? then Some(es[0].status) else FirstMark(es[1..])
  }

  /** An execution is terminal from its first mark on, with that status. */
  lemma {:induction false} TerminalIsTheFirstMark(s: State, es: seq<Event>)
    requires CanRun(s, es)
    ensures Run(s, es).keys.terminal == if s.keys.terminal.Some? then s.keys.terminal else FirstMark(es)
    decreases |es|
  {
    if es != [] {
      TerminalIsTheFirstMark(Next(s, es[0]), es[1..]);
    }
  }

  /** After `mark_terminal` the status never changes, no save or result gets in: the checkpoint
      is the old one or gone, the results are the old ones or gone. */
  lemma {:induction false} TerminalIsFinal(s: State, es: seq<Event>)
    requires CanRun(s, es) && s.keys.terminal.Some?
    ensures var k := Run(s, es).keys;
            && k.terminal == s.keys.terminal
            && (k.ctx == s.keys.ctx || k.ctx == None)
            && (k.results == s.keys.results || k.results == map[])
    decreases |es|
  {
    if es != [] {
      TerminalIsFinal(Next(s, es[0]), es[1..]);
    }
  }

  /** The recorded result came with a call whose recording script is in the run. */
  ghost predicate FromRecord(s: State, es: seq<Event>, tool: ToolId) {
    exists c :: Record(c) in es && c in s.calls && tool in s.keys.results
                && s.calls[c].tool == tool && s.calls[c].response == s.keys.results[tool]
  }

  lemma {:induction false} CallsStay(s: State, es: seq<Event>, c: CallId)
    requires CanRun(s, es) && c in s.calls
    ensures var t := Run(s, es);
            c in t.calls && t.calls[c].tool == s.calls[c].tool && t.calls[c].response == s.calls[c].response
    decreases |es|
  {
    if es != [] { CallsStay(Next(s, es[0]), es[1..], c); }
  }

  /** What the keys hold after a run is from before it, or came in the run. */
  lemma {:induction false} HeldOrBrought(s: State, es: seq<Event>, tool: ToolId)
    requires CanRun(s, es)
    ensures var was, now := s.keys, Run(s, es).keys;
            && (now.ctx == was.ctx || now.ctx == None || exists c :: Save(c, now.ctx.value) in es)
            && (tool in now.results ==>
                (tool in was.results && was.results[tool] == now.results[tool]) || FromRecord(Run(s, es), es, tool))
    decreases |es|
  {
    if es != [] {
      var e, rest, s1, t := es[0], es[1..], Next(s, es[0]), Run(s, es);
      HeldOrBrought(s1, rest, tool);
      if FromRecord(t, rest, tool) {
        var c :| Record(c) in rest && c in t.calls
                 && t.calls[c].tool == tool && t.calls[c].response == t.keys.results[tool];
        assert Record(c) in es;
      }
      if e.Record? { CallsStay(s1, rest, e.c); }
    }
  }

  /** After a cleanup the checkpoint and the results start anew: whatever a later run holds, it was saved
      or recorded in that run. */
  lemma CleanupForgets(s: State, es: seq<Event>)
    requires CanRun(Next(s, Cleanup), es)
    ensures var t := Run(Next(s, Cleanup), es);
            && (t.keys.ctx.Some? ==> exists c :: Save(c, t.keys.ctx.value) in es)
            && forall tool | tool in t.keys.results :: FromRecord(t, es, tool)
  {
    forall tool | tool in Run(Next(s, Cleanup), es).keys.results
      ensures FromRecord(Run(Next(s, Cleanup), es), es, tool)
    {
      HeldOrBrought(Next(s, Cleanup), es, tool);
    }
    HeldOrBrought(Next(s, Cleanup), es, "");
  }

  /* Completeness of record_result. */

  ghost predicate Submap(a: map<ToolId, Response>, b: map<ToolId, Response>) {
    forall tool | tool in a :: tool in b && b[tool] == a[tool]
  }

  ghost predicate ReturnedAll(s: State, c: CallId, checkpoint: Checkpoint) {
    && c in s.calls && s.calls[c].tool in checkpoint.pending
    && s.calls[c].full.Some? && checkpoint.pending <= s.calls[c].full.value.Keys
    && Submap(s.calls[c].full.value, s.keys.results)
  }

  /** With all results in, the call holds or will be handed every pending result. */
  ghost predicate Promises(s: State, c: CallId, checkpoint: Checkpoint) {
    && c in s.calls && s.calls[c].tool in checkpoint.pending
    && match s.calls[c].phase
       case Recorded => true
       case Loaded(expected) => expected <= s.keys.results.Keys
       case _ => ReturnedAll(s, c, checkpoint)
  }

  /** A result is missing, or some call of a pending tool still has its load to come, is about to
      collect no more than there is, or has returned everything. */
  ghost predicate StillComing(s: State, checkpoint: Checkpoint) {
    checkpoint.pending <= s.keys.results.Keys ==> exists c :: Promises(s, c, checkpoint)
  }

  ghost predicate Informed(s: State, checkpoint: Checkpoint) {
    s.keys.ctx == Some(checkpoint) && StillComing(s, checkpoint)
  }

  lemma PromiseStep(s: State, e: Event, c: CallId, checkpoint: Checkpoint)
    requires s.keys.ctx == Some(checkpoint) && checkpoint.pending <= s.keys.results.Keys
    requires Promises(s, c, checkpoint) && Enabled(s, e) && Keeps(e)
    ensures Promises(Next(s, e), c, checkpoint)
  {
  }

  lemma InformedStep(s: State, e: Event, checkpoint: Checkpoint)
    requires Informed(s, checkpoint) && Enabled(s, e) && Keeps(e)
    ensures Informed(Next(s, e), checkpoint)
  {
    var t := Next(s, e);
    if checkpoint.pending <= t.keys.results.Keys {
      if checkpoint.pending <= s.keys.results.Keys {
        var c :| Promises(s, c, checkpoint);
        PromiseStep(s, e, c, checkpoint);
      } else {
        assert e.Record? && Promises(t, e.c, checkpoint);
      }
    }
  }

  lemma {:induction false} InformedRun(s: State, es: seq<Event>, checkpoint: Checkpoint)
    requires Informed(s, checkpoint) && CanRun(s, es) && Segment(s, es)
    ensures Informed(Run(s, es), checkpoint)
    decreases |es|
  {
    if es != [] {
      InformedStep(s, es[0], checkpoint);
      InformedRun(Next(s, es[0]), es[1..], checkpoint);
    }
  }

  /** No call is between its script and its return. */
  ghost predicate Quiet(s: State) {
    forall c | c in s.calls :: !s.calls[c].phase.Recorded? && !s.calls[c].phase.Loaded?
  }

  ghost predicate Complete(s: State, checkpoint: Checkpoint) {
    checkpoint.pending <= s.keys.results.Keys && Quiet(s)
  }

  ghost predicate SomeReturnedAll(s: State, checkpoint: Checkpoint) {
    exists c :: ReturnedAll(s, c, checkpoint)
  }

  /** Whatever the interleaving after a save at which the full set was still coming: once every
      pending tool has a result and no call is between its script and its return, some call of a
      pending tool returned every pending result. */
  lemma SomeCallReturnsTheFullSet(s: State, saver: CallId, checkpoint: Checkpoint, es: seq<Event>)
    requires Enabled(s, Save(saver, checkpoint)) && s.keys.terminal.None?
    requires StillComing(s, checkpoint)
    requires CanRun(Next(s, Save(saver, checkpoint)), es) && Segment(Next(s, Save(saver, checkpoint)), es)
    requires Complete(Run(Next(s, Save(saver, checkpoint)), es), checkpoint)
    ensures SomeReturnedAll(Run(Next(s, Save(saver, checkpoint)), es), checkpoint)
  {
    var s1 := Next(s, Save(saver, checkpoint));
    if c :| Promises(s, c, checkpoint) {
      assert Promises(s1, c, checkpoint);
    }
    InformedRun(s1, es, checkpoint);
    var c :| Promises(Run(s1, es), c, checkpoint);
    assert ReturnedAll(Run(s1, es), c, checkpoint);
  }

  /** All results are in, and no call of a pending tool is on its way or has returned anything. */
  ghost predicate NothingComing(s: State, checkpoint: Checkpoint) {
    && checkpoint.pending <= s.keys.results.Keys
    && (forall c | c in s.calls && s.calls[c].tool in checkpoint.pending ::
          !s.calls[c].phase.Recorded? && !s.calls[c].phase.Loaded? && s.calls[c].full.None?)
  }

  lemma NothingComingStep(s: State, e: Event, checkpoint: Checkpoint)
    requires NothingComing(s, checkpoint) && Enabled(s, e) && Keeps(e)
    ensures NothingComing(Next(s, e), checkpoint)
  {
  }

  /** Then over every run after the save no call ever returns the full set. */
  lemma {:induction false} NoCallReturnsTheFullSet(s: State, es: seq<Event>, checkpoint: Checkpoint)
    requires NothingComing(s, checkpoint) && CanRun(s, es) && Segment(s, es)
    ensures !SomeReturnedAll(Run(s, es), checkpoint)
    decreases |es|
  {
    if es != [] {
      NothingComingStep(s, es[0], checkpoint);
      NoCallReturnsTheFullSet(Next(s, es[0]), es[1..], checkpoint);
    }
  }

  /* The exact condition: unless the full set is still coming at the save, the calls can finish at
     once without any of them returning it. */

  function Midway(s: State): set<CallId> {
    set c | c in s.calls && (s.calls[c].phase.Recorded? || s.calls[c].phase.Loaded?)
  }

  /** The next command of a call that is between its script and its return. */
  function NextOf(s: State, c: CallId): Event
    requires c in s.calls
  {
    if s.calls[c].phase.Recorded? then Load(c) else Collect(c)
  }

  lemma MidwayReturns(s: State, c: CallId, checkpoint: Checkpoint)
    requires s.keys.ctx == Some(checkpoint) && checkpoint.pending <= s.keys.results.Keys
    requires !StillComing(s, checkpoint) && c in Midway(s)
    ensures Enabled(s, NextOf(s, c)) && Keeps(NextOf(s, c))
    ensures Next(s, NextOf(s, c)).keys == s.keys && !StillComing(Next(s, NextOf(s, c)), checkpoint)
    ensures Midway(Next(s, NextOf(s, c))) == Midway(s) - {c}
  {
    var t := Next(s, NextOf(s, c));
    assert !Promises(s, c, checkpoint);
    forall d ensures !Promises(t, d, checkpoint) {
      assert !Promises(s, d, checkpoint);
    }
  }

  lemma {:induction false} Drained(s: State, checkpoint: Checkpoint) returns (es: seq<Event>)
    requires s.keys.ctx == Some(checkpoint) && checkpoint.pending <= s.keys.results.Keys
    requires !StillComing(s, checkpoint)
    ensures CanRun(s, es) && Segment(s, es)
    ensures Complete(Run(s, es), checkpoint) && !SomeReturnedAll(Run(s, es), checkpoint)
    decreases |Midway(s)|
  {
    if Midway(s) == {} {
      es := [];
      RunNone(s);
      forall c ensures !ReturnedAll(s, c, checkpoint) {
        assert !Promises(s, c, checkpoint);
        assert c !in Midway(s);
      }
      forall c | c in s.calls ensures !s.calls[c].phase.Recorded? && !s.calls[c].phase.Loaded? {
        assert c !in Midway(s);
      }
    } else {
      var c :| c in Midway(s);
      var e := NextOf(s, c);
      MidwayReturns(s, c, checkpoint);
      var rest := Drained(Next(s, e), checkpoint);
      RunOne(s, e, rest);
      es := [e] + rest;
    }
  }

  ghost predicate AlwaysReturned(s: State, checkpoint: Checkpoint) {
    forall es | CanRun(s, es) && Segment(s, es) && Complete(Run(s, es), checkpoint) ::
      SomeReturnedAll(Run(s, es), checkpoint)
  }

  /** A save is followed by a call returning the full set, however the calls interleave, exactly when
      at the save a result is missing, or a call of a pending tool has its load still to come, holds an
      expectation the results meet, or has returned everything already. */
  lemma FullSetIffStillComing(s: State, saver: CallId, checkpoint: Checkpoint)
    requires Enabled(s, Save(saver, checkpoint)) && s.keys.terminal.None?
    ensures AlwaysReturned(Next(s, Save(saver, checkpoint)), checkpoint) <==> StillComing(s, checkpoint)
  {
    var s1 := Next(s, Save(saver, checkpoint));
    if StillComing(s, checkpoint) {
      forall es | CanRun(s1, es) && Segment(s1, es) && Complete(Run(s1, es), checkpoint)
        ensures SomeReturnedAll(Run(s1, es), checkpoint)
      {
        SomeCallReturnsTheFullSet(s, saver, checkpoint, es);
      }
    } else {
      forall c ensures !Promises(s1, c, checkpoint) {
        assert !Promises(s, c, checkpoint);
      }
      var es := Drained(s1, checkpoint);
    }
  }

  /* Both failures happen: runs from a fresh execution. */

  ghost predicate Reaches(s: State, t: State) {
    exists es :: CanRun(s, es) && Run(s, es) == t
  }

  lemma ReachesItself(s: State)
    ensures Reaches(s, s)
  {
    RunNone(s);
  }

  lemma ReachesThrough(s: State, e: Event, t: State)
    requires Enabled(s, e) && Reaches(Next(s, e), t)
    ensures Reaches(s, t)
  {
    var es :| CanRun(Next(s, e), es) && Run(Next(s, e), es) == t;
    RunOne(s, e, es);
  }

  /** The only tool's result and its load come before the save: the calls are over, every result is
      in, and in no run after the save does a call return the full set. */
  lemma ResultsBeforeTheSaveReturnNothing(s: State, tool: ToolId, response: Response, checkpoint: Checkpoint)
    returns (t: State)
    requires Initial(s) && checkpoint.pending == {tool}
    ensures Reaches(s, t) && Enabled(t, Save(1, checkpoint)) && t.keys.terminal.None?
    ensures Complete(Next(t, Save(1, checkpoint)), checkpoint)
    ensures NothingComing(Next(t, Save(1, checkpoint)), checkpoint)
  {
    hide Reaches;
    var s1 := Next(s, Arrive(0, tool, response));
    var s2 := Next(s1, Record(0));
    t := Next(s2, Load(0));
    ReachesItself(t);
    ReachesThrough(s2, Load(0), t);
    ReachesThrough(s1, Record(0), t);
    ReachesThrough(s, Arrive(0, tool, response), t);
  }

  /* Exactly one resume per checkpoint. */

  /** The call's claim is still to come and will be made for this checkpoint. */
  ghost predicate WillClaim(s: State, c: CallId, checkpoint: Checkpoint) {
    && c in s.calls
    && match s.calls[c].phase
       case CheckLoaded(cp) => cp == checkpoint
       case CheckReady(_) => true
       case Fresh => false
       case Done => false
       case _ => true
  }

  ghost predicate ResumeComing(s: State, checkpoint: Checkpoint) {
    && s.keys.ctx == Some(checkpoint) && checkpoint.pending != {}
    && (checkpoint.pending <= s.keys.results.Keys ==> s.keys.resumed || exists c ::
        WillClaim(s, c, checkpoint))
  }

  lemma ResumeComingStep(s: State, e: Event, checkpoint: Checkpoint)
    requires ResumeComing(s, checkpoint) && Enabled(s, e) && Keeps(e)
    ensures ResumeComing(Next(s, e), checkpoint)
  {
    var t := Next(s, e);
    if checkpoint.pending <= t.keys.results.Keys && !t.keys.resumed {
      if checkpoint.pending <= s.keys.results.Keys {
        var c :| WillClaim(s, c, checkpoint);
        assert WillClaim(t, c, checkpoint);
      } else {
        assert e.Record? && WillClaim(t, e.c, checkpoint);
      }
    }
  }

  /** A check under way that has loaded another checkpoint, and may claim for it. */
  ghost predicate StaleAt(s: State, c: CallId, checkpoint: Checkpoint) {
    && c in s.calls
    && match s.calls[c].phase
       case CheckLoaded(cp) => cp != checkpoint && cp.pending != {}
       case CheckReady(cp) => cp != checkpoint
       case _ => false
  }

  /** No claim was or will be made for another checkpoint. */
  ghost predicate OnlyFor(s: State, checkpoint: Checkpoint) {
    && (forall c :: !StaleAt(s, c, checkpoint))
    && (forall win | win in s.wins :: win == checkpoint)
  }

  lemma OnlyForStep(s: State, e: Event, checkpoint: Checkpoint)
    requires OnlyFor(s, checkpoint) && s.keys.ctx == Some(checkpoint) && Enabled(s, e) && Keeps(e)
    ensures OnlyFor(Next(s, e), checkpoint)
  {
    var t := Next(s, e);
    forall c ensures !StaleAt(t, c, checkpoint) {
      assert !StaleAt(s, c, checkpoint);
    }
    if e.CheckClaim? { assert !StaleAt(s, e.c, checkpoint); }
  }

  lemma {:induction false} ResumeComingRun(s: State, es: seq<Event>, checkpoint: Checkpoint)
    requires ResumeComing(s, checkpoint) && OneWin(s) && CanRun(s, es) && Segment(s, es)
    ensures ResumeComing(Run(s, es), checkpoint) && OneWin(Run(s, es))
    ensures OnlyFor(s, checkpoint) ==> OnlyFor(Run(s, es), checkpoint)
    decreases |es|
  {
    if es != [] {
      ResumeComingStep(s, es[0], checkpoint);
      if OnlyFor(s, checkpoint) { OnlyForStep(s, es[0], checkpoint); }
      ResumeComingRun(Next(s, es[0]), es[1..], checkpoint);
    }
  }

  ghost predicate Settled(s: State) {
    forall c | c in s.calls :: s.calls[c].phase.Fresh? || s.calls[c].phase.Done?
  }

  /** Every pending tool is recorded, and all started calls are over. */
  ghost predicate AllOver(s: State, checkpoint: Checkpoint) {
    checkpoint.pending <= s.keys.results.Keys && Settled(s)
  }

  /** Parallel callbacks lead to one resume: after a save, once every pending tool is recorded and all
      started calls are over, exactly one claim has succeeded. */
  lemma ExactlyOneResume(s: State, saver: CallId, checkpoint: Checkpoint, es: seq<Event>)
    requires Enabled(s, Save(saver, checkpoint)) && s.keys.terminal.None? && checkpoint.pending != {}
    requires CanRun(Next(s, Save(saver, checkpoint)), es) && Segment(Next(s, Save(saver, checkpoint)), es)
    requires AllOver(Run(Next(s, Save(saver, checkpoint)), es), checkpoint)
    ensures |Run(Next(s, Save(saver, checkpoint)), es).wins| == 1
  {
    var s1 := Next(s, Save(saver, checkpoint));
    assert WillClaim(s1, saver, checkpoint);
    ResumeComingRun(s1, es, checkpoint);
  }

  /* Which checkpoint is resumed: when a check was under way for another one, the calls can go on so
     that it takes the claim. */

  /** The calls that are neither over nor yet to start. */
  function Open(s: State): set<CallId> {
    set c | c in s.calls && !s.calls[c].phase.Fresh? && !s.calls[c].phase.Done?
  }

  /** How many commands a call may still take. */
  function Rank(phase: Phase): nat {
    match phase
    case Recorded => 6
    case Loaded(_) => 5
    case Returned => 4
    case Checking => 3
    case CheckLoaded(_) => 2
    case CheckReady(_) => 1
    case _ => 0
  }

  function StepOf(s: State, c: CallId): Event
    requires c in s.calls
  {
    match s.calls[c].phase
    case Recorded => Load(c)
    case Loaded(_) => Collect(c)
    case Returned => StartCheck(c)
    case Checking => CheckLoad(c)
    case CheckLoaded(_) => CheckCollect(c)
    case _ => CheckClaim(c)
  }

  /** With the resume claimed, an open call only comes nearer to its end. */
  lemma OpenStep(s: State, c: CallId)
    requires s.keys.resumed && c in Open(s)
    ensures Enabled(s, StepOf(s, c)) && Keeps(StepOf(s, c))
    ensures var t := Next(s, StepOf(s, c));
            && t.keys == s.keys && t.wins == s.wins && c in t.calls
            && Rank(t.calls[c].phase) < Rank(s.calls[c].phase)
            && Open(t) == if t.calls[c].phase.Done? then Open(s) - {c} else Open(s)
  {
  }

  lemma {:induction false} OpenCallsEnd(s: State, c: CallId) returns (es: seq<Event>)
    requires s.keys.resumed && c in Open(s)
    ensures CanRun(s, es) && Segment(s, es)
    ensures Settled(Run(s, es)) && Run(s, es).keys == s.keys && Run(s, es).wins == s.wins
    decreases |Open(s)|, Rank(s.calls[c].phase)
  {
    hide Enabled, Next, Keeps, StepOf, Rank;
    var e := StepOf(s, c);
    OpenStep(s, c);
    var t := Next(s, e);
    var rest: seq<Event> := [];
    if c in Open(t) {
      rest := OpenCallsEnd(t, c);
    } else if d :| d in Open(t) {
      rest := OpenCallsEnd(t, d);
    } else {
      NoneOpen(t);
      RunNone(t);
    }
    RunOne(s, e, rest);
    es := [e] + rest;
  }

  lemma NoneOpen(s: State)
    requires Open(s) == {}
    ensures Settled(s)
  {
    forall c | c in s.calls ensures s.calls[c].phase.Fresh? || s.calls[c].phase.Done? {
      assert c !in Open(s);
    }
  }

  /** The run ends with all over and one claim, for checkpoint `won`. */
  ghost predicate EndsWith(s: State, es: seq<Event>, checkpoint: Checkpoint, won: Checkpoint) {
    CanRun(s, es) && Segment(s, es) && AllOver(Run(s, es), checkpoint) && Run(s, es).wins == [won]
  }

  lemma EndsThrough(s: State, e: Event, es: seq<Event>, checkpoint: Checkpoint, won: Checkpoint)
    requires Enabled(s, e) && Keeps(e) && EndsWith(Next(s, e), es, checkpoint, won)
    ensures EndsWith(s, [e] + es, checkpoint, won)
  {
    RunOne(s, e, es);
  }

  /** Nobody has claimed since the save, and check c is at the given phase. */
  ghost predicate Poised(s: State, c: CallId, phase: Phase) {
    At(s, c, phase) && !s.keys.resumed && s.wins == []
  }

  lemma ReadyCheckClaims(s: State, c: CallId, stale: Checkpoint, checkpoint: Checkpoint) returns (es: seq<Event>)
    requires Poised(s, c, CheckReady(stale)) && checkpoint.pending <= s.keys.results.Keys
    ensures EndsWith(s, es, checkpoint, stale)
  {
    var t := Next(s, CheckClaim(c));
    assert t.keys.resumed && t.wins == [stale] && t.keys.results == s.keys.results;
    var rest: seq<Event> := [];
    if d :| d in Open(t) {
      rest := OpenCallsEnd(t, d);
    } else {
      NoneOpen(t);
      RunNone(t);
    }
    EndsThrough(s, CheckClaim(c), rest, checkpoint, stale);
    es := [CheckClaim(c)] + rest;
  }

  lemma LoadedCheckClaims(s: State, c: CallId, stale: Checkpoint, checkpoint: Checkpoint) returns (es: seq<Event>)
    requires Poised(s, c, CheckLoaded(stale)) && stale.pending != {}
    requires checkpoint.pending + stale.pending <= s.keys.results.Keys
    ensures EndsWith(s, es, checkpoint, stale)
  {
    var rest := ReadyCheckClaims(Next(s, CheckCollect(c)), c, stale, checkpoint);
    EndsThrough(s, CheckCollect(c), rest, checkpoint, stale);
    es := [CheckCollect(c)] + rest;
  }

  lemma {:induction false} FreshId(ids: set<CallId>) returns (d: CallId)
    ensures forall i | i in ids :: i < d
  {
    if ids == {} {
      d := 0;
    } else {
      var i :| i in ids;
      var least := FreshId(ids - {i});
      d := if i < least then least else i + 1;
      assert forall j | j in ids :: j == i || j in ids - {i};
    }
  }

  /** A fresh call records one more result. */
  lemma RecordOne(s: State, c: CallId, phase: Phase, tool: ToolId) returns (d: CallId)
    requires Poised(s, c, phase) && s.keys.terminal.None? && tool !in s.keys.results
    ensures Enabled(s, Arrive(d, tool, "")) && Enabled(Next(s, Arrive(d, tool, "")), Record(d))
    ensures var t := Next(Next(s, Arrive(d, tool, "")), Record(d));
            && Poised(t, c, phase) && t.keys.terminal.None?
            && t.keys.results.Keys == s.keys.results.Keys + {tool}
  {
    d := FreshId(s.calls.Keys);
    assert d !in s.calls;
  }

  lemma {:induction false} StaleCheckClaims(s: State, c: CallId, stale: Checkpoint, checkpoint: Checkpoint)
    returns (es: seq<Event>)
    requires s.keys.terminal.None?
    requires Poised(s, c, CheckReady(stale)) || (Poised(s, c, CheckLoaded(stale)) && stale.pending != {})
    ensures EndsWith(s, es, checkpoint, stale)
    decreases checkpoint.pending + stale.pending - s.keys.results.Keys
  {
    hide Enabled, Next, Keeps, EndsWith;
    var missing := checkpoint.pending + stale.pending - s.keys.results.Keys;
    if tool :| tool in missing {
      var d := RecordOne(s, c, s.calls[c].phase, tool);
      var e1, e2 := Arrive(d, tool, ""), Record(d);
      KeepsBoth(d, tool);
      var rest := StaleCheckClaims(Next(Next(s, e1), e2), c, stale, checkpoint);
      EndsThrough(Next(s, e1), e2, rest, checkpoint, stale);
      EndsThrough(s, e1, [e2] + rest, checkpoint, stale);
      es := [e1] + ([e2] + rest);
    } else if s.calls[c].phase.CheckReady? {
      assert forall tool | tool in checkpoint.pending :: tool !in missing;
      es := ReadyCheckClaims(s, c, stale, checkpoint);
    } else {
      assert forall tool | tool in checkpoint.pending + stale.pending :: tool !in missing;
      es := LoadedCheckClaims(s, c, stale, checkpoint);
    }
  }

  lemma KeepsBoth(d: CallId, tool: ToolId)
    ensures Keeps(Arrive(d, tool, "")) && Keeps(Record(d))
  {
  }

  /** A check that was under way for another checkpoint when the save came can take the claim, with the
      calls of the new checkpoint resuming nothing. */
  lemma StaleCheckTakesTheClaim(s: State, saver: CallId, checkpoint: Checkpoint, late: CallId)
    returns (es: seq<Event>)
    requires Enabled(s, Save(saver, checkpoint)) && s.keys.terminal.None? && StaleAt(s, late, checkpoint)
    ensures EndsWith(Next(s, Save(saver, checkpoint)), es, checkpoint, s.calls[late].phase.checkpoint)
    ensures s.calls[late].phase.checkpoint != checkpoint
  {
    es := StaleCheckClaims(Next(s, Save(saver, checkpoint)), late, s.calls[late].phase.checkpoint, checkpoint);
  }

  ghost predicate AlwaysResumesIt(s: State, checkpoint: Checkpoint) {
    forall es | CanRun(s, es) && Segment(s, es) && AllOver(Run(s, es), checkpoint) ::
      Run(s, es).wins == [checkpoint]
  }

  /** The one resume after a save is for the saved checkpoint, however the calls interleave, exactly when
      at the save no check was under way that had loaded another one with something pending. */
  lemma ResumesTheSavedIffNoStaleCheck(s: State, saver: CallId, checkpoint: Checkpoint)
    requires Enabled(s, Save(saver, checkpoint)) && s.keys.terminal.None? && checkpoint.pending != {}
    ensures AlwaysResumesIt(Next(s, Save(saver, checkpoint)), checkpoint) <==> forall c :: !StaleAt(s, c, checkpoint)
  {
    var s1 := Next(s, Save(saver, checkpoint));
    if late :| StaleAt(s, late, checkpoint) {
      var es := StaleCheckTakesTheClaim(s, saver, checkpoint, late);
      assert Run(s1, es).wins != [checkpoint];
    } else {
      forall c ensures !StaleAt(s1, c, checkpoint) {
        assert !StaleAt(s, c, checkpoint);
      }
      forall es | CanRun(s1, es) && Segment(s1, es) && AllOver(Run(s1, es), checkpoint)
        ensures Run(s1, es).wins == [checkpoint]
      {
        assert WillClaim(s1, saver, checkpoint);
        ResumeComingRun(s1, es, checkpoint);
        OneWinOnly(Run(s1, es), checkpoint);
      }
    }
  }

  lemma OneWinOnly(s: State, checkpoint: Checkpoint)
    requires OnlyFor(s, checkpoint) && OneWin(s) && s.keys.resumed
    ensures s.wins == [checkpoint]
  {
    assert s.wins[0] in s.wins;
    assert s.wins == [s.wins[0]];
  }

  /** And it happens: from a fresh execution, the check of a first save is ready when a second save,
      with the same tool still pending, comes. */
  lemma StaleCheckHappens(s: State, tool: ToolId, response: Response, stale: Checkpoint, checkpoint: Checkpoint)
    returns (t: State)
    requires Initial(s) && stale.pending == {tool} && checkpoint.pending == {tool} && stale != checkpoint
    ensures Reaches(s, t) && Enabled(t, Save(2, checkpoint)) && t.keys.terminal.None?
    ensures At(t, 0, CheckReady(stale)) && checkpoint.pending <= t.keys.results.Keys
  {
    hide Reaches;
    var s1 := Next(s, Save(0, stale));
    var s2 := Next(s1, Arrive(1, tool, response));
    var s3 := Next(s2, Record(1));
    var s4 := Next(s3, CheckLoad(0));
    t := Next(s4, CheckCollect(0));
    ReachesItself(t);
    ReachesThrough(s4, CheckCollect(0), t);
    ReachesThrough(s3, CheckLoad(0), t);
    ReachesThrough(s2, Record(1), t);
    ReachesThrough(s1, Arrive(1, tool, response), t);
    ReachesThrough(s, Save(0, stale), t);
  }
}
