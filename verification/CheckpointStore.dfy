/** The Redis-backed checkpoint store of private_gpt/arq/chat/iteration_state.py. Each script
    or single command is one atomic function on the keys of one execution. */
module CheckpointStore {
  import opened Wrappers

  type ExecutionId = string
  type ToolId = string
  type Response = string

  datatype Checkpoint = Checkpoint(id: string, pending: set<ToolId>)

  datatype Keys = Keys(
    ctx: Option<Checkpoint>,
    results: map<ToolId, Response>,
    resumed: bool,
    actions: set<string>,
    terminal: Option<string>)

  const NO_KEYS := Keys(None, map[], false, {}, None)

  function SaveScript(k: Keys, checkpoint: Checkpoint): Keys {
    if k.terminal.Some? then k else k.(ctx := Some(checkpoint), resumed := false)
  }

  predicate Accepts(k: Keys, tool: ToolId) {
    k.terminal.None? && tool !in k.results
  }

  function RecordScript(k: Keys, tool: ToolId, response: Response): Keys {
    if Accepts(k, tool) then k.(results := k.results[tool := response]) else k
  }

  function Cleaned(k: Keys): Keys {
    k.(ctx := None, results := map[], resumed := false)
  }

  class RedisChatCheckpointStore {
    var store: map<ExecutionId, Keys>

    function At(id: ExecutionId): (k: Keys)
      reads this
      ensures if id in store then k == store[id] else k == NO_KEYS
    {
      if id in store then store[id] else NO_KEYS
    }

    constructor ()
      ensures store == map[]
    {
      store := map[];
    }

    method Save(id: ExecutionId, checkpoint: Checkpoint) returns (saved: bool)
      modifies this
      ensures saved == old(At(id)).terminal.None?
      ensures store == old(store)[id := if saved then old(At(id)).(ctx := Some(checkpoint), resumed := false)
                                         else old(At(id))]
    {
      saved := At(id).terminal.None?;
      store := store[id := SaveScript(At(id), checkpoint)];
    }

    method Load(id: ExecutionId) returns (checkpoint: Option<Checkpoint>)
      ensures checkpoint == At(id).ctx
    {
      checkpoint := At(id).ctx;
    }

    method GetResults(id: ExecutionId) returns (results: map<ToolId, Response>)
      ensures results == At(id).results
    {
      results := At(id).results;
    }

    method RecordOnly(id: ExecutionId, tool: ToolId, response: Response) returns (recorded: bool)
      modifies this
      ensures recorded == Accepts(old(At(id)), tool)
      ensures store == old(store)[id := RecordScript(old(At(id)), tool, response)]
    {
      recorded := Accepts(At(id), tool);
      store := store[id := RecordScript(At(id), tool, response)];
    }

    /** The script and the two reads of `record_result`, with nobody in between: the full set is
        returned exactly to the call that completes the pending tools of a saved checkpoint. */
    method RecordResult(id: ExecutionId, tool: ToolId, response: Response) returns (full: Option<map<ToolId, Response>>)
      modifies this
      ensures store == old(store)[id := RecordScript(old(At(id)), tool, response)]
      ensures full.Some? <==>
              && Accepts(old(At(id)), tool) && old(At(id)).ctx.Some?
              && tool in old(At(id)).ctx.value.pending
              && old(At(id)).ctx.value.pending <= old(At(id)).results.Keys + {tool}
      ensures full.Some? ==> full.value == old(At(id)).results[tool := response]
    {
      var recorded := RecordOnly(id, tool, response);
      if !recorded { return None; }
      var checkpoint := Load(id);
      if checkpoint.None? || tool !in checkpoint.value.pending { return None; }
      var results := GetResults(id);
      full := if checkpoint.value.pending <= results.Keys then Some(results) else None;
    }

    method ClaimResume(id: ExecutionId) returns (claimed: bool)
      modifies this
      ensures claimed == !old(At(id)).resumed
      ensures store == old(store)[id := old(At(id)).(resumed := true)]
    {
      claimed := !At(id).resumed;
      store := store[id := At(id).(resumed := true)];
    }

    method ClaimAction(id: ExecutionId, action: string) returns (claimed: bool)
      modifies this
      ensures claimed == (action !in old(At(id)).actions)
      ensures store == old(store)[id := old(At(id)).(actions := old(At(id)).actions + {action})]
    {
      claimed := action !in At(id).actions;
      store := store[id := At(id).(actions := At(id).actions + {action})];
    }

    method MarkTerminal(id: ExecutionId, status: string) returns (marked: bool)
      modifies this
      ensures marked == old(At(id)).terminal.None?
      ensures store == old(store)[id := if marked then old(At(id)).(terminal := Some(status)) else old(At(id))]
    {
      marked := At(id).terminal.None?;
      store := store[id := if marked then At(id).(terminal := Some(status)) else At(id)];
    }

    method ReleaseResume(id: ExecutionId)
      modifies this
      ensures store == old(store)[id := old(At(id)).(resumed := false)]
    {
      store := store[id := At(id).(resumed := false)];
    }

    method Cleanup(id: ExecutionId)
      modifies this
      ensures store == old(store)[id := Keys(None, map[], false, old(At(id)).actions, old(At(id)).terminal)]
    {
      store := store[id := Cleaned(At(id))];
    }
  }
}
