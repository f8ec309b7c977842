/** Ownership stamps of in-progress locks: private_gpt/arq/leases.py. */
module ArqLeases {
  import opened Wrappers

  type Worker = string

  const IN_PROGRESS_OWNER_PREFIX: string := "private_gpt:arq:worker:"

  predicate StartsWith(s: string, prefix: string) {
    |prefix| <= |s| && s[..|prefix|] == prefix
  }

  function EncodeInProgressOwner(worker: Worker): string {
    IN_PROGRESS_OWNER_PREFIX + worker
  }

  function DecodeInProgressOwner(value: string): Option<Worker> {
    if !StartsWith(value, IN_PROGRESS_OWNER_PREFIX) then None
    else
      var worker := value[|IN_PROGRESS_OWNER_PREFIX|..];
      if worker == "" then None else Some(worker)
  }

  /** A lock value decodes to an owner exactly when that owner is nonempty and stamped it. */
  lemma DecodeExactlyOwnStamp(value: string, worker: Worker)
    ensures DecodeInProgressOwner(value) == Some(worker) <==> worker != "" && value == EncodeInProgressOwner(worker)
  {
    var n := |IN_PROGRESS_OWNER_PREFIX|;
    assert EncodeInProgressOwner(worker)[..n] == IN_PROGRESS_OWNER_PREFIX;
    assert EncodeInProgressOwner(worker)[n..] == worker;
    if StartsWith(value, IN_PROGRESS_OWNER_PREFIX) {
      assert value == value[..n] + value[n..];
    }
  }

  /** Two workers never write the same stamp. */
  lemma StampsAreInjective(u: Worker, v: Worker)
    requires EncodeInProgressOwner(u) == EncodeInProgressOwner(v)
    ensures u == v
  {
    var n := |IN_PROGRESS_OWNER_PREFIX|;
    assert EncodeInProgressOwner(u)[n..] == u;
    assert EncodeInProgressOwner(v)[n..] == v;
  }
}
