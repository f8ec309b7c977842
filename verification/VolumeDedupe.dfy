/** `_dedupe_volumes` of private_gpt/components/environment/manager.py. */
module VolumeDedupe {
  import opened Wrappers

  /** `hostPath` is None for a mount that is no bind volume. An empty `name` is a missing one. */
  datatype Mount = Mount(target: string, hostPath: Option<string>, access: string, name: string)

  function StripSlashes(target: string): string {
    if target != "" && target[|target| - 1] == '/' then StripSlashes(target[..|target| - 1]) else target
  }

  /** `target.rstrip("/") or "/"` */
  function Place(m: Mount): string {
    if StripSlashes(m.target) == "" then "/" else StripSlashes(m.target)
  }

  predicate Slashes(s: string) {
    forall i | 0 <= i < |s| :: s[i] == '/'
  }

  /** The targets are the same but for slashes at the end. */
  ghost predicate SameButSlashes(a: string, b: string) {
    exists stem, x, y :: a == stem + x && b == stem + y && Slashes(x) && Slashes(y)
  }

  lemma {:induction false} StripsAllSlashes(stem: string, slashes: string)
    requires Slashes(slashes)
    ensures StripSlashes(stem + slashes) == StripSlashes(stem)
    decreases |slashes|
  {
    var n := |slashes|;
    if n == 0 {
      assert stem + slashes == stem;
    } else {
      assert (stem + slashes)[..|stem| + n - 1] == stem + slashes[..n - 1];
      StripsAllSlashes(stem, slashes[..n - 1]);
    }
  }

  lemma {:induction false} StripsOnlySlashes(s: string) returns (slashes: string)
    ensures Slashes(slashes) && s == StripSlashes(s) + slashes
    ensures StripSlashes(s) != "" ==> StripSlashes(s)[|StripSlashes(s)| - 1] != '/'
    decreases |s|
  {
    if s != "" && s[|s| - 1] == '/' {
      var n := |s| - 1;
      var before := StripsOnlySlashes(s[..n]);
      slashes := before + "/";
      assert s == s[..n] + "/";
    } else {
      slashes := "";
    }
  }

  /** Two mounts claim one place exactly when their targets are the same but for slashes at the end. */
  lemma SamePlaceIffSameButSlashes(a: Mount, b: Mount)
    ensures Place(a) == Place(b) <==> SameButSlashes(a.target, b.target)
  {
    var x := StripsOnlySlashes(a.target);
    var y := StripsOnlySlashes(b.target);
    if SameButSlashes(a.target, b.target) {
      var stem, v, w :| a.target == stem + v && b.target == stem + w && Slashes(v) && Slashes(w);
      StripsAllSlashes(stem, v);
      StripsAllSlashes(stem, w);
    }
    if Place(a) == Place(b) {
      assert StripSlashes(a.target) == StripSlashes(b.target);
    }
  }

  predicate SameBind(a: Mount, b: Mount) {
    a.hostPath == b.hostPath && a.access == b.access
  }

  ghost predicate Clash(a: Mount, b: Mount) {
    a.hostPath.Some? && b.hostPath.Some? && Place(a) == Place(b) && !SameBind(a, b)
  }

  /** Two bind volumes claim one place with different sources or access. */
  ghost predicate Ambiguous(volumes: seq<Mount>) {
    exists a, b :: a in volumes && b in volumes && Clash(a, b)
  }

  ghost predicate DistinctPlaces(ms: seq<Mount>) {
    forall i, j | 0 <= i < j < |ms| :: Place(ms[i]) != Place(ms[j])
  }

  /** The first bind volume of each place, in order. */
  function Firsts(volumes: seq<Mount>): seq<Mount> {
    if volumes == [] then []
    else
      var n := |volumes| - 1;
      var before := Firsts(volumes[..n]);
      if volumes[n].hostPath.None? || exists m ::
          m in before && Place(m) == Place(volumes[n]) then before
      else before + [volumes[n]]
  }

  /** The bind volumes kept are from the list and at distinct places. */
  lemma {:induction false} FirstsAreDistinct(volumes: seq<Mount>)
    ensures DistinctPlaces(Firsts(volumes)) && forall m | m in Firsts(volumes) :: m in volumes && m.hostPath.Some?
  {
    hide Place;
    if volumes != [] {
      FirstsAreDistinct(volumes[..|volumes| - 1]);
    }
  }

  /** The place of every bind volume is kept. */
  lemma {:induction false} PlaceIsKept(volumes: seq<Mount>, m: Mount) returns (f: Mount)
    requires m in volumes && m.hostPath.Some?
    ensures f in Firsts(volumes) && Place(f) == Place(m)
  {
    hide Place;
    var n := |volumes| - 1;
    var before := Firsts(volumes[..n]);
    if m in volumes[..n] {
      f := PlaceIsKept(volumes[..n], m);
    } else {
      assert m == volumes[n];
      if x :| x in before && Place(x) == Place(m) {
        f := x;
      } else {
        f := m;
        assert Firsts(volumes)[|before|] == m;
      }
    }
  }

  /** When no place is ambiguous, every bind volume equals the one kept for its place. */
  lemma KeptIsSame(volumes: seq<Mount>, m: Mount, f: Mount)
    requires !Ambiguous(volumes) && m in volumes && m.hostPath.Some? && f in Firsts(volumes) && Place(f) == Place(m)
    ensures SameBind(f, m)
  {
    hide Place, Firsts;
    FirstsAreDistinct(volumes);
    assert !Clash(f, m);
  }

  lemma ClashesWithKept(volumes: seq<Mount>, i: nat, f: Mount)
    requires i < |volumes| && f in Firsts(volumes[..i]) && Place(f) == Place(volumes[i]) && volumes[i].hostPath.Some?
    requires !SameBind(f, volumes[i])
    ensures Ambiguous(volumes)
  {
    hide Place, Firsts;
    FirstsAreDistinct(volumes[..i]);
    assert f in volumes && volumes[i] in volumes && Clash(f, volumes[i]);
  }

  lemma StillUnambiguous(volumes: seq<Mount>, i: nat)
    requires i < |volumes| && !Ambiguous(volumes[..i])
    requires volumes[i].hostPath.Some? ==>
               forall f | f in Firsts(volumes[..i]) && Place(f) == Place(volumes[i]) :: SameBind(f, volumes[i])
    ensures !Ambiguous(volumes[..i + 1])
  {
    hide Place, Firsts;
    var before, last := volumes[..i], volumes[i];
    assert volumes[..i + 1] == before + [last];
    forall a | a in before && a.hostPath.Some? && last.hostPath.Some? && Place(a) == Place(last)
      ensures SameBind(a, last)
    {
      var f := PlaceIsKept(before, a);
      KeptIsSame(before, a, f);
    }
  }

  ghost predicate DistinctNames(ms: seq<Mount>) {
    forall i, j | 0 <= i < j < |ms| :: ms[i].name != ms[j].name
  }

  /** The name after k suffixes. */
  function Suffixed(start: string, digest: string, k: nat): string {
    if k == 0 then start else Suffixed(start, digest, k - 1) + "-" + digest
  }

  function NamesOf(ms: seq<Mount>): set<string> {
    set m | m in ms :: m.name
  }

  /** The name is not used, and is the one with the fewest suffixes of which that is true. */
  ghost predicate FirstFree(start: string, digest: string, used: set<string>, name: string) {
    name !in used && exists k: nat ::
        name == Suffixed(start, digest, k) && forall j: nat | j < k :: Suffixed(start, digest, j) in used
  }

  function StartName(m: Mount, defaultName: string -> string): string {
    if m.name == "" then defaultName(m.target) else m.name
  }

  /** Nothing but the name changed, and that no more than the names before it require. */
  ghost predicate Renamed(merged: seq<Mount>, named: seq<Mount>, i: nat,
                          defaultName: string -> string, digest: string -> string)
  {
    && i < |merged| && i < |named|
    && named[i] == merged[i].(name := named[i].name)
    && FirstFree(StartName(merged[i], defaultName), digest(merged[i].target), NamesOf(named[..i]), named[i].name)
  }

  /** A volume keeps its name if no volume before it has that name; one without a name gets the default. */
  lemma NameIsKeptWhenFree(merged: seq<Mount>, named: seq<Mount>, i: nat,
                           defaultName: string -> string, digest: string -> string)
    requires Renamed(merged, named, i, defaultName, digest)
    ensures merged[i].name != "" && merged[i].name !in NamesOf(named[..i]) ==> named[i].name == merged[i].name
    ensures merged[i].name == "" && defaultName(merged[i].target) !in NamesOf(named[..i]) ==>
              named[i].name == defaultName(merged[i].target)
  {
    var start, suffix := StartName(merged[i], defaultName), digest(merged[i].target);
    assert Suffixed(start, suffix, 0) == start;
  }

  /** `defaultName` and `digest` stand for the name made from a target and the hash of a target. */
  method DedupeVolumes(volumes: seq<Mount>, defaultName: string -> string, digest: string -> string)
    returns (r: Option<seq<Mount>>)
    ensures r.None? <==> Ambiguous(volumes)
    ensures r.Some? ==> var firsts := Firsts(volumes);
              && |r.value| == |firsts| && DistinctNames(r.value)
              && forall i | 0 <= i < |firsts| ::
                  Renamed(firsts, r.value, i, defaultName, digest)
  {
    hide Place;
    var seen: map<string, Mount> := map[];
    var merged: seq<Mount> := [];
    for i := 0 to |volumes|
      invariant merged == Firsts(volumes[..i]) && !Ambiguous(volumes[..i])
      invariant forall p :: p in seen <==> exists m :: m in merged && Place(m) == p
      invariant forall p | p in seen :: seen[p] in merged && Place(seen[p]) == p
      invariant DistinctPlaces(merged)
    {
      var volume := volumes[i];
      assert volumes[..i + 1][..i] == volumes[..i];
      if volume.hostPath.Some? && Place(volume) in seen {
        var other := seen[Place(volume)];
        if !SameBind(other, volume) {
          ClashesWithKept(volumes, i, other);
          return None;
        }
      }
      StillUnambiguous(volumes, i);
      if volume.hostPath.Some? && Place(volume) !in seen {
        seen := seen[Place(volume) := volume];
        ghost var before := merged;
        merged := merged + [volume];
        assert forall m :: m in merged <==> m in before || m == volume;
      }
    }
    assert volumes[..|volumes|] == volumes;
    var named := NameVolumes(merged, defaultName, digest);
    r := Some(named);
  }

  /** Length of the longest name. */
  ghost function Longest(names: set<string>): (n: nat)
    ensures forall s | s in names :: |s| <= n
    decreases |names|
  {
    if names == {} then 0
    else
      var s :| s in names;
      var rest := Longest(names - {s});
      assert forall t | t in names :: t == s || t in names - {s};
      if |s| > rest then |s| else rest
  }

  /** Suffixes a name until it is free: it outgrows all names in use at last. */
  method FreeName(start: string, digest: string, used: set<string>) returns (name: string)
    ensures FirstFree(start, digest, used, name)
  {
    name := start;
    ghost var k: nat := 0;
    while name in used
      invariant name == Suffixed(start, digest, k) && forall j: nat | j < k ::
          Suffixed(start, digest, j) in used
      decreases Longest(used) - |name|
    {
      assert |name| <= Longest(used);
      name := name + "-" + digest;
      k := k + 1;
    }
  }

  lemma RenamedStays(merged: seq<Mount>, named: seq<Mount>, more: Mount, i: nat,
                     defaultName: string -> string, digest: string -> string)
    requires i < |merged| && i < |named| && Renamed(merged, named, i, defaultName, digest)
    ensures Renamed(merged, named + [more], i, defaultName, digest)
  {
    assert (named + [more])[..i] == named[..i];
  }

  /** Gives every volume a name of its own; a taken name gets suffixes until it is free. */
  method NameVolumes(merged: seq<Mount>, defaultName: string -> string, digest: string -> string)
    returns (named: seq<Mount>)
    ensures |named| == |merged| && DistinctNames(named)
    ensures forall i | 0 <= i < |merged| :: Renamed(merged, named, i, defaultName, digest)
  {
    named := [];
    var used: set<string> := {};
    for i := 0 to |merged|
      invariant |named| == i && DistinctNames(named) && used == NamesOf(named)
      invariant forall j | 0 <= j < i :: Renamed(merged, named, j, defaultName, digest)
    {
      var volume := merged[i];
      var name := FreeName(StartName(volume, defaultName), digest(volume.target), used);
      used := used + {name};
      ghost var before := named;
      named := named + [volume.(name := name)];
      assert named[..i] == before;
      assert NamesOf(named) == NamesOf(before) + {name};
      forall j | 0 <= j < i ensures Renamed(merged, named, j, defaultName, digest) && named[j].name != name {
        RenamedStays(merged, before, volume.(name := name), j, defaultName, digest);
        assert before[j] in before;
      }
    }
  }
}
