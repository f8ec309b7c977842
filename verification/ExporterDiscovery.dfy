/** `discover_exporters_from_environment` of private_gpt/settings/settings_loader.py. */
module ExporterDiscovery {
  import opened Sequences
  import opened StringOrder
  import opened Wrappers

  datatype Value = Scalar(text: string) | Items(items: seq<string>)

  datatype Node = Leaf(value: Value) | Dict(entries: map<string, Node>)

  type Entries = map<string, Node>

  type Path = seq<string>

  datatype Assignment = Assignment(path: Path, value: Value)

  /* Setting one value. */

  /** Walks down the parents, making dictionaries where there is nothing, and sets the leaf; fails where
      a parent is no dictionary. */
  function SetNested(entries: Entries, path: Path, value: Value): Option<Entries>
    requires path != []
    decreases |path|
  {
    if |path| == 1 then Some(entries[path[0] := Leaf(value)])
    else
      var nested := if path[0] in entries then entries[path[0]] else Dict(map[]);
      if nested.Leaf? then None
      else
        var inner := SetNested(nested.entries, path[1..], value);
        if inner.None? then None else Some(entries[path[0] := Dict(inner.value)])
  }

  /** The value at a path, if one ends there. */
  function LeafAt(entries: Entries, path: Path): Option<Value>
    decreases |path|
  {
    if path == [] || path[0] !in entries then None
    else
      match entries[path[0]]
      case Leaf(value) => if |path| == 1 then Some(value) else None
      case Dict(inner) => LeafAt(inner, path[1..])
  }

  /** Some proper prefix of the path already holds a value. */
  ghost predicate Blocked(entries: Entries, path: Path) {
    exists k :: 0 < k < |path| && LeafAt(entries, path[..k]).Some?
  }

  lemma BlockedBelow(entries: Entries, path: Path)
    requires |path| > 1 && path[0] in entries && entries[path[0]].Dict?
    ensures Blocked(entries, path) <==> Blocked(entries[path[0]].entries, path[1..])
  {
    var inner := entries[path[0]].entries;
    if k :| 0 < k < |path| && LeafAt(entries, path[..k]).Some? {
      assert path[..k][1..] == path[1..][..k - 1];
      assert LeafAt(inner, path[1..][..k - 1]).Some?;
    }
    if k :| 0 < k < |path| - 1 && LeafAt(inner, path[1..][..k]).Some? {
      assert path[..k + 1][1..] == path[1..][..k];
      assert LeafAt(entries, path[..k + 1]).Some?;
    }
  }

  /** Setting a value fails exactly when a proper prefix of its path holds one. */
  lemma {:induction false} SetFailsIffBlocked(entries: Entries, path: Path, value: Value)
    requires path != []
    ensures SetNested(entries, path, value).None? <==> Blocked(entries, path)
    decreases |path|
  {
    if |path| > 1 {
      if path[0] !in entries {
        SetFailsIffBlocked(map[], path[1..], value);
      } else if entries[path[0]].Leaf? {
        assert LeafAt(entries, path[..1]).Some?;
      } else {
        BlockedBelow(entries, path);
        SetFailsIffBlocked(entries[path[0]].entries, path[1..], value);
      }
    }
  }

  /** A set value is found at its path; values below that path are gone, all others stay. */
  lemma {:induction false} SetThenLookUp(entries: Entries, path: Path, value: Value, q: Path)
    requires path != [] && SetNested(entries, path, value).Some?
    ensures LeafAt(SetNested(entries, path, value).value, q)
         == if q == path then Some(value) else if ProperPrefix(path, q) then None else LeafAt(entries, q)
    decreases |path|
  {
    var next := SetNested(entries, path, value).value;
    if q != [] && q[0] == path[0] {
      if |path| == 1 {
        assert path[1..] == [];
        assert path == [path[0]];
      } else {
        var nested := if path[0] in entries then entries[path[0]] else Dict(map[]);
        SetThenLookUp(nested.entries, path[1..], value, q[1..]);
      }
    }
  }

  /* All values of one exporter. */

  function Build(assignments: seq<Assignment>): Option<Entries>
    requires forall a | a in assignments :: a.path != []
  {
    if assignments == [] then Some(map[])
    else
      var n := |assignments| - 1;
      assert assignments[n] in assignments;
      var before := Build(assignments[..n]);
      if before.None? then None else SetNested(before.value, assignments[n].path, assignments[n].value)
  }

  /** The value a path should hold: the last one set there, unless a shorter path was set later. */
  function Expected(assignments: seq<Assignment>, q: Path): Option<Value> {
    if assignments == [] then None
    else
      var n := |assignments| - 1;
      if assignments[n].path == q then Some(assignments[n].value)
      else if ProperPrefix(assignments[n].path, q) then None
      else Expected(assignments[..n], q)
  }

  lemma {:induction false} BuildHoldsExpected(assignments: seq<Assignment>, q: Path)
    requires (forall a | a in assignments :: a.path != []) && Build(assignments).Some?
    ensures LeafAt(Build(assignments).value, q) == Expected(assignments, q)
  {
    if assignments != [] {
      var n := |assignments| - 1;
      BuildHoldsExpected(assignments[..n], q);
      SetThenLookUp(Build(assignments[..n]).value, assignments[n].path, assignments[n].value, q);
    }
  }

  ghost predicate SomePrefixIn(assignments: seq<Assignment>, p: Path) {
    exists a :: a in assignments && ProperPrefix(a.path, p)
  }

  /** A path has a proper prefix among those set exactly when one of its proper prefixes holds a value. */
  lemma {:induction false} PrefixSetIffHeld(assignments: seq<Assignment>, p: Path)
    requires forall a | a in assignments :: a.path != []
    ensures SomePrefixIn(assignments, p) <==> exists k ::
        0 < k < |p| && Expected(assignments, p[..k]).Some?
  {
    if assignments != [] {
      var n := |assignments| - 1;
      var last := assignments[n];
      PrefixSetIffHeld(assignments[..n], p);
      assert assignments == assignments[..n] + [last];
      if ProperPrefix(last.path, p) {
        assert Expected(assignments, p[..|last.path|]).Some?;
        assert last in assignments;
      } else {
        forall k | 0 < k < |p| ensures Expected(assignments, p[..k]) == Expected(assignments[..n], p[..k]) {
        }
      }
    }
  }

  ghost predicate Conflict(assignments: seq<Assignment>) {
    exists i, j :: 0 <= i < j < |assignments| && ProperPrefix(assignments[i].path, assignments[j].path)
  }

  /** Building fails exactly when a path is set after a proper prefix of it. */
  lemma {:induction false} BuildFailsIffConflict(assignments: seq<Assignment>)
    requires forall a | a in assignments :: a.path != []
    ensures Build(assignments).None? <==> Conflict(assignments)
  {
    if assignments != [] {
      var n := |assignments| - 1;
      var before, p := assignments[..n], assignments[n].path;
      BuildFailsIffConflict(before);
      ConflictStep(assignments);
      if Build(before).Some? {
        SetFailsIffBlocked(Build(before).value, p, assignments[n].value);
        PrefixSetIffHeld(before, p);
        forall k | 0 < k < |p| ensures LeafAt(Build(before).value, p[..k]) == Expected(before, p[..k]) {
          BuildHoldsExpected(before, p[..k]);
        }
      }
    }
  }

  lemma ConflictStep(assignments: seq<Assignment>)
    requires assignments != []
    ensures var n := |assignments| - 1;
            Conflict(assignments) <==> Conflict(assignments[..n]) || SomePrefixIn(assignments[..n], assignments[n].path)
  {
  }

  /* Variable names. */

  const PREFIX := "PGPT_OBSERVABILITY_EXPORTERS_"

  function LowerChar(c: char): char {
    if 'A' <= c <= 'Z' then c + 32 as char else c
  }

  /** `str.lower` on ASCII. */
  function Lower(s: string): (r: string)
    ensures |r| == |s| && forall i | 0 <= i < |s| :: r[i] == LowerChar(s[i])
  {
    if s == "" then "" else [LowerChar(s[0])] + Lower(s[1..])
  }

  function IndexOf(s: string, c: char): (r: Option<nat>)
    ensures r.Some? ==> r.value < |s| && s[r.value] == c
  {
    if s == "" then None
    else if s[0] == c then Some(0)
    else
      var rest := IndexOf(s[1..], c);
      if rest.None? then None else Some(rest.value + 1)
  }

  /** Where the first "__" is. */
  function Double(s: string): (r: Option<nat>)
    ensures r.Some? ==> r.value + 2 <= |s| && s[r.value..r.value + 2] == "__"
  {
    if |s| < 2 then None
    else if s[0] == '_' && s[1] == '_' then Some(0)
    else
      var rest := Double(s[1..]);
      if rest.None? then None else Some(rest.value + 1)
  }

  /** `s.split("__")` */
  function Split(s: string): (r: Path)
    ensures r != []
    decreases |s|
  {
    var at := Double(s);
    if at.None? then [s] else [s[..at.value]] + Split(s[at.value + 2..])
  }

  function Join(parts: Path): string {
    if parts == [] then "" else if |parts| == 1 then parts[0] else parts[0] + "__" + Join(parts[1..])
  }

  lemma {:induction false} JoinSplit(s: string)
    ensures Join(Split(s)) == s
    decreases |s|
  {
    hide Double;
    var at := Double(s);
    if at.Some? {
      JoinSplit(s[at.value + 2..]);
      assert Split(s)[1..] == Split(s[at.value + 2..]);
      assert s == s[..at.value] + s[at.value..at.value + 2] + s[at.value + 2..];
    }
  }

  lemma {:induction false} JoinPrefix(a: Path, b: Path)
    requires a != [] && ProperPrefix(a, b)
    ensures ProperPrefix(Join(a), Join(b))
  {
    assert a[0] == b[0];
    if |a| == 1 {
      assert Join(b) == a[0] + ("__" + Join(b[1..]));
    } else {
      JoinPrefix(a[1..], b[1..]);
    }
  }

  datatype Name = Name(exporter: string, path: Path)

  /** Id and path of a variable, if it is one. */
  function Parse(key: string): (r: Option<Name>)
    ensures r.Some? ==> r.value.path != []
  {
    if !(PREFIX <= key) then None
    else
      var rest := key[|PREFIX|..];
      var at := IndexOf(rest, '_');
      if at.None? || at.value == 0 || at.value + 1 == |rest| then None
      else Some(Name(Lower(rest[..at.value]), Split(Lower(rest[at.value + 1..]))))
  }

  predicate Upper(s: string) {
    forall c | c in s :: !('a' <= c <= 'z')
  }

  lemma LowerKeepsOrder(a: string, b: string)
    requires Upper(a) && Upper(b)
    ensures Lower(a) == Lower(b) ==> a == b
    ensures ProperPrefix(Lower(a), Lower(b)) ==> ProperPrefix(a, b)
  {
    hide Lower;
    if Lower(a) == Lower(b) || ProperPrefix(Lower(a), Lower(b)) {
      forall i | 0 <= i < |a| ensures a[i] == b[i] {
        assert a[i] in a && b[i] in b;
        assert Lower(a)[i] == Lower(b)[i];
      }
    }
  }

  lemma UpperPart(s: string, i: nat, j: nat)
    ensures i <= j <= |s| && Upper(s) ==> Upper(s[i..j])
  {
    if i <= j <= |s| {
      forall c | c in s[i..j] ensures c in s {
        var k :| 0 <= k < j - i && s[i..j][k] == c;
        assert s[i + k] == c;
      }
    }
  }

  predicate NoDouble(s: string) {
    forall i | 0 < i < |s| :: !(s[i - 1] == '_' && s[i] == '_')
  }

  lemma NoDoubleBefore(c: char, rest: string)
    requires NoDouble(rest) && rest != "" && !(c == '_' && rest[0] == '_')
    ensures NoDouble([c] + rest)
  {
  }

  lemma {:induction false} DoubleIsFirst(s: string)
    ensures NoDouble(if Double(s).None? then s else s[..Double(s).value + 1])
  {
    if |s| >= 2 && !(s[0] == '_' && s[1] == '_') {
      var at := Double(s[1..]);
      var rest := if at.None? then s[1..] else s[1..][..at.value + 1];
      DoubleIsFirst(s[1..]);
      NoDoubleBefore(s[0], rest);
      assert (if at.None? then s else s[..at.value + 2]) == [s[0]] + rest;
    }
  }

  /** The text is cut at every "__", from the left. */
  lemma {:induction false} SplitIsLeftmost(s: string, i: nat)
    requires i < |Split(s)|
    ensures NoDouble(if i < |Split(s)| - 1 then Split(s)[i] + "_" else Split(s)[i])
    decreases |s|
  {
    DoubleIsFirst(s);
    var at := Double(s);
    if at.Some? {
      if i == 0 {
        assert s[at.value] == s[at.value..at.value + 2][0];
        assert s[..at.value + 1] == s[..at.value] + "_";
      } else {
        SplitIsLeftmost(s[at.value + 2..], i - 1);
      }
    }
  }

  lemma {:induction false} FirstIndex(s: string, c: char)
    ensures c !in if IndexOf(s, c).None? then s else s[..IndexOf(s, c).value]
  {
    if s != "" && s[0] != c {
      FirstIndex(s[1..], c);
      if IndexOf(s, c).Some? { assert s[..IndexOf(s, c).value] == [s[0]] + s[1..][..IndexOf(s[1..], c).value]; }
    }
  }

  /** A name is the fixed prefix, the id, "_" and the rest. */
  lemma ParseParts(key: string) returns (id: string, param: string)
    requires Parse(key).Some?
    ensures key == (PREFIX + id + "_") + param && Parse(key).value == Name(Lower(id), Split(Lower(param)))
    ensures Upper(key) ==> Upper(id) && Upper(param)
  {
    hide Lower, Split, IndexOf, Upper;
    var rest := key[|PREFIX|..];
    var at := IndexOf(rest, '_').value;
    id, param := rest[..at], rest[at + 1..];
    assert rest == id + "_" + param;
    assert key == PREFIX + rest;
    Assoc(PREFIX, id + "_", param);
    Assoc(PREFIX, id, "_");
    var from := |PREFIX|;
    assert id == key[from..from + at] && param == key[from + at + 1..|key|];
    UpperPart(key, from, from + at);
    UpperPart(key, from + at + 1, |key|);
  }

  /** Among upper-case names of one exporter, a longer path means a longer name, the same path the same name. */
  lemma PathOrderIsNameOrder(a: string, b: string)
    requires Upper(a) && Upper(b) && Parse(a).Some? && Parse(b).Some?
    requires Parse(a).value.exporter == Parse(b).value.exporter
    ensures ProperPrefix(Parse(a).value.path, Parse(b).value.path) ==> ProperPrefix(a, b)
    ensures Parse(a).value.path == Parse(b).value.path ==> a == b
  {
    hide Parse, Lower, Split, Join, Upper;
    var idA, paramA := ParseParts(a);
    var idB, paramB := ParseParts(b);
    LowerKeepsOrder(idA, idB);
    LowerKeepsOrder(paramA, paramB);
    JoinSplit(Lower(paramA));
    JoinSplit(Lower(paramB));
    if ProperPrefix(Parse(a).value.path, Parse(b).value.path) {
      JoinPrefix(Parse(a).value.path, Parse(b).value.path);
    }
  }

  /* Sorted names. */

  predicate Sorted(keys: seq<string>) {
    forall i, j | 0 <= i < j < |keys| :: Less(keys[i], keys[j])
  }

  /** In sorted upper-case names of one exporter, neither the same path nor a proper prefix comes later. */
  lemma ShorterComesFirst(a: string, b: string)
    requires Less(a, b) && Upper(a) && Upper(b) && Parse(a).Some? && Parse(b).Some?
    requires Parse(a).value.exporter == Parse(b).value.exporter
    ensures !ProperPrefix(Parse(b).value.path, Parse(a).value.path) && Parse(a).value.path != Parse(b).value.path
  {
    PathOrderIsNameOrder(b, a);
    LessIsStrict(a);
    if ProperPrefix(b, a) { PrefixIsLess(b, a); }
  }

  /* Values. */

  function StripLeft(s: string): string {
    if s != "" && IsSpace(s[0]) then StripLeft(s[1..]) else s
  }

  function StripRight(s: string): string {
    if s != "" && IsSpace(s[|s| - 1]) then StripRight(s[..|s| - 1]) else s
  }

  /** The non-empty entries of a comma-separated list. */
  function ListItems(s: string): seq<string>
    decreases |s|
  {
    var at := IndexOf(s, ',');
    var item := StripRight(StripLeft(if at.None? then s else s[..at.value]));
    (if item == "" then [] else [item]) + (if at.None? then [] else ListItems(s[at.value + 1..]))
  }

  /** Comma-separated. */
  function Joined(cells: seq<string>): string {
    if cells == [] then "" else if |cells| == 1 then cells[0] else cells[0] + "," + Joined(cells[1..])
  }

  predicate AllBlank(s: string) {
    forall i | 0 <= i < |s| :: IsSpace(s[i])
  }

  /** t is s without the blanks around it. */
  ghost predicate Stripped(s: string, t: string) {
    && (exists a, b :: AllBlank(a) && AllBlank(b) && s == a + t + b)
    && (t != "" ==> !IsSpace(t[0]) && !IsSpace(t[|t| - 1]))
  }

  /** The items are the cells in order, stripped, without those of blanks only. */
  ghost predicate ItemsOf(cells: seq<string>, items: seq<string>)
    decreases |cells|
  {
    if cells == [] then items == []
    else if AllBlank(cells[0]) then ItemsOf(cells[1..], items)
    else items != [] && Stripped(cells[0], items[0]) && ItemsOf(cells[1..], items[1..])
  }

  /** Read as a comma-separated list, the text has these items. */
  ghost predicate Lists(text: string, items: seq<string>) {
    exists cells :: cells != [] && Joined(cells) == text && ItemsOf(cells, items) && forall c | c in cells :: ',' !in c
  }

  lemma {:induction false} StripLeftIs(s: string) returns (a: string)
    ensures AllBlank(a) && s == a + StripLeft(s) && (StripLeft(s) != "" ==> !IsSpace(StripLeft(s)[0]))
  {
    if s != "" && IsSpace(s[0]) {
      var rest := StripLeftIs(s[1..]);
      a := [s[0]] + rest;
    } else {
      a := "";
    }
  }

  lemma {:induction false} StripRightIs(s: string) returns (b: string)
    ensures AllBlank(b) && s == StripRight(s) + b
    ensures StripRight(s) != "" ==> !IsSpace(StripRight(s)[|StripRight(s)| - 1])
  {
    if s != "" && IsSpace(s[|s| - 1]) {
      var n := |s| - 1;
      var rest := StripRightIs(s[..n]);
      b := rest + [s[n]];
      assert s == s[..n] + [s[n]];
    } else {
      b := "";
    }
  }

  lemma StripIs(s: string)
    ensures var t := StripRight(StripLeft(s)); Stripped(s, t) && (t == "" <==> AllBlank(s))
  {
    hide StripLeft, StripRight, IsSpace, AllBlank;
    var a := StripLeftIs(s);
    var b := StripRightIs(StripLeft(s));
    var t := StripRight(StripLeft(s));
    assert s == a + t + b;
    assert t != "" ==> StripLeft(s)[0] == t[0];
    BlankAround(a, t, b);
  }

  lemma BlankAround(a: string, t: string, b: string)
    requires AllBlank(a) && AllBlank(b) && (t != "" ==> !IsSpace(t[0]))
    ensures t == "" <==> AllBlank(a + t + b)
  {
    hide IsSpace;
    if t != "" { assert (a + t + b)[|a|] == t[0]; }
  }

  lemma {:induction false} ListItemsAre(s: string) returns (cells: seq<string>)
    ensures cells != [] && Joined(cells) == s && ItemsOf(cells, ListItems(s)) && forall c | c in cells :: ',' !in c
    decreases |s|
  {
    hide Stripped, StripLeft, StripRight, AllBlank, IndexOf;
    FirstIndex(s, ',');
    var at := IndexOf(s, ',');
    if at.None? {
      cells := [s];
      StripIs(s);
    } else {
      var cell, rest := s[..at.value], s[at.value + 1..];
      var more := ListItemsAre(rest);
      cells := [cell] + more;
      StripIs(cell);
      assert cells[1..] == more && s == cell + "," + rest;
      ItemsCons(cell, more, StripRight(StripLeft(cell)), ListItems(rest));
    }
  }

  lemma ItemsCons(cell: string, cells: seq<string>, item: string, items: seq<string>)
    requires ItemsOf(cells, items) && Stripped(cell, item) && (item == "" <==> AllBlank(cell))
    ensures ItemsOf([cell] + cells, (if item == "" then [] else [item]) + items)
  {
    assert ([cell] + cells)[1..] == cells && [] + items == items && ([item] + items)[1..] == items;
  }

  /** What a variable's text means for its path: a list for `tags` at the top, else the text itself. */
  ghost predicate Means(path: Path, text: string, value: Value) {
    if path == ["tags"] then value.Items? && Lists(text, value.items) else value == Scalar(text)
  }

  function ValueOf(path: Path, text: string): Value {
    if path == ["tags"] then Items(ListItems(text)) else Scalar(text)
  }

  type Environ = map<string, string>

  predicate Of(key: string, id: string) {
    Parse(key).Some? && Parse(key).value.exporter == id
  }

  function AssignmentOf(key: string, text: string): (a: Assignment)
    requires Parse(key).Some?
    ensures a.path != []
  {
    var path := Parse(key).value.path;
    Assignment(path, ValueOf(path, text))
  }

  /** What the variables of one exporter set, in the order of their names. */
  function Assignments(keys: seq<string>, environ: Environ, id: string): (r: seq<Assignment>)
    requires forall k | k in keys :: k in environ
    ensures forall a | a in r :: a.path != []
  {
    if keys == [] then []
    else
      var n := |keys| - 1;
      assert keys[n] in keys;
      if Of(keys[n], id) then Assignments(keys[..n], environ, id) + [AssignmentOf(keys[n], environ[keys[n]])]
      else Assignments(keys[..n], environ, id)
  }

  /** Exporter ids in the order they come up. */
  function Ids(keys: seq<string>): seq<string> {
    if keys == [] then []
    else
      var n := |keys| - 1;
      var name := Parse(keys[n]);
      Ids(keys[..n]) + (if name.Some? && name.value.exporter !in Ids(keys[..n]) then [name.value.exporter] else [])
  }

  /** `config.setdefault("type", exporter_id)` */
  function WithType(entries: Entries, id: string): Entries {
    if "type" in entries then entries else entries["type" := Leaf(Scalar(id))]
  }

  /** All that was built, and the exporter's id as its type unless that was set. */
  predicate IsTyped(built: Entries, id: string, config: Entries) {
    && config.Keys == built.Keys + {"type"} && (forall name | name in built :: config[name] == built[name])
    && ("type" !in built ==> config["type"] == Leaf(Scalar(id)))
  }

  lemma WithTypeIs(entries: Entries, id: string)
    ensures IsTyped(entries, id, WithType(entries, id))
  {
  }

  ghost predicate BuiltSoFar(keys: seq<string>, environ: Environ, exporters: map<string, Entries>)
    requires forall k | k in keys :: k in environ
  {
    forall id: string :: Build(Assignments(keys, environ, id)) == Some(if id in exporters then exporters[id] else map[])
  }

  lemma AssignmentsStep(keys: seq<string>, environ: Environ, i: nat, id: string)
    requires i < |keys| && forall k | k in keys :: k in environ
    ensures var before := Assignments(keys[..i], environ, id);
            Assignments(keys[..i + 1], environ, id)
            == if Of(keys[i], id) then before + [AssignmentOf(keys[i], environ[keys[i]])] else before
  {
    assert keys[..i + 1][..i] == keys[..i];
    assert keys[..i + 1][i] == keys[i];
  }

  lemma BuildStep(before: seq<Assignment>, a: Assignment)
    requires a.path != [] && forall b | b in before :: b.path != []
    ensures Build(before + [a]) == if Build(before).None? then None else SetNested(Build(before).value, a.path, a.value)
  {
    assert (before + [a])[..|before|] == before;
  }

  lemma {:induction false} FailureStays(keys: seq<string>, environ: Environ, i: nat, id: string)
    requires i <= |keys| && forall k | k in keys :: k in environ
    requires Build(Assignments(keys[..i], environ, id)).None?
    ensures Build(Assignments(keys, environ, id)).None?
    decreases |keys| - i
  {
    if i == |keys| {
      assert keys[..i] == keys;
    } else {
      AssignmentsStep(keys, environ, i, id);
      if Of(keys[i], id) {
        BuildStep(Assignments(keys[..i], environ, id), AssignmentOf(keys[i], environ[keys[i]]));
      }
      FailureStays(keys, environ, i + 1, id);
    }
  }

  /** One round of the loop: the exporter is there from now on, and the value is set in it. */
  function Put(exporters: map<string, Entries>, key: string, text: string): Option<map<string, Entries>>
    requires Parse(key).Some?
  {
    var id, a := Parse(key).value.exporter, AssignmentOf(key, text);
    var next := SetNested(if id in exporters then exporters[id] else map[], a.path, a.value);
    if next.None? then None else Some(exporters[id := next.value])
  }

  lemma PutStep(keys: seq<string>, environ: Environ, i: nat, exporters: map<string, Entries>)
    requires i < |keys| && (forall k | k in keys ::
        k in environ) && BuiltSoFar(keys[..i], environ, exporters)
    requires Parse(keys[i]).Some?
    ensures var next, id := Put(exporters, keys[i], environ[keys[i]]), Parse(keys[i]).value.exporter;
            if next.None? then Build(Assignments(keys, environ, id)).None?
            else BuiltSoFar(keys[..i + 1], environ, next.value)
  {
    hide SetNested, Parse, ValueOf, Assignments, Build;
    var next, own := Put(exporters, keys[i], environ[keys[i]]), Parse(keys[i]).value.exporter;
    var a := AssignmentOf(keys[i], environ[keys[i]]);
    AssignmentsStep(keys, environ, i, own);
    BuildStep(Assignments(keys[..i], environ, own), a);
    assert Build(Assignments(keys[..i], environ, own)) == Some(if own in exporters then exporters[own] else map[]);
    if next.None? {
      FailureStays(keys, environ, i + 1, own);
    } else {
      forall id: string
        ensures Build(Assignments(keys[..i + 1], environ, id))
             == Some(if id in next.value then next.value[id] else map[])
      {
        assert Build(Assignments(keys[..i], environ, id)) == Some(if id in exporters then exporters[id] else map[]);
        AssignmentsStep(keys, environ, i, id);
      }
    }
  }

  lemma SkipStep(keys: seq<string>, environ: Environ, i: nat, exporters: map<string, Entries>)
    requires i < |keys| && (forall k | k in keys ::
        k in environ) && BuiltSoFar(keys[..i], environ, exporters)
    requires Parse(keys[i]).None?
    ensures BuiltSoFar(keys[..i + 1], environ, exporters)
  {
    forall id: string
      ensures Build(Assignments(keys[..i + 1], environ, id)) == Some(if id in exporters then exporters[id] else map[])
    {
      assert Build(Assignments(keys[..i], environ, id)) == Some(if id in exporters then exporters[id] else map[]);
      AssignmentsStep(keys, environ, i, id);
    }
  }

  lemma IdsStep(keys: seq<string>, i: nat)
    requires i < |keys|
    ensures Ids(keys[..i + 1]) == if Parse(keys[i]).Some? && Parse(keys[i]).value.exporter !in Ids(keys[..i])
                                  then Ids(keys[..i]) + [Parse(keys[i]).value.exporter] else Ids(keys[..i])
  {
    assert keys[..i + 1][..i] == keys[..i];
  }

  lemma NothingBuilt(environ: Environ)
    ensures BuiltSoFar([], environ, map[]) && Ids([]) == []
  {
  }

  datatype Discovered = Discovered(ids: seq<string>, configs: map<string, Entries>)

  ghost predicate Configured(keys: seq<string>, environ: Environ, d: Discovered)
    requires forall k | k in keys :: k in environ
  {
    && d.ids == Ids(keys) && (forall id :: id in d.configs <==> id in d.ids)
    && forall id | id in d.configs :: var built := Build(Assignments(keys, environ, id));
         built.Some? && IsTyped(built.value, id, d.configs[id])
  }

  /** `keys` are the variable names as the built-in `sorted` lists them. */
  method Discover(environ: Environ, keys: seq<string>) returns (r: Result<Discovered, string>)
    requires Sorted(keys) && forall k :: k in keys <==> k in environ
    ensures r.Err? <==> exists id :: Build(Assignments(keys, environ, id)).None?
    ensures r.Ok? ==> Configured(keys, environ, r.value)
  {
    hide Build, Assignments, Ids, Parse, SetNested, WithType, IsTyped;
    var exporters: map<string, Entries> := map[];
    var ids: seq<string> := [];
    assert keys[..0] == [];
    NothingBuilt(environ);
    for i := 0 to |keys|
      invariant BuiltSoFar(keys[..i], environ, exporters)
      invariant ids == Ids(keys[..i]) && forall id :: id in exporters <==> id in ids
    {
      IdsStep(keys, i);
      var name := Parse(keys[i]);
      if name.None? {
        SkipStep(keys, environ, i, exporters);
      } else {
        PutStep(keys, environ, i, exporters);
        var next := Put(exporters, keys[i], environ[keys[i]]);
        if next.None? { return Err(keys[i]); }
        if name.value.exporter !in exporters { ids := ids + [name.value.exporter]; }
        exporters := next.value;
      }
    }
    assert keys[..|keys|] == keys;
    forall id | id in exporters ensures IsTyped(exporters[id], id, WithType(exporters[id], id)) {
      WithTypeIs(exporters[id], id);
    }
    r := Ok(Discovered(ids, map id | id in exporters :: WithType(exporters[id], id)));
  }

  /* The promise for upper-case names. */

  lemma {:induction false} InAssignments(keys: seq<string>, environ: Environ, id: string, p: Path)
    requires forall k | k in keys :: k in environ
    ensures SomePrefixIn(Assignments(keys, environ, id), p)
       <==> exists k :: k in keys && Of(k, id) && ProperPrefix(Parse(k).value.path, p)
  {
    if keys != [] {
      var n := |keys| - 1;
      InAssignments(keys[..n], environ, id, p);
    }
  }

  /** The exporter's own names have no lower-case letter; all other names may. */
  ghost predicate OwnUpper(keys: seq<string>, id: string) {
    forall k | k in keys && Of(k, id) :: Upper(k)
  }

  /** Some variable's path is a proper prefix of another's, for one exporter. */
  ghost predicate Clash(keys: seq<string>, id: string) {
    exists a, b ::
      a in keys && b in keys && Of(a, id) && Of(b, id) && ProperPrefix(Parse(a).value.path, Parse(b).value.path)
  }

  lemma ClashStep(keys: seq<string>, id: string)
    requires keys != [] && Sorted(keys) && OwnUpper(keys, id)
    ensures var n := |keys| - 1;
            Clash(keys, id)
            <==> (Clash(keys[..n], id)
                  || (Of(keys[n], id) && exists a ::
                      a in keys[..n] && Of(a, id) && ProperPrefix(Parse(a).value.path, Parse(keys[n]).value.path)))
  {
    hide Parse, Upper, Less;
    var n := |keys| - 1;
    assert keys == keys[..n] + [keys[n]];
    if Clash(keys, id) {
      var a, b :|
        a in keys && b in keys && Of(a, id) && Of(b, id) && ProperPrefix(Parse(a).value.path, Parse(b).value.path);
      if a == keys[n] && b in keys[..n] {
        ShorterComesFirst(b, a);
      }
    }
  }

  /** With upper-case names, building one exporter fails exactly when one of its paths is a proper prefix
      of another. */
  lemma {:induction false} FailsIffClash(keys: seq<string>, environ: Environ, id: string)
    requires Sorted(keys) && OwnUpper(keys, id) && forall k | k in keys :: k in environ
    ensures Conflict(Assignments(keys, environ, id)) <==> Clash(keys, id)
  {
    if keys != [] {
      var n := |keys| - 1;
      FailsIffClash(keys[..n], environ, id);
      ClashStep(keys, id);
      if Of(keys[n], id) {
        ConflictPlus(Assignments(keys[..n], environ, id), AssignmentOf(keys[n], environ[keys[n]]));
        InAssignments(keys[..n], environ, id, Parse(keys[n]).value.path);
      }
    }
  }

  lemma ConflictPlus(before: seq<Assignment>, a: Assignment)
    ensures Conflict(before + [a]) <==> Conflict(before) || SomePrefixIn(before, a.path)
  {
    assert (before + [a])[..|before|] == before;
    ConflictStep(before + [a]);
  }

  /** With upper-case names and no clash, every variable's value is at its path. */
  lemma {:induction false} EveryValueExpected(keys: seq<string>, environ: Environ, id: string, i: nat)
    requires Sorted(keys) && OwnUpper(keys, id) && (forall k | k in keys :: k in environ)
    requires i < |keys| && Of(keys[i], id)
    ensures Expected(Assignments(keys, environ, id), Parse(keys[i]).value.path)
         == Some(AssignmentOf(keys[i], environ[keys[i]]).value)
  {
    hide Parse, Upper, Less;
    var n := |keys| - 1;
    if i < n {
      EveryValueExpected(keys[..n], environ, id, i);
    }
    if Of(keys[n], id) {
      if i < n { ShorterComesFirst(keys[i], keys[n]); }
    }
  }

  lemma {:induction false} ExpectedIsAssigned(assignments: seq<Assignment>, q: Path)
    requires Expected(assignments, q).Some?
    ensures Assignment(q, Expected(assignments, q).value) in assignments
  {
    var n := |assignments| - 1;
    if assignments[n].path != q { ExpectedIsAssigned(assignments[..n], q); }
  }

  lemma ValueMeans(path: Path, text: string)
    ensures Means(path, text, ValueOf(path, text))
  {
    hide ItemsOf, Joined;
    var cells := ListItemsAre(text);
  }

  lemma HeldForVariable(keys: seq<string>, environ: Environ, id: string, k: string)
    requires Sorted(keys) && OwnUpper(keys, id) && forall k | k in keys :: k in environ
    requires k in keys && Of(k, id) && Build(Assignments(keys, environ, id)).Some?
    ensures var path := Parse(k).value.path;
            var held := LeafAt(Build(Assignments(keys, environ, id)).value, path);
            held.Some? && Means(path, environ[k], held.value)
  {
    hide Parse, Build, Assignments, Expected, Means, ValueOf, Sorted, OwnUpper;
    var i :| 0 <= i < |keys| && keys[i] == k;
    EveryValueExpected(keys, environ, id, i);
    BuildHoldsExpected(Assignments(keys, environ, id), Parse(k).value.path);
    ValueMeans(Parse(k).value.path, environ[k]);
  }

  lemma {:induction false} AssignedByVariable(keys: seq<string>, environ: Environ, id: string, a: Assignment)
    returns (k: string)
    requires (forall k | k in keys :: k in environ) && a in Assignments(keys, environ, id)
    ensures k in keys && Of(k, id) && Parse(k).value.path == a.path
  {
    hide Parse, ValueOf;
    var n := |keys| - 1;
    if a in Assignments(keys[..n], environ, id) {
      k := AssignedByVariable(keys[..n], environ, id, a);
    } else {
      k := keys[n];
    }
  }

  lemma HeldIsSet(keys: seq<string>, environ: Environ, id: string, q: Path) returns (k: string)
    requires (forall k | k in keys :: k in environ) && Build(Assignments(keys, environ, id)).Some?
    requires LeafAt(Build(Assignments(keys, environ, id)).value, q).Some?
    ensures k in keys && Of(k, id) && Parse(k).value.path == q
  {
    hide Parse, Build, Assignments, Expected;
    var all := Assignments(keys, environ, id);
    BuildHoldsExpected(all, q);
    ExpectedIsAssigned(all, q);
    k := AssignedByVariable(keys, environ, id, Assignment(q, Expected(all, q).value));
  }

  /** With upper-case names: building fails exactly on a clash; otherwise the exporter holds, at each
      variable's path, what that variable's text means, and no value that no variable set. */
  lemma UpperCaseNames(keys: seq<string>, environ: Environ, id: string)
    requires Sorted(keys) && OwnUpper(keys, id) && forall k | k in keys :: k in environ
    ensures Build(Assignments(keys, environ, id)).None? <==> Clash(keys, id)
    ensures !Clash(keys, id) ==>
              var entries := Build(Assignments(keys, environ, id)).value;
              && (forall k | k in keys && Of(k, id) ::
                    var path := Parse(k).value.path;
                    LeafAt(entries, path).Some? && Means(path, environ[k], LeafAt(entries, path).value))
              && (forall q | LeafAt(entries, q).Some? :: exists k :: k in keys && Of(k, id) && Parse(k).value.path == q)
  {
    hide Parse, Build, Assignments, Means, Sorted, OwnUpper, Clash, Conflict, LeafAt;
    FailsIffClash(keys, environ, id);
    BuildFailsIffConflict(Assignments(keys, environ, id));
    if !Clash(keys, id) {
      forall k | k in keys && Of(k, id)
        ensures var path := Parse(k).value.path;
                var held := LeafAt(Build(Assignments(keys, environ, id)).value, path);
                held.Some? && Means(path, environ[k], held.value)
      {
        HeldForVariable(keys, environ, id, k);
      }
      forall q | LeafAt(Build(Assignments(keys, environ, id)).value, q).Some?
        ensures exists k :: k in keys && Of(k, id) && Parse(k).value.path == q
      {
        var k := HeldIsSet(keys, environ, id, q);
      }
    }
  }

  /* The failing case with a lower-case name. */

  lemma {:induction false} FirstUnderscore(id: string, rest: string)
    requires '_' !in id
    ensures IndexOf(id + "_" + rest, '_') == Some(|id|)
  {
    if id != "" {
      assert (id + "_" + rest)[1..] == id[1..] + "_" + rest;
      FirstUnderscore(id[1..], rest);
    }
  }

  lemma ParseOf(id: string, param: string)
    requires id != "" && '_' !in id && param != ""
    ensures Parse(PREFIX + (id + "_" + param)) == Some(Name(Lower(id), Split(Lower(param))))
  {
    hide Lower, Split;
    var rest := id + "_" + param;
    assert (PREFIX + rest)[|PREFIX|..] == rest;
    FirstUnderscore(id, param);
    assert rest[..|id|] == id && rest[|id| + 1..] == param;
  }

  /** A variable counts when an id without "_" and a parameter follow the prefix. */
  lemma ParseIff(key: string)
    ensures Parse(key).Some? <==>
      exists id, param ::
        id != "" && '_' !in id && param != "" && key == PREFIX + (id + "_" + param)
  {
    hide Split, Lower, IndexOf;
    if Parse(key).Some? {
      var rest := key[|PREFIX|..];
      var at := IndexOf(rest, '_').value;
      FirstIndex(rest, '_');
      assert rest == rest[..at] + "_" + rest[at + 1..] && key == PREFIX + rest;
    }
    if id, param :| id != "" && '_' !in id && param != "" && key == PREFIX + (id + "_" + param) {
      ParseOf(id, param);
    }
  }

  lemma {:induction false} LessAfter(p: string, a: string, b: string)
    requires Less(a, b)
    ensures Less(p + a, p + b)
  {
    if p == "" {
      assert p + a == a && p + b == b;
    } else {
      assert (p + a)[1..] == p[1..] + a && (p + b)[1..] == p[1..] + b;
      LessAfter(p[1..], a, b);
    }
  }

  function Variable(id: string, param: string): string {
    PREFIX + (id + "_" + param)
  }

  lemma SplitTwo()
    ensures Split("b__c") == ["b", "c"] && Split("b") == ["b"]
  {
    assert Double("__c") == Some(0) && "b__c"[1..] == "__c";
    assert Double("b__c") == Some(1) && "b__c"[..1] == "b" && "b__c"[3..] == "c";
    assert Split("c") == ["c"];
  }

  lemma LowerLetters()
    ensures Lower("A") == "a" && Lower("B__C") == "b__c" && Lower("b") == "b"
  {
  }

  lemma TwoNames()
    ensures Parse(Variable("A", "B__C")) == Some(Name("a", ["b", "c"]))
    ensures Parse(Variable("A", "b")) == Some(Name("a", ["b"]))
    ensures Less(Variable("A", "B__C"), Variable("A", "b"))
  {
    hide Split, Double, Lower, Parse;
    ParseOf("A", "B__C");
    ParseOf("A", "b");
    LowerLetters();
    SplitTwo();
    LessAfter("A" + "_", "B__C", "b");
    LessAfter(PREFIX, "A" + "_" + "B__C", "A" + "_" + "b");
  }

  lemma BuildTwo(first: Value, second: Value)
    ensures Build([Assignment(["b", "c"], first), Assignment(["b"], second)]) == Some(map["b" := Leaf(second)])
  {
    var all := [Assignment(["b", "c"], first), Assignment(["b"], second)];
    assert all[..1] == [all[0]] && all[..1][..0] == [];
    assert ["b", "c"][1..] == ["c"];
    var deep: Entries := map["b" := Dict(map["c" := Leaf(first)])];
    assert Build(all[..1]) == Some(deep);
    assert SetNested(deep, ["b"], second) == Some(deep["b" := Leaf(second)]);
    assert deep["b" := Leaf(second)] == map["b" := Leaf(second)];
  }

  lemma AssignTwo(a: string, b: string, environ: Environ, id: string)
    requires a in environ && b in environ && Of(a, id) && Of(b, id)
    ensures Assignments([a, b], environ, id) == [AssignmentOf(a, environ[a]), AssignmentOf(b, environ[b])]
  {
    hide Parse, AssignmentOf;
    assert [a, b][..1] == [a] && [a][..0] == [];
    assert Assignments([a], environ, id) == [] + [AssignmentOf(a, environ[a])];
  }

  /** `..._A_B__C` and then `..._A_b`: one path is a proper prefix of the other, and yet nothing fails, and
      the first value is replaced by the second. */
  lemma LowerCaseReplacesSilently(first: string, second: string)
    ensures var keys := [Variable("A", "B__C"), Variable("A", "b")];
            var environ := map[keys[0] := first, keys[1] := second];
            && Sorted(keys) && Clash(keys, "a")
            && Build(Assignments(keys, environ, "a")) == Some(map["b" := Leaf(Scalar(second))])
  {
    hide Variable, Parse, Less, Build, Assignments;
    TwoNames();
    var keys := [Variable("A", "B__C"), Variable("A", "b")];
    assert keys[0] in keys && keys[1] in keys;
    AssignTwo(keys[0], keys[1], map[keys[0] := first, keys[1] := second], "a");
    BuildTwo(Scalar(first), Scalar(second));
  }
}
