/**
  The collector as it runs: a scan state updated in place by recursive walks,
  loops over map keys in no particular order, and a final sort by path.
*/
module Collector {
  import opened Wrappers
  import opened Sorting
  import opened Overlay
  import opened UpperWalk
  import opened FsDiff

  datatype Limits = Limits(maxNodes: nat, maxChanges: nat, maxDepth: nat)

  datatype Error = DepthLimit | NodeLimit | ChangeLimit | RefusedNode | LowerChanged

  datatype Result<T> = Ok(value: T) | Err(error: Error)

  // ---------- the order of paths ----------

  /** The path as the collector writes it, components joined by slashes. */
  function Join(p: Path): string {
    if p == [] then ""
    else if |p| == 1 then p[0]
    else p[0] + "/" + Join(p[1..])
  }

  lemma {:induction false} JoinInjective(p: Path, q: Path)
    requires Join(p) == Join(q)
    ensures p == q
  {
    if p == [] || q == [] {
      JoinEmpty(p);
      JoinEmpty(q);
    } else {
      JoinHead(p);
      JoinHead(q);
      FirstComponent(p, q);
      FirstComponent(q, p);
      assert p[0] == Join(p)[..|p[0]|] == q[0];
      assert |p| == 1 <==> |Join(p)| == |p[0]|;
      if 1 < |p| {
        assert Join(p[1..]) == Join(p)[|p[0]| + 1..];
        assert Join(q[1..]) == Join(q)[|q[0]| + 1..];
        JoinInjective(p[1..], q[1..]);
      }
    }
  }

  lemma JoinEmpty(p: Path)
    ensures Join(p) == "" <==> p == []
  {
  }

  lemma JoinHead(p: Path)
    requires p != []
    ensures |p[0]| <= |Join(p)| && Join(p)[..|p[0]|] == p[0]
    ensures |p[0]| < |Join(p)| ==> 1 < |p| && Join(p)[|p[0]|] == '/'
  {
  }

  /** The first slash ends the first component. */
  lemma FirstComponent(p: Path, q: Path)
    requires p != [] && q != [] && Join(p) == Join(q)
    ensures |p[0]| <= |q[0]|
  {
    JoinHead(p);
    JoinHead(q);
    if |q[0]| < |p[0]| {
      assert false;
    }
  }

  predicate ByPath(a: Change, b: Change) {
    StringLe(Join(a.path), Join(b.path))
  }

  lemma ByPathOrder(cs: seq<Change>)
    requires forall i, j :: 0 <= i < j < |cs| ==> cs[i].path != cs[j].path
    ensures TotalPreorder(ByPath) && NoTies(ByPath, cs)
  {
    StringOrder();
    forall a, b | a in cs && b in cs && ByPath(a, b) && ByPath(b, a) ensures a == b {
      StringLeAntisymmetric(Join(a.path), Join(b.path));
      JoinInjective(a.path, b.path);
    }
  }

  // ---------- the baseline ----------

  /** The lower node called n. In the lower layer every name is an entry. */
  function Pick(es: seq<Child>, n: Name): Option<Node> {
    if es == [] then None
    else if es[0].name == n then Some(es[0].node)
    else Pick(es[1..], n)
  }

  /** The lower node at a path. */
  function LookUp(es: seq<Child>, rest: Path): Option<Node>
    decreases |rest|
  {
    if rest == [] then None
    else match Pick(es, rest[0])
      case None => None
      case Some(n) =>
        if |rest| == 1 then Some(n)
        else if n.Dir? then LookUp(n.entries, rest[1..])
        else None
  }

  /** The tree holds only directories, regular files and symbolic links. */
  predicate Supported(es: seq<Child>)
    decreases es, 1
  {
    es == [] || (SupportedNode(es[0].node) && Supported(es[1..]))
  }

  predicate SupportedNode(n: Node)
    decreases n, 0
  {
    n.Regular? || n.Symlink? || (n.Dir? && Supported(n.entries))
  }

  function EntryOf(n: Node): Entry {
    match n
    case Regular(h) => RegularEntry(h)
    case Symlink(h) => SymlinkEntry(h)
    case _ => DirEntry
  }

  /** What the scan of a lower directory records. */
  function Record(es: seq<Child>, rel: Path): Manifest
    decreases es, 1
  {
    if es == [] then map[] else RecordNode(es[0].node, rel + [es[0].name]) + Record(es[1..], rel)
  }

  function RecordNode(n: Node, p: Path): Manifest
    decreases n, 0
  {
    var own: Manifest := map[p := EntryOf(n)];
    if n.Dir? then own + Record(n.entries, p) else own
  }

  // ---------- limits ----------

  /** How many entries a walk counts. In the upper layer an opaque marker is counted
      and not entered. */
  function Size(es: seq<Child>, upper: bool): nat
    decreases es, 1
  {
    if es == [] then 0 else SizeBelow(es[0], upper) + 1 + Size(es[1..], upper)
  }

  function SizeBelow(c: Child, upper: bool): nat
    decreases c, 0
  {
    if c.node.Dir? && !(upper && c.name == OPAQUE) then Size(c.node.entries, upper) else 0
  }

  /** How deep directories go below this one. */
  function Depth(es: seq<Child>, upper: bool): nat
    decreases es, 1
  {
    if es == [] then 0 else Max(DepthBelow(es[0], upper), Depth(es[1..], upper))
  }

  function DepthBelow(c: Child, upper: bool): nat
    decreases c, 0
  {
    if c.node.Dir? && !(upper && c.name == OPAQUE) then 1 + Depth(c.node.entries, upper) else 0
  }

  function Max(a: nat, b: nat): nat {
    if a < b then b else a
  }

  method Walk(es: seq<Child>, rel: Path, entries: Manifest, limits: Limits, nodes: nat, depth: nat)
    returns (r: Result<(Manifest, nat)>)
    requires nodes <= limits.maxNodes
    ensures r.Ok? ==>
      && Supported(es) && r.value.0 == entries + Record(es, rel)
      && depth + Depth(es, false) <= limits.maxDepth && r.value.1 == nodes + Size(es, false) <= limits.maxNodes
    ensures r.Err? ==> Cause(r.error, limits, Supported(es), depth + Depth(es, false), nodes + Size(es, false))
    decreases es, 1
  {
    if depth > limits.maxDepth {
      return Err(DepthLimit);
    }
    var m, n: nat := entries, nodes;
    for i := 0 to |es|
      invariant Supported(es) <==> Supported(es[i..])
      invariant entries + Record(es, rel) == m + Record(es[i..], rel)
      invariant n + Size(es[i..], false) == nodes + Size(es, false) && n <= limits.maxNodes
      invariant Depth(es[i..], false) <= Depth(es, false)
      invariant depth + Depth(es, false) > limits.maxDepth ==> depth + Depth(es[i..], false) > limits.maxDepth
    {
      assert es[i..][0] == es[i] && es[i..][1..] == es[i + 1..];
      if n >= limits.maxNodes {
        return Err(NodeLimit);
      }
      ghost var p := rel + [es[i].name];
      MergeAssociates(m, RecordNode(es[i].node, p), Record(es[i + 1..], rel));
      r := WalkNode(es[i], rel + [es[i].name], m, limits, n + 1, depth);
      if r.Err? {
        return;
      }
      m, n := r.value.0, r.value.1;
    }
    assert m + map[] == m;
    r := Ok((m, n));
  }

  /** What an error of the lower walk says. */
  ghost predicate Cause(e: Error, limits: Limits, supported: bool, depth: nat, nodes: nat) {
    match e
    case DepthLimit => depth > limits.maxDepth
    case NodeLimit => nodes > limits.maxNodes
    case RefusedNode => !supported
    case _ => false
  }

  method WalkNode(c: Child, p: Path, m: Manifest, limits: Limits, n: nat, depth: nat)
    returns (r: Result<(Manifest, nat)>)
    requires n <= limits.maxNodes && depth <= limits.maxDepth
    ensures r.Ok? ==>
      && SupportedNode(c.node) && r.value.0 == m + RecordNode(c.node, p)
      && depth + DepthBelow(c, false) <= limits.maxDepth && r.value.1 == n + SizeBelow(c, false) <= limits.maxNodes
    ensures r.Err? ==> Cause(r.error, limits, SupportedNode(c.node), depth + DepthBelow(c, false), n + SizeBelow(c, false))
    decreases c, 0
  {
    match c.node
    case Dir(_, es) =>
      r := Walk(es, p, m[p := DirEntry], limits, n, depth + 1);
      MergeAssociates(m, map[p := DirEntry], Record(es, p));
      assert m[p := DirEntry] == m + map[p := DirEntry];
    case Regular(h) => r := Ok((m[p := RegularEntry(h)], n));
    case Symlink(h) => r := Ok((m[p := SymlinkEntry(h)], n));
    case _ => r := Err(RefusedNode);
  }

  lemma MergeAssociates(a: Manifest, b: Manifest, c: Manifest)
    ensures a + (b + c) == a + b + c
  {
  }

  /** The record lists exactly the nodes of the tree. */
  lemma {:induction false} RecordIsTree(es: seq<Child>, rel: Path, p: Path)
    requires Tree(es) && Under(rel, p)
    ensures p in Record(es, rel) <==> LookUp(es, p[|rel|..]).Some?
    ensures p in Record(es, rel) ==>
      match LookUp(es, p[|rel|..]).value
      case Regular(h) => Record(es, rel)[p] == RegularEntry(h)
      case Symlink(h) => Record(es, rel)[p] == SymlinkEntry(h)
      case _ => Record(es, rel)[p] == DirEntry
    decreases es
  {
    if es != [] {
      var c, rest := es[0], p[|rel|..];
      var sub := rel + [c.name];
      assert es == [c] + es[1..];
      assert Tree(es[1..]) by {
        assert forall x :: x in es[1..] ==> x in es;
      }
      RecordIsTree(es[1..], rel, p);
      if rest[0] == c.name {
        NotPicked(es[1..], c.name);
        assert p[..|sub|] == sub && p[|sub|..] == rest[1..];
        if p == sub {
          OwnRecord(c.node, sub);
        } else if c.node.Dir? {
          assert c in es;
          RecordIsTree(c.node.entries, sub, p);
        }
      } else {
        OtherRecord(c.node, sub, p);
      }
    }
  }

  lemma {:induction false} NotPicked(es: seq<Child>, n: Name)
    requires forall c :: c in es ==> c.name != n
    ensures Pick(es, n).None?
  {
    if es != [] {
      NotPicked(es[1..], n);
    }
  }

  lemma {:induction false} RecordBelow(es: seq<Child>, rel: Path, p: Path)
    requires p in Record(es, rel)
    ensures Under(rel, p)
    decreases es
  {
    var sub := rel + [es[0].name];
    if p in Record(es[1..], rel) {
      RecordBelow(es[1..], rel, p);
    } else if p != sub {
      RecordBelow(es[0].node.entries, sub, p);
      assert p[..|rel|] == p[..|sub|][..|rel|] == rel;
    } else {
      assert p[..|rel|] == rel;
    }
  }

  // ---------- what the lower walk measures ----------

  lemma {:induction false} TreeRest(es: seq<Child>)
    requires Tree(es) && es != []
    ensures Tree(es[1..]) && (forall c :: c in es[1..] ==> c.name != es[0].name) && (es[0].node.Dir? ==> Tree(es[0].node.entries))
  {
    assert forall x :: x in es[1..] ==> x in es;
    assert es[0] in es;
  }

  lemma {:induction false} PickIsIn(es: seq<Child>, n: Name)
    requires Pick(es, n).Some?
    ensures Child(n, Pick(es, n).value) in es
  {
    if es[0].name != n {
      PickIsIn(es[1..], n);
    } else {
      assert es[0] in es;
    }
  }

  lemma {:induction false} SupportedEach(es: seq<Child>, c: Child)
    requires Supported(es) && c in es
    ensures SupportedNode(c.node)
  {
    if c != es[0] {
      SupportedEach(es[1..], c);
    }
  }

  /** A file that is neither a directory nor regular nor a symbolic link. */
  predicate Odd(n: Node) {
    n.Special? || n.Whiteout?
  }

  lemma {:induction false} NothingOdd(es: seq<Child>, rest: Path)
    requires Supported(es) && LookUp(es, rest).Some?
    ensures !Odd(LookUp(es, rest).value)
    decreases |rest|
  {
    PickIsIn(es, rest[0]);
    var n := Pick(es, rest[0]).value;
    SupportedEach(es, Child(rest[0], n));
    if |rest| > 1 {
      NothingOdd(n.entries, rest[1..]);
    }
  }

  lemma {:induction false} FindOdd(es: seq<Child>) returns (rest: Path)
    requires Tree(es) && !Supported(es)
    ensures LookUp(es, rest).Some? && Odd(LookUp(es, rest).value)
    decreases es
  {
    TreeRest(es);
    var c := es[0];
    if SupportedNode(c.node) {
      rest := FindOdd(es[1..]);
      NotPicked(es[1..], c.name);
    } else if c.node.Dir? {
      rest := FindOdd(c.node.entries);
      rest := [c.name] + rest;
    } else {
      rest := [c.name];
    }
  }

  /** The lower walk refuses a tree exactly if an odd file lies in it. */
  lemma SupportedMeans(es: seq<Child>)
    requires Tree(es)
    ensures Supported(es) <==> forall p :: LookUp(es, p).Some? ==> !Odd(LookUp(es, p).value)
  {
    if Supported(es) {
      forall p | LookUp(es, p).Some? ensures !Odd(LookUp(es, p).value) {
        NothingOdd(es, p);
      }
    } else {
      var p := FindOdd(es);
    }
  }

  lemma DisjointSize(a: Manifest, b: Manifest)
    requires a.Keys !! b.Keys
    ensures |a + b| == |a| + |b|
  {
    assert (a + b).Keys == a.Keys + b.Keys;
    assert |(a + b).Keys| == |a.Keys| + |b.Keys|;
  }

  lemma {:induction false} RecordsApart(es: seq<Child>, rel: Path, p: Path)
    requires Tree(es) && es != [] && p in RecordNode(es[0].node, rel + [es[0].name])
    ensures p !in Record(es[1..], rel)
  {
    var sub := rel + [es[0].name];
    TreeRest(es);
    if p != sub {
      RecordBelow(es[0].node.entries, sub, p);
    }
    assert p[|rel|] == es[0].name;
    if p in Record(es[1..], rel) {
      RecordBelow(es[1..], rel, p);
      RecordIsTree(es[1..], rel, p);
      NotPicked(es[1..], es[0].name);
    }
  }

  /** The lower walk counts exactly the entries it records. */
  lemma {:induction false} SizeIsRecord(es: seq<Child>, rel: Path)
    requires Tree(es)
    ensures |Record(es, rel)| == Size(es, false)
    decreases es
  {
    if es != [] {
      var c, sub := es[0], rel + [es[0].name];
      TreeRest(es);
      SizeIsRecord(es[1..], rel);
      forall p | p in RecordNode(c.node, sub) ensures p !in Record(es[1..], rel) {
        RecordsApart(es, rel, p);
      }
      DisjointSize(RecordNode(c.node, sub), Record(es[1..], rel));
      if c.node.Dir? {
        SizeIsRecord(c.node.entries, sub);
        if sub in Record(c.node.entries, sub) {
          RecordBelow(c.node.entries, sub, sub);
        }
        DisjointSize(map[sub := DirEntry], Record(c.node.entries, sub));
      }
    }
  }

  /** A directory that the walk enters lies at p. */
  ghost predicate Enters(es: seq<Child>, p: Path, upper: bool)
    decreases |p|
  {
    p != [] && exists c ::
      && c in es && c.name == p[0] && c.node.Dir? && !(upper && c.name == OPAQUE)
      && (|p| == 1 || Enters(c.node.entries, p[1..], upper))
  }

  lemma {:induction false} DepthEach(es: seq<Child>, c: Child, upper: bool)
    requires c in es
    ensures DepthBelow(c, upper) <= Depth(es, upper)
  {
    if c != es[0] {
      DepthEach(es[1..], c, upper);
    }
  }

  lemma {:induction false} NoDeeper(es: seq<Child>, p: Path, upper: bool)
    requires Enters(es, p, upper)
    ensures |p| <= Depth(es, upper)
    decreases |p|
  {
    var c :| c in es && c.name == p[0] && c.node.Dir? && !(upper && c.name == OPAQUE)
      && (|p| == 1 || Enters(c.node.entries, p[1..], upper));
    DepthEach(es, c, upper);
    if |p| > 1 {
      NoDeeper(c.node.entries, p[1..], upper);
    }
  }

  lemma {:induction false} AsDeep(es: seq<Child>, upper: bool) returns (p: Path)
    requires Depth(es, upper) > 0
    ensures |p| == Depth(es, upper) && Enters(es, p, upper)
    decreases es
  {
    var c := es[0];
    if DepthBelow(c, upper) < Depth(es[1..], upper) {
      p := AsDeep(es[1..], upper);
      assert forall x :: x in es[1..] ==> x in es;
    } else if Depth(c.node.entries, upper) == 0 {
      p := [c.name];
      assert c in es;
    } else {
      var q := AsDeep(c.node.entries, upper);
      p := [c.name] + q;
      assert c in es && p[1..] == q;
    }
  }

  /** The depth of a tree is the longest path of a directory that the walk enters. */
  lemma DepthMeans(es: seq<Child>, upper: bool, k: nat)
    ensures Depth(es, upper) <= k <==> forall p :: Enters(es, p, upper) ==> |p| <= k
  {
    if Depth(es, upper) <= k {
      forall p | Enters(es, p, upper) ensures |p| <= k {
        NoDeeper(es, p, upper);
      }
    } else {
      var p := AsDeep(es, upper);
    }
  }

  lemma OwnRecord(n: Node, p: Path)
    ensures p in RecordNode(n, p) && RecordNode(n, p)[p] == EntryOf(n)
  {
    if n.Dir? && p in Record(n.entries, p) {
      RecordBelow(n.entries, p, p);
    }
  }

  lemma OtherRecord(n: Node, sub: Path, p: Path)
    requires sub != [] && Under(sub[..|sub| - 1], p) && p[|sub| - 1] != sub[|sub| - 1]
    ensures p !in RecordNode(n, sub)
  {
    if n.Dir? && p in Record(n.entries, sub) {
      RecordBelow(n.entries, sub, p);
      assert false;
    }
  }

  lemma {:induction false} ParentsAreDirs(es: seq<Child>, rest: Path, i: nat)
    requires LookUp(es, rest).Some? && 0 < i < |rest|
    ensures LookUp(es, rest[..i]).Some? && LookUp(es, rest[..i]).value.Dir?
    decreases i
  {
    var n := Pick(es, rest[0]).value;
    if 1 < i {
      ParentsAreDirs(n.entries, rest[1..], i - 1);
      assert rest[1..][..i - 1] == rest[..i][1..];
    }
  }

  /** The baseline of a tree is well formed. */
  lemma BaselineWellFormed(es: seq<Child>)
    requires Tree(es)
    ensures WellFormed(Record(es, []))
  {
    var b := Record(es, []);
    if [] in b {
      RecordBelow(es, [], []);
      assert false;
    }
    forall p, i | p in b && 0 < i < |p| ensures p[..i] in b && b[p[..i]] == DirEntry {
      assert p[0..] == p && p[..i][0..] == p[..i];
      assert p[..0] == [] && p[..i][..0] == [];
      RecordIsTree(es, [], p);
      ParentsAreDirs(es, p, i);
      RecordIsTree(es, [], p[..i]);
    }
  }

  method ManifestsEqual(a: Manifest, b: Manifest) returns (same: bool)
    ensures same <==> a == b
  {
    if |a| != |b| {
      return false;
    }
    var todo := a.Keys;
    while todo != {}
      invariant todo <= a.Keys
      invariant forall p :: p in a && p !in todo ==> p in b && b[p] == a[p]
      decreases |todo|
    {
      var p :| p in todo;
      if p !in b || b[p] != a[p] {
        return false;
      }
      todo := todo - {p};
    }
    SameSize(a.Keys, b.Keys);
    return true;
  }

  lemma SameSize(a: set<Path>, b: set<Path>)
    requires a <= b && |a| == |b|
    ensures a == b
  {
    assert |b - a| == |b| - |a|;
  }

  // ---------- the upper layer ----------

  /** Each path is recorded once, and what is recorded beyond the scan is a deletion. */
  ghost predicate Recorded(b: Manifest, seen: set<Path>, emitted: set<Path>, cs: seq<Change>) {
    && (forall i, j :: 0 <= i < j < |cs| ==> cs[i].path != cs[j].path)
    && (forall c :: c in cs ==> c.path in emitted)
    && (forall p :: p in emitted && p !in seen ==> LowerLeaf(b, p).Some? && Change(p, LowerLeaf(b, p).value, Deleted) in cs)
  }

  ghost predicate Expanded(b: Manifest, seen: set<Path>, dirs: seq<Path>, start: seq<Change>, cs: seq<Change>) {
    forall c :: c in cs <==> c in start || Expands(b, seen, dirs, c)
  }

  /** As Expanded, but of dir only the paths no longer in todo. */
  ghost predicate Partly(b: Manifest, seen: set<Path>, done: seq<Path>, dir: Path, todo: set<Path>, start: seq<Change>, cs: seq<Change>) {
    forall c :: c in cs <==> c in start || Expands(b, seen, done, c) || (c.path !in todo && Expands(b, seen, [dir], c))
  }

  lemma RecordedAdd(b: Manifest, a: Acc, p: Path)
    requires LowerLeaf(b, p).Some? && p !in a.seen && Recorded(b, a.seen, a.emitted, a.changes)
    ensures
      var c := Change(p, LowerLeaf(b, p).value, Deleted);
      var a' := Add(a, c);
      && Recorded(b, a'.seen, a'.emitted, a'.changes)
      && forall x :: x in a'.changes <==> x in a.changes || x == c
  {
  }

  lemma PartlyStep(b: Manifest, seen: set<Path>, done: seq<Path>, dir: Path, todo: set<Path>, start: seq<Change>,
                   cs: seq<Change>, cs': seq<Change>, p: Path)
    requires p in b && Partly(b, seen, done, dir, todo, start, cs)
    requires forall c :: c in cs' <==>
      c in cs || (Under(dir, p) && p !in seen && b[p].Leaf() && c == Change(p, b[p].hash, Deleted))
    ensures Partly(b, seen, done, dir, todo - {p}, start, cs')
  {
    forall c: Change ensures c.path == p ==>
      (Expands(b, seen, [dir], c) <==> Under(dir, p) && p !in seen && b[p].Leaf() && c == Change(p, b[p].hash, Deleted)) {
      assert dir in [dir];
    }
  }

  lemma PartlyExpands(b: Manifest, seen: set<Path>, done: seq<Path>, dir: Path, todo: set<Path>, start: seq<Change>,
                      cs: seq<Change>, dirs: seq<Path>, p: Path)
    requires Partly(b, seen, done, dir, todo, start, cs) && done + [dir] <= dirs
    requires p in b && Under(dir, p) && p !in seen && b[p].Leaf()
    ensures forall c :: c in cs ==> c in start || Expands(b, seen, dirs, c)
    ensures Expands(b, seen, dirs, Change(p, b[p].hash, Deleted))
  {
    assert forall q :: q in done || q == dir ==> q in dirs by {
      assert forall q :: q in done + [dir] ==> q in dirs;
      assert forall q :: q in done || q == dir ==> q in done + [dir];
    }
  }

  lemma PartlyDone(b: Manifest, seen: set<Path>, done: seq<Path>, dir: Path, start: seq<Change>, cs: seq<Change>)
    requires Partly(b, seen, done, dir, {}, start, cs)
    ensures Expanded(b, seen, done + [dir], start, cs)
  {
    forall c ensures Expands(b, seen, done + [dir], c) <==> Expands(b, seen, done, c) || Expands(b, seen, [dir], c) {
      assert forall q :: q in done + [dir] <==> q in done || q == dir;
      assert dir in [dir];
    }
  }

  class UpperScan {
    const baseline: Manifest
    const limits: Limits
    var nodes: nat
    var seen: set<Path>
    var emitted: set<Path>
    var hidden: seq<Path>
    var changes: seq<Change>

    constructor (baseline: Manifest, limits: Limits)
      ensures this.baseline == baseline && this.limits == limits && Found() == NOTHING && nodes == 0
    {
      this.baseline, this.limits := baseline, limits;
      nodes, seen, emitted, hidden, changes := 0, {}, {}, [], [];
    }

    function Found(): Acc
      reads this
    {
      Acc(seen, emitted, hidden, changes)
    }

    method AddChange(c: Change) returns (err: Option<Error>)
      modifies this`emitted, this`changes
      requires |changes| <= limits.maxChanges
      ensures err.None? ==> Found() == Add(old(Found()), c) && |changes| <= limits.maxChanges
      ensures err.Some? ==>
        err.value == ChangeLimit && Found() == old(Found()) && |Add(Found(), c).changes| > limits.maxChanges && c.path !in emitted
    {
      if c.path in emitted {
        return None;
      }
      if |changes| >= limits.maxChanges {
        return Some(ChangeLimit);
      }
      emitted := emitted + {c.path};
      changes := changes + [c];
      return None;
    }

    /** Scan one directory: the functional scan, stopped early only by a limit or
        by a node that the functional scan refuses too. */
    method WalkUpper(es: seq<Child>, opaqueAttr: bool, rel: Path, depth: nat) returns (err: Option<Error>)
      modifies this
      requires nodes <= limits.maxNodes && |changes| <= limits.maxChanges
      ensures
        var start := if rel != [] && opaqueAttr then Hide(old(Found()), rel) else old(Found());
        Outcome(err, WalkList(baseline, es, rel, start), depth + Depth(es, true), old(nodes) + Size(es, true))
      decreases es, 1
    {
      if depth > limits.maxDepth {
        return Some(DepthLimit);
      }
      if rel != [] && opaqueAttr {
        hidden := hidden + [rel];
      }
      ghost var whole := WalkList(baseline, es, rel, Found());
      for i := 0 to |es|
        invariant whole == WalkList(baseline, es[i..], rel, Found())
        invariant nodes + Size(es[i..], true) == old(nodes) + Size(es, true) && nodes <= limits.maxNodes
        invariant |changes| <= limits.maxChanges && Depth(es[i..], true) <= Depth(es, true)
        invariant depth + Depth(es, true) > limits.maxDepth ==> depth + Depth(es[i..], true) > limits.maxDepth
      {
        assert es[i..][0] == es[i] && es[i..][1..] == es[i + 1..];
        if nodes >= limits.maxNodes {
          return Some(NodeLimit);
        }
        nodes := nodes + 1;
        ghost var child := WalkChild(baseline, es[i], rel, Found());
        err := Visit(es[i], rel, depth);
        if err.Some? {
          if whole.Some? {
            WalkListGrows(baseline, es[i + 1..], rel, child.value);
          }
          return;
        }
      }
      return None;
    }

    /** Success is the functional scan's result within the limits; an error names what
        stands against that. */
    ghost predicate Outcome(err: Option<Error>, whole: Option<Acc>, depth: nat, count: nat)
      reads this
    {
      match err
      case None =>
        && whole == Some(Found()) && depth <= limits.maxDepth && nodes == count <= limits.maxNodes
        && |changes| <= limits.maxChanges
      case Some(DepthLimit) => depth > limits.maxDepth
      case Some(NodeLimit) => count > limits.maxNodes
      case Some(ChangeLimit) => whole.Some? ==> |whole.value.changes| > limits.maxChanges
      case Some(e) => e.RefusedNode? && whole.None?
    }

    method Visit(c: Child, rel: Path, depth: nat) returns (err: Option<Error>)
      modifies this
      requires nodes <= limits.maxNodes && |changes| <= limits.maxChanges && depth <= limits.maxDepth
      ensures Outcome(err, WalkChild(baseline, c, rel, old(Found())), depth + DepthBelow(c, true), old(nodes) + SizeBelow(c, true))
      decreases c, 0
    {
      if c.name == OPAQUE {
        if rel == [] {
          return Some(RefusedNode);
        }
        hidden := hidden + [rel];
        return None;
      }
      var p := rel + [c.name];
      seen := seen + {p};
      match c.node
      case Whiteout =>
        if p !in baseline {
          return Some(RefusedNode);
        }
        if baseline[p].DirEntry? {
          hidden := hidden + [p];
          return None;
        }
        err := AddChange(Change(p, baseline[p].hash, Deleted));
      case Dir(attr, es) =>
        err := VisitDir(attr, es, p, depth);
      case Special =>
        return Some(RefusedNode);
      case _ =>
        err := VisitLeaf(c.node, p);
    }

    /** A file or a link: it replaces one of its kind, or a directory, or nothing. */
    method VisitLeaf(n: Node, p: Path) returns (err: Option<Error>)
      requires (n.Regular? || n.Symlink?) && nodes <= limits.maxNodes && |changes| <= limits.maxChanges
      modifies this
      ensures
        var s := old(Found());
        var s1 := if p in baseline && baseline[p].DirEntry? then Hide(s, p) else s;
        var end := Add(s1, Change(p, n.hash, if p in baseline && SameKind(baseline[p], n) then Modified else Added));
        Outcome(err, if p in baseline && baseline[p].Leaf() && !SameKind(baseline[p], n) then None else Some(end), 0, old(nodes))
    {
      if p in baseline && !SameKind(baseline[p], n) {
        if !baseline[p].DirEntry? {
          return Some(RefusedNode);
        }
        hidden := hidden + [p];
      }
      err := AddChange(Change(p, n.hash, if p in baseline && SameKind(baseline[p], n) then Modified else Added));
    }

    /** A directory: it replaces a leaf of the baseline or merges, and is walked. */
    method VisitDir(attr: bool, es: seq<Child>, p: Path, depth: nat) returns (err: Option<Error>)
      requires nodes <= limits.maxNodes && |changes| <= limits.maxChanges && depth <= limits.maxDepth && p != []
      modifies this
      ensures
        var s := old(Found());
        var s1 := if p in baseline && baseline[p].Leaf() then Add(s, Change(p, baseline[p].hash, Deleted)) else s;
        Outcome(err, WalkList(baseline, es, p, if attr then Hide(s1, p) else s1), depth + 1 + Depth(es, true), old(nodes) + Size(es, true))
      decreases es, 2
    {
      hide WalkList, Size, Depth;
      if p in baseline && !baseline[p].DirEntry? {
        ghost var c := Change(p, baseline[p].hash, Deleted);
        err := AddChange(Change(p, baseline[p].hash, Deleted));
        if err.Some? {
          ghost var added := Add(Found(), c);
          ghost var entered := if attr then Hide(added, p) else added;
          if WalkList(baseline, es, p, entered).Some? {
            WalkListGrows(baseline, es, p, entered);
          }
          return;
        }
      }
      err := WalkUpper(es, attr, p, depth + 1);
    }

    /** Record the baseline leaves below every hidden directory, visiting the
        baseline in whatever order the map yields. */
    method ExpandOpaque() returns (err: Option<Error>)
      requires Consistent(Found()) && |changes| <= limits.maxChanges
      modifies this`emitted, this`changes
      ensures err.Some? ==> err.value == ChangeLimit && Overfull(old(changes))
      ensures err.None? ==>
        && Expanded(baseline, seen, hidden, old(changes), changes) && Recorded(baseline, seen, emitted, changes)
        && |changes| <= limits.maxChanges
    {
      for i := 0 to |hidden|
        invariant seen == old(seen) && hidden == old(hidden) && |changes| <= limits.maxChanges
        invariant Recorded(baseline, seen, emitted, changes)
        invariant Expanded(baseline, seen, hidden[..i], old(changes), changes)
      {
        assert hidden[..i] + [hidden[i]] == hidden[..i + 1];
        err := ExpandBelow(hidden[..i], hidden[i], old(changes));
        if err.Some? {
          return;
        }
        assert hidden[..i + 1] == hidden[..i] + [hidden[i]];
      }
      assert hidden[..|hidden|] == hidden;
      return None;
    }

    /** Full, all of it due, and one more to come. */
    ghost predicate Overfull(start: seq<Change>)
      reads this
    {
      && |changes| >= limits.maxChanges && Recorded(baseline, seen, emitted, changes)
      && (forall c :: c in changes ==> c in start || Expands(baseline, seen, hidden, c))
      && exists c :: Expands(baseline, seen, hidden, c) && c.path !in emitted
    }

    method ExpandBelow(ghost done: seq<Path>, dir: Path, ghost start: seq<Change>) returns (err: Option<Error>)
      requires Recorded(baseline, seen, emitted, changes)
      requires Expanded(baseline, seen, done, start, changes) && done + [dir] <= hidden && |changes| <= limits.maxChanges
      modifies this`emitted, this`changes
      ensures err.Some? ==> err.value == ChangeLimit && Overfull(start)
      ensures err.None? ==>
        && Recorded(baseline, seen, emitted, changes) && Expanded(baseline, seen, done + [dir], start, changes)
        && |changes| <= limits.maxChanges
    {
      var todo := baseline.Keys;
      while todo != {}
        invariant todo <= baseline.Keys && |changes| <= limits.maxChanges
        invariant Recorded(baseline, seen, emitted, changes)
        invariant Partly(baseline, seen, done, dir, todo, start, changes)
        decreases todo
      {
        hide Recorded, Partly;
        var p :| p in todo;
        ghost var before := changes;
        if Under(dir, p) && p !in seen && !baseline[p].DirEntry? {
          RecordedAdd(baseline, Found(), p);
          err := AddChange(Change(p, baseline[p].hash, Deleted));
          if err.Some? {
            PartlyExpands(baseline, seen, done, dir, todo, start, changes, hidden, p);
            return;
          }
        }
        PartlyStep(baseline, seen, done, dir, todo, start, before, changes, p);
        todo := todo - {p};
      }
      PartlyDone(baseline, seen, done, dir, start, changes);
      return None;
    }
  }

  // ---------- the diff ----------

  /** The upper layer is one the overlay supports, and it and its changes are within
      the limits. */
  ghost predicate UpperPasses(b: Manifest, upper: seq<Child>, limits: Limits) {
    && Supports(b, upper)
    && Depth(upper, true) <= limits.maxDepth && Size(upper, true) <= limits.maxNodes
    && Room(b, upper, limits.maxChanges)
  }

  ghost predicate Passes(b: Manifest, lower: seq<Child>, upper: seq<Child>, limits: Limits) {
    && b == Record(lower, []) && Supported(lower)
    && Depth(lower, false) <= limits.maxDepth && Size(lower, false) <= limits.maxNodes
    && UpperPasses(b, upper, limits)
  }

  /** What a change says: deleted, a leaf that was there is not visible any more;
      modified, there was one and what is visible now is written above; added, there
      was none. */
  predicate Tells(b: Manifest, upper: seq<Child>, c: Change) {
    var was, now := LowerLeaf(b, c.path), Visible(b, upper, c.path);
    match c.kind
    case Deleted => was == Some(c.hash) && now.None?
    case Modified => was.Some? && now == Some(c.hash)
    case Added => was.None? && now == Some(c.hash)
  }

  /** The collector's answer, and exactly when there is one. Whatever order the maps were visited in, success
      means: the lower layer is what the baseline recorded, and the list holds
      exactly the changes due, each path once, sorted by path. */
  method Diff(baseline: Manifest, lower: seq<Child>, upper: seq<Child>, limits: Limits) returns (r: Result<seq<Change>>)
    requires Tree(lower) && Tree(upper)
    ensures r.Ok? ==>
      && baseline == Record(lower, [])
      && Exact(baseline, upper, r.value)
      && Sorted(ByPath, r.value)
      && (forall p :: Get(Apply(Leaves(baseline), r.value), p) == Visible(baseline, upper, p))
      && forall c :: c in r.value ==> Tells(baseline, upper, c)
    ensures r.Err? ==>
      match r.error
      case LowerChanged => baseline != Record(lower, [])
      case RefusedNode => !Supported(lower) || !Supports(baseline, upper)
      case DepthLimit => Depth(lower, false) > limits.maxDepth || Depth(upper, true) > limits.maxDepth
      case NodeLimit => Size(lower, false) > limits.maxNodes || Size(upper, true) > limits.maxNodes
      case ChangeLimit => !Supports(baseline, upper) || !Room(baseline, upper, limits.maxChanges)
    ensures r.Ok? <==> Passes(baseline, lower, upper, limits)
  {
    hide UpperPasses, Supports, Tells, Visible, Apply, ChangeAt;
    var again := Walk(lower, [], map[], limits, 0, 0);
    if again.Err? {
      return Err(again.error);
    }
    assert map[] + Record(lower, []) == Record(lower, []);
    var same := ManifestsEqual(baseline, again.value.0);
    if !same {
      return Err(LowerChanged);
    }
    BaselineWellFormed(lower);
    var cs := ScanUpper(baseline, upper, limits);
    if cs.Err? {
      return cs;
    }
    ByPathOrder(cs.value);
    SortSorts(ByPath, cs.value);
    SortKeepsExact(baseline, upper, cs.value);
    r := Ok(Sort(ByPath, cs.value));
    ExactTells(baseline, upper, r.value);
  }

  lemma ExactTells(b: Manifest, upper: seq<Child>, cs: seq<Change>)
    requires Exact(b, upper, cs)
    ensures forall p :: Get(Apply(Leaves(b), cs), p) == Visible(b, upper, p)
    ensures forall c :: c in cs ==> Tells(b, upper, c)
  {
    forall p ensures Get(Apply(Leaves(b), cs), p) == Visible(b, upper, p) {
      AppliedIsVisible(b, upper, cs, p);
    }
    hide Visible, Apply;
    forall c | c in cs ensures Tells(b, upper, c) {
      assert ChangeAt(b, upper, c.path) == Some(c);
    }
  }

  method ScanUpper(baseline: Manifest, upper: seq<Child>, limits: Limits) returns (r: Result<seq<Change>>)
    requires WellFormed(baseline) && Tree(upper)
    ensures r.Ok? ==> Exact(baseline, upper, r.value)
    ensures r.Ok? <==> UpperPasses(baseline, upper, limits)
    ensures r.Err? ==>
      match r.error
      case RefusedNode => !Supports(baseline, upper)
      case DepthLimit => Depth(upper, true) > limits.maxDepth
      case NodeLimit => Size(upper, true) > limits.maxNodes
      case ChangeLimit => !Supports(baseline, upper) || !Room(baseline, upper, limits.maxChanges)
      case LowerChanged => false
  {
    hide WalkList, Size, Depth, Room, Supports;
    ScanSupports(baseline, upper);
    var scan := new UpperScan(baseline, limits);
    var err := scan.WalkUpper(upper, false, [], 0);
    if err.Some? {
      ghost var whole := WalkList(baseline, upper, [], NOTHING);
      if err.value.ChangeLimit? && whole.Some? {
        TooMany(baseline, upper, whole.value, limits.maxChanges);
      }
      return Err(err.value);
    }
    ghost var found := scan.Found();
    WalkListScans(baseline, upper, [], NOTHING, found);
    err := scan.ExpandOpaque();
    if err.Some? {
      OneTooMany(baseline, upper, found, scan.emitted, scan.changes, limits.maxChanges);
      return Err(err.value);
    }
    ScanIsExact(baseline, upper, found, scan.changes);
    HasRoom(baseline, upper, scan.changes, limits.maxChanges);
    r := Ok(scan.changes);
  }

  lemma HasRoom(b: Manifest, upper: seq<Child>, cs: seq<Change>, n: nat)
    requires Exact(b, upper, cs) && |cs| <= n
    ensures Room(b, upper, n)
  {
    hide Exact;
  }

  lemma TooMany(b: Manifest, upper: seq<Child>, a: Acc, n: nat)
    requires WellFormed(b) && Tree(upper) && WalkList(b, upper, [], NOTHING) == Some(a) && |a.changes| > n
    ensures !Room(b, upper, n)
  {
    hide WalkList, Expands, ChangeAt;
    WalkListScans(b, upper, [], NOTHING, a);
    forall c | c in a.changes ensures ChangeAt(b, upper, c.path) == Some(c) {
      FoundIsDue(b, upper, a, c);
    }
    NoRoom(b, upper, n, a.changes);
  }

  lemma OneTooMany(b: Manifest, upper: seq<Child>, a: Acc, emitted: set<Path>, cs: seq<Change>, n: nat)
    requires WellFormed(b) && Tree(upper) && WalkList(b, upper, [], NOTHING) == Some(a)
    requires |cs| >= n && Recorded(b, a.seen, emitted, cs)
    requires forall c :: c in cs ==> c in a.changes || Expands(b, a.seen, a.opaqueDirs, c)
    requires exists c :: Expands(b, a.seen, a.opaqueDirs, c) && c.path !in emitted
    ensures !Room(b, upper, n)
  {
    hide WalkList, Expands, ChangeAt;
    var c :| Expands(b, a.seen, a.opaqueDirs, c) && c.path !in emitted;
    var all := cs + [c];
    forall x | x in all ensures ChangeAt(b, upper, x.path) == Some(x) {
      FoundIsDue(b, upper, a, x);
    }
    NoRoom(b, upper, n, all);
  }

  lemma SortKeepsExact(b: Manifest, upper: seq<Child>, cs: seq<Change>)
    requires Exact(b, upper, cs) && TotalPreorder(ByPath)
    ensures Exact(b, upper, Sort(ByPath, cs))
  {
    var s := Sort(ByPath, cs);
    SortSorts(ByPath, cs);
    SameElements(cs, s);
    forall i, j | 0 <= i < j < |s| ensures s[i].path != s[j].path {
      if s[i].path == s[j].path {
        assert s[i] in cs && s[j] in cs;
        assert s[i] == s[j];
        OccursOnce(cs, s[i]);
        TwiceCounts(s, i, j);
        assert false;
      }
    }
  }

  /** The answer is determined by the baseline and the upper layer alone. */
  lemma DiffIsDetermined(b: Manifest, upper: seq<Child>, xs: seq<Change>, ys: seq<Change>)
    requires Exact(b, upper, xs) && Exact(b, upper, ys) && Sorted(ByPath, xs) && Sorted(ByPath, ys)
    ensures xs == ys
  {
    ByPathOrder(xs);
    DistinctSame(xs, ys);
    SortedUnique(ByPath, xs, ys);
  }
}
