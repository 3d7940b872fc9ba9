/**
  The scan of the upper layer as a function: which paths it has seen, which
  directories it found hidden and which changes it recorded.
*/
module UpperWalk {
  import opened Wrappers
  import opened Overlay

  datatype ChangeType = Added | Modified | Deleted

  datatype Change = Change(path: Path, hash: Hash, kind: ChangeType)

  datatype Acc = Acc(seen: set<Path>, emitted: set<Path>, opaqueDirs: seq<Path>, changes: seq<Change>)

  const NOTHING := Acc({}, {}, [], [])

  function Hide(a: Acc, p: Path): Acc {
    a.(opaqueDirs := a.opaqueDirs + [p])
  }

  /** A path is recorded once. */
  function Add(a: Acc, c: Change): Acc {
    if c.path in a.emitted then a
    else a.(emitted := a.emitted + {c.path}, changes := a.changes + [c])
  }

  predicate SameKind(e: Entry, n: Node) {
    (e.RegularEntry? && n.Regular?) || (e.SymlinkEntry? && n.Symlink?)
  }

  function WalkList(b: Manifest, es: seq<Child>, rel: Path, a: Acc): Option<Acc>
    decreases es, 1
  {
    if es == [] then Some(a)
    else match WalkChild(b, es[0], rel, a)
      case None => None
      case Some(a') => WalkList(b, es[1..], rel, a')
  }

  function WalkChild(b: Manifest, c: Child, rel: Path, a: Acc): Option<Acc>
    decreases c, 0
  {
    if c.name == OPAQUE then
      if rel == [] then None else Some(Hide(a, rel))
    else
      var p := rel + [c.name];
      var s := a.(seen := a.seen + {p});
      match c.node
      case Whiteout =>
        if p !in b then None
        else if b[p].DirEntry? then Some(Hide(s, p))
        else Some(Add(s, Change(p, b[p].hash, Deleted)))
      case Dir(attr, ces) =>
        var s1 := if p in b && b[p].Leaf() then Add(s, Change(p, b[p].hash, Deleted)) else s;
        WalkList(b, ces, p, if attr then Hide(s1, p) else s1)
      case Special => None
      case _ =>
        if p in b && b[p].Leaf() && !SameKind(b[p], c.node) then None
        else
          var s1 := if p in b && b[p].DirEntry? then Hide(s, p) else s;
          Some(Add(s1, Change(p, c.node.hash, if p in b && SameKind(b[p], c.node) then Modified else Added)))
  }

  /** Changes are only added. */
  lemma {:induction false} WalkListGrows(b: Manifest, es: seq<Child>, rel: Path, a: Acc)
    requires WalkList(b, es, rel, a).Some?
    ensures |a.changes| <= |WalkList(b, es, rel, a).value.changes|
    decreases es, 1
  {
    if es != [] {
      WalkChildGrows(b, es[0], rel, a);
      WalkListGrows(b, es[1..], rel, WalkChild(b, es[0], rel, a).value);
    }
  }

  lemma {:induction false} WalkChildGrows(b: Manifest, c: Child, rel: Path, a: Acc)
    requires WalkChild(b, c, rel, a).Some?
    ensures |a.changes| <= |WalkChild(b, c, rel, a).value.changes|
    decreases c, 0
  {
    if c.name != OPAQUE && c.node.Dir? {
      WalkListGrows(b, c.node.entries, rel + [c.name], Entered(b, c.node, rel + [c.name], a));
    }
  }

  /** What a directory at p adds before its entries are scanned. */
  function Entered(b: Manifest, n: Node, p: Path, a: Acc): Acc
    requires n.Dir?
  {
    var s := a.(seen := a.seen + {p});
    var s1 := if p in b && b[p].Leaf() then Add(s, Change(p, b[p].hash, Deleted)) else s;
    if n.opaqueAttr then Hide(s1, p) else s1
  }

  // ---------- what the scan finds ----------

  predicate Under(rel: Path, p: Path) {
    |rel| < |p| && p[..|rel|] == rel
  }

  /** The upper node at p, es being listed at rel. */
  function NodeAt(es: seq<Child>, rel: Path, p: Path): Option<Node> {
    if Under(rel, p) then At(es, p[|rel|..]) else None
  }

  /** The node at p when n stands at base. */
  function Within(n: Node, base: Path, p: Path): Option<Node> {
    if p == base then Some(n) else if n.Dir? then NodeAt(n.entries, base, p) else None
  }

  /** The change a node calls for at its own path. */
  function NodeChange(b: Manifest, n: Node, p: Path): Option<Change> {
    match n
    case Regular(h) => Some(Change(p, h, if p in b && SameKind(b[p], n) then Modified else Added))
    case Symlink(h) => Some(Change(p, h, if p in b && SameKind(b[p], n) then Modified else Added))
    case Special => None
    case _ => if p in b && b[p].Leaf() then Some(Change(p, b[p].hash, Deleted)) else None
  }

  /** A node the scan refuses. */
  predicate Refused(b: Manifest, n: Node, p: Path) {
    match n
    case Whiteout => p !in b
    case Dir(_, _) => false
    case Special => true
    case _ => p in b && b[p].Leaf() && !SameKind(b[p], n)
  }

  lemma FirstOrRest(es: seq<Child>, rel: Path, p: Path)
    requires es != []
    ensures NodeAt(es, rel, p)
         == if Under(rel, p) && p[|rel|] == es[0].name && es[0].name != OPAQUE then Within(es[0].node, rel + [es[0].name], p)
            else NodeAt(es[1..], rel, p)
  {
    if Under(rel, p) {
      var rest := p[|rel|..];
      if rest[0] == es[0].name && es[0].name != OPAQUE {
        var base := rel + [es[0].name];
        assert p[..|base|] == base;
        assert |rest| == 1 ==> p == base;
        assert p[|base|..] == rest[1..];
      } else {
        assert Find(es, rest[0]) == Find(es[1..], rest[0]);
      }
    }
  }

  /** From a to a2, the scan met the nodes that at tells, and nothing else. */
  ghost predicate Scanned(b: Manifest, at: Path -> Option<Node>, own: set<Path>, a: Acc, a2: Acc) {
    && (forall p :: p in a2.seen <==> p in a.seen || at(p).Some?)
    && (forall q :: q in a2.opaqueDirs <==> q in a.opaqueDirs || q in own || (at(q).Some? && Hides(b, at(q).value, q)))
    && (forall c :: c in a2.changes <==> c in a.changes || (at(c.path).Some? && NodeChange(b, at(c.path).value, c.path) == Some(c)))
    && (forall p :: at(p).Some? ==> !Refused(b, at(p).value, p))
  }

  /** The record of emitted paths is exact and lists each path once. */
  ghost predicate Consistent(a: Acc) {
    && (forall p :: p in a.emitted ==> p in a.seen)
    && (forall c :: c in a.changes ==> c.path in a.emitted)
    && (forall i, j :: 0 <= i < j < |a.changes| ==> a.changes[i].path != a.changes[j].path)
  }

  function Listed(es: seq<Child>, rel: Path): Path -> Option<Node> {
    p => NodeAt(es, rel, p)
  }

  function Standing(n: Node, base: Path): Path -> Option<Node> {
    p => Within(n, base, p)
  }

  ghost function Own(es: seq<Child>, rel: Path): set<Path> {
    if HasMarker(es) then {rel} else {}
  }

  ghost predicate Fresh(at: Path -> Option<Node>, a: Acc) {
    forall p :: at(p).Some? ==> p !in a.seen
  }

  /** Two scans in a row, of different nodes. */
  lemma ScannedTwice(b: Manifest, at: Path -> Option<Node>, at1: Path -> Option<Node>, at2: Path -> Option<Node>,
                     own: set<Path>, a: Acc, a1: Acc, a2: Acc)
    requires Scanned(b, at1, {}, a, a1) && Scanned(b, at2, own, a1, a2)
    requires forall p :: at(p) == if at1(p).Some? then at1(p) else at2(p)
    requires forall p :: at1(p).Some? ==> at2(p).None?
    ensures Scanned(b, at, own, a, a2)
  {
  }

  /** The nodes of a list are those of its first child and those of the rest. */
  lemma SplitNodes(es: seq<Child>, rel: Path, p: Path)
    requires es != [] && DistinctNames(es) && es[0].name != OPAQUE
    ensures
      var first, rest := Within(es[0].node, rel + [es[0].name], p), NodeAt(es[1..], rel, p);
      && NodeAt(es, rel, p) == (if first.Some? then first else rest)
      && (first.Some? ==> rest.None?)
  {
    FirstOrRest(es, rel, p);
    var base := rel + [es[0].name];
    if Under(rel, p) && p[|rel|] == es[0].name {
      NotListed(es[1..], es[0].name);
    } else if |base| <= |p| {
      assert p[..|rel|] == p[..|base|][..|rel|];
      assert base[..|rel|] == rel;
    }
  }

  lemma {:induction false} NotListed(es: seq<Child>, n: Name)
    requires forall c :: c in es ==> c.name != n
    ensures Find(es, n).None?
  {
    if es != [] {
      NotListed(es[1..], n);
    }
  }

  lemma {:induction false} WalkListScans(b: Manifest, es: seq<Child>, rel: Path, a: Acc, a2: Acc)
    requires Tree(es) && Consistent(a) && Fresh(Listed(es, rel), a)
    requires WalkList(b, es, rel, a) == Some(a2)
    ensures Scanned(b, Listed(es, rel), Own(es, rel), a, a2) && Consistent(a2)
    decreases es, 1
  {
    if es == [] {
      assert forall p :: NodeAt(es, rel, p).None?;
    } else {
      var c, rest := es[0], es[1..];
      var a1 := WalkChild(b, c, rel, a).value;
      assert es == [c] + rest;
      assert Tree(rest) by {
        assert forall x :: x in rest ==> x in es;
      }
      if c.name == OPAQUE {
        forall p ensures NodeAt(es, rel, p) == NodeAt(rest, rel, p) {
          FirstOrRest(es, rel, p);
        }
        assert Listed(rest, rel)([]) == NodeAt(rest, rel, []);
        WalkListScans(b, rest, rel, a1, a2);
        MarkerFirst(b, es, rel, a, a1, a2);
      } else {
        forall p ensures
          var first, others := Within(c.node, rel + [c.name], p), NodeAt(rest, rel, p);
          NodeAt(es, rel, p) == (if first.Some? then first else others) && (first.Some? ==> others.None?) {
          SplitNodes(es, rel, p);
        }
        WalkChildScans(b, c, rel, a, a1);
        WalkListScans(b, rest, rel, a1, a2);
        assert HasMarker(es) <==> HasMarker(rest);
        ScannedTwice(b, Listed(es, rel), Standing(c.node, rel + [c.name]), Listed(rest, rel), Own(es, rel), a, a1, a2);
      }
    }
  }

  lemma MarkerFirst(b: Manifest, es: seq<Child>, rel: Path, a: Acc, a1: Acc, a2: Acc)
    requires es != [] && es[0].name == OPAQUE && a1 == Hide(a, rel)
    requires forall p :: NodeAt(es, rel, p) == NodeAt(es[1..], rel, p)
    requires Scanned(b, Listed(es[1..], rel), Own(es[1..], rel), a1, a2)
    ensures Scanned(b, Listed(es, rel), Own(es, rel), a, a2)
  {
    assert HasMarker(es) by {
      assert es[0] in es;
    }
    var at, at1 := Listed(es, rel), Listed(es[1..], rel);
    forall p ensures at(p) == at1(p) {
    }
  }

  lemma {:induction false} WalkChildScans(b: Manifest, c: Child, rel: Path, a: Acc, a2: Acc)
    requires c.name != OPAQUE && Consistent(a) && (c.node.Dir? ==> Tree(c.node.entries))
    requires Fresh(Standing(c.node, rel + [c.name]), a)
    requires WalkChild(b, c, rel, a) == Some(a2)
    ensures Scanned(b, Standing(c.node, rel + [c.name]), {}, a, a2) && Consistent(a2)
    decreases c, 0
  {
    var p := rel + [c.name];
    var at := Standing(c.node, p);
    assert at(p) == Some(c.node);
    if c.node.Dir? {
      var s := a.(seen := a.seen + {p});
      var s1 := if p in b && b[p].Leaf() then Add(s, Change(p, b[p].hash, Deleted)) else s;
      var s2 := if c.node.opaqueAttr then Hide(s1, p) else s1;
      assert Consistent(s2);
      var es := c.node.entries;
      forall q | NodeAt(es, p, q).Some? ensures q !in s2.seen {
        assert at(q) == NodeAt(es, p, q);
      }
      WalkListScans(b, es, p, s2, a2);
      DirScans(b, c.node, p, a, s2, a2);
    } else {
      LeafScans(b, c, rel, a, a2);
    }
  }

  lemma LeafScans(b: Manifest, c: Child, rel: Path, a: Acc, a2: Acc)
    requires c.name != OPAQUE && !c.node.Dir? && Consistent(a) && rel + [c.name] !in a.seen
    requires WalkChild(b, c, rel, a) == Some(a2)
    ensures Scanned(b, Standing(c.node, rel + [c.name]), {}, a, a2) && Consistent(a2)
  {
    hide WalkChild, NodeChange, Hides, Refused;
    var p := rel + [c.name];
    var at := Standing(c.node, p);
    forall q ensures at(q) == if q == p then Some(c.node) else None {
    }
    LeafChange(b, c, rel, a, a2);
  }

  lemma LeafChange(b: Manifest, c: Child, rel: Path, a: Acc, a2: Acc)
    requires c.name != OPAQUE && !c.node.Dir? && rel + [c.name] !in a.emitted
    requires WalkChild(b, c, rel, a) == Some(a2)
    ensures
      var p := rel + [c.name];
      && !Refused(b, c.node, p)
      && a2.seen == a.seen + {p}
      && a2.opaqueDirs == a.opaqueDirs + (if Hides(b, c.node, p) then [p] else [])
      && match NodeChange(b, c.node, p)
         case None => a2.changes == a.changes && a2.emitted == a.emitted
         case Some(x) => a2.changes == a.changes + [x] && a2.emitted == a.emitted + {p} && x.path == p
  {
  }

  lemma DirScans(b: Manifest, n: Node, p: Path, a: Acc, s: Acc, a2: Acc)
    requires n.Dir? && p !in a.emitted
    requires
      var added := if p in b && b[p].Leaf() then [Change(p, b[p].hash, Deleted)] else [];
      && s.seen == a.seen + {p} && s.changes == a.changes + added
      && s.opaqueDirs == a.opaqueDirs + (if n.opaqueAttr then [p] else [])
    requires Scanned(b, Listed(n.entries, p), Own(n.entries, p), s, a2)
    ensures Scanned(b, Standing(n, p), {}, a, a2)
  {
    var at, sub := Standing(n, p), Listed(n.entries, p);
    forall q ensures at(q) == if q == p then Some(n) else sub(q) {
    }
    assert sub(p).None?;
  }

  /** When the scan fails, some node is one it refuses. */
  lemma {:induction false} WalkListFails(b: Manifest, es: seq<Child>, rel: Path, a: Acc) returns (p: Path)
    requires Tree(es) && WalkList(b, es, rel, a).None? && !(rel == [] && HasMarker(es))
    ensures NodeAt(es, rel, p).Some? && Refused(b, NodeAt(es, rel, p).value, p)
    decreases es, 1
  {
    var c, rest := es[0], es[1..];
    assert es == [c] + rest;
    assert Tree(rest) by {
      assert forall x :: x in rest ==> x in es;
    }
    var first := WalkChild(b, c, rel, a);
    if first.None? {
      assert c in es;
      p := WalkChildFails(b, c, rel, a);
    } else {
      p := WalkListFails(b, rest, rel, first.value);
    }
    if c.name == OPAQUE {
      FirstOrRest(es, rel, p);
    } else {
      SplitNodes(es, rel, p);
    }
  }

  lemma {:induction false} WalkChildFails(b: Manifest, c: Child, rel: Path, a: Acc) returns (p: Path)
    requires (c.node.Dir? ==> Tree(c.node.entries)) && WalkChild(b, c, rel, a).None? && !(rel == [] && c.name == OPAQUE)
    ensures c.name != OPAQUE
    ensures var n := Within(c.node, rel + [c.name], p); n.Some? && Refused(b, n.value, p)
    decreases c, 0
  {
    p := rel + [c.name];
    if c.node.Dir? {
      var s := a.(seen := a.seen + {p});
      var s1 := if p in b && b[p].Leaf() then Add(s, Change(p, b[p].hash, Deleted)) else s;
      p := WalkListFails(b, c.node.entries, p, if c.node.opaqueAttr then Hide(s1, p) else s1);
    }
  }
}
