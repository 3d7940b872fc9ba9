/**
  The filesystem diff: the scan of the upper layer against the baseline, the
  expansion of hidden directories, the sorted change list, and what that list
  means for the leaves visible through the overlay.
*/
module FsDiff {
  import opened Wrappers
  import opened Sorting
  import opened Overlay
  import opened UpperWalk

  // ---------- what a change list should say ----------

  predicate Written(upper: seq<Child>, p: Path) {
    At(upper, p).Some? && (At(upper, p).value.Regular? || At(upper, p).value.Symlink?)
  }

  /** The change due at p, told from what is visible before and after. */
  function ChangeAt(b: Manifest, upper: seq<Child>, p: Path): Option<Change> {
    var now := Visible(b, upper, p);
    if now.Some? && Written(upper, p) then
      Some(Change(p, now.value, if LowerLeaf(b, p).Some? then Modified else Added))
    else if now.None? && LowerLeaf(b, p).Some? then Some(Change(p, LowerLeaf(b, p).value, Deleted))
    else None
  }

  ghost predicate Exact(b: Manifest, upper: seq<Child>, cs: seq<Change>) {
    && (forall i, j :: 0 <= i < j < |cs| ==> cs[i].path != cs[j].path)
    && (forall c :: c in cs <==> ChangeAt(b, upper, c.path) == Some(c))
  }

  /** The leaves of the baseline. */
  function Leaves(b: Manifest): map<Path, Hash> {
    map p | p in b && b[p].Leaf() :: b[p].hash
  }

  function Apply(m: map<Path, Hash>, cs: seq<Change>): map<Path, Hash> {
    if cs == [] then m
    else
      var m' := Apply(m, cs[..|cs| - 1]);
      var c := cs[|cs| - 1];
      if c.kind.Deleted? then m' - {c.path} else m'[c.path := c.hash]
  }

  function Get(m: map<Path, Hash>, p: Path): Option<Hash> {
    if p in m then Some(m[p]) else None
  }

  /** The upper node at p is one that cannot be told as a change: a special file, a
      whiteout of nothing, or a leaf of one kind over a leaf of the other. */
  predicate Unsupported(b: Manifest, upper: seq<Child>, p: Path) {
    match At(upper, p)
    case None => false
    case Some(n) =>
      match n
      case Special => true
      case Whiteout => p !in b
      case Dir(_, _) => false
      case Regular(_) => p in b && b[p].SymlinkEntry?
      case Symlink(_) => p in b && b[p].RegularEntry?
  }

  /** Everything in the upper layer can be told as a change. */
  ghost predicate Supports(b: Manifest, upper: seq<Child>) {
    !HasMarker(upper) && forall p :: !Unsupported(b, upper, p)
  }

  // ---------- the view, node by node ----------

  /** Where the upper layer has a node, the view shows that node. */
  lemma {:induction false} ViewAtNode(b: Manifest, es: seq<Child>, rel: Path, rest: Path, merged: bool)
    requires At(es, rest).Some?
    ensures View(b, es, rel, rest, merged)
         == match At(es, rest).value
            case Regular(h) => Some(h)
            case Symlink(h) => Some(h)
            case _ => None
    decreases |rest|
  {
    var n := Find(es, rest[0]).value;
    if 1 < |rest| {
      ViewAtNode(b, n.entries, rel + [rest[0]], rest[1..], merged && !n.opaqueAttr && !HasMarker(n.entries));
    }
  }

  /** What is visible is written by the upper layer or comes from below unchanged. */
  lemma {:induction false} ViewSource(b: Manifest, es: seq<Child>, rel: Path, rest: Path, merged: bool)
    requires View(b, es, rel, rest, merged).Some? && !Written(es, rest)
    ensures View(b, es, rel, rest, merged) == LowerLeaf(b, rel + rest)
    decreases |rest|
  {
    match Find(es, rest[0])
    case None =>
    case Some(n) =>
      if n.Dir? {
        ViewSource(b, n.entries, rel + [rest[0]], rest[1..], merged && !n.opaqueAttr && !HasMarker(n.entries));
        assert rel + [rest[0]] + rest[1..] == rel + rest;
      }
  }

  lemma {:induction false} ApplyMisses(m: map<Path, Hash>, cs: seq<Change>, p: Path)
    requires forall c :: c in cs ==> c.path != p
    ensures Get(Apply(m, cs), p) == Get(m, p)
  {
    if cs != [] {
      ApplyMisses(m, cs[..|cs| - 1], p);
    }
  }

  lemma {:induction false} ApplyHits(m: map<Path, Hash>, cs: seq<Change>, k: nat)
    requires k < |cs| && forall i, j :: 0 <= i < j < |cs| ==> cs[i].path != cs[j].path
    ensures Get(Apply(m, cs), cs[k].path) == if cs[k].kind.Deleted? then None else Some(cs[k].hash)
  {
    if k < |cs| - 1 {
      ApplyHits(m, cs[..|cs| - 1], k);
    }
  }

  /** Applying an exact change list to the baseline's leaves gives exactly the
      leaves visible through the overlay. */
  lemma AppliedIsVisible(b: Manifest, upper: seq<Child>, cs: seq<Change>, p: Path)
    requires Exact(b, upper, cs)
    ensures Get(Apply(Leaves(b), cs), p) == Visible(b, upper, p)
  {
    var c := ChangeAt(b, upper, p);
    if c.Some? {
      var k :| 0 <= k < |cs| && cs[k] == c.value;
      ApplyHits(Leaves(b), cs, k);
    } else {
      ApplyMisses(Leaves(b), cs, p);
      if Visible(b, upper, p).Some? {
        ViewSource(b, upper, [], p, true);
        assert [] + p == p;
      }
    }
  }

  // ---------- from the scan to the change list ----------

  /** The deletion recorded for a baseline leaf below a hidden directory. */
  predicate Expands(b: Manifest, seen: set<Path>, dirs: seq<Path>, c: Change) {
    && c.path !in seen && LowerLeaf(b, c.path).Some?
    && c == Change(c.path, LowerLeaf(b, c.path).value, Deleted)
    && exists q :: q in dirs && Under(q, c.path)
  }

  lemma RefusedIsUnsupported(b: Manifest, upper: seq<Child>, p: Path)
    ensures Unsupported(b, upper, p) <==> NodeAt(upper, [], p).Some? && Refused(b, NodeAt(upper, [], p).value, p)
  {
    NodeAtRoot(upper, p);
  }

  /** The scan goes through exactly if everything is supported. */
  lemma ScanSupports(b: Manifest, upper: seq<Child>)
    requires Tree(upper)
    ensures WalkList(b, upper, [], NOTHING).Some? <==> Supports(b, upper)
  {
    hide WalkList, Unsupported, Refused;
    if WalkList(b, upper, [], NOTHING).Some? {
      var a := WalkList(b, upper, [], NOTHING).value;
      WalkListScans(b, upper, [], NOTHING, a);
      NoRootMarker(b, upper, NOTHING);
      forall p ensures !Unsupported(b, upper, p) {
        RefusedIsUnsupported(b, upper, p);
        assert Listed(upper, [])(p) == NodeAt(upper, [], p);
      }
    } else if !HasMarker(upper) {
      var p := WalkListFails(b, upper, [], NOTHING);
      RefusedIsUnsupported(b, upper, p);
    }
  }

  /** What the scan has recorded, or expansion will, is exactly what is due. */
  lemma FoundIsDue(b: Manifest, upper: seq<Child>, a: Acc, c: Change)
    requires WellFormed(b) && Tree(upper) && WalkList(b, upper, [], NOTHING) == Some(a)
    ensures c in a.changes || Expands(b, a.seen, a.opaqueDirs, c) <==> ChangeAt(b, upper, c.path) == Some(c)
  {
    WalkListScans(b, upper, [], NOTHING, a);
    NoRootMarker(b, upper, NOTHING);
    var at := Listed(upper, []);
    assert at(c.path) == NodeAt(upper, [], c.path);
    NodeAtRoot(upper, c.path);
    if NodeAt(upper, [], c.path).Some? {
      ViewAtNode(b, upper, [], c.path, true);
      assert !Refused(b, at(c.path).value, c.path);
    } else if LowerLeaf(b, c.path).Some? {
      UntouchedLeaf(b, upper, a, c.path);
    }
  }

  lemma ScanIsExact(b: Manifest, upper: seq<Child>, a: Acc, cs: seq<Change>)
    requires WellFormed(b) && Tree(upper) && WalkList(b, upper, [], NOTHING) == Some(a)
    requires forall i, j :: 0 <= i < j < |cs| ==> cs[i].path != cs[j].path
    requires forall c :: c in cs <==> c in a.changes || Expands(b, a.seen, a.opaqueDirs, c)
    ensures Exact(b, upper, cs)
  {
    hide WalkList, Expands, ChangeAt;
    forall c ensures c in cs <==> ChangeAt(b, upper, c.path) == Some(c) {
      FoundIsDue(b, upper, a, c);
    }
  }

  /** The changes due fit into a list of at most n. */
  ghost predicate Room(b: Manifest, upper: seq<Child>, n: nat) {
    exists cs :: Exact(b, upper, cs) && |cs| <= n
  }

  /** Whoever has more than n of them leaves no room. */
  lemma NoRoom(b: Manifest, upper: seq<Child>, n: nat, cs: seq<Change>)
    requires |cs| > n && forall i, j :: 0 <= i < j < |cs| ==> cs[i].path != cs[j].path
    requires forall c :: c in cs ==> ChangeAt(b, upper, c.path) == Some(c)
    ensures !Room(b, upper, n)
  {
    hide ChangeAt;
    forall all | Exact(b, upper, all) ensures |all| > n {
      DistinctWithin(cs, all);
    }
  }

  lemma NodeAtRoot(upper: seq<Child>, p: Path)
    ensures NodeAt(upper, [], p) == At(upper, p)
  {
    if p != [] {
      assert p[..0] == [] && p[0..] == p;
    }
  }

  lemma {:induction false} NoRootMarker(b: Manifest, es: seq<Child>, a: Acc)
    requires WalkList(b, es, [], a).Some?
    ensures !HasMarker(es)
  {
    if es != [] {
      NoRootMarker(b, es[1..], WalkChild(b, es[0], [], a).value);
      assert es == [es[0]] + es[1..];
    }
  }

  /** A lower leaf the upper layer does not list is hidden exactly when the scan
      has marked a directory above it. */
  lemma UntouchedLeaf(b: Manifest, upper: seq<Child>, a: Acc, p: Path)
    requires WellFormed(b) && At(upper, p).None? && LowerLeaf(b, p).Some? && p != []
    requires !HasMarker(upper) && Scanned(b, Listed(upper, []), Own(upper, []), NOTHING, a)
    ensures Visible(b, upper, p) == if exists q :: q in a.opaqueDirs && Under(q, p) then None else LowerLeaf(b, p)
  {
    var at := Listed(upper, []);
    forall q ensures at(q) == At(upper, q) {
      NodeAtRoot(upper, q);
    }
    assert [] + p == p;
    HiddenBelow(b, upper, [], p, true);
    forall i | 0 < i < |p| ensures HidesAt(b, upper, [], p, i) <==> p[..i] in a.opaqueDirs {
      assert [] + p[..i] == p[..i];
      assert at(p[..i]) == At(upper, p[..i]);
    }
    if exists q :: q in a.opaqueDirs && Under(q, p) {
      var q :| q in a.opaqueDirs && Under(q, p);
      assert at(q).Some?;
      assert p[..|q|] == q && q != [];
      assert HidesAt(b, upper, [], p, |q|);
    }
    if exists i :: HidesAt(b, upper, [], p, i) {
      var i :| HidesAt(b, upper, [], p, i);
      assert Under(p[..i], p);
    }
  }
}
