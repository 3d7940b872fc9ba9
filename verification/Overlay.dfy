/**
  Overlay trees and what is visible through them.

  The lower workspace is known by its manifest, a map from paths to directories
  and leaves. The upper layer is a tree whose nodes may also be whiteouts, and
  whose directories may be opaque, by an attribute or by a marker entry. The
  merged view follows the section "whiteouts and opaque directories" of the
  Linux overlayfs documentation and the "Opaque Whiteout" section of the OCI
  Image Layer specification.
*/
module Overlay {
  import opened Wrappers

  type Name = s: string | s != "" && '/' !in s witness "a"

  type Path = seq<Name>

  type Hash = string

  const OPAQUE: Name := ".wh..wh..opq"

  datatype Node =
    | Whiteout
    | Regular(hash: Hash)
    | Symlink(hash: Hash)
    | Dir(opaqueAttr: bool, entries: seq<Child>)
    | Special

  datatype Child = Child(name: Name, node: Node)

  datatype Entry = DirEntry | RegularEntry(hash: Hash) | SymlinkEntry(hash: Hash) {
    predicate Leaf() {
      !DirEntry?
    }
  }

  type Manifest = map<Path, Entry>

  /** Everything listed has its parent directories listed. */
  ghost predicate WellFormed(b: Manifest) {
    && [] !in b
    && forall p, i :: p in b && 0 < i < |p| ==> p[..i] in b && b[p[..i]] == DirEntry
  }

  predicate DistinctNames(es: seq<Child>) {
    forall i, j :: 0 <= i < j < |es| ==> es[i].name != es[j].name
  }

  /** No directory lists a name twice. */
  predicate Tree(es: seq<Child>)
    decreases es
  {
    DistinctNames(es) && forall c :: c in es && c.node.Dir? ==> Tree(c.node.entries)
  }

  predicate HasMarker(es: seq<Child>) {
    exists c :: c in es && c.name == OPAQUE
  }

  /** The entry called n; the marker is not an entry. */
  function Find(es: seq<Child>, n: Name): Option<Node> {
    if es == [] then None
    else if es[0].name == n && n != OPAQUE then Some(es[0].node)
    else Find(es[1..], n)
  }

  /** The upper node at a path below the directory that lists es. */
  function At(es: seq<Child>, rest: Path): Option<Node>
    decreases |rest|
  {
    if rest == [] then None
    else match Find(es, rest[0])
      case None => None
      case Some(n) =>
        if |rest| == 1 then Some(n)
        else if n.Dir? then At(n.entries, rest[1..])
        else None
  }

  function LowerLeaf(b: Manifest, p: Path): Option<Hash> {
    if p in b && b[p].Leaf() then Some(b[p].hash) else None
  }

  /** The leaf visible at rel + rest, es being what the upper layer lists at rel
      and merged telling whether the lower directory still shows through there. */
  function View(b: Manifest, es: seq<Child>, rel: Path, rest: Path, merged: bool): Option<Hash>
    decreases |rest|
  {
    if rest == [] then None
    else match Find(es, rest[0])
      case None => if merged then LowerLeaf(b, rel + rest) else None
      case Some(Regular(h)) => if |rest| == 1 then Some(h) else None
      case Some(Symlink(h)) => if |rest| == 1 then Some(h) else None
      case Some(Dir(attr, ces)) =>
        if |rest| == 1 then None
        else View(b, ces, rel + [rest[0]], rest[1..], merged && !attr && !HasMarker(ces))
      case Some(_) => None
  }

  /** The leaf visible at p through the whole overlay. The root is always merged. */
  function Visible(b: Manifest, upper: seq<Child>, p: Path): Option<Hash> {
    View(b, upper, [], p, true)
  }

  /** A node that hides the lower directory at its own path. */
  predicate Hides(b: Manifest, n: Node, p: Path) {
    match n
    case Dir(attr, es) => attr || HasMarker(es)
    case Special => false
    case _ => p in b && b[p] == DirEntry
  }

  /** A lower leaf that the upper layer does not touch is hidden exactly when some
      directory above it is. */
  lemma {:induction false} HiddenBelow(b: Manifest, es: seq<Child>, rel: Path, rest: Path, merged: bool)
    requires WellFormed(b) && LowerLeaf(b, rel + rest).Some? && At(es, rest).None? && rest != []
    requires forall i :: 0 < i < |rest| && At(es, rest[..i]).Some? ==> !At(es, rest[..i]).value.Special?
    ensures View(b, es, rel, rest, merged)
         == if merged && !(exists i :: HidesAt(b, es, rel, rest, i)) then LowerLeaf(b, rel + rest) else None
    decreases |rest|
  {
    match Find(es, rest[0])
    case None =>
      forall i ensures !HidesAt(b, es, rel, rest, i) {
        assert 0 < i < |rest| ==> rest[..i][0] == rest[0];
      }
    case Some(n) =>
      assert 1 < |rest|;
      assert rest[..1] == [rest[0]] && At(es, rest[..1]) == Some(n);
      var sub, deep := rel + [rest[0]], rest[1..];
      assert rel + rest == sub + deep;
      assert (rel + rest)[..|sub|] == sub;
      if n.Dir? {
        forall i | 0 < i < |deep|
          ensures At(es, rest[..i + 1]) == At(n.entries, deep[..i])
          ensures rel + rest[..i + 1] == sub + deep[..i]
        {
          assert rest[..i + 1][0] == rest[0] && rest[..i + 1][1..] == deep[..i];
        }
        HiddenBelow(b, n.entries, sub, deep, merged && !n.opaqueAttr && !HasMarker(n.entries));
        assert HidesAt(b, es, rel, rest, 1) <==> Hides(b, n, sub);
        forall i | 0 < i < |deep| ensures HidesAt(b, es, rel, rest, i + 1) <==> HidesAt(b, n.entries, sub, deep, i) {
        }
        if exists i :: HidesAt(b, es, rel, rest, i) {
          var i :| HidesAt(b, es, rel, rest, i);
          assert i == 1 || HidesAt(b, n.entries, sub, deep, i - 1);
        }
        if exists i :: HidesAt(b, n.entries, sub, deep, i) {
          var i :| HidesAt(b, n.entries, sub, deep, i);
          assert HidesAt(b, es, rel, rest, i + 1);
        }
      } else {
        assert HidesAt(b, es, rel, rest, 1);
      }
  }

  /** The upper node at the first i components hides what is below it. */
  predicate HidesAt(b: Manifest, es: seq<Child>, rel: Path, rest: Path, i: int) {
    0 < i < |rest| && At(es, rest[..i]).Some? && Hides(b, At(es, rest[..i]).value, rel + rest[..i])
  }
}
