/** Sorting, as the library sorts used throughout the system, and the order of strings. */
module Sorting {

  /** Any two elements compare, and comparison is transitive. */
  ghost predicate TotalPreorder<T(!new)>(le: (T, T) -> bool) {
    && (forall x, y :: le(x, y) || le(y, x))
    && (forall x, y, z :: le(x, y) && le(y, z) ==> le(x, z))
  }

  /** Among the elements of xs, only equal ones tie. */
  ghost predicate NoTies<T>(le: (T, T) -> bool, xs: seq<T>) {
    forall x, y :: x in xs && y in xs && le(x, y) && le(y, x) ==> x == y
  }

  ghost predicate Sorted<T>(le: (T, T) -> bool, xs: seq<T>) {
    forall i, j :: 0 <= i < j < |xs| ==> le(xs[i], xs[j])
  }

  function Insert<T>(le: (T, T) -> bool, x: T, xs: seq<T>): seq<T> {
    if xs == [] || le(x, xs[0]) then [x] + xs
    else [xs[0]] + Insert(le, x, xs[1..])
  }

  function Sort<T>(le: (T, T) -> bool, xs: seq<T>): seq<T> {
    if xs == [] then [] else Insert(le, xs[0], Sort(le, xs[1..]))
  }

  lemma {:induction false} InsertSorts<T(!new)>(le: (T, T) -> bool, x: T, xs: seq<T>)
    requires TotalPreorder(le) && Sorted(le, xs)
    ensures Sorted(le, Insert(le, x, xs))
    ensures multiset(Insert(le, x, xs)) == multiset{x} + multiset(xs)
  {
    if xs == [] {
    } else if le(x, xs[0]) {
      forall j | 0 <= j < |xs| ensures le(x, xs[j]) {
        assert j == 0 || le(xs[0], xs[j]);
      }
    } else {
      var rest := Insert(le, x, xs[1..]);
      assert xs == [xs[0]] + xs[1..];
      InsertSorts(le, x, xs[1..]);
      forall j | 0 <= j < |rest| ensures le(xs[0], rest[j]) {
        assert rest[j] in multiset(rest);
        assert rest[j] == x || rest[j] in xs[1..];
      }
    }
  }

  lemma {:induction false} SortSorts<T(!new)>(le: (T, T) -> bool, xs: seq<T>)
    requires TotalPreorder(le)
    ensures Sorted(le, Sort(le, xs))
    ensures multiset(Sort(le, xs)) == multiset(xs)
  {
    if xs != [] {
      SortSorts(le, xs[1..]);
      InsertSorts(le, xs[0], Sort(le, xs[1..]));
      assert xs == [xs[0]] + xs[1..];
    }
  }

  /** Two sorted arrangements of the same elements are the same list. */
  lemma {:induction false} SortedUnique<T(!new)>(le: (T, T) -> bool, xs: seq<T>, ys: seq<T>)
    requires TotalPreorder(le) && Sorted(le, xs) && Sorted(le, ys) && NoTies(le, xs)
    requires multiset(xs) == multiset(ys)
    ensures xs == ys
  {
    hide TotalPreorder, Sorted, NoTies;
    assert |xs| == |multiset(xs)| == |multiset(ys)| == |ys|;
    if xs != [] {
      SameFirst(le, xs, ys);
      DropFirst(xs);
      DropFirst(ys);
      RestSorted(le, xs);
      RestSorted(le, ys);
      SortedUnique(le, xs[1..], ys[1..]);
    }
  }

  lemma RestSorted<T>(le: (T, T) -> bool, xs: seq<T>)
    requires xs != [] && Sorted(le, xs)
    ensures Sorted(le, xs[1..]) && (NoTies(le, xs) ==> NoTies(le, xs[1..]))
  {
    assert forall x :: x in xs[1..] ==> x in xs;
  }

  lemma DropFirst<T>(xs: seq<T>)
    requires xs != []
    ensures xs == [xs[0]] + xs[1..]
    ensures multiset(xs[1..]) == multiset(xs) - multiset{xs[0]}
  {
    assert xs == [xs[0]] + xs[1..];
  }

  lemma SameFirst<T(!new)>(le: (T, T) -> bool, xs: seq<T>, ys: seq<T>)
    requires TotalPreorder(le) && Sorted(le, xs) && Sorted(le, ys) && NoTies(le, xs)
    requires xs != [] && ys != [] && multiset(xs) == multiset(ys)
    ensures xs[0] == ys[0]
  {
    assert xs[0] in multiset(ys) && ys[0] in multiset(xs);
    var i :| 0 <= i < |ys| && ys[i] == xs[0];
    var j :| 0 <= j < |xs| && xs[j] == ys[0];
    assert le(ys[0], ys[i]) && le(xs[0], xs[j]);
  }

  /** Sorting forgets the order its input came in. */
  lemma SortForgets<T(!new)>(le: (T, T) -> bool, xs: seq<T>, ys: seq<T>)
    requires TotalPreorder(le) && NoTies(le, xs) && multiset(xs) == multiset(ys)
    ensures Sort(le, xs) == Sort(le, ys)
  {
    SortSorts(le, xs);
    SortSorts(le, ys);
    SameElements(xs, Sort(le, xs));
    SortedUnique(le, Sort(le, xs), Sort(le, ys));
  }

  lemma SameElements<T>(xs: seq<T>, ys: seq<T>)
    requires multiset(xs) == multiset(ys)
    ensures forall x :: x in xs <==> x in ys
  {
    forall x ensures x in xs <==> x in ys {
      assert x in xs <==> x in multiset(xs);
      assert x in ys <==> x in multiset(ys);
    }
  }

  /** Lists without repetitions that hold the same elements are rearrangements. */
  lemma DistinctSame<T>(xs: seq<T>, ys: seq<T>)
    requires Distinct(xs) && Distinct(ys)
    requires forall x :: x in xs <==> x in ys
    ensures multiset(xs) == multiset(ys)
  {
    forall x ensures multiset(xs)[x] == multiset(ys)[x] {
      OccursOnce(xs, x);
      OccursOnce(ys, x);
    }
  }

  /** A list without repetitions is no longer than one that holds its elements. */
  lemma {:induction false} DistinctWithin<T>(xs: seq<T>, ys: seq<T>)
    requires Distinct(xs) && forall x :: x in xs ==> x in ys
    ensures |xs| <= |ys|
  {
    if xs != [] {
      var x, front := xs[|xs| - 1], xs[..|xs| - 1];
      assert x in xs;
      var k :| 0 <= k < |ys| && ys[k] == x;
      var rest := ys[..k] + ys[k + 1..];
      forall y | y in front ensures y in rest {
        assert y in xs && y in ys;
        var i :| 0 <= i < |ys| && ys[i] == y;
        assert i != k;
        assert y == if i < k then rest[i] else rest[i - 1];
      }
      DistinctWithin(front, rest);
    }
  }

  ghost predicate Distinct<T>(xs: seq<T>) {
    forall i, j :: 0 <= i < j < |xs| ==> xs[i] != xs[j]
  }

  lemma {:induction false} OccursOnce<T>(xs: seq<T>, x: T)
    requires Distinct(xs)
    ensures multiset(xs)[x] == if x in xs then 1 else 0
  {
    if xs != [] {
      var front, last := xs[..|xs| - 1], xs[|xs| - 1];
      OccursOnce(front, x);
      assert xs == front + [last];
      assert last !in front;
    }
  }

  lemma TwiceCounts<T>(xs: seq<T>, i: nat, j: nat)
    requires i < j < |xs| && xs[i] == xs[j]
    ensures multiset(xs)[xs[i]] >= 2
  {
    assert xs == xs[..j] + xs[j..];
    assert xs[..j][i] == xs[i] && xs[j..][0] == xs[i];
    assert xs[i] in multiset(xs[..j]) && xs[i] in multiset(xs[j..]);
  }

  // ---------- the order of strings ----------

  predicate StringLe(a: string, b: string) {
    a == [] || (b != [] && (a[0] < b[0] || (a[0] == b[0] && StringLe(a[1..], b[1..]))))
  }

  /** The order of dictionaries: a prefix comes first, else the first difference
      decides. */
  lemma {:induction false} StringLeMeans(a: string, b: string)
    ensures StringLe(a, b) <==> a <= b || exists i :: FirstDifference(a, b, i) && a[i] < b[i]
  {
    if a != [] && b != [] && a[0] == b[0] {
      StringLeMeans(a[1..], b[1..]);
      assert a == [a[0]] + a[1..] && b == [b[0]] + b[1..];
      forall i: nat ensures FirstDifference(a, b, i + 1) <==> FirstDifference(a[1..], b[1..], i) {
        if i < |a| - 1 && i < |b| - 1 {
          assert a[..i + 1] == [a[0]] + a[1..][..i] && b[..i + 1] == [b[0]] + b[1..][..i];
        }
      }
      if exists i :: FirstDifference(a, b, i) && a[i] < b[i] {
        var i :| FirstDifference(a, b, i) && a[i] < b[i];
        assert FirstDifference(a[1..], b[1..], i - 1);
      }
      if exists i :: FirstDifference(a[1..], b[1..], i) && a[1..][i] < b[1..][i] {
        var i :| FirstDifference(a[1..], b[1..], i) && a[1..][i] < b[1..][i];
        assert FirstDifference(a, b, i + 1);
      }
    } else if a != [] && b != [] {
      assert FirstDifference(a, b, 0);
      forall i | FirstDifference(a, b, i) ensures i == 0 {
      }
    }
  }

  predicate FirstDifference(a: string, b: string, i: int) {
    0 <= i < |a| && i < |b| && a[..i] == b[..i] && a[i] != b[i]
  }

  lemma {:induction false} StringLeTotal(a: string, b: string)
    ensures StringLe(a, b) || StringLe(b, a)
  {
    if a != [] && b != [] && a[0] == b[0] {
      StringLeTotal(a[1..], b[1..]);
    }
  }

  lemma {:induction false} StringLeTransitive(a: string, b: string, c: string)
    requires StringLe(a, b) && StringLe(b, c)
    ensures StringLe(a, c)
  {
    if a != [] && a[0] == b[0] && b[0] == c[0] {
      StringLeTransitive(a[1..], b[1..], c[1..]);
    }
  }

  lemma {:induction false} StringLeAntisymmetric(a: string, b: string)
    requires StringLe(a, b) && StringLe(b, a)
    ensures a == b
  {
    if a != [] {
      StringLeAntisymmetric(a[1..], b[1..]);
      assert a == [a[0]] + a[1..] && b == [b[0]] + b[1..];
    }
  }

  lemma StringOrder()
    ensures TotalPreorder(StringLe)
    ensures forall xs: seq<string> :: NoTies(StringLe, xs)
  {
    forall a, b ensures StringLe(a, b) || StringLe(b, a) {
      StringLeTotal(a, b);
    }
    forall a, b, c | StringLe(a, b) && StringLe(b, c) ensures StringLe(a, c) {
      StringLeTransitive(a, b, c);
    }
    forall a, b | StringLe(a, b) && StringLe(b, a) ensures a == b {
      StringLeAntisymmetric(a, b);
    }
  }

  /** Lists of strings in order that hold the same elements are the same list. */
  lemma StringsUnique(xs: seq<string>, ys: seq<string>)
    requires Sorted(StringLe, xs) && Sorted(StringLe, ys) && Distinct(xs) && Distinct(ys)
    requires forall x :: x in xs <==> x in ys
    ensures xs == ys
  {
    StringOrder();
    hide Sorted, NoTies, Distinct;
    DistinctSame(xs, ys);
    SortedUnique(StringLe, xs, ys);
  }

  /** Sorting a list of strings without repetitions puts it in order and keeps its elements. */
  lemma SortStrings(xs: seq<string>)
    requires Distinct(xs)
    ensures var ys := Sort(StringLe, xs); Distinct(ys) && Sorted(StringLe, ys) && forall x :: x in ys <==> x in xs
  {
    var ys := Sort(StringLe, xs);
    StringOrder();
    SortSorts(StringLe, xs);
    SameElements(xs, ys);
    hide StringLe, Sort;
    forall i, j | 0 <= i < j < |ys| ensures ys[i] != ys[j] {
      if ys[i] == ys[j] {
        TwiceCounts(ys, i, j);
        OccursOnce(xs, ys[i]);
      }
    }
  }
}
