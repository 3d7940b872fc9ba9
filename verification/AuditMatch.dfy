/**
  The audit's matching of reported actions (intents) with observed changes
  (effects): groups by span and path, ordered by sequence number, paired one to
  one.
*/
module AuditMatch {
  import opened Sorting

  datatype Change = Added | Modified | Deleted

  /** An intent or an effect; detail stands for the fields that are only carried along. */
  datatype Action = Action(span: string, path: string, seqNo: int, change: Change, detail: string)

  datatype Row =
    | Matched(intent: Action, effect: Action)
    | Unobserved(intent: Action)
    | Unreported(effect: Action, clash: bool)

  datatype Result = Rows(rows: seq<Row>) | Incomplete | Ambiguous

  function Key(a: Action): string {
    a.span + "\0" + a.path
  }

  predicate Compatible(reported: Change, observed: Change) {
    if reported == Deleted then observed == Deleted else observed == Added || observed == Modified
  }

  // ---------- the specification ----------

  /** No two actions share span, path and sequence number. */
  ghost predicate Identified(xs: seq<Action>) {
    forall i, j :: 0 <= i < j < |xs| ==> Key(xs[i]) != Key(xs[j]) || xs[i].seqNo != xs[j].seqNo
  }

  function Group(xs: seq<Action>, k: string): seq<Action> {
    if xs == [] then []
    else
      var front, x := xs[..|xs| - 1], xs[|xs| - 1];
      if Key(x) == k then Group(front, k) + [x] else Group(front, k)
  }

  predicate SeqLe(x: Action, y: Action) {
    x.seqNo <= y.seqNo
  }

  function Ordered(xs: seq<Action>, k: string): seq<Action> {
    Sort(SeqLe, Group(xs, k))
  }

  /** The rows of position i: one if the two sides agree there, else one each. */
  function PairAt(ins: seq<Action>, es: seq<Action>, i: nat): seq<Row> {
    if i < |ins| && i < |es| && Compatible(ins[i].change, es[i].change) then [Matched(ins[i], es[i])]
    else
      (if i < |ins| then [Unobserved(ins[i])] else [])
      + (if i < |es| then [Unreported(es[i], i < |ins|)] else [])
  }

  function Max(a: nat, b: nat): nat {
    if a < b then b else a
  }

  /** The first n positions. */
  function Pair(ins: seq<Action>, es: seq<Action>, n: nat): seq<Row> {
    if n == 0 then [] else Pair(ins, es, n - 1) + PairAt(ins, es, n - 1)
  }

  function PairAll(ins: seq<Action>, es: seq<Action>): seq<Row> {
    Pair(ins, es, Max(|ins|, |es|))
  }

  function RowsOf(intents: seq<Action>, effects: seq<Action>, keys: seq<string>): seq<Row> {
    if keys == [] then []
    else
      var front, k := keys[..|keys| - 1], keys[|keys| - 1];
      RowsOf(intents, effects, front) + PairAll(Ordered(intents, k), Ordered(effects, k))
  }

  /** keys lists the keys of both sides, once each and in order. */
  ghost predicate KeysOf(intents: seq<Action>, effects: seq<Action>, keys: seq<string>) {
    && Distinct(keys) && Sorted(StringLe, keys)
    && (forall x :: x in intents || x in effects ==> Key(x) in keys)
    && (forall k :: k in keys ==> exists x :: (x in intents || x in effects) && Key(x) == k)
  }

  /** r is the outcome of the match. */
  ghost predicate IsMatch(intents: seq<Action>, effects: seq<Action>, known: bool, r: Result) {
    if !known && intents != [] then r == Incomplete
    else if !Identified(intents) || !Identified(effects) then r == Ambiguous
    else r.Rows? && exists keys :: KeysOf(intents, effects, keys) && r.rows == RowsOf(intents, effects, keys)
  }

  // ---------- conservation ----------

  function IntentsOf(rows: seq<Row>): seq<Action> {
    if rows == [] then []
    else
      var r := rows[|rows| - 1];
      IntentsOf(rows[..|rows| - 1]) + if r.Unreported? then [] else [r.intent]
  }

  function EffectsOf(rows: seq<Row>): seq<Action> {
    if rows == [] then []
    else
      var r := rows[|rows| - 1];
      EffectsOf(rows[..|rows| - 1]) + if r.Unobserved? then [] else [r.effect]
  }

  lemma {:induction false} SidesConcat(a: seq<Row>, b: seq<Row>)
    ensures IntentsOf(a + b) == IntentsOf(a) + IntentsOf(b)
    ensures EffectsOf(a + b) == EffectsOf(a) + EffectsOf(b)
  {
    if b == [] {
      assert a + b == a;
    } else {
      var n := |b| - 1;
      assert (a + b)[..|a + b| - 1] == a + b[..n];
      SidesConcat(a, b[..n]);
    }
  }

  lemma OneRow(r: Row)
    ensures IntentsOf([r]) == if r.Unreported? then [] else [r.intent]
    ensures EffectsOf([r]) == if r.Unobserved? then [] else [r.effect]
  {
    assert [r][..0] == [];
  }

  lemma PairAtSides(ins: seq<Action>, es: seq<Action>, i: nat)
    ensures IntentsOf(PairAt(ins, es, i)) == if i < |ins| then [ins[i]] else []
    ensures EffectsOf(PairAt(ins, es, i)) == if i < |es| then [es[i]] else []
  {
    hide IntentsOf, EffectsOf;
    if i < |ins| && i < |es| && Compatible(ins[i].change, es[i].change) {
      OneRow(Matched(ins[i], es[i]));
    } else {
      var left := if i < |ins| then [Unobserved(ins[i])] else [];
      var right := if i < |es| then [Unreported(es[i], i < |ins|)] else [];
      SidesConcat(left, right);
      NoRows();
      if i < |ins| {
        OneRow(left[0]);
      }
      if i < |es| {
        OneRow(right[0]);
      }
    }
  }

  lemma NoRows()
    ensures IntentsOf([]) == [] && EffectsOf([]) == []
  {
  }

  function Upto(xs: seq<Action>, n: nat): seq<Action> {
    if n < |xs| then xs[..n] else xs
  }

  lemma UptoSnoc(xs: seq<Action>, n: nat)
    ensures Upto(xs, n + 1) == Upto(xs, n) + if n < |xs| then [xs[n]] else []
  {
  }

  /** Pairing loses nothing and repeats nothing. */
  lemma {:induction false} PairSides(ins: seq<Action>, es: seq<Action>, n: nat)
    ensures IntentsOf(Pair(ins, es, n)) == Upto(ins, n)
    ensures EffectsOf(Pair(ins, es, n)) == Upto(es, n)
  {
    hide PairAt, IntentsOf, EffectsOf, Upto;
    if n > 0 {
      PairSides(ins, es, n - 1);
      SidesConcat(Pair(ins, es, n - 1), PairAt(ins, es, n - 1));
      PairAtSides(ins, es, n - 1);
      UptoSnoc(ins, n - 1);
      UptoSnoc(es, n - 1);
    } else {
      NoRows();
      UptoNone(ins);
      UptoNone(es);
    }
  }

  lemma UptoNone(xs: seq<Action>)
    ensures Upto(xs, 0) == []
  {
  }

  function Flat(xs: seq<Action>, keys: seq<string>): seq<Action> {
    if keys == [] then [] else Flat(xs, keys[..|keys| - 1]) + Ordered(xs, keys[|keys| - 1])
  }

  lemma {:induction false} RowSides(intents: seq<Action>, effects: seq<Action>, keys: seq<string>)
    ensures IntentsOf(RowsOf(intents, effects, keys)) == Flat(intents, keys)
    ensures EffectsOf(RowsOf(intents, effects, keys)) == Flat(effects, keys)
  {
    if keys != [] {
      var front, k := keys[..|keys| - 1], keys[|keys| - 1];
      RowSides(intents, effects, front);
      var ins, es := Ordered(intents, k), Ordered(effects, k);
      SidesConcat(RowsOf(intents, effects, front), PairAll(ins, es));
      PairSides(ins, es, Max(|ins|, |es|));
    }
  }

  lemma SeqOrder()
    ensures TotalPreorder(SeqLe)
  {
  }

  lemma {:induction false} GroupCounts(xs: seq<Action>, k: string, x: Action)
    ensures multiset(Group(xs, k))[x] == if Key(x) == k then multiset(xs)[x] else 0
  {
    if xs != [] {
      GroupCounts(xs[..|xs| - 1], k, x);
      assert xs == xs[..|xs| - 1] + [xs[|xs| - 1]];
    }
  }

  lemma {:induction false} FlatCounts(xs: seq<Action>, keys: seq<string>, x: Action)
    requires Distinct(keys)
    ensures multiset(Flat(xs, keys))[x] == if Key(x) in keys then multiset(xs)[x] else 0
  {
    if keys != [] {
      var front, k := keys[..|keys| - 1], keys[|keys| - 1];
      assert keys == front + [k] && k !in front;
      FlatCounts(xs, front, x);
      SeqOrder();
      SortSorts(SeqLe, Group(xs, k));
      GroupCounts(xs, k, x);
    }
  }

  /** Every intent and every effect lies in exactly one row. */
  lemma EachInOneRow(intents: seq<Action>, effects: seq<Action>, keys: seq<string>)
    requires KeysOf(intents, effects, keys)
    ensures multiset(IntentsOf(RowsOf(intents, effects, keys))) == multiset(intents)
    ensures multiset(EffectsOf(RowsOf(intents, effects, keys))) == multiset(effects)
  {
    RowSides(intents, effects, keys);
    hide Flat, RowsOf, IntentsOf, EffectsOf;
    forall x ensures multiset(Flat(intents, keys))[x] == multiset(intents)[x] {
      FlatCounts(intents, keys, x);
      assert x in intents <==> x in multiset(intents);
    }
    forall x ensures multiset(Flat(effects, keys))[x] == multiset(effects)[x] {
      FlatCounts(effects, keys, x);
      assert x in effects <==> x in multiset(effects);
    }
  }

  // ---------- what a matched row says ----------

  lemma {:induction false} GroupKeys(xs: seq<Action>, k: string, x: Action)
    requires x in Group(xs, k)
    ensures Key(x) == k && x in xs
  {
    var front := xs[..|xs| - 1];
    if x in Group(front, k) {
      GroupKeys(front, k, x);
    }
  }

  lemma OrderedKeys(xs: seq<Action>, k: string, x: Action)
    requires x in Ordered(xs, k)
    ensures Key(x) == k && x in xs
  {
    SeqOrder();
    SortSorts(SeqLe, Group(xs, k));
    SameElements(Group(xs, k), Ordered(xs, k));
    GroupKeys(xs, k, x);
  }

  /** Both sides of a matched row come from the same group, and both delete or neither. */
  ghost predicate Sound(intents: seq<Action>, effects: seq<Action>, r: Row) {
    r.Matched? ==>
      && r.intent in intents && r.effect in effects
      && Key(r.intent) == Key(r.effect) && (r.intent.change == Deleted <==> r.effect.change == Deleted)
  }

  lemma {:induction false} PairSound(intents: seq<Action>, effects: seq<Action>, k: string, n: nat)
    ensures forall r :: r in Pair(Ordered(intents, k), Ordered(effects, k), n) ==> Sound(intents, effects, r)
  {
    hide Ordered, Key, Sound, PairAt;
    if n > 0 {
      PairSound(intents, effects, k, n - 1);
      PairAtSound(intents, effects, k, n - 1);
    }
  }

  lemma PairAtSound(intents: seq<Action>, effects: seq<Action>, k: string, i: nat)
    ensures forall r :: r in PairAt(Ordered(intents, k), Ordered(effects, k), i) ==> Sound(intents, effects, r)
  {
    hide Ordered, Key;
    var ins, es := Ordered(intents, k), Ordered(effects, k);
    if i < |ins| && i < |es| {
      OrderedKeys(intents, k, ins[i]);
      OrderedKeys(effects, k, es[i]);
    }
  }

  lemma {:induction false} RowsSound(intents: seq<Action>, effects: seq<Action>, keys: seq<string>)
    ensures forall r :: r in RowsOf(intents, effects, keys) ==> Sound(intents, effects, r)
  {
    hide Sound;
    if keys != [] {
      var k := keys[|keys| - 1];
      RowsSound(intents, effects, keys[..|keys| - 1]);
      PairSound(intents, effects, k, Max(|Ordered(intents, k)|, |Ordered(effects, k)|));
    }
  }

  // ---------- exactly which rows there are ----------

  /** The actions with a's key that come before it. */
  function Earlier(xs: seq<Action>, a: Action): set<Action> {
    set x | x in xs && Key(x) == Key(a) && x.seqNo < a.seqNo
  }

  lemma {:induction false} DistinctSize(xs: seq<Action>)
    requires Distinct(xs)
    ensures |set x | x in xs| == |xs|
  {
    if xs != [] {
      var front, last := xs[..|xs| - 1], xs[|xs| - 1];
      DistinctSize(front);
      assert last !in front && xs == front + [last];
      assert (set x | x in xs) == (set x | x in front) + {last};
    }
  }

  lemma GroupHas(xs: seq<Action>, k: string, x: Action)
    ensures x in Ordered(xs, k) <==> x in xs && Key(x) == k
  {
    SeqOrder();
    SortSorts(SeqLe, Group(xs, k));
    SameElements(Group(xs, k), Ordered(xs, k));
    GroupCounts(xs, k, x);
    assert x in Group(xs, k) <==> x in multiset(Group(xs, k));
    assert x in xs <==> x in multiset(xs);
  }

  /** The group of a key, in order, rises strictly. */
  lemma OrderedRises(xs: seq<Action>, k: string)
    requires Identified(xs)
    ensures var os := Ordered(xs, k); forall i, j :: 0 <= i < j < |os| ==> os[i].seqNo < os[j].seqNo
  {
    var os := Ordered(xs, k);
    SeqOrder();
    SortSorts(SeqLe, Group(xs, k));
    IdentifiedDistinct(xs);
    hide Ordered, Key, Group;
    forall i, j | 0 <= i < j < |os| ensures os[i].seqNo < os[j].seqNo {
      assert SeqLe(os[i], os[j]);
      GroupHas(xs, k, os[i]);
      GroupHas(xs, k, os[j]);
      if os[i] == os[j] {
        TwiceCounts(os, i, j);
        GroupCounts(xs, k, os[i]);
        OccursOnce(xs, os[i]);
      }
    }
  }

  /** The place of an action in its group is the number of those before it. */
  lemma OrderedAt(xs: seq<Action>, k: string, i: nat)
    requires Identified(xs) && i < |Ordered(xs, k)|
    ensures var a := Ordered(xs, k)[i]; a in xs && Key(a) == k && |Earlier(xs, a)| == i
  {
    var os := Ordered(xs, k);
    var a := os[i];
    OrderedRises(xs, k);
    hide Ordered, Key, Identified;
    GroupHas(xs, k, a);
    forall x ensures x in Earlier(xs, a) <==> x in os[..i] {
      GroupHas(xs, k, x);
      if x in Earlier(xs, a) {
        var j :| 0 <= j < |os| && os[j] == x;
      }
    }
    assert Earlier(xs, a) == set x | x in os[..i];
    DistinctSize(os[..i]);
  }

  lemma AtItsPlace(xs: seq<Action>, a: Action)
    requires Identified(xs) && a in xs
    ensures |Earlier(xs, a)| < |Ordered(xs, Key(a))| && Ordered(xs, Key(a))[|Earlier(xs, a)|] == a
  {
    GroupHas(xs, Key(a), a);
    hide Ordered, Key, Identified;
    var i :| 0 <= i < |Ordered(xs, Key(a))| && Ordered(xs, Key(a))[i] == a;
    OrderedAt(xs, Key(a), i);
  }

  /** An intent and an effect with the same key, and as many before the one as before
      the other. */
  predicate Opposite(intents: seq<Action>, effects: seq<Action>, a: Action, e: Action) {
    a in intents && e in effects && Key(a) == Key(e) && |Earlier(intents, a)| == |Earlier(effects, e)|
  }

  /** Both delete, or neither does. */
  predicate Agree(a: Action, e: Action) {
    a.change == Deleted <==> e.change == Deleted
  }

  /** What one row says. */
  ghost predicate Means(intents: seq<Action>, effects: seq<Action>, r: Row) {
    match r
    case Matched(a, e) => Opposite(intents, effects, a, e) && Agree(a, e)
    case Unobserved(a) => a in intents && forall e :: Opposite(intents, effects, a, e) ==> !Agree(a, e)
    case Unreported(e, clash) =>
      && e in effects && (forall a :: Opposite(intents, effects, a, e) ==> !Agree(a, e))
      && (clash <==> exists a :: Opposite(intents, effects, a, e))
  }

  lemma OppositeAt(intents: seq<Action>, effects: seq<Action>, k: string, i: nat, a: Action, e: Action)
    requires Identified(intents) && Identified(effects)
    requires var ins, es := Ordered(intents, k), Ordered(effects, k);
      (i < |ins| && ins[i] == a) || (i < |es| && es[i] == e)
    ensures var ins, es := Ordered(intents, k), Ordered(effects, k);
      Opposite(intents, effects, a, e) <==> i < |ins| && ins[i] == a && i < |es| && es[i] == e
  {
    hide Ordered, Key, Identified, Earlier;
    var ins, es := Ordered(intents, k), Ordered(effects, k);
    if i < |ins| { OrderedAt(intents, k, i); }
    if i < |es| { OrderedAt(effects, k, i); }
    if a in intents { AtItsPlace(intents, a); }
    if e in effects { AtItsPlace(effects, e); }
  }

  lemma PairAtMeans(intents: seq<Action>, effects: seq<Action>, k: string, i: nat, r: Row)
    requires Identified(intents) && Identified(effects)
    requires r in PairAt(Ordered(intents, k), Ordered(effects, k), i)
    ensures Means(intents, effects, r)
  {
    hide Ordered, Key, Identified, Earlier, Opposite;
    var ins, es := Ordered(intents, k), Ordered(effects, k);
    forall a, e | (i < |ins| && ins[i] == a) || (i < |es| && es[i] == e)
      ensures Opposite(intents, effects, a, e) <==> i < |ins| && ins[i] == a && i < |es| && es[i] == e
    {
      OppositeAt(intents, effects, k, i, a, e);
    }
    if i < |ins| { OrderedAt(intents, k, i); }
    if i < |es| { OrderedAt(effects, k, i); }
    if i < |ins| && i < |es| {
      assert Opposite(intents, effects, ins[i], es[i]);
    }
  }

  /** The row that must be there, at its position. */
  lemma MeansPairAt(intents: seq<Action>, effects: seq<Action>, r: Row) returns (k: string, i: nat)
    requires Identified(intents) && Identified(effects) && Means(intents, effects, r)
    ensures r in PairAt(Ordered(intents, k), Ordered(effects, k), i)
    ensures exists x :: (x in intents || x in effects) && Key(x) == k
  {
    hide Ordered, Key, Identified, Earlier;
    if r.Unreported? {
      k, i := Key(r.effect), |Earlier(effects, r.effect)|;
      AtItsPlace(effects, r.effect);
    } else {
      k, i := Key(r.intent), |Earlier(intents, r.intent)|;
      AtItsPlace(intents, r.intent);
    }
    hide Opposite;
    var ins, es := Ordered(intents, k), Ordered(effects, k);
    if r.Matched? {
      OppositeAt(intents, effects, k, i, r.intent, r.effect);
    } else if r.Unobserved? && i < |es| {
      OppositeAt(intents, effects, k, i, r.intent, es[i]);
    } else if r.Unreported? && i < |ins| {
      OppositeAt(intents, effects, k, i, ins[i], r.effect);
    } else if r.Unreported? {
      forall a ensures !Opposite(intents, effects, a, r.effect) {
        OppositeAt(intents, effects, k, i, a, r.effect);
      }
    }
  }

  lemma {:induction false} InPair(ins: seq<Action>, es: seq<Action>, n: nat, r: Row)
    ensures r in Pair(ins, es, n) <==> exists i: nat :: i < n && r in PairAt(ins, es, i)
  {
    hide PairAt;
    if n > 0 {
      InPair(ins, es, n - 1, r);
    }
  }

  lemma {:induction false} InRows(intents: seq<Action>, effects: seq<Action>, keys: seq<string>, r: Row)
    ensures r in RowsOf(intents, effects, keys) <==>
      exists k, i: nat :: k in keys && r in PairAt(Ordered(intents, k), Ordered(effects, k), i)
  {
    if keys != [] {
      var front, k := keys[..|keys| - 1], keys[|keys| - 1];
      assert keys == front + [k];
      InRows(intents, effects, front, r);
      var ins, es := Ordered(intents, k), Ordered(effects, k);
      InPair(ins, es, Max(|ins|, |es|), r);
      assert forall i: nat :: r in PairAt(ins, es, i) ==> i < Max(|ins|, |es|);
      hide PairAt, Ordered, Pair, Max;
    }
  }

  /** The rows are exactly these: matched, an intent and an effect with the same key
      and the same place among the actions of that key, both deletions or neither;
      unobserved, an intent without such an effect; unreported, an effect without such
      an intent, a clash exactly if an intent has its place. */
  lemma RowsExactly(intents: seq<Action>, effects: seq<Action>, known: bool, r: Result, row: Row)
    requires IsMatch(intents, effects, known, r) && r.Rows?
    ensures row in r.rows <==> Means(intents, effects, row)
  {
    hide Means, PairAt, Ordered, Key;
    var keys :| KeysOf(intents, effects, keys) && r.rows == RowsOf(intents, effects, keys);
    InRows(intents, effects, keys, row);
    if row in r.rows {
      var k, i: nat :| k in keys && row in PairAt(Ordered(intents, k), Ordered(effects, k), i);
      PairAtMeans(intents, effects, k, i, row);
    }
    if Means(intents, effects, row) {
      var k, i := MeansPairAt(intents, effects, row);
    }
  }

  function KeyOf(r: Row): string {
    if r.Unreported? then Key(r.effect) else Key(r.intent)
  }

  function Place(intents: seq<Action>, effects: seq<Action>, r: Row): nat {
    if r.Unreported? then |Earlier(effects, r.effect)| else |Earlier(intents, r.intent)|
  }

  /** r comes before q: by key, then by place, the unobserved intent first. */
  predicate Before(intents: seq<Action>, effects: seq<Action>, r: Row, q: Row) {
    if KeyOf(r) != KeyOf(q) then StringLe(KeyOf(r), KeyOf(q))
    else
      var i, j := Place(intents, effects, r), Place(intents, effects, q);
      i < j || (i == j && r.Unobserved? && q.Unreported?)
  }

  ghost predicate InOrder(intents: seq<Action>, effects: seq<Action>, rows: seq<Row>) {
    forall i, j :: 0 <= i < j < |rows| ==> Before(intents, effects, rows[i], rows[j])
  }

  lemma InOrderConcat(intents: seq<Action>, effects: seq<Action>, a: seq<Row>, b: seq<Row>)
    requires InOrder(intents, effects, a) && InOrder(intents, effects, b)
    requires forall r, q :: r in a && q in b ==> Before(intents, effects, r, q)
    ensures InOrder(intents, effects, a + b)
  {
    hide Before;
  }

  lemma PairAtInOrder(intents: seq<Action>, effects: seq<Action>, k: string, i: nat)
    requires Identified(intents) && Identified(effects)
    ensures var rows := PairAt(Ordered(intents, k), Ordered(effects, k), i);
      && InOrder(intents, effects, rows)
      && forall r :: r in rows ==> KeyOf(r) == k && Place(intents, effects, r) == i
  {
    hide Ordered, Key, Identified, Earlier, Compatible;
    if i < |Ordered(intents, k)| { OrderedAt(intents, k, i); }
    if i < |Ordered(effects, k)| { OrderedAt(effects, k, i); }
  }

  lemma {:induction false} PairInOrder(intents: seq<Action>, effects: seq<Action>, k: string, n: nat)
    requires Identified(intents) && Identified(effects)
    ensures var rows := Pair(Ordered(intents, k), Ordered(effects, k), n);
      && InOrder(intents, effects, rows)
      && forall r :: r in rows ==> KeyOf(r) == k && Place(intents, effects, r) < n
  {
    hide Ordered, Identified, PairAt, KeyOf, Place, InOrder;
    if n > 0 {
      var ins, es := Ordered(intents, k), Ordered(effects, k);
      PairInOrder(intents, effects, k, n - 1);
      PairAtInOrder(intents, effects, k, n - 1);
      InOrderConcat(intents, effects, Pair(ins, es, n - 1), PairAt(ins, es, n - 1));
    } else {
      NoneInOrder(intents, effects);
    }
  }

  lemma NoneInOrder(intents: seq<Action>, effects: seq<Action>)
    ensures InOrder(intents, effects, [])
  {
  }

  lemma {:induction false} RowsOfInOrder(intents: seq<Action>, effects: seq<Action>, keys: seq<string>)
    requires Identified(intents) && Identified(effects) && Distinct(keys) && Sorted(StringLe, keys)
    ensures InOrder(intents, effects, RowsOf(intents, effects, keys))
    ensures forall r :: r in RowsOf(intents, effects, keys) ==> KeyOf(r) in keys
  {
    hide Ordered, Identified, Pair, KeyOf, Place, InOrder, StringLe;
    if keys != [] {
      var front, k := keys[..|keys| - 1], keys[|keys| - 1];
      RowsOfInOrder(intents, effects, front);
      var ins, es := Ordered(intents, k), Ordered(effects, k);
      PairInOrder(intents, effects, k, Max(|ins|, |es|));
      assert forall j :: j in front ==> j != k && StringLe(j, k);
      InOrderConcat(intents, effects, RowsOf(intents, effects, front), PairAll(ins, es));
    } else {
      NoneInOrder(intents, effects);
    }
  }

  /** The rows come by key, then by place; at one place an unobserved intent comes
      before an unreported effect, and nothing else shares a place. */
  lemma RowsInOrder(intents: seq<Action>, effects: seq<Action>, known: bool, r: Result)
    requires IsMatch(intents, effects, known, r) && r.Rows?
    ensures InOrder(intents, effects, r.rows)
  {
    hide InOrder, RowsOf, Identified;
    var keys :| KeysOf(intents, effects, keys) && r.rows == RowsOf(intents, effects, keys);
    RowsOfInOrder(intents, effects, keys);
  }

  predicate SamePlace(a: Action, b: Action) {
    a.span == b.span && a.path == b.path
  }

  /** A NUL in a's span stands where b's span ends, and b's path starts with the rest. */
  predicate Shifted(a: Action, b: Action) {
    var n := |b.span|;
    n < |a.span| && a.span[..n] == b.span && a.span[n] == '\0' && b.path == a.span[n + 1..] + "\0" + a.path
  }

  /** Exactly when two actions share a key. */
  lemma KeysAgree(a: Action, b: Action)
    ensures Key(a) == Key(b) <==> SamePlace(a, b) || Shifted(a, b) || Shifted(b, a)
  {
    if Key(a) == Key(b) {
      if |a.span| <= |b.span| {
        KeyShifts(b, a);
      } else {
        KeyShifts(a, b);
      }
    }
    if Shifted(a, b) {
      ShiftedKey(a, b);
    }
    if Shifted(b, a) {
      ShiftedKey(b, a);
    }
  }

  lemma KeyShifts(a: Action, b: Action)
    requires Key(a) == Key(b) && |b.span| <= |a.span|
    ensures SamePlace(a, b) || Shifted(a, b)
  {
    var k, n := Key(a), |b.span|;
    assert a.span == k[..|a.span|] && b.span == k[..n];
    assert a.path == k[|a.span| + 1..] && b.path == k[n + 1..];
    if n < |a.span| {
      assert a.span[..n] == b.span && k[n] == '\0' && a.span[n] == k[n];
      assert k[n + 1..] == a.span[n + 1..] + "\0" + a.path;
    }
  }

  lemma ShiftedKey(a: Action, b: Action)
    requires Shifted(a, b)
    ensures Key(a) == Key(b)
  {
    var n := |b.span|;
    assert a.span == b.span + "\0" + a.span[n + 1..];
    assert Key(a) == b.span + "\0" + a.span[n + 1..] + "\0" + a.path;
    assert Key(b) == b.span + "\0" + a.span[n + 1..] + "\0" + a.path;
  }

  /** The spans, or the paths, hold no NUL; canonical paths never do. */
  ghost predicate NulFree(xs: seq<Action>) {
    || (forall x :: x in xs ==> '\0' !in x.path)
    || (forall x :: x in xs ==> '\0' !in x.span)
  }

  /** Among such actions the key tells span and path apart. */
  lemma KeyInjective(xs: seq<Action>, a: Action, b: Action)
    requires NulFree(xs) && a in xs && b in xs
    ensures Key(a) == Key(b) <==> SamePlace(a, b)
  {
    hide Key;
    KeysAgree(a, b);
  }

  /** With a NUL in a span and in a path, actions of different spans and paths share
      a group. */
  lemma NulConfuses(a: Action, b: Action)
    requires a.span == "s\0t" && a.path == "u" && b.span == "s" && b.path == "t\0u"
    ensures Key(a) == Key(b) && !SamePlace(a, b) && Shifted(a, b)
  {
    ShiftedKey(a, b);
  }

  // ---------- the order of the inputs does not matter ----------

  lemma IdentifiedDistinct(xs: seq<Action>)
    requires Identified(xs)
    ensures Distinct(xs)
  {
  }

  lemma IdentifiedForgets(xs: seq<Action>, ys: seq<Action>)
    requires Identified(xs) && multiset(xs) == multiset(ys)
    ensures Identified(ys)
  {
    hide Key;
    IdentifiedDistinct(xs);
    SameElements(xs, ys);
    forall i, j | 0 <= i < j < |ys| ensures Key(ys[i]) != Key(ys[j]) || ys[i].seqNo != ys[j].seqNo {
      if ys[i] == ys[j] {
        TwiceCounts(ys, i, j);
        OccursOnce(xs, ys[i]);
      } else {
        assert ys[i] in xs && ys[j] in xs;
      }
    }
  }

  lemma OrderedForgets(xs: seq<Action>, ys: seq<Action>, k: string)
    requires Identified(xs) && multiset(xs) == multiset(ys)
    ensures Ordered(xs, k) == Ordered(ys, k)
  {
    SeqOrder();
    forall x ensures multiset(Group(xs, k))[x] == multiset(Group(ys, k))[x] {
      GroupCounts(xs, k, x);
      GroupCounts(ys, k, x);
    }
    forall x, y | x in Group(xs, k) && y in Group(xs, k) && SeqLe(x, y) && SeqLe(y, x) ensures x == y {
      GroupKeys(xs, k, x);
      GroupKeys(xs, k, y);
    }
    SortForgets(SeqLe, Group(xs, k), Group(ys, k));
  }

  lemma {:induction false} RowsForget(xs: seq<Action>, ys: seq<Action>, es: seq<Action>, fs: seq<Action>, keys: seq<string>)
    requires Identified(xs) && multiset(xs) == multiset(ys)
    requires Identified(es) && multiset(es) == multiset(fs)
    ensures RowsOf(xs, es, keys) == RowsOf(ys, fs, keys)
  {
    hide Ordered, PairAll, Identified;
    if keys != [] {
      RowsForget(xs, ys, es, fs, keys[..|keys| - 1]);
      OrderedForgets(xs, ys, keys[|keys| - 1]);
      OrderedForgets(es, fs, keys[|keys| - 1]);
    }
  }

  lemma KeysForget(xs: seq<Action>, ys: seq<Action>, es: seq<Action>, fs: seq<Action>, ks: seq<string>, js: seq<string>)
    requires multiset(xs) == multiset(ys) && multiset(es) == multiset(fs)
    requires KeysOf(xs, es, ks) && KeysOf(ys, fs, js)
    ensures ks == js
  {
    hide StringLe, Key, Sorted, Distinct;
    SameElements(xs, ys);
    SameElements(es, fs);
    forall k ensures k in ks <==> k in js {
    }
    StringsUnique(ks, js);
  }

  /** The outcome, rows and their order included, is the same for every arrangement
      of the intents and of the effects. */
  lemma MatchForgetsOrder(xs: seq<Action>, ys: seq<Action>, es: seq<Action>, fs: seq<Action>, known: bool, r: Result, q: Result)
    requires multiset(xs) == multiset(ys) && multiset(es) == multiset(fs)
    requires IsMatch(xs, es, known, r) && IsMatch(ys, fs, known, q)
    ensures r == q
  {
    hide Identified, KeysOf, RowsOf;
    assert |xs| == |multiset(xs)| == |ys|;
    if Identified(xs) { IdentifiedForgets(xs, ys); }
    if Identified(ys) { IdentifiedForgets(ys, xs); }
    if Identified(es) { IdentifiedForgets(es, fs); }
    if Identified(fs) { IdentifiedForgets(fs, es); }
    if r.Rows? {
      var ks :| KeysOf(xs, es, ks) && r.rows == RowsOf(xs, es, ks);
      var js :| KeysOf(ys, fs, js) && q.rows == RowsOf(ys, fs, js);
      KeysForget(xs, ys, es, fs, ks, js);
      RowsForget(xs, ys, es, fs, ks);
    }
  }

  /** When the match succeeds: every intent and every effect lies in exactly one
      row, and matched rows pair two deletions or two other changes whose keys agree,
      which means equal span and path as soon as all paths, or all spans, are free of
      NUL. */
  lemma MatchConserves(intents: seq<Action>, effects: seq<Action>, known: bool, r: Result)
    requires IsMatch(intents, effects, known, r) && r.Rows?
    ensures multiset(IntentsOf(r.rows)) == multiset(intents) && multiset(EffectsOf(r.rows)) == multiset(effects)
    ensures forall row :: row in r.rows && row.Matched? ==>
      && (row.intent.change == Deleted <==> row.effect.change == Deleted)
      && (SamePlace(row.intent, row.effect) || Shifted(row.intent, row.effect) || Shifted(row.effect, row.intent))
      && (NulFree(intents + effects) ==> SamePlace(row.intent, row.effect))
  {
    hide Identified, RowsOf, IntentsOf, EffectsOf, Key, SamePlace, Shifted, NulFree;
    var keys :| KeysOf(intents, effects, keys) && r.rows == RowsOf(intents, effects, keys);
    EachInOneRow(intents, effects, keys);
    RowsSound(intents, effects, keys);
    forall row | row in r.rows && row.Matched?
      ensures row.intent.change == Deleted <==> row.effect.change == Deleted
      ensures SamePlace(row.intent, row.effect) || Shifted(row.intent, row.effect) || Shifted(row.effect, row.intent)
      ensures NulFree(intents + effects) ==> SamePlace(row.intent, row.effect)
    {
      assert Sound(intents, effects, row);
      KeysAgree(row.intent, row.effect);
      if NulFree(intents + effects) {
        KeyInjective(intents + effects, row.intent, row.effect);
      }
    }
  }

  // ---------- the code ----------

  ghost predicate HasKey(xs: seq<Action>, k: string) {
    exists x :: x in xs && Key(x) == k
  }

  /** groups holds the group of every key that occurs. */
  ghost predicate Grouped(xs: seq<Action>, groups: map<string, seq<Action>>) {
    && (forall k :: k in groups <==> HasKey(xs, k))
    && (forall k :: k in groups ==> groups[k] == Group(xs, k))
  }

  ghost predicate Seen(xs: seq<Action>, seen: set<(string, int)>) {
    forall k, n :: (k, n) in seen <==> exists x :: x in xs && Key(x) == k && x.seqNo == n
  }

  method Collect(xs: seq<Action>) returns (ok: bool, groups: map<string, seq<Action>>)
    ensures ok <==> Identified(xs)
    ensures ok ==> Grouped(xs, groups)
  {
    hide Key, Grouped, Seen, Identified;
    groups := map[];
    var seen: set<(string, int)> := {};
    NothingYet(xs[..0]);
    for i := 0 to |xs|
      invariant Identified(xs[..i]) && Seen(xs[..i], seen) && Grouped(xs[..i], groups)
    {
      var x := xs[i];
      assert xs[..i + 1] == xs[..i] + [x];
      var k := Key(x);
      SeenSnoc(xs[..i], x, seen);
      if (k, x.seqNo) in seen {
        PrefixIdentified(xs, i + 1);
        return false, groups;
      }
      seen := seen + {(k, x.seqNo)};
      GroupedSnoc(xs[..i], x, groups);
      groups := groups[k := (if k in groups then groups[k] else []) + [x]];
    }
    assert xs[..|xs|] == xs;
    return true, groups;
  }

  lemma NothingYet(xs: seq<Action>)
    requires xs == []
    ensures Identified(xs) && Seen(xs, {}) && Grouped(xs, map[])
  {
  }

  lemma PrefixIdentified(xs: seq<Action>, n: nat)
    requires n <= |xs|
    ensures Identified(xs) ==> Identified(xs[..n])
  {
    hide Key;
  }

  lemma SeenSnoc(xs: seq<Action>, x: Action, seen: set<(string, int)>)
    requires Identified(xs) && Seen(xs, seen)
    ensures Identified(xs + [x]) <==> (Key(x), x.seqNo) !in seen
    ensures Seen(xs + [x], seen + {(Key(x), x.seqNo)})
  {
    hide Key;
    var more := xs + [x];
    assert forall y :: y in more <==> y in xs || y == x;
    assert more[|xs|] == x;
    if (Key(x), x.seqNo) in seen {
      var y :| y in xs && Key(y) == Key(x) && y.seqNo == x.seqNo;
      var i :| 0 <= i < |xs| && xs[i] == y;
      assert more[i] == y;
    }
  }

  lemma GroupedSnoc(xs: seq<Action>, x: Action, groups: map<string, seq<Action>>)
    requires Grouped(xs, groups)
    ensures Grouped(xs + [x], groups[Key(x) := (if Key(x) in groups then groups[Key(x)] else []) + [x]])
  {
    hide Key;
    var more := xs + [x];
    assert more[..|xs|] == xs;
    assert forall y :: y in more <==> y in xs || y == x;
    forall k ensures HasKey(more, k) <==> HasKey(xs, k) || k == Key(x) {
      if k == Key(x) {
        assert x in more;
      }
    }
    if Key(x) !in groups {
      NoGroup(xs, Key(x));
    }
  }

  lemma {:induction false} NoGroup(xs: seq<Action>, k: string)
    requires !HasKey(xs, k)
    ensures Group(xs, k) == []
  {
    if xs != [] {
      assert xs[|xs| - 1] in xs;
      assert forall y :: y in xs[..|xs| - 1] ==> y in xs;
      NoGroup(xs[..|xs| - 1], k);
    }
  }

  /** The keys in whatever order the maps yield them, then sorted. */
  method SortedKeys(keys: set<string>) returns (out: seq<string>)
    ensures Distinct(out) && Sorted(StringLe, out) && forall k :: k in out <==> k in keys
  {
    var rest := keys;
    out := [];
    while rest != {}
      invariant rest <= keys && Distinct(out)
      invariant forall k :: k in out <==> k in keys && k !in rest
    {
      var k :| k in rest;
      out := out + [k];
      rest := rest - {k};
    }
    SortStrings(out);
    out := Sort(StringLe, out);
  }

  method PairGroups(ins: seq<Action>, es: seq<Action>) returns (rows: seq<Row>)
    ensures rows == PairAll(ins, es)
  {
    hide Pair, PairAt;
    var n := |ins|;
    if |es| > n {
      n := |es|;
    }
    rows := [];
    NoPairs(ins, es);
    for i := 0 to n
      invariant rows == Pair(ins, es, i)
    {
      PairOn(ins, es, i);
      var left: seq<Row>, right: seq<Row> := [], [];
      if i < |ins| && i < |es| && Compatible(ins[i].change, es[i].change) {
        rows := rows + [Matched(ins[i], es[i])];
        continue;
      }
      if i < |ins| {
        left := [Unobserved(ins[i])];
      }
      if i < |es| {
        right := [Unreported(es[i], i < |ins|)];
      }
      rows := rows + (left + right);
    }
  }

  lemma NoPairs(ins: seq<Action>, es: seq<Action>)
    ensures Pair(ins, es, 0) == []
  {
  }

  lemma PairOn(ins: seq<Action>, es: seq<Action>, i: nat)
    ensures Pair(ins, es, i + 1) == Pair(ins, es, i)
      + if i < |ins| && i < |es| && Compatible(ins[i].change, es[i].change) then [Matched(ins[i], es[i])]
        else (if i < |ins| then [Unobserved(ins[i])] else []) + (if i < |es| then [Unreported(es[i], i < |ins|)] else [])
  {
    hide Compatible;
  }

  method Match(intents: seq<Action>, effects: seq<Action>, netChangesKnown: bool) returns (r: Result)
    ensures IsMatch(intents, effects, netChangesKnown, r)
  {
    hide Key, Identified, Group, PairAll;
    if !netChangesKnown && |intents| > 0 {
      return Incomplete;
    }
    var okI, groupsI := Collect(intents);
    if !okI {
      return Ambiguous;
    }
    var okE, groupsE := Collect(effects);
    if !okE {
      return Ambiguous;
    }
    var keys := SortedKeys(groupsI.Keys + groupsE.Keys);
    assert KeysOf(intents, effects, keys) by {
      KeysAreAll(intents, effects, groupsI, groupsE, keys);
    }
    var rows: seq<Row> := [];
    for i := 0 to |keys|
      invariant rows == RowsOf(intents, effects, keys[..i])
    {
      var k := keys[i];
      assert keys[..i + 1][..i] == keys[..i];
      var ins := Sort(SeqLe, if k in groupsI then groupsI[k] else []);
      var es := Sort(SeqLe, if k in groupsE then groupsE[k] else []);
      GroupOf(intents, groupsI, k);
      GroupOf(effects, groupsE, k);
      var more := PairGroups(ins, es);
      rows := rows + more;
    }
    assert keys[..|keys|] == keys;
    return Rows(rows);
  }

  lemma GroupOf(xs: seq<Action>, groups: map<string, seq<Action>>, k: string)
    requires Grouped(xs, groups)
    ensures Group(xs, k) == if k in groups then groups[k] else []
  {
    hide Key, Group;
    if k !in groups {
      NoGroup(xs, k);
    }
  }

  lemma KeysAreAll(intents: seq<Action>, effects: seq<Action>, groupsI: map<string, seq<Action>>,
                   groupsE: map<string, seq<Action>>, keys: seq<string>)
    requires Grouped(intents, groupsI) && Grouped(effects, groupsE)
    requires Distinct(keys) && Sorted(StringLe, keys) && forall k :: k in keys <==> k in groupsI.Keys + groupsE.Keys
    ensures KeysOf(intents, effects, keys)
  {
    hide Key, Group, Distinct, Sorted;
    forall x | x in intents || x in effects ensures Key(x) in keys {
      assert HasKey(intents, Key(x)) || HasKey(effects, Key(x));
    }
    forall k | k in keys ensures exists x :: (x in intents || x in effects) && Key(x) == k {
      assert HasKey(intents, k) || HasKey(effects, k);
    }
  }
}
