/**
  The redactor as the process broker runs it: it collects the intervals of all
  secret occurrences, sorts and merges them, and walks the merged groups. Each
  method is proved against the position-wise meaning in Redaction.dfy and the
  streaming functions in RedactionStream.dfy.
*/
module RedactionCode {
  import opened Octets
  import opened Redaction
  import opened RedactionStream
  import opened Sorting

  datatype Interval = Interval(start: nat, end: nat)

  /** k lies in one of the intervals. */
  ghost predicate InSome(ivs: seq<Interval>, k: int) {
    exists i :: 0 <= i < |ivs| && ivs[i].start <= k < ivs[i].end
  }

  predicate Proper(ivs: seq<Interval>) {
    forall i :: 0 <= i < |ivs| ==> ivs[i].start < ivs[i].end
  }

  /** The groups are the maximal runs of m, from left to right. */
  ghost predicate AreRuns(groups: seq<Interval>, m: seq<bool>) {
    && Proper(groups)
    && (forall i, j :: 0 <= i < j < |groups| ==> groups[i].end < groups[j].start)
    && (forall i :: 0 <= i < |groups| ==> groups[i].end <= |m|)
    && (forall k :: 0 <= k < |m| ==> (m[k] <==> InSome(groups, k)))
  }

  // ---------- collecting the occurrences ----------

  method Index(p: Bytes, s: Bytes, from: nat) returns (at: int)
    requires from <= |p|
    ensures at < 0 ==> forall i :: from <= i ==> !OccursAt(p, s, i)
    ensures 0 <= at ==> from <= at && OccursAt(p, s, at) && forall i :: from <= i < at ==> !OccursAt(p, s, i)
  {
    var i := from;
    while i + |s| <= |p|
      invariant from <= i
      invariant forall j :: from <= j < i ==> !OccursAt(p, s, j)
    {
      if p[i..i + |s|] == s {
        return i;
      }
      i := i + 1;
    }
    return -1;
  }

  ghost predicate IsOccurrence(p: Bytes, secrets: seq<Bytes>, iv: Interval) {
    exists s :: s in secrets && s != [] && OccursAt(p, s, iv.start) && iv.end == iv.start + |s|
  }

  /** Every occurrence of every non-empty secret, overlapping ones included. */
  method FindIntervals(p: Bytes, secrets: seq<Bytes>) returns (ivs: seq<Interval>)
    ensures forall iv :: iv in ivs ==> IsOccurrence(p, secrets, iv)
    ensures forall s, i :: s in secrets && s != [] && OccursAt(p, s, i) ==> Interval(i, i + |s|) in ivs
  {
    ivs := [];
    for n := 0 to |secrets|
      invariant forall iv :: iv in ivs ==> IsOccurrence(p, secrets, iv)
      invariant forall s, i :: s in secrets[..n] && s != [] && OccursAt(p, s, i) ==> Interval(i, i + |s|) in ivs
    {
      var found := FindOne(p, secrets[n]);
      ivs := ivs + found;
    }
  }

  method FindOne(p: Bytes, s: Bytes) returns (ivs: seq<Interval>)
    ensures forall iv :: iv in ivs ==> s != [] && OccursAt(p, s, iv.start) && iv.end == iv.start + |s|
    ensures s != [] ==> forall i :: OccursAt(p, s, i) ==> Interval(i, i + |s|) in ivs
  {
    ivs := [];
    if s == [] {
      return;
    }
    var from := 0;
    while from + |s| <= |p|
      invariant from <= |p|
      invariant forall iv :: iv in ivs ==> OccursAt(p, s, iv.start) && iv.end == iv.start + |s|
      invariant forall i :: i < from && OccursAt(p, s, i) ==> Interval(i, i + |s|) in ivs
    {
      var at := Index(p, s, from);
      if at < 0 {
        break;
      }
      ivs := ivs + [Interval(at, at + |s|)];
      from := at + 1;
    }
  }

  // ---------- sorting and merging ----------

  /** By start, longer intervals first. */
  predicate Before(a: Interval, b: Interval) {
    a.start < b.start || (a.start == b.start && a.end >= b.end)
  }

  method SortIntervals(ivs: seq<Interval>) returns (r: seq<Interval>)
    requires Proper(ivs)
    ensures Proper(r) && forall i, j :: 0 <= i < j < |r| ==> r[i].start <= r[j].start
    ensures forall k :: InSome(r, k) <==> InSome(ivs, k)
  {
    r := Sort(Before, ivs);
    SortSorts(Before, ivs);
    SamePositions(ivs, r);
    assert forall i, j :: 0 <= i < j < |r| ==> Before(r[i], r[j]);
  }

  /** Overlapping and touching intervals become one group. */
  method MergeIntervals(ivs: seq<Interval>) returns (merged: seq<Interval>)
    requires Proper(ivs)
    ensures Proper(merged)
    ensures forall i, j :: 0 <= i < j < |merged| ==> merged[i].end < merged[j].start
    ensures forall k :: InSome(merged, k) <==> InSome(ivs, k)
  {
    var sorted := SortIntervals(ivs);
    merged := [];
    for n := 0 to |sorted|
      invariant Proper(merged)
      invariant forall i, j :: 0 <= i < j < |merged| ==> merged[i].end < merged[j].start
      invariant merged == [] <==> n == 0
      invariant 0 < n ==> merged[|merged| - 1].start <= sorted[n - 1].start
      invariant forall k :: InSome(merged, k) <==> InSome(sorted[..n], k)
    {
      var iv := sorted[n];
      ghost var before := merged;
      assert sorted[..n + 1] == sorted[..n] + [iv];
      if merged == [] || iv.start > merged[|merged| - 1].end {
        merged := merged + [iv];
        AppendPositions(before, iv);
      } else if iv.end > merged[|merged| - 1].end {
        merged := merged[|merged| - 1 := merged[|merged| - 1].(end := iv.end)];
        GrowPositions(before, iv);
      } else {
        GrowPositions(before, iv);
      }
      AppendPositions(sorted[..n], iv);
    }
    assert sorted[..|sorted|] == sorted;
  }

  lemma SamePositions(a: seq<Interval>, b: seq<Interval>)
    requires multiset(a) == multiset(b)
    ensures forall k :: InSome(a, k) <==> InSome(b, k)
    ensures Proper(a) ==> Proper(b)
  {
    forall iv ensures iv in a <==> iv in b {
      assert iv in a <==> iv in multiset(a);
      assert iv in b <==> iv in multiset(b);
    }
    forall k | InSome(a, k) ensures InSome(b, k) {
      var i :| 0 <= i < |a| && a[i].start <= k < a[i].end;
      assert a[i] in b;
    }
    forall k | InSome(b, k) ensures InSome(a, k) {
      var i :| 0 <= i < |b| && b[i].start <= k < b[i].end;
      assert b[i] in a;
    }
    if Proper(a) {
      forall i | 0 <= i < |b| ensures b[i].start < b[i].end {
        assert b[i] in a;
      }
    }
  }

  lemma AppendPositions(a: seq<Interval>, iv: Interval)
    ensures forall k :: InSome(a + [iv], k) <==> InSome(a, k) || iv.start <= k < iv.end
  {
    var b := a + [iv];
    forall k ensures InSome(b, k) <==> InSome(a, k) || iv.start <= k < iv.end {
      if InSome(a, k) {
        var i :| 0 <= i < |a| && a[i].start <= k < a[i].end;
        assert b[i] == a[i];
      }
      if iv.start <= k < iv.end {
        assert b[|a|] == iv;
      }
    }
  }

  /** Widening the last group by an interval that touches it adds that interval. */
  lemma GrowPositions(a: seq<Interval>, iv: Interval)
    requires a != [] && Proper(a) && a[|a| - 1].start <= iv.start <= a[|a| - 1].end
    ensures
      var last := |a| - 1;
      var b := if iv.end > a[last].end then a[last := a[last].(end := iv.end)] else a;
      forall k :: InSome(b, k) <==> InSome(a, k) || iv.start <= k < iv.end
  {
    var last := |a| - 1;
    var b := if iv.end > a[last].end then a[last := a[last].(end := iv.end)] else a;
    forall k ensures InSome(b, k) <==> InSome(a, k) || iv.start <= k < iv.end {
      if InSome(a, k) {
        var i :| 0 <= i < |a| && a[i].start <= k < a[i].end;
        assert b[i].start <= k < b[i].end;
      }
      if iv.start <= k < iv.end {
        assert b[last].start <= k < b[last].end;
      }
      if InSome(b, k) {
        var i :| 0 <= i < |b| && b[i].start <= k < b[i].end;
        assert i == last || b[i] == a[i];
      }
    }
  }

  /** The occurrences, merged, are the maximal runs of covered bytes. */
  method Groups(p: Bytes, secrets: seq<Bytes>) returns (groups: seq<Interval>)
    ensures AreRuns(groups, Mask(p, secrets))
  {
    var ivs := FindIntervals(p, secrets);
    assert Proper(ivs) by {
      forall i | 0 <= i < |ivs| ensures ivs[i].start < ivs[i].end {
        assert ivs[i] in ivs;
      }
    }
    groups := MergeIntervals(ivs);
    OccurrencesCover(p, secrets, ivs);
    GroupsInside(groups, ivs, |p|);
  }

  lemma OccurrencesCover(p: Bytes, secrets: seq<Bytes>, ivs: seq<Interval>)
    requires forall iv :: iv in ivs ==> IsOccurrence(p, secrets, iv)
    requires forall s, i :: s in secrets && s != [] && OccursAt(p, s, i) ==> Interval(i, i + |s|) in ivs
    ensures forall k :: InSome(ivs, k) <==> Covered(p, secrets, k)
    ensures forall i :: 0 <= i < |ivs| ==> ivs[i].end <= |p|
  {
    forall i | 0 <= i < |ivs| ensures ivs[i].end <= |p| {
      assert ivs[i] in ivs;
    }
    forall k | InSome(ivs, k) ensures Covered(p, secrets, k) {
      var i :| 0 <= i < |ivs| && ivs[i].start <= k < ivs[i].end;
      assert ivs[i] in ivs;
    }
    forall k | Covered(p, secrets, k) ensures InSome(ivs, k) {
      var s, i :| s in secrets && OccursAt(p, s, i) && i <= k < i + |s|;
      assert Interval(i, i + |s|) in ivs;
    }
  }

  lemma GroupsInside(groups: seq<Interval>, ivs: seq<Interval>, n: nat)
    requires Proper(groups) && forall k :: InSome(groups, k) <==> InSome(ivs, k)
    requires forall i :: 0 <= i < |ivs| ==> ivs[i].end <= n
    ensures forall i :: 0 <= i < |groups| ==> groups[i].end <= n
  {
    forall i | 0 <= i < |groups| ensures groups[i].end <= n {
      assert InSome(groups, groups[i].end - 1);
    }
  }

  // ---------- walking the groups ----------

  lemma InGroup(groups: seq<Interval>, m: seq<bool>, i: nat, k: nat)
    requires AreRuns(groups, m) && i < |groups| && groups[i].start <= k < groups[i].end
    ensures m[k]
  {
  }

  /** Between two groups nothing is covered. */
  lemma InGap(groups: seq<Interval>, m: seq<bool>, i: nat, k: nat)
    requires AreRuns(groups, m) && i <= |groups| && k < |m|
    requires 0 < i ==> groups[i - 1].end <= k
    requires i < |groups| ==> k < groups[i].start
    ensures !m[k]
  {
    forall j | 0 <= j < |groups| ensures !(groups[j].start <= k < groups[j].end) {
      if j < i - 1 {
        assert groups[j].end < groups[i - 1].start;
      } else if i < j {
        assert groups[i].end < groups[j].start;
      }
    }
  }

  function Min(a: nat, b: nat): nat {
    if a < b then a else b
  }

  /** The bytes between the cursor and the next group are printed as they stand. */
  lemma RenderGap(p: Bytes, groups: seq<Interval>, m: seq<bool>, i: nat, lo: nat, a: nat, b: nat)
    requires AreRuns(groups, m) && |m| == |p| && i <= |groups| && lo <= a <= b <= |p|
    requires 0 < i ==> groups[i - 1].end <= a
    requires i < |groups| ==> b <= groups[i].start
    ensures Render(p, m, lo, b) == Render(p, m, lo, a) + Plains(p[a..b])
  {
    forall k | a <= k < b ensures !m[k] {
      InGap(groups, m, i, k);
    }
    RenderPlain(p, m, lo, a, b);
  }

  /** A group that starts at or after lo prints one marker, however far it reaches. */
  lemma RenderGroup(p: Bytes, groups: seq<Interval>, m: seq<bool>, i: nat, lo: nat, hi: nat)
    requires AreRuns(groups, m) && |m| == |p| && i < |groups|
    requires lo <= groups[i].start < hi <= groups[i].end
    ensures Render(p, m, lo, hi) == Render(p, m, lo, groups[i].start) + [Marker]
  {
    var a := groups[i].start;
    forall k | a <= k < hi ensures m[k] {
      InGroup(groups, m, i, k);
    }
    if 0 < a {
      InGap(groups, m, i, a - 1);
    }
    assert Render(p, m, lo, a + 1) == Render(p, m, lo, a) + [Marker];
    RenderRunRest(p, m, lo, a + 1, hi);
  }

  /** A group that starts before lo prints nothing from lo on. */
  lemma {:induction false} RenderOldGroup(p: Bytes, groups: seq<Interval>, m: seq<bool>, i: nat, lo: nat, hi: nat)
    requires AreRuns(groups, m) && |m| == |p| && i < |groups|
    requires groups[i].start < lo && hi <= groups[i].end
    ensures Render(p, m, lo, hi) == []
  {
    if lo < hi {
      RenderOldGroup(p, groups, m, i, lo, hi - 1);
      InGroup(groups, m, i, hi - 1);
      InGroup(groups, m, i, hi - 2);
    }
  }

  /** The clamping of the bounds, as the code does it on signed integers. */
  function Clamp(x: int, hi: nat): nat {
    if x < 0 then 0 else if hi < x then hi else x
  }

  /** Redact through safeEnd, printing nothing for the first covered bytes. */
  method RedactIntervalsCovered(p: Bytes, secrets: seq<Bytes>, safeEnd: int, covered: int) returns (out: seq<Token>)
    ensures out == Render(p, Mask(p, secrets), Clamp(covered, |p|), Clamp(safeEnd, |p|))
  {
    var hi, lo := Clamp(safeEnd, |p|), Clamp(covered, |p|);
    if hi == 0 {
      return [];
    }
    var groups := Groups(p, secrets);
    out := WalkGroups(p, Mask(p, secrets), groups, hi, lo);
  }

  method WalkGroups(p: Bytes, ghost m: seq<bool>, groups: seq<Interval>, hi: nat, lo: nat) returns (out: seq<Token>)
    requires AreRuns(groups, m) && |m| == |p| && hi <= |p| && lo <= |p|
    ensures out == Render(p, m, lo, hi)
  {
    hide AreRuns, TokenAt;
    out := [];
    var pos := lo;
    var i := 0;
    while i < |groups| && groups[i].start < hi
      invariant i <= |groups| && lo <= pos <= |p|
      invariant i == 0 ==> pos == lo
      invariant 0 < i ==> groups[i - 1].end <= pos && (pos == lo || pos == groups[i - 1].end)
      invariant out == Render(p, m, lo, Min(pos, hi))
    {
      GroupFacts(groups, m, i);
      var iv := groups[i];
      if iv.start < lo {
        RenderOldGroup(p, groups, m, i, lo, Min(iv.end, hi));
        if iv.end > pos {
          pos := iv.end;
        }
      } else {
        RenderGap(p, groups, m, i, lo, pos, iv.start);
        RenderGroup(p, groups, m, i, lo, Min(iv.end, hi));
        if iv.start > pos {
          out := out + Plains(p[pos..iv.start]);
        }
        out := out + [Marker];
        pos := iv.end;
      }
      i := i + 1;
    }
    if pos < hi {
      RenderGap(p, groups, m, i, lo, pos, hi);
      out := out + Plains(p[pos..hi]);
    }
  }

  lemma GroupFacts(groups: seq<Interval>, m: seq<bool>, i: nat)
    requires AreRuns(groups, m) && i < |groups|
    ensures groups[i].start < groups[i].end <= |m|
    ensures 0 < i ==> groups[i - 1].end < groups[i].start
  {
  }

  // ---------- one chunk ----------

  /** The start of the group that reaches the safe end, or the safe end itself. */
  method ConsumedEnd(groups: seq<Interval>, ghost m: seq<bool>, safeEnd: nat) returns (consumed: nat)
    requires AreRuns(groups, m) && 0 < safeEnd <= |m|
    ensures consumed == Consumed(m, safeEnd)
  {
    for i := 0 to |groups|
      invariant forall j :: 0 <= j < i ==> groups[j].end < safeEnd
    {
      if groups[i].start >= safeEnd {
        InGap(groups, m, i, safeEnd - 1);
        return safeEnd;
      }
      if groups[i].end >= safeEnd {
        RunStartIs(groups, m, i, safeEnd - 1);
        return groups[i].start;
      }
    }
    InGap(groups, m, |groups|, safeEnd - 1);
    return safeEnd;
  }

  lemma {:induction false} RunStartIs(groups: seq<Interval>, m: seq<bool>, i: nat, k: nat)
    requires AreRuns(groups, m) && i < |groups| && groups[i].start <= k < groups[i].end
    ensures m[k] && RunStart(m, k) == groups[i].start
  {
    InGroup(groups, m, i, k);
    if groups[i].start < k {
      RunStartIs(groups, m, i, k - 1);
    } else if 0 < k {
      InGap(groups, m, i, k - 1);
    }
  }

  lemma {:induction false} RunEndIs(groups: seq<Interval>, m: seq<bool>, i: nat, k: nat)
    requires AreRuns(groups, m) && i < |groups| && groups[i].start <= k < groups[i].end
    ensures m[k] && RunEnd(m, k) == groups[i].end
    decreases groups[i].end - k
  {
    InGroup(groups, m, i, k);
    if k + 1 < groups[i].end {
      RunEndIs(groups, m, i, k + 1);
    } else if k + 1 < |m| {
      InGap(groups, m, i + 1, k + 1);
    }
  }

  /** How far the group cut at consumed + flush reaches beyond the cut. The groups
      are those of the bytes before the first consumed ones were removed. */
  method FlushedCover(groups: seq<Interval>, ghost m: seq<bool>, consumed: nat, flush: nat) returns (c: nat)
    requires AreRuns(groups, m) && consumed + flush <= |m| && 0 < flush
    requires 0 < consumed ==> !m[consumed - 1]
    ensures c == FlushCovered(m[consumed..], flush)
  {
    hide AreRuns, FlushCovered;
    c := 0;
    ghost var cut := consumed + flush;
    for i := 0 to |groups|
      invariant c == if Crossed(groups[..i], cut) then FlushCovered(m, cut) else 0
    {
      CrossedSnoc(groups, i, cut);
      var start, end := groups[i].start - consumed, groups[i].end - consumed;
      if start < 0 {
        start := 0;
      }
      if start < flush && end > flush {
        CutReaches(groups, m, i, cut);
        if end - flush > c {
          c := end - flush;
        }
      }
    }
    assert groups[..|groups|] == groups;
    if !Crossed(groups, cut) {
      NoGroupAcross(groups, m, cut);
    }
    ShiftFlush(m, consumed, flush);
  }

  /** A group reaches across the cut. */
  ghost predicate Crossed(groups: seq<Interval>, cut: nat) {
    exists g :: g in groups && g.start < cut < g.end
  }

  lemma CrossedSnoc(groups: seq<Interval>, i: nat, cut: nat)
    requires i < |groups|
    ensures Crossed(groups[..i + 1], cut) <==> Crossed(groups[..i], cut) || groups[i].start < cut < groups[i].end
  {
    assert groups[..i + 1] == groups[..i] + [groups[i]];
    assert groups[i] in groups[..i + 1];
  }

  lemma CutReaches(groups: seq<Interval>, m: seq<bool>, i: nat, cut: nat)
    requires AreRuns(groups, m) && i < |groups| && cut <= |m| && groups[i].start < cut < groups[i].end
    ensures FlushCovered(m, cut) == groups[i].end - cut
  {
    RunEndIs(groups, m, i, cut);
    InGroup(groups, m, i, cut - 1);
  }

  lemma NoGroupAcross(groups: seq<Interval>, m: seq<bool>, cut: nat)
    requires AreRuns(groups, m) && 0 < cut <= |m|
    requires !Crossed(groups, cut)
    ensures FlushCovered(m, cut) == 0
  {
    assert forall j :: 0 <= j < |groups| ==> groups[j] in groups;
    if cut < |m| && m[cut - 1] {
      var j :| 0 <= j < |groups| && groups[j].start <= cut - 1 < groups[j].end;
      InGap(groups, m, j + 1, cut);
    }
  }

  lemma {:induction false} ShiftRunEnd(m: seq<bool>, n: nat, k: nat)
    requires n + k < |m| && m[n + k]
    ensures RunEnd(m[n..], k) + n == RunEnd(m, n + k)
    decreases |m| - k
  {
    if n + k + 1 < |m| && m[n + k + 1] {
      ShiftRunEnd(m, n, k + 1);
    }
  }

  lemma ShiftFlush(m: seq<bool>, n: nat, flush: nat)
    requires n + flush <= |m| && 0 < flush
    ensures FlushCovered(m[n..], flush) == FlushCovered(m, n + flush)
  {
    if n + flush < |m| && m[n + flush] {
      ShiftRunEnd(m, n, flush);
    }
  }
}
