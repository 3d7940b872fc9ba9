/**
  What the secret redactor of the process broker promises, position by position.

  A byte of a payload is covered when some occurrence of some secret contains it.
  The reference redactor prints every byte that is not covered and one marker
  for every maximal run of covered bytes. Nothing here mentions intervals,
  tails or chunks: those belong to the code in RedactionCode.dfy and to the
  streaming argument in RedactionStream.dfy.
*/
module Redaction {
  import opened Octets

  datatype Token = Plain(b: Byte) | Marker

  predicate OccursAt(p: Bytes, s: Bytes, i: int) {
    0 <= i && i + |s| <= |p| && p[i..i + |s|] == s
  }

  ghost predicate Covered(p: Bytes, secrets: seq<Bytes>, k: int) {
    exists s, i :: s in secrets && OccursAt(p, s, i) && i <= k < i + |s|
  }

  ghost function Mask(p: Bytes, secrets: seq<Bytes>): (m: seq<bool>)
    ensures |m| == |p|
    ensures forall k :: 0 <= k < |p| ==> (m[k] <==> Covered(p, secrets, k))
  {
    seq(|p|, k requires 0 <= k < |p| => Covered(p, secrets, k))
  }

  /** What position k contributes to the output. */
  function TokenAt(p: Bytes, m: seq<bool>, k: nat): seq<Token>
    requires k < |p| == |m|
  {
    if !m[k] then [Plain(p[k])]
    else if k == 0 || !m[k - 1] then [Marker]
    else []
  }

  /** The output for the positions from lo up to hi. */
  function Render(p: Bytes, m: seq<bool>, lo: nat, hi: nat): seq<Token>
    requires hi <= |p| == |m|
  {
    if hi <= lo then [] else Render(p, m, lo, hi - 1) + TokenAt(p, m, hi - 1)
  }

  /** The one-shot redactor's meaning. */
  ghost function OneShot(p: Bytes, secrets: seq<Bytes>): seq<Token> {
    Render(p, Mask(p, secrets), 0, |p|)
  }

  /** The bytes of p that no secret occurrence contains, in order. */
  ghost function Visible(p: Bytes, m: seq<bool>, n: nat): Bytes
    requires n <= |p| == |m|
  {
    if n == 0 then [] else Visible(p, m, n - 1) + (if m[n - 1] then [] else [p[n - 1]])
  }

  /** Drop the markers. */
  function Erase(ts: seq<Token>): Bytes {
    if ts == [] then []
    else Erase(ts[..|ts| - 1]) + (if ts[|ts| - 1].Marker? then [] else [ts[|ts| - 1].b])
  }

  /** Merge neighbouring markers into one. */
  function Collapse(ts: seq<Token>): seq<Token> {
    if ts == [] then []
    else Push(Collapse(ts[..|ts| - 1]), ts[|ts| - 1])
  }

  function Push(r: seq<Token>, t: Token): seq<Token> {
    if t.Marker? && r != [] && r[|r| - 1].Marker? then r else r + [t]
  }

  function Plains(b: Bytes): seq<Token> {
    seq(|b|, i requires 0 <= i < |b| => Plain(b[i]))
  }

  // ---------- facts about rendering ----------

  /** A stretch of bytes that are not covered is printed as it stands. */
  lemma {:induction false} RenderPlain(p: Bytes, m: seq<bool>, lo: nat, a: nat, b: nat)
    requires lo <= a <= b <= |p| == |m|
    requires forall k :: a <= k < b ==> !m[k]
    ensures Render(p, m, lo, b) == Render(p, m, lo, a) + Plains(p[a..b])
  {
    hide Plains;
    if a < b {
      RenderPlain(p, m, lo, a, b - 1);
      PlainsSnoc(p, a, b);
    } else {
      PlainsNone(p[a..b]);
    }
  }

  lemma PlainsSnoc(p: Bytes, a: nat, b: nat)
    requires a < b <= |p|
    ensures Plains(p[a..b]) == Plains(p[a..b - 1]) + [Plain(p[b - 1])]
  {
  }

  lemma PlainsNone(p: Bytes)
    requires p == []
    ensures Plains(p) == []
  {
  }

  /** A covered stretch that continues an earlier covered byte prints nothing. */
  lemma {:induction false} RenderRunRest(p: Bytes, m: seq<bool>, lo: nat, a: nat, b: nat)
    requires a <= b <= |p| == |m|
    requires a < b ==> 0 < a && m[a - 1]
    requires forall k :: a <= k < b ==> m[k]
    ensures Render(p, m, lo, b) == Render(p, m, lo, a)
  {
    if a < b {
      RenderRunRest(p, m, lo, a, b - 1);
      assert m[b - 1] && m[b - 2];
    }
  }

  /** After a covered byte the output ends with that byte's marker. */
  lemma {:induction false} RenderEndsWithMarker(p: Bytes, m: seq<bool>, k: nat)
    requires 0 < k <= |p| == |m| && m[k - 1]
    ensures Render(p, m, 0, k) != [] && Render(p, m, 0, k)[|Render(p, m, 0, k)| - 1].Marker?
  {
    if 1 < k && m[k - 2] {
      RenderEndsWithMarker(p, m, k - 1);
    }
  }

  lemma {:induction false} EraseConcat(a: seq<Token>, b: seq<Token>)
    ensures Erase(a + b) == Erase(a) + Erase(b)
  {
    if b == [] {
      assert a + b == a;
    } else {
      EraseConcat(a, b[..|b| - 1]);
      assert (a + b)[..|a + b| - 1] == a + b[..|b| - 1];
    }
  }

  lemma {:induction false} ErasePush(r: seq<Token>, t: Token)
    ensures Erase(Push(r, t)) == Erase(r + [t])
  {
    assert (r + [t])[..|r|] == r;
  }

  lemma {:induction false} EraseCollapse(ts: seq<Token>)
    ensures Erase(Collapse(ts)) == Erase(ts)
  {
    if ts != [] {
      var front := ts[..|ts| - 1];
      EraseCollapse(front);
      ErasePush(Collapse(front), ts[|ts| - 1]);
      EraseConcat(Collapse(front), [ts[|ts| - 1]]);
      EraseConcat(front, [ts[|ts| - 1]]);
      assert ts == front + [ts[|ts| - 1]];
    }
  }

  lemma EraseToken(p: Bytes, m: seq<bool>, k: nat)
    requires k < |p| == |m|
    ensures Erase(TokenAt(p, m, k)) == if m[k] then [] else [p[k]]
  {
  }

  /** The reference output shows exactly the bytes no secret contains. */
  lemma {:induction false} EraseRender(p: Bytes, m: seq<bool>, hi: nat)
    requires hi <= |p| == |m|
    ensures Erase(Render(p, m, 0, hi)) == Visible(p, m, hi)
  {
    hide TokenAt, Erase;
    if 0 < hi {
      EraseRender(p, m, hi - 1);
      EraseConcat(Render(p, m, 0, hi - 1), TokenAt(p, m, hi - 1));
      EraseToken(p, m, hi - 1);
    } else {
      EraseNothing();
    }
  }

  lemma EraseNothing()
    ensures Erase([]) == []
  {
  }

  lemma CollapseSnoc(ts: seq<Token>, t: Token)
    ensures Collapse(ts + [t]) == Push(Collapse(ts), t)
  {
    assert (ts + [t])[..|ts|] == ts;
  }
}
