/**
  The streaming redactor as a function of its retained state, and the proof that
  cutting a stream into chunks does not change what is printed.

  The retained state of one stream is a suffix of the bytes seen so far and the
  length of a prefix of that suffix whose secret already has its marker.
*/
module RedactionStream {
  import opened Octets
  import opened Redaction

  const MAX_TAIL: nat := 65536

  datatype Tail = Tail(bytes: Bytes, covered: nat)

  datatype Fed = Fed(tail: Tail, out: seq<Token>, forced: bool)

  /** The secrets in force and the length of the longest of them. */
  datatype Config = Config(secrets: seq<Bytes>, maxLen: nat)

  predicate Bounded(cfg: Config) {
    0 < cfg.maxLen && forall s :: s in cfg.secrets ==> 0 < |s| <= cfg.maxLen
  }

  function RunStart(m: seq<bool>, k: nat): (r: nat)
    requires k < |m| && m[k]
    ensures r <= k && forall j :: r <= j <= k ==> m[j]
    ensures r == 0 || !m[r - 1]
  {
    if k == 0 || !m[k - 1] then k else RunStart(m, k - 1)
  }

  function RunEnd(m: seq<bool>, k: nat): (r: nat)
    requires k < |m| && m[k]
    ensures k < r <= |m| && forall j :: k <= j < r ==> m[j]
    ensures r == |m| || !m[r]
    decreases |m| - k
  {
    if k + 1 == |m| || !m[k + 1] then k + 1 else RunEnd(m, k + 1)
  }

  /** How far a chunk may be consumed: up to the safe end, or to the start of the
      covered run that reaches it. */
  function Consumed(m: seq<bool>, safeEnd: nat): (c: nat)
    requires 0 < safeEnd <= |m|
    ensures c <= safeEnd
    ensures c == 0 || !m[c - 1]
  {
    if m[safeEnd - 1] then RunStart(m, safeEnd - 1) else safeEnd
  }

  /** How much of the covered run cut by a forced flush stays behind the cut. */
  function FlushCovered(m: seq<bool>, flush: nat): (c: nat)
    requires flush <= |m|
    ensures flush + c <= |m|
  {
    if 0 < flush < |m| && m[flush - 1] && m[flush] then RunEnd(m, flush) - flush else 0
  }

  function Sub(a: nat, b: nat): nat {
    if b <= a then a - b else 0
  }

  function Max(a: nat, b: nat): nat {
    if a < b then b else a
  }

  /** The ordinary part of a step: print what is safe and keep the rest. */
  ghost function Advance(cfg: Config, t: Tail, n: nat): Fed
    requires n <= |t.bytes|
  {
    Fed(Tail(t.bytes[n..], Sub(t.covered, n)),
        Render(t.bytes, Mask(t.bytes, cfg.secrets), t.covered, n), false)
  }

  /** The forced part: print all but the last MaxLen-1 bytes of an oversized tail. */
  ghost function Flush(cfg: Config, t: Tail): Fed
    requires 0 < cfg.maxLen <= |t.bytes|
  {
    var flush := |t.bytes| - cfg.maxLen + 1;
    var m := Mask(t.bytes, cfg.secrets);
    Fed(Tail(t.bytes[flush..], Max(Sub(t.covered, flush), FlushCovered(m, flush))),
        Render(t.bytes, m, t.covered, flush), true)
  }

  /** The part of a step after the chunk has been appended. */
  ghost function FeedTail(cfg: Config, all: Tail): (r: Fed)
    requires Bounded(cfg)
  {
    var maxLen := cfg.maxLen;
    if |all.bytes| < maxLen then Fed(all, [], false)
    else
      var a := Advance(cfg, all, Consumed(Mask(all.bytes, cfg.secrets), |all.bytes| - maxLen + 1));
      if |a.tail.bytes| > MAX_TAIL && maxLen <= |a.tail.bytes| then
        var f := Flush(cfg, a.tail);
        Fed(f.tail, a.out + f.out, true)
      else a
  }

  /** One chunk. */
  ghost function Feed(cfg: Config, t: Tail, chunk: Bytes): (r: Fed)
    requires Bounded(cfg)
  {
    FeedTail(cfg, Tail(t.bytes + chunk, t.covered))
  }

  /** Everything printed for a list of chunks, without the stream-end flush. */
  ghost function FeedAll(cfg: Config, chunks: seq<Bytes>): (r: Fed)
    requires Bounded(cfg)
  {
    if chunks == [] then Fed(Tail([], 0), [], false)
    else
      var r := FeedAll(cfg, chunks[..|chunks| - 1]);
      var f := Feed(cfg, r.tail, chunks[|chunks| - 1]);
      Fed(f.tail, r.out + f.out, r.forced || f.forced)
  }

  /** The flush at stream end. */
  ghost function Finish(cfg: Config, t: Tail): seq<Token> {
    Render(t.bytes, Mask(t.bytes, cfg.secrets), t.covered, |t.bytes|)
  }

  function Concat(chunks: seq<Bytes>): Bytes {
    if chunks == [] then [] else Concat(chunks[..|chunks| - 1]) + chunks[|chunks| - 1]
  }

  // ---------- the streaming invariant ----------

  /** t retains the bytes of s from base on. No occurrence that starts before base
      reaches past the covered prefix, and the covered prefix belongs to a run
      that began before base. */
  ghost predicate Retains(cfg: Config, s: Bytes, base: nat, t: Tail) {
    && base <= |s| && t.bytes == s[base..] && t.covered <= |t.bytes|
    && (base == 0 || base + cfg.maxLen <= |s| + 1)
    && (forall x, i :: x in cfg.secrets && OccursAt(s, x, i) && i < base ==> i + |x| <= base + t.covered)
    && (forall k :: base <= k < base + t.covered ==> Covered(s, cfg.secrets, k))
    && (0 < t.covered ==> 0 < base && Covered(s, cfg.secrets, base - 1))
  }

  /** The reference output with an additional marker at each position in extra. */
  ghost function RenderMore(p: Bytes, m: seq<bool>, extra: set<nat>, hi: nat): seq<Token>
    requires hi <= |p| == |m|
  {
    if hi == 0 then []
    else RenderMore(p, m, extra, hi - 1) + (if hi - 1 in extra then [Marker] else TokenAt(p, m, hi - 1))
  }

  /** Additional markers stand only beside the marker of a run already begun. */
  ghost predicate InsideRuns(m: seq<bool>, extra: set<nat>, hi: nat) {
    forall k :: k in extra ==> 0 < k < hi <= |m| && m[k] && m[k - 1]
  }

  ghost predicate Printed(cfg: Config, s: Bytes, base: nat, out: seq<Token>, extra: set<nat>) {
    && base <= |s|
    && out == RenderMore(s, Mask(s, cfg.secrets), extra, base)
    && InsideRuns(Mask(s, cfg.secrets), extra, base)
  }

  lemma {:induction false} CollapseRenderMore(p: Bytes, m: seq<bool>, extra: set<nat>, lim: nat, hi: nat)
    requires hi <= lim <= |p| == |m| && InsideRuns(m, extra, lim)
    ensures Collapse(RenderMore(p, m, extra, hi)) == Render(p, m, 0, hi)
    ensures extra == {} ==> RenderMore(p, m, extra, hi) == Render(p, m, 0, hi)
  {
    hide Collapse;
    CollapseNone();
    if 0 < hi {
      CollapseRenderMore(p, m, extra, lim, hi - 1);
      var tok := if hi - 1 in extra then [Marker] else TokenAt(p, m, hi - 1);
      CollapseToken(p, m, hi - 1, RenderMore(p, m, extra, hi - 1), tok);
    }
  }

  lemma CollapseNone()
    ensures Collapse([]) == []
  {
  }

  lemma {:induction false} RenderMoreCongruent(p: Bytes, m: seq<bool>, q: Bytes, n: seq<bool>, extra: set<nat>, hi: nat)
    requires hi <= |p| == |m| && hi <= |q| == |n|
    requires forall k :: 0 <= k < hi ==> p[k] == q[k] && m[k] == n[k]
    ensures RenderMore(p, m, extra, hi) == RenderMore(q, n, extra, hi)
  {
    if 0 < hi {
      RenderMoreCongruent(p, m, q, n, extra, hi - 1);
    }
  }

  lemma {:induction false} RenderMoreRunRest(p: Bytes, m: seq<bool>, extra: set<nat>, a: nat, b: nat)
    requires a <= b <= |p| == |m|
    requires a < b ==> 0 < a && m[a - 1]
    requires forall k :: a <= k < b ==> m[k] && k !in extra
    ensures RenderMore(p, m, extra, b) == RenderMore(p, m, extra, a)
  {
    if a < b {
      RenderMoreRunRest(p, m, extra, a, b - 1);
      assert m[b - 1] && m[b - 2];
    }
  }

  lemma {:induction false} RenderMoreGrows(p: Bytes, m: seq<bool>, extra: set<nat>, x: nat, hi: nat)
    requires hi <= |p| == |m| && hi <= x
    ensures RenderMore(p, m, extra + {x}, hi) == RenderMore(p, m, extra, hi)
  {
    if 0 < hi {
      RenderMoreGrows(p, m, extra, x, hi - 1);
    }
  }

  lemma Associate(a: seq<Token>, b: seq<Token>, c: seq<Token>)
    ensures a + (b + c) == a + b + c
  {
  }

  lemma SliceOccurs(s: Bytes, base: nat, x: Bytes, i: int)
    requires base <= |s| && 0 <= i
    ensures OccursAt(s[base..], x, i) <==> OccursAt(s, x, base + i)
  {
    if base + i + |x| <= |s| {
      assert s[base..][i..i + |x|] == s[base + i..base + i + |x|];
    }
  }

  lemma PrefixOccurs(s: Bytes, ext: Bytes, x: Bytes, i: int)
    requires i + |x| <= |s|
    ensures OccursAt(s + ext, x, i) <==> OccursAt(s, x, i)
  {
    if 0 <= i {
      assert (s + ext)[i..i + |x|] == s[i..i + |x|];
    }
  }

  /** Past the covered prefix, the retained suffix sees the same coverage as the
      whole stream; before it, only less. */
  lemma LocalCoverage(cfg: Config, s: Bytes, base: nat, t: Tail, j: nat)
    requires Retains(cfg, s, base, t) && j < |t.bytes|
    ensures Covered(t.bytes, cfg.secrets, j) ==> Covered(s, cfg.secrets, base + j)
    ensures t.covered <= j && Covered(s, cfg.secrets, base + j) ==> Covered(t.bytes, cfg.secrets, j)
  {
    if Covered(t.bytes, cfg.secrets, j) {
      var x, i :| x in cfg.secrets && OccursAt(t.bytes, x, i) && i <= j < i + |x|;
      SliceOccurs(s, base, x, i);
      assert OccursAt(s, x, base + i);
    }
    if t.covered <= j && Covered(s, cfg.secrets, base + j) {
      var x, i :| x in cfg.secrets && OccursAt(s, x, i) && i <= base + j < i + |x|;
      SliceOccurs(s, base, x, i - base);
      assert OccursAt(t.bytes, x, i - base);
    }
  }

  /** More bytes cannot change the coverage of what was already given up. */
  lemma ExtendRetains(cfg: Config, s: Bytes, base: nat, t: Tail, chunk: Bytes)
    requires Bounded(cfg) && Retains(cfg, s, base, t)
    ensures Retains(cfg, s + chunk, base, Tail(t.bytes + chunk, t.covered))
    ensures forall k :: 0 <= k < base ==> (Covered(s + chunk, cfg.secrets, k) <==> Covered(s, cfg.secrets, k))
  {
    var u := s + chunk;
    assert u[base..] == s[base..] + chunk;
    forall x, i | x in cfg.secrets && OccursAt(u, x, i) && i < base
      ensures OccursAt(s, x, i)
    {
      PrefixOccurs(s, chunk, x, i);
    }
    forall x, i | x in cfg.secrets && OccursAt(s, x, i)
      ensures OccursAt(u, x, i)
    {
      PrefixOccurs(s, chunk, x, i);
    }
    forall k | 0 <= k < |s| && Covered(s, cfg.secrets, k)
      ensures Covered(u, cfg.secrets, k)
    {
      var x, i :| x in cfg.secrets && OccursAt(s, x, i) && i <= k < i + |x|;
      assert OccursAt(u, x, i);
    }
    forall k | 0 <= k < base && Covered(u, cfg.secrets, k)
      ensures Covered(s, cfg.secrets, k)
    {
      var x, i :| x in cfg.secrets && OccursAt(u, x, i) && i <= k < i + |x|;
      assert OccursAt(s, x, i);
    }
  }

  lemma ExtendPrinted(cfg: Config, s: Bytes, base: nat, t: Tail, chunk: Bytes, out: seq<Token>, extra: set<nat>)
    requires Bounded(cfg) && Retains(cfg, s, base, t) && Printed(cfg, s, base, out, extra)
    ensures Printed(cfg, s + chunk, base, out, extra)
  {
    ExtendRetains(cfg, s, base, t, chunk);
    RenderMoreCongruent(s, Mask(s, cfg.secrets), s + chunk, Mask(s + chunk, cfg.secrets), extra, base);
  }

  /** How the coverage m of the retained bytes p and the coverage n of the whole
      stream s agree, c being the covered prefix. */
  ghost predicate Aligned(p: Bytes, m: seq<bool>, s: Bytes, n: seq<bool>, base: nat, c: nat) {
    && |m| == |p| && |n| == |s| == base + |p| && c <= |p|
    && (forall j :: 0 <= j < |p| ==> p[j] == s[base + j])
    && (forall j :: 0 <= j < |p| && m[j] ==> n[base + j])
    && (forall j :: c <= j < |p| && n[base + j] ==> m[j])
    && (forall k :: base <= k < base + c ==> n[k])
    && (0 < c ==> 0 < base && n[base - 1])
  }

  lemma RetainsAligned(cfg: Config, s: Bytes, base: nat, t: Tail)
    requires Retains(cfg, s, base, t)
    ensures Aligned(t.bytes, Mask(t.bytes, cfg.secrets), s, Mask(s, cfg.secrets), base, t.covered)
  {
    forall j | 0 <= j < |t.bytes|
      ensures Covered(t.bytes, cfg.secrets, j) ==> Covered(s, cfg.secrets, base + j)
      ensures t.covered <= j && Covered(s, cfg.secrets, base + j) ==> Covered(t.bytes, cfg.secrets, j)
    {
      LocalCoverage(cfg, s, base, t, j);
    }
  }

  /** Printing the retained bytes up to hi brings the whole output up to base + hi:
      at worst a run that was cut gets a second marker beside its first. */
  lemma {:induction false} PrintUpTo(p: Bytes, m: seq<bool>, s: Bytes, n: seq<bool>, base: nat, c: nat,
                                     extra: set<nat>, hi: nat)
    requires Aligned(p, m, s, n, base, c) && hi <= |p|
    requires InsideRuns(n, extra, base)
    ensures RenderMore(s, n, extra, base) + Render(p, m, c, hi) == RenderMore(s, n, extra + Extra(p, m, s, n, base, c, hi), base + hi)
    ensures InsideRuns(n, extra + Extra(p, m, s, n, base, c, hi), base + hi)
  {
    hide TokenAt, InsideRuns;
    var out := RenderMore(s, n, extra, base);
    var more := Render(p, m, c, hi);
    if hi <= c {
      PrintNothing(p, m, s, n, base, c, extra, hi);
      assert out + more == out;
      assert extra + Extra(p, m, s, n, base, c, hi) == extra;
    } else {
      PrintUpTo(p, m, s, n, base, c, extra, hi - 1);
      PrintOne(p, m, s, n, base, c, extra, hi - 1);
      var done, tok := Render(p, m, c, hi - 1), TokenAt(p, m, hi - 1);
      Associate(out, done, tok);
      calc {
        out + more;
        out + (done + tok);
        out + done + tok;
      }
    }
  }

  lemma PrintNothing(p: Bytes, m: seq<bool>, s: Bytes, n: seq<bool>, base: nat, c: nat, extra: set<nat>, hi: nat)
    requires Aligned(p, m, s, n, base, c) && hi <= c && InsideRuns(n, extra, base)
    ensures RenderMore(s, n, extra, base + hi) == RenderMore(s, n, extra, base)
    ensures InsideRuns(n, extra, base + hi)
  {
    RenderMoreRunRest(s, n, extra, base, base + hi);
  }

  lemma PrintOne(p: Bytes, m: seq<bool>, s: Bytes, n: seq<bool>, base: nat, c: nat, extra: set<nat>, j: nat)
    requires Aligned(p, m, s, n, base, c) && c <= j < |p|
    requires InsideRuns(n, extra, base)
    requires InsideRuns(n, extra + Extra(p, m, s, n, base, c, j), base + j)
    ensures RenderMore(s, n, extra + Extra(p, m, s, n, base, c, j), base + j) + TokenAt(p, m, j)
         == RenderMore(s, n, extra + Extra(p, m, s, n, base, c, j + 1), base + j + 1)
    ensures InsideRuns(n, extra + Extra(p, m, s, n, base, c, j + 1), base + j + 1)
  {
    hide TokenAt;
    CompareTokens(p, m, s, n, base, c, j);
    var before, after := extra + Extra(p, m, s, n, base, c, j), extra + Extra(p, m, s, n, base, c, j + 1);
    assert base + j !in before;
    if j == c && TokenAt(p, m, c) != TokenAt(s, n, base + c) {
      assert after == before + {base + c};
      RenderMoreGrows(s, n, before, base + c, base + j);
    } else {
      assert after == before;
    }
  }

  /** The position, if any, at which printing the retained bytes repeats a marker. */
  ghost function Extra(p: Bytes, m: seq<bool>, s: Bytes, n: seq<bool>, base: nat, c: nat, hi: nat): set<nat>
    requires Aligned(p, m, s, n, base, c) && hi <= |p|
  {
    if c < hi && TokenAt(p, m, c) != TokenAt(s, n, base + c) then {base + c} else {}
  }

  /** A retained byte prints what the whole stream prints for it, or a marker
      where the whole stream has already printed that run's marker. */
  lemma CompareTokens(p: Bytes, m: seq<bool>, s: Bytes, n: seq<bool>, base: nat, c: nat, j: nat)
    requires Aligned(p, m, s, n, base, c) && c <= j < |p|
    ensures || TokenAt(p, m, j) == TokenAt(s, n, base + j)
            || (j == c && TokenAt(p, m, j) == [Marker] && 0 < base + j && n[base + j] && n[base + j - 1])
    ensures c == 0 && (0 < base ==> !n[base - 1]) ==> TokenAt(p, m, j) == TokenAt(s, n, base + j)
  {
    assert p[j] == s[base + j] && m[j] == n[base + j];
    if 0 < j {
      assert m[j - 1] ==> n[base + (j - 1)];
      assert c <= j - 1 && n[base + (j - 1)] ==> m[j - 1];
    }
  }

  lemma CollapseToken(s: Bytes, n: seq<bool>, k: nat, out: seq<Token>, tok: seq<Token>)
    requires k < |s| == |n|
    requires Collapse(out) == Render(s, n, 0, k)
    requires tok == TokenAt(s, n, k) || (tok == [Marker] && TokenAt(s, n, k) == [] && 0 < k && n[k - 1])
    ensures Collapse(out + tok) == Render(s, n, 0, k + 1)
  {
    if tok == [] {
      assert out + tok == out;
    } else {
      CollapseSnoc(out, tok[0]);
      assert tok == [tok[0]];
      if 0 < k && n[k - 1] {
        RenderEndsWithMarker(s, n, k);
      } else {
        NoMarkerAfterPlain(s, n, k);
      }
    }
  }

  lemma NoMarkerAfterPlain(p: Bytes, m: seq<bool>, k: nat)
    requires k <= |p| == |m| && (0 < k ==> !m[k - 1])
    ensures var r := Render(p, m, 0, k); r == [] || r[|r| - 1].Plain?
  {
    if 0 < k {
      assert Render(p, m, 0, k) == Render(p, m, 0, k - 1) + [Plain(p[k - 1])];
    }
  }

  /** Giving up the first n bytes is sound when no occurrence known now crosses
      the cut beyond c and none can still arrive that starts before it. */
  lemma CutRetains(cfg: Config, s: Bytes, base: nat, t: Tail, n: nat, c: nat)
    requires Retains(cfg, s, base, t)
    requires n <= |t.bytes| && n + c <= |t.bytes| && Sub(t.covered, n) <= c
    requires n == 0 || n + cfg.maxLen <= |t.bytes| + 1
    requires forall x, i :: x in cfg.secrets && OccursAt(t.bytes, x, i) && i < n ==> i + |x| <= n + c
    requires forall j :: n <= j < n + c ==> j < t.covered || Covered(t.bytes, cfg.secrets, j)
    requires 0 < c ==> n == 0 || n - 1 < t.covered || Covered(t.bytes, cfg.secrets, n - 1)
    requires n == 0 ==> c == t.covered
    ensures Retains(cfg, s, base + n, Tail(t.bytes[n..], c))
  {
    assert t.bytes[n..] == s[base + n..];
    forall x, i | x in cfg.secrets && OccursAt(s, x, i) && i < base + n
      ensures i + |x| <= base + n + c
    {
      if base <= i {
        SliceOccurs(s, base, x, i - base);
        assert OccursAt(t.bytes, x, i - base);
      }
    }
    forall k | base + n <= k < base + n + c
      ensures Covered(s, cfg.secrets, k)
    {
      LocalCoverage(cfg, s, base, t, k - base);
    }
    if 0 < c && 0 < n {
      LocalCoverage(cfg, s, base, t, n - 1);
    }
  }

  lemma PrintPrefix(cfg: Config, s: Bytes, base: nat, t: Tail, out: seq<Token>, extra: set<nat>, n: nat)
    returns (extra': set<nat>)
    requires Retains(cfg, s, base, t) && Printed(cfg, s, base, out, extra)
    requires n <= |t.bytes|
    ensures Printed(cfg, s, base + n, out + Render(t.bytes, Mask(t.bytes, cfg.secrets), t.covered, n), extra')
    ensures Clean(cfg, s, base, t) ==> extra' == extra
  {
    hide Render, TokenAt, RenderMore;
    RetainsAligned(cfg, s, base, t);
    var p, m := Mask(t.bytes, cfg.secrets), Mask(s, cfg.secrets);
    PrintUpTo(t.bytes, p, s, m, base, t.covered, extra, n);
    extra' := extra + Extra(t.bytes, p, s, m, base, t.covered, n);
    if t.covered < n {
      CompareTokens(t.bytes, p, s, m, base, t.covered, t.covered);
    }
  }

  /** Nothing printed so far is the beginning of a run still held back. */
  ghost predicate Clean(cfg: Config, s: Bytes, base: nat, t: Tail) {
    t.covered == 0 && (0 < base ==> !Covered(s, cfg.secrets, base - 1))
  }

  /** No occurrence crosses the point up to which a chunk is consumed. */
  lemma NoCrossing(cfg: Config, p: Bytes, n: nat, x: Bytes, i: int)
    requires n <= |p| && (n == 0 || !Covered(p, cfg.secrets, n - 1))
    requires x in cfg.secrets && OccursAt(p, x, i) && i < n
    ensures i + |x| <= n
  {
    if n < i + |x| {
      assert false;
    }
  }

  lemma AdvanceRetains(cfg: Config, s: Bytes, base: nat, t: Tail, n: nat)
    requires Bounded(cfg) && Retains(cfg, s, base, t) && cfg.maxLen <= |t.bytes|
    requires n == Consumed(Mask(t.bytes, cfg.secrets), |t.bytes| - cfg.maxLen + 1)
    ensures Retains(cfg, s, base + n, Advance(cfg, t, n).tail)
    ensures Clean(cfg, s, base, t) ==> Clean(cfg, s, base + n, Advance(cfg, t, n).tail)
  {
    forall x, i | x in cfg.secrets && OccursAt(t.bytes, x, i) && i < n
      ensures i + |x| <= n
    {
      NoCrossing(cfg, t.bytes, n, x, i);
    }
    CutRetains(cfg, s, base, t, n, Sub(t.covered, n));
    if 0 < n {
      LocalCoverage(cfg, s, base, t, n - 1);
    }
  }

  lemma FlushRetains(cfg: Config, s: Bytes, base: nat, t: Tail, n: nat)
    requires Bounded(cfg) && Retains(cfg, s, base, t)
    requires cfg.maxLen <= |t.bytes| && n == |t.bytes| - cfg.maxLen + 1
    ensures Retains(cfg, s, base + n, Flush(cfg, t).tail)
  {
    hide FlushCovered, Render, Covered;
    FlushedRun(cfg, t.bytes, n);
    var c := Max(Sub(t.covered, n), FlushCovered(Mask(t.bytes, cfg.secrets), n));
    forall x, i | x in cfg.secrets && OccursAt(t.bytes, x, i) && i < n
      ensures i + |x| <= n + c
    {
      OccurrenceInRun(cfg, t.bytes, n, x, i);
    }
    CutRetains(cfg, s, base, t, n, c);
  }

  /** FlushCovered measures a run that begins before n. */
  lemma FlushedRun(cfg: Config, p: Bytes, n: nat)
    requires n <= |p|
    ensures
      var c := FlushCovered(Mask(p, cfg.secrets), n);
      && (forall j :: n <= j < n + c ==> Covered(p, cfg.secrets, j))
      && (0 < c ==> 0 < n && Covered(p, cfg.secrets, n - 1))
  {
    hide Covered;
  }

  /** An occurrence that crosses n lies inside the run FlushCovered measures. */
  lemma OccurrenceInRun(cfg: Config, p: Bytes, n: nat, x: Bytes, i: int)
    requires n <= |p| && x in cfg.secrets && OccursAt(p, x, i) && i < n
    ensures i + |x| <= n + FlushCovered(Mask(p, cfg.secrets), n)
  {
    var m := Mask(p, cfg.secrets);
    if n < i + |x| {
      forall k | i <= k < i + |x| ensures m[k] {
        assert OccursAt(p, x, i);
      }
      var e := RunEnd(m, n);
      if e < i + |x| {
        assert false;
      }
    }
  }

  lemma FeedStep(cfg: Config, s: Bytes, base: nat, t: Tail, out: seq<Token>, extra: set<nat>, chunk: Bytes)
    returns (base': nat, extra': set<nat>)
    requires Bounded(cfg) && Retains(cfg, s, base, t) && Printed(cfg, s, base, out, extra)
    ensures
      var f := Feed(cfg, t, chunk);
      && Retains(cfg, s + chunk, base', f.tail)
      && Printed(cfg, s + chunk, base', out + f.out, extra')
      && (Clean(cfg, s, base, t) && !f.forced ==> Clean(cfg, s + chunk, base', f.tail) && extra' == extra)
  {
    ExtendRetains(cfg, s, base, t, chunk);
    ExtendPrinted(cfg, s, base, t, chunk, out, extra);
    base', extra' := FeedExtended(cfg, s + chunk, base, Tail(t.bytes + chunk, t.covered), out, extra);
  }

  lemma AdvanceStep(cfg: Config, s: Bytes, base: nat, t: Tail, out: seq<Token>, extra: set<nat>, n: nat)
    returns (extra': set<nat>)
    requires Bounded(cfg) && Retains(cfg, s, base, t) && Printed(cfg, s, base, out, extra)
    requires cfg.maxLen <= |t.bytes|
    requires n == Consumed(Mask(t.bytes, cfg.secrets), |t.bytes| - cfg.maxLen + 1)
    ensures
      var a := Advance(cfg, t, n);
      && Retains(cfg, s, base + n, a.tail)
      && Printed(cfg, s, base + n, out + a.out, extra')
      && (Clean(cfg, s, base, t) ==> Clean(cfg, s, base + n, a.tail) && extra' == extra)
  {
    AdvanceRetains(cfg, s, base, t, n);
    extra' := PrintPrefix(cfg, s, base, t, out, extra, n);
  }

  lemma FlushStep(cfg: Config, s: Bytes, base: nat, t: Tail, out: seq<Token>, extra: set<nat>, n: nat)
    returns (extra': set<nat>)
    requires Bounded(cfg) && Retains(cfg, s, base, t) && Printed(cfg, s, base, out, extra)
    requires cfg.maxLen <= |t.bytes| && n == |t.bytes| - cfg.maxLen + 1
    ensures
      var f := Flush(cfg, t);
      Retains(cfg, s, base + n, f.tail) && Printed(cfg, s, base + n, out + f.out, extra')
  {
    FlushRetains(cfg, s, base, t, n);
    extra' := PrintPrefix(cfg, s, base, t, out, extra, n);
  }

  lemma FeedForced(cfg: Config, s: Bytes, base: nat, t: Tail, before: seq<Token>, out: seq<Token>, extra: set<nat>)
    returns (base': nat, extra': set<nat>)
    requires Bounded(cfg) && Retains(cfg, s, base, t) && Printed(cfg, s, base, before + out, extra)
    requires cfg.maxLen <= |t.bytes|
    ensures
      var f := Flush(cfg, t);
      Retains(cfg, s, base', f.tail) && Printed(cfg, s, base', before + (out + f.out), extra')
  {
    hide Retains, Printed, Render;
    var n := |t.bytes| - cfg.maxLen + 1;
    Associate(before, out, Flush(cfg, t).out);
    extra' := FlushStep(cfg, s, base, t, before + out, extra, n);
    base' := base + n;
  }

  lemma FeedExtended(cfg: Config, s: Bytes, base: nat, all: Tail, out: seq<Token>, extra: set<nat>)
    returns (base': nat, extra': set<nat>)
    requires Bounded(cfg) && Retains(cfg, s, base, all) && Printed(cfg, s, base, out, extra)
    ensures
      var f := FeedTail(cfg, all);
      && Retains(cfg, s, base', f.tail)
      && Printed(cfg, s, base', out + f.out, extra')
      && (Clean(cfg, s, base, all) && !f.forced ==> Clean(cfg, s, base', f.tail) && extra' == extra)
  {
    hide Retains, Printed, Clean, Render, Consumed;
    if |all.bytes| < cfg.maxLen {
      base', extra' := base, extra;
      assert out + [] == out;
    } else {
      var n := Consumed(Mask(all.bytes, cfg.secrets), |all.bytes| - cfg.maxLen + 1);
      var a := Advance(cfg, all, n);
      extra' := AdvanceStep(cfg, s, base, all, out, extra, n);
      base' := base + n;
      if |a.tail.bytes| > MAX_TAIL && cfg.maxLen <= |a.tail.bytes| {
        base', extra' := FeedForced(cfg, s, base', a.tail, out, a.out, extra');
      }
    }
  }

  lemma {:induction false} FeedAllInvariant(cfg: Config, chunks: seq<Bytes>) returns (base: nat, extra: set<nat>)
    requires Bounded(cfg)
    ensures
      var r := FeedAll(cfg, chunks);
      && Retains(cfg, Concat(chunks), base, r.tail)
      && Printed(cfg, Concat(chunks), base, r.out, extra)
      && (!r.forced ==> Clean(cfg, Concat(chunks), base, r.tail) && extra == {})
  {
    if chunks == [] {
      base, extra := 0, {};
    } else {
      var front := chunks[..|chunks| - 1];
      base, extra := FeedAllInvariant(cfg, front);
      var r := FeedAll(cfg, front);
      base, extra := FeedStep(cfg, Concat(front), base, r.tail, r.out, extra, chunks[|chunks| - 1]);
    }
  }

  lemma FinishStep(cfg: Config, s: Bytes, base: nat, t: Tail, out: seq<Token>, extra: set<nat>)
    returns (extra': set<nat>)
    requires Retains(cfg, s, base, t) && Printed(cfg, s, base, out, extra)
    ensures Printed(cfg, s, |s|, out + Finish(cfg, t), extra')
    ensures Clean(cfg, s, base, t) ==> extra' == extra
  {
    hide Covered, Render;
    var n := |t.bytes|;
    assert base + n == |s|;
    extra' := PrintPrefix(cfg, s, base, t, out, extra, n);
  }

  lemma FinalOutput(cfg: Config, chunks: seq<Bytes>) returns (extra: set<nat>)
    requires Bounded(cfg)
    ensures
      var r := FeedAll(cfg, chunks);
      var s := Concat(chunks);
      && Printed(cfg, s, |s|, r.out + Finish(cfg, r.tail), extra)
      && (!r.forced ==> extra == {})
  {
    hide Retains, Printed, Clean, Finish;
    var base: nat;
    base, extra := FeedAllInvariant(cfg, chunks);
    var r := FeedAll(cfg, chunks);
    extra := FinishStep(cfg, Concat(chunks), base, r.tail, r.out, extra);
  }

  // ---------- the promises ----------

  /** However a stream is cut, forced flushes included, the output is the one-shot
      output up to repeated markers, and exactly the one-shot output if no flush
      was forced. */
  lemma ChunkingIsInvisible(cfg: Config, chunks: seq<Bytes>)
    requires Bounded(cfg)
    ensures
      var r := FeedAll(cfg, chunks);
      var out := r.out + Finish(cfg, r.tail);
      && Collapse(out) == OneShot(Concat(chunks), cfg.secrets)
      && (!r.forced ==> out == OneShot(Concat(chunks), cfg.secrets))
  {
    var extra := FinalOutput(cfg, chunks);
    var s := Concat(chunks);
    CollapseRenderMore(s, Mask(s, cfg.secrets), extra, |s|, |s|);
  }

  /** Erasing the markers leaves exactly the bytes outside every secret. */
  lemma NoSecretByteIsPrinted(cfg: Config, chunks: seq<Bytes>)
    requires Bounded(cfg)
    ensures
      var r := FeedAll(cfg, chunks);
      var s := Concat(chunks);
      Erase(r.out + Finish(cfg, r.tail)) == Visible(s, Mask(s, cfg.secrets), |s|)
  {
    ChunkingIsInvisible(cfg, chunks);
    var r := FeedAll(cfg, chunks);
    var s := Concat(chunks);
    EraseCollapse(r.out + Finish(cfg, r.tail));
    EraseRender(s, Mask(s, cfg.secrets), |s|);
  }

  /** Two cuttings of the same stream differ at most in repeated markers. */
  lemma CutsAgree(cfg: Config, a: seq<Bytes>, b: seq<Bytes>)
    requires Bounded(cfg) && Concat(a) == Concat(b)
    ensures
      var ra, rb := FeedAll(cfg, a), FeedAll(cfg, b);
      Collapse(ra.out + Finish(cfg, ra.tail)) == Collapse(rb.out + Finish(cfg, rb.tail))
  {
    ChunkingIsInvisible(cfg, a);
    ChunkingIsInvisible(cfg, b);
  }

  /** The retained tail stays bounded and contains its covered prefix. */
  lemma {:induction false} TailIsBounded(cfg: Config, chunks: seq<Bytes>)
    requires Bounded(cfg)
    ensures
      var t := FeedAll(cfg, chunks).tail;
      |t.bytes| <= Max(MAX_TAIL, cfg.maxLen - 1) && t.covered <= |t.bytes|
  {
    var base, extra := FeedAllInvariant(cfg, chunks);
    if chunks != [] {
      TailIsBounded(cfg, chunks[..|chunks| - 1]);
    }
  }

  // ---------- what is held back ----------

  /** No occurrence crosses the consumed point, so the rest keeps its coverage. */
  lemma MaskOfRest(p: Bytes, secrets: seq<Bytes>, n: nat)
    requires n <= |p| && (0 < n ==> !Covered(p, secrets, n - 1))
    ensures Mask(p[n..], secrets) == Mask(p, secrets)[n..]
  {
    forall j | 0 <= j < |p| - n
      ensures Covered(p[n..], secrets, j) <==> Covered(p, secrets, n + j)
    {
      if Covered(p, secrets, n + j) {
        var s, i :| s in secrets && OccursAt(p, s, i) && i <= n + j < i + |s|;
        assert n <= i;
        SliceOccurs(p, n, s, i - n);
        assert OccursAt(p[n..], s, i - n);
      }
      if Covered(p[n..], secrets, j) {
        var s, i :| s in secrets && OccursAt(p[n..], s, i) && i <= j < i + |s|;
        SliceOccurs(p, n, s, i);
        assert OccursAt(p, s, n + i);
      }
    }
  }

  /** k lies before the last maxLen - 1 bytes. */
  predicate Decided(cfg: Config, bytes: Bytes, k: int) {
    0 <= k && k + cfg.maxLen <= |bytes|
  }

  lemma AdvanceHolds(cfg: Config, all: Tail, k: int)
    requires Bounded(cfg) && cfg.maxLen <= |all.bytes|
    requires
      var a := Advance(cfg, all, Consumed(Mask(all.bytes, cfg.secrets), |all.bytes| - cfg.maxLen + 1));
      Decided(cfg, a.tail.bytes, k)
    ensures
      var a := Advance(cfg, all, Consumed(Mask(all.bytes, cfg.secrets), |all.bytes| - cfg.maxLen + 1));
      Covered(a.tail.bytes, cfg.secrets, k)
  {
    hide Covered, Render;
    var m := Mask(all.bytes, cfg.secrets);
    var n := Consumed(m, |all.bytes| - cfg.maxLen + 1);
    MaskOfRest(all.bytes, cfg.secrets, n);
    assert m[n + k];
    assert Mask(all.bytes[n..], cfg.secrets)[k] == m[n + k];
  }

  /** Output is prompt: beyond the last maxLen - 1 bytes, which may yet turn out to
      start a secret, only bytes of secrets are held back. */
  lemma HeldBackIsCovered(cfg: Config, chunks: seq<Bytes>, k: int)
    requires Bounded(cfg) && Decided(cfg, FeedAll(cfg, chunks).tail.bytes, k)
    ensures Covered(FeedAll(cfg, chunks).tail.bytes, cfg.secrets, k)
  {
    hide Covered, Advance, Consumed;
    var r := FeedAll(cfg, chunks[..|chunks| - 1]);
    var all := Tail(r.tail.bytes + chunks[|chunks| - 1], r.tail.covered);
    if cfg.maxLen <= |all.bytes| {
      AdvanceHolds(cfg, all, k);
    }
  }

  /** Every byte from i on for more than 64 KiB, but for the last maxLen - 1, is
      covered. */
  ghost predicate LongRun(cfg: Config, s: Bytes, i: nat) {
    i + MAX_TAIL < |s| && forall k :: i <= k && k + cfg.maxLen <= i + MAX_TAIL + 1 ==> Covered(s, cfg.secrets, k)
  }

  lemma LongRunStays(cfg: Config, s: Bytes, more: Bytes, i: nat)
    requires LongRun(cfg, s, i)
    ensures LongRun(cfg, s + more, i)
  {
    forall k | i <= k && k + cfg.maxLen <= i + MAX_TAIL + 1 ensures Covered(s + more, cfg.secrets, k) {
      assert Covered(s, cfg.secrets, k);
      var x, j :| x in cfg.secrets && OccursAt(s, x, j) && j <= k < j + |x|;
      PrefixOccurs(s, more, x, j);
    }
  }

  lemma ForcedNow(cfg: Config, s: Bytes, base: nat, all: Tail) returns (i: nat)
    requires Bounded(cfg) && base <= |s| && all.bytes == s[base..] && FeedTail(cfg, all).forced
    ensures LongRun(cfg, s, i)
  {
    hide Covered, Render, Consumed, Mask, Flush;
    var n := Consumed(Mask(all.bytes, cfg.secrets), |all.bytes| - cfg.maxLen + 1);
    i := base + n;
    assert all.bytes[n..] == s[i..];
    forall k | i <= k && k + cfg.maxLen <= i + MAX_TAIL + 1 ensures Covered(s, cfg.secrets, k) {
      HeldInStream(cfg, s, base, all, n, k);
    }
  }

  lemma HeldInStream(cfg: Config, s: Bytes, base: nat, all: Tail, n: nat, k: nat)
    requires Bounded(cfg) && base <= |s| && all.bytes == s[base..] && cfg.maxLen <= |all.bytes|
    requires n == Consumed(Mask(all.bytes, cfg.secrets), |all.bytes| - cfg.maxLen + 1)
    requires base + n <= k && k + cfg.maxLen <= |s|
    ensures Covered(s, cfg.secrets, k)
  {
    hide Covered, Render, Consumed, Mask;
    var i := base + n;
    assert all.bytes[n..] == s[i..];
    AdvanceHolds(cfg, all, k - i);
    SuffixCovered(s, cfg.secrets, i, k - i);
  }

  /** A flush is forced only by a run of secrets of about 64 KiB or more. */
  lemma {:induction false} ForcedByLongRun(cfg: Config, chunks: seq<Bytes>) returns (i: nat)
    requires Bounded(cfg) && FeedAll(cfg, chunks).forced
    ensures LongRun(cfg, Concat(chunks), i)
  {
    hide FeedTail, LongRun, Printed, Clean;
    var front, chunk := chunks[..|chunks| - 1], chunks[|chunks| - 1];
    var r := FeedAll(cfg, front);
    if r.forced {
      i := ForcedByLongRun(cfg, front);
      LongRunStays(cfg, Concat(front), chunk, i);
    } else {
      var base, extra := FeedAllInvariant(cfg, front);
      var all := Tail(r.tail.bytes + chunk, r.tail.covered);
      assert all.bytes == Concat(chunks)[base..];
      i := ForcedNow(cfg, Concat(chunks), base, all);
    }
  }

  /** Without such a run, and so for every shorter stream, the output is exactly the
      one-shot output, however the stream is cut. */
  lemma ExactWithoutLongRun(cfg: Config, chunks: seq<Bytes>)
    requires Bounded(cfg) && forall i :: !LongRun(cfg, Concat(chunks), i)
    ensures var r := FeedAll(cfg, chunks); r.out + Finish(cfg, r.tail) == OneShot(Concat(chunks), cfg.secrets)
  {
    hide LongRun;
    ChunkingIsInvisible(cfg, chunks);
    if FeedAll(cfg, chunks).forced {
      var i := ForcedByLongRun(cfg, chunks);
    }
  }

  lemma SuffixCovered(s: Bytes, secrets: seq<Bytes>, base: nat, k: nat)
    requires base <= |s| && Covered(s[base..], secrets, k)
    ensures Covered(s, secrets, base + k)
  {
    var x, i :| x in secrets && OccursAt(s[base..], x, i) && i <= k < i + |x|;
    SliceOccurs(s, base, x, i);
  }
}
