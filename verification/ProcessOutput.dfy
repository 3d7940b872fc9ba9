/**
  The output half of the process broker: the two redacted streams, the frames
  written for them and the single stream-end frame.
*/
module ProcessOutput {
  import opened Octets
  import opened Redaction
  import opened RedactionStream
  import opened RedactionCode

  datatype Stream = Stdout | Stderr

  datatype Frame = Data(stream: Stream, tokens: seq<Token>) | StreamEnd(attachError: seq<Token>)

  /** The state of the plane as a value. */
  datatype Plane = Plane(stdout: Tail, stderr: Tail, frames: seq<Frame>, ended: bool) {
    function Of(st: Stream): Tail {
      if st.Stdout? then stdout else stderr
    }

    function With(st: Stream, t: Tail): Plane {
      if st.Stdout? then this.(stdout := t) else this.(stderr := t)
    }
  }

  ghost predicate ValidConfig(cfg: Config) {
    cfg.secrets != [] ==> Bounded(cfg)
  }

  /** What one chunk does to one stream. Without secrets it passes through. */
  ghost function Redacted(cfg: Config, t: Tail, chunk: Bytes): Fed
    requires ValidConfig(cfg)
  {
    if cfg.secrets == [] then Fed(t, Plains(chunk), false) else Feed(cfg, t, chunk)
  }

  /** One chunk arrives; an empty redaction writes no frame. */
  ghost function WriteStep(cfg: Config, pl: Plane, st: Stream, chunk: Bytes): Plane
    requires ValidConfig(cfg)
  {
    if pl.ended then pl
    else
      var f := Redacted(cfg, pl.Of(st), chunk);
      var pl' := pl.With(st, f.tail);
      if f.out == [] then pl' else pl'.(frames := pl'.frames + [Data(st, f.out)])
  }

  /** The retained tail of one stream is written out whole. */
  ghost function DrainStep(cfg: Config, pl: Plane, st: Stream): Plane {
    var t := pl.Of(st);
    if t.bytes == [] then pl
    else pl.With(st, Tail([], 0)).(frames := pl.frames + [Data(st, Finish(cfg, t))])
  }

  ghost function EndStep(cfg: Config, pl: Plane, attachError: Bytes): Plane {
    if pl.ended then pl
    else
      var d := DrainStep(cfg, DrainStep(cfg, pl, Stdout), Stderr);
      d.(frames := d.frames + [StreamEnd(OneShot(attachError, cfg.secrets))], ended := true)
  }

  // ---------- a wire that breaks ----------

  /** The wire takes room frames and fails from then on. A chunk whose frame fails is
      lost; its stream has moved on. */
  ghost function WriteWithin(cfg: Config, room: nat, pl: Plane, st: Stream, chunk: Bytes): Plane
    requires ValidConfig(cfg)
  {
    var next := WriteStep(cfg, pl, st, chunk);
    if |next.frames| <= room then next else next.(frames := pl.frames)
  }

  ghost function DrainWithin(cfg: Config, room: nat, pl: Plane, st: Stream): Plane {
    var next := DrainStep(cfg, pl, st);
    if |next.frames| <= room then next else pl
  }

  /** The first frame that fails ends the attempt; what was drained before stays so. */
  ghost function EndWithin(cfg: Config, room: nat, pl: Plane, attachError: Bytes): Plane {
    var one := DrainWithin(cfg, room, pl, Stdout);
    if pl.ended then pl
    else if one.stdout.bytes != [] then one
    else
      var two := DrainWithin(cfg, room, one, Stderr);
      if two.stderr.bytes != [] then two
      else if |two.frames| >= room then two
      else two.(frames := two.frames + [StreamEnd(OneShot(attachError, cfg.secrets))], ended := true)
  }

  // ---------- the broker's own form ----------

  class Broker {
    const cfg: Config
    var redactionTail: map<Stream, Bytes>
    var redactionCovered: map<Stream, nat>
    const room: nat
    var frames: seq<Frame>
    var streamEnded: bool

    ghost predicate Valid()
      reads this
    {
      && ValidConfig(cfg) && |frames| <= room
      && Covering(Stdout) <= |Tailing(Stdout)|
      && Covering(Stderr) <= |Tailing(Stderr)|
    }

    /** Reading a missing map entry gives the zero value. */
    function Tailing(st: Stream): Bytes
      reads this
    {
      if st in redactionTail then redactionTail[st] else []
    }

    function Covering(st: Stream): nat
      reads this
    {
      if st in redactionCovered then redactionCovered[st] else 0
    }

    ghost function State(): Plane
      reads this
    {
      Plane(Tail(Tailing(Stdout), Covering(Stdout)), Tail(Tailing(Stderr), Covering(Stderr)), frames, streamEnded)
    }

    /** Empty secrets are dropped and the longest one is measured once. */
    constructor (secrets: seq<Bytes>, room: nat)
      ensures this.room == room && Valid() && State() == Plane(Tail([], 0), Tail([], 0), [], false)
      ensures forall s :: s in cfg.secrets <==> s in secrets && s != []
      ensures cfg.secrets != [] ==> exists s :: s in cfg.secrets && |s| == cfg.maxLen
    {
      var kept, longest: nat := [], 0;
      ghost var best: Bytes := [];
      for n := 0 to |secrets|
        invariant forall s :: s in kept <==> s in secrets[..n] && s != []
        invariant forall s :: s in kept ==> |s| <= longest
        invariant if kept == [] then longest == 0 else best in kept && |best| == longest
      {
        if secrets[n] != [] && secrets[n] !in kept {
          kept := kept + [secrets[n]];
          if |secrets[n]| > longest {
            longest, best := |secrets[n]|, secrets[n];
          }
        }
      }
      cfg := Config(kept, longest);
      this.room := room;
      redactionTail := map[];
      redactionCovered := map[];
      frames := [];
      streamEnded := false;
      assert secrets[..|secrets|] == secrets;
    }

    method RedactChunk(st: Stream, payload: Bytes) returns (out: seq<Token>)
      requires Valid()
      modifies this`redactionTail, this`redactionCovered
      ensures Valid()
      ensures
        var f := Redacted(cfg, old(State()).Of(st), payload);
        out == f.out && State() == old(State()).With(st, f.tail)
    {
      hide FeedTail, Plains;
      if cfg.secrets == [] {
        return Plains(payload);
      }
      var combined := Tailing(st) + payload;
      var covered := Covering(st);
      if |combined| < cfg.maxLen {
        FeedShort(cfg, Tail(combined, covered));
        redactionTail := redactionTail[st := combined];
        redactionCovered := redactionCovered[st := covered];
        return [];
      }
      var tail;
      out, tail, covered := Step(cfg, combined, covered);
      redactionTail := redactionTail[st := tail];
      redactionCovered := redactionCovered[st := covered];
    }

    method WriteFrame(f: Frame) returns (ok: bool)
      requires |frames| <= room
      modifies this`frames
      ensures ok <==> |old(frames)| < room
      ensures frames == old(frames) + (if ok then [f] else [])
    {
      ok := |frames| < room;
      if ok {
        frames := frames + [f];
      }
    }

    method WriteOutput(st: Stream, payload: Bytes) returns (ok: bool)
      requires Valid()
      modifies this
      ensures Valid() && State() == WriteWithin(cfg, room, old(State()), st, payload)
      ensures ok <==> |WriteStep(cfg, old(State()), st, payload).frames| <= room
    {
      hide Redacted;
      if streamEnded {
        return true;
      }
      var out := RedactChunk(st, payload);
      if out == [] {
        return true;
      }
      ok := WriteFrame(Data(st, out));
    }

    method Drain(st: Stream) returns (ok: bool)
      requires Valid()
      modifies this
      ensures Valid() && State() == DrainWithin(cfg, room, old(State()), st)
      ensures ok <==> Tailing(st) == []
      ensures streamEnded == old(streamEnded)
    {
      var tail := Tailing(st);
      if |tail| > 0 {
        var out := RedactIntervalsCovered(tail, cfg.secrets, |tail|, Covering(st));
        ok := WriteFrame(Data(st, out));
        if !ok {
          return false;
        }
        redactionTail := redactionTail[st := []];
        redactionCovered := redactionCovered[st := 0];
      }
      return true;
    }

    method SendStreamEnd(attachError: Bytes) returns (ok: bool)
      requires Valid()
      modifies this
      ensures Valid() && State() == EndWithin(cfg, room, old(State()), attachError)
      ensures ok <==> streamEnded
    {
      hide DrainWithin;
      if streamEnded {
        return true;
      }
      var redactedError := RedactIntervalsCovered(attachError, cfg.secrets, |attachError|, 0);
      ok := Drain(Stdout);
      if !ok {
        return false;
      }
      ok := Drain(Stderr);
      if !ok {
        return false;
      }
      ok := WriteFrame(StreamEnd(redactedError));
      if !ok {
        return false;
      }
      streamEnded := true;
      return true;
    }
  }

  lemma FeedShort(cfg: Config, all: Tail)
    requires Bounded(cfg) && |all.bytes| < cfg.maxLen
    ensures FeedTail(cfg, all) == Fed(all, [], false)
  {
  }

  /** The body of a chunk once there are enough bytes to decide anything. */
  method Step(cfg: Config, combined: Bytes, covered0: nat) returns (out: seq<Token>, tail: Bytes, covered: nat)
    requires Bounded(cfg) && cfg.maxLen <= |combined| && covered0 <= |combined|
    ensures
      var f := FeedTail(cfg, Tail(combined, covered0));
      out == f.out && Tail(tail, covered) == f.tail && covered <= |tail|
  {
    hide Render, Covered, FlushCovered, Mask, Consumed, AreRuns;
    ghost var m := Mask(combined, cfg.secrets);
    var safeEnd := |combined| - cfg.maxLen + 1;
    var groups := Groups(combined, cfg.secrets);
    var consumed := ConsumedEnd(groups, m, safeEnd);
    out := RedactIntervalsCovered(combined, cfg.secrets, consumed, covered0);
    tail := combined[consumed..];
    covered := Sub(covered0, consumed);
    if |tail| > MAX_TAIL {
      var flush := |tail| - cfg.maxLen + 1;
      if flush > 0 {
        var more;
        more, tail, covered := ForcedFlush(cfg, combined, consumed, groups, covered, flush);
        out := out + more;
      }
    }
  }

  /** An oversized tail is printed up to its last maxLen - 1 bytes. */
  method ForcedFlush(cfg: Config, combined: Bytes, consumed: nat, groups: seq<Interval>, covered0: nat, flush: nat)
    returns (out: seq<Token>, tail: Bytes, covered: nat)
    requires Bounded(cfg) && AreRuns(groups, Mask(combined, cfg.secrets))
    requires consumed + flush + cfg.maxLen == |combined| + 1 && 0 < flush && consumed + covered0 <= |combined|
    requires 0 < consumed ==> !Mask(combined, cfg.secrets)[consumed - 1]
    ensures
      var f := Flush(cfg, Tail(combined[consumed..], covered0));
      out == f.out && Tail(tail, covered) == f.tail && covered <= |tail|
  {
    hide Render, Covered, AreRuns, RunEnd;
    MaskOfRest(combined, cfg.secrets, consumed);
    tail := combined[consumed..];
    out := RedactIntervalsCovered(tail, cfg.secrets, flush, covered0);
    covered := FlushedCover(groups, Mask(combined, cfg.secrets), consumed, flush);
    tail := tail[flush..];
    if covered < Sub(covered0, flush) {
      covered := Sub(covered0, flush);
    }
  }

  // ---------- whole runs ----------

  datatype Op = Write(stream: Stream, bytes: Bytes) | End(attachError: Bytes)

  ghost function Run(cfg: Config, ops: seq<Op>): Plane
    requires ValidConfig(cfg)
  {
    if ops == [] then Plane(Tail([], 0), Tail([], 0), [], false)
    else
      var pl := Run(cfg, ops[..|ops| - 1]);
      match ops[|ops| - 1]
      case Write(st, bytes) => WriteStep(cfg, pl, st, bytes)
      case End(e) => EndStep(cfg, pl, e)
  }

  /** The chunks written to one stream. */
  function Chunks(ops: seq<Op>, st: Stream): seq<Bytes> {
    if ops == [] then []
    else
      var c := Chunks(ops[..|ops| - 1], st);
      var op := ops[|ops| - 1];
      if op.Write? && op.stream == st then c + [op.bytes] else c
  }

  /** What the frames show of one stream. */
  function Shown(frames: seq<Frame>, st: Stream): seq<Token> {
    if frames == [] then []
    else
      var s := Shown(frames[..|frames| - 1], st);
      var f := frames[|frames| - 1];
      if f.Data? && f.stream == st then s + f.tokens else s
  }

  lemma ShownSnoc(frames: seq<Frame>, f: Frame, st: Stream)
    ensures Shown(frames + [f], st)
         == Shown(frames, st) + (if f.Data? && f.stream == st then f.tokens else [])
  {
    assert (frames + [f])[..|frames|] == frames;
  }

  /** What has been printed and retained after a list of chunks. */
  ghost function Fold(cfg: Config, chunks: seq<Bytes>): Fed
    requires ValidConfig(cfg)
  {
    if cfg.secrets == [] then Fed(Tail([], 0), Plains(Concat(chunks)), false) else FeedAll(cfg, chunks)
  }

  lemma FoldSnoc(cfg: Config, chunks: seq<Bytes>, c: Bytes)
    requires ValidConfig(cfg)
    ensures
      var r := Fold(cfg, chunks);
      var f := Redacted(cfg, r.tail, c);
      Fold(cfg, chunks + [c]) == Fed(f.tail, r.out + f.out, r.forced || f.forced)
  {
    assert (chunks + [c])[..|chunks|] == chunks;
    if cfg.secrets == [] {
      assert Plains(Concat(chunks) + c) == Plains(Concat(chunks)) + Plains(c);
    }
  }

  ghost predicate Open(cfg: Config, ops: seq<Op>, pl: Plane)
    requires ValidConfig(cfg)
  {
    && !pl.ended
    && (forall i :: 0 <= i < |pl.frames| ==> pl.frames[i].Data?)
    && forall st :: pl.Of(st) == Fold(cfg, Chunks(ops, st)).tail && Shown(pl.frames, st) == Fold(cfg, Chunks(ops, st)).out
  }

  lemma WriteKeepsOpen(cfg: Config, ops: seq<Op>, pl: Plane, st: Stream, bytes: Bytes)
    requires ValidConfig(cfg) && Open(cfg, ops, pl)
    ensures Open(cfg, ops + [Write(st, bytes)], WriteStep(cfg, pl, st, bytes))
  {
    hide Fold, Redacted, Shown;
    var ops' := ops + [Write(st, bytes)];
    var pl' := WriteStep(cfg, pl, st, bytes);
    var f := Redacted(cfg, pl.Of(st), bytes);
    assert ops'[..|ops|] == ops;
    forall s ensures pl'.Of(s) == Fold(cfg, Chunks(ops', s)).tail && Shown(pl'.frames, s) == Fold(cfg, Chunks(ops', s)).out {
      FoldSnoc(cfg, Chunks(ops, st), bytes);
      ShownSnoc(pl.frames, Data(st, f.out), s);
      assert f.out == [] ==> Shown(pl.frames, s) + f.out == Shown(pl.frames, s);
    }
  }

  lemma {:induction false} OpenRun(cfg: Config, ops: seq<Op>)
    requires ValidConfig(cfg)
    requires forall i :: 0 <= i < |ops| ==> ops[i].Write?
    ensures Open(cfg, ops, Run(cfg, ops))
  {
    hide Open, WriteStep;
    if ops == [] {
      OpenAtFirst(cfg);
    } else {
      var n := |ops| - 1;
      OpenRun(cfg, ops[..n]);
      WriteKeepsOpen(cfg, ops[..n], Run(cfg, ops[..n]), ops[n].stream, ops[n].bytes);
      assert ops == ops[..n] + [Write(ops[n].stream, ops[n].bytes)];
    }
  }

  lemma OpenAtFirst(cfg: Config)
    requires ValidConfig(cfg)
    ensures Open(cfg, [], Plane(Tail([], 0), Tail([], 0), [], false))
  {
    if cfg.secrets == [] {
      assert Plains(Concat([])) == [];
    }
  }

  /** Nothing is written after the stream-end frame, which is therefore unique. */
  lemma {:induction false} NothingAfterEnd(cfg: Config, ops: seq<Op>, k: nat)
    requires ValidConfig(cfg) && k <= |ops| && Run(cfg, ops[..k]).ended
    ensures Run(cfg, ops) == Run(cfg, ops[..k])
    decreases |ops|
  {
    if k < |ops| {
      assert ops[..|ops| - 1][..k] == ops[..k];
      NothingAfterEnd(cfg, ops[..|ops| - 1], k);
    } else {
      assert ops[..k] == ops;
    }
  }

  lemma PlainWithoutSecrets(s: Bytes)
    ensures OneShot(s, []) == Plains(s)
  {
    var m := Mask(s, []);
    RenderPlain(s, m, 0, 0, |s|);
    assert s[0..|s|] == s;
    assert Render(s, m, 0, 0) == [];
  }

  /** The one-shot output has no two neighbouring markers. */
  lemma OneShotCollapsed(s: Bytes, secrets: seq<Bytes>)
    ensures Collapse(OneShot(s, secrets)) == OneShot(s, secrets)
  {
    CollapseRenderMore(s, Mask(s, secrets), {}, |s|, |s|);
  }

  ghost function Closed(cfg: Config, chunks: seq<Bytes>): seq<Token>
    requires ValidConfig(cfg)
  {
    var r := Fold(cfg, chunks);
    if r.tail.bytes == [] then r.out else r.out + Finish(cfg, r.tail)
  }

  lemma ClosedIsOneShot(cfg: Config, chunks: seq<Bytes>)
    requires ValidConfig(cfg)
    ensures Collapse(Closed(cfg, chunks)) == OneShot(Concat(chunks), cfg.secrets)
    ensures !Fold(cfg, chunks).forced ==> Closed(cfg, chunks) == OneShot(Concat(chunks), cfg.secrets)
  {
    var r := Fold(cfg, chunks);
    if cfg.secrets == [] {
      PlainWithoutSecrets(Concat(chunks));
      OneShotCollapsed(Concat(chunks), []);
    } else {
      ChunkingIsInvisible(cfg, chunks);
      assert r.tail.bytes == [] ==> r.out + Finish(cfg, r.tail) == r.out;
    }
  }

  /** From n on, before the last frame, a frame of stdout and one of stderr at most. */
  ghost predicate StdoutFirst(fs: seq<Frame>, n: nat) {
    forall i, j :: n <= i < j < |fs| - 1 ==> fs[i].Data? && fs[j].Data? && fs[i].stream == Stdout && fs[j].stream == Stderr
  }

  lemma EndShows(cfg: Config, ops: seq<Op>, pl: Plane, e: Bytes, st: Stream)
    requires ValidConfig(cfg) && Open(cfg, ops, pl)
    ensures
      var fs := EndStep(cfg, pl, e).frames;
      var last := |fs| - 1;
      && 0 <= last && fs[last] == StreamEnd(OneShot(e, cfg.secrets))
      && (forall i :: 0 <= i < last ==> fs[i].Data?)
      && Shown(fs, st) == Closed(cfg, Chunks(ops, st))
      && pl.frames <= fs
      && StdoutFirst(fs, |pl.frames|)
  {
    hide Finish, Fold, Shown, OneShot;
    var d1 := DrainStep(cfg, pl, Stdout);
    var d2 := DrainStep(cfg, d1, Stderr);
    ShownSnoc(pl.frames, Data(Stdout, Finish(cfg, pl.stdout)), st);
    ShownSnoc(d1.frames, Data(Stderr, Finish(cfg, pl.stderr)), st);
    ShownSnoc(d2.frames, StreamEnd(OneShot(e, cfg.secrets)), st);
    assert forall x: seq<Token> {:trigger x + []} :: x + [] == x;
  }

  /** Any run of writes, then an end: the frames are data frames followed by the
      one stream-end frame, and each stream shows the one-shot redaction of
      everything written to it, exactly so when no flush was forced. After the frames
      of the writes come what is left of stdout and of stderr, in that order. */
  lemma StreamsAreRedacted(cfg: Config, ops: seq<Op>, e: Bytes, later: seq<Op>, st: Stream)
    requires ValidConfig(cfg) && forall i :: 0 <= i < |ops| ==> ops[i].Write?
    ensures
      var fs := Run(cfg, ops + [End(e)] + later).frames;
      var last := |fs| - 1;
      && 0 <= last && fs[last] == StreamEnd(OneShot(e, cfg.secrets))
      && (forall i :: 0 <= i < last ==> fs[i].Data?)
      && Collapse(Shown(fs, st)) == OneShot(Concat(Chunks(ops, st)), cfg.secrets)
      && (!Fold(cfg, Chunks(ops, st)).forced ==> Shown(fs, st) == OneShot(Concat(Chunks(ops, st)), cfg.secrets))
      && Run(cfg, ops).frames <= fs
      && StdoutFirst(fs, |Run(cfg, ops).frames|)
  {
    hide Open, OneShot, Closed, Fold, Shown, EndStep, StdoutFirst;
    OpenRun(cfg, ops);
    EndShows(cfg, ops, Run(cfg, ops), e, st);
    ClosedIsOneShot(cfg, Chunks(ops, st));
    var ended := ops + [End(e)];
    assert ended[..|ops|] == ops && (ended + later)[..|ended|] == ended;
    EndSets(cfg, Run(cfg, ops), e);
    NothingAfterEnd(cfg, ended + later, |ended|);
  }

  lemma EndSets(cfg: Config, pl: Plane, e: Bytes)
    ensures EndStep(cfg, pl, e).ended
  {
  }

  // ---------- runs over a wire that breaks ----------

  ghost function RunWithin(cfg: Config, room: nat, ops: seq<Op>): Plane
    requires ValidConfig(cfg)
  {
    if ops == [] then Plane(Tail([], 0), Tail([], 0), [], false)
    else
      var pl := RunWithin(cfg, room, ops[..|ops| - 1]);
      match ops[|ops| - 1]
      case Write(st, bytes) => WriteWithin(cfg, room, pl, st, bytes)
      case End(e) => EndWithin(cfg, room, pl, e)
  }

  /** As long as the wire holds the two planes agree; from then on a full wire shows
      the first frames of the unbroken one. */
  ghost predicate Broken(room: nat, pl: Plane, whole: Plane) {
    if |whole.frames| <= room then pl == whole
    else |pl.frames| == room && pl.frames <= whole.frames && !pl.ended
  }

  lemma DrainGrows(cfg: Config, room: nat, pl: Plane, whole: Plane, st: Stream)
    requires Broken(room, pl, whole) && !pl.ended
    ensures Broken(room, DrainWithin(cfg, room, pl, st), DrainStep(cfg, whole, st)) && !DrainWithin(cfg, room, pl, st).ended
    ensures |pl.frames| == room ==> DrainWithin(cfg, room, pl, st).frames == pl.frames
    ensures |whole.frames| <= room && |DrainStep(cfg, whole, st).frames| > room ==> DrainWithin(cfg, room, pl, st).Of(st).bytes != []
    ensures |DrainStep(cfg, whole, st).frames| <= room ==> DrainWithin(cfg, room, pl, st).Of(st).bytes == []
  {
    hide Finish;
  }

  lemma WriteGrows(cfg: Config, room: nat, pl: Plane, whole: Plane, st: Stream, bytes: Bytes)
    requires ValidConfig(cfg) && Broken(room, pl, whole)
    ensures Broken(room, WriteWithin(cfg, room, pl, st, bytes), WriteStep(cfg, whole, st, bytes))
  {
    hide Redacted;
  }

  lemma EndGrows(cfg: Config, room: nat, pl: Plane, whole: Plane, e: Bytes)
    requires Broken(room, pl, whole)
    ensures Broken(room, EndWithin(cfg, room, pl, e), EndStep(cfg, whole, e))
  {
    if !pl.ended {
      var one := DrainStep(cfg, whole, Stdout);
      DrainGrows(cfg, room, pl, whole, Stdout);
      DrainGrows(cfg, room, DrainWithin(cfg, room, pl, Stdout), one, Stderr);
      hide DrainStep, DrainWithin;
    }
  }

  /** Over a wire that breaks after any number of frames, every run delivers the
      first frames of the run over a wire that holds, whatever is tried again. */
  lemma {:induction false} BrokenWireShowsPrefix(cfg: Config, room: nat, ops: seq<Op>)
    requires ValidConfig(cfg)
    ensures Broken(room, RunWithin(cfg, room, ops), Run(cfg, ops))
    ensures
      var whole := Run(cfg, ops).frames;
      RunWithin(cfg, room, ops).frames == whole[..if |whole| <= room then |whole| else room]
  {
    if ops != [] {
      var n := |ops| - 1;
      BrokenWireShowsPrefix(cfg, room, ops[..n]);
      var pl, whole := RunWithin(cfg, room, ops[..n]), Run(cfg, ops[..n]);
      hide WriteStep, WriteWithin, EndStep, EndWithin;
      match ops[n]
      case Write(st, bytes) => WriteGrows(cfg, room, pl, whole, st, bytes);
      case End(e) => EndGrows(cfg, room, pl, whole, e);
    }
  }
}
