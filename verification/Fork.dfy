/**
  Fork: a session's events up to a point, copied behind a fork record into an
  empty destination log under a new trace id, and how that copy replays.
*/
module Fork {
  import opened Wrappers
  import opened Events
  import opened Replay
  import LogWriter

  datatype Error = BadPoint | EmptySource | SameTrace | NoSuchSeq

  datatype Outcome = Ready(batch: seq<Event>) | Refused(error: Error)

  function Cut(events: seq<Event>, atSeq: int): seq<Event> {
    if events == [] then []
    else
      var front, e := events[..|events| - 1], events[|events| - 1];
      if e.seqNo <= atSeq then Cut(front, atSeq) + [e] else Cut(front, atSeq)
  }

  /** ref is what the fork record's payload encodes; encode stands for the JSON encoder. */
  function ForkRecord(cut: seq<Event>, ref: ForkRef, newTrace: string, encode: ForkRef -> string): Event
    requires cut != []
  {
    Event(0, cut[|cut| - 1].ts, newTrace, cut[0].spanId, SessionFork, "parent", Payload(encode(ref), Some(ref)), None, None)
  }

  function Retraced(events: seq<Event>, newTrace: string): seq<Event> {
    seq(|events|, i requires 0 <= i < |events| => events[i].(traceId := newTrace))
  }

  function Batch(cut: seq<Event>, ref: ForkRef, newTrace: string, encode: ForkRef -> string): seq<Event>
    requires cut != []
  {
    [ForkRecord(cut, ref, newTrace, encode)] + Retraced(cut, newTrace)
  }

  ghost predicate HasSeq(events: seq<Event>, n: int) {
    exists i :: 0 <= i < |events| && events[i].seqNo == n
  }

  /** Fork up to the hand-over to the destination writer. */
  method Prepare(events: seq<Event>, atSeq: int, newTrace: string, encode: ForkRef -> string) returns (r: Outcome)
    ensures r == Refused(BadPoint) <==> atSeq < 1
    ensures r == Refused(EmptySource) <==> atSeq >= 1 && events == []
    ensures r == Refused(SameTrace) <==> atSeq >= 1 && events != [] && newTrace == events[0].traceId
    ensures r == Refused(NoSuchSeq) <==>
      atSeq >= 1 && events != [] && newTrace != events[0].traceId && !HasSeq(events, atSeq)
    ensures r.Ready? ==>
      var cut, ref := Cut(events, atSeq), ForkRef(events[0].traceId, atSeq);
      && cut != [] && r.batch == Batch(cut, ref, newTrace, encode)
      && |r.batch| == |cut| + 1 && r.batch[0].kind == SessionFork && r.batch[0].payload == Payload(encode(ref), Some(ref))
      && r.batch[0].traceId == newTrace && r.batch[0].spanId == cut[0].spanId && r.batch[0].ts == cut[|cut| - 1].ts
      && forall i :: 0 <= i < |cut| ==> r.batch[i + 1] == cut[i].(traceId := newTrace)
  {
    if atSeq < 1 {
      return Refused(BadPoint);
    }
    if events == [] {
      return Refused(EmptySource);
    }
    var origin := events[0].traceId;
    if newTrace == origin {
      return Refused(SameTrace);
    }
    var cut, found := [], false;
    for i := 0 to |events|
      invariant cut == Cut(events[..i], atSeq)
      invariant found <==> HasSeq(events[..i], atSeq)
      invariant found ==> cut != []
    {
      var e := events[i];
      assert events[..i + 1][..i] == events[..i];
      HasSeqSnoc(events, i, atSeq);
      if e.seqNo <= atSeq {
        cut := cut + [e];
      }
      if e.seqNo == atSeq {
        found := true;
      }
    }
    assert events[..|events|] == events;
    if !found {
      return Refused(NoSuchSeq);
    }
    var ref := ForkRef(origin, atSeq);
    var batch := [ForkRecord(cut, ref, newTrace, encode)];
    for i := 0 to |cut|
      invariant batch == [ForkRecord(cut, ref, newTrace, encode)] + Retraced(cut, newTrace)[..i]
    {
      batch := batch + [cut[i].(traceId := newTrace)];
    }
    return Ready(batch);
  }

  lemma HasSeqSnoc(events: seq<Event>, i: nat, n: int)
    requires i < |events|
    ensures HasSeq(events[..i + 1], n) <==> HasSeq(events[..i], n) || events[i].seqNo == n
  {
    if HasSeq(events[..i], n) {
      var j :| 0 <= j < i && events[..i][j].seqNo == n;
      assert events[..i + 1][j].seqNo == n;
    }
    if HasSeq(events[..i + 1], n) {
      var j :| 0 <= j < i + 1 && events[..i + 1][j].seqNo == n;
      assert j < i ==> events[..i][j].seqNo == n;
    }
    assert events[..i + 1][i] == events[i];
  }

  // ---------- how the copy replays ----------

  /** The records as the destination writer numbers them. */
  function Numbered(batch: seq<Event>): seq<Event> {
    seq(|batch|, i requires 0 <= i < |batch| => batch[i].(seqNo := i + 1))
  }

  /** The copy of the first n cut events, behind the fork record. */
  function Copy(cut: seq<Event>, n: nat, ref: ForkRef, newTrace: string, encode: ForkRef -> string): seq<Event>
    requires cut != [] && n <= |cut|
  {
    Numbered(Batch(cut, ref, newTrace, encode))[..n + 1]
  }

  /** m' is m under the number of its event's place in the copy. */
  ghost predicate Moved(cut: seq<Event>, m: Message, m': Message) {
    exists j :: 0 <= j < |cut| && cut[j].seqNo == m.seqNo && m' == m.(seqNo := j + 2)
  }

  ghost predicate MovedAll(cut: seq<Event>, ms: seq<Message>, ms': seq<Message>) {
    |ms'| == |ms| && forall i :: 0 <= i < |ms| ==> Moved(cut, ms[i], ms'[i])
  }

  /** d' is d, seen in the fork. */
  ghost predicate Mirrors(cut: seq<Event>, d: Derived, d': Derived, lastSeq: int, ref: ForkRef, newTrace: string) {
    && d' == d.(traceId := newTrace, lastSeq := lastSeq, origin := Some(ref), messages := d'.messages)
    && MovedAll(cut, d.messages, d'.messages)
  }

  lemma DispatchMirrors(cut: seq<Event>, d: Derived, d': Derived, j: nat, e': Event, ref: ForkRef, newTrace: string)
    requires j < |cut| && e' == cut[j].(traceId := newTrace, seqNo := j + 2)
    requires Mirrors(cut, d, d', j + 2, ref, newTrace) && Dispatch(d, cut[j]).Some?
    ensures Dispatch(d', e').Some?
    ensures Mirrors(cut, Dispatch(d, cut[j]).value, Dispatch(d', e').value, j + 2, ref, newTrace)
  {
    hide MovedAll, Shown, Tally;
    ShownMoves(cut, d.rootSpan, j, e');
    MovedAppend(cut, d.messages, d'.messages, Shown(d.rootSpan, cut[j]), Shown(d.rootSpan, e'));
  }

  lemma MovedAppend(cut: seq<Event>, a: seq<Message>, a': seq<Message>, b: seq<Message>, b': seq<Message>)
    requires MovedAll(cut, a, a') && MovedAll(cut, b, b')
    ensures MovedAll(cut, a + b, a' + b')
  {
    hide Moved;
  }

  lemma ShownMoves(cut: seq<Event>, root: string, j: nat, e': Event)
    requires j < |cut| && e' == cut[j].(traceId := e'.traceId, seqNo := j + 2)
    ensures MovedAll(cut, Shown(root, cut[j]), Shown(root, e'))
  {
  }

  lemma StepMirrors(cut: seq<Event>, d: Derived, d': Derived, j: nat, e': Event, ref: ForkRef, newTrace: string)
    requires j < |cut| && e' == cut[j].(traceId := newTrace, seqNo := j + 2)
    requires Mirrors(cut, d, d', j + 1, ref, newTrace) && Step(d, cut[j]).Some?
    ensures Step(d', e').Some?
    ensures Mirrors(cut, Step(d, cut[j]).value, Step(d', e').value, j + 2, ref, newTrace)
  {
    hide Charge, Dispatch, MovedAll;
    var a := ChargeBoth(d.accounts, cut[j]).value;
    DispatchMirrors(cut, d.(lastSeq := cut[j].seqNo, accounts := a), d'.(lastSeq := e'.seqNo, accounts := a),
                    j, e', ref, newTrace);
  }

  lemma CopySnoc(cut: seq<Event>, n: nat, ref: ForkRef, newTrace: string, encode: ForkRef -> string)
    requires n < |cut|
    ensures Copy(cut, n + 1, ref, newTrace, encode)
         == Copy(cut, n, ref, newTrace, encode) + [cut[n].(traceId := newTrace, seqNo := n + 2)]
  {
  }

  lemma FoldSnoc(first: Event, events: seq<Event>, e: Event)
    requires Fold(first, events).Some?
    ensures Fold(first, events + [e]) == Step(Fold(first, events).value, e)
  {
    assert (events + [e])[..|events|] == events;
  }

  lemma ForkRecordStarts(cut: seq<Event>, ref: ForkRef, newTrace: string, encode: ForkRef -> string)
    requires cut != []
    ensures
      var copy := Copy(cut, 0, ref, newTrace, encode);
      && copy != [] && Fold(copy[0], copy).Some?
      && Mirrors(cut, Begin(cut[0]), Fold(copy[0], copy).value, 1, ref, newTrace)
  {
    var f := ForkRecord(cut, ref, newTrace, encode).(seqNo := 1);
    assert Copy(cut, 0, ref, newTrace, encode) == [] + [f];
    FoldSnoc(f, [], f);
  }

  lemma {:induction false} FoldMirrors(cut: seq<Event>, n: nat, ref: ForkRef, newTrace: string, encode: ForkRef -> string)
    requires cut != [] && n <= |cut| && Fold(cut[0], cut[..n]).Some?
    ensures
      var copy := Copy(cut, n, ref, newTrace, encode);
      && copy != [] && Fold(copy[0], copy).Some?
      && Mirrors(cut, Fold(cut[0], cut[..n]).value, Fold(copy[0], copy).value, n + 1, ref, newTrace)
  {
    if n == 0 {
      assert cut[..0] == [];
      ForkRecordStarts(cut, ref, newTrace, encode);
    } else {
      assert cut[..n] == cut[..n - 1] + [cut[n - 1]];
      FoldPrefix(cut[0], cut[..n - 1], cut[n - 1]);
      FoldMirrors(cut, n - 1, ref, newTrace, encode);
      var before, e := Copy(cut, n - 1, ref, newTrace, encode), cut[n - 1].(traceId := newTrace, seqNo := n + 1);
      CopySnoc(cut, n - 1, ref, newTrace, encode);
      hide Step, Mirrors, Copy, Fold;
      FoldSnoc(cut[0], cut[..n - 1], cut[n - 1]);
      FoldSnoc(before[0], before, e);
      StepMirrors(cut, Fold(cut[0], cut[..n - 1]).value, Fold(before[0], before).value, n - 1, e, ref, newTrace);
    }
  }

  lemma FoldPrefix(first: Event, events: seq<Event>, e: Event)
    requires Fold(first, events + [e]).Some?
    ensures Fold(first, events).Some?
  {
    assert (events + [e])[..|events|] == events;
  }

  /** Fork commutes with replay: if the prefix replays, so does the fork, to the
      same root span, usage books, counters and ended flag, under the new trace and
      with the fork's own origin, whatever origin the source had; each message
      carries the number of its event's place in the copy. */
  lemma ForkCommutes(cut: seq<Event>, ref: ForkRef, newTrace: string, encode: ForkRef -> string)
    requires Projection(cut).Some?
    ensures
      var forked := Projection(Numbered(Batch(cut, ref, newTrace, encode)));
      && forked.Some?
      && Mirrors(cut, Projection(cut).value, forked.value, |cut| + 1, ref, newTrace)
  {
    assert cut[..|cut|] == cut;
    var all := Numbered(Batch(cut, ref, newTrace, encode));
    assert all[..|cut| + 1] == all;
    FoldMirrors(cut, |cut|, ref, newTrace, encode);
  }

  /** On a log in order, the cut is the prefix that ends at the fork point. */
  lemma {:induction false} CutIsPrefix(events: seq<Event>, k: nat, atSeq: int)
    requires k < |events| && events[k].seqNo == atSeq
    requires forall i, j :: 0 <= i < j < |events| ==> events[i].seqNo < events[j].seqNo
    ensures Cut(events, atSeq) == events[..k + 1]
    decreases |events|
  {
    var n := |events| - 1;
    if k < n {
      CutIsPrefix(events[..n], k, atSeq);
      assert events[..n][..k + 1] == events[..k + 1];
    } else {
      CutIsAll(events[..n], atSeq);
      assert events[..k + 1] == events[..n] + [events[n]];
    }
  }

  lemma {:induction false} CutIsAll(events: seq<Event>, atSeq: int)
    requires forall i :: 0 <= i < |events| ==> events[i].seqNo <= atSeq
    ensures Cut(events, atSeq) == events
  {
    if events != [] {
      CutIsAll(events[..|events| - 1], atSeq);
    }
  }

  function Records(log: seq<LogWriter.Entry>): seq<Event> {
    seq(|log|, i requires 0 <= i < |log| => log[i].rec)
  }

  /** The destination's preparation leaves the numbered batch as it is. */
  ghost predicate Unredacted(cfg: LogWriter.Config, batch: seq<Event>) {
    forall i :: 0 <= i < |batch| ==> LogWriter.Prepared(cfg, batch[i], i + 1) == Some(batch[i].(seqNo := i + 1))
  }

  /** End to end: in every run of the destination writer in which the fork's init
      batch returned without error, the log begins with the copy, which replays
      as the source prefix does. */
  lemma ForkedLogReplays(cfg: LogWriter.Config, stored: seq<Event>, ls: seq<LogWriter.Label>, id: LogWriter.Id,
                         s: LogWriter.State, cut: seq<Event>, ref: ForkRef, newTrace: string, encode: ForkRef -> string)
    requires LogWriter.KeepsSeq(cfg) && LogWriter.Numbered(LogWriter.Opened(stored))
    requires LogWriter.Exec(cfg, stored, ls) == Some(s)
    requires Projection(cut).Some? && Unredacted(cfg, Batch(cut, ref, newTrace, encode))
    requires id in s.calls && s.calls[id].content == LogWriter.Batch(Batch(cut, ref, newTrace, encode))
    requires s.calls[id].status.Returned? && s.calls[id].status.answer.Committed?
    ensures
      var n := |cut| + 1;
      && |s.store.log| >= n
      && Projection(Records(s.store.log[..n])).Some?
      && Mirrors(cut, Projection(cut).value, Projection(Records(s.store.log[..n])).value, n, ref, newTrace)
  {
    var batch := Batch(cut, ref, newTrace, encode);
    var n := s.calls[id].status.answer.seqNo;
    assert ls + [] == ls;
    LogWriter.ReturnsAreFinal(cfg, stored, ls, [], id, s, s);
    assert LogWriter.Present(cfg, s.store.log, id, LogWriter.Batch(batch), n);
    CopyIsStored(cfg, s.store.log, id, batch, n);
    ForkCommutes(cut, ref, newTrace, encode);
  }

  lemma CopyIsStored(cfg: LogWriter.Config, log: seq<LogWriter.Entry>, id: LogWriter.Id, batch: seq<Event>, n: int)
    requires LogWriter.Present(cfg, log, id, LogWriter.Batch(batch), n) && Unredacted(cfg, batch)
    ensures n == |batch| <= |log| && Records(log[..n]) == Numbered(batch)
  {
    forall i | 0 <= i < n ensures log[i].rec == batch[i].(seqNo := i + 1) {
      assert LogWriter.Holds(cfg, log, LogWriter.Batch(batch), 0, i);
    }
  }
}
