/**
  The single-writer log: producers that submit records or an initial batch, a
  bounded queue, one loop that numbers and commits, and Close. Each channel
  operation, each mutex-held region and each store call is one step, and the
  steps of all parties interleave freely. Redaction and schema validation are
  one abstract function; a store error means that nothing was committed.
*/
module LogWriter {
  import opened Wrappers
  import opened Events

  type Id = nat

  /** What is submitted. */
  datatype Content = Single(rec: Event) | Batch(recs: seq<Event>)

  datatype Error = Closed | Terminal | Cancelled | Refused | NotEmpty | EmptyBatch

  datatype Answer = Committed(seqNo: int) | Failed(error: Error)

  /** How far a call has come. */
  datatype Status = Checking | Offering | Queued | Answered(answer: Answer) | Returned(answer: Answer)

  datatype Call = Call(content: Content, status: Status)

  /** A committed record and the call it belongs to, if it was not there before. */
  datatype Entry = Entry(rec: Event, owner: Option<Id>)

  /** The part of the state that only the loop touches. */
  datatype Store = Store(log: seq<Entry>, nextSeq: int, terminal: bool)

  datatype Loop =
    | Selecting
    | Draining
    | Processing(id: Id, draining: bool)
    | Acking(id: Id, answer: Answer, draining: bool)
    | Exited

  datatype State = State(store: Store, calls: map<Id, Call>, queue: seq<Id>, closing: bool, loop: Loop)

  /** prepare redacts and validates a numbered record; it never renumbers. */
  datatype Config = Config(queueCap: nat, prepare: Event -> Option<Event>)

  ghost predicate KeepsSeq(cfg: Config) {
    forall e :: cfg.prepare(e).Some? ==> cfg.prepare(e).value.seqNo == e.seqNo
  }

  // ---------- one submission ----------

  function Prepared(cfg: Config, rec: Event, n: int): Option<Event> {
    cfg.prepare(rec.(seqNo := n))
  }

  /** All of a batch, numbered from 1, or nothing. */
  function PrepareAll(cfg: Config, recs: seq<Event>): Option<seq<Event>> {
    if recs == [] then Some([])
    else match PrepareAll(cfg, recs[..|recs| - 1])
      case None => None
      case Some(front) =>
        match Prepared(cfg, recs[|recs| - 1], |recs|)
        case None => None
        case Some(e) => Some(front + [e])
  }

  function Owned(recs: seq<Event>, id: Id): seq<Entry> {
    seq(|recs|, i requires 0 <= i < |recs| => Entry(recs[i], Some(id)))
  }

  datatype Outcome = Outcome(store: Store, answer: Answer)

  /** What the loop does with one submission. */
  function Process(cfg: Config, st: Store, id: Id, content: Content, storeOk: bool): Outcome {
    if st.terminal then Outcome(st, Failed(Terminal))
    else match content
      case Batch(recs) =>
        if st.nextSeq != 1 then Outcome(st, Failed(NotEmpty))
        else (match PrepareAll(cfg, recs)
          case None => Outcome(st, Failed(Refused))
          case Some(ready) =>
            if !storeOk then Outcome(st.(terminal := true), Failed(Terminal))
            else
              Outcome(st.(log := st.log + Owned(ready, id), nextSeq := st.nextSeq + |ready|),
                      Committed(st.nextSeq + |ready| - 1)))
      case Single(rec) =>
        match Prepared(cfg, rec, st.nextSeq)
        case None => Outcome(st, Failed(Refused))
        case Some(e) =>
          if !storeOk then Outcome(st.(terminal := true), Failed(Terminal))
          else Outcome(st.(log := st.log + [Entry(e, Some(id))], nextSeq := st.nextSeq + 1), Committed(e.seqNo))
  }

  /** The loop's own variables, updated in place. */
  class LoopState {
    const cfg: Config
    var log: seq<Entry>
    var nextSeq: int
    var terminal: bool

    constructor (cfg: Config, stored: seq<Event>)
      ensures this.cfg == cfg && Value() == Opened(stored)
    {
      this.cfg := cfg;
      log := seq(|stored|, i requires 0 <= i < |stored| => Entry(stored[i], None));
      nextSeq := |stored| + 1;
      terminal := false;
    }

    function Value(): Store
      reads this
    {
      Store(log, nextSeq, terminal)
    }

    method ProcessOne(id: Id, content: Content, storeOk: bool) returns (answer: Answer)
      modifies this
      ensures Outcome(Value(), answer) == Process(cfg, old(Value()), id, content, storeOk)
    {
      if terminal {
        return Failed(Terminal);
      }
      match content
      case Batch(recs) =>
        if nextSeq != 1 {
          return Failed(NotEmpty);
        }
        var ready := PrepareBatch(cfg, recs);
        if ready.None? {
          return Failed(Refused);
        }
        if !storeOk {
          terminal := true;
          return Failed(Terminal);
        }
        log := log + Owned(ready.value, id);
        nextSeq := nextSeq + |ready.value|;
        return Committed(nextSeq - 1);
      case Single(rec) =>
        var e := cfg.prepare(rec.(seqNo := nextSeq));
        if e.None? {
          return Failed(Refused);
        }
        if !storeOk {
          terminal := true;
          return Failed(Terminal);
        }
        log := log + [Entry(e.value, Some(id))];
        nextSeq := nextSeq + 1;
        return Committed(e.value.seqNo);
    }
  }

  method PrepareBatch(cfg: Config, recs: seq<Event>) returns (r: Option<seq<Event>>)
    ensures r == PrepareAll(cfg, recs)
  {
    var ready := [];
    for i := 0 to |recs|
      invariant PrepareAll(cfg, recs[..i]) == Some(ready)
    {
      assert recs[..i + 1][..i] == recs[..i];
      var e := cfg.prepare(recs[i].(seqNo := i + 1));
      if e.None? {
        PrepareFails(cfg, recs, i + 1);
        return None;
      }
      ready := ready + [e.value];
    }
    assert recs[..|recs|] == recs;
    return Some(ready);
  }

  lemma {:induction false} PrepareFails(cfg: Config, recs: seq<Event>, k: nat)
    requires k <= |recs| && PrepareAll(cfg, recs[..k]).None?
    ensures PrepareAll(cfg, recs).None?
    decreases |recs|
  {
    if k < |recs| {
      assert recs[..|recs| - 1][..k] == recs[..k];
      PrepareFails(cfg, recs[..|recs| - 1], k);
    } else {
      assert recs[..k] == recs;
    }
  }

  lemma {:induction false} PreparedEach(cfg: Config, recs: seq<Event>)
    requires PrepareAll(cfg, recs).Some?
    ensures |PrepareAll(cfg, recs).value| == |recs|
    ensures forall i :: 0 <= i < |recs| ==> Prepared(cfg, recs[i], i + 1) == Some(PrepareAll(cfg, recs).value[i])
  {
    if recs != [] {
      PreparedEach(cfg, recs[..|recs| - 1]);
    }
  }

  // ---------- the machine ----------

  datatype Label =
    | Begin(id: Id, content: Content) | CheckClosing(id: Id) | Enqueue(id: Id)
    | GiveUp(id: Id, error: Error) | Receive(id: Id) | MissedAck(id: Id)
    | Close
    | Take | StartDrain | Commit(storeOk: bool) | Ack | Exit

  function Opened(stored: seq<Event>): Store {
    Store(seq(|stored|, i requires 0 <= i < |stored| => Entry(stored[i], None)), |stored| + 1, false)
  }

  function Initial(stored: seq<Event>): State {
    State(Opened(stored), map[], [], false, Selecting)
  }

  predicate At(s: State, id: Id, st: Status) {
    id in s.calls && s.calls[id].status == st
  }

  predicate Enabled(cfg: Config, s: State, l: Label) {
    match l
    case Begin(id, _) => id !in s.calls
    case CheckClosing(id) => At(s, id, Checking)
    case Enqueue(id) => At(s, id, Offering) && |s.queue| < cfg.queueCap
    case GiveUp(id, e) => At(s, id, Offering) && (e == Cancelled || (e == Closed && s.closing))
    case Receive(id) => id in s.calls && s.calls[id].status.Answered?
    case MissedAck(id) => At(s, id, Queued) && s.loop.Exited?
    case Close => true
    case Take => (s.loop.Selecting? || s.loop.Draining?) && s.queue != []
    case StartDrain => s.loop.Selecting? && s.closing
    case Commit(_) => s.loop.Processing? && s.loop.id in s.calls
    case Ack => s.loop.Acking? && s.loop.id in s.calls
    case Exit => s.loop.Draining? && s.queue == []
  }

  function Move(s: State, id: Id, st: Status): State
    requires id in s.calls
  {
    s.(calls := s.calls[id := s.calls[id].(status := st)])
  }

  function Apply(cfg: Config, s: State, l: Label): State
    requires Enabled(cfg, s, l)
  {
    match l
    case Begin(id, content) =>
      s.(calls := s.calls[id := Call(content,
        if content == Batch([]) then Returned(Failed(EmptyBatch))
        else if s.store.terminal then Returned(Failed(Terminal))
        else Checking)])
    case CheckClosing(id) => Move(s, id, if s.closing then Returned(Failed(Closed)) else Offering)
    case Enqueue(id) => Move(s, id, Queued).(queue := s.queue + [id])
    case GiveUp(id, e) => Move(s, id, Returned(Failed(e)))
    case Receive(id) => Move(s, id, Returned(s.calls[id].status.answer))
    case MissedAck(id) => Move(s, id, Returned(Failed(Closed)))
    case Close => s.(closing := true)
    case Take => s.(queue := s.queue[1..], loop := Processing(s.queue[0], s.loop.Draining?))
    case StartDrain => s.(loop := Draining)
    case Commit(storeOk) =>
      var o := Process(cfg, s.store, s.loop.id, s.calls[s.loop.id].content, storeOk);
      s.(store := o.store, loop := Acking(s.loop.id, o.answer, s.loop.draining))
    case Ack => Move(s, s.loop.id, Answered(s.loop.answer)).(loop := if s.loop.draining then Draining else Selecting)
    case Exit => s.(loop := Exited)
  }

  function Exec(cfg: Config, stored: seq<Event>, ls: seq<Label>): Option<State> {
    if ls == [] then Some(Initial(stored))
    else
      var l := ls[|ls| - 1];
      match Exec(cfg, stored, ls[..|ls| - 1])
      case None => None
      case Some(s) => if Enabled(cfg, s, l) then Some(Apply(cfg, s, l)) else None
  }

  // ---------- what holds in every run ----------

  ghost predicate Numbered(st: Store) {
    && st.nextSeq == |st.log| + 1
    && forall i :: 0 <= i < |st.log| ==> st.log[i].rec.seqNo == i + 1
  }

  ghost predicate Absent(log: seq<Entry>, id: Id) {
    forall i :: 0 <= i < |log| ==> log[i].owner != Some(id)
  }

  /** Where the records of a call that was told n begin. */
  function Start(content: Content, n: int): int {
    match content
    case Single(_) => n - 1
    case Batch(recs) => n - |recs|
  }

  function Item(content: Content, k: int): Event
    requires content.Batch? ==> 0 <= k < |content.recs|
  {
    match content
    case Single(rec) => rec
    case Batch(recs) => recs[k]
  }

  /** Entry i is the prepared form, numbered i + 1, of the call's own record. */
  ghost predicate Holds(cfg: Config, log: seq<Entry>, content: Content, first: int, i: int)
    requires 0 <= i < |log|
  {
    && (content.Batch? ==> 0 <= i - first < |content.recs|)
    && Prepared(cfg, Item(content, i - first), i + 1) == Some(log[i].rec)
  }

  /** The entries of the call are exactly those up to n, each holding its record;
      a batch has the log to itself up to there. */
  ghost predicate Present(cfg: Config, log: seq<Entry>, id: Id, content: Content, n: int) {
    var first := Start(content, n);
    && 0 <= first < n <= |log|
    && (content.Batch? ==> first == 0)
    && (forall i :: 0 <= i < |log| ==> (log[i].owner == Some(id) <==> first <= i < n))
    && (forall i :: first <= i < n ==> Holds(cfg, log, content, first, i))
  }

  ghost predicate Settled(cfg: Config, log: seq<Entry>, id: Id, content: Content, a: Answer) {
    match a
    case Committed(n) => Present(cfg, log, id, content, n)
    case Failed(_) => Absent(log, id)
  }

  ghost predicate Fate(cfg: Config, s: State, id: Id)
    requires id in s.calls
  {
    var c := s.calls[id];
    match c.status
    case Answered(a) => Settled(cfg, s.store.log, id, c.content, a)
    case Returned(a) => Settled(cfg, s.store.log, id, c.content, a)
    case _ =>
      if s.loop.Acking? && s.loop.id == id then Settled(cfg, s.store.log, id, c.content, s.loop.answer)
      else Absent(s.store.log, id)
  }

  ghost predicate Fates(cfg: Config, s: State) {
    && (forall id :: id in s.calls ==> Fate(cfg, s, id))
    && (forall id :: id !in s.calls ==> Absent(s.store.log, id))
    && (forall id :: id in s.calls && s.calls[id].content == Batch([]) ==> s.calls[id].status.Returned?)
  }

  /** A call is in the loop's hands or in the queue once, and waits meanwhile,
      unless it gave up after the loop had gone. */
  ghost predicate Waiting(s: State) {
    && (forall i :: 0 <= i < |s.queue| ==>
          || At(s, s.queue[i], Queued)
          || (s.loop.Exited? && At(s, s.queue[i], Returned(Failed(Closed)))))
    && (forall i, j :: 0 <= i < j < |s.queue| ==> s.queue[i] != s.queue[j])
    && (s.loop.Processing? || s.loop.Acking? ==> At(s, s.loop.id, Queued) && s.loop.id !in s.queue)
    && (forall id :: At(s, id, Queued) ==> id in s.queue || ((s.loop.Processing? || s.loop.Acking?) && s.loop.id == id))
  }

  ghost predicate Inv(cfg: Config, s: State) {
    Numbered(s.store) && Fates(cfg, s) && Waiting(s)
  }

  /** One submission: either nothing is written, or its records are, at the end. */
  lemma ProcessSettles(cfg: Config, st: Store, id: Id, content: Content, storeOk: bool, o: Outcome)
    requires KeepsSeq(cfg) && Numbered(st) && Absent(st.log, id) && content != Batch([])
    requires o == Process(cfg, st, id, content, storeOk)
    ensures Numbered(o.store)
    ensures Settled(cfg, o.store.log, id, content, o.answer)
  {
    if o.answer.Committed? && content.Batch? {
      PreparedEach(cfg, content.recs);
    }
  }

  /** A submission only adds entries of its own, and none once the store failed. */
  lemma ProcessExtends(cfg: Config, st: Store, id: Id, content: Content, storeOk: bool, o: Outcome)
    requires o == Process(cfg, st, id, content, storeOk)
    ensures |st.log| <= |o.store.log| && o.store.log[..|st.log|] == st.log
    ensures forall i :: |st.log| <= i < |o.store.log| ==> o.store.log[i].owner == Some(id)
    ensures st.terminal ==> o.store == st
  {
  }

  lemma SettledLater(cfg: Config, log: seq<Entry>, more: seq<Entry>, id: Id, content: Content, a: Answer)
    requires Settled(cfg, log, id, content, a)
    requires |log| <= |more| && more[..|log|] == log
    requires forall i :: |log| <= i < |more| ==> more[i].owner != Some(id)
    ensures Settled(cfg, more, id, content, a)
  {
    assert forall i :: 0 <= i < |log| ==> more[i] == log[i];
    if a.Committed? {
      var first := Start(content, a.seqNo);
      forall i | first <= i < a.seqNo ensures Holds(cfg, more, content, first, i) {
        assert Holds(cfg, log, content, first, i);
      }
    }
  }

  lemma CommitKeeps(cfg: Config, s: State, l: Label)
    requires KeepsSeq(cfg) && Inv(cfg, s) && l.Commit? && Enabled(cfg, s, l)
    ensures Inv(cfg, Apply(cfg, s, l))
  {
    var id0 := s.loop.id;
    var c0 := s.calls[id0];
    var o := Process(cfg, s.store, id0, c0.content, l.storeOk);
    var t := Apply(cfg, s, l);
    assert Fate(cfg, s, id0);
    ProcessSettles(cfg, s.store, id0, c0.content, l.storeOk, o);
    ProcessExtends(cfg, s.store, id0, c0.content, l.storeOk, o);
    hide Process, Settled, Absent;
    forall id | id in t.calls ensures Fate(cfg, t, id) {
      if id != id0 {
        assert Fate(cfg, s, id);
        OthersKeep(cfg, s, id, o.store.log);
      }
    }
    forall id | id !in t.calls ensures Absent(t.store.log, id) {
      AbsentLater(s.store.log, o.store.log, id);
    }
  }

  lemma AbsentLater(log: seq<Entry>, more: seq<Entry>, id: Id)
    requires Absent(log, id)
    requires |log| <= |more| && more[..|log|] == log
    requires forall i :: |log| <= i < |more| ==> more[i].owner != Some(id)
    ensures Absent(more, id)
  {
    assert forall i :: 0 <= i < |log| ==> more[i] == log[i];
  }

  /** What is said of a call that the loop is not working on survives growth by others. */
  lemma OthersKeep(cfg: Config, s: State, id: Id, more: seq<Entry>)
    requires id in s.calls && Fate(cfg, s, id) && s.loop.Processing?
    requires |s.store.log| <= |more| && more[..|s.store.log|] == s.store.log
    requires forall i :: |s.store.log| <= i < |more| ==> more[i].owner != Some(id)
    ensures s.calls[id].status.Answered? || s.calls[id].status.Returned? ==>
      Settled(cfg, more, id, s.calls[id].content, s.calls[id].status.answer)
    ensures !s.calls[id].status.Answered? && !s.calls[id].status.Returned? ==> Absent(more, id)
  {
    if s.calls[id].status.Answered? || s.calls[id].status.Returned? {
      SettledLater(cfg, s.store.log, more, id, s.calls[id].content, s.calls[id].status.answer);
    } else {
      AbsentLater(s.store.log, more, id);
    }
  }

  lemma FatesKept(cfg: Config, s: State, l: Label)
    requires Inv(cfg, s) && Enabled(cfg, s, l) && !l.Commit?
    ensures Fates(cfg, Apply(cfg, s, l))
  {
    var t := Apply(cfg, s, l);
    forall id | id in t.calls ensures Fate(cfg, t, id) {
      FateKept(cfg, s, l, id);
    }
    hide Fate, Absent, Numbered, Process;
  }

  lemma FateKept(cfg: Config, s: State, l: Label, id: Id)
    requires Inv(cfg, s) && Enabled(cfg, s, l) && !l.Commit? && id in Apply(cfg, s, l).calls
    ensures Fate(cfg, Apply(cfg, s, l), id)
  {
    hide Present, Absent, Numbered, Process;
    if id in s.calls {
      assert Fate(cfg, s, id);
    }
  }

  lemma WaitingKept(cfg: Config, s: State, l: Label)
    requires Waiting(s) && Enabled(cfg, s, l)
    ensures Waiting(Apply(cfg, s, l))
  {
    hide Process, Waiting, Apply;
    if l.Take? {
      TakeKeeps(cfg, s);
    } else if l.Enqueue? {
      EnqueueKeeps(cfg, s, l.id);
    } else {
      QueueUntouched(cfg, s, l);
    }
  }

  lemma QueueUntouched(cfg: Config, s: State, l: Label)
    requires Waiting(s) && Enabled(cfg, s, l) && !l.Take? && !l.Enqueue?
    ensures Waiting(Apply(cfg, s, l))
  {
    hide Process;
  }

  lemma EnqueueKeeps(cfg: Config, s: State, id: Id)
    requires Waiting(s) && Enabled(cfg, s, Enqueue(id))
    ensures Waiting(Apply(cfg, s, Enqueue(id)))
  {
  }

  lemma TakeKeeps(cfg: Config, s: State)
    requires Waiting(s) && Enabled(cfg, s, Take)
    ensures Waiting(Apply(cfg, s, Take))
  {
    var rest := s.queue[1..];
    assert forall i :: 0 <= i < |rest| ==> rest[i] == s.queue[i + 1];
    forall id | id in s.queue && id != s.queue[0] ensures id in rest {
      var i :| 0 <= i < |s.queue| && s.queue[i] == id;
      assert rest[i - 1] == id;
    }
  }

  lemma StepKeeps(cfg: Config, s: State, l: Label)
    requires KeepsSeq(cfg) && Inv(cfg, s) && Enabled(cfg, s, l)
    ensures Inv(cfg, Apply(cfg, s, l))
  {
    if l.Commit? {
      CommitKeeps(cfg, s, l);
    } else {
      FatesKept(cfg, s, l);
      WaitingKept(cfg, s, l);
    }
  }

  lemma {:induction false} Reachable(cfg: Config, stored: seq<Event>, ls: seq<Label>)
    requires KeepsSeq(cfg) && Numbered(Opened(stored)) && Exec(cfg, stored, ls).Some?
    ensures Inv(cfg, Exec(cfg, stored, ls).value)
  {
    if ls != [] {
      Reachable(cfg, stored, ls[..|ls| - 1]);
      StepKeeps(cfg, Exec(cfg, stored, ls[..|ls| - 1]).value, ls[|ls| - 1]);
    }
  }

  /** From a run to any of its extensions: the log only grows, a failed store or the
      end of the loop freezes it, and what a call returned stays returned. */
  lemma {:induction false} RunsExtend(cfg: Config, stored: seq<Event>, ls: seq<Label>, more: seq<Label>, id: Id)
    requires Exec(cfg, stored, ls + more).Some?
    ensures Exec(cfg, stored, ls).Some?
    ensures
      var s, t := Exec(cfg, stored, ls).value, Exec(cfg, stored, ls + more).value;
      && |s.store.log| <= |t.store.log| && t.store.log[..|s.store.log|] == s.store.log
      && (s.store.terminal ==> t.store == s.store)
      && (s.loop.Exited? ==> t.loop.Exited? && t.store == s.store)
      && (id in s.calls ==> id in t.calls && t.calls[id].content == s.calls[id].content
                            && (s.calls[id].status.Returned? ==> t.calls[id] == s.calls[id]))
    decreases more
  {
    if more == [] {
      assert ls + more == ls;
    } else {
      var n := |more| - 1;
      assert (ls + more)[..|ls + more| - 1] == ls + more[..n];
      RunsExtend(cfg, stored, ls, more[..n], id);
      AlwaysWaiting(cfg, stored, ls + more[..n]);
      hide Waiting, Apply, Enabled;
      StepExtends(cfg, Exec(cfg, stored, ls + more[..n]).value, more[n], id);
    }
  }

  lemma {:induction false} AlwaysWaiting(cfg: Config, stored: seq<Event>, ls: seq<Label>)
    requires Exec(cfg, stored, ls).Some?
    ensures Waiting(Exec(cfg, stored, ls).value)
  {
    if ls != [] {
      AlwaysWaiting(cfg, stored, ls[..|ls| - 1]);
      WaitingKept(cfg, Exec(cfg, stored, ls[..|ls| - 1]).value, ls[|ls| - 1]);
    }
  }

  lemma StepExtends(cfg: Config, s: State, l: Label, id: Id)
    requires Waiting(s) && Enabled(cfg, s, l)
    ensures
      var t := Apply(cfg, s, l);
      && |s.store.log| <= |t.store.log| && t.store.log[..|s.store.log|] == s.store.log
      && (s.store.terminal ==> t.store == s.store)
      && (s.loop.Exited? ==> t.loop.Exited? && t.store == s.store)
      && (id in s.calls ==> id in t.calls && t.calls[id].content == s.calls[id].content)
      && (id in s.calls && s.calls[id].status.Returned? ==> t.calls[id] == s.calls[id])
  {
    if l.Commit? {
      ProcessExtends(cfg, s.store, s.loop.id, s.calls[s.loop.id].content, l.storeOk,
                     Process(cfg, s.store, s.loop.id, s.calls[s.loop.id].content, l.storeOk));
    }
    hide Process;
  }

  /** The promise of Submit and InitBatch, over every interleaving of producers,
      queue, Close and store failure. Committed sequence numbers are contiguous
      from 1. A call that returned n without error has exactly its own records in
      the log, prepared and numbered, the last one at n; a batch fills the log from
      its very beginning. A call that returned any error has no record in the log,
      now or in any extension of the run. */
  lemma ReturnsAreFinal(cfg: Config, stored: seq<Event>, ls: seq<Label>, more: seq<Label>, id: Id, s: State, t: State)
    requires KeepsSeq(cfg) && Numbered(Opened(stored))
    requires Exec(cfg, stored, ls) == Some(s) && Exec(cfg, stored, ls + more) == Some(t)
    requires id in s.calls && s.calls[id].status.Returned?
    ensures Numbered(t.store)
    ensures id in t.calls && t.calls[id] == s.calls[id]
    ensures Settled(cfg, t.store.log, id, s.calls[id].content, s.calls[id].status.answer)
  {
    Reachable(cfg, stored, ls + more);
    RunsExtend(cfg, stored, ls, more, id);
    assert Fate(cfg, t, id);
  }

  /** The first store failure stops all later commits, and so does the end of the
      loop that Close waits for. */
  lemma FailureIsFinal(cfg: Config, stored: seq<Event>, ls: seq<Label>, more: seq<Label>, s: State, t: State)
    requires Exec(cfg, stored, ls) == Some(s) && Exec(cfg, stored, ls + more) == Some(t)
    requires s.store.terminal || s.loop.Exited?
    ensures t.store == s.store
  {
    RunsExtend(cfg, stored, ls, more, 0);
  }

  // ---------- what runs do, told by their labels ----------

  /** The submission passes preparation on a log of n records. */
  ghost predicate Ready(cfg: Config, n: nat, content: Content) {
    match content
    case Single(rec) => Prepared(cfg, rec, n + 1).Some?
    case Batch(recs) => n == 0 && forall i :: 0 <= i < |recs| ==> Prepared(cfg, recs[i], i + 1).Some?
  }

  function Records(content: Content): nat {
    match content
    case Single(_) => 1
    case Batch(recs) => |recs|
  }

  /** Step i is a store call that fails although its submission was ready. */
  ghost predicate Breaks(cfg: Config, stored: seq<Event>, ls: seq<Label>, i: int) {
    && 0 <= i < |ls| && ls[i] == Commit(false)
    && Exec(cfg, stored, ls[..i]).Some?
    && var s := Exec(cfg, stored, ls[..i]).value;
      s.loop.Processing? && s.loop.id in s.calls && Ready(cfg, |s.store.log|, s.calls[s.loop.id].content)
  }

  ghost predicate Broken(cfg: Config, stored: seq<Event>, ls: seq<Label>) {
    exists i :: Breaks(cfg, stored, ls, i)
  }

  lemma {:induction false} PrepareAllExact(cfg: Config, recs: seq<Event>)
    ensures PrepareAll(cfg, recs).Some? <==> forall i :: 0 <= i < |recs| ==> Prepared(cfg, recs[i], i + 1).Some?
    ensures PrepareAll(cfg, recs).Some? ==> |PrepareAll(cfg, recs).value| == |recs|
  {
    if recs != [] {
      var n := |recs| - 1;
      PrepareAllExact(cfg, recs[..n]);
      if PrepareAll(cfg, recs).Some? {
        forall i | 0 <= i < |recs| ensures Prepared(cfg, recs[i], i + 1).Some? {
          assert i < n ==> recs[..n][i] == recs[i];
        }
      } else if PrepareAll(cfg, recs[..n]).None? {
        var i :| 0 <= i < n && Prepared(cfg, recs[..n][i], i + 1).None?;
        assert Prepared(cfg, recs[i], i + 1).None?;
      } else {
        assert Prepared(cfg, recs[n], n + 1).None?;
      }
    }
  }

  lemma ProcessExact(cfg: Config, st: Store, id: Id, content: Content, storeOk: bool)
    requires KeepsSeq(cfg) && Numbered(st)
    ensures
      var o := Process(cfg, st, id, content, storeOk);
      && (o.answer.Committed? <==> !st.terminal && storeOk && Ready(cfg, |st.log|, content))
      && (o.answer.Committed? ==> o.answer.seqNo == |st.log| + Records(content) == |o.store.log|)
      && (o.answer.Failed? ==> o.store.log == st.log)
      && (o.store.terminal <==> st.terminal || (!storeOk && Ready(cfg, |st.log|, content)))
  {
    if content.Batch? {
      PrepareAllExact(cfg, content.recs);
    }
  }

  lemma BreaksLater(cfg: Config, stored: seq<Event>, ls: seq<Label>, more: seq<Label>, i: int)
    requires i < |ls|
    ensures Breaks(cfg, stored, ls, i) <==> Breaks(cfg, stored, ls + more, i)
  {
    if 0 <= i {
      assert (ls + more)[..i] == ls[..i];
    }
  }

  /** The writer is terminal exactly if a store call has failed. */
  lemma {:induction false} TerminalMeans(cfg: Config, stored: seq<Event>, ls: seq<Label>)
    requires KeepsSeq(cfg) && Numbered(Opened(stored)) && Exec(cfg, stored, ls).Some?
    ensures Exec(cfg, stored, ls).value.store.terminal <==> Broken(cfg, stored, ls)
  {
    if ls != [] {
      var front, l := ls[..|ls| - 1], ls[|ls| - 1];
      TerminalMeans(cfg, stored, front);
      Reachable(cfg, stored, front);
      assert front + [l] == ls;
      hide Breaks, Apply, Enabled, Inv;
      forall i | i < |front| ensures Breaks(cfg, stored, front, i) <==> Breaks(cfg, stored, ls, i) {
        BreaksLater(cfg, stored, front, [l], i);
      }
      BreaksNow(cfg, stored, front, l);
      forall i | Breaks(cfg, stored, ls, i) ensures i <= |front| {
        BreaksWithin(cfg, stored, ls, i);
      }
    }
  }

  lemma BreaksWithin(cfg: Config, stored: seq<Event>, ls: seq<Label>, i: int)
    requires Breaks(cfg, stored, ls, i)
    ensures 0 <= i < |ls|
  {
  }

  lemma BreaksNow(cfg: Config, stored: seq<Event>, ls: seq<Label>, l: Label)
    requires KeepsSeq(cfg) && Exec(cfg, stored, ls).Some? && Inv(cfg, Exec(cfg, stored, ls).value)
    requires Enabled(cfg, Exec(cfg, stored, ls).value, l)
    ensures
      var s := Exec(cfg, stored, ls).value;
      Apply(cfg, s, l).store.terminal <==> s.store.terminal || Breaks(cfg, stored, ls + [l], |ls|)
  {
    assert (ls + [l])[..|ls|] == ls;
    var s := Exec(cfg, stored, ls).value;
    hide Ready, Process, Exec, Fates, Waiting;
    if l.Commit? {
      ProcessExact(cfg, s.store, s.loop.id, s.calls[s.loop.id].content, l.storeOk);
    }
  }

  /** What the loop answers, for every run: a number exactly if no store call has
      failed, the submission is ready and this store call succeeds, and then the log
      ends with it; else an error, and the log stays. */
  lemma CommitsExactly(cfg: Config, stored: seq<Event>, ls: seq<Label>, s: State, storeOk: bool)
    requires KeepsSeq(cfg) && Numbered(Opened(stored)) && Exec(cfg, stored, ls) == Some(s)
    requires Enabled(cfg, s, Commit(storeOk))
    ensures
      var t, content := Apply(cfg, s, Commit(storeOk)), s.calls[s.loop.id].content;
      && t.loop.Acking? && t.loop.id == s.loop.id
      && (t.loop.answer.Committed? <==>
            storeOk && !Broken(cfg, stored, ls) && Ready(cfg, |s.store.log|, content))
      && (t.loop.answer.Committed? ==> t.loop.answer.seqNo == |s.store.log| + Records(content) == |t.store.log|)
      && (t.loop.answer.Failed? ==> t.store.log == s.store.log)
  {
    Reachable(cfg, stored, ls);
    TerminalMeans(cfg, stored, ls);
    ProcessExact(cfg, s.store, s.loop.id, s.calls[s.loop.id].content, storeOk);
  }

  /** After a store call that failed nothing is written any more, every answer of the
      loop is an error, and a call that begins fails at once. */
  lemma StoreFailureIsFinal(cfg: Config, stored: seq<Event>, ls: seq<Label>, more: seq<Label>, s: State, t: State)
    requires KeepsSeq(cfg) && Numbered(Opened(stored))
    requires Exec(cfg, stored, ls) == Some(s) && Exec(cfg, stored, ls + [Commit(false)] + more) == Some(t)
    requires s.loop.Processing? && s.loop.id in s.calls && Ready(cfg, |s.store.log|, s.calls[s.loop.id].content)
    ensures t.store.log == s.store.log
    ensures t.loop.Acking? ==> t.loop.answer.Failed?
    ensures forall id, content :: id !in t.calls && content != Batch([]) ==>
      Apply(cfg, t, Begin(id, content)).calls[id].status == Returned(Failed(Terminal))
  {
    var failed := ls + [Commit(false)];
    assert failed[..|ls|] == ls;
    RunsExtend(cfg, stored, failed, more, 0);
    Reachable(cfg, stored, ls);
    CommitsExactly(cfg, stored, ls, s, false);
    BreaksNow(cfg, stored, ls, Commit(false));
    hide Process, Ready, Broken, Inv;
    StaysTerminal(cfg, stored, failed, more);
  }

  lemma {:induction false} StaysTerminal(cfg: Config, stored: seq<Event>, ls: seq<Label>, more: seq<Label>)
    requires Exec(cfg, stored, ls).Some? && Exec(cfg, stored, ls + more).Some?
    requires Ended(Exec(cfg, stored, ls).value)
    ensures Ended(Exec(cfg, stored, ls + more).value)
    ensures Exec(cfg, stored, ls + more).value.store == Exec(cfg, stored, ls).value.store
    decreases more
  {
    if more == [] {
      assert ls + more == ls;
    } else {
      var n := |more| - 1;
      assert (ls + more)[..|ls + more| - 1] == ls + more[..n];
      StaysTerminal(cfg, stored, ls, more[..n]);
      hide Ended, Apply, Enabled;
      EndedStays(cfg, Exec(cfg, stored, ls + more[..n]).value, more[n]);
    }
  }

  /** Terminal, and nothing else to say. */
  predicate Ended(s: State) {
    s.store.terminal && (s.loop.Acking? ==> s.loop.answer.Failed?)
  }

  lemma EndedStays(cfg: Config, s: State, l: Label)
    requires Ended(s) && Enabled(cfg, s, l)
    ensures Ended(Apply(cfg, s, l)) && Apply(cfg, s, l).store == s.store
  {
  }

  // ---------- errors and their causes ----------

  /** Why a call may be told e. */
  ghost predicate Cause(cfg: Config, stored: seq<Event>, ls: seq<Label>, log: seq<Entry>, id: Id, content: Content, e: Error) {
    match e
    case Closed => Close in ls
    case Cancelled => GiveUp(id, Cancelled) in ls
    case EmptyBatch => content == Batch([])
    case Terminal => Broken(cfg, stored, ls)
    case Refused => exists k :: Unfit(cfg, content, k)
    case NotEmpty => content.Batch? && log != []
  }

  /** A record of the call that does not pass preparation, under the number k. */
  ghost predicate Unfit(cfg: Config, content: Content, k: nat) {
    match content
    case Single(rec) => k >= 1 && Prepared(cfg, rec, k).None?
    case Batch(recs) => 1 <= k <= |recs| && Prepared(cfg, recs[k - 1], k).None?
  }

  ghost predicate Explained(cfg: Config, stored: seq<Event>, ls: seq<Label>, s: State, id: Id)
    requires id in s.calls
  {
    var c := s.calls[id];
    match c.status
    case Answered(Failed(e)) => Cause(cfg, stored, ls, s.store.log, id, c.content, e)
    case Returned(Failed(e)) => Cause(cfg, stored, ls, s.store.log, id, c.content, e)
    case _ =>
      s.loop.Acking? && s.loop.id == id && s.loop.answer.Failed? ==>
        Cause(cfg, stored, ls, s.store.log, id, c.content, s.loop.answer.error)
  }

  lemma CauseLater(cfg: Config, stored: seq<Event>, ls: seq<Label>, l: Label, log: seq<Entry>, more: seq<Entry>, id: Id, content: Content, e: Error)
    requires Cause(cfg, stored, ls, log, id, content, e) && |log| <= |more|
    ensures Cause(cfg, stored, ls + [l], more, id, content, e)
  {
    hide Unfit;
    if e == Terminal {
      var i :| Breaks(cfg, stored, ls, i);
      BreaksLater(cfg, stored, ls, [l], i);
    }
  }

  lemma ProcessCause(cfg: Config, stored: seq<Event>, ls: seq<Label>, st: Store, id: Id, content: Content, storeOk: bool)
    requires KeepsSeq(cfg) && Numbered(st)
    requires st.terminal || (!storeOk && Ready(cfg, |st.log|, content)) ==> Broken(cfg, stored, ls)
    ensures
      var o := Process(cfg, st, id, content, storeOk);
      o.answer.Failed? ==> Cause(cfg, stored, ls, o.store.log, id, content, o.answer.error)
  {
    hide Broken;
    var o := Process(cfg, st, id, content, storeOk);
    if content.Batch? {
      PrepareAllExact(cfg, content.recs);
      if o.answer == Failed(Refused) {
        var i :| 0 <= i < |content.recs| && Prepared(cfg, content.recs[i], i + 1).None?;
        assert Unfit(cfg, content, i + 1);
      }
    } else if o.answer == Failed(Refused) {
      assert Unfit(cfg, content, |st.log| + 1);
    }
  }

  lemma {:induction false} ClosingMeans(cfg: Config, stored: seq<Event>, ls: seq<Label>)
    requires Exec(cfg, stored, ls).Some?
    ensures Exec(cfg, stored, ls).value.closing <==> Close in ls
  {
    if ls != [] {
      ClosingMeans(cfg, stored, ls[..|ls| - 1]);
      assert ls == ls[..|ls| - 1] + [ls[|ls| - 1]];
    }
  }

  lemma {:induction false} DrainingMeans(cfg: Config, stored: seq<Event>, ls: seq<Label>)
    requires Exec(cfg, stored, ls).Some?
    ensures Winding(Exec(cfg, stored, ls).value)
  {
    if ls != [] {
      DrainingMeans(cfg, stored, ls[..|ls| - 1]);
      hide Process;
    }
  }

  /** The loop winds down only after Close. */
  predicate Winding(s: State) {
    match s.loop
    case Selecting => true
    case Processing(_, draining) => draining ==> s.closing
    case Acking(_, _, draining) => draining ==> s.closing
    case _ => s.closing
  }

  /** What a step's effect says of a call, given why the loop answered as it did. */
  lemma StepExplains(cfg: Config, stored: seq<Event>, ls: seq<Label>, s: State, l: Label, id: Id)
    requires Waiting(s) && Winding(s) && Enabled(cfg, s, l) && id in Apply(cfg, s, l).calls
    requires id in s.calls ==> Explained(cfg, stored, ls, s, id)
    requires s.store.terminal ==> Broken(cfg, stored, ls + [l])
    requires s.closing ==> Close in ls + [l]
    requires |s.store.log| <= |Apply(cfg, s, l).store.log|
    requires l.Commit? && Apply(cfg, s, l).loop.answer.Failed? ==>
      Cause(cfg, stored, ls + [l], Apply(cfg, s, l).store.log, s.loop.id, s.calls[s.loop.id].content, Apply(cfg, s, l).loop.answer.error)
    ensures Explained(cfg, stored, ls + [l], Apply(cfg, s, l), id)
  {
    hide Broken, Unfit, Process;
    var t := Apply(cfg, s, l);
    if id in s.calls {
      forall e | Cause(cfg, stored, ls, s.store.log, id, s.calls[id].content, e)
        ensures Cause(cfg, stored, ls + [l], t.store.log, id, s.calls[id].content, e)
      {
        CauseLater(cfg, stored, ls, l, s.store.log, t.store.log, id, s.calls[id].content, e);
      }
    }
  }

  /** Every error has its cause: closed, that Close was called; cancelled, that this
      call was; terminal, a store call that failed; refused, a record of the call's own
      that does not pass; not empty, a batch that found records. */
  lemma {:induction false} ErrorsHaveCauses(cfg: Config, stored: seq<Event>, ls: seq<Label>, id: Id)
    requires KeepsSeq(cfg) && Numbered(Opened(stored)) && Exec(cfg, stored, ls).Some?
    requires id in Exec(cfg, stored, ls).value.calls
    ensures Explained(cfg, stored, ls, Exec(cfg, stored, ls).value, id)
  {
    var front, l := ls[..|ls| - 1], ls[|ls| - 1];
    var s := Exec(cfg, stored, front).value;
    assert front + [l] == ls;
    if id in s.calls {
      ErrorsHaveCauses(cfg, stored, front, id);
    }
    Reachable(cfg, stored, front);
    TerminalMeans(cfg, stored, front);
    TerminalMeans(cfg, stored, ls);
    ClosingMeans(cfg, stored, front);
    DrainingMeans(cfg, stored, front);
    RunsExtend(cfg, stored, front, [l], id);
    hide Broken, Explained, Waiting, Winding, Fates;
    if l.Commit? {
      LoopCause(cfg, stored, ls, s, l);
    }
    StepExplains(cfg, stored, front, s, l, id);
  }

  lemma LoopCause(cfg: Config, stored: seq<Event>, ls: seq<Label>, s: State, l: Label)
    requires KeepsSeq(cfg) && Numbered(s.store) && l.Commit? && Enabled(cfg, s, l)
    requires Apply(cfg, s, l).store.terminal <==> Broken(cfg, stored, ls)
    ensures Apply(cfg, s, l).loop.answer.Failed? ==>
      Cause(cfg, stored, ls, Apply(cfg, s, l).store.log, s.loop.id, s.calls[s.loop.id].content, Apply(cfg, s, l).loop.answer.error)
  {
    ProcessExact(cfg, s.store, s.loop.id, s.calls[s.loop.id].content, l.storeOk);
    ProcessCause(cfg, stored, ls, s.store, s.loop.id, s.calls[s.loop.id].content, l.storeOk);
  }

  /** When the loop has gone, whoever is still without an answer was never taken
      from the queue, and is released with ErrClosed. */
  lemma NobodyIsStranded(cfg: Config, stored: seq<Event>, ls: seq<Label>, id: Id, s: State)
    requires KeepsSeq(cfg) && Numbered(Opened(stored)) && Exec(cfg, stored, ls) == Some(s)
    requires s.loop.Exited? && At(s, id, Queued)
    ensures id in s.queue && Absent(s.store.log, id)
    ensures Enabled(cfg, s, MissedAck(id)) && At(Apply(cfg, s, MissedAck(id)), id, Returned(Failed(Closed)))
  {
    Reachable(cfg, stored, ls);
    assert Fate(cfg, s, id);
  }
}
