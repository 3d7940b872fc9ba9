/**
  The approval coordinator of a subagent: each accepted request is resolved by a
  task of its own, which decides, commits the decision to the log and only then
  answers; any failure makes one of the tasks deny everything that is pending and
  stop the adapter. Every region under the mutex, every log commit and every write
  to the adapter is one step. Request ids may be used again; task ids are fresh.
*/
module Coordinator {
  import opened Wrappers

  type RequestId = string
  type TaskId = nat

  /** responded tells a terminating task not to deny its own request again. */
  datatype Phase =
    | Deciding
    | Decided(allow: bool, fatal: bool)
    | Logged(allow: bool, fatal: bool)
    | Terminating(responded: bool)
    | Gone

  /** accepted is false for a start that hit a pending request of the same id. */
  datatype Task = Task(id: RequestId, forced: bool, accepted: bool, phase: Phase)

  /** What the log and the adapter get to see, in order; Closed marks the point of
      termination and the ids pending there. */
  datatype Item =
    | Committed(task: TaskId, id: RequestId, allow: bool)
    | Wrote(task: TaskId, id: RequestId, allow: bool)
    | Closed(ids: set<RequestId>)
    | Stopped

  /** The fate of the coordinator: todo lists the ids still to be denied, owners
      whose requests they were. */
  datatype Ending = Ending(terminated: bool, todo: seq<RequestId>, owners: map<RequestId, TaskId>, stopped: bool)

  /** lossy: a write failed; dropped: whose pending entry the terminating task took
      for its own, already answered request. */
  datatype State = State(
    tasks: map<TaskId, Task>, pending: map<RequestId, TaskId>, end: Ending, trace: seq<Item>, lossy: bool,
    dropped: Option<TaskId>)

  const INITIAL := State(map[], map[], Ending(false, [], map[], false), [], false, None)

  datatype Label =
    | Start(task: TaskId, id: RequestId, forced: bool)
    | Decide(task: TaskId, allow: bool, fatal: bool)
    | Commit(task: TaskId, ok: bool)
    | Send(task: TaskId, writeOk: bool, excused: bool)
    | Terminate(task: TaskId, order: seq<RequestId>)
    | DenyNext(writeOk: bool)
    | Stop(writeOk: bool)

  /** The ids to deny when a task terminates: its own first, unless it was
      answered, then the others in the order of the map's iteration. */
  predicate DenyOrder(s: State, t: Task, order: seq<RequestId>)
    requires t.phase.Terminating?
  {
    var own := t.id in s.pending && !t.phase.responded;
    && (forall i, j :: 0 <= i < j < |order| ==> order[i] != order[j])
    && (forall id | id in order :: id in s.pending && (id != t.id || own))
    && (forall id | id in s.pending :: id != t.id || own ==> id in order)
    && (own ==> |order| > 0 && order[0] == t.id)
  }

  predicate Enabled(s: State, l: Label) {
    match l
    case Start(t, _, _) => t !in s.tasks
    case Decide(t, allow, fatal) =>
      && t in s.tasks && s.tasks[t].phase == Deciding
      && (s.tasks[t].forced ==> !allow && !fatal) && (fatal ==> !allow)
    case Commit(t, _) => t in s.tasks && s.tasks[t].phase.Decided?
    case Send(t, _, _) => t in s.tasks && s.tasks[t].phase.Logged?
    case Terminate(t, order) =>
      && t in s.tasks && s.tasks[t].phase.Terminating?
      && (!s.end.terminated ==> DenyOrder(s, s.tasks[t], order))
    case DenyNext(_) => s.end.todo != [] && s.end.todo[0] in s.end.owners
    case Stop(_) => s.end.terminated && s.end.todo == [] && !s.end.stopped
  }

  function Move(s: State, t: TaskId, p: Phase): State
    requires t in s.tasks
  {
    s.(tasks := s.tasks[t := s.tasks[t].(phase := p)])
  }

  function StartTask(s: State, t: TaskId, id: RequestId, forced: bool): State {
    if s.end.terminated then s
    else if id in s.pending then s.(tasks := s.tasks[t := Task(id, forced, false, Terminating(false))])
    else s.(tasks := s.tasks[t := Task(id, forced, true, Deciding)], pending := s.pending[id := t])
  }

  /** Whether a send gets as far as writing. */
  predicate Sends(s: State, t: TaskId)
    requires t in s.tasks
  {
    !s.end.terminated && s.tasks[t].id in s.pending
  }

  /** What becomes of a task after its send. */
  function AfterSend(s: State, t: TaskId, writeOk: bool, excused: bool): Phase
    requires t in s.tasks && s.tasks[t].phase.Logged?
  {
    if Sends(s, t) && writeOk then (if s.tasks[t].phase.fatal then Terminating(true) else Gone)
    else if excused then Gone
    else Terminating(true)
  }

  /** The task that loses its pending entry without a deny, if any. */
  function Drops(s: State, task: Task): Option<TaskId> {
    if task.phase == Terminating(true) && task.id in s.pending then Some(s.pending[task.id]) else None
  }

  /** The step, but for what it shows. */
  function Next(s: State, l: Label): State
    requires Enabled(s, l)
  {
    match l
    case Start(t, id, forced) => StartTask(s, t, id, forced)
    case Decide(t, allow, fatal) => Move(s, t, Decided(allow, fatal))
    case Commit(t, ok) =>
      Move(s, t, if ok then Logged(s.tasks[t].phase.allow, s.tasks[t].phase.fatal) else Terminating(false))
    case Send(t, writeOk, excused) =>
      var moved := Move(s, t, AfterSend(s, t, writeOk, excused));
      if Sends(s, t) then moved.(pending := s.pending - {s.tasks[t].id}, lossy := s.lossy || !writeOk) else moved
    case Terminate(t, order) =>
      if s.end.terminated then Move(s, t, Gone)
      else Move(s, t, Gone).(pending := map[], end := Ending(true, order, s.pending, false), dropped := Drops(s, s.tasks[t]))
    case DenyNext(writeOk) => s.(end := s.end.(todo := s.end.todo[1..]), lossy := s.lossy || !writeOk)
    case Stop(writeOk) => s.(end := s.end.(stopped := true), lossy := s.lossy || !writeOk)
  }

  function Shows(s: State, l: Label): Option<Item>
    requires Enabled(s, l)
  {
    match l
    case Commit(t, true) => Some(Committed(t, s.tasks[t].id, s.tasks[t].phase.allow))
    case Send(t, true, _) => if Sends(s, t) then Some(Wrote(t, s.tasks[t].id, s.tasks[t].phase.allow)) else None
    case Terminate(_, _) => if s.end.terminated then None else Some(Closed(s.pending.Keys))
    case DenyNext(true) => Some(Wrote(s.end.owners[s.end.todo[0]], s.end.todo[0], false))
    case Stop(true) => Some(Stopped)
    case _ => None
  }

  function Append(trace: seq<Item>, x: Option<Item>): seq<Item> {
    if x.None? then trace else trace + [x.value]
  }

  function Apply(s: State, l: Label): State
    requires Enabled(s, l)
  {
    Next(s, l).(trace := Append(s.trace, Shows(s, l)))
  }

  function Exec(ls: seq<Label>): Option<State> {
    if ls == [] then Some(INITIAL)
    else
      var l := ls[|ls| - 1];
      match Exec(ls[..|ls| - 1])
      case None => None
      case Some(s) => if Enabled(s, l) then Some(Apply(s, l)) else None
  }

  // ---------- the trace ----------

  ghost predicate Answered(trace: seq<Item>, t: TaskId) {
    exists i :: 0 <= i < |trace| && trace[i].Wrote? && trace[i].task == t
  }

  /** Every allow comes after the commit of the same task's allow. */
  ghost predicate LogFirst(trace: seq<Item>) {
    forall i :: 0 <= i < |trace| && trace[i].Wrote? && trace[i].allow ==>
      Committed(trace[i].task, trace[i].id, true) in trace[..i]
  }

  ghost predicate OneAnswer(trace: seq<Item>) {
    forall i, j :: 0 <= i < j < |trace| && trace[i].Wrote? && trace[j].Wrote? ==> trace[i].task != trace[j].task
  }

  /** After the point of termination: only denies, to ids that were pending there,
      and nothing after the stop. */
  ghost predicate ClosesDown(trace: seq<Item>) {
    && (forall i, j :: 0 <= i < j < |trace| && trace[i].Closed? && trace[j].Wrote? ==>
          !trace[j].allow && trace[j].id in trace[i].ids)
    && (forall i, j :: 0 <= i < j < |trace| && trace[i].Stopped? ==> !trace[j].Wrote? && !trace[j].Stopped?)
    && (forall i, j :: 0 <= i < j < |trace| && trace[i].Closed? ==> !trace[j].Closed?)
  }

  lemma LogFirstSnoc(trace: seq<Item>, x: Item)
    requires LogFirst(trace)
    requires x.Wrote? && x.allow ==> Committed(x.task, x.id, true) in trace
    ensures LogFirst(trace + [x])
  {
    var w := trace + [x];
    forall i | 0 <= i < |w| && w[i].Wrote? && w[i].allow ensures Committed(w[i].task, w[i].id, true) in w[..i] {
      if i < |trace| {
        assert w[..i] == trace[..i];
      } else {
        assert w[..i] == trace;
      }
    }
  }

  lemma OneAnswerSnoc(trace: seq<Item>, x: Item)
    requires OneAnswer(trace) && (x.Wrote? ==> !Answered(trace, x.task))
    ensures OneAnswer(trace + [x])
  {
  }

  lemma AnsweredSnoc(trace: seq<Item>, x: Item, t: TaskId)
    ensures Answered(trace + [x], t) <==> Answered(trace, t) || (x.Wrote? && x.task == t)
  {
    var w := trace + [x];
    if Answered(trace, t) {
      var i :| 0 <= i < |trace| && trace[i].Wrote? && trace[i].task == t;
      assert w[i] == trace[i];
    }
    assert w[|trace|] == x;
  }

  // ---------- the invariant ----------

  predicate Working(p: Phase) {
    p.Deciding? || p.Decided? || p.Logged?
  }

  /** A task at work owns its pending entry, and has committed what it is about to send. */
  ghost predicate TaskFits(s: State, t: TaskId)
    requires t in s.tasks
  {
    var task := s.tasks[t];
    && (Working(task.phase) && !s.end.terminated ==> task.id in s.pending && s.pending[task.id] == t)
    && (task.phase.Logged? ==> Committed(t, task.id, task.phase.allow) in s.trace)
  }

  /** m[id] is a task for id that has no answer yet. */
  ghost predicate Waits(s: State, m: map<RequestId, TaskId>, id: RequestId) {
    id in m && m[id] in s.tasks && s.tasks[m[id]].id == id && s.tasks[m[id]].accepted && !Answered(s.trace, m[id])
  }

  ghost predicate TasksFit(s: State) {
    && (forall t :: t in s.tasks ==> TaskFits(s, t))
    && (forall t :: t !in s.tasks ==> !Answered(s.trace, t))
  }

  ghost predicate PendingFits(s: State) {
    && (forall id :: id in s.pending ==> Waits(s, s.pending, id))
    && (s.end.terminated ==> s.pending == map[])
  }

  ghost predicate TodoFits(s: State) {
    && (forall id :: id in s.end.todo ==> Waits(s, s.end.owners, id))
    && (forall i, j :: 0 <= i < j < |s.end.todo| ==> s.end.todo[i] != s.end.todo[j])
    && (!s.end.terminated ==> s.end.todo == [])
  }

  ghost predicate Core(s: State) {
    TasksFit(s) && PendingFits(s) && TodoFits(s)
  }

  /** The step writes an answer for the task. */
  predicate Answers(s: State, l: Label, t: TaskId)
    requires Enabled(s, l)
  {
    var x := Shows(s, l);
    x.Some? && x.value.Wrote? && x.value.task == t
  }

  lemma AnswersNow(s: State, l: Label, t: TaskId)
    requires Enabled(s, l)
    ensures Answered(Apply(s, l).trace, t) <==> Answered(s.trace, t) || Answers(s, l, t)
  {
    hide Shows, Next;
    if Shows(s, l).Some? {
      AnsweredSnoc(s.trace, Shows(s, l).value, t);
    }
  }

  /** Only a waiting task is answered: the sender itself, or the next in line. */
  lemma WhoIsAnswered(s: State, l: Label, t: TaskId)
    requires Core(s) && Enabled(s, l) && Answers(s, l, t)
    ensures t in s.tasks && !Answered(s.trace, t)
    ensures l.Send? ==> l.task == t && Waits(s, s.pending, s.tasks[t].id) && s.pending[s.tasks[t].id] == t
    ensures l.DenyNext? ==> s.end.terminated && s.end.owners[s.end.todo[0]] == t && s.tasks[t].id == s.end.todo[0]
    ensures l.Send? || l.DenyNext?
  {
    if l.Send? {
      assert TaskFits(s, t) && Waits(s, s.pending, s.tasks[t].id);
    } else {
      assert Waits(s, s.end.owners, s.end.todo[0]);
    }
  }

  lemma TasksKept(s: State, l: Label)
    requires Core(s) && Enabled(s, l)
    ensures TasksFit(Apply(s, l))
  {
    var s' := Apply(s, l);
    forall t | t in s'.tasks ensures TaskFits(s', t) {
      TaskKept(s, l, t);
    }
    hide Shows, Next, Answered;
    forall t | t !in s'.tasks ensures !Answered(s'.trace, t) {
      AnswersNow(s, l, t);
      NewTask(s, l, t);
      if Answers(s, l, t) {
        WhoIsAnswered(s, l, t);
      }
    }
  }

  lemma NewTask(s: State, l: Label, t: TaskId)
    requires Enabled(s, l) && t !in Apply(s, l).tasks
    ensures t !in s.tasks
  {
  }

  lemma TaskKept(s: State, l: Label, t: TaskId)
    requires Core(s) && Enabled(s, l) && t in Apply(s, l).tasks
    ensures TaskFits(Apply(s, l), t)
  {
    hide Waits, Answered, DenyOrder, StartTask;
    if l.Start? {
      StartKeeps(s, l, t);
    } else {
      assert TaskFits(s, t);
      if l.Send? {
        assert TaskFits(s, l.task);
        SendKeeps(s, l, t);
      }
    }
  }

  lemma StartKeeps(s: State, l: Label, t: TaskId)
    requires l.Start? && Enabled(s, l) && t in Apply(s, l).tasks && TasksFit(s)
    ensures TaskFits(Apply(s, l), t)
  {
    hide Answered;
    if t in s.tasks {
      assert TaskFits(s, t);
    }
  }

  lemma SendKeeps(s: State, l: Label, t: TaskId)
    requires l.Send? && Enabled(s, l) && t in s.tasks && TaskFits(s, t) && TaskFits(s, l.task)
    ensures TaskFits(Apply(s, l), t)
  {
  }

  lemma PendingKept(s: State, l: Label)
    requires Core(s) && Enabled(s, l)
    ensures PendingFits(Apply(s, l))
  {
    var s' := Apply(s, l);
    forall id | id in s'.pending ensures Waits(s', s'.pending, id) {
      PendingKeptAt(s, l, id);
    }
  }

  lemma PendingKeptAt(s: State, l: Label, id: RequestId)
    requires Core(s) && Enabled(s, l) && id in Apply(s, l).pending
    ensures Waits(Apply(s, l), Apply(s, l).pending, id)
  {
    var t := Apply(s, l).pending[id];
    AnswersNow(s, l, t);
    if Answers(s, l, t) {
      WhoIsAnswered(s, l, t);
    }
    hide Answered, TaskFits;
    if id in s.pending {
      assert Waits(s, s.pending, id);
    }
  }

  lemma TodoKept(s: State, l: Label)
    requires Core(s) && Enabled(s, l)
    ensures TodoFits(Apply(s, l))
  {
    var s' := Apply(s, l);
    forall id | id in s'.end.todo ensures Waits(s', s'.end.owners, id) {
      TodoKeptAt(s, l, id);
    }
  }

  lemma TodoKeptAt(s: State, l: Label, id: RequestId)
    requires Core(s) && Enabled(s, l) && id in Apply(s, l).end.todo
    ensures Waits(Apply(s, l), Apply(s, l).end.owners, id)
  {
    if s.end.terminated {
      assert id in s.end.todo;
      assert Waits(s, s.end.owners, id);
    } else {
      assert Waits(s, s.pending, id);
    }
    var t := Apply(s, l).end.owners[id];
    AnswersNow(s, l, t);
    if Answers(s, l, t) {
      WhoIsAnswered(s, l, t);
    }
    hide Answered, TaskFits;
  }

  // ---------- how the flags show in the trace ----------

  ghost predicate Marks(s: State) {
    && (forall i :: 0 <= i < |s.trace| && s.trace[i].Closed? ==> s.end.terminated && s.trace[i].ids == s.end.owners.Keys)
    && (Stopped in s.trace ==> s.end.stopped)
    && (s.end.stopped ==> s.end.terminated && s.end.todo == [])
  }

  lemma ClosesSnoc(trace: seq<Item>, x: Item, ids: set<RequestId>)
    requires ClosesDown(trace)
    requires forall i :: 0 <= i < |trace| && trace[i].Closed? ==>
      !x.Closed? && trace[i].ids == ids && (x.Wrote? ==> !x.allow && x.id in ids)
    requires x.Wrote? || x.Stopped? ==> Stopped !in trace
    ensures ClosesDown(trace + [x])
  {
  }

  lemma MarksKept(s: State, l: Label)
    requires TodoFits(s) && Marks(s) && Enabled(s, l)
    ensures Marks(Apply(s, l))
  {
    hide Waits, DenyOrder, StartTask;
    if l.Start? {
      StartKeepsEnd(s, l.task, l.id, l.forced);
    }
  }

  lemma StartKeepsEnd(s: State, t: TaskId, id: RequestId, forced: bool)
    ensures StartTask(s, t, id, forced).end == s.end && StartTask(s, t, id, forced).trace == s.trace
  {
  }

  lemma ClosesKept(s: State, l: Label)
    requires Core(s) && Marks(s) && ClosesDown(s.trace) && Enabled(s, l)
    ensures ClosesDown(Apply(s, l).trace)
  {
    if Shows(s, l).Some? {
      if l.DenyNext? {
        assert Waits(s, s.end.owners, s.end.todo[0]);
      }
      hide ClosesDown;
      ClosesSnoc(s.trace, Shows(s, l).value, s.end.owners.Keys);
    }
  }

  lemma TraceKept(s: State, l: Label)
    requires Core(s) && LogFirst(s.trace) && OneAnswer(s.trace) && Enabled(s, l)
    ensures LogFirst(Apply(s, l).trace) && OneAnswer(Apply(s, l).trace)
  {
    var o := Shows(s, l);
    if o.Some? {
      if o.value.Wrote? {
        WhoIsAnswered(s, l, o.value.task);
        assert TaskFits(s, o.value.task);
      }
      hide LogFirst, OneAnswer;
      LogFirstSnoc(s.trace, o.value);
      OneAnswerSnoc(s.trace, o.value);
    }
  }

  // ---------- nobody is forgotten ----------

  ghost predicate InHand(s: State, t: TaskId)
    requires t in s.tasks
  {
    var id := s.tasks[t].id;
    || Answered(s.trace, t)
    || (id in s.pending && s.pending[id] == t)
    || (id in s.end.todo && id in s.end.owners && s.end.owners[id] == t)
  }

  /** As long as no write failed and nobody was dropped. */
  ghost predicate Complete(s: State) {
    !s.lossy && s.dropped.None? ==> forall t :: t in s.tasks && s.tasks[t].accepted ==> InHand(s, t)
  }

  /** Who was dropped was accepted, has no answer, and is not in line for one. */
  ghost predicate DroppedFits(s: State) {
    s.dropped.Some? ==>
      var d := s.dropped.value;
      && s.end.terminated && d in s.tasks && s.tasks[d].accepted && !Answered(s.trace, d)
      && forall id :: id in s.end.todo ==> id in s.end.owners && s.end.owners[id] != d
  }

  lemma DroppedKept(s: State, l: Label)
    requires Core(s) && DroppedFits(s) && Enabled(s, l)
    ensures DroppedFits(Apply(s, l))
  {
    var s' := Apply(s, l);
    if s.dropped.Some? {
      var d := s.dropped.value;
      AnswersNow(s, l, d);
      if Answers(s, l, d) {
        WhoIsAnswered(s, l, d);
      }
      hide Answered, TasksFit, TodoFits;
      StaysDropped(s, l);
    } else if s'.dropped.Some? {
      DropsNow(s, l);
    }
  }

  lemma StaysDropped(s: State, l: Label)
    requires Enabled(s, l) && s.dropped.Some? && s.end.terminated && s.dropped.value in s.tasks
    requires PendingFits(s)
    ensures
      var s', d := Apply(s, l), s.dropped.value;
      && s'.dropped == s.dropped && s'.end.terminated && s'.end.owners == s.end.owners
      && d in s'.tasks && s'.tasks[d].accepted == s.tasks[d].accepted
      && (forall id :: id in s'.end.todo ==> id in s.end.todo)
      && (l.Send? ==> Shows(s, l).None?)
  {
    hide Waits;
  }

  lemma DropsNow(s: State, l: Label)
    requires Core(s) && Enabled(s, l) && s.dropped.None? && Apply(s, l).dropped.Some?
    ensures DroppedFits(Apply(s, l))
  {
    var task := s.tasks[l.task];
    var d := s.pending[task.id];
    assert Waits(s, s.pending, task.id);
    AnswersNow(s, l, d);
    hide Answered, TasksFit;
    forall id | id in l.order ensures s.pending[id] != d {
      assert Waits(s, s.pending, id);
    }
  }

  lemma CompleteKept(s: State, l: Label)
    requires Core(s) && Complete(s) && DroppedFits(s) && Enabled(s, l)
    ensures Complete(Apply(s, l))
  {
    var s' := Apply(s, l);
    if !s'.lossy && s'.dropped.None? {
      forall t | t in s'.tasks && s'.tasks[t].accepted ensures InHand(s', t) {
        HandKept(s, l, t);
      }
    }
  }

  lemma HandKept(s: State, l: Label, t: TaskId)
    requires Core(s) && Complete(s) && DroppedFits(s) && Enabled(s, l)
    requires t in Apply(s, l).tasks && Apply(s, l).tasks[t].accepted && !Apply(s, l).lossy && Apply(s, l).dropped.None?
    ensures InHand(Apply(s, l), t)
  {
    AnswersNow(s, l, t);
    hide Answered, Waits, DroppedFits;
    match l
    case Terminate(_, _) => TerminateHolds(s, l, t);
    case Send(_, _, _) => SendHolds(s, l, t);
    case DenyNext(_) => DenyHolds(s, l, t);
    case _ =>
  }

  lemma TerminateHolds(s: State, l: Label, t: TaskId)
    requires l.Terminate? && Enabled(s, l) && t in s.tasks && InHand(s, t) && TodoFits(s)
    requires Apply(s, l).dropped.None?
    requires Answered(s.trace, t) ==> Answered(Apply(s, l).trace, t)
    ensures InHand(Apply(s, l), t)
  {
    hide Answered, Waits;
  }

  lemma SendHolds(s: State, l: Label, t: TaskId)
    requires l.Send? && Enabled(s, l) && !Apply(s, l).lossy && t in s.tasks && Core(s) && InHand(s, t)
    requires Answered(s.trace, t) || Answers(s, l, t) ==> Answered(Apply(s, l).trace, t)
    ensures InHand(Apply(s, l), t)
  {
    hide Answered, Waits;
    assert TaskFits(s, l.task);
  }

  lemma DenyHolds(s: State, l: Label, t: TaskId)
    requires l.DenyNext? && Enabled(s, l) && !Apply(s, l).lossy && t in s.tasks && InHand(s, t)
    requires Answered(s.trace, t) || Answers(s, l, t) ==> Answered(Apply(s, l).trace, t)
    ensures InHand(Apply(s, l), t)
  {
    hide Answered;
    var id, todo := s.tasks[t].id, s.end.todo;
    if id in todo && id != todo[0] {
      var i :| 0 <= i < |todo| && todo[i] == id;
      assert todo[1..][i - 1] == id;
    }
  }

  // ---------- the promises ----------

  ghost predicate Inv(s: State) {
    Core(s) && Marks(s) && ClosesDown(s.trace) && LogFirst(s.trace) && OneAnswer(s.trace)
    && Complete(s) && DroppedFits(s)
  }

  lemma {:induction false} Reachable(ls: seq<Label>)
    requires Exec(ls).Some?
    ensures Inv(Exec(ls).value)
  {
    if ls != [] {
      Reachable(ls[..|ls| - 1]);
      var s, l := Exec(ls[..|ls| - 1]).value, ls[|ls| - 1];
      hide Apply, Enabled, TasksFit, PendingFits, TodoFits, Marks, ClosesDown, LogFirst, OneAnswer, Complete, DroppedFits;
      TasksKept(s, l);
      PendingKept(s, l);
      TodoKept(s, l);
      MarksKept(s, l);
      ClosesKept(s, l);
      TraceKept(s, l);
      CompleteKept(s, l);
      DroppedKept(s, l);
    }
  }

  /** In every interleaving: an allow reaches the adapter only after the same
      task's allow is in the log; a task is answered at most once; after the point
      of termination only denies go out, to ids that were pending there, and
      nothing after the stop. */
  lemma AnswersAreLoggedFirst(ls: seq<Label>, s: State)
    requires Exec(ls) == Some(s)
    ensures LogFirst(s.trace) && OneAnswer(s.trace) && ClosesDown(s.trace)
  {
    Reachable(ls);
  }

  // ---------- answers are what was decided ----------

  /** The run decides so for the task. */
  predicate Told(ls: seq<Label>, t: TaskId, allow: bool) {
    Decide(t, allow, false) in ls || Decide(t, allow, true) in ls
  }

  predicate Began(ls: seq<Label>, t: TaskId, id: RequestId) {
    Start(t, id, false) in ls || Start(t, id, true) in ls
  }

  /** A task carries its own id and what was decided for it. */
  ghost predicate CarriesDecision(ls: seq<Label>, s: State, t: TaskId)
    requires t in s.tasks
  {
    var task := s.tasks[t];
    && Began(ls, t, task.id)
    && (task.phase.Deciding? ==> forall a :: !Told(ls, t, a))
    && (task.phase.Decided? ==> Decide(t, task.phase.allow, task.phase.fatal) in ls)
    && (task.phase.Logged? ==> Decide(t, task.phase.allow, task.phase.fatal) in ls)
  }

  ghost predicate CarryDecisions(ls: seq<Label>, s: State) {
    && (forall t :: t in s.tasks ==> CarriesDecision(ls, s, t))
    && (forall t, a :: t !in s.tasks ==> !Told(ls, t, a))
  }

  /** No task is decided twice. */
  ghost predicate OneDecision(ls: seq<Label>) {
    forall t, a, b, f, g :: Decide(t, a, f) in ls && Decide(t, b, g) in ls ==> a == b && f == g
  }

  /** What the item says of a decision is what was decided; only after termination is
      anybody denied who was not asked about. */
  predicate ShowsDecision(ls: seq<Label>, x: Item, closed: bool) {
    match x
    case Committed(t, id, allow) => Told(ls, t, allow) && Began(ls, t, id)
    case Wrote(t, id, allow) => Began(ls, t, id) && (closed ==> !allow) && (!closed ==> Told(ls, t, allow))
    case _ => true
  }

  predicate ClosedIn(trace: seq<Item>) {
    exists x | x in trace :: x.Closed?
  }

  ghost predicate ShowDecisions(ls: seq<Label>, trace: seq<Item>) {
    forall i :: 0 <= i < |trace| ==> ShowsDecision(ls, trace[i], ClosedIn(trace[..i]))
  }

  lemma LabelsSnoc(ls: seq<Label>, l: Label)
    ensures forall t, a :: Told(ls + [l], t, a) <==> Told(ls, t, a) || (l.Decide? && l.task == t && l.allow == a)
    ensures forall t, id :: Began(ls + [l], t, id) <==> Began(ls, t, id) || (l.Start? && l.task == t && l.id == id)
  {
  }

  lemma CarriesLater(ls: seq<Label>, s: State, l: Label, t: TaskId)
    requires t in s.tasks && CarriesDecision(ls, s, t) && Enabled(s, l) && t in Apply(s, l).tasks
    ensures CarriesDecision(ls + [l], Apply(s, l), t)
  {
    hide DenyOrder, Shows, Told, Began;
    LabelsSnoc(ls, l);
  }

  lemma CarryLater(ls: seq<Label>, s: State, l: Label)
    requires CarryDecisions(ls, s) && Enabled(s, l)
    ensures CarryDecisions(ls + [l], Apply(s, l))
  {
    hide Shows, Told, Began, DenyOrder;
    LabelsSnoc(ls, l);
    var s' := Apply(s, l);
    forall t | t in s'.tasks ensures CarriesDecision(ls + [l], s', t) {
      if t in s.tasks {
        CarriesLater(ls, s, l, t);
      }
    }
    forall t, a | t !in s'.tasks ensures !Told(ls + [l], t, a) {
      NewTask(s, l, t);
    }
  }

  lemma OneLater(ls: seq<Label>, s: State, l: Label)
    requires CarryDecisions(ls, s) && OneDecision(ls) && Enabled(s, l)
    ensures OneDecision(ls + [l])
  {
    var more := ls + [l];
    assert forall x :: x in more <==> x in ls || x == l;
    if l.Decide? {
      assert CarriesDecision(ls, s, l.task);
      assert !Told(ls, l.task, true) && !Told(ls, l.task, false);
    }
  }

  /** The point of termination is in the trace. */
  ghost predicate ClosedShows(s: State) {
    s.end.terminated <==> ClosedIn(s.trace)
  }

  lemma ClosedLater(s: State, l: Label)
    requires ClosedShows(s) && Enabled(s, l)
    ensures ClosedShows(Apply(s, l))
  {
    hide DenyOrder;
    if l.Start? {
      StartKeepsEnd(s, l.task, l.id, l.forced);
    }
    hide StartTask;
    var t := Apply(s, l).trace;
    assert forall x :: x in s.trace ==> x in t;
    if Shows(s, l).Some? {
      assert t[|s.trace|] == Shows(s, l).value;
    }
  }

  lemma ShowsNow(ls: seq<Label>, s: State, l: Label)
    requires CarryDecisions(ls, s) && Core(s) && ClosedShows(s) && Enabled(s, l) && Shows(s, l).Some?
    ensures ShowsDecision(ls, Shows(s, l).value, ClosedIn(s.trace))
  {
    if l.Commit? || l.Send? {
      assert CarriesDecision(ls, s, l.task);
    } else if l.DenyNext? {
      assert Waits(s, s.end.owners, s.end.todo[0]);
      assert CarriesDecision(ls, s, s.end.owners[s.end.todo[0]]);
    }
  }

  lemma ShowLater(ls: seq<Label>, s: State, l: Label)
    requires ShowDecisions(ls, s.trace) && CarryDecisions(ls, s) && Core(s) && ClosedShows(s) && Enabled(s, l)
    ensures ShowDecisions(ls + [l], Apply(s, l).trace)
  {
    var t := Apply(s, l).trace;
    if Shows(s, l).Some? {
      ShowsNow(ls, s, l);
    }
    hide Shows, Next, Core, CarryDecisions, ClosedIn;
    forall i | 0 <= i < |t| ensures ShowsDecision(ls + [l], t[i], ClosedIn(t[..i])) {
      if i < |s.trace| {
        assert t[..i] == s.trace[..i];
        assert ShowsDecision(ls, s.trace[i], ClosedIn(s.trace[..i]));
      } else {
        assert t[..i] == s.trace;
      }
    }
  }

  /** In every run: no task is decided twice; what is committed for a task is what was
      decided for it; what is written to it before termination is that decision as well,
      and after it only denies. */
  lemma {:induction false} AnswersAreDecisions(ls: seq<Label>)
    requires Exec(ls).Some?
    ensures var s := Exec(ls).value;
      OneDecision(ls) && ShowDecisions(ls, s.trace) && CarryDecisions(ls, s) && ClosedShows(s)
  {
    if ls != [] {
      var front, l := ls[..|ls| - 1], ls[|ls| - 1];
      var s := Exec(front).value;
      assert front + [l] == ls;
      AnswersAreDecisions(front);
      Reachable(front);
      hide Apply, Enabled, Core, CarryDecisions, OneDecision, ShowDecisions, ClosedShows;
      CarryLater(front, s, l);
      OneLater(front, s, l);
      ClosedLater(s, l);
      ShowLater(front, s, l);
    }
  }

  /** Termination is a step of its own. */
  lemma {:induction false} TerminatedMeans(ls: seq<Label>)
    requires Exec(ls).Some?
    ensures Exec(ls).value.end.terminated <==> exists l :: l in ls && l.Terminate?
  {
    if ls != [] {
      var front, l := ls[..|ls| - 1], ls[|ls| - 1];
      assert front + [l] == ls && l in ls;
      TerminatedMeans(front);
      hide DenyOrder, Shows;
    }
  }

  /** A task that is decided is committed, and what is committed before termination is
      written: each such step puts the decision of its task in the trace. */
  lemma DecisionsGoOut(ls: seq<Label>, s: State, l: Label, allow: bool)
    requires Exec(ls) == Some(s) && Enabled(s, l) && forall x :: x in ls ==> !x.Terminate?
    requires (l.Commit? && l.ok) || (l.Send? && l.writeOk)
    requires Told(ls, l.task, allow)
    ensures
      var id := s.tasks[l.task].id;
      && Began(ls, l.task, id)
      && Apply(s, l).trace == s.trace + [if l.Commit? then Committed(l.task, id, allow) else Wrote(l.task, id, allow)]
  {
    Reachable(ls);
    AnswersAreDecisions(ls);
    TerminatedMeans(ls);
    assert TaskFits(s, l.task) && CarriesDecision(ls, s, l.task);
  }

  /** A request is taken up exactly if nobody waits under its id. */
  lemma StartsExactly(ls: seq<Label>, s: State, l: Label)
    requires Exec(ls) == Some(s) && l.Start? && Enabled(s, l) && !s.lossy && forall x :: x in ls ==> !x.Terminate?
    ensures l.task in Apply(s, l).tasks
    ensures
      var task := Apply(s, l).tasks[l.task];
      && task.id == l.id
      && (task.accepted <==> forall t :: t in s.tasks && s.tasks[t].id == l.id && s.tasks[t].accepted ==> Answered(s.trace, t))
      && task.phase == if task.accepted then Deciding else Terminating(false)
  {
    Reachable(ls);
    TerminatedMeans(ls);
    hide Answered, ClosesDown, LogFirst, OneAnswer, Marks, TasksFit;
    if l.id in s.pending {
      assert Waits(s, s.pending, l.id);
    } else {
      forall t | t in s.tasks && s.tasks[t].id == l.id && s.tasks[t].accepted ensures Answered(s.trace, t) {
        assert InHand(s, t);
      }
    }
  }

  /** A decision that cannot be committed or written, without an excuse, and a fatal one
      that is written, make their task terminate. */
  lemma FailuresTerminate(ls: seq<Label>, s: State, l: Label)
    requires Exec(ls) == Some(s) && Enabled(s, l)
    ensures l.Commit? && !l.ok ==> Apply(s, l).tasks[l.task].phase.Terminating?
    ensures l.Send? && !l.writeOk && !l.excused ==> Apply(s, l).tasks[l.task].phase.Terminating?
    ensures l.Send? && l.writeOk && Decide(l.task, false, true) in ls && (forall x :: x in ls ==> !x.Terminate?) ==>
      Apply(s, l).tasks[l.task].phase.Terminating?
  {
    AnswersAreDecisions(ls);
    if l.Send? && l.writeOk && Decide(l.task, false, true) in ls && forall x :: x in ls ==> !x.Terminate? {
      DecisionsGoOut(ls, s, l, false);
      assert CarriesDecision(ls, s, l.task);
    }
    hide ShowDecisions, CarryDecisions, DenyOrder;
  }

  lemma TerminationRunsOn(ls: seq<Label>, s: State)
    requires Exec(ls) == Some(s)
    ensures s.end.terminated && !s.end.stopped ==> Enabled(s, DenyNext(true)) || Enabled(s, Stop(true))
  {
    Reachable(ls);
    if s.end.todo != [] {
      assert Waits(s, s.end.owners, s.end.todo[0]);
    }
  }

  /** A task is forced exactly if it was started so. */
  ghost predicate StartedSo(ls: seq<Label>, s: State) {
    forall t, id, forced :: Start(t, id, forced) in ls && t in s.tasks ==> forced == s.tasks[t].forced
  }

  ghost predicate NeverGranted(ls: seq<Label>) {
    forall t, id, allow, fatal :: Start(t, id, true) in ls && Decide(t, allow, fatal) in ls ==> !allow && !fatal
  }

  ghost predicate AllBegan(ls: seq<Label>, s: State) {
    && (forall t, id, forced :: Start(t, id, forced) in ls ==> t in s.tasks || s.end.terminated)
    && (forall t, allow, fatal :: Decide(t, allow, fatal) in ls ==> t in s.tasks)
  }

  lemma ForcedStep(ls: seq<Label>, s: State, l: Label)
    requires Enabled(s, l) && StartedSo(ls, s) && AllBegan(ls, s) && NeverGranted(ls)
    ensures StartedSo(ls + [l], Apply(s, l)) && AllBegan(ls + [l], Apply(s, l)) && NeverGranted(ls + [l])
  {
    LabelsSnoc(ls, l);
    TasksStay(s, l);
    hide Apply;
  }

  /** Tasks stay, as they were started. */
  lemma TasksStay(s: State, l: Label)
    requires Enabled(s, l)
    ensures var u := Apply(s, l);
      && (s.end.terminated ==> u.end.terminated)
      && (forall t :: t in u.tasks && t !in s.tasks ==> l.Start? && l.task == t && u.tasks[t].forced == l.forced && !s.end.terminated)
      && (forall t :: t in s.tasks ==> t in u.tasks && u.tasks[t].forced == s.tasks[t].forced)
      && (l.Start? ==> l.task in u.tasks || u.end.terminated)
  {
  }

  /** A request that is forced is never allowed, nor is its denial fatal. */
  lemma {:induction false} ForcedIsDenied(ls: seq<Label>)
    requires Exec(ls).Some?
    ensures NeverGranted(ls) && StartedSo(ls, Exec(ls).value) && AllBegan(ls, Exec(ls).value)
  {
    if ls != [] {
      var n := |ls| - 1;
      ForcedIsDenied(ls[..n]);
      assert ls == ls[..n] + [ls[n]];
      hide Apply, Enabled, NeverGranted, StartedSo, AllBegan;
      ForcedStep(ls[..n], Exec(ls[..n]).value, ls[n]);
    }
  }

  /** The task came to its send. */
  ghost predicate HasSent(ls: seq<Label>, t: TaskId) {
    exists l :: l in ls && l.Send? && l.task == t
  }

  ghost predicate SentFits(ls: seq<Label>, s: State, t: TaskId) {
    && (t !in s.tasks || Working(s.tasks[t].phase) ==> !HasSent(ls, t))
    && (t in s.tasks && s.tasks[t].phase.Terminating? ==> (s.tasks[t].phase.responded <==> HasSent(ls, t)))
  }

  lemma SentNow(ls: seq<Label>, s: State, l: Label, t: TaskId)
    requires Enabled(s, l) && SentFits(ls, s, t)
    ensures SentFits(ls + [l], Apply(s, l), t)
  {
    assert HasSent(ls + [l], t) <==> HasSent(ls, t) || (l.Send? && l.task == t) by {
      assert forall x :: x in ls + [l] <==> x in ls || x == l;
      assert l in ls + [l];
    }
    hide HasSent;
  }

  /** A terminating task counts as answered exactly if it came to its send. */
  lemma {:induction false} RespondedMeans(ls: seq<Label>, t: TaskId)
    requires Exec(ls).Some?
    ensures SentFits(ls, Exec(ls).value, t)
  {
    if ls != [] {
      var n := |ls| - 1;
      RespondedMeans(ls[..n], t);
      assert ls == ls[..n] + [ls[n]];
      hide Apply, Enabled, SentFits;
      SentNow(ls[..n], Exec(ls[..n]).value, ls[n], t);
    }
  }

  /** The i-th step was the first termination, by a task that had come to its send and
      found its id pending again, for q. */
  ghost predicate Forgets(ls: seq<Label>, i: int, q: TaskId) {
    && 0 <= i < |ls| && ls[i].Terminate? && (forall x :: x in ls[..i] ==> !x.Terminate?)
    && Exec(ls[..i]).Some?
    && var s, t := Exec(ls[..i]).value, ls[i].task;
       HasSent(ls[..i], t) && t in s.tasks && s.tasks[t].id in s.pending && s.pending[s.tasks[t].id] == q
  }

  lemma ForgetsNow(ls: seq<Label>, l: Label, q: TaskId)
    requires Exec(ls + [l]).Some? && Exec(ls).Some?
    ensures var s, t := Exec(ls).value, Exec(ls + [l]).value;
      t.dropped == Some(q) <==> s.dropped == Some(q) || Forgets(ls + [l], |ls|, q)
    ensures Exec(ls).value.dropped.Some? ==> Exec(ls).value.end.terminated
  {
    Reachable(ls);
    TerminatedMeans(ls);
    assert (ls + [l])[..|ls|] == ls;
    if l.Terminate? {
      RespondedMeans(ls, l.task);
    }
    hide HasSent;
  }

  /** Exactly when a request is forgotten, and which. */
  lemma {:induction false} DropsExactly(ls: seq<Label>, q: TaskId)
    requires Exec(ls).Some?
    ensures Exec(ls).value.dropped == Some(q) <==> exists i :: Forgets(ls, i, q)
  {
    if ls != [] {
      var n := |ls| - 1;
      var front := ls[..n];
      assert front + [ls[n]] == ls;
      DropsExactly(front, q);
      ForgetsNow(front, ls[n], q);
      hide Exec, HasSent;
      forall i | 0 <= i < n ensures Forgets(front, i, q) <==> Forgets(ls, i, q) {
        assert front[..i] == ls[..i];
      }
    }
  }

  /** A termination denies the terminating task's own request first, if it has not come
      to its send. */
  lemma OwnRequestFirst(ls: seq<Label>, s: State, t: TaskId, order: seq<RequestId>)
    requires Exec(ls) == Some(s) && Enabled(s, Terminate(t, order)) && forall x :: x in ls ==> !x.Terminate?
    requires s.tasks[t].id in s.pending && !HasSent(ls, t)
    ensures
      var id, closed := s.tasks[t].id, Apply(s, Terminate(t, order));
      && Enabled(closed, DenyNext(true))
      && Apply(closed, DenyNext(true)).trace == s.trace + [Closed(s.pending.Keys), Wrote(s.pending[id], id, false)]
  {
    TerminatedMeans(ls);
    RespondedMeans(ls, t);
    hide HasSent;
  }

  /** If no write failed, then once the stop has been written every accepted request
      has had its answer, exactly if the terminating task did not find its own,
      already answered id pending again. */
  lemma EveryoneIsAnswered(ls: seq<Label>, s: State)
    requires Exec(ls) == Some(s) && !s.lossy && Stopped in s.trace
    ensures (forall t :: t in s.tasks && s.tasks[t].accepted ==> Answered(s.trace, t)) <==> forall i, q: TaskId :: !Forgets(ls, i, q)
  {
    hide Answered, Core, ClosesDown, LogFirst, OneAnswer, Forgets;
    Reachable(ls);
    if s.dropped.None? {
      InHandIsAnswered(s);
    } else {
      DropsExactly(ls, s.dropped.value);
    }
    forall i, q: TaskId | Forgets(ls, i, q) ensures s.dropped == Some(q) {
      DropsExactly(ls, q);
    }
  }

  lemma InHandIsAnswered(s: State)
    requires Core(s) && Marks(s) && Complete(s) && !s.lossy && Stopped in s.trace && s.dropped.None?
    ensures forall t :: t in s.tasks && s.tasks[t].accepted ==> Answered(s.trace, t)
  {
    hide Answered, Waits;
    forall t | t in s.tasks && s.tasks[t].accepted ensures Answered(s.trace, t) {
      assert InHand(s, t);
    }
  }

  lemma Extend(ls: seq<Label>, s: State, l: Label) returns (more: seq<Label>, t: State)
    requires Exec(ls) == Some(s) && Enabled(s, l)
    ensures Exec(more) == Some(t) && t == Apply(s, l)
  {
    more, t := ls + [l], Apply(s, l);
    assert more[..|ls|] == ls;
  }

  lemma AnsweredFatally(id: RequestId) returns (ls: seq<Label>, s: State)
    ensures Exec(ls) == Some(s)
    ensures s.tasks == map[0 := Task(id, false, true, Terminating(true))] && s.pending == map[]
    ensures s.end == INITIAL.end && !s.lossy && s.trace == [Committed(0, id, false), Wrote(0, id, false)]
  {
    ls, s := Extend([], INITIAL, Start(0, id, false));
    hide Exec;
    assert s.tasks == map[0 := Task(id, false, true, Deciding)] && s.pending == map[id := 0];
    ls, s := Extend(ls, s, Decide(0, false, true));
    assert s.tasks == map[0 := Task(id, false, true, Decided(false, true))];
    ls, s := Extend(ls, s, Commit(0, true));
    assert s.tasks == map[0 := Task(id, false, true, Logged(false, true))];
    ls, s := Extend(ls, s, Send(0, true, false));
  }

  /** It does happen: a request that takes up the id of one just answered, before that
      one's task terminates, is accepted, dropped from the pending set with it, and
      never answered. */
  lemma ReusedIdIsForgotten(id: RequestId) returns (ls: seq<Label>, s: State)
    ensures Exec(ls) == Some(s) && !s.lossy && Stopped in s.trace
    ensures 1 in s.tasks && s.tasks[1].accepted && !Answered(s.trace, 1)
  {
    hide Exec;
    ls, s := AnsweredFatally(id);
    ls, s := Extend(ls, s, Start(1, id, false));
    assert s.pending == map[id := 1] && s.pending.Keys == {id};
    ls, s := Extend(ls, s, Terminate(0, []));
    ls, s := Extend(ls, s, Stop(true));
    assert s.trace == [Committed(0, id, false), Wrote(0, id, false), Closed({id}), Stopped];
  }

  // ---------- the code ----------

  /** The coordinator's fields; each method is one region under its mutex. */
  class ApprovalCoordinator {
    var tasks: map<TaskId, Task>
    var pending: map<RequestId, TaskId>
    var end: Ending
    var trace: seq<Item>
    var lossy: bool
    var dropped: Option<TaskId>

    function Value(): State
      reads this
    {
      State(tasks, pending, end, trace, lossy, dropped)
    }

    constructor ()
      ensures Value() == INITIAL
    {
      tasks, pending, end, trace := map[], map[], INITIAL.end, [];
      lossy, dropped := false, None;
    }

    method Begin(t: TaskId, id: RequestId, forced: bool) returns (ok: bool)
      requires t !in tasks
      modifies this
      ensures Value() == Apply(old(Value()), Start(t, id, forced))
      ensures ok <==> t in tasks && tasks[t].accepted
    {
      if end.terminated {
        return false;
      }
      if id in pending {
        tasks := tasks[t := Task(id, forced, false, Terminating(false))];
        return false;
      }
      pending := pending[id := t];
      tasks := tasks[t := Task(id, forced, true, Deciding)];
      return true;
    }

    method Respond(t: TaskId, writeOk: bool, excused: bool)
      requires Enabled(Value(), Send(t, writeOk, excused))
      modifies this
      ensures Value() == Apply(old(Value()), Send(t, writeOk, excused))
    {
      var task := tasks[t];
      var after := if excused then Gone else Terminating(true);
      if !end.terminated && task.id in pending {
        pending := pending - {task.id};
        if writeOk {
          trace := trace + [Wrote(t, task.id, task.phase.allow)];
          after := if task.phase.fatal then Terminating(true) else Gone;
        } else {
          lossy := true;
        }
      }
      tasks := tasks[t := task.(phase := after)];
    }

    /** The ids are collected in whatever order the map yields them. */
    method Shut(t: TaskId) returns (order: seq<RequestId>)
      requires t in tasks && tasks[t].phase.Terminating?
      modifies this
      ensures old(Enabled(Value(), Terminate(t, order)))
      ensures Value() == Apply(old(Value()), Terminate(t, order))
    {
      var task := tasks[t];
      order := [];
      if !end.terminated {
        order := CollectDenials(Value(), task);
        dropped := if task.phase.responded && task.id in pending then Some(pending[task.id]) else None;
        trace := trace + [Closed(pending.Keys)];
        end := Ending(true, order, pending, false);
        pending := map[];
      }
      tasks := tasks[t := task.(phase := Gone)];
    }
  }

  /** In whatever order the map yields them. */
  method CollectDenials(s: State, task: Task) returns (order: seq<RequestId>)
    requires task.phase.Terminating?
    ensures DenyOrder(s, task, order)
  {
    ghost var own := task.id in s.pending && !task.phase.responded;
    order := if task.id in s.pending && !task.phase.responded then [task.id] else [];
    var rest := s.pending.Keys - {task.id};
    while rest != {}
      invariant rest <= s.pending.Keys - {task.id}
      invariant forall i, j :: 0 <= i < j < |order| ==> order[i] != order[j]
      invariant forall id :: id in order <==> id in s.pending && id !in rest && (id != task.id || own)
      invariant own ==> |order| > 0 && order[0] == task.id
    {
      var id :| id in rest;
      order := order + [id];
      rest := rest - {id};
    }
  }
}
