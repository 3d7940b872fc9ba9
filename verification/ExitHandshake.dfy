/**
  The exit handshake of the process broker: the control loop acknowledges
  requests, the exit observer publishes the container's result, and whichever of
  them comes second sends the exit frame. Every region that holds the broker's
  mutex, and every frame write, is one step; the two threads interleave freely.
  All control requests are accepted and no write fails.
*/
module ExitHandshake {
  import opened Wrappers

  datatype Request = Start | StdinData | StdinClose | Stop | Wait

  datatype Frame = Ack(request: Request) | Exit

  /** Where the control loop stands. arm tells that the wait request still has to
      be marked as acknowledged afterwards. */
  datatype Control =
    | Idle
    | Received(request: Request)
    | Ready(request: Request)
    | AckOnWire(request: Request)
    | ArmWait
    | SendExit(arm: bool)
    | WriteExit(arm: bool)

  /** Where the exit observer stands. */
  datatype Observer = Watching | Sending | Writing | Gone

  datatype State = State(
    control: Control, observer: Observer, wire: seq<Frame>,
    started: bool, ackPending: bool, waitRequested: bool, waitAcked: bool, result: bool, exitSent: bool)

  const INITIAL := State(Idle, Watching, [], false, false, false, false, false, false)

  /** Receive, Accept, WriteAck, ClearPending and Arm belong to the control loop;
      Publish and the Observer steps to the observer. */
  datatype Label =
    | Receive(request: Request) | Accept | WriteAck | ClearPending | Arm | ClaimExit | PutExit
    | Publish | ObserverClaim | ObserverPut

  function After(arm: bool): Control {
    if arm then ArmWait else Idle
  }

  predicate Accepts(s: State, r: Request) {
    match r
    case Start => !s.started
    case Wait => s.started && !s.waitRequested
    case _ => s.started
  }

  predicate Enabled(s: State, l: Label) {
    match l
    case Receive(_) => s.control.Idle?
    case Accept => s.control.Received? && Accepts(s, s.control.request)
    case WriteAck => s.control.Ready?
    case ClearPending => s.control.AckOnWire?
    case Arm => s.control.ArmWait?
    case ClaimExit => s.control.SendExit?
    case PutExit => s.control.WriteExit?
    case Publish => s.started && s.observer.Watching?
    case ObserverClaim => s.observer.Sending?
    case ObserverPut => s.observer.Writing?
  }

  function Apply(s: State, l: Label): State
    requires Enabled(s, l)
  {
    match l
    case Receive(r) => s.(control := Received(r), ackPending := true)
    case Accept =>
      s.(control := Ready(s.control.request),
         started := s.started || s.control.request == Start,
         waitRequested := s.waitRequested || s.control.request == Wait)
    case WriteAck => s.(control := AckOnWire(s.control.request), wire := s.wire + [Ack(s.control.request)])
    case ClearPending =>
      s.(ackPending := false,
         control := if s.waitAcked && s.result && !s.exitSent then SendExit(s.control.request == Wait)
                    else After(s.control.request == Wait))
    case Arm => s.(waitAcked := true, control := if s.result then SendExit(false) else Idle)
    case ClaimExit =>
      if s.exitSent || !s.result then s.(control := After(s.control.arm))
      else s.(exitSent := true, control := WriteExit(s.control.arm))
    case PutExit => s.(wire := s.wire + [Exit], control := After(s.control.arm))
    case Publish => s.(result := true, observer := if s.waitAcked && !s.ackPending then Sending else Gone)
    case ObserverClaim =>
      if s.exitSent || !s.result then s.(observer := Gone)
      else s.(exitSent := true, observer := Writing)
    case ObserverPut => s.(wire := s.wire + [Exit], observer := Gone)
  }

  /** The state after a sequence of steps, if each was possible when it was taken. */
  function Exec(ls: seq<Label>): Option<State> {
    if ls == [] then Some(INITIAL)
    else
      var l := ls[|ls| - 1];
      match Exec(ls[..|ls| - 1])
      case None => None
      case Some(s) => if Enabled(s, l) then Some(Apply(s, l)) else None
  }

  function Count(wire: seq<Frame>, f: Frame): nat {
    if wire == [] then 0 else Count(wire[..|wire| - 1], f) + (if wire[|wire| - 1] == f then 1 else 0)
  }

  /** The exit frame, if it is there, comes after the acknowledgement of wait. */
  ghost predicate ExitAfterWaitAck(wire: seq<Frame>) {
    forall i :: 0 <= i < |wire| && wire[i] == Exit ==> Ack(Wait) in wire[..i]
  }

  function B(b: bool): nat {
    if b then 1 else 0
  }

  ghost predicate Inv(s: State) {
    && Count(s.wire, Exit) + B(s.control.WriteExit?) + B(s.observer.Writing?) == B(s.exitSent)
    && ExitAfterWaitAck(s.wire)
    && (s.waitAcked ==> Ack(Wait) in s.wire)
    && (s.exitSent ==> s.waitAcked && s.result)
    && (s.control.SendExit? || s.observer.Sending? ==> s.waitAcked && s.result)
    && (s.ackPending <==> s.control.Received? || s.control.Ready? || s.control.AckOnWire?)
    && (s.control.ArmWait? ==> Ack(Wait) in s.wire)
    && (s.control.AckOnWire? ==> Ack(s.control.request) in s.wire)
    && (s.control.SendExit? || s.control.WriteExit? ==> s.control.arm ==> Ack(Wait) in s.wire)
    && (s.observer.Watching? <==> !s.result)
    && (s.waitAcked && s.result && !s.exitSent ==> s.ackPending || s.control.SendExit? || s.observer.Sending?)
    && (Ack(Wait) in s.wire ==>
          || s.waitAcked || s.control == AckOnWire(Wait) || s.control.ArmWait?
          || ((s.control.SendExit? || s.control.WriteExit?) && s.control.arm))
  }

  lemma CountSnoc(wire: seq<Frame>, x: Frame, f: Frame)
    ensures Count(wire + [x], f) == Count(wire, f) + (if x == f then 1 else 0)
  {
    assert (wire + [x])[..|wire|] == wire;
  }

  lemma OrderSnoc(wire: seq<Frame>, x: Frame)
    requires ExitAfterWaitAck(wire) && (x == Exit ==> Ack(Wait) in wire)
    ensures ExitAfterWaitAck(wire + [x])
  {
    var w := wire + [x];
    forall i | 0 <= i < |w| && w[i] == Exit ensures Ack(Wait) in w[..i] {
      if i < |wire| {
        assert w[..i] == wire[..i];
      } else {
        assert w[..i] == wire;
      }
    }
  }

  predicate Writes(l: Label) {
    l.WriteAck? || l.PutExit? || l.ObserverPut?
  }

  predicate Observes(l: Label) {
    l.Publish? || l.ObserverClaim? || l.ObserverPut?
  }

  lemma ControlStepKeeps(s: State, l: Label)
    requires Inv(s) && Enabled(s, l) && !Writes(l) && !Observes(l)
    ensures Inv(Apply(s, l))
  {
    hide Count, ExitAfterWaitAck;
  }

  lemma ObserverStepKeeps(s: State, l: Label)
    requires Inv(s) && Enabled(s, l) && !Writes(l) && Observes(l)
    ensures Inv(Apply(s, l))
  {
    hide Count, ExitAfterWaitAck;
  }

  lemma WriteKeeps(s: State, l: Label)
    requires Inv(s) && Enabled(s, l) && Writes(l)
    ensures Inv(Apply(s, l))
  {
    hide Count, ExitAfterWaitAck;
    var f := if l.WriteAck? then Ack(s.control.request) else Exit;
    CountSnoc(s.wire, f, Exit);
    OrderSnoc(s.wire, f);
  }

  lemma StepKeeps(s: State, l: Label)
    requires Inv(s) && Enabled(s, l)
    ensures Inv(Apply(s, l))
  {
    hide Inv, Enabled, Apply;
    if Writes(l) {
      WriteKeeps(s, l);
    } else if Observes(l) {
      ObserverStepKeeps(s, l);
    } else {
      ControlStepKeeps(s, l);
    }
  }

  lemma {:induction false} Reachable(ls: seq<Label>)
    requires Exec(ls).Some?
    ensures Inv(Exec(ls).value)
  {
    if ls != [] {
      Reachable(ls[..|ls| - 1]);
      StepKeeps(Exec(ls[..|ls| - 1]).value, ls[|ls| - 1]);
    }
  }

  /** In every interleaving: at most one exit frame, never before the wait
      acknowledgement; once wait is acknowledged, the result known and no
      acknowledgement pending, the frame is on the wire or a thread is at the
      point of putting it there. When both threads have come to rest it is on
      the wire exactly if wait was acknowledged. */
  lemma ExitExactlyOnce(ls: seq<Label>, s: State)
    requires Exec(ls) == Some(s)
    ensures Count(s.wire, Exit) <= 1
    ensures ExitAfterWaitAck(s.wire)
    ensures s.waitAcked && s.result && !s.ackPending ==>
      || Count(s.wire, Exit) == 1
      || s.control.SendExit? || s.control.WriteExit? || s.observer.Sending? || s.observer.Writing?
    ensures s.control.Idle? && s.observer.Gone? ==> (Count(s.wire, Exit) == 1 <==> Ack(Wait) in s.wire)
  {
    Reachable(ls);
    if Count(s.wire, Exit) == 1 {
      Counted(s.wire, Exit);
    }
  }

  lemma {:induction false} Counted(wire: seq<Frame>, f: Frame)
    ensures Count(wire, f) > 0 ==> exists i :: 0 <= i < |wire| && wire[i] == f
  {
    if wire != [] {
      Counted(wire[..|wire| - 1], f);
    }
  }

  // ---------- acknowledgements ----------

  /** The requests received, in order. */
  function Requests(ls: seq<Label>): seq<Request> {
    if ls == [] then []
    else Requests(ls[..|ls| - 1]) + (if ls[|ls| - 1].Receive? then [ls[|ls| - 1].request] else [])
  }

  /** The requests acknowledged, in order. */
  function Acks(wire: seq<Frame>): seq<Request> {
    if wire == [] then []
    else Acks(wire[..|wire| - 1]) + (if wire[|wire| - 1].Ack? then [wire[|wire| - 1].request] else [])
  }

  lemma AcksSnoc(wire: seq<Frame>, x: Frame)
    ensures Acks(wire + [x]) == Acks(wire) + if x.Ack? then [x.request] else []
  {
    assert (wire + [x])[..|wire|] == wire;
  }

  /** The request received but not acknowledged. */
  function InHand(c: Control): Option<Request> {
    if c.Received? || c.Ready? then Some(c.request) else None
  }

  /** What is acknowledged, and what is still to be. */
  function Answers(s: State): seq<Request> {
    if InHand(s.control).Some? then Acks(s.wire) + [InHand(s.control).value] else Acks(s.wire)
  }

  predicate SameWire(s: State, t: State) {
    InHand(t.control) == InHand(s.control) && t.wire == s.wire && (t.result ==> s.result)
  }

  lemma SilentStep(s: State, l: Label)
    requires Enabled(s, l) && !Writes(l) && !l.Receive? && !l.Publish?
    ensures SameWire(s, Apply(s, l)) && (s.result ==> Apply(s, l).result)
  {
  }

  lemma AckStep(s: State, l: Label)
    requires Enabled(s, l)
    ensures var t := Apply(s, l);
      && Answers(t) == (if l.Receive? then Answers(s) + [l.request] else Answers(s))
      && (t.result <==> s.result || l == Publish)
  {
    hide Acks;
    if Writes(l) {
      AcksSnoc(s.wire, if l.WriteAck? then Ack(s.control.request) else Exit);
      assert Acks(s.wire) + [] == Acks(s.wire);
    } else if !l.Receive? && !l.Publish? {
      SilentStep(s, l);
      hide Apply;
    }
  }

  /** In every interleaving each request is acknowledged once and in order: all but
      the one in hand, which is the last received. */
  lemma {:induction false} AcksAnswerRequests(ls: seq<Label>, s: State)
    requires Exec(ls) == Some(s)
    ensures Requests(ls) == Acks(s.wire) + match InHand(s.control) case None => [] case Some(r) => [r]
    ensures s.result <==> Publish in ls
  {
    AnswersAreRequests(ls, s);
    assert Acks(s.wire) + [] == Acks(s.wire);
  }

  lemma {:induction false} AnswersAreRequests(ls: seq<Label>, s: State)
    requires Exec(ls) == Some(s)
    ensures Requests(ls) == Answers(s) && (s.result <==> Publish in ls)
  {
    hide Apply, Answers, Enabled, Requests;
    if ls == [] {
      NoRequests(ls);
    } else {
      var n := |ls| - 1;
      var b := Exec(ls[..n]).value;
      AnswersAreRequests(ls[..n], b);
      AckStep(b, ls[n]);
      RequestsSnoc(ls, n);
    }
  }

  lemma NoRequests(ls: seq<Label>)
    requires ls == []
    ensures Requests(ls) == Answers(INITIAL)
  {
  }

  lemma RequestsSnoc(ls: seq<Label>, n: nat)
    requires n == |ls| - 1
    ensures Requests(ls) == (if ls[n].Receive? then Requests(ls[..n]) + [ls[n].request] else Requests(ls[..n]))
    ensures Publish in ls <==> Publish in ls[..n] || ls[n] == Publish
  {
    assert ls == ls[..n] + [ls[n]];
    assert Requests(ls[..n]) + [] == Requests(ls[..n]);
  }

  /** A thread that is about to send is never blocked, and its two steps put the
      frame on the wire unless the other thread has claimed it. */
  lemma SendersFinish(ls: seq<Label>, s: State)
    requires Exec(ls) == Some(s) && !s.exitSent
    ensures s.control.SendExit? ==>
      && Enabled(s, ClaimExit)
      && Enabled(Apply(s, ClaimExit), PutExit)
      && Apply(Apply(s, ClaimExit), PutExit).wire == s.wire + [Exit]
    ensures s.observer.Sending? ==>
      && Enabled(s, ObserverClaim)
      && Enabled(Apply(s, ObserverClaim), ObserverPut)
      && Apply(Apply(s, ObserverClaim), ObserverPut).wire == s.wire + [Exit]
  {
    Reachable(ls);
  }

  lemma ExecSnoc(ls: seq<Label>, l: Label)
    requires Exec(ls).Some? && Enabled(Exec(ls).value, l)
    ensures Exec(ls + [l]) == Some(Apply(Exec(ls).value, l))
  {
    assert (ls + [l])[..|ls|] == ls;
  }

  // ---------- when an acknowledgement is overtaken ----------

  /** After more, the request r received in s has not been acknowledged, but an exit
      frame has gone out meanwhile. */
  ghost predicate Overtakes(ls: seq<Label>, s: State, r: Request, more: seq<Label>) {
    var run := Exec(ls + [Receive(r)] + more);
    && WriteAck !in more
    && run.Some? && |s.wire| <= |run.value.wire| && Exit in run.value.wire[|s.wire|..]
  }

  /** The observer is committed to a send of its own. */
  predicate ObserverSends(s: State) {
    s.observer.Writing? || (s.observer.Sending? && !s.exitSent)
  }

  /** What stays as it was while a request waits for its acknowledgement and the
      observer has nothing to send. */
  ghost predicate Quiet(s: State, t: State) {
    (t.control.Received? || t.control.Ready?) && t.ackPending && t.wire == s.wire && !ObserverSends(t)
  }

  lemma {:induction false} QuietStays(ls: seq<Label>, s: State, r: Request, more: seq<Label>)
    requires Exec(ls) == Some(s) && s.control.Idle? && !ObserverSends(s) && WriteAck !in more
    requires Exec(ls + [Receive(r)] + more).Some?
    ensures Quiet(s, Exec(ls + [Receive(r)] + more).value)
    decreases |more|
  {
    var all := ls + [Receive(r)] + more;
    if more == [] {
      assert all == ls + [Receive(r)] && all[..|all| - 1] == ls;
    } else {
      var n := |more| - 1;
      assert all[..|all| - 1] == ls + [Receive(r)] + more[..n] && all[|all| - 1] == more[n];
      assert WriteAck !in more[..n] && more[n] in more;
      QuietStays(ls, s, r, more[..n]);
    }
  }

  lemma NothingNew(s: State, t: State)
    requires t.wire == s.wire
    ensures Exit !in t.wire[|s.wire|..]
  {
    assert t.wire[|s.wire|..] == [];
  }

  lemma ExecAgain(ls: seq<Label>, r: Request, more: seq<Label>, l: Label, t: State)
    requires Exec(ls + [Receive(r)] + more) == Some(t) && Enabled(t, l)
    ensures Exec(ls + [Receive(r)] + (more + [l])) == Some(Apply(t, l))
  {
    ExecSnoc(ls + [Receive(r)] + more, l);
    assert ls + [Receive(r)] + (more + [l]) == ls + [Receive(r)] + more + [l];
  }

  /** The observer's own steps are the run that overtakes. */
  lemma SenderOvertakes(ls: seq<Label>, s: State, r: Request) returns (more: seq<Label>)
    requires Exec(ls) == Some(s) && s.control.Idle? && ObserverSends(s)
    ensures Overtakes(ls, s, r, more)
  {
    Reachable(ls);
    ExecSnoc(ls, Receive(r));
    assert ls + [Receive(r)] + [] == ls + [Receive(r)];
    var t := Apply(s, Receive(r));
    more := [];
    if s.observer.Sending? {
      ExecAgain(ls, r, more, ObserverClaim, t);
      more, t := more + [ObserverClaim], Apply(t, ObserverClaim);
    }
    ExecAgain(ls, r, more, ObserverPut, t);
    more, t := more + [ObserverPut], Apply(t, ObserverPut);
    assert t.wire[|s.wire|..] == [Exit];
  }

  /** Exactly when the acknowledgement of a request can be overtaken by the exit
      frame: when the observer is committed to sending it at the moment the request
      is received. A result published later leaves the frame to the control loop. */
  lemma AckIsOvertakenExactlyWhen(ls: seq<Label>, s: State, r: Request)
    requires Exec(ls) == Some(s) && s.control.Idle?
    ensures (exists more :: Overtakes(ls, s, r, more)) <==> ObserverSends(s)
  {
    if ObserverSends(s) {
      var more := SenderOvertakes(ls, s, r);
    } else {
      forall more ensures !Overtakes(ls, s, r, more) {
        if WriteAck !in more && Exec(ls + [Receive(r)] + more).Some? {
          QuietStays(ls, s, r, more);
          NothingNew(s, Exec(ls + [Receive(r)] + more).value);
        }
      }
    }
  }

  /** A run in which it happens. */
  lemma ExitCanOvertakeAnAck() returns (ls: seq<Label>, s: State)
    ensures Exec(ls) == Some(s) && Exit in s.wire && s.control == Received(StdinData)
  {
    s := INITIAL;
    ls := [];
    var script := [Receive(Start), Accept, WriteAck, ClearPending,
                   Receive(Wait), Accept, WriteAck, ClearPending, Arm,
                   Publish, Receive(StdinData), ObserverClaim, ObserverPut];
    for i := 0 to |script|
      invariant Exec(ls) == Some(s)
      invariant s == Script(i)
    {
      ExecSnoc(ls, script[i]);
      ls, s := ls + [script[i]], Apply(s, script[i]);
    }
  }

  /** The states that run passes through. */
  function Script(i: nat): State {
    var up := INITIAL.(started := true, wire := [Ack(Start)]);
    var waited := up.(waitRequested := true, wire := [Ack(Start), Ack(Wait)]);
    var armed := waited.(waitAcked := true);
    if i == 0 then INITIAL
    else if i == 1 then INITIAL.(control := Received(Start), ackPending := true)
    else if i == 2 then INITIAL.(control := Ready(Start), ackPending := true, started := true)
    else if i == 3 then up.(control := AckOnWire(Start), ackPending := true)
    else if i == 4 then up
    else if i == 5 then up.(control := Received(Wait), ackPending := true)
    else if i == 6 then up.(control := Ready(Wait), ackPending := true, waitRequested := true)
    else if i == 7 then waited.(control := AckOnWire(Wait), ackPending := true)
    else if i == 8 then waited.(control := ArmWait)
    else if i == 9 then armed
    else if i == 10 then armed.(result := true, observer := Sending)
    else if i == 11 then armed.(result := true, observer := Sending, control := Received(StdinData), ackPending := true)
    else if i == 12 then armed.(result := true, observer := Writing, exitSent := true, control := Received(StdinData), ackPending := true)
    else armed.(result := true, observer := Gone, exitSent := true, control := Received(StdinData), ackPending := true,
                wire := [Ack(Start), Ack(Wait), Exit])
  }
}
