/**
  The two writers of the Claude adapter's output: the session thread, whose events
  the parser and the end of the session make, and the approval server, which puts a
  request on the same wire for each hook that finds the session ready and the server
  not closed. Checking and writing are two steps of a request.
*/
module ApprovalRace {
  import opened Wrappers
  import opened Pump

  datatype Phase = Arrived | Registered | Asked | Refused

  /** left is what the session thread has still to send, marked that it has told the
      server that ready is out. */
  datatype State = State(left: seq<Event>, marked: bool, closed: bool, requests: seq<Phase>, out: seq<Event>)

  datatype Label = Send | Mark | Arrive | Register(id: nat) | Ask(id: nat) | Refuse(id: nat) | Close

  function Start(es: seq<Event>): State {
    State(es, false, false, [], [])
  }

  predicate In(s: State, id: nat, p: Phase) {
    id < |s.requests| && s.requests[id] == p
  }

  predicate Enabled(s: State, l: Label) {
    match l
    case Send => s.left != []
    case Mark => Ready in s.out
    case Arrive => true
    case Register(id) => In(s, id, Arrived) && s.marked && !s.closed
    case Ask(id) => In(s, id, Registered)
    case Refuse(id) => In(s, id, Arrived)
    case Close => true
  }

  function Apply(s: State, l: Label): State
    requires Enabled(s, l)
  {
    match l
    case Send => s.(left := s.left[1..], out := s.out + [s.left[0]])
    case Mark => s.(marked := true)
    case Arrive => s.(requests := s.requests + [Arrived])
    case Register(id) => s.(requests := s.requests[id := Registered])
    case Ask(id) => s.(requests := s.requests[id := Asked], out := s.out + [ApprovalRequest(id)])
    case Refuse(id) => s.(requests := s.requests[id := Refused])
    case Close => s.(closed := true)
  }

  function Exec(es: seq<Event>, ls: seq<Label>): Option<State> {
    if ls == [] then Some(Start(es))
    else
      var l := ls[|ls| - 1];
      match Exec(es, ls[..|ls| - 1])
      case None => None
      case Some(s) => if Enabled(s, l) then Some(Apply(s, l)) else None
  }

  /** A session as the adapter ends it: nothing, or ready first and one done, last. */
  ghost predicate Whole(es: seq<Event>) {
    AcceptAll(es) == Some(Seen(es != [], es != []))
  }

  /** How many of the session's own events are out. */
  function Gone(es: seq<Event>, s: State): int {
    |es| - |s.left|
  }

  ghost predicate Inv(es: seq<Event>, s: State) {
    && |s.left| <= |es| && s.left == es[Gone(es, s)..]
    && (Ready in s.out ==> Gone(es, s) > 0)
    && (s.marked ==> Gone(es, s) > 0)
    && (forall id :: In(s, id, Registered) ==> s.marked)
    && (AcceptAll(s.out).Some? ==> AcceptAll(s.out).value == Seen(Gone(es, s) > 0, Gone(es, s) == |es| > 0))
    && (Gone(es, s) > 0 ==> Ready in s.out)
  }

  /** Only registering makes a request registered. */
  lemma OldRequests(s: State, l: Label)
    requires Enabled(s, l)
    ensures forall id :: In(Apply(s, l), id, Registered) ==> In(s, id, Registered) || l == Register(id)
  {
  }

  /** The session's next event goes where the host expects it. */
  lemma NextIsAccepted(es: seq<Event>, s: State)
    requires Whole(es) && Inv(es, s) && s.left != [] && AcceptAll(s.out).Some?
    ensures
      var k := Gone(es, s);
      && s.left[0] == es[k] && (s.left[0].Ready? <==> k == 0)
      && AcceptAll(s.out + [s.left[0]]) == Some(Seen(true, k + 1 == |es|))
  {
    hide AcceptAll;
    AcceptedStreams(es);
    AcceptSnoc(s.out, s.left[0]);
  }

  lemma SendKeeps(es: seq<Event>, s: State)
    requires Whole(es) && Inv(es, s) && s.left != []
    ensures Inv(es, Apply(s, Send))
    ensures AcceptAll(s.out).Some? ==> AcceptAll(Apply(s, Send).out).Some?
  {
    hide AcceptAll;
    if AcceptAll(s.out).Some? {
      NextIsAccepted(es, s);
    }
    AcceptSnoc(s.out, s.left[0]);
    AcceptedStreams(es);
    var t := Apply(s, Send);
    OldRequests(s, Send);
    assert t.left == es[Gone(es, s) + 1..];
    if Gone(es, s) > 0 {
      assert Ready in t.out;
    } else {
      assert t.out[|s.out|] == Ready;
    }
  }

  /** A request is accepted exactly if done is not out. */
  lemma AskKeeps(es: seq<Event>, s: State, id: nat)
    requires Inv(es, s) && Enabled(s, Ask(id))
    ensures Inv(es, Apply(s, Ask(id)))
    ensures AcceptAll(s.out).Some? ==> (AcceptAll(Apply(s, Ask(id)).out).Some? <==> s.left != [])
  {
    hide AcceptAll;
    AcceptSnoc(s.out, ApprovalRequest(id));
    assert Gone(es, s) > 0;
  }

  lemma StepKeeps(es: seq<Event>, s: State, l: Label)
    requires Whole(es) && Inv(es, s) && Enabled(s, l)
    ensures Inv(es, Apply(s, l))
  {
    hide AcceptAll, Whole;
    OldRequests(s, l);
    if l.Send? {
      SendKeeps(es, s);
    } else if l.Ask? {
      AskKeeps(es, s, l.id);
    }
  }

  lemma {:induction false} Reachable(es: seq<Event>, ls: seq<Label>)
    requires Whole(es) && Exec(es, ls).Some?
    ensures Inv(es, Exec(es, ls).value)
  {
    if ls != [] {
      Reachable(es, ls[..|ls| - 1]);
      hide Inv, Whole, Enabled, Apply;
      StepKeeps(es, Exec(es, ls[..|ls| - 1]).value, ls[|ls| - 1]);
    }
  }

  // ---------- when a request comes too late ----------

  /** A run that goes on like this ends with output that the host refuses. */
  ghost predicate Refuses(es: seq<Event>, ls: seq<Label>, more: seq<Label>) {
    Exec(es, ls + more).Some? && AcceptAll(Exec(es, ls + more).value.out).None?
  }

  /** Nobody can write but the session. */
  ghost predicate Settled(s: State) {
    s.closed && forall id :: !In(s, id, Registered)
  }

  lemma SettledStays(es: seq<Event>, s: State, l: Label)
    requires Whole(es) && Inv(es, s) && Enabled(s, l) && AcceptAll(s.out).Some? && (es == [] || Settled(s))
    ensures var t := Apply(s, l); AcceptAll(t.out).Some? && (es == [] || Settled(t))
  {
    hide AcceptAll, Whole;
    OldRequests(s, l);
    if l.Send? {
      SendKeeps(es, s);
    }
  }

  lemma {:induction false} SettledRun(es: seq<Event>, ls: seq<Label>, s: State, more: seq<Label>)
    requires Whole(es) && Exec(es, ls) == Some(s) && AcceptAll(s.out).Some? && (es == [] || Settled(s))
    requires Exec(es, ls + more).Some?
    ensures var t := Exec(es, ls + more).value; AcceptAll(t.out).Some? && (es == [] || Settled(t))
  {
    hide AcceptAll, Whole, Settled, Enabled, Apply;
    if more == [] {
      assert ls + more == ls;
    } else {
      var front := more[..|more| - 1];
      assert (ls + more)[..|ls + more| - 1] == ls + front;
      SettledRun(es, ls, s, front);
      Reachable(es, ls + front);
      SettledStays(es, Exec(es, ls + front).value, more[|more| - 1]);
    }
  }

  /** One more step. */
  lemma Extend(es: seq<Event>, ls: seq<Label>, more: seq<Label>, s: State, l: Label)
    returns (longer: seq<Label>, t: State)
    requires Exec(es, ls + more) == Some(s) && Enabled(s, l)
    ensures longer == more + [l] && t == Apply(s, l) && Exec(es, ls + longer) == Some(t)
  {
    longer, t := more + [l], Apply(s, l);
    assert (ls + longer)[..|ls + longer| - 1] == ls + more;
  }

  /** The session can always come to its end. */
  lemma {:induction false} CanFinish(es: seq<Event>, ls: seq<Label>, more: seq<Label>, s: State)
    returns (longer: seq<Label>, t: State)
    requires Whole(es) && Exec(es, ls + more) == Some(s)
    ensures Exec(es, ls + longer) == Some(t) && t.left == []
    ensures t.requests == s.requests && t.closed == s.closed && t.marked == s.marked
    decreases |s.left|
  {
    hide Exec, Whole;
    if s.left == [] {
      longer, t := more, s;
    } else {
      longer, t := Extend(es, ls, more, s, Send);
      longer, t := CanFinish(es, ls, longer, t);
    }
  }

  /** A request registered by the end is refused. */
  lemma LateAsk(es: seq<Event>, ls: seq<Label>, more: seq<Label>, s: State, id: nat) returns (longer: seq<Label>)
    requires Whole(es) && Exec(es, ls + more) == Some(s) && s.left == [] && In(s, id, Registered)
    ensures Refuses(es, ls, longer)
  {
    Reachable(es, ls + more);
    var t;
    longer, t := Extend(es, ls, more, s, Ask(id));
    AskKeeps(es, s, id);
    hide Exec, AcceptAll;
    if AcceptAll(s.out).None? {
      AcceptSnoc(s.out, ApprovalRequest(id));
    }
  }

  lemma LateArrival(es: seq<Event>, ls: seq<Label>, more: seq<Label>, s: State) returns (longer: seq<Label>)
    requires Whole(es) && es != [] && Exec(es, ls + more) == Some(s) && s.left == [] && !s.closed
    ensures Refuses(es, ls, longer)
  {
    Reachable(es, ls + more);
    hide Exec, AcceptAll, Whole;
    var t, id := s, |s.requests|;
    longer, t := Extend(es, ls, more, t, Mark);
    longer, t := Extend(es, ls, longer, t, Arrive);
    longer, t := Extend(es, ls, longer, t, Register(id));
    longer := LateAsk(es, ls, longer, t, id);
  }

  /** At any point of any run whose output the host has accepted so far: it can still
      come to a request that follows done, which the host refuses, exactly if there is
      a session at all and the server is not closed or a request has passed its check
      and is not written yet. */
  lemma RefusedExactlyWhen(es: seq<Event>, ls: seq<Label>, s: State)
    requires Whole(es) && Exec(es, ls) == Some(s) && AcceptAll(s.out).Some?
    ensures (exists more :: Refuses(es, ls, more)) <==> es != [] && !Settled(s)
  {
    hide AcceptAll, Whole, Enabled, Apply;
    if es == [] || Settled(s) {
      forall more ensures !Refuses(es, ls, more) {
        if Exec(es, ls + more).Some? {
          SettledRun(es, ls, s, more);
        }
      }
    } else {
      assert ls + [] == ls;
      var more, t := CanFinish(es, ls, [], s);
      if s.closed {
        var id :| In(s, id, Registered);
        more := LateAsk(es, ls, more, t, id);
      } else {
        more := LateArrival(es, ls, more, t);
      }
      assert Refuses(es, ls, more);
    }
  }

  /** So every session can end with a request that the host refuses. */
  lemma RequestAfterDone(es: seq<Event>) returns (ls: seq<Label>)
    requires Whole(es) && es != []
    ensures Refuses(es, [], ls)
  {
    assert AcceptAll([]).Some?;
    RefusedExactlyWhen(es, [], Start(es));
    ls :| Refuses(es, [], ls);
  }

  /** Every request went out before done. */
  ghost predicate InTime(out: seq<Event>) {
    forall i, j :: 0 <= i < j < |out| ==> !(out[i].Done? && out[j].ApprovalRequest?)
  }

  /** Apart from such requests nothing is refused: the output is accepted exactly if
      every request went out before done. */
  lemma OnlyLateRequests(es: seq<Event>, ls: seq<Label>, s: State)
    requires Whole(es) && Exec(es, ls) == Some(s)
    ensures AcceptAll(s.out).Some? <==> InTime(s.out)
    ensures AcceptAll(s.out).Some? ==> AcceptAll(s.out).value == Seen(s.out != [], s.left == [] && es != [])
  {
    Outputs(es, ls, s);
    Reachable(es, ls);
    hide AcceptAll, Whole;
    if AcceptAll(s.out).Some? {
      AcceptedStreams(s.out);
    }
  }

  lemma {:induction false} Outputs(es: seq<Event>, ls: seq<Label>, s: State)
    requires Whole(es) && Exec(es, ls) == Some(s)
    ensures InTime(s.out) ==> AcceptAll(s.out).Some?
    ensures s.left == [] && es != [] ==> exists i :: 0 <= i < |s.out| && s.out[i].Done?
  {
    if ls != [] {
      var front, l := ls[..|ls| - 1], ls[|ls| - 1];
      var before := Exec(es, front).value;
      Outputs(es, front, before);
      Reachable(es, front);
      hide Exec;
      OutputStep(es, before, l);
    }
  }

  lemma OutputStep(es: seq<Event>, s: State, l: Label)
    requires Whole(es) && Inv(es, s) && Enabled(s, l)
    requires (InTime(s.out) ==> AcceptAll(s.out).Some?) && (s.left == [] && es != [] ==> exists i :: 0 <= i < |s.out| && s.out[i].Done?)
    ensures var t := Apply(s, l);
      && (InTime(t.out) ==> AcceptAll(t.out).Some?)
      && (t.left == [] && es != [] ==> exists i :: 0 <= i < |t.out| && t.out[i].Done?)
  {
    hide AcceptAll;
    var t := Apply(s, l);
    assert s.out <= t.out;
    if l.Send? {
      SendKeeps(es, s);
      AcceptedStreams(es);
      assert t.out[|s.out|] == s.left[0];
    } else if l.Ask? {
      AskKeeps(es, s, l.id);
      if s.left == [] {
        assert Gone(es, s) > 0;
        var i :| 0 <= i < |s.out| && s.out[i].Done?;
        assert t.out[i].Done? && t.out[|s.out|].ApprovalRequest?;
      }
    }
  }
}
