/** The host's side of an adapter's event stream: what it accepts, event by event. */
module Pump {
  import opened Wrappers

  datatype Status = Ok | Error | Stopped

  datatype Event =
    | Ready
    | Message(text: string)
    | Call(id: string)
    | Result(id: string)
    | Usage(input: int, output: int)
    | ApprovalRequest(request: nat)
    | Done(status: Status, result: string)

  /** ready first and once, nothing after done. */
  datatype Seen = Seen(ready: bool, done: bool)

  function Accept(s: Seen, e: Event): Option<Seen> {
    if s.done then None
    else if e.Ready? then (if s.ready then None else Some(s.(ready := true)))
    else if !s.ready then None
    else Some(s.(done := e.Done?))
  }

  function AcceptAll(es: seq<Event>): Option<Seen> {
    if es == [] then Some(Seen(false, false))
    else match AcceptAll(es[..|es| - 1])
      case None => None
      case Some(s) => Accept(s, es[|es| - 1])
  }

  lemma AcceptSnoc(es: seq<Event>, e: Event)
    ensures AcceptAll(es + [e]) == match AcceptAll(es) case None => None case Some(s) => Accept(s, e)
  {
    assert (es + [e])[..|es|] == es;
  }

  /** What acceptance means. */
  lemma {:induction false} AcceptedStreams(es: seq<Event>)
    requires AcceptAll(es).Some?
    ensures forall i :: 0 <= i < |es| ==> (es[i].Ready? <==> i == 0)
    ensures forall i :: 0 <= i < |es| - 1 ==> !es[i].Done?
    ensures AcceptAll(es).value.ready <==> es != []
    ensures AcceptAll(es).value.done <==> es != [] && es[|es| - 1].Done?
  {
    if es != [] {
      AcceptedStreams(es[..|es| - 1]);
    }
  }

  /** And exactly such streams are accepted. */
  lemma {:induction false} AcceptedExactly(es: seq<Event>)
    ensures AcceptAll(es).Some? <==>
      && (forall i :: 0 <= i < |es| ==> (es[i].Ready? <==> i == 0))
      && (forall i :: 0 <= i < |es| - 1 ==> !es[i].Done?)
  {
    if es != [] {
      var front := es[..|es| - 1];
      AcceptedExactly(front);
      if AcceptAll(front).Some? {
        AcceptedStreams(front);
      }
      assert forall i :: 0 <= i < |front| ==> front[i] == es[i];
    }
  }

  lemma {:induction false} AcceptPrefix(es: seq<Event>, n: nat)
    requires AcceptAll(es).Some? && n <= |es|
    ensures AcceptAll(es[..n]).Some?
  {
    if n < |es| {
      AcceptPrefix(es[..|es| - 1], n);
      assert es[..|es| - 1][..n] == es[..n];
    } else {
      assert es[..n] == es;
    }
  }

  /** The pump's own variables. */
  class Callback {
    var sawReady: bool
    var done: bool

    constructor ()
      ensures !sawReady && !done
    {
      sawReady, done := false, false;
    }

    /** fits: the line is not blank and meets the contract. logged: its record and
        what follows from it went through; ready counts from before that. */
    method OnEvent(e: Event, fits: bool, logged: bool) returns (ok: bool)
      modifies this
      ensures ok <==> fits && logged && Accept(old(Seen(sawReady, done)), e).Some?
      ensures
        if ok then Some(Seen(sawReady, done)) == Accept(old(Seen(sawReady, done)), e)
        else done == old(done) && (sawReady == old(sawReady) || e.Ready?)
    {
      if done {
        return false;
      }
      if !fits {
        return false;
      }
      if e.Ready? {
        if sawReady {
          return false;
        }
        sawReady := true;
      } else if !sawReady {
        return false;
      }
      if !logged {
        return false;
      }
      if e.Done? {
        done := true;
      }
      return true;
    }

    /** The events of a stream, one after the other, up to the first refusal. */
    method Drain(es: seq<Event>, ghost before: seq<Event>) returns (ok: bool)
      requires AcceptAll(before) == Some(Seen(sawReady, done))
      modifies this
      ensures ok <==> AcceptAll(before + es).Some?
      ensures ok ==> AcceptAll(before + es) == Some(Seen(sawReady, done))
    {
      hide AcceptAll;
      assert before + es[..0] == before;
      for i := 0 to |es|
        invariant AcceptAll(before + es[..i]) == Some(Seen(sawReady, done))
      {
        AcceptSnoc(before + es[..i], es[i]);
        assert before + es[..i] + [es[i]] == before + es[..i + 1];
        ok := OnEvent(es[i], true, true);
        if !ok {
          assert (before + es)[..|before| + i + 1] == before + es[..i + 1];
          if AcceptAll(before + es).Some? {
            AcceptPrefix(before + es, |before| + i + 1);
          }
          return false;
        }
      }
      assert es[..|es|] == es;
      return true;
    }
  }

  // ---------- what the parent is told ----------

  datatype Line = Line(event: Event, fits: bool, logged: bool)

  function EventsOf(lines: seq<Line>): seq<Event> {
    seq(|lines|, i requires 0 <= i < |lines| => lines[i].event)
  }

  /** The result of a child: its done, exactly if every line was accepted and logged,
      done came, nothing else failed, and the exit was clean unless done says error. */
  method Wait(lines: seq<Line>, approvalFailed: bool, scanFailed: bool, exitFailed: bool) returns (r: Option<Event>)
    ensures r.Some? <==>
      && !approvalFailed && !scanFailed && (forall l :: l in lines ==> l.fits && l.logged)
      && AcceptAll(EventsOf(lines)) == Some(Seen(true, true))
      && (exitFailed ==> EventsOf(lines)[|lines| - 1].Done? && EventsOf(lines)[|lines| - 1].status == Error)
    ensures r.Some? ==> lines != [] && r.value == lines[|lines| - 1].event && r.value.Done?
  {
    hide AcceptAll;
    var host := new Callback();
    var last: Option<Event> := None;
    Nothing(lines);
    for i := 0 to |lines|
      invariant fresh(host) && AcceptAll(EventsOf(lines[..i])) == Some(Seen(host.sawReady, host.done))
      invariant forall l :: l in lines[..i] ==> l.fits && l.logged
      invariant host.done ==> i > 0 && last == Some(lines[i - 1].event)
    {
      var l := lines[i];
      assert EventsOf(lines[..i + 1]) == EventsOf(lines[..i]) + [l.event];
      AcceptSnoc(EventsOf(lines[..i]), l.event);
      var ok := host.OnEvent(l.event, l.fits, l.logged);
      if !ok {
        assert l in lines;
        assert EventsOf(lines)[..i + 1] == EventsOf(lines[..i + 1]);
        if AcceptAll(EventsOf(lines)).Some? {
          AcceptPrefix(EventsOf(lines), i + 1);
        }
        return None;
      }
      if l.event.Done? {
        last := Some(l.event);
      }
    }
    assert lines[..|lines|] == lines;
    if approvalFailed || scanFailed || !host.done {
      return None;
    }
    AcceptedStreams(EventsOf(lines));
    if exitFailed && last.value.status != Error {
      return None;
    }
    return last;
  }

  lemma Nothing(lines: seq<Line>)
    ensures AcceptAll(EventsOf(lines[..0])) == Some(Seen(false, false))
  {
  }
}
