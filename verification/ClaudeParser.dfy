/** The Claude Code stream parser in one-shot mode, on lines whose JSON has been read. */
module ClaudeParser {
  import opened Wrappers
  import opened Pump

  datatype Block =
    | Text(text: string)
    | ToolUse(id: string, name: string)
    | Thinking
    | ToolResult(id: string)
    | OtherBlock

  /** A native line, as far as the parser tells lines apart. synthetic is the text
      of an upstream error dressed as an assistant message; status and text are what
      a result line says of itself; usage is None if its numbers do not add up. */
  datatype Line =
    | Unreadable
    | Ignored
    | Init
    | Denied(id: string)
    | Assistant(synthetic: Option<string>, blocks: Option<seq<Block>>)
    | User(rejected: set<string>, blocks: Option<seq<Block>>)
    | ResultLine(usage: Option<Option<(int, int)>>, status: Status, text: string)
    | Other

  datatype State = State(sawInit: bool, done: bool, rejected: set<string>, noted: set<string>, apiError: string)

  const FRESH := State(false, false, {}, {}, "")

  datatype Out = Out(state: State, events: seq<Event>, ok: bool)

  function Fail(s: State): Out {
    Out(s, [], false)
  }

  /** A line that fails part way keeps what it noted, but none of its events. */
  function AssistantBlocks(s: State, blocks: seq<Block>, soFar: seq<Event>): Out
    decreases blocks
  {
    if blocks == [] then Out(s, soFar, true)
    else match blocks[0]
      case Text(text) => AssistantBlocks(s, blocks[1..], soFar + [Message(text)])
      case ToolUse(id, name) =>
        if id == "" || name == "" then Fail(s) else AssistantBlocks(s, blocks[1..], soFar + [Call(id)])
      case Thinking => AssistantBlocks(s, blocks[1..], soFar)
      case _ => Fail(s)
  }

  function UserBlocks(s: State, rejected: set<string>, blocks: seq<Block>, soFar: seq<Event>): Out
    decreases blocks
  {
    if blocks == [] then Out(s, soFar, true)
    else match blocks[0]
      case ToolResult(id) =>
        if id == "" then Fail(s)
        else if id in s.rejected then
          if id !in rejected then Fail(s)
          else UserBlocks(s.(rejected := s.rejected - {id}), rejected, blocks[1..], soFar)
        else if id in s.noted then Fail(s)
        else UserBlocks(s.(noted := s.noted + {id}), rejected, blocks[1..], soFar + [Result(id)])
      case Text(_) => UserBlocks(s, rejected, blocks[1..], soFar)
      case _ => Fail(s)
  }

  /** An upstream error that nothing visible followed turns a good end into a bad one. */
  function Ending(s: State, status: Status, text: string): Event {
    Done(if s.apiError != "" && status == Ok then Error else status, WithApiError(text, s.apiError))
  }

  function WithApiError(text: string, error: string): string {
    if error == "" || (exists i :: 0 <= i <= |text| && error <= text[i..]) then text else text + " (" + error + ")"
  }

  function ParseResult(s: State, usage: Option<Option<(int, int)>>, status: Status, text: string): Out {
    if s.rejected != {} then Fail(s)
    else if usage == Some(None) then Fail(s)
    else
      var first := if usage.Some? then [Usage(usage.value.value.0, usage.value.value.1)] else [];
      Out(s.(done := true, apiError := ""), first + [Ending(s, status, text)], true)
  }

  function Parse(s: State, unfit: bool, line: Line): Out {
    if unfit || s.done then Fail(s)
    else match line
      case Unreadable => Fail(s)
      case Ignored => Out(s, [], true)
      case Init => if s.sawInit then Fail(s) else Out(s.(sawInit := true), [Ready], true)
      case _ =>
        if !s.sawInit then Fail(s)
        else match line
          case Denied(id) =>
            if id == "" || id in s.noted then Fail(s)
            else Out(s.(noted := s.noted + {id}, rejected := s.rejected + {id}), [Result(id)], true)
          case Assistant(Some(error), _) => Out(s.(apiError := error), [Usage(0, 0)], true)
          case Assistant(None, Some(blocks)) => AssistantBlocks(s.(apiError := ""), blocks, [])
          case User(rejected, Some(blocks)) => UserBlocks(s, rejected, blocks, [])
          case ResultLine(usage, status, text) => ParseResult(s, usage, status, text)
          case _ => Fail(s)
  }

  datatype Input = Input(unfit: bool, line: Line)

  datatype Run = Run(state: State, events: seq<Event>)

  function ParseAll(lines: seq<Input>): Run {
    if lines == [] then Run(FRESH, [])
    else
      var r, l := ParseAll(lines[..|lines| - 1]), lines[|lines| - 1];
      var o := Parse(r.state, l.unfit, l.line);
      Run(o.state, r.events + o.events)
  }

  // ---------- what the stream says ----------

  /** No call gets two results. */
  ghost predicate OneResult(es: seq<Event>) {
    forall i, j :: 0 <= i < j < |es| && es[i].Result? && es[j].Result? ==> es[i].id != es[j].id
  }

  ghost predicate Noted(s: State, es: seq<Event>) {
    forall i :: 0 <= i < |es| && es[i].Result? ==> es[i].id in s.noted
  }

  ghost predicate Fits(s: State, es: seq<Event>) {
    && AcceptAll(es) == Some(Seen(s.sawInit, s.done))
    && OneResult(es) && Noted(s, es)
    && s.rejected <= s.noted
  }

  lemma Extends(s: State, es: seq<Event>, e: Event, s': State)
    requires Fits(s, es) && !s.done && (s.sawInit <==> !e.Ready?)
    requires s'.sawInit && s'.done == e.Done? && s.noted <= s'.noted && s'.rejected <= s'.noted
    requires e.Result? ==> e.id !in s.noted && e.id in s'.noted
    ensures Fits(s', es + [e])
  {
    hide AcceptAll;
    AcceptSnoc(es, e);
  }

  /** Noting more without an event. */
  lemma Notes(s: State, es: seq<Event>, s': State)
    requires Fits(s, es) && s'.sawInit == s.sawInit && s'.done == s.done
    requires s.noted <= s'.noted && s'.rejected <= s'.noted
    ensures Fits(s', es)
  {
    hide AcceptAll;
  }

  lemma {:induction false} AssistantFits(s: State, es: seq<Event>, blocks: seq<Block>, soFar: seq<Event>)
    requires Fits(s, es) && Fits(s, es + soFar) && s.sawInit && !s.done
    ensures var o := AssistantBlocks(s, blocks, soFar); Fits(o.state, es + o.events)
    decreases blocks
  {
    hide Fits;
    assert es + [] == es;
    if blocks != [] {
      var b := blocks[0];
      if b.Text? || (b.ToolUse? && b.id != "" && b.name != "") {
        var e := if b.Text? then Message(b.text) else Call(b.id);
        Unfold(s, es + soFar);
        Extends(s, es + soFar, e, s);
        assert es + soFar + [e] == es + (soFar + [e]);
        AssistantFits(s, es, blocks[1..], soFar + [e]);
      } else if b.Thinking? {
        AssistantFits(s, es, blocks[1..], soFar);
      }
    }
  }

  lemma Unfold(s: State, es: seq<Event>)
    requires Fits(s, es)
    ensures s.rejected <= s.noted
  {
  }

  lemma {:induction false} UserFits(s: State, es: seq<Event>, rejected: set<string>, blocks: seq<Block>, soFar: seq<Event>)
    requires Fits(s, es) && Fits(s, es + soFar) && s.sawInit && !s.done
    ensures var o := UserBlocks(s, rejected, blocks, soFar); Fits(o.state, es + o.events)
    decreases blocks
  {
    hide Fits;
    assert es + [] == es;
    Unfold(s, es);
    if blocks != [] {
      var b := blocks[0];
      if b.ToolResult? && b.id != "" && b.id in s.rejected && b.id in rejected {
        var s' := s.(rejected := s.rejected - {b.id});
        Notes(s, es, s');
        Notes(s, es + soFar, s');
        UserFits(s', es, rejected, blocks[1..], soFar);
      } else if b.ToolResult? && b.id != "" && b.id !in s.rejected && b.id !in s.noted {
        var s', e := s.(noted := s.noted + {b.id}), Result(b.id);
        Notes(s, es, s');
        Extends(s, es + soFar, e, s');
        assert es + soFar + [e] == es + (soFar + [e]);
        UserFits(s', es, rejected, blocks[1..], soFar + [e]);
      } else if b.Text? {
        UserFits(s, es, rejected, blocks[1..], soFar);
      }
    }
  }

  lemma ResultFits(s: State, es: seq<Event>, usage: Option<Option<(int, int)>>, status: Status, text: string)
    requires Fits(s, es) && s.sawInit && !s.done
    ensures var o := ParseResult(s, usage, status, text); Fits(o.state, es + o.events)
  {
    hide Fits;
    assert es + [] == es;
    Unfold(s, es);
    var o := ParseResult(s, usage, status, text);
    if o.ok && usage.None? {
      Extends(s, es, o.events[0], o.state);
      assert es + o.events == es + [o.events[0]];
    } else if o.ok {
      Extends(s, es, o.events[0], s);
      Extends(s, es + [o.events[0]], o.events[1], o.state);
      assert es + o.events == es + [o.events[0]] + [o.events[1]];
    }
  }

  lemma ParseFits(s: State, es: seq<Event>, unfit: bool, line: Line)
    requires Fits(s, es)
    ensures var o := Parse(s, unfit, line); Fits(o.state, es + o.events)
  {
    hide Fits, AssistantBlocks, UserBlocks, ParseResult;
    assert es + [] == es;
    Unfold(s, es);
    if !unfit && !s.done {
      match line
      case Init =>
        if !s.sawInit {
          Extends(s, es, Ready, s.(sawInit := true));
        }
      case Denied(id) =>
        if s.sawInit && id != "" && id !in s.noted {
          Extends(s, es, Result(id), s.(noted := s.noted + {id}, rejected := s.rejected + {id}));
        }
      case Assistant(synthetic, blocks) =>
        if s.sawInit && synthetic.Some? {
          Extends(s, es, Usage(0, 0), s.(apiError := synthetic.value));
        } else if s.sawInit && blocks.Some? {
          var s' := s.(apiError := "");
          Notes(s, es, s');
          AssistantFits(s', es, blocks.value, []);
        }
      case User(rejected, blocks) =>
        if s.sawInit && blocks.Some? {
          UserFits(s, es, rejected, blocks.value, []);
        }
      case ResultLine(usage, status, text) =>
        if s.sawInit {
          ResultFits(s, es, usage, status, text);
        }
      case _ =>
    }
  }

  lemma {:induction false} ParseAllFits(lines: seq<Input>)
    ensures var r := ParseAll(lines); Fits(r.state, r.events)
  {
    if lines != [] {
      var front, l := lines[..|lines| - 1], lines[|lines| - 1];
      ParseAllFits(front);
      hide Fits;
      ParseFits(ParseAll(front).state, ParseAll(front).events, l.unfit, l.line);
    }
  }

  /** For every sequence of lines, in error or not: the events are accepted by the
      host, and no call gets two results. */
  lemma StreamIsAccepted(lines: seq<Input>)
    ensures AcceptAll(ParseAll(lines).events).Some? && OneResult(ParseAll(lines).events)
  {
    ParseAllFits(lines);
  }

  // ---------- what the lines say ----------

  predicate Ended(t: seq<Line>) {
    exists l :: l in t && l.ResultLine?
  }

  /** A tool result for id came, in the lines t or among the blocks bs of the next. */
  ghost predicate Returned(t: seq<Line>, bs: seq<Block>, id: string) {
    ToolResult(id) in bs || exists l :: l in t && Returns(l, id)
  }

  predicate Returns(l: Line, id: string) {
    l.User? && l.blocks.Some? && ToolResult(id) in l.blocks.value
  }

  /** The upstream error that no assistant message followed. */
  function ApiError(t: seq<Line>): string {
    if t == [] then ""
    else
      match t[|t| - 1]
      case Assistant(Some(error), _) => error
      case Assistant(None, _) => ""
      case _ => ApiError(t[..|t| - 1])
  }

  predicate Speakable(b: Block) {
    b.Text? || b.Thinking? || (b.ToolUse? && b.id != "" && b.name != "")
  }

  /** The block may come after the blocks bs: a tool result is the first for its id,
      and after a denial the line confirms the rejection. */
  ghost predicate Acceptable(t: seq<Line>, rejected: set<string>, bs: seq<Block>, b: Block) {
    || b.Text?
    || (b.ToolResult? && b.id != "" && !Returned(t, bs, b.id) && (Denied(b.id) in t ==> b.id in rejected))
  }

  ghost predicate AcceptableFrom(t: seq<Line>, rejected: set<string>, blocks: seq<Block>, i: nat)
  {
    forall j :: i <= j < |blocks| ==> Acceptable(t, rejected, blocks[..j], blocks[j])
  }

  /** The line may follow the lines t. */
  ghost predicate Proper(t: seq<Line>, l: Input) {
    && !l.unfit && !Ended(t) && (l.line.Ignored? || l.line.Init? || Init in t)
    && match l.line
       case Ignored => true
       case Init => Init !in t
       case Denied(id) => id != "" && Denied(id) !in t && !Returned(t, [], id)
       case Assistant(Some(_), _) => true
       case Assistant(None, Some(blocks)) => forall b :: b in blocks ==> Speakable(b)
       case User(rejected, Some(blocks)) => AcceptableFrom(t, rejected, blocks, 0)
       case ResultLine(usage, _, _) => usage != Some(None) && forall id :: Denied(id) in t ==> Returned(t, [], id)
       case _ => false
  }

  function Spoken(blocks: seq<Block>): seq<Event> {
    if blocks == [] then []
    else
      Spoken(blocks[..|blocks| - 1])
      + match blocks[|blocks| - 1]
        case Text(text) => [Message(text)]
        case ToolUse(id, _) => [Call(id)]
        case _ => []
  }

  /** The results of the blocks; a denied call has had its result. */
  function Results(t: seq<Line>, blocks: seq<Block>): seq<Event> {
    if blocks == [] then []
    else
      var b := blocks[|blocks| - 1];
      Results(t, blocks[..|blocks| - 1]) + if b.ToolResult? && Denied(b.id) !in t then [Result(b.id)] else []
  }

  /** What a proper line after the lines t says. */
  function Says(t: seq<Line>, l: Line): seq<Event> {
    match l
    case Init => [Ready]
    case Denied(id) => [Result(id)]
    case Assistant(Some(_), _) => [Usage(0, 0)]
    case Assistant(None, Some(blocks)) => Spoken(blocks)
    case User(_, Some(blocks)) => Results(t, blocks)
    case ResultLine(usage, status, text) =>
      var error := ApiError(t);
      (match usage case Some(Some((input, output))) => [Usage(input, output)] case _ => [])
      + [Done(if error != "" && status == Ok then Error else status, WithApiError(text, error))]
    case _ => []
  }

  function Told(t: seq<Line>): seq<Event> {
    if t == [] then [] else Told(t[..|t| - 1]) + Says(t[..|t| - 1], t[|t| - 1])
  }

  /** The parser's notes, after the lines t and the blocks bs of the next. */
  ghost predicate Marks(s: State, t: seq<Line>, bs: seq<Block>) {
    && (forall id :: id in s.noted <==> Denied(id) in t || Returned(t, bs, id))
    && (forall id :: id in s.rejected <==> Denied(id) in t && !Returned(t, bs, id))
  }

  ghost predicate Tracks(s: State, t: seq<Line>) {
    && (s.sawInit <==> Init in t) && (s.done <==> Ended(t))
    && s.apiError == (if Ended(t) then "" else ApiError(t))
    && Marks(s, t, [])
  }

  lemma {:induction false} AssistantTracked(s: State, blocks: seq<Block>, i: nat)
    requires i <= |blocks|
    ensures var o := AssistantBlocks(s, blocks[i..], Spoken(blocks[..i]));
      && (o.ok <==> forall j :: i <= j < |blocks| ==> Speakable(blocks[j]))
      && (o.ok ==> o.state == s && o.events == Spoken(blocks))
    decreases |blocks| - i
  {
    if i < |blocks| {
      assert blocks[i..][0] == blocks[i] && blocks[i..][1..] == blocks[i + 1..];
      assert blocks[..i + 1][..i] == blocks[..i];
      AssistantTracked(s, blocks, i + 1);
      var before := Spoken(blocks[..i]);
      assert before + [] == before;
    } else {
      assert blocks[..i] == blocks;
    }
  }

  lemma ReturnedSince(t: seq<Line>, bs: seq<Block>, b: Block, id: string)
    ensures Returned(t, bs + [b], id) <==> Returned(t, bs, id) || b == ToolResult(id)
  {
    assert ToolResult(id) in bs + [b] <==> ToolResult(id) in bs || b == ToolResult(id);
  }

  /** One block of a user line. */
  function NextState(s: State, b: Block): State {
    if !b.ToolResult? then s
    else if b.id in s.rejected then s.(rejected := s.rejected - {b.id})
    else s.(noted := s.noted + {b.id})
  }

  lemma BlockTracked(s: State, t: seq<Line>, rejected: set<string>, bs: seq<Block>, b: Block)
    requires Marks(s, t, bs) && Acceptable(t, rejected, bs, b)
    ensures Marks(NextState(s, b), t, bs + [b])
  {
    hide Returned;
    forall id ensures Returned(t, bs + [b], id) <==> Returned(t, bs, id) || b == ToolResult(id) {
      ReturnedSince(t, bs, b, id);
    }
  }

  lemma {:induction false} UserTracked(s: State, t: seq<Line>, rejected: set<string>, blocks: seq<Block>, i: nat)
    requires i <= |blocks| && Marks(s, t, blocks[..i])
    ensures var o := UserBlocks(s, rejected, blocks[i..], Results(t, blocks[..i]));
      && (o.ok <==> AcceptableFrom(t, rejected, blocks, i))
      && (o.ok ==> Marks(o.state, t, blocks) && o.events == Results(t, blocks)
                   && o.state == s.(noted := o.state.noted, rejected := o.state.rejected))
    decreases |blocks| - i
  {
    hide Returned, Results, UserBlocks, Acceptable, Marks;
    if i < |blocks| {
      var b := blocks[i];
      BlockTaken(s, t, rejected, blocks, i);
      if Acceptable(t, rejected, blocks[..i], b) {
        assert blocks[..i + 1] == blocks[..i] + [b];
        BlockTracked(s, t, rejected, blocks[..i], b);
        UserTracked(NextState(s, b), t, rejected, blocks, i + 1);
        assert AcceptableFrom(t, rejected, blocks, i) <==> AcceptableFrom(t, rejected, blocks, i + 1);
      }
    } else {
      assert blocks[..i] == blocks;
      NoBlocks(s, rejected, blocks[i..], Results(t, blocks));
    }
  }

  lemma BlockTaken(s: State, t: seq<Line>, rejected: set<string>, blocks: seq<Block>, i: nat)
    requires i < |blocks| && Marks(s, t, blocks[..i])
    ensures var o := UserBlocks(s, rejected, blocks[i..], Results(t, blocks[..i]));
      if Acceptable(t, rejected, blocks[..i], blocks[i]) then
        o == UserBlocks(NextState(s, blocks[i]), rejected, blocks[i + 1..], Results(t, blocks[..i + 1]))
      else !o.ok
  {
    hide Returned;
    var b := blocks[i];
    assert blocks[i..][0] == b && blocks[i..][1..] == blocks[i + 1..];
    assert blocks[..i + 1][..i] == blocks[..i];
    var before := Results(t, blocks[..i]);
    assert before + [] == before;
  }

  lemma NoBlocks(s: State, rejected: set<string>, blocks: seq<Block>, soFar: seq<Event>)
    requires blocks == []
    ensures UserBlocks(s, rejected, blocks, soFar) == Out(s, soFar, true)
  {
  }

  lemma Since(t: seq<Line>, l: Line)
    ensures forall x :: x in t + [l] <==> x in t || x == l
    ensures Ended(t + [l]) <==> Ended(t) || l.ResultLine?
    ensures ApiError(t + [l]) == match l case Assistant(Some(e), _) => e case Assistant(None, _) => "" case _ => ApiError(t)
    ensures forall id :: Returned(t + [l], [], id) <==> Returned(t, [], id) || Returns(l, id)
  {
    assert (t + [l])[..|t|] == t;
    assert l in t + [l];
    forall x ensures x in t + [l] <==> x in t || x == l {
    }
  }

  /** One line: it is taken exactly if it is proper, and then says what it has to. */
  lemma LineTracked(s: State, t: seq<Line>, l: Input)
    requires Tracks(s, t)
    ensures
      var o := Parse(s, l.unfit, l.line);
      && (o.ok <==> Proper(t, l))
      && (o.ok ==> o.events == Says(t, l.line) && Tracks(o.state, t + [l.line]))
  {
    hide Returned, Ended, ApiError, AssistantBlocks, UserBlocks, Results, Spoken;
    Since(t, l.line);
    match l.line
    case Assistant(None, Some(blocks)) =>
      SpokenHere(s.(apiError := ""), blocks);
    case User(rejected, Some(blocks)) =>
      ReturnedHere(s, t, rejected, blocks);
    case _ =>
  }

  lemma SpokenHere(s: State, blocks: seq<Block>)
    ensures var o := AssistantBlocks(s, blocks, []);
      && (o.ok <==> forall b :: b in blocks ==> Speakable(b))
      && (o.ok ==> o.state == s && o.events == Spoken(blocks))
  {
    AssistantTracked(s, blocks, 0);
    assert blocks[0..] == blocks && Spoken(blocks[..0]) == [];
  }

  lemma ReturnedHere(s: State, t: seq<Line>, rejected: set<string>, blocks: seq<Block>)
    requires Marks(s, t, [])
    ensures var o := UserBlocks(s, rejected, blocks, []);
      && (o.ok <==> AcceptableFrom(t, rejected, blocks, 0))
      && (o.ok ==> Marks(o.state, t + [User(rejected, Some(blocks))], []) && o.events == Results(t, blocks)
                   && o.state == s.(noted := o.state.noted, rejected := o.state.rejected))
  {
    assert blocks[0..] == blocks && blocks[..0] == [] && Results(t, blocks[..0]) == [];
    UserTracked(s, t, rejected, blocks, 0);
    var l := User(rejected, Some(blocks));
    Since(t, l);
    forall id ensures Returned(t + [l], [], id) <==> Returned(t, blocks, id) {
    }
  }

  function LinesOf(lines: seq<Input>): seq<Line> {
    seq(|lines|, i requires 0 <= i < |lines| => lines[i].line)
  }

  /** The number of lines before the first that is not proper after those before it. */
  ghost function Sound(lines: seq<Input>): (k: nat)
    ensures k <= |lines|
  {
    if lines == [] then 0
    else
      var front, l := lines[..|lines| - 1], lines[|lines| - 1];
      var k := Sound(front);
      if k == |front| && Proper(LinesOf(front), l) then |lines| else k
  }

  /** Lines in order give exactly what they say. */
  lemma {:induction false} StreamTells(lines: seq<Input>)
    requires Sound(lines) == |lines|
    ensures var r, t := ParseAll(lines), LinesOf(lines); Tracks(r.state, t) && r.events == Told(t)
  {
    hide Parse, Proper, Tracks, Says, Told, LinesOf;
    if lines == [] {
      NothingSaid(lines);
    } else {
      var n := |lines| - 1;
      StreamTells(lines[..n]);
      LineTracked(ParseAll(lines[..n]).state, LinesOf(lines[..n]), lines[n]);
      ToldNext(lines, n);
    }
  }

  lemma NothingSaid(lines: seq<Input>)
    requires lines == []
    ensures Tracks(FRESH, LinesOf(lines)) && Told(LinesOf(lines)) == []
  {
    assert !Ended([]) && forall id :: !Returned([], [], id);
  }

  lemma ToldNext(lines: seq<Input>, n: nat)
    requires n == |lines| - 1
    ensures var t, l := LinesOf(lines[..n]), lines[n].line;
      LinesOf(lines) == t + [l] && Told(LinesOf(lines)) == Told(t) + Says(t, l)
  {
    hide Says;
    assert LinesOf(lines)[..n] == LinesOf(lines[..n]);
  }

  // ---------- the end of a session ----------

  /** The event at which handling fails, whether it is out by then (only a tool result
      can be), and whether the failure is a bypass of the approval gate. */
  datatype Fault = Fault(at: nat, written: bool, bypass: bool)

  /** What happens around the adapter: a failure to handle an event, to read the
      stream or elsewhere, the agent's exit, and whether a stop came in time. */
  datatype World = World(fault: Option<Fault>, readFailed: bool, otherFailed: bool, exitFailed: bool, stopped: bool)

  /** The failure was a bypass of the gate, after the result it is about. */
  predicate Bypassed(w: World, sent: seq<Event>) {
    && w.fault.Some? && w.fault.value.bypass && w.fault.value.written
    && w.fault.value.at < |sent| && sent[w.fault.value.at].Result?
  }

  /** The one done: the agent's own or a missing result, overruled by a failed exit
      and, above all, by a stop. */
  function FinalDone(s: State, w: World, pending: Option<Event>): Event
    requires pending.Some? ==> pending.value.Done?
  {
    var own := if pending.Some? then pending.value else Done(Error, "(no result)");
    var status := if w.stopped then Stopped else if w.exitFailed then Error else own.status;
    Done(if s.apiError != "" && status == Ok then Error else status, WithApiError(own.result, s.apiError))
  }

  /** After a failure a done follows only a ready; else a missing ready comes first. */
  function Closing(s: State, w: World, pending: Option<Event>, failed: bool, bypass: bool, ready: bool): seq<Event>
    requires pending.Some? ==> pending.value.Done?
  {
    if failed then (if ready then [Done(if w.stopped && !bypass then Stopped else Error, "(adapter error)")] else [])
    else (if s.sawInit then [] else [Ready]) + [FinalDone(s, w, pending)]
  }

  /** Whatever was sent before, the whole is accepted: nothing at all, or ready
      first and one done, last. */
  lemma ClosingIsAccepted(s: State, w: World, pending: Option<Event>, failed: bool, bypass: bool, sent: seq<Event>)
    requires pending.Some? ==> pending.value.Done?
    requires AcceptAll(sent) == Some(Seen(sent != [], false)) && (!failed ==> s.sawInit == (sent != []))
    ensures
      var all := sent + Closing(s, w, pending, failed, bypass, sent != []);
      && AcceptAll(all) == Some(Seen(all != [], all != []))
      && (all != [] ==> all[|all| - 1].Done?)
  {
    hide AcceptAll, FinalDone;
    var end := Closing(s, w, pending, failed, bypass, sent != []);
    if |end| == 0 {
      assert sent + end == sent;
    } else if |end| == 1 {
      FinalIsDone(s, w, pending);
      AcceptSnoc(sent, end[0]);
      assert sent + end == sent + [end[0]];
    } else {
      FinalIsDone(s, w, pending);
      AcceptSnoc(sent, end[0]);
      AcceptSnoc(sent + [end[0]], end[1]);
      assert sent + end == sent + [end[0]] + [end[1]];
    }
  }

  lemma FinalIsDone(s: State, w: World, pending: Option<Event>)
    requires pending.Some? ==> pending.value.Done?
    ensures FinalDone(s, w, pending).Done?
  {
  }

  /** All but a done at the end. */
  function Undone(es: seq<Event>): seq<Event> {
    if es != [] && es[|es| - 1].Done? then es[..|es| - 1] else es
  }

  /** What the lines in order say, before the end. */
  ghost function Voiced(lines: seq<Input>): seq<Event> {
    Undone(Told(LinesOf(lines[..Sound(lines)])))
  }

  predicate Hit(w: World, out: seq<Event>) {
    w.fault.Some? && w.fault.value.at < |out|
  }

  /** The events before the one that fails, and that one if it is a tool result and
      was out. */
  function Written(w: World, out: seq<Event>): seq<Event> {
    if Hit(w, out) then
      var at := w.fault.value.at;
      out[..at] + if w.fault.value.written && out[at].Result? then [out[at]] else []
    else out
  }

  /** The last event of a session in which nothing failed. */
  ghost function Last(w: World, t: seq<Line>): Event {
    var es := Told(t);
    var ended := es != [] && es[|es| - 1].Done?;
    var status := if w.stopped then Stopped else if w.exitFailed || !ended then Error else es[|es| - 1].status;
    Done(status, if ended then es[|es| - 1].result else WithApiError("(no result)", ApiError(t)))
  }

  /** Exactly what a session sends, and when it fails. */
  ghost predicate Output(lines: seq<Input>, w: World, sent: seq<Event>, failed: bool) {
    var out := Voiced(lines);
    var before := Written(w, out);
    && (failed <==> Hit(w, out) || Sound(lines) < |lines| || w.readFailed || w.otherFailed)
    && sent == before
         + if failed then
             (if before == [] then []
              else [Done(if w.stopped && !Bypassed(w, before) then Stopped else Error, "(adapter error)")])
           else (if before == [] then [Ready] else []) + [Last(w, LinesOf(lines))]
  }

  lemma {:induction false} SoundUpto(lines: seq<Input>, n: nat)
    requires n <= |lines|
    ensures Sound(lines[..n]) == if n <= Sound(lines) then n else Sound(lines)
  {
    hide Proper, LinesOf;
    if n < |lines| {
      var front := lines[..|lines| - 1];
      SoundUpto(front, n);
      assert front[..n] == lines[..n];
    } else {
      assert lines[..n] == lines;
    }
  }

  /** Lines in order end with a done exactly if one of them is a result. */
  lemma DoneIsEnd(lines: seq<Input>)
    requires Sound(lines) == |lines|
    ensures var t := LinesOf(lines); var es := Told(t);
      && (forall i :: 0 <= i < |es| - 1 ==> !es[i].Done?)
      && (Ended(t) <==> es != [] && es[|es| - 1].Done?)
      && (Init in t <==> es != [])
  {
    StreamTells(lines);
    ParseAllFits(lines);
    hide AcceptAll, ParseAll, Told, LinesOf, Ended;
    AcceptedStreams(Told(LinesOf(lines)));
  }

  lemma {:induction false} ToldGrows(t: seq<Line>, n: nat)
    requires n <= |t|
    ensures Told(t[..n]) <= Told(t)
  {
    if n < |t| {
      ToldGrows(t[..|t| - 1], n);
      assert t[..|t| - 1][..n] == t[..n];
    } else {
      assert t[..n] == t;
    }
  }

  lemma UndonePrefix(a: seq<Event>, b: seq<Event>)
    requires a <= b && forall e :: e in a ==> !e.Done?
    ensures a <= Undone(b)
  {
    if a == b && b != [] {
      assert b[|b| - 1] in a;
    }
  }

  lemma NextIsProper(lines: seq<Input>, n: nat)
    requires n < Sound(lines)
    ensures Proper(LinesOf(lines[..n]), lines[n]) && !Ended(LinesOf(lines[..n]))
  {
    hide LinesOf, Ended;
    SoundUpto(lines, n);
    SoundUpto(lines, n + 1);
    assert lines[..n + 1][..n] == lines[..n];
  }

  lemma VoicedGrows(lines: seq<Input>, n: nat)
    requires n <= Sound(lines)
    ensures Undone(Told(LinesOf(lines[..n]))) <= Voiced(lines)
  {
    hide Told, LinesOf, Sound, Ended, Proper;
    var k := Sound(lines);
    if n < k {
      var t := LinesOf(lines[..k]);
      LinesUpto(lines, n, k);
      ToldGrows(t, n);
      NextIsProper(lines, n);
      SoundUpto(lines, n);
      DoneIsEnd(lines[..n]);
      NoDone(Told(t[..n]));
      UndonePrefix(Told(t[..n]), Told(t));
    }
  }

  lemma LinesUpto(lines: seq<Input>, n: nat, k: nat)
    requires n <= k <= |lines|
    ensures |LinesOf(lines[..k])| == k && LinesOf(lines[..k])[..n] == LinesOf(lines[..n])
    ensures n < k ==> LinesOf(lines[..n + 1]) == LinesOf(lines[..n]) + [lines[n].line]
  {
  }

  lemma NoDone(es: seq<Event>)
    requires forall i :: 0 <= i < |es| - 1 ==> !es[i].Done?
    requires es == [] || !es[|es| - 1].Done?
    ensures Undone(es) == es && forall e :: e in es ==> !e.Done?
  {
  }

  // ---------- the code ----------

  class Parser {
    var sawInit: bool
    var done: bool
    var rejectedEmitted: set<string>
    var toolResults: set<string>
    var apiErrorText: string

    function Value(): State
      reads this
    {
      State(sawInit, done, rejectedEmitted, toolResults, apiErrorText)
    }

    constructor ()
      ensures Value() == FRESH
    {
      sawInit, done, rejectedEmitted, toolResults, apiErrorText := false, false, {}, {}, "";
    }

    method NoteToolResult(id: string) returns (ok: bool)
      modifies `toolResults
      ensures ok <==> id !in old(toolResults)
      ensures toolResults == old(toolResults) + {id}
    {
      if id in toolResults {
        assert toolResults == toolResults + {id};
        return false;
      }
      toolResults := toolResults + {id};
      return true;
    }

    method ParseLine(unfit: bool, line: Line) returns (events: seq<Event>, ok: bool)
      modifies this
      ensures Out(Value(), events, ok) == Parse(old(Value()), unfit, line)
    {
      hide AssistantBlocks, UserBlocks, ParseResult;
      if unfit || done || line == Unreadable {
        return [], false;
      }
      if line == Ignored {
        return [], true;
      }
      if !sawInit && !line.Init? {
        return [], false;
      }
      match line
      case Init =>
        if sawInit {
          return [], false;
        }
        sawInit := true;
        return [Ready], true;
      case Denied(id) =>
        if id == "" {
          return [], false;
        }
        var first := NoteToolResult(id);
        if !first {
          assert toolResults == old(toolResults);
          return [], false;
        }
        rejectedEmitted := rejectedEmitted + {id};
        return [Result(id)], true;
      case Assistant(Some(error), _) =>
        apiErrorText := error;
        return [Usage(0, 0)], true;
      case Assistant(None, Some(blocks)) =>
        events, ok := TakeAssistant(blocks);
      case User(rejected, Some(blocks)) =>
        events, ok := TakeUser(rejected, blocks);
      case ResultLine(usage, status, text) =>
        events, ok := TakeResult(usage, status, text);
      case _ => return [], false;
    }

    method TakeAssistant(blocks: seq<Block>) returns (events: seq<Event>, ok: bool)
      modifies this
      ensures Out(Value(), events, ok) == AssistantBlocks(old(Value()).(apiError := ""), blocks, [])
    {
      apiErrorText := "";
      events := [];
      ghost var whole := AssistantBlocks(Value(), blocks, []);
      for i := 0 to |blocks|
        invariant whole == AssistantBlocks(Value(), blocks[i..], events)
        invariant Value() == old(Value()).(apiError := "")
      {
        assert blocks[i..][1..] == blocks[i + 1..];
        match blocks[i]
        case Text(text) => events := events + [Message(text)];
        case ToolUse(id, name) =>
          if id == "" || name == "" {
            return [], false;
          }
          events := events + [Call(id)];
        case Thinking =>
        case _ => return [], false;
      }
      return events, true;
    }

    method TakeUser(rejected: set<string>, blocks: seq<Block>) returns (events: seq<Event>, ok: bool)
      modifies this
      ensures Out(Value(), events, ok) == UserBlocks(old(Value()), rejected, blocks, [])
    {
      events := [];
      ghost var whole := UserBlocks(Value(), rejected, blocks, []);
      for i := 0 to |blocks|
        invariant whole == UserBlocks(Value(), rejected, blocks[i..], events)
      {
        assert blocks[i..][1..] == blocks[i + 1..];
        match blocks[i]
        case ToolResult(id) =>
          if id == "" {
            return [], false;
          }
          if id in rejectedEmitted {
            if id !in rejected {
              return [], false;
            }
            rejectedEmitted := rejectedEmitted - {id};
          } else {
            ghost var before := toolResults;
            var first := NoteToolResult(id);
            if !first {
              assert toolResults == before;
              return [], false;
            }
            events := events + [Result(id)];
          }
        case Text(_) =>
        case _ => return [], false;
      }
      return events, true;
    }

    method TakeResult(usage: Option<Option<(int, int)>>, status: Status, text: string) returns (events: seq<Event>, ok: bool)
      modifies this
      ensures Out(Value(), events, ok) == ParseResult(old(Value()), usage, status, text)
    {
      if rejectedEmitted != {} {
        return [], false;
      }
      events := [];
      if usage.Some? {
        if usage.value.None? {
          return [], false;
        }
        events := [Usage(usage.value.value.0, usage.value.value.1)];
      }
      var end := Ending(Value(), status, text);
      apiErrorText := "";
      done := true;
      return events + [end], true;
    }
  }

  function Held(pending: Option<Event>): seq<Event> {
    if pending.Some? then [pending.value] else []
  }

  /** The events of one line go out, all but a done. */
  method Emit(events: seq<Event>, w: World, host: Callback, before: seq<Event>)
    returns (sent: seq<Event>, pending: Option<Event>, broken: bool, bypass: bool, refused: bool)
    requires !Bypassed(w, before)
    requires AcceptAll(before) == Some(Seen(host.sawReady, host.done)) && !host.done
    requires AcceptAll(before + events).Some?
    requires forall j :: 0 <= j < |events| - 1 ==> !events[j].Done?
    requires !Hit(w, before)
    modifies host
    ensures broken <==> Hit(w, before + Undone(events))
    ensures sent == Written(w, before + Undone(events))
    ensures !refused && AcceptAll(sent) == Some(Seen(host.sawReady, host.done)) && !host.done
    ensures sent <= before + events && (pending.Some? ==> pending.value.Done?)
    ensures !broken ==> before + events == sent + Held(pending)
    ensures (bypass <==> Bypassed(w, sent)) && (bypass ==> broken)
  {
    hide AcceptAll;
    sent, pending, broken, bypass, refused := before, None, false, false, false;
    var j := 0;
    while j < |events|
      invariant j <= |events| && sent == before + events[..j] && pending.None? && !broken && !bypass && !refused
      invariant !Bypassed(w, sent) && !Hit(w, sent) && forall i :: 0 <= i < j ==> !events[i].Done?
      invariant AcceptAll(sent) == Some(Seen(host.sawReady, host.done)) && !host.done
    {
      var e := events[j];
      assert sent + [e] == before + events[..j + 1];
      if e.Done? {
        pending := Some(e);
        assert events[..j + 1] == events;
        return;
      }
      var fails := w.fault.Some? && w.fault.value.at == |sent|;
      ghost var out := before + Undone(events);
      assert sent == out[..|sent|] && out[|sent|] == e;
      if fails && !(w.fault.value.written && e.Result?) {
        broken := true;
        return;
      }
      AcceptSnoc(sent, e);
      AcceptPrefix(before + events, |before| + j + 1);
      assert (before + events)[..|before| + j + 1] == sent + [e];
      var ok := host.OnEvent(e, true, true);
      refused := !ok;
      sent := sent + [e];
      if fails {
        broken, bypass := true, w.fault.value.bypass;
        return;
      }
      j := j + 1;
    }
    assert events[..j] == events;
  }

  /** What was sent of the lines so far. */
  ghost predicate Going(lines: seq<Input>, i: nat, s: State, sent: seq<Event>, pending: Option<Event>, broken: bool, host: Seen)
    requires i <= |lines|
  {
    var r := ParseAll(lines[..i]);
    && AcceptAll(sent) == Some(host) && !host.done && sent <= r.events
    && (pending.Some? ==> pending.value.Done?)
    && (!broken ==> Run(s, sent + Held(pending)) == r)
  }

  lemma Begins(lines: seq<Input>)
    ensures Going(lines, 0, FRESH, [], None, false, Seen(false, false))
  {
    assert lines[..0] == [];
  }

  /** A line that is taken finds nothing held back; its done, if any, comes last. */
  lemma GoesOn(lines: seq<Input>, i: nat, s: State, sent: seq<Event>, pending: Option<Event>, host: Seen)
    requires i < |lines| && Going(lines, i, s, sent, pending, false, host)
    ensures
      var o := Parse(s, lines[i].unfit, lines[i].line);
      && ParseAll(lines[..i + 1]) == Run(o.state, sent + Held(pending) + o.events)
      && (!o.ok ==> o.events == [])
      && (o.ok ==> pending.None? && Held(pending) == [] && AcceptAll(sent + o.events).Some?)
      && forall j :: 0 <= j < |o.events| - 1 ==> !o.events[j].Done?
  {
    hide AcceptAll, Parse, OneResult, Noted;
    assert lines[..i + 1][..i] == lines[..i];
    var o, all := Parse(s, lines[i].unfit, lines[i].line), sent + Held(pending);
    ParseAllFits(lines[..i]);
    ParseAllFits(lines[..i + 1]);
    ErrorIsSilent(s, lines[i].unfit, lines[i].line);
    OnlyLastIsDone(all, o.events);
    if pending.Some? {
      OnlyLastIsDone(sent, [pending.value]);
    } else {
      assert all == sent;
    }
  }

  lemma OnlyLastIsDone(before: seq<Event>, es: seq<Event>)
    requires AcceptAll(before + es).Some?
    ensures forall j :: 0 <= j < |es| - 1 ==> !es[j].Done?
    ensures es != [] && es[|es| - 1].Done? ==> AcceptAll(before + es).value.done
  {
    AcceptedStreams(before + es);
    hide AcceptAll;
    forall j | 0 <= j < |es| ensures es[j] == (before + es)[|before| + j] {
    }
  }

  lemma ErrorIsSilent(s: State, unfit: bool, line: Line)
    ensures var o := Parse(s, unfit, line); (!o.ok ==> o.events == []) && (o.ok ==> !s.done)
  {
    match line
    case Assistant(None, Some(blocks)) => AssistantSilent(s.(apiError := ""), blocks, []);
    case User(rejected, Some(blocks)) => UserSilent(s, rejected, blocks, []);
    case _ =>
  }

  lemma {:induction false} AssistantSilent(s: State, blocks: seq<Block>, soFar: seq<Event>)
    ensures var o := AssistantBlocks(s, blocks, soFar); !o.ok ==> o.events == []
    decreases blocks
  {
    if blocks != [] {
      var b := blocks[0];
      AssistantSilent(s, blocks[1..], soFar);
      if b.Text? {
        AssistantSilent(s, blocks[1..], soFar + [Message(b.text)]);
      } else if b.ToolUse? {
        AssistantSilent(s, blocks[1..], soFar + [Call(b.id)]);
      }
    }
  }

  lemma {:induction false} UserSilent(s: State, rejected: set<string>, blocks: seq<Block>, soFar: seq<Event>)
    ensures var o := UserBlocks(s, rejected, blocks, soFar); !o.ok ==> o.events == []
    decreases blocks
  {
    if blocks != [] {
      var b := blocks[0];
      UserSilent(s, rejected, blocks[1..], soFar);
      if b.ToolResult? {
        UserSilent(s.(rejected := s.rejected - {b.id}), rejected, blocks[1..], soFar);
        UserSilent(s.(noted := s.noted + {b.id}), rejected, blocks[1..], soFar + [Result(b.id)]);
      }
    }
  }

  /** What the end may depend on: all lines went through and nothing else failed, or
      there was a failure. */
  lemma Ends(lines: seq<Input>, i: nat, s: State, sent: seq<Event>, pending: Option<Event>, broken: bool, host: Seen, failed: bool)
    requires i <= |lines| && (!failed ==> i == |lines|) && (broken ==> failed)
    requires Going(lines, i, s, sent, pending, broken, host)
    ensures host == Seen(sent != [], false) && OneResult(sent)
    ensures !failed ==> (s.sawInit <==> sent != []) && sent <= ParseAll(lines).events
    ensures !failed && pending.Some? ==> ParseAll(lines).state.done
  {
    hide AcceptAll, Parse;
    assert i == |lines| ==> lines[..i] == lines;
    ParseAllFits(lines[..i]);
    AcceptedStreams(sent);
    AcceptedStreams(ParseAll(lines[..i]).events);
    if !failed && pending.Some? {
      assert (sent + Held(pending))[|sent|] == pending.value;
    }
  }

  /** What the host can rely on: it sees nothing at all, and then the adapter fails, or
      ready first and one done, last; no call gets two results. A stop in time decides
      the done over everything but a bypass of the gate, and a good done means that
      nothing failed. */
  ghost predicate Session(lines: seq<Input>, w: World, sent: seq<Event>, failed: bool) {
    && AcceptAll(sent) == Some(Seen(sent != [], sent != []))
    && OneResult(sent)
    && (sent == [] ==> failed)
    && (sent != [] ==> EndsWell(lines, w, sent[|sent| - 1], failed, Bypassed(w, sent)))
    && (!failed ==>
          && !w.readFailed && !w.otherFailed && sent != []
          && (sent[..|sent| - 1] <= ParseAll(lines).events || sent[..|sent| - 1] == [Ready]))
  }

  ghost predicate EndsWell(lines: seq<Input>, w: World, last: Event, failed: bool, bypass: bool) {
    && last.Done?
    && (w.stopped ==> last.status == if bypass then Error else Stopped)
    && (last.status == Ok ==> !failed && !w.stopped && !w.exitFailed && ParseAll(lines).state.done)
  }

  lemma ClosingAddsNoResult(s: State, w: World, pending: Option<Event>, failed: bool, bypass: bool, sent: seq<Event>)
    requires (pending.Some? ==> pending.value.Done?) && OneResult(sent)
    ensures OneResult(sent + Closing(s, w, pending, failed, bypass, sent != []))
    ensures Bypassed(w, sent + Closing(s, w, pending, failed, bypass, sent != [])) <==> Bypassed(w, sent)
  {
    FinalIsDone(s, w, pending);
  }

  lemma ClosingStatus(lines: seq<Input>, s: State, w: World, pending: Option<Event>, failed: bool, bypass: bool, ready: bool)
    requires pending.Some? ==> pending.value.Done?
    requires (!failed && pending.Some? ==> ParseAll(lines).state.done) && (bypass ==> failed)
    ensures
      var end := Closing(s, w, pending, failed, bypass, ready);
      && (!failed ==> end != [] && end[..|end| - 1] == if s.sawInit then [] else [Ready])
      && (end == [] ==> failed && !ready)
      && (end != [] ==> EndsWell(lines, w, end[|end| - 1], failed, bypass))
  {
    hide ParseAll;
  }

  lemma Concludes(lines: seq<Input>, i: nat, s: State, sent: seq<Event>, pending: Option<Event>, broken: bool, w: World, failed: bool, bypass: bool)
    requires i <= |lines| && (!broken ==> i == |lines|) && failed == (broken || w.readFailed || w.otherFailed)
    requires Going(lines, i, s, sent, pending, broken, Seen(sent != [], false))
    requires (bypass <==> Bypassed(w, sent)) && (bypass ==> broken)
    ensures Session(lines, w, sent + Closing(s, w, pending, failed, bypass, sent != []), failed)
  {
    Ends(lines, i, s, sent, pending, broken, Seen(sent != [], false), failed);
    assert (pending.Some? ==> pending.value.Done?) && AcceptAll(sent) == Some(Seen(sent != [], false));
    hide AcceptAll, ParseAll, OneResult, Closing, EndsWell, Going, Bypassed, Session;
    ClosingIsAccepted(s, w, pending, failed, bypass, sent);
    ClosingAddsNoResult(s, w, pending, failed, bypass, sent);
    ClosingStatus(lines, s, w, pending, failed, bypass, sent != []);
    Appended(lines, w, sent, Closing(s, w, pending, failed, bypass, sent != []), failed, s.sawInit);
  }

  lemma Appended(lines: seq<Input>, w: World, sent: seq<Event>, end: seq<Event>, failed: bool, ready: bool)
    requires AcceptAll(sent + end) == Some(Seen(sent + end != [], sent + end != []))
    requires OneResult(sent + end) && (end == [] ==> failed && sent == [])
    requires end != [] ==> EndsWell(lines, w, end[|end| - 1], failed, Bypassed(w, sent + end))
    requires !failed ==>
      && !w.readFailed && !w.otherFailed && (ready <==> sent != []) && sent <= ParseAll(lines).events
      && end != [] && end[..|end| - 1] == if ready then [] else [Ready]
    ensures Session(lines, w, sent + end, failed)
  {
    hide AcceptAll, ParseAll, OneResult, EndsWell, Bypassed;
    var all := sent + end;
    if end != [] {
      assert all[|all| - 1] == end[|end| - 1];
      assert all[..|all| - 1] == sent + end[..|end| - 1];
      assert sent + [] == sent;
    }
  }

  /** What was sent of the lines in order so far, and what the parser has noted. */
  ghost predicate Telling(lines: seq<Input>, n: nat, s: State, sent: seq<Event>, pending: Option<Event>, w: World)
    requires n <= |lines|
  {
    var t := LinesOf(lines[..n]);
    && Sound(lines[..n]) == n && Tracks(s, t) && Told(t) == sent + Held(pending)
    && (pending.Some? <==> Ended(t)) && (pending.Some? ==> pending.value.Done?)
    && !Hit(w, sent) && Undone(Told(t)) == sent
  }

  lemma TellingStarts(lines: seq<Input>, w: World)
    ensures Telling(lines, 0, FRESH, [], None, w)
  {
    assert lines[..0] == [];
    StreamTells([]);
    DoneIsEnd([]);
  }

  /** The next line is in error exactly if the lines in order end here. */
  lemma TellsNext(lines: seq<Input>, n: nat, s: State, sent: seq<Event>, pending: Option<Event>, w: World)
    requires n < |lines| && Telling(lines, n, s, sent, pending, w)
    ensures
      var o := Parse(s, lines[n].unfit, lines[n].line);
      && (o.ok <==> n < Sound(lines))
      && (!o.ok ==> Sound(lines) == n && Voiced(lines) == sent)
      && (o.ok ==>
            && pending.None? && Sound(lines[..n + 1]) == n + 1
            && Tracks(o.state, LinesOf(lines[..n + 1])) && Told(LinesOf(lines[..n + 1])) == sent + o.events
            && sent + Undone(o.events) <= Voiced(lines))
  {
    hide Parse, Tracks, Ended, LinesOf, Told, Says, Proper, Sound;
    var t, l := LinesOf(lines[..n]), lines[n];
    LinesUpto(lines, n, n + 1);
    LineTracked(s, t, l);
    SoundNext(lines, n);
    if Proper(t, l) {
      VoicedGrows(lines, n + 1);
      ToldSnoc(t, l.line);
      NextIsProper(lines, n);
      assert Held(pending) == [] && sent + [] == sent;
      DoneIsEnd(lines[..n]);
      NoDone(sent);
      UndoneTail(sent, Says(t, l.line));
    }
  }

  lemma NoBypass(w: World)
    ensures !Bypassed(w, [])
  {
  }

  lemma StillUnhit(lines: seq<Input>, n: nat, s: State, sent: seq<Event>, pending: Option<Event>, w: World)
    requires n <= |lines| && Telling(lines, n, s, sent, pending, w)
    ensures !Hit(w, sent) && Written(w, sent) == sent
  {
  }

  lemma StopsGoing(lines: seq<Input>, n: nat, s: State, sent: seq<Event>, pending: Option<Event>, host: Seen)
    requires n < |lines| && Going(lines, n, s, sent, pending, false, host)
    requires ParseAll(lines[..n + 1]).events == sent + Held(pending)
    ensures Going(lines, n + 1, Parse(s, lines[n].unfit, lines[n].line).state, sent, pending, true, host)
  {
  }

  lemma KeepsGoing(lines: seq<Input>, n: nat, s: State, sent: seq<Event>, pending: Option<Event>, host: Seen)
    requires n < |lines| && Going(lines, n, s, sent, pending, false, host)
    ensures AcceptAll(sent) == Some(host) && !host.done
  {
  }

  /** After the events of a proper line. */
  lemma GoesFurther(lines: seq<Input>, n: nat, s: State, before: seq<Event>, held: Option<Event>, s': State,
                    events: seq<Event>, sent: seq<Event>, pending: Option<Event>, broken: bool, host: Seen)
    requires n < |lines| && held.None? && ParseAll(lines[..n + 1]) == Run(s', before + events)
    requires AcceptAll(sent) == Some(host) && !host.done && sent <= before + events && (pending.Some? ==> pending.value.Done?)
    requires !broken ==> before + events == sent + Held(pending)
    ensures Going(lines, n + 1, s', sent, pending, broken, host)
  {
  }

  lemma WrittenPrefix(w: World, a: seq<Event>, b: seq<Event>)
    requires a <= b && Hit(w, a)
    ensures Hit(w, b) && Written(w, a) == Written(w, b)
  {
    assert a[..w.fault.value.at] == b[..w.fault.value.at];
  }

  lemma TellsFurther(lines: seq<Input>, n: nat, s: State, before: seq<Event>, held: Option<Event>, s': State,
                     events: seq<Event>, sent: seq<Event>, pending: Option<Event>, w: World)
    requires n < |lines| && Telling(lines, n, s, before, held, w) && held.None?
    requires Sound(lines[..n + 1]) == n + 1 && Tracks(s', LinesOf(lines[..n + 1]))
    requires Told(LinesOf(lines[..n + 1])) == before + events == sent + Held(pending)
    requires !Hit(w, before + Undone(events)) && sent == Written(w, before + Undone(events))
    requires pending.Some? ==> pending.value.Done?
    ensures Telling(lines, n + 1, s', sent, pending, w)
  {
    hide Tracks, Ended, LinesOf, Told, Sound;
    assert Held(held) == [] && before + [] == before;
    DoneIsEnd(lines[..n]);
    DoneIsEnd(lines[..n + 1]);
    UndoneTail(before, events);
  }

  lemma ToldAll(lines: seq<Input>, s: State, sent: seq<Event>, pending: Option<Event>, w: World)
    requires Telling(lines, |lines|, s, sent, pending, w)
    ensures Sound(lines) == |lines| && Voiced(lines) == sent && Written(w, sent) == sent && !Hit(w, sent)
  {
    assert lines[..|lines|] == lines;
  }

  /** The end of a session whose events are those of Written. */
  lemma Outputs(lines: seq<Input>, s: State, sent: seq<Event>, pending: Option<Event>, broken: bool, w: World, failed: bool, bypass: bool)
    requires sent == Written(w, Voiced(lines)) && (broken <==> Hit(w, Voiced(lines)) || Sound(lines) < |lines|)
    requires !broken ==> Telling(lines, |lines|, s, sent, pending, w)
    requires failed == (broken || w.readFailed || w.otherFailed) && (bypass <==> Bypassed(w, sent))
    requires pending.Some? ==> pending.value.Done?
    ensures Output(lines, w, sent + Closing(s, w, pending, failed, bypass, sent != []), failed)
  {
    hide Voiced, Sound, Written, Bypassed, Told, Ended, LinesOf, Undone, ApiError, WithApiError;
    if !failed {
      assert lines[..|lines|] == lines;
      EndsSo(lines, s, sent, pending, w);
    }
  }

  lemma EndsSo(lines: seq<Input>, s: State, sent: seq<Event>, pending: Option<Event>, w: World)
    requires Telling(lines, |lines|, s, sent, pending, w)
    ensures (s.sawInit <==> sent != []) && FinalDone(s, w, pending) == Last(w, LinesOf(lines))
  {
    assert lines[..|lines|] == lines;
    hide Told, LinesOf, Ended, ApiError;
    DoneIsEnd(lines);
    WithNoError(if pending.Some? then pending.value.result else "");
    if pending.Some? && sent == [] {
      FirstIsReady(lines, pending.value);
    }
    hide WithApiError;
  }

  lemma WithNoError(text: string)
    ensures WithApiError(text, "") == text
  {
  }

  lemma FirstIsReady(lines: seq<Input>, e: Event)
    requires Sound(lines) == |lines| && Told(LinesOf(lines)) == [e]
    ensures e == Ready
  {
    StreamTells(lines);
    ParseAllFits(lines);
    AcceptedStreams(Told(LinesOf(lines)));
  }

  lemma SoundNext(lines: seq<Input>, n: nat)
    requires n < |lines| && Sound(lines[..n]) == n
    ensures var more := Proper(LinesOf(lines[..n]), lines[n]);
      && (more <==> n < Sound(lines)) && (!more ==> Sound(lines) == n)
      && (more ==> Sound(lines[..n + 1]) == n + 1)
  {
    hide LinesOf, Proper;
    SoundUpto(lines, n);
    SoundUpto(lines, n + 1);
    assert lines[..n + 1][..n] == lines[..n];
  }

  lemma ToldSnoc(t: seq<Line>, l: Line)
    ensures Told(t + [l]) == Told(t) + Says(t, l)
  {
    hide Says;
    assert (t + [l])[..|t|] == t;
  }

  lemma UndoneTail(a: seq<Event>, b: seq<Event>)
    requires a == [] || !a[|a| - 1].Done?
    ensures Undone(a + b) == a + Undone(b)
  {
    if b == [] {
      assert a + b == a;
    }
  }

  /** One line, and its events. */
  method DrainLine(p: Parser, lines: seq<Input>, n: nat, w: World, host: Callback, before: seq<Event>, held: Option<Event>)
    returns (sent: seq<Event>, pending: Option<Event>, broken: bool, bypass: bool, refused: bool)
    requires n < |lines| && !Bypassed(w, before)
    requires Going(lines, n, p.Value(), before, held, false, Seen(host.sawReady, host.done))
    requires Telling(lines, n, p.Value(), before, held, w)
    modifies p, host
    ensures !refused && Going(lines, n + 1, p.Value(), sent, pending, broken, Seen(host.sawReady, host.done))
    ensures (bypass <==> Bypassed(w, sent)) && (bypass ==> broken)
    ensures broken ==> sent == Written(w, Voiced(lines)) && (Hit(w, Voiced(lines)) || Sound(lines) < |lines|)
    ensures !broken ==> Telling(lines, n + 1, p.Value(), sent, pending, w)
  {
    hide AcceptAll, ParseAll, Parse, Voiced, Sound, Going, Telling, Bypassed, Written, Undone, Hit, Tracks, Told, LinesOf;
    ghost var s := p.Value();
    GoesOn(lines, n, s, before, held, Seen(host.sawReady, host.done));
    TellsNext(lines, n, s, before, held, w);
    StillUnhit(lines, n, s, before, held, w);
    var events, ok := p.ParseLine(lines[n].unfit, lines[n].line);
    if !ok {
      StopsGoing(lines, n, s, before, held, Seen(host.sawReady, host.done));
      return before, held, true, false, false;
    }
    KeepsGoing(lines, n, s, before, held, Seen(host.sawReady, host.done));
    sent, pending, broken, bypass, refused := Emit(events, w, host, before);
    GoesFurther(lines, n, s, before, held, p.Value(), events, sent, pending, broken, Seen(host.sawReady, host.done));
    if broken {
      WrittenPrefix(w, before + Undone(events), Voiced(lines));
    } else {
      TellsFurther(lines, n, s, before, held, p.Value(), events, sent, pending, w);
    }
  }

  /** The lines, up to the first that is in error or cannot be handled. */
  method DrainLines(p: Parser, lines: seq<Input>, w: World, host: Callback)
    returns (sent: seq<Event>, pending: Option<Event>, broken: bool, bypass: bool, refused: bool, ghost i: nat)
    requires p.Value() == FRESH && !host.sawReady && !host.done
    modifies p, host
    ensures !refused && i <= |lines| && (!broken ==> i == |lines|)
    ensures Going(lines, i, p.Value(), sent, pending, broken, Seen(host.sawReady, host.done))
    ensures (bypass <==> Bypassed(w, sent)) && (bypass ==> broken)
    ensures sent == Written(w, Voiced(lines))
    ensures broken <==> Hit(w, Voiced(lines)) || Sound(lines) < |lines|
    ensures !broken ==> Telling(lines, |lines|, p.Value(), sent, pending, w)
  {
    hide Voiced, Sound, Going, Telling, Bypassed, Written, Hit;
    sent, pending, broken, bypass, refused, i := [], None, false, false, false, 0;
    var n := 0;
    Begins(lines);
    TellingStarts(lines, w);
    NoBypass(w);
    while n < |lines|
      invariant n <= |lines| && !refused && !broken && !bypass && !Bypassed(w, sent)
      invariant Going(lines, n, p.Value(), sent, pending, false, Seen(host.sawReady, host.done))
      invariant Telling(lines, n, p.Value(), sent, pending, w)
    {
      sent, pending, broken, bypass, refused := DrainLine(p, lines, n, w, host, sent, pending);
      n := n + 1;
      i := n;
      if broken {
        return;
      }
    }
    i := n;
    ToldAll(lines, p.Value(), sent, pending, w);
  }

  /** The session of one agent, with the host at the other end, who refuses nothing
      of what this thread sends; the requests of the approval server, which share the
      wire, are not among it. */
  method RunAdapter(lines: seq<Input>, w: World, host: Callback)
    returns (sent: seq<Event>, failed: bool, refused: bool)
    requires !host.sawReady && !host.done
    modifies host
    ensures !refused && Session(lines, w, sent, failed) && Output(lines, w, sent, failed)
    ensures host.sawReady == host.done == (sent != [])
  {
    hide AcceptAll, ParseAll, Parse, Session, Closing, Output, Voiced, Telling;
    var p := new Parser();
    var pending: Option<Event>;
    var broken, bypass: bool;
    ghost var i: nat;
    sent, pending, broken, bypass, refused, i := DrainLines(p, lines, w, host);
    failed := broken || w.readFailed || w.otherFailed;
    Ends(lines, i, p.Value(), sent, pending, broken, Seen(host.sawReady, host.done), failed);
    var end := Closing(p.Value(), w, pending, failed, bypass, host.sawReady);
    Concludes(lines, i, p.Value(), sent, pending, broken, w, failed, bypass);
    Outputs(lines, p.Value(), sent, pending, broken, w, failed, bypass);
    SessionAccepted(lines, w, sent + end, failed);
    var accepted := host.Drain(end, sent);
    refused := !accepted;
    sent := sent + end;
  }

  lemma SessionAccepted(lines: seq<Input>, w: World, sent: seq<Event>, failed: bool)
    requires Session(lines, w, sent, failed)
    ensures AcceptAll(sent) == Some(Seen(sent != [], sent != []))
  {
  }
}
