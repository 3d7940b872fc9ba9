/** The Codex stream parser, on lines whose JSON has been read. */
module CodexParser {
  import opened Wrappers
  import opened Pump

  datatype Body =
    | AgentMessage(text: string)
    | Command(status: string, exitCode: Option<int>)
    | FileChange(status: string, changes: bool)
    | OtherBody

  datatype Item = Item(id: string, body: Body)

  datatype Tokens = Tokens(input: Option<int>, output: Option<int>)

  datatype Line =
    | Unreadable
    | ThreadStarted(threadId: string)
    | TurnStarted
    | ItemLine(completed: bool, item: Option<Item>)
    | TurnCompleted(usage: Option<Tokens>)
    | OtherLine

  datatype ItemType = CommandType | FileType

  /** auto: the profile approves without asking. */
  datatype State = State(
    auto: bool, thread: bool, done: bool, failed: bool, lastMsg: string, pending: map<string, ItemType>)

  function Fresh(auto: bool): State {
    State(auto, false, false, false, "", map[])
  }

  /** The state after a line, its events, and whether it was taken without an error. */
  datatype Out = Out(state: State, events: seq<Event>, ok: bool)

  /** Only failures after ready are kept. */
  function Fail(s: State): Out {
    Out(s.(failed := s.failed || s.thread), [], false)
  }

  function StartItem(s: State, id: string, t: ItemType, status: string): Out {
    if status != "in_progress" then Fail(s)
    else if id in s.pending then Fail(s)
    else Out(s.(pending := s.pending[id := t]), [Call(id)], true)
  }

  /** fits: the item's closing state is one the parser accepts. */
  function EndItem(s: State, id: string, t: ItemType, fits: bool): Out {
    if id !in s.pending || s.pending[id] != t then Fail(s)
    else
      var rest := s.(pending := s.pending - {id});
      if !fits then Fail(rest) else Out(rest, [Result(id)], true)
  }

  predicate CommandFits(status: string, exitCode: Option<int>) {
    status == "failed" || (status == "completed" && exitCode == Some(0))
  }

  function ParseItem(s: State, completed: bool, item: Item): Out {
    if item.id == "" then Fail(s)
    else match item.body
      case AgentMessage(text) =>
        if !completed then Fail(s) else Out(s.(lastMsg := text), [Message(text)], true)
      case Command(status, exitCode) =>
        if !s.auto then Fail(s)
        else if completed then EndItem(s, item.id, CommandType, CommandFits(status, exitCode))
        else StartItem(s, item.id, CommandType, status)
      case FileChange(status, changes) =>
        if !s.auto || !changes then Fail(s)
        else if completed then EndItem(s, item.id, FileType, status == "completed")
        else StartItem(s, item.id, FileType, status)
      case OtherBody => Fail(s)
  }

  function ResultText(s: State): string {
    if s.lastMsg == "" then "(no result: turn.completed)" else s.lastMsg
  }

  function EndTurn(s: State, usage: Option<Tokens>): Out {
    var done := Done(Ok, ResultText(s));
    if s.pending != map[] then Fail(s)
    else match usage
      case None => Out(s.(done := true), [done], true)
      case Some(t) =>
        if t.input.None? || t.output.None? then Fail(s)
        else if t.input.value < 0 || t.output.value < 0 then Fail(s)
        else Out(s.(done := true), [Usage(t.input.value, t.output.value), done], true)
  }

  /** unfit: the line is empty or too long; that is checked first of all. */
  function Parse(s: State, unfit: bool, line: Line): Out {
    if unfit then Fail(s)
    else if s.done || s.failed then Out(s, [], false)
    else match line
      case Unreadable => Fail(s)
      case ThreadStarted(id) =>
        if s.thread || id == "" then Fail(s) else Out(s.(thread := true), [Ready], true)
      case TurnStarted => if s.thread then Out(s, [], true) else Fail(s)
      case ItemLine(completed, item) =>
        if !s.thread || item.None? then Fail(s) else ParseItem(s, completed, item.value)
      case TurnCompleted(usage) => if s.thread then EndTurn(s, usage) else Fail(s)
      case OtherLine => Fail(s)
  }

  function Finish(s: State): Out {
    if s.done then Out(s, [], true)
    else if !s.thread then Out(s, [], false)
    else
      var ended := s.(done := true);
      if s.failed then Out(ended, [Done(Error, "(no result: failure)")], false)
      else if s.pending != map[] then Out(ended, [Done(Stopped, "(no result: interrupted)")], true)
      else Out(ended, [Done(Error, "(no result: stream ended before turn.completed)")], false)
  }

  /** A line by its length: empty, or from 64 KiB on more than the adapter's scanner
      takes, or over 4 MiB and so more than the parser takes. */
  datatype Size = Empty | Short | Long | Huge

  datatype Input = Input(size: Size, line: Line) {
    predicate Unfit() {
      size.Empty? || size.Huge?
    }

    predicate Unscannable() {
      size.Long? || size.Huge?
    }
  }

  datatype Run = Run(state: State, events: seq<Event>)

  /** All lines, whether or not earlier ones were in error. */
  function ParseAll(auto: bool, lines: seq<Input>): Run {
    if lines == [] then Run(Fresh(auto), [])
    else
      var r, l := ParseAll(auto, lines[..|lines| - 1]), lines[|lines| - 1];
      var o := Parse(r.state, l.Unfit(), l.line);
      Run(o.state, r.events + o.events)
  }

  // ---------- what the stream says ----------

  /** The calls without a result so far, if calls and results alternate for each
      id and no turn ends well over an open one. */
  function Open(es: seq<Event>): Option<set<string>> {
    if es == [] then Some({})
    else match Open(es[..|es| - 1])
      case None => None
      case Some(open) =>
        match es[|es| - 1]
        case Call(id) => if id in open then None else Some(open + {id})
        case Result(id) => if id in open then Some(open - {id}) else None
        case Done(Ok, _) => if open == {} then Some(open) else None
        case _ => Some(open)
  }

  lemma OpenSnoc(es: seq<Event>, e: Event)
    requires Open(es).Some?
    ensures
      var open := Open(es).value;
      Open(es + [e]) ==
        match e
        case Call(id) => if id in open then None else Some(open + {id})
        case Result(id) => if id in open then Some(open - {id}) else None
        case Done(Ok, _) => if open == {} then Some(open) else None
        case _ => Some(open)
  {
    assert (es + [e])[..|es|] == es;
  }

  predicate Tool(e: Event) {
    e.Call? || e.Result?
  }

  ghost predicate Fits(s: State, es: seq<Event>) {
    && AcceptAll(es) == Some(Seen(s.thread, s.done))
    && Open(es).Some?
    && (s.thread && !s.failed ==> Open(es).value == s.pending.Keys)
    && (!s.thread ==> Open(es).value == {} && s.pending == map[] && !s.failed)
    && (!s.auto ==> forall e :: e in es ==> !Tool(e))
  }

  /** Two events at most per line. */
  lemma Extends(s: State, es: seq<Event>, e: Event, s': State)
    requires Fits(s, es) && !s.done && (s.thread || e.Ready?) && !(s.thread && e.Ready?)
    requires s'.thread && s'.done == e.Done? && s'.auto == s.auto && !s.failed && !s'.failed
    requires Tool(e) ==> s.auto
    requires match e
      case Call(id) => id !in s.pending && s'.pending.Keys == s.pending.Keys + {id}
      case Result(id) => id in s.pending && s'.pending.Keys == s.pending.Keys - {id}
      case Done(Ok, _) => s.pending == map[] && s'.pending == s.pending
      case _ => s'.pending == s.pending
    ensures Fits(s', es + [e])
  {
    hide AcceptAll, Open;
    AcceptSnoc(es, e);
    OpenSnoc(es, e);
  }

  lemma FailFits(s: State, t: State, es: seq<Event>)
    requires Fits(s, es) && s.thread && t == s.(pending := t.pending)
    ensures Fits(Fail(t).state, es + [])
  {
    hide AcceptAll, Open;
    assert es + [] == es;
  }

  lemma SameFits(s: State, es: seq<Event>)
    requires Fits(s, es)
    ensures Fits(s, es + []) && Fits(Fail(s).state, es + [])
  {
    hide AcceptAll, Open;
    assert es + [] == es;
  }

  lemma ItemFits(s: State, es: seq<Event>, completed: bool, item: Item)
    requires Fits(s, es) && s.thread && !s.done && !s.failed
    ensures var o := ParseItem(s, completed, item); Fits(o.state, es + o.events)
  {
    hide Fits;
    var o := ParseItem(s, completed, item);
    SameFits(s, es);
    if o.ok {
      hide CommandFits;
      Extends(s, es, o.events[0], o.state);
    } else {
      FailFits(s, s, es);
      FailFits(s, s.(pending := s.pending - {item.id}), es);
    }
  }

  lemma TurnFits(s: State, es: seq<Event>, usage: Option<Tokens>)
    requires Fits(s, es) && s.thread && !s.done && !s.failed
    ensures var o := EndTurn(s, usage); Fits(o.state, es + o.events)
  {
    hide Fits;
    var o := EndTurn(s, usage);
    SameFits(s, es);
    if o.ok && usage.None? {
      Extends(s, es, o.events[0], o.state);
    } else if o.ok {
      Extends(s, es, o.events[0], s);
      Extends(s, es + [o.events[0]], o.events[1], o.state);
      assert es + [o.events[0]] + [o.events[1]] == es + o.events;
    }
  }

  lemma ParseFits(s: State, es: seq<Event>, unfit: bool, line: Line)
    requires Fits(s, es)
    ensures var o := Parse(s, unfit, line); Fits(o.state, es + o.events)
  {
    hide Fits, ParseItem, EndTurn;
    SameFits(s, es);
    if !unfit && !s.done && !s.failed {
      match line
      case ThreadStarted(id) =>
        if !s.thread && id != "" {
          Extends(s, es, Ready, s.(thread := true));
        }
      case ItemLine(completed, item) =>
        if s.thread && item.Some? {
          ItemFits(s, es, completed, item.value);
        }
      case TurnCompleted(usage) =>
        if s.thread {
          TurnFits(s, es, usage);
        }
      case _ =>
    }
  }

  lemma {:induction false} ParseAllFits(auto: bool, lines: seq<Input>)
    ensures var r := ParseAll(auto, lines); Fits(r.state, r.events) && r.state.auto == auto
  {
    if lines != [] {
      var front, l := lines[..|lines| - 1], lines[|lines| - 1];
      ParseAllFits(auto, front);
      var r := ParseAll(auto, front);
      hide Fits;
      ParseFits(r.state, r.events, l.Unfit(), l.line);
      AutoStays(r.state, l.Unfit(), l.line);
    }
  }

  lemma AutoStays(s: State, unfit: bool, line: Line)
    ensures Parse(s, unfit, line).state.auto == s.auto
  {
  }

  lemma FinishFits(s: State, es: seq<Event>)
    requires Fits(s, es)
    ensures var o := Finish(s); AcceptAll(es + o.events) == Some(Seen(s.thread, s.thread)) && Open(es + o.events).Some?
    ensures !s.auto ==> forall e :: e in es + Finish(s).events ==> !Tool(e)
  {
    hide AcceptAll, Open;
    var o := Finish(s);
    if o.events == [] {
      assert es + o.events == es;
      if s.done {
        DoneIsReady(s, es);
      }
    } else {
      AcceptSnoc(es, o.events[0]);
      OpenSnoc(es, o.events[0]);
    }
  }

  lemma DoneIsReady(s: State, es: seq<Event>)
    requires AcceptAll(es) == Some(Seen(s.thread, s.done)) && s.done
    ensures s.thread
  {
    AcceptedStreams(es);
  }

  /** For every sequence of lines, in error or not, and the end of the stream: the
      events are accepted by the host, and end with done if ready was ever sent;
      calls and results alternate for each id and no turn ends well with an open
      call; without automatic approval there are neither calls nor results. */
  lemma StreamIsAccepted(auto: bool, lines: seq<Input>)
    ensures
      var r := ParseAll(auto, lines);
      var all := r.events + Finish(r.state).events;
      && AcceptAll(all) == Some(Seen(r.state.thread, r.state.thread))
      && Open(all).Some?
      && (!auto ==> forall e :: e in all ==> !Tool(e))
  {
    hide Finish, AcceptAll, Open, Fits;
    ParseAllFits(auto, lines);
    FinishFits(ParseAll(auto, lines).state, ParseAll(auto, lines).events);
  }

  // ---------- what the lines say ----------

  /** l starts the item id, as something of type ty. */
  predicate Starts(l: Line, id: string, ty: ItemType) {
    l.ItemLine? && !l.completed && l.item.Some? && l.item.value.id == id
    && match l.item.value.body
       case Command(_, _) => ty == CommandType
       case FileChange(_, _) => ty == FileType
       case _ => false
  }

  /** l completes the item id. */
  predicate Ends(l: Line, id: string) {
    && l.ItemLine? && l.completed && l.item.Some? && l.item.value.id == id
    && (l.item.value.body.Command? || l.item.value.body.FileChange?)
  }

  /** A line started the item and none since has completed it. */
  ghost predicate OpenAs(t: seq<Line>, id: string, ty: ItemType) {
    exists j :: 0 <= j < |t| && Starts(t[j], id, ty) && forall k :: j < k < |t| ==> !Ends(t[k], id)
  }

  predicate Ended(t: seq<Line>) {
    exists l :: l in t && l.TurnCompleted?
  }

  /** The agent's last words. */
  function LastText(t: seq<Line>): string {
    if t == [] then ""
    else
      match t[|t| - 1]
      case ItemLine(true, Some(Item(_, AgentMessage(text)))) => text
      case _ => LastText(t[..|t| - 1])
  }

  ghost predicate ItemProper(auto: bool, t: seq<Line>, completed: bool, item: Item) {
    match item.body
    case AgentMessage(_) => completed
    case Command(status, exitCode) =>
      && auto
      && if completed then
           OpenAs(t, item.id, CommandType) && (status == "failed" || (status == "completed" && exitCode == Some(0)))
         else status == "in_progress" && forall ty :: !OpenAs(t, item.id, ty)
    case FileChange(status, changes) =>
      && auto && changes
      && if completed then OpenAs(t, item.id, FileType) && status == "completed"
         else status == "in_progress" && forall ty :: !OpenAs(t, item.id, ty)
    case OtherBody => false
  }

  /** The line may follow the lines t: the thread starts first and once, items are
      well formed, start when closed and complete when open, and the turn is completed
      once, with nothing open. */
  ghost predicate Proper(auto: bool, t: seq<Line>, l: Input) {
    && (l.size.Short? || l.size.Long?) && !Ended(t)
    && match l.line
       case ThreadStarted(id) => t == [] && id != ""
       case TurnStarted => t != []
       case ItemLine(completed, Some(item)) => t != [] && item.id != "" && ItemProper(auto, t, completed, item)
       case TurnCompleted(None) => t != [] && forall id, ty :: !OpenAs(t, id, ty)
       case TurnCompleted(Some(Tokens(Some(i), Some(o)))) => t != [] && i >= 0 && o >= 0 && forall id, ty :: !OpenAs(t, id, ty)
       case _ => false
  }

  function ResultOf(t: seq<Line>): string {
    if LastText(t) == "" then "(no result: turn.completed)" else LastText(t)
  }

  /** What a proper line after the lines t says. */
  function Says(t: seq<Line>, l: Line): seq<Event> {
    match l
    case ThreadStarted(_) => [Ready]
    case ItemLine(_, Some(Item(_, AgentMessage(text)))) => [Message(text)]
    case ItemLine(false, Some(Item(id, _))) => [Call(id)]
    case ItemLine(true, Some(Item(id, _))) => [Result(id)]
    case TurnCompleted(Some(Tokens(Some(i), Some(o)))) => [Usage(i, o), Done(Ok, ResultOf(t))]
    case TurnCompleted(_) => [Done(Ok, ResultOf(t))]
    case _ => []
  }

  function Told(t: seq<Line>): seq<Event> {
    if t == [] then [] else Told(t[..|t| - 1]) + Says(t[..|t| - 1], t[|t| - 1])
  }

  /** The lines that were taken, and whether one after the first of them was not. */
  datatype History = History(taken: seq<Line>, broken: bool)

  ghost function Heard(h: History, auto: bool, l: Input): History {
    if !h.broken && Proper(auto, h.taken, l) then History(h.taken + [l.line], false)
    else History(h.taken, h.broken || h.taken != [])
  }

  ghost function Taken(auto: bool, lines: seq<Input>): History {
    if lines == [] then History([], false)
    else Heard(Taken(auto, lines[..|lines| - 1]), auto, lines[|lines| - 1])
  }

  ghost predicate Pends(s: State, id: string, ty: ItemType) {
    id in s.pending && s.pending[id] == ty
  }

  ghost predicate Tracks(s: State, h: History) {
    && (s.thread <==> h.taken != []) && (h.broken ==> h.taken != [])
    && (s.done <==> Ended(h.taken))
    && s.lastMsg == LastText(h.taken)
    && (s.failed ==> h.broken) && (h.broken && !s.done ==> s.failed)
    && (!s.failed ==> forall id, ty :: Pends(s, id, ty) <==> OpenAs(h.taken, id, ty))
  }

  lemma OpenSince(t: seq<Line>, l: Line, id: string, ty: ItemType)
    ensures OpenAs(t + [l], id, ty) <==> Starts(l, id, ty) || (OpenAs(t, id, ty) && !Ends(l, id))
  {
    hide Starts, Ends;
    var more := t + [l];
    if OpenAs(t, id, ty) && !Ends(l, id) {
      var j :| 0 <= j < |t| && Starts(t[j], id, ty) && forall k :: j < k < |t| ==> !Ends(t[k], id);
      assert more[j] == t[j];
    }
    if Starts(l, id, ty) {
      assert more[|t|] == l;
    }
    if OpenAs(more, id, ty) && !Starts(l, id, ty) {
      var j :| 0 <= j < |more| && Starts(more[j], id, ty) && forall k :: j < k < |more| ==> !Ends(more[k], id);
      assert more[|t|] == l;
      assert forall k :: j < k < |t| ==> t[k] == more[k];
    }
  }

  lemma TextSince(t: seq<Line>, l: Line)
    ensures LastText(t + [l]) ==
      match l case ItemLine(true, Some(Item(_, AgentMessage(text)))) => text case _ => LastText(t)
    ensures Ended(t + [l]) <==> Ended(t) || l.TurnCompleted?
  {
    assert (t + [l])[..|t|] == t;
    assert forall x :: x in t + [l] <==> x in t || x == l;
    assert l in t + [l];
  }

  lemma NonePending(s: State, t: seq<Line>)
    requires forall id, ty :: Pends(s, id, ty) <==> OpenAs(t, id, ty)
    ensures s.pending == map[] <==> forall id, ty :: !OpenAs(t, id, ty)
    ensures forall id :: id in s.pending <==> exists ty :: OpenAs(t, id, ty)
  {
    hide OpenAs;
    forall id ensures id in s.pending <==> exists ty :: OpenAs(t, id, ty) {
      assert id in s.pending ==> Pends(s, id, s.pending[id]);
    }
  }

  /** One line: it is taken exactly if nothing went wrong since the thread started and
      it is proper, and then says what it has to. */
  lemma LineTracked(s: State, h: History, l: Input)
    requires Tracks(s, h)
    ensures
      var o := Parse(s, l.Unfit(), l.line);
      && (o.ok <==> !h.broken && Proper(s.auto, h.taken, l))
      && o.events == (if o.ok then Says(h.taken, l.line) else [])
      && Tracks(o.state, Heard(h, s.auto, l))
  {
    hide OpenAs, Ended, LastText;
    TextSince(h.taken, l.line);
    forall id, ty ensures OpenAs(h.taken + [l.line], id, ty) <==>
      Starts(l.line, id, ty) || (OpenAs(h.taken, id, ty) && !Ends(l.line, id))
    {
      OpenSince(h.taken, l.line, id, ty);
    }
    if !s.failed {
      NonePending(s, h.taken);
    }
  }

  lemma NothingTaken()
    ensures !Ended([]) && forall id, ty :: !OpenAs([], id, ty)
  {
  }

  lemma {:induction false} AllTracked(auto: bool, lines: seq<Input>)
    ensures var r, h := ParseAll(auto, lines), Taken(auto, lines);
      r.state.auto == auto && Tracks(r.state, h) && r.events == Told(h.taken)
  {
    if lines == [] {
      NothingTaken();
      hide OpenAs, Ended;
    } else {
      var front, l := lines[..|lines| - 1], lines[|lines| - 1];
      AllTracked(auto, front);
      var r, h := ParseAll(auto, front), Taken(auto, front);
      hide Parse, Tracks, Proper, Says;
      LineTracked(r.state, h, l);
      AutoStays(r.state, l.Unfit(), l.line);
      assert (h.taken + [l.line])[..|h.taken|] == h.taken;
      assert r.events + [] == r.events;
    }
  }

  /** The end of the stream after the lines t. */
  ghost function Closing(h: History): Option<Event> {
    if h.taken == [] || Ended(h.taken) then None
    else if h.broken then Some(Done(Error, "(no result: failure)"))
    else if exists id, ty :: OpenAs(h.taken, id, ty) then Some(Done(Stopped, "(no result: interrupted)"))
    else Some(Done(Error, "(no result: stream ended before turn.completed)"))
  }

  /** The parser's events are those of the lines taken: message texts, the ids of the
      items and the figures of usage as the lines give them, and a done whose result is
      the agent's last words; the end adds a done exactly if the thread started and the
      turn did not end, stopped exactly over an open item and no failure. */
  lemma StreamTells(auto: bool, lines: seq<Input>)
    ensures
      var r, h := ParseAll(auto, lines), Taken(auto, lines);
      && r.events == Told(h.taken)
      && Finish(r.state).events == (match Closing(h) case None => [] case Some(e) => [e])
      && (Finish(r.state).ok <==> Ended(h.taken) || (Closing(h).Some? && Closing(h).value.status == Stopped))
  {
    AllTracked(auto, lines);
    var r, h := ParseAll(auto, lines), Taken(auto, lines);
    hide OpenAs, Ended, LastText, ParseAll, Taken;
    if !r.state.failed {
      NonePending(r.state, h.taken);
    }
  }

  // ---------- the adapter ----------

  /** The first line in error, or the number of lines. */
  function FirstBad(auto: bool, lines: seq<Input>): (k: nat)
    ensures k <= |lines|
  {
    if lines == [] then 0
    else
      var front, l := lines[..|lines| - 1], lines[|lines| - 1];
      var k := FirstBad(auto, front);
      if k < |front| then k
      else if Parse(ParseAll(auto, front).state, l.Unfit(), l.line).ok then |lines| else k
  }

  /** What the adapter reports for a line in error. */
  const FAILURE := Done(Error, "error")

  /** The first line that the scanner does not take, or the number of lines. */
  function Scanned(lines: seq<Input>): (n: nat)
    ensures n <= |lines| && (forall i :: 0 <= i < n ==> !lines[i].Unscannable())
    ensures n < |lines| ==> lines[n].Unscannable()
  {
    if lines == [] then 0
    else if lines[0].Unscannable() then 0
    else 1 + Scanned(lines[1..])
  }

  /** The lines up to the first in error, whose report is a done if ready was sent;
      or up to the first that the scanner does not take, without any report; or all
      lines, and what closes the stream unless that is in error. */
  function Sent(auto: bool, lines: seq<Input>): seq<Event> {
    var n := Scanned(lines);
    var k := FirstBad(auto, lines[..n]);
    var r := ParseAll(auto, lines[..k]);
    r.events + if k < n then (if r.state.thread then [FAILURE] else [])
               else if n < |lines| then []
               else (if Finish(r.state).ok then Finish(r.state).events else [])
  }

  /** What the parser has come to when the adapter stops reading. */
  function Reached(auto: bool, lines: seq<Input>): State {
    ParseAll(auto, lines[..FirstBad(auto, lines[..Scanned(lines)])]).state
  }

  /** A line that the scanner takes follows the one that ended the turn. */
  predicate Trailing(auto: bool, lines: seq<Input>) {
    FirstBad(auto, lines[..Scanned(lines)]) < Scanned(lines) && Reached(auto, lines).done
  }

  /** All lines are in order, but the turn has not ended and nothing is open. */
  predicate Unended(auto: bool, lines: seq<Input>) {
    var s := Reached(auto, lines);
    FirstBad(auto, lines[..Scanned(lines)]) == |lines| && s.thread && !s.done && (s.failed || s.pending == map[])
  }

  /** The lines are in order up to one that the scanner does not take, and the turn
      has not ended by then. */
  predicate Severed(auto: bool, lines: seq<Input>) {
    var s := Reached(auto, lines);
    FirstBad(auto, lines[..Scanned(lines)]) == Scanned(lines) < |lines| && s.thread && !s.done
  }

  /** What the host makes of the adapter's output. It is accepted exactly if no line
      that the scanner takes follows the end of the turn; else only its last event is
      refused, a second done. And it holds a done whenever it holds a ready, except
      exactly if the lines stop short of the end of the turn with nothing open, or a
      line before it is too long for the scanner. */
  lemma AdapterStream(auto: bool, lines: seq<Input>)
    ensures
      var es, thread := Sent(auto, lines), Reached(auto, lines).thread;
      && (AcceptAll(es).Some? <==> !Trailing(auto, lines))
      && (Trailing(auto, lines) ==> es != [] && AcceptAll(es[..|es| - 1]) == Some(Seen(true, true)))
      && (!Trailing(auto, lines) ==>
            AcceptAll(es) == Some(Seen(thread, thread && !Unended(auto, lines) && !Severed(auto, lines))))
      && Open(es).Some?
      && (!auto ==> forall e :: e in es ==> !Tool(e))
  {
    hide AcceptAll, Open, Parse, ParseAll, FirstBad, Scanned;
    var n := Scanned(lines);
    var k := FirstBad(auto, lines[..n]);
    var r, es := ParseAll(auto, lines[..k]), Sent(auto, lines);
    ParseAllFits(auto, lines[..k]);
    FinishFits(r.state, r.events);
    assert r.events + [] == r.events;
    if r.state.done {
      DoneIsReady(r.state, r.events);
    }
    if k < n && r.state.thread {
      AcceptSnoc(r.events, FAILURE);
      OpenSnoc(r.events, FAILURE);
      assert es[..|es| - 1] == r.events;
    }
  }

  function LinesOf(lines: seq<Input>): seq<Line> {
    seq(|lines|, i requires 0 <= i < |lines| => lines[i].line)
  }

  /** The first k lines are each proper after those before it. */
  ghost predicate InOrder(auto: bool, lines: seq<Input>, k: nat)
    requires k <= |lines|
  {
    forall i :: 0 <= i < k ==> Proper(auto, LinesOf(lines[..i]), lines[i])
  }

  lemma InOrderLater(auto: bool, lines: seq<Input>, k: nat, n: nat)
    requires k <= n <= |lines| && InOrder(auto, lines[..n], k)
    ensures InOrder(auto, lines, k)
  {
    hide Proper, LinesOf;
    forall i | 0 <= i < k ensures Proper(auto, LinesOf(lines[..i]), lines[i]) {
      assert lines[..n][..i] == lines[..i];
    }
  }

  lemma NextLine(auto: bool, lines: seq<Input>, n: nat)
    requires n == |lines| - 1 && Taken(auto, lines[..n]) == History(LinesOf(lines[..n]), false)
    ensures Parse(ParseAll(auto, lines[..n]).state, lines[n].Unfit(), lines[n].line).ok <==> Proper(auto, LinesOf(lines[..n]), lines[n])
    ensures Proper(auto, LinesOf(lines[..n]), lines[n]) ==> Taken(auto, lines) == History(LinesOf(lines), false)
  {
    hide Parse, ParseAll, Proper, Tracks, Told;
    AllTracked(auto, lines[..n]);
    LineTracked(ParseAll(auto, lines[..n]).state, Taken(auto, lines[..n]), lines[n]);
    assert LinesOf(lines[..n]) + [lines[n].line] == LinesOf(lines);
  }

  /** The first line in error is the first that is not proper after those before it. */
  lemma {:induction false} FirstBadMeans(auto: bool, lines: seq<Input>)
    ensures var k := FirstBad(auto, lines);
      && Taken(auto, lines[..k]) == History(LinesOf(lines[..k]), false)
      && InOrder(auto, lines, k)
      && (k < |lines| ==> !Proper(auto, LinesOf(lines[..k]), lines[k]))
  {
    hide Parse, ParseAll, Proper, Taken, LinesOf, InOrder;
    if lines == [] {
      NoLines(auto, lines);
    } else {
      var n := |lines| - 1;
      var k := FirstBad(auto, lines[..n]);
      FirstBadMeans(auto, lines[..n]);
      assert lines[..n][..k] == lines[..k];
      InOrderLater(auto, lines, k, n);
      if k == n {
        NextLine(auto, lines, n);
        InOrderNext(auto, lines, n);
        assert lines[..n + 1] == lines;
      }
    }
  }

  lemma NoLines(auto: bool, lines: seq<Input>)
    ensures Taken(auto, lines[..0]) == History(LinesOf(lines[..0]), false) && InOrder(auto, lines, 0)
  {
  }

  lemma InOrderNext(auto: bool, lines: seq<Input>, n: nat)
    requires n < |lines| && InOrder(auto, lines, n)
    ensures Proper(auto, LinesOf(lines[..n]), lines[n]) ==> InOrder(auto, lines, n + 1)
  {
  }

  /** What the adapter sends, of lines: what the lines in order say, up to the first
      that the scanner does not take or that is not proper; for the latter an error done
      if it is not the first; and after the last line a stopped done exactly if the turn
      has not ended and an item is open. */
  lemma SentTells(auto: bool, lines: seq<Input>)
    ensures
      var n := Scanned(lines);
      var k := FirstBad(auto, lines[..n]);
      var t := LinesOf(lines[..k]);
      && InOrder(auto, lines, k) && (k < n ==> !Proper(auto, t, lines[k]))
      && Sent(auto, lines) == Told(t)
         + (if k < n then (if k > 0 then [Done(Error, "error")] else [])
            else if n == |lines| && !Ended(t) && (exists id, ty :: OpenAs(t, id, ty))
            then [Done(Stopped, "(no result: interrupted)")] else [])
  {
    hide OpenAs, Ended, LastText, ParseAll, Taken, FirstBad, Scanned, Told, InOrder, Proper, Finish;
    var n := Scanned(lines);
    var k := FirstBad(auto, lines[..n]);
    FirstBadMeans(auto, lines[..n]);
    assert lines[..n][..k] == lines[..k];
    StreamTells(auto, lines[..k]);
    AllTracked(auto, lines[..k]);
    InOrderLater(auto, lines, k, n);
    NothingTaken();
  }

  /** Where the adapter slips, of lines. */
  lemma SlipsMean(auto: bool, lines: seq<Input>)
    ensures
      var n := Scanned(lines);
      var k := FirstBad(auto, lines[..n]);
      var t := LinesOf(lines[..k]);
      && (Trailing(auto, lines) <==> k < n && Ended(t))
      && (Unended(auto, lines) <==> k == |lines| > 0 && !Ended(t) && forall id, ty :: !OpenAs(t, id, ty))
      && (Severed(auto, lines) <==> 0 < k == n < |lines| && !Ended(t))
  {
    hide OpenAs, Ended, LastText, ParseAll, Taken, FirstBad, Scanned, Told, InOrder, Proper;
    var n := Scanned(lines);
    var k := FirstBad(auto, lines[..n]);
    var r, t := ParseAll(auto, lines[..k]), LinesOf(lines[..k]);
    FirstBadMeans(auto, lines[..n]);
    assert lines[..n][..k] == lines[..k];
    AllTracked(auto, lines[..k]);
    NonePending(r.state, t);
  }

  /** All of this happens. */
  lemma AdapterSlips()
    ensures
      var ready, end := Input(Short, ThreadStarted("t")), Input(Short, TurnCompleted(None));
      var long := Input(Long, ItemLine(true, Some(Item("m", AgentMessage("text")))));
      && Trailing(false, [ready, end, Input(Short, TurnStarted)])
      && Unended(false, [ready])
      && Severed(false, [ready, long, end])
  {
    var ready, end, more := Input(Short, ThreadStarted("t")), Input(Short, TurnCompleted(None)), Input(Short, TurnStarted);
    var long := Input(Long, ItemLine(true, Some(Item("m", AgentMessage("text")))));
    var lines, cut := [ready, end, more], [ready, long, end];
    TheseLines(ready, end, more);
    hide Parse, ParseAll, FirstBad, Scanned;
    AllScanned(lines);
    AllScanned([ready]);
    assert lines[..3] == lines && lines[..2] == [ready, end] && cut[..1] == [ready] && [ready][..1] == [ready];
    assert Scanned(cut) == 1 by {
      assert !cut[0].Unscannable() && cut[1].Unscannable();
    }
  }

  lemma AllScanned(lines: seq<Input>)
    requires forall l :: l in lines ==> !l.Unscannable()
    ensures Scanned(lines) == |lines|
  {
    hide Scanned;
    if Scanned(lines) < |lines| {
      assert lines[Scanned(lines)] in lines;
    }
  }

  lemma TheseLines(ready: Input, end: Input, more: Input)
    requires ready == Input(Short, ThreadStarted("t")) && end == Input(Short, TurnCompleted(None))
    ensures ParseAll(false, [ready]).state == Fresh(false).(thread := true) && FirstBad(false, [ready]) == 1
    ensures ParseAll(false, [ready, end]).state.done && FirstBad(false, [ready, end, more]) == 2
  {
    var lines := [ready, end, more];
    assert [ready][..0] == [] && [ready, end][..1] == [ready] && lines[..2] == [ready, end];
    assert "t" != "" && ParseAll(false, []) == Run(Fresh(false), []);
    assert Parse(Fresh(false), false, ready.line) == Out(Fresh(false).(thread := true), [Ready], true);
    assert ParseAll(false, [ready]).state == Fresh(false).(thread := true);
    assert ParseAll(false, [ready, end]).state.done;
    assert FirstBad(false, []) == 0 && FirstBad(false, [ready]) == 1 && FirstBad(false, [ready, end]) == 2;
    assert FirstBad(false, lines) == 2;
  }

  // ---------- the code ----------

  class Parser {
    const auto: bool
    var thread: bool
    var done: bool
    var failed: bool
    var lastMsg: string
    var pending: map<string, ItemType>

    function Value(): State
      reads this
    {
      State(auto, thread, done, failed, lastMsg, pending)
    }

    constructor (auto: bool)
      ensures Value() == Fresh(auto)
    {
      this.auto := auto;
      thread, done, failed, lastMsg, pending := false, false, false, "", map[];
    }

    method Broken() returns (events: seq<Event>, ok: bool)
      modifies this
      ensures Out(Value(), events, ok) == Fail(old(Value()))
    {
      if thread && !failed {
        failed := true;
      }
      return [], false;
    }

    method ParseLine(unfit: bool, line: Line) returns (events: seq<Event>, ok: bool)
      modifies this
      ensures Out(Value(), events, ok) == Parse(old(Value()), unfit, line)
    {
      hide ParseItem, EndTurn;
      if unfit {
        events, ok := Broken();
        return;
      }
      if done {
        return [], false;
      }
      if failed {
        return [], false;
      }
      match line
      case ThreadStarted(id) =>
        if thread || id == "" {
          events, ok := Broken();
        } else {
          thread := true;
          events, ok := [Ready], true;
        }
      case TurnStarted =>
        if !thread {
          events, ok := Broken();
        } else {
          events, ok := [], true;
        }
      case ItemLine(completed, item) =>
        if !thread || item.None? {
          events, ok := Broken();
        } else {
          events, ok := TakeItem(completed, item.value);
        }
      case TurnCompleted(usage) =>
        if !thread {
          events, ok := Broken();
        } else {
          events, ok := CompleteTurn(usage);
        }
      case _ => events, ok := Broken();
    }

    method TakeItem(completed: bool, item: Item) returns (events: seq<Event>, ok: bool)
      modifies this
      ensures Out(Value(), events, ok) == ParseItem(old(Value()), completed, item)
    {
      hide StartItem, EndItem;
      if item.id == "" {
        events, ok := Broken();
        return;
      }
      match item.body
      case AgentMessage(text) =>
        if !completed {
          events, ok := Broken();
        } else {
          lastMsg := text;
          events, ok := [Message(text)], true;
        }
      case Command(status, exitCode) =>
        if !auto {
          events, ok := Broken();
        } else if completed {
          events, ok := CloseItem(item.id, CommandType, CommandFits(status, exitCode));
        } else {
          events, ok := OpenItem(item.id, CommandType, status);
        }
      case FileChange(status, changes) =>
        if !auto || !changes {
          events, ok := Broken();
        } else if completed {
          events, ok := CloseItem(item.id, FileType, status == "completed");
        } else {
          events, ok := OpenItem(item.id, FileType, status);
        }
      case OtherBody => events, ok := Broken();
    }

    method Close() returns (events: seq<Event>, ok: bool)
      modifies this
      ensures Out(Value(), events, ok) == Finish(old(Value()))
    {
      if done {
        return [], true;
      }
      if !thread {
        return [], false;
      }
      done := true;
      if failed {
        return [Done(Error, "(no result: failure)")], false;
      }
      if pending != map[] {
        return [Done(Stopped, "(no result: interrupted)")], true;
      }
      return [Done(Error, "(no result: stream ended before turn.completed)")], false;
    }

    method OpenItem(id: string, t: ItemType, status: string) returns (events: seq<Event>, ok: bool)
      modifies this
      ensures Out(Value(), events, ok) == StartItem(old(Value()), id, t, status)
    {
      if status != "in_progress" || id in pending {
        events, ok := Broken();
        return;
      }
      pending := pending[id := t];
      return [Call(id)], true;
    }

    method CloseItem(id: string, t: ItemType, fits: bool) returns (events: seq<Event>, ok: bool)
      modifies this
      ensures Out(Value(), events, ok) == EndItem(old(Value()), id, t, fits)
    {
      if id !in pending || pending[id] != t {
        events, ok := Broken();
        return;
      }
      pending := pending - {id};
      if !fits {
        events, ok := Broken();
        return;
      }
      return [Result(id)], true;
    }

    method CompleteTurn(usage: Option<Tokens>) returns (events: seq<Event>, ok: bool)
      modifies this
      ensures Out(Value(), events, ok) == EndTurn(old(Value()), usage)
    {
      if pending != map[] {
        events, ok := Broken();
        return;
      }
      events := [];
      if usage.Some? {
        var t := usage.value;
        if t.input.None? || t.output.None? || t.input.value < 0 || t.output.value < 0 {
          events, ok := Broken();
          return;
        }
        events := [Usage(t.input.value, t.output.value)];
      }
      events := events + [Done(Ok, ResultText(Value()))];
      done := true;
      return events, true;
    }
  }

  /** The adapter's loop, with the host at the other end of its output. */
  method RunAdapter(auto: bool, lines: seq<Input>, host: Callback) returns (sent: seq<Event>, accepted: bool)
    requires !host.sawReady && !host.done
    modifies host
    ensures sent == Sent(auto, lines)
    ensures accepted <==> !Trailing(auto, lines)
    ensures accepted ==> Some(Seen(host.sawReady, host.done)) == AcceptAll(sent)
  {
    hide AcceptAll, Open, Parse, ParseAll, Finish, FirstBad, Scanned, Sent, Trailing;
    var p := new Parser(auto);
    sent := [];
    Start(auto);
    var i := 0;
    while i < |lines| && !lines[i].Unscannable()
      invariant i <= Scanned(lines) && Run(p.Value(), sent) == ParseAll(auto, lines[..i]) && FirstBad(auto, lines[..i]) == i
      invariant AcceptAll(sent) == Some(Seen(host.sawReady, host.done))
    {
      var events, ok := p.ParseLine(lines[i].Unfit(), lines[i].line);
      if !ok {
        var heard := lines[..Scanned(lines)];
        assert heard[..i] == lines[..i];
        StopsHere(auto, heard, i);
        SentAt(auto, lines, i);
        FailKeepsThread(ParseAll(auto, lines[..i]).state, lines[i].Unfit(), lines[i].line);
        var report := if p.thread then [FAILURE] else [];
        accepted := host.Drain(report, sent);
        sent := sent + report;
        return;
      }
      GoesOn(auto, lines, i);
      accepted := host.Drain(events, sent);
      sent := sent + events;
      i := i + 1;
    }
    SentAt(auto, lines, i);
    if i < |lines| {
      assert sent + [] == sent;
      return sent, true;
    }
    var events, ok := p.Close();
    if !ok {
      events := [];
    }
    accepted := host.Drain(events, sent);
    sent := sent + events;
  }

  lemma Start(auto: bool)
    ensures AcceptAll([]) == Some(Seen(false, false))
    ensures ParseAll(auto, []) == Run(Fresh(auto), []) && FirstBad(auto, []) == 0
  {
  }

  lemma SentAt(auto: bool, lines: seq<Input>, k: nat)
    requires k <= Scanned(lines) && FirstBad(auto, lines[..Scanned(lines)]) == k
    ensures
      var r, n := ParseAll(auto, lines[..k]), Scanned(lines);
      && Sent(auto, lines) == r.events
         + (if k < n then (if r.state.thread then [FAILURE] else [])
            else if n < |lines| then []
            else (if Finish(r.state).ok then Finish(r.state).events else []))
      && (AcceptAll(Sent(auto, lines)).Some? <==> !Trailing(auto, lines))
  {
    AdapterStream(auto, lines);
  }

  lemma GoesOn(auto: bool, lines: seq<Input>, i: nat)
    requires i < |lines| && FirstBad(auto, lines[..i]) == i
    requires Parse(ParseAll(auto, lines[..i]).state, lines[i].Unfit(), lines[i].line).ok
    ensures FirstBad(auto, lines[..i + 1]) == i + 1
    ensures
      var r, o := ParseAll(auto, lines[..i]), Parse(ParseAll(auto, lines[..i]).state, lines[i].Unfit(), lines[i].line);
      ParseAll(auto, lines[..i + 1]) == Run(o.state, r.events + o.events) && AcceptAll(r.events + o.events).Some?
  {
    hide Parse;
    assert lines[..i + 1][..i] == lines[..i];
    ParseAllFits(auto, lines[..i + 1]);
  }

  lemma FailKeepsThread(s: State, unfit: bool, line: Line)
    requires !Parse(s, unfit, line).ok
    ensures Parse(s, unfit, line).state.thread == s.thread
  {
  }

  lemma {:induction false} StopsHere(auto: bool, lines: seq<Input>, i: nat)
    requires i < |lines| && FirstBad(auto, lines[..i]) == i
    requires !Parse(ParseAll(auto, lines[..i]).state, lines[i].Unfit(), lines[i].line).ok
    ensures FirstBad(auto, lines) == i
  {
    hide Parse, ParseAll;
    if i == |lines| - 1 {
    } else {
      var front := lines[..|lines| - 1];
      assert front[..i] == lines[..i];
      StopsHere(auto, front, i);
    }
  }
}
