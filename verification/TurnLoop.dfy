/**
  The turn loop: one turn of model steps, tool calls and hooks, each recorded
  through the log's writer. The model, the tools, the hooks, admission to the log
  and the clock may behave in any way: each is a function of the number of the
  consultation. The writer keeps committing: turn and step ends always reach the
  log; any other record may be refused.
*/
module TurnLoop {
  import opened Wrappers
  import opened Events
  import opened Replay

  datatype Point = PreStep | PreTool | PostTool | TurnStopping

  datatype Decision = Continue | Rewrite(value: string) | Reject(reason: string) | Malformed

  /** What a hook/verdict record holds. */
  datatype Verdict = Verdict(point: Point, decision: Decision)

  type Request = seq<Message>

  datatype ToolCall = ToolCall(name: string, args: string)

  datatype Response = Response(text: string, usageIn: int, usageOut: int, calls: seq<ToolCall>)

  datatype ToolOutcome = Succeeded(output: string) | Errored(error: string) | Refused(reason: string)

  /** What a tool did: events it had recorded in spans of its own, and its output or
      error. */
  datatype ToolRun = ToolRun(foreign: seq<Event>, end: ToolEnd)

  datatype ToolEnd = Returned(output: string) | Raised(error: string)

  /** The codecs, and everything outside the loop. */
  datatype Env = Env(
    traceId: string, root: string, maxSteps: nat,
    encodeVerdict: Verdict -> string, decodeVerdict: string -> Option<Verdict>,
    encodeRequest: Request -> string, decodeRequest: string -> Option<Request>,
    decodeCall: string -> Option<ToolCall>, encodeCall: ToolCall -> string,
    encodeOutcome: ToolOutcome -> string, decodeOutcome: string -> Option<ToolOutcome>, normalized: string -> string,
    fits: (Point, string) -> bool,
    now: nat -> int, admits: nat -> bool,
    model: nat -> Option<Response>, tool: nat -> ToolRun, hooks: (Point, nat) -> seq<Decision>)

  /** Verdict records read back, and tools record under spans of their own. */
  ghost predicate Sane(env: Env) {
    && (forall v :: env.decodeVerdict(env.encodeVerdict(v)) == Some(v))
    && (forall n, e :: e in env.tool(n).foreign ==> e.spanId != env.root)
  }

  // ---------- the grammar ----------

  datatype Place = Outside | InTurn(steps: nat) | InStep(steps: nat)

  predicate Boundary(env: Env, e: Event) {
    e.spanId == env.root && (e.kind == TurnStart || e.kind == TurnEnd || e.kind == StepStart || e.kind == StepEnd)
  }

  function Next(env: Env, p: Place, e: Event): Option<Place> {
    if !Boundary(env, e) then Some(p)
    else match p
      case Outside => if e.kind == TurnStart then Some(InTurn(0)) else None
      case InTurn(k) =>
        if e.kind == StepStart && k < env.maxSteps then Some(InStep(k + 1))
        else if e.kind == TurnEnd then Some(Outside)
        else None
      case InStep(k) => if e.kind == StepEnd then Some(InTurn(k)) else None
  }

  /** Where the log stands, if its boundaries nest and no turn has more than maxSteps steps. */
  function Scan(env: Env, log: seq<Event>): Option<Place> {
    if log == [] then Some(Outside)
    else match Scan(env, log[..|log| - 1])
      case None => None
      case Some(p) => Next(env, p, log[|log| - 1])
  }

  /** How many steps began since the last turn did. */
  function StepsSince(env: Env, log: seq<Event>): nat {
    if log == [] then 0
    else
      var e := log[|log| - 1];
      if e.spanId == env.root && e.kind == TurnStart then 0
      else StepsSince(env, log[..|log| - 1]) + if e.spanId == env.root && e.kind == StepStart then 1 else 0
  }

  function Count(env: Env, log: seq<Event>, kind: Kind): nat {
    if log == [] then 0
    else
      var e := log[|log| - 1];
      Count(env, log[..|log| - 1], kind) + if e.spanId == env.root && e.kind == kind then 1 else 0
  }

  /** What the scan means: as many ends as starts, but for the turn and the step
      that are open, and never more than maxSteps steps in a turn. */
  lemma {:induction false} ScanMeans(env: Env, log: seq<Event>)
    requires Scan(env, log).Some?
    ensures
      var p := Scan(env, log).value;
      && Count(env, log, TurnStart) == Count(env, log, TurnEnd) + (if p.Outside? then 0 else 1)
      && Count(env, log, StepStart) == Count(env, log, StepEnd) + (if p.InStep? then 1 else 0)
      && (!p.Outside? ==> p.steps == StepsSince(env, log) <= env.maxSteps)
  {
    if log != [] {
      ScanMeans(env, log[..|log| - 1]);
    }
  }

  // ---------- requests as the log tells them ----------

  function VerdictOf(env: Env, point: Point, e: Event): Option<Decision> {
    if e.spanId != env.root || e.kind != HookVerdict then None
    else match env.decodeVerdict(e.payload.raw)
      case None => None
      case Some(v) => if v.point == point then Some(v.decision) else None
  }

  /** What the verdicts of one point right at the end of a log say: the last rewrite
      among them, or nothing beyond the log before them. */
  datatype Told = Rewritten(value: string) | Plain(base: seq<Event>)

  function ToldAt(env: Env, point: Point, log: seq<Event>): Told {
    if log == [] then Plain([])
    else match VerdictOf(env, point, log[|log| - 1])
      case Some(Rewrite(x)) => Rewritten(x)
      case Some(_) => ToldAt(env, point, log[..|log| - 1])
      case None => Plain(log)
  }

  /** The request that follows a log: the last pre_step rewrite, or else the
      replayed messages. */
  function FromLog(env: Env, log: seq<Event>): Option<Request> {
    match ToldAt(env, PreStep, log)
    case Rewritten(x) => env.decodeRequest(x)
    case Plain(base) => Replayed(env, base)
  }

  /** The tool call that follows a log: the last pre_tool rewrite, or else the
      recorded attempt. */
  function CallFromLog(env: Env, log: seq<Event>): Option<ToolCall> {
    match ToldAt(env, PreTool, log)
    case Rewritten(x) => env.decodeCall(x)
    case Plain(base) =>
      if base != [] && base[|base| - 1].spanId == env.root && base[|base| - 1].kind == Kind.ToolCall then
        env.decodeCall(base[|base| - 1].payload.raw)
      else None
  }

  function Replayed(env: Env, log: seq<Event>): Option<Request> {
    match Projection(log)
    case None => None
    case Some(d) => env.decodeRequest(env.encodeRequest(d.messages))
  }

  /** The requests of all steps in the log. */
  function RequestsOf(env: Env, log: seq<Event>): seq<Option<Request>> {
    if log == [] then []
    else
      var front, e := log[..|log| - 1], log[|log| - 1];
      if e.spanId == env.root && e.kind == StepStart then RequestsOf(env, front) + [FromLog(env, front)]
      else RequestsOf(env, front)
  }

  // ---------- hooks ----------

  predicate Valid(env: Env, point: Point, d: Decision) {
    match d
    case Continue => true
    case Rewrite(x) => x != "" && env.fits(point, x)
    case Reject(reason) => reason != ""
    case Malformed => false
  }

  /** reject > rewrite > continue: the first reject, else the last rewrite. */
  datatype Resolution = Rejected(reason: string) | Goes(final: string, rewrote: bool)

  function LastRewrite(ds: seq<Decision>, original: string): Resolution {
    if ds == [] then Goes(original, false)
    else if ds[|ds| - 1].Rewrite? then Goes(ds[|ds| - 1].value, true)
    else LastRewrite(ds[..|ds| - 1], original)
  }

  function Resolve(ds: seq<Decision>, original: string): Resolution {
    if exists i :: 0 <= i < |ds| && ds[i].Reject? then Rejected(FirstReject(ds))
    else LastRewrite(ds, original)
  }

  function FirstReject(ds: seq<Decision>): string {
    if ds == [] then "" else if ds[0].Reject? then ds[0].reason else FirstReject(ds[1..])
  }

  lemma {:induction false} LastRewriteTells(ds: seq<Decision>, x: string)
    ensures var r := LastRewrite(ds, x); r.Goes? && (r.rewrote <==> exists d :: d in ds && d.Rewrite?)
  {
    if ds != [] {
      LastRewriteTells(ds[..|ds| - 1], x);
      assert ds == ds[..|ds| - 1] + [ds[|ds| - 1]];
    }
  }

  /** The first rejection decides, else the last rewrite, else nothing is changed. */
  ghost predicate Resolves(ds: seq<Decision>, original: string, r: Resolution) {
    match r
    case Rejected(reason) =>
      exists i :: 0 <= i < |ds| && ds[i] == Reject(reason) && forall j :: 0 <= j < i ==> !ds[j].Reject?
    case Goes(final, rewrote) =>
      && (forall d :: d in ds ==> !d.Reject?)
      && (if rewrote then
            exists i :: 0 <= i < |ds| && ds[i] == Rewrite(final) && forall j :: i < j < |ds| ==> !ds[j].Rewrite?
          else final == original && forall d :: d in ds ==> !d.Rewrite?)
  }

  lemma {:induction false} FirstRejectAt(ds: seq<Decision>) returns (i: nat)
    requires exists d :: d in ds && d.Reject?
    ensures i < |ds| && ds[i] == Reject(FirstReject(ds)) && forall j :: 0 <= j < i ==> !ds[j].Reject?
  {
    if ds[0].Reject? {
      i := 0;
    } else {
      var k := FirstRejectAt(ds[1..]);
      i := k + 1;
      assert forall j :: 0 < j < i ==> ds[j] == ds[1..][j - 1];
    }
  }

  lemma {:induction false} LastRewriteAt(ds: seq<Decision>, x: string) returns (i: nat)
    requires LastRewrite(ds, x).Goes? && LastRewrite(ds, x).rewrote
    ensures i < |ds| && ds[i] == Rewrite(LastRewrite(ds, x).final) && forall j :: i < j < |ds| ==> !ds[j].Rewrite?
  {
    var n := |ds| - 1;
    if ds[n].Rewrite? {
      i := n;
    } else {
      i := LastRewriteAt(ds[..n], x);
      assert forall j :: 0 <= j < n ==> ds[..n][j] == ds[j];
    }
  }

  lemma {:induction false} LastRewriteKeeps(ds: seq<Decision>, x: string)
    ensures var r := LastRewrite(ds, x); r.Goes? && !r.rewrote ==> r.final == x
  {
    if ds != [] {
      LastRewriteKeeps(ds[..|ds| - 1], x);
    }
  }

  lemma ResolveMeans(ds: seq<Decision>, x: string)
    ensures Resolves(ds, x, Resolve(ds, x))
  {
    RejectsReject(ds, x);
    LastRewriteTells(ds, x);
    LastRewriteKeeps(ds, x);
    if Resolve(ds, x).Rejected? {
      var i := FirstRejectAt(ds);
    } else if Resolve(ds, x).rewrote {
      var i := LastRewriteAt(ds, x);
    }
  }

  /** What the model gets to see of a tool that ran, told by the tool and the hooks on
      its output. */
  ghost predicate Sees(env: Env, n: nat, r: Option<ToolOutcome>) {
    match env.tool(n).end
    case Raised(error) => r == Some(Errored(error))
    case Returned(output) =>
      var ds, original := env.hooks(PostTool, n + 1), env.encodeOutcome(Succeeded(env.normalized(output)));
      exists x :: Resolves(ds, original, x) && r == Passed(env, x)
  }

  /** What becomes of an output whose hooks resolve so. */
  function Passed(env: Env, x: Resolution): Option<ToolOutcome> {
    match x
    case Rejected(reason) => Some(Refused(reason))
    case Goes(final, _) => env.decodeOutcome(final)
  }

  method ResolveDecisions(ds: seq<Decision>, original: string) returns (r: Resolution)
    ensures r == Resolve(ds, original) && Resolves(ds, original, r)
  {
    ResolveMeans(ds, original);
    hide Resolves;
    for i := 0 to |ds|
      invariant forall j :: 0 <= j < i ==> !ds[j].Reject?
      invariant FirstReject(ds) == FirstReject(ds[i..])
    {
      if ds[i].Reject? {
        return Rejected(ds[i].reason);
      }
      assert ds[i..][1..] == ds[i + 1..];
    }
    var final, rewrote := original, false;
    for i := 0 to |ds|
      invariant Goes(final, rewrote) == LastRewrite(ds[..i], original)
    {
      assert ds[..i + 1][..i] == ds[..i];
      if ds[i].Rewrite? {
        final, rewrote := ds[i].value, true;
      }
    }
    assert ds[..|ds|] == ds;
    return Goes(final, rewrote);
  }

  // ---------- one more record ----------

  lemma ScanSnoc(env: Env, log: seq<Event>, e: Event)
    ensures Scan(env, log + [e]) == match Scan(env, log) case None => None case Some(p) => Next(env, p, e)
  {
    hide Next;
    assert (log + [e])[..|log|] == log;
  }

  lemma RequestsSnoc(env: Env, log: seq<Event>, e: Event)
    ensures RequestsOf(env, log + [e]) ==
      if e.spanId == env.root && e.kind == StepStart then RequestsOf(env, log) + [FromLog(env, log)] else RequestsOf(env, log)
  {
    hide FromLog;
    assert (log + [e])[..|log|] == log;
  }

  lemma InnerRecord(env: Env, log: seq<Event>, e: Event)
    requires !Boundary(env, e)
    ensures Scan(env, log + [e]) == Scan(env, log) && RequestsOf(env, log + [e]) == RequestsOf(env, log)
  {
    hide Scan, RequestsOf;
    ScanSnoc(env, log, e);
    RequestsSnoc(env, log, e);
  }

  lemma OtherRecord(env: Env, point: Point, log: seq<Event>, e: Event)
    requires VerdictOf(env, point, e).None?
    ensures ToldAt(env, point, log + [e]) == Plain(log + [e])
  {
  }

  lemma VerdictRecord(env: Env, log: seq<Event>, e: Event, v: Verdict)
    requires IsVerdict(env, e, v)
    ensures ToldAt(env, v.point, log + [e]) ==
      if v.decision.Rewrite? then Rewritten(v.decision.value) else ToldAt(env, v.point, log)
  {
    assert (log + [e])[..|log|] == log;
  }

  /** Recorded decisions say what they resolve to: the last rewrite, or nothing new. */
  lemma {:induction false} VerdictsTell(env: Env, before: seq<Event>, log: seq<Event>, point: Point, ds: seq<Decision>, x: string)
    requires Recorded(env, before, log, point, ds)
    ensures
      var g := LastRewrite(ds, x);
      && g.Goes? && (!g.rewrote ==> g.final == x)
      && ToldAt(env, point, log) == if g.rewrote then Rewritten(g.final) else ToldAt(env, point, before)
  {
    if ds == [] {
      assert log == before;
    } else {
      var n, front, e := |ds| - 1, log[..|log| - 1], log[|log| - 1];
      assert front + [e] == log;
      FrontRecorded(env, before, log, point, ds);
      VerdictsTell(env, before, front, point, ds[..n], x);
      assert IsVerdict(env, e, Verdict(point, ds[n]));
      hide ToldAt, Recorded, IsVerdict;
      VerdictRecord(env, front, e, Verdict(point, ds[n]));
    }
  }

  lemma FrontRecorded(env: Env, before: seq<Event>, log: seq<Event>, point: Point, ds: seq<Decision>)
    requires ds != [] && Recorded(env, before, log, point, ds)
    ensures Recorded(env, before, log[..|log| - 1], point, ds[..|ds| - 1])
  {
    hide IsVerdict;
    var front := log[..|log| - 1];
    assert front[..|before|] == log[..|before|];
    forall k | |before| <= k < |front| ensures IsVerdict(env, front[k], Verdict(point, ds[..|ds| - 1][k - |before|])) {
      assert IsVerdict(env, log[k], Verdict(point, ds[k - |before|]));
    }
  }

  /** The verdicts of another point end the pre_step ones. */
  lemma OtherVerdicts(env: Env, before: seq<Event>, log: seq<Event>, point: Point, ds: seq<Decision>)
    requires Recorded(env, before, log, point, ds) && point != PreStep
    requires ToldAt(env, PreStep, before) == Plain(before)
    ensures ToldAt(env, PreStep, log) == Plain(log)
  {
    if ds == [] {
      assert log == before;
    } else {
      var e := log[|log| - 1];
      assert IsVerdict(env, e, Verdict(point, ds[|ds| - 1]));
      OtherRecord(env, PreStep, log[..|log| - 1], e);
      assert log[..|log| - 1] + [e] == log;
    }
  }

  /** log is before with a verdict record for each decision. */
  ghost predicate Recorded(env: Env, before: seq<Event>, log: seq<Event>, point: Point, ds: seq<Decision>) {
    && |log| == |before| + |ds| && log[..|before|] == before
    && forall k :: |before| <= k < |log| ==> IsVerdict(env, log[k], Verdict(point, ds[k - |before|]))
  }

  predicate IsVerdict(env: Env, e: Event, v: Verdict) {
    e.kind == HookVerdict && e.spanId == env.root && env.decodeVerdict(e.payload.raw) == Some(v)
  }

  lemma NothingRecorded(env: Env, log: seq<Event>, point: Point, ds: seq<Decision>)
    requires ds == []
    ensures Recorded(env, log, log, point, ds)
  {
  }

  lemma RecordedSnoc(env: Env, before: seq<Event>, log: seq<Event>, point: Point, ds: seq<Decision>, i: nat, e: Event)
    requires i < |ds| && Recorded(env, before, log, point, ds[..i]) && IsVerdict(env, e, Verdict(point, ds[i]))
    ensures Recorded(env, before, log + [e], point, ds[..i + 1])
  {
    hide IsVerdict;
    var more := log + [e];
    forall k | |before| <= k < |more| ensures IsVerdict(env, more[k], Verdict(point, ds[..i + 1][k - |before|])) {
      if k < |log| {
        assert IsVerdict(env, log[k], Verdict(point, ds[..i][k - |before|]));
      }
    }
  }

  /** One more call was asked for, and some prefix of what was recorded since tells it. */
  ghost predicate AskedFromLog(env: Env, before: seq<Event>, log: seq<Event>, was: seq<ToolCall>, now: seq<ToolCall>) {
    && |now| == |was| + 1 && now[..|was|] == was
    && exists n :: |before| < n <= |log| && CallFromLog(env, log[..n]) == Some(now[|was|])
  }

  lemma NowAsked(env: Env, before: seq<Event>, asked: seq<Event>, log: seq<Event>, was: seq<ToolCall>, call: ToolCall)
    requires |before| < |asked| && asked <= log && CallFromLog(env, asked) == Some(call)
    ensures AskedFromLog(env, before, log, was, was + [call])
  {
    hide CallFromLog;
    assert log[..|asked|] == asked;
  }

  // ---------- the conversation ----------

  datatype Item = Item(kind: Kind, payload: string, usageIn: Option<int>, usageOut: Option<int>)

  predicate Speech(kind: Kind) {
    kind == UserMessage || kind == AssistantMessage || kind == Kind.ToolCall || kind == ToolResult
  }

  /** The conversation that a log holds: messages, calls and results of the loop's own span. */
  function Said(env: Env, log: seq<Event>): seq<Item> {
    if log == [] then []
    else
      var e := log[|log| - 1];
      Said(env, log[..|log| - 1])
      + if e.spanId == env.root && Speech(e.kind) then [Item(e.kind, e.payload.raw, e.usageIn, e.usageOut)] else []
  }

  lemma SaidSnoc(env: Env, log: seq<Event>, e: Event)
    ensures Said(env, log + [e]) == Said(env, log)
      + if e.spanId == env.root && Speech(e.kind) then [Item(e.kind, e.payload.raw, e.usageIn, e.usageOut)] else []
  {
    hide Speech;
    assert (log + [e])[..|log|] == log;
  }

  lemma {:induction false} SaidVerdicts(env: Env, before: seq<Event>, log: seq<Event>, point: Point, ds: seq<Decision>)
    requires Recorded(env, before, log, point, ds)
    ensures Said(env, log) == Said(env, before)
  {
    if ds == [] {
      assert log == before;
    } else {
      var front, e := log[..|log| - 1], log[|log| - 1];
      assert front + [e] == log;
      assert IsVerdict(env, e, Verdict(point, ds[|ds| - 1]));
      FrontRecorded(env, before, log, point, ds);
      SaidVerdicts(env, before, front, point, ds[..|ds| - 1]);
    }
  }

  /** What became of a call of the model: when the hooks on it were asked, what the tool
      was asked to do, if it was, and the result that was recorded. */
  datatype Exchange = Exchange(call: ToolCall, tick: nat, made: Option<ToolCall>, result: string)

  /** The payload of an attempt; arguments left out are the empty object. */
  function Asked(env: Env, call: ToolCall): string {
    env.encodeCall(ToolCall.ToolCall(call.name, if call.args == "" then "{}" else call.args))
  }

  /** A rejected call is not made and its result is the first rejection; any other is
      made as the last rewrite says, or as it was, and its result is what the model
      gets to see of that very run. */
  ghost predicate Fair(env: Env, x: Exchange) {
    var ds := env.hooks(PreTool, x.tick);
    exists r :: Resolves(ds, Asked(env, x.call), r) &&
      match r
      case Rejected(reason) => x.made.None? && x.result == env.encodeOutcome(Refused(reason))
      case Goes(final, _) =>
        && x.made == env.decodeCall(final) && x.made.Some?
        && exists seen :: Sees(env, x.tick + 1 + |ds|, Some(seen)) && x.result == env.encodeOutcome(seen)
  }

  function SaidBy(env: Env, x: Exchange): seq<Item> {
    [Item(Kind.ToolCall, Asked(env, x.call), None, None), Item(ToolResult, x.result, None, None)]
  }

  function SaidByAll(env: Env, xs: seq<Exchange>): seq<Item> {
    if xs == [] then [] else SaidByAll(env, xs[..|xs| - 1]) + SaidBy(env, xs[|xs| - 1])
  }

  function MadeBy(xs: seq<Exchange>): seq<ToolCall> {
    if xs == [] then []
    else MadeBy(xs[..|xs| - 1]) + if xs[|xs| - 1].made.Some? then [xs[|xs| - 1].made.value] else []
  }

  /** Each call of the response was dealt with, in order. */
  ghost predicate Dealt(env: Env, calls: seq<ToolCall>, xs: seq<Exchange>) {
    |xs| == |calls| && forall i :: 0 <= i < |xs| ==> xs[i].call == calls[i] && Fair(env, xs[i])
  }

  function Reply(resp: Response): Item {
    Item(AssistantMessage, resp.text, Some(resp.usageIn), Some(resp.usageOut))
  }

  /** A step: what the model answered, what became of its calls, when the hooks on
      stopping were asked, if they were, and what they injected. */
  datatype StepRun = StepRun(tick: nat, response: Response, exchanges: seq<Exchange>, stop: Option<nat>, injected: Option<string>)

  ghost predicate Went(env: Env, st: StepRun) {
    && env.model(st.tick) == Some(st.response)
    && Dealt(env, st.response.calls, st.exchanges)
    && (st.stop.None? <==> st.response.calls != [])
    && (st.injected.Some? <==> st.stop.Some? && Injects(env.hooks(TurnStopping, st.stop.value)))
    && (st.injected.Some? ==> Resolves(env.hooks(TurnStopping, st.stop.value), "{}", Goes(st.injected.value, true)))
  }

  /** No hook rejects the end of the turn, and one gives another message. */
  predicate Injects(ds: seq<Decision>) {
    (forall d | d in ds :: !d.Reject?) && exists d | d in ds :: d.Rewrite?
  }

  /** After this step the turn goes on: the model asked for something, or a hook does not
      let it stop. */
  predicate GoesOn(env: Env, st: StepRun) {
    || st.response.calls != []
    || (st.stop.Some? && exists d | d in env.hooks(TurnStopping, st.stop.value) :: d.Reject? || d.Rewrite?)
  }

  function SaidInStep(env: Env, st: StepRun): seq<Item> {
    [Reply(st.response)] + SaidByAll(env, st.exchanges)
    + if st.injected.Some? then [Item(UserMessage, st.injected.value, None, None)] else []
  }

  function SaidInSteps(env: Env, sts: seq<StepRun>): seq<Item> {
    if sts == [] then [] else SaidInSteps(env, sts[..|sts| - 1]) + SaidInStep(env, sts[|sts| - 1])
  }

  /** A turn that ended well: it stopped after a step that had nothing more to do and that
      no hook kept going, or a hook refused the next step. */
  ghost predicate Concluded(env: Env, sts: seq<StepRun>, refused: Option<nat>) {
    && (forall i :: 0 <= i < |sts| ==> Went(env, sts[i]))
    && (forall i :: 0 <= i < |sts| - 1 ==> GoesOn(env, sts[i]))
    && match refused
       case None => sts != [] && !GoesOn(env, sts[|sts| - 1])
       case Some(n) => (sts != [] ==> GoesOn(env, sts[|sts| - 1])) && exists d :: d in env.hooks(PreStep, n) && d.Reject?
  }

  // ---------- when nothing goes wrong ----------

  /** Nothing outside fails: records are admitted, the model answers, hooks decide as
      they should, and what fits decodes. */
  ghost predicate Benign(env: Env) {
    && (forall n :: env.admits(n)) && (forall n :: env.model(n).Some?)
    && (forall point, n :: AllValid(env, point, env.hooks(point, n)))
    && (forall x :: env.fits(PreStep, x) ==> env.decodeRequest(x).Some?)
    && (forall x :: env.decodeRequest(env.encodeRequest(x)).Some?)
    && (forall x :: env.fits(PreTool, x) ==> env.decodeCall(x).Some?)
    && (forall x :: env.decodeCall(env.encodeCall(x)).Some?)
    && (forall x :: env.fits(PostTool, x) ==> env.decodeOutcome(x).Some?)
    && (forall x :: env.decodeOutcome(env.encodeOutcome(x)).Some?)
  }

  /** To continue, to rewrite to something that fits, or to reject for a reason. */
  ghost predicate AllValid(env: Env, point: Point, ds: seq<Decision>) {
    forall d :: d in ds ==>
      || d.Continue? || (d.Rewrite? && d.value != "" && env.fits(point, d.value)) || (d.Reject? && d.reason != "")
  }

  lemma ValidEach(env: Env, point: Point, ds: seq<Decision>)
    ensures AllValid(env, point, ds) <==> forall j :: 0 <= j < |ds| ==> Valid(env, point, ds[j])
  {
    if forall j :: 0 <= j < |ds| ==> Valid(env, point, ds[j]) {
      forall d | d in ds ensures Valid(env, point, d) {
      }
    }
  }

  lemma BenignAdmits(env: Env, n: nat)
    ensures Benign(env) ==> env.admits(n) && env.model(n).Some?
  {
  }

  /** What valid decisions lead to is the original, or fits. */
  lemma GoesFits(env: Env, point: Point, ds: seq<Decision>, original: string, r: Resolution)
    requires AllValid(env, point, ds) && Resolves(ds, original, r) && r.Goes?
    ensures r.final == original || env.fits(point, r.final)
  {
    if r.rewrote {
      RewriteFits(env, point, ds, original, r);
    }
  }

  lemma RewriteFits(env: Env, point: Point, ds: seq<Decision>, original: string, r: Resolution)
    requires AllValid(env, point, ds) && Resolves(ds, original, r) && r.Goes? && r.rewrote
    ensures env.fits(point, r.final)
  {
    var i :| 0 <= i < |ds| && ds[i] == Rewrite(r.final);
    assert ds[i] in ds && Valid(env, point, ds[i]);
  }

  // ---------- the loop ----------

  class Loop {
    const env: Env
    var log: seq<Event>
    /** What the model was given, call by call. */
    var requests: seq<Option<Request>>
    /** What the tools were asked to do, call by call. */
    var invoked: seq<ToolCall>
    /** How often the outside was consulted. */
    var ticks: nat

    /** The log's boundaries nest up to here, and the requests are those it tells. */
    ghost predicate Stands(p: Place)
      reads this
    {
      Sane(env) && Scan(env, log) == Some(p) && requests == RequestsOf(env, log)
    }

    constructor (env: Env, log: seq<Event>)
      requires Sane(env) && Scan(env, log) == Some(Outside)
      ensures this.env == env && this.log == log && Stands(Outside)
    {
      this.env := env;
      this.log := log;
      requests, invoked := RequestsOf(env, log), [];
      ticks := 0;
    }

    /** A record of the loop's own span. */
    predicate Is(e: Event, kind: Kind) {
      e.kind == kind && e.spanId == env.root
    }

    function Record(kind: Kind, payload: string, usageIn: Option<int>, usageOut: Option<int>): (e: Event)
      reads this
      ensures e.kind == kind && e.spanId == env.root && e.payload.raw == payload
    {
      Event(|log| + 1, env.now(ticks), env.traceId, env.root, kind, "parent", Payload(payload, None), usageIn, usageOut)
    }

    method Emit(kind: Kind, payload: string, usageIn: Option<int>, usageOut: Option<int>) returns (ok: bool)
      modifies `log, `ticks
      ensures log == old(log) + if ok then [old(Record(kind, payload, usageIn, usageOut))] else []
      ensures ticks == old(ticks) + 1 && ok == env.admits(old(ticks))
    {
      ok := env.admits(ticks);
      if ok {
        log := log + [Record(kind, payload, usageIn, usageOut)];
      }
      ticks := ticks + 1;
    }

    method EmitBoundary(kind: Kind)
      modifies `log, `ticks
      ensures log == old(log) + [old(Record(kind, "{}", None, None))]
    {
      log := log + [Record(kind, "{}", None, None)];
      ticks := ticks + 1;
    }

    /** A record that is no boundary. */
    method Note(kind: Kind, payload: string, usageIn: Option<int>, usageOut: Option<int>, ghost p: Place) returns (ok: bool)
      requires Stands(p) && kind != TurnStart && kind != TurnEnd && kind != StepStart && kind != StepEnd
      modifies `log, `ticks
      ensures Stands(p) && old(log) <= log && ticks == old(ticks) + 1 && ok == env.admits(old(ticks))
      ensures ok ==> log == old(log) + [old(Record(kind, payload, usageIn, usageOut))]
      ensures ok ==>
        Said(env, log) == Said(env, old(log)) + (if Speech(kind) then [Item(kind, payload, usageIn, usageOut)] else [])
    {
      hide Scan, RequestsOf, Said, Speech;
      ghost var before, e := log, Record(kind, payload, usageIn, usageOut);
      ok := Emit(kind, payload, usageIn, usageOut);
      if ok {
        InnerRecord(env, before, e);
        SaidSnoc(env, before, e);
      } else {
        assert log == before;
      }
    }

    method AppendForeign(es: seq<Event>, ghost p: Place)
      requires Stands(p) && forall e :: e in es ==> e.spanId != env.root
      modifies `log
      ensures Stands(p) && old(log) <= log && Said(env, log) == Said(env, old(log))
    {
      hide Scan, RequestsOf, Said;
      for i := 0 to |es|
        invariant Stands(p) && old(log) <= log && Said(env, log) == Said(env, old(log))
      {
        ghost var before := log;
        var e := es[i].(seqNo := |log| + 1);
        assert es[i] in es;
        log := log + [e];
        InnerRecord(env, before, e);
        SaidSnoc(env, before, e);
      }
    }

    /** All decisions are checked before any is recorded, so a bad one leaves no
        record. In the absence of an error every verdict is in the log and the
        decisions are resolved; a pre_step verdict changes the log's next request
        exactly as the resolution says. */
    method RunHooks(point: Point, payload: string, ghost p: Place) returns (r: Option<Resolution>)
      requires Stands(p)
      modifies `log, `ticks
      ensures Stands(p) && old(log) <= log
      ensures !AllValid(env, point, old(env.hooks(point, ticks))) ==> r.None? && log == old(log)
      ensures r.Some? ==>
        && r.value == Resolve(old(env.hooks(point, ticks)), payload)
        && Resolves(old(env.hooks(point, ticks)), payload, r.value)
        && Said(env, log) == Said(env, old(log))
        && Recorded(env, old(log), log, point, old(env.hooks(point, ticks)))
        && ticks == old(ticks) + 1 + |old(env.hooks(point, ticks))|
      ensures Benign(env) ==> r.Some? && AllValid(env, point, old(env.hooks(point, ticks)))
    {
      hide Scan, RequestsOf, Valid, Recorded, Resolve, Resolves, Said, AllValid;
      var ds := env.hooks(point, ticks);
      assert Benign(env) ==> AllValid(env, point, ds);
      ValidEach(env, point, ds);
      ticks := ticks + 1;
      for i := 0 to |ds|
        invariant forall j :: 0 <= j < i ==> Valid(env, point, ds[j])
      {
        if !Valid(env, point, ds[i]) {
          return None;
        }
      }
      var ok := RecordVerdicts(point, ds, p);
      if !ok {
        return None;
      }
      SaidVerdicts(env, old(log), log, point, ds);
      var res := ResolveDecisions(ds, payload);
      return Some(res);
    }

    method RecordVerdicts(point: Point, ds: seq<Decision>, ghost p: Place) returns (ok: bool)
      requires Stands(p)
      modifies `log, `ticks
      ensures Stands(p) && old(log) <= log
      ensures ok ==> Recorded(env, old(log), log, point, ds) && ticks == old(ticks) + |ds|
      ensures (forall n :: env.admits(n)) ==> ok
    {
      hide Scan, RequestsOf, Recorded;
      NothingRecorded(env, log, point, ds[..0]);
      for i := 0 to |ds|
        invariant Stands(p) && old(log) <= log
        invariant Recorded(env, old(log), log, point, ds[..i]) && ticks == old(ticks) + i
      {
        ghost var before, e := log, Record(HookVerdict, env.encodeVerdict(Verdict(point, ds[i])), None, None);
        var noted := Note(HookVerdict, env.encodeVerdict(Verdict(point, ds[i])), None, None, p);
        if !noted {
          return false;
        }
        RecordedSnoc(env, old(log), before, point, ds, i, e);
      }
      assert ds[..|ds|] == ds;
      return true;
    }

    method NoteResult(outcome: ToolOutcome, ghost p: Place) returns (ok: bool)
      requires Stands(p)
      modifies `log, `ticks
      ensures Stands(p) && old(log) <= log
      ensures ok ==>
        && |log| == |old(log)| + 1 && Is(log[|log| - 1], ToolResult)
        && Said(env, log) == Said(env, old(log)) + [Item(ToolResult, env.encodeOutcome(outcome), None, None)]
      ensures Benign(env) ==> ok
    {
      hide Scan, RequestsOf, Said;
      ok := Note(ToolResult, env.encodeOutcome(outcome), None, None, p);
    }

    method NoteReply(resp: Response, ghost p: Place) returns (ok: bool)
      requires Stands(p)
      modifies `log, `ticks
      ensures Stands(p) && old(log) <= log
      ensures ok ==> Said(env, log) == Said(env, old(log)) + [Reply(resp)]
      ensures Benign(env) ==> ok
    {
      hide Scan, RequestsOf, Said;
      ok := Note(AssistantMessage, resp.text, Some(resp.usageIn), Some(resp.usageOut), p);
    }

    /** A tool call: the attempt is recorded first, and then one result unless a
        record is refused or a hook misbehaves. What the tool is asked to do, if it
        is asked, is what the log tells by then; a rejected call is not made. */
    method RunTool(call: ToolCall, ghost p: Place) returns (ok: bool, ghost x: Exchange)
      requires Stands(p)
      modifies `log, `ticks, `invoked
      ensures Stands(p) && old(log) <= log
      ensures invoked == old(invoked) || AskedFromLog(env, old(log), log, old(invoked), invoked)
      ensures ok ==>
        && x.call == call && x.tick == old(ticks) + 1 && Fair(env, x)
        && Said(env, log) == Said(env, old(log)) + SaidBy(env, x)
        && invoked == old(invoked) + (if x.made.Some? then [x.made.value] else [])
        && |log| >= |old(log)| + 2 && Is(log[|old(log)|], Kind.ToolCall) && Is(log[|log| - 1], ToolResult)
        && log[|old(log)|].payload.raw == (if call.args == "" then env.encodeCall(call.(args := "{}")) else env.encodeCall(call))
      ensures Benign(env) ==> ok
    {
      hide Scan, RequestsOf, CallFromLog, AskedFromLog, Resolves, Sees, Said, Asked, Fair, AllValid, Benign;
      ghost var ds := env.hooks(PreTool, ticks + 1);
      x := Exchange(call, ticks + 1, None, "");
      var pre := Attempt(call, p);
      if pre.None? {
        return false, x;
      }
      if pre.value.Rejected? {
        ok := NoteResult(Refused(pre.value.reason), p);
        x := x.(result := env.encodeOutcome(Refused(pre.value.reason)));
        FairRefusal(env, x, pre.value);
        assert invoked + [] == invoked;
        return;
      }
      var next := env.decodeCall(pre.value.final);
      if next.None? {
        if Benign(env) {
          CallDecodes(env, ds, call, pre.value);
          assert false;
        }
        return false, x;
      }
      ghost var asked := log;
      invoked := invoked + [next.value];
      ghost var seen;
      ok, seen := Invoke(p);
      NowAsked(env, old(log), asked, log, old(invoked), next.value);
      x := x.(made := next, result := env.encodeOutcome(seen));
      if ok {
        FairRun(env, x, pre.value, seen);
      }
    }

    /** The attempt and what the hooks make of it. */
    method Attempt(call: ToolCall, ghost p: Place) returns (r: Option<Resolution>)
      requires Stands(p)
      modifies `log, `ticks
      ensures Stands(p) && old(log) <= log
      ensures r.Some? ==>
        var ds := old(env.hooks(PreTool, ticks + 1));
        && |log| > |old(log)| && Is(log[|old(log)|], Kind.ToolCall)
        && log[|old(log)|].payload.raw == (if call.args == "" then env.encodeCall(call.(args := "{}")) else env.encodeCall(call))
        && Said(env, log) == Said(env, old(log)) + [Item(Kind.ToolCall, Asked(env, call), None, None)]
        && Resolves(ds, Asked(env, call), r.value)
        && ticks == old(ticks) + 2 + |ds|
      ensures r.Some? && r.value.Goes? ==> CallFromLog(env, log) == env.decodeCall(r.value.final)
      ensures Benign(env) ==> r.Some? && AllValid(env, PreTool, old(env.hooks(PreTool, ticks + 1)))
    {
      hide Scan, RequestsOf, Recorded, CallFromLog, Resolve, Resolves, Said, AllValid;
      var payload := env.encodeCall(if call.args == "" then call.(args := "{}") else call);
      ghost var start := log;
      var ok := Note(Kind.ToolCall, payload, None, None, p);
      if !ok {
        return None;
      }
      ghost var attempt, ds := log, env.hooks(PreTool, ticks);
      r := RunHooks(PreTool, payload, p);
      if r.Some? && r.value.Goes? {
        CallTold(env, start, attempt, log, ds, payload);
      }
    }

    /** The tool itself, and what becomes of its output. */
    method Invoke(ghost p: Place) returns (ok: bool, ghost seen: ToolOutcome)
      requires Stands(p)
      modifies `log, `ticks
      ensures Stands(p) && old(log) <= log
      ensures ok ==>
        && |log| > |old(log)| && Is(log[|log| - 1], ToolResult)
        && Sees(env, old(ticks), Some(seen))
        && Said(env, log) == Said(env, old(log)) + [Item(ToolResult, env.encodeOutcome(seen), None, None)]
      ensures Benign(env) ==> ok
    {
      hide Scan, RequestsOf, Recorded, Resolve, Resolves, Said, AllValid, Sees, Benign;
      var run := env.tool(ticks);
      ticks := ticks + 1;
      AppendForeign(run.foreign, p);
      seen := Errored("");
      if run.end.Raised? {
        seen := Errored(run.end.error);
        SeesError(env, old(ticks));
        ok := NoteResult(Errored(run.end.error), p);
        return;
      }
      var post := RunHooks(PostTool, env.encodeOutcome(Succeeded(env.normalized(run.end.output))), p);
      if post.None? {
        return false, seen;
      }
      SeesOutput(env, old(ticks), post.value);
      if post.value.Rejected? {
        seen := Refused(post.value.reason);
        ok := NoteResult(Refused(post.value.reason), p);
        return;
      }
      var final := env.decodeOutcome(post.value.final);
      if final.None? {
        if Benign(env) {
          OutcomeDecodes(env, env.hooks(PostTool, old(ticks) + 1), Succeeded(env.normalized(run.end.output)), post.value);
          assert false;
        }
        return false, seen;
      }
      seen := final.value;
      ok := NoteResult(final.value, p);
    }

    /** A step: whatever happens inside, it ends, and the model was given exactly what the
        log told. Without an error its conversation is the model's answer and then each
        of its calls with its result, in order. */
    method RunStep(req: Request, ghost k: nat) returns (ok: bool, calls: nat, ghost resp: Response, ghost xs: seq<Exchange>)
      requires Stands(InTurn(k)) && k < env.maxSteps && FromLog(env, log) == Some(req)
      modifies this
      ensures old(log) <= log
      ensures if log == old(log) then Stands(InTurn(k)) && requests == old(requests) else Stands(InTurn(k + 1))
      ensures log != old(log) ==> requests == old(requests) + [Some(req)]
      ensures log != old(log) ==> Is(log[|old(log)|], StepStart) && Is(log[|log| - 1], StepEnd)
      ensures ok ==>
        && log != old(log) && ToldAt(env, PreStep, log) == Plain(log)
        && env.model(old(ticks) + 1) == Some(resp) && calls == |resp.calls| && Dealt(env, resp.calls, xs)
        && Said(env, log) == Said(env, old(log)) + ([Reply(resp)] + SaidByAll(env, xs))
        && invoked == old(invoked) + MadeBy(xs)
      ensures Benign(env) ==> ok
    {
      hide Scan, RequestsOf, ToldAt, Said, Dealt, SaidByAll, MadeBy, FromLog, Reply;
      ghost var before, e := log, Record(StepStart, "{}", None, None);
      ok := Emit(StepStart, "{}", None, None);
      calls, resp, xs := 0, Response("", 0, 0, []), [];
      if !ok {
        assert log == before;
        return;
      }
      StepOpens(env, before, e, k);
      requests := requests + [Some(req)];
      ok, calls, resp, xs := StepBody(k + 1);
      ghost var body, last := log, Record(StepEnd, "{}", None, None);
      EmitBoundary(StepEnd);
      StepCloses(env, body, last, k + 1);
    }

    method StepBody(ghost k: nat) returns (ok: bool, calls: nat, ghost resp: Response, ghost xs: seq<Exchange>)
      requires Stands(InStep(k))
      modifies `log, `ticks, `invoked
      ensures Stands(InStep(k)) && old(log) <= log
      ensures ok ==>
        && env.model(old(ticks)) == Some(resp) && calls == |resp.calls| && Dealt(env, resp.calls, xs)
        && Said(env, log) == Said(env, old(log)) + ([Reply(resp)] + SaidByAll(env, xs))
        && invoked == old(invoked) + MadeBy(xs)
      ensures Benign(env) ==> ok
    {
      hide Scan, RequestsOf, Said, Dealt, SaidByAll, MadeBy, Benign, Reply;
      BenignAdmits(env, ticks);
      var got := env.model(ticks);
      ticks := ticks + 1;
      calls, resp, xs := 0, Response("", 0, 0, []), [];
      if got.None? {
        return false, 0, resp, xs;
      }
      resp := got.value;
      ok := NoteReply(got.value, InStep(k));
      if !ok {
        return;
      }
      ok, xs := RunCalls(got.value.calls, k);
      calls := if ok then |got.value.calls| else 0;
    }

    method RunCalls(calls: seq<ToolCall>, ghost k: nat) returns (ok: bool, ghost xs: seq<Exchange>)
      requires Stands(InStep(k))
      modifies `log, `ticks, `invoked
      ensures Stands(InStep(k)) && old(log) <= log
      ensures ok ==>
        && Dealt(env, calls, xs) && Said(env, log) == Said(env, old(log)) + SaidByAll(env, xs)
        && invoked == old(invoked) + MadeBy(xs)
      ensures Benign(env) ==> ok
    {
      hide Scan, RequestsOf, Said, Fair, SaidBy, AskedFromLog, Dealt, SaidByAll, MadeBy;
      xs := [];
      NoneDealt(env, calls);
      assert Said(env, log) + [] == Said(env, log) && invoked + [] == invoked;
      for i := 0 to |calls|
        invariant Stands(InStep(k)) && old(log) <= log && Dealt(env, calls[..i], xs)
        invariant Said(env, log) == Said(env, old(log)) + SaidByAll(env, xs)
        invariant invoked == old(invoked) + MadeBy(xs)
      {
        ghost var x;
        ok, x := RunTool(calls[i], InStep(k));
        if !ok {
          return;
        }
        OneDealt(env, calls, xs, i, x);
        xs := xs + [x];
      }
      assert calls[..|calls|] == calls;
      return true, xs;
    }

    /** One turn. Whatever the model, the tools and the hooks do, its boundaries
        nest, it has at most maxSteps steps, and every request the model was given
        is the one the log tells. Without an error its conversation is the input and then
        that of its steps, which go on exactly as long as there is a reason to. */
    method RunTurn(input: string) returns (ok: bool, ghost steps: seq<StepRun>, ghost refused: Option<nat>)
      requires Stands(Outside)
      modifies this
      ensures Stands(Outside) && old(log) <= log
      ensures log != old(log) ==>
        |log| >= |old(log)| + 2 && Is(log[|old(log)|], TurnStart) && Is(log[|log| - 1], TurnEnd)
      ensures ok ==>
        && |log| > |old(log)| + 2 && Is(log[|old(log)| + 1], UserMessage) && log[|old(log)| + 1].payload.raw == input
        && Concluded(env, steps, refused) && |requests| == |old(requests)| + |steps|
        && Said(env, log) == Said(env, old(log)) + ([Item(UserMessage, input, None, None)] + SaidInSteps(env, steps))
      ensures Benign(env) && !ok ==> |steps| == env.maxSteps || (log != [] && Projection(log[..|log| - 1]).None?)
    {
      hide Scan, RequestsOf, ToldAt, Said, Concluded, SaidInSteps, Projection, Benign;
      assert Benign(env) ==> env.admits(ticks) by { BenignAdmits(env, ticks); }
      steps, refused := [], None;
      ghost var before, e := log, Record(TurnStart, "{}", None, None);
      ok := Emit(TurnStart, "{}", None, None);
      if !ok {
        assert log == before;
        return;
      }
      TurnOpens(env, before, e);
      ghost var k;
      ok, k, steps, refused := TurnBody(input);
      ghost var body, last := log, Record(TurnEnd, "{}", None, None);
      EmitBoundary(TurnEnd);
      assert log[..|log| - 1] == body;
      TurnCloses(env, body, last, k);
    }

    /** The steps so far, all with a reason to go on. */
    ghost predicate Going(sts: seq<StepRun>) {
      forall i :: 0 <= i < |sts| ==> Went(env, sts[i]) && GoesOn(env, sts[i])
    }

    method TurnBody(input: string) returns (ok: bool, ghost k: nat, ghost sts: seq<StepRun>, ghost refused: Option<nat>)
      requires Stands(InTurn(0))
      modifies this
      ensures Stands(InTurn(k)) && old(log) <= log
      ensures ok ==>
        && |log| > |old(log)| && Is(log[|old(log)|], UserMessage) && log[|old(log)|].payload.raw == input
        && Concluded(env, sts, refused) && |requests| == |old(requests)| + |sts|
        && Said(env, log) == Said(env, old(log)) + ([Item(UserMessage, input, None, None)] + SaidInSteps(env, sts))
      ensures Benign(env) && !ok ==> |sts| == env.maxSteps || Projection(log).None?
    {
      hide Scan, RequestsOf, ToldAt, FromLog, Said, Went, GoesOn, SaidInStep, Projection, Benign;
      k, sts, refused := 0, [], None;
      ok := Talk(input, k);
      if !ok {
        return;
      }
      var steps := 0;
      while steps < env.maxSteps
        invariant Stands(InTurn(steps)) && steps <= env.maxSteps && ToldAt(env, PreStep, log) == Plain(log)
        invariant |old(log)| < |log| && old(log) <= log
        invariant Is(log[|old(log)|], UserMessage) && log[|old(log)|].payload.raw == input
        invariant |sts| == steps && Going(sts) && |requests| == |old(requests)| + |sts| && refused.None?
        invariant Said(env, log) == Said(env, old(log)) + ([Item(UserMessage, input, None, None)] + SaidInSteps(env, sts))
      {
        k := steps;
        ghost var n := ticks;
        var next := PrepareStep(k);
        if next.None? {
          return false, k, sts, refused;
        }
        if next.value.None? {
          return true, k, sts, Some(n);
        }
        var more;
        ghost var st;
        more, k, st := StepAndStop(next.value.value, k);
        if more.None? {
          return false, k, sts, refused;
        }
        steps := steps + 1;
        StepAdded(env, sts, st);
        sts := sts + [st];
        if !more.value {
          return true, k, sts, None;
        }
      }
      return false, steps, sts, refused;
    }

    /** A step, and after one without calls the question whether to stop: whether the turn
        goes on, or None on an error. */
    method StepAndStop(req: Request, ghost k: nat) returns (r: Option<bool>, ghost k': nat, ghost st: StepRun)
      requires Stands(InTurn(k)) && k < env.maxSteps && FromLog(env, log) == Some(req)
      modifies this
      ensures old(log) <= log && Stands(InTurn(k'))
      ensures r.Some? ==>
        && k' == k + 1 && Went(env, st) && (GoesOn(env, st) <==> r.value)
        && Said(env, log) == Said(env, old(log)) + SaidInStep(env, st)
        && |requests| == |old(requests)| + 1
      ensures r == Some(true) ==> ToldAt(env, PreStep, log) == Plain(log)
      ensures Benign(env) ==> r.Some?
    {
      hide Scan, RequestsOf, ToldAt, FromLog, Said, Went, GoesOn, SaidInStep, Dealt, SaidByAll, Injects, Resolves, Benign;
      st := StepRun(ticks + 1, Response("", 0, 0, []), [], None, None);
      var ok, calls;
      ghost var resp, xs;
      ok, calls, resp, xs := RunStep(req, k);
      if !ok {
        return None, if log == old(log) then k else k + 1, st;
      }
      k' := k + 1;
      st := st.(response := resp, exchanges := xs);
      if calls > 0 {
        WentOn(env, st);
        return Some(true), k', st;
      }
      st := st.(stop := Some(ticks));
      ghost var injected;
      r, injected := Stopping(k');
      if r.Some? {
        st := st.(injected := injected);
        WentToStop(env, st, r.value);
      }
    }

    method Talk(text: string, ghost k: nat) returns (ok: bool)
      requires Stands(InTurn(k))
      modifies `log, `ticks
      ensures Stands(InTurn(k)) && old(log) <= log && (ok ==> ToldAt(env, PreStep, log) == Plain(log))
      ensures ok ==> log == old(log) + [old(Record(UserMessage, text, None, None))]
      ensures ok ==> Said(env, log) == Said(env, old(log)) + [Item(UserMessage, text, None, None)]
      ensures Benign(env) ==> ok
    {
      hide Scan, RequestsOf, ToldAt, Said;
      ghost var before, e := log, Record(UserMessage, text, None, None);
      ok := Note(UserMessage, text, None, None, InTurn(k));
      if ok {
        OtherRecord(env, PreStep, before, e);
      }
    }

    /** The next request: None on an error, Some(None) if a hook rejects the step. */
    method PrepareStep(ghost k: nat) returns (r: Option<Option<Request>>)
      requires Stands(InTurn(k)) && ToldAt(env, PreStep, log) == Plain(log)
      modifies `log, `ticks
      ensures Stands(InTurn(k)) && old(log) <= log
      ensures r.Some? && r.value.Some? ==> FromLog(env, log) == r.value
      ensures r.Some? ==>
        && Said(env, log) == Said(env, old(log))
        && (r.value.None? <==> exists d :: d in old(env.hooks(PreStep, ticks)) && d.Reject?)
      ensures Benign(env) && r.None? ==> log == old(log) && Projection(log).None?
    {
      hide Scan, RequestsOf, ToldAt, Projection, Recorded, Said, AllValid;
      var state := Projection(log);
      if state.None? {
        return None;
      }
      var payload := env.encodeRequest(state.value.messages);
      ghost var before, ds := log, env.hooks(PreStep, ticks);
      var res := RunHooks(PreStep, payload, InTurn(k));
      if res.None? {
        return None;
      }
      if res.value.Rejected? {
        return Some(None);
      }
      var next := env.decodeRequest(res.value.final);
      if next.None? {
        if Benign(env) {
          GoesFits(env, PreStep, ds, payload, res.value);
        }
        return None;
      }
      VerdictsTell(env, before, log, PreStep, ds, payload);
      return Some(next);
    }

    /** Whether the turn goes on after a step without tool calls, None on an error: it
        does exactly if some hook rejects or rewrites; the last rewrite, unless there
        is a rejection, is recorded as a user's message. */
    method Stopping(ghost k: nat) returns (r: Option<bool>, ghost injected: Option<string>)
      requires Stands(InTurn(k)) && ToldAt(env, PreStep, log) == Plain(log)
      modifies `log, `ticks
      ensures Stands(InTurn(k)) && old(log) <= log && (r == Some(true) ==> ToldAt(env, PreStep, log) == Plain(log))
      ensures r.Some? ==>
        var ds := old(env.hooks(TurnStopping, ticks));
        && (r.value <==> exists d :: d in ds && (d.Reject? || d.Rewrite?))
        && (injected.Some? <==> Injects(ds))
        && (injected.Some? ==> Resolves(ds, "{}", Goes(injected.value, true)))
        && Said(env, log) == Said(env, old(log)) + (if injected.Some? then [Item(UserMessage, injected.value, None, None)] else [])
      ensures Benign(env) ==> r.Some?
    {
      hide Scan, RequestsOf, Recorded, Resolve, LastRewrite, ToldAt, Said, AllValid;
      injected := None;
      ghost var before, ds := log, env.hooks(TurnStopping, ticks);
      var res := RunHooks(TurnStopping, "{}", InTurn(k));
      if res.None? {
        return None, None;
      }
      OtherVerdicts(env, before, log, TurnStopping, ds);
      assert Said(env, log) + [] == Said(env, log);
      if res.value.Goes? && !res.value.rewrote {
        return Some(false), None;
      }
      if res.value.Goes? {
        if !env.fits(TurnStopping, res.value.final) {
          if Benign(env) {
            RewriteFits(env, TurnStopping, ds, "{}", res.value);
          }
          return None, None;
        }
        var ok := Talk(res.value.final, k);
        if !ok {
          return None, None;
        }
        injected := Some(res.value.final);
      }
      return Some(true), injected;
    }
  }

  lemma TurnOpens(env: Env, log: seq<Event>, e: Event)
    requires Scan(env, log) == Some(Outside) && e.kind == TurnStart && e.spanId == env.root
    ensures Scan(env, log + [e]) == Some(InTurn(0)) && Said(env, log + [e]) == Said(env, log)
    ensures RequestsOf(env, log + [e]) == RequestsOf(env, log)
  {
    hide Scan, RequestsOf, Said;
    ScanSnoc(env, log, e);
    RequestsSnoc(env, log, e);
    SaidSnoc(env, log, e);
  }

  lemma TurnCloses(env: Env, log: seq<Event>, e: Event, k: nat)
    requires Scan(env, log) == Some(InTurn(k)) && e.kind == TurnEnd && e.spanId == env.root
    ensures Scan(env, log + [e]) == Some(Outside) && Said(env, log + [e]) == Said(env, log)
    ensures RequestsOf(env, log + [e]) == RequestsOf(env, log)
  {
    hide Scan, RequestsOf, Said;
    ScanSnoc(env, log, e);
    RequestsSnoc(env, log, e);
    SaidSnoc(env, log, e);
  }

  lemma StepOpens(env: Env, log: seq<Event>, e: Event, k: nat)
    requires Scan(env, log) == Some(InTurn(k)) && k < env.maxSteps && e.kind == StepStart && e.spanId == env.root
    ensures Scan(env, log + [e]) == Some(InStep(k + 1)) && Said(env, log + [e]) == Said(env, log)
    ensures RequestsOf(env, log + [e]) == RequestsOf(env, log) + [FromLog(env, log)]
  {
    hide Scan, RequestsOf, Said;
    ScanSnoc(env, log, e);
    RequestsSnoc(env, log, e);
    SaidSnoc(env, log, e);
  }

  lemma StepCloses(env: Env, log: seq<Event>, e: Event, k: nat)
    requires Scan(env, log) == Some(InStep(k)) && e.kind == StepEnd && e.spanId == env.root
    ensures Scan(env, log + [e]) == Some(InTurn(k)) && Said(env, log + [e]) == Said(env, log)
    ensures RequestsOf(env, log + [e]) == RequestsOf(env, log) && ToldAt(env, PreStep, log + [e]) == Plain(log + [e])
  {
    hide Scan, RequestsOf, Said, ToldAt;
    ScanSnoc(env, log, e);
    RequestsSnoc(env, log, e);
    SaidSnoc(env, log, e);
    OtherRecord(env, PreStep, log, e);
  }

  lemma CallDecodes(env: Env, ds: seq<Decision>, call: ToolCall, r: Resolution)
    requires Benign(env) && AllValid(env, PreTool, ds) && Resolves(ds, Asked(env, call), r) && r.Goes?
    ensures env.decodeCall(r.final).Some?
  {
    hide AllValid, Resolves;
    GoesFits(env, PreTool, ds, Asked(env, call), r);
  }

  lemma OutcomeDecodes(env: Env, ds: seq<Decision>, outcome: ToolOutcome, r: Resolution)
    requires Benign(env) && AllValid(env, PostTool, ds) && Resolves(ds, env.encodeOutcome(outcome), r) && r.Goes?
    ensures env.decodeOutcome(r.final).Some?
  {
    hide AllValid, Resolves;
    GoesFits(env, PostTool, ds, env.encodeOutcome(outcome), r);
  }

  lemma SeesError(env: Env, n: nat)
    requires env.tool(n).end.Raised?
    ensures Sees(env, n, Some(Errored(env.tool(n).end.error)))
  {
  }

  lemma SeesOutput(env: Env, n: nat, x: Resolution)
    requires env.tool(n).end.Returned?
    requires Resolves(env.hooks(PostTool, n + 1), env.encodeOutcome(Succeeded(env.normalized(env.tool(n).end.output))), x)
    ensures Sees(env, n, Passed(env, x))
  {
    hide Resolves, Passed;
  }

  lemma FairRefusal(env: Env, x: Exchange, r: Resolution)
    requires Resolves(env.hooks(PreTool, x.tick), Asked(env, x.call), r) && r.Rejected?
    requires x.made.None? && x.result == env.encodeOutcome(Refused(r.reason))
    ensures Fair(env, x)
  {
    hide Resolves, Asked;
  }

  lemma FairRun(env: Env, x: Exchange, r: Resolution, seen: ToolOutcome)
    requires Resolves(env.hooks(PreTool, x.tick), Asked(env, x.call), r) && r.Goes?
    requires x.made == env.decodeCall(r.final) && x.made.Some? && x.result == env.encodeOutcome(seen)
    requires Sees(env, x.tick + 1 + |env.hooks(PreTool, x.tick)|, Some(seen))
    ensures Fair(env, x)
  {
    hide Resolves, Asked, Sees;
  }

  lemma WentOn(env: Env, st: StepRun)
    requires env.model(st.tick) == Some(st.response) && Dealt(env, st.response.calls, st.exchanges)
    requires st.response.calls != [] && st.stop.None? && st.injected.None?
    ensures Went(env, st) && GoesOn(env, st)
    ensures SaidInStep(env, st) == [Reply(st.response)] + SaidByAll(env, st.exchanges)
  {
    hide Dealt;
  }

  lemma WentToStop(env: Env, st: StepRun, more: bool)
    requires env.model(st.tick) == Some(st.response) && Dealt(env, st.response.calls, st.exchanges)
    requires st.response.calls == [] && st.stop.Some?
    requires
      var ds := env.hooks(TurnStopping, st.stop.value);
      && (more <==> exists d :: d in ds && (d.Reject? || d.Rewrite?))
      && (st.injected.Some? <==> Injects(ds))
      && (st.injected.Some? ==> Resolves(ds, "{}", Goes(st.injected.value, true)))
    ensures Went(env, st) && (GoesOn(env, st) <==> more)
    ensures SaidInStep(env, st) == [Reply(st.response)] + SaidByAll(env, st.exchanges)
      + if st.injected.Some? then [Item(UserMessage, st.injected.value, None, None)] else []
  {
    hide Dealt, Resolves, Injects;
  }

  lemma NoneDealt(env: Env, calls: seq<ToolCall>)
    ensures Dealt(env, calls[..0], []) && SaidByAll(env, []) == [] && MadeBy([]) == []
  {
  }

  lemma OneDealt(env: Env, calls: seq<ToolCall>, xs: seq<Exchange>, i: nat, x: Exchange)
    requires i < |calls| && Dealt(env, calls[..i], xs) && x.call == calls[i] && Fair(env, x)
    ensures Dealt(env, calls[..i + 1], xs + [x])
    ensures SaidByAll(env, xs + [x]) == SaidByAll(env, xs) + SaidBy(env, x)
    ensures MadeBy(xs + [x]) == MadeBy(xs) + if x.made.Some? then [x.made.value] else []
  {
    hide Fair, SaidBy;
    assert (xs + [x])[..|xs|] == xs;
  }

  lemma StepAdded(env: Env, sts: seq<StepRun>, st: StepRun)
    ensures SaidInSteps(env, sts + [st]) == SaidInSteps(env, sts) + SaidInStep(env, st)
  {
    hide SaidInStep;
    assert (sts + [st])[..|sts|] == sts;
  }

  lemma RejectsReject(ds: seq<Decision>, x: string)
    ensures Resolve(ds, x).Rejected? <==> exists d :: d in ds && d.Reject?
    ensures Resolve(ds, x) == if Resolve(ds, x).Rejected? then Rejected(FirstReject(ds)) else LastRewrite(ds, x)
  {
    if exists d :: d in ds && d.Reject? {
      var d :| d in ds && d.Reject?;
      var i :| 0 <= i < |ds| && ds[i] == d;
    }
    LastRewriteTells(ds, x);
  }

  /** After the attempt and its verdicts the log tells the call that is made. */
  lemma CallTold(env: Env, start: seq<Event>, attempt: seq<Event>, log: seq<Event>, ds: seq<Decision>, payload: string)
    requires |attempt| == |start| + 1 && attempt[..|start|] == start
    requires attempt[|start|].kind == Kind.ToolCall && attempt[|start|].spanId == env.root
    requires attempt[|start|].payload.raw == payload
    requires Recorded(env, attempt, log, PreTool, ds) && Resolve(ds, payload).Goes?
    ensures CallFromLog(env, log) == env.decodeCall(Resolve(ds, payload).final)
  {
    hide Recorded, ToldAt;
    VerdictsTell(env, attempt, log, PreTool, ds, payload);
    RejectsReject(ds, payload);
    hide Resolve, LastRewrite;
    OtherRecord(env, PreTool, start, attempt[|start|]);
    assert start + [attempt[|start|]] == attempt;
  }
}
