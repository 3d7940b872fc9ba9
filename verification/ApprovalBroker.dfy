/**
  The approval broker: hooks from the agent and intents from the adapter's stream
  meet in a ledger in either order. Each region that holds the broker's mutex,
  each channel operation and each relayed decision is one step. Request ids are
  fresh; the request rate limit, deadlines and failures of the wire are steps that
  may happen at any time.
*/
module ApprovalBroker {
  import opened Wrappers

  type RequestId = nat
  type CallId = string

  /** What hook and intent have to agree on. args is the canonical form. */
  datatype Tool = Tool(name: string, args: string)

  datatype Intent = Intent(tool: Tool, consumed: bool)

  datatype PreIntent = PreIntent(request: RequestId, tool: Tool)

  datatype Reason = Deadline | Duplicate | Mismatch

  datatype Phase = Refused | Staged | Queued | Taken | Relayed | Finished

  datatype Hook = Hook(call: CallId, tool: Tool, reason: Option<Reason>, phase: Phase)

  datatype Relay = Relay(request: RequestId, allow: bool)

  datatype Ledger = Ledger(intents: map<CallId, Intent>, preIntents: map<CallId, PreIntent>)

  datatype Flags = Flags(expired: bool, closing: bool, failed: bool, done: bool)

  /** all remembers every hook ever seen, hooks is the broker's table of pending ones,
      mismatched the calls whose intent came after the hook and contradicted it. */
  datatype State = State(
    ledger: Ledger, hooks: set<RequestId>, all: map<RequestId, Hook>, queue: seq<RequestId>,
    relays: seq<Relay>, flags: Flags, mismatched: set<CallId>)

  const INITIAL := State(Ledger(map[], map[]), {}, map[], [], [], Flags(false, false, false, false), {})

  datatype Label =
    | Admit(request: RequestId, call: CallId, tool: Tool, overRate: bool)
    | Enqueue(request: RequestId)
    | Register(call: CallId, tool: Tool)
    | Take | Decide(request: RequestId, allow: bool) | Complete(request: RequestId) | FailHook(request: RequestId)
    | Deny(request: RequestId)
    | Expire | Fail | Shutdown | CloseDone

  predicate In(s: State, r: RequestId, p: Phase) {
    r in s.all && s.all[r].phase == p
  }

  predicate Enabled(cap: nat, s: State, l: Label) {
    match l
    case Admit(r, _, _, _) => r !in s.all
    case Enqueue(r) => In(s, r, Staged)
    case Register(_, _) => true
    case Take => s.queue != [] && s.queue[0] in s.all
    case Decide(r, allow) => In(s, r, Taken) && (s.all[r].reason.Some? ==> !allow)
    case Complete(r) => In(s, r, Relayed)
    case FailHook(r) => In(s, r, Taken) || In(s, r, Relayed)
    case Deny(r) => r in s.all && (s.flags.done || s.all[r].phase == Refused)
    case Expire => true
    case Fail => true
    case Shutdown => true
    case CloseDone => s.flags.closing
  }

  /** What admission decides for a hook that found room: its forced reason, the
      new ledger, and whether the ledger was full. */
  datatype Verdict = Verdict(ledger: Ledger, reason: Option<Reason>, full: bool)

  function Size(g: Ledger): nat {
    |g.intents| + |g.preIntents|
  }

  function Classify(cap: nat, g: Ledger, expired: bool, r: RequestId, c: CallId, tool: Tool): Verdict {
    if expired then Verdict(g, Some(Deadline), false)
    else if c in g.intents then
      var i := g.intents[c];
      if i.tool != tool then Verdict(g, Some(Mismatch), false)
      else if i.consumed then Verdict(g, Some(Duplicate), false)
      else Verdict(g.(intents := g.intents[c := i.(consumed := true)]), None, false)
    else if c in g.preIntents then Verdict(g, Some(Duplicate), false)
    else if Size(g) >= cap then Verdict(g, None, true)
    else Verdict(g.(preIntents := g.preIntents[c := PreIntent(r, tool)]), None, false)
  }

  function Admission(cap: nat, s: State, r: RequestId, c: CallId, tool: Tool, overRate: bool): State {
    if s.flags.closing || overRate || |s.hooks| >= cap then
      s.(all := s.all[r := Hook(c, tool, None, Refused)])
    else
      var v := Classify(cap, s.ledger, s.flags.expired, r, c, tool);
      s.(ledger := v.ledger, hooks := s.hooks + {r},
         all := s.all[r := Hook(c, tool, v.reason, if v.full then Refused else Staged)])
  }

  datatype Registered = Registered(ledger: Ledger, mismatch: bool)

  function Registration(cap: nat, g: Ledger, flags: Flags, c: CallId, tool: Tool): Registered {
    if c in g.preIntents then
      var rest := g.(preIntents := g.preIntents - {c});
      if g.preIntents[c].tool != tool then Registered(rest, true)
      else if !flags.expired && !flags.closing then
        Registered(rest.(intents := g.intents[c := Intent(tool, true)]), false)
      else Registered(rest, false)
    else if flags.closing || flags.expired || c in g.intents || Size(g) >= cap then Registered(g, false)
    else Registered(g.(intents := g.intents[c := Intent(tool, false)]), false)
  }

  function Move(s: State, r: RequestId, p: Phase): State
    requires r in s.all
  {
    s.(all := s.all[r := s.all[r].(phase := p)])
  }

  function Apply(cap: nat, s: State, l: Label): State
    requires Enabled(cap, s, l)
  {
    match l
    case Admit(r, c, tool, overRate) => Admission(cap, s, r, c, tool, overRate)
    case Enqueue(r) =>
      if |s.queue| < cap then Move(s, r, Queued).(queue := s.queue + [r])
      else Move(s, r, Refused)
    case Register(c, tool) =>
      var g := Registration(cap, s.ledger, s.flags, c, tool);
      s.(ledger := g.ledger, mismatched := if g.mismatch then s.mismatched + {c} else s.mismatched)
    case Take => Move(s, s.queue[0], Taken).(queue := s.queue[1..])
    case Decide(r, allow) => Move(s, r, Relayed).(relays := s.relays + [Relay(r, allow)])
    case Complete(r) => Move(s, r, Finished).(hooks := s.hooks - {r})
    case FailHook(r) => Move(s, r, Finished).(hooks := s.hooks - {r})
    case Deny(r) => s.(hooks := s.hooks - {r})
    case Expire => s.(flags := s.flags.(expired := true))
    case Fail => s.(flags := s.flags.(failed := true, closing := true))
    case Shutdown => s.(flags := s.flags.(closing := true))
    case CloseDone => s.(flags := s.flags.(done := true))
  }

  function Exec(cap: nat, ls: seq<Label>): Option<State> {
    if ls == [] then Some(INITIAL)
    else
      var l := ls[|ls| - 1];
      match Exec(cap, ls[..|ls| - 1])
      case None => None
      case Some(s) => if Enabled(cap, s, l) then Some(Apply(cap, s, l)) else None
  }

  // ---------- the ledgers and the queue ----------

  ghost predicate LedgerFits(cap: nat, g: Ledger) {
    g.intents.Keys !! g.preIntents.Keys && Size(g) <= cap
  }

  predicate Pending(p: Phase) {
    p.Staged? || p.Queued? || p.Taken? || p.Relayed?
  }

  /** The queue holds each queued hook once. */
  ghost predicate QueueFits(s: State) {
    && (forall i :: 0 <= i < |s.queue| ==> In(s, s.queue[i], Queued))
    && (forall i, j :: 0 <= i < j < |s.queue| ==> s.queue[i] != s.queue[j])
  }

  /** Until done closes, every hook on its way is in the table. */
  ghost predicate TableFits(s: State) {
    && (s.flags.done ==> s.flags.closing)
    && (!s.flags.done ==> forall r :: r in s.all && Pending(s.all[r].phase) ==> r in s.hooks)
  }

  lemma ClassifyFits(cap: nat, g: Ledger, expired: bool, r: RequestId, c: CallId, tool: Tool)
    requires LedgerFits(cap, g)
    ensures LedgerFits(cap, Classify(cap, g, expired, r, c, tool).ledger)
  {
  }

  lemma RegisterFits(cap: nat, g: Ledger, flags: Flags, c: CallId, tool: Tool)
    requires LedgerFits(cap, g)
    ensures LedgerFits(cap, Registration(cap, g, flags, c, tool).ledger)
  {
    var rest := g.preIntents - {c};
    if c in g.preIntents {
      assert rest.Keys == g.preIntents.Keys - {c};
      assert |rest| == |rest.Keys| == |g.preIntents.Keys| - 1;
    }
  }

  lemma LedgerKept(cap: nat, s: State, l: Label)
    requires LedgerFits(cap, s.ledger) && Enabled(cap, s, l)
    ensures LedgerFits(cap, Apply(cap, s, l).ledger)
  {
    hide Classify, Registration, LedgerFits;
    if l.Admit? {
      ClassifyFits(cap, s.ledger, s.flags.expired, l.request, l.call, l.tool);
    } else if l.Register? {
      RegisterFits(cap, s.ledger, s.flags, l.call, l.tool);
    }
  }

  lemma QueueKept(cap: nat, s: State, l: Label)
    requires QueueFits(s) && Enabled(cap, s, l)
    ensures QueueFits(Apply(cap, s, l))
  {
    hide Classify, Registration;
    if l.Take? {
      TakeKeeps(cap, s);
    } else if l.Enqueue? {
      EnqueueKeeps(cap, s, l.request);
    }
  }

  lemma TakeKeeps(cap: nat, s: State)
    requires QueueFits(s) && Enabled(cap, s, Take)
    ensures QueueFits(Apply(cap, s, Take))
  {
  }

  lemma EnqueueKeeps(cap: nat, s: State, r: RequestId)
    requires QueueFits(s) && Enabled(cap, s, Enqueue(r))
    ensures QueueFits(Apply(cap, s, Enqueue(r)))
  {
  }

  lemma TableKept(cap: nat, s: State, l: Label)
    requires QueueFits(s) && TableFits(s) && Enabled(cap, s, l)
    ensures TableFits(Apply(cap, s, l))
  {
    hide Classify, Registration;
    if l.Take? {
      assert In(s, s.queue[0], Queued);
    }
  }

  lemma SizeKept(cap: nat, s: State, l: Label)
    requires |s.hooks| <= cap && Enabled(cap, s, l)
    ensures |Apply(cap, s, l).hooks| <= cap
  {
    hide Classify, Registration;
    if l.Admit? || l.Complete? || l.FailHook? || l.Deny? {
      Sizes(s.hooks, l.request);
    }
  }

  lemma Sizes(hooks: set<RequestId>, r: RequestId)
    ensures |hooks - {r}| <= |hooks| && |hooks + {r}| <= |hooks| + 1
  {
    if r in hooks {
      assert hooks + {r} == hooks;
    } else {
      assert hooks - {r} == hooks;
    }
  }

  // ---------- one free hook per call ----------

  /** A hook that is on its way, or through, without a forced deny. */
  predicate Free(s: State, r: RequestId, c: CallId) {
    r in s.all && s.all[r].call == c && s.all[r].reason.None? && s.all[r].phase != Refused
  }

  /** Why there can be no other free hook for the call. */
  ghost predicate Accounted(s: State, r: RequestId)
    requires r in s.all
  {
    var c, g := s.all[r].call, s.ledger;
    || (c in g.preIntents && g.preIntents[c] == PreIntent(r, s.all[r].tool))
    || (c in g.intents && g.intents[c] == Intent(s.all[r].tool, true))
    || (c !in g.preIntents && c !in g.intents && (s.flags.expired || s.flags.closing))
  }

  ghost predicate Unique(s: State, c: CallId) {
    && (forall r :: Free(s, r, c) ==> Accounted(s, r))
    && (forall r, q :: Free(s, r, c) && Free(s, q, c) ==> r == q)
  }

  lemma AdmitUnique(cap: nat, s: State, l: Label, c: CallId)
    requires LedgerFits(cap, s.ledger) && Unique(s, c) && l.Admit? && Enabled(cap, s, l)
    ensures Unique(Apply(cap, s, l), c)
  {
    var t := Apply(cap, s, l);
    forall r | Free(t, r, c) ensures Accounted(t, r) {
      if r != l.request {
        assert Free(s, r, c) && Accounted(s, r);
      }
    }
    if Free(t, l.request, c) {
      NoneBefore(cap, s, l);
    }
    forall r | Free(t, r, c) && r != l.request ensures Free(s, r, c) {
    }
  }

  /** A hook is admitted freely only if no other was. */
  lemma NoneBefore(cap: nat, s: State, l: Label)
    requires l.Admit? && LedgerFits(cap, s.ledger) && Unique(s, l.call) && Enabled(cap, s, l)
    requires Free(Apply(cap, s, l), l.request, l.call)
    ensures forall r :: !Free(s, r, l.call)
  {
    forall r ensures !(Free(s, r, l.call) && Accounted(s, r)) {
    }
  }

  lemma RegisterUnique(cap: nat, s: State, l: Label, c: CallId)
    requires LedgerFits(cap, s.ledger) && Unique(s, c) && l.Register? && c !in Apply(cap, s, l).mismatched
    ensures Unique(Apply(cap, s, l), c)
  {
    var t := Apply(cap, s, l);
    forall r | Free(t, r, c) ensures Free(s, r, c) && Accounted(t, r) {
      assert Free(s, r, c) && Accounted(s, r);
    }
  }

  lemma OthersUnique(cap: nat, s: State, l: Label, c: CallId)
    requires QueueFits(s) && Unique(s, c) && !l.Admit? && !l.Register? && Enabled(cap, s, l)
    ensures Unique(Apply(cap, s, l), c)
  {
    var t := Apply(cap, s, l);
    if l.Take? {
      assert In(s, s.queue[0], Queued);
    }
    forall r | Free(t, r, c) ensures Free(s, r, c) && Accounted(t, r) {
      assert Free(s, r, c) && Accounted(s, r);
    }
  }

  /** Each hook is relayed once, and with a forced reason only as a deny. */
  ghost predicate RelaysFit(s: State) {
    && (forall i :: 0 <= i < |s.relays| ==> RelayFits(s, s.relays[i]))
    && (forall i, j :: 0 <= i < j < |s.relays| ==> s.relays[i].request != s.relays[j].request)
  }

  predicate RelayFits(s: State, m: Relay) {
    && m.request in s.all
    && (s.all[m.request].phase == Relayed || s.all[m.request].phase == Finished)
    && (m.allow ==> s.all[m.request].reason.None?)
  }

  lemma RelaysKept(cap: nat, s: State, l: Label)
    requires QueueFits(s) && RelaysFit(s) && Enabled(cap, s, l)
    ensures RelaysFit(Apply(cap, s, l))
  {
    hide Classify, Registration;
    var t := Apply(cap, s, l);
    if l.Take? {
      assert In(s, s.queue[0], Queued);
    }
    forall i | 0 <= i < |s.relays| ensures RelayFits(t, s.relays[i]) {
      assert RelayFits(s, s.relays[i]);
    }
  }

  ghost predicate Inv(cap: nat, s: State) {
    && LedgerFits(cap, s.ledger) && QueueFits(s) && TableFits(s) && |s.hooks| <= cap && RelaysFit(s)
    && (forall c :: c !in s.mismatched ==> Unique(s, c))
  }

  lemma UniqueKept(cap: nat, s: State, l: Label, c: CallId)
    requires LedgerFits(cap, s.ledger) && QueueFits(s) && Enabled(cap, s, l)
    requires (c !in s.mismatched ==> Unique(s, c)) && c !in Apply(cap, s, l).mismatched
    ensures Unique(Apply(cap, s, l), c)
  {
    MismatchStays(cap, s, l);
    hide Unique;
    if l.Admit? {
      AdmitUnique(cap, s, l, c);
    } else if l.Register? {
      RegisterUnique(cap, s, l, c);
    } else {
      OthersUnique(cap, s, l, c);
    }
  }

  lemma MismatchStays(cap: nat, s: State, l: Label)
    requires Enabled(cap, s, l)
    ensures s.mismatched <= Apply(cap, s, l).mismatched
  {
  }

  lemma {:induction false} Reachable(cap: nat, ls: seq<Label>)
    requires Exec(cap, ls).Some?
    ensures Inv(cap, Exec(cap, ls).value)
  {
    if ls != [] {
      Reachable(cap, ls[..|ls| - 1]);
      var s, l := Exec(cap, ls[..|ls| - 1]).value, ls[|ls| - 1];
      hide Apply, Enabled, LedgerFits, QueueFits, TableFits, RelaysFit, Unique;
      LedgerKept(cap, s, l);
      QueueKept(cap, s, l);
      TableKept(cap, s, l);
      SizeKept(cap, s, l);
      RelaysKept(cap, s, l);
      forall c | c !in Apply(cap, s, l).mismatched ensures Unique(Apply(cap, s, l), c) {
        UniqueKept(cap, s, l, c);
      }
    }
  }

  // ---------- the promises ----------

  /** In every run up to the first post-hoc mismatch of the call: at most one hook of
      the call is on its way or through without a forced deny, it agrees with any recorded
      intent of that call, and at most one allow is relayed for the call. */
  lemma OneFreeHookPerCall(cap: nat, ls: seq<Label>, s: State, c: CallId)
    requires Exec(cap, ls) == Some(s) && c !in s.mismatched
    ensures forall r, q :: Free(s, r, c) && Free(s, q, c) ==> r == q
    ensures forall r :: Free(s, r, c) && c in s.ledger.intents ==>
      s.ledger.intents[c].tool == s.all[r].tool && s.ledger.intents[c].consumed
    ensures forall i, j | 0 <= i < |s.relays| && 0 <= j < |s.relays| ::
      IsAllow(s, i, c) && IsAllow(s, j, c) ==> i == j
  {
    Reachable(cap, ls);
    forall r | Free(s, r, c) && c in s.ledger.intents
      ensures s.ledger.intents[c].tool == s.all[r].tool && s.ledger.intents[c].consumed
    {
      assert Accounted(s, r);
    }
    forall i, j | 0 <= i < |s.relays| && 0 <= j < |s.relays| && IsAllow(s, i, c) && IsAllow(s, j, c)
      ensures i == j
    {
      assert RelayFits(s, s.relays[i]) && RelayFits(s, s.relays[j]);
      assert Free(s, s.relays[i].request, c) && Free(s, s.relays[j].request, c);
    }
  }

  /** Relay i is an allow for the call. */
  predicate IsAllow(s: State, i: nat, c: CallId)
    requires i < |s.relays|
  {
    s.relays[i].allow && s.relays[i].request in s.all && s.all[s.relays[i].request].call == c
  }

  /** In every reachable state the two ledgers are disjoint and together within
      capacity; until done closes a hook that is about to be queued finds room, so
      the queue-full branch is never taken. */
  lemma QueueNeverFull(cap: nat, ls: seq<Label>, s: State, r: RequestId)
    requires Exec(cap, ls) == Some(s)
    ensures s.ledger.intents.Keys !! s.ledger.preIntents.Keys && Size(s.ledger) <= cap
    ensures !s.flags.done ==> forall q :: q in s.all && Pending(s.all[q].phase) ==> q in s.hooks
    ensures !s.flags.done && In(s, r, Staged) ==> |s.queue| < cap
  {
    Reachable(cap, ls);
    if !s.flags.done && In(s, r, Staged) {
      var queued := set i | 0 <= i < |s.queue| :: s.queue[i];
      Distinct(s.queue);
      assert queued + {r} <= s.hooks;
      Subset(queued + {r}, s.hooks);
    }
  }

  lemma {:induction false} Distinct(q: seq<RequestId>)
    requires forall i, j :: 0 <= i < j < |q| ==> q[i] != q[j]
    ensures |set i | 0 <= i < |q| :: q[i]| == |q|
  {
    if q != [] {
      var n := |q| - 1;
      Distinct(q[..n]);
      var front := set i | 0 <= i < n :: q[..n][i];
      assert (set i | 0 <= i < |q| :: q[i]) == front + {q[n]};
    }
  }

  lemma {:induction false} Subset(a: set<RequestId>, b: set<RequestId>)
    requires a <= b
    ensures |a| <= |b|
  {
    if a != {} {
      var x :| x in a;
      Subset(a - {x}, b - {x});
    }
  }

  // ---------- after a mismatch ----------

  lemma Extend(cap: nat, ls: seq<Label>, s: State, l: Label) returns (more: seq<Label>, t: State)
    requires Exec(cap, ls) == Some(s) && Enabled(cap, s, l)
    ensures Exec(cap, more) == Some(t) && t == Apply(cap, s, l)
  {
    more, t := ls + [l], Apply(cap, s, l);
    assert more[..|ls|] == ls;
  }

  lemma TwoStaged(c: CallId, tool: Tool, other: Tool) returns (ls: seq<Label>, s: State)
    requires tool != other
    ensures Exec(2, ls) == Some(s) && s.mismatched == {c} && s.queue == [] && s.relays == []
    ensures s.all == map[0 := Hook(c, tool, None, Staged), 1 := Hook(c, tool, None, Staged)]
  {
    ls, s := Extend(2, [], INITIAL, Admit(0, c, tool, false));
    hide Exec;
    assert s.all == map[0 := Hook(c, tool, None, Staged)] && s.hooks == {0};
    ls, s := Extend(2, ls, s, Register(c, other));
    assert s.ledger.intents == map[] && s.ledger.preIntents == map[];
    ls, s := Extend(2, ls, s, Admit(1, c, tool, false));
  }

  /** The bound needs its condition: between a mismatching intent, which clears
      the call's ledger entry, and the failure it is about to raise, a second hook
      of the call is admitted freely, and both can be allowed. */
  lemma MismatchFreesTheCall(c: CallId, tool: Tool, other: Tool) returns (ls: seq<Label>, s: State)
    requires tool != other
    ensures Exec(2, ls) == Some(s) && s.mismatched == {c}
    ensures |s.relays| == 2 && IsAllow(s, 0, c) && IsAllow(s, 1, c)
  {
    hide Exec;
    ls, s := TwoStaged(c, tool, other);
    ls, s := Extend(2, ls, s, Enqueue(0));
    ls, s := Extend(2, ls, s, Enqueue(1));
    assert s.queue == [0, 1];
    ls, s := Extend(2, ls, s, Take);
    assert s.queue == [1];
    ls, s := Extend(2, ls, s, Take);
    ls, s := Extend(2, ls, s, Decide(0, true));
    ls, s := Extend(2, ls, s, Decide(1, true));
  }

  /** There is room for a hook, and the ledger holds nothing against it. */
  predicate Admissible(cap: nat, s: State, c: CallId, tool: Tool, overRate: bool) {
    && !s.flags.closing && !overRate && |s.hooks| < cap && !s.flags.expired
    && (if c in s.ledger.intents then s.ledger.intents[c] == Intent(tool, false)
        else c !in s.ledger.preIntents && Size(s.ledger) < cap)
  }

  /** There is room in the table. */
  predicate Room(cap: nat, s: State, overRate: bool) {
    !s.flags.closing && !overRate && |s.hooks| < cap
  }

  /** In every reachable state a hook is admitted freely exactly when it is
      admissible. Else it is refused, for want of room or of a place in the ledger, or
      denied: after the deadline, against another tool's intent, or as a duplicate. */
  lemma AdmitsExactly(cap: nat, ls: seq<Label>, s: State, l: Label)
    requires Exec(cap, ls) == Some(s) && l.Admit? && Enabled(cap, s, l)
    ensures
      var t := Apply(cap, s, l);
      var c, g, room := l.call, s.ledger, Room(cap, s, l.overRate);
      && (Free(t, l.request, c) <==> Admissible(cap, s, c, l.tool, l.overRate))
      && l.request in t.all && t.all[l.request].call == c && t.all[l.request].tool == l.tool
      && (In(t, l.request, Refused) <==>
            !room || (!s.flags.expired && c !in g.intents && c !in g.preIntents && Size(g) == cap))
      && (!In(t, l.request, Refused) ==> In(t, l.request, Staged))
      && var reason := t.all[l.request].reason;
         && (reason == Some(Deadline) <==> room && s.flags.expired)
         && (reason == Some(Mismatch) <==> room && !s.flags.expired && c in g.intents && g.intents[c].tool != l.tool)
         && (reason == Some(Duplicate) <==>
               && room && !s.flags.expired
               && (c in g.preIntents || (c in g.intents && g.intents[c] == Intent(l.tool, true))))
  {
    Reachable(cap, ls);
  }

  /** An intent clears the call's pre-intent: it is a mismatch exactly if the tools
      differ, and is recorded as consumed exactly if they agree and nothing is over. An
      intent that comes first is recorded exactly if nothing is over, the call has none
      and there is space. Nothing else changes. */
  lemma RegistersExactly(cap: nat, s: State, c: CallId, tool: Tool)
    ensures
      var t, g, live := Apply(cap, s, Register(c, tool)), s.ledger, !s.flags.expired && !s.flags.closing;
      && t.mismatched == (if c in g.preIntents && g.preIntents[c].tool != tool then s.mismatched + {c} else s.mismatched)
      && t.ledger.preIntents == g.preIntents - {c}
      && t.ledger.intents ==
           (if c in g.preIntents then (if live && g.preIntents[c].tool == tool then g.intents[c := Intent(tool, true)] else g.intents)
            else if live && c !in g.intents && Size(g) < cap then g.intents[c := Intent(tool, false)]
            else g.intents)
      && t == s.(ledger := t.ledger, mismatched := t.mismatched)
  {
    RegistrationIs(cap, s.ledger, s.flags, c, tool);
    hide Registration;
  }

  lemma RegistrationIs(cap: nat, g: Ledger, flags: Flags, c: CallId, tool: Tool)
    ensures
      var r, live := Registration(cap, g, flags, c, tool), !flags.expired && !flags.closing;
      && (r.mismatch <==> c in g.preIntents && g.preIntents[c].tool != tool)
      && r.ledger.preIntents == g.preIntents - {c}
      && r.ledger.intents ==
           (if c in g.preIntents then (if live && g.preIntents[c].tool == tool then g.intents[c := Intent(tool, true)] else g.intents)
            else if live && c !in g.intents && Size(g) < cap then g.intents[c := Intent(tool, false)]
            else g.intents)
  {
    if c !in g.preIntents {
      assert g.preIntents - {c} == g.preIntents;
    }
  }

  /** A hook of the call, and an intent for another tool. */
  ghost predicate Contradicted(ls: seq<Label>, c: CallId) {
    exists l, tool :: l in ls && l.Admit? && l.call == c && l.tool != tool && Register(c, tool) in ls
  }

  /** The call's pre-intent is its hook's. */
  ghost predicate Foreseen(ls: seq<Label>, s: State, c: CallId) {
    c in s.ledger.preIntents ==>
      exists l :: l in ls && l.Admit? && l.call == c && l.request == s.ledger.preIntents[c].request && l.tool == s.ledger.preIntents[c].tool
  }

  /** What the other steps do to the ledger. */
  lemma LedgerStep(cap: nat, s: State, l: Label)
    requires Enabled(cap, s, l) && !l.Register?
    ensures var t := Apply(cap, s, l);
      && t.mismatched == s.mismatched
      && (t.ledger.preIntents == s.ledger.preIntents
          || (l.Admit? && t.ledger.preIntents == s.ledger.preIntents[l.call := PreIntent(l.request, l.tool)]))
  {
  }

  lemma StepForeseen(cap: nat, ls: seq<Label>, s: State, l: Label, c: CallId)
    requires Enabled(cap, s, l) && Foreseen(ls, s, c) && (c in s.mismatched ==> Contradicted(ls, c))
    ensures Foreseen(ls + [l], Apply(cap, s, l), c)
    ensures c in Apply(cap, s, l).mismatched ==> Contradicted(ls + [l], c)
  {
    var more := ls + [l];
    assert forall x :: x in ls ==> x in more;
    assert l in more;
    if l.Register? {
      RegistersExactly(cap, s, l.call, l.tool);
    } else {
      LedgerStep(cap, s, l);
    }
    hide Apply, Enabled;
  }

  /** A mismatch is only ever noted for a call whose hook and intent disagree. */
  lemma {:induction false} MismatchesAreReal(cap: nat, ls: seq<Label>, s: State, c: CallId)
    requires Exec(cap, ls) == Some(s)
    ensures Foreseen(ls, s, c) && (c in s.mismatched ==> Contradicted(ls, c))
  {
    if ls != [] {
      var n := |ls| - 1;
      var b := Exec(cap, ls[..n]).value;
      MismatchesAreReal(cap, ls[..n], b, c);
      hide Apply, Enabled, Foreseen, Contradicted;
      StepForeseen(cap, ls[..n], b, ls[n], c);
      assert ls == ls[..n] + [ls[n]];
    }
  }

  /** The call is new to the ledger, and there is room for its hook and its intent. */
  predicate Fresh(cap: nat, s: State, l: Label) {
    && l.Admit? && l.request !in s.all && Room(cap, s, l.overRate) && !s.flags.expired
    && l.call !in s.ledger.intents && l.call !in s.ledger.preIntents && Size(s.ledger) < cap
  }

  lemma HookFirst(cap: nat, s: State, l: Label, tool: Tool)
    requires Fresh(cap, s, l)
    ensures
      var t := Apply(cap, Apply(cap, s, l), Register(l.call, tool));
      && t.all == s.all[l.request := Hook(l.call, l.tool, None, Staged)]
      && t.mismatched == (if tool == l.tool then s.mismatched else s.mismatched + {l.call})
      && t.ledger == (if tool == l.tool then s.ledger.(intents := s.ledger.intents[l.call := Intent(tool, true)]) else s.ledger)
  {
    var g := s.ledger.(preIntents := s.ledger.preIntents[l.call := PreIntent(l.request, l.tool)]);
    var mid := s.(ledger := g, hooks := s.hooks + {l.request}, all := s.all[l.request := Hook(l.call, l.tool, None, Staged)]);
    assert Apply(cap, s, l) == mid;
    hide Admission, Classify;
    assert g.preIntents - {l.call} == s.ledger.preIntents;
  }

  lemma IntentFirst(cap: nat, s: State, l: Label, tool: Tool)
    requires Fresh(cap, s, l)
    ensures
      var t := Apply(cap, Apply(cap, s, Register(l.call, tool)), l);
      && t.all == s.all[l.request := Hook(l.call, l.tool, if tool == l.tool then None else Some(Mismatch), Staged)]
      && t.mismatched == s.mismatched
      && t.ledger == s.ledger.(intents := s.ledger.intents[l.call := Intent(tool, tool == l.tool)])
  {
  }

  /** Hook and intent of a call may come in either order: with the same tool the
      ledger ends up the same and the hook is free; with different tools the call is
      known to mismatch, or the hook is denied for it. */
  lemma EitherOrder(cap: nat, s: State, l: Label, tool: Tool)
    requires Fresh(cap, s, l)
    ensures
      var c, r, intent := l.call, l.request, Register(l.call, tool);
      var hookFirst, intentFirst := Apply(cap, Apply(cap, s, l), intent), Apply(cap, Apply(cap, s, intent), l);
      if tool == l.tool then
        && Free(hookFirst, r, c) && hookFirst.all == intentFirst.all
        && hookFirst.ledger == intentFirst.ledger == s.ledger.(intents := s.ledger.intents[c := Intent(tool, true)])
      else
        && c in hookFirst.mismatched && hookFirst.ledger == s.ledger
        && intentFirst.all[r].reason == Some(Mismatch) && intentFirst.ledger.intents[c] == Intent(tool, false)
  {
    HookFirst(cap, s, l, tool);
    IntentFirst(cap, s, l, tool);
    hide Apply;
  }

  // ---------- what the steps say ----------

  /** The decisions taken, in order. */
  function Decisions(ls: seq<Label>): seq<Relay> {
    if ls == [] then []
    else
      var l := ls[|ls| - 1];
      Decisions(ls[..|ls| - 1]) + if l.Decide? then [Relay(l.request, l.allow)] else []
  }

  /** The hooks queued, in order. */
  function Enqueued(ls: seq<Label>): seq<RequestId> {
    if ls == [] then []
    else
      var l := ls[|ls| - 1];
      Enqueued(ls[..|ls| - 1]) + if l.Enqueue? then [l.request] else []
  }

  function Takes(ls: seq<Label>): nat {
    if ls == [] then 0 else Takes(ls[..|ls| - 1]) + if ls[|ls| - 1].Take? then 1 else 0
  }

  /** What is relayed is what was decided, in that order. */
  lemma {:induction false} RelaysAreDecisions(cap: nat, ls: seq<Label>, s: State)
    requires Exec(cap, ls) == Some(s)
    ensures s.relays == Decisions(ls)
  {
    if ls != [] {
      var n := |ls| - 1;
      RelaysAreDecisions(cap, ls[..n], Exec(cap, ls[..n]).value);
      hide Classify, Registration;
    }
  }

  lemma StepFlags(cap: nat, s: State, l: Label)
    requires Enabled(cap, s, l)
    ensures var was, now := s.flags, Apply(cap, s, l).flags;
      && (now.done <==> was.done || l == CloseDone) && (now.expired <==> was.expired || l == Expire)
      && (now.failed <==> was.failed || l == Fail) && (now.closing <==> was.closing || l == Fail || l == Shutdown)
  {
    hide Classify, Registration;
  }

  /** Nothing else sets a flag, and none is taken back. */
  lemma {:induction false} FlagsMean(cap: nat, ls: seq<Label>, s: State)
    requires Exec(cap, ls) == Some(s)
    ensures (s.flags.done <==> CloseDone in ls) && (s.flags.expired <==> Expire in ls)
    ensures (s.flags.failed <==> Fail in ls) && (s.flags.closing <==> Fail in ls || Shutdown in ls)
  {
    if ls != [] {
      var n := |ls| - 1;
      var b := Exec(cap, ls[..n]).value;
      FlagsMean(cap, ls[..n], b);
      assert ls == ls[..n] + [ls[n]];
      hide Apply, Enabled;
      StepFlags(cap, b, ls[n]);
    }
  }

  lemma StepQueue(cap: nat, s: State, l: Label)
    requires Enabled(cap, s, l)
    ensures Apply(cap, s, l).queue ==
      match l
      case Enqueue(r) => if |s.queue| < cap then s.queue + [r] else s.queue
      case Take => s.queue[1..]
      case _ => s.queue
  {
    hide Classify, Registration;
  }

  /** Until done closes, hooks are taken in the order in which they were queued, and
      none is lost. */
  lemma {:induction false} FirstComeFirstServed(cap: nat, ls: seq<Label>, s: State)
    requires Exec(cap, ls) == Some(s) && CloseDone !in ls
    ensures Takes(ls) <= |Enqueued(ls)| && s.queue == Enqueued(ls)[Takes(ls)..]
  {
    hide Apply;
    if ls != [] {
      var n := |ls| - 1;
      var b, l := Exec(cap, ls[..n]).value, ls[n];
      FirstComeFirstServed(cap, ls[..n], b);
      StepQueue(cap, b, l);
      if l.Enqueue? {
        assert ls == ls[..n] + [l];
        FlagsMean(cap, ls[..n], b);
        QueueNeverFull(cap, ls[..n], b, l.request);
      }
      hide Exec;
    }
  }

  /** While one hook of a call is free, a hook that comes now is a second free one
      exactly when it is admissible, and that is so only after a mismatch of the call. */
  lemma SecondFreeHook(cap: nat, ls: seq<Label>, s: State, q: RequestId, c: CallId, l: Label)
    requires Exec(cap, ls) == Some(s) && Free(s, q, c)
    requires l.Admit? && l.call == c && Enabled(cap, s, l)
    ensures
      var t := Apply(cap, s, l);
      Free(t, q, c) && Free(t, l.request, c) && l.request != q <==> Admissible(cap, s, c, l.tool, l.overRate)
    ensures Admissible(cap, s, c, l.tool, l.overRate) ==> c in s.mismatched
  {
    Reachable(cap, ls);
    if c !in s.mismatched {
      assert Accounted(s, q);
    }
  }

  // ---------- the code ----------

  /** The broker's fields; each method is one region under its mutex. A result of
      false stands for the error that the caller answers with fail. */
  class Broker {
    const capacity: nat
    var intents: map<CallId, Intent>
    var preIntents: map<CallId, PreIntent>
    var hooks: set<RequestId>
    var all: map<RequestId, Hook>
    var queue: seq<RequestId>
    var relays: seq<Relay>
    var flags: Flags
    var mismatched: set<CallId>

    function Value(): State
      reads this
    {
      State(Ledger(intents, preIntents), hooks, all, queue, relays, flags, mismatched)
    }

    constructor (capacity: nat)
      ensures this.capacity == capacity && Value() == INITIAL
    {
      this.capacity := capacity;
      intents, preIntents, hooks, all, queue, relays := map[], map[], {}, map[], [], [];
      flags, mismatched := Flags(false, false, false, false), {};
    }

    method AdmitHook(r: RequestId, c: CallId, tool: Tool, overRate: bool) returns (ok: bool)
      requires Enabled(capacity, Value(), Admit(r, c, tool, overRate))
      modifies this
      ensures Value() == Apply(capacity, old(Value()), Admit(r, c, tool, overRate))
      ensures ok <==> In(Value(), r, Staged)
    {
      if flags.closing || overRate || |hooks| >= capacity {
        all := all[r := Hook(c, tool, None, Refused)];
        return false;
      }
      hooks := hooks + {r};
      var reason := None;
      if flags.expired {
        reason := Some(Deadline);
      } else if c !in intents {
        if c in preIntents {
          reason := Some(Duplicate);
        } else {
          if |intents| + |preIntents| >= capacity {
            all := all[r := Hook(c, tool, None, Refused)];
            return false;
          }
          preIntents := preIntents[c := PreIntent(r, tool)];
        }
      } else {
        reason := ClassifyLocked(c, tool);
      }
      all := all[r := Hook(c, tool, reason, Staged)];
      return true;
    }

    method ClassifyLocked(c: CallId, tool: Tool) returns (reason: Option<Reason>)
      requires c in intents
      modifies `intents
      ensures
        var v := Classify(capacity, old(Value()).ledger, false, 0, c, tool);
        reason == v.reason && Value().ledger == v.ledger
    {
      if intents[c].tool != tool {
        return Some(Mismatch);
      }
      if intents[c].consumed {
        return Some(Duplicate);
      }
      intents := intents[c := intents[c].(consumed := true)];
      return None;
    }

    method RegisterIntent(c: CallId, tool: Tool) returns (ok: bool)
      modifies this
      ensures Value() == Apply(capacity, old(Value()), Register(c, tool))
      ensures ok ==> mismatched == old(mismatched)
    {
      if c in preIntents {
        var pre := preIntents[c];
        preIntents := preIntents - {c};
        if pre.tool != tool {
          mismatched := mismatched + {c};
          return false;
        }
        if !flags.expired && !flags.closing {
          intents := intents[c := Intent(tool, true)];
        }
        return true;
      }
      if flags.closing {
        return false;
      }
      if flags.expired {
        return true;
      }
      if c in intents {
        return false;
      }
      if |intents| + |preIntents| >= capacity {
        return false;
      }
      intents := intents[c := Intent(tool, false)];
      return true;
    }

    method EnqueueHook(r: RequestId) returns (ok: bool)
      requires Enabled(capacity, Value(), Enqueue(r))
      modifies this
      ensures Value() == Apply(capacity, old(Value()), Enqueue(r))
      ensures ok <==> In(Value(), r, Queued)
    {
      if |queue| < capacity {
        queue := queue + [r];
        all := all[r := all[r].(phase := Queued)];
        return true;
      }
      all := all[r := all[r].(phase := Refused)];
      return false;
    }
  }
}
