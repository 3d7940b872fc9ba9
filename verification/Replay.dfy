/**
  Replay: the fold that rebuilds a session's derived state from its events, with
  checked 64-bit usage sums.
*/
module Replay {
  import opened Wrappers
  import opened Events

  const MAX_INT64 := 0x7FFF_FFFF_FFFF_FFFF

  datatype Role = User | Assistant | Call | Result | Subagent

  datatype Message = Message(seqNo: int, role: Role, spanId: string, content: Payload)

  datatype Side = In | Out

  datatype Usage = Usage(input: int, output: int)

  type Ledger = map<string, Usage>

  datatype Accounts = Accounts(total: Usage, byActor: Ledger, bySpan: Ledger, bySpanActor: map<string, Ledger>)

  datatype Counts = Counts(turns: nat, steps: nat, spawns: nat, ended: bool)

  datatype Derived = Derived(
    traceId: string, rootSpan: string, lastSeq: int, origin: Option<ForkRef>, messages: seq<Message>,
    accounts: Accounts, counts: Counts)

  // ---------- usage ----------

  function Of(u: Usage, side: Side): int {
    match side case In => u.input case Out => u.output
  }

  function With(u: Usage, side: Side, n: int): Usage {
    match side case In => u.(input := n) case Out => u.(output := n)
  }

  /** A missing key reads as zero usage. */
  function Get(m: Ledger, k: string): Usage {
    if k in m then m[k] else Usage(0, 0)
  }

  function Inner(m: map<string, Ledger>, k: string): Ledger {
    if k in m then m[k] else map[]
  }

  function AddUsage(sum: int, v: int): Option<int> {
    if v < 0 then None
    else if sum > MAX_INT64 - v then None
    else Some(sum + v)
  }

  /** One usage value goes to the total, to its actor, to its span and to the pair. */
  function Charge(d: Accounts, actor: string, span: string, side: Side, v: int): Option<Accounts> {
    var inner := Inner(d.bySpanActor, span);
    var t := AddUsage(Of(d.total, side), v);
    var a := AddUsage(Of(Get(d.byActor, actor), side), v);
    var s := AddUsage(Of(Get(d.bySpan, span), side), v);
    var p := AddUsage(Of(Get(inner, actor), side), v);
    if t.None? || a.None? || s.None? || p.None? then None
    else Some(Accounts(
      With(d.total, side, t.value),
      d.byActor[actor := With(Get(d.byActor, actor), side, a.value)],
      d.bySpan[span := With(Get(d.bySpan, span), side, s.value)],
      d.bySpanActor[span := inner[actor := With(Get(inner, actor), side, p.value)]]))
  }

  function Value(e: Event, side: Side): Option<int> {
    match side case In => e.usageIn case Out => e.usageOut
  }

  function ChargeSide(d: Accounts, e: Event, side: Side): Option<Accounts> {
    match Value(e, side)
    case None => Some(d)
    case Some(v) => Charge(d, e.actor, e.spanId, side, v)
  }

  function ChargeBoth(d: Accounts, e: Event): Option<Accounts> {
    match ChargeSide(d, e, In)
    case None => None
    case Some(d1) => ChargeSide(d1, e, Out)
  }

  // ---------- one event ----------

  function RoleOf(k: Kind): Option<Role> {
    match k
    case UserMessage => Some(User)
    case AssistantMessage => Some(Assistant)
    case ToolCall => Some(Call)
    case ToolResult => Some(Result)
    case SubagentDone => Some(Subagent)
    case _ => None
  }

  /** What the parent model sees of an event: conversation of the root span, and
      the final results of children. */
  function Shown(root: string, e: Event): seq<Message> {
    match RoleOf(e.kind)
    case None => []
    case Some(role) =>
      if role != Subagent && e.spanId != root then []
      else [Message(e.seqNo, role, e.spanId, e.payload)]
  }

  function Tally(c: Counts, kind: Kind): Counts {
    match kind
    case SessionEnd => c.(ended := true)
    case TurnStart => c.(turns := c.turns + 1)
    case StepStart => c.(steps := c.steps + 1)
    case SubagentSpawn => c.(spawns := c.spawns + 1)
    case _ => c
  }

  /** The first fork record is the session's own. */
  function Origin(origin: Option<ForkRef>, e: Event): Option<ForkRef> {
    if e.kind == SessionFork && origin.None? then e.payload.asFork else origin
  }

  function Dispatch(d: Derived, e: Event): Option<Derived> {
    if e.kind == SessionFork && e.payload.asFork.None? then None
    else Some(d.(origin := Origin(d.origin, e), messages := d.messages + Shown(d.rootSpan, e), counts := Tally(d.counts, e.kind)))
  }

  function Step(d: Derived, e: Event): Option<Derived> {
    if e.seqNo <= d.lastSeq || e.traceId != d.traceId then None
    else match ChargeBoth(d.accounts, e)
      case None => None
      case Some(a) => Dispatch(d.(lastSeq := e.seqNo, accounts := a), e)
  }

  function Begin(first: Event): Derived {
    Derived(first.traceId, first.spanId, 0, None, [], Accounts(Usage(0, 0), map[], map[], map[]), Counts(0, 0, 0, false))
  }

  function Fold(first: Event, events: seq<Event>): Option<Derived> {
    if events == [] then Some(Begin(first))
    else match Fold(first, events[..|events| - 1])
      case None => None
      case Some(d) => Step(d, events[|events| - 1])
  }

  function Projection(events: seq<Event>): Option<Derived> {
    if events == [] then None else Fold(events[0], events)
  }

  // ---------- the code ----------

  class DerivedState {
    var traceId: string
    var rootSpan: string
    var lastSeq: int
    var origin: Option<ForkRef>
    var messages: seq<Message>
    var total: Usage
    var byActor: Ledger
    var bySpan: Ledger
    var bySpanActor: map<string, Ledger>
    var turns: nat
    var steps: nat
    var spawns: nat
    var ended: bool

    function Value(): Derived
      reads this
    {
      Derived(traceId, rootSpan, lastSeq, origin, messages, Books(), Counts(turns, steps, spawns, ended))
    }

    function Books(): Accounts
      reads this
    {
      Accounts(total, byActor, bySpan, bySpanActor)
    }

    constructor (first: Event)
      ensures Value() == Begin(first)
    {
      traceId, rootSpan, lastSeq, origin, messages := first.traceId, first.spanId, 0, None, [];
      total, byActor, bySpan, bySpanActor := Usage(0, 0), map[], map[], map[];
      turns, steps, spawns, ended := 0, 0, 0, false;
    }

    method AddTo(e: Event, side: Side, v: int) returns (ok: bool)
      modifies `total, `byActor, `bySpan, `bySpanActor
      ensures ok <==> Charge(old(Books()), e.actor, e.spanId, side, v).Some?
      ensures ok ==> Some(Books()) == Charge(old(Books()), e.actor, e.spanId, side, v)
    {
      var u := Get(byActor, e.actor);
      var t := AddUsage(Of(total, side), v);
      if t.None? { return false; }
      total := With(total, side, t.value);
      var a := AddUsage(Of(u, side), v);
      if a.None? { return false; }
      byActor := byActor[e.actor := With(u, side, a.value)];
      var spanUsage := Get(bySpan, e.spanId);
      var s := AddUsage(Of(spanUsage, side), v);
      if s.None? { return false; }
      bySpan := bySpan[e.spanId := With(spanUsage, side, s.value)];
      var inner := Inner(bySpanActor, e.spanId);
      var p := AddUsage(Of(Get(inner, e.actor), side), v);
      if p.None? { return false; }
      bySpanActor := bySpanActor[e.spanId := inner[e.actor := With(Get(inner, e.actor), side, p.value)]];
      return true;
    }

    method AppendMessage(e: Event, role: Role)
      requires RoleOf(e.kind) == Some(role)
      modifies `messages
      ensures messages == old(messages) + Shown(rootSpan, e)
    {
      if role != Subagent && e.spanId != rootSpan {
        return;
      }
      messages := messages + [Message(e.seqNo, role, e.spanId, e.payload)];
    }

    method Take(e: Event) returns (ok: bool)
      modifies this
      ensures ok <==> Step(old(Value()), e).Some?
      ensures ok ==> Some(Value()) == Step(old(Value()), e)
    {
      hide Charge, Dispatch;
      if e.seqNo <= lastSeq || e.traceId != traceId {
        return false;
      }
      lastSeq := e.seqNo;
      if e.usageIn.Some? {
        var fits := AddTo(e, In, e.usageIn.value);
        if !fits { return false; }
      }
      if e.usageOut.Some? {
        var fits := AddTo(e, Out, e.usageOut.value);
        if !fits { return false; }
      }
      ok := Handle(e);
    }

    method Handle(e: Event) returns (ok: bool)
      modifies this
      ensures ok <==> Dispatch(old(Value()), e).Some?
      ensures ok ==> Some(Value()) == Dispatch(old(Value()), e)
    {
      hide Shown;
      assert messages + [] == messages;
      NotShown(rootSpan, e);
      match e.kind {
        case SessionFork =>
          if e.payload.asFork.None? { return false; }
          if origin.None? { origin := e.payload.asFork; }
        case SessionEnd => ended := true;
        case TurnStart => turns := turns + 1;
        case StepStart => steps := steps + 1;
        case SubagentSpawn => spawns := spawns + 1;
        case UserMessage => AppendMessage(e, User);
        case AssistantMessage => AppendMessage(e, Assistant);
        case ToolCall => AppendMessage(e, Call);
        case ToolResult => AppendMessage(e, Result);
        case SubagentDone => AppendMessage(e, Subagent);
        case _ =>
      }
      return true;
    }
  }

  lemma NotShown(rootSpan: string, e: Event)
    ensures RoleOf(e.kind).None? ==> Shown(rootSpan, e) == []
  {
  }

  method ReplayEvents(events: seq<Event>) returns (r: Option<Derived>)
    ensures r == Projection(events)
  {
    if events == [] {
      return None;
    }
    var s := new DerivedState(events[0]);
    for i := 0 to |events|
      invariant Fold(events[0], events[..i]) == Some(s.Value())
    {
      assert events[..i + 1][..i] == events[..i];
      var ok := s.Take(events[i]);
      if !ok {
        FoldFails(events[0], events, i + 1);
        return None;
      }
    }
    assert events[..|events|] == events;
    return Some(s.Value());
  }

  lemma {:induction false} FoldFails(first: Event, events: seq<Event>, k: nat)
    requires k <= |events| && Fold(first, events[..k]).None?
    ensures Fold(first, events).None?
    decreases |events|
  {
    if k < |events| {
      assert events[..|events| - 1][..k] == events[..k];
      FoldFails(first, events[..|events| - 1], k);
    } else {
      assert events[..k] == events;
    }
  }

  // ---------- usage is conserved ----------

  /** An account: the total, an actor's, a span's, or that of an actor in a span. */
  datatype Key = All | ByActor(actor: string) | BySpan(span: string) | ByPair(span: string, actor: string)

  predicate Hits(key: Key, actor: string, span: string) {
    match key
    case All => true
    case ByActor(a) => a == actor
    case BySpan(s) => s == span
    case ByPair(s, a) => s == span && a == actor
  }

  function Read(d: Accounts, key: Key, side: Side): int {
    match key
    case All => Of(d.total, side)
    case ByActor(a) => Of(Get(d.byActor, a), side)
    case BySpan(s) => Of(Get(d.bySpan, s), side)
    case ByPair(s, a) => Of(Get(Inner(d.bySpanActor, s), a), side)
  }

  function Amount(e: Event, key: Key, side: Side): int {
    if Hits(key, e.actor, e.spanId) && Value(e, side).Some? then Value(e, side).value else 0
  }

  /** What the events charge to an account. */
  function Spent(events: seq<Event>, key: Key, side: Side): int {
    if events == [] then 0
    else Spent(events[..|events| - 1], key, side) + Amount(events[|events| - 1], key, side)
  }

  predicate NonNegative(e: Event) {
    (e.usageIn.Some? ==> e.usageIn.value >= 0) && (e.usageOut.Some? ==> e.usageOut.value >= 0)
  }

  predicate Sound(first: Event, e: Event) {
    && e.traceId == first.traceId
    && NonNegative(e)
    && (e.kind == SessionFork ==> e.payload.asFork.Some?)
  }

  function SeqBefore(events: seq<Event>, i: nat): int
    requires i <= |events|
  {
    if i == 0 then 0 else events[i - 1].seqNo
  }

  predicate Placed(first: Event, events: seq<Event>, i: nat)
    requires i < |events|
  {
    SeqBefore(events, i) < events[i].seqNo && Sound(first, events[i])
  }

  predicate InOrder(first: Event, events: seq<Event>) {
    forall i :: 0 <= i < |events| ==> Placed(first, events, i)
  }

  predicate Accepts(first: Event, events: seq<Event>) {
    && InOrder(first, events)
    && Spent(events, All, In) <= MAX_INT64
    && Spent(events, All, Out) <= MAX_INT64
  }

  lemma {:induction false} SpentBounds(events: seq<Event>, key: Key, side: Side)
    requires forall i :: 0 <= i < |events| ==> NonNegative(events[i])
    ensures 0 <= Spent(events, key, side) <= Spent(events, All, side)
  {
    if events != [] {
      SpentBounds(events[..|events| - 1], key, side);
    }
  }

  lemma ChargeReads(d: Accounts, actor: string, span: string, side: Side, v: int, key: Key, s: Side)
    requires Charge(d, actor, span, side, v).Some?
    ensures Read(Charge(d, actor, span, side, v).value, key, s)
         == Read(d, key, s) + if s == side && Hits(key, actor, span) then v else 0
  {
  }

  ghost predicate Adds(d: Accounts, events: seq<Event>) {
    forall key, side :: Read(d, key, side) == Spent(events, key, side)
  }

  /** The books of d, and what the fold remembers, after the given events. */
  ghost predicate Books(d: Derived, first: Event, events: seq<Event>) {
    && d.lastSeq == SeqBefore(events, |events|)
    && d.traceId == first.traceId
    && d.rootSpan == first.spanId
    && Adds(d.accounts, events)
  }

  /** Every account follows the total: once the total fits, so do the others. */
  lemma ChargeFits(d: Accounts, e: Event, side: Side)
    requires forall key, s :: 0 <= Read(d, key, s) <= Read(d, All, s)
    ensures ChargeSide(d, e, side).Some? <==>
      Value(e, side).None? || (Value(e, side).value >= 0 && Read(d, All, side) + Value(e, side).value <= MAX_INT64)
    ensures ChargeSide(d, e, side).Some? ==>
      var d' := ChargeSide(d, e, side).value;
      forall key, s :: Read(d', key, s) == Read(d, key, s) + if s == side then Amount(e, key, side) else 0
  {
    if Value(e, side).Some? {
      var v := Value(e, side).value;
      assert Read(d, ByActor(e.actor), side) <= Read(d, All, side);
      assert Read(d, BySpan(e.spanId), side) <= Read(d, All, side);
      assert Read(d, ByPair(e.spanId, e.actor), side) <= Read(d, All, side);
      if Charge(d, e.actor, e.spanId, side, v).Some? {
        forall key, s ensures Read(Charge(d, e.actor, e.spanId, side, v).value, key, s)
          == Read(d, key, s) + if s == side then Amount(e, key, side) else 0
        {
          ChargeReads(d, e.actor, e.spanId, side, v, key, s);
        }
      }
    }
  }

  lemma SpentSnoc(events: seq<Event>, e: Event, key: Key, side: Side)
    ensures Spent(events + [e], key, side) == Spent(events, key, side) + Amount(e, key, side)
  {
    assert (events + [e])[..|events|] == events;
  }

  lemma OrderSnoc(first: Event, events: seq<Event>, e: Event)
    ensures InOrder(first, events + [e]) <==>
      InOrder(first, events) && SeqBefore(events, |events|) < e.seqNo && Sound(first, e)
  {
    hide Sound;
    var es := events + [e];
    assert Placed(first, es, |events|) <==> SeqBefore(events, |events|) < e.seqNo && Sound(first, e);
    forall i: nat | i < |events| ensures Placed(first, es, i) == Placed(first, events, i) {
      assert es[i] == events[i] && SeqBefore(es, i) == SeqBefore(events, i);
    }
    hide Placed;
    if InOrder(first, es) {
      forall i: nat | i < |events| ensures Placed(first, events, i) {
        assert Placed(first, es, i);
      }
    }
  }

  lemma AcceptsSnoc(first: Event, events: seq<Event>, e: Event)
    ensures Accepts(first, events + [e]) <==>
      && Accepts(first, events) && SeqBefore(events, |events|) < e.seqNo && Sound(first, e)
      && Spent(events, All, In) + Amount(e, All, In) <= MAX_INT64
      && Spent(events, All, Out) + Amount(e, All, Out) <= MAX_INT64
  {
    OrderSnoc(first, events, e);
    SpentSnoc(events, e, All, In);
    SpentSnoc(events, e, All, Out);
  }

  lemma BooksBounded(d: Accounts, first: Event, events: seq<Event>)
    requires Adds(d, events) && InOrder(first, events)
    ensures forall key, side :: 0 <= Read(d, key, side) <= Read(d, All, side)
  {
    EventsNonNegative(first, events);
    forall key, side ensures 0 <= Read(d, key, side) <= Read(d, All, side) {
      SpentBounds(events, key, side);
    }
  }

  lemma ChargeBothExact(d: Accounts, first: Event, events: seq<Event>, e: Event)
    requires Adds(d, events) && InOrder(first, events)
    ensures ChargeBoth(d, e).Some? <==>
      NonNegative(e) && forall side :: Value(e, side).Some? ==> Spent(events, All, side) + Amount(e, All, side) <= MAX_INT64
    ensures ChargeBoth(d, e).Some? ==> Adds(ChargeBoth(d, e).value, events + [e])
  {
    hide ChargeSide, Spent, InOrder, Read;
    BooksBounded(d, first, events);
    ChargeFits(d, e, In);
    if ChargeSide(d, e, In).Some? {
      var d1 := ChargeSide(d, e, In).value;
      ChargeFits(d1, e, Out);
      if ChargeSide(d1, e, Out).Some? {
        forall key, side ensures Read(ChargeSide(d1, e, Out).value, key, side) == Spent(events + [e], key, side) {
          SpentSnoc(events, e, key, side);
        }
      }
    }
  }

  lemma StepExact(d: Derived, first: Event, events: seq<Event>, e: Event)
    requires Books(d, first, events) && Accepts(first, events)
    ensures Step(d, e).Some? <==> Accepts(first, events + [e])
    ensures Step(d, e).Some? ==> Books(Step(d, e).value, first, events + [e])
  {
    hide ChargeBoth, Spent, InOrder, Adds;
    AcceptsSnoc(first, events, e);
    ChargeBothExact(d.accounts, first, events, e);
  }

  lemma EventsNonNegative(first: Event, events: seq<Event>)
    requires InOrder(first, events)
    ensures forall i :: 0 <= i < |events| ==> NonNegative(events[i])
  {
    forall i | 0 <= i < |events| ensures NonNegative(events[i]) {
      assert Placed(first, events, i);
    }
  }

  /** Replay fails exactly when the sequence is not one session in order: a
      number out of order, another trace, a fork record that does not decode, a
      negative usage, or a total past the largest 64-bit integer. No account but
      the total can overflow. */
  lemma {:induction false} FoldExact(first: Event, events: seq<Event>)
    ensures Fold(first, events).Some? <==> Accepts(first, events)
    ensures Fold(first, events).Some? ==> Books(Fold(first, events).value, first, events)
  {
    if events != [] {
      var front, e := events[..|events| - 1], events[|events| - 1];
      assert front + [e] == events;
      FoldExact(first, front);
      AcceptsSnoc(first, front, e);
      hide Step;
      if Fold(first, front).Some? {
        StepExact(Fold(first, front).value, first, front, e);
      }
    }
  }

  /** The sum of the weights of a map's values. */
  ghost function SumBy<T>(m: map<string, T>, f: T -> int): int {
    if m.Keys == {} then 0
    else
      var k :| k in m.Keys;
      f(m[k]) + SumBy(m - {k}, f)
  }

  lemma {:induction false} SumRemove<T>(m: map<string, T>, k: string, f: T -> int)
    requires k in m
    ensures SumBy(m, f) == f(m[k]) + SumBy(m - {k}, f)
    decreases |m.Keys|
  {
    var j :| j in m.Keys && SumBy(m, f) == f(m[j]) + SumBy(m - {j}, f);
    if j != k {
      assert (m - {j}).Keys == m.Keys - {j};
      assert (m - {k}).Keys == m.Keys - {k};
      SumRemove(m - {j}, k, f);
      SumRemove(m - {k}, j, f);
      RemoveBoth(m, j, k);
    }
  }

  lemma RemoveBoth<T>(m: map<string, T>, j: string, k: string)
    ensures m - {j} - {k} == m - {k} - {j}
  {
  }

  lemma SumUpdate<T>(m: map<string, T>, k: string, v: T, f: T -> int)
    ensures SumBy(m[k := v], f) == SumBy(m, f) - (if k in m then f(m[k]) else 0) + f(v)
  {
    SumRemove(m[k := v], k, f);
    if k in m {
      SumRemove(m, k, f);
      assert m[k := v] - {k} == m - {k};
    } else {
      assert m[k := v] - {k} == m;
    }
  }

  ghost function Weight(side: Side): Usage -> int {
    u => Of(u, side)
  }

  ghost function Sum(m: Ledger, side: Side): int {
    SumBy(m, Weight(side))
  }

  ghost function LedgerWeight(side: Side): Ledger -> int {
    m => Sum(m, side)
  }

  /** The sum over all pairs of a span and an actor. */
  ghost function PairSum(m: map<string, Ledger>, side: Side): int {
    SumBy(m, LedgerWeight(side))
  }

  /** Both sums follow a change of one entry. */
  lemma LedgerUpdate(m: Ledger, k: string, u: Usage, side: Side)
    ensures Sum(m[k := u], side) == Sum(m, side) - Of(Get(m, k), side) + Of(u, side)
  {
    SumUpdate(m, k, u, Weight(side));
  }

  lemma PairUpdate(m: map<string, Ledger>, k: string, l: Ledger, side: Side)
    ensures PairSum(m[k := l], side) == PairSum(m, side) - Sum(Inner(m, k), side) + Sum(l, side)
  {
    SumUpdate(m, k, l, LedgerWeight(side));
    NothingSums(side);
  }

  lemma NothingSums(side: Side)
    ensures Sum(map[], side) == 0 && PairSum(map[], side) == 0
  {
  }

  /** The books balance: actors, spans and pairs each add up to the total, and the
      actors of a span to that span. */
  ghost predicate Balanced(d: Accounts) {
    && (forall side :: TotalBalanced(d, side))
    && (forall span, side :: SpanBalanced(d, span, side))
  }

  ghost predicate TotalBalanced(d: Accounts, side: Side) {
    && Sum(d.byActor, side) == Of(d.total, side)
    && Sum(d.bySpan, side) == Of(d.total, side)
    && PairSum(d.bySpanActor, side) == Of(d.total, side)
  }

  ghost predicate SpanBalanced(d: Accounts, span: string, side: Side) {
    Sum(Inner(d.bySpanActor, span), side) == Of(Get(d.bySpan, span), side)
  }

  lemma ChargeBalances(d: Accounts, actor: string, span: string, side: Side, v: int)
    requires Balanced(d) && Charge(d, actor, span, side, v).Some?
    ensures Balanced(Charge(d, actor, span, side, v).value)
  {
    hide Sum, PairSum;
    var d' := Charge(d, actor, span, side, v).value;
    forall sd: Side ensures TotalBalanced(d', sd) {
      assert TotalBalanced(d, sd);
      LedgerUpdate(d.byActor, actor, d'.byActor[actor], sd);
      LedgerUpdate(d.bySpan, span, d'.bySpan[span], sd);
      LedgerUpdate(Inner(d.bySpanActor, span), actor, d'.bySpanActor[span][actor], sd);
      PairUpdate(d.bySpanActor, span, d'.bySpanActor[span], sd);
    }
    forall sd: Side, s: string ensures SpanBalanced(d', s, sd) {
      assert SpanBalanced(d, s, sd);
      if s == span {
        LedgerUpdate(Inner(d.bySpanActor, span), actor, d'.bySpanActor[span][actor], sd);
      }
    }
  }

  lemma ChargeBothBalances(d: Accounts, e: Event)
    requires Balanced(d) && ChargeBoth(d, e).Some?
    ensures Balanced(ChargeBoth(d, e).value)
  {
    hide Charge, Balanced;
    if e.usageIn.Some? {
      ChargeBalances(d, e.actor, e.spanId, In, e.usageIn.value);
    }
    if e.usageOut.Some? {
      ChargeBalances(ChargeSide(d, e, In).value, e.actor, e.spanId, Out, e.usageOut.value);
    }
  }

  lemma {:induction false} FoldBalances(first: Event, events: seq<Event>)
    requires Fold(first, events).Some?
    ensures Balanced(Fold(first, events).value.accounts)
  {
    if events == [] {
      var d := Begin(first).accounts;
      forall side ensures TotalBalanced(d, side) {
        NothingSums(side);
      }
      forall span: string, side ensures SpanBalanced(d, span, side) {
        NothingSums(side);
      }
    } else {
      FoldBalances(first, events[..|events| - 1]);
      hide ChargeBoth, Balanced;
      ChargeBothBalances(Fold(first, events[..|events| - 1]).value.accounts, events[|events| - 1]);
    }
  }

  // ---------- what else the projection means ----------

  /** What becomes a message: the conversation of the root span, and the final result
      of a child in any span. */
  predicate Heard(root: string, e: Event) {
    || e.kind == SubagentDone
    || (e.spanId == root && (e.kind == UserMessage || e.kind == AssistantMessage || e.kind == ToolCall || e.kind == ToolResult))
  }

  function Picked(root: string, events: seq<Event>): seq<Event> {
    if events == [] then []
    else Picked(root, events[..|events| - 1]) + if Heard(root, events[|events| - 1]) then [events[|events| - 1]] else []
  }

  /** The message shows the event, in the role of its kind. */
  predicate Depicts(m: Message, e: Event) {
    && m.seqNo == e.seqNo && m.spanId == e.spanId && m.content == e.payload
    && (m.role == User <==> e.kind == UserMessage)
    && (m.role == Assistant <==> e.kind == AssistantMessage)
    && (m.role == Call <==> e.kind == ToolCall)
    && (m.role == Result <==> e.kind == ToolResult)
    && (m.role == Subagent <==> e.kind == SubagentDone)
  }

  /** The messages are the events, one for one and in order. */
  ghost predicate Depict(ms: seq<Message>, es: seq<Event>) {
    |ms| == |es| && forall i :: 0 <= i < |es| ==> Depicts(ms[i], es[i])
  }

  lemma ShownDepicts(root: string, e: Event)
    ensures Depict(Shown(root, e), if Heard(root, e) then [e] else [])
  {
  }

  function Count(events: seq<Event>, kind: Kind): nat {
    if events == [] then 0
    else Count(events[..|events| - 1], kind) + if events[|events| - 1].kind == kind then 1 else 0
  }

  /** The session's own fork record is the first one. */
  ghost predicate IsOrigin(events: seq<Event>, origin: Option<ForkRef>) {
    match origin
    case None => Count(events, SessionFork) == 0
    case Some(_) => exists i :: 0 <= i < |events| && events[i].kind == SessionFork
                      && events[i].payload.asFork == origin && Count(events[..i], SessionFork) == 0
  }

  ghost predicate Counted(c: Counts, events: seq<Event>) {
    && c.turns == Count(events, TurnStart)
    && c.steps == Count(events, StepStart)
    && c.spawns == Count(events, SubagentSpawn)
    && (c.ended <==> Count(events, SessionEnd) > 0)
  }

  ghost predicate Means(d: Derived, root: string, events: seq<Event>) {
    && d.rootSpan == root
    && Depict(d.messages, Picked(root, events))
    && Counted(d.counts, events)
    && IsOrigin(events, d.origin)
  }

  lemma CountSnoc(events: seq<Event>, e: Event, kind: Kind)
    ensures Count(events + [e], kind) == Count(events, kind) + if e.kind == kind then 1 else 0
  {
    assert (events + [e])[..|events|] == events;
  }

  lemma OriginSnoc(events: seq<Event>, e: Event, origin: Option<ForkRef>)
    requires IsOrigin(events, origin)
    ensures e.kind != SessionFork || origin.Some? ==> IsOrigin(events + [e], origin)
    ensures e.kind == SessionFork && origin.None? && e.payload.asFork.Some? ==> IsOrigin(events + [e], e.payload.asFork)
  {
    var es := events + [e];
    CountSnoc(events, e, SessionFork);
    if origin.Some? {
      var i :| 0 <= i < |events| && events[i].kind == SessionFork
        && events[i].payload.asFork == origin && Count(events[..i], SessionFork) == 0;
      assert es[..i] == events[..i] && es[i] == events[i];
    } else if e.kind == SessionFork {
      assert es[..|events|] == events && es[|events|] == e;
    }
  }

  lemma TallyCounts(c: Counts, events: seq<Event>, e: Event)
    requires Counted(c, events)
    ensures Counted(Tally(c, e.kind), events + [e])
  {
    hide Count;
    CountSnoc(events, e, TurnStart);
    CountSnoc(events, e, StepStart);
    CountSnoc(events, e, SubagentSpawn);
    CountSnoc(events, e, SessionEnd);
  }

  lemma DispatchMeans(d: Derived, root: string, events: seq<Event>, e: Event)
    requires Means(d, root, events) && Dispatch(d, e).Some?
    ensures Means(Dispatch(d, e).value, root, events + [e])
  {
    hide IsOrigin, Counted, Count, Tally, Shown, Depicts, Heard;
    assert (events + [e])[..|events|] == events;
    ShownDepicts(root, e);
    TallyCounts(d.counts, events, e);
    OriginSnoc(events, e, d.origin);
  }

  lemma {:induction false} FoldMeans(first: Event, events: seq<Event>)
    requires Fold(first, events).Some?
    ensures Means(Fold(first, events).value, first.spanId, events)
  {
    if events != [] {
      var front, e := events[..|events| - 1], events[|events| - 1];
      assert front + [e] == events;
      FoldMeans(first, front);
      var d := Fold(first, front).value;
      hide ChargeBoth, Dispatch, Counted, IsOrigin, Depict, Picked;
      DispatchMeans(d.(lastSeq := e.seqNo, accounts := ChargeBoth(d.accounts, e).value), first.spanId, front, e);
    }
  }

  // ---------- usage, told by the records ----------

  predicate Concerns(key: Key, e: Event) {
    match key
    case All => true
    case ByActor(actor) => e.actor == actor
    case BySpan(span) => e.spanId == span
    case ByPair(span, actor) => e.spanId == span && e.actor == actor
  }

  function Inputs(events: seq<Event>, key: Key): int {
    if events == [] then 0
    else
      var e := events[|events| - 1];
      Inputs(events[..|events| - 1], key) + if Concerns(key, e) && e.usageIn.Some? then e.usageIn.value else 0
  }

  function Outputs(events: seq<Event>, key: Key): int {
    if events == [] then 0
    else
      var e := events[|events| - 1];
      Outputs(events[..|events| - 1], key) + if Concerns(key, e) && e.usageOut.Some? then e.usageOut.value else 0
  }

  function Account(d: Accounts, key: Key): Usage {
    match key
    case All => d.total
    case ByActor(actor) => Get(d.byActor, actor)
    case BySpan(span) => Get(d.bySpan, span)
    case ByPair(span, actor) => Get(Inner(d.bySpanActor, span), actor)
  }

  lemma {:induction false} SpentMeans(events: seq<Event>, key: Key)
    ensures Spent(events, key, In) == Inputs(events, key) && Spent(events, key, Out) == Outputs(events, key)
  {
    if events != [] {
      SpentMeans(events[..|events| - 1], key);
    }
  }

  /** Every account holds the inputs and the outputs that concern it. */
  lemma AccountsHold(d: Accounts, events: seq<Event>)
    requires Adds(d, events)
    ensures forall key :: Account(d, key) == Usage(Inputs(events, key), Outputs(events, key))
  {
    hide Spent, Inputs, Outputs;
    forall key ensures Account(d, key) == Usage(Inputs(events, key), Outputs(events, key)) {
      SpentMeans(events, key);
      assert Read(d, key, In) == Spent(events, key, In) && Read(d, key, Out) == Spent(events, key, Out);
    }
  }

  /** Replay in full: when it succeeds, and what it then returns. */
  lemma ReplayIsExact(events: seq<Event>)
    ensures Projection(events).Some? <==> events != [] && Accepts(events[0], events)
    ensures Projection(events).Some? ==>
      var d := Projection(events).value;
      && Books(d, events[0], events) && Balanced(d.accounts) && Means(d, events[0].spanId, events)
      && forall key :: Account(d.accounts, key) == Usage(Inputs(events, key), Outputs(events, key))
  {
    if events != [] {
      hide Fold, Accepts, Balanced, Means, Adds, Account;
      FoldExact(events[0], events);
      if Fold(events[0], events).Some? {
        FoldBalances(events[0], events);
        FoldMeans(events[0], events);
        AccountsHold(Fold(events[0], events).value.accounts, events);
      }
    }
  }
}
