/**
  Acceptance and launch: any number of processes run the same protocol over the
  acceptance registry, each may die between any two steps. Publishing a claim is
  an atomic link, a marker is an exclusive create; both become durable with the
  directory sync that follows. The directory of a key is found by a hash that may
  collide. A session file may be deleted at any time.
*/
module Launch {
  import opened Wrappers

  type Pid = nat
  type Hash = nat

  datatype Key = Key(scope: string, name: string)

  datatype Request = Request(key: Key, fingerprint: string, policy: string)

  datatype Claim = Claim(request: Request, trace: string, owner: Pid)

  datatype Record = SessionStart(trace: string) | OtherRecord

  /** A file that may exist, and whether its directory entry is durable. */
  datatype Mark = Absent | Present(synced: bool, maker: Pid)

  /** What one key directory holds: the claim, the session log and two markers;
      deleted says that the log was removed since it was last started. */
  datatype Dir = Dir(claim: Option<Claim>, claimSynced: bool, log: seq<Record>, deleted: bool, db: Mark, launch: Mark)

  /** What a repeated request is told. */
  datatype Reply = PolicyChanged | Corrupt | Initializing | Unknown | Known(trace: string, launched: bool)

  datatype Phase =
    | Ready
    | Linked | Created
    | LogReady
    | DbMarked | DbReady
    | LaunchMarked | Cleared
    | Launched
    | Duplicate(existing: Claim)
    | Answered(existing: Claim, reply: Reply)
    | Failed
    | Dead

  datatype Process = Process(request: Request, trace: string, phase: Phase)

  datatype State = State(dirs: map<Hash, Dir>, procs: map<Pid, Process>, created: set<Pid>, launches: seq<Pid>)

  datatype Label =
    | Begin(pid: Pid, request: Request, trace: string)
    | Link(pid: Pid) | SyncClaim(pid: Pid)
    | InitLog(pid: Pid)
    | MarkDb(pid: Pid) | SyncDb(pid: Pid)
    | MarkLaunch(pid: Pid) | SyncLaunch(pid: Pid)
    | DoLaunch(pid: Pid)
    | Record(pid: Pid)
    | Answer(pid: Pid)
    | Delete(pid: Pid)
    | Crash(pid: Pid)

  /** What the disk holds before: possibly stray session logs, but no claim. */
  function DirOf(s: State, h: Hash): Dir {
    if h in s.dirs then s.dirs[h] else Dir(None, false, [], false, Absent, Absent)
  }

  predicate May(ph: Phase, l: Label) {
    match l
    case Begin(_, _, _) => false
    case Link(_) => ph == Ready
    case SyncClaim(_) => ph == Linked
    case InitLog(_) => ph == Created
    case MarkDb(_) => ph == LogReady
    case SyncDb(_) => ph == DbMarked
    case MarkLaunch(_) => ph == DbReady
    case SyncLaunch(_) => ph == LaunchMarked
    case DoLaunch(_) => ph == Cleared
    case Record(_) => ph == Launched
    case Answer(_) => ph.Duplicate?
    case Delete(_) => true
    case Crash(_) => true
  }

  predicate Enabled(s: State, l: Label) {
    if l.Begin? then l.pid !in s.procs else l.pid in s.procs && May(s.procs[l.pid].phase, l)
  }

  datatype Effect = Effect(dir: Dir, phase: Phase)

  /** Publishing a claim: the first link wins; a later one learns what it met. */
  function LinkClaim(d: Dir, p: Pid, r: Request, trace: string): Effect {
    match d.claim
    case None => Effect(d.(claim := Some(Claim(r, trace, p)), claimSynced := false), Linked)
    case Some(c) =>
      if c.request.key != r.key || c.request.fingerprint != r.fingerprint then Effect(d, Failed)
      else Effect(d, Duplicate(c))
  }

  function Sync(m: Mark): Mark {
    if m.Present? then m.(synced := true) else m
  }

  /** The answer to a repeated request, from the claim it met and what is there now. */
  function ReplyTo(d: Dir, r: Request, met: Claim): Reply {
    if met.request.policy != r.policy then PolicyChanged
    else if d.claim.None? || d.claim.value.request.key != r.key then Corrupt
    else if d.db.Absent? then Initializing
    else if d.log == [] then Unknown
    else Known(met.trace, d.launch.Present?)
  }

  /** A step of a process, on the directory of its key. A marker needs a claim and
      is created exclusively; only the db marker may already be there. */
  function Act(d: Dir, p: Pid, proc: Process, l: Label): Effect {
    match l
    case Link(_) => LinkClaim(d, p, proc.request, proc.trace)
    case SyncClaim(_) => Effect(d.(claimSynced := true), Created)
    case InitLog(_) =>
      if d.log == [] then Effect(d.(log := [SessionStart(proc.trace)], deleted := false), LogReady) else Effect(d, Failed)
    case MarkDb(_) =>
      if d.claim.None? then Effect(d, Failed)
      else if d.db.Present? then Effect(d, DbReady)
      else Effect(d.(db := Present(false, p)), DbMarked)
    case SyncDb(_) => Effect(d.(db := Sync(d.db)), DbReady)
    case MarkLaunch(_) =>
      if d.claim.None? || d.launch.Present? then Effect(d, Failed)
      else Effect(d.(launch := Present(false, p)), LaunchMarked)
    case SyncLaunch(_) => Effect(d.(launch := Sync(d.launch)), Cleared)
    case DoLaunch(_) => Effect(d, Launched)
    case Record(_) => Effect(if d.log == [] then d else d.(log := d.log + [OtherRecord]), Launched)
    case Answer(_) =>
      if proc.phase.Duplicate? then
        Effect(d, Answered(proc.phase.existing, ReplyTo(d, proc.request, proc.phase.existing)))
      else Effect(d, Failed)
    case Delete(_) => Effect(d.(log := [], deleted := true), proc.phase)
    case _ => Effect(d, Dead)
  }

  function Apply(hash: Key -> Hash, s: State, l: Label): State
    requires Enabled(s, l)
  {
    if l.Begin? then s.(procs := s.procs[l.pid := Process(l.request, l.trace, Ready)])
    else
      var proc := s.procs[l.pid];
      var h := hash(proc.request.key);
      var e := Act(DirOf(s, h), l.pid, proc, l);
      State(s.dirs[h := e.dir], s.procs[l.pid := proc.(phase := e.phase)],
            if l.SyncClaim? then s.created + {l.pid} else s.created,
            if l.DoLaunch? then s.launches + [l.pid] else s.launches)
  }

  ghost predicate Fresh(s: State) {
    && s.procs == map[] && s.created == {} && s.launches == []
    && forall h :: h in s.dirs ==> s.dirs[h].claim.None? && s.dirs[h].db.Absent? && s.dirs[h].launch.Absent?
  }

  function Exec(hash: Key -> Hash, start: State, ls: seq<Label>): Option<State> {
    if ls == [] then Some(start)
    else
      var l := ls[|ls| - 1];
      match Exec(hash, start, ls[..|ls| - 1])
      case None => None
      case Some(s) => if Enabled(s, l) then Some(Apply(hash, s, l)) else None
  }

  // ---------- the invariant ----------

  predicate Owns(ph: Phase) {
    ph.Linked? || ph.Created? || HasLog(ph)
  }

  predicate HasLog(ph: Phase) {
    ph.LogReady? || ph.DbMarked? || HasDb(ph)
  }

  predicate HasDb(ph: Phase) {
    ph.DbReady? || HasLaunch(ph)
  }

  predicate HasLaunch(ph: Phase) {
    ph.LaunchMarked? || ph.Cleared? || ph.Launched?
  }

  /** The claim in the directory is this process's own. */
  predicate ClaimOf(d: Dir, p: Pid, proc: Process) {
    d.claim == Some(Claim(proc.request, proc.trace, p))
  }

  /** Unless it was deleted, the log starts with session/start under the trace. */
  predicate LogOf(d: Dir, trace: string) {
    !d.deleted ==> d.log != [] && d.log[0] == SessionStart(trace)
  }

  /** What a reply still says of the directory. */
  predicate ReplyFits(d: Dir, r: Request, met: Claim, reply: Reply) {
    match reply
    case PolicyChanged => met.request.policy != r.policy
    case Corrupt => false
    case Initializing => met.request.policy == r.policy
    case Unknown => met.request.policy == r.policy && d.db.Present? && d.deleted
    case Known(trace, launched) =>
      && met.request.policy == r.policy && trace == met.trace && d.db.Present?
      && LogOf(d, trace) && (launched ==> d.launch.Present?)
  }

  /** What a process has behind it is on disk. */
  ghost predicate Fits(d: Dir, p: Pid, proc: Process) {
    var ph := proc.phase;
    && (Owns(ph) ==> ClaimOf(d, p, proc))
    && (ph.Created? || HasLog(ph) ==> d.claimSynced)
    && (HasLog(ph) ==> LogOf(d, proc.trace))
    && (ph.DbMarked? || HasDb(ph) ==> d.db.Present? && d.db.maker == p)
    && (HasDb(ph) ==> d.db.synced)
    && (HasLaunch(ph) ==> d.launch.Present? && d.launch.maker == p)
    && (ph.Cleared? || ph.Launched? ==> d.launch.synced)
    && (ph.Linked? || ph.Created? || ph.LogReady? ==> d.db.Absent?)
    && (Owns(ph) && !HasLaunch(ph) ==> d.launch.Absent?)
    && (ph.Duplicate? || ph.Answered? ==>
          d.claim == Some(ph.existing) && ph.existing.request.key == proc.request.key
          && ph.existing.request.fingerprint == proc.request.fingerprint)
    && (ph.Answered? ==> ReplyFits(d, proc.request, ph.existing, ph.reply))
  }

  /** Markers exist only beside a claim, and are its owner's. */
  ghost predicate Orderly(d: Dir) {
    && (d.db.Present? ==> d.claim.Some? && d.db.maker == d.claim.value.owner && LogOf(d, d.claim.value.trace))
    && (d.launch.Present? ==> d.claim.Some? && d.launch.maker == d.claim.value.owner)
  }

  /** A process's own step. */
  lemma OwnStep(d: Dir, p: Pid, proc: Process, l: Label)
    requires May(proc.phase, l) && Orderly(d) && Fits(d, p, proc)
    ensures var e := Act(d, p, proc, l); Orderly(e.dir) && Fits(e.dir, p, proc.(phase := e.phase))
  {
  }

  /** The step of another process on the same directory: it touches only what is
      its own, or free. */
  lemma OthersStep(d: Dir, p: Pid, proc: Process, l: Label, q: Pid, other: Process)
    requires May(proc.phase, l) && Orderly(d) && Fits(d, p, proc) && q != p && Fits(d, q, other)
    ensures Fits(Act(d, p, proc, l).dir, q, other)
  {
  }

  /** Nothing on disk is taken back. */
  ghost predicate Grows(d: Dir, e: Dir) {
    && (d.claim.Some? ==> e.claim == d.claim && (d.claimSynced ==> e.claimSynced))
    && (d.log != [] ==> e.deleted || (e.log != [] && e.log[0] == d.log[0]))
    && (d.claim.Some? && LogOf(d, d.claim.value.trace) ==> LogOf(e, d.claim.value.trace))
    && (d.db.Present? ==> e.db.Present? && e.db.maker == d.db.maker && (d.db.synced ==> e.db.synced))
    && (d.launch.Present? ==> e.launch.Present? && e.launch.maker == d.launch.maker && (d.launch.synced ==> e.launch.synced))
  }

  lemma ActGrows(d: Dir, p: Pid, proc: Process, l: Label)
    requires May(proc.phase, l) && Fits(d, p, proc)
    ensures Grows(d, Act(d, p, proc, l).dir)
  {
  }

  /** All that has to be on disk when a process launches. */
  ghost predicate Accepted(d: Dir, p: Pid, proc: Process) {
    && ClaimOf(d, p, proc) && d.claimSynced && LogOf(d, proc.trace)
    && d.db.Present? && d.db.synced
    && d.launch.Present? && d.launch.synced && d.launch.maker == p
  }

  ghost predicate CreatedFits(hash: Key -> Hash, s: State, p: Pid) {
    p in s.procs && ClaimOf(DirOf(s, hash(s.procs[p].request.key)), p, s.procs[p])
  }

  ghost predicate LaunchFits(hash: Key -> Hash, s: State, p: Pid) {
    && p in s.procs && p in s.created
    && (s.procs[p].phase == Launched || s.procs[p].phase == Dead)
    && Accepted(DirOf(s, hash(s.procs[p].request.key)), p, s.procs[p])
  }

  ghost predicate ProcFits(hash: Key -> Hash, s: State, p: Pid)
    requires p in s.procs
  {
    Fits(DirOf(s, hash(s.procs[p].request.key)), p, s.procs[p])
    && (s.procs[p].phase.Created? || HasLog(s.procs[p].phase) ==> p in s.created)
  }

  ghost predicate Inv(hash: Key -> Hash, s: State) {
    && (forall h :: Orderly(DirOf(s, h)))
    && (forall p :: p in s.procs ==> ProcFits(hash, s, p))
    && (forall p :: p in s.created ==> CreatedFits(hash, s, p))
    && (forall p :: p in s.launches ==> LaunchFits(hash, s, p))
    && (forall i, j :: 0 <= i < j < |s.launches| ==> s.launches[i] != s.launches[j])
  }

  /** What a step leaves alone. */
  lemma Elsewhere(hash: Key -> Hash, s: State, l: Label, h: Hash, q: Pid)
    requires Inv(hash, s) && Enabled(s, l)
    ensures var t := Apply(hash, s, l);
      && Grows(DirOf(s, h), DirOf(t, h))
      && (l.Begin? || h != hash(s.procs[l.pid].request.key) ==> DirOf(t, h) == DirOf(s, h))
      && (q in s.procs && q != l.pid ==> q in t.procs && t.procs[q] == s.procs[q])
      && (q in s.procs ==> q in t.procs && t.procs[q] == s.procs[q].(phase := t.procs[q].phase))
      && (q in s.created ==> q in t.created)
  {
    hide Act, Fits;
    if !l.Begin? && h == hash(s.procs[l.pid].request.key) {
      assert ProcFits(hash, s, l.pid);
      ActGrows(DirOf(s, h), l.pid, s.procs[l.pid], l);
    }
  }

  lemma DirKept(hash: Key -> Hash, s: State, l: Label, h: Hash)
    requires Inv(hash, s) && Enabled(s, l)
    ensures Orderly(DirOf(Apply(hash, s, l), h))
  {
    hide Act, Orderly, Fits;
    assert Orderly(DirOf(s, h));
    if !l.Begin? && h == hash(s.procs[l.pid].request.key) {
      assert ProcFits(hash, s, l.pid);
      OwnStep(DirOf(s, h), l.pid, s.procs[l.pid], l);
    }
  }

  lemma ProcKept(hash: Key -> Hash, s: State, l: Label, p: Pid)
    requires Inv(hash, s) && Enabled(s, l) && p in Apply(hash, s, l).procs
    ensures ProcFits(hash, Apply(hash, s, l), p)
  {
    hide Act, Orderly;
    if p in s.procs {
      var h := hash(s.procs[p].request.key);
      assert ProcFits(hash, s, p) && Orderly(DirOf(s, h));
      hide Fits;
      if !l.Begin? && h == hash(s.procs[l.pid].request.key) {
        assert ProcFits(hash, s, l.pid);
        if p == l.pid {
          OwnStep(DirOf(s, h), p, s.procs[p], l);
          CreatedNow(DirOf(s, h), p, s.procs[p], l);
        } else {
          OthersStep(DirOf(s, h), l.pid, s.procs[l.pid], l, p, s.procs[p]);
        }
      }
    }
  }

  lemma CreatedNow(d: Dir, p: Pid, proc: Process, l: Label)
    requires May(proc.phase, l)
    ensures var ph := Act(d, p, proc, l).phase;
      ph.Created? || HasLog(ph) ==> l.SyncClaim? || proc.phase.Created? || HasLog(proc.phase)
  {
  }

  lemma CreatedKept(hash: Key -> Hash, s: State, l: Label, p: Pid)
    requires Inv(hash, s) && Enabled(s, l) && p in Apply(hash, s, l).created
    ensures CreatedFits(hash, Apply(hash, s, l), p)
  {
    var q := if p in s.created then p else l.pid;
    assert p in s.created ==> CreatedFits(hash, s, p);
    assert p !in s.created ==> l.SyncClaim? && p == l.pid && ProcFits(hash, s, p);
    hide Apply, Act, Orderly;
    Elsewhere(hash, s, l, hash(s.procs[p].request.key), p);
  }

  lemma LaunchKept(hash: Key -> Hash, s: State, l: Label, p: Pid)
    requires Inv(hash, s) && Enabled(s, l) && p in Apply(hash, s, l).launches
    ensures LaunchFits(hash, Apply(hash, s, l), p)
  {
    if p in s.launches {
      assert LaunchFits(hash, s, p);
      StaysLaunched(hash, s, l, p);
    } else {
      assert l.DoLaunch? && p == l.pid && ProcFits(hash, s, p);
    }
    hide Apply, Act, Orderly;
    Elsewhere(hash, s, l, hash(s.procs[p].request.key), p);
  }

  lemma StaysLaunched(hash: Key -> Hash, s: State, l: Label, p: Pid)
    requires Enabled(s, l) && p in s.procs && (s.procs[p].phase == Launched || s.procs[p].phase == Dead)
    ensures var t := Apply(hash, s, l); t.procs[p].phase == Launched || t.procs[p].phase == Dead
  {
  }

  lemma LaunchesDistinct(hash: Key -> Hash, s: State, l: Label)
    requires Inv(hash, s) && Enabled(s, l)
    ensures var ps := Apply(hash, s, l).launches; forall i, j :: 0 <= i < j < |ps| ==> ps[i] != ps[j]
  {
    hide Act;
    assert l.DoLaunch? ==> l.pid !in s.launches by {
      assert forall p :: p in s.launches ==> LaunchFits(hash, s, p);
    }
  }

  lemma StepKeeps(hash: Key -> Hash, s: State, l: Label)
    requires Inv(hash, s) && Enabled(s, l)
    ensures Inv(hash, Apply(hash, s, l))
  {
    hide Apply, Orderly, DirOf, ProcFits, CreatedFits, LaunchFits;
    var t := Apply(hash, s, l);
    forall h ensures Orderly(DirOf(t, h)) {
      DirKept(hash, s, l, h);
    }
    forall p | p in t.procs ensures ProcFits(hash, t, p) {
      ProcKept(hash, s, l, p);
    }
    forall p | p in t.created ensures CreatedFits(hash, t, p) {
      CreatedKept(hash, s, l, p);
    }
    forall p | p in t.launches ensures LaunchFits(hash, t, p) {
      LaunchKept(hash, s, l, p);
    }
    LaunchesDistinct(hash, s, l);
  }

  lemma {:induction false} Reachable(hash: Key -> Hash, start: State, ls: seq<Label>)
    requires Fresh(start) && Exec(hash, start, ls).Some?
    ensures Inv(hash, Exec(hash, start, ls).value)
  {
    if ls != [] {
      Reachable(hash, start, ls[..|ls| - 1]);
      hide Inv, Apply, Enabled;
      StepKeeps(hash, Exec(hash, start, ls[..|ls| - 1]).value, ls[|ls| - 1]);
    }
  }

  // ---------- the promises ----------

  /** For any number of processes dying at any point, a key has at most one created
      claim. */
  lemma OneClaimPerKey(hash: Key -> Hash, start: State, ls: seq<Label>, s: State, p: Pid, q: Pid)
    requires Fresh(start) && Exec(hash, start, ls) == Some(s)
    requires p in s.created && q in s.created
    ensures p in s.procs && q in s.procs
    ensures s.procs[p].request.key == s.procs[q].request.key ==> p == q
  {
    Reachable(hash, start, ls);
    assert CreatedFits(hash, s, p) && CreatedFits(hash, s, q);
  }

  predicate SameKey(s: State, p: Pid, q: Pid) {
    p in s.procs && q in s.procs && s.procs[p].request.key == s.procs[q].request.key
  }

  /** And at most one launch, also after the session file was deleted; whoever
      launches has created the claim, and from the launch on the claim with its own
      trace id, session/start under that trace id as first record of a log that was
      not deleted, and both markers are durably on disk. */
  lemma OneLaunchPerKey(hash: Key -> Hash, start: State, ls: seq<Label>, s: State, i: nat)
    requires Fresh(start) && Exec(hash, start, ls) == Some(s) && i < |s.launches|
    ensures
      var p := s.launches[i];
      && p in s.procs && p in s.created
      && Accepted(DirOf(s, hash(s.procs[p].request.key)), p, s.procs[p])
      && forall j | 0 <= j < |s.launches| :: SameKey(s, p, s.launches[j]) ==> i == j
  {
    Reachable(hash, start, ls);
    var p := s.launches[i];
    assert LaunchFits(hash, s, p);
    forall j | 0 <= j < |s.launches| && SameKey(s, p, s.launches[j]) ensures i == j {
      assert LaunchFits(hash, s, s.launches[j]);
      OneClaimPerKey(hash, start, ls, s, p, s.launches[j]);
    }
  }

  /** A repeated request learns the standing claim, for its own key and fingerprint,
      and does not launch. It is told that the policy changed exactly if it did; else
      that the session is initialising, or, with the db marker there, the session's
      trace, or that it is unknown, which takes a deletion. */
  lemma DuplicatesDoNotLaunch(hash: Key -> Hash, start: State, ls: seq<Label>, s: State, p: Pid)
    requires Fresh(start) && Exec(hash, start, ls) == Some(s)
    requires p in s.procs && (s.procs[p].phase.Duplicate? || s.procs[p].phase.Answered?)
    ensures
      var r, c := s.procs[p].request, s.procs[p].phase.existing;
      var d := DirOf(s, hash(r.key));
      && d.claim == Some(c) && c.request.key == r.key && c.request.fingerprint == r.fingerprint
      && (s.procs[p].phase.Answered? ==>
            var reply := s.procs[p].phase.reply;
            && (reply == PolicyChanged <==> c.request.policy != r.policy)
            && reply != Corrupt
            && (reply == Unknown ==> d.db.Present? && d.deleted)
            && (reply.Known? ==>
                  && reply.trace == c.trace && d.db.Present? && (reply.launched ==> d.launch.Present?)
                  && (!d.deleted ==> d.log != [] && d.log[0] == SessionStart(c.trace))))
    ensures p !in s.launches
  {
    Reachable(hash, start, ls);
    assert ProcFits(hash, s, p);
    assert forall q :: q in s.launches ==> LaunchFits(hash, s, q);
  }

  /** What a process has after a step that did not fail. */
  predicate Reached(l: Label, ph: Phase) {
    match l
    case Link(_) => ph.Linked? || ph.Duplicate?
    case SyncClaim(_) => ph == Created
    case InitLog(_) => ph == LogReady
    case MarkDb(_) => ph == DbMarked
    case SyncDb(_) => ph == DbReady
    case MarkLaunch(_) => ph == LaunchMarked
    case SyncLaunch(_) => ph == Cleared
    case DoLaunch(_) => ph == Launched
    case Record(_) => ph == Launched
    case Answer(_) => ph.Answered?
    case Crash(_) => ph == Dead
    case _ => true
  }

  /** A process fails only where it meets the claim of another request, or a log it
      did not start; it wins exactly if it meets no claim, and whoever wins is never
      stopped at a marker. */
  lemma OwnersProceed(hash: Key -> Hash, start: State, ls: seq<Label>, s: State, l: Label)
    requires Fresh(start) && Exec(hash, start, ls) == Some(s)
    requires Enabled(s, l) && !l.Begin? && !l.Delete?
    ensures
      var proc := s.procs[l.pid];
      var d, ph := DirOf(s, hash(proc.request.key)), Apply(hash, s, l).procs[l.pid].phase;
      && (ph == Failed <==>
            || (l.Link? && d.claim.Some?
                && (d.claim.value.request.key != proc.request.key || d.claim.value.request.fingerprint != proc.request.fingerprint))
            || (l.InitLog? && d.log != []))
      && (l.Link? ==> (ph.Linked? <==> d.claim.None?))
      && (ph != Failed ==> Reached(l, ph))
  {
    Reachable(hash, start, ls);
    hide Orderly;
    assert ProcFits(hash, s, l.pid);
  }

  /** The claim is its owner's, and whoever made the markers took the step; what is
      durable was synced. */
  ghost predicate MadeBy(ls: seq<Label>, s: State, d: Dir) {
    && (d.claim.Some? ==> d.claim.value.owner in s.procs && s.procs[d.claim.value.owner].request == d.claim.value.request)
    && (d.claim.Some? ==> (d.claimSynced ==> SyncClaim(d.claim.value.owner) in ls))
    && (d.db.Present? ==> MarkDb(d.db.maker) in ls && (d.db.synced ==> SyncDb(d.db.maker) in ls))
    && (d.launch.Present? ==> MarkLaunch(d.launch.maker) in ls && (d.launch.synced ==> SyncLaunch(d.launch.maker) in ls))
  }

  /** What the steps of q left. */
  ghost predicate Left(hash: Key -> Hash, ls: seq<Label>, s: State, q: Pid) {
    && (q in s.procs ==>
          var d := DirOf(s, hash(s.procs[q].request.key));
          && (MarkDb(q) in ls ==> d.db.Present? && d.db.maker == q)
          && (SyncDb(q) in ls ==> d.db.Present? && d.db.maker == q && d.db.synced)
          && (MarkLaunch(q) in ls ==> d.launch.Present? && d.launch.maker == q)
          && (SyncLaunch(q) in ls ==> d.launch.Present? && d.launch.maker == q && d.launch.synced)
          && (SyncClaim(q) in ls ==> d.claim.Some? && d.claim.value.owner == q && d.claimSynced))
    && (MarkDb(q) in ls || SyncDb(q) in ls || MarkLaunch(q) in ls || SyncLaunch(q) in ls || SyncClaim(q) in ls ==> q in s.procs)
    && (q in s.created <==> SyncClaim(q) in ls)
    && (q in s.launches <==> DoLaunch(q) in ls)
  }

  lemma {:induction false} StepsLeave(hash: Key -> Hash, start: State, ls: seq<Label>, s: State)
    requires Fresh(start) && Exec(hash, start, ls) == Some(s)
    ensures forall h :: MadeBy(ls, s, DirOf(s, h))
    ensures forall q :: Left(hash, ls, s, q)
  {
    if ls != [] {
      var n := |ls| - 1;
      var front, l := ls[..n], ls[n];
      assert ls == front + [l];
      var b := Exec(hash, start, front).value;
      StepsLeave(hash, start, front, b);
      Reachable(hash, start, front);
      hide Exec, MadeBy, Left;
      forall h ensures MadeBy(ls, s, DirOf(s, h)) {
        MadeNow(hash, front, b, l, h);
      }
      forall q ensures Left(hash, ls, s, q) {
        LeftNow(hash, front, b, l, q);
      }
    }
  }

  lemma ActMakes(ls: seq<Label>, s: State, d: Dir, p: Pid, proc: Process, l: Label)
    requires May(proc.phase, l) && Fits(d, p, proc) && MadeBy(ls, s, d) && l.pid == p && p in s.procs && s.procs[p] == proc
    ensures MadeBy(ls + [l], s, Act(d, p, proc, l).dir)
  {
    assert forall x :: x in ls + [l] <==> x in ls || x == l;
  }

  lemma MadeNow(hash: Key -> Hash, ls: seq<Label>, b: State, l: Label, h: Hash)
    requires Inv(hash, b) && Enabled(b, l) && MadeBy(ls, b, DirOf(b, h))
    ensures MadeBy(ls + [l], Apply(hash, b, l), DirOf(Apply(hash, b, l), h))
  {
    var d := DirOf(b, h);
    hide Act, Fits, Orderly, Grows;
    if !l.Begin? && h == hash(b.procs[l.pid].request.key) {
      assert ProcFits(hash, b, l.pid);
      ActMakes(ls, b, d, l.pid, b.procs[l.pid], l);
    } else {
      assert forall x :: x in ls ==> x in ls + [l];
    }
    var e := DirOf(Apply(hash, b, l), h);
    if e.claim.Some? && e.claim.value.owner in b.procs {
      Elsewhere(hash, b, l, h, e.claim.value.owner);
    }
  }

  lemma LeftNow(hash: Key -> Hash, ls: seq<Label>, b: State, l: Label, q: Pid)
    requires Inv(hash, b) && Enabled(b, l) && Left(hash, ls, b, q)
    ensures Left(hash, ls + [l], Apply(hash, b, l), q)
  {
    if q in b.procs {
      Elsewhere(hash, b, l, hash(b.procs[q].request.key), q);
      assert ProcFits(hash, b, q);
    }
  }

  /** The markers of q's directory are q's exactly if q took the steps that make
      them, and durable exactly if it took those that sync them; those who created a
      claim, and those who launched, are those who took these steps. */
  lemma MarksAreSteps(hash: Key -> Hash, start: State, ls: seq<Label>, s: State, q: Pid)
    requires Fresh(start) && Exec(hash, start, ls) == Some(s) && q in s.procs
    ensures
      var d := DirOf(s, hash(s.procs[q].request.key));
      && (d.db.Present? && d.db.maker == q <==> MarkDb(q) in ls)
      && (d.db.Present? && d.db.maker == q && d.db.synced <==> SyncDb(q) in ls)
      && (d.launch.Present? && d.launch.maker == q <==> MarkLaunch(q) in ls)
      && (d.launch.Present? && d.launch.maker == q && d.launch.synced <==> SyncLaunch(q) in ls)
      && (q in s.created <==> SyncClaim(q) in ls)
      && (ClaimOf(d, q, s.procs[q]) && d.claimSynced <==> SyncClaim(q) in ls)
      && (q in s.launches <==> DoLaunch(q) in ls)
  {
    StepsLeave(hash, start, ls, s);
    hide Exec, Fresh;
    assert Left(hash, ls, s, q) && MadeBy(ls, s, DirOf(s, hash(s.procs[q].request.key)));
    if q in s.created {
      Reachable(hash, start, ls);
      assert CreatedFits(hash, s, q);
    }
  }

  /** A deleted log stays empty until it is started again. */
  lemma {:induction false} DeletedIsGone(hash: Key -> Hash, start: State, ls: seq<Label>, s: State, h: Hash)
    requires Exec(hash, start, ls) == Some(s) && (DirOf(start, h).deleted ==> DirOf(start, h).log == [])
    ensures DirOf(s, h).deleted ==> DirOf(s, h).log == []
  {
    if ls != [] {
      var n := |ls| - 1;
      DeletedIsGone(hash, start, ls[..n], Exec(hash, start, ls[..n]).value, h);
    }
  }

  /** A reply tells what was there when it was given: initialising exactly before the
      owner's db marker, unknown exactly with the marker and no log, else the trace of
      the claim, as launched exactly after the owner's launch marker. */
  ghost predicate Tells(ls: seq<Label>, d: Dir, r: Request, c: Claim, reply: Reply) {
    && d.claim == Some(c)
    && (reply == PolicyChanged <==> c.request.policy != r.policy)
    && (reply == Initializing <==> c.request.policy == r.policy && MarkDb(c.owner) !in ls)
    && (reply == Unknown <==> c.request.policy == r.policy && MarkDb(c.owner) in ls && d.log == [])
    && (reply.Known? <==> c.request.policy == r.policy && MarkDb(c.owner) in ls && d.log != [])
    && (reply.Known? ==> reply.trace == c.trace && (reply.launched <==> MarkLaunch(c.owner) in ls))
  }

  lemma AnswerTells(hash: Key -> Hash, start: State, ls: seq<Label>, s: State, p: Pid)
    requires Fresh(start) && Exec(hash, start, ls) == Some(s) && Enabled(s, Answer(p))
    ensures
      var r, ph := s.procs[p].request, Apply(hash, s, Answer(p)).procs[p].phase;
      ph.Answered? && Tells(ls, DirOf(s, hash(r.key)), r, ph.existing, ph.reply)
  {
    Reachable(hash, start, ls);
    StepsLeave(hash, start, ls, s);
    hide Exec, Fresh;
    var d := DirOf(s, hash(s.procs[p].request.key));
    assert ProcFits(hash, s, p) && Orderly(d) && MadeBy(ls, s, d);
    assert Left(hash, ls, s, d.claim.value.owner);
  }

  lemma {:induction false} RepliesTell(hash: Key -> Hash, start: State, ls: seq<Label>, s: State, p: Pid)
    returns (i: nat, was: State)
    requires Fresh(start) && Exec(hash, start, ls) == Some(s) && p in s.procs && s.procs[p].phase.Answered?
    ensures i < |ls| && ls[i] == Answer(p) && Exec(hash, start, ls[..i]) == Some(was)
    ensures
      var r, ph := s.procs[p].request, s.procs[p].phase;
      Tells(ls[..i], DirOf(was, hash(r.key)), r, ph.existing, ph.reply)
  {
    var n := |ls| - 1;
    var front, l := ls[..n], ls[n];
    var b := Exec(hash, start, front).value;
    hide Tells;
    if l == Answer(p) {
      i, was := n, b;
      AnswerTells(hash, start, front, b, p);
    } else {
      i, was := RepliesTell(hash, start, front, b, p);
      assert front[..i] == ls[..i];
    }
  }

  // ---------- the code ----------

  datatype Outcome = Won | Lost(existing: Claim) | Conflict

  datatype Status = NotSubmitted | Mismatched | Submitted(claim: Claim, initialized: bool, launched: bool, sessionExists: bool)

  /** The registry's files; each method does what one process does without another
      one in between. */
  class Registry {
    const hash: Key -> Hash
    var dirs: map<Hash, Dir>

    constructor (hash: Key -> Hash)
      ensures this.hash == hash && dirs == map[]
    {
      this.hash := hash;
      dirs := map[];
    }

    function At(key: Key): Dir
      reads this
    {
      DirOf(State(dirs, map[], {}, []), hash(key))
    }

    /** Link, then sync, or read what is there. */
    method TryClaim(p: Pid, r: Request, trace: string) returns (out: Outcome)
      modifies this
      ensures
        var proc := Process(r, trace, Ready);
        var linked := Act(old(At(r.key)), p, proc, Link(p));
        if linked.phase.Linked? then
          out == Won && At(r.key) == Act(linked.dir, p, proc, SyncClaim(p)).dir
        else
          && dirs == old(dirs)
          && out == if linked.phase.Duplicate? then Lost(linked.phase.existing) else Conflict
      ensures forall h :: h != hash(r.key) ==> (h in dirs <==> h in old(dirs)) && (h in dirs ==> dirs[h] == old(dirs)[h])
    {
      var d := At(r.key);
      if d.claim.Some? {
        var existing := d.claim.value;
        if existing.request.key != r.key {
          return Conflict;
        }
        if existing.request.fingerprint != r.fingerprint {
          return Conflict;
        }
        return Lost(existing);
      }
      dirs := dirs[hash(r.key) := d.(claim := Some(Claim(r, trace, p)), claimSynced := false)];
      dirs := dirs[hash(r.key) := At(r.key).(claimSynced := true)];
      return Won;
    }

    /** A marker: refused without a claim; created exclusively, and synced. */
    method MarkLaunched(p: Pid, key: Key) returns (ok: bool)
      modifies this
      ensures ok <==> old(At(key)).claim.Some? && old(At(key)).launch.Absent?
      ensures At(key) == if ok then old(At(key)).(launch := Present(true, p)) else old(At(key))
    {
      var d := At(key);
      if d.claim.None? {
        return false;
      }
      if d.launch.Present? {
        return false;
      }
      dirs := dirs[hash(key) := d.(launch := Present(false, p))];
      dirs := dirs[hash(key) := At(key).(launch := Present(true, p))];
      return true;
    }

    method Lookup(key: Key) returns (st: Status)
      ensures
        var d := At(key);
        match d.claim
        case None => st == NotSubmitted
        case Some(c) =>
          if c.request.key != key then st == Mismatched
          else st == Submitted(c, d.db.Present?, d.launch.Present?, d.log != [])
    {
      var d := At(key);
      if d.claim.None? {
        return NotSubmitted;
      }
      var c := d.claim.value;
      if c.request.key != key {
        return Mismatched;
      }
      return Submitted(c, d.db.Present?, d.launch.Present?, d.log != []);
    }

    /** What a request is told that met the claim. */
    method ReplayAcceptance(r: Request, met: Claim) returns (reply: Reply)
      ensures reply == ReplyTo(At(r.key), r, met)
    {
      if met.request.policy != r.policy {
        return PolicyChanged;
      }
      var status := Lookup(r.key);
      if !status.Submitted? {
        return Corrupt;
      }
      if !status.initialized {
        return Initializing;
      }
      if !status.sessionExists {
        return Unknown;
      }
      return Known(met.trace, status.launched);
    }
  }
}
