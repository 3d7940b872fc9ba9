/**
  Policy profiles: merging two of them, evaluating a spawn request, and why a
  merged profile never grants more than either part.
*/
module Policy {
  import opened Wrappers
  import opened Selectors
  import opened Sorting

  datatype Budget = Budget(tokens: int, timeMs: int, maxDepth: int)

  datatype Profile = Profile(
    id: string, fsScope: seq<string>, egress: seq<string>, extensions: seq<string>, registries: seq<string>,
    budget: Budget, auto: bool)

  datatype Extension = Extension(name: string, version: string, integrity: string, source: string, egress: seq<string>)

  datatype SpawnRequest = SpawnRequest(workspace: string, egress: seq<string>, extensions: seq<Extension>, depth: int)

  // ---------- what a profile means ----------

  /** The hosts a list stands for. */
  function Hosts(env: Env, list: seq<string>): set<string> {
    set raw | raw in list && Canon(env, raw) != "" :: Canon(env, raw)
  }

  /** The selectors a list stands for, and their canonical texts. */
  function Selected(env: Env, list: seq<string>): set<Selector> {
    set raw | raw in list && Parse(env, raw).Some? :: Parse(env, raw).value
  }

  function Names(env: Env, list: seq<string>): set<string> {
    set raw | raw in list && Canonical(env, raw).Some? :: Canonical(env, raw).value
  }

  /** A list of names admits an extension by its name, or by name and registry. */
  predicate Admits(env: Env, list: seq<string>, name: string, source: string) {
    name in Names(env, list) || name + "@" + source in Names(env, list)
  }

  predicate IsAbs(path: string) {
    path != [] && path[0] == '/'
  }

  predicate Below(cleaned: string, workspace: string) {
    workspace == cleaned || cleaned + "/" <= workspace
  }

  /** One scope entry admits the (cleaned) workspace. Only a literal "/" opens everything. */
  predicate Covers(env: Env, entry: string, workspace: string) {
    IsAbs(entry) && (entry == "/" || (env.clean(entry) != "/" && Below(env.clean(entry), workspace)))
  }

  predicate InScope(env: Env, scope: seq<string>, workspace: string) {
    exists entry | entry in scope :: Covers(env, entry, workspace)
  }

  predicate HostOk(env: Env, raw: string) {
    Registry(env, raw).Some?
  }

  /** The declaration is well-formed. */
  predicate WellFormed(env: Env, e: Extension) {
    && env.validVersion(e.version) && env.validDigest(e.integrity)
    && HostOk(env, e.source)
    && e.name != "" && Trim(env, e.name) == e.name
    && (forall raw | raw in e.egress :: HostOk(env, raw))
  }

  /** What tells two declarations apart. */
  function Identity(env: Env, e: Extension): string {
    e.name + "\0" + e.version + "\0" + e.integrity + "\0" + Canon(env, e.source)
  }

  predicate Authorised(env: Env, p: Profile, e: Extension) {
    Admits(env, p.extensions, e.name, Canon(env, e.source)) && Canon(env, e.source) in Hosts(env, p.registries)
  }

  predicate Declared(env: Env, es: seq<Extension>) {
    && (forall e | e in es :: WellFormed(env, e))
    && (forall i, j :: 0 <= i < j < |es| ==> Identity(env, es[i]) != Identity(env, es[j]))
  }

  /** Evaluate accepts. */
  predicate Accepts(env: Env, p: Profile, r: SpawnRequest) {
    && r.depth < p.budget.maxDepth
    && IsAbs(r.workspace)
    && InScope(env, p.fsScope, env.clean(r.workspace))
    && Declared(env, r.extensions)
    && (forall e | e in r.extensions :: Authorised(env, p, e))
  }

  /** The hosts a request asks for, itself and through its extensions. */
  function Requested(env: Env, r: SpawnRequest): set<string> {
    Hosts(env, r.egress)
    + set e, raw | e in r.extensions && raw in e.egress && Canon(env, Canon(env, raw)) != "" :: Canon(env, Canon(env, raw))
  }

  function Granted(env: Env, p: Profile, r: SpawnRequest): set<string> {
    Requested(env, r) * Hosts(env, p.egress)
  }

  // ---------- what the scope means ----------

  /** The first slash, or the end. */
  function SlashAt(s: string): (i: nat)
    ensures i <= |s| && '/' !in s[..i] && (i < |s| ==> s[i] == '/')
  {
    if s == [] || s[0] == '/' then 0 else 1 + SlashAt(s[1..])
  }

  /** The components of a path, split at every slash. */
  function Components(path: string): seq<string>
    decreases |path|
  {
    var i := SlashAt(path);
    if i == |path| then [path] else [path[..i]] + Components(path[i + 1..])
  }

  function Join(parts: seq<string>): string
    requires parts != []
  {
    if |parts| == 1 then parts[0] else parts[0] + "/" + Join(parts[1..])
  }

  lemma SlashAtIs(s: string, i: nat)
    requires i <= |s| && '/' !in s[..i] && (i < |s| ==> s[i] == '/')
    ensures SlashAt(s) == i
  {
  }

  lemma {:induction false} ComponentsConcat(a: string, b: string)
    ensures Components(a + "/" + b) == Components(a) + Components(b)
    decreases |a|
  {
    var s, i := a + "/" + b, SlashAt(a);
    assert s[..i] == a[..i];
    SlashAtIs(s, i);
    if i == |a| {
      assert s[i + 1..] == b && s[..i] == a;
    } else {
      assert s[i + 1..] == a[i + 1..] + "/" + b;
      ComponentsConcat(a[i + 1..], b);
      assert [a[..i]] + (Components(a[i + 1..]) + Components(b)) == Components(a) + Components(b);
    }
  }

  lemma {:induction false} JoinsBack(path: string)
    ensures Components(path) != [] && Join(Components(path)) == path
    decreases |path|
  {
    hide SlashAt, Join;
    var i := SlashAt(path);
    if i < |path| {
      var rest := Components(path[i + 1..]);
      JoinsBack(path[i + 1..]);
      JoinCons(path[..i], rest);
      assert path == path[..i] + "/" + path[i + 1..];
    } else {
      JoinOne(path);
    }
  }

  lemma JoinOne(part: string)
    ensures Join([part]) == part
  {
  }

  lemma JoinCons(part: string, parts: seq<string>)
    requires parts != []
    ensures Join([part] + parts) == part + "/" + Join(parts)
  {
    assert ([part] + parts)[1..] == parts;
  }

  lemma {:induction false} JoinConcat(a: seq<string>, b: seq<string>)
    requires a != [] && b != []
    ensures Join(a + b) == Join(a) + "/" + Join(b)
  {
    if |a| == 1 {
      assert (a + b)[1..] == b;
    } else {
      assert (a + b)[1..] == a[1..] + b;
      JoinConcat(a[1..], b);
    }
  }

  /** A workspace lies at or below a scope entry exactly if the entry's components
      begin the workspace's: a sibling whose name only continues the entry's does not. */
  lemma BelowByComponents(cleaned: string, workspace: string)
    ensures Below(cleaned, workspace) <==> Components(cleaned) <= Components(workspace)
  {
    hide Components, Join;
    var a, b := Components(cleaned), Components(workspace);
    JoinsBack(cleaned);
    JoinsBack(workspace);
    if cleaned + "/" <= workspace {
      var rest := workspace[|cleaned| + 1..];
      assert workspace == cleaned + "/" + rest;
      ComponentsConcat(cleaned, rest);
    }
    if a <= b && a != b {
      assert b == a + b[|a|..];
      JoinConcat(a, b[|a|..]);
      assert workspace == cleaned + "/" + Join(b[|a|..]);
    }
  }

  /** Some scope entry covers the workspace: the whole tree, said literally, or a
      directory whose components begin the workspace's. */
  ghost predicate Inside(env: Env, scope: seq<string>, workspace: string) {
    exists entry ::
      && entry in scope && entry != "" && entry[0] == '/'
      && (entry == "/" || (env.clean(entry) != "/" && Components(env.clean(entry)) <= Components(workspace)))
  }

  lemma InsideIsScope(env: Env, scope: seq<string>, workspace: string)
    ensures InScope(env, scope, workspace) <==> Inside(env, scope, workspace)
  {
    hide Components;
    forall entry | entry in scope ensures Below(env.clean(entry), workspace) <==> Components(env.clean(entry)) <= Components(workspace) {
      BelowByComponents(env.clean(entry), workspace);
    }
  }

  /** A host name that evaluation takes: something, no address, no delimiter. */
  ghost predicate NamesHost(env: Env, raw: string) {
    Canon(env, raw) != "" && !env.isIP(Canon(env, raw)) && forall ch :: ch in Trim(env, raw) ==> ch !in DELIMITERS
  }

  /** An extension that evaluation takes under the profile: well-formed in each part,
      from one of the registries, and named by a selector that is free or bound to it. */
  ghost predicate Permitted(env: Env, p: Profile, e: Extension) {
    && env.validVersion(e.version) && env.validDigest(e.integrity)
    && e.name != "" && !env.space(e.name[0]) && !env.space(e.name[|e.name| - 1])
    && NamesHost(env, e.source) && (forall raw :: raw in e.egress ==> NamesHost(env, raw))
    && (exists raw :: raw in p.registries && Canon(env, raw) == Canon(env, e.source))
    && (exists raw :: raw in p.extensions &&
          (Canonical(env, raw) == Some(e.name) || Canonical(env, raw) == Some(e.name + "@" + Canon(env, e.source))))
  }

  lemma TrimmedEnds(env: Env, s: string)
    requires s != ""
    ensures Trim(env, s) == s <==> !env.space(s[0]) && !env.space(s[|s| - 1])
  {
    if env.space(s[0]) {
      TrimLeftShorter(env, s[1..]);
      TrimRightShorter(env, TrimLeft(env, s));
    } else if env.space(s[|s| - 1]) {
      TrimRightShorter(env, s[..|s| - 1]);
    }
  }

  lemma PermittedIs(env: Env, p: Profile, e: Extension)
    ensures WellFormed(env, e) && Authorised(env, p, e) <==> Permitted(env, p, e)
  {
    hide Canon, Trim, Canonical;
    if e.name != "" {
      TrimmedEnds(env, e.name);
    }
    forall raw ensures HostOk(env, raw) <==> NamesHost(env, raw) {
    }
    if Canon(env, e.source) != "" {
      assert Canon(env, e.source) in Hosts(env, p.registries) <==> exists raw :: raw in p.registries && Canon(env, raw) == Canon(env, e.source);
    }
  }

  /** Exactly which requests a profile accepts. */
  lemma AcceptsMeans(env: Env, p: Profile, r: SpawnRequest)
    ensures Accepts(env, p, r) <==>
      && r.depth < p.budget.maxDepth
      && r.workspace != "" && r.workspace[0] == '/' && Inside(env, p.fsScope, env.clean(r.workspace))
      && (forall e :: e in r.extensions ==> Permitted(env, p, e))
      && (forall i, j :: 0 <= i < j < |r.extensions| ==> Identity(env, r.extensions[i]) != Identity(env, r.extensions[j]))
  {
    hide InScope, Inside, WellFormed, Authorised, Permitted, Identity;
    InsideIsScope(env, p.fsScope, env.clean(r.workspace));
    forall e | e in r.extensions ensures WellFormed(env, e) && Authorised(env, p, e) <==> Permitted(env, p, e) {
      PermittedIs(env, p, e);
    }
  }

  lemma LastPart(x: string, y: string, u: string, v: string)
    requires x + "\0" + u == y + "\0" + v && '\0' !in u && '\0' !in v
    ensures x == y && u == v
  {
    var s := x + "\0" + u;
    assert s[|x|] == '\0' && forall i :: |x| < i < |s| ==> s[i] == u[i - |x| - 1];
    assert s[|y|] == '\0' && forall i :: |y| < i < |s| ==> s[i] == v[i - |y| - 1];
    assert x == s[..|x|] && u == s[|x| + 1..];
  }

  /** Declarations count as the same exactly if name, version, digest and source agree,
      whatever the names hold. */
  lemma IdentityTells(env: Env, a: Extension, b: Extension)
    requires forall e :: e in [a, b] ==> '\0' !in e.version && '\0' !in e.integrity && '\0' !in Canon(env, e.source)
    ensures Identity(env, a) == Identity(env, b) <==>
      a.name == b.name && a.version == b.version && a.integrity == b.integrity && Canon(env, a.source) == Canon(env, b.source)
  {
    hide Canon;
    assert a in [a, b] && b in [a, b];
    if Identity(env, a) == Identity(env, b) {
      LastPart(a.name + "\0" + a.version + "\0" + a.integrity, b.name + "\0" + b.version + "\0" + b.integrity,
               Canon(env, a.source), Canon(env, b.source));
      LastPart(a.name + "\0" + a.version, b.name + "\0" + b.version, a.integrity, b.integrity);
      LastPart(a.name, b.name, a.version, b.version);
    }
  }

  // ---------- merging ----------

  /** Two selectors meet when they name the same extension and no two different
      registries; the meeting is bound if either is. */
  predicate Meets(l: Selector, r: Selector) {
    l.name == r.name && (l.source == "" || r.source == "" || l.source == r.source)
  }

  function Meeting(l: Selector, r: Selector): Selector {
    Selector(r.name, if l.source == "" then r.source else l.source)
  }

  ghost predicate IsMeeting(env: Env, a: seq<string>, b: seq<string>, text: string) {
    exists l, r :: l in Selected(env, a) && r in Selected(env, b) && Meets(l, r) && text == Text(Meeting(l, r))
  }

  ghost predicate InOrder(xs: seq<string>) {
    Distinct(xs) && Sorted(StringLe, xs)
  }

  function Min(a: int, b: int): int {
    if a < b then a else b
  }

  ghost predicate Common(a: seq<string>, b: seq<string>, m: seq<string>) {
    forall x :: x in m <==> x in a && x in b
  }

  ghost predicate CommonHosts(env: Env, a: seq<string>, b: seq<string>, m: seq<string>) {
    forall x :: x in m <==> x in Hosts(env, a) && x in Hosts(env, b)
  }

  ghost predicate Meetings(env: Env, a: seq<string>, b: seq<string>, m: seq<string>) {
    forall x :: x in m <==> IsMeeting(env, a, b, x)
  }

  /** m is the merge of a and b. */
  ghost predicate Merged(env: Env, a: Profile, b: Profile, m: Profile) {
    && Common(a.fsScope, b.fsScope, m.fsScope)
    && Common(a.egress, b.egress, m.egress)
    && Meetings(env, a.extensions, b.extensions, m.extensions)
    && CommonHosts(env, a.registries, b.registries, m.registries)
    && InOrder(m.fsScope) && InOrder(m.egress) && InOrder(m.extensions) && InOrder(m.registries)
    && m.budget == Budget(Min(a.budget.tokens, b.budget.tokens), Min(a.budget.timeMs, b.budget.timeMs),
                          Min(a.budget.maxDepth, b.budget.maxDepth))
    && (m.auto <==> a.auto && b.auto)
  }

  /** Every registry host and selector host is a fixed point of canonicalisation. */
  predicate FixedHosts(env: Env, p: Profile) {
    && (forall raw | raw in p.registries :: Canon(env, raw) == raw)
    && FixedSelectors(env, p.extensions)
  }

  predicate FixedSelectors(env: Env, list: seq<string>) {
    forall raw | raw in list :: Parse(env, raw).Some? ==> FixedSource(env, Parse(env, raw).value)
  }

  /** The name reads as a selector bound to a registry. */
  predicate Qualified(env: Env, name: string) {
    Canonical(env, name) == Some(name) && '@' in name
  }

  /** The name reads as a bound selector whose own name could stand alone. */
  predicate Ambiguous(env: Env, name: string) {
    var x := Split(name).name;
    Qualified(env, name) && Trimmed(env, x) && '@' !in x
  }

  /** The name is one of a merged list's bound selectors, whose own name could stand
      alone. */
  predicate Confused(env: Env, list: seq<string>, name: string) {
    name in Names(env, list) && '@' in name && Trimmed(env, Split(name).name) && '@' !in Split(name).name
  }

  /** The list holds the selector, or its name unbound. */
  predicate Knows(env: Env, list: seq<string>, sel: Selector) {
    sel in Selected(env, list) || Selector(sel.name, "") in Selected(env, list)
  }

  /** sel is what evaluation reads in place of a meeting of a and b. */
  ghost predicate Reading(env: Env, a: seq<string>, b: seq<string>, sel: Selector) {
    exists x :: IsMeeting(env, a, b, x) && Parse(env, x) == Some(sel)
  }

  /** Reading a meeting leads to nothing that either list does not know. */
  ghost predicate SelectorsClosed(env: Env, a: seq<string>, b: seq<string>) {
    forall sel :: Reading(env, a, b, sel) ==> Knows(env, a, sel) && Knows(env, b, sel)
  }

  /** Canonicalising a host that both lists stand for leads to one that both do. */
  ghost predicate RegistriesClosed(env: Env, a: seq<string>, b: seq<string>) {
    forall h :: h in Hosts(env, a) && h in Hosts(env, b) && Canon(env, h) != "" ==>
      Canon(env, h) in Hosts(env, a) && Canon(env, h) in Hosts(env, b)
  }

  // ---------- selectors ----------

  lemma NamesAreTexts(env: Env, list: seq<string>, text: string)
    requires Sane(env)
    ensures text in Names(env, list) <==> exists sel :: sel in Selected(env, list) && text == Text(sel)
  {
    if text in Names(env, list) {
      var raw :| raw in list && Canonical(env, raw) == Some(text);
      ParseShape(env, raw);
      assert Parse(env, raw).value in Selected(env, list);
    }
    forall sel | sel in Selected(env, list) ensures Text(sel) in Names(env, list) {
      var raw :| raw in list && Parse(env, raw) == Some(sel);
      ParseShape(env, raw);
    }
  }

  /** What is known of every selector of a list. */
  lemma SelectedShape(env: Env, list: seq<string>, sel: Selector)
    requires Sane(env) && sel in Selected(env, list)
    ensures sel.name != "" && '@' !in sel.source && (sel.source == "" ==> Trimmed(env, sel.name) && '@' !in sel.name)
  {
    var raw :| raw in list && Parse(env, raw) == Some(sel);
    ParseShape(env, raw);
  }

  lemma SameText(s: Selector, t: Selector)
    requires Text(s) == Text(t)
    requires '@' !in s.source && (s.source == "" ==> '@' !in s.name)
    requires '@' !in t.source && (t.source == "" ==> '@' !in t.name)
    ensures s == t
  {
    SplitText(s);
    SplitText(t);
  }

  /** A bound name is admitted by exactly the selector that spells it. */
  lemma BoundName(env: Env, list: seq<string>, name: string, source: string)
    requires Sane(env) && source != "" && '@' !in source
    ensures name + "@" + source in Names(env, list) <==> Selector(name, source) in Selected(env, list)
  {
    var t := Selector(name, source);
    NamesAreTexts(env, list, Text(t));
    forall sel | sel in Selected(env, list) && Text(sel) == Text(t) ensures sel == t {
      SelectedShape(env, list, sel);
      SameText(sel, t);
    }
  }

  lemma SelectedReadsBack(env: Env, list: seq<string>, sel: Selector)
    requires Sane(env) && FixedSelectors(env, list) && sel in Selected(env, list)
    ensures Canonical(env, Text(sel)) == Some(Text(sel)) && Parse(env, Text(sel)) == Some(sel)
  {
    var raw :| raw in list && Parse(env, raw) == Some(sel);
    FixedReadsBack(env, raw);
  }

  /** A bare name is admitted by exactly the unbound selector, unless it reads as
      a bound one. */
  lemma BareName(env: Env, list: seq<string>, name: string)
    requires Sane(env) && FixedSelectors(env, list) && !Qualified(env, name)
    ensures name in Names(env, list) <==> Selector(name, "") in Selected(env, list)
  {
    NamesAreTexts(env, list, name);
    forall sel | sel in Selected(env, list) && Text(sel) == name ensures sel == Selector(name, "") {
      SelectedReadsBack(env, list, sel);
    }
  }

  lemma MeetingIsOne(l: Selector, r: Selector)
    requires Meets(l, r)
    ensures Meeting(l, r) == if l.source == "" then r else l
  {
  }

  /** The merged list stands for exactly the meetings. */
  lemma MergedSelected(env: Env, a: seq<string>, b: seq<string>, m: seq<string>, sel: Selector)
    requires Sane(env) && FixedSelectors(env, a) && FixedSelectors(env, b)
    requires Meetings(env, a, b, m)
    ensures sel in Selected(env, m) <==>
      exists l, r :: l in Selected(env, a) && r in Selected(env, b) && Meets(l, r) && sel == Meeting(l, r)
  {
    if sel in Selected(env, m) {
      var raw :| raw in m && Parse(env, raw) == Some(sel);
      var l, r :| l in Selected(env, a) && r in Selected(env, b) && Meets(l, r) && raw == Text(Meeting(l, r));
      MeetingReadsBack(env, a, b, l, r);
    }
    forall l, r | l in Selected(env, a) && r in Selected(env, b) && Meets(l, r) && sel == Meeting(l, r)
      ensures sel in Selected(env, m)
    {
      MeetingReadsBack(env, a, b, l, r);
      assert Text(sel) in m;
    }
  }

  lemma MeetingReadsBack(env: Env, a: seq<string>, b: seq<string>, l: Selector, r: Selector)
    requires Sane(env) && FixedSelectors(env, a) && FixedSelectors(env, b)
    requires l in Selected(env, a) && r in Selected(env, b) && Meets(l, r)
    ensures Parse(env, Text(Meeting(l, r))) == Some(Meeting(l, r))
  {
    MeetingIsOne(l, r);
    SelectedReadsBack(env, a, l);
    SelectedReadsBack(env, b, r);
  }

  lemma MergedFixed(env: Env, a: seq<string>, b: seq<string>, m: seq<string>)
    requires Sane(env) && FixedSelectors(env, a) && FixedSelectors(env, b)
    requires Meetings(env, a, b, m)
    ensures FixedSelectors(env, m)
  {
    forall raw | raw in m ensures Parse(env, raw).Some? ==> FixedSource(env, Parse(env, raw).value) {
      var l, r :| l in Selected(env, a) && r in Selected(env, b) && Meets(l, r) && raw == Text(Meeting(l, r));
      MeetingReadsBack(env, a, b, l, r);
      MeetingIsOne(l, r);
    }
  }

  /** A merged list of selectors admits an extension exactly when both lists do. */
  lemma MergeAdmitsExactly(env: Env, a: seq<string>, b: seq<string>, m: seq<string>, name: string, source: string)
    requires Sane(env) && FixedSelectors(env, a) && FixedSelectors(env, b)
    requires Meetings(env, a, b, m)
    requires !Qualified(env, name) && source != "" && '@' !in source
    ensures Admits(env, m, name, source) <==> Admits(env, a, name, source) && Admits(env, b, name, source)
  {
    MergedFixed(env, a, b, m);
    BareName(env, a, name);
    BareName(env, b, name);
    BareName(env, m, name);
    BoundName(env, a, name, source);
    BoundName(env, b, name, source);
    BoundName(env, m, name, source);
    hide Names, Selected, Qualified, Text, IsMeeting, FixedSelectors, Sane;
    var free, bound := Selector(name, ""), Selector(name, source);
    MergedSelected(env, a, b, m, free);
    MergedSelected(env, a, b, m, bound);
    forall l, r | l in Selected(env, a) && r in Selected(env, b) && Meets(l, r) &&
        (Meeting(l, r) == free || Meeting(l, r) == bound)
      ensures (l == free || l == bound) && (r == free || r == bound)
    {
    }
    if (free in Selected(env, a) || bound in Selected(env, a)) && (free in Selected(env, b) || bound in Selected(env, b)) {
      var l := if free in Selected(env, a) then free else bound;
      var r := if free in Selected(env, b) then free else bound;
      assert Meets(l, r) && (Meeting(l, r) == free || Meeting(l, r) == bound);
    }
  }

  /** A list of one selector. */
  lemma Singleton(env: Env, list: seq<string>, raw: string, sel: Selector)
    requires list == [raw] && Canonical(env, raw) == Some(Text(sel)) && Parse(env, raw) == Some(sel)
    ensures Names(env, list) == {Text(sel)} && Selected(env, list) == {sel}
    ensures FixedSource(env, sel) ==> FixedSelectors(env, list)
  {
    hide Canonical, Parse, Text, FixedSource;
    assert raw in list;
  }

  lemma OneMeeting(env: Env, a: seq<string>, b: seq<string>, l: Selector, r: Selector, x: string)
    requires Selected(env, a) == {l} && Selected(env, b) == {r}
    ensures IsMeeting(env, a, b, x) <==> Meets(l, r) && x == Text(Meeting(l, r))
  {
    hide Selected, Text, Meets, Meeting;
    assert l in Selected(env, a) && r in Selected(env, b);
  }

  /** And it is exactly so only for names that do not read as bound selectors: such
      a name can be admitted on either side for different reasons. */
  lemma QualifiedNamesDiffer(env: Env, name: string, source: string)
    requires Sane(env) && Qualified(env, name) && Registry(env, source) == Some(source)
    ensures
      var a, b := [name], [name + "@" + source];
      && FixedSelectors(env, a) && FixedSelectors(env, b)
      && Admits(env, a, name, source) && Admits(env, b, name, source)
      && forall x :: !IsMeeting(env, a, b, x)
  {
    var sel, bound := Split(name), Selector(name, source);
    var a, b := [name], [name + "@" + source];
    OwnTextIsFixed(env, name);
    ParseShape(env, name);
    BoundReadsBack(env, name, source);
    Singleton(env, a, name, sel);
    Singleton(env, b, name + "@" + source, bound);
    forall x ensures !IsMeeting(env, a, b, x) {
      OneMeeting(env, a, b, sel, bound, x);
    }
  }

  lemma BoundReadsBack(env: Env, name: string, source: string)
    requires Sane(env) && Registry(env, source) == Some(source) && name != "" && !env.space(name[0])
    ensures
      var bound := Selector(name, source);
      && Text(bound) == name + "@" + source && FixedSource(env, bound)
      && Canonical(env, Text(bound)) == Some(Text(bound)) && Parse(env, Text(bound)) == Some(bound)
  {
    CanonIsClean(env, source);
    TextReadsBack(env, Selector(name, source));
  }

  // ---------- when merged selectors narrow ----------

  lemma ReadingIsSelected(env: Env, a: seq<string>, b: seq<string>, m: seq<string>, sel: Selector)
    requires Meetings(env, a, b, m)
    ensures sel in Selected(env, m) <==> Reading(env, a, b, sel)
  {
    hide Parse, IsMeeting;
  }

  lemma KnownIsAdmitted(env: Env, list: seq<string>, sel: Selector)
    requires Sane(env) && sel in Selected(env, list)
    ensures Text(sel) in Names(env, list)
  {
    NamesAreTexts(env, list, Text(sel));
  }

  /** One direction, for one name that is not confused. */
  lemma NameNarrows(env: Env, a: seq<string>, b: seq<string>, m: seq<string>, list: seq<string>, name: string, source: string)
    requires Sane(env) && Meetings(env, a, b, m) && source != "" && '@' !in source
    requires forall sel :: Reading(env, a, b, sel) ==> Knows(env, list, sel)
    requires !Confused(env, m, name) && Admits(env, m, name, source)
    ensures Admits(env, list, name, source)
  {
    hide Names, Selected, Reading, Canonical, Parse;
    var bound, free := Selector(name, source), Selector(name, "");
    if name in Names(env, m) {
      NamesAreTexts(env, m, name);
      var sel :| sel in Selected(env, m) && name == Text(sel);
      ReadingIsSelected(env, a, b, m, sel);
      SelectedShape(env, m, sel);
      SplitText(sel);
      assert sel.source != "" ==> name[|sel.name|] == '@';
      if sel !in Selected(env, list) {
        SelectedShape(env, list, Selector(sel.name, ""));
        assert false;
      }
      KnownIsAdmitted(env, list, sel);
    } else {
      BoundName(env, m, name, source);
      ReadingIsSelected(env, a, b, m, bound);
      if bound in Selected(env, list) {
        KnownIsAdmitted(env, list, bound);
      } else {
        KnownIsAdmitted(env, list, free);
      }
    }
  }

  lemma {:induction false} Longest(names: set<string>) returns (n: nat)
    ensures forall x :: x in names ==> |x| <= n
  {
    if names == {} {
      n := 0;
    } else {
      var y :| y in names;
      n := Longest(names - {y});
      n := if |y| > n then |y| else n;
    }
  }

  /** A registry that no list of names mentions. */
  lemma UnheardOf(names: set<string>, name: string) returns (source: string)
    ensures source != "" && '@' !in source && name + "@" + source !in names
  {
    var n := Longest(names);
    source := seq(n + 1, _ => 'a');
    assert |name + "@" + source| > n;
  }

  /** A list that admits a selector's text under every registry holds the selector. */
  lemma AdmittedIsHeld(env: Env, list: seq<string>, sel: Selector)
    requires Sane(env) && '@' !in sel.source && (sel.source == "" ==> '@' !in sel.name)
    requires forall source :: source != "" && '@' !in source ==> Admits(env, list, Text(sel), source)
    ensures sel in Selected(env, list)
  {
    var source := UnheardOf(Names(env, list), Text(sel));
    hide Names, Selected;
    assert Admits(env, list, Text(sel), source);
    NamesAreTexts(env, list, Text(sel));
    var held :| held in Selected(env, list) && Text(sel) == Text(held);
    SelectedShape(env, list, held);
    SameText(sel, held);
  }

  ghost predicate Narrows(env: Env, m: seq<string>, list: seq<string>, name: string) {
    forall source :: source != "" && '@' !in source && Admits(env, m, name, source) ==> Admits(env, list, name, source)
  }

  /** If merging narrows for every name that is not confused, each reading is known. */
  lemma NarrowingKnows(env: Env, a: seq<string>, b: seq<string>, m: seq<string>, list: seq<string>, sel: Selector)
    requires Sane(env) && Meetings(env, a, b, m) && Reading(env, a, b, sel)
    requires forall name :: !Confused(env, m, name) ==> Narrows(env, m, list, name)
    ensures Knows(env, list, sel)
  {
    hide Names, Selected, Reading, Canonical, Parse;
    ReadingIsSelected(env, a, b, m, sel);
    SelectedShape(env, m, sel);
    KnownIsAdmitted(env, m, sel);
    if sel.source != "" && Trimmed(env, sel.name) && '@' !in sel.name {
      assert !Confused(env, m, sel.name) && Narrows(env, m, list, sel.name);
      assert Admits(env, m, sel.name, sel.source);
      BoundName(env, list, sel.name, sel.source);
      FreeName(env, list, sel.name);
    } else {
      SplitText(sel);
      assert !Confused(env, m, Text(sel)) && Narrows(env, m, list, Text(sel));
      AdmittedIsHeld(env, list, sel);
    }
  }

  lemma FreeName(env: Env, list: seq<string>, name: string)
    requires Sane(env) && '@' !in name
    ensures name in Names(env, list) <==> Selector(name, "") in Selected(env, list)
  {
    NamesAreTexts(env, list, name);
    hide Names, Selected;
    forall sel | sel in Selected(env, list) && Text(sel) == name ensures sel == Selector(name, "") {
      SelectedShape(env, list, sel);
      SameText(sel, Selector(name, ""));
    }
  }

  /** Merged selectors narrow for every name that the merged list does not confuse
      exactly when reading a meeting leads to nothing new; and for every name at all
      exactly when both lists hold every such reading themselves. */
  lemma SelectorsNarrow(env: Env, a: seq<string>, b: seq<string>, m: seq<string>)
    requires Sane(env) && Meetings(env, a, b, m)
    ensures (forall name :: !Confused(env, m, name) ==> Narrows(env, m, a, name) && Narrows(env, m, b, name))
       <==> SelectorsClosed(env, a, b)
    ensures (forall name :: Narrows(env, m, a, name) && Narrows(env, m, b, name))
       <==> (forall sel :: Reading(env, a, b, sel) ==> sel in Selected(env, a) && sel in Selected(env, b))
  {
    hide Names, Selected, Reading, Canonical, Parse, Meetings, Confused, Narrows, Sane, Knows;
    if forall name :: !Confused(env, m, name) ==> Narrows(env, m, a, name) && Narrows(env, m, b, name) {
      forall sel | Reading(env, a, b, sel) ensures Knows(env, a, sel) && Knows(env, b, sel) {
        NarrowingKnows(env, a, b, m, a, sel);
        NarrowingKnows(env, a, b, m, b, sel);
      }
    }
    if SelectorsClosed(env, a, b) {
      forall name | !Confused(env, m, name) ensures Narrows(env, m, a, name) && Narrows(env, m, b, name) {
        KnowingNarrows(env, a, b, m, a, name);
        KnowingNarrows(env, a, b, m, b, name);
      }
    }
    NarrowsAtAll(env, a, b, m, a);
    NarrowsAtAll(env, a, b, m, b);
  }

  lemma KnowingNarrows(env: Env, a: seq<string>, b: seq<string>, m: seq<string>, list: seq<string>, name: string)
    requires Sane(env) && Meetings(env, a, b, m) && !Confused(env, m, name)
    requires forall sel :: Reading(env, a, b, sel) ==> Knows(env, list, sel)
    ensures Narrows(env, m, list, name)
  {
    hide Admits, Reading, Knows, Meetings, Confused;
    forall source | source != "" && '@' !in source && Admits(env, m, name, source) ensures Admits(env, list, name, source) {
      NameNarrows(env, a, b, m, list, name, source);
    }
  }

  lemma NarrowsAtAll(env: Env, a: seq<string>, b: seq<string>, m: seq<string>, list: seq<string>)
    requires Sane(env) && Meetings(env, a, b, m)
    ensures (forall name :: Narrows(env, m, list, name)) <==>
      forall sel :: Reading(env, a, b, sel) ==> sel in Selected(env, list)
  {
    hide Names, Selected, Reading, Canonical, Parse;
    if forall name :: Narrows(env, m, list, name) {
      forall sel | Reading(env, a, b, sel) ensures sel in Selected(env, list) {
        ReadingIsSelected(env, a, b, m, sel);
        SelectedShape(env, m, sel);
        KnownIsAdmitted(env, m, sel);
        assert Narrows(env, m, list, Text(sel));
        AdmittedIsHeld(env, list, sel);
      }
    }
    if forall sel :: Reading(env, a, b, sel) ==> sel in Selected(env, list) {
      forall name, source | source != "" && '@' !in source && Admits(env, m, name, source)
        ensures Admits(env, list, name, source)
      {
        HeldIsAdmitted(env, a, b, m, list, name, source);
      }
    }
  }

  lemma HeldIsAdmitted(env: Env, a: seq<string>, b: seq<string>, m: seq<string>, list: seq<string>, name: string, source: string)
    requires Sane(env) && Meetings(env, a, b, m) && source != "" && '@' !in source
    requires forall sel :: Reading(env, a, b, sel) ==> sel in Selected(env, list)
    requires Admits(env, m, name, source)
    ensures Admits(env, list, name, source)
  {
    hide Names, Selected, Reading, Canonical, Parse;
    var text := if name in Names(env, m) then name else name + "@" + source;
    NamesAreTexts(env, m, text);
    var sel :| sel in Selected(env, m) && text == Text(sel);
    ReadingIsSelected(env, a, b, m, sel);
    KnownIsAdmitted(env, list, sel);
  }

  /** Lists whose hosts are fixed points are closed, and confuse only ambiguous names. */
  lemma FixedIsClosed(env: Env, a: seq<string>, b: seq<string>, m: seq<string>)
    requires Sane(env) && FixedSelectors(env, a) && FixedSelectors(env, b) && Meetings(env, a, b, m)
    ensures SelectorsClosed(env, a, b)
    ensures forall name :: Confused(env, m, name) ==> Ambiguous(env, name)
  {
    forall sel | Reading(env, a, b, sel) ensures Knows(env, a, sel) && Knows(env, b, sel) {
      ReadingIsSelected(env, a, b, m, sel);
      MergedSelected(env, a, b, m, sel);
      var l, r :| l in Selected(env, a) && r in Selected(env, b) && Meets(l, r) && sel == Meeting(l, r);
      MeetingIsOne(l, r);
    }
    MergedFixed(env, a, b, m);
    forall name | Confused(env, m, name) ensures Ambiguous(env, name) {
      NamesAreTexts(env, m, name);
      var sel :| sel in Selected(env, m) && name == Text(sel);
      SelectedReadsBack(env, m, sel);
    }
  }

  /** With fixed hosts, merging selectors narrows for every name that is not
      ambiguous. */
  lemma MergeAdmitsNarrows(env: Env, a: seq<string>, b: seq<string>, m: seq<string>, name: string, source: string)
    requires Sane(env) && FixedSelectors(env, a) && FixedSelectors(env, b)
    requires Meetings(env, a, b, m)
    requires !Ambiguous(env, name) && source != "" && '@' !in source
    ensures Admits(env, m, name, source) ==> Admits(env, a, name, source) && Admits(env, b, name, source)
  {
    hide Admits, Ambiguous, Confused, Meetings, FixedSelectors;
    FixedIsClosed(env, a, b, m);
    if Admits(env, m, name, source) {
      NameNarrows(env, a, b, m, a, name, source);
      NameNarrows(env, a, b, m, b, name, source);
    }
  }

  /** And only for those: an ambiguous name is admitted by the merge of a list that
      binds it and a list that frees it, though the latter does not admit it. */
  lemma AmbiguousNamesWiden(env: Env, name: string, source: string)
    requires Sane(env) && Ambiguous(env, name)
    ensures
      var a, b := [name], [Split(name).name];
      && FixedSelectors(env, a) && FixedSelectors(env, b)
      && (forall x :: IsMeeting(env, a, b, x) <==> x in [name])
      && Admits(env, [name], name, source) && !Admits(env, b, name, source)
  {
    var sel, a, b := Split(name), [name], [Split(name).name];
    var free := Selector(sel.name, "");
    OwnTextIsFixed(env, name);
    ParseShape(env, name);
    TextReadsBack(env, free);
    Singleton(env, a, name, sel);
    Singleton(env, b, sel.name, free);
    MeetingIsOne(sel, free);
    NotAdmitted(env, b, sel.name, name, source);
    assert Text(sel) == name && sel.source != "" && name in Names(env, a);
    hide Canonical, Parse, Selected, Names, Text, Split, IsMeeting, FixedSelectors, Qualified, Ambiguous;
    forall x ensures IsMeeting(env, a, b, x) <==> x in a {
      OneMeeting(env, a, b, sel, free, x);
    }
  }

  lemma NotAdmitted(env: Env, list: seq<string>, x: string, name: string, source: string)
    requires Names(env, list) == {x} && '@' !in x && '@' in name
    ensures !Admits(env, list, name, source)
  {
    hide Names;
    assert (name + "@" + source)[|name|] == '@';
  }

  // ---------- registries, scope and egress ----------

  /** Merged registries narrow exactly when canonicalising a host that both lists
      stand for leads nowhere new. Fixed points do; "a.." in both lists does not. */
  lemma RegistriesNarrow(env: Env, a: seq<string>, b: seq<string>, m: seq<string>)
    requires CommonHosts(env, a, b, m)
    ensures Hosts(env, m) <= Hosts(env, a) * Hosts(env, b) <==> RegistriesClosed(env, a, b)
  {
    hide Canon;
    if Hosts(env, m) <= Hosts(env, a) * Hosts(env, b) {
      forall h | h in Hosts(env, a) && h in Hosts(env, b) && Canon(env, h) != ""
        ensures Canon(env, h) in Hosts(env, a) && Canon(env, h) in Hosts(env, b)
      {
        assert h in m && Canon(env, h) in Hosts(env, m);
      }
    }
  }

  lemma FixedHostsStay(env: Env, list: seq<string>, h: string)
    requires forall raw | raw in list :: Canon(env, raw) == raw
    requires h in Hosts(env, list)
    ensures Canon(env, h) == h
  {
  }

  lemma FixedRegistriesClosed(env: Env, a: seq<string>, b: seq<string>)
    requires forall raw | raw in a :: Canon(env, raw) == raw
    ensures RegistriesClosed(env, a, b)
  {
    forall h | h in Hosts(env, a) ensures Canon(env, h) == h {
      FixedHostsStay(env, a, h);
    }
  }

  lemma ScopeNarrows(env: Env, a: seq<string>, b: seq<string>, m: seq<string>, w: string)
    requires Common(a, b, m)
    ensures InScope(env, m, w) ==> InScope(env, a, w) && InScope(env, b, w)
  {
  }

  lemma EgressNarrows(env: Env, a: seq<string>, b: seq<string>, m: seq<string>)
    requires Common(a, b, m)
    ensures Hosts(env, m) <= Hosts(env, a) * Hosts(env, b)
  {
  }

  lemma ExtensionNarrows(env: Env, a: Profile, b: Profile, m: Profile, e: Extension)
    requires Sane(env) && Merged(env, a, b, m)
    requires RegistriesClosed(env, a.registries, b.registries) && SelectorsClosed(env, a.extensions, b.extensions)
    requires WellFormed(env, e) && !Confused(env, m.extensions, e.name) && Authorised(env, m, e)
    ensures Authorised(env, a, e) && Authorised(env, b, e)
  {
    hide Canon, Trim, Banned, Hosts, Admits, Confused, SelectorsClosed, RegistriesClosed, Meetings, CommonHosts;
    CanonIsClean(env, e.source);
    RegistriesNarrow(env, a.registries, b.registries, m.registries);
    SelectorsNarrow(env, a.extensions, b.extensions, m.extensions);
    assert Narrows(env, m.extensions, a.extensions, e.name) && Narrows(env, m.extensions, b.extensions, e.name);
  }

  /** The profile authorises extensions of this name from this source. */
  predicate Grants(env: Env, p: Profile, name: string, source: string) {
    source in Hosts(env, p.registries) && Admits(env, p.extensions, name, source)
  }

  /** The profile grants what the selector says, from this source. */
  predicate Honours(env: Env, p: Profile, sel: Selector, source: string) {
    && Grants(env, p, Text(sel), source)
    && (sel.source == source ==> Grants(env, p, sel.name, source))
  }

  /** A granted pair goes back to a selector and a registry. */
  lemma GrantedBy(env: Env, p: Profile, name: string, source: string) returns (sel: Selector)
    requires Sane(env) && Grants(env, p, name, source)
    ensures sel in Selected(env, p.extensions) && '@' !in sel.source
    ensures name == Text(sel) || (name + "@" + source == Text(sel))
  {
    hide Names, Selected, Hosts;
    var text := if name in Names(env, p.extensions) then name else name + "@" + source;
    NamesAreTexts(env, p.extensions, text);
    sel :| sel in Selected(env, p.extensions) && text == Text(sel);
    SelectedShape(env, p.extensions, sel);
  }

  lemma BoundTexts(name: string, source: string, sel: Selector)
    requires source != "" && '@' !in source && '@' !in sel.source
    requires sel.source == "" ==> '@' !in sel.name
    requires name + "@" + source == Text(sel)
    ensures sel == Selector(name, source)
  {
    SameText(Selector(name, source), sel);
  }

  lemma HonouredPair(env: Env, m: Profile, p: Profile, name: string, source: string)
    requires Sane(env) && Grants(env, m, name, source) && source != "" && '@' !in source
    requires forall sel | sel in Selected(env, m.extensions) :: Honours(env, p, sel, source)
    ensures Grants(env, p, name, source)
  {
    hide Names, Selected, Hosts, Admits;
    var sel := GrantedBy(env, m, name, source);
    SelectedShape(env, m.extensions, sel);
    assert Honours(env, p, sel, source);
    if name != Text(sel) {
      BoundTexts(name, source, sel);
    }
  }

  lemma SelectorIsGranted(env: Env, m: Profile, sel: Selector, source: string)
    requires Sane(env) && sel in Selected(env, m.extensions) && source in Hosts(env, m.registries) && source != ""
    ensures Honours(env, m, sel, source)
  {
    hide Names, Selected, Hosts;
    KnownIsAdmitted(env, m.extensions, sel);
  }

  /** p honours each selector of m from each registry of m that is a host at all. */
  ghost predicate Honoured(env: Env, m: Profile, p: Profile) {
    forall sel, source | sel in Selected(env, m.extensions) && source in Hosts(env, m.registries) && '@' !in source ::
      Honours(env, p, sel, source)
  }

  /** m grants no pair of name and source that p does not. */
  ghost predicate GrantsWithin(env: Env, m: Profile, p: Profile) {
    forall name, source :: '@' !in source && Grants(env, m, name, source) ==> Grants(env, p, name, source)
  }

  /** For whole profiles, and every name, the exact condition is one on the selectors and
      registries that the merged profile holds. */
  lemma ProfileNarrows(env: Env, m: Profile, p: Profile)
    requires Sane(env)
    ensures GrantsWithin(env, m, p) <==> Honoured(env, m, p)
  {
    HostsAreNamed(env, m.registries);
    hide Selected, Hosts, Honours, Admits, Sane;
    if GrantsWithin(env, m, p) {
      forall sel, source | sel in Selected(env, m.extensions) && source in Hosts(env, m.registries) && '@' !in source
        ensures Honours(env, p, sel, source)
      {
        SelectorIsGranted(env, m, sel, source);
        HonoursNarrow(env, m, p, sel, source);
      }
    }
    if Honoured(env, m, p) {
      forall name, source | '@' !in source && Grants(env, m, name, source) ensures Grants(env, p, name, source) {
        HonouredPair(env, m, p, name, source);
      }
    }
  }

  /** Then the merge accepts only what both parts accept, whatever the names. */
  lemma HonouredMergeNarrows(env: Env, a: Profile, b: Profile, m: Profile, r: SpawnRequest)
    requires Sane(env) && Merged(env, a, b, m) && Honoured(env, m, a) && Honoured(env, m, b)
    ensures Accepts(env, m, r) ==> Accepts(env, a, r) && Accepts(env, b, r)
  {
    hide Canon, Grants, WellFormed, InScope, Honoured, Sane;
    ProfileNarrows(env, m, a);
    ProfileNarrows(env, m, b);
    if Accepts(env, m, r) {
      ScopeNarrows(env, a.fsScope, b.fsScope, m.fsScope, env.clean(r.workspace));
      forall e | e in r.extensions ensures Authorised(env, a, e) && Authorised(env, b, e) {
        AuthorisedIsGranted(env, m, e);
        AuthorisedIsGranted(env, a, e);
        AuthorisedIsGranted(env, b, e);
      }
    }
  }

  lemma AuthorisedIsGranted(env: Env, p: Profile, e: Extension)
    requires Sane(env) && WellFormed(env, e)
    ensures Authorised(env, p, e) <==> Grants(env, p, e.name, Canon(env, e.source))
    ensures '@' !in Canon(env, e.source)
  {
    hide Canon, Trim, Banned, Hosts, Admits, Sane;
    CanonIsClean(env, e.source);
  }

  lemma HostsAreNamed(env: Env, list: seq<string>)
    ensures "" !in Hosts(env, list)
  {
  }

  lemma HonoursNarrow(env: Env, m: Profile, p: Profile, sel: Selector, source: string)
    requires Honours(env, m, sel, source) && '@' !in source && GrantsWithin(env, m, p)
    ensures Honours(env, p, sel, source)
  {
    hide Grants;
  }

  /** Narrowing: what the merged profile accepts both parts accept, with at least
      as much egress and budget, and it approves automatically only if both do.
      The conditions on registries and selectors are exact for each list; a name without
      '@' is never confused. */
  lemma MergeNarrows(env: Env, a: Profile, b: Profile, m: Profile, r: SpawnRequest)
    requires Sane(env) && Merged(env, a, b, m)
    requires RegistriesClosed(env, a.registries, b.registries) && SelectorsClosed(env, a.extensions, b.extensions)
    requires forall e | e in r.extensions :: !Confused(env, m.extensions, e.name)
    ensures Accepts(env, m, r) ==> Accepts(env, a, r) && Accepts(env, b, r)
    ensures Granted(env, m, r) <= Granted(env, a, r) && Granted(env, m, r) <= Granted(env, b, r)
    ensures m.budget.tokens <= a.budget.tokens && m.budget.tokens <= b.budget.tokens
    ensures m.budget.timeMs <= a.budget.timeMs && m.budget.timeMs <= b.budget.timeMs
    ensures m.auto ==> a.auto && b.auto
  {
    hide Hosts, Canon, Confused, WellFormed, Authorised, RegistriesClosed, SelectorsClosed, InScope;
    EgressNarrows(env, a.egress, b.egress, m.egress);
    if Accepts(env, m, r) {
      ScopeNarrows(env, a.fsScope, b.fsScope, m.fsScope, env.clean(r.workspace));
      forall e | e in r.extensions ensures Authorised(env, a, e) && Authorised(env, b, e) {
        ExtensionNarrows(env, a, b, m, e);
      }
    }
  }

  /** Profiles whose registry and selector hosts are fixed points meet both
      conditions, and their merge confuses only ambiguous names. */
  lemma FixedHostsNarrow(env: Env, a: Profile, b: Profile, m: Profile)
    requires Sane(env) && Merged(env, a, b, m) && FixedHosts(env, a) && FixedHosts(env, b)
    ensures RegistriesClosed(env, a.registries, b.registries) && SelectorsClosed(env, a.extensions, b.extensions)
    ensures forall name :: Confused(env, m.extensions, name) ==> Ambiguous(env, name)
  {
    FixedRegistriesClosed(env, a.registries, b.registries);
    FixedIsClosed(env, a.extensions, b.extensions, m.extensions);
  }

  // ---------- two dots ----------

  /** Plain ASCII, with everything else let through. */
  const ASCII := Env(
    ch => ch == ' ' || '\t' <= ch <= '\r',
    ch => if 'A' <= ch <= 'Z' then ch + (32 as char) else ch,
    path => path, _ => false, _ => true, _ => true)

  lemma TwoDots()
    ensures Canon(ASCII, "a..") == "a." && Canon(ASCII, "a.") == "a" && Canon(ASCII, "a") == "a"
  {
    TrimmedStays(ASCII, "a..");
    TrimmedStays(ASCII, "a.");
    TrimmedStays(ASCII, "a");
  }

  lemma OneHost(env: Env, list: seq<string>, raw: string)
    requires list == [raw] && Canon(env, raw) != ""
    ensures Hosts(env, list) == {Canon(env, raw)}
  {
    hide Canon;
    assert raw in list;
  }

  lemma MergeWithItself(env: Env, p: Profile, m: Profile)
    requires m.fsScope == p.fsScope && m.egress == p.egress && m.budget == p.budget && m.auto == p.auto
    requires |m.fsScope| <= 1 && |m.egress| <= 1 && |m.extensions| <= 1 && |m.registries| <= 1
    requires Meetings(env, p.extensions, p.extensions, m.extensions)
    requires CommonHosts(env, p.registries, p.registries, m.registries)
    ensures Merged(env, p, p, m)
  {
    hide Common, CommonHosts, Meetings, InOrder;
    SharesAll(p.fsScope);
    SharesAll(p.egress);
    OneInOrder(m.fsScope);
    OneInOrder(m.egress);
    OneInOrder(m.extensions);
    OneInOrder(m.registries);
  }

  lemma MeetsItself(env: Env, list: seq<string>, raw: string, sel: Selector)
    requires list == [raw] && Canonical(env, raw) == Some(Text(sel)) && Parse(env, raw) == Some(sel)
    ensures Meetings(env, list, list, [Text(sel)])
  {
    hide Canonical, Parse, Text, IsMeeting, Selected, Names;
    Singleton(env, list, raw, sel);
    MeetingIsOne(sel, sel);
    forall t ensures IsMeeting(env, list, list, t) <==> t in [Text(sel)] {
      OneMeeting(env, list, list, sel, sel, t);
    }
  }

  lemma SharesHost(env: Env, list: seq<string>, raw: string, m: seq<string>)
    requires list == [raw] && Canon(env, raw) != "" && m == [Canon(env, raw)]
    ensures CommonHosts(env, list, list, m)
  {
    hide Canon, Hosts;
    OneHost(env, list, raw);
  }

  lemma SharesAll(list: seq<string>)
    ensures Common(list, list, list)
  {
  }

  lemma OnlyTheExtensionMatters(env: Env, p: Profile, r: SpawnRequest, e: Extension)
    requires p.fsScope == ["/"] && r.extensions == [e] && r.depth < p.budget.maxDepth
    requires IsAbs(r.workspace) && WellFormed(env, e)
    ensures Accepts(env, p, r) <==> Authorised(env, p, e)
  {
    hide WellFormed, Authorised, Identity;
    assert "/" in p.fsScope && Covers(env, "/", env.clean(r.workspace));
    assert e in r.extensions;
  }

  lemma OneInOrder(xs: seq<string>)
    requires |xs| <= 1
    ensures InOrder(xs)
  {
  }

  /** Canonicalising a registry twice can admit what canonicalising it once does not. */
  lemma TwiceIsNotOnce(env: Env, p: Profile, m: Profile, r: SpawnRequest, e: Extension, raw: string)
    requires Canonical(env, e.name) == Some(e.name) && Parse(env, e.name) == Some(Selector(e.name, "")) && WellFormed(env, e)
    requires p.fsScope == ["/"] && p.egress == [] && p.extensions == [e.name] && p.registries == [raw]
    requires m == p.(registries := [Canon(env, raw)])
    requires r.extensions == [e] && r.depth < p.budget.maxDepth && IsAbs(r.workspace)
    requires Canon(env, raw) != "" && Canon(env, Canon(env, raw)) == Canon(env, e.source) != Canon(env, raw)
    ensures Merged(env, p, p, m) && Accepts(env, m, r) && !Accepts(env, p, r)
  {
    hide Canonical, Parse, WellFormed, Merged, Accepts, Canon, Names, Hosts, Meetings, CommonHosts;
    var sel := Selector(e.name, "");
    SourceIsNamed(env, e);
    MeetsItself(env, p.extensions, e.name, sel);
    SharesHost(env, p.registries, raw, m.registries);
    MergeWithItself(env, p, m);
    OnlyTheExtensionMatters(env, p, r, e);
    OnlyTheExtensionMatters(env, m, r, e);
    assert e.name in Names(env, m.extensions) by {
      Singleton(env, m.extensions, e.name, sel);
    }
    OneHost(env, p.registries, raw);
    OneHost(env, m.registries, Canon(env, raw));
  }

  /** So can canonicalising a selector's host twice. */
  lemma SelectorTwiceIsNotOnce(env: Env, p: Profile, m: Profile, r: SpawnRequest, e: Extension, raw: string, sel: Selector)
    requires Canonical(env, raw) == Some(Text(sel)) && Parse(env, raw) == Some(sel)
    requires var bound := Selector(e.name, Canon(env, e.source));
      && Canonical(env, Text(sel)) == Some(Text(bound)) && Parse(env, Text(sel)) == Some(bound)
      && Text(sel) != Text(bound) && Text(sel) != e.name
    requires WellFormed(env, e) && Canon(env, Canon(env, e.source)) == Canon(env, e.source)
    requires p.fsScope == ["/"] && p.egress == [] && p.extensions == [raw] && p.registries == [Canon(env, e.source)]
    requires m == p.(extensions := [Text(sel)])
    requires r.extensions == [e] && r.depth < p.budget.maxDepth && IsAbs(r.workspace)
    ensures Merged(env, p, p, m) && Accepts(env, m, r) && !Accepts(env, p, r)
  {
    hide Canonical, Parse, WellFormed, Merged, Accepts, Canon, Names, Hosts, Meetings, CommonHosts;
    var bound := Selector(e.name, Canon(env, e.source));
    SourceIsNamed(env, e);
    MeetsItself(env, p.extensions, raw, sel);
    SharesHost(env, p.registries, bound.source, m.registries);
    MergeWithItself(env, p, m);
    OnlyTheExtensionMatters(env, p, r, e);
    OnlyTheExtensionMatters(env, m, r, e);
    Singleton(env, p.extensions, raw, sel);
    Singleton(env, m.extensions, Text(sel), bound);
    OneHost(env, p.registries, bound.source);
  }

  /** Narrowing needs its fixed points: with "a.." as the registry of both parts,
      the merge accepts an extension from "a", which neither part does. */
  lemma TwoDotsWiden(p: Profile, m: Profile, r: SpawnRequest, e: Extension)
    requires p == Profile("", ["/"], [], ["x"], ["a.."], Budget(1, 1, 1), false) && m == p.(registries := ["a."])
    requires e == Extension("x", "1.0.0", "", "a", []) && r == SpawnRequest("/", [], [e], 0)
    ensures Merged(ASCII, p, p, m)
    ensures Accepts(ASCII, m, r) && !Accepts(ASCII, p, r)
  {
    TwoDots();
    PlainWords(e);
    hide *;
    assert IsAbs("/") by { SlashIsAbs(); }
    assert "a." != "a" && "a." != "";
    TwiceIsNotOnce(ASCII, p, m, r, e, "a..");
  }

  /** The same with "x@a.." as the one selector of both parts: each admits x from
      nowhere, and the merge admits it from "a". */
  lemma TwoDotsInSelectorWiden(p: Profile, m: Profile, r: SpawnRequest, e: Extension)
    requires p == Profile("", ["/"], [], ["x@a.."], ["a"], Budget(1, 1, 1), false) && m == p.(extensions := ["x@a."])
    requires e == Extension("x", "1.0.0", "", "a", []) && r == SpawnRequest("/", [], [e], 0)
    ensures Merged(ASCII, p, p, m)
    ensures Accepts(ASCII, m, r) && !Accepts(ASCII, p, r)
  {
    hide *;
    TwoDots();
    PlainWords(e);
    DotsRead("a..", "a.");
    DotsRead("a.", "a");
    assert IsAbs("/") by { SlashIsAbs(); }
    var sel, bound := Selector("x", "a."), Selector("x", "a");
    DottedTexts();
    SelectorTwiceIsNotOnce(ASCII, p, m, r, e, "x@a..", sel);
  }

  lemma DottedTexts()
    ensures Text(Selector("x", "a.")) == "x@a." && Text(Selector("x", "a")) == "x@a"
    ensures "x@a." != "x@a" && "x@a." != "x"
  {
    assert "x" + "@" + "a." == "x@a." && "x" + "@" + "a" == "x@a";
  }

  lemma DotsRead(host: string, canon: string)
    requires host in {"a..", "a."} && Canon(ASCII, host) == canon && canon in {"a.", "a"}
    ensures var raw := if host == "a.." then "x@a.." else "x@a.";
      && Canonical(ASCII, raw) == Some(Text(Selector("x", canon)))
      && Parse(ASCII, raw) == Some(Selector("x", canon))
  {
    assert "x" + "@" + "a.." == "x@a.." && "x" + "@" + "a." == "x@a.";
    TrimmedStays(ASCII, host);
    assert !Banned(host);
    BoundTextReads(ASCII, "x", host);
    SplitText(Selector("x", canon));
  }

  lemma SlashIsAbs()
    ensures IsAbs("/")
  {
  }

  lemma PlainWords(e: Extension)
    requires e == Extension("x", "1.0.0", "", "a", [])
    ensures Canonical(ASCII, "x") == Some("x") && Parse(ASCII, "x") == Some(Selector("x", ""))
    ensures WellFormed(ASCII, e)
  {
    TwoDots();
    TrimmedStays(ASCII, "x");
    TrimmedStays(ASCII, "a");
    assert LastAt("x") == -1;
    assert !Banned("a");
  }

  lemma SourceIsNamed(env: Env, e: Extension)
    requires WellFormed(env, e)
    ensures Canon(env, e.source) != ""
  {
    hide Canon, Trim;
  }
}
