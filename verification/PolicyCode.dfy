/** Merge and Evaluate as they run: loops that fill sets and lists, and sorts. */
module PolicyCode {
  import opened Wrappers
  import opened Selectors
  import opened Sorting
  import opened Policy

  /** Sorting a list without repetitions puts it in order and keeps its elements. */
  lemma SortedList(xs: seq<string>)
    requires Distinct(xs)
    ensures InOrder(Sort(StringLe, xs))
    ensures forall x :: x in Sort(StringLe, xs) <==> x in xs
  {
    SortStrings(xs);
  }

  /** A list and the set of what it holds. */
  ghost predicate Holds(xs: seq<string>, seen: set<string>) {
    Distinct(xs) && forall x :: x in xs <==> x in seen
  }

  method Intersect(a: seq<string>, b: seq<string>) returns (out: seq<string>)
    ensures Common(a, b, out) && InOrder(out)
  {
    var known: set<string> := {};
    for i := 0 to |a|
      invariant forall x :: x in known <==> x in a[..i]
    {
      known := known + {a[i]};
    }
    assert a[..|a|] == a;
    out := [];
    var seen: set<string> := {};
    for i := 0 to |b|
      invariant Holds(out, seen)
      invariant forall x :: x in seen <==> x in known && x in b[..i]
    {
      if b[i] in known && b[i] !in seen {
        out := out + [b[i]];
        seen := seen + {b[i]};
      }
    }
    assert b[..|b|] == b;
    SortedList(out);
    out := Sort(StringLe, out);
  }

  method CanonicalHosts(env: Env, list: seq<string>) returns (out: seq<string>)
    ensures forall x :: x in out <==> x in Hosts(env, list)
  {
    out := [];
    for i := 0 to |list|
      invariant forall x :: x in out <==> x in Hosts(env, list[..i])
    {
      HostsSnoc(env, list, i);
      var c := Canon(env, list[i]);
      if c != "" {
        out := out + [c];
      }
    }
    assert list[..|list|] == list;
  }

  lemma HostsSnoc(env: Env, list: seq<string>, i: nat)
    requires i < |list|
    ensures Hosts(env, list[..i + 1])
         == Hosts(env, list[..i]) + if Canon(env, list[i]) != "" then {Canon(env, list[i])} else {}
  {
    hide Canon;
    assert list[..i + 1] == list[..i] + [list[i]];
  }

  method IntersectHosts(env: Env, a: seq<string>, b: seq<string>) returns (out: seq<string>)
    ensures CommonHosts(env, a, b, out) && InOrder(out)
  {
    hide Hosts;
    var left := CanonicalHosts(env, a);
    var right := CanonicalHosts(env, b);
    out := Intersect(left, right);
  }

  method ParseAll(env: Env, list: seq<string>) returns (out: seq<Selector>)
    ensures forall s :: s in out <==> s in Selected(env, list)
  {
    out := [];
    for i := 0 to |list|
      invariant forall s :: s in out <==> s in Selected(env, list[..i])
    {
      SelectedSnoc(env, list, i);
      var s := Parse(env, list[i]);
      if s.Some? {
        out := out + [s.value];
      }
    }
    assert list[..|list|] == list;
  }

  lemma SelectedSnoc(env: Env, list: seq<string>, i: nat)
    requires i < |list|
    ensures Selected(env, list[..i + 1])
         == Selected(env, list[..i]) + if Parse(env, list[i]).Some? then {Parse(env, list[i]).value} else {}
  {
    hide Parse;
    assert list[..i + 1] == list[..i] + [list[i]];
  }

  /** text is the meeting of a selector in ls with r, or with one in rs. */
  ghost predicate MeetsOne(ls: seq<Selector>, r: Selector, text: string) {
    exists l :: l in ls && Meets(l, r) && text == Text(Meeting(l, r))
  }

  ghost predicate MeetsSome(ls: seq<Selector>, rs: seq<Selector>, text: string) {
    exists r :: r in rs && MeetsOne(ls, r, text)
  }

  method IntersectSelectors(env: Env, a: seq<string>, b: seq<string>) returns (out: seq<string>)
    ensures Meetings(env, a, b, out) && InOrder(out)
  {
    hide Selected, Parse, Text;
    var left := ParseAll(env, a);
    var right := ParseAll(env, b);
    out := [];
    var seen: set<string> := {};
    for i := 0 to |right|
      invariant Holds(out, seen)
      invariant forall t :: t in seen <==> MeetsSome(left, right[..i], t)
    {
      ghost var before := seen;
      var r := right[i];
      for j := 0 to |left|
        invariant Holds(out, seen)
        invariant forall t :: t in seen <==> t in before || MeetsOne(left[..j], r, t)
      {
        var l := left[j];
        MeetsOneSnoc(left, j, r);
        if Meets(l, r) {
          var text := Text(Meeting(l, r));
          if text !in seen {
            seen := seen + {text};
            out := out + [text];
          }
        }
      }
      assert left[..|left|] == left;
      MeetsSomeSnoc(left, right, i);
    }
    assert right[..|right|] == right;
    forall t ensures t in seen <==> IsMeeting(env, a, b, t) {
    }
    SortedList(out);
    out := Sort(StringLe, out);
  }

  lemma MeetsOneSnoc(ls: seq<Selector>, j: nat, r: Selector)
    requires j < |ls|
    ensures forall t :: MeetsOne(ls[..j + 1], r, t) <==>
      MeetsOne(ls[..j], r, t) || (Meets(ls[j], r) && t == Text(Meeting(ls[j], r)))
  {
    hide Meets, Meeting, Text;
    assert ls[..j + 1] == ls[..j] + [ls[j]];
    forall t ensures MeetsOne(ls[..j + 1], r, t) <==>
        MeetsOne(ls[..j], r, t) || (Meets(ls[j], r) && t == Text(Meeting(ls[j], r)))
    {
      if Meets(ls[j], r) && t == Text(Meeting(ls[j], r)) {
        assert ls[j] in ls[..j + 1];
      }
    }
  }

  lemma MeetsSomeSnoc(ls: seq<Selector>, rs: seq<Selector>, i: nat)
    requires i < |rs|
    ensures forall t :: MeetsSome(ls, rs[..i + 1], t) <==> MeetsSome(ls, rs[..i], t) || MeetsOne(ls, rs[i], t)
  {
    hide MeetsOne;
    assert rs[..i + 1] == rs[..i] + [rs[i]];
  }

  method Merge(env: Env, base: Profile, overlay: Profile) returns (m: Profile)
    ensures Merged(env, base, overlay, m)
    ensures m.id == if base.id == "" then overlay.id else if overlay.id == "" then base.id else base.id + "+" + overlay.id
  {
    hide Common, CommonHosts, Meetings, InOrder;
    var id := if base.id == "" then overlay.id else if overlay.id == "" then base.id else base.id + "+" + overlay.id;
    var fsScope := Intersect(base.fsScope, overlay.fsScope);
    var egress := Intersect(base.egress, overlay.egress);
    var extensions := IntersectSelectors(env, base.extensions, overlay.extensions);
    var registries := IntersectHosts(env, base.registries, overlay.registries);
    var budget := Budget(Min(base.budget.tokens, overlay.budget.tokens), Min(base.budget.timeMs, overlay.budget.timeMs),
                         Min(base.budget.maxDepth, overlay.budget.maxDepth));
    m := Profile(id, fsScope, egress, extensions, registries, budget, base.auto && overlay.auto);
  }

  // ---------- Evaluate ----------

  datatype SandboxConfig = SandboxConfig(
    profileId: string, workspace: string, fsScope: seq<string>, egress: seq<string>, deniedEgress: seq<string>,
    extensions: seq<Extension>, budget: Budget, auto: bool)

  datatype Evaluation = Denied | Allowed(config: SandboxConfig)

  ghost predicate CanonOf(env: Env, raws: seq<string>, h: string) {
    exists raw :: raw in raws && Canon(env, raw) == h
  }

  /** n is the canonical copy of the declaration e. */
  ghost predicate Normalises(env: Env, e: Extension, n: Extension) {
    && n == e.(source := Canon(env, e.source), egress := n.egress)
    && InOrder(n.egress)
    && forall h :: h in n.egress <==> CanonOf(env, e.egress, h)
  }

  ghost predicate NormalList(env: Env, es: seq<Extension>, ns: seq<Extension>) {
    |ns| == |es| && forall i :: 0 <= i < |es| ==> Normalises(env, es[i], ns[i])
  }

  method WorkspaceAllowed(env: Env, scope: seq<string>, workspace: string) returns (ok: bool)
    ensures ok <==> InScope(env, scope, workspace)
  {
    for i := 0 to |scope|
      invariant forall j :: 0 <= j < i ==> !Covers(env, scope[j], workspace)
    {
      var s := scope[i];
      if s == "" || !IsAbs(s) {
        continue;
      }
      if s == "/" {
        assert s in scope && Covers(env, s, workspace);
        return true;
      }
      var cleaned := env.clean(s);
      if cleaned == "/" {
        continue;
      }
      if workspace == cleaned || cleaned + "/" <= workspace {
        return true;
      }
    }
    return false;
  }

  method NormalizeEgress(env: Env, raws: seq<string>) returns (r: Option<seq<string>>)
    ensures r.Some? <==> forall raw | raw in raws :: HostOk(env, raw)
    ensures r.Some? ==> InOrder(r.value) && forall h :: h in r.value <==> CanonOf(env, raws, h)
  {
    hide Canon, Trim, Banned;
    var out: seq<string> := [];
    var seen: set<string> := {};
    for i := 0 to |raws|
      invariant Holds(out, seen)
      invariant forall h :: h in seen <==> CanonOf(env, raws[..i], h)
      invariant forall raw | raw in raws[..i] :: HostOk(env, raw)
    {
      assert raws[..i + 1] == raws[..i] + [raws[i]];
      var host := Registry(env, raws[i]);
      if host.None? {
        assert raws[i] in raws && !HostOk(env, raws[i]);
        return None;
      }
      CanonSnoc(env, raws, i);
      if host.value !in seen {
        seen := seen + {host.value};
        out := out + [host.value];
      }
    }
    assert raws[..|raws|] == raws;
    SortedList(out);
    return Some(Sort(StringLe, out));
  }

  lemma CanonSnoc(env: Env, raws: seq<string>, i: nat)
    requires i < |raws|
    ensures forall h :: CanonOf(env, raws[..i + 1], h) <==> CanonOf(env, raws[..i], h) || h == Canon(env, raws[i])
  {
    hide Canon;
    assert raws[..i + 1] == raws[..i] + [raws[i]];
    forall h ensures CanonOf(env, raws[..i + 1], h) <==> CanonOf(env, raws[..i], h) || h == Canon(env, raws[i]) {
      if h == Canon(env, raws[i]) {
        assert raws[i] in raws[..i + 1];
      }
    }
  }

  method NormalizeExtension(env: Env, e: Extension) returns (r: Option<Extension>)
    ensures r.Some? <==> WellFormed(env, e)
    ensures r.Some? ==> Normalises(env, e, r.value)
  {
    hide Canon, Trim, Banned, InOrder, CanonOf;
    if !env.validVersion(e.version) || !env.validDigest(e.integrity) {
      return None;
    }
    var source := Registry(env, e.source);
    if source.None? {
      return None;
    }
    if e.name == "" || Trim(env, e.name) != e.name {
      return None;
    }
    var egress := NormalizeEgress(env, e.egress);
    if egress.None? {
      return None;
    }
    return Some(e.(source := source.value, egress := egress.value));
  }

  method CanonicalNames(env: Env, list: seq<string>) returns (names: set<string>)
    ensures names == Names(env, list)
  {
    hide Canonical;
    names := {};
    for i := 0 to |list|
      invariant names == Names(env, list[..i])
    {
      assert list[..i + 1] == list[..i] + [list[i]];
      var c := Canonical(env, list[i]);
      if c.Some? {
        names := names + {c.value};
      }
    }
    assert list[..|list|] == list;
  }

  method HostSet(env: Env, list: seq<string>) returns (hosts: set<string>)
    ensures hosts == Hosts(env, list)
  {
    hosts := {};
    for i := 0 to |list|
      invariant hosts == Hosts(env, list[..i])
    {
      HostsSnoc(env, list, i);
      if Canon(env, list[i]) != "" {
        hosts := hosts + {Canon(env, list[i])};
      }
    }
    assert list[..|list|] == list;
  }

  function OrderKey(e: Extension): string {
    e.name + "\0" + e.version + "\0" + e.source + "\0" + e.integrity
  }

  predicate KeyLe(x: Extension, y: Extension) {
    StringLe(OrderKey(x), OrderKey(y))
  }

  lemma KeyOrder()
    ensures TotalPreorder(KeyLe)
  {
    hide StringLe, OrderKey;
    StringOrder();
  }

  /** Everything that makes a single declaration acceptable, but for repetition. */
  predicate Passes(env: Env, p: Profile, e: Extension) {
    WellFormed(env, e) && Authorised(env, p, e)
  }

  ghost predicate Seen(env: Env, es: seq<Extension>, seen: set<string>) {
    && (forall i, j :: 0 <= i < j < |es| ==> Identity(env, es[i]) != Identity(env, es[j]))
    && (forall id :: id in seen <==> exists e :: e in es && Identity(env, e) == id)
  }

  /** The check of one declaration against the sets computed from the profile. */
  method CheckOne(env: Env, p: Profile, names: set<string>, registries: set<string>, seen: set<string>, e: Extension)
    returns (r: Option<Extension>)
    requires names == Names(env, p.extensions) && registries == Hosts(env, p.registries)
    ensures r.Some? <==> Passes(env, p, e) && Identity(env, e) !in seen
    ensures r.Some? ==> Normalises(env, e, r.value)
  {
    hide Names, Hosts, WellFormed, InOrder, CanonOf, Canon;
    var n := NormalizeExtension(env, e);
    if n.None? {
      return None;
    }
    var ext := n.value;
    if ext.name + "\0" + ext.version + "\0" + ext.integrity + "\0" + ext.source in seen {
      return None;
    }
    if !(ext.name in names || ext.name + "@" + ext.source in names) {
      return None;
    }
    if ext.source !in registries {
      return None;
    }
    return n;
  }

  method NormalizeAndAuthorize(env: Env, p: Profile, exts: seq<Extension>) returns (r: Option<seq<Extension>>)
    ensures r.Some? <==> Declared(env, exts) && forall e | e in exts :: Authorised(env, p, e)
    ensures r.Some? ==>
      Sorted(KeyLe, r.value) && exists ns :: NormalList(env, exts, ns) && multiset(r.value) == multiset(ns)
  {
    hide WellFormed, Authorised, Identity, Normalises, KeyLe, Names, Hosts;
    if exts == [] {
      assert NormalList(env, exts, []);
      return Some([]);
    }
    var names := CanonicalNames(env, p.extensions);
    var registries := HostSet(env, p.registries);
    var out: seq<Extension> := [];
    var seen: set<string> := {};
    for i := 0 to |exts|
      invariant NormalList(env, exts[..i], out)
      invariant Seen(env, exts[..i], seen)
      invariant forall e :: e in exts[..i] ==> Passes(env, p, e)
    {
      var e := exts[i];
      assert exts[..i + 1] == exts[..i] + [e];
      var n := CheckOne(env, p, names, registries, seen, e);
      if n.None? {
        Rejected(env, p, exts, i, seen);
        return None;
      }
      SeenSnoc(env, exts[..i], seen, e);
      seen := seen + {Identity(env, e)};
      out := out + [n.value];
    }
    assert exts[..|exts|] == exts;
    KeyOrder();
    SortSorts(KeyLe, out);
    return Some(Sort(KeyLe, out));
  }

  lemma SeenSnoc(env: Env, es: seq<Extension>, seen: set<string>, e: Extension)
    requires Seen(env, es, seen) && Identity(env, e) !in seen
    ensures Seen(env, es + [e], seen + {Identity(env, e)})
  {
    hide Identity;
    assert forall x :: x in es + [e] <==> x in es || x == e;
    assert forall i :: 0 <= i < |es| ==> es[i] in es;
  }

  lemma Rejected(env: Env, p: Profile, exts: seq<Extension>, i: nat, seen: set<string>)
    requires i < |exts| && Seen(env, exts[..i], seen)
    requires !Passes(env, p, exts[i]) || Identity(env, exts[i]) in seen
    ensures !(Declared(env, exts) && forall e | e in exts :: Authorised(env, p, e))
  {
    hide Identity, WellFormed, Authorised;
    assert exts[i] in exts;
    if Identity(env, exts[i]) in seen {
      var e :| e in exts[..i] && Identity(env, e) == Identity(env, exts[i]);
      var j :| 0 <= j < i && exts[..i][j] == e;
      assert exts[j] == e;
    }
  }

  method SplitEgress(env: Env, requested: seq<string>, allowed: set<string>)
    returns (granted: seq<string>, denied: seq<string>)
    ensures InOrder(granted) && InOrder(denied)
    ensures forall h :: h in granted <==> h in Hosts(env, requested) && h in allowed
    ensures forall h :: h in denied <==> h in Hosts(env, requested) && h !in allowed
  {
    hide Canon, Hosts;
    granted, denied := [], [];
    var seenGranted: set<string>, seenDenied: set<string> := {}, {};
    assert Hosts(env, requested[..0]) == {} by { NoHosts(env, requested[..0]); }
    for i := 0 to |requested|
      invariant Holds(granted, seenGranted) && Holds(denied, seenDenied)
      invariant forall h :: h in seenGranted <==> h in Hosts(env, requested[..i]) && h in allowed
      invariant forall h :: h in seenDenied <==> h in Hosts(env, requested[..i]) && h !in allowed
    {
      HostsSnoc(env, requested, i);
      var c := Canon(env, requested[i]);
      if c == "" {
        continue;
      }
      if c in allowed {
        if c !in seenGranted {
          granted := granted + [c];
          seenGranted := seenGranted + {c};
        }
      } else if c !in seenDenied {
        denied := denied + [c];
        seenDenied := seenDenied + {c};
      }
    }
    assert requested[..|requested|] == requested;
    SortedList(granted);
    SortedList(denied);
    granted, denied := Sort(StringLe, granted), Sort(StringLe, denied);
  }

  lemma NoHosts(env: Env, list: seq<string>)
    requires list == []
    ensures Hosts(env, list) == {}
  {
    hide Canon;
  }

  ghost predicate FromExtensions(ns: seq<Extension>, h: string) {
    exists n :: n in ns && h in n.egress
  }

  method CollectEgress(own: seq<string>, ns: seq<Extension>) returns (all: seq<string>)
    ensures forall h :: h in all <==> h in own || FromExtensions(ns, h)
  {
    all := own;
    for i := 0 to |ns|
      invariant forall h :: h in all <==> h in own || FromExtensions(ns[..i], h)
    {
      assert ns[..i + 1] == ns[..i] + [ns[i]];
      ghost var before := all;
      all := all + ns[i].egress;
      forall h ensures h in all <==> h in own || FromExtensions(ns[..i + 1], h) {
        if h in ns[i].egress {
          assert ns[i] in ns[..i + 1];
        }
      }
    }
    assert ns[..|ns|] == ns;
  }

  /** The list that is evaluated stands for the hosts the request asks for. */
  lemma RequestedIs(env: Env, r: SpawnRequest, ns: seq<Extension>, sorted: seq<Extension>, all: seq<string>)
    requires NormalList(env, r.extensions, ns) && multiset(sorted) == multiset(ns)
    requires forall h :: h in all <==> h in r.egress || FromExtensions(sorted, h)
    ensures Hosts(env, all) == Requested(env, r)
  {
    hide Canon, InOrder;
    SameElements(sorted, ns);
    forall h ensures FromExtensions(sorted, h) <==> exists e, raw :: e in r.extensions && raw in e.egress && Canon(env, raw) == h {
      FromDeclared(env, r, ns, h);
      assert FromExtensions(sorted, h) <==> FromExtensions(ns, h);
    }
    hide FromExtensions, NormalList;
    forall h ensures h in Hosts(env, all) <==> h in Requested(env, r) {
      if h in Requested(env, r) && h !in Hosts(env, r.egress) {
        var e, raw :| e in r.extensions && raw in e.egress && Canon(env, Canon(env, raw)) == h;
        assert FromExtensions(sorted, Canon(env, raw));
        assert Canon(env, raw) in all;
      }
    }
  }

  lemma FromDeclared(env: Env, r: SpawnRequest, ns: seq<Extension>, h: string)
    requires NormalList(env, r.extensions, ns)
    ensures FromExtensions(ns, h) <==> exists e, raw :: e in r.extensions && raw in e.egress && Canon(env, raw) == h
  {
    hide Canon, InOrder;
    if FromExtensions(ns, h) {
      var n :| n in ns && h in n.egress;
      var i :| 0 <= i < |ns| && ns[i] == n;
      assert Normalises(env, r.extensions[i], n);
      assert r.extensions[i] in r.extensions;
    }
    forall e, raw | e in r.extensions && raw in e.egress && Canon(env, raw) == h ensures FromExtensions(ns, h) {
      var i :| 0 <= i < |ns| && r.extensions[i] == e;
      assert Normalises(env, e, ns[i]) && CanonOf(env, e.egress, h);
      assert ns[i] in ns;
    }
  }

  /** What an accepted request is granted. */
  ghost predicate Fits(env: Env, p: Profile, r: SpawnRequest, c: SandboxConfig) {
    && c.profileId == p.id && c.workspace == env.clean(r.workspace) && c.fsScope == p.fsScope
    && InOrder(c.egress) && (forall h :: h in c.egress <==> h in Granted(env, p, r))
    && InOrder(c.deniedEgress) && (forall h :: h in c.deniedEgress <==> h in Requested(env, r) - Hosts(env, p.egress))
    && Sorted(KeyLe, c.extensions)
    && (exists ns :: NormalList(env, r.extensions, ns) && multiset(c.extensions) == multiset(ns))
    && c.budget == p.budget && c.auto == p.auto
  }

  method Evaluate(env: Env, p: Profile, r: SpawnRequest) returns (v: Evaluation)
    ensures v.Allowed? <==> Accepts(env, p, r)
    ensures v.Allowed? ==> Fits(env, p, r, v.config)
  {
    hide Declared, Authorised, InScope, Requested, Hosts, NormalList, KeyLe, InOrder;
    if r.depth >= p.budget.maxDepth {
      return Denied;
    }
    if r.workspace == "" || !IsAbs(r.workspace) {
      return Denied;
    }
    var workspace := env.clean(r.workspace);
    var inside := WorkspaceAllowed(env, p.fsScope, workspace);
    if !inside {
      return Denied;
    }
    var extensions := NormalizeAndAuthorize(env, p, r.extensions);
    if extensions.None? {
      return Denied;
    }
    var allowed := HostSet(env, p.egress);
    var requested := CollectEgress(r.egress, extensions.value);
    ghost var ns :| NormalList(env, r.extensions, ns) && multiset(extensions.value) == multiset(ns);
    RequestedIs(env, r, ns, extensions.value, requested);
    var granted, denied := SplitEgress(env, requested, allowed);
    return Allowed(SandboxConfig(p.id, workspace, p.fsScope, granted, denied, extensions.value, p.budget, p.auto));
  }
}
