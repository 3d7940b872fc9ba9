/**
  Host names and extension selectors as the policy engine reads them. What the
  platform's libraries decide (white space, lower case, path cleaning, IP syntax,
  version and digest syntax) is a parameter.
*/
module Selectors {
  import opened Wrappers

  datatype Env = Env(
    space: char -> bool, lower: char -> char, clean: string -> string,
    isIP: string -> bool, validVersion: string -> bool, validDigest: string -> bool)

  /** The characters that no host may hold. */
  const DELIMITERS := "/?#@ :"

  /** Lower-casing turns no other character into one of these. */
  ghost predicate Sane(env: Env) {
    forall ch :: env.lower(ch) in DELIMITERS ==> ch in DELIMITERS
  }

  function TrimLeft(env: Env, s: string): string {
    if s != [] && env.space(s[0]) then TrimLeft(env, s[1..]) else s
  }

  function TrimRight(env: Env, s: string): string {
    if s != [] && env.space(s[|s| - 1]) then TrimRight(env, s[..|s| - 1]) else s
  }

  function Trim(env: Env, s: string): string {
    TrimRight(env, TrimLeft(env, s))
  }

  function Lower(env: Env, s: string): string {
    seq(|s|, i requires 0 <= i < |s| => env.lower(s[i]))
  }

  /** One trailing dot goes, no more. */
  function TrimDot(s: string): string {
    if s != [] && s[|s| - 1] == '.' then s[..|s| - 1] else s
  }

  function Canon(env: Env, raw: string): string {
    TrimDot(Lower(env, Trim(env, raw)))
  }

  predicate Banned(s: string) {
    exists ch | ch in s :: ch in DELIMITERS
  }

  function Registry(env: Env, raw: string): Option<string> {
    var host := Canon(env, raw);
    if host == "" || env.isIP(host) || Banned(Trim(env, raw)) then None else Some(host)
  }

  /** The last '@', or -1. */
  function LastAt(s: string): (r: int)
    ensures -1 <= r < |s|
    ensures r >= 0 ==> s[r] == '@'
    ensures forall j :: r < j < |s| ==> s[j] != '@'
  {
    if s == [] then -1
    else if s[|s| - 1] == '@' then |s| - 1
    else LastAt(s[..|s| - 1])
  }

  /** An extension name, with the registry it is bound to or "". */
  datatype Selector = Selector(name: string, source: string)

  function Text(sel: Selector): string {
    if sel.source == "" then sel.name else sel.name + "@" + sel.source
  }

  /** The canonical text of a selector. */
  function Canonical(env: Env, raw: string): Option<string> {
    var s := Trim(env, raw);
    var i := LastAt(s);
    if s == "" then None
    else if i < 0 then Some(s)
    else
      match Registry(env, s[i + 1..])
      case None => None
      case Some(source) => if i == 0 then None else Some(s[..i] + "@" + source)
  }

  function Split(canonical: string): Selector {
    var i := LastAt(canonical);
    if i < 0 then Selector(canonical, "") else Selector(canonical[..i], canonical[i + 1..])
  }

  function Parse(env: Env, raw: string): Option<Selector> {
    match Canonical(env, raw)
    case None => None
    case Some(c) => Some(Split(c))
  }

  // ---------- reading back ----------

  lemma {:induction false} TrimLeftStops(env: Env, s: string)
    ensures var t := TrimLeft(env, s); t != [] ==> !env.space(t[0])
    ensures forall ch :: ch in TrimLeft(env, s) ==> ch in s
  {
    if s != [] && env.space(s[0]) {
      TrimLeftStops(env, s[1..]);
    }
  }

  lemma {:induction false} TrimRightStops(env: Env, s: string)
    ensures var t := TrimRight(env, s);
      && (t != [] ==> !env.space(t[|t| - 1]) && s != [] && t[0] == s[0])
      && (forall ch :: ch in t ==> ch in s)
  {
    if s != [] && env.space(s[|s| - 1]) {
      TrimRightStops(env, s[..|s| - 1]);
    }
  }

  /** No white space at either end. */
  predicate Trimmed(env: Env, s: string) {
    s != [] ==> !env.space(s[0]) && !env.space(s[|s| - 1])
  }

  lemma TrimTrims(env: Env, s: string)
    ensures Trimmed(env, Trim(env, s))
    ensures forall ch :: ch in Trim(env, s) ==> ch in s
  {
    TrimLeftStops(env, s);
    TrimRightStops(env, TrimLeft(env, s));
  }

  lemma TrimmedStays(env: Env, s: string)
    requires Trimmed(env, s)
    ensures Trim(env, s) == s
  {
  }

  /** A last '@' is found where it was put. */
  lemma LastAtFound(name: string, source: string)
    requires '@' !in source
    ensures LastAt(name + "@" + source) == |name|
  {
    LastAtIs(name + "@" + source, |name|);
  }

  lemma LastAtIs(s: string, k: nat)
    requires k < |s| && s[k] == '@' && '@' !in s[k + 1..]
    ensures LastAt(s) == k
  {
    hide LastAt;
  }

  lemma SplitText(sel: Selector)
    requires '@' !in sel.source && (sel.source == "" ==> '@' !in sel.name)
    ensures Split(Text(sel)) == sel
  {
    if sel.source == "" {
      assert LastAt(sel.name) == -1;
    } else {
      LastAtFound(sel.name, sel.source);
    }
  }

  lemma CanonIsClean(env: Env, raw: string)
    requires Sane(env) && !Banned(Trim(env, raw))
    ensures !Banned(Canon(env, raw)) && '@' !in Canon(env, raw)
  {
    hide Trim;
    var t := Trim(env, raw);
    forall i | 0 <= i < |t| ensures Lower(env, t)[i] !in DELIMITERS {
      assert t[i] in t;
    }
    assert '@' in DELIMITERS;
  }

  /** What parsing yields: a trimmed name, or a name that starts well, bound to a
      registry that passed the registry check. */
  lemma ParseShape(env: Env, raw: string)
    requires Sane(env) && Canonical(env, raw).Some?
    ensures var sel := Parse(env, raw).value;
      && Canonical(env, raw) == Some(Text(sel))
      && sel.name != "" && !env.space(sel.name[0])
      && '@' !in sel.source
      && (sel.source == "" ==> Trimmed(env, sel.name) && '@' !in sel.name)
      && (sel.source != "" ==> !env.isIP(sel.source) && !Banned(sel.source))
  {
    var s := Trim(env, raw);
    TrimTrims(env, raw);
    var i := LastAt(s);
    if i >= 0 {
      CanonIsClean(env, s[i + 1..]);
      var source := Canon(env, s[i + 1..]);
      SplitText(Selector(s[..i], source));
    }
  }

  /** The selector's registry host is unchanged by canonicalisation. */
  predicate FixedSource(env: Env, sel: Selector) {
    sel.source != "" ==> Canon(env, sel.source) == sel.source
  }

  lemma FixedIsTrimmed(env: Env, host: string)
    requires Canon(env, host) == host
    ensures Trim(env, host) == host
  {
    TrimShorter(env, host);
  }

  lemma {:induction false} TrimLeftShorter(env: Env, s: string)
    ensures |TrimLeft(env, s)| <= |s| && (|TrimLeft(env, s)| == |s| ==> TrimLeft(env, s) == s)
  {
    if s != [] && env.space(s[0]) {
      TrimLeftShorter(env, s[1..]);
    }
  }

  lemma {:induction false} TrimRightShorter(env: Env, s: string)
    ensures |TrimRight(env, s)| <= |s| && (|TrimRight(env, s)| == |s| ==> TrimRight(env, s) == s)
  {
    if s != [] && env.space(s[|s| - 1]) {
      TrimRightShorter(env, s[..|s| - 1]);
    }
  }

  lemma TrimShorter(env: Env, s: string)
    ensures |Trim(env, s)| <= |s| && (|Trim(env, s)| == |s| ==> Trim(env, s) == s)
  {
    TrimLeftShorter(env, s);
    TrimRightShorter(env, TrimLeft(env, s));
  }

  lemma FixedRegistry(env: Env, host: string)
    requires Registry(env, host) == Some(host)
    ensures host != "" && Trimmed(env, host)
  {
    hide TrimLeft, TrimRight, Lower, Banned;
    FixedIsTrimmed(env, host);
    TrimTrims(env, host);
  }

  /** A selector with a fixed host reads back from its text. */
  lemma TextReadsBack(env: Env, sel: Selector)
    requires sel.name != "" && !env.space(sel.name[0]) && '@' !in sel.source
    requires sel.source == "" ==> Trimmed(env, sel.name) && '@' !in sel.name
    requires sel.source != "" ==> Registry(env, sel.source) == Some(sel.source)
    ensures Canonical(env, Text(sel)) == Some(Text(sel))
    ensures Parse(env, Text(sel)) == Some(sel)
  {
    hide Registry, Trim, LastAt;
    SplitText(sel);
    var s := Text(sel);
    if sel.source == "" {
      TrimmedStays(env, s);
    } else {
      FixedRegistry(env, sel.source);
      assert s[|s| - 1] == sel.source[|sel.source| - 1];
      TrimmedStays(env, s);
      LastAtFound(sel.name, sel.source);
      assert s[|sel.name| + 1..] == sel.source && s[..|sel.name|] == sel.name;
    }
  }

  /** A name bound to a host is read with the host made canonical. */
  lemma BoundTextReads(env: Env, name: string, host: string)
    requires name != "" && !env.space(name[0]) && host != "" && !env.space(host[|host| - 1]) && '@' !in host
    requires Registry(env, host).Some?
    ensures Canonical(env, name + "@" + host) == Some(name + "@" + Registry(env, host).value)
  {
    hide Registry;
    var s := name + "@" + host;
    assert s[|s| - 1] == host[|host| - 1];
    TrimmedStays(env, s);
    LastAtFound(name, host);
    assert s[|name| + 1..] == host && s[..|name|] == name;
  }

  /** A text that is its own canonical form holds a host that is, too. */
  lemma OwnTextIsFixed(env: Env, text: string)
    requires Sane(env) && Canonical(env, text) == Some(text) && '@' in text
    ensures FixedSource(env, Split(text)) && Split(text).source != ""
  {
    hide Trim, Canon, LastAt, Banned, Sane;
    TrimShorter(env, text);
    var s := Trim(env, text);
    var i := LastAt(s);
    if i >= 0 {
      var host := Canon(env, s[i + 1..]);
      CanonShorter(env, s[i + 1..]);
      assert text == s[..i] + "@" + host;
      assert text[i + 1..] == host;
    }
  }

  lemma CanonShorter(env: Env, raw: string)
    ensures |Canon(env, raw)| <= |raw|
  {
    TrimShorter(env, raw);
  }

  lemma FixedReadsBack(env: Env, raw: string)
    requires Sane(env) && Canonical(env, raw).Some? && FixedSource(env, Parse(env, raw).value)
    ensures var sel := Parse(env, raw).value;
      Canonical(env, Text(sel)) == Some(Text(sel)) && Parse(env, Text(sel)) == Some(sel)
  {
    var sel := Parse(env, raw).value;
    ParseShape(env, raw);
    if sel.source != "" {
      FixedIsTrimmed(env, sel.source);
    }
    TextReadsBack(env, sel);
  }
}
