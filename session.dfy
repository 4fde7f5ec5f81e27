/** The database URL handling done before the engine is created: a Heroku
    style `postgres://` scheme is rewritten to `postgresql://`, and SQLite
    engines are told not to check the creating thread. */
module DbSession {
  import opened Base

  const LegacyScheme := "postgres://"
  const Scheme := "postgresql://"

  /** The first index at or after `from` where `sub` occurs in `s`. */
  function IndexFrom(s: string, sub: string, from: nat): (r: Option<nat>)
    requires from <= |s| + 1
    ensures r.Some? ==> from <= r.value && OccursAt(s, sub, r.value)
    ensures r.Some? ==> forall j | from <= j < r.value :: !OccursAt(s, sub, j)
    ensures r.None? ==> forall j | from <= j :: !OccursAt(s, sub, j)
    decreases |s| + 1 - from
  {
    if from + |sub| > |s| then None
    else if s[from..from + |sub|] == sub then Some(from)
    else IndexFrom(s, sub, from + 1)
  }

  /** Python's `s.find(sub)`, or None for -1. */
  function IndexOf(s: string, sub: string): (r: Option<nat>)
    ensures r.Some? ==> OccursAt(s, sub, r.value) && forall j | 0 <= j < r.value :: !OccursAt(s, sub, j)
    ensures r.None? <==> !Contains(s, sub)
  {
    IndexFrom(s, sub, 0)
  }

  /** Python's `s.replace(target, replacement, 1)`: the first occurrence of
      `target`, if any, is replaced by `replacement`. */
  function ReplaceFirst(s: string, target: string, replacement: string): (r: string)
    ensures !Contains(s, target) ==> r == s
    ensures forall i | OccursAt(s, target, i) && (forall j | 0 <= j < i :: !OccursAt(s, target, j)) ::
      r == s[..i] + replacement + s[i + |target|..]
  {
    match IndexOf(s, target)
    case None => s
    case Some(i) => s[..i] + replacement + s[i + |target|..]
  }

  /** When `s` starts with `target`, that occurrence is the one replaced. */
  lemma ReplaceFirstAtStart(s: string, target: string, replacement: string)
    requires StartsWith(s, target)
    ensures ReplaceFirst(s, target, replacement) == replacement + s[|target|..]
  {
    assert s[0..|target|] == s[..|target|] == target;
    assert IndexFrom(s, target, 0) == Some(0);
    assert s[..0] + replacement + s[|target|..] == replacement + s[|target|..];
  }

  /** The configured URL as the engine receives it. */
  function RewriteUri(uri: string): (r: string)
    ensures StartsWith(uri, LegacyScheme) ==> r == Scheme + uri[|LegacyScheme|..]
    ensures !StartsWith(uri, LegacyScheme) ==> r == uri
  {
    if uri != "" && StartsWith(uri, LegacyScheme) then
      ReplaceFirstAtStart(uri, LegacyScheme, Scheme);
      ReplaceFirst(uri, LegacyScheme, Scheme)
    else uri
  }

  /** Nothing after the scheme is touched, even a second `postgres://`. */
  lemma OnlySchemeReplaced(rest: string)
    ensures RewriteUri(LegacyScheme + rest) == Scheme + rest
  {
    assert (LegacyScheme + rest)[..|LegacyScheme|] == LegacyScheme;
    assert (LegacyScheme + rest)[|LegacyScheme|..] == rest;
  }

  /** Rewriting twice is rewriting once: the new scheme does not start with
      the old one. */
  lemma RewriteIdempotent(uri: string)
    ensures RewriteUri(RewriteUri(uri)) == RewriteUri(uri)
  {
    var r := RewriteUri(uri);
    if StartsWith(uri, LegacyScheme) {
      assert r[..|LegacyScheme|][8] == 'q';
    }
  }

  /** The extra connection arguments for the engine. */
  datatype ConnectArgs = NoArgs | CheckSameThreadOff

  function ConnectArgsFor(uri: string): (a: ConnectArgs)
    ensures a == CheckSameThreadOff <==> Contains(uri, "sqlite")
  {
    if Contains(uri, "sqlite") then CheckSameThreadOff else NoArgs
  }
}
