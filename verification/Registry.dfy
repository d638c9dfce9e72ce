/**
 * The route-permission registry and the route tree it is loaded from
 * (route-permissions.registry.ts, route-permissions.config.ts). Two insertion-ordered
 * maps with a four-tier lookup are proved to refine the plain list of registrations.
 */
module Registry {
  import opened Wrappers
  import opened PathRegex
  import opened Permissions
  import opened Strings

  /** Everything a registration says besides its path and method. */
  datatype RouteRule = RouteRule(
    permissions: Option<seq<Permission>>, permissionGroup: Option<PermissionGroup>, requireAll: Option<bool>,
    isPublic: bool, isAdmin: bool, isRefreshToken: bool, isTwoFactorVerify: bool)

  datatype RoutePermission = RoutePermission(path: string, verb: string, rule: RouteRule)

  // toUpperCase on the ASCII letters, all an HTTP method name can hold.
  function UpperChar(c: char): char {
    if 'a' <= c <= 'z' then (c as int - 32) as char else c
  }

  function Upper(s: string): (r: string)
    ensures |r| == |s| && forall i :: 0 <= i < |s| ==> r[i] == UpperChar(s[i])
  {
    seq(|s|, i requires 0 <= i < |s| => UpperChar(s[i]))
  }

  function GetRouteKey(path: string, verb: string): string {
    Upper(verb) + ":" + path
  }

  predicate Parametric(path: string) {
    ':' in path
  }

  // ---- Specification: the list of registrations, newest last ----

  type Log = seq<RoutePermission>

  predicate IsFor(r: RoutePermission, verb: string, path: string) {
    Upper(r.verb) == Upper(verb) && r.path == path
  }

  // The latest registration of (verb, path).
  function Latest(log: Log, verb: string, path: string): (r: Option<RoutePermission>)
    ensures r.Some? ==> r.value in log && IsFor(r.value, verb, path)
    ensures r.None? ==> forall i :: 0 <= i < |log| ==> !IsFor(log[i], verb, path)
  {
    if |log| == 0 then None
    else if IsFor(log[|log| - 1], verb, path) then Some(log[|log| - 1])
    else Latest(log[..|log| - 1], verb, path)
  }

  predicate Candidate(engine: Engine, r: RoutePermission, verb: string, path: string) {
    Parametric(r.path) && Upper(r.verb) == Upper(verb) && EngineTest(engine, PathToRegex(r.path), path)
  }

  // Of the parametric paths of the verb that match, the one registered first.
  function FirstPattern(engine: Engine, log: Log, verb: string, path: string): Option<string> {
    if |log| == 0 then None
    else
      var n := |log| - 1;
      var earlier := FirstPattern(engine, log[..n], verb, path);
      if earlier.Some? then earlier else if Candidate(engine, log[n], verb, path) then Some(log[n].path) else None
  }

  function ByPattern(engine: Engine, log: Log, verb: string, path: string): Option<RoutePermission> {
    match FirstPattern(engine, log, verb, path)
    case Some(pattern) => Latest(log, verb, pattern)
    case None => None
  }

  function OrElse(a: Option<RoutePermission>, b: Option<RoutePermission>): Option<RoutePermission> {
    if a.Some? then a else b
  }

  // Exact, then pattern, then exact under ALL, then pattern under ALL.
  function Lookup(engine: Engine, log: Log, path: string, verb: string): Option<RoutePermission> {
    OrElse(Latest(log, verb, path),
    OrElse(ByPattern(engine, log, verb, path),
    OrElse(Latest(log, "ALL", path),
           ByPattern(engine, log, "ALL", path))))
  }

  // ---- Implementation: two maps in insertion order ----

  type Table = map<string, RoutePermission>

  /** An entry of the pattern map: a route key and the text of its regular expression. */
  datatype Pattern = Pattern(key: string, regex: string)

  function PatternOf(r: RoutePermission): Pattern {
    Pattern(GetRouteKey(r.path, r.verb), PathToRegex(r.path))
  }

  // Map.set: a new key goes last, a known key keeps its place.
  function SetPattern(ps: seq<Pattern>, p: Pattern): seq<Pattern> {
    if ps == [] then [p]
    else if ps[0].key == p.key then [p] + ps[1..]
    else [ps[0]] + SetPattern(ps[1..], p)
  }

  function TableOf(log: Log): Table {
    if |log| == 0 then map[]
    else
      var r := log[|log| - 1];
      TableOf(log[..|log| - 1])[GetRouteKey(r.path, r.verb) := r]
  }

  function PatternsOf(log: Log): seq<Pattern> {
    if |log| == 0 then []
    else
      var before, r := PatternsOf(log[..|log| - 1]), log[|log| - 1];
      if Parametric(r.path) then SetPattern(before, PatternOf(r)) else before
  }

  predicate Hits(engine: Engine, p: Pattern, prefix: string, path: string) {
    prefix <= p.key && EngineTest(engine, p.regex, path)
  }

  // The loop over the entries of the pattern map.
  function FindPattern(engine: Engine, ps: seq<Pattern>, prefix: string, path: string): Option<string> {
    if ps == [] then None
    else if Hits(engine, ps[0], prefix, path) then Some(ps[0].key)
    else FindPattern(engine, ps[1..], prefix, path)
  }

  // ---- The implementation refines the list ----

  // HTTP method names have no colon.
  predicate ColonFree(log: Log) {
    forall i :: 0 <= i < |log| ==> Free(log[i].verb, ':')
  }

  lemma UpperColonFree(verb: string)
    requires Free(verb, ':')
    ensures Free(Upper(verb), ':')
  {
  }

  // A key decides its verb, up to case, and its path.
  lemma RouteKeyInjective(path: string, verb: string, path': string, verb': string)
    requires Free(verb, ':') && Free(verb', ':')
    ensures Upper(verb) + ":" <= GetRouteKey(path', verb') <==> Upper(verb) == Upper(verb')
    ensures GetRouteKey(path, verb) == GetRouteKey(path', verb') <==> Upper(verb) == Upper(verb') && path == path'
  {
    UpperColonFree(verb);
    UpperColonFree(verb');
    PrefixedInjective(Upper(verb), path, Upper(verb'), path', ':');
  }

  lemma {:induction false} TableIsLatest(log: Log, verb: string, path: string)
    requires ColonFree(log) && Free(verb, ':')
    ensures GetRouteKey(path, verb) in TableOf(log) <==> Latest(log, verb, path).Some?
    ensures Latest(log, verb, path).Some? ==> TableOf(log)[GetRouteKey(path, verb)] == Latest(log, verb, path).value
  {
    if |log| > 0 {
      var n := |log| - 1;
      TableIsLatest(log[..n], verb, path);
      RouteKeyInjective(path, verb, log[n].path, log[n].verb);
      hide GetRouteKey;
    }
  }

  predicate Registered(p: Pattern, log: Log) {
    exists j :: 0 <= j < |log| && Parametric(log[j].path) && PatternOf(log[j]) == p
  }

  // The entries are exactly the parametric registrations' own keys and expressions, each key once.
  ghost predicate PatternsExact(ps: seq<Pattern>, log: Log) {
    && (forall p :: p in ps <==> Registered(p, log))
    && (forall i, j :: 0 <= i < j < |ps| ==> ps[i].key != ps[j].key)
  }

  lemma {:induction false} SetPatternKnown(ps: seq<Pattern>, p: Pattern)
    requires p in ps && forall i, j :: 0 <= i < j < |ps| ==> ps[i].key != ps[j].key
    ensures SetPattern(ps, p) == ps
  {
    if ps[0].key == p.key {
      assert ps[0] == p && ps == [p] + ps[1..];
    } else {
      SetPatternKnown(ps[1..], p);
    }
  }

  lemma {:induction false} SetPatternNew(ps: seq<Pattern>, p: Pattern)
    requires forall i :: 0 <= i < |ps| ==> ps[i].key != p.key
    ensures SetPattern(ps, p) == ps + [p]
  {
    if ps != [] {
      SetPatternNew(ps[1..], p);
    }
  }

  lemma SameKeySamePattern(a: RoutePermission, b: RoutePermission)
    requires Free(a.verb, ':') && Free(b.verb, ':') && PatternOf(a).key == PatternOf(b).key
    ensures PatternOf(a) == PatternOf(b)
  {
    RouteKeyInjective(a.path, a.verb, b.path, b.verb);
  }

  // Registering a known parametric key changes nothing; a new one is appended.
  lemma RegisterPattern(log: Log)
    requires ColonFree(log) && |log| > 0 && PatternsExact(PatternsOf(log[..|log| - 1]), log[..|log| - 1])
    ensures var before, r := PatternsOf(log[..|log| - 1]), log[|log| - 1];
            PatternsOf(log) == if Parametric(r.path) && PatternOf(r) !in before then before + [PatternOf(r)] else before
    ensures var before, r := PatternsOf(log[..|log| - 1]), log[|log| - 1];
            forall i :: 0 <= i < |before| && before[i].key == PatternOf(r).key ==> before[i] == PatternOf(r)
  {
    var n := |log| - 1;
    var ps, r := PatternsOf(log[..n]), log[n];
    forall i | 0 <= i < |ps| && ps[i].key == PatternOf(r).key ensures ps[i] == PatternOf(r) {
      assert Registered(ps[i], log[..n]);
      var j :| 0 <= j < n && Parametric(log[..n][j].path) && PatternOf(log[..n][j]) == ps[i];
      assert log[..n][j] == log[j];
      SameKeySamePattern(log[j], r);
    }
    hide PatternOf;
    if PatternOf(r) in ps {
      SetPatternKnown(ps, PatternOf(r));
    } else {
      SetPatternNew(ps, PatternOf(r));
    }
  }

  lemma RegisteredAppend(p: Pattern, log: Log, r: RoutePermission)
    ensures Registered(p, log + [r]) <==> Registered(p, log) || (Parametric(r.path) && p == PatternOf(r))
  {
    hide PatternOf, Parametric;
    var log' := log + [r];
    assert log'[|log|] == r;
    if Registered(p, log) {
      var j :| 0 <= j < |log| && Parametric(log[j].path) && PatternOf(log[j]) == p;
      assert log'[j] == log[j];
    }
  }

  lemma {:induction false} PatternsAreExact(log: Log)
    requires ColonFree(log)
    ensures PatternsExact(PatternsOf(log), log)
  {
    if |log| > 0 {
      var n := |log| - 1;
      PatternsAreExact(log[..n]);
      RegisterPattern(log);
      assert log[..n] + [log[n]] == log;
      hide Hits, FindPattern;
      forall p ensures Registered(p, log) <==>
          Registered(p, log[..n]) || (Parametric(log[n].path) && p == PatternOf(log[n])) {
        RegisteredAppend(p, log[..n], log[n]);
      }
      hide PatternOf, Registered;
    }
  }

  lemma {:induction false} FindPatternAppend(engine: Engine, ps: seq<Pattern>, p: Pattern, prefix: string, path: string)
    ensures FindPattern(engine, ps + [p], prefix, path) ==
            if FindPattern(engine, ps, prefix, path).Some? then FindPattern(engine, ps, prefix, path)
            else if Hits(engine, p, prefix, path) then Some(p.key) else None
  {
    if ps != [] {
      assert (ps + [p])[1..] == ps[1..] + [p];
      FindPatternAppend(engine, ps[1..], p, prefix, path);
    }
  }

  lemma {:induction false} FindPatternMember(engine: Engine, ps: seq<Pattern>, p: Pattern, prefix: string, path: string)
    requires p in ps && Hits(engine, p, prefix, path)
    ensures FindPattern(engine, ps, prefix, path).Some?
  {
    if ps[0] != p {
      FindPatternMember(engine, ps[1..], p, prefix, path);
    }
  }

  lemma {:induction false} FindIsFirstPattern(engine: Engine, log: Log, verb: string, path: string)
    requires ColonFree(log) && Free(verb, ':')
    ensures FindPattern(engine, PatternsOf(log), Upper(verb) + ":", path) ==
            match FirstPattern(engine, log, verb, path) case Some(p) => Some(GetRouteKey(p, verb)) case None => None
  {
    if |log| > 0 {
      var n := |log| - 1;
      var ps, r, prefix := PatternsOf(log[..n]), log[n], Upper(verb) + ":";
      FindIsFirstPattern(engine, log[..n], verb, path);
      PatternsAreExact(log[..n]);
      RegisterPattern(log);
      RouteKeyInjective("", verb, r.path, r.verb);
      FindPatternAppend(engine, ps, PatternOf(r), prefix, path);
      if PatternOf(r) in ps && Hits(engine, PatternOf(r), prefix, path) {
        FindPatternMember(engine, ps, PatternOf(r), prefix, path);
      }
    }
  }

  lemma {:induction false} FirstIsRegistered(engine: Engine, log: Log, verb: string, path: string)
    requires FirstPattern(engine, log, verb, path).Some?
    ensures Latest(log, verb, FirstPattern(engine, log, verb, path).value).Some?
  {
    var n := |log| - 1;
    if FirstPattern(engine, log[..n], verb, path).Some? {
      FirstIsRegistered(engine, log[..n], verb, path);
    }
  }

  lemma PatternTier(engine: Engine, log: Log, verb: string, path: string)
    requires ColonFree(log) && Free(verb, ':')
    ensures var found := FindPattern(engine, PatternsOf(log), Upper(verb) + ":", path);
            && (found.Some? <==> ByPattern(engine, log, verb, path).Some?)
            && (found.Some? ==> found.value in TableOf(log) &&
                                ByPattern(engine, log, verb, path) == Some(TableOf(log)[found.value]))
  {
    FindIsFirstPattern(engine, log, verb, path);
    var first := FirstPattern(engine, log, verb, path);
    if first.Some? {
      TableIsLatest(log, verb, first.value);
      FirstIsRegistered(engine, log, verb, path);
    }
  }

  // ---- What the four tiers give, entry by entry ----

  predicate SameLetter(a: char, b: char) {
    a == b || ('a' <= a <= 'z' && a as int - 32 == b as int) || ('a' <= b <= 'z' && b as int - 32 == a as int)
  }

  // The same method but for the case of its letters.
  predicate SameVerb(a: string, b: string) {
    |a| == |b| && forall i :: 0 <= i < |a| ==> SameLetter(a[i], b[i])
  }

  lemma UpperMeansSameVerb(a: string, b: string)
    ensures Upper(a) == Upper(b) <==> SameVerb(a, b)
  {
    if |a| == |b| {
      forall i | 0 <= i < |a| ensures SameLetter(a[i], b[i]) <==> Upper(a)[i] == Upper(b)[i] {
      }
    }
    hide Upper, SameLetter;
  }

  predicate DeclaredFor(r: RoutePermission, verb: string, path: string) {
    SameVerb(r.verb, verb) && r.path == path
  }

  // Parametric, of this method, and matching segment by segment.
  predicate Fits(r: RoutePermission, verb: string, path: string) {
    ':' in r.path && SameVerb(r.verb, verb) && PathMatches(r.path, path)
  }

  predicate LatestAt(log: Log, i: nat, verb: string, path: string) {
    i < |log| && DeclaredFor(log[i], verb, path) && forall j :: i < j < |log| ==> !DeclaredFor(log[j], verb, path)
  }

  predicate FirstFitAt(log: Log, i: nat, verb: string, path: string) {
    i < |log| && Fits(log[i], verb, path) && forall j :: 0 <= j < i ==> !Fits(log[j], verb, path)
  }

  predicate Undeclared(log: Log, verb: string, path: string) {
    forall i :: 0 <= i < |log| ==> !DeclaredFor(log[i], verb, path)
  }

  predicate Unfitted(log: Log, verb: string, path: string) {
    forall i :: 0 <= i < |log| ==> !Fits(log[i], verb, path)
  }

  // No parametric path of the method has a metacharacter outside its parameters.
  predicate PlainPatterns(log: Log, verb: string) {
    forall i :: 0 <= i < |log| && ':' in log[i].path && SameVerb(log[i].verb, verb) ==>
      OnlyDots(LiteralPart(log[i].path)) && '.' !in LiteralPart(log[i].path)
  }

  // r is the latest registration of the method and path; without one, the latest registration of
  // the first parametric path of the method that fits; without that, the latest registration of
  // the path for ALL; without that, the latest of the first parametric ALL path that fits; else
  // nothing.
  ghost predicate Answers(log: Log, path: string, verb: string, r: Option<RoutePermission>) {
    && (forall i: nat :: LatestAt(log, i, verb, path) ==> r == Some(log[i]))
    && (Undeclared(log, verb, path) ==>
          forall i: nat, k: nat :: FirstFitAt(log, i, verb, path) && LatestAt(log, k, verb, log[i].path) ==>
                                     r == Some(log[k]))
    && (Undeclared(log, verb, path) && Unfitted(log, verb, path) ==>
          && (forall i: nat :: LatestAt(log, i, "ALL", path) ==> r == Some(log[i]))
          && (Undeclared(log, "ALL", path) ==>
                && (forall i: nat, k: nat :: FirstFitAt(log, i, "ALL", path) && LatestAt(log, k, "ALL", log[i].path) ==>
                                     r == Some(log[k]))
                && (Unfitted(log, "ALL", path) ==> r == None)))
  }

  lemma {:induction false} LatestIsAt(log: Log, i: nat, verb: string, path: string)
    ensures LatestAt(log, i, verb, path) ==> Latest(log, verb, path) == Some(log[i])
    ensures Undeclared(log, verb, path) ==> Latest(log, verb, path) == None
  {
    if log != [] {
      var n := |log| - 1;
      UpperMeansSameVerb(log[n].verb, verb);
      LatestIsAt(log[..n], i, verb, path);
      hide SameVerb, Upper;
    }
  }

  lemma {:induction false} FirstPatternIsAt(engine: Engine, log: Log, i: nat, verb: string, path: string)
    requires PlainPatterns(log, verb)
    ensures FirstFitAt(log, i, verb, path) ==> FirstPattern(engine, log, verb, path) == Some(log[i].path)
    ensures Unfitted(log, verb, path) ==> FirstPattern(engine, log, verb, path) == None
  {
    if log != [] {
      var n := |log| - 1;
      UpperMeansSameVerb(log[n].verb, verb);
      FirstPatternIsAt(engine, log[..n], i, verb, path);
      if ':' in log[n].path && SameVerb(log[n].verb, verb) {
        EngineMatches(engine, log[n].path, path);
      }
      hide SameVerb, Upper, EngineTest, PathMatches, PathToRegex, OnlyDots, LiteralPart;
      assert Candidate(engine, log[n], verb, path) <==> Fits(log[n], verb, path);
    }
  }

  // The two tiers of one method.
  lemma TierAnswers(engine: Engine, log: Log, verb: string, path: string)
    requires PlainPatterns(log, verb)
    ensures forall i: nat :: LatestAt(log, i, verb, path) ==> Latest(log, verb, path) == Some(log[i])
    ensures Undeclared(log, verb, path) ==> Latest(log, verb, path) == None
    ensures forall i: nat, k: nat :: FirstFitAt(log, i, verb, path) && LatestAt(log, k, verb, log[i].path) ==>
                                       ByPattern(engine, log, verb, path) == Some(log[k])
    ensures Unfitted(log, verb, path) ==> ByPattern(engine, log, verb, path) == None
  {
    hide Latest, FirstPattern, DeclaredFor, Fits, PlainPatterns;
    LatestIsAt(log, 0, verb, path);
    FirstPatternIsAt(engine, log, 0, verb, path);
    forall i: nat | LatestAt(log, i, verb, path) ensures Latest(log, verb, path) == Some(log[i]) {
      LatestIsAt(log, i, verb, path);
    }
    forall i: nat, k: nat | FirstFitAt(log, i, verb, path) && LatestAt(log, k, verb, log[i].path)
      ensures ByPattern(engine, log, verb, path) == Some(log[k])
    {
      FirstPatternIsAt(engine, log, i, verb, path);
      LatestIsAt(log, k, verb, log[i].path);
    }
  }

  lemma LookupAnswers(engine: Engine, log: Log, path: string, verb: string)
    requires PlainPatterns(log, verb) && PlainPatterns(log, "ALL")
    ensures Answers(log, path, verb, Lookup(engine, log, path, verb))
  {
    hide Latest, ByPattern, DeclaredFor, Fits, PlainPatterns;
    TierAnswers(engine, log, verb, path);
    TierAnswers(engine, log, "ALL", path);
  }

  // The description leaves no choice.
  lemma OneAnswer(log: Log, path: string, verb: string, r: Option<RoutePermission>, r': Option<RoutePermission>)
    requires Answers(log, path, verb, r) && Answers(log, path, verb, r')
    ensures r == r'
  {
    hide DeclaredFor, Fits;
    LatestExists(log, verb, path);
    LatestExists(log, "ALL", path);
    FitExists(log, verb, path);
    FitExists(log, "ALL", path);
  }

  lemma {:induction false} LatestExists(log: Log, verb: string, path: string)
    ensures Undeclared(log, verb, path) || exists i: nat :: LatestAt(log, i, verb, path)
  {
    hide DeclaredFor;
    if !Undeclared(log, verb, path) {
      var n := |log| - 1;
      if DeclaredFor(log[n], verb, path) {
        assert LatestAt(log, n, verb, path);
      } else {
        LatestExists(log[..n], verb, path);
        var i: nat :| LatestAt(log[..n], i, verb, path);
        assert LatestAt(log, i, verb, path);
      }
    }
  }

  lemma {:induction false} FirstExists(log: Log, verb: string, path: string)
    ensures Unfitted(log, verb, path) || exists i: nat :: FirstFitAt(log, i, verb, path)
  {
    hide Fits;
    if log != [] && !Unfitted(log, verb, path) {
      var n := |log| - 1;
      FirstExists(log[..n], verb, path);
      if i: nat :| FirstFitAt(log[..n], i, verb, path) {
        assert FirstFitAt(log, i, verb, path);
      } else {
        assert FirstFitAt(log, n, verb, path);
      }
    }
  }

  lemma FitExists(log: Log, verb: string, path: string)
    ensures Unfitted(log, verb, path) ||
            exists i: nat, k: nat :: FirstFitAt(log, i, verb, path) && LatestAt(log, k, verb, log[i].path)
  {
    FirstExists(log, verb, path);
    if i: nat :| FirstFitAt(log, i, verb, path) {
      LatestExists(log, verb, log[i].path);
      assert DeclaredFor(log[i], verb, log[i].path);
    }
  }

  // ---- The same for any method text: the lookup as a property of keys ----

  // The latest registration under a key.
  function LatestKey(log: Log, key: string): (r: Option<RoutePermission>)
    ensures r.None? <==> forall i :: 0 <= i < |log| ==> GetRouteKey(log[i].path, log[i].verb) != key
  {
    if |log| == 0 then None
    else
      var r := log[|log| - 1];
      if GetRouteKey(r.path, r.verb) == key then Some(r) else LatestKey(log[..|log| - 1], key)
  }

  // The parametric keys, in the order of their first registration.
  function KeysOf(log: Log): (keys: seq<string>)
    ensures forall i, j :: 0 <= i < j < |keys| ==> keys[i] != keys[j]
    ensures forall i :: 0 <= i < |keys| ==> LatestKey(log, keys[i]).Some?
  {
    if |log| == 0 then []
    else
      var before, r := KeysOf(log[..|log| - 1]), log[|log| - 1];
      var key := GetRouteKey(r.path, r.verb);
      if Parametric(r.path) && key !in before then before + [key] else before
  }

  // The path of the latest parametric registration under a key.
  function ParametricPath(log: Log, key: string): string {
    if |log| == 0 then ""
    else
      var r := log[|log| - 1];
      if Parametric(r.path) && GetRouteKey(r.path, r.verb) == key then r.path else ParametricPath(log[..|log| - 1], key)
  }

  function FirstKey(engine: Engine, keys: seq<string>, log: Log, prefix: string, path: string): (key: Option<string>)
    ensures key.Some? ==> key.value in keys
  {
    if keys == [] then None
    else if prefix <= keys[0] && EngineTest(engine, PathToRegex(ParametricPath(log, keys[0])), path) then Some(keys[0])
    else FirstKey(engine, keys[1..], log, prefix, path)
  }

  function ByKey(engine: Engine, log: Log, prefix: string, path: string): Option<RoutePermission> {
    match FirstKey(engine, KeysOf(log), log, prefix, path)
    case Some(key) => LatestKey(log, key)
    case None => None
  }

  function KeyLookup(engine: Engine, log: Log, path: string, verb: string): Option<RoutePermission> {
    OrElse(LatestKey(log, GetRouteKey(path, verb)),
    OrElse(ByKey(engine, log, Upper(verb) + ":", path),
    OrElse(LatestKey(log, GetRouteKey(path, "ALL")),
           ByKey(engine, log, "ALL:", path))))
  }

  lemma {:induction false} TableIsLatestKey(log: Log, key: string)
    ensures key in TableOf(log) <==> LatestKey(log, key).Some?
    ensures key in TableOf(log) ==> TableOf(log)[key] == LatestKey(log, key).value
  {
    if |log| > 0 {
      TableIsLatestKey(log[..|log| - 1], key);
    }
  }

  lemma {:induction false} SetPatternAt(ps: seq<Pattern>, p: Pattern, i: nat)
    requires i < |ps| && ps[i].key == p.key && forall j :: 0 <= j < i ==> ps[j].key != p.key
    ensures SetPattern(ps, p) == ps[i := p]
  {
    if i > 0 {
      SetPatternAt(ps[1..], p, i - 1);
    }
  }

  predicate Matching(ps: seq<Pattern>, keys: seq<string>, log: Log) {
    |ps| == |keys| && forall i :: 0 <= i < |ps| ==> ps[i] == Pattern(keys[i], PathToRegex(ParametricPath(log, keys[i])))
  }

  // The pattern map lists the parametric keys in order, each with the expression of the latest
  // parametric path registered under it.
  lemma {:induction false} PatternsByKey(log: Log)
    ensures Matching(PatternsOf(log), KeysOf(log), log)
  {
    if |log| > 0 {
      var before, r := log[..|log| - 1], log[|log| - 1];
      var key := GetRouteKey(r.path, r.verb);
      PatternsByKey(before);
      hide PathToRegex, GetRouteKey;
      if Parametric(r.path) {
        if i :| 0 <= i < |KeysOf(before)| && KeysOf(before)[i] == key {
          SetPatternAt(PatternsOf(before), PatternOf(r), i);
        } else {
          SetPatternNew(PatternsOf(before), PatternOf(r));
        }
      }
    }
  }

  lemma {:induction false} FindIsFirstKey(engine: Engine, ps: seq<Pattern>, keys: seq<string>, log: Log,
      prefix: string, path: string)
    requires Matching(ps, keys, log)
    ensures FindPattern(engine, ps, prefix, path) == FirstKey(engine, keys, log, prefix, path)
  {
    hide PathToRegex, ParametricPath, EngineTest;
    if ps != [] {
      FindIsFirstKey(engine, ps[1..], keys[1..], log, prefix, path);
    }
  }

  // One pattern tier over the maps.
  lemma KeyTier(engine: Engine, log: Log, prefix: string, path: string)
    ensures var found := FindPattern(engine, PatternsOf(log), prefix, path);
            && (found.Some? <==> ByKey(engine, log, prefix, path).Some?)
            && (found.Some? ==> found.value in TableOf(log) &&
                                ByKey(engine, log, prefix, path) == Some(TableOf(log)[found.value]))
  {
    PatternsByKey(log);
    FindIsFirstKey(engine, PatternsOf(log), KeysOf(log), log, prefix, path);
    var key := FirstKey(engine, KeysOf(log), log, prefix, path);
    if key.Some? {
      TableIsLatestKey(log, key.value);
    }
  }

  // Where no method holds a colon, keys are as good as methods and paths.
  lemma KeyLookupIsLookup(engine: Engine, log: Log, path: string, verb: string)
    requires ColonFree(log) && Free(verb, ':')
    ensures KeyLookup(engine, log, path, verb) == Lookup(engine, log, path, verb)
  {
    assert Upper("ALL") == "ALL" && Upper("ALL") + ":" == "ALL:";
    TableIsLatest(log, verb, path);
    TableIsLatest(log, "ALL", path);
    TableIsLatestKey(log, GetRouteKey(path, verb));
    TableIsLatestKey(log, GetRouteKey(path, "ALL"));
    PatternTier(engine, log, verb, path);
    PatternTier(engine, log, "ALL", path);
    KeyTier(engine, log, Upper(verb) + ":", path);
    KeyTier(engine, log, "ALL:", path);
    hide GetRouteKey, FindPattern, ByKey, ByPattern, Latest, LatestKey, TableOf;
  }

  // The rule of a registration that says nothing.
  const SILENT := RouteRule(None, None, None, false, false, false, false)

  // Every registration is for the method text v.
  predicate AllFor(log: Log, v: string) {
    forall i :: 0 <= i < |log| ==> log[i].verb == v
  }

  // The text before the first colon, and what follows that colon.
  function BeforeColon(v: string): (i: nat)
    requires ':' in v
    ensures i < |v| && v[i] == ':' && Free(v[..i], ':')
  {
    if v[0] == ':' then 0 else 1 + BeforeColon(v[1..])
  }

  // Colons are exactly what breaks that: for a method text v, looking up by key is looking up by
  // method and path, for all registrations under v and all requests, if and only if v has no
  // colon. With one, a route registered for v answers requests for the text before the colon.
  lemma KeysFaithfulIffNoColon(engine: Engine, v: string)
    ensures (forall log, path, verb :: AllFor(log, v) && Free(verb, ':') ==>
               KeyLookup(engine, log, path, verb) == Lookup(engine, log, path, verb)) <==> ':' !in v
  {
    hide KeyLookup, Lookup, Upper;
    if ':' in v {
      var a, b := v[..BeforeColon(v)], v[BeforeColon(v) + 1..];
      ColonConfuses(engine, a, b);
      assert a + ":" + b == v;
      assert AllFor([RoutePermission("x", v, SILENT)], v);
    } else {
      forall log, path, verb | AllFor(log, v) && Free(verb, ':')
        ensures KeyLookup(engine, log, path, verb) == Lookup(engine, log, path, verb)
      {
        KeyLookupIsLookup(engine, log, path, verb);
      }
    }
  }

  lemma ColonConfuses(engine: Engine, a: string, b: string)
    ensures var log := [RoutePermission("x", a + ":" + b, SILENT)];
            && Lookup(engine, log, Upper(b) + ":x", a).None?
            && KeyLookup(engine, log, Upper(b) + ":x", a) == Some(log[0])
  {
    var v := a + ":" + b;
    var log := [RoutePermission("x", v, SILENT)];
    assert |Upper(v)| > |Upper(a)|;
    assert Upper(v) == Upper(a) + ":" + Upper(b);
    assert GetRouteKey("x", v) == GetRouteKey(Upper(b) + ":x", a);
    assert |Upper(b) + ":x"| > |"x"|;
    assert log[..0] == [];
    NotParametric(engine, log, Upper(b) + ":x", a);
    NotParametric(engine, log, Upper(b) + ":x", "ALL");
  }

  lemma NotParametric(engine: Engine, log: Log, path: string, verb: string)
    requires |log| == 1 && !Parametric(log[0].path)
    ensures FirstPattern(engine, log, verb, path).None?
  {
    assert log[..0] == [];
  }

  // What a looked-up route says: a flag it carries, the permissions it needs (its own list
  // before its group's), and whether all of them are needed (the default).
  predicate Marked(r: Option<RoutePermission>, flag: RouteRule -> bool) {
    r.Some? && flag(r.value.rule)
  }

  function Required(r: Option<RoutePermission>): seq<Permission> {
    if r.None? then []
    else if r.value.rule.permissions.Some? then r.value.rule.permissions.value
    else if r.value.rule.permissionGroup.Some? then GroupPermissions(r.value.rule.permissionGroup.value)
    else []
  }

  predicate RequiresAll(r: Option<RoutePermission>) {
    r.None? || r.value.rule.requireAll != Some(false)
  }

  // The engine accepts the expression of the path, if it needs one.
  predicate Compiles(engine: Engine, r: RoutePermission) {
    Parametric(r.path) ==> engine.compiles(PathToRegex(r.path))
  }

  /** `RoutePermissionsRegistry`, with the list of registrations made so far. Where the engine
      does not compile an expression, its constructor throws. */
  class RoutePermissionsRegistry {
    const engine: Engine
    var routePermissions: Table
    var pathPatterns: seq<Pattern>
    ghost var log: Log

    ghost predicate Valid()
      reads this
    {
      routePermissions == TableOf(log) && pathPatterns == PatternsOf(log)
    }

    constructor (engine: Engine)
      ensures Valid() && log == [] && this.engine == engine
    {
      this.engine := engine;
      routePermissions, pathPatterns, log := map[], [], [];
    }

    // False: the expression did not compile; the rule is stored by then, its pattern is not.
    method Register(r: RoutePermission) returns (ok: bool)
      requires Valid()
      modifies this
      ensures ok <==> Compiles(engine, r)
      ensures ok ==> Valid() && log == old(log) + [r]
      ensures !ok ==> routePermissions == old(routePermissions)[GetRouteKey(r.path, r.verb) := r] &&
                      pathPatterns == old(pathPatterns) && log == old(log)
    {
      var key := GetRouteKey(r.path, r.verb);
      routePermissions := routePermissions[key := r];
      if Parametric(r.path) {
        if !engine.compiles(PathToRegex(r.path)) {
          return false;
        }
        pathPatterns := SetPattern(pathPatterns, Pattern(key, PathToRegex(r.path)));
      }
      assert (log + [r])[..|log|] == log;
      log := log + [r];
      ok := true;
    }

    // The first expression that does not compile ends the whole call.
    method RegisterMany(rs: seq<RoutePermission>) returns (ok: bool)
      requires Valid()
      modifies this
      ensures ok <==> forall i :: 0 <= i < |rs| ==> Compiles(engine, rs[i])
      ensures ok ==> Valid() && log == old(log) + rs
      ensures !ok ==> exists i :: 0 <= i < |rs| && log == old(log) + rs[..i] && !Compiles(engine, rs[i])
    {
      hide Compiles;
      for i := 0 to |rs|
        invariant Valid() && log == old(log) + rs[..i]
        invariant forall j :: 0 <= j < i ==> Compiles(engine, rs[j])
      {
        ok := Register(rs[i]);
        if !ok {
          return;
        }
        assert rs[..i + 1] == rs[..i] + [rs[i]];
      }
      ok := true;
    }

    // Method names as HTTP has them.
    ghost predicate Plain(verb: string)
      reads this
    {
      ColonFree(log) && Free(verb, ':')
    }

    // The lookup over the maps is the lookup in the list of registrations.
    method GetRoutePermission(path: string, verb: string) returns (r: Option<RoutePermission>)
      requires Valid()
      ensures r == KeyLookup(engine, log, path, verb)
      ensures Plain(verb) ==> r == Lookup(engine, log, path, verb)
      ensures Plain(verb) && PlainPatterns(log, verb) && PlainPatterns(log, "ALL") ==> Answers(log, path, verb, r)
    {
      hide Answers, PlainPatterns, GetRouteKey, TableOf, PatternsOf, LatestKey, ByKey, FindPattern, Lookup;
      TableIsLatestKey(log, GetRouteKey(path, verb));
      TableIsLatestKey(log, GetRouteKey(path, "ALL"));
      KeyTier(engine, log, Upper(verb) + ":", path);
      KeyTier(engine, log, "ALL:", path);
      if Plain(verb) {
        KeyLookupIsLookup(engine, log, path, verb);
        if PlainPatterns(log, verb) && PlainPatterns(log, "ALL") {
          LookupAnswers(engine, log, path, verb);
        }
      }
      var exactKey := GetRouteKey(path, verb);
      if exactKey in routePermissions {
        return Some(routePermissions[exactKey]);
      }
      var matched := MatchPatterns(Upper(verb) + ":", path);
      if matched.Some? {
        return if matched.value in routePermissions then Some(routePermissions[matched.value]) else None;
      }
      var allKey := GetRouteKey(path, "ALL");
      if allKey in routePermissions {
        return Some(routePermissions[allKey]);
      }
      matched := MatchPatterns("ALL:", path);
      if matched.Some? {
        return if matched.value in routePermissions then Some(routePermissions[matched.value]) else None;
      }
      r := None;
    }

    // ---- The questions the guard asks, each by its own lookup ----

    method IsRoutePublic(path: string, verb: string) returns (b: bool)
      requires Valid()
      ensures b == Marked(KeyLookup(engine, log, path, verb), (rule: RouteRule) => rule.isPublic)
    {
      var r := GetRoutePermission(path, verb);
      b := r.Some? && r.value.rule.isPublic;
    }

    method IsAdminRoute(path: string, verb: string) returns (b: bool)
      requires Valid()
      ensures b == Marked(KeyLookup(engine, log, path, verb), (rule: RouteRule) => rule.isAdmin)
    {
      var r := GetRoutePermission(path, verb);
      b := r.Some? && r.value.rule.isAdmin;
    }

    method IsRefreshTokenRoute(path: string, verb: string) returns (b: bool)
      requires Valid()
      ensures b == Marked(KeyLookup(engine, log, path, verb), (rule: RouteRule) => rule.isRefreshToken)
    {
      var r := GetRoutePermission(path, verb);
      b := r.Some? && r.value.rule.isRefreshToken;
    }

    method IsTwoFactorVerifyRoute(path: string, verb: string) returns (b: bool)
      requires Valid()
      ensures b == Marked(KeyLookup(engine, log, path, verb), (rule: RouteRule) => rule.isTwoFactorVerify)
    {
      var r := GetRoutePermission(path, verb);
      b := r.Some? && r.value.rule.isTwoFactorVerify;
    }

    method GetRequiredPermissions(path: string, verb: string) returns (ps: seq<Permission>)
      requires Valid()
      ensures ps == Required(KeyLookup(engine, log, path, verb))
    {
      var r := GetRoutePermission(path, verb);
      if r.None? {
        return [];
      }
      if r.value.rule.permissions.Some? {
        return r.value.rule.permissions.value;
      }
      if r.value.rule.permissionGroup.Some? {
        return GroupPermissions(r.value.rule.permissionGroup.value);
      }
      ps := [];
    }

    method RequiresAllPermissions(path: string, verb: string) returns (b: bool)
      requires Valid()
      ensures b == RequiresAll(KeyLookup(engine, log, path, verb))
    {
      var r := GetRoutePermission(path, verb);
      b := r.None? || r.value.rule.requireAll != Some(false);
    }

    method MatchPatterns(prefix: string, path: string) returns (key: Option<string>)
      ensures key == FindPattern(engine, pathPatterns, prefix, path)
    {
      for i := 0 to |pathPatterns|
        invariant FindPattern(engine, pathPatterns[i..], prefix, path) ==
            FindPattern(engine, pathPatterns, prefix, path)
      {
        assert pathPatterns[i..][1..] == pathPatterns[i + 1..];
        if prefix <= pathPatterns[i].key && EngineTest(engine, pathPatterns[i].regex, path) {
          return Some(pathPatterns[i].key);
        }
      }
      key := None;
    }
  }
}
