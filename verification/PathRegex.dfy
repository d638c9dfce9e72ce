/**
 * Path patterns compiled to regular expressions (route-permissions.registry.ts):
 * the compiler works on text, so the model has the text transformation, a reader for the
 * regular expressions it can produce, and their matching semantics; the compiled
 * expression is proved to mean segment-by-segment matching.
 */
module PathRegex {
  import opened Wrappers
  import opened Strings

  // ---- The text transformation ----

  const GROUP := "([^/]+)"
  const ESCAPED_GROUP := "([^\\/]+)"

  // The longest prefix of s without a slash, and what follows it.
  function TakeSegment(s: string): (r: string)
    ensures r <= s && Free(r, '/')
    ensures |r| == |s| || s[|r|] == '/'
  {
    if s == "" || s[0] == '/' then "" else [s[0]] + TakeSegment(s[1..])
  }

  // A match of /:[^/]+/ starts here.
  predicate StartsParam(s: string) {
    |s| > 1 && s[0] == ':' && s[1] != '/'
  }

  // What follows the longest such match.
  function AfterParam(s: string): (r: string)
    requires StartsParam(s)
    ensures |r| < |s| - 1
  {
    s[1 + |TakeSegment(s[1..])|..]
  }

  // .replace(/:[^/]+/g, '([^/]+)')
  function ReplaceParams(s: string): string {
    if s == "" then ""
    else if StartsParam(s) then GROUP + ReplaceParams(AfterParam(s))
    else [s[0]] + ReplaceParams(s[1..])
  }

  // .replace(/\//g, '\\/')
  function EscapeSlashes(s: string): string {
    if s == "" then "" else EscapeChar(s[0]) + EscapeSlashes(s[1..])
  }

  function EscapeChar(c: char): string {
    if c == '/' then "\\/" else [c]
  }

  function PathToRegex(path: string): string {
    "^" + EscapeSlashes(ReplaceParams(path)) + "$"
  }

  // ---- Regular expressions of that shape ----

  /** One character, any character but a line terminator, or a group of one or more
      characters other than a slash. */
  datatype Item = Lit(c: char) | Dot | Group

  type Regex = seq<Item>

  predicate IsMeta(c: char) {
    c in "\\^$.|?*+()[]{}"
  }

  // Reads the part between the anchors; None outside the subset modelled.
  function ParseItems(s: string): (r: Option<Regex>)
    decreases |s|
  {
    if s == "" then Some([])
    else if ESCAPED_GROUP <= s then
      match ParseItems(s[|ESCAPED_GROUP|..]) case Some(rest) => Some([Group] + rest) case None => None
    else if |s| > 1 && s[0] == '\\' && s[1] == '/' then
      match ParseItems(s[2..]) case Some(rest) => Some([Lit('/')] + rest) case None => None
    else if s[0] == '.' then
      match ParseItems(s[1..]) case Some(rest) => Some([Dot] + rest) case None => None
    else if IsMeta(s[0]) then None
    else
      match ParseItems(s[1..]) case Some(rest) => Some([Lit(s[0])] + rest) case None => None
  }

  function Parse(text: string): Option<Regex> {
    if |text| >= 2 && text[0] == '^' && text[|text| - 1] == '$' then ParseItems(text[1..|text| - 1]) else None
  }

  predicate IsLineTerminator(c: char) {
    c == '\n' || c == '\r' || c == '\U{2028}' || c == '\U{2029}'
  }

  // The anchored expression accepts the whole of s.
  predicate Accepts(re: Regex, s: string) {
    if re == [] then s == ""
    else
      match re[0]
      case Lit(c) => s != "" && s[0] == c && Accepts(re[1..], s[1..])
      case Dot => s != "" && !IsLineTerminator(s[0]) && Accepts(re[1..], s[1..])
      case Group => exists k :: 0 < k <= |s| && Free(s[..k], '/') && Accepts(re[1..], s[k..])
  }

  // RegExp.prototype.test for an expression given by its text.
  predicate TestText(text: string, path: string) {
    var re := Parse(text);
    re.Some? && Accepts(re.value, path)
  }

  /** The host's regular-expression engine beyond the expressions read here: which texts it
      compiles, and what those that Parse does not read accept. */
  datatype Engine = Engine(compiles: string -> bool, beyond: (string, string) -> bool)

  predicate EngineTest(engine: Engine, text: string, path: string) {
    if Parse(text).Some? then TestText(text, path) else engine.beyond(text, path)
  }

  // The expression compiled from `pattern` accepts `path`.
  predicate Test(pattern: string, path: string) {
    TestText(PathToRegex(pattern), path)
  }

  // ---- The specification: segment by segment ----

  // Where the parameter of a segment starts: the first colon with something after it.
  function ParamStart(segment: string): (i: nat)
    ensures i <= |segment|
    ensures i < |segment| ==> segment[i] == ':' && i + 1 < |segment|
    ensures forall j :: 0 <= j < i && j + 1 < |segment| ==> segment[j] != ':'
  {
    if segment == "" || (segment[0] == ':' && |segment| > 1) then 0 else 1 + ParamStart(segment[1..])
  }

  // The text before the parameter matches literally and at least one character follows it;
  // without a parameter the texts are equal.
  predicate SegmentMatches(pattern: string, segment: string) {
    var i := ParamStart(pattern);
    if i < |pattern| then |segment| > i && segment[..i] == pattern[..i] else segment == pattern
  }

  predicate PathMatches(pattern: string, path: string) {
    SegmentsMatch(Split(pattern, '/'), Split(path, '/'))
  }

  predicate SegmentsMatch(ps: seq<string>, ss: seq<string>) {
    |ps| == |ss| && forall i :: 0 <= i < |ps| ==> SegmentMatches(ps[i], ss[i])
  }

  // The characters of a pattern that are not part of a parameter.
  function LiteralPart(pattern: string): string {
    if pattern == "" then ""
    else if StartsParam(pattern) then LiteralPart(AfterParam(pattern))
    else [pattern[0]] + LiteralPart(pattern[1..])
  }

  // ---- The specification, one pattern character at a time ----

  lemma SegmentsMatchHead(p: string, ps: seq<string>, q: string, qs: seq<string>)
    ensures SegmentsMatch([p] + ps, [q] + qs) <==> SegmentMatches(p, q) && SegmentsMatch(ps, qs)
  {
    hide SegmentMatches;
    if SegmentsMatch([p] + ps, [q] + qs) {
      assert [p][0] == ([p] + ps)[0] && [q][0] == ([q] + qs)[0];
      assert forall i :: 0 <= i < |ps| ==> ([p] + ps)[i + 1] == ps[i] && ([q] + qs)[i + 1] == qs[i];
    }
  }

  lemma {:induction false} SplitTake(s: string)
    ensures var t := TakeSegment(s);
            var rest := Split(s[|t|..], '/');
            rest[0] == "" && Split(s, '/') == [t] + rest[1..]
  {
    if s != "" && s[0] != '/' {
      SplitTake(s[1..]);
      assert s[|TakeSegment(s)|..] == s[1..][|TakeSegment(s[1..])|..];
    }
  }

  lemma MatchesEmpty(path: string)
    ensures PathMatches("", path) <==> path == ""
  {
    SplitTake(path);
    if PathMatches("", path) {
      assert SegmentMatches("", Split(path, '/')[0]);
      JoinSplit(path, '/');
    }
  }

  lemma MatchesSlash(pattern: string, path: string)
    requires pattern != "" && pattern[0] == '/'
    ensures PathMatches(pattern, path) <==> path != "" && path[0] == '/' && PathMatches(pattern[1..], path[1..])
  {
    var ps, ss := Split(pattern, '/'), Split(path, '/');
    assert ps == [""] + Split(pattern[1..], '/');
    SplitTake(path);
    SegmentsMatchHead("", ps[1..], ss[0], ss[1..]);
    if path != "" && path[0] == '/' {
      assert ss == [""] + Split(path[1..], '/');
    }
  }

  lemma SegmentMatchesLiteral(c: char, pattern: string, segment: string)
    requires c != ':' || pattern == ""
    ensures SegmentMatches([c] + pattern, segment) <==>
            segment != "" && segment[0] == c && SegmentMatches(pattern, segment[1..])
  {
    var p := [c] + pattern;
    assert p[1..] == pattern;
    var i := ParamStart(pattern);
    assert ParamStart(p) == 1 + i;
    if segment != "" {
      assert segment == [segment[0]] + segment[1..];
      if |segment| > 1 + i {
        assert segment[..1 + i] == [segment[0]] + segment[1..][..i] && p[..1 + i] == [c] + pattern[..i];
      }
    }
  }

  lemma MatchesLiteral(pattern: string, path: string)
    requires pattern != "" && pattern[0] != '/' && !StartsParam(pattern)
    ensures PathMatches(pattern, path) <==>
            path != "" && path[0] == pattern[0] && PathMatches(pattern[1..], path[1..])
  {
    var c := pattern[0];
    var ps, ss := Split(pattern, '/'), Split(path, '/');
    var ps' := Split(pattern[1..], '/');
    assert ps == [[c] + ps'[0]] + ps'[1..] && ps' == [ps'[0]] + ps'[1..];
    SegmentMatchesLiteral(c, ps'[0], ss[0]);
    SegmentsMatchHead(ps[0], ps[1..], ss[0], ss[1..]);
    if path != "" && path[0] != '/' {
      var ss' := Split(path[1..], '/');
      SegmentsMatchHead(ps'[0], ps'[1..], ss'[0], ss'[1..]);
      assert ss' == [ss'[0]] + ss'[1..] && ss[0][1..] == ss'[0];
    } else {
      SplitTake(path);
    }
  }

  lemma MatchesParam(pattern: string, path: string)
    requires StartsParam(pattern)
    ensures PathMatches(pattern, path) <==>
            TakeSegment(path) != "" && PathMatches(AfterParam(pattern), path[|TakeSegment(path)|..])
  {
    var ps, ss := Split(pattern, '/'), Split(path, '/');
    var rest, rest' := Split(AfterParam(pattern), '/'), Split(path[|TakeSegment(path)|..], '/');
    SplitTake(pattern[1..]);
    SplitTake(path);
    assert ps == [[':'] + TakeSegment(pattern[1..])] + rest[1..];
    assert ParamStart(ps[0]) == 0;
    SegmentsMatchHead(ps[0], ps[1..], ss[0], ss[1..]);
    assert rest == [""] + rest[1..] && rest' == [""] + rest'[1..];
    SegmentsMatchHead("", rest[1..], "", rest'[1..]);
  }

  // ---- The compiled expression ----

  function Compile(pattern: string): Regex {
    if pattern == "" then []
    else if StartsParam(pattern) then [Group] + Compile(AfterParam(pattern))
    else [if pattern[0] == '.' then Dot else Lit(pattern[0])] + Compile(pattern[1..])
  }

  // The only metacharacter in the literal part, if any, is the dot.
  predicate OnlyDots(s: string) {
    forall i :: 0 <= i < |s| && IsMeta(s[i]) ==> s[i] == '.'
  }

  lemma {:induction false} EscapeAppend(a: string, b: string)
    ensures EscapeSlashes(a + b) == EscapeSlashes(a) + EscapeSlashes(b)
  {
    hide EscapeChar;
    if a == "" {
      assert a + b == b;
    } else {
      EscapeAppend(a[1..], b);
      assert EscapeSlashes(a + b) == EscapeChar(a[0]) + EscapeSlashes(a[1..] + b) by {
        assert (a + b)[0] == a[0] && (a + b)[1..] == a[1..] + b;
      }
    }
  }

  lemma {:induction false} EscapeNothing(s: string)
    requires Free(s, '/')
    ensures EscapeSlashes(s) == s
  {
    if s != "" {
      assert s == [s[0]] + s[1..] && s[0] != '/' && Free(s[1..], '/');
      EscapeNothing(s[1..]);
    }
  }

  lemma EscapeGroup()
    ensures EscapeSlashes(GROUP) == ESCAPED_GROUP
  {
    hide EscapeSlashes;
    var before, after := "([^", "]+)";
    assert Free(before, '/') && Free(after, '/');
    EscapeNothing(before);
    EscapeNothing(after);
    EscapeAppend(before, "/" + after);
    EscapeAppend("/", after);
    EscapeOneSlash();
    assert before + ("/" + after) == GROUP;
  }

  lemma EscapeOneSlash()
    ensures EscapeSlashes("/") == "\\/"
  {
    assert "/"[1..] == "";
  }

  lemma ParseSlash(rest: string)
    ensures ParseItems("\\/" + rest) == match ParseItems(rest) case Some(r) => Some([Lit('/')] + r) case None => None
  {
    var s := "\\/" + rest;
    assert s[0] == '\\' && s[1] == '/' && s[2..] == rest;
    assert ESCAPED_GROUP[0] == '(';
  }

  lemma {:induction false} ParseCompile(pattern: string)
    requires OnlyDots(LiteralPart(pattern))
    ensures ParseItems(EscapeSlashes(ReplaceParams(pattern))) == Some(Compile(pattern))
    decreases |pattern|
  {
    if pattern == "" {
    } else if StartsParam(pattern) {
      var tail := ReplaceParams(AfterParam(pattern));
      ParseCompile(AfterParam(pattern));
      EscapeAppend(GROUP, tail);
      EscapeGroup();
      var text := ESCAPED_GROUP + EscapeSlashes(tail);
      assert text[|ESCAPED_GROUP|..] == EscapeSlashes(tail);
    } else {
      var tail := ReplaceParams(pattern[1..]);
      var lit := LiteralPart(pattern);
      assert lit[0] == pattern[0] && lit[1..] == LiteralPart(pattern[1..]);
      ParseCompile(pattern[1..]);
      assert ([pattern[0]] + tail)[1..] == tail;
      var text := EscapeSlashes(ReplaceParams(pattern));
      if pattern[0] == '/' {
        assert text == "\\/" + EscapeSlashes(tail);
        ParseSlash(EscapeSlashes(tail));
      } else {
        assert text == [pattern[0]] + EscapeSlashes(tail) && text[1..] == EscapeSlashes(tail);
      }
    }
  }

  // A group can only take the whole of the path's segment.
  lemma GroupTakesSegment(pattern: string, path: string, k: nat)
    requires pattern == "" || pattern[0] == '/'
    requires 0 < k <= |path| && Free(path[..k], '/') && PathMatches(pattern, path[k..])
    ensures k == |TakeSegment(path)|
  {
    if pattern == "" {
      MatchesEmpty(path[k..]);
    } else {
      MatchesSlash(pattern, path[k..]);
    }
    assert path[k..] == "" || path[k..][0] == path[k];
  }

  lemma {:induction false} AcceptsIsPathMatches(pattern: string, path: string)
    requires '.' !in LiteralPart(pattern)
    ensures Accepts(Compile(pattern), path) <==> PathMatches(pattern, path)
    decreases |pattern|
  {
    if pattern == "" {
      MatchesEmpty(path);
    } else if StartsParam(pattern) {
      MatchesParam(pattern, path);
      var rest, t := AfterParam(pattern), TakeSegment(path);
      forall k | 0 < k <= |path| ensures Accepts(Compile(rest), path[k..]) <==> PathMatches(rest, path[k..]) {
        AcceptsIsPathMatches(rest, path[k..]);
      }
      forall k: nat | 0 < k <= |path| && Free(path[..k], '/') && PathMatches(rest, path[k..]) ensures k == |t| {
        GroupTakesSegment(rest, path, k);
      }
      assert path[..|t|] == t;
    } else {
      var lit := LiteralPart(pattern);
      assert lit == [pattern[0]] + LiteralPart(pattern[1..]);
      if pattern[0] == '/' {
        MatchesSlash(pattern, path);
      } else {
        MatchesLiteral(pattern, path);
      }
      if path != "" {
        AcceptsIsPathMatches(pattern[1..], path[1..]);
      }
    }
  }

  // A path the expression accepts: 'x' for every parameter and every dot.
  function Fill(pattern: string): string {
    if pattern == "" then ""
    else if StartsParam(pattern) then "x" + Fill(AfterParam(pattern))
    else [if pattern[0] == '.' then 'x' else pattern[0]] + Fill(pattern[1..])
  }

  lemma {:induction false} FillAccepted(pattern: string)
    ensures Accepts(Compile(pattern), Fill(pattern))
    ensures PathMatches(pattern, Fill(pattern)) ==> '.' !in LiteralPart(pattern)
    decreases |pattern|
  {
    var path := Fill(pattern);
    if pattern == "" {
    } else if StartsParam(pattern) {
      var rest := AfterParam(pattern);
      FillAccepted(rest);
      assert path[1..] == Fill(rest) && path[..1] == "x";
      MatchesParam(pattern, path);
      assert rest == "" || rest[0] == '/';
      assert TakeSegment(path) == "x";
    } else {
      FillAccepted(pattern[1..]);
      assert path[1..] == Fill(pattern[1..]);
      if pattern[0] == '/' {
        MatchesSlash(pattern, path);
      } else {
        MatchesLiteral(pattern, path);
      }
    }
  }

  lemma TestIsAccepts(pattern: string, path: string)
    requires OnlyDots(LiteralPart(pattern))
    ensures Test(pattern, path) <==> Accepts(Compile(pattern), path)
  {
    ParseCompile(pattern);
    var text := PathToRegex(pattern);
    assert text[1..|text| - 1] == EscapeSlashes(ReplaceParams(pattern));
  }

  // Compiling preserves meaning: for a pattern whose literal part has no metacharacter the
  // compiled expression accepts exactly the paths that match segment by segment.
  lemma CompilePreservesMeaning(pattern: string, path: string)
    requires OnlyDots(LiteralPart(pattern)) && '.' !in LiteralPart(pattern)
    ensures Test(pattern, path) <==> PathMatches(pattern, path)
  {
    TestIsAccepts(pattern, path);
    AcceptsIsPathMatches(pattern, path);
  }

  // Dots are not escaped, so when a dot is the only metacharacter a literal part may hold,
  // compilation is faithful exactly when there is none.
  lemma FaithfulIffNoDot(pattern: string)
    requires OnlyDots(LiteralPart(pattern))
    ensures (forall path :: Test(pattern, path) <==> PathMatches(pattern, path)) <==> '.' !in LiteralPart(pattern)
  {
    if '.' in LiteralPart(pattern) {
      FillAccepted(pattern);
      TestIsAccepts(pattern, Fill(pattern));
    } else {
      forall path ensures Test(pattern, path) <==> PathMatches(pattern, path) {
        CompilePreservesMeaning(pattern, path);
      }
    }
  }

  // So whatever the engine does beyond the expressions read here.
  lemma EngineMatches(engine: Engine, pattern: string, path: string)
    requires OnlyDots(LiteralPart(pattern)) && '.' !in LiteralPart(pattern)
    ensures EngineTest(engine, PathToRegex(pattern), path) <==> PathMatches(pattern, path)
  {
    ParseCompile(pattern);
    var text := PathToRegex(pattern);
    assert text[1..|text| - 1] == EscapeSlashes(ReplaceParams(pattern));
    CompilePreservesMeaning(pattern, path);
  }
}
