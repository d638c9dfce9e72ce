/**
 * Slugs (slug-generator.util.ts) and their upkeep in a user row
 * (user.repository.ts): a printer, its parser, and an update rule that keeps the
 * printed form in step with the names.
 */
module Slug {
  import opened Wrappers
  import opened Strings

  // ---- normalize ----

  predicate IsAlnum(c: char) {
    'a' <= c <= 'z' || '0' <= c <= '9'
  }

  predicate SlugChars(s: string) {
    forall i :: 0 <= i < |s| ==> IsAlnum(s[i]) || s[i] == '-'
  }

  // All that is assumed of toLowerCase: it leaves [a-z0-9-] alone.
  ghost predicate FixesSlugChars(lower: string -> string) {
    forall s :: SlugChars(s) ==> lower(s) == s
  }

  type LowerCase = f: string -> string | FixesSlugChars(f) ghost witness (s: string) => s

  function DropOthers(s: string): (r: string)
    ensures |r| <= |s| && (r == "" || IsAlnum(r[0]))
  {
    if s == "" || IsAlnum(s[0]) then s else DropOthers(s[1..])
  }

  // .replace(/[^a-z0-9]+/g, '-')
  function CollapseOthers(s: string): string
    decreases |s|
  {
    if s == "" then ""
    else if IsAlnum(s[0]) then [s[0]] + CollapseOthers(s[1..])
    else "-" + CollapseOthers(DropOthers(s[1..]))
  }

  function DropLeadingDashes(s: string): (r: string)
    ensures |r| <= |s|
  {
    if s != "" && s[0] == '-' then DropLeadingDashes(s[1..]) else s
  }

  function DropTrailingDashes(s: string): string {
    if s != "" && s[|s| - 1] == '-' then DropTrailingDashes(s[..|s| - 1]) else s
  }

  // .replace(/^-+|-+$/g, '')
  function TrimDashes(s: string): string {
    DropTrailingDashes(DropLeadingDashes(s))
  }

  // .replace(/-+/g, '-')
  function SqueezeDashes(s: string): string
    decreases |s|
  {
    if s == "" then ""
    else if s[0] != '-' then [s[0]] + SqueezeDashes(s[1..])
    else "-" + SqueezeDashes(DropLeadingDashes(s[1..]))
  }

  function Normalize(lower: LowerCase, value: string): string {
    SqueezeDashes(TrimDashes(CollapseOthers(lower(value))))
  }

  // The maximal runs of [a-z0-9] in s, left to right.
  function Runs(s: string): (runs: seq<string>)
    ensures s != "" && IsAlnum(s[0]) ==> |runs| > 0
    ensures forall i :: 0 <= i < |runs| ==> Word(runs[i])
  {
    if s == "" then []
    else
      var rest := Runs(s[1..]);
      if !IsAlnum(s[0]) then rest
      else if |s| == 1 || !IsAlnum(s[1]) then [[s[0]]] + rest
      else Extend(s[0], rest)
  }

  // What the runs are: nothing in nothing, a non-empty text of [a-z0-9] is one run, and any other
  // character ends the run before it.
  lemma {:induction false} RunsOfWord(w: string)
    requires forall i :: 0 <= i < |w| ==> 'a' <= w[i] <= 'z' || '0' <= w[i] <= '9'
    ensures Runs(w) == if w == "" then [] else [w]
  {
    if w != "" {
      var rest := w[1..];
      RunsOfWord(rest);
      assert w == [w[0]] + rest;
      if |w| == 1 {
        assert Runs(rest) == [] && [w[0]] == w;
      } else {
        assert IsAlnum(w[1]) && Runs(w) == Extend(w[0], [rest]);
      }
    }
  }

  lemma ExtendAppend(c: char, x: seq<string>, y: seq<string>)
    requires |x| > 0
    ensures Extend(c, x + y) == Extend(c, x) + y
  {
    assert (x + y)[1..] == x[1..] + y;
  }

  lemma {:induction false} RunsSplit(a: string, c: char, b: string)
    requires !('a' <= c <= 'z' || '0' <= c <= '9')
    ensures Runs(a + [c] + b) == Runs(a) + Runs(b)
  {
    hide Extend, Word;
    var s := a + [c] + b;
    if a == "" {
      assert s[0] == c && s[1..] == b;
    } else {
      var tail := a[1..] + [c] + b;
      assert s[1..] == tail && s[0] == a[0] && s[1] == tail[0];
      RunsSplit(a[1..], c, b);
      if IsAlnum(a[0]) && |a| > 1 && IsAlnum(a[1]) {
        assert a[1..][0] == a[1];
        ExtendAppend(a[0], Runs(a[1..]), Runs(b));
      } else if IsAlnum(a[0]) {
        assert [[a[0]]] + (Runs(a[1..]) + Runs(b)) == ([[a[0]]] + Runs(a[1..])) + Runs(b);
      }
    }
  }

  predicate Word(s: string) {
    s != "" && forall i :: 0 <= i < |s| ==> IsAlnum(s[i])
  }

  // Empty, or runs of [a-z0-9] joined by single dashes with none at the ends.
  predicate Canonical(s: string) {
    && SlugChars(s)
    && (s != "" ==> s[0] != '-' && s[|s| - 1] != '-')
    && NoDoubleDash(s)
  }

  predicate NoDoubleDash(s: string) {
    forall i :: 0 <= i < |s| - 1 ==> !(s[i] == '-' && s[i + 1] == '-')
  }

  lemma {:induction false} DropTrailingAppend(a: string, b: string)
    requires DropTrailingDashes(b) != ""
    ensures DropTrailingDashes(a + b) == a + DropTrailingDashes(b)
    decreases |b|
  {
    if b != "" && b[|b| - 1] == '-' {
      assert (a + b)[..|a + b| - 1] == a + b[..|b| - 1];
      DropTrailingAppend(a, b[..|b| - 1]);
    }
  }

  lemma {:induction false} RunsDropOthers(s: string)
    ensures Runs(s) == Runs(DropOthers(s))
  {
    if s != "" && !IsAlnum(s[0]) {
      RunsDropOthers(s[1..]);
    }
  }

  // A run of one character followed by others: what both functions do with it.
  lemma RunEnds(s: string)
    requires |s| > 1 && IsAlnum(s[0]) && !IsAlnum(s[1])
    ensures Runs(s) == [[s[0]]] + Runs(DropOthers(s[2..]))
    ensures CollapseOthers(s) == [s[0], '-'] + CollapseOthers(DropOthers(s[2..]))
  {
    assert s[1..][0] == s[1] && s[1..][1..] == s[2..];
    RunsDropOthers(s[2..]);
    assert CollapseOthers(s[1..]) == "-" + CollapseOthers(DropOthers(s[2..]));
  }

  // Collapsing then trimming the tail of s joins its runs.
  predicate Joins(s: string) {
    DropTrailingDashes(CollapseOthers(s)) == Join(Runs(s), '-') != ""
  }

  lemma RunContinues(s: string)
    requires |s| > 1 && IsAlnum(s[0]) && IsAlnum(s[1]) && Joins(s[1..])
    ensures Joins(s)
  {
    DropTrailingAppend([s[0]], CollapseOthers(s[1..]));
  }

  lemma RunIsFollowed(s: string)
    requires |s| > 1 && IsAlnum(s[0]) && !IsAlnum(s[1])
    requires DropOthers(s[2..]) != "" ==> Joins(DropOthers(s[2..]))
    ensures Joins(s)
  {
    var next := DropOthers(s[2..]);
    RunEnds(s);
    assert [s[0], '-'][..1] == [s[0]];
    if next != "" {
      DropTrailingAppend([s[0], '-'], CollapseOthers(next));
      assert ([[s[0]]] + Runs(next))[1..] == Runs(next);
    }
  }

  lemma {:induction false} CollapseJoins(s: string)
    requires s != "" && IsAlnum(s[0])
    ensures Joins(s)
    decreases |s|
  {
    if |s| == 1 {
      assert s[1..] == "" && CollapseOthers(s) == [s[0]];
      assert Runs(s) == [[s[0]]] && s == [s[0]];
    } else {
      hide *;
      if IsAlnum(s[1]) {
        CollapseJoins(s[1..]);
        RunContinues(s);
      } else {
        if DropOthers(s[2..]) != "" {
          CollapseJoins(DropOthers(s[2..]));
        }
        RunIsFollowed(s);
      }
    }
  }

  lemma TrimmedIsJoin(s: string)
    ensures TrimDashes(CollapseOthers(s)) == Join(Runs(s), '-')
  {
    if s != "" {
      if IsAlnum(s[0]) {
        CollapseJoins(s);
      } else {
        var next := DropOthers(s[1..]);
        RunsDropOthers(s[1..]);
        assert CollapseOthers(s)[1..] == CollapseOthers(next);
        if next != "" {
          CollapseJoins(next);
        }
      }
    }
  }

  lemma {:induction false} JoinCanonical(words: seq<string>)
    requires forall i :: 0 <= i < |words| ==> Word(words[i])
    ensures Canonical(Join(words, '-'))
    ensures |words| > 0 ==> Join(words, '-') != "" && Join(words, '-')[0] == words[0][0]
  {
    if |words| > 1 {
      JoinCanonical(words[1..]);
      var rest := Join(words[1..], '-');
      var s := Join(words, '-');
      assert s == words[0] + ("-" + rest);
      assert rest[0] != '-';
    }
  }

  lemma {:induction false} SqueezeIsIdentity(s: string)
    requires NoDoubleDash(s)
    ensures SqueezeDashes(s) == s
  {
    if s != "" {
      SqueezeIsIdentity(s[1..]);
      assert DropLeadingDashes(s[1..]) == s[1..] || s[0] != '-';
    }
  }

  // normalize joins the maximal alphanumeric runs of the lower-cased value by single dashes;
  // its last pass never changes anything.
  lemma NormalizeJoinsRuns(lower: LowerCase, value: string)
    ensures Normalize(lower, value) == Join(Runs(lower(value)), '-')
    ensures Normalize(lower, value) == TrimDashes(CollapseOthers(lower(value)))
    ensures Canonical(Normalize(lower, value))
  {
    TrimmedIsJoin(lower(value));
    JoinCanonical(Runs(lower(value)));
    SqueezeIsIdentity(Join(Runs(lower(value)), '-'));
  }

  lemma {:induction false} CanonicalIsItsRuns(s: string)
    requires SlugChars(s) && NoDoubleDash(s) && (s != "" ==> s[|s| - 1] != '-')
    ensures Join(Runs(s), '-') == if s != "" && s[0] == '-' then s[1..] else s
  {
    if s != "" {
      CanonicalIsItsRuns(s[1..]);
      hide Extend;
      if IsAlnum(s[0]) && |s| > 1 && IsAlnum(s[1]) {
        JoinExtend(s[0], Runs(s[1..]), '-');
      } else if IsAlnum(s[0]) && |s| > 1 {
        assert s[1] == '-' && |s| > 2 && IsAlnum(s[2]) && s[1..][1..] == s[2..];
        assert Runs(s[1..]) == Runs(s[2..]) && |Runs(s[2..])| > 0;
        assert ([[s[0]]] + Runs(s[1..]))[1..] == Runs(s[1..]);
      }
    }
  }

  // The canonical strings are exactly the ones normalize leaves alone; so it is idempotent.
  lemma NormalizeFixesCanonical(lower: LowerCase, value: string)
    ensures Canonical(value) <==> Normalize(lower, value) == value
    ensures Normalize(lower, Normalize(lower, value)) == Normalize(lower, value)
  {
    NormalizeJoinsRuns(lower, value);
    NormalizeJoinsRuns(lower, Normalize(lower, value));
    CanonicalIsItsRuns(Normalize(lower, value));
    if Canonical(value) {
      CanonicalIsItsRuns(value);
    }
  }

  // ---- generateUserSlug and parseSlugId ----

  // The characters String.prototype.trim removes.
  predicate IsSpace(c: char) {
    '\t' <= c <= '\r' || c == ' ' || c == '\U{A0}' || c == '\U{1680}' || '\U{2000}' <= c <= '\U{200A}' ||
    c == '\U{2028}' || c == '\U{2029}' || c == '\U{202F}' || c == '\U{205F}' || c == '\U{3000}' || c == '\U{FEFF}'
  }

  // `name?.trim()` is truthy.
  predicate Present(name: Option<string>) {
    name.Some? && exists i :: 0 <= i < |name.value| && !IsSpace(name.value[i])
  }

  // A name counts when it holds a character that is not white space.
  lemma PresentMeansNotBlank(name: Option<string>)
    ensures Present(name) <==>
            name.Some? && exists c <- name.value ::
                            c !in "\t\n\U{0B}\U{0C}\r \U{A0}\U{1680}\U{2000}\U{2001}\U{2002}\U{2003}\U{2004}" &&
                            c !in "\U{2005}\U{2006}\U{2007}\U{2008}\U{2009}\U{200A}\U{2028}\U{2029}\U{202F}" &&
                            c !in "\U{205F}\U{3000}\U{FEFF}"
  {
    forall c: char ensures IsSpace(c) <==>
      c in "\t\n\U{0B}\U{0C}\r \U{A0}\U{1680}\U{2000}\U{2001}\U{2002}\U{2003}\U{2004}" ||
      c in "\U{2005}\U{2006}\U{2007}\U{2008}\U{2009}\U{200A}\U{2028}\U{2029}\U{202F}" ||
      c in "\U{205F}\U{3000}\U{FEFF}"
    {
    }
    hide IsSpace;
  }

  datatype Names = Names(firstName: Option<string>, lastName: Option<string>, companyName: Option<string>)

  function Components(lower: LowerCase, names: Names): (parts: seq<string>)
    ensures |parts| > 0
  {
    var parts :=
      if Present(names.companyName) then [Normalize(lower, names.companyName.value)]
      else (if Present(names.firstName) then [Normalize(lower, names.firstName.value)] else []) +
           (if Present(names.lastName) then [Normalize(lower, names.lastName.value)] else []);
    if parts == [] then ["user"] else parts
  }

  function SlugText(lower: LowerCase, names: Names, slugId: string): string {
    Join(Components(lower, names) + [slugId], '-')
  }

  // The printed text: the company's name, or the first name before the last, or 'user', and then
  // the id.
  lemma PrintedText(lower: LowerCase, names: Names, slugId: string)
    ensures SlugText(lower, names, slugId) ==
            if Present(names.companyName) then Normalize(lower, names.companyName.value) + "-" + slugId
            else if Present(names.firstName) && Present(names.lastName) then
              Normalize(lower, names.firstName.value) + "-" + Normalize(lower, names.lastName.value) + "-" + slugId
            else if Present(names.firstName) then Normalize(lower, names.firstName.value) + "-" + slugId
            else if Present(names.lastName) then Normalize(lower, names.lastName.value) + "-" + slugId
            else "user-" + slugId
  {
    hide Normalize, Present;
    var parts := Components(lower, names);
    JoinAppend(parts, slugId, '-');
    if |parts| == 2 {
      assert parts[1..] == [parts[1]];
    }
    assert "user" + "-" == "user-";
  }

  predicate IsIdChar(c: char) {
    'a' <= c <= 'z' || 'A' <= c <= 'Z' || '0' <= c <= '9' || c == '_' || c == '-'
  }

  predicate IdChars(s: string) {
    forall i :: 0 <= i < |s| ==> IsIdChar(s[i])
  }

  function ParseSlugId(slug: string): Option<string> {
    if slug == "" then None
    else
      var parts := Split(slug, '-');
      var slugId := parts[|parts| - 1];
      if slugId != "" && IdChars(slugId) && |slugId| >= 10 then Some(slugId) else None
  }

  predicate WellFormedId(slugId: string) {
    |slugId| >= 10 && IdChars(slugId) && Free(slugId, '-')
  }

  lemma {:induction false} LastPartIsWhole(s: string, sep: char)
    ensures var parts := Split(s, sep);
            parts[|parts| - 1] == s <==> Free(s, sep)
  {
    if Free(s, sep) {
      SplitFree(s, sep);
    } else {
      JoinSplit(s, sep);
    }
  }

  // What the parser reads from any text: the well-formed id after the last dash, or the whole of a
  // text that is one; from every other text nothing.
  lemma ParsesExactly(slug: string, slugId: string)
    ensures ParseSlugId(slug) == Some(slugId) <==>
            WellFormedId(slugId) && (slug == slugId || exists before :: slug == before + "-" + slugId)
  {
    var parts := Split(slug, '-');
    var n := |parts| - 1;
    JoinSplit(slug, '-');
    assert parts == parts[..n] + [parts[n]];
    if n > 0 {
      JoinAppend(parts[..n], parts[n], '-');
      assert slug == Join(parts[..n], '-') + "-" + parts[n];
    }
    if Free(slugId, '-') {
      SplitFree(slugId, '-');
      forall before | slug == before + "-" + slugId ensures parts[n] == slugId {
        SplitAppend(before, slugId, '-');
      }
    }
  }

  lemma LastPartOfSlug(lower: LowerCase, names: Names, slugId: string)
    ensures var parts := Split(SlugText(lower, names, slugId), '-');
            var own := Split(slugId, '-');
            parts[|parts| - 1] == own[|own| - 1]
  {
    JoinAppend(Components(lower, names), slugId, '-');
    SplitAppend(Join(Components(lower, names), '-'), slugId, '-');
  }

  // Print then parse: the id is recovered from a generated slug, whatever the names,
  // exactly when it is at least ten characters of [A-Za-z0-9_].
  lemma SlugRoundTrip(lower: LowerCase, names: Names, slugId: string)
    ensures ParseSlugId(SlugText(lower, names, slugId)) == Some(slugId) <==> WellFormedId(slugId)
    ensures WellFormedId(slugId) <==>
              |slugId| >= 10 && forall i :: 0 <= i < |slugId| ==>
                'a' <= slugId[i] <= 'z' || 'A' <= slugId[i] <= 'Z' || '0' <= slugId[i] <= '9' || slugId[i] == '_'
  {
    LastPartOfSlug(lower, names, slugId);
    LastPartIsWhole(slugId, '-');
    JoinAppend(Components(lower, names), slugId, '-');
  }

  // So users with different ids never share a slug, even with equal names.
  lemma DistinctIdsDistinctSlugs(lower: LowerCase, n: Names, n': Names, id: string, id': string)
    requires WellFormedId(id) && WellFormedId(id') && id != id'
    ensures SlugText(lower, n, id) != SlugText(lower, n', id')
  {
    SlugRoundTrip(lower, n, id);
    SlugRoundTrip(lower, n', id');
  }

  function DashesToUnderscores(s: string): (r: string)
    ensures |r| == |s|
    ensures forall i :: 0 <= i < |s| ==> r[i] == if s[i] == '-' then '_' else s[i]
  {
    seq(|s|, i requires 0 <= i < |s| => if s[i] == '-' then '_' else s[i])
  }

  // All that is assumed of nanoid(15).
  predicate NanoId(s: string) {
    |s| == 15 && IdChars(s)
  }

  function SlugIdFor(existing: Option<string>, nano: string): string {
    if existing.Some? && existing.value != "" then existing.value else DashesToUnderscores(nano)
  }

  lemma FreshIdWellFormed(nano: string)
    requires NanoId(nano)
    ensures WellFormedId(DashesToUnderscores(nano))
  {
    var id := DashesToUnderscores(nano);
    assert forall i :: 0 <= i < |id| ==> IsIdChar(id[i]) && id[i] != '-';
  }

  /** `SlugGenerator.generateUserSlug`, pushing onto a local list of components. */
  method GenerateUserSlug(lower: LowerCase, names: Names, existingSlugId: Option<string>, nano: string)
    returns (slug: string, slugId: string)
    requires NanoId(nano)
    ensures if existingSlugId.Some? && existingSlugId.value != "" then slugId == existingSlugId.value
            else |slugId| == |nano| &&
                 forall i :: 0 <= i < |nano| ==> slugId[i] == if nano[i] == '-' then '_' else nano[i]
    ensures slugId == SlugIdFor(existingSlugId, nano)
    ensures slug == SlugText(lower, names, slugId)
    ensures slug ==
            if Present(names.companyName) then Normalize(lower, names.companyName.value) + "-" + slugId
            else if Present(names.firstName) && Present(names.lastName) then
              Normalize(lower, names.firstName.value) + "-" + Normalize(lower, names.lastName.value) + "-" + slugId
            else if Present(names.firstName) then Normalize(lower, names.firstName.value) + "-" + slugId
            else if Present(names.lastName) then Normalize(lower, names.lastName.value) + "-" + slugId
            else "user-" + slugId
    ensures (existingSlugId.Some? && existingSlugId.value != "" ==> WellFormedId(existingSlugId.value)) ==>
              ParseSlugId(slug) == Some(slugId)
  {
    slugId := if existingSlugId.Some? &&
        existingSlugId.value != "" then existingSlugId.value else DashesToUnderscores(nano);
    var components: seq<string> := [];
    if Present(names.companyName) {
      components := components + [Normalize(lower, names.companyName.value)];
    } else {
      if Present(names.firstName) {
        components := components + [Normalize(lower, names.firstName.value)];
      }
      if Present(names.lastName) {
        components := components + [Normalize(lower, names.lastName.value)];
      }
    }
    if |components| == 0 {
      components := components + ["user"];
    }
    assert components == Components(lower, names);
    components := components + [slugId];
    slug := Join(components, '-');
    FreshIdWellFormed(nano);
    SlugRoundTrip(lower, names, slugId);
    PrintedText(lower, names, slugId);
    hide Normalize, Present, SlugText, Components;
  }

  // ---- The slug columns of a user row under UserRepository.update ----

  datatype Profile = Profile(names: Names, slug: Option<string>, slugId: Option<string>)

  /** The name and slug fields of an update: absent, or set to null or a value. */
  datatype ProfileUpdate = ProfileUpdate(
    firstName: Option<Option<string>>, lastName: Option<Option<string>>, companyName: Option<Option<string>>,
    slug: Option<Option<string>>, slugId: Option<Option<string>>)

  const NO_PROFILE_CHANGE := ProfileUpdate(None, None, None, None, None)

  predicate ShouldRegenerateSlug(u: ProfileUpdate) {
    u.firstName.Some? || u.lastName.Some? || u.companyName.Some?
  }

  function MergeNames(names: Names, u: ProfileUpdate): Names {
    Names(u.firstName.GetOr(names.firstName), u.lastName.GetOr(names.lastName), u.companyName.GetOr(names.companyName))
  }

  // The generated slug, when there is one, overrides slug fields set by the update itself.
  function UpdateProfile(lower: LowerCase, p: Profile, u: ProfileUpdate, nano: string): Profile {
    var names := MergeNames(p.names, u);
    if ShouldRegenerateSlug(u) then
      var slugId := SlugIdFor(p.slugId, nano);
      Profile(names, Some(SlugText(lower, names, slugId)), Some(slugId))
    else Profile(names, u.slug.GetOr(p.slug), u.slugId.GetOr(p.slugId))
  }

  // Each name field is the update's where it carries one, null included, and the old one where it
  // does not. A carried name gives the printed form of the new names under the old id, or under
  // one made from `nano` where there was none; otherwise the slug fields are treated like names.
  lemma ProfileFields(lower: LowerCase, p: Profile, u: ProfileUpdate, nano: string)
    ensures var q := UpdateProfile(lower, p, u, nano);
            && q.names.firstName == (if u.firstName.Some? then u.firstName.value else p.names.firstName)
            && q.names.lastName == (if u.lastName.Some? then u.lastName.value else p.names.lastName)
            && q.names.companyName == (if u.companyName.Some? then u.companyName.value else p.names.companyName)
            && (if u.firstName.Some? || u.lastName.Some? || u.companyName.Some?
                then q.slugId.Some? && q.slug == Some(SlugText(lower, q.names, q.slugId.value)) &&
                     if p.slugId.Some? && p.slugId.value != "" then q.slugId == p.slugId
                     else |q.slugId.value| == |nano| &&
                          forall i :: 0 <= i < |nano| ==> q.slugId.value[i] == if nano[i] == '-' then '_' else nano[i]
                else q.slug == (if u.slug.Some? then u.slug.value else p.slug) &&
                     q.slugId == (if u.slugId.Some? then u.slugId.value else p.slugId))
  {
    hide SlugText;
  }

  /** Never assigned, or the printed form of the current names under a parsable id. */
  predicate Coherent(lower: LowerCase, p: Profile) {
    (p.slug.None? && p.slugId.None?) ||
    (p.slug.Some? && p.slugId.Some? && WellFormedId(p.slugId.value) &&
     p.slug.value == SlugText(lower, p.names, p.slugId.value))
  }

  datatype Edit = Edit(update: ProfileUpdate, nano: string)

  // The update leaves slug and slugId to the generator.
  predicate Indirect(e: Edit) {
    e.update.slug.None? && e.update.slugId.None? && NanoId(e.nano)
  }

  function UpdateAll(lower: LowerCase, p: Profile, edits: seq<Edit>): Profile
    decreases |edits|
  {
    if edits == [] then p
    else UpdateAll(lower, UpdateProfile(lower, p, edits[0].update, edits[0].nano), edits[1..])
  }

  // Over every sequence of updates that leave the slug to the generator: the slug stays the
  // printed form of the current names, the id never changes once assigned, parsing the slug
  // gives it back, and a row has a slug as soon as one update has touched a name.
  lemma {:induction false} SlugCoherence(lower: LowerCase, p: Profile, edits: seq<Edit>)
    requires Coherent(lower, p)
    requires forall i :: 0 <= i < |edits| ==> Indirect(edits[i])
    ensures var q := UpdateAll(lower, p, edits);
            && Coherent(lower, q)
            && (p.slugId.Some? ==> q.slugId == p.slugId)
            && (q.slugId.Some? ==> ParseSlugId(q.slug.value) == q.slugId)
            && ((exists i :: 0 <= i < |edits| && ShouldRegenerateSlug(edits[i].update)) ==> q.slugId.Some?)
    decreases |edits|
  {
    if edits != [] {
      var next := UpdateProfile(lower, p, edits[0].update, edits[0].nano);
      FreshIdWellFormed(edits[0].nano);
      SlugCoherence(lower, next, edits[1..]);
      if i :| 0 <= i < |edits| && ShouldRegenerateSlug(edits[i].update) {
        assert i == 0 || edits[1..][i - 1] == edits[i];
      }
    } else if p.slugId.Some? {
      SlugRoundTrip(lower, p.names, p.slugId.value);
    }
  }
}
