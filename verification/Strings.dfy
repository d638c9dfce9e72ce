/** `split` and `join` on a one-character separator, and how they undo each other. */
module Strings {
  predicate Free(s: string, sep: char) {
    sep !in s
  }

  // The parts with c put in front of the first of them.
  function Extend(c: char, parts: seq<string>): (r: seq<string>)
    requires |parts| > 0
    ensures |r| == |parts| && r[0] == [c] + parts[0] && r[1..] == parts[1..]
  {
    [[c] + parts[0]] + parts[1..]
  }

  function Split(s: string, sep: char): (parts: seq<string>)
    ensures |parts| > 0
  {
    if s == "" then [""]
    else
      var rest := Split(s[1..], sep);
      if s[0] == sep then [""] + rest else Extend(s[0], rest)
  }

  function Join(parts: seq<string>, sep: char): string {
    if |parts| == 0 then ""
    else if |parts| == 1 then parts[0]
    else parts[0] + [sep] + Join(parts[1..], sep)
  }

  lemma JoinExtend(c: char, parts: seq<string>, sep: char)
    requires |parts| > 0
    ensures Join(Extend(c, parts), sep) == [c] + Join(parts, sep)
  {
    hide Extend;
    if |parts| > 1 {
      Associative([c], parts[0], [sep] + Join(parts[1..], sep));
    }
  }

  lemma Associative(a: string, b: string, c: string)
    ensures a + b + c == a + (b + c)
  {
  }

  // Splitting loses nothing, and no part contains the separator.
  lemma {:induction false} JoinSplit(s: string, sep: char)
    ensures Join(Split(s, sep), sep) == s
    ensures forall i :: 0 <= i < |Split(s, sep)| ==> Free(Split(s, sep)[i], sep)
  {
    if s != "" {
      JoinSplit(s[1..], sep);
      var rest := Split(s[1..], sep);
      assert ([""] + rest)[1..] == rest;
    }
  }

  lemma {:induction false} SplitFree(s: string, sep: char)
    requires Free(s, sep)
    ensures Split(s, sep) == [s]
  {
    if s != "" {
      assert s[0] != sep && Free(s[1..], sep) && [s[0]] + s[1..] == s;
      SplitFree(s[1..], sep);
    }
  }

  lemma {:induction false} SplitAppend(a: string, b: string, sep: char)
    ensures Split(a + [sep] + b, sep) == Split(a, sep) + Split(b, sep)
  {
    var s := a + [sep] + b;
    if a == "" {
      assert s[1..] == b;
    } else {
      assert s[0] == a[0] && s[1..] == a[1..] + [sep] + b;
      SplitAppend(a[1..], b, sep);
    }
  }

  lemma {:induction false} JoinAppend(parts: seq<string>, last: string, sep: char)
    requires |parts| > 0
    ensures Join(parts + [last], sep) == Join(parts, sep) + [sep] + last
  {
    assert (parts + [last])[1..] == parts[1..] + [last];
    if |parts| > 1 {
      JoinAppend(parts[1..], last, sep);
    }
  }

  // A separator-free first part can be read back from `a sep x`.
  lemma PrefixedInjective(a: string, x: string, b: string, y: string, sep: char)
    requires Free(a, sep) && Free(b, sep)
    ensures a + [sep] <= b + [sep] + y <==> a == b
    ensures a + [sep] + x == b + [sep] + y <==> a == b && x == y
  {
    var key := b + [sep] + y;
    assert key[|b|] == sep && key[..|b|] == b;
    if a + [sep] <= key {
      assert key[|a|] == sep && key[..|a|] == a;
    }
    if a + [sep] + x == key {
      assert a + [sep] <= key;
      assert key[|a| + 1..] == x && key[|b| + 1..] == y;
    }
  }
}
