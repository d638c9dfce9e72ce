/** The nested route configuration and its flattening (route-permissions.config.ts). */
module RouteTree {
  import opened Wrappers
  import opened PathRegex
  import opened Registry

  /** A node: its own path segment, its methods in declaration order, its children. */
  datatype RouteConfig = RouteConfig(path: string, methods: seq<(string, RouteRule)>, children: seq<RouteConfig>)

  function Entries(fullPath: string, methods: seq<(string, RouteRule)>): (r: Log)
    ensures |r| == |methods|
    ensures forall i :: 0 <= i < |methods| ==> r[i] == RoutePermission(fullPath, methods[i].0, methods[i].1)
  {
    seq(|methods|, i requires 0 <= i < |methods| => RoutePermission(fullPath, methods[i].0, methods[i].1))
  }

  function Flatten(configs: seq<RouteConfig>, base: string): Log {
    if configs == [] then []
    else
      var c := configs[0];
      Entries(base + c.path, c.methods) + Flatten(c.children, base + c.path) + Flatten(configs[1..], base)
  }

  lemma FlattenNothing(base: string)
    ensures Flatten([], base) == []
  {
  }

  lemma FlattenStep(configs: seq<RouteConfig>, i: nat, base: string, done: Log)
    requires i < |configs|
    ensures var c := configs[i];
            done + Flatten(configs[i..], base) ==
            done + Entries(base + c.path, c.methods) + Flatten(c.children, base + c.path) + Flatten(configs[i + 1..],
                base)
  {
    var c := configs[i];
    assert configs[i..][0] == c && configs[i..][1..] == configs[i + 1..];
    hide Entries;
  }

  /** `flattenRoutes`: nested loops pushing onto a result, recursion on the children. */
  method FlattenRoutes(configs: seq<RouteConfig>, base: string) returns (result: Log)
    ensures result == Flatten(configs, base)
    decreases configs
  {
    hide Flatten, Entries;
    FlattenNothing(base);
    result := [];
    assert configs[0..] == configs && configs[|configs|..] == [];
    for i := 0 to |configs|
      invariant result + Flatten(configs[i..], base) == Flatten(configs, base)
    {
      var c := configs[i];
      var fullPath := base + c.path;
      FlattenStep(configs, i, base, result);
      result := PushMethods(result, fullPath, c.methods);
      var nested := [];
      if |c.children| > 0 {
        nested := FlattenRoutes(c.children, fullPath);
      } else {
        FlattenNothing(fullPath);
      }
      result := result + nested;
    }
    assert result == result + [];
  }

  // The inner loop: one entry per method of a node.
  method PushMethods(before: Log, fullPath: string, methods: seq<(string, RouteRule)>) returns (result: Log)
    ensures result == before + Entries(fullPath, methods)
  {
    ghost var own := Entries(fullPath, methods);
    result := before;
    for j := 0 to |methods|
      invariant result == before + own[..j]
    {
      assert own[..j + 1] == own[..j] + [own[j]];
      result := result + [RoutePermission(fullPath, methods[j].0, methods[j].1)];
    }
    assert own[..|methods|] == own;
  }

  // ---- What flattening means ----

  // Some node of the forest, at full path `r.path`, declares method `r.verb` with `r.rule`.
  predicate Declares(configs: seq<RouteConfig>, base: string, r: RoutePermission) {
    exists i :: 0 <= i < |configs| && DeclaresAt(configs[i], base + configs[i].path, r)
  }

  predicate DeclaresAt(c: RouteConfig, fullPath: string, r: RoutePermission) {
    (r.path == fullPath && (r.verb, r.rule) in c.methods) || Declares(c.children, fullPath, r)
  }

  function Count(configs: seq<RouteConfig>): nat {
    if configs == [] then 0 else |configs[0].methods| + Count(configs[0].children) + Count(configs[1..])
  }

  // One entry per (node, method), and exactly the declared ones.
  lemma {:induction false} FlattenIsDeclared(configs: seq<RouteConfig>, base: string, r: RoutePermission)
    ensures r in Flatten(configs, base) <==> Declares(configs, base, r)
    ensures |Flatten(configs, base)| == Count(configs)
  {
    if configs != [] {
      var c := configs[0];
      var own := Entries(base + c.path, c.methods);
      FlattenIsDeclared(c.children, base + c.path, r);
      FlattenIsDeclared(configs[1..], base, r);
      assert r in own <==> r.path == base + c.path && (r.verb, r.rule) in c.methods by {
        if r.path == base + c.path && (r.verb, r.rule) in c.methods {
          var i :| 0 <= i < |c.methods| && c.methods[i] == (r.verb, r.rule);
          assert own[i] == r;
        }
      }
      if Declares(configs[1..], base, r) {
        var i :| 0 <= i < |configs| - 1 && DeclaresAt(configs[1..][i], base + configs[1..][i].path, r);
        assert configs[1..][i] == configs[i + 1];
      }
      if Declares(configs, base, r) {
        var i :| 0 <= i < |configs| && DeclaresAt(configs[i], base + configs[i].path, r);
        assert i > 0 ==> configs[1..][i - 1] == configs[i];
      }
    }
  }

  lemma {:induction false} FlattenAppend(a: seq<RouteConfig>, b: seq<RouteConfig>, base: string)
    ensures Flatten(a + b, base) == Flatten(a, base) + Flatten(b, base)
  {
    hide Entries;
    if a == [] {
      assert a + b == b;
    } else {
      FlattenAppend(a[1..], b, base);
      var c := a[0];
      var own := Entries(base + c.path, c.methods) + Flatten(c.children, base + c.path);
      assert Flatten(a + b, base) == own + Flatten(a[1..] + b, base) by {
        assert (a + b)[0] == c && (a + b)[1..] == a[1..] + b;
      }
    }
  }

  // With the law before, the order: a node's own methods as declared, then its children's entries.
  lemma FlattenNode(c: RouteConfig, base: string)
    ensures var log := Flatten([c], base);
            && |log| >= |c.methods|
            && (forall i :: 0 <= i < |c.methods| ==>
                  log[i] == RoutePermission(base + c.path, c.methods[i].0, c.methods[i].1))
            && log[|c.methods|..] == Flatten(c.children, base + c.path)
  {
    assert [c][1..] == [];
    FlattenNothing(base);
  }

  function UnderBase(base: string, log: Log): (r: Log)
    ensures |r| == |log| && forall i :: 0 <= i < |log| ==> r[i] == log[i].(path := base + log[i].path)
  {
    seq(|log|, i requires 0 <= i < |log| => log[i].(path := base + log[i].path))
  }

  // The base is a prefix of every path and nothing else.
  lemma {:induction false} FlattenBase(configs: seq<RouteConfig>, base: string, tail: string)
    ensures Flatten(configs, base + tail) == UnderBase(base, Flatten(configs, tail))
    decreases configs
  {
    if configs != [] {
      var c := configs[0];
      FlattenBase(c.children, base, tail + c.path);
      FlattenBase(configs[1..], base, tail);
      assert base + tail + c.path == base + (tail + c.path);
      assert Entries(base + tail + c.path, c.methods) == UnderBase(base, Entries(tail + c.path, c.methods));
    }
  }

  // ---- Tree to lookup ----

  predicate DistinctKeys(log: Log) {
    forall i, j :: 0 <= i < j < |log| ==> !IsFor(log[i], log[j].verb, log[j].path)
  }

  lemma {:induction false} LatestIsOnly(log: Log, r: RoutePermission)
    requires r in log && DistinctKeys(log)
    ensures Latest(log, r.verb, r.path) == Some(r)
  {
    var n := |log| - 1;
    if log[n] != r {
      var i :| 0 <= i < n && log[i] == r;
      LatestIsOnly(log[..n], r);
    }
  }

  // Loading a tree whose keys are distinct makes the lookup of any declared path and method
  // return exactly that node's rule: no pattern and no ALL entry gets in the way.
  lemma TreeRoundTrip(engine: Engine, configs: seq<RouteConfig>, r: RoutePermission)
    requires DistinctKeys(Flatten(configs, "")) && Declares(configs, "", r)
    ensures Lookup(engine, Flatten(configs, ""), r.path, r.verb) == Some(r)
  {
    FlattenIsDeclared(configs, "", r);
    LatestIsOnly(Flatten(configs, ""), r);
  }

  // From tree to concrete paths, over all four tiers. When no parametric path of the method or of
  // ALL has a metacharacter outside its parameters, a path gets the rule of the node that declares
  // it for the method; else of the first node of the method, in flattening order, whose path
  // matches it segment by segment; else of the node that declares it for ALL; else of the first
  // ALL node that matches; else none.
  lemma ConcretePath(engine: Engine, configs: seq<RouteConfig>, path: string, verb: string)
    requires var log := Flatten(configs, "");
             DistinctKeys(log) && PlainPatterns(log, verb) && PlainPatterns(log, "ALL")
    ensures var log := Flatten(configs, "");
            var r := Lookup(engine, log, path, verb);
            && (forall i :: 0 <= i < |log| && DeclaredFor(log[i], verb, path) ==> r == Some(log[i]))
            && (Undeclared(log, verb, path) ==>
                  && (forall i: nat :: FirstFitAt(log, i, verb, path) ==> r == Some(log[i]))
                  && (Unfitted(log, verb, path) ==>
                        && (forall i :: 0 <= i < |log| && DeclaredFor(log[i], "ALL", path) ==> r == Some(log[i]))
                        && (Undeclared(log, "ALL", path) ==>
                              && (forall i: nat :: FirstFitAt(log, i, "ALL", path) ==> r == Some(log[i]))
                              && (Unfitted(log, "ALL", path) ==> r == None))))
  {
    hide Flatten, DistinctKeys, PlainPatterns, PathMatches, SameVerb, Lookup;
    var log := Flatten(configs, "");
    LookupAnswers(engine, log, path, verb);
    forall i: nat, v: string, p: string | i < |log| && DeclaredFor(log[i], v, p) ensures LatestAt(log, i, v, p) {
      OnlyDeclared(log, i, v, p);
    }
    forall i: nat, v: string | FirstFitAt(log, i, v, path) ensures LatestAt(log, i, v, log[i].path) {
      OnlyDeclared(log, i, v, log[i].path);
    }
  }

  lemma OnlyDeclared(log: Log, i: nat, verb: string, path: string)
    requires DistinctKeys(log) && i < |log| && DeclaredFor(log[i], verb, path)
    ensures LatestAt(log, i, verb, path)
  {
    forall j | i < j < |log| ensures !DeclaredFor(log[j], verb, path) {
      UpperMeansSameVerb(log[i].verb, verb);
      UpperMeansSameVerb(log[j].verb, verb);
      assert !IsFor(log[i], log[j].verb, log[j].path);
    }
  }

  /** Module start-up: flatten the tree and register every entry. */
  method LoadTree(registry: RoutePermissionsRegistry, configs: seq<RouteConfig>) returns (ok: bool)
    requires registry.Valid()
    modifies registry
    ensures ok <==> forall r :: Declares(configs, "", r) ==> Compiles(registry.engine, r)
    ensures ok ==> registry.Valid() && registry.log == old(registry.log) + Flatten(configs, "")
    ensures ok && DistinctKeys(registry.log) ==>
              forall r :: Declares(configs, "", r) ==> Lookup(registry.engine, registry.log, r.path, r.verb) == Some(r)
  {
    var flat := FlattenRoutes(configs, "");
    ok := registry.RegisterMany(flat);
    hide Compiles, Flatten, Declares;
    forall r ensures r in flat <==> Declares(configs, "", r) {
      FlattenIsDeclared(configs, "", r);
    }
    assert ok <==> forall r :: r in flat ==> Compiles(registry.engine, r);
    forall r | ok && DistinctKeys(registry.log) && Declares(configs, "", r)
      ensures Lookup(registry.engine, registry.log, r.path, r.verb) == Some(r)
    {
      FlattenIsDeclared(configs, "", r);
      LatestIsOnly(registry.log, r);
    }
  }
}
