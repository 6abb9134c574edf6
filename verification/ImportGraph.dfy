/** The import-graph scan: flagged modules reachable from entry modules. */
module ImportGraph {
  import opened Common

  /** Every module with the modules it imports; imports outside the project are dropped. */
  type Graph = map<string, set<string>>

  /** A flagged module and the root it is reachable from. */
  datatype Finding = Finding(name: string, root: string)

  ghost predicate Closed(g: Graph) {
    forall m :: m in g ==> g[m] <= g.Keys
  }

  ghost predicate Imports(g: Graph, a: string, b: string) {
    a in g && b in g[a]
  }

  ghost predicate Walk(g: Graph, p: seq<string>) {
    forall i :: 0 <= i < |p| - 1 ==> Imports(g, p[i], p[i + 1])
  }

  ghost predicate WalkBetween(g: Graph, a: string, b: string, p: seq<string>) {
    p != [] && p[0] == a && p[|p| - 1] == b && Walk(g, p)
  }

  ghost predicate Reachable(g: Graph, a: string, b: string) {
    exists p :: WalkBetween(g, a, b, p)
  }

  function Importers(g: Graph, m: string): set<string> {
    set n | n in g && m in g[n]
  }

  /** The name contains "tests." somewhere. */
  predicate IsTestName(name: string) {
    name != [] && ("tests." <= name || IsTestName(name[1..]))
  }

  function Roots(g: Graph): set<string> {
    set m | m in g && Importers(g, m) == {} && !IsTestName(m)
  }

  /** What the scan has to report. */
  ghost predicate Reported(g: Graph, flagged: set<string>, f: Finding) {
    f.root in Roots(g) && f.name in flagged && f.name != f.root && Reachable(g, f.root, f.name)
  }

  lemma ReachSelf(g: Graph, a: string)
    ensures Reachable(g, a, a)
  {
    assert WalkBetween(g, a, a, [a]);
  }

  lemma ReachStep(g: Graph, a: string, b: string, c: string)
    requires Reachable(g, a, b) && Imports(g, b, c)
    ensures Reachable(g, a, c)
  {
    var p :| WalkBetween(g, a, b, p);
    var q := p + [c];
    forall i | 0 <= i < |q| - 1
      ensures Imports(g, q[i], q[i + 1])
    {
      assert i < |p| - 1 ==> Imports(g, p[i], p[i + 1]);
    }
    assert WalkBetween(g, a, c, q);
  }

  /** A set that is closed under imports contains everything reachable from its members. */
  lemma {:induction false} ClosedSetContains(g: Graph, s: set<string>, p: seq<string>)
    requires forall m :: m in s && m in g ==> g[m] <= s
    requires p != [] && Walk(g, p) && p[0] in s
    ensures p[|p| - 1] in s
  {
    if |p| > 1 {
      assert Imports(g, p[0], p[1]);
      forall i | 0 <= i < |p[1..]| - 1
        ensures Imports(g, p[1..][i], p[1..][i + 1])
      {
        assert Imports(g, p[i + 1], p[i + 2]);
      }
      ClosedSetContains(g, s, p[1..]);
    }
  }

  // ---------- the scan ----------

  /** The importers of `m` among the sources counted so far. */
  ghost function Counted(g: Graph, done: set<string>, m: string): nat {
    |Importers(g, m) * done|
  }

  /** The in-degree table: for every module the number of modules that import it. */
  method CountImports(g: Graph) returns (indegree: map<string, nat>)
    requires Closed(g)
    ensures indegree.Keys == g.Keys && forall m :: m in g ==> indegree[m] == |Importers(g, m)|
  {
    hide Counted, Importers;
    CountEnds(g);
    indegree := map m | m in g :: 0;
    var sources := g.Keys;
    ghost var done: set<string> := {};
    while sources != {}
      invariant sources == g.Keys - done && done <= g.Keys && indegree.Keys == g.Keys
      invariant forall m :: m in g ==> indegree[m] == Counted(g, done, m)
    {
      var source :| source in sources;
      CountStep(g, done, source);
      indegree := CountTargets(g, indegree, g[source]);
      sources, done := sources - {source}, done + {source};
    }
    assert done == g.Keys;
  }

  lemma CountEnds(g: Graph)
    ensures forall m :: Counted(g, {}, m) == 0 && Counted(g, g.Keys, m) == |Importers(g, m)|
  {
    forall m
      ensures Counted(g, {}, m) == 0 && Counted(g, g.Keys, m) == |Importers(g, m)|
    {
      assert Importers(g, m) * {} == {} && Importers(g, m) * g.Keys == Importers(g, m);
    }
  }

  lemma CountStep(g: Graph, done: set<string>, source: string)
    requires source in g && source !in done
    ensures forall m :: m in g ==> Counted(g, done + {source}, m) == Counted(g, done, m) + if m in g[source] then 1 else 0
  {
    forall m | m in g
      ensures Counted(g, done + {source}, m) == Counted(g, done, m) + if m in g[source] then 1 else 0
    {
      assert Importers(g, m) * (done + {source}) == Importers(g, m) * done + if m in g[source] then {source} else {};
    }
  }

  method CountTargets(g: Graph, before: map<string, nat>, targets: set<string>) returns (indegree: map<string, nat>)
    requires before.Keys == g.Keys && targets <= g.Keys
    ensures indegree.Keys == g.Keys
    ensures forall m :: m in g ==> indegree[m] == before[m] + if m in targets then 1 else 0
  {
    indegree := before;
    var rest := targets;
    while rest != {}
      invariant rest <= targets && indegree.Keys == g.Keys
      invariant forall m :: m in g ==> indegree[m] == before[m] + if m in targets - rest then 1 else 0
    {
      var target :| target in rest;
      indegree := indegree[target := indegree[target] + 1];
      rest := rest - {target};
    }
  }

  /** One root: everything on the stack is reachable, and visited modules have their imports visited or stacked. */
  ghost predicate Searching(g: Graph, root: string, stack: seq<string>, visited: set<string>) {
    && root in visited + Elements(stack)
    && visited + Elements(stack) <= g.Keys
    && (forall m :: m in visited + Elements(stack) ==> Reachable(g, root, m))
    && (forall m :: m in visited ==> g[m] <= visited + Elements(stack))
  }

  method SearchFrom(g: Graph, flagged: set<string>, root: string) returns (found: seq<string>)
    requires Closed(g) && root in g
    ensures Distinct(found)
    ensures forall m :: m in found <==> m in flagged && m != root && Reachable(g, root, m)
  {
    found := [];
    var stack, visited: set<string> := [root], {};
    ReachSelf(g, root);
    while stack != []
      invariant Searching(g, root, stack, visited)
      invariant Elements(found) == set m | m in visited && m in flagged && m != root
      invariant Distinct(found)
      decreases g.Keys - visited, |stack|
    {
      var current, rest := stack[|stack| - 1], stack[..|stack| - 1];
      ElementsConcat(rest, [current]);
      assert stack == rest + [current];
      stack := rest;
      if current in visited {
        continue;
      }
      assert current in g.Keys - visited;
      if current in flagged && current != root {
        ElementsConcat(found, [current]);
        assert current !in Elements(found);
        found := found + [current];
      }
      visited := visited + {current};
      var targets := ListOf(g[current]);
      Push(g, root, rest, visited - {current}, current, targets);
      stack := rest + targets;
    }
    VisitedIsReachable(g, root, visited);
    assert forall m :: m in found <==> m in Elements(found);
  }

  lemma Push(g: Graph, root: string, rest: seq<string>, visited: set<string>, current: string, targets: seq<string>)
    requires Closed(g) && Searching(g, root, rest + [current], visited) && Elements(targets) == g[current]
    ensures Searching(g, root, rest + targets, visited + {current})
  {
    ElementsConcat(rest, [current]);
    ElementsConcat(rest, targets);
    forall m | m in Elements(targets)
      ensures Reachable(g, root, m)
    {
      ReachStep(g, root, current, m);
    }
  }

  lemma VisitedIsReachable(g: Graph, root: string, visited: set<string>)
    requires Closed(g) && Searching(g, root, [], visited)
    ensures forall m :: m in visited <==> Reachable(g, root, m)
  {
    forall m | Reachable(g, root, m)
      ensures m in visited
    {
      var p :| WalkBetween(g, root, m, p);
      ClosedSetContains(g, visited, p);
    }
  }

  /** The members of a set, each once, in some order. */
  method ListOf(s: set<string>) returns (xs: seq<string>)
    ensures Elements(xs) == s && Distinct(xs)
  {
    xs := [];
    var rest := s;
    while rest != {}
      invariant Elements(xs) == s - rest && rest <= s && Distinct(xs)
    {
      var x :| x in rest;
      ElementsConcat(xs, [x]);
      assert x !in Elements(xs);
      xs := xs + [x];
      rest := rest - {x};
    }
  }

  /** `scan_import_graph`: every required finding exactly once, and nothing else; cycles do no harm. */
  method ScanImportGraph(g: Graph, flagged: set<string>) returns (findings: seq<Finding>)
    requires Closed(g)
    ensures Distinct(findings)
    ensures forall f :: f in findings <==> Reported(g, flagged, f)
  {
    var indegree := CountImports(g);
    var roots := set m | m in g && indegree[m] == 0 && !IsTestName(m);
    assert roots == Roots(g);
    findings := [];
    var rest := roots;
    while rest != {}
      invariant rest <= roots && Distinct(findings)
      invariant forall f :: f in findings <==> f.root !in rest && Reported(g, flagged, f)
    {
      var root :| root in rest;
      var found := SearchFrom(g, flagged, root);
      var added := seq(|found|, i requires 0 <= i < |found| => Finding(found[i], root));
      forall f
        ensures f in added <==> f.root == root && Reported(g, flagged, f)
      {
        if f.root == root && f.name in found {
          var i :| 0 <= i < |found| && found[i] == f.name;
          assert added[i] == f;
        }
      }
      AppendDistinct(findings, added);
      findings := findings + added;
      rest := rest - {root};
    }
  }

  lemma AppendDistinct(xs: seq<Finding>, ys: seq<Finding>)
    requires Distinct(xs) && Distinct(ys) && forall y :: y in ys ==> y !in xs
    ensures Distinct(xs + ys)
  {
    var zs := xs + ys;
    forall i, j | 0 <= i < j < |zs|
      ensures zs[i] != zs[j]
    {
      if i < |xs| <= j {
        assert zs[i] in xs && zs[j] in ys;
      }
    }
  }

  // ---------- coverage ----------

  ghost predicate Acyclic(g: Graph) {
    forall a, b :: Imports(g, a, b) ==> !Reachable(g, b, a)
  }

  /** Following importers back from `p[0]` ends at a module that nothing imports. */
  lemma {:induction false} BackToRoot(g: Graph, p: seq<string>, m: string) returns (root: string)
    requires Closed(g) && Acyclic(g) && Distinct(p) && Elements(p) <= g.Keys && p != [] && WalkBetween(g, p[0], m, p)
    ensures root in g && Importers(g, root) == {} && Reachable(g, root, m)
    decreases |g.Keys| - |p|
  {
    DistinctLength(p);
    SubsetSize(Elements(p), g.Keys);
    assert p[0] in Elements(p);
    if Importers(g, p[0]) == {} {
      root := p[0];
    } else {
      var n :| n in Importers(g, p[0]);
      var q := [n] + p;
      assert Imports(g, n, p[0]);
      forall i | 0 <= i < |p|
        ensures p[i] != n
      {
        PrefixReaches(g, p, i);
      }
      forall i | 0 <= i < |q| - 1
        ensures Imports(g, q[i], q[i + 1])
      {
        assert i > 0 ==> Imports(g, p[i - 1], p[i]);
      }
      ElementsConcat([n], p);
      DistinctLength(q);
      SubsetSize(Elements(q), g.Keys);
      root := BackToRoot(g, q, m);
    }
  }

  lemma PrefixReaches(g: Graph, p: seq<string>, i: nat)
    requires i < |p| && Walk(g, p)
    ensures Reachable(g, p[0], p[i])
  {
    var q := p[..i + 1];
    forall k | 0 <= k < |q| - 1
      ensures Imports(g, q[k], q[k + 1])
    {
      assert Imports(g, p[k], p[k + 1]);
    }
    assert WalkBetween(g, p[0], p[i], q);
  }

  /** On an acyclic graph without test modules, every flagged module that something imports is reported. */
  lemma AcyclicFlaggedReported(g: Graph, flagged: set<string>, m: string) returns (root: string)
    requires Closed(g) && Acyclic(g) && m in g && m in flagged && Importers(g, m) != {}
    requires forall n :: n in g ==> !IsTestName(n)
    ensures Reported(g, flagged, Finding(m, root))
  {
    assert WalkBetween(g, m, m, [m]);
    root := BackToRoot(g, [m], m);
  }

  /**
   * A set of modules that hides its members: nothing outside imports into it, and each member is
   * imported by another one or is skipped as an entry because of its name.
   */
  ghost predicate Hides(g: Graph, s: set<string>) {
    forall n :: n in s ==> n in g && Importers(g, n) <= s && (Importers(g, n) != {} || IsTestName(n))
  }

  /** Walking backwards never leaves a set that nothing outside imports into. */
  lemma {:induction false} WalkStaysHidden(g: Graph, s: set<string>, p: seq<string>)
    requires Hides(g, s) && p != [] && Walk(g, p) && p[|p| - 1] in s
    ensures p[0] in s
  {
    if |p| > 1 {
      forall i | 0 <= i < |p[1..]| - 1
        ensures Imports(g, p[1..][i], p[1..][i + 1])
      {
        assert Imports(g, p[i + 1], p[i + 2]);
      }
      WalkStaysHidden(g, s, p[1..]);
      assert Imports(g, p[0], p[1]);
      assert p[0] in Importers(g, p[1]);
    }
  }

  lemma ReachBack(g: Graph, a: string, b: string, c: string)
    requires Imports(g, a, b) && Reachable(g, b, c)
    ensures Reachable(g, a, c)
  {
    var p :| WalkBetween(g, b, c, p);
    var q := [a] + p;
    forall i | 0 <= i < |q| - 1
      ensures Imports(g, q[i], q[i + 1])
    {
      assert i > 0 ==> Imports(g, p[i - 1], p[i]);
    }
    assert WalkBetween(g, a, c, q);
  }

  /** The modules that reach an unreported one hide it. */
  lemma AncestorsHide(g: Graph, flagged: set<string>, m: string) returns (s: set<string>)
    requires Closed(g) && m in g && m in flagged && Importers(g, m) != {}
    requires forall root :: !Reported(g, flagged, Finding(m, root))
    ensures m in s && Hides(g, s)
  {
    s := set n | n in g && Reachable(g, n, m);
    ReachSelf(g, m);
    forall n | n in s
      ensures Importers(g, n) <= s && (Importers(g, n) != {} || IsTestName(n))
    {
      forall a | a in Importers(g, n)
        ensures a in s
      {
        ReachBack(g, a, n, m);
      }
      assert !Reported(g, flagged, Finding(m, n));
    }
  }

  /**
   * The exact condition: a flagged module is missing from the report if and only if nothing imports it
   * or it belongs to a hidden set, that is a part of the project that is imported only from within and
   * whose modules without importers are all test modules.
   */
  lemma UnreportedExactly(g: Graph, flagged: set<string>, m: string)
    requires Closed(g) && m in g && m in flagged
    ensures (forall root :: !Reported(g, flagged, Finding(m, root))) <==>
            Importers(g, m) == {} || exists s :: m in s && Hides(g, s)
  {
    if s :| m in s && Hides(g, s) {
      forall root
        ensures !Reported(g, flagged, Finding(m, root))
      {
        if Reported(g, flagged, Finding(m, root)) {
          var p :| WalkBetween(g, root, m, p);
          WalkStaysHidden(g, s, p);
        }
      }
    } else if Importers(g, m) == {} {
      UnimportedIsUnreported(g, flagged, m);
    } else if forall root :: !Reported(g, flagged, Finding(m, root)) {
      var s := AncestorsHide(g, flagged, m);
    }
  }

  lemma UnimportedIsUnreported(g: Graph, flagged: set<string>, m: string)
    requires Importers(g, m) == {}
    ensures forall root :: !Reported(g, flagged, Finding(m, root))
  {
    forall root | Reachable(g, root, m)
      ensures root == m
    {
      var p :| WalkBetween(g, root, m, p);
      if |p| > 1 {
        LastStep(g, p);
      }
    }
  }

  lemma LastStep(g: Graph, p: seq<string>)
    requires |p| > 1 && Walk(g, p)
    ensures p[|p| - 2] in Importers(g, p[|p| - 1])
  {
    assert Imports(g, p[|p| - 2], p[|p| - 2 + 1]);
  }

  /** A hidden set: flagged modules that import only each other have no entry and are not reported. */
  lemma CycleHidesFlagged()
    ensures var g: Graph := map["a" := {"b"}, "b" := {"a"}];
            && Closed(g) && Importers(g, "a") == {"b"} && Hides(g, {"a", "b"})
            && forall f :: !Reported(g, {"a", "b"}, f)
  {
    var g: Graph := map["a" := {"b"}, "b" := {"a"}];
    assert "b" in Importers(g, "a") && "a" in Importers(g, "b");
  }

  /** Another one, without a cycle: a module that only a test module imports is not reported. */
  lemma TestEntryHidesFlagged()
    ensures var g: Graph := map["tests.a" := {"b"}, "b" := {}];
            && Closed(g) && Acyclic(g) && Importers(g, "b") == {"tests.a"} && Hides(g, {"tests.a", "b"})
            && forall f :: !Reported(g, {"b"}, f)
  {
    var g: Graph := map["tests.a" := {"b"}, "b" := {}];
    assert "tests.a" in Importers(g, "b");
    assert "tests." <= "tests.a";
    forall a, b | Imports(g, a, b)
      ensures !Reachable(g, b, a)
    {
      if p :| WalkBetween(g, b, a, p) {
        ClosedSetContains(g, {"b"}, p);
      }
    }
    forall root
      ensures !Reported(g, {"b"}, Finding("b", root))
    {
      UnreportedExactly(g, {"b"}, "b");
    }
  }

  ghost predicate TestsAt(name: string, i: nat) {
    i + 6 <= |name| && name[i..i + 6] == "tests."
  }

  /** A test module is one whose name contains "tests." at some place. */
  lemma {:induction false} TestNameMeans(name: string)
    ensures IsTestName(name) <==> exists i: nat :: TestsAt(name, i)
  {
    hide IsTestName;
    if name != [] {
      TestNameMeans(name[1..]);
      TestNameStep(name);
      if i: nat :| TestsAt(name, i) {
        if i > 0 {
          assert name[1..][i - 1..i - 1 + 6] == name[i..i + 6];
          assert TestsAt(name[1..], i - 1);
        }
      }
      if i: nat :| TestsAt(name[1..], i) {
        assert name[1..][i..i + 6] == name[i + 1..i + 1 + 6];
        assert TestsAt(name, i + 1);
      }
      assert TestsAt(name, 0) ==> exists i: nat :: TestsAt(name, i);
    } else {
      NoName();
    }
  }

  lemma NoName()
    ensures !IsTestName([])
  {
  }

  lemma TestNameStep(name: string)
    requires name != []
    ensures IsTestName(name) <==> TestsAt(name, 0) || IsTestName(name[1..])
  {
    assert |"tests."| == 6;
    if TestsAt(name, 0) {
      assert "tests." == name[..6];
    }
  }
}
