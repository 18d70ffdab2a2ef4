/**
 * One concrete run of the traversal: `editors/foo` needs `devel/bar`,
 * which needs `ports-mgmt/pkg`, which needs `devel/baz`; only the build pass,
 * no depth limit, the package hidden, no flavor and no abandoned check.
 */
module Scenario {
  import opened Wrappers
  import opened Names
  import opened Traversal

  const Base: string := "/usr/ports"
  const Root: string := Base + "/editors/foo"
  const Bar: string := Base + "/devel/bar"
  const PkgDir: string := Base + "/ports-mgmt/pkg"
  const Baz: string := Base + "/devel/baz"

  /** The evaluator of this run: every list is one line ending in a newline, or empty. */
  function Depends(k: Kind, dir: string, flavor: Option<string>): seq<string>
  {
    if dir == Root then [Bar + "\n"]
    else if dir == Bar then [PkgDir + "\n"]
    else if dir == PkgDir then [Baz + "\n"]
    else []
  }

  const Universe: seq<string> := [Bar, PkgDir, Baz]

  function Settings(): Config
  {
    Config(false, false, "", "", false, Depends, (dir: string) => "")
  }

  /** The canonical names of the four directories. */
  lemma RootName4()
    ensures FullName2Port(Root) == "editors/foo"
  {
    PairName(Base, "editors", "foo");
    assert Root == Base + [Sep] + "editors" + [Sep] + "foo";
  }

  lemma BarName()
    ensures FullName2Port(Bar) == "devel/bar"
  {
    PairName(Base, "devel", "bar");
    assert Bar == Base + [Sep] + "devel" + [Sep] + "bar";
  }

  lemma PkgName()
    ensures FullName2Port(PkgDir) == Pkg
  {
    PairName(Base, "ports-mgmt", "pkg");
    assert PkgDir == Base + [Sep] + "ports-mgmt" + [Sep] + "pkg";
  }

  lemma BazName()
    ensures FullName2Port(Baz) == "devel/baz"
  {
    PairName(Base, "devel", "baz");
    assert Baz == Base + [Sep] + "devel" + [Sep] + "baz";
  }

  /** `base/category/port` canonicalises to `category/port`. */
  lemma PairName(base: string, category: string, port: string)
    requires Sep !in category && Sep !in port
    ensures FullName2Port(base + [Sep] + category + [Sep] + port) == category + [Sep] + port
  {
    var name := category + [Sep] + port;
    FullName2PortOfPair(category, port);
    SplitAround(base, name);
    assert base + [Sep] + category + [Sep] + port == base + [Sep] + name;
    assert LastTwo(Split(base) + Split(name)) == Split(name);
    JoinSplit(name);
  }

  /** No directory of this run carries a flavor. */
  lemma NoFlavors()
    ensures FlavorName2Port(Root) == Root && FlavorName2Port(Bar) == Bar
    ensures FlavorName2Port(PkgDir) == PkgDir && FlavorName2Port(Baz) == Baz
  {
    assert '@' !in Root && '@' !in Bar && '@' !in PkgDir && '@' !in Baz;
  }

  lemma Lines()
    ensures RStrip(Bar + "\n") == Bar && RStrip(PkgDir + "\n") == PkgDir && RStrip(Baz + "\n") == Baz
  {
    StripNewline(Bar);
    StripNewline(PkgDir);
    StripNewline(Baz);
  }

  lemma StripNewline(s: string)
    requires |s| > 0 && !IsSpace(s[|s| - 1])
    ensures RStrip(s + "\n") == s
  {
    assert (s + "\n")[..|s|] == s;
  }

  lemma UniverseClosed()
    ensures Closed(Depends, Universe)
  {
    Lines();
  }

  lemma Distinct()
    ensures Bar != Root && PkgDir != Root && PkgDir != Bar
    ensures Baz != Root && Baz != Bar && Baz != PkgDir
  {
    assert |Root| == 22 && |Bar| == 20 && |PkgDir| == 25 && |Baz| == 20;
    assert Bar[19] != Baz[19];
  }

  /** The depends-list output for each directory of the run. */
  lemma Outputs(d: string)
    requires d == Root || d == Bar || d == PkgDir || d == Baz
    ensures d == Root ==> DependsLines(Settings(), d, None, Build) == [Bar + "\n"]
    ensures d == Bar ==> DependsLines(Settings(), d, None, Build) == [PkgDir + "\n"]
    ensures d == PkgDir ==> DependsLines(Settings(), d, None, Build) == [Baz + "\n"]
    ensures d == Baz ==> DependsLines(Settings(), d, None, Build) == []
  {
    NoFlavors();
    Distinct();
  }

  /** A node statement as this run issues it: no URL, not abandoned. */
  function Plain(name: string): Node
  {
    Node(name, None, "black", "filled")
  }

  lemma BazLevel(U: seq<string>, st: State, d: int)
    requires d < 0
    requires Closed(Settings().depends, U) && Baz in U
    ensures var r := Recurse(Settings(), U, st, Baz, None, Build, d);
            r.nodes == st.nodes + [Plain("devel/baz")] && r.edges == st.edges && r.visited == st.visited
  {
    var c := Settings();
    Outputs(Baz);
    BazName();
    NoFlavors();
    var st1 := Enter(c, st, Baz, None, Build);
    assert st1.nodes == st.nodes + [Plain("devel/baz")];
    assert Recurse(c, U, st, Baz, None, Build, d) == Loop(c, U, st1, Baz, None, Build, d, [], 0);
  }

  /** A directory whose output is a single non-empty line: the traversal is that line's step after entering. */
  lemma SingleLine(c: Config, U: seq<string>, st: State, ports: string, flavor: Option<string>,
                   kind: Kind, d: int, line: string)
    requires Closed(c.depends, U) && d != 0
    requires DependsLines(c, ports, flavor, kind) == [line] && |line| > 0
    ensures RStrip(line) in U
    ensures Recurse(c, U, st, ports, flavor, kind, d)
            == Step(c, U, Enter(c, st, ports, flavor, kind), ports, flavor, kind, d, RStrip(line))
  {
    assert LinesIn(DependsLines(c, ports, flavor, kind), U);
    assert RStrip([line][0]) in U;
    var st1 := Enter(c, st, ports, flavor, kind);
    var s2 := Step(c, U, st1, ports, flavor, kind, d, RStrip(line));
    assert Loop(c, U, s2, ports, flavor, kind, d, [line], 1) == s2;
  }

  /** A line naming a dependency not yet visited: the edge, the node, then the descent. */
  lemma StepNew(c: Config, U: seq<string>, st: State, ports: string, flavor: Option<string>,
                kind: Kind, d: int, dep: string)
    requires Closed(c.depends, U) && dep in U && dep != ports && dep !in st.visited
    ensures Step(c, U, st, ports, flavor, kind, d, dep)
            == Recurse(c, U, Descend(c, VisitLine(c, st, ports, kind, dep), dep), dep, flavor, kind, d - 1)
  {
  }

  lemma PkgEnter(st: State)
    ensures var r := Enter(Settings(), st, PkgDir, None, Build);
            r.nodes == st.nodes && r.edges == st.edges && r.visited == st.visited
  {
    PkgName();
  }

  lemma PkgVisit(st: State)
    ensures var s := Descend(Settings(), VisitLine(Settings(), st, PkgDir, Build, Baz), Baz);
            && s.nodes == st.nodes + [Plain("devel/baz")]
            && s.edges == st.edges + [Edge(Pkg, "devel/baz", Build.Color())]
            && s.visited == st.visited + [PkgDir] + [Baz]
  {
    PkgName();
    BazName();
    NoFlavors();
  }

  lemma PkgStep(U: seq<string>, st: State, d: int)
    requires d < 0 && Baz !in st.visited
    requires Closed(Settings().depends, U) && Baz in U
    ensures var r := Step(Settings(), U, st, PkgDir, None, Build, d, Baz);
            && r.nodes == st.nodes + [Plain("devel/baz")] + [Plain("devel/baz")]
            && r.edges == st.edges + [Edge(Pkg, "devel/baz", Build.Color())]
            && r.visited == st.visited + [PkgDir] + [Baz]
  {
    var c := Settings();
    Distinct();
    var s3 := Descend(c, VisitLine(c, st, PkgDir, Build, Baz), Baz);
    PkgVisit(st);
    BazLevel(U, s3, d - 1);
    StepNew(c, U, st, PkgDir, None, Build, d, Baz);
  }

  lemma PkgLevel(U: seq<string>, st: State, d: int)
    requires d < 0 && Baz !in st.visited
    requires Closed(Settings().depends, U) && Baz in U
    ensures var r := Recurse(Settings(), U, st, PkgDir, None, Build, d);
            && r.nodes == st.nodes + [Plain("devel/baz")] + [Plain("devel/baz")]
            && r.edges == st.edges + [Edge(Pkg, "devel/baz", Build.Color())]
            && r.visited == st.visited + [PkgDir] + [Baz]
  {
    Outputs(PkgDir);
    Lines();
    SingleLine(Settings(), U, st, PkgDir, None, Build, d, Baz + "\n");
    PkgEnter(st);
    PkgStep(U, Enter(Settings(), st, PkgDir, None, Build), d);
  }

  lemma BarEnter(st: State)
    ensures var r := Enter(Settings(), st, Bar, None, Build);
            r.nodes == st.nodes + [Plain("devel/bar")] && r.edges == st.edges && r.visited == st.visited
  {
    BarName();
    NoFlavors();
  }

  lemma BarVisit(st: State)
    ensures var s := Descend(Settings(), VisitLine(Settings(), st, Bar, Build, PkgDir), PkgDir);
            s.nodes == st.nodes && s.edges == st.edges && s.visited == st.visited + [Bar] + [PkgDir]
  {
    PkgName();
    NoFlavors();
  }

  lemma BarStep(U: seq<string>, st: State, d: int)
    requires d < 0 && PkgDir !in st.visited && Baz !in st.visited
    requires Closed(Settings().depends, U) && PkgDir in U && Baz in U
    ensures var r := Step(Settings(), U, st, Bar, None, Build, d, PkgDir);
            && r.nodes == st.nodes + [Plain("devel/baz")] + [Plain("devel/baz")]
            && r.edges == st.edges + [Edge(Pkg, "devel/baz", Build.Color())]
            && r.visited == st.visited + [Bar] + [PkgDir] + [PkgDir] + [Baz]
  {
    var c := Settings();
    Distinct();
    var s3 := Descend(c, VisitLine(c, st, Bar, Build, PkgDir), PkgDir);
    BarVisit(st);
    PkgLevel(U, s3, d - 1);
    StepNew(c, U, st, Bar, None, Build, d, PkgDir);
  }

  lemma BarLevel(U: seq<string>, st: State, d: int)
    requires d < 0 && PkgDir !in st.visited && Baz !in st.visited
    requires Closed(Settings().depends, U) && PkgDir in U && Baz in U
    ensures var r := Recurse(Settings(), U, st, Bar, None, Build, d);
            && r.nodes == st.nodes + [Plain("devel/bar")] + [Plain("devel/baz")] + [Plain("devel/baz")]
            && r.edges == st.edges + [Edge(Pkg, "devel/baz", Build.Color())]
            && r.visited == st.visited + [Bar] + [PkgDir] + [PkgDir] + [Baz]
  {
    Outputs(Bar);
    Lines();
    SingleLine(Settings(), U, st, Bar, None, Build, d, PkgDir + "\n");
    BarEnter(st);
    BarStep(U, Enter(Settings(), st, Bar, None, Build), d);
  }

  lemma RootEnter(st: State)
    ensures var r := Enter(Settings(), st, Root, None, Build);
            r.nodes == st.nodes + [Plain("editors/foo")] && r.edges == st.edges && r.visited == st.visited
  {
    RootName4();
    NoFlavors();
  }

  lemma RootVisit(st: State)
    ensures var s := Descend(Settings(), VisitLine(Settings(), st, Root, Build, Bar), Bar);
            && s.nodes == st.nodes + [Plain("devel/bar")]
            && s.edges == st.edges + [Edge("editors/foo", "devel/bar", Build.Color())]
            && s.visited == st.visited + [Root] + [Bar]
  {
    RootName4();
    BarName();
    NoFlavors();
  }

  /** A string outside `v` and different from `a` and `b` is outside `v + [a] + [b]`; kept apart so that its callers' proofs stay small. */
  lemma NotInAfter(x: string, v: seq<string>, a: string, b: string)
    requires x !in v && x != a && x != b
    ensures x !in v + [a] + [b]
  {
  }

  lemma RootStep(U: seq<string>, st: State, d: int)
    requires d < 0 && Bar !in st.visited && PkgDir !in st.visited && Baz !in st.visited
    requires Closed(Settings().depends, U) && Bar in U && PkgDir in U && Baz in U
    ensures var r := Step(Settings(), U, st, Root, None, Build, d, Bar);
            && r.nodes == st.nodes + [Plain("devel/bar")] + [Plain("devel/bar")] + [Plain("devel/baz")] + [Plain("devel/baz")]
            && r.edges == st.edges + [Edge("editors/foo", "devel/bar", Build.Color())] + [Edge(Pkg, "devel/baz", Build.Color())]
  {
    var c := Settings();
    Distinct();
    var s3 := Descend(c, VisitLine(c, st, Root, Build, Bar), Bar);
    RootVisit(st);
    NotInAfter(PkgDir, st.visited, Root, Bar);
    NotInAfter(Baz, st.visited, Root, Bar);
    BarLevel(U, s3, d - 1);
    StepNew(c, U, st, Root, None, Build, d, Bar);
  }

  lemma RootLevel(U: seq<string>, st: State, d: int)
    requires d < 0 && Bar !in st.visited && PkgDir !in st.visited && Baz !in st.visited
    requires Closed(Settings().depends, U) && Bar in U && PkgDir in U && Baz in U
    ensures var r := Recurse(Settings(), U, st, Root, None, Build, d);
            && r.nodes == st.nodes + [Plain("editors/foo")] + [Plain("devel/bar")] + [Plain("devel/bar")]
                          + [Plain("devel/baz")] + [Plain("devel/baz")]
            && r.edges == st.edges + [Edge("editors/foo", "devel/bar", Build.Color())] + [Edge(Pkg, "devel/baz", Build.Color())]
  {
    Outputs(Root);
    Lines();
    SingleLine(Settings(), U, st, Root, None, Build, d, Bar + "\n");
    RootEnter(st);
    RootStep(U, Enter(Settings(), st, Root, None, Build), d);
  }

  /**
   * The graph of `editors/foo` under `/usr/ports`, build pass only, no depth
   * limit: `devel/bar` is issued twice (once before the descent, once on
   * entering it), so is `devel/baz`; the edge into the hidden package is
   * dropped, but the edge out of it is issued.
   */
  lemma FooGraph()
    ensures Closed(Settings().depends, Universe)
    ensures var r := Passes(Settings(), Universe, Empty, PathJoin(Base, "editors/foo"), None, true, false, -1);
            && r.nodes == [Plain("editors/foo"), Plain("devel/bar"), Plain("devel/bar"),
                           Plain("devel/baz"), Plain("devel/baz")]
            && r.edges == [Edge("editors/foo", "devel/bar", "#009999"), Edge(Pkg, "devel/baz", "#009999")]
  {
    UniverseClosed();
    assert PathJoin(Base, "editors/foo") == Root;
    RootLevel(Universe, Empty, -1);
    FlattenFive(Plain("editors/foo"), Plain("devel/bar"), Plain("devel/bar"), Plain("devel/baz"), Plain("devel/baz"));
    FlattenTwo(Edge("editors/foo", "devel/bar", "#009999"), Edge(Pkg, "devel/baz", "#009999"));
  }

  /** Appending singletons one by one to the empty list gives the listed sequence; kept apart so that its callers' proofs stay small. */
  lemma FlattenFive<T>(a: T, b: T, c: T, d: T, e: T)
    ensures [] + [a] + [b] + [c] + [d] + [e] == [a, b, c, d, e]
  {
  }

  /** The two-element case of `FlattenFive`; kept apart so that its callers' proofs stay small. */
  lemma FlattenTwo<T>(a: T, b: T)
    ensures [] + [a] + [b] == [a, b]
  {
  }
}
