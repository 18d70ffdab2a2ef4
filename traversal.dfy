/**
 * The dependency traversal of `Portgraph`, stated on values.
 *
 * The external `make` evaluator is an oracle in the configuration: one
 * function gives the raw output lines of `make -C <dir> <kind>-depends-list`,
 * another the first output line of `make -C <dir> maintainer`. The graphviz
 * graph is the sequence of node and edge statements issued to it. A `State`
 * holds those two sequences, the `all_ports` list, the log of `make`
 * invocations in order, and the dependency strings descended into.
 *
 * Termination rests on a finite list `U` of the dependency strings the
 * oracle can name (`Closed`): every descent adds an entry of `U` that was not
 * yet visited to the visited list, so the number of unvisited entries of `U`
 * drops.
 */
module Traversal {
  import opened Wrappers
  import opened Names

  /** The package that is hidden unless asked for. */
  const Pkg: string := "ports-mgmt/pkg"
  /** The maintainer placeholder of an unmaintained port. */
  const Unmaintained: string := "ports@FreeBSD.org"

  /** The two dependency passes, with their make target prefix and edge colour. */
  datatype Kind = Build | Run
  {
    function Target(): (t: string)
      ensures t == "build" <==> Build?
      ensures t == "run" <==> Run?
    {
      if Build? then "build" else "run"
    }

    function Color(): (c: string)
      ensures |c| == 7 && c[0] == '#'
      ensures c == "#009999" <==> Build?
      ensures c == "#990000" <==> Run?
    {
      if Build? then "#009999" else "#990000"
    }
  }

  /** The two passes differ in both their make target and their edge colour. */
  lemma KindsDiffer(k: Kind, l: Kind)
    ensures k.Target() == l.Target() <==> k == l
    ensures k.Color() == l.Color() <==> k == l
  {
  }

  /** One invocation of the external evaluator. */
  datatype Query =
    | MaintainerQuery(dir: string)
    | DependsQuery(dir: string, kind: Kind, flavor: Option<string>)

  /** The command line of a query. */
  function Argv(q: Query): (argv: seq<string>)
    ensures |argv| >= 4 && argv[..3] == ["make", "-C", q.dir]
    ensures q.MaintainerQuery? <==> |argv| == 4
    ensures q.MaintainerQuery? ==> argv[3] == "maintainer"
    ensures q.DependsQuery? ==> argv[3] == q.kind.Target() + "-depends-list" && argv[4] == "-DDEPENDS_SHOW_FLAVOR"
    ensures q.DependsQuery? ==> argv[5..] == (if q.flavor.Some? then ["FLAVOR=" + q.flavor.value] else [])
  {
    match q
    case MaintainerQuery(dir) => ["make", "-C", dir, "maintainer"]
    case DependsQuery(dir, kind, flavor) =>
      ["make", "-C", dir, kind.Target() + "-depends-list", "-DDEPENDS_SHOW_FLAVOR"]
      + (if flavor.Some? then ["FLAVOR=" + flavor.value] else [])
  }

  /** Distinct queries are distinct command lines. */
  lemma ArgvInjective(q1: Query, q2: Query)
    requires Argv(q1) == Argv(q2)
    ensures q1 == q2
  {
    var a1, a2 := Argv(q1), Argv(q2);
    assert a1[2] == a2[2];
    if q1.DependsQuery? && q2.DependsQuery? {
      assert a1[3] == a2[3];
      assert a1[3][0] == a2[3][0];
      if q1.flavor.Some? {
        assert |a2| == 6;
        assert a1[5] == a2[5];
        assert q1.flavor.value == a1[5][7..];
        assert q2.flavor.value == a2[5][7..];
      }
    }
  }

  /** A node statement of the graph. */
  datatype Node = Node(name: string, url: Option<string>, color: string, style: string)
  /** An edge statement of the graph. */
  datatype Edge = Edge(src: string, dst: string, color: string)

  /** Raw output lines of `make -C <dir> <kind>-depends-list [FLAVOR=<f>]`. */
  type DependsOracle = (Kind, string, Option<string>) -> seq<string>
  /** First output line of `make -C <dir> maintainer`. */
  type MaintainerOracle = string -> string

  /** The options of one `Portgraph` object, as it normalises them. */
  datatype Config = Config(
    withPkg: bool,
    url: bool,
    www: string,
    suffix: string,
    abandoned: bool,
    depends: DependsOracle,
    maintainer: MaintainerOracle)

  /** Graph statements issued so far, `all_ports`, the query log and the descents made. */
  datatype State = State(
    nodes: seq<Node>,
    edges: seq<Edge>,
    visited: seq<string>,
    queries: seq<Query>,
    expanded: seq<string>)

  const Empty: State := State([], [], [], [], [])

  /** Every rstripped oracle line lies in `U`. */
  ghost predicate LinesIn(lines: seq<string>, U: seq<string>)
  {
    forall j :: 0 <= j < |lines| ==> RStrip(lines[j]) in U
  }

  /** The oracle never names a dependency outside `U`. */
  ghost predicate Closed(depends: DependsOracle, U: seq<string>)
  {
    forall k, p, f :: LinesIn(depends(k, p, f), U)
  }

  /** How many entries of `U` are not in `visited`. */
  ghost function Unseen(U: seq<string>, visited: seq<string>): nat
  {
    if |U| == 0 then 0
    else Unseen(U[..|U| - 1], visited) + (if U[|U| - 1] in visited then 0 else 1)
  }

  /** How many members of `U` are not yet visited. */
  ghost function Remaining(U: seq<string>, st: State): nat
  {
    Unseen(U, st.visited)
  }

  /** Extending the visited list never increases the unseen count. */
  lemma {:induction false} UnseenMono(U: seq<string>, v: seq<string>, w: seq<string>)
    requires v <= w
    ensures Unseen(U, w) <= Unseen(U, v)
  {
    if |U| > 0 {
      UnseenMono(U[..|U| - 1], v, w);
      if U[|U| - 1] in v {
        var k :| 0 <= k < |v| && v[k] == U[|U| - 1];
        assert w[k] == U[|U| - 1];
      }
    }
  }

  /** Visiting a new member of `U` decreases the unseen count. */
  lemma {:induction false} UnseenShrinks(U: seq<string>, v: seq<string>, w: seq<string>, x: string)
    requires v <= w && x in U && x !in v && x in w
    ensures Unseen(U, w) < Unseen(U, v)
  {
    var init := U[..|U| - 1];
    if U[|U| - 1] == x {
      UnseenMono(init, v, w);
    } else {
      assert U == init + [U[|U| - 1]];
      assert x in init;
      UnseenShrinks(init, v, w, x);
      if U[|U| - 1] in v {
        var k :| 0 <= k < |v| && v[k] == U[|U| - 1];
        assert w[k] == U[|U| - 1];
      }
    }
  }

  /** Visiting more never increases the remaining count. */
  lemma RemainingMono(U: seq<string>, st: State, r: State)
    requires st.visited <= r.visited
    ensures Remaining(U, r) <= Remaining(U, st)
  {
    UnseenMono(U, st.visited, r.visited);
  }

  /** Visiting a new member of `U` decreases the remaining count. */
  lemma RemainingShrinks(U: seq<string>, st: State, r: State, x: string)
    requires st.visited <= r.visited && x in U && x !in st.visited && x in r.visited
    ensures Remaining(U, r) < Remaining(U, st)
  {
    UnseenShrinks(U, st.visited, r.visited, x);
  }

  /** `_fullname2port(name) != self.pkg or self.with_pkg`. */
  predicate Shown(withPkg: bool, name: string)
    ensures Shown(withPkg, name) <==> name != Pkg || withPkg
  {
    name != Pkg || (name == Pkg && withPkg)
  }

  /** The flavor handed to the evaluator: `FLAVOR=` is passed only for a non-empty flavor. */
  function FlavorArg(flavor: Option<string>): (r: Option<string>)
    ensures r.Some? <==> Truthy(flavor)
    ensures r.Some? ==> r == flavor
  {
    if Truthy(flavor) then flavor else None
  }

  /** The node statement `_add_node` issues for `ports`. */
  function NodeFor(c: Config, ports: string): (n: Node)
    ensures n.name == FullName2Port(ports)
    ensures n.color == "red" <==> c.abandoned && RStrip(c.maintainer(FlavorName2Port(ports))) == Unmaintained
    ensures n.style == (if n.color == "red" then "bold" else "filled")
    ensures n.color != "red" ==> n.color == "black"
    ensures n.url.Some? <==> c.url
    ensures c.url ==> n.url.value == c.www + FullName2Port(FlavorName2Port(ports)) + c.suffix
  {
    var portname := FlavorName2Port(ports);
    var url := if c.url then Some(c.www + FullName2Port(portname) + c.suffix) else None;
    var abandoned := c.abandoned && RStrip(c.maintainer(portname)) == Unmaintained;
    Node(FullName2Port(ports), url, if abandoned then "red" else "black", if abandoned then "bold" else "filled")
  }

  /** `_add_node`: the maintainer query when the check is on, then the node unless it is hidden. */
  function AddNode(c: Config, st: State, ports: string): (r: State)
    ensures r.edges == st.edges && r.visited == st.visited && r.expanded == st.expanded
    ensures st.nodes <= r.nodes && st.queries <= r.queries
    ensures |r.nodes| == |st.nodes| + 1 <==> Shown(c.withPkg, FullName2Port(ports))
    ensures |r.nodes| == |st.nodes| + 1 ==> r.nodes[|st.nodes|] == NodeFor(c, ports)
    ensures |r.nodes| <= |st.nodes| + 1
    ensures |r.queries| == |st.queries| + 1 <==> c.abandoned
    ensures |r.queries| <= |st.queries| + 1
    ensures c.abandoned ==> r.queries[|st.queries|] == MaintainerQuery(FlavorName2Port(ports))
  {
    var q := if c.abandoned then [MaintainerQuery(FlavorName2Port(ports))] else [];
    var n := if Shown(c.withPkg, FullName2Port(ports)) then [NodeFor(c, ports)] else [];
    st.(nodes := st.nodes + n, queries := st.queries + q)
  }

  /** The edge statement for one dependency line, unless its target is hidden. */
  function EdgeFor(c: Config, ports: string, kind: Kind, dep: string): (e: seq<Edge>)
    ensures |e| <= 1
    ensures |e| == 1 <==> FullName2Port(dep) != Pkg || c.withPkg
    ensures |e| == 1 ==> e[0] == Edge(FullName2Port(ports), FullName2Port(dep), kind.Color())
  {
    if Shown(c.withPkg, FullName2Port(dep)) then [Edge(FullName2Port(ports), FullName2Port(dep), kind.Color())] else []
  }

  /**
   * `_recurseports(ports, flavor, kind, depth)`: nothing at depth 0; otherwise
   * the node, the depends-list query, and the loop over its lines.
   */
  ghost function Recurse(c: Config, U: seq<string>, st: State, ports: string, flavor: Option<string>,
                         kind: Kind, depth: int): (r: State)
    requires Closed(c.depends, U)
    ensures Remaining(U, r) <= Remaining(U, st)
    ensures depth == 0 ==> r == st
    decreases Remaining(U, st), 2, 0
  {
    if depth == 0 then st
    else
      var lines := DependsLines(c, ports, flavor, kind);
      Loop(c, U, Enter(c, st, ports, flavor, kind), ports, flavor, kind, depth, lines, 0)
  }

  /** The output lines of the depends-list query for `ports`. */
  function DependsLines(c: Config, ports: string, flavor: Option<string>, kind: Kind): seq<string>
  {
    c.depends(kind, FlavorName2Port(ports), FlavorArg(flavor))
  }

  /** Entering `_recurseports`: the node for `ports`, then the depends-list query. */
  function Enter(c: Config, st: State, ports: string, flavor: Option<string>, kind: Kind): (r: State)
    ensures r.visited == st.visited
  {
    var st1 := AddNode(c, st, ports);
    st1.(queries := st1.queries + [DependsQuery(FlavorName2Port(ports), kind, FlavorArg(flavor))])
  }

  /**
   * The `while True` loop of `_recurseports` from line `i` on: it ends at the
   * first empty line (end of output) and handles each line by `Step`.
   */
  ghost function Loop(c: Config, U: seq<string>, st: State, ports: string, flavor: Option<string>,
                      kind: Kind, depth: int, lines: seq<string>, i: nat): (r: State)
    requires Closed(c.depends, U) && LinesIn(lines, U) && i <= |lines|
    ensures Remaining(U, r) <= Remaining(U, st)
    decreases Remaining(U, st), 1, |lines| - i
  {
    if i == |lines| || |lines[i]| == 0 then st
    else
      var st1 := Step(c, U, st, ports, flavor, kind, depth, RStrip(lines[i]));
      Loop(c, U, st1, ports, flavor, kind, depth, lines, i + 1)
  }

  /**
   * One dependency line `dep`: `ports` joins the visited list, the edge is
   * issued, and when the visited list does not hold `dep` yet, its node is
   * issued, it joins the visited list, and the traversal descends into it.
   */
  ghost function Step(c: Config, U: seq<string>, st: State, ports: string, flavor: Option<string>,
                      kind: Kind, depth: int, dep: string): (r: State)
    requires Closed(c.depends, U) && dep in U
    ensures Remaining(U, r) <= Remaining(U, st)
    decreases Remaining(U, st), 0, 0
  {
    var st1 := VisitLine(c, st, ports, kind, dep);
    RemainingMono(U, st, st1);
    if dep in st1.visited then st1
    else
      var st2 := Descend(c, st1, dep);
      RemainingShrinks(U, st1, st2, dep);
      Recurse(c, U, st2, dep, flavor, kind, depth - 1)
  }

  function Max(a: nat, b: nat): nat
  {
    if a < b then b else a
  }

  /**
   * How deep the calls of `_recurseports` that get past the depth test nest,
   * this one included: 0 at depth 0, otherwise one more than the deepest
   * descent made by the loop over the output lines.
   */
  ghost function Height(c: Config, U: seq<string>, st: State, ports: string, flavor: Option<string>,
                        kind: Kind, depth: int): nat
    requires Closed(c.depends, U)
    decreases Remaining(U, st), 2, 0
  {
    if depth == 0 then 0
    else
      var lines := DependsLines(c, ports, flavor, kind);
      1 + LoopHeight(c, U, Enter(c, st, ports, flavor, kind), ports, flavor, kind, depth, lines, 0)
  }

  /** The deepest descent made by the loop from line `i` on, 0 when it makes none. */
  ghost function LoopHeight(c: Config, U: seq<string>, st: State, ports: string, flavor: Option<string>,
                            kind: Kind, depth: int, lines: seq<string>, i: nat): nat
    requires Closed(c.depends, U) && LinesIn(lines, U) && i <= |lines|
    decreases Remaining(U, st), 1, |lines| - i
  {
    if i == |lines| || |lines[i]| == 0 then 0
    else
      var dep := RStrip(lines[i]);
      Max(StepHeight(c, U, st, ports, flavor, kind, depth, dep),
          LoopHeight(c, U, Step(c, U, st, ports, flavor, kind, depth, dep), ports, flavor, kind, depth, lines, i + 1))
  }

  /** The nesting depth of the descent one line starts: 0 when `dep` was already visited. */
  ghost function StepHeight(c: Config, U: seq<string>, st: State, ports: string, flavor: Option<string>,
                            kind: Kind, depth: int, dep: string): nat
    requires Closed(c.depends, U) && dep in U
    decreases Remaining(U, st), 0, 0
  {
    var st1 := VisitLine(c, st, ports, kind, dep);
    RemainingMono(U, st, st1);
    if dep in st1.visited then 0
    else
      var st2 := Descend(c, st1, dep);
      RemainingShrinks(U, st1, st2, dep);
      Height(c, U, st2, dep, flavor, kind, depth - 1)
  }

  /** One turn of the loop: a non-empty line is one `Step`, and its descent competes with the rest for the deepest. */
  lemma LoopTurn(c: Config, U: seq<string>, st: State, ports: string, flavor: Option<string>,
                 kind: Kind, depth: int, lines: seq<string>, i: nat)
    requires Closed(c.depends, U) && LinesIn(lines, U) && i < |lines| && |lines[i]| > 0
    ensures RStrip(lines[i]) in U
    ensures var st1 := Step(c, U, st, ports, flavor, kind, depth, RStrip(lines[i]));
            && Loop(c, U, st, ports, flavor, kind, depth, lines, i) == Loop(c, U, st1, ports, flavor, kind, depth, lines, i + 1)
            && LoopHeight(c, U, st, ports, flavor, kind, depth, lines, i)
               == Max(StepHeight(c, U, st, ports, flavor, kind, depth, RStrip(lines[i])),
                      LoopHeight(c, U, st1, ports, flavor, kind, depth, lines, i + 1))
  {
  }

  /**
   * The nesting is 0 exactly at depth 0; from a depth `k > 0` it is at most
   * `k`; and at any depth, -1 included, it exceeds the number of unvisited
   * members of `U` by at most one.
   */
  lemma {:induction false} HeightBound(c: Config, U: seq<string>, st: State, ports: string,
                                       flavor: Option<string>, kind: Kind, depth: int)
    requires Closed(c.depends, U)
    ensures Height(c, U, st, ports, flavor, kind, depth) == 0 <==> depth == 0
    ensures depth > 0 ==> Height(c, U, st, ports, flavor, kind, depth) <= depth
    ensures Height(c, U, st, ports, flavor, kind, depth) <= Remaining(U, st) + 1
    decreases Remaining(U, st), 2, 0
  {
    if depth != 0 {
      var lines := DependsLines(c, ports, flavor, kind);
      LoopHeightBound(c, U, Enter(c, st, ports, flavor, kind), ports, flavor, kind, depth, lines, 0);
    }
  }

  lemma {:induction false} LoopHeightBound(c: Config, U: seq<string>, st: State, ports: string,
                                           flavor: Option<string>, kind: Kind, depth: int, lines: seq<string>, i: nat)
    requires Closed(c.depends, U) && LinesIn(lines, U) && i <= |lines|
    ensures depth > 0 ==> LoopHeight(c, U, st, ports, flavor, kind, depth, lines, i) < depth
    ensures LoopHeight(c, U, st, ports, flavor, kind, depth, lines, i) <= Remaining(U, st)
    decreases Remaining(U, st), 1, |lines| - i
  {
    if i < |lines| && |lines[i]| > 0 {
      var dep := RStrip(lines[i]);
      StepHeightBound(c, U, st, ports, flavor, kind, depth, dep);
      LoopHeightBound(c, U, Step(c, U, st, ports, flavor, kind, depth, dep), ports, flavor, kind, depth, lines, i + 1);
    }
  }

  lemma {:induction false} StepHeightBound(c: Config, U: seq<string>, st: State, ports: string,
                                           flavor: Option<string>, kind: Kind, depth: int, dep: string)
    requires Closed(c.depends, U) && dep in U
    ensures depth > 0 ==> StepHeight(c, U, st, ports, flavor, kind, depth, dep) < depth
    ensures StepHeight(c, U, st, ports, flavor, kind, depth, dep) <= Remaining(U, st)
    decreases Remaining(U, st), 0, 0
  {
    var st1 := VisitLine(c, st, ports, kind, dep);
    RemainingMono(U, st, st1);
    if dep !in st1.visited {
      var st2 := Descend(c, st1, dep);
      RemainingShrinks(U, st1, st2, dep);
      HeightBound(c, U, st2, dep, flavor, kind, depth - 1);
    }
  }

  /** One line of the loop: `ports` joins the visited list and the edge to `dep` is issued. */
  function VisitLine(c: Config, st: State, ports: string, kind: Kind, dep: string): (r: State)
    ensures r.visited == st.visited + [ports]
  {
    st.(visited := st.visited + [ports], edges := st.edges + EdgeFor(c, ports, kind, dep))
  }

  /** Before descending into `dep`: its node, then `dep` joins the visited list. */
  function Descend(c: Config, st: State, dep: string): (r: State)
    ensures r.visited == st.visited + [dep]
  {
    var st1 := AddNode(c, st, dep);
    st1.(visited := st1.visited + [dep], expanded := st1.expanded + [dep])
  }

  /** The build pass and then the run pass, each when requested, over one shared state. */
  ghost function Passes(c: Config, U: seq<string>, st: State, root: string, flavor: Option<string>,
                        build: bool, run: bool, depth: int): (r: State)
    requires Closed(c.depends, U)
    ensures Remaining(U, r) <= Remaining(U, st)
    ensures (!build && !run) || depth == 0 ==> r == st
  {
    var st1 := if build then Recurse(c, U, st, root, flavor, Build, depth) else st;
    if run then Recurse(c, U, st1, root, flavor, Run, depth) else st1
  }
}
