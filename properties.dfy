/**
 * What the traversal guarantees about the statements it issues, proved by
 * induction along `Recurse`, `Loop` and `Step`:
 *  - the package node and edges into it stay hidden unless asked for, nodes
 *    are styled as `_add_node` styles them, edges carry the colour of a
 *    requested pass;
 *  - every evaluator query is one the options ask for;
 *  - no dependency is descended into twice, across both passes;
 *  - a negative depth and any depth beyond the number of unseen ports give
 *    the same graph;
 *  - at depth 1 the edges are exactly one per output line of the root.
 */
module Properties {
  import opened Wrappers
  import opened Names
  import opened Traversal

  // ---------------------------------------------------------------
  // The invariant
  // ---------------------------------------------------------------

  /** A node statement as `_add_node` shapes it under `c`. */
  ghost predicate NodeOk(c: Config, n: Node)
  {
    && (n.name != Pkg || c.withPkg)
    && (n.url.Some? <==> c.url)
    && (n.color == "red" <==> n.style == "bold")
    && (n.color == "red" ==> c.abandoned)
  }

  /** `color` is the edge colour of one of the passes in `kinds`. */
  ghost predicate PassColor(kinds: set<Kind>, color: string)
  {
    (Build in kinds && color == Build.Color()) || (Run in kinds && color == Run.Color())
  }

  /** An edge statement: never into the hidden package, coloured by a requested pass. */
  ghost predicate EdgeOk(c: Config, kinds: set<Kind>, e: Edge)
  {
    (e.dst != Pkg || c.withPkg) && PassColor(kinds, e.color)
  }

  /** A maintainer query only with the abandoned check on; a depends-list query of a requested pass with the flavor argument. */
  ghost predicate QueryOk(c: Config, kinds: set<Kind>, flavor: Option<string>, q: Query)
  {
    match q
    case MaintainerQuery(_) => c.abandoned
    case DependsQuery(_, k, f) => k in kinds && f == FlavorArg(flavor)
  }

  ghost predicate NoDup(s: seq<string>)
  {
    forall i, j :: 0 <= i < j < |s| ==> s[i] != s[j]
  }

  /** Every statement and query so far is well formed, and each descent was into a new dependency. */
  ghost predicate Sound(c: Config, kinds: set<Kind>, flavor: Option<string>, st: State)
  {
    && (forall i :: 0 <= i < |st.nodes| ==> NodeOk(c, st.nodes[i]))
    && (forall i :: 0 <= i < |st.edges| ==> EdgeOk(c, kinds, st.edges[i]))
    && (forall i :: 0 <= i < |st.queries| ==> QueryOk(c, kinds, flavor, st.queries[i]))
    && NoDup(st.expanded)
    && (forall i :: 0 <= i < |st.expanded| ==> st.expanded[i] in st.visited)
  }

  lemma EmptySound(c: Config, kinds: set<Kind>, flavor: Option<string>)
    ensures Sound(c, kinds, flavor, Empty)
  {
  }

  // ---------------------------------------------------------------
  // The single steps keep it
  // ---------------------------------------------------------------

  lemma NodeForOk(c: Config, ports: string)
    requires Shown(c.withPkg, FullName2Port(ports))
    ensures NodeOk(c, NodeFor(c, ports))
  {
  }

  /** With the abandoned check off, the maintainer evaluator is never consulted: any other gives the same state. */
  lemma MaintainerUnused(c: Config, m: MaintainerOracle, st: State, ports: string)
    requires !c.abandoned
    ensures AddNode(c, st, ports) == AddNode(c.(maintainer := m), st, ports)
  {
  }

  lemma AddNodeSound(c: Config, kinds: set<Kind>, flavor: Option<string>, st: State, ports: string)
    requires Sound(c, kinds, flavor, st)
    ensures Sound(c, kinds, flavor, AddNode(c, st, ports))
  {
    var r := AddNode(c, st, ports);
    if Shown(c.withPkg, FullName2Port(ports)) {
      NodeForOk(c, ports);
      assert r.nodes == st.nodes + [NodeFor(c, ports)];
    } else {
      assert r.nodes == st.nodes;
    }
    if c.abandoned {
      assert r.queries == st.queries + [MaintainerQuery(FlavorName2Port(ports))];
    } else {
      assert r.queries == st.queries;
    }
  }

  lemma EnterSound(c: Config, kinds: set<Kind>, flavor: Option<string>, st: State,
                   ports: string, kind: Kind)
    requires kind in kinds && Sound(c, kinds, flavor, st)
    ensures Sound(c, kinds, flavor, Enter(c, st, ports, flavor, kind))
  {
    AddNodeSound(c, kinds, flavor, st, ports);
  }

  lemma VisitLineSound(c: Config, kinds: set<Kind>, flavor: Option<string>, st: State,
                       ports: string, kind: Kind, dep: string)
    requires kind in kinds && Sound(c, kinds, flavor, st)
    ensures Sound(c, kinds, flavor, VisitLine(c, st, ports, kind, dep))
  {
    var r := VisitLine(c, st, ports, kind, dep);
    forall i | 0 <= i < |r.expanded|
      ensures r.expanded[i] in r.visited
    {
      assert r.expanded[i] in st.visited;
    }
  }

  lemma DescendSound(c: Config, kinds: set<Kind>, flavor: Option<string>, st: State, dep: string)
    requires dep !in st.visited && Sound(c, kinds, flavor, st)
    ensures Sound(c, kinds, flavor, Descend(c, st, dep))
  {
    AddNodeSound(c, kinds, flavor, st, dep);
    var st1 := AddNode(c, st, dep);
    var r := Descend(c, st, dep);
    assert dep !in st1.expanded;
    forall i | 0 <= i < |r.expanded|
      ensures r.expanded[i] in r.visited
    {
      if i < |st1.expanded| {
        assert r.expanded[i] in st1.visited;
      }
    }
  }

  // ---------------------------------------------------------------
  // The traversal keeps it
  // ---------------------------------------------------------------

  lemma {:induction false} RecurseSound(c: Config, U: seq<string>, kinds: set<Kind>, st: State, ports: string,
                                        flavor: Option<string>, kind: Kind, depth: int)
    requires Closed(c.depends, U) && kind in kinds && Sound(c, kinds, flavor, st)
    ensures Sound(c, kinds, flavor, Recurse(c, U, st, ports, flavor, kind, depth))
    decreases Remaining(U, st), 2, 0
  {
    if depth != 0 {
      var lines := DependsLines(c, ports, flavor, kind);
      EnterSound(c, kinds, flavor, st, ports, kind);
      LoopSound(c, U, kinds, Enter(c, st, ports, flavor, kind), ports, flavor, kind, depth, lines, 0);
    }
  }

  lemma {:induction false} LoopSound(c: Config, U: seq<string>, kinds: set<Kind>, st: State, ports: string,
                                     flavor: Option<string>, kind: Kind, depth: int, lines: seq<string>, i: nat)
    requires Closed(c.depends, U) && LinesIn(lines, U) && i <= |lines|
    requires kind in kinds && Sound(c, kinds, flavor, st)
    ensures Sound(c, kinds, flavor, Loop(c, U, st, ports, flavor, kind, depth, lines, i))
    decreases Remaining(U, st), 1, |lines| - i
  {
    if i < |lines| && |lines[i]| > 0 {
      var st1 := Step(c, U, st, ports, flavor, kind, depth, RStrip(lines[i]));
      StepSound(c, U, kinds, st, ports, flavor, kind, depth, RStrip(lines[i]));
      LoopSound(c, U, kinds, st1, ports, flavor, kind, depth, lines, i + 1);
    }
  }

  lemma {:induction false} StepSound(c: Config, U: seq<string>, kinds: set<Kind>, st: State, ports: string,
                                     flavor: Option<string>, kind: Kind, depth: int, dep: string)
    requires Closed(c.depends, U) && dep in U
    requires kind in kinds && Sound(c, kinds, flavor, st)
    ensures Sound(c, kinds, flavor, Step(c, U, st, ports, flavor, kind, depth, dep))
    decreases Remaining(U, st), 0, 0
  {
    var st1 := VisitLine(c, st, ports, kind, dep);
    VisitLineSound(c, kinds, flavor, st, ports, kind, dep);
    if dep !in st1.visited {
      var st2 := Descend(c, st1, dep);
      DescendSound(c, kinds, flavor, st1, dep);
      RemainingShrinks(U, st, st2, dep);
      RecurseSound(c, U, kinds, st2, dep, flavor, kind, depth - 1);
    }
  }

  /** The passes `build_graph` runs. */
  function Requested(build: bool, run: bool): (kinds: set<Kind>)
    ensures Build in kinds <==> build
    ensures Run in kinds <==> run
  {
    (if build then {Build} else {}) + (if run then {Run} else {})
  }

  /**
   * A whole graph: the package stays hidden unless asked for, every node is
   * styled as `_add_node` styles it, every edge has the colour of a requested
   * pass, every query is one the options ask for, and no dependency is
   * descended into twice even though the run pass follows the build pass.
   */
  lemma PassesSound(c: Config, U: seq<string>, root: string, flavor: Option<string>,
                    build: bool, run: bool, depth: int)
    requires Closed(c.depends, U)
    ensures Sound(c, Requested(build, run), flavor, Passes(c, U, Empty, root, flavor, build, run, depth))
  {
    var kinds := Requested(build, run);
    EmptySound(c, kinds, flavor);
    var st1 := if build then Recurse(c, U, Empty, root, flavor, Build, depth) else Empty;
    if build {
      RecurseSound(c, U, kinds, Empty, root, flavor, Build, depth);
    }
    if run {
      RecurseSound(c, U, kinds, st1, root, flavor, Run, depth);
    }
  }

  // ---------------------------------------------------------------
  // Only appending
  // ---------------------------------------------------------------

  /** `r` extends every sequence of `st`. */
  ghost predicate Grows(st: State, r: State)
  {
    && st.nodes <= r.nodes
    && st.edges <= r.edges
    && st.visited <= r.visited
    && st.queries <= r.queries
    && st.expanded <= r.expanded
  }

  /** Transitivity of `Grows`, kept apart so that its callers' proofs stay small. */
  lemma GrowsTrans(a: State, b: State, d: State)
    requires Grows(a, b) && Grows(b, d)
    ensures Grows(a, d)
  {
  }

  /** The traversal only appends: statements, `all_ports`, queries and descents are never retracted. */
  lemma {:induction false} RecurseGrows(c: Config, U: seq<string>, st: State, ports: string,
                                        flavor: Option<string>, kind: Kind, depth: int)
    requires Closed(c.depends, U)
    ensures Grows(st, Recurse(c, U, st, ports, flavor, kind, depth))
    decreases Remaining(U, st), 2, 0
  {
    if depth != 0 {
      var lines := DependsLines(c, ports, flavor, kind);
      var st1 := Enter(c, st, ports, flavor, kind);
      LoopGrows(c, U, st1, ports, flavor, kind, depth, lines, 0);
      GrowsTrans(st, st1, Loop(c, U, st1, ports, flavor, kind, depth, lines, 0));
    }
  }

  lemma {:induction false} LoopGrows(c: Config, U: seq<string>, st: State, ports: string,
                                     flavor: Option<string>, kind: Kind, depth: int, lines: seq<string>, i: nat)
    requires Closed(c.depends, U) && LinesIn(lines, U) && i <= |lines|
    ensures Grows(st, Loop(c, U, st, ports, flavor, kind, depth, lines, i))
    decreases Remaining(U, st), 1, |lines| - i
  {
    if i < |lines| && |lines[i]| > 0 {
      var dep := RStrip(lines[i]);
      var st0 := VisitLine(c, st, ports, kind, dep);
      var st1 := Step(c, U, st, ports, flavor, kind, depth, dep);
      StepGrows(c, U, st, ports, flavor, kind, depth, dep);
      GrowsTrans(st, st0, st1);
      LoopGrows(c, U, st1, ports, flavor, kind, depth, lines, i + 1);
      GrowsTrans(st, st1, Loop(c, U, st1, ports, flavor, kind, depth, lines, i + 1));
    }
  }

  /**
   * A line's own effect comes first: `ports` joins `all_ports` and the edge to
   * `dep` is issued (whether or not `dep` was seen before), and anything the
   * descent adds comes after.
   */
  lemma {:induction false} StepGrows(c: Config, U: seq<string>, st: State, ports: string,
                                     flavor: Option<string>, kind: Kind, depth: int, dep: string)
    requires Closed(c.depends, U) && dep in U
    ensures Grows(VisitLine(c, st, ports, kind, dep), Step(c, U, st, ports, flavor, kind, depth, dep))
    decreases Remaining(U, st), 0, 0
  {
    var st1 := VisitLine(c, st, ports, kind, dep);
    if dep !in st1.visited {
      var st2 := Descend(c, st1, dep);
      RemainingShrinks(U, st, st2, dep);
      RecurseGrows(c, U, st2, dep, flavor, kind, depth - 1);
      GrowsTrans(st1, st2, Recurse(c, U, st2, dep, flavor, kind, depth - 1));
    }
  }

  // ---------------------------------------------------------------
  // Unlimited depth
  // ---------------------------------------------------------------

  /** `depth` never reaches 0 before the unseen ports run out. */
  ghost predicate Unlimited(U: seq<string>, st: State, depth: int)
  {
    depth < 0 || depth > Remaining(U, st)
  }

  /** Two unlimited depths give the same traversal; in particular any such depth behaves as -1. */
  lemma {:induction false} RecurseUnlimited(c: Config, U: seq<string>, st: State, ports: string,
                                            flavor: Option<string>, kind: Kind, d: int, e: int)
    requires Closed(c.depends, U) && Unlimited(U, st, d) && Unlimited(U, st, e)
    ensures Recurse(c, U, st, ports, flavor, kind, d) == Recurse(c, U, st, ports, flavor, kind, e)
    decreases Remaining(U, st), 2, 0
  {
    var lines := DependsLines(c, ports, flavor, kind);
    LoopUnlimited(c, U, Enter(c, st, ports, flavor, kind), ports, flavor, kind, d, e, lines, 0);
  }

  lemma {:induction false} LoopUnlimited(c: Config, U: seq<string>, st: State, ports: string,
                                         flavor: Option<string>, kind: Kind, d: int, e: int,
                                         lines: seq<string>, i: nat)
    requires Closed(c.depends, U) && LinesIn(lines, U) && i <= |lines|
    requires Unlimited(U, st, d) && Unlimited(U, st, e)
    ensures Loop(c, U, st, ports, flavor, kind, d, lines, i) == Loop(c, U, st, ports, flavor, kind, e, lines, i)
    decreases Remaining(U, st), 1, |lines| - i
  {
    if i < |lines| && |lines[i]| > 0 {
      var dep := RStrip(lines[i]);
      var st1 := Step(c, U, st, ports, flavor, kind, d, dep);
      StepUnlimited(c, U, st, ports, flavor, kind, d, e, dep);
      LoopUnlimited(c, U, st1, ports, flavor, kind, d, e, lines, i + 1);
    }
  }

  lemma {:induction false} StepUnlimited(c: Config, U: seq<string>, st: State, ports: string,
                                         flavor: Option<string>, kind: Kind, d: int, e: int, dep: string)
    requires Closed(c.depends, U) && dep in U
    requires Unlimited(U, st, d) && Unlimited(U, st, e)
    ensures Step(c, U, st, ports, flavor, kind, d, dep) == Step(c, U, st, ports, flavor, kind, e, dep)
    decreases Remaining(U, st), 0, 0
  {
    var st1 := VisitLine(c, st, ports, kind, dep);
    if dep !in st1.visited {
      var st2 := Descend(c, st1, dep);
      RemainingShrinks(U, st, st2, dep);
      RecurseUnlimited(c, U, st2, dep, flavor, kind, d - 1, e - 1);
      assert Step(c, U, st, ports, flavor, kind, d, dep) == Recurse(c, U, st2, dep, flavor, kind, d - 1);
      assert Step(c, U, st, ports, flavor, kind, e, dep) == Recurse(c, U, st2, dep, flavor, kind, e - 1);
    } else {
      assert Step(c, U, st, ports, flavor, kind, d, dep) == st1 == Step(c, U, st, ports, flavor, kind, e, dep);
    }
  }

  // ---------------------------------------------------------------
  // Depth 1
  // ---------------------------------------------------------------

  /** The edge statements of one level: one per output line up to the first empty one. */
  function LevelEdges(c: Config, ports: string, kind: Kind, lines: seq<string>, i: nat): seq<Edge>
    decreases |lines| - i
  {
    if i >= |lines| || |lines[i]| == 0 then []
    else EdgeFor(c, ports, kind, RStrip(lines[i])) + LevelEdges(c, ports, kind, lines, i + 1)
  }

  /** Associativity of edge concatenation, kept apart so that its callers' proofs stay small. */
  lemma AppendAssoc(a: seq<Edge>, b: seq<Edge>, d: seq<Edge>)
    ensures (a + b) + d == a + (b + d)
  {
  }

  /** `acc` followed by the edge statements of lines `i..`, accumulated from the left. */
  function LevelEdgesAfter(c: Config, ports: string, kind: Kind, acc: seq<Edge>, lines: seq<string>, i: nat): seq<Edge>
    decreases |lines| - i
  {
    if i >= |lines| || |lines[i]| == 0 then acc
    else LevelEdgesAfter(c, ports, kind, acc + EdgeFor(c, ports, kind, RStrip(lines[i])), lines, i + 1)
  }

  lemma {:induction false} LevelEdgesAfterIsAppend(c: Config, ports: string, kind: Kind, acc: seq<Edge>,
                                                   lines: seq<string>, i: nat)
    ensures LevelEdgesAfter(c, ports, kind, acc, lines, i) == acc + LevelEdges(c, ports, kind, lines, i)
    decreases |lines| - i
  {
    if i < |lines| && |lines[i]| > 0 {
      var e := EdgeFor(c, ports, kind, RStrip(lines[i]));
      LevelEdgesAfterIsAppend(c, ports, kind, acc + e, lines, i + 1);
      AppendAssoc(acc, e, LevelEdges(c, ports, kind, lines, i + 1));
    }
  }

  /** At depth 1 a line adds its edge and nothing deeper. */
  lemma StepDepthOne(c: Config, U: seq<string>, st: State, ports: string,
                     flavor: Option<string>, kind: Kind, depth: int, dep: string)
    requires Closed(c.depends, U) && dep in U && depth == 1
    ensures Step(c, U, st, ports, flavor, kind, depth, dep).edges == st.edges + EdgeFor(c, ports, kind, dep)
  {
    var st0 := VisitLine(c, st, ports, kind, dep);
    if dep !in st0.visited {
      var st2 := Descend(c, st0, dep);
      assert st2.edges == AddNode(c, st0, dep).edges == st0.edges;
      assert Recurse(c, U, st2, dep, flavor, kind, depth - 1) == st2;
    }
  }

  lemma {:induction false} LoopDepthOne(c: Config, U: seq<string>, st: State, ports: string,
                                        flavor: Option<string>, kind: Kind, depth: int,
                                        lines: seq<string>, i: nat)
    requires Closed(c.depends, U) && LinesIn(lines, U) && i <= |lines| && depth == 1
    ensures Loop(c, U, st, ports, flavor, kind, depth, lines, i).edges
            == LevelEdgesAfter(c, ports, kind, st.edges, lines, i)
    decreases |lines| - i
  {
    if i < |lines| && |lines[i]| > 0 {
      var st1 := Step(c, U, st, ports, flavor, kind, depth, RStrip(lines[i]));
      StepDepthOne(c, U, st, ports, flavor, kind, depth, RStrip(lines[i]));
      LoopDepthOne(c, U, st1, ports, flavor, kind, depth, lines, i + 1);
    }
  }

  /** With `-r 1` the graph gains one edge per dependency line of the root (unless hidden), in order, and no more. */
  lemma RecurseDepthOne(c: Config, U: seq<string>, st: State, ports: string, flavor: Option<string>, kind: Kind)
    requires Closed(c.depends, U)
    ensures Recurse(c, U, st, ports, flavor, kind, 1).edges
            == st.edges + LevelEdges(c, ports, kind, DependsLines(c, ports, flavor, kind), 0)
  {
    var lines := DependsLines(c, ports, flavor, kind);
    LoopDepthOne(c, U, Enter(c, st, ports, flavor, kind), ports, flavor, kind, 1, lines, 0);
    LevelEdgesAfterIsAppend(c, ports, kind, st.edges, lines, 0);
  }
}
