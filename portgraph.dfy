/**
 * The `Portgraph` object: its options, the graph statements it issues, and
 * the `all_ports` list it grows. Each method is proved to produce the state
 * that the corresponding function of `Traversal` describes.
 */
module Builder {
  import opened Wrappers
  import opened Names
  import opened Traversal

  class Portgraph {
    /** Stands for `make -C <dir> <kind>-depends-list -DDEPENDS_SHOW_FLAVOR [FLAVOR=<f>]`. */
    const depends: DependsOracle
    /** Stands for `make -C <dir> maintainer`. */
    const maintainer: MaintainerOracle
    /** The dependency strings the evaluator can name. */
    ghost const universe: seq<string>

    const localbase: string
    const flavor: Option<string>
    var port: string
    const withPkg: bool
    const recursion: int
    const url: bool
    const www: string
    const suffix: string
    const build: bool
    const run: bool
    const abandoned: bool

    /** Node and edge statements issued to the graph, in order. */
    var nodes: seq<Node>
    var edges: seq<Edge>
    /** `self.all_ports`. */
    var allPorts: seq<string>
    /** The evaluator invocations so far, and the dependency strings descended into. */
    ghost var queries: seq<Query>
    ghost var expanded: seq<string>

    ghost function Settings(): Config
    {
      Traversal.Config(withPkg, url, www, suffix, abandoned, depends, maintainer)
    }

    ghost function Model(): State
      reads this
    {
      Traversal.State(nodes, edges, allPorts, queries, expanded)
    }

    /** `Portgraph.__init__` on a fresh graph: `www` and `suffix` may be absent. */
    constructor (port: string, localbase: string, flavor: Option<string>, withPkg: bool,
                 recursion: int, www: Option<string>, suffix: Option<string>,
                 build: bool, run: bool, showIfAbandoned: bool,
                 depends: DependsOracle, maintainer: MaintainerOracle, ghost universe: seq<string>)
      requires Closed(depends, universe)
      ensures Closed(this.depends, this.universe)
      ensures this.port == port && this.localbase == localbase && this.flavor == flavor
      ensures this.recursion == recursion && this.build == build && this.run == run
      ensures this.depends == depends && this.maintainer == maintainer && this.universe == universe
      ensures Settings() == Traversal.Config(withPkg, www.Some?, if www.None? then "" else www.value,
                                           if suffix.None? then "" else suffix.value,
                                           showIfAbandoned, depends, maintainer)
      ensures Model() == Empty
    {
      this.depends := depends;
      this.maintainer := maintainer;
      this.universe := universe;
      this.localbase := localbase;
      this.flavor := flavor;
      this.port := port;
      this.withPkg := withPkg;
      this.recursion := recursion;
      this.url := www.Some?;
      this.www := if www.None? then "" else www.value;
      this.suffix := if suffix.None? then "" else suffix.value;
      this.build := build;
      this.run := run;
      this.abandoned := showIfAbandoned;
      this.nodes := [];
      this.edges := [];
      this.allPorts := [];
      this.queries := [];
      this.expanded := [];
    }

    /** `_add_node(ports)`. */
    method AddNode(ports: string)
      modifies this
      ensures Model() == Traversal.AddNode(Settings(), old(Model()), ports)
      ensures port == old(port)
    {
      var portname := FlavorName2Port(ports);
      var nodeUrl: Option<string> := None;
      if url {
        nodeUrl := Some(www + FullName2Port(portname) + suffix);
      }
      var nodeColor := "black";
      var nodeStyle := "filled";
      if abandoned {
        queries := queries + [MaintainerQuery(portname)];
        var m := RStrip(maintainer(portname));
        if m == Unmaintained {
          nodeColor := "red";
          nodeStyle := "bold";
        }
      }
      var name := FullName2Port(ports);
      if Shown(withPkg, name) {
        nodes := nodes + [Node(name, nodeUrl, nodeColor, nodeStyle)];
      }
    }

    /**
     * `_recurseports(ports, flavor, kind, maxRecurse)`. The ghost `height` is
     * how deep the calls that get past the depth test nest, this one included.
     */
    method RecursePorts(ports: string, flavor: Option<string>, kind: Kind, maxRecurse: int)
      returns (ghost height: nat)
      requires Closed(depends, universe)
      modifies this
      ensures Model() == Recurse(Settings(), universe, old(Model()), ports, flavor, kind, maxRecurse)
      ensures height == Height(Settings(), universe, old(Model()), ports, flavor, kind, maxRecurse)
      ensures port == old(port)
      ensures height == 0 <==> maxRecurse == 0
      ensures maxRecurse > 0 ==> height <= maxRecurse
      decreases Remaining(universe, Model()), 3
    {
      HeightBound(Settings(), universe, old(Model()), ports, flavor, kind, maxRecurse);
      if maxRecurse == 0 {
        return 0;
      }
      var portname := FlavorName2Port(ports);
      AddNode(ports);
      var flavorArg := FlavorArg(flavor);
      var lines := depends(kind, portname, flavorArg);
      queries := queries + [DependsQuery(portname, kind, flavorArg)];
      assert Model() == Enter(Settings(), old(Model()), ports, flavor, kind);
      assert LinesIn(lines, universe);
      var deepest := FollowLines(ports, flavor, kind, maxRecurse, lines);
      height := 1 + deepest;
    }

    /**
     * The `while True` loop of `_recurseports` over the output `lines` of the
     * depends-list query, up to end of output. The ghost `deepest` is the
     * nesting depth of the deepest descent it starts.
     */
    method FollowLines(ports: string, flavor: Option<string>, kind: Kind, maxRecurse: int, lines: seq<string>)
      returns (ghost deepest: nat)
      requires Closed(depends, universe) && LinesIn(lines, universe)
      modifies this
      ensures Model() == Loop(Settings(), universe, old(Model()), ports, flavor, kind, maxRecurse, lines, 0)
      ensures deepest == LoopHeight(Settings(), universe, old(Model()), ports, flavor, kind, maxRecurse, lines, 0)
      ensures port == old(port)
      decreases Remaining(universe, Model()), 2
    {
      ghost var target := Loop(Settings(), universe, Model(), ports, flavor, kind, maxRecurse, lines, 0);
      ghost var total := LoopHeight(Settings(), universe, Model(), ports, flavor, kind, maxRecurse, lines, 0);
      deepest := 0;
      var i := 0;
      while i < |lines|
        invariant 0 <= i <= |lines|
        invariant Loop(Settings(), universe, Model(), ports, flavor, kind, maxRecurse, lines, i) == target
        invariant Max(deepest, LoopHeight(Settings(), universe, Model(), ports, flavor, kind, maxRecurse, lines, i)) == total
        invariant Remaining(universe, Model()) <= Remaining(universe, old(Model()))
        invariant port == old(port)
        decreases |lines| - i
      {
        var line := lines[i];
        if |line| == 0 {
          break;
        }
        LoopTurn(Settings(), universe, Model(), ports, flavor, kind, maxRecurse, lines, i);
        var k := FollowLine(ports, flavor, kind, maxRecurse, RStrip(line));
        deepest := Max(deepest, k);
        i := i + 1;
      }
    }

    /**
     * The body of the `while True` loop of `_recurseports` for one output
     * line, already rstripped to `depPort`. The ghost `height` is the nesting
     * depth of the descent it starts (0 when there is none).
     */
    method FollowLine(ports: string, flavor: Option<string>, kind: Kind, maxRecurse: int, depPort: string)
      returns (ghost height: nat)
      requires Closed(depends, universe) && depPort in universe
      modifies this
      ensures Model() == Step(Settings(), universe, old(Model()), ports, flavor, kind, maxRecurse, depPort)
      ensures height == StepHeight(Settings(), universe, old(Model()), ports, flavor, kind, maxRecurse, depPort)
      ensures port == old(port)
      ensures maxRecurse > 0 ==> height < maxRecurse
      decreases Remaining(universe, Model()), 1
    {
      StepHeightBound(Settings(), universe, old(Model()), ports, flavor, kind, maxRecurse, depPort);
      RecordLine(ports, kind, depPort);
      height := 0;
      if depPort !in allPorts {
        RemainingMono(universe, old(Model()), Model());
        height := Expand(flavor, kind, maxRecurse, depPort);
      }
    }

    /** The first half of the loop body: `ports` joins `all_ports`, then the edge unless its target is hidden. */
    method RecordLine(ports: string, kind: Kind, depPort: string)
      modifies this
      ensures Model() == VisitLine(Settings(), old(Model()), ports, kind, depPort)
      ensures port == old(port)
    {
      allPorts := allPorts + [ports];
      var name := FullName2Port(ports);
      var depName := FullName2Port(depPort);
      if Shown(withPkg, depName) {
        edges := edges + [Edge(name, depName, kind.Color())];
      }
    }

    /**
     * Descending into a dependency not seen before: its node, then it joins
     * `all_ports`, then `_recurseports` one level deeper.
     */
    method Expand(flavor: Option<string>, kind: Kind, maxRecurse: int, depPort: string)
      returns (ghost height: nat)
      requires Closed(depends, universe) && depPort in universe && depPort !in allPorts
      modifies this
      ensures Model() == Recurse(Settings(), universe, Descend(Settings(), old(Model()), depPort),
                                 depPort, flavor, kind, maxRecurse - 1)
      ensures height == Height(Settings(), universe, Descend(Settings(), old(Model()), depPort),
                               depPort, flavor, kind, maxRecurse - 1)
      ensures port == old(port)
      ensures maxRecurse > 0 ==> height < maxRecurse
      decreases Remaining(universe, Model()), 0
    {
      AddNode(depPort);
      allPorts := allPorts + [depPort];
      expanded := expanded + [depPort];
      RemainingShrinks(universe, old(Model()), Model(), depPort);
      height := RecursePorts(depPort, flavor, kind, maxRecurse - 1);
    }

    /** `build_graph`: add the flavor to the port once, then run the requested passes. */
    method BuildGraph()
      requires Closed(depends, universe)
      modifies this
      ensures port == WithFlavor(old(port), flavor)
      ensures Model() == Passes(Settings(), universe, old(Model()), PathJoin(localbase, port),
                                flavor, build, run, recursion)
    {
      if Truthy(flavor) {
        port := port + "@" + flavor.value;
      }
      if build {
        ghost var h := RecursePorts(PathJoin(localbase, port), flavor, Build, recursion);
      }
      if run {
        ghost var h := RecursePorts(PathJoin(localbase, port), flavor, Run, recursion);
      }
    }
  }

  /**
   * `graph4port` without the rendering: the output location and the node and
   * edge statements of the graph built for one port.
   */
  method Graph4Port(port: string, localbase: string, flavor: Option<string>, withPkg: bool,
                    recursion: int, www: Option<string>, suffix: Option<string>,
                    build: bool, run: bool, abandoned: bool,
                    depends: DependsOracle, maintainer: MaintainerOracle, ghost universe: seq<string>)
    returns (output: OutputName, nodes: seq<Node>, edges: seq<Edge>)
    requires Closed(depends, universe)
    ensures output == GraphNames(port, flavor)
    ensures var c := Traversal.Config(withPkg, www.Some?, if www.None? then "" else www.value,
                                      if suffix.None? then "" else suffix.value,
                                      abandoned, depends, maintainer);
            var r := Passes(c, universe, Empty, PathJoin(localbase, WithFlavor(port, flavor)),
                            flavor, build, run, recursion);
            nodes == r.nodes && edges == r.edges
  {
    output := GraphNames(port, flavor);
    var graph := new Portgraph(port, localbase, flavor, withPkg, recursion, www, suffix,
                               build, run, abandoned, depends, maintainer, universe);
    graph.BuildGraph();
    nodes := graph.nodes;
    edges := graph.edges;
  }
}
