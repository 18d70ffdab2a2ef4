# portgraph, modelled in Dafny

portgraph draws the dependency graph of one FreeBSD port. It asks the ports
tree's `make` for the build or run dependencies of a port directory
(`make -C <dir> build-depends-list -DDEPENDS_SHOW_FLAVOR`) and issues node and
coloured edge statements to a graphviz `Digraph`. Entering a port issues its
node. Each output line issues an edge from the port to the dependency, unless
the dependency is the hidden `ports-mgmt/pkg` (lines 138-141). A dependency
string not seen before gets a node statement (line 143) and is then recursed
into, which issues its node a second time (line 117), optionally up to a depth
limit. `ports-mgmt/pkg` gets no node statement unless it is asked for. This project models that
builder: the `Portgraph` class with `_fullname2port`, `_flavorname2port`,
`_add_node`, `_recurseports` and `build_graph`; the output naming of
`graph4port`; and `main`'s rule that picks the build pass by default.

Modules:

- `Wrappers` (`wrappers.dfy`): `Option`.
- `Names` (`names.dfy`): the pure string functions. These are `split`/`join` on `/`,
  `_fullname2port` (the last two path segments), `_flavorname2port` (cut at the
  last `@`), Python's `rstrip`, `rfind` and `find`, `os.path.join`, the
  `graph4port` category/name split, and the pass defaulting of `main`.
- `Traversal` (`traversal.dfy`): the traversal stated on values. A `State` holds:
  - the node statements and edge statements issued so far;
  - `all_ports`;
  - the log of `make` invocations;
  - the dependency strings descended into.

  `Recurse`, `Loop` and `Step` are `_recurseports`, its `while True` loop and
  one loop iteration. `Passes` is the two passes of `build_graph`.
- `Builder` (`portgraph.dfy`): `class Portgraph` with `seq` fields that its
  methods append to in place. Each method's postcondition ties the new object
  state to the `Traversal` function of the old state. `Graph4Port` builds one
  object and runs `BuildGraph`.
- `Properties` (`properties.dfy`): what the traversal guarantees, proved by
  induction along `Recurse`/`Loop`/`Step`:
  - statement well-formedness and the hidden package;
  - at most one descent per dependency string, across both passes;
  - the monotone growth of all lists;
  - unlimited depth;
  - the edges at depth 1.
- `Scenario` (`scenario.dfy`): one complete traversal over a concrete
  evaluator. `editors/foo` needs `devel/bar`, which needs `ports-mgmt/pkg`,
  which needs `devel/baz`.

The external `make` calls are parameters of the model:

- `DependsOracle` gives the raw output lines of the depends-list call for a (pass, flavor-stripped directory, flavor argument).
  - The first empty line plays the role of `readline()` returning `""`, which is end of output.
- `MaintainerOracle` gives the first output line of `make -C <dir> maintainer`.

Termination of the unlimited traversal (depth `-1`) rests on a ghost list
`U`. The evaluator never names a dependency outside `U` (`Closed`). Every
descent visits an entry of `U` that was not visited before, so the number of
unvisited entries drops.

Behaviour of the code worth noting, which the model keeps:

- `_flavorname2port` cuts at the last `@` (`rfind`), not the first.
- The flavor stays in node and edge names. Both come from `_fullname2port` of the flavored string.
- A depth of 0 issues nothing, not even the root's node.
- The build and run passes share one `all_ports` list, created at line 36 and never reset. A dependency expanded by the build pass is not expanded again by the run pass.
- Node statements repeat: line 143 issues one for a dependency before the descent, and line 117 another on entering it (`Scenario.FooGraph`).
- The maintainer query runs before the check that hides `ports-mgmt/pkg`, so it is issued for the hidden package too.
- Only edges *into* the hidden package are dropped. Its own dependencies are still traversed, and edges out of it are issued (`Scenario.FooGraph`).

## Model

| member | source | states |
|---|---|---|
| Names.Split | portgraph/portgraph.py:50 | `str.split('/')` has at least one part and no part contains the separator |
| Names.JoinSplit | portgraph/portgraph.py:50 | joining the parts of a split with `/` gives back the string |
| Names.SplitJoin | portgraph/portgraph.py:50 | splitting a join of separator-free parts gives back the parts |
| Names.SplitAround | portgraph/portgraph.py:50 | splitting `a/b` gives the parts of `a` followed by the parts of `b` |
| Names.Join | portgraph/portgraph.py:50 | `'/'.join(parts)`: the parts with one separator between neighbours (its round trips are `JoinSplit` and `SplitJoin`) |
| Names.LastTwo | portgraph/portgraph.py:50 | the slice `[-2:]` keeps the last `min(2, n)` parts, in order |
| Names.FullName2Port | portgraph/portgraph.py:46-50 | `_fullname2port`: the join of the last two segments; what that means is stated by the four lemmas below |
| Names.FullName2PortSegments | portgraph/portgraph.py:46-50 | the segments of `_fullname2port(name)` are the last at most two segments of `name`; there are one or two of them |
| Names.FullName2PortShort | portgraph/portgraph.py:46-50 | a name with at most two segments is returned unchanged |
| Names.FullName2PortIdempotent | portgraph/portgraph.py:46-50 | applying `_fullname2port` twice equals applying it once |
| Names.FullName2PortOfPair | portgraph/portgraph.py:46-50 | `category/port` with separator-free parts splits into exactly those two parts and is its own canonical name |
| Names.RFind | portgraph/portgraph.py:55 | `rfind` returns -1 exactly when the character is absent, otherwise an index holding it with no later occurrence |
| Names.FlavorName2Port | portgraph/portgraph.py:53-59 | the result is a prefix of the input; the whole input when it has no `@`; otherwise the text before the last `@` |
| Names.FlavorRoundTrip | portgraph/portgraph.py:53-59 | stripping the flavor of `port@flavor` (flavor without `@`) gives back `port`, even if `port` itself contains `@` |
| Names.IsSpace | portgraph/portgraph.py:133 | the characters `str.isspace` accepts, which `rstrip()` drops |
| Names.RStrip | portgraph/portgraph.py:133 | `rstrip()` returns a prefix of its input that does not end in whitespace, and everything it drops is whitespace |
| Names.PathJoin | portgraph/portgraph.py:66-67 | `os.path.join(a, b)`: an absolute `b` is the result; otherwise the result extends `a` by `b`, with a `/` between them exactly when `a` is non-empty and does not already end in one |
| Names.RootName | portgraph/portgraph.py:66-67 | the canonical name of `os.path.join(localbase, port)` is `port` when `port` is `category/name` |
| Names.Truthy | portgraph/portgraph.py:62-63 | Python's truth test on the optional flavor: present and non-empty |
| Names.WithFlavor | portgraph/portgraph.py:206-207 | `name + "@" + flavor` for a truthy flavor, `name` otherwise; stripping the flavor again gives `name` back when the flavor has no `@` |
| Names.Find | portgraph/portgraph.py:204-205 | `find` returns -1 exactly when the character is absent, otherwise its first index |
| Names.GraphNames | portgraph/portgraph.py:204-207 | with a `/`: category is the text before the first `/`, name the text after it plus `@flavor` when a flavor is set; without one: category is the port minus its last character, name the whole port (plus `@flavor`) |
| Names.DefaultPasses | portgraph/portgraph.py:308-309 | at least one pass is selected; the flags are kept when either was given; the build pass alone otherwise |
| Traversal.Kind.Target | portgraph/portgraph.py:69-76 | the make target prefix of a pass: `build` for the build pass, `run` for the run pass |
| Traversal.Kind.Color | portgraph/portgraph.py:69-76 | the edge colour of a pass: build edges are `#009999`, run edges `#990000` |
| Traversal.KindsDiffer | portgraph/portgraph.py:69-76 | the two passes have different targets and different colours, so each colour identifies its pass |
| Traversal.Argv | portgraph/portgraph.py:119-129 | a query's command line: `make -C <dir>`, then `maintainer`, or `<kind>-depends-list -DDEPENDS_SHOW_FLAVOR` and `FLAVOR=<f>` exactly when a flavor argument is passed |
| Traversal.ArgvInjective | portgraph/portgraph.py:119-129 | distinct evaluator queries have distinct command lines, so the query log determines the `make` invocations |
| Traversal.FlavorArg | portgraph/portgraph.py:127 | `FLAVOR=<f>` is passed exactly when the flavor is non-empty, and then it is that flavor |
| Traversal.Shown | portgraph/portgraph.py:98-99 | the suppression test `name != pkg or (name == pkg and with_pkg)` holds exactly when `name != pkg or with_pkg` |
| Traversal.DependsLines | portgraph/portgraph.py:119-131 | the output lines of the depends-list query for the flavor-stripped directory, the pass and the flavor argument |
| Traversal.NodeFor | portgraph/portgraph.py:80-104 | the node is named `_fullname2port(ports)`; red exactly when the abandoned check is on and the rstripped maintainer is `ports@FreeBSD.org`, else black; bold exactly when red, else filled; a URL `www + _fullname2port(stripped) + suffix` exactly when `www` was given |
| Traversal.AddNode | portgraph/portgraph.py:80-106 | edges and `all_ports` are untouched; one node, `NodeFor(ports)`, is appended exactly when its name is not the hidden package; one maintainer query for the flavor-stripped directory is appended exactly when the abandoned check is on, whether or not the node is hidden |
| Traversal.EdgeFor | portgraph/portgraph.py:135-141 | at most one edge, present exactly when the dependency's canonical name is not `ports-mgmt/pkg` or the package is shown, from the canonical current name to the canonical dependency name in the pass colour |
| Traversal.Recurse | portgraph/portgraph.py:108-110 | at depth 0 the state is unchanged: no node, no edge, no query; the unvisited count never grows |
| Traversal.Loop | portgraph/portgraph.py:130-147 | the `while True` loop from line `i` on: it stops at end of output and handles each line by `Step`; the unvisited count never grows |
| Traversal.Step | portgraph/portgraph.py:132-145 | one line: `VisitLine`, then, when the dependency is not in `all_ports`, `Descend` and the recursion one level deeper; the unvisited count never grows |
| Traversal.Enter | portgraph/portgraph.py:115-129 | entering a port does not touch `all_ports` |
| Traversal.VisitLine | portgraph/portgraph.py:133-141 | each output line appends the current port to `all_ports` |
| Traversal.Descend | portgraph/portgraph.py:142-144 | a descent appends the dependency to `all_ports` |
| Traversal.Passes | portgraph/portgraph.py:64-78 | the build pass and then the run pass, each when requested, over one shared state; with no pass requested, or at depth 0, nothing changes |
| Traversal.HeightBound | portgraph/portgraph.py:108-145 | the nesting depth `Height` of `_recurseports` calls is 0 exactly at depth 0, at most `k` from a depth `k > 0`, and at most one more than the number of unvisited ports at any depth, -1 included |
| Traversal.LoopHeightBound | portgraph/portgraph.py:130-147 | the deepest descent of the loop is less than `k` from a depth `k > 0`, and at most the number of unvisited ports |
| Traversal.StepHeightBound | portgraph/portgraph.py:142-145 | the descent of one line is less than `k` deep from a depth `k > 0`, and at most the number of unvisited ports deep |
| Traversal.UnseenShrinks | portgraph/portgraph.py:142-145 | appending a not-yet-visited member of `U` strictly lowers the unvisited count, which is what bounds the recursion |
| Traversal.UnseenMono | portgraph/portgraph.py:134-144 | growing `all_ports` never raises the unvisited count |
| Builder.Portgraph.constructor | portgraph/portgraph.py:11-40 | options are stored, a missing `www` or `suffix` becomes `""` and `url` records whether `www` was given; the graph and `all_ports` start empty |
| Builder.Portgraph.AddNode | portgraph/portgraph.py:80-106 | the object's graph, `all_ports` and query log become `Traversal.AddNode` of the old ones |
| Builder.Portgraph.RecursePorts | portgraph/portgraph.py:108-147 | the object's new state is `Traversal.Recurse` of the old one, and the ghost `height` is `Traversal.Height` of it: the calls nest 0 deep exactly at depth 0, and at most `k` deep from a depth `k > 0` |
| Builder.Portgraph.FollowLines | portgraph/portgraph.py:130-147 | the `while True` loop takes the object to `Traversal.Loop` of its old state; its ghost `deepest` is `Traversal.LoopHeight` |
| Builder.Portgraph.FollowLine | portgraph/portgraph.py:133-145 | one loop iteration takes the object to `Traversal.Step` of its old state, with `Traversal.StepHeight` as its nesting depth; starting from `k > 0`, the nested recursion is less than `k` deep |
| Builder.Portgraph.RecordLine | portgraph/portgraph.py:133-141 | the current port joins `all_ports` and the edge is issued unless its target is hidden, as `Traversal.VisitLine` |
| Builder.Portgraph.Expand | portgraph/portgraph.py:143-145 | node, `all_ports` append and recursive call with the depth minus one, as `Traversal.Descend` then `Traversal.Recurse`, nesting `Traversal.Height` deep |
| Builder.Portgraph.BuildGraph | portgraph/portgraph.py:61-78 | the port gets `@flavor` once when a flavor is set; then the build pass and then the run pass, each when requested, over the shared state (`Traversal.Passes`) |
| Builder.Graph4Port | portgraph/portgraph.py:190-224 | the output directory and file name are `GraphNames`; the statements are those of `Passes` from the empty graph on `localbase/port[@flavor]` |
| Properties.MaintainerUnused | portgraph/portgraph.py:89-96 | with the abandoned check off, the maintainer evaluator is never consulted: any other evaluator gives the same state |
| Properties.AddNodeSound | portgraph/portgraph.py:80-106 | `_add_node` keeps the invariant: every node is shown, styled consistently and carries a URL exactly when `www` was given; every maintainer query happens with the check on |
| Properties.EnterSound | portgraph/portgraph.py:115-129 | the depends-list query is of the current pass with the pass-wide flavor argument |
| Properties.VisitLineSound | portgraph/portgraph.py:133-141 | every issued edge avoids the hidden package and carries the colour of a requested pass |
| Properties.DescendSound | portgraph/portgraph.py:142-144 | a descent is into a dependency not in `all_ports`, so no string is descended into twice |
| Properties.RecurseSound | portgraph/portgraph.py:108-147 | `_recurseports` preserves the invariant, including at most one descent per dependency string |
| Properties.LoopSound | portgraph/portgraph.py:130-147 | the loop over the output lines preserves the invariant |
| Properties.StepSound | portgraph/portgraph.py:132-145 | one line of the loop preserves the invariant |
| Properties.Requested | portgraph/portgraph.py:64-78 | the passes run are exactly those whose flag is set |
| Properties.PassesSound | portgraph/portgraph.py:61-78 | from a fresh object, both passes together issue only well-formed statements and queries of the requested passes, and no dependency is expanded twice even across the build and the run pass |
| Properties.GrowsTrans | portgraph/portgraph.py:134-144 | the "only appends" relation between states is transitive |
| Properties.RecurseGrows | portgraph/portgraph.py:108-147 | `_recurseports` only appends: the old nodes, edges, `all_ports`, queries and descents are prefixes of the new ones |
| Properties.LoopGrows | portgraph/portgraph.py:130-147 | the loop only appends |
| Properties.StepGrows | portgraph/portgraph.py:132-145 | after the line's own `all_ports` append and edge, the rest of the step only appends |
| Properties.RecurseUnlimited | portgraph/portgraph.py:108-145 | a negative depth, which decrementing never brings to 0, gives the same graph as any depth larger than the number of unvisited ports |
| Properties.LoopUnlimited | portgraph/portgraph.py:130-147 | the same for the loop |
| Properties.StepUnlimited | portgraph/portgraph.py:132-145 | the same for one line |
| Properties.LevelEdgesAfterIsAppend | portgraph/portgraph.py:130-141 | the accumulated edges of a level are the edges before it followed by one `EdgeFor` per output line |
| Properties.StepDepthOne | portgraph/portgraph.py:133-145 | at depth 1 a line adds only its own edge: the descent stops at depth 0 |
| Properties.LoopDepthOne | portgraph/portgraph.py:130-147 | at depth 1 the loop adds one edge per output line, in output order, up to end of output, including lines naming already visited ports |
| Properties.RecurseDepthOne | portgraph/portgraph.py:108-147 | at depth 1 the edges issued are exactly one per output line of the root, in order, except those into the hidden package |
| Scenario.SingleLine | portgraph/portgraph.py:130-147 | a directory with one output line does exactly one loop iteration |
| Scenario.FooGraph | portgraph/portgraph.py:61-147 | for `editors/foo` under `/usr/ports`: nodes `foo, bar, bar, baz, baz` (the package node hidden), edges `foo→bar` and `pkg→baz` (the edge into the package dropped) |

## Left out

- The `subprocess.Popen` calls to `make`, the reading of their output and its UTF-8 decoding are replaced by the two evaluator parameters. A failing `make`, an exception from `Popen` and undecodable output are not modelled.
- graphviz: the `Digraph` is the two statement sequences. The graph and node attributes set at lines 41-43 and 208-209, and the rendering (line 227), are not modelled.
- `graph4allports`'s directory scan with `os.scandir` and its `os.makedirs` calls are filesystem I/O. They are not part of this model. `graph4port`'s `os.makedirs` is left out too.
- `argparse` in `main` is left out; only its build/run defaulting rule is modelled. The verbose `print` at lines 112-113 is left out.
- `setup.py` is packaging metadata and is not part of this model.
- `os.sep` is fixed to `/`. `os.path.join` is modelled for relative second arguments and for absolute ones, which replace the first.
- Python's `rstrip()` whitespace set is written out for the ASCII and Unicode space characters. No other Unicode handling is modelled.
- The nesting depth of `_recurseports` calls is a ghost out-parameter of the methods. Python's own recursion limit is not modelled.
- `main` strips a trailing separator from `localbase` (lines 313 and 328). That step is not modelled; `localbase` is taken as given.
