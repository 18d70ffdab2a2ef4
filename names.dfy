/**
 * The string arithmetic of portgraph: how a dependency path becomes a
 * `category/name` node name, how a flavor suffix is dropped, how the
 * root path is formed, and how `graph4port` names its output.
 * The path separator is fixed to '/'.
 */
module Names {
  import opened Wrappers

  const Sep: char := '/'

  // ---------------------------------------------------------------
  // str.split('/') and '/'.join(...)
  // ---------------------------------------------------------------

  /** The segments of `s` between separators, as Python's `s.split('/')`. */
  function Split(s: string): (parts: seq<string>)
    ensures |parts| >= 1
    ensures forall i :: 0 <= i < |parts| ==> Sep !in parts[i]
    decreases |s|
  {
    if |s| == 0 then [[]]
    else
      var rest := Split(s[1..]);
      if s[0] == Sep then [[]] + rest
      else [[s[0]] + rest[0]] + rest[1..]
  }

  /** The segments glued back with separators, as Python's `'/'.join(parts)`. */
  function Join(parts: seq<string>): string
  {
    if |parts| == 0 then []
    else if |parts| == 1 then parts[0]
    else parts[0] + [Sep] + Join(parts[1..])
  }

  /** Joining the segments of a string gives the string back. */
  lemma {:induction false} JoinSplit(s: string)
    ensures Join(Split(s)) == s
    decreases |s|
  {
    if |s| > 0 {
      JoinSplit(s[1..]);
      var rest := Split(s[1..]);
      if s[0] != Sep && |rest| > 1 {
        var parts := [[s[0]] + rest[0]] + rest[1..];
        assert Split(s) == parts;
        assert parts[0] == [s[0]] + rest[0] && parts[1..] == rest[1..];
        assert Join(rest) == rest[0] + [Sep] + Join(rest[1..]);
        assert s == [s[0]] + s[1..];
      }
    }
  }

  /** A string without separators is a single segment. */
  lemma {:induction false} SplitNoSep(a: string)
    requires Sep !in a
    ensures Split(a) == [a]
    decreases |a|
  {
    if |a| > 0 {
      assert forall k :: 0 <= k < |a[1..]| ==> a[1..][k] == a[k + 1];
      SplitNoSep(a[1..]);
      assert [a[0]] + a[1..] == a;
    }
  }

  /** Splitting distributes over a separator: `(a + '/' + b).split('/') == a.split('/') + b.split('/')`. */
  lemma {:induction false} SplitAround(a: string, b: string)
    ensures Split(a + [Sep] + b) == Split(a) + Split(b)
    decreases |a|
  {
    var s := a + [Sep] + b;
    if |a| == 0 {
      assert s[1..] == b;
    } else {
      assert s[1..] == a[1..] + [Sep] + b;
      SplitAround(a[1..], b);
    }
  }

  /** Splitting a joined list of separator-free segments gives the list back. */
  lemma {:induction false} SplitJoin(parts: seq<string>)
    requires |parts| >= 1
    requires forall i :: 0 <= i < |parts| ==> Sep !in parts[i]
    ensures Split(Join(parts)) == parts
    decreases |parts|
  {
    SplitNoSep(parts[0]);
    if |parts| > 1 {
      SplitJoin(parts[1..]);
      SplitAround(parts[0], Join(parts[1..]));
      assert [parts[0]] + parts[1..] == parts;
    }
  }

  // ---------------------------------------------------------------
  // Portgraph._fullname2port
  // ---------------------------------------------------------------

  /** Python's `parts[-2:]`: the last two elements, or all of them when there are fewer. */
  function LastTwo(parts: seq<string>): (r: seq<string>)
    ensures |r| == if |parts| <= 2 then |parts| else 2
    ensures forall i :: 0 <= i < |r| ==> r[i] == parts[|parts| - |r| + i]
  {
    if |parts| <= 2 then parts else parts[|parts| - 2..]
  }

  /** The `category/name` part of a path: its last two segments. */
  function FullName2Port(name: string): string
  {
    Join(LastTwo(Split(name)))
  }

  /** The segments of the result are the last (at most) two segments of the input. */
  lemma FullName2PortSegments(name: string)
    ensures Split(FullName2Port(name)) == LastTwo(Split(name))
    ensures 1 <= |Split(FullName2Port(name))| <= 2
  {
    SplitJoin(LastTwo(Split(name)));
  }

  /** A name of at most two segments is returned unchanged. */
  lemma FullName2PortShort(name: string)
    requires |Split(name)| <= 2
    ensures FullName2Port(name) == name
  {
    JoinSplit(name);
  }

  /** Canonicalisation is idempotent. */
  lemma FullName2PortIdempotent(name: string)
    ensures FullName2Port(FullName2Port(name)) == FullName2Port(name)
  {
    FullName2PortSegments(name);
    FullName2PortShort(FullName2Port(name));
  }

  /** A category and a name without separators form a name that is already canonical. */
  lemma FullName2PortOfPair(category: string, port: string)
    requires Sep !in category && Sep !in port
    ensures Split(category + [Sep] + port) == [category, port]
    ensures FullName2Port(category + [Sep] + port) == category + [Sep] + port
  {
    SplitAround(category, port);
    SplitNoSep(category);
    SplitNoSep(port);
    FullName2PortShort(category + [Sep] + port);
  }

  // ---------------------------------------------------------------
  // Portgraph._flavorname2port
  // ---------------------------------------------------------------

  /** Python's `s.rfind(c)`: the last index of `c` in `s`, or -1. */
  function RFind(s: string, c: char): (k: int)
    ensures -1 <= k < |s|
    ensures k == -1 <==> c !in s
    ensures k >= 0 ==> s[k] == c && c !in s[k + 1..]
    decreases |s|
  {
    if |s| == 0 then -1
    else if s[|s| - 1] == c then |s| - 1
    else
      var k := RFind(s[..|s| - 1], c);
      assert s == s[..|s| - 1] + [s[|s| - 1]];
      if k >= 0 then assert s[k + 1..] == s[..|s| - 1][k + 1..] + [s[|s| - 1]]; k
      else k
  }

  /** The name without its `@flavor` suffix: everything before the LAST '@'. */
  function FlavorName2Port(flavorname: string): (r: string)
    ensures r <= flavorname
    ensures '@' !in flavorname ==> r == flavorname
    ensures '@' in flavorname ==>
      |r| < |flavorname| && flavorname[|r|] == '@' && '@' !in flavorname[|r| + 1..]
  {
    var k := RFind(flavorname, '@');
    var cut := if k == -1 then |flavorname| else k;
    flavorname[..cut]
  }

  /** Appending `@flavor` to a name and stripping it again gives the name back. */
  lemma FlavorRoundTrip(port: string, flavor: string)
    requires '@' !in flavor
    ensures FlavorName2Port(port + ['@'] + flavor) == port
  {
    var s := port + ['@'] + flavor;
    assert s[|port|] == '@';
    assert s[|port| + 1..] == flavor;
  }

  // ---------------------------------------------------------------
  // str.rstrip()
  // ---------------------------------------------------------------

  /** Python's `str.isspace` for one character. */
  predicate IsSpace(c: char)
  {
    ('\t' <= c <= '\r') || ('\U{1c}' <= c <= '\U{1f}') || c == ' ' || c == '\U{85}' ||
    c == '\U{a0}' || c == '\U{1680}' || ('\U{2000}' <= c <= '\U{200a}') || c == '\U{2028}' ||
    c == '\U{2029}' || c == '\U{202f}' || c == '\U{205f}' || c == '\U{3000}'
  }

  /** Python's `s.rstrip()`: `s` without its trailing whitespace. */
  function RStrip(s: string): (r: string)
    ensures r <= s
    ensures |r| == 0 || !IsSpace(r[|r| - 1])
    ensures forall i :: |r| <= i < |s| ==> IsSpace(s[i])
    decreases |s|
  {
    if |s| > 0 && IsSpace(s[|s| - 1]) then RStrip(s[..|s| - 1]) else s
  }

  // ---------------------------------------------------------------
  // os.path.join (POSIX)
  // ---------------------------------------------------------------

  /** `os.path.join(a, b)`: an absolute `b` replaces `a`; otherwise a separator is added unless `a` is empty or already ends in one. */
  function PathJoin(a: string, b: string): (r: string)
    ensures exists x :: r == x + b && (|x| == 0 || x[|x| - 1] == Sep)
    ensures |b| > 0 && b[0] == Sep ==> r == b
    ensures (|b| == 0 || b[0] != Sep) ==> a <= r && (r == a + b || r == a + [Sep] + b)
    ensures (|b| == 0 || b[0] != Sep) && (|a| == 0 || a[|a| - 1] == Sep) ==> r == a + b
  {
    if |b| > 0 && b[0] == Sep then assert b == b[..0] + b; b
    else if |a| == 0 || a[|a| - 1] == Sep then a + b
    else a + [Sep] + b
  }

  /** The root of a traversal, `localbase/category/name`, canonicalises back to `category/name`. */
  lemma RootName(localbase: string, port: string)
    requires |Split(port)| == 2
    ensures FullName2Port(PathJoin(localbase, port)) == port
  {
    JoinSplit(port);
    if |port| > 0 && port[0] == Sep {
      FullName2PortShort(port);
    } else {
      var y := if |localbase| == 0 || localbase[|localbase| - 1] == Sep
               then localbase[..if |localbase| == 0 then 0 else |localbase| - 1] else localbase;
      if |localbase| == 0 {
        assert PathJoin(localbase, port) == port;
        FullName2PortShort(port);
      } else {
        assert PathJoin(localbase, port) == y + [Sep] + port;
        SplitAround(y, port);
        assert LastTwo(Split(y) + Split(port)) == Split(port);
      }
    }
  }

  // ---------------------------------------------------------------
  // graph4port naming and main's pass defaulting
  // ---------------------------------------------------------------

  /** Python's truth test on an optional string: present and non-empty. */
  predicate Truthy(s: Option<string>)
  {
    s.Some? && |s.value| > 0
  }

  /** Python's `s.find(c)`: the first index of `c` in `s`, or -1. */
  function Find(s: string, c: char): (k: int)
    ensures -1 <= k < |s|
    ensures k == -1 <==> c !in s
    ensures k >= 0 ==> s[k] == c && c !in s[..k]
    decreases |s|
  {
    if |s| == 0 then -1
    else if s[0] == c then 0
    else
      var k := Find(s[1..], c);
      if k == -1 then -1
      else assert s[..k + 1] == [s[0]] + s[1..][..k]; k + 1
  }

  /** `name@flavor` when a flavor is set, else `name` (as `build_graph` and `graph4port` both do). */
  function WithFlavor(name: string, flavor: Option<string>): (r: string)
    ensures !Truthy(flavor) ==> r == name
    ensures Truthy(flavor) ==> name < r && r[|name|] == '@' && r[|name| + 1..] == flavor.value
    ensures Truthy(flavor) && '@' !in flavor.value ==> FlavorName2Port(r) == name
  {
    if Truthy(flavor) then
      var r := name + ['@'] + flavor.value;
      assert r[|name| + 1..] == flavor.value;
      if '@' in flavor.value then r
      else FlavorRoundTrip(name, flavor.value); r
    else name
  }

  /** The output location of one graph: directory `category`, file `name`. */
  datatype OutputName = OutputName(category: string, name: string)

  /** `graph4port`'s split of the port argument at its first '/', with `@flavor` added to the name. */
  function GraphNames(port: string, flavor: Option<string>): (r: OutputName)
    ensures Sep in port ==>
      && |r.category| < |port| && port[|r.category|] == Sep && Sep !in r.category
      && port[..|r.category|] == r.category
      && r.name == WithFlavor(port[|r.category| + 1..], flavor)
    ensures Sep !in port ==>
      && r.category == port[..if |port| == 0 then 0 else |port| - 1]
      && r.name == WithFlavor(port, flavor)
  {
    var k := Find(port, Sep);
    // port[:k] with k == -1 drops the last character, as a negative Python slice bound does
    var category := if k == -1 then port[..if |port| == 0 then 0 else |port| - 1] else port[..k];
    OutputName(category, WithFlavor(port[k + 1..], flavor))
  }

  /** `main`: when neither the build nor the run pass was requested, the build pass is used. */
  function DefaultPasses(build: bool, run: bool): (r: (bool, bool))
    ensures r.0 || r.1
    ensures (build || run) ==> r == (build, run)
    ensures !build && !run ==> r == (true, false)
  {
    if !build && !run then (true, run) else (build, run)
  }
}
