/** Worklist search for the outputs that a neuron feeds. */
module Reachability {
  /** The successors of each neuron; a neuron without an entry has none. */
  type Graph = map<string, seq<string>>

  predicate Edge(g: Graph, a: string, b: string) {
    a in g && b in g[a]
  }

  predicate IsPath(g: Graph, p: seq<string>) {
    p != [] && forall i | 0 <= i < |p| - 1 :: Edge(g, p[i], p[i + 1])
  }

  /** Some path of at least one edge leads from `a` to `b`. */
  ghost predicate Reaches(g: Graph, a: string, b: string) {
    exists p: seq<string> :: IsPath(g, p) && |p| >= 2 && p[0] == a && p[|p| - 1] == b
  }

  lemma EdgeReaches(g: Graph, a: string, b: string)
    requires Edge(g, a, b)
    ensures Reaches(g, a, b)
  {
    var p := [a, b];
    assert IsPath(g, p) && p[0] == a && p[|p| - 1] == b;
  }

  lemma ReachesStep(g: Graph, a: string, b: string, c: string)
    requires Reaches(g, a, b) && Edge(g, b, c)
    ensures Reaches(g, a, c)
  {
    var p: seq<string> :| IsPath(g, p) && |p| >= 2 && p[0] == a && p[|p| - 1] == b;
    var longer := p + [c];
    forall i | 0 <= i < |longer| - 1 ensures Edge(g, longer[i], longer[i + 1]) {
      if i < |p| - 1 {
        assert Edge(g, p[i], p[i + 1]);
      }
    }
    assert IsPath(g, longer) && longer[0] == a && longer[|longer| - 1] == c;
  }

  // The search.

  function Nodes(g: Graph, start: string): set<string> {
    {start} + set a, b | a in g && b in g[a] :: b
  }

  predicate Found(
    g: Graph, visited: set<string>, queue: seq<string>, outputs: set<string>, connected: seq<string>, v: string)
  {
    v in g ==> forall w | w in g[v] :: (w in visited || w in queue) && (w in outputs ==> w in connected)
  }

  /** Everything queued or visited is reachable, and so is every reported output. */
  ghost predicate Known(g: Graph, start: string, outputs: set<string>,
                        visited: set<string>, queue: seq<string>, connected: seq<string>)
  {
    && visited <= Nodes(g, start) && (forall w | w in queue :: w in Nodes(g, start))
    && (start in visited || start in queue)
    && (forall w | w in visited || w in queue :: w == start || Reaches(g, start, w))
    && (forall w | w in connected :: w in outputs && Reaches(g, start, w))
  }

  /** Every visited neuron but the one being explored has been explored. */
  predicate Explored(g: Graph, outputs: set<string>, visited: set<string>, queue: seq<string>,
                     connected: seq<string>, exploring: set<string>)
  {
    forall v | v in visited && v !in exploring :: Found(g, visited, queue, outputs, connected, v)
  }

  ghost predicate Searching(g: Graph, start: string, outputs: set<string>,
                            visited: set<string>, queue: seq<string>, connected: seq<string>)
  {
    Known(g, start, outputs, visited, queue, connected) && Explored(g, outputs, visited, queue, connected, {})
  }

  /** Explores one neuron: reports its outputs and queues what is not visited yet. */
  method Explore(g: Graph, start: string, outputs: set<string>, current: string,
                 visited: set<string>, queue: seq<string>, connected: seq<string>)
    returns (queue': seq<string>, connected': seq<string>)
    requires current in visited
    requires Known(g, start, outputs, visited, queue, connected)
    requires Explored(g, outputs, visited, queue, connected, {current})
    ensures Searching(g, start, outputs, visited, queue', connected')
  {
    hide Reaches;
    queue', connected' := queue, connected;
    if current in g {
      var successors := g[current];
      for i := 0 to |successors|
        invariant Known(g, start, outputs, visited, queue', connected')
        invariant Explored(g, outputs, visited, queue', connected', {current})
        invariant forall k | 0 <= k < i ::
          (successors[k] in visited || successors[k] in queue')
          && (successors[k] in outputs ==> successors[k] in connected')
      {
        var next := successors[i];
        ReachedFrom(g, start, current, next);
        if next in outputs {
          connected' := connected' + [next];
        }
        if next !in visited {
          queue' := queue' + [next];
        }
      }
    }
  }

  lemma ReachedFrom(g: Graph, start: string, current: string, next: string)
    requires Edge(g, current, next) && (current == start || Reaches(g, start, current))
    ensures Reaches(g, start, next) && next in Nodes(g, start)
  {
    if current == start {
      EdgeReaches(g, start, next);
    } else {
      ReachesStep(g, start, current, next);
    }
  }

  lemma {:induction false} VisitedIsClosed(g: Graph, start: string, outputs: set<string>,
                                           visited: set<string>, connected: seq<string>, p: seq<string>)
    requires Searching(g, start, outputs, visited, [], connected)
    requires IsPath(g, p) && p[0] == start
    ensures p[|p| - 1] in visited
    ensures |p| >= 2 && p[|p| - 1] in outputs ==> p[|p| - 1] in connected
    decreases |p|
  {
    if |p| >= 2 {
      var shorter := p[..|p| - 1];
      forall i | 0 <= i < |shorter| - 1 ensures Edge(g, shorter[i], shorter[i + 1]) {
        assert Edge(g, p[i], p[i + 1]);
      }
      VisitedIsClosed(g, start, outputs, visited, connected, shorter);
      var last := shorter[|shorter| - 1];
      assert Edge(g, last, p[|p| - 1]);
      assert Found(g, visited, [], outputs, connected, last);
    }
  }

  /** When the queue is empty, the reported outputs are exactly the reachable ones. */
  lemma SearchIsComplete(g: Graph, start: string, outputs: set<string>, visited: set<string>, connected: seq<string>)
    requires Searching(g, start, outputs, visited, [], connected)
    ensures forall w :: w in connected <==> w in outputs && Reaches(g, start, w)
  {
    forall w | w in outputs && Reaches(g, start, w) ensures w in connected {
      var p: seq<string> :| IsPath(g, p) && |p| >= 2 && p[0] == start && p[|p| - 1] == w;
      VisitedIsClosed(g, start, outputs, visited, connected, p);
    }
  }

  /** Pops until nothing is left; terminates on cycles because each neuron is explored once. */
  method Search(g: Graph, start: string, outputs: set<string>) returns (connected: seq<string>)
    ensures forall w :: w in connected <==> w in outputs && Reaches(g, start, w)
  {
    hide Searching, Known, Explored, Reaches, Nodes;
    var visited: set<string> := {};
    var queue := [start];
    connected := [];
    SearchBegins(g, start, outputs);
    while queue != []
      invariant Searching(g, start, outputs, visited, queue, connected)
      decreases |Nodes(g, start) - visited|, |queue|
    {
      var current := queue[|queue| - 1];
      var rest := queue[..|queue| - 1];
      assert queue == rest + [current];
      Popped(g, start, outputs, visited, rest, current, connected);
      if current in visited {
        queue := rest;
        continue;
      }
      Shrinks(Nodes(g, start), visited, current);
      visited := visited + {current};
      queue, connected := Explore(g, start, outputs, current, visited, rest, connected);
    }
    SearchIsComplete(g, start, outputs, visited, connected);
  }

  lemma SearchBegins(g: Graph, start: string, outputs: set<string>)
    ensures Searching(g, start, outputs, {}, [start], [])
  {
  }

  lemma Shrinks(nodes: set<string>, visited: set<string>, current: string)
    requires current in nodes && current !in visited
    ensures |nodes - (visited + {current})| < |nodes - visited|
  {
    assert nodes - (visited + {current}) == (nodes - visited) - {current};
  }

  lemma Popped(g: Graph, start: string, outputs: set<string>,
               visited: set<string>, rest: seq<string>, current: string, connected: seq<string>)
    requires Searching(g, start, outputs, visited, rest + [current], connected)
    ensures current in Nodes(g, start)
    ensures current in visited ==> Searching(g, start, outputs, visited, rest, connected)
    ensures current !in visited ==>
      Known(g, start, outputs, visited + {current}, rest, connected)
      && Explored(g, outputs, visited + {current}, rest, connected, {current})
  {
    hide Reaches, Nodes;
    assert current in rest + [current];
  }

  // Sorting and removing duplicates.

  /** Lexicographic order. */
  predicate Le(a: string, b: string) {
    a == "" || (b != "" && (a[0] < b[0] || (a[0] == b[0] && Le(a[1..], b[1..]))))
  }

  lemma {:induction false} LeIsTotalOrder(a: string, b: string, c: string)
    ensures Le(a, b) || Le(b, a)
    ensures Le(a, b) && Le(b, a) ==> a == b
    ensures Le(a, b) && Le(b, c) ==> Le(a, c)
    decreases |a|
  {
    if a != "" && b != "" {
      LeIsTotalOrder(a[1..], b[1..], if c == "" then "" else c[1..]);
      assert a == [a[0]] + a[1..] && b == [b[0]] + b[1..];
    }
  }

  /** The shorter of two prefixes first, otherwise decided by the first difference. */
  lemma {:induction false} LeMeans(a: string, b: string)
    ensures Le(a, b) <==> a <= b || exists i :: 0 <= i < |a| && i < |b| && a[..i] == b[..i] && a[i] < b[i]
    decreases |a|
  {
    if a != "" && b != "" {
      var (c, d) := (a[1..], b[1..]);
      LeMeans(c, d);
      assert a == [a[0]] + c && b == [b[0]] + d;
      if a[0] < b[0] {
        assert a[..0] == b[..0];
      }
      if a[0] == b[0] {
        if i :| 0 <= i < |c| && i < |d| && c[..i] == d[..i] && c[i] < d[i] {
          assert a[..i + 1] == [a[0]] + c[..i] && b[..i + 1] == [b[0]] + d[..i];
          assert a[i + 1] < b[i + 1];
        }
        if i :| 0 <= i < |a| && i < |b| && a[..i] == b[..i] && a[i] < b[i] {
          assert i > 0 && c[..i - 1] == a[..i][1..] && d[..i - 1] == b[..i][1..];
          assert c[i - 1] < d[i - 1];
        }
      } else {
        assert forall i | 0 < i <= |a| && i <= |b| :: a[..i][0] != b[..i][0];
      }
    }
  }

  predicate Sorted(s: seq<string>) {
    forall i, j | 0 <= i < j < |s| :: Le(s[i], s[j])
  }

  /** Sorted without duplicates. */
  predicate StrictlySorted(s: seq<string>) {
    forall i, j | 0 <= i < j < |s| :: Le(s[i], s[j]) && s[i] != s[j]
  }

  function Insert(x: string, s: seq<string>): seq<string> {
    if s == [] || Le(x, s[0]) then [x] + s else [s[0]] + Insert(x, s[1..])
  }

  lemma {:induction false} InsertSorts(x: string, s: seq<string>)
    requires Sorted(s)
    ensures Sorted(Insert(x, s))
    ensures forall y :: y in Insert(x, s) <==> y == x || y in s
  {
    if s != [] {
      if Le(x, s[0]) {
        forall j | 0 <= j < |s| ensures Le(x, s[j]) {
          LeIsTotalOrder(x, s[0], s[j]);
        }
      } else {
        InsertSorts(x, s[1..]);
        LeIsTotalOrder(x, s[0], x);
        var rest := Insert(x, s[1..]);
        forall j | 0 <= j < |rest| ensures Le(s[0], rest[j]) {
          assert rest[j] == x || rest[j] in s[1..];
        }
      }
    }
  }

  function SortStrings(s: seq<string>): seq<string> {
    if s == [] then [] else Insert(s[0], SortStrings(s[1..]))
  }

  lemma {:induction false} SortStringsSorts(s: seq<string>)
    ensures Sorted(SortStrings(s))
    ensures forall y :: y in SortStrings(s) <==> y in s
  {
    if s != [] {
      SortStringsSorts(s[1..]);
      InsertSorts(s[0], SortStrings(s[1..]));
    }
  }

  /** Drops every element equal to the one before it. */
  method Dedup(s: seq<string>) returns (r: seq<string>)
    requires Sorted(s)
    ensures StrictlySorted(r) && forall y :: y in r <==> y in s
  {
    hide Le;
    r := [];
    for i := 0 to |s|
      invariant StrictlySorted(r)
      invariant forall y :: y in r <==> y in s[..i]
      invariant i > 0 ==> r != [] && r[|r| - 1] == s[i - 1]
      invariant forall y | y in r :: forall k | i <= k < |s| :: Le(y, s[k])
    {
      assert s[..i + 1] == s[..i] + [s[i]];
      if r == [] || r[|r| - 1] != s[i] {
        NewLast(r, s[i]);
        r := r + [s[i]];
      }
    }
    assert s[..|s|] == s;
  }

  lemma NewLast(r: seq<string>, x: string)
    requires StrictlySorted(r) && (forall y | y in r :: Le(y, x)) && (r == [] || r[|r| - 1] != x)
    ensures StrictlySorted(r + [x])
  {
    forall i | 0 <= i < |r| ensures r[i] != x {
      if r[i] == x && i < |r| - 1 {
        assert Le(r[i], r[|r| - 1]) && Le(r[|r| - 1], x);
        LeIsTotalOrder(x, r[|r| - 1], x);
      }
    }
  }

  /**
   The outputs that the start reaches by one or more edges, sorted and without duplicates,
   on any graph.
   */
  method ConnectedOutputs(g: Graph, start: string, outputs: set<string>) returns (connected: seq<string>)
    ensures StrictlySorted(connected)
    ensures forall w :: w in connected <==> w in outputs && Reaches(g, start, w)
  {
    connected := Search(g, start, outputs);
    SortStringsSorts(connected);
    connected := Dedup(SortStrings(connected));
  }

  /**
   That contract leaves no choice: two searches, with owned or borrowed visited sets and in
   whatever order they explore, return the same list.
   */
  lemma {:induction false} SearchesAgree(a: seq<string>, b: seq<string>)
    requires StrictlySorted(a) && StrictlySorted(b) && forall w :: w in a <==> w in b
    ensures a == b
    decreases |a|
  {
    SameEmptiness(a, b);
    if a != [] {
      SameFirst(a, b);
      forall w ensures w in a[1..] <==> w in b[1..] {
        assert w in a[1..] <==> w in a && w != a[0];
        assert w in b[1..] <==> w in b && w != b[0];
      }
      SearchesAgree(a[1..], b[1..]);
    }
  }

  lemma SameEmptiness(a: seq<string>, b: seq<string>)
    requires forall w :: w in a <==> w in b
    ensures a == [] <==> b == []
  {
    if a != [] {
      assert a[0] in b;
    }
    if b != [] {
      assert b[0] in a;
    }
  }

  lemma FirstIsLeast(s: seq<string>, x: string)
    requires StrictlySorted(s) && x in s
    ensures Le(s[0], x)
  {
    LeIsTotalOrder(x, x, x);
  }

  lemma SameFirst(a: seq<string>, b: seq<string>)
    requires StrictlySorted(a) && StrictlySorted(b) && (forall w :: w in a <==> w in b)
    requires a != [] && b != []
    ensures a[0] == b[0]
  {
    hide Le;
    assert a[0] in a && b[0] in b;
    FirstIsLeast(a, b[0]);
    FirstIsLeast(b, a[0]);
    LeIsTotalOrder(a[0], b[0], a[0]);
  }
}
