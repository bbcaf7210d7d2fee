/** Bounded breadth-first search over the knowledge graph
    (alphapilot/components/knowledge_management/graph.py). */
module GraphSearch {
  import opened Wrappers

  type Node = nat

  /** `neighbors` lists each node's neighbours in content order. */
  datatype Graph = Graph(neighbors: map<Node, seq<Node>>, tag: map<Node, string>)

  ghost predicate Closed(g: Graph) {
    g.neighbors.Keys == g.tag.Keys && forall n, m :: n in g.neighbors && m in g.neighbors[n] ==> m in g.neighbors
  }

  /** The label arguments: blocking needs a list to block by. */
  datatype Query = Query(labels: Option<seq<string>>, block: bool)

  predicate Asks(q: Query) {
    q.block ==> q.labels.Some?
  }

  /** The search may step onto `m`. */
  predicate Passes(g: Graph, q: Query, m: Node)
    requires Asks(q)
  {
    m in g.tag && (q.block ==> g.tag[m] in q.labels.value)
  }

  /** An absent or empty list filters nothing. */
  predicate Keeps(g: Graph, q: Query, n: Node) {
    n in g.tag && (q.labels.Some? && q.labels.value != [] ==> g.tag[n] in q.labels.value)
  }

  predicate Edge(g: Graph, q: Query, n: Node, m: Node)
    requires Asks(q)
  {
    n in g.neighbors && m in g.neighbors[n] && Passes(g, q, m)
  }

  // ------------------------------------------------------------ distance

  ghost predicate Walk(g: Graph, q: Query, p: seq<Node>)
    requires Asks(q)
  {
    p != [] && forall i :: 0 <= i < |p| - 1 ==> Edge(g, q, p[i], p[i + 1])
  }

  ghost predicate Joins(g: Graph, q: Query, p: seq<Node>, start: Node, n: Node)
    requires Asks(q)
  {
    Walk(g, q, p) && p[0] == start && p[|p| - 1] == n
  }

  /** Some walk of at most `d` allowed edges leads from `start` to `n`. */
  ghost predicate Within(g: Graph, q: Query, start: Node, n: Node, d: int)
    requires Asks(q)
  {
    exists p :: Joins(g, q, p, start, n) && |p| - 1 <= d
  }

  lemma OneStepFurther(g: Graph, q: Query, start: Node, n: Node, m: Node, d: int)
    requires Asks(q) && Within(g, q, start, n, d) && Edge(g, q, n, m)
    ensures Within(g, q, start, m, d + 1)
  {
    var p :| Joins(g, q, p, start, n) && |p| - 1 <= d;
    assert Joins(g, q, p + [m], start, m);
  }

  // ------------------------------------------------------------ the search

  datatype Entry = Entry(node: Node, steps: nat)

  /** The queue holds reachable nodes, its step counts do not decrease, and they
      differ by at most one. */
  ghost predicate QueueOk(g: Graph, q: Query, start: Node, queue: seq<Entry>)
    requires Asks(q)
  {
    && (forall i :: 0 <= i < |queue| ==>
          queue[i].node in g.neighbors && Within(g, q, start, queue[i].node, queue[i].steps))
    && (forall i, j :: 0 <= i < j < |queue| ==> queue[i].steps <= queue[j].steps <= queue[i].steps + 1)
  }

  /** `n` was found at most `d` steps out, or will be. */
  ghost predicate Met(depth: map<Node, nat>, queue: seq<Entry>, n: Node, d: nat) {
    (n in depth && depth[n] <= d) || exists i :: 0 <= i < |queue| && queue[i].node == n && queue[i].steps <= d
  }

  /** Nothing is lost: the start and every allowed neighbour of a visited node is met. */
  ghost predicate Frontier(g: Graph, q: Query, start: Node, depth: map<Node, nat>, queue: seq<Entry>)
    requires Asks(q)
  {
    && Met(depth, queue, start, 0)
    && forall n, m :: n in depth && Edge(g, q, n, m) ==> Met(depth, queue, m, depth[n] + 1)
  }

  /** The visited nodes are found at their depths, in depth order, each once. */
  ghost predicate FoundOk(g: Graph, q: Query, start: Node, steps: int, depth: map<Node, nat>, result: seq<Node>)
    requires Asks(q)
  {
    && (forall n :: n in depth <==> n in result)
    && (forall n :: n in depth ==> n in g.neighbors && depth[n] <= steps && Within(g, q, start, n, depth[n]))
    && Once(result) && InOrder(depth, result)
  }

  ghost predicate InOrder(depth: map<Node, nat>, result: seq<Node>) {
    && (forall n :: n in result ==> n in depth)
    && forall i, j :: 0 <= i < j < |result| ==> depth[result[i]] <= depth[result[j]]
  }

  /** Everything visited is at most as far as anything still queued. */
  ghost predicate Behind(depth: map<Node, nat>, queue: seq<Entry>) {
    forall n, i :: n in depth && 0 <= i < |queue| ==> depth[n] <= queue[i].steps
  }

  /** Queue the allowed unvisited neighbours one step further out. */
  method Enqueue(g: Graph, q: Query, node: Node, visited: set<Node>, steps: nat, queue: seq<Entry>)
    returns (longer: seq<Entry>)
    requires Asks(q) && node in g.neighbors
    ensures |longer| >= |queue| && longer[..|queue|] == queue
    ensures forall j :: |queue| <= j < |longer| ==>
      longer[j].steps == steps && longer[j].node !in visited && Edge(g, q, node, longer[j].node)
    ensures forall m :: Edge(g, q, node, m) && m !in visited ==> Entry(m, steps) in longer
    ensures forall e :: e in longer[|queue|..] <==>
      && e.steps == steps && e.node !in visited && e.node in g.neighbors[node] && e.node in g.tag
      && (q.block ==> g.tag[e.node] in q.labels.value)
  {
    longer := queue;
    var i := 0;
    while i < |g.neighbors[node]|
      invariant 0 <= i <= |g.neighbors[node]|
      invariant |longer| >= |queue| && longer[..|queue|] == queue
      invariant forall j :: |queue| <= j < |longer| ==>
        longer[j].steps == steps && longer[j].node !in visited && Edge(g, q, node, longer[j].node)
      invariant forall k :: 0 <= k < i && Passes(g, q, g.neighbors[node][k]) && g.neighbors[node][k] !in visited ==>
        Entry(g.neighbors[node][k], steps) in longer[|queue|..]
    {
      var m := g.neighbors[node][i];
      if m !in visited && Passes(g, q, m) {
        assert (longer + [Entry(m, steps)])[|queue|..] == longer[|queue|..] + [Entry(m, steps)];
        longer := longer + [Entry(m, steps)];
      }
      i := i + 1;
    }
  }

  function Kept(g: Graph, q: Query, s: seq<Node>): seq<Node> {
    if s == [] then [] else (if Keeps(g, q, s[0]) then [s[0]] else []) + Kept(g, q, s[1..])
  }

  function Without(s: seq<Node>, x: Node): seq<Node> {
    if s == [] then [] else if s[0] == x then s[1..] else [s[0]] + Without(s[1..], x)
  }

  /** `get_nodes_within_steps`: exactly the kept nodes within `steps` allowed edges
      of the start, without the start, each once, nearest first. */
  method NodesWithinSteps(g: Graph, start: Node, steps: int, q: Query) returns (result: seq<Node>)
    requires Closed(g) && Asks(q) && start in g.neighbors
    ensures forall n :: n in result <==> n != start && Keeps(g, q, n) && Within(g, q, start, n, steps)
    ensures forall n :: n in result <==>
      && n != start && n in g.tag && Within(g, q, start, n, steps)
      && (q.labels.None? || q.labels.value == [] || g.tag[n] in q.labels.value)
    ensures forall i, j :: 0 <= i < j < |result| ==> result[i] != result[j]
    ensures NearestFirst(g, q, start, result)
  {
    hide QueueOk, Frontier, FoundOk, Behind, NearestFirst, Within;
    var visited: set<Node> := {};
    var queue := [Entry(start, 0)];
    result := [];
    ghost var depth: map<Node, nat> := map[];
    Begin(g, q, start, steps, queue);
    while queue != []
      invariant visited == depth.Keys && visited <= g.neighbors.Keys
      invariant QueueOk(g, q, start, queue) && Frontier(g, q, start, depth, queue)
      invariant FoundOk(g, q, start, steps, depth, result) && Behind(depth, queue)
      decreases g.neighbors.Keys - visited, |queue|
    {
      var Entry(node, current) := queue[0];
      if current > steps {
        break;
      }
      ghost var before := queue;
      queue := queue[1..];
      if node in visited {
        SkipKeeps(g, q, start, depth, before);
      } else {
        ghost var seen := depth;
        Visit(g, q, start, steps, depth, before, result);
        depth := depth[node := current];
        visited := visited + {node};
        result := result + [node];
        ghost var rest := queue;
        queue := Enqueue(g, q, node, visited, current + 1, queue);
        EnqueueKeeps(g, q, start, seen, before, depth, queue);
        assert node !in seen;
      }
    }
    Complete(g, q, start, steps, depth, queue, result);
    ghost var found := result;
    result := Kept(g, q, result);
    KeptIs(g, q, depth, found);
    ghost var kept := result;
    result := Without(result, start);
    WithoutIs(depth, kept, start);
    OrderIsNearest(g, q, start, steps, depth, found, result);
  }

  /** If a later node is within `d`, every earlier one is. */
  ghost predicate NearestFirst(g: Graph, q: Query, start: Node, s: seq<Node>)
    requires Asks(q)
  {
    forall i, j, d :: 0 <= i < j < |s| && Within(g, q, start, s[j], d) ==> Within(g, q, start, s[i], d)
  }

  lemma Begin(g: Graph, q: Query, start: Node, steps: int, queue: seq<Entry>)
    requires Asks(q) && start in g.neighbors && queue == [Entry(start, 0)]
    ensures QueueOk(g, q, start, queue) && Frontier(g, q, start, map[], queue)
    ensures FoundOk(g, q, start, steps, map[], []) && Behind(map[], queue)
  {
    assert Joins(g, q, [start], start, start);
    assert queue[0].node == start;
  }

  /** A duplicate entry may be dropped: its node was met no later. */
  lemma SkipKeeps(g: Graph, q: Query, start: Node, depth: map<Node, nat>, queue: seq<Entry>)
    requires Asks(q) && queue != [] && queue[0].node in depth
    requires QueueOk(g, q, start, queue) && Frontier(g, q, start, depth, queue) && Behind(depth, queue)
    ensures QueueOk(g, q, start, queue[1..]) && Frontier(g, q, start, depth, queue[1..]) && Behind(depth, queue[1..])
  {
  }

  lemma MetAfterPop(depth: map<Node, nat>, queue: seq<Entry>, depth': map<Node, nat>, queue': seq<Entry>, n: Node,
                    d: nat)
    requires queue != [] && Met(depth, queue, n, d)
    requires queue[0].node in depth' && depth'[queue[0].node] <= queue[0].steps
    requires forall k :: k in depth ==> k in depth' && depth'[k] == depth[k]
    requires |queue'| >= |queue| - 1 && queue'[..|queue| - 1] == queue[1..]
    ensures Met(depth', queue', n, d)
  {
  }

  lemma Visit(g: Graph, q: Query, start: Node, steps: int, depth: map<Node, nat>, queue: seq<Entry>, result: seq<Node>)
    requires Asks(q) && queue != [] && queue[0].node !in depth && queue[0].steps <= steps
    requires QueueOk(g, q, start, queue) && Behind(depth, queue) && FoundOk(g, q, start, steps, depth, result)
    ensures queue[0].node in g.neighbors
    ensures FoundOk(g, q, start, steps, depth[queue[0].node := queue[0].steps], result + [queue[0].node])
  {
  }

  lemma EnqueueKeeps(g: Graph, q: Query, start: Node, depth: map<Node, nat>, queue: seq<Entry>,
                     depth': map<Node, nat>, queue': seq<Entry>)
    requires Asks(q) && Closed(g) && queue != [] && depth' == depth[queue[0].node := queue[0].steps]
    requires QueueOk(g, q, start, queue) && Frontier(g, q, start, depth, queue) && Behind(depth, queue)
    requires queue[0].node !in depth
    requires |queue'| >= |queue| - 1 && queue'[..|queue| - 1] == queue[1..]
    requires forall j :: |queue| - 1 <= j < |queue'| ==>
      queue'[j].steps == queue[0].steps + 1 && Edge(g, q, queue[0].node, queue'[j].node)
    requires forall m :: Edge(g, q, queue[0].node, m) && m !in depth' ==> Entry(m, queue[0].steps + 1) in queue'
    ensures QueueOk(g, q, start, queue') && Frontier(g, q, start, depth', queue') && Behind(depth', queue')
  {
    hide Within;
    var Entry(node, current) := queue[0];
    forall j | 0 <= j < |queue'|
      ensures queue'[j].node in g.neighbors && Within(g, q, start, queue'[j].node, queue'[j].steps)
      ensures current <= queue'[j].steps <= current + 1
    {
      if j < |queue| - 1 {
        assert queue'[j] == queue[j + 1];
      } else {
        OneStepFurther(g, q, start, node, queue'[j].node, current);
      }
    }
    assert QueueOk(g, q, start, queue') by {
      forall i, j | 0 <= i < j < |queue'| ensures queue'[i].steps <= queue'[j].steps <= queue'[i].steps + 1 {
        if j < |queue| - 1 { assert queue'[i] == queue[i + 1] && queue'[j] == queue[j + 1]; }
      }
    }
    FrontierGrows(g, q, start, depth, queue, depth', queue');
  }

  lemma FrontierGrows(g: Graph, q: Query, start: Node, depth: map<Node, nat>, queue: seq<Entry>,
                      depth': map<Node, nat>, queue': seq<Entry>)
    requires Asks(q) && queue != [] && depth' == depth[queue[0].node := queue[0].steps] && queue[0].node !in depth
    requires Frontier(g, q, start, depth, queue) && Behind(depth, queue)
    requires |queue'| >= |queue| - 1 && queue'[..|queue| - 1] == queue[1..]
    requires forall m :: Edge(g, q, queue[0].node, m) && m !in depth' ==> Entry(m, queue[0].steps + 1) in queue'
    ensures Frontier(g, q, start, depth', queue')
  {
    hide Edge, Met;
    MetAfterPop(depth, queue, depth', queue', start, 0);
    forall n, m | n in depth' && Edge(g, q, n, m) ensures Met(depth', queue', m, depth'[n] + 1) {
      if n in depth {
        MetAfterPop(depth, queue, depth', queue', m, depth[n] + 1);
      } else {
        NowMet(depth', queue', m, queue[0].steps + 1);
      }
    }
  }

  lemma NowMet(depth: map<Node, nat>, queue: seq<Entry>, m: Node, d: nat)
    requires (m in depth && depth[m] <= d) || Entry(m, d) in queue
    ensures Met(depth, queue, m, d)
  {
  }

  /** When the loop ends, every walk of at most `steps` edges has been followed. */
  lemma {:induction false} WalkIsFound(g: Graph, q: Query, start: Node, steps: int, depth: map<Node, nat>,
                                       queue: seq<Entry>, p: seq<Node>, i: nat)
    requires Asks(q) && Frontier(g, q, start, depth, queue) && Walk(g, q, p) && p[0] == start && i < |p| && i <= steps
    requires forall j :: 0 <= j < |queue| ==> queue[j].steps > steps
    ensures p[i] in depth && depth[p[i]] <= i
  {
    if i > 0 {
      WalkIsFound(g, q, start, steps, depth, queue, p, i - 1);
      assert Edge(g, q, p[i - 1], p[i - 1 + 1]);
      assert Met(depth, queue, p[i], depth[p[i - 1]] + 1);
    }
  }

  lemma Complete(g: Graph, q: Query, start: Node, steps: int, depth: map<Node, nat>, queue: seq<Entry>,
                 result: seq<Node>)
    requires Asks(q) && QueueOk(g, q, start, queue) && Frontier(g, q, start, depth, queue)
    requires FoundOk(g, q, start, steps, depth, result)
    requires queue == [] || queue[0].steps > steps
    ensures forall n :: n in result <==> Within(g, q, start, n, steps)
    ensures forall n, d :: n in result && Within(g, q, start, n, d) ==> depth[n] <= d
    ensures forall n :: n in result ==> Within(g, q, start, n, depth[n]) && depth[n] <= steps
    ensures Once(result) && InOrder(depth, result)
  {
    forall n, d | Within(g, q, start, n, d) && (d <= steps || n in depth) ensures n in depth && depth[n] <= d {
      var p :| Joins(g, q, p, start, n) && |p| - 1 <= d;
      if d <= steps { WalkIsFound(g, q, start, steps, depth, queue, p, |p| - 1); }
    }
    forall n | n in depth ensures Within(g, q, start, n, steps) {
      var p :| Joins(g, q, p, start, n) && |p| - 1 <= depth[n];
    }
  }

  ghost predicate Once(s: seq<Node>) {
    forall i, j :: 0 <= i < j < |s| ==> s[i] != s[j]
  }

  /** A list in depth order, without duplicates, split at its head. */
  lemma HeadFirst(depth: map<Node, nat>, s: seq<Node>)
    requires s != [] && Once(s) && InOrder(depth, s)
    ensures Once(s[1..]) && InOrder(depth, s[1..])
    ensures s[0] in depth && s[0] !in s[1..] && forall n :: n in s[1..] ==> n in depth && depth[s[0]] <= depth[n]
    ensures forall n :: n in s <==> n == s[0] || n in s[1..]
  {
  }

  lemma HeadBack(depth: map<Node, nat>, x: Node, s: seq<Node>)
    requires Once(s) && InOrder(depth, s) && x in depth && x !in s
    requires forall n :: n in s ==> n in depth && depth[x] <= depth[n]
    ensures Once([x] + s) && InOrder(depth, [x] + s)
    ensures forall n :: n in [x] + s <==> n == x || n in s
  {
  }

  lemma {:induction false} KeptIs(g: Graph, q: Query, depth: map<Node, nat>, s: seq<Node>)
    requires Once(s) && InOrder(depth, s)
    ensures forall n :: n in Kept(g, q, s) <==> n in s && Keeps(g, q, n)
    ensures Once(Kept(g, q, s)) && InOrder(depth, Kept(g, q, s))
  {
    hide Once, InOrder, Keeps;
    if s != [] {
      HeadFirst(depth, s);
      var rest := Kept(g, q, s[1..]);
      KeptIs(g, q, depth, s[1..]);
      if Keeps(g, q, s[0]) { HeadBack(depth, s[0], rest); } else { assert [] + rest == rest; }
    }
  }

  lemma {:induction false} WithoutIs(depth: map<Node, nat>, s: seq<Node>, x: Node)
    requires Once(s) && InOrder(depth, s)
    ensures forall n :: n in Without(s, x) <==> n in s && n != x
    ensures Once(Without(s, x)) && InOrder(depth, Without(s, x))
  {
    hide Once, InOrder;
    if s != [] {
      HeadFirst(depth, s);
      WithoutIs(depth, s[1..], x);
      if s[0] != x { HeadBack(depth, s[0], Without(s[1..], x)); }
    }
  }

  lemma OrderIsNearest(g: Graph, q: Query, start: Node, steps: int, depth: map<Node, nat>, found: seq<Node>,
                       s: seq<Node>)
    requires Asks(q) && InOrder(depth, s) && (forall n :: n in s ==> n in found && n in depth)
    requires forall n, d :: n in found && n in depth && Within(g, q, start, n, d) ==> depth[n] <= d
    requires forall n :: n in found && n in depth ==> Within(g, q, start, n, depth[n])
    ensures NearestFirst(g, q, start, s)
  {
  }

  // ------------------------------------------------------------ undirected

  /** On an undirected graph two nodes that may both be stepped on see each other
      from the same distance. */
  lemma WithinIsSymmetric(g: Graph, q: Query, n: Node, m: Node, d: int)
    requires Asks(q) && Closed(g)
    requires forall a, b :: a in g.neighbors && b in g.neighbors && a in g.neighbors[b] ==> b in g.neighbors[a]
    requires Passes(g, q, n) && Within(g, q, n, m, d)
    ensures Within(g, q, m, n, d)
  {
    var p :| Joins(g, q, p, n, m) && |p| - 1 <= d;
    var r := seq(|p|, i requires 0 <= i < |p| => p[|p| - 1 - i]);
    forall i | 0 <= i < |r| - 1 ensures Edge(g, q, r[i], r[i + 1]) {
      var k := |p| - 2 - i;
      assert Edge(g, q, p[k], p[k + 1]);
      if k > 0 { assert Edge(g, q, p[k - 1], p[k - 1 + 1]); }
    }
    assert Joins(g, q, r, m, n);
  }
}
