/** Paths, cycles and longest-path layers of a dependency graph, independent of any algorithm. */
module DependencyGraph {

  datatype Edge = Edge(blocker: string, dependent: string)

  /** A walk along edges, from blockers to what they block. */
  ghost predicate Path(edges: seq<Edge>, p: seq<string>) {
    p != [] && forall i :: 0 <= i < |p| - 1 ==> Edge(p[i], p[i + 1]) in edges
  }

  ghost predicate PathTo(edges: seq<Edge>, p: seq<string>, n: string) {
    Path(edges, p) && p[|p| - 1] == n
  }

  ghost predicate Repeats(p: seq<string>) {
    exists i, j :: 0 <= i < j < |p| && p[i] == p[j]
  }

  /** The node is on a cycle, or some ancestor of it is. */
  ghost predicate BehindCycle(edges: seq<Edge>, n: string) {
    exists p :: PathTo(edges, p, n) && Repeats(p)
  }

  /** A longest path to `n` has `length` edges. */
  ghost predicate LongestPath(edges: seq<Edge>, n: string, length: nat) {
    && (exists p :: PathTo(edges, p, n) && |p| == length + 1)
    && (forall p :: PathTo(edges, p, n) ==> |p| <= length + 1)
  }

  ghost predicate Within(edges: seq<Edge>, nodes: set<string>) {
    forall e :: e in edges ==> e.blocker in nodes && e.dependent in nodes
  }

  /** Some edge into `n` comes from `from`, at the layer just before. */
  ghost predicate PulledBy(edges: seq<Edge>, layer: map<string, nat>, n: string, from: string) {
    Edge(from, n) in edges && from in layer && n in layer && layer[n] == layer[from] + 1
  }

  ghost predicate HeldBy(edges: seq<Edge>, unvisited: set<string>, n: string, from: string) {
    Edge(from, n) in edges && from in unvisited
  }

  ghost predicate HasReason(edges: seq<Edge>, layer: map<string, nat>, n: string) {
    n in layer && (layer[n] == 0 || exists from :: PulledBy(edges, layer, n, from))
  }

  ghost predicate IsHeld(edges: seq<Edge>, unvisited: set<string>, n: string) {
    exists from :: HeldBy(edges, unvisited, n, from)
  }

  /** What a layering of the part of the graph that has one amounts to, edge by edge: edges into
      visited nodes come from visited nodes of an earlier layer, each layer has its reason, and every
      node left out waits on another one left out. */
  ghost predicate Layered(nodes: set<string>, edges: seq<Edge>, visited: set<string>, layer: map<string, nat>) {
    && visited <= nodes <= layer.Keys
    && Within(edges, nodes)
    && (forall e :: e in edges && e.dependent in visited ==>
          e.blocker in visited && layer[e.blocker] < layer[e.dependent])
    && (forall n {:trigger HasReason(edges, layer, n)} :: n in visited ==> HasReason(edges, layer, n))
    && (forall n {:trigger IsHeld(edges, nodes - visited, n)} ::
          n in nodes - visited ==> IsHeld(edges, nodes - visited, n))
  }

  lemma {:induction false} PathClimbs(
    nodes: set<string>, edges: seq<Edge>, visited: set<string>, layer: map<string, nat>, p: seq<string>, i: nat)
    requires Layered(nodes, edges, visited, layer)
    requires Path(edges, p) && i < |p| && p[|p| - 1] in visited
    ensures p[i] in visited && layer[p[i]] + (|p| - 1 - i) <= layer[p[|p| - 1]]
    decreases |p| - i
  {
    if i < |p| - 1 {
      PathClimbs(nodes, edges, visited, layer, p, i + 1);
      assert Edge(p[i], p[i + 1]) in edges;
    }
  }

  lemma ExtendPath(edges: seq<Edge>, p: seq<string>, m: string, n: string)
    requires PathTo(edges, p, m) && Edge(m, n) in edges
    ensures PathTo(edges, p + [n], n)
  {
    var q := p + [n];
    forall i | 0 <= i < |q| - 1 ensures Edge(q[i], q[i + 1]) in edges {
      if i < |p| - 1 { assert q[i] == p[i] && q[i + 1] == p[i + 1]; }
    }
  }

  lemma {:induction false} PathOfLayer(
    nodes: set<string>, edges: seq<Edge>, visited: set<string>, layer: map<string, nat>, n: string)
    returns (p: seq<string>)
    requires Layered(nodes, edges, visited, layer) && n in visited
    ensures PathTo(edges, p, n) && |p| == layer[n] + 1
    decreases layer[n]
  {
    if layer[n] == 0 {
      p := [n];
    } else {
      assert HasReason(edges, layer, n);
      var from :| PulledBy(edges, layer, n, from);
      assert Edge(from, n).dependent in visited;
      p := PathOfLayer(nodes, edges, visited, layer, from);
      ExtendPath(edges, p, from, n);
      p := p + [n];
    }
  }

  /** A visited node's layer is the length of a longest path to it. */
  lemma LayerIsLongest(nodes: set<string>, edges: seq<Edge>, visited: set<string>, layer: map<string, nat>, n: string)
    requires Layered(nodes, edges, visited, layer) && n in visited
    ensures LongestPath(edges, n, layer[n])
  {
    var _ := PathOfLayer(nodes, edges, visited, layer, n);
    forall p | PathTo(edges, p, n) ensures |p| <= layer[n] + 1 {
      PathClimbs(nodes, edges, visited, layer, p, 0);
    }
  }

  /** From a node left out one can walk back, among nodes left out, as far as one likes. */
  lemma {:induction false} WalkBack(
    nodes: set<string>, edges: seq<Edge>, visited: set<string>, layer: map<string, nat>, n: string, steps: nat)
    returns (p: seq<string>)
    requires Layered(nodes, edges, visited, layer) && n in nodes - visited
    ensures PathTo(edges, p, n) && |p| == steps + 1 && forall i :: 0 <= i < |p| ==> p[i] in nodes
    decreases steps
  {
    if steps == 0 {
      p := [n];
    } else {
      assert IsHeld(edges, nodes - visited, n);
      var from :| HeldBy(edges, nodes - visited, n, from);
      p := WalkBack(nodes, edges, visited, layer, from, steps - 1);
      ExtendPath(edges, p, from, n);
      p := p + [n];
    }
  }

  /** A walk that never repeats is no longer than the set it stays in. */
  lemma {:induction false} PigeonHole(p: seq<string>, s: set<string>)
    requires forall i :: 0 <= i < |p| ==> p[i] in s
    requires !Repeats(p)
    ensures |p| <= |s|
  {
    if p != [] {
      var last := |p| - 1;
      forall i | 0 <= i < last ensures p[..last][i] in s - {p[last]} {
        assert p[i] != p[last];
      }
      forall i, j | 0 <= i < j < last ensures p[..last][i] != p[..last][j] { assert p[i] != p[j]; }
      PigeonHole(p[..last], s - {p[last]});
    }
  }

  lemma ClimbingNeverRepeats(
    nodes: set<string>, edges: seq<Edge>, visited: set<string>, layer: map<string, nat>, p: seq<string>)
    requires Layered(nodes, edges, visited, layer) && Path(edges, p) && p[|p| - 1] in visited
    ensures !Repeats(p)
  {
    forall i, j | 0 <= i < j < |p| ensures p[i] != p[j] {
      PathClimbs(nodes, edges, visited, layer, p, j);
      PathClimbs(nodes, edges, visited, layer, p[..j + 1], i);
    }
  }

  /** The visited nodes are exactly those with no cycle among themselves and their ancestors. */
  lemma VisitedIffAcyclic(nodes: set<string>, edges: seq<Edge>, visited: set<string>, layer: map<string, nat>, n: string)
    requires Layered(nodes, edges, visited, layer) && n in nodes
    ensures n in visited <==> !BehindCycle(edges, n)
  {
    if n in visited {
      forall p | PathTo(edges, p, n) ensures !Repeats(p) { ClimbingNeverRepeats(nodes, edges, visited, layer, p); }
    } else {
      var p := WalkBack(nodes, edges, visited, layer, n, |nodes|);
      if !Repeats(p) { PigeonHole(p, nodes); }
    }
  }

  /** A graph has one layering: it depends on nothing but which nodes and which edges there are. */
  lemma LayeringUnique(
    nodes: set<string>, edges: seq<Edge>, visited: set<string>, layer: map<string, nat>,
    edges': seq<Edge>, visited': set<string>, layer': map<string, nat>)
    requires Layered(nodes, edges, visited, layer) && Layered(nodes, edges', visited', layer')
    requires forall e :: e in edges <==> e in edges'
    ensures visited == visited' && forall n :: n in visited ==> layer[n] == layer'[n]
  {
    forall n | n in nodes ensures n in visited <==> n in visited' {
      SamePaths(edges, edges', n);
      VisitedIffAcyclic(nodes, edges, visited, layer, n);
      VisitedIffAcyclic(nodes, edges', visited', layer', n);
    }
    forall n | n in visited ensures layer[n] == layer'[n] {
      SamePaths(edges, edges', n);
      LayerIsLongest(nodes, edges, visited, layer, n);
      LayerIsLongest(nodes, edges', visited', layer', n);
    }
  }

  lemma SamePaths(edges: seq<Edge>, edges': seq<Edge>, n: string)
    requires forall e :: e in edges <==> e in edges'
    ensures forall p :: PathTo(edges, p, n) <==> PathTo(edges', p, n)
  {}
}
