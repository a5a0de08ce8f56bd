/** The drawn dependency plan: a topological layering with every cycle, and all it blocks, put in one
    last column, and a row for each node of a column. */
module Layout {
  import opened Ordering
  import opened DependencyGraph

  datatype Position = Position(x: int, y: int)

  ghost function SetOf(s: seq<string>): set<string> { set x | x in s }

  /** The edges whose two ends are both drawn. */
  function Present(edges: seq<Edge>, nodes: seq<string>): (kept: seq<Edge>)
    ensures forall e :: e in kept <==> e in edges && e.blocker in nodes && e.dependent in nodes
  {
    if edges == [] then []
    else
      var e := edges[0];
      (if e.blocker in nodes && e.dependent in nodes then [e] else []) + Present(edges[1..], nodes)
  }

  /** How many edges into `n` do not come from `visited`. */
  function Remaining(edges: seq<Edge>, visited: set<string>, n: string): nat {
    if edges == [] then 0
    else
      var e := edges[|edges| - 1];
      Remaining(edges[..|edges| - 1], visited, n) + if e.dependent == n && e.blocker !in visited then 1 else 0
  }

  /** How many times the edge from `b` to `n` is listed. */
  function Times(edges: seq<Edge>, b: string, n: string): nat {
    if edges == [] then 0
    else Times(edges[..|edges| - 1], b, n) + if edges[|edges| - 1] == Edge(b, n) then 1 else 0
  }

  lemma {:induction false} VisitOne(edges: seq<Edge>, visited: set<string>, b: string, n: string)
    requires b !in visited
    ensures Remaining(edges, visited + {b}, n) == Remaining(edges, visited, n) - Times(edges, b, n)
  {
    if edges != [] { VisitOne(edges[..|edges| - 1], visited, b, n); }
  }

  lemma {:induction false} NoneRemaining(edges: seq<Edge>, visited: set<string>, n: string)
    ensures Remaining(edges, visited, n) == 0 <==>
            forall e :: e in edges && e.dependent == n ==> e.blocker in visited
  {
    if edges != [] {
      var last := |edges| - 1;
      NoneRemaining(edges[..last], visited, n);
      assert edges == edges[..last] + [edges[last]];
    }
  }

  lemma {:induction false} TimesCounts(edges: seq<Edge>, b: string, n: string)
    ensures Times(edges, b, n) > 0 <==> Edge(b, n) in edges
  {
    if edges != [] {
      var last := |edges| - 1;
      TimesCounts(edges[..last], b, n);
      assert edges == edges[..last] + [edges[last]];
    }
  }

  /** How many times `n` stands in a list. */
  function Hits(list: seq<string>, n: string): nat {
    if list == [] then 0 else Hits(list[..|list| - 1], n) + if list[|list| - 1] == n then 1 else 0
  }

  lemma {:induction false} HitsMultiset(list: seq<string>, n: string)
    ensures Hits(list, n) == multiset(list)[n]
    ensures Hits(list, n) > 0 <==> n in list
  {
    if list != [] {
      var last := |list| - 1;
      HitsMultiset(list[..last], n);
      assert list == list[..last] + [list[last]];
    }
  }

  lemma {:induction false} HitsGrow(list: seq<string>, j: nat, n: string)
    requires j <= |list|
    ensures Hits(list[..j], n) <= Hits(list, n)
    decreases |list| - j
  {
    if j == |list| {
      assert list[..j] == list;
    } else {
      HitsGrow(list, j + 1, n);
      OneHit(list, j, n);
    }
  }

  lemma OneHit(list: seq<string>, j: nat, n: string)
    requires j < |list|
    ensures Hits(list[..j + 1], n) == Hits(list[..j], n) + if list[j] == n then 1 else 0
  {
    assert list[..j + 1][..j] == list[..j];
  }

  /** Both maps of the layout's preparation agree with the edges read. */
  ghost predicate Prepared(
    nodes: set<string>, edges: seq<Edge>, indegree: map<string, int>, outgoing: map<string, seq<string>>)
  {
    && indegree.Keys == nodes && Outgoing(nodes, edges, outgoing)
    && (forall n :: n in nodes ==> indegree[n] == Remaining(edges, {}, n))
  }

  /** Each list has the dependents of its node, as often as they are listed. */
  ghost predicate Outgoing(nodes: set<string>, edges: seq<Edge>, outgoing: map<string, seq<string>>) {
    outgoing.Keys == nodes && forall b, n :: b in nodes ==> Hits(outgoing[b], n) == Times(edges, b, n)
  }

  method Prepare(identifiers: seq<string>, edges: seq<Edge>)
    returns (indegree: map<string, int>, outgoing: map<string, seq<string>>)
    requires Within(edges, SetOf(identifiers))
    ensures Prepared(SetOf(identifiers), edges, indegree, outgoing)
    ensures forall b :: b in outgoing ==> Sorted(outgoing[b])
  {
    indegree := map n | n in identifiers :: 0;
    outgoing := map n | n in identifiers :: [];
    for k := 0 to |edges|
      invariant Prepared(SetOf(identifiers), edges[..k], indegree, outgoing)
    {
      var edge := edges[k];
      OneEdge(edges, k);
      assert edge in edges;
      indegree := indegree[edge.dependent := indegree[edge.dependent] + 1];
      ghost var was := outgoing[edge.blocker];
      outgoing := outgoing[edge.blocker := outgoing[edge.blocker] + [edge.dependent]];
      assert (was + [edge.dependent])[..|was|] == was;
    }
    assert edges[..|edges|] == edges;
    ghost var unsorted := outgoing;
    outgoing := map n | n in outgoing :: Sort(outgoing[n]);
    forall b, n | b in SetOf(identifiers) ensures Hits(outgoing[b], n) == Times(edges, b, n) {
      HitsMultiset(outgoing[b], n);
      HitsMultiset(unsorted[b], n);
    }
    forall b | b in outgoing ensures Sorted(outgoing[b]) { SortSorts(unsorted[b]); }
  }

  lemma OneEdge(edges: seq<Edge>, k: nat)
    requires k < |edges|
    ensures forall n :: Remaining(edges[..k + 1], {}, n) ==
              Remaining(edges[..k], {}, n) + if edges[k].dependent == n then 1 else 0
    ensures forall b, n :: Times(edges[..k + 1], b, n) ==
              Times(edges[..k], b, n) + if edges[k] == Edge(b, n) then 1 else 0
  {
    assert edges[..k + 1][..k] == edges[..k];
  }

  function Max(a: nat, b: nat): nat { if a >= b then a else b }

  /** What has become of the maps once the first `j` listed edges were taken out. */
  ghost predicate Relaxed(
    list: seq<string>, j: nat, base: nat, before: map<string, int>, layers: map<string, nat>,
    indegree: map<string, int>, layer: map<string, nat>)
    requires j <= |list| && before.Keys == layers.Keys
  {
    && indegree.Keys == before.Keys && layer.Keys == layers.Keys
    && (forall n :: n in before ==> indegree[n] == before[n] - Hits(list[..j], n))
    && (forall n :: n in layers ==> layer[n] == if Hits(list[..j], n) > 0 then Max(layers[n], base + 1) else layers[n])
  }

  lemma RelaxOne(
    list: seq<string>, j: nat, base: nat, before: map<string, int>, layers: map<string, nat>,
    indegree: map<string, int>, layer: map<string, nat>)
    requires j < |list| && before.Keys == layers.Keys && list[j] in before
    requires Relaxed(list, j, base, before, layers, indegree, layer)
    ensures Relaxed(list, j + 1, base, before, layers,
              indegree[list[j] := indegree[list[j]] - 1], layer[list[j] := Max(layer[list[j]], base + 1)])
  {
    forall n ensures Hits(list[..j + 1], n) == Hits(list[..j], n) + if list[j] == n then 1 else 0 {
      OneHit(list, j, n);
    }
  }

  /** What is queued besides `waiting`: what has nothing left to wait for since. */
  ghost predicate Queued(
    list: seq<string>, j: nat, waiting: seq<string>, indegree: map<string, int>, queue: seq<string>)
    requires j <= |list|
  {
    && Distinct(queue)
    && (forall n :: n in queue <==> n in waiting || (n in indegree && Hits(list[..j], n) > 0 && indegree[n] == 0))
  }

  lemma QueueOne(list: seq<string>, j: nat, waiting: seq<string>, was: int, indegree: map<string, int>, queue: seq<string>)
    requires j < |list| && list[j] in indegree && list[j] !in waiting && was == indegree[list[j]] > 0
    requires Queued(list, j, waiting, indegree, queue)
    ensures Queued(list, j + 1, waiting, indegree[list[j] := was - 1], if was == 1 then queue + [list[j]] else queue)
  {
    forall n ensures Hits(list[..j + 1], n) == Hits(list[..j], n) + if list[j] == n then 1 else 0 {
      OneHit(list, j, n);
    }
    assert list[j] !in queue;
  }

  /** Takes an identifier at layer `base` out of what its dependents wait for, one listed edge at a
      time. */
  method Relax(
    list: seq<string>, base: nat, before: map<string, int>, layers: map<string, nat>, waiting: seq<string>)
    returns (indegree: map<string, int>, layer: map<string, nat>, queue: seq<string>)
    requires before.Keys == layers.Keys && Distinct(waiting)
    requires forall n :: n in list ==> n in before && n !in waiting && before[n] >= Hits(list, n)
    ensures Relaxed(list, |list|, base, before, layers, indegree, layer)
    ensures Queued(list, |list|, waiting, indegree, queue)
  {
    indegree, layer, queue := before, layers, waiting;
    for j := 0 to |list|
      invariant Relaxed(list, j, base, before, layers, indegree, layer)
      invariant Queued(list, j, waiting, indegree, queue)
    {
      var dependent := list[j];
      HitsGrow(list, j + 1, dependent);
      OneHit(list, j, dependent);
      RelaxOne(list, j, base, before, layers, indegree, layer);
      QueueOne(list, j, waiting, indegree[dependent], indegree, queue);
      layer := layer[dependent := Max(layer[dependent], base + 1)];
      var remaining := indegree[dependent] - 1;
      indegree := indegree[dependent := remaining];
      if remaining == 0 {
        queue := queue + [dependent];
      }
    }
  }

  /** A layer is zero, or one more than that of a visited blocker. */
  ghost predicate Explained(edges: seq<Edge>, visited: set<string>, layer: map<string, nat>, n: string) {
    n in layer && (layer[n] == 0 || exists from :: from in visited && PulledBy(edges, layer, n, from))
  }

  /** The layers so far account for every edge out of the nodes visited so far, and for no other. */
  ghost predicate LayersSoFar(nodes: set<string>, edges: seq<Edge>, visited: set<string>, layer: map<string, nat>) {
    && layer.Keys == nodes && Within(edges, nodes)
    && (forall e :: e in edges && e.blocker in visited ==> layer[e.dependent] >= layer[e.blocker] + 1)
    && (forall n {:trigger Explained(edges, visited, layer, n)} :: n in nodes ==> Explained(edges, visited, layer, n))
  }

  /** A visited node waits for nothing, and a queued one for nothing more. */
  ghost predicate QueueSoFar(
    nodes: set<string>, edges: seq<Edge>, visited: set<string>, indegree: map<string, int>, queue: seq<string>)
  {
    && visited <= nodes == indegree.Keys && Within(edges, nodes)
    && (forall n :: n in nodes ==> indegree[n] == Remaining(edges, visited, n))
    && (forall n :: n in queue ==> n in nodes && n !in visited)
    && (forall n :: n in nodes ==> (n in queue || n in visited <==> indegree[n] == 0))
    && Distinct(queue)
  }

  lemma LayersNext(
    nodes: set<string>, edges: seq<Edge>, visited: set<string>, layers: map<string, nat>, b: string, layer: map<string, nat>)
    requires Within(edges, nodes) && LayersSoFar(nodes, edges, visited, layers) && b in nodes && layer.Keys == nodes
    requires forall n :: n in nodes ==>
               layer[n] == if Edge(b, n) in edges then Max(layers[n], layers[b] + 1) else layers[n]
    requires forall n :: Edge(b, n) in edges ==> n !in visited && n != b
    ensures LayersSoFar(nodes, edges, visited + {b}, layer)
  {
    forall e | e in edges && e.blocker in visited + {b} ensures layer[e.dependent] >= layer[e.blocker] + 1 {
      assert e == Edge(e.blocker, e.dependent);
      assert layer[e.blocker] == layers[e.blocker];
    }
    forall n | n in nodes ensures Explained(edges, visited + {b}, layer, n) {
      assert Explained(edges, visited, layers, n);
      if layer[n] == layers[n] {
        if layers[n] != 0 {
          var from :| from in visited && PulledBy(edges, layers, n, from);
          assert layer[from] == layers[from];
          assert PulledBy(edges, layer, n, from);
        }
      } else {
        assert PulledBy(edges, layer, n, b);
      }
    }
  }

  /** Its dependents were waiting for `b`: none was visited, queued, or `b` itself. */
  lemma DependentsWait(
    nodes: set<string>, edges: seq<Edge>, visited: set<string>, indegree: map<string, int>, queue: seq<string>,
    outgoing: map<string, seq<string>>, b: string, n: string)
    requires QueueSoFar(nodes, edges, visited, indegree, queue) && b in nodes && b !in visited && indegree[b] == 0
    requires Outgoing(nodes, edges, outgoing)
    ensures Hits(outgoing[b], n) > 0 <==> Edge(b, n) in edges
    ensures n in outgoing[b] <==> Edge(b, n) in edges
    ensures n in outgoing[b] ==> n in nodes && n !in visited && n !in queue && n != b
    ensures n in nodes ==> indegree[n] >= Hits(outgoing[b], n)
    ensures n in nodes ==> Remaining(edges, visited + {b}, n) == indegree[n] - Hits(outgoing[b], n)
  {
    TimesCounts(edges, b, n);
    HitsMultiset(outgoing[b], n);
    if n in nodes { VisitOne(edges, visited, b, n); }
    NoneRemaining(edges, visited, n);
  }

  /** All this node waits for was seen, and it was not. */
  ghost predicate IsReady(nodes: set<string>, edges: seq<Edge>, seen: set<string>, n: string) {
    n in nodes && n !in seen && forall e :: e in edges && e.dependent == n ==> e.blocker in seen
  }

  ghost predicate LeastReady(nodes: set<string>, edges: seq<Edge>, seen: set<string>, n: string) {
    IsReady(nodes, edges, seen, n) && forall m :: IsReady(nodes, edges, seen, m) ==> Leq(n, m)
  }

  /** Each node taken was the least of those that waited for nothing then: one graph has one such order. */
  ghost predicate TakesLeast(nodes: set<string>, edges: seq<Edge>, order: seq<string>) {
    forall i :: 0 <= i < |order| ==> LeastReady(nodes, edges, SetOf(order[..i]), order[i])
  }

  lemma OrderGrows(nodes: set<string>, edges: seq<Edge>, order: seq<string>, n: string)
    requires TakesLeast(nodes, edges, order) && LeastReady(nodes, edges, SetOf(order), n)
    ensures TakesLeast(nodes, edges, order + [n]) && SetOf(order + [n]) == SetOf(order) + {n}
  {
    var longer := order + [n];
    forall i | 0 <= i < |longer| ensures LeastReady(nodes, edges, SetOf(longer[..i]), longer[i]) {
      if i < |order| { assert longer[..i] == order[..i]; } else { assert longer[..i] == order; }
    }
  }

  /** What is first in the sorted queue is the least of what is ready. */
  lemma FirstIsLeast(
    nodes: set<string>, edges: seq<Edge>, seen: set<string>, indegree: map<string, int>, queue: seq<string>)
    requires QueueSoFar(nodes, edges, seen, indegree, queue) && Sorted(queue) && queue != []
    ensures LeastReady(nodes, edges, seen, queue[0])
  {
    forall n ensures n in queue <==> IsReady(nodes, edges, seen, n) {
      if n in nodes { NoneRemaining(edges, seen, n); }
    }
    forall m | IsReady(nodes, edges, seen, m) ensures Leq(queue[0], m) {
      var j :| 0 <= j < |queue| && queue[j] == m;
      LeqTotal(m, m);
    }
  }

  /** There is only one such order of a given length. */
  lemma {:induction false} OneOrder(nodes: set<string>, edges: seq<Edge>, order: seq<string>, other: seq<string>)
    requires TakesLeast(nodes, edges, order) && TakesLeast(nodes, edges, other) && |order| == |other|
    ensures order == other
  {
    if order != [] {
      var last := |order| - 1;
      forall i | 0 <= i < last ensures order[..last][..i] == order[..i] && other[..last][..i] == other[..i] {}
      OneOrder(nodes, edges, order[..last], other[..last]);
      LeqTotal(order[last], other[last]);
      assert LeastReady(nodes, edges, SetOf(order[..last]), order[last]);
      assert LeastReady(nodes, edges, SetOf(other[..last]), other[last]);
      assert order == order[..last] + [order[last]] && other == other[..last] + [other[last]];
    }
  }

  /** Visits nodes, always the least of those that wait for nothing, until nothing is left to take. */
  method Walk(nodes: seq<string>, edges: seq<Edge>, initial: map<string, int>, outgoing: map<string, seq<string>>)
    returns (visited: set<string>, layer: map<string, nat>, ghost order: seq<string>)
    requires Sorted(nodes) && Distinct(nodes) && Within(edges, SetOf(nodes))
    requires Prepared(SetOf(nodes), edges, initial, outgoing)
    ensures Layered(SetOf(nodes), edges, visited, layer) && LayersSoFar(SetOf(nodes), edges, visited, layer)
    ensures TakesLeast(SetOf(nodes), edges, order) && visited == SetOf(order)
  {
    ghost var all := SetOf(nodes);
    var indegree := initial;
    layer := map n | n in nodes :: 0;
    var queue := Ready(nodes, indegree);
    visited, order := {}, [];
    WalkStarts(nodes, edges, indegree, layer, queue);
    while queue != []
      invariant QueueSoFar(all, edges, visited, indegree, queue)
      invariant LayersSoFar(all, edges, visited, layer)
      invariant TakesLeast(all, edges, order) && visited == SetOf(order)
      decreases |all - visited|
    {
      QueueSorts(all, edges, visited, indegree, queue);
      queue := Sort(queue);
      FirstIsLeast(all, edges, visited, indegree, queue);
      OrderGrows(all, edges, order, queue[0]);
      order := order + [queue[0]];
      visited, indegree, layer, queue :=
        Take(all, edges, outgoing, visited, indegree, layer, queue[0], queue[1..]);
    }
    WalkEnds(all, edges, visited, indegree, layer);
  }

  lemma WalkStarts(
    nodes: seq<string>, edges: seq<Edge>, indegree: map<string, int>, layer: map<string, nat>, queue: seq<string>)
    requires Distinct(nodes) && Within(edges, SetOf(nodes)) && indegree.Keys == SetOf(nodes)
    requires forall n :: n in SetOf(nodes) ==> indegree[n] == Remaining(edges, {}, n)
    requires (forall n :: n in nodes ==> n in indegree) && queue == Ready(nodes, indegree)
    requires layer.Keys == SetOf(nodes) && forall n :: n in layer ==> layer[n] == 0
    ensures QueueSoFar(SetOf(nodes), edges, {}, indegree, queue) && LayersSoFar(SetOf(nodes), edges, {}, layer)
  {}

  /** The order of the queue is of no consequence. */
  lemma QueueSorts(
    all: set<string>, edges: seq<Edge>, visited: set<string>, indegree: map<string, int>, queue: seq<string>)
    requires QueueSoFar(all, edges, visited, indegree, queue) && queue != []
    ensures QueueSoFar(all, edges, visited, indegree, [Sort(queue)[0]] + Sort(queue)[1..])
    ensures QueueSoFar(all, edges, visited, indegree, Sort(queue)) && Sorted(Sort(queue))
  {
    SortKeeps(queue);
    SortSorts(queue);
    assert Sort(queue) == [Sort(queue)[0]] + Sort(queue)[1..];
  }

  function Ready(nodes: seq<string>, indegree: map<string, int>): (ready: seq<string>)
    requires forall n :: n in nodes ==> n in indegree
    ensures forall n :: n in ready <==> n in nodes && indegree[n] == 0
    ensures Distinct(nodes) ==> Distinct(ready)
  {
    if nodes == [] then [] else (if indegree[nodes[0]] == 0 then [nodes[0]] else []) + Ready(nodes[1..], indegree)
  }

  method Take(
    ghost all: set<string>, ghost edges: seq<Edge>, outgoing: map<string, seq<string>>,
    seen: set<string>, before: map<string, int>, layers: map<string, nat>, identifier: string, waiting: seq<string>)
    returns (visited: set<string>, indegree: map<string, int>, layer: map<string, nat>, queue: seq<string>)
    requires QueueSoFar(all, edges, seen, before, [identifier] + waiting) && LayersSoFar(all, edges, seen, layers)
    requires Outgoing(all, edges, outgoing)
    ensures QueueSoFar(all, edges, visited, indegree, queue) && LayersSoFar(all, edges, visited, layer)
    ensures |all - visited| < |all - seen| && visited == seen + {identifier}
  {
    FirstWaits(all, edges, seen, before, outgoing, identifier, waiting);
    visited := seen + {identifier};
    indegree, layer, queue := Relax(outgoing[identifier], layers[identifier], before, layers, waiting);
    TakeKeeps(all, edges, outgoing, seen, before, layers, identifier, waiting, indegree, layer, queue);
  }

  /** Once its dependents are relaxed, the node taken is visited like the others. */
  lemma TakeKeeps(
    all: set<string>, edges: seq<Edge>, outgoing: map<string, seq<string>>, seen: set<string>, before: map<string, int>,
    layers: map<string, nat>, identifier: string, waiting: seq<string>,
    indegree: map<string, int>, layer: map<string, nat>, queue: seq<string>)
    requires QueueSoFar(all, edges, seen, before, [identifier] + waiting) && LayersSoFar(all, edges, seen, layers)
    requires Outgoing(all, edges, outgoing) && identifier in all
    requires Relaxed(outgoing[identifier], |outgoing[identifier]|, layers[identifier], before, layers, indegree, layer)
    requires Queued(outgoing[identifier], |outgoing[identifier]|, waiting, indegree, queue)
    ensures QueueSoFar(all, edges, seen + {identifier}, indegree, queue)
    ensures LayersSoFar(all, edges, seen + {identifier}, layer)
    ensures |all - (seen + {identifier})| < |all - seen|
  {
    var list := outgoing[identifier];
    FirstWaits(all, edges, seen, before, outgoing, identifier, waiting);
    assert list[..|list|] == list;
    QueueNext(all, edges, seen, before, identifier, waiting, list, indegree, queue);
    LayersNext(all, edges, seen, layers, identifier, layer);
    OneFewer(all, seen, identifier);
  }

  lemma OneFewer(all: set<string>, seen: set<string>, identifier: string)
    requires identifier in all && identifier !in seen
    ensures |all - (seen + {identifier})| < |all - seen|
  {
    assert all - seen == (all - (seen + {identifier})) + {identifier};
  }

  /** What the next node's dependents are, and that all of them wait. */
  lemma FirstWaits(
    all: set<string>, edges: seq<Edge>, seen: set<string>, before: map<string, int>,
    outgoing: map<string, seq<string>>, identifier: string, waiting: seq<string>)
    requires QueueSoFar(all, edges, seen, before, [identifier] + waiting)
    requires Outgoing(all, edges, outgoing)
    ensures identifier in all && identifier !in seen && identifier !in waiting && Distinct(waiting)
    ensures forall n :: n in outgoing[identifier] ==>
              n in all && n !in seen && n !in waiting && n != identifier && before[n] >= Hits(outgoing[identifier], n)
    ensures forall n :: Hits(outgoing[identifier], n) > 0 <==> Edge(identifier, n) in edges
    ensures forall n :: n in all ==>
              Remaining(edges, seen + {identifier}, n) == before[n] - Hits(outgoing[identifier], n)
    ensures forall n :: Edge(identifier, n) in edges ==> n !in seen && n != identifier
  {
    var was := [identifier] + waiting;
    assert was[0] == identifier && was[1..] == waiting;
    forall n {
      DependentsWait(all, edges, seen, before, was, outgoing, identifier, n);
    }
  }

  lemma QueueNext(
    all: set<string>, edges: seq<Edge>, seen: set<string>, before: map<string, int>, identifier: string,
    waiting: seq<string>, list: seq<string>, indegree: map<string, int>, queue: seq<string>)
    requires QueueSoFar(all, edges, seen, before, [identifier] + waiting) && identifier !in waiting
    requires forall n :: n in all ==> Remaining(edges, seen + {identifier}, n) == before[n] - Hits(list, n)
    requires forall n :: Hits(list, n) > 0 ==> n in all && n !in seen && n != identifier && n !in waiting
    requires indegree.Keys == all && forall n :: n in all ==> indegree[n] == before[n] - Hits(list, n)
    requires Distinct(queue)
    requires forall n :: n in queue <==> n in waiting || (n in indegree && Hits(list, n) > 0 && indegree[n] == 0)
    ensures QueueSoFar(all, edges, seen + {identifier}, indegree, queue)
  {
    assert forall n :: n in [identifier] + waiting <==> n == identifier || n in waiting;
    assert identifier in [identifier] + waiting;
    forall n | n in all
      ensures n in queue || n in seen + {identifier} <==> indegree[n] == 0
    {
      assert Hits(list, n) == 0 || Hits(list, n) > 0;
      assert n in [identifier] + waiting || n in seen <==> before[n] == 0;
    }
  }

  lemma WalkEnds(
    all: set<string>, edges: seq<Edge>, visited: set<string>, indegree: map<string, int>, layer: map<string, nat>)
    requires QueueSoFar(all, edges, visited, indegree, []) && LayersSoFar(all, edges, visited, layer)
    ensures Layered(all, edges, visited, layer)
  {
    forall e | e in edges && e.dependent in visited
      ensures e.blocker in visited && layer[e.blocker] < layer[e.dependent]
    {
      NoneRemaining(edges, visited, e.dependent);
    }
    forall n | n in visited ensures HasReason(edges, layer, n) {
      assert Explained(edges, visited, layer, n);
    }
    forall n | n in all - visited ensures IsHeld(edges, all - visited, n) {
      NoneRemaining(edges, visited, n);
      var e :| e in edges && e.dependent == n && e.blocker !in visited;
      assert e == Edge(e.blocker, n);
      assert HeldBy(edges, all - visited, n, e.blocker);
    }
  }

  /** The last layer reached, zero when there is none. */
  method LastLayer(nodes: seq<string>, layer: map<string, nat>) returns (last: nat)
    requires layer.Keys == SetOf(nodes)
    ensures IsLast(layer, last)
  {
    last := 0;
    for k := 0 to |nodes|
      invariant forall i :: 0 <= i < k ==> layer[nodes[i]] <= last
      invariant last == 0 || exists n :: n in layer && layer[n] == last
    {
      last := Max(last, layer[nodes[k]]);
    }
  }

  ghost predicate IsLast(layer: map<string, nat>, last: nat) {
    (forall n :: n in layer ==> layer[n] <= last) && (last == 0 || exists n :: n in layer && layer[n] == last)
  }

  /** A visited node's own layer, and one past the last for all the others. */
  function Final(layer: map<string, nat>, visited: set<string>, last: nat): (final: map<string, nat>) {
    map n | n in layer :: if n in visited then layer[n] else last + 1
  }

  /** The nodes of one column, in the order they are listed. */
  function Column(nodes: seq<string>, final: map<string, nat>, column: nat): (entries: seq<string>)
    requires forall n :: n in nodes ==> n in final
    ensures forall n :: n in entries <==> n in nodes && final[n] == column
    ensures Distinct(nodes) ==> Distinct(entries)
  {
    if nodes == [] then []
    else
      var earlier, last := nodes[..|nodes| - 1], nodes[|nodes| - 1];
      Column(earlier, final, column) + (if final[last] == column then [last] else [])
  }

  lemma {:induction false} ColumnSorted(nodes: seq<string>, final: map<string, nat>, column: nat)
    requires Sorted(nodes) && forall n :: n in nodes ==> n in final
    ensures Sorted(Column(nodes, final, column))
  {
    if nodes != [] {
      var earlier, last := nodes[..|nodes| - 1], nodes[|nodes| - 1];
      ColumnSorted(earlier, final, column);
      SortedEnd(Column(earlier, final, column), nodes);
    }
  }

  /** The last of a sorted list comes after everything in it. */
  lemma SortedEnd(some: seq<string>, nodes: seq<string>)
    requires Sorted(some) && Sorted(nodes) && nodes != [] && forall n :: n in some ==> n in nodes[..|nodes| - 1]
    ensures Sorted(some + [nodes[|nodes| - 1]])
  {
    forall j | 0 <= j < |some| ensures Leq(some[j], nodes[|nodes| - 1]) {
      assert some[j] in some;
      var i :| 0 <= i < |nodes| - 1 && nodes[i] == some[j];
    }
  }

  lemma ColumnGrows(nodes: seq<string>, final: map<string, nat>, k: nat, column: nat)
    requires k < |nodes| && forall n :: n in nodes ==> n in final
    ensures Column(nodes[..k + 1], final, column) ==
            Column(nodes[..k], final, column) + if final[nodes[k]] == column then [nodes[k]] else []
  {
    assert nodes[..k + 1][..k] == nodes[..k];
  }

  ghost predicate ColumnsOf(nodes: seq<string>, final: map<string, nat>, columns: map<nat, seq<string>>)
    requires forall n :: n in nodes ==> n in final
  {
    forall c: nat :: EntriesOf(columns, c) == Column(nodes, final, c) && (c in columns <==> Column(nodes, final, c) != [])
  }

  function EntriesOf(columns: map<nat, seq<string>>, c: nat): seq<string> {
    if c in columns then columns[c] else []
  }

  method Columns(nodes: seq<string>, final: map<string, nat>) returns (columns: map<nat, seq<string>>)
    requires forall n :: n in nodes ==> n in final
    ensures ColumnsOf(nodes, final, columns)
  {
    columns := map[];
    for k := 0 to |nodes|
      invariant ColumnsOf(nodes[..k], final, columns)
    {
      var column := final[nodes[k]];
      ghost var was := columns;
      columns := columns[column := EntriesOf(columns, column) + [nodes[k]]];
      forall c: nat ensures EntriesOf(columns, c) == Column(nodes[..k + 1], final, c) {
        ColumnGrows(nodes, final, k, c);
      }
    }
    assert nodes[..|nodes|] == nodes;
  }

  function At(column: nat, row: nat): Position {
    Position(28 + column * 280, 30 + row * 150)
  }

  /** Where `n` stands is the place of its column and of its row in that column. */
  ghost predicate StandsAt(columns: map<nat, seq<string>>, final: map<string, nat>, n: string, at: Position) {
    n in final && exists row: nat ::
      row < |EntriesOf(columns, final[n])| && EntriesOf(columns, final[n])[row] == n && at == At(final[n], row)
  }

  ghost predicate Placed(
    columns: map<nat, seq<string>>, final: map<string, nat>, done: set<string>, positions: map<string, Position>)
  {
    positions.Keys == done && forall n :: n in positions ==> StandsAt(columns, final, n, positions[n])
  }

  ghost predicate Partition(columns: map<nat, seq<string>>, final: map<string, nat>) {
    && (forall c, n :: c in columns && n in columns[c] ==> n in final && final[n] == c)
    && (forall n :: n in final ==> final[n] in columns && n in columns[final[n]])
    && (forall c :: c in columns ==> Sorted(columns[c]))
  }

  method PlaceColumn(
    columns: map<nat, seq<string>>, ghost final: map<string, nat>, column: nat, ghost done: set<string>,
    before: map<string, Position>)
    returns (positions: map<string, Position>)
    requires Partition(columns, final) && column in columns && Placed(columns, final, done, before)
    ensures Placed(columns, final, done + SetOf(columns[column]), positions)
  {
    SortedStays(columns[column]);
    var entries := Sort(columns[column]);
    positions := before;
    for row := 0 to |entries|
      invariant Placed(columns, final, done + SetOf(entries[..row]), positions)
    {
      ghost var was := positions;
      positions := positions[entries[row] := At(column, row)];
      PlacedOne(columns, final, done, column, row, was);
    }
    assert entries[..|entries|] == entries;
  }

  lemma PlacedOne(
    columns: map<nat, seq<string>>, final: map<string, nat>, done: set<string>, column: nat, row: nat,
    positions: map<string, Position>)
    requires Partition(columns, final) && column in columns && row < |columns[column]|
    requires Placed(columns, final, done + SetOf(columns[column][..row]), positions)
    ensures Placed(columns, final, done + SetOf(columns[column][..row + 1]),
              positions[columns[column][row] := At(column, row)])
  {
    var entries := columns[column];
    var n := entries[row];
    assert n in entries;
    assert EntriesOf(columns, final[n])[row] == n;
    assert StandsAt(columns, final, n, At(column, row));
    PlacedMore(columns, final, done + SetOf(entries[..row]), positions, n, At(column, row));
    SetGrows(entries, row);
    assert done + SetOf(entries[..row + 1]) == done + SetOf(entries[..row]) + {n};
  }

  lemma PlacedMore(
    columns: map<nat, seq<string>>, final: map<string, nat>, done: set<string>, positions: map<string, Position>,
    n: string, at: Position)
    requires Placed(columns, final, done, positions) && StandsAt(columns, final, n, at)
    ensures Placed(columns, final, done + {n}, positions[n := at])
  {}

  lemma SetGrows(s: seq<string>, k: nat)
    requires k < |s|
    ensures SetOf(s[..k + 1]) == SetOf(s[..k]) + {s[k]}
  {
    assert s[..k + 1] == s[..k] + [s[k]];
  }

  method Place(columns: map<nat, seq<string>>, ghost final: map<string, nat>) returns (positions: map<string, Position>)
    requires Partition(columns, final)
    ensures Placed(columns, final, final.Keys, positions)
  {
    positions := map[];
    var left := columns.Keys;
    ghost var done: set<string> := {};
    while left != {}
      invariant left <= columns.Keys
      invariant done == set n | n in final && final[n] !in left
      invariant Placed(columns, final, done, positions)
    {
      var column :| column in left;
      positions := PlaceColumn(columns, final, column, done, positions);
      left := left - {column};
      done := done + SetOf(columns[column]);
    }
  }

  /** The nodes of a column before `n`, in the order of their names. */
  ghost function Before(final: map<string, nat>, n: string): set<string>
    requires n in final
  {
    set m | m in final && final[m] == final[n] && m != n && Leq(m, n)
  }

  /** A node's place, a function of its layer and of how many names of its column come before it. */
  ghost function PlaceOf(final: map<string, nat>, n: string): Position
    requires n in final
  {
    At(final[n], |Before(final, n)|)
  }

  lemma {:induction false} CardinalityOf(s: seq<string>)
    requires Distinct(s)
    ensures |SetOf(s)| == |s|
  {
    if s == [] {
      assert SetOf(s) == {};
    } else {
      var last := |s| - 1;
      CardinalityOf(s[..last]);
      assert s == s[..last] + [s[last]];
      assert s[last] !in s[..last];
      assert SetOf(s) == SetOf(s[..last]) + {s[last]};
    }
  }

  /** A row counts the names before it. */
  lemma RowIsRank(nodes: seq<string>, final: map<string, nat>, n: string, row: nat)
    requires Sorted(nodes) && Distinct(nodes) && SetOf(nodes) == final.Keys && n in final
    requires forall m :: m in nodes ==> m in final
    requires row < |Column(nodes, final, final[n])| && Column(nodes, final, final[n])[row] == n
    ensures row == |Before(final, n)|
  {
    var entries := Column(nodes, final, final[n]);
    ColumnSorted(nodes, final, final[n]);
    forall m ensures m in SetOf(entries[..row]) <==> m in Before(final, n) {
      assert m in final <==> m in SetOf(nodes);
      EarlierIffBefore(entries, row, m);
    }
    assert SetOf(entries[..row]) == Before(final, n);
    CardinalityOf(entries[..row]);
  }

  /** In a sorted list of different names, what stands earlier is what comes before. */
  lemma EarlierIffBefore(entries: seq<string>, row: nat, m: string)
    requires Sorted(entries) && Distinct(entries) && row < |entries|
    ensures m in entries[..row] <==> m in entries && m != entries[row] && Leq(m, entries[row])
  {
    if m in entries {
      var i :| 0 <= i < |entries| && entries[i] == m;
      LeqTotal(m, entries[row]);
      if i < row { assert entries[..row][i] == m; }
    }
  }

  /** The stage a drawing needs. */
  method Size(columns: map<nat, seq<string>>) returns (width: nat, height: nat)
    ensures width >= 320 && height >= 190
    ensures forall c :: c in columns ==> (c + 1) * 280 <= width && |columns[c]| * 150 + 30 <= height
    ensures width == 320 || exists c :: c in columns && width == (c + 1) * 280
    ensures height == 190 || exists c :: c in columns && height == |columns[c]| * 150 + 30
  {
    width, height := 320, 190;
    var left := columns.Keys;
    while left != {}
      invariant left <= columns.Keys && width >= 320 && height >= 190
      invariant forall c :: c in columns && c !in left ==> (c + 1) * 280 <= width && |columns[c]| * 150 + 30 <= height
      invariant width == 320 || exists c :: c in columns && width == (c + 1) * 280
      invariant height == 190 || exists c :: c in columns && height == |columns[c]| * 150 + 30
    {
      var c :| c in left;
      width, height := Max(width, (c + 1) * 280), Max(height, |columns[c]| * 150 + 30);
      left := left - {c};
    }
  }

  /** What a drawing is, in terms of the graph alone: a layering, its last layer, and every node at the
      place its layer and its name give it. */
  ghost predicate Draws(
    nodes: set<string>, edges: seq<Edge>, visited: set<string>, layer: map<string, nat>, last: nat,
    positions: map<string, Position>)
  {
    && Layered(nodes, edges, visited, layer) && LayersSoFar(nodes, edges, visited, layer) && IsLast(layer, last)
    && positions.Keys == nodes
    && forall n :: n in nodes ==> positions[n] == PlaceOf(Final(layer, visited, last), n)
  }

  ghost predicate Fits(positions: map<string, Position>, width: nat, height: nat) {
    forall n :: n in positions ==> 0 <= positions[n].x <= width - 252 && 0 <= positions[n].y <= height - 150
  }

  /** Lays out a plan whose nodes are distinct, as the backlog's are. */
  method GraphLayout(identifiers: seq<string>, edges: seq<Edge>)
    returns (positions: map<string, Position>, width: nat, height: nat,
             ghost visited: set<string>, ghost layer: map<string, nat>, ghost last: nat)
    requires Distinct(identifiers)
    ensures Draws(SetOf(identifiers), Present(edges, identifiers), visited, layer, last, positions)
    ensures Fits(positions, width, height)
  {
    SortKeeps(identifiers);
    SortSorts(identifiers);
    var nodes := Sort(identifiers);
    var present := Present(edges, identifiers);
    assert SetOf(nodes) == SetOf(identifiers);
    var indegree, outgoing := Prepare(nodes, present);
    var reached, layers, _ := Walk(nodes, present, indegree, outgoing);
    var lastLayer := LastLayer(nodes, layers);
    var final := Final(layers, reached, lastLayer);
    assert forall n :: n in nodes ==> n in SetOf(nodes);
    var columns := Columns(nodes, final);
    ColumnsPartition(nodes, final, columns);
    positions := Place(columns, final);
    width, height := Size(columns);
    PlacesAre(nodes, final, columns, positions, width, height);
    visited, layer, last := reached, layers, lastLayer;
  }

  lemma ColumnsPartition(nodes: seq<string>, final: map<string, nat>, columns: map<nat, seq<string>>)
    requires Sorted(nodes) && SetOf(nodes) == final.Keys && (forall n :: n in nodes ==> n in final)
    requires ColumnsOf(nodes, final, columns)
    ensures Partition(columns, final)
  {
    forall c | c in columns ensures Sorted(columns[c]) && columns[c] == Column(nodes, final, c) {
      assert EntriesOf(columns, c) == Column(nodes, final, c);
      ColumnSorted(nodes, final, c);
    }
    forall n | n in final ensures final[n] in columns && n in columns[final[n]] {
      assert n in SetOf(nodes);
      assert n in Column(nodes, final, final[n]);
      assert EntriesOf(columns, final[n]) == Column(nodes, final, final[n]);
    }
  }

  lemma PlacesAre(
    nodes: seq<string>, final: map<string, nat>, columns: map<nat, seq<string>>, positions: map<string, Position>,
    width: nat, height: nat)
    requires Sorted(nodes) && Distinct(nodes) && SetOf(nodes) == final.Keys && (forall n :: n in nodes ==> n in final)
    requires ColumnsOf(nodes, final, columns) && Placed(columns, final, final.Keys, positions)
    requires forall c :: c in columns ==> (c + 1) * 280 <= width && |columns[c]| * 150 + 30 <= height
    ensures forall n :: n in final ==> positions[n] == PlaceOf(final, n)
    ensures Fits(positions, width, height)
  {
    forall n | n in final
      ensures positions[n] == PlaceOf(final, n)
      ensures 0 <= positions[n].x <= width - 252 && 0 <= positions[n].y <= height - 150
    {
      assert StandsAt(columns, final, n, positions[n]);
      var row: nat :| row < |EntriesOf(columns, final[n])| && EntriesOf(columns, final[n])[row] == n &&
                      positions[n] == At(final[n], row);
      RowIsRank(nodes, final, n, row);
      assert final[n] in columns;
    }
  }

  /** No two nodes share a place. */
  lemma PlacesDiffer(
    nodes: set<string>, edges: seq<Edge>, visited: set<string>, layer: map<string, nat>, last: nat,
    positions: map<string, Position>, n: string, m: string)
    requires Draws(nodes, edges, visited, layer, last, positions) && n in nodes && m in nodes && n != m
    ensures positions[n] != positions[m]
  {
    LeqTotal(n, m);
    var final := Final(layer, visited, last);
    if final[n] == final[m] {
      if Leq(n, m) { RanksDiffer(final, n, m); } else { RanksDiffer(final, m, n); }
    }
  }

  lemma RanksDiffer(final: map<string, nat>, n: string, m: string)
    requires n in final && m in final && final[n] == final[m] && n != m && Leq(n, m)
    ensures |Before(final, n)| < |Before(final, m)|
  {
    LeqTotal(n, m);
    forall x | x in Before(final, n) ensures x in Before(final, m) {
      LeqTransitive(x, n, m);
    }
    FewerIn(Before(final, n), Before(final, m), n);
  }

  lemma FewerIn(some: set<string>, more: set<string>, n: string)
    requires some <= more && n in more && n !in some
    ensures |some| < |more|
  {
    assert more == some + (more - some) && n in more - some;
  }

  /** An edge goes strictly right exactly when no cycle is behind its blocker; otherwise both its ends
      stand in the last column. */
  lemma EdgesGoRight(
    nodes: set<string>, edges: seq<Edge>, visited: set<string>, layer: map<string, nat>, last: nat,
    positions: map<string, Position>, e: Edge)
    requires Draws(nodes, edges, visited, layer, last, positions) && e in edges
    ensures e.blocker in nodes && e.dependent in nodes
    ensures if BehindCycle(edges, e.blocker) then positions[e.blocker].x == positions[e.dependent].x == 28 + (last + 1) * 280
            else positions[e.blocker].x < positions[e.dependent].x
  {
    VisitedIffAcyclic(nodes, edges, visited, layer, e.blocker);
  }

  /** A node no cycle is behind stands in the column of its longest incoming path, and every other one
      in a column of their own, past all of those. */
  lemma ColumnsMean(
    nodes: set<string>, edges: seq<Edge>, visited: set<string>, layer: map<string, nat>, last: nat,
    positions: map<string, Position>, n: string)
    requires Draws(nodes, edges, visited, layer, last, positions) && n in nodes
    ensures if BehindCycle(edges, n) then positions[n].x == 28 + (last + 1) * 280
            else exists length: nat :: LongestPath(edges, n, length) && length <= last && positions[n].x == 28 + length * 280
  {
    VisitedIffAcyclic(nodes, edges, visited, layer, n);
    if n in visited { LayerIsLongest(nodes, edges, visited, layer, n); }
  }

  /** One backlog always draws the same plan: neither the order nor the repetition of what is listed
      can move a node. */
  lemma SameGraphSameDrawing(
    nodes: set<string>, edges: seq<Edge>, visited: set<string>, layer: map<string, nat>, last: nat,
    positions: map<string, Position>,
    edges': seq<Edge>, visited': set<string>, layer': map<string, nat>, last': nat, positions': map<string, Position>)
    requires Draws(nodes, edges, visited, layer, last, positions)
    requires Draws(nodes, edges', visited', layer', last', positions')
    requires forall e :: e in edges <==> e in edges'
    ensures positions == positions'
  {
    LayeringUnique(nodes, edges, visited, layer, edges', visited', layer');
    SameLayers(nodes, edges, visited, layer, edges', layer');
    assert last == last';
    assert Final(layer, visited, last) == Final(layer', visited', last');
  }

  lemma SameLayers(
    nodes: set<string>, edges: seq<Edge>, visited: set<string>, layer: map<string, nat>,
    edges': seq<Edge>, layer': map<string, nat>)
    requires LayersSoFar(nodes, edges, visited, layer) && LayersSoFar(nodes, edges', visited, layer')
    requires visited <= nodes && (forall e :: e in edges <==> e in edges')
    requires forall m :: m in visited ==> layer[m] == layer'[m]
    ensures layer == layer'
  {
    forall n | n in nodes ensures layer[n] == layer'[n] {
      AtLeast(nodes, edges, visited, layer, edges', layer', n);
      AtLeast(nodes, edges', visited, layer', edges, layer, n);
    }
  }

  /** Where layers agree on the visited nodes they agree on all they pull. */
  lemma AtLeast(
    nodes: set<string>, edges: seq<Edge>, visited: set<string>, layer: map<string, nat>,
    edges': seq<Edge>, layer': map<string, nat>, n: string)
    requires LayersSoFar(nodes, edges, visited, layer) && LayersSoFar(nodes, edges', visited, layer') && n in nodes
    requires visited <= nodes && (forall e :: e in edges <==> e in edges')
    requires forall m :: m in visited ==> layer[m] == layer'[m]
    ensures layer[n] <= layer'[n]
  {
    assert Explained(edges, visited, layer, n);
    if layer[n] != 0 {
      var from :| from in visited && PulledBy(edges, layer, n, from);
      assert Edge(from, n) in edges';
    }
  }
}
