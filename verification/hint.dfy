/**
  The detective's hint: restrict the graph to the infected people, score each
  of them by closeness centrality within that subgraph, and name the one with
  the highest score as the likely patient zero.

  Closeness centrality itself is a floating-point library computation; here it
  is an arbitrary score `closeness(subgraph, node)`.
 */
module Hint {
  import opened Graphs
  import opened Contagion
  import opened Simulation

  datatype Option<T> = None | Some(value: T)

  /** Position `i` holds the first key whose score no other key beats. */
  predicate FirstMaximum(keys: seq<Node>, score: Node -> real, i: int) {
    && 0 <= i < |keys|
    && (forall j :: 0 <= j < |keys| ==> score(keys[j]) <= score(keys[i]))
    && (forall j :: 0 <= j < i ==> score(keys[j]) < score(keys[i]))
  }

  /** `max(keys, key=score)`: scanning in order and replacing the best only on
      a strictly higher score, so the first maximal key wins. An empty
      sequence has no maximum (Python raises `ValueError`). */
  method MaxBy(keys: seq<Node>, score: Node -> real) returns (r: Option<Node>)
    ensures r.None? <==> keys == []
    ensures r.Some? ==> r.value in keys && forall k :: k in keys ==> score(k) <= score(r.value)
    ensures r.Some? ==> exists i :: FirstMaximum(keys, score, i) && keys[i] == r.value
  {
    if keys == [] {
      return None;
    }
    var best := 0;
    var i := 1;
    while i < |keys|
      invariant 1 <= i <= |keys|
      invariant 0 <= best < i
      invariant forall j :: 0 <= j < i ==> score(keys[j]) <= score(keys[best])
      invariant forall j :: 0 <= j < best ==> score(keys[j]) < score(keys[best])
    {
      if score(keys[i]) > score(keys[best]) {
        best := i;
      }
      i := i + 1;
    }
    assert FirstMaximum(keys, score, best);
    return Some(keys[best]);
  }

  /** Only one key can be the first maximum, so the hint is determined by the
      scores and the scanning order. */
  lemma FirstMaximumUnique(keys: seq<Node>, score: Node -> real, i: int, j: int)
    requires FirstMaximum(keys, score, i) && FirstMaximum(keys, score, j)
    ensures i == j
  {
    var atI, atJ := score(keys[i]), score(keys[j]);
    assert i < j ==> atI < atJ;
    assert j < i ==> atJ < atI;
    assert atI == atJ;
  }

  /** Score the infected people inside the subgraph they induce and take the
      first highest-scoring one. The infected people are nodes of the graph,
      so each of them is scored and the suspect is one of the graph's nodes. */
  method LikelySuspect(g: Graph, infectedList: seq<Node>, closeness: (Graph, Node) -> real)
    returns (suspect: Node)
    requires Valid(g) && infectedList != []
    requires Elems(infectedList) <= g.nodes
    ensures suspect in infectedList
    ensures suspect in Induced(g, Elems(infectedList)).nodes
    ensures var sub := Induced(g, Elems(infectedList));
      forall n :: n in infectedList ==> closeness(sub, n) <= closeness(sub, suspect)
  {
    var sub := Induced(g, Elems(infectedList));
    var hint := MaxBy(infectedList, (n: Node) => closeness(sub, n));
    suspect := hint.value;
  }

  /** Spread the infection, then name the infected person most central within
      the infected subgraph. The spread always infects the source, so the
      hint always exists. */
  method Investigate(g: Graph, source: Node, steps: nat, coin: Coin, closeness: (Graph, Node) -> real)
    returns (infectedList: seq<Node>, suspect: Node)
    requires Valid(g) && source in g.nodes
    ensures Elems(infectedList) == Spread(g, source, steps, coin).state.infected
    ensures suspect in Spread(g, source, steps, coin).state.infected
    ensures suspect in g.nodes
    ensures var sub := Induced(g, Elems(infectedList));
      forall n :: n in infectedList ==> closeness(sub, n) <= closeness(sub, suspect)
  {
    var history;
    infectedList, history := SpreadVirus(g, source, steps, coin);
    assert source in Elems(infectedList);
    suspect := LikelySuspect(g, infectedList, closeness);
  }
}
