/**
  Undirected graphs over integer-labelled people, as the contagion simulation
  sees them: a node set and, for every node, the set of its neighbours.

  Graph distance is defined twice, independently: by walks (`WithinDistance`)
  and by breadth-first layering (`Ball`); `BallIsDistance` proves they agree.
 */
module Graphs {

  /** People are numbered 0 .. N-1 by the small-world generator. */
  type Node = nat

  datatype Graph = Graph(nodes: set<Node>, adj: map<Node, set<Node>>)

  /** The shape every undirected graph object has: one adjacency entry per
      node, edges only between nodes, and every edge stored both ways. */
  ghost predicate Valid(g: Graph) {
    && g.adj.Keys == g.nodes
    && (forall u :: u in g.adj ==> g.adj[u] <= g.nodes)
    && (forall u, v :: u in g.adj && v in g.adj[u] ==> v in g.adj && u in g.adj[v])
  }

  /** The neighbours of `u`; a name that is not a node has none. */
  function Neighbors(g: Graph, u: Node): set<Node> {
    if u in g.adj then g.adj[u] else {}
  }

  /** Every node adjacent to some member of `s`. */
  function Around(g: Graph, s: set<Node>): set<Node> {
    set m, n | m in s && n in Neighbors(g, m) :: n
  }

  /** A walk: consecutive entries are adjacent. */
  ghost predicate IsWalk(g: Graph, w: seq<Node>) {
    forall i :: 0 <= i < |w| - 1 ==> w[i + 1] in Neighbors(g, w[i])
  }

  /** `n` is at graph distance at most `k` from `source`: some walk of at
      most `k` edges leads there. */
  ghost predicate WithinDistance(g: Graph, source: Node, n: Node, k: nat) {
    exists w :: IsWalk(g, w) && 0 < |w| <= k + 1 && w[0] == source && w[|w| - 1] == n
  }

  /** Breadth-first layering: `source`, then everything adjacent to what is
      already reached, `k` times over. */
  function Ball(g: Graph, source: Node, k: nat): (b: set<Node>)
    decreases k
  {
    if k == 0 then {source}
    else
      var inner := Ball(g, source, k - 1);
      inner + Around(g, inner)
  }

  /** Layer `k`: the nodes at distance exactly `k`. */
  function Layer(g: Graph, source: Node, k: nat): set<Node> {
    if k == 0 then {source} else Ball(g, source, k) - Ball(g, source, k - 1)
  }

  /** Every node breadth-first search reaches in `k` layers has a walk of at
      most `k` edges from `source`. */
  lemma {:induction false} BallHasWalk(g: Graph, source: Node, k: nat, n: Node)
    requires n in Ball(g, source, k)
    ensures WithinDistance(g, source, n, k)
    decreases k
  {
    if k == 0 {
      assert IsWalk(g, [source]);
    } else {
      var inner := Ball(g, source, k - 1);
      if n in inner {
        BallHasWalk(g, source, k - 1, n);
      } else {
        var m :| m in inner && n in Neighbors(g, m);
        BallHasWalk(g, source, k - 1, m);
        var w :| IsWalk(g, w) && 0 < |w| <= k && w[0] == source && w[|w| - 1] == m;
        var w' := w + [n];
        assert IsWalk(g, w') by {
          forall i | 0 <= i < |w'| - 1
            ensures w'[i + 1] in Neighbors(g, w'[i])
          {
            if i < |w| - 1 {
              assert w'[i] == w[i] && w'[i + 1] == w[i + 1];
            }
          }
        }
        assert w'[0] == source && w'[|w'| - 1] == n;
      }
    }
  }

  /** The end of every walk of at most `k` edges from `source` is reached by
      breadth-first search within `k` layers. */
  lemma {:induction false} WalkInBall(g: Graph, source: Node, k: nat, w: seq<Node>)
    requires IsWalk(g, w) && 0 < |w| <= k + 1 && w[0] == source
    ensures w[|w| - 1] in Ball(g, source, k)
    decreases k
  {
    if k > 0 {
      if |w| <= k {
        WalkInBall(g, source, k - 1, w);
      } else {
        var prefix := w[..|w| - 1];
        assert IsWalk(g, prefix) by {
          forall i | 0 <= i < |prefix| - 1
            ensures prefix[i + 1] in Neighbors(g, prefix[i])
          {
            assert prefix[i] == w[i] && prefix[i + 1] == w[i + 1];
          }
        }
        WalkInBall(g, source, k - 1, prefix);
        assert w[|w| - 1] in Neighbors(g, prefix[|prefix| - 1]);
      }
    }
  }

  /** Breadth-first layering and walk distance describe the same set. */
  lemma BallIsDistance(g: Graph, source: Node, k: nat, n: Node)
    ensures n in Ball(g, source, k) <==> WithinDistance(g, source, n, k)
  {
    if n in Ball(g, source, k) {
      BallHasWalk(g, source, k, n);
    }
    if WithinDistance(g, source, n, k) {
      var w :| IsWalk(g, w) && 0 < |w| <= k + 1 && w[0] == source && w[|w| - 1] == n;
      WalkInBall(g, source, k, w);
    }
  }

  /** In a well-formed graph, breadth-first search from a node stays among
      the nodes. */
  lemma {:induction false} BallWithinNodes(g: Graph, source: Node, k: nat)
    requires Valid(g) && source in g.nodes
    ensures Ball(g, source, k) <= g.nodes
    decreases k
  {
    if k > 0 {
      BallWithinNodes(g, source, k - 1);
    }
  }

  /** The subgraph induced by `keep`: its nodes, and only the edges whose two
      ends are both kept. */
  function Induced(g: Graph, keep: set<Node>): (h: Graph)
    requires Valid(g)
    ensures Valid(h)
    ensures h.nodes == g.nodes * keep
    ensures forall u, v :: v in Neighbors(h, u) <==> u in keep && v in keep && v in Neighbors(g, u)
  {
    Graph(g.nodes * keep, map u | u in g.nodes * keep :: g.adj[u] * keep)
  }
}
