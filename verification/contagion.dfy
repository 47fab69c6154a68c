/**
  The contagion process of `spread_virus` as a pure function of the graph,
  the source, the number of rounds and a coin oracle.

  `random.random() < prob` is replaced by `coin(round, spreader, neighbour)`:
  one independent outcome for every offer a spreader makes to a neighbour in
  a round. `Bernoulli` rebuilds that coin from uniform draws in [0, 1), which
  is where the probability-one theorem comes from.
 */
module Contagion {
  import opened Graphs

  /** Whether the offer made in `round` by a spreader to a neighbour succeeds. */
  type Coin = (nat, Node, Node) -> bool

  /** The uniform draw in [0, 1) taken for an offer. */
  type Draw = (nat, Node, Node) -> real

  /** The coin `draw(round, spreader, neighbour) < prob`. */
  function Bernoulli(draw: Draw, prob: real): Coin {
    (round: nat, s: Node, n: Node) => draw(round, s, n) < prob
  }

  /** The cumulative infected set, and the people infected last round: the
      only ones who spread in the next round. */
  datatype State = State(infected: set<Node>, spreaders: set<Node>)

  /** What one round produces: every neighbour of a spreader that was not yet
      infected when the round began and whose coin came up. */
  function NewlyInfected(g: Graph, infected: set<Node>, spreaders: set<Node>, coin: Coin, round: nat): (caught: set<Node>)
    ensures caught !! infected
    ensures caught <= Around(g, spreaders)
    ensures forall s, n :: s in spreaders && n in Neighbors(g, s) && n !in infected && coin(round, s, n) ==> n in caught
  {
    set s, n | s in spreaders && n in Neighbors(g, s) && n !in infected && coin(round, s, n) :: n
  }

  function Start(source: Node): State {
    State({source}, {source})
  }

  /** One round: merge the new infections, and let only them spread next. */
  function Step(g: Graph, st: State, coin: Coin, round: nat): State {
    var caught := NewlyInfected(g, st.infected, st.spreaders, coin, round);
    State(st.infected + caught, caught)
  }

  /** The state after `steps` rounds, and the snapshot of the infected set
      taken before the first round and after every round. */
  datatype Run = Run(state: State, history: seq<set<Node>>)

  function Spread(g: Graph, source: Node, steps: nat, coin: Coin): (r: Run)
    ensures |r.history| == steps + 1
    ensures r.history[0] == {source}
    ensures r.history[steps] == r.state.infected
    ensures source in r.state.infected
    ensures r.state.spreaders <= r.state.infected
    decreases steps
  {
    if steps == 0 then Run(Start(source), [{source}])
    else
      var prev := Spread(g, source, steps - 1, coin);
      var next := Step(g, prev.state, coin, steps - 1);
      Run(next, prev.history + [next.infected])
  }

  /** Every snapshot is the infected set of the shorter run that ends there. */
  lemma {:induction false} HistoryIsSnapshots(g: Graph, source: Node, steps: nat, coin: Coin, i: nat)
    requires i <= steps
    ensures Spread(g, source, steps, coin).history[i] == Spread(g, source, i, coin).state.infected
    decreases steps
  {
    if i < steps {
      HistoryIsSnapshots(g, source, steps - 1, coin, i);
      assert Spread(g, source, steps, coin).history[i] == Spread(g, source, steps - 1, coin).history[i];
    }
  }

  /** Infection never recedes: each snapshot is contained in every later one. */
  lemma {:induction false} HistoryMonotone(g: Graph, source: Node, steps: nat, coin: Coin)
    ensures forall i, j :: 0 <= i <= j <= steps ==>
      Spread(g, source, steps, coin).history[i] <= Spread(g, source, steps, coin).history[j]
    decreases steps
  {
    if steps > 0 {
      HistoryMonotone(g, source, steps - 1, coin);
      var prev := Spread(g, source, steps - 1, coin).history;
      var h := Spread(g, source, steps, coin).history;
      assert h[..steps] == prev;
      forall i, j | 0 <= i <= j <= steps
        ensures h[i] <= h[j]
      {
        if j < steps {
          assert h[i] == prev[i] && h[j] == prev[j];
        } else if i < steps {
          var before := Spread(g, source, steps - 1, coin).state;
          assert prev[steps - 1] == before.infected;
          assert h[i] == prev[i] && prev[i] <= prev[steps - 1];
        }
      }
    }
  }

  /** The people who spread in round `k` are exactly those infected in round
      `k - 1` and not before; each caught it from a spreader of round `k - 1`. */
  lemma SpreadersAreNewlyInfected(g: Graph, source: Node, k: nat, coin: Coin)
    requires k > 0
    ensures var now := Spread(g, source, k, coin).state;
      var before := Spread(g, source, k - 1, coin).state;
      && now.spreaders == now.infected - before.infected
      && now.spreaders <= Around(g, before.spreaders)
  {
  }

  /** Once a round infects nobody the process is over: every later state is
      the same. */
  lemma {:induction false} StalledStaysFixed(g: Graph, source: Node, coin: Coin, k: nat, j: nat)
    requires k <= j
    requires Spread(g, source, k, coin).state.spreaders == {}
    ensures Spread(g, source, j, coin).state == Spread(g, source, k, coin).state
    decreases j
  {
    if k < j {
      StalledStaysFixed(g, source, coin, k, j - 1);
      var st := Spread(g, source, j - 1, coin).state;
      assert NewlyInfected(g, st.infected, st.spreaders, coin, j - 1) == {};
    }
  }

  /** Whatever the coin does, after `k` rounds only nodes within `k` layers of
      breadth-first search from the source are infected. */
  lemma {:induction false} InfectedWithinBall(g: Graph, source: Node, k: nat, coin: Coin)
    ensures Spread(g, source, k, coin).state.infected <= Ball(g, source, k)
    decreases k
  {
    if k > 0 {
      InfectedWithinBall(g, source, k - 1, coin);
      var prev := Spread(g, source, k - 1, coin).state;
      var inner := Ball(g, source, k - 1);
      forall n | n in Around(g, prev.spreaders)
        ensures n in Around(g, inner)
      {
        var m :| m in prev.spreaders && n in Neighbors(g, m);
        assert m in inner;
      }
    }
  }

  /** Every infected person is at graph distance at most `k` from the source. */
  lemma InfectedWithinDistance(g: Graph, source: Node, k: nat, coin: Coin, n: Node)
    requires n in Spread(g, source, k, coin).state.infected
    ensures WithinDistance(g, source, n, k)
  {
    InfectedWithinBall(g, source, k, coin);
    BallIsDistance(g, source, k, n);
  }

  /** In a well-formed graph, spreading from a node infects only nodes. */
  lemma InfectedAreNodes(g: Graph, source: Node, k: nat, coin: Coin)
    requires Valid(g) && source in g.nodes
    ensures Spread(g, source, k, coin).state.infected <= g.nodes
  {
    InfectedWithinBall(g, source, k, coin);
    BallWithinNodes(g, source, k);
  }

  /** A node adjacent to the ball of radius `k` but outside it is adjacent to
      layer `k` itself: the inner layers only reach into the ball. */
  lemma {:induction false} OuterNeighbourTouchesLayer(g: Graph, source: Node, k: nat, m: Node, n: Node)
    requires m in Ball(g, source, k) && n in Neighbors(g, m)
    requires n !in Ball(g, source, k)
    ensures m in Layer(g, source, k)
  {
    if k > 0 {
      var core := Ball(g, source, k - 1);
      assert m in core ==> n in Around(g, core);
    }
  }

  /** One round of a certain spread from breadth-first layer `k`: the new
      infections are the nodes adjacent to the ball that are not in it. */
  lemma CertainRoundIsNextLayer(g: Graph, source: Node, k: nat, coin: Coin)
    requires forall round, s, n :: coin(round, s, n)
    ensures var inner := Ball(g, source, k);
      NewlyInfected(g, inner, Layer(g, source, k), coin, k) == Around(g, inner) - inner
  {
    var inner := Ball(g, source, k);
    var layer := Layer(g, source, k);
    var caught := NewlyInfected(g, inner, layer, coin, k);
    forall n | n in Around(g, inner) && n !in inner
      ensures n in caught
    {
      var m :| m in inner && n in Neighbors(g, m);
      OuterNeighbourTouchesLayer(g, source, k, m, n);
      assert coin(k, m, n);
    }
    assert layer <= inner;
  }

  /** With a coin that always comes up, round `k` infects exactly breadth-first
      layer `k`, and the infected set is the whole ball of radius `k`. */
  lemma {:induction false} CertainSpreadIsBall(g: Graph, source: Node, k: nat, coin: Coin)
    requires forall round, s, n :: coin(round, s, n)
    ensures Spread(g, source, k, coin).state == State(Ball(g, source, k), Layer(g, source, k))
    decreases k
  {
    if k > 0 {
      CertainSpreadIsBall(g, source, k - 1, coin);
      CertainRoundIsNextLayer(g, source, k - 1, coin);
      var inner := Ball(g, source, k - 1);
      assert Ball(g, source, k) == inner + (Around(g, inner) - inner);
    }
  }

  /** The distance form: with a coin that always comes up, a person is
      infected after `k` rounds exactly when within distance `k` of the source. */
  lemma CertainSpreadIsDistance(g: Graph, source: Node, k: nat, coin: Coin, n: Node)
    requires forall round, s, n :: coin(round, s, n)
    ensures n in Spread(g, source, k, coin).state.infected <==> WithinDistance(g, source, n, k)
  {
    CertainSpreadIsBall(g, source, k, coin);
    BallIsDistance(g, source, k, n);
  }

  /** Infection probability 1.0: every draw in [0, 1) is below it, so the
      spread is exactly breadth-first search to depth `steps`. */
  lemma ProbabilityOneIsBreadthFirst(g: Graph, source: Node, steps: nat, draw: Draw)
    requires forall round, s, n :: 0.0 <= draw(round, s, n) < 1.0
    ensures Spread(g, source, steps, Bernoulli(draw, 1.0)).state.infected == Ball(g, source, steps)
  {
    CertainSpreadIsBall(g, source, steps, Bernoulli(draw, 1.0));
  }

  /** With a coin that never comes up, nobody but the source is ever infected
      and every snapshot is just the source. */
  lemma {:induction false} FailingCoinSpreadsNothing(g: Graph, source: Node, k: nat, coin: Coin)
    requires forall round, s, n :: !coin(round, s, n)
    ensures var r := Spread(g, source, k, coin);
      && r.state.infected == {source}
      && forall i :: 0 <= i < |r.history| ==> r.history[i] == {source}
    decreases k
  {
    if k > 0 {
      FailingCoinSpreadsNothing(g, source, k - 1, coin);
      var prev := Spread(g, source, k - 1, coin).state;
      assert NewlyInfected(g, prev.infected, prev.spreaders, coin, k - 1) == {};
    }
  }

  /** Infection probability 0.0: no draw in [0, 1) is below it. */
  lemma ProbabilityZeroSpreadsNothing(g: Graph, source: Node, steps: nat, draw: Draw)
    requires forall round, s, n :: 0.0 <= draw(round, s, n) < 1.0
    ensures Spread(g, source, steps, Bernoulli(draw, 0.0)).state.infected == {source}
  {
    FailingCoinSpreadsNothing(g, source, steps, Bernoulli(draw, 0.0));
  }
}
