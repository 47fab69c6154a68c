/**
  `spread_virus` as the loop it is written as: sets of infected people and of
  spreaders, a nested loop over spreaders and their neighbours, and a list
  snapshot of the infected set appended after every round. Each method is
  proved to compute what the functional model in `Contagion` describes.
 */
module Simulation {
  import opened Graphs
  import opened Contagion

  /** The people a list holds. */
  function Elems(xs: seq<Node>): set<Node> {
    set x | x in xs
  }

  /** No person is listed twice. */
  predicate Distinct(xs: seq<Node>) {
    forall i, j :: 0 <= i < j < |xs| ==> xs[i] != xs[j]
  }

  /** `list(s)`: the members of a set, each once, in an unspecified order. */
  method ToList(s: set<Node>) returns (xs: seq<Node>)
    ensures Elems(xs) == s
    ensures Distinct(xs)
    ensures |xs| == |s|
  {
    xs := [];
    var left := s;
    while left != {}
      invariant left <= s
      invariant Elems(xs) == s - left
      invariant Distinct(xs)
      decreases left
    {
      var x :| x in left;
      assert Elems(xs + [x]) == Elems(xs) + {x};
      xs := xs + [x];
      left := left - {x};
    }
    DistinctLength(xs);
  }

  /** A duplicate-free list is as long as the set of people it holds. */
  lemma {:induction false} DistinctLength(xs: seq<Node>)
    requires Distinct(xs)
    ensures |Elems(xs)| == |xs|
  {
    if xs != [] {
      var init := xs[..|xs| - 1];
      var last := xs[|xs| - 1];
      assert xs == init + [last];
      assert Elems(xs) == Elems(init) + {last};
      assert last !in Elems(init);
      DistinctLength(init);
    }
  }

  /** A duplicate-free list of exactly one person is that person alone. */
  lemma SingletonList(xs: seq<Node>, x: Node)
    requires Elems(xs) == {x} && Distinct(xs)
    ensures xs == [x]
  {
    DistinctLength(xs);
    assert xs[0] in Elems(xs);
  }

  /** Offers of `person` to the neighbours in `asked` that succeed. */
  function Offers(infected: set<Node>, person: Node, asked: set<Node>, coin: Coin, round: nat): set<Node> {
    set n | n in asked && n !in infected && coin(round, person, n)
  }

  /** Adding one spreader adds exactly that spreader's successful offers. */
  lemma NewlyInfectedAddSpreader(g: Graph, infected: set<Node>, done: set<Node>, person: Node, coin: Coin, round: nat)
    ensures NewlyInfected(g, infected, done + {person}, coin, round)
         == NewlyInfected(g, infected, done, coin, round) + Offers(infected, person, Neighbors(g, person), coin, round)
  {
  }

  /** The body of one round: every current spreader offers infection to each
      neighbour not infected when the round began. */
  method NewInfections(g: Graph, infected: set<Node>, spreaders: set<Node>, coin: Coin, round: nat)
    returns (caught: set<Node>)
    ensures caught == NewlyInfected(g, infected, spreaders, coin, round)
  {
    caught := {};
    var todo := spreaders;
    while todo != {}
      invariant todo <= spreaders
      invariant caught == NewlyInfected(g, infected, spreaders - todo, coin, round)
      decreases todo
    {
      var person :| person in todo;
      var neighbors := Neighbors(g, person);
      var left := neighbors;
      while left != {}
        invariant left <= neighbors
        invariant caught == NewlyInfected(g, infected, spreaders - todo, coin, round)
                          + Offers(infected, person, neighbors - left, coin, round)
        decreases left
      {
        var neighbor :| neighbor in left;
        if neighbor !in infected && coin(round, person, neighbor) {
          caught := caught + {neighbor};
        }
        left := left - {neighbor};
      }
      NewlyInfectedAddSpreader(g, infected, spreaders - todo, person, coin, round);
      assert spreaders - (todo - {person}) == (spreaders - todo) + {person};
      todo := todo - {person};
    }
  }

  /** A history of lists that records, entry by entry and without
      duplicates, the snapshots `h`. */
  predicate Records(history: seq<seq<Node>>, h: seq<set<Node>>) {
    && |history| == |h|
    && forall i :: 0 <= i < |history| ==> Elems(history[i]) == h[i] && Distinct(history[i])
  }

  lemma RecordsExtend(history: seq<seq<Node>>, h: seq<set<Node>>, snapshot: seq<Node>, infected: set<Node>)
    requires Records(history, h)
    requires Elems(snapshot) == infected && Distinct(snapshot)
    ensures Records(history + [snapshot], h + [infected])
  {
    var history', h' := history + [snapshot], h + [infected];
    forall i | 0 <= i < |history'|
      ensures Elems(history'[i]) == h'[i] && Distinct(history'[i])
    {
      if i < |history| {
        assert history'[i] == history[i] && h'[i] == h[i];
      }
    }
  }

  /** One pass of the loop body: the new infections are merged and become the
      next round's spreaders. Those spreaders are people not infected before
      the round, each adjacent to a spreader of the round, and they are all
      the infected set gained. */
  method Round(g: Graph, st: State, coin: Coin, round: nat) returns (next: State)
    ensures next.spreaders == NewlyInfected(g, st.infected, st.spreaders, coin, round)
    ensures next.infected == st.infected + next.spreaders
    ensures next.spreaders !! st.infected
    ensures next.spreaders <= Around(g, st.spreaders)
  {
    var caught := NewInfections(g, st.infected, st.spreaders, coin, round);
    next := State(st.infected + caught, caught);
  }

  /** `spread_virus(G, source, steps, prob)` with `random.random() < prob`
      replaced by `coin`: the infected list and the per-round history agree
      with `Spread` as sets, and every list is free of duplicates. */
  method SpreadVirus(g: Graph, source: Node, steps: nat, coin: Coin)
    returns (infectedList: seq<Node>, history: seq<seq<Node>>)
    requires Valid(g) && source in g.nodes
    ensures Elems(infectedList) == Spread(g, source, steps, coin).state.infected
    ensures Distinct(infectedList)
    ensures Elems(infectedList) <= g.nodes
    ensures Records(history, Spread(g, source, steps, coin).history)
    ensures |history| == steps + 1
    ensures history[0] == [source]
    ensures Elems(history[steps]) == Elems(infectedList)
  {
    var st := Start(source);
    history := [[source]];
    var round := 0;
    while round < steps
      invariant round <= steps
      invariant st == Spread(g, source, round, coin).state
      invariant Records(history, Spread(g, source, round, coin).history)
      invariant history[0] == [source]
    {
      st := Round(g, st, coin, round);
      var snapshot := ToList(st.infected);
      RecordsExtend(history, Spread(g, source, round, coin).history, snapshot, st.infected);
      history := history + [snapshot];
      round := round + 1;
    }
    infectedList := ToList(st.infected);
    InfectedAreNodes(g, source, steps, coin);
  }

  /** With a coin that never comes up, the call returns `[source]` and every
      snapshot in its history is `[source]`. */
  method SpreadVirusWithoutInfection(g: Graph, source: Node, steps: nat, coin: Coin)
    returns (infectedList: seq<Node>, history: seq<seq<Node>>)
    requires Valid(g) && source in g.nodes
    requires forall round, s, n :: !coin(round, s, n)
    ensures infectedList == [source]
    ensures |history| == steps + 1
    ensures forall i :: 0 <= i < |history| ==> history[i] == [source]
  {
    infectedList, history := SpreadVirus(g, source, steps, coin);
    FailingCoinSpreadsNothing(g, source, steps, coin);
    SingletonList(infectedList, source);
    forall i | 0 <= i < |history|
      ensures history[i] == [source]
    {
      SingletonList(history[i], source);
    }
  }
}
