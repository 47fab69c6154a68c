# Patient zero: a verified model of the contagion simulation

The application draws a small-world social network, picks a hidden "patient
zero", spreads an infection from that person for a few discrete time steps,
and asks the user to guess the origin. As a hint, it names the infected
person with the highest closeness centrality within the infected group.

This project models the two pieces of real logic in `app.py`:

- `spread_virus`. It is a frontier-based contagion. The infected set and the
  spreader set both start as `{source}`. In each of `steps` rounds, every
  spreader offers infection to each neighbour that was not infected when the
  round began. The successful offers form the round's new infections. They
  join the infected set, and only they spread in the next round. A snapshot
  of the infected set is appended to the history after every round.
- The hint. It restricts the graph to the infected people, scores each one,
  and takes the first person with the highest score
  (`max(centrality, key=centrality.get)`).

Modules, one per component:

- `Graphs` (`graphs.dfy`): the undirected graph (a node set and an adjacency
  map, with `Valid` stating the shape every graph has), the induced subgraph,
  and graph distance. Distance is defined in two independent ways: by walks
  (`WithinDistance`) and by breadth-first layering (`Ball`, `Layer`). The
  lemmas `BallHasWalk`, `WalkInBall` and `BallIsDistance` prove that the two
  agree.
- `Contagion` (`contagion.dfy`): the spread as a pure function `Spread` of the
  graph, the source, the number of rounds and a coin oracle. The call
  `random.random() < prob` is replaced by `coin(round, spreader, neighbour)`,
  which gives one outcome per offer. `Bernoulli(draw, prob)` rebuilds that
  coin from uniform draws in [0, 1). The lemmas state the properties of the
  process.
- `Simulation` (`simulation.dfy`): `spread_virus` written as the loop it is,
  with nested loops over spreaders and neighbours and list snapshots. Each
  method is proved to compute exactly what `Spread` describes.
- `Hint` (`hint.dfy`): Python's `max` with a key, modelled as a scan that keeps
  the first maximum, and the hint computed over the induced subgraph of the
  infected people. The centrality score is an arbitrary function.

## Model

| member | source | states |
|---|---|---|
| Contagion.NewlyInfected | app.py:43-50 | one round's new infections were not infected when the round began, each is a neighbour of some spreader, and every neighbour of a spreader that was not yet infected and whose coin came up is among them |
| Contagion.Spread | app.py:35-56 | after `steps` rounds the history holds `steps + 1` snapshots, the first is `{source}`, the last equals the returned infected set, the source is always infected, and the spreaders are infected people |
| Contagion.HistoryIsSnapshots | app.py:40-54 | snapshot `i` of a run is the infected set after `i` rounds, so a longer run extends a shorter one |
| Contagion.HistoryMonotone | app.py:52-54 | infection never recedes: every snapshot is a subset of every later snapshot |
| Contagion.SpreadersAreNewlyInfected | app.py:43-53 | the spreaders of round `k` are exactly the people infected after round `k` minus those infected before it, and each is adjacent to a spreader of the previous round |
| Contagion.StalledStaysFixed | app.py:42-54 | once a round leaves no spreaders, the state stays the same for all later rounds |
| Contagion.InfectedWithinBall | app.py:42-53 | for any coin, after `k` rounds every infected person is within `k` breadth-first layers of the source |
| Contagion.InfectedWithinDistance | app.py:42-53 | for any coin, every person infected after `k` rounds is reached from the source by a walk of at most `k` edges |
| Contagion.InfectedAreNodes | app.py:44-52 | in a well-formed graph, spreading from a node infects only nodes of the graph |
| Contagion.CertainSpreadIsBall | app.py:42-54 | when every coin comes up, after `k` rounds the infected set is the radius-`k` ball and the spreaders are layer `k`: each round infects exactly the nodes adjacent to the ball that lie outside it |
| Contagion.CertainSpreadIsDistance | app.py:42-54 | when every coin comes up, a person is infected after `k` rounds if and only if they are within graph distance `k` of the source |
| Contagion.ProbabilityOneIsBreadthFirst | app.py:49 | with draws in [0, 1) and probability 1.0, `random.random() < prob` always holds and the spread is exactly breadth-first search to depth `steps` |
| Contagion.FailingCoinSpreadsNothing | app.py:48-54 | when no coin comes up, the infected set stays `{source}` and every snapshot is `{source}` |
| Contagion.ProbabilityZeroSpreadsNothing | app.py:49 | with draws in [0, 1) and probability 0.0, nobody but the source is ever infected |
| Simulation.ToList | app.py:54-56 | `list(s)` holds exactly the members of the set, each once, so it is as long as the set |
| Simulation.NewInfections | app.py:43-50 | the nested loop over spreaders and their neighbours collects exactly the round's new infections |
| Simulation.Round | app.py:43-53 | one pass of the loop body: the next spreaders are exactly the round's new infections, none of them was infected before, each is adjacent to a spreader of the round, and the infected set grows by exactly them |
| Simulation.SpreadVirus | app.py:35-56 | the returned list holds exactly the infected set with no duplicates, all of them graph nodes, the history has `steps + 1` duplicate-free lists matching the snapshots entry by entry, the first is `[source]`, and the last has the same elements as the returned list |
| Simulation.SpreadVirusWithoutInfection | app.py:48-56 | when no coin comes up, the call returns `[source]` and every history entry is `[source]` |
| Graphs.Induced | app.py:127 | the infected subgraph keeps the kept nodes and exactly the edges whose two ends are both kept, and is again a well-formed undirected graph |
| Hint.MaxBy | app.py:130 | `max` with a key returns nothing for an empty sequence; otherwise it returns a member whose score no member beats and that is the first such member in scanning order |
| Hint.FirstMaximumUnique | app.py:130 | the first maximum is unique, so the hint is determined by the scores and the scanning order |
| Hint.LikelySuspect | app.py:127-130 | for a non-empty list of infected people who are graph nodes, the suspect is one of them, is a node of the infected subgraph, and its score within that subgraph is at least every infected person's score |
| Hint.Investigate | app.py:72 | spreading and then asking for the hint always yields a suspect, because the source is always infected and every infected person is a graph node; the suspect is an infected graph node and scores highest |

## Left out

- The Streamlit page: sliders, buttons, session state, the guess and its feedback messages (app.py:8-25, 60-69, 76-114, 117-134). These are presentation and I/O.
- Drawing with matplotlib and networkx, including `spring_layout` (app.py:81-98). This is rendering only.
- `create_social_network` (app.py:29-33). It is a thin wrapper over the library's random Watts-Strogatz generator. The model takes any well-formed undirected graph instead.
- The random choice of patient zero (app.py:63). The source is a parameter, and the methods require it to be a node of the graph, as the caller guarantees.
- Pseudo-random floats (app.py:49). They are replaced by the coin oracle, or by a draw oracle with values in [0, 1) through `Bernoulli`. Probabilities of outcomes (for example, the chance that a neighbour of several spreaders is infected) are not modelled.
- `nx.closeness_centrality` (app.py:129). It is a floating-point library computation, so it is an arbitrary score `closeness(subgraph, node)`. Centrality values are reals, not IEEE doubles.
- Hint.LikelySuspect: the candidates are scanned in the order of the infected list. networkx scans the subgraph's nodes in its own iteration order, which the model does not track. Only the tie-breaking among equally scored people can differ. The method requires the infected people to be graph nodes. In the application they always are, because they come from the spread (`InfectedAreNodes`). A list with other names, which networkx would drop from the subgraph, is not modelled.
- `G.neighbors(person)` raises an error for a name that is not a node. `Graphs.Neighbors` returns no neighbours in that case instead. The methods require the source to be a node, and `InfectedAreNodes` shows that every spreader is then a node, so the error path is never reached.
- Contagion.Spread: as a reference definition it is total. For a source that is not a node it spreads nowhere, where the source code would raise an error once `steps > 0`.
