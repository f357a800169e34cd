/**
  The improve-or-retain transition of hill-climbing local search, as values.

  A solver that has been initialised is in a `SearchState`: the solution it
  currently holds and the number of consecutive steps that have not improved
  on it. One step is given the neighbour the neighbour hook produced and
  either accepts it (strictly better: the counter drops to 0) or keeps the
  current solution (the counter grows by one). `Run` replays a whole series
  of steps, `Outcomes` records what each of them decided.

  The comparison `better(a, b)` reads "a is better than b" and stands for the
  solution type's `isBetterThan`; its laws are not assumed globally but stated
  as preconditions where they are needed.
*/
module LocalSearch {

  /** What one step decided. */
  datatype Outcome = Improved | NotImproved

  /** The state of an initialised solver. */
  datatype SearchState<S> = SearchState(current: S, stagnation: nat)

  ghost predicate Irreflexive<S(!new)>(better: (S, S) -> bool) {
    forall x :: !better(x, x)
  }

  ghost predicate Transitive<S(!new)>(better: (S, S) -> bool) {
    forall x, y, z :: better(x, y) && better(y, z) ==> better(x, z)
  }

  /** The state right after initialisation with solution `initial`. */
  function Start<S>(initial: S): SearchState<S> {
    SearchState(initial, 0)
  }

  /** The acceptance test of one step: only a strictly better neighbour counts. */
  function Verdict<S>(better: (S, S) -> bool, current: S, neighbor: S): Outcome {
    if better(neighbor, current) then Improved else NotImproved
  }

  /** One step offered `neighbor`. */
  function Next<S>(better: (S, S) -> bool, s: SearchState<S>, neighbor: S): SearchState<S> {
    if better(neighbor, s.current) then SearchState(neighbor, 0)
    else SearchState(s.current, s.stagnation + 1)
  }

  /** The state after one step per element of `neighbors`, in order. */
  function Run<S>(better: (S, S) -> bool, s: SearchState<S>, neighbors: seq<S>): SearchState<S>
    decreases |neighbors|
  {
    if neighbors == [] then s
    else Next(better, Run(better, s, neighbors[..|neighbors| - 1]), neighbors[|neighbors| - 1])
  }

  /** The outcome of each of those steps, in order. */
  function Outcomes<S>(better: (S, S) -> bool, s: SearchState<S>, neighbors: seq<S>): (r: seq<Outcome>)
    ensures |r| == |neighbors|
    decreases |neighbors|
  {
    if neighbors == [] then []
    else
      var earlier := neighbors[..|neighbors| - 1];
      Outcomes(better, s, earlier)
        + [Verdict(better, Run(better, s, earlier).current, neighbors[|neighbors| - 1])]
  }

  /**
    The number of trailing `NotImproved` entries of a history: how many steps
    since the last improvement, or since the start when there was none.
  */
  function TrailingStagnation(history: seq<Outcome>): (r: nat)
    ensures r <= |history|
    ensures forall i :: |history| - r <= i < |history| ==> history[i] == NotImproved
    ensures r < |history| ==> history[|history| - 1 - r] == Improved
    decreases |history|
  {
    if history == [] || history[|history| - 1] == Improved then 0
    else
      var earlier := history[..|history| - 1];
      var k := TrailingStagnation(earlier);
      assert forall i :: |earlier| - k <= i < |earlier| ==> history[i] == earlier[i] == NotImproved;
      assert k < |earlier| ==> history[|earlier| - 1 - k] == earlier[|earlier| - 1 - k] == Improved;
      assert history[|earlier|] == NotImproved;
      assert forall i :: |history| - (1 + k) <= i < |history| ==> history[i] == NotImproved;
      1 + k
  }

  /** The three postconditions of `TrailingStagnation` determine its value. */
  lemma TrailingStagnationUnique(history: seq<Outcome>, k: nat)
    requires k <= |history|
    requires forall i :: |history| - k <= i < |history| ==> history[i] == NotImproved
    requires k < |history| ==> history[|history| - 1 - k] == Improved
    ensures k == TrailingStagnation(history)
  {
  }

  /** Appending one outcome: an improvement resets the count, anything else adds one. */
  lemma TrailingStagnationSnoc(history: seq<Outcome>, o: Outcome)
    ensures TrailingStagnation(history + [o])
            == if o == Improved then 0 else TrailingStagnation(history) + 1
  {
  }

  /** The last outcome of a run is the verdict on its last neighbour. */
  lemma OutcomesSnoc<S>(better: (S, S) -> bool, s: SearchState<S>, neighbors: seq<S>, n: S)
    ensures Outcomes(better, s, neighbors + [n])
            == Outcomes(better, s, neighbors) + [Verdict(better, Run(better, s, neighbors).current, n)]
    ensures Run(better, s, neighbors + [n]) == Next(better, Run(better, s, neighbors), n)
  {
  }

  /**
    The stagnation counter after a run is the number of trailing non-improving
    steps; when no step improved, the run also adds to the count it started from.
  */
  lemma {:induction false} RunStagnation<S>(better: (S, S) -> bool, s: SearchState<S>, neighbors: seq<S>)
    ensures var outs := Outcomes(better, s, neighbors);
            Run(better, s, neighbors).stagnation
            == TrailingStagnation(outs) + (if Improved in outs then 0 else s.stagnation)
    decreases |neighbors|
  {
    if neighbors != [] {
      var earlier := neighbors[..|neighbors| - 1];
      var n := neighbors[|neighbors| - 1];
      RunStagnation(better, s, earlier);
      OutcomesSnoc(better, s, earlier, n);
      var o := Verdict(better, Run(better, s, earlier).current, n);
      TrailingStagnationSnoc(Outcomes(better, s, earlier), o);
    }
  }

  /** Right after initialisation the counter is exactly the trailing stagnation of the history. */
  lemma StagnationFromStart<S>(better: (S, S) -> bool, initial: S, neighbors: seq<S>)
    ensures Run(better, Start(initial), neighbors).stagnation
            == TrailingStagnation(Outcomes(better, Start(initial), neighbors))
  {
    RunStagnation(better, Start(initial), neighbors);
  }

  /** A run in which no step improved keeps its solution and counts every step. */
  lemma {:induction false} RunWithoutImprovement<S>(better: (S, S) -> bool, s: SearchState<S>, neighbors: seq<S>)
    requires Improved !in Outcomes(better, s, neighbors)
    ensures Run(better, s, neighbors) == SearchState(s.current, s.stagnation + |neighbors|)
    decreases |neighbors|
  {
    if neighbors != [] {
      var earlier := neighbors[..|neighbors| - 1];
      RunWithoutImprovement(better, s, earlier);
    }
  }

  /**
    When every neighbour offered is not better than the solution held, the
    solution stays put through any number of steps and the counter grows by
    exactly one per step.
  */
  lemma {:induction false} NeverBetterKeepsCurrent<S>(better: (S, S) -> bool, s: SearchState<S>, neighbors: seq<S>)
    requires forall i :: 0 <= i < |neighbors| ==> !better(neighbors[i], s.current)
    ensures Run(better, s, neighbors) == SearchState(s.current, s.stagnation + |neighbors|)
    ensures forall i :: 0 <= i < |neighbors| ==> Outcomes(better, s, neighbors)[i] == NotImproved
    decreases |neighbors|
  {
    if neighbors != [] {
      var earlier := neighbors[..|neighbors| - 1];
      NeverBetterKeepsCurrent(better, s, earlier);
      var outs := Outcomes(better, s, neighbors);
      forall i | 0 <= i < |neighbors| ensures outs[i] == NotImproved {
        if i < |earlier| {
          assert outs[i] == Outcomes(better, s, earlier)[i];
        }
      }
    }
  }

  /**
    When every neighbour is better than the one before it (the first one than
    the solution held), every step accepts, the solver ends on the latest
    neighbour and the counter is 0.
  */
  lemma {:induction false} AlwaysBetterTracksLatest<S>(better: (S, S) -> bool, s: SearchState<S>, neighbors: seq<S>)
    requires neighbors != []
    requires better(neighbors[0], s.current)
    requires forall i :: 0 < i < |neighbors| ==> better(neighbors[i], neighbors[i - 1])
    ensures Run(better, s, neighbors) == SearchState(neighbors[|neighbors| - 1], 0)
    ensures forall i :: 0 <= i < |neighbors| ==> Outcomes(better, s, neighbors)[i] == Improved
    decreases |neighbors|
  {
    var earlier := neighbors[..|neighbors| - 1];
    if earlier != [] {
      AlwaysBetterTracksLatest(better, s, earlier);
      var outs := Outcomes(better, s, neighbors);
      forall i | 0 <= i < |neighbors| ensures outs[i] == Improved {
        if i < |earlier| {
          assert outs[i] == Outcomes(better, s, earlier)[i];
        }
      }
    }
  }

  /** Offering the very solution held is never an improvement when `better` is irreflexive. */
  lemma OfferingCurrentStagnates<S(!new)>(better: (S, S) -> bool, s: SearchState<S>)
    requires Irreflexive(better)
    ensures Next(better, s, s.current) == SearchState(s.current, s.stagnation + 1)
    ensures Verdict(better, s.current, s.current) == NotImproved
  {
  }

  /**
    With a transitive `better`, a run in which at least one step improved ends
    on a solution better than the one it started from.
  */
  lemma {:induction false} RunImproves<S(!new)>(better: (S, S) -> bool, s: SearchState<S>, neighbors: seq<S>)
    requires Transitive(better)
    requires Improved in Outcomes(better, s, neighbors)
    ensures better(Run(better, s, neighbors).current, s.current)
    decreases |neighbors|
  {
    var earlier := neighbors[..|neighbors| - 1];
    if Improved in Outcomes(better, s, earlier) {
      RunImproves(better, s, earlier);
    } else {
      RunWithoutImprovement(better, s, earlier);
    }
  }

  /** The solution held after a run is the one it started from or one of the neighbours offered. */
  lemma {:induction false} RunCurrentOrigin<S>(better: (S, S) -> bool, s: SearchState<S>, neighbors: seq<S>)
    ensures Run(better, s, neighbors).current == s.current
            || Run(better, s, neighbors).current in neighbors
    decreases |neighbors|
  {
    if neighbors != [] {
      var earlier := neighbors[..|neighbors| - 1];
      RunCurrentOrigin(better, s, earlier);
    }
  }

  /**
    A worked run over integer costs, lower being better: from cost 100 the
    neighbours 90, 95 and 80 are accepted, rejected and accepted in turn.
  */
  lemma CostScenario()
    ensures var better := (a: int, b: int) => a < b;
            && Run(better, Start(100), [90]) == SearchState(90, 0)
            && Run(better, Start(100), [90, 95]) == SearchState(90, 1)
            && Run(better, Start(100), [90, 95, 80]) == SearchState(80, 0)
            && Outcomes(better, Start(100), [90, 95, 80]) == [Improved, NotImproved, Improved]
  {
  }
}
