/**
  The local-search solver object: the state machine behind hill climbing.

  A solver holds the solution it currently works on and a counter of
  consecutive steps that failed to improve on it. `Initialize` installs the
  initial solution and clears the counter; each `Step` is handed the neighbour
  the problem-specific hook produced and replaces the current solution only
  when that neighbour is strictly better. The two hooks are the arguments of
  `Initialize` and `Step`; the solution type's comparison is the function
  `isBetterThan` the solver is built with.

  Ghost state records what happened since the last initialisation: the
  initial solution, every neighbour offered and the outcome of every step.
  `Valid()` ties the real fields to `LocalSearch.Run` over that record.
*/
module Solver {
  import opened LocalSearch

  datatype Option<T> = None | Some(value: T)

  class LocalSearchSolver<S(!new)> {
    /** `isBetterThan(a, b)`: solution `a` is better than solution `b`. */
    const isBetterThan: (S, S) -> bool

    var situationHasNotImproved: nat
    /** `None` until the first `Initialize`. */
    var currentSolution: Option<S>

    /** The solution handed to the last `Initialize`; `None` before the first. */
    ghost var initialSolution: Option<S>
    /** The neighbours offered since the last `Initialize`, oldest first. */
    ghost var offered: seq<S>
    /** The outcome of each step since the last `Initialize`, oldest first. */
    ghost var history: seq<Outcome>

    ghost predicate Valid()
      reads this
    {
      match currentSolution
      case None =>
        initialSolution == None && situationHasNotImproved == 0 && offered == [] && history == []
      case Some(current) =>
        && initialSolution.Some?
        && Run(isBetterThan, Start(initialSolution.value), offered)
           == SearchState(current, situationHasNotImproved)
        && history == Outcomes(isBetterThan, Start(initialSolution.value), offered)
    }

    /** A fresh solver: no solution yet and a counter of 0. */
    constructor (isBetterThan: (S, S) -> bool)
      ensures Valid()
      ensures this.isBetterThan == isBetterThan
      ensures currentSolution == None && situationHasNotImproved == 0
      ensures initialSolution == None && offered == [] && history == []
    {
      this.isBetterThan := isBetterThan;
      situationHasNotImproved := 0;
      currentSolution := None;
      initialSolution := None;
      offered := [];
      history := [];
    }

    /** The solution currently held; reading it changes nothing. */
    method GetCurrentSolution() returns (s: Option<S>)
      ensures s == currentSolution
    {
      s := currentSolution;
    }

    /** Starts (or restarts) the search from `initial`, the initial-solution hook's result. */
    method Initialize(initial: S)
      requires Valid()
      modifies this
      ensures Valid()
      ensures currentSolution == Some(initial) && situationHasNotImproved == 0
      ensures initialSolution == Some(initial) && offered == [] && history == []
    {
      situationHasNotImproved := 0;
      currentSolution := Some(initial);
      initialSolution := Some(initial);
      offered := [];
      history := [];
    }

    /**
      One step, offered `neighbor`, the random-neighbour hook's result: a
      strictly better neighbour replaces the current solution and resets the
      counter, any other leaves the solution alone and adds one to the counter.
    */
    method Step(neighbor: S)
      requires Valid()
      requires currentSolution.Some?
      modifies this
      ensures Valid()
      ensures currentSolution.Some?
      ensures initialSolution == old(initialSolution)
      ensures offered == old(offered) + [neighbor]
      ensures isBetterThan(neighbor, old(currentSolution).value) ==>
                currentSolution == Some(neighbor) && situationHasNotImproved == 0
                && history == old(history) + [Improved]
      ensures !isBetterThan(neighbor, old(currentSolution).value) ==>
                currentSolution == old(currentSolution)
                && situationHasNotImproved == old(situationHasNotImproved) + 1
                && history == old(history) + [NotImproved]
      // the counter always counts the stagnant steps since the last improvement
      ensures situationHasNotImproved == TrailingStagnation(history)
      // each solution held is better than the one it replaced
      ensures currentSolution != old(currentSolution) ==>
                isBetterThan(currentSolution.value, old(currentSolution).value)
      // offering the solution held itself is stagnation when the comparison is irreflexive
      ensures Irreflexive(isBetterThan) && neighbor == old(currentSolution).value ==>
                currentSolution == old(currentSolution)
                && situationHasNotImproved == old(situationHasNotImproved) + 1
      // with a transitive comparison, once any step has improved the solution held beats the initial one
      ensures Transitive(isBetterThan) && Improved in history ==>
                isBetterThan(currentSolution.value, initialSolution.value)
    {
      OutcomesSnoc(isBetterThan, Start(initialSolution.value), offered, neighbor);
      if isBetterThan(neighbor, currentSolution.value) {
        currentSolution := Some(neighbor);
        situationHasNotImproved := 0;
        history := history + [Improved];
      } else {
        situationHasNotImproved := situationHasNotImproved + 1;
        history := history + [NotImproved];
      }
      offered := offered + [neighbor];
      StagnationFromStart(isBetterThan, initialSolution.value, offered);
      if Transitive(isBetterThan) && Improved in history {
        RunImproves(isBetterThan, Start(initialSolution.value), offered);
      }
    }
  }
}
