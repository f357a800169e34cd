# Hill-climbing local search: the improve-or-retain solver

This project models `AbstractLocalSearchSolver` of MetaHeuristics4Java, the
skeleton beneath its local-search algorithms. A solver holds a current
candidate solution (`currentSolution`) and a counter of consecutive steps that
failed to improve on it (`situationHasNotImproved`). Initialisation installs
the solution produced by the `createInitialSolution` hook and sets the counter
to 0. Each step asks the `createRandomNeighbor` hook for a neighbour. The
neighbour replaces the current solution only when it `isBetterThan` it, and
then the counter goes back to 0. Otherwise the current solution stays and the
counter goes up by one.

Two modules:

- `LocalSearch` (`local_search.dfy`) gives the transition as values.
  `Start` is the state initialisation leaves, `Verdict` is the acceptance
  test, `Next` is one step, `Run` is a series of steps, `Outcomes` records what each
  step decided, and `TrailingStagnation` counts the trailing non-improving
  steps of a history. The lemmas about them are the system's promises: what
  the counter means, stagnation under rejected neighbours, tracking the latest
  neighbour under improving ones, irreflexivity and transitivity of the
  comparison.
- `Solver` (`solver.dfy`) is the solver object: class `LocalSearchSolver`,
  whose fields are the source's two fields. `Initialize` and `Step` mutate
  them in place. Ghost fields record the initial solution, every neighbour
  offered and every step's outcome. `Valid()` ties the real fields to
  `LocalSearch.Run` over that record.

The solution type is the type parameter `S`. The solution type's
`isBetterThan` is the function `isBetterThan(a, b)` ("a is better than b") the
solver is built with. The two abstract hooks become arguments: `Initialize`
takes the initial solution and `Step` takes the neighbour. So no randomness is
involved. Irreflexivity and transitivity of the comparison are not assumed
globally. They are hypotheses of the lemmas and postconditions that need them.

## Model

| member | source | states |
|---|---|---|
| Solver.LocalSearchSolver.constructor | src/main/java/de/mh4j/solver/simulatedAnnealing/AbstractLocalSearchSolver.java:38-39 | a new solver holds no solution and its counter is 0 |
| Solver.LocalSearchSolver.GetCurrentSolution | src/main/java/de/mh4j/solver/simulatedAnnealing/AbstractLocalSearchSolver.java:58-61 | returns the current solution (`None` before the first initialisation) and changes no state |
| Solver.LocalSearchSolver.Initialize | src/main/java/de/mh4j/solver/simulatedAnnealing/AbstractLocalSearchSolver.java:63-68 | afterwards the counter is 0, the current solution is the initial-solution hook's value, and the step record is empty |
| Solver.LocalSearchSolver.Step | src/main/java/de/mh4j/solver/simulatedAnnealing/AbstractLocalSearchSolver.java:70-83 | a strictly better neighbour becomes the current solution and resets the counter to 0; any other neighbour leaves the solution unchanged and adds exactly 1 to the counter; the counter always equals the trailing stagnant steps of the history; a replaced solution is always beaten by its successor; offering the current solution under an irreflexive comparison is stagnation; under a transitive comparison, once a step has improved, the current solution beats the initial one |
| LocalSearch.Start | src/main/java/de/mh4j/solver/simulatedAnnealing/AbstractLocalSearchSolver.java:64-66 | the state initialisation leaves: the initial solution with counter 0; StagnationFromStart and the class's `Initialize` build on it |
| LocalSearch.Verdict | src/main/java/de/mh4j/solver/simulatedAnnealing/AbstractLocalSearchSolver.java:74 | the acceptance test: `Improved` exactly when the neighbour is better than the solution held; OutcomesSnoc and OfferingCurrentStagnates state it per step |
| LocalSearch.Next | src/main/java/de/mh4j/solver/simulatedAnnealing/AbstractLocalSearchSolver.java:74-81 | one step: a better neighbour becomes the solution with counter 0, otherwise the solution stays and the counter grows by 1; OfferingCurrentStagnates, OutcomesSnoc and `Step` state its cases |
| LocalSearch.Run | src/main/java/de/mh4j/solver/simulatedAnnealing/AbstractLocalSearchSolver.java:70-83 | a series of steps, each applied to the state the previous one left; RunStagnation, RunWithoutImprovement, NeverBetterKeepsCurrent, AlwaysBetterTracksLatest, RunImproves and RunCurrentOrigin prove what it does |
| LocalSearch.Outcomes | src/main/java/de/mh4j/solver/simulatedAnnealing/AbstractLocalSearchSolver.java:74-82 | each step records exactly one outcome |
| LocalSearch.TrailingStagnation | src/main/java/de/mh4j/solver/simulatedAnnealing/AbstractLocalSearchSolver.java:74-81 | the count is a non-negative number, at most the history's length; the last that many entries are non-improving; the entry just before them, if any, is an improvement |
| LocalSearch.TrailingStagnationUnique | src/main/java/de/mh4j/solver/simulatedAnnealing/AbstractLocalSearchSolver.java:74-81 | those three properties determine the count uniquely |
| LocalSearch.TrailingStagnationSnoc | src/main/java/de/mh4j/solver/simulatedAnnealing/AbstractLocalSearchSolver.java:76-80 | appending an improvement makes the count 0, appending a non-improvement adds 1 |
| LocalSearch.OutcomesSnoc | src/main/java/de/mh4j/solver/simulatedAnnealing/AbstractLocalSearchSolver.java:72-82 | one more step appends the verdict on the new neighbour against the solution then held, and moves the state by one transition |
| LocalSearch.RunStagnation | src/main/java/de/mh4j/solver/simulatedAnnealing/AbstractLocalSearchSolver.java:74-81 | after any series of steps the counter is the number of trailing non-improving steps, plus the starting count when no step improved |
| LocalSearch.StagnationFromStart | src/main/java/de/mh4j/solver/simulatedAnnealing/AbstractLocalSearchSolver.java:64-81 | from initialisation, the counter equals the number of trailing non-improving steps since the last improvement or since initialisation |
| LocalSearch.RunWithoutImprovement | src/main/java/de/mh4j/solver/simulatedAnnealing/AbstractLocalSearchSolver.java:79-81 | a series of steps none of which improved keeps the solution and adds one per step to the counter |
| LocalSearch.NeverBetterKeepsCurrent | src/main/java/de/mh4j/solver/simulatedAnnealing/AbstractLocalSearchSolver.java:74-81 | when no neighbour is better than the current solution, any number of steps leave it unchanged, each is non-improving and the counter grows by exactly the number of steps |
| LocalSearch.AlwaysBetterTracksLatest | src/main/java/de/mh4j/solver/simulatedAnnealing/AbstractLocalSearchSolver.java:74-77 | when each neighbour is better than the one held before it, every step improves and the solver ends on the latest neighbour with counter 0 |
| LocalSearch.OfferingCurrentStagnates | src/main/java/de/mh4j/solver/simulatedAnnealing/AbstractLocalSearchSolver.java:74-80 | under an irreflexive comparison, offering the current solution itself takes the rejecting branch: the solution stays and the counter grows by 1 (only a strictly better neighbour is accepted, as the class comment at lines 13-15 also says) |
| LocalSearch.RunImproves | src/main/java/de/mh4j/solver/simulatedAnnealing/AbstractLocalSearchSolver.java:74-75 | under a transitive comparison, after at least one accepted step the current solution is better than the solution the run started from (each accepted neighbour beats the one it replaces, as the class comment at lines 13-15 also says) |
| LocalSearch.RunCurrentOrigin | src/main/java/de/mh4j/solver/simulatedAnnealing/AbstractLocalSearchSolver.java:72-75 | the solution held after any steps is the initial one or one of the neighbours offered |
| LocalSearch.CostScenario | src/main/java/de/mh4j/solver/simulatedAnnealing/AbstractLocalSearchSolver.java:64-82 | with costs where lower is better, starting at 100 and offered 90, 95, 80: the steps accept, reject, accept, and the states are (90, 0), (90, 1), (80, 0) |

## Left out

- The two constructors (lines 45-56) only pass a randomizer seed, or the wall-clock time, to `AbstractSolver`. Seeding, randomness and the clock are not modelled. The hooks' results are arguments instead.
- `AbstractSolver`, its run/stop lifecycle and termination policies are not part of this model. Its callers are expected to call `doInitialize` before `doStep`, so `Step` requires an initialised solver.
- The `log.debug` calls (lines 67, 77, 81) only log. They do not change behaviour.
- The bodies of `createInitialSolution`, `createRandomNeighbor`, `Solution.getCosts` and `Solution.isBetterThan` are problem-specific. The hooks are arguments, `isBetterThan` is a function parameter, and `getCosts` appears only in logging.
- Solver.LocalSearchSolver.Step: the counter is a `nat`. Java's `int` wrap-around after 2^31 - 1 stagnant steps is not modelled.
- Subclasses writing `currentSolution` or `situationHasNotImproved` directly (both are `protected`) are not modelled. Only the two operations change them.
- A failing hook is not modelled. The hooks are values, so they cannot fail.
- Solutions are immutable values, compared with `==`. Java passes them by reference, so a hook could alias `currentSolution` or mutate it in place. That is not modelled. The postcondition of `Step` about offering the current solution uses value equality where Java would use identity.
