# Puzzle solvers: depth-first and breadth-first state-space search

This project models the search core of a solver for full-information puzzles
(`solver.py`). The solver looks for a path from a start state to a solved
state. It walks the implicit graph of puzzle states. A state is identified by
its string signature. A set `seen` of forbidden signatures keeps the search
from revisiting states.

- `Puzzle` (`puzzle.dfy`) is the interface a puzzle offers. A `Game<P>`
  bundles four total functions over an arbitrary state type `P`: `sig`
  (stands for `str(puzzle)`), `solved` (`is_solved()`), `failFast`
  (`fail_fast()`) and `ext` (`extensions()`, in order). It also holds a
  finite `universe` of signatures. The search never reads `universe`; it
  exists only to argue termination. The optional `seen` argument is an
  `Option<set<string>>`. `Forbidden` gives the set it stands for, and an
  absent argument stands for the empty set.
- `Paths` (`paths.dfy`) says what an answer must be, independently of either
  solver. `IsSolution(g, start, seen, path)` requires all of the following:
  - the path starts at `start`;
  - each state is an extension of the state before it;
  - the last state is solved;
  - no signature in the path is in `seen`;
  - no signature occurs twice;
  - no state strictly inside the path is fail-fast.
- `DfsSolver` (`dfs_solver.dfy`) is the recursive depth-first solver.
  `Solve` is one call. `TryCandidates` is its loop over the queue of
  candidate paths `[p, e]`. That queue is filled once, in extension order,
  and then only dequeued, so the index of the next extension stands for its
  contents. Each recursive call gets the working seen-set as it is then.
  Nothing a callee adds flows back to its caller, which matches the
  per-call copy in the source. Sets are values, so the caller's `seen` is
  never changed.
- `BfsSolver` (`bfs_solver.dfy`) is the breadth-first solver. It is a method
  whose FIFO queue of candidate paths is a `seq`: enqueue appends at the back
  and dequeue takes the front. `SearchInvariant` is its loop invariant. The
  lemmas `SearchStart`, `SearchSkip`, `SearchExpand` and `SearchFound` show
  that each branch of the loop body keeps the invariant.
- `Scenarios` (`scenarios.dfy`) is a four-state puzzle where the depth-first
  answer depends on the order of extensions.

Both solvers follow the code's order of checks:
- The solved test on the start (lines 72 and 135) comes before the seen test
  (lines 77 and 140). A solved start whose signature is forbidden therefore
  yields `[]`.
- Inside the loop, the seen test on a candidate comes before the solved test.
- The depth-first solver marks fail-fast candidates seen (lines 91-93). The
  breadth-first solver drops them without marking them (lines 152-153).

Three properties depend on assumptions about the puzzle:
- Termination assumes `FiniteSignatures`: every signature lies in the finite
  universe. Each recursion of the depth-first solver, and each expansion of
  the breadth-first solver, adds a new signature from that universe to the
  working set.
- Never missing a one-move solution assumes `SigDeterminesSolved`: two states
  with one signature agree on being solved.
- General completeness assumes `SigInjective`: two states with one signature
  are the same state. This is the interface's rule that the signature is the
  state's identity. Under it, both solvers answer exactly when a solution
  exists, as the docstring at solver.py:36 promises.

## Model

| member | source | states |
|---|---|---|
| DfsSolver.DefaultSeen | solver.py:72-76 | Calling the solver without a `seen` argument gives the same answer as passing an empty set. |
| DfsSolver.Solve | solver.py:51-105 | A solved start that is not forbidden yields exactly `[p]`. A forbidden start yields `[]`, even when solved. An unsolved start without extensions yields `[]`. Any non-empty answer is an `IsSolution` path from `p` that avoids the caller's `seen`: it chains by extensions, ends solved, repeats no signature and has no fail-fast inner state. |
| DfsSolver.TryCandidates | solver.py:85-105 | Any answer of the candidate loop from index `i` is `p` followed by a solution from some extension at index `i` or later. That solution avoids the loop's working seen-set. The extension is not fail-fast when it is an inner state. |
| DfsSolver.TryCandidatesFindsSolvedExtension | solver.py:85-93 | The candidate loop never passes over a solved extension whose signature is not yet seen. |
| DfsSolver.DfsFindsOneMoveSolution | solver.py:71-93 | A start that is allowed and has a solved, allowed extension always gets a non-empty answer. |
| DfsSolver.TryCandidatesAllSeen | solver.py:85-105 | The candidate loop returns `[]` when every remaining extension is already seen. |
| DfsSolver.DfsDeadEnd | solver.py:71-105 | An unsolved start whose extensions are all forbidden, or all have the start's own signature, gets `[]`. |
| DfsSolver.DfsComplete | solver.py:71-105 | When signatures identify states, any solution from `p` that avoids `seen` makes the solver return a non-empty answer. |
| DfsSolver.TryCandidatesComplete | solver.py:85-105 | When signatures identify states, the candidate loop from index `i` returns a non-empty answer if some extension at index `i` or later starts a solution that avoids the working seen-set. A fail-fast candidate, or one whose recursive call failed, never lies on such a solution, so marking it seen loses nothing. |
| DfsSolver.DfsAnswersIffSolvable | solver.py:25-41 | When signatures identify states, the answer is non-empty exactly when an `IsSolution` path exists: a path from the start through extensions to a solved state that avoids `seen`. An empty answer therefore means that no solution exists. |
| Paths.SolutionTail | solver.py:84-96 | Dropping the start of a solution of two or more states leaves a solution from an extension of the start. That solution avoids `seen` plus the start's signature, and its first state is not fail-fast when it is an inner state. This is the converse of `SolutionCons`. |
| Paths.SolutionCons | solver.py:94-96 | Putting `p` in front of a solution found from its extension under `seen + {sig(p)}` gives a solution from `p` under `seen`. |
| BfsSolver.Solve | solver.py:114-157 | Same edge cases and the same `IsSolution` guarantee as the depth-first solver. It never misses a one-move solution. It returns `[]` when every extension of an unsolved start is forbidden or is the start again. When signatures identify states, it returns a non-empty answer whenever a solution that avoids `seen` exists. |
| BfsSolver.Candidates | solver.py:143-144 | Enqueuing the children of a path gives one candidate per extension, in extension order, each being the path extended by that extension. |
| BfsSolver.DequeueKeepsLayered | solver.py:146-155 | Dequeuing the front and enqueuing its one-step extensions keeps the queue layered. Lengths never decrease from front to back, and the back is at most one longer than the front. |
| BfsSolver.PendingSolution | solver.py:148-151 | A queued path whose last state is unseen and solved is a solution avoiding the caller's `seen`. |
| BfsSolver.PendingExtend | solver.py:154-156 | Extending a queued path whose last state is unseen and not fail-fast, then marking that state seen, keeps the child path within the invariant. |
| BfsSolver.QueuedOneMoveAfterDequeue | solver.py:146-156 | A queued solved one-move path survives the dequeue of any other front path, and the marking of any unsolved state. |
| BfsSolver.SearchStart | solver.py:142-145 | The seeded queue, with the start marked seen, satisfies the loop invariant. |
| BfsSolver.SearchSkip | solver.py:147-153 | Dropping a seen front path, or an unsolved fail-fast one, keeps the loop invariant. |
| BfsSolver.ExpandKeepsPending | solver.py:154-156 | After an expansion, every queued path, old or new, still satisfies the invariant for queued paths under the grown seen-set. |
| BfsSolver.SearchExpand | solver.py:154-156 | Expanding the front path and marking its last state seen keeps the loop invariant. |
| BfsSolver.SearchFound | solver.py:150-151 | A returned front path is a solution. Its existence shows that the start was allowed, was unsolved and had an extension. |
| BfsSolver.FrontierStart | solver.py:142-145 | For any solution from an unsolved start, the seeded queue holds a path ending in the solution's second state. No later state of the solution is seen yet. |
| BfsSolver.FrontierSkip | solver.py:147-153 | Dropping a seen front path, or an unsolved fail-fast one, loses no state of a tracked solution: such a state is never an unsolved fail-fast state. |
| BfsSolver.FrontierExpand | solver.py:154-156 | When signatures identify states, expanding a state of a tracked solution enqueues a path ending in its successor on the solution. |
| BfsSolver.FrontierQueuesSolutionState | solver.py:146-157 | While a solution is tracked, some state of it past the start is still queued. So the queue cannot run empty before an answer is returned. |
| Scenarios.DfsFollowsEnumerationOrder | solver.py:80-96 | On a four-state puzzle where 0 moves to 1 or 3, the depth-first answer is `[0, 1, 2, 3]`, reached through the first extension, although `[0, 3]` is also a solution. |

## Left out

- The `adts.Queue` class is not part of this model. Its FIFO behaviour is modelled by a `seq`.
- Concrete puzzles and the way `str(puzzle)` is computed are not part of this model. They are the parameters of a `Game`.
- The commented-out check at solver.py:97-102 and the abstract `Solver.solve`, which only raises `NotImplementedError`, are not modelled. The abstract method's documented contract is `Paths.IsSolution`, which both solvers are proved to meet.
- DfsSolver.Solve: requires `FiniteSignatures`, a finite universe holding every signature, to prove termination. The source has no such requirement. The requirement also excludes puzzles with unboundedly many states on which the source does return. An example is a counter that is solved at 0, starts at 3 and moves from n to n - 1 or n + 1: the search goes 3, 2, 1, 0. The model says nothing about such puzzles.
- DfsSolver.Solve: Python's recursion limit is not modelled. The recursive call at solver.py:94 raises `RecursionError` once the search is deeper than the interpreter allows. The model recurses without bound.
- BfsSolver.Solve: requires `FiniteSignatures` as well, and excludes the same terminating unbounded puzzles.
- No shortest-path claim is made. Neither a global optimum nor a comparison of the two solvers' path lengths is stated, because fail-fast pruning and the seen-set can break both. `BfsSolver.DequeueKeepsLayered` states the queue discipline that breadth-first order rests on.
- DfsSolver.DfsComplete: general completeness, and the matching ensures of `BfsSolver.Solve`, assume `SigInjective`. Without it the seen-set can forbid a state because a different state shares its signature. Example: 0 moves to 1 or 2, 1 and 2 share a signature, 1 has no moves and 2 moves to the solved state 3. The depth-first solver marks that signature seen when the call from 1 fails, then skips 2 and returns `[]`, although `[0, 2, 3]` is a solution. Without injectivity only one-move solutions are proved never missed (`DfsSolver.DfsFindsOneMoveSolution` and an ensures of `BfsSolver.Solve`), and those assume `SigDeterminesSolved`.
