/**
 The breadth-first solver (solver.py, class BfsSolver).

 The FIFO queue of candidate paths is a sequence: enqueue appends at the
 back, dequeue takes the front.
 */
module BfsSolver {
  import opened Puzzle
  import opened Paths

  /** The candidate paths enqueued for `path`: `path` extended by each of
      `exts`, in the order `exts` lists them. */
  function Candidates<P>(path: seq<P>, exts: seq<P>): (q: seq<seq<P>>)
    ensures |q| == |exts|
    ensures forall k :: 0 <= k < |exts| ==> q[k] == path + [exts[k]]
  {
    if |exts| == 0 then [] else [path + [exts[0]]] + Candidates(path, exts[1..])
  }

  /** The queue discipline of a breadth-first search: path lengths never
      decrease from front to back, and the back is at most one longer than
      the front. */
  predicate Layered<T>(q: seq<seq<T>>) {
    && (forall i, j :: 0 <= i <= j < |q| ==> |q[i]| <= |q[j]|)
    && (|q| > 0 ==> |q[|q| - 1]| <= |q[0]| + 1)
  }

  /** Dequeuing the front, then enqueuing the front's one-step extensions,
      keeps the queue layered. */
  lemma DequeueKeepsLayered<T>(q: seq<seq<T>>, exts: seq<T>)
    requires |q| > 0 && Layered(q)
    ensures Layered(q[1..])
    ensures Layered(q[1..] + Candidates(q[0], exts))
  {
  }

  /** A queued candidate path while the search is under way: it starts at
      `start` and follows legal moves; every state before its last has been
      expanded, so its signature is in the working set `seen` but was not in
      the caller's `seen0`, those signatures are pairwise distinct, and none
      of its inner states asked to be abandoned. */
  ghost predicate Pending<P>(g: Game<P>, start: P, seen0: set<string>, seen: set<string>, path: seq<P>) {
    && |path| >= 2
    && path[0] == start
    && Chained(g, path)
    && (forall i :: 0 <= i < |path| - 1 ==> g.sig(path[i]) in seen && g.sig(path[i]) !in seen0)
    && DistinctSigs(g, path[..|path| - 1])
    && NoFailFastInside(g, path)
  }

  /** A pending path whose last state is unseen and solved is a solution. */
  lemma PendingSolution<P>(g: Game<P>, start: P, seen0: set<string>, seen: set<string>, path: seq<P>)
    requires seen0 <= seen
    requires Pending(g, start, seen0, seen, path)
    requires g.sig(Last(path)) !in seen && g.solved(Last(path))
    ensures IsSolution(g, start, seen0, path)
  {
  }

  /** Expanding a pending path whose last state is unseen and not fail-fast,
      and marking that state seen, leaves every child path pending. */
  lemma PendingExtend<P>(g: Game<P>, start: P, seen0: set<string>, seen: set<string>, path: seq<P>, e: P)
    requires seen0 <= seen
    requires Pending(g, start, seen0, seen, path)
    requires g.sig(Last(path)) !in seen && !g.failFast(Last(path))
    requires e in g.ext(Last(path))
    ensures Pending(g, start, seen0, seen + {g.sig(Last(path))}, path + [e])
  {
  }

  /** Growing the working seen-set keeps a pending path pending. */
  lemma PendingGrow<P>(g: Game<P>, start: P, seen0: set<string>, seen: set<string>, x: string, path: seq<P>)
    requires Pending(g, start, seen0, seen, path)
    ensures Pending(g, start, seen0, seen + {x}, path)
  {
  }

  /** Some queued path is a move from the start to a solved state that is
      still unseen. */
  ghost predicate QueuedOneMove<P>(g: Game<P>, seen: set<string>, q: seq<seq<P>>) {
    exists k :: 0 <= k < |q| && |q[k]| == 2 && g.solved(q[k][1]) && g.sig(q[k][1]) !in seen
  }

  /** Dequeuing a front path that cannot be returned keeps a queued solved
      move, also after marking an unsolved state `u` seen and enqueuing more
      paths: `u` cannot share the solved state's signature. */
  lemma QueuedOneMoveAfterDequeue<P(!new)>(g: Game<P>, seen: set<string>, q: seq<seq<P>>, u: P, more: seq<seq<P>>)
    requires SigDeterminesSolved(g)
    requires |q| > 0 && |q[0]| > 0 && QueuedOneMove(g, seen, q)
    requires !(g.solved(Last(q[0])) && g.sig(Last(q[0])) !in seen)
    requires !g.solved(u)
    ensures QueuedOneMove(g, seen, q[1..])
    ensures QueuedOneMove(g, seen + {g.sig(u)}, q[1..] + more)
  {
    var k :| 0 <= k < |q| && |q[k]| == 2 && g.solved(q[k][1]) && g.sig(q[k][1]) !in seen;
    assert k != 0;
    assert g.sig(q[k][1]) != g.sig(u);
    assert (q[1..] + more)[k - 1] == q[k];
    assert q[1..][k - 1] == q[k];
  }

  /** The loop invariant of the breadth-first solver from `start`, with
      `seen0` the caller's forbidden signatures, `seen` the working seen-set
      and `q` the queue. */
  ghost predicate SearchInvariant<P(!new)>(g: Game<P>, start: P, seen0: set<string>, seen: set<string>, q: seq<seq<P>>) {
    && seen0 <= seen
    && g.sig(start) in seen
    && !(g.solved(start) && g.sig(start) !in seen0)
    && (forall k :: 0 <= k < |q| ==> Pending(g, start, seen0, seen, q[k]))
    && Layered(q)
    && (SigDeterminesSolved(g) && OneMoveSolution(g, start, seen0) ==> QueuedOneMove(g, seen, q))
    && (AllExtensionsSeen(g, start, seen0) ==> forall k :: 0 <= k < |q| ==> g.sig(Last(q[k])) in seen)
  }

  /** A one-move path from an allowed start that is marked seen is pending. */
  lemma PendingSeed<P>(g: Game<P>, start: P, seen0: set<string>, seen: set<string>, e: P)
    requires g.sig(start) in seen && g.sig(start) !in seen0
    requires e in g.ext(start)
    ensures Pending(g, start, seen0, seen, [start, e])
  {
    var path := [start, e];
    assert path[..1] == [start];
  }

  /** The seeded queue holds one two-state path per extension of the start. */
  lemma SeedShape<P>(start: P, exts: seq<P>)
    ensures forall k :: 0 <= k < |exts| ==>
      |Candidates([start], exts)[k]| == 2 && Candidates([start], exts)[k] == [start, exts[k]]
  {
  }

  /** The seeded queue, once the start is marked seen, queues an allowed
      solved move whenever the start has one. */
  lemma SeedQueuedOneMove<P(!new)>(g: Game<P>, start: P, seen0: set<string>)
    requires !g.solved(start)
    requires SigDeterminesSolved(g) && OneMoveSolution(g, start, seen0)
    ensures QueuedOneMove(g, seen0 + {g.sig(start)}, Candidates([start], g.ext(start)))
  {
    SeedShape(start, g.ext(start));
    var k :| 0 <= k < |g.ext(start)| && g.solved(g.ext(start)[k]) && g.sig(g.ext(start)[k]) !in seen0;
    assert g.sig(g.ext(start)[k]) != g.sig(start);
    assert Candidates([start], g.ext(start))[k][1] == g.ext(start)[k];
  }

  /** The queue seeded with one candidate per extension of an unsolved,
      allowed start satisfies the invariant once the start is marked seen. */
  lemma SearchStart<P(!new)>(g: Game<P>, start: P, seen0: set<string>)
    requires g.sig(start) !in seen0 && !g.solved(start)
    ensures SearchInvariant(g, start, seen0, seen0 + {g.sig(start)}, Candidates([start], g.ext(start)))
  {
    var q := Candidates([start], g.ext(start));
    var s := seen0 + {g.sig(start)};
    SeedShape(start, g.ext(start));
    forall k | 0 <= k < |q|
      ensures Pending(g, start, seen0, s, q[k])
    {
      PendingSeed(g, start, seen0, s, g.ext(start)[k]);
    }
    if AllExtensionsSeen(g, start, seen0) {
      forall k | 0 <= k < |q|
        ensures g.sig(Last(q[k])) in s
      {
        assert Last(q[k]) == g.ext(start)[k];
      }
    }
    if SigDeterminesSolved(g) && OneMoveSolution(g, start, seen0) {
      SeedQueuedOneMove(g, start, seen0);
    }
  }

  /** Dropping the front path without expanding it (its last state is seen,
      or is unsolved and fail-fast) keeps the invariant. */
  lemma SearchSkip<P(!new)>(g: Game<P>, start: P, seen0: set<string>, seen: set<string>, q: seq<seq<P>>)
    requires |q| > 0 && SearchInvariant(g, start, seen0, seen, q)
    requires g.sig(Last(q[0])) in seen || (!g.solved(Last(q[0])) && g.failFast(Last(q[0])))
    ensures SearchInvariant(g, start, seen0, seen, q[1..])
  {
  }

  /** After expanding the front path and marking its last state seen, every
      queued path, old or new, is pending. */
  lemma ExpandKeepsPending<P>(g: Game<P>, start: P, seen0: set<string>, seen: set<string>, q: seq<seq<P>>)
    requires |q| > 0 && |q[0]| > 0 && seen0 <= seen
    requires forall k :: 0 <= k < |q| ==> Pending(g, start, seen0, seen, q[k])
    requires g.sig(Last(q[0])) !in seen && !g.failFast(Last(q[0]))
    ensures forall k :: 0 <= k < |q| - 1 + |g.ext(Last(q[0]))| ==>
      Pending(g, start, seen0, seen + {g.sig(Last(q[0]))}, (q[1..] + Candidates(q[0], g.ext(Last(q[0]))))[k])
  {
    var last := Last(q[0]);
    var children := Candidates(q[0], g.ext(last));
    var q' := q[1..] + children;
    forall k | 0 <= k < |q'|
      ensures Pending(g, start, seen0, seen + {g.sig(last)}, q'[k])
    {
      if k < |q| - 1 {
        assert q'[k] == q[k + 1];
        PendingGrow(g, start, seen0, seen, g.sig(last), q[k + 1]);
      } else {
        assert q'[k] == children[k - (|q| - 1)];
        PendingExtend(g, start, seen0, seen, q[0], g.ext(last)[k - (|q| - 1)]);
      }
    }
  }

  /** Expanding the front path (its last state is unseen, unsolved and not
      fail-fast) and marking its last state seen keeps the invariant. */
  lemma SearchExpand<P(!new)>(g: Game<P>, start: P, seen0: set<string>, seen: set<string>, q: seq<seq<P>>)
    requires |q| > 0 && SearchInvariant(g, start, seen0, seen, q)
    requires g.sig(Last(q[0])) !in seen && !g.solved(Last(q[0])) && !g.failFast(Last(q[0]))
    ensures SearchInvariant(g, start, seen0, seen + {g.sig(Last(q[0]))},
                            q[1..] + Candidates(q[0], g.ext(Last(q[0]))))
  {
    var last := Last(q[0]);
    var children := Candidates(q[0], g.ext(last));
    DequeueKeepsLayered(q, g.ext(last));
    ExpandKeepsPending(g, start, seen0, seen, q);
    if SigDeterminesSolved(g) && OneMoveSolution(g, start, seen0) {
      QueuedOneMoveAfterDequeue(g, seen, q, last, children);
    }
    assert !AllExtensionsSeen(g, start, seen0);
  }

  /** A front path whose last state is unseen and solved is a solution, and
      its existence shows the start was neither forbidden nor an immediate
      answer and has an extension. */
  lemma SearchFound<P(!new)>(g: Game<P>, start: P, seen0: set<string>, seen: set<string>, q: seq<seq<P>>)
    requires |q| > 0 && SearchInvariant(g, start, seen0, seen, q)
    requires g.sig(Last(q[0])) !in seen && g.solved(Last(q[0]))
    ensures IsSolution(g, start, seen0, q[0])
    ensures g.sig(start) !in seen0 && !g.solved(start) && |g.ext(start)| > 0
    ensures !AllExtensionsSeen(g, start, seen0)
  {
  }

  /** `x` is the last state of some queued path. */
  ghost predicate Queued<P>(q: seq<seq<P>>, x: P) {
    exists k :: 0 <= k < |q| && |q[k]| > 0 && Last(q[k]) == x
  }

  /** `x` is marked seen, or is the last state of some queued path. */
  ghost predicate SeenOrQueued<P>(g: Game<P>, seen: set<string>, q: seq<seq<P>>, x: P) {
    g.sig(x) in seen || Queued(q, x)
  }

  /** How far the search has come along a fixed solution `sol` of the
      caller's problem: its second state is seen or queued, and every later
      state that is marked seen was expanded, so it is not the last one and
      its successor on `sol` is seen or queued. */
  ghost predicate Frontier<P>(g: Game<P>, seen: set<string>, q: seq<seq<P>>, sol: seq<P>) {
    && |sol| >= 2
    && SeenOrQueued(g, seen, q, sol[1])
    && forall j :: 1 <= j < |sol| && g.sig(sol[j]) in seen ==>
         j + 1 < |sol| && SeenOrQueued(g, seen, q, sol[j + 1])
  }

  /** The seeded queue holds the second state of any solution from an
      unsolved start, and no later state of it is seen yet. */
  lemma FrontierStart<P>(g: Game<P>, start: P, seen0: set<string>, sol: seq<P>)
    requires IsSolution(g, start, seen0, sol) && !g.solved(start)
    ensures Frontier(g, seen0 + {g.sig(start)}, Candidates([start], g.ext(start)), sol)
  {
    assert |sol| >= 2;
    SeedShape(start, g.ext(start));
    var k :| 0 <= k < |g.ext(start)| && g.ext(start)[k] == sol[1];
    assert Last(Candidates([start], g.ext(start))[k]) == sol[1];
    forall j | 1 <= j < |sol|
      ensures g.sig(sol[j]) !in seen0 + {g.sig(start)}
    {
      assert g.sig(sol[0]) != g.sig(sol[j]);
    }
  }

  /** A state that is seen or queued stays so when the front path is
      dequeued, provided that the front's last state is marked seen whenever
      it is that state. */
  lemma SeenOrQueuedAfterDequeue<P>(g: Game<P>, seen: set<string>, seen': set<string>, q: seq<seq<P>>, more: seq<seq<P>>, x: P)
    requires SeenOrQueued(g, seen, q, x) && seen <= seen'
    requires |q| > 0 && |q[0]| > 0
    requires Last(q[0]) == x ==> g.sig(x) in seen'
    ensures SeenOrQueued(g, seen', q[1..] + more, x)
  {
    if g.sig(x) !in seen' {
      var k :| 0 <= k < |q| && |q[k]| > 0 && Last(q[k]) == x;
      assert k != 0;
      assert (q[1..] + more)[k - 1] == q[k];
    }
  }

  /** Dropping a seen front path, or an unsolved fail-fast one, keeps the
      frontier: a state of the solution past its start is never an unsolved
      fail-fast state. */
  lemma FrontierSkip<P>(g: Game<P>, seen: set<string>, q: seq<seq<P>>, sol: seq<P>)
    requires Frontier(g, seen, q, sol) && |q| > 0 && |q[0]| > 0
    requires g.solved(Last(sol)) && NoFailFastInside(g, sol)
    requires g.sig(Last(q[0])) in seen || (!g.solved(Last(q[0])) && g.failFast(Last(q[0])))
    ensures Frontier(g, seen, q[1..], sol)
  {
    var last := Last(q[0]);
    assert q[1..] + [] == q[1..];
    forall m | 1 <= m < |sol|
      ensures SeenOrQueued(g, seen, q, sol[m]) ==> SeenOrQueued(g, seen, q[1..], sol[m])
    {
      if SeenOrQueued(g, seen, q, sol[m]) {
        if m == |sol| - 1 {
          assert g.solved(sol[m]);
        } else {
          assert !g.failFast(sol[m]);
        }
        SeenOrQueuedAfterDequeue(g, seen, seen, q, [], sol[m]);
      }
    }
  }

  /** Expanding the front path and marking its last state seen keeps the
      frontier: when that state lies on the solution, its successor on the
      solution is among the paths just enqueued. */
  lemma FrontierExpand<P(!new)>(g: Game<P>, seen: set<string>, q: seq<seq<P>>, sol: seq<P>)
    requires SigInjective(g)
    requires Frontier(g, seen, q, sol) && |q| > 0 && |q[0]| > 0
    requires g.solved(Last(sol)) && Chained(g, sol)
    requires g.sig(Last(q[0])) !in seen && !g.solved(Last(q[0]))
    ensures Frontier(g, seen + {g.sig(Last(q[0]))}, q[1..] + Candidates(q[0], g.ext(Last(q[0]))), sol)
  {
    var last := Last(q[0]);
    var seen' := seen + {g.sig(last)};
    var children := Candidates(q[0], g.ext(last));
    var q' := q[1..] + children;
    SeenOrQueuedAfterDequeue(g, seen, seen', q, children, sol[1]);
    forall j | 1 <= j < |sol| && g.sig(sol[j]) in seen'
      ensures j + 1 < |sol| && SeenOrQueued(g, seen', q', sol[j + 1])
    {
      if g.sig(sol[j]) in seen {
        SeenOrQueuedAfterDequeue(g, seen, seen', q, children, sol[j + 1]);
      } else {
        assert sol[j] == last;
        assert j != |sol| - 1;
        var m :| 0 <= m < |g.ext(last)| && g.ext(last)[m] == sol[j + 1];
        assert q'[|q| - 1 + m] == children[m];
      }
    }
  }

  /** Along a frontier, the states of the solution up to index `j` are
      all seen, or one of them is queued. */
  lemma {:induction false} FrontierPrefix<P>(g: Game<P>, seen: set<string>, q: seq<seq<P>>, sol: seq<P>, j: nat)
    requires Frontier(g, seen, q, sol)
    requires 1 <= j < |sol|
    ensures g.sig(sol[j]) in seen || exists i :: 1 <= i <= j && Queued(q, sol[i])
    decreases j
  {
    if j > 1 {
      FrontierPrefix(g, seen, q, sol, j - 1);
      if g.sig(sol[j - 1]) in seen {
        assert SeenOrQueued(g, seen, q, sol[j]);
      }
    }
  }

  /** Along a frontier, some state of the solution past its start is still
      queued, so the queue of a search that tracks a solution never runs
      empty: the solution's last state cannot be seen, since every seen state
      of it has a successor. */
  lemma FrontierQueuesSolutionState<P>(g: Game<P>, seen: set<string>, q: seq<seq<P>>, sol: seq<P>)
    requires Frontier(g, seen, q, sol)
    ensures exists i :: 1 <= i < |sol| && Queued(q, sol[i])
  {
    FrontierPrefix(g, seen, q, sol, |sol| - 1);
  }

  /** The search from `start` tracks `sol`: signatures identify states and
      `sol` is a solution of the caller's problem. */
  ghost predicate Tracks<P(!new)>(g: Game<P>, start: P, seen0: set<string>, sol: seq<P>) {
    SigInjective(g) && IsSolution(g, start, seen0, sol)
  }

  /** The frontier invariant of the loop, which only binds when a solution
      is tracked. */
  ghost predicate TrackedFrontier<P(!new)>(g: Game<P>, start: P, seen0: set<string>, seen: set<string>, q: seq<seq<P>>, sol: seq<P>) {
    Tracks(g, start, seen0, sol) ==> Frontier(g, seen, q, sol)
  }

  /** The seeded queue, with the start marked seen, satisfies the frontier
      invariant. */
  lemma TrackStart<P(!new)>(g: Game<P>, start: P, seen0: set<string>, sol: seq<P>)
    requires !g.solved(start)
    ensures TrackedFrontier(g, start, seen0, seen0 + {g.sig(start)}, Candidates([start], g.ext(start)), sol)
  {
    if Tracks(g, start, seen0, sol) {
      FrontierStart(g, start, seen0, sol);
    }
  }

  /** Dropping the front path without expanding it keeps the frontier
      invariant. */
  lemma TrackSkip<P(!new)>(g: Game<P>, start: P, seen0: set<string>, seen: set<string>, q: seq<seq<P>>, sol: seq<P>)
    requires |q| > 0 && |q[0]| > 0 && TrackedFrontier(g, start, seen0, seen, q, sol)
    requires g.sig(Last(q[0])) in seen || (!g.solved(Last(q[0])) && g.failFast(Last(q[0])))
    ensures TrackedFrontier(g, start, seen0, seen, q[1..], sol)
  {
    if Tracks(g, start, seen0, sol) {
      FrontierSkip(g, seen, q, sol);
    }
  }

  /** Expanding the front path and marking its last state seen keeps the
      frontier invariant. */
  lemma TrackExpand<P(!new)>(g: Game<P>, start: P, seen0: set<string>, seen: set<string>, q: seq<seq<P>>, sol: seq<P>)
    requires |q| > 0 && |q[0]| > 0 && TrackedFrontier(g, start, seen0, seen, q, sol)
    requires g.sig(Last(q[0])) !in seen && !g.solved(Last(q[0]))
    ensures TrackedFrontier(g, start, seen0, seen + {g.sig(Last(q[0]))},
                            q[1..] + Candidates(q[0], g.ext(Last(q[0]))), sol)
  {
    if Tracks(g, start, seen0, sol) {
      FrontierExpand(g, seen, q, sol);
    }
  }

  /** One call of the breadth-first solver from `p`. */
  method Solve<P(!new)>(g: Game<P>, p: P, seen: Option<set<string>>) returns (r: seq<P>)
    requires FiniteSignatures(g)
    ensures g.solved(p) && g.sig(p) !in Forbidden(seen) ==> r == [p]
    ensures g.sig(p) in Forbidden(seen) ==> r == []
    ensures !g.solved(p) && |g.ext(p)| == 0 ==> r == []
    ensures |r| > 0 ==> IsSolution(g, p, Forbidden(seen), r)
    ensures SigDeterminesSolved(g) && OneMoveSolution(g, p, Forbidden(seen)) ==> |r| > 0
    ensures AllExtensionsSeen(g, p, Forbidden(seen)) ==> r == []
    ensures SigInjective(g) && (exists path :: IsSolution(g, p, Forbidden(seen), path)) ==> |r| > 0
  {
    var path := [p];
    if g.solved(p) && (seen.None? || g.sig(p) !in seen.value) {
      return path;
    }
    ghost var seen0 := Forbidden(seen);
    // A solution fixed in advance, if there is one, whose progress the
    // frontier invariant tracks.
    ghost var sol: seq<P> := [];
    if exists path :: IsSolution(g, p, seen0, path) {
      sol :| IsSolution(g, p, seen0, sol);
    }
    var s := Forbidden(seen);
    if g.sig(p) in s {
      return [];
    }
    var queue := Candidates(path, g.ext(p));
    SearchStart(g, p, seen0);
    TrackStart(g, p, seen0, sol);
    s := s + {g.sig(p)};
    while |queue| > 0
      invariant SearchInvariant(g, p, seen0, s, queue)
      invariant TrackedFrontier(g, p, seen0, s, queue, sol)
      decreases |g.universe - s|, |queue|
    {
      ghost var before := queue;
      var candidate := queue[0];
      queue := queue[1..];
      var last := Last(candidate);
      if g.sig(last) in s {
        SearchSkip(g, p, seen0, s, before);
        TrackSkip(g, p, seen0, s, before, sol);
        continue;
      }
      if g.solved(last) {
        SearchFound(g, p, seen0, s, before);
        return candidate;
      }
      if g.failFast(last) {
        SearchSkip(g, p, seen0, s, before);
        TrackSkip(g, p, seen0, s, before, sol);
        continue;
      }
      SearchExpand(g, p, seen0, s, before);
      TrackExpand(g, p, seen0, s, before, sol);
      queue := queue + Candidates(candidate, g.ext(last));
      GrowSeen(g.universe, s, g.sig(last));
      s := s + {g.sig(last)};
    }
    if Tracks(g, p, seen0, sol) {
      FrontierQueuesSolutionState(g, s, queue, sol);
    }
    return [];
  }
}
