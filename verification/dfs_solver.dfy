/**
 The depth-first solver (solver.py, class DfsSolver).

 `Solve` is one call of the solver. The loop over the queue of candidate
 paths is `TryCandidates`: the queue holds `[p, e]` for each extension `e` of
 `p`, in enumeration order, and is only ever dequeued, so the index `i` of the
 next extension stands for its contents. Each recursive call receives the
 seen-set as it is at that moment; nothing a call adds flows back to its
 caller, which is what the source's per-call copy achieves.
 */
module DfsSolver {
  import opened Puzzle
  import opened Paths

  /** One call of the depth-first solver from `p`. */
  function Solve<P(!new)>(g: Game<P>, p: P, seen: Option<set<string>>): (r: seq<P>)
    requires FiniteSignatures(g)
    ensures g.solved(p) && g.sig(p) !in Forbidden(seen) ==> r == [p]
    ensures g.sig(p) in Forbidden(seen) ==> r == []
    ensures !g.solved(p) && |g.ext(p)| == 0 ==> r == []
    ensures |r| > 0 ==> IsSolution(g, p, Forbidden(seen), r)
    decreases |g.universe - Forbidden(seen)|, 0, 0
  {
    if g.solved(p) && (seen.None? || g.sig(p) !in seen.value) then
      [p]
    else
      var s := Forbidden(seen);
      if g.sig(p) in s then
        []
      else if |g.ext(p)| == 0 then
        []
      else
        GrowSeen(g.universe, s, g.sig(p));
        var r := TryCandidates(g, p, 0, s + {g.sig(p)});
        if |r| == 0 then
          r
        else
          assert r == [p] + r[1..];
          SolutionCons(g, p, s, r[1..]);
          r
  }

  /** The candidate loop of one call from `p`: tries the extensions of `p`
      from index `i` on, with `seen` the working seen-set at that point. The
      answer, when there is one, is `p` followed by a solution from one of
      these extensions that avoids `seen`. */
  function TryCandidates<P(!new)>(g: Game<P>, p: P, i: nat, seen: set<string>): (r: seq<P>)
    requires FiniteSignatures(g)
    requires i <= |g.ext(p)|
    ensures |r| > 0 ==> |r| >= 2 && r[0] == p
    ensures |r| > 0 ==> exists k :: i <= k < |g.ext(p)| && r[1] == g.ext(p)[k]
    ensures |r| > 2 ==> !g.failFast(r[1])
    ensures |r| > 0 ==> IsSolution(g, r[1], seen, r[1..])
    decreases |g.universe - seen|, 1, |g.ext(p)| - i
  {
    if i == |g.ext(p)| then
      []
    else
      var c := g.ext(p)[i];
      GrowSeen(g.universe, seen, g.sig(c));
      if g.sig(c) in seen then
        TryCandidates(g, p, i + 1, seen)
      else if g.solved(c) then
        [p, c]
      else if g.failFast(c) then
        var r := TryCandidates(g, p, i + 1, seen + {g.sig(c)});
        if |r| > 0 then SolutionUnderSubset(g, r[1], seen, seen + {g.sig(c)}, r[1..]); r else r
      else
        var sub := Solve(g, c, Some(seen));
        if |sub| > 0 then
          var r := [p, c] + sub[1..];
          assert r[1..] == sub;
          r
        else
          var r := TryCandidates(g, p, i + 1, seen + {g.sig(c)});
          if |r| > 0 then SolutionUnderSubset(g, r[1], seen, seen + {g.sig(c)}, r[1..]); r else r
  }

  /** The candidate loop does not pass over a solved extension that is still
      allowed: an earlier candidate can only forbid it by having the same
      signature, and then that candidate is solved too and is returned. */
  lemma {:induction false} TryCandidatesFindsSolvedExtension<P(!new)>(g: Game<P>, p: P, i: nat, seen: set<string>, k: nat)
    requires FiniteSignatures(g) && SigDeterminesSolved(g)
    requires i <= k < |g.ext(p)|
    requires g.solved(g.ext(p)[k]) && g.sig(g.ext(p)[k]) !in seen
    ensures |TryCandidates(g, p, i, seen)| > 0
    decreases |g.ext(p)| - i
  {
    var c := g.ext(p)[i];
    if g.sig(c) in seen {
      TryCandidatesFindsSolvedExtension(g, p, i + 1, seen, k);
    } else if g.solved(c) {
    } else {
      assert g.sig(c) != g.sig(g.ext(p)[k]);
      if g.failFast(c) || |Solve(g, c, Some(seen))| == 0 {
        TryCandidatesFindsSolvedExtension(g, p, i + 1, seen + {g.sig(c)}, k);
      }
    }
  }

  /** A start that may be used and has a solved, allowed extension always
      gets an answer: the solver never misses a one-move solution. */
  lemma DfsFindsOneMoveSolution<P(!new)>(g: Game<P>, p: P, seen: Option<set<string>>)
    requires FiniteSignatures(g) && SigDeterminesSolved(g)
    requires OneMoveSolution(g, p, Forbidden(seen))
    ensures |Solve(g, p, seen)| > 0
  {
    if !g.solved(p) {
      var s := Forbidden(seen);
      var k :| 0 <= k < |g.ext(p)| && g.solved(g.ext(p)[k]) && g.sig(g.ext(p)[k]) !in s;
      assert g.sig(g.ext(p)[k]) != g.sig(p);
      TryCandidatesFindsSolvedExtension(g, p, 0, s + {g.sig(p)}, k);
    }
  }

  /** The candidate loop finds nothing when every remaining extension is
      already seen; this follows from its contract, since an answer's second
      state is one of those extensions and avoids `seen`. */
  lemma TryCandidatesAllSeen<P(!new)>(g: Game<P>, p: P, i: nat, seen: set<string>)
    requires FiniteSignatures(g)
    requires i <= |g.ext(p)|
    requires forall k :: i <= k < |g.ext(p)| ==> g.sig(g.ext(p)[k]) in seen
    ensures TryCandidates(g, p, i, seen) == []
  {
  }

  /** An unsolved start whose every extension is forbidden, or is the start
      again, has no answer; this follows from the contract of `Solve`, since
      an answer's second state is an extension that is neither. */
  lemma DfsDeadEnd<P(!new)>(g: Game<P>, p: P, seen: Option<set<string>>)
    requires FiniteSignatures(g)
    requires AllExtensionsSeen(g, p, Forbidden(seen))
    ensures Solve(g, p, seen) == []
  {
  }

  /** Leaving out the `seen` argument is the same as passing an empty set. */
  lemma DefaultSeen<P(!new)>(g: Game<P>, p: P)
    requires FiniteSignatures(g)
    ensures Solve(g, p, None) == Solve(g, p, Some({}))
  {
  }

  /** When signatures identify states, the solver finds an answer whenever
      one exists. A candidate is only marked seen after the recursive call
      from it failed, or when it is fail-fast; in neither case can it lie on
      a solution that avoids the working seen-set. */
  lemma {:induction false} DfsComplete<P(!new)>(g: Game<P>, p: P, seen: Option<set<string>>, path: seq<P>)
    requires FiniteSignatures(g) && SigInjective(g)
    requires IsSolution(g, p, Forbidden(seen), path)
    ensures |Solve(g, p, seen)| > 0
    decreases |g.universe - Forbidden(seen)|, 0, 0
  {
    var s := Forbidden(seen);
    if !g.solved(p) {
      assert |path| >= 2;
      SolutionTail(g, p, s, path);
      var k :| 0 <= k < |g.ext(p)| && g.ext(p)[k] == path[1];
      GrowSeen(g.universe, s, g.sig(p));
      TryCandidatesComplete(g, p, 0, s + {g.sig(p)}, k, path[1..]);
    }
  }

  /** The candidate loop from index `i` finds an answer when a solution `q`
      avoiding the working seen-set starts at an extension at index `k >= i`. */
  lemma {:induction false} TryCandidatesComplete<P(!new)>(g: Game<P>, p: P, i: nat, seen: set<string>, k: nat, q: seq<P>)
    requires FiniteSignatures(g) && SigInjective(g)
    requires i <= k < |g.ext(p)|
    requires |q| > 0 && q[0] == g.ext(p)[k]
    requires IsSolution(g, q[0], seen, q)
    requires |q| > 1 ==> !g.failFast(q[0])
    ensures |TryCandidates(g, p, i, seen)| > 0
    decreases |g.universe - seen|, 1, |g.ext(p)| - i
  {
    var c := g.ext(p)[i];
    GrowSeen(g.universe, seen, g.sig(c));
    if g.sig(c) in seen {
      assert g.sig(q[0]) !in seen;
      TryCandidatesComplete(g, p, i + 1, seen, k, q);
    } else if g.solved(c) {
    } else if g.failFast(c) {
      forall j | 0 <= j < |q|
        ensures g.sig(q[j]) != g.sig(c)
      {
        assert q[j] != c by {
          if j == |q| - 1 {
            assert g.solved(q[j]);
          } else {
            assert !g.failFast(q[j]);
          }
        }
      }
      TryCandidatesComplete(g, p, i + 1, seen + {g.sig(c)}, k, q);
    } else if |Solve(g, c, Some(seen))| == 0 {
      forall j | 0 <= j < |q|
        ensures g.sig(q[j]) != g.sig(c)
      {
        SolutionSuffix(g, seen, q, j);
        DfsComplete(g, q[j], Some(seen), q[j..]);
      }
      TryCandidatesComplete(g, p, i + 1, seen + {g.sig(c)}, k, q);
    }
  }

  /** With identifying signatures, the solver answers exactly when a
      solution exists. */
  lemma DfsAnswersIffSolvable<P(!new)>(g: Game<P>, p: P, seen: Option<set<string>>)
    requires FiniteSignatures(g) && SigInjective(g)
    ensures |Solve(g, p, seen)| > 0 <==> exists path :: IsSolution(g, p, Forbidden(seen), path)
  {
    if exists path :: IsSolution(g, p, Forbidden(seen), path) {
      var path :| IsSolution(g, p, Forbidden(seen), path);
      DfsComplete(g, p, seen, path);
    }
  }
}
