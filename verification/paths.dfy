/**
 What a solver's answer must be, independently of how either solver finds it:
 a path that starts at the given state, follows legal moves, ends in a solved
 state, uses no forbidden signature, revisits no signature, and passes through
 no state that asked to be abandoned.
 */
module Paths {
  import opened Puzzle

  function Last<T>(s: seq<T>): T
    requires |s| > 0
  {
    s[|s| - 1]
  }

  /** Each state after the first is one of the extensions of the state before it. */
  ghost predicate Chained<P>(g: Game<P>, path: seq<P>) {
    forall i :: 0 <= i < |path| - 1 ==> path[i + 1] in g.ext(path[i])
  }

  /** No state of `path` has a signature in `seen`. */
  ghost predicate AvoidsSeen<P>(g: Game<P>, path: seq<P>, seen: set<string>) {
    forall i :: 0 <= i < |path| ==> g.sig(path[i]) !in seen
  }

  /** No two states of `path` share a signature. */
  ghost predicate DistinctSigs<P>(g: Game<P>, path: seq<P>) {
    forall i, j :: 0 <= i < j < |path| ==> g.sig(path[i]) != g.sig(path[j])
  }

  /** No state strictly between the first and the last asks to be abandoned. */
  ghost predicate NoFailFastInside<P>(g: Game<P>, path: seq<P>) {
    forall i :: 0 < i < |path| - 1 ==> !g.failFast(path[i])
  }

  /** `path` is an acceptable answer to solving `start` while avoiding `seen`. */
  ghost predicate IsSolution<P>(g: Game<P>, start: P, seen: set<string>, path: seq<P>) {
    && |path| > 0
    && path[0] == start
    && Chained(g, path)
    && g.solved(Last(path))
    && AvoidsSeen(g, path, seen)
    && DistinctSigs(g, path)
    && NoFailFastInside(g, path)
  }

  /** `start` may be used, and one of its extensions is solved and may be used. */
  ghost predicate OneMoveSolution<P>(g: Game<P>, start: P, seen: set<string>) {
    && g.sig(start) !in seen
    && exists k :: 0 <= k < |g.ext(start)| && g.solved(g.ext(start)[k]) && g.sig(g.ext(start)[k]) !in seen
  }

  /** `start` is not solved and every extension of it has a signature that is
      forbidden or equal to the start's own: no move leads anywhere new. */
  ghost predicate AllExtensionsSeen<P>(g: Game<P>, start: P, seen: set<string>) {
    && !g.solved(start)
    && forall k :: 0 <= k < |g.ext(start)| ==> g.sig(g.ext(start)[k]) in seen + {g.sig(start)}
  }

  /** A solution found from an extension of `p`, under a seen-set that already
      forbids `p`, becomes a solution from `p` once `p` is put in front. The
      extension itself becomes an inner state when the tail is longer than one,
      so it must not be a fail-fast state then. */
  lemma SolutionCons<P>(g: Game<P>, p: P, seen: set<string>, tail: seq<P>)
    requires |tail| > 0 && tail[0] in g.ext(p)
    requires g.sig(p) !in seen
    requires IsSolution(g, tail[0], seen + {g.sig(p)}, tail)
    requires |tail| > 1 ==> !g.failFast(tail[0])
    ensures IsSolution(g, p, seen, [p] + tail)
  {
  }

  /** A solution that avoids a larger seen-set also avoids a smaller one. */
  lemma SolutionUnderSubset<P>(g: Game<P>, start: P, small: set<string>, large: set<string>, path: seq<P>)
    requires small <= large
    requires IsSolution(g, start, large, path)
    ensures IsSolution(g, start, small, path)
  {
  }

  /** Dropping the start of a solution of at least two states leaves a
      solution from its second state, which is an extension of the start;
      the start's signature is then forbidden as well. This is the converse
      of `SolutionCons`. */
  lemma SolutionTail<P>(g: Game<P>, p: P, seen: set<string>, path: seq<P>)
    requires IsSolution(g, p, seen, path) && |path| >= 2
    ensures path[1] in g.ext(p)
    ensures IsSolution(g, path[1], seen + {g.sig(p)}, path[1..])
    ensures |path| > 2 ==> !g.failFast(path[1])
  {
    var tail := path[1..];
    assert forall i :: 0 <= i < |tail| ==> tail[i] == path[i + 1];
    assert DistinctSigs(g, tail) by {
      forall i, j | 0 <= i < j < |tail|
        ensures g.sig(tail[i]) != g.sig(tail[j])
      {
        assert tail[i] == path[i + 1] && tail[j] == path[j + 1];
      }
    }
    assert AvoidsSeen(g, tail, seen + {g.sig(p)}) by {
      forall i | 0 <= i < |tail|
        ensures g.sig(tail[i]) !in seen + {g.sig(p)}
      {
        assert tail[i] == path[i + 1];
        assert g.sig(path[0]) != g.sig(path[i + 1]);
      }
    }
  }

  /** Every suffix of a solution is a solution from its own first state. */
  lemma SolutionSuffix<P>(g: Game<P>, seen: set<string>, path: seq<P>, j: nat)
    requires |path| > 0 && IsSolution(g, path[0], seen, path)
    requires j < |path|
    ensures IsSolution(g, path[j], seen, path[j..])
  {
    var suffix := path[j..];
    assert forall i :: 0 <= i < |suffix| ==> suffix[i] == path[j + i];
    assert DistinctSigs(g, suffix) by {
      forall i, i' | 0 <= i < i' < |suffix|
        ensures g.sig(suffix[i]) != g.sig(suffix[i'])
      {
        assert suffix[i] == path[j + i] && suffix[i'] == path[j + i'];
      }
    }
    assert Last(suffix) == Last(path);
  }
}
