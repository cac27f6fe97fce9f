/**
 The interface a full-information puzzle offers to the solvers.

 A puzzle state is a value of an arbitrary type `P`. The solvers never look
 inside a state; they only ask the four questions gathered in a `Game`:
 its signature (the string the solvers use as the state's identity), whether
 it is solved, whether its branch should be abandoned, and which states one
 legal move reaches, in order.
 */
module Puzzle {

  /** An optional value; the solvers' `seen` argument may be absent. */
  datatype Option<T> = None | Some(value: T) {

    /** The carried value, or `default` when there is none. */
    function GetOr(default: T): T {
      match this
      case Some(v) => v
      case None => default
    }
  }

  /** The queries a solver may put to a puzzle state of type `P`.
      `universe` is a finite set of strings that holds the signature of every
      state (see `FiniteSignatures`); the search never consults it, it only
      bounds how often the set of seen signatures can grow. */
  datatype Game<!P> = Game(
    sig: P -> string,
    solved: P -> bool,
    failFast: P -> bool,
    ext: P -> seq<P>,
    universe: set<string>)

  /** Every signature lies in the game's finite universe, so only finitely
      many distinct states can be told apart. */
  ghost predicate FiniteSignatures<P(!new)>(g: Game<P>) {
    forall p :: g.sig(p) in g.universe
  }

  /** Two states with the same signature agree on being solved: the signature
      is the state's identity. */
  ghost predicate SigDeterminesSolved<P(!new)>(g: Game<P>) {
    forall x, y :: g.sig(x) == g.sig(y) ==> g.solved(x) == g.solved(y)
  }

  /** Distinct states have distinct signatures: the signature identifies the
      state, not just its solved status. */
  ghost predicate SigInjective<P(!new)>(g: Game<P>) {
    forall x, y :: g.sig(x) == g.sig(y) ==> x == y
  }

  /** The set of forbidden signatures an optional `seen` argument stands for:
      an absent argument forbids nothing. */
  function Forbidden(seen: Option<set<string>>): set<string> {
    seen.GetOr({})
  }

  /** Adding a signature never lets the unseen part of the universe grow, and
      adding a new signature of the universe shrinks it. */
  lemma GrowSeen(universe: set<string>, seen: set<string>, x: string)
    ensures |universe - (seen + {x})| <= |universe - seen|
    ensures x in universe && x !in seen ==> |universe - (seen + {x})| < |universe - seen|
  {
    if x in universe && x !in seen {
      assert universe - (seen + {x}) == (universe - seen) - {x};
    } else {
      assert universe - (seen + {x}) == universe - seen;
    }
  }
}
