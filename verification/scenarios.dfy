/**
 A concrete puzzle on which the depth-first solver's answer depends on the
 order of extensions: from state 0 the first move leads along 0, 1, 2, 3,
 the second move reaches the solved state 3 at once, and the solver returns
 the long path found through the first move.
 */
module Scenarios {
  import opened Puzzle
  import opened Paths
  import DfsSolver

  function LadderSig(x: int): string {
    if x == 0 then "0" else if x == 1 then "1" else if x == 2 then "2" else if x == 3 then "3" else "other"
  }

  function LadderExt(x: int): seq<int> {
    if x == 0 then [1, 3] else if x == 1 then [2] else if x == 2 then [3] else []
  }

  /** States 0 to 3; 0 moves to 1 or 3, 1 to 2, 2 to 3; only 3 is solved. */
  function Ladder(): Game<int> {
    Game(LadderSig, x => x == 3, x => false, LadderExt, {"0", "1", "2", "3", "other"})
  }

  lemma LadderIsFinite()
    ensures FiniteSignatures(Ladder())
  {
  }

  lemma FromTwo()
    ensures DfsSolver.Solve(Ladder(), 2, Some({"0", "1"})) == [2, 3]
  {
  }

  lemma FromOne()
    ensures DfsSolver.Solve(Ladder(), 1, Some({"0"})) == [1, 2, 3]
  {
    LadderIsFinite();
    FromTwo();
    assert {"0"} + {LadderSig(1)} == {"0", "1"};
    assert DfsSolver.TryCandidates(Ladder(), 1, 0, {"0", "1"}) == [1, 2, 3];
  }

  /** The depth-first solver follows the first extension to the end and
      returns a four-state path, although a two-state solution exists. */
  lemma DfsFollowsEnumerationOrder()
    ensures DfsSolver.Solve(Ladder(), 0, None) == [0, 1, 2, 3]
    ensures IsSolution(Ladder(), 0, {}, [0, 3])
  {
    LadderIsFinite();
    FromOne();
    assert {} + {LadderSig(0)} == {"0"};
    assert DfsSolver.TryCandidates(Ladder(), 0, 0, {"0"}) == [0, 1, 2, 3];
    var short := [0, 3];
    assert Last(short) == 3;
  }
}
