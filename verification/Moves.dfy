/** The moves that make up a member's life, and how its count of failed members drifts from its marks. */
module Moves {
  import opened Collections
  import opened MembershipSpec
  import opened ChangeLog
  import opened ViewInstall

  // ---------------------------------------------------------------- moves

  /** The moves of one member's view: marking a rank failed, or taking the next change. */
  datatype Move = Mark(rank: nat) | Change(id: nat)

  predicate CanMove(v: View, move: Move) {
    ViewsAgreeInSize(v) &&
    match move
    case Mark(r) => r < |v.failed| && !v.failed[r]
    case Change(id) => NextView(v, id).myRank != -1
  }

  function Moved(v: View, move: Move): View
    requires CanMove(v, move)
  {
    match move
    case Mark(r) => v.(failed := v.failed[r := true], nFailed := v.nFailed + 1)
    case Change(id) => NextView(v, id)
  }

  /** This move removes a member the view has not marked failed. */
  predicate UnmarkedRemoval(v: View, move: Move)
    requires CanMove(v, move)
  {
    move.Change? && move.id in v.members && !v.failed[RankOf(v.members, move.id)]
  }

  predicate CanMoveOn(v: View, moves: seq<Move>)
    decreases |moves|
  {
    moves == [] || (CanMove(v, moves[0]) && CanMoveOn(Moved(v, moves[0]), moves[1..]))
  }

  function MovedOn(v: View, moves: seq<Move>): View
    requires CanMoveOn(v, moves)
    decreases |moves|
  {
    if moves == [] then v else MovedOn(Moved(v, moves[0]), moves[1..])
  }

  function UnmarkedRemovals(v: View, moves: seq<Move>): nat
    requires CanMoveOn(v, moves)
    decreases |moves|
  {
    if moves == [] then 0
    else UnmarkedRemovals(Moved(v, moves[0]), moves[1..]) + if UnmarkedRemoval(v, moves[0]) then 1 else 0
  }

  /** The changes among the moves. */
  function Changes(moves: seq<Move>): seq<nat>
    decreases |moves|
  {
    if moves == [] then []
    else Changes(moves[..|moves| - 1]) + match moves[|moves| - 1] { case Mark(_) => [] case Change(id) => [id] }
  }

  lemma {:induction false} MovedOnJoin(v: View, a: seq<Move>, b: seq<Move>)
    requires CanMoveOn(v, a) && CanMoveOn(MovedOn(v, a), b)
    ensures CanMoveOn(v, a + b) && MovedOn(v, a + b) == MovedOn(MovedOn(v, a), b)
    decreases |a|
  {
    hide CanMove, Moved;
    if a == [] {
      assert a + b == b;
    } else {
      assert (a + b)[0] == a[0] && (a + b)[1..] == a[1..] + b;
      MovedOnJoin(Moved(v, a[0]), a[1..], b);
    }
  }

  lemma MoveDrift(v: View, move: Move)
    requires CanMove(v, move)
    ensures Count(Moved(v, move).failed) - Moved(v, move).nFailed
         == Count(v.failed) - v.nFailed + if UnmarkedRemoval(v, move) then 1 else 0
  {
    match move
    case Mark(r) => CountSet(v.failed, r);
    case Change(id) =>
      if id in v.members {
        CountWithout(v.failed, RankOf(v.members, id));
      } else {
        CountAppend(v.failed, [false]);
        CountOne(false);
      }
  }

  /** Over any moves, nFailed falls behind the marks by exactly the removals of members not marked. */
  lemma {:induction false} AccountsDrift(v: View, moves: seq<Move>)
    requires CanMoveOn(v, moves)
    ensures Count(MovedOn(v, moves).failed) - MovedOn(v, moves).nFailed
         == Count(v.failed) - v.nFailed + UnmarkedRemovals(v, moves)
    decreases |moves|
  {
    hide Moved, UnmarkedRemoval, CanMove;
    if moves != [] {
      MoveDrift(v, moves[0]);
      AccountsDrift(Moved(v, moves[0]), moves[1..]);
    }
  }

  lemma {:induction false} MovesAtRank(v: View, moves: seq<Move>, rank: nat)
    requires CanMoveOn(v, moves) && (forall k :: 0 <= k < |moves| ==> moves[k].Mark?) && rank < |v.members|
    ensures CanMoveOn(v.(myRank := rank), moves)
    ensures MovedOn(v.(myRank := rank), moves) == MovedOn(v, moves).(myRank := rank)
    decreases |moves|
  {
    if moves != [] {
      MovesAtRank(Moved(v, moves[0]), moves[1..], rank);
    }
  }

  lemma OneMove(v: View, move: Move)
    requires CanMove(v, move)
    ensures CanMoveOn(v, [move]) && MovedOn(v, [move]) == Moved(v, move)
  {
    hide CanMove, Moved;
    assert CanMoveOn(Moved(v, move), []) && MovedOn(Moved(v, move), []) == Moved(v, move);
    assert [move][1..] == [];
  }

  // ---------------------------------------------------------------- the changes among the moves

  lemma {:induction false} ChangesJoin(a: seq<Move>, b: seq<Move>)
    ensures Changes(a + b) == Changes(a) + Changes(b)
    decreases |b|
  {
    if b == [] {
      assert a + b == a;
    } else {
      assert (a + b)[..|a + b| - 1] == a + b[..|b| - 1];
      ChangesJoin(a, b[..|b| - 1]);
    }
  }

  lemma {:induction false} MarksChangeNothing(moves: seq<Move>)
    requires forall k :: 0 <= k < |moves| ==> moves[k].Mark?
    ensures Changes(moves) == []
    decreases |moves|
  {
    if moves != [] {
      MarksChangeNothing(moves[..|moves| - 1]);
    }
  }

  lemma OneChange(x: nat)
    ensures Changes([Change(x)]) == [x]
  {
    assert [Change(x)][..0] == [];
  }
}
