/**
 How the runs of Divergence and Crowding begin, in a table of any size from four up: one
 node joins, another is marked too late for the view that takes it in, and a third joins.
 */
module FirstViews {
  import opened Collections
  import opened Messages
  import opened MembershipSpec
  import opened Membership
  import opened ChangeLog
  import opened LeaderSteps
  import opened ViewInstall
  import opened MembershipInv
  import opened MembershipRuns
  import opened Camps
  import opened LeaderCamps
  import opened Turns

  // ---------------------------------------------------------------- views with nobody marked

  function Upto(n: nat): (s: seq<nat>)
    ensures |s| == n && forall i: nat :: i < n ==> s[i] == i
  {
    seq(n, (i: nat) => i)
  }

  function Unmarked(n: nat): (s: seq<bool>)
    ensures |s| == n && forall i :: 0 <= i < n ==> !s[i]
  {
    seq(n, i => false)
  }

  /** The leader's view of these members, nobody marked. */
  function Plain(vid: nat, members: seq<nat>, nFailed: int): View {
    View(vid, members, Unmarked(|members|), nFailed, 0)
  }

  lemma PlainAdds(v: View, id: nat)
    requires v == Plain(v.vid, v.members, v.nFailed) && v.vid >= 0 && v.members != [] && id !in v.members
    ensures NextView(v, id) == Plain(v.vid + 1, v.members + [id], v.nFailed) && Changed(v.members, id) == v.members + [id]
  {
    FirstRank(v.members + [id]);
    assert Unmarked(|v.members|) + [false] == Unmarked(|v.members| + 1);
  }

  /** So it does with marks made since it was begun left aside. */
  lemma PlainRemoves(v: View, r: nat)
    requires v == Plain(v.vid, v.members, v.nFailed) && v.vid >= 0 && 0 < r < |v.members| && Distinct(v.members)
    ensures NextView(v, v.members[r]) == Plain(v.vid + 1, Without(v.members, r), v.nFailed - 1)
    ensures Changed(v.members, v.members[r]) == Without(v.members, r)
  {
    RankIs(v.members, r);
    FirstRank(Without(v.members, r));
    assert Without(Unmarked(|v.members|), r) == Unmarked(|v.members| - 1);
  }

  // ---------------------------------------------------------------- the start

  /** A reachable state in which everyone is in the view, on these rows, with nothing heard or done in it yet. */
  ghost predicate Begins(G: Group, S: System, v: View, rows: seq<GmsRow>, log: seq<nat>, committed: int) {
    && Reach(G, S) && Opens(S, v, rows) && S.log == log && S.waiting == map[]
    && rows[0].nCommitted == committed && rows[0].nChanges == |log|
    && forall r :: 0 <= r < |rows| ==> Quiet(rows[r]) && rows[r].nAcked <= committed && (r > 0 ==> !rows[r].wedged)
  }

  /** All places but one are taken at the start. */
  function Table(max: nat): Group
    requires max > 0
  {
    Group(max, Upto(max - 1))
  }

  function Zero(max: nat): System
    requires max > 1
  {
    System([], InitialProc(Table(max), 0), true, map id: nat | 0 < id < max - 1 :: InitialProc(Table(max), id), map[],
           set id: nat | id < max - 1 :: Put(id, 0, BlankRow(max)))
  }

  function Blanks(max: nat): (rows: seq<GmsRow>)
    requires max > 0
    ensures |rows| == max - 1 && forall r :: 0 <= r < |rows| ==> rows[r] == BlankRow(max)
  {
    seq(max - 1, r => BlankRow(max))
  }

  lemma ZeroStarts(max: nat)
    requires max > 1
    ensures Init(Table(max), Zero(max))
  {
    hide BlankRow, RankOf, InitialProc;
    var S := Zero(max);
    forall id | id in S.followers
      ensures id in Upto(max - 1) && S.followers[id] == InitialProc(Table(max), RankOf(Upto(max - 1), id))
    {
      assert Upto(max - 1)[id] == id;
      RankIs(Upto(max - 1), id);
    }
    forall put | put in S.published ensures put.owner in Upto(max - 1) && put == Put(put.owner, 0, BlankRow(max)) {
      assert Upto(max - 1)[put.owner] == put.owner;
    }
    var rest := Upto(max - 1)[1..];
    forall id: nat ensures id in rest <==> id in S.followers {
      if 0 < id < max - 1 {
        assert rest[id - 1] == id;
      }
    }
  }

  lemma ZeroMate(max: nat, id: nat)
    requires max > 1 && 0 < id < max - 1
    ensures Mate(Zero(max), id, 0, Upto(max - 1), BlankRow(max), [])
  {
    hide BlankRow;
  }

  lemma BlankQuiet(max: nat)
    ensures var b := BlankRow(max); Quiet(b) && b.nAcked == 0 == b.nCommitted == b.nChanges && !b.wedged
  {
  }

  lemma ZeroBegins(max: nat)
    requires max > 1
    ensures Begins(Table(max), Zero(max), Plain(0, Upto(max - 1), 0), Blanks(max), [], 0)
    ensures Zero(max).lead.m.joining.None? && Zero(max).lead.m.last == Unmarked(max)
    ensures forall id: nat :: id in Zero(max).followers <==> 0 < id < max - 1
  {
    hide Reach, BlankRow, Mate, Init, RankOf;
    ZeroStarts(max);
    ReachStart(Table(max), Zero(max));
    BlankQuiet(max);
    var v := Plain(0, Upto(max - 1), 0);
    forall r: nat | 0 < r < |v.members| ensures Mate(Zero(max), v.members[r], 0, v.members, Blanks(max)[r], []) {
      ZeroMate(max, r);
    }
  }

  // ---------------------------------------------------------------- view 0: one joins, and 1 is marked too late

  /** Rows that differ in the first only, and there not in what is suspected. */
  lemma QuietSame(rows: seq<GmsRow>, rows': seq<GmsRow>)
    requires rows != [] && |rows'| == |rows| && rows'[1..] == rows[1..] && rows'[0].suspected == rows[0].suspected
    requires forall r :: 0 <= r < |rows| ==> Quiet(rows[r])
    ensures forall r :: 0 <= r < |rows| ==> Quiet(rows'[r]) && (r > 0 ==> rows'[r] == rows[r])
  {
    forall r | 0 < r < |rows| ensures rows'[r] == rows[r] {
      assert rows'[1..][r - 1] == rows[1..][r - 1];
    }
  }

  lemma OpensFacts(S: System, v: View, rows: seq<GmsRow>)
    requires Opens(S, v, rows)
    ensures rows != [] && S.lead.m.view == v && |rows| == |v.members| == |S.lead.m.sst|
  {
    hide Mate;
  }

  /** A node connects to the leader. */
  lemma Connects(G: Group, S: System, v: View, rows: seq<GmsRow>, log: seq<nat>, committed: int, id: nat)
      returns (S': System, rows': seq<GmsRow>)
    requires Begins(G, S, v, rows, log, committed) && S.lead.m.joining.None? && 0 <= committed <= v.vid <= |log|
    requires id !in v.members && id !in S.followers && id !in log && |log| - committed != G.max / 2
    ensures Begins(G, S', v, rows', log + [id], committed) && S'.lead.m.joining == Some(id)
    ensures S'.followers.Keys == S.followers.Keys && S'.lead.m.last == S.lead.m.last
  {
    hide Reach, Mate, Quiet, Band;
    OpensFacts(S, v, rows);
    S', rows' := TakesIn(G, S, v, rows, id);
    QuietSame(rows, rows');
  }

  /** The leader begins to take the node in, marks 1, and installs a view in which 1 is not marked. */
  lemma Arrives1(max: nat) returns (S: System, rows: seq<GmsRow>)
    requires max >= 4
    ensures Reach(Table(max), S) && |rows| == max - 1 && Enters(S, Plain(1, Upto(max), 0), rows[0]) && S.log == [max - 1, 1]
    ensures S.lead.m.joining.None? && S.waiting == map[max - 1 := Plain(1, Upto(max), 0)]
    ensures forall id: nat :: id in S.followers <==> 0 < id < max - 1
    ensures |S.lead.m.last| == max && forall r: nat :: r < max ==> (S.lead.m.last[r] <==> r == 1)
    ensures forall r: nat :: 0 < r < max - 1 ==> Mate(S, r, 1, Upto(max), rows[r], [])
    ensures rows[0].nCommitted == 1 && rows[0].nChanges == 2
    ensures forall r :: 0 <= r < max - 1 ==> Quiet(rows[r]) && rows[r].nAcked == 1 && !rows[r].wedged
  {
    hide Reach, Mate, Quiet, NextView, Changed, Band;
    ZeroBegins(max);
    var v, w := Plain(0, Upto(max - 1), 0), Plain(1, Upto(max), 0);
    var T, rows0 := Connects(Table(max), Zero(max), v, Blanks(max), [], 0, max - 1);
    OpensFacts(T, v, rows0);
    PlainAdds(v, max - 1);
    assert Upto(max - 1) + [max - 1] == Upto(max) && [] + [max - 1] == [max - 1] && [max - 1] + [1] == [max - 1, 1];
    S, rows := LateMove(Table(max), T, v, rows0, 1, w);
    forall r: nat | 0 < r < max - 1 ensures Mate(S, r, 1, Upto(max), rows[r], []) {
      assert v.members[r] == r;
    }
  }

  /** The node starts, and view 1 begins with the removal of 1 pending and 1 counted as live. */
  lemma Begins1(max: nat) returns (S: System, rows: seq<GmsRow>)
    requires max >= 4
    ensures Begins(Table(max), S, Plain(1, Upto(max), 0), rows, [max - 1, 1], 1) && S.lead.m.joining.None?
    ensures forall id: nat :: id in S.followers <==> 0 < id < max
    ensures |S.lead.m.last| == max && forall r: nat :: r < max ==> (S.lead.m.last[r] <==> r == 1)
  {
    hide Reach, Mate, Quiet, InitFromExisting, Opens;
    var w := Plain(1, Upto(max), 0);
    var T, rows1 := Arrives1(max);
    S := JoinerEnters(Table(max), T, w, rows1, max - 1);
    rows := rows1 + [InitFromExisting(max, rows1[0])];
    FreshRow(max, rows1[0]);
    OpensFacts(S, w, rows);
    forall id: nat ensures id in S.followers <==> 0 < id < max {
      assert id in S.followers.Keys <==> id in T.followers.Keys + {max - 1};
    }
  }

  // ---------------------------------------------------------------- view 1: another joins

  lemma Connects1(max: nat) returns (S: System, rows: seq<GmsRow>)
    requires max >= 4
    ensures Begins(Table(max), S, Plain(1, Upto(max), 0), rows, [max - 1, 1, max], 1) && S.lead.m.joining == Some(max)
    ensures forall id: nat :: id in S.followers <==> 0 < id < max
    ensures |S.lead.m.last| == max && forall r: nat :: r < max ==> (S.lead.m.last[r] <==> r == 1)
  {
    hide Reach, Mate, Quiet, Opens;
    var T, rows1 := Begins1(max);
    assert [max - 1, 1] + [max] == [max - 1, 1, max];
    S, rows := Connects(Table(max), T, Plain(1, Upto(max), 0), rows1, [max - 1, 1], 1, max);
    assert forall id: nat :: id in S.followers.Keys <==> id in T.followers.Keys;
  }
}
