/**
 A run in which two members of one view fix different next views.  The leader, in a table
 of four, marks members failed between fixing a view and installing it.  Each such view hides
 a mark, so the pending removals no longer match the marks: nFailed falls below the marks, a
 member is proposed twice, and at last more is pending than the ring holds, and a change
 still needed is written over.  A second run, the same at first, shows what becomes of a
 second removal of the same member.
 */
module Divergence {
  import opened Collections
  import opened Messages
  import opened MembershipSpec
  import opened Membership
  import opened ChangeLog
  import opened LeaderSteps
  import opened ViewInstall
  import opened MembershipInv
  import opened MembershipAccounts
  import opened MembershipRuns
  import opened MembershipLists
  import opened RingFits
  import opened Standstill
  import opened Camps
  import opened LeaderCamps
  import opened Turns
  import opened FirstViews

  const FOUR := Group(4, [0, 1, 2])

  /** The views of the leader as they begin: nobody is marked in any of them. */
  const VIEW1 := View(1, [0, 1, 2, 3], [false, false, false, false], 0, 0)
  const VIEW2 := View(2, [0, 2, 3], [false, false, false], -1, 0)
  const VIEW3 := View(3, [0, 2, 3, 4], [false, false, false, false], -1, 0)

  // ---------------------------------------------------------------- view 1

  lemma FourIs()
    ensures FOUR == Table(4) && VIEW1 == Plain(1, Upto(4), 0)
  {
    assert Upto(3) == [0, 1, 2] && Upto(4) == [0, 1, 2, 3] && Unmarked(4) == [false, false, false, false];
  }

  /** 3 has joined, and the removal of 1 is pending. */
  lemma Starts1() returns (S: System, rows: seq<GmsRow>)
    ensures Begins(FOUR, S, VIEW1, rows, [3, 1], 1) && S.lead.m.joining.None?
    ensures S.lead.m.last == [false, true, false, false]
  {
    hide Begins;
    FourIs();
    S, rows := Begins1(4);
  }

  // ---------------------------------------------------------------- view 1: 4 joins, and 1 is removed

  lemma Next1()
    ensures NextView(VIEW1, 1) == VIEW2 && Changed(VIEW1.members, 1) == VIEW2.members
  {
    RankIs([0, 1, 2, 3], 1);
    assert [0] + [2, 3] == [0, 2, 3] && [0, 1, 2, 3][..1] == [0] && [0, 1, 2, 3][2..] == [2, 3];
    assert [false, false, false, false][..1] + [false, false, false, false][2..] == [false, false, false];
    RankIs([0, 2, 3], 0);
  }

  /** 4 connects to the leader. */
  lemma Starts1With4() returns (S: System, rows: seq<GmsRow>)
    ensures Begins(FOUR, S, VIEW1, rows, [3, 1, 4], 1) && S.lead.m.joining == Some(4) && |rows| == 4
    ensures S.followers.Keys == {1, 2, 3} && S.lead.m.last == [false, true, false, false]
  {
    hide Reach, Mate, Quiet;
    FourIs();
    S, rows := Connects1(4);
    assert forall id: nat :: id in S.followers.Keys <==> id in {1, 2, 3};
  }

  /** All of it is committed, and everyone else begins to remove 1. */
  lemma Turns1() returns (S: System, m: Member, R: seq<GmsRow>)
    ensures Reach(FOUR, S) && Leads(S, m) && |R| == 4 && Band(S, 1, VIEW1.members, R, Plans(VIEW1.members, 1, 4))
    ensures m.view == VIEW1 && m.sst == R && m.next == Some(VIEW2) && m.joining == Some(4) && m.last == [false, true, false, false]
    ensures S.log == [3, 1, 4] && S.waiting == map[] && S.followers.Keys == {1, 2, 3} && R[0].nCommitted == 3
    ensures forall r :: 0 <= r < 4 ==> R[r].wedged && R[r].nAcked == R[r].nChanges == 3
  {
    hide Reach, Mate, Quiet, Band, AfterRound, Plans, NextView, Changed, Synced;
    var T, rows := Starts1With4();
    Next1();
    AfterRoundRows(rows);
    S := AllTurn(FOUR, T, VIEW1, rows, 0);
    R := AfterRound(rows);
    m := T.lead.m.(sst := R, next := Some(VIEW2));
  }

  /** View 2 begins with the joining of 4 committed. */
  lemma Begins2() returns (S: System, rows: seq<GmsRow>)
    ensures Reach(FOUR, S) && Opens(S, VIEW2, rows) && |rows| == 3 && S.log == [3, 1, 4] && S.waiting == map[]
    ensures S.lead.m.joining == Some(4) && S.lead.m.last == [false, true, false, false] && S.followers.Keys == {1, 2, 3}
    ensures rows[0].nCommitted == 3
    ensures forall r :: 0 <= r < 3 ==> Quiet(rows[r]) && rows[r].nAcked == rows[r].nChanges == 3 && !rows[r].wedged
  {
    hide Reach, Mate, Quiet, Plans, NextView, Changed, Synced, InitFromExisting;
    var T, m, R := Turns1();
    Next1();
    assert VIEW1.members[2] == 2 && VIEW1.members[3] == 3 && VIEW2.members == [0, 2, 3];
    S := AllMove(FOUR, T, m, VIEW2, R, 1);
    rows := [InitFromExisting(4, R[0]), InitFromExisting(4, R[2]), InitFromExisting(4, R[3])];
    FreshRow(4, R[0]);
    FreshRow(4, R[2]);
    FreshRow(4, R[3]);
    AllEntered(S, VIEW2, rows);
  }

  // ---------------------------------------------------------------- view 2: 4 is taken in, and 2 and 3 are marked too late

  lemma Next2()
    ensures NextView(VIEW2, 4) == VIEW3 && Changed(VIEW2.members, 4) == VIEW3.members
  {
    assert 4 !in [0, 2, 3];
    assert [0, 2, 3] + [4] == [0, 2, 3, 4] && [false, false, false] + [false] == [false, false, false, false];
    RankIs([0, 2, 3, 4], 0);
  }

  /** 2 reports 3, and the leader hears of it before 2 has wedged. */
  lemma Gossips() returns (S: System, m: Member)
    ensures Reach(FOUR, S) && Leads(S, m) && Band(S, 2, VIEW2.members, m.sst, NoPlans(3)) && |m.sst| == 3
    ensures m.view == VIEW2 && m.next.None? && m.joining == Some(4) && m.last == [false, true, false, false]
    ensures S.log == [3, 1, 4] && S.waiting == map[] && S.followers.Keys == {1, 2, 3} && m.sst[0].nCommitted == 3
    ensures forall r :: 0 <= r < 3 ==> m.sst[r].nAcked == m.sst[r].nChanges == 3 && !m.sst[r].wedged
    ensures Quiet(m.sst[0]) && Quiet(m.sst[2]) && |m.sst[1].suspected| == 4 && forall q :: 0 <= q < 4 ==> (m.sst[1].suspected[q] <==> q == 2)
  {
    hide Reach, Mate, Synced, WellShaped, LeadBase, Window;
    var T, rows := Begins2();
    assert VIEW2.members == [0, 2, 3];
    LeadKnows(FOUR, T);
    var U := FollowerReports(FOUR, T, 2, VIEW2.members, rows[1], 1, [], 2);
    var said := rows[1].(suspected := rows[1].suspected[2 := true]);
    BandBeside(T, U, 2, VIEW2.members, rows, NoPlans(3), 1, said, []);
    assert NoPlans(3)[1 := []] == NoPlans(3);
    S := LeaderHears(FOUR, U, rows[1 := said]);
    m := T.lead.m.(sst := rows[1 := said]);
    TableSized(FOUR, S);
    BandKept(U, S, 2, VIEW2.members, m.sst, NoPlans(3), m.sst[0]);
    assert m.sst[0 := m.sst[0]] == m.sst;
  }

  /** Everyone begins to take 4 in; the leader has yet to hear that they have wedged. */
  lemma Turns2() returns (S: System, m: Member, R: seq<GmsRow>)
    ensures Reach(FOUR, S) && Leads(S, m) && |R| == |m.sst| == 3 && Band(S, 2, VIEW2.members, R, Plans(VIEW2.members, 4, 3))
    ensures m.view == VIEW2 && m.next == Some(VIEW3) && m.joining == Some(4) && m.last == [false, true, false, false]
    ensures S.log == [3, 1, 4] && S.waiting == map[] && S.followers.Keys == {1, 2, 3}
    ensures m.sst[0].nCommitted == m.sst[0].nAcked == 3 && m.sst[0].wedged && !m.sst[1].wedged
    ensures Quiet(m.sst[0]) && Quiet(m.sst[2]) && |m.sst[1].suspected| == 4 && forall q :: 0 <= q < 4 ==> (m.sst[1].suspected[q] <==> q == 2)
    ensures forall r :: 0 < r < 3 ==> R[r].wedged && R[r].nAcked == 3
  {
    hide Reach, Mate, Synced, WellShaped, LeadBase, Window, Plans, NextView, Changed, Distinct;
    var T, n := Gossips();
    Next2();
    LeadKnows(FOUR, T);
    forall r | 0 < r < 3 ensures RingShape(4, n.sst[r]) && n.sst[r].changes[2] == 4 {
      RingSays(FOUR, T, 2, VIEW2.members, n.sst[r], [], r, 2);
    }
    var U := AllBegin(FOUR, T, 2, VIEW2.members, n.sst, 4, 3);
    LeadsStay(T, U, n);
    LeadReads(FOUR, U, 2);
    S := LeaderBegins(FOUR, U, n, 4);
    m := Begun(n, 4);
    R := Wedging(n.sst, VIEW2.members, 4, 3)[0 := m.sst[0]];
    BandKept(U, S, 2, VIEW2.members, Wedging(n.sst, VIEW2.members, 4, 3), Plans(VIEW2.members, 4, 3), m.sst[0]);
  }

  /** The leader's transport reports 2; with what 2 has reported, the leader marks 2 and 3. */
  lemma MarksBoth() returns (S: System, m: Member, R: seq<GmsRow>)
    ensures Reach(FOUR, S) && Leads(S, m) && |R| == |m.sst| == 3 && Band(S, 2, VIEW2.members, R, Plans(VIEW2.members, 4, 3))
    ensures m.view == WithMark(WithMark(VIEW2, 1), 2) && m.next == Some(VIEW3) && m.joining == Some(4)
    ensures m.last == [false, true, true, false] && S.log == [3, 1, 4, 2, 3] && S.waiting == map[] && S.followers.Keys == {1, 2, 3}
    ensures m.sst[0].nCommitted == m.sst[0].nAcked == 3 && m.sst[0].nChanges == 5 && m.sst[0].wedged
    ensures forall r :: 0 < r < 3 ==> R[r].wedged && R[r].nAcked == 3
  {
    hide Reach, Mate, Synced, Plans, Suspects, WellShaped;
    var T, n;
    T, n, R := Turns2();
    assert VIEW2.members == [0, 2, 3];
    TableSized(FOUR, T);
    OneCounts(n.sst[0], 1);
    var U := LeaderReports(FOUR, T, n, 1);
    var n1 := SetOwn(n, n.sst[0].(suspected := n.sst[0].suspected[1 := true]));
    TwoSuspected(n.sst, 1, 1, 2);
    assert !n1.sst[1].wedged;
    var row;
    S, row := LeaderMarksTwo(FOUR, U, n1, 1, 2);
    m := n1.(view := WithMark(WithMark(VIEW2, 1), 2), sst := n1.sst[0 := row], last := Recalled(4, n1, {1, 2}));
    assert [3, 1, 4] + [2, 3] == [3, 1, 4, 2, 3];
    BandKept(T, S, 2, VIEW2.members, R, Plans(VIEW2.members, 4, 3), R[0]);
    assert R[0 := R[0]] == R;
  }

  /** The leader suspects one rank, another member one other, and nobody else anyone. */
  lemma TwoSuspected(table: seq<GmsRow>, q: nat, who: nat, q': nat)
    requires |table| <= 4 && 0 < who < |table| && q < |table| && q' < |table| && forall r :: 0 <= r < |table| ==> |table[r].suspected| == 4
    requires forall r :: 0 <= r < |table| && r != who ==> Quiet(table[r])
    requires forall p :: 0 <= p < 4 ==> (table[who].suspected[p] <==> p == q')
    ensures Suspects(4, table[0 := table[0].(suspected := table[0].suspected[q := true])], {q, q'})
  {
    var t := table[0 := table[0].(suspected := table[0].suspected[q := true])];
    assert t[0].suspected[q] && t[who].suspected[q'];
  }

  /** View 3 marks nobody, though both its old members besides the leader are marked and to be removed; and 4 starts in it. */
  lemma Begins3() returns (S: System, rows: seq<GmsRow>)
    ensures Reach(FOUR, S) && Opens(S, VIEW3, rows) && |rows| == 4 && S.log == [3, 1, 4, 2, 3] && S.waiting == map[]
    ensures S.lead.m.joining.None? && S.lead.m.last == [false, true, true, false] && S.followers.Keys == {1, 2, 3, 4}
    ensures rows[0].nCommitted == 3 && rows[0].nChanges == 5
    ensures forall r :: 0 <= r < 4 ==> Quiet(rows[r]) && rows[r].nAcked == 3 && !rows[r].wedged
  {
    hide Reach, Mate, Quiet, Plans, NextView, Changed, Synced, InitFromExisting;
    var T, m, R := MarksBoth();
    Next2();
    assert VIEW2.members[1] == 2 && VIEW2.members[2] == 3 && VIEW2.members == [0, 2, 3] && VIEW3.members == [0, 2, 3, 4];
    var U := AllMove(FOUR, T, m, VIEW3, R, 4);
    var rows3 := [InitFromExisting(4, m.sst[0]), InitFromExisting(4, R[1]), InitFromExisting(4, R[2])];
    FreshRow(4, m.sst[0]);
    FreshRow(4, R[1]);
    FreshRow(4, R[2]);
    S := JoinerEnters(FOUR, U, VIEW3, rows3, 4);
    rows := rows3 + [InitFromExisting(4, rows3[0])];
    FreshRow(4, rows3[0]);
    assert {1, 2, 3} + {4} == {1, 2, 3, 4};
  }

  // ---------------------------------------------------------------- view 3: more is pending than the ring holds

  /** View 4 at the leader, which removes 2; at 4 it will be the one that removes 3. */
  const LEFT := View(4, [0, 3, 4], [false, false, true], -1, 0)

  lemma Next3()
    ensures NextView(WithMark(VIEW3, 3), 2) == LEFT && Changed([0, 2, 3, 4], 3) == [0, 2, 4]
  {
    RankIs([0, 2, 3, 4], 1);
    RankIs([0, 2, 3, 4], 2);
    RankIs([0, 3, 4], 0);
    assert [0, 2, 3, 4][..1] + [0, 2, 3, 4][2..] == [0, 3, 4];
    assert [0, 2, 3, 4][..2] + [0, 2, 3, 4][3..] == [0, 2, 4];
    assert [false, false, false, true][..1] + [false, false, false, true][2..] == [false, false, true];
  }

  /** What the members have put, all of it acknowledged; the leader has yet to hear that 3 has wedged. */
  ghost predicate Settled3(R: seq<GmsRow>) {
    |R| == 4 && forall r :: 0 <= r < 4 ==> R[r].wedged && R[r].nAcked == 5 && |R[r].suspected| == 4 && Quiet(R[r])
  }

  /** The leader of view 3, with this row, in the table it has heard. */
  function Lead3(v: View, R: seq<GmsRow>, row: GmsRow, next: Option<View>, joining: Option<nat>, last: seq<bool>): Member
    requires |R| == 4
  {
    Member(v, Told(R, 2)[0 := row], next, joining, last)
  }

  lemma Acks3() returns (S: System, R: seq<GmsRow>)
    ensures Reach(FOUR, S) && Settled3(R) && Band(S, 3, VIEW3.members, R, NoPlans(4))
    ensures Leads(S, Lead3(VIEW3, R, R[0], None, None, [false, true, true, false]))
    ensures S.log == [3, 1, 4, 2, 3] && S.waiting == map[] && S.followers.Keys == {1, 2, 3, 4}
    ensures R[0].nCommitted == 3 && R[0].nChanges == 5
  {
    hide Reach, Mate, Quiet, Synced, AfterAcks, Band;
    var T, rows := Begins3();
    S := AckRound(FOUR, T, VIEW3, rows, 2);
    R := AfterAcks(rows);
    AfterAcksRows(rows);
    QuietRows(rows, R);
    TableSized(FOUR, S);
    assert Told(R, 2)[0 := R[0]] == Told(R, 2);
    forall r | 0 <= r < 4 ensures |R[r].suspected| == 4 {
      assert S.lead.m.sst[r].suspected == R[r].suspected;
    }
  }

  /** The leader's transport reports 4, which the leader marks, and 5 connects. */
  lemma Crowds() returns (S: System, row: GmsRow, R: seq<GmsRow>)
    ensures Reach(FOUR, S) && Settled3(R) && Band(S, 3, VIEW3.members, R, NoPlans(4))
    ensures Leads(S, Lead3(WithMark(VIEW3, 3), R, row, None, Some(5), [false, false, false, true])) && S.log == [3, 1, 4, 2, 3, 4, 5]
    ensures row.wedged && row.nCommitted == 3 && row.nAcked == 5 && row.nChanges == 7
    ensures |row.suspected| == 4 && forall q: nat :: q < 4 ==> (row.suspected[q] <==> q == 3)
  {
    hide Reach, Mate, Quiet, Synced, WellShaped, LeadBase, Window, Distinct;
    var T;
    T, R := Acks3();
    var m := Lead3(VIEW3, R, R[0], None, None, [false, true, true, false]);
    assert VIEW3.members == [0, 2, 3, 4] && [3, 1, 4, 2, 3][3..] == [2, 3] && [3, 1, 4, 2, 3] + [4] == [3, 1, 4, 2, 3, 4];
    UnwedgedQuiet(R[2]);
    var U, row6 := LeaderReportsAndMarks(FOUR, T, m, 3);
    var m6 := Lead3(WithMark(VIEW3, 3), R, row6, None, None, [false, false, false, true]);
    assert Recalled(4, m, {3}) == m6.last && Told(R, 2)[0 := R[0]][0 := row6] == m6.sst;
    LeadKnows(FOUR, U);
    assert [3, 1, 4, 2, 3, 4][3..] == [2, 3, 4] && [3, 1, 4, 2, 3, 4] + [5] == [3, 1, 4, 2, 3, 4, 5];
    S := LeaderTakesIn(FOUR, U, m6, 5);
    row := Propose(4, row6, 5).(wedged := true);
    assert Told(R, 2)[0 := row6][0 := row] == Told(R, 2)[0 := row];
    BandKept(T, S, 3, VIEW3.members, R, NoPlans(4), R[0]);
    assert R[0 := R[0]] == R;
  }

  /** The leader commits what it had proposed before, acknowledges the rest, and begins to remove 2. */
  lemma LeadsAway() returns (S: System, row: GmsRow, R: seq<GmsRow>)
    ensures Reach(FOUR, S) && Settled3(R) && Band(S, 3, VIEW3.members, R, NoPlans(4))
    ensures Leads(S, Lead3(WithMark(VIEW3, 3), R, row, Some(LEFT), Some(5), [false, false, false, true]))
    ensures S.log == [3, 1, 4, 2, 3, 4, 5] && row.wedged && row.nCommitted == 5 && row.nChanges == 7
    ensures |row.suspected| == 4 && forall q: nat :: q < 4 ==> (row.suspected[q] <==> q == 3)
  {
    hide Reach, Mate, Quiet, Synced, WellShaped, NextView, Changed, Distinct, Window, RankOf, LeadBase, RingShape;
    var T, row7;
    T, row7, R := Crowds();
    Next3();
    var v := WithMark(VIEW3, 3);
    var m := Lead3(v, R, row7, None, Some(5), [false, false, false, true]);
    var U := LeaderCommits(FOUR, T, m, 5);
    var V := LeaderAcks(FOUR, U, SetOwn(m, row7.(nCommitted := 5)));
    row := Acked(row7.(nCommitted := 5));
    var m' := Lead3(v, R, row, None, Some(5), m.last);
    assert m.sst[0 := row7.(nCommitted := 5)][0 := row] == m'.sst && m'.sst[0 := row.(wedged := true)] == m'.sst;
    LeadKnows(FOUR, V);
    LeadReads(FOUR, V, 3);
    S := LeaderBegins(FOUR, V, m', 2);
    BandKept(T, S, 3, VIEW3.members, R, NoPlans(4), R[0]);
    assert R[0 := R[0]] == R;
  }

  /** 2 reports 3, and the leader hears of it. */
  lemma Gossips3() returns (S: System, said: GmsRow, row: GmsRow, R: seq<GmsRow>)
    ensures Reach(FOUR, S) && Settled3(R) && Band(S, 3, VIEW3.members, R[1 := said], NoPlans(4))
    ensures Leads(S, Lead3(WithMark(VIEW3, 3), R[1 := said], row, Some(LEFT), Some(5), [false, false, false, true]))
    ensures said == R[1].(suspected := R[1].suspected[2 := true])
    ensures S.log == [3, 1, 4, 2, 3, 4, 5] && row.wedged && row.nCommitted == 5 && row.nChanges == 7
    ensures |row.suspected| == 4 && forall q: nat :: q < 4 ==> (row.suspected[q] <==> q == 3)
  {
    hide Reach, Mate, Synced, WellShaped, Quiet;
    var T;
    T, row, R := LeadsAway();
    assert VIEW3.members == [0, 2, 3, 4];
    var m := Lead3(WithMark(VIEW3, 3), R, row, Some(LEFT), Some(5), [false, false, false, true]);
    var U := FollowerReports(FOUR, T, 3, VIEW3.members, R[1], 1, [], 2);
    said := R[1].(suspected := R[1].suspected[2 := true]);
    FourApart();
    BandBeside(T, U, 3, VIEW3.members, R, NoPlans(4), 1, said, []);
    assert NoPlans(4)[1 := []] == NoPlans(4);
    LeadsStay(T, U, m);
    S := LeaderHearsRow(FOUR, U, m, 1, said);
    assert Told(R, 2)[0 := row][1 := said] == Told(R[1 := said], 2)[0 := row];
    BandKept(U, S, 3, VIEW3.members, R[1 := said], NoPlans(4), R[0]);
    assert R[1 := said][0 := R[0]] == R[1 := said];
  }

  lemma FourApart()
    ensures Distinct(VIEW3.members)
  {
  }

  /** The leader marks 3: the eighth proposal takes the place of the fourth, the change it has begun. */
  lemma WritesOver() returns (S: System, row: GmsRow, R: seq<GmsRow>)
    ensures Reach(FOUR, S) && |R| == 4 && Band(S, 3, VIEW3.members, R, NoPlans(4))
    ensures S.running && S.lead.m.view == WithMark(WithMark(VIEW3, 3), 2) && S.lead.m.next == Some(LEFT) && |S.lead.m.sst| == 4
    ensures S.lead.m.sst[0] == row && Put(0, 3, row) in S.published && S.log == [3, 1, 4, 2, 3, 4, 5, 3] && !Roomy(FOUR, S)
    ensures row.nCommitted == 5 && row.nChanges == 8 && forall r :: 0 <= r < 4 ==> R[r].nAcked == 5
  {
    hide Reach, Mate, Synced, WellShaped, Suspects, Recalled;
    var T, said, row7, R0 := Gossips3();
    R := R0[1 := said];
    assert VIEW3.members == [0, 2, 3, 4];
    var v := WithMark(VIEW3, 3);
    var m := Lead3(v, R, row7, Some(LEFT), Some(5), [false, false, false, true]);
    Suspects2And3(R0, said, row7);
    assert !m.sst[2].wedged;
    S := LeaderMarks(FOUR, T, m, {2, 3}, 2);
    row := Removing(4, row7, {2, 3}, 3);
    assert [3, 1, 4, 2, 3, 4, 5] + [3] == [3, 1, 4, 2, 3, 4, 5, 3];
    BandKept(T, S, 3, VIEW3.members, R, NoPlans(4), R[0]);
    assert R[0 := R[0]] == R;
  }

  lemma Suspects2And3(R: seq<GmsRow>, said: GmsRow, row: GmsRow)
    requires Settled3(R) && said == R[1].(suspected := R[1].suspected[2 := true])
    requires |row.suspected| == 4 && forall q: nat :: q < 4 ==> (row.suspected[q] <==> q == 3)
    ensures Suspects(4, Told(R[1 := said], 2)[0 := row], {2, 3})
  {
    var table := Told(R[1 := said], 2)[0 := row];
    assert table[0].suspected[3] && table[1].suspected[2];
  }

  // ---------------------------------------------------------------- view 4, twice

  /** 4 hears of the eighth proposal, and begins to remove 3 where the leader removes 2. */
  lemma Parts() returns (S: System)
    ensures Reach(FOUR, S) && Parted(S) && S.lead.m.next == Some(LEFT)
    ensures 4 in S.followers && S.followers[4].m.next.Some? && S.followers[4].m.next.value.members == [0, 2, 4]
  {
    hide Reach, Synced, WellShaped, RingShape, Changed, Window, Distinct;
    var T, row, R := WritesOver();
    assert VIEW3.members == [0, 2, 3, 4];
    BandKept(T, T, 3, VIEW3.members, R, NoPlans(4), row);
    var U := FollowerAcks(FOUR, T, 3, VIEW3.members, R[0 := row], 3);
    var rows := R[0 := row][3 := Echo(row, R[3])];
    MatePut(U, 4, 3, VIEW3.members, rows[3], []);
    RingSays(FOUR, U, 3, VIEW3.members, rows[3], [], 3, 7);
    Next3();
    S := FollowerBegins(FOUR, U, 3, VIEW3.members, rows, 3, 3);
    MateFacts(FOUR, S, 4, 3, VIEW3.members, rows[3].(wedged := true), [0, 2, 4], 3);
    assert PartedFrom(S.lead.m, S.followers[4].m);
  }

  // ---------------------------------------------------------------- the way there

  /** A late mark: view 1 begins with the removal of 1 pending and 1 not marked, so the accounts do not match. */
  lemma LateMarkHidden()
    ensures exists S :: Reach(FOUR, S) && S.lead.m.view == VIEW1 && S.log == [3, 1] && !Accounted(S)
  {
    hide Reach, Mate;
    var S, rows := Starts1();
    RankIs([0, 1, 2, 3], 1);
    assert S.log[1] == 1 && 1 in VIEW1.members;
    assert !RemovalsFailed(S.log, S.lead.m.view);
  }

  /**
   The leader's ring is overfilled though its own check, against the commit point, never
   stopped it; and it leads on with half its view marked failed, which its count does not show.
   */
  lemma RingOverfilled()
    ensures exists S :: && Reach(FOUR, S) && !Roomy(FOUR, S) && S.running && MemberShape(4, S.lead.m)
                        && OwnRow(S.lead.m).nChanges - OwnRow(S.lead.m).nCommitted < 4
                        && 2 * Count(S.lead.m.view.failed) == |S.lead.m.view.members| && S.lead.m.view.nFailed == 1
  {
    hide Reach, Mate, Synced, WellShaped, Count;
    var S, row, R := WritesOver();
    LeadKnows(FOUR, S);
    CountNoneMarked(VIEW3.failed);
    CountSet(VIEW3.failed, 3);
    CountSet(VIEW3.failed[3 := true], 2);
  }

  // ---------------------------------------------------------------- another way: the second removal of a member

  /** The leader marks 2 instead, too late for view 2. */
  lemma Instead2() returns (S: System, rows: seq<GmsRow>)
    ensures Begins(FOUR, S, VIEW2, rows, [3, 1, 2], 2) && S.lead.m.joining.None? && S.lead.m.last == [false, false, true, false]
  {
    hide Reach, Mate, Quiet, NextView, Changed;
    var T, rows1 := Starts1();
    OpensFacts(T, VIEW1, rows1);
    Next1();
    assert [3, 1] + [2] == [3, 1, 2] && VIEW1.members == [0, 1, 2, 3] && VIEW2.members == [0, 2, 3];
    var all;
    S, all := LateMove(FOUR, T, VIEW1, rows1, 2, VIEW2);
    assert VIEW1.members[2] == 2 && VIEW1.members[3] == 3;
    rows := [all[0], all[2], all[3]];
    AllEntered(S, VIEW2, rows);
  }

  /** View 3 of this run. */
  const PAIR := View(3, [0, 3], [false, false], -2, 0)

  lemma NextPair()
    ensures NextView(VIEW2, 2) == PAIR && Changed(VIEW2.members, 2) == PAIR.members
    ensures NextView(PAIR, 2).members == [0, 3, 2] && NextView(PAIR, 2).vid == 4
  {
    RankIs([0, 2, 3], 1);
    assert [0, 2, 3][..1] + [0, 2, 3][2..] == [0, 3] && [false, false, false][..1] + [false, false, false][2..] == [false, false];
    RankIs([0, 3], 0);
    assert 2 !in [0, 3] && [0, 3] + [2] == [0, 3, 2];
  }

  /** While view 2 removes 2, the leader marks 2, and proposes its removal again. */
  lemma Twice() returns (S: System, rows: seq<GmsRow>)
    ensures Begins(FOUR, S, PAIR, rows, [3, 1, 2, 2], 3) && S.lead.m.joining.None?
  {
    hide Reach, Mate, Quiet, NextView, Changed;
    var T, rows2 := Instead2();
    OpensFacts(T, VIEW2, rows2);
    NextPair();
    assert [3, 1, 2] + [2] == [3, 1, 2, 2] && VIEW2.members == [0, 2, 3];
    var all;
    S, all := LateMove(FOUR, T, VIEW2, rows2, 1, PAIR);
    rows := [all[0], all[2]];
    AllEntered(S, PAIR, rows);
  }

  /**
   The second removal of a member that has left.  View 3 is without 2 and marks nobody, and
   its leader counts two failed members fewer than none.  It takes the second removal for a
   node to be added, whom nobody has brought, and so never leaves view 3.
   */
  lemma RemovedTwice()
    ensures exists S :: && Reach(FOUR, S) && S.lead.m.view == PAIR && Count(PAIR.failed) == 0 && PAIR.nFailed == -2
                        && S.log == [3, 1, 2, 2] && S.lead.m.joining.None? && S.lead.m.next.Some?
                        && S.lead.m.next.value.members == [0, 3, 2] && Stranded(S)
  {
    hide Reach, Mate, Quiet, Band, AfterRound, NextView, Synced;
    var T, rows := Twice();
    OpensFacts(T, PAIR, rows);
    NextPair();
    CountNoneMarked(PAIR.failed);
    var S := AllTurn(FOUR, T, PAIR, rows, 0);
    assert S.log[3] == 2;
  }
}
