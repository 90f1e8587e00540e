/** A whole change of view in three parts: the round that leads to it, the marks made too late for it, and the move. */
module Turns {
  import opened Collections
  import opened Messages
  import opened MembershipSpec
  import opened Membership
  import opened ChangeLog
  import opened LeaderSteps
  import opened ViewInstall
  import opened MembershipInv
  import opened MembershipRuns
  import opened Camps
  import opened LeaderCamps

  /** A member's row that echoes the whole log says what the log says. */
  lemma RingSays(G: Group, S: System, vid: nat, ms: seq<nat>, row: GmsRow, plan: seq<nat>, k: nat, j: nat)
    requires Reach(G, S) && k < |ms| && Mate(S, ms[k], vid, ms, row, plan) && row.nChanges == |S.log|
    requires j < |S.log| <= j + G.max
    ensures RingShape(G.max, row) && row.changes[j % G.max] == S.log[j]
  {
    hide Reach, Distinct, Mate;
    MateFacts(G, S, ms[k], vid, ms, row, plan, k);
  }

  lemma LeadsStay(S: System, S': System, m: Member)
    requires Leads(S, m) && S'.lead == S.lead && S'.running == S.running && S.published <= S'.published
    ensures Leads(S', m)
  {
  }

  lemma LeadReads(G: Group, S: System, j: nat)
    requires Reach(G, S) && j < |S.log| <= j + G.max
    ensures MemberShape(G.max, S.lead.m) && OwnRow(S.lead.m).changes[j % G.max] == S.log[j]
    ensures S.lead.m.view.members[0] !in S.log
  {
    hide Reach, WellShaped, Distinct;
    LeadKnows(G, S);
  }

  // ---------------------------------------------------------------- how a view begins

  /** The leader has just entered view w, with this row, which it has put. */
  ghost predicate Enters(S: System, w: View, row: GmsRow) {
    && S.running && S.lead.m.view == w && S.lead.m.next.None? && |S.lead.m.sst| == |w.members| == |w.failed| > 0
    && w.myRank == 0 && OwnRow(S.lead.m) == row && Put(w.members[0], w.vid, row) in S.published
  }

  /** All the others have entered it too. */
  lemma AllEntered(S: System, w: View, rows: seq<GmsRow>)
    requires rows != [] && Enters(S, w, rows[0]) && |rows| == |w.members| && forall r :: 0 <= r < |w.failed| ==> !w.failed[r]
    requires forall r :: 0 < r < |rows| ==> Mate(S, w.members[r], w.vid, w.members, rows[r], [])
    ensures Opens(S, w, rows)
  {
    hide Mate;
    forall r | 0 < r < |rows| ensures Put(w.members[r], w.vid, rows[r]) in S.published {
      MatePut(S, w.members[r], w.vid, w.members, rows[r], []);
    }
  }

  /** All but the last have entered it, who joins and starts. */
  lemma JoinerEnters(G: Group, S: System, w: View, rows: seq<GmsRow>, id: nat) returns (S': System)
    requires Reach(G, S) && rows != [] && Enters(S, w, rows[0]) && |rows| + 1 == |w.members| && w.members[|rows|] == id
    requires S.waiting == map[id := w] && forall r :: 0 <= r < |w.failed| ==> !w.failed[r]
    requires forall r :: 0 < r < |rows| ==> Mate(S, w.members[r], w.vid, w.members, rows[r], [])
    ensures Reach(G, S') && Opens(S', w, rows + [InitFromExisting(G.max, rows[0])])
    ensures S'.lead == S.lead && S'.log == S.log && S'.waiting == map[] && S'.followers.Keys == S.followers.Keys + {id}
  {
    hide Reach, Mate, InitFromExisting, LeadBase, WellShaped, Distinct, Window;
    LeadKnows(G, S);
    S' := JoinerBegins(G, S, id, rows[0]);
    var all := rows + [InitFromExisting(G.max, rows[0])];
    forall r | 0 < r < |all| ensures Mate(S', w.members[r], w.vid, w.members, all[r], []) {
      if r < |rows| {
        MatePut(S, w.members[r], w.vid, w.members, rows[r], []);
        MateStays(S, S', w.members[r], w.vid, w.members, rows[r], []);
      }
    }
    AllEntered(S', w, all);
    assert map[id := w] - {id} == map[];
  }

  // ---------------------------------------------------------------- joins and rounds

  /** As a view begins, a node connects. */
  lemma TakesIn(G: Group, S: System, v: View, rows: seq<GmsRow>, id: nat) returns (S': System, rows': seq<GmsRow>)
    requires Reach(G, S) && Opens(S, v, rows) && S.lead.m.joining.None? && rows[0].nCommitted <= v.vid <= |S.log|
    requires id !in v.members && id !in S.followers && id !in S.waiting
    requires id !in S.log[v.vid..] && rows[0].nChanges - rows[0].nCommitted != G.max / 2
    ensures Reach(G, S') && Opens(S', v, rows') && S'.log == S.log + [id] && S'.waiting == S.waiting
    ensures S'.followers.Keys == S.followers.Keys && S'.lead.m.joining == Some(id) && S'.lead.m.last == S.lead.m.last
    ensures |rows'| == |rows| && rows'[1..] == rows[1..] && rows'[0].nChanges == |S'.log|
    ensures rows'[0].nCommitted == rows[0].nCommitted && rows'[0].nAcked == rows[0].nAcked && rows'[0].suspected == rows[0].suspected
  {
    hide Reach, WellShaped, Mate, Synced, Distinct, LeadBase, Window;
    LeadKnows(G, S);
    var m := S.lead.m;
    var T := LeaderHears(G, S, rows);
    S' := LeaderTakesIn(G, T, m.(sst := rows), id);
    rows' := rows[0 := Propose(G.max, rows[0], id).(wedged := true)];
    BandKept(S, S', v.vid, v.members, rows, NoPlans(|v.members|), rows'[0]);
    LeadKnows(G, S');
  }

  /** A round, after which everyone begins the change the log holds for this view. */
  lemma AllTurn(G: Group, S: System, v: View, rows: seq<GmsRow>, late: nat) returns (S': System)
    requires Reach(G, S) && Opens(S, v, rows) && v.vid < |S.log| <= v.vid + G.max
    requires late < |rows| && (late == 0 || !rows[late].wedged)
    requires rows[0].nCommitted <= v.vid && forall r :: 0 <= r < |rows| ==> rows[r].nAcked < |S.log|
    ensures var x := S.log[v.vid];
            && Reach(G, S') && Leads(S', S.lead.m.(sst := Told(AfterRound(rows), late), next := Some(NextView(v, x))))
            && Band(S', v.vid, v.members, AfterRound(rows), Plans(v.members, x, |v.members|))
    ensures S'.log == S.log && S'.waiting == S.waiting && S'.followers.Keys == S.followers.Keys
  {
    hide Reach, Distinct, Mate, Window, WellShaped, LeadBase, Synced, NextView, AfterRound, Plans;
    LeadKnows(G, S);
    var x := S.log[v.vid];
    var T := Round(G, S, v, rows, late);
    var R := AfterRound(rows);
    var m := S.lead.m.(sst := Told(R, late));
    AfterRoundRows(rows);
    forall r | 0 < r < |v.members| ensures RingShape(G.max, R[r]) && R[r].changes[v.vid % G.max] == x {
      RingSays(G, T, v.vid, v.members, R[r], [], r, v.vid);
    }
    var U := AllBegin(G, T, v.vid, v.members, R, x, |v.members|);
    WedgedAlready(R, v.members, x, |v.members|);
    LeadKnows(G, T);
    LeadsStay(T, U, m);
    LeadReads(G, U, v.vid);
    S' := LeaderBegins(G, U, m, x);
    assert m.sst[0 := R[0].(wedged := true)] == m.sst && R[0 := R[0]] == R;
    BandKept(U, S', v.vid, v.members, R, Plans(v.members, x, |v.members|), R[0]);
  }

  // ---------------------------------------------------------------- marks

  lemma OneSuspected(max: nat, table: seq<GmsRow>, q: nat)
    requires 0 < |table| <= max && q < |table|
    requires forall r :: 0 <= r < |table| ==> |table[r].suspected| == max && Quiet(table[r])
    ensures Suspects(max, table[0 := table[0].(suspected := table[0].suspected[q := true])], {q})
  {
    var t := table[0 := table[0].(suspected := table[0].suspected[q := true])];
    assert t[0].suspected[q];
  }

  lemma TableSized(G: Group, S: System)
    requires Reach(G, S)
    ensures forall r :: 0 <= r < |S.lead.m.sst| ==> |S.lead.m.sst[r].suspected| == G.max
    ensures |S.lead.m.view.members| == |S.lead.m.sst| <= G.max == |S.lead.m.last|
  {
    hide Reach, WellShaped, LeadBase;
    LeadKnows(G, S);
  }

  /** The leader's row after it has joined the suspicions Q and proposed to remove id. */
  function Removing(max: nat, row: GmsRow, Q: set<nat>, id: nat): GmsRow
    requires max > 0 && |row.changes| == max && row.nChanges >= 0
  {
    var r := Joining(max, row, Q).(wedged := true);
    r.(changes := r.changes[r.nChanges % max := id], nChanges := r.nChanges + 1)
  }

  /** The trigger marks the one unmarked rank q among those suspected, which is new to it. */
  lemma LeaderMarks(G: Group, S: System, m: Member, Q: set<nat>, q: nat) returns (S': System)
    requires Reach(G, S) && Leads(S, m) && Waits(m) && Suspects(G.max, m.sst, Q) && q in Q && |m.last| == G.max
    requires 0 < q < |m.view.members| <= G.max && !m.view.failed[q] && !m.last[q]
    requires forall r: nat :: r in Q && r != q && r < |m.view.failed| ==> m.view.failed[r]
    requires m.view.nFailed + 1 < HalfOf(|m.view.members|) && |S.log| - m.sst[0].nCommitted < G.max
    requires forall k :: 0 <= m.sst[0].nCommitted <= k < |S.log| ==> S.log[k] != m.view.members[q]
    ensures Reach(G, S') && |m.sst[0].changes| == G.max > 0 && m.sst[0].nChanges >= 0
    ensures Leads(S', m.(view := WithMark(m.view, q), sst := m.sst[0 := Removing(G.max, m.sst[0], Q, m.view.members[q])],
                         last := Recalled(G.max, m, Q)))
    ensures S'.log == S.log + [m.view.members[q]] && Aside(S, S')
  {
    hide Reach, LeadBase, Synced, MarkFrom, Merged, Suspects, Marked, MarkFailed, Waits;
    MergedBaseIs(G, S, Q);
    var j := Merged(G.max, m);
    MarksOne(G.max, S.log, j, q, 0);
    MarkIs(G.max, S.log, j, q);
    MarkedShape(G.max, j, q);
    S' := LeaderSuspects(G, S, m, Q, q, Marked(G.max, j, q), S.log + [m.view.members[q]]);
  }

  /** The trigger marks two ranks at once, the second new to it. */
  lemma LeaderMarksTwo(G: Group, S: System, m: Member, q: nat, q': nat) returns (S': System, row: GmsRow)
    requires Reach(G, S) && Leads(S, m) && Waits(m) && Suspects(G.max, m.sst, {q, q'}) && |m.last| == G.max
    requires 0 < q < q' < |m.view.members| <= G.max && !m.view.failed[q] && !m.view.failed[q'] && !m.last[q']
    requires m.view.members[q] != m.view.members[q']
    requires m.view.nFailed + 2 < HalfOf(|m.view.members|) && |S.log| == m.sst[0].nCommitted && 1 < G.max
    ensures Reach(G, S') && S'.log == S.log + [m.view.members[q], m.view.members[q']] && Aside(S, S')
    ensures Leads(S', m.(view := WithMark(WithMark(m.view, q), q'), sst := m.sst[0 := row], last := Recalled(G.max, m, {q, q'})))
    ensures row.wedged && row.nCommitted == m.sst[0].nCommitted && row.nAcked == m.sst[0].nAcked && row.nChanges == |S'.log|
  {
    hide Reach, LeadBase, Synced, MarkFrom, Merged, Suspects, Marked, MarkFailed, WellShaped, Window, Distinct, Waits;
    MergedBaseIs(G, S, {q, q'});
    var j := Merged(G.max, m);
    MarkIs(G.max, S.log, j, q);
    MarkedShape(G.max, j, q);
    var j1, log1 := Marked(G.max, j, q), S.log + [m.view.members[q]];
    MarkIs(G.max, log1, j1, q');
    MarkedShape(G.max, j1, q');
    MarksTwo(G.max, S.log, j, q, q');
    var j2 := Marked(G.max, j1, q');
    row := OwnRow(j2);
    assert log1 + [m.view.members[q']] == S.log + [m.view.members[q], m.view.members[q']];
    assert j2.sst == m.sst[0 := row];
    S' := LeaderSuspects(G, S, m, {q, q'}, q', j2, log1 + [m.view.members[q']]);
    LeadKnows(G, S');
  }

  /** The leader's own transport reports rank q, nobody else suspecting anyone, and the leader marks it. */
  lemma LeaderReportsAndMarks(G: Group, S: System, m: Member, q: nat) returns (S': System, row: GmsRow)
    requires Reach(G, S) && Leads(S, m) && Waits(m) && (forall r :: 0 <= r < |m.sst| ==> Quiet(m.sst[r])) && |m.last| == G.max
    requires 0 < q < |m.view.members| <= G.max && 3 <= |m.view.members| && !m.view.failed[q] && !m.last[q]
    requires m.view.nFailed + 1 < HalfOf(|m.view.members|) && |S.log| - m.sst[0].nCommitted < G.max
    requires forall k :: 0 <= m.sst[0].nCommitted <= k < |S.log| ==> S.log[k] != m.view.members[q]
    ensures Reach(G, S') && S'.log == S.log + [m.view.members[q]] && Aside(S, S')
    ensures Leads(S', m.(view := WithMark(m.view, q), sst := m.sst[0 := row], last := Recalled(G.max, m, {q})))
    ensures row.wedged && row.nCommitted == m.sst[0].nCommitted && row.nAcked == m.sst[0].nAcked && row.nChanges == |S'.log|
    ensures |row.suspected| == G.max && forall r: nat :: r < G.max ==> (row.suspected[r] <==> r == q)
  {
    hide Reach, Synced, Quiet, Suspects, WellShaped, LeadBase, Distinct, Window, RingShape, Recalled, Count;
    TableSized(G, S);
    OneCounts(m.sst[0], q);
    var T := LeaderReports(G, S, m, q);
    OneSuspected(G.max, m.sst, q);
    var m1 := SetOwn(m, m.sst[0].(suspected := m.sst[0].suspected[q := true]));
    StillWaits(m, m1);
    S' := LeaderMarks(G, T, m1, {q}, q);
    row := Removing(G.max, m1.sst[0], {q}, m.view.members[q]);
    assert m1.sst[0 := row] == m.sst[0 := row];
    RecalledSame(G.max, m, m1, {q});
    LeadKnows(G, S');
  }

  lemma StillWaits(m: Member, m1: Member)
    requires |m.sst| == |m.view.failed| > 0 && Waits(m) && m.view == m1.view && m.next == m1.next && |m1.sst| == |m.sst|
    requires m1.sst[0].nCommitted == m.sst[0].nCommitted && forall r :: 0 <= r < |m.sst| ==> m1.sst[r].wedged == m.sst[r].wedged
    ensures Waits(m1)
  {
    if m.next.Some? {
      var r :| 0 <= r < |m.sst| && !m.view.failed[r] && !m.sst[r].wedged;
      assert !m1.sst[r].wedged;
    }
  }

  lemma RecalledSame(max: nat, m: Member, m1: Member, Q: set<nat>)
    requires |m.last| == max && m1.last == m.last && |m.sst| == |m1.sst|
    ensures Recalled(max, m, Q) == Recalled(max, m1, Q)
  {
  }

  lemma QuietRows(rows: seq<GmsRow>, rows': seq<GmsRow>)
    requires |rows'| == |rows| && forall r :: 0 <= r < |rows| ==> Quiet(rows[r]) && rows'[r].suspected == rows[r].suspected
    ensures forall r :: 0 <= r < |rows| ==> Quiet(rows'[r])
  {
  }

  /** Everyone begins the change the log holds for this view, and only then, and before it has heard that rank q is wedged, the leader marks q. */
  lemma LateTurn(G: Group, S: System, v: View, rows: seq<GmsRow>, q: nat) returns (S': System, row: GmsRow)
    requires Reach(G, S) && Opens(S, v, rows) && v.vid < |S.log| <= v.vid + G.max
    requires rows[0].nCommitted <= v.vid && forall r :: 0 <= r < |rows| ==> rows[r].nAcked < |S.log|
    requires (forall r :: 0 <= r < |rows| ==> Quiet(rows[r])) && 0 < q < |v.members| <= G.max && 3 <= |v.members| && !rows[q].wedged
    requires v.nFailed + 1 < HalfOf(|v.members|) && |S.lead.m.last| == G.max && !S.lead.m.last[q]
    ensures var x := S.log[v.vid];
            && Reach(G, S')
            && Leads(S', S.lead.m.(view := WithMark(v, q), sst := Told(AfterRound(rows), q)[0 := row], next := Some(NextView(v, x)),
                                   last := Recalled(G.max, S.lead.m, {q})))
            && Band(S', v.vid, v.members, AfterRound(rows), Plans(v.members, x, |v.members|))
    ensures row.wedged && row.nCommitted == row.nAcked == |S.log| && row.nChanges == |S.log| + 1
    ensures S'.log == S.log + [v.members[q]] && S'.waiting == S.waiting && S'.followers.Keys == S.followers.Keys
  {
    hide Reach, Distinct, Mate, Window, WellShaped, LeadBase, Synced, NextView, AfterRound, Plans, Quiet, Recalled;
    LeadKnows(G, S);
    AfterRoundRows(rows);
    QuietRows(rows, AfterRound(rows));
    var x, R := S.log[v.vid], AfterRound(rows);
    var T := AllTurn(G, S, v, rows, q);
    var m := S.lead.m.(sst := Told(R, q), next := Some(NextView(v, x)));
    assert !m.sst[q].wedged;
    UnwedgedQuiet(R[q]);
    S', row := LeaderReportsAndMarks(G, T, m, q);
    RecalledSame(G.max, S.lead.m, m, {q});
    BandKept(T, S', v.vid, v.members, R, Plans(v.members, x, |v.members|), R[0]);
    assert R[0 := R[0]] == R;
  }

  lemma UnwedgedQuiet(row: GmsRow)
    requires Quiet(row)
    ensures Quiet(row.(wedged := false))
  {
  }

  // ---------------------------------------------------------------- moving on

  lemma PlansMoved(G: Group, S: System, S': System, vid: nat, ms: seq<nat>, rows: seq<GmsRow>, x: nat)
    requires Band(S, vid, ms, rows, Plans(ms, x, |ms|)) && S'.followers == S.followers && S.published <= S'.published
    ensures Moved(G, S', vid, ms, rows, x, 0)
  {
    hide Changed, InitFromExisting;
  }

  lemma MovedSameRows(G: Group, S: System, vid: nat, ms: seq<nat>, rows: seq<GmsRow>, row: GmsRow, x: nat, k: nat)
    requires Moved(G, S, vid, ms, rows, x, k) && rows != []
    ensures Moved(G, S, vid, ms, rows[0 := row], x, k)
  {
    hide Changed, InitFromExisting, Mate;
  }

  /** The leader installs the view fixed before, and everyone that stays follows. */
  lemma AllMove(G: Group, S: System, m: Member, w: View, rows: seq<GmsRow>, x: nat) returns (S': System)
    requires Reach(G, S) && Leads(S, m) && m.next == Some(w) && Served(m) && m.view.vid >= 0
    requires Band(S, m.view.vid, m.view.members, rows, Plans(m.view.members, x, |m.view.members|))
    requires Changed(m.view.members, x) == w.members && 0 < |w.members| <= G.max
    requires m.sst[0].wedged && forall r :: 0 < r < |m.sst| ==> rows[r].wedged && (m.view.failed[r] || m.sst[r].wedged)
    ensures Reach(G, S') && Enters(S', w, InitFromExisting(G.max, m.sst[0])) && S'.lead.m.last == m.last
    ensures S'.lead.m.joining == if |w.members| > |m.view.members| then None else m.joining
    ensures S'.log == S.log && S'.waiting == Welcomed(S, w) && S'.followers.Keys == S.followers.Keys && S.published <= S'.published
    ensures forall r :: 0 < r < |m.view.members| && m.view.members[r] != x ==>
              Mate(S', m.view.members[r], m.view.vid + 1, w.members, InitFromExisting(G.max, rows[r]), [])
  {
    hide Reach, WellShaped, LeadBase, Window, Distinct, Mate, Changed, InitFromExisting, Synced, Plans, RingShape, Welcomed, Served;
    LeadKnows(G, S);
    var v := m.view;
    var T := LeaderInstalls(G, S, m, w);
    PlansMoved(G, S, T, v.vid, v.members, rows, x);
    var farewell := rows[0 := m.sst[0].(globalMinReady := true)];
    MovedSameRows(G, T, v.vid, v.members, rows, farewell[0], x, 0);
    S' := AllInstall(G, T, v.vid, v.members, farewell, x, |v.members|);
  }

  lemma FreshRow(max: nat, r: GmsRow)
    ensures var f := InitFromExisting(max, r);
            && Quiet(f) && f.nAcked == r.nAcked && f.nCommitted == r.nCommitted && f.nChanges == r.nChanges && f.changes == r.changes
            && !f.wedged
  {
  }

  /** The views waiting once w is installed. */
  function WaitingAfter(S: System, w: View): map<nat, View>
    requires w.members != []
  {
    var id := w.members[|w.members| - 1];
    if |w.members| > |S.lead.m.view.members| && id !in S.followers && id !in S.waiting then S.waiting[id := w] else S.waiting
  }

  /** A whole change of view with rank q marked too late: the leader and all that stay are in view w, with these rows. */
  lemma LateMove(G: Group, S: System, v: View, rows: seq<GmsRow>, q: nat, w: View) returns (S': System, after: seq<GmsRow>)
    requires Reach(G, S) && Opens(S, v, rows) && v.vid < |S.log| <= v.vid + G.max
    requires rows[0].nCommitted <= v.vid && forall r :: 0 <= r < |rows| ==> rows[r].nAcked < |S.log|
    requires (forall r :: 0 <= r < |rows| ==> Quiet(rows[r])) && 0 < q < |v.members| <= G.max && 3 <= |v.members| && !rows[q].wedged
    requires v.nFailed + 1 < HalfOf(|v.members|) && |S.lead.m.last| == G.max && !S.lead.m.last[q]
    requires w == NextView(v, S.log[v.vid]) && w.members == Changed(v.members, S.log[v.vid]) && 0 < |w.members| <= G.max
    requires |w.members| > |v.members| ==> S.lead.m.joining == Some(w.members[|w.members| - 1])
    ensures |after| == |rows| && Reach(G, S') && Enters(S', w, after[0])
    ensures S'.log == S.log + [v.members[q]] && S'.waiting == WaitingAfter(S, w) && S'.followers.Keys == S.followers.Keys
    ensures S'.lead.m.joining == if |w.members| > |v.members| then None else S.lead.m.joining
    ensures S'.lead.m.last == Recalled(G.max, S.lead.m, {q})
    ensures forall r :: 0 < r < |rows| && v.members[r] != S.log[v.vid] ==> Mate(S', v.members[r], w.vid, w.members, after[r], [])
    ensures after[0].nCommitted == |S.log| && after[0].nChanges == |S.log| + 1
    ensures forall r :: 0 <= r < |after| ==> Quiet(after[r]) && after[r].nAcked == |S.log| && !after[r].wedged
  {
    hide Reach, Mate, Synced, Quiet, AfterRound, Plans, NextView, Changed, InitFromExisting, WellShaped, Distinct, Recalled;
    LeadKnows(G, S);
    var x := S.log[v.vid];
    var T, row := LateTurn(G, S, v, rows, q);
    NextVid(v, x);
    AfterRoundRows(rows);
    var R := AfterRound(rows);
    var m := S.lead.m.(view := WithMark(v, q), sst := Told(R, q)[0 := row], next := Some(w), last := Recalled(G.max, S.lead.m, {q}));
    S' := AllMove(G, T, m, w, R, x);
    after := seq(|R|, r requires 0 <= r < |R| => InitFromExisting(G.max, R[0 := row][r]));
    forall r | 0 <= r < |R| ensures Quiet(after[r]) && after[r].nAcked == |S.log| && !after[r].wedged {
      FreshRow(G.max, R[0 := row][r]);
    }
    FreshRow(G.max, row);
  }
}
