/**
 The run of Divergence in every table of five or more: late marks alone fill the ring.
 With half = (max - 1) / 2 marks in view 1, one or two in view 2, and one more than half in
 view 3, the log is one longer than the ring has room for, and the change that view 3 has
 begun is written over.
 */
module Crowding {
  import opened Collections
  import opened Messages
  import opened MembershipSpec
  import opened Membership
  import opened ChangeLog
  import opened LeaderSteps
  import opened ViewInstall
  import opened MembershipInv
  import opened MembershipAccounts
  import opened MembershipRuns
  import opened MembershipLists
  import opened RingFits
  import opened Camps
  import opened LeaderCamps
  import opened Turns
  import opened FirstViews
  import Divergence

  // ---------------------------------------------------------------- many marks in a row

  /** Ranks of members other than the leader, none twice. */
  predicate Others(n: nat, ranks: seq<nat>) {
    && (forall i :: 0 <= i < |ranks| ==> 0 < ranks[i] < n)
    && forall i, j :: 0 <= i < j < |ranks| ==> ranks[i] != ranks[j]
  }

  function IdsAt(ms: seq<nat>, ranks: seq<nat>): (ids: seq<nat>)
    requires Others(|ms|, ranks)
    ensures |ids| == |ranks| && forall i :: 0 <= i < |ids| ==> ids[i] == ms[ranks[i]]
  {
    seq(|ranks|, i requires 0 <= i < |ranks| => ms[ranks[i]])
  }

  /** m is m0 after its own transport has reported these ranks and it has marked them, one after another. */
  ghost predicate Crossed(max: nat, m0: Member, m: Member, ranks: seq<nat>) {
    && Others(|m0.view.members|, ranks) && |m0.view.members| == |m0.view.failed| == |m0.sst| == |m.sst| > 0
    && m.view == m0.view.(failed := m.view.failed, nFailed := m0.view.nFailed + |ranks|)
    && |m.view.failed| == |m0.view.failed| && (forall r: nat :: r < |m.view.failed| ==> (m.view.failed[r] <==> r in ranks))
    && m.sst == m0.sst[0 := m.sst[0]] && m.next == m0.next && m.joining == m0.joining
    && m.sst[0].nCommitted == m0.sst[0].nCommitted && m.sst[0].nAcked == m0.sst[0].nAcked && m.sst[0].wedged
    && |m.sst[0].suspected| == |m.last| == |m0.last| == max && Count(m.sst[0].suspected) == |ranks|
    && (forall r: nat :: r < max ==> (m.sst[0].suspected[r] <==> r in ranks))
    && forall r: nat :: r < max ==> (m.last[r] <==> if ranks == [] || r >= |m.sst| then m0.last[r] else r in ranks)
  }

  lemma CrossedNone(max: nat, m: Member)
    requires |m.view.members| == |m.view.failed| == |m.sst| > 0 && Quiet(m.sst[0]) && |m.sst[0].suspected| == |m.last| == max
    requires m.sst[0].wedged && forall r :: 0 <= r < |m.view.failed| ==> !m.view.failed[r]
    ensures Crossed(max, m, m, [])
  {
    CountNoneMarked(m.sst[0].suspected);
  }

  /** The other rows of a table suspect nobody. */
  ghost predicate OthersQuiet(max: nat, table: seq<GmsRow>) {
    forall r :: 0 < r < |table| ==> Quiet(table[r]) && |table[r].suspected| == max
  }

  function Among(ranks: seq<nat>): set<nat> {
    set r | r in ranks
  }

  lemma CrossedSuspects(max: nat, m0: Member, m: Member, ranks: seq<nat>, q: nat)
    requires Crossed(max, m0, m, ranks) && OthersQuiet(max, m0.sst) && 0 < q < |m.sst| <= max && q !in ranks
    ensures Suspects(max, m.sst[0 := m.sst[0].(suspected := m.sst[0].suspected[q := true])], Among(ranks + [q]))
  {
    hide Count;
    var t := m.sst[0 := m.sst[0].(suspected := m.sst[0].suspected[q := true])];
    forall p: nat | p in Among(ranks + [q]) ensures p < max && exists r :: 0 <= r < |t| && t[r].suspected[p] {
      assert t[0].suspected[p];
    }
  }

  lemma CrossedOne(max: nat, m0: Member, m: Member, ranks: seq<nat>, q: nat, m1: Member, m': Member, Q: set<nat>)
    requires Crossed(max, m0, m, ranks) && 0 < q < |m.sst| <= max && q !in ranks && Q == Among(ranks + [q])
    requires m.view.myRank == 0 && m1 == SetOwn(m, m.sst[0].(suspected := m.sst[0].suspected[q := true]))
    requires |m.sst[0].changes| == max > 0 && m.sst[0].nChanges >= 0
    requires m' == m1.(view := WithMark(m1.view, q), sst := m1.sst[0 := Removing(max, m1.sst[0], Q, m1.view.members[q])],
                       last := Recalled(max, m1, Q))
    ensures Crossed(max, m0, m', ranks + [q])
  {
    hide Count;
    CountSet(m.sst[0].suspected, q);
    assert m'.sst[0].suspected == m.sst[0].suspected[q := true];
  }

  /** The leader's transport reports one more rank, which it marks. */
  lemma MarksOneMore(G: Group, S: System, m0: Member, m: Member, ranks: seq<nat>, q: nat) returns (S': System, m': Member)
    requires Reach(G, S) && Leads(S, m) && Waits(m) && Crossed(G.max, m0, m, ranks) && OthersQuiet(G.max, m0.sst)
    requires 0 < q < |m0.view.members| <= G.max && q !in ranks && (ranks == [] ==> !m0.last[q])
    requires m0.view.nFailed + |ranks| + 1 < HalfOf(|m0.view.members|) && |ranks| + 1 < HalfOf(|m0.view.members|)
    requires |S.log| - m.sst[0].nCommitted < G.max
    requires forall k :: 0 <= m.sst[0].nCommitted <= k < |S.log| ==> S.log[k] != m.view.members[q]
    ensures Reach(G, S') && Leads(S', m') && Crossed(G.max, m0, m', ranks + [q])
    ensures S'.log == S.log + [m.view.members[q]] && Aside(S, S')
  {
    hide Reach, Synced, Suspects, Count, Recalled, Removing, OthersQuiet;
    CountSet(m.sst[0].suspected, q);
    var T := LeaderReports(G, S, m, q);
    var m1 := SetOwn(m, m.sst[0].(suspected := m.sst[0].suspected[q := true]));
    var Q := Among(ranks + [q]);
    CrossedSuspects(G.max, m0, m, ranks, q);
    StillWaits(m, m1);
    S' := LeaderMarks(G, T, m1, Q, q);
    m' := m1.(view := WithMark(m1.view, q), sst := m1.sst[0 := Removing(G.max, m1.sst[0], Q, m1.view.members[q])],
              last := Recalled(G.max, m1, Q));
    CrossedOne(G.max, m0, m, ranks, q, m1, m', Q);
  }

  /** It waits as long as the last of the ranks is not marked and has not been heard to wedge. */
  lemma CrossedWaits(max: nat, m0: Member, m: Member, ranks: seq<nat>, late: nat)
    requires Crossed(max, m0, m, ranks) && late !in ranks && late < |m0.sst| && m0.next.Some? && !m0.sst[late].wedged && late > 0
    ensures Waits(m)
  {
    hide Count;
    assert !m.sst[late].wedged;
  }

  /** The first k of these ranks are reported and marked, one after another, while rank `late` has not been heard to wedge. */
  lemma {:induction false} MarksAll(G: Group, S: System, m0: Member, ranks: seq<nat>, late: nat, k: nat)
      returns (S': System, m: Member)
    requires Reach(G, S) && Leads(S, m0) && Crossed(G.max, m0, m0, []) && OthersQuiet(G.max, m0.sst) && Distinct(m0.view.members)
    requires Others(|m0.view.members|, ranks) && k <= |ranks| && ranks != [] && |m0.view.members| <= G.max
    requires m0.next.Some? && 0 < late < |m0.sst| && !m0.sst[late].wedged && late !in ranks[..|ranks| - 1] && !m0.last[ranks[0]]
    requires m0.view.nFailed + |ranks| < HalfOf(|m0.view.members|) && |ranks| < HalfOf(|m0.view.members|)
    requires 0 <= m0.sst[0].nCommitted && |S.log| - m0.sst[0].nCommitted + |ranks| <= G.max
    requires forall i, j :: 0 <= i < |ranks| && m0.sst[0].nCommitted <= j < |S.log| ==> S.log[j] != m0.view.members[ranks[i]]
    ensures Reach(G, S') && Leads(S', m) && Crossed(G.max, m0, m, ranks[..k]) && Aside(S, S')
    ensures S'.log == S.log + IdsAt(m0.view.members, ranks)[..k]
    decreases k
  {
    hide Reach, Leads, Crossed, OthersQuiet, Waits;
    if k == 0 {
      S', m := S, m0;
      assert ranks[..0] == [] && IdsAt(m0.view.members, ranks)[..0] == [];
      assert S.log + [] == S.log;
    } else {
      var T, n;
      T, n := MarksAll(G, S, m0, ranks, late, k - 1);
      CrossedKeeps(G.max, m0, n, ranks[..k - 1]);
      assert ranks[..k - 1] <= ranks[..|ranks| - 1] && ranks[k - 1] !in ranks[..k - 1];
      CrossedWaits(G.max, m0, n, ranks[..k - 1], late);
      assert ranks[..k - 1] + [ranks[k - 1]] == ranks[..k];
      assert IdsAt(m0.view.members, ranks)[..k - 1] + [m0.view.members[ranks[k - 1]]] == IdsAt(m0.view.members, ranks)[..k];
      S', m := MarksOneMore(G, T, m0, n, ranks[..k - 1], ranks[k - 1]);
    }
  }

  lemma CrossedKeeps(max: nat, m0: Member, m: Member, ranks: seq<nat>)
    requires Crossed(max, m0, m, ranks)
    ensures |m.sst| > 0 && m.sst[0].nCommitted == m0.sst[0].nCommitted && m.view.members == m0.view.members
    ensures |m.sst| == |m.view.failed| == |m0.sst| == |m0.view.members|
  {
    hide Count;
  }

  // ---------------------------------------------------------------- lists and ranks

  lemma LeadsFacts(S: System, m: Member)
    requires Leads(S, m)
    ensures |m.sst| == |m.view.members| == |m.view.failed| > 0 && m.view.myRank == 0
  {
  }

  lemma BandPut(S: System, vid: nat, ms: seq<nat>, rows: seq<GmsRow>, plans: seq<seq<nat>>)
    requires Band(S, vid, ms, rows, plans)
    ensures |rows| == |ms| > 0 && Put(ms[0], vid, rows[0]) in S.published
  {
    hide Mate;
  }

  /** How many members a view of max can have marked. */
  function Half(max: nat): nat
    requires max >= 5
  {
    HalfOf(max) - 1
  }

  function Span(lo: nat, n: nat): (s: seq<nat>)
    ensures |s| == n && forall i: nat :: i < n ==> s[i] == lo + i
    ensures forall r: nat :: r in s <==> lo <= r < lo + n
  {
    if n == 0 then [] else Span(lo, n - 1) + [lo + n - 1]
  }

  lemma SpanOthers(n: nat, lo: nat, k: nat)
    requires 0 < lo && lo + k <= n
    ensures Others(n, Span(lo, k))
  {
  }

  /** 0, 2, 3, ...: everyone but 1. */
  function Gap(n: nat): (s: seq<nat>)
    requires n > 0
    ensures |s| == n && s[0] == 0 && forall r: nat :: 0 < r < n ==> s[r] == r + 1
  {
    seq(n, (r: nat) => if r == 0 then 0 else r + 1)
  }

  lemma GapIs(max: nat)
    requires max > 1
    ensures Without(Upto(max), 1) == Gap(max - 1) && Gap(max - 1) + [max] == Gap(max)
    ensures Distinct(Gap(max)) && Distinct(Gap(max - 1)) && Distinct(Upto(max))
  {
  }

  // ---------------------------------------------------------------- view 1: as many as may be are marked too late

  function LogOne(max: nat): seq<nat>
    requires max >= 5
  {
    [max - 1, 1, max] + Span(3, Half(max))
  }

  lemma Turns1(max: nat) returns (S: System, m: Member, R: seq<GmsRow>)
    requires max >= 5
    ensures Reach(Table(max), S) && Leads(S, m) && |R| == max && Band(S, 1, Upto(max), R, Plans(Upto(max), 1, max))
    ensures m.view == Plain(1, Upto(max), 0) && m.next == Some(Plain(2, Gap(max - 1), -1)) && m.joining == Some(max)
    ensures |m.last| == max && forall r: nat :: r < max ==> (m.last[r] <==> r == 1)
    ensures S.log == [max - 1, 1, max] && S.waiting == map[] && forall id: nat :: id in S.followers <==> 0 < id < max
    ensures m.sst == Told(R, Half(max) + 2) && R[0].nCommitted == 3
    ensures forall r :: 0 <= r < max ==> R[r].wedged && R[r].nAcked == 3 && Quiet(R[r]) && |R[r].suspected| == max
  {
    hide Reach, Mate, Quiet, Band, AfterRound, Plans, NextView, Changed, Synced;
    var v := Plain(1, Upto(max), 0);
    var T, rows := Connects1(max);
    OpensFacts(T, v, rows);
    GapIs(max);
    PlainRemoves(v, 1);
    AfterRoundRows(rows);
    S := AllTurn(Table(max), T, v, rows, Half(max) + 2);
    R := AfterRound(rows);
    m := T.lead.m.(sst := Told(R, Half(max) + 2), next := Some(Plain(2, Gap(max - 1), -1)));
    QuietRows(rows, R);
    TableSized(Table(max), S);
    forall r | 0 <= r < max ensures |R[r].suspected| == max {
      assert S.lead.m.sst[r].suspected == R[r].suspected;
    }
    forall id: nat ensures id in S.followers <==> 0 < id < max {
      assert id in S.followers.Keys <==> id in T.followers.Keys;
    }
  }

  /** Told rows suspect no more than those put. */
  lemma ToldQuiet(max: nat, R: seq<GmsRow>, late: nat)
    requires late < |R| && forall r :: 0 <= r < |R| ==> Quiet(R[r]) && |R[r].suspected| == max
    ensures OthersQuiet(max, Told(R, late)) && Quiet(Told(R, late)[0]) && |Told(R, late)[0].suspected| == max
  {
    forall r | 0 <= r < |R| ensures Quiet(Told(R, late)[r]) && |Told(R, late)[r].suspected| == max {
      assert Told(R, late)[r].suspected == R[r].suspected;
    }
  }

  lemma AllIds(ms: seq<nat>, ranks: seq<nat>)
    requires Others(|ms|, ranks)
    ensures ranks[..|ranks|] == ranks && IdsAt(ms, ranks)[..|ranks|] == IdsAt(ms, ranks)
  {
  }

  lemma UptoIds(max: nat, ranks: seq<nat>)
    requires Others(max, ranks)
    ensures IdsAt(Upto(max), ranks) == ranks
  {
  }

  /** Once the one that was late is marked, all that are not marked have been heard to wedge. */
  lemma LateCovered(m0: Member, m: Member, R: seq<GmsRow>, late: nat)
    requires late < |R| == |m0.sst| == |m.sst| == |m.view.failed| && m0.sst == Told(R, late) && m.view.failed[late]
    requires (forall r :: 0 < r < |R| ==> R[r].wedged) && forall r :: 0 < r < |m.sst| ==> m.sst[r] == m0.sst[r]
    ensures forall r :: 0 < r < |R| ==> m.view.failed[r] || m.sst[r].wedged
  {
  }

  /** The leader marks 3, 4, ... */
  lemma MarksMany(max: nat) returns (S: System, m0: Member, m: Member, R: seq<GmsRow>)
    requires max >= 5
    ensures Reach(Table(max), S) && Leads(S, m) && |R| == max && Band(S, 1, Upto(max), R, Plans(Upto(max), 1, max))
    ensures m0.view == Plain(1, Upto(max), 0) && m0.next == Some(Plain(2, Gap(max - 1), -1)) && m0.joining == Some(max)
    ensures m0.sst == Told(R, Half(max) + 2) && Crossed(max, m0, m, Span(3, Half(max))) && R[0].nCommitted == 3
    ensures S.log == LogOne(max) && S.waiting == map[] && forall id: nat :: id in S.followers <==> 0 < id < max
    ensures forall r :: 0 <= r < max ==> R[r].wedged && R[r].nAcked == 3
  {
    hide Reach, Mate, Quiet, Band, Plans, Leads, OthersQuiet, Crossed, Others;
    var T;
    T, m0, R := Turns1(max);
    var h, ranks := Half(max), Span(3, Half(max));
    ToldQuiet(max, R, h + 2);
    LeadsFacts(T, m0);
    CrossedNone(max, m0);
    GapIs(max);
    SpanOthers(max, 3, h);
    S, m := MarksAll(Table(max), T, m0, ranks, h + 2, h);
    AllIds(Upto(max), ranks);
    UptoIds(max, ranks);
    BandPut(T, 1, Upto(max), R, Plans(Upto(max), 1, max));
    BandKept(T, S, 1, Upto(max), R, Plans(Upto(max), 1, max), R[0]);
    assert R[0 := R[0]] == R;
  }

  lemma Marks1(max: nat) returns (S: System, m: Member, R: seq<GmsRow>)
    requires max >= 5
    ensures Reach(Table(max), S) && Leads(S, m) && |R| == max && Band(S, 1, Upto(max), R, Plans(Upto(max), 1, max))
    ensures m.view.vid == 1 && m.view.members == Upto(max) && m.next == Some(Plain(2, Gap(max - 1), -1)) && m.joining == Some(max)
    ensures |m.last| == max && forall r: nat :: r < max ==> (m.last[r] <==> 3 <= r < Half(max) + 3)
    ensures S.log == LogOne(max) && S.waiting == map[] && forall id: nat :: id in S.followers <==> 0 < id < max
    ensures |m.sst| == |m.view.failed| == max && m.sst[0].nCommitted == m.sst[0].nAcked == 3 && m.sst[0].wedged
    ensures forall r :: 0 < r < max ==> R[r].wedged && R[r].nAcked == 3 && (m.view.failed[r] || m.sst[r].wedged)
  {
    hide Reach, Mate, Band, Plans, Leads, Crossed, LogOne;
    var m0;
    S, m0, m, R := MarksMany(max);
    CrossedEnds(max, m0, m, Span(3, Half(max)));
    LateCovered(m0, m, R, Half(max) + 2);
  }

  /** What became of the table and of the memory when the ranks have been marked. */
  lemma CrossedEnds(max: nat, m0: Member, m: Member, ranks: seq<nat>)
    requires Crossed(max, m0, m, ranks) && ranks != []
    ensures |m.sst| == |m0.sst| == |m.view.failed| && m.view.vid == m0.view.vid && m.view.members == m0.view.members
    ensures m.view.myRank == m0.view.myRank && m.view.nFailed == m0.view.nFailed + |ranks|
    ensures m.next == m0.next && m.joining == m0.joining && m.sst[0].wedged && |m.last| == max
    ensures m.sst[0].nCommitted == m0.sst[0].nCommitted && m.sst[0].nAcked == m0.sst[0].nAcked
    ensures forall r :: 0 < r < |m.sst| ==> m.sst[r] == m0.sst[r]
    ensures forall r: nat :: r < |m.sst| ==> (m.view.failed[r] <==> r in ranks)
    ensures forall r: nat :: r < max ==> (m.last[r] <==> if r < |m.sst| then r in ranks else m0.last[r])
  {
    hide Count;
  }

  // ---------------------------------------------------------------- view 2: what was marked is not committed, and a few more are marked

  lemma Begins2(max: nat) returns (S: System, rows: seq<GmsRow>)
    requires max >= 5
    ensures Reach(Table(max), S) && Opens(S, Plain(2, Gap(max - 1), -1), rows) && |rows| == max - 1 && S.log == LogOne(max)
    ensures S.waiting == map[] && S.lead.m.joining == Some(max) && forall id: nat :: id in S.followers <==> 0 < id < max
    ensures |S.lead.m.last| == max && forall r: nat :: r < max ==> (S.lead.m.last[r] <==> 3 <= r < Half(max) + 3)
    ensures rows[0].nCommitted == 3 && rows[0].nChanges == |S.log|
    ensures forall r :: 0 <= r < max - 1 ==> Quiet(rows[r]) && rows[r].nAcked == 3 && !rows[r].wedged
  {
    hide Reach, Mate, Quiet, Plans, NextView, Changed, Synced, InitFromExisting, Band, LeadBase, WellShaped, Window, Distinct;
    var T, m, R := Marks1(max);
    var v, w := Plain(1, Upto(max), 0), Plain(2, Gap(max - 1), -1);
    GapIs(max);
    PlainRemoves(v, 1);
    S := AllMove(Table(max), T, m, w, R, 1);
    rows := seq(max - 1, r requires 0 <= r < max - 1 => InitFromExisting(max, if r == 0 then m.sst[0] else R[r + 1]));
    forall r | 0 <= r < max - 1 ensures Quiet(rows[r]) && rows[r].nAcked == 3 && !rows[r].wedged {
      FreshRow(max, if r == 0 then m.sst[0] else R[r + 1]);
    }
    FreshRow(max, m.sst[0]);
    forall r | 0 < r < |rows| ensures Mate(S, w.members[r], 2, w.members, rows[r], []) {
      assert Upto(max)[r + 1] == r + 1 != 1;
    }
    AllEntered(S, w, rows);
    LeadKnows(Table(max), S);
    forall id: nat ensures id in S.followers <==> 0 < id < max {
      assert id in S.followers.Keys <==> id in T.followers.Keys;
    }
  }

  lemma NextOf2(max: nat)
    requires max >= 5
    ensures NextView(Plain(2, Gap(max - 1), -1), max) == Plain(3, Gap(max), -1) && Changed(Gap(max - 1), max) == Gap(max)
  {
    GapIs(max);
    PlainAdds(Plain(2, Gap(max - 1), -1), max);
  }

  /** The leader acknowledges its proposals, and begins at once. */
  lemma LeadTurns2(max: nat) returns (S: System, m: Member, rows: seq<GmsRow>)
    requires max >= 5
    ensures Reach(Table(max), S) && Leads(S, m) && |rows| == max - 1 && Band(S, 2, Gap(max - 1), rows, NoPlans(max - 1))
    ensures m.view == Plain(2, Gap(max - 1), -1) && m.next == Some(Plain(3, Gap(max), -1)) && m.joining == Some(max)
    ensures |m.last| == max && forall r: nat :: r < max ==> (m.last[r] <==> 3 <= r < Half(max) + 3)
    ensures S.log == LogOne(max) && S.waiting == map[] && forall id: nat :: id in S.followers <==> 0 < id < max
    ensures m.sst[0] == rows[0] && rows[0].nCommitted == 3 && rows[0].nChanges == rows[0].nAcked == |S.log| && rows[0].wedged
    ensures Quiet(rows[0]) && forall r :: 0 < r < max - 1 ==> Quiet(rows[r]) && rows[r].nAcked == 3 && !rows[r].wedged
  {
    hide Reach, Mate, Quiet, NextView, Changed, Synced, LeadBase, WellShaped, Window, Distinct, RingShape;
    var T, rows0 := Begins2(max);
    NextOf2(max);
    LeadKnows(Table(max), T);
    var U := LeaderHears(Table(max), T, rows0);
    var m1 := T.lead.m.(sst := rows0);
    var V := LeaderAcks(Table(max), U, m1);
    var m2 := SetOwn(m1, Acked(rows0[0]));
    LeadReads(Table(max), V, 2);
    LeadKnows(Table(max), V);
    S := LeaderBegins(Table(max), V, m2, max);
    m := Begun(m2, max);
    rows := rows0[0 := m.sst[0]];
    QuietRows(rows0, rows);
    BandKept(T, S, 2, Gap(max - 1), rows0, NoPlans(max - 1), m.sst[0]);
  }

  /** The rank the leader hears last in view 2. */
  function Late2(max: nat): nat
    requires max >= 5
  {
    if max % 2 == 1 then 1 else Half(max) + 2
  }

  /** The ranks marked in view 2: one if max is odd, and two if it is even. */
  function Ranks2(max: nat): (ranks: seq<nat>)
    requires max >= 5
    ensures Others(max - 1, ranks) && |ranks| == max - 2 * Half(max) && ranks[0] == 1 && ranks[|ranks| - 1] == Late2(max)
    ensures |ranks| < HalfOf(max - 1) && forall r: nat :: r in ranks ==> r == 1 || r == Half(max) + 2
  {
    if max % 2 == 1 then [1] else [1, Half(max) + 2]
  }

  /** Everyone acknowledges, and begins to take the joiner in. */
  lemma Follow2(max: nat) returns (S: System, m: Member, rows: seq<GmsRow>, R: seq<GmsRow>)
    requires max >= 5
    ensures Reach(Table(max), S) && Leads(S, m) && |R| == |rows| == max - 1
    ensures Band(S, 2, Gap(max - 1), R, Plans(Gap(max - 1), max, max - 1))
    ensures m.view == Plain(2, Gap(max - 1), -1) && m.next == Some(Plain(3, Gap(max), -1)) && m.joining == Some(max)
    ensures |m.last| == max && forall r: nat :: r < max ==> (m.last[r] <==> 3 <= r < Half(max) + 3)
    ensures S.log == LogOne(max) && S.waiting == map[] && forall id: nat :: id in S.followers <==> 0 < id < max
    ensures m.sst[0] == rows[0] && rows[0].nCommitted == 3 && rows[0].nChanges == rows[0].nAcked == |S.log| && rows[0].wedged
    ensures R == Echoed(rows, max - 1) && forall r :: 0 <= r < max - 1 ==> Quiet(rows[r])
    ensures forall r :: 0 < r < max - 1 ==> Put(Gap(max - 1)[r], 2, R[r].(wedged := false)) in S.published
  {
    hide Reach, Mate, Quiet, LeadBase, WellShaped, Window, Distinct, Plans, Changed, Leads;
    var T;
    T, m, rows := LeadTurns2(max);
    var ms := Gap(max - 1);
    GapIs(max);
    var U := AllAck(Table(max), T, 2, ms, rows, max - 1);
    R := Echoed(rows, max - 1);
    forall r | 0 < r < max - 1 ensures RingShape(max, R[r]) && R[r].changes[2 % max] == max {
      RingSays(Table(max), U, 2, ms, R[r], [], r, 2);
    }
    LeadsFacts(T, m);
    S := AllBegin(Table(max), U, 2, ms, R, max, max - 1);
    WedgedAlready(R, ms, max, max - 1);
    LeadsAfter(T, S, m, R, Plans(ms, max, max - 1));
    forall id: nat ensures id in S.followers <==> 0 < id < max {
      assert id in S.followers.Keys <==> id in T.followers.Keys;
    }
  }

  lemma LeadsAfter(S: System, S': System, m: Member, rows: seq<GmsRow>, plans: seq<seq<nat>>)
    requires Leads(S, m) && S'.lead == S.lead && S'.running == S.running && Band(S', m.view.vid, m.view.members, rows, plans)
    requires rows[0] == m.sst[0] && m.view.vid >= 0
    ensures Leads(S', m)
  {
    hide Mate;
  }

  /** The leader hears of it, of one only that it has acknowledged. */
  lemma Turns2(max: nat) returns (S: System, m: Member, R: seq<GmsRow>)
    requires max >= 5
    ensures Reach(Table(max), S) && Leads(S, m) && |R| == max - 1 && Band(S, 2, Gap(max - 1), R, Plans(Gap(max - 1), max, max - 1))
    ensures m.view == Plain(2, Gap(max - 1), -1) && m.next == Some(Plain(3, Gap(max), -1)) && m.joining == Some(max)
    ensures |m.last| == max && forall r: nat :: r < max ==> (m.last[r] <==> 3 <= r < Half(max) + 3)
    ensures S.log == LogOne(max) && S.waiting == map[] && forall id: nat :: id in S.followers <==> 0 < id < max
    ensures m.sst == Told(R, Late2(max)) && R[0].nCommitted == 3
    ensures forall r :: 0 <= r < max - 1 ==> R[r].wedged && R[r].nAcked == |S.log| && Quiet(R[r]) && |R[r].suspected| == max
  {
    hide Reach, Mate, Quiet, LeadBase, WellShaped, Window, Distinct, Plans, Changed;
    var V, m0, rows;
    V, m0, rows, R := Follow2(max);
    var ms, late := Gap(max - 1), Late2(max);
    LeadKnows(Table(max), V);
    S := LeaderHears(Table(max), V, Told(R, late));
    m := m0.(sst := Told(R, late));
    QuietRows(rows, R);
    TableSized(Table(max), S);
    forall r | 0 <= r < max - 1 ensures |R[r].suspected| == max {
      assert S.lead.m.sst[r].suspected == R[r].suspected;
    }
    BandKept(V, S, 2, ms, R, Plans(ms, max, max - 1), R[0]);
    assert R[0 := R[0]] == R;
  }

  function LogTwo(max: nat): seq<nat>
    requires max >= 5
  {
    LogOne(max) + IdsAt(Gap(max - 1), Ranks2(max))
  }

  /** The leader marks 2, and in a table of even size one more. */
  lemma Marks2(max: nat) returns (S: System, m: Member, R: seq<GmsRow>)
    requires max >= 5
    ensures Reach(Table(max), S) && Leads(S, m) && |R| == max - 1 && Band(S, 2, Gap(max - 1), R, Plans(Gap(max - 1), max, max - 1))
    ensures m.view.vid == 2 && m.view.members == Gap(max - 1) && m.next == Some(Plain(3, Gap(max), -1)) && m.joining == Some(max)
    ensures |m.last| == max && !m.last[2]
    ensures S.log == LogTwo(max) && S.waiting == map[] && forall id: nat :: id in S.followers <==> 0 < id < max
    ensures |m.sst| == |m.view.failed| == max - 1 && m.sst[0].nCommitted == 3 && m.sst[0].nAcked == |LogOne(max)| && m.sst[0].wedged
    ensures forall r :: 0 < r < max - 1 ==> R[r].wedged && R[r].nAcked == |LogOne(max)| && (m.view.failed[r] || m.sst[r].wedged)
  {
    hide Reach, Mate, Quiet, Band, Plans, Leads, OthersQuiet, Crossed, Others;
    var T, m0;
    T, m0, R := Turns2(max);
    var ranks := Ranks2(max);
    ToldQuiet(max, R, Late2(max));
    CrossedNone(max, m0);
    GapIs(max);
    S, m := MarksAll(Table(max), T, m0, ranks, Late2(max), |ranks|);
    AllIds(Gap(max - 1), ranks);
    CrossedEnds(max, m0, m, ranks);
    assert ranks[|ranks| - 1] in ranks;
    LeadsFacts(T, m0);
    LateCovered(m0, m, R, Late2(max));
    BandPut(T, 2, Gap(max - 1), R, Plans(Gap(max - 1), max, max - 1));
    BandKept(T, S, 2, Gap(max - 1), R, Plans(Gap(max - 1), max, max - 1), R[0]);
    assert R[0 := R[0]] == R;
  }

  // ---------------------------------------------------------------- view 3: more is pending than the ring holds

  lemma Begins3(max: nat) returns (S: System, rows: seq<GmsRow>)
    requires max >= 5
    ensures Reach(Table(max), S) && Opens(S, Plain(3, Gap(max), -1), rows) && |rows| == max && S.log == LogTwo(max)
    ensures S.lead.m.joining.None? && |S.lead.m.last| == max && !S.lead.m.last[2]
    ensures rows[0].nCommitted == 3 && rows[0].nChanges == |S.log|
    ensures forall r :: 0 <= r < max ==> Quiet(rows[r]) && rows[r].nAcked == |LogOne(max)| && !rows[r].wedged
  {
    hide Reach, Mate, Quiet, Plans, NextView, Changed, Synced, InitFromExisting, Band, LeadBase, WellShaped, Window, Distinct;
    var T, m, R := Marks2(max);
    var w := Plain(3, Gap(max), -1);
    GapIs(max);
    NextOf2(max);
    var U := AllMove(Table(max), T, m, w, R, max);
    var rows3 := seq(max - 1, r requires 0 <= r < max - 1 => InitFromExisting(max, if r == 0 then m.sst[0] else R[r]));
    forall r | 0 <= r < max - 1 ensures Quiet(rows3[r]) && rows3[r].nAcked == |LogOne(max)| && !rows3[r].wedged {
      FreshRow(max, if r == 0 then m.sst[0] else R[r]);
    }
    FreshRow(max, m.sst[0]);
    forall r | 0 < r < |rows3| ensures Mate(U, w.members[r], 3, w.members, rows3[r], []) {
      assert Gap(max - 1)[r] == r + 1 != max;
    }
    S := JoinerEnters(Table(max), U, w, rows3, max);
    rows := rows3 + [InitFromExisting(max, rows3[0])];
    FreshRow(max, rows3[0]);
    LeadKnows(Table(max), S);
  }

  /** All that was proposed is committed, and the leader begins to remove 3. */
  lemma LeadTurns3(max: nat) returns (S: System, m: Member, R: seq<GmsRow>)
    requires max >= 5
    ensures Reach(Table(max), S) && Leads(S, m) && |R| == max && Band(S, 3, Gap(max), R, NoPlans(max))
    ensures m.view == Plain(3, Gap(max), -1) && m.next == Some(NextView(m.view, 3)) && |m.last| == max && !m.last[2]
    ensures m.sst == Told(R, Half(max) + 2) && S.log == LogTwo(max) && R[0].nCommitted == |S.log|
    ensures forall r :: 0 <= r < max ==> R[r].wedged && R[r].nAcked == |S.log| && Quiet(R[r]) && |R[r].suspected| == max
  {
    hide Reach, Mate, Quiet, NextView, Changed, Synced, LeadBase, WellShaped, Window, Distinct, AfterRound, Band;
    var T, rows := Begins3(max);
    var v, late := Plain(3, Gap(max), -1), Half(max) + 2;
    var U := Round(Table(max), T, v, rows, late);
    R := AfterRound(rows);
    AfterRoundRows(rows);
    QuietRows(rows, R);
    LeadReads(Table(max), U, 3);
    LeadKnows(Table(max), U);
    assert LogTwo(max)[3] == 3;
    var m1 := T.lead.m.(sst := Told(R, late));
    S := LeaderBegins(Table(max), U, m1, 3);
    m := Begun(m1, 3);
    assert m.sst == m1.sst;
    TableSized(Table(max), S);
    forall r | 0 <= r < max ensures |R[r].suspected| == max {
      assert S.lead.m.sst[r].suspected == R[r].suspected;
    }
    BandKept(U, S, 3, Gap(max), R, NoPlans(max), R[0]);
    assert R[0 := R[0]] == R;
  }

  function LogThree(max: nat): seq<nat>
    requires max >= 5
  {
    LogTwo(max) + IdsAt(Gap(max), Span(2, Half(max)))
  }

  /** The leader marks as many as its own transport may report: the ring is full. */
  lemma Marks3(max: nat) returns (S: System, m0: Member, m: Member, R: seq<GmsRow>)
    requires max >= 5
    ensures Reach(Table(max), S) && Leads(S, m) && |R| == max && Band(S, 3, Gap(max), R, NoPlans(max))
    ensures m0.sst == Told(R, Half(max) + 2) && Crossed(max, m0, m, Span(2, Half(max))) && OthersQuiet(max, m0.sst)
    ensures m0.view == Plain(3, Gap(max), -1) && m0.next == Some(NextView(m0.view, 3))
    ensures m0.sst[0].nCommitted == |LogTwo(max)| && S.log == LogThree(max)
    ensures forall r :: 0 <= r < max ==> R[r].nAcked == |LogTwo(max)| && Quiet(R[r]) && |R[r].suspected| == max
  {
    hide Reach, Mate, Quiet, Band, Leads, OthersQuiet, NextView, Crossed, Others;
    var T;
    T, m0, R := LeadTurns3(max);
    var h, ranks := Half(max), Span(2, Half(max));
    ToldQuiet(max, R, h + 2);
    LeadsFacts(T, m0);
    CrossedNone(max, m0);
    GapIs(max);
    SpanOthers(max, 2, h);
    S, m := MarksAll(Table(max), T, m0, ranks, h + 2, h);
    AllIds(Gap(max), ranks);
    BandPut(T, 3, Gap(max), R, NoPlans(max));
    BandKept(T, S, 3, Gap(max), R, NoPlans(max), R[0]);
    assert R[0 := R[0]] == R;
  }

  /** 2 reports one more, and the leader hears of it. */
  lemma Gossips3(max: nat) returns (S: System, m0: Member, m: Member, said: GmsRow, R: seq<GmsRow>)
    requires max >= 5
    ensures Reach(Table(max), S) && |R| == max && Band(S, 3, Gap(max), R, NoPlans(max)) && R[1] == said
    ensures OthersQuiet(max, m0.sst) && Crossed(max, m0, m, Span(2, Half(max)))
    ensures |m.sst| == max && Leads(S, m.(sst := m.sst[1 := said]))
    ensures |said.suspected| == max && forall r: nat :: r < max ==> (said.suspected[r] <==> r == Half(max) + 2)
    ensures m0.view == Plain(3, Gap(max), -1) && m0.next == Some(NextView(m0.view, 3)) && !m0.sst[Half(max) + 2].wedged
    ensures m0.sst[0].nCommitted == |LogTwo(max)| && S.log == LogThree(max)
    ensures forall r :: 0 <= r < max ==> R[r].nAcked == |LogTwo(max)|
  {
    hide Reach, Mate, Synced, OthersQuiet, NextView, Crossed, WellShaped;
    var T, R0;
    T, m0, m, R0 := Marks3(max);
    var z, ms := Half(max) + 2, Gap(max);
    GapIs(max);
    CrossedEnds(max, m0, m, Span(2, Half(max)));
    var U := FollowerReports(Table(max), T, 3, ms, R0[1], 1, [], z);
    said := R0[1].(suspected := R0[1].suspected[z := true]);
    R := R0[1 := said];
    BandBeside(T, U, 3, ms, R0, NoPlans(max), 1, said, []);
    assert NoPlans(max)[1 := []] == NoPlans(max);
    LeadsStay(T, U, m);
    S := LeaderHearsRow(Table(max), U, m, 1, said);
    BandKept(U, S, 3, ms, R, NoPlans(max), R[0]);
    assert R[0 := R[0]] == R;
  }

  lemma CrossedAndSaid(max: nat, m0: Member, m: Member, ranks: seq<nat>, said: GmsRow, z: nat)
    requires Crossed(max, m0, m, ranks) && OthersQuiet(max, m0.sst) && 1 < |m.sst| <= max && 0 < z < |m.sst| && z !in ranks
    requires |said.suspected| == max && forall r: nat :: r < max ==> (said.suspected[r] <==> r == z)
    ensures Suspects(max, m.sst[1 := said], Among(ranks + [z]))
  {
    hide Count;
    var t := m.sst[1 := said];
    forall p: nat | p in Among(ranks + [z]) ensures p < max && exists r :: 0 <= r < |t| && t[r].suspected[p] {
      assert if p == z then t[1].suspected[p] else t[0].suspected[p];
    }
  }

  lemma NotYetLast(max: nat)
    requires max >= 5
    ensures |LogThree(max)| == max + 3 && |LogThree(max)| - |LogTwo(max)| < max
    ensures forall k :: |LogTwo(max)| <= k < |LogThree(max)| ==> LogThree(max)[k] != Half(max) + 3
  {
  }

  /** The leader marks that one too: its proposal takes the place of the change that it has begun. */
  lemma WritesOver(max: nat) returns (S: System, row: GmsRow, R: seq<GmsRow>)
    requires max >= 5
    ensures Reach(Table(max), S) && |R| == max && Band(S, 3, Gap(max), R, NoPlans(max))
    ensures S.lead.m.view.vid == 3 && S.lead.m.next.Some? && S.lead.m.next.value.vid == 4
    ensures S.lead.m.next.value.members == Changed(Gap(max), 3)
    ensures Put(0, 3, row) in S.published && row.nCommitted == |LogTwo(max)| && row.nChanges == |S.log|
    ensures S.log == LogThree(max) + [Half(max) + 3] && forall r :: 0 <= r < max ==> R[r].nAcked == |LogTwo(max)|
  {
    hide Reach, Mate, Synced, OthersQuiet, NextView, Suspects, Recalled, Crossed, WellShaped, Window, Distinct, Changed,
         LogThree, LogTwo;
    var T, m0, m, said;
    T, m0, m, said, R := Gossips3(max);
    var z, ranks := Half(max) + 2, Span(2, Half(max));
    var n := m.(sst := m.sst[1 := said]);
    CrossedEnds(max, m0, m, ranks);
    CrossedAndSaid(max, m0, m, ranks, said, z);
    NotYetLast(max);
    assert !n.sst[z].wedged && z !in ranks;
    S := LeaderMarks(Table(max), T, n, Among(ranks + [z]), z);
    NextVid(m0.view, 3);
    row := S.lead.m.sst[0];
    LeadKnows(Table(max), S);
    BandKept(T, S, 3, Gap(max), R, NoPlans(max), R[0]);
    assert R[0 := R[0]] == R;
  }

  // ---------------------------------------------------------------- view 4, twice

  lemma SameSlot(max: nat)
    requires max > 3
    ensures (3 + max) % max == 3 % max == 3
  {
    assert (3 + max) / max == 1;
  }

  lemma LastOfLog(max: nat)
    requires max >= 5
    ensures var log := LogThree(max) + [Half(max) + 3]; |log| == max + 4 && log[3 + max] == Half(max) + 3 && |LogTwo(max)| > 3
  {
  }

  /** 2 hears of the last proposal, and begins to remove that member where the leader removes 3. */
  lemma Parts(max: nat) returns (S: System)
    requires max >= 5
    ensures Reach(Table(max), S) && Parted(S)
  {
    hide Reach, Mate, Synced, WellShaped, Changed, Window, Distinct;
    var T, row, R := WritesOver(max);
    var ms, x := Gap(max), Half(max) + 3;
    GapIs(max);
    LastOfLog(max);
    BandKept(T, T, 3, ms, R, NoPlans(max), row);
    var U := FollowerAcks(Table(max), T, 3, ms, R[0 := row], 1);
    var rows := R[0 := row][1 := Echo(row, R[1])];
    MatePut(U, 2, 3, ms, rows[1], []);
    RingSays(Table(max), U, 3, ms, rows[1], [], 1, 3 + max);
    SameSlot(max);
    S := FollowerBegins(Table(max), U, 3, ms, rows, 1, x);
    MateNext(Table(max), S, 2, 3, ms, rows[1].(wedged := true), Changed(ms, x), 1);
    if Changed(ms, 3) == Changed(ms, x) {
      ChangedOnce(ms, 3, x);
    }
    assert PartedFrom(S.lead.m, S.followers[2].m);
  }

  lemma MateNext(G: Group, S: System, id: nat, vid: nat, ms: seq<nat>, row: GmsRow, plan: seq<nat>, k: nat)
    requires Reach(G, S) && Mate(S, id, vid, ms, row, plan) && k < |ms| && ms[k] == id && plan != []
    ensures S.followers[id].m.view.vid == vid && S.followers[id].m.next.Some?
    ensures S.followers[id].m.next.value.vid == vid + 1 && S.followers[id].m.next.value.members == plan
  {
    hide Reach;
    MateFacts(G, S, id, vid, ms, row, plan, k);
  }

  /**
   Members may disagree, in a table of any size from four up.  There is a run, in which the
   leader never puts off what is due, that ends with the leader and another member changing
   from the same view to the same number with different lists.  So it is a run in which
   members leave a view by different changes, a change still needed is written over, the ring
   is overfilled, and the leader installs views that hide its marks.
   */
  lemma MembersMayDisagree(max: nat)
    requires max >= 4
    ensures exists run: seq<System>, steps: seq<Step> ::
              && PromptRun(Table(max), run, steps) && Parted(run[|steps|]) && !Agreeing(run)
              && !SameChanges(Table(max), run, steps) && !SoundRun(Table(max), run, steps)
              && !RoomyRun(Table(max), run) && !CleanRun(run, steps)
  {
    hide Init, WellShaped, Enabled, Next, Prompt, RoomyRun, SoundRun, SameChanges, CleanRun, Agreeing, Parted;
    var S;
    if max == 4 {
      Divergence.FourIs();
      S := Divergence.Parts();
    } else {
      S := Parts(max);
    }
    var run, steps :| PromptRun(Table(max), run, steps) && run[|steps|] == S;
    PartedDisagree(run, |steps|);
    NothingHolds(Table(max), run, steps);
  }

  /** Views agree in every run exactly in tables with room for at most three. */
  lemma AllAgreeIffSmall(max: nat)
    ensures (forall first, run, steps :: IsRun(Group(max, first), run, steps) ==> Agreeing(run)) <==> max <= 3
  {
    hide IsRun, Agreeing, Prompt, Parted, SameChanges, SoundRun, RoomyRun, CleanRun;
    if max <= 3 {
      forall first, run, steps | IsRun(Group(max, first), run, steps) ensures Agreeing(run) {
        SmallTablesAgree(Group(max, first), run, steps);
      }
    } else {
      MembersMayDisagree(max);
      var run: seq<System>, steps: seq<Step> :| PromptRun(Table(max), run, steps) && !Agreeing(run);
      assert IsRun(Group(max, Upto(max - 1)), run, steps);
    }
  }
}
