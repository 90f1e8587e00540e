/** What a member's own triggers do, exactly, and that each does all there is to do. */
module Triggers {
  import opened Collections
  import opened Messages
  import opened MembershipSpec
  import opened Membership
  import opened ChangeLog
  import opened LeaderSteps
  import opened ViewInstall
  import opened MembershipInv
  import opened MembershipSteps
  import opened MembershipKeeps
  import opened MembershipRuns
  import opened Reports

  // ---------------------------------------------------------------- suspicion

  /** Some row the member sees, its own among them, suspects rank q. */
  predicate Suspected(max: nat, m: Member, q: nat)
    requires MemberShape(max, m) && q < max
  {
    exists r :: 0 <= r < |m.sst| && m.sst[r].suspected[q]
  }

  /** The ranks that are suspected and not marked yet. */
  function Unmarked(max: nat, m: Member): set<nat>
    requires MemberShape(max, m)
  {
    set q: nat | q < |m.view.members| && Suspected(max, m, q) && !m.view.failed[q]
  }

  /** Of the ranks from q on, those the member itself suspects and has not marked. */
  function MarkSet(max: nat, m: Member, q: nat): set<nat>
    requires MemberShape(max, m)
  {
    set r: nat | q <= r < |m.view.members| && OwnRow(m).suspected[r] && !m.view.failed[r]
  }

  /** m' is m with the ranks in `marks` marked, and otherwise no more than wedged and with proposals in its ring. */
  ghost predicate MarkedWith(max: nat, m: Member, m': Member, marks: set<nat>) {
    && MemberShape(max, m) && MemberShape(max, m')
    && m'.view == m.view.(failed := m'.view.failed, nFailed := m.view.nFailed + |marks|)
    && (forall r: nat :: r < |m.view.failed| ==> (m'.view.failed[r] <==> m.view.failed[r] || r in marks))
    && m'.next == m.next && m'.joining == m.joining && m'.last == m.last && |m'.sst| == |m.sst|
    && (forall r :: 0 <= r < |m.sst| && r != m.view.myRank ==> m'.sst[r] == m.sst[r])
    && OwnRow(m') == OwnRow(m).(changes := OwnRow(m').changes, nChanges := OwnRow(m').nChanges,
                                wedged := OwnRow(m).wedged || marks != {})
    && OwnRow(m).nChanges <= OwnRow(m').nChanges <= OwnRow(m).nChanges + |marks|
  }

  /** The member stops in the middle of the marks, and why. */
  ghost predicate StopsMarking(max: nat, m: Member, marks: set<nat>, why: Reason)
    requires MemberShape(max, m)
  {
    var waiting := OwnRow(m).nChanges - OwnRow(m).nCommitted;
    && marks != {}
    && match why
       case MajorityFailed => 2 * m.view.nFailed >= |m.view.members|
       case NotInMajority => 2 * m.view.nFailed < |m.view.members| <= 2 * (m.view.nFailed + |marks|)
       case NoRoom => waiting <= max < waiting + |marks|
       case _ => false
  }

  lemma MarkOne(max: nat, m: Member, q: nat)
    requires MemberShape(max, m) && q < |m.view.members| && !m.view.failed[q]
    ensures match MarkFailed(max, m, q)
            case Going(m') => MarkedWith(max, m, m', {q}) && 2 * m'.view.nFailed < |m.view.members|
            case Halted(why) => StopsMarking(max, m, {q}, why)
  {
    hide ChangesContains;
    assert |{q}| == 1;
  }

  lemma MarkMore(max: nat, m: Member, m': Member, m'': Member, q: nat, rest: set<nat>)
    requires MarkedWith(max, m, m', {q}) && MarkedWith(max, m', m'', rest) && q !in rest
    ensures MarkedWith(max, m, m'', {q} + rest) && |{q} + rest| == 1 + |rest|
  {
    assert |{q}| == 1;
    assert |{q} + rest| == |{q}| + |rest|;
  }

  lemma MarkNone(max: nat, m: Member)
    requires MemberShape(max, m)
    ensures MarkedWith(max, m, m, {})
  {
  }

  lemma StopsLater(max: nat, m: Member, m': Member, q: nat, rest: set<nat>, why: Reason)
    requires MarkedWith(max, m, m', {q}) && 2 * m'.view.nFailed < |m.view.members| && q !in rest && StopsMarking(max, m', rest, why)
    ensures StopsMarking(max, m, {q} + rest, why)
  {
    assert |{q}| == 1;
    assert |{q} + rest| == |{q}| + |rest|;
  }

  lemma StopsAmongMore(max: nat, m: Member, q: nat, rest: set<nat>, why: Reason)
    requires MemberShape(max, m) && q !in rest && StopsMarking(max, m, {q}, why)
    ensures StopsMarking(max, m, {q} + rest, why)
  {
    assert |{q} + rest| == |{q}| + |rest|;
  }

  lemma MarkSetStep(max: nat, m: Member, m': Member, q: nat)
    requires MemberShape(max, m) && q < |m.view.members|
    requires OwnRow(m).suspected[q] && !m.view.failed[q]
    ensures MarkSet(max, m, q) == {q} + MarkSet(max, m, q + 1) && q !in MarkSet(max, m, q + 1)
    ensures MarkedWith(max, m, m', {q}) ==> MarkSet(max, m', q + 1) == MarkSet(max, m, q + 1)
  {
  }

  lemma {:induction false} MarkFromExactly(max: nat, m: Member, q: nat)
    requires MemberShape(max, m) && q <= |m.view.members|
    ensures match MarkFrom(max, m, q)
            case Going(m') => MarkedWith(max, m, m', MarkSet(max, m, q))
                              && (MarkSet(max, m, q) != {} ==> 2 * m'.view.nFailed < |m.view.members|)
            case Halted(why) => StopsMarking(max, m, MarkSet(max, m, q), why)
    decreases |m.view.members| - q
  {
    hide MarkFailed, MarkSet, MarkedWith, StopsMarking;
    if q == |m.view.members| {
      MarkNone(max, m);
      assert MarkSet(max, m, q) == {} by {
        NoneToMark(max, m);
      }
    } else if OwnRow(m).suspected[q] && !m.view.failed[q] {
      MarkOne(max, m, q);
      var rest := MarkSet(max, m, q + 1);
      match MarkFailed(max, m, q)
      case Halted(why) =>
        MarkSetStep(max, m, m, q);
        StopsAmongMore(max, m, q, rest, why);
      case Going(m') =>
        MarkSetStep(max, m, m', q);
        MarkFromExactly(max, m', q + 1);
        match MarkFrom(max, m', q + 1)
        case Halted(why) => StopsLater(max, m, m', q, rest, why);
        case Going(m'') =>
          MarkMore(max, m, m', m'', q, rest);
          if rest == {} {
            LastMark(max, m', m'');
          }
    } else {
      SkipMark(max, m, q);
      MarkFromExactly(max, m, q + 1);
    }
  }

  lemma NoneToMark(max: nat, m: Member)
    requires MemberShape(max, m)
    ensures MarkSet(max, m, |m.view.members|) == {}
  {
  }

  lemma SkipMark(max: nat, m: Member, q: nat)
    requires MemberShape(max, m) && q < |m.view.members| && (OwnRow(m).suspected[q] ==> m.view.failed[q])
    ensures MarkSet(max, m, q) == MarkSet(max, m, q + 1)
  {
  }

  lemma LastMark(max: nat, m: Member, m': Member)
    requires MarkedWith(max, m, m', {})
    ensures m'.view.nFailed == m.view.nFailed && m'.view.members == m.view.members
  {
  }

  lemma MergedSuspects(max: nat, m: Member)
    requires MemberShape(max, m)
    ensures var m' := Merged(max, m);
            && m' == m.(sst := m'.sst) && |m'.sst| == |m.sst|
            && (forall r :: 0 <= r < |m.sst| && r != m.view.myRank ==> m'.sst[r] == m.sst[r])
            && OwnRow(m') == OwnRow(m).(suspected := OwnRow(m').suspected)
            && (forall q: nat :: q < |m.view.members| ==> (OwnRow(m').suspected[q] <==> Suspected(max, m, q)))
            && (forall q: nat :: |m.view.members| <= q < max ==> OwnRow(m').suspected[q] == OwnRow(m).suspected[q])
            && MarkSet(max, m', 0) == Unmarked(max, m)
  {
  }

  /**
   The suspicion trigger, exactly.  A member that survives it has marked just those ranks that
   some row it sees suspects; it suspects them itself, and has them remembered, so that
   nothing is left to be noticed; it counts them in nFailed; and if it has marked anyone it
   has wedged its row and its marks are a minority.  It stops only if they would not be, or
   if as leader it has no room for its proposals.  Nothing else of it changes.
   */
  lemma SuspectExactly(max: nat, m: Member)
    requires MemberShape(max, m)
    ensures match Suspect(max, m)
            case Going(m') =>
              && MemberShape(max, m') && |m'.sst| == |m.sst|
              && m'.view == m.view.(failed := m'.view.failed, nFailed := m.view.nFailed + |Unmarked(max, m)|)
              && (forall q: nat :: q < |m.view.members| ==>
                    && (m'.view.failed[q] <==> m.view.failed[q] || Suspected(max, m, q))
                    && (OwnRow(m').suspected[q] <==> Suspected(max, m, q))
                    && (m'.last[q] <==> Suspected(max, m, q)))
              && (forall q :: |m.view.members| <= q < max ==>
                    OwnRow(m').suspected[q] == OwnRow(m).suspected[q] && m'.last[q] == m.last[q])
              && (forall r, q :: 0 <= r < |m.sst| && 0 <= q < |m.view.members| && m'.sst[r].suspected[q] ==> m'.last[q])
              && (Unmarked(max, m) != {} ==> 2 * m'.view.nFailed < |m.view.members|)
              && OwnRow(m').wedged == (OwnRow(m).wedged || Unmarked(max, m) != {})
              && m'.next == m.next && m'.joining == m.joining
              && (forall r :: 0 <= r < |m.sst| && r != m.view.myRank ==> m'.sst[r] == m.sst[r])
            case Halted(why) => StopsMarking(max, m, Unmarked(max, m), why)
  {
    hide MarkFrom, Merged, MarkSet;
    MergedSuspects(max, m);
    MarkFromExactly(max, Merged(max, m), 0);
  }

  /** The check for a pending proposal is right, as long as the ring holds all that is uncommitted. */
  lemma ContainsIff(max: nat, log: seq<nat>, r: GmsRow, q: nat)
    requires RingShape(max, r) && Window(max, log, r) && r.nChanges == |log| && 0 <= r.nCommitted <= |log| <= r.nCommitted + max
    ensures ChangesContains(max, r, q) <==> q in log[r.nCommitted..]
  {
    hide Window;
    if i :| 0 <= i < |log[r.nCommitted..]| && log[r.nCommitted..][i] == q {
      SlotHolds(max, log, r, r.nCommitted + i);
    }
    if ChangesContains(max, r, q) {
      var k :| r.nCommitted <= k < r.nChanges && k % max < r.nChanges && r.changes[k % max] == q;
      SlotHolds(max, log, r, k);
      assert log[r.nCommitted..][k - r.nCommitted] == q;
    }
  }

  lemma SlotHolds(max: nat, log: seq<nat>, r: GmsRow, k: nat)
    requires RingShape(max, r) && Window(max, log, r) && r.nChanges == |log| && k < |log| <= k + max
    ensures k % max <= k && r.changes[k % max] == log[k]
  {
    assert k / max >= 0 && k == max * (k / max) + k % max;
  }

  /**
   A removal is proposed once.  If the node is named by no uncommitted entry of the log, it
   is appended, unless a whole ring is uncommitted and the leader stops; if it is, nothing
   changes.
   */
  lemma RemovalProposedOnce(max: nat, log: seq<nat>, m: Member, id: nat)
    requires MemberShape(max, m) && Window(max, log, OwnRow(m)) && OwnRow(m).nChanges == |log|
    requires 0 <= OwnRow(m).nCommitted <= |log| <= OwnRow(m).nCommitted + max
    ensures var from := OwnRow(m).nCommitted;
            match ProposeRemoval(max, m, id)
            case Going(m') =>
              var log' := if id in log[from..] then log else log + [id];
              && |log'| - from <= max && id in log'[from..]
              && Window(max, log', OwnRow(m')) && OwnRow(m').nChanges == |log'|
              && m' == SetOwn(m, OwnRow(m).(changes := OwnRow(m').changes, nChanges := |log'|))
            case Halted(why) => why == NoRoom && id !in log[from..] && |log| - from == max
  {
    hide Window, ChangesContains;
    var from := OwnRow(m).nCommitted;
    ContainsIff(max, log, OwnRow(m), id);
    ProposeWindow(max, log, OwnRow(m), id);
    assert (log + [id])[from..][|log| - from] == id;
  }

  // ---------------------------------------------------------------- acknowledging and committing

  /**
   The commit trigger goes all the way: the commit point moves up to a count that some member
   not marked failed, or the leader itself, has acknowledged, and that all of these have; so
   there is nothing left to commit.  Nothing else changes.
   */
  lemma CommitReaches(max: nat, m: Member)
    requires MemberShape(max, m) && CanCommit(max, m)
    ensures var m' := Commit(max, m); var now := OwnRow(m').nCommitted;
            && m' == SetOwn(m, OwnRow(m).(nCommitted := now)) && now > OwnRow(m).nCommitted
            && (forall r :: 0 <= r < |m.sst| && (!m.view.failed[r] || r == m.view.myRank) ==> now <= m.sst[r].nAcked)
            && (exists r :: 0 <= r < |m.sst| && (!m.view.failed[r] || r == m.view.myRank) && now == m.sst[r].nAcked)
            && !CanCommit(max, m')
  {
    var m' := Commit(max, m);
    assert forall r :: 0 <= r < |m.sst| ==> m'.sst[r].nAcked == m.sst[r].nAcked;
  }

  /**
   The acknowledgement goes all the way too: the member has acknowledged as many proposals as
   it sees the leader make, holds the leader's ring and commit point, or as leader its own,
   and is wedged; so there is nothing left to acknowledge.  Nothing else changes.
   */
  lemma AckReaches(max: nat, m: Member)
    requires MemberShape(max, m) && HasLeader(m) && CanAck(max, m)
    ensures var m', l := Ack(max, m), LeaderRow(m); var own := OwnRow(m');
            && MemberShape(max, m') && m' == SetOwn(m, own) && HasLeader(m') && LeaderRow(m').nChanges == l.nChanges
            && own.nAcked == own.nChanges == l.nChanges && own.changes == l.changes && own.nCommitted == l.nCommitted && own.wedged
            && own.suspected == OwnRow(m).suspected && own.globalMinReady == OwnRow(m).globalMinReady
            && !CanAck(max, m')
  {
  }

  /**
   A join, in every run: the leader stops exactly if half a ring of its proposals is
   uncommitted; otherwise the joiner is the next entry of its log, it holds the joiner's
   connection, and it has wedged its row.
   */
  lemma JoinTaken(G: Group, run: seq<System>, steps: seq<Step>, k: nat, id: nat)
    requires IsRun(G, run, steps) && k < |steps| && steps[k] == LeadJoins(id)
    ensures MemberShape(G.max, run[k].lead.m) && MemberShape(G.max, run[k + 1].lead.m)
    ensures var S, S' := run[k], run[k + 1]; var row := OwnRow(S.lead.m);
            && S.running && (S'.running <==> |S.log| - row.nCommitted != G.max / 2)
            && S'.followers == S.followers
            && (S'.running ==>
                  && S'.log == S.log + [id] && S'.lead.m.view == S.lead.m.view && S'.lead.m.joining == Some(id)
                  && OwnRow(S'.lead.m).wedged && OwnRow(S'.lead.m).nCommitted == row.nCommitted)
  {
    hide Base, LeadBase, IsRun, Window, ReceiveJoin;
    JoinRunStep(G, run, steps, k, id);
    RunBase(G, run, steps, k);
    LeadFacts(G, run[k]);
    LeaderWritesLog(G, run, steps, k);
    JoinTakenHere(G, run[k], id);
  }

  lemma JoinRunStep(G: Group, run: seq<System>, steps: seq<Step>, k: nat, id: nat)
    requires IsRun(G, run, steps) && k < |steps| && steps[k] == LeadJoins(id)
    ensures |run| == |steps| + 1 && WellShaped(G, run[k]) && WellShaped(G, run[k + 1])
    ensures Enabled(G, run[k], LeadJoins(id)) && run[k + 1] == Next(G, run[k], LeadJoins(id))
  {
    hide Init, WellShaped, Enabled, Next;
  }

  lemma JoinTakenHere(G: Group, S: System, id: nat)
    requires Base(G, S) && WellShaped(G, S) && Enabled(G, S, LeadJoins(id)) && LeadBase(G.max, S.log, S.lead.m)
    ensures var S', row := Next(G, S, LeadJoins(id)), OwnRow(S.lead.m);
            && (S'.running <==> |S.log| - row.nCommitted != G.max / 2)
            && S'.followers == S.followers
            && (S'.running ==>
                  && MemberShape(G.max, S'.lead.m)
                  && S'.log == S.log + [id] && S'.lead.m.view == S.lead.m.view && S'.lead.m.joining == Some(id)
                  && OwnRow(S'.lead.m).wedged && OwnRow(S'.lead.m).nCommitted == row.nCommitted)
  {
    hide Base, Window, Distinct, Extended, Synced;
    if ReceiveJoin(G.max, S.lead.m, id).Going? {
      LeadHead(G, S);
      JoinBase(G.max, S.log, S.lead.m, id);
      var m' := ReceiveJoin(G.max, S.lead.m, id).value;
      ExtendedIs(G.max, S.log, S.log + [id], OwnRow(m'));
    }
  }

  lemma LeadHead(G: Group, S: System)
    requires Base(G, S)
    ensures G.first != [] && S.lead.m.view.members != [] && S.lead.m.view.members[0] == LeadId(G)
  {
    hide LeadBase, FollowersInv, WaitingInv, PublishedInv, TableInv, RowInv, NextInv;
  }

  // ---------------------------------------------------------------- from view to view

  /** The members of a view other than `id`, in order, each with its mark. */
  function Standing(v: View, id: nat): seq<(nat, bool)>
    requires |v.members| == |v.failed|
  {
    Rest(v.members, v.failed, id)
  }

  function Rest(members: seq<nat>, failed: seq<bool>, id: nat): seq<(nat, bool)>
    requires |members| == |failed|
  {
    if members == [] then []
    else
      var n := |members| - 1;
      Rest(members[..n], failed[..n], id) + if members[n] == id then [] else [(members[n], failed[n])]
  }

  lemma {:induction false} RestConcat(a: seq<nat>, f: seq<bool>, b: seq<nat>, g: seq<bool>, id: nat)
    requires |a| == |f| && |b| == |g|
    ensures Rest(a + b, f + g, id) == Rest(a, f, id) + Rest(b, g, id)
    decreases |b|
  {
    if b == [] {
      assert a + b == a && f + g == f;
    } else {
      var n := |b| - 1;
      RestConcat(a, f, b[..n], g[..n], id);
      assert (a + b)[..|a + b| - 1] == a + b[..n] && (f + g)[..|f + g| - 1] == f + g[..n];
    }
  }

  lemma RestOne(x: nat, f: bool, id: nat)
    ensures Rest([x], [f], id) == if x == id then [] else [(x, f)]
  {
    assert [x][..0] == [] && [f][..0] == [];
  }

  lemma RestWithout(members: seq<nat>, failed: seq<bool>, r: nat)
    requires |members| == |failed| && r < |members|
    ensures Rest(Without(members, r), Without(failed, r), members[r]) == Rest(members, failed, members[r])
  {
    hide Rest;
    var a, f, b, g := members[..r], failed[..r], members[r + 1..], failed[r + 1..];
    RestConcat(a, f, b, g, members[r]);
    RestConcat(a + [members[r]], f + [failed[r]], b, g, members[r]);
    RestConcat(a, f, [members[r]], [failed[r]], members[r]);
    RestOne(members[r], failed[r], members[r]);
    assert members == a + [members[r]] + b && failed == f + [failed[r]] + g;
  }

  /**
   The next view, said without lists.  The node named by the change leaves if it is a member,
   and is the last, unmarked, if it is not; every other member keeps its place among the
   others and its mark; a member removed is taken off nFailed; and the member still stands
   where it says it does, unless it is the one removed.
   */
  lemma NextViewExactly(v: View, id: nat)
    requires ViewsAgreeInSize(v) && Distinct(v.members)
    ensures var w := NextView(v, id);
            && w.vid == v.vid + 1 && |w.members| == |w.failed| && Distinct(w.members)
            && (forall x :: x in w.members <==> (x in v.members) != (x == id))
            && Standing(w, id) == Standing(v, id)
            && (id !in v.members ==> w.members[|w.members| - 1] == id && !w.failed[|w.members| - 1])
            && w.nFailed == v.nFailed - (if id in v.members then 1 else 0)
            && (w.myRank == -1 <==> id == v.members[v.myRank])
            && (w.myRank != -1 ==> 0 <= w.myRank < |w.members| && w.members[w.myRank] == v.members[v.myRank])
  {
    hide Rest, Distinct;
    ChangedDistinct(v.members, id);
    if id in v.members {
      RestWithout(v.members, v.failed, RankOf(v.members, id));
    } else {
      RestConcat(v.members, v.failed, [id], [false], id);
      RestOne(id, false, id);
    }
    assert v.members[v.myRank] in v.members;
  }

  /**
   Beginning a change: the view a member changes to is the one after its own, by the change
   in its ring under its view's number.  It stops exactly if that change removes it.
   Otherwise it has wedged its row, and nothing else of it changes.
   */
  lemma StartExactly(max: nat, m: Member)
    requires MemberShape(max, m) && Distinct(m.view.members)
    ensures var id := OwnRow(m).changes[m.view.vid % max];
            match Start(max, m)
            case Going(m') =>
              && id != m.view.members[m.view.myRank]
              && m' == SetOwn(m, OwnRow(m).(wedged := true)).(next := Some(NextView(m.view, id)))
            case Halted(why) => why == Removed && id == m.view.members[m.view.myRank]
  {
    NextViewExactly(m.view, OwnRow(m).changes[m.view.vid % max]);
    hide NextView, Distinct;
  }

  /**
   A new view starts clean.  The member takes its counters and its ring along and nothing
   else: it suspects nobody, is not wedged, has finished no trim, and has heard of nobody, so
   that it cannot leave the view before it has been wedged in it.
   */
  lemma InstalledClean(max: nat, m: Member)
    requires MemberShape(max, m) && m.next.Some? && ViewShape(max, m.next.value)
    ensures var p := Installed(max, m); var own, was := OwnRow(p.m), OwnRow(m); var me := p.m.view.myRank;
            && MemberShape(max, p.m) && p.m.view == m.next.value && p.m.next.None? && p.m.last == m.last
            && own == GmsRow(own.suspected, was.changes, was.nChanges, was.nCommitted, was.nAcked, false, false)
            && (forall r, q :: 0 <= r < |p.m.sst| && 0 <= q < max ==> !p.m.sst[r].suspected[q])
            && (forall r :: 0 <= r < |p.m.sst| ==> !p.m.sst[r].wedged && !p.m.sst[r].globalMinReady)
            && (forall r :: 0 <= r < |p.m.sst| && r != me ==> p.m.sst[r].nChanges == p.m.sst[r].nAcked == 0)
            && (p.m.joining == m.joining || (IsLeader(m.view) && |p.m.view.members| > |m.view.members| && p.m.joining.None?))
            && (IsLeader(m.view) && |p.m.view.members| > |m.view.members| ==> p.m.joining.None?)
            && (!p.m.view.failed[me] ==> !CanInstall(max, p.m) && !MetaWedged(p.m))
  {
  }

  /**
   Nobody leaves a view alone: when a member goes on to the next view, every other member it
   has not marked failed has put a wedged row in this one.
   */
  lemma AllWedgedBefore(G: Group, run: seq<System>, steps: seq<Step>, k: nat, id: nat, r: nat)
    requires IsRun(G, run, steps) && k < |steps| && G.first != []
    requires steps[k] == (if id == LeadId(G) then LeadInstalls else Installs(id)) && Running(G, run[k], id)
    requires var v := MemberOf(G, run[k], id).view; r < |v.members| && |v.members| == |v.failed| && !v.failed[r] && r != v.myRank
    ensures var v := MemberOf(G, run[k], id).view;
            exists put :: put in run[k].published && put.owner == v.members[r] && put.vid == v.vid && put.row.wedged
  {
    hide Base, IsRun, Window, Distinct, RowInv, ViewInv, NextInv;
    InstallRunStep(G, run, steps, k);
    RunBase(G, run, steps, k);
    RunningProc(G, run[k], id);
    var p := ProcOf(G, run[k], id);
    assert p.m.sst[r].wedged && r in p.heard;
    assert Put(p.m.view.members[r], p.m.view.vid, p.m.sst[r]) in run[k].published;
  }

  lemma InstallRunStep(G: Group, run: seq<System>, steps: seq<Step>, k: nat)
    requires IsRun(G, run, steps) && k < |steps|
    ensures |run| == |steps| + 1 && WellShaped(G, run[k]) && Enabled(G, run[k], steps[k])
  {
    hide Init, WellShaped, Enabled, Next;
  }
}
