/**
 The leader's accounts: while no view it installs hides a mark, its pending proposals match
 its marks, one to one, and its ring never overflows.
 */
module MembershipAccounts {
  import opened Collections
  import opened Messages
  import opened MembershipSpec
  import opened Membership
  import opened ChangeLog
  import opened LeaderSteps
  import opened ViewInstall
  import opened MembershipInv
  import opened FollowerSteps
  import opened MembershipSteps
  import opened MembershipKeeps

  // ---------------------------------------------------------------- the leader moves within a view

  /** Accounts that balance fit the ring, so the ring read back is the log they speak of. */
  lemma BalancedLog(max: nat, log: seq<nat>, log': seq<nat>, m: Member)
    requires LeadOk(max, log', m) && log <= log' && m.view.vid <= |log|
    ensures Extended(max, log, OwnRow(m)) == log'
  {
    hide Extended, Matched, Majority;
    RingSafe(max, log', m);
    LogIs(max, log, log', m);
  }

  lemma InvFacts(G: Group, S: System)
    requires Inv(G, S)
    ensures Base(G, S) && Settled(G, S) && G.first != [] && MemberShape(G.max, S.lead.m)
    ensures LeadOk(G.max, S.log, S.lead.m) && LeadNext(S.log, S.lead.m) && S.lead.m.view.vid <= |S.log|
    ensures S.lead.m.next.Some? ==> S.lead.m.view.vid < OwnRow(S.lead.m).nCommitted <= |S.log|
  {
    hide Base, Matched, Majority, Window;
    LeadFacts(G, S);
  }

  lemma NextMarksGrow(v: View, v': View, id: nat, r: nat)
    requires ViewsAgreeInSize(v) && MoreMarks(v, v') && r < |NextView(v, id).failed| && NextView(v, id).failed[r]
    ensures |NextView(v', id).failed| == |NextView(v, id).failed| && NextView(v', id).failed[r]
  {
  }

  lemma NextSizes(v: View, v': View, id: nat)
    requires ViewsAgreeInSize(v) && MoreMarks(v, v')
    ensures |NextView(v', id).failed| == |NextView(v, id).failed|
  {
  }

  lemma LeadNextGrows(log: seq<nat>, log': seq<nat>, m: Member, m': Member)
    requires LeadNext(log, m) && log <= log' && MoreMarks(m.view, m'.view) && m'.next == m.next
    requires |m'.sst| == |m.sst| && |m.view.members| == |m.view.failed|
    requires 0 <= m.view.myRank < |m.sst| && OwnRow(m').nCommitted == OwnRow(m).nCommitted
    ensures LeadNext(log', m')
  {
    hide Count;
    if m.next.Some? {
      var v, v', w := m.view, m'.view, m.next.value;
      var id := log[v.vid];
      forall r | 0 <= r < |w.failed| && w.failed[r] && r < |NextView(v', id).failed| ensures NextView(v', id).failed[r] {
        NextSizes(v, v', id);
        NextMarksGrow(v, v', id, r);
      }
    }
  }

  /** A trigger that leaves the commit point and the next view alone. */
  lemma SteadySettled(G: Group, S: System, m': Member, log': seq<nat>)
    requires Inv(G, S) && S.log <= log' && LeadOk(G.max, log', m') && LeadKept(S.lead.m, m')
    requires m'.next == S.lead.m.next && OwnRow(m').nCommitted == OwnRow(S.lead.m).nCommitted
    ensures G.first != [] && Settled(G, WithLead(G, S, m'))
  {
    hide Inv, LeadNext, Extended, Matched, Majority, Window, Distinct;
    InvFacts(G, S);
    BalancedLog(G.max, S.log, log', m');
    LeadNextGrows(S.log, log', S.lead.m, m');
  }

  lemma SuspicionSettled(G: Group, S: System)
    requires Inv(G, S) && MemberShape(G.max, S.lead.m) && Suspect(G.max, S.lead.m).Going?
    ensures G.first != [] && Settled(G, WithLead(G, S, Suspect(G.max, S.lead.m).value))
  {
    hide Inv, Base, Settled, LeadBase, Matched, Majority, WithLead, Suspect, LeadKept;
    InvFacts(G, S);
    LeadFacts(G, S);
    var log' := SuspectKeeps(G.max, S.log, S.lead.m);
    var other := SuspectBase(G.max, S.log, S.lead.m);
    SteadySettled(G, S, Suspect(G.max, S.lead.m).value, log');
  }

  lemma BeginSettled(G: Group, S: System)
    requires Inv(G, S) && MemberShape(G.max, S.lead.m) && HasLeader(S.lead.m) && CanStart(G.max, S.lead.m)
    requires Start(G.max, S.lead.m).Going?
    ensures G.first != [] && Settled(G, WithLead(G, S, Start(G.max, S.lead.m).value))
  {
    hide Inv, LeadNext, Extended, Matched, Majority, Window, Distinct, Start, NextView;
    InvFacts(G, S);
    LeadFacts(G, S);
    BeginsInLog(G, S);
    StartBase(G.max, S.log, S.lead.m);
    RingSafe(G.max, S.log, S.lead.m);
    var m' := Start(G.max, S.lead.m).value;
    BalancedLog(G.max, S.log, S.log, m');
    BegunNext(G.max, S.log, m');
  }

  lemma BegunNext(max: nat, log: seq<nat>, m: Member)
    requires LeadOk(max, log, m) && m.view.vid < OwnRow(m).nCommitted <= |log|
    requires m.next == Some(NextView(m.view, log[m.view.vid])) && m.next.value.myRank == 0
    ensures LeadNext(log, m)
  {
    hide Window, RankOf, Count;
    InstallMajority(log, m.view, m.joining.Some?);
    NextVid(m.view, log[m.view.vid]);
    NextShape(m.view, log[m.view.vid]);
    hide NextView;
  }

  lemma JoinSettled(G: Group, S: System, id: nat)
    requires Inv(G, S) && WellShaped(G, S) && Enabled(G, S, LeadJoins(id)) && ReceiveJoin(G.max, S.lead.m, id).Going?
    ensures Settled(G, WithLead(G, S, ReceiveJoin(G.max, S.lead.m, id).value))
  {
    hide Base, LeadNext, Extended, Matched, Majority, Window, Distinct, Synced;
    InvFacts(G, S);
    var m' := ReceiveJoin(G.max, S.lead.m, id).value;
    JoinKeeps(G.max, S.log, S.lead.m, id);
    BalancedLog(G.max, S.log, S.log + [id], m');
    LeadNextNone(S.log + [id], m');
  }

  lemma LeadNextNone(log: seq<nat>, m: Member)
    requires m.next.None?
    ensures LeadNext(log, m)
  {
  }

  lemma CommitSettled(G: Group, S: System)
    requires Inv(G, S) && MemberShape(G.max, S.lead.m) && S.lead.m.next.None? && CanCommit(G.max, S.lead.m)
    ensures G.first != [] && Settled(G, WithLead(G, S, Commit(G.max, S.lead.m)))
  {
    hide Inv, LeadNext, Extended, Matched, Majority, Window, Distinct, CanCommit, Commit;
    InvFacts(G, S);
    var m' := Commit(G.max, S.lead.m);
    CommitBase(G.max, S.log, S.lead.m);
    BalancedLog(G.max, S.log, S.log, m');
    LeadNextNone(S.log, m');
  }

  lemma LeadActsSettled(G: Group, S: System, act: Act)
    requires Inv(G, S) && WellShaped(G, S) && Enabled(G, S, LeadActs(act))
    ensures Settled(G, Next(G, S, LeadActs(act)))
  {
    hide Inv, Settled, LeadBase, Matched, Majority, WithLead, Suspect, ReportFailure, Ack, Commit, Start, CanCommit, CanAck,
         CanStart, Synced, LeadKept;
    InvFacts(G, S);
    HaltSettled(G, S);
    var m := S.lead.m;
    if Acted(G.max, m, act).Going? {
      var m' := Acted(G.max, m, act).value;
      match act
      case Report(rank) =>
        ReportBase(G.max, S.log, m, rank);
        SteadySettled(G, S, m', S.log);
      case Suspicion =>
        SuspicionSettled(G, S);
      case Acknowledge =>
        AckBase(G.max, S.log, m);
        SteadySettled(G, S, m', S.log);
        OthersSettled(G, WithLead(G, S, m'), Halfway(WithLead(G, S, m'), LeadId(G), m, m', act));
      case CommitChange =>
        CommitSettled(G, S);
      case BeginChange =>
        BeginSettled(G, S);
    }
  }

  lemma HaltSettled(G: Group, S: System)
    requires Settled(G, S)
    ensures Settled(G, S.(running := false))
  {
    hide LeadOk, LeadNext;
  }

  // ---------------------------------------------------------------- the leader hears and installs

  lemma HearsSettled(G: Group, S: System, put: Put)
    requires Inv(G, S) && WellShaped(G, S) && Enabled(G, S, LeadHears(put))
    ensures Settled(G, Next(G, S, LeadHears(put)))
  {
    hide Base, Matched, Majority, Window, RankOf, NextView;
    InvFacts(G, S);
    LeadFacts(G, S);
    HeardOwn(G.max, S.lead, put);
  }

  /** Nobody has been marked failed since the leader's change began. */
  predicate Clean(S: System)
    requires S.lead.m.next.Some? && S.lead.m.view.vid < |S.log|
    requires ViewsAgreeInSize(S.lead.m.view)
  {
    NoLateMarks(S.lead.m.view, S.lead.m.next.value, S.log[S.lead.m.view.vid])
  }

  /** When the leader installs a view, it has marked nobody failed since it fixed that view. */
  ghost predicate CleanStep(S: System, step: Step) {
    step.LeadInstalls? ==>
      S.lead.m.next.Some? && S.lead.m.view.vid < |S.log| && ViewsAgreeInSize(S.lead.m.view) && Clean(S)
  }

  lemma CleanNext(max: nat, log: seq<nat>, m: Member)
    requires LeadOk(max, log, m) && LeadNext(log, m) && m.next.Some? && m.view.vid < |log|
    requires NoLateMarks(m.view, m.next.value, log[m.view.vid])
    ensures m.next == Some(NextView(m.view, log[m.view.vid]))
  {
    hide Window, RankOf, Count;
    var v, id := m.view, log[m.view.vid];
    InstallMajority(log, v, m.joining.Some?);
    HeadKept(v.members, id);
    FirstRank(Changed(v.members, id));
    NextRank(v, id);
    NextVid(v, id);
  }

  lemma InstallSettled(G: Group, S: System)
    requires Inv(G, S) && WellShaped(G, S) && Enabled(G, S, LeadInstalls) && CleanStep(S, LeadInstalls)
    ensures Settled(G, AfterLeadInstall(G, S))
  {
    hide Inv, LeadNext, MetaWedged, LeadBase, Matched, Majority, Welcomed;
    InvFacts(G, S);
    CleanNext(G.max, S.log, S.lead.m);
    InstallKeeps(G.max, S.log, S.lead.m);
    LeadNextNone(S.log, Installed(G.max, S.lead.m).m);
  }

  // ---------------------------------------------------------------- all steps

  /** The accounts speak of nobody but the leader. */
  lemma OthersSettled(G: Group, S: System, S': System)
    requires Settled(G, S) && S'.log == S.log && S'.lead == S.lead
    ensures Settled(G, S')
  {
    hide LeadOk, LeadNext;
  }

  lemma SettledStep(G: Group, S: System, step: Step)
    requires Inv(G, S) && WellShaped(G, S) && Enabled(G, S, step) && CleanStep(S, step)
    ensures Settled(G, Next(G, S, step))
  {
    hide Base, Settled, WellShaped, Synced, MayAct, CanHear, CanInstall, Acted, Heard, AfterLeadInstall, StartedJoiner, WithLead,
         Installed, Clean, ReceiveJoin;
    match step
    case LeadActs(act) => LeadActsSettled(G, S, act);
    case LeadJoins(id) =>
      InvFacts(G, S);
      HaltSettled(G, S);
      if ReceiveJoin(G.max, S.lead.m, id).Going? {
        JoinSettled(G, S, id);
      }
    case LeadHears(put) => HearsSettled(G, S, put);
    case LeadInstalls => InstallSettled(G, S);
    case _ => OthersSettled(G, S, Next(G, S, step));
  }

  /** A step that hides no mark keeps the accounts. */
  lemma StepInv(G: Group, S: System, step: Step)
    requires Inv(G, S) && WellShaped(G, S) && Enabled(G, S, step) && CleanStep(S, step)
    ensures Inv(G, Next(G, S, step))
  {
    hide Base, WellShaped, Enabled, Next, LeadOk, LeadNext, CleanStep;
    SettledStep(G, S, step);
    BaseStep(G, S, step);
  }

  /** And a step that hides one breaks them: nothing else does. */
  lemma UncleanBreaks(G: Group, S: System, step: Step)
    requires Inv(G, S) && WellShaped(G, S) && Enabled(G, S, step) && !CleanStep(S, step)
    ensures var m := Next(G, S, step).lead.m;
            m.view.vid <= |S.log| && |m.view.members| == |m.view.failed| && !Matched(S.log, m.view, m.joining.Some?)
  {
    hide Base, MetaWedged, Window, Matched, Majority, Distinct, Welcomed, FreshTable;
    InvFacts(G, S);
    LeadFacts(G, S);
    var m := S.lead.m;
    hide LeadBase;
    MatchedIffNoLateMarks(S.log, m.view, m.next.value, m.joining.Some?);
    NextShape(m.view, S.log[m.view.vid]);
    LeadsItself(m.view);
  }
}
