/** What a member does when its transport reports that another is gone, in every run. */
module Reports {
  import opened Collections
  import opened Messages
  import opened MembershipSpec
  import opened Membership
  import opened ChangeLog
  import opened MembershipInv
  import opened MembershipSteps
  import opened MembershipKeeps
  import opened MembershipRuns

  /** The ranks a row suspects. */
  function SuspectsOf(row: GmsRow): (s: set<nat>)
    ensures forall r: nat :: r in s <==> r < |row.suspected| && row.suspected[r]
  {
    set r: nat | r < |row.suspected| && row.suspected[r]
  }

  /** Counting marks counts the places marked. */
  lemma {:induction false} CountIsSize(f: seq<bool>)
    ensures Count(f) == |set r: nat | r < |f| && f[r]|
    decreases |f|
  {
    var marked := set r: nat | r < |f| && f[r];
    if f == [] {
      assert marked == {};
    } else {
      var front, last := f[..|f| - 1], |f| - 1;
      CountIsSize(front);
      var before := set r: nat | r < |front| && front[r];
      assert marked == if f[last] then before + {last} else before;
    }
  }

  /**
   A report, exactly.  The member adds the one rank to those its own row suspects, and goes
   on if and only if these are less than half of its view; otherwise it stops, no longer
   sure to be in the majority.
   */
  lemma ReportGoesOnIff(max: nat, m: Member, rank: nat)
    requires MemberShape(max, m) && rank < |m.view.members|
    ensures match ReportFailure(max, m, rank)
            case Going(m') =>
              && 2 * |SuspectsOf(OwnRow(m)) + {rank}| < |m.view.members|
              && MemberShape(max, m') && SuspectsOf(OwnRow(m')) == SuspectsOf(OwnRow(m)) + {rank}
              && m' == SetOwn(m, OwnRow(m).(suspected := OwnRow(m').suspected))
            case Halted(why) => why == NotInMajority && 2 * |SuspectsOf(OwnRow(m)) + {rank}| >= |m.view.members|
  {
    var suspected := OwnRow(m).suspected[rank := true];
    CountIsSize(suspected);
    assert (set r: nat | r < |suspected| && suspected[r]) == SuspectsOf(OwnRow(m)) + {rank};
  }

  /** So in every run a follower that goes on after a report suspects a minority, the one reported among them; and it stops only if it would not. */
  lemma FollowerReported(G: Group, run: seq<System>, steps: seq<Step>, k: nat, id: nat, rank: nat)
    requires IsRun(G, run, steps) && k < |steps| && steps[k] == Acts(id, Report(rank))
    ensures id in run[k].followers && MemberShape(G.max, run[k].followers[id].m) && rank < |run[k].followers[id].m.view.members|
    ensures var m := run[k].followers[id].m; var named := SuspectsOf(OwnRow(m)) + {rank};
            && (id in run[k + 1].followers <==> 2 * |named| < |m.view.members|)
            && (id in run[k + 1].followers ==>
                  var m' := run[k + 1].followers[id].m;
                  && MemberShape(G.max, m') && m'.view == m.view && SuspectsOf(OwnRow(m')) == named
                  && Put(id, m'.view.vid, OwnRow(m')) in run[k + 1].published)
            && run[k + 1].lead == run[k].lead && run[k + 1].followers - {id} == run[k].followers - {id}
  {
    hide Init, ReportFailure, SuspectsOf, RingShape;
    assert Enabled(G, run[k], steps[k]) && run[k + 1] == Next(G, run[k], steps[k]);
    ReportGoesOnIff(G.max, run[k].followers[id].m, rank);
  }

  lemma LeaderReported(G: Group, run: seq<System>, steps: seq<Step>, k: nat, rank: nat)
    requires IsRun(G, run, steps) && k < |steps| && steps[k] == LeadActs(Report(rank))
    ensures run[k].running && MemberShape(G.max, run[k].lead.m) && rank < |run[k].lead.m.view.members| && G.first != []
    ensures var m, m' := run[k].lead.m, run[k + 1].lead.m; var named := SuspectsOf(OwnRow(m)) + {rank};
            && (run[k + 1].running <==> 2 * |named| < |m.view.members|)
            && (run[k + 1].running ==>
                  && MemberShape(G.max, m') && m'.view == m.view && SuspectsOf(OwnRow(m')) == named
                  && Put(LeadId(G), m'.view.vid, OwnRow(m')) in run[k + 1].published)
            && run[k + 1].followers == run[k].followers
  {
    hide Init, ReportFailure, SuspectsOf, RingShape, Extended;
    assert Enabled(G, run[k], steps[k]) && run[k + 1] == Next(G, run[k], steps[k]);
    ReportGoesOnIff(G.max, run[k].lead.m, rank);
  }
}
