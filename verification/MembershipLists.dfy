/** Agreement on member lists: exactly when members that leave the same view read the same change. */
module MembershipLists {
  import opened Collections
  import opened Messages
  import opened MembershipSpec
  import opened Membership
  import opened ChangeLog
  import opened LeaderSteps
  import opened ViewInstall
  import opened MembershipInv
  import opened FollowerSteps
  import opened MembershipSteps
  import opened MembershipKeeps
  import opened MembershipAccounts
  import opened MembershipRuns

  // ---------------------------------------------------------------- views by a choice of changes

  /** The members of view v when each view u is left by the change c(u). */
  function ListBy(first: seq<nat>, c: nat -> nat, v: nat): seq<nat> {
    if v == 0 then first else Changed(ListBy(first, c, v - 1), c(v - 1))
  }

  predicate Follows(G: Group, c: nat -> nat, v: View) {
    v.members == ListBy(G.first, c, v.vid)
  }

  /** So does a member's view, and the view it is changing to. */
  predicate InStep(G: Group, c: nat -> nat, m: Member) {
    Follows(G, c, m.view) && (m.next.Some? ==> Follows(G, c, m.next.value))
  }

  predicate AllFollow(G: Group, c: nat -> nat, S: System) {
    && InStep(G, c, S.lead.m)
    && (forall id :: id in S.followers ==> InStep(G, c, S.followers[id].m))
    && (forall id :: id in S.waiting ==> Follows(G, c, S.waiting[id]))
  }

  /** The member that begins a change at this step, as it was before. */
  function Beginner(G: Group, S: System, step: Step): (o: Option<Member>)
    requires WellShaped(G, S) && Enabled(G, S, step)
    ensures o.Some? ==> MemberShape(G.max, o.value) && Start(G.max, o.value).Going?
  {
    match step
    case LeadActs(act) => if act.BeginChange? && Start(G.max, S.lead.m).Going? then Some(S.lead.m) else None
    case Acts(id, act) =>
      if act.BeginChange? && Start(G.max, S.followers[id].m).Going? then Some(S.followers[id].m) else None
    case _ => None
  }

  /** If a change begins at this step, it is the one chosen for that view. */
  predicate Chosen(G: Group, c: nat -> nat, S: System, step: Step)
    requires WellShaped(G, S) && Enabled(G, S, step)
  {
    var o := Beginner(G, S, step);
    o.Some? ==> CurrentChange(G.max, o.value) == c(o.value.view.vid)
  }

  // ---------------------------------------------------------------- what a member's own steps do to its lists

  lemma {:induction false} MarksSameList(max: nat, m: Member, q: nat)
    requires MemberShape(max, m) && q <= |m.view.members|
    ensures match MarkFrom(max, m, q)
            case Going(m') =>
              && m'.view == m.view.(failed := m'.view.failed, nFailed := m'.view.nFailed)
              && m'.next == m.next && m'.joining == m.joining
            case Halted(_) => true
    decreases |m.view.members| - q
  {
    hide RankOfLeader, ChangesContains;
    if q < |m.view.members| {
      if OwnRow(m).suspected[q] && !m.view.failed[q] {
        if MarkFailed(max, m, q).Going? {
          MarksSameList(max, MarkFailed(max, m, q).value, q + 1);
        }
      } else {
        MarksSameList(max, m, q + 1);
      }
    }
  }

  /** Only beginning a change touches the next view; nothing a member does alone touches the list of its own, or whom it serves. */
  lemma ActedLists(max: nat, m: Member, act: Act)
    requires MemberShape(max, m) && (act.Report? ==> act.rank < |m.view.members|) && (act.Acknowledge? ==> HasLeader(m))
    ensures match Acted(max, m, act)
            case Going(m') =>
              && m'.view.vid == m.view.vid && m'.view.members == m.view.members && m'.view.myRank == m.view.myRank
              && m'.next == (if act.BeginChange? then Some(NextView(m.view, CurrentChange(max, m))) else m.next)
              && m'.joining == m.joining
            case Halted(_) => true
  {
    hide MarkFrom, RankOfLeader;
    if act.Suspicion? {
      MarksSameList(max, Merged(max, m), 0);
    }
  }

  /** Different changes give different lists. */
  lemma ChangedOnce(members: seq<nat>, a: nat, b: nat)
    requires Distinct(members) && Changed(members, a) == Changed(members, b)
    ensures a == b
  {
    ChangedDistinct(members, a);
    ChangedDistinct(members, b);
    hide Changed;
    assert a in Changed(members, a) <==> a in Changed(members, b);
  }

  lemma NextFollowsIff(G: Group, c: nat -> nat, v: View, id: nat)
    requires ViewsAgreeInSize(v) && Distinct(v.members) && Follows(G, c, v)
    ensures Follows(G, c, NextView(v, id)) <==> id == c(v.vid)
  {
    hide Changed, RankOf;
    NextVid(v, id);
    if Changed(v.members, id) == Changed(v.members, c(v.vid)) {
      ChangedOnce(v.members, id, c(v.vid));
    }
  }

  /** A member's own step leaves its lists in step exactly if any change it begins is the chosen one. */
  lemma ActedInStepIff(G: Group, c: nat -> nat, m: Member, act: Act)
    requires MemberShape(G.max, m) && (act.Report? ==> act.rank < |m.view.members|) && (act.Acknowledge? ==> HasLeader(m))
    requires Distinct(m.view.members) && InStep(G, c, m) && Acted(G.max, m, act).Going?
    ensures InStep(G, c, Acted(G.max, m, act).value)
       <==> (act.BeginChange? ==> CurrentChange(G.max, m) == c(m.view.vid))
  {
    hide Acted, NextView, CurrentChange, ListBy;
    ActedLists(G.max, m, act);
    if act.BeginChange? {
      NextFollowsIff(G, c, m.view, CurrentChange(G.max, m));
    }
  }

  lemma BeginGoing(max: nat, m: Member)
    requires MemberShape(max, m)
    ensures Acted(max, m, BeginChange) == Start(max, m)
  {
  }

  // ---------------------------------------------------------------- every step

  lemma LeadActsFollow(G: Group, c: nat -> nat, S: System, act: Act)
    requires Base(G, S) && AllFollow(G, c, S) && WellShaped(G, S) && Enabled(G, S, LeadActs(act))
    ensures AllFollow(G, c, Next(G, S, LeadActs(act))) <==> Chosen(G, c, S, LeadActs(act))
  {
    hide Base, InStep, Follows, Acted, Extended, Synced, CanCommit, CanAck, Start, CurrentChange;
    LeadFacts(G, S);
    BeginGoing(G.max, S.lead.m);
    if Acted(G.max, S.lead.m, act).Going? {
      ActedInStepIff(G, c, S.lead.m, act);
    }
  }

  lemma ActsFollow(G: Group, c: nat -> nat, S: System, id: nat, act: Act)
    requires Base(G, S) && AllFollow(G, c, S) && WellShaped(G, S) && Enabled(G, S, Acts(id, act))
    ensures AllFollow(G, c, Next(G, S, Acts(id, act))) <==> Chosen(G, c, S, Acts(id, act))
  {
    hide Base, WellShaped, Enabled, Next, InStep, Follows, Acted, Synced, NewlySuspected, CanCommit, CanAck, CanStart, Start, CurrentChange;
    ActsAlone(G, S, id, act);
    FollowerFacts(G, S, id);
    BeginGoing(G.max, S.followers[id].m);
    if Acted(G.max, S.followers[id].m, act).Going? {
      ActedInStepIff(G, c, S.followers[id].m, act);
      assert Next(G, S, Acts(id, act)).followers[id].m == Acted(G.max, S.followers[id].m, act).value;
    }
  }

  lemma OthersFollow(G: Group, c: nat -> nat, S: System, step: Step)
    requires AllFollow(G, c, S) && WellShaped(G, S) && Enabled(G, S, step) && !step.LeadActs? && !step.Acts?
    ensures AllFollow(G, c, Next(G, S, step))
  {
    hide ListBy, Extended, Synced, RankOf, MetaWedged;
  }

  /** Lists stay those of the choice at every step but one that begins another change. */
  lemma FollowStepIff(G: Group, c: nat -> nat, S: System, step: Step)
    requires Base(G, S) && AllFollow(G, c, S) && WellShaped(G, S) && Enabled(G, S, step)
    ensures AllFollow(G, c, Next(G, S, step)) <==> Chosen(G, c, S, step)
  {
    hide Base, AllFollow, WellShaped, Enabled, Next, CurrentChange;
    match step
    case LeadActs(act) => LeadActsFollow(G, c, S, act);
    case Acts(id, act) => ActsFollow(G, c, S, id, act);
    case _ => OthersFollow(G, c, S, step);
  }

  // ---------------------------------------------------------------- every run

  ghost predicate ChosenRun(G: Group, c: nat -> nat, run: seq<System>, steps: seq<Step>)
    requires IsRun(G, run, steps)
  {
    forall k :: 0 <= k < |steps| ==> Chosen(G, c, run[k], steps[k])
  }

  lemma {:induction false} ChosenFollows(G: Group, c: nat -> nat, run: seq<System>, steps: seq<Step>, k: nat)
    requires IsRun(G, run, steps) && ChosenRun(G, c, run, steps) && k < |run|
    ensures AllFollow(G, c, run[k])
    decreases k
  {
    hide Base, WellShaped, Enabled, Next, Chosen, RankOf;
    if k > 0 {
      ChosenFollows(G, c, run, steps, k - 1);
      RunBase(G, run, steps, k - 1);
      assert Chosen(G, c, run[k - 1], steps[k - 1]);
      hide Init, AllFollow;
      FollowStepIff(G, c, run[k - 1], steps[k - 1]);
    }
  }

  /** The view is one that somebody holds: it is in it, changing to it, or yet to start in it. */
  ghost predicate Held(S: System, v: View) {
    || v == S.lead.m.view || S.lead.m.next == Some(v)
    || (exists id :: id in S.followers && (v == S.followers[id].m.view || S.followers[id].m.next == Some(v)))
    || (exists id :: id in S.waiting && v == S.waiting[id])
  }

  lemma HeldFollows(G: Group, c: nat -> nat, S: System, v: View)
    requires AllFollow(G, c, S) && Held(S, v)
    ensures Follows(G, c, v)
  {
    hide ListBy;
  }

  /** Any two views with one number, whenever and by whomever they are held, list the same members in the same order. */
  ghost predicate Agreeing(run: seq<System>) {
    forall a, b, v, w :: 0 <= a < |run| && 0 <= b < |run| && Held(run[a], v) && Held(run[b], w) && v.vid == w.vid
                         ==> v.members == w.members
  }

  /** At step k a member leaves view u by the change x. */
  ghost predicate Leaves(G: Group, run: seq<System>, steps: seq<Step>, k: nat, u: nat, x: nat) {
    && IsRun(G, run, steps) && k < |steps|
    && var o := Beginner(G, run[k], steps[k]);
       o.Some? && o.value.view.vid == u && CurrentChange(G.max, o.value) == x
  }

  /** Members that leave the same view leave it by the same change. */
  ghost predicate SameChanges(G: Group, run: seq<System>, steps: seq<Step>) {
    forall a: nat, b: nat, u: nat, x: nat, y: nat :: Leaves(G, run, steps, a, u, x) && Leaves(G, run, steps, b, u, y) ==> x == y
  }

  /** The change by which view u is left in the run, if it is. */
  ghost function ChangeOf(G: Group, run: seq<System>, steps: seq<Step>, u: nat): (x: nat)
    ensures (exists k: nat, y: nat :: Leaves(G, run, steps, k, u, y)) ==> exists k: nat :: Leaves(G, run, steps, k, u, x)
  {
    if exists x: nat, k: nat :: Leaves(G, run, steps, k, u, x) then
      var x: nat, k: nat :| Leaves(G, run, steps, k, u, x);
      x
    else 0
  }

  lemma SameChangesChosen(G: Group, run: seq<System>, steps: seq<Step>, c: nat -> nat)
    requires IsRun(G, run, steps) && SameChanges(G, run, steps)
    requires forall u :: c(u) == ChangeOf(G, run, steps, u)
    ensures ChosenRun(G, c, run, steps)
  {
    hide Init, WellShaped, Enabled, Next, Beginner, CurrentChange;
    forall k | 0 <= k < |steps| ensures Chosen(G, c, run[k], steps[k]) {
      var o := Beginner(G, run[k], steps[k]);
      if o.Some? {
        assert Leaves(G, run, steps, k, o.value.view.vid, CurrentChange(G.max, o.value));
      }
    }
  }

  /** Members that all follow one choice agree. */
  lemma ChosenAgree(G: Group, c: nat -> nat, run: seq<System>, steps: seq<Step>)
    requires IsRun(G, run, steps) && ChosenRun(G, c, run, steps)
    ensures Agreeing(run)
  {
    hide IsRun, Held, AllFollow, ChosenRun;
    forall a, b, v, w | 0 <= a < |run| && 0 <= b < |run| && Held(run[a], v) && Held(run[b], w) && v.vid == w.vid
      ensures v.members == w.members
    {
      ChosenFollows(G, c, run, steps, a);
      ChosenFollows(G, c, run, steps, b);
      HeldFollows(G, c, run[a], v);
      HeldFollows(G, c, run[b], w);
    }
  }

  /** Whoever begins a change holds its view before, and the changed view after. */
  lemma BeginnerHolds(G: Group, S: System, step: Step)
    requires Base(G, S) && WellShaped(G, S) && Enabled(G, S, step) && Beginner(G, S, step).Some?
    ensures var m := Beginner(G, S, step).value;
            && Held(S, m.view) && Held(Next(G, S, step), NextView(m.view, CurrentChange(G.max, m)))
            && Distinct(m.view.members)
  {
    hide Base, Synced, CanCommit, CanAck, CanStart, RankOf, NextView, Extended, Distinct;
    LeadFacts(G, S);
    if step.Acts? {
      FollowerFacts(G, S, step.id);
      assert step.id in Next(G, S, step).followers;
    }
  }

  lemma AgreeingSameChange(G: Group, run: seq<System>, steps: seq<Step>, a: nat, b: nat, u: nat, x: nat, y: nat)
    requires IsRun(G, run, steps) && Agreeing(run)
    requires Leaves(G, run, steps, a, u, x) && Leaves(G, run, steps, b, u, y)
    ensures x == y
  {
    hide Base, Init, WellShaped, Enabled, Next, Held, Beginner, CurrentChange, NextView, Distinct;
    RunBase(G, run, steps, a);
    RunBase(G, run, steps, b);
    BeginnerHolds(G, run[a], steps[a]);
    BeginnerHolds(G, run[b], steps[b]);
    var v, w := Beginner(G, run[a], steps[a]).value.view, Beginner(G, run[b], steps[b]).value.view;
    NextVid(v, x);
    NextVid(w, y);
    assert Held(run[a], v) && Held(run[b], w);
    assert Held(run[a + 1], NextView(v, x)) && Held(run[b + 1], NextView(w, y));
    ChangedOnce(v.members, x, y);
  }

  /**
   Agreement on views, exactly.  In a run any two views with one number list the same
   members in the same order if and only if any two members that leave the same view read
   the same change for it from their own rings.
   */
  lemma AgreeingIffSameChanges(G: Group, run: seq<System>, steps: seq<Step>)
    requires IsRun(G, run, steps)
    ensures Agreeing(run) <==> SameChanges(G, run, steps)
  {
    hide IsRun, Held, Leaves, AllFollow, Follows, ChosenRun;
    if Agreeing(run) {
      forall a: nat, b: nat, u: nat, x: nat, y: nat | Leaves(G, run, steps, a, u, x) && Leaves(G, run, steps, b, u, y) ensures x == y {
        AgreeingSameChange(G, run, steps, a, b, u, x, y);
      }
    } else if SameChanges(G, run, steps) {
      var c: nat -> nat := (u: nat) => ChangeOf(G, run, steps, u);
      SameChangesChosen(G, run, steps, c);
      ChosenAgree(G, c, run, steps);
    }
  }

  // ---------------------------------------------------------------- the choice the log makes

  /** Each view is left by the proposal of its number. */
  function LogChoice(log: seq<nat>): nat -> nat {
    (v: nat) => if v < |log| then log[v] else 0
  }

  lemma {:induction false} ListByLog(first: seq<nat>, log: seq<nat>, v: nat)
    requires v <= |log|
    ensures ListBy(first, LogChoice(log), v) == MembersAt(first, log, v)
    decreases v
  {
    hide Changed;
    if v > 0 {
      ListByLog(first, log, v - 1);
    }
  }

  /** The member's ring still has the proposal its view calls for, or the one written over it names the same node. */
  predicate ReadsRight(max: nat, log: seq<nat>, m: Member)
    requires 0 <= m.view.myRank < |m.sst|
  {
    var v, n := m.view.vid, OwnRow(m).nChanges;
    max > 0 && v < n <= |log| && (n > v + max ==> log[Top(max, v, n)] == log[v])
  }

  /** Nobody begins a change whose proposal has been written over by another node's. */
  ghost predicate SoundRun(G: Group, run: seq<System>, steps: seq<Step>)
    requires IsRun(G, run, steps)
  {
    forall k :: 0 <= k < |steps| ==>
      var o := Beginner(G, run[k], steps[k]);
      o.Some? ==> ReadsRight(G.max, run[k].log, o.value)
  }

  /** Whoever begins a change has heard of the proposal its view calls for. */
  lemma BeginnerKnows(G: Group, S: System, step: Step)
    requires Base(G, S) && WellShaped(G, S) && Enabled(G, S, step) && Beginner(G, S, step).Some?
    ensures var m := Beginner(G, S, step).value;
            Window(G.max, S.log, OwnRow(m)) && m.view.vid < OwnRow(m).nChanges <= |S.log|
  {
    hide Base, Window, NextInv, TableInv, Distinct, CanCommit, Start;
    LeadFacts(G, S);
    if step.LeadActs? {
      BeginsInLog(G, S);
    } else {
      FollowerFacts(G, S, step.id);
      AllPutsRowInv(G, S);
      SeenRowInv(G, S.log, S.published, step.id, S.followers[step.id], 0);
    }
    WindowBound(G.max, S.log, OwnRow(Beginner(G, S, step).value));
  }

  lemma WindowBound(max: nat, log: seq<nat>, r: GmsRow)
    requires RingShape(max, r) && Window(max, log, r)
    ensures r.nChanges <= |log|
  {
  }

  lemma ChosenIffRight(G: Group, S: System, step: Step, log: seq<nat>)
    requires Base(G, S) && WellShaped(G, S) && Enabled(G, S, step) && S.log <= log
    ensures Chosen(G, LogChoice(log), S, step)
       <==> (Beginner(G, S, step).Some? ==> ReadsRight(G.max, S.log, Beginner(G, S, step).value))
  {
    hide Base, WellShaped, Enabled, Beginner, CurrentChange, Window;
    var o := Beginner(G, S, step);
    if o.Some? {
      BeginnerKnows(G, S, step);
      ReadsTop(G.max, S.log, o.value);
    }
  }

  /** Every view held lists what the log makes of the first view. */
  ghost predicate Listed(G: Group, run: seq<System>, log: seq<nat>) {
    forall a, v :: 0 <= a < |run| && Held(run[a], v) ==> v.vid <= |log| && v.members == MembersAt(G.first, log, v.vid)
  }

  lemma HeldVid(G: Group, S: System, v: View)
    requires Base(G, S) && Held(S, v)
    ensures v.vid <= |S.log|
  {
    hide LeadBase, PublishedInv, TableInv;
    LeadFacts(G, S);
  }

  lemma SoundIffChosen(G: Group, run: seq<System>, steps: seq<Step>)
    requires IsRun(G, run, steps)
    ensures SoundRun(G, run, steps) <==> ChosenRun(G, LogChoice(run[|steps|].log), run, steps)
  {
    hide Init, WellShaped, Enabled, Next, Base, Beginner, Chosen, ReadsRight, LogChoice;
    forall k | 0 <= k < |steps|
      ensures Chosen(G, LogChoice(run[|steps|].log), run[k], steps[k])
         <==> (Beginner(G, run[k], steps[k]).Some? ==> ReadsRight(G.max, run[k].log, Beginner(G, run[k], steps[k]).value))
    {
      RunBase(G, run, steps, k);
      RunLog(G, run, steps, k, |steps|);
      ChosenIffRight(G, run[k], steps[k], run[|steps|].log);
    }
  }

  lemma HeldOfLog(G: Group, run: seq<System>, steps: seq<Step>, a: nat, v: View)
    requires IsRun(G, run, steps) && a < |run| && Held(run[a], v)
    ensures v.vid <= |run[|steps|].log|
    ensures Follows(G, LogChoice(run[|steps|].log), v) <==> v.members == MembersAt(G.first, run[|steps|].log, v.vid)
  {
    hide Init, WellShaped, Enabled, Next, Base, Held, MembersAt, ListBy, LogChoice;
    RunBase(G, run, steps, a);
    RunLog(G, run, steps, a, |steps|);
    HeldVid(G, run[a], v);
    ListByLog(G.first, run[|steps|].log, v.vid);
  }

  /** A beginner whose views before and after are the log's has read the log's change. */
  lemma ListedChosen(G: Group, run: seq<System>, steps: seq<Step>, k: nat)
    requires IsRun(G, run, steps) && k < |steps| && Listed(G, run, run[|steps|].log)
    ensures Chosen(G, LogChoice(run[|steps|].log), run[k], steps[k])
  {
    hide Init, WellShaped, Enabled, Next, Base, Held, Beginner, CurrentChange, NextView, Distinct, LogChoice, MembersAt, ListBy;
    var o := Beginner(G, run[k], steps[k]);
    if o.Some? {
      var v, x := o.value.view, CurrentChange(G.max, o.value);
      RunBase(G, run, steps, k);
      BeginnerHolds(G, run[k], steps[k]);
      HeldOfLog(G, run, steps, k, v);
      HeldOfLog(G, run, steps, k + 1, NextView(v, x));
      NextFollowsIff(G, LogChoice(run[|steps|].log), v, x);
    }
  }

  /**
   And exactly: all views held in a run are those of the leader's log, the first view's
   members with each proposal removing one or adding one at the end, if and only if nobody
   begins a change whose proposal has been written over by another node's.
   */
  lemma ListedIffSound(G: Group, run: seq<System>, steps: seq<Step>)
    requires IsRun(G, run, steps)
    ensures Listed(G, run, run[|steps|].log) <==> SoundRun(G, run, steps)
  {
    hide Init, WellShaped, Enabled, Next, Held, MembersAt, Beginner, Chosen, LogChoice, SoundRun, Follows, AllFollow;
    var log := run[|steps|].log;
    SoundIffChosen(G, run, steps);
    if ChosenRun(G, LogChoice(log), run, steps) {
      forall a, v | 0 <= a < |run| && Held(run[a], v) ensures v.vid <= |log| && v.members == MembersAt(G.first, log, v.vid) {
        ChosenFollows(G, LogChoice(log), run, steps, a);
        HeldFollows(G, LogChoice(log), run[a], v);
        HeldOfLog(G, run, steps, a, v);
      }
    } else if Listed(G, run, log) {
      forall k | 0 <= k < |steps| ensures Chosen(G, LogChoice(log), run[k], steps[k]) {
        ListedChosen(G, run, steps, k);
      }
    }
  }

  /** So in such a run any two members in the view of one number have the same list, the log's. */
  lemma ViewsAgree(G: Group, run: seq<System>, steps: seq<Step>, a: nat, p: nat, b: nat, q: nat)
    requires IsRun(G, run, steps) && SoundRun(G, run, steps) && a < |run| && b < |run| && G.first != []
    requires Running(G, run[a], p) && Running(G, run[b], q)
    requires MemberOf(G, run[a], p).view.vid == MemberOf(G, run[b], q).view.vid
    ensures MemberOf(G, run[a], p).view.members == MemberOf(G, run[b], q).view.members
    ensures var v := MemberOf(G, run[a], p).view;
            v.vid <= |run[|steps|].log| && v.members == MembersAt(G.first, run[|steps|].log, v.vid)
  {
    hide IsRun, SoundRun, MembersAt;
    RunSize(G, run, steps);
    ListedIffSound(G, run, steps);
    assert Held(run[a], MemberOf(G, run[a], p).view) && Held(run[b], MemberOf(G, run[b], q).view);
  }

  lemma RunSize(G: Group, run: seq<System>, steps: seq<Step>)
    requires IsRun(G, run, steps)
    ensures |run| == |steps| + 1
  {
  }
}
