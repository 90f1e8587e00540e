/** All lives have the same changes, all of them the leader's proposals, and no two members of a view mark it away between them. */
module NoSplit {
  import opened Collections
  import opened Messages
  import opened MembershipSpec
  import opened Membership
  import opened ChangeLog
  import opened LeaderSteps
  import opened ViewInstall
  import opened MembershipInv
  import opened FollowerSteps
  import opened MembershipSteps
  import opened MembershipKeeps
  import opened MembershipAccounts
  import opened MembershipRuns
  import opened MembershipLists
  import opened Moves
  import opened MembershipLives

  // ---------------------------------------------------------------- the changes of a life

  /** Change number j of the moves is one that R allows, for each of the n of them. */
  ghost predicate ChangesBy(R: (nat, nat) -> bool, moves: seq<Move>, n: nat) {
    |Changes(moves)| == n && forall j :: 0 <= j < n ==> R(j, Changes(moves)[j])
  }

  ghost predicate LifeBy(R: (nat, nat) -> bool, m: Member, life: Life) {
    ChangesBy(R, life.moves, m.view.vid) && (m.next.Some? ==> ChangesBy(R, life.fixed, m.next.value.vid))
  }

  ghost predicate AllBy(R: (nat, nat) -> bool, S: System, L: Lives) {
    && Recorded(S, L) && LifeBy(R, S.lead.m, L.lead)
    && (forall id :: id in S.followers ==> LifeBy(R, S.followers[id].m, L.followers[id]))
    && (forall id :: id in S.waiting ==> ChangesBy(R, L.waiting[id].moves, S.waiting[id].vid))
  }

  lemma ActedBy(max: nat, R: (nat, nat) -> bool, m: Member, life: Life, act: Act)
    requires MemberShape(max, m) && (act.Report? ==> act.rank < |m.view.members|) && (act.Acknowledge? ==> HasLeader(m))
    requires Acted(max, m, act).Going? && LifeBy(R, m, life)
    requires act.BeginChange? ==> R(m.view.vid, CurrentChange(max, m))
    ensures LifeBy(R, Acted(max, m, act).value, LifeActed(max, m, life, act))
  {
    hide Acted, NextView, CurrentChange, NewMarks, CanMoveOn, MovedOn, Changes;
    ActedLists(max, m, act);
    ActedMoves(max, m, act);
    if act.BeginChange? {
      NextVid(m.view, CurrentChange(max, m));
      OneChange(CurrentChange(max, m));
      ChangesJoin(life.moves, [Change(CurrentChange(max, m))]);
    } else {
      var marks := NewMarks(m.view.failed, Acted(max, m, act).value.view.failed, 0);
      NewMarksMark(m.view.failed, Acted(max, m, act).value.view.failed, 0);
      MarksChangeNothing(marks);
      ChangesJoin(life.moves, marks);
    }
  }

  lemma ByStep(G: Group, R: (nat, nat) -> bool, S: System, L: Lives, step: Step)
    requires WellShaped(G, S) && Enabled(G, S, step) && AllBy(R, S, L)
    requires var o := Beginner(G, S, step); o.Some? ==> R(o.value.view.vid, CurrentChange(G.max, o.value))
    ensures AllBy(R, Next(G, S, step), LivesAfter(G, S, L, step))
  {
    hide WellShaped, Enabled, Next, LivesAfter, Beginner, CurrentChange, AllBy;
    match step
    case LeadActs(act) => LeadActsBy(G, R, S, L, act);
    case Acts(id, act) => ActsBy(G, R, S, L, id, act);
    case _ => OthersBy(G, R, S, L, step);
  }

  lemma LeadActsBy(G: Group, R: (nat, nat) -> bool, S: System, L: Lives, act: Act)
    requires WellShaped(G, S) && Enabled(G, S, LeadActs(act)) && AllBy(R, S, L)
    requires var o := Beginner(G, S, LeadActs(act)); o.Some? ==> R(o.value.view.vid, CurrentChange(G.max, o.value))
    ensures AllBy(R, Next(G, S, LeadActs(act)), LivesAfter(G, S, L, LeadActs(act)))
  {
    hide Acted, Start, CurrentChange, LifeActed, Synced, CanAck, CanCommit, CanStart, LifeBy, ChangesBy, RingShape, Extended;
    BeginGoing(G.max, S.lead.m);
    if Acted(G.max, S.lead.m, act).Going? {
      ActedBy(G.max, R, S.lead.m, L.lead, act);
    } else {
      HaltedLife(G.max, S.lead.m, L.lead, act);
    }
  }

  lemma HaltedLife(max: nat, m: Member, life: Life, act: Act)
    requires MemberShape(max, m) && (act.Report? ==> act.rank < |m.view.members|) && (act.Acknowledge? ==> HasLeader(m))
    requires Acted(max, m, act).Halted?
    ensures LifeActed(max, m, life, act) == life
  {
    hide Acted;
  }

  lemma ActsBy(G: Group, R: (nat, nat) -> bool, S: System, L: Lives, id: nat, act: Act)
    requires WellShaped(G, S) && Enabled(G, S, Acts(id, act)) && AllBy(R, S, L)
    requires var o := Beginner(G, S, Acts(id, act)); o.Some? ==> R(o.value.view.vid, CurrentChange(G.max, o.value))
    ensures AllBy(R, Next(G, S, Acts(id, act)), LivesAfter(G, S, L, Acts(id, act)))
  {
    hide Acted, Start, CurrentChange, LifeActed, Synced, CanAck, CanCommit, CanStart, LifeBy, ChangesBy, RingShape;
    RecordedStep(G, S, L, Acts(id, act));
    BeginGoing(G.max, S.followers[id].m);
    if Acted(G.max, S.followers[id].m, act).Going? {
      ActedBy(G.max, R, S.followers[id].m, L.followers[id], act);
    }
  }

  lemma OthersBy(G: Group, R: (nat, nat) -> bool, S: System, L: Lives, step: Step)
    requires WellShaped(G, S) && Enabled(G, S, step) && AllBy(R, S, L) && !step.LeadActs? && !step.Acts?
    ensures AllBy(R, Next(G, S, step), LivesAfter(G, S, L, step))
  {
    hide WellShaped, Enabled, Next, LivesAfter, LifeBy, ChangesBy;
    RecordedStep(G, S, L, step);
    match step
    case LeadInstalls => LeadInstallsBy(G, R, S, L);
    case Installs(id) => InstallsBy(G, R, S, L, id);
    case JoinerStarts(id, put) => StartsBy(G, R, S, L, id, put);
    case LeadJoins(_) => LeadQuietBy(G, R, S, L, step);
    case LeadHears(_) => LeadQuietBy(G, R, S, L, step);
    case _ => QuietBy(G, R, S, L, step);
  }

  lemma LeadQuietBy(G: Group, R: (nat, nat) -> bool, S: System, L: Lives, step: Step)
    requires WellShaped(G, S) && Enabled(G, S, step) && AllBy(R, S, L) && (step.LeadJoins? || step.LeadHears?)
    ensures AllBy(R, Next(G, S, step), LivesAfter(G, S, L, step))
  {
    hide ChangesBy, Extended, Synced, RankOf, ChangesContains, RingShape;
  }

  lemma QuietBy(G: Group, R: (nat, nat) -> bool, S: System, L: Lives, step: Step)
    requires WellShaped(G, S) && Enabled(G, S, step) && AllBy(R, S, L) && (step.Hears? || step.Crash?)
    ensures AllBy(R, Next(G, S, step), LivesAfter(G, S, L, step))
  {
    hide ChangesBy, RankOf, RingShape;
    RecordedStep(G, S, L, step);
  }

  lemma LeadInstallsBy(G: Group, R: (nat, nat) -> bool, S: System, L: Lives)
    requires WellShaped(G, S) && Enabled(G, S, LeadInstalls) && AllBy(R, S, L)
    ensures AllBy(R, Next(G, S, LeadInstalls), LivesAfter(G, S, L, LeadInstalls))
  {
    hide ChangesBy, MetaWedged, RankOf, FreshTable, InitFromExisting, Welcomed, RingShape;
    RecordedStep(G, S, L, LeadInstalls);
    WelcomedFrom(S, S.lead.m.next.value);
  }

  lemma InstallsBy(G: Group, R: (nat, nat) -> bool, S: System, L: Lives, id: nat)
    requires WellShaped(G, S) && Enabled(G, S, Installs(id)) && AllBy(R, S, L)
    ensures AllBy(R, Next(G, S, Installs(id)), LivesAfter(G, S, L, Installs(id)))
  {
    hide ChangesBy, MetaWedged, RankOf, FreshTable, InitFromExisting, RingShape;
    RecordedStep(G, S, L, Installs(id));
  }

  lemma StartsBy(G: Group, R: (nat, nat) -> bool, S: System, L: Lives, id: nat, put: Put)
    requires WellShaped(G, S) && Enabled(G, S, JoinerStarts(id, put)) && AllBy(R, S, L)
    ensures AllBy(R, Next(G, S, JoinerStarts(id, put)), LivesAfter(G, S, L, JoinerStarts(id, put)))
  {
    hide ChangesBy, RankOf, FreshTable, InitFromExisting, RingShape;
    RecordedStep(G, S, L, JoinerStarts(id, put));
  }

  lemma {:induction false} RunBy(G: Group, R: (nat, nat) -> bool, run: seq<System>, steps: seq<Step>, k: nat)
    requires IsRun(G, run, steps) && k < |run|
    requires forall j :: 0 <= j < k ==>
      var o := Beginner(G, run[j], steps[j]); o.Some? ==> R(o.value.view.vid, CurrentChange(G.max, o.value))
    ensures AllBy(R, run[k], LivesOf(G, run, steps, k))
    decreases k
  {
    hide WellShaped, Enabled, Next, LivesAfter, Beginner, CurrentChange;
    if k > 0 {
      RunBy(G, R, run, steps, k - 1);
      hide Init, AllBy;
      ByStep(G, R, run[k - 1], LivesOf(G, run, steps, k - 1), steps[k - 1]);
    }
  }

  /** The change by which a member left view j was proposed by the leader, into the slot of that view. */
  predicate Proposed(max: nat, log: seq<nat>, j: nat, x: nat) {
    max > 0 && exists k :: 0 <= k < |log| && k % max == j % max && log[k] == x
  }

  lemma BeginnerProposed(G: Group, run: seq<System>, steps: seq<Step>, j: nat)
    requires IsRun(G, run, steps) && j < |steps| && Beginner(G, run[j], steps[j]).Some?
    ensures var m := Beginner(G, run[j], steps[j]).value;
            Proposed(G.max, run[|steps|].log, m.view.vid, CurrentChange(G.max, m))
  {
    hide Init, WellShaped, Enabled, Next, Base, Beginner, Window, CurrentChange;
    RunBase(G, run, steps, j);
    RunLog(G, run, steps, j, |steps|);
    BeginnerKnows(G, run[j], steps[j]);
    ReadsTop(G.max, run[j].log, Beginner(G, run[j], steps[j]).value);
  }

  lemma LifeProposed(G: Group, run: seq<System>, steps: seq<Step>, k: nat)
    requires IsRun(G, run, steps) && k < |run|
    ensures AllBy((j: nat, x: nat) => Proposed(G.max, run[|steps|].log, j, x), run[k], LivesOf(G, run, steps, k))
  {
    hide Init, WellShaped, Enabled, Next, Beginner, CurrentChange, AllBy, Proposed;
    var R: (nat, nat) -> bool := (j: nat, x: nat) => Proposed(G.max, run[|steps|].log, j, x);
    forall j | 0 <= j < k && Beginner(G, run[j], steps[j]).Some?
      ensures R(Beginner(G, run[j], steps[j]).value.view.vid, CurrentChange(G.max, Beginner(G, run[j], steps[j]).value))
    {
      BeginnerProposed(G, run, steps, j);
    }
    RunBy(G, R, run, steps, k);
  }

  lemma LifeAgreed(G: Group, run: seq<System>, steps: seq<Step>, k: nat)
    requires IsRun(G, run, steps) && k < |run| && Agreeing(run)
    ensures AllBy((j: nat, x: nat) => x == ChangeOf(G, run, steps, j), run[k], LivesOf(G, run, steps, k))
  {
    hide Init, WellShaped, Enabled, Next, Beginner, CurrentChange, AllBy, Held, Leaves;
    AgreeingIffSameChanges(G, run, steps);
    var c: nat -> nat := (u: nat) => ChangeOf(G, run, steps, u);
    SameChangesChosen(G, run, steps, c);
    assert forall j :: 0 <= j < k ==> Chosen(G, c, run[j], steps[j]);
    RunBy(G, (j: nat, x: nat) => x == ChangeOf(G, run, steps, j), run, steps, k);
  }

  lemma LifeBySome(G: Group, R: (nat, nat) -> bool, S: System, L: Lives, p: nat)
    requires AllBy(R, S, L) && G.first != [] && Running(G, S, p)
    ensures ChangesBy(R, LifeOf(G, L, p).moves, MemberOf(G, S, p).view.vid)
  {
    hide ChangesBy;
  }

  /** Every change of a life was proposed by the leader; and where views agree, all lives have the same changes. */
  lemma LifeChanges(G: Group, run: seq<System>, steps: seq<Step>, k: nat, p: nat)
    requires IsRun(G, run, steps) && k < |run| && G.first != [] && Running(G, run[k], p)
    ensures var v, changes := MemberOf(G, run[k], p).view, Changes(LifeOf(G, LivesOf(G, run, steps, k), p).moves);
            && |changes| == v.vid
            && (forall j :: 0 <= j < v.vid ==> Proposed(G.max, run[|steps|].log, j, changes[j]))
            && (Agreeing(run) ==> forall j :: 0 <= j < v.vid ==> changes[j] == ChangeOf(G, run, steps, j))
  {
    hide IsRun, Changes, Held, Proposed, Agreeing, AllBy, MemberOf, Running, LifeOf;
    RunSize(G, run, steps);
    LifeProposed(G, run, steps, k);
    LifeBySome(G, (j: nat, x: nat) => Proposed(G.max, run[|steps|].log, j, x), run[k], LivesOf(G, run, steps, k), p);
    if Agreeing(run) {
      LifeAgreed(G, run, steps, k);
      LifeBySome(G, (j: nat, x: nat) => x == ChangeOf(G, run, steps, j), run[k], LivesOf(G, run, steps, k), p);
    }
  }

  // ---------------------------------------------------------------- no split

  lemma {:induction false} NotAllMarked(f: seq<bool>, g: seq<bool>)
    requires |f| == |g| && Count(f) + Count(g) < |f|
    ensures exists r :: 0 <= r < |f| && !f[r] && !g[r]
    decreases |f|
  {
    var last := |f| - 1;
    if f[last] || g[last] {
      NotAllMarked(f[..last], g[..last]);
      var r :| 0 <= r < last && !f[..last][r] && !g[..last][r];
      assert !f[r] && !g[r];
    }
  }

  /** How many members p has removed in its life that it had not marked. */
  ghost function Unmarked(G: Group, run: seq<System>, steps: seq<Step>, k: nat, p: nat): nat
    requires IsRun(G, run, steps) && k < |run| && G.first != [] && Running(G, run[k], p)
  {
    RunLived(G, run, steps, k);
    UnmarkedRemovals(FirstView(G), LifeOf(G, LivesOf(G, run, steps, k), p).moves)
  }

  /**
   No split.  Where views agree, take two members in the view of one number, at whatever
   moments.  The ranks they have marked failed, less the members each removed unmarked, do
   not cover the view between them.  So if they removed only members they had marked, some
   member is marked by neither, and whatever either would commit that member's row, as the
   one who would commit has it, acknowledges.
   */
  lemma CommonAcknowledger(G: Group, run: seq<System>, steps: seq<Step>, a: nat, p: nat, b: nat, q: nat)
    requires IsRun(G, run, steps) && Agreeing(run) && a < |run| && b < |run| && G.first != []
    requires Running(G, run[a], p) && Running(G, run[b], q)
    requires MemberOf(G, run[a], p).view.vid == MemberOf(G, run[b], q).view.vid
    ensures var v, w := MemberOf(G, run[a], p).view, MemberOf(G, run[b], q).view;
            && v.members == w.members
            && Count(v.failed) + Count(w.failed) < |v.members| + Unmarked(G, run, steps, a, p) + Unmarked(G, run, steps, b, q)
    ensures var m, m' := MemberOf(G, run[a], p), MemberOf(G, run[b], q);
            && MemberShape(G.max, m) && MemberShape(G.max, m')
            && (Unmarked(G, run, steps, a, p) == Unmarked(G, run, steps, b, q) == 0 ==>
                  exists r :: 0 <= r < |m.sst| == |m'.sst| && !m.view.failed[r] && !m'.view.failed[r]
                    && OwnRow(Commit(G.max, m)).nCommitted <= m.sst[r].nAcked
                    && OwnRow(Commit(G.max, m')).nCommitted <= m'.sst[r].nAcked)
  {
    hide IsRun, CanMoveOn, MovedOn, UnmarkedRemovals, FirstView, Count, Held, Base, MinAcked;
    var m, m' := MemberOf(G, run[a], p), MemberOf(G, run[b], q);
    LifeMakesView(G, run, steps, a, p);
    LifeMakesView(G, run, steps, b, q);
    RunBase(G, run, steps, a);
    RunBase(G, run, steps, b);
    RunningProc(G, run[a], p);
    RunningProc(G, run[b], q);
    MemberHolds(G, run[a], p);
    MemberHolds(G, run[b], q);
    if Unmarked(G, run, steps, a, p) == Unmarked(G, run, steps, b, q) == 0 {
      NotAllMarked(m.view.failed, m'.view.failed);
      var r :| 0 <= r < |m.view.failed| && !m.view.failed[r] && !m'.view.failed[r];
      LeastOfRow(G.max, m, r);
      LeastOfRow(G.max, m', r);
    }
  }

  lemma MemberHolds(G: Group, S: System, p: nat)
    requires G.first != [] && Running(G, S, p)
    ensures Held(S, MemberOf(G, S, p).view)
  {
  }

  lemma LeastOfRow(max: nat, m: Member, r: nat)
    requires MemberShape(max, m) && r < |m.sst| && !m.view.failed[r]
    ensures OwnRow(Commit(max, m)).nCommitted <= m.sst[r].nAcked
  {
  }

  /** A member that survives its suspicion trigger is in the majority. */
  lemma {:induction false} MarksKeepMajority(max: nat, m: Member, q: nat)
    requires MemberShape(max, m) && q <= |m.view.members| && Majority(m.view)
    ensures match MarkFrom(max, m, q)
            case Going(m') => Majority(m'.view)
            case Halted(_) => true
    decreases |m.view.members| - q
  {
    hide ProposeRemoval;
    if q < |m.view.members| {
      if OwnRow(m).suspected[q] && !m.view.failed[q] {
        CountSet(m.view.failed, q);
        if MarkFailed(max, m, q).Going? {
          MarksKeepMajority(max, MarkFailed(max, m, q).value, q + 1);
        }
      } else {
        MarksKeepMajority(max, m, q + 1);
      }
    }
  }

  lemma SuspectKeepsMajority(max: nat, m: Member)
    requires MemberShape(max, m) && Majority(m.view)
    ensures match Suspect(max, m)
            case Going(m') => Majority(m'.view)
            case Halted(_) => true
  {
    hide MarkFrom;
    MarksKeepMajority(max, Merged(max, m), 0);
  }
}
