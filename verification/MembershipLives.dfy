/**
 The life of a member: every mark it makes and every change it installs, in order, as a run
 records them.  A member's view is what its life makes of the first view, and its count of
 failed members is right exactly if it has removed only members it had marked.
 */
module MembershipLives {
  import opened Collections
  import opened Messages
  import opened MembershipSpec
  import opened Membership
  import opened ChangeLog
  import opened LeaderSteps
  import opened ViewInstall
  import opened MembershipInv
  import opened FollowerSteps
  import opened MembershipSteps
  import opened MembershipKeeps
  import opened MembershipAccounts
  import opened MembershipRuns
  import opened MembershipLists
  import opened Moves

  // ---------------------------------------------------------------- what a run records

  /** What a member has done to its view, and what will have been done to the view it is changing to. */
  datatype Life = Life(moves: seq<Move>, fixed: seq<Move>)

  datatype Lives = Lives(lead: Life, followers: map<nat, Life>, waiting: map<nat, Life>)

  /** Marks for the ranks from q on that are failed in g and were not in f. */
  function NewMarks(f: seq<bool>, g: seq<bool>, q: nat): seq<Move>
    requires |f| == |g| && q <= |f|
    decreases |f| - q
  {
    if q == |f| then []
    else (if !f[q] && g[q] then [Mark(q)] else []) + NewMarks(f, g, q + 1)
  }

  /** A member's own step: it marks, or it fixes the next view; a member that halts is done. */
  function LifeActed(max: nat, m: Member, life: Life, act: Act): Life
    requires MemberShape(max, m) && (act.Report? ==> act.rank < |m.view.members|) && (act.Acknowledge? ==> HasLeader(m))
  {
    match Acted(max, m, act)
    case Halted(_) => life
    case Going(m') =>
      if act.BeginChange? then life.(fixed := life.moves + [Change(CurrentChange(max, m))])
      else if |m'.view.failed| == |m.view.failed| then life.(moves := life.moves + NewMarks(m.view.failed, m'.view.failed, 0))
      else life
  }

  /** Installing, a member's life is that of the view it changed to. */
  function LifeInstalled(life: Life): Life {
    Life(life.fixed, [])
  }

  /** A joiner lives the life of the view it was sent. */
  function LivesAfter(G: Group, S: System, L: Lives, step: Step): Lives
    requires WellShaped(G, S) && Enabled(G, S, step) && L.followers.Keys == S.followers.Keys && L.waiting.Keys == S.waiting.Keys
  {
    match step
    case LeadActs(act) => L.(lead := LifeActed(G.max, S.lead.m, L.lead, act))
    case LeadInstalls =>
      var welcomed := Welcomed(S, Installed(G.max, S.lead.m).m.view).Keys;
      L.(lead := LifeInstalled(L.lead),
         waiting := map id | id in welcomed :: if id in L.waiting then L.waiting[id] else LifeInstalled(L.lead))
    case Acts(id, act) =>
      if Acted(G.max, S.followers[id].m, act).Going?
      then L.(followers := L.followers[id := LifeActed(G.max, S.followers[id].m, L.followers[id], act)])
      else L.(followers := L.followers - {id})
    case Installs(id) => L.(followers := L.followers[id := LifeInstalled(L.followers[id])])
    case JoinerStarts(id, _) => L.(followers := L.followers[id := L.waiting[id]], waiting := L.waiting - {id})
    case Crash(id) => L.(followers := L.followers - {id})
    case _ => L
  }

  ghost predicate Recorded(S: System, L: Lives) {
    L.followers.Keys == S.followers.Keys && L.waiting.Keys == S.waiting.Keys
  }

  lemma RecordedStep(G: Group, S: System, L: Lives, step: Step)
    requires WellShaped(G, S) && Enabled(G, S, step) && Recorded(S, L)
    ensures Recorded(Next(G, S, step), LivesAfter(G, S, L, step))
  {
    hide WellShaped, Enabled, Next, LivesAfter, Recorded;
    match step
    case Acts(id, act) => RecordedActs(G, S, L, id, act);
    case LeadInstalls => RecordedInstall(G, S, L);
    case JoinerStarts(id, put) => RecordedStart(G, S, L, id, put);
    case LeadActs(_) => RecordedElse(G, S, L, step);
    case LeadJoins(_) => RecordedElse(G, S, L, step);
    case LeadHears(_) => RecordedElse(G, S, L, step);
    case _ => RecordedFollower(G, S, L, step);
  }

  lemma RecordedActs(G: Group, S: System, L: Lives, id: nat, act: Act)
    requires WellShaped(G, S) && Enabled(G, S, Acts(id, act)) && Recorded(S, L)
    ensures Recorded(Next(G, S, Acts(id, act)), LivesAfter(G, S, L, Acts(id, act)))
  {
    hide WellShaped, Enabled, Next, Acted, LifeActed, Synced, NewlySuspected, CanAck, CanCommit, CanStart, RingShape;
    ActsAlone(G, S, id, act);
    assert Next(G, S, Acts(id, act)).followers.Keys
        == if Acted(G.max, S.followers[id].m, act).Going? then S.followers.Keys else S.followers.Keys - {id};
  }

  lemma RecordedInstall(G: Group, S: System, L: Lives)
    requires WellShaped(G, S) && Enabled(G, S, LeadInstalls) && Recorded(S, L)
    ensures Recorded(Next(G, S, LeadInstalls), LivesAfter(G, S, L, LeadInstalls))
  {
    hide RingShape, Installed, Welcomed, MetaWedged;
  }

  lemma RecordedStart(G: Group, S: System, L: Lives, id: nat, put: Put)
    requires WellShaped(G, S) && Enabled(G, S, JoinerStarts(id, put)) && Recorded(S, L)
    ensures Recorded(Next(G, S, JoinerStarts(id, put)), LivesAfter(G, S, L, JoinerStarts(id, put)))
  {
    hide RingShape, RankOf, FreshTable, InitFromExisting;
    var S' := Next(G, S, JoinerStarts(id, put));
    assert S'.followers.Keys == S.followers.Keys + {id} && S'.waiting.Keys == S.waiting.Keys - {id};
  }

  lemma RecordedElse(G: Group, S: System, L: Lives, step: Step)
    requires WellShaped(G, S) && Enabled(G, S, step) && Recorded(S, L)
    requires step.LeadActs? || step.LeadJoins? || step.LeadHears?
    ensures Recorded(Next(G, S, step), LivesAfter(G, S, L, step))
  {
    hide Acted, LifeActed, Synced, CanAck, CanCommit, CanStart, RankOf, Heard, ReceiveJoin, Extended, RingShape;
  }

  lemma RecordedFollower(G: Group, S: System, L: Lives, step: Step)
    requires WellShaped(G, S) && Enabled(G, S, step) && Recorded(S, L) && (step.Hears? || step.Installs? || step.Crash?)
    ensures Recorded(Next(G, S, step), LivesAfter(G, S, L, step))
  {
    hide RankOf, Heard, Installed, MetaWedged, RingShape, CanHear, ViewShape, RankOfLeader, Farewell;
    var S' := Next(G, S, step);
    match step
    case Hears(id, _) => assert S'.followers.Keys == S.followers.Keys;
    case Installs(id) => assert S'.followers.Keys == S.followers.Keys;
    case Crash(id) => assert S'.followers.Keys == S.followers.Keys - {id};
  }

  ghost function LivesOf(G: Group, run: seq<System>, steps: seq<Step>, k: nat): (L: Lives)
    requires IsRun(G, run, steps) && k < |run|
    ensures Recorded(run[k], L)
    decreases k
  {
    hide Next, Enabled, WellShaped, LivesAfter;
    if k == 0 then
      Lives(Life([], []), map id | id in run[0].followers :: Life([], []), map[])
    else
      var L := LivesOf(G, run, steps, k - 1);
      RecordedStep(G, run[k - 1], L, steps[k - 1]);
      LivesAfter(G, run[k - 1], L, steps[k - 1])
  }

  function LifeOf(G: Group, L: Lives, id: nat): Life
    requires G.first != [] && (id == LeadId(G) || id in L.followers)
  {
    if id == LeadId(G) then L.lead else L.followers[id]
  }

  // ---------------------------------------------------------------- views are what lives make of the first

  /** The first view, seen from rank 0. */
  function FirstView(G: Group): View {
    View(0, G.first, seq(|G.first|, i => false), 0, 0)
  }

  predicate Minority(v: View) {
    2 * v.nFailed < |v.members|
  }

  /** The view, but for the own rank, is what the moves make of the first, and it counts a minority. */
  predicate MadeBy(G: Group, v: View, moves: seq<Move>) {
    CanMoveOn(FirstView(G), moves) && MovedOn(FirstView(G), moves) == v.(myRank := 0) && Minority(v)
  }

  predicate Lived(G: Group, m: Member, life: Life) {
    MadeBy(G, m.view, life.moves) && (m.next.Some? ==> MadeBy(G, m.next.value, life.fixed))
  }

  predicate AllLived(G: Group, S: System, L: Lives) {
    && L.followers.Keys == S.followers.Keys && L.waiting.Keys == S.waiting.Keys
    && Lived(G, S.lead.m, L.lead)
    && (forall id :: id in S.followers ==> Lived(G, S.followers[id].m, L.followers[id]))
    && (forall id :: id in S.waiting ==> MadeBy(G, S.waiting[id], L.waiting[id].moves))
  }

  /** Marks in the order of the trigger make the view it leaves. */
  lemma {:induction false} MarksMove(max: nat, m: Member, q: nat)
    requires MemberShape(max, m) && q <= |m.view.members| && MarkFrom(max, m, q).Going?
    ensures var m' := MarkFrom(max, m, q).value;
            && |m'.view.failed| == |m.view.failed| && (forall r :: 0 <= r < q ==> m'.view.failed[r] == m.view.failed[r])
            && CanMoveOn(m.view, NewMarks(m.view.failed, m'.view.failed, q))
            && MovedOn(m.view, NewMarks(m.view.failed, m'.view.failed, q)) == m'.view
            && (Minority(m.view) ==> Minority(m'.view))
    decreases |m.view.members| - q
  {
    hide MarkFailed, NewMarks, Moved, CanMove;
    if q == |m.view.members| {
      NewMarksAt(m.view.failed, m.view.failed, q);
    } else if OwnRow(m).suspected[q] && !m.view.failed[q] {
      MarkMoves(max, m, q);
      MarksMove(max, MarkFailed(max, m, q).value, q + 1);
      MarkFirst(m.view, MarkFrom(max, m, q).value.view.failed, q);
    } else {
      MarksMove(max, m, q + 1);
      NewMarksAt(m.view.failed, MarkFrom(max, m, q).value.view.failed, q);
    }
  }

  lemma MarkMoves(max: nat, m: Member, q: nat)
    requires MemberShape(max, m) && q < |m.view.members| && !m.view.failed[q] && MarkFailed(max, m, q).Going?
    ensures CanMove(m.view, Mark(q)) && MarkFailed(max, m, q).value.view == Moved(m.view, Mark(q))
    ensures Minority(m.view) ==> Minority(Moved(m.view, Mark(q)))
    ensures Moved(m.view, Mark(q)).failed == m.view.failed[q := true]
  {
    hide RankOfLeader, ChangesContains;
  }

  /** The mark of rank q comes before those of the ranks behind it. */
  lemma MarkFirst(v: View, g: seq<bool>, q: nat)
    requires CanMove(v, Mark(q)) && |g| == |v.failed| && g[q]
    requires CanMoveOn(Moved(v, Mark(q)), NewMarks(v.failed[q := true], g, q + 1))
    ensures CanMoveOn(v, NewMarks(v.failed, g, q))
    ensures MovedOn(v, NewMarks(v.failed, g, q)) == MovedOn(Moved(v, Mark(q)), NewMarks(v.failed[q := true], g, q + 1))
  {
    hide NewMarks;
    SameNewMarks(v.failed, v.failed[q := true], g, q + 1);
    NewMarksAt(v.failed, g, q);
    assert ([Mark(q)] + NewMarks(v.failed, g, q + 1))[1..] == NewMarks(v.failed, g, q + 1);
  }

  lemma NewMarksAt(f: seq<bool>, g: seq<bool>, q: nat)
    requires |f| == |g| && q <= |f|
    ensures q == |f| ==> NewMarks(f, g, q) == []
    ensures q < |f| && !f[q] && g[q] ==> NewMarks(f, g, q) == [Mark(q)] + NewMarks(f, g, q + 1)
    ensures q < |f| && f[q] == g[q] ==> NewMarks(f, g, q) == NewMarks(f, g, q + 1)
  {
  }

  lemma {:induction false} SameNewMarks(f: seq<bool>, f1: seq<bool>, g: seq<bool>, q: nat)
    requires |f| == |f1| == |g| && q <= |f| && forall r :: q <= r < |f| ==> f1[r] == f[r]
    ensures NewMarks(f1, g, q) == NewMarks(f, g, q)
    decreases |f| - q
  {
    if q < |f| {
      SameNewMarks(f, f1, g, q + 1);
    }
  }

  lemma {:induction false} NoNewMarks(f: seq<bool>, q: nat)
    requires q <= |f|
    ensures NewMarks(f, f, q) == []
    decreases |f| - q
  {
    if q < |f| {
      NoNewMarks(f, q + 1);
    }
  }

  /** Any own step but the start of a change moves the view by the marks it adds. */
  lemma ActedMoves(max: nat, m: Member, act: Act)
    requires MemberShape(max, m) && (act.Report? ==> act.rank < |m.view.members|) && (act.Acknowledge? ==> HasLeader(m))
    requires Acted(max, m, act).Going?
    ensures var m' := Acted(max, m, act).value;
            && |m'.view.failed| == |m.view.failed|
            && CanMoveOn(m.view, NewMarks(m.view.failed, m'.view.failed, 0))
            && MovedOn(m.view, NewMarks(m.view.failed, m'.view.failed, 0)) == m'.view
            && (Minority(m.view) ==> Minority(m'.view))
  {
    hide MarkFrom, RankOfLeader, NextView, MinAcked, NewMarks;
    NoNewMarks(m.view.failed, 0);
    if act.Suspicion? {
      MarksMove(max, Merged(max, m), 0);
    }
  }

  lemma {:induction false} NewMarksMark(f: seq<bool>, g: seq<bool>, q: nat)
    requires |f| == |g| && q <= |f|
    ensures forall k :: 0 <= k < |NewMarks(f, g, q)| ==> NewMarks(f, g, q)[k].Mark?
    decreases |f| - q
  {
    if q < |f| {
      NewMarksMark(f, g, q + 1);
    }
  }

  lemma MadeMore(G: Group, v: View, moves: seq<Move>, v': View, more: seq<Move>)
    requires MadeBy(G, v, moves) && |v.members| > 0 && CanMoveOn(v, more) && MovedOn(v, more) == v' && Minority(v')
    requires forall k :: 0 <= k < |more| ==> more[k].Mark?
    ensures MadeBy(G, v', moves + more)
  {
    hide CanMove, Moved;
    MovesAtRank(v, more, 0);
    MovedOnJoin(FirstView(G), moves, more);
  }

  /** Seen from the leader's rank, the next view is the same but for the rank. */
  lemma NextAtRank(G: Group, id: nat, v: View, x: nat)
    requires ViewInv(G, id, v) && x != LeadId(G)
    ensures CanMove(v.(myRank := 0), Change(x)) && Moved(v.(myRank := 0), Change(x)) == NextView(v, x).(myRank := 0)
    ensures Minority(v) ==> Minority(NextView(v, x))
  {
    hide RankOf;
    HeadKept(v.members, x);
    FirstRank(Changed(v.members, x));
    NextShape(v, x);
  }

  lemma MadeNext(G: Group, id: nat, v: View, moves: seq<Move>, x: nat)
    requires ViewInv(G, id, v) && x != LeadId(G) && MadeBy(G, v, moves)
    ensures MadeBy(G, NextView(v, x), moves + [Change(x)])
  {
    hide CanMove, Moved, NextView;
    NextAtRank(G, id, v, x);
    var v0 := v.(myRank := 0);
    OneMove(v0, Change(x));
    MovedOnJoin(FirstView(G), moves, [Change(x)]);
  }

  // ---------------------------------------------------------------- every step

  lemma ActedLived(G: Group, id: nat, m: Member, life: Life, act: Act)
    requires MemberShape(G.max, m) && (act.Report? ==> act.rank < |m.view.members|) && (act.Acknowledge? ==> HasLeader(m))
    requires ViewInv(G, id, m.view) && Lived(G, m, life) && Acted(G.max, m, act).Going?
    requires act.BeginChange? ==> CurrentChange(G.max, m) != LeadId(G)
    ensures Lived(G, Acted(G.max, m, act).value, LifeActed(G.max, m, life, act))
  {
    hide Acted, ViewInv, NextView, CurrentChange, NewMarks, CanMove, Moved, CanMoveOn, MovedOn, Minority, MadeBy;
    ActedLists(G.max, m, act);
    if act.BeginChange? {
      BeginSameView(G.max, m);
      MadeNext(G, id, m.view, life.moves, CurrentChange(G.max, m));
    } else {
      ActedMade(G, m, life.moves, act);
    }
  }

  lemma BeginSameView(max: nat, m: Member)
    requires MemberShape(max, m) && Acted(max, m, BeginChange).Going?
    ensures Acted(max, m, BeginChange).value.view == m.view
  {
  }

  lemma ActedMade(G: Group, m: Member, moves: seq<Move>, act: Act)
    requires MemberShape(G.max, m) && (act.Report? ==> act.rank < |m.view.members|) && (act.Acknowledge? ==> HasLeader(m))
    requires Acted(G.max, m, act).Going? && MadeBy(G, m.view, moves)
    ensures var m' := Acted(G.max, m, act).value;
            && |m'.view.failed| == |m.view.failed|
            && MadeBy(G, m'.view, moves + NewMarks(m.view.failed, m'.view.failed, 0))
  {
    hide Acted, NewMarks, CanMoveOn, MovedOn;
    ActedMoves(G.max, m, act);
    var m' := Acted(G.max, m, act).value;
    NewMarksMark(m.view.failed, m'.view.failed, 0);
    MadeMore(G, m.view, moves, m'.view, NewMarks(m.view.failed, m'.view.failed, 0));
  }

  lemma NotTheLeader(G: Group, S: System, step: Step)
    requires Base(G, S) && WellShaped(G, S) && Enabled(G, S, step) && Beginner(G, S, step).Some?
    ensures CurrentChange(G.max, Beginner(G, S, step).value) in S.log && LeadId(G) !in S.log
  {
    hide Base, Enabled, WellShaped, Beginner, Window, CurrentChange;
    LeadFacts(G, S);
    BeginnerKnows(G, S, step);
    ReadsTop(G.max, S.log, Beginner(G, S, step).value);
  }

  lemma LeadActsLived(G: Group, S: System, L: Lives, act: Act)
    requires Base(G, S) && WellShaped(G, S) && Enabled(G, S, LeadActs(act)) && AllLived(G, S, L)
    ensures AllLived(G, Next(G, S, LeadActs(act)), LivesAfter(G, S, L, LeadActs(act)))
  {
    hide Base, ViewInv, Acted, CurrentChange, NewMarks, MadeBy, Extended, Synced, CanAck, CanCommit, CanStart, Start;
    LeadFacts(G, S);
    BeginGoing(G.max, S.lead.m);
    if Acted(G.max, S.lead.m, act).Going? {
      if act.BeginChange? {
        NotTheLeader(G, S, LeadActs(act));
      }
      ActedLived(G, LeadId(G), S.lead.m, L.lead, act);
    }
  }

  lemma ActsLived(G: Group, S: System, L: Lives, id: nat, act: Act)
    requires Base(G, S) && WellShaped(G, S) && Enabled(G, S, Acts(id, act)) && AllLived(G, S, L)
    ensures AllLived(G, Next(G, S, Acts(id, act)), LivesAfter(G, S, L, Acts(id, act)))
  {
    hide Base, WellShaped, Enabled, Next, ViewInv, Acted, CurrentChange, NewMarks, MadeBy, LifeActed, Synced, CanAck, CanCommit, CanStart,
         NewlySuspected, Start, RingShape, Lived, RankOfLeader;
    ActsAlone(G, S, id, act);
    FollowerFacts(G, S, id);
    BeginGoing(G.max, S.followers[id].m);
    if Acted(G.max, S.followers[id].m, act).Going? {
      if act.BeginChange? {
        NotTheLeader(G, S, Acts(id, act));
      }
      ActedLived(G, id, S.followers[id].m, L.followers[id], act);
    }
  }

  lemma OthersLived(G: Group, S: System, L: Lives, step: Step)
    requires WellShaped(G, S) && Enabled(G, S, step) && AllLived(G, S, L) && !step.LeadActs? && !step.Acts?
    ensures AllLived(G, Next(G, S, step), LivesAfter(G, S, L, step))
  {
    hide WellShaped, Enabled, Next, LivesAfter, Lived, MadeBy;
    RecordedStep(G, S, L, step);
    match step
    case LeadInstalls => LeadInstallsLived(G, S, L);
    case Installs(id) => InstallsLived(G, S, L, id);
    case JoinerStarts(id, put) => StartsLived(G, S, L, id, put);
    case LeadJoins(_) => LeadQuietLived(G, S, L, step);
    case LeadHears(_) => LeadQuietLived(G, S, L, step);
    case _ => QuietLived(G, S, L, step);
  }

  lemma LeadQuietLived(G: Group, S: System, L: Lives, step: Step)
    requires WellShaped(G, S) && Enabled(G, S, step) && AllLived(G, S, L) && (step.LeadJoins? || step.LeadHears?)
    ensures AllLived(G, Next(G, S, step), LivesAfter(G, S, L, step))
  {
    hide MadeBy, Extended, Synced, RankOf, ChangesContains, RingShape;
  }

  /** A life speaks only of a member's view and its next one. */
  lemma QuietLived(G: Group, S: System, L: Lives, step: Step)
    requires WellShaped(G, S) && Enabled(G, S, step) && AllLived(G, S, L) && (step.Hears? || step.Crash?)
    ensures AllLived(G, Next(G, S, step), LivesAfter(G, S, L, step))
  {
    hide MadeBy, RankOf, RingShape;
    RecordedStep(G, S, L, step);
  }

  lemma LeadInstallsLived(G: Group, S: System, L: Lives)
    requires WellShaped(G, S) && Enabled(G, S, LeadInstalls) && AllLived(G, S, L)
    ensures AllLived(G, Next(G, S, LeadInstalls), LivesAfter(G, S, L, LeadInstalls))
  {
    hide MadeBy, MetaWedged, RankOf, FreshTable, InitFromExisting, Welcomed;
    RecordedStep(G, S, L, LeadInstalls);
    WelcomedFrom(S, S.lead.m.next.value);
  }

  lemma WelcomedFrom(S: System, v: View)
    requires v.members != []
    ensures forall id :: id in Welcomed(S, v) ==> Welcomed(S, v)[id] == if id in S.waiting then S.waiting[id] else v
  {
  }

  lemma InstallsLived(G: Group, S: System, L: Lives, id: nat)
    requires WellShaped(G, S) && Enabled(G, S, Installs(id)) && AllLived(G, S, L)
    ensures AllLived(G, Next(G, S, Installs(id)), LivesAfter(G, S, L, Installs(id)))
  {
    hide MadeBy, MetaWedged, RankOf, FreshTable, InitFromExisting;
    RecordedStep(G, S, L, Installs(id));
  }

  lemma StartsLived(G: Group, S: System, L: Lives, id: nat, put: Put)
    requires WellShaped(G, S) && Enabled(G, S, JoinerStarts(id, put)) && AllLived(G, S, L)
    ensures AllLived(G, Next(G, S, JoinerStarts(id, put)), LivesAfter(G, S, L, JoinerStarts(id, put)))
  {
    hide MadeBy, RankOf, FreshTable, InitFromExisting;
    RecordedStep(G, S, L, JoinerStarts(id, put));
    MadeAtRank(G, S.waiting[id], L.waiting[id].moves, RankOf(S.waiting[id].members, id));
  }

  lemma MadeAtRank(G: Group, v: View, moves: seq<Move>, rank: int)
    requires MadeBy(G, v, moves)
    ensures MadeBy(G, v.(myRank := rank), moves)
  {
    hide CanMoveOn, MovedOn, FirstView;
  }

  lemma LivedStep(G: Group, S: System, L: Lives, step: Step)
    requires Base(G, S) && WellShaped(G, S) && Enabled(G, S, step) && AllLived(G, S, L)
    ensures AllLived(G, Next(G, S, step), LivesAfter(G, S, L, step))
  {
    hide Base, WellShaped, Enabled, Next, LivesAfter, Lived, MadeBy;
    match step
    case LeadActs(act) => LeadActsLived(G, S, L, act);
    case Acts(id, act) => ActsLived(G, S, L, id, act);
    case _ => OthersLived(G, S, L, step);
  }

  // ---------------------------------------------------------------- every run

  lemma InitLived(G: Group, S: System)
    requires Init(G, S)
    ensures AllLived(G, S, Lives(Life([], []), map id | id in S.followers :: Life([], []), map[]))
  {
    hide RankOf, BlankRow;
  }

  lemma {:induction false} RunLived(G: Group, run: seq<System>, steps: seq<Step>, k: nat)
    requires IsRun(G, run, steps) && k < |run|
    ensures AllLived(G, run[k], LivesOf(G, run, steps, k))
    decreases k
  {
    hide Base, WellShaped, Enabled, Next, Init, AllLived, LivesAfter;
    if k == 0 {
      InitLived(G, run[0]);
    } else {
      RunLived(G, run, steps, k - 1);
      RunBase(G, run, steps, k - 1);
      LivedStep(G, run[k - 1], LivesOf(G, run, steps, k - 1), steps[k - 1]);
    }
  }

  /** A life starts with nobody marked. */
  lemma FirstCount(G: Group)
    ensures Count(FirstView(G).failed) == 0 == FirstView(G).nFailed
  {
    CountNone(|G.first|);
  }

  /**
   Every life, in every run.  A running member's view is the first view with exactly the
   marks the member has made and the changes it has installed, in order (a mark made between
   fixing a view and installing it goes with the view it was made in).  Its nFailed is the
   number of its marks less the removals of members it had not marked; it always counts a
   minority; and the count is right if and only if there was no such removal.
   */
  lemma LifeMakesView(G: Group, run: seq<System>, steps: seq<Step>, k: nat, p: nat)
    requires IsRun(G, run, steps) && k < |run| && G.first != [] && Running(G, run[k], p)
    ensures var v, moves := MemberOf(G, run[k], p).view, LifeOf(G, LivesOf(G, run, steps, k), p).moves;
            && CanMoveOn(FirstView(G), moves) && MovedOn(FirstView(G), moves) == v.(myRank := 0)
            && v.nFailed == Count(v.failed) - UnmarkedRemovals(FirstView(G), moves)
            && 2 * v.nFailed < |v.members|
            && (Majority(v) <==> UnmarkedRemovals(FirstView(G), moves) == 0)
  {
    hide IsRun, CanMoveOn, MovedOn, UnmarkedRemovals, FirstView, Count;
    RunLived(G, run, steps, k);
    AccountsDrift(FirstView(G), LifeOf(G, LivesOf(G, run, steps, k), p).moves);
    FirstCount(G);
  }
}
