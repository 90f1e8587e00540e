/**
 Steps taken together: what a member does once it has heard everyone.  Each lemma here leads
 from a reachable state to another; Divergence.dfy puts them together.
 */
module Camps {
  import opened Collections
  import opened Messages
  import opened MembershipSpec
  import opened Membership
  import opened ChangeLog
  import opened LeaderSteps
  import opened ViewInstall
  import opened MembershipInv
  import opened FollowerSteps
  import opened MembershipSteps
  import opened MembershipKeeps
  import opened MembershipAccounts
  import opened MembershipRuns

  // ---------------------------------------------------------------- reachable states

  /** The leader could begin a change, or install a view. */
  predicate Due(max: nat, p: Proc)
    requires MemberShape(max, p.m)
  {
    MayAct(max, p, BeginChange) || (CanInstall(max, p.m) && Served(p.m))
  }

  /** The leader does not put off what is due in favour of other triggers. */
  predicate Prompt(max: nat, p: Proc, step: Step)
    requires MemberShape(max, p.m)
  {
    (step.LeadJoins? || step == LeadActs(Suspicion) || step == LeadActs(CommitChange)) ==> !Due(max, p)
  }

  ghost predicate PromptRun(G: Group, run: seq<System>, steps: seq<Step>) {
    IsRun(G, run, steps) && forall k :: 0 <= k < |steps| ==> Prompt(G.max, run[k].lead, steps[k])
  }

  ghost predicate Reach(G: Group, S: System) {
    exists run, steps :: PromptRun(G, run, steps) && run[|steps|] == S
  }

  lemma ReachBase(G: Group, S: System)
    requires Reach(G, S)
    ensures Base(G, S) && WellShaped(G, S)
  {
    hide Base, WellShaped, Init, Enabled, Next;
    var run, steps :| PromptRun(G, run, steps) && run[|steps|] == S;
    RunBase(G, run, steps, |steps|);
    BaseInvShape(G, S);
  }

  lemma ReachStart(G: Group, S: System)
    requires Init(G, S)
    ensures Reach(G, S)
  {
    hide Base, WellShaped, Init, Settled;
    InitInv(G, S);
    BaseInvShape(G, S);
    assert PromptRun(G, [S], []) && [S][0] == S;
  }

  lemma Go(G: Group, S: System, step: Step)
    requires Reach(G, S) && WellShaped(G, S) && Enabled(G, S, step) && Prompt(G.max, S.lead, step)
    ensures Reach(G, Next(G, S, step))
  {
    hide Base, Init, Enabled, Next, Due, RingShape;
    var run, steps :| PromptRun(G, run, steps) && run[|steps|] == S;
    RunBase(G, run, steps, |steps|);
    BaseStep(G, S, step);
    BaseInvShape(G, Next(G, S, step));
    var run', steps' := run + [Next(G, S, step)], steps + [step];
    assert PromptRun(G, run', steps') && run'[|steps'|] == Next(G, S, step);
  }

  // ---------------------------------------------------------------- a member and its mates

  /** A running member with nobody marked: its view, the row it last put, and the list it is changing to, if any. */
  ghost predicate Mate(S: System, id: nat, vid: nat, ms: seq<nat>, row: GmsRow, plan: seq<nat>) {
    && id in S.followers
    && var m := S.followers[id].m;
    && m.view.vid == vid && m.view.members == ms
    && |m.view.failed| == |ms| && (forall r :: 0 <= r < |ms| ==> !m.view.failed[r])
    && 0 <= m.view.myRank < |m.sst| && OwnRow(m) == row && Put(id, vid, row) in S.published
    && (if plan == [] then m.next.None?
        else m.next.Some? && m.next.value.members == plan && |m.next.value.failed| == |plan|
             && forall r :: 0 <= r < |plan| ==> !m.next.value.failed[r])
  }

  /** Rows that the members have put in the view of this number. */
  ghost predicate Puts(S: System, vid: nat, ms: seq<nat>, rows: seq<GmsRow>) {
    |rows| == |ms| > 0 && forall r :: 0 <= r < |ms| ==> Put(ms[r], vid, rows[r]) in S.published
  }

  /** The members of a view, each with the row it last put; the leader's has been put at some time. */
  ghost predicate Band(S: System, vid: nat, ms: seq<nat>, rows: seq<GmsRow>, plans: seq<seq<nat>>) {
    && Puts(S, vid, ms, rows) && |plans| == |ms|
    && forall r :: 0 < r < |ms| ==> Mate(S, ms[r], vid, ms, rows[r], plans[r])
  }

  /** Only this follower has moved. */
  ghost predicate Beside(S: System, S': System, id: nat) {
    && S'.lead == S.lead && S'.log == S.log && S'.running == S.running && S'.waiting == S.waiting
    && S'.followers.Keys == S.followers.Keys && S.published <= S'.published
    && forall f :: f in S.followers && f != id ==> S'.followers[f] == S.followers[f]
  }

  lemma BandBeside(S: System, S': System, vid: nat, ms: seq<nat>, rows: seq<GmsRow>, plans: seq<seq<nat>>,
                   k: nat, row: GmsRow, plan: seq<nat>)
    requires Band(S, vid, ms, rows, plans) && Distinct(ms) && 0 < k < |ms| && Beside(S, S', ms[k])
    requires Mate(S', ms[k], vid, ms, row, plan)
    ensures Band(S', vid, ms, rows[k := row], plans[k := plan])
  {
  }

  lemma MateStays(S: System, S': System, id: nat, vid: nat, ms: seq<nat>, row: GmsRow, plan: seq<nat>)
    requires Mate(S, id, vid, ms, row, plan) && S.published <= S'.published
    requires id in S'.followers && S'.followers[id] == S.followers[id]
    ensures Mate(S', id, vid, ms, row, plan)
  {
  }

  lemma MatePut(S: System, id: nat, vid: nat, ms: seq<nat>, row: GmsRow, plan: seq<nat>)
    requires Mate(S, id, vid, ms, row, plan)
    ensures Put(id, vid, row) in S.published && id in S.followers
  {
  }

  /** Steps of the leader leave the others where they are. */
  lemma BandKept(S: System, S': System, vid: nat, ms: seq<nat>, rows: seq<GmsRow>, plans: seq<seq<nat>>, row: GmsRow)
    requires Band(S, vid, ms, rows, plans) && S'.followers == S.followers && S.published <= S'.published
    requires Put(ms[0], vid, row) in S'.published
    ensures Band(S', vid, ms, rows[0 := row], plans)
  {
  }

  lemma MateFacts(G: Group, S: System, id: nat, vid: nat, ms: seq<nat>, row: GmsRow, plan: seq<nat>, k: nat)
    requires Reach(G, S) && Mate(S, id, vid, ms, row, plan) && k < |ms| && ms[k] == id
    ensures var m := S.followers[id].m;
            && MemberShape(G.max, m) && m.view.myRank == k > 0 && Distinct(ms) && RankOfLeader(m.view.failed) == 0
            && WellShaped(G, S) && G.first != [] && ms[0] == LeadId(G)
            && (m.next.Some? ==> m.next.value.vid == vid + 1 && 0 <= m.next.value.myRank < |plan|)
            && Window(G.max, S.log, row) && RingShape(G.max, row)
  {
    hide Reach, WellShaped, Window;
    ReachBase(G, S);
    FollowerFacts(G, S, id);
  }

  /** Hearing rows: those of the ranks below k, other than the own, are as put. */
  function Seen(sst: seq<GmsRow>, rows: seq<GmsRow>, me: nat, k: nat): seq<GmsRow>
    requires |rows| == |sst|
  {
    seq(|sst|, r requires 0 <= r < |sst| => if r < k && r != me then rows[r] else sst[r])
  }

  lemma SeenMore(sst: seq<GmsRow>, rows: seq<GmsRow>, me: nat, k: nat)
    requires |rows| == |sst| && k < |sst|
    ensures k != me ==> Seen(sst, rows, me, k)[k := rows[k]] == Seen(sst, rows, me, k + 1)
    ensures k == me ==> Seen(sst, rows, me, k) == Seen(sst, rows, me, k + 1)
    ensures Seen(sst, rows, me, 0) == sst
  {
  }

  lemma HearOne(p: Proc, put: Put, k: nat)
    requires |p.m.sst| == |p.m.view.failed| == |p.m.view.members| && Distinct(p.m.view.members)
    requires k < |p.m.view.members| && put.owner == p.m.view.members[k] && put.vid == p.m.view.vid
    requires k != p.m.view.myRank && !p.m.view.failed[k]
    ensures CanHear(p, put) && Heard(p, put) == Proc(p.m.(sst := p.m.sst[k := put.row]), p.heard + {k})
  {
    hide RankOf;
    RankIs(p.m.view.members, k);
  }

  lemma {:induction false} FollowerHears(G: Group, S: System, id: nat, rows: seq<GmsRow>, k: nat) returns (p: Proc)
    requires Reach(G, S) && id in S.followers
    requires var v := S.followers[id].m.view;
             && Distinct(v.members) && MemberShape(G.max, S.followers[id].m) && |rows| == |v.members| && k <= |rows|
             && (forall r :: 0 <= r < |rows| ==> !v.failed[r] && Put(v.members[r], v.vid, rows[r]) in S.published)
    ensures p.m == S.followers[id].m.(sst := Seen(S.followers[id].m.sst, rows, S.followers[id].m.view.myRank, k))
    ensures S.followers[id].heard <= p.heard && forall r: nat :: r < k && r != p.m.view.myRank ==> r in p.heard
    ensures Reach(G, S.(followers := S.followers[id := p]))
    decreases k
  {
    hide Reach, WellShaped, RingShape, Distinct, RankOf;
    var q := S.followers[id];
    if k == 0 {
      SeenNone(q.m.sst, rows, q.m.view.myRank);
      p := q;
      assert S.(followers := S.followers[id := p]) == S;
    } else {
      var p1 := FollowerHears(G, S, id, rows, k - 1);
      var S1 := S.(followers := S.followers[id := p1]);
      SeenMore(q.m.sst, rows, q.m.view.myRank, k - 1);
      if k - 1 == q.m.view.myRank {
        p := p1;
      } else {
        var put := Put(q.m.view.members[k - 1], q.m.view.vid, rows[k - 1]);
        HearOne(p1, put, k - 1);
        p := Heard(p1, put);
        FollowerHearsOne(G, S1, id, put);
        assert S1.(followers := S1.followers[id := p]) == S.(followers := S.followers[id := p]);
      }
    }
  }

  lemma SeenNone(sst: seq<GmsRow>, rows: seq<GmsRow>, me: nat)
    requires |rows| == |sst|
    ensures Seen(sst, rows, me, 0) == sst
  {
  }

  lemma FollowerHearsOne(G: Group, S: System, id: nat, put: Put)
    requires Reach(G, S) && id in S.followers && put in S.published
    requires |S.followers[id].m.sst| == |S.followers[id].m.view.failed| == |S.followers[id].m.view.members|
    requires CanHear(S.followers[id], put)
    ensures Reach(G, S.(followers := S.followers[id := Heard(S.followers[id], put)]))
  {
    hide Reach, WellShaped;
    ReachBase(G, S);
    Go(G, S, Hears(id, put));
  }

  lemma SeenAll(sst: seq<GmsRow>, rows: seq<GmsRow>, me: nat)
    requires |rows| == |sst| && me < |sst| && rows[me] == sst[me]
    ensures Seen(sst, rows, me, |sst|) == rows
  {
  }

  /** A member hears what everyone has put. */
  lemma HearsAll(G: Group, S: System, vid: nat, ms: seq<nat>, rows: seq<GmsRow>, k: nat, plan: seq<nat>) returns (S': System)
    requires Reach(G, S) && Puts(S, vid, ms, rows) && 0 < k < |ms| && Mate(S, ms[k], vid, ms, rows[k], plan)
    ensures Reach(G, S') && Beside(S, S', ms[k]) && Mate(S', ms[k], vid, ms, rows[k], plan)
    ensures S'.followers[ms[k]].m == S.followers[ms[k]].m.(sst := rows)
    ensures |rows| == |S'.followers[ms[k]].m.view.failed| && Synced(S'.followers[ms[k]])
  {
    hide Reach, WellShaped, RingShape, Distinct, RankOf, Window;
    var id := ms[k];
    MateFacts(G, S, id, vid, ms, rows[k], plan, k);
    HeardSelf(G, S, id);
    var p := FollowerHears(G, S, id, rows, |rows|);
    SeenAll(S.followers[id].m.sst, rows, k);
    S' := S.(followers := S.followers[id := p]);
    assert S'.followers.Keys == S.followers.Keys;
  }

  lemma HeardSelf(G: Group, S: System, id: nat)
    requires Reach(G, S) && id in S.followers
    ensures 0 <= S.followers[id].m.view.myRank && S.followers[id].m.view.myRank as nat in S.followers[id].heard
  {
    hide Reach, WellShaped, RowInv, ViewInv, NextInv, LeadInv;
    ReachBase(G, S);
    FollowerFacts(G, S, id);
  }

  // ---------------------------------------------------------------- what a follower does

  /** A follower's row after it has acknowledged the leader's row l. */
  function Echo(l: GmsRow, own: GmsRow): GmsRow {
    own.(changes := l.changes, nChanges := l.nChanges, nCommitted := l.nCommitted, nAcked := l.nChanges, wedged := true)
  }

  lemma FollowerGoes(G: Group, S: System, id: nat, act: Act) returns (S': System)
    requires Reach(G, S) && id in S.followers && MemberShape(G.max, S.followers[id].m) && MayAct(G.max, S.followers[id], act)
    requires Acted(G.max, S.followers[id].m, act).Going?
    ensures var m' := Acted(G.max, S.followers[id].m, act).value;
            && 0 <= m'.view.myRank < |m'.sst| && 0 <= S.followers[id].m.view.myRank < |S.followers[id].m.sst|
            && Reach(G, S') && Beside(S, S', id) && S'.followers[id] == Proc(m', S.followers[id].heard)
            && Put(id, m'.view.vid, OwnRow(m')) in S'.published
            && (act.Acknowledge? ==> Put(id, m'.view.vid, Unwedged(S.followers[id].m, m')) in S'.published)
  {
    hide Reach, WellShaped, Acted, Synced, NewlySuspected, CanAck, CanCommit, CanStart, RingShape, Enabled, Next, Halfway, WithFollower,
         Beside, Unwedged;
    ReachBase(G, S);
    S' := ActsNext(G, S, id, act);
    HalfwayBeside(S, id, S.followers[id].m, Proc(Acted(G.max, S.followers[id].m, act).value, S.followers[id].heard), act);
  }

  lemma HalfwayBeside(S: System, id: nat, m: Member, p: Proc, act: Act)
    requires id in S.followers && 0 <= m.view.myRank < |m.sst| && 0 <= p.m.view.myRank < |p.m.sst|
    ensures var S' := Halfway(WithFollower(S, id, p), id, m, p.m, act);
            && Beside(S, S', id) && S'.followers[id] == p && Put(id, p.m.view.vid, OwnRow(p.m)) in S'.published
            && (act.Acknowledge? ==> Put(id, p.m.view.vid, Unwedged(m, p.m)) in S'.published)
  {
    assert WithFollower(S, id, p).followers.Keys == S.followers.Keys;
  }

  lemma ActsNext(G: Group, S: System, id: nat, act: Act) returns (S': System)
    requires Reach(G, S) && WellShaped(G, S) && id in S.followers && MemberShape(G.max, S.followers[id].m)
    requires MayAct(G.max, S.followers[id], act) && Acted(G.max, S.followers[id].m, act).Going?
    ensures var m := S.followers[id].m; var m' := Acted(G.max, m, act).value;
            && 0 <= m'.view.myRank < |m'.sst| && 0 <= m.view.myRank < |m.sst|
            && Reach(G, S') && S' == Halfway(WithFollower(S, id, Proc(m', S.followers[id].heard)), id, m, m', act)
  {
    hide Reach, Acted, Synced, CanAck, CanCommit, CanStart, RankOfLeader, RingShape;
    Go(G, S, Acts(id, act));
    S' := Next(G, S, Acts(id, act));
  }

  /** It hears everyone and acknowledges what the leader has proposed. */
  lemma FollowerAcks(G: Group, S: System, vid: nat, ms: seq<nat>, rows: seq<GmsRow>, k: nat) returns (S': System)
    requires Reach(G, S) && Puts(S, vid, ms, rows) && 0 < k < |ms| && Mate(S, ms[k], vid, ms, rows[k], [])
    requires rows[0].nChanges > rows[k].nAcked
    ensures Reach(G, S') && Beside(S, S', ms[k]) && Mate(S', ms[k], vid, ms, Echo(rows[0], rows[k]), [])
    ensures Put(ms[k], vid, Echo(rows[0], rows[k]).(wedged := rows[k].wedged)) in S'.published
  {
    hide Reach, WellShaped, Distinct, RankOf, Window, RingShape, Synced;
    var T := HearsAll(G, S, vid, ms, rows, k, []);
    MateFacts(G, T, ms[k], vid, ms, rows[k], [], k);
    S' := FollowerGoes(G, T, ms[k], Acknowledge);
    AckIs(G.max, T.followers[ms[k]].m);
  }

  lemma AckIs(max: nat, m: Member)
    requires MemberShape(max, m) && RankOfLeader(m.view.failed) == 0 < m.view.myRank
    ensures Ack(max, m) == SetOwn(m, Echo(m.sst[0], OwnRow(m))) && OwnRow(Ack(max, m)) == Echo(m.sst[0], OwnRow(m))
  {
  }

  /** It hears everyone and begins the change its ring holds. */
  lemma FollowerBegins(G: Group, S: System, vid: nat, ms: seq<nat>, rows: seq<GmsRow>, k: nat, x: nat) returns (S': System)
    requires Reach(G, S) && Puts(S, vid, ms, rows) && 0 < k < |ms| && Mate(S, ms[k], vid, ms, rows[k], [])
    requires rows[0].nChanges <= rows[k].nAcked && rows[0].nCommitted > vid
    requires RingShape(G.max, rows[k]) && rows[k].changes[vid % G.max] == x && ms[k] != x
    ensures Reach(G, S') && Beside(S, S', ms[k]) && Changed(ms, x) != []
    ensures Mate(S', ms[k], vid, ms, rows[k].(wedged := true), Changed(ms, x))
  {
    hide Reach, WellShaped, Distinct, RankOf, Window, RingShape, Synced, Changed;
    var T := HearsAll(G, S, vid, ms, rows, k, []);
    MateFacts(G, T, ms[k], vid, ms, rows[k], [], k);
    StartIs(G.max, T.followers[ms[k]].m, x);
    S' := FollowerGoes(G, T, ms[k], BeginChange);
  }

  lemma StartIs(max: nat, m: Member, x: nat)
    requires MemberShape(max, m) && CurrentChange(max, m) == x && m.view.members[m.view.myRank] != x
    requires Distinct(m.view.members) && forall r :: 0 <= r < |m.view.failed| ==> !m.view.failed[r]
    ensures Start(max, m) == Going(SetOwn(m.(next := Some(NextView(m.view, x))), OwnRow(m).(wedged := true)))
    ensures var w := NextView(m.view, x);
            && w.members == Changed(m.view.members, x) != [] && |w.failed| == |w.members|
            && forall r :: 0 <= r < |w.failed| ==> !w.failed[r]
  {
    hide RankOf, NextView, Changed, Distinct;
    NextVid(m.view, x);
    NextUnmarked(m.view, x);
    ChangedDistinct(m.view.members, x);
    NextRank(m.view, x);
    assert m.view.members[m.view.myRank] in Changed(m.view.members, x);
  }

  lemma NextUnmarked(v: View, x: nat)
    requires ViewsAgreeInSize(v) && Distinct(v.members) && forall r :: 0 <= r < |v.failed| ==> !v.failed[r]
    ensures var w := NextView(v, x); |w.failed| == |w.members| && forall r :: 0 <= r < |w.failed| ==> !w.failed[r]
  {
    hide NextView, RankOf, Distinct, Without;
    NextShape(v, x);
    NextMarks(v, x);
    if x in v.members {
      NoneWithout(v.failed, RankOf(v.members, x));
    }
  }

  lemma NoneWithout(f: seq<bool>, r: nat)
    requires r < |f| && forall i :: 0 <= i < |f| ==> !f[i]
    ensures forall i :: 0 <= i < |Without(f, r)| ==> !Without(f, r)[i]
  {
  }

  lemma NextMarks(v: View, x: nat)
    requires ViewsAgreeInSize(v)
    ensures NextView(v, x).failed == if x in v.members then Without(v.failed, RankOf(v.members, x)) else v.failed + [false]
  {
    hide Changed, Without;
  }

  lemma {:induction false} CountNoneMarked(f: seq<bool>)
    requires forall r :: 0 <= r < |f| ==> !f[r]
    ensures Count(f) == 0
    decreases |f|
  {
    if f != [] {
      CountNoneMarked(f[..|f| - 1]);
    }
  }

  ghost predicate Quiet(row: GmsRow) {
    forall r :: 0 <= r < |row.suspected| ==> !row.suspected[r]
  }

  lemma OneCounts(row: GmsRow, rank: nat)
    requires Quiet(row) && rank < |row.suspected|
    ensures Count(row.suspected[rank := true]) == 1
  {
    CountNoneMarked(row.suspected);
    CountSet(row.suspected, rank);
  }

  /** Its transport reports a failure, the first in this view. */
  lemma FollowerReports(G: Group, S: System, vid: nat, ms: seq<nat>, row: GmsRow, k: nat, plan: seq<nat>, rank: nat)
      returns (S': System)
    requires Reach(G, S) && 0 < k < |ms| && Mate(S, ms[k], vid, ms, row, plan) && Quiet(row) && 0 < rank < |ms| && 3 <= |ms|
    ensures Reach(G, S') && Beside(S, S', ms[k]) && rank < |row.suspected|
    ensures Mate(S', ms[k], vid, ms, row.(suspected := row.suspected[rank := true]), plan)
  {
    hide Reach, WellShaped, Distinct, RankOf, Window, Count, Quiet;
    MateFacts(G, S, ms[k], vid, ms, row, plan, k);
    OneCounts(row, rank);
    S' := FollowerGoes(G, S, ms[k], Report(rank));
  }

  /** The leader has moved on: a follower with everyone wedged takes over the view it was changing to. */
  lemma FollowerInstalls(G: Group, S: System, vid: nat, ms: seq<nat>, rows: seq<GmsRow>, k: nat, plan: seq<nat>) returns (S': System)
    requires Reach(G, S) && Puts(S, vid, ms, rows) && 0 < k < |ms| && Mate(S, ms[k], vid, ms, rows[k], plan)
    requires plan != [] && |plan| <= G.max
    requires rows[0].globalMinReady && forall r :: 0 <= r < |ms| ==> rows[r].wedged
    ensures Reach(G, S') && Beside(S, S', ms[k])
    ensures Mate(S', ms[k], vid + 1, plan, InitFromExisting(G.max, rows[k]), [])
  {
    hide Reach, WellShaped, Distinct, RankOf, Window, RingShape, Installed, Synced, FreshTable;
    var T := HearsAll(G, S, vid, ms, rows, k, plan);
    MateFacts(G, T, ms[k], vid, ms, rows[k], plan, k);
    InstallIs(G.max, T.followers[ms[k]].m);
    S' := FollowerMovesOn(G, T, ms[k]);
  }

  lemma InstallIs(max: nat, m: Member)
    requires MemberShape(max, m) && m.next.Some? && ViewShape(max, m.next.value)
    ensures var m' := Installed(max, m).m;
            && m'.view == m.next.value && m'.next.None? && 0 <= m'.view.myRank < |m'.sst| == |m'.view.members|
            && OwnRow(m') == InitFromExisting(max, OwnRow(m))
            && m'.joining == (if IsLeader(m.view) && |m.next.value.members| > |m.view.members| then None else m.joining)
            && m'.last == m.last
  {
  }

  lemma FollowerMovesOn(G: Group, S: System, id: nat) returns (S': System)
    requires Reach(G, S) && id in S.followers && MemberShape(G.max, S.followers[id].m) && CanInstall(G.max, S.followers[id].m)
    requires HasLeader(S.followers[id].m) && LeaderRow(S.followers[id].m).globalMinReady
    ensures var p := Installed(G.max, S.followers[id].m);
            && 0 <= p.m.view.myRank < |p.m.sst|
            && Reach(G, S') && Beside(S, S', id) && S'.followers == S.followers[id := p]
            && Put(id, p.m.view.vid, OwnRow(p.m)) in S'.published
  {
    hide Reach, WellShaped, CanInstall, Installed, Enabled, Next, RingShape, RankOfLeader, ViewShape;
    ReachBase(G, S);
    InstallRank(G.max, S.followers[id].m);
    S' := InstallsNext(G, S, id);
    assert S'.followers.Keys == S.followers.Keys;
  }

  lemma InstallsNext(G: Group, S: System, id: nat) returns (S': System)
    requires Reach(G, S) && WellShaped(G, S) && id in S.followers && CanInstall(G.max, S.followers[id].m)
    requires MemberShape(G.max, S.followers[id].m) && HasLeader(S.followers[id].m) && LeaderRow(S.followers[id].m).globalMinReady
    ensures S.followers[id].m.next.Some? && ViewShape(G.max, S.followers[id].m.next.value)
    ensures var p := Installed(G.max, S.followers[id].m);
            && 0 <= p.m.view.myRank < |p.m.sst|
            && Reach(G, S') && S' == WithFollower(S.(published := S.published + {Farewell(id, S.followers[id].m)}), id, p)
  {
    hide Reach, MetaWedged, Installed, RankOfLeader, RingShape;
    InstallRank(G.max, S.followers[id].m);
    Go(G, S, Installs(id));
    S' := Next(G, S, Installs(id));
  }

  lemma InstallRank(max: nat, m: Member)
    requires MemberShape(max, m) && CanInstall(max, m)
    ensures m.next.Some? && ViewShape(max, m.next.value)
    ensures 0 <= Installed(max, m).m.view.myRank < |Installed(max, m).m.sst|
  {
  }

  /** A joiner starts from a row the leader has put in the view it was sent. */
  lemma JoinerBegins(G: Group, S: System, id: nat, row: GmsRow) returns (S': System)
    requires Reach(G, S) && id in S.waiting && G.first != [] && Put(LeadId(G), S.waiting[id].vid, row) in S.published
    requires forall r :: 0 <= r < |S.waiting[id].failed| ==> !S.waiting[id].failed[r]
    ensures Reach(G, S') && Mate(S', id, S.waiting[id].vid, S.waiting[id].members, InitFromExisting(G.max, row), [])
    ensures S'.lead == S.lead && S'.log == S.log && S'.running == S.running && S'.waiting == S.waiting - {id}
    ensures S'.followers == S.followers[id := S'.followers[id]] && S.published <= S'.published && id !in S.followers
  {
    hide Reach, WellShaped, Distinct, Window;
    ReachBase(G, S);
    JoinerHere(G, S, id);
    Go(G, S, JoinerStarts(id, Put(LeadId(G), S.waiting[id].vid, row)));
    S' := Next(G, S, JoinerStarts(id, Put(LeadId(G), S.waiting[id].vid, row)));
  }

  lemma JoinerHere(G: Group, S: System, id: nat)
    requires Base(G, S) && id in S.waiting
    ensures G.first != [] && id in S.waiting[id].members && ViewShape(G.max, S.waiting[id]) && id !in S.followers
    ensures S.waiting[id].members[0] == LeadId(G) != id
  {
    hide LeadBase, ProcInv, PublishedInv, FollowersInv;
  }
}
