/** The leader's steps taken together, and the round in which everyone acknowledges and the leader commits. */
module LeaderCamps {
  import opened Collections
  import opened Messages
  import opened MembershipSpec
  import opened Membership
  import opened ChangeLog
  import opened LeaderSteps
  import opened ViewInstall
  import opened MembershipInv
  import opened FollowerSteps
  import opened MembershipSteps
  import opened MembershipKeeps
  import opened MembershipAccounts
  import opened MembershipRuns
  import opened Camps

  // ---------------------------------------------------------------- the leader hears and acts

  /** The leader runs and is m, having heard from all it has not marked, and its row has been put. */
  ghost predicate Leads(S: System, m: Member) {
    && S.running && S.lead.m == m && |m.sst| == |m.view.members| == |m.view.failed| > 0
    && m.view.myRank == 0 && Synced(S.lead) && Put(m.view.members[0], m.view.vid, m.sst[0]) in S.published
  }

  /** Only the leader has moved. */
  predicate Aside(S: System, S': System) {
    S'.followers == S.followers && S'.waiting == S.waiting && S.published <= S'.published
  }

  lemma LeadKnows(G: Group, S: System)
    requires Reach(G, S)
    ensures WellShaped(G, S) && LeadBase(G.max, S.log, S.lead.m) && MemberShape(G.max, S.lead.m) && S.lead.m.view.myRank == 0
    ensures RankOfLeader(S.lead.m.view.failed) == 0 && G.first != [] && S.lead.m.view.members[0] == LeadId(G)
    ensures Distinct(S.lead.m.view.members) && OwnRow(S.lead.m).nChanges == |S.log| && S.lead.m.view.vid <= |S.log|
    ensures Window(G.max, S.log, OwnRow(S.lead.m)) && 0 in S.lead.heard && !OwnRow(S.lead.m).globalMinReady
  {
    hide Reach, WellShaped, Window, Matched;
    ReachBase(G, S);
    LeadFacts(G, S);
    LeadHeardSelf(G, S);
  }

  lemma LeadHeardSelf(G: Group, S: System)
    requires Base(G, S)
    ensures 0 in S.lead.heard
  {
    hide LeadBase, FollowersInv, WaitingInv, PublishedInv, RowInv, NextInv;
    LeadFacts(G, S);
  }

  /** The change for the next view is not committed, or the view is fixed and someone not marked has not wedged. */
  predicate Waits(m: Member)
    requires |m.sst| == |m.view.failed| > 0
  {
    if m.next.None? then m.sst[0].nCommitted <= m.view.vid
    else exists r :: 0 <= r < |m.sst| && !m.view.failed[r] && !m.sst[r].wedged
  }

  lemma NotDue(max: nat, p: Proc)
    requires MemberShape(max, p.m) && p.m.view.myRank == 0 && RankOfLeader(p.m.view.failed) == 0 && Waits(p.m)
    ensures !Due(max, p)
  {
  }

  /** A step of the leader's own leaves the others alone. */
  lemma LeaderGoes(G: Group, S: System, act: Act) returns (S': System)
    requires Reach(G, S) && S.running && MemberShape(G.max, S.lead.m) && MayAct(G.max, S.lead, act)
    requires Acted(G.max, S.lead.m, act).Going? && Prompt(G.max, S.lead, LeadActs(act))
    ensures var m' := Acted(G.max, S.lead.m, act).value;
            && 0 <= m'.view.myRank < |m'.sst| && G.first != []
            && Reach(G, S') && S'.lead == Proc(m', S.lead.heard) && S'.running && Aside(S, S')
            && Put(LeadId(G), m'.view.vid, OwnRow(m')) in S'.published
            && S.log <= S'.log && |S'.log| == OwnRow(m').nChanges
  {
    hide Reach, WellShaped, Acted, MayAct, RingShape, Window, Prompt;
    LeadKnows(G, S);
    Go(G, S, LeadActs(act));
    S' := Next(G, S, LeadActs(act));
    LeadKnows(G, S');
  }

  lemma {:induction false} LeadHearsUpto(G: Group, S: System, rows: seq<GmsRow>, k: nat) returns (p: Proc)
    requires Reach(G, S) && S.running && MemberShape(G.max, S.lead.m)
    requires var v := S.lead.m.view;
             && |rows| == |v.members| && k <= |rows| && Distinct(v.members) && v.myRank == 0
             && (forall r :: 0 <= r < |rows| ==> !v.failed[r] && Put(v.members[r], v.vid, rows[r]) in S.published)
    ensures p.m == S.lead.m.(sst := Seen(S.lead.m.sst, rows, 0, k))
    ensures S.lead.heard <= p.heard && forall r: nat :: 0 < r < k ==> r in p.heard
    ensures Reach(G, S.(lead := p))
    decreases k
  {
    hide Reach, WellShaped, RingShape, Distinct, RankOf;
    var q := S.lead;
    if k == 0 {
      SeenNone(q.m.sst, rows, 0);
      p := q;
      assert S.(lead := p) == S;
    } else {
      var p1 := LeadHearsUpto(G, S, rows, k - 1);
      SeenMore(q.m.sst, rows, 0, k - 1);
      if k == 1 {
        p := p1;
      } else {
        var put := Put(q.m.view.members[k - 1], q.m.view.vid, rows[k - 1]);
        HearOne(p1, put, k - 1);
        p := Heard(p1, put);
        LeadHearsOne(G, S.(lead := p1), put);
        assert S.(lead := p1).(lead := p) == S.(lead := p);
      }
    }
  }

  lemma LeadHearsOne(G: Group, S: System, put: Put)
    requires Reach(G, S) && S.running && put in S.published
    requires |S.lead.m.sst| == |S.lead.m.view.failed| == |S.lead.m.view.members| && CanHear(S.lead, put)
    ensures Reach(G, S.(lead := Heard(S.lead, put)))
  {
    hide Reach, WellShaped;
    ReachBase(G, S);
    Go(G, S, LeadHears(put));
  }

  /** With nobody marked, the leader hears what everyone has put. */
  lemma LeaderHears(G: Group, S: System, rows: seq<GmsRow>) returns (S': System)
    requires Reach(G, S) && S.running && MemberShape(G.max, S.lead.m) && Puts(S, S.lead.m.view.vid, S.lead.m.view.members, rows)
    requires S.lead.m.view.myRank == 0 && rows[0] == OwnRow(S.lead.m)
    requires forall r :: 0 <= r < |rows| ==> !S.lead.m.view.failed[r]
    ensures Reach(G, S') && S' == S.(lead := S'.lead) && Leads(S', S.lead.m.(sst := rows))
  {
    hide Reach, WellShaped, RingShape, Distinct, Window;
    LeadKnows(G, S);
    var p := LeadHearsUpto(G, S, rows, |rows|);
    SeenAll(S.lead.m.sst, rows, 0);
    S' := S.(lead := p);
  }

  /** The leader hears one more row. */
  lemma LeaderHearsRow(G: Group, S: System, m: Member, k: nat, row: GmsRow) returns (S': System)
    requires Reach(G, S) && Leads(S, m) && 0 < k < |m.view.members| && !m.view.failed[k]
    requires Put(m.view.members[k], m.view.vid, row) in S.published
    ensures Reach(G, S') && S' == S.(lead := S'.lead) && Leads(S', m.(sst := m.sst[k := row]))
  {
    hide Reach, WellShaped, RingShape, Distinct, Window;
    LeadKnows(G, S);
    var put := Put(m.view.members[k], m.view.vid, row);
    HearOne(S.lead, put, k);
    LeadHearsOne(G, S, put);
    S' := S.(lead := Heard(S.lead, put));
  }

  lemma SyncedSame(p: Proc, q: Proc)
    requires |p.m.sst| == |p.m.view.failed| == |q.m.sst| == |q.m.view.failed| && Synced(p) && p.heard <= q.heard
    requires forall r :: 0 <= r < |p.m.view.failed| && p.m.view.failed[r] ==> q.m.view.failed[r]
    ensures Synced(q)
  {
  }

  // ---------------------------------------------------------------- a round

  /** The leader's row once it has acknowledged its own proposals. */
  function Acked(r: GmsRow): GmsRow {
    r.(nAcked := r.nChanges, wedged := true)
  }

  lemma LeaderAcks(G: Group, S: System, m: Member) returns (S': System)
    requires Reach(G, S) && Leads(S, m) && m.next.None? && m.sst[0].nAcked < m.sst[0].nChanges
    ensures Reach(G, S') && Leads(S', SetOwn(m, Acked(m.sst[0]))) && Aside(S, S') && S'.log == S.log
  {
    hide Reach, WellShaped, RingShape, Distinct, Window, Synced;
    LeadKnows(G, S);
    S' := LeaderGoes(G, S, Acknowledge);
    LeadKnows(G, S');
    SyncedSame(S.lead, S'.lead);
  }

  /** What follows from everyone that counts having acknowledged the same number of proposals. */
  lemma {:induction false} LeastIs(sst: seq<GmsRow>, failed: seq<bool>, k: nat, n: int)
    requires 0 < |sst| == |failed| && k <= |sst| && sst[0].nAcked == n
    requires forall r :: 0 <= r < |sst| && !failed[r] ==> sst[r].nAcked == n
    ensures MinAckedUpto(sst, failed, 0, k) == n
    decreases k
  {
    if k > 0 {
      LeastIs(sst, failed, k - 1, n);
    }
  }

  lemma LeaderCommits(G: Group, S: System, m: Member, c: int) returns (S': System)
    requires Reach(G, S) && Leads(S, m) && m.next.None? && m.sst[0].nCommitted <= m.view.vid && m.sst[0].nCommitted < c
    requires m.sst[0].nAcked == c && forall r :: 0 <= r < |m.sst| && !m.view.failed[r] ==> m.sst[r].nAcked == c
    ensures Reach(G, S') && Leads(S', SetOwn(m, m.sst[0].(nCommitted := c))) && Aside(S, S') && S'.log == S.log
  {
    hide Reach, WellShaped, RingShape, Distinct, Window, Synced, Due;
    LeadKnows(G, S);
    LeastIs(m.sst, m.view.failed, |m.sst|, c);
    NotDue(G.max, S.lead);
    S' := LeaderGoes(G, S, CommitChange);
    LeadKnows(G, S');
    SyncedSame(S.lead, S'.lead);
  }

  function NoPlans(n: nat): seq<seq<nat>> {
    seq(n, i => [])
  }

  /** Every row but the leader's and those from k on has echoed the leader's. */
  function Echoed(rows: seq<GmsRow>, k: nat): seq<GmsRow>
    requires rows != []
  {
    seq(|rows|, r requires 0 <= r < |rows| => if 0 < r < k then Echo(rows[0], rows[r]) else rows[r])
  }

  /** Everyone acknowledges, and has put its row before wedging it. */
  lemma {:induction false} AllAck(G: Group, S: System, vid: nat, ms: seq<nat>, rows: seq<GmsRow>, k: nat) returns (S': System)
    requires Reach(G, S) && Band(S, vid, ms, rows, NoPlans(|ms|)) && Distinct(ms) && 0 < k <= |ms|
    requires forall r :: 0 < r < |ms| ==> rows[0].nChanges > rows[r].nAcked
    ensures Reach(G, S') && Band(S', vid, ms, Echoed(rows, k), NoPlans(|ms|))
    ensures forall r :: 0 < r < k ==> Put(ms[r], vid, Echo(rows[0], rows[r]).(wedged := rows[r].wedged)) in S'.published
    ensures S'.lead == S.lead && S'.log == S.log && S'.running == S.running && S'.waiting == S.waiting
    ensures S'.followers.Keys == S.followers.Keys
    decreases k
  {
    hide Reach, Distinct, Mate;
    if k == 1 {
      S' := S;
      assert Echoed(rows, 1) == rows;
    } else {
      var T := AllAck(G, S, vid, ms, rows, k - 1);
      var mid := Echoed(rows, k - 1);
      S' := FollowerAcks(G, T, vid, ms, mid, k - 1);
      BandBeside(T, S', vid, ms, mid, NoPlans(|ms|), k - 1, Echo(mid[0], mid[k - 1]), []);
      assert mid[k - 1 := Echo(mid[0], mid[k - 1])] == Echoed(rows, k);
      assert NoPlans(|ms|)[k - 1 := []] == NoPlans(|ms|);
    }
  }

  /** The rows when all have acknowledged what the leader has proposed. */
  function AfterAcks(rows: seq<GmsRow>): seq<GmsRow>
    requires rows != []
  {
    seq(|rows|, r requires 0 <= r < |rows| => if r == 0 then Acked(rows[0]) else Echo(Acked(rows[0]), rows[r]))
  }

  /** What the leader has heard of these rows: the one at `late`, if not 0, as it was put before it was wedged. */
  function Told(rows: seq<GmsRow>, late: nat): seq<GmsRow>
    requires late < |rows|
  {
    if late == 0 then rows else rows[late := rows[late].(wedged := false)]
  }

  lemma AfterAcksRows(rows: seq<GmsRow>)
    requires rows != []
    ensures |AfterAcks(rows)| == |rows| && AfterAcks(rows)[0].nCommitted == rows[0].nCommitted
    ensures AfterAcks(rows)[0] == Acked(rows[0])
    ensures forall r :: 0 <= r < |rows| ==>
              var a := AfterAcks(rows)[r];
              && a.wedged && a.nChanges == a.nAcked == rows[0].nChanges && a.suspected == rows[r].suspected
  {
  }

  /** The leader stands in a view, nobody marked, its row the first of these. */
  ghost predicate Opens(S: System, v: View, rows: seq<GmsRow>) {
    && S.running && S.lead.m.view == v && S.lead.m.next.None? && |S.lead.m.sst| == |v.members| == |v.failed| > 0
    && v.myRank == 0 && (forall r :: 0 <= r < |v.failed| ==> !v.failed[r])
    && rows != [] && OwnRow(S.lead.m) == rows[0]
    && Band(S, v.vid, v.members, rows, NoPlans(|v.members|))
  }

  /** The leader acknowledges, everyone does, and the leader hears of it. */
  lemma AckRound(G: Group, S: System, v: View, rows: seq<GmsRow>, late: nat) returns (S': System)
    requires Reach(G, S) && Opens(S, v, rows) && late < |rows| && (late == 0 || !rows[late].wedged)
    requires forall r :: 0 <= r < |rows| ==> rows[r].nAcked < rows[0].nChanges
    ensures Reach(G, S') && Leads(S', S.lead.m.(sst := Told(AfterAcks(rows), late)))
    ensures Band(S', v.vid, v.members, AfterAcks(rows), NoPlans(|v.members|))
    ensures S'.log == S.log && S'.waiting == S.waiting && S'.followers.Keys == S.followers.Keys
  {
    hide Reach, Distinct, Mate, Window, WellShaped, LeadBase, RingShape, Synced;
    LeadKnows(G, S);
    var m, ms := S.lead.m, v.members;
    var T1 := LeaderHears(G, S, rows);
    var T2 := LeaderAcks(G, T1, m.(sst := rows));
    var rows2 := rows[0 := Acked(rows[0])];
    BandKept(S, T2, v.vid, ms, rows, NoPlans(|ms|), rows2[0]);
    var T3 := AllAck(G, T2, v.vid, ms, rows2, |ms|);
    assert Echoed(rows2, |ms|) == AfterAcks(rows);
    LeadKnows(G, T3);
    S' := LeaderHears(G, T3, Told(AfterAcks(rows), late));
    BandKept(T3, S', v.vid, ms, AfterAcks(rows), NoPlans(|ms|), AfterAcks(rows)[0]);
    assert AfterAcks(rows)[0 := AfterAcks(rows)[0]] == AfterAcks(rows);
  }

  /** The rows when a round is over: the leader has committed all it had proposed, too. */
  function AfterRound(rows: seq<GmsRow>): (after: seq<GmsRow>)
    requires rows != []
    ensures |after| == |rows|
  {
    AfterAcks(rows)[0 := Acked(rows[0]).(nCommitted := rows[0].nChanges)]
  }

  lemma AfterRoundRows(rows: seq<GmsRow>)
    requires rows != []
    ensures |AfterRound(rows)| == |rows|
    ensures forall r :: 0 <= r < |rows| ==>
              var a := AfterRound(rows)[r];
              && a.wedged && a.nChanges == a.nAcked == rows[0].nChanges && a.suspected == rows[r].suspected
    ensures AfterRound(rows)[0].nCommitted == rows[0].nChanges
  {
    hide AfterAcks;
    AfterAcksRows(rows);
  }

  /** A round: everyone acknowledges, and the leader commits. */
  lemma Round(G: Group, S: System, v: View, rows: seq<GmsRow>, late: nat) returns (S': System)
    requires Reach(G, S) && Opens(S, v, rows) && late < |rows| && (late == 0 || !rows[late].wedged)
    requires rows[0].nCommitted < rows[0].nChanges && rows[0].nCommitted <= v.vid
    requires forall r :: 0 <= r < |rows| ==> rows[r].nAcked < rows[0].nChanges
    ensures Reach(G, S') && Leads(S', S.lead.m.(sst := Told(AfterRound(rows), late)))
    ensures Band(S', v.vid, v.members, AfterRound(rows), NoPlans(|v.members|))
    ensures S'.log == S.log && S'.waiting == S.waiting && S'.followers.Keys == S.followers.Keys
  {
    hide Reach, Distinct, Mate, Window, WellShaped, LeadBase, RingShape, Synced, AfterAcks;
    AfterAcksRows(rows);
    var R := AfterAcks(rows);
    var T := AckRound(G, S, v, rows, late);
    var m := S.lead.m.(sst := Told(R, late));
    S' := LeaderCommits(G, T, m, rows[0].nChanges);
    assert m.sst[0 := AfterRound(rows)[0]] == Told(AfterRound(rows), late);
    BandKept(T, S', v.vid, v.members, R, NoPlans(|v.members|), AfterRound(rows)[0]);
  }

  // ---------------------------------------------------------------- changing views

  /** Whoever stays is changing to the list without x, or with it. */
  function Plans(ms: seq<nat>, x: nat, k: nat): seq<seq<nat>> {
    seq(|ms|, r requires 0 <= r < |ms| => if 0 < r < k && ms[r] != x then Changed(ms, x) else [])
  }

  /** These rows, wedged by those that are changing views. */
  function Wedging(rows: seq<GmsRow>, ms: seq<nat>, x: nat, k: nat): seq<GmsRow>
    requires |rows| == |ms|
  {
    seq(|rows|, r requires 0 <= r < |rows| => if 0 < r < k && ms[r] != x then rows[r].(wedged := true) else rows[r])
  }

  /** Everyone that stays begins the change committed for this view. */
  lemma {:induction false} AllBegin(G: Group, S: System, vid: nat, ms: seq<nat>, rows: seq<GmsRow>, x: nat, k: nat) returns (S': System)
    requires Reach(G, S) && Band(S, vid, ms, rows, NoPlans(|ms|)) && Distinct(ms) && 0 < k <= |ms|
    requires rows[0].nCommitted > vid && forall r :: 0 < r < |ms| ==> rows[0].nChanges <= rows[r].nAcked
    requires forall r :: 0 < r < |ms| ==> RingShape(G.max, rows[r]) && rows[r].changes[vid % G.max] == x
    ensures Reach(G, S') && Band(S', vid, ms, Wedging(rows, ms, x, k), Plans(ms, x, k))
    ensures S'.lead == S.lead && S'.log == S.log && S'.running == S.running && S'.waiting == S.waiting
    ensures S'.followers.Keys == S.followers.Keys && S.published <= S'.published
    decreases k
  {
    hide Reach, Distinct, Mate, Changed;
    if k == 1 {
      S' := S;
      assert Plans(ms, x, 1) == NoPlans(|ms|) && Wedging(rows, ms, x, 1) == rows;
    } else {
      var T := AllBegin(G, S, vid, ms, rows, x, k - 1);
      var mid := Wedging(rows, ms, x, k - 1);
      if ms[k - 1] == x {
        S' := T;
        assert Plans(ms, x, k) == Plans(ms, x, k - 1) && Wedging(rows, ms, x, k) == mid;
      } else {
        S' := FollowerBegins(G, T, vid, ms, mid, k - 1, x);
        BandBeside(T, S', vid, ms, mid, Plans(ms, x, k - 1), k - 1, mid[k - 1].(wedged := true), Changed(ms, x));
        assert mid[k - 1 := mid[k - 1].(wedged := true)] == Wedging(rows, ms, x, k);
        assert Plans(ms, x, k - 1)[k - 1 := Changed(ms, x)] == Plans(ms, x, k);
      }
    }
  }

  lemma WedgedAlready(rows: seq<GmsRow>, ms: seq<nat>, x: nat, k: nat)
    requires |rows| == |ms| && forall r :: 0 <= r < |rows| ==> rows[r].wedged
    ensures Wedging(rows, ms, x, k) == rows
  {
  }

  /** The leader with the change x begun. */
  function Begun(m: Member, x: nat): Member
    requires 0 <= m.view.myRank < |m.view.members| == |m.view.failed| == |m.sst|
  {
    SetOwn(m.(next := Some(NextView(m.view, x))), OwnRow(m).(wedged := true))
  }

  lemma LeaderBegins(G: Group, S: System, m: Member, x: nat) returns (S': System)
    requires Reach(G, S) && Leads(S, m) && m.next.None?
    requires m.sst[0].nChanges <= m.sst[0].nAcked && m.sst[0].nCommitted > m.view.vid
    requires RingShape(G.max, m.sst[0]) && m.sst[0].changes[m.view.vid % G.max] == x && m.view.members[0] != x
    ensures Reach(G, S') && Leads(S', Begun(m, x)) && Aside(S, S') && S'.log == S.log
  {
    hide Reach, WellShaped, RingShape, Distinct, Window, Synced, NextView;
    LeadKnows(G, S);
    StartLead(G.max, S.lead.m, x);
    S' := LeaderGoes(G, S, BeginChange);
    LeadKnows(G, S');
    SyncedSame(S.lead, S'.lead);
  }

  lemma StartLead(max: nat, m: Member, x: nat)
    requires MemberShape(max, m) && CurrentChange(max, m) == x && m.view.myRank == 0 && m.view.members[0] != x
    ensures Start(max, m) == Going(Begun(m, x))
  {
    hide RankOf;
    HeadKept(m.view.members, x);
    FirstRank(Changed(m.view.members, x));
  }

  /** The leader installs: it leaves its row behind, and sends the view to its joiner. */
  lemma LeaderInstalls(G: Group, S: System, m: Member, w: View) returns (S': System)
    requires Reach(G, S) && Leads(S, m) && m.next == Some(w) && |w.members| <= G.max && Served(m)
    requires forall r :: 0 <= r < |m.sst| && !m.view.failed[r] ==> m.sst[r].wedged
    ensures Reach(G, S') && S'.running && S'.log == S.log && S'.followers == S.followers && S.published <= S'.published
    ensures S'.lead.m.view == w && S'.lead.m.next.None? && w.members != [] && w.myRank == 0 && |w.failed| == |w.members|
    ensures |S'.lead.m.sst| == |w.members| && S'.lead.m.last == m.last
    ensures OwnRow(S'.lead.m) == InitFromExisting(G.max, m.sst[0]) && S'.waiting == Welcomed(S, w)
    ensures S'.lead.m.joining == if |w.members| > |m.view.members| then None else m.joining
    ensures Put(m.view.members[0], m.view.vid, m.sst[0].(globalMinReady := true)) in S'.published
    ensures w.members[0] == m.view.members[0]
    ensures Put(w.members[0], w.vid, InitFromExisting(G.max, m.sst[0])) in S'.published
  {
    hide Reach, WellShaped, RingShape, Distinct, Window, Synced, Installed, FreshTable, Welcomed, InitFromExisting, Served;
    LeadKnows(G, S);
    LeadNextShape(G, S);
    InstallIs(G.max, S.lead.m);
    ReachBase(G, S);
    S' := LeaderMovesOn(G, S);
    LeadKnows(G, S');
  }

  lemma LeadNextShape(G: Group, S: System)
    requires Reach(G, S) && S.lead.m.next.Some?
    ensures var w := S.lead.m.next.value; |w.members| == |w.failed| && 0 <= w.myRank < |w.members|
  {
    hide Reach, WellShaped, LeadBase, FollowersInv, WaitingInv, PublishedInv;
    ReachBase(G, S);
  }

  lemma LeaderMovesOn(G: Group, S: System) returns (S': System)
    requires Reach(G, S) && WellShaped(G, S) && S.running && CanInstall(G.max, S.lead.m) && Served(S.lead.m)
    ensures Reach(G, S') && S' == AfterLeadInstall(G, S)
  {
    hide Reach, WellShaped, CanInstall, Installed, Acted, MayAct, Heard, CanHear, StartedJoiner, ReceiveJoin, RankOfLeader, RingShape, Served;
    Go(G, S, LeadInstalls);
    S' := Next(G, S, LeadInstalls);
  }

  /** Whoever is changing to the list `to` has moved to it, below k. */
  ghost predicate Moved(G: Group, S: System, vid: nat, ms: seq<nat>, rows: seq<GmsRow>, x: nat, k: nat) {
    && |rows| == |ms|
    && (forall r :: 0 < r < k && r < |ms| && ms[r] != x ==>
          Mate(S, ms[r], vid + 1, Changed(ms, x), InitFromExisting(G.max, rows[r]), []))
    && forall r :: k <= r < |ms| && 0 < r && ms[r] != x ==> Mate(S, ms[r], vid, ms, rows[r], Changed(ms, x))
  }

  lemma MovedBeside(G: Group, S: System, S': System, vid: nat, ms: seq<nat>, rows: seq<GmsRow>, x: nat, k: nat)
    requires Moved(G, S, vid, ms, rows, x, k) && Distinct(ms) && 0 < k < |ms| && ms[k] != x && Beside(S, S', ms[k])
    requires Mate(S', ms[k], vid + 1, Changed(ms, x), InitFromExisting(G.max, rows[k]), [])
    ensures Moved(G, S', vid, ms, rows, x, k + 1)
  {
    hide Changed, InitFromExisting;
  }

  /** After the leader all its followers that stay install the view, once they have seen it go. */
  lemma {:induction false} AllInstall(G: Group, S: System, vid: nat, ms: seq<nat>, rows: seq<GmsRow>, x: nat, k: nat) returns (S': System)
    requires Reach(G, S) && Puts(S, vid, ms, rows) && Moved(G, S, vid, ms, rows, x, 0) && Distinct(ms) && 0 < k <= |ms|
    requires 0 < |Changed(ms, x)| <= G.max
    requires rows[0].globalMinReady && forall r :: 0 <= r < |ms| ==> rows[r].wedged
    ensures Reach(G, S') && Moved(G, S', vid, ms, rows, x, k)
    ensures S'.lead == S.lead && S'.log == S.log && S'.running == S.running && S'.waiting == S.waiting
    ensures S'.followers.Keys == S.followers.Keys && S.published <= S'.published
    decreases k
  {
    hide Reach, Distinct, Mate, Changed, InitFromExisting;
    if k == 1 {
      S' := S;
    } else {
      var T := AllInstall(G, S, vid, ms, rows, x, k - 1);
      if ms[k - 1] == x {
        S' := T;
      } else {
        S' := FollowerInstalls(G, T, vid, ms, rows, k - 1, Changed(ms, x));
        MovedBeside(G, T, S', vid, ms, rows, x, k - 1);
      }
    }
  }

  // ---------------------------------------------------------------- suspicion

  lemma LeaderReports(G: Group, S: System, m: Member, rank: nat) returns (S': System)
    requires Reach(G, S) && Leads(S, m) && 0 < rank < |m.view.members| && rank < |m.sst[0].suspected|
    requires Count(m.sst[0].suspected[rank := true]) < HalfOf(|m.view.members|)
    ensures Reach(G, S') && Aside(S, S') && S'.log == S.log
    ensures Leads(S', SetOwn(m, m.sst[0].(suspected := m.sst[0].suspected[rank := true])))
  {
    hide Reach, WellShaped, Distinct, Window, Synced, Count;
    LeadKnows(G, S);
    S' := LeaderGoes(G, S, Report(rank));
    LeadKnows(G, S');
    SyncedSame(S.lead, S'.lead);
  }

  /** The leader with rank q marked and its removal proposed. */
  function Marked(max: nat, m: Member, q: nat): Member
    requires MemberShape(max, m) && q < |m.view.members|
  {
    SetOwn(m.(view := WithMark(m.view, q)), Propose(max, OwnRow(m).(wedged := true), m.view.members[q]))
  }

  function WithMark(v: View, q: nat): View
    requires q < |v.failed|
  {
    v.(failed := v.failed[q := true], nFailed := v.nFailed + 1)
  }

  /** The leader may mark rank q and propose its removal: it stays in a minority of marks, has room, and has not proposed it already. */
  ghost predicate MayMark(max: nat, log: seq<nat>, m: Member, q: nat) {
    && LeadBase(max, log, m) && 0 < q < |m.view.members| && m.view.nFailed + 1 < HalfOf(|m.view.members|)
    && |log| - OwnRow(m).nCommitted < max
    && forall k :: 0 <= OwnRow(m).nCommitted <= k < |log| ==> log[k] != m.view.members[q]
  }

  lemma MarkIs(max: nat, log: seq<nat>, m: Member, q: nat)
    requires MayMark(max, log, m, q) && !m.view.failed[q]
    ensures MarkFailed(max, m, q) == Going(Marked(max, m, q)) && LeadBase(max, log + [m.view.members[q]], Marked(max, m, q))
  {
    hide Distinct, RankOf, ChangesContains;
    var row := OwnRow(m).(wedged := true);
    SameWindow(max, log, OwnRow(m), row);
    NotPending(max, log, row, m.view.members[q]);
    assert m.sst[0 := row][0 := Propose(max, row, m.view.members[q])] == m.sst[0 := Propose(max, row, m.view.members[q])];
    ProposeWindow(max, log, row, m.view.members[q]);
    HeadDiffers(m.view.members, q);
    assert RankOfLeader(m.view.failed[q := true]) == 0;
  }

  lemma NotPending(max: nat, log: seq<nat>, r: GmsRow, id: nat)
    requires RingShape(max, r) && Window(max, log, r) && r.nChanges == |log| < r.nCommitted + max && 0 <= r.nCommitted
    requires forall k :: r.nCommitted <= k < |log| ==> log[k] != id
    ensures !ChangesContains(max, r, id)
  {
  }

  /** Ranks that are marked or not suspected are passed over. */
  lemma {:induction false} MarkSkips(max: nat, m: Member, q: nat, next: nat)
    requires MemberShape(max, m) && q <= next <= |m.view.members|
    requires forall r :: q <= r < next ==> !OwnRow(m).suspected[r] || m.view.failed[r]
    ensures MarkFrom(max, m, q) == MarkFrom(max, m, next)
    decreases |m.view.members| - q
  {
    hide MarkFailed;
    if q < next {
      MarkSkips(max, m, q + 1, next);
    }
  }

  /** The trigger with one member to mark. */
  lemma MarksOne(max: nat, log: seq<nat>, m: Member, q: nat, from: nat)
    requires MayMark(max, log, m, q) && from <= q && !m.view.failed[q] && OwnRow(m).suspected[q]
    requires forall r :: from <= r < |m.view.members| && r != q ==> !OwnRow(m).suspected[r] || m.view.failed[r]
    ensures MarkFrom(max, m, from) == Going(Marked(max, m, q))
  {
    hide LeadBase, MarkFailed, Propose;
    MarkIs(max, log, m, q);
    MayShape(max, log, m, q);
    MarkSkips(max, m, from, q);
    MarkedShape(max, m, q);
    MarkSkips(max, Marked(max, m, q), q + 1, |m.view.members|);
  }

  /** The trigger with two members to mark. */
  lemma MarksTwo(max: nat, log: seq<nat>, m: Member, q: nat, q': nat)
    requires MayMark(max, log, m, q) && q < q' < |m.view.members| && !m.view.failed[q] && OwnRow(m).suspected[q]
    requires MayMark(max, log + [m.view.members[q]], Marked(max, m, q), q') && !m.view.failed[q'] && OwnRow(m).suspected[q']
    requires forall r :: 0 <= r < |m.view.members| && r != q && r != q' ==> !OwnRow(m).suspected[r] || m.view.failed[r]
    ensures MarkFrom(max, m, 0) == Going(Marked(max, Marked(max, m, q), q'))
  {
    hide LeadBase, MarkFailed, Propose;
    MarkIs(max, log, m, q);
    MayShape(max, log, m, q);
    MarkSkips(max, m, 0, q);
    MarkedShape(max, m, q);
    MarksOne(max, log + [m.view.members[q]], Marked(max, m, q), q', q + 1);
  }

  lemma MayShape(max: nat, log: seq<nat>, m: Member, q: nat)
    requires MayMark(max, log, m, q)
    ensures MemberShape(max, m) && |m.view.failed| == |m.view.members| == |m.sst|
  {
  }

  lemma MarkedShape(max: nat, m: Member, q: nat)
    requires MemberShape(max, m) && q < |m.view.members|
    ensures var m' := Marked(max, m, q);
            && MemberShape(max, m') && m'.view == WithMark(m.view, q)
            && OwnRow(m').suspected == OwnRow(m).suspected && OwnRow(m').nCommitted == OwnRow(m).nCommitted
            && m'.next == m.next && m'.joining == m.joining && m'.last == m.last
            && m'.sst == m.sst[m.view.myRank := OwnRow(m')]
            && OwnRow(m') == Propose(max, OwnRow(m).(wedged := true), m.view.members[q])
  {
  }

  /** The suspicions of a table: exactly the ranks in Q. */
  ghost predicate Suspects(max: nat, table: seq<GmsRow>, Q: set<nat>) {
    && (forall r :: 0 <= r < |table| ==> |table[r].suspected| == max)
    && (forall r, q: nat :: 0 <= r < |table| && q < max && table[r].suspected[q] ==> q in Q && q < |table|)
    && forall q: nat :: q in Q ==> q < max && exists r :: 0 <= r < |table| && table[r].suspected[q]
  }

  lemma JoinedIs(max: nat, table: seq<GmsRow>, Q: set<nat>)
    requires table != [] && Suspects(max, table, Q)
    ensures forall q: nat :: q < max ==> (Joined(|table|, table, table[0].suspected)[q] <==> q in Q)
  {
    var own := table[0].suspected;
    forall q: nat | q < max ensures Joined(|table|, table, own)[q] <==> q in Q {
      if q in Q {
        var r :| 0 <= r < |table| && table[r].suspected[q];
        assert q < |table|;
      }
    }
  }

  /** The own row when a trigger has joined the suspicions Q to it. */
  function Joining(max: nat, row: GmsRow, Q: set<nat>): GmsRow {
    row.(suspected := seq(max, q => q in Q))
  }

  lemma MergedIs(max: nat, m: Member, Q: set<nat>)
    requires MemberShape(max, m) && m.view.myRank == 0 && Suspects(max, m.sst, Q)
    ensures Merged(max, m) == m.(sst := m.sst[0 := Joining(max, m.sst[0], Q)])
  {
    JoinedIs(max, m.sst, Q);
    assert Joined(|m.sst|, m.sst, m.sst[0].suspected) == seq(max, q => q in Q);
  }

  lemma MergedBaseIs(G: Group, S: System, Q: set<nat>)
    requires Reach(G, S) && Suspects(G.max, S.lead.m.sst, Q)
    ensures MemberShape(G.max, S.lead.m) && LeadBase(G.max, S.log, Merged(G.max, S.lead.m))
    ensures Merged(G.max, S.lead.m) == S.lead.m.(sst := S.lead.m.sst[0 := Joining(G.max, S.lead.m.sst[0], Q)])
  {
    hide Reach, LeadBase, Merged, Suspects, Joining, FollowersInv, WaitingInv, PublishedInv;
    ReachBase(G, S);
    LeadFacts(G, S);
    MergedBase(G.max, S.log, S.lead.m);
    MergedIs(G.max, S.lead.m, Q);
  }

  /** What the leader remembers once it has dealt with the suspicions Q. */
  function Recalled(max: nat, m: Member, Q: set<nat>): (last: seq<bool>)
    requires |m.last| == max
    ensures |last| == max
  {
    seq(max, w requires 0 <= w < max => if w < |m.sst| then w in Q else m.last[w])
  }

  /** The leader's trigger, when what it adds is the marks that make m' and the removals that make log'. */
  lemma LeaderSuspects(G: Group, S: System, m: Member, Q: set<nat>, q: nat, m': Member, log': seq<nat>) returns (S': System)
    requires Reach(G, S) && Leads(S, m) && MemberShape(G.max, m) && Waits(m)
    requires Suspects(G.max, m.sst, Q) && q in Q && q < G.max && !m.last[q]
    requires MarkFrom(G.max, Merged(G.max, m), 0) == Going(m') && LeadBase(G.max, log', m') && S.log <= log'
    requires |log'| <= |S.log| + G.max && |m'.sst| == |m.sst| && |m'.view.failed| == |m.view.failed| && m'.last == m.last
    requires m'.view.members == m.view.members && m'.view.vid == m.view.vid
    requires OwnRow(m').suspected == seq(G.max, r => r in Q)
    requires forall r :: 0 <= r < |m.view.failed| && m.view.failed[r] ==> m'.view.failed[r]
    ensures Reach(G, S') && Leads(S', m'.(last := Recalled(G.max, m, Q))) && S'.log == log' && Aside(S, S')
  {
    hide Reach, WellShaped, RingShape, Distinct, Window, Synced, Merged, MarkFrom, Extended, NewlySuspected, Due, Suspects;
    LeadKnows(G, S);
    NotDue(G.max, S.lead);
    NewSuspicion(G.max, m, Q, q);
    assert Remembered(G.max, m') == Recalled(G.max, m, Q);
    var m'' := m'.(last := Remembered(G.max, m'));
    S' := SuspicionGoes(G, S, m'');
    RememberBase(G.max, log', m');
    LogIs(G.max, S.log, log', m'');
    LeadKnows(G, S');
    SyncedSame(S.lead, S'.lead);
  }

  lemma NewSuspicion(max: nat, m: Member, Q: set<nat>, q: nat)
    requires MemberShape(max, m) && Suspects(max, m.sst, Q) && q in Q && q < max && !m.last[q]
    ensures NewlySuspected(max, m)
  {
  }

  lemma SuspicionGoes(G: Group, S: System, m': Member) returns (S': System)
    requires Reach(G, S) && S.running && MemberShape(G.max, S.lead.m) && Synced(S.lead) && NewlySuspected(G.max, S.lead.m)
    requires Suspect(G.max, S.lead.m) == Going(m') && !Due(G.max, S.lead)
    ensures MemberShape(G.max, m') && G.first != []
    ensures Reach(G, S') && S' == WithLead(G, S, m')
  {
    hide Reach, WellShaped, RingShape, Suspect, Synced, RankOfLeader, NewlySuspected, Due;
    LeadKnows(G, S);
    Go(G, S, LeadActs(Suspicion));
    S' := Next(G, S, LeadActs(Suspicion));
  }

  // ---------------------------------------------------------------- joins

  /** A node connects, and the leader proposes it. */
  lemma LeaderTakesIn(G: Group, S: System, m: Member, id: nat) returns (S': System)
    requires Reach(G, S) && Leads(S, m) && m.next.None? && m.joining.None? && m.sst[0].nCommitted <= m.view.vid
    requires id !in m.view.members && id !in S.followers && id !in S.waiting
    requires m.view.vid <= |S.log| && id !in S.log[m.view.vid..] && m.sst[0].nChanges - m.sst[0].nCommitted != G.max / 2
    requires RingShape(G.max, m.sst[0])
    ensures Reach(G, S') && Leads(S', SetOwn(m.(joining := Some(id)), Propose(G.max, m.sst[0], id).(wedged := true)))
    ensures S'.log == S.log + [id] && Aside(S, S')
  {
    hide Reach, WellShaped, RingShape, Distinct, Window, Synced, Extended, Due;
    LeadKnows(G, S);
    NotDue(G.max, S.lead);
    Go(G, S, LeadJoins(id));
    S' := Next(G, S, LeadJoins(id));
    JoinBase(G.max, S.log, S.lead.m, id);
    LogIs(G.max, S.log, S.log + [id], S'.lead.m);
    LeadKnows(G, S');
    SyncedSame(S.lead, S'.lead);
  }
}
