/** What every step of the membership protocol keeps, in every run. */
module MembershipInv {
  import opened Collections
  import opened Messages
  import opened MembershipSpec
  import opened Membership
  import opened ChangeLog
  import opened LeaderSteps
  import opened ViewInstall

  // ---------------------------------------------------------------- one member

  /** A row's counters are in order and its ring holds a stretch of the leader's log. */
  ghost predicate RowInv(G: Group, log: seq<nat>, r: GmsRow) {
    && RingShape(G.max, r) && Window(G.max, log, r)
    && 0 <= r.nCommitted <= r.nAcked <= r.nChanges
    && !r.suspected[0]
  }

  /** The leader heads the view, unmarked, and the member stands where it believes to stand. */
  ghost predicate Placed(G: Group, id: nat, v: View) {
    && G.first != [] && 0 <= v.myRank < |v.members| == |v.failed| && Distinct(v.members)
    && v.members[0] == LeadId(G) && v.members[v.myRank] == id && !v.failed[0]
  }

  ghost predicate ViewInv(G: Group, id: nat, v: View) {
    ViewShape(G.max, v) && Placed(G, id, v)
  }

  ghost predicate NextInv(G: Group, id: nat, v: View, next: Option<View>) {
    next.Some? ==> next.value.vid == v.vid + 1 && Placed(G, id, next.value)
  }

  /** What a member has in its table it has heard from the row's owner in this view. */
  ghost predicate TableInv(published: set<Put>, p: Proc) {
    && |p.m.view.members| == |p.m.sst| && 0 <= p.m.view.myRank < |p.m.sst|
    && (p.m.view.myRank as nat in p.heard)
    && (forall r :: 0 <= r < |p.m.sst| ==> |p.m.sst[r].suspected| > 0 && !p.m.sst[r].suspected[0])
    && (forall r: nat :: r < |p.m.sst| && r !in p.heard ==> !p.m.sst[r].wedged && !p.m.sst[r].globalMinReady)
    && (forall r: nat :: r < |p.m.sst| && r in p.heard && r != p.m.view.myRank
          ==> Put(p.m.view.members[r], p.m.view.vid, p.m.sst[r]) in published)
  }

  ghost predicate ProcInv(G: Group, log: seq<nat>, published: set<Put>, id: nat, p: Proc) {
    && MemberShape(G.max, p.m)
    && ViewInv(G, id, p.m.view)
    && NextInv(G, id, p.m.view, p.m.next)
    && RowInv(G, log, OwnRow(p.m))
    && (p.m.next.Some? ==> p.m.view.vid < OwnRow(p.m).nChanges)
    && !OwnRow(p.m).globalMinReady
    && TableInv(published, p)
  }

  // ---------------------------------------------------------------- the group

  ghost predicate LeadInv(G: Group, S: System) {
    && G.first != []
    && ProcInv(G, S.log, S.published, LeadId(G), S.lead)
    && LeadBase(G.max, S.log, S.lead.m)
    && (S.lead.m.next.Some? ==> S.lead.m.view.vid < OwnRow(S.lead.m).nCommitted)
  }

  ghost predicate FollowersInv(G: Group, S: System)
    requires G.first != []
  {
    forall id :: id in S.followers ==>
      id != LeadId(G) && ProcInv(G, S.log, S.published, id, S.followers[id])
      && S.followers[id].m.view.vid <= S.lead.m.view.vid
  }

  /** A view that waits for its joiner: the leader has sent it as it stands at the leader. */
  ghost predicate WaitingInv(G: Group, S: System)
    requires G.first != []
  {
    forall id :: id in S.waiting ==>
      var v := S.waiting[id];
      && id != LeadId(G) && id !in S.followers && id in v.members
      && ViewInv(G, LeadId(G), v) && v.vid <= S.lead.m.view.vid
  }

  ghost predicate PutInv(G: Group, S: System, put: Put)
    requires G.first != []
  {
    && RowInv(G, S.log, put.row) && put.vid <= S.lead.m.view.vid
    && (put.owner == LeadId(G) && put.row.globalMinReady ==> put.vid < S.lead.m.view.vid)
    && (put.owner in S.followers ==>
          var m := S.followers[put.owner].m;
          put.vid <= m.view.vid && 0 <= m.view.myRank < |m.sst| && (put.vid == m.view.vid ==> put.row.nAcked <= OwnRow(m).nAcked))
    && (put.owner in S.waiting ==> put.vid < S.waiting[put.owner].vid)
  }

  ghost predicate PublishedInv(G: Group, S: System)
    requires G.first != []
  {
    forall put :: put in S.published ==> PutInv(G, S, put)
  }

  /** What every run keeps, whatever is proposed, marked, lost or overwritten. */
  ghost predicate Base(G: Group, S: System) {
    LeadInv(G, S) && FollowersInv(G, S) && WaitingInv(G, S) && PublishedInv(G, S)
  }

  /** The view the leader is changing to, as fixed when the change began. */
  ghost predicate LeadNext(log: seq<nat>, m: Member) {
    m.next.Some? ==>
      var v, w := m.view, m.next.value;
      && |v.members| == |v.failed| && 0 <= v.myRank < |v.members| == |m.sst| && v.vid < OwnRow(m).nCommitted <= |log|
      && w.vid == v.vid + 1 && w.members == Changed(v.members, log[v.vid]) && |w.failed| == |w.members|
      && w.myRank == 0 && w.nFailed == Count(w.failed)
      && forall r :: 0 <= r < |w.failed| && w.failed[r] && r < |NextView(v, log[v.vid]).failed|
           ==> NextView(v, log[v.vid]).failed[r]
  }

  /** The leader's accounts. */
  ghost predicate Settled(G: Group, S: System) {
    LeadOk(G.max, S.log, S.lead.m) && LeadNext(S.log, S.lead.m)
  }

  ghost predicate Inv(G: Group, S: System) {
    Base(G, S) && Settled(G, S)
  }

  lemma BaseInvShape(G: Group, S: System)
    requires Base(G, S)
    ensures WellShaped(G, S)
  {
    hide LeadBase, Window, Distinct;
    forall put | put in S.published ensures RingShape(G.max, put.row) {
      assert PutInv(G, S, put);
    }
  }

  // ---------------------------------------------------------------- members as the log grows

  lemma ProcStable(G: Group, log: seq<nat>, log': seq<nat>, published: set<Put>, published': set<Put>, id: nat, p: Proc)
    requires ProcInv(G, log, published, id, p) && log <= log' && published <= published'
    ensures ProcInv(G, log', published', id, p)
  {
    hide Window, Placed;
    WindowGrows(G.max, log, log', OwnRow(p.m));
  }

  lemma RowStable(G: Group, log: seq<nat>, log': seq<nat>, r: GmsRow)
    requires RowInv(G, log, r) && log <= log'
    ensures RowInv(G, log', r)
  {
  }

  /** The leader's rank is 0 in every view, and nobody else stands there. */
  lemma HeadIsLead(G: Group, id: nat, v: View)
    requires Placed(G, id, v)
    ensures v.myRank == 0 <==> id == LeadId(G)
    ensures RankOfLeader(v.failed) == 0
  {
  }

  lemma LeadNotLogged(G: Group, S: System)
    requires Base(G, S)
    ensures LeadId(G) !in S.log
  {
  }

  /** A change of anyone but the leader keeps everyone in place, unless the member itself goes. */
  lemma NextPlaced(G: Group, id: nat, v: View, x: nat)
    requires ViewInv(G, id, v) && x != LeadId(G) && NextView(v, x).myRank != -1
    ensures NextInv(G, id, v, Some(NextView(v, x)))
  {
    hide RankOf;
    ChangedDistinct(v.members, x);
    HeadKept(v.members, x);
    HeadUnmarked(v, x);
  }
}
