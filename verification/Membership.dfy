/**
 The membership protocol of a group whose leader, the member at rank 0, is never suspected:
 members come and go, rows travel late and in any order, and views follow one another.
 */
module Membership {
  import opened Messages
  import opened MembershipSpec

  /** Room in every table, and the members of the first view, the leader first. */
  datatype Group = Group(max: nat, first: seq<nat>)

  /** A row as its owner once published it in the table of view `vid`. */
  datatype Put = Put(owner: nat, vid: nat, row: GmsRow)

  /** A running member, and the ranks it has heard from in its view. */
  datatype Proc = Proc(m: Member, heard: set<nat>)

  /**
   log lists every change the leader has ever proposed.  waiting holds the views sent to
   joiners that have not started yet.  When the leader throws, it stops where it was.
   */
  datatype System = System(
    log: seq<nat>,
    lead: Proc,
    running: bool,
    followers: map<nat, Proc>,
    waiting: map<nat, View>,
    published: set<Put>)

  /** What a member does on its own. */
  datatype Act =
    | Report(rank: nat)
    | Suspicion
    | Acknowledge
    | CommitChange
    | BeginChange

  datatype Step =
    | LeadActs(act: Act)
    | LeadJoins(joiner: nat)
    | LeadHears(put: Put)
    | LeadInstalls
    | Acts(id: nat, act: Act)
    | Hears(id: nat, put: Put)
    | Installs(id: nat)
    | JoinerStarts(id: nat, put: Put)
    | Crash(id: nat)

  function LeadId(G: Group): nat
    requires G.first != []
  {
    G.first[0]
  }

  // ---------------------------------------------------------------- one member

  /** Something has been heard from every member not marked failed. */
  predicate Synced(p: Proc)
    requires |p.m.sst| == |p.m.view.failed|
  {
    forall r :: 0 <= r < |p.m.sst| && !p.m.view.failed[r] ==> r in p.heard
  }

  predicate MayAct(max: nat, p: Proc, act: Act)
    requires MemberShape(max, p.m)
  {
    match act
    case Report(rank) => 0 < rank < |p.m.view.members|
    case Suspicion => Synced(p) && NewlySuspected(max, p.m)
    case Acknowledge => Synced(p) && p.m.next.None? && HasLeader(p.m) && CanAck(max, p.m)
    case CommitChange => Synced(p) && p.m.next.None? && CanCommit(max, p.m)
    case BeginChange => Synced(p) && p.m.next.None? && HasLeader(p.m) && !CanAck(max, p.m) && CanStart(max, p.m)
  }

  function Acted(max: nat, m: Member, act: Act): (o: Outcome<Member>)
    requires MemberShape(max, m) && (act.Report? ==> act.rank < |m.view.members|) && (act.Acknowledge? ==> HasLeader(m))
    ensures o.Going? ==> MemberShape(max, o.value)
  {
    match act
    case Report(rank) => ReportFailure(max, m, rank)
    case Suspicion => Suspect(max, m)
    case Acknowledge => Going(Ack(max, m))
    case CommitChange => Going(Commit(max, m))
    case BeginChange => Start(max, m)
  }

  /** A row of this view arrives; rows of failed members are frozen. */
  predicate CanHear(p: Proc, put: Put)
    requires |p.m.sst| == |p.m.view.failed| == |p.m.view.members|
  {
    var r := RankOf(p.m.view.members, put.owner);
    put.vid == p.m.view.vid && r >= 0 && r != p.m.view.myRank && !p.m.view.failed[r]
  }

  function Heard(p: Proc, put: Put): Proc
    requires |p.m.sst| == |p.m.view.failed| == |p.m.view.members| && CanHear(p, put)
  {
    var r := RankOf(p.m.view.members, put.owner);
    Proc(p.m.(sst := p.m.sst[r := put.row]), p.heard + {r})
  }

  /** The next view fits the table, and everyone not failed is wedged. */
  predicate CanInstall(max: nat, m: Member)
    requires |m.sst| == |m.view.failed|
  {
    m.next.Some? && ViewShape(max, m.next.value) && MetaWedged(m)
  }

  /**
   A node that is added is the one whose connection the leader holds.  Otherwise there is
   nobody to send the view to, or somebody else, and the leader waits for the node for ever.
   */
  predicate Served(m: Member) {
    (m.next.Some? && |m.next.value.members| > |m.view.members|)
      ==> m.joining == Some(m.next.value.members[|m.next.value.members| - 1])
  }

  function Installed(max: nat, m: Member): Proc
    requires MemberShape(max, m) && m.next.Some? && ViewShape(max, m.next.value)
  {
    Proc(Install(max, m), {m.next.value.myRank as nat})
  }

  /** A joiner's engine, from the view it was sent and the leader's row. */
  function StartedJoiner(max: nat, id: nat, v: View, lead: GmsRow): Proc
    requires id in v.members && |v.members| > 0
  {
    var me := RankOf(v.members, id);
    var sst := FreshTable(max, |v.members|, me, InitFromExisting(max, lead));
    Proc(Member(v.(myRank := me), if me == 0 then sst else sst[0 := lead], None, None, seq(max, i => false)),
         {0, me as nat})
  }

  // ---------------------------------------------------------------- the log

  /** The log with the proposals the leader's ring holds beyond it. */
  function Extended(max: nat, log: seq<nat>, r: GmsRow): (log': seq<nat>)
    requires RingShape(max, r)
    ensures log <= log'
  {
    if r.nChanges <= |log| then log
    else log + seq(r.nChanges - |log|, i requires 0 <= i < r.nChanges - |log| => r.changes[(|log| + i) % max])
  }

  /** The members of view v: the first view's, changed by the first v entries of the log. */
  function MembersAt(first: seq<nat>, log: seq<nat>, v: nat): seq<nat>
    requires v <= |log|
  {
    if v == 0 then first else Changed(MembersAt(first, log, v - 1), log[v - 1])
  }

  // ---------------------------------------------------------------- the group

  function InitialProc(G: Group, rank: nat): Proc {
    Proc(Member(View(0, G.first, seq(|G.first|, i => false), 0, rank),
                seq(|G.first|, i => BlankRow(G.max)), None, None, seq(G.max, i => false)), {rank})
  }

  ghost predicate Distinct(s: seq<nat>) {
    forall i, j :: 0 <= i < j < |s| ==> s[i] != s[j]
  }

  ghost predicate Init(G: Group, S: System) {
    && 0 < |G.first| <= G.max && Distinct(G.first)
    && S.log == [] && S.lead == InitialProc(G, 0) && S.running && S.waiting == map[]
    && (forall id :: id in S.followers <==> id in G.first[1..])
    && (forall id :: id in S.followers ==> S.followers[id] == InitialProc(G, RankOf(G.first, id)))
    && (forall put :: put in S.published ==> put.owner in G.first && put == Put(put.owner, 0, BlankRow(G.max)))
  }

  ghost predicate WellShaped(G: Group, S: System) {
    && G.first != []
    && MemberShape(G.max, S.lead.m)
    && (forall id :: id in S.followers ==> MemberShape(G.max, S.followers[id].m))
    && (forall id :: id in S.waiting ==> id in S.waiting[id].members && ViewShape(G.max, S.waiting[id]))
    && (forall put :: put in S.published ==> RingShape(G.max, put.row))
  }

  ghost predicate Enabled(G: Group, S: System, step: Step)
    requires WellShaped(G, S)
  {
    match step
    case LeadActs(act) => S.running && MayAct(G.max, S.lead, act)
    case LeadJoins(id) =>
      && S.running && Synced(S.lead) && S.lead.m.next.None? && S.lead.m.joining.None? && IsLeader(S.lead.m.view)
      && id !in S.lead.m.view.members && S.lead.m.view.vid <= |S.log| && id !in S.log[S.lead.m.view.vid..]
      && id !in S.followers && id !in S.waiting && id != LeadId(G)
    case LeadHears(put) => S.running && put in S.published && CanHear(S.lead, put)
    case LeadInstalls => S.running && CanInstall(G.max, S.lead.m) && Served(S.lead.m)
    case Acts(id, act) => id in S.followers && MayAct(G.max, S.followers[id], act)
    case Hears(id, put) => id in S.followers && put in S.published && CanHear(S.followers[id], put)
    case Installs(id) =>
      id in S.followers && CanInstall(G.max, S.followers[id].m)
      && HasLeader(S.followers[id].m) && LeaderRow(S.followers[id].m).globalMinReady
    case JoinerStarts(id, put) =>
      id in S.waiting && put in S.published && put.owner == LeadId(G) && put.vid == S.waiting[id].vid
    case Crash(id) => id in S.followers
  }

  function WithLead(G: Group, S: System, m: Member): System
    requires G.first != [] && MemberShape(G.max, m)
  {
    S.(lead := Proc(m, S.lead.heard), log := Extended(G.max, S.log, OwnRow(m)),
       published := S.published + {Put(LeadId(G), m.view.vid, OwnRow(m))})
  }

  function WithFollower(S: System, id: nat, p: Proc): System
    requires 0 <= p.m.view.myRank < |p.m.sst|
  {
    S.(followers := S.followers[id := p], published := S.published + {Put(id, p.m.view.vid, OwnRow(p.m))})
  }

  /** The row a member that acknowledges puts before it wedges the view. */
  function Unwedged(m: Member, m': Member): GmsRow
    requires 0 <= m.view.myRank < |m.sst| && 0 <= m'.view.myRank < |m'.sst|
  {
    OwnRow(m').(wedged := OwnRow(m).wedged)
  }

  /** After a member's own step S' also holds what it has put half-way. */
  function Halfway(S': System, id: nat, m: Member, m': Member, act: Act): (S'': System)
    requires 0 <= m.view.myRank < |m.sst| && 0 <= m'.view.myRank < |m'.sst|
    ensures S'' == S'.(published := S''.published) && S'.published <= S''.published
  {
    if act.Acknowledge? then S'.(published := S'.published + {Put(id, m'.view.vid, Unwedged(m, m'))}) else S'
  }

  /** The row a member leaves behind in the old table: its trim is finished. */
  function Farewell(id: nat, m: Member): Put
    requires 0 <= m.view.myRank < |m.sst|
  {
    Put(id, m.view.vid, OwnRow(m).(globalMinReady := true))
  }

  /** The new view goes to its joiner, unless a node by that name is running or waiting already. */
  function Welcomed(S: System, v: View): map<nat, View>
    requires v.members != []
  {
    var id := v.members[|v.members| - 1];
    if |v.members| > |S.lead.m.view.members| && id !in S.followers && id !in S.waiting then S.waiting[id := v] else S.waiting
  }

  function AfterLeadInstall(G: Group, S: System): System
    requires WellShaped(G, S) && CanInstall(G.max, S.lead.m)
  {
    var m := S.lead.m;
    var p := Installed(G.max, m);
    var v := p.m.view;
    S.(lead := p, waiting := Welcomed(S, v),
       published := S.published + {Farewell(LeadId(G), m), Put(LeadId(G), v.vid, OwnRow(p.m))})
  }

  /** A joiner no longer waits once it has put its row, with nothing in it yet, before the others. */
  function Introduced(G: Group, S: System, id: nat): System
    requires id in S.waiting
  {
    S.(waiting := S.waiting - {id}, published := S.published + {Put(id, S.waiting[id].vid, BlankRow(G.max))})
  }

  function Next(G: Group, S: System, step: Step): System
    requires WellShaped(G, S) && Enabled(G, S, step)
  {
    match step
    case LeadActs(act) =>
      (match Acted(G.max, S.lead.m, act)
       case Halted(_) => S.(running := false)
       case Going(m) => Halfway(WithLead(G, S, m), LeadId(G), S.lead.m, m, act))
    case LeadJoins(id) =>
      (match ReceiveJoin(G.max, S.lead.m, id)
       case Halted(_) => S.(running := false)
       case Going(m) => WithLead(G, S, m))
    case LeadHears(put) => S.(lead := Heard(S.lead, put))
    case LeadInstalls => AfterLeadInstall(G, S)
    case Acts(id, act) =>
      (match Acted(G.max, S.followers[id].m, act)
       case Halted(_) => S.(followers := S.followers - {id})
       case Going(m) => Halfway(WithFollower(S, id, Proc(m, S.followers[id].heard)), id, S.followers[id].m, m, act))
    case Hears(id, put) => S.(followers := S.followers[id := Heard(S.followers[id], put)])
    case Installs(id) =>
      var p := Installed(G.max, S.followers[id].m);
      WithFollower(S.(published := S.published + {Farewell(id, S.followers[id].m)}), id, p)
    case JoinerStarts(id, put) =>
      WithFollower(Introduced(G, S, id), id, StartedJoiner(G.max, id, S.waiting[id], put.row))
    case Crash(id) => S.(followers := S.followers - {id})
  }
}
