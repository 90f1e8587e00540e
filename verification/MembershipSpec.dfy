/**
 What one member's group management does to its view and its table, as functions.
 The class in ManagedGroup.dfy is proved against these; the group-wide protocol in
 Membership.dfy takes its local steps from here.
 */
module MembershipSpec {
  import opened Messages

  /** The membership part of a table row.  `changes` is a ring of `max` proposed changes. */
  datatype GmsRow = GmsRow(
    suspected: seq<bool>,
    changes: seq<nat>,
    nChanges: int,
    nCommitted: int,
    nAcked: int,
    wedged: bool,
    globalMinReady: bool)

  datatype View = View(vid: nat, members: seq<nat>, failed: seq<bool>, nFailed: int, myRank: int)

  /**
   One member: its view, its copies of the rows by rank, the view it is changing to, the node
   whose connection it holds until that node has joined, and the ranks that were suspected
   when its suspicion trigger last ran, in whatever view that was.
   */
  datatype Member = Member(view: View, sst: seq<GmsRow>, next: Option<View>, joining: Option<nat>, last: seq<bool>)

  /** Why a member stops, where the program throws. */
  datatype Reason = MajorityFailed | NotInMajority | NoRoom | TooManyChanges | Removed

  datatype Outcome<+T> = Going(value: T) | Halted(reason: Reason)

  // ---------------------------------------------------------------- shapes

  predicate RingShape(max: nat, r: GmsRow) {
    |r.changes| == |r.suspected| == max > 0 && r.nChanges >= 0
  }

  predicate ViewShape(max: nat, v: View) {
    |v.members| == |v.failed| <= max && 0 <= v.myRank < |v.members|
  }

  predicate MemberShape(max: nat, m: Member) {
    && ViewShape(max, m.view) && |m.sst| == |m.view.members| && |m.last| == max
    && forall r :: 0 <= r < |m.sst| ==> RingShape(max, m.sst[r])
  }

  function OwnRow(m: Member): GmsRow
    requires 0 <= m.view.myRank < |m.sst|
  {
    m.sst[m.view.myRank]
  }

  function SetOwn(m: Member, r: GmsRow): Member
    requires 0 <= m.view.myRank < |m.sst|
  {
    m.(sst := m.sst[m.view.myRank := r])
  }

  // ---------------------------------------------------------------- views

  /** The first rank at which `who` stands, -1 if it is no member. */
  function RankOf(members: seq<nat>, who: nat): (r: int)
    ensures -1 <= r < |members|
    ensures r == -1 <==> who !in members
    ensures r >= 0 ==> members[r] == who && who !in members[..r]
  {
    RankFrom(members, who, 0)
  }

  function RankFrom(members: seq<nat>, who: nat, k: nat): (r: int)
    requires k <= |members| && who !in members[..k]
    ensures -1 <= r < |members|
    ensures r == -1 <==> who !in members
    ensures r >= 0 ==> members[r] == who && who !in members[..r]
    decreases |members| - k
  {
    if k == |members| then
      assert members[..k] == members;
      -1
    else if members[k] == who then k
    else
      assert members[..k + 1] == members[..k] + [members[k]];
      RankFrom(members, who, k + 1)
  }

  /** The lowest rank not marked failed, -1 if there is none. */
  function RankOfLeader(failed: seq<bool>): (r: int)
    ensures -1 <= r < |failed|
    ensures r == -1 <==> false !in failed
    ensures r >= 0 ==> !failed[r] && false !in failed[..r]
  {
    LeaderFrom(failed, 0)
  }

  function LeaderFrom(failed: seq<bool>, k: nat): (r: int)
    requires k <= |failed| && false !in failed[..k]
    ensures -1 <= r < |failed|
    ensures r == -1 <==> false !in failed
    ensures r >= 0 ==> !failed[r] && false !in failed[..r]
    decreases |failed| - k
  {
    if k == |failed| then
      assert failed[..k] == failed;
      -1
    else if !failed[k] then k
    else
      assert failed[..k + 1] == failed[..k] + [failed[k]];
      LeaderFrom(failed, k + 1)
  }

  predicate IsLeader(v: View) {
    RankOfLeader(v.failed) == v.myRank
  }

  /** How many members are marked failed. */
  function Count(failed: seq<bool>): nat {
    if failed == [] then 0 else Count(failed[..|failed| - 1]) + if failed[|failed| - 1] then 1 else 0
  }

  // ---------------------------------------------------------------- the change ring

  function Propose(max: nat, r: GmsRow, id: nat): GmsRow
    requires RingShape(max, r)
  {
    r.(changes := r.changes[r.nChanges % max := id], nChanges := r.nChanges + 1)
  }

  /** An uncommitted proposal about q is in the ring. */
  predicate ChangesContains(max: nat, r: GmsRow, q: nat)
    requires RingShape(max, r)
  {
    exists k :: r.nCommitted <= k < r.nChanges && k % max < r.nChanges && r.changes[k % max] == q
  }

  // ---------------------------------------------------------------- suspicion

  /** Own suspicions joined with those of every row in the view. */
  function Joined(n: nat, sst: seq<GmsRow>, own: seq<bool>): seq<bool>
    requires n <= |sst| && forall r :: 0 <= r < n ==> |sst[r].suspected| == |own|
  {
    seq(|own|, who requires 0 <= who < |own| =>
      own[who] || (who < n && exists r :: 0 <= r < n && sst[r].suspected[who]))
  }

  function HalfOf(n: nat): nat {
    (n + 1) / 2
  }

  /** Propose a removal unless one is pending. */
  function ProposeRemoval(max: nat, m: Member, id: nat): (o: Outcome<Member>)
    requires MemberShape(max, m)
    ensures o.Going? ==> MemberShape(max, o.value) && o.value.view == m.view
  {
    var row := OwnRow(m);
    if ChangesContains(max, row, id) then Going(m)
    else if row.nChanges - row.nCommitted == max then Halted(NoRoom)
    else Going(SetOwn(m, Propose(max, row, id)))
  }

  /** Mark rank q failed and, as leader, propose its removal unless that is pending. */
  function MarkFailed(max: nat, m: Member, q: nat): (o: Outcome<Member>)
    requires MemberShape(max, m) && q < |m.view.members|
    ensures o.Going? ==> MemberShape(max, o.value) && o.value.view.members == m.view.members
  {
    var n, v := |m.view.members|, m.view;
    if v.nFailed >= HalfOf(n) then Halted(MajorityFailed)
    else
      var v' := v.(failed := v.failed[q := true], nFailed := v.nFailed + 1);
      var m' := SetOwn(m.(view := v'), OwnRow(m).(wedged := true));
      if v'.nFailed >= HalfOf(n) then Halted(NotInMajority)
      else if IsLeader(v') then ProposeRemoval(max, m', v.members[q])
      else Going(m')
  }

  function MarkFrom(max: nat, m: Member, q: nat): (o: Outcome<Member>)
    requires MemberShape(max, m) && q <= |m.view.members|
    ensures o.Going? ==> MemberShape(max, o.value) && o.value.view.members == m.view.members
    decreases |m.view.members| - q
  {
    if q == |m.view.members| then Going(m)
    else if OwnRow(m).suspected[q] && !m.view.failed[q] then
      match MarkFailed(max, m, q)
      case Halted(why) => Halted(why)
      case Going(m') => MarkFrom(max, m', q + 1)
    else MarkFrom(max, m, q + 1)
  }

  function Merged(max: nat, m: Member): (m': Member)
    requires MemberShape(max, m)
    ensures MemberShape(max, m')
  {
    SetOwn(m, OwnRow(m).(suspected := Joined(|m.view.members|, m.sst, OwnRow(m).suspected)))
  }

  /** The trigger that runs when the suspicions in the table have changed. */
  function Suspect(max: nat, m: Member): (o: Outcome<Member>)
    requires MemberShape(max, m)
    ensures o.Going? ==> MemberShape(max, o.value) && o.value.view.members == m.view.members
  {
    match MarkFrom(max, Merged(max, m), 0)
    case Halted(why) => Halted(why)
    case Going(m') => Going(m'.(last := Remembered(max, m')))
  }

  /** Some row suspects a rank that was not suspected when the trigger last ran. */
  predicate NewlySuspected(max: nat, m: Member)
    requires MemberShape(max, m)
  {
    exists r, who :: 0 <= r < |m.sst| && 0 <= who < max && m.sst[r].suspected[who] && !m.last[who]
  }

  /** The suspicions dealt with, for the ranks of this view; the others stay as they were. */
  function Remembered(max: nat, m: Member): (last: seq<bool>)
    requires MemberShape(max, m)
    ensures |last| == max
  {
    seq(max, w requires 0 <= w < max => if w < |m.sst| then OwnRow(m).suspected[w] else m.last[w])
  }

  /** The transport reports the failure of a member. */
  function ReportFailure(max: nat, m: Member, rank: nat): (o: Outcome<Member>)
    requires MemberShape(max, m) && rank < |m.view.members|
    ensures o.Going? ==> MemberShape(max, o.value) && o.value.view.members == m.view.members
  {
    var suspected := OwnRow(m).suspected[rank := true];
    if Count(suspected) >= HalfOf(|m.view.members|) then Halted(NotInMajority)
    else Going(SetOwn(m, OwnRow(m).(suspected := suspected)))
  }

  // ---------------------------------------------------------------- proposing, acknowledging, committing

  /** start_join and receive_join: propose to add the node that has connected. */
  function ReceiveJoin(max: nat, m: Member, id: nat): (o: Outcome<Member>)
    requires MemberShape(max, m)
    ensures o.Going? ==> MemberShape(max, o.value) && o.value.view == m.view
  {
    var row := OwnRow(m);
    if row.nChanges - row.nCommitted == max / 2 then Halted(TooManyChanges)
    else Going(SetOwn(m.(joining := Some(id)), Propose(max, row, id).(wedged := true)))
  }

  /** The least acknowledgement among the first k rows not marked failed, and the member's own. */
  function MinAckedUpto(sst: seq<GmsRow>, failed: seq<bool>, me: nat, k: nat): (a: int)
    requires me < |sst| == |failed| && k <= |sst|
    ensures a <= sst[me].nAcked
    ensures forall r :: 0 <= r < k && !failed[r] ==> a <= sst[r].nAcked
    ensures a == sst[me].nAcked || exists r :: 0 <= r < k && !failed[r] && a == sst[r].nAcked
  {
    if k == 0 then sst[me].nAcked
    else
      var a := MinAckedUpto(sst, failed, me, k - 1);
      if !failed[k - 1] && sst[k - 1].nAcked < a then sst[k - 1].nAcked else a
  }

  function MinAcked(m: Member): int
    requires 0 <= m.view.myRank < |m.sst| == |m.view.failed|
  {
    MinAckedUpto(m.sst, m.view.failed, m.view.myRank, |m.sst|)
  }

  predicate CanCommit(max: nat, m: Member)
    requires MemberShape(max, m)
  {
    IsLeader(m.view) && MinAcked(m) > OwnRow(m).nCommitted
  }

  function Commit(max: nat, m: Member): (m': Member)
    requires MemberShape(max, m)
    ensures MemberShape(max, m') && m'.view == m.view
  {
    SetOwn(m, OwnRow(m).(nCommitted := MinAcked(m)))
  }

  /** The row of the member that this one takes for the leader. */
  function LeaderRow(m: Member): GmsRow
    requires |m.sst| == |m.view.failed| && RankOfLeader(m.view.failed) >= 0
  {
    m.sst[RankOfLeader(m.view.failed)]
  }

  predicate HasLeader(m: Member) {
    RankOfLeader(m.view.failed) >= 0
  }

  predicate CanAck(max: nat, m: Member)
    requires MemberShape(max, m) && HasLeader(m)
  {
    LeaderRow(m).nChanges > OwnRow(m).nAcked
  }

  /** Echo the leader's proposals and acknowledge them. */
  function Ack(max: nat, m: Member): (m': Member)
    requires MemberShape(max, m) && HasLeader(m)
    ensures MemberShape(max, m') && m'.view == m.view
  {
    var l, own := LeaderRow(m), OwnRow(m);
    var echoed := if IsLeader(m.view) then own
                  else own.(changes := l.changes, nChanges := l.nChanges, nCommitted := l.nCommitted);
    SetOwn(m, echoed.(nAcked := l.nChanges, wedged := true))
  }

  // ---------------------------------------------------------------- changing views

  predicate CanStart(max: nat, m: Member)
    requires MemberShape(max, m) && HasLeader(m)
  {
    LeaderRow(m).nCommitted > m.view.vid
  }

  function Without<T>(s: seq<T>, r: nat): seq<T>
    requires r < |s|
  {
    s[..r] + s[r + 1..]
  }

  /** One change applied to a member list: a member is removed, anyone else is added at the end. */
  function Changed(members: seq<nat>, id: nat): seq<nat> {
    if id in members then Without(members, RankOf(members, id)) else members + [id]
  }

  /** The view after a change.  myRank is -1 if the member itself is the one removed. */
  function NextView(v: View, id: nat): View
    requires |v.members| == |v.failed| && 0 <= v.myRank < |v.members|
  {
    var who := RankOf(v.members, id);
    var members := Changed(v.members, id);
    View(v.vid + 1, members,
         if who >= 0 then Without(v.failed, who) else v.failed + [false],
         if who >= 0 then v.nFailed - 1 else v.nFailed,
         RankOf(members, v.members[v.myRank]))
  }

  /** The change the member's own ring holds for the next view. */
  function CurrentChange(max: nat, m: Member): nat
    requires MemberShape(max, m)
  {
    OwnRow(m).changes[m.view.vid % max]
  }

  function Start(max: nat, m: Member): (o: Outcome<Member>)
    requires MemberShape(max, m)
    ensures o.Going? ==> MemberShape(max, o.value) && o.value.view == m.view && o.value.next.Some?
  {
    var next := NextView(m.view, CurrentChange(max, m));
    if next.myRank == -1 then Halted(Removed)
    else Going(SetOwn(m.(next := Some(next)), OwnRow(m).(wedged := true)))
  }

  predicate MetaWedged(m: Member)
    requires |m.sst| == |m.view.failed|
  {
    forall r :: 0 <= r < |m.sst| && !m.view.failed[r] ==> m.sst[r].wedged
  }

  /** A row nothing has been written to. */
  function BlankRow(max: nat): GmsRow {
    GmsRow(seq(max, i => false), seq(max, i => 0), 0, 0, 0, false, false)
  }

  /** The row a member starts the next view with. */
  function InitFromExisting(max: nat, r: GmsRow): GmsRow {
    r.(suspected := seq(max, i => false), wedged := false, globalMinReady := false)
  }

  /** The table at the start of a view: the own row, and nothing heard from others. */
  function FreshTable(max: nat, n: nat, me: nat, own: GmsRow): (sst: seq<GmsRow>)
    requires me < n
    ensures |sst| == n && sst[me] == own
  {
    seq(n, r => BlankRow(max))[me := own]
  }

  /** Take over the next view.  The leader's joiner has been sent it. */
  function Install(max: nat, m: Member): Member
    requires MemberShape(max, m) && m.next.Some? && 0 <= m.next.value.myRank < |m.next.value.members|
  {
    var v := m.next.value;
    var joined := |v.members| > |m.view.members|;
    Member(v, FreshTable(max, |v.members|, v.myRank, InitFromExisting(max, OwnRow(m))), None,
           if IsLeader(m.view) && joined then None else m.joining, m.last)
  }
}
