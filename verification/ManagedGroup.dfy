/** One member's group management as the object the program runs. */
module ManagedGroupEngine {
  import opened Messages
  import opened MembershipSpec

  lemma RememberedIs(max: nat, m: Member, last: seq<bool>)
    requires MemberShape(max, m) && |last| == max
    requires forall w :: 0 <= w < max ==> last[w] == if w < |m.sst| then OwnRow(m).suspected[w] else m.last[w]
    ensures last == Remembered(max, m)
  {
  }

  class ManagedGroup {
    const maxMembers: nat

    var vid: nat
    var members: seq<nat>
    var failed: seq<bool>
    var nFailed: int
    var myRank: int

    var sst: seq<GmsRow>
    var lastSuspected: seq<bool>
    var nextView: Option<View>
    var joining: Option<nat>

    ghost predicate Valid()
      reads this
    {
      MemberShape(maxMembers, State())
    }

    /** The group management's state as a value. */
    function State(): Member
      reads this
    {
      Member(View(vid, members, failed, nFailed, myRank), sst, nextView, joining, lastSuspected)
    }

    /** The founder of a group, alone in its first view. */
    constructor Start(max: nat, id: nat)
      requires max > 0
      ensures Valid() && maxMembers == max
      ensures State() == Member(View(0, [id], [false], 0, 0), [BlankRow(max)], None, None, seq(max, i => false))
    {
      maxMembers := max;
      vid, members, failed, nFailed, myRank := 0, [id], [false], 0, 0;
      sst, lastSuspected := [BlankRow(max)], seq(max, i => false);
      nextView, joining := None, None;
    }

    // ---------------------------------------------------------------- view helpers

    method RankOfMember(who: nat) returns (rank: int)
      ensures rank == RankOf(members, who)
    {
      rank := 0;
      while rank < |members|
        invariant 0 <= rank <= |members|
        invariant who !in members[..rank]
      {
        if members[rank] == who {
          return;
        }
        assert members[..rank + 1] == members[..rank] + [members[rank]];
        rank := rank + 1;
      }
      assert members[..rank] == members;
      rank := -1;
    }

    method RankOfTheLeader() returns (rank: int)
      ensures rank == RankOfLeader(failed)
    {
      rank := 0;
      while rank < |failed|
        invariant 0 <= rank <= |failed|
        invariant false !in failed[..rank]
      {
        if !failed[rank] {
          return;
        }
        assert failed[..rank + 1] == failed[..rank] + [failed[rank]];
        rank := rank + 1;
      }
      assert failed[..rank] == failed;
      rank := -1;
    }

    method HasUncommittedChange(q: nat) returns (found: bool)
      requires Valid()
      ensures found <==> ChangesContains(maxMembers, OwnRow(State()), q)
    {
      var row := sst[myRank];
      var k := row.nCommitted;
      while k < row.nChanges
        invariant forall i :: row.nCommitted <= i < k ==> !(i % maxMembers < row.nChanges && row.changes[i % maxMembers] == q)
      {
        var index := k % maxMembers;
        if index < row.nChanges && row.changes[index] == q {
          return true;
        }
        k := k + 1;
      }
      return false;
    }

    method LeastAcked() returns (least: int)
      requires Valid()
      ensures least == MinAcked(State())
    {
      least := sst[myRank].nAcked;
      var n := 0;
      while n < |failed|
        invariant 0 <= n <= |failed|
        invariant least == MinAckedUpto(sst, failed, myRank, n)
      {
        if !failed[n] && sst[n].nAcked < least {
          least := sst[n].nAcked;
        }
        n := n + 1;
      }
    }

    // ---------------------------------------------------------------- suspicion

    /** Some row suspects a rank that was not suspected when the trigger last ran. */
    method SuspectedNotEqual() returns (differs: bool)
      requires Valid()
      ensures differs <==> NewlySuspected(maxMembers, State())
    {
      var r := 0;
      while r < |sst|
        invariant 0 <= r <= |sst|
        invariant forall i, who :: 0 <= i < r && 0 <= who < maxMembers ==> !(sst[i].suspected[who] && !lastSuspected[who])
      {
        var who := 0;
        while who < maxMembers
          invariant 0 <= who <= maxMembers
          invariant forall w :: 0 <= w < who ==> !(sst[r].suspected[w] && !lastSuspected[w])
        {
          if sst[r].suspected[who] && !lastSuspected[who] {
            return true;
          }
          who := who + 1;
        }
        r := r + 1;
      }
      return false;
    }

    /** Join one row's suspicions into the own row. */
    method JoinSuspicionsOf(r: nat)
      requires Valid() && r < |members|
      modifies `sst
      ensures Valid()
      ensures sst == old(sst)[myRank := old(sst)[myRank].(suspected := sst[myRank].suspected)]
      ensures forall w :: 0 <= w < maxMembers ==>
        (sst[myRank].suspected[w] <==> old(sst)[myRank].suspected[w] || (w < |members| && old(sst)[r].suspected[w]))
    {
      var who := 0;
      while who < |members|
        invariant 0 <= who <= |members|
        invariant Valid() && sst == old(sst)[myRank := old(sst)[myRank].(suspected := sst[myRank].suspected)]
        invariant forall w :: 0 <= w < maxMembers ==>
          (sst[myRank].suspected[w] <==> old(sst)[myRank].suspected[w] || (w < who && old(sst)[r].suspected[w]))
      {
        var own := sst[myRank];
        sst := sst[myRank := own.(suspected := own.suspected[who := own.suspected[who] || sst[r].suspected[who]])];
        who := who + 1;
      }
    }

    /** Join the suspicions of all rows into the own one. */
    method AggregateSuspicions()
      requires Valid()
      modifies `sst
      ensures Valid() && State() == Merged(maxMembers, old(State()))
    {
      ghost var own := sst[myRank].suspected;
      var r := 0;
      while r < |members|
        invariant 0 <= r <= |members|
        invariant Valid() && sst == old(sst)[myRank := old(sst)[myRank].(suspected := sst[myRank].suspected)]
        invariant forall w :: 0 <= w < maxMembers ==>
          (sst[myRank].suspected[w] <==> own[w] || (w < |members| && exists i :: 0 <= i < r && old(sst)[i].suspected[w]))
      {
        JoinSuspicionsOf(r);
        r := r + 1;
      }
      assert sst[myRank].suspected == Joined(|members|, old(sst), own);
    }

    /** Mark one suspect failed; the leader proposes its removal unless that is pending. */
    method MarkOneFailed(q: nat) returns (thrown: Option<Reason>)
      requires Valid() && q < |members|
      modifies `failed, `nFailed, `sst
      ensures thrown.None? ==> Valid()
      ensures MarkFailed(maxMembers, old(State()), q) == if thrown.None? then Going(State()) else Halted(thrown.value)
    {
      hide MembershipSpec.ProposeRemoval, RankOfLeader;
      if nFailed >= (|members| + 1) / 2 {
        return Some(MajorityFailed);
      }
      sst := sst[myRank := sst[myRank].(wedged := true)];
      failed := failed[q := true];
      nFailed := nFailed + 1;
      if nFailed >= (|members| + 1) / 2 {
        return Some(NotInMajority);
      }
      var leader := RankOfTheLeader();
      if leader == myRank {
        thrown := ProposeRemoval(members[q]);
        return;
      }
      return None;
    }

    method ProposeRemoval(id: nat) returns (thrown: Option<Reason>)
      requires Valid()
      modifies `sst
      ensures thrown.None? ==> Valid()
      ensures MembershipSpec.ProposeRemoval(maxMembers, old(State()), id)
           == if thrown.None? then Going(State()) else Halted(thrown.value)
    {
      hide ChangesContains;
      var listed := HasUncommittedChange(id);
      if !listed {
        var row := sst[myRank];
        if row.nChanges - row.nCommitted == maxMembers {
          return Some(NoRoom);
        }
        row := row.(changes := row.changes[row.nChanges % maxMembers := id]);
        sst := sst[myRank := row.(nChanges := row.nChanges + 1)];
      }
      return None;
    }

    /** copy_suspected: remember what has been dealt with, for the ranks of this view. */
    method CopySuspected()
      requires Valid()
      modifies `lastSuspected
      ensures Valid() && State() == old(State()).(last := Remembered(maxMembers, old(State())))
    {
      ghost var was := State();
      var who := 0;
      while who < |sst|
        invariant 0 <= who <= |sst| && Valid() && was == State().(last := was.last) && was.last == old(lastSuspected)
        invariant forall w :: 0 <= w < maxMembers ==>
          lastSuspected[w] == if w < who then sst[myRank].suspected[w] else old(lastSuspected)[w]
      {
        lastSuspected := lastSuspected[who := sst[myRank].suspected[who]];
        who := who + 1;
      }
      RememberedIs(maxMembers, was, lastSuspected);
    }

    method SuspectedChanged() returns (thrown: Option<Reason>)
      requires Valid()
      modifies this
      ensures thrown.None? ==> Valid()
      ensures Suspect(maxMembers, old(State())) == if thrown.None? then Going(State()) else Halted(thrown.value)
    {
      hide MarkFailed, Merged;
      AggregateSuspicions();
      var q := 0;
      while q < |members|
        invariant 0 <= q <= |members| && Valid()
        invariant MarkFrom(maxMembers, State(), q) == MarkFrom(maxMembers, Merged(maxMembers, old(State())), 0)
      {
        if sst[myRank].suspected[q] && !failed[q] {
          thrown := MarkOneFailed(q);
          if thrown.Some? {
            return;
          }
        }
        q := q + 1;
      }
      CopySuspected();
      return None;
    }

    method CountSuspected() returns (cnt: nat)
      requires Valid()
      ensures cnt == Count(sst[myRank].suspected)
    {
      var suspected, i := sst[myRank].suspected, 0;
      cnt := 0;
      while i < maxMembers
        invariant 0 <= i <= maxMembers
        invariant cnt == Count(suspected[..i])
      {
        assert suspected[..i + 1][..i] == suspected[..i];
        if suspected[i] {
          cnt := cnt + 1;
        }
        i := i + 1;
      }
      assert suspected[..i] == suspected;
    }

    /** The transport reports that a member's connection is gone. */
    method Report(who: nat) returns (thrown: Option<Reason>)
      requires Valid() && who in members
      modifies `sst
      ensures thrown.None? ==> Valid()
      ensures ReportFailure(maxMembers, old(State()), RankOf(members, who))
           == if thrown.None? then Going(State()) else Halted(thrown.value)
    {
      var r := RankOfMember(who);
      sst := sst[myRank := sst[myRank].(suspected := sst[myRank].suspected[r := true])];
      var cnt := CountSuspected();
      if cnt >= (|members| + 1) / 2 {
        return Some(NotInMajority);
      }
      return None;
    }

    // ---------------------------------------------------------------- proposing, acknowledging, committing

    method ReceiveJoinFrom(id: nat) returns (thrown: Option<Reason>)
      requires Valid()
      modifies `sst, `joining
      ensures thrown.None? ==> Valid()
      ensures ReceiveJoin(maxMembers, old(State()), id) == if thrown.None? then Going(State()) else Halted(thrown.value)
    {
      joining := Some(id);
      var row := sst[myRank];
      if row.nChanges - row.nCommitted == maxMembers / 2 {
        return Some(TooManyChanges);
      }
      var nextChange := row.nChanges % maxMembers;
      row := row.(changes := row.changes[nextChange := id]);
      row := row.(nChanges := row.nChanges + 1);
      sst := sst[myRank := row.(wedged := true)];
      return None;
    }

    method CommitChange()
      requires Valid()
      modifies `sst
      ensures Valid() && State() == Commit(maxMembers, old(State()))
    {
      var least := LeastAcked();
      sst := sst[myRank := sst[myRank].(nCommitted := least)];
    }

    method AckProposedChange()
      requires Valid() && HasLeader(State())
      modifies `sst
      ensures Valid() && State() == Ack(maxMembers, old(State()))
    {
      var leader := RankOfTheLeader();
      if myRank != leader {
        var own, l := sst[myRank], sst[leader];
        own := own.(changes := l.changes);
        own := own.(nChanges := l.nChanges);
        own := own.(nCommitted := l.nCommitted);
        sst := sst[myRank := own];
      }
      sst := sst[myRank := sst[myRank].(nAcked := sst[leader].nChanges)];
      sst := sst[myRank := sst[myRank].(wedged := true)];
    }

    // ---------------------------------------------------------------- changing views

    /** Copy a list, leaving out one place; none if `skip` is -1. */
    method CopyExcept<T>(s: seq<T>, skip: int) returns (t: seq<T>)
      requires -1 <= skip < |s|
      ensures t == if skip == -1 then s else Without(s, skip)
    {
      t := [];
      var n := 0;
      while n < |s|
        invariant 0 <= n <= |s|
        invariant t == if skip == -1 || n <= skip then s[..n] else s[..skip] + s[skip + 1..n]
      {
        if n != skip {
          t := t + [s[n]];
        }
        n := n + 1;
      }
    }

    /** Work out the next view from the change at the head of the own ring. */
    method StartViewChange() returns (thrown: Option<Reason>)
      requires Valid()
      modifies `sst, `nextView
      ensures thrown.None? ==> Valid()
      ensures MembershipSpec.Start(maxMembers, old(State())) == if thrown.None? then Going(State()) else Halted(thrown.value)
    {
      hide NextView;
      var changeId := sst[myRank].changes[vid % maxMembers];
      sst := sst[myRank := sst[myRank].(wedged := true)];
      var next := ViewAfter(changeId);
      if next.myRank == -1 {
        return Some(Removed);
      }
      nextView := Some(next);
      return None;
    }

    method ViewAfter(changeId: nat) returns (next: View)
      requires Valid()
      ensures next == NextView(State().view, changeId)
    {
      hide RankOf;
      var myId := members[myRank];
      var whoFailed := RankOfMember(changeId);
      var newMembers := CopyExcept(members, whoFailed);
      var newFailed := CopyExcept(failed, whoFailed);
      var newNFailed := nFailed - 1;
      if whoFailed == -1 {
        newMembers, newFailed, newNFailed := newMembers + [changeId], newFailed + [false], nFailed;
      }
      next := View(vid + 1, newMembers, newFailed, newNFailed, RankOf(newMembers, myId));
    }

    method IsMetaWedged() returns (wedged: bool)
      requires Valid()
      ensures wedged <==> MetaWedged(State())
    {
      var n := 0;
      while n < |sst|
        invariant 0 <= n <= |sst|
        invariant forall r :: 0 <= r < n && !failed[r] ==> sst[r].wedged
      {
        if !failed[n] && !sst[n].wedged {
          return false;
        }
        n := n + 1;
      }
      return true;
    }

    /** Take over the next view: a fresh table, the own row carried over, the joiner let go. */
    method InstallView()
      requires Valid() && nextView.Some? && ViewShape(maxMembers, nextView.value)
      modifies this
      ensures Valid() && State() == Install(maxMembers, old(State()))
    {
      var leader := RankOfTheLeader();
      var next, own := nextView.value, sst[myRank];
      if leader == myRank && |next.members| > |members| {
        joining := None;
      }
      own := own.(suspected := seq(maxMembers, i => false));
      own := own.(wedged := false, globalMinReady := false);
      sst := FreshTable(maxMembers, |next.members|, next.myRank, own);
      vid, members, failed, nFailed, myRank := next.vid, next.members, next.failed, next.nFailed, next.myRank;
      nextView := None;
    }
  }
}
