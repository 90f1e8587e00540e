/** What the leader and its followers do with the rows when a view ends, once everyone alive is wedged. */
module RaggedEdge {
  import opened Numbering
  import opened SharedTable
  import opened Messages
  import opened GroupSpec
  import opened DerechoGroupEngine

  /** View::wedge: the member's engine stops, and its row says so. */
  method WedgeView(g: DerechoGroup)
    requires g.Valid()
    modifies g
    ensures g.Valid() && g.State() == old(g.State()).(shutdown := true)
    ensures g.sst == old(g.sst)[g.memberIndex := old(g.sst)[g.memberIndex].(wedged := true)]
  {
    g.Wedge();
    g.sst := g.sst[g.memberIndex := g.sst[g.memberIndex].(wedged := true)];
  }

  /** The least count for sender s over all rows, starting from the member's own. */
  method LeastReceived(g: DerechoGroup, s: nat) returns (least: int)
    requires g.Valid() && s < g.config.n
    ensures least == Min(Column(g.config.n, g.sst, s))
  {
    least := g.sst[g.memberIndex].nReceived[s];
    ghost var column := Column(g.config.n, g.sst, s);
    assert column[g.memberIndex] == least;
    var r := 0;
    while r < g.config.n
      invariant 0 <= r <= g.config.n
      invariant forall k :: 0 <= k < r ==> least <= column[k]
      invariant exists k :: 0 <= k < g.config.n && column[k] == least
    {
      assert column[r] == g.sst[r].nReceived[s];
      if least > g.sst[r].nReceived[s] {
        least := g.sst[r].nReceived[s];
      }
      r := r + 1;
    }
    MinUnique(column, least);
  }

  /** The first finished trim in the table, if any. */
  method FindReady(g: DerechoGroup) returns (found: bool, k: nat)
    requires g.Valid()
    ensures found <==> FirstReady(g.sst, 0) < g.config.n
    ensures found ==> k == FirstReady(g.sst, 0)
  {
    found, k := false, 0;
    while k < g.config.n && !found
      invariant k <= g.config.n
      invariant forall i :: 0 <= i < k ==> !g.sst[i].globalMinReady
      invariant found ==> k < g.config.n && g.sst[k].globalMinReady
      decreases g.config.n - k, !found
    {
      if g.sst[k].globalMinReady {
        found := true;
      } else {
        k := k + 1;
      }
    }
  }

  method ComputeTrim(g: DerechoGroup) returns (trim: seq<int>)
    requires g.Valid()
    ensures trim == LeaderTrim(g.config.n, g.sst)
  {
    var found, k := FindReady(g);
    if found {
      return g.sst[k].globalMin;
    }
    trim := [];
    while |trim| < g.config.n
      invariant |trim| <= g.config.n
      invariant forall s :: 0 <= s < |trim| ==> trim[s] == Min(Column(g.config.n, g.sst, s))
    {
      var least := LeastReceived(g, |trim|);
      trim := trim + [least];
    }
  }

  /** Publish the trim in the own row, then deliver what it includes. */
  method AdoptTrim(g: DerechoGroup, trim: seq<int>)
    requires g.Valid() && |trim| == g.config.n
    modifies g
    ensures g.Valid()
    ensures g.sst == old(g.sst)[g.memberIndex := old(g.sst)[g.memberIndex].(globalMin := trim, globalMinReady := true)]
    ensures g.State() == DeliverUpto(g.config, old(g.State()), old(g.sst)[g.memberIndex].deliveredNum, trim)
  {
    hide DeliverRange, TrimEnd;
    g.sst := g.sst[g.memberIndex := g.sst[g.memberIndex].(globalMin := trim, globalMinReady := true)];
    g.DeliverMessagesUpto(trim);
  }

  method LeaderRaggedEdgeCleanup(g: DerechoGroup)
    requires g.Valid()
    modifies g
    ensures g.Valid()
    ensures var trim, row := LeaderTrim(g.config.n, old(g.sst)), old(g.sst)[g.memberIndex];
            g.sst == old(g.sst)[g.memberIndex := row.(globalMin := trim, globalMinReady := true)]
            && g.State() == DeliverUpto(g.config, old(g.State()), row.deliveredNum, trim)
  {
    hide DeliverUpto;
    var trim := ComputeTrim(g);
    AdoptTrim(g, trim);
  }

  method FollowerRaggedEdgeCleanup(g: DerechoGroup, leader: nat)
    requires g.Valid() && leader < g.config.n
    modifies g
    ensures g.Valid()
    ensures var trim, row := old(g.sst)[leader].globalMin, old(g.sst)[g.memberIndex];
            g.sst == old(g.sst)[g.memberIndex := row.(globalMin := trim, globalMinReady := true)]
            && g.State() == DeliverUpto(g.config, old(g.State()), row.deliveredNum, trim)
  {
    hide DeliverUpto;
    AdoptTrim(g, g.sst[leader].globalMin);
  }
}
