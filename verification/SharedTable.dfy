/**
 The shared state table.  Every member owns one row and keeps a copy of every other
 row.  A copy is a snapshot the owner published at some time; it may lag behind, but
 it only moves forward, and not at all once the holder has frozen it.
 */
module SharedTable {
  import opened Numbering

  datatype Row = Row(
    nReceived: seq<int>,
    seqNum: int,
    stableNum: int,
    deliveredNum: int,
    wedged: bool,
    globalMin: seq<int>,
    globalMinReady: bool)

  /** One member's table: its own row and its copies of the other rows. */
  type Sst = seq<Row>

  function SeqNums(sst: Sst): seq<int> {
    seq(|sst|, i requires 0 <= i < |sst| => sst[i].seqNum)
  }

  function StableNums(sst: Sst): seq<int> {
    seq(|sst|, i requires 0 <= i < |sst| => sst[i].stableNum)
  }

  predicate RowShape(n: nat, r: Row) {
    |r.nReceived| == n && |r.globalMin| == n
  }

  predicate SstShape(n: nat, sst: Sst) {
    |sst| == n && forall i :: 0 <= i < n ==> RowShape(n, sst[i])
  }

  // ---------------------------------------------------------------- row updates

  /** The row after the receive handler has raised the counts to `v`. */
  ghost function AfterReceive(r: Row, v: seq<int>): Row
    requires |v| > 0
  {
    if PrefixEnd(v) > r.seqNum
    then r.(nReceived := v, seqNum := PrefixEnd(v))
    else r.(nReceived := v)
  }

  ghost function AfterStability(sst: Sst, me: nat): Row
    requires me < |sst|
  {
    var m := Min(SeqNums(sst));
    if m > sst[me].stableNum then sst[me].(stableNum := m) else sst[me]
  }

  /** The counts of sender `s` in all rows of the table. */
  function Column(n: nat, sst: Sst, s: nat): seq<int>
    requires SstShape(n, sst) && s < n
  {
    seq(n, r requires 0 <= r < n => sst[r].nReceived[s])
  }

  /** The lowest rank from `k` on whose row holds a finished trim; |sst| if there is none. */
  function FirstReady(sst: Sst, k: nat): (r: nat)
    requires k <= |sst|
    ensures k <= r <= |sst|
    ensures forall i :: k <= i < r ==> !sst[i].globalMinReady
    ensures r < |sst| ==> sst[r].globalMinReady
    decreases |sst| - k
  {
    if k == |sst| || sst[k].globalMinReady then k else FirstReady(sst, k + 1)
  }

  /** The trim the leader uses: the first finished one it can see, else the column minima. */
  function LeaderTrim(n: nat, sst: Sst): (g: seq<int>)
    requires n > 0 && SstShape(n, sst)
    ensures |g| == n
  {
    var k := FirstReady(sst, 0);
    if k < n then sst[k].globalMin
    else seq(n, s requires 0 <= s < n => Min(Column(n, sst, s)))
  }

  // ---------------------------------------------------------------- the group's tables

  /**
   hist[i] lists the snapshots of its own row that member i has published, oldest first;
   the last one is its current row.  pos[j][i] says which of them member j's copy is.
   */
  datatype Table = Table(hist: seq<seq<Row>>, pos: seq<seq<nat>>, frozen: seq<set<nat>>)

  datatype RowChange =
    | Receive(v: seq<int>)
    | Stabilize
    | Deliver(q: int)
    | Wedge
    | Trim
    | Echo(leader: nat)

  datatype TableStep =
    | Own(who: nat, change: RowChange)
    | Push(owner: nat, holder: nat, k: nat)
    | Freeze(holder: nat, owner: nat)

  predicate Shape(n: nat, t: Table) {
    && n > 0
    && |t.hist| == |t.pos| == |t.frozen| == n
    && (forall i :: 0 <= i < n ==> |t.hist[i]| > 0)
    && (forall i, a :: 0 <= i < n && 0 <= a < |t.hist[i]| ==> RowShape(n, t.hist[i][a]))
    && (forall j :: 0 <= j < n ==> |t.pos[j]| == n)
    && (forall j, i :: 0 <= j < n && 0 <= i < n ==> t.pos[j][i] < |t.hist[i]|)
  }

  /** Row k as member j sees it: its own row as it is, any other as last handed over. */
  function View(n: nat, t: Table, j: nat, k: nat): (r: Row)
    requires Shape(n, t) && j < n && k < n
    ensures RowShape(n, r)
  {
    if j == k then t.hist[k][|t.hist[k]| - 1] else t.hist[k][t.pos[j][k]]
  }

  /** Member j's table. */
  function SstOf(n: nat, t: Table, j: nat): (sst: Sst)
    requires Shape(n, t) && j < n
    ensures SstShape(n, sst)
    ensures forall k :: 0 <= k < n ==> sst[k] == View(n, t, j, k)
  {
    seq(n, k requires 0 <= k < n => View(n, t, j, k))
  }

  function InitialRow(n: nat): Row {
    Row(seq(n, i => -1), -1, -1, -1, false, seq(n, i => 0), false)
  }

  function InitialTable(n: nat): Table {
    Table(seq(n, i => [InitialRow(n)]), seq(n, j => seq(n, i => 0)), seq(n, j => {}))
  }

  /** What a member may do to its own row, given its table. */
  ghost predicate Allowed(n: nat, sst: Sst, me: nat, change: RowChange)
    requires n > 0 && SstShape(n, sst) && me < n
  {
    match change
    case Receive(v) =>
      && !sst[me].wedged
      && |v| == n && forall s :: 0 <= s < n ==> sst[me].nReceived[s] <= v[s]
    case Stabilize => !sst[me].wedged
    case Deliver(q) => !sst[me].wedged && sst[me].deliveredNum < q <= Min(StableNums(sst))
    case Wedge => true
    case Trim => sst[me].wedged && !sst[me].globalMinReady
    case Echo(k) => sst[me].wedged && !sst[me].globalMinReady && k < n && sst[k].globalMinReady
  }

  ghost function NewRow(n: nat, sst: Sst, me: nat, change: RowChange): (r: Row)
    requires n > 0 && SstShape(n, sst) && me < n
    requires Allowed(n, sst, me, change)
    ensures RowShape(n, r)
  {
    match change
    case Receive(v) => AfterReceive(sst[me], v)
    case Stabilize => AfterStability(sst, me)
    case Deliver(q) => sst[me].(deliveredNum := q)
    case Wedge => sst[me].(wedged := true)
    case Trim => sst[me].(globalMin := LeaderTrim(n, sst), globalMinReady := true)
    case Echo(k) => sst[me].(globalMin := sst[k].globalMin, globalMinReady := true)
  }

  /** A put publishes the row; putting an unchanged row shows nothing new. */
  function Publish(n: nat, t: Table, j: nat, r: Row): (t': Table)
    requires Shape(n, t) && j < n && RowShape(n, r)
    ensures Shape(n, t')
  {
    if View(n, t, j, j) == r then t
    else
      var h := t.hist[j];
      t.(hist := t.hist[j := h + [r]])
  }

  ghost predicate Enabled(n: nat, t: Table, step: TableStep)
    requires Shape(n, t)
  {
    match step
    case Own(j, change) => j < n && Allowed(n, SstOf(n, t, j), j, change)
    case Push(i, j, k) =>
      i < n && j < n && i != j && i !in t.frozen[j] && t.pos[j][i] <= k < |t.hist[i]|
    case Freeze(j, i) => j < n && i < n
  }

  function HandOver(n: nat, t: Table, i: nat, j: nat, k: nat): (t': Table)
    requires Shape(n, t) && i < n && j < n && k < |t.hist[i]|
    ensures Shape(n, t')
  {
    var at: seq<nat> := t.pos[j][i := k];
    t.(pos := t.pos[j := at])
  }

  ghost function Apply(n: nat, t: Table, step: TableStep): (t': Table)
    requires Shape(n, t) && Enabled(n, t, step)
    ensures Shape(n, t')
  {
    match step
    case Own(j, change) => Publish(n, t, j, NewRow(n, SstOf(n, t, j), j, change))
    case Push(i, j, k) => HandOver(n, t, i, j, k)
    case Freeze(j, i) => t.(frozen := t.frozen[j := t.frozen[j] + {i}])
  }

  // ---------------------------------------------------------------- what every step keeps

  ghost predicate RowOk(n: nat, r: Row) {
    && n > 0
    && RowShape(n, r)
    && (forall s :: 0 <= s < n ==> r.nReceived[s] >= -1)
    && r.seqNum == PrefixEnd(r.nReceived)
    && -1 <= r.deliveredNum <= r.stableNum <= r.seqNum
  }

  /** Row `r'` is at least as far as row `r`; a wedged row no longer counts. */
  ghost predicate RowLe(n: nat, r: Row, r': Row) {
    && RowShape(n, r) && RowShape(n, r')
    && (forall s :: 0 <= s < n ==> r.nReceived[s] <= r'.nReceived[s])
    && r.seqNum <= r'.seqNum
    && r.stableNum <= r'.stableNum
    && r.deliveredNum <= r'.deliveredNum
    && (r.wedged ==> r'.wedged && r'.nReceived == r.nReceived
                     && r'.stableNum == r.stableNum && r'.deliveredNum == r.deliveredNum)
    && (r.globalMinReady ==> r'.globalMinReady && r'.globalMin == r.globalMin)
  }

  ghost predicate Ordered(n: nat, h: seq<Row>) {
    && (forall a :: 0 <= a < |h| ==> RowOk(n, h[a]))
    && (forall a, b :: 0 <= a <= b < |h| ==> RowLe(n, h[a], h[b]))
  }

  /** A stable number rests on every seq_num its owner sees, a delivered number on every stable_num. */
  ghost predicate Rests(own: Row, seen: Row) {
    own.stableNum <= seen.seqNum && own.deliveredNum <= seen.stableNum
  }

  ghost predicate TwoStage(n: nat, t: Table)
    requires Shape(n, t)
  {
    forall j, k :: 0 <= j < n && 0 <= k < n ==> Rests(View(n, t, j, j), View(n, t, j, k))
  }

  ghost predicate VecLe(g: seq<int>, v: seq<int>) {
    |g| == |v| && forall s :: 0 <= s < |g| ==> -1 <= g[s] <= v[s]
  }

  /** Member `l`, wedged, stands behind the trim `g`: it covers l's stable prefix and nobody lacks it. */
  ghost predicate Vouches(n: nat, t: Table, l: nat, g: seq<int>)
    requires Shape(n, t)
  {
    && l < n && |g| == n
    && View(n, t, l, l).wedged
    && Covers(g, View(n, t, l, l).stableNum)
    && (forall k :: 0 <= k < n ==> VecLe(g, View(n, t, l, k).nReceived))
  }

  ghost predicate Vouched(n: nat, t: Table, g: seq<int>)
    requires Shape(n, t)
  {
    exists l :: Vouches(n, t, l, g)
  }

  ghost predicate TrimsVouched(n: nat, t: Table)
    requires Shape(n, t)
  {
    forall i, a :: 0 <= i < n && 0 <= a < |t.hist[i]| && t.hist[i][a].globalMinReady
      ==> Vouched(n, t, t.hist[i][a].globalMin)
  }

  ghost predicate TableInv(n: nat, t: Table) {
    && Shape(n, t)
    && (forall i :: 0 <= i < n ==> Ordered(n, t.hist[i]))
    && TwoStage(n, t)
    && TrimsVouched(n, t)
  }

  lemma InitialRowOk(n: nat)
    requires n > 0
    ensures RowOk(n, InitialRow(n)) && RowLe(n, InitialRow(n), InitialRow(n))
  {
    var v := InitialRow(n).nReceived;
    assert v[0] == -1;
    assert Min(v) == -1;
    assert FirstMin(v) == 0;
  }

  lemma InitialShape(n: nat)
    requires n > 0
    ensures Shape(n, InitialTable(n)) && !InitialRow(n).globalMinReady
    ensures Rests(InitialRow(n), InitialRow(n))
  {
  }

  lemma InitialTableInv(n: nat)
    requires n > 0
    ensures TableInv(n, InitialTable(n))
  {
    hide RowOk, RowLe, Vouched, RowShape, Covers, PrefixEnd;
    InitialRowOk(n);
    InitialShape(n);
  }

  /** Every row a member can see is a sound row, and no further than the owner's own. */
  lemma SeenRow(n: nat, t: Table, j: nat, k: nat)
    requires TableInv(n, t) && j < n && k < n
    ensures RowOk(n, View(n, t, j, k)) && RowLe(n, View(n, t, j, k), View(n, t, k, k))
  {
    hide RowOk, RowLe, TwoStage, TrimsVouched;
    assert Ordered(n, t.hist[k]);
  }

  lemma NewRowOk(n: nat, sst: Sst, j: nat, change: RowChange)
    requires SstShape(n, sst) && j < n && RowOk(n, sst[j])
    requires Allowed(n, sst, j, change)
    ensures var r := NewRow(n, sst, j, change);
            RowOk(n, r) && RowLe(n, sst[j], r) && Rests(r, r)
    ensures var r := NewRow(n, sst, j, change);
            forall k :: 0 <= k < n && Rests(sst[j], sst[k]) ==> Rests(r, sst[k])
  {
    match change
    case Receive(v) =>
      PrefixMonotone(sst[j].nReceived, v);
    case Stabilize =>
      assert SeqNums(sst)[j] == sst[j].seqNum;
      forall k | 0 <= k < n ensures Min(SeqNums(sst)) <= sst[k].seqNum {
        assert SeqNums(sst)[k] == sst[k].seqNum;
      }
    case Deliver(q) =>
      assert StableNums(sst)[j] == sst[j].stableNum;
      forall k | 0 <= k < n ensures Min(StableNums(sst)) <= sst[k].stableNum {
        assert StableNums(sst)[k] == sst[k].stableNum;
      }
    case Wedge =>
    case Trim =>
    case Echo(k) =>
  }

  // ---------------------------------------------------------------- how views change

  lemma PublishViews(n: nat, t: Table, j: nat, r: Row)
    requires Shape(n, t) && j < n && RowShape(n, r)
    ensures forall m, k :: 0 <= m < n && 0 <= k < n ==>
      View(n, Publish(n, t, j, r), m, k) == if m == k == j then r else View(n, t, m, k)
  {
  }

  lemma HandOverViews(n: nat, t: Table, i: nat, j: nat, a: nat)
    requires Shape(n, t) && i < n && j < n && i != j && a < |t.hist[i]|
    ensures forall m, k :: 0 <= m < n && 0 <= k < n ==>
      View(n, HandOver(n, t, i, j, a), m, k) == if m == j && k == i then t.hist[i][a] else View(n, t, m, k)
  {
  }

  ghost predicate ViewsLe(n: nat, t: Table, t': Table)
    requires Shape(n, t) && Shape(n, t')
  {
    forall m, k :: 0 <= m < n && 0 <= k < n ==> RowLe(n, View(n, t, m, k), View(n, t', m, k))
  }

  lemma RowLeReflexive(n: nat, r: Row)
    requires RowShape(n, r)
    ensures RowLe(n, r, r)
  {
  }

  /** No member's view of any row ever goes back. */
  lemma ViewsAdvance(n: nat, t: Table, step: TableStep)
    requires TableInv(n, t) && Enabled(n, t, step)
    ensures ViewsLe(n, t, Apply(n, t, step))
  {
    hide RowOk, RowLe, NewRow, Allowed, TwoStage, TrimsVouched, Publish, HandOver, View;
    match step
    case Own(j, change) =>
      var r := NewRow(n, SstOf(n, t, j), j, change);
      SeenRow(n, t, j, j);
      NewRowOk(n, SstOf(n, t, j), j, change);
      PublishViews(n, t, j, r);
      forall m, k | 0 <= m < n && 0 <= k < n
        ensures RowLe(n, View(n, t, m, k), View(n, Apply(n, t, step), m, k))
      {
        RowLeReflexive(n, View(n, t, m, k));
      }
    case Push(i, j, a) =>
      HandOverViews(n, t, i, j, a);
      PushAdvances(n, t, i, j, a);
      forall m, k | 0 <= m < n && 0 <= k < n
        ensures RowLe(n, View(n, t, m, k), View(n, Apply(n, t, step), m, k))
      {
        RowLeReflexive(n, View(n, t, m, k));
      }
    case Freeze(j, i) =>
      FreezeAdvances(n, t, step);
  }

  lemma PushAdvances(n: nat, t: Table, i: nat, j: nat, a: nat)
    requires TableInv(n, t) && Enabled(n, t, Push(i, j, a))
    ensures RowLe(n, View(n, t, j, i), t.hist[i][a])
    ensures RowOk(n, t.hist[i][a])
  {
    hide RowOk, RowLe, TwoStage, TrimsVouched;
    assert Ordered(n, t.hist[i]);
  }

  lemma FreezeAdvances(n: nat, t: Table, step: TableStep)
    requires Shape(n, t) && Enabled(n, t, step) && step.Freeze?
    ensures ViewsLe(n, t, Apply(n, t, step))
  {
    var t' := Apply(n, t, step);
    hide RowLe;
    forall m, k | 0 <= m < n && 0 <= k < n
      ensures RowLe(n, View(n, t, m, k), View(n, t', m, k))
    {
      RowLeReflexive(n, View(n, t, m, k));
    }
  }

  /** Once a trim is vouched for, nothing that happens later takes the voucher away. */
  lemma VouchedKept(n: nat, t: Table, t': Table, g: seq<int>)
    requires Shape(n, t) && Shape(n, t') && ViewsLe(n, t, t')
    requires Vouched(n, t, g)
    ensures Vouched(n, t', g)
  {
    hide Covers, View, Shape;
    var l :| Vouches(n, t, l, g);
    assert RowLe(n, View(n, t, l, l), View(n, t', l, l));
    forall k | 0 <= k < n ensures VecLe(g, View(n, t', l, k).nReceived) {
      assert VecLe(g, View(n, t, l, k).nReceived);
      assert RowLe(n, View(n, t, l, k), View(n, t', l, k));
    }
    assert Vouches(n, t', l, g);
  }

  lemma TrimIsColumnMin(n: nat, sst: Sst, s: nat)
    requires n > 0 && SstShape(n, sst) && s < n && FirstReady(sst, 0) == n
    ensures forall k :: 0 <= k < n ==> LeaderTrim(n, sst)[s] <= sst[k].nReceived[s]
    ensures exists k :: 0 <= k < n && LeaderTrim(n, sst)[s] == sst[k].nReceived[s]
  {
    var column := Column(n, sst, s);
    forall k | 0 <= k < n ensures Min(column) <= sst[k].nReceived[s] {
      assert column[k] == sst[k].nReceived[s];
    }
    var k :| 0 <= k < n && column[k] == Min(column);
    assert LeaderTrim(n, sst)[s] == sst[k].nReceived[s];
  }

  /** The trim a wedged leader computes covers everything that can ever become stable there. */
  lemma ComputedTrimVouched(n: nat, t: Table, j: nat)
    requires TableInv(n, t) && j < n && View(n, t, j, j).wedged
    requires FirstReady(SstOf(n, t, j), 0) == n
    ensures Vouches(n, t, j, LeaderTrim(n, SstOf(n, t, j)))
  {
    var sst := SstOf(n, t, j);
    var g := LeaderTrim(n, sst);
    hide TrimsVouched, LeaderTrim, View, Shape, Covers, PrefixEnd, FirstReady;
    forall k | 0 <= k < n ensures VecLe(g, View(n, t, j, k).nReceived) {
      forall s | 0 <= s < n ensures -1 <= g[s] <= sst[k].nReceived[s] {
        TrimIsColumnMin(n, sst, s);
        var r :| 0 <= r < n && g[s] == sst[r].nReceived[s];
        SeenRow(n, t, j, r);
      }
    }
    ComputedTrimCovers(n, t, j);
  }

  lemma ComputedTrimCovers(n: nat, t: Table, j: nat)
    requires TableInv(n, t) && j < n
    requires FirstReady(SstOf(n, t, j), 0) == n
    ensures Covers(LeaderTrim(n, SstOf(n, t, j)), View(n, t, j, j).stableNum)
  {
    var sst := SstOf(n, t, j);
    var g := LeaderTrim(n, sst);
    var top := View(n, t, j, j).stableNum;
    hide TrimsVouched, LeaderTrim, View, Shape, PrefixEnd, FirstReady;
    forall p | 0 <= p <= top ensures Received(g, p) {
      var s := SenderOf(n, p);
      SplitSeqNo(n, p);
      TrimIsColumnMin(n, sst, s);
      var r :| 0 <= r < n && g[s] == sst[r].nReceived[s];
      SeenRow(n, t, j, r);
      assert Rests(View(n, t, j, j), View(n, t, j, r));
      ExactPrefix(sst[r].nReceived, top);
      assert Received(sst[r].nReceived, p);
    }
  }

  lemma CoversLower(g: seq<int>, p: int, q: int)
    requires |g| > 0 && p <= q && Covers(g, q)
    ensures Covers(g, p)
  {
    hide Received;
  }

  lemma SeenTrimVouched(n: nat, t: Table, j: nat, k: nat)
    requires TableInv(n, t) && j < n && k < n && View(n, t, j, k).globalMinReady
    ensures Vouched(n, t, View(n, t, j, k).globalMin)
  {
    hide Vouched, TwoStage, Ordered;
    var a := if j == k then |t.hist[k]| - 1 else t.pos[j][k];
    assert t.hist[k][a].globalMinReady;
  }

  lemma NewTrimVouched(n: nat, t: Table, j: nat, change: RowChange)
    requires TableInv(n, t) && j < n
    requires Allowed(n, SstOf(n, t, j), j, change)
    requires NewRow(n, SstOf(n, t, j), j, change).globalMinReady
    ensures Vouched(n, t, NewRow(n, SstOf(n, t, j), j, change).globalMin)
  {
    var sst := SstOf(n, t, j);
    hide Vouched, TwoStage, Ordered, TrimsVouched, PrefixEnd, View;
    if change.Trim? {
      LeaderTrimVouched(n, t, j);
    } else if change.Echo? {
      SeenTrimVouched(n, t, j, change.leader);
    } else {
      SeenTrimVouched(n, t, j, j);
    }
  }

  lemma LeaderTrimVouched(n: nat, t: Table, j: nat)
    requires TableInv(n, t) && j < n && View(n, t, j, j).wedged
    ensures Vouched(n, t, LeaderTrim(n, SstOf(n, t, j)))
  {
    var k := FirstReady(SstOf(n, t, j), 0);
    hide Vouched, TwoStage, Ordered, TrimsVouched, Vouches, View;
    if k == n {
      ComputedTrimVouched(n, t, j);
      VouchesIsVouched(n, t, j, LeaderTrim(n, SstOf(n, t, j)));
    } else {
      SeenTrimVouched(n, t, j, k);
    }
  }

  lemma VouchesIsVouched(n: nat, t: Table, l: nat, g: seq<int>)
    requires Shape(n, t) && Vouches(n, t, l, g)
    ensures Vouched(n, t, g)
  {
  }

  // ---------------------------------------------------------------- the invariant is kept

  lemma PublishOrdered(n: nat, t: Table, j: nat, r: Row)
    requires Shape(n, t) && j < n && RowOk(n, r) && Ordered(n, t.hist[j])
    requires RowLe(n, View(n, t, j, j), r)
    ensures Ordered(n, Publish(n, t, j, r).hist[j])
  {
    hide RowOk;
    RowLeReflexive(n, r);
    var h, h' := t.hist[j], Publish(n, t, j, r).hist[j];
    hide Shape, RowShape;
    forall a, b | 0 <= a <= b < |h'| ensures RowLe(n, h'[a], h'[b]) {
      if a < |h| {
        assert RowLe(n, h[a], h[|h| - 1]);
      }
    }
  }

  lemma StepTwoStage(n: nat, t: Table, step: TableStep)
    requires TableInv(n, t) && Enabled(n, t, step)
    ensures TwoStage(n, Apply(n, t, step))
  {
    var t' := Apply(n, t, step);
    ViewsAdvance(n, t, step);
    match step
    case Own(j, change) =>
      OwnTwoStage(n, t, j, change);
    case _ =>
      assert forall m :: 0 <= m < n ==> View(n, t', m, m) == View(n, t, m, m);
      SeenOnlyTwoStage(n, t, t');
  }

  /** Seeing further rows, with one's own unchanged, keeps what numbers rest on. */
  lemma SeenOnlyTwoStage(n: nat, t: Table, t': Table)
    requires Shape(n, t) && Shape(n, t') && TwoStage(n, t) && ViewsLe(n, t, t')
    requires forall m :: 0 <= m < n ==> View(n, t', m, m) == View(n, t, m, m)
    ensures TwoStage(n, t')
  {
    hide View, Shape;
    forall m, k | 0 <= m < n && 0 <= k < n ensures Rests(View(n, t', m, m), View(n, t', m, k)) {
      assert Rests(View(n, t, m, m), View(n, t, m, k));
      assert RowLe(n, View(n, t, m, k), View(n, t', m, k));
    }
  }

  lemma OwnTwoStage(n: nat, t: Table, j: nat, change: RowChange)
    requires TableInv(n, t) && Enabled(n, t, Own(j, change))
    ensures TwoStage(n, Apply(n, t, Own(j, change)))
  {
    var sst := SstOf(n, t, j);
    var r := NewRow(n, sst, j, change);
    SeenRow(n, t, j, j);
    NewRowOk(n, sst, j, change);
    PublishViews(n, t, j, r);
    hide Publish, View, Shape, Ordered, TrimsVouched, RowOk, RowLe, NewRow, Allowed;
    var t' := Apply(n, t, Own(j, change));
    forall m, k | 0 <= m < n && 0 <= k < n ensures Rests(View(n, t', m, m), View(n, t', m, k)) {
      assert Rests(View(n, t, m, m), View(n, t, m, k));
    }
  }

  lemma StepTrims(n: nat, t: Table, step: TableStep)
    requires TableInv(n, t) && Enabled(n, t, step)
    ensures TrimsVouched(n, Apply(n, t, step))
  {
    var t' := Apply(n, t, step);
    ViewsAdvance(n, t, step);
    hide Vouched, NewRow, Allowed, TwoStage, Ordered, ViewsLe;
    forall i, a | 0 <= i < n && 0 <= a < |t'.hist[i]| && t'.hist[i][a].globalMinReady
      ensures Vouched(n, t', t'.hist[i][a].globalMin)
    {
      if a < |t.hist[i]| {
        assert t'.hist[i][a] == t.hist[i][a];
      } else {
        NewTrimVouched(n, t, step.who, step.change);
      }
      VouchedKept(n, t, t', t'.hist[i][a].globalMin);
    }
  }

  /** Every step of the tables keeps the invariant. */
  lemma TableStepInv(n: nat, t: Table, step: TableStep)
    requires TableInv(n, t) && Enabled(n, t, step)
    ensures TableInv(n, Apply(n, t, step))
  {
    StepTwoStage(n, t, step);
    StepTrims(n, t, step);
    hide TwoStage, TrimsVouched, RowOk, RowLe, NewRow, Allowed;
    if step.Own? {
      var sst := SstOf(n, t, step.who);
      SeenRow(n, t, step.who, step.who);
      NewRowOk(n, sst, step.who, step.change);
      PublishOrdered(n, t, step.who, NewRow(n, sst, step.who, step.change));
    }
  }

  // ---------------------------------------------------------------- what follows

  /** Whatever any member has delivered had already been received by every member. */
  lemma DeliveredReceivedByAll(n: nat, t: Table, j: nat, k: nat)
    requires TableInv(n, t) && j < n && k < n
    ensures Covers(View(n, t, k, k).nReceived, View(n, t, j, j).deliveredNum)
  {
    hide Shape, View, TrimsVouched, PrefixEnd, Covers;
    SeenRow(n, t, j, k);
    SeenRow(n, t, k, k);
    assert Rests(View(n, t, j, j), View(n, t, j, k));
    ExactPrefix(View(n, t, k, k).nReceived, View(n, t, j, j).deliveredNum);
  }

  /**
   A finished trim, in whichever row and however old, covers every number that any
   member has delivered, and no member lacks anything the trim includes.
   */
  lemma TrimCoversDelivered(n: nat, t: Table, i: nat, a: nat, j: nat)
    requires TableInv(n, t) && i < n && j < n
    requires a < |t.hist[i]| && t.hist[i][a].globalMinReady
    ensures Covers(t.hist[i][a].globalMin, View(n, t, j, j).deliveredNum)
    ensures VecLe(t.hist[i][a].globalMin, View(n, t, j, j).nReceived)
  {
    hide View, RowOk, Covers, RowShape, Ordered;
    var g := t.hist[i][a].globalMin;
    assert Vouched(n, t, g);
    var l :| Vouches(n, t, l, g);
    VouchCovers(n, t, l, g, j);
  }

  lemma VouchCovers(n: nat, t: Table, l: nat, g: seq<int>, j: nat)
    requires TableInv(n, t) && j < n && Vouches(n, t, l, g)
    ensures Covers(g, View(n, t, j, j).deliveredNum) && VecLe(g, View(n, t, j, j).nReceived)
  {
    hide Shape, View, TrimsVouched, PrefixEnd, RowOk, Covers, Ordered;
    SeenRow(n, t, j, l);
    SeenRow(n, t, l, j);
    assert VecLe(g, View(n, t, l, j).nReceived);
    assert Rests(View(n, t, j, j), View(n, t, j, l));
    CoversLower(g, View(n, t, j, j).deliveredNum, View(n, t, l, l).stableNum);
  }
}
