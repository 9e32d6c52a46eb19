/** The reconciliation and supply controls as set-oriented plans over all target dates at
    once, and their agreement with the record loops run date by date. */
module PipelineBPlan {
  import opened Prelude
  import opened Relational
  import opened KstTime
  import opened SilverControls
  import opened LedgerControls

  // ----- Wallet bounds -----------------------------------------------------------------

  datatype SnapRow = SnapRow(dateKst: int, userId: string, ts: int, balance: int)

  function PrepareSnapshot(r: WalletRecord, dates: set<int>): seq<SnapRow> {
    if r.snapshotTs.Some? && NonBlank(r.userId) && r.balanceTotal.Some? && DateKst(r.snapshotTs.value) in dates
    then [SnapRow(DateKst(r.snapshotTs.value), r.userId.value, r.snapshotTs.value, r.balanceTotal.value)]
    else []
  }

  /** Snapshots with a timestamp, a non-blank user and a balance, on a target date. */
  function PreparedSnapshots(s: seq<WalletRecord>, dates: set<int>): seq<SnapRow> {
    if s == [] then [] else PreparedSnapshots(s[..|s|-1], dates) + PrepareSnapshot(s[|s|-1], dates)
  }

  /** On any text, the plan reads a snapshot the loop reads exactly when its user id is not spaces alone, and
      never another one. */
  lemma {:induction false} SnapshotReadIff(r: WalletRecord, dates: set<int>, row: SnapRow)
    ensures row in PrepareSnapshot(r, dates) <==> row.dateKst in dates && IsSnapRow(r, row) && HoldsInk(r.userId)
  {
    BlankMeans(r.userId);
  }

  predicate CleanUsers(s: seq<WalletRecord>) {
    forall i | 0 <= i < |s| :: Clean(s[i].userId)
  }

  predicate IsSnapRow(r: WalletRecord, row: SnapRow) {
    Snapshot(r, row.userId, row.dateKst) && r.snapshotTs == Some(row.ts) && r.balanceTotal == Some(row.balance)
  }

  lemma {:induction false} PreparedAre(s: seq<WalletRecord>, dates: set<int>, row: SnapRow)
    requires CleanUsers(s)
    ensures row in PreparedSnapshots(s, dates) <==> row.dateKst in dates && exists i ::
            0 <= i < |s| && IsSnapRow(s[i], row)
  {
    if s != [] {
      var front, n := s[..|s|-1], |s| - 1;
      PreparedAre(front, dates, row);
      assert forall i | 0 <= i < n :: front[i] == s[i];
      CleanTextHasOneNotionOfMissing(s[n].userId);
      assert row in PrepareSnapshot(s[n], dates) <==> row.dateKst in dates && IsSnapRow(s[n], row);
    }
  }

  function SnapKey(): SnapRow -> (int, string) { (r: SnapRow) => (r.dateKst, r.userId) }
  function Ascending(): (SnapRow, SnapRow) -> bool { (a: SnapRow, b: SnapRow) => a.ts < b.ts }
  function Descending(): (SnapRow, SnapRow) -> bool { (a: SnapRow, b: SnapRow) => a.ts > b.ts }

  /** Any start and end rows the two windows may select. */
  ghost predicate BoundRows(s: seq<WalletRecord>, dates: set<int>, starts: seq<SnapRow>, ends: seq<SnapRow>) {
    && RowNumberOne(PreparedSnapshots(s, dates), SnapKey(), Ascending(), starts)
    && RowNumberOne(PreparedSnapshots(s, dates), SnapKey(), Descending(), ends)
  }

  function SameKey(): (SnapRow, SnapRow) -> bool {
    (a: SnapRow, b: SnapRow) => a.dateKst == b.dateKst && a.userId == b.userId
  }

  function WalletBounds(starts: seq<SnapRow>, ends: seq<SnapRow>): seq<(SnapRow, SnapRow)> {
    InnerJoin(starts, ends, SameKey())
  }

  /** The joined bounds have one row per (date, user): start row i with the end row of its key. */
  lemma {:induction false} BoundsJoin(s: seq<WalletRecord>, dates: set<int>, starts: seq<SnapRow>, ends: seq<SnapRow>,
                                      i: nat)
    requires BoundRows(s, dates, starts, ends) && i < |starts|
    ensures |WalletBounds(starts, ends)| == |starts|
    ensures WalletBounds(starts, ends)[i].0 == starts[i]
    ensures WalletBounds(starts, ends)[i].1 in ends && SameKey()(starts[i], WalletBounds(starts, ends)[i].1)
  {
    forall k | 0 <= k < |starts|
      ensures Unambiguous(starts[k], ends, SameKey()) && HasMatch(starts[k], ends, SameKey())
    {
      forall a, b | 0 <= a < b < |ends|
        ensures !(SameKey()(starts[k], ends[a]) && SameKey()(starts[k], ends[b]))
      {
        assert SnapKey()(ends[a]) != SnapKey()(ends[b]);
      }
      assert starts[k] in starts && HasKey(ends, SnapKey(), SnapKey()(starts[k]));
      var e :| e in ends && SnapKey()(e) == SnapKey()(starts[k]);
      assert SameKey()(starts[k], e);
    }
    InnerJoinIsLookup(starts, ends, SameKey(), i);
  }

  // ----- Ties ----------------------------------------------------------------------------

  /** Record i could be the start row of (u, d): no snapshot of the user that day is earlier. */
  ghost predicate PossibleStart(s: seq<WalletRecord>, u: string, d: int, i: int) {
    0 <= i < |s| && Snapshot(s[i], u, d) && forall j | 0 <= j < |s| && Snapshot(s[j], u, d) ::
        s[i].snapshotTs.value <= s[j].snapshotTs.value
  }

  ghost predicate PossibleEnd(s: seq<WalletRecord>, u: string, d: int, i: int) {
    0 <= i < |s| && Snapshot(s[i], u, d) && forall j | 0 <= j < |s| && Snapshot(s[j], u, d) ::
        s[i].snapshotTs.value >= s[j].snapshotTs.value
  }

  /** Records tied for first, and records tied for last, show the same balance. */
  ghost predicate TiesAgree(s: seq<WalletRecord>, u: string, d: int) {
    && (forall i, j :: PossibleStart(s, u, d, i) && PossibleStart(s, u, d, j) ==>
        s[i].balanceTotal == s[j].balanceTotal)
    && (forall i, j :: PossibleEnd(s, u, d, i) && PossibleEnd(s, u, d, j) ==> s[i].balanceTotal == s[j].balanceTotal)
  }

  ghost predicate UniqueSnapshotTimes(s: seq<WalletRecord>) {
    forall i, j | 0 <= i < j < |s| && s[i].userId == s[j].userId :: s[i].snapshotTs != s[j].snapshotTs
  }

  lemma {:induction false} UniqueTimesHaveNoTies(s: seq<WalletRecord>, u: string, d: int)
    requires UniqueSnapshotTimes(s)
    ensures TiesAgree(s, u, d)
  {
  }

  /** The delta some choice of tied rows gives. */
  predicate GivesDelta(s: seq<WalletRecord>, i: int, j: int, delta: int)
    requires 0 <= i < |s| && 0 <= j < |s|
  {
    s[i].balanceTotal.Some? && s[j].balanceTotal.Some? && s[j].balanceTotal.value - s[i].balanceTotal.value == delta
  }

  /** Whatever rows the plan picks, the day's delta is the loop's. */
  ghost predicate DeltaDetermined(s: seq<WalletRecord>, u: string, d: int, delta: int) {
    forall i, j | PossibleStart(s, u, d, i) && PossibleEnd(s, u, d, j) :: GivesDelta(s, i, j, delta)
  }

  /** The plan's choice among tied rows cannot change the day's delta from the loop's exactly
      when the tied balances agree. */
  lemma {:induction false} DeltaDeterminedIff(s: seq<WalletRecord>, u: string, d: int, b: Bounds)
    requires BoundsFor(s, u, d) == Some(b)
    ensures TiesAgree(s, u, d) <==> DeltaDetermined(s, u, d, b.endBalance - b.startBalance)
  {
    var i0, j0 := BoundsAreEarliestAndLatest(s, u, d);
    DeltaDeterminedAround(s, u, d, i0, j0, b);
  }

  lemma {:induction false} DeltaDeterminedAround(s: seq<WalletRecord>, u: string, d: int, i0: nat, j0: nat, b: Bounds)
    requires FirstEarliest(s, u, d, i0) && FirstLatest(s, u, d, j0) && IsBounds(s, i0, j0, b)
    ensures TiesAgree(s, u, d) <==> DeltaDetermined(s, u, d, b.endBalance - b.startBalance)
  {
    assert PossibleStart(s, u, d, i0) && PossibleEnd(s, u, d, j0);
    if DeltaDetermined(s, u, d, b.endBalance - b.startBalance) {
      forall i | PossibleStart(s, u, d, i)
        ensures s[i].balanceTotal == Some(b.startBalance)
      {
        assert GivesDelta(s, i, j0, b.endBalance - b.startBalance);
      }
      forall j | PossibleEnd(s, u, d, j)
        ensures s[j].balanceTotal == Some(b.endBalance)
      {
        assert GivesDelta(s, i0, j, b.endBalance - b.startBalance);
      }
    }
  }

  lemma {:induction false} StartRowIsPossible(s: seq<WalletRecord>, dates: set<int>, starts: seq<SnapRow>,
                                              ends: seq<SnapRow>, row: SnapRow)
    returns (i: nat)
    requires CleanUsers(s) && BoundRows(s, dates, starts, ends) && row in starts
    ensures PossibleStart(s, row.userId, row.dateKst, i) && IsSnapRow(s[i], row) && row.dateKst in dates
  {
    PreparedAre(s, dates, row);
    i :| 0 <= i < |s| && IsSnapRow(s[i], row);
    forall j | 0 <= j < |s| && Snapshot(s[j], row.userId, row.dateKst)
      ensures row.ts <= s[j].snapshotTs.value
    {
      var other := SnapRow(row.dateKst, row.userId, s[j].snapshotTs.value, s[j].balanceTotal.value);
      assert IsSnapRow(s[j], other);
      PreparedAre(s, dates, other);
      assert SnapKey()(other) == SnapKey()(row);
      assert !Ascending()(other, row);
    }
  }

  lemma {:induction false} EndRowIsPossible(s: seq<WalletRecord>, dates: set<int>, starts: seq<SnapRow>,
                                            ends: seq<SnapRow>, row: SnapRow)
    returns (i: nat)
    requires CleanUsers(s) && BoundRows(s, dates, starts, ends) && row in ends
    ensures PossibleEnd(s, row.userId, row.dateKst, i) && IsSnapRow(s[i], row) && row.dateKst in dates
  {
    PreparedAre(s, dates, row);
    i :| 0 <= i < |s| && IsSnapRow(s[i], row);
    forall j | 0 <= j < |s| && Snapshot(s[j], row.userId, row.dateKst)
      ensures row.ts >= s[j].snapshotTs.value
    {
      var other := SnapRow(row.dateKst, row.userId, s[j].snapshotTs.value, s[j].balanceTotal.value);
      assert IsSnapRow(s[j], other);
      PreparedAre(s, dates, other);
      assert SnapKey()(other) == SnapKey()(row);
      assert !Descending()(other, row);
    }
  }

  /** Where ties agree, row i of the joined bounds carries the loop's bounds of its key. */
  lemma {:induction false} BoundsRowIsLoopBounds(s: seq<WalletRecord>, dates: set<int>, starts: seq<SnapRow>,
                                                 ends: seq<SnapRow>, i: nat)
    requires CleanUsers(s) && BoundRows(s, dates, starts, ends) && i < |starts|
    requires TiesAgree(s, starts[i].userId, starts[i].dateKst)
    ensures |WalletBounds(starts, ends)| == |starts|
    ensures var (a, e) := WalletBounds(starts, ends)[i];
            && a == starts[i] && a.dateKst in dates && e.dateKst == a.dateKst && e.userId == a.userId
            && BoundsFor(s, a.userId, a.dateKst).Some?
            && BoundsFor(s, a.userId, a.dateKst).value.startBalance == a.balance
            && BoundsFor(s, a.userId, a.dateKst).value.endBalance == e.balance
  {
    BoundsJoin(s, dates, starts, ends, i);
    var (a, e) := WalletBounds(starts, ends)[i];
    var ia := StartRowIsPossible(s, dates, starts, ends, a);
    var ie := EndRowIsPossible(s, dates, starts, ends, e);
    NoBoundsNoSnapshot(s, a.userId, a.dateKst);
    var i0, j0 := BoundsAreEarliestAndLatest(s, a.userId, a.dateKst);
    assert PossibleStart(s, a.userId, a.dateKst, i0) && PossibleEnd(s, a.userId, a.dateKst, j0);
  }

  /** Every user with a snapshot on a target date has a start row. */
  lemma {:induction false} EveryUserHasStartRow(s: seq<WalletRecord>, dates: set<int>, starts: seq<SnapRow>,
                                                ends: seq<SnapRow>, u: string, d: int)
    returns (k: nat)
    requires CleanUsers(s) && BoundRows(s, dates, starts, ends) && d in dates && BoundsFor(s, u, d).Some?
    ensures k < |starts| && starts[k].userId == u && starts[k].dateKst == d
  {
    var i0, j0 := BoundsAreEarliestAndLatest(s, u, d);
    var row := SnapRow(d, u, s[i0].snapshotTs.value, s[i0].balanceTotal.value);
    assert IsSnapRow(s[i0], row);
    PreparedAre(s, dates, row);
    assert HasKey(starts, SnapKey(), SnapKey()(row));
    var r :| r in starts && SnapKey()(r) == SnapKey()(row);
    k :| 0 <= k < |starts| && starts[k] == r;
  }

  // ----- Net flow ---------------------------------------------------------------------------

  datatype FlowRow = FlowRow(dateKst: int, walletId: string, amountSigned: int)

  function PrepareFlow(r: LedgerRecord, dates: set<int>): seq<FlowRow> {
    if EventKst(r).Some? && EventKst(r).value in dates && NonBlank(r.walletId) && r.amountSigned.Some?
    then [FlowRow(EventKst(r).value, r.walletId.value, r.amountSigned.value)]
    else []
  }

  /** The same for the flow of a wallet. */
  lemma {:induction false} FlowReadIff(r: LedgerRecord, dates: set<int>, row: FlowRow)
    ensures row in PrepareFlow(r, dates)
            <==> row.dateKst in dates && EventKst(r) == Some(row.dateKst) && r.amountSigned == Some(row.amountSigned)
                 && r.walletId == Some(row.walletId) && HoldsInk(r.walletId)
  {
    BlankMeans(r.walletId);
  }

  function PreparedFlows(ledger: seq<LedgerRecord>, dates: set<int>): seq<FlowRow> {
    if ledger == [] then [] else PreparedFlows(ledger[..|ledger|-1], dates) + PrepareFlow(ledger[|ledger|-1], dates)
  }

  function FlowKey(): FlowRow -> (int, string) { (r: FlowRow) => (r.dateKst, r.walletId) }
  function FlowAmount(): FlowRow -> int { (r: FlowRow) => r.amountSigned }

  /** Any net-flow table the grouping may produce. */
  ghost predicate NetRows(ledger: seq<LedgerRecord>, dates: set<int>, net: seq<((int, string), int)>) {
    GroupBySum(PreparedFlows(ledger, dates), FlowKey(), FlowAmount(), net)
  }

  predicate CleanWallets(ledger: seq<LedgerRecord>) {
    forall i | 0 <= i < |ledger| :: Clean(ledger[i].walletId)
  }

  lemma {:induction false} SumByConcat<T>(s: seq<T>, t: seq<T>, f: T -> int)
    requires |t| <= 1
    ensures SumBy(s + t, f) == SumBy(s, f) + SumBy(t, f)
  {
    if t == [] {
      assert s + t == s;
    } else {
      assert (s + t)[..|s|] == s;
      assert t[..0] == [];
    }
  }

  lemma {:induction false} FlowSum(ledger: seq<LedgerRecord>, dates: set<int>, w: string, d: int)
    requires CleanWallets(ledger) && d in dates
    ensures SumBy(PreparedFlows(ledger, dates), Cell(FlowKey(), FlowAmount(), (d, w))) == NetFlow(ledger, w, d)
  {
    if ledger != [] {
      var front, r := ledger[..|ledger|-1], ledger[|ledger|-1];
      FlowSum(front, dates, w, d);
      SumByConcat(PreparedFlows(front, dates), PrepareFlow(r, dates), Cell(FlowKey(), FlowAmount(), (d, w)));
      CleanTextHasOneNotionOfMissing(r.walletId);
      if |PrepareFlow(r, dates)| == 1 {
        assert PrepareFlow(r, dates)[..0] == [];
      }
    }
  }

  /** The grouped table answers net flow, a missing group answering zero. */
  lemma {:induction false} NetRowsAnswer(ledger: seq<LedgerRecord>, dates: set<int>, net: seq<((int, string), int)>,
                                         w: string, d: int)
    requires CleanWallets(ledger) && NetRows(ledger, dates, net) && d in dates
    ensures forall g | g in net && g.0 == (d, w) :: g.1 == NetFlow(ledger, w, d)
    ensures !HasGroup(net, (d, w)) ==> NetFlow(ledger, w, d) == 0
  {
    var flows := PreparedFlows(ledger, dates);
    FlowSum(ledger, dates, w, d);
    if !HasGroup(net, (d, w)) {
      assert !HasKey(flows, FlowKey(), (d, w));
      SumOfZeros(flows, Cell(FlowKey(), FlowAmount(), (d, w)));
    }
  }

  // ----- Reconciliation -----------------------------------------------------------------------

  function OnWallet(): ((SnapRow, SnapRow), ((int, string), int)) -> bool {
    (b: (SnapRow, SnapRow), g: ((int, string), int)) => g.0 == (b.0.dateKst, b.0.userId)
  }

  function ReconPlanRow(joined: ((SnapRow, SnapRow), Option<((int, string), int)>),
                        tags: map<int, Option<string>>): ReconRow {
    var ((start, end), group) := joined;
    var netFlow := GroupValue(group);
    var delta := end.balance - start.balance;
    var driftAbs := Abs(delta - netFlow);
    ReconRow(start.dateKst, start.userId, delta, netFlow, driftAbs,
             if netFlow != 0 then Some(driftAbs as real / Abs(netFlow) as real) else None,
             if start.dateKst in tags then tags[start.dateKst] else None)
  }

  /** The reconciliation table: bounds left-joined with net flow, then tagged by date. */
  function ReconPlan(starts: seq<SnapRow>, ends: seq<SnapRow>, net: seq<((int, string), int)>,
                     tags: map<int, Option<string>>): seq<ReconRow> {
    var joined := LeftJoin(WalletBounds(starts, ends), net, OnWallet());
    seq(|joined|, i requires 0 <= i < |joined| => ReconPlanRow(joined[i], tags))
  }

  /** One execution of the plan on one input. */
  ghost predicate ReconExecution(s: seq<WalletRecord>, ledger: seq<LedgerRecord>, dates: set<int>, starts: seq<SnapRow>,
                                 ends: seq<SnapRow>, net: seq<((int, string), int)>) {
    BoundRows(s, dates, starts, ends) && NetRows(ledger, dates, net)
  }

  function DateTag(tags: map<int, Option<string>>, d: int): Option<string> {
    if d in tags then tags[d] else None
  }

  function GroupValue(group: Option<((int, string), int)>): int {
    if group.Some? then group.value.1 else 0
  }

  lemma {:induction false} PlanNetFlow(ledger: seq<LedgerRecord>, dates: set<int>, bounds: seq<(SnapRow, SnapRow)>,
                                       net: seq<((int, string), int)>, i: nat)
    requires CleanWallets(ledger) && NetRows(ledger, dates, net) && i < |bounds| && bounds[i].0.dateKst in dates
    ensures var joined := LeftJoin(bounds, net, OnWallet());
            |joined| == |bounds| && joined[i].0 == bounds[i]
            && GroupValue(joined[i].1) == NetFlow(ledger, bounds[i].0.userId, bounds[i].0.dateKst)
  {
    assert AtMostOneMatch(bounds, net, OnWallet());
    LeftJoinIsLookup(bounds, net, OnWallet(), i);
    NetRowsAnswer(ledger, dates, net, bounds[i].0.userId, bounds[i].0.dateKst);
    var group := LeftJoin(bounds, net, OnWallet())[i].1;
    if group.None? {
      assert !HasGroup(net, (bounds[i].0.dateKst, bounds[i].0.userId)) by {
        assert forall g | g in net :: !OnWallet()(bounds[i], g);
      }
    }
  }

  /** Row i of the plan's table is the loop's row for the date and user of start row i. */
  lemma {:induction false} ReconPlanRowIsLoopRow(s: seq<WalletRecord>, ledger: seq<LedgerRecord>, dates: set<int>,
                                                 starts: seq<SnapRow>, ends: seq<SnapRow>,
                                                 net: seq<((int, string), int)>, tags: map<int, Option<string>>, i: nat)
    requires CleanUsers(s) && CleanWallets(ledger) && ReconExecution(s, ledger, dates, starts, ends, net)
    requires i < |starts| && TiesAgree(s, starts[i].userId, starts[i].dateKst)
    ensures |ReconPlan(starts, ends, net, tags)| == |starts| && starts[i].dateKst in dates
    ensures LoopRow(s, ledger, starts[i].dateKst, DateTag(tags, starts[i].dateKst), starts[i].userId,
            ReconPlan(starts, ends, net, tags)[i])
  {
    BoundsRowIsLoopBounds(s, dates, starts, ends, i);
    PlanNetFlow(ledger, dates, WalletBounds(starts, ends), net, i);
  }

  lemma {:induction false} PlanKeyOfStart(s: seq<WalletRecord>, ledger: seq<LedgerRecord>, dates: set<int>,
                                          starts: seq<SnapRow>, ends: seq<SnapRow>, net: seq<((int, string), int)>,
                                          tags: map<int, Option<string>>, i: nat)
    requires ReconExecution(s, ledger, dates, starts, ends, net) && i < |starts|
    ensures |ReconPlan(starts, ends, net, tags)| == |starts|
    ensures ReconKey()(ReconPlan(starts, ends, net, tags)[i]) == SnapKey()(starts[i])
  {
    var bounds := WalletBounds(starts, ends);
    BoundsJoin(s, dates, starts, ends, i);
    assert AtMostOneMatch(bounds, net, OnWallet());
    LeftJoinIsLookup(bounds, net, OnWallet(), i);
  }

  lemma {:induction false} ReconPlanKeysDistinct(s: seq<WalletRecord>, ledger: seq<LedgerRecord>, dates: set<int>,
                                                 starts: seq<SnapRow>, ends: seq<SnapRow>,
                                                 net: seq<((int, string), int)>, tags: map<int, Option<string>>)
    requires ReconExecution(s, ledger, dates, starts, ends, net)
    ensures |ReconPlan(starts, ends, net, tags)| == |starts|
    ensures DistinctKeys(ReconPlan(starts, ends, net, tags), ReconKey())
  {
    var plan := ReconPlan(starts, ends, net, tags);
    forall i | 0 <= i < |starts|
      ensures |plan| == |starts| && ReconKey()(plan[i]) == SnapKey()(starts[i])
    {
      PlanKeyOfStart(s, ledger, dates, starts, ends, net, tags, i);
    }
    if starts == [] { assert WalletBounds(starts, ends) == []; }
    forall i, j | 0 <= i < j < |plan|
      ensures ReconKey()(plan[i]) != ReconKey()(plan[j])
    {
      assert SnapKey()(starts[i]) != SnapKey()(starts[j]);
    }
  }

  function ReconKey(): ReconRow -> (int, string) { (r: ReconRow) => (r.dateKst, r.userId) }

  lemma {:induction false} PlanRowIsLoopRow(s: seq<WalletRecord>, ledger: seq<LedgerRecord>, dates: set<int>,
                                            starts: seq<SnapRow>, ends: seq<SnapRow>, net: seq<((int, string), int)>,
                                            tags: map<int, Option<string>>, row: ReconRow)
    requires CleanUsers(s) && CleanWallets(ledger) && ReconExecution(s, ledger, dates, starts, ends, net)
    requires TiesAgree(s, row.userId, row.dateKst)
    requires row in ReconPlan(starts, ends, net, tags)
    ensures row.dateKst in dates && LoopRow(s, ledger, row.dateKst, DateTag(tags, row.dateKst), row.userId, row)
  {
    ReconPlanKeysDistinct(s, ledger, dates, starts, ends, net, tags);
    var plan := ReconPlan(starts, ends, net, tags);
    var i :| 0 <= i < |plan| && plan[i] == row;
    PlanKeyOfStart(s, ledger, dates, starts, ends, net, tags, i);
    ReconPlanRowIsLoopRow(s, ledger, dates, starts, ends, net, tags, i);
  }

  lemma {:induction false} LoopRowIsPlanRow(s: seq<WalletRecord>, ledger: seq<LedgerRecord>, dates: set<int>,
                                            starts: seq<SnapRow>, ends: seq<SnapRow>, net: seq<((int, string), int)>,
                                            tags: map<int, Option<string>>, d: int, row: ReconRow)
    requires CleanUsers(s) && CleanWallets(ledger) && ReconExecution(s, ledger, dates, starts, ends, net)
    requires d in dates && TiesAgree(s, row.userId, d)
    requires LoopRow(s, ledger, d, DateTag(tags, d), row.userId, row)
    ensures row in ReconPlan(starts, ends, net, tags)
  {
    var k := EveryUserHasStartRow(s, dates, starts, ends, row.userId, d);
    ReconPlanRowIsLoopRow(s, ledger, dates, starts, ends, net, tags, k);
  }

  /** Refinement: whatever rows the engine picks among ties, however it orders its groups,
      the plan's table for each target date holds exactly the rows the loop emits for that
      date, and it holds one row per merge key (date_kst, user_id). */
  lemma {:induction false} ReconPlanRefinesLoop(s: seq<WalletRecord>, ledger: seq<LedgerRecord>, dates: set<int>,
                                                starts: seq<SnapRow>, ends: seq<SnapRow>,
                                                net: seq<((int, string), int)>, tags: map<int, Option<string>>, d: int,
                                                loopRows: seq<ReconRow>)
    requires CleanUsers(s) && CleanWallets(ledger) && ReconExecution(s, ledger, dates, starts, ends, net)
    requires forall u, e | e in dates :: TiesAgree(s, u, e)
    requires d in dates && ReconRowsOf(s, ledger, d, DateTag(tags, d), loopRows)
    ensures DistinctKeys(ReconPlan(starts, ends, net, tags), ReconKey())
    ensures forall row :: row in loopRows <==> row in ReconPlan(starts, ends, net, tags) && row.dateKst == d
  {
    var plan := ReconPlan(starts, ends, net, tags);
    ReconPlanKeysDistinct(s, ledger, dates, starts, ends, net, tags);
    forall row | row in plan && row.dateKst == d
      ensures row in loopRows
    {
      PlanRowIsLoopRow(s, ledger, dates, starts, ends, net, tags, row);
      assert HasUser(loopRows, row.userId);
      var q :| q in loopRows && q.userId == row.userId;
      assert LoopRow(s, ledger, d, DateTag(tags, d), q.userId, q);
    }
    forall row | row in loopRows
      ensures row in plan && row.dateKst == d
    {
      assert LoopRow(s, ledger, d, DateTag(tags, d), row.userId, row);
      LoopRowIsPlanRow(s, ledger, dates, starts, ends, net, tags, d, row);
    }
  }

  // ----- Severity and exceptions -----------------------------------------------------------------

  /** The plan's severity: the configured checks as a when-chain, first true one wins. */
  function SeverityChecks(rule: Rule): seq<(real, Severity)> {
    (if rule.crit.Some? then [(rule.crit.value, CRITICAL)] else [])
    + (if rule.warn.Some? then [(rule.warn.value, WARN)] else [])
    + (if rule.threshold.Some? then [(rule.threshold.value, CRITICAL)] else [])
  }

  function FirstCheck(value: int, checks: seq<(real, Severity)>): Option<Severity> {
    if checks == [] then None
    else if value as real > checks[0].0 then Some(checks[0].1)
    else FirstCheck(value, checks[1..])
  }

  function PlanSeverity(value: int, rule: Option<Rule>): Option<Severity> {
    if rule.None? then None else FirstCheck(value, SeverityChecks(rule.value))
  }

  lemma {:induction false} FirstCheckOfConcat(value: int, a: seq<(real, Severity)>, b: seq<(real, Severity)>)
    ensures FirstCheck(value, a + b) == if FirstCheck(value, a).Some? then FirstCheck(value, a)
            else FirstCheck(value, b)
  {
    if a == [] {
      assert a + b == b;
    } else {
      assert (a + b)[1..] == a[1..] + b;
      FirstCheckOfConcat(value, a[1..], b);
    }
  }

  lemma {:induction false} SeveritiesAgree(value: int, rule: Option<Rule>)
    ensures PlanSeverity(value, rule) == EvaluateSeverity(value, rule)
  {
    if rule.Some? {
      var crit := if rule.value.crit.Some? then [(rule.value.crit.value, CRITICAL)] else [];
      var warn := if rule.value.warn.Some? then [(rule.value.warn.value, WARN)] else [];
      var threshold := if rule.value.threshold.Some? then [(rule.value.threshold.value, CRITICAL)] else [];
      FirstCheckOfConcat(value, crit + warn, threshold);
      FirstCheckOfConcat(value, crit, warn);
    }
  }

  function PlanException(row: ReconRow, rule: Option<Rule>): Option<LedgerException> {
    var severity := PlanSeverity(row.driftAbs, rule);
    if severity.None? then None
    else Some(LedgerException(row.dateKst, RECON_DRIFT_HIGH, severity.value, row.driftAbs,
                              ReconMessage(row.userId, row.deltaBalanceTotal, row.netFlowTotal, row.driftAbs)))
  }

  lemma {:induction false} ReconExceptionsAre(rows: seq<ReconRow>, rule: Option<Rule>, e: LedgerException)
    ensures e in ReconExceptions(rows, rule) <==> exists row :: row in rows && ReconException(row, rule) == Some(e)
  {
    if rows != [] {
      var front, last := rows[..|rows|-1], rows[|rows|-1];
      ReconExceptionsAre(front, rule, e);
      assert rows == front + [last];
      if ReconException(last, rule) == Some(e) { assert last in rows; }
    }
  }

  /** Same rows, same exceptions: on each target date the plan raises the loop's exceptions. */
  lemma {:induction false} ReconExceptionsAgree(plan: seq<ReconRow>, loopRows: seq<ReconRow>, rule: Option<Rule>,
                                                d: int, e: LedgerException)
    requires forall row :: row in loopRows <==> row in plan && row.dateKst == d
    ensures e in ReconExceptions(loopRows, rule)
            <==> e.dateKst == d && exists row :: row in plan && PlanException(row, rule) == Some(e)
  {
    ReconExceptionsAre(loopRows, rule, e);
    forall row: ReconRow
      ensures PlanException(row, rule) == ReconException(row, rule)
    {
      SeveritiesAgree(row.driftAbs, rule);
    }
    if e.dateKst == d && exists row :: row in plan && PlanException(row, rule) == Some(e) {
      var row :| row in plan && PlanException(row, rule) == Some(e);
      assert row in loopRows;
    }
  }

  // ----- There is always an execution ------------------------------------------------------------

  /** Whatever the tables hold, the engine has an execution of the reconciliation plan to choose. */
  lemma {:induction false} ReconExecutionExists(s: seq<WalletRecord>, ledger: seq<LedgerRecord>, dates: set<int>)
    returns (starts: seq<SnapRow>, ends: seq<SnapRow>, net: seq<((int, string), int)>)
    ensures ReconExecution(s, ledger, dates, starts, ends, net)
  {
    starts := RowNumberOneExists(PreparedSnapshots(s, dates), SnapKey(), Ascending());
    ends := RowNumberOneExists(PreparedSnapshots(s, dates), SnapKey(), Descending());
    net := GroupBySumExists(PreparedFlows(ledger, dates), FlowKey(), FlowAmount());
  }
}
