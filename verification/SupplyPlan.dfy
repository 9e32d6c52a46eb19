/** The supply control as a plan: a two-stage aggregation of issued supply and a grouped
    wallet total, and the soundness of the filters pushed below both plans. */
module SupplyPlan {
  import opened Prelude
  import opened Relational
  import opened KstTime
  import opened SilverControls
  import opened LedgerControls
  import opened PipelineBPlan

  // ----- Issued supply ----------------------------------------------------------------

  /** `coalesce(entry_type, type)`: only a null entry_type is replaced. */
  function PlanEntryTypeOf(r: LedgerRecord): Option<EntryType> {
    if r.entryType.Some? then r.entryType else r.typ
  }

  datatype SupplyFlow = SupplyFlow(dateKst: int, signedAmount: int)

  function PrepareSupply(r: LedgerRecord): seq<SupplyFlow> {
    var t := PlanEntryTypeOf(r);
    if EventKst(r).Some? && t.Some? && SupplySign(t.value).Some? && r.amount.Some?
    then [SupplyFlow(EventKst(r).value, r.amount.value * SupplySign(t.value).value)]
    else []
  }

  function PreparedSupply(ledger: seq<LedgerRecord>): seq<SupplyFlow> {
    if ledger == [] then [] else PreparedSupply(ledger[..|ledger|-1]) + PrepareSupply(ledger[|ledger|-1])
  }

  function SupplyDate(): SupplyFlow -> int { (f: SupplyFlow) => f.dateKst }
  function SupplyValue(): SupplyFlow -> int { (f: SupplyFlow) => f.signedAmount }

  /** Any table of daily signed sums the grouping may produce. */
  ghost predicate DailySupply(ledger: seq<LedgerRecord>, daily: seq<(int, int)>) {
    GroupBySum(PreparedSupply(ledger), SupplyDate(), SupplyValue(), daily)
  }

  function OnOrBefore(): (int, (int, int)) -> bool { (d: int, g: (int, int)) => g.0 <= d }

  function DayTotal(): ((int, int)) -> int { (g: (int, int)) => g.1 }
  function DayTotalUpTo(d: int): ((int, int)) -> int { (g: (int, int)) => if g.0 <= d then g.1 else 0 }

  /** The non-equi left join of a target date with the daily sums, added up; a date without
      any earlier day sums to null, which counts as zero. */
  function IssuedPlan(daily: seq<(int, int)>, d: int): int {
    var days := Matches(d, daily, OnOrBefore());
    if days == [] then 0 else SumBy(days, DayTotal())
  }

  /** The loop falls through an empty entry_type, the plan does not. */
  predicate SameEntryType(r: LedgerRecord) {
    r.entryType == Some(Other("")) ==> r.typ.None? || SupplySign(r.typ.value).None?
  }

  function UpTo(d: int): SupplyFlow -> int { (f: SupplyFlow) => if f.dateKst <= d then f.signedAmount else 0 }

  /** One record counts the same in both forms exactly when its entry type is read the same,
      or there is nothing to count. */
  lemma {:induction false} SupplyTermsAgreeIff(r: LedgerRecord, d: int)
    ensures SumBy(PrepareSupply(r), UpTo(d)) == SupplyTerm(d)(r)
            <==> || SameEntryType(r) || r.amount == None || r.amount == Some(0)
                 || EventKst(r).None? || EventKst(r).value > d
  {
  }

  /** What the loop alone counts: records whose empty entry_type hides a supply type. */
  function EmptyTypeTerm(d: int): LedgerRecord -> int {
    (r: LedgerRecord) => if r.entryType == Some(Other("")) then SupplyTerm(d)(r) else 0
  }

  lemma {:induction false} SupplyTermSplits(r: LedgerRecord, d: int)
    ensures SumBy(PrepareSupply(r), UpTo(d)) + EmptyTypeTerm(d)(r) == SupplyTerm(d)(r)
    ensures SameEntryType(r) ==> EmptyTypeTerm(d)(r) == 0
  {
    SupplyTermsAgreeIff(r, d);
  }

  lemma {:induction false} PreparedSupplySum(ledger: seq<LedgerRecord>, d: int)
    ensures SumBy(PreparedSupply(ledger), UpTo(d)) + SumBy(ledger, EmptyTypeTerm(d)) == IssuedSupply(ledger, d)
    ensures (forall i | 0 <= i < |ledger| :: SameEntryType(ledger[i])) ==> SumBy(ledger, EmptyTypeTerm(d)) == 0
  {
    if ledger != [] {
      var front, r := ledger[..|ledger|-1], ledger[|ledger|-1];
      PreparedSupplySum(front, d);
      SumByConcat(PreparedSupply(front), PrepareSupply(r), UpTo(d));
      SupplyTermSplits(r, d);
    }
  }

  /** Two-stage aggregation adds up the prepared amounts dated up to the target, whatever grouping the
      engine produces. */
  lemma {:induction false} IssuedPlanIs(ledger: seq<LedgerRecord>, daily: seq<(int, int)>, d: int)
    requires DailySupply(ledger, daily)
    ensures IssuedPlan(daily, d) == SumBy(PreparedSupply(ledger), UpTo(d))
  {
    SumOverMatches(d, daily, OnOrBefore(), DayTotal(), DayTotalUpTo(d));
    GroupedSumIsOnePass(PreparedSupply(ledger), SupplyDate(), SupplyValue(), daily, k => k <= d, DayTotalUpTo(d),
        UpTo(d));
  }

  /** Two-stage issued supply against the single pass, for every ledger, every grouping order and every
      target date: they differ by exactly the supply that empty entry types hide, and so are equal where
      every record's entry type is read alike. */
  lemma {:induction false} TwoStageSupplyIsOnePass(ledger: seq<LedgerRecord>, daily: seq<(int, int)>, d: int)
    requires DailySupply(ledger, daily)
    ensures IssuedPlan(daily, d) + SumBy(ledger, EmptyTypeTerm(d)) == IssuedSupply(ledger, d)
    ensures (forall i | 0 <= i < |ledger| :: SameEntryType(ledger[i])) ==>
              IssuedPlan(daily, d) == IssuedSupply(ledger, d)
  {
    IssuedPlanIs(ledger, daily, d);
    PreparedSupplySum(ledger, d);
  }

  // ----- Wallet total --------------------------------------------------------------------

  function BoundsDate(): ((SnapRow, SnapRow)) -> int { (b: (SnapRow, SnapRow)) => b.0.dateKst }
  function BoundsEnd(): ((SnapRow, SnapRow)) -> int { (b: (SnapRow, SnapRow)) => b.1.balance }
  function BoundsUser(): ((SnapRow, SnapRow)) -> string { (b: (SnapRow, SnapRow)) => b.0.userId }
  function OnDate(d: int): ((SnapRow, SnapRow)) -> bool { (b: (SnapRow, SnapRow)) => b.0.dateKst == d }

  ghost predicate WalletTotals(bounds: seq<(SnapRow, SnapRow)>, totals: seq<(int, int)>) {
    GroupBySum(bounds, BoundsDate(), BoundsEnd(), totals)
  }

  /** The total joined to a target date; a date without bounds totals null, counted as zero. */
  function TotalPlan(totals: seq<(int, int)>, d: int): int {
    if totals == [] then 0
    else if totals[0].0 == d then totals[0].1
    else TotalPlan(totals[1..], d)
  }

  lemma {:induction false} TotalPlanFinds(totals: seq<(int, int)>, d: int, f: int -> int)
    requires forall g | g in totals :: g.1 == f(g.0)
    ensures TotalPlan(totals, d) == if HasGroup(totals, d) then f(d) else 0
  {
    if totals != [] && totals[0].0 != d {
      TotalPlanFinds(totals[1..], d, f);
      assert HasGroup(totals, d) <==> HasGroup(totals[1..], d) by {
        if g :| g in totals && g.0 == d { assert g in totals[1..]; }
      }
    }
    if totals != [] && totals[0].0 == d {
      assert totals[0] in totals && HasGroup(totals, d);
    }
  }

  /** The total of a date adds up the end balances of its bounds, whatever grouping the engine produces. */
  lemma {:induction false} TotalPlanIs(bounds: seq<(SnapRow, SnapRow)>, totals: seq<(int, int)>, d: int)
    requires WalletTotals(bounds, totals)
    ensures TotalPlan(totals, d) == SumBy(bounds, Cell(BoundsDate(), BoundsEnd(), d))
  {
    var perDate := (k: int) => SumBy(bounds, Cell(BoundsDate(), BoundsEnd(), k));
    TotalPlanFinds(totals, d, perDate);
    if !HasGroup(totals, d) {
      assert !HasKey(bounds, BoundsDate(), d);
      SumOfZeros(bounds, Cell(BoundsDate(), BoundsEnd(), d));
    }
  }

  /** The grouped wallet total is the loop's sum over the day's users. */
  lemma {:induction false} WalletTotalsAgree(s: seq<WalletRecord>, dates: set<int>, starts: seq<SnapRow>,
                                             ends: seq<SnapRow>, totals: seq<(int, int)>, d: int)
    requires CleanUsers(s) && BoundRows(s, dates, starts, ends) && d in dates
    requires forall u, e | e in dates :: TiesAgree(s, u, e)
    requires WalletTotals(WalletBounds(starts, ends), totals)
    ensures TotalPlan(totals, d) == WalletTotal(s, d)
  {
    var bounds := WalletBounds(starts, ends);
    TotalPlanIs(bounds, totals, d);
    BoundsFacts(s, dates, starts, ends, d);
    SumByDistinct(bounds, BoundsUser(), OnDate(d), Cell(BoundsDate(), BoundsEnd(), d), EndBalance(s, d));
    BoundsUsers(s, dates, starts, ends, d);
  }

  lemma {:induction false} BoundsFacts(s: seq<WalletRecord>, dates: set<int>, starts: seq<SnapRow>, ends: seq<SnapRow>,
                                       d: int)
    requires CleanUsers(s) && BoundRows(s, dates, starts, ends)
    requires forall u, e | e in dates :: TiesAgree(s, u, e)
    ensures var bounds := WalletBounds(starts, ends);
            && |bounds| == |starts|
            && (forall i, j | 0 <= i < j < |bounds| && OnDate(d)(bounds[i]) && OnDate(d)(bounds[j]) ::
                  BoundsUser()(bounds[i]) != BoundsUser()(bounds[j]))
            && (forall b | b in bounds ::
                Cell(BoundsDate(), BoundsEnd(), d)(b) == if OnDate(d)(b) then EndBalance(s, d)(BoundsUser()(b)) else 0)
            && (forall b | b in bounds && OnDate(d)(b) :: BoundsFor(s, BoundsUser()(b), d).Some?)
  {
    var bounds := WalletBounds(starts, ends);
    forall i | 0 <= i < |starts|
      ensures |bounds| == |starts| && bounds[i].0 == starts[i]
      ensures BoundsFor(s, starts[i].userId, starts[i].dateKst).Some?
      ensures BoundsFor(s, starts[i].userId, starts[i].dateKst).value.endBalance == bounds[i].1.balance
    {
      var i0 := StartRowIsPossible(s, dates, starts, ends, starts[i]);
      BoundsRowIsLoopBounds(s, dates, starts, ends, i);
    }
    if starts == [] { assert bounds == []; }
    forall i, j | 0 <= i < j < |bounds| && OnDate(d)(bounds[i]) && OnDate(d)(bounds[j])
      ensures BoundsUser()(bounds[i]) != BoundsUser()(bounds[j])
    {
      assert SnapKey()(starts[i]) != SnapKey()(starts[j]);
    }
  }

  lemma {:induction false} BoundsUsers(s: seq<WalletRecord>, dates: set<int>, starts: seq<SnapRow>, ends: seq<SnapRow>,
                                       d: int)
    requires CleanUsers(s) && BoundRows(s, dates, starts, ends) && d in dates
    requires forall u, e | e in dates :: TiesAgree(s, u, e)
    ensures KeysOf(WalletBounds(starts, ends), BoundsUser(), OnDate(d)) == Users(s, d)
  {
    var bounds := WalletBounds(starts, ends);
    BoundsFacts(s, dates, starts, ends, d);
    forall u | u in Users(s, d)
      ensures u in KeysOf(bounds, BoundsUser(), OnDate(d))
    {
      var k := EveryUserHasStartRow(s, dates, starts, ends, u, d);
      BoundsJoin(s, dates, starts, ends, k);
      assert bounds[k] in bounds && OnDate(d)(bounds[k]) && BoundsUser()(bounds[k]) == u;
    }
  }

  // ----- The supply table --------------------------------------------------------------------

  function SupplyPlanRow(daily: seq<(int, int)>, totals: seq<(int, int)>, d: int, rule: Option<Rule>): SupplyRow {
    var issued := IssuedPlan(daily, d);
    var walletTotal := TotalPlan(totals, d);
    var diff := issued - walletTotal;
    SupplyRow(d, issued, walletTotal, diff, if ResolveThreshold(rule).Some?
        then Abs(diff) as real <= ResolveThreshold(rule).value else Abs(diff) == 0)
  }

  /** The plan's flag means the same, for every table the groupings may produce. */
  lemma {:induction false} PlanOkMeansWithin(daily: seq<(int, int)>, totals: seq<(int, int)>, d: int,
                                             rule: Option<Rule>)
    ensures OkMeansWithin(SupplyPlanRow(daily, totals, d, rule).diffAmount, SupplyPlanRow(daily, totals, d, rule).isOk,
                          rule)
  {
  }

  /** Refinement: the plan's supply row of each target date is the loop's. */
  lemma {:induction false} SupplyPlanRefinesLoop(s: seq<WalletRecord>, ledger: seq<LedgerRecord>, dates: set<int>,
                                                 starts: seq<SnapRow>, ends: seq<SnapRow>, daily: seq<(int, int)>,
                                                 totals: seq<(int, int)>, d: int, rule: Option<Rule>)
    requires CleanUsers(s) && BoundRows(s, dates, starts, ends) && d in dates
    requires forall u, e | e in dates :: TiesAgree(s, u, e)
    requires DailySupply(ledger, daily) && WalletTotals(WalletBounds(starts, ends), totals)
    requires forall i | 0 <= i < |ledger| :: SameEntryType(ledger[i])
    ensures SupplyPlanRow(daily, totals, d, rule) == SupplyRowFor(s, ledger, d, rule)
  {
    TwoStageSupplyIsOnePass(ledger, daily, d);
    WalletTotalsAgree(s, dates, starts, ends, totals, d);
  }

  /** The supply table of the target dates, and the exception a row raises. */
  function SupplyPlanTable(daily: seq<(int, int)>, totals: seq<(int, int)>, days: seq<int>,
                           rule: Option<Rule>): seq<SupplyRow> {
    seq(|days|, i requires 0 <= i < |days| => SupplyPlanRow(daily, totals, days[i], rule))
  }

  function PlanSupplyException(row: SupplyRow, rule: Option<Rule>): Option<LedgerException> {
    var severity := PlanSeverity(Abs(row.diffAmount), rule);
    if severity.None? then None
    else Some(LedgerException(row.dateKst, SUPPLY_MISMATCH, severity.value, Abs(row.diffAmount),
                              SupplyMessage(row.issuedSupply, row.walletTotalBalance, row.diffAmount)))
  }

  lemma {:induction false} SupplyExceptionsAgree(row: SupplyRow, rule: Option<Rule>)
    ensures SupplyException(row, rule)
            == if PlanSupplyException(row, rule).Some? then [PlanSupplyException(row, rule).value] else []
  {
    SeveritiesAgree(Abs(row.diffAmount), rule);
  }

  // ----- Predicate pushdown -------------------------------------------------------------------

  /** The filters applied to the stored tables before either plan runs. */
  function StoredDateIn(dates: set<int>): WalletRecord -> bool {
    (r: WalletRecord) => r.snapshotDateKst.Some? && r.snapshotDateKst.value in dates
  }

  function StoredDateUpTo(max: int): LedgerRecord -> bool {
    (r: LedgerRecord) => r.eventDateKst.Some? && r.eventDateKst.value <= max
  }

  /** What Silver stores: the date column of a snapshot is the KST day of its timestamp, and
      every ledger row carries its date. */
  predicate StoredSnapshotDate(r: WalletRecord) {
    r.snapshotTs.Some? ==> r.snapshotDateKst == Some(DateKst(r.snapshotTs.value))
  }

  predicate StoredEventDate(r: LedgerRecord) {
    r.eventDateKst.Some?
  }

  lemma {:induction false} SilverRowsStoreTheirDates(w: RawWallet, e: RawLedger, allowed: Allowlists,
                                                     lookup: map<string, string>)
    ensures WalletVerdict(w).Ok? ==> StoredSnapshotDate(WalletRow(WalletVerdict(w).value))
    ensures Verdict(e, allowed, lookup).Ok? ==>
              var r := LedgerRow(Verdict(e, allowed, lookup).value);
              StoredEventDate(r) && r.eventDateKst == Some(DateKst(r.eventTime.value)) && SameEntryType(r)
  {
  }

  lemma {:induction false} PreparedSnapshotsStep(s: seq<WalletRecord>, r: WalletRecord, dates: set<int>)
    ensures PreparedSnapshots(s + [r], dates) == PreparedSnapshots(s, dates) + PrepareSnapshot(r, dates)
  {
    assert (s + [r])[..|s|] == s;
  }

  /** Every snapshot the plan would read for the target dates stores one of them. */
  predicate SnapshotsPass(s: seq<WalletRecord>, dates: set<int>) {
    forall r | r in s && PrepareSnapshot(r, dates) != [] :: StoredDateIn(dates)(r)
  }

  /** The snapshot filter loses nothing the plan reads exactly when every snapshot it reads passes:
      one that stores no date, or a date that is not a target, is lost. */
  lemma {:induction false} SnapshotPushdownIff(s: seq<WalletRecord>, dates: set<int>)
    ensures |PreparedSnapshots(Filter(s, StoredDateIn(dates)), dates)| <= |PreparedSnapshots(s, dates)|
    ensures PreparedSnapshots(Filter(s, StoredDateIn(dates)), dates) == PreparedSnapshots(s, dates)
            <==> |PreparedSnapshots(Filter(s, StoredDateIn(dates)), dates)| == |PreparedSnapshots(s, dates)|
    ensures PreparedSnapshots(Filter(s, StoredDateIn(dates)), dates) == PreparedSnapshots(s, dates)
            <==> SnapshotsPass(s, dates)
  {
    if s != [] {
      var front, r := s[..|s|-1], s[|s|-1];
      assert s == front + [r];
      SnapshotPushdownIff(front, dates);
      FilterStep(front, r, StoredDateIn(dates));
      PreparedSnapshotsStep(front, r, dates);
      PreparedSnapshotsStep(Filter(front, StoredDateIn(dates)), r, dates);
      assert SnapshotsPass(s, dates)
          <==> SnapshotsPass(front, dates) && (PrepareSnapshot(r, dates) != [] ==> StoredDateIn(dates)(r));
    }
  }

  lemma {:induction false} PreparedFlowsStep(ledger: seq<LedgerRecord>, r: LedgerRecord, dates: set<int>)
    ensures PreparedFlows(ledger + [r], dates) == PreparedFlows(ledger, dates) + PrepareFlow(r, dates)
  {
    assert (ledger + [r])[..|ledger|] == ledger;
  }

  /** Every ledger record the plan would add up for the target dates stores a date up to the latest. */
  predicate FlowsPass(ledger: seq<LedgerRecord>, dates: set<int>, max: int) {
    forall r | r in ledger && PrepareFlow(r, dates) != [] :: StoredDateUpTo(max)(r)
  }

  /** The same for the ledger filter and the net flows. */
  lemma {:induction false} FlowPushdownIff(ledger: seq<LedgerRecord>, dates: set<int>, max: int)
    ensures |PreparedFlows(Filter(ledger, StoredDateUpTo(max)), dates)| <= |PreparedFlows(ledger, dates)|
    ensures PreparedFlows(Filter(ledger, StoredDateUpTo(max)), dates) == PreparedFlows(ledger, dates)
            <==> |PreparedFlows(Filter(ledger, StoredDateUpTo(max)), dates)| == |PreparedFlows(ledger, dates)|
    ensures PreparedFlows(Filter(ledger, StoredDateUpTo(max)), dates) == PreparedFlows(ledger, dates)
            <==> FlowsPass(ledger, dates, max)
  {
    if ledger != [] {
      var front, r := ledger[..|ledger|-1], ledger[|ledger|-1];
      assert ledger == front + [r];
      FlowPushdownIff(front, dates, max);
      FilterStep(front, r, StoredDateUpTo(max));
      PreparedFlowsStep(front, r, dates);
      PreparedFlowsStep(Filter(front, StoredDateUpTo(max)), r, dates);
      assert FlowsPass(ledger, dates, max)
          <==> FlowsPass(front, dates, max) && (PrepareFlow(r, dates) != [] ==> StoredDateUpTo(max)(r));
    }
  }

  lemma {:induction false} PreparedSupplyStep(ledger: seq<LedgerRecord>, r: LedgerRecord, d: int)
    ensures SumBy(PreparedSupply(ledger + [r]), UpTo(d)) == SumBy(PreparedSupply(ledger), UpTo(d))
            + SumBy(PrepareSupply(r), UpTo(d))
  {
    assert (ledger + [r])[..|ledger|] == ledger;
    SumByConcat(PreparedSupply(ledger), PrepareSupply(r), UpTo(d));
  }

  lemma {:induction false} LaterRowAddsNothing(r: LedgerRecord, d: int)
    requires EventKst(r).Some? && EventKst(r).value > d
    ensures SumBy(PrepareSupply(r), UpTo(d)) == 0
  {
    SumOfZeros(PrepareSupply(r), UpTo(d));
  }

  lemma {:induction false} SupplyPushdown(ledger: seq<LedgerRecord>, max: int, d: int)
    requires forall i | 0 <= i < |ledger| :: StoredEventDate(ledger[i])
    requires d <= max
    ensures SumBy(PreparedSupply(Filter(ledger, StoredDateUpTo(max))), UpTo(d))
            == SumBy(PreparedSupply(ledger), UpTo(d))
  {
    if ledger != [] {
      var front, r := ledger[..|ledger|-1], ledger[|ledger|-1];
      SupplyPushdown(front, max, d);
      assert ledger == front + [r];
      PreparedSupplyStep(front, r, d);
      if StoredDateUpTo(max)(r) {
        PreparedSupplyStep(Filter(front, StoredDateUpTo(max)), r, d);
      } else {
        LaterRowAddsNothing(r, d);
      }
    }
  }

  lemma {:induction false} IssuedPushdown(ledger: seq<LedgerRecord>, max: int, daily: seq<(int, int)>,
                                          fullDaily: seq<(int, int)>, d: int)
    requires forall i | 0 <= i < |ledger| :: StoredEventDate(ledger[i])
    requires d <= max && DailySupply(Filter(ledger, StoredDateUpTo(max)), daily) && DailySupply(ledger, fullDaily)
    ensures IssuedPlan(daily, d) == IssuedPlan(fullDaily, d)
  {
    IssuedPlanIs(Filter(ledger, StoredDateUpTo(max)), daily, d);
    IssuedPlanIs(ledger, fullDaily, d);
    SupplyPushdown(ledger, max, d);
  }

  lemma {:induction false} TotalIsUnique(bounds: seq<(SnapRow, SnapRow)>, totals: seq<(int, int)>,
                                         others: seq<(int, int)>, d: int)
    requires WalletTotals(bounds, totals) && WalletTotals(bounds, others)
    ensures TotalPlan(totals, d) == TotalPlan(others, d)
  {
    TotalPlanIs(bounds, totals, d);
    TotalPlanIs(bounds, others, d);
  }

  /** Every execution of the supply plan on the filtered tables is one on the full tables, with the
      same supply row for every date up to the latest target. */
  lemma {:induction false} SupplyPushdownIsSound(s: seq<WalletRecord>, ledger: seq<LedgerRecord>, dates: set<int>,
                                                 max: int, starts: seq<SnapRow>, ends: seq<SnapRow>,
                                                 daily: seq<(int, int)>, totals: seq<(int, int)>,
                                                 fullDaily: seq<(int, int)>, fullTotals: seq<(int, int)>, d: int,
                                                 rule: Option<Rule>)
    requires SnapshotsPass(s, dates) && forall i | 0 <= i < |ledger| :: StoredEventDate(ledger[i])
    requires d <= max
    requires BoundRows(Filter(s, StoredDateIn(dates)), dates, starts, ends)
    requires DailySupply(Filter(ledger, StoredDateUpTo(max)), daily) && DailySupply(ledger, fullDaily)
    requires WalletTotals(WalletBounds(starts, ends), totals) && WalletTotals(WalletBounds(starts, ends), fullTotals)
    ensures BoundRows(s, dates, starts, ends)
    ensures SupplyPlanRow(daily, totals, d, rule) == SupplyPlanRow(fullDaily, fullTotals, d, rule)
  {
    SnapshotPushdownIff(s, dates);
    IssuedPushdown(ledger, max, daily, fullDaily, d);
    TotalIsUnique(WalletBounds(starts, ends), totals, fullTotals, d);
    SameFiguresSameRow(daily, totals, fullDaily, fullTotals, d, rule);
  }

  lemma {:induction false} SameFiguresSameRow(daily: seq<(int, int)>, totals: seq<(int, int)>, others: seq<(int, int)>,
                                              otherTotals: seq<(int, int)>, d: int, rule: Option<Rule>)
    requires IssuedPlan(daily, d) == IssuedPlan(others, d) && TotalPlan(totals, d) == TotalPlan(otherTotals, d)
    ensures SupplyPlanRow(daily, totals, d, rule) == SupplyPlanRow(others, otherTotals, d, rule)
  {
  }

  /** Where every row the reconciliation plan reads passes, it admits exactly the same executions on the
      filtered tables as on the full ones. */
  lemma {:induction false} PushdownIsSound(s: seq<WalletRecord>, ledger: seq<LedgerRecord>, dates: set<int>, max: int,
                                           starts: seq<SnapRow>, ends: seq<SnapRow>, net: seq<((int, string), int)>)
    requires SnapshotsPass(s, dates) && FlowsPass(ledger, dates, max)
    ensures ReconExecution(Filter(s, StoredDateIn(dates)), Filter(ledger, StoredDateUpTo(max)), dates, starts, ends,
            net)
            <==> ReconExecution(s, ledger, dates, starts, ends, net)
  {
    SnapshotPushdownIff(s, dates);
    FlowPushdownIff(ledger, dates, max);
  }

  function UndatedTerm(d: int): LedgerRecord -> int {
    (r: LedgerRecord) => if r.eventDateKst.None? then SupplyTerm(d)(r) else 0
  }

  /** What the filter costs any ledger: exactly the supply of the rows that store no date. It changes
      nothing precisely when that adds up to zero, as it does where every row stores its date. */
  lemma {:induction false} PushdownLosesUndatedSupply(ledger: seq<LedgerRecord>, max: int, d: int)
    requires d <= max
    ensures IssuedSupply(ledger, d)
            == IssuedSupply(Filter(ledger, StoredDateUpTo(max)), d) + SumBy(ledger, UndatedTerm(d))
  {
    var dated := (r: LedgerRecord) => if r.eventDateKst.None? then 0 else SupplyTerm(d)(r);
    SumByAdd(ledger, dated, UndatedTerm(d), SupplyTerm(d));
    SumByFilter(ledger, StoredDateUpTo(max), dated);
    SumByExt(Filter(ledger, StoredDateUpTo(max)), dated, SupplyTerm(d));
  }

  /** Tables as Silver stores them lose nothing to either filter. */
  lemma {:induction false} StoredDatesLoseNothing(s: seq<WalletRecord>, ledger: seq<LedgerRecord>, dates: set<int>,
                                                  max: int, d: int)
    requires forall i | 0 <= i < |s| :: StoredSnapshotDate(s[i])
    requires forall i | 0 <= i < |ledger| :: StoredEventDate(ledger[i])
    requires d <= max && forall e | e in dates :: e <= max
    ensures SnapshotsPass(s, dates) && FlowsPass(ledger, dates, max)
    ensures IssuedSupply(Filter(ledger, StoredDateUpTo(max)), d) == IssuedSupply(ledger, d)
  {
    PushdownLosesUndatedSupply(ledger, max, d);
    SumOfZeros(ledger, UndatedTerm(d));
  }

  function UndatedFlow(w: string, d: int): LedgerRecord -> int {
    (r: LedgerRecord) => if r.eventDateKst.None? then NetTerm(w, d)(r) else 0
  }

  /** And the net flow of a wallet loses exactly that of its rows without a stored date. */
  lemma {:induction false} PushdownLosesUndatedFlow(ledger: seq<LedgerRecord>, max: int, w: string, d: int)
    requires d <= max
    ensures NetFlow(ledger, w, d)
            == NetFlow(Filter(ledger, StoredDateUpTo(max)), w, d) + SumBy(ledger, UndatedFlow(w, d))
  {
    var dated := (r: LedgerRecord) => if r.eventDateKst.None? then 0 else NetTerm(w, d)(r);
    SumByAdd(ledger, dated, UndatedFlow(w, d), NetTerm(w, d));
    SumByFilter(ledger, StoredDateUpTo(max), dated);
    SumByExt(Filter(ledger, StoredDateUpTo(max)), dated, NetTerm(w, d));
  }

  /** Such rows exist as far as the loop is concerned: one without a stored date counts by its time. */
  lemma {:induction false} PushdownNeedsStoredDates()
    ensures var r := LedgerRecord(None, Some("w"), Some(MINT), None, Some(5), Some(5), Some(0), None, None);
            SumBy([r], UndatedTerm(0)) == 5
  {
    var r := LedgerRecord(None, Some("w"), Some(MINT), None, Some(5), Some(5), Some(0), None, None);
    assert EventKst(r) == Some(0) && SupplySign(MINT) == Some(1);
    assert SupplyAmount(r) == 5;
    assert SupplyTerm(0)(r) == 5;
    assert [r][..0] == [];
    assert SumBy([r], UndatedTerm(0)) == SumBy([r][..0], UndatedTerm(0)) + UndatedTerm(0)(r);
  }

  // ----- There is always an execution ------------------------------------------------------------

  /** The same for the supply plan, on any bounds. */
  lemma {:induction false} SupplyExecutionExists(ledger: seq<LedgerRecord>, bounds: seq<(SnapRow, SnapRow)>)
    returns (daily: seq<(int, int)>, totals: seq<(int, int)>)
    ensures DailySupply(ledger, daily) && WalletTotals(bounds, totals)
  {
    daily := GroupBySumExists(PreparedSupply(ledger), SupplyDate(), SupplyValue());
    totals := GroupBySumExists(bounds, BoundsDate(), BoundsEnd());
  }
}
