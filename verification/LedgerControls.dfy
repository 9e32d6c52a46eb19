/** The ledger controls of one target date, as record loops over dictionaries: snapshot
    bounds, net flow, issued supply, and the reconciliation and supply outputs built
    from them. */
module LedgerControls {
  import opened Prelude
  import opened KstTime
  import opened SilverControls

  datatype WalletRecord = WalletRecord(
    snapshotTs: Option<int>, snapshotDateKst: Option<int>, userId: Option<string>, balanceTotal: Option<int>)

  datatype LedgerRecord = LedgerRecord(
    txId: Option<string>, walletId: Option<string>, entryType: Option<EntryType>, typ: Option<EntryType>,
    amount: Option<int>, amountSigned: Option<int>, eventTime: Option<int>, eventDateKst: Option<int>,
    relatedId: Option<string>)

  /** Silver rows as the controls read them. */
  function WalletRow(s: SilverSnapshot): WalletRecord {
    WalletRecord(Some(s.snapshotTs), Some(s.snapshotDateKst), Some(s.userId), Some(s.balanceTotal))
  }

  function LedgerRow(e: SilverEntry): LedgerRecord {
    LedgerRecord(Some(e.txId), Some(e.walletId), Some(e.entryType), None, Some(e.amount), Some(e.amountSigned),
                 Some(e.eventTime), Some(e.eventDateKst), e.relatedId)
  }

  /** The stored event date wins over the event time. */
  function EventKst(r: LedgerRecord): Option<int> {
    if r.eventDateKst.Some? then r.eventDateKst
    else if r.eventTime.Some? then Some(DateKst(r.eventTime.value))
    else None
  }

  /** What the controls see of a row Silver stored: its own wallet, date, amounts and balance. */
  lemma {:induction false} SilverRowsAreReadBack(s: SilverSnapshot, e: SilverEntry, u: string, d: int)
    ensures Snapshot(WalletRow(s), u, d) <==> s.userId == u != "" && DateKst(s.snapshotTs) == d
    ensures WalletRow(s).balanceTotal == Some(s.balanceTotal) && WalletRow(s).snapshotTs == Some(s.snapshotTs)
    ensures EventKst(LedgerRow(e)) == Some(e.eventDateKst)
    ensures NetTerm(u, d)(LedgerRow(e)) == if e.walletId == u != "" && e.eventDateKst == d then e.amountSigned else 0
    ensures SupplyTerm(d)(LedgerRow(e))
            == if e.eventDateKst > d then 0
               else match e.entryType
                    case MINT => e.amount
                    case CHARGE => e.amount
                    case BURN => -e.amount
                    case WITHDRAW => -e.amount
                    case _ => 0
    ensures LedgerRow(e).txId == Some(e.txId) && LedgerRow(e).relatedId == e.relatedId
  {
  }

  /** The stored date counts, the time only without one. */
  lemma {:induction false} DateColumnWins(r: LedgerRecord, d: int)
    ensures r.eventDateKst == Some(d) ==> EventKst(r) == Some(d)
    ensures r.eventDateKst == None && r.eventTime.Some? ==>
              (EventKst(r) == Some(d) <==> DayStart(d) <= r.eventTime.value < DayStart(d + 1))
    ensures r.eventDateKst == None && r.eventTime == None ==> EventKst(r) == None
  {
    if r.eventTime.Some? { DayHoldsItsInstants(r.eventTime.value, d); }
  }

  // ----- Snapshot bounds ------------------------------------------------------------

  datatype Bounds = Bounds(minTs: int, maxTs: int, startBalance: int, endBalance: int)

  predicate Snapshot(r: WalletRecord, u: string, d: int) {
    r.snapshotTs.Some? && DateKst(r.snapshotTs.value) == d && Truthy(r.userId) && r.userId.value == u
        && r.balanceTotal.Some?
  }

  function ExtendBounds(b: Option<Bounds>, ts: int, balance: int): Bounds {
    match b
    case None => Bounds(ts, ts, balance, balance)
    case Some(b) =>
      Bounds(if ts < b.minTs then ts else b.minTs, if ts > b.maxTs then ts else b.maxTs,
             if ts < b.minTs then balance else b.startBalance, if ts > b.maxTs then balance else b.endBalance)
  }

  /** The bounds of one user on one day; None when the user has no usable snapshot that day. */
  function BoundsFor(s: seq<WalletRecord>, u: string, d: int): Option<Bounds> {
    if s == [] then None
    else
      var prev := BoundsFor(s[..|s|-1], u, d);
      var r := s[|s|-1];
      if Snapshot(r, u, d) then Some(ExtendBounds(prev, r.snapshotTs.value, r.balanceTotal.value)) else prev
  }

  /** Index of the first record among the earliest snapshots of the user that day. */
  ghost predicate FirstEarliest(s: seq<WalletRecord>, u: string, d: int, i: int) {
    && 0 <= i < |s| && Snapshot(s[i], u, d)
    && forall j | 0 <= j < |s| && Snapshot(s[j], u, d) ::
         s[i].snapshotTs.value < s[j].snapshotTs.value || (s[i].snapshotTs.value == s[j].snapshotTs.value && i <= j)
  }

  ghost predicate FirstLatest(s: seq<WalletRecord>, u: string, d: int, i: int) {
    && 0 <= i < |s| && Snapshot(s[i], u, d)
    && forall j | 0 <= j < |s| && Snapshot(s[j], u, d) ::
         s[i].snapshotTs.value > s[j].snapshotTs.value || (s[i].snapshotTs.value == s[j].snapshotTs.value && i <= j)
  }

  predicate IsBounds(s: seq<WalletRecord>, i: nat, j: nat, b: Bounds) {
    && i < |s| && s[i].snapshotTs == Some(b.minTs) && s[i].balanceTotal == Some(b.startBalance)
    && j < |s| && s[j].snapshotTs == Some(b.maxTs) && s[j].balanceTotal == Some(b.endBalance)
  }

  /** What the bounds mean: the balances of the user's earliest and latest snapshots of the
      day, first in input order among equal timestamps. */
  lemma {:induction false} BoundsAreEarliestAndLatest(s: seq<WalletRecord>, u: string, d: int) returns (i: nat, j: nat)
    requires BoundsFor(s, u, d).Some?
    ensures FirstEarliest(s, u, d, i) && FirstLatest(s, u, d, j)
    ensures IsBounds(s, i, j, BoundsFor(s, u, d).value)
  {
    var front, n := s[..|s|-1], |s| - 1;
    assert forall k | 0 <= k < n :: front[k] == s[k];
    if BoundsFor(front, u, d).Some? {
      i, j := BoundsAreEarliestAndLatest(front, u, d);
      if Snapshot(s[n], u, d) {
        if s[n].snapshotTs.value < s[i].snapshotTs.value { i := n; }
        if s[n].snapshotTs.value > s[j].snapshotTs.value { j := n; }
      }
    } else {
      NoBoundsNoSnapshot(front, u, d);
      i, j := n, n;
    }
  }

  lemma {:induction false} NoBoundsNoSnapshot(s: seq<WalletRecord>, u: string, d: int)
    ensures BoundsFor(s, u, d).None? <==> forall i | 0 <= i < |s| :: !Snapshot(s[i], u, d)
  {
    if s != [] {
      NoBoundsNoSnapshot(s[..|s|-1], u, d);
      assert forall i | 0 <= i < |s| - 1 :: s[..|s|-1][i] == s[i];
    }
  }

  /** The users with a usable snapshot that day. */
  function Users(s: seq<WalletRecord>, d: int): (us: set<string>)
    ensures forall u :: u in us <==> BoundsFor(s, u, d).Some?
  {
    if s == [] then {}
    else
      var r := s[|s|-1];
      Users(s[..|s|-1], d) + if r.userId.Some? && Snapshot(r, r.userId.value, d) then {r.userId.value} else {}
  }

  /** An insertion-ordered dictionary: its keys in order of first insertion, and its values. */
  ghost predicate Ordered<V>(order: seq<string>, dict: map<string, V>) {
    && (forall i, j | 0 <= i < j < |order| :: order[i] != order[j])
    && (forall k :: k in order <==> k in dict)
  }

  method SelectSnapshotBounds(snapshots: seq<WalletRecord>, targetDate: int)
    returns (order: seq<string>, bounds: map<string, Bounds>)
    ensures Ordered(order, bounds)
    ensures forall u :: (if u in bounds then Some(bounds[u]) else None) == BoundsFor(snapshots, u, targetDate)
  {
    order, bounds := [], map[];
    for i := 0 to |snapshots|
      invariant Ordered(order, bounds)
      invariant forall u :: (if u in bounds then Some(bounds[u]) else None) == BoundsFor(snapshots[..i], u, targetDate)
    {
      assert snapshots[..i+1][..i] == snapshots[..i];
      var r := snapshots[i];
      if r.snapshotTs.None? || DateKst(r.snapshotTs.value) != targetDate || !Truthy(r.userId) || r.balanceTotal.None? {
        continue;
      }
      var key, ts, balance := r.userId.value, r.snapshotTs.value, r.balanceTotal.value;
      if key !in bounds {
        order := order + [key];
        bounds := bounds[key := Bounds(ts, ts, balance, balance)];
        continue;
      }
      if ts < bounds[key].minTs {
        bounds := bounds[key := bounds[key].(minTs := ts, startBalance := balance)];
      }
      if ts > bounds[key].maxTs {
        bounds := bounds[key := bounds[key].(maxTs := ts, endBalance := balance)];
      }
      assert bounds[key] == ExtendBounds(BoundsFor(snapshots[..i], key, targetDate), ts, balance) by {
        BoundsOrdered(snapshots[..i], key, targetDate);
      }
    }
    assert snapshots[..|snapshots|] == snapshots;
  }

  lemma {:induction false} BoundsOrdered(s: seq<WalletRecord>, u: string, d: int)
    ensures BoundsFor(s, u, d).Some? ==> BoundsFor(s, u, d).value.minTs <= BoundsFor(s, u, d).value.maxTs
  {
    if s != [] {
      BoundsOrdered(s[..|s|-1], u, d);
    }
  }

  // ----- Net flow and issued supply ---------------------------------------------------

  function NetTerm(w: string, d: int): LedgerRecord -> int {
    (r: LedgerRecord) =>
      if EventKst(r) == Some(d) && Truthy(r.walletId) && r.walletId.value == w
          && r.amountSigned.Some? then r.amountSigned.value else 0
  }

  /** What flowed into wallet w on day d. */
  function NetFlow(ledger: seq<LedgerRecord>, w: string, d: int): int {
    SumBy(ledger, NetTerm(w, d))
  }

  method AggregateNetFlow(ledger: seq<LedgerRecord>, targetDate: int) returns (totals: map<string, int>)
    ensures forall w :: FlowOf(totals, w) == NetFlow(ledger, w, targetDate)
  {
    totals := map[];
    for i := 0 to |ledger|
      invariant forall w :: FlowOf(totals, w) == NetFlow(ledger[..i], w, targetDate)
    {
      forall w
        ensures NetFlow(ledger[..i+1], w, targetDate) == NetFlow(ledger[..i], w, targetDate)
                + NetTerm(w, targetDate)(ledger[i])
      {
        SumByStep(ledger, i, NetTerm(w, targetDate));
      }
      var r := ledger[i];
      var eventKst := EventKst(r);
      if eventKst.None? || eventKst.value != targetDate || !Truthy(r.walletId) || r.amountSigned.None? {
        continue;
      }
      var key := r.walletId.value;
      totals := totals[key := (if key in totals then totals[key] else 0) + r.amountSigned.value];
    }
    assert ledger[..|ledger|] == ledger;
  }

  function SupplySign(t: EntryType): Option<int> {
    match t
    case MINT => Some(1)
    case CHARGE => Some(1)
    case BURN => Some(-1)
    case WITHDRAW => Some(-1)
    case _ => None
  }

  /** `entry_type or type`. */
  function GoldEntryType(r: LedgerRecord): Option<EntryType> {
    if TruthyType(r.entryType) then r.entryType else r.typ
  }

  function SupplyAmount(r: LedgerRecord): int {
    var t := GoldEntryType(r);
    if TruthyType(t) && SupplySign(t.value).Some? && r.amount.Some? then r.amount.value * SupplySign(t.value).value
        else 0
  }

  function SupplyTerm(d: int): LedgerRecord -> int {
    (r: LedgerRecord) => if EventKst(r).Some? && EventKst(r).value <= d then SupplyAmount(r) else 0
  }

  /** Everything issued minus everything destroyed up to and including day d. */
  function IssuedSupply(ledger: seq<LedgerRecord>, d: int): int {
    SumBy(ledger, SupplyTerm(d))
  }

  method AggregateSupplyEntries(ledger: seq<LedgerRecord>, targetDate: int) returns (total: int)
    ensures total == IssuedSupply(ledger, targetDate)
  {
    total := 0;
    for i := 0 to |ledger|
      invariant total == IssuedSupply(ledger[..i], targetDate)
    {
      SumByStep(ledger, i, SupplyTerm(targetDate));
      var r := ledger[i];
      var eventKst := EventKst(r);
      if eventKst.None? || eventKst.value > targetDate {
        continue;
      }
      var entryType := if TruthyType(r.entryType) then r.entryType else r.typ;
      if !TruthyType(entryType) {
        continue;
      }
      var sign := SupplySign(entryType.value);
      if sign.None? || r.amount.None? {
        continue;
      }
      total := total + r.amount.value * sign.value;
    }
    assert ledger[..|ledger|] == ledger;
  }

  // ----- Severity -------------------------------------------------------------------------

  datatype Severity = WARN | CRITICAL

  /** A control rule; thresholds are in the unit of the metric. */
  datatype Rule = Rule(ruleId: string, crit: Option<real>, warn: Option<real>, threshold: Option<real>)

  /** Ledger metrics breach a rule when they exceed it. */
  function EvaluateSeverity(value: int, rule: Option<Rule>): Option<Severity> {
    if rule.None? then None
    else if rule.value.crit.Some? && value as real > rule.value.crit.value then Some(CRITICAL)
    else if rule.value.warn.Some? && value as real > rule.value.warn.value then Some(WARN)
    else if rule.value.threshold.Some? && value as real > rule.value.threshold.value then Some(CRITICAL)
    else None
  }

  function ResolveThreshold(rule: Option<Rule>): Option<real> {
    if rule.None? then None
    else if rule.value.threshold.Some? then rule.value.threshold
    else rule.value.crit
  }

  // ----- Outputs ----------------------------------------------------------------------------

  datatype ReconRow = ReconRow(
    dateKst: int, userId: string, deltaBalanceTotal: int, netFlowTotal: int, driftAbs: int, driftPct: Option<real>,
    dqTag: Option<string>)

  datatype SupplyRow = SupplyRow(dateKst: int, issuedSupply: int, walletTotalBalance: int, diffAmount: int, isOk: bool)

  /** The JSON message of an exception, as the values it renders. */
  datatype Message = ReconMessage(userId: string, delta: int, netFlow: int, driftAbs: int)
                   | SupplyMessage(issued: int, walletTotal: int, diff: int)

  datatype ExceptionType = RECON_DRIFT_HIGH | SUPPLY_MISMATCH

  datatype LedgerException = LedgerException(
    dateKst: int, exceptionType: ExceptionType, severity: Severity, metricValue: int, message: Message)

  function ReconRowFor(snapshots: seq<WalletRecord>, ledger: seq<LedgerRecord>, d: int, u: string,
                       tag: Option<string>): ReconRow
    requires BoundsFor(snapshots, u, d).Some?
  {
    UserRow(d, u, BoundsFor(snapshots, u, d).value, NetFlow(ledger, u, d), tag)
  }

  /** Change of balance against net flow. */
  function UserRow(d: int, u: string, b: Bounds, flow: int, tag: Option<string>): ReconRow {
    var delta := b.endBalance - b.startBalance;
    ReconRow(d, u, delta, flow, Abs(delta - flow), Ratio(Abs(delta - flow), flow), tag)
  }

  /** Drift relative to net flow, as an exact quotient; none without net flow. */
  function Ratio(drift: int, flow: int): Option<real> {
    if flow != 0 then Some(drift as real / Abs(flow) as real) else None
  }

  function FlowOf(netFlows: map<string, int>, u: string): int {
    if u in netFlows then netFlows[u] else 0
  }

  function ReconException(row: ReconRow, rule: Option<Rule>): Option<LedgerException> {
    var severity := EvaluateSeverity(row.driftAbs, rule);
    if severity.None? then None
    else Some(LedgerException(row.dateKst, RECON_DRIFT_HIGH, severity.value, row.driftAbs,
                              ReconMessage(row.userId, row.deltaBalanceTotal, row.netFlowTotal, row.driftAbs)))
  }

  /** One exception per row that breaches the rule, in row order. */
  function ReconExceptions(rows: seq<ReconRow>, rule: Option<Rule>): seq<LedgerException> {
    if rows == [] then []
    else
      var e := ReconException(rows[|rows|-1], rule);
      ReconExceptions(rows[..|rows|-1], rule) + if e.Some? then [e.value] else []
  }

  ghost predicate HasUser(rows: seq<ReconRow>, u: string) {
    exists row :: row in rows && row.userId == u
  }

  predicate LoopRow(snapshots: seq<WalletRecord>, ledger: seq<LedgerRecord>, d: int, tag: Option<string>, u: string,
                    row: ReconRow) {
    BoundsFor(snapshots, u, d).Some? && row == ReconRowFor(snapshots, ledger, d, u, tag)
  }

  /** The rows of one day: exactly one per user with a snapshot, each the user's row. */
  ghost predicate ReconRowsOf(snapshots: seq<WalletRecord>, ledger: seq<LedgerRecord>, d: int, tag: Option<string>,
                              rows: seq<ReconRow>) {
    && (forall i, j | 0 <= i < j < |rows| :: rows[i].userId != rows[j].userId)
    && (forall row | row in rows :: LoopRow(snapshots, ledger, d, tag, row.userId, row))
    && (forall u {:trigger HasUser(rows, u)} | BoundsFor(snapshots, u, d).Some? :: HasUser(rows, u))
  }

  lemma {:induction false} ReconExceptionsStep(rows: seq<ReconRow>, row: ReconRow, rule: Option<Rule>)
    ensures ReconExceptions(rows + [row], rule)
            == ReconExceptions(rows, rule) + if ReconException(row, rule).Some? then [ReconException(row, rule).value]
                else []
  {
  }

  /** The body of the loop for one user. */
  method ReconcileUser(targetDate: int, userId: string, bounds: Bounds, netFlow: int, rule: Option<Rule>,
                       tag: Option<string>)
    returns (row: ReconRow, exception: Option<LedgerException>)
    ensures row == UserRow(targetDate, userId, bounds, netFlow, tag)
    ensures exception == ReconException(row, rule)
  {
    var startBalance := bounds.startBalance;
    var endBalance := bounds.endBalance;
    var delta := endBalance - startBalance;
    var drift := delta - netFlow;
    var driftAbs := Abs(drift);
    var driftPct: Option<real> := None;
    if netFlow != 0 {
      driftPct := Some(driftAbs as real / Abs(netFlow) as real);
    }
    row := ReconRow(targetDate, userId, delta, netFlow, driftAbs, driftPct, tag);
    exception := None;
    var severity := EvaluateSeverity(driftAbs, rule);
    if severity.Some? {
      exception := Some(LedgerException(targetDate, RECON_DRIFT_HIGH, severity.value, driftAbs,
                                        ReconMessage(userId, delta, netFlow, driftAbs)));
    }
  }

  /** The loop over the snapshotted users of one day. */
  method ReconcileUsers(targetDate: int, order: seq<string>, bounds: map<string, Bounds>, netFlows: map<string, int>,
                        rule: Option<Rule>, tag: Option<string>)
    returns (rows: seq<ReconRow>, exceptions: seq<LedgerException>)
    requires forall k | 0 <= k < |order| :: order[k] in bounds
    ensures |rows| == |order|
    ensures forall k | 0 <= k < |order| ::
              rows[k] == UserRow(targetDate, order[k], bounds[order[k]], FlowOf(netFlows, order[k]), tag)
    ensures exceptions == ReconExceptions(rows, rule)
  {
    rows, exceptions := [], [];
    for i := 0 to |order|
      invariant |rows| == i
      invariant forall k | 0 <= k < i ::
                  rows[k] == UserRow(targetDate, order[k], bounds[order[k]], FlowOf(netFlows, order[k]), tag)
      invariant exceptions == ReconExceptions(rows, rule)
    {
      var userId := order[i];
      var netFlow := if userId in netFlows then netFlows[userId] else 0;
      var row, exception := ReconcileUser(targetDate, userId, bounds[userId], netFlow, rule, tag);
      ReconExceptionsStep(rows, row, rule);
      rows := rows + [row];
      if exception.Some? {
        exceptions := exceptions + [exception.value];
      }
    }
  }

  method BuildReconSnapshotFlow(snapshots: seq<WalletRecord>, ledger: seq<LedgerRecord>, targetDate: int,
                                rule: Option<Rule>, tag: Option<string>)
    returns (rows: seq<ReconRow>, exceptions: seq<LedgerException>)
    ensures ReconRowsOf(snapshots, ledger, targetDate, tag, rows)
    ensures exceptions == ReconExceptions(rows, rule)
  {
    var order, bounds := SelectSnapshotBounds(snapshots, targetDate);
    var netFlows := AggregateNetFlow(ledger, targetDate);
    assert forall k | 0 <= k < |order| :: order[k] in order;
    rows, exceptions := ReconcileUsers(targetDate, order, bounds, netFlows, rule, tag);
    assert forall u :: u in order <==> BoundsFor(snapshots, u, targetDate).Some?;
    forall k | 0 <= k < |order|
      ensures LoopRow(snapshots, ledger, targetDate, tag, order[k], rows[k])
    {
      assert FlowOf(netFlows, order[k]) == NetFlow(ledger, order[k], targetDate);
    }
    RowsInOrder(snapshots, ledger, targetDate, tag, order, rows);
  }

  lemma {:induction false} RowsInOrder(snapshots: seq<WalletRecord>, ledger: seq<LedgerRecord>, d: int,
                                       tag: Option<string>, order: seq<string>, rows: seq<ReconRow>)
    requires |rows| == |order|
    requires forall i, j | 0 <= i < j < |order| :: order[i] != order[j]
    requires forall u :: u in order <==> BoundsFor(snapshots, u, d).Some?
    requires forall k | 0 <= k < |order| :: LoopRow(snapshots, ledger, d, tag, order[k], rows[k])
    ensures ReconRowsOf(snapshots, ledger, d, tag, rows)
  {
  }

  function EndBalance(snapshots: seq<WalletRecord>, d: int): string -> int {
    (u: string) => if BoundsFor(snapshots, u, d).Some? then BoundsFor(snapshots, u, d).value.endBalance else 0
  }

  function StartBalance(snapshots: seq<WalletRecord>, d: int): string -> int {
    (u: string) => if BoundsFor(snapshots, u, d).Some? then BoundsFor(snapshots, u, d).value.startBalance else 0
  }

  ghost function WalletTotal(snapshots: seq<WalletRecord>, d: int): int {
    SumSet(Users(snapshots, d), EndBalance(snapshots, d))
  }

  ghost function DiffAmount(snapshots: seq<WalletRecord>, ledger: seq<LedgerRecord>, d: int): int {
    IssuedSupply(ledger, d) - WalletTotal(snapshots, d)
  }

  /** Within tolerance; an absent rule tolerates no difference. */
  predicate SupplyOk(diff: int, rule: Option<Rule>) {
    if ResolveThreshold(rule).Some? then Abs(diff) as real <= ResolveThreshold(rule).value else diff == 0
  }

  /** What the published flag means: within the rule's threshold on either side, within its critical level where
      it has no threshold, and no difference at all where it has neither or there is no rule. */
  predicate OkMeansWithin(diff: int, isOk: bool, rule: Option<Rule>) {
    match rule
    case Some(Rule(_, _, _, Some(t))) => isOk <==> -t <= diff as real <= t
    case Some(Rule(_, Some(t), _, None)) => isOk <==> -t <= diff as real <= t
    case _ => isOk <==> diff == 0
  }

  lemma {:induction false} SupplyOkMeansWithin(diff: int, rule: Option<Rule>)
    ensures OkMeansWithin(diff, SupplyOk(diff, rule), rule)
  {
  }

  ghost function SupplyRowFor(snapshots: seq<WalletRecord>, ledger: seq<LedgerRecord>, d: int,
                              rule: Option<Rule>): SupplyRow {
    SupplyRow(d, IssuedSupply(ledger, d), WalletTotal(snapshots, d), DiffAmount(snapshots, ledger, d),
              SupplyOk(DiffAmount(snapshots, ledger, d), rule))
  }

  function SupplyException(row: SupplyRow, rule: Option<Rule>): seq<LedgerException> {
    var severity := EvaluateSeverity(Abs(row.diffAmount), rule);
    if severity.None? then []
    else [LedgerException(row.dateKst, SUPPLY_MISMATCH, severity.value, Abs(row.diffAmount),
                          SupplyMessage(row.issuedSupply, row.walletTotalBalance, row.diffAmount))]
  }

  method BuildSupplyBalanceDaily(snapshots: seq<WalletRecord>, ledger: seq<LedgerRecord>, targetDate: int,
                                 rule: Option<Rule>)
    returns (row: SupplyRow, exceptions: seq<LedgerException>)
    ensures row == SupplyRowFor(snapshots, ledger, targetDate, rule)
    ensures OkMeansWithin(row.diffAmount, row.isOk, rule)
    ensures exceptions == SupplyException(row, rule)
  {
    var threshold := ResolveThreshold(rule);
    var order, bounds := SelectSnapshotBounds(snapshots, targetDate);
    var walletTotal := 0;
    ghost var seen: set<string> := {};
    for i := 0 to |order|
      invariant forall k :: k in seen <==> k in order[..i]
      invariant walletTotal == SumSet(seen, EndBalance(snapshots, targetDate))
    {
      assert order[i] !in order[..i];
      SumSetRemove(seen + {order[i]}, order[i], EndBalance(snapshots, targetDate));
      assert seen + {order[i]} - {order[i]} == seen;
      assert order[..i+1] == order[..i] + [order[i]];
      walletTotal := walletTotal + bounds[order[i]].endBalance;
      seen := seen + {order[i]};
    }
    assert order[..|order|] == order;
    assert seen == Users(snapshots, targetDate);
    var issuedSupply := AggregateSupplyEntries(ledger, targetDate);
    var diffAmount := issuedSupply - walletTotal;
    var diffAbs := Abs(diffAmount);
    var isOk := if threshold.Some? then diffAbs as real <= threshold.value else diffAbs == 0;
    row := SupplyRow(targetDate, issuedSupply, walletTotal, diffAmount, isOk);
    exceptions := [];
    var severity := EvaluateSeverity(diffAbs, rule);
    if severity.Some? {
      exceptions := [LedgerException(targetDate, SUPPLY_MISMATCH, severity.value, diffAbs,
                                     SupplyMessage(issuedSupply, walletTotal, diffAmount))];
    }
  }
}
