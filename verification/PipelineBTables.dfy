/** The rows Pipeline B really hands to its merges: when they are keyed, and what the gold tables hold
    once a job is finished. */
module PipelineBTables {
  import opened Prelude
  import opened Relational
  import opened LedgerControls
  import opened PipelineBPlan
  import opened SupplyPlan
  import opened MergeStore
  import opened Backfill
  import opened AdminPairing
  import opened TaskGraph
  import opened TaskTables

  // ----- Daily counts per merchant ------------------------------------------------------------

  datatype OrderRecord = OrderRecord(dateKst: Option<int>, merchant: Option<string>, status: Option<string>)

  datatype OpsRow = OpsRow(dateKst: int, merchant: Option<string>, total: int, hits: int)

  predicate InGroup(o: OrderRecord, d: int, m: Option<string>) {
    o.dateKst == Some(d) && o.merchant == m
  }

  function CountIn(d: int, m: Option<string>): OrderRecord -> int {
    (o: OrderRecord) => if InGroup(o, d, m) then 1 else 0
  }

  function HitsIn(d: int, m: Option<string>, statuses: set<string>): OrderRecord -> int {
    (o: OrderRecord) => if InGroup(o, d, m) && o.status.Some? && o.status.value in statuses then 1 else 0
  }

  ghost predicate HasGroupRow(out: seq<OpsRow>, d: int, m: Option<string>) {
    exists r :: r in out && r.dateKst == d && r.merchant == m
  }

  ghost predicate HasOrder(orders: seq<OrderRecord>, d: int, m: Option<string>) {
    exists o :: o in orders && InGroup(o, d, m)
  }

  /** Any table of daily counts the grouping may produce. A null merchant is a group of its own. */
  ghost predicate OpsRows(orders: seq<OrderRecord>, dates: set<int>, statuses: set<string>, out: seq<OpsRow>) {
    && (forall i, j | 0 <= i < j < |out| :: out[i].dateKst != out[j].dateKst || out[i].merchant != out[j].merchant)
    && (forall r | r in out :: r.total == SumBy(orders, CountIn(r.dateKst, r.merchant))
                               && r.hits == SumBy(orders, HitsIn(r.dateKst, r.merchant, statuses)))
    && (forall d, m {:trigger HasGroupRow(out, d, m)} ::
        HasGroupRow(out, d, m) <==> d in dates && HasOrder(orders, d, m))
  }

  function InGroupOf(d: int, m: Option<string>): OrderRecord -> bool { (o: OrderRecord) => InGroup(o, d, m) }

  lemma {:induction false} CountsAreSizes(orders: seq<OrderRecord>, d: int, m: Option<string>, statuses: set<string>)
    ensures SumBy(orders, CountIn(d, m)) == |Filter(orders, InGroupOf(d, m))|
    ensures SumBy(orders, HitsIn(d, m, statuses))
            == |Filter(orders, (o: OrderRecord) => InGroup(o, d, m) && o.status.Some? && o.status.value in statuses)|
  {
    if orders != [] {
      CountsAreSizes(orders[..|orders|-1], d, m, statuses);
    }
  }

  lemma {:induction false} SomeOrderCounts(orders: seq<OrderRecord>, d: int, m: Option<string>, o: OrderRecord,
                                           statuses: set<string>)
    requires o in orders && InGroup(o, d, m)
    ensures 0 <= SumBy(orders, HitsIn(d, m, statuses)) <= SumBy(orders, CountIn(d, m))
    ensures SumBy(orders, CountIn(d, m)) > 0
  {
    HitsAtMostCount(orders[..|orders|-1], d, m, statuses);
    if o in orders[..|orders|-1] {
      SomeOrderCounts(orders[..|orders|-1], d, m, o, statuses);
    }
  }

  lemma {:induction false} HitsAtMostCount(orders: seq<OrderRecord>, d: int, m: Option<string>, statuses: set<string>)
    ensures 0 <= SumBy(orders, HitsIn(d, m, statuses)) <= SumBy(orders, CountIn(d, m))
  {
    if orders != [] {
      HitsAtMostCount(orders[..|orders|-1], d, m, statuses);
    }
  }

  /** A row counts the day's orders of its merchant, and those of them with a status looked for; it has at
      least one order, and never more hits than orders. */
  lemma {:induction false} OpsRowCounts(orders: seq<OrderRecord>, dates: set<int>, statuses: set<string>,
                                        out: seq<OpsRow>, r: OpsRow)
    requires OpsRows(orders, dates, statuses, out) && r in out
    ensures r.dateKst in dates && 0 <= r.hits <= r.total && r.total > 0
    ensures r.total == |Filter(orders, (o: OrderRecord) => o.dateKst == Some(r.dateKst) && o.merchant == r.merchant)|
    ensures r.hits == |Filter(orders, (o: OrderRecord) => o.dateKst == Some(r.dateKst) && o.merchant == r.merchant
                                                          && o.status.Some? && o.status.value in statuses)|
  {
    var d, m := r.dateKst, r.merchant;
    assert HasGroupRow(out, d, m);
    var o :| o in orders && InGroup(o, d, m);
    SomeOrderCounts(orders, d, m, o, statuses);
    CountsAreSizes(orders, d, m, statuses);
    FilterExt(orders, InGroupOf(d, m), (o: OrderRecord) => o.dateKst == Some(d) && o.merchant == m);
    FilterExt(orders, (o: OrderRecord) => InGroup(o, d, m) && o.status.Some? && o.status.value in statuses,
              (o: OrderRecord) => o.dateKst == Some(d) && o.merchant == m
                                  && o.status.Some? && o.status.value in statuses);
  }

  function OpsKey(): OrderRecord -> (int, Option<string>) {
    (o: OrderRecord) => (if o.dateKst.Some? then o.dateKst.value else 0, o.merchant)
  }

  function Dated(dates: set<int>): OrderRecord -> bool {
    (o: OrderRecord) => o.dateKst.Some? && o.dateKst.value in dates
  }

  /** The grouping always has an output. */
  lemma {:induction false} OpsRowsExist(orders: seq<OrderRecord>, dates: set<int>, statuses: set<string>)
    returns (out: seq<OpsRow>)
    ensures OpsRows(orders, dates, statuses, out)
  {
    var dated := Filter(orders, Dated(dates));
    var ks := KeysListed(dated, OpsKey());
    out := seq(|ks|, i requires 0 <= i < |ks| =>
      OpsRow(ks[i].0, ks[i].1, SumBy(orders, CountIn(ks[i].0, ks[i].1)),
             SumBy(orders, HitsIn(ks[i].0, ks[i].1, statuses))));
    forall d, m
      ensures HasGroupRow(out, d, m) <==> d in dates && HasOrder(orders, d, m)
    {
      if d in dates && HasOrder(orders, d, m) {
        var o :| o in orders && InGroup(o, d, m);
        assert o in dated && OpsKey()(o) == (d, m);
        assert HasKey(dated, OpsKey(), (d, m));
        var i :| 0 <= i < |ks| && ks[i] == (d, m);
        assert out[i] in out;
      }
      if HasGroupRow(out, d, m) {
        var r :| r in out && r.dateKst == d && r.merchant == m;
        var i :| 0 <= i < |out| && out[i] == r;
        assert ks[i] in ks;
        var o :| o in dated && OpsKey()(o) == (d, m);
        assert InGroup(o, d, m);
      }
    }
  }

  function OpsMergeKey(): KeyOf<OpsRow, (int, string)> {
    (r: OpsRow) => if r.merchant.Some? then Some((r.dateKst, r.merchant.value)) else None
  }

  predicate EveryOrderHasMerchant(orders: seq<OrderRecord>, dates: set<int>) {
    forall o | o in orders && o.dateKst.Some? && o.dateKst.value in dates :: o.merchant.Some?
  }

  /** The daily counts can be merged exactly when no payment order of a target date lacks its merchant. */
  lemma {:induction false} OpsRowsKeyedIff(orders: seq<OrderRecord>, dates: set<int>, statuses: set<string>,
                                           out: seq<OpsRow>)
    requires OpsRows(orders, dates, statuses, out)
    ensures Keyed(out, OpsMergeKey()) <==> EveryOrderHasMerchant(orders, dates)
  {
    if EveryOrderHasMerchant(orders, dates) {
      forall i | 0 <= i < |out|
        ensures out[i].merchant.Some?
      {
        assert out[i] in out && HasGroupRow(out, out[i].dateKst, out[i].merchant);
      }
    }
    if Keyed(out, OpsMergeKey()) {
      forall o | o in orders && o.dateKst.Some? && o.dateKst.value in dates
        ensures o.merchant.Some?
      {
        assert InGroup(o, o.dateKst.value, o.merchant) && HasOrder(orders, o.dateKst.value, o.merchant);
        assert HasGroupRow(out, o.dateKst.value, o.merchant);
        var r :| r in out && r.dateKst == o.dateKst.value && r.merchant == o.merchant;
        var i :| 0 <= i < |out| && out[i] == r;
        assert OpsMergeKey()(out[i]).Some?;
      }
    }
  }

  // ----- Gold rows and their keys ----------------------------------------------------------------

  /** Pairing quality of one day; what its figures count is not modelled. */
  datatype PairingRow = PairingRow(dateKst: int, figures: seq<int>)

  datatype GoldRow = ReconGold(recon: ReconRow) | SupplyGold(supply: SupplyRow) | ExceptionGold(exception: RunException)
                   | OpsGold(ops: OpsRow) | PairingGold(pairing: PairingRow) | AdminGold(admin: AdminRow)

  function RowKeyOf(): KeyOf<GoldRow, RowKey> {
    (r: GoldRow) =>
      match r
      case ReconGold(recon) => Some(DateUser(recon.dateKst, recon.userId))
      case SupplyGold(supply) => Some(Day(supply.dateKst))
      case ExceptionGold(e) => Some(Exception(KeyOfException(e.exception, e.runId)))
      case OpsGold(ops) => if ops.merchant.Some? then Some(DateMerchant(ops.dateKst, ops.merchant.value)) else None
      case PairingGold(pairing) => Some(Day(pairing.dateKst))
      case AdminGold(admin) => Some(DateTx(admin.date, admin.tx))
  }

  function GoldKeys(): KeysOf<GoldRow> { (t: Table) => RowKeyOf() }

  function Wrapped<T>(rows: seq<T>, wrap: T -> GoldRow): (r: seq<GoldRow>)
    ensures |r| == |rows| && forall i | 0 <= i < |rows| :: r[i] == wrap(rows[i])
  {
    seq(|rows|, i requires 0 <= i < |rows| => wrap(rows[i]))
  }

  /** A wrapping that tells keys apart as the rows' own merge key does keeps a bag keyed or not. */
  lemma {:induction false} WrappedKeyedIff<T, K>(rows: seq<T>, wrap: T -> GoldRow, key: KeyOf<T, K>)
    requires forall i | 0 <= i < |rows| :: RowKeyOf()(wrap(rows[i])).Some? <==> key(rows[i]).Some?
    requires forall i, j | 0 <= i < j < |rows| ::
             RowKeyOf()(wrap(rows[i])) == RowKeyOf()(wrap(rows[j])) <==> key(rows[i]) == key(rows[j])
    ensures Keyed(Wrapped(rows, wrap), RowKeyOf()) <==> Keyed(rows, key)
  {
    var wrapped := Wrapped(rows, wrap);
    if Keyed(wrapped, RowKeyOf()) {
      forall i | 0 <= i < |rows|
        ensures key(rows[i]).Some?
      {
        assert RowKeyOf()(wrapped[i]).Some?;
      }
      forall i, j | 0 <= i < j < |rows|
        ensures key(rows[i]) != key(rows[j])
      {
        assert RowKeyOf()(wrapped[i]) != RowKeyOf()(wrapped[j]);
      }
    }
  }

  function AsRecon(): ReconRow -> GoldRow { (r: ReconRow) => ReconGold(r) }
  function AsSupply(): SupplyRow -> GoldRow { (r: SupplyRow) => SupplyGold(r) }
  function AsException(): RunException -> GoldRow { (e: RunException) => ExceptionGold(e) }
  function AsOps(): OpsRow -> GoldRow { (r: OpsRow) => OpsGold(r) }
  function AsPairing(): PairingRow -> GoldRow { (r: PairingRow) => PairingGold(r) }
  function AsAdmin(): AdminRow -> GoldRow { (r: AdminRow) => AdminGold(r) }

  function PairingMergeKey(): KeyOf<PairingRow, int> { (r: PairingRow) => Some(r.dateKst) }

  lemma {:induction false} WrappedReconKeyedIff(rows: seq<ReconRow>)
    ensures Keyed(Wrapped(rows, AsRecon()), RowKeyOf()) <==> Keyed(rows, ReconMergeKey())
  {
    WrappedKeyedIff(rows, AsRecon(), ReconMergeKey());
  }

  lemma {:induction false} WrappedSupplyKeyedIff(rows: seq<SupplyRow>)
    ensures Keyed(Wrapped(rows, AsSupply()), RowKeyOf()) <==> Keyed(rows, SupplyMergeKey())
  {
    WrappedKeyedIff(rows, AsSupply(), SupplyMergeKey());
  }

  lemma {:induction false} WrappedExceptionsKeyedIff(rows: seq<RunException>)
    ensures Keyed(Wrapped(rows, AsException()), RowKeyOf()) <==> Keyed(rows, ExceptionMergeKey())
  {
    WrappedKeyedIff(rows, AsException(), ExceptionMergeKey());
  }

  lemma {:induction false} WrappedOpsKeyedIff(rows: seq<OpsRow>)
    ensures Keyed(Wrapped(rows, AsOps()), RowKeyOf()) <==> Keyed(rows, OpsMergeKey())
  {
    WrappedKeyedIff(rows, AsOps(), OpsMergeKey());
  }

  lemma {:induction false} WrappedPairingKeyedIff(rows: seq<PairingRow>)
    ensures Keyed(Wrapped(rows, AsPairing()), RowKeyOf()) <==> Keyed(rows, PairingMergeKey())
  {
    WrappedKeyedIff(rows, AsPairing(), PairingMergeKey());
  }

  lemma {:induction false} WrappedAdminKeyedIff(rows: seq<AdminRow>)
    ensures Keyed(Wrapped(rows, AsAdmin()), RowKeyOf()) <==> Keyed(rows, AdminMergeKey())
  {
    WrappedKeyedIff(rows, AsAdmin(), AdminMergeKey());
  }

  // ----- The outputs of one run ------------------------------------------------------------------------

  /** What fixes a run: the tables it reads, its rules, tags and identifier, and the figures of pairing
      quality, any function of the day. */
  datatype Inputs = Inputs(snapshots: seq<WalletRecord>, ledger: seq<LedgerRecord>, orders: seq<OrderRecord>,
                           failed: set<string>, refunded: set<string>, tags: map<int, Option<string>>,
                           reconRule: Option<Rule>, supplyRule: Option<Rule>, pairingOf: int -> seq<int>,
                           runId: string)

  /** One execution of all plans of the run. */
  datatype Execution = Execution(run: PlanRun, groups: seq<PairGroup>, failures: seq<OpsRow>, refunds: seq<OpsRow>,
                                 pairing: seq<PairingRow>)

  function PairingDates(rows: seq<PairingRow>): seq<int> {
    seq(|rows|, i requires 0 <= i < |rows| => rows[i].dateKst)
  }

  /** The pairing table joins its figures, grouped by date, to the list of target dates. */
  ghost predicate ExecutionOf(x: Inputs, e: Execution) {
    && Executes(x.snapshots, x.ledger, e.run)
    && PairGroups(PlanEntries(x.ledger, e.run.dates), e.groups)
    && OpsRows(x.orders, e.run.dates, x.failed, e.failures) && OpsRows(x.orders, e.run.dates, x.refunded, e.refunds)
    && ListsDates(PairingDates(e.pairing), e.run.dates)
    && (forall i | 0 <= i < |e.pairing| :: e.pairing[i].figures == x.pairingOf(e.pairing[i].dateKst))
  }

  /** Whatever a run reads, the engine has an execution of all its plans. */
  lemma {:induction false} ExecutionExists(x: Inputs, dates: set<int>) returns (e: Execution)
    ensures ExecutionOf(x, e) && e.run.dates == dates
  {
    var run := PlanRunExists(x.snapshots, x.ledger, dates);
    var groups := PairGroupsExist(PlanEntries(x.ledger, dates));
    var failures := OpsRowsExist(x.orders, dates, x.failed);
    var refunds := OpsRowsExist(x.orders, dates, x.refunded);
    var pairing := seq(|run.days|, i requires 0 <= i < |run.days| => PairingRow(run.days[i], x.pairingOf(run.days[i])));
    e := Execution(run, groups, failures, refunds, pairing);
    assert PairingDates(pairing) == run.days;
  }

  function ReconTable(x: Inputs, e: Execution): seq<ReconRow> {
    ReconPlan(e.run.starts, e.run.ends, e.run.net, x.tags)
  }

  function SupplyTable(x: Inputs, e: Execution): seq<SupplyRow> {
    SupplyPlanTable(e.run.daily, e.run.totals, e.run.days, x.supplyRule)
  }

  function PipelineBOutputs(x: Inputs, e: Execution): BagOutputs<GoldRow> {
    BagOutputs(
      Wrapped(ReconTable(x, e), AsRecon()),
      Wrapped(PlanExceptions(ReconTable(x, e), x.reconRule, x.runId), AsException()),
      Wrapped(SupplyTable(x, e), AsSupply()),
      Wrapped(e.failures, AsOps()), Wrapped(e.refunds, AsOps()), Wrapped(e.pairing, AsPairing()),
      Wrapped(AdminPlan(PlanEntries(x.ledger, e.run.dates), e.groups), AsAdmin()),
      Wrapped(PlanSupplyExceptions(SupplyTable(x, e), x.supplyRule, x.runId), AsException()))
  }

  lemma {:induction false} ReconIsKeyed(x: Inputs, e: Execution)
    requires ExecutionOf(x, e)
    ensures Keyed(ReconTable(x, e), ReconMergeKey())
    ensures Keyed(PipelineBOutputs(x, e).recon, RowKeyOf()) && Keyed(PipelineBOutputs(x, e).reconExceptions, RowKeyOf())
  {
    PlanIsKeyed(x.snapshots, x.ledger, e.run.dates, e.run.starts, e.run.ends, e.run.net, x.tags);
    PlanExceptionsAreKeyed(ReconTable(x, e), x.reconRule, x.runId);
    WrappedReconKeyedIff(ReconTable(x, e));
    WrappedExceptionsKeyedIff(PlanExceptions(ReconTable(x, e), x.reconRule, x.runId));
  }

  lemma {:induction false} SupplyTableIsKeyed(daily: seq<(int, int)>, totals: seq<(int, int)>, days: seq<int>,
                                              dates: set<int>, rule: Option<Rule>)
    requires ListsDates(days, dates)
    ensures Keyed(SupplyPlanTable(daily, totals, days, rule), SupplyMergeKey())
  {
  }

  lemma {:induction false} SupplyIsKeyed(x: Inputs, e: Execution)
    requires ExecutionOf(x, e)
    ensures Keyed(PipelineBOutputs(x, e).supply, RowKeyOf())
            && Keyed(PipelineBOutputs(x, e).supplyExceptions, RowKeyOf())
  {
    SupplyTableIsKeyed(e.run.daily, e.run.totals, e.run.days, e.run.dates, x.supplyRule);
    PlanSupplyExceptionsAreKeyed(SupplyTable(x, e), x.supplyRule, x.runId);
    WrappedSupplyKeyedIff(SupplyTable(x, e));
    WrappedExceptionsKeyedIff(PlanSupplyExceptions(SupplyTable(x, e), x.supplyRule, x.runId));
  }

  lemma {:induction false} OpsAreKeyedIff(x: Inputs, e: Execution)
    requires ExecutionOf(x, e)
    ensures Keyed(PipelineBOutputs(x, e).opsFailure, RowKeyOf()) <==> EveryOrderHasMerchant(x.orders, e.run.dates)
    ensures Keyed(PipelineBOutputs(x, e).opsRefund, RowKeyOf()) <==> EveryOrderHasMerchant(x.orders, e.run.dates)
    ensures Keyed(PipelineBOutputs(x, e).pairing, RowKeyOf())
  {
    OpsRowsKeyedIff(x.orders, e.run.dates, x.failed, e.failures);
    OpsRowsKeyedIff(x.orders, e.run.dates, x.refunded, e.refunds);
    WrappedOpsKeyedIff(e.failures);
    WrappedOpsKeyedIff(e.refunds);
    PairingIsKeyed(e.pairing, e.run.dates);
    WrappedPairingKeyedIff(e.pairing);
  }

  lemma {:induction false} PairingIsKeyed(rows: seq<PairingRow>, dates: set<int>)
    requires ListsDates(PairingDates(rows), dates)
    ensures Keyed(rows, PairingMergeKey())
  {
    forall i, j | 0 <= i < j < |rows|
      ensures PairingMergeKey()(rows[i]) != PairingMergeKey()(rows[j])
    {
      assert PairingDates(rows)[i] != PairingDates(rows)[j];
    }
  }

  lemma {:induction false} SearchIsKeyedIff(x: Inputs, e: Execution)
    requires ExecutionOf(x, e)
    ensures Keyed(PipelineBOutputs(x, e).adminTx, RowKeyOf()) <==> OneRowPerTx(x.ledger, e.run.dates)
  {
    PlanSearchWriteRepeatsIff(None, x.ledger, e.run.dates, e.groups);
    WrappedAdminKeyedIff(AdminPlan(PlanEntries(x.ledger, e.run.dates), e.groups));
  }

  /** What the merges of a run need of its inputs. */
  predicate Mergeable(x: Inputs, dates: set<int>) {
    OneRowPerTx(x.ledger, dates) && EveryOrderHasMerchant(x.orders, dates)
  }

  /** The outputs of a run are keyed exactly when no two listed ledger records of a day share a
      transaction and every payment order of a target date names its merchant; all other tables
      always are. */
  lemma {:induction false} PipelineBOutputsKeyedIff(x: Inputs, e: Execution)
    requires ExecutionOf(x, e)
    ensures KeyedOutputs(PipelineBOutputs(x, e), GoldKeys()) <==> Mergeable(x, e.run.dates)
  {
    ReconIsKeyed(x, e);
    SupplyIsKeyed(x, e);
    OpsAreKeyedIff(x, e);
    SearchIsKeyedIff(x, e);
    TasksAreKeyedIff(PipelineBOutputs(x, e));
  }

  lemma {:induction false} TasksAreKeyedIff(o: BagOutputs<GoldRow>)
    ensures KeyedBatches(TaskRows(o, Recon), GoldKeys()) <==>
            Keyed(o.recon, RowKeyOf()) && Keyed(o.reconExceptions, RowKeyOf())
    ensures KeyedBatches(TaskRows(o, SupplyOps), GoldKeys())
            <==> && Keyed(o.supply, RowKeyOf()) && Keyed(o.opsFailure, RowKeyOf()) && Keyed(o.opsRefund, RowKeyOf())
                 && Keyed(o.pairing, RowKeyOf()) && Keyed(o.adminTx, RowKeyOf())
                     && Keyed(o.supplyExceptions, RowKeyOf())
  {
    var r, s := TaskRows(o, Recon), TaskRows(o, SupplyOps);
    if KeyedBatches(r, GoldKeys()) {
      assert Keyed(r[0].rows, RowKeyOf()) && Keyed(r[1].rows, RowKeyOf());
    }
    if KeyedBatches(s, GoldKeys()) {
      assert Keyed(s[0].rows, RowKeyOf()) && Keyed(s[1].rows, RowKeyOf()) && Keyed(s[2].rows, RowKeyOf());
      assert Keyed(s[3].rows, RowKeyOf()) && Keyed(s[4].rows, RowKeyOf()) && Keyed(s[5].rows, RowKeyOf());
    }
  }

  lemma {:induction false} OpsKeysHeld(orders: seq<OrderRecord>, dates: set<int>, statuses: set<string>,
                                       out: seq<OpsRow>, next: seq<OpsRow>)
    requires OpsRows(orders, dates, statuses, out) && OpsRows(orders, dates, statuses, next)
    ensures forall r | r in next :: r in out
    ensures KeysHeld(Wrapped(out, AsOps()), Wrapped(next, AsOps()), RowKeyOf())
  {
    forall r | r in next
      ensures r in out
    {
      assert HasGroupRow(next, r.dateKst, r.merchant);
      assert HasGroupRow(out, r.dateKst, r.merchant);
      var q :| q in out && q.dateKst == r.dateKst && q.merchant == r.merchant;
      assert q == r;
    }
    forall j | 0 <= j < |next|
      ensures SharesKey(out, AsOps(), next[j])
    {
      assert next[j] in out;
      var i :| 0 <= i < |out| && out[i] == next[j];
    }
    WrappedKeysHeld(out, next, AsOps());
  }

  ghost predicate SharesKey<T>(rows: seq<T>, wrap: T -> GoldRow, r: T) {
    exists i :: 0 <= i < |rows| && RowKeyOf()(wrap(rows[i])) == RowKeyOf()(wrap(r))
  }

  lemma {:induction false} WrappedKeysHeld<T>(rows: seq<T>, next: seq<T>, wrap: T -> GoldRow)
    requires forall j | 0 <= j < |next| :: SharesKey(rows, wrap, next[j])
    ensures KeysHeld(Wrapped(rows, wrap), Wrapped(next, wrap), RowKeyOf())
  {
    forall j | 0 <= j < |next|
      ensures HoldsKey(Wrapped(rows, wrap), RowKeyOf(), RowKeyOf()(Wrapped(next, wrap)[j]))
    {
      assert SharesKey(rows, wrap, next[j]);
      var i :| 0 <= i < |rows| && RowKeyOf()(wrap(rows[i])) == RowKeyOf()(wrap(next[j]));
      assert RowKeyOf()(Wrapped(rows, wrap)[i]) == RowKeyOf()(Wrapped(next, wrap)[j]);
    }
  }

  /** Whatever pair table is joined back, the search rows have the keys of the entries. */
  lemma {:induction false} SearchKeysHeld(base: seq<AdminRow>, groups: seq<PairGroup>, others: seq<PairGroup>)
    ensures KeysHeld(Wrapped(AdminPlan(base, groups), AsAdmin()), Wrapped(AdminPlan(base, others), AsAdmin()),
                     RowKeyOf())
  {
    forall j | 0 <= j < |AdminPlan(base, others)|
      ensures SharesKey(AdminPlan(base, groups), AsAdmin(), AdminPlan(base, others)[j])
    {
      SearchKeyIsHeld(base, groups, others, j);
    }
    WrappedKeysHeld(AdminPlan(base, groups), AdminPlan(base, others), AsAdmin());
  }

  lemma {:induction false} PlanKeepsKeys(base: seq<AdminRow>, groups: seq<PairGroup>, a: nat)
    requires a < |AdminPlan(base, groups)|
    ensures var left := LeftJoin(base, PairRows(groups), OnTx())[a].0;
            AdminPlan(base, groups)[a].date == left.date && AdminPlan(base, groups)[a].tx == left.tx
  {
  }

  lemma {:induction false} SearchKeyIsHeld(base: seq<AdminRow>, groups: seq<PairGroup>, others: seq<PairGroup>, j: nat)
    requires j < |AdminPlan(base, others)|
    ensures SharesKey(AdminPlan(base, groups), AsAdmin(), AdminPlan(base, others)[j])
  {
    LeftJoinRowsAreLeft(base, PairRows(others), OnTx(), j);
    var i :| 0 <= i < |base| && base[i] == LeftJoin(base, PairRows(others), OnTx())[j].0;
    var a, b := LeftJoinKeepsOrder(base, PairRows(groups), OnTx(), i, i);
    PlanKeepsKeys(base, others, j);
    PlanKeepsKeys(base, groups, a);
    SameKeyIsShared(AdminPlan(base, groups), a, AdminPlan(base, others)[j]);
  }

  lemma {:induction false} SameKeyIsShared(rows: seq<AdminRow>, a: nat, r: AdminRow)
    requires a < |rows| && rows[a].date == r.date && rows[a].tx == r.tx
    ensures SharesKey(rows, AsAdmin(), r)
  {
  }

  /** What two attempts of a task hand over meets the hypothesis of the retry law table by table. */
  lemma {:induction false} SameMergesOf(o: BagOutputs<GoldRow>, next: BagOutputs<GoldRow>, t: Task)
    requires Keyed(next.recon, RowKeyOf()) && Keyed(next.reconExceptions, RowKeyOf())
    requires Keyed(next.supply, RowKeyOf()) && Keyed(next.pairing, RowKeyOf())
    requires Keyed(next.supplyExceptions, RowKeyOf())
    requires KeysHeld(o.opsFailure, next.opsFailure, RowKeyOf()) && KeysHeld(o.opsRefund, next.opsRefund, RowKeyOf())
    requires KeysHeld(o.adminTx, next.adminTx, RowKeyOf())
    ensures SameMerges(TaskRows(o, t), TaskRows(next, t), GoldKeys())
  {
  }

  lemma {:induction false} AttemptsHandTheSameKeys(x: Inputs, e: Execution, next: Execution, t: Task)
    requires ExecutionOf(x, e) && ExecutionOf(x, next) && e.run.dates == next.run.dates
    ensures SameMerges(TaskRows(PipelineBOutputs(x, e), t), TaskRows(PipelineBOutputs(x, next), t), GoldKeys())
  {
    ReconIsKeyed(x, next);
    SupplyIsKeyed(x, next);
    OpsAreKeyedIff(x, next);
    OpsKeysHeld(x.orders, e.run.dates, x.failed, e.failures, next.failures);
    OpsKeysHeld(x.orders, e.run.dates, x.refunded, e.refunds, next.refunds);
    SearchKeysHeld(PlanEntries(x.ledger, e.run.dates), e.groups, next.groups);
    SameMergesOf(PipelineBOutputs(x, e), PipelineBOutputs(x, next), t);
  }

  /** Retrying a task after all its merges went through, with the plans executed again, goes through for
      every state of the tables: reconciliation always, supply and operations exactly when the inputs are
      mergeable. */
  lemma {:induction false} TaskRetriesIff(tables: Tables<GoldRow>, x: Inputs, e: Execution, next: Execution, t: Task)
    requires ExecutionOf(x, e) && ExecutionOf(x, next) && e.run.dates == next.run.dates
    requires PutAll(tables, TaskRows(PipelineBOutputs(x, e), t), GoldKeys()).error.None?
    ensures var once := PutAll(tables, TaskRows(PipelineBOutputs(x, e), t), GoldKeys()).tables;
            PutAll(once, TaskRows(PipelineBOutputs(x, next), t), GoldKeys()).error.None?
            <==> t == Recon || Mergeable(x, e.run.dates)
  {
    TaskRowsAreBatches(PipelineBOutputs(x, e), GoldKeys(), t);
    AttemptsHandTheSameKeys(x, e, next, t);
    NextAttemptIff(tables, TaskRows(PipelineBOutputs(x, e), t), TaskRows(PipelineBOutputs(x, next), t), GoldKeys());
    TaskIsKeyedIff(x, next, t);
  }

  lemma {:induction false} TaskIsKeyedIff(x: Inputs, e: Execution, t: Task)
    requires ExecutionOf(x, e)
    ensures KeyedBatches(TaskRows(PipelineBOutputs(x, e), t), GoldKeys()) <==> t == Recon || Mergeable(x, e.run.dates)
  {
    ReconIsKeyed(x, e);
    PipelineBOutputsKeyedIff(x, e);
    TasksAreKeyedIff(PipelineBOutputs(x, e));
  }

  // ----- End to end --------------------------------------------------------------------------------

  /** Exceptions of one type, as gold rows, have keys of that type. */
  lemma {:induction false} TypedKeys(raised: seq<RunException>, t: ExceptionType)
    requires Keyed(Wrapped(raised, AsException()), RowKeyOf())
    requires forall i | 0 <= i < |raised| :: raised[i].exception.exceptionType == t
    ensures forall k | k in AsMap(Wrapped(raised, AsException()), RowKeyOf()) ::
            k.Exception? && k.key.exceptionType == t
  {
    var rows := Wrapped(raised, AsException());
    AsMapIs(rows, RowKeyOf());
    forall k | k in AsMap(rows, RowKeyOf())
      ensures k.Exception? && k.key.exceptionType == t
    {
      var i :| 0 <= i < |rows| && rows[i] == AsMap(rows, RowKeyOf())[k];
    }
  }

  lemma {:induction false} OutputsAreTyped(x: Inputs, e: Execution)
    requires ExecutionOf(x, e)
    ensures AsOutputs(PipelineBOutputs(x, e), GoldKeys()).TypedExceptions()
  {
    ReconIsKeyed(x, e);
    SupplyIsKeyed(x, e);
    ReconTyped(ReconTable(x, e), x.reconRule, x.runId);
    SupplyTyped(SupplyTable(x, e), x.supplyRule, x.runId);
    TypedKeys(PlanExceptions(ReconTable(x, e), x.reconRule, x.runId), RECON_DRIFT_HIGH);
    TypedKeys(PlanSupplyExceptions(SupplyTable(x, e), x.supplyRule, x.runId), SUPPLY_MISMATCH);
  }

  lemma {:induction false} ReconTyped(rows: seq<ReconRow>, rule: Option<Rule>, runId: string)
    ensures forall e | e in PlanExceptions(rows, rule, runId) :: e.exception.exceptionType == RECON_DRIFT_HIGH
  {
    forall e | e in PlanExceptions(rows, rule, runId)
      ensures e.exception.exceptionType == RECON_DRIFT_HIGH
    {
      var row := RaisingRow(rows, rule, runId, e);
    }
  }

  lemma {:induction false} SupplyTyped(rows: seq<SupplyRow>, rule: Option<Rule>, runId: string)
    ensures forall e | e in PlanSupplyExceptions(rows, rule, runId) :: e.exception.exceptionType == SUPPLY_MISMATCH
  {
    forall e | e in PlanSupplyExceptions(rows, rule, runId)
      ensures e.exception.exceptionType == SUPPLY_MISMATCH
    {
      CollectHas(rows, SupplyRaised(rule, runId), e);
      var row :| row in rows && SupplyRaised(rule, runId)(row) == Some(e);
    }
  }

  /** The stored row of one key, if any. */
  ghost function StoredRow(tables: Tables<GoldRow>, t: Table, k: RowKey): Option<GoldRow> {
    if (t, k) in View(tables, GoldKeys()) then Some(View(tables, GoldKeys())[(t, k)]) else None
  }

  lemma {:induction false} KeyedRowAt(rows: seq<GoldRow>, i: nat, k: RowKey)
    requires Keyed(rows, RowKeyOf()) && i < |rows| && RowKeyOf()(rows[i]) == Some(k)
    ensures k in AsMap(rows, RowKeyOf()) && AsMap(rows, RowKeyOf())[k] == rows[i]
  {
    AsMapIs(rows, RowKeyOf());
  }

  lemma {:induction false} ReconOutputAt(x: Inputs, e: Execution, d: int, u: string)
    requires ExecutionOf(x, e) && CleanUsers(x.snapshots) && CleanWallets(x.ledger)
    requires d in e.run.dates && u in Users(x.snapshots, d) && TiesAgree(x.snapshots, u, d)
    ensures Lookup(AsOutputs(PipelineBOutputs(x, e), GoldKeys()), (ReconDaily, DateUser(d, u)))
            == Some(ReconGold(ReconRowFor(x.snapshots, x.ledger, d, u, DateTag(x.tags, d))))
  {
    var row := ReconRowFor(x.snapshots, x.ledger, d, u, DateTag(x.tags, d));
    LoopRowIsPlanRow(x.snapshots, x.ledger, e.run.dates, e.run.starts, e.run.ends, e.run.net, x.tags, d, row);
    ReconIsKeyed(x, e);
    var i :| 0 <= i < |ReconTable(x, e)| && ReconTable(x, e)[i] == row;
    KeyedRowAt(PipelineBOutputs(x, e).recon, i, DateUser(d, u));
  }

  lemma {:induction false} SupplyOutputAt(x: Inputs, e: Execution, d: int)
    requires ExecutionOf(x, e) && CleanUsers(x.snapshots) && d in e.run.dates
    requires forall u, f | f in e.run.dates :: TiesAgree(x.snapshots, u, f)
    requires forall i | 0 <= i < |x.ledger| :: SameEntryType(x.ledger[i])
    ensures Lookup(AsOutputs(PipelineBOutputs(x, e), GoldKeys()), (SupplyBalance, Day(d)))
            == Some(SupplyGold(SupplyRowFor(x.snapshots, x.ledger, d, x.supplyRule)))
  {
    var i :| 0 <= i < |e.run.days| && e.run.days[i] == d;
    SupplyPlanRefinesLoop(x.snapshots, x.ledger, e.run.dates, e.run.starts, e.run.ends, e.run.daily, e.run.totals, d,
        x.supplyRule);
    SupplyIsKeyed(x, e);
    KeyedRowAt(PipelineBOutputs(x, e).supply, i, Day(d));
  }

  // ----- Executions agree ----------------------------------------------------------------------------

  /** Keyed bags of the same rows are the same map, wrapped or not. */
  lemma {:induction false} SameRowsSameMap(a: seq<GoldRow>, b: seq<GoldRow>)
    requires Keyed(a, RowKeyOf()) && Keyed(b, RowKeyOf()) && forall r :: r in a <==> r in b
    ensures AsMap(a, RowKeyOf()) == AsMap(b, RowKeyOf())
  {
    var m := AsMap(b, RowKeyOf());
    AsMapIs(b, RowKeyOf());
    forall i | 0 <= i < |a|
      ensures RowKeyOf()(a[i]).value in m && m[RowKeyOf()(a[i]).value] == a[i]
    {
      assert a[i] in b;
    }
    forall k | k in m
      ensures HoldsKey(a, RowKeyOf(), Some(k))
    {
      assert m[k] in a;
    }
    KeyedRowsAre(a, RowKeyOf(), m);
  }

  lemma {:induction false} WrappedSameMap<T>(a: seq<T>, b: seq<T>, wrap: T -> GoldRow)
    requires Keyed(Wrapped(a, wrap), RowKeyOf()) && Keyed(Wrapped(b, wrap), RowKeyOf())
    requires forall r :: r in a <==> r in b
    ensures AsMap(Wrapped(a, wrap), RowKeyOf()) == AsMap(Wrapped(b, wrap), RowKeyOf())
  {
    WrappedRows(a, b, wrap);
    WrappedRows(b, a, wrap);
    SameRowsSameMap(Wrapped(a, wrap), Wrapped(b, wrap));
  }

  lemma {:induction false} WrappedRows<T>(a: seq<T>, b: seq<T>, wrap: T -> GoldRow)
    requires forall r | r in a :: r in b
    ensures forall r | r in Wrapped(a, wrap) :: r in Wrapped(b, wrap)
  {
    forall i | 0 <= i < |a|
      ensures wrap(a[i]) in Wrapped(b, wrap)
    {
      assert a[i] in b;
      var j :| 0 <= j < |b| && b[j] == a[i];
      assert Wrapped(b, wrap)[j] == wrap(a[i]);
    }
  }

  lemma {:induction false} SameMapSameRows<R, K>(a: seq<R>, b: seq<R>, key: KeyOf<R, K>)
    requires Keyed(a, key) && Keyed(b, key) && AsMap(a, key) == AsMap(b, key)
    ensures forall r :: r in a <==> r in b
  {
    AsMapIs(a, key);
    AsMapIs(b, key);
    forall r
      ensures r in a <==> r in b
    {
      if r in a { assert AsMap(a, key)[key(r).value] == r; }
      if r in b { assert AsMap(b, key)[key(r).value] == r; }
    }
  }

  /** What the agreement of loop and plan needs of the inputs of a run. */
  ghost predicate Comparable(x: Inputs, dates: set<int>) {
    && CleanUsers(x.snapshots) && CleanWallets(x.ledger)
    && (forall v, f | f in dates :: TiesAgree(x.snapshots, v, f))
    && (forall i | 0 <= i < |x.ledger| :: SameEntryType(x.ledger[i]))
  }

  lemma {:induction false} ReconRowsAgree(x: Inputs, e: Execution, f: Execution)
    requires ExecutionOf(x, e) && ExecutionOf(x, f) && e.run.dates == f.run.dates && Comparable(x, e.run.dates)
    ensures forall r :: r in ReconTable(x, e) <==> r in ReconTable(x, f)
    ensures forall r :: r in PlanExceptions(ReconTable(x, e), x.reconRule, x.runId)
                        <==> r in PlanExceptions(ReconTable(x, f), x.reconRule, x.runId)
  {
    var (p, q) := (e.run, f.run);
    PlanWritesReconOut(x.snapshots, x.ledger, p.dates, p.starts, p.ends, p.net, x.tags);
    PlanWritesReconOut(x.snapshots, x.ledger, q.dates, q.starts, q.ends, q.net, x.tags);
    SameMapSameRows(ReconTable(x, e), ReconTable(x, f), ReconMergeKey());
    PlanWritesExceptionOut(x.snapshots, x.ledger, p.dates, p.starts, p.ends, p.net, x.tags, x.reconRule, x.runId);
    PlanWritesExceptionOut(x.snapshots, x.ledger, q.dates, q.starts, q.ends, q.net, x.tags, x.reconRule, x.runId);
    SameMapSameRows(PlanExceptions(ReconTable(x, e), x.reconRule, x.runId),
                    PlanExceptions(ReconTable(x, f), x.reconRule, x.runId), ExceptionMergeKey());
  }

  lemma {:induction false} SupplyRowsAgree(x: Inputs, e: Execution, f: Execution)
    requires ExecutionOf(x, e) && ExecutionOf(x, f) && e.run.dates == f.run.dates && Comparable(x, e.run.dates)
    ensures forall r :: r in SupplyTable(x, e) <==> r in SupplyTable(x, f)
    ensures forall r :: r in PlanSupplyExceptions(SupplyTable(x, e), x.supplyRule, x.runId)
                        <==> r in PlanSupplyExceptions(SupplyTable(x, f), x.supplyRule, x.runId)
  {
    var (p, q, rule) := (e.run, f.run, x.supplyRule);
    PlanWritesSupplyOut(x.snapshots, x.ledger, p.dates, p.starts, p.ends, p.daily, p.totals, p.days, rule);
    PlanWritesSupplyOut(x.snapshots, x.ledger, q.dates, q.starts, q.ends, q.daily, q.totals, q.days, rule);
    SameMapSameRows(SupplyTable(x, e), SupplyTable(x, f), SupplyMergeKey());
    PlanWritesSupplyExceptionOut(x.snapshots, x.ledger, p.dates, p.starts, p.ends, p.daily, p.totals, p.days, rule,
                                 x.runId);
    PlanWritesSupplyExceptionOut(x.snapshots, x.ledger, q.dates, q.starts, q.ends, q.daily, q.totals, q.days, rule,
                                 x.runId);
    SameMapSameRows(PlanSupplyExceptions(SupplyTable(x, e), rule, x.runId),
                    PlanSupplyExceptions(SupplyTable(x, f), rule, x.runId), ExceptionMergeKey());
  }

  lemma {:induction false} OtherRowsAgree(x: Inputs, e: Execution, f: Execution)
    requires ExecutionOf(x, e) && ExecutionOf(x, f) && e.run.dates == f.run.dates && OneRowPerTx(x.ledger, e.run.dates)
    ensures forall r :: r in e.failures <==> r in f.failures
    ensures forall r :: r in e.refunds <==> r in f.refunds
    ensures forall r :: r in e.pairing <==> r in f.pairing
    ensures AdminPlan(PlanEntries(x.ledger, e.run.dates), e.groups)
            == AdminPlan(PlanEntries(x.ledger, f.run.dates), f.groups)
  {
    var dates := e.run.dates;
    OpsKeysHeld(x.orders, dates, x.failed, e.failures, f.failures);
    OpsKeysHeld(x.orders, dates, x.failed, f.failures, e.failures);
    OpsKeysHeld(x.orders, dates, x.refunded, e.refunds, f.refunds);
    OpsKeysHeld(x.orders, dates, x.refunded, f.refunds, e.refunds);
    PairingRowsAgree(x, e, f);
    PairingRowsAgree(x, f, e);
    PlanKeysAreTxIds(x.ledger, dates);
    UniqueTxPairsOnce(PlanEntries(x.ledger, dates));
    PlanIsAttached(PlanEntries(x.ledger, dates), e.groups);
    PlanIsAttached(PlanEntries(x.ledger, dates), f.groups);
  }

  lemma {:induction false} PairingRowsAgree(x: Inputs, e: Execution, f: Execution)
    requires ExecutionOf(x, e) && ExecutionOf(x, f) && e.run.dates == f.run.dates
    ensures forall r | r in e.pairing :: r in f.pairing
  {
    forall i | 0 <= i < |e.pairing|
      ensures e.pairing[i] in f.pairing
    {
      assert PairingDates(e.pairing)[i] == e.pairing[i].dateKst;
      assert e.pairing[i].dateKst in PairingDates(f.pairing);
      var j :| 0 <= j < |f.pairing| && PairingDates(f.pairing)[j] == e.pairing[i].dateKst;
      assert f.pairing[j] == e.pairing[i];
    }
  }

  /** Two executions of a run on mergeable, comparable inputs hand over the same rows, in whatever order. */
  lemma {:induction false} ExecutionsAgree(x: Inputs, e: Execution, f: Execution)
    requires ExecutionOf(x, e) && ExecutionOf(x, f) && e.run.dates == f.run.dates
    requires Comparable(x, e.run.dates) && Mergeable(x, e.run.dates)
    ensures AsOutputs(PipelineBOutputs(x, e), GoldKeys()) == AsOutputs(PipelineBOutputs(x, f), GoldKeys())
  {
    ReconRowsAgree(x, e, f);
    SupplyRowsAgree(x, e, f);
    OtherRowsAgree(x, e, f);
    ReconIsKeyed(x, e);
    ReconIsKeyed(x, f);
    SupplyIsKeyed(x, e);
    SupplyIsKeyed(x, f);
    OpsAreKeyedIff(x, e);
    OpsAreKeyedIff(x, f);
    WrappedSameMap(ReconTable(x, e), ReconTable(x, f), AsRecon());
    WrappedSameMap(PlanExceptions(ReconTable(x, e), x.reconRule, x.runId),
                   PlanExceptions(ReconTable(x, f), x.reconRule, x.runId), AsException());
    WrappedSameMap(SupplyTable(x, e), SupplyTable(x, f), AsSupply());
    WrappedSameMap(PlanSupplyExceptions(SupplyTable(x, e), x.supplyRule, x.runId),
                   PlanSupplyExceptions(SupplyTable(x, f), x.supplyRule, x.runId), AsException());
    WrappedSameMap(e.failures, f.failures, AsOps());
    WrappedSameMap(e.refunds, f.refunds, AsOps());
    WrappedSameMap(e.pairing, f.pairing, AsPairing());
  }

  /** The job whose step n is handed what execution n of the plans yields. */
  function PipelineBJob(x: Inputs, executions: nat -> Execution, processedEnd: int): BagJob<GoldRow> {
    BagJob((n: nat) => PipelineBOutputs(x, executions(n)), x.runId, processedEnd)
  }

  ghost predicate ExecutionsOf(x: Inputs, executions: nat -> Execution, dates: set<int>) {
    forall n: nat :: ExecutionOf(x, executions(n)) && executions(n).run.dates == dates
  }

  lemma {:induction false} JobIsSteady(x: Inputs, executions: nat -> Execution, dates: set<int>, processedEnd: int)
    requires ExecutionsOf(x, executions, dates) && Comparable(x, dates) && Mergeable(x, dates)
    ensures Steady(PipelineBJob(x, executions, processedEnd), GoldKeys())
  {
    forall n: nat
      ensures KeyedOutputs(PipelineBOutputs(x, executions(n)), GoldKeys())
      ensures AsOutputs(PipelineBOutputs(x, executions(n)), GoldKeys())
              == AsOutputs(PipelineBOutputs(x, executions(0)), GoldKeys())
    {
      PipelineBOutputsKeyedIff(x, executions(n));
      ExecutionsAgree(x, executions(n), executions(0));
    }
  }

  /** End to end: on mergeable inputs, with the plans executed anew for every merge, after any schedule of
      the job with crashes, retries and repairs, once it is finished the stored reconciliation row of every
      snapshotted user of every target date, and the stored supply row of every target date, are those of
      the record loops. */
  lemma {:induction false} FinishedJobStoresTheLoopsRows(x: Inputs, executions: nat -> Execution, dates: set<int>,
                                                         processedEnd: int, w: BagWorld<GoldRow>, actions: seq<Action>,
                                                         d: int, u: string)
    requires ExecutionsOf(x, executions, dates) && Comparable(x, dates) && Mergeable(x, dates) && d in dates
    requires KeyedTables(w.tables, GoldKeys())
    requires var job := PipelineBJob(x, executions, processedEnd);
             Fresh(job, w) && Finished(job, BagRun(job, GoldKeys(), w, actions))
    ensures var tables := BagRun(PipelineBJob(x, executions, processedEnd), GoldKeys(), w, actions).tables;
            && StoredRow(tables, SupplyBalance, Day(d))
               == Some(SupplyGold(SupplyRowFor(x.snapshots, x.ledger, d, x.supplyRule)))
            && (u in Users(x.snapshots, d) ==>
                  StoredRow(tables, ReconDaily, DateUser(d, u))
                  == Some(ReconGold(ReconRowFor(x.snapshots, x.ledger, d, u, DateTag(x.tags, d)))))
  {
    var job, e := PipelineBJob(x, executions, processedEnd), executions(0);
    var out := AsOutputs(PipelineBOutputs(x, e), GoldKeys());
    JobIsSteady(x, executions, dates, processedEnd);
    OutputsAreTyped(x, e);
    FinishedJobLeavesCleanStoredTables(job, GoldKeys(), w, actions);
    TotalAt(out, (SupplyBalance, Day(d)));
    TotalAt(out, (ReconDaily, DateUser(d, u)));
    SupplyOutputAt(x, e, d);
    if u in Users(x.snapshots, d) {
      ReconOutputAt(x, e, d, u);
    }
  }
}
