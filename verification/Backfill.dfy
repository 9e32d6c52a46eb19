/** Backfills converge: with fixed inputs and a fixed run id, merging the outputs of any date
    ranges, in any order and as often as one likes, gives the table of their union. */
module Backfill {
  import opened Prelude
  import opened Relational
  import opened LedgerControls
  import opened PipelineBPlan
  import opened SupplyPlan
  import opened MergeStore

  // ----- Merging by dates -----------------------------------------------------------------

  /** What a run writes for a set of dates depends, key by key, on the date of the key alone. */
  ghost predicate DateLocal<K(!new), V>(out: set<int> -> map<K, V>, dateOf: K -> int) {
    && (forall ds, k | k in out(ds) :: dateOf(k) in ds)
    && (forall ds, es, k | k in out(ds) && dateOf(k) in es :: k in out(es) && out(es)[k] == out(ds)[k])
  }

  function MergeAll<K, V>(table: map<K, V>, out: set<int> -> map<K, V>, runs: seq<set<int>>): map<K, V> {
    if runs == [] then table else MergeAll(table, out, runs[..|runs|-1]) + out(runs[|runs|-1])
  }

  function AllDates(runs: seq<set<int>>): set<int> {
    if runs == [] then {} else AllDates(runs[..|runs|-1]) + runs[|runs|-1]
  }

  lemma {:induction false} SplitOutput<K(!new), V>(out: set<int> -> map<K, V>, dateOf: K -> int, ds: set<int>,
                                                   es: set<int>)
    requires DateLocal(out, dateOf)
    ensures out(ds) + out(es) == out(ds + es)
  {
    var left, right := out(ds) + out(es), out(ds + es);
    forall k | k in right
      ensures k in left && left[k] == right[k]
    {
      assert dateOf(k) in ds + es;
      if dateOf(k) in es { assert k in out(es); } else { assert k in out(ds); }
      if k in out(es) { assert dateOf(k) in es; }
    }
    forall k | k in left
      ensures k in right
    {
      if k in out(ds) { assert dateOf(k) in ds + es; } else { assert dateOf(k) in ds + es; }
    }
    assert left.Keys == right.Keys;
  }

  /** Any sequence of backfills is one backfill of all their dates. */
  lemma {:induction false} BackfillsConverge<K(!new), V>(table: map<K, V>, out: set<int> -> map<K, V>, dateOf: K -> int,
                                                         runs: seq<set<int>>)
    requires DateLocal(out, dateOf)
    ensures MergeAll(table, out, runs) == table + out(AllDates(runs))
  {
    if runs == [] {
      var none: set<int> := {};
      assert forall k :: k in out(none) ==> dateOf(k) in none;
      assert out(none).Keys == {};
    } else {
      BackfillsConverge(table, out, dateOf, runs[..|runs|-1]);
      SplitOutput(out, dateOf, AllDates(runs[..|runs|-1]), runs[|runs|-1]);
      assert (table + out(AllDates(runs[..|runs|-1]))) + out(runs[|runs|-1])
             == table + (out(AllDates(runs[..|runs|-1])) + out(runs[|runs|-1]));
    }
  }

  /** Order and repetition do not matter, and keys of dates nobody asked for stay as they were. */
  lemma {:induction false} BackfillOrderIsIrrelevant<K(!new), V>(table: map<K, V>, out: set<int> -> map<K, V>,
                                                                 dateOf: K -> int, runs: seq<set<int>>,
                                                                 others: seq<set<int>>, k: K)
    requires DateLocal(out, dateOf) && AllDates(runs) == AllDates(others)
    ensures MergeAll(table, out, runs) == MergeAll(table, out, others)
    ensures dateOf(k) !in AllDates(runs) ==>
              (k in MergeAll(table, out, runs) <==> k in table)
                  && (k in table ==> MergeAll(table, out, runs)[k] == table[k])
  {
    BackfillsConverge(table, out, dateOf, runs);
    BackfillsConverge(table, out, dateOf, others);
  }

  // ----- Through the stored table -------------------------------------------------------------

  /** The writes of several runs, one after another, up to the first refused one. */
  ghost function WriteRuns<R, K>(table: Option<seq<R>>, dfs: seq<seq<R>>, key: KeyOf<R, K>):
    Result<Option<seq<R>>, MergeError>
  {
    if dfs == [] then Ok(table)
    else
      var front := WriteRuns(table, dfs[..|dfs|-1], key);
      if front.Ok? then WriteTo(front.value, dfs[|dfs|-1], key, false) else front
  }

  /** What a run hands to the merge is keyed, and as a map it is the output of the run's dates. */
  ghost predicate Hands<R, K>(df: seq<R>, key: KeyOf<R, K>, out: set<int> -> map<K, R>, dates: set<int>) {
    Keyed(df, key) && AsMap(df, key) == out(dates)
  }

  lemma {:induction false} WrittenRunsAreMerged<R, K(!new)>(table: Option<seq<R>>, dfs: seq<seq<R>>, key: KeyOf<R, K>,
                                                            out: set<int> -> map<K, R>, runs: seq<set<int>>)
    requires KeyedTable(table, key) && |dfs| == |runs|
    requires forall i | 0 <= i < |runs| :: Hands(dfs[i], key, out, runs[i])
    ensures var written := WriteRuns(table, dfs, key);
            && written.Ok? && KeyedTable(written.value, key)
            && TableMap(written.value, key) == MergeAll(TableMap(table, key), out, runs)
  {
    if dfs != [] {
      var n := |dfs| - 1;
      WrittenRunsAreMerged(table, dfs[..n], key, out, runs[..n]);
      assert Hands(dfs[n], key, out, runs[n]);
      WriteIsOverride(WriteRuns(table, dfs[..n], key).value, dfs[n], key, false);
    }
  }

  /** Stored in a keyed table, no run of a backfill is refused, and the table ends as if one run had
      written the output of all dates. */
  ghost predicate Converges<R, K(!new)>(table: Option<seq<R>>, dfs: seq<seq<R>>, key: KeyOf<R, K>,
                                        out: set<int> -> map<K, R>, runs: seq<set<int>>) {
    var written := WriteRuns(table, dfs, key);
    && written.Ok? && KeyedTable(written.value, key)
    && TableMap(written.value, key) == TableMap(table, key) + out(AllDates(runs))
  }

  lemma {:induction false} StoredBackfillsConverge<R, K(!new)>(table: Option<seq<R>>, dfs: seq<seq<R>>,
                                                               key: KeyOf<R, K>, out: set<int> -> map<K, R>,
                                                               dateOf: K -> int, runs: seq<set<int>>)
    requires KeyedTable(table, key) && |dfs| == |runs| && DateLocal(out, dateOf)
    requires forall i | 0 <= i < |runs| :: Hands(dfs[i], key, out, runs[i])
    ensures Converges(table, dfs, key, out, runs)
  {
    WrittenRunsAreMerged(table, dfs, key, out, runs);
    BackfillsConverge(TableMap(table, key), out, dateOf, runs);
  }

  // ----- The outputs of Pipeline B ------------------------------------------------------------

  ghost function ReconKeys(s: seq<WalletRecord>, ds: set<int>): set<(int, string)> {
    set d, u | d in ds && u in Users(s, d) :: (d, u)
  }

  /** The reconciliation rows of a set of dates, by merge key (date_kst, user_id). */
  ghost function ReconOut(s: seq<WalletRecord>, ledger: seq<LedgerRecord>,
                          tags: map<int, Option<string>>): set<int> -> map<(int, string), ReconRow> {
    (ds: set<int>) => map k | k in ReconKeys(s, ds) :: ReconRowFor(s, ledger, k.0, k.1, DateTag(tags, k.0))
  }

  /** The supply rows of a set of dates, by merge key date_kst. */
  ghost function SupplyOut(s: seq<WalletRecord>, ledger: seq<LedgerRecord>, rule: Option<Rule>):
    set<int> -> map<int, SupplyRow>
  {
    (ds: set<int>) => map d | d in ds :: SupplyRowFor(s, ledger, d, rule)
  }

  /** The merge key of an exception: domain and metric follow from the type. */
  datatype ExceptionKey = ExceptionKey(dateKst: int, exceptionType: ExceptionType, runId: string, message: Message)

  /** An exception row with the run that raised it. */
  datatype RunException = RunException(exception: LedgerException, runId: string)

  function KeyOfException(e: LedgerException, runId: string): ExceptionKey {
    ExceptionKey(e.dateKst, e.exceptionType, runId, e.message)
  }

  function ExceptionOf(s: seq<WalletRecord>, ledger: seq<LedgerRecord>, tags: map<int, Option<string>>,
                       rule: Option<Rule>, d: int, u: string): Option<LedgerException> {
    if BoundsFor(s, u, d).None? then None else ReconException(ReconRowFor(s, ledger, d, u, DateTag(tags, d)), rule)
  }

  ghost function ReconExceptionKeys(s: seq<WalletRecord>, ledger: seq<LedgerRecord>, tags: map<int, Option<string>>,
                                    rule: Option<Rule>, runId: string, ds: set<int>): set<ExceptionKey> {
    set d, u | d in ds && u in Users(s, d) && ExceptionOf(s, ledger, tags, rule, d, u).Some? ::
      KeyOfException(ExceptionOf(s, ledger, tags, rule, d, u).value, runId)
  }

  ghost function ReconExceptionOut(s: seq<WalletRecord>, ledger: seq<LedgerRecord>, tags: map<int, Option<string>>,
                                   rule: Option<Rule>, runId: string): set<int> -> map<ExceptionKey, RunException> {
    (ds: set<int>) => map k | k in ReconExceptionKeys(s, ledger, tags, rule, runId, ds) ::
      RunException(ExceptionOf(s, ledger, tags, rule, k.dateKst, k.message.userId).value, runId)
  }

  /** The exceptions of a supply row, by merge key. */
  ghost predicate SupplyRaises(s: seq<WalletRecord>, ledger: seq<LedgerRecord>, rule: Option<Rule>, d: int) {
    SupplyException(SupplyRowFor(s, ledger, d, rule), rule) != []
  }

  ghost function SupplyExceptionOut(s: seq<WalletRecord>, ledger: seq<LedgerRecord>, rule: Option<Rule>,
                                    runId: string): set<int> -> map<ExceptionKey, RunException> {
    (ds: set<int>) =>
      map k | k in (set d | d in ds && SupplyRaises(s, ledger, rule, d) ::
                      KeyOfException(SupplyException(SupplyRowFor(s, ledger, d, rule), rule)[0], runId))
        :: RunException(SupplyException(SupplyRowFor(s, ledger, k.dateKst, rule), rule)[0], runId)
  }

  function ReconDate(): ((int, string)) -> int { (k: (int, string)) => k.0 }
  function SupplyDateOf(): int -> int { (d: int) => d }
  function ExceptionDate(): ExceptionKey -> int { (k: ExceptionKey) => k.dateKst }

  lemma {:induction false} ReconOutIsDateLocal(s: seq<WalletRecord>, ledger: seq<LedgerRecord>,
                                               tags: map<int, Option<string>>)
    ensures DateLocal(ReconOut(s, ledger, tags), ReconDate())
  {
  }

  lemma {:induction false} SupplyOutIsDateLocal(s: seq<WalletRecord>, ledger: seq<LedgerRecord>, rule: Option<Rule>)
    ensures DateLocal(SupplyOut(s, ledger, rule), SupplyDateOf())
  {
  }

  /** A key of the exception output names the day and the user it came from. */
  lemma {:induction false} ExceptionKeyIs(s: seq<WalletRecord>, ledger: seq<LedgerRecord>,
                                          tags: map<int, Option<string>>, rule: Option<Rule>, runId: string,
                                          ds: set<int>, k: ExceptionKey)
    ensures k in ReconExceptionKeys(s, ledger, tags, rule, runId, ds)
            <==> && k.dateKst in ds && k.message.ReconMessage? && k.message.userId in Users(s, k.dateKst)
                 && ExceptionOf(s, ledger, tags, rule, k.dateKst, k.message.userId).Some?
                 && k == KeyOfException(ExceptionOf(s, ledger, tags, rule, k.dateKst, k.message.userId).value, runId)
  {
  }

  lemma {:induction false} ExceptionOutIsDateLocal(s: seq<WalletRecord>, ledger: seq<LedgerRecord>,
                                                   tags: map<int, Option<string>>, rule: Option<Rule>, runId: string)
    ensures DateLocal(ReconExceptionOut(s, ledger, tags, rule, runId), ExceptionDate())
  {
    var out := ReconExceptionOut(s, ledger, tags, rule, runId);
    forall ds, es, k | k in out(ds)
      ensures ExceptionDate()(k) in ds
      ensures ExceptionDate()(k) in es ==> k in out(es) && out(es)[k] == out(ds)[k]
    {
      ExceptionKeyIs(s, ledger, tags, rule, runId, ds, k);
      ExceptionKeyIs(s, ledger, tags, rule, runId, es, k);
    }
  }

  // ----- The plan writes exactly these outputs --------------------------------------------------

  function ReconMergeKey(): KeyOf<ReconRow, (int, string)> { (r: ReconRow) => Some((r.dateKst, r.userId)) }

  /** Whatever execution the engine chooses, the reconciliation table it hands to the merge is
      keyed, and as a map it is the output above. */
  lemma {:induction false} PlanWritesReconOut(s: seq<WalletRecord>, ledger: seq<LedgerRecord>, dates: set<int>,
                                              starts: seq<SnapRow>, ends: seq<SnapRow>, net: seq<((int, string), int)>,
                                              tags: map<int, Option<string>>)
    requires CleanUsers(s) && CleanWallets(ledger) && ReconExecution(s, ledger, dates, starts, ends, net)
    requires forall u, e | e in dates :: TiesAgree(s, u, e)
    ensures Keyed(ReconPlan(starts, ends, net, tags), ReconMergeKey())
    ensures AsMap(ReconPlan(starts, ends, net, tags), ReconMergeKey()) == ReconOut(s, ledger, tags)(dates)
  {
    PlanIsKeyed(s, ledger, dates, starts, ends, net, tags);
    var left, right := AsMap(ReconPlan(starts, ends, net, tags), ReconMergeKey()), ReconOut(s, ledger, tags)(dates);
    forall k | k in left
      ensures k in right && left[k] == right[k]
    {
      assert TiesAgree(s, k.1, k.0) || k.0 !in dates;
      PlanEntry(s, ledger, dates, starts, ends, net, tags, k);
    }
    forall k | k in right
      ensures k in left
    {
      PlanHasKey(s, ledger, dates, starts, ends, net, tags, k.0, k.1);
    }
    assert left.Keys == right.Keys;
  }

  lemma {:induction false} PlanEntry(s: seq<WalletRecord>, ledger: seq<LedgerRecord>, dates: set<int>,
                                     starts: seq<SnapRow>, ends: seq<SnapRow>, net: seq<((int, string), int)>,
                                     tags: map<int, Option<string>>, k: (int, string))
    requires CleanUsers(s) && CleanWallets(ledger) && ReconExecution(s, ledger, dates, starts, ends, net)
    requires Keyed(ReconPlan(starts, ends, net, tags), ReconMergeKey())
    requires k in AsMap(ReconPlan(starts, ends, net, tags), ReconMergeKey())
    requires TiesAgree(s, k.1, k.0) || k.0 !in dates
    ensures k in ReconKeys(s, dates)
    ensures AsMap(ReconPlan(starts, ends, net, tags), ReconMergeKey())[k]
            == ReconRowFor(s, ledger, k.0, k.1, DateTag(tags, k.0))
  {
    var plan := ReconPlan(starts, ends, net, tags);
    AsMapIs(plan, ReconMergeKey());
    var row := AsMap(plan, ReconMergeKey())[k];
    assert row in plan && row.dateKst == k.0 && row.userId == k.1;
    ReconPlanKeysDistinct(s, ledger, dates, starts, ends, net, tags);
    var i :| 0 <= i < |plan| && plan[i] == row;
    PlanKeyOfStart(s, ledger, dates, starts, ends, net, tags, i);
    var i0 := StartRowIsPossible(s, dates, starts, ends, starts[i]);
    PlanRowIsLoopRow(s, ledger, dates, starts, ends, net, tags, row);
  }

  lemma {:induction false} PlanIsKeyed(s: seq<WalletRecord>, ledger: seq<LedgerRecord>, dates: set<int>,
                                       starts: seq<SnapRow>, ends: seq<SnapRow>, net: seq<((int, string), int)>,
                                       tags: map<int, Option<string>>)
    requires ReconExecution(s, ledger, dates, starts, ends, net)
    ensures Keyed(ReconPlan(starts, ends, net, tags), ReconMergeKey())
  {
    var plan := ReconPlan(starts, ends, net, tags);
    ReconPlanKeysDistinct(s, ledger, dates, starts, ends, net, tags);
    forall i, j | 0 <= i < j < |plan|
      ensures ReconMergeKey()(plan[i]) != ReconMergeKey()(plan[j])
    {
      assert ReconKey()(plan[i]) != ReconKey()(plan[j]);
    }
  }

  lemma {:induction false} PlanHasKey(s: seq<WalletRecord>, ledger: seq<LedgerRecord>, dates: set<int>,
                                      starts: seq<SnapRow>, ends: seq<SnapRow>, net: seq<((int, string), int)>,
                                      tags: map<int, Option<string>>, d: int, u: string)
    requires CleanUsers(s) && CleanWallets(ledger) && ReconExecution(s, ledger, dates, starts, ends, net)
    requires d in dates && u in Users(s, d) && TiesAgree(s, u, d)
    requires Keyed(ReconPlan(starts, ends, net, tags), ReconMergeKey())
    ensures (d, u) in AsMap(ReconPlan(starts, ends, net, tags), ReconMergeKey())
  {
    var plan := ReconPlan(starts, ends, net, tags);
    var row := ReconRowFor(s, ledger, d, u, DateTag(tags, d));
    LoopRowIsPlanRow(s, ledger, dates, starts, ends, net, tags, d, row);
    var i :| 0 <= i < |plan| && plan[i] == row;
    AsMapIs(plan, ReconMergeKey());
    assert ReconMergeKey()(plan[i]) == Some((d, u));
  }

  // ----- The exceptions the plan writes ---------------------------------------------------------

  function ExceptionMergeKey(): KeyOf<RunException, ExceptionKey> {
    (e: RunException) => Some(KeyOfException(e.exception, e.runId))
  }

  function OfRun(e: Option<LedgerException>, runId: string): Option<RunException> {
    if e.Some? then Some(RunException(e.value, runId)) else None
  }

  function Raised(rule: Option<Rule>, runId: string): ReconRow -> Option<RunException> {
    (row: ReconRow) => OfRun(PlanException(row, rule), runId)
  }

  /** The exceptions of the plan's table. */
  function PlanExceptions(rows: seq<ReconRow>, rule: Option<Rule>, runId: string): seq<RunException> {
    Collect(rows, Raised(rule, runId))
  }

  lemma {:induction false} PlanExceptionsAreKeyed(rows: seq<ReconRow>, rule: Option<Rule>, runId: string)
    requires Keyed(rows, ReconMergeKey())
    ensures Keyed(PlanExceptions(rows, rule, runId), ExceptionMergeKey())
  {
    forall i, j | 0 <= i < j < |rows| && Raised(rule, runId)(rows[i]).Some? && Raised(rule, runId)(rows[j]).Some?
      ensures ExceptionMergeKey()(Raised(rule, runId)(rows[i]).value)
              != ExceptionMergeKey()(Raised(rule, runId)(rows[j]).value)
    {
      assert ReconMergeKey()(rows[i]) != ReconMergeKey()(rows[j]);
    }
    CollectedUniqueIff(rows, Raised(rule, runId), ExceptionMergeKey());
  }

  /** The exceptions the plan hands to the merge are keyed, and by key they are the loop's. */
  lemma {:induction false} PlanWritesExceptionOut(s: seq<WalletRecord>, ledger: seq<LedgerRecord>, dates: set<int>,
                                                  starts: seq<SnapRow>, ends: seq<SnapRow>,
                                                  net: seq<((int, string), int)>, tags: map<int, Option<string>>,
                                                  rule: Option<Rule>, runId: string)
    requires CleanUsers(s) && CleanWallets(ledger) && ReconExecution(s, ledger, dates, starts, ends, net)
    requires forall u, e | e in dates :: TiesAgree(s, u, e)
    ensures Hands(PlanExceptions(ReconPlan(starts, ends, net, tags), rule, runId), ExceptionMergeKey(),
                  ReconExceptionOut(s, ledger, tags, rule, runId), dates)
  {
    var plan, key := ReconPlan(starts, ends, net, tags), ExceptionMergeKey();
    var raised, out := PlanExceptions(plan, rule, runId), ReconExceptionOut(s, ledger, tags, rule, runId)(dates);
    PlanIsKeyed(s, ledger, dates, starts, ends, net, tags);
    PlanExceptionsAreKeyed(plan, rule, runId);
    forall i | 0 <= i < |raised|
      ensures key(raised[i]).value in out && out[key(raised[i]).value] == raised[i]
    {
      var row := RaisingRow(plan, rule, runId, raised[i]);
      RowExceptionIsOut(s, ledger, dates, starts, ends, net, tags, rule, runId, row, raised[i].exception);
    }
    forall k | k in out
      ensures HoldsKey(raised, key, Some(k))
    {
      OutExceptionIsRaised(s, ledger, dates, starts, ends, net, tags, rule, runId, k);
    }
    KeyedRowsAre(raised, key, out);
  }

  lemma {:induction false} RaisingRow(rows: seq<ReconRow>, rule: Option<Rule>, runId: string, e: RunException)
    returns (row: ReconRow)
    requires e in PlanExceptions(rows, rule, runId)
    ensures row in rows && PlanException(row, rule) == Some(e.exception) && e.runId == runId
  {
    CollectHas(rows, Raised(rule, runId), e);
    row :| row in rows && Raised(rule, runId)(row) == Some(e);
  }

  lemma {:induction false} RowExceptionIsOut(s: seq<WalletRecord>, ledger: seq<LedgerRecord>, dates: set<int>,
                                             starts: seq<SnapRow>, ends: seq<SnapRow>, net: seq<((int, string), int)>,
                                             tags: map<int, Option<string>>, rule: Option<Rule>, runId: string,
                                             row: ReconRow, e: LedgerException)
    requires CleanUsers(s) && CleanWallets(ledger) && ReconExecution(s, ledger, dates, starts, ends, net)
    requires TiesAgree(s, row.userId, row.dateKst)
             || (row.dateKst !in dates)
    requires row in ReconPlan(starts, ends, net, tags) && PlanException(row, rule) == Some(e)
    ensures var k := KeyOfException(e, runId);
            var out := ReconExceptionOut(s, ledger, tags, rule, runId)(dates);
            k in out && out[k] == RunException(e, runId)
  {
    ReconPlanKeysDistinct(s, ledger, dates, starts, ends, net, tags);
    var plan := ReconPlan(starts, ends, net, tags);
    var i :| 0 <= i < |plan| && plan[i] == row;
    PlanKeyOfStart(s, ledger, dates, starts, ends, net, tags, i);
    var i0 := StartRowIsPossible(s, dates, starts, ends, starts[i]);
    PlanRowIsLoopRow(s, ledger, dates, starts, ends, net, tags, row);
    SeveritiesAgree(row.driftAbs, rule);
    assert ExceptionOf(s, ledger, tags, rule, row.dateKst, row.userId) == Some(e);
    ExceptionKeyIs(s, ledger, tags, rule, runId, dates, KeyOfException(e, runId));
  }

  lemma {:induction false} OutExceptionIsRaised(s: seq<WalletRecord>, ledger: seq<LedgerRecord>, dates: set<int>,
                                                starts: seq<SnapRow>, ends: seq<SnapRow>,
                                                net: seq<((int, string), int)>, tags: map<int, Option<string>>,
                                                rule: Option<Rule>, runId: string, k: ExceptionKey)
    requires CleanUsers(s) && CleanWallets(ledger) && ReconExecution(s, ledger, dates, starts, ends, net)
    requires forall u, e | e in dates :: TiesAgree(s, u, e)
    requires k in ReconExceptionOut(s, ledger, tags, rule, runId)(dates)
    ensures HoldsKey(PlanExceptions(ReconPlan(starts, ends, net, tags), rule, runId), ExceptionMergeKey(), Some(k))
  {
    ExceptionKeyIs(s, ledger, tags, rule, runId, dates, k);
    var d, u := k.dateKst, k.message.userId;
    var row := ReconRowFor(s, ledger, d, u, DateTag(tags, d));
    LoopRowIsPlanRow(s, ledger, dates, starts, ends, net, tags, d, row);
    SeveritiesAgree(row.driftAbs, rule);
    var e := RunException(ExceptionOf(s, ledger, tags, rule, d, u).value, runId);
    var plan := ReconPlan(starts, ends, net, tags);
    assert Raised(rule, runId)(row) == Some(e);
    CollectHas(plan, Raised(rule, runId), e);
    var i :| 0 <= i < |PlanExceptions(plan, rule, runId)| && PlanExceptions(plan, rule, runId)[i] == e;
    assert ExceptionMergeKey()(PlanExceptions(plan, rule, runId)[i]) == Some(k);
  }

  // ----- The supply table the plan writes ---------------------------------------------------------

  function SupplyMergeKey(): KeyOf<SupplyRow, int> { (r: SupplyRow) => Some(r.dateKst) }

  ghost predicate SupplyExecution(s: seq<WalletRecord>, ledger: seq<LedgerRecord>, dates: set<int>,
                                  starts: seq<SnapRow>, ends: seq<SnapRow>, daily: seq<(int, int)>,
                                  totals: seq<(int, int)>) {
    BoundRows(s, dates, starts, ends) && DailySupply(ledger, daily) && WalletTotals(WalletBounds(starts, ends), totals)
  }

  /** The target dates as the plan lists them: each once. */
  ghost predicate ListsDates(days: seq<int>, dates: set<int>) {
    && (forall i, j | 0 <= i < j < |days| :: days[i] != days[j])
    && (forall d :: d in days <==> d in dates)
  }

  lemma {:induction false} DatesListed(dates: set<int>) returns (days: seq<int>)
    ensures ListsDates(days, dates)
    decreases dates
  {
    if d :| d in dates {
      days := DatesListed(dates - {d});
      days := days + [d];
      assert dates == dates - {d} + {d};
    } else {
      days := [];
    }
  }

  lemma {:induction false} PlanWritesSupplyOut(s: seq<WalletRecord>, ledger: seq<LedgerRecord>, dates: set<int>,
                                               starts: seq<SnapRow>, ends: seq<SnapRow>, daily: seq<(int, int)>,
                                               totals: seq<(int, int)>, days: seq<int>, rule: Option<Rule>)
    requires CleanUsers(s) && SupplyExecution(s, ledger, dates, starts, ends, daily, totals) && ListsDates(days, dates)
    requires forall u, e | e in dates :: TiesAgree(s, u, e)
    requires forall i | 0 <= i < |ledger| :: SameEntryType(ledger[i])
    ensures forall i | 0 <= i < |days| ::
            SupplyPlanTable(daily, totals, days, rule)[i] == SupplyRowFor(s, ledger, days[i], rule)
    ensures Hands(SupplyPlanTable(daily, totals, days, rule), SupplyMergeKey(), SupplyOut(s, ledger, rule), dates)
  {
    var table, out := SupplyPlanTable(daily, totals, days, rule), SupplyOut(s, ledger, rule)(dates);
    forall i | 0 <= i < |days|
      ensures table[i] == SupplyRowFor(s, ledger, days[i], rule) && days[i] in dates
    {
      assert days[i] in days;
      SupplyPlanRefinesLoop(s, ledger, dates, starts, ends, daily, totals, days[i], rule);
    }
    forall k | k in out
      ensures HoldsKey(table, SupplyMergeKey(), Some(k))
    {
      var i :| 0 <= i < |days| && days[i] == k;
      assert SupplyMergeKey()(table[i]) == Some(k);
    }
    KeyedRowsAre(table, SupplyMergeKey(), out);
  }

  function SupplyRaised(rule: Option<Rule>, runId: string): SupplyRow -> Option<RunException> {
    (row: SupplyRow) => OfRun(PlanSupplyException(row, rule), runId)
  }

  function PlanSupplyExceptions(rows: seq<SupplyRow>, rule: Option<Rule>, runId: string): seq<RunException> {
    Collect(rows, SupplyRaised(rule, runId))
  }

  lemma {:induction false} PlanSupplyExceptionsAreKeyed(rows: seq<SupplyRow>, rule: Option<Rule>, runId: string)
    requires Keyed(rows, SupplyMergeKey())
    ensures Keyed(PlanSupplyExceptions(rows, rule, runId), ExceptionMergeKey())
  {
    forall i, j | 0 <= i < j < |rows| && SupplyRaised(rule, runId)(rows[i]).Some?
        && SupplyRaised(rule, runId)(rows[j]).Some?
      ensures ExceptionMergeKey()(SupplyRaised(rule, runId)(rows[i]).value)
              != ExceptionMergeKey()(SupplyRaised(rule, runId)(rows[j]).value)
    {
      assert SupplyMergeKey()(rows[i]) != SupplyMergeKey()(rows[j]);
    }
    CollectedUniqueIff(rows, SupplyRaised(rule, runId), ExceptionMergeKey());
  }

  lemma {:induction false} SupplyRowRaises(s: seq<WalletRecord>, ledger: seq<LedgerRecord>, rule: Option<Rule>,
                                           runId: string, d: int)
    ensures var row := SupplyRowFor(s, ledger, d, rule);
            && (SupplyRaised(rule, runId)(row).Some? <==> SupplyRaises(s, ledger, rule, d))
            && (SupplyRaised(rule, runId)(row).Some? ==>
                  && SupplyRaised(rule, runId)(row).value == RunException(SupplyException(row, rule)[0], runId)
                  && SupplyException(row, rule)[0].dateKst == d)
  {
    SupplyExceptionsAgree(SupplyRowFor(s, ledger, d, rule), rule);
  }

  /** A table of the loop's supply rows for the listed dates. */
  ghost predicate HoldsSupplyRows(s: seq<WalletRecord>, ledger: seq<LedgerRecord>, dates: set<int>, days: seq<int>,
                                  table: seq<SupplyRow>, rule: Option<Rule>) {
    && ListsDates(days, dates) && |table| == |days|
    && forall i | 0 <= i < |days| :: table[i] == SupplyRowFor(s, ledger, days[i], rule)
  }

  lemma {:induction false} RaisedSupplyIsOut(s: seq<WalletRecord>, ledger: seq<LedgerRecord>, dates: set<int>,
                                             days: seq<int>, table: seq<SupplyRow>, rule: Option<Rule>, runId: string,
                                             e: RunException)
    requires HoldsSupplyRows(s, ledger, dates, days, table, rule) && e in PlanSupplyExceptions(table, rule, runId)
    ensures var out := SupplyExceptionOut(s, ledger, rule, runId)(dates);
            ExceptionMergeKey()(e).value in out && out[ExceptionMergeKey()(e).value] == e
  {
    CollectHas(table, SupplyRaised(rule, runId), e);
    var row :| row in table && SupplyRaised(rule, runId)(row) == Some(e);
    var n :| 0 <= n < |table| && table[n] == row;
    assert days[n] in days;
    SupplyRowRaises(s, ledger, rule, runId, days[n]);
  }

  lemma {:induction false} OutSupplyIsRaised(s: seq<WalletRecord>, ledger: seq<LedgerRecord>, dates: set<int>,
                                             days: seq<int>, table: seq<SupplyRow>, rule: Option<Rule>, runId: string,
                                             k: ExceptionKey)
    requires HoldsSupplyRows(s, ledger, dates, days, table, rule)
             && k in SupplyExceptionOut(s, ledger, rule, runId)(dates)
    ensures HoldsKey(PlanSupplyExceptions(table, rule, runId), ExceptionMergeKey(), Some(k))
  {
    var raised := PlanSupplyExceptions(table, rule, runId);
    var d :| d in dates && SupplyRaises(s, ledger, rule, d)
             && k == KeyOfException(SupplyException(SupplyRowFor(s, ledger, d, rule), rule)[0], runId);
    SupplyRowRaises(s, ledger, rule, runId, d);
    var n :| 0 <= n < |days| && days[n] == d;
    var e := RunException(SupplyException(SupplyRowFor(s, ledger, d, rule), rule)[0], runId);
    assert table[n] in table && SupplyRaised(rule, runId)(table[n]) == Some(e);
    CollectHas(table, SupplyRaised(rule, runId), e);
    var i :| 0 <= i < |raised| && raised[i] == e;
    assert ExceptionMergeKey()(raised[i]) == Some(k);
  }

  lemma {:induction false} PlanWritesSupplyExceptionOut(s: seq<WalletRecord>, ledger: seq<LedgerRecord>,
                                                        dates: set<int>, starts: seq<SnapRow>, ends: seq<SnapRow>,
                                                        daily: seq<(int, int)>, totals: seq<(int, int)>, days: seq<int>,
                                                        rule: Option<Rule>, runId: string)
    requires CleanUsers(s) && SupplyExecution(s, ledger, dates, starts, ends, daily, totals) && ListsDates(days, dates)
    requires forall u, e | e in dates :: TiesAgree(s, u, e)
    requires forall i | 0 <= i < |ledger| :: SameEntryType(ledger[i])
    ensures Hands(PlanSupplyExceptions(SupplyPlanTable(daily, totals, days, rule), rule, runId), ExceptionMergeKey(),
                  SupplyExceptionOut(s, ledger, rule, runId), dates)
  {
    var table, key := SupplyPlanTable(daily, totals, days, rule), ExceptionMergeKey();
    var raised, out := PlanSupplyExceptions(table, rule, runId), SupplyExceptionOut(s, ledger, rule, runId)(dates);
    PlanWritesSupplyOut(s, ledger, dates, starts, ends, daily, totals, days, rule);
    PlanSupplyExceptionsAreKeyed(table, rule, runId);
    forall i | 0 <= i < |raised|
      ensures key(raised[i]).value in out && out[key(raised[i]).value] == raised[i]
    {
      RaisedSupplyIsOut(s, ledger, dates, days, table, rule, runId, raised[i]);
    }
    forall k | k in out
      ensures HoldsKey(raised, key, Some(k))
    {
      OutSupplyIsRaised(s, ledger, dates, days, table, rule, runId, k);
    }
    KeyedRowsAre(raised, key, out);
  }

  lemma {:induction false} SupplyExceptionOutIsDateLocal(s: seq<WalletRecord>, ledger: seq<LedgerRecord>,
                                                         rule: Option<Rule>, runId: string)
    ensures DateLocal(SupplyExceptionOut(s, ledger, rule, runId), ExceptionDate())
  {
  }

  // ----- Backfills of Pipeline B --------------------------------------------------------------------

  /** One execution of both plans over a set of dates. */
  datatype PlanRun = PlanRun(dates: set<int>, days: seq<int>, starts: seq<SnapRow>, ends: seq<SnapRow>,
                             net: seq<((int, string), int)>, daily: seq<(int, int)>, totals: seq<(int, int)>)

  ghost predicate Executes(s: seq<WalletRecord>, ledger: seq<LedgerRecord>, run: PlanRun) {
    && ReconExecution(s, ledger, run.dates, run.starts, run.ends, run.net)
    && SupplyExecution(s, ledger, run.dates, run.starts, run.ends, run.daily, run.totals)
    && ListsDates(run.days, run.dates)
  }

  /** Over any tables and dates there is an execution of both plans. */
  lemma {:induction false} PlanRunExists(s: seq<WalletRecord>, ledger: seq<LedgerRecord>, dates: set<int>)
    returns (run: PlanRun)
    ensures Executes(s, ledger, run) && run.dates == dates
  {
    var starts, ends, net := ReconExecutionExists(s, ledger, dates);
    var daily, totals := SupplyExecutionExists(ledger, WalletBounds(starts, ends));
    var days := DatesListed(dates);
    run := PlanRun(dates, days, starts, ends, net, daily, totals);
  }

  function RunDates(runs: seq<PlanRun>): (r: seq<set<int>>)
    ensures |r| == |runs|
  {
    seq(|runs|, i requires 0 <= i < |runs| => runs[i].dates)
  }

  /** The rows the runs of a backfill hand to the four merges. */
  function ReconTables(runs: seq<PlanRun>, tags: map<int, Option<string>>): seq<seq<ReconRow>> {
    seq(|runs|, i requires 0 <= i < |runs| => ReconPlan(runs[i].starts, runs[i].ends, runs[i].net, tags))
  }

  function SupplyTables(runs: seq<PlanRun>, rule: Option<Rule>): seq<seq<SupplyRow>> {
    seq(|runs|, i requires 0 <= i < |runs| => SupplyPlanTable(runs[i].daily, runs[i].totals, runs[i].days, rule))
  }

  function ExceptionTables(runs: seq<PlanRun>, tags: map<int, Option<string>>, rule: Option<Rule>,
                           runId: string): seq<seq<RunException>> {
    seq(|runs|, i requires 0 <= i < |runs| =>
      PlanExceptions(ReconPlan(runs[i].starts, runs[i].ends, runs[i].net, tags), rule, runId))
  }

  function SupplyExceptionTables(runs: seq<PlanRun>, rule: Option<Rule>, runId: string): seq<seq<RunException>> {
    seq(|runs|, i requires 0 <= i < |runs| =>
      PlanSupplyExceptions(SupplyPlanTable(runs[i].daily, runs[i].totals, runs[i].days, rule), rule, runId))
  }

  /** Backfilling range by range, through any executions of the plans and through the merges of the
      stored tables: no merge is refused, and each table ends as after one run over all the dates. */
  lemma {:induction false} ReconBackfillsConverge(table: Option<seq<ReconRow>>, s: seq<WalletRecord>,
                                                  ledger: seq<LedgerRecord>, tags: map<int, Option<string>>,
                                                  runs: seq<PlanRun>)
    requires CleanUsers(s) && CleanWallets(ledger) && forall i | 0 <= i < |runs| :: Executes(s, ledger, runs[i])
    requires forall i, u, e | 0 <= i < |runs| && e in runs[i].dates :: TiesAgree(s, u, e)
    requires KeyedTable(table, ReconMergeKey())
    ensures Converges(table, ReconTables(runs, tags), ReconMergeKey(), ReconOut(s, ledger, tags), RunDates(runs))
  {
    ReconOutIsDateLocal(s, ledger, tags);
    forall i | 0 <= i < |runs|
      ensures Hands(ReconTables(runs, tags)[i], ReconMergeKey(), ReconOut(s, ledger, tags), RunDates(runs)[i])
    {
      PlanWritesReconOut(s, ledger, runs[i].dates, runs[i].starts, runs[i].ends, runs[i].net, tags);
    }
    StoredBackfillsConverge(table, ReconTables(runs, tags), ReconMergeKey(), ReconOut(s, ledger, tags), ReconDate(),
        RunDates(runs));
  }

  lemma {:induction false} SupplyBackfillsConverge(table: Option<seq<SupplyRow>>, s: seq<WalletRecord>,
                                                   ledger: seq<LedgerRecord>, rule: Option<Rule>, runs: seq<PlanRun>)
    requires CleanUsers(s) && forall i | 0 <= i < |runs| :: Executes(s, ledger, runs[i])
    requires forall i, u, e | 0 <= i < |runs| && e in runs[i].dates :: TiesAgree(s, u, e)
    requires forall i | 0 <= i < |ledger| :: SameEntryType(ledger[i])
    requires KeyedTable(table, SupplyMergeKey())
    ensures Converges(table, SupplyTables(runs, rule), SupplyMergeKey(), SupplyOut(s, ledger, rule), RunDates(runs))
  {
    SupplyOutIsDateLocal(s, ledger, rule);
    forall i | 0 <= i < |runs|
      ensures Hands(SupplyTables(runs, rule)[i], SupplyMergeKey(), SupplyOut(s, ledger, rule), RunDates(runs)[i])
    {
      PlanWritesSupplyOut(s, ledger, runs[i].dates, runs[i].starts, runs[i].ends, runs[i].daily, runs[i].totals,
          runs[i].days, rule);
    }
    StoredBackfillsConverge(table, SupplyTables(runs, rule), SupplyMergeKey(), SupplyOut(s, ledger, rule),
        SupplyDateOf(), RunDates(runs));
  }

  lemma {:induction false} ExceptionBackfillsConverge(table: Option<seq<RunException>>, s: seq<WalletRecord>,
                                                      ledger: seq<LedgerRecord>, tags: map<int, Option<string>>,
                                                      rule: Option<Rule>, runId: string, runs: seq<PlanRun>)
    requires CleanUsers(s) && CleanWallets(ledger) && forall i | 0 <= i < |runs| :: Executes(s, ledger, runs[i])
    requires forall i, u, e | 0 <= i < |runs| && e in runs[i].dates :: TiesAgree(s, u, e)
    requires KeyedTable(table, ExceptionMergeKey())
    ensures Converges(table, ExceptionTables(runs, tags, rule, runId), ExceptionMergeKey(),
                      ReconExceptionOut(s, ledger, tags, rule, runId), RunDates(runs))
  {
    var out := ReconExceptionOut(s, ledger, tags, rule, runId);
    ExceptionOutIsDateLocal(s, ledger, tags, rule, runId);
    forall i | 0 <= i < |runs|
      ensures Hands(ExceptionTables(runs, tags, rule, runId)[i], ExceptionMergeKey(), out, RunDates(runs)[i])
    {
      PlanWritesExceptionOut(s, ledger, runs[i].dates, runs[i].starts, runs[i].ends, runs[i].net, tags, rule, runId);
    }
    StoredBackfillsConverge(table, ExceptionTables(runs, tags, rule, runId), ExceptionMergeKey(), out, ExceptionDate(),
        RunDates(runs));
  }

  lemma {:induction false} SupplyExceptionBackfillsConverge(table: Option<seq<RunException>>, s: seq<WalletRecord>,
                                                            ledger: seq<LedgerRecord>, rule: Option<Rule>,
                                                            runId: string, runs: seq<PlanRun>)
    requires CleanUsers(s) && forall i | 0 <= i < |runs| :: Executes(s, ledger, runs[i])
    requires forall i, u, e | 0 <= i < |runs| && e in runs[i].dates :: TiesAgree(s, u, e)
    requires forall i | 0 <= i < |ledger| :: SameEntryType(ledger[i])
    requires KeyedTable(table, ExceptionMergeKey())
    ensures Converges(table, SupplyExceptionTables(runs, rule, runId), ExceptionMergeKey(),
                      SupplyExceptionOut(s, ledger, rule, runId), RunDates(runs))
  {
    var out := SupplyExceptionOut(s, ledger, rule, runId);
    SupplyExceptionOutIsDateLocal(s, ledger, rule, runId);
    forall i | 0 <= i < |runs|
      ensures Hands(SupplyExceptionTables(runs, rule, runId)[i], ExceptionMergeKey(), out, RunDates(runs)[i])
    {
      PlanWritesSupplyExceptionOut(s, ledger, runs[i].dates, runs[i].starts, runs[i].ends, runs[i].daily,
                                   runs[i].totals, runs[i].days, rule, runId);
    }
    StoredBackfillsConverge(table, SupplyExceptionTables(runs, rule, runId), ExceptionMergeKey(), out, ExceptionDate(),
        RunDates(runs));
  }
}
