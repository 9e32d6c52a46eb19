/** Pipeline B as a job of tasks: reconciliation and supply/ops run side by side, each attempt
    writes its gold tables one merge after another and may crash anywhere, crashed attempts are
    retried, and a finalize task commits the checkpoint. */
module TaskGraph {
  import opened Prelude
  import opened LedgerControls
  import opened PipelineState
  import opened Backfill

  // ----- Gold tables and writes ------------------------------------------------------------

  datatype Table = ReconDaily | SupplyBalance | OpsFailure | OpsRefund | PairingQuality | AdminTxSearch
                 | ExceptionLedger

  /** Merge keys, table by table. */
  datatype RowKey = DateUser(d: int, user: string) | Day(d: int) | DateMerchant(d: int, merchant: string)
                  | DateTx(d: int, tx: string) | Exception(key: ExceptionKey)

  /** All gold tables as one map. */
  type Gold<V> = map<(Table, RowKey), V>

  /** One merge: the rows a task writes to one table. */
  datatype Batch<V> = Batch(table: Table, rows: map<RowKey, V>)

  function Keys<V>(b: Batch<V>): set<(Table, RowKey)> {
    set k | k in b.rows :: (b.table, k)
  }

  function Tagged<V>(b: Batch<V>): Gold<V> {
    map k | k in Keys(b) :: b.rows[k.1]
  }

  function WriteAll<V>(gold: Gold<V>, batches: seq<Batch<V>>): Gold<V> {
    if batches == [] then gold else WriteAll(gold, batches[..|batches|-1]) + Tagged(batches[|batches|-1])
  }

  /** What a run with fixed inputs and run id writes: fixed outputs per table. */
  datatype Outputs<V> = Outputs(
    recon: map<RowKey, V>, reconExceptions: map<RowKey, V>,
    supply: map<RowKey, V>, opsFailure: map<RowKey, V>, opsRefund: map<RowKey, V>, pairing: map<RowKey, V>,
    adminTx: map<RowKey, V>, supplyExceptions: map<RowKey, V>)
  {
    /** Each control raises exceptions of its own type, and the type is part of the merge key. */
    predicate TypedExceptions() {
      && (forall k | k in reconExceptions :: k.Exception? && k.key.exceptionType == RECON_DRIFT_HIGH)
      && (forall k | k in supplyExceptions :: k.Exception? && k.key.exceptionType == SUPPLY_MISMATCH)
    }
  }

  datatype Task = Recon | SupplyOps

  /** The merges of a task, in the order the script makes them. */
  function Batches<V>(o: Outputs<V>, t: Task): seq<Batch<V>> {
    match t
    case Recon => [Batch(ReconDaily, o.recon), Batch(ExceptionLedger, o.reconExceptions)]
    case SupplyOps => [Batch(SupplyBalance, o.supply), Batch(OpsFailure, o.opsFailure), Batch(OpsRefund, o.opsRefund),
                       Batch(PairingQuality, o.pairing), Batch(AdminTxSearch, o.adminTx),
                       Batch(ExceptionLedger, o.supplyExceptions)]
  }

  /** The merges of the unsplit script: both controls, exceptions united at the end. */
  function AllBatches<V>(o: Outputs<V>): seq<Batch<V>> {
    [Batch(ReconDaily, o.recon), Batch(SupplyBalance, o.supply), Batch(OpsFailure, o.opsFailure),
     Batch(OpsRefund, o.opsRefund), Batch(PairingQuality, o.pairing), Batch(AdminTxSearch, o.adminTx),
     Batch(ExceptionLedger, o.reconExceptions + o.supplyExceptions)]
  }

  /** Everything a complete run writes. */
  function Total<V>(o: Outputs<V>): Gold<V> {
    WriteAll(WriteAll(map[], Batches(o, Recon)), Batches(o, SupplyOps))
  }

  // ----- No two merges disagree ----------------------------------------------------------------

  function Get<V>(rows: map<RowKey, V>, k: RowKey): Option<V> {
    if k in rows then Some(rows[k]) else None
  }

  /** What the outputs say about one key of one table. */
  function Lookup<V>(o: Outputs<V>, k: (Table, RowKey)): Option<V> {
    match k.0
    case ReconDaily => Get(o.recon, k.1)
    case SupplyBalance => Get(o.supply, k.1)
    case OpsFailure => Get(o.opsFailure, k.1)
    case OpsRefund => Get(o.opsRefund, k.1)
    case PairingQuality => Get(o.pairing, k.1)
    case AdminTxSearch => Get(o.adminTx, k.1)
    case ExceptionLedger => Get(o.reconExceptions + o.supplyExceptions, k.1)
  }

  /** A batch writes nothing but what the outputs say. */
  ghost predicate Agrees<V>(b: Batch<V>, o: Outputs<V>) {
    forall k | k in b.rows :: Lookup(o, (b.table, k)) == Some(b.rows[k])
  }

  /** Because the exception type is part of the key, the two tasks' exceptions share no key, and
      every merge of either task agrees with the outputs. */
  lemma {:induction false} BatchAgrees<V>(o: Outputs<V>, t: Task, i: nat)
    requires o.TypedExceptions() && i < |Batches(o, t)|
    ensures Agrees(Batches(o, t)[i], o)
  {
    if t == Recon && i == 1 {
      forall k | k in o.reconExceptions
        ensures k !in o.supplyExceptions
      {
      }
    }
  }

  ghost predicate WrittenBy<V>(batches: seq<Batch<V>>, k: (Table, RowKey)) {
    exists i :: 0 <= i < |batches| && k.0 == batches[i].table && k.1 in batches[i].rows
  }

  predicate SameAt<V(==)>(a: Gold<V>, b: Gold<V>, k: (Table, RowKey)) {
    (k in a <==> k in b) && (k in a && k in b ==> a[k] == b[k])
  }

  /** After any merges that agree with the outputs, a key has its output value if some merge
      wrote it, and its old value otherwise. */
  lemma {:induction false} WriteAllAt<V>(gold: Gold<V>, batches: seq<Batch<V>>, o: Outputs<V>, k: (Table, RowKey))
    requires forall i | 0 <= i < |batches| :: Agrees(batches[i], o)
    ensures if WrittenBy(batches, k) then k in WriteAll(gold, batches)
            && Lookup(o, k) == Some(WriteAll(gold, batches)[k])
            else SameAt(WriteAll(gold, batches), gold, k)
  {
    if batches != [] {
      var front, last := batches[..|batches|-1], batches[|batches|-1];
      assert forall i | 0 <= i < |front| :: front[i] == batches[i];
      WriteAllAt(gold, front, o, k);
      assert k in Tagged(last) <==> k.0 == last.table && k.1 in last.rows;
      if i :| 0 <= i < |front| && k.0 == front[i].table && k.1 in front[i].rows {
        assert k.0 == batches[i].table && k.1 in batches[i].rows;
      }
    }
  }

  /** The merges of a complete run, in some order, perhaps with repetitions. */
  ghost predicate Lists<V>(batches: seq<Batch<V>>, o: Outputs<V>) {
    && (forall i | 0 <= i < |batches| :: Agrees(batches[i], o))
    && (forall k {:trigger WrittenBy(batches, k)} | Lookup(o, k).Some? :: WrittenBy(batches, k))
  }

  lemma {:induction false} SameEverywhere<V>(a: Gold<V>, b: Gold<V>)
    requires forall k :: SameAt(a, b, k)
    ensures a == b
  {
    assert forall k | k in a :: SameAt(a, b, k);
    assert forall k | k in b :: SameAt(a, b, k);
    assert a.Keys == b.Keys;
  }

  /** Any listing of the outputs leaves the same tables as any other. */
  lemma {:induction false} ListingsAgree<V>(gold: Gold<V>, batches: seq<Batch<V>>, others: seq<Batch<V>>, o: Outputs<V>)
    requires Lists(batches, o) && Lists(others, o)
    ensures WriteAll(gold, batches) == gold + WriteAll(map[], others)
  {
    forall k
      ensures SameAt(WriteAll(gold, batches), gold + WriteAll(map[], others), k)
    {
      WriteAllAt(gold, batches, o, k);
      WriteAllAt(map[], others, o, k);
      WrittenIsLookup(batches, o, k);
      WrittenIsLookup(others, o, k);
    }
    SameEverywhere(WriteAll(gold, batches), gold + WriteAll(map[], others));
  }

  lemma {:induction false} WrittenIsLookup<V>(batches: seq<Batch<V>>, o: Outputs<V>, k: (Table, RowKey))
    requires Lists(batches, o)
    ensures WrittenBy(batches, k) <==> Lookup(o, k).Some?
  {
  }

  lemma {:induction false} WriteAllConcat<V>(gold: Gold<V>, a: seq<Batch<V>>, b: seq<Batch<V>>)
    ensures WriteAll(gold, a + b) == WriteAll(WriteAll(gold, a), b)
  {
    if b == [] {
      assert a + b == a;
    } else {
      assert (a + b)[..|a + b|-1] == a + b[..|b|-1];
      WriteAllConcat(gold, a, b[..|b|-1]);
    }
  }

  /** Where in a task's merges a key of the outputs is written. */
  function Place(table: Table, exceptionType: ExceptionType): (Task, nat) {
    match table
    case ReconDaily => (Recon, 0)
    case SupplyBalance => (SupplyOps, 0)
    case OpsFailure => (SupplyOps, 1)
    case OpsRefund => (SupplyOps, 2)
    case PairingQuality => (SupplyOps, 3)
    case AdminTxSearch => (SupplyOps, 4)
    case ExceptionLedger => if exceptionType == RECON_DRIFT_HIGH then (Recon, 1) else (SupplyOps, 5)
  }

  lemma {:induction false} PlaceWrites<V>(o: Outputs<V>, k: (Table, RowKey)) returns (t: Task, i: nat)
    requires o.TypedExceptions() && Lookup(o, k).Some?
    ensures i < |Batches(o, t)| && k.0 == Batches(o, t)[i].table && k.1 in Batches(o, t)[i].rows
  {
    var place := Place(k.0, if k.1.Exception? then k.1.key.exceptionType else RECON_DRIFT_HIGH);
    t, i := place.0, place.1;
  }

  lemma {:induction false} TaskOrdersList<V>(o: Outputs<V>, first: Task, second: Task)
    requires o.TypedExceptions() && first != second
    ensures Lists(Batches(o, first) + Batches(o, second), o)
  {
    var both := Batches(o, first) + Batches(o, second);
    forall i | 0 <= i < |both|
      ensures Agrees(both[i], o)
    {
      if i < |Batches(o, first)| { BatchAgrees(o, first, i); } else { BatchAgrees(o, second, i - |Batches(o, first)|); }
    }
    forall k | Lookup(o, k).Some?
      ensures WrittenBy(both, k)
    {
      var t, i := PlaceWrites(o, k);
      var n := if t == first then i else |Batches(o, first)| + i;
      assert both[n] == Batches(o, t)[i];
    }
  }

  lemma {:induction false} UnsplitLists<V>(o: Outputs<V>)
    ensures Lists(AllBatches(o), o)
  {
    forall k | Lookup(o, k).Some?
      ensures WrittenBy(AllBatches(o), k)
    {
      var n := match k.0
        case ReconDaily => 0 case SupplyBalance => 1 case OpsFailure => 2 case OpsRefund => 3
        case PairingQuality => 4 case AdminTxSearch => 5 case ExceptionLedger => 6;
      assert k.0 == AllBatches(o)[n].table && k.1 in AllBatches(o)[n].rows;
    }
  }

  /** The split job and the unsplit script leave the same tables, and the two tasks' merges
      commute. */
  lemma {:induction false} SplitMatchesUnsplit<V>(gold: Gold<V>, o: Outputs<V>)
    requires o.TypedExceptions()
    ensures WriteAll(gold, AllBatches(o)) == gold + Total(o)
    ensures WriteAll(WriteAll(gold, Batches(o, Recon)), Batches(o, SupplyOps)) == gold + Total(o)
    ensures WriteAll(WriteAll(gold, Batches(o, SupplyOps)), Batches(o, Recon)) == gold + Total(o)
  {
    var both, swapped := Batches(o, Recon) + Batches(o, SupplyOps), Batches(o, SupplyOps) + Batches(o, Recon);
    TaskOrdersList(o, Recon, SupplyOps);
    TaskOrdersList(o, SupplyOps, Recon);
    UnsplitLists(o);
    ListingsAgree(gold, both, both, o);
    ListingsAgree(gold, swapped, both, o);
    ListingsAgree(gold, AllBatches(o), both, o);
    WriteAllConcat(gold, Batches(o, Recon), Batches(o, SupplyOps));
    WriteAllConcat(gold, Batches(o, SupplyOps), Batches(o, Recon));
    WriteAllConcat(map[], Batches(o, Recon), Batches(o, SupplyOps));
  }

  // ----- The job as a state machine ---------------------------------------------------------------

  const MAX_RETRIES := 2

  datatype TaskState = Running(next: nat, attempt: nat) | Succeeded | Failed

  datatype World<V> = World(gold: Gold<V>, recon: TaskState, supplyOps: TaskState, state: Option<StateRecord>)
  {
    function Of(t: Task): TaskState { if t == Recon then recon else supplyOps }
    function With(t: Task, s: TaskState): World<V> { if t == Recon then this.(recon := s) else this.(supplyOps := s) }
  }

  datatype Action = Write(task: Task)           // the attempt makes its next merge
                  | Finish(task: Task)          // the attempt ends after its last merge
                  | CrashAttempt(task: Task)    // the attempt dies, at the gate or between merges
                  | FinalizeSuccess(now: int)   // runs when both tasks succeeded
                  | FinalizeFailure(now: int)   // runs when both ended and one failed
                  | Repair                      // the job is started again with the same run id

  /** The fixed parameters of the job run. */
  datatype Job<V> = Job(outputs: Outputs<V>, runId: string, processedEnd: int)

  function Step<V>(job: Job<V>, w: World<V>, a: Action): World<V> {
    match a
    case Write(t) =>
      var s, batches := w.Of(t), Batches(job.outputs, t);
      if s.Running? && s.next < |batches|
      then w.(gold := w.gold + Tagged(batches[s.next])).With(t, Running(s.next + 1, s.attempt))
      else w
    case Finish(t) =>
      if w.Of(t).Running? && w.Of(t).next >= |Batches(job.outputs, t)| then w.With(t, Succeeded) else w
    case CrashAttempt(t) =>
      if !w.Of(t).Running? then w
      else if w.Of(t).attempt < MAX_RETRIES then w.With(t, Running(0, w.Of(t).attempt + 1))
      else w.With(t, Failed)
    case FinalizeSuccess(now) =>
      if w.recon.Succeeded? && w.supplyOps.Succeeded?
      then w.(state := Some(ApplyPipelineState("pipeline_b", job.runId, Success, None, Some(job.processedEnd), now,
          NoText).value))
      else w
    case FinalizeFailure(now) =>
      if !w.recon.Running? && !w.supplyOps.Running? && (w.recon.Failed? || w.supplyOps.Failed?)
      then w.(state := Some(ApplyPipelineState("pipeline_b", job.runId, Failure, w.state, None, now, NoText).value))
      else w
    case Repair => w.(recon := Running(0, 0), supplyOps := Running(0, 0))
  }

  lemma {:induction false} StepWrites<V>(job: Job<V>, w: World<V>, t: Task, b: Batch<V>)
    requires w.Of(t).Running? && w.Of(t).next < |Batches(job.outputs, t)| && Batches(job.outputs, t)[w.Of(t).next] == b
    ensures Step(job, w, Write(t))
            == w.(gold := w.gold + Tagged(b)).With(t, Running(w.Of(t).next + 1, w.Of(t).attempt))
  {
  }

  lemma {:induction false} StepIgnoresGold<V>(job: Job<V>, w: World<V>, gold: Gold<V>, a: Action)
    requires !a.Write?
    ensures Step(job, w.(gold := gold), a) == Step(job, w, a).(gold := gold)
  {
  }

  function Run<V>(job: Job<V>, w: World<V>, actions: seq<Action>): World<V> {
    if actions == [] then w else Step(job, Run(job, w, actions[..|actions|-1]), actions[|actions|-1])
  }

  /** The gold tables hold everything a batch writes. */
  ghost predicate Holds<V>(gold: Gold<V>, b: Batch<V>) {
    forall k | k in b.rows :: (b.table, k) in gold && gold[(b.table, k)] == b.rows[k]
  }

  ghost predicate HoldsFirst<V>(gold: Gold<V>, batches: seq<Batch<V>>, n: nat) {
    n <= |batches| && forall i | 0 <= i < n :: Holds(gold, batches[i])
  }

  ghost predicate HoldsAll<V>(gold: Gold<V>, o: Outputs<V>, t: Task) {
    HoldsFirst(gold, Batches(o, t), |Batches(o, t)|)
  }

  /** Every gold row is either as it was before the job or as the job leaves it. */
  ghost predicate Between<V>(init: Gold<V>, o: Outputs<V>, gold: Gold<V>) {
    && (forall k | k in init :: k in gold)
    && (forall k | k in gold :: (k in init && gold[k] == init[k]) || Lookup(o, k) == Some(gold[k]))
  }

  function Progress<V>(job: Job<V>, w: World<V>, t: Task): nat {
    match w.Of(t)
    case Running(next, _) => if next <= |Batches(job.outputs, t)| then next else |Batches(job.outputs, t)|
    case Succeeded => |Batches(job.outputs, t)|
    case Failed => 0
  }

  predicate CommittedSuccess<V>(job: Job<V>, w: World<V>) {
    w.state.Some? && w.state.value.status.Success? && w.state.value.lastRunId == Some(job.runId)
  }

  ghost predicate Complete<V>(o: Outputs<V>, gold: Gold<V>) {
    HoldsAll(gold, o, Recon) && HoldsAll(gold, o, SupplyOps)
  }

  ghost predicate Inv<V>(job: Job<V>, init: Gold<V>, w: World<V>) {
    && Between(init, job.outputs, w.gold)
    && HoldsFirst(w.gold, Batches(job.outputs, Recon), Progress(job, w, Recon))
    && HoldsFirst(w.gold, Batches(job.outputs, SupplyOps), Progress(job, w, SupplyOps))
    && (CommittedSuccess(job, w) ==> Complete(job.outputs, w.gold))
  }

  lemma {:induction false} WriteKeepsBetween<V>(init: Gold<V>, o: Outputs<V>, gold: Gold<V>, b: Batch<V>)
    requires Between(init, o, gold) && Agrees(b, o)
    ensures Between(init, o, gold + Tagged(b))
  {
  }

  lemma {:induction false} WriteKeepsHeld<V>(o: Outputs<V>, gold: Gold<V>, t: Task, n: nat, b: Batch<V>)
    requires o.TypedExceptions() && HoldsFirst(gold, Batches(o, t), n) && Agrees(b, o)
    ensures HoldsFirst(gold + Tagged(b), Batches(o, t), n)
  {
    forall i | 0 <= i < n
      ensures Holds(gold + Tagged(b), Batches(o, t)[i])
    {
      BatchAgrees(o, t, i);
      var a := Batches(o, t)[i];
      forall k | k in a.rows
        ensures (a.table, k) in gold + Tagged(b) && (gold + Tagged(b))[(a.table, k)] == a.rows[k]
      {
        if (a.table, k) in Tagged(b) {
          assert Lookup(o, (a.table, k)) == Some(b.rows[k]);
        }
      }
    }
  }

  lemma {:induction false} WriteKeepsInv<V>(job: Job<V>, init: Gold<V>, w: World<V>, u: Task)
    requires job.outputs.TypedExceptions() && Inv(job, init, w)
    requires w.Of(u).Running? && w.Of(u).next < |Batches(job.outputs, u)|
    ensures Inv(job, init, Step(job, w, Write(u)))
  {
    var o, j := job.outputs, w.Of(u).next;
    var b := Batches(o, u)[j];
    BatchAgrees(o, u, j);
    WriteKeepsBetween(init, o, w.gold, b);
    WriteKeepsHeld(o, w.gold, Recon, Progress(job, w, Recon), b);
    WriteKeepsHeld(o, w.gold, SupplyOps, Progress(job, w, SupplyOps), b);
    assert Holds(w.gold + Tagged(b), b);
    if CommittedSuccess(job, w) {
      WriteKeepsHeld(o, w.gold, Recon, |Batches(o, Recon)|, b);
      WriteKeepsHeld(o, w.gold, SupplyOps, |Batches(o, SupplyOps)|, b);
    }
  }

  /** A step that writes nothing and claims no progress keeps the invariant. */
  lemma {:induction false} BookkeepingKeepsInv<V>(job: Job<V>, init: Gold<V>, w: World<V>, w': World<V>)
    requires Inv(job, init, w) && w'.gold == w.gold
    requires Progress(job, w', Recon) <= Progress(job, w, Recon)
             && Progress(job, w', SupplyOps) <= Progress(job, w, SupplyOps)
    requires CommittedSuccess(job, w') ==> CommittedSuccess(job, w) || (w.recon.Succeeded? && w.supplyOps.Succeeded?)
    ensures Inv(job, init, w')
  {
  }

  lemma {:induction false} StepKeepsInv<V>(job: Job<V>, init: Gold<V>, w: World<V>, a: Action)
    requires job.outputs.TypedExceptions() && Inv(job, init, w)
    ensures Inv(job, init, Step(job, w, a))
  {
    if a.Write? && w.Of(a.task).Running? && w.Of(a.task).next < |Batches(job.outputs, a.task)| {
      WriteKeepsInv(job, init, w, a.task);
    } else {
      BookkeepingStep(job, w, a);
      BookkeepingKeepsInv(job, init, w, Step(job, w, a));
    }
  }

  lemma {:induction false} BookkeepingStep<V>(job: Job<V>, w: World<V>, a: Action)
    requires a.Write? ==> !(w.Of(a.task).Running? && w.Of(a.task).next < |Batches(job.outputs, a.task)|)
    ensures var w' := Step(job, w, a);
            && w'.gold == w.gold
            && Progress(job, w', Recon) <= Progress(job, w, Recon)
            && Progress(job, w', SupplyOps) <= Progress(job, w, SupplyOps)
            && (CommittedSuccess(job, w') ==>
                  CommittedSuccess(job, w) || (w.recon.Succeeded? && w.supplyOps.Succeeded?))
  {
  }

  /** Safety over every schedule: crashes anywhere, retries, repairs, in any interleaving. */
  lemma {:induction false} EveryScheduleKeepsInv<V>(job: Job<V>, w: World<V>, actions: seq<Action>)
    requires job.outputs.TypedExceptions()
    requires w.recon == Running(0, 0) && w.supplyOps == Running(0, 0) && !CommittedSuccess(job, w)
    ensures Inv(job, w.gold, Run(job, w, actions))
  {
    if actions != [] {
      EveryScheduleKeepsInv(job, w, actions[..|actions|-1]);
      StepKeepsInv(job, w.gold, Run(job, w, actions[..|actions|-1]), actions[|actions|-1]);
    }
  }

  // ----- A job can finish ----------------------------------------------------------------------------

  lemma {:induction false} RunConcat<V>(job: Job<V>, w: World<V>, a: seq<Action>, b: seq<Action>)
    ensures Run(job, w, a + b) == Run(job, Run(job, w, a), b)
  {
    if b == [] {
      assert a + b == a;
    } else {
      assert (a + b)[..|a + b|-1] == a + b[..|b|-1];
      RunConcat(job, w, a, b[..|b|-1]);
    }
  }

  function Writes(t: Task, n: nat): seq<Action> {
    seq(n, _ => Write(t))
  }

  lemma {:induction false} WritesAdvance<V>(job: Job<V>, w: World<V>, t: Task, n: nat)
    requires w.Of(t) == Running(0, 0) && n <= |Batches(job.outputs, t)|
    ensures Run(job, w, Writes(t, n)) == w.(gold := Run(job, w, Writes(t, n)).gold).With(t, Running(n, 0))
  {
    if n > 0 {
      assert Writes(t, n)[..n-1] == Writes(t, n - 1);
      WritesAdvance(job, w, t, n - 1);
    }
  }

  /** An attempt that nothing strikes makes its merges and succeeds. */
  lemma {:induction false} AttemptSucceeds<V>(job: Job<V>, w: World<V>, t: Task)
    requires w.Of(t) == Running(0, 0)
    ensures var w' := Run(job, w, Writes(t, |Batches(job.outputs, t)|) + [Finish(t)]);
            w' == w.(gold := w'.gold).With(t, Succeeded)
  {
    var n := |Batches(job.outputs, t)|;
    WritesAdvance(job, w, t, n);
    assert (Writes(t, n) + [Finish(t)])[..n] == Writes(t, n);
  }

  function CleanSchedule<V>(job: Job<V>, now: int): seq<Action> {
    Writes(Recon, |Batches(job.outputs, Recon)|) + [Finish(Recon)]
    + (Writes(SupplyOps, |Batches(job.outputs, SupplyOps)|) + [Finish(SupplyOps)]) + [FinalizeSuccess(now)]
  }

  /** What the finalize tasks commit: success with the end of the run once both tasks succeeded, and only
      then; failure, with the checkpoint kept, once both ended and one failed. Neither touches a gold table. */
  lemma {:induction false} FinalizeCommits<V>(job: Job<V>, w: World<V>, now: int)
    ensures var w' := Step(job, w, FinalizeSuccess(now));
            if w.recon.Succeeded? && w.supplyOps.Succeeded?
            then && w' == w.(state := w'.state) && w'.state.Some? && w'.state.value.status.Success?
                 && w'.state.value.lastRunId == Some(job.runId)
                 && forall r :: CheckUpstream(w'.state, r).Ok? <==> r <= job.processedEnd
            else w' == w
    ensures var w' := Step(job, w, FinalizeFailure(now));
            if !w.recon.Running? && !w.supplyOps.Running? && (w.recon.Failed? || w.supplyOps.Failed?)
            then && w' == w.(state := w'.state) && w'.state.Some? && w'.state.value.status.Failure?
                 && forall r :: CheckUpstream(w'.state, r).Ok? <==> CheckUpstream(w.state, r).Ok?
            else w' == w
  {
  }

  /** A job nothing strikes finishes: both tasks succeed and the run's success is committed. */
  lemma {:induction false} CleanScheduleFinishes<V>(job: Job<V>, w: World<V>, now: int)
    requires w.recon == Running(0, 0) && w.supplyOps == Running(0, 0)
    ensures var w' := Run(job, w, CleanSchedule(job, now));
            w'.recon.Succeeded? && w'.supplyOps.Succeeded? && CommittedSuccess(job, w')
  {
    var first := Writes(Recon, |Batches(job.outputs, Recon)|) + [Finish(Recon)];
    var second := Writes(SupplyOps, |Batches(job.outputs, SupplyOps)|) + [Finish(SupplyOps)];
    AttemptSucceeds(job, w, Recon);
    AttemptSucceeds(job, Run(job, w, first), SupplyOps);
    RunConcat(job, w, first, second);
    RunConcat(job, w, first + second, [FinalizeSuccess(now)]);
    var w2 := Run(job, w, first + second);
    assert [FinalizeSuccess(now)][..0] == [];
    assert Run(job, w2, [FinalizeSuccess(now)]) == Step(job, Run(job, w2, []), FinalizeSuccess(now));
  }

  /** A task is tried three times: two crashes start it again from its first merge, the third fails it. */
  lemma {:induction false} ThirdCrashFails<V>(job: Job<V>, w: World<V>, t: Task)
    requires w.Of(t).Running? && w.Of(t).attempt == 0
    ensures var w1 := Step(job, w, CrashAttempt(t));
            var w2 := Step(job, w1, CrashAttempt(t));
            var w3 := Step(job, w2, CrashAttempt(t));
            && w1.Of(t) == Running(0, 1) && w2.Of(t) == Running(0, 2) && w3.Of(t) == Failed
            && w3 == w.With(t, Failed)
  {
  }

  /** What a complete run writes at a key is what the outputs say there. */
  lemma {:induction false} TotalAt<V>(o: Outputs<V>, k: (Table, RowKey))
    requires o.TypedExceptions()
    ensures k in Total(o) <==> Lookup(o, k).Some?
    ensures k in Total(o) ==> Lookup(o, k) == Some(Total(o)[k])
  {
    var both := Batches(o, Recon) + Batches(o, SupplyOps);
    TaskOrdersList(o, Recon, SupplyOps);
    WriteAllConcat(map[], Batches(o, Recon), Batches(o, SupplyOps));
    WriteAllAt(map[], both, o, k);
    WrittenIsLookup(both, o, k);
  }

  lemma {:induction false} CompleteHolds<V>(o: Outputs<V>, gold: Gold<V>, k: (Table, RowKey))
    requires o.TypedExceptions() && Complete(o, gold) && Lookup(o, k).Some?
    ensures k in gold && Lookup(o, k) == Some(gold[k])
  {
    var t, i := PlaceWrites(o, k);
    BatchAgrees(o, t, i);
    assert HoldsAll(gold, o, t);
    assert Holds(gold, Batches(o, t)[i]);
  }

  lemma {:induction false} CompleteIsFinal<V>(o: Outputs<V>, init: Gold<V>, gold: Gold<V>)
    requires o.TypedExceptions() && Between(init, o, gold) && Complete(o, gold)
    ensures gold == init + Total(o)
  {
    forall k
      ensures SameAt(gold, init + Total(o), k)
    {
      TotalAt(o, k);
      if Lookup(o, k).Some? {
        CompleteHolds(o, gold, k);
      }
    }
    SameEverywhere(gold, init + Total(o));
  }

  /** Main result: once both tasks have succeeded, and whenever the checkpoint says success for
      this run, the gold tables are those of a run without crashes, whatever happened before. */
  lemma {:induction false} FinishedJobLeavesCleanTables<V>(job: Job<V>, w: World<V>, actions: seq<Action>)
    requires job.outputs.TypedExceptions()
    requires w.recon == Running(0, 0) && w.supplyOps == Running(0, 0) && !CommittedSuccess(job, w)
    ensures var w' := Run(job, w, actions);
            (w'.recon.Succeeded? && w'.supplyOps.Succeeded?) || CommittedSuccess(job, w') ==>
                w'.gold == w.gold + Total(job.outputs)
  {
    var w' := Run(job, w, actions);
    EveryScheduleKeepsInv(job, w, actions);
    if (w'.recon.Succeeded? && w'.supplyOps.Succeeded?) || CommittedSuccess(job, w') {
      CompleteIsFinal(job.outputs, w.gold, w'.gold);
    }
  }
}
