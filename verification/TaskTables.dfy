/** The task graph on stored tables: every gold table is a bag of rows behind the keyed upsert, which
    may refuse a merge. Where the outputs are keyed no merge is refused and the job behaves as
    the one of TaskGraph; where they are not, the retries are what breaks. */
module TaskTables {
  import opened Prelude
  import opened LedgerControls
  import opened PipelineState
  import opened MergeStore
  import opened TaskGraph

  // ----- Stored tables --------------------------------------------------------------------------

  /** The gold tables that exist. */
  type Tables<R> = map<Table, seq<R>>

  /** The merge key of each table. */
  type KeysOf<!R> = Table -> KeyOf<R, RowKey>

  /** The rows a task hands to one merge. */
  datatype Rows<R> = Rows(table: Table, rows: seq<R>)

  function TableOf<R>(tables: Tables<R>, t: Table): Option<seq<R>> {
    if t in tables then Some(tables[t]) else None
  }

  /** One gold write. */
  function Put<R>(tables: Tables<R>, b: Rows<R>, keys: KeysOf<R>): Result<Tables<R>, MergeError> {
    var written := WriteTo(TableOf(tables, b.table), b.rows, keys(b.table), false);
    if written.Err? then Err(written.error)
    else if written.value.None? then Ok(tables)
    else Ok(tables[b.table := written.value.value])
  }

  ghost predicate KeyedTables<R>(tables: Tables<R>, keys: KeysOf<R>) {
    forall t | t in tables :: Keyed(tables[t], keys(t))
  }

  ghost function StoredKeys<R>(tables: Tables<R>, keys: KeysOf<R>): set<(Table, RowKey)> {
    set t, k | t in tables && k in AsMap(tables[t], keys(t)) :: (t, k)
  }

  /** All stored tables as the one map of TaskGraph. */
  ghost function View<R>(tables: Tables<R>, keys: KeysOf<R>): Gold<R> {
    map p | p in StoredKeys(tables, keys) :: AsMap(tables[p.0], keys(p.0))[p.1]
  }

  lemma {:induction false} ViewAt<R>(tables: Tables<R>, keys: KeysOf<R>, t: Table, k: RowKey)
    ensures (t, k) in View(tables, keys) <==> k in TableMap(TableOf(tables, t), keys(t))
    ensures (t, k) in View(tables, keys) ==> View(tables, keys)[(t, k)] == TableMap(TableOf(tables, t), keys(t))[k]
  {
  }

  /** The batch of TaskGraph a keyed bag amounts to. */
  ghost function AsBatch<R>(b: Rows<R>, keys: KeysOf<R>): Batch<R> {
    Batch(b.table, AsMap(b.rows, keys(b.table)))
  }

  /** The tables after keyed rows were stored in one of them. */
  ghost predicate Stores<R>(tables: Tables<R>, b: Rows<R>, keys: KeysOf<R>, after: Tables<R>) {
    && KeyedTables(after, keys)
    && (forall t {:trigger TableOf(after, t)} | t != b.table :: TableOf(after, t) == TableOf(tables, t))
    && TableMap(TableOf(after, b.table), keys(b.table)) == TableMap(TableOf(tables, b.table), keys(b.table))
        + AsBatch(b, keys).rows
  }

  lemma {:induction false} PutStores<R>(tables: Tables<R>, b: Rows<R>, keys: KeysOf<R>)
    requires KeyedTables(tables, keys) && Keyed(b.rows, keys(b.table))
    ensures Put(tables, b, keys).Ok? && Stores(tables, b, keys, Put(tables, b, keys).value)
  {
    WriteIsOverride(TableOf(tables, b.table), b.rows, keys(b.table), false);
  }

  lemma {:induction false} StoresIsWrite<R>(tables: Tables<R>, b: Rows<R>, keys: KeysOf<R>, after: Tables<R>)
    requires Stores(tables, b, keys, after)
    ensures View(after, keys) == View(tables, keys) + Tagged(AsBatch(b, keys))
  {
    forall k: (Table, RowKey)
      ensures SameAt(View(after, keys), View(tables, keys) + Tagged(AsBatch(b, keys)), k)
    {
      StoresAt(tables, b, keys, after, k.0, k.1);
    }
    SameEverywhere(View(after, keys), View(tables, keys) + Tagged(AsBatch(b, keys)));
  }

  lemma {:induction false} StoresAt<R>(tables: Tables<R>, b: Rows<R>, keys: KeysOf<R>, after: Tables<R>, t: Table,
                                       k: RowKey)
    requires Stores(tables, b, keys, after)
    ensures SameAt(View(after, keys), View(tables, keys) + Tagged(AsBatch(b, keys)), (t, k))
  {
    ViewAt(after, keys, t, k);
    ViewAt(tables, keys, t, k);
    assert (t, k) in Tagged(AsBatch(b, keys)) <==> t == b.table && k in AsBatch(b, keys).rows;
    assert t != b.table ==> TableOf(after, t) == TableOf(tables, t);
  }

  /** A write of keyed rows to keyed tables goes through and is a write of TaskGraph. */
  lemma {:induction false} PutIsWrite<R>(tables: Tables<R>, b: Rows<R>, keys: KeysOf<R>)
    requires KeyedTables(tables, keys) && Keyed(b.rows, keys(b.table))
    ensures Put(tables, b, keys).Ok? && KeyedTables(Put(tables, b, keys).value, keys)
    ensures View(Put(tables, b, keys).value, keys) == View(tables, keys) + Tagged(AsBatch(b, keys))
  {
    PutStores(tables, b, keys);
    StoresIsWrite(tables, b, keys, Put(tables, b, keys).value);
  }

  // ----- A list of writes -----------------------------------------------------------------------

  /** The tables after the leading writes that go through, and what refused the next one. */
  datatype Written<R> = Written(tables: Tables<R>, error: Option<MergeError>)

  function PutAll<R>(tables: Tables<R>, batches: seq<Rows<R>>, keys: KeysOf<R>): Written<R> {
    if batches == [] then Written(tables, None)
    else
      var front := PutAll(tables, batches[..|batches|-1], keys);
      if front.error.Some? then front
      else
        var put := Put(front.tables, batches[|batches|-1], keys);
        if put.Ok? then Written(put.value, None) else Written(front.tables, Some(put.error))
  }

  ghost predicate KeyedBatches<R>(batches: seq<Rows<R>>, keys: KeysOf<R>) {
    forall i | 0 <= i < |batches| :: Keyed(batches[i].rows, keys(batches[i].table))
  }

  ghost function AsBatches<R>(batches: seq<Rows<R>>, keys: KeysOf<R>): (r: seq<Batch<R>>)
    ensures |r| == |batches|
  {
    seq(|batches|, i requires 0 <= i < |batches| => AsBatch(batches[i], keys))
  }

  lemma {:induction false} AsBatchesStep<R>(gold: Gold<R>, batches: seq<Rows<R>>, keys: KeysOf<R>)
    requires batches != []
    ensures WriteAll(gold, AsBatches(batches, keys))
            == WriteAll(gold, AsBatches(batches[..|batches|-1], keys)) + Tagged(AsBatch(batches[|batches|-1], keys))
  {
    assert AsBatches(batches, keys)[..|batches|-1] == AsBatches(batches[..|batches|-1], keys);
  }

  lemma {:induction false} PutAllStep<R>(tables: Tables<R>, batches: seq<Rows<R>>, keys: KeysOf<R>)
    requires batches != []
    ensures var front := PutAll(tables, batches[..|batches|-1], keys);
            var put := Put(front.tables, batches[|batches|-1], keys);
            && (front.error.None? && put.Ok? ==> PutAll(tables, batches, keys) == Written(put.value, None))
            && (front.error.None? && put.Err? ==>
                  PutAll(tables, batches, keys) == Written(front.tables, Some(put.error)))
            && (front.error.Some? ==> PutAll(tables, batches, keys) == front)
  {
  }

  lemma {:induction false} PutAllIsWriteAll<R>(tables: Tables<R>, batches: seq<Rows<R>>, keys: KeysOf<R>)
    requires KeyedTables(tables, keys) && KeyedBatches(batches, keys)
    ensures PutAll(tables, batches, keys).error.None? && KeyedTables(PutAll(tables, batches, keys).tables, keys)
    ensures View(PutAll(tables, batches, keys).tables, keys) == WriteAll(View(tables, keys), AsBatches(batches, keys))
  {
    if batches != [] {
      var front, last := batches[..|batches|-1], batches[|batches|-1];
      assert KeyedBatches(front, keys) && Keyed(last.rows, keys(last.table));
      PutAllIsWriteAll(tables, front, keys);
      PutIsWrite(PutAll(tables, front, keys).tables, last, keys);
      PutAllStep(tables, batches, keys);
      AsBatchesStep(View(tables, keys), batches, keys);
    }
  }

  ghost predicate DistinctTables<R>(batches: seq<Rows<R>>) {
    forall i, j | 0 <= i < j < |batches| :: batches[i].table != batches[j].table
  }

  ghost predicate GoesThrough<R>(tables: Tables<R>, b: Rows<R>, keys: KeysOf<R>) {
    WriteTo(TableOf(tables, b.table), b.rows, keys(b.table), false).Ok?
  }

  /** Every written table holds what its own write leaves, every other table is as before. */
  ghost predicate EachPut<R>(tables: Tables<R>, batches: seq<Rows<R>>, keys: KeysOf<R>, after: Tables<R>) {
    && (forall i | 0 <= i < |batches| :: HoldsPut(tables, batches[i], keys, after))
    && (forall t | Untouched(batches, t) :: TableOf(after, t) == TableOf(tables, t))
  }

  ghost predicate HoldsPut<R>(tables: Tables<R>, b: Rows<R>, keys: KeysOf<R>, after: Tables<R>) {
    Ok(TableOf(after, b.table)) == WriteTo(TableOf(tables, b.table), b.rows, keys(b.table), false)
  }

  ghost predicate Untouched<R>(batches: seq<Rows<R>>, t: Table) {
    forall i | 0 <= i < |batches| :: batches[i].table != t
  }

  lemma {:induction false} PutTouchesOneTable<R>(tables: Tables<R>, b: Rows<R>, keys: KeysOf<R>)
    ensures Put(tables, b, keys).Ok? <==> GoesThrough(tables, b, keys)
    ensures Put(tables, b, keys).Ok? ==>
              && HoldsPut(tables, b, keys, Put(tables, b, keys).value)
              && forall t | t != b.table :: TableOf(Put(tables, b, keys).value, t) == TableOf(tables, t)
  {
  }

  lemma {:induction false} EachPutStep<R>(tables: Tables<R>, batches: seq<Rows<R>>, keys: KeysOf<R>, mid: Tables<R>,
                                          after: Tables<R>)
    requires batches != [] && DistinctTables(batches) && EachPut(tables, batches[..|batches|-1], keys, mid)
    requires HoldsPut(mid, batches[|batches|-1], keys, after)
    requires forall t | t != batches[|batches|-1].table :: TableOf(after, t) == TableOf(mid, t)
    ensures EachPut(tables, batches, keys, after)
  {
    var front, last := batches[..|batches|-1], batches[|batches|-1];
    assert Untouched(front, last.table);
    forall i | 0 <= i < |batches|
      ensures HoldsPut(tables, batches[i], keys, after)
    {
      if i < |front| { assert HoldsPut(tables, front[i], keys, mid); }
    }
    forall t | Untouched(batches, t)
      ensures TableOf(after, t) == TableOf(tables, t)
    {
      assert Untouched(front, t) && t != last.table;
    }
  }

  /** Writes to different tables do not meet: a list of them goes through exactly when each one does,
      and then every table holds what its own write leaves. */
  lemma {:induction false} PutAllIsEachPut<R>(tables: Tables<R>, batches: seq<Rows<R>>, keys: KeysOf<R>)
    requires DistinctTables(batches)
    ensures PutAll(tables, batches, keys).error.None? <==> forall i | 0 <= i < |batches| ::
            GoesThrough(tables, batches[i], keys)
    ensures PutAll(tables, batches, keys).error.None? ==>
              EachPut(tables, batches, keys, PutAll(tables, batches, keys).tables)
  {
    if batches != [] {
      var front, last := batches[..|batches|-1], batches[|batches|-1];
      assert forall i | 0 <= i < |front| :: front[i] == batches[i];
      PutAllIsEachPut(tables, front, keys);
      PutAllStep(tables, batches, keys);
      var mid := PutAll(tables, front, keys);
      if mid.error.None? {
        assert Untouched(front, last.table);
        PutTouchesOneTable(mid.tables, last, keys);
        assert GoesThrough(mid.tables, last, keys) <==> GoesThrough(tables, last, keys);
        if GoesThrough(tables, last, keys) {
          EachPutStep(tables, batches, keys, mid.tables, PutAll(tables, batches, keys).tables);
        }
      } else {
        var i :| 0 <= i < |front| && !GoesThrough(tables, front[i], keys);
        assert !GoesThrough(tables, batches[i], keys);
      }
    }
  }

  /** Two attempts hand rows to the same merges; each batch of the second is keyed, or its keys are
      among those of the first. */
  ghost predicate SameMerges<R>(batches: seq<Rows<R>>, next: seq<Rows<R>>, keys: KeysOf<R>) {
    && |batches| == |next|
    && forall i | 0 <= i < |batches| :: SameMerge(batches[i], next[i], keys)
  }

  ghost predicate SameMerge<R>(b: Rows<R>, next: Rows<R>, keys: KeysOf<R>) {
    && b.table == next.table
    && (Keyed(next.rows, keys(next.table)) || KeysHeld(b.rows, next.rows, keys(next.table)))
  }

  lemma {:induction false} KeyedPutGoesThrough<R>(tables: Tables<R>, b: Rows<R>, keys: KeysOf<R>)
    requires Keyed(b.rows, keys(b.table))
    ensures GoesThrough(tables, b, keys)
  {
    if TableOf(tables, b.table).Some? {
      MergeSucceedsIff(tables[b.table], b.rows, keys(b.table));
    }
  }

  lemma {:induction false} NextPutIff<R>(tables: Tables<R>, after: Tables<R>, b: Rows<R>, next: Rows<R>,
                                         keys: KeysOf<R>)
    requires GoesThrough(tables, b, keys) && HoldsPut(tables, b, keys, after) && SameMerge(b, next, keys)
    ensures GoesThrough(after, next, keys) <==> Keyed(next.rows, keys(next.table))
  {
    if Keyed(next.rows, keys(next.table)) {
      KeyedPutGoesThrough(after, next, keys);
    } else {
      WriteNextIff(TableOf(tables, b.table), b.rows, next.rows, keys(b.table));
    }
  }

  /** The retry law of a task: when all writes of an attempt went through, all writes of another one, which
      may hand over other rows for the same keys, go through exactly when every batch of it is keyed,
      whatever the tables held before. */
  lemma {:induction false} NextAttemptIff<R>(tables: Tables<R>, batches: seq<Rows<R>>, next: seq<Rows<R>>,
                                             keys: KeysOf<R>)
    requires DistinctTables(batches) && PutAll(tables, batches, keys).error.None? && SameMerges(batches, next, keys)
    ensures PutAll(PutAll(tables, batches, keys).tables, next, keys).error.None? <==> KeyedBatches(next, keys)
  {
    var after := PutAll(tables, batches, keys).tables;
    forall i, j | 0 <= i < j < |next|
      ensures next[i].table != next[j].table
    {
      assert SameMerge(batches[i], next[i], keys) && SameMerge(batches[j], next[j], keys);
    }
    PutAllIsEachPut(tables, batches, keys);
    PutAllIsEachPut(after, next, keys);
    forall i | 0 <= i < |next|
      ensures GoesThrough(after, next[i], keys) <==> Keyed(next[i].rows, keys(next[i].table))
    {
      assert GoesThrough(tables, batches[i], keys) && HoldsPut(tables, batches[i], keys, after);
      NextPutIff(tables, after, batches[i], next[i], keys);
    }
  }

  /** So the same rows go through again exactly when they are keyed. */
  lemma {:induction false} AttemptRepeatsIff<R>(tables: Tables<R>, batches: seq<Rows<R>>, keys: KeysOf<R>)
    requires DistinctTables(batches) && PutAll(tables, batches, keys).error.None?
    ensures PutAll(PutAll(tables, batches, keys).tables, batches, keys).error.None? <==> KeyedBatches(batches, keys)
  {
    forall i | 0 <= i < |batches|
      ensures SameMerge(batches[i], batches[i], keys)
    {
      KeysHeldBySelf(batches[i].rows, keys(batches[i].table));
    }
    NextAttemptIff(tables, batches, batches, keys);
  }

  // ----- The job on stored tables -----------------------------------------------------------------

  /** The rows a run with fixed inputs and run id hands to its merges. */
  datatype BagOutputs<R> = BagOutputs(
    recon: seq<R>, reconExceptions: seq<R>,
    supply: seq<R>, opsFailure: seq<R>, opsRefund: seq<R>, pairing: seq<R>, adminTx: seq<R>, supplyExceptions: seq<R>)

  function TaskRows<R>(o: BagOutputs<R>, t: Task): seq<Rows<R>> {
    match t
    case Recon => [Rows(ReconDaily, o.recon), Rows(ExceptionLedger, o.reconExceptions)]
    case SupplyOps => [Rows(SupplyBalance, o.supply), Rows(OpsFailure, o.opsFailure), Rows(OpsRefund, o.opsRefund),
                       Rows(PairingQuality, o.pairing), Rows(AdminTxSearch, o.adminTx),
                       Rows(ExceptionLedger, o.supplyExceptions)]
  }

  /** The unsplit script unites the exceptions of both controls in one frame. */
  function AllRows<R>(o: BagOutputs<R>): seq<Rows<R>> {
    [Rows(ReconDaily, o.recon), Rows(SupplyBalance, o.supply), Rows(OpsFailure, o.opsFailure),
     Rows(OpsRefund, o.opsRefund), Rows(PairingQuality, o.pairing), Rows(AdminTxSearch, o.adminTx),
     Rows(ExceptionLedger, o.reconExceptions + o.supplyExceptions)]
  }

  ghost predicate KeyedOutputs<R>(o: BagOutputs<R>, keys: KeysOf<R>) {
    KeyedBatches(TaskRows(o, Recon), keys) && KeyedBatches(TaskRows(o, SupplyOps), keys)
  }

  ghost function AsOutputs<R>(o: BagOutputs<R>, keys: KeysOf<R>): Outputs<R> {
    Outputs(AsMap(o.recon, keys(ReconDaily)), AsMap(o.reconExceptions, keys(ExceptionLedger)),
            AsMap(o.supply, keys(SupplyBalance)), AsMap(o.opsFailure, keys(OpsFailure)),
            AsMap(o.opsRefund, keys(OpsRefund)),
            AsMap(o.pairing, keys(PairingQuality)), AsMap(o.adminTx, keys(AdminTxSearch)),
            AsMap(o.supplyExceptions, keys(ExceptionLedger)))
  }

  lemma {:induction false} TaskRowsAreBatches<R>(o: BagOutputs<R>, keys: KeysOf<R>, t: Task)
    ensures AsBatches(TaskRows(o, t), keys) == Batches(AsOutputs(o, keys), t)
    ensures DistinctTables(TaskRows(o, t))
  {
  }

  /** The plans are evaluated anew for every merge, so the rows a merge receives may differ from step to
      step: `outputs(n)` is what the plans yield when step n asks for them. */
  datatype BagJob<R> = BagJob(outputs: nat -> BagOutputs<R>, runId: string, processedEnd: int)

  datatype BagWorld<R> = BagWorld(tables: Tables<R>, recon: TaskState, supplyOps: TaskState, state: Option<StateRecord>)
  {
    function Of(t: Task): TaskState { if t == Recon then recon else supplyOps }
    function With(t: Task, s: TaskState): BagWorld<R> {
      if t == Recon then this.(recon := s) else this.(supplyOps := s)
    }
  }

  /** Every evaluation yields keyed rows, and the same rows by key. */
  ghost predicate Steady<R>(job: BagJob<R>, keys: KeysOf<R>) {
    forall n: nat ::
        KeyedOutputs(job.outputs(n), keys) && AsOutputs(job.outputs(n), keys) == AsOutputs(job.outputs(0), keys)
  }

  ghost function AsJob<R>(job: BagJob<R>, keys: KeysOf<R>): Job<R> {
    Job(AsOutputs(job.outputs(0), keys), job.runId, job.processedEnd)
  }

  ghost function AsWorld<R>(w: BagWorld<R>, keys: KeysOf<R>): World<R> {
    World(View(w.tables, keys), w.recon, w.supplyOps, w.state)
  }

  /** The steps that write no table. */
  ghost function Bookkeeping<R>(job: BagJob<R>, keys: KeysOf<R>, w: BagWorld<R>, a: Action): BagWorld<R>
    requires !a.Write?
  {
    var w' := Step(AsJob(job, keys), World(map[], w.recon, w.supplyOps, w.state), a);
    BagWorld(w.tables, w'.recon, w'.supplyOps, w'.state)
  }

  /** Step n on stored tables. A refused merge is an exception: it ends the attempt like a crash. */
  ghost function BagStep<R>(job: BagJob<R>, keys: KeysOf<R>, n: nat, w: BagWorld<R>, a: Action): BagWorld<R> {
    if !a.Write? then Bookkeeping(job, keys, w, a)
    else
      var s, batches := w.Of(a.task), TaskRows(job.outputs(n), a.task);
      if !s.Running? || s.next >= |batches| then w
      else
        var put := Put(w.tables, batches[s.next], keys);
        if put.Err? then Bookkeeping(job, keys, w, CrashAttempt(a.task))
        else w.(tables := put.value).With(a.task, Running(s.next + 1, s.attempt))
  }

  ghost function BagRun<R>(job: BagJob<R>, keys: KeysOf<R>, w: BagWorld<R>, actions: seq<Action>): BagWorld<R> {
    if actions == [] then w
    else
      var n := |actions| - 1;
      BagStep(job, keys, n, BagRun(job, keys, w, actions[..n]), actions[n])
  }

  lemma {:induction false} BookkeepingRefines<R>(job: BagJob<R>, keys: KeysOf<R>, w: BagWorld<R>, a: Action)
    requires !a.Write?
    ensures AsWorld(Bookkeeping(job, keys, w, a), keys) == Step(AsJob(job, keys), AsWorld(w, keys), a)
  {
    StepIgnoresGold(AsJob(job, keys), AsWorld(w, keys), map[], a);
    StepIgnoresGold(AsJob(job, keys), AsWorld(w, keys), View(w.tables, keys), a);
  }

  predicate HasNext<R>(job: BagJob<R>, n: nat, w: BagWorld<R>, t: Task) {
    w.Of(t).Running? && w.Of(t).next < |TaskRows(job.outputs(n), t)|
  }

  lemma {:induction false} IdleWriteRefines<R>(job: BagJob<R>, keys: KeysOf<R>, n: nat, w: BagWorld<R>, t: Task)
    requires !HasNext(job, n, w, t)
    ensures BagStep(job, keys, n, w, Write(t)) == w
    ensures Step(AsJob(job, keys), AsWorld(w, keys), Write(t)) == AsWorld(w, keys)
  {
  }

  function Advanced<R>(w: BagWorld<R>, t: Task, after: Tables<R>): BagWorld<R>
    requires w.Of(t).Running?
  {
    w.(tables := after).With(t, Running(w.Of(t).next + 1, w.Of(t).attempt))
  }

  lemma {:induction false} AdvancedRefines<R>(job: BagJob<R>, keys: KeysOf<R>, n: nat, w: BagWorld<R>, t: Task,
                                              b: Rows<R>, after: Tables<R>)
    requires HasNext(job, n, w, t) && w.Of(t).next < |Batches(AsOutputs(job.outputs(0), keys), t)|
    requires Batches(AsOutputs(job.outputs(0), keys), t)[w.Of(t).next] == AsBatch(b, keys)
    requires View(after, keys) == View(w.tables, keys) + Tagged(AsBatch(b, keys))
    ensures AsWorld(Advanced(w, t, after), keys) == Step(AsJob(job, keys), AsWorld(w, keys), Write(t))
  {
    StepWrites(AsJob(job, keys), AsWorld(w, keys), t, AsBatch(b, keys));
  }

  lemma {:induction false} NextPutRefines<R>(job: BagJob<R>, keys: KeysOf<R>, n: nat, w: BagWorld<R>, t: Task)
    requires Steady(job, keys) && KeyedTables(w.tables, keys) && HasNext(job, n, w, t)
    ensures var put := Put(w.tables, TaskRows(job.outputs(n), t)[w.Of(t).next], keys);
            && put.Ok? && KeyedTables(put.value, keys)
            && AsWorld(Advanced(w, t, put.value), keys) == Step(AsJob(job, keys), AsWorld(w, keys), Write(t))
  {
    var b := TaskRows(job.outputs(n), t)[w.Of(t).next];
    OutputIsKeyed(job.outputs(n), keys, t, w.Of(t).next);
    PutIsWrite(w.tables, b, keys);
    AdvancedRefines(job, keys, n, w, t, b, Put(w.tables, b, keys).value);
  }

  lemma {:induction false} BagStepWrites<R>(job: BagJob<R>, keys: KeysOf<R>, n: nat, w: BagWorld<R>, t: Task,
                                            put: Result<Tables<R>, MergeError>)
    requires HasNext(job, n, w, t) && put == Put(w.tables, TaskRows(job.outputs(n), t)[w.Of(t).next], keys) && put.Ok?
    ensures BagStep(job, keys, n, w, Write(t)) == Advanced(w, t, put.value)
  {
  }

  lemma {:induction false} NextWriteRefines<R>(job: BagJob<R>, keys: KeysOf<R>, n: nat, w: BagWorld<R>, t: Task)
    requires Steady(job, keys) && KeyedTables(w.tables, keys) && HasNext(job, n, w, t)
    ensures KeyedTables(BagStep(job, keys, n, w, Write(t)).tables, keys)
    ensures AsWorld(BagStep(job, keys, n, w, Write(t)), keys) == Step(AsJob(job, keys), AsWorld(w, keys), Write(t))
  {
    var put := Put(w.tables, TaskRows(job.outputs(n), t)[w.Of(t).next], keys);
    NextPutRefines(job, keys, n, w, t);
    BagStepWrites(job, keys, n, w, t, put);
  }

  lemma {:induction false} OutputIsKeyed<R>(o: BagOutputs<R>, keys: KeysOf<R>, t: Task, i: nat)
    requires KeyedOutputs(o, keys) && i < |TaskRows(o, t)|
    ensures i < |Batches(AsOutputs(o, keys), t)|
    ensures Keyed(TaskRows(o, t)[i].rows, keys(TaskRows(o, t)[i].table))
    ensures Batches(AsOutputs(o, keys), t)[i] == AsBatch(TaskRows(o, t)[i], keys)
  {
    TaskRowsAreBatches(o, keys, t);
    assert AsBatches(TaskRows(o, t), keys)[i] == AsBatch(TaskRows(o, t)[i], keys);
  }

  lemma {:induction false} StepRefines<R>(job: BagJob<R>, keys: KeysOf<R>, n: nat, w: BagWorld<R>, a: Action)
    requires Steady(job, keys) && KeyedTables(w.tables, keys)
    ensures KeyedTables(BagStep(job, keys, n, w, a).tables, keys)
    ensures AsWorld(BagStep(job, keys, n, w, a), keys) == Step(AsJob(job, keys), AsWorld(w, keys), a)
  {
    if a.Write? && HasNext(job, n, w, a.task) {
      NextWriteRefines(job, keys, n, w, a.task);
    } else if a.Write? {
      IdleWriteRefines(job, keys, n, w, a.task);
    } else {
      BookkeepingRefines(job, keys, w, a);
    }
  }

  /** Refinement: where every evaluation of the plans yields the same keyed rows, in whatever order, every
      schedule on keyed stored tables is the same schedule of TaskGraph, and the tables stay keyed. */
  lemma {:induction false} RunRefines<R>(job: BagJob<R>, keys: KeysOf<R>, w: BagWorld<R>, actions: seq<Action>)
    requires Steady(job, keys) && KeyedTables(w.tables, keys)
    ensures KeyedTables(BagRun(job, keys, w, actions).tables, keys)
    ensures AsWorld(BagRun(job, keys, w, actions), keys) == Run(AsJob(job, keys), AsWorld(w, keys), actions)
  {
    if actions != [] {
      RunRefines(job, keys, w, actions[..|actions|-1]);
      StepRefines(job, keys, |actions| - 1, BagRun(job, keys, w, actions[..|actions|-1]), actions[|actions|-1]);
    }
  }

  /** After no schedule is a merge refused, whichever evaluation it stores. */
  lemma {:induction false} NoMergeIsRefused<R>(job: BagJob<R>, keys: KeysOf<R>, w: BagWorld<R>, actions: seq<Action>,
                                               t: Task, n: nat, i: nat)
    requires Steady(job, keys) && KeyedTables(w.tables, keys) && i < |TaskRows(job.outputs(n), t)|
    ensures Put(BagRun(job, keys, w, actions).tables, TaskRows(job.outputs(n), t)[i], keys).Ok?
  {
    RunRefines(job, keys, w, actions);
    PutIsWrite(BagRun(job, keys, w, actions).tables, TaskRows(job.outputs(n), t)[i], keys);
  }

  predicate Fresh<R>(job: BagJob<R>, w: BagWorld<R>) {
    && w.recon == Running(0, 0) && w.supplyOps == Running(0, 0)
    && !(w.state.Some? && w.state.value.status.Success? && w.state.value.lastRunId == Some(job.runId))
  }

  /** Whether both tasks succeeded or the checkpoint says success for this run. */
  predicate Finished<R>(job: BagJob<R>, w: BagWorld<R>) {
    || (w.recon.Succeeded? && w.supplyOps.Succeeded?)
    || (w.state.Some? && w.state.value.status.Success? && w.state.value.lastRunId == Some(job.runId))
  }

  /** Main result on stored tables: for such a job, once the job is finished the tables are keyed
      and hold what a run without crashes writes, whatever happened before. */
  lemma {:induction false} FinishedJobLeavesCleanStoredTables<R>(job: BagJob<R>, keys: KeysOf<R>, w: BagWorld<R>,
                                                                 actions: seq<Action>)
    requires Steady(job, keys) && KeyedTables(w.tables, keys)
    requires AsOutputs(job.outputs(0), keys).TypedExceptions() && Fresh(job, w)
    ensures var w' := BagRun(job, keys, w, actions);
            Finished(job, w') ==>
              KeyedTables(w'.tables, keys) && View(w'.tables, keys)
                  == View(w.tables, keys) + Total(AsOutputs(job.outputs(0), keys))
  {
    RunRefines(job, keys, w, actions);
    FinishedJobLeavesCleanTables(AsJob(job, keys), AsWorld(w, keys), actions);
  }

  /** And such a job can be finished: the schedule that nothing strikes does it. */
  lemma {:induction false} SteadyJobFinishes<R>(job: BagJob<R>, keys: KeysOf<R>, w: BagWorld<R>, now: int)
    returns (actions: seq<Action>)
    requires Steady(job, keys) && KeyedTables(w.tables, keys) && Fresh(job, w)
    ensures Finished(job, BagRun(job, keys, w, actions))
    ensures BagRun(job, keys, w, actions).state.Some?
            && forall r :: CheckUpstream(BagRun(job, keys, w, actions).state, r).Ok? <==> r <= job.processedEnd
  {
    actions := CleanSchedule(AsJob(job, keys), now);
    CleanScheduleFinishes(AsJob(job, keys), AsWorld(w, keys), now);
    RunRefines(job, keys, w, actions);
    var n := |actions| - 1;
    FinalizeCommits(AsJob(job, keys), Run(AsJob(job, keys), AsWorld(w, keys), actions[..n]), now);
  }

  // ----- Split and unsplit ---------------------------------------------------------------------------

  lemma {:induction false} AsMapConcat<R, K>(a: seq<R>, b: seq<R>, key: KeyOf<R, K>)
    ensures AsMap(a + b, key) == AsMap(a, key) + AsMap(b, key)
  {
    if b == [] {
      assert a + b == a;
    } else {
      assert (a + b)[..|a + b|-1] == a + b[..|b|-1];
      AsMapConcat(a, b[..|b|-1], key);
    }
  }

  /** The united exceptions are keyed: the type in the key tells the two controls apart. */
  lemma {:induction false} UnitedExceptionsAreKeyed<R>(o: BagOutputs<R>, keys: KeysOf<R>)
    requires KeyedOutputs(o, keys) && AsOutputs(o, keys).TypedExceptions()
    ensures Keyed(o.reconExceptions + o.supplyExceptions, keys(ExceptionLedger))
  {
    var key, a, b := keys(ExceptionLedger), o.reconExceptions, o.supplyExceptions;
    assert Keyed(TaskRows(o, Recon)[1].rows, key) && Keyed(TaskRows(o, SupplyOps)[5].rows, key);
    AsMapIs(a, key);
    AsMapIs(b, key);
    forall i, j | 0 <= i < j < |a + b|
      ensures key((a + b)[i]) != key((a + b)[j])
    {
      if i < |a| <= j {
        assert key(a[i]).value in AsMap(a, key) && key(b[j - |a|]).value in AsMap(b, key);
      }
    }
  }

  /** On keyed tables with keyed outputs, the unsplit script and the two tasks in either order make
      all their merges and leave the same tables. */
  lemma {:induction false} StoredSplitMatchesUnsplit<R>(tables: Tables<R>, o: BagOutputs<R>, keys: KeysOf<R>,
                                                        first: Task, second: Task)
    requires KeyedTables(tables, keys) && KeyedOutputs(o, keys) && AsOutputs(o, keys).TypedExceptions()
             && first != second
    ensures var all := PutAll(tables, AllRows(o), keys);
            var one := PutAll(tables, TaskRows(o, first), keys);
            var two := PutAll(one.tables, TaskRows(o, second), keys);
            && all.error.None? && one.error.None? && two.error.None?
            && View(all.tables, keys) == View(tables, keys) + Total(AsOutputs(o, keys))
            && View(two.tables, keys) == View(all.tables, keys)
  {
    var out := AsOutputs(o, keys);
    UnitedExceptionsAreKeyed(o, keys);
    AllRowsAreKeyed(o, keys);
    AsMapConcat(o.reconExceptions, o.supplyExceptions, keys(ExceptionLedger));
    assert AsBatches(AllRows(o), keys) == AllBatches(out);
    PutAllIsWriteAll(tables, AllRows(o), keys);
    PutAllIsWriteAll(tables, TaskRows(o, first), keys);
    PutAllIsWriteAll(PutAll(tables, TaskRows(o, first), keys).tables, TaskRows(o, second), keys);
    TaskRowsAreBatches(o, keys, first);
    TaskRowsAreBatches(o, keys, second);
    SplitMatchesUnsplit(View(tables, keys), out);
  }

  lemma {:induction false} AllRowsAreKeyed<R>(o: BagOutputs<R>, keys: KeysOf<R>)
    requires KeyedOutputs(o, keys) && Keyed(o.reconExceptions + o.supplyExceptions, keys(ExceptionLedger))
    ensures KeyedBatches(AllRows(o), keys)
  {
    assert Keyed(TaskRows(o, Recon)[0].rows, keys(ReconDaily));
    forall i | 0 < i < 6
      ensures Keyed(AllRows(o)[i].rows, keys(AllRows(o)[i].table))
    {
      assert AllRows(o)[i] == TaskRows(o, SupplyOps)[i-1];
    }
    assert AllRows(o)[0].rows == o.recon;
  }

  // ----- The script -------------------------------------------------------------------------------

  datatype TaskArg = All | Only(task: Task) | ArgFinalizeSuccess | ArgFinalizeFailure

  function RowsOf<R>(o: BagOutputs<R>, arg: TaskArg): seq<Rows<R>> {
    match arg
    case All => AllRows(o)
    case Only(t) => TaskRows(o, t)
    case _ => []
  }

  /** How many merges are attempted when an exception strikes before merge failAt. */
  function MergesMade<R>(batches: seq<Rows<R>>, failAt: Option<nat>): (n: nat)
    ensures n <= |batches|
  {
    if failAt.Some? && failAt.value <= |batches| then failAt.value else |batches|
  }

  /** Table t holds what one write of these rows leaves of it. */
  ghost predicate HoldsWrite<R>(before: Tables<R>, after: Tables<R>, t: Table, rows: seq<R>, keys: KeysOf<R>) {
    Ok(TableOf(after, t)) == WriteTo(TableOf(before, t), rows, keys(t), false)
  }

  /** Of the tables, at most those named differ. */
  ghost predicate OnlyTouches<R>(before: Tables<R>, after: Tables<R>, named: set<Table>) {
    forall t | t !in named :: TableOf(after, t) == TableOf(before, t)
  }

  ghost predicate ReconStored<R>(before: Tables<R>, after: Tables<R>, o: BagOutputs<R>, keys: KeysOf<R>) {
    && HoldsWrite(before, after, ReconDaily, o.recon, keys)
    && HoldsWrite(before, after, ExceptionLedger, o.reconExceptions, keys)
  }

  ghost predicate DailyStored<R>(before: Tables<R>, after: Tables<R>, o: BagOutputs<R>, keys: KeysOf<R>) {
    && HoldsWrite(before, after, SupplyBalance, o.supply, keys)
    && HoldsWrite(before, after, OpsFailure, o.opsFailure, keys)
    && HoldsWrite(before, after, OpsRefund, o.opsRefund, keys)
    && HoldsWrite(before, after, PairingQuality, o.pairing, keys)
    && HoldsWrite(before, after, AdminTxSearch, o.adminTx, keys)
  }

  ghost predicate SupplyOpsStored<R>(before: Tables<R>, after: Tables<R>, o: BagOutputs<R>, keys: KeysOf<R>) {
    DailyStored(before, after, o, keys) && HoldsWrite(before, after, ExceptionLedger, o.supplyExceptions, keys)
  }

  ghost predicate AllStored<R>(before: Tables<R>, after: Tables<R>, o: BagOutputs<R>, keys: KeysOf<R>) {
    && HoldsWrite(before, after, ReconDaily, o.recon, keys)
    && DailyStored(before, after, o, keys)
    && HoldsWrite(before, after, ExceptionLedger, o.reconExceptions + o.supplyExceptions, keys)
  }

  lemma {:induction false} PutAllTouches<R>(tables: Tables<R>, batches: seq<Rows<R>>, keys: KeysOf<R>, t: Table)
    requires Untouched(batches, t)
    ensures TableOf(PutAll(tables, batches, keys).tables, t) == TableOf(tables, t)
  {
    if batches != [] {
      var front, last := batches[..|batches|-1], batches[|batches|-1];
      assert Untouched(front, t) by {
        assert forall i | 0 <= i < |front| :: front[i] == batches[i];
      }
      PutAllTouches(tables, front, keys, t);
      PutTouchesOneTable(PutAll(tables, front, keys).tables, last, keys);
    }
  }

  /** The tables a task may touch, whatever it gets done. */
  lemma {:induction false} TaskTouches<R>(tables: Tables<R>, o: BagOutputs<R>, keys: KeysOf<R>, n: nat)
    ensures n <= |RowsOf(o, Only(Recon))| ==>
              OnlyTouches(tables, PutAll(tables, RowsOf(o, Only(Recon))[..n], keys).tables,
                          {ReconDaily, ExceptionLedger})
    ensures n <= |RowsOf(o, Only(SupplyOps))| ==>
              OnlyTouches(tables, PutAll(tables, RowsOf(o, Only(SupplyOps))[..n], keys).tables,
                          {SupplyBalance, OpsFailure, OpsRefund, PairingQuality, AdminTxSearch, ExceptionLedger})
  {
    forall t | n <= |RowsOf(o, Only(Recon))| && t !in {ReconDaily, ExceptionLedger}
      ensures TableOf(PutAll(tables, RowsOf(o, Only(Recon))[..n], keys).tables, t) == TableOf(tables, t)
    {
      PutAllTouches(tables, RowsOf(o, Only(Recon))[..n], keys, t);
    }
    forall t | n <= |RowsOf(o, Only(SupplyOps))|
               && t !in {SupplyBalance, OpsFailure, OpsRefund, PairingQuality, AdminTxSearch, ExceptionLedger}
      ensures TableOf(PutAll(tables, RowsOf(o, Only(SupplyOps))[..n], keys).tables, t) == TableOf(tables, t)
    {
      PutAllTouches(tables, RowsOf(o, Only(SupplyOps))[..n], keys, t);
    }
  }

  lemma {:induction false} BatchIsStored<R>(tables: Tables<R>, batches: seq<Rows<R>>, keys: KeysOf<R>, i: nat)
    requires DistinctTables(batches) && PutAll(tables, batches, keys).error.None? && i < |batches|
    ensures HoldsWrite(tables, PutAll(tables, batches, keys).tables, batches[i].table, batches[i].rows, keys)
  {
    PutAllIsEachPut(tables, batches, keys);
    assert HoldsPut(tables, batches[i], keys, PutAll(tables, batches, keys).tables);
  }

  lemma {:induction false} BatchesAreStored<R>(tables: Tables<R>, batches: seq<Rows<R>>, keys: KeysOf<R>)
    requires DistinctTables(batches) && PutAll(tables, batches, keys).error.None?
    ensures forall b | b in batches :: HoldsWrite(tables, PutAll(tables, batches, keys).tables, b.table, b.rows, keys)
  {
    forall i | 0 <= i < |batches|
      ensures HoldsWrite(tables, PutAll(tables, batches, keys).tables, batches[i].table, batches[i].rows, keys)
    {
      BatchIsStored(tables, batches, keys, i);
    }
  }

  lemma {:induction false} ReconIsStored<R>(tables: Tables<R>, o: BagOutputs<R>, keys: KeysOf<R>)
    requires PutAll(tables, RowsOf(o, Only(Recon)), keys).error.None?
    ensures ReconStored(tables, PutAll(tables, RowsOf(o, Only(Recon)), keys).tables, o, keys)
  {
    var batches := RowsOf(o, Only(Recon));
    BatchesAreStored(tables, batches, keys);
    assert Rows(ReconDaily, o.recon) in batches && Rows(ExceptionLedger, o.reconExceptions) in batches;
  }

  lemma {:induction false} DailyIsStored<R>(tables: Tables<R>, batches: seq<Rows<R>>, o: BagOutputs<R>, keys: KeysOf<R>)
    requires DistinctTables(batches) && PutAll(tables, batches, keys).error.None?
    requires Rows(SupplyBalance, o.supply) in batches && Rows(OpsFailure, o.opsFailure) in batches
    requires Rows(OpsRefund, o.opsRefund) in batches && Rows(PairingQuality, o.pairing) in batches
    requires Rows(AdminTxSearch, o.adminTx) in batches
    ensures DailyStored(tables, PutAll(tables, batches, keys).tables, o, keys)
  {
    BatchesAreStored(tables, batches, keys);
  }

  lemma {:induction false} SupplyOpsIsStored<R>(tables: Tables<R>, o: BagOutputs<R>, keys: KeysOf<R>)
    requires PutAll(tables, RowsOf(o, Only(SupplyOps)), keys).error.None?
    ensures SupplyOpsStored(tables, PutAll(tables, RowsOf(o, Only(SupplyOps)), keys).tables, o, keys)
  {
    var batches := RowsOf(o, Only(SupplyOps));
    assert batches[0] in batches && batches[1] in batches && batches[2] in batches && batches[3] in batches;
    assert batches[4] in batches && batches[5] in batches;
    DailyIsStored(tables, batches, o, keys);
    BatchIsStored(tables, batches, keys, 5);
  }

  lemma {:induction false} AllIsStored<R>(tables: Tables<R>, o: BagOutputs<R>, keys: KeysOf<R>)
    requires PutAll(tables, RowsOf(o, All), keys).error.None?
    ensures AllStored(tables, PutAll(tables, RowsOf(o, All), keys).tables, o, keys)
  {
    var batches := RowsOf(o, All);
    assert batches[1] in batches && batches[2] in batches && batches[3] in batches && batches[4] in batches;
    assert batches[5] in batches;
    DailyIsStored(tables, batches, o, keys);
    BatchIsStored(tables, batches, keys, 0);
    BatchIsStored(tables, batches, keys, 6);
  }

  /** Keyed outputs of the right types on keyed tables: no merge of any task is refused, and the unsplit
      run leaves everything a complete run writes. */
  lemma {:induction false} KeyedRunGoesThrough<R>(tables: Tables<R>, o: BagOutputs<R>, keys: KeysOf<R>, arg: TaskArg)
    requires KeyedTables(tables, keys) && KeyedOutputs(o, keys) && AsOutputs(o, keys).TypedExceptions()
    ensures PutAll(tables, RowsOf(o, arg), keys).error.None?
    ensures arg.All? ==> View(PutAll(tables, RowsOf(o, arg), keys).tables, keys)
                         == View(tables, keys) + Total(AsOutputs(o, keys))
  {
    match arg
    case All =>
      assert RowsOf(o, arg) == AllRows(o);
      StoredSplitMatchesUnsplit(tables, o, keys, Recon, SupplyOps);
    case Only(t) =>
      assert RowsOf(o, arg) == TaskRows(o, t) && KeyedBatches(TaskRows(o, t), keys);
      PutAllIsWriteAll(tables, TaskRows(o, t), keys);
    case _ =>
  }

  /** What a run does to the tables by name. */
  ghost predicate HasEffect<R>(before: Tables<R>, o: BagOutputs<R>, keys: KeysOf<R>, arg: TaskArg, failAt: Option<nat>,
                               ok: bool, after: Tables<R>) {
    && (arg == Only(Recon) ==> OnlyTouches(before, after, {ReconDaily, ExceptionLedger}))
    && (arg == Only(SupplyOps) ==>
          OnlyTouches(before, after,
                      {SupplyBalance, OpsFailure, OpsRefund, PairingQuality, AdminTxSearch, ExceptionLedger}))
    && (arg == Only(Recon) && ok ==> ReconStored(before, after, o, keys))
    && (arg == Only(SupplyOps) && ok ==> SupplyOpsStored(before, after, o, keys))
    && (arg == All && ok ==> AllStored(before, after, o, keys))
    && (KeyedTables(before, keys) && KeyedOutputs(o, keys) && AsOutputs(o, keys).TypedExceptions() ==>
          && (failAt.None? ==> ok)
          && (arg == All && ok ==> View(after, keys) == View(before, keys) + Total(AsOutputs(o, keys))))
  }

  lemma {:induction false} RunEffect<R>(before: Tables<R>, o: BagOutputs<R>, keys: KeysOf<R>, arg: TaskArg,
                                        failAt: Option<nat>, n: nat, ok: bool, after: Tables<R>)
    requires arg.All? || arg.Only?
    requires n == MergesMade(RowsOf(o, arg), failAt) && RowsOf(o, arg)[..|RowsOf(o, arg)|] == RowsOf(o, arg)
    requires after == PutAll(before, RowsOf(o, arg)[..n], keys).tables
    requires ok <==> PutAll(before, RowsOf(o, arg)[..n], keys).error.None? && failAt != Some(n)
    ensures HasEffect(before, o, keys, arg, failAt, ok, after)
  {
    TaskTouches(before, o, keys, n);
    if ok {
      assert n == |RowsOf(o, arg)|;
      match arg
      case Only(Recon) => ReconIsStored(before, o, keys);
      case Only(SupplyOps) => SupplyOpsIsStored(before, o, keys);
      case All => AllIsStored(before, o, keys);
    }
    if KeyedTables(before, keys) && KeyedOutputs(o, keys) && AsOutputs(o, keys).TypedExceptions() {
      KeyedRunGoesThrough(before, o, keys, arg);
    }
  }

  /** The stored tables, and the script's main over them. `failAt` is the merge an exception of its
      own strikes before, if any; merges already made stay made, and a refused merge ends the run. */
  class Catalog<R> {
    var tables: Tables<R>
    var state: Option<StateRecord>
    const keys: KeysOf<R>

    constructor (keys: KeysOf<R>)
      ensures tables == map[] && state == None && this.keys == keys
    {
      tables, state := map[], None;
      this.keys := keys;
    }

    method WriteState(status: Status, runId: string, processedEnd: Option<int>, now: int)
      requires status.Success? ==> processedEnd.Some?
      modifies `state
      ensures state == Some(ApplyPipelineState("pipeline_b", runId, status, old(state), processedEnd, now,
              NoText).value)
    {
      if status.Success? {
        state := Some(ApplyPipelineState("pipeline_b", runId, Success, None, processedEnd, now, NoText).value);
      } else {
        var current := state;
        state := Some(ApplyPipelineState("pipeline_b", runId, Failure, current, None, now, NoText).value);
      }
    }

    /** The gold writes, one merge after another, up to the first refused one. */
    method WriteTables(batches: seq<Rows<R>>) returns (ok: bool)
      modifies `tables
      ensures tables == PutAll(old(tables), batches, keys).tables
      ensures ok <==> PutAll(old(tables), batches, keys).error.None?
    {
      for i := 0 to |batches|
        invariant Written(tables, None) == PutAll(old(tables), batches[..i], keys)
      {
        assert batches[..i+1][..i] == batches[..i];
        var put := Put(tables, batches[i], keys);
        if put.Err? {
          RefusalSticks(old(tables), batches, i + 1, keys);
          return false;
        }
        tables := put.value;
      }
      assert batches[..|batches|] == batches;
      return true;
    }

    method RunPipelineB(arg: TaskArg, outputs: BagOutputs<R>, failAt: Option<nat>, runId: string, processedEnd: int,
                        now: int)
      returns (ok: bool)
      modifies this
      ensures arg.ArgFinalizeSuccess? || arg.ArgFinalizeFailure? ==> tables == old(tables) && ok
      ensures arg.All? || arg.Only? ==> HasEffect(old(tables), outputs, keys, arg, failAt, ok, tables)
      ensures var batches := RowsOf(outputs, arg);
              var n := MergesMade(batches, failAt);
              var written := PutAll(old(tables), batches[..n], keys);
              && tables == written.tables
              && (ok <==> || arg.ArgFinalizeSuccess? || arg.ArgFinalizeFailure?
                          || (written.error.None? && failAt != Some(n)))
      ensures arg.Only? ==> state == old(state)
      ensures arg.ArgFinalizeSuccess? || (arg.All? && ok) ==>
                state == Some(ApplyPipelineState("pipeline_b", runId, Success, None, Some(processedEnd), now,
                    NoText).value)
      ensures arg.ArgFinalizeFailure? || (arg.All? && !ok) ==>
                state == Some(ApplyPipelineState("pipeline_b", runId, Failure, old(state), None, now, NoText).value)
    {
      if arg.ArgFinalizeSuccess? {
        WriteState(Success, runId, Some(processedEnd), now);
        return true;
      }
      if arg.ArgFinalizeFailure? {
        WriteState(Failure, runId, None, now);
        return true;
      }
      var batches := RowsOf(outputs, arg);
      var n := MergesMade(batches, failAt);
      ok := WriteTables(batches[..n]);
      ok := ok && failAt != Some(n);
      assert n == |batches| ==> batches[..n] == batches;
      RunEffect(old(tables), outputs, keys, arg, failAt, n, ok, tables);
      if arg.All? {
        if ok {
          WriteState(Success, runId, Some(processedEnd), now);
        } else {
          WriteState(Failure, runId, None, now);
        }
      }
    }
  }

  lemma {:induction false} RefusalSticks<R>(tables: Tables<R>, batches: seq<Rows<R>>, n: nat, keys: KeysOf<R>)
    requires n <= |batches| && PutAll(tables, batches[..n], keys).error.Some?
    ensures PutAll(tables, batches, keys) == PutAll(tables, batches[..n], keys)
    decreases |batches|
  {
    if n < |batches| {
      assert batches[..|batches|-1][..n] == batches[..n];
      RefusalSticks(tables, batches[..|batches|-1], n, keys);
    } else {
      assert batches[..n] == batches;
    }
  }
}
