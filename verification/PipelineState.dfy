/** The checkpoint row of a pipeline: how success and failure update it, how it is read back,
    and the readiness gate downstream pipelines go through. */
module PipelineState {
  import opened Prelude

  // ----- Consecutive zero-window counts --------------------------------------------------

  /** A value in the stored JSON object: null, a number, or something int() rejects. */
  datatype JsonValue = JNull | JInt(n: int) | JOther

  /** The stored counts column: blank, not JSON, JSON but no object, or an object. */
  datatype CountsText = NoText | NotJson | NotObject | Object(fields: map<string, JsonValue>)

  type Counts = map<string, int>

  function Clamp(n: int): nat {
    if n < 0 then 0 else n
  }

  function SerializeZeroWindowCounts(counts: Counts): CountsText {
    Object(map k | k in counts :: JInt(Clamp(counts[k])))
  }

  /** Unreadable text means no counts; unreadable or null fields are dropped. */
  method ParseZeroWindowCounts(text: CountsText) returns (counts: Counts)
    ensures counts == ParsedCounts(text)
  {
    counts := map[];
    if text.NoText? || text.NotJson? || text.NotObject? {
      return;
    }
    var todo := text.fields.Keys;
    while todo != {}
      invariant todo <= text.fields.Keys
      invariant counts == ParsedCounts(Object(text.fields - todo))
    {
      var key :| key in todo;
      ghost var before := todo;
      todo := todo - {key};
      var raw := text.fields[key];
      if raw.JInt? {
        counts := counts[key := Clamp(raw.n)];
      }
      assert (text.fields - todo).Keys == (text.fields - before).Keys + {key};
    }
    assert text.fields - {} == text.fields;
  }

  function ParsedCounts(text: CountsText): Counts {
    if text.Object? then map k | k in text.fields && text.fields[k].JInt? :: Clamp(text.fields[k].n) else map[]
  }

  /** Counts survive the trip through the state row exactly when none is negative. */
  lemma {:induction false} CountsRoundTripIff(counts: Counts)
    ensures ParsedCounts(SerializeZeroWindowCounts(counts)) == counts <==> forall k | k in counts :: counts[k] >= 0
  {
  }

  /** What is read back of a stored count: the count, or zero for a negative one. */
  lemma {:induction false} ReadBackIsClamped(counts: Counts, k: string)
    ensures k in ParsedCounts(SerializeZeroWindowCounts(counts)) <==> k in counts
    ensures k in counts ==>
              var back := ParsedCounts(SerializeZeroWindowCounts(counts))[k];
              back >= 0 && back >= counts[k] && (back == counts[k] || back == 0)
  {
  }

  // ----- The state record -----------------------------------------------------------------

  datatype Status = Success | Failure

  datatype StateRecord = StateRecord(
    pipelineName: string, status: Status, lastSuccessTs: Option<int>, lastProcessedEnd: Option<int>,
    lastRunId: Option<string>, dqZeroWindowCounts: CountsText, updatedAt: int)

  datatype StateError = ProcessedEndRequired | NameRequired

  function ApplyPipelineState(pipelineName: string, runId: string, status: Status, current: Option<StateRecord>,
                              lastProcessedEnd: Option<int>, ts: int,
                              counts: CountsText): (r: Result<StateRecord, StateError>)
    ensures r.Err? <==> status.Success? && lastProcessedEnd.None?
  {
    if status.Success? then
      if lastProcessedEnd.None? then Err(ProcessedEndRequired)
      else Ok(StateRecord(pipelineName, Success, Some(ts), lastProcessedEnd, Some(runId), counts, ts))
    else
      Ok(StateRecord(pipelineName, Failure,
                     if current.Some? then current.value.lastSuccessTs else None,
                     if current.Some? then current.value.lastProcessedEnd else None,
                     Some(runId),
                     if current.Some? then current.value.dqZeroWindowCounts else NoText,
                     ts))
  }

  /** A failure keeps the whole checkpoint: a later success forgets it happened, and failures in
      a row are as good as the last one. */
  lemma {:induction false} FailuresLeaveNoTrace(name: string, run1: string, run2: string, current: Option<StateRecord>,
                                                end: int, t1: int, t2: int, counts: CountsText)
    ensures var failed := ApplyPipelineState(name, run1, Failure, current, None, t1, counts);
            && failed.Ok?
            && ApplyPipelineState(name, run2, Failure, Some(failed.value), None, t2, counts)
               == ApplyPipelineState(name, run2, Failure, current, None, t2, counts)
            && ApplyPipelineState(name, run2, Success, Some(failed.value), Some(end), t2, counts)
               == ApplyPipelineState(name, run2, Success, current, Some(end), t2, counts)
  {
  }

  /** A stored row; rows written before the status column existed carry none. */
  datatype StoredRow = StoredRow(
    pipelineName: string, status: Option<Status>, lastSuccessTs: Option<int>, lastProcessedEnd: Option<int>,
    lastRunId: Option<string>, dqZeroWindowCounts: CountsText, updatedAt: Option<int>)

  function AsRow(s: StateRecord): StoredRow {
    StoredRow(s.pipelineName, Some(s.status), s.lastSuccessTs, s.lastProcessedEnd, s.lastRunId, s.dqZeroWindowCounts,
        Some(s.updatedAt))
  }

  function InferLegacyStatus(lastSuccessTs: Option<int>, updatedAt: Option<int>): Status {
    if lastSuccessTs.Some? && updatedAt.Some? && updatedAt.value == lastSuccessTs.value then Success else Failure
  }

  function ParseStateRecord(row: StoredRow, now: int): Result<StateRecord, StateError> {
    if row.pipelineName == "" then Err(NameRequired)
    else
      var status := if row.status.Some? then row.status.value else InferLegacyStatus(row.lastSuccessTs, row.updatedAt);
      Ok(StateRecord(row.pipelineName, status, row.lastSuccessTs, row.lastProcessedEnd, row.lastRunId,
                     row.dqZeroWindowCounts, if row.updatedAt.Some? then row.updatedAt.value else now))
  }

  /** A written record reads back as itself. Without its status column it still does, except
      exactly for a failure stamped at the very instant of the last success. */
  lemma {:induction false} StateRoundTrip(s: StateRecord, now: int)
    requires s.pipelineName != ""
    ensures ParseStateRecord(AsRow(s), now) == Ok(s)
    ensures (exists name, run, current, end, ts, counts ::
            ApplyPipelineState(name, run, s.status, current, end, ts, counts) == Ok(s)) ==>
              (ParseStateRecord(AsRow(s).(status := None), now) == Ok(s)
               <==> !(s.status.Failure? && s.lastSuccessTs == Some(s.updatedAt)))
  {
  }

  // ----- The readiness gate ------------------------------------------------------------------

  datatype ReadinessError = RowNotFound | NoLastSuccess | NoProcessedEnd | Stale

  /** B and C may run for data up to `required` only past this gate. */
  function CheckUpstream(state: Option<StateRecord>, required: int): Result<(), ReadinessError> {
    if state.None? then Err(RowNotFound)
    else if state.value.lastSuccessTs.None? then Err(NoLastSuccess)
    else if state.value.lastProcessedEnd.None? then Err(NoProcessedEnd)
    else if state.value.lastProcessedEnd.value < required then Err(Stale)
    else Ok(())
  }

  /** The gate looks at the checkpoint, not at the status: a failure after a success never
      closes it, and it opens for an end exactly when it opens for every earlier end. */
  lemma {:induction false} GateSurvivesFailure(s: StateRecord, run: string, ts: int, required: int)
    ensures CheckUpstream(Some(ApplyPipelineState(s.pipelineName, run, Failure, Some(s), None, ts, NoText).value),
            required)
            == CheckUpstream(Some(s), required)
    ensures CheckUpstream(Some(s), required).Ok? <==> forall r | r <= required :: CheckUpstream(Some(s), r).Ok?
  {
  }

  predicate Names(s: StateRecord, name: string, run: string) {
    s.pipelineName == name && s.lastRunId == Some(run)
  }

  /** A success opens the gate exactly up to the end it reports, whatever was there before, and stores its
      counts; a failure leaves the gate and the counts as they were, shut and empty where there was no row. */
  lemma {:induction false} GateAfterCommit(name: string, run: string, current: Option<StateRecord>, end: int, ts: int,
                                           counts: Counts, required: int)
    ensures var stored := SerializeZeroWindowCounts(counts);
            var row := ApplyPipelineState(name, run, Success, current, Some(end), ts, stored);
            && row.Ok? && Names(row.value, name, run) && row.value.status.Success?
            && (CheckUpstream(Some(row.value), required).Ok? <==> required <= end)
            && row.value.dqZeroWindowCounts == stored
    ensures var stored := SerializeZeroWindowCounts(counts);
            var row := ApplyPipelineState(name, run, Failure, current, Some(end), ts, stored);
            && row.Ok? && Names(row.value, name, run) && row.value.status.Failure?
            && (CheckUpstream(Some(row.value), required).Ok? <==> CheckUpstream(current, required).Ok?)
            && row.value.dqZeroWindowCounts == (if current.Some? then current.value.dqZeroWindowCounts else NoText)
  {
  }

}
