/** Pipeline A as a protocol over the checkpoint row. A run reads the row when it starts and
    writes it once at the end: the new checkpoint on success, the state it read at the start
    on failure, nothing when it crashes. */
module GuardrailRuns {
  import opened Prelude
  import opened KstTime
  import opened JobWindows
  import opened PipelineState
  import opened LedgerControls
  import opened Guardrail

  // ----- Overlapping runs ------------------------------------------------------------------

  datatype InFlight = InFlight(initial: Option<StateRecord>, params: JobParams)

  /** The row, the runs under way, and the windows of the runs that committed success. */
  datatype World = World(row: Option<StateRecord>, runs: map<nat, InFlight>, done: seq<Window>)

  datatype Action =
    | Start(id: nat, payload: Payload, now: int)
    | Succeed(id: nat, now: int, counts: CountsText)
    | Fail(id: nat, now: int)
    | Crash(id: nat)

  const NAME := "pipeline_a"

  function Checkpoint(row: Option<StateRecord>): Option<int> {
    if row.Some? then row.value.lastProcessedEnd else None
  }

  function ResolveParams(row: Option<StateRecord>, payload: Payload, now: int): Result<JobParams, ParamError> {
    FromDefaulted(InjectIncrementalWindow(payload, Checkpoint(row), now, DEFAULT_WINDOW_MINUTES))
  }

  function SuccessRow(params: JobParams, now: int, counts: CountsText): Option<StateRecord> {
    Some(ApplyPipelineState(NAME, "run", Success, None, Some(params.ProcessedEnd(now)), now, counts).value)
  }

  function FailureRow(initial: Option<StateRecord>, now: int): Option<StateRecord> {
    Some(ApplyPipelineState(NAME, "run", Failure, initial, None, now, NoText).value)
  }

  /** One step; an action that does not apply changes nothing. */
  function Step(w: World, a: Action): World {
    match a
    case Start(id, payload, now) =>
      var params := ResolveParams(w.row, payload, now);
      if id in w.runs || params.Err? then w
      else w.(runs := w.runs[id := InFlight(w.row, params.value)])
    case Succeed(id, now, counts) =>
      if id !in w.runs || !w.runs[id].params.Accepted() then w
      else
        var params := w.runs[id].params;
        World(SuccessRow(params, now, counts), w.runs - {id}, w.done + WindowsOf(params))
    case Fail(id, now) =>
      if id !in w.runs then w
      else World(FailureRow(w.runs[id].initial, now), w.runs - {id}, w.done)
    case Crash(id) => w.(runs := w.runs - {id})
  }

  function Run(w: World, actions: seq<Action>): World {
    if actions == [] then w else Step(Run(w, actions[..|actions|-1]), actions[|actions|-1])
  }

  /** A run with no window given. */
  predicate DefaultRun(p: Payload) {
    (p.runMode.Blank? || p.runMode.Incremental?) && p.WindowBlank()
  }

  ghost predicate Covered(base: int, x: int, done: seq<Window>) {
    forall t | base <= t < x :: InSome(t, done)
  }

  lemma {:induction false} MoreWindowsCoverMore(t: int, done: seq<Window>, more: seq<Window>)
    ensures InSome(t, done) ==> InSome(t, done + more)
    ensures InSome(t, more) ==> InSome(t, done + more)
  {
    if i :| 0 <= i < |done| && done[i].Contains(t) {
      assert (done + more)[i].Contains(t);
    }
    if i :| 0 <= i < |more| && more[i].Contains(t) {
      assert (done + more)[|done| + i].Contains(t);
    }
  }

  /** A checkpoint value is sound when everything from the base up to it was processed. */
  ghost predicate Sound(base: int, row: Option<StateRecord>, done: seq<Window>) {
    Checkpoint(row).Some? && Covered(base, Checkpoint(row).value, done)
  }

  /** A default run picks up where the checkpoint it read left off, or ends before it. */
  predicate PicksUp(r: InFlight) {
    && r.params.Accepted() && r.params.incremental && Checkpoint(r.initial).Some?
    && (r.params.startTs.value == Checkpoint(r.initial).value || r.params.endTs.value <= Checkpoint(r.initial).value)
  }

  ghost predicate Inv(base: int, w: World) {
    && Sound(base, w.row, w.done)
    && forall id | id in w.runs :: PicksUp(w.runs[id]) && Sound(base, w.runs[id].initial, w.done)
  }

  lemma {:induction false} SoundKept(base: int, row: Option<StateRecord>, done: seq<Window>, more: seq<Window>)
    requires Sound(base, row, done)
    ensures Sound(base, row, done + more)
  {
    forall t | base <= t < Checkpoint(row).value
      ensures InSome(t, done + more)
    {
      MoreWindowsCoverMore(t, done, more);
    }
  }

  lemma {:induction false} StepKeepsInv(base: int, w: World, a: Action)
    requires Inv(base, w) && (a.Start? ==> DefaultRun(a.payload))
    ensures Inv(base, Step(w, a))
  {
    var w' := Step(w, a);
    match a
    case Start(id, payload, now) =>
    case Succeed(id, now, counts) =>
      if id in w.runs {
        var r := w.runs[id];
        var added := WindowsOf(r.params);
        forall t | base <= t < r.params.ProcessedEnd(now)
          ensures InSome(t, w.done + added)
        {
          if t < Checkpoint(r.initial).value {
            assert InSome(t, w.done);
          } else {
            assert added[0].Contains(t);
          }
          MoreWindowsCoverMore(t, w.done, added);
        }
        forall other | other in w'.runs
          ensures Sound(base, w'.runs[other].initial, w'.done)
        {
          SoundKept(base, w.runs[other].initial, w.done, added);
        }
      }
    case Fail(id, now) =>
    case Crash(id) =>
  }

  /** Safety over every interleaving of default runs, with any clocks: from a checkpoint L0 on,
      every instant before the checkpoint lies in the window of a run that succeeded. */
  lemma {:induction false} CheckpointIsAlwaysCovered(base: int, w: World, actions: seq<Action>)
    requires Checkpoint(w.row) == Some(base) && w.runs == map[]
    requires forall i | 0 <= i < |actions| && actions[i].Start? :: DefaultRun(actions[i].payload)
    ensures Inv(base, Run(w, actions))
  {
    if actions != [] {
      CheckpointIsAlwaysCovered(base, w, actions[..|actions|-1]);
      StepKeepsInv(base, Run(w, actions[..|actions|-1]), actions[|actions|-1]);
    }
  }

  // ----- When the checkpoint goes back ------------------------------------------------------

  function CheckpointValue(w: World): int {
    if Checkpoint(w.row).Some? then Checkpoint(w.row).value else 0
  }

  /** A commit of something older than the current checkpoint: a failure that read an earlier
      checkpoint at its start, or a success whose window ends earlier. */
  predicate Rewinds(w: World, a: Action) {
    match a
    case Fail(id, _) =>
      id in w.runs && Checkpoint(w.runs[id].initial).Some? && Checkpoint(w.runs[id].initial).value < CheckpointValue(w)
    case Succeed(id, _, _) =>
      id in w.runs && w.runs[id].params.Accepted() && w.runs[id].params.endTs.Some?
      && w.runs[id].params.endTs.value < CheckpointValue(w)
    case _ => false
  }

  /** In every reachable world, a step takes the checkpoint back exactly when it commits something older. */
  lemma {:induction false} CheckpointFallsIff(base: int, w: World, a: Action)
    requires Inv(base, w) && (a.Start? ==> DefaultRun(a.payload))
    ensures CheckpointValue(Step(w, a)) < CheckpointValue(w) <==> Rewinds(w, a)
  {
    StepKeepsInv(base, w, a);
  }

  ghost predicate NeverFalls(w: World, actions: seq<Action>) {
    forall i, j | 0 <= i <= j <= |actions| ::
        CheckpointValue(Run(w, actions[..i])) <= CheckpointValue(Run(w, actions[..j]))
  }

  ghost predicate NeverRewinds(w: World, actions: seq<Action>) {
    forall i | 0 <= i < |actions| :: !Rewinds(Run(w, actions[..i]), actions[i])
  }

  /** Over a whole interleaving the checkpoint is monotone exactly when no such commit occurs. */
  lemma {:induction false} CheckpointIsMonotoneIff(base: int, w: World, actions: seq<Action>)
    requires Checkpoint(w.row) == Some(base) && w.runs == map[]
    requires forall i | 0 <= i < |actions| && actions[i].Start? :: DefaultRun(actions[i].payload)
    ensures NeverFalls(w, actions) <==> NeverRewinds(w, actions)
  {
    forall i | 0 <= i < |actions|
      ensures CheckpointValue(Run(w, actions[..i+1])) < CheckpointValue(Run(w, actions[..i]))
              <==> Rewinds(Run(w, actions[..i]), actions[i])
    {
      CheckpointIsAlwaysCovered(base, w, actions[..i]);
      assert actions[..i+1][..i] == actions[..i];
      CheckpointFallsIff(base, Run(w, actions[..i]), actions[i]);
    }
    if NeverRewinds(w, actions) {
      forall i, j | 0 <= i <= j <= |actions|
        ensures CheckpointValue(Run(w, actions[..i])) <= CheckpointValue(Run(w, actions[..j]))
      {
        StepsNeverFall(w, actions, i, j);
      }
    }
    if NeverFalls(w, actions) {
      forall i | 0 <= i < |actions|
        ensures !Rewinds(Run(w, actions[..i]), actions[i])
      {
        assert CheckpointValue(Run(w, actions[..i])) <= CheckpointValue(Run(w, actions[..i+1]));
      }
    }
  }

  lemma {:induction false} StepsNeverFall(w: World, actions: seq<Action>, i: nat, j: nat)
    requires i <= j <= |actions|
    requires forall k | 0 <= k < |actions| ::
             CheckpointValue(Run(w, actions[..k])) <= CheckpointValue(Run(w, actions[..k+1]))
    ensures CheckpointValue(Run(w, actions[..i])) <= CheckpointValue(Run(w, actions[..j]))
    decreases j - i
  {
    if i < j {
      StepsNeverFall(w, actions, i, j - 1);
      assert CheckpointValue(Run(w, actions[..j-1])) <= CheckpointValue(Run(w, actions[..j-1+1]));
    }
  }

  const BLANK := Payload(Blank, None, None, None, None)

  /** Two blank runs that overlap, the later of which succeeds first. */
  function Overlap(base: int): seq<Action> {
    [Start(0, BLANK, base + 1), Start(1, BLANK, base + 2), Succeed(1, base + 3, NoText)]
  }

  lemma {:induction false} OverlapLeaves(w: World, base: int)
    requires Checkpoint(w.row) == Some(base) && w.runs == map[]
    ensures Run(w, Overlap(base)[..0]) == w && Run(w, Overlap(base)[..1]).row == w.row
    ensures var w' := Run(w, Overlap(base));
            && Checkpoint(w'.row) == Some(base + 2) && w'.done == w.done + [Window(base, base + 2)]
            && w'.runs == map[0 := InFlight(w.row, JobParams(true, Some(base), Some(base + 1), None, None))]
  {
    var a := Overlap(base);
    var w1 := Step(w, a[0]);
    var w2 := Step(w1, a[1]);
    var w3 := Step(w2, a[2]);
    assert w1.runs == map[0 := InFlight(w.row, JobParams(true, Some(base), Some(base + 1), None, None))];
    assert w2.runs[1] == InFlight(w.row, JobParams(true, Some(base), Some(base + 2), None, None));
    assert w3.runs == w1.runs;
    assert a[..1][..0] == [] && a[..2][..1] == a[..1] && a[..3][..2] == a[..2] && a[..3] == a;
    assert Run(w, a[..1]) == w1;
    assert Run(w, a[..2]) == w2;
    assert Run(w, a) == w3;
  }

  /** Both kinds occur: whether the earlier of two overlapping runs then fails or succeeds, the checkpoint
      goes back. */
  lemma {:induction false} LateCommitsRewindCheckpoint(w: World, base: int)
    requires Checkpoint(w.row) == Some(base) && w.runs == map[]
    ensures Checkpoint(Run(w, Overlap(base)).row) == Some(base + 2)
    ensures Checkpoint(Run(w, Overlap(base) + [Fail(0, base + 4)]).row) == Some(base)
    ensures Checkpoint(Run(w, Overlap(base) + [Succeed(0, base + 4, NoText)]).row) == Some(base + 1)
  {
    OverlapLeaves(w, base);
    assert (Overlap(base) + [Fail(0, base + 4)])[..3] == Overlap(base);
    assert (Overlap(base) + [Succeed(0, base + 4, NoText)])[..3] == Overlap(base);
  }

  // ----- Runs one after the other --------------------------------------------------------------

  datatype Outcome = Succeeds | Fails | Crashes

  /** A whole run: what it is given, when it starts, how it ends, and how many events of each
      source each window holds. */
  datatype RunEvent = RunEvent(payload: Payload, now: int, outcome: Outcome, count: (string, Window) -> nat)

  /** The sources in the order the run visits them. */
  const SOURCES := ["bronze.transaction_ledger_raw", "bronze.user_wallets_raw", "bronze.payment_orders_raw"]

  /** The zero-window count after a sequence of windows, given the count before them. */
  function ZeroRun(previous: nat, empty: seq<bool>): nat {
    if empty == [] then previous
    else if empty[|empty|-1] then ZeroRun(previous, empty[..|empty|-1]) + 1
    else 0
  }

  function EmptyFlags(windows: seq<Window>, source: string, count: (string, Window) -> nat): seq<bool> {
    seq(|windows|, i requires 0 <= i < |windows| => count(source, windows[i]) == 0)
  }

  function CountOf(counts: Counts, source: string): nat {
    if source in counts then Clamp(counts[source]) else 0
  }

  ghost predicate Counted(initial: Counts, windows: seq<Window>, sources: seq<string>, count: (string, Window) -> nat,
                          counts: Counts) {
    && (forall s | s in sources ::
        s in counts && counts[s] == ZeroRun(CountOf(initial, s), EmptyFlags(windows, s, count)))
    && (forall s | s in counts :: s in sources || s in initial)
    && (forall s | s in initial && s !in sources :: s in counts && counts[s] == initial[s])
  }

  /** One window updates the count of every source and of nothing else. */
  ghost predicate Measured(before: Counts, window: Window, sources: seq<string>, count: (string, Window) -> nat,
                           counts: Counts) {
    && (forall s | s in sources :: s in counts && counts[s] == ZeroWindows(CountOf(before, s), count(s, window)))
    && (forall s | s in counts :: s in before || s in sources)
    && (forall s | s in before && s !in sources :: s in counts && counts[s] == before[s])
  }

  /** The inner loop: one window, every source. */
  method MeasureWindow(window: Window, sources: seq<string>, before: Counts, count: (string, Window) -> nat)
    returns (counts: Counts)
    requires forall i, j | 0 <= i < j < |sources| :: sources[i] != sources[j]
    ensures Measured(before, window, sources, count, counts)
  {
    counts := before;
    for i := 0 to |sources|
      invariant forall k | 0 <= k < i ::
                sources[k] in counts && counts[sources[k]] == ZeroWindows(CountOf(before, sources[k]),
                count(sources[k], window))
      invariant forall k | i <= k < |sources| :: CountOf(counts, sources[k]) == CountOf(before, sources[k])
      invariant forall s | s in counts :: s in before || s in sources
      invariant forall s | s in before && s !in sources :: s in counts && counts[s] == before[s]
    {
      var source := sources[i];
      var previous := CountOf(counts, source);
      var eventCount := count(source, window);
      counts := counts[source := if eventCount == 0 then previous + 1 else 0];
    }
  }

  lemma {:induction false} CountedStep(initial: Counts, windows: seq<Window>, w: nat, sources: seq<string>,
                                       count: (string, Window) -> nat, before: Counts, after: Counts)
    requires w < |windows| && Measured(before, windows[w], sources, count, after)
    requires if w == 0 then before == initial else Counted(initial, windows[..w], sources, count, before)
    ensures Counted(initial, windows[..w+1], sources, count, after)
  {
    forall s | s in sources
      ensures after[s] == ZeroRun(CountOf(initial, s), EmptyFlags(windows[..w+1], s, count))
    {
      EmptyFlagsStep(windows, s, count, w);
      ZeroRunStep(CountOf(initial, s), EmptyFlags(windows[..w], s, count), count(s, windows[w]) == 0);
      if w == 0 { assert EmptyFlags(windows[..0], s, count) == []; }
    }
  }

  /** Entry n reports the counts after window n. */
  ghost predicate CountedEach(initial: Counts, windows: seq<Window>, sources: seq<string>,
                              count: (string, Window) -> nat, measured: seq<Counts>) {
    && |measured| <= |windows|
    && forall n | 0 <= n < |measured| :: Counted(initial, windows[..n+1], sources, count, measured[n])
  }

  lemma {:induction false} CountedEachStep(initial: Counts, windows: seq<Window>, sources: seq<string>,
                                           count: (string, Window) -> nat, measured: seq<Counts>, counts: Counts)
    requires CountedEach(initial, windows, sources, count, measured) && |measured| < |windows|
    requires Counted(initial, windows[..|measured|+1], sources, count, counts)
    ensures CountedEach(initial, windows, sources, count, measured + [counts])
  {
  }

  /** The nested loop over windows and sources, carrying the counts. The statuses of window n report
      the counts `measured[n]`: the empty windows in a row up to and including it. */
  method MeasureWindows(windows: seq<Window>, sources: seq<string>, initial: Counts, count: (string, Window) -> nat)
    returns (counts: Counts, measured: seq<Counts>)
    requires forall i, j | 0 <= i < j < |sources| :: sources[i] != sources[j]
    requires windows != []
    ensures Counted(initial, windows, sources, count, counts)
    ensures |measured| == |windows| && CountedEach(initial, windows, sources, count, measured)
  {
    counts, measured := initial, [];
    for w := 0 to |windows|
      invariant if w == 0 then counts == initial else Counted(initial, windows[..w], sources, count, counts)
      invariant |measured| == w && CountedEach(initial, windows, sources, count, measured)
    {
      ghost var before := counts;
      counts := MeasureWindow(windows[w], sources, counts, count);
      CountedStep(initial, windows, w, sources, count, before, counts);
      CountedEachStep(initial, windows, sources, count, measured, counts);
      measured := measured + [counts];
    }
    assert windows[..|windows|] == windows;
  }

  lemma {:induction false} EmptyFlagsStep(windows: seq<Window>, s: string, count: (string, Window) -> nat, w: nat)
    requires w < |windows|
    ensures EmptyFlags(windows[..w+1], s, count) == EmptyFlags(windows[..w], s, count) + [count(s, windows[w]) == 0]
  {
  }

  lemma {:induction false} ZeroRunStep(previous: nat, empty: seq<bool>, e: bool)
    ensures ZeroRun(previous, empty + [e]) == if e then ZeroRun(previous, empty) + 1 else 0
  {
  }

  /** The counts a successful run stores. */
  function CountsAfter(initial: Counts, windows: seq<Window>, count: (string, Window) -> nat): Counts {
    map s | s in initial.Keys + (set x | x in SOURCES) ::
      if s in SOURCES then ZeroRun(CountOf(initial, s), EmptyFlags(windows, s, count)) else initial[s]
  }

  lemma {:induction false} CountedIsCountsAfter(initial: Counts, windows: seq<Window>, count: (string, Window) -> nat,
                                                counts: Counts)
    requires Counted(initial, windows, SOURCES, count, counts)
    ensures counts == CountsAfter(initial, windows, count)
  {
  }

  function StoredCounts(row: Option<StateRecord>): Counts {
    if row.Some? then ParsedCounts(row.value.dqZeroWindowCounts) else map[]
  }

  /** A run that nothing overlaps: its start, then how it ends. */
  function WholeRun(w: World, ev: RunEvent): World {
    var started := Step(w, Start(0, ev.payload, ev.now));
    match ev.outcome
    case Succeeds =>
      if 0 !in started.runs || !started.runs[0].params.Accepted() then started
      else
        var counts := CountsAfter(StoredCounts(w.row), WindowsOf(started.runs[0].params), ev.count);
        Step(started, Succeed(0, ev.now, SerializeZeroWindowCounts(counts)))
    case Fails => Step(started, Fail(0, ev.now))
    case Crashes => Step(started, Crash(0))
  }

  function History(w: World, events: seq<RunEvent>): World {
    if events == [] then w else WholeRun(History(w, events[..|events|-1]), events[|events|-1])
  }

  /** The row and the windows a run that nothing overlaps leaves behind. */
  lemma {:induction false} WholeRunIs(w: World, ev: RunEvent)
    requires w.runs == map[]
    ensures var params := ResolveParams(w.row, ev.payload, ev.now);
            WholeRun(w, ev)
            == if params.Err? || ev.outcome.Crashes? then w
               else if ev.outcome.Fails? then World(FailureRow(w.row, ev.now), map[], w.done)
               else
                 var counts := CountsAfter(StoredCounts(w.row), WindowsOf(params.value), ev.count);
                 World(SuccessRow(params.value, ev.now, SerializeZeroWindowCounts(counts)), map[],
                       w.done + WindowsOf(params.value))
  {
    var params := ResolveParams(w.row, ev.payload, ev.now);
    if params.Ok? {
      var started := Step(w, Start(0, ev.payload, ev.now));
      assert started.runs == map[0 := InFlight(w.row, params.value)];
      assert started.runs - {0} == map[];
    }
  }

  /** The row as a stored table, and the script's main over it: read the state, resolve the
      window, measure, then commit success, or commit failure with the state read at the start. */
  class StateTable {
    var row: Option<StateRecord>

    method RunGuardrail(ev: RunEvent) returns (ok: bool)
      modifies this
      ensures row == WholeRun(World(old(row), map[], []), ev).row
      ensures ok <==> ev.outcome.Succeeds? && ResolveParams(old(row), ev.payload, ev.now).Ok?
      ensures !ok && !ev.outcome.Fails? ==> row == old(row)
    {
      var initialState := row;
      ghost var started := Step(World(row, map[], []), Start(0, ev.payload, ev.now));
      var injected := InjectIncrementalWindow(ev.payload, Checkpoint(initialState), ev.now, DEFAULT_WINDOW_MINUTES);
      var resolved := FromDefaulted(injected);
      if resolved.Err? {
        return false;
      }
      assert started.runs == map[0 := InFlight(initialState, resolved.value)];
      var params := resolved.value;
      var counts := map[];
      if initialState.Some? {
        counts := ParseZeroWindowCounts(initialState.value.dqZeroWindowCounts);
      }
      if ev.outcome.Crashes? {
        return false;
      }
      if ev.outcome.Fails? {
        var failedState := ApplyPipelineState(NAME, "run", Failure, initialState, None, ev.now, NoText);
        row := Some(failedState.value);
        return false;
      }
      var windows := WindowsUtc(params);
      var after, measured := MeasureWindows(windows.value, SOURCES, counts, ev.count);
      CountedIsCountsAfter(counts, windows.value, ev.count, after);
      var successState := ApplyPipelineState(NAME, "run", Success, None, Some(params.ProcessedEnd(ev.now)), ev.now,
                                             SerializeZeroWindowCounts(after));
      row := Some(successState.value);
      return true;
    }
  }

  // ----- Tiling -----------------------------------------------------------------------------------

  lemma {:induction false} AdjacentWindowsAreDisjoint(windows: seq<Window>, i: nat, j: nat)
    requires Adjacent(windows) && i < j < |windows|
    ensures windows[i].end <= windows[j].start
  {
    if i + 1 < j {
      AdjacentWindowsAreDisjoint(windows, i, j - 1);
    }
  }

  ghost predicate Tiles(base: int, w: World) {
    && w.runs == map[] && Checkpoint(w.row).Some? && Adjacent(w.done)
    && (w.done == [] ==> Checkpoint(w.row).value == base)
    && (w.done != [] ==> w.done[0].start == base && w.done[|w.done|-1].end == Checkpoint(w.row).value)
  }

  /** Without overlap and with a clock that only moves forward, the windows of the successful
      default runs tile the time from the first checkpoint to the last: adjacent, none empty,
      so every instant is processed exactly once. */
  lemma {:induction false} SuccessfulWindowsTile(base: int, w: World, events: seq<RunEvent>)
    requires Checkpoint(w.row) == Some(base) && w.runs == map[] && w.done == []
    requires forall i | 0 <= i < |events| :: DefaultRun(events[i].payload) && events[i].now > base
    requires forall i, j | 0 <= i < j < |events| :: events[i].now < events[j].now
    ensures Tiles(base, History(w, events))
    ensures events != [] ==> Checkpoint(History(w, events).row).value <= events[|events|-1].now
    ensures events == [] ==> Checkpoint(History(w, events).row).value == base
  {
    if events != [] {
      var front, ev := events[..|events|-1], events[|events|-1];
      SuccessfulWindowsTile(base, w, front);
      TileStep(base, History(w, front), ev);
    }
  }

  lemma {:induction false} TileStep(base: int, w: World, ev: RunEvent)
    requires Tiles(base, w) && DefaultRun(ev.payload) && Checkpoint(w.row).value < ev.now
    ensures Tiles(base, WholeRun(w, ev)) && Checkpoint(WholeRun(w, ev).row).value <= ev.now
  {
    WholeRunIs(w, ev);
    DefaultRunContinues(w.row, ev.payload, ev.now);
  }

  lemma {:induction false} DefaultRunContinues(row: Option<StateRecord>, payload: Payload, now: int)
    requires DefaultRun(payload) && Checkpoint(row).Some? && Checkpoint(row).value < now
    ensures var params := ResolveParams(row, payload, now);
            params.Ok? && WindowsOf(params.value) == [Window(Checkpoint(row).value, now)]
                && params.value.ProcessedEnd(now) == now
  {
  }

  /** Windows that tile the time from the base on. */
  predicate TiledFrom(base: int, done: seq<Window>) {
    Adjacent(done) && (done != [] ==> done[0].start == base)
  }

  function LastEnd(base: int, done: seq<Window>): int {
    if done == [] then base else done[|done|-1].end
  }

  /** A success of a run that started from something else than the end of the last successful window,
      because another run succeeded, or a late failure rewound the checkpoint, in between. */
  predicate Stale(base: int, w: World, a: Action) {
    a.Succeed? && a.id in w.runs && Checkpoint(w.runs[a.id].initial) != Some(LastEnd(base, w.done))
  }

  /** Default runs whose clock is ahead of the checkpoint they read. */
  predicate AheadRun(w: World, a: Action) {
    a.Start? ==> DefaultRun(a.payload) && Checkpoint(w.row).Some? && Checkpoint(w.row).value < a.now
  }

  ghost predicate RunsContinue(w: World) {
    && Checkpoint(w.row).Some?
    && forall id | id in w.runs :: w.runs[id].params.Accepted() && w.runs[id].params.incremental
        && Checkpoint(w.runs[id].initial) == Some(WindowsOf(w.runs[id].params)[0].start)
  }

  lemma {:induction false} StepTilesIff(base: int, w: World, a: Action)
    requires RunsContinue(w) && AheadRun(w, a)
    ensures RunsContinue(Step(w, a))
    ensures TiledFrom(base, Step(w, a).done) <==> TiledFrom(base, w.done) && !Stale(base, w, a)
  {
    if a.Start? {
      DefaultRunContinues(w.row, a.payload, a.now);
    }
    if a.Succeed? && a.id in w.runs {
      var window := WindowsOf(w.runs[a.id].params)[0];
      assert WindowsOf(w.runs[a.id].params) == [window];
      TiledStep(base, w.done, window);
    }
  }

  lemma {:induction false} TiledStep(base: int, done: seq<Window>, w: Window)
    requires w.start < w.end
    ensures TiledFrom(base, done + [w]) <==> TiledFrom(base, done) && w.start == LastEnd(base, done)
  {
    var all := done + [w];
    assert forall i | 0 <= i < |done| :: all[i] == done[i];
    if Adjacent(all) && done != [] {
      assert all[|done|-1].end == all[|done|].start;
    }
  }

  ghost predicate NeverStale(base: int, w: World, actions: seq<Action>) {
    forall i | 0 <= i < |actions| :: !Stale(base, Run(w, actions[..i]), actions[i])
  }

  ghost predicate AlwaysAhead(w: World, actions: seq<Action>) {
    forall i | 0 <= i < |actions| :: AheadRun(Run(w, actions[..i]), actions[i])
  }

  /** When tiling survives overlap: over any interleaving, the windows of the successful runs tile the time
      from the first checkpoint on exactly when each of them started from the end of the one before. */
  lemma {:induction false} InterleavingTilesIff(base: int, w: World, actions: seq<Action>)
    requires Checkpoint(w.row) == Some(base) && w.runs == map[] && w.done == [] && AlwaysAhead(w, actions)
    ensures RunsContinue(Run(w, actions))
    ensures TiledFrom(base, Run(w, actions).done) <==> NeverStale(base, w, actions)
  {
    if actions != [] {
      var n := |actions| - 1;
      var front := actions[..n];
      assert forall i | 0 <= i <= n :: front[..i] == actions[..i];
      assert forall i | 0 <= i < n :: front[i] == actions[i];
      assert AlwaysAhead(w, front) by {
        assert forall i | 0 <= i < n :: AheadRun(Run(w, actions[..i]), actions[i]);
      }
      InterleavingTilesIff(base, w, front);
      assert AheadRun(Run(w, actions[..n]), actions[n]);
      StepTilesIff(base, Run(w, front), actions[n]);
      assert NeverStale(base, w, actions)
          <==> NeverStale(base, w, front) && !Stale(base, Run(w, front), actions[n]) by {
        assert forall i | 0 <= i < n ::
            Stale(base, Run(w, actions[..i]), actions[i]) <==> Stale(base, Run(w, front[..i]), front[i]);
      }
    }
  }

  lemma {:induction false} OverlapIsAhead(w: World, base: int)
    requires Checkpoint(w.row) == Some(base) && w.runs == map[]
    ensures AlwaysAhead(w, Overlap(base) + [Succeed(0, base + 4, NoText)])
  {
    var both := Overlap(base) + [Succeed(0, base + 4, NoText)];
    OverlapLeaves(w, base);
    assert both[..0] == Overlap(base)[..0] && both[..1] == Overlap(base)[..1];
  }

  /** Overlap does break it: two blank runs that overlap and both succeed process the same time twice. */
  lemma {:induction false} OverlapBreaksTiling(w: World, base: int)
    requires Checkpoint(w.row) == Some(base) && w.runs == map[] && w.done == []
    ensures var both := Overlap(base) + [Succeed(0, base + 4, NoText)];
            && AlwaysAhead(w, both) && !TiledFrom(base, Run(w, both).done)
            && Run(w, both).done == [Window(base, base + 2)] + [Window(base, base + 1)]
  {
    var both := Overlap(base) + [Succeed(0, base + 4, NoText)];
    OverlapIsAhead(w, base);
    OverlapLeaves(w, base);
    var w' := Run(w, Overlap(base));
    assert w'.done == [Window(base, base + 2)];
    assert WindowsOf(w'.runs[0].params) == [Window(base, base + 1)];
    assert Step(w', both[3]).done == w'.done + WindowsOf(w'.runs[0].params);
    assert both[..3] == Overlap(base) && Run(w, both) == Step(w', both[3]);
    TiledStep(base, [Window(base, base + 2)], Window(base, base + 1));
  }

  // ----- Zero windows across runs --------------------------------------------------------------------

  /** Which windows of the successful runs were empty for a source, in order. */
  function EmptyHistory(w: World, events: seq<RunEvent>, source: string): seq<bool> {
    if events == [] then []
    else
      var front, ev := events[..|events|-1], events[|events|-1];
      var params := ResolveParams(History(w, front).row, ev.payload, ev.now);
      EmptyHistory(w, front, source)
      + if ev.outcome.Succeeds? && params.Ok? then EmptyFlags(WindowsOf(params.value), source, ev.count) else []
  }

  lemma {:induction false} ZeroRunOfConcat(previous: nat, a: seq<bool>, b: seq<bool>)
    ensures ZeroRun(previous, a + b) == ZeroRun(ZeroRun(previous, a), b)
  {
    if b == [] {
      assert a + b == a;
    } else {
      assert (a + b)[..|a + b|-1] == a + b[..|b|-1];
      ZeroRunOfConcat(previous, a, b[..|b|-1]);
    }
  }

  /** After any history of runs that do not overlap, whatever their parameters and however they
      ended, the stored count of a source is the length of the trailing run of empty windows
      over all windows of the successful runs. */
  lemma {:induction false} StoredCountIsTrailingEmptyRun(w: World, events: seq<RunEvent>, source: string)
    requires w.row.None? && w.runs == map[] && source in SOURCES
    ensures History(w, events).runs == map[]
    ensures CountOf(StoredCounts(History(w, events).row), source) == ZeroRun(0, EmptyHistory(w, events, source))
  {
    if events != [] {
      var front, ev := events[..|events|-1], events[|events|-1];
      StoredCountIsTrailingEmptyRun(w, front, source);
      var before := History(w, front);
      var params := ResolveParams(before.row, ev.payload, ev.now);
      CountAfterRun(before, ev, source);
      if ev.outcome.Succeeds? && params.Ok? {
        ZeroRunOfConcat(0, EmptyHistory(w, front, source), EmptyFlags(WindowsOf(params.value), source, ev.count));
      } else {
        assert EmptyHistory(w, events, source) == EmptyHistory(w, front, source);
      }
    }
  }

  lemma {:induction false} CountAfterRun(w: World, ev: RunEvent, source: string)
    requires w.runs == map[] && source in SOURCES
    ensures WholeRun(w, ev).runs == map[]
    ensures var params := ResolveParams(w.row, ev.payload, ev.now);
            CountOf(StoredCounts(WholeRun(w, ev).row), source)
            == if ev.outcome.Succeeds? && params.Ok?
               then ZeroRun(CountOf(StoredCounts(w.row), source), EmptyFlags(WindowsOf(params.value), source, ev.count))
               else CountOf(StoredCounts(w.row), source)
  {
    WholeRunIs(w, ev);
    var params := ResolveParams(w.row, ev.payload, ev.now);
    if params.Ok? && ev.outcome.Succeeds? {
      var counts := CountsAfter(StoredCounts(w.row), WindowsOf(params.value), ev.count);
      assert source in counts && ParsedCounts(SerializeZeroWindowCounts(counts))[source] == Clamp(counts[source]);
    }
  }

  /** The last k windows exist and are all empty. */
  predicate LastEmpty(empty: seq<bool>, k: nat) {
    k <= |empty| && forall i | |empty| - k <= i < |empty| :: empty[i]
  }

  lemma {:induction false} ZeroRunReaches(empty: seq<bool>, k: nat)
    ensures ZeroRun(0, empty) >= k <==> LastEmpty(empty, k)
  {
    if empty != [] && k > 0 {
      var front := empty[..|empty|-1];
      ZeroRunReaches(front, k - 1);
      if empty[|empty|-1] {
        assert LastEmpty(empty, k) <==> LastEmpty(front, k - 1) by {
          assert forall i | 0 <= i < |front| :: front[i] == empty[i];
        }
      }
    }
  }

  /** With a critical level of k windows (and no lower threshold), the status of a source in window n
      of a run is a critical drop suspicion exactly when its last k windows, this one, the earlier
      ones of the run and those of earlier runs taken together, are empty. */
  lemma {:induction false} EventDropCriticalIff(w: World, events: seq<RunEvent>, source: string, windows: seq<Window>,
                                                n: nat, count: (string, Window) -> nat, measured: Counts, k: nat,
                                                rule: Rule)
    requires w.row.None? && w.runs == map[] && source in SOURCES && n < |windows|
    requires Counted(StoredCounts(History(w, events).row), windows[..n+1], SOURCES, count, measured)
    requires rule.crit == Some(k as real) && (rule.threshold.Some? ==> rule.threshold.value >= k as real)
    ensures EvaluateDqSeverity(Some(measured[source] as real), Some(rule)) == Some(CRITICAL)
            <==> LastEmpty(EmptyHistory(w, events, source) + EmptyFlags(windows[..n+1], source, count), k)
  {
    var flags, now := EmptyHistory(w, events, source), EmptyFlags(windows[..n+1], source, count);
    StoredCountIsTrailingEmptyRun(w, events, source);
    ZeroRunOfConcat(0, flags, now);
    ZeroRunReaches(flags + now, k);
  }
}
